/** The screen presenter (crypto_display.cpp): which regions displayAsset
    redraws given what it showed last, the price text with thousands
    separators, the centring of icon and name, and the icon and arrow
    choices. Drawing is modelled as the sequence of operations issued;
    pixels, fonts and colours are not modelled. */
module CryptoDisplay {
  import opened Wrappers
  import opened Assets
  import opened Text

  const SCREEN_WIDTH: int := 240
  const ICON_SIZE: int := 24
  const ICON_TEXT_GAP: int := 8
  const TEXT_Y_POS: int := 8

  datatype Arrow = UpArrow | DownArrow

  datatype Icon = BtcIcon | EthIcon | XrpIcon | MsftIcon

  /** One drawing step. DrawPrice clears the price area first, DrawTimestamp
      the timestamp area; DrawMessage is the title and line of a status screen. */
  datatype DrawOp =
    | ClearScreen
    | DrawIcon(icon: Icon, x: int, y: int)
    | DrawName(name: string, x: int)
    | DrawUpdatedLabel
    | DrawFrame
    | DrawPrice(text: string, arrow: Option<Arrow>)
    | DrawTimestamp(text: string)
    | DrawMessage(title: string, line: string)

  /** What displayAsset last put on screen: symbol, price text, timestamp text. */
  datatype Snapshot = Snapshot(symbol: string, price: string, updated: string)

  // ------------------------------------------------------------ icon, arrow

  /** displayIcon: an image only for the four known symbols. */
  function IconFor(symbol: string): (r: Option<Icon>)
    ensures r.Some? <==> symbol in {"BTC", "ETH", "XRP", "MSFT"}
    ensures r == Some(BtcIcon) <==> symbol == "BTC"
    ensures r == Some(EthIcon) <==> symbol == "ETH"
    ensures r == Some(XrpIcon) <==> symbol == "XRP"
    ensures r == Some(MsftIcon) <==> symbol == "MSFT"
  {
    if symbol == "BTC" then Some(BtcIcon)
    else if symbol == "ETH" then Some(EthIcon)
    else if symbol == "XRP" then Some(XrpIcon)
    else if symbol == "MSFT" then Some(MsftIcon)
    else None
  }

  /** displayPriceArrow: no arrow before the first update, then up exactly
      when the last movement was upward. */
  function ArrowFor(a: AssetData): (r: Option<Arrow>)
    ensures r.None? <==> a.firstUpdate
    ensures r == Some(UpArrow) <==> !a.firstUpdate && a.priceIncreased
    ensures r == Some(DownArrow) <==> !a.firstUpdate && !a.priceIncreased
  {
    if a.firstUpdate then None else if a.priceIncreased then Some(UpArrow) else Some(DownArrow)
  }

  // ---------------------------------------------------------------- centring

  /** C's integer division, which truncates toward zero. */
  function TruncDiv(a: int, b: int): (q: int)
    requires b > 0
    ensures a >= 0 ==> q == a / b
    ensures a < 0 ==> q == -((-a) / b)
  {
    if a >= 0 then a / b else -((-a) / b)
  }

  /** calculateCenterPosition: icon, gap and name centred as one block. */
  function CalculateCenterPosition(a: AssetData): (r: AssetData)
    ensures r.iconX == TruncDiv(SCREEN_WIDTH - (ICON_SIZE + ICON_TEXT_GAP + a.nameWidth), 2)
    ensures r.textX == r.iconX + ICON_SIZE + ICON_TEXT_GAP
    ensures r == a.(iconX := r.iconX, textX := r.textX)
  {
    var iconX := TruncDiv(SCREEN_WIDTH - (ICON_SIZE + ICON_TEXT_GAP + a.nameWidth), 2);
    a.(iconX := iconX, textX := iconX + ICON_SIZE + ICON_TEXT_GAP)
  }

  /** When the block fits, the space left of the icon and the space right of
      the name differ by at most one pixel (the odd pixel goes right). */
  lemma CenteredMargins(a: AssetData)
    requires 0 <= a.nameWidth <= SCREEN_WIDTH - ICON_SIZE - ICON_TEXT_GAP
    ensures var r := CalculateCenterPosition(a);
      var left, right := r.iconX, SCREEN_WIDTH - (r.textX + a.nameWidth);
      0 <= left && (right == left || right == left + 1)
  {
  }

  // ----------------------------------------------------------- price text

  /** String::indexOf(c): the first position of c, or -1. */
  function IndexOf(s: string, c: char): (i: int)
    ensures -1 <= i < |s|
    ensures i == -1 <==> c !in s
    ensures i >= 0 ==> s[i] == c && forall j :: 0 <= j < i ==> s[j] != c
  {
    if s == [] then -1
    else if s[0] == c then 0
    else var j := IndexOf(s[1..], c); if j == -1 then -1 else j + 1
  }

  /** A position holding c with no c before it is what IndexOf finds. */
  lemma IndexOfIs(s: string, c: char, i: int)
    requires 0 <= i < |s| && s[i] == c && forall j :: 0 <= j < i ==> s[j] != c
    ensures IndexOf(s, c) == i
  {
  }

  /** The reference grouping: the last three characters form a group, and
      what precedes them is grouped the same way, separated by a comma. */
  function GroupThousands(s: string): (r: string)
    decreases |s|
  {
    if |s| <= 3 then s else GroupThousands(s[..|s| - 3]) + "," + s[|s| - 3..]
  }

  /** formatPrice's rule: a comma before position i of an integer part of
      length n exactly when i > 0 and n - i is a multiple of three. */
  predicate CommaBefore(n: int, i: int) {
    i > 0 && (n - i) % 3 == 0
  }

  /** The first i characters of s with commas placed by formatPrice's rule
      for an integer part of length n (the loop's partial result). */
  function Grouped(s: string, n: int, i: nat): string
    requires i <= |s|
  {
    if i == 0 then "" else Grouped(s, n, i - 1) + (if CommaBefore(n, i - 1) then "," else "") + [s[i - 1]]
  }

  lemma {:induction false} GroupedPrefixOnly(s: string, t: string, n: int, i: nat)
    requires i <= |s| && i <= |t| && s[..i] == t[..i]
    ensures Grouped(s, n, i) == Grouped(t, n, i)
  {
    if i > 0 {
      assert s[..i - 1] == t[..i - 1];
      assert s[i - 1] == s[..i][i - 1] == t[..i][i - 1] == t[i - 1];
      GroupedPrefixOnly(s, t, n, i - 1);
    }
  }

  lemma {:induction false} GroupedModThree(s: string, n: int, i: nat)
    requires i <= |s|
    ensures Grouped(s, n, i) == Grouped(s, n - 3, i)
  {
    if i > 0 {
      GroupedModThree(s, n, i - 1);
      assert CommaBefore(n, i - 1) == CommaBefore(n - 3, i - 1);
    }
  }

  lemma {:induction false} GroupedShort(s: string, n: int, i: nat)
    requires i <= |s| && i <= n <= 3
    ensures Grouped(s, n, i) == s[..i]
  {
    if i > 0 {
      GroupedShort(s, n, i - 1);
      assert !CommaBefore(n, i - 1);
      assert s[..i] == s[..i - 1] + [s[i - 1]];
    }
  }

  /** The left-to-right loop produces the reference grouping. */
  lemma {:induction false} GroupedIsGroupThousands(s: string)
    ensures Grouped(s, |s|, |s|) == GroupThousands(s)
    decreases |s|
  {
    var n := |s|;
    if n <= 3 {
      GroupedShort(s, n, n);
      assert s[..n] == s;
    } else {
      var head := s[..n - 3];
      assert !CommaBefore(n, n - 1) && !CommaBefore(n, n - 2) && CommaBefore(n, n - 3);
      assert Grouped(s, n, n) == Grouped(s, n, n - 1) + [s[n - 1]];
      assert Grouped(s, n, n - 1) == Grouped(s, n, n - 2) + [s[n - 2]];
      assert Grouped(s, n, n - 2) == Grouped(s, n, n - 3) + "," + [s[n - 3]];
      assert s[n - 3..] == [s[n - 3], s[n - 2], s[n - 1]];
      assert Grouped(s, n, n) == Grouped(s, n, n - 3) + "," + s[n - 3..];
      GroupedPrefixOnly(s, head, n, n - 3);
      GroupedModThree(head, n, n - 3);
      GroupedIsGroupThousands(head);
    }
  }

  /** formatPrice applied to the two-decimal text of the price: the integer
      part grouped by thousands, the decimal part (from the point) unchanged;
      text without a point is returned as it is. */
  function FormatNumber(num: string): (r: string)
  {
    var dot := IndexOf(num, '.');
    if dot == -1 then num else GroupThousands(num[..dot]) + num[dot..]
  }

  /** formatPrice's loop over the text that String(price, 2) produced. */
  method FormatPrice(num: string) returns (r: string)
    ensures r == FormatNumber(num)
  {
    var decimalPos := IndexOf(num, '.');
    if decimalPos == -1 {
      return num;
    }
    var integerPart := num[..decimalPos];
    var decimalPart := num[decimalPos..];
    var formatted := "";
    var length := |integerPart|;
    for i := 0 to length
      invariant formatted == Grouped(integerPart, length, i)
    {
      if i > 0 && (length - i) % 3 == 0 {
        formatted := formatted + ",";
      }
      formatted := formatted + [integerPart[i]];
    }
    GroupedIsGroupThousands(integerPart);
    return formatted + decimalPart;
  }

  /** The text with every comma removed. */
  function StripCommas(s: string): (r: string)
    ensures ',' !in r
  {
    if s == [] then [] else StripCommas(s[..|s| - 1]) + (if s[|s| - 1] == ',' then [] else [s[|s| - 1]])
  }

  lemma {:induction false} StripCommasAppend(a: string, b: string)
    ensures StripCommas(a + b) == StripCommas(a) + StripCommas(b)
    decreases |b|
  {
    if b != [] {
      assert (a + b)[..|a + b| - 1] == a + b[..|b| - 1];
      StripCommasAppend(a, b[..|b| - 1]);
    } else {
      assert a + b == a;
    }
  }

  lemma {:induction false} StripCommasNone(s: string)
    requires ',' !in s
    ensures StripCommas(s) == s
    decreases |s|
  {
    if s != [] {
      assert ',' !in s[..|s| - 1];
      StripCommasNone(s[..|s| - 1]);
    }
  }

  /** Deleting the commas from the grouped text gives back the integer part. */
  lemma {:induction false} StripGroupThousands(s: string)
    requires ',' !in s
    ensures StripCommas(GroupThousands(s)) == s
    decreases |s|
  {
    if |s| <= 3 {
      StripCommasNone(s);
    } else {
      var head, tail := s[..|s| - 3], s[|s| - 3..];
      assert ',' !in head by {
        forall i | 0 <= i < |head| ensures head[i] != ',' { assert head[i] == s[i]; }
      }
      assert ',' !in tail by {
        forall i | 0 <= i < |tail| ensures tail[i] != ',' { assert tail[i] == s[|s| - 3 + i]; }
      }
      var g := GroupThousands(head);
      assert StripCommas(",") == [];
      calc {
        StripCommas(GroupThousands(s));
        StripCommas(g + "," + tail);
        { StripCommasAppend(g + ",", tail); }
        StripCommas(g + ",") + StripCommas(tail);
        { StripCommasAppend(g, ","); }
        StripCommas(g) + StripCommas(tail);
        { StripGroupThousands(head); StripCommasNone(tail); }
        head + tail;
        s;
      }
    }
  }

  /** The digit groups, first to last: the first holds one to three
      characters, every later group exactly three, and together they are s. */
  function DigitGroups(s: string): (gs: seq<string>)
    ensures |gs| >= 1
    ensures |s| >= 1 ==> 1 <= |gs[0]| <= 3
    ensures forall i :: 1 <= i < |gs| ==> |gs[i]| == 3
    decreases |s|
  {
    if |s| <= 3 then [s] else DigitGroups(s[..|s| - 3]) + [s[|s| - 3..]]
  }

  function Concat(gs: seq<string>): string
  {
    if gs == [] then "" else Concat(gs[..|gs| - 1]) + gs[|gs| - 1]
  }

  function JoinCommas(gs: seq<string>): string
    requires |gs| >= 1
  {
    if |gs| == 1 then gs[0] else JoinCommas(gs[..|gs| - 1]) + "," + gs[|gs| - 1]
  }

  /** The grouped text is the digit groups joined by commas, and the groups
      concatenate back to the integer part. */
  lemma {:induction false} GroupThousandsShape(s: string)
    ensures GroupThousands(s) == JoinCommas(DigitGroups(s))
    ensures Concat(DigitGroups(s)) == s
    decreases |s|
  {
    if |s| > 3 {
      var head := s[..|s| - 3];
      var gs := DigitGroups(s);
      GroupThousandsShape(head);
      assert gs[..|gs| - 1] == DigitGroups(head);
      assert s == head + s[|s| - 3..];
    } else {
      assert Concat([s]) == Concat([]) + s;
    }
  }

  /** The sign counts as a digit: a minus sign before a multiple of three
      integer digits gets a comma after it. */
  lemma NegativeSignGrouped(digits: string, fraction: string)
    requires |digits| == 3 && AllDigits(digits)
    requires |fraction| >= 1 && fraction[0] == '.'
    ensures FormatNumber("-" + digits + fraction) == "-," + digits + fraction
  {
    var num := "-" + digits + fraction;
    IndexOfIs(num, '.', 4);
    var integerPart := num[..4];
    assert integerPart == "-" + digits;
    assert integerPart[..1] == "-" && integerPart[1..] == digits;
    assert GroupThousands(integerPart) == GroupThousands("-") + "," + digits == "-," + digits;
    assert num[4..] == fraction;
    assert FormatNumber(num) == GroupThousands(integerPart) + num[4..];
  }

  /** Seven integer digits are grouped 1,234,567. */
  lemma MillionsGrouped()
    ensures GroupThousands("1234567") == "1,234,567"
  {
    assert "1234567"[..4] == "1234" && "1234"[..1] == "1";
    assert GroupThousands("1234") == "1,234";
  }

  // ------------------------------------------------------------- diffing

  /** The full-screen part of a redraw when the asset changed. */
  function FullRedraw(asset: AssetData): (ops: seq<DrawOp>)
    ensures |ops| >= 1 && ops[0] == ClearScreen && ops[|ops| - 1] == DrawFrame
    ensures DrawName(asset.name, CalculateCenterPosition(asset).textX) in ops
    ensures DrawUpdatedLabel in ops
    ensures IconFor(asset.symbol).Some? <==> exists op :: op in ops && op.DrawIcon?
    ensures IconFor(asset.symbol).Some? ==>
              DrawIcon(IconFor(asset.symbol).value, CalculateCenterPosition(asset).iconX, TEXT_Y_POS + 4) in ops
    ensures forall op :: op in ops ==> !op.DrawPrice? && !op.DrawTimestamp?
  {
    var centered := CalculateCenterPosition(asset);
    var rest := [DrawName(asset.name, centered.textX), DrawUpdatedLabel, DrawFrame];
    match IconFor(asset.symbol)
    case Some(img) =>
      var ops := [ClearScreen, DrawIcon(img, centered.iconX, TEXT_Y_POS + 4)] + rest;
      assert ops[1].DrawIcon?;
      ops
    case None => [ClearScreen] + rest
  }

  /** displayAsset's decisions given what was shown last: a full redraw on
      a symbol change; the price region when the price text changed or the
      asset did; the timestamp region when the timestamp changed or the asset
      did; the frame every time. */
  function Plan(shown: Snapshot, asset: AssetData, priceText: string): (ops: seq<DrawOp>)
    ensures ClearScreen in ops <==> shown.symbol != asset.symbol
    ensures DrawPrice(priceText, ArrowFor(asset)) in ops <==>
              shown.symbol != asset.symbol || shown.price != priceText
    ensures DrawTimestamp(asset.lastUpdated) in ops <==>
              shown.symbol != asset.symbol || shown.updated != asset.lastUpdated
    ensures forall op :: op in ops && op.DrawPrice? ==> op == DrawPrice(priceText, ArrowFor(asset))
    ensures forall op :: op in ops && op.DrawTimestamp? ==> op == DrawTimestamp(asset.lastUpdated)
    ensures |ops| >= 1 && ops[|ops| - 1] == DrawFrame
    ensures shown.symbol != asset.symbol ==>
              |ops| >= |FullRedraw(asset)| && ops[..|FullRedraw(asset)|] == FullRedraw(asset)
    ensures shown.symbol == asset.symbol ==>
              forall op :: op in ops ==> !op.DrawName? && !op.DrawIcon? && op != DrawUpdatedLabel
  {
    var assetChanged := shown.symbol != asset.symbol;
    var full := if assetChanged then FullRedraw(asset) else [];
    var price := if assetChanged || shown.price != priceText then [DrawPrice(priceText, ArrowFor(asset))] else [];
    var time := if assetChanged || shown.updated != asset.lastUpdated then [DrawTimestamp(asset.lastUpdated)] else [];
    full + price + time + [DrawFrame]
  }

  /** Showing the asset that is already on screen, unchanged, redraws no
      region: only the frame is drawn again. */
  lemma RepeatDrawsOnlyFrame(asset: AssetData, priceText: string)
    ensures Plan(Snapshot(asset.symbol, priceText, asset.lastUpdated), asset, priceText) == [DrawFrame]
  {
  }

  /** Switching to another asset redraws everything: the screen, the name,
      the price with its arrow and the timestamp. */
  lemma SwitchRedrawsAll(shown: Snapshot, asset: AssetData, priceText: string)
    requires shown.symbol != asset.symbol
    ensures var ops := Plan(shown, asset, priceText);
      && ops[0] == ClearScreen
      && DrawName(asset.name, CalculateCenterPosition(asset).textX) in ops
      && DrawPrice(priceText, ArrowFor(asset)) in ops
      && DrawTimestamp(asset.lastUpdated) in ops
  {
  }

  /** The full-screen message layout shared by displayError and
      displayWiFiStatus: the screen is cleared, then a title and one line are
      drawn, and none of the asset regions. */
  function MessageScreen(title: string, line: string): (ops: seq<DrawOp>)
    ensures |ops| == 2 && ops[0] == ClearScreen
    ensures ops[1].DrawMessage? && ops[1].title == title && ops[1].line == line
    ensures forall op :: op in ops ==> !op.DrawPrice? && !op.DrawTimestamp? && !op.DrawName? && op != DrawFrame
  {
    [ClearScreen, DrawMessage(title, line)]
  }

  /** CryptoDisplay with the snapshot that displayAsset keeps between calls
      (function-local statics in the C++). The two-decimal float rendering
      String(price, 2) is not modelled; it is the injected `toFixed`. */
  class CryptoDisplay {
    const toFixed: real -> string
    var shown: Snapshot

    constructor(toFixed: real -> string)
      ensures this.toFixed == toFixed
      ensures shown == Snapshot("", "", "")
    {
      this.toFixed := toFixed;
      shown := Snapshot("", "", "");
    }

    /** formatPrice(price): the grouped two-decimal text. */
    function PriceText(price: real): string
    {
      FormatNumber(toFixed(price))
    }

    /** displayAsset: draws what Plan decides and remembers what is shown. */
    method DisplayAsset(asset: AssetData) returns (ops: seq<DrawOp>)
      modifies this
      ensures ops == Plan(old(shown), asset, PriceText(asset.price))
      ensures shown == Snapshot(asset.symbol, PriceText(asset.price), asset.lastUpdated)
    {
      var assetChanged := shown.symbol != asset.symbol;
      var currentPrice := FormatPrice(toFixed(asset.price));
      var priceChanged := shown.price != currentPrice;
      var timeChanged := shown.updated != asset.lastUpdated;
      ops := [];
      if assetChanged {
        ops := FullRedraw(asset);
        shown := shown.(symbol := asset.symbol);
      }
      if priceChanged || assetChanged {
        ops := ops + [DrawPrice(currentPrice, ArrowFor(asset))];
        shown := shown.(price := currentPrice);
      }
      if timeChanged || assetChanged {
        ops := ops + [DrawTimestamp(asset.lastUpdated)];
        shown := shown.(updated := asset.lastUpdated);
      }
      ops := ops + [DrawFrame];
    }

    /** displayError: the "ERROR" screen with the message; the snapshot is not touched. */
    method DisplayError(message: string) returns (ops: seq<DrawOp>)
      ensures ops == MessageScreen("ERROR", message)
    {
      ops := MessageScreen("ERROR", message);
    }

    /** displayWiFiStatus: the "WiFi" screen with the status; the snapshot is not touched. */
    method DisplayWiFiStatus(status: string) returns (ops: seq<DrawOp>)
      ensures ops == MessageScreen("WiFi", status)
    {
      ops := MessageScreen("WiFi", status);
    }
  }
}

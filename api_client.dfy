/** The quote client (api_client.cpp): the price-movement rule, the two quote
    decoders, the HTTP outcome branches of the two fetches, and the client's
    last-error text. The network exchange itself is an input: whether the
    link is up, the status code, the body text and the body as deserialized. */
module ApiClient {
  import opened Wrappers
  import opened Text
  import opened Json
  import opened CivilTime
  import opened Assets

  /** The error texts the decoders and the WiFi check record. */
  const ERROR_NO_WIFI: string := "WiFi not connected"
  const ERROR_JSON: string := "JSON parsing failed: "
  const ERROR_NO_DATA: string := "API response missing 'data' section"
  const ERROR_MISSING_SYMBOL: string := "Missing data for "
  const ERROR_BAD_STRUCTURE: string := "Invalid data structure for "
  const ERROR_MISSING_PRICE: string := "Missing price data for "
  const ERROR_STOCK_JSON: string := "Stock JSON parsing failed: "
  const ERROR_STOCK_STRUCTURE: string := "Invalid stock API response structure"
  const ERROR_STOCK_PRICE: string := "Missing stock price data"

  // ---------------------------------------------------------------- movement

  /** The movement rule applied to each decoded price: the direction and the
      previous price move only when this is not the first update and the price
      actually changed; the price is always taken and `firstUpdate` cleared. */
  function TrackPrice(a: AssetData, newPrice: real): (r: AssetData)
    ensures r.price == newPrice && !r.firstUpdate
    ensures !a.firstUpdate && newPrice != a.price ==>
              r.previousPrice == a.price && r.priceIncreased == (newPrice > a.price)
    ensures a.firstUpdate || newPrice == a.price ==>
              r.previousPrice == a.previousPrice && r.priceIncreased == a.priceIncreased
    ensures SameIdentity(a, r) && r.lastUpdated == a.lastUpdated
  {
    var moved :=
      if !a.firstUpdate && newPrice != a.price
      then a.(priceIncreased := newPrice > a.price, previousPrice := a.price)
      else a;
    moved.(price := newPrice, firstUpdate := false)
  }

  /** The record after a run of decoded prices, oldest first. */
  function TrackAll(a: AssetData, prices: seq<real>): AssetData
    decreases |prices|
  {
    if prices == [] then a else TrackAll(TrackPrice(a, prices[0]), prices[1..])
  }

  lemma {:induction false} TrackAllSnoc(a: AssetData, prices: seq<real>, p: real)
    ensures TrackAll(a, prices + [p]) == TrackPrice(TrackAll(a, prices), p)
    decreases |prices|
  {
    if prices != [] {
      assert (prices + [p])[1..] == prices[1..] + [p];
      TrackAllSnoc(TrackPrice(a, prices[0]), prices[1..], p);
    }
  }

  /** The last position where the price differs from the one before it. */
  function LastChange(prices: seq<real>): (k: Option<nat>)
    ensures k.Some? ==> 1 <= k.value < |prices| && prices[k.value] != prices[k.value - 1]
    ensures k.Some? ==> forall j :: k.value < j < |prices| ==> prices[j] == prices[j - 1]
    ensures k.None? ==> forall j :: 1 <= j < |prices| ==> prices[j] == prices[j - 1]
  {
    if |prices| < 2 then None
    else if prices[|prices| - 1] != prices[|prices| - 2] then Some(|prices| - 1)
    else LastChange(prices[..|prices| - 1])
  }

  /** Starting from a fresh record, after a run of prices the arrow shows the
      direction of the last actual change and `previousPrice` is the price
      before that change; ticks with an unchanged price never flip it. With
      no change at all, both keep their initial values. */
  lemma {:induction false} MovementFollowsLastChange(a: AssetData, prices: seq<real>)
    requires a.firstUpdate && |prices| >= 1
    ensures var r := TrackAll(a, prices);
      && !r.firstUpdate && r.price == prices[|prices| - 1]
      && match LastChange(prices)
         case None => r.priceIncreased == a.priceIncreased && r.previousPrice == a.previousPrice
         case Some(k) => r.priceIncreased == (prices[k] > prices[k - 1]) && r.previousPrice == prices[k - 1]
    decreases |prices|
  {
    var n := |prices|;
    if n == 1 {
      assert prices[1..] == [];
    } else {
      var init := prices[..n - 1];
      assert prices == init + [prices[n - 1]];
      TrackAllSnoc(a, init, prices[n - 1]);
      MovementFollowsLastChange(a, init);
      if prices[n - 1] == prices[n - 2] {
        assert LastChange(prices) == LastChange(init);
      }
    }
  }

  /** The run 100, 100, 105, 105, 95 from a fresh record: the arrow turns up
      at the third price, stays up through the unchanged fourth, and turns
      down at the fifth. */
  lemma MovementExample(a: AssetData)
    requires a.firstUpdate
    ensures TrackAll(a, [100.0]).firstUpdate == false
    ensures TrackAll(a, [100.0, 100.0]).priceIncreased == a.priceIncreased
    ensures TrackAll(a, [100.0, 100.0, 105.0]).priceIncreased
    ensures TrackAll(a, [100.0, 100.0, 105.0, 105.0]).priceIncreased
    ensures !TrackAll(a, [100.0, 100.0, 105.0, 105.0, 95.0]).priceIncreased
    ensures TrackAll(a, [100.0, 100.0, 105.0, 105.0, 95.0]).previousPrice == 105.0
  {
  }

  // ---------------------------------------------------------- batch decoding

  /** Price and timestamp of one symbol in the batch response. */
  datatype Quote = Quote(price: real, lastUpdated: string)

  /** The checks parseJsonResponse makes for one symbol inside `data`, in
      order, with the error text each records; on success the price at
      SYM[0].quote.CAD.price and the text at SYM[0].quote.CAD.last_updated. */
  function QuoteFor(data: Json, symbol: string): (r: Result<Quote, string>)
    ensures r.Ok? <==>
              && ContainsKey(data, symbol)
              && data.members[symbol].Array? && |data.members[symbol].items| > 0
              && IsNumber(Path(data.members[symbol].items[0], ["quote", "CAD", "price"]))
    ensures r.Ok? ==>
              r.value.price == AsFloat(Path(data.members[symbol].items[0], ["quote", "CAD", "price"]))
    ensures r.Ok? ==>
              r.value.lastUpdated == AsString(Path(data.members[symbol].items[0], ["quote", "CAD", "last_updated"]))
    ensures !ContainsKey(data, symbol) ==> r == Err(ERROR_MISSING_SYMBOL + symbol)
  {
    if !ContainsKey(data, symbol) then Err(ERROR_MISSING_SYMBOL + symbol)
    else
      var entry := Member(data, symbol);
      if !entry.Array? || Size(entry) == 0 then Err(ERROR_BAD_STRUCTURE + symbol)
      else
        var cad := Path(At(entry, 0), ["quote", "CAD"]);
        assert Path(At(entry, 0), ["quote", "CAD", "price"]) == Member(cad, "price");
        assert Path(At(entry, 0), ["quote", "CAD", "last_updated"]) == Member(cad, "last_updated");
        if !IsNumber(Member(cad, "price")) then Err(ERROR_MISSING_PRICE + symbol)
        else Ok(Quote(AsFloat(Member(cad, "price")), AsString(Member(cad, "last_updated"))))
  }

  /** The record after one decoded quote: movement rule, then price and timestamp. */
  function ApplyQuote(a: AssetData, q: Quote): (r: AssetData)
    ensures r.price == q.price && r.lastUpdated == q.lastUpdated && !r.firstUpdate
    ensures !a.firstUpdate && q.price != a.price ==>
              r.previousPrice == a.price && r.priceIncreased == (q.price > a.price)
    ensures a.firstUpdate || q.price == a.price ==>
              r.previousPrice == a.previousPrice && r.priceIncreased == a.priceIncreased
    ensures SameIdentity(a, r)
  {
    TrackPrice(a, q.price).(lastUpdated := q.lastUpdated)
  }

  /** The record as the batch loop leaves it once its symbol decoded, or as it was. */
  function Updated(a: AssetData, data: Json): AssetData
  {
    match QuoteFor(data, a.symbol)
    case Ok(q) => ApplyQuote(a, q)
    case Err(_) => a
  }

  /** The table with its first k records updated from `data`. */
  function UpdatedPrefix(table: seq<AssetData>, data: Json, k: nat): (r: seq<AssetData>)
    requires k <= |table|
    ensures |r| == |table|
    ensures forall j :: 0 <= j < k ==> r[j] == Updated(table[j], data)
    ensures forall j :: k <= j < |table| ==> r[j] == table[j]
  {
    seq(|table|, j requires 0 <= j < |table| => if j < k then Updated(table[j], data) else table[j])
  }

  /** The first of the records i..count-1 whose symbol fails to decode, or count. */
  function FirstFailure(data: Json, table: seq<AssetData>, i: nat, count: nat): (k: nat)
    requires i <= count <= |table|
    ensures i <= k <= count
    ensures forall j :: i <= j < k ==> QuoteFor(data, table[j].symbol).Ok?
    ensures k < count ==> QuoteFor(data, table[k].symbol).Err?
    decreases count - i
  {
    if i == count || QuoteFor(data, table[i].symbol).Err? then i
    else FirstFailure(data, table, i + 1, count)
  }

  lemma FirstFailureIs(data: Json, table: seq<AssetData>, count: nat, k: nat)
    requires k <= count <= |table|
    requires forall j :: 0 <= j < k ==> QuoteFor(data, table[j].symbol).Ok?
    requires k < count ==> QuoteFor(data, table[k].symbol).Err?
    ensures FirstFailure(data, table, 0, count) == k
  {
  }

  /** What a decode of the table's first `count` records leaves behind: the
      verdict, the table, and the error text recorded (none on success). */
  datatype BatchResult = BatchResult(ok: bool, table: seq<AssetData>, error: Option<string>)

  /** parseJsonResponse over the records 0..count-1, stated on values. */
  function DecodeBatch(payload: ParsedPayload, table: seq<AssetData>, count: nat): (r: BatchResult)
    requires count <= |table|
    ensures |r.table| == |table|
    ensures r.ok <==> r.error.None?
    ensures r.table[count..] == table[count..]
  {
    match payload
    case Malformed(e) => BatchResult(false, table, Some(ERROR_JSON + e))
    case Parsed(doc) =>
      if !ContainsKey(doc, "data") then
        BatchResult(false, table, Some(ERROR_NO_DATA))
      else
        var data := Member(doc, "data");
        var k := FirstFailure(data, table, 0, count);
        if k < count then
          BatchResult(false, UpdatedPrefix(table, data, k), Some(QuoteFor(data, table[k].symbol).error))
        else
          BatchResult(true, UpdatedPrefix(table, data, count), None)
  }

  /** The batch succeeds exactly when the payload is JSON, has `data`, and
      every requested symbol decodes. */
  lemma DecodeBatchSucceedsIff(payload: ParsedPayload, table: seq<AssetData>, count: nat)
    requires count <= |table|
    ensures DecodeBatch(payload, table, count).ok <==>
              && payload.Parsed? && ContainsKey(payload.doc, "data")
              && forall i :: 0 <= i < count ==> QuoteFor(payload.doc.members["data"], table[i].symbol).Ok?
  {
    if payload.Parsed? && ContainsKey(payload.doc, "data") {
      var data := payload.doc.members["data"];
      var k := FirstFailure(data, table, 0, count);
      if k < count {
        assert QuoteFor(data, table[k].symbol).Err?;
      }
    }
  }

  /** After a successful batch every requested record carries its decoded
      price and timestamp with `firstUpdate` cleared; the rest are untouched. */
  lemma DecodeBatchSuccess(payload: ParsedPayload, table: seq<AssetData>, count: nat, i: nat)
    requires count <= |table| && i < |table|
    requires DecodeBatch(payload, table, count).ok
    ensures var r := DecodeBatch(payload, table, count);
      i < count ==>
        && QuoteFor(payload.doc.members["data"], table[i].symbol).Ok?
        && var q := QuoteFor(payload.doc.members["data"], table[i].symbol).value;
           r.table[i] == ApplyQuote(table[i], q)
           && r.table[i].price == q.price && !r.table[i].firstUpdate
    ensures i >= count ==> DecodeBatch(payload, table, count).table[i] == table[i]
  {
  }

  /** Whatever the payload, the batch only ever touches prices and status:
      every record keeps what it is. */
  lemma DecodeBatchKeepsIdentity(payload: ParsedPayload, table: seq<AssetData>, count: nat, i: nat)
    requires count <= |table| && i < |table|
    ensures SameIdentity(table[i], DecodeBatch(payload, table, count).table[i])
  {
    if payload.Parsed? && ContainsKey(payload.doc, "data") {
      var data := Member(payload.doc, "data");
      var k := FirstFailure(data, table, 0, count);
      var r := DecodeBatch(payload, table, count);
      assert r.table == UpdatedPrefix(table, data, if k < count then k else count);
      assert r.table[i] == Updated(table[i], data) || r.table[i] == table[i];
    }
  }

  /** A failure at symbol k is not atomic: records 0..k-1 keep the updates
      already applied, records k onwards are untouched, and the recorded
      error is that of symbol k. */
  lemma DecodeBatchFailsAt(payload: ParsedPayload, table: seq<AssetData>, count: nat, k: nat)
    requires k < count <= |table|
    requires payload.Parsed? && ContainsKey(payload.doc, "data")
    requires forall j :: 0 <= j < k ==> QuoteFor(payload.doc.members["data"], table[j].symbol).Ok?
    requires QuoteFor(payload.doc.members["data"], table[k].symbol).Err?
    ensures var r := DecodeBatch(payload, table, count);
      && !r.ok
      && r.error == Some(QuoteFor(payload.doc.members["data"], table[k].symbol).error)
      && (forall j :: 0 <= j < k ==> r.table[j] == ApplyQuote(table[j], QuoteFor(payload.doc.members["data"], table[j].symbol).value))
      && r.table[k..] == table[k..]
  {
    FirstFailureIs(payload.doc.members["data"], table, count, k);
  }

  /** An input on which the batch fails yet changes the table: BTC decodes,
      ETH is absent, and BTC's new price stays in place. */
  lemma DecodeBatchNotAtomicExample(btc: AssetData, eth: AssetData)
    requires btc.symbol == "BTC" && eth.symbol == "ETH" && btc.price == 0.0
    ensures var cad := Object(map["price" := Float(1.5), "last_updated" := Str("now")]);
      var doc := Object(map["data" := Object(map["BTC" := Array([Object(map["quote" := Object(map["CAD" := cad])])])])]);
      var r := DecodeBatch(Parsed(doc), [btc, eth], 2);
      !r.ok && r.table[0].price == 1.5 && r.table[1] == eth && r.table != [btc, eth]
  {
    var cad := Object(map["price" := Float(1.5), "last_updated" := Str("now")]);
    var data := Object(map["BTC" := Array([Object(map["quote" := Object(map["CAD" := cad])])])]);
    var doc := Object(map["data" := data]);
    assert Path(data.members["BTC"].items[0], ["quote", "CAD", "price"]) == Float(1.5);
    assert QuoteFor(data, "BTC").Ok?;
    assert "ETH" !in data.members;
    DecodeBatchFailsAt(Parsed(doc), [btc, eth], 2, 1);
  }

  // ---------------------------------------------------------- stock decoding

  /** What a stock decode leaves behind. */
  datatype StockResult = StockResult(ok: bool, stock: AssetData, error: Option<string>)

  /** The stock's `lastUpdated` after a decode: the UTC rendering of the epoch
      seconds in `timestamp`, or "Just now" when the field is absent. */
  function StockTimestamp(quote: Json): (s: string)
    ensures ContainsKey(quote, "timestamp") ==> |s| == 24 && IsIsoShape(s)
    ensures !ContainsKey(quote, "timestamp") ==> s == "Just now"
  {
    if ContainsKey(quote, "timestamp") then EpochToIso(AsULong(Member(quote, "timestamp")))
    else "Just now"
  }

  /** parseStockJsonResponse on values: a non-empty array whose first element
      has `price`; otherwise the record is untouched and an error recorded. */
  function DecodeStock(payload: ParsedPayload, stock: AssetData): (r: StockResult)
    ensures r.ok <==> r.error.None?
    ensures r.ok <==>
              payload.Parsed? && payload.doc.Array? && |payload.doc.items| > 0
              && ContainsKey(payload.doc.items[0], "price")
    ensures !r.ok ==> r.stock == stock
    ensures r.ok ==>
              && r.stock == TrackPrice(stock, AsFloat(payload.doc.items[0].members["price"]))
                              .(lastUpdated := StockTimestamp(payload.doc.items[0]))
              && !r.stock.firstUpdate
  {
    match payload
    case Malformed(e) => StockResult(false, stock, Some(ERROR_STOCK_JSON + e))
    case Parsed(doc) =>
      if !doc.Array? || Size(doc) == 0 then
        StockResult(false, stock, Some(ERROR_STOCK_STRUCTURE))
      else
        var quote := At(doc, 0);
        if !ContainsKey(quote, "price") then StockResult(false, stock, Some(ERROR_STOCK_PRICE))
        else
          var tracked := TrackPrice(stock, AsFloat(Member(quote, "price")));
          StockResult(true, tracked.(lastUpdated := StockTimestamp(quote)), None)
  }

  /** With a timestamp present, the stock's `lastUpdated` reads back as
      exactly that many epoch seconds. */
  lemma StockTimestampRoundTrip(quote: Json)
    requires ContainsKey(quote, "timestamp")
    ensures var t := AsULong(quote.members["timestamp"]);
      ParseIso(StockTimestamp(quote)) == Some(Gmtime(t)) && ToEpoch(Gmtime(t)) == t
  {
    EpochToIsoRoundTrip(AsULong(quote.members["timestamp"]));
  }

  // ---------------------------------------------------------- HTTP outcomes

  /** Which of the two upstream APIs a fetch talks to. */
  datatype Api = CryptoQuotes | StockQuote

  const HTTP_CODE_OK: int := 200

  /** One request as the network answered it: whether WiFi was up when the
      fetch began, the status code (zero or negative for a transport
      failure), the body text, and the body as deserialized. */
  datatype Exchange = Exchange(linkUp: bool, code: int, body: string, payload: ParsedPayload)

  /** The error texts of the status branches. */
  const ERROR_KEY: string := "API Key invalid or expired"
  const ERROR_STOCK_KEY: string := "Stock API Key invalid or expired"
  const ERROR_FORBIDDEN: string := "API access forbidden - check your plan"
  const ERROR_STOCK_FORBIDDEN: string := "Stock API access forbidden - check your plan"
  const ERROR_RATE: string := "API rate limit exceeded"
  const ERROR_STOCK_RATE: string := "Stock API rate limit exceeded"
  const ERROR_CONNECTION: string := "Connection failed: "
  const ERROR_STOCK_CONNECTION: string := "Stock API connection failed: "
  const ERROR_HTTP: string := "HTTP error "

  /** The text recorded when the request never got a status (code zero or
      negative): the API's connection text followed by the code. */
  function TransportMessage(api: Api, code: int): (m: string)
    ensures var p := if api == CryptoQuotes then ERROR_CONNECTION else ERROR_STOCK_CONNECTION;
      |m| > |p| && m[..|p|] == p && m[|p|..] == IntToString(code)
  {
    (if api == CryptoQuotes then ERROR_CONNECTION else ERROR_STOCK_CONNECTION) + IntToString(code)
  }

  /** The text recorded for a status with no message of its own: it starts
      "HTTP error " and ends with the response body. */
  function GenericMessage(code: int, body: string): (m: string)
    ensures |m| > |ERROR_HTTP| + |body| && m[..|ERROR_HTTP|] == ERROR_HTTP && m[|m| - |body|..] == body
  {
    ERROR_HTTP + IntToString(code) + ": " + body
  }

  /** The text setError records for a status other than 200: a fixed text
      naming the API for 401, 403 and 429; for any other response the code
      and the response body; for a transport failure the negative code. */
  function HttpFailureMessage(api: Api, code: int, body: string): (m: string)
    requires code != HTTP_CODE_OK
    ensures code == 401 ==> m == (if api == CryptoQuotes then ERROR_KEY else ERROR_STOCK_KEY)
    ensures code == 403 ==> m == (if api == CryptoQuotes then ERROR_FORBIDDEN else ERROR_STOCK_FORBIDDEN)
    ensures code == 429 ==> m == (if api == CryptoQuotes then ERROR_RATE else ERROR_STOCK_RATE)
    ensures FailureKind(code) == 4 ==> m == GenericMessage(code, body)
    ensures code <= 0 ==> m == TransportMessage(api, code)
  {
    if code > 0 then
      if code == 401 then
        (if api == CryptoQuotes then ERROR_KEY else ERROR_STOCK_KEY)
      else if code == 403 then
        (if api == CryptoQuotes then ERROR_FORBIDDEN
         else ERROR_STOCK_FORBIDDEN)
      else if code == 429 then
        (if api == CryptoQuotes then ERROR_RATE else ERROR_STOCK_RATE)
      else GenericMessage(code, body)
    else TransportMessage(api, code)
  }

  lemma NatPrefixDiffers(s1: string, s2: string, t1: string, t2: string)
    requires AllDigits(s1) && AllDigits(s2) && s1 != s2
    requires |t1| >= 1 && |t2| >= 1 && t1[0] == ':' && t2[0] == ':'
    ensures s1 + t1 != s2 + t2
  {
    if |s1| == |s2| {
      var i :| 0 <= i < |s1| && s1[i] != s2[i];
      assert (s1 + t1)[i] != (s2 + t2)[i];
    } else if |s1| < |s2| {
      assert (s1 + t1)[|s1|] != (s2 + t2)[|s1|];
    } else {
      assert (s1 + t1)[|s2|] != (s2 + t2)[|s2|];
    }
  }

  /** Which branch of the status handling a failing code takes: transport
      failure, 401, 403, 429, or any other status. */
  function FailureKind(code: int): int
  {
    if code <= 0 then 0 else if code == 401 then 1 else if code == 403 then 2
    else if code == 429 then 3 else 4
  }

  /** Where the texts of the five branches first differ: after "API " in
      the crypto texts, after "Stock API " in the stock texts. */
  function MarkIndex(api: Api): nat
  {
    if api == CryptoQuotes then 4 else 10
  }

  /** The character each branch's text has at MarkIndex. */
  function BranchMark(api: Api, kind: int): char
  {
    if kind == 4 then ' '
    else if kind == 1 then 'K'
    else if kind == 2 then 'a'
    else if kind == 3 then 'r'
    else if api == CryptoQuotes then 'e'
    else 'c'
  }

  /** The branch taken shows in one character of the message. */
  lemma MessageMark(api: Api, code: int, body: string)
    requires code != HTTP_CODE_OK
    ensures |HttpFailureMessage(api, code, body)| > MarkIndex(api)
    ensures HttpFailureMessage(api, code, body)[MarkIndex(api)] == BranchMark(api, FailureKind(code))
  {
    var m, i := HttpFailureMessage(api, code, body), MarkIndex(api);
    if code <= 0 {
      TransportMark(api, code);
    } else if FailureKind(code) == 4 {
      GenericMark(code, body, i);
    } else {
      FixedMarks();
    }
  }

  /** The fixed texts of 401, 403 and 429 at the mark position. */
  lemma FixedMarks()
    ensures ERROR_KEY[4] == 'K' && ERROR_FORBIDDEN[4] == 'a' && ERROR_RATE[4] == 'r'
    ensures ERROR_STOCK_KEY[10] == 'K' && ERROR_STOCK_FORBIDDEN[10] == 'a' && ERROR_STOCK_RATE[10] == 'r'
  {
  }

  /** A transport failure's text at the mark position. */
  lemma TransportMark(api: Api, code: int)
    ensures |TransportMessage(api, code)| > MarkIndex(api)
    ensures TransportMessage(api, code)[MarkIndex(api)] == (if api == CryptoQuotes then 'e' else 'c')
  {
    var m := TransportMessage(api, code);
    var p := if api == CryptoQuotes then ERROR_CONNECTION else ERROR_STOCK_CONNECTION;
    assert m[..|p|][MarkIndex(api)] == m[MarkIndex(api)];
  }

  /** A generic status text starts with "HTTP error ". */
  lemma GenericMark(code: int, body: string, i: nat)
    requires i < |ERROR_HTTP|
    ensures GenericMessage(code, body)[i] == ERROR_HTTP[i]
  {
    var m := GenericMessage(code, body);
    assert m[..|ERROR_HTTP|][i] == m[i];
  }

  /** Two different statuses without a message of their own never leave the
      same text. */
  lemma GenericMessagesDiffer(c1: int, b1: string, c2: int, b2: string)
    requires c1 > 0 && c2 > 0 && c1 != c2
    ensures GenericMessage(c1, b1) != GenericMessage(c2, b2)
  {
    var s1, s2 := IntToString(c1), IntToString(c2);
    IntToStringInjective(c1, c2);
    NatPrefixDiffers(s1, s2, ": " + b1, ": " + b2);
    GenericShape(c1, b1);
    GenericShape(c2, b2);
    PrefixCancels(ERROR_HTTP, s1 + (": " + b1), s2 + (": " + b2));
  }

  /** The generic text regrouped as "HTTP error " before the code and the body. */
  lemma GenericShape(code: int, body: string)
    ensures GenericMessage(code, body) == ERROR_HTTP + (IntToString(code) + (": " + body))
  {
  }

  /** Different tails after a shared prefix give different texts. */
  lemma PrefixCancels(p: string, x1: string, x2: string)
    requires x1 != x2
    ensures p + x1 != p + x2
  {
    assert (p + x1)[|p|..] == x1 && (p + x2)[|p|..] == x2;
  }

  /** Two different transport codes never leave the same text. */
  lemma TransportMessagesDiffer(api: Api, c1: int, c2: int)
    requires c1 != c2
    ensures TransportMessage(api, c1) != TransportMessage(api, c2)
  {
    var p := if api == CryptoQuotes then ERROR_CONNECTION else ERROR_STOCK_CONNECTION;
    var s1, s2 := IntToString(c1), IntToString(c2);
    IntToStringInjective(c1, c2);
    PrefixCancels(p, s1, s2);
  }

  /** The recorded text tells failing outcomes apart: two different status
      codes never leave the same message, whatever the bodies were. */
  lemma HttpFailureMessageIdentifiesCode(api: Api, c1: int, b1: string, c2: int, b2: string)
    requires c1 != HTTP_CODE_OK && c2 != HTTP_CODE_OK && c1 != c2
    ensures HttpFailureMessage(api, c1, b1) != HttpFailureMessage(api, c2, b2)
  {
    var k1, k2 := FailureKind(c1), FailureKind(c2);
    if k1 != k2 {
      BranchesDiffer(api, c1, b1, c2, b2);
    } else if k1 == 0 {
      TransportMessagesDiffer(api, c1, c2);
    } else {
      GenericMessagesDiffer(c1, b1, c2, b2);
    }
  }

  /** Codes that take different branches leave texts that differ at the mark. */
  lemma BranchesDiffer(api: Api, c1: int, b1: string, c2: int, b2: string)
    requires c1 != HTTP_CODE_OK && c2 != HTTP_CODE_OK && FailureKind(c1) != FailureKind(c2)
    ensures HttpFailureMessage(api, c1, b1) != HttpFailureMessage(api, c2, b2)
  {
    MessageMark(api, c1, b1);
    MessageMark(api, c2, b2);
    assert BranchMark(api, FailureKind(c1)) != BranchMark(api, FailureKind(c2));
  }

  /** The gate in front of the decoder: only a 200 over a live link reaches it. */
  function Classify(api: Api, ex: Exchange): (r: Result<ParsedPayload, string>)
    ensures r.Ok? <==> ex.linkUp && ex.code == HTTP_CODE_OK
    ensures r.Ok? ==> r.value == ex.payload
    ensures !ex.linkUp ==> r == Err(ERROR_NO_WIFI)
    ensures ex.linkUp && ex.code != HTTP_CODE_OK ==> r == Err(HttpFailureMessage(api, ex.code, ex.body))
  {
    if !ex.linkUp then Err(ERROR_NO_WIFI)
    else if ex.code == HTTP_CODE_OK then Ok(ex.payload)
    else Err(HttpFailureMessage(api, ex.code, ex.body))
  }

  /** fetchCryptoData on values. */
  function FetchBatch(ex: Exchange, table: seq<AssetData>, count: nat): (r: BatchResult)
    requires count <= |table|
    ensures !(ex.linkUp && ex.code == HTTP_CODE_OK) ==> !r.ok && r.table == table
    ensures !ex.linkUp ==> r.error == Some(ERROR_NO_WIFI)
    ensures ex.linkUp && ex.code != HTTP_CODE_OK ==>
              r.error == Some(HttpFailureMessage(CryptoQuotes, ex.code, ex.body))
    ensures ex.linkUp && ex.code == HTTP_CODE_OK ==> r == DecodeBatch(ex.payload, table, count)
    ensures |r.table| == |table| && r.table[count..] == table[count..]
  {
    match Classify(CryptoQuotes, ex)
    case Err(m) => BatchResult(false, table, Some(m))
    case Ok(p) => DecodeBatch(p, table, count)
  }

  /** fetchStockData on values. */
  function FetchStock(ex: Exchange, stock: AssetData): (r: StockResult)
    ensures !(ex.linkUp && ex.code == HTTP_CODE_OK) ==> !r.ok && r.stock == stock
    ensures !ex.linkUp ==> r.error == Some(ERROR_NO_WIFI)
    ensures ex.linkUp && ex.code != HTTP_CODE_OK ==>
              r.error == Some(HttpFailureMessage(StockQuote, ex.code, ex.body))
    ensures ex.linkUp && ex.code == HTTP_CODE_OK ==> r == DecodeStock(ex.payload, stock)
  {
    match Classify(StockQuote, ex)
    case Err(m) => StockResult(false, stock, Some(m))
    case Ok(p) => DecodeStock(p, stock)
  }

  // ---------------------------------------------------------------- client

  /** APIClient: the fetch and parse operations, with the last error recorded. */
  class ApiClient {
    var lastError: string

    constructor()
      ensures lastError == ""
    {
      lastError := "";
    }

    function GetLastError(): string
      reads this
    {
      lastError
    }

    method SetError(error: string)
      modifies this
      ensures lastError == error
    {
      lastError := error;
    }

    /** One pass of parseJsonResponse's loop: the checks on the record's
        symbol in `data`, the error recorded when one fails, and otherwise
        the record updated in place. */
    method DecodeSymbol(data: Json, cryptos: array<AssetData>, i: int) returns (ok: bool)
      requires 0 <= i < cryptos.Length
      modifies this, cryptos
      ensures var q := QuoteFor(data, old(cryptos[i]).symbol);
        && ok == q.Ok?
        && (q.Ok? ==> cryptos[..] == old(cryptos[..])[i := ApplyQuote(old(cryptos[i]), q.value)]
                      && lastError == old(lastError))
        && (q.Err? ==> cryptos[..] == old(cryptos[..]) && lastError == q.error)
    {
      var symbol := cryptos[i].symbol;
      if !ContainsKey(data, symbol) {
        SetError(ERROR_MISSING_SYMBOL + symbol);
        return false;
      }
      var entry := Member(data, symbol);
      if !entry.Array? || Size(entry) == 0 {
        SetError(ERROR_BAD_STRUCTURE + symbol);
        return false;
      }
      var cad := Path(At(entry, 0), ["quote", "CAD"]);
      assert Path(At(entry, 0), ["quote", "CAD", "price"]) == Member(cad, "price");
      if !IsNumber(Member(cad, "price")) {
        SetError(ERROR_MISSING_PRICE + symbol);
        return false;
      }
      var newPrice := AsFloat(Member(cad, "price"));
      if !cryptos[i].firstUpdate && newPrice != cryptos[i].price {
        cryptos[i] := cryptos[i].(priceIncreased := newPrice > cryptos[i].price, previousPrice := cryptos[i].price);
      }
      cryptos[i] := cryptos[i].(price := newPrice, lastUpdated := AsString(Member(cad, "last_updated")),
                                firstUpdate := false);
      return true;
    }

    /** parseJsonResponse: decodes each of the first `count` records in turn,
        updating each in place before moving to the next. */
    method ParseJsonResponse(payload: ParsedPayload, cryptos: array<AssetData>, count: int) returns (ok: bool)
      requires 0 <= count <= cryptos.Length
      modifies this, cryptos
      ensures var r := DecodeBatch(payload, old(cryptos[..]), count);
        && ok == r.ok && cryptos[..] == r.table
        && lastError == (if r.error.Some? then r.error.value else old(lastError))
    {
      if payload.Malformed? {
        SetError(ERROR_JSON + payload.error);
        return false;
      }
      var doc := payload.doc;
      if !ContainsKey(doc, "data") {
        SetError(ERROR_NO_DATA);
        return false;
      }
      var data := Member(doc, "data");
      ghost var table := old(cryptos[..]);
      for i := 0 to count
        invariant cryptos[..] == UpdatedPrefix(table, data, i)
        invariant forall j :: 0 <= j < i ==> QuoteFor(data, table[j].symbol).Ok?
        invariant lastError == old(lastError)
      {
        assert cryptos[i] == table[i];
        var decoded := DecodeSymbol(data, cryptos, i);
        if !decoded {
          FirstFailureIs(data, table, count, i);
          return false;
        }
        assert cryptos[..] == UpdatedPrefix(table, data, i + 1);
      }
      FirstFailureIs(data, table, count, count);
      return true;
    }

    /** fetchCryptoData: the WiFi check, the status branches, then the decoder. */
    method FetchCryptoData(ex: Exchange, cryptos: array<AssetData>, count: int) returns (ok: bool)
      requires 0 <= count <= cryptos.Length
      modifies this, cryptos
      ensures var r := FetchBatch(ex, old(cryptos[..]), count);
        && ok == r.ok && cryptos[..] == r.table
        && lastError == (if r.error.Some? then r.error.value else old(lastError))
    {
      if !ex.linkUp {
        SetError(ERROR_NO_WIFI);
        return false;
      }
      if ex.code == HTTP_CODE_OK {
        ok := ParseJsonResponse(ex.payload, cryptos, count);
      } else if ex.code > 0 {
        if ex.code == 401 {
          SetError(ERROR_KEY);
        } else if ex.code == 403 {
          SetError(ERROR_FORBIDDEN);
        } else if ex.code == 429 {
          SetError(ERROR_RATE);
        } else {
          SetError(ERROR_HTTP + IntToString(ex.code) + ": " + ex.body);
        }
        ok := false;
      } else {
        SetError(ERROR_CONNECTION + IntToString(ex.code));
        ok := false;
      }
    }

    /** parseStockJsonResponse on the record assets[idx] (the C++ takes it by reference). */
    method ParseStockJsonResponse(payload: ParsedPayload, assets: array<AssetData>, idx: int) returns (ok: bool)
      requires 0 <= idx < assets.Length
      modifies this, assets
      ensures var r := DecodeStock(payload, old(assets[idx]));
        && ok == r.ok && assets[..] == old(assets[..])[idx := r.stock]
        && lastError == (if r.error.Some? then r.error.value else old(lastError))
    {
      ghost var r := DecodeStock(payload, assets[idx]);
      if payload.Malformed? {
        SetError(ERROR_STOCK_JSON + payload.error);
        return false;
      }
      var doc := payload.doc;
      if !doc.Array? || Size(doc) == 0 {
        SetError(ERROR_STOCK_STRUCTURE);
        return false;
      }
      var quote := At(doc, 0);
      if !ContainsKey(quote, "price") {
        SetError(ERROR_STOCK_PRICE);
        return false;
      }
      var newPrice := AsFloat(Member(quote, "price"));
      var stock := assets[idx];
      if !stock.firstUpdate && newPrice != stock.price {
        stock := stock.(priceIncreased := newPrice > stock.price, previousPrice := stock.price);
      }
      stock := stock.(price := newPrice, firstUpdate := false);
      assert stock == TrackPrice(assets[idx], newPrice);
      if ContainsKey(quote, "timestamp") {
        var timestamp := AsULong(Member(quote, "timestamp"));
        stock := stock.(lastUpdated := EpochToIso(timestamp));
      } else {
        stock := stock.(lastUpdated := "Just now");
      }
      assert stock == r.stock;
      assets[idx] := stock;
      return true;
    }

    /** fetchStockData: the WiFi check, the status branches, then the decoder. */
    method FetchStockData(ex: Exchange, assets: array<AssetData>, idx: int) returns (ok: bool)
      requires 0 <= idx < assets.Length
      modifies this, assets
      ensures var r := FetchStock(ex, old(assets[idx]));
        && ok == r.ok && assets[..] == old(assets[..])[idx := r.stock]
        && lastError == (if r.error.Some? then r.error.value else old(lastError))
    {
      if !ex.linkUp {
        SetError(ERROR_NO_WIFI);
        return false;
      }
      if ex.code == HTTP_CODE_OK {
        ok := ParseStockJsonResponse(ex.payload, assets, idx);
      } else if ex.code > 0 {
        if ex.code == 401 {
          SetError(ERROR_STOCK_KEY);
        } else if ex.code == 403 {
          SetError(ERROR_STOCK_FORBIDDEN);
        } else if ex.code == 429 {
          SetError(ERROR_STOCK_RATE);
        } else {
          SetError(ERROR_HTTP + IntToString(ex.code) + ": " + ex.body);
        }
        ok := false;
      } else {
        SetError(ERROR_STOCK_CONNECTION + IntToString(ex.code));
        ok := false;
      }
    }
  }
}

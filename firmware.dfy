/** The firmware's main program (main.cpp): the asset table, the fetch
    orchestration with its market-hours and cached-price rules, and the
    scheduler that `loop` runs every 50 ms — button debounce and brightness,
    the five-minute fetch, the ten-second rotation and the redraw. The
    WiFi link, the clocks and the HTTP exchanges are inputs. */
module Firmware {
  import opened Wrappers
  import opened Text
  import opened Json
  import opened Assets
  import opened ApiClient
  import opened CryptoDisplay

  const API_UPDATE_INTERVAL: int := 300000
  const DISPLAY_DURATION: int := 10000
  const BUTTON_DEBOUNCE_MS: int := 200
  const BRIGHTNESS_LEVELS: seq<int> := [51, 102, 153, 204, 255]
  const BRIGHTNESS_LEVEL_COUNT: int := 5
  const ASSET_COUNT: int := 4
  const CRYPTO_COUNT: int := 3
  const STOCK_INDEX: int := 3
  const MARKET_OPEN_MINUTES: int := 9 * 60 + 5
  const MARKET_CLOSE_MINUTES: int := 16 * 60 + 5

  /** The texts of the status and error screens. */
  const STATUS_CONNECTING: string := "Connecting..."
  const STATUS_LOADING: string := "Connected! Loading data..."
  const STATUS_UPDATING: string := "Updating prices..."
  const ERROR_CONNECT: string := "WiFi connection failed"
  const ERROR_INITIAL_LOAD: string := "Failed to load initial data"
  const ERROR_UPDATE: string := "Update failed"

  /** The `assets[]` table at start-up: three cryptocurrencies quoted in CAD,
      then the stock quoted in USD, all waiting for their first update. */
  function InitialAssets(): (t: seq<AssetData>)
    ensures |t| == ASSET_COUNT
    ensures forall i :: 0 <= i < |t| ==> t[i].firstUpdate && t[i].price == 0.0 && t[i].previousPrice == 0.0
    ensures forall i :: 0 <= i < |t| ==> (t[i].isStock <==> i == STOCK_INDEX)
    ensures forall i :: 0 <= i < CRYPTO_COUNT ==> t[i].currency == "CAD" && t[i].lastUpdated == ""
    ensures t[STOCK_INDEX].currency == "USD" && t[STOCK_INDEX].lastUpdated == "Market Closed"
    ensures forall i, j :: 0 <= i < j < |t| ==> t[i].symbol != t[j].symbol
  {
    [ AssetData("BTC", "Bitcoin", 0.0, "", 0, 0, 90, false, "CAD", 0.0, false, true),
      AssetData("ETH", "Ethereum", 0.0, "", 0, 0, 102, false, "CAD", 0.0, false, true),
      AssetData("XRP", "XRP", 0.0, "", 0, 0, 42, false, "CAD", 0.0, false, true),
      AssetData("MSFT", "Microsoft", 0.0, "Market Closed", 0, 0, 120, true, "USD", 0.0, false, true) ]
  }

  // ------------------------------------------------------- market hours

  /** isMarketOpen for the local weekday (0 = Sunday) and time of day: closed
      at weekends, otherwise open from 9:05 to 16:05 inclusive. */
  function IsMarketOpen(wday: int, hour: int, minute: int): (open: bool)
    ensures wday == 0 || wday == 6 ==> !open
    ensures wday != 0 && wday != 6 ==>
              (open <==> MARKET_OPEN_MINUTES <= hour * 60 + minute <= MARKET_CLOSE_MINUTES)
  {
    if wday == 0 || wday == 6 then false
    else
      var minutes := hour * 60 + minute;
      minutes >= MARKET_OPEN_MINUTES && minutes <= MARKET_CLOSE_MINUTES
  }

  /** The same window read off a clock face: on a weekday the market is open
      from 09:05 through 16:05, both ends included. */
  lemma MarketHoursOnClock(wday: int, hour: int, minute: int)
    requires 1 <= wday <= 5 && 0 <= hour < 24 && 0 <= minute < 60
    ensures IsMarketOpen(wday, hour, minute) <==>
              && (hour > 9 || (hour == 9 && minute >= 5))
              && (hour < 16 || (hour == 16 && minute <= 5))
  {
  }

  // ------------------------------------------------------------- fetching

  /** The WiFi link as fetchAndUpdateData finds it: up, down but reconnected,
      or down with the reconnect failing with connectWiFi's error text. */
  datatype Link = AlreadyUp | Reconnected | ReconnectFailed(error: string)

  /** Everything fetchAndUpdateData learns from outside: the link, both HTTP
      exchanges, and the local weekday and time that isMarketOpen reads. */
  datatype FetchInputs = FetchInputs(link: Link, crypto: Exchange, stock: Exchange, wday: int, hour: int, minute: int)

  /** What a fetch leaves behind: the verdict, the table, whether each group
      counted as a success, and the last error text recorded, if any. */
  datatype FetchOutcome = FetchOutcome(ok: bool, table: seq<AssetData>, cryptoOk: bool, stockOk: bool, error: Option<string>)

  /** main's status overrides on the stock record as fetchStockData left it:
      "Market Closed" on a decoded quote outside market hours, "Update
      Failed" on a failed fetch that still has a cached price (which then
      counts as a success); the second component is whether it counts. */
  function StockAfter(decoded: bool, stock: AssetData, open: bool): (r: (AssetData, bool))
  {
    if decoded then (if open then stock else stock.(lastUpdated := "Market Closed"), true)
    else if stock.price > 0.0 then (stock.(lastUpdated := "Update Failed"), true)
    else (stock, false)
  }

  /** fetchAndUpdateData on values. */
  function FetchTable(inputs: FetchInputs, table: seq<AssetData>): (r: FetchOutcome)
    requires |table| == ASSET_COUNT
    ensures |r.table| == ASSET_COUNT
    ensures r.ok <==> r.cryptoOk || r.stockOk
  {
    match inputs.link
    case ReconnectFailed(e) => FetchOutcome(false, table, false, false, Some(e))
    case _ =>
      var b := FetchBatch(inputs.crypto, table, CRYPTO_COUNT);
      assert b.table[STOCK_INDEX] == b.table[CRYPTO_COUNT..][0] == table[STOCK_INDEX];
      var s := FetchStock(inputs.stock, b.table[STOCK_INDEX]);
      var (stock, stockOk) := StockAfter(s.ok, s.stock, IsMarketOpen(inputs.wday, inputs.hour, inputs.minute));
      FetchOutcome(b.ok || stockOk, b.table[STOCK_INDEX := stock], b.ok, stockOk,
                   if s.error.Some? then s.error else b.error)
  }

  /** The outcome of a fetch, case by case: a failed reconnect changes
      nothing and reports connectWiFi's error; otherwise the crypto rows are
      the batch decode's, the stock row is the decoded quote (marked "Market
      Closed" outside market hours) or, when the decode fails, the cached
      record marked "Update Failed" if it has a price, and the error kept is
      the stock's if it failed, else the batch's. */
  lemma FetchTableCases(inputs: FetchInputs, table: seq<AssetData>)
    requires |table| == ASSET_COUNT
    ensures var r := FetchTable(inputs, table);
      inputs.link.ReconnectFailed? ==> !r.ok && r.table == table && r.error == Some(inputs.link.error)
    ensures var r := FetchTable(inputs, table);
      !inputs.link.ReconnectFailed? ==>
        var b := FetchBatch(inputs.crypto, table, CRYPTO_COUNT);
        var s := FetchStock(inputs.stock, table[STOCK_INDEX]);
        var open := IsMarketOpen(inputs.wday, inputs.hour, inputs.minute);
        && r.cryptoOk == b.ok
        && r.table[..CRYPTO_COUNT] == b.table[..CRYPTO_COUNT]
        && (s.ok ==> r.stockOk)
        && (s.ok && open ==> r.table[STOCK_INDEX] == s.stock)
        && (s.ok && !open ==> r.table[STOCK_INDEX] == s.stock.(lastUpdated := "Market Closed"))
        && (!s.ok && table[STOCK_INDEX].price > 0.0 ==>
              r.stockOk && r.table[STOCK_INDEX] == table[STOCK_INDEX].(lastUpdated := "Update Failed"))
        && (!s.ok && table[STOCK_INDEX].price <= 0.0 ==>
              !r.stockOk && r.table[STOCK_INDEX] == table[STOCK_INDEX])
        && r.error == (if s.error.Some? then s.error else b.error)
  {
    if !inputs.link.ReconnectFailed? {
      var b := FetchBatch(inputs.crypto, table, CRYPTO_COUNT);
      assert b.table[STOCK_INDEX] == b.table[CRYPTO_COUNT..][0] == table[STOCK_INDEX];
    }
  }

  /** A fetch never changes what a record is: symbol, name, currency, kind
      and layout fields survive every outcome. */
  lemma FetchKeepsIdentity(inputs: FetchInputs, table: seq<AssetData>, i: int)
    requires |table| == ASSET_COUNT && 0 <= i < ASSET_COUNT
    ensures SameIdentity(table[i], FetchTable(inputs, table).table[i])
  {
    FetchTableCases(inputs, table);
    var r := FetchTable(inputs, table);
    if !inputs.link.ReconnectFailed? {
      if i < CRYPTO_COUNT {
        var b := FetchBatch(inputs.crypto, table, CRYPTO_COUNT);
        assert r.table[i] == r.table[..CRYPTO_COUNT][i] == b.table[..CRYPTO_COUNT][i] == b.table[i];
        DecodeBatchKeepsIdentity(inputs.crypto.payload, table, CRYPTO_COUNT, i);
      } else {
        assert i == STOCK_INDEX;
      }
    }
  }

  /** After a successful stock decode the stock shows "Market Closed" exactly
      when the market is closed; a decoded timestamp is never that text. */
  lemma MarketClosedIff(inputs: FetchInputs, table: seq<AssetData>)
    requires |table| == ASSET_COUNT && !inputs.link.ReconnectFailed?
    requires FetchStock(inputs.stock, table[STOCK_INDEX]).ok
    ensures FetchTable(inputs, table).table[STOCK_INDEX].lastUpdated == "Market Closed" <==>
              !IsMarketOpen(inputs.wday, inputs.hour, inputs.minute)
  {
    var s := FetchStock(inputs.stock, table[STOCK_INDEX]);
    var quote := inputs.stock.payload.doc.items[0];
    assert s.stock.lastUpdated == StockTimestamp(quote);
    if ContainsKey(quote, "timestamp") {
      assert |s.stock.lastUpdated| == 24 != |"Market Closed"|;
    } else {
      assert s.stock.lastUpdated == "Just now" != "Market Closed";
    }
  }

  /** A failed stock fetch with a cached price is reported as a success that
      keeps every field but the status text. */
  lemma CachedStockCountsAsSuccess(inputs: FetchInputs, table: seq<AssetData>)
    requires |table| == ASSET_COUNT && !inputs.link.ReconnectFailed?
    requires !FetchStock(inputs.stock, table[STOCK_INDEX]).ok && table[STOCK_INDEX].price > 0.0
    ensures var r := FetchTable(inputs, table);
      && r.ok
      && r.table[STOCK_INDEX].price == table[STOCK_INDEX].price
      && r.table[STOCK_INDEX].lastUpdated == "Update Failed"
      && r.table[STOCK_INDEX] == table[STOCK_INDEX].(lastUpdated := "Update Failed")
  {
  }

  // ------------------------------------------------------------ scheduling

  /** The scheduler globals of main.cpp. */
  datatype Scheduler = Scheduler(
    lastApiUpdate: U32,
    lastDisplaySwitch: U32,
    currentAssetIndex: int,
    dataLoaded: bool,
    brightnessIndex: int,
    lastButtonPress: U32)

  predicate SchedulerValid(s: Scheduler) {
    0 <= s.currentAssetIndex < ASSET_COUNT && 0 <= s.brightnessIndex < BRIGHTNESS_LEVEL_COUNT
  }

  /** A press of button A is taken when more than 200 ms passed since the last one taken. */
  predicate ButtonAccepted(s: Scheduler, now: U32, pressed: bool) {
    pressed && Elapsed(now, s.lastButtonPress) > BUTTON_DEBOUNCE_MS
  }

  /** Five minutes or more since the last fetch attempt. */
  predicate FetchDue(s: Scheduler, now: U32) {
    Elapsed(now, s.lastApiUpdate) >= API_UPDATE_INTERVAL
  }

  /** Ten seconds or more since the asset on show was last switched. */
  predicate SwitchDue(s: Scheduler, now: U32) {
    Elapsed(now, s.lastDisplaySwitch) >= DISPLAY_DURATION
  }

  /** The button part of `loop`. */
  function ButtonStep(s: Scheduler, now: U32, pressed: bool): Scheduler
  {
    if ButtonAccepted(s, now, pressed) then
      s.(brightnessIndex := (s.brightnessIndex + 1) % BRIGHTNESS_LEVEL_COUNT, lastButtonPress := now)
    else s
  }

  /** The fetch part of `loop`: when due, both timers restart at `now`. */
  function FetchStep(s: Scheduler, now: U32, fetchOk: bool): Scheduler
  {
    if FetchDue(s, now) then
      s.(dataLoaded := s.dataLoaded || fetchOk, lastApiUpdate := now, lastDisplaySwitch := now)
    else s
  }

  /** The rotation part of `loop`. */
  function RotateStep(s: Scheduler, now: U32): Scheduler
  {
    if s.dataLoaded && SwitchDue(s, now) then
      s.(currentAssetIndex := (s.currentAssetIndex + 1) % ASSET_COUNT, lastDisplaySwitch := now)
    else s
  }

  /** One pass of `loop` at time `now` on the scheduler globals; `fetchOk` is
      what fetchAndUpdateData answers, and is read only when a fetch is due. */
  function Tick(s: Scheduler, now: U32, pressed: bool, fetchOk: bool): (t: Scheduler)
    requires SchedulerValid(s)
    ensures SchedulerValid(t)
    ensures ButtonAccepted(s, now, pressed) ==>
              t.brightnessIndex == (s.brightnessIndex + 1) % BRIGHTNESS_LEVEL_COUNT && t.lastButtonPress == now
    ensures !ButtonAccepted(s, now, pressed) ==>
              t.brightnessIndex == s.brightnessIndex && t.lastButtonPress == s.lastButtonPress
    ensures FetchDue(s, now) ==>
              t.lastApiUpdate == now && t.lastDisplaySwitch == now
              && t.currentAssetIndex == s.currentAssetIndex && t.dataLoaded == (s.dataLoaded || fetchOk)
    ensures !FetchDue(s, now) ==> t.lastApiUpdate == s.lastApiUpdate && t.dataLoaded == s.dataLoaded
    ensures t.currentAssetIndex != s.currentAssetIndex <==>
              t.dataLoaded && !FetchDue(s, now) && SwitchDue(s, now)
    ensures t.currentAssetIndex != s.currentAssetIndex ==>
              t.currentAssetIndex == (s.currentAssetIndex + 1) % ASSET_COUNT && t.lastDisplaySwitch == now
    ensures !FetchDue(s, now) && t.currentAssetIndex == s.currentAssetIndex ==>
              t.lastDisplaySwitch == s.lastDisplaySwitch
  {
    RotateStep(FetchStep(ButtonStep(s, now, pressed), now, fetchOk), now)
  }

  /** One pass of `loop`: its time, whether button A was pressed, and what
      fetchAndUpdateData would answer if a fetch falls due. */
  datatype Pass = Pass(now: U32, pressed: bool, fetchOk: bool)

  /** The scheduler globals after a run of passes of `loop`, oldest first.
      Whatever the times, presses and fetch results, the asset and
      brightness indices stay in range. */
  function Run(s: Scheduler, passes: seq<Pass>): (t: Scheduler)
    requires SchedulerValid(s)
    ensures SchedulerValid(t)
    decreases |passes|
  {
    if passes == [] then s
    else
      var p := passes[|passes| - 1];
      Tick(Run(s, passes[..|passes| - 1]), p.now, p.pressed, p.fetchOk)
  }

  /** Without a press of button A, any run of passes leaves the brightness
      and the debounce timer alone. */
  lemma {:induction false} RunWithoutPresses(s: Scheduler, passes: seq<Pass>)
    requires SchedulerValid(s)
    requires forall j :: 0 <= j < |passes| ==> !passes[j].pressed
    ensures Run(s, passes).brightnessIndex == s.brightnessIndex
    ensures Run(s, passes).lastButtonPress == s.lastButtonPress
    decreases |passes|
  {
    if passes != [] {
      RunWithoutPresses(s, passes[..|passes| - 1]);
    }
  }

  /** With data loaded, no fetch due, and each pass at least ten seconds
      after the one before (the first, ten seconds after the last switch),
      k passes move the asset on show k places round the table. */
  lemma {:induction false} RotationSteps(s: Scheduler, passes: seq<Pass>, k: nat)
    requires SchedulerValid(s) && s.dataLoaded
    requires 1 <= k <= |passes|
    requires forall j :: 0 <= j < |passes| ==> !FetchDue(s, passes[j].now)
    requires SwitchDue(s, passes[0].now)
    requires forall j :: 1 <= j < |passes| ==> Elapsed(passes[j].now, passes[j - 1].now) >= DISPLAY_DURATION
    ensures var t := Run(s, passes[..k]);
      && t.currentAssetIndex == (s.currentAssetIndex + k) % ASSET_COUNT
      && t.lastDisplaySwitch == passes[k - 1].now
      && t.dataLoaded && t.lastApiUpdate == s.lastApiUpdate
  {
    var prefix := passes[..k];
    assert prefix[..k - 1] == passes[..k - 1];
    if k == 1 {
      assert passes[..0] == [];
    } else {
      RotationSteps(s, passes, k - 1);
    }
    SwitchTaken(Run(s, passes[..k - 1]), passes[k - 1], s.currentAssetIndex + k - 1);
  }

  /** A pass with data loaded, no fetch due and ten seconds gone since the
      last switch moves the asset on show one place on. */
  lemma SwitchTaken(t: Scheduler, p: Pass, i: int)
    requires SchedulerValid(t) && t.dataLoaded
    requires !FetchDue(t, p.now) && SwitchDue(t, p.now)
    requires t.currentAssetIndex == i % ASSET_COUNT
    ensures var u := Tick(t, p.now, p.pressed, p.fetchOk);
      && u.currentAssetIndex == (i + 1) % ASSET_COUNT && u.lastDisplaySwitch == p.now
      && u.dataLoaded && u.lastApiUpdate == t.lastApiUpdate
  {
    NextIndex(i, ASSET_COUNT);
  }

  /** Passes ten seconds apart show the assets in table order: after k of
      them the asset on show is k places further round the table. */
  lemma RotationVisitsEveryAsset(s: Scheduler, passes: seq<Pass>)
    requires SchedulerValid(s) && s.dataLoaded
    requires |passes| == ASSET_COUNT
    requires forall j :: 0 <= j < |passes| ==> !FetchDue(s, passes[j].now)
    requires SwitchDue(s, passes[0].now)
    requires forall j :: 1 <= j < |passes| ==> Elapsed(passes[j].now, passes[j - 1].now) >= DISPLAY_DURATION
    ensures forall k :: 1 <= k <= |passes| ==> Run(s, passes[..k]).currentAssetIndex == (s.currentAssetIndex + k) % ASSET_COUNT
  {
    forall k | 1 <= k <= |passes|
      ensures Run(s, passes[..k]).currentAssetIndex == (s.currentAssetIndex + k) % ASSET_COUNT
    {
      RotationSteps(s, passes, k);
    }
  }

  /** Four such passes, one per asset, come back to the asset shown first. */
  lemma RotationReturnsToFirst(s: Scheduler, passes: seq<Pass>)
    requires SchedulerValid(s) && s.dataLoaded
    requires |passes| == ASSET_COUNT
    requires forall j :: 0 <= j < |passes| ==> !FetchDue(s, passes[j].now)
    requires SwitchDue(s, passes[0].now)
    requires forall j :: 1 <= j < |passes| ==> Elapsed(passes[j].now, passes[j - 1].now) >= DISPLAY_DURATION
    ensures Run(s, passes).currentAssetIndex == s.currentAssetIndex
  {
    RotationSteps(s, passes, |passes|);
    assert passes[..|passes|] == passes;
    FullTurn(s.currentAssetIndex, ASSET_COUNT);
  }

  /** Passes with button A pressed, each more than the debounce time after
      the press before it: every one is taken, and after k of them the
      brightness is k levels further round the table. */
  lemma {:induction false} BrightnessSteps(s: Scheduler, passes: seq<Pass>, k: nat)
    requires SchedulerValid(s)
    requires 1 <= k <= |passes|
    requires forall j :: 0 <= j < |passes| ==> passes[j].pressed
    requires Elapsed(passes[0].now, s.lastButtonPress) > BUTTON_DEBOUNCE_MS
    requires forall j :: 1 <= j < |passes| ==> Elapsed(passes[j].now, passes[j - 1].now) > BUTTON_DEBOUNCE_MS
    ensures var t := Run(s, passes[..k]);
      && t.brightnessIndex == (s.brightnessIndex + k) % BRIGHTNESS_LEVEL_COUNT
      && t.lastButtonPress == passes[k - 1].now
  {
    var prefix := passes[..k];
    assert prefix[..k - 1] == passes[..k - 1];
    if k == 1 {
      assert passes[..0] == [];
    } else {
      BrightnessSteps(s, passes, k - 1);
    }
    PressTaken(Run(s, passes[..k - 1]), passes[k - 1], s.brightnessIndex + k - 1);
  }

  /** A press past the debounce time moves the brightness one level on. */
  lemma PressTaken(t: Scheduler, p: Pass, i: int)
    requires SchedulerValid(t) && p.pressed
    requires Elapsed(p.now, t.lastButtonPress) > BUTTON_DEBOUNCE_MS
    requires t.brightnessIndex == i % BRIGHTNESS_LEVEL_COUNT
    ensures Tick(t, p.now, p.pressed, p.fetchOk).brightnessIndex == (i + 1) % BRIGHTNESS_LEVEL_COUNT
    ensures Tick(t, p.now, p.pressed, p.fetchOk).lastButtonPress == p.now
  {
    NextIndex(i, BRIGHTNESS_LEVEL_COUNT);
  }

  /** Going once round a table of n entries ends where it started. */
  lemma FullTurn(i: int, n: int)
    requires 0 <= i < n
    ensures (i + n) % n == i
  {
  }

  /** One step round the asset table or the brightness table from entry
      i mod n is entry i + 1 mod n. */
  lemma NextIndex(i: int, n: int)
    requires n == ASSET_COUNT || n == BRIGHTNESS_LEVEL_COUNT
    ensures (i % n + 1) % n == (i + 1) % n
  {
  }

  /** Five such presses, one per level, bring the brightness back to where it was. */
  lemma BrightnessFullCycle(s: Scheduler, passes: seq<Pass>)
    requires SchedulerValid(s)
    requires |passes| == BRIGHTNESS_LEVEL_COUNT
    requires forall j :: 0 <= j < |passes| ==> passes[j].pressed
    requires Elapsed(passes[0].now, s.lastButtonPress) > BUTTON_DEBOUNCE_MS
    requires forall j :: 1 <= j < |passes| ==> Elapsed(passes[j].now, passes[j - 1].now) > BUTTON_DEBOUNCE_MS
    ensures Run(s, passes).brightnessIndex == s.brightnessIndex
  {
    BrightnessSteps(s, passes, |passes|);
    assert passes[..|passes|] == passes;
    FullTurn(s.brightnessIndex, BRIGHTNESS_LEVEL_COUNT);
  }

  /** The screens a fetch pass of `loop` draws before the asset: the status
      screen and, when the fetch failed, the error screen. */
  function FetchOps(fetched: bool, fetchOk: bool): (ops: seq<DrawOp>)
    ensures fetched ==> |ops| >= 2 && ops[..2] == [ClearScreen, DrawMessage("WiFi", STATUS_UPDATING)]
    ensures fetched && !fetchOk ==> DrawMessage("ERROR", ERROR_UPDATE) in ops
    ensures fetched && fetchOk ==> ops == [ClearScreen, DrawMessage("WiFi", STATUS_UPDATING)]
    ensures !fetched ==> ops == []
  {
    if fetched then
      [ClearScreen, DrawMessage("WiFi", STATUS_UPDATING)]
      + (if fetchOk then [] else [ClearScreen, DrawMessage("ERROR", ERROR_UPDATE)])
    else []
  }

  /** The screens setup draws: the connecting status, then either the
      connection error (before the restart) or the loading status followed,
      when the initial fetch fails, by its error screen. */
  function SetupOps(connectFailed: bool, fetchOk: bool): (ops: seq<DrawOp>)
    ensures |ops| >= 4 && ops[..2] == [ClearScreen, DrawMessage("WiFi", STATUS_CONNECTING)]
    ensures connectFailed ==> ops[2..] == [ClearScreen, DrawMessage("ERROR", ERROR_CONNECT)]
    ensures !connectFailed ==> ops[2..4] == [ClearScreen, DrawMessage("WiFi", STATUS_LOADING)]
  {
    [ClearScreen, DrawMessage("WiFi", STATUS_CONNECTING)]
    + if connectFailed then [ClearScreen, DrawMessage("ERROR", ERROR_CONNECT)]
      else [ClearScreen, DrawMessage("WiFi", STATUS_LOADING)]
           + (if fetchOk then [] else [ClearScreen, DrawMessage("ERROR", ERROR_INITIAL_LOAD)])
  }

  /** After a successful connection the initial-load error screen is drawn
      exactly when the initial fetch fails. */
  lemma SetupReportsFailedLoad(fetchOk: bool)
    ensures DrawMessage("ERROR", ERROR_INITIAL_LOAD) in SetupOps(false, fetchOk) <==> !fetchOk
  {
    var ops := SetupOps(false, fetchOk);
    if fetchOk {
      assert ops == [ClearScreen, DrawMessage("WiFi", STATUS_CONNECTING), ClearScreen, DrawMessage("WiFi", STATUS_LOADING)];
      assert STATUS_CONNECTING != ERROR_INITIAL_LOAD && STATUS_LOADING != ERROR_INITIAL_LOAD;
    } else {
      assert ops[5] == DrawMessage("ERROR", ERROR_INITIAL_LOAD);
    }
  }

  /** The screens one pass of `loop` draws, in order. */
  function TickOps(fetched: bool, fetchOk: bool, showing: bool, shown: Snapshot, asset: AssetData, priceText: string): (ops: seq<DrawOp>)
    ensures fetched ==> |ops| >= 2 && ops[..2] == [ClearScreen, DrawMessage("WiFi", STATUS_UPDATING)]
    ensures !fetched && !showing ==> ops == []
    ensures showing ==> |ops| >= 1 && ops[|ops| - 1] == DrawFrame
  {
    FetchOps(fetched, fetchOk) + (if showing then Plan(shown, asset, priceText) else [])
  }

  /** The status screens of a fetch clear the LCD without touching the
      presenter's snapshot: when the asset on show and its texts are as last
      drawn, the pass after the status screen redraws only the frame, and
      the name, icon and price stay off the screen. */
  lemma StatusScreenNotRepainted(fetchOk: bool, asset: AssetData, priceText: string)
    ensures var ops := TickOps(true, fetchOk, true, Snapshot(asset.symbol, priceText, asset.lastUpdated), asset, priceText);
      && ops[1] == DrawMessage("WiFi", STATUS_UPDATING)
      && ops[|ops| - 1] == DrawFrame
      && (forall k :: 1 <= k < |ops| ==> !ops[k].DrawName? && !ops[k].DrawPrice? && ops[k] != DrawUpdatedLabel)
  {
    RepeatDrawsOnlyFrame(asset, priceText);
  }

  // ---------------------------------------------------------------- program

  /** The globals of main.cpp as one object: the asset table, the API client,
      the presenter and the scheduler variables. */
  class Firmware {
    const assets: array<AssetData>
    const api: ApiClient
    const display: CryptoDisplay
    var lastApiUpdate: U32
    var lastDisplaySwitch: U32
    var currentAssetIndex: int
    var dataLoaded: bool
    var currentBrightnessIndex: int
    var lastButtonPress: U32

    predicate Valid()
      reads this, assets
    {
      assets.Length == ASSET_COUNT && SchedulerValid(State())
    }

    function State(): Scheduler
      reads this
    {
      Scheduler(lastApiUpdate, lastDisplaySwitch, currentAssetIndex, dataLoaded, currentBrightnessIndex, lastButtonPress)
    }

    /** The level written to the backlight for the current index. */
    function Brightness(): (level: int)
      reads this, assets
      requires Valid()
      ensures level in BRIGHTNESS_LEVELS
    {
      BRIGHTNESS_LEVELS[currentBrightnessIndex]
    }

    /** The globals' initial values; `toFixed` is String(price, 2). */
    constructor(toFixed: real -> string)
      ensures Valid() && fresh(assets) && fresh(api) && fresh(display)
      ensures assets[..] == InitialAssets()
      ensures State() == Scheduler(0, 0, 0, false, 0, 0)
      ensures api.lastError == "" && display.shown == Snapshot("", "", "") && display.toFixed == toFixed
    {
      var t := InitialAssets();
      assets := new AssetData[] [t[0], t[1], t[2], t[3]];
      api := new ApiClient();
      display := new CryptoDisplay(toFixed);
      lastApiUpdate, lastDisplaySwitch, currentAssetIndex := 0, 0, 0;
      dataLoaded, currentBrightnessIndex, lastButtonPress := false, 0, 0;
      new;
      assert assets[..] == t;
    }

    /** fetchAndUpdateData: reconnects if needed, fetches the three crypto
        quotes and the stock quote into the table, then applies the
        market-closed and cached-price rules. */
    method FetchAndUpdateData(inputs: FetchInputs) returns (ok: bool)
      requires Valid()
      modifies assets, api
      ensures var r := FetchTable(inputs, old(assets[..]));
        && ok == r.ok && assets[..] == r.table
        && api.lastError == (if r.error.Some? then r.error.value else old(api.lastError))
    {
      if inputs.link.ReconnectFailed? {
        api.SetError(inputs.link.error);
        return false;
      }
      var cryptoSuccess := api.FetchCryptoData(inputs.crypto, assets, CRYPTO_COUNT);
      assert assets[STOCK_INDEX] == assets[CRYPTO_COUNT..][0];
      var stockSuccess := api.FetchStockData(inputs.stock, assets, STOCK_INDEX);
      stockSuccess := ApplyMarketStatus(stockSuccess, IsMarketOpen(inputs.wday, inputs.hour, inputs.minute));
      return cryptoSuccess || stockSuccess;
    }

    /** main's status overrides on the stock record after fetchStockData. */
    method ApplyMarketStatus(decoded: bool, open: bool) returns (stockOk: bool)
      requires assets.Length == ASSET_COUNT
      modifies assets
      ensures var (stock, ok) := StockAfter(decoded, old(assets[STOCK_INDEX]), open);
        stockOk == ok && assets[..] == old(assets[..])[STOCK_INDEX := stock]
    {
      stockOk := decoded;
      if decoded {
        if !open {
          assets[STOCK_INDEX] := assets[STOCK_INDEX].(lastUpdated := "Market Closed");
        }
      } else if assets[STOCK_INDEX].price > 0.0 {
        assets[STOCK_INDEX] := assets[STOCK_INDEX].(lastUpdated := "Update Failed");
        stockOk := true;
      }
    }

    /** cycleBrightness: the next of the five levels, wrapping to the first. */
    method CycleBrightness()
      requires Valid()
      modifies this
      ensures Valid()
      ensures currentBrightnessIndex == (old(currentBrightnessIndex) + 1) % BRIGHTNESS_LEVEL_COUNT
      ensures State() == old(State()).(brightnessIndex := currentBrightnessIndex)
    {
      currentBrightnessIndex := (currentBrightnessIndex + 1) % BRIGHTNESS_LEVEL_COUNT;
    }

    /** setup after the hardware is up: connect (on failure the error screen,
        then a restart, which is reported as `restart` with nothing else
        changed), the initial fetch, and both timers started at `now`. */
    method Setup(connectError: Option<string>, inputs: FetchInputs, now: U32) returns (ops: seq<DrawOp>, restart: bool)
      requires Valid()
      modifies this, assets, api
      ensures Valid()
      ensures restart <==> connectError.Some?
      ensures connectError.Some? ==>
                && api.lastError == connectError.value
                && State() == old(State()) && assets[..] == old(assets[..])
      ensures connectError.None? ==>
                var r := FetchTable(inputs, old(assets[..]));
                && assets[..] == r.table
                && api.lastError == (if r.error.Some? then r.error.value else old(api.lastError))
                && State() == old(State()).(dataLoaded := old(dataLoaded) || r.ok, lastApiUpdate := now, lastDisplaySwitch := now)
      ensures ops == SetupOps(connectError.Some?, FetchTable(inputs, old(assets[..])).ok)
    {
      ops := display.DisplayWiFiStatus(STATUS_CONNECTING);
      if connectError.Some? {
        api.SetError(connectError.value);
        var e := display.DisplayError(ERROR_CONNECT);
        return ops + e, true;
      }
      var loaded := LoadInitialData(inputs, now);
      ops := ops + loaded;
      restart := false;
    }

    /** The connected part of setup: the loading status, the initial fetch,
        its error screen when it fails, and both timers started at `now`. */
    method LoadInitialData(inputs: FetchInputs, now: U32) returns (ops: seq<DrawOp>)
      requires Valid()
      modifies this, assets, api
      ensures Valid()
      ensures var r := FetchTable(inputs, old(assets[..]));
        && assets[..] == r.table
        && api.lastError == (if r.error.Some? then r.error.value else old(api.lastError))
        && State() == old(State()).(dataLoaded := old(dataLoaded) || r.ok, lastApiUpdate := now, lastDisplaySwitch := now)
        && ops == [ClearScreen, DrawMessage("WiFi", STATUS_LOADING)]
                  + (if r.ok then [] else [ClearScreen, DrawMessage("ERROR", ERROR_INITIAL_LOAD)])
    {
      ghost var r := FetchTable(inputs, assets[..]);
      ops := display.DisplayWiFiStatus(STATUS_LOADING);
      var ok := FetchAndUpdateData(inputs);
      assert ok == r.ok;
      if ok {
        dataLoaded := true;
      } else {
        var e := display.DisplayError(ERROR_INITIAL_LOAD);
        ops := ops + e;
      }
      lastApiUpdate := now;
      lastDisplaySwitch := now;
    }

    /** The button part of `loop`: a debounced press of button A cycles the
        brightness and restarts the debounce window. */
    method HandleButton(now: U32, pressed: bool)
      requires Valid()
      modifies this
      ensures Valid()
      ensures State() == ButtonStep(old(State()), now, pressed)
    {
      if pressed && Elapsed(now, lastButtonPress) > BUTTON_DEBOUNCE_MS {
        CycleBrightness();
        lastButtonPress := now;
      }
    }

    /** The fetch part of `loop`: when five minutes have passed, the status
        screen, the fetch, the error screen on failure, and both timers
        restarted at `now`. */
    method FetchIfDue(now: U32, inputs: FetchInputs) returns (ops: seq<DrawOp>)
      requires Valid()
      modifies this, assets, api
      ensures Valid()
      ensures var due := FetchDue(old(State()), now);
        var r := FetchTable(inputs, old(assets[..]));
        && State() == FetchStep(old(State()), now, r.ok)
        && assets[..] == (if due then r.table else old(assets[..]))
        && api.lastError == (if due && r.error.Some? then r.error.value else old(api.lastError))
        && ops == FetchOps(due, r.ok)
    {
      ghost var r := FetchTable(inputs, assets[..]);
      if Elapsed(now, lastApiUpdate) >= API_UPDATE_INTERVAL {
        ops := display.DisplayWiFiStatus(STATUS_UPDATING);
        var fetchOk := FetchAndUpdateData(inputs);
        assert fetchOk == r.ok;
        if fetchOk {
          dataLoaded := true;
        } else {
          var e := display.DisplayError(ERROR_UPDATE);
          ops := ops + e;
        }
        lastApiUpdate := now;
        lastDisplaySwitch := now;
      } else {
        ops := [];
      }
    }

    /** The rotation of `loop`: once data is loaded and ten seconds have
        passed, the next asset and the switch timer restarted at `now`. */
    method RotateIfDue(now: U32)
      requires Valid()
      modifies this
      ensures Valid()
      ensures State() == RotateStep(old(State()), now)
    {
      if dataLoaded && Elapsed(now, lastDisplaySwitch) >= DISPLAY_DURATION {
        currentAssetIndex := (currentAssetIndex + 1) % ASSET_COUNT;
        lastDisplaySwitch := now;
      }
    }

    /** The display part of `loop`: the rotation, then, once data is loaded,
        the asset on show. */
    method ShowCurrentAsset(now: U32) returns (ops: seq<DrawOp>)
      requires Valid()
      modifies this, display
      ensures Valid()
      ensures State() == RotateStep(old(State()), now)
      ensures var asset := assets[currentAssetIndex];
        var priceText := display.PriceText(asset.price);
        && ops == (if dataLoaded then Plan(old(display.shown), asset, priceText) else [])
        && display.shown == (if dataLoaded then Snapshot(asset.symbol, priceText, asset.lastUpdated)
                             else old(display.shown))
    {
      RotateIfDue(now);
      if dataLoaded {
        ops := display.DisplayAsset(assets[currentAssetIndex]);
      } else {
        ops := [];
      }
    }

    /** One pass of `loop` at time `now`: the debounced button, the fetch when
        due, the rotation, and the redraw of the asset on show. */
    method Loop(now: U32, pressed: bool, inputs: FetchInputs) returns (ops: seq<DrawOp>)
      requires Valid()
      modifies this, assets, api, display
      ensures Valid()
      ensures var due := FetchDue(old(State()), now);
        var r := FetchTable(inputs, old(assets[..]));
        && State() == Tick(old(State()), now, pressed, r.ok)
        && assets[..] == (if due then r.table else old(assets[..]))
        && api.lastError == (if due && r.error.Some? then r.error.value else old(api.lastError))
      ensures var asset := assets[currentAssetIndex];
        var priceText := display.PriceText(asset.price);
        && ops == TickOps(FetchDue(old(State()), now), FetchTable(inputs, old(assets[..])).ok,
                          dataLoaded, old(display.shown), asset, priceText)
        && display.shown == (if dataLoaded then Snapshot(asset.symbol, priceText, asset.lastUpdated)
                             else old(display.shown))
    {
      HandleButton(now, pressed);
      assert FetchDue(State(), now) == FetchDue(old(State()), now);
      var fetched := FetchIfDue(now, inputs);
      var shown := ShowCurrentAsset(now);
      ops := fetched + shown;
    }
  }
}

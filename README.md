# crypto-price-cad in Dafny

A model of the firmware of an M5StickC Plus2 price display. The firmware
fetches three cryptocurrency quotes (BTC, ETH, XRP in CAD) in one batch
request and one stock quote (MSFT in USD) in a second request. It keeps them
in a four-row asset table, rotates the screen through the rows every ten
seconds, and refreshes the table every five minutes. The source tree also
holds an MQTT publisher for Home Assistant (`src/mqtt_client.cpp`). `setup`
and `loop` in `src/main.cpp` never construct or call it, so the running
firmware publishes nothing. The model keeps the publisher as a separate
module, not driven by the `Firmware` module.

The model follows the firmware's own structure, one module per source file:

- `Text` (`text.dfy`): the shared text and number helpers.
  - unsigned 32-bit `millis()` differences across the wrap-around
  - `String(int)` rendering and zero-padded fields
  - ASCII lower-casing
- `Json` (`json.dfy`): the document tree as the JSON library presents it, with
  the accessors the decoders use. `Assets` (`asset_data.dfy`) is the
  `AssetData` record. `Wrappers` (`wrappers.dfy`) holds `Option` and `Result`.
- `CivilTime` (`civil_time.dfy`): `gmtime` and `strftime("%Y-%m-%dT%H:%M:%S.000Z")`.
  - the epoch seconds become a UTC date-time in the proleptic Gregorian calendar
  - that date-time becomes the 24-character text of section 5.6 of RFC 3339
  - the text reads back as the same instant
- `ApiClient` (`api_client.dfy`): the quote client.
  - the price-movement rule
  - the batch decoder (`parseJsonResponse`) and the stock decoder
    (`parseStockJsonResponse`)
  - the HTTP status branches of both fetches, and the last-error text
  - the decoders and fetches are pure functions (`DecodeBatch`, `DecodeStock`,
    `FetchBatch`, `FetchStock`); the class `ApiClient.ApiClient` holds
    `lastError` and updates the asset array in place, proved against them
- `CryptoDisplay` (`crypto_display.dfy`): the presenter.
  - which screen regions `displayAsset` redraws, given the snapshot it keeps
    between calls (function-local statics in the C++, the `shown` field here)
  - the thousands grouping of `formatPrice`, proved equal to a reference
    grouping and reversible
  - the centring of icon and name, and the icon and arrow choices
  - drawing is modelled as the sequence of draw operations issued
- `Firmware` (`firmware.dfy`): `main.cpp`, with its globals as one object.
  - `fetchAndUpdateData` with the market-hours and cached-price rules, also as
    the pure function `FetchTable`
  - `isMarketOpen`, `cycleBrightness`, `setup`, and each part of `loop`
  - `loop`'s effect on the scheduler variables is the pure function `Tick`;
    rotation and brightness cycling are proved over runs of `Tick`
- `MqttClient` (`mqtt_client.dfy`): the Home Assistant publisher, which the
  firmware's `main.cpp` does not use.
  - topics and identifiers built from the lower-cased symbol
  - the discovery, state and availability messages with their retain flags
    (section 3.3.1.3 of MQTT 3.1.1)
  - the will sent on connect (section 3.1.2.5 of MQTT 3.1.1)
  - the reconnect throttle of `loop`

The network, the clocks, the WiFi link and the button are inputs to the
operations that read them:
- an HTTP exchange is an `Exchange`: whether WiFi was up, the status code, the
  body text, and the body as deserialized
- `FetchInputs` bundles the two exchanges, the state of the link, and the
  local weekday and time that `isMarketOpen` reads

`getLastError` is a read of the `lastError` field (`ApiClient.ApiClient.GetLastError`).

Where the firmware's documentation and its code differ, the model follows the
code:

- A batch fetch is not atomic. The batch decoder updates each record as soon
  as its symbol decodes. When a later symbol fails, the call returns false but
  the earlier records keep their new prices. `ApiClient.DecodeBatchFailsAt`
  states this; `ApiClient.DecodeBatchNotAtomicExample` gives a two-symbol input
  where it happens.

Two behaviours of the code are stated as lemmas, because they may surprise a
reader:

- `CryptoDisplay.NegativeSignGrouped`: `formatPrice` counts a leading minus
  sign as a digit. The two-decimal text of -123.45 becomes "-,123.45".
- `Firmware.StatusScreenNotRepainted`: the status and error screens clear the
  LCD but not the presenter's snapshot. On the pass after an
  "Updating prices..." screen, if the asset, price text and timestamp are
  unchanged, only the frame is drawn. A changed price text repaints only the
  price region, and a changed timestamp only the timestamp region. The name,
  the icon and the "Last updated:" label come back only when the rotation
  moves to another symbol (`CryptoDisplay.Plan` states both directions).

## Model

| member | source | states |
|---|---|---|
| Text.Elapsed | src/main.cpp:110-135 | `now - since` on unsigned 32-bit times: the plain difference when `now >= since`, else the difference plus 2^32 |
| Text.ElapsedAcrossWrap | src/main.cpp:116 | a time d ms after `since`, taken modulo 2^32, is read as d ms after it even across the millis() wrap-around |
| Text.IntToString | src/api_client.cpp:120-126 | String(int) is non-empty, starts with '-' exactly for negative values, and is all digits otherwise |
| Text.NatToStringRoundTrip | src/api_client.cpp:120 | reading back the decimal rendering of a natural number gives the number |
| Text.IntToStringInjective | src/api_client.cpp:120-126 | two different integers never render as the same text |
| Text.Pad | src/api_client.cpp:299 | a %0Nd field is exactly `width` characters, all digits |
| Text.PadRoundTrip | src/api_client.cpp:299 | a value below 10^width reads back unchanged from its zero-padded field |
| Text.ToLower | src/mqtt_client.cpp:117-118 | String::toLowerCase keeps the length and maps each ASCII capital to its small letter, leaving other characters alone |
| Json.Member | src/api_client.cpp:161-182 | `v[key]` is the member when the value is an object holding the key, else null |
| Json.Size | src/api_client.cpp:262 | `size()` is the element count of an array and 0 for a scalar |
| Json.AsFloat | src/api_client.cpp:182 | conversion to float keeps integer and floating values, and gives 0 for non-numeric non-boolean values |
| Json.AsULong | src/api_client.cpp:294 | conversion to unsigned long keeps an in-range integer and truncates an in-range float |
| Json.AsString | src/api_client.cpp:192 | conversion to text is the string's text, or empty for any other value |
| CivilTime.YearFrom | src/api_client.cpp:298 | the walk over years ends in a year holding the day, with the day's index inside that year, and day counts preserved |
| CivilTime.MonthFrom | src/api_client.cpp:298 | the walk over months ends in a month holding the day, with a 1-based day of month in range, and day counts preserved |
| CivilTime.Gmtime | src/api_client.cpp:297-298 | gmtime of any non-negative time is a calendar-correct UTC date-time |
| CivilTime.GmtimeRoundTrip | src/api_client.cpp:297-298 | converting gmtime's result back to epoch seconds gives the original time |
| CivilTime.GmtimeYearOfU32 | src/api_client.cpp:294-298 | every 32-bit timestamp falls in a year up to 2106, so %Y has four digits |
| CivilTime.DatePart | src/api_client.cpp:299 | the %Y-%m-%d part is 10 characters, with the padded year, month and day around '-' separators |
| CivilTime.TimePart | src/api_client.cpp:299 | the %H:%M:%S part is 8 characters, with the padded hour, minute and second around ':' separators |
| CivilTime.FormatIso | src/api_client.cpp:299 | the strftime text is 24 characters |
| CivilTime.FormatIsoRoundTrip | src/api_client.cpp:299 | for a valid time with a four-digit year, the text has the YYYY-MM-DDTHH:MM:SS.000Z shape and parses back to the same date-time |
| CivilTime.EpochToIso | src/api_client.cpp:292-300 | the stock's timestamp text always has the 24-character ISO shape |
| CivilTime.EpochToIsoRoundTrip | src/api_client.cpp:292-300 | the timestamp text parses back to gmtime's date-time, which converts back to the original epoch seconds |
| CivilTime.EpochToIsoInjective | src/api_client.cpp:292-300 | two different epoch timestamps never render as the same text |
| ApiClient.TrackPrice | src/api_client.cpp:184-193 | the price is always taken and `firstUpdate` cleared; `previousPrice` and `priceIncreased` move exactly when this is not the first update and the price changed; every other field is kept |
| ApiClient.MovementFollowsLastChange | src/api_client.cpp:184-193 | after any run of prices on a fresh record, the arrow shows the direction of the last real change and `previousPrice` is the price before it; with no change, both keep their initial values |
| ApiClient.MovementExample | src/api_client.cpp:184-193 | the run 100, 100, 105, 105, 95 turns the arrow up at 105, keeps it up through the repeat, and turns it down at 95 |
| ApiClient.QuoteFor | src/api_client.cpp:157-192 | a symbol decodes exactly when `data` holds it as a non-empty array whose `[0].quote.CAD.price` is a number; the price is that number and the timestamp is the text at `[0].quote.CAD.last_updated`; a missing symbol records "Missing data for SYM" |
| ApiClient.ApplyQuote | src/api_client.cpp:181-193 | a decoded quote sets price and timestamp, clears `firstUpdate`, and keeps the record's identity; `previousPrice` becomes the old price and the arrow follows the direction exactly when this is not the first update and the price changed, and otherwise both are kept |
| ApiClient.UpdatedPrefix | src/api_client.cpp:156-196 | the first k records are updated from `data` and the rest are unchanged |
| ApiClient.FirstFailure | src/api_client.cpp:156-179 | the index where the loop stops: every earlier symbol decodes, and the symbol at it (if any) fails |
| ApiClient.DecodeBatch | src/api_client.cpp:131-200 | the batch decode keeps the table length, reports an error exactly on failure, and never touches records past `count` |
| ApiClient.DecodeBatchSucceedsIff | src/api_client.cpp:141-179 | the batch succeeds if and only if the payload is JSON, has `data`, and every requested symbol decodes |
| ApiClient.DecodeBatchSuccess | src/api_client.cpp:156-199 | after a successful batch each requested record carries its decoded quote with `firstUpdate` cleared, and the others are unchanged |
| ApiClient.DecodeBatchKeepsIdentity | src/api_client.cpp:156-196 | whatever the payload, every record keeps its symbol, name, currency, kind and layout fields |
| ApiClient.DecodeBatchFailsAt | src/api_client.cpp:156-196 | a failure at symbol k records that symbol's error; records before k keep the updates already applied, and records from k on are untouched |
| ApiClient.DecodeBatchNotAtomicExample | src/api_client.cpp:156-196 | a payload with BTC but no ETH fails the batch yet leaves BTC's new price in the table |
| ApiClient.StockTimestamp | src/api_client.cpp:288-307 | with `timestamp` present the stock's `lastUpdated` is a 24-character ISO text; without it, "Just now" |
| ApiClient.DecodeStock | src/api_client.cpp:245-313 | the stock decode succeeds exactly for a non-empty array whose first element has `price`; on failure the record is unchanged and an error recorded; on success the movement rule is applied with that price and the timestamp text |
| ApiClient.StockTimestampRoundTrip | src/api_client.cpp:292-302 | the stock's `lastUpdated` reads back as exactly the epoch seconds it was made from |
| ApiClient.TransportMessage | src/api_client.cpp:123-127 | a transport failure's text is the API's "connection failed" text followed by the code; the stock path's text is at lines 238-240 |
| ApiClient.GenericMessage | src/api_client.cpp:119-121 | the text for a status with no message of its own starts "HTTP error " and ends with the response body |
| ApiClient.HttpFailureMessage | src/api_client.cpp:104-127 | 401, 403 and 429 record their own fixed texts, naming the stock API on the stock path (lines 228-241); any other response records "HTTP error " and ends with the response body; a transport failure records the connection text followed by the code |
| ApiClient.MessageMark | src/api_client.cpp:105-127 | the recorded message of each non-200 branch (transport, 401, 403, 429, other) carries a distinct character at a fixed position |
| ApiClient.GenericMessagesDiffer | src/api_client.cpp:119-121 | "HTTP error N: body" texts for different positive codes differ, whatever the bodies |
| ApiClient.TransportMessagesDiffer | src/api_client.cpp:123-127 | "Connection failed: N" texts for different codes differ |
| ApiClient.HttpFailureMessageIdentifiesCode | src/api_client.cpp:105-127 | two different non-200 codes never record the same message, whatever the bodies |
| ApiClient.Classify | src/api_client.cpp:83-128 | only a 200 over a live link reaches the decoder, with the body as deserialized; no WiFi records "WiFi not connected"; a live link with any other status records that status's `HttpFailureMessage` |
| ApiClient.FetchBatch | src/api_client.cpp:82-129 | a crypto fetch without a live link and a 200 fails and leaves the table as it was; with one, it is the batch decode; rows past `count` are never touched; the error is "WiFi not connected" without a link and the status's `HttpFailureMessage` otherwise |
| ApiClient.FetchStock | src/api_client.cpp:202-243 | a stock fetch without a live link and a 200 fails and leaves the record as it was; with one, it is the stock decode; the error is "WiFi not connected" without a link and the status's stock `HttpFailureMessage` otherwise |
| ApiClient.ApiClient.constructor | src/api_client.cpp:5-7 | the last error starts empty |
| ApiClient.ApiClient.SetError | src/api_client.cpp:338-341 | the last error becomes the given text |
| ApiClient.ApiClient.DecodeSymbol | src/api_client.cpp:156-195 | one loop pass: on a decodable symbol the record is updated in place and nothing else changes; otherwise the array is untouched and the symbol's error recorded |
| ApiClient.ApiClient.ParseJsonResponse | src/api_client.cpp:131-200 | the verdict, the array and the last error after the loop are those of `DecodeBatch` on the array as it was |
| ApiClient.ApiClient.FetchCryptoData | src/api_client.cpp:82-129 | the verdict, the array and the last error are those of `FetchBatch` on the array as it was |
| ApiClient.ApiClient.ParseStockJsonResponse | src/api_client.cpp:245-313 | only the stock's row changes, to `DecodeStock`'s record, with its verdict and error |
| ApiClient.ApiClient.FetchStockData | src/api_client.cpp:202-243 | only the stock's row changes, to `FetchStock`'s record, with its verdict and error |
| CryptoDisplay.IconFor | src/crypto_display.cpp:197-210 | an icon is drawn exactly for BTC, ETH, XRP and MSFT, each its own |
| CryptoDisplay.ArrowFor | src/crypto_display.cpp:128-141 | no arrow before the first update; otherwise up exactly when `priceIncreased`, down otherwise |
| CryptoDisplay.TruncDiv | src/crypto_display.cpp:244 | C integer division truncates toward zero for negative numerators |
| CryptoDisplay.CalculateCenterPosition | src/crypto_display.cpp:239-246 | `iconX = (240 - (32 + nameWidth)) / 2` in C division, `textX = iconX + 32`, other fields kept |
| CryptoDisplay.CenteredMargins | src/crypto_display.cpp:239-246 | when the block fits, the margins left of the icon and right of the name differ by at most one pixel |
| CryptoDisplay.IndexOf | src/crypto_display.cpp:214 | indexOf gives -1 exactly when the character is absent, otherwise its first position |
| CryptoDisplay.GroupedIsGroupThousands | src/crypto_display.cpp:221-230 | the left-to-right comma rule (before position i when i > 0 and (len - i) % 3 == 0) yields the reference grouping from the right |
| CryptoDisplay.FormatPrice | src/crypto_display.cpp:212-233 | the loop's result is the integer part grouped by thousands followed by the unchanged decimal part, or the text unchanged when it has no point |
| CryptoDisplay.StripGroupThousands | src/crypto_display.cpp:221-230 | deleting the commas from the grouped integer part gives it back |
| CryptoDisplay.DigitGroups | src/crypto_display.cpp:221-230 | the first group has one to three characters and every later group exactly three |
| CryptoDisplay.GroupThousandsShape | src/crypto_display.cpp:221-230 | the grouped text is the digit groups joined by commas, and the groups concatenate back to the integer part |
| CryptoDisplay.NegativeSignGrouped | src/crypto_display.cpp:225-230 | a minus sign before three integer digits gets a comma after it |
| CryptoDisplay.MillionsGrouped | src/crypto_display.cpp:225-230 | 1234567 is grouped as 1,234,567 |
| CryptoDisplay.FullRedraw | src/crypto_display.cpp:31-63 | an asset switch clears the screen first, draws the icon at its centred position exactly when the symbol has one, the name at its centred position and the "Last updated:" label, ends with the frame, and draws no price or timestamp |
| CryptoDisplay.Plan | src/crypto_display.cpp:20-121 | clear on symbol change only; price region exactly when the asset or the price text changed; timestamp region exactly when the asset or the timestamp changed; the frame last, always; a symbol change starts with the whole `FullRedraw` block (clear, icon, name, "Last updated:" label, frame), and without one no name, icon or label is drawn |
| CryptoDisplay.RepeatDrawsOnlyFrame | src/crypto_display.cpp:26-111 | showing the asset already on screen, unchanged, draws only the frame |
| CryptoDisplay.SwitchRedrawsAll | src/crypto_display.cpp:31-107 | switching assets clears the screen and draws the name, the price with its arrow, and the timestamp |
| CryptoDisplay.CryptoDisplay.constructor | src/crypto_display.cpp:22-24 | the snapshot starts as three empty texts |
| CryptoDisplay.CryptoDisplay.DisplayAsset | src/crypto_display.cpp:20-121 | the draw operations are `Plan`'s for the previous snapshot, and the snapshot becomes (symbol, formatted price, timestamp) of the argument |
| CryptoDisplay.MessageScreen | src/crypto_display.cpp:143-173 | the shared layout of the error and status screens: a cleared screen, then the title and one line, and none of the asset regions or the frame |
| CryptoDisplay.CryptoDisplay.DisplayError | src/crypto_display.cpp:143-157 | a cleared screen with the "ERROR" title and the message; the snapshot is not touched |
| CryptoDisplay.CryptoDisplay.DisplayWiFiStatus | src/crypto_display.cpp:159-173 | a cleared screen with the "WiFi" title and the status; the snapshot is not touched |
| Firmware.InitialAssets | src/main.cpp:29-35 | four rows awaiting their first update with zero prices; only row 3 is a stock; cryptos in CAD with empty timestamps, the stock in USD marked "Market Closed"; symbols distinct |
| Firmware.IsMarketOpen | src/main.cpp:265-291 | closed at weekends; on weekdays open if and only if 545 <= hour*60+minute <= 965 |
| Firmware.MarketHoursOnClock | src/main.cpp:277-285 | on a weekday the market is open from 09:05 through 16:05, both ends included |
| Firmware.FetchTable | src/main.cpp:147-208 | the fetch keeps four rows and succeeds if and only if the crypto group or the stock group succeeded |
| Firmware.FetchTableCases | src/main.cpp:147-208 | a failed reconnect fails with connectWiFi's error and changes nothing; otherwise the crypto rows are the batch's, the stock row is the decoded quote ("Market Closed" outside hours) or, on failure, the cached record marked "Update Failed" when it has a price, and the error kept is the stock's if it failed, else the batch's |
| Firmware.FetchKeepsIdentity | src/main.cpp:147-208 | every row keeps its symbol, name, currency, kind and layout fields through any fetch |
| Firmware.MarketClosedIff | src/main.cpp:176-187 | after a successful stock decode the stock shows "Market Closed" if and only if the market is closed |
| Firmware.CachedStockCountsAsSuccess | src/main.cpp:195-204 | a failed stock fetch with a cached price keeps the price, is marked "Update Failed", and the fetch counts as a success |
| Firmware.Tick | src/main.cpp:104-145 | indices stay in range; a debounced press (more than 200 ms) advances the brightness and restarts the debounce; a due fetch restarts both timers and sets `dataLoaded` on success; the asset advances by one, wrapping, exactly when data is loaded, no fetch was due and ten seconds passed; with no fetch and no rotation the display timer is kept |
| Firmware.Run | src/main.cpp:104-145 | any run of passes, whatever their times, presses and fetch results, keeps the asset and brightness indices in range |
| Firmware.RunWithoutPresses | src/main.cpp:109-112 | a run of passes with no press of button A leaves the brightness and the debounce timer alone |
| Firmware.RotationSteps | src/main.cpp:133-138 | k passes at least ten seconds apart, with no fetch due, move the asset on show k places round the table |
| Firmware.SwitchTaken | src/main.cpp:133-138 | with data loaded, no fetch due and ten seconds gone since the last switch, one pass moves the asset on show one place on and restarts the display timer |
| Firmware.RotationVisitsEveryAsset | src/main.cpp:133-138 | four such passes show each row in table order |
| Firmware.RotationReturnsToFirst | src/main.cpp:133-138 | four such passes come back to the row shown first |
| Firmware.BrightnessSteps | src/main.cpp:109-112 | k passes with button A pressed, each more than 200 ms after the press before, are all taken and move the brightness k levels round the table |
| Firmware.PressTaken | src/main.cpp:109-112 | a press more than 200 ms after the last one taken moves the brightness one level on and restarts the debounce timer |
| Firmware.BrightnessFullCycle | src/main.cpp:211-213 | five such presses in `loop` bring the brightness back to its starting level |
| Firmware.FetchOps | src/main.cpp:116-126 | a due fetch draws the "Updating prices..." status, followed by the "Update failed" error when the fetch fails and by nothing else when it succeeds; with no fetch due, nothing |
| Firmware.SetupOps | src/main.cpp:72-98 | setup draws "Connecting...", then either the connection error or "Connected! Loading data..." |
| Firmware.SetupReportsFailedLoad | src/main.cpp:92-98 | after connecting, the initial-load error screen is drawn if and only if the initial fetch fails |
| Firmware.TickOps | src/main.cpp:104-145 | a pass draws the fetch status first when a fetch is due, nothing when it neither fetches nor shows, and ends with the frame when it shows an asset |
| Firmware.StatusScreenNotRepainted | src/main.cpp:116-140 | after a status screen, an unchanged asset is not repainted: only the frame is drawn over the status text |
| Firmware.Firmware.Brightness | src/main.cpp:44-47 | the backlight level is always one of the five levels |
| Firmware.Firmware.constructor | src/main.cpp:29-50 | the table is `InitialAssets`, the timers and indices are zero, no data is loaded, and the last error and snapshot are empty |
| Firmware.Firmware.FetchAndUpdateData | src/main.cpp:147-208 | the verdict, the table and the last error are those of `FetchTable` on the table as it was |
| Firmware.Firmware.ApplyMarketStatus | src/main.cpp:176-204 | only the stock row changes, by the "Market Closed" and "Update Failed" rules, with the cached-price success |
| Firmware.Firmware.CycleBrightness | src/main.cpp:211-232 | the brightness index advances by one, wrapping at five; the rest of the state is unchanged |
| Firmware.Firmware.Setup | src/main.cpp:57-102 | a failed connection records the error, draws the error screen and reports a restart with nothing else changed; otherwise the table and error follow `FetchTable`, `dataLoaded` is set on success and both timers start at `now` |
| Firmware.Firmware.LoadInitialData | src/main.cpp:86-101 | the loading status, the fetch per `FetchTable`, the error screen exactly on failure, and both timers at `now` |
| Firmware.Firmware.HandleButton | src/main.cpp:109-113 | the scheduler state moves by the debounced button rule |
| Firmware.Firmware.FetchIfDue | src/main.cpp:115-130 | when due, the table and error follow `FetchTable` and both timers restart; when not due, nothing changes and nothing is drawn |
| Firmware.Firmware.RotateIfDue | src/main.cpp:133-138 | the rotation rule on the scheduler state |
| Firmware.Firmware.ShowCurrentAsset | src/main.cpp:132-141 | after the rotation, the row on show is drawn by `Plan` once data is loaded, and the snapshot updated |
| Firmware.Firmware.Loop | src/main.cpp:104-145 | the scheduler state moves by `Tick`; the table and error follow `FetchTable` when a fetch is due; the screens drawn are `TickOps` |
| MqttClient.BuildTopic | src/mqtt_client.cpp:214-220 | the topic is the prefix followed by the suffix |
| MqttClient.DiscoveryTopic | src/mqtt_client.cpp:116-120 | "homeassistant/sensor/m5crypto_" + lower-case symbol + "/config" |
| MqttClient.DiscoveryTopicIdentifiesSymbol | src/mqtt_client.cpp:116-120 | two symbols share a discovery topic if and only if they agree up to case |
| MqttClient.UniqueId | src/mqtt_client.cpp:131 | "m5crypto_" + lower-case symbol + "_price" |
| MqttClient.UniqueIdIdentifiesSymbol | src/mqtt_client.cpp:131 | two symbols share a unique_id if and only if they agree up to case |
| MqttClient.StateTopic | src/mqtt_client.cpp:123 | prefix + "/" + lower-case symbol + "/state" |
| MqttClient.AvailabilityTopic | src/mqtt_client.cpp:124 | prefix + "/status" |
| MqttClient.StateTopicIsNotAvailability | src/mqtt_client.cpp:123-124 | no symbol's state topic is the availability topic |
| MqttClient.GetIcon | src/mqtt_client.cpp:222-229 | fixed icons for BTC, ETH, XRP and MSFT, and "mdi:cash" for every other symbol |
| MqttClient.Trend | src/mqtt_client.cpp:193-199 | "unknown" if and only if first update; else "up" if and only if the price increased; else "down" |
| MqttClient.Precision | src/mqtt_client.cpp:184-190 | 2 decimals if and only if price >= 100, 3 if and only if 1 <= price < 100, 4 if and only if price < 1 |
| MqttClient.PrecisionMonotone | src/mqtt_client.cpp:184-190 | a higher price never gets more decimals |
| MqttClient.DeviceBlock | src/mqtt_client.cpp:140-145 | the device object has exactly the five keys, with the fixed identifier |
| MqttClient.DiscoveryDocument | src/mqtt_client.cpp:126-149 | the discovery payload is a JSON object; its eleven fields are stated by the next three lemmas |
| MqttClient.DiscoveryDocumentTopics | src/mqtt_client.cpp:131-148 | unique_id, state_topic, json_attributes_topic and availability_topic are the asset's identifier and topics |
| MqttClient.DiscoveryDocumentSensor | src/mqtt_client.cpp:134-145 | the unit is the asset's currency, the icon is `GetIcon`'s, and the device block is the shared one |
| MqttClient.DiscoveryDocumentLabels | src/mqtt_client.cpp:130-149 | exactly the eleven keys publishAssetDiscovery writes; `name` is the asset name followed by " Price", `value_template` reads the state document's "price" key, `state_class` is "measurement", and `json_attributes_template` picks trend and updated |
| MqttClient.DiscoveryMessage | src/mqtt_client.cpp:115-157 | the discovery message goes to the discovery topic, carries a JSON document, and is retained |
| MqttClient.DiscoveryMessages | src/mqtt_client.cpp:107-110 | one discovery message per asset, in table order |
| MqttClient.StateDocument | src/mqtt_client.cpp:181-202 | the state document has exactly price, trend and updated: the rounded price, the asset's trend and its timestamp |
| MqttClient.StateMessage | src/mqtt_client.cpp:174-212 | the state message goes to the asset's state topic and is not retained |
| MqttClient.DiscoveryPointsAtState | src/mqtt_client.cpp:132-148 | the discovery config's state and attribute topics are where the asset's state is published, with the asset's currency; discovery is retained and state is not |
| MqttClient.AvailabilityMessage | src/mqtt_client.cpp:92-97 | "online" or "offline" on the status topic, retained |
| MqttClient.ConnectWill | src/mqtt_client.cpp:58-67 | the will is on the status topic, QoS 0, retained |
| MqttClient.WillIsOfflineAvailability | src/mqtt_client.cpp:66-97 | the will the broker publishes on a dropped link is exactly the retained "offline" availability message |
| MqttClient.MqttClient.constructor | src/mqtt_client.cpp:5-11 | the reconnect timer starts at zero |
| MqttClient.MqttClient.Reconnect | src/mqtt_client.cpp:50-90 | connected: success with no request; otherwise a CONNECT with the will, and on success the retained "online" message |
| MqttClient.MqttClient.Loop | src/mqtt_client.cpp:32-44 | a reconnect is attempted if and only if disconnected and more than 5000 ms passed since the last attempt; the timer becomes `now`, or 0 after a successful attempt |
| MqttClient.MqttClient.PublishDiscoveryConfigs | src/mqtt_client.cpp:99-113 | nothing when disconnected; otherwise one retained discovery message per asset, in table order |
| MqttClient.MqttClient.PublishPrices | src/mqtt_client.cpp:159-172 | nothing when disconnected; otherwise one state message per asset in table order, with the price rounded by its precision rule |

## Left out

- WiFi association, the network scan and NTP setup (`connectWiFi`, `scanNetworks`, `setupTime`): hardware and network I/O. The link state is an input, and `connectWiFi`'s error text arrives as an input string.
- The HTTP and TLS transport: the status code, body text and deserialized body are inputs.
- JSON lexing and `serializeJson`: a payload arrives as a tree or as the library's error text. The byte order of serialized documents is not modelled. ArduinoJson's coercions of strings and out-of-range numbers are approximated: ArduinoJson 6's `as<float>()` and `as<unsigned long>()` parse a numeric string such as "412.5", but `Json.AsFloat` and `Json.AsULong` read every string as 0. On the stock path, `stockObj["price"]` and `stockObj["timestamp"]` are read whatever their type (src/api_client.cpp:277, 294), so a quote that sends them as strings gets the price 0 and the 1970 timestamp in the model, not the parsed values. `Json.AsULong` also reads an out-of-range number as 0, where the library's result is not modelled.
- LCD drawing: pixels, fonts, colours, `textWidth`, the frame geometry and the arrow's x position are not modelled. A draw step is a `DrawOp` value, and the status and error screens are their title and line.
- ApiClient.TrackPrice: prices are exact reals, so single-precision `float` rounding in the decoders and in the `!=` and `>` comparisons is not modelled.
- CryptoDisplay.CryptoDisplay.DisplayAsset: `String(price, 2)` is float formatting and is not modelled. It is the injected function `toFixed`; only the grouping applied to its result is proved.
- MqttClient.MqttClient.PublishPrices: `round(x * 10^d) / 10^d` on floats is the injected function `roundTo`. Only the choice of `d` is modelled and proved.
- Storage of the timestamp text is not modelled, and the model copies the text where the C++ keeps a `const char*`. For the crypto rows this hides a use of freed memory in the code as written. `parseJsonResponse` sets each `lastUpdated` at src/api_client.cpp:192 to point into its local `DynamicJsonDocument` (line 139), and that document is freed when the function returns. That reference then dangles. Every later read of it reads freed memory: the timestamp that `displayAsset` compares and draws, and the `"updated"` field of `publishAssetState`. The model gives those reads the decoded text, which is the evidently intended behaviour and not what the code guarantees. The stock row is not affected: it points at a static buffer (line 290) or a string literal.
- CivilTime.GmtimeYearOfU32: `time_t rawtime = timestamp;` (src/api_client.cpp:297) is modelled as lossless, which assumes a 64-bit `time_t`. With a 32-bit `time_t`, timestamps of 2^31 or more wrap to negative values and would render as dates from 1901 to 1969. `CivilTime.EpochToIso` and `ApiClient.StockTimestamp` rest on the same assumption.
- The MQTT transport: `begin`, the PubSubClient calls, publish success, and the connection-state logging. Whether the client is connected and whether a connect succeeds are inputs. Publishing is the list of messages returned.
- MQTT_TOPIC_PREFIX and MQTT_CLIENT_ID are build-time settings that are not part of this model. They are constructor parameters of `MqttClient.MqttClient`.
- The delay(100) between discovery publishes, and all other `delay` calls and serial logging: they are timing and debugging side effects with no state logic.
- Firmware.Firmware.Setup: `ESP.restart` after a failed connection is the `restart` result, not a reset of the device.
- Firmware.Firmware.Setup: the two `millis()` reads at the end of setup are modelled as one time `now`.
- The backlight hardware calls: the brightness is the index into the five levels (`Firmware.Firmware.Brightness`).
- The `displayCrypto` wrapper only forwards to `displayAsset`, and `begin` only configures the LCD.
- Firmware.IsMarketOpen: the local weekday and time come from the NTP-set clock in the C++. Here they are inputs, so time-zone and daylight-saving handling are not modelled.

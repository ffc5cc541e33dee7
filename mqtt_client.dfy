/** The MQTT publisher for Home Assistant (mqtt_client.cpp): topic and
    identifier construction from the lower-cased symbol, the discovery,
    state and availability messages with their retain flags (section 3.3.1.3
    of MQTT 3.1.1), the last will sent on connect (section 3.1.2.5 of MQTT
    3.1.1), and the reconnect throttle. The broker connection is an input;
    publishing is modelled as the messages returned. */
module MqttClient {
  import opened Wrappers
  import opened Text
  import opened Json
  import opened Assets

  const RECONNECT_INTERVAL: int := 5000
  const DISCOVERY_TOPIC_HEAD: string := "homeassistant/sensor/m5crypto_"
  const DISCOVERY_TOPIC_TAIL: string := "/config"
  /** The Home Assistant templates that read the state document's fields. */
  const VALUE_TEMPLATE: string := "{{ value_json.price }}"
  const ATTRIBUTES_TEMPLATE: string := "{{ {'trend': value_json.trend, 'updated': value_json.updated} | tojson }}"

  /** A message body: plain text, or a JSON document (serialized on the wire). */
  datatype Payload = Plain(text: string) | Document(doc: Json)

  /** One PUBLISH: topic, body and the RETAIN flag. */
  datatype Message = Message(topic: string, payload: Payload, retained: bool)

  /** The Will of a CONNECT packet: topic, message, QoS and Will Retain. */
  datatype Will = Will(topic: string, message: string, qos: int, retain: bool)

  /** A CONNECT request: client identifier and will (credentials not modelled). */
  datatype ConnectRequest = ConnectRequest(clientId: string, will: Will)

  // ---------------------------------------------------------------- topics

  /** buildTopic: the configured prefix followed by the suffix. */
  function BuildTopic(prefix: string, suffix: string): (t: string)
    ensures |t| == |prefix| + |suffix| && t[..|prefix|] == prefix && t[|prefix|..] == suffix
  {
    prefix + suffix
  }

  /** The discovery topic of publishAssetDiscovery. */
  function DiscoveryTopic(symbol: string): (t: string)
    ensures |t| == |DISCOVERY_TOPIC_HEAD| + |symbol| + |DISCOVERY_TOPIC_TAIL|
    ensures t[..|DISCOVERY_TOPIC_HEAD|] == DISCOVERY_TOPIC_HEAD
    ensures t[|DISCOVERY_TOPIC_HEAD|..|t| - |DISCOVERY_TOPIC_TAIL|] == ToLower(symbol)
    ensures t[|t| - |DISCOVERY_TOPIC_TAIL|..] == DISCOVERY_TOPIC_TAIL
  {
    DISCOVERY_TOPIC_HEAD + ToLower(symbol) + DISCOVERY_TOPIC_TAIL
  }

  /** Two symbols share a discovery topic exactly when they agree up to case. */
  lemma DiscoveryTopicIdentifiesSymbol(a: string, b: string)
    ensures DiscoveryTopic(a) == DiscoveryTopic(b) <==> ToLower(a) == ToLower(b)
  {
    if DiscoveryTopic(a) == DiscoveryTopic(b) {
      var t := DiscoveryTopic(a);
      assert ToLower(a) == t[|DISCOVERY_TOPIC_HEAD|..|t| - |DISCOVERY_TOPIC_TAIL|] == ToLower(b);
    }
  }

  /** The sensor's unique_id. */
  function UniqueId(symbol: string): (id: string)
    ensures |id| == 9 + |symbol| + 6
    ensures id[..9] == "m5crypto_" && id[9..|id| - 6] == ToLower(symbol) && id[|id| - 6..] == "_price"
  {
    "m5crypto_" + ToLower(symbol) + "_price"
  }

  /** Two symbols share a unique_id exactly when they agree up to case. */
  lemma UniqueIdIdentifiesSymbol(a: string, b: string)
    ensures UniqueId(a) == UniqueId(b) <==> ToLower(a) == ToLower(b)
  {
    if UniqueId(a) == UniqueId(b) {
      var id := UniqueId(a);
      assert ToLower(a) == id[9..|id| - 6] == ToLower(b);
    }
  }

  /** The state topic, also used as json_attributes_topic. */
  function StateTopic(prefix: string, symbol: string): (t: string)
    ensures t == BuildTopic(prefix, "/" + ToLower(symbol) + "/state")
  {
    BuildTopic(prefix, "/" + ToLower(symbol) + "/state")
  }

  /** The availability topic, also the will topic. */
  function AvailabilityTopic(prefix: string): (t: string)
    ensures t == BuildTopic(prefix, "/status")
  {
    BuildTopic(prefix, "/status")
  }

  /** No state topic coincides with the availability topic, whatever the
      symbol, so prices and online/offline never share a topic. */
  lemma StateTopicIsNotAvailability(prefix: string, symbol: string)
    ensures StateTopic(prefix, symbol) != AvailabilityTopic(prefix)
  {
    var lower := ToLower(symbol);
    var s, a := StateTopic(prefix, symbol), AvailabilityTopic(prefix);
    if |lower| == 0 {
      assert s[|prefix| + 1] == '/' && a[|prefix| + 1] == 's';
    } else {
      assert |s| != |a|;
    }
  }

  // ------------------------------------------------------- per-asset fields

  /** getIcon: a Material Design icon for the four known symbols, else a generic one. */
  function GetIcon(symbol: string): (icon: string)
    ensures icon == "mdi:cash" <==> symbol !in {"BTC", "ETH", "XRP", "MSFT"}
    ensures symbol == "BTC" ==> icon == "mdi:bitcoin"
    ensures symbol == "ETH" ==> icon == "mdi:ethereum"
    ensures symbol == "XRP" ==> icon == "mdi:alpha-x-circle"
    ensures symbol == "MSFT" ==> icon == "mdi:microsoft"
  {
    if symbol == "BTC" then "mdi:bitcoin"
    else if symbol == "ETH" then "mdi:ethereum"
    else if symbol == "XRP" then "mdi:alpha-x-circle"
    else if symbol == "MSFT" then "mdi:microsoft"
    else "mdi:cash"
  }

  /** The trend attribute: unknown before the first movement is known. */
  function Trend(a: AssetData): (t: string)
    ensures t == "unknown" <==> a.firstUpdate
    ensures t == "up" <==> !a.firstUpdate && a.priceIncreased
    ensures t == "down" <==> !a.firstUpdate && !a.priceIncreased
  {
    if a.firstUpdate then "unknown" else if a.priceIncreased then "up" else "down"
  }

  /** The number of decimals the state price is rounded to. */
  function Precision(price: real): (d: nat)
    ensures d == 2 <==> price >= 100.0
    ensures d == 3 <==> 1.0 <= price < 100.0
    ensures d == 4 <==> price < 1.0
  {
    if price >= 100.0 then 2 else if price >= 1.0 then 3 else 4
  }

  /** Higher prices never get more decimals. */
  lemma PrecisionMonotone(p: real, q: real)
    requires p <= q
    ensures Precision(q) <= Precision(p)
  {
  }

  // -------------------------------------------------------------- payloads

  /** The device block: the same for every asset, so Home Assistant groups
      all sensors under one device. */
  function DeviceBlock(): (d: Json)
    ensures d.Object? && d.members.Keys == {"identifiers", "name", "model", "manufacturer", "sw_version"}
    ensures d.members["identifiers"] == Array([Str("m5crypto_display")])
  {
    Object(map[
      "identifiers" := Array([Str("m5crypto_display")]),
      "name" := Str("Crypto Price Display"),
      "model" := Str("M5StickC Plus2"),
      "manufacturer" := Str("M5Stack"),
      "sw_version" := Str("2.2")])
  }

  /** The discovery document of publishAssetDiscovery. */
  function DiscoveryDocument(prefix: string, a: AssetData): (doc: Json)
    ensures doc.Object?
  {
    Object(map[
      "name" := Str(a.name + " Price"),
      "unique_id" := Str(UniqueId(a.symbol)),
      "state_topic" := Str(StateTopic(prefix, a.symbol)),
      "value_template" := Str(VALUE_TEMPLATE),
      "unit_of_measurement" := Str(a.currency),
      "icon" := Str(GetIcon(a.symbol)),
      "state_class" := Str("measurement"),
      "availability_topic" := Str(AvailabilityTopic(prefix)),
      "device" := DeviceBlock(),
      "json_attributes_topic" := Str(StateTopic(prefix, a.symbol)),
      "json_attributes_template" := Str(ATTRIBUTES_TEMPLATE)])
  }

  /** The discovery document names the sensor by the symbol and points at
      the asset's state topic and at the availability topic. */
  lemma DiscoveryDocumentTopics(prefix: string, a: AssetData)
    ensures var m := DiscoveryDocument(prefix, a).members;
      && "unique_id" in m && m["unique_id"] == Str(UniqueId(a.symbol))
      && "state_topic" in m && m["state_topic"] == Str(StateTopic(prefix, a.symbol))
      && "json_attributes_topic" in m && m["json_attributes_topic"] == Str(StateTopic(prefix, a.symbol))
      && "availability_topic" in m && m["availability_topic"] == Str(AvailabilityTopic(prefix))
  {
  }

  /** The discovery document carries the asset's currency and icon and the
      shared device block. */
  lemma DiscoveryDocumentSensor(prefix: string, a: AssetData)
    ensures var m := DiscoveryDocument(prefix, a).members;
      && "unit_of_measurement" in m && m["unit_of_measurement"] == Str(a.currency)
      && "icon" in m && m["icon"] == Str(GetIcon(a.symbol))
      && "device" in m && m["device"] == DeviceBlock()
  {
  }

  /** The discovery document has exactly the eleven fields of
      publishAssetDiscovery; it labels the sensor by the asset's name, reads
      the state document's "price" key as the value, and declares a
      measurement. */
  lemma DiscoveryDocumentLabels(prefix: string, a: AssetData)
    ensures var m := DiscoveryDocument(prefix, a).members;
      && m.Keys == {"name", "unique_id", "state_topic", "value_template", "unit_of_measurement", "icon",
                    "state_class", "availability_topic", "device", "json_attributes_topic", "json_attributes_template"}
      && m["name"] == Str(a.name + " Price")
      && m["value_template"] == Str(VALUE_TEMPLATE)
      && m["state_class"] == Str("measurement")
      && m["json_attributes_template"] == Str(ATTRIBUTES_TEMPLATE)
  {
  }

  /** publishAssetDiscovery's message: retained, so Home Assistant finds the
      sensor after it restarts. */
  function DiscoveryMessage(prefix: string, a: AssetData): (m: Message)
    ensures m.retained && m.topic == DiscoveryTopic(a.symbol) && m.payload.Document?
  {
    Message(DiscoveryTopic(a.symbol), Document(DiscoveryDocument(prefix, a)), true)
  }

  /** The discovery messages for a table of assets, one per asset in order. */
  function DiscoveryMessages(prefix: string, table: seq<AssetData>): (ms: seq<Message>)
    ensures |ms| == |table|
    ensures forall i :: 0 <= i < |table| ==> ms[i] == DiscoveryMessage(prefix, table[i])
  {
    if |table| == 0 then []
    else DiscoveryMessages(prefix, table[..|table| - 1]) + [DiscoveryMessage(prefix, table[|table| - 1])]
  }

  /** The state document of publishAssetState; `rounded` is the price rounded
      to Precision(price) decimals. */
  function StateDocument(a: AssetData, rounded: real): (doc: Json)
    ensures doc.Object? && doc.members.Keys == {"price", "trend", "updated"}
    ensures doc.members["price"] == Float(rounded)
    ensures doc.members["trend"] == Str(Trend(a)) && doc.members["updated"] == Str(a.lastUpdated)
  {
    Object(map["price" := Float(rounded), "trend" := Str(Trend(a)), "updated" := Str(a.lastUpdated)])
  }

  /** publishAssetState's message: not retained. */
  function StateMessage(prefix: string, a: AssetData, rounded: real): (m: Message)
    ensures !m.retained && m.topic == StateTopic(prefix, a.symbol) && m.payload.Document?
  {
    Message(StateTopic(prefix, a.symbol), Document(StateDocument(a, rounded)), false)
  }

  /** The discovery config points Home Assistant at the topic where the
      asset's state is published, with the asset's own currency. */
  lemma DiscoveryPointsAtState(prefix: string, a: AssetData, rounded: real)
    ensures var d := DiscoveryMessage(prefix, a).payload.doc;
      && "state_topic" in d.members && "json_attributes_topic" in d.members && "unit_of_measurement" in d.members
      && d.members["state_topic"] == Str(StateMessage(prefix, a, rounded).topic)
      && d.members["json_attributes_topic"] == Str(StateMessage(prefix, a, rounded).topic)
      && d.members["unit_of_measurement"] == Str(a.currency)
      && DiscoveryMessage(prefix, a).retained && !StateMessage(prefix, a, rounded).retained
  {
    DiscoveryDocumentTopics(prefix, a);
    DiscoveryDocumentSensor(prefix, a);
  }

  /** publishAvailability: "online" or "offline" on the status topic, retained. */
  function AvailabilityMessage(prefix: string, online: bool): (m: Message)
    ensures m.retained && m.topic == AvailabilityTopic(prefix)
    ensures m.payload == Plain(if online then "online" else "offline")
  {
    Message(AvailabilityTopic(prefix), Plain(if online then "online" else "offline"), true)
  }

  /** The will registered on connect. */
  function ConnectWill(prefix: string): (w: Will)
    ensures w.topic == AvailabilityTopic(prefix) && w.qos == 0 && w.retain
  {
    Will(AvailabilityTopic(prefix), "offline", 0, true)
  }

  /** What the broker publishes for the will when the link drops is exactly
      what publishAvailability(false) would have sent: same topic, same text,
      retained. */
  lemma WillIsOfflineAvailability(prefix: string)
    ensures var w := ConnectWill(prefix);
      AvailabilityMessage(prefix, false) == Message(w.topic, Plain(w.message), w.retain)
  {
  }

  // ---------------------------------------------------------------- client

  /** MQTTClient with the reconnect timer. The topic prefix and client id are
      build-time settings; `roundTo(x, d)` is round(x * 10^d) / 10^d on floats. */
  class MqttClient {
    const prefix: string
    const clientId: string
    const roundTo: (real, nat) -> real
    var lastReconnectAttempt: U32

    constructor(prefix: string, clientId: string, roundTo: (real, nat) -> real)
      ensures this.prefix == prefix && this.clientId == clientId && this.roundTo == roundTo
      ensures lastReconnectAttempt == 0
    {
      this.prefix := prefix;
      this.clientId := clientId;
      this.roundTo := roundTo;
      lastReconnectAttempt := 0;
    }

    /** reconnect: nothing when connected; otherwise a CONNECT with the will,
        and on success the retained "online" availability. */
    method Reconnect(connected: bool, connectOk: bool) returns (ok: bool, request: Option<ConnectRequest>, sent: seq<Message>)
      ensures connected ==> ok && request.None? && sent == []
      ensures !connected ==> request == Some(ConnectRequest(clientId, ConnectWill(prefix))) && ok == connectOk
      ensures !connected && connectOk ==> sent == [AvailabilityMessage(prefix, true)]
      ensures !connected && !connectOk ==> sent == []
    {
      if connected {
        return true, None, [];
      }
      var statusTopic := BuildTopic(prefix, "/status");
      request := Some(ConnectRequest(clientId, Will(statusTopic, "offline", 0, true)));
      if connectOk {
        ok := true;
        sent := [Message(BuildTopic(prefix, "/status"), Plain("online"), true)];
      } else {
        ok := false;
        sent := [];
      }
    }

    /** loop: while disconnected, one attempt when more than five seconds
        passed since the last one; the timer is then `now`, or 0 when the
        attempt succeeded. */
    method Loop(now: U32, connected: bool, connectOk: bool) returns (request: Option<ConnectRequest>, sent: seq<Message>)
      modifies this
      ensures var attempted := !connected && Elapsed(now, old(lastReconnectAttempt)) > RECONNECT_INTERVAL;
        && (request.Some? <==> attempted)
        && (attempted ==> request == Some(ConnectRequest(clientId, ConnectWill(prefix))))
        && lastReconnectAttempt == (if !attempted then old(lastReconnectAttempt) else if connectOk then 0 else now)
        && sent == (if attempted && connectOk then [AvailabilityMessage(prefix, true)] else [])
    {
      request, sent := None, [];
      if !connected {
        if Elapsed(now, lastReconnectAttempt) > RECONNECT_INTERVAL {
          lastReconnectAttempt := now;
          var ok;
          ok, request, sent := Reconnect(connected, connectOk);
          if ok {
            lastReconnectAttempt := 0;
          }
        }
      }
    }

    /** publishDiscoveryConfigs: nothing when disconnected, else one retained
        discovery message per asset, in table order. */
    method PublishDiscoveryConfigs(connected: bool, assets: array<AssetData>, count: int) returns (sent: seq<Message>)
      requires 0 <= count <= assets.Length
      ensures sent == if connected then DiscoveryMessages(prefix, assets[..count]) else []
    {
      sent := [];
      if !connected {
        return;
      }
      for i := 0 to count
        invariant sent == DiscoveryMessages(prefix, assets[..i])
      {
        assert assets[..i + 1][..i] == assets[..i];
        sent := sent + [DiscoveryMessage(prefix, assets[i])];
      }
    }

    /** The price published for an asset, rounded by its precision rule. */
    function Rounded(price: real): real
    {
      roundTo(price, Precision(price))
    }

    /** publishPrices: nothing when disconnected, else one state message per
        asset, in table order. */
    method PublishPrices(connected: bool, assets: array<AssetData>, count: int) returns (sent: seq<Message>)
      requires 0 <= count <= assets.Length
      ensures !connected ==> sent == []
      ensures connected ==> |sent| == count && forall i :: 0 <= i < count ==>
                sent[i] == StateMessage(prefix, assets[i], Rounded(assets[i].price))
    {
      sent := [];
      if !connected {
        return;
      }
      for i := 0 to count
        invariant |sent| == i
        invariant forall j :: 0 <= j < i ==> sent[j] == StateMessage(prefix, assets[j], Rounded(assets[j].price))
      {
        var asset := assets[i];
        var topic := BuildTopic(prefix, "/" + ToLower(asset.symbol) + "/state");
        var rounded := if asset.price >= 100.0 then roundTo(asset.price, 2)
                       else if asset.price >= 1.0 then roundTo(asset.price, 3)
                       else roundTo(asset.price, 4);
        var doc := Object(map["price" := Float(rounded), "trend" := Str(Trend(asset)), "updated" := Str(asset.lastUpdated)]);
        sent := sent + [Message(topic, Document(doc), false)];
      }
    }
  }
}

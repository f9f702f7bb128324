/**
 * The Node-RED Sparkplug edge node: a per-device metric cache and the event
 * handlers (input, rebirth, command, connectivity) that drive it and that
 * publish device lifecycle messages through the Sparkplug client.
 */
module Sparkplug {
  import opened Wrappers
  import opened Topic
  import opened Metrics

  /** The version string that selects Sparkplug B, whose payloads use the key `metrics`. */
  const SparkplugB: string := "spBv1.0"

  /** The node's configuration: whether the device cache is on, and the protocol version. */
  datatype Config = Config(cacheEnabled: bool, version: string)

  /**
   * A decoded payload: the timestamp, the metric list under `metric`
   * (Sparkplug A) or `metrics` (Sparkplug B), and every other property by
   * name in `rest`.  `None` is a property that is not there.
   */
  datatype Payload = Payload(timestamp: Option<int>, metric: Option<seq<Metric>>, metrics: Option<seq<Metric>>,
                             rest: map<string, Value>)

  /** The empty payload `{}`. */
  const EmptyPayload: Payload := Payload(None, None, None, map[])

  /** The metric list of a payload: `metrics` under Sparkplug B, `metric` under any other version. */
  function MetricList(version: string, payload: Payload): Option<seq<Metric>>
  {
    if version == SparkplugB then payload.metrics else payload.metric
  }

  /**
   * The BIRTH payload the rebirth handler builds for a cached device: a
   * timestamp and the cached list under the version's key, and no other
   * property.
   */
  function BirthPayload(version: string, list: Option<seq<Metric>>, now: int): (p: Payload)
    ensures MetricList(version, p) == list && p.timestamp == Some(now)
    ensures version == SparkplugB ==> p.metric == None
    ensures version != SparkplugB ==> p.metrics == None
    ensures p.rest == map[]
  {
    if version == SparkplugB then Payload(Some(now), None, list, map[]) else Payload(Some(now), list, None, map[])
  }

  /**
   * The device cache: device id to the list stored by its last DBIRTH.  A
   * DBIRTH whose payload lacks the version's list key stores `undefined`,
   * which is `None` here: the device is a key of the cache, but DDATA still
   * treats it as unknown.
   */
  type Cache = map<string, Option<seq<Metric>>>

  /** The text of the node's connectivity status. */
  datatype Status = Connected | Connecting | Disconnected

  /** The errors the node reports with `node.error`, and the handler's TypeError. */
  datatype Failure =
    | InvalidTopic(topic: string)
    | UnknownDevice(deviceId: string)
    | MetricListMissing(deviceId: string)

  /** Everything the node does that can be observed from outside. */
  datatype Output =
    | PublishDeviceBirth(deviceId: string, payload: Payload)
    | PublishDeviceData(deviceId: string, payload: Payload)
    | PublishDeviceDeath(deviceId: string, payload: Payload)
    | Send(topic: string, payload: Payload)
    | Error(failure: Failure)
    | UnknownMetricWarning
    | StatusChange(status: Status)

  /** The new cache and the outputs, in order, of one input message. */
  datatype Effect = Effect(cache: Cache, outputs: seq<Output>)

  /** `n` unknown-metric warnings. */
  function Warnings(n: nat): (ws: seq<Output>)
    ensures |ws| == n && forall i :: 0 <= i < n ==> ws[i] == UnknownMetricWarning
  {
    seq(n, _ => UnknownMetricWarning)
  }

  lemma MapUpdateSame<K, V>(m: map<K, V>, k: K)
    requires k in m
    ensures m[k := m[k]] == m
  {
  }

  lemma AppendAssoc<T>(a: seq<T>, b: seq<T>, c: seq<T>)
    ensures (a + b) + c == a + (b + c)
  {
  }

  /** The topic `<deviceId>/<messageType>`. */
  function TopicOf(deviceId: string, messageType: string): string
  {
    deviceId + "/" + messageType
  }

  /**
   * What the input handler does with a message `{topic, payload}`, given the
   * configuration and the cache before it.
   */
  function Handle(config: Config, cache: Cache, topic: string, payload: Payload): Effect
  {
    match ParseTopic(topic)
    case None => Effect(cache, [Error(InvalidTopic(topic))])
    case Some(parts) => HandleMessage(config, cache, parts.deviceId, parts.messageType, payload)
  }

  /** The input handler once the topic has been split into a device id and a message type. */
  function HandleMessage(config: Config, cache: Cache, deviceId: string, messageType: string, payload: Payload): Effect
  {
    if messageType == "DBIRTH" then
      Effect(if config.cacheEnabled then cache[deviceId := MetricList(config.version, payload)] else cache,
             [PublishDeviceBirth(deviceId, payload)])
    else if messageType == "DDATA" then
      HandleData(config, cache, deviceId, payload)
    else if messageType == "DDEATH" then
      Effect(cache - {deviceId}, [PublishDeviceDeath(deviceId, payload)])
    else
      Effect(cache, [])
  }

  /** The DDATA branch of the input handler. */
  function HandleData(config: Config, cache: Cache, deviceId: string, payload: Payload): Effect
  {
    if !config.cacheEnabled then
      Effect(cache, [PublishDeviceData(deviceId, payload)])
    else if deviceId !in cache || cache[deviceId].None? then
      Effect(cache, [Error(UnknownDevice(deviceId))])
    else
      match MetricList(config.version, payload)
      case None => Effect(cache, [Error(MetricListMissing(deviceId))])
      case Some(incoming) =>
        var cached := cache[deviceId].value;
        Effect(cache[deviceId := Some(MergeAll(cached, incoming))],
               Warnings(|Names(incoming) - Names(cached)|) + [PublishDeviceData(deviceId, payload)])
  }

  /** A topic without exactly one '/' is reported, and nothing else happens. */
  lemma InvalidTopicRejected(config: Config, cache: Cache, topic: string, payload: Payload)
    requires SlashCount(topic) != 1
    ensures Handle(config, cache, topic, payload) == Effect(cache, [Error(InvalidTopic(topic))])
  {
  }

  /**
   * DBIRTH publishes the payload it was given as the device's BIRTH and, with the
   * cache on, makes the payload's list the device's entry, whether or not
   * the device was already cached.
   */
  lemma BirthCachesList(config: Config, cache: Cache, deviceId: string, payload: Payload)
    requires '/' !in deviceId
    ensures var e := Handle(config, cache, TopicOf(deviceId, "DBIRTH"), payload);
      && e.outputs == [PublishDeviceBirth(deviceId, payload)]
      && (config.cacheEnabled ==> e.cache == cache[deviceId := MetricList(config.version, payload)])
      && (!config.cacheEnabled ==> e.cache == cache)
  {
    ParseTopicOfParts(deviceId, "DBIRTH");
  }

  /** With the cache on, DDATA for a device without a cached list is an error and is not published. */
  lemma DataForUnknownDeviceRejected(config: Config, cache: Cache, deviceId: string, payload: Payload)
    requires '/' !in deviceId && config.cacheEnabled
    requires deviceId !in cache || cache[deviceId] == None
    ensures Handle(config, cache, TopicOf(deviceId, "DDATA"), payload) == Effect(cache, [Error(UnknownDevice(deviceId))])
  {
    ParseTopicOfParts(deviceId, "DDATA");
  }

  /** With the cache off, DDATA is published for every device, known or not, and the cache is left alone. */
  lemma DataPublishedWithoutCache(config: Config, cache: Cache, deviceId: string, payload: Payload)
    requires '/' !in deviceId && !config.cacheEnabled
    ensures Handle(config, cache, TopicOf(deviceId, "DDATA"), payload) == Effect(cache, [PublishDeviceData(deviceId, payload)])
  {
    ParseTopicOfParts(deviceId, "DDATA");
  }

  /**
   * With the cache on, DDATA for a cached device whose payload has no list
   * under the version's key stops at `metrics.forEach`: nothing changes and
   * nothing is published.
   */
  lemma DataWithoutListFails(config: Config, cache: Cache, deviceId: string, payload: Payload)
    requires '/' !in deviceId && config.cacheEnabled
    requires deviceId in cache && cache[deviceId].Some?
    requires MetricList(config.version, payload) == None
    ensures Handle(config, cache, TopicOf(deviceId, "DDATA"), payload) == Effect(cache, [Error(MetricListMissing(deviceId))])
  {
    ParseTopicOfParts(deviceId, "DDATA");
  }

  /**
   * With the cache on, DDATA for a cached device merges its metrics by name
   * into that device's list only, logs one warning per metric it had to
   * append (so the list grows by exactly the number of warnings), then
   * publishes the payload it was given.
   */
  lemma DataMergedIntoCache(config: Config, cache: Cache, deviceId: string, payload: Payload,
                            cached: seq<Metric>, incoming: seq<Metric>)
    requires '/' !in deviceId && config.cacheEnabled
    requires deviceId in cache && cache[deviceId] == Some(cached)
    requires MetricList(config.version, payload) == Some(incoming)
    ensures var e := Handle(config, cache, TopicOf(deviceId, "DDATA"), payload);
      && e.cache == cache[deviceId := Some(MergeAll(cached, incoming))]
      && |e.outputs| >= 1 && e.outputs[|e.outputs| - 1] == PublishDeviceData(deviceId, payload)
      && (forall i :: 0 <= i < |e.outputs| - 1 ==> e.outputs[i] == UnknownMetricWarning)
      && |e.cache[deviceId].value| == |cached| + (|e.outputs| - 1)
  {
    ParseTopicOfParts(deviceId, "DDATA");
    MergeAllLength(cached, incoming);
    var merged := MergeAll(cached, incoming);
    var outputs := Warnings(|Names(incoming) - Names(cached)|) + [PublishDeviceData(deviceId, payload)];
    assert Handle(config, cache, TopicOf(deviceId, "DDATA"), payload) == Effect(cache[deviceId := Some(merged)], outputs);
  }

  /**
   * The same DDATA message handled twice leaves the cache as handling it
   * once, and the second time it raises no unknown-metric warning.
   */
  lemma DataTwiceSameAsOnce(config: Config, cache: Cache, deviceId: string, payload: Payload)
    requires '/' !in deviceId
    ensures var once := Handle(config, cache, TopicOf(deviceId, "DDATA"), payload);
      var twice := Handle(config, once.cache, TopicOf(deviceId, "DDATA"), payload);
      && twice.cache == once.cache
      && UnknownMetricWarning !in twice.outputs
  {
    ParseTopicOfParts(deviceId, "DDATA");
    var once := HandleData(config, cache, deviceId, payload);
    assert Handle(config, cache, TopicOf(deviceId, "DDATA"), payload) == once;
    assert Handle(config, once.cache, TopicOf(deviceId, "DDATA"), payload) == HandleData(config, once.cache, deviceId, payload);
    if config.cacheEnabled && deviceId in cache && cache[deviceId].Some? && MetricList(config.version, payload).Some? {
      var cached, incoming := cache[deviceId].value, MetricList(config.version, payload).value;
      var merged := MergeAll(cached, incoming);
      MergeAllIdempotent(cached, incoming);
      assert once.cache == cache[deviceId := Some(merged)];
      assert Names(incoming) - Names(merged) == {};
      assert once.cache[deviceId] == Some(merged);
      var twice := HandleData(config, once.cache, deviceId, payload);
      assert twice == Effect(once.cache[deviceId := Some(MergeAll(merged, incoming))],
                             Warnings(|Names(incoming) - Names(merged)|) + [PublishDeviceData(deviceId, payload)]);
      MapUpdateSame(once.cache, deviceId);
      assert twice.outputs == Warnings(0) + [PublishDeviceData(deviceId, payload)];
    } else {
      assert once.cache == cache;
    }
  }

  /**
   * DDEATH forgets the device, whether or not it was cached and whatever the
   * cache setting, keeps every other entry, and publishes the payload as the
   * device's DEATH.
   */
  lemma DeathForgetsDevice(config: Config, cache: Cache, deviceId: string, payload: Payload)
    requires '/' !in deviceId
    ensures var e := Handle(config, cache, TopicOf(deviceId, "DDEATH"), payload);
      && deviceId !in e.cache
      && (forall d :: d != deviceId ==> (d in e.cache <==> d in cache))
      && (forall d :: d in e.cache ==> e.cache[d] == cache[d])
      && (deviceId !in cache ==> e.cache == cache)
      && e.outputs == [PublishDeviceDeath(deviceId, payload)]
  {
    ParseTopicOfParts(deviceId, "DDEATH");
  }

  /** A well-formed topic whose message type is not DBIRTH, DDATA or DDEATH is ignored. */
  lemma OtherMessageTypesIgnored(config: Config, cache: Cache, deviceId: string, messageType: string, payload: Payload)
    requires '/' !in deviceId && '/' !in messageType
    requires messageType != "DBIRTH" && messageType != "DDATA" && messageType != "DDEATH"
    ensures Handle(config, cache, TopicOf(deviceId, messageType), payload) == Effect(cache, [])
  {
    ParseTopicOfParts(deviceId, messageType);
  }

  /** An input message changes no cache entry but that of the device its topic names. */
  lemma InputTouchesOnlyItsDevice(config: Config, cache: Cache, topic: string, payload: Payload, d: string)
    requires ParseTopic(topic).None? || ParseTopic(topic).value.deviceId != d
    ensures var e := Handle(config, cache, topic, payload);
      (d in e.cache <==> d in cache) && (d in cache ==> e.cache[d] == cache[d])
  {
  }

  /** The BIRTH publishes of a rebirth with the cache on, one per device of `order`, in that order. */
  function Births(version: string, cache: Cache, order: seq<string>, now: int): seq<Output>
    requires forall i :: 0 <= i < |order| ==> order[i] in cache
  {
    if order == [] then []
    else
      var last := order[|order| - 1];
      Births(version, cache, order[..|order| - 1], now) + [PublishDeviceBirth(last, BirthPayload(version, cache[last], now))]
  }

  /** `order` lists every element of `keys` exactly once, and nothing else. */
  ghost predicate Enumerates(order: seq<string>, keys: set<string>)
  {
    && (forall i, j :: 0 <= i < j < |order| ==> order[i] != order[j])
    && (forall k :: k in keys <==> k in order)
  }

  /** The outputs of the rebirth handler, the cache keys being visited in `order`. */
  function RebirthOutputs(config: Config, cache: Cache, order: seq<string>, now: int): seq<Output>
    requires forall i :: 0 <= i < |order| ==> order[i] in cache
  {
    if config.cacheEnabled then Births(config.version, cache, order, now)
    else [Send("rebirth", EmptyPayload)]
  }

  /**
   * One Sparkplug node.  The cache belongs to this node; `log` records, in
   * order, every publish, downstream send, error, warning and status change.
   */
  class SparkplugNode {
    const config: Config
    var cache: Cache
    var log: seq<Output>

    constructor (config: Config)
      ensures this.config == config && cache == map[] && log == []
    {
      this.config := config;
      cache := map[];
      log := [];
    }

    /** The `input` handler: a message `{topic, payload}` from the flow. */
    method Input(topic: string, payload: Payload)
      modifies this`cache, this`log
      ensures var e := Handle(config, old(cache), topic, payload);
        cache == e.cache && log == old(log) + e.outputs
    {
      ghost var effect := Handle(config, cache, topic, payload);
      var tokens := Split(topic);
      if |tokens| != 2 {
        log := log + [Error(InvalidTopic(topic))];
        return;
      }
      var deviceId, messageType := tokens[0], tokens[1];
      assert effect == HandleMessage(config, cache, deviceId, messageType, payload);
      var cachedMetrics := if deviceId in cache then cache[deviceId] else None;
      if messageType == "DBIRTH" {
        if config.cacheEnabled {
          cache := cache[deviceId := MetricList(config.version, payload)];
        }
        log := log + [PublishDeviceBirth(deviceId, payload)];
      } else if messageType == "DDATA" {
        assert effect == HandleData(config, old(cache), deviceId, payload);
        if config.cacheEnabled {
          if cachedMetrics.None? {
            log := log + [Error(UnknownDevice(deviceId))];
            return;
          }
          var incoming := MetricList(config.version, payload);
          if incoming.None? {
            log := log + [Error(MetricListMissing(deviceId))];
            return;
          }
          var merged, warnings := MergeIncoming(cachedMetrics.value, incoming.value);
          ghost var outputs := Warnings(warnings) + [PublishDeviceData(deviceId, payload)];
          assert effect == Effect(cache[deviceId := Some(merged)], outputs);
          AppendAssoc(log, Warnings(warnings), [PublishDeviceData(deviceId, payload)]);
          cache := cache[deviceId := Some(merged)];
          log := log + Warnings(warnings);
        }
        log := log + [PublishDeviceData(deviceId, payload)];
      } else if messageType == "DDEATH" {
        cache := cache - {deviceId};
        log := log + [PublishDeviceDeath(deviceId, payload)];
      }
    }

    /**
     * The `rebirth` handler.  With the cache on, one device BIRTH per cached
     * device, stamped `now`; `order` is the order in which the keys were
     * visited.  With the cache off, a single `rebirth` message downstream.
     */
    method Rebirth(now: int) returns (ghost order: seq<string>)
      modifies this`log
      ensures cache == old(cache)
      ensures config.cacheEnabled ==> Enumerates(order, cache.Keys)
      ensures forall i :: 0 <= i < |order| ==> order[i] in cache
      ensures log == old(log) + RebirthOutputs(config, cache, order, now)
    {
      order := [];
      if config.cacheEnabled {
        var remaining := cache.Keys;
        while remaining != {}
          invariant remaining <= cache.Keys
          invariant forall i :: 0 <= i < |order| ==> order[i] in cache && order[i] !in remaining
          invariant forall i, j :: 0 <= i < j < |order| ==> order[i] != order[j]
          invariant forall k :: k in cache ==> k in remaining || k in order
          invariant log == old(log) + Births(config.version, cache, order, now)
          decreases remaining
        {
          var key :| key in remaining;
          log := log + [PublishDeviceBirth(key, BirthPayload(config.version, cache[key], now))];
          ghost var visited := order;
          order := order + [key];
          assert order[..|order| - 1] == visited;
          remaining := remaining - {key};
        }
      } else {
        log := log + [Send("rebirth", EmptyPayload)];
      }
    }

    /** The `command` handler: the command goes downstream with the device id as topic. */
    method Command(deviceId: string, payload: Payload)
      modifies this`log
      ensures cache == old(cache)
      ensures log == old(log) + [Send(deviceId, payload)]
    {
      log := log + [Send(deviceId, payload)];
    }

    /** The `error` handler of the client: the status becomes "disconnected". */
    method OnError(error: string)
      modifies this`log
      ensures cache == old(cache)
      ensures log == old(log) + [StatusChange(Disconnected)]
    {
      log := log + [StatusChange(Disconnected)];
    }

    /** The `connect` handler: the status becomes "connected". */
    method OnConnect()
      modifies this`log
      ensures cache == old(cache)
      ensures log == old(log) + [StatusChange(Connected)]
    {
      log := log + [StatusChange(Connected)];
    }

    /** The `reconnect` handler: the status becomes "connecting". */
    method OnReconnect()
      modifies this`log
      ensures cache == old(cache)
      ensures log == old(log) + [StatusChange(Connecting)]
    {
      log := log + [StatusChange(Connecting)];
    }
  }
}

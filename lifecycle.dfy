/**
 * Properties of the node over time: what a rebirth replays, and how cache
 * presence follows the DBIRTH and DDEATH messages of a whole input history.
 */
module Lifecycle {
  import opened Wrappers
  import opened Topic
  import opened Metrics
  import opened Sparkplug

  /** The number of device BIRTH publishes for `deviceId` among `outputs`. */
  function BirthsFor(outputs: seq<Output>, deviceId: string): nat
  {
    if outputs == [] then 0
    else
      var last := outputs[|outputs| - 1];
      BirthsFor(outputs[..|outputs| - 1], deviceId)
        + (if last.PublishDeviceBirth? && last.deviceId == deviceId then 1 else 0)
  }

  lemma BirthsForSnoc(outputs: seq<Output>, o: Output, deviceId: string)
    ensures BirthsFor(outputs + [o], deviceId)
      == BirthsFor(outputs, deviceId) + (if o.PublishDeviceBirth? && o.deviceId == deviceId then 1 else 0)
  {
    assert (outputs + [o])[..|outputs|] == outputs;
  }

  /** Replaying the devices of `order` publishes, at each position, the BIRTH of the device listed there. */
  lemma {:induction false} BirthsAtPositions(version: string, cache: Cache, order: seq<string>, now: int)
    requires forall i :: 0 <= i < |order| ==> order[i] in cache
    ensures var outs := Births(version, cache, order, now);
      && |outs| == |order|
      && (forall i :: 0 <= i < |order| ==>
            outs[i] == PublishDeviceBirth(order[i], BirthPayload(version, cache[order[i]], now)))
  {
    if order != [] {
      var prefix := order[..|order| - 1];
      BirthsAtPositions(version, cache, prefix, now);
      var prev := Births(version, cache, prefix, now);
      var outs := Births(version, cache, order, now);
      forall i | 0 <= i < |order|
        ensures outs[i] == PublishDeviceBirth(order[i], BirthPayload(version, cache[order[i]], now))
      {
        if i < |prefix| {
          assert outs[i] == prev[i] && order[i] == prefix[i];
        }
      }
    }
  }

  /** Replaying the devices of `order` (each at most once) publishes one BIRTH per listed device and none for any other. */
  lemma {:induction false} BirthsCountOnce(version: string, cache: Cache, order: seq<string>, now: int, d: string)
    requires forall i :: 0 <= i < |order| ==> order[i] in cache
    requires forall i, j :: 0 <= i < j < |order| ==> order[i] != order[j]
    ensures BirthsFor(Births(version, cache, order, now), d) == if d in order then 1 else 0
  {
    if order != [] {
      var prefix := order[..|order| - 1];
      var last := order[|order| - 1];
      assert order == prefix + [last];
      BirthsCountOnce(version, cache, prefix, now, d);
      BirthsForSnoc(Births(version, cache, prefix, now), PublishDeviceBirth(last, BirthPayload(version, cache[last], now)), d);
      if d == last {
        assert d !in prefix by {
          forall i | 0 <= i < |prefix| ensures prefix[i] != last {
            assert prefix[i] == order[i];
          }
        }
      }
    }
  }

  /** Every output of a replay is a device BIRTH carrying that device's cached list and `now`. */
  lemma BirthsCarryCache(version: string, cache: Cache, order: seq<string>, now: int)
    requires forall i :: 0 <= i < |order| ==> order[i] in cache
    ensures forall o :: o in Births(version, cache, order, now) ==>
      && o.PublishDeviceBirth? && o.deviceId in cache
      && MetricList(version, o.payload) == cache[o.deviceId]
      && o.payload.timestamp == Some(now)
  {
    var outs := Births(version, cache, order, now);
    BirthsAtPositions(version, cache, order, now);
    forall o | o in outs
      ensures o.PublishDeviceBirth? && o.deviceId in cache
      ensures MetricList(version, o.payload) == cache[o.deviceId]
      ensures o.payload.timestamp == Some(now)
    {
      var i :| 0 <= i < |outs| && outs[i] == o;
      assert o == PublishDeviceBirth(order[i], BirthPayload(version, cache[order[i]], now));
    }
  }

  /**
   * Replaying the devices of `order` (each at most once) publishes one BIRTH
   * per listed device, carrying that device's cached list and `now`, and no
   * BIRTH for any other device.
   */
  lemma BirthsReplayOrder(version: string, cache: Cache, order: seq<string>, now: int)
    requires forall i :: 0 <= i < |order| ==> order[i] in cache
    requires forall i, j :: 0 <= i < j < |order| ==> order[i] != order[j]
    ensures var outs := Births(version, cache, order, now);
      && |outs| == |order|
      && (forall i :: 0 <= i < |order| ==>
            outs[i] == PublishDeviceBirth(order[i], BirthPayload(version, cache[order[i]], now)))
      && (forall d :: BirthsFor(outs, d) == if d in order then 1 else 0)
  {
    BirthsAtPositions(version, cache, order, now);
    forall d ensures BirthsFor(Births(version, cache, order, now), d) == if d in order then 1 else 0 {
      BirthsCountOnce(version, cache, order, now, d);
    }
  }

  /** A list that enumerates a set is as long as the set is large. */
  lemma {:induction false} EnumerationLength(order: seq<string>, keys: set<string>)
    requires Enumerates(order, keys)
    ensures |order| == |keys|
  {
    if order != [] {
      var last := order[|order| - 1];
      var prefix := order[..|order| - 1];
      assert last in keys;
      assert forall k :: k in prefix ==> k in order;
      assert forall k :: k in order && k != last ==> k in prefix;
      assert Enumerates(prefix, keys - {last});
      EnumerationLength(prefix, keys - {last});
    } else {
      assert forall k :: k !in keys;
      assert keys == {};
    }
  }

  /**
   * Rebirth with the cache on publishes exactly one device BIRTH per cached
   * device and none for any other id (as many publishes as cached devices),
   * each carrying the device's cached list under the version's key and the
   * timestamp `now`.
   */
  lemma RebirthReplaysCache(config: Config, cache: Cache, order: seq<string>, now: int)
    requires config.cacheEnabled && Enumerates(order, cache.Keys)
    ensures forall i :: 0 <= i < |order| ==> order[i] in cache
    ensures var outs := RebirthOutputs(config, cache, order, now);
      && |outs| == |cache|
      && (forall d :: BirthsFor(outs, d) == if d in cache then 1 else 0)
      && (forall o :: o in outs ==>
            && o.PublishDeviceBirth? && o.deviceId in cache
            && MetricList(config.version, o.payload) == cache[o.deviceId]
            && o.payload.timestamp == Some(now))
  {
    forall i | 0 <= i < |order| ensures order[i] in cache {
      assert order[i] in order;
    }
    BirthsReplayOrder(config.version, cache, order, now);
    EnumerationLength(order, cache.Keys);
    var outs := Births(config.version, cache, order, now);
    forall d ensures BirthsFor(outs, d) == if d in cache then 1 else 0 {
      assert d in cache.Keys <==> d in order;
    }
    BirthsCarryCache(config.version, cache, order, now);
  }

  /** Rebirth with the cache off sends one `rebirth` message downstream and publishes nothing. */
  lemma RebirthWithoutCache(config: Config, cache: Cache, order: seq<string>, now: int)
    requires !config.cacheEnabled && forall i :: 0 <= i < |order| ==> order[i] in cache
    ensures var outs := RebirthOutputs(config, cache, order, now);
      |outs| == 1 && outs[0].Send? && outs[0].topic == "rebirth" && outs[0].payload == EmptyPayload
      && forall d :: BirthsFor(outs, d) == 0
  {
    var outs := RebirthOutputs(config, cache, order, now);
    assert outs[..0] == [];
  }

  /** An input message of the flow. */
  datatype Message = Message(topic: string, payload: Payload)

  /** The cache after the node has handled `msgs`, in order, starting from `cache`. */
  function Replay(config: Config, cache: Cache, msgs: seq<Message>): Cache
  {
    if msgs == [] then cache
    else
      var last := msgs[|msgs| - 1];
      Handle(config, Replay(config, cache, msgs[..|msgs| - 1]), last.topic, last.payload).cache
  }

  /** The message type of the last well-formed DBIRTH or DDEATH message for `deviceId` in `msgs`. */
  function LastLifecycleEvent(msgs: seq<Message>, deviceId: string): Option<string>
  {
    if msgs == [] then None
    else
      var parsed := ParseTopic(msgs[|msgs| - 1].topic);
      if parsed.Some? && parsed.value.deviceId == deviceId
         && (parsed.value.messageType == "DBIRTH" || parsed.value.messageType == "DDEATH")
      then Some(parsed.value.messageType)
      else LastLifecycleEvent(msgs[..|msgs| - 1], deviceId)
  }

  /** Only a DBIRTH (with the cache on) adds a device to the cache, and only a DDEATH removes one. */
  lemma HandlePresence(config: Config, cache: Cache, topic: string, payload: Payload, d: string)
    ensures var parsed := ParseTopic(topic);
      d in Handle(config, cache, topic, payload).cache <==>
        if parsed.Some? && parsed.value.deviceId == d && parsed.value.messageType == "DBIRTH" then
          config.cacheEnabled || d in cache
        else if parsed.Some? && parsed.value.deviceId == d && parsed.value.messageType == "DDEATH" then
          false
        else
          d in cache
  {
  }

  /**
   * With the cache on, starting from an empty cache, a device is cached
   * exactly when the last DBIRTH/DDEATH message for it was a DBIRTH.
   */
  lemma {:induction false} PresenceFollowsLifecycle(config: Config, msgs: seq<Message>, d: string)
    requires config.cacheEnabled
    ensures d in Replay(config, map[], msgs) <==> LastLifecycleEvent(msgs, d) == Some("DBIRTH")
  {
    if msgs != [] {
      var last := msgs[|msgs| - 1];
      PresenceFollowsLifecycle(config, msgs[..|msgs| - 1], d);
      HandlePresence(config, Replay(config, map[], msgs[..|msgs| - 1]), last.topic, last.payload, d);
    }
  }

  /** With the cache off, the cache of a node that starts empty stays empty whatever it is sent. */
  lemma {:induction false} CacheStaysEmptyWithoutCache(config: Config, msgs: seq<Message>)
    requires !config.cacheEnabled
    ensures Replay(config, map[], msgs) == map[]
  {
    if msgs != [] {
      var last := msgs[|msgs| - 1];
      CacheStaysEmptyWithoutCache(config, msgs[..|msgs| - 1]);
      var e := Handle(config, map[], last.topic, last.payload);
      forall d ensures d !in e.cache {
        HandlePresence(config, map[], last.topic, last.payload, d);
      }
    }
  }
}

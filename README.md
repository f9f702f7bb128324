# Sparkplug edge node for Node-RED: device cache and lifecycle handlers

This project models the Node-RED `sparkplug` node, which bridges a Node-RED
flow to a Sparkplug (MQTT) edge-node client. The model covers the node's
device metric cache and the event handlers that read and update it:

- the `input` handler. It splits the topic `<deviceId>/<messageType>` and
  rejects any other shape. On DBIRTH it stores the payload's metric list. On
  DDATA it merges metrics into the cached list by name and rejects unknown
  devices when the cache is on. On DDEATH it forgets the device. It publishes
  the matching device BIRTH, DATA or DEATH;
- the `rebirth` handler. With the cache on it replays one device BIRTH per
  cached device. With the cache off it sends a single `rebirth` message
  downstream;
- the `command` relay, and the `error`, `connect` and `reconnect` status relays.

Layout:

- `wrappers.dfy` (`Wrappers`): `Option`. A JavaScript property that is
  absent (`undefined`) is `None`.
- `topic.dfy` (`Topic`): `String.prototype.split("/")` as `Split`, with its
  inverse `Join`. `ParseTopic` is the topic check of the input handler.
- `metrics.dfy` (`Metrics`): metrics and the DDATA merge. The pure
  `MergeAll` is the specification. `MergeIncoming` (the `forEach` loop) is
  proved equal to `MergeAll`, and `UpdateFirstByName` (the `some` scan inside
  it) is proved equal to the one-metric update `SetFirst`.
- `sparkplug.dfy` (`Sparkplug`): configuration, payloads and the observable
  outputs. It holds `Handle`, the effect of one input message, and the class
  `SparkplugNode`. The class owns the cache (`cache`) and an output log
  (`log`), and has one method per handler.
- `lifecycle.dfy` (`Lifecycle`): rebirth replay completeness, and how cache
  presence follows the DBIRTH/DDEATH history of a sequence of input messages.

Modelling choices:

- A cache entry is `Option<seq<Metric>>`. A DBIRTH whose payload lacks the
  version's list key stores `undefined`, as in the source. The device is then
  a key of the cache (rebirth replays it with no list), but a DDATA still
  reports it as an unknown device, because the source tests
  `cachedMetrics === undefined`.
- With the cache on, a DDATA for a cached device whose payload lacks the list
  key throws at `metrics.forEach` before anything changes. It is modelled as
  the error `MetricListMissing`, with no publish and the cache unchanged.
- The version selects the list key: `metrics` when it equals `"spBv1.0"`, and
  `metric` for any other version string.
- Publishes, downstream sends, errors, warnings and status texts are entries
  appended to `log`, in the order the source issues them. Each handler's frame
  (`modifies this`log` or `this`cache, this`log`) shows which of the two it may
  change.

The comment at `sparkplug.js:123-125` names DBIRTH, DDATA and DDEATH as the
message types. A message of any other type is ignored silently, because the
chain of tests at `sparkplug.js:147-193` has no final `else`: see
`Sparkplug.OtherMessageTypesIgnored`.

## Model

| member | source | states |
|---|---|---|
| `Topic.JoinSplit` | client_libraries/javascript/node-red-contrib-sparkplug/sparkplug/sparkplug.js:128 | joining the topic's tokens with '/' gives back the topic, so the split loses nothing |
| `Topic.SplitLength` | client_libraries/javascript/node-red-contrib-sparkplug/sparkplug/sparkplug.js:128 | a topic splits into one token more than it has '/' characters |
| `Topic.SplitTokensHaveNoSlash` | client_libraries/javascript/node-red-contrib-sparkplug/sparkplug/sparkplug.js:128 | no token contains '/' |
| `Topic.ParseTopic` | client_libraries/javascript/node-red-contrib-sparkplug/sparkplug/sparkplug.js:135-142 | a topic is accepted iff it contains exactly one '/'; the device id is the text before it and the message type the text after it |
| `Topic.ParseTopicOfParts` | client_libraries/javascript/node-red-contrib-sparkplug/sparkplug/sparkplug.js:135-142 | every '/'-free device id and message type, joined with '/', parse back to themselves |
| `Metrics.SetFirst` | client_libraries/javascript/node-red-contrib-sparkplug/sparkplug/sparkplug.js:172-179 | only the first cached metric with the incoming name takes the new value; nothing else changes, and nothing at all when no name matches |
| `Metrics.UpdateFirstByName` | client_libraries/javascript/node-red-contrib-sparkplug/sparkplug/sparkplug.js:172-179 | the `some` scan reports a match iff some cached metric has the incoming name, and its result is `SetFirst` |
| `Metrics.MergeAll` | client_libraries/javascript/node-red-contrib-sparkplug/sparkplug/sparkplug.js:169-184 | cached metrics keep their positions, names and other fields; anything added goes at the end and has a name new to the cache; the merged names are the cached names plus the incoming ones |
| `Metrics.MergeIncoming` | client_libraries/javascript/node-red-contrib-sparkplug/sparkplug/sparkplug.js:169-184 | the `forEach` loop yields `MergeAll` of the cached and incoming lists, and as many warnings as there are distinct incoming names that were not cached |
| `Metrics.MergeAllUntouched` | client_libraries/javascript/node-red-contrib-sparkplug/sparkplug/sparkplug.js:169-184 | a cached metric changes only if it is the first one carrying the name of some incoming metric |
| `Metrics.MergeAllLatest` | client_libraries/javascript/node-red-contrib-sparkplug/sparkplug/sparkplug.js:169-184 | after the merge, the first metric with any incoming name holds the value of the last incoming metric of that name |
| `Metrics.MergeAllLength` | client_libraries/javascript/node-red-contrib-sparkplug/sparkplug/sparkplug.js:169-184 | the cached list grows by exactly the number of distinct incoming names not cached before |
| `Metrics.MergeAllIdempotent` | client_libraries/javascript/node-red-contrib-sparkplug/sparkplug/sparkplug.js:169-184 | merging the same incoming list twice gives the same list as merging it once |
| `Metrics.FirstNew` | client_libraries/javascript/node-red-contrib-sparkplug/sparkplug/sparkplug.js:169-184 | the metrics a merge appends carry distinct names, each an incoming name that was not cached |
| `Metrics.MergeAllAppendsShape` | client_libraries/javascript/node-red-contrib-sparkplug/sparkplug/sparkplug.js:180-183 | the merge appends exactly the first incoming metric of each new name, in first-occurrence order, keeping its name and other fields |
| `Metrics.MergeAllAppends` | client_libraries/javascript/node-red-contrib-sparkplug/sparkplug/sparkplug.js:169-184 | each appended metric is the first incoming metric of its name and holds the value of the last incoming metric of that name |
| `Sparkplug.BirthPayload` | client_libraries/javascript/node-red-contrib-sparkplug/sparkplug/sparkplug.js:52-61 | a rebirth payload carries the cached list under the version's key (and nothing under the other key) and the timestamp `now`, and no other property |
| `Sparkplug.SparkplugNode.constructor` | client_libraries/javascript/node-red-contrib-sparkplug/sparkplug/sparkplug.js:15-23 | a node starts with its configuration, an empty device cache and no outputs |
| `Sparkplug.SparkplugNode.Input` | client_libraries/javascript/node-red-contrib-sparkplug/sparkplug/sparkplug.js:127-194 | the handler's new cache and the outputs it appends are exactly those of `Handle` for the old cache, topic and payload |
| `Sparkplug.InvalidTopicRejected` | client_libraries/javascript/node-red-contrib-sparkplug/sparkplug/sparkplug.js:135-138 | a topic without exactly one '/' gives one error, no publish and an unchanged cache |
| `Sparkplug.BirthCachesList` | client_libraries/javascript/node-red-contrib-sparkplug/sparkplug/sparkplug.js:147-155 | DBIRTH publishes one device BIRTH with the unchanged payload; with the cache on it replaces or creates the device's entry with the payload's list, and with the cache off it leaves the cache alone |
| `Sparkplug.DataForUnknownDeviceRejected` | client_libraries/javascript/node-red-contrib-sparkplug/sparkplug/sparkplug.js:156-161 | with the cache on, DDATA for a device with no cached list gives one error, no publish and an unchanged cache |
| `Sparkplug.DataPublishedWithoutCache` | client_libraries/javascript/node-red-contrib-sparkplug/sparkplug/sparkplug.js:156-187 | with the cache off, DDATA is published for every device, known or not, and the cache is unchanged |
| `Sparkplug.DataWithoutListFails` | client_libraries/javascript/node-red-contrib-sparkplug/sparkplug/sparkplug.js:163-169 | with the cache on, a DDATA for a cached device without the version's list key fails before any change or publish |
| `Sparkplug.DataMergedIntoCache` | client_libraries/javascript/node-red-contrib-sparkplug/sparkplug/sparkplug.js:156-187 | with the cache on, DDATA for a cached device merges into that device's entry only, logs one warning per appended metric (the list grows by exactly that many), then publishes the payload |
| `Sparkplug.DataTwiceSameAsOnce` | client_libraries/javascript/node-red-contrib-sparkplug/sparkplug/sparkplug.js:156-187 | the same DDATA handled twice leaves the cache as handling it once, and the second time logs no unknown-metric warning |
| `Sparkplug.DeathForgetsDevice` | client_libraries/javascript/node-red-contrib-sparkplug/sparkplug/sparkplug.js:188-192 | DDEATH removes the device's entry whatever the cache setting, does nothing to an absent device, keeps every other entry and publishes one device DEATH with the payload |
| `Sparkplug.OtherMessageTypesIgnored` | client_libraries/javascript/node-red-contrib-sparkplug/sparkplug/sparkplug.js:147-193 | a well-formed topic with another message type changes nothing and outputs nothing |
| `Sparkplug.InputTouchesOnlyItsDevice` | client_libraries/javascript/node-red-contrib-sparkplug/sparkplug/sparkplug.js:145-192 | an input message leaves every cache entry of the devices its topic does not name as it was |
| `Sparkplug.SparkplugNode.Rebirth` | client_libraries/javascript/node-red-contrib-sparkplug/sparkplug/sparkplug.js:46-72 | the cache is unchanged; with the cache on the keys are visited once each, in some order, appending one BIRTH each; with the cache off the handler appends the single downstream `rebirth` message |
| `Lifecycle.BirthsReplayOrder` | client_libraries/javascript/node-red-contrib-sparkplug/sparkplug/sparkplug.js:51-64 | visiting the devices in order publishes, at position i, the BIRTH of the i-th device with its cached list, and one BIRTH per visited device only |
| `Lifecycle.BirthsAtPositions` | client_libraries/javascript/node-red-contrib-sparkplug/sparkplug/sparkplug.js:51-64 | the replay publishes as many BIRTHs as devices visited, the i-th being the BIRTH of the i-th visited device with its cached list and the rebirth timestamp |
| `Lifecycle.BirthsCountOnce` | client_libraries/javascript/node-red-contrib-sparkplug/sparkplug/sparkplug.js:51-64 | when no device is visited twice, each visited device gets exactly one BIRTH and any other id none |
| `Lifecycle.BirthsCarryCache` | client_libraries/javascript/node-red-contrib-sparkplug/sparkplug/sparkplug.js:51-64 | every replayed output is a device BIRTH for a cached device, whose payload holds that device's cached list under the version's key and the rebirth timestamp |
| `Lifecycle.RebirthReplaysCache` | client_libraries/javascript/node-red-contrib-sparkplug/sparkplug/sparkplug.js:49-64 | with the cache on, a rebirth publishes exactly one device BIRTH per cached device and none for other ids, as many as there are cached devices, each with that device's cached list and the timestamp |
| `Lifecycle.RebirthWithoutCache` | client_libraries/javascript/node-red-contrib-sparkplug/sparkplug/sparkplug.js:65-71 | with the cache off, a rebirth outputs exactly one downstream message, topic `rebirth` and payload `{}`, and no BIRTH |
| `Lifecycle.HandlePresence` | client_libraries/javascript/node-red-contrib-sparkplug/sparkplug/sparkplug.js:147-192 | only a DBIRTH (cache on) adds a device to the cache, and only a DDEATH removes one |
| `Lifecycle.PresenceFollowsLifecycle` | client_libraries/javascript/node-red-contrib-sparkplug/sparkplug/sparkplug.js:147-192 | with the cache on, a device is cached after a message history iff the last DBIRTH/DDEATH for it was a DBIRTH |
| `Lifecycle.CacheStaysEmptyWithoutCache` | client_libraries/javascript/node-red-contrib-sparkplug/sparkplug/sparkplug.js:148-153 | with the cache off, a node that starts with an empty cache keeps it empty whatever it is sent |
| `Sparkplug.SparkplugNode.Command` | client_libraries/javascript/node-red-contrib-sparkplug/sparkplug/sparkplug.js:77-84 | a command goes downstream unchanged as `{topic: deviceId, payload}`, and the cache is untouched |
| `Sparkplug.SparkplugNode.OnError` | client_libraries/javascript/node-red-contrib-sparkplug/sparkplug/sparkplug.js:89-96 | a client error sets the status `disconnected` and touches nothing else |
| `Sparkplug.SparkplugNode.OnConnect` | client_libraries/javascript/node-red-contrib-sparkplug/sparkplug/sparkplug.js:101-108 | a connect sets the status `connected` and touches nothing else |
| `Sparkplug.SparkplugNode.OnReconnect` | client_libraries/javascript/node-red-contrib-sparkplug/sparkplug/sparkplug.js:113-120 | a reconnect sets the status `connecting` and touches nothing else |

## Left out

- The Sparkplug client library and the MQTT transport (`SparkplugClient.newClient`, its failure, `publishDevice*`, `stop` in the `close` handler). They are external. A publish is an entry in `log`, and publish failures are not modelled.
- Node-RED plumbing: node creation and registration, credentials, and the assembly of the client configuration. The string test `config.enablecache == "true"` is taken as already done: `Config.cacheEnabled` is a boolean.
- Log and console text, and the fill and shape of the status indicator. Only the status text is kept, as `Status`.
- `Sparkplug.SparkplugNode.Rebirth`: the source reads the clock once per device. The model stamps every BIRTH of one rebirth with one `now` parameter.
- `Sparkplug.SparkplugNode.Rebirth`: the source visits keys in `Object.keys` order. The model visits them in an unspecified order and returns it as the ghost `order`.
- Aliasing. The model uses values, so it does not capture that the source shares objects between the cache and the payloads:
  - the cached array is the same object as the DBIRTH payload's array, so a later DDATA merge also changes that earlier payload;
  - a metric a DDATA appends to the cache is the incoming metric object itself, so a later metric of the same name in the same DDATA (or in a later one) overwrites that object's value. One DDATA can therefore change its own payload before it is published: for an empty cached list and incoming metrics `h=1, h=2`, the source publishes `h=2, h=2`, and the model publishes the payload as received (`h=1, h=2`). The cache agrees in both (`Metrics.MergeAllAppends`).
- Device ids that name properties of a plain JavaScript object. The source's cache is an object literal, so `deviceCache[deviceId]` finds inherited members for ids such as `toString`, `constructor`, `hasOwnProperty` or `__proto__`. A DDATA for such an id with the cache on passes the `undefined` test and is published with an empty incoming list, and throws at `cachedMetrics.some` with a non-empty one. A DBIRTH for `__proto__` sets the object's prototype instead of adding a key, so rebirth never replays it and DDEATH does not remove it. The model treats every id as an ordinary map key: `Sparkplug.DataForUnknownDeviceRejected`, `Sparkplug.DeathForgetsDevice` and `Lifecycle.PresenceFollowsLifecycle` do not describe the source for these ids.
- Cache scope. The source's cache is module-level and shared by every `sparkplug` node in the runtime. The model gives each `SparkplugNode` its own cache.
- Shapes the payloads could have but that are not modelled: a topic that is not a string, a payload or metric that is not an object, and metric values other than null, booleans, integers and strings (floating point in particular). The only malformed shape modelled is a missing list key.

# Motion-sensor bridge platform, modelled in Dafny

This project models the deterministic core of a Homebridge dynamic-platform
plugin. The plugin discovers motion sensors from an HTTP endpoint, reconciles
them against the accessories Homebridge restored from its cache, and builds
one handler per sensor. Each handler listens on the MQTT topic
`home/<raum>/<person>` and sets the MotionDetected characteristic.

- `discovery.dfy`, module `Discovery`: the `getdevices` callback. The parsed
  body is a JSON array of objects, and every key/value entry of every object
  becomes one device descriptor. This is `Flatten` (the
  reference function) and `CollectDevices` (the nested loops, proved equal to it).
- `platform_accessory.dfy`, module `PlatformAccessory`: the accessory value
  and the class `ExamplePlatformAccessory`. The handler has a subscription
  topic and a Name characteristic. `OnMessage` is its `message` callback.
  It also has its two GET handlers. `MotionUpdate` and `Replay` are the pure
  decision and its fold over a message stream.
- `platform.dfy`, module `Platform`: the class `ExampleHomebridgePlatform`.
  It holds the `accessories` cache and a log of the registry calls it makes.
  `ConfigureAccessory` appends to the cache. `DiscoverDevices` is the `for`
  loop of `discoverDevices`, proved against the reference function `Plan`.
- `wrappers.dfy`: `Option`.

The host's `uuid.generate` is a function parameter (`generate`), about which
nothing is assumed. The calls `updatePlatformAccessories`,
`registerPlatformAccessories` and `unregisterPlatformAccessories` are
entries `Update`, `Register` and `Unregister` of the `actions` log.

## Behaviour the proofs make explicit

- The removal branch is dead: `discoverDevices` never emits `Unregister`
  (`PlanCounts`, `ReconcileDecision`). Every entry of the device list is an
  object literal built at src/platform.ts:63-64, so `device` is always
  truthy and the `else if (!device)` test never succeeds.
- `discoverDevices` reads the cache but never adds to it. So two devices
  in one payload whose ids map to the same UUID both get a `Register` call
  for that UUID (`RepeatedUuidRegisteredTwice`). For the same reason a second
  discovery pass would issue `Register` calls for the same new accessories
  again.
- Neither `key + value` nor the topic `'home/' + raum + '/' + person` is
  injective. See `UniqueIdCollision` and `TopicCollision`. The lemmas
  `UniqueIdDeterminesEntryForEqualLengthRooms` and
  `TopicInjectiveForSlashFreeRooms` give the conditions under which they are.
- For a cached accessory, the service Name comes from the cached
  `context.device`, not from the newly discovered device. The handler's
  topic comes from the new device (`ExamplePlatformAccessory.constructor`;
  `Serves` in the contracts of `ReconcileDevice` and `DiscoverDevices`).
- Each discovered device gets its own handler: the handlers
  `DiscoverDevices` creates are pairwise distinct objects.
- The MotionDetected GET handler always answers 1, whatever messages have
  arrived. `getOn` always answers 0.

The program's own comments promise more than its code does; the model
follows the code:
- The comment at src/platform.ts:49-50 says previously created accessories
  must not be registered again. The loop never adds what it registers to
  `accessories`, so a repeated UUID within one pass, or a second
  `discoverDevices` pass, issues a second `Register` call for the same UUID
  (`RepeatedUuidRegisteredTwice`, `PlanAt`).
- The comment at src/platform.ts:100 speaks of removing accessories that are
  no longer present. The only removal call sits behind `!device` for a
  device that is never absent, so nothing is ever removed (`PlanCounts`).

## Model

| member | source | states |
|---|---|---|
| `Discovery.Flatten` | src/platform.ts:60-66 | one descriptor per key/value entry: the result length is the total number of entries over all array elements |
| `Discovery.CollectDevices` | src/platform.ts:53-67 | the nested `forEach` loops that push into `to_return` produce exactly `Flatten(body)` |
| `Discovery.Describe` | src/platform.ts:63 | the descriptor built from one entry; its properties (id and name both `key + value`, room `key`, person `value`) are stated by `FlattenAt` and `FlattenMember` |
| `Discovery.ElementDevices` | src/platform.ts:62-65 | the descriptors of one element's entries in entry order; their positions and fields are stated by `FlattenAt` |
| `Discovery.FlattenAppend` | src/platform.ts:60-65 | pushing element by element: flattening a concatenated array is the concatenation of the flattenings |
| `Discovery.FlattenAt` | src/platform.ts:60-65 | entry `j` of element `i` lands at position `Offset(i) + j`, offsets grow by the element's entry count (array order, then entry order), and the descriptor there has `raum == key`, `person == value`, `exampleUniqueId == exampleDisplayName == key + value` |
| `Discovery.FlattenMember` | src/platform.ts:62-64 | every descriptor comes from some entry of some element, and has `exampleUniqueId == exampleDisplayName == raum + person` |
| `Discovery.UniqueIdCollision` | src/platform.ts:63 | `"ab"+"c"` and `"a"+"bc"` give two descriptors with the same unique id but different rooms |
| `Discovery.UniqueIdDeterminesEntryForEqualLengthRooms` | src/platform.ts:63 | if two rooms have equal length, equal unique ids imply equal rooms and persons |
| `PlatformAccessory.Topic` | src/platformAccessory.ts:42-51 | the topic tested in the `message` callback and subscribed to; its shape is stated by `TopicParts`, its (non-)injectivity by `TopicCollision` and `TopicInjectiveForSlashFreeRooms` |
| `PlatformAccessory.TopicParts` | src/platformAccessory.ts:51 | the subscribed topic is `"home/"`, then the room, then `'/'`, then the person, with length `|raum| + |person| + 6` |
| `PlatformAccessory.TopicCollision` | src/platformAccessory.ts:42-51 | room `"a/b"` with person `"c"` and room `"a"` with person `"b/c"` share a topic |
| `PlatformAccessory.TopicInjectiveForSlashFreeRooms` | src/platformAccessory.ts:51 | when neither room contains `'/'`, equal topics imply equal rooms and persons |
| `PlatformAccessory.MotionUpdate` | src/platformAccessory.ts:42-47 | a message causes no update iff its topic differs from the bound topic; it sets `false` iff it is on the bound topic with payload exactly `"false"`, and `true` iff it is on the bound topic with any other payload |
| `PlatformAccessory.ReplayFollowsBoundPayloads` | src/platformAccessory.ts:40-49 | over a message stream, the updates are exactly one per bound-topic message, in order, and the update is `false` exactly when that message's payload is `"false"` |
| `PlatformAccessory.LastBoundMessageWins` | src/platformAccessory.ts:40-49 | the last bound-topic message decides the final state, whatever arrives later on other topics |
| `PlatformAccessory.ExamplePlatformAccessory.constructor` | src/platformAccessory.ts:23-63 | the handler subscribes to exactly `'home/' + raum + '/' + person` and sets the service Name to `accessory.context.device.exampleDisplayName`. It starts with no message seen, no update made and `exampleStates.On` false |
| `PlatformAccessory.ExamplePlatformAccessory.OnMessage` | src/platformAccessory.ts:40-49 | keeps the handler invariant (the updates are the replay of the received messages, MotionDetected is the last update, `On` stays false). Off-topic: nothing changes. On-topic: exactly one update, `payload != "false"`, which becomes MotionDetected |
| `PlatformAccessory.ExamplePlatformAccessory.HandleMotionDetectedGet` | src/platformAccessory.ts:114-121 | always answers `(null, 1)`, independent of the handler's state |
| `PlatformAccessory.ExamplePlatformAccessory.GetOn` | src/platformAccessory.ts:136-148 | always answers `(null, 0)` |
| `Platform.FirstWithUuid` | src/platform.ts:81 | `accessories.find`: the index of the first cached accessory with the UUID, or none exactly when no cached accessory has it |
| `Platform.Reconcile` | src/platform.ts:77-121 | the registry call made for one device; what it is (Update of the first cached match, else Register of a new accessory, never Unregister) is stated by `ReconcileDecision` |
| `Platform.ReconcileDecision` | src/platform.ts:77-121 | a device gets an Update iff some cached accessory has its UUID, and the Update is for the first such accessory. Otherwise it gets a Register of a new accessory with displayName `exampleDisplayName`, UUID `generate(exampleUniqueId)` and context device `device`. Never an Unregister |
| `Platform.Plan` | src/platform.ts:72-122 | one registry call per discovered device |
| `Platform.PlanAt` | src/platform.ts:72-122 | the call at position `i` is the decision for device `i`, taken against the unchanged cache |
| `Platform.PlanCounts` | src/platform.ts:83-121 | Register count plus Update count equals the number of devices, and no call is an Unregister |
| `Platform.RepeatedUuidRegisteredTwice` | src/platform.ts:77-120 | two uncached devices whose ids map to the same UUID both get a `Register` call for that UUID |
| `Platform.KitchenAliceScenario` | src/platform.ts:59-120 | payload `[{"kitchen": "alice"}]` gives one device `kitchenalice` on topic `home/kitchen/alice`, registered when the cache is empty |
| `Platform.ExampleHomebridgePlatform.constructor` | src/platform.ts:17-35 | the cache and the registry-call log start empty |
| `Platform.ExampleHomebridgePlatform.ConfigureAccessory` | src/platform.ts:41-45 | appends the accessory to the end of `accessories` and changes nothing else |
| `Platform.ExampleHomebridgePlatform.ReconcileDevice` | src/platform.ts:77-121 | for one device: exactly one registry call, the one `Reconcile` decides. One new handler on the device's room and person, bound to that call's accessory, whose service Name is the display name in that accessory's context |
| `Platform.ExampleHomebridgePlatform.DiscoverDevices` | src/platform.ts:70-128 | the log grows by exactly `Plan(accessories, devices)` and the cache is left unchanged. Device `k` gets one new, unused handler, on topic `Topic(raum, person)` of device `k`, for the accessory of registry call `k`, named from that accessory's context; the handlers are pairwise distinct, so there are exactly as many handlers as devices |

## Left out

- HTTP transport: the POST request, its form body and credentials (including the misspelled `config.passowrd`), and the promise wrapper with its `catch` logging. `DiscoverDevices` takes the resolved device list.
- `JSON.parse` and its failure. The parsed body arrives as a sequence of elements, each the sequence of its `Object.entries` in the order JavaScript gives them.
- Bodies of another shape. A parsed body that is not an array (a bare object such as `{"kitchen": "alice"}`, say) makes `body.forEach` throw (src/platform.ts:60), and a `null` element makes `Object.entries` throw (src/platform.ts:62). Both throws happen inside the response callback, so `resolve` (src/platform.ts:67) is never reached and no device is discovered. The model's input is always an array of entry lists.
- Non-string JSON values. `key + value` converts them to a string while `person` keeps the raw value. The model takes every value to be a string.
- The `getdevices` promise runs once, when the platform is constructed, and `discoverDevices` is started by the host's `didFinishLaunching` event. That event wiring is not modelled.
- The MQTT client: the broker URL, username and password, `connect()`, and UTF-8 decoding of payloads. A delivered message is a call of `OnMessage` with an already-decoded payload. So the handler's `ip`, `password` and `username` parameters are not modelled.
- Interleaving of messages across handlers. Each handler is modelled as its own object, with its own record of writes.
- ExamplePlatformAccessory: two handlers built for the same cached accessory (two devices in one payload whose ids map to one cached UUID, such as `"ab"+"c"` and `"a"+"bc"`, or a repeated entry) share that accessory's MotionSensor service in the source, so both write one MotionDetected characteristic, which holds the last write from either topic. The model's `motionDetected` and `updates` are this handler's own writes, not the value of the shared characteristic.
- Host registry calls (`registerPlatformAccessories`, `updatePlatformAccessories`) are taken to return normally. An error the host might raise for a duplicate UUID registration, which would end the `for` loop and leave the later devices without a call, is not modelled; `PlanCounts`' one call per device holds under that assumption.
- Homebridge and HAP internals: `uuid.generate` (a parameter), building `PlatformAccessory` objects (modelled as values), `getService`/`addService`, registering the GET callback, and the Manufacturer, Model and SerialNumber strings.
- The value MotionDetected holds before a handler first writes it belongs to the host library. The model records it as `None` ("not written by this handler").
- `PLUGIN_NAME` and `PLATFORM_NAME`, passed to the register and unregister calls. src/settings.ts is not part of this model.
- Handler objects are not stored by the source; they stay alive through their bus clients. `DiscoverDevices` returns them instead.
- Logging and `console.log`.
- Commented-out code and the unused `motionDetected` constant (src/platformAccessory.ts:100-111, 154-163).
- dist/platform.js: compiled output of an older revision of src/platform.ts.

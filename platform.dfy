/**
 * The dynamic platform (src/platform.ts): the accessory cache filled by
 * `configureAccessory`, and `discoverDevices`, which walks the discovered
 * devices and, for each one, either updates the cached accessory with the
 * same UUID or registers a new one, building one handler per device.
 *
 * The host's UUID generator is a function parameter. The calls into the
 * host's registry API (`updatePlatformAccessories`,
 * `registerPlatformAccessories`, `unregisterPlatformAccessories`) are
 * recorded, in order, in an action log.
 */
module Platform {
  import opened Wrappers
  import opened Discovery
  import opened PlatformAccessory

  /** One call into the host's registry API, with the accessory it is about. */
  datatype Action = Register(accessory: Accessory) | Update(accessory: Accessory) | Unregister(accessory: Accessory)

  /** `accessories.find(a => a.UUID === uuid)`, as the index of the first match. */
  function FirstWithUuid(cache: seq<Accessory>, uuid: string): (r: Option<nat>)
    ensures r.Some? ==> r.value < |cache| && cache[r.value].uuid == uuid
    ensures r.Some? ==> forall j :: 0 <= j < r.value ==> cache[j].uuid != uuid
    ensures r.None? ==> forall j :: 0 <= j < |cache| ==> cache[j].uuid != uuid
  {
    if cache == [] then None
    else if cache[0].uuid == uuid then Some(0)
    else match FirstWithUuid(cache[1..], uuid)
      case Some(k) => Some(k + 1)
      case None => None
  }

  /** The registry call `discoverDevices` makes for one device. */
  function Reconcile(cache: seq<Accessory>, device: Device, generate: string -> string): (a: Action)
  {
    var uuid := generate(device.exampleUniqueId);
    match FirstWithUuid(cache, uuid)
    case Some(k) => Update(cache[k])
    case None => Register(Accessory(device.exampleDisplayName, uuid, device))
  }

  /** The registry calls `discoverDevices` makes for a list of devices, in order. */
  function Plan(cache: seq<Accessory>, devices: seq<Device>, generate: string -> string): (r: seq<Action>)
    ensures |r| == |devices|
  {
    if devices == [] then []
    else [Reconcile(cache, devices[0], generate)] + Plan(cache, devices[1..], generate)
  }

  /**
   * A device whose UUID is cached gets an Update of the first cached
   * accessory with that UUID; any other device gets a Register of a new
   * accessory named after it, with its UUID and the device as context.
   * Unregister never happens.
   */
  lemma ReconcileDecision(cache: seq<Accessory>, device: Device, generate: string -> string)
    ensures var uuid := generate(device.exampleUniqueId);
      var a := Reconcile(cache, device, generate);
      && !a.Unregister?
      && (a.Update? <==> exists k :: 0 <= k < |cache| && cache[k].uuid == uuid)
      && (a.Update? ==> exists k :: 0 <= k < |cache| && a.accessory == cache[k] && cache[k].uuid == uuid
                                   && forall j :: 0 <= j < k ==> cache[j].uuid != uuid)
      && (a.Register? ==> a.accessory == Accessory(device.exampleDisplayName, uuid, device))
  {
  }

  /** Device `i` gets its own registry call at position `i`. */
  lemma {:induction false} PlanAt(cache: seq<Accessory>, devices: seq<Device>, generate: string -> string, i: nat)
    requires i < |devices|
    ensures Plan(cache, devices, generate)[i] == Reconcile(cache, devices[i], generate)
  {
    if i > 0 {
      PlanAt(cache, devices[1..], generate, i - 1);
    }
  }

  /** Number of Register and of Update calls in a log. */
  function CountRegisters(actions: seq<Action>): nat
  {
    if actions == [] then 0 else (if actions[0].Register? then 1 else 0) + CountRegisters(actions[1..])
  }

  function CountUpdates(actions: seq<Action>): nat
  {
    if actions == [] then 0 else (if actions[0].Update? then 1 else 0) + CountUpdates(actions[1..])
  }

  /**
   * A discovery cycle makes one Register or Update per device and never
   * an Unregister.
   */
  lemma {:induction false} PlanCounts(cache: seq<Accessory>, devices: seq<Device>, generate: string -> string)
    ensures CountRegisters(Plan(cache, devices, generate)) + CountUpdates(Plan(cache, devices, generate)) == |devices|
    ensures forall a :: a in Plan(cache, devices, generate) ==> !a.Unregister?
  {
    if devices != [] {
      PlanCounts(cache, devices[1..], generate);
      ReconcileDecision(cache, devices[0], generate);
    }
  }

  /**
   * The cache is not consulted for accessories registered earlier in the
   * same cycle: two uncached devices whose ids hash to the same UUID are
   * both registered, with that same UUID.
   */
  lemma RepeatedUuidRegisteredTwice(cache: seq<Accessory>, d1: Device, d2: Device, generate: string -> string)
    requires generate(d1.exampleUniqueId) == generate(d2.exampleUniqueId)
    requires forall a :: a in cache ==> a.uuid != generate(d1.exampleUniqueId)
    ensures Plan(cache, [d1, d2], generate) ==
      [Register(Accessory(d1.exampleDisplayName, generate(d1.exampleUniqueId), d1)),
       Register(Accessory(d2.exampleDisplayName, generate(d1.exampleUniqueId), d2))]
  {
  }

  /**
   * A payload with the single entry "kitchen": "alice" yields one device
   * with id "kitchenalice", subscribed on "home/kitchen/alice"; with an
   * empty cache it is registered under the UUID of that id.
   */
  lemma KitchenAliceScenario(generate: string -> string)
    ensures var devices := Flatten([[("kitchen", "alice")]]);
      && devices == [Device("kitchenalice", "kitchenalice", "kitchen", "alice")]
      && Topic(devices[0].raum, devices[0].person) == "home/kitchen/alice"
      && Plan([], devices, generate) == [Register(Accessory("kitchenalice", generate("kitchenalice"), devices[0]))]
  {
    var body: seq<Element> := [[("kitchen", "alice")]];
    assert body[1..] == [];
    assert "kitchen" + "alice" == "kitchenalice";
    assert ElementDevices(body[0]) == [Describe("kitchen", "alice")];
  }

  /**
   * Handler `h` serves `device`, on the device's own topic, for the accessory
   * `action` is about; its Name is the display name stored in that
   * accessory's context, which for a cached accessory is the cached device's.
   */
  ghost predicate Serves(h: ExamplePlatformAccessory, device: Device, action: Action)
  {
    && h.accessory == action.accessory
    && h.serviceName == action.accessory.context.exampleDisplayName
    && h.raum == device.raum && h.person == device.person
    && h.subscription == Topic(device.raum, device.person)
  }

  /** ExampleHomebridgePlatform */
  class ExampleHomebridgePlatform {
    /** The accessories the host restored from its cache. */
    var accessories: seq<Accessory>
    /** The registry calls made so far, in order. */
    var actions: seq<Action>
    /** The host's `api.hap.uuid.generate`. */
    const generate: string -> string

    constructor (generate: string -> string)
      ensures this.generate == generate
      ensures accessories == [] && actions == []
    {
      this.generate := generate;
      accessories := [];
      actions := [];
    }

    /** Called by the host for each accessory it restores from disk. */
    method ConfigureAccessory(accessory: Accessory)
      modifies this`accessories
      ensures accessories == old(accessories) + [accessory]
    {
      accessories := accessories + [accessory];
    }

    /**
     * The body of the `for` loop of `discoverDevices` for one device: look
     * the device's UUID up in the cache, build its handler and make the
     * update or register call.
     */
    method ReconcileDevice(device: Device) returns (handler: ExamplePlatformAccessory)
      modifies this`actions
      ensures actions == old(actions) + [Reconcile(accessories, device, generate)]
      ensures fresh(handler) && handler.Unused()
      ensures Serves(handler, device, Reconcile(accessories, device, generate))
    {
      var uuid := generate(device.exampleUniqueId);
      var existing := FirstWithUuid(accessories, uuid);
      if existing.Some? {
        var existingAccessory := accessories[existing.value];
        // `device` is a descriptor object here, so the source's
        // `else if (!device)` unregister branch cannot be taken.
        handler := new ExamplePlatformAccessory(existingAccessory, device.raum, device.person);
        actions := actions + [Update(existingAccessory)];
      } else {
        var accessory := Accessory(device.exampleDisplayName, uuid, device);
        handler := new ExamplePlatformAccessory(accessory, device.raum, device.person);
        actions := actions + [Register(accessory)];
      }
    }

    /**
     * `discoverDevices`, once the device list has resolved. The cache is
     * read, never written; every device gets exactly one registry call and
     * exactly one new handler, subscribed to the device's own topic. The
     * handlers are returned (the source keeps them alive only through
     * their bus clients).
     */
    method DiscoverDevices(exampleDevices: seq<Device>) returns (created: seq<ExamplePlatformAccessory>)
      modifies this`actions
      ensures actions == old(actions) + Plan(accessories, exampleDevices, generate)
      ensures |created| == |exampleDevices|
      ensures forall k :: 0 <= k < |created| ==>
        fresh(created[k]) && created[k].Unused() && Serves(created[k], exampleDevices[k], Plan(accessories, exampleDevices, generate)[k])
      ensures forall j, k :: 0 <= j < k < |created| ==> created[j] != created[k]
    {
      ghost var plan := Plan(accessories, exampleDevices, generate);
      created := [];
      var i := 0;
      while i < |exampleDevices|
        invariant 0 <= i <= |exampleDevices| && |created| == i
        invariant actions == old(actions) + plan[..i]
        invariant forall k :: 0 <= k < i ==> fresh(created[k]) && created[k].Unused() && Serves(created[k], exampleDevices[k], plan[k])
        invariant forall j, k :: 0 <= j < k < i ==> created[j] != created[k]
      {
        var device := exampleDevices[i];
        var handler := ReconcileDevice(device);
        created := created + [handler];
        PlanAt(accessories, exampleDevices, generate, i);
        assert plan[..i + 1] == plan[..i] + [plan[i]];
        i := i + 1;
      }
      assert plan[..i] == plan;
    }
  }
}

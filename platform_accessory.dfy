/**
 * The per-accessory handler (src/platformAccessory.ts).
 *
 * A handler subscribes to `home/<raum>/<person>` on the message bus and
 * drives the MotionDetected characteristic of the accessory's motion-sensor
 * service: on its own topic the exact payload "false" clears it and every
 * other payload sets it; messages on other topics are ignored. Its GET
 * handlers answer constants. The bus connection and the host library's
 * service objects are not modelled: a delivered message is a call of
 * `OnMessage`, and the service's characteristics are fields of the handler.
 */
module PlatformAccessory {
  import opened Wrappers
  import opened Discovery

  /** A registry accessory as the platform handles it (never mutated after creation here). */
  datatype Accessory = Accessory(displayName: string, uuid: string, context: Device)

  /** A message delivered by the bus, its payload already decoded as text. */
  datatype Message = Message(topic: string, payload: string)

  /** The arguments a GET handler passes to its callback: error (null is None) and value. */
  datatype CallbackArgs = CallbackArgs(error: Option<string>, value: int)

  /** The topic a handler subscribes to and listens on. */
  function Topic(raum: string, person: string): string
  {
    "home/" + raum + "/" + person
  }

  /** A topic reads back as "home/", the room, '/', then the person. */
  lemma TopicParts(raum: string, person: string)
    ensures var t := Topic(raum, person);
      && |t| == |raum| + |person| + 6
      && t[..5] == "home/" && t[5..5 + |raum|] == raum
      && t[5 + |raum|] == '/' && t[6 + |raum|..] == person
  {
  }

  /**
   * The characteristic update a message causes for a handler bound to
   * `bound`: none off its topic, `false` for the payload "false", `true`
   * for anything else.
   */
  function MotionUpdate(bound: string, m: Message): (r: Option<bool>)
    ensures r == None <==> m.topic != bound
    ensures r == Some(false) <==> m.topic == bound && m.payload == "false"
    ensures r == Some(true) <==> m.topic == bound && m.payload != "false"
  {
    if m.topic == bound then Some(m.payload != "false") else None
  }

  /** The characteristic updates a stream of messages causes, in order. */
  function Replay(bound: string, ms: seq<Message>): seq<bool>
  {
    if ms == [] then []
    else
      var previous := Replay(bound, ms[..|ms| - 1]);
      match MotionUpdate(bound, ms[|ms| - 1])
      case Some(v) => previous + [v]
      case None => previous
  }

  /** The payloads, in order, of the messages on topic `bound`. */
  function BoundPayloads(bound: string, ms: seq<Message>): seq<string>
  {
    if ms == [] then []
    else if ms[|ms| - 1].topic == bound then BoundPayloads(bound, ms[..|ms| - 1]) + [ms[|ms| - 1].payload]
    else BoundPayloads(bound, ms[..|ms| - 1])
  }

  /**
   * Exactly one update per message on the bound topic, none for the rest,
   * and each update is `false` exactly when its payload is "false".
   */
  lemma {:induction false} ReplayFollowsBoundPayloads(bound: string, ms: seq<Message>)
    ensures |Replay(bound, ms)| == |BoundPayloads(bound, ms)|
    ensures forall i :: 0 <= i < |Replay(bound, ms)| ==>
      (Replay(bound, ms)[i] <==> BoundPayloads(bound, ms)[i] != "false")
  {
    if ms != [] {
      ReplayFollowsBoundPayloads(bound, ms[..|ms| - 1]);
    }
  }

  /**
   * The last message on the bound topic decides the state, whatever
   * arrives afterwards on other topics.
   */
  lemma {:induction false} LastBoundMessageWins(bound: string, ms: seq<Message>, k: nat)
    requires k < |ms| && ms[k].topic == bound
    requires forall j :: k < j < |ms| ==> ms[j].topic != bound
    ensures Replay(bound, ms) != []
    ensures Replay(bound, ms)[|Replay(bound, ms)| - 1] == (ms[k].payload != "false")
  {
    if k < |ms| - 1 {
      LastBoundMessageWins(bound, ms[..|ms| - 1], k);
    }
  }

  /** Topics are not injective: a '/' inside the room can move into the person. */
  lemma TopicCollision()
    ensures Topic("a/b", "c") == Topic("a", "b/c")
  {
  }

  /** When neither room contains '/', the topic determines room and person. */
  lemma TopicInjectiveForSlashFreeRooms(r1: string, p1: string, r2: string, p2: string)
    requires '/' !in r1 && '/' !in r2
    requires Topic(r1, p1) == Topic(r2, p2)
    ensures r1 == r2 && p1 == p2
  {
    TopicParts(r1, p1);
    TopicParts(r2, p2);
    assert |r1| == |r2|;
  }

  /** A handler as its constructor leaves it is consistent. */
  lemma UnusedIsValid(h: ExamplePlatformAccessory)
    requires h.Unused() && h.subscription == Topic(h.raum, h.person)
    ensures h.Valid()
  {
  }

  /** ExamplePlatformAccessory: one handler per discovered device. */
  class ExamplePlatformAccessory {
    const accessory: Accessory
    const raum: string
    const person: string
    /** The topic passed to `client.subscribe`. */
    const subscription: string
    /** The value set on the motion-sensor service's Name characteristic. */
    const serviceName: string

    /** `exampleStates.On`. */
    var exampleStatesOn: bool
    /** MotionDetected as this handler last set it; None until it first writes it. */
    var motionDetected: Option<bool>
    /** Every `updateCharacteristic(MotionDetected, v)` call, in order. */
    var updates: seq<bool>
    /** Every message the bus client has delivered to this handler. */
    ghost var received: seq<Message>

    ghost predicate Valid()
      reads this
    {
      && subscription == Topic(raum, person)
      && updates == Replay(subscription, received)
      && motionDetected == (if updates == [] then None else Some(updates[|updates| - 1]))
      && !exampleStatesOn
    }

    /** As the constructor leaves it: no message seen, nothing written. */
    ghost predicate Unused()
      reads this
    {
      received == [] && updates == [] && motionDetected == None && !exampleStatesOn
    }

    /** Subscribes to the device's topic and names the service after the accessory's stored device. */
    constructor (accessory: Accessory, raum: string, person: string)
      ensures this.accessory == accessory && this.raum == raum && this.person == person
      ensures subscription == "home/" + raum + "/" + person
      ensures serviceName == accessory.context.exampleDisplayName
      ensures Unused() && Valid()
    {
      this.accessory := accessory;
      this.raum := raum;
      this.person := person;
      subscription := Topic(raum, person);
      serviceName := accessory.context.exampleDisplayName;
      exampleStatesOn := false;
      motionDetected := None;
      updates := [];
      received := [];
    }

    /** The bus client's `message` callback. */
    method OnMessage(topic: string, payload: string)
      requires Valid()
      modifies this`motionDetected, this`updates, this`received
      ensures Valid()
      ensures received == old(received) + [Message(topic, payload)]
      ensures topic != subscription ==> updates == old(updates) && motionDetected == old(motionDetected)
      ensures topic == subscription ==>
        updates == old(updates) + [payload != "false"] && motionDetected == Some(payload != "false")
    {
      received := received + [Message(topic, payload)];
      assert received[..|received| - 1] == old(received);
      if topic == Topic(raum, person) {
        if payload == "false" {
          motionDetected := Some(false);
          updates := updates + [false];
        } else {
          motionDetected := Some(true);
          updates := updates + [true];
        }
      }
    }

    /** GET handler of MotionDetected: always answers (null, 1). */
    method HandleMotionDetectedGet() returns (reply: CallbackArgs)
      ensures reply == CallbackArgs(None, 1)
    {
      reply := CallbackArgs(None, 1);
    }

    /** `getOn`: reads `exampleStates.On` only to log it and always answers (null, 0). */
    method GetOn() returns (reply: CallbackArgs)
      ensures reply == CallbackArgs(None, 0)
    {
      var value := 0;
      var isOn := exampleStatesOn;
      reply := CallbackArgs(None, value);
    }
  }
}

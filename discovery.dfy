/**
 * Device discovery (src/platform.ts, the `getdevices` promise).
 *
 * The discovery endpoint answers with a JSON array of objects. Every
 * key/value entry of every object becomes one device descriptor: the key is
 * the room (`raum`), the value the person, and both the unique id and the
 * display name are their concatenation. The HTTP request and `JSON.parse`
 * are not part of this model: the body arrives already parsed, each object
 * as the sequence of its entries in `Object.entries` order.
 */
module Discovery {

  /** The descriptor pushed to `to_return` for one entry. */
  datatype Device = Device(exampleUniqueId: string, exampleDisplayName: string, raum: string, person: string)

  /** One element of the parsed array, as its `Object.entries`. */
  type Element = seq<(string, string)>

  /** The descriptor built from one key/value entry. */
  function Describe(key: string, value: string): Device
  {
    Device(key + value, key + value, key, value)
  }

  /** The descriptors of one element's entries, in entry order. */
  function ElementDevices(element: Element): seq<Device>
  {
    seq(|element|, k requires 0 <= k < |element| => Describe(element[k].0, element[k].1))
  }

  /** Number of key/value entries across all elements. */
  function TotalEntries(body: seq<Element>): nat
  {
    if body == [] then 0 else |body[0]| + TotalEntries(body[1..])
  }

  /** Position in the flattened result of the first entry of `body[i]`. */
  function Offset(body: seq<Element>, i: nat): nat
    requires i <= |body|
  {
    TotalEntries(body[..i])
  }

  /** What the nested `forEach` loops produce: one descriptor per entry. */
  function Flatten(body: seq<Element>): (r: seq<Device>)
    ensures |r| == TotalEntries(body)
  {
    if body == [] then [] else ElementDevices(body[0]) + Flatten(body[1..])
  }

  /**
   * The `getdevices` callback body: walks the array and, inside it, the
   * entries of each element, pushing one descriptor per entry.
   */
  method CollectDevices(body: seq<Element>) returns (toReturn: seq<Device>)
    ensures toReturn == Flatten(body)
  {
    toReturn := [];
    var i := 0;
    while i < |body|
      invariant 0 <= i <= |body|
      invariant toReturn == Flatten(body[..i])
    {
      var element := body[i];
      var j := 0;
      while j < |element|
        invariant 0 <= j <= |element|
        invariant toReturn == Flatten(body[..i]) + ElementDevices(element[..j])
      {
        var (key, value) := element[j];
        assert ElementDevices(element[..j + 1]) == ElementDevices(element[..j]) + [Describe(key, value)];
        toReturn := toReturn + [Describe(key, value)];
        j := j + 1;
      }
      assert element[..j] == element;
      FlattenAppend(body[..i], [element]);
      assert body[..i + 1] == body[..i] + [element];
      i := i + 1;
    }
    assert body[..i] == body;
  }

  /** Flattening distributes over concatenation of the parsed array. */
  lemma {:induction false} FlattenAppend(a: seq<Element>, b: seq<Element>)
    ensures Flatten(a + b) == Flatten(a) + Flatten(b)
  {
    if a == [] {
      assert a + b == b;
    } else {
      assert (a + b)[0] == a[0];
      assert (a + b)[1..] == a[1..] + b;
      FlattenAppend(a[1..], b);
    }
  }

  /**
   * Entry `j` of element `i` lands at `Offset(body, i) + j` and carries
   * that entry's key and value; offsets grow with `i`, so the result keeps
   * array order, then entry order.
   */
  lemma {:induction false} FlattenAt(body: seq<Element>, i: nat, j: nat)
    requires i < |body| && j < |body[i]|
    ensures Offset(body, i) + |body[i]| == Offset(body, i + 1)
    ensures Offset(body, i) + j < |Flatten(body)|
    ensures var d := Flatten(body)[Offset(body, i) + j];
      && d.raum == body[i][j].0
      && d.person == body[i][j].1
      && d.exampleUniqueId == d.exampleDisplayName == body[i][j].0 + body[i][j].1
  {
    if i == 0 {
      assert body[..0] == [];
      assert body[..1] == [body[0]];
      assert [body[0]][1..] == [];
    } else {
      var rest := body[1..];
      assert body[..i][0] == body[0] && body[..i][1..] == rest[..i - 1];
      assert body[..i + 1][0] == body[0] && body[..i + 1][1..] == rest[..i];
      FlattenAt(rest, i - 1, j);
    }
  }

  /**
   * Every descriptor comes from some entry of some element, and has
   * unique id == display name == room + person.
   */
  lemma {:induction false} FlattenMember(body: seq<Element>, d: Device)
    requires d in Flatten(body)
    ensures d.exampleUniqueId == d.exampleDisplayName == d.raum + d.person
    ensures exists i, j :: 0 <= i < |body| && 0 <= j < |body[i]| && body[i][j] == (d.raum, d.person)
  {
    if d in ElementDevices(body[0]) {
      var k :| 0 <= k < |body[0]| && ElementDevices(body[0])[k] == d;
      assert body[0][k] == (d.raum, d.person);
    } else {
      FlattenMember(body[1..], d);
      var i, j :| 0 <= i < |body[1..]| && 0 <= j < |body[1..][i]| && body[1..][i][j] == (d.raum, d.person);
      assert body[i + 1][j] == (d.raum, d.person);
    }
  }

  /**
   * The unique id does not determine the entry: `"ab"+"c"` and `"a"+"bc"`
   * give two descriptors with the same id but different rooms.
   */
  lemma UniqueIdCollision()
    ensures var r := Flatten([[("ab", "c")], [("a", "bc")]]);
      |r| == 2 && r[0].exampleUniqueId == r[1].exampleUniqueId && r[0].raum != r[1].raum
  {
  }

  /** Rooms of equal length do determine the entry from the unique id. */
  lemma UniqueIdDeterminesEntryForEqualLengthRooms(k1: string, v1: string, k2: string, v2: string)
    requires |k1| == |k2|
    requires Describe(k1, v1).exampleUniqueId == Describe(k2, v2).exampleUniqueId
    ensures k1 == k2 && v1 == v2
  {
    assert k1 == (k1 + v1)[..|k1|];
    assert k2 == (k2 + v2)[..|k2|];
    assert v1 == (k1 + v1)[|k1|..];
    assert v2 == (k2 + v2)[|k2|..];
  }
}

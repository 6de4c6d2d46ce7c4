/** The GPU command values the light system appends to its command list. */
module Commands {

  /** A three-component vector, as pushed with `push_vec3`. */
  datatype Vec3 = Vec3(x: real, y: real, z: real)

  /** One entry of a command payload: `push_int`, `push_float` or `push_vec3`. */
  datatype Datum = IntDatum(i: int) | FloatDatum(f: real) | Vec3Datum(v: Vec3)

  /** The two command codes the light storage emits. */
  datatype CommandKind = StoreLight | RemoveLight

  /** A GPU command: its code and the data pushed onto it, in push order. */
  datatype Command = Command(kind: CommandKind, payload: seq<Datum>)
  {
    /** Appends one datum, as the `push_*` calls do. */
    function Push(d: Datum): (r: Command)
      ensures r.kind == kind && |r.payload| == |payload| + 1
      ensures r.payload[..|payload|] == payload && r.payload[|payload|] == d
    {
      Command(kind, payload + [d])
    }
  }

  /** Number of integer entries in a payload. */
  function CountInts(p: seq<Datum>): nat
  {
    if p == [] then 0 else CountInts(p[..|p| - 1]) + (if p[|p| - 1].IntDatum? then 1 else 0)
  }

  /** Number of vector entries in a payload. */
  function CountVec3s(p: seq<Datum>): nat
  {
    if p == [] then 0 else CountVec3s(p[..|p| - 1]) + (if p[|p| - 1].Vec3Datum? then 1 else 0)
  }

  /** Appending one datum adds one to the count of its kind. */
  lemma CountsSnoc(p: seq<Datum>, d: Datum)
    ensures CountInts(p + [d]) == CountInts(p) + (if d.IntDatum? then 1 else 0)
    ensures CountVec3s(p + [d]) == CountVec3s(p) + (if d.Vec3Datum? then 1 else 0)
  {
    assert (p + [d])[..|p|] == p;
  }

  /** Counting distributes over concatenation. */
  lemma {:induction false} CountsAppend(p: seq<Datum>, q: seq<Datum>)
    ensures CountInts(p + q) == CountInts(p) + CountInts(q)
    ensures CountVec3s(p + q) == CountVec3s(p) + CountVec3s(q)
    decreases |q|
  {
    if q == [] {
      assert p + q == p;
    } else {
      var q' := q[..|q| - 1];
      assert (p + q)[..|p + q| - 1] == p + q';
      CountsAppend(p, q');
    }
  }

  /** The store command for a light of one payload. */
  function StoreCommand(payload: seq<Datum>): Command
  {
    Command(StoreLight, payload)
  }

  /** The remove command `remove_light` emits: the freed slot is its only datum. */
  function RemoveCommand(slot: int): (c: Command)
    ensures c.kind == RemoveLight && c.payload == [IntDatum(slot)]
  {
    Command(RemoveLight, []).Push(IntDatum(slot))
  }
}

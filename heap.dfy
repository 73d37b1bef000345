/**
 * The JavaScript objects that the core updates in place: plain objects
 * numbered by creation, each a dictionary of own properties. Object 0 is
 * the global object, which `getByPath`/`setByPath` fall back to when given
 * no context.
 */
module Heap {
  import opened Wrappers
  import opened Js

  /** The global object. */
  const Global: nat := 0

  /**
   * A value that can sit in a property of a stored object: a primitive or a
   * reference to a stored object. Functions and literals that end up in the
   * store are modelled as stored objects.
   */
  predicate IsSlot(v: Value, n: nat) {
    match v
    case Ref(o) => o < n
    case Fn(_) => false
    case Cls(_) => false
    case Arr(_) => false
    case Obj(_) => false
    case _ => true
  }

  /** The properties of a stored object; a value that is not a stored object has none here. */
  function StoredProps(objs: seq<Dict>, v: Value): Dict {
    if v.Ref? && v.oid < |objs| then objs[v.oid] else []
  }

  /** Every property of a dictionary holds a slot value for a store of `n` objects. */
  predicate SlotDict(d: Dict, n: nat) {
    forall i :: 0 <= i < |d| ==> IsSlot(d[i].val, n)
  }

  /** Every property of every stored object holds a slot value; the global object exists. */
  ghost predicate WellFormed(objs: seq<Dict>) {
    && |objs| >= 1
    && forall o :: 0 <= o < |objs| ==> SlotDict(objs[o], |objs|)
  }

  /** A property read from a dictionary of slot values is a slot value. */
  lemma {:induction false} SlotGet(d: Dict, n: nat, k: string)
    requires SlotDict(d, n) && Get(d, k).Some?
    ensures IsSlot(Get(d, k).value, n)
  {
    if d[0].key != k {
      SlotGet(d[1..], n, k);
    }
  }

  /** Storing a slot value keeps a dictionary of slot values. */
  lemma {:induction false} SlotPut(d: Dict, n: nat, k: string, v: Value)
    requires SlotDict(d, n) && IsSlot(v, n)
    ensures SlotDict(Put(d, k, v), n)
  {
    if d != [] && d[0].key != k {
      SlotPut(d[1..], n, k, v);
      assert Put(d, k, v) == [d[0]] + Put(d[1..], k, v);
    }
  }

  /** Appending an empty object keeps a store well formed. */
  lemma AllocPreserves(objs: seq<Dict>)
    requires WellFormed(objs)
    ensures WellFormed(objs + [[]])
  {
    var objs' := objs + [[]];
    forall o | 0 <= o < |objs'| ensures SlotDict(objs'[o], |objs'|) {
      if o < |objs| {
        assert objs'[o] == objs[o];
      }
    }
  }

  /** Storing a slot value into an existing object keeps a store well formed. */
  lemma PutPreserves(objs: seq<Dict>, o: nat, k: string, v: Value)
    requires WellFormed(objs) && o < |objs| && IsSlot(v, |objs|)
    ensures WellFormed(objs[o := Put(objs[o], k, v)])
  {
    SlotPut(objs[o], |objs|, k, v);
  }

  /** The objects of a running program, updated in place. */
  class Store {
    var objs: seq<Dict>

    ghost predicate Valid()
      reads this
    {
      WellFormed(objs)
    }

    /** A store that holds only an empty global object. */
    constructor ()
      ensures Valid() && objs == [[]]
    {
      objs := [[]];
    }

    /** `{}`: a new empty object. */
    method Alloc() returns (o: nat)
      requires Valid()
      modifies this
      ensures Valid()
      ensures o == old(|objs|) && objs == old(objs) + [[]]
    {
      AllocPreserves(objs);
      o := |objs|;
      objs := objs + [[]];
    }

    /** `obj[k] = v` on a stored object. */
    method Store(o: nat, k: string, v: Value)
      requires Valid() && o < |objs| && IsSlot(v, |objs|)
      modifies this
      ensures Valid()
      ensures objs == old(objs)[o := Put(old(objs)[o], k, v)]
    {
      PutPreserves(objs, o, k, v);
      objs := objs[o := Put(objs[o], k, v)];
    }
  }
}

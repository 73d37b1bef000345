/**
 * The application host `go.Carcas` (src/Carcas.js): one instance that is
 * initialised once, takes module and controller declarations, answers the
 * loader's two callbacks, creates controllers and modules into name-keyed
 * registries, and tracks how far the page has loaded; plus the static slot
 * that holds the main instance.
 *
 * The registries `controllersList` and `modulesList` are objects of a
 * `Heap.Store` and are written in place by the host's own `setByPath`. The
 * dependency engine `go.__Loader` is an outside collaborator: the host only
 * records the calls it makes to it.
 */
module Host {
  import opened Wrappers
  import opened Strings
  import opened Js
  import opened Heap
  import opened Paths
  import opened Classes
  import opened ClassBuilder
  import Deps

  // ---------------------------------------------------------------------
  // The registry store

  /** A reference to one of the first `n` stored objects. */
  predicate RefTo(v: Value, n: nat) {
    v.Ref? && v.oid < n
  }

  /** Every property of a dictionary holds a reference to one of the first `n` objects. */
  predicate RefDict(d: Dict, n: nat) {
    forall i :: 0 <= i < |d| ==> RefTo(d[i].val, n)
  }

  /** The registries hold only objects: every property of every stored object refers to a stored object. */
  ghost predicate AllRefs(objs: seq<Dict>) {
    forall o :: 0 <= o < |objs| ==> RefDict(objs[o], |objs|)
  }

  /** A property read from a dictionary of references is a reference. */
  lemma {:induction false} RefDictGet(d: Dict, n: nat, k: string)
    requires RefDict(d, n) && Get(d, k).Some?
    ensures RefTo(Get(d, k).value, n)
  {
    if d[0].key != k {
      RefDictGet(d[1..], n, k);
    }
  }

  /** Storing a reference keeps a dictionary of references. */
  lemma {:induction false} RefDictPut(d: Dict, n: nat, k: string, v: Value)
    requires RefDict(d, n) && RefTo(v, n)
    ensures RefDict(Put(d, k, v), n)
  {
    if d != [] && d[0].key != k {
      RefDictPut(d[1..], n, k, v);
      assert Put(d, k, v) == [d[0]] + Put(d[1..], k, v);
    }
  }

  /** Copying the properties of one dictionary of references onto another keeps it one. */
  lemma {:induction false} RefDictExtend(d: Dict, src: Dict, n: nat)
    requires RefDict(d, n) && RefDict(src, n)
    ensures RefDict(Extend(d, src), n)
    decreases |src|
  {
    if src != [] {
      RefDictPut(d, n, src[0].key, src[0].val);
      RefDictExtend(Put(d, src[0].key, src[0].val), src[1..], n);
    }
  }

  /** A new empty object keeps the store one of references. */
  lemma AllRefsAlloc(objs: seq<Dict>)
    requires AllRefs(objs)
    ensures AllRefs(objs + [[]])
  {
    var objs' := objs + [[]];
    forall o | 0 <= o < |objs'| ensures RefDict(objs'[o], |objs'|) {
      if o < |objs| {
        assert objs'[o] == objs[o];
      }
    }
  }

  /** Replacing one object by a dictionary of references keeps the store one of references. */
  lemma AllRefsUpdate(objs: seq<Dict>, o: nat, d: Dict)
    requires AllRefs(objs) && o < |objs| && RefDict(d, |objs|)
    ensures AllRefs(objs[o := d])
  {
  }

  /**
   * One pass of the loop of the host's `setByPath`: a falsy or missing
   * property is first set to a new empty object, then followed. The host is
   * strict-mode code, so a context that is not an object throws a TypeError.
   */
  function HostStep(objs: seq<Dict>, ctx: Value, p: string): (w: Walked)
    ensures |w.objs| >= |objs|
  {
    if ctx.Ref? && ctx.oid < |objs| then
      var o := ctx.oid;
      var cur := Get(objs[o], p);
      if cur.Some? && Truthy(cur.value) then Walked(objs, cur.value, true)
      else Walked(objs[o := Put(objs[o], p, Ref(|objs|))] + [[]], Ref(|objs|), true)
    else Walked(objs, ctx, false)
  }

  /** The loop of the host's `setByPath` over all keys but the last; it stops at the first TypeError. */
  function HostWalk(objs: seq<Dict>, ctx: Value, inter: seq<string>): (w: Walked)
    ensures |w.objs| >= |objs|
    decreases |inter|
  {
    if inter == [] then Walked(objs, ctx, true)
    else
      var s := HostStep(objs, ctx, inter[0]);
      if !s.ok then s else HostWalk(s.objs, s.ctx, inter[1..])
  }

  /**
   * The end of the host's `setByPath`: when the last key already holds a
   * truthy value, that value's own properties are first copied onto the new
   * object `n` (`go.Lang.extend`); then the last key is set to `n`.
   */
  function Place(objs: seq<Dict>, ctx: Value, last: string, n: nat): Written
    requires n < |objs|
  {
    if ctx.Ref? && ctx.oid < |objs| then
      var o := ctx.oid;
      var cur := Get(objs[o], last);
      var objs1 := if cur.Some? && Truthy(cur.value) then objs[n := Extend(objs[n], StoredProps(objs, cur.value))] else objs;
      Written(objs1[o := Put(objs1[o], last, Ref(n))], true)
    else Written(objs, false)
  }

  /** `this.setByPath(context, name, obj)` for a dotted name and the stored object `n`. */
  function SetHost(objs: seq<Dict>, ctx: Value, name: string, n: nat): Written
    requires n < |objs|
  {
    var keys := Split(name, ".");
    HostSet(objs, ctx, Init(keys), Last(keys), n)
  }

  /** The walk over the keys `inter`, then the placement of `n` under `last`. */
  function HostSet(objs: seq<Dict>, ctx: Value, inter: seq<string>, last: string, n: nat): Written
    requires n < |objs|
  {
    var w := HostWalk(objs, ctx, inter);
    if !w.ok then Written(w.objs, false) else Place(w.objs, w.ctx, last, n)
  }

  /** A walk through a store of references from a stored object never throws and keeps the store one of references. */
  lemma {:induction false} HostWalkKeepsRefs(objs: seq<Dict>, o: nat, inter: seq<string>)
    requires AllRefs(objs) && o < |objs|
    ensures var w := HostWalk(objs, Ref(o), inter);
      w.ok && AllRefs(w.objs) && RefTo(w.ctx, |w.objs|)
    decreases |inter|
  {
    if inter != [] {
      var p := inter[0];
      var cur := Get(objs[o], p);
      if cur.Some? && Truthy(cur.value) {
        RefDictGet(objs[o], |objs|, p);
        HostWalkKeepsRefs(objs, cur.value.oid, inter[1..]);
      } else {
        var n := |objs|;
        GrowRefs(objs, o, p);
        HostWalkKeepsRefs(objs[o := Put(objs[o], p, Ref(n))] + [[]], n, inter[1..]);
      }
    }
  }

  /**
   * On a store of references, the host's `setByPath` from a stored object
   * never throws and keeps the store one of references.
   */
  lemma SetHostKeepsRefs(objs: seq<Dict>, o: nat, name: string, n: nat)
    requires AllRefs(objs) && o < |objs| && n < |objs|
    ensures var r := SetHost(objs, Ref(o), name, n);
      r.ok && AllRefs(r.objs) && |r.objs| >= |objs|
  {
    var keys := Split(name, ".");
    HostWalkKeepsRefs(objs, o, Init(keys));
    var w := HostWalk(objs, Ref(o), Init(keys));
    var c := w.ctx.oid;
    var last := Last(keys);
    var cur := Get(w.objs[c], last);
    var objs1 := if cur.Some? && Truthy(cur.value) then w.objs[n := Extend(w.objs[n], StoredProps(w.objs, cur.value))] else w.objs;
    if cur.Some? && Truthy(cur.value) {
      RefDictGet(w.objs[c], |w.objs|, last);
      RefDictExtend(w.objs[n], StoredProps(w.objs, cur.value), |w.objs|);
      AllRefsUpdate(w.objs, n, Extend(w.objs[n], StoredProps(w.objs, cur.value)));
    }
    RefDictPut(objs1[c], |objs1|, last, Ref(n));
    AllRefsUpdate(objs1, c, Put(objs1[c], last, Ref(n)));
  }

  /** A name without dots names a key of the registry itself, which ends up holding the new object. */
  lemma SetHostPlain(objs: seq<Dict>, o: nat, name: string, n: nat)
    requires o < |objs| && n < |objs| && n != o && '.' !in name
    ensures var r := SetHost(objs, Ref(o), name, n);
      && r.ok && |r.objs| == |objs|
      && Get(r.objs[o], name) == Some(Ref(n))
      && forall k {:trigger Get(r.objs[o], k)} :: k != name ==> Get(r.objs[o], k) == Get(objs[o], k)
  {
    SplitAbsent(name, '.');
  }

  /** A step of the host's walk that does not throw hands the rest of the set to the next context. */
  lemma HostSetUnfold(objs: seq<Dict>, o: nat, inter: seq<string>, last: string, n: nat)
    requires o < |objs| && n < |objs| && inter != []
    ensures var s := HostStep(objs, Ref(o), inter[0]);
      s.ok && n < |s.objs| && HostSet(objs, Ref(o), inter, last, n) == HostSet(s.objs, s.ctx, inter[1..], last, n)
  {
  }

  /**
   * On a store of references, the host's set from a stored object `o`
   * changes nothing off the path but the new object `n`. Object `n` ends
   * with the own properties of the value the whole path held before merged
   * onto it (`go.Lang.extend`), or unchanged when the path held nothing.
   */
  lemma {:induction false} HostSetFrame(objs: seq<Dict>, o: nat, inter: seq<string>, last: string, n: nat)
    requires AllRefs(objs) && o < |objs| && n < |objs| && n !in Trail(objs, Ref(o), inter)
    ensures var r := HostSet(objs, Ref(o), inter, last, n);
      && r.ok && |r.objs| >= |objs|
      && (forall x :: 0 <= x < |objs| && x != n && x !in Trail(objs, Ref(o), inter) ==> r.objs[x] == objs[x])
      && var before := Lookup(objs, Ref(o), inter + [last], Undefined);
         r.objs[n] == if before.Ref? then Extend(objs[n], StoredProps(objs, before)) else objs[n]
    decreases |inter|, 1
  {
    if inter == [] {
      assert inter + [last] == [last];
      if Get(objs[o], last).Some? {
        RefDictGet(objs[o], |objs|, last);
      }
    } else if Get(objs[o], inter[0]).Some? {
      FrameThroughExisting(objs, o, inter, last, n);
    } else {
      FrameThroughMissing(objs, o, inter, last, n);
    }
  }

  /** The frame of the host's set when the first key already holds the next object. */
  lemma {:induction false} FrameThroughExisting(objs: seq<Dict>, o: nat, inter: seq<string>, last: string, n: nat)
    requires AllRefs(objs) && o < |objs| && n < |objs| && n !in Trail(objs, Ref(o), inter)
    requires inter != [] && Get(objs[o], inter[0]).Some?
    ensures var r := HostSet(objs, Ref(o), inter, last, n);
      && r.ok && |r.objs| >= |objs|
      && (forall x :: 0 <= x < |objs| && x != n && x !in Trail(objs, Ref(o), inter) ==> r.objs[x] == objs[x])
      && var before := Lookup(objs, Ref(o), inter + [last], Undefined);
         r.objs[n] == if before.Ref? then Extend(objs[n], StoredProps(objs, before)) else objs[n]
    decreases |inter|, 0
  {
    var p, rest := inter[0], inter[1..];
    RefDictGet(objs[o], |objs|, p);
    var next := Get(objs[o], p).value.oid;
    assert Trail(objs, Ref(o), inter) == [o] + Trail(objs, Ref(next), rest);
    assert HostStep(objs, Ref(o), p) == Walked(objs, Ref(next), true);
    HostSetUnfold(objs, o, inter, last, n);
    HostSetFrame(objs, next, rest, last, n);
    assert inter + [last] == [p] + (rest + [last]);
    LookupThrough(objs, o, p, rest + [last], Undefined);
  }

  /** The frame of the host's set when the first key is missing and a new object is made for it. */
  lemma {:induction false} FrameThroughMissing(objs: seq<Dict>, o: nat, inter: seq<string>, last: string, n: nat)
    requires AllRefs(objs) && o < |objs| && n < |objs| && n !in Trail(objs, Ref(o), inter)
    requires inter != [] && Get(objs[o], inter[0]).None?
    ensures var r := HostSet(objs, Ref(o), inter, last, n);
      && r.ok && |r.objs| >= |objs|
      && (forall x :: 0 <= x < |objs| && x != n && x !in Trail(objs, Ref(o), inter) ==> r.objs[x] == objs[x])
      && var before := Lookup(objs, Ref(o), inter + [last], Undefined);
         r.objs[n] == if before.Ref? then Extend(objs[n], StoredProps(objs, before)) else objs[n]
    decreases |inter|, 0
  {
    var p, rest := inter[0], inter[1..];
    var m := |objs|;
    GrowRefs(objs, o, p);
    var objs1 := objs[o := Put(objs[o], p, Ref(m))] + [[]];
    assert HostStep(objs, Ref(o), p) == Walked(objs1, Ref(m), true);
    assert Trail(objs, Ref(o), inter) == [o];
    assert Trail(objs1, Ref(m), rest) == [m];
    HostSetUnfold(objs, o, inter, last, n);
    HostSetFrame(objs1, m, rest, last, n);
    var r := HostSet(objs, Ref(o), inter, last, n);
    forall x | 0 <= x < |objs| && x != n && x !in Trail(objs, Ref(o), inter) ensures r.objs[x] == objs[x] {
      assert x != o && x !in [m];
    }
    assert inter + [last] == [p] + (rest + [last]);
    assert Lookup(objs, Ref(o), inter + [last], Undefined) == Undefined;
    assert Lookup(objs1, Ref(m), rest + [last], Undefined) == Undefined;
  }

  /** A new empty object made for a missing key keeps a store of references one. */
  lemma GrowRefs(objs: seq<Dict>, o: nat, p: string)
    requires AllRefs(objs) && o < |objs|
    ensures AllRefs(objs[o := Put(objs[o], p, Ref(|objs|))] + [[]])
  {
    var m := |objs|;
    AllRefsAlloc(objs);
    var grown := objs + [[]];
    RefDictPut(grown[o], m + 1, p, Ref(m));
    AllRefsUpdate(grown, o, Put(grown[o], p, Ref(m)));
    assert grown[o := Put(grown[o], p, Ref(m))] == objs[o := Put(objs[o], p, Ref(m))] + [[]];
  }

  /**
   * On a store of references, after the host's set from a stored object
   * along a path that meets no object twice and not `n`, reading the path
   * gives `n`.
   */
  lemma {:induction false} HostSetThenLookup(objs: seq<Dict>, o: nat, inter: seq<string>, last: string, n: nat, dflt: Value)
    requires AllRefs(objs) && o < |objs| && n < |objs|
    requires Distinct(Trail(objs, Ref(o), inter)) && n !in Trail(objs, Ref(o), inter)
    ensures var r := HostSet(objs, Ref(o), inter, last, n);
      r.ok && Lookup(r.objs, Ref(o), inter + [last], dflt) == Ref(n)
    decreases |inter|, 1
  {
    if inter == [] {
      HostSetFrame(objs, o, inter, last, n);
      var r := HostSet(objs, Ref(o), inter, last, n);
      assert inter + [last] == [last];
      assert Get(r.objs[o], last) == Some(Ref(n));
    } else if Get(objs[o], inter[0]).Some? {
      HostThroughExisting(objs, o, inter, last, n, dflt);
    } else {
      HostThroughMissing(objs, o, inter, last, n, dflt);
    }
  }

  /** The host's round trip when the first key already holds the next object. */
  lemma {:induction false} HostThroughExisting(objs: seq<Dict>, o: nat, inter: seq<string>, last: string, n: nat, dflt: Value)
    requires AllRefs(objs) && o < |objs| && n < |objs| && inter != [] && Get(objs[o], inter[0]).Some?
    requires Distinct(Trail(objs, Ref(o), inter)) && n !in Trail(objs, Ref(o), inter)
    ensures var r := HostSet(objs, Ref(o), inter, last, n);
      r.ok && Lookup(r.objs, Ref(o), inter + [last], dflt) == Ref(n)
    decreases |inter|, 0
  {
    var p, rest := inter[0], inter[1..];
    RefDictGet(objs[o], |objs|, p);
    var next := Get(objs[o], p).value.oid;
    var t := Trail(objs, Ref(next), rest);
    assert Trail(objs, Ref(o), inter) == [o] + t;
    DistinctTail(o, t);
    assert HostStep(objs, Ref(o), p) == Walked(objs, Ref(next), true);
    HostSetUnfold(objs, o, inter, last, n);
    var r := HostSet(objs, Ref(o), inter, last, n);
    HostSetThenLookup(objs, next, rest, last, n, dflt);
    HostSetFrame(objs, next, rest, last, n);
    assert r.objs[o] == objs[o];
    assert inter + [last] == [p] + (rest + [last]);
    LookupThrough(r.objs, o, p, rest + [last], dflt);
  }

  /** The host's round trip when the first key is missing and a new object is made for it. */
  lemma {:induction false} HostThroughMissing(objs: seq<Dict>, o: nat, inter: seq<string>, last: string, n: nat, dflt: Value)
    requires AllRefs(objs) && o < |objs| && n < |objs| && inter != [] && Get(objs[o], inter[0]).None?
    requires n !in Trail(objs, Ref(o), inter)
    ensures var r := HostSet(objs, Ref(o), inter, last, n);
      r.ok && Lookup(r.objs, Ref(o), inter + [last], dflt) == Ref(n)
    decreases |inter|, 0
  {
    var p, rest := inter[0], inter[1..];
    var m := |objs|;
    GrowRefs(objs, o, p);
    var objs1 := objs[o := Put(objs[o], p, Ref(m))] + [[]];
    assert HostStep(objs, Ref(o), p) == Walked(objs1, Ref(m), true);
    assert Trail(objs, Ref(o), inter) == [o];
    assert Trail(objs1, Ref(m), rest) == [m];
    HostSetUnfold(objs, o, inter, last, n);
    var r := HostSet(objs, Ref(o), inter, last, n);
    HostSetThenLookup(objs1, m, rest, last, n, dflt);
    HostSetFrame(objs1, m, rest, last, n);
    assert r.objs[o] == objs1[o];
    assert Get(r.objs[o], p) == Some(Ref(m));
    assert inter + [last] == [p] + (rest + [last]);
    LookupThrough(r.objs, o, p, rest + [last], dflt);
  }

  /**
   * The host's `setByPath(context, name, obj)` for a dotted name, on a store
   * of references: it never throws; `getByPath` of the same name then gives
   * the new object, provided the existing part of the path meets no object
   * twice and not the new object; the new object holds the properties the
   * name held before merged onto its own; and no other object off the path
   * changes.
   */
  lemma SetHostThenGet(objs: seq<Dict>, o: nat, name: string, n: nat, dflt: Value)
    requires AllRefs(objs) && o < |objs| && n < |objs|
    requires Distinct(Trail(objs, Ref(o), Init(Split(name, "."))))
    requires n !in Trail(objs, Ref(o), Init(Split(name, ".")))
    ensures var r := SetHost(objs, Ref(o), name, n);
      && r.ok
      && Lookup(r.objs, Ref(o), Split(name, "."), dflt) == Ref(n)
      && (forall x :: 0 <= x < |objs| && x != n && x !in Trail(objs, Ref(o), Init(Split(name, "."))) ==> r.objs[x] == objs[x])
      && var before := Lookup(objs, Ref(o), Split(name, "."), Undefined);
         r.objs[n] == if before.Ref? then Extend(objs[n], StoredProps(objs, before)) else objs[n]
  {
    var keys := Split(name, ".");
    assert Init(keys) + [Last(keys)] == keys;
    HostSetFrame(objs, o, Init(keys), Last(keys), n);
    HostSetThenLookup(objs, o, Init(keys), Last(keys), n, dflt);
  }

  /** One pass of the host's walk, in place. */
  method HostStepInPlace(h: Store, ctx: Value, p: string) returns (next: Value, ok: bool)
    requires h.Valid() && IsSlot(ctx, |h.objs|)
    modifies h
    ensures h.Valid() && IsSlot(next, |h.objs|)
    ensures Walked(h.objs, next, ok) == HostStep(old(h.objs), ctx, p)
  {
    if !ctx.Ref? {
      return ctx, false;
    }
    var o := ctx.oid;
    var cur := Get(h.objs[o], p);
    if cur.Some? && Truthy(cur.value) {
      SlotGet(h.objs[o], |h.objs|, p);
      return cur.value, true;
    }
    ghost var before := h.objs;
    var n := h.Alloc();
    h.Store(o, p, Ref(n));
    assert h.objs == before[o := Put(before[o], p, Ref(n))] + [[]];
    return Ref(n), true;
  }

  /** `go.Lang.extend(obj, src)` onto the stored object `n`: each property of `src` in turn. */
  method ExtendInPlace(h: Store, n: nat, src: Dict)
    requires h.Valid() && n < |h.objs|
    requires forall i :: 0 <= i < |src| ==> IsSlot(src[i].val, |h.objs|)
    modifies h
    ensures h.Valid()
    ensures h.objs == old(h.objs)[n := Extend(old(h.objs)[n], src)]
  {
    var i := 0;
    while i < |src|
      invariant 0 <= i <= |src| && h.Valid() && |h.objs| == |old(h.objs)|
      invariant h.objs == old(h.objs)[n := Extend(h.objs[n], src[i..])][n := h.objs[n]]
      invariant Extend(h.objs[n], src[i..]) == Extend(old(h.objs)[n], src)
    {
      assert src[i..][0] == src[i] && src[i..][1..] == src[i + 1..];
      h.Store(n, src[i].key, src[i].val);
      i := i + 1;
    }
  }

  /** `this.setByPath(context, name, obj)` on the stored objects `ctx` and `n`; `ok` is false when it throws a TypeError. */
  method SetInStore(h: Store, ctx: nat, name: string, n: nat) returns (ok: bool)
    requires h.Valid() && ctx < |h.objs| && n < |h.objs|
    modifies h
    ensures h.Valid()
    ensures Written(h.objs, ok) == SetHost(old(h.objs), Ref(ctx), name, n)
  {
    var keys := Split(name, ".");
    var inter, last := Init(keys), Last(keys);
    var context := Ref(ctx);
    ghost var start := context;
    var i := 0;
    while i < |inter|
      invariant 0 <= i <= |inter|
      invariant h.Valid() && IsSlot(context, |h.objs|) && n < |h.objs|
      invariant HostWalk(old(h.objs), start, inter) == HostWalk(h.objs, context, inter[i..])
    {
      assert inter[i..][0] == inter[i] && inter[i..][1..] == inter[i + 1..];
      var stepped;
      context, stepped := HostStepInPlace(h, context, inter[i]);
      if !stepped {
        return false;
      }
      i := i + 1;
    }
    if !context.Ref? {
      return false;
    }
    var o := context.oid;
    var cur := Get(h.objs[o], last);
    if cur.Some? && Truthy(cur.value) {
      var src := StoredProps(h.objs, cur.value);
      OwnSlots(h.objs, cur.value);
      ExtendInPlace(h, n, src);
    }
    h.Store(o, last, Ref(n));
    return true;
  }

  /** The own properties of a value in a well-formed store hold slot values. */
  lemma OwnSlots(objs: seq<Dict>, v: Value)
    requires WellFormed(objs)
    ensures forall i :: 0 <= i < |StoredProps(objs, v)| ==> IsSlot(StoredProps(objs, v)[i].val, |objs|)
  {
  }

  // ---------------------------------------------------------------------
  // Declarations and the loader

  /**
   * What the host throws: `go.Carcas.Exceptions.AlreadyInited`,
   * `ModuleRedeclare`, `ControllerRedeclare`, `ErrorDependence` and
   * `MainInstanceCreated`, a native TypeError, or an error of `go.Class`
   * or of `new` on a class.
   */
  datatype HostError =
    | AlreadyInited
    | ModuleRedeclare
    | ControllerRedeclare
    | ErrorDependence
    | MainInstanceCreated
    | NativeTypeError
    | ClassFailure(error: ClassError)

  /** An error of `normalizeDeps` or of the name split, as the host throws it. */
  function FromDep(e: Deps.DepError): HostError {
    match e
    case TypeError => NativeTypeError
    case ErrorDependence => ErrorDependence
  }

  /** A call the host makes to its `go.__Loader`. */
  datatype LoaderCall =
    | Include(names: seq<string>)
    | Preload(name: string, deps: seq<string>, data: Value)
    | Loaded(name: string, deps: seq<string>, data: Value)
    | CreatePreloaded

  /**
   * `module(name, deps, CModule)` with prefix "mo", `controller(name, deps,
   * props)` with prefix "c": the loader call it makes, or what it throws.
   * A falsy third argument means the second is the data and there are no
   * dependencies. Before `init` the declaration is preloaded without a
   * redeclaration check; after it, a name already created is refused.
   */
  function Declare(prefix: string, name: string, deps: Value, data: Value, inited: bool, created: set<string>): Result<LoaderCall, HostError> {
    var (d, x) := if !Truthy(data) then (Arr([]), deps) else (deps, data);
    match Deps.Normalize(d, prefix)
    case Fail(e) => Fail(FromDep(e))
    case Ok(list) =>
      if !inited then Ok(Preload(prefix + ":" + name, list, x))
      else if name in created then Fail(if prefix == "mo" then ModuleRedeclare else ControllerRedeclare)
      else Ok(Loaded(prefix + ":" + name, list, x))
  }

  /** The two-argument form declares the second argument as the data, with no dependencies. */
  lemma TwoArgumentForm(prefix: string, name: string, data: Value, inited: bool, created: set<string>)
    requires Truthy(data)
    ensures Declare(prefix, name, data, Undefined, inited, created)
         == Declare(prefix, name, Arr([]), data, inited, created)
    ensures Declare(prefix, name, data, Undefined, inited, created).Ok?
         <==> (!inited || name !in created)
    ensures Declare(prefix, name, data, Undefined, inited, created).Ok? ==>
            Declare(prefix, name, data, Undefined, inited, created).value.deps == []
  {
    Deps.ArrayForm([], prefix);
  }

  /** Before `init` a declaration is never refused as a redeclaration, even of a created name. */
  lemma PreloadUnchecked(prefix: string, name: string, deps: Value, data: Value, created: set<string>)
    ensures var r := Declare(prefix, name, deps, data, false, created);
      (r.Ok? ==> r.value.Preload? && r.value.name == prefix + ":" + name)
      && (r.Fail? ==> r.error == NativeTypeError)
  {
  }

  /**
   * After `init` a declaration whose dependencies normalize is refused
   * exactly when its name was already created, with the error of its kind;
   * otherwise it is forwarded as loaded.
   */
  lemma RedeclareIff(prefix: string, name: string, deps: Value, data: Value, created: set<string>)
    requires prefix == "c" || prefix == "mo"
    requires Deps.Normalize(if !Truthy(data) then Arr([]) else deps, prefix).Ok?
    ensures var r := Declare(prefix, name, deps, data, true, created);
      && (r.Fail? <==> name in created)
      && (r.Fail? ==> r.error == (if prefix == "mo" then ModuleRedeclare else ControllerRedeclare))
      && (r.Ok? ==> r.value.Loaded? && r.value.name == prefix + ":" + name)
  {
  }

  /**
   * The name a declaration hands the loader comes back through the creator
   * callback as the creation of that controller or module, when the name
   * has no `:`.
   */
  lemma DeclaredNameCreates(prefix: string, name: string, deps: Value, data: Value, inited: bool, created: set<string>)
    requires prefix == "c" || prefix == "mo"
    requires ':' !in name
    requires Declare(prefix, name, deps, data, inited, created).Ok?
    ensures Deps.Creator(Declare(prefix, name, deps, data, inited, created).value.name)
         == Ok(if prefix == "c" then Deps.NewController(name) else Deps.NewModule(name))
  {
    Deps.CreatorByPrefix(prefix, name);
  }

  /** `go.Lang.each(controllers, c => "c:" + c)` after a single string became a one-item array. */
  function ControllerNames(controllers: Value): seq<string> {
    match controllers
    case Str(s) => ["c:" + s]
    case Arr(items) => seq(|items|, i requires 0 <= i < |items| => "c:" + ToStr(items[i]))
    case _ => []
  }

  /**
   * Each controller name gets the prefix `c:`, in order; a single string is
   * treated as the one-item array holding it.
   */
  lemma ControllerNamesMeaning(controllers: Value)
    ensures controllers.Str? ==> ControllerNames(controllers) == ["c:" + controllers.s]
    ensures controllers.Str? ==> ControllerNames(controllers) == ControllerNames(Arr([controllers]))
    ensures controllers.Arr? ==> (|ControllerNames(controllers)| == |controllers.items|
      && forall i :: 0 <= i < |controllers.items| ==> ControllerNames(controllers)[i] == "c:" + ToStr(controllers.items[i]))
  {
    if controllers.Str? {
      assert ControllerNames(Arr([controllers]))[0] == "c:" + ToStr(controllers);
    }
  }

  /** Every controller `init` asks the loader for names a script under the controllers folder, when it has no `:`. */
  lemma InitNamesIncludable(items: seq<Value>, root: Value)
    requires forall i :: 0 <= i < |items| ==> ':' !in ToStr(items[i])
    ensures forall i :: 0 <= i < |items| ==>
      Deps.Include(ControllerNames(Arr(items))[i], root)
        == Ok(Deps.JSFile(ToStr(root) + "/controllers/" + ReplaceChar(ToStr(items[i]), '.', '/') + ".js"))
  {
    forall i | 0 <= i < |items|
      ensures Deps.Include(ControllerNames(Arr(items))[i], root)
        == Ok(Deps.JSFile(ToStr(root) + "/controllers/" + ReplaceChar(ToStr(items[i]), '.', '/') + ".js"))
    {
      ControllerNamesMeaning(Arr(items));
      assert ControllerNames(Arr(items))[i] == "c" + ":" + ToStr(items[i]);
      Deps.IncludeScript("c", ToStr(items[i]), root);
    }
  }

  /** The loader calls of `init`: the controllers to include, when given, then `createPreloaded`. */
  function InitCalls(controllers: Value): (r: seq<LoaderCall>)
    ensures |r| >= 1 && r[|r| - 1] == CreatePreloaded
    ensures |r| == 2 <==> Truthy(controllers)
    ensures Truthy(controllers) ==> r[0] == Include(ControllerNames(controllers))
  {
    (if Truthy(controllers) then [Include(ControllerNames(controllers))] else []) + [CreatePreloaded]
  }

  /** `typeof registry === "object" ? registry : {}`: objects, arrays and null are kept. */
  function RegistryOf(v: Value): (r: Value)
    ensures r == v || r == Obj([])
    ensures (v.Obj? || v.Arr? || v.Ref? || v == Null) <==> r == v
  {
    if v.Obj? || v.Arr? || v.Ref? || v == Null then v else Obj([])
  }

  /**
   * What `includerForLoader(name)` requests, or what it throws: the loader
   * name split, then, for a library, the `libsLoader` given to `init`,
   * which must be a function.
   */
  function IncludeOutcome(name: string, root: Value, libsLoader: Value): (r: Result<Deps.Request, HostError>)
    ensures r.Fail? ==> r.error == ErrorDependence || r.error == NativeTypeError
    ensures r == Fail(NativeTypeError) <==> Deps.Include(name, root).Ok? && Deps.Include(name, root).value.OtherLib? && !(libsLoader.Fn? || libsLoader.Cls?)
    ensures r.Ok? ==> Deps.Include(name, root) == Ok(r.value)
  {
    match Deps.Include(name, root)
    case Fail(e) => Fail(FromDep(e))
    case Ok(req) =>
      if req.OtherLib? && !(libsLoader.Fn? || libsLoader.Cls?) then Fail(NativeTypeError) else Ok(req)
  }

  /** A lifecycle hook the host calls on a controller. */
  datatype Hook = InitHook(controller: string) | DomLoadHook(controller: string) | OnLoadHook(controller: string)

  /** The handler the page's load events call on a controller: `ondomload`, or `onload` once fully loaded. */
  function HookFor(full: bool, name: string): (r: Hook)
    ensures r.controller == name
    ensures r.OnLoadHook? <==> full
  {
    if full then OnLoadHook(name) else DomLoadHook(name)
  }

  /**
   * The hooks a controller created late gets at once: `init` once the DOM
   * has loaded (status 1), then also `onload` once the page has (status 2).
   */
  function LateHooks(name: string, status: nat): (r: seq<Hook>)
    ensures |r| == (if status < 2 then status else 2)
    ensures status >= 1 ==> r[0] == InitHook(name)
    ensures status >= 2 ==> r[1] == OnLoadHook(name)
  {
    (if status > 0 then [InitHook(name)] else []) + (if status > 1 then [OnLoadHook(name)] else [])
  }

  // ---------------------------------------------------------------------
  // go.Carcas.Controller

  /** The flags among the props of `go.Carcas.Controller`. */
  function ControllerProps(): Dict {
    [Prop(ClassnameKey, Str("go.Carcas.Controller")), Prop(AbstractKey, Bool(true))]
  }

  /**
   * `go.Class([null, ...], ControllerProps)`: the base class of controllers
   * is created with Root as its main parent, and it is abstract.
   */
  lemma ControllerClassMade(cs: seq<ClassInfo>)
    requires Ordered(cs) && |cs| >= 1 && !cs[0].isFinal
    ensures Create(cs, Arr([Null]), Obj(ControllerProps())).Ok?
    ensures var info := Create(cs, Arr([Null]), Obj(ControllerProps())).value;
      && info.parent == Some(0) && info.others == []
      && info.isAbstract && !info.isFinal && info.classname == Str("go.Carcas.Controller")
  {
    var d := ControllerProps();
    assert PropOf(d, AbstractKey) == Bool(true);
    assert PropOf(d, FinalKey) == Undefined;
    assert PropOf(d, ClassnameKey) == Str("go.Carcas.Controller");
    NullHeadExtendsRoot(cs, d);
  }

  /** `go.Class([null], props)` makes a direct subclass of Root without mixins, with the flags of its props. */
  lemma NullHeadExtendsRoot(cs: seq<ClassInfo>, d: Dict)
    requires Ordered(cs) && |cs| >= 1 && !cs[0].isFinal
    ensures Create(cs, Arr([Null]), Obj(d)).Ok?
    ensures var info := Create(cs, Arr([Null]), Obj(d)).value;
      && info.parent == Some(0) && info.others == []
      && info.isAbstract == Truthy(PropOf(d, AbstractKey))
      && info.isFinal == Truthy(PropOf(d, FinalKey))
      && info.classname == (if Truthy(PropOf(d, ClassnameKey)) then PropOf(d, ClassnameKey) else Str("go.class"))
  {
    var props := Obj(d);
    assert Arr([Null]).items[1..] == [];
    assert Separate(Arr([Null]), |cs|) == Ok((Cls(0), []));
    assert NoFinal(cs, Cls(0), []);
    assert Check(cs, Arr([Null]), props) == Ok(Plan(Some(0), [], d));
    FlagsFromOwnProps(cs, Arr([Null]), props);
  }

  // ---------------------------------------------------------------------
  // The host instance

  /** The fields of a host instance that its methods reassign. */
  datatype HostState = HostState(
    inited: bool,
    loadedStatus: nat,
    root: Value,
    registry: Value,
    libsLoader: Value,
    loadedC: map<string, nat>,
    loadedMo: map<string, nat>,
    loader: seq<LoaderCall>,
    requests: seq<Deps.Request>,
    hooks: seq<Hook>)

  /**
   * A `go.Carcas` instance. `loadedC` and `loadedMo` are
   * `loadedObjects.c` and `loadedObjects.mo`: each created name and its
   * stored object. `controllersList` and `modulesList` are the stored
   * registry objects that `setByPath` writes. `loader` records the calls
   * made to the `go.__Loader`, `requests` the scripts, go modules and
   * libraries the includer callback asked for, and `hooks` the lifecycle
   * hooks called on controllers created late.
   */
  class Carcas {
    var inited: bool
    var loadedStatus: nat
    var root: Value
    var registry: Value
    var libsLoader: Value
    var loadedC: map<string, nat>
    var loadedMo: map<string, nat>
    var loader: seq<LoaderCall>
    var requests: seq<Deps.Request>
    var hooks: seq<Hook>
    const store: Store
    const controllersList: nat
    const modulesList: nat
    const table: ClassTable
    const controllerClass: nat

    function Fields(): HostState
      reads this
    {
      HostState(inited, loadedStatus, root, registry, libsLoader, loadedC, loadedMo, loader, requests, hooks)
    }

    /**
     * The registries are two distinct stored objects, the store holds only
     * objects, every created name maps to a stored object, the status is
     * 0, 1 or 2, and the controller base class exists.
     */
    ghost predicate Valid()
      reads this, store, table
    {
      && store.Valid() && AllRefs(store.objs)
      && controllersList < |store.objs| && modulesList < |store.objs| && controllersList != modulesList
      && (forall k :: k in loadedC ==> loadedC[k] < |store.objs|)
      && (forall k :: k in loadedMo ==> loadedMo[k] < |store.objs|)
      && loadedStatus <= 2
      && table.Valid() && controllerClass < |table.classes|
    }

    /** Nothing the host owns has changed. */
    twostate predicate Untouched()
      reads this, store, table
    {
      Fields() == old(Fields()) && store.objs == old(store.objs) && table.classes == old(table.classes)
    }

    /** `__construct`: empty registries, nothing created, not initialised, status 0. */
    constructor (table: ClassTable, controllerClass: nat)
      requires table.Valid() && controllerClass < |table.classes|
      ensures Valid() && fresh(store)
      ensures this.table == table && this.controllerClass == controllerClass
      ensures Fields() == HostState(false, 0, Null, Null, Null, map[], map[], [], [], [])
      ensures store.objs == [[], [], []] && controllersList == 1 && modulesList == 2
    {
      var s := new Store();
      var c := s.Alloc();
      var m := s.Alloc();
      this.table := table;
      this.controllerClass := controllerClass;
      store := s;
      controllersList := c;
      modulesList := m;
      inited := false;
      loadedStatus := 0;
      root := Null;
      registry := Null;
      libsLoader := Null;
      loadedC := map[];
      loadedMo := map[];
      loader := [];
      requests := [];
      hooks := [];
      new;
      assert forall o :: 0 <= o < |store.objs| ==> store.objs[o] == [];
    }

    /**
     * `init(params)`: a second call throws AlreadyInited. The flag is set
     * before `params` is read, so a call without params throws a TypeError
     * and still counts as the one initialisation.
     */
    method Init(params: Value) returns (thrown: Option<HostError>)
      requires Valid()
      modifies this
      ensures Valid()
      ensures old(inited) ==> thrown == Some(AlreadyInited) && Fields() == old(Fields())
      ensures !old(inited) && (params == Undefined || params == Null) ==>
        thrown == Some(NativeTypeError) && Fields() == old(Fields()).(inited := true)
      ensures !old(inited) && params != Undefined && params != Null ==>
        && thrown == None
        && Fields() == old(Fields()).(
             inited := true,
             root := Deps.Field(params, "root"),
             registry := RegistryOf(Deps.Field(params, "registry")),
             libsLoader := Deps.Field(params, "libsLoader"),
             loader := old(loader) + InitCalls(Deps.Field(params, "controllers")))
    {
      if inited {
        return Some(AlreadyInited);
      }
      inited := true;
      if params == Undefined || params == Null {
        return Some(NativeTypeError);
      }
      var calls := InitLoaderCalls(Deps.Field(params, "controllers"));
      Configure(params);
      loader := loader + calls;
      thrown := None;
    }

    /** What `init` keeps from its params: the root, the registry, and the libraries' loader. */
    method Configure(params: Value)
      requires Valid()
      modifies this
      ensures Valid()
      ensures Fields() == old(Fields()).(
             root := Deps.Field(params, "root"),
             registry := RegistryOf(Deps.Field(params, "registry")),
             libsLoader := Deps.Field(params, "libsLoader"))
    {
      var reg := Deps.Field(params, "registry");
      root := Deps.Field(params, "root");
      registry := if reg.Obj? || reg.Arr? || reg.Ref? || reg == Null then reg else Obj([]);
      libsLoader := Deps.Field(params, "libsLoader");
    }

    /**
     * The loader calls at the end of `init`: the controllers to include,
     * a single name taken as a one-item list, then `createPreloaded`.
     */
    static method InitLoaderCalls(controllers: Value) returns (calls: seq<LoaderCall>)
      ensures calls == InitCalls(controllers)
    {
      var list := controllers;
      calls := [];
      if Truthy(list) {
        if list.Str? {
          list := Arr([list]);
        }
        ControllerNamesMeaning(controllers);
        calls := [Include(ControllerNames(list))];
      }
      calls := calls + [CreatePreloaded];
    }

    /** `module(name, deps, CModule)`. */
    method Module(name: string, deps: Value, cmodule: Value) returns (thrown: Option<HostError>)
      requires Valid()
      modifies this
      ensures Valid()
      ensures match Declare("mo", name, deps, cmodule, old(inited), old(loadedMo).Keys)
        case Ok(call) => thrown == None && Fields() == old(Fields()).(loader := old(loader) + [call])
        case Fail(e) => thrown == Some(e) && Fields() == old(Fields())
    {
      var declared := DeclareCall("mo", name, deps, cmodule, inited, loadedMo.Keys);
      match declared
      case Fail(e) =>
        return Some(e);
      case Ok(call) =>
        loader := loader + [call];
        return None;
    }

    /** `controller(name, deps, props)`. */
    method Controller(name: string, deps: Value, props: Value) returns (thrown: Option<HostError>)
      requires Valid()
      modifies this
      ensures Valid()
      ensures match Declare("c", name, deps, props, old(inited), old(loadedC).Keys)
        case Ok(call) => thrown == None && Fields() == old(Fields()).(loader := old(loader) + [call])
        case Fail(e) => thrown == Some(e) && Fields() == old(Fields())
    {
      var declared := DeclareCall("c", name, deps, props, inited, loadedC.Keys);
      match declared
      case Fail(e) =>
        return Some(e);
      case Ok(call) =>
        loader := loader + [call];
        return None;
    }

    /**
     * The checks `module` and `controller` make before calling the loader:
     * the dependency normalisation, then the redeclaration check after
     * `init`.
     */
    static method DeclareCall(prefix: string, name: string, deps: Value, data: Value, inited: bool, created: set<string>)
      returns (r: Result<LoaderCall, HostError>)
      ensures r == Declare(prefix, name, deps, data, inited, created)
    {
      var d, x := deps, data;
      if !Truthy(x) {
        x := d;
        d := Arr([]);
      }
      var list := Deps.NormalizeDeps(d, prefix);
      if list.Fail? {
        return Fail(FromDep(list.error));
      }
      if !inited {
        return Ok(Preload(prefix + ":" + name, list.value, x));
      }
      if name in created {
        return Fail(if prefix == "mo" then ModuleRedeclare else ControllerRedeclare);
      }
      return Ok(Loaded(prefix + ":" + name, list.value, x));
    }

    /** `includerForLoader(name)`: the request it makes, or what it throws. */
    method IncluderForLoader(name: string) returns (thrown: Option<HostError>)
      requires Valid()
      modifies this
      ensures Valid()
      ensures match IncludeOutcome(name, old(root), old(libsLoader))
        case Ok(req) => thrown == None && Fields() == old(Fields()).(requests := old(requests) + [req])
        case Fail(e) => thrown == Some(e) && Fields() == old(Fields())
    {
      var parts := Deps.Halves(name);
      if |parts| != 2 {
        return Some(ErrorDependence);
      }
      var prefix, n := parts[0], parts[1];
      var folder;
      if prefix == "c" {
        folder := "controllers";
      } else if prefix == "mo" {
        folder := "modules";
      } else if prefix == "go" {
        requests := requests + [Deps.GoModule(n)];
        return None;
      } else if prefix == "l" {
        if !(libsLoader.Fn? || libsLoader.Cls?) {
          return Some(NativeTypeError);
        }
        requests := requests + [Deps.OtherLib(n)];
        return None;
      } else {
        return Some(ErrorDependence);
      }
      requests := requests + [Deps.JSFile(Deps.ScriptPath(root, folder, n))];
      return None;
    }

    /** `createController(name, props)`, as `ControllerCreated` states it. */
    method CreateController(name: string, props: Value) returns (thrown: Option<HostError>)
      requires Valid() && KnownParents(props, |table.classes|)
      modifies this, store, table
      ensures Valid()
      ensures ControllerCreated(name, props, thrown)
    {
      if name in loadedC {
        return Some(ControllerRedeclare);
      }
      var made := table.Class(Cls(controllerClass), props);
      if made.Fail? {
        return Some(ClassFailure(made.error));
      }
      assert Create(old(table.classes), Cls(controllerClass), props).Ok?;
      ghost var info := Create(old(table.classes), Cls(controllerClass), props).value;
      var c := made.value.cid;
      assert c == |old(table.classes)| && table.classes[c] == info;
      if table.classes[c].isAbstract {
        return Some(ClassFailure(Abstract));
      }
      PlaceController(name);
      return None;
    }

    /**
     * `setByPath(list, name, new object)`: a new stored object, placed at
     * the dotted name in one of the two registries. Instances are modelled
     * as empty objects, so every step of the path is a stored object or is
     * created as one, and the placement always succeeds.
     */
    method Instantiate(list: nat, name: string) returns (n: nat)
      requires Valid() && (list == controllersList || list == modulesList)
      modifies store
      ensures store.Valid() && AllRefs(store.objs) && n < |store.objs|
      ensures n == |old(store.objs)|
      ensures Written(store.objs, true) == SetHost(old(store.objs) + [[]], Ref(list), name, n)
    {
      ghost var before := store.objs;
      n := store.Alloc();
      AllRefsAlloc(before);
      SetHostKeepsRefs(store.objs, list, name, n);
      ghost var w := SetHost(store.objs, Ref(list), name, n);
      var ok := SetInStore(store, list, name, n);
      assert ok && store.objs == w.objs;
    }

    /**
     * The instance of a created controller class: a new stored object,
     * placed at the dotted name in `controllersList`, recorded under the
     * name, and given the hooks that match the page's load status.
     */
    method PlaceController(name: string)
      requires Valid()
      modifies this, store
      ensures Valid()
      ensures var n := |old(store.objs)|;
        && Written(store.objs, true) == SetHost(old(store.objs) + [[]], Ref(controllersList), name, n)
        && Fields() == old(Fields()).(
             loadedC := old(loadedC)[name := n],
             hooks := old(hooks) + LateHooks(name, old(loadedStatus)))
    {
      var n := Instantiate(controllersList, name);
      var late: seq<Hook> := [];
      if loadedStatus > 0 {
        late := [InitHook(name)];
        if loadedStatus > 1 {
          late := late + [OnLoadHook(name)];
        }
      }
      assert late == LateHooks(name, loadedStatus);
      loadedC := loadedC[name := n];
      hooks := hooks + late;
    }

    /**
     * What `createController(name, props)` does: a created name throws
     * ControllerRedeclare; otherwise `go.Class(Carcas.Controller, props)`
     * is created (or throws), then instantiated, which throws for an
     * abstract class; the instance is a new stored object, placed at the
     * dotted name in `controllersList` and recorded under the name, and it
     * gets the hooks that match the page's load status.
     */
    twostate predicate ControllerCreated(name: string, props: Value, new thrown: Option<HostError>)
      requires old(Valid()) && KnownParents(props, |old(table.classes)|)
      reads this, store, table
    {
      if name in old(loadedC) then thrown == Some(ControllerRedeclare) && Untouched()
      else match Create(old(table.classes), Cls(controllerClass), props)
        case Fail(e) => thrown == Some(ClassFailure(e)) && Untouched()
        case Ok(info) =>
          && table.classes == old(table.classes) + [info]
          && if info.isAbstract then
               thrown == Some(ClassFailure(Abstract)) && Fields() == old(Fields()) && store.objs == old(store.objs)
             else
               var n := |old(store.objs)|;
               && thrown == None
               && Written(store.objs, true) == SetHost(old(store.objs) + [[]], Ref(controllersList), name, n)
               && Fields() == old(Fields()).(
                    loadedC := old(loadedC)[name := n],
                    hooks := old(hooks) + LateHooks(name, old(loadedStatus)))
    }

    /**
     * `createModule(name, CModule)`: a created name throws ModuleRedeclare;
     * otherwise `new CModule(this)` is made, which throws a TypeError when
     * CModule is not a function and the Abstract error for an abstract
     * class; the module is a new stored object, placed at the dotted name
     * in `modulesList` and recorded under the name.
     */
    method CreateModule(name: string, cmodule: Value) returns (thrown: Option<HostError>)
      requires Valid() && Known(cmodule, |table.classes|)
      modifies this, store
      ensures Valid()
      ensures ModuleCreated(name, cmodule, thrown)
    {
      if name in loadedMo {
        return Some(ModuleRedeclare);
      }
      if !(cmodule.Fn? || cmodule.Cls?) {
        return Some(NativeTypeError);
      }
      if cmodule.Cls? && table.classes[cmodule.cid].isAbstract {
        return Some(ClassFailure(Abstract));
      }
      var n := Instantiate(modulesList, name);
      loadedMo := loadedMo[name := n];
      return None;
    }

    /** What `createModule(name, CModule)` does, as `CreateModule` describes it. */
    twostate predicate ModuleCreated(name: string, cmodule: Value, new thrown: Option<HostError>)
      requires old(Valid()) && Known(cmodule, |old(table.classes)|)
      reads this, store, table
    {
      if name in old(loadedMo) then thrown == Some(ModuleRedeclare) && Untouched()
      else if !(cmodule.Fn? || cmodule.Cls?) then thrown == Some(NativeTypeError) && Untouched()
      else if cmodule.Cls? && old(table.classes)[cmodule.cid].isAbstract then
        thrown == Some(ClassFailure(Abstract)) && Untouched()
      else
        var n := |old(store.objs)|;
        && thrown == None
        && table.classes == old(table.classes)
        && Written(store.objs, true) == SetHost(old(store.objs) + [[]], Ref(modulesList), name, n)
        && Fields() == old(Fields()).(loadedMo := old(loadedMo)[name := n])
    }

    /**
     * `creatorForLoader(name, data)`: the loader hands over a loaded
     * controller or module; go modules and libraries create nothing, and a
     * name without a known prefix throws ErrorDependence.
     */
    method CreatorForLoader(name: string, data: Value) returns (thrown: Option<HostError>)
      requires Valid() && KnownParents(data, |table.classes|)
      modifies this, store, table
      ensures Valid()
      ensures match Deps.Creator(name)
        case Fail(_) => thrown == Some(ErrorDependence) && Untouched()
        case Ok(NoCreation) => thrown == None && Untouched()
        case Ok(NewController(n)) => ControllerCreated(n, data, thrown)
        case Ok(NewModule(n)) => ModuleCreated(n, data, thrown)
    {
      var parts := Deps.Halves(name);
      if |parts| != 2 {
        return Some(ErrorDependence);
      }
      var prefix, n := parts[0], parts[1];
      if prefix == "c" {
        thrown := CreateController(n, data);
      } else if prefix == "mo" {
        thrown := CreateModule(n, data);
      } else if prefix == "go" || prefix == "l" {
        thrown := None;
      } else {
        thrown := Some(ErrorDependence);
      }
    }

    /**
     * Calls a load handler on every created controller: `ondomload` when
     * `full` is false, `onload` when it is true. The handlers are recorded
     * in `hooks`, one per controller.
     */
    method NotifyControllers(full: bool)
      requires Valid()
      modifies this
      ensures Valid()
      ensures Fields() == old(Fields()).(hooks := hooks)
      ensures |hooks| == |old(hooks)| + |loadedC.Keys|
      ensures hooks[..|old(hooks)|] == old(hooks)
      ensures forall k :: k in loadedC ==> HookFor(full, k) in hooks[|old(hooks)|..]
      ensures forall h :: h in hooks[|old(hooks)|..] ==> h.controller in loadedC && h == HookFor(full, h.controller)
    {
      var todo := loadedC.Keys;
      var added: seq<Hook> := [];
      while todo != {}
        invariant todo <= loadedC.Keys
        invariant |added| + |todo| == |loadedC.Keys|
        invariant forall k :: k in loadedC && k !in todo ==> HookFor(full, k) in added
        invariant forall h :: h in added ==> h.controller in loadedC && h.controller !in todo && h == HookFor(full, h.controller)
        decreases todo
      {
        var k :| k in todo;
        added := added + [HookFor(full, k)];
        todo := todo - {k};
      }
      hooks := hooks + added;
      assert hooks[|old(hooks)|..] == added;
    }

    /** `ondomload()`: the status becomes 1 and every created controller's `ondomload` runs. */
    method OnDomLoad()
      requires Valid()
      modifies this
      ensures Valid()
      ensures Fields() == old(Fields()).(loadedStatus := 1, hooks := hooks)
      ensures |hooks| == |old(hooks)| + |loadedC.Keys| && hooks[..|old(hooks)|] == old(hooks)
      ensures forall k :: k in loadedC ==> DomLoadHook(k) in hooks[|old(hooks)|..]
      ensures forall h :: h in hooks[|old(hooks)|..] ==> h == DomLoadHook(h.controller) && h.controller in loadedC
    {
      loadedStatus := 1;
      NotifyControllers(false);
    }

    /** `onload()`: the status becomes 2 and every created controller's `onload` runs. */
    method OnLoad()
      requires Valid()
      modifies this
      ensures Valid()
      ensures Fields() == old(Fields()).(loadedStatus := 2, hooks := hooks)
      ensures |hooks| == |old(hooks)| + |loadedC.Keys| && hooks[..|old(hooks)|] == old(hooks)
      ensures forall k :: k in loadedC ==> OnLoadHook(k) in hooks[|old(hooks)|..]
      ensures forall h :: h in hooks[|old(hooks)|..] ==> h == OnLoadHook(h.controller) && h.controller in loadedC
    {
      loadedStatus := 2;
      NotifyControllers(true);
    }
  }

  // ---------------------------------------------------------------------
  // The statics of go.Carcas

  /**
   * `go.Carcas` itself: the class table in which `go.Carcas.Controller`
   * is created when the script runs, and the main instance, which
   * `getInstance` creates lazily and `setInstance` may set once.
   */
  class CarcasStatics {
    var instance: Option<Carcas>
    const table: ClassTable
    const controllerClass: nat

    /** The controller base class exists, has Root as its parent and is abstract. */
    ghost predicate Valid()
      reads this, table
    {
      && table.Valid() && 0 < controllerClass < |table.classes|
      && table.classes[controllerClass].parent == Some(0)
      && table.classes[controllerClass].isAbstract
    }

    /** `Carcas.Controller = go.Class([null, ...], {...})`; no main instance yet. */
    constructor (table: ClassTable)
      requires table.Valid()
      modifies table
      ensures Valid() && instance.None? && this.table == table
      ensures controllerClass == |old(table.classes)|
      ensures table.classes == old(table.classes) + [Create(old(table.classes), Arr([Null]), Obj(ControllerProps())).value]
    {
      ControllerClassMade(table.classes);
      var made := table.Class(Arr([Null]), Obj(ControllerProps()));
      this.table := table;
      controllerClass := made.value.cid;
      instance := None;
    }

    /** `getInstance()`: the main instance, created on the first call. */
    method GetInstance() returns (c: Carcas)
      requires Valid()
      modifies this
      ensures Valid()
      ensures old(instance).Some? ==> c == old(instance).value && instance == old(instance)
      ensures old(instance).None? ==>
        && fresh(c) && instance == Some(c) && c.Valid()
        && c.table == table && c.controllerClass == controllerClass
        && c.Fields() == HostState(false, 0, Null, Null, Null, map[], map[], [], [], [])
    {
      if instance.None? {
        var made := new Carcas(table, controllerClass);
        instance := Some(made);
      }
      c := instance.value;
    }

    /** `setInstance(instance)`: throws MainInstanceCreated once a main instance exists. */
    method SetInstance(given: Option<Carcas>) returns (thrown: Option<HostError>)
      requires Valid()
      modifies this
      ensures Valid()
      ensures old(instance).Some? ==> thrown == Some(MainInstanceCreated) && instance == old(instance)
      ensures old(instance).None? ==> thrown == None && instance == given
    {
      if instance.Some? {
        return Some(MainInstanceCreated);
      }
      instance := given;
      thrown := None;
    }
  }
}

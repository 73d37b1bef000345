/**
 * `go.Lang.getByPath` and `go.Lang.setByPath` (src/LangExt.js): reading and
 * writing a value at a dotted path inside nested objects. The objects live
 * in a `Heap.Store`, so `setByPath` updates them in place as the source
 * does. LangExt.js is not strict-mode code: writing a property of a
 * primitive is silently ignored, reading one gives `undefined`.
 */
module Paths {
  import opened Wrappers
  import opened Strings
  import opened Js
  import opened Heap

  /** A path: a string of dot-separated keys, or the list of keys itself. */
  datatype PathArg = Dotted(s: string) | Keys(ks: seq<string>)

  /** The keys a path names: a string path is its `split(".")`. */
  function PathKeys(path: PathArg): seq<string> {
    match path
    case Dotted(s) => Split(s, ".")
    case Keys(ks) => ks
  }

  /** `context || global`. */
  function Start(ctx: Value): Value {
    if Truthy(ctx) then ctx else Ref(Global)
  }

  /**
   * The own properties `hasOwnProperty` finds on a value: those of a stored
   * object or of an object given by value, and for an array its indices and
   * `length`. Primitives, functions and classes have none here.
   */
  function Own(objs: seq<Dict>, ctx: Value): Dict {
    match ctx
    case Ref(_) => StoredProps(objs, ctx)
    case Obj(d) => d
    case Arr(items) => IndexProps(items)
    case _ => []
  }

  /** An array's own properties: each index under its decimal name, then `length`. */
  function IndexProps(items: seq<Value>): (r: Dict)
    ensures |r| == |items| + 1
    ensures forall i :: 0 <= i < |items| ==> r[i] == Prop(NatToStr(i), items[i])
    ensures r[|items|] == Prop("length", Num(|items|))
  {
    IndexEntries(items) + [Prop("length", Num(|items|))]
  }

  /**
   * What the read loop of `getByPath` ends with: the value at the end of the
   * path, or the default at the first context that is falsy or lacks the
   * next key as an own property.
   */
  function Lookup(objs: seq<Dict>, ctx: Value, keys: seq<string>, dflt: Value): Value
    decreases |keys|
  {
    if keys == [] then ctx
    else if !(Truthy(ctx) && Get(Own(objs, ctx), keys[0]).Some?) then dflt
    else Lookup(objs, Get(Own(objs, ctx), keys[0]).value, keys[1..], dflt)
  }

  /** The store and context after walking part of a path; `ok` is false once a TypeError is thrown. */
  datatype Walked = Walked(objs: seq<Dict>, ctx: Value, ok: bool)

  /**
   * One pass of the loop of `setByPath`: an existing own property is
   * followed; a missing one is first set to a new empty object. `null` or
   * `undefined` as the context throws; any other primitive ignores the write
   * and yields `undefined` as the next context.
   */
  function Step(objs: seq<Dict>, ctx: Value, p: string): (w: Walked)
    ensures |w.objs| >= |objs|
  {
    match ctx
    case Undefined => Walked(objs, ctx, false)
    case Null => Walked(objs, ctx, false)
    case Ref(o) =>
      if o >= |objs| then Walked(objs, ctx, false)
      else
        (match Get(objs[o], p)
         case Some(next) => Walked(objs, next, true)
         case None => Walked(objs[o := Put(objs[o], p, Ref(|objs|))] + [[]], Ref(|objs|), true))
    case _ => Walked(objs, Undefined, true)
  }

  /** The loop of `setByPath` over all keys but the last; it stops at the first TypeError. */
  function Walk(objs: seq<Dict>, ctx: Value, inter: seq<string>): (w: Walked)
    ensures |w.objs| >= |objs|
    decreases |inter|
  {
    if inter == [] then Walked(objs, ctx, true)
    else
      var s := Step(objs, ctx, inter[0]);
      if !s.ok then s else Walk(s.objs, s.ctx, inter[1..])
  }

  /** The store after a write and whether it completed without a TypeError. */
  datatype Written = Written(objs: seq<Dict>, ok: bool)

  /** `context[key] = value` at the end of the walk. */
  function Assign(objs: seq<Dict>, ctx: Value, key: string, v: Value): Written {
    match ctx
    case Undefined => Written(objs, false)
    case Null => Written(objs, false)
    case Ref(o) => if o < |objs| then Written(objs[o := Put(objs[o], key, v)], true) else Written(objs, false)
    case _ => Written(objs, true)
  }

  /** All keys of the path but the last. */
  function Init(keys: seq<string>): seq<string> {
    if |keys| == 0 then [] else keys[..|keys| - 1]
  }

  /** `path[path.length - 1]`; for an empty path that reads index -1, which is the key "undefined". */
  function Last(keys: seq<string>): string {
    if |keys| == 0 then "undefined" else keys[|keys| - 1]
  }

  /** The walk over the intermediate keys, then the final assignment. */
  function WalkSet(objs: seq<Dict>, ctx: Value, inter: seq<string>, last: string, v: Value): Written {
    var w := Walk(objs, ctx, inter);
    if !w.ok then Written(w.objs, false) else Assign(w.objs, w.ctx, last, v)
  }

  /** What `setByPath(context, path, value)` does to the store. */
  function SetPath(objs: seq<Dict>, ctx: Value, keys: seq<string>, v: Value): Written {
    WalkSet(objs, Start(ctx), Init(keys), Last(keys), v)
  }

  /** `go.Lang.getByPath(context, path, bydefault)`. */
  method GetByPath(h: Store, ctx: Value, path: PathArg, dflt: Value) returns (r: Value)
    ensures r == Lookup(h.objs, Start(ctx), PathKeys(path), dflt)
  {
    var keys := PathKeys(path);
    var context := Start(ctx);
    var i := 0;
    while i < |keys|
      invariant 0 <= i <= |keys|
      invariant Lookup(h.objs, context, keys[i..], dflt) == Lookup(h.objs, Start(ctx), keys, dflt)
    {
      var p := keys[i];
      assert keys[i..][0] == p && keys[i..][1..] == keys[i + 1..];
      var own := Own(h.objs, context);
      if !(Truthy(context) && Get(own, p).Some?) {
        return dflt;
      }
      context := Get(own, p).value;
      i := i + 1;
    }
    r := context;
  }

  /** One pass of the loop of `setByPath`, in place. */
  method StepInPlace(h: Store, ctx: Value, p: string) returns (next: Value, ok: bool)
    requires h.Valid() && IsSlot(ctx, |h.objs|)
    modifies h
    ensures h.Valid() && IsSlot(next, |h.objs|)
    ensures Walked(h.objs, next, ok) == Step(old(h.objs), ctx, p)
  {
    match ctx {
      case Undefined => return ctx, false;
      case Null => return ctx, false;
      case Ref(o) =>
        var found := Get(h.objs[o], p);
        if found.Some? {
          SlotGet(h.objs[o], |h.objs|, p);
          return found.value, true;
        }
        ghost var before := h.objs;
        var n := h.Alloc();
        h.Store(o, p, Ref(n));
        assert h.objs == before[o := Put(before[o], p, Ref(n))] + [[]];
        return Ref(n), true;
      case _ => return Undefined, true;
    }
  }

  /** The loop of `setByPath` over all keys but the last, in place; it stops at the first TypeError. */
  method WalkInPlace(h: Store, ctx: Value, inter: seq<string>) returns (context: Value, ok: bool)
    requires h.Valid() && IsSlot(ctx, |h.objs|)
    modifies h
    ensures h.Valid() && IsSlot(context, |h.objs|)
    ensures Walked(h.objs, context, ok) == Walk(old(h.objs), ctx, inter)
  {
    context := ctx;
    var i := 0;
    while i < |inter|
      invariant 0 <= i <= |inter|
      invariant h.Valid() && IsSlot(context, |h.objs|)
      invariant Walk(old(h.objs), ctx, inter) == Walk(h.objs, context, inter[i..])
    {
      assert inter[i..][0] == inter[i] && inter[i..][1..] == inter[i + 1..];
      var stepped;
      context, stepped := StepInPlace(h, context, inter[i]);
      if !stepped {
        return context, false;
      }
      i := i + 1;
    }
    ok := true;
  }

  /** `go.Lang.setByPath(context, path, value)`; `ok` is false when it throws a TypeError. */
  method SetByPath(h: Store, ctx: Value, path: PathArg, v: Value) returns (ok: bool)
    requires h.Valid() && IsSlot(ctx, |h.objs|) && IsSlot(v, |h.objs|)
    modifies h
    ensures h.Valid()
    ensures Written(h.objs, ok) == SetPath(old(h.objs), ctx, PathKeys(path), v)
  {
    var keys := PathKeys(path);
    var context, walked := WalkInPlace(h, Start(ctx), Init(keys));
    if !walked {
      return false;
    }
    match context {
      case Undefined => return false;
      case Null => return false;
      case Ref(o) =>
        h.Store(o, Last(keys), v);
        return true;
      case _ => return true;
    }
  }

  // ---------------------------------------------------------------------
  // Properties of getByPath and setByPath
  // ---------------------------------------------------------------------

  /** The path leads from `ctx` through truthy contexts that hold each next key as an own property. */
  predicate Resolves(objs: seq<Dict>, ctx: Value, keys: seq<string>)
    decreases |keys|
  {
    keys == []
    || (Truthy(ctx) && Get(Own(objs, ctx), keys[0]).Some?
        && Resolves(objs, Get(Own(objs, ctx), keys[0]).value, keys[1..]))
  }

  /**
   * Looking up `a + b` is looking up `b` from where `a` leads, when `a`
   * resolves; otherwise the lookup stops inside `a` with the default.
   */
  lemma {:induction false} LookupAppend(objs: seq<Dict>, ctx: Value, a: seq<string>, b: seq<string>, dflt: Value)
    ensures Resolves(objs, ctx, a) ==> Lookup(objs, ctx, a + b, dflt) == Lookup(objs, Lookup(objs, ctx, a, dflt), b, dflt)
    ensures !Resolves(objs, ctx, a) ==> Lookup(objs, ctx, a + b, dflt) == dflt
    decreases |a|
  {
    if a == [] {
      assert a + b == b;
    } else {
      assert (a + b)[0] == a[0] && (a + b)[1..] == a[1..] + b;
      if Truthy(ctx) && Get(Own(objs, ctx), a[0]).Some? {
        LookupAppend(objs, Get(Own(objs, ctx), a[0]).value, a[1..], b, dflt);
      }
    }
  }

  /**
   * The stored objects the set walk stands on, in order: the objects reached
   * through existing own properties, up to the one that gets the first
   * missing key or the final assignment.
   */
  function Trail(objs: seq<Dict>, ctx: Value, inter: seq<string>): seq<nat>
    decreases |inter|
  {
    match ctx
    case Ref(o) =>
      if o >= |objs| then []
      else if inter == [] then [o]
      else
        (match Get(objs[o], inter[0])
         case Some(next) => [o] + Trail(objs, next, inter[1..])
         case None => [o])
    case _ => []
  }

  /** Every context the set walk meets through existing properties is a stored object. */
  predicate ObjectsAlong(objs: seq<Dict>, ctx: Value, inter: seq<string>)
    decreases |inter|
  {
    && ctx.Ref? && ctx.oid < |objs|
    && (inter != [] ==>
          match Get(objs[ctx.oid], inter[0])
          case Some(next) => ObjectsAlong(objs, next, inter[1..])
          case None => true)
  }

  /** No object occurs twice. */
  predicate Distinct(s: seq<nat>) {
    forall i, j :: 0 <= i < j < |s| ==> s[i] != s[j]
  }

  /** Setting a path below a new, empty object never throws. */
  lemma {:induction false} SetBelowFreshSucceeds(objs: seq<Dict>, o: nat, inter: seq<string>, last: string, v: Value)
    requires o < |objs| && objs[o] == []
    ensures WalkSet(objs, Ref(o), inter, last, v).ok
    decreases |inter|
  {
    if inter != [] {
      var s := Step(objs, Ref(o), inter[0]);
      assert s.objs[|objs|] == [];
      SetBelowFreshSucceeds(s.objs, |objs|, inter[1..], last, v);
    }
  }

  /** A `setByPath` that throws has changed nothing. */
  lemma {:induction false} FailedSetChangesNothing(objs: seq<Dict>, ctx: Value, inter: seq<string>, last: string, v: Value)
    ensures !WalkSet(objs, ctx, inter, last, v).ok ==> WalkSet(objs, ctx, inter, last, v).objs == objs
    decreases |inter|
  {
    if inter != [] {
      var s := Step(objs, ctx, inter[0]);
      if s.ok {
        if ctx.Ref? && Get(objs[ctx.oid], inter[0]).None? {
          assert s.objs[|objs|] == [];
          SetBelowFreshSucceeds(s.objs, |objs|, inter[1..], last, v);
        } else {
          FailedSetChangesNothing(s.objs, s.ctx, inter[1..], last, v);
        }
      }
    }
  }

  /** Only the stored objects on the trail can change; new objects are only appended. */
  lemma {:induction false} OffTrailUnchanged(objs: seq<Dict>, ctx: Value, inter: seq<string>, last: string, v: Value)
    ensures |WalkSet(objs, ctx, inter, last, v).objs| >= |objs|
    ensures forall x :: 0 <= x < |objs| && x !in Trail(objs, ctx, inter) ==>
              WalkSet(objs, ctx, inter, last, v).objs[x] == objs[x]
    decreases |inter|
  {
    if inter != [] {
      var s := Step(objs, ctx, inter[0]);
      if s.ok {
        OffTrailUnchanged(s.objs, s.ctx, inter[1..], last, v);
        if ctx.Ref? && Get(objs[ctx.oid], inter[0]).None? {
          assert s.objs[|objs|] == [];
          assert Trail(s.objs, s.ctx, inter[1..]) == [|objs|];
        }
      }
    }
  }

  /** Only properties named on the path can change, in any stored object. */
  lemma {:induction false} OffPathKeysUnchanged(objs: seq<Dict>, ctx: Value, inter: seq<string>, last: string, v: Value)
    ensures forall x, k :: 0 <= x < |objs| && k !in inter && k != last ==>
              x < |WalkSet(objs, ctx, inter, last, v).objs| &&
              Get(WalkSet(objs, ctx, inter, last, v).objs[x], k) == Get(objs[x], k)
    decreases |inter|
  {
    OffTrailUnchanged(objs, ctx, inter, last, v);
    if inter != [] {
      var s := Step(objs, ctx, inter[0]);
      if s.ok {
        WalkSetUnfold(objs, ctx, inter, last, v);
        OffPathKeysUnchanged(s.objs, s.ctx, inter[1..], last, v);
        var r := WalkSet(objs, ctx, inter, last, v);
        forall x, k | 0 <= x < |objs| && k !in inter && k != last
          ensures x < |r.objs| && Get(r.objs[x], k) == Get(objs[x], k)
        {
          assert k != inter[0];
          assert k !in inter[1..] by {
            forall i | 0 <= i < |inter| - 1 ensures inter[1..][i] != k {
              assert inter[1..][i] == inter[i + 1];
            }
          }
          assert Get(s.objs[x], k) == Get(objs[x], k);
        }
      }
    }
  }

  /** A step that does not throw hands the rest of the walk to the next context. */
  lemma WalkSetUnfold(objs: seq<Dict>, ctx: Value, inter: seq<string>, last: string, v: Value)
    requires inter != [] && Step(objs, ctx, inter[0]).ok
    ensures WalkSet(objs, ctx, inter, last, v)
         == WalkSet(Step(objs, ctx, inter[0]).objs, Step(objs, ctx, inter[0]).ctx, inter[1..], last, v)
  {
  }

  /** Reading through a stored object that holds the first key continues from that key's value. */
  lemma LookupThrough(objs: seq<Dict>, o: nat, p: string, rest: seq<string>, dflt: Value)
    requires o < |objs| && Get(objs[o], p).Some?
    ensures Lookup(objs, Ref(o), [p] + rest, dflt) == Lookup(objs, Get(objs[o], p).value, rest, dflt)
  {
    assert ([p] + rest)[0] == p && ([p] + rest)[1..] == rest;
  }

  /**
   * `getByPath` on an object given by value, such as the result of
   * `parseQuery`, reads its own properties: a key it holds gives that value,
   * any other key the default.
   */
  lemma ObjectLookup(objs: seq<Dict>, d: Dict, k: string, dflt: Value)
    requires '.' !in k
    ensures Lookup(objs, Start(Obj(d)), PathKeys(Dotted(k)), dflt)
         == if Get(d, k).Some? then Get(d, k).value else dflt
  {
    SplitAbsent(k, '.');
  }

  /** `getByPath` on an array reads an element under its index and the length under "length". */
  lemma ArrayLookup(objs: seq<Dict>, items: seq<Value>, i: nat, dflt: Value)
    requires i < |items|
    ensures Lookup(objs, Arr(items), [NatToStr(i)], dflt) == items[i]
    ensures Lookup(objs, Arr(items), ["length"], dflt) == Num(|items|)
  {
    var r := IndexProps(items);
    forall j | 0 <= j < i ensures r[j].key != NatToStr(i) {
      if NatToStr(j) == NatToStr(i) {
        NatToStrInjective(j, i);
      }
    }
    GetFirst(r, i, NatToStr(i));
    forall j | 0 <= j < |items| ensures r[j].key != "length" {
      assert '0' <= r[j].key[0] <= '9';
    }
    GetFirst(r, |items|, "length");
  }

  /** The first object of a trail without repeats does not recur in the rest, which has no repeats either. */
  lemma DistinctTail(o: nat, t: seq<nat>)
    requires Distinct([o] + t)
    ensures Distinct(t) && o !in t
  {
    forall i, j | 0 <= i < j < |t| ensures t[i] != t[j] {
      assert ([o] + t)[i + 1] == t[i] && ([o] + t)[j + 1] == t[j];
    }
    forall i | 0 <= i < |t| ensures t[i] != o {
      assert ([o] + t)[0] == o && ([o] + t)[i + 1] == t[i];
    }
  }

  /**
   * After the walk and the assignment, reading the whole path gives the
   * value written, provided the walk meets only objects and never the same
   * object twice.
   */
  lemma {:induction false} WalkSetThenLookup(objs: seq<Dict>, ctx: Value, inter: seq<string>, last: string, v: Value, dflt: Value)
    requires ObjectsAlong(objs, ctx, inter) && Distinct(Trail(objs, ctx, inter))
    ensures WalkSet(objs, ctx, inter, last, v).ok
    ensures Lookup(WalkSet(objs, ctx, inter, last, v).objs, ctx, inter + [last], dflt) == v
    decreases |inter|, 1
  {
    var o := ctx.oid;
    if inter == [] {
      var r := WalkSet(objs, ctx, inter, last, v);
      assert inter + [last] == [last];
      assert r.objs[o] == Put(objs[o], last, v);
    } else if Get(objs[o], inter[0]).Some? {
      ThroughExisting(objs, o, inter, last, v, dflt);
    } else {
      ThroughMissing(objs, o, inter, last, v, dflt);
    }
  }

  /** The round trip when the first key already holds the next object. */
  lemma {:induction false} ThroughExisting(objs: seq<Dict>, o: nat, inter: seq<string>, last: string, v: Value, dflt: Value)
    requires o < |objs| && inter != [] && Get(objs[o], inter[0]).Some?
    requires ObjectsAlong(objs, Ref(o), inter) && Distinct(Trail(objs, Ref(o), inter))
    ensures WalkSet(objs, Ref(o), inter, last, v).ok
    ensures Lookup(WalkSet(objs, Ref(o), inter, last, v).objs, Ref(o), inter + [last], dflt) == v
    decreases |inter|, 0
  {
    var p, rest := inter[0], inter[1..];
    var next := Get(objs[o], p).value;
    var t := Trail(objs, next, rest);
    assert Trail(objs, Ref(o), inter) == [o] + t;
    DistinctTail(o, t);
    assert Step(objs, Ref(o), p) == Walked(objs, next, true);
    assert ObjectsAlong(objs, next, rest);
    WalkSetUnfold(objs, Ref(o), inter, last, v);
    WalkSetThenLookup(objs, next, rest, last, v, dflt);
    OffTrailUnchanged(objs, next, rest, last, v);
    var r := WalkSet(objs, Ref(o), inter, last, v);
    assert r == WalkSet(objs, next, rest, last, v);
    assert r.objs[o] == objs[o];
    assert inter + [last] == [p] + (rest + [last]);
    LookupThrough(r.objs, o, p, rest + [last], dflt);
  }

  /** A walk from an empty object stands on that object alone. */
  lemma FreshAlong(objs: seq<Dict>, n: nat, inter: seq<string>)
    requires n < |objs| && objs[n] == []
    ensures Trail(objs, Ref(n), inter) == [n] && ObjectsAlong(objs, Ref(n), inter)
  {
  }

  /** The round trip when the first key is missing and a new object is made for it. */
  lemma {:induction false} ThroughMissing(objs: seq<Dict>, o: nat, inter: seq<string>, last: string, v: Value, dflt: Value)
    requires o < |objs| && inter != [] && Get(objs[o], inter[0]).None?
    ensures WalkSet(objs, Ref(o), inter, last, v).ok
    ensures Lookup(WalkSet(objs, Ref(o), inter, last, v).objs, Ref(o), inter + [last], dflt) == v
    decreases |inter|, 0
  {
    var p, rest := inter[0], inter[1..];
    var n := |objs|;
    var objs1 := objs[o := Put(objs[o], p, Ref(n))] + [[]];
    assert Step(objs, Ref(o), p) == Walked(objs1, Ref(n), true);
    FreshAlong(objs1, n, rest);
    WalkSetUnfold(objs, Ref(o), inter, last, v);
    WalkSetThenLookup(objs1, Ref(n), rest, last, v, dflt);
    OffTrailUnchanged(objs1, Ref(n), rest, last, v);
    var r := WalkSet(objs, Ref(o), inter, last, v);
    assert r.objs[o] == objs1[o] == Put(objs[o], p, Ref(n));
    assert Get(r.objs[o], p) == Some(Ref(n));
    assert inter + [last] == [p] + (rest + [last]);
    LookupThrough(r.objs, o, p, rest + [last], dflt);
  }

  /**
   * `getByPath(ctx, path)` after `setByPath(ctx, path, v)` gives `v`, and the
   * missing intermediate objects were created, when the path is not empty
   * and its walk meets only objects and no object twice.
   */
  lemma SetThenGet(objs: seq<Dict>, ctx: Value, path: PathArg, v: Value, dflt: Value)
    requires |PathKeys(path)| >= 1
    requires ObjectsAlong(objs, Start(ctx), Init(PathKeys(path)))
    requires Distinct(Trail(objs, Start(ctx), Init(PathKeys(path))))
    ensures SetPath(objs, ctx, PathKeys(path), v).ok
    ensures Lookup(SetPath(objs, ctx, PathKeys(path), v).objs, Start(ctx), PathKeys(path), dflt) == v
  {
    var keys := PathKeys(path);
    assert Init(keys) + [Last(keys)] == keys;
    WalkSetThenLookup(objs, Start(ctx), Init(keys), Last(keys), v, dflt);
  }
}

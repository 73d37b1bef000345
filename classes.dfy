/**
 * The class builder `go.Class(parents, props)`: the table of classes created
 * so far, how a new class separates its main parent from its mixins,
 * refuses final parents, builds its prototype and takes its flags from its
 * own props, and how `isSubclassOf` walks the table.
 *
 * Classes are numbered in creation order; class 0 is `go.Class.Root`. A
 * class is a `Cls(id)` value. Its prototype object is its `own` dictionary
 * with the parent's prototype behind it.
 */
module Classes {
  import opened Wrappers
  import opened Strings
  import opened Js

  /**
   * What creation or instantiation throws: `go.Class.Exceptions.Final`,
   * `go.Class.Exceptions.Abstract`, or a native TypeError (a truthy
   * parents value that is neither a function, an array nor a string; a
   * main parent that is not a `go.Class` class; props that are null or
   * undefined, or that lack `__settings.names` when there is no parent; a
   * mixin that is null or undefined met by `isSubclassOf`).
   */
  datatype ClassError = Final | Abstract | TypeError

  /**
   * A created class: its main parent (None only for Root), its mixins as
   * given, the own properties of its prototype, and the static flags that
   * `fillClassProperties` copies onto it.
   */
  datatype ClassInfo = ClassInfo(
    parent: Option<nat>,
    others: seq<Value>,
    own: Dict,
    isAbstract: bool,
    isFinal: bool,
    classname: Value)

  /** Every class's main parent and class-valued mixins were created before it. */
  predicate Ordered(cs: seq<ClassInfo>) {
    forall i :: 0 <= i < |cs| ==>
      && (cs[i].parent.Some? ==> cs[i].parent.value < i)
      && (forall j :: 0 <= j < |cs[i].others| && cs[i].others[j].Cls? ==> cs[i].others[j].cid < i)
  }

  /** A value names no class beyond the first `n`. */
  predicate Known(v: Value, n: nat) {
    v.Cls? ==> v.cid < n
  }

  /** The parents argument names only existing classes, itself or as an array item. */
  predicate KnownParents(v: Value, n: nat) {
    Known(v, n) && (v.Arr? ==> forall i :: 0 <= i < |v.items| ==> Known(v.items[i], n))
  }

  // ---------------------------------------------------------------------
  // Property lookup through the prototype chain

  /** `proto[k]` on class `c`'s prototype: own property first, then the parent chain. */
  function Resolve(cs: seq<ClassInfo>, c: nat, k: string): Option<Value>
    requires Ordered(cs) && c < |cs|
    decreases c
  {
    match Get(cs[c].own, k)
    case Some(v) => Some(v)
    case None =>
      match cs[c].parent
      case None => None
      case Some(p) => Resolve(cs, p, k)
  }

  /** The value an optional property reads as, `undefined` when absent. */
  function Val(o: Option<Value>): Value {
    match o
    case Some(v) => v
    case None => Undefined
  }

  /** `proto[k]` on a prototype under construction: `own` with parent `parent` behind it. */
  function ProtoVal(cs: seq<ClassInfo>, own: Dict, parent: Option<nat>, k: string): Value
    requires Ordered(cs) && (parent.Some? ==> parent.value < |cs|)
  {
    match Get(own, k)
    case Some(v) => v
    case None =>
      match parent
      case None => Undefined
      case Some(p) => Val(Resolve(cs, p, k))
  }

  /** The entries of `d` whose key is not in `keys`. */
  function Hide(d: Dict, keys: seq<string>): Dict
  {
    if d == [] then []
    else if d[0].key in keys then Hide(d[1..], keys)
    else [d[0]] + Hide(d[1..], keys)
  }

  /** A hidden key reads as absent; any other reads as before. */
  lemma {:induction false} HideGet(d: Dict, keys: seq<string>, k: string)
    ensures Get(Hide(d, keys), k) == if k in keys then None else Get(d, k)
  {
    if d != [] {
      HideGet(d[1..], keys, k);
      if d[0].key !in keys {
        var r := [d[0]] + Hide(d[1..], keys);
        assert r[0] == d[0] && r[1..] == Hide(d[1..], keys);
      }
    }
  }

  /**
   * What `for (k in proto)` visits on class `c`'s prototype: its own
   * properties, then the inherited ones it does not shadow.
   */
  function Visible(cs: seq<ClassInfo>, c: nat): Dict
    requires Ordered(cs) && c < |cs|
    decreases c
  {
    match cs[c].parent
    case None => cs[c].own
    case Some(p) => cs[c].own + Hide(Visible(cs, p), KeysOf(cs[c].own))
  }

  /** The first property with key `k` of a concatenation comes from the first part when it has one. */
  lemma GetAppend(a: Dict, b: Dict, k: string)
    ensures Get(a + b, k) == if Get(a, k).Some? then Get(a, k) else Get(b, k)
  {
    if a != [] {
      assert (a + b)[1..] == a[1..] + b;
      GetAppend(a[1..], b, k);
    } else {
      assert a + b == b;
    }
  }

  /** A `for..in` over a class prototype sees, for every key, exactly the value a property read gives. */
  lemma {:induction false} VisibleResolves(cs: seq<ClassInfo>, c: nat, k: string)
    requires Ordered(cs) && c < |cs|
    ensures Get(Visible(cs, c), k) == Resolve(cs, c, k)
    decreases c
  {
    match cs[c].parent
    case None =>
    case Some(p) =>
      VisibleResolves(cs, p, k);
      GetKeys(cs[c].own, k);
      HideGet(Visible(cs, p), KeysOf(cs[c].own), k);
      GetAppend(cs[c].own, Hide(Visible(cs, p), KeysOf(cs[c].own)), k);
  }

  // ---------------------------------------------------------------------
  // The arguments and the parents

  /** `__construct`: called with a falsy `props`, `go.Class` takes its first argument as the props and no parents. */
  function Arguments(parents: Value, props: Value): (r: (Value, Value))
  {
    if Truthy(props) then (parents, props) else (Null, parents)
  }

  /**
   * `separateParents`: the main parent and the mixins. A falsy main parent
   * becomes Root once Root exists (`n > 0`). A non-empty string is indexed
   * and sliced like an array: its first character is the main parent and
   * the rest, taken character by character, are the mixins (the main
   * parent then fails `ParentId`). Any other truthy parents value that is
   * not a function or an array has no usable `slice` and throws here.
   */
  function Separate(parents: Value, n: nat): (r: Result<(Value, seq<Value>), ClassError>)
    ensures r.Fail? <==> Truthy(parents) && !parents.Fn? && !parents.Cls? && !parents.Arr? && !parents.Str?
    ensures r.Ok? && KnownParents(parents, n) ==>
      Known(r.value.0, n) && forall i :: 0 <= i < |r.value.1| ==> Known(r.value.1[i], n)
    ensures r.Ok? && n > 0 ==> Truthy(r.value.0)
    ensures Truthy(parents) && parents.Str? ==>
      r.Ok? && r.value.0 == Str([parents.s[0]]) && |r.value.1| == |parents.s| - 1
      && forall i :: 0 <= i < |r.value.1| ==> r.value.1[i] == Str([parents.s[i + 1]])
  {
    var split: Result<(Value, seq<Value>), ClassError> :=
      if !Truthy(parents) then Ok((Null, []))
      else if parents.Fn? || parents.Cls? then Ok((parents, []))
      else if parents.Arr? then
        Ok((if |parents.items| > 0 then parents.items[0] else Undefined,
            if |parents.items| > 0 then parents.items[1..] else []))
      else if parents.Str? then
        Ok((Str([parents.s[0]]), seq(|parents.s| - 1, i requires 0 <= i < |parents.s| - 1 => Str([parents.s[i + 1]]))))
      else Fail(TypeError);
    match split
    case Fail(e) => Fail(e)
    case Ok((parent, others)) =>
      Ok((if !Truthy(parent) && n > 0 then Cls(0) else parent, others))
  }

  /** `parent.final` on a parent value: a class's flag, or the `final` property of a plain object. */
  function FinalFlag(cs: seq<ClassInfo>, v: Value): bool
    requires Known(v, |cs|)
  {
    match v
    case Cls(c) => cs[c].isFinal
    case Obj(d) => Truthy(PropOf(d, "final"))
    case _ => false
  }

  /** `checkParentsNoFinal`: the main parent is not final and no function-valued mixin is. */
  predicate NoFinal(cs: seq<ClassInfo>, parent: Value, others: seq<Value>)
    requires Known(parent, |cs|) && forall i :: 0 <= i < |others| ==> Known(others[i], |cs|)
  {
    && !(Truthy(parent) && FinalFlag(cs, parent))
    && forall i :: 0 <= i < |others| && (others[i].Fn? || others[i].Cls?) ==> !FinalFlag(cs, others[i])
  }

  /** `new C.parent.Fake()`: a truthy main parent must be a class built by `go.Class`. */
  function ParentId(parent: Value): (r: Result<Option<nat>, ClassError>)
    ensures r.Ok? && r.value.Some? ==> parent == Cls(r.value.value)
    ensures r.Ok? && r.value.None? <==> !Truthy(parent)
  {
    if !Truthy(parent) then Ok(None)
    else if parent.Cls? then Ok(Some(parent.cid))
    else Fail(TypeError)
  }

  // ---------------------------------------------------------------------
  // The prototype

  /**
   * The own enumerable properties of a props or mixin value: a plain
   * object's entries, an array's or a string's indexed items; other
   * primitives have none.
   */
  function OwnEntries(v: Value): Dict {
    match v
    case Obj(d) => d
    case Arr(items) => IndexEntries(items)
    case Str(s) => IndexEntries(seq(|s|, i requires 0 <= i < |s| => Str([s[i]])))
    case _ => []
  }

  /** `go.Lang.extend(dest, src)`: each property of `src` in turn is assigned onto `dest`. */
  function Extend(dest: Dict, src: Dict): Dict
    decreases |src|
  {
    if src == [] then dest else Extend(Put(dest, src[0].key, src[0].val), src[1..])
  }

  /** The value of the last entry with key `k`, if any. */
  function LastGet(d: Dict, k: string): (r: Option<Value>)
    ensures r.None? <==> k !in KeysOf(d)
  {
    if d == [] then None
    else if d[|d| - 1].key == k then assert KeysOf(d)[|d| - 1] == k; Some(d[|d| - 1].val)
    else
      assert KeysOf(d) == KeysOf(d[..|d| - 1]) + [d[|d| - 1].key];
      LastGet(d[..|d| - 1], k)
  }

  /** After `extend`, a key reads as the last value `src` gives it, or as before when `src` lacks it. */
  lemma {:induction false} ExtendGet(dest: Dict, src: Dict, k: string)
    ensures Get(Extend(dest, src), k) == if LastGet(src, k).Some? then LastGet(src, k) else Get(dest, k)
    decreases |src|
  {
    if src != [] {
      ExtendGet(Put(dest, src[0].key, src[0].val), src[1..], k);
      LastGetCons(src, k);
    }
  }

  /** `LastGet` seen from the front: the rest's last value, else the head's. */
  lemma {:induction false} LastGetCons(d: Dict, k: string)
    requires d != []
    ensures LastGet(d, k) == if LastGet(d[1..], k).Some? then LastGet(d[1..], k)
                             else if d[0].key == k then Some(d[0].val) else None
    decreases |d|
  {
    if |d| > 1 && d[|d| - 1].key != k {
      LastGetCons(d[..|d| - 1], k);
      assert d[..|d| - 1][1..] == d[1..][..|d[1..]| - 1];
      assert d[..|d| - 1][0] == d[0];
    }
  }

  /**
   * `createBlankPrototype`: the props copied onto an object whose prototype
   * is the parent's, then `constructor` and `$self` pointing at the new
   * class `c`.
   */
  function BlankProto(props: Dict, c: nat): Dict {
    Put(Put(Extend([], props), "constructor", Cls(c)), "$self", Cls(c))
  }

  /**
   * What `applyOtherParents` copies from one mixin: a class's visible
   * prototype properties, nothing from a plain function's prototype, and
   * the own enumerable properties of any other truthy value.
   */
  function MixinEntries(cs: seq<ClassInfo>, m: Value): Dict
    requires Ordered(cs) && Known(m, |cs|)
  {
    match m
    case Cls(c) => Visible(cs, c)
    case Fn(_) => []
    case _ => OwnEntries(m)
  }

  /** The inner loop of `applyOtherParents`: each entry fills its key only if `proto[k]` is still undefined. */
  function ApplyEntries(cs: seq<ClassInfo>, parent: Option<nat>, own: Dict, es: Dict): Dict
    requires Ordered(cs) && (parent.Some? ==> parent.value < |cs|)
    decreases |es|
  {
    if es == [] then own
    else
      var own' := if ProtoVal(cs, own, parent, es[0].key) == Undefined then Put(own, es[0].key, es[0].val) else own;
      ApplyEntries(cs, parent, own', es[1..])
  }

  /** `applyOtherParents`: the mixins in order. */
  function ApplyMixins(cs: seq<ClassInfo>, parent: Option<nat>, own: Dict, ms: seq<Value>): Dict
    requires Ordered(cs) && (parent.Some? ==> parent.value < |cs|)
    requires forall i :: 0 <= i < |ms| ==> Known(ms[i], |cs|)
    decreases |ms|
  {
    if ms == [] then own
    else ApplyMixins(cs, parent, ApplyEntries(cs, parent, own, MixinEntries(cs, ms[0])), ms[1..])
  }

  /** The first defined value among the entries with key `k`, or `undefined`. */
  function FirstDefined(es: Dict, k: string): Value {
    if es == [] then Undefined
    else if es[0].key == k && es[0].val != Undefined then es[0].val
    else FirstDefined(es[1..], k)
  }

  /** All the entries the mixins offer, in order. */
  function AllMixinEntries(cs: seq<ClassInfo>, ms: seq<Value>): Dict
    requires Ordered(cs) && forall i :: 0 <= i < |ms| ==> Known(ms[i], |cs|)
    decreases |ms|
  {
    if ms == [] then [] else MixinEntries(cs, ms[0]) + AllMixinEntries(cs, ms[1..])
  }

  // ---------------------------------------------------------------------
  // Settings and the whole creation

  /** The key names of Root's settings; a class's own `__settings` does not rename them here. */
  const SettingsKey := "__settings"
  const AbstractKey := "__abstract"
  const FinalKey := "__final"
  const ClassnameKey := "__classname"

  /**
   * `loadSettings`: the flags are read from the class's own props; a key
   * the props define is deleted from the prototype (`__settings` only
   * when truthy); `classname` falls back to "go.class".
   */
  function Settle(props: Dict, proto: Dict, parent: Option<nat>, others: seq<Value>): (info: ClassInfo)
  {
    var s := PropOf(props, SettingsKey);
    var a := PropOf(props, AbstractKey);
    var f := PropOf(props, FinalKey);
    var n := PropOf(props, ClassnameKey);
    var p1 := if Truthy(s) then Delete(proto, SettingsKey) else proto;
    var p2 := if a != Undefined then Delete(p1, AbstractKey) else p1;
    var p3 := if f != Undefined then Delete(p2, FinalKey) else p2;
    var p4 := if n != Undefined then Delete(p3, ClassnameKey) else p3;
    ClassInfo(parent, others, p4, Truthy(a), Truthy(f), if Truthy(n) then n else Str("go.class"))
  }

  /**
   * The props of a class without a parent supply `__settings.names`:
   * `loadSettings` starts such a class from empty settings, extends them
   * with a truthy `__settings`, and then reads `names.abstract`, which
   * throws when `names` is null or undefined.
   */
  predicate NamesGiven(props: Dict) {
    var s := PropOf(props, SettingsKey);
    var names := PropOf(Extend([], OwnEntries(s)), "names");
    Truthy(s) && names != Undefined && names != Null
  }

  /** What the checks of `create` hand on to the building steps: the main parent's id, the mixins and the props' entries. */
  datatype Plan = Plan(parent: Option<nat>, others: seq<Value>, props: Dict)

  /** A plan refers only to classes of the table. */
  predicate Fits(cs: seq<ClassInfo>, plan: Plan) {
    && (plan.parent.Some? ==> plan.parent.value < |cs|)
    && forall i :: 0 <= i < |plan.others| ==> Known(plan.others[i], |cs|)
  }

  /**
   * The checks of `create`, in the source's order: the parents' shape
   * (`separateParents`), no final parent (`checkParentsNoFinal`), a main
   * parent with a `Fake` (`createBlankPrototype`), and props one can read
   * keys from, which name the settings keys when there is no parent
   * (`loadSettings`).
   */
  function Prepare(cs: seq<ClassInfo>, parents0: Value, props0: Value): (r: Result<Plan, ClassError>)
    requires Ordered(cs) && KnownParents(parents0, |cs|) && KnownParents(props0, |cs|)
    ensures r.Ok? ==> Fits(cs, r.value)
    ensures r.Ok? ==> r.value.props == OwnEntries(Arguments(parents0, props0).1)
    ensures r.Ok? ==> (r.value.parent.Some? <==> |cs| > 0)
  {
    var (parents, props) := Arguments(parents0, props0);
    Check(cs, parents, props)
  }

  /** The checks, on the arguments as `__construct` stored them. */
  function Check(cs: seq<ClassInfo>, parents: Value, props: Value): (r: Result<Plan, ClassError>)
    requires Ordered(cs) && KnownParents(parents, |cs|)
    ensures r.Ok? ==> Fits(cs, r.value) && r.value.props == OwnEntries(props)
    ensures r.Ok? ==> (r.value.parent.Some? <==> |cs| > 0)
  {
    match Separate(parents, |cs|)
    case Fail(e) => Fail(e)
    case Ok((parent, others)) =>
      if !NoFinal(cs, parent, others) then Fail(Final)
      else match ParentId(parent)
        case Fail(e) => Fail(e)
        case Ok(pid) =>
          if props == Undefined || props == Null then Fail(TypeError)
          else if pid.None? && !NamesGiven(OwnEntries(props)) then Fail(TypeError)
          else Ok(Plan(pid, others, OwnEntries(props)))
  }

  /** The building steps of `create`: blank prototype, mixins, settings. */
  function Build(cs: seq<ClassInfo>, plan: Plan): (info: ClassInfo)
    requires Ordered(cs) && Fits(cs, plan)
    ensures info.parent == plan.parent && info.others == plan.others
  {
    Settle(plan.props, ApplyMixins(cs, plan.parent, BlankProto(plan.props, |cs|), plan.others), plan.parent, plan.others)
  }

  /** The checks, then the building steps, on the arguments as `__construct` stored them. */
  function Made(cs: seq<ClassInfo>, parents: Value, props: Value): Result<ClassInfo, ClassError>
    requires Ordered(cs) && KnownParents(parents, |cs|)
  {
    match Check(cs, parents, props)
    case Fail(e) => Fail(e)
    case Ok(plan) => Ok(Build(cs, plan))
  }

  /**
   * `go.Class(parents, props)` on a table `cs`: the new class, numbered
   * `|cs|`, or the error `create` throws.
   */
  function Create(cs: seq<ClassInfo>, parents: Value, props: Value): Result<ClassInfo, ClassError>
    requires Ordered(cs) && KnownParents(parents, |cs|) && KnownParents(props, |cs|)
  {
    match Prepare(cs, parents, props)
    case Fail(e) => Fail(e)
    case Ok(plan) => Ok(Build(cs, plan))
  }

  /** `new C()`: an abstract class throws; otherwise the instance is of class `c`. */
  function Instantiate(cs: seq<ClassInfo>, c: nat): (r: Result<nat, ClassError>)
    requires c < |cs|
    ensures r.Fail? <==> cs[c].isAbstract
    ensures r.Fail? ==> r.error == Abstract
    ensures r.Ok? ==> r.value == c
  {
    if cs[c].isAbstract then Fail(Abstract) else Ok(c)
  }

  // ---------------------------------------------------------------------
  // isSubclassOf

  /**
   * `C.isSubclassOf(w)`: itself; else false without a parent; else the
   * main parent's answer when true; else each mixin in turn: equal to `w`,
   * a TypeError when it is null or undefined, a class's own answer when
   * true. Values are compared with `==`, identity for classes and functions.
   */
  function IsSub(cs: seq<ClassInfo>, c: nat, w: Value): Result<bool, ClassError>
    requires Ordered(cs) && c < |cs|
    decreases c, 1, 0
  {
    if w == Cls(c) then Ok(true)
    else match cs[c].parent
      case None => Ok(false)
      case Some(p) =>
        match IsSub(cs, p, w)
        case Fail(e) => Fail(e)
        case Ok(true) => Ok(true)
        case Ok(false) => MixinsSub(cs, c, w, 0)
  }

  /** The loop over the mixins of class `c`, from index `i`. */
  function MixinsSub(cs: seq<ClassInfo>, c: nat, w: Value, i: nat): Result<bool, ClassError>
    requires Ordered(cs) && c < |cs| && i <= |cs[c].others|
    decreases c, 0, |cs[c].others| - i
  {
    if i == |cs[c].others| then Ok(false)
    else
      var m := cs[c].others[i];
      if w == m then Ok(true)
      else if m == Undefined || m == Null then Fail(TypeError)
      else if m.Cls? then
        match IsSub(cs, m.cid, w)
        case Fail(e) => Fail(e)
        case Ok(true) => Ok(true)
        case Ok(false) => MixinsSub(cs, c, w, i + 1)
      else MixinsSub(cs, c, w, i + 1)
  }

  /**
   * No class has a null or undefined mixin, so `isSubclassOf` never
   * throws, and a class without a parent has no mixins (as Root), so none
   * are skipped.
   */
  predicate Clean(cs: seq<ClassInfo>) {
    && (forall i, j :: 0 <= i < |cs| && 0 <= j < |cs[i].others| ==>
          cs[i].others[j] != Undefined && cs[i].others[j] != Null)
    && (forall i :: 0 <= i < |cs| && cs[i].parent.None? ==> cs[i].others == [])
  }

  /** The superclass relation as a reachability question: `w` is `c`, or is reached through the parent or a mixin. */
  ghost predicate Reaches(cs: seq<ClassInfo>, c: nat, w: Value)
    requires Ordered(cs) && c < |cs|
    decreases c
  {
    || w == Cls(c)
    || (cs[c].parent.Some? && Reaches(cs, cs[c].parent.value, w))
    || SomeMixinReaches(cs, c, w, 0)
  }

  /** Some mixin of class `c` from index `i` on reaches `w`. */
  ghost predicate SomeMixinReaches(cs: seq<ClassInfo>, c: nat, w: Value, i: nat)
    requires Ordered(cs) && c < |cs|
    decreases c, 1
  {
    exists j :: i <= j < |cs[c].others| && MixinReaches(cs, c, j, w)
  }

  /** Mixin `j` of class `c` is `w` or is a class that reaches `w`. */
  ghost predicate MixinReaches(cs: seq<ClassInfo>, c: nat, j: nat, w: Value)
    requires Ordered(cs) && c < |cs| && j < |cs[c].others|
    decreases c, 0
  {
    var m := cs[c].others[j];
    m == w || (m.Cls? && Reaches(cs, m.cid, w))
  }

  // ---------------------------------------------------------------------
  // Lemmas: the prototype

  /**
   * One mixin's entries leave a defined `proto[k]` alone and otherwise
   * give `k` the first defined value the mixin offers for it.
   */
  lemma {:induction false} ApplyEntriesVal(cs: seq<ClassInfo>, parent: Option<nat>, own: Dict, es: Dict, k: string)
    requires Ordered(cs) && (parent.Some? ==> parent.value < |cs|)
    ensures ProtoVal(cs, ApplyEntries(cs, parent, own, es), parent, k)
         == if ProtoVal(cs, own, parent, k) != Undefined then ProtoVal(cs, own, parent, k) else FirstDefined(es, k)
    decreases |es|
  {
    if es != [] {
      var own' := if ProtoVal(cs, own, parent, es[0].key) == Undefined then Put(own, es[0].key, es[0].val) else own;
      if es[0].key != k {
        assert Get(own', k) == Get(own, k);
      }
      ApplyEntriesVal(cs, parent, own', es[1..], k);
    }
  }

  /** The first defined value in a concatenation comes from the first part when it has one. */
  lemma {:induction false} FirstDefinedAppend(a: Dict, b: Dict, k: string)
    ensures FirstDefined(a + b, k) == if FirstDefined(a, k) != Undefined then FirstDefined(a, k) else FirstDefined(b, k)
  {
    if a == [] {
      assert a + b == b;
    } else {
      assert (a + b)[0] == a[0] && (a + b)[1..] == a[1..] + b;
      FirstDefinedAppend(a[1..], b, k);
    }
  }

  /**
   * All mixins together: a key already defined on the prototype keeps its
   * value; an undefined one takes the first defined value any mixin
   * offers, earlier mixins before later ones.
   */
  lemma {:induction false} ApplyMixinsVal(cs: seq<ClassInfo>, parent: Option<nat>, own: Dict, ms: seq<Value>, k: string)
    requires Ordered(cs) && (parent.Some? ==> parent.value < |cs|)
    requires forall i :: 0 <= i < |ms| ==> Known(ms[i], |cs|)
    ensures ProtoVal(cs, ApplyMixins(cs, parent, own, ms), parent, k)
         == if ProtoVal(cs, own, parent, k) != Undefined then ProtoVal(cs, own, parent, k)
            else FirstDefined(AllMixinEntries(cs, ms), k)
    decreases |ms|
  {
    if ms != [] {
      var es := MixinEntries(cs, ms[0]);
      var own' := ApplyEntries(cs, parent, own, es);
      ApplyEntriesVal(cs, parent, own, es, k);
      ApplyMixinsVal(cs, parent, own', ms[1..], k);
      FirstDefinedAppend(es, AllMixinEntries(cs, ms[1..]), k);
    }
  }

  /** Appending a class to the table does not change how the earlier classes resolve keys. */
  lemma {:induction false} ResolveAppend(cs: seq<ClassInfo>, info: ClassInfo, c: nat, k: string)
    requires Ordered(cs) && Ordered(cs + [info]) && c < |cs|
    ensures Resolve(cs + [info], c, k) == Resolve(cs, c, k)
    decreases c
  {
    assert (cs + [info])[c] == cs[c];
    if Get(cs[c].own, k).None? && cs[c].parent.Some? {
      ResolveAppend(cs, info, cs[c].parent.value, k);
    }
  }

  /** The keys `createBlankPrototype` and `loadSettings` set or delete themselves. */
  predicate Special(k: string) {
    k in ["constructor", "$self", SettingsKey, AbstractKey, FinalKey, ClassnameKey]
  }

  /** A key read through a parent: `undefined` without one. */
  function Inherited(cs: seq<ClassInfo>, parent: Option<nat>, k: string): Value
    requires Ordered(cs) && (parent.Some? ==> parent.value < |cs|)
  {
    match parent
    case None => Undefined
    case Some(p) => Val(Resolve(cs, p, k))
  }

  /** A created class records a parent and mixins that existed before it, so the table stays ordered; only Root lacks a parent. */
  lemma CreateOrdered(cs: seq<ClassInfo>, parents: Value, props: Value)
    requires Ordered(cs) && KnownParents(parents, |cs|) && KnownParents(props, |cs|)
    requires Create(cs, parents, props).Ok?
    ensures Ordered(cs + [Create(cs, parents, props).value])
    ensures Create(cs, parents, props).value.parent.Some? <==> |cs| > 0
  {
    var info := Create(cs, parents, props).value;
    var plan := Prepare(cs, parents, props).value;
    var cs' := cs + [info];
    forall i | 0 <= i < |cs'|
      ensures cs'[i].parent.Some? ==> cs'[i].parent.value < i
      ensures forall j :: 0 <= j < |cs'[i].others| && cs'[i].others[j].Cls? ==> cs'[i].others[j].cid < i
    {
      if i < |cs| {
        assert cs'[i] == cs[i];
      } else {
        assert cs'[i] == info;
      }
    }
  }

  /** Lookup order on a built prototype, for a key that creation does not set or delete itself. */
  lemma BuildLookup(cs: seq<ClassInfo>, plan: Plan, k: string)
    requires Ordered(cs) && Fits(cs, plan) && !Special(k)
    requires Ordered(cs + [Build(cs, plan)])
    ensures
      var base := if LastGet(plan.props, k).Some? then LastGet(plan.props, k).value else Inherited(cs, plan.parent, k);
      Val(Resolve(cs + [Build(cs, plan)], |cs|, k))
        == if base != Undefined then base else FirstDefined(AllMixinEntries(cs, plan.others), k)
  {
    var info := Build(cs, plan);
    var blank := BlankProto(plan.props, |cs|);
    var proto := ApplyMixins(cs, plan.parent, blank, plan.others);
    assert Get(info.own, k) == Get(proto, k);
    var cs' := cs + [info];
    assert cs'[|cs|] == info;
    if Get(info.own, k).None? && plan.parent.Some? {
      ResolveAppend(cs, info, plan.parent.value, k);
    }
    assert Val(Resolve(cs', |cs|, k)) == ProtoVal(cs, proto, plan.parent, k);
    ApplyMixinsVal(cs, plan.parent, blank, plan.others, k);
    ExtendGet([], plan.props, k);
    assert Get(blank, k) == Get(Extend([], plan.props), k);
  }

  /**
   * The lookup order on a new class's prototype, for every key that
   * creation does not set or delete itself: the props, else the main
   * parent chain; when that gives `undefined`, the first defined value
   * offered by the mixins in order.
   */
  lemma LookupOrder(cs: seq<ClassInfo>, parents: Value, props: Value, k: string)
    requires Ordered(cs) && KnownParents(parents, |cs|) && KnownParents(props, |cs|)
    requires Create(cs, parents, props).Ok? && !Special(k)
    ensures
      var info := Create(cs, parents, props).value;
      var pe := OwnEntries(Arguments(parents, props).1);
      var base := if LastGet(pe, k).Some? then LastGet(pe, k).value else Inherited(cs, info.parent, k);
      && Ordered(cs + [info])
      && Val(Resolve(cs + [info], |cs|, k)) == if base != Undefined then base else FirstDefined(AllMixinEntries(cs, info.others), k)
  {
    CreateOrdered(cs, parents, props);
    BuildLookup(cs, Prepare(cs, parents, props).value, k);
  }

  /**
   * `loadSettings` reads `abstract`, `final` and `classname` from the
   * class's own props only, never from its parent, and deletes from the
   * prototype each flag key the props define.
   */
  lemma FlagsFromOwnProps(cs: seq<ClassInfo>, parents: Value, props: Value)
    requires Ordered(cs) && KnownParents(parents, |cs|) && KnownParents(props, |cs|)
    requires Create(cs, parents, props).Ok?
    ensures
      var info := Create(cs, parents, props).value;
      var pe := OwnEntries(Arguments(parents, props).1);
      && info.isAbstract == Truthy(PropOf(pe, AbstractKey))
      && info.isFinal == Truthy(PropOf(pe, FinalKey))
      && info.classname == (if Truthy(PropOf(pe, ClassnameKey)) then PropOf(pe, ClassnameKey) else Str("go.class"))
      && (PropOf(pe, AbstractKey) != Undefined ==> Get(info.own, AbstractKey).None?)
      && (PropOf(pe, FinalKey) != Undefined ==> Get(info.own, FinalKey).None?)
      && (PropOf(pe, ClassnameKey) != Undefined ==> Get(info.own, ClassnameKey).None?)
      && (Truthy(PropOf(pe, SettingsKey)) ==> Get(info.own, SettingsKey).None?)
  {
    var plan := Prepare(cs, parents, props).value;
    var proto := ApplyMixins(cs, plan.parent, BlankProto(plan.props, |cs|), plan.others);
    assert Create(cs, parents, props).value == Settle(plan.props, proto, plan.parent, plan.others);
    SettleFlags(plan.props, proto, plan.parent, plan.others);
  }

  /** The flags `Settle` records and the keys it removes. */
  lemma SettleFlags(props: Dict, proto: Dict, parent: Option<nat>, others: seq<Value>)
    ensures
      var info := Settle(props, proto, parent, others);
      && info.isAbstract == Truthy(PropOf(props, AbstractKey))
      && info.isFinal == Truthy(PropOf(props, FinalKey))
      && info.classname == (if Truthy(PropOf(props, ClassnameKey)) then PropOf(props, ClassnameKey) else Str("go.class"))
      && (PropOf(props, AbstractKey) != Undefined ==> Get(info.own, AbstractKey).None?)
      && (PropOf(props, FinalKey) != Undefined ==> Get(info.own, FinalKey).None?)
      && (PropOf(props, ClassnameKey) != Undefined ==> Get(info.own, ClassnameKey).None?)
      && (Truthy(PropOf(props, SettingsKey)) ==> Get(info.own, SettingsKey).None?)
  {
    var s := PropOf(props, SettingsKey);
    var a := PropOf(props, AbstractKey);
    var f := PropOf(props, FinalKey);
    var n := PropOf(props, ClassnameKey);
    var p1 := if Truthy(s) then Delete(proto, SettingsKey) else proto;
    var p2 := if a != Undefined then Delete(p1, AbstractKey) else p1;
    var p3 := if f != Undefined then Delete(p2, FinalKey) else p2;
    var p4 := if n != Undefined then Delete(p3, ClassnameKey) else p3;
    assert Settle(props, proto, parent, others).own == p4;
    assert Get(p4, SettingsKey) == Get(p1, SettingsKey) by {
      assert Get(p4, SettingsKey) == Get(p3, SettingsKey) == Get(p2, SettingsKey);
    }
    assert Get(p4, AbstractKey) == Get(p2, AbstractKey) by {
      assert Get(p4, AbstractKey) == Get(p3, AbstractKey);
    }
    assert Get(p4, FinalKey) == Get(p3, FinalKey);
  }

  /**
   * A subclass of an abstract class is concrete unless its own props
   * declare `__abstract`: it can be instantiated.
   */
  lemma AbstractNotInherited(cs: seq<ClassInfo>, p: nat, props: Value)
    requires Ordered(cs) && p < |cs| && cs[p].isAbstract && KnownParents(props, |cs|) && Truthy(props)
    requires Create(cs, Cls(p), props).Ok? && PropOf(OwnEntries(props), AbstractKey) == Undefined
    ensures !Create(cs, Cls(p), props).value.isAbstract
    ensures Instantiate(cs + [Create(cs, Cls(p), props).value], |cs|) == Ok(|cs|)
  {
    FlagsFromOwnProps(cs, Cls(p), props);
  }

  /** The parents argument names a final class: the main parent, or a mixin that is a function. */
  ghost predicate FinalAmong(cs: seq<ClassInfo>, parents: Value)
    requires KnownParents(parents, |cs|)
  {
    match parents
    case Cls(p) => cs[p].isFinal
    case Arr(items) =>
      || (|items| > 0 && Truthy(items[0]) && FinalFlag(cs, items[0]))
      || exists i :: 1 <= i < |items| && (items[i].Fn? || items[i].Cls?) && FinalFlag(cs, items[i])
    case _ => false
  }

  /**
   * Creation fails with Final exactly when the main parent is final or a
   * function-valued mixin is; a mixin that is not a function never blocks
   * creation, and Root is not final.
   */
  lemma FinalIff(cs: seq<ClassInfo>, parents: Value, props: Value)
    requires Ordered(cs) && KnownParents(parents, |cs|) && KnownParents(props, |cs|) && Truthy(props)
    requires |cs| > 0 && !cs[0].isFinal
    ensures Create(cs, parents, props) == Fail(Final) <==> FinalAmong(cs, parents)
  {
    var sep := Separate(parents, |cs|);
    if parents.Arr? && sep.Ok? {
      var items := parents.items;
      if |items| > 0 {
        var others := sep.value.1;
        assert others == items[1..];
        assert forall i :: 0 <= i < |others| ==> others[i] == items[i + 1];
        if (exists i :: 1 <= i < |items| && (items[i].Fn? || items[i].Cls?) && FinalFlag(cs, items[i])) {
          var i :| 1 <= i < |items| && (items[i].Fn? || items[i].Cls?) && FinalFlag(cs, items[i]);
          assert others[i - 1] == items[i];
        }
      }
    }
  }

  /**
   * `separateParents` on a successful creation after Root: no parents
   * give Root; a class gives itself and no mixins; an array gives its
   * head (Root when falsy) and its tail as mixins. A truthy parents
   * value that is neither a class nor an array cannot be extended.
   */
  lemma ParentShapes(cs: seq<ClassInfo>, parents: Value, props: Value)
    requires Ordered(cs) && KnownParents(parents, |cs|) && KnownParents(props, |cs|) && Truthy(props) && |cs| > 0
    ensures Truthy(parents) && !parents.Cls? && !parents.Arr? ==> Create(cs, parents, props) == Fail(TypeError)
    ensures Create(cs, parents, props).Ok? ==>
      var info := Create(cs, parents, props).value;
      && (!Truthy(parents) ==> info.parent == Some(0) && info.others == [])
      && (parents.Cls? ==> info.parent == Some(parents.cid) && info.others == [])
      && (parents.Arr? && parents.items == [] ==> info.parent == Some(0) && info.others == [])
      && (parents.Arr? && parents.items != [] ==>
            info.others == parents.items[1..]
            && info.parent == Some(if Truthy(parents.items[0]) then parents.items[0].cid else 0))
  {
    assert Arguments(parents, props) == (parents, props);
    var sep := Separate(parents, |cs|);
    if sep.Ok? && Create(cs, parents, props).Ok? {
      var plan := Prepare(cs, parents, props).value;
      var parent, others := sep.value.0, sep.value.1;
      assert plan.others == others && Ok(plan.parent) == ParentId(parent);
      assert Create(cs, parents, props).value.parent == plan.parent;
      assert Create(cs, parents, props).value.others == others;
    }
  }

  // ---------------------------------------------------------------------
  // Lemmas: isSubclassOf

  /** A class is a subclass of itself, of whatever its parent is a subclass of, and of nothing else when it has no parent. */
  lemma IsSubBasics(cs: seq<ClassInfo>, c: nat, w: Value)
    requires Ordered(cs) && c < |cs|
    ensures IsSub(cs, c, Cls(c)) == Ok(true)
    ensures cs[c].parent.None? && w != Cls(c) ==> IsSub(cs, c, w) == Ok(false)
    ensures cs[c].parent.Some? && IsSub(cs, cs[c].parent.value, w) == Ok(true) ==> IsSub(cs, c, w) == Ok(true)
  {
  }

  /** In a table where only class 0 lacks a parent, every class is a subclass of Root, whatever its mixins. */
  lemma {:induction false} SubclassOfRoot(cs: seq<ClassInfo>, c: nat)
    requires Ordered(cs) && c < |cs|
    requires forall i :: 0 < i < |cs| ==> cs[i].parent.Some?
    ensures IsSub(cs, c, Cls(0)) == Ok(true)
    decreases c
  {
    if c != 0 {
      SubclassOfRoot(cs, cs[c].parent.value);
    }
  }

  /** On a clean table `isSubclassOf` answers the reachability question. */
  lemma {:induction false} IsSubReaches(cs: seq<ClassInfo>, c: nat, w: Value)
    requires Ordered(cs) && Clean(cs) && c < |cs|
    ensures IsSub(cs, c, w) == Ok(Reaches(cs, c, w))
    decreases c, 1, 0
  {
    if w != Cls(c) {
      match cs[c].parent
      case None =>
        assert cs[c].others == [];
      case Some(p) =>
        IsSubReaches(cs, p, w);
        if !Reaches(cs, p, w) {
          MixinsReach(cs, c, w, 0);
          assert IsSub(cs, p, w) == Ok(false);
          assert IsSub(cs, c, w) == MixinsSub(cs, c, w, 0);
        }
    }
  }

  /** The mixin loop from index `i` answers whether some mixin from `i` on reaches `w`. */
  lemma {:induction false} MixinsReach(cs: seq<ClassInfo>, c: nat, w: Value, i: nat)
    requires Ordered(cs) && Clean(cs) && c < |cs| && i <= |cs[c].others|
    ensures MixinsSub(cs, c, w, i) == Ok(SomeMixinReaches(cs, c, w, i))
    decreases c, 0, |cs[c].others| - i
  {
    if i < |cs[c].others| {
      var m := cs[c].others[i];
      if w == m {
        assert MixinReaches(cs, c, i, w);
        assert MixinsSub(cs, c, w, i) == Ok(true);
      } else {
        assert m != Undefined && m != Null;
        if m.Cls? {
          IsSubReaches(cs, m.cid, w);
        }
        if MixinReaches(cs, c, i, w) {
          assert m.Cls? && IsSub(cs, m.cid, w) == Ok(true);
          assert MixinsSub(cs, c, w, i) == Ok(true);
        } else {
          MixinsReach(cs, c, w, i + 1);
          if SomeMixinReaches(cs, c, w, i) {
            var j :| i <= j < |cs[c].others| && MixinReaches(cs, c, j, w);
            assert j != i;
          }
        }
      }
    }
  }

  /** Reachability is transitive. */
  lemma {:induction false} ReachesTransitive(cs: seq<ClassInfo>, a: nat, b: nat, w: Value)
    requires Ordered(cs) && a < |cs| && b < |cs|
    requires Reaches(cs, a, Cls(b)) && Reaches(cs, b, w)
    ensures Reaches(cs, a, w)
    decreases a
  {
    if Cls(b) != Cls(a) {
      if cs[a].parent.Some? && Reaches(cs, cs[a].parent.value, Cls(b)) {
        ReachesTransitive(cs, cs[a].parent.value, b, w);
      } else {
        assert SomeMixinReaches(cs, a, Cls(b), 0);
        var j :| 0 <= j < |cs[a].others| && MixinReaches(cs, a, j, Cls(b));
        var m := cs[a].others[j];
        if m != Cls(b) {
          ReachesTransitive(cs, m.cid, b, w);
        }
        assert MixinReaches(cs, a, j, w);
        assert SomeMixinReaches(cs, a, w, 0);
      }
    }
  }

  /** On a clean table `isSubclassOf` is transitive. */
  lemma IsSubTransitive(cs: seq<ClassInfo>, a: nat, b: nat, w: Value)
    requires Ordered(cs) && Clean(cs) && a < |cs| && b < |cs|
    requires IsSub(cs, a, Cls(b)) == Ok(true) && IsSub(cs, b, w) == Ok(true)
    ensures IsSub(cs, a, w) == Ok(true)
  {
    IsSubReaches(cs, a, Cls(b));
    IsSubReaches(cs, b, w);
    ReachesTransitive(cs, a, b, w);
    IsSubReaches(cs, a, w);
  }

  /** On a clean table a class is a subclass of each of its mixins, and of whatever a class-valued mixin is a subclass of. */
  lemma MixinIsSuper(cs: seq<ClassInfo>, c: nat, j: nat, w: Value)
    requires Ordered(cs) && Clean(cs) && c < |cs| && j < |cs[c].others|
    requires cs[c].others[j] == w || (cs[c].others[j].Cls? && IsSub(cs, cs[c].others[j].cid, w) == Ok(true))
    ensures IsSub(cs, c, w) == Ok(true)
  {
    if cs[c].others[j] != w {
      IsSubReaches(cs, cs[c].others[j].cid, w);
    }
    assert MixinReaches(cs, c, j, w);
    IsSubReaches(cs, c, w);
  }
}

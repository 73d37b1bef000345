/**
 * The class builder as the source runs it: a `ClassCreator` object whose
 * `create()` runs its steps one after another, each assigning fields of
 * the creator, and the table of classes that `go.Class` appends to, with
 * `go.Class.Root` built first. Each step is proved against the function of
 * module `Classes` that specifies it.
 */
module ClassBuilder {
  import opened Wrappers
  import opened Js
  import opened Classes

  /** The `names` of Root's settings: the key each special member is stored under. */
  function RootNames(): Dict {
    [ Prop("constructor", Str("__construct")),
      Prop("destructor", Str("__destruct")),
      Prop("parentConstructor", Str("__parentConstruct")),
      Prop("parentDestructor", Str("__parentDestruct")),
      Prop("parentMethod", Str("__parentMethod")),
      Prop("settings", Str("__settings")),
      Prop("abstract", Str("__abstract")),
      Prop("final", Str("__final")),
      Prop("classname", Str("__classname")),
      Prop("destroy", Str("destroy")),
      Prop("instance_of", Str("instance_of")) ]
  }

  /**
   * The props Root is created from, in the order the source assigns them.
   * Its methods are functions whose bodies are not modelled; they are
   * numbered 0 to 7.
   */
  function RootProps(): Dict {
    [ Prop("go$type", Str("go.object")),
      Prop("toString", Fn(0)),
      Prop(ClassnameKey, Str("go.Class.Root")),
      Prop(SettingsKey, Obj([Prop("names", Obj(RootNames()))])),
      Prop(AbstractKey, Bool(true)),
      Prop("__construct", Fn(1)),
      Prop("__destruct", Fn(2)),
      Prop("__parentConstruct", Fn(3)),
      Prop("__parentDestruct", Fn(4)),
      Prop("__parentMethod", Fn(5)),
      Prop("destroy", Fn(6)),
      Prop("instance_of", Fn(7)) ]
  }

  /** Root's own props declare it abstract, not final, and name it. */
  lemma RootFlags()
    ensures PropOf(RootProps(), AbstractKey) == Bool(true)
    ensures PropOf(RootProps(), FinalKey) == Undefined
    ensures PropOf(RootProps(), ClassnameKey) == Str("go.Class.Root")
  {
    var d := RootProps();
    assert d[0].key != AbstractKey && d[1].key != AbstractKey && d[2].key != AbstractKey;
    assert d[3].key != AbstractKey by { assert d[3].key[2] != AbstractKey[2]; }
    assert Get(d, AbstractKey) == Get(d[4..], AbstractKey) by {
      assert d[1..][1..][1..][1..] == d[4..];
    }
    assert FinalKey !in KeysOf(d);
    GetKeys(d, FinalKey);
    assert Get(d, ClassnameKey) == Get(d[2..], ClassnameKey) by {
      assert d[1..][1..] == d[2..];
    }
  }

  /** Creating Root on an empty table succeeds, with no parent and no mixins, abstract, not final and named. */
  lemma RootCreated()
    ensures Check([], Null, Obj(RootProps())) == Ok(Plan(None, [], RootProps()))
    ensures
      var info := Build([], Plan(None, [], RootProps()));
      && info.parent.None? && info.others == [] && info.isAbstract && !info.isFinal
      && info.classname == Str("go.Class.Root")
  {
    RootChecked();
    RootFlags();
    RootBuilt(RootProps());
    assert Made([], Null, Obj(RootProps())) == Ok(Build([], Plan(None, [], RootProps())));
  }

  /** The checks pass for Root: its props supply `__settings.names`. */
  lemma RootChecked()
    ensures Check([], Null, Obj(RootProps())) == Ok(Plan(None, [], RootProps()))
  {
    assert Separate(Null, 0) == Ok((Null, []));
    RootNamesGiven();
  }

  /** Root's `__settings` supply `names`. */
  lemma RootNamesGiven()
    ensures NamesGiven(RootProps())
  {
    var d := RootProps();
    var settings := Obj([Prop("names", Obj(RootNames()))]);
    assert Get(d, SettingsKey) == Get(d[3..], SettingsKey) by {
      assert d[0].key != SettingsKey && d[1].key != SettingsKey;
      assert d[2].key != SettingsKey by { assert d[2].key[2] != SettingsKey[2]; }
      assert d[1..][1..][1..] == d[3..];
    }
    assert PropOf(d, SettingsKey) == settings;
    assert Extend([], OwnEntries(settings)) == [Prop("names", Obj(RootNames()))];
  }

  /**
   * `Class(null, props)` on an empty table: it throws a TypeError exactly
   * when the props do not supply `__settings.names`; otherwise the class
   * has no parent and no mixins and records the flags of its props.
   */
  lemma RootBuilt(props: Dict)
    ensures Made([], Null, Obj(props)).Ok? <==> NamesGiven(props)
    ensures !NamesGiven(props) ==> Made([], Null, Obj(props)) == Fail(TypeError)
    ensures Made([], Null, Obj(props)).Ok? ==>
      var info := Made([], Null, Obj(props)).value;
      && info.parent.None? && info.others == []
      && info.isAbstract == Truthy(PropOf(props, AbstractKey))
      && info.isFinal == Truthy(PropOf(props, FinalKey))
      && info.classname == (if Truthy(PropOf(props, ClassnameKey)) then PropOf(props, ClassnameKey) else Str("go.class"))
  {
    var none: seq<ClassInfo> := [];
    assert Separate(Null, 0) == Ok((Null, []));
    assert NoFinal(none, Null, []) && ParentId(Null) == Ok(None);
    if NamesGiven(props) {
      var plan := Plan(None, [], props);
      assert Check(none, Null, Obj(props)) == Ok(plan);
      var proto := ApplyMixins(none, None, BlankProto(props, 0), []);
      assert Made(none, Null, Obj(props)) == Ok(Settle(props, proto, None, []));
      SettleFlags(props, proto, None, []);
    } else {
      assert Check(none, Null, Obj(props)) == Fail(TypeError);
    }
  }

  /** The class built from Root's props is an abstract, non-final, parentless class named `go.Class.Root`. */
  lemma RootInfo(info: ClassInfo)
    requires info.parent.None? && info.others == []
    requires info.isAbstract == Truthy(PropOf(RootProps(), AbstractKey))
    requires info.isFinal == Truthy(PropOf(RootProps(), FinalKey))
    requires info.classname == (if Truthy(PropOf(RootProps(), ClassnameKey)) then PropOf(RootProps(), ClassnameKey) else Str("go.class"))
    ensures Ordered([info]) && info.isAbstract && !info.isFinal && info.classname == Str("go.Class.Root")
  {
    RootFlags();
  }

  /** The object `new ClassCreatorConstructor(parents, props)` that builds one class. */
  class ClassCreator {
    var props: Value
    var cparents: Value
    var parent: Value
    var others: seq<Value>
    var proto: Dict
    var isAbstract: bool
    var isFinal: bool
    var classname: Value

    /** `__construct`: a falsy `props` means the first argument is the props and there are no parents. */
    constructor (parents: Value, props: Value)
      ensures Truthy(props) ==> cparents == parents && this.props == props
      ensures !Truthy(props) ==> cparents == Null && this.props == parents
      ensures (cparents, this.props) == Arguments(parents, props)
    {
      if Truthy(props) {
        this.props := props;
        cparents := parents;
      } else {
        this.props := parents;
        cparents := Null;
      }
    }

    /** `separateParents`, for a table of `n` classes; `ok` is false where the source throws. */
    method SeparateParents(n: nat) returns (ok: bool)
      modifies this
      ensures props == old(props) && cparents == old(cparents)
      ensures ok <==> Separate(cparents, n).Ok?
      ensures ok ==> (parent, others) == Separate(cparents, n).value
    {
      var p: Value;
      if !Truthy(cparents) {
        p, others := Null, [];
      } else if cparents.Fn? || cparents.Cls? {
        p, others := cparents, [];
      } else if cparents.Arr? {
        var items := cparents.items;
        if |items| > 0 {
          p, others := items[0], items[1..];
        } else {
          p, others := Undefined, [];
        }
      } else if cparents.Str? {
        var text := cparents.s;
        var chars: seq<Value> := [];
        for i := 1 to |text|
          invariant |chars| == i - 1
          invariant forall j :: 0 <= j < i - 1 ==> chars[j] == Str([text[j + 1]])
        {
          chars := chars + [Str([text[i]])];
        }
        assert chars == Separate(cparents, n).value.1;
        p, others := Str([text[0]]), chars;
      } else {
        return false;
      }
      if !Truthy(p) && n > 0 {
        p := Cls(0);
      }
      parent := p;
      ok := true;
    }

    /** `checkParentsNoFinal`: a read-only loop that returns early at the first final parent. */
    method CheckParentsNoFinal(cs: seq<ClassInfo>) returns (ok: bool)
      requires Known(parent, |cs|) && forall i :: 0 <= i < |others| ==> Known(others[i], |cs|)
      ensures ok == NoFinal(cs, parent, others)
    {
      if Truthy(parent) && FinalFlag(cs, parent) {
        return false;
      }
      var i := 0;
      while i < |others|
        invariant 0 <= i <= |others|
        invariant forall j :: 0 <= j < i && (others[j].Fn? || others[j].Cls?) ==> !FinalFlag(cs, others[j])
      {
        var m := others[i];
        if m.Fn? || m.Cls? {
          if FinalFlag(cs, m) {
            return false;
          }
        }
        i := i + 1;
      }
      return true;
    }

    /**
     * `createBlankPrototype` for class number `c`: a truthy parent must be
     * a class (`new C.parent.Fake()` throws otherwise); the props are
     * copied, then `constructor` and `$self` are set.
     */
    method CreateBlankPrototype(c: nat) returns (r: Result<Option<nat>, ClassError>)
      modifies this
      ensures props == old(props) && parent == old(parent) && others == old(others)
      ensures r == ParentId(parent)
      ensures r.Ok? ==> proto == BlankProto(OwnEntries(props), c)
    {
      r := ParentId(parent);
      if r.Ok? {
        var p := Extend([], OwnEntries(props));
        p := Put(p, "constructor", Cls(c));
        p := Put(p, "$self", Cls(c));
        proto := p;
      }
    }

    /**
     * `applyOtherParents`: for each mixin in turn, each key it offers is
     * copied onto the prototype when `proto[k]` is still undefined.
     */
    method ApplyOtherParents(cs: seq<ClassInfo>, pid: Option<nat>)
      requires Ordered(cs) && (pid.Some? ==> pid.value < |cs|)
      requires forall i :: 0 <= i < |others| ==> Known(others[i], |cs|)
      modifies this
      ensures props == old(props) && parent == old(parent) && others == old(others)
      ensures proto == ApplyMixins(cs, pid, old(proto), others)
    {
      var ms := others;
      var p := proto;
      var i := 0;
      while i < |ms|
        invariant 0 <= i <= |ms|
        invariant ApplyMixins(cs, pid, p, ms[i..]) == ApplyMixins(cs, pid, old(proto), ms)
      {
        var es := MixinEntries(cs, ms[i]);
        ghost var start := p;
        var j := 0;
        while j < |es|
          invariant 0 <= j <= |es|
          invariant ApplyEntries(cs, pid, p, es[j..]) == ApplyEntries(cs, pid, start, es)
        {
          if ProtoVal(cs, p, pid, es[j].key) == Undefined {
            p := Put(p, es[j].key, es[j].val);
          }
          assert es[j..][1..] == es[j + 1..];
          j := j + 1;
        }
        assert ms[i..][1..] == ms[i + 1..];
        i := i + 1;
      }
      proto := p;
    }

    /**
     * `loadSettings`: reading the props throws when they are null or
     * undefined; a class without a parent starts from empty settings and
     * throws unless its `__settings` supply `names`; otherwise the flags
     * are taken from the props and the keys they define are deleted from
     * the prototype.
     */
    method LoadSettings() returns (ok: bool)
      modifies this
      ensures props == old(props) && parent == old(parent) && others == old(others)
      ensures ok <==> props != Undefined && props != Null && (Truthy(parent) || NamesGiven(OwnEntries(props)))
      ensures ok ==>
        var info := Settle(OwnEntries(props), old(proto), None, []);
        proto == info.own && isAbstract == info.isAbstract && isFinal == info.isFinal && classname == info.classname
    {
      if props == Undefined || props == Null {
        return false;
      }
      var pe := OwnEntries(props);
      if !Truthy(parent) {
        var named := SettingsNamed(pe);
        if !named {
          return false;
        }
      }
      TakeFlags(pe);
      ok := true;
    }

    /**
     * The flag-reading half of `loadSettings`: each flag key the props
     * define is deleted from the prototype (`__settings` only when truthy),
     * and the flags and the class name are taken from the props.
     */
    method TakeFlags(pe: Dict)
      modifies this
      ensures props == old(props) && parent == old(parent) && others == old(others)
      ensures
        var info := Settle(pe, old(proto), None, []);
        proto == info.own && isAbstract == info.isAbstract && isFinal == info.isFinal && classname == info.classname
    {
      var pr := proto;
      if Truthy(PropOf(pe, SettingsKey)) {
        pr := Delete(pr, SettingsKey);
      }
      var a := PropOf(pe, AbstractKey);
      if a != Undefined {
        pr := Delete(pr, AbstractKey);
      }
      var f := PropOf(pe, FinalKey);
      if f != Undefined {
        pr := Delete(pr, FinalKey);
      }
      var n := PropOf(pe, ClassnameKey);
      if n != Undefined {
        pr := Delete(pr, ClassnameKey);
      }
      proto, isAbstract, isFinal := pr, Truthy(a), Truthy(f);
      classname := if Truthy(n) then n else Str("go.class");
    }

    /**
     * The settings of a class without a parent: `{}` extended with a truthy
     * `__settings`; reading `names.abstract` from them succeeds exactly when
     * `names` is neither null nor undefined.
     */
    static method SettingsNamed(pe: Dict) returns (named: bool)
      ensures named == NamesGiven(pe)
    {
      var s := PropOf(pe, SettingsKey);
      var settings := if Truthy(s) then Extend([], OwnEntries(s)) else [];
      var names := PropOf(settings, "names");
      named := names != Undefined && names != Null;
    }

    /** `create()`: the steps in order, on a table `cs`; the new class is number `|cs|`. */
    method Create(cs: seq<ClassInfo>) returns (r: Result<ClassInfo, ClassError>)
      requires Ordered(cs) && KnownParents(cparents, |cs|)
      modifies this
      ensures r == Made(cs, old(cparents), old(props))
    {
      var ok := SeparateParents(|cs|);
      if !ok {
        return Fail(TypeError);
      }
      ok := CheckParentsNoFinal(cs);
      if !ok {
        return Fail(Final);
      }
      var pid := CreateBlankPrototype(|cs|);
      if pid.Fail? {
        return Fail(pid.error);
      }
      ApplyOtherParents(cs, pid.value);
      ok := LoadSettings();
      if !ok {
        return Fail(TypeError);
      }
      r := Ok(ClassInfo(pid.value, others, proto, isAbstract, isFinal, classname));
    }
  }

  /**
   * `Class(null, props)` on an empty table: the first class, or a
   * TypeError when the props do not supply `__settings.names`.
   */
  method CreateRoot(props: Dict) returns (r: Result<ClassInfo, ClassError>)
    ensures r.Ok? <==> NamesGiven(props)
    ensures r.Fail? ==> r.error == TypeError
    ensures r.Ok? ==>
      && r.value.parent.None? && r.value.others == []
      && r.value.isAbstract == Truthy(PropOf(props, AbstractKey))
      && r.value.isFinal == Truthy(PropOf(props, FinalKey))
      && r.value.classname == (if Truthy(PropOf(props, ClassnameKey)) then PropOf(props, ClassnameKey) else Str("go.class"))
  {
    var creator := new ClassCreator(Null, Obj(props));
    var none: seq<ClassInfo> := [];
    r := creator.Create(none);
    RootBuilt(props);
  }

  /** The classes `go.Class` has created, Root first. */
  class ClassTable {
    var classes: seq<ClassInfo>

    /** Ordered by creation; Root is class 0, abstract, not final and parentless; every later class has a parent. */
    ghost predicate Valid()
      reads this
    {
      && Ordered(classes)
      && |classes| >= 1
      && classes[0].parent.None? && classes[0].others == []
      && classes[0].isAbstract && !classes[0].isFinal
      && classes[0].classname == Str("go.Class.Root")
      && forall i :: 0 < i < |classes| ==> classes[i].parent.Some?
    }

    /** `Class.Root = Class(null, RootPrototype)`, created while no Root exists yet. */
    constructor ()
      ensures Valid() && |classes| == 1
    {
      RootNamesGiven();
      var root := CreateRoot(RootProps());
      RootInfo(root.value);
      classes := [root.value];
    }

    /**
     * `go.Class(parents, props)`: on success the new class is appended and
     * returned as a value; on failure the table is unchanged.
     */
    method Class(parents: Value, props: Value) returns (r: Result<Value, ClassError>)
      requires Valid() && KnownParents(parents, |classes|) && KnownParents(props, |classes|)
      modifies this
      ensures Valid()
      ensures match Create(old(classes), parents, props)
        case Ok(info) => r == Ok(Cls(|old(classes)|)) && classes == old(classes) + [info]
        case Fail(e) => r == Fail(e) && classes == old(classes)
    {
      ghost var cs := classes;
      var creator := new ClassCreator(parents, props);
      assert KnownParents(creator.cparents, |cs|);
      var res := creator.Create(classes);
      assert res == Create(cs, parents, props);
      match res
      case Fail(e) =>
        r := Fail(e);
      case Ok(info) =>
        CreateOrdered(classes, parents, props);
        r := Ok(Cls(|classes|));
        classes := classes + [info];
        assert classes[0] == old(classes)[0];
    }
  }
}

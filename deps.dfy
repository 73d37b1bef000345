/**
 * The dependency names of `go.Carcas` (src/Carcas.js): how
 * `Carcas.Helpers.normalizeDeps` turns a declaration into a list of
 * `prefix:name` strings, and how the two loader callbacks split such a
 * string and dispatch on its prefix.
 */
module Deps {
  import opened Wrappers
  import opened Strings
  import opened Js

  /** The errors thrown here: a JavaScript TypeError, and `go.Carcas.Exceptions.ErrorDependence`. */
  datatype DepError = TypeError | ErrorDependence

  /** `Carcas.Helpers.nodes`: each kind's prefix and the key it has in a dictionary declaration, in the order they are emitted. */
  const Nodes: seq<(string, string)> := [("c", "controllers"), ("mo", "modules"), ("go", "go"), ("l", "libs")]

  // ---------------------------------------------------------------------
  // normalizeDeps

  /** A token with the context prefixed unless it already names a prefix with `:`. */
  function Qualify(dep: string, context: string): string {
    if ':' in dep then dep else context + ":" + dep
  }

  /** One array item: a string is trimmed and qualified; anything else has no `replace` and throws. */
  function Token(item: Value, context: string): Result<string, DepError> {
    match item
    case Str(s) => Ok(Qualify(Trim(s), context))
    case _ => Fail(TypeError)
  }

  /** The array form: every item in order, or the TypeError of the first item that is not a string. */
  function Tokens(items: seq<Value>, context: string): (r: Result<seq<string>, DepError>)
    ensures r.Fail? ==> r.error == TypeError
    ensures r.Ok? ==> |r.value| == |items|
    decreases |items|
  {
    if items == [] then Ok([])
    else match Token(items[0], context)
      case Fail(e) => Fail(e)
      case Ok(t) =>
        match Tokens(items[1..], context)
        case Fail(e) => Fail(e)
        case Ok(ts) => Ok([t] + ts)
  }

  /**
   * The array form succeeds exactly when every item is a string, and then
   * its `i`th token is the `i`th item trimmed and qualified.
   */
  lemma {:induction false} TokensMeaning(items: seq<Value>, context: string)
    ensures Tokens(items, context).Ok? <==> forall i :: 0 <= i < |items| ==> items[i].Str?
    ensures Tokens(items, context).Ok? ==>
      forall i {:trigger Tokens(items, context).value[i]} :: 0 <= i < |items| ==>
        Tokens(items, context).value[i] == Qualify(Trim(items[i].s), context)
    decreases |items|
  {
    if items != [] {
      TokensMeaning(items[1..], context);
      assert forall i :: 1 <= i < |items| ==> items[i] == items[1..][i - 1];
      var r := Tokens(items, context);
      if r.Ok? {
        var ts := Tokens(items[1..], context).value;
        assert r.value == [Qualify(Trim(items[0].s), context)] + ts;
        forall i | 1 <= i < |items| ensures r.value[i] == Qualify(Trim(items[i].s), context) {
          assert r.value[i] == ts[i - 1];
        }
      }
    }
  }

  /** `s.split(",")` as an array of strings. */
  function Pieces(s: string): (r: seq<Value>)
  {
    var ps := Split(s, ",");
    seq(|ps|, i requires 0 <= i < |ps| => Str(ps[i]))
  }

  /** `deps[key]` on a declaration: a property of a plain object; other values have none. */
  function Field(deps: Value, key: string): Value {
    match deps
    case Obj(d) => PropOf(d, key)
    case _ => Undefined
  }

  /** `list.length` for a list of names: an array's or a string's length; other values have none. */
  function ListLength(list: Value): nat {
    match list
    case Arr(items) => |items|
    case Str(s) => |s|
    case _ => 0
  }

  /** `list[j]` as the `+` operator renders it: an array item, or a string's character. */
  function ItemText(list: Value, j: nat): string
    requires j < ListLength(list)
  {
    match list
    case Arr(items) => ToStr(items[j])
    case Str(s) => [s[j]]
  }

  /** The entries one kind of a dictionary declaration gives: `prefix:item` for each item of a truthy list. */
  function ListEntries(prefix: string, list: Value): (r: seq<string>)
    ensures |r| == (if Truthy(list) then ListLength(list) else 0)
    ensures forall j :: 0 <= j < |r| ==> |prefix| < |r[j]| && r[j][..|prefix| + 1] == prefix + ":"
  {
    if !Truthy(list) then []
    else seq(ListLength(list), j requires 0 <= j < ListLength(list) => prefix + ":" + ItemText(list, j))
  }

  /** The dictionary form from the `i`th kind on. */
  function Grouped(deps: Value, i: nat): seq<string>
    requires i <= |Nodes|
    decreases |Nodes| - i
  {
    if i == |Nodes| then []
    else ListEntries(Nodes[i].0, Field(deps, Nodes[i].1)) + Grouped(deps, i + 1)
  }

  /** `Carcas.Helpers.normalizeDeps(deps, context)`. */
  function Normalize(deps: Value, context: string): Result<seq<string>, DepError> {
    if !Truthy(deps) then Ok([])
    else if deps.Str? then Tokens(Pieces(deps.s), context)
    else if deps.Arr? then Tokens(deps.items, context)
    else Ok(Grouped(deps, 0))
  }

  /** `Carcas.Helpers.normalizeDeps(deps, context)`, with the source's loops. */
  method NormalizeDeps(deps: Value, context: string) returns (r: Result<seq<string>, DepError>)
    ensures r == Normalize(deps, context)
  {
    if !Truthy(deps) {
      return Ok([]);
    }
    var isArray := deps.Arr?;
    var items: seq<Value> := [];
    if deps.Str? {
      items := Pieces(deps.s);
      isArray := true;
    } else if deps.Arr? {
      items := deps.items;
    }
    if isArray {
      r := ArrayDeps(items, context);
      return;
    }
    var grouped := DictDeps(deps);
    return Ok(grouped);
  }

  /** The loop of `normalizeDeps` over an array of names. */
  method ArrayDeps(items: seq<Value>, context: string) returns (r: Result<seq<string>, DepError>)
    ensures r == Tokens(items, context)
  {
    var result: seq<string> := [];
    var i := 0;
    while i < |items|
      invariant 0 <= i <= |items| && |result| == i
      invariant forall j :: 0 <= j < i ==> items[j].Str? && result[j] == Qualify(Trim(items[j].s), context)
    {
      if !items[i].Str? {
        TokensMeaning(items, context);
        assert Tokens(items, context).Fail?;
        return Fail(TypeError);
      }
      var dep := TrimEnd(TrimStart(items[i].s));
      if ':' !in dep {
        dep := context + ":" + dep;
      }
      assert dep == Qualify(Trim(items[i].s), context);
      result := result + [dep];
      i := i + 1;
    }
    TokensMeaning(items, context);
    ghost var t := Tokens(items, context);
    assert t.Ok?;
    assert forall j :: 0 <= j < |items| ==> result[j] == t.value[j];
    assert result == t.value;
    return Ok(result);
  }

  /** The loops of `normalizeDeps` over the kinds of a dictionary declaration. */
  method DictDeps(deps: Value) returns (result: seq<string>)
    ensures result == Grouped(deps, 0)
  {
    result := [];
    var i := 0;
    while i < |Nodes|
      invariant 0 <= i <= |Nodes|
      invariant Grouped(deps, 0) == result + Grouped(deps, i)
    {
      var node := Nodes[i];
      var entries := ListDeps(node.0, Field(deps, node.1));
      GroupedStep(deps, i, result, entries);
      result := result + entries;
      i := i + 1;
    }
  }

  lemma {:induction false} GroupedStep(deps: Value, i: nat, done: seq<string>, entries: seq<string>)
    requires i < |Nodes| && entries == ListEntries(Nodes[i].0, Field(deps, Nodes[i].1))
    ensures done + Grouped(deps, i) == (done + entries) + Grouped(deps, i + 1)
  {
  }

  /** The inner loop of the dictionary form: `prefix:item` for each item of a truthy list. */
  method ListDeps(prefix: string, list: Value) returns (result: seq<string>)
    ensures result == ListEntries(prefix, list)
  {
    result := [];
    if Truthy(list) {
      ghost var entries := ListEntries(prefix, list);
      var j := 0;
      while j < ListLength(list)
        invariant 0 <= j <= ListLength(list)
        invariant result == entries[..j]
      {
        assert entries[..j + 1] == entries[..j] + [prefix + ":" + ItemText(list, j)];
        result := result + [prefix + ":" + ItemText(list, j)];
        j := j + 1;
      }
      assert entries[..j] == entries;
    }
  }

  // ---------------------------------------------------------------------
  // Properties of normalizeDeps

  /** An absent, null, false, zero or empty declaration has no dependencies. */
  lemma FalsyIsEmpty(deps: Value, context: string)
    requires !Truthy(deps)
    ensures Normalize(deps, context) == Ok([])
  {
  }

  /** A non-empty comma string normalizes exactly like the array of its comma-split pieces. */
  lemma StringLikeArray(s: string, context: string)
    requires s != ""
    ensures Normalize(Str(s), context) == Normalize(Arr(Pieces(s)), context)
    ensures Normalize(Str(s), context).Ok?
    ensures |Normalize(Str(s), context).value| == |Split(s, ",")|
  {
    TokensMeaning(Pieces(s), context);
  }

  /**
   * The array form keeps length and order; each item is trimmed and gets the
   * context as prefix unless it has a `:`; a non-string item throws.
   */
  lemma ArrayForm(items: seq<Value>, context: string)
    ensures var r := Normalize(Arr(items), context);
      && (r.Ok? <==> forall i :: 0 <= i < |items| ==> items[i].Str?)
      && (r.Fail? ==> r.error == TypeError)
      && (r.Ok? ==> (|r.value| == |items| &&
            forall i :: 0 <= i < |items| ==>
              (':' in Trim(items[i].s) ==> r.value[i] == Trim(items[i].s)) &&
              (':' !in Trim(items[i].s) ==> r.value[i] == context + ":" + Trim(items[i].s))))
  {
    TokensMeaning(items, context);
  }

  /** The dictionary form: controllers, modules, go modules and libraries, in that order, each list in its own order. */
  lemma {:induction false} DictForm(d: Dict, context: string)
    ensures Normalize(Obj(d), context) == Ok(
      ListEntries("c", PropOf(d, "controllers")) + ListEntries("mo", PropOf(d, "modules"))
      + ListEntries("go", PropOf(d, "go")) + ListEntries("l", PropOf(d, "libs")))
  {
    var deps := Obj(d);
    var c, mo, go, l := ListEntries("c", PropOf(d, "controllers")), ListEntries("mo", PropOf(d, "modules")),
                        ListEntries("go", PropOf(d, "go")), ListEntries("l", PropOf(d, "libs"));
    GroupedStep(deps, 3, [], l);
    assert Grouped(deps, 3) == l;
    GroupedStep(deps, 2, [], go);
    GroupedStep(deps, 1, [], mo);
    GroupedStep(deps, 0, [], c);
    Regroup(c, mo, go, l);
  }

  /** Concatenation regrouped to the left. */
  lemma Regroup(a: seq<string>, b: seq<string>, c: seq<string>, d: seq<string>)
    ensures a + (b + (c + d)) == a + b + c + d
  {
  }

  /** The keys a dictionary declaration is read at. */
  predicate NodeKey(k: string) {
    k == "controllers" || k == "modules" || k == "go" || k == "libs"
  }

  /** Keys other than the four kinds are ignored by the dictionary form. */
  lemma OtherKeysIgnored(d: Dict, k: string, v: Value, context: string)
    requires !NodeKey(k)
    ensures Normalize(Obj(Put(d, k, v)), context) == Normalize(Obj(d), context)
  {
    var e := Put(d, k, v);
    assert PropOf(e, "controllers") == PropOf(d, "controllers");
    assert PropOf(e, "modules") == PropOf(d, "modules");
    assert PropOf(e, "go") == PropOf(d, "go");
    assert PropOf(e, "libs") == PropOf(d, "libs");
    DictForm(d, context);
    DictForm(e, context);
  }

  /** A string cut at its first `:`: the part before it, then the pieces of the rest. */
  lemma {:induction false} SplitAtColon(p: string, x: string)
    requires ':' !in p
    ensures Split(p + ":" + x, ":") == [p] + Split(x, ":")
  {
    IndexAfterPiece(p, ':', x);
    var s := p + ":" + x;
    assert s == p + [':'] + x;
    assert s[..|p|] == p;
    assert s[|p| + 1..] == x;
  }

  /** The array spelling of a controller `A` and a module `B`. */
  lemma ArraySpelling()
    ensures Normalize(Arr([Str("c:A"), Str("mo:B")]), "c") == Ok(["c:A", "mo:B"])
  {
    var x, y := "c:A", "mo:B";
    assert x[1] == ':' && y[2] == ':';
    TrimmedAlready(x);
    TrimmedAlready(y);
    var items := [Str(x), Str(y)];
    TokensMeaning(items, "c");
    var r := Tokens(items, "c");
    assert r.Ok?;
    assert r.value[0] == x && r.value[1] == y;
    assert r.value == [x, y];
  }

  /** A string of two comma-free names normalizes like the array of the two names. */
  lemma StringSpelling(a: string, b: string, context: string)
    requires ',' !in a && ',' !in b
    ensures Normalize(Str(a + "," + b), context) == Normalize(Arr([Str(a), Str(b)]), context)
  {
    var xs := [a, b];
    assert xs[1..] == [b];
    assert Join(xs, ",") == a + "," + b;
    SplitJoin(xs, ',');
    var p := Pieces(a + "," + b);
    assert p == [Str(a), Str(b)];
  }

  /** The dictionary spelling of a controller `A` and a module `B`. */
  lemma DictSpelling()
    ensures Normalize(Obj([Prop("controllers", Arr([Str("A")])), Prop("modules", Arr([Str("B")]))]), "c")
         == Ok(["c:A", "mo:B"])
  {
    var d := [Prop("controllers", Arr([Str("A")])), Prop("modules", Arr([Str("B")]))];
    DictForm(d, "c");
    assert PropOf(d, "controllers") == Arr([Str("A")]);
    assert PropOf(d, "modules") == Arr([Str("B")]);
    assert PropOf(d, "go") == Undefined && PropOf(d, "libs") == Undefined;
    var c := ListEntries("c", Arr([Str("A")]));
    assert Truthy(Arr([Str("A")])) && |c| == 1;
    assert c[0] == "c" + ":" + "A" == "c:A";
    assert c == ["c:A"];
    var mo := ListEntries("mo", Arr([Str("B")]));
    assert Truthy(Arr([Str("B")])) && |mo| == 1;
    assert mo[0] == "mo" + ":" + "B" == "mo:B";
    assert mo == ["mo:B"];
    assert ListEntries("go", Undefined) == [] && ListEntries("l", Undefined) == [];
    assert c + mo + [] + [] == ["c:A", "mo:B"];
  }

  /**
   * A comma string of two trimmed, prefixed names gives the two names as
   * they are, whatever the context: the string spelling of the same list.
   */
  lemma TwoQualifiedNames(a: string, b: string, context: string)
    requires ',' !in a && ',' !in b && ':' in a && ':' in b
    requires Trim(a) == a && Trim(b) == b
    ensures Normalize(Str(a + "," + b), context) == Ok([a, b])
  {
    StringSpelling(a, b, context);
    var items := [Str(a), Str(b)];
    TokensMeaning(items, context);
    var r := Tokens(items, context);
    assert r.value[0] == a && r.value[1] == b;
    assert r.value == [a, b];
  }

  /** A qualified token is already trimmed and already qualified, for a context that does not start with whitespace. */
  lemma QualifiedStable(s: string, context: string)
    requires context == [] || !IsSpace(context[0])
    ensures var q := Qualify(Trim(s), context); Trim(q) == q && Qualify(q, context) == q
  {
    var t := Trim(s);
    TrimEdges(s);
    if ':' !in t {
      var q := context + ":" + t;
      assert q[|context|] == ':';
      assert q != [] && !IsSpace(q[0]) && !IsSpace(q[|q| - 1]) by {
        if context == [] { assert q[0] == ':'; } else { assert q[0] == context[0]; }
        if t == [] { assert q[|q| - 1] == ':'; } else { assert q[|q| - 1] == t[|t| - 1]; }
      }
      TrimmedAlready(q);
    } else {
      TrimmedAlready(t);
    }
  }

  /** The array of strings a declaration's tokens make. */
  function AsArray(r: seq<string>): (a: seq<Value>)
  {
    seq(|r|, i requires 0 <= i < |r| => Str(r[i]))
  }

  /**
   * Normalizing the strings a string or array declaration normalized to
   * gives them back unchanged, for a context that does not start with
   * whitespace (the host uses "c" and "mo").
   */
  lemma NormalizeIdempotent(items: seq<Value>, context: string)
    requires context == [] || !IsSpace(context[0])
    requires Normalize(Arr(items), context).Ok?
    ensures Normalize(Arr(AsArray(Normalize(Arr(items), context).value)), context) == Normalize(Arr(items), context)
  {
    var r := Tokens(items, context).value;
    var again := AsArray(r);
    TokensMeaning(items, context);
    TokensMeaning(again, context);
    assert |again| == |r|;
    forall i | 0 <= i < |r| ensures Qualify(Trim(again[i].s), context) == r[i] {
      assert again[i] == Str(r[i]);
      QualifiedStable(items[i].s, context);
    }
    var r2 := Tokens(again, context);
    assert r2.Ok?;
    assert forall i :: 0 <= i < |r| ==> r2.value[i] == r[i];
    assert r2.value == r;
  }

  // ---------------------------------------------------------------------
  // The loader callbacks

  /** What `includerForLoader` asks for: a script file, a go module, or an external library. */
  datatype Request = JSFile(path: string) | GoModule(name: string) | OtherLib(name: string)

  /** What `creatorForLoader` does: create a controller or a module, or nothing. */
  datatype Creation = NewController(name: string) | NewModule(name: string) | NoCreation

  /** `name.split(":", 2)`: the prefix and the name, when there is a `:`. */
  function Halves(name: string): (r: seq<string>) {
    SplitN(name, ":", 2)
  }

  /** The file of a controller or module: its dots become directory separators. */
  function ScriptPath(root: Value, folder: string, name: string): string {
    ToStr(root) + "/" + folder + "/" + ReplaceChar(name, '.', '/') + ".js"
  }

  /** `includerForLoader(name)`, with `this.root` as `root`. */
  function Include(name: string, root: Value): Result<Request, DepError> {
    var parts := Halves(name);
    if |parts| != 2 then Fail(ErrorDependence)
    else
      var prefix, n := parts[0], parts[1];
      if prefix == "c" then Ok(JSFile(ScriptPath(root, "controllers", n)))
      else if prefix == "mo" then Ok(JSFile(ScriptPath(root, "modules", n)))
      else if prefix == "go" then Ok(GoModule(n))
      else if prefix == "l" then Ok(OtherLib(n))
      else Fail(ErrorDependence)
  }

  /** `creatorForLoader(name, data)`: which object to create. */
  function Creator(name: string): Result<Creation, DepError> {
    var parts := Halves(name);
    if |parts| != 2 then Fail(ErrorDependence)
    else
      var prefix, n := parts[0], parts[1];
      if prefix == "c" then Ok(NewController(n))
      else if prefix == "mo" then Ok(NewModule(n))
      else if prefix == "go" || prefix == "l" then Ok(NoCreation)
      else Fail(ErrorDependence)
  }

  // ---------------------------------------------------------------------
  // Properties of the loader callbacks

  /** A name without `:` is refused by both callbacks. */
  lemma NoColonRefused(name: string, root: Value)
    requires ':' !in name
    ensures Include(name, root) == Fail(ErrorDependence)
    ensures Creator(name) == Fail(ErrorDependence)
  {
    SplitAbsent(name, ':');
  }

  /** The split of `prefix:rest`: the prefix, and `rest` up to its own first `:`. */
  lemma HalvesOf(p: string, x: string)
    requires ':' !in p
    ensures Halves(p + ":" + x) == [p, Split(x, ":")[0]]
  {
    SplitAtColon(p, x);
  }

  /** `c:`/`mo:` ask for the script under the controllers or modules folder, its dots made into slashes. */
  lemma IncludeScript(p: string, n: string, root: Value)
    requires ':' !in p && ':' !in n
    ensures p == "c" ==> Include(p + ":" + n, root) == Ok(JSFile(ToStr(root) + "/controllers/" + ReplaceChar(n, '.', '/') + ".js"))
    ensures p == "mo" ==> Include(p + ":" + n, root) == Ok(JSFile(ToStr(root) + "/modules/" + ReplaceChar(n, '.', '/') + ".js"))
  {
    HalvesOf(p, n);
    SplitAbsent(n, ':');
    ScriptPathText(ToStr(root), ReplaceChar(n, '.', '/'));
  }

  /** The script path text, regrouped. */
  lemma ScriptPathText(r: string, m: string)
    ensures r + "/" + "controllers" + "/" + m + ".js" == r + "/controllers/" + m + ".js"
    ensures r + "/" + "modules" + "/" + m + ".js" == r + "/modules/" + m + ".js"
  {
  }

  /** `go:`/`l:` ask for the go module or the library, and any other prefix is refused. */
  lemma IncludeByPrefix(p: string, n: string, root: Value)
    requires ':' !in p && ':' !in n
    ensures p == "go" ==> Include(p + ":" + n, root) == Ok(GoModule(n))
    ensures p == "l" ==> Include(p + ":" + n, root) == Ok(OtherLib(n))
    ensures p != "c" && p != "mo" && p != "go" && p != "l" ==> Include(p + ":" + n, root) == Fail(ErrorDependence)
  {
    HalvesOf(p, n);
    SplitAbsent(n, ':');
  }

  /** `c:`/`mo:` create a controller or a module, `go:`/`l:` nothing, and any other prefix is refused. */
  lemma CreatorByPrefix(p: string, n: string)
    requires ':' !in p && ':' !in n
    ensures p == "c" ==> Creator(p + ":" + n) == Ok(NewController(n))
    ensures p == "mo" ==> Creator(p + ":" + n) == Ok(NewModule(n))
    ensures p == "go" || p == "l" ==> Creator(p + ":" + n) == Ok(NoCreation)
    ensures p != "c" && p != "mo" && p != "go" && p != "l" ==> Creator(p + ":" + n) == Fail(ErrorDependence)
  {
    HalvesOf(p, n);
    SplitAbsent(n, ':');
  }

  /** The split of `prefix:name:rest` is the split of `prefix:name`. */
  lemma HalvesDropRest(p: string, n: string, rest: string)
    requires ':' !in p && ':' !in n
    ensures Halves(p + ":" + n + ":" + rest) == Halves(p + ":" + n)
  {
    HalvesOf(p, n + ":" + rest);
    assert p + ":" + n + ":" + rest == p + ":" + (n + ":" + rest);
    SplitAtColon(n, rest);
    HalvesOf(p, n);
    SplitAbsent(n, ':');
  }

  /** Both callbacks see only the text before a second `:`; the rest is dropped. */
  lemma SecondColonDropped(p: string, n: string, rest: string, root: Value)
    requires ':' !in p && ':' !in n
    ensures Include(p + ":" + n + ":" + rest, root) == Include(p + ":" + n, root)
    ensures Creator(p + ":" + n + ":" + rest) == Creator(p + ":" + n)
  {
    HalvesDropRest(p, n, rest);
  }

  /** The two callbacks accept exactly the same names. */
  lemma CallbacksAgree(name: string, root: Value)
    ensures Include(name, root).Ok? <==> Creator(name).Ok?
  {
  }

  /** Every entry one kind of a dictionary declaration gives is a name the includer accepts. */
  lemma EntriesIncludable(prefix: string, list: Value, root: Value)
    requires prefix == "c" || prefix == "mo" || prefix == "go" || prefix == "l"
    ensures forall e :: e in ListEntries(prefix, list) ==> Include(e, root).Ok?
  {
    var es := ListEntries(prefix, list);
    assert ':' !in prefix;
    forall j | 0 <= j < |es| ensures Include(es[j], root).Ok? {
      HalvesOf(prefix, ItemText(list, j));
    }
  }

  /** Every entry of a dictionary declaration names a kind the includer knows. */
  lemma DictEntriesIncludable(d: Dict, context: string, root: Value)
    ensures forall e :: e in Normalize(Obj(d), context).value ==> Include(e, root).Ok?
  {
    DictForm(d, context);
    var c, mo, go, l := ListEntries("c", PropOf(d, "controllers")), ListEntries("mo", PropOf(d, "modules")),
                        ListEntries("go", PropOf(d, "go")), ListEntries("l", PropOf(d, "libs"));
    EntriesIncludable("c", PropOf(d, "controllers"), root);
    EntriesIncludable("mo", PropOf(d, "modules"), root);
    EntriesIncludable("go", PropOf(d, "go"), root);
    EntriesIncludable("l", PropOf(d, "libs"), root);
    forall e | e in c + mo + go + l ensures Include(e, root).Ok? {
      assert e in c || e in mo || e in go || e in l;
    }
  }

  /** A token the string or array form qualified with the host's context `c` or `mo` is one the includer accepts. */
  lemma QualifiedIncludable(t: string, context: string, root: Value)
    requires context == "c" || context == "mo"
    requires ':' !in t
    ensures Include(Qualify(t, context), root).Ok?
  {
    HalvesOf(context, t);
  }
}

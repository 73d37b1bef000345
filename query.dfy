/**
 * `go.Lang.parseQuery` and `go.Lang.buildQuery` (src/LangExt.js): the
 * query-string parser and the serialiser of nested dictionaries.
 * `decodeURIComponent` and `encodeURIComponent` are not modelled; they are
 * parameters, the decoder returning None where it would throw a URIError.
 * The page location that `parseQuery()` reads when given no query is a
 * parameter too.
 */
module Query {
  import opened Wrappers
  import opened Strings
  import opened Js

  /** `encodeURIComponent`. */
  type Encoder = string -> string

  /** `decodeURIComponent`; None where it throws a URIError. */
  type Decoder = string -> Option<string>

  /** The only error `parseQuery` can raise, from the decoder. */
  datatype QueryError = URIError

  /** `sep || "&"`. */
  function Separator(sep: string): (r: string)
    ensures |r| > 0
    ensures sep != "" ==> r == sep
  {
    if sep == "" then "&" else sep
  }

  /** `location.toString().split("#", 2)[0].split("?", 2)[1]`: the text between the first "?" and the next "?" or "#". */
  function LocationQuery(location: string): (r: Value)
    ensures r == Undefined || r.Str?
  {
    var parts := SplitN(Split(location, "#")[0], "?", 2);
    if |parts| == 2 then Str(parts[1]) else Undefined
  }

  // ---------------------------------------------------------------------
  // parseQuery
  // ---------------------------------------------------------------------

  /**
   * The property one piece of the query stands for: `k=v` gives decoded
   * `k` and decoded `v`; a piece without "=" gives its decoded self under
   * the key "". `split("=", 2)` keeps only the text up to a second "=".
   */
  function Entry(piece: string, dec: Decoder): Result<Prop, QueryError> {
    var v := SplitN(piece, "=", 2);
    if |v| == 2 then
      match dec(v[0])
      case None => Fail(URIError)
      case Some(k) =>
        (match dec(v[1])
         case None => Fail(URIError)
         case Some(x) => Ok(Prop(k, Str(x))))
    else
      match dec(v[0])
      case None => Fail(URIError)
      case Some(x) => Ok(Prop("", Str(x)))
  }

  /** The decoded entry of every piece, in order. */
  function Entries(pieces: seq<string>, dec: Decoder): (r: seq<Result<Prop, QueryError>>)
  {
    seq(|pieces|, j requires 0 <= j < |pieces| => Entry(pieces[j], dec))
  }

  /** The loop of `parseQuery` over the entries, from the dictionary `acc`; it stops at the first URIError. */
  function Fill(acc: Dict, es: seq<Result<Prop, QueryError>>): Result<Dict, QueryError>
    decreases |es|
  {
    if es == [] then Ok(acc)
    else
      match es[0]
      case Fail(e) => Fail(e)
      case Ok(p) => Fill(Put(acc, p.key, p.val), es[1..])
  }

  /**
   * What `parseQuery(query, sep)` returns: a non-string argument unchanged,
   * `{}` for an empty query, otherwise the dictionary of its pieces.
   */
  function Parse(query: Value, sep: string, location: string, dec: Decoder): (r: Result<Value, QueryError>)
    ensures query != Undefined && !query.Str? ==> r == Ok(query)
    ensures query == Str("") ==> r == Ok(Obj([]))
  {
    var q := if query == Undefined then LocationQuery(location) else query;
    if !q.Str? && q != Undefined then Ok(q)
    else if !Truthy(q) then Ok(Obj([]))
    else
      match Fill([], Entries(Split(q.s, Separator(sep)), dec))
      case Fail(e) => Fail(e)
      case Ok(d) => Ok(Obj(d))
  }

  /** `go.Lang.parseQuery(query, sep)`. */
  method ParseQuery(query: Value, sep: string, location: string, dec: Decoder) returns (r: Result<Value, QueryError>)
    ensures r == Parse(query, sep, location, dec)
  {
    var q := query;
    if q == Undefined {
      q := LocationQuery(location);
    } else if !q.Str? {
      return Ok(q);
    }
    if !Truthy(q) {
      return Ok(Obj([]));
    }
    var pieces := Split(q.s, Separator(sep));
    ghost var es := Entries(pieces, dec);
    var result: Dict := [];
    for i := 0 to |pieces|
      invariant Fill(result, es[i..]) == Fill([], es)
    {
      assert es[i..][0] == es[i] && es[i..][1..] == es[i + 1..];
      var e := Entry(pieces[i], dec);
      if e.Fail? {
        return Fail(e.error);
      }
      result := Put(result, e.value.key, e.value.val);
    }
    assert es[|pieces|..] == [];
    return Ok(Obj(result));
  }

  /** A piece without "=" is stored, decoded, under the key "". */
  lemma NoEqualsUnderEmptyKey(piece: string, dec: Decoder)
    requires '=' !in piece
    ensures dec(piece).None? ==> Entry(piece, dec) == Fail(URIError)
    ensures dec(piece).Some? ==> Entry(piece, dec) == Ok(Prop("", Str(dec(piece).value)))
  {
    SplitAbsent(piece, '=');
  }

  /**
   * A piece `k=v` maps decoded `k` to decoded `v`; anything from a second
   * "=" on is dropped.
   */
  lemma KeyValuePiece(k: string, v: string, rest: string, dec: Decoder)
    requires '=' !in k && '=' !in v && (rest == [] || rest[0] == '=')
    requires dec(k).Some? && dec(v).Some?
    ensures Entry(k + "=" + v + rest, dec) == Ok(Prop(dec(k).value, Str(dec(v).value)))
  {
    var s := k + "=" + v + rest;
    assert s == k + ['='] + (v + rest);
    IndexAfterPiece(k, '=', v + rest);
    assert s[|k| + 1..] == v + rest;
    assert s[..|k|] == k;
    var tail := Split(v + rest, "=");
    assert Split(s, "=") == [k] + tail;
    if rest == [] {
      assert v + rest == v;
      SplitAbsent(v, '=');
    } else {
      assert v + rest == v + ['='] + rest[1..];
      IndexAfterPiece(v, '=', rest[1..]);
      assert (v + rest)[..|v|] == v;
    }
    assert tail[0] == v;
  }

  /** The parse fails exactly when some piece fails to decode. */
  lemma {:induction false} FillFailsIff(acc: Dict, es: seq<Result<Prop, QueryError>>)
    ensures Fill(acc, es).Fail? <==> exists j :: 0 <= j < |es| && es[j].Fail?
    decreases |es|
  {
    if es != [] && es[0].Ok? {
      var p := es[0].value;
      FillFailsIff(Put(acc, p.key, p.val), es[1..]);
      if exists j :: 0 <= j < |es| && es[j].Fail? {
        var j :| 0 <= j < |es| && es[j].Fail?;
        assert es[1..][j - 1] == es[j];
      }
      if exists j :: 0 <= j < |es| - 1 && es[1..][j].Fail? {
        var j :| 0 <= j < |es| - 1 && es[1..][j].Fail?;
        assert es[j + 1] == es[1..][j];
      }
    }
  }

  /**
   * The value the parse leaves under `k`, searched from the last entry
   * back: that of the last entry whose key is `k`, or `dflt` if none is.
   */
  function LastFor(es: seq<Result<Prop, QueryError>>, k: string, dflt: Option<Value>): Option<Value>
    decreases |es|
  {
    if es == [] then dflt
    else
      var e := es[|es| - 1];
      if e.Ok? && e.value.key == k then Some(e.value.val)
      else LastFor(es[..|es| - 1], k, dflt)
  }

  /** Searching back over `[e] + rest` is searching `rest` with `e`'s answer as the fallback. */
  lemma {:induction false} LastForCons(e: Result<Prop, QueryError>, rest: seq<Result<Prop, QueryError>>, k: string, dflt: Option<Value>)
    ensures LastFor([e] + rest, k, dflt) == LastFor(rest, k, LastFor([e], k, dflt))
    decreases |rest|
  {
    var all := [e] + rest;
    if rest == [] {
      assert all == [e];
    } else {
      assert all[|all| - 1] == rest[|rest| - 1];
      assert all[..|all| - 1] == [e] + rest[..|rest| - 1];
      LastForCons(e, rest[..|rest| - 1], k, dflt);
    }
  }

  /** Later duplicates overwrite earlier ones: each key ends up with the value of its last piece. */
  lemma {:induction false} LastPieceWins(acc: Dict, es: seq<Result<Prop, QueryError>>, k: string)
    requires Fill(acc, es).Ok?
    ensures Get(Fill(acc, es).value, k) == LastFor(es, k, Get(acc, k))
    decreases |es|
  {
    if es != [] {
      var p := es[0].value;
      var acc' := Put(acc, p.key, p.val);
      LastPieceWins(acc', es[1..], k);
      assert es == [es[0]] + es[1..];
      LastForCons(es[0], es[1..], k, Get(acc, k));
      assert LastFor([es[0]], k, Get(acc, k)) == Get(acc', k);
    }
  }

  /** In a dictionary without repeated keys, putting the next property onto a prefix appends it. */
  lemma PutNext(d: Dict, i: nat)
    requires i < |d| && UniqueKeys(d)
    ensures Put(d[..i], d[i].key, d[i].val) == d[..i + 1]
  {
    assert d[i].key !in KeysOf(d[..i]) by {
      forall x | 0 <= x < i ensures KeysOf(d[..i])[x] != d[i].key {
        assert d[..i][x] == d[x];
      }
    }
    GetKeys(d[..i], d[i].key);
    assert d[..i] + [d[i]] == d[..i + 1];
  }

  /** Entries that decode to the properties of a dictionary without repeated keys rebuild it. */
  lemma {:induction false} FillFresh(d: Dict, i: nat, rs: seq<Result<Prop, QueryError>>)
    requires i <= |d| && UniqueKeys(d)
    requires |rs| == |d| - i && forall j :: 0 <= j < |rs| ==> rs[j] == Ok(d[i + j])
    ensures Fill(d[..i], rs) == Ok(d)
    decreases |rs|
  {
    if rs == [] {
      assert d[..i] == d;
    } else {
      PutNext(d, i);
      assert rs[0] == Ok(d[i]);
      forall j | 0 <= j < |rs| - 1 ensures rs[1..][j] == Ok(d[i + 1 + j]) {
        assert rs[1..][j] == rs[j + 1];
      }
      FillFresh(d, i + 1, rs[1..]);
    }
  }

  /** The parse of a query: it fails exactly when a piece fails to decode, and otherwise the last piece with a key wins. */
  lemma ParseString(s: string, sep: string, location: string, dec: Decoder, k: string)
    requires s != ""
    ensures var es := Entries(Split(s, Separator(sep)), dec);
      && (Parse(Str(s), sep, location, dec).Fail? <==> exists j :: 0 <= j < |es| && es[j].Fail?)
      && (Parse(Str(s), sep, location, dec).Ok? ==>
            Parse(Str(s), sep, location, dec).value.Obj? &&
            Get(Parse(Str(s), sep, location, dec).value.props, k) == LastFor(es, k, None))
  {
    var es := Entries(Split(s, Separator(sep)), dec);
    FillFailsIff([], es);
    if Fill([], es).Ok? {
      LastPieceWins([], es, k);
    }
  }

  /** Two entries with different keys give a dictionary of the two. */
  lemma FillTwo(p: Prop, q: Prop)
    requires p.key != q.key
    ensures Fill([], [Ok(p), Ok(q)]) == Ok([p, q])
  {
    var es: seq<Result<Prop, QueryError>> := [Ok(p), Ok(q)];
    var rest: seq<Result<Prop, QueryError>> := [Ok(q)];
    assert es[1..] == rest;
    assert rest[1..] == [];
    assert Put([], p.key, p.val) == [p];
    assert Get([p], q.key) == None;
    assert Put([p], q.key, q.val) == [p, q];
    calc {
      Fill([], es);
      Fill([p], rest);
      Fill([p, q], []);
    }
  }

  /**
   * A query such as `12345&x=5`: the piece without "=" lands under the key
   * "", next to the properties of the `k=v` pieces.
   */
  lemma ValueWithoutKey(a: string, k: string, v: string, location: string, dec: Decoder)
    requires '&' !in a && '=' !in a && '&' !in k && '=' !in k && '&' !in v && '=' !in v
    requires k != ""
    requires dec(a) == Some(a) && dec(k) == Some(k) && dec(v) == Some(v)
    ensures Parse(Str(a + "&" + k + "=" + v), "", location, dec) == Ok(Obj([Prop("", Str(a)), Prop(k, Str(v))]))
  {
    var kv := k + "=" + v;
    var pieces := [a, kv];
    var es := [Prop("", Str(a)), Prop(k, Str(v))];
    assert Join(pieces, "&") == a + "&" + k + "=" + v;
    assert '&' !in kv;
    SplitJoin(pieces, '&');
    NoEqualsUnderEmptyKey(a, dec);
    KeyValuePiece(k, v, "", dec);
    assert kv + "" == kv;
    assert Entry(kv, dec) == Ok(es[1]);
    var rs := Entries(pieces, dec);
    assert rs[0] == Ok(es[0]) && rs[1] == Ok(es[1]);
    assert rs == [Ok(es[0]), Ok(es[1])];
    FillTwo(es[0], es[1]);
    ParseOfPieces(a + "&" + k + "=" + v, "", location, dec, pieces, es);
  }

  /** A non-empty query parses to the dictionary its pieces fill. */
  lemma ParseOfPieces(s: string, sep: string, location: string, dec: Decoder, pieces: seq<string>, d: Dict)
    requires s != "" && Split(s, Separator(sep)) == pieces && Fill([], Entries(pieces, dec)) == Ok(d)
    ensures Parse(Str(s), sep, location, dec) == Ok(Obj(d))
  {
  }

  // ---------------------------------------------------------------------
  // buildQuery
  // ---------------------------------------------------------------------

  /**
   * The name of an entry: `prefix[key]`, or the bare key when the prefix is
   * falsy. Array indices under a falsy prefix stay numbers, so index 0 is a
   * falsy prefix in turn.
   */
  function KeyName(prefix: Value, key: string): Value {
    if Truthy(prefix) then Str(ToStr(prefix) + "[" + key + "]") else Str(key)
  }

  function IndexName(prefix: Value, i: nat): Value {
    if Truthy(prefix) then Str(ToStr(prefix) + "[" + NatToStr(i) + "]") else Num(i)
  }

  /** What `buildValue(name, value)` pushes: a dictionary or array recursively, a scalar as one pair. */
  function Pairs(name: Value, v: Value, enc: Encoder): seq<string>
    decreases v, 1, 0
  {
    match v
    case Obj(_) => DictPairs(v, name, 0, enc)
    case Arr(_) => ArrayPairs(v, name, 0, enc)
    case _ => [ToStr(name) + "=" + enc(ToStr(v))]
  }

  /** What `buildDict(vars, prefix)` pushes for the properties from index `i` on. */
  function DictPairs(vars: Value, prefix: Value, i: nat, enc: Encoder): seq<string>
    requires vars.Obj? && i <= |vars.props|
    decreases vars, 0, |vars.props| - i
  {
    if i == |vars.props| then []
    else Pairs(KeyName(prefix, vars.props[i].key), vars.props[i].val, enc) + DictPairs(vars, prefix, i + 1, enc)
  }

  /** What `buildArray(vars, prefix)` pushes for the items from index `i` on. */
  function ArrayPairs(vars: Value, prefix: Value, i: nat, enc: Encoder): seq<string>
    requires vars.Arr? && i <= |vars.items|
    decreases vars, 0, |vars.items| - i
  {
    if i == |vars.items| then []
    else Pairs(IndexName(prefix, i), vars.items[i], enc) + ArrayPairs(vars, prefix, i + 1, enc)
  }

  /**
   * The own enumerable properties `for..in` visits at the top level: those
   * of a dictionary, the indices of an array as strings, none for other
   * non-string values.
   */
  function TopEntries(vars: Value): (r: Dict)
  {
    match vars
    case Obj(props) => props
    case Arr(items) => IndexEntries(items)
    case _ => []
  }

  /** What `buildQuery(vars, sep)` returns. */
  function Build(vars: Value, sep: string, enc: Encoder): string {
    if vars.Str? then vars.s
    else Join(DictPairs(Obj(TopEntries(vars)), Str(""), 0, enc), Separator(sep))
  }

  /** `buildValue(name, value)`, pushing onto `query`. */
  method BuildValue(name: Value, v: Value, enc: Encoder, query: seq<string>) returns (query': seq<string>)
    ensures query' == query + Pairs(name, v, enc)
    decreases v, 1
  {
    match v {
      case Obj(_) => query' := BuildDict(v, name, enc, query);
      case Arr(_) => query' := BuildArray(v, name, enc, query);
      case _ => query' := query + [ToStr(name) + "=" + enc(ToStr(v))];
    }
  }

  /** `buildDict(vars, prefix)`, pushing onto `query`. */
  method BuildDict(vars: Value, prefix: Value, enc: Encoder, query: seq<string>) returns (query': seq<string>)
    requires vars.Obj?
    ensures query' == query + DictPairs(vars, prefix, 0, enc)
    decreases vars, 0
  {
    query' := query;
    for i := 0 to |vars.props|
      invariant query' + DictPairs(vars, prefix, i, enc) == query + DictPairs(vars, prefix, 0, enc)
    {
      var k := vars.props[i].key;
      DictPairsStep(vars, prefix, i, enc, query');
      query' := BuildValue(KeyName(prefix, k), vars.props[i].val, enc, query');
    }
  }

  /** One pass of the loop of `buildDict` pushes the pairs of entry `i`. */
  lemma DictPairsStep(vars: Value, prefix: Value, i: nat, enc: Encoder, q: seq<string>)
    requires vars.Obj? && i < |vars.props|
    ensures q + DictPairs(vars, prefix, i, enc)
         == (q + Pairs(KeyName(prefix, vars.props[i].key), vars.props[i].val, enc)) + DictPairs(vars, prefix, i + 1, enc)
  {
  }

  /** `buildArray(vars, prefix)`, pushing onto `query`. */
  method BuildArray(vars: Value, prefix: Value, enc: Encoder, query: seq<string>) returns (query': seq<string>)
    requires vars.Arr?
    ensures query' == query + ArrayPairs(vars, prefix, 0, enc)
    decreases vars, 0
  {
    query' := query;
    for i := 0 to |vars.items|
      invariant query' + ArrayPairs(vars, prefix, i, enc) == query + ArrayPairs(vars, prefix, 0, enc)
    {
      ArrayPairsStep(vars, prefix, i, enc, query');
      query' := BuildValue(IndexName(prefix, i), vars.items[i], enc, query');
    }
  }

  /** One pass of the loop of `buildArray` pushes the pairs of item `i`. */
  lemma ArrayPairsStep(vars: Value, prefix: Value, i: nat, enc: Encoder, q: seq<string>)
    requires vars.Arr? && i < |vars.items|
    ensures q + ArrayPairs(vars, prefix, i, enc)
         == (q + Pairs(IndexName(prefix, i), vars.items[i], enc)) + ArrayPairs(vars, prefix, i + 1, enc)
  {
  }

  /** `go.Lang.buildQuery(vars, sep)`. */
  method BuildQuery(vars: Value, sep: string, enc: Encoder) returns (r: string)
    ensures r == Build(vars, sep, enc)
  {
    if vars.Str? {
      return vars.s;
    }
    var query := BuildDict(Obj(TopEntries(vars)), Str(""), enc, []);
    assert query == DictPairs(Obj(TopEntries(vars)), Str(""), 0, enc);
    r := Join(query, Separator(sep));
  }

  // ---------------------------------------------------------------------
  // buildQuery as one pair per scalar leaf
  // ---------------------------------------------------------------------

  /** A scalar inside nested dictionaries and arrays, with the keys and indices leading to it. */
  datatype Leaf = Leaf(path: seq<string>, val: Value)

  /** The scalar leaves of a value, depth first, keys in property order and indices in order. */
  function LeavesOf(v: Value): seq<Leaf>
    decreases v, 1, 0
  {
    match v
    case Obj(_) => DictLeaves(v, 0)
    case Arr(_) => ArrayLeaves(v, 0)
    case _ => [Leaf([], v)]
  }

  function DictLeaves(vars: Value, i: nat): seq<Leaf>
    requires vars.Obj? && i <= |vars.props|
    decreases vars, 0, |vars.props| - i
  {
    if i == |vars.props| then []
    else Under(vars.props[i].key, LeavesOf(vars.props[i].val)) + DictLeaves(vars, i + 1)
  }

  function ArrayLeaves(vars: Value, i: nat): seq<Leaf>
    requires vars.Arr? && i <= |vars.items|
    decreases vars, 0, |vars.items| - i
  {
    if i == |vars.items| then []
    else Under(NatToStr(i), LeavesOf(vars.items[i])) + ArrayLeaves(vars, i + 1)
  }

  /** The leaves moved one level down, under key `k`. */
  function Under(k: string, ls: seq<Leaf>): (r: seq<Leaf>)
  {
    seq(|ls|, j requires 0 <= j < |ls| => Leaf([k] + ls[j].path, ls[j].val))
  }

  /** `[p1][p2]...`. */
  function Brackets(path: seq<string>): string
    decreases |path|
  {
    if path == [] then "" else "[" + path[0] + "]" + Brackets(path[1..])
  }

  /** The pairs for leaves below the name `s`. */
  function Rendered(s: string, ls: seq<Leaf>, enc: Encoder): (r: seq<string>)
  {
    seq(|ls|, j requires 0 <= j < |ls| => s + Brackets(ls[j].path) + "=" + enc(ToStr(ls[j].val)))
  }

  /** The name of a top-level leaf: its first key bare, the rest in brackets. */
  function LeafName(path: seq<string>): string {
    if path == [] then "" else path[0] + Brackets(path[1..])
  }

  /** The pairs for top-level leaves. */
  function TopRendered(ls: seq<Leaf>, enc: Encoder): (r: seq<string>)
  {
    seq(|ls|, j requires 0 <= j < |ls| => LeafName(ls[j].path) + "=" + enc(ToStr(ls[j].val)))
  }

  /** Rendering the leaves of two parts below `s` is rendering each part in turn. */
  lemma RenderedAppend(s: string, a: seq<Leaf>, b: seq<Leaf>, enc: Encoder)
    ensures Rendered(s, a + b, enc) == Rendered(s, a, enc) + Rendered(s, b, enc)
  {
    var l, ra, rb := Rendered(s, a + b, enc), Rendered(s, a, enc), Rendered(s, b, enc);
    forall j | 0 <= j < |a| ensures l[j] == ra[j] {
      assert (a + b)[j] == a[j];
    }
    forall j | |a| <= j < |l| ensures l[j] == rb[j - |a|] {
      assert (a + b)[j] == b[j - |a|];
    }
    assert l == ra + rb;
  }

  lemma TopRenderedAppend(a: seq<Leaf>, b: seq<Leaf>, enc: Encoder)
    ensures TopRendered(a + b, enc) == TopRendered(a, enc) + TopRendered(b, enc)
  {
    var l, ra, rb := TopRendered(a + b, enc), TopRendered(a, enc), TopRendered(b, enc);
    forall j | 0 <= j < |a| ensures l[j] == ra[j] {
      assert (a + b)[j] == a[j];
    }
    forall j | |a| <= j < |l| ensures l[j] == rb[j - |a|] {
      assert (a + b)[j] == b[j - |a|];
    }
    assert l == ra + rb;
  }

  /** Rendering leaves moved under `k` below `s` is rendering them below `s[k]`. */
  lemma RenderedUnder(s: string, k: string, ls: seq<Leaf>, enc: Encoder)
    ensures Rendered(s, Under(k, ls), enc) == Rendered(s + "[" + k + "]", ls, enc)
  {
    var l, r := Rendered(s, Under(k, ls), enc), Rendered(s + "[" + k + "]", ls, enc);
    forall j | 0 <= j < |l| ensures l[j] == r[j] {
      var p, x := ls[j].path, enc(ToStr(ls[j].val));
      assert Under(k, ls)[j] == Leaf([k] + p, ls[j].val);
      assert ([k] + p)[0] == k && ([k] + p)[1..] == p;
      assert l[j] == s + Brackets([k] + p) + "=" + x;
      assert r[j] == s + "[" + k + "]" + Brackets(p) + "=" + x;
    }
  }

  /** Rendering top-level leaves moved under `k` is rendering them below the bare name `k`. */
  lemma TopRenderedUnder(k: string, ls: seq<Leaf>, enc: Encoder)
    ensures TopRendered(Under(k, ls), enc) == Rendered(k, ls, enc)
  {
    var l, r := TopRendered(Under(k, ls), enc), Rendered(k, ls, enc);
    forall j | 0 <= j < |l| ensures l[j] == r[j] {
      var p, x := ls[j].path, enc(ToStr(ls[j].val));
      assert Under(k, ls)[j] == Leaf([k] + p, ls[j].val);
      assert ([k] + p)[0] == k && ([k] + p)[1..] == p;
      assert l[j] == LeafName([k] + p) + "=" + x;
      assert r[j] == k + Brackets(p) + "=" + x;
    }
  }

  /** Below a non-empty name, `buildValue` pushes one pair per leaf, depth first. */
  lemma {:induction false} PairsAreLeaves(s: string, v: Value, enc: Encoder)
    requires s != ""
    ensures Pairs(Str(s), v, enc) == Rendered(s, LeavesOf(v), enc)
    decreases v, 1, 0
  {
    match v
    case Obj(_) => DictPairsAreLeaves(s, v, 0, enc);
    case Arr(_) => ArrayPairsAreLeaves(s, v, 0, enc);
    case _ =>
      var r := Rendered(s, LeavesOf(v), enc);
      assert LeavesOf(v) == [Leaf([], v)];
      assert Brackets([]) == "";
      assert r[0] == s + "" + "=" + enc(ToStr(v));
      assert s + "" == s;
      assert Pairs(Str(s), v, enc) == [s + "=" + enc(ToStr(v))];
  }

  lemma {:induction false} DictPairsAreLeaves(s: string, vars: Value, i: nat, enc: Encoder)
    requires s != "" && vars.Obj? && i <= |vars.props|
    ensures DictPairs(vars, Str(s), i, enc) == Rendered(s, DictLeaves(vars, i), enc)
    decreases vars, 0, |vars.props| - i
  {
    if i < |vars.props| {
      var k := vars.props[i].key;
      var ls := LeavesOf(vars.props[i].val);
      PairsAreLeaves(s + "[" + k + "]", vars.props[i].val, enc);
      DictPairsAreLeaves(s, vars, i + 1, enc);
      RenderedUnder(s, k, ls, enc);
      RenderedAppend(s, Under(k, ls), DictLeaves(vars, i + 1), enc);
    }
  }

  lemma {:induction false} ArrayPairsAreLeaves(s: string, vars: Value, i: nat, enc: Encoder)
    requires s != "" && vars.Arr? && i <= |vars.items|
    ensures ArrayPairs(vars, Str(s), i, enc) == Rendered(s, ArrayLeaves(vars, i), enc)
    decreases vars, 0, |vars.items| - i
  {
    if i < |vars.items| {
      var k := NatToStr(i);
      var ls := LeavesOf(vars.items[i]);
      PairsAreLeaves(s + "[" + k + "]", vars.items[i], enc);
      ArrayPairsAreLeaves(s, vars, i + 1, enc);
      RenderedUnder(s, k, ls, enc);
      RenderedAppend(s, Under(k, ls), ArrayLeaves(vars, i + 1), enc);
    }
  }

  /** At the top level, with no empty key, each entry's leaves are named from the bare key. */
  lemma {:induction false} TopPairsAreLeaves(vars: Value, i: nat, enc: Encoder)
    requires vars.Obj? && i <= |vars.props|
    requires forall j :: 0 <= j < |vars.props| ==> vars.props[j].key != ""
    ensures DictPairs(vars, Str(""), i, enc) == TopRendered(DictLeaves(vars, i), enc)
    decreases |vars.props| - i
  {
    if i < |vars.props| {
      var k := vars.props[i].key;
      var ls := LeavesOf(vars.props[i].val);
      PairsAreLeaves(k, vars.props[i].val, enc);
      TopPairsAreLeaves(vars, i + 1, enc);
      TopRenderedUnder(k, ls, enc);
      TopRenderedAppend(Under(k, ls), DictLeaves(vars, i + 1), enc);
    }
  }

  /**
   * `buildQuery` emits one `name=encode(value)` pair per scalar leaf in
   * depth-first order, names built as `key[k2][k3]...`, joined by the
   * separator; this holds whenever no top-level key is empty.
   */
  lemma BuildIsLeaves(vars: Value, sep: string, enc: Encoder)
    requires !vars.Str?
    requires forall j :: 0 <= j < |TopEntries(vars)| ==> TopEntries(vars)[j].key != ""
    ensures Build(vars, sep, enc) == Join(TopRendered(DictLeaves(Obj(TopEntries(vars)), 0), enc), Separator(sep))
  {
    TopPairsAreLeaves(Obj(TopEntries(vars)), 0, enc);
  }

  /** Array indices are never empty keys, so arrays always render as their leaves. */
  lemma ArrayKeysNonEmpty(items: seq<Value>)
    ensures forall j :: 0 <= j < |TopEntries(Arr(items))| ==> TopEntries(Arr(items))[j].key != ""
  {
  }

  // ---------------------------------------------------------------------
  // buildQuery then parseQuery
  // ---------------------------------------------------------------------

  /** The pairs of a flat dictionary: one `key=encode(value)` per property. */
  function FlatPairs(d: Dict, enc: Encoder): (r: seq<string>)
  {
    seq(|d|, j requires 0 <= j < |d| => d[j].key + "=" + enc(ToStr(d[j].val)))
  }

  /** A flat dictionary of scalars builds to its flat pairs. */
  lemma {:induction false} FlatDictPairs(d: Dict, i: nat, enc: Encoder)
    requires i <= |d|
    requires forall j :: 0 <= j < |d| ==> !d[j].val.Obj? && !d[j].val.Arr?
    ensures DictPairs(Obj(d), Str(""), i, enc) == FlatPairs(d, enc)[i..]
    decreases |d| - i
  {
    if i < |d| {
      FlatDictPairs(d, i + 1, enc);
      assert FlatPairs(d, enc)[i..] == [FlatPairs(d, enc)[i]] + FlatPairs(d, enc)[i + 1..];
    }
  }

  /**
   * Parsing what `buildQuery` made of a flat dictionary of strings gives the
   * dictionary back, when the separator is one character other than "=",
   * no key and no encoded value contains it or "=", and decoding undoes
   * encoding and leaves the keys alone.
   */
  lemma BuildThenParse(d: Dict, c: char, location: string, enc: Encoder, dec: Decoder)
    requires c != '='
    requires UniqueKeys(d)
    requires forall j :: 0 <= j < |d| ==> d[j].val.Str?
    requires forall j :: 0 <= j < |d| ==> c !in d[j].key && '=' !in d[j].key && dec(d[j].key) == Some(d[j].key)
    requires forall j :: 0 <= j < |d| ==>
               c !in enc(d[j].val.s) && '=' !in enc(d[j].val.s) && dec(enc(d[j].val.s)) == Some(d[j].val.s)
    ensures Parse(Str(Build(Obj(d), [c], enc)), [c], location, dec) == Ok(Obj(d))
  {
    var pairs := FlatPairs(d, enc);
    FlatDictPairs(d, 0, enc);
    assert pairs[0..] == pairs;
    var q := Join(pairs, [c]);
    assert Build(Obj(d), [c], enc) == q;
    if |d| > 0 {
      FlatPiecesDecode(d, c, enc, dec);
      SplitJoin(pairs, c);
      JoinNonEmpty(pairs, [c]);
      assert d[..0] == [];
      FillFresh(d, 0, Entries(pairs, dec));
      ParseOfPieces(q, [c], location, dec, pairs, d);
    }
  }

  /** Each flat pair holds no separator and decodes to its property. */
  lemma FlatPiecesDecode(d: Dict, c: char, enc: Encoder, dec: Decoder)
    requires c != '='
    requires forall j :: 0 <= j < |d| ==> d[j].val.Str?
    requires forall j :: 0 <= j < |d| ==> c !in d[j].key && '=' !in d[j].key && dec(d[j].key) == Some(d[j].key)
    requires forall j :: 0 <= j < |d| ==>
               c !in enc(d[j].val.s) && '=' !in enc(d[j].val.s) && dec(enc(d[j].val.s)) == Some(d[j].val.s)
    ensures forall j :: 0 <= j < |d| ==> c !in FlatPairs(d, enc)[j] && Entry(FlatPairs(d, enc)[j], dec) == Ok(d[j])
  {
    var pairs := FlatPairs(d, enc);
    forall j | 0 <= j < |d| ensures c !in pairs[j] && Entry(pairs[j], dec) == Ok(d[j]) {
      var k, x := d[j].key, enc(d[j].val.s);
      assert pairs[j] == k + "=" + enc(ToStr(d[j].val));
      assert pairs[j] == k + "=" + x + "";
      KeyValuePiece(k, x, "", dec);
    }
  }

  /** Joining pieces whose first one is not empty gives a non-empty string. */
  lemma JoinNonEmpty(xs: seq<string>, sep: string)
    requires |xs| >= 1 && xs[0] != ""
    ensures Join(xs, sep) != ""
  {
  }
}

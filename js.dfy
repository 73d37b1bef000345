/**
 * JavaScript values as the core sees them, the ordered dictionaries that
 * plain objects are, truthiness, and the conversion to string that `+`
 * applies.
 */
module Js {
  import opened Wrappers
  import opened Strings

  /**
   * A JavaScript value. `Obj` and `Arr` are an object or an array given by
   * value (a literal the callee only reads); `Ref` is an object that lives in
   * a `Heap.Store` and is updated in place; `Fn` is a function and `Cls` a
   * class built by `go.Class`, both compared by identity. Numbers are
   * integers.
   */
  datatype Value =
    | Undefined
    | Null
    | Bool(b: bool)
    | Num(n: int)
    | Str(s: string)
    | Fn(fid: nat)
    | Cls(cid: nat)
    | Ref(oid: nat)
    | Arr(items: seq<Value>)
    | Obj(props: seq<Prop>)

  /** One own property of an object. */
  datatype Prop = Prop(key: string, val: Value)

  /** The own properties of a plain object, in insertion order (the order `for..in` visits). */
  type Dict = seq<Prop>

  /** JavaScript's truthiness: `undefined`, `null`, `false`, `0` and `""` are falsy. */
  predicate Truthy(v: Value) {
    match v
    case Undefined => false
    case Null => false
    case Bool(b) => b
    case Num(n) => n != 0
    case Str(s) => s != ""
    case _ => true
  }

  /** The keys of a dictionary, in order. */
  function KeysOf(d: Dict): (r: seq<string>)
    ensures |r| == |d| && forall i {:trigger r[i]} :: 0 <= i < |d| ==> r[i] == d[i].key
  {
    seq(|d|, i requires 0 <= i < |d| => d[i].key)
  }

  /**
   * The indexed properties of an array (or of a string's characters): each
   * item under its decimal index, in order. No index name repeats, and each
   * index name reads back its item.
   */
  function IndexEntries(items: seq<Value>): (r: Dict)
    ensures |r| == |items|
    ensures UniqueKeys(r)
    ensures forall i :: 0 <= i < |items| ==> Get(r, NatToStr(i)) == Some(items[i])
  {
    var r := seq(|items|, i requires 0 <= i < |items| => Prop(NatToStr(i), items[i]));
    assert UniqueKeys(r) by {
      forall a, b | 0 <= a < b < |r| ensures r[a].key != r[b].key {
        if NatToStr(a) == NatToStr(b) {
          NatToStrInjective(a, b);
        }
      }
    }
    assert forall i :: 0 <= i < |items| ==> Get(r, NatToStr(i)) == Some(items[i]) by {
      forall i | 0 <= i < |items| ensures Get(r, NatToStr(i)) == Some(items[i]) {
        GetFirst(r, i, NatToStr(i));
      }
    }
    r
  }

  /** No key occurs twice, as in every JavaScript object. */
  predicate UniqueKeys(d: Dict) {
    forall i, j :: 0 <= i < j < |d| ==> d[i].key != d[j].key
  }

  /** The own property `k`, if there is one. */
  function Get(d: Dict, k: string): Option<Value> {
    if d == [] then None
    else if d[0].key == k then Some(d[0].val)
    else Get(d[1..], k)
  }

  /** A key is missing exactly when it is not among the keys. */
  lemma {:induction false} GetKeys(d: Dict, k: string)
    ensures Get(d, k).None? <==> k !in KeysOf(d)
  {
    if d != [] {
      if d[0].key == k {
        assert KeysOf(d)[0] == k;
      } else {
        GetKeys(d[1..], k);
        assert KeysOf(d) == [d[0].key] + KeysOf(d[1..]);
      }
    }
  }

  /** `Get` finds the first property that carries the key. */
  lemma {:induction false} GetFirst(d: Dict, j: nat, k: string)
    requires j < |d| && d[j].key == k
    requires forall i :: 0 <= i < j ==> d[i].key != k
    ensures Get(d, k) == Some(d[j].val)
    decreases j
  {
    if j > 0 {
      assert d[0].key != k;
      GetFirst(d[1..], j - 1, k);
    }
  }

  /** `obj[k]` on a plain object: the own property, or `undefined`. */
  function PropOf(d: Dict, k: string): Value {
    match Get(d, k)
    case Some(v) => v
    case None => Undefined
  }

  /** `obj[k] = v`: an existing key keeps its place, a new key goes last. */
  function Put(d: Dict, k: string, v: Value): (r: Dict)
    ensures Get(r, k) == Some(v)
    ensures forall k' {:trigger Get(r, k')} :: k' != k ==> Get(r, k') == Get(d, k')
    ensures Get(d, k).Some? ==> |r| == |d| && forall i :: 0 <= i < |d| ==> r[i].key == d[i].key
    ensures Get(d, k).None? ==> r == d + [Prop(k, v)]
  {
    if d == [] then [Prop(k, v)]
    else if d[0].key == k then [Prop(k, v)] + d[1..]
    else
      var r := [d[0]] + Put(d[1..], k, v);
      assert r[0] == d[0] && r[1..] == Put(d[1..], k, v);
      assert d == [d[0]] + d[1..];
      r
  }

  /** `delete obj[k]`. */
  function Delete(d: Dict, k: string): (r: Dict)
    ensures Get(r, k) == None
    ensures forall k' {:trigger Get(r, k')} :: k' != k ==> Get(r, k') == Get(d, k')
  {
    if d == [] then []
    else if d[0].key == k then Delete(d[1..], k)
    else
      var r := [d[0]] + Delete(d[1..], k);
      assert r[0] == d[0] && r[1..] == Delete(d[1..], k);
      r
  }

  /**
   * `String(v)`, the conversion `+` applies to a non-string operand. A
   * function's source text is not modelled: functions and classes render as
   * the fixed text "function".
   */
  function ToStr(v: Value): string
    decreases v
  {
    match v
    case Undefined => "undefined"
    case Null => "null"
    case Bool(b) => if b then "true" else "false"
    case Num(n) => IntToStr(n)
    case Str(s) => s
    case Fn(_) => "function"
    case Cls(_) => "function"
    case Ref(_) => "[object Object]"
    case Obj(_) => "[object Object]"
    case Arr(items) =>
      Join(seq(|items|, i requires 0 <= i < |items| =>
                 if items[i] == Undefined || items[i] == Null then "" else ToStr(items[i])), ",")
  }
}

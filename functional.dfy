/**
 * `go.Lang.curry` and `go.Lang.tryDo`: a closure that prepends stored
 * arguments, and the first function of a list that returns without
 * throwing.
 */
module Functional {
  import opened Wrappers
  import opened Js

  /**
   * A function as `fn.apply(global, args)` sees it: the argument list in,
   * a value out. The receiver is always the global object and is not
   * modelled.
   */
  type Callable = seq<Value> -> Value

  /** `go.Lang.curry(fn, a...)`: a function that calls `fn` with `a` followed by its own arguments. */
  function Curry(fn: Callable, cargs: seq<Value>): (g: Callable)
  {
    args => fn(cargs + args)
  }

  /** Currying a curried function calls the original with both stored prefixes, in order, then the call's own arguments. */
  lemma CurryCurry(fn: Callable, a: seq<Value>, b: seq<Value>, args: seq<Value>)
    ensures Curry(Curry(fn, a), b)(args) == fn(a + b + args)
  {
    assert a + (b + args) == a + b + args;
  }

  /** How a call ends: it returns a value or throws one. */
  datatype Outcome = Returns(v: Value) | Throws(e: Value)

  /** Index of the first outcome that returns, if any. */
  function FirstSuccess(outs: seq<Outcome>): (r: Option<nat>)
    ensures r.Some? ==> r.value < |outs| && outs[r.value].Returns?
    ensures r.Some? ==> forall j :: 0 <= j < r.value ==> outs[j].Throws?
    ensures r.None? <==> forall j :: 0 <= j < |outs| ==> outs[j].Throws?
  {
    if outs == [] then None
    else if outs[0].Returns? then Some(0)
    else match FirstSuccess(outs[1..])
      case None => None
      case Some(i) => Some(i + 1)
  }

  /** The outcomes the functions of a list would have if each were called. */
  function Outcomes(funcs: seq<() -> Outcome>): (outs: seq<Outcome>)
  {
    seq(|funcs|, i requires 0 <= i < |funcs| => funcs[i]())
  }

  /**
   * Functions after the first successful one do not matter: appending more
   * to a list that already has a success leaves the chosen index alone.
   */
  lemma SuccessIgnoresTail(outs: seq<Outcome>, more: seq<Outcome>)
    requires FirstSuccess(outs).Some?
    ensures FirstSuccess(outs + more) == FirstSuccess(outs)
  {
    var i := FirstSuccess(outs).value;
    var all := outs + more;
    assert all[i] == outs[i];
    assert forall j :: 0 <= j < i ==> all[j] == outs[j];
  }

  /**
   * `go.Lang.tryDo(funcs)`: calls the functions in order and returns the
   * result of the first that does not throw; `calls` counts the calls
   * made, so that the functions after the successful one are seen not to
   * run. When every function throws the result is `undefined`.
   */
  method TryDo(funcs: seq<() -> Outcome>) returns (r: Value, calls: nat)
    ensures match FirstSuccess(Outcomes(funcs))
      case Some(i) => r == funcs[i]().v && calls == i + 1
      case None => r == Undefined && calls == |funcs|
  {
    ghost var outs := Outcomes(funcs);
    var i := 0;
    calls := 0;
    while i < |funcs|
      invariant 0 <= i <= |funcs| && calls == i
      invariant forall j :: 0 <= j < i ==> outs[j].Throws?
    {
      var o := funcs[i]();
      calls := calls + 1;
      if o.Returns? {
        assert outs[i].Returns?;
        ghost var f := FirstSuccess(outs);
        assert f.Some? && f.value == i;
        return o.v, calls;
      }
      i := i + 1;
    }
    r := Undefined;
  }
}

/**
 * The few JavaScript string primitives the core relies on: `indexOf`,
 * `split` (with and without a limit), `Array.prototype.join`, the
 * whitespace trim done with `/^\s+/` and `/\s+$/`, a global character
 * replace, and the decimal rendering of integers.
 */
module Strings {
  import opened Wrappers

  /** `pat` occurs in `s` starting at index `i`. */
  predicate OccursAt(s: string, pat: string, i: nat) {
    i + |pat| <= |s| && s[i..i + |pat|] == pat
  }

  /** First index at or after `i` where `pat` occurs in `s`. */
  function IndexFrom(s: string, pat: string, i: nat): (r: Option<nat>)
    requires |pat| > 0 && i <= |s|
    ensures r.Some? ==> i <= r.value && OccursAt(s, pat, r.value)
    ensures r.Some? ==> forall j :: i <= j < r.value ==> !OccursAt(s, pat, j)
    ensures r.None? ==> forall j :: i <= j ==> !OccursAt(s, pat, j)
    decreases |s| - i
  {
    if i + |pat| > |s| then None
    else if s[i..i + |pat|] == pat then Some(i)
    else IndexFrom(s, pat, i + 1)
  }

  /** `s.indexOf(pat)`, with None for -1. */
  function IndexOf(s: string, pat: string): Option<nat>
    requires |pat| > 0
  {
    IndexFrom(s, pat, 0)
  }

  /** `s.split(sep)` for a non-empty separator: the pieces between the occurrences of `sep`. */
  function Split(s: string, sep: string): (r: seq<string>)
    requires |sep| > 0
    ensures |r| >= 1
    decreases |s|
  {
    match IndexOf(s, sep)
    case None => [s]
    case Some(i) => [s[..i]] + Split(s[i + |sep|..], sep)
  }

  /** The first `n` elements of `xs`, or all of them. */
  function Take<T>(xs: seq<T>, n: nat): (r: seq<T>)
    ensures |r| == if |xs| < n then |xs| else n
    ensures forall i :: 0 <= i < |r| ==> r[i] == xs[i]
  {
    if |xs| < n then xs else xs[..n]
  }

  /** `s.split(sep, limit)`: the first `limit` pieces; what follows them is dropped. */
  function SplitN(s: string, sep: string, limit: nat): seq<string>
    requires |sep| > 0
  {
    Take(Split(s, sep), limit)
  }

  /** `xs.join(sep)`. */
  function Join(xs: seq<string>, sep: string): string
  {
    if |xs| == 0 then ""
    else if |xs| == 1 then xs[0]
    else xs[0] + sep + Join(xs[1..], sep)
  }

  /** Joining the pieces of a split with the same separator gives back the string. */
  lemma {:induction false} JoinSplit(s: string, sep: string)
    requires |sep| > 0
    ensures Join(Split(s, sep), sep) == s
    decreases |s|
  {
    match IndexOf(s, sep)
    case None =>
    case Some(i) =>
      var rest := s[i + |sep|..];
      var tail := Split(rest, sep);
      JoinSplit(rest, sep);
      var xs := [s[..i]] + tail;
      assert Split(s, sep) == xs;
      assert xs[1..] == tail;
      assert Join(xs, sep) == s[..i] + sep + Join(tail, sep);
      assert s[i..i + |sep|] == sep;
      assert s == s[..i] + s[i..i + |sep|] + rest;
  }

  /** A separator character that occurs in no piece is found right after the first piece. */
  lemma IndexAfterPiece(a: string, c: char, b: string)
    requires c !in a
    ensures IndexOf(a + [c] + b, [c]) == Some(|a|)
  {
    var s := a + [c] + b;
    assert OccursAt(s, [c], |a|) by { assert s[|a|..|a| + 1] == [c]; }
    forall j | 0 <= j < |a| ensures !OccursAt(s, [c], j) {
      assert s[j..j + 1] == [a[j]];
    }
  }

  /** A string without the character `c` splits on `c` into itself. */
  lemma SplitAbsent(s: string, c: char)
    requires c !in s
    ensures Split(s, [c]) == [s]
  {
    forall j | 0 <= j < |s| ensures !OccursAt(s, [c], j) {
      assert s[j..j + 1] == [s[j]];
    }
  }

  /** Splitting a join on a one-character separator that no piece contains gives back the pieces. */
  lemma {:induction false} SplitJoin(xs: seq<string>, c: char)
    requires |xs| >= 1
    requires forall i :: 0 <= i < |xs| ==> c !in xs[i]
    ensures Split(Join(xs, [c]), [c]) == xs
  {
    if |xs| == 1 {
      SplitAbsent(xs[0], c);
    } else {
      var rest := Join(xs[1..], [c]);
      assert Join(xs, [c]) == xs[0] + [c] + rest;
      IndexAfterPiece(xs[0], c, rest);
      SplitJoin(xs[1..], c);
      assert (xs[0] + [c] + rest)[|xs[0]| + 1..] == rest;
      assert (xs[0] + [c] + rest)[..|xs[0]|] == xs[0];
      assert xs == [xs[0]] + xs[1..];
    }
  }

  /** The characters JavaScript's `\s` matches: WhiteSpace and LineTerminator. */
  predicate IsSpace(ch: char) {
    ch == '\t' || ch == '\n' || ch == '\U{000B}' || ch == '\U{000C}' || ch == '\r' || ch == ' '
    || ch == '\U{00A0}' || ch == '\U{1680}' || ('\U{2000}' <= ch <= '\U{200A}')
    || ch == '\U{2028}' || ch == '\U{2029}' || ch == '\U{202F}' || ch == '\U{205F}'
    || ch == '\U{3000}' || ch == '\U{FEFF}'
  }

  /** `s.replace(/^\s+/, "")`. */
  function TrimStart(s: string): (r: string)
    ensures |r| <= |s|
    ensures r == [] || !IsSpace(r[0])
  {
    if |s| > 0 && IsSpace(s[0]) then TrimStart(s[1..]) else s
  }

  /** What `TrimStart` removes is a run of whitespace at the front, and nothing else. */
  lemma {:induction false} TrimStartStrips(s: string)
    ensures var r := TrimStart(s);
      r == s[|s| - |r|..] && forall i :: 0 <= i < |s| - |r| ==> IsSpace(s[i])
    decreases |s|
  {
    if |s| > 0 && IsSpace(s[0]) {
      TrimStartStrips(s[1..]);
      assert forall i :: 1 <= i < |s| ==> s[i] == s[1..][i - 1];
    }
  }

  /** `s.replace(/\s+$/, "")`. */
  function TrimEnd(s: string): (r: string)
    ensures |r| <= |s|
    ensures r == [] || !IsSpace(r[|r| - 1])
  {
    if |s| > 0 && IsSpace(s[|s| - 1]) then TrimEnd(s[..|s| - 1]) else s
  }

  /** What `TrimEnd` removes is a run of whitespace at the back, and nothing else. */
  lemma {:induction false} TrimEndStrips(s: string)
    ensures var r := TrimEnd(s);
      r == s[..|r|] && forall i :: |r| <= i < |s| ==> IsSpace(s[i])
    decreases |s|
  {
    if |s| > 0 && IsSpace(s[|s| - 1]) {
      var p := s[..|s| - 1];
      TrimEndStrips(p);
      var r := TrimEnd(p);
      assert r == TrimEnd(s);
      assert p[..|r|] == s[..|r|];
      assert forall i :: |r| <= i < |p| ==> p[i] == s[i];
    }
  }

  /** Leading then trailing whitespace removed. */
  function Trim(s: string): string {
    TrimEnd(TrimStart(s))
  }

  /** A trimmed string neither starts nor ends with whitespace. */
  lemma TrimEdges(s: string)
    ensures var t := Trim(s); t == [] || (!IsSpace(t[0]) && !IsSpace(t[|t| - 1]))
  {
    var u := TrimStart(s);
    TrimEndStrips(u);
    var t := TrimEnd(u);
    if t != [] {
      assert t[0] == u[0];
    }
  }

  /** A string that starts and ends with no whitespace is its own trim. */
  lemma TrimmedAlready(t: string)
    requires t != [] ==> !IsSpace(t[0]) && !IsSpace(t[|t| - 1])
    ensures Trim(t) == t
  {
  }

  /**
   * `s.replace(/x/g, y)` for single characters `x` and `y`: no `x` is left
   * when `y` differs from it, every other character stays in place, and
   * when `s` has no `y` the `y`s of the result mark exactly where the `x`s
   * were.
   */
  function ReplaceChar(s: string, x: char, y: char): (r: string)
    ensures |r| == |s|
    ensures x != y ==> x !in r
    ensures forall i :: 0 <= i < |s| && s[i] != x ==> r[i] == s[i]
    ensures y !in s ==> forall i :: 0 <= i < |s| ==> (r[i] == y <==> s[i] == x)
  {
    seq(|s|, i requires 0 <= i < |s| => if s[i] == x then y else s[i])
  }

  /** Replacing back undoes a replacement into a character the string did not hold. */
  lemma ReplaceCharBack(s: string, x: char, y: char)
    requires y !in s
    ensures ReplaceChar(ReplaceChar(s, x, y), y, x) == s
  {
    var r := ReplaceChar(s, x, y);
    forall i | 0 <= i < |s| ensures ReplaceChar(r, y, x)[i] == s[i] {
      if s[i] == x {
        assert r[i] == y;
      } else {
        assert r[i] == s[i] != y;
      }
    }
  }

  /** Replacing twice is replacing once. */
  lemma ReplaceCharTwice(s: string, x: char, y: char)
    ensures ReplaceChar(ReplaceChar(s, x, y), x, y) == ReplaceChar(s, x, y)
  {
    var r := ReplaceChar(s, x, y);
    if x != y {
      forall i | 0 <= i < |r| ensures ReplaceChar(r, x, y)[i] == r[i] {
        assert r[i] != x;
      }
    }
  }

  /** Decimal digit for 0..9. */
  function Digit(d: nat): char
    requires d < 10
  {
    "0123456789"[d]
  }

  /** Decimal rendering of a natural number, as `String(n)` gives it. */
  function NatToStr(n: nat): (r: string)
    ensures |r| >= 1
    ensures forall i :: 0 <= i < |r| ==> '0' <= r[i] <= '9'
  {
    if n < 10 then [Digit(n)] else NatToStr(n / 10) + [Digit(n % 10)]
  }

  /** `String(n)` is one character long exactly for the numbers below ten. */
  lemma OneDigit(n: nat)
    ensures |NatToStr(n)| == 1 <==> n < 10
  {
    if n >= 10 {
      assert |NatToStr(n)| == |NatToStr(n / 10)| + 1;
    }
  }

  /** Different numbers render differently, since `String(n)` has no leading zeros. */
  lemma {:induction false} NatToStrInjective(a: nat, b: nat)
    requires NatToStr(a) == NatToStr(b)
    ensures a == b
    decreases a
  {
    OneDigit(a);
    OneDigit(b);
    if a >= 10 && b >= 10 {
      var ra, rb := NatToStr(a / 10), NatToStr(b / 10);
      assert |ra| == |rb|;
      assert ra == NatToStr(a)[..|ra|] == NatToStr(b)[..|rb|] == rb;
      NatToStrInjective(a / 10, b / 10);
      assert Digit(a % 10) == NatToStr(a)[|ra|] == Digit(b % 10);
    } else if a < 10 && b < 10 {
      assert Digit(a) == NatToStr(a)[0] == Digit(b);
    }
  }

  /** Decimal rendering of an integer, with a leading minus sign when negative. */
  function IntToStr(n: int): string {
    if n < 0 then "-" + NatToStr(-n) else NatToStr(n)
  }
}

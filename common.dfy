/** Small shared vocabulary: optional values, numbers that may be NaN,
    substring search, Python's min/max on reals, and sums of sequences. */
module Common {

  datatype Option<+T> = None | Some(value: T)

  /** A pandas cell that holds either a number or NaN (a missing value). */
  datatype Num = Real(v: real) | NaN {
    /** The comparison `x > 0` as Python evaluates it: false for NaN. */
    predicate Positive() { Real? && v > 0.0 }
  }

  /** Python's `sub in s` for strings. */
  predicate Contains(s: string, sub: string)
    decreases |s|
  {
    (|sub| <= |s| && s[..|sub|] == sub) || (|s| > 0 && Contains(s[1..], sub))
  }

  function Min(a: real, b: real): (r: real)
    ensures r <= a && r <= b && (r == a || r == b)
  {
    if b < a then b else a
  }

  function Max(a: real, b: real): (r: real)
    ensures r >= a && r >= b && (r == a || r == b)
  {
    if b > a then b else a
  }

  /** `max(lo, min(hi, x))`, the clamping idiom of the scoring formulas. */
  function Clamp(lo: real, hi: real, x: real): (r: real)
    requires lo <= hi
    ensures lo <= r <= hi
    ensures lo <= x <= hi ==> r == x
  {
    Max(lo, Min(hi, x))
  }

  function Abs(x: real): (r: real)
    ensures r >= 0.0 && (r == x || r == -x)
  {
    if x < 0.0 then -x else x
  }

  /** Sum of a sequence of reals, adding from the left. */
  function SumOf(s: seq<real>): real
    decreases |s|
  {
    if |s| == 0 then 0.0 else SumOf(s[..|s| - 1]) + s[|s| - 1]
  }

  lemma {:induction false} SumOfAppend(a: seq<real>, b: seq<real>)
    ensures SumOf(a + b) == SumOf(a) + SumOf(b)
    decreases |b|
  {
    if |b| == 0 {
      assert a + b == a;
    } else {
      assert (a + b)[..|a + b| - 1] == a + b[..|b| - 1];
      SumOfAppend(a, b[..|b| - 1]);
    }
  }

  lemma {:induction false} SumOfCons(x: real, s: seq<real>)
    ensures SumOf([x] + s) == x + SumOf(s)
  {
    SumOfAppend([x], s);
    assert [x][..0] == [];
  }

  lemma {:induction false} SumOfNonNegative(s: seq<real>)
    requires forall i :: 0 <= i < |s| ==> s[i] >= 0.0
    ensures SumOf(s) >= 0.0
    decreases |s|
  {
    if |s| > 0 {
      SumOfNonNegative(s[..|s| - 1]);
    }
  }

  /** With non-negative terms, a prefix never sums to more than the whole. */
  lemma {:induction false} SumOfPrefixBound(s: seq<real>, k: nat)
    requires k <= |s|
    requires forall i :: 0 <= i < |s| ==> s[i] >= 0.0
    ensures SumOf(s[..k]) <= SumOf(s)
  {
    assert s == s[..k] + s[k..];
    SumOfAppend(s[..k], s[k..]);
    SumOfNonNegative(s[k..]);
  }
}

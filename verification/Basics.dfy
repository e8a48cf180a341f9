/** Shared vocabulary: bytes, options, small integer helpers and sums. */
module Basics {

  /** A C++ `char` seen as an unsigned byte. */
  type byte = c: char | c as int < 256 witness 'a'

  datatype Option<+T> = None | Some(value: T) {
    predicate IsFailure() { None? }

    function PropagateFailure<U>(): Option<U>
      requires None?
    {
      None
    }

    function Extract(): T
      requires Some?
    {
      value
    }
  }

  function Min(a: int, b: int): int { if a < b then a else b }

  function Max(a: int, b: int): int { if a < b then b else a }

  function MaxReal(a: real, b: real): real { if a < b then b else a }

  function MinReal(a: real, b: real): real { if b < a then b else a }

  /** std::clamp, with the bounds in order. */
  function Clamp(x: int, lo: int, hi: int): int
    requires lo <= hi
  {
    if x < lo then lo else if hi < x then hi else x
  }

  /** Ceiling division, in the form the sources write it. */
  function CeilDiv(a: nat, b: nat): nat
    requires 0 < b
  {
    (a + b - 1) / b
  }

  /** The two inequalities that pin a ceiling quotient down. */
  lemma CeilDivBounds(a: nat, b: nat)
    requires 0 < b
    ensures CeilDiv(a, b) * b >= a
    ensures (CeilDiv(a, b) - 1) * b < a
  {
    var q := CeilDiv(a, b);
    var r := (a + b - 1) % b;
    assert a + b - 1 == q * b + r;
    assert (q - 1) * b == q * b - b;
  }

  function Sum(xs: seq<int>): int
  {
    if xs == [] then 0 else Sum(xs[..|xs| - 1]) + xs[|xs| - 1]
  }

  lemma {:induction false} SumUpdate(xs: seq<int>, i: nat, v: int)
    requires i < |xs|
    ensures Sum(xs[i := v]) == Sum(xs) - xs[i] + v
  {
    var n := |xs| - 1;
    if i == n {
      assert xs[i := v][..n] == xs[..n];
    } else {
      assert xs[i := v][..n] == xs[..n][i := v];
      SumUpdate(xs[..n], i, v);
    }
  }

  lemma {:induction false} SumMonotone(xs: seq<int>, ys: seq<int>)
    requires |xs| == |ys|
    requires forall i :: 0 <= i < |xs| ==> xs[i] <= ys[i]
    ensures Sum(xs) <= Sum(ys)
    ensures Sum(xs) == Sum(ys) ==> xs == ys
  {
    if xs != [] {
      var n := |xs| - 1;
      SumMonotone(xs[..n], ys[..n]);
      assert xs == xs[..n] + [xs[n]] && ys == ys[..n] + [ys[n]];
    }
  }
}

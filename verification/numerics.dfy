/** Real-valued stand-ins for the floating-point primitives the kernel uses.

    `exp` and `log` are not interpreted: every statement in this project holds
    for every positive `exp` and every `log`, so nothing depends on their
    closed forms. `ExtReal` adds the `-inf` the kernel loads into padding
    lanes. */
module Numerics {

  /** An exponential: the only fact used about it is that it is positive. */
  type ExpFn = f: real -> real | forall x :: f(x) > 0.0 witness (x: real) => 1.0

  datatype Transcendentals = Transcendentals(exp: ExpFn, log: real -> real)

  /** A real or negative infinity. */
  datatype ExtReal = NegInf | Fin(v: real)

  function Zeros(n: nat): (z: seq<real>)
    ensures |z| == n && forall i :: 0 <= i < n ==> z[i] == 0.0
  {
    seq(n, i => 0.0)
  }

  function Sum(s: seq<real>): real
  {
    if |s| == 0 then 0.0 else s[0] + Sum(s[1..])
  }

  lemma {:induction false} SumConcat(a: seq<real>, b: seq<real>)
    ensures Sum(a + b) == Sum(a) + Sum(b)
  {
    if |a| == 0 {
      assert a + b == b;
    } else {
      assert (a + b)[1..] == a[1..] + b;
      SumConcat(a[1..], b);
    }
  }

  lemma {:induction false} SumZeros(s: seq<real>)
    requires forall i :: 0 <= i < |s| ==> s[i] == 0.0
    ensures Sum(s) == 0.0
  {
    if |s| > 0 {
      SumZeros(s[1..]);
    }
  }

  /** A sum of non-negative terms one of which is positive is positive. */
  lemma {:induction false} SumPositive(s: seq<real>, k: int)
    requires 0 <= k < |s| && s[k] > 0.0
    requires forall i :: 0 <= i < |s| ==> s[i] >= 0.0
    ensures Sum(s) > 0.0
  {
    if k == 0 {
      SumNonNegative(s[1..]);
    } else {
      SumPositive(s[1..], k - 1);
    }
  }

  lemma {:induction false} SumNonNegative(s: seq<real>)
    requires forall i :: 0 <= i < |s| ==> s[i] >= 0.0
    ensures Sum(s) >= 0.0
  {
    if |s| > 0 {
      SumNonNegative(s[1..]);
    }
  }

  /** Termwise `(a[i] - b[i]) / d` sums to `(Sum(a) - Sum(b)) / d`. */
  lemma {:induction false} SumDiffDiv(a: seq<real>, b: seq<real>, d: real, s: seq<real>)
    requires |a| == |b| == |s| && d != 0.0
    requires forall i :: 0 <= i < |s| ==> s[i] == (a[i] - b[i]) / d
    ensures Sum(s) == (Sum(a) - Sum(b)) / d
  {
    if |s| > 0 {
      assert forall i :: 0 <= i < |s[1..]| ==> s[1..][i] == (a[1..][i] - b[1..][i]) / d;
      SumDiffDiv(a[1..], b[1..], d, s[1..]);
      DivAdd(a[0] - b[0], Sum(a[1..]) - Sum(b[1..]), d);
    }
  }

  lemma DivAdd(x: real, y: real, d: real)
    requires d != 0.0
    ensures x / d + y / d == (x + y) / d
  {
    var u, v := x / d, y / d;
    assert u * d == x && v * d == y;
    assert (u + v) * d == x + y;
  }

  /** The largest element of a non-empty row. */
  function Max(s: seq<real>): (m: real)
    requires |s| > 0
    ensures forall i :: 0 <= i < |s| ==> s[i] <= m
    ensures exists i :: 0 <= i < |s| && s[i] == m
  {
    if |s| == 1 then s[0]
    else
      var rest := Max(s[1..]);
      assert forall i :: 1 <= i < |s| ==> s[i] == s[1..][i - 1];
      if s[0] >= rest then s[0] else rest
  }

  function MaxExt2(x: ExtReal, y: ExtReal): ExtReal
  {
    match (x, y)
    case (NegInf, _) => y
    case (_, NegInf) => x
    case (Fin(a), Fin(b)) => if a >= b then x else y
  }

  /** The maximum over lanes that may hold `-inf`; `-inf` for an empty or all-padding row. */
  function MaxExt(s: seq<ExtReal>): (m: ExtReal)
    ensures m == NegInf <==> forall i :: 0 <= i < |s| ==> s[i] == NegInf
    ensures m.Fin? ==> exists i :: 0 <= i < |s| && s[i] == m
    ensures forall i :: 0 <= i < |s| && s[i].Fin? ==> m.Fin? && s[i].v <= m.v
  {
    if |s| == 0 then NegInf
    else
      assert forall i :: 1 <= i < |s| ==> s[i] == s[1..][i - 1];
      MaxExt2(s[0], MaxExt(s[1..]))
  }

  /** Addition where `-inf` absorbs (only finite values and `-inf` occur). */
  function AddExt(x: ExtReal, y: ExtReal): ExtReal
  {
    match (x, y)
    case (Fin(a), Fin(b)) => Fin(a + b)
    case _ => NegInf
  }

  function SumExt(s: seq<ExtReal>): ExtReal
  {
    if |s| == 0 then Fin(0.0) else AddExt(s[0], SumExt(s[1..]))
  }

  lemma {:induction false} SumExtZeros(s: seq<ExtReal>)
    requires forall i :: 0 <= i < |s| ==> s[i] == Fin(0.0)
    ensures SumExt(s) == Fin(0.0)
  {
    if |s| > 0 {
      SumExtZeros(s[1..]);
    }
  }

  /** A sum whose terms are all zero but one is that one term, even when it is `-inf`. */
  lemma {:induction false} SumExtSingle(s: seq<ExtReal>, k: int)
    requires 0 <= k < |s|
    requires forall i :: 0 <= i < |s| && i != k ==> s[i] == Fin(0.0)
    ensures SumExt(s) == s[k]
  {
    if k == 0 {
      assert forall i :: 0 <= i < |s[1..]| ==> s[1..][i] == s[i + 1];
      SumExtZeros(s[1..]);
      assert SumExt(s) == AddExt(s[0], Fin(0.0));
    } else {
      assert forall i :: 0 <= i < |s[1..]| ==> s[1..][i] == s[i + 1];
      SumExtSingle(s[1..], k - 1);
      assert SumExt(s) == AddExt(Fin(0.0), s[k]);
    }
  }
}

/** Present values of a periodic series, and the one place a conventional series crosses zero. */
module Discounting {

  /** (1 + r) to the power of the period, with u = 1 + r. */
  function Factor(u: real, period: nat): (f: real)
    requires u > 0.0
    ensures f > 0.0
  {
    if period == 0 then 1.0 else Factor(u, period - 1) * u
  }

  /** The series discounted term by term, in cents, exactly. */
  function PresentValue(flows: seq<int>, u: real): real
    requires u > 0.0
  {
    if flows == [] then 0.0
    else
      var n := |flows| - 1;
      PresentValue(flows[..n], u) + (flows[n] as real) / Factor(u, n)
  }

  // ---------------------------------------------------------------- a few facts of division

  lemma DivideAgain(x: real, f: real, u: real)
    requires f > 0.0 && u > 0.0
    ensures f * u > 0.0 && x / (f * u) == (x / f) / u
  {
    var q := x / f;
    assert q * f == x;
    assert (q / u) * u == q;
    ScaleBoth(x, f * u, q / u);
  }

  lemma ScaleBoth(x: real, d: real, q: real)
    requires d > 0.0 && q * d == x
    ensures x / d == q
  {
  }

  lemma DivideSum(a: real, b: real, u: real)
    requires u > 0.0
    ensures (a + b) / u == a / u + b / u
  {
  }

  lemma DivideSign(a: real, u: real)
    requires u > 0.0
    ensures (a > 0.0 <==> a / u > 0.0) && (a == 0.0 <==> a / u == 0.0) && (a < 0.0 <==> a / u < 0.0)
  {
    assert (a / u) * u == a;
  }

  /** Dividing something non-negative by less gives no less. */
  lemma DivideByLess(a: real, u1: real, u2: real)
    requires a >= 0.0 && 0.0 < u1 < u2
    ensures a / u1 >= a / u2 >= 0.0
    ensures a > 0.0 ==> a / u1 > a / u2
  {
    var p, q := a / u1, a / u2;
    DivideSign(a, u1);
    DivideSign(a, u2);
    assert p * u1 == a && q * u2 == a;
    Outgrows(q, u1, u2);
    if p < q { ScaleUp(p, q, u1); }
  }

  lemma Outgrows(q: real, u1: real, u2: real)
    requires q >= 0.0 && 0.0 < u1 < u2
    ensures q * u1 <= q * u2 && (q > 0.0 ==> q * u1 < q * u2)
  {
  }

  lemma ScaleUp(p: real, q: real, u: real)
    requires p <= q && u > 0.0
    ensures p * u <= q * u && (p < q ==> p * u < q * u)
  {
  }

  lemma Cancel(p: real, q: real, u: real)
    requires u > 0.0 && p * u <= q * u
    ensures p <= q
  {
  }

  lemma DivideLarger(a: real, b: real, u: real)
    requires a >= b && u > 0.0
    ensures a / u >= b / u && (a > b ==> a / u > b / u)
  {
    DivideSum(a - b, b, u);
    DivideSign(a - b, u);
  }

  // ---------------------------------------------------------------- Horner's form

  /** A series is its first flow and the rest of it one period later. */
  lemma {:induction false} FirstAndRest(flows: seq<int>, u: real)
    requires flows != [] && u > 0.0
    ensures PresentValue(flows, u) == (flows[0] as real) + PresentValue(flows[1..], u) / u
  {
    var n := |flows| - 1;
    if n == 0 {
      assert flows[..0] == [] && flows[1..] == [];
      FirstIsUndiscounted(flows[0], u);
    } else {
      var a, b := PresentValue(flows[1..][..n - 1], u), (flows[n] as real) / Factor(u, n - 1);
      FirstAndRest(flows[..n], u);
      assert flows[..n][1..] == flows[1..][..n - 1];
      DivideAgain(flows[n] as real, Factor(u, n - 1), u);
      DivideSum(a, b, u);
      assert PresentValue(flows[1..], u) == a + b;
    }
  }

  lemma FirstIsUndiscounted(x: int, u: real)
    requires u > 0.0
    ensures (x as real) / Factor(u, 0) == x as real
    ensures 0.0 / u == 0.0
  {
  }

  // ---------------------------------------------------------------- what money at rest is worth

  ghost predicate NonNegative(flows: seq<int>) {
    forall i :: 0 <= i < |flows| ==> flows[i] >= 0
  }

  lemma {:induction false} NothingLost(flows: seq<int>, u1: real, u2: real)
    requires NonNegative(flows) && 0.0 < u1 < u2
    ensures PresentValue(flows, u1) >= PresentValue(flows, u2) >= 0.0
  {
    if flows != [] {
      NothingLost(flows[1..], u1, u2);
      FirstAndRest(flows, u1);
      FirstAndRest(flows, u2);
      var a, b := PresentValue(flows[1..], u1), PresentValue(flows[1..], u2);
      DivideLarger(a, b, u1);
      DivideByLess(b, u1, u2);
    }
  }

  // ---------------------------------------------------------------- the crossing

  /** Money goes in up to period k and comes back from it on. */
  ghost predicate Conventional(flows: seq<int>, k: nat) {
    && k <= |flows|
    && (forall i :: 0 <= i < k ==> flows[i] <= 0)
    && (forall i :: k <= i < |flows| ==> flows[i] >= 0)
  }

  ghost predicate SomeNegative(flows: seq<int>) {
    exists i :: 0 <= i < |flows| && flows[i] < 0
  }

  /**
   * A conventional series that is worth nothing or more at one rate is worth strictly more at
   * every lower rate. It is not decreasing everywhere, only as far as it stays at or above zero.
   */
  lemma {:induction false} WorthMoreAtLowerRates(flows: seq<int>, k: nat, u1: real, u2: real)
    requires Conventional(flows, k) && SomeNegative(flows) && 0.0 < u1 < u2
    requires PresentValue(flows, u2) >= 0.0
    ensures PresentValue(flows, u1) > PresentValue(flows, u2)
    decreases |flows|
  {
    var first, rest := flows[0], flows[1..];
    var a, b := PresentValue(rest, u1), PresentValue(rest, u2);
    FirstAndRest(flows, u1);
    FirstAndRest(flows, u2);
    assert k > 0 && first <= 0;
    assert b / u2 >= 0.0;
    DivideSign(b, u2);
    assert Conventional(rest, k - 1);
    if SomeNegative(rest) {
      WorthMoreAtLowerRates(rest, k - 1, u1, u2);
      DivideLarger(a, b, u1);
      DivideByLess(b, u1, u2);
    } else {
      assert b / u2 > 0.0;
      NothingLost(rest, u1, u2);
      DivideLarger(a, b, u1);
      DivideByLess(b, u1, u2);
    }
  }

  /** A series seen from the other side of the transaction. */
  function Mirror(flows: seq<int>): (m: seq<int>)
    ensures |m| == |flows| && forall i :: 0 <= i < |flows| ==> m[i] == -flows[i]
  {
    seq(|flows|, i requires 0 <= i < |flows| => -flows[i])
  }

  lemma {:induction false} MirrorValue(flows: seq<int>, u: real)
    requires u > 0.0
    ensures PresentValue(Mirror(flows), u) == -PresentValue(flows, u)
  {
    if flows != [] {
      var n := |flows| - 1;
      assert Mirror(flows)[..n] == Mirror(flows[..n]);
      MirrorValue(flows[..n], u);
      NegateQuotient(flows[n], Factor(u, n));
    }
  }

  lemma NegateQuotient(x: int, f: real)
    requires f > 0.0
    ensures ((-x) as real) / f == -((x as real) / f)
  {
  }

  // ---------------------------------------------------------------- the two ends of the scale

  ghost predicate Within(flows: seq<int>, most: int) {
    forall i :: 0 <= i < |flows| ==> -most <= flows[i] <= most
  }

  lemma {:induction false} SomeBoundHolds(flows: seq<int>) returns (most: int)
    ensures most >= 1 && Within(flows, most)
  {
    if flows == [] {
      most := 1;
    } else {
      var n := |flows| - 1;
      most := SomeBoundHolds(flows[..n]);
      assert forall i :: 0 <= i < n ==> flows[i] == flows[..n][i];
      var last := if flows[n] < 0 then -flows[n] else flows[n];
      if last > most { most := last; }
    }
  }

  lemma QuotientWithin(a: real, bound: real, u: real)
    requires u >= 2.0 && bound >= 0.0 && -bound <= a <= bound
    ensures -bound / 2.0 <= a / u <= bound / 2.0
  {
    var q, half := a / u, bound / 2.0;
    assert q * u == a && half * 2.0 == bound;
    Outgrows(half, 2.0, u + 1.0);
    assert half * u >= bound;
    Cancel(q, half, u);
    Cancel(-half, q, u);
  }

  /** Where each period discounts by half or more, a series is worth at most twice its largest flow. */
  lemma {:induction false} ValueWithin(flows: seq<int>, most: int, u: real)
    requires Within(flows, most) && most >= 0 && u >= 2.0
    ensures -2.0 * most as real <= PresentValue(flows, u) <= 2.0 * most as real
  {
    if flows != [] {
      ValueWithin(flows[1..], most, u);
      FirstAndRest(flows, u);
      QuotientWithin(PresentValue(flows[1..], u), 2.0 * most as real, u);
    }
  }

  /** At a high enough rate money in is all that counts: the value is below zero. */
  lemma {:induction false} HighRatesCost(flows: seq<int>, k: nat, most: int, u: real)
    requires Conventional(flows, k) && SomeNegative(flows) && Within(flows, most) && most >= 1
    requires u > 2.0 * most as real
    ensures PresentValue(flows, u) < 0.0
    decreases |flows|
  {
    var first, rest := flows[0], flows[1..];
    var b := PresentValue(rest, u);
    FirstAndRest(flows, u);
    assert k > 0 && first <= 0;
    ValueWithin(rest, most, u);
    if first < 0 {
      BelowOne(b, 2.0 * most as real, u);
    } else {
      assert Conventional(rest, k - 1);
      assert forall i :: 0 <= i < |rest| ==> rest[i] == flows[i + 1];
      var i :| 0 <= i < |flows| && flows[i] < 0;
      assert rest[i - 1] < 0;
      HighRatesCost(rest, k - 1, most, u);
      DivideSign(b, u);
    }
  }

  lemma BelowOne(a: real, bound: real, u: real)
    requires a <= bound && bound < u && u > 0.0
    ensures a / u < 1.0
  {
    var q := a / u;
    assert q * u == a;
    if q >= 1.0 { ScaleUp(1.0, q, u); }
  }

  ghost predicate SomePositive(flows: seq<int>) {
    exists i :: 0 <= i < |flows| && flows[i] > 0
  }

  /** At a rate near enough to -100% money back is all that counts: the value is one cent or more. */
  lemma {:induction false} LowRatesPay(flows: seq<int>, k: nat, most: int, u: real)
    requires Conventional(flows, k) && SomePositive(flows) && Within(flows, most) && most >= 1
    requires 0.0 < u && u * (1.0 + most as real) <= 1.0
    ensures PresentValue(flows, u) >= 1.0
    decreases |flows|
  {
    hide PresentValue, Factor;
    var first, rest := flows[0], flows[1..];
    var b := PresentValue(rest, u);
    FirstAndRest(flows, u);
    assert forall i :: 0 <= i < |rest| ==> rest[i] == flows[i + 1];
    if first > 0 {
      assert NonNegative(rest);
      NothingLost(rest, u, u + 1.0);
      DivideSign(b, u);
    } else {
      var i :| 0 <= i < |flows| && flows[i] > 0;
      assert rest[i - 1] > 0;
      assert Conventional(rest, if k == 0 then 0 else k - 1);
      LowRatesPay(rest, if k == 0 then 0 else k - 1, most, u);
      AtLeastTheRest(b, most as real, u);
    }
  }

  lemma AtLeastTheRest(b: real, most: real, u: real)
    requires b >= 1.0 && u > 0.0 && most >= 0.0 && u * (1.0 + most) <= 1.0
    ensures b / u >= 1.0 + most
  {
    var q := b / u;
    assert q * u == b;
    Cancel(1.0 + most, q, u);
  }

  // ---------------------------------------------------------------- when the value keeps falling

  /** No money goes in after the first period. */
  ghost predicate OnlyFirstIn(flows: seq<int>) {
    forall i :: 1 <= i < |flows| ==> flows[i] >= 0
  }

  lemma {:induction false} WorthSomething(flows: seq<int>, u: real)
    requires NonNegative(flows) && SomePositive(flows) && u > 0.0
    ensures PresentValue(flows, u) > 0.0
  {
    var rest := flows[1..];
    FirstAndRest(flows, u);
    assert forall i :: 0 <= i < |rest| ==> rest[i] == flows[i + 1];
    NothingLost(rest, u, u + 1.0);
    DivideSign(PresentValue(rest, u), u);
    if flows[0] == 0 {
      var i :| 0 <= i < |flows| && flows[i] > 0;
      assert rest[i - 1] > 0;
      WorthSomething(rest, u);
    }
  }

  /** Everything after the first period coming back, every higher rate is worth strictly less. */
  lemma OnlyFirstInKeepsFalling(flows: seq<int>, u1: real, u2: real)
    requires OnlyFirstIn(flows) && SomeNegative(flows) && SomePositive(flows) && 0.0 < u1 < u2
    ensures PresentValue(flows, u1) > PresentValue(flows, u2)
  {
    var rest := flows[1..];
    var a, b := PresentValue(rest, u1), PresentValue(rest, u2);
    FirstAndRest(flows, u1);
    FirstAndRest(flows, u2);
    assert forall i :: 0 <= i < |rest| ==> rest[i] == flows[i + 1];
    var i :| 0 <= i < |flows| && flows[i] > 0;
    var j :| 0 <= j < |flows| && flows[j] < 0;
    assert rest[i - 1] > 0;
    NothingLost(rest, u1, u2);
    WorthSomething(rest, u2);
    DivideLarger(a, b, u1);
    DivideByLess(b, u1, u2);
  }

  /** Money going in again later, the value rises somewhere: what is still to pay is put off at the higher rate. */
  lemma LaterInRises(flows: seq<int>, k: nat) returns (u1: real, u2: real)
    requires Conventional(flows, k) && !OnlyFirstIn(flows)
    ensures 0.0 < u1 < u2 && PresentValue(flows, u1) <= PresentValue(flows, u2)
  {
    hide PresentValue, Factor;
    var rest := flows[1..];
    var i :| 1 <= i < |flows| && flows[i] < 0;
    assert forall j :: 0 <= j < |rest| ==> rest[j] == flows[j + 1];
    assert rest[i - 1] < 0;
    assert Conventional(rest, k - 1);
    var most := SomeBoundHolds(rest);
    u1 := 2.0 * most as real + 1.0;
    HighRatesCost(rest, k - 1, most, u1);
    var owed := -PresentValue(rest, u1);
    u2 := PutOffFar(owed, 2.0 * most as real, u1);
    ValueWithin(rest, most, u2);
    FirstAndRest(flows, u1);
    FirstAndRest(flows, u2);
    PutOffIsLess(owed, -PresentValue(rest, u2), 2.0 * most as real, u1, u2);
    NegateReal(owed, u1);
    NegateReal(-PresentValue(rest, u2), u2);
  }

  lemma PutOffFar(owed: real, bound: real, u1: real) returns (u2: real)
    requires owed > 0.0 && bound >= 0.0 && u1 > 0.0
    ensures u2 > u1 && bound * u1 <= owed * u2
  {
    var q := bound * u1 / owed;
    assert q * owed == bound * u1;
    u2 := u1 + 1.0 + (if q > 0.0 then q else 0.0);
    assert owed * u2 >= owed * q;
  }

  lemma PutOffIsLess(owed: real, later: real, bound: real, u1: real, u2: real)
    requires 0.0 < u1 < u2 && later <= bound && bound * u1 <= owed * u2
    ensures later / u2 <= owed / u1
  {
    var p, q := later / u2, owed / u1;
    assert p * u2 == later && q * u1 == owed;
    assert later * u1 <= bound * u1;
    assert p * (u1 * u2) == later * u1 && q * (u1 * u2) == owed * u2;
    Cancel(p, q, u1 * u2);
  }

  lemma NegateReal(a: real, u: real)
    requires u > 0.0
    ensures (-a) / u == -(a / u)
  {
  }

  /** Two in, one out: a value that falls and then rises again. */
  lemma ValueNeedNotKeepFalling()
    ensures PresentValue([-1, -1, 1], 2.0) == -1.25
    ensures PresentValue([-1, -1, 1], 4.0) == -1.1875
  {
    assert [-1, -1, 1][..2] == [-1, -1] && [-1, -1][..1] == [-1] && [-1][..0] == [];
    assert Factor(2.0, 1) == 2.0 && Factor(2.0, 2) == 4.0;
    assert Factor(4.0, 1) == 4.0 && Factor(4.0, 2) == 16.0;
    assert PresentValue([-1], 2.0) == -1.0 && PresentValue([-1], 4.0) == -1.0;
    assert PresentValue([-1, -1], 2.0) == -1.5 && PresentValue([-1, -1], 4.0) == -1.25;
  }

  /** Two sign changes can mean two rates that both satisfy the equation. */
  lemma TwoChangesTwoRates()
    ensures PresentValue([-100, 230, -132], 1.1) == 0.0
    ensures PresentValue([-100, 230, -132], 1.2) == 0.0
  {
    var flows := [-100, 230, -132];
    assert flows[..2] == [-100, 230] && [-100, 230][..1] == [-100] && [-100][..0] == [];
    assert Factor(1.1, 1) == 1.1 && Factor(1.1, 2) == 1.21;
    assert Factor(1.2, 1) == 1.2 && Factor(1.2, 2) == 1.44;
    assert PresentValue([-100], 1.1) == -100.0 && PresentValue([-100], 1.2) == -100.0;
    assert PresentValue([-100, 230], 1.1) == -100.0 + 230.0 / 1.1;
    assert PresentValue([-100, 230], 1.2) == -100.0 + 230.0 / 1.2;
  }
}

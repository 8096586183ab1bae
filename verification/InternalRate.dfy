/** The periodic rate of return: four refusals, and a bisection that can only find the one crossing. */
module InternalRate {
  import opened Discounting

  // ---------------------------------------------------------------- sign changes

  function Sign(x: int): int { if x > 0 then 1 else if x < 0 then -1 else 0 }

  /** The signs of the periods that move anything. */
  function Signs(flows: seq<int>): seq<int> {
    if flows == [] then []
    else
      var n := |flows| - 1;
      Signs(flows[..n]) + if flows[n] != 0 then [Sign(flows[n])] else []
  }

  /** How many neighbours differ. */
  function Differing(signs: seq<int>): nat {
    if |signs| < 2 then 0
    else Differing(signs[..|signs| - 1]) + if signs[|signs| - 1] != signs[|signs| - 2] then 1 else 0
  }

  function SignChanges(flows: seq<int>): nat { Differing(Signs(flows)) }

  /** A flow of this sign, or of none. */
  predicate Leans(x: int, sign: int) { if sign > 0 then x >= 0 else x <= 0 }

  function LastSign(flows: seq<int>): int {
    if Signs(flows) == [] then 0 else Signs(flows)[|Signs(flows)| - 1]
  }

  lemma SignsSnoc(flows: seq<int>)
    requires flows != []
    ensures var n := |flows| - 1;
            && (flows[n] == 0 ==> Signs(flows) == Signs(flows[..n]) && LastSign(flows) == LastSign(flows[..n]))
            && (flows[n] != 0 ==> LastSign(flows) == Sign(flows[n]) != 0)
            && (flows[n] != 0 ==>
                  SignChanges(flows) == SignChanges(flows[..n])
                    + if LastSign(flows[..n]) != 0 && LastSign(flows[..n]) != Sign(flows[n]) then 1 else 0)
  {
    var n := |flows| - 1;
    SignsAreSigns(flows[..n]);
    if flows[n] != 0 {
      assert Signs(flows)[..|Signs(flows)| - 1] == Signs(flows[..n]);
    }
  }

  lemma {:induction false} SignsAreSigns(flows: seq<int>)
    ensures forall i :: 0 <= i < |Signs(flows)| ==> Signs(flows)[i] == 1 || Signs(flows)[i] == -1
  {
    if flows != [] { SignsAreSigns(flows[..|flows| - 1]); }
  }

  /** The series leans one way before period k and the other way from it on. */
  ghost predicate Turns(flows: seq<int>, k: nat, last: int) {
    && k <= |flows|
    && (forall i :: 0 <= i < k ==> Leans(flows[i], -last))
    && (forall i :: k <= i < |flows| ==> Leans(flows[i], last))
  }

  lemma {:induction false} NoChange(flows: seq<int>)
    requires SignChanges(flows) == 0
    ensures forall i :: 0 <= i < |flows| ==>
              if LastSign(flows) == 0 then flows[i] == 0 else Leans(flows[i], LastSign(flows))
  {
    hide Signs;
    if flows != [] {
      var n := |flows| - 1;
      SignsSnoc(flows);
      NoChange(flows[..n]);
      assert forall i :: 0 <= i < n ==> flows[i] == flows[..n][i];
    }
  }

  /** One sign change means one turn. */
  lemma {:induction false} OneTurn(flows: seq<int>) returns (k: nat)
    requires SignChanges(flows) == 1
    ensures Turns(flows, k, LastSign(flows)) && LastSign(flows) != 0
  {
    hide Signs;
    NoChangeInNothing();
    LastSignIsSign(flows);
    LastSignIsSign(flows[..|flows| - 1]);
    var n := |flows| - 1;
    SignsSnoc(flows);
    assert forall i :: 0 <= i < n ==> flows[i] == flows[..n][i];
    if SignChanges(flows[..n]) == 1 {
      k := OneTurn(flows[..n]);
    } else {
      NoChange(flows[..n]);
      k := n;
    }
  }

  lemma LastSignIsSign(flows: seq<int>)
    ensures LastSign(flows) == 0 || LastSign(flows) == 1 || LastSign(flows) == -1
  {
    SignsAreSigns(flows);
  }

  lemma NoChangeInNothing()
    ensures SignChanges([]) == 0
  {
  }

  /** Three periods, in order, with money one way, the other way, and the first way again. */
  ghost predicate TurnsTwice(flows: seq<int>) {
    exists i, j, k :: 0 <= i < j < k < |flows| && Opposed(flows[i], flows[j]) && Opposed(flows[j], flows[k])
  }

  predicate Opposed(x: int, y: int) { (x < 0 && y > 0) || (x > 0 && y < 0) }

  /** The last period that moves anything leans as the last sign says. */
  lemma {:induction false} LastOfASign(flows: seq<int>) returns (k: int)
    ensures LastSign(flows) == 0 <==> k == -1
    ensures -1 <= k < |flows|
    ensures LastSign(flows) != 0 ==> Sign(flows[k]) == LastSign(flows)
    ensures SignChanges(flows) >= 1 ==>
              LastSign(flows) != 0 && exists i :: 0 <= i < k && Opposed(flows[i], flows[k])
    ensures SignChanges(flows) >= 2 ==> TurnsTwice(flows)
  {
    hide Signs, TurnsTwice;
    if flows == [] {
      NoChangeInNothing();
      LastOfNothing();
      k := -1;
    } else {
      var n := |flows| - 1;
      var before := flows[..n];
      var j := LastOfASign(before);
      SignsSnoc(flows);
      LastSignIsSign(before);
      if SignChanges(before) >= 2 { TurnsLater(flows); }
      if flows[n] == 0 {
        k := j;
        if SignChanges(before) >= 1 {
          var i :| 0 <= i < j && Opposed(before[i], before[j]);
          assert Opposed(flows[i], flows[j]);
        }
      } else {
        k := n;
        if LastSign(before) != 0 && LastSign(before) != Sign(flows[n]) {
          assert Opposed(flows[j], flows[n]);
        }
        if SignChanges(before) == 1 {
          var i :| 0 <= i < j && Opposed(before[i], before[j]);
          assert Opposed(flows[i], flows[j]);
          if SignChanges(flows) == 2 {
            TurnsAt(flows, i, j, n);
          } else {
            assert Opposed(flows[i], flows[n]);
          }
        } else if SignChanges(before) >= 2 {
          var i :| 0 <= i < j && Opposed(before[i], before[j]);
          assert Opposed(flows[i], flows[j]) && (Opposed(flows[i], flows[n]) || Opposed(flows[j], flows[n]));
        }
      }
    }
  }

  lemma LastOfNothing()
    ensures LastSign([]) == 0
  {
  }

  lemma TurnsAt(flows: seq<int>, i: nat, j: nat, k: nat)
    requires i < j < k < |flows| && Opposed(flows[i], flows[j]) && Opposed(flows[j], flows[k])
    ensures TurnsTwice(flows)
  {
  }

  lemma TurnsLater(flows: seq<int>)
    requires flows != [] && TurnsTwice(flows[..|flows| - 1])
    ensures TurnsTwice(flows)
  {
    var before := flows[..|flows| - 1];
    var i, j, k :| 0 <= i < j < k < |before| && Opposed(before[i], before[j]) && Opposed(before[j], before[k]);
    assert Opposed(flows[i], flows[j]) && Opposed(flows[j], flows[k]);
  }

  /** The count passes one exactly where three periods move money to and fro. */
  lemma MoreThanOneChangeExactlyWhen(flows: seq<int>)
    ensures SignChanges(flows) > 1 <==> TurnsTwice(flows)
  {
    hide Signs, SignChanges, LastSign;
    var last := LastOfASign(flows);
    if TurnsTwice(flows) {
      if SignChanges(flows) == 0 {
        NoChange(flows);
      } else if SignChanges(flows) == 1 {
        var turn := OneTurn(flows);
      }
    }
  }

  // ---------------------------------------------------------------- the side of the crossing

  /** A series that an internal rate is asked of: money both ways, and one change between. */
  ghost predicate HasOneTurn(flows: seq<int>) {
    SomeNegative(flows) && SomePositive(flows) && SignChanges(flows) <= 1
  }

  lemma OneTurnHasOneChange(flows: seq<int>)
    requires HasOneTurn(flows)
    ensures SignChanges(flows) == 1
  {
    if SignChanges(flows) == 0 {
      NoChange(flows);
    }
  }

  /** The value turned so that money goes in first. */
  function Oriented(flows: seq<int>, r: real): real
    requires r > -1.0
  {
    if LastSign(flows) > 0 then PresentValue(flows, 1.0 + r) else -PresentValue(flows, 1.0 + r)
  }

  lemma OrientedFalls(flows: seq<int>, lower: real, higher: real)
    requires HasOneTurn(flows) && -1.0 < lower < higher && Oriented(flows, higher) >= 0.0
    ensures Oriented(flows, lower) > Oriented(flows, higher)
  {
    hide SignChanges, LastSign;
    var u1, u2 := 1.0 + lower, 1.0 + higher;
    OneTurnHasOneChange(flows);
    var k := OneTurn(flows);
    if LastSign(flows) > 0 {
      WorthMoreAtLowerRates(flows, k, u1, u2);
    } else {
      MirrorValue(flows, u1);
      MirrorValue(flows, u2);
      var i :| 0 <= i < |flows| && flows[i] > 0;
      assert Mirror(flows)[i] < 0;
      WorthMoreAtLowerRates(Mirror(flows), k, u1, u2);
    }
  }

  /** Where a series is worth nothing. */
  predicate IsRoot(flows: seq<int>, r: real)
    requires r > -1.0
  {
    PresentValue(flows, 1.0 + r) == 0.0
  }

  /** Above zero up to some rate, below it from there on: the crossing lies between the two. */
  ghost predicate CrossesWithin(flows: seq<int>, low: real, high: real) {
    && -1.0 < low <= high
    && (forall r: real :: -1.0 < r < low ==> Oriented(flows, r) > 0.0)
    && (forall r: real :: r > high ==> Oriented(flows, r) < 0.0)
  }

  /** Every root is inside, and there is at most one. */
  lemma TheCrossingHoldsTheRoot(flows: seq<int>, low: real, high: real, r: real)
    requires CrossesWithin(flows, low, high) && r > -1.0 && IsRoot(flows, r)
    ensures low <= r <= high
  {
    assert Oriented(flows, r) == 0.0;
  }

  lemma TheRootIsTheCrossing(flows: seq<int>, r: real)
    requires HasOneTurn(flows) && r > -1.0 && IsRoot(flows, r)
    ensures CrossesWithin(flows, r, r)
    ensures forall other: real :: other > -1.0 && IsRoot(flows, other) ==> other == r
  {
    hide HasOneTurn, PresentValue, LastSign;
    forall lower: real | -1.0 < lower < r ensures Oriented(flows, lower) > 0.0 {
      OrientedFalls(flows, lower, r);
    }
    forall higher: real | higher > r ensures Oriented(flows, higher) < 0.0 {
      if Oriented(flows, higher) >= 0.0 { OrientedFalls(flows, r, higher); }
    }
    forall other: real | other > -1.0 && IsRoot(flows, other) ensures other == r {
      TheCrossingHoldsTheRoot(flows, r, r, other);
    }
  }

  /** A rate with a strictly positive side below it and a strictly negative side above it brackets the crossing. */
  lemma OppositeSidesBracket(flows: seq<int>, low: real, high: real)
    requires HasOneTurn(flows) && -1.0 < low < high
    requires (Oriented(flows, low) > 0.0) != (Oriented(flows, high) > 0.0)
    requires Oriented(flows, low) != 0.0 && Oriented(flows, high) != 0.0
    ensures Oriented(flows, low) > 0.0 && Oriented(flows, high) < 0.0
    ensures CrossesWithin(flows, low, high)
  {
    hide HasOneTurn, PresentValue, LastSign, Oriented;
    if Oriented(flows, high) >= 0.0 { OrientedFalls(flows, low, high); }
    forall r: real | -1.0 < r < low ensures Oriented(flows, r) > 0.0 {
      OrientedFalls(flows, r, low);
    }
    forall r: real | r > high ensures Oriented(flows, r) < 0.0 {
      if Oriented(flows, r) >= 0.0 { OrientedFalls(flows, high, r); }
    }
  }

  /** A series with one turn crosses: between two rates it goes from above zero to below it, and nowhere else. */
  lemma EveryOneTurnCrosses(flows: seq<int>) returns (low: real, high: real)
    requires HasOneTurn(flows)
    ensures -1.0 < low < high && Oriented(flows, low) > 0.0 && Oriented(flows, high) < 0.0
    ensures CrossesWithin(flows, low, high)
  {
    hide SignChanges, PresentValue, LastSign, Oriented, CrossesWithin;
    OneTurnHasOneChange(flows);
    var k := OneTurn(flows);
    var most := SomeBoundHolds(flows);
    ReciprocalFits(1.0 + most as real);
    low, high := 1.0 / (1.0 + most as real) - 1.0, 2.0 * most as real;
    BelowZero(most as real);
    EndsAreApart(flows, k, most, 1.0 + low, 1.0 + high);
    OppositeSidesBracket(flows, low, high);
  }

  lemma BelowZero(most: real)
    requires most >= 1.0
    ensures -1.0 < 1.0 / (1.0 + most) - 1.0 < 0.0
  {
    var q := 1.0 / (1.0 + most);
    assert q * (1.0 + most) == 1.0;
  }

  lemma EndsAreApart(flows: seq<int>, k: nat, most: int, u1: real, u2: real)
    requires Turns(flows, k, LastSign(flows)) && LastSign(flows) != 0 && SomeNegative(flows) && SomePositive(flows)
    requires Within(flows, most) && most >= 1
    requires 0.0 < u1 && u1 * (1.0 + most as real) <= 1.0 && u2 > 2.0 * most as real
    ensures Oriented(flows, u1 - 1.0) > 0.0 && Oriented(flows, u2 - 1.0) < 0.0
  {
    hide PresentValue, LastSign;
    if LastSign(flows) > 0 {
      LowRatesPay(flows, k, most, u1);
      HighRatesCost(flows, k, most, u2);
    } else {
      var mirror := Mirror(flows);
      var i :| 0 <= i < |flows| && flows[i] > 0;
      var j :| 0 <= j < |flows| && flows[j] < 0;
      assert mirror[i] < 0 && mirror[j] > 0;
      LowRatesPay(mirror, k, most, u1);
      HighRatesCost(mirror, k, most, u2);
      MirrorValue(flows, u1);
      MirrorValue(flows, u2);
    }
  }

  /** How much narrower so many halvings make an interval. */
  function Halvings(n: nat): (parts: real)
    ensures parts >= n as real + 1.0
  {
    if n == 0 then 1.0 else 2.0 * Halvings(n - 1)
  }

  /** Each halving of an interval leaves the crossing in one of its halves. */
  lemma {:induction false} TheCrossingNarrows(flows: seq<int>, low: real, high: real, n: nat)
    returns (from: real, to: real)
    requires HasOneTurn(flows) && -1.0 < low < high && Oriented(flows, low) > 0.0 && Oriented(flows, high) < 0.0
    ensures low <= from <= to <= high && CrossesWithin(flows, from, to)
    ensures (to - from) * Halvings(n) <= high - low
    decreases n
  {
    hide HasOneTurn, PresentValue, LastSign, Oriented, CrossesWithin, IsRoot;
    if n == 0 {
      from, to := low, high;
      OppositeSidesBracket(flows, low, high);
    } else {
      var middle := (low + high) / 2.0;
      if Oriented(flows, middle) > 0.0 {
        from, to := TheCrossingNarrows(flows, middle, high, n - 1);
      } else if Oriented(flows, middle) < 0.0 {
        from, to := TheCrossingNarrows(flows, low, middle, n - 1);
      } else {
        from, to := middle, middle;
        NothingIsARoot(flows, middle);
        TheRootIsTheCrossing(flows, middle);
      }
    }
  }

  lemma NothingIsARoot(flows: seq<int>, r: real)
    requires r > -1.0
    ensures Oriented(flows, r) == 0.0 <==> IsRoot(flows, r)
  {
    hide PresentValue, LastSign;
  }

  /** However fine the scale, the crossing of a series with one turn is there to be found on it. */
  lemma TheCrossingIsFoundToAnyScale(flows: seq<int>, tolerance: real) returns (from: real, to: real)
    requires HasOneTurn(flows) && tolerance > 0.0
    ensures CrossesWithin(flows, from, to) && to - from <= tolerance
  {
    hide HasOneTurn, PresentValue, LastSign, Oriented, CrossesWithin;
    var low, high := EveryOneTurnCrosses(flows);
    var n := EnoughHalvings(high - low, tolerance);
    from, to := TheCrossingNarrows(flows, low, high, n);
    NarrowEnough(to - from, high - low, tolerance, n);
  }

  lemma EnoughHalvings(width: real, tolerance: real) returns (n: nat)
    requires width > 0.0 && tolerance > 0.0
    ensures width <= tolerance * Halvings(n)
  {
    var q := width / tolerance;
    assert q * tolerance == width;
    DivideSign(width, tolerance);
    n := q.Floor + 1;
    assert Halvings(n) >= q;
    ScaleUp(q, Halvings(n), tolerance);
  }

  lemma NarrowEnough(left: real, width: real, tolerance: real, n: nat)
    requires left * Halvings(n) <= width <= tolerance * Halvings(n)
    ensures left <= tolerance
  {
    Cancel(left, tolerance, Halvings(n));
  }

  /** The value keeps one strict side over the range and beyond: the crossing is above it all, or below. */
  ghost predicate CrossesOutside(flows: seq<int>, low: real, high: real)
    requires -1.0 < low < high
  {
    || (forall r: real :: -1.0 < r <= high ==> Oriented(flows, r) > 0.0)
    || (forall r: real :: r >= low ==> Oriented(flows, r) < 0.0)
  }

  /** That is so exactly where the two ends of the range lie strictly on one side. */
  lemma TheCrossingIsOutside(flows: seq<int>, low: real, high: real)
    requires HasOneTurn(flows) && -1.0 < low < high
    ensures CrossesOutside(flows, low, high)
            <==> (Oriented(flows, low) > 0.0 && Oriented(flows, high) > 0.0)
                 || (Oriented(flows, low) < 0.0 && Oriented(flows, high) < 0.0)
  {
    hide HasOneTurn, PresentValue, LastSign, Oriented;
    if Oriented(flows, high) > 0.0 {
      forall r: real | -1.0 < r <= high ensures Oriented(flows, r) > 0.0 {
        if r < high { OrientedFalls(flows, r, high); }
      }
    } else if Oriented(flows, low) < 0.0 {
      forall r: real | r >= low ensures Oriented(flows, r) < 0.0 {
        if r > low && Oriented(flows, r) >= 0.0 { OrientedFalls(flows, low, r); }
      }
    }
  }

  /** Ends on one side leave no root between them. */
  lemma OneSideHasNoRoot(flows: seq<int>, low: real, high: real)
    requires HasOneTurn(flows) && -1.0 < low < high
    requires (Oriented(flows, low) > 0.0) == (Oriented(flows, high) > 0.0)
    requires Oriented(flows, low) != 0.0 && Oriented(flows, high) != 0.0
    ensures forall r: real :: low <= r <= high ==> !IsRoot(flows, r)
  {
    hide HasOneTurn, PresentValue, LastSign;
    forall r: real | low <= r <= high ensures !IsRoot(flows, r) {
      if IsRoot(flows, r) { TheRootIsTheCrossing(flows, r); }
    }
  }

  // ---------------------------------------------------------------- when the value keeps falling

  function ValueAt(flows: seq<int>, r: real): real
    requires r > -1.0
  {
    PresentValue(flows, 1.0 + r)
  }

  /** Strictly less at every higher rate, over all rates above -100%. */
  ghost predicate KeepsFalling(flows: seq<int>) {
    forall lower: real, higher: real :: -1.0 < lower < higher ==> ValueAt(flows, lower) > ValueAt(flows, higher)
  }

  /**
   * The value of a series with one turn is strictly decreasing in the rate exactly when no money
   * goes in after the first period.
   */
  lemma KeepsFallingExactlyWhen(flows: seq<int>)
    requires HasOneTurn(flows)
    ensures KeepsFalling(flows) <==> OnlyFirstIn(flows)
  {
    hide SignChanges, PresentValue, LastSign;
    if OnlyFirstIn(flows) {
      forall lower: real, higher: real | -1.0 < lower < higher ensures ValueAt(flows, lower) > ValueAt(flows, higher) {
        OnlyFirstInKeepsFalling(flows, 1.0 + lower, 1.0 + higher);
      }
    } else {
      var u1, u2 := SomewhereItRises(flows);
      assert ValueAt(flows, u1 - 1.0) <= ValueAt(flows, u2 - 1.0);
    }
  }

  lemma SomewhereItRises(flows: seq<int>) returns (u1: real, u2: real)
    requires HasOneTurn(flows) && !OnlyFirstIn(flows)
    ensures 0.0 < u1 < u2 && PresentValue(flows, u1) <= PresentValue(flows, u2)
  {
    hide SignChanges, PresentValue, LastSign;
    OneTurnHasOneChange(flows);
    var k := OneTurn(flows);
    if LastSign(flows) > 0 {
      u1, u2 := LaterInRises(flows, k);
    } else {
      u1, u2 := BackFirstRises(flows, k);
    }
  }

  /** Money that comes back first and goes in later is worth less at the lowest rates, not more. */
  lemma BackFirstRises(flows: seq<int>, k: nat) returns (u1: real, u2: real)
    requires Conventional(Mirror(flows), k) && SomeNegative(flows) && SomePositive(flows)
    ensures 0.0 < u1 < u2 && PresentValue(flows, u1) <= PresentValue(flows, u2)
  {
    hide PresentValue;
    var mirror := Mirror(flows);
    var i :| 0 <= i < |flows| && flows[i] > 0;
    var j :| 0 <= j < |flows| && flows[j] < 0;
    assert mirror[i] < 0 && mirror[j] > 0;
    var most := SomeBoundHolds(mirror);
    u2 := 1.0 / (1.0 + most as real);
    ReciprocalFits(1.0 + most as real);
    u1 := u2 / 2.0;
    LowRatesPay(mirror, k, most, u2);
    WorthMoreAtLowerRates(mirror, k, u1, u2);
    MirrorValue(flows, u1);
    MirrorValue(flows, u2);
  }

  lemma ReciprocalFits(d: real)
    requires d > 0.0
    ensures 1.0 / d > 0.0 && 1.0 / d * d <= 1.0
  {
  }

  // ---------------------------------------------------------------- rounding to the stored scale

  const QUANTUM: real := 0.000001

  /** Half-up at six places, away from zero on a tie. */
  function ToRate(x: real): real {
    if x >= 0.0 then ((x * 1000000.0 + 0.5).Floor as real) / 1000000.0
    else -(((-x * 1000000.0 + 0.5).Floor as real) / 1000000.0)
  }

  lemma RateIsWithinHalf(x: real)
    ensures -QUANTUM / 2.0 <= ToRate(x) - x <= QUANTUM / 2.0
  {
    var y := if x >= 0.0 then x else -x;
    var whole := (y * 1000000.0 + 0.5).Floor;
    assert whole as real <= y * 1000000.0 + 0.5 < whole as real + 1.0;
  }

  // ---------------------------------------------------------------- the search

  datatype Irr = Rate(perPeriod: real) | NoInvestment | NoReturn | Ambiguous | NotBracketed

  const LOWER: real := -0.999999
  const UPPER: real := 10.0
  const TOLERANCE: real := 0.0000001
  const MAX_ITERATIONS: nat := 200

  /** The width of the interval after so many halvings. */
  function Width(halvings: nat): (w: real)
    ensures w > 0.0
  {
    if halvings == 0 then UPPER - LOWER else Width(halvings - 1) / 2.0
  }

  lemma {:induction false} WidthHalves(m: nat, n: nat)
    requires m <= n
    ensures Width(n) <= Width(m)
  {
    if m < n { WidthHalves(m, n - 1); }
  }

  /** Twenty-seven halvings take the range under the tolerance, and twenty-six do not. */
  lemma TwentySevenHalvings()
    ensures Width(27) <= TOLERANCE < Width(26)
  {
    assert Width(9) == (UPPER - LOWER) / 512.0;
    assert Width(18) == (UPPER - LOWER) / 262144.0;
    assert Width(26) == (UPPER - LOWER) / 67108864.0;
    assert Width(27) == (UPPER - LOWER) / 134217728.0;
  }

  /** The rate answered is as near as the search and the stored scale allow to wherever the series crosses zero. */
  ghost predicate Answers(flows: seq<int>, answer: real, low: real, high: real) {
    && CrossesWithin(flows, low, high)
    && high - low <= TOLERANCE
    && -QUANTUM / 2.0 <= answer - (low + high) / 2.0 <= QUANTUM / 2.0
  }

  /** Within half the tolerance and half a quantum of the root, if the series has one at all. */
  lemma AnswersAreNear(flows: seq<int>, answer: real, low: real, high: real, root: real)
    requires Answers(flows, answer, low, high) && root > -1.0 && IsRoot(flows, root)
    ensures -0.00000055 <= answer - root <= 0.00000055
  {
    TheCrossingHoldsTheRoot(flows, low, high, root);
  }

  lemma AnswerAt(flows: seq<int>, root: real)
    requires HasOneTurn(flows) && root > -1.0 && IsRoot(flows, root)
    ensures Answers(flows, ToRate(root), root, root)
  {
    hide ToRate, HasOneTurn, CrossesWithin;
    TheRootIsTheCrossing(flows, root);
    RateIsWithinHalf(root);
  }

  /** Whether two ends of a range lie on one side, as the search asks it. */
  predicate SameSide(flows: seq<int>, low: real, high: real)
    requires low > -1.0 && high > -1.0
  {
    (PresentValue(flows, 1.0 + low) > 0.0) == (PresentValue(flows, 1.0 + high) > 0.0)
  }

  lemma SidesAreOriented(flows: seq<int>, low: real, high: real)
    requires low > -1.0 && high > -1.0 && !IsRoot(flows, low) && !IsRoot(flows, high)
    ensures SameSide(flows, low, high) <==> ((Oriented(flows, low) > 0.0) == (Oriented(flows, high) > 0.0))
    ensures Oriented(flows, low) != 0.0 && Oriented(flows, high) != 0.0
  {
    hide LastSign, PresentValue;
  }

  lemma BracketIsCrossing(flows: seq<int>, low: real, high: real)
    requires HasOneTurn(flows) && -1.0 < low < high && !IsRoot(flows, low) && !IsRoot(flows, high)
    ensures SameSide(flows, low, high) ==> forall r: real :: low <= r <= high ==> !IsRoot(flows, r)
    ensures !SameSide(flows, low, high) ==> CrossesWithin(flows, low, high)
    ensures SameSide(flows, low, high) <==> CrossesOutside(flows, low, high)
  {
    hide HasOneTurn, CrossesWithin, CrossesOutside, IsRoot, SameSide, Oriented;
    SidesAreOriented(flows, low, high);
    TheCrossingIsOutside(flows, low, high);
    if SameSide(flows, low, high) {
      OneSideHasNoRoot(flows, low, high);
    } else {
      OppositeSidesBracket(flows, low, high);
    }
  }

  /** Where the search stands: a bracket, never rooted at its ends, of the width so many halvings leave. */
  ghost predicate Searching(flows: seq<int>, low: real, high: real, halvings: nat) {
    && -1.0 < low < high && high - low == Width(halvings)
    && !IsRoot(flows, low) && !IsRoot(flows, high) && !SameSide(flows, low, high)
  }

  lemma SearchIsWide(flows: seq<int>, low: real, high: real, halvings: nat)
    requires Searching(flows, low, high, halvings)
    ensures -1.0 < low < high && high - low == Width(halvings)
  {
  }

  lemma HalfASearch(flows: seq<int>, low: real, high: real, halvings: nat)
    requires Searching(flows, low, high, halvings)
    ensures var middle := (low + high) / 2.0;
            && low < middle < high
            && (!IsRoot(flows, middle) ==>
                  if SameSide(flows, middle, low) then Searching(flows, middle, high, halvings + 1)
                  else Searching(flows, low, middle, halvings + 1))
  {
    hide IsRoot;
  }

  lemma SearchEnds(flows: seq<int>, low: real, high: real, halvings: nat)
    requires HasOneTurn(flows) && Searching(flows, low, high, halvings) && high - low <= TOLERANCE
    ensures Answers(flows, ToRate((low + high) / 2.0), low, high)
  {
    hide HasOneTurn, CrossesWithin, IsRoot, SameSide, ToRate;
    BracketIsCrossing(flows, low, high);
    RateIsWithinHalf((low + high) / 2.0);
  }

  /** By the twenty-seventh halving the search has stopped. */
  lemma StillSearching(halvings: nat)
    requires Width(halvings) > TOLERANCE
    ensures halvings < 27
  {
    hide Width;
    TwentySevenHalvings();
    if halvings >= 27 { WidthHalves(27, halvings); }
  }

  lemma RootEndsAreNotOutside(flows: seq<int>)
    ensures CrossesOutside(flows, LOWER, UPPER) ==> !IsRoot(flows, LOWER) && !IsRoot(flows, UPPER)
  {
    NothingIsARoot(flows, LOWER);
    NothingIsARoot(flows, UPPER);
  }

  method InternalRateOfReturn(flows: seq<int>)
    returns (irr: Irr, ghost low: real, ghost high: real, ghost halvings: nat)
    ensures irr == NoInvestment <==> !SomeNegative(flows)
    ensures irr == NoReturn <==> SomeNegative(flows) && !SomePositive(flows)
    ensures irr == Ambiguous <==> SomeNegative(flows) && SomePositive(flows) && SignChanges(flows) > 1
    ensures irr == NotBracketed <==>
              HasOneTurn(flows) && !IsRoot(flows, LOWER) && !IsRoot(flows, UPPER) && SameSide(flows, LOWER, UPPER)
    ensures irr == NotBracketed <==> HasOneTurn(flows) && CrossesOutside(flows, LOWER, UPPER)
    ensures irr == NotBracketed ==> forall r: real :: -0.999999 <= r <= 10.0 ==> !IsRoot(flows, r)
    ensures irr == Ambiguous <==> SomeNegative(flows) && SomePositive(flows) && TurnsTwice(flows)
    ensures irr.Rate? ==> Answers(flows, irr.perPeriod, low, high) && halvings <= 27
    ensures irr.Rate? ==> -0.999999 <= low <= high <= 10.0
  {
    hide SignChanges, PresentValue, ToRate, Width, Answers, Searching, CrossesOutside, TurnsTwice;
    RootEndsAreNotOutside(flows);
    MoreThanOneChangeExactlyWhen(flows);
    low, high, halvings := LOWER, UPPER, 0;
    if !(exists i :: 0 <= i < |flows| && flows[i] < 0) {
      return NoInvestment, low, high, halvings;
    }
    if !(exists i :: 0 <= i < |flows| && flows[i] > 0) {
      return NoReturn, low, high, halvings;
    }
    if SignChanges(flows) > 1 {
      return Ambiguous, low, high, halvings;
    }
    var lo, hi := LOWER, UPPER;
    var lowValue, highValue := PresentValue(flows, 1.0 + lo), PresentValue(flows, 1.0 + hi);
    if lowValue == 0.0 {
      AnswerAt(flows, LOWER);
      return Rate(ToRate(lo)), LOWER, LOWER, halvings;
    }
    if highValue == 0.0 {
      AnswerAt(flows, UPPER);
      return Rate(ToRate(hi)), UPPER, UPPER, halvings;
    }
    BracketIsCrossing(flows, lo, hi);
    if (lowValue > 0.0) == (highValue > 0.0) {
      return NotBracketed, low, high, halvings;
    }
    SearchStarts(flows);
    for n := 0 to MAX_ITERATIONS
      invariant halvings == n <= 27 && Searching(flows, lo, hi, n)
      invariant LOWER <= lo <= hi <= UPPER
      invariant lowValue == PresentValue(flows, 1.0 + lo)
    {
      SearchIsWide(flows, lo, hi, n);
      if hi - lo <= TOLERANCE {
        break;
      }
      StillSearching(n);
      var middle := (lo + hi) / 2.0;
      HalfASearch(flows, lo, hi, n);
      var middleValue := PresentValue(flows, 1.0 + middle);
      halvings := n + 1;
      if middleValue == 0.0 {
        AnswerAt(flows, middle);
        return Rate(ToRate((middle + middle) / 2.0)), middle, middle, halvings;
      }
      if (middleValue > 0.0) == (lowValue > 0.0) {
        lo, lowValue := middle, middleValue;
      } else {
        hi := middle;
      }
    }
    SearchIsWide(flows, lo, hi, halvings);
    SearchEnds(flows, lo, hi, halvings);
    irr, low, high := Rate(ToRate((lo + hi) / 2.0)), lo, hi;
  }

  lemma SearchStarts(flows: seq<int>)
    requires !IsRoot(flows, LOWER) && !IsRoot(flows, UPPER) && !SameSide(flows, LOWER, UPPER)
    ensures Searching(flows, LOWER, UPPER, 0)
  {
  }
}

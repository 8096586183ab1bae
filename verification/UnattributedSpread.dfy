/** One month's unattributed pool shared over its open construction lines. */
module UnattributedSpread {
  import opened Amounts
  import opened Sums

  /** Cents of spread * part / total, halves rounded up. */
  function HalfUpShare(spread: int, part: int, total: int): int
    requires total > 0
  {
    (2 * (spread * part) + total) / (2 * total)
  }

  /** The shares of all lines but the last. */
  function EarlierShares(parts: seq<int>, spread: int, total: int): (shares: seq<int>)
    requires total > 0
    ensures |shares| == |parts|
  {
    seq(|parts|, i requires 0 <= i < |parts| => HalfUpShare(spread, parts[i], total))
  }

  /** The last line takes whatever rounding has left over. */
  function LastShare(parts: seq<int>, spread: int, total: int): int
    requires parts != [] && total > 0
  {
    spread - Sum(EarlierShares(parts[..|parts| - 1], spread, total), Itself)
  }

  function ShareOf(parts: seq<int>, spread: int, total: int, i: nat): int
    requires i < |parts| && total > 0
  {
    if i == |parts| - 1 then LastShare(parts, spread, total) else HalfUpShare(spread, parts[i], total)
  }

  /** What each open line still expects after the spread. */
  function AfterSpread(parts: seq<int>, pool: int): (after: seq<int>)
    ensures |after| == |parts|
  {
    var total := Sum(parts, Itself);
    if parts == [] || total <= 0 then parts
    else
      var spread := if pool < total then pool else total;
      seq(|parts|, i requires 0 <= i < |parts| => Max0(parts[i] - ShareOf(parts, spread, total, i)))
  }

  // ---------------------------------------------------------------- rounding

  lemma ProductGrows(c: int, x: int, y: int)
    requires 0 <= c && x <= y
    ensures c * x <= c * y
  {
  }

  lemma AtMostByFactor(c: int, x: int, y: int)
    requires c > 0 && c * x < c * (y + 1)
    ensures x <= y
  {
    if x > y { ProductGrows(c, y + 1, x); }
  }

  /** A share is within half a cent of its exact proportion. */
  lemma ShareIsNearest(spread: int, part: int, total: int)
    requires total > 0
    ensures 2 * (spread * part) - total < 2 * total * HalfUpShare(spread, part, total) <= 2 * (spread * part) + total
  {
  }

  /** A proportional share never exceeds the line it falls on. */
  lemma ShareFits(spread: int, part: int, total: int)
    requires 0 <= spread <= total && total > 0 && part >= 0
    ensures 0 <= HalfUpShare(spread, part, total) <= part
  {
    var share := HalfUpShare(spread, part, total);
    ShareIsNearest(spread, part, total);
    ProductGrows(part, spread, total);
    ProductGrows(part, 0, spread);
    ShareFitsStep(spread * part, total * part, part, total, share);
  }

  lemma ShareFitsStep(sp: int, tp: int, part: int, total: int, share: int)
    requires total > 0 && 0 <= sp <= tp && tp == total * part
    requires 2 * sp - total < 2 * total * share <= 2 * sp + total
    ensures 0 <= share <= part
  {
    assert 2 * total * (part + 1) == 2 * tp + 2 * total;
    AtMostByFactor(2 * total, share, part);
    assert 2 * total * (share + 1) == 2 * total * share + 2 * total;
    AtMostByFactor(2 * total, 0, share);
  }

  /** The shares of all lines but the last stray by at most half a cent each. */
  lemma {:induction false} EarlierSharesStray(parts: seq<int>, spread: int, total: int)
    requires total > 0
    ensures var exact, given :=
              2 * (spread * Sum(parts, Itself)), 2 * total * Sum(EarlierShares(parts, spread, total), Itself);
            exact - |parts| * total <= given <= exact + |parts| * total
  {
    if parts != [] {
      var n := |parts| - 1;
      EarlierSharesStray(parts[..n], spread, total);
      ShareIsNearest(spread, parts[n], total);
      assert EarlierShares(parts, spread, total)[..n] == EarlierShares(parts[..n], spread, total);
      StrayStep(n, total, spread, Sum(parts[..n], Itself), parts[n],
                Sum(EarlierShares(parts[..n], spread, total), Itself), HalfUpShare(spread, parts[n], total));
    }
  }

  lemma StrayStep(n: nat, total: int, spread: int, sum: int, part: int, given: int, share: int)
    requires 2 * (spread * sum) - n * total <= 2 * total * given <= 2 * (spread * sum) + n * total
    requires 2 * (spread * part) - total <= 2 * total * share <= 2 * (spread * part) + total
    ensures 2 * (spread * (sum + part)) - (n + 1) * total <= 2 * total * (given + share)
            <= 2 * (spread * (sum + part)) + (n + 1) * total
  {
    assert spread * (sum + part) == spread * sum + spread * part;
    assert 2 * total * (given + share) == 2 * total * given + 2 * total * share;
    assert (n + 1) * total == n * total + total;
  }

  /** The residual the last line takes: below zero, or above its line, by at most half a cent per other line. */
  lemma LastShareStrays(parts: seq<int>, spread: int, total: int)
    requires parts != [] && total == Sum(parts, Itself) > 0 && 0 <= spread <= total
    requires parts[|parts| - 1] >= 0
    ensures var last, n := LastShare(parts, spread, total), |parts| - 1;
            -n <= 2 * last <= 2 * parts[n] + n
  {
    var n := |parts| - 1;
    EarlierSharesStray(parts[..n], spread, total);
    ProductGrows(parts[n], 0, spread);
    ProductGrows(parts[n], spread, total);
    LastStep(n, total, spread, parts[n], spread * parts[n], total * parts[n],
             Sum(EarlierShares(parts[..n], spread, total), Itself));
  }

  lemma LastStep(n: int, total: int, spread: int, part: int, sp: int, tp: int, given: int)
    requires total > 0 && sp == spread * part && tp == total * part && 0 <= sp <= tp
    requires 2 * (spread * (total - part)) - n * total <= 2 * total * given <= 2 * (spread * (total - part)) + n * total
    ensures -n <= 2 * (spread - given) <= 2 * part + n
  {
    var last, given2 := spread - given, 2 * total * given;
    assert spread * (total - part) == spread * total - sp;
    assert total * (2 * last) == 2 * (spread * total) - given2;
    LastBounds(n, total, part, sp, tp, last, total * (2 * last));
  }

  lemma LastBounds(n: int, total: int, part: int, sp: int, tp: int, last: int, scaled: int)
    requires total > 0 && tp == total * part && 0 <= sp <= tp && scaled == total * (2 * last)
    requires 2 * sp - n * total <= scaled <= 2 * sp + n * total
    ensures -n <= 2 * last <= 2 * part + n
  {
    assert total * (2 * last + 1) == scaled + total;
    assert total * (-n) == -(n * total);
    AtMostByFactor(total, -n, 2 * last);
    assert total * (2 * part + n + 1) == 2 * tp + n * total + total;
    AtMostByFactor(total, 2 * last, 2 * part + n);
  }

  // ---------------------------------------------------------------- what a spread does

  ghost predicate OpenLines(parts: seq<int>) {
    forall i :: 0 <= i < |parts| ==> parts[i] > 0
  }

  function Spread(parts: seq<int>, pool: int): int {
    var total := Sum(parts, Itself);
    if pool < total then pool else total
  }

  /** Every line but the last gives up exactly its share; the last is clamped or grows by the rounding alone. */
  lemma LinesAfterSpread(parts: seq<int>, pool: int, i: nat)
    requires OpenLines(parts) && 0 <= pool && i < |parts|
    ensures var after, n := AfterSpread(parts, pool), |parts| - 1;
            && after[i] >= 0
            && (i < n ==> after[i] <= parts[i])
            && (i == n ==> 2 * after[i] <= 2 * parts[i] + n)
  {
    OpenTotal(parts);
    var total, spread := Sum(parts, Itself), Spread(parts, pool);
    if i < |parts| - 1 {
      ShareFits(spread, parts[i], total);
    } else {
      LastShareStrays(parts, spread, total);
    }
  }

  lemma OpenTotal(parts: seq<int>)
    requires OpenLines(parts) && parts != []
    ensures Sum(parts, Itself) > 0
  {
    SumAtLeast(parts, Itself, 1);
  }

  /**
   * The month falls by the spread, short of it by at most half a cent for every line but one:
   * spread - (n - 1) / 2 <= fall <= spread.
   */
  lemma MonthFallsByTheSpread(parts: seq<int>, pool: int)
    requires OpenLines(parts) && parts != [] && 0 <= pool
    ensures var fall := Sum(parts, Itself) - Sum(AfterSpread(parts, pool), Itself);
            2 * Spread(parts, pool) - (|parts| - 1) <= 2 * fall <= 2 * Spread(parts, pool)
  {
    hide Sum, AfterSpread, LastShare;
    OpenTotal(parts);
    var n, total, spread := |parts| - 1, Sum(parts, Itself), Spread(parts, pool);
    AfterSpreadSplits(parts, pool);
    EarlierLinesFall(parts, spread, total, n);
    LastShareStrays(parts, spread, total);
  }

  lemma AfterSpreadSplits(parts: seq<int>, pool: int)
    requires parts != [] && Sum(parts, Itself) > 0
    ensures var n, total, spread := |parts| - 1, Sum(parts, Itself), Spread(parts, pool);
            && Sum(AfterSpread(parts, pool), Itself)
               == Sum(EarlierAfter(parts, spread, total, n), Itself) + Max0(parts[n] - LastShare(parts, spread, total))
            && total == Sum(parts[..n], Itself) + parts[n]
            && LastShare(parts, spread, total) == spread - Sum(EarlierShares(parts[..n], spread, total), Itself)
  {
    hide HalfUpShare;
    var n, total, spread := |parts| - 1, Sum(parts, Itself), Spread(parts, pool);
    assert AfterSpread(parts, pool)[..n] == EarlierAfter(parts, spread, total, n);
  }

  function EarlierAfter(parts: seq<int>, spread: int, total: int, n: nat): seq<int>
    requires n <= |parts| && total > 0
  {
    seq(n, i requires 0 <= i < n => Max0(parts[i] - HalfUpShare(spread, parts[i], total)))
  }

  lemma {:induction false} EarlierLinesFall(parts: seq<int>, spread: int, total: int, n: nat)
    requires OpenLines(parts) && n <= |parts| && total > 0 && 0 <= spread <= total
    ensures Sum(EarlierAfter(parts, spread, total, n), Itself)
            == Sum(parts[..n], Itself) - Sum(EarlierShares(parts[..n], spread, total), Itself)
  {
    if n > 0 {
      EarlierLinesFall(parts, spread, total, n - 1);
      ShareFits(spread, parts[n - 1], total);
      assert EarlierAfter(parts, spread, total, n)[..n - 1] == EarlierAfter(parts, spread, total, n - 1);
      assert parts[..n][..n - 1] == parts[..n - 1];
      assert EarlierShares(parts[..n], spread, total)[..n - 1] == EarlierShares(parts[..n - 1], spread, total);
    }
  }

  /** The last line is left with what it had and what the shares before it overran the spread by. */
  lemma LastLineIsLeftWith(parts: seq<int>, pool: int)
    requires OpenLines(parts) && parts != []
    ensures var n, total := |parts| - 1, Sum(parts, Itself);
            && total > 0
            && AfterSpread(parts, pool)[n]
               == Max0(parts[n] + Sum(EarlierShares(parts[..n], Spread(parts, pool), total), Itself)
                       - Spread(parts, pool))
  {
    OpenTotal(parts);
  }

  /** The last line ends above what it had exactly when the rounded shares before it exceed the spread. */
  lemma LastLineGrowsExactlyWhen(parts: seq<int>, pool: int)
    requires OpenLines(parts) && parts != []
    ensures var n, total := |parts| - 1, Sum(parts, Itself);
            total > 0
            && (AfterSpread(parts, pool)[n] > parts[n]
                <==> Sum(EarlierShares(parts[..n], Spread(parts, pool), total), Itself) > Spread(parts, pool))
  {
    OpenTotal(parts);
  }

  /** As ten lines of a cent each and a pool of five cents do: the last ends at five. */
  lemma LastLineMayGrow()
    ensures AfterSpread([1, 1, 1, 1, 1, 1, 1, 1, 1, 1], 5)[9] == 5
  {
    var parts := [1, 1, 1, 1, 1, 1, 1, 1, 1, 1];
    assert parts[..9] == [1, 1, 1, 1, 1, 1, 1, 1, 1];
    OnesSum(parts);
    OnesSum(parts[..9]);
    assert EarlierShares(parts[..9], 5, 10) == [1, 1, 1, 1, 1, 1, 1, 1, 1];
  }

  lemma {:induction false} OnesSum(parts: seq<int>)
    requires forall i :: 0 <= i < |parts| ==> parts[i] == 1
    ensures Sum(parts, Itself) == |parts|
  {
    if parts != [] { OnesSum(parts[..|parts| - 1]); }
  }
}

/** Pouring already-allocated receipts into a replacement payment schedule. */
module CarryForward {
  import opened Amounts
  import opened Sums

  datatype CarryLine = CarryLine(receipt: int, installment: int, amount: int)

  datatype CarryTarget = CarryTarget(installment: int, capacity: int)

  datatype CarrySource = CarrySource(receipt: int, amount: int)

  datatype Plan = Placed(lines: seq<CarryLine>) | NowhereToGo(left: int)

  const SourceCash: CarrySource -> int := (s: CarrySource) => Max0(s.amount)
  const TargetRoom: CarryTarget -> int := (t: CarryTarget) => Max0(t.capacity)
  const LineAmount: CarryLine -> int := (l: CarryLine) => l.amount
  const LineReceipt: CarryLine -> int := (l: CarryLine) => l.receipt
  const LineInstallment: CarryLine -> int := (l: CarryLine) => l.installment
  const SourceReceipt: CarrySource -> int := (s: CarrySource) => s.receipt
  const TargetInstallment: CarryTarget -> int := (t: CarryTarget) => t.installment

  function Take(s: CarrySource, t: CarryTarget): int {
    if t.capacity < s.amount then t.capacity else s.amount
  }

  function SourcesAfter(sources: seq<CarrySource>, take: int): (r: seq<CarrySource>)
    requires sources != []
    ensures |r| <= |sources| && (take == sources[0].amount ==> |r| < |sources|)
  {
    var s := sources[0];
    if s.amount == take then sources[1..] else [s.(amount := s.amount - take)] + sources[1..]
  }

  function TargetsAfter(targets: seq<CarryTarget>, take: int): (r: seq<CarryTarget>)
    requires targets != []
    ensures |r| <= |targets| && (take == targets[0].capacity ==> |r| < |targets|)
  {
    var t := targets[0];
    if t.capacity == take then targets[1..] else [t.(capacity := t.capacity - take)] + targets[1..]
  }

  function FirstLine(sources: seq<CarrySource>, targets: seq<CarryTarget>): CarryLine
    requires sources != [] && targets != []
  {
    CarryLine(sources[0].receipt, targets[0].installment, Take(sources[0], targets[0]))
  }

  /**
   * The pour as a merge of the two lists: the first source meets the first target, and
   * whichever is used up steps aside. No dictionary, and nothing is ever revisited.
   */
  function Pour(sources: seq<CarrySource>, targets: seq<CarryTarget>): seq<CarryLine>
    decreases |sources| + |targets|
  {
    if sources == [] || targets == [] then []
    else if sources[0].amount <= 0 then Pour(sources[1..], targets)
    else if targets[0].capacity <= 0 then Pour(sources, targets[1..])
    else
      var take := Take(sources[0], targets[0]);
      [FirstLine(sources, targets)] + Pour(SourcesAfter(sources, take), TargetsAfter(targets, take))
  }

  // ---------------------------------------------------------------- one step of the pour

  lemma SumHead<T>(s: seq<T>, f: T -> int)
    requires s != []
    ensures Sum(s, f) == f(s[0]) + Sum(s[1..], f)
  {
    assert s == [s[0]] + s[1..];
    SumAppend([s[0]], s[1..], f);
    assert [s[0]][..0] == [];
  }

  lemma SumCons<T>(x: T, s: seq<T>, f: T -> int)
    ensures Sum([x] + s, f) == f(x) + Sum(s, f)
  {
    SumHead([x] + s, f);
  }

  /** A step takes its line's amount out of the first source, whatever the sources are counted by. */
  lemma SourceGives(sources: seq<CarrySource>, take: int, cash: CarrySource -> int, given: int)
    requires sources != [] && 0 < take <= sources[0].amount
    requires cash(sources[0]) - given == cash(sources[0].(amount := sources[0].amount - take))
    requires cash(sources[0].(amount := 0)) == 0
    ensures Sum(SourcesAfter(sources, take), cash) == Sum(sources, cash) - given
  {
    SumHead(sources, cash);
    SumCons(sources[0].(amount := sources[0].amount - take), sources[1..], cash);
  }

  lemma TargetTakes(targets: seq<CarryTarget>, take: int, room: CarryTarget -> int, taken: int)
    requires targets != [] && 0 < take <= targets[0].capacity
    requires room(targets[0]) - taken == room(targets[0].(capacity := targets[0].capacity - take))
    requires room(targets[0].(capacity := 0)) == 0
    ensures Sum(TargetsAfter(targets, take), room) == Sum(targets, room) - taken
  {
    SumHead(targets, room);
    SumCons(targets[0].(capacity := targets[0].capacity - take), targets[1..], room);
  }

  /** Whether the first source meets the first target; otherwise one of them has nothing to offer. */
  predicate Meets(sources: seq<CarrySource>, targets: seq<CarryTarget>) {
    sources != [] && targets != [] && sources[0].amount > 0 && targets[0].capacity > 0
  }

  // ---------------------------------------------------------------- what a pour does

  /** The pour moves all the cash it can: as much as there is, up to the room there is. */
  lemma {:induction false} PourMovesAllItCan(sources: seq<CarrySource>, targets: seq<CarryTarget>)
    ensures var cash, room := Sum(sources, SourceCash), Sum(targets, TargetRoom);
            Sum(Pour(sources, targets), LineAmount) == (if cash <= room then cash else room)
    decreases |sources| + |targets|
  {
    SumNonNegative(sources, SourceCash);
    SumNonNegative(targets, TargetRoom);
    if Meets(sources, targets) {
      var take := Take(sources[0], targets[0]);
      PourMovesAllItCan(SourcesAfter(sources, take), TargetsAfter(targets, take));
      SourceGives(sources, take, SourceCash, take);
      TargetTakes(targets, take, TargetRoom, take);
      SumCons(FirstLine(sources, targets), Pour(SourcesAfter(sources, take), TargetsAfter(targets, take)), LineAmount);
    } else if sources != [] && targets != [] {
      SumHead(sources, SourceCash);
      SumHead(targets, TargetRoom);
      if sources[0].amount <= 0 {
        PourMovesAllItCan(sources[1..], targets);
      } else {
        PourMovesAllItCan(sources, targets[1..]);
      }
    }
  }

  /** Where the schedule has room for everything, every receipt's cash is placed in full. */
  lemma {:induction false} PourPlacesEveryReceipt(sources: seq<CarrySource>, targets: seq<CarryTarget>, receipt: int)
    requires Sum(sources, SourceCash) <= Sum(targets, TargetRoom)
    ensures Sum(Pour(sources, targets), At(LineReceipt, receipt, LineAmount))
            == Sum(sources, At(SourceReceipt, receipt, SourceCash))
    decreases |sources| + |targets|
  {
    var placed, owed := At(LineReceipt, receipt, LineAmount), At(SourceReceipt, receipt, SourceCash);
    if Meets(sources, targets) {
      var take := Take(sources[0], targets[0]);
      var sources', targets' := SourcesAfter(sources, take), TargetsAfter(targets, take);
      SourceGives(sources, take, SourceCash, take);
      TargetTakes(targets, take, TargetRoom, take);
      PourPlacesEveryReceipt(sources', targets', receipt);
      SourceGives(sources, take, owed, if sources[0].receipt == receipt then take else 0);
      SumCons(FirstLine(sources, targets), Pour(sources', targets'), placed);
    } else if targets == [] {
      forall s | s in sources ensures owed(s) == 0 { SumAtLeastMember(sources, SourceCash, s); }
      SumZero(sources, owed);
    } else if sources != [] {
      SumHead(sources, SourceCash);
      SumHead(targets, TargetRoom);
      SumHead(sources, owed);
      if sources[0].amount <= 0 {
        PourPlacesEveryReceipt(sources[1..], targets, receipt);
      } else {
        PourPlacesEveryReceipt(sources, targets[1..], receipt);
      }
    }
  }

  /** No instalment is poured past its capacity, and nothing lands outside the schedule. */
  lemma {:induction false} PourRespectsCapacity(sources: seq<CarrySource>, targets: seq<CarryTarget>, installment: int)
    ensures 0 <= Sum(Pour(sources, targets), At(LineInstallment, installment, LineAmount))
            <= Sum(targets, At(TargetInstallment, installment, TargetRoom))
    decreases |sources| + |targets|
  {
    var poured, room := At(LineInstallment, installment, LineAmount), At(TargetInstallment, installment, TargetRoom);
    SumNonNegative(targets, room);
    if Meets(sources, targets) {
      var take := Take(sources[0], targets[0]);
      PourRespectsCapacity(SourcesAfter(sources, take), TargetsAfter(targets, take), installment);
      TargetTakes(targets, take, room, if targets[0].installment == installment then take else 0);
      SumCons(FirstLine(sources, targets), Pour(SourcesAfter(sources, take), TargetsAfter(targets, take)), poured);
    } else if sources != [] && targets != [] {
      SumHead(targets, room);
      if sources[0].amount <= 0 {
        PourRespectsCapacity(sources[1..], targets, installment);
      } else {
        PourRespectsCapacity(sources, targets[1..], installment);
      }
    }
  }

  /** Every line moves cash, and each uses up a source or a target. */
  lemma {:induction false} PourIsShort(sources: seq<CarrySource>, targets: seq<CarryTarget>)
    ensures Pour(sources, targets) != [] ==> |Pour(sources, targets)| <= |sources| + |targets| - 1
    ensures forall l :: l in Pour(sources, targets) ==> l.amount > 0
    decreases |sources| + |targets|
  {
    if Meets(sources, targets) {
      var take := Take(sources[0], targets[0]);
      PourIsShort(SourcesAfter(sources, take), TargetsAfter(targets, take));
    } else if sources != [] && targets != [] {
      if sources[0].amount <= 0 { PourIsShort(sources[1..], targets); } else { PourIsShort(sources, targets[1..]); }
    }
  }

  /** What a pour lands on one instalment. */
  function Poured(sources: seq<CarrySource>, targets: seq<CarryTarget>, installment: int): int {
    Sum(Pour(sources, targets), At(LineInstallment, installment, LineAmount))
  }

  lemma PouredByStep(sources: seq<CarrySource>, targets: seq<CarryTarget>, take: int, installment: int)
    requires Meets(sources, targets) && take == Take(sources[0], targets[0])
    ensures Poured(sources, targets, installment)
            == Poured(SourcesAfter(sources, take), TargetsAfter(targets, take), installment)
               + (if targets[0].installment == installment then take else 0)
  {
    SumCons(FirstLine(sources, targets), Pour(SourcesAfter(sources, take), TargetsAfter(targets, take)),
            At(LineInstallment, installment, LineAmount));
  }

  /** The first instalment of a schedule, once something has passed it, is full. */
  lemma FirstFills(sources: seq<CarrySource>, targets: seq<CarryTarget>)
    requires targets != [] && DistinctTargets(targets)
    requires Meets(sources, targets) ==> Take(sources[0], targets[0]) == targets[0].capacity
    requires sources != [] && (sources[0].amount > 0 || targets[0].capacity <= 0)
    ensures Poured(sources, targets, targets[0].installment) == Max0(targets[0].capacity)
  {
    var installment := targets[0].installment;
    NoRoomElsewhere(targets);
    if Meets(sources, targets) {
      var take := Take(sources[0], targets[0]);
      PouredByStep(sources, targets, take, installment);
      PourRespectsCapacity(SourcesAfter(sources, take), targets[1..], installment);
    } else {
      PourRespectsCapacity(sources, targets, installment);
      RoomAt(targets, 0);
    }
  }

  lemma EmptySourcesPourNothing(sources: seq<CarrySource>, targets: seq<CarryTarget>, installment: int)
    ensures sources == [] ==> Poured(sources, targets, installment) == 0
    ensures sources != [] && sources[0].amount <= 0 ==>
              Poured(sources, targets, installment) == Poured(sources[1..], targets, installment)
  {
  }

  /** Instalments are filled in schedule order: cash reaches a later one only past full ones. */
  lemma {:induction false} PourFillsInOrder(sources: seq<CarrySource>, targets: seq<CarryTarget>, i: nat, j: nat)
    requires i < j < |targets| && DistinctTargets(targets)
    requires Poured(sources, targets, targets[j].installment) > 0
    ensures Poured(sources, targets, targets[i].installment) == Max0(targets[i].capacity)
    decreases |sources| + |targets|
  {
    hide Poured, Pour, Sum;
    EmptySourcesPourNothing(sources, targets, targets[i].installment);
    EmptySourcesPourNothing(sources, targets, targets[j].installment);
    if sources == [] {
    } else if sources[0].amount <= 0 {
      PourFillsInOrder(sources[1..], targets, i, j);
    } else if Meets(sources, targets) && Take(sources[0], targets[0]) < targets[0].capacity {
      var take := Take(sources[0], targets[0]);
      PouredByStep(sources, targets, take, targets[i].installment);
      PouredByStep(sources, targets, take, targets[j].installment);
      StillDistinct(targets, take);
      PourFillsInOrder(SourcesAfter(sources, take), TargetsAfter(targets, take), i, j);
    } else if i == 0 {
      FirstFills(sources, targets);
    } else {
      var take, later := targets[0].capacity, targets[1..];
      var sources' := if take > 0 then SourcesAfter(sources, take) else sources;
      assert later[i - 1] == targets[i] && later[j - 1] == targets[j] && DistinctTargets(later);
      PastTheFirst(sources, targets, targets[i].installment);
      PastTheFirst(sources, targets, targets[j].installment);
      PourFillsInOrder(sources', later, i - 1, j - 1);
    }
  }

  lemma StillDistinct(targets: seq<CarryTarget>, take: int)
    requires targets != [] && DistinctTargets(targets) && take != targets[0].capacity
    ensures DistinctTargets(TargetsAfter(targets, take)) && |TargetsAfter(targets, take)| == |targets|
    ensures TargetsAfter(targets, take)[0].installment == targets[0].installment
    ensures forall k :: 0 < k < |targets| ==> TargetsAfter(targets, take)[k] == targets[k]
  {
  }

  /** Once the first instalment is done with, what lands on another is poured by the rest. */
  lemma PastTheFirst(sources: seq<CarrySource>, targets: seq<CarryTarget>, installment: int)
    requires sources != [] && targets != [] && sources[0].amount > 0
    requires targets[0].capacity <= sources[0].amount && targets[0].installment != installment
    ensures Poured(sources, targets, installment)
            == Poured(if targets[0].capacity > 0 then SourcesAfter(sources, targets[0].capacity)
                      else sources, targets[1..], installment)
  {
    if Meets(sources, targets) {
      PouredByStep(sources, targets, Take(sources[0], targets[0]), installment);
    }
  }

  ghost predicate DistinctTargets(targets: seq<CarryTarget>) {
    forall a, b :: 0 <= a < b < |targets| ==> targets[a].installment != targets[b].installment
  }

  lemma NoRoomElsewhere(targets: seq<CarryTarget>)
    requires targets != [] && DistinctTargets(targets)
    ensures Sum(targets[1..], At(TargetInstallment, targets[0].installment, TargetRoom)) == 0
  {
    SumZero(targets[1..], At(TargetInstallment, targets[0].installment, TargetRoom));
  }

  /** With distinct instalments, the room under one's id is its own capacity. */
  lemma {:induction false} RoomAt(targets: seq<CarryTarget>, k: nat)
    requires k < |targets| && DistinctTargets(targets)
    ensures Sum(targets, At(TargetInstallment, targets[k].installment, TargetRoom)) == Max0(targets[k].capacity)
  {
    var room := At(TargetInstallment, targets[k].installment, TargetRoom);
    SumHead(targets, room);
    if k == 0 {
      NoRoomElsewhere(targets);
    } else {
      RoomAt(targets[1..], k - 1);
    }
  }

  // ---------------------------------------------------------------- pouring against a dictionary

  /** Full instalments at the front of a schedule play no part in a pour. */
  lemma {:induction false} SkipFull(sources: seq<CarrySource>, targets: seq<CarryTarget>, j: nat)
    requires j <= |targets|
    requires forall k :: 0 <= k < j ==> targets[k].capacity <= 0
    ensures Pour(sources, targets) == Pour(sources, targets[j..])
    ensures Sum(targets, TargetRoom) == Sum(targets[j..], TargetRoom)
    decreases |sources|, j
  {
    if j > 0 {
      SkipFull(sources, targets[1..], j - 1);
      SumHead(targets, TargetRoom);
      assert targets[1..][j - 1..] == targets[j..];
      if sources != [] && sources[0].amount <= 0 {
        SkipFull(sources[1..], targets, j);
        SkipFull(sources[1..], targets[j..], 0);
      }
    }
  }

  function Less(s: CarrySource, take: int): CarrySource { s.(amount := s.amount - take) }

  function Room(t: CarryTarget, take: int): CarryTarget { t.(capacity := t.capacity - take) }

  lemma SpentSourcePoursNothing(spent: CarrySource, rest: seq<CarrySource>, targets: seq<CarryTarget>)
    requires spent.amount <= 0
    ensures Pour([spent] + rest, targets) == Pour(rest, targets)
  {
    assert ([spent] + rest)[1..] == rest;
  }

  lemma FilledTargetTakesNothing(sources: seq<CarrySource>, filled: CarryTarget, rest: seq<CarryTarget>)
    requires filled.capacity <= 0
    ensures Pour(sources, [filled] + rest) == Pour(sources, rest)
  {
    hide Pour;
    SkipFull(sources, [filled] + rest, 1);
    assert ([filled] + rest)[1..] == rest;
  }

  /** A spent source, or a filled instalment, left standing at the front pours the same. */
  lemma SpentMayStand(sources: seq<CarrySource>, targets: seq<CarryTarget>, take: int)
    requires sources != [] && targets != []
    ensures Pour([Less(sources[0], take)] + sources[1..], [Room(targets[0], take)] + targets[1..])
            == Pour(SourcesAfter(sources, take), TargetsAfter(targets, take))
  {
    hide Pour;
    var standing := [Room(targets[0], take)] + targets[1..];
    if sources[0].amount == take { SpentSourcePoursNothing(Less(sources[0], take), sources[1..], standing); }
    if targets[0].capacity == take {
      FilledTargetTakesNothing(SourcesAfter(sources, take), Room(targets[0], take), targets[1..]);
    }
  }

  /** One take in the dictionary is one step of the pour. */
  lemma DictionaryStep(sources: seq<CarrySource>, targets: seq<CarryTarget>, j: nat, take: int)
    requires sources != [] && j < |targets| && sources[0].amount > 0 && targets[j].capacity > 0
    requires forall k :: 0 <= k < j ==> targets[k].capacity <= 0
    requires take == Take(sources[0], targets[j])
    ensures Pour(sources, targets)
            == [CarryLine(sources[0].receipt, targets[j].installment, take)]
               + Pour([Less(sources[0], take)] + sources[1..], targets[j := Room(targets[j], take)])
  {
    hide Sum;
    var after := targets[j := Room(targets[j], take)];
    SkipFull(sources, targets, j);
    SkipFull([Less(sources[0], take)] + sources[1..], after, j);
    assert after[j..] == [Room(targets[j], take)] + targets[j..][1..];
    SpentMayStand(sources, targets[j..], take);
  }

  lemma DictionaryStepBalances(sources: seq<CarrySource>, targets: seq<CarryTarget>, j: nat, take: int)
    requires sources != [] && j < |targets| && 0 < take <= sources[0].amount && take <= targets[j].capacity
    ensures Sum([Less(sources[0], take)] + sources[1..], SourceCash) == Sum(sources, SourceCash) - take
    ensures Sum(targets[j := Room(targets[j], take)], TargetRoom) == Sum(targets, TargetRoom) - take
  {
    SumHead(sources, SourceCash);
    SumCons(Less(sources[0], take), sources[1..], SourceCash);
    var after := targets[j := Room(targets[j], take)];
    SumRemoveAt(targets, j, TargetRoom);
    SumRemoveAt(after, j, TargetRoom);
    assert after[..j] + after[j + 1..] == targets[..j] + targets[j + 1..];
  }

  /** What is still to pour, with these lines written: the cash of `sources` into what is left of the schedule. */
  ghost predicate StillToPour(lines: seq<CarryLine>, sources: seq<CarrySource>, targets: seq<CarryTarget>,
          allSources: seq<CarrySource>, allTargets: seq<CarryTarget>) {
    && lines + Pour(sources, targets) == Pour(allSources, allTargets)
    && Sum(sources, SourceCash) - Sum(targets, TargetRoom) == Sum(allSources, SourceCash) - Sum(allTargets, TargetRoom)
  }

  lemma StillToPourAfterTaking(lines: seq<CarryLine>, sources: seq<CarrySource>, targets: seq<CarryTarget>, j: nat,
          take: int, allSources: seq<CarrySource>, allTargets: seq<CarryTarget>)
    requires StillToPour(lines, sources, targets, allSources, allTargets)
    requires sources != [] && j < |targets| && sources[0].amount > 0 && targets[j].capacity > 0
    requires forall k :: 0 <= k < j ==> targets[k].capacity <= 0
    requires take == Take(sources[0], targets[j])
    ensures StillToPour(lines + [CarryLine(sources[0].receipt, targets[j].installment, take)],
                        [Less(sources[0], take)] + sources[1..], targets[j := Room(targets[j], take)],
                        allSources, allTargets)
  {
    DictionaryStep(sources, targets, j, take);
    DictionaryStepBalances(sources, targets, j, take);
    var line := CarryLine(sources[0].receipt, targets[j].installment, take);
    var rest := Pour([Less(sources[0], take)] + sources[1..], targets[j := Room(targets[j], take)]);
    assert (lines + [line]) + rest == lines + ([line] + rest);
  }

  // ---------------------------------------------------------------- the procedure

  /** The schedule with each capacity replaced by what is left of it. */
  ghost function Residual(targets: seq<CarryTarget>, remaining: map<int, int>): (r: seq<CarryTarget>)
    requires forall k :: 0 <= k < |targets| ==> targets[k].installment in remaining
    ensures |r| == |targets|
  {
    seq(|targets|, k requires 0 <= k < |targets| =>
        CarryTarget(targets[k].installment, remaining[targets[k].installment]))
  }

  lemma ResidualAfterTaking(targets: seq<CarryTarget>, remaining: map<int, int>, j: nat, take: int)
    requires forall k :: 0 <= k < |targets| ==> targets[k].installment in remaining
    requires j < |targets| && DistinctTargets(targets)
    ensures var id := targets[j].installment;
            var before := Residual(targets, remaining);
            Residual(targets, remaining[id := remaining[id] - take]) == before[j := Room(before[j], take)]
  {
  }

  function Capacities(targets: seq<CarryTarget>): map<int, int> {
    if targets == [] then map[]
    else Capacities(targets[..|targets| - 1])[targets[|targets| - 1].installment := targets[|targets| - 1].capacity]
  }

  lemma {:induction false} CapacitiesAreTheirOwn(targets: seq<CarryTarget>)
    requires DistinctTargets(targets)
    ensures forall k :: 0 <= k < |targets| ==>
              && targets[k].installment in Capacities(targets)
              && Capacities(targets)[targets[k].installment] == targets[k].capacity
  {
    if targets != [] {
      CapacitiesAreTheirOwn(targets[..|targets| - 1]);
      assert forall k :: 0 <= k < |targets| - 1 ==> targets[k] == targets[..|targets| - 1][k];
    }
  }

  /** The instalments named, each where it is first named. */
  function Firsts(targets: seq<CarryTarget>): (ids: seq<int>)
    ensures forall id :: id in ids <==> id in Capacities(targets)
    ensures |ids| <= |targets|
  {
    if targets == [] then []
    else
      var n := |targets| - 1;
      var before := Firsts(targets[..n]);
      if targets[n].installment in before then before else before + [targets[n].installment]
  }

  /** What is poured into: each instalment once, where it is first named, with the room last stated for it. */
  function Schedule(targets: seq<CarryTarget>): (schedule: seq<CarryTarget>)
    ensures |schedule| == |Firsts(targets)|
    ensures forall k :: 0 <= k < |schedule| ==> schedule[k].installment == Firsts(targets)[k]
  {
    var ids := Firsts(targets);
    seq(|ids|, k requires 0 <= k < |ids| =>
      CarryTarget(ids[k], if ids[k] in Capacities(targets) then Capacities(targets)[ids[k]] else 0))
  }

  lemma {:induction false} FirstsAreDistinct(targets: seq<CarryTarget>)
    ensures Distinct(Firsts(targets))
  {
    if targets != [] { FirstsAreDistinct(targets[..|targets| - 1]); }
  }

  lemma ScheduleIsDistinct(targets: seq<CarryTarget>)
    ensures DistinctTargets(Schedule(targets))
  {
    FirstsAreDistinct(targets);
  }

  lemma {:induction false} FirstsOfDistinct(targets: seq<CarryTarget>)
    requires DistinctTargets(targets)
    ensures |Firsts(targets)| == |targets| && forall k :: 0 <= k < |targets| ==>
              Firsts(targets)[k] == targets[k].installment
  {
    hide Capacities;
    if targets != [] {
      var n := |targets| - 1;
      FirstsOfDistinct(targets[..n]);
      assert forall k :: 0 <= k < n ==> targets[k] == targets[..n][k];
      var before := Firsts(targets[..n]);
      forall k | 0 <= k < |before| ensures before[k] != targets[n].installment {}
    }
  }

  /** A replacement schedule whose instalments are all different is poured into as it stands. */
  lemma DistinctScheduleIsItself(targets: seq<CarryTarget>)
    requires DistinctTargets(targets)
    ensures Schedule(targets) == targets
  {
    FirstsOfDistinct(targets);
    CapacitiesAreTheirOwn(targets);
  }

  lemma {:induction false} FirstsGrow(targets: seq<CarryTarget>, j: nat)
    requires j <= |targets|
    ensures |Firsts(targets[..j])| <= |Firsts(targets)|
    ensures Firsts(targets)[..|Firsts(targets[..j])|] == Firsts(targets[..j])
  {
    if j == |targets| {
      assert targets[..j] == targets;
    } else {
      var n := |targets| - 1;
      assert targets[..n][..j] == targets[..j];
      FirstsGrow(targets[..n], j);
    }
  }

  /** The next target names an instalment already met, or the next of the schedule. */
  lemma NextNamed(targets: seq<CarryTarget>, j: nat)
    requires j < |targets|
    ensures var p, id, schedule := |Firsts(targets[..j])|, targets[j].installment, Schedule(targets);
            && p <= |schedule|
            && (((exists q :: 0 <= q < p && schedule[q].installment == id) && |Firsts(targets[..j + 1])| == p)
                || (p < |schedule| && schedule[p].installment == id && |Firsts(targets[..j + 1])| == p + 1))
  {
    hide Schedule, Capacities;
    FirstsGrow(targets, j);
    FirstsGrow(targets, j + 1);
    NextFirst(targets, j);
    var before, id := Firsts(targets[..j]), targets[j].installment;
    if id in before {
      var q :| 0 <= q < |before| && before[q] == id;
      assert Firsts(targets)[..|before|][q] == id;
      assert Schedule(targets)[q].installment == id;
    } else {
      assert Firsts(targets)[..|before| + 1][|before|] == id;
    }
  }

  lemma NextFirst(targets: seq<CarryTarget>, j: nat)
    requires j < |targets|
    ensures var before, id := Firsts(targets[..j]), targets[j].installment;
            Firsts(targets[..j + 1]) == if id in before then before else before + [id]
  {
    assert targets[..j + 1][..j] == targets[..j];
  }

  /** Where the scan of one source stands: `left` of it unplaced, every instalment before j full. */
  ghost predicate Scanned(receipt: int, left: int, rest: seq<CarrySource>, j: nat, targets: seq<CarryTarget>,
          remaining: map<int, int>, lines: seq<CarryLine>, allSources: seq<CarrySource>, allTargets: seq<CarryTarget>)
  {
    && (forall k :: 0 <= k < |targets| ==> targets[k].installment in remaining)
    && 0 <= left && j <= |targets|
    && (left > 0 ==> forall k :: 0 <= k < j ==> remaining[targets[k].installment] <= 0)
    && StillToPour(lines, [CarrySource(receipt, left)] + rest, Residual(targets, remaining), allSources, allTargets)
  }

  lemma ScanTakes(receipt: int, left: int, rest: seq<CarrySource>, j: nat, targets: seq<CarryTarget>,
          remaining: map<int, int>, lines: seq<CarryLine>, allSources: seq<CarrySource>, allTargets: seq<CarryTarget>)
    requires Scanned(receipt, left, rest, j, targets, remaining, lines, allSources, allTargets)
    requires DistinctTargets(targets) && left > 0 && j < |targets| && remaining[targets[j].installment] > 0
    ensures var id := targets[j].installment;
            var take := if remaining[id] < left then remaining[id] else left;
            Scanned(receipt, left - take, rest, j + 1, targets, remaining[id := remaining[id] - take],
                    lines + [CarryLine(receipt, id, take)], allSources, allTargets)
  {
    hide StillToPour;
    var id := targets[j].installment;
    var take := if remaining[id] < left then remaining[id] else left;
    var before := [CarrySource(receipt, left)] + rest;
    assert before[1..] == rest;
    StillToPourAfterTaking(lines, before, Residual(targets, remaining), j, take, allSources, allTargets);
    ResidualAfterTaking(targets, remaining, j, take);
  }

  lemma ScanEnds(receipt: int, left: int, rest: seq<CarrySource>, j: nat, targets: seq<CarryTarget>,
          remaining: map<int, int>, lines: seq<CarryLine>, allSources: seq<CarrySource>, allTargets: seq<CarryTarget>)
    requires Scanned(receipt, left, rest, j, targets, remaining, lines, allSources, allTargets)
    requires left > 0 ==> j == |targets|
    ensures left > 0 ==> Sum(allSources, SourceCash) > Sum(allTargets, TargetRoom)
    ensures left == 0 ==> StillToPour(lines, rest, Residual(targets, remaining), allSources, allTargets)
  {
    var residual := Residual(targets, remaining);
    SumCons(CarrySource(receipt, left), rest, SourceCash);
    if left > 0 {
      SumNonNegative(rest, SourceCash);
      SumZero(residual, TargetRoom);
    } else if residual != [] {
      assert ([CarrySource(receipt, left)] + rest)[1..] == rest;
    }
  }

  lemma NothingPouredYet(sources: seq<CarrySource>, targets: seq<CarryTarget>)
    ensures StillToPour([], sources, targets, sources, targets)
  {
  }

  lemma NothingToScan(source: CarrySource, rest: seq<CarrySource>, targets: seq<CarryTarget>, lines: seq<CarryLine>,
          allSources: seq<CarrySource>, allTargets: seq<CarryTarget>)
    requires StillToPour(lines, [source] + rest, targets, allSources, allTargets) && source.amount <= 0
    ensures StillToPour(lines, rest, targets, allSources, allTargets)
  {
    assert ([source] + rest)[1..] == rest;
    SumCons(source, rest, SourceCash);
  }

  lemma NothingLeft(lines: seq<CarryLine>, sources: seq<CarrySource>, targets: seq<CarryTarget>,
          allSources: seq<CarrySource>, allTargets: seq<CarryTarget>)
    requires StillToPour(lines, sources, targets, allSources, allTargets) && sources == []
    ensures lines == Pour(allSources, allTargets)
    ensures Sum(allSources, SourceCash) <= Sum(allTargets, TargetRoom)
  {
    SumNonNegative(targets, TargetRoom);
    assert lines + [] == lines;
  }

  /**
   * Either the whole pour, or a refusal when the cash exceeds the room. `left` is what the
   * source in hand could not place.
   */
  method PlanCarryForward(sources: seq<CarrySource>, targets: seq<CarryTarget>) returns (plan: Plan)
    ensures plan.Placed? ==> plan.lines == Pour(sources, Schedule(targets))
    ensures plan.Placed? <==> Sum(sources, SourceCash) <= Sum(Schedule(targets), TargetRoom)
    ensures plan.NowhereToGo? ==> plan.left > 0
  {
    hide StillToPour;
    var remaining := Capacities(targets);
    var lines: seq<CarryLine> := [];
    ghost var schedule := Schedule(targets);
    NothingPouredYet(sources, schedule);
    assert Residual(schedule, remaining) == schedule;
    assert sources[0..] == sources;
    for i := 0 to |sources|
      invariant remaining.Keys == Capacities(targets).Keys
      invariant forall k :: 0 <= k < |schedule| ==> schedule[k].installment in remaining
      invariant StillToPour(lines, sources[i..], Residual(schedule, remaining), sources, schedule)
    {
      assert sources[i..] == [CarrySource(sources[i].receipt, sources[i].amount)] + sources[i + 1..];
      if sources[i].amount <= 0 {
        NothingToScan(sources[i], sources[i + 1..], Residual(schedule, remaining), lines, sources, schedule);
      } else {
        var left;
        left, remaining, lines := PourOne(sources[i].receipt, sources[i].amount, targets, remaining, lines,
                                          sources[i + 1..], sources);
        if left > 0 {
          return NowhereToGo(left);
        }
      }
    }
    NothingLeft(lines, sources[|sources|..], Residual(schedule, remaining), sources, schedule);
    plan := Placed(lines);
  }

  /** One source against the schedule, from its first instalment on. */
  method PourOne(
      receipt: int, amount: int, targets: seq<CarryTarget>, room: map<int, int>, placed: seq<CarryLine>,
      ghost rest: seq<CarrySource>, ghost allSources: seq<CarrySource>)
    returns (left: int, remaining: map<int, int>, lines: seq<CarryLine>)
    requires amount > 0 && room.Keys == Capacities(targets).Keys
    requires Scanned(receipt, amount, rest, 0, Schedule(targets), room, placed, allSources, Schedule(targets))
    ensures left >= 0 && remaining.Keys == Capacities(targets).Keys
    ensures forall k :: 0 <= k < |Schedule(targets)| ==> Schedule(targets)[k].installment in remaining
    ensures left > 0 ==> Sum(allSources, SourceCash) > Sum(Schedule(targets), TargetRoom)
    ensures left == 0 ==>
              StillToPour(lines, rest, Residual(Schedule(targets), remaining), allSources, Schedule(targets))
  {
    hide StillToPour, Residual, Schedule, Firsts, DistinctTargets, Scanned, Capacities;
    ghost var schedule := Schedule(targets);
    ScheduleIsDistinct(targets);
    NoneNamedYet(targets);
    left, remaining, lines := amount, room, placed;
    var j := 0;
    while j < |targets| && left > 0
      invariant 0 <= j <= |targets| && left >= 0 && remaining.Keys == room.Keys
      invariant Scanned(receipt, left, rest, |Firsts(targets[..j])|, schedule, remaining, lines, allSources, schedule)
    {
      var id := targets[j].installment;
      TargetIsNamed(targets, j);
      VisitNext(receipt, left, rest, targets, j, remaining, lines, allSources);
      var here := remaining[id];
      if here > 0 {
        ScanTakes(receipt, left, rest, |Firsts(targets[..j])|, schedule, remaining, lines, allSources, schedule);
        var take := if here < left then here else left;
        lines := lines + [CarryLine(receipt, id, take)];
        remaining := remaining[id := here - take];
        left := left - take;
      }
      j := j + 1;
    }
    assert targets[..|targets|] == targets;
    ScanHolds(receipt, left, rest, |Firsts(targets[..j])|, schedule, remaining, lines, allSources, schedule);
    ScanEnds(receipt, left, rest, |Firsts(targets[..j])|, schedule, remaining, lines, allSources, schedule);
  }

  /** A target met before has no room left to visit, and a new one is the next of the schedule. */
  lemma VisitNext(
      receipt: int, left: int, rest: seq<CarrySource>, targets: seq<CarryTarget>, j: nat, remaining: map<int, int>,
      lines: seq<CarryLine>, allSources: seq<CarrySource>)
    requires j < |targets| && left > 0 && targets[j].installment in remaining
    requires var schedule := Schedule(targets);
             Scanned(receipt, left, rest, |Firsts(targets[..j])|, schedule, remaining, lines, allSources, schedule)
    ensures var p, schedule := |Firsts(targets[..j])|, Schedule(targets);
            if remaining[targets[j].installment] > 0
            then p < |schedule| && schedule[p].installment == targets[j].installment
                && |Firsts(targets[..j + 1])| == p + 1
            else Scanned(receipt, left, rest, |Firsts(targets[..j + 1])|, schedule, remaining, lines, allSources,
                         schedule)
  {
    hide StillToPour, Residual, Schedule, Firsts, Capacities;
    NextNamed(targets, j);
  }

  lemma ScanHolds(
      receipt: int, left: int, rest: seq<CarrySource>, j: nat, targets: seq<CarryTarget>, remaining: map<int, int>,
      lines: seq<CarryLine>, allSources: seq<CarrySource>, allTargets: seq<CarryTarget>)
    requires Scanned(receipt, left, rest, j, targets, remaining, lines, allSources, allTargets)
    ensures left >= 0 && forall k :: 0 <= k < |targets| ==> targets[k].installment in remaining
  {
  }

  lemma NoneNamedYet(targets: seq<CarryTarget>)
    ensures Firsts(targets[..0]) == []
  {
  }

  lemma {:induction false} TargetIsNamed(targets: seq<CarryTarget>, j: nat)
    requires j < |targets|
    ensures targets[j].installment in Capacities(targets)
  {
    if j < |targets| - 1 { TargetIsNamed(targets[..|targets| - 1], j); }
  }
}

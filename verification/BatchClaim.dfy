/** One claim per cutover batch: transactions interleaved around the project row's lock. */
module BatchClaim {
  import opened Standing

  /** What an operator declares: the batch's identity and the business code of its project. */
  datatype Manifest = Manifest(batch: int, code: int)

  datatype Reason = SessionNotClean | UnknownProject | AlreadyApplied

  datatype Phase =
    | Fresh
    | Clean
    | Resolved(project: int)
    | Locked(project: int)
    | Claimed(project: int)
    | Committed
    | RolledBack
    | Refused(reason: Reason, held: Option<int>)

  /** One transaction: work pending before it began, where it stands, and what its batch has written. */
  datatype Session = Session(manifest: Manifest, pending: nat, phase: Phase, writes: seq<int>)

  datatype Claim = Claim(batch: int, session: nat)

  datatype Row = Row(session: nat, value: int)

  /** Committed claims and rows, the lock on each project's row, and the sessions in flight. */
  datatype Store = Store(
    projects: map<int, int>, claims: seq<Claim>, rows: seq<Row>, holder: map<int, nat>, sessions: seq<Session>)

  datatype Move = CheckSession | ResolveProject | TakeLock | ReadClaim | Write(value: int) | Commit | Fail | Close

  /** The lock a session holds; a refusal after the lock keeps it until the caller closes the session. */
  function LockOf(p: Phase): Option<int> {
    match p
    case Locked(project) => Some(project)
    case Claimed(project) => Some(project)
    case Refused(_, held) => held
    case _ => None
  }

  predicate HasClaim(claims: seq<Claim>, batch: int) {
    exists k :: 0 <= k < |claims| && claims[k].batch == batch
  }

  function Entered(s: Store, i: nat, p: Phase): Store
    requires i < |s.sessions|
  {
    s.(sessions := s.sessions[i := s.sessions[i].(phase := p)])
  }

  function RowsFrom(i: nat, writes: seq<int>): seq<Row> {
    if writes == [] then [] else RowsFrom(i, writes[..|writes| - 1]) + [Row(i, writes[|writes| - 1])]
  }

  /** One step of one session, reading what is committed at that moment; a blocked or finished session does nothing. */
  function Step(s: Store, i: nat, move: Move): Store {
    if i >= |s.sessions| then s
    else
      var me := s.sessions[i];
      match (me.phase, move)
      case (Fresh, CheckSession) => Entered(s, i, if me.pending > 0 then Refused(SessionNotClean, None) else Clean)
      case (Clean, ResolveProject) =>
        Entered(s, i, if me.manifest.code in s.projects then Resolved(s.projects[me.manifest.code])
                else Refused(UnknownProject, None))
      case (Resolved(project), TakeLock) =>
        if project in s.holder then s else Entered(s, i, Locked(project)).(holder := s.holder[project := i])
      case (Locked(project), ReadClaim) =>
        Entered(s, i, if HasClaim(s.claims, me.manifest.batch) then Refused(AlreadyApplied, Some(project))
                else Claimed(project))
      case (Claimed(_), Write(value)) =>
        s.(sessions := s.sessions[i := me.(writes := me.writes + [value])])
      case (Claimed(project), Commit) =>
        Entered(s, i, Committed).(claims := s.claims + [Claim(me.manifest.batch, i)],
                                  rows := s.rows + RowsFrom(i, me.writes),
                                  holder := s.holder - {project})
      case (Claimed(project), Fail) => Entered(s, i, RolledBack).(holder := s.holder - {project})
      case (Refused(reason, Some(project)), Close) =>
          Entered(s, i, Refused(reason, None)).(holder := s.holder - {project})
      case _ => s
  }

  datatype Turn = Turn(session: nat, move: Move)

  /** Any interleaving at all: whoever moves next, moves. */
  function Run(s: Store, turns: seq<Turn>): Store {
    if turns == [] then s else Step(Run(s, turns[..|turns| - 1]), turns[|turns| - 1].session, turns[|turns| - 1].move)
  }

  // ---------------------------------------------------------------- what every step keeps

  ghost predicate LocksAgree(s: Store) {
    && (forall p: int :: p in s.holder ==>
          s.holder[p] < |s.sessions| && LockOf(s.sessions[s.holder[p]].phase) == Some(p))
    && (forall i :: 0 <= i < |s.sessions| && LockOf(s.sessions[i].phase).Some? ==>
          var p := LockOf(s.sessions[i].phase).value; p in s.holder && s.holder[p] == i)
  }

  predicate Bound(p: Phase) { p.Resolved? || p.Locked? || p.Claimed? }

  /** Whether a session can get as far as a lock: nothing pending, and a project this system has. */
  predicate Eligible(s: Store, i: nat) {
    i < |s.sessions| && s.sessions[i].pending == 0 && s.sessions[i].manifest.code in s.projects
  }

  function ProjectOf(s: Store, i: nat): int
    requires Eligible(s, i)
  {
    s.projects[s.sessions[i].manifest.code]
  }

  /** A session past resolution was clean, and is on the project its manifest names. */
  ghost predicate OnItsProject(s: Store) {
    forall i :: 0 <= i < |s.sessions| ==>
      && (s.sessions[i].phase.Clean? ==> s.sessions[i].pending == 0)
      && (Bound(s.sessions[i].phase) ==> Eligible(s, i) && s.sessions[i].phase.project == ProjectOf(s, i))
  }

  ghost predicate ClaimsOnce(s: Store) {
    forall k, m :: 0 <= k < m < |s.claims| ==> s.claims[k].batch != s.claims[m].batch
  }

  /** While a batch is being applied nothing committed claims it. */
  ghost predicate ClaimedAlone(s: Store) {
    forall i :: 0 <= i < |s.sessions| && s.sessions[i].phase.Claimed? ==>
        !HasClaim(s.claims, s.sessions[i].manifest.batch)
  }

  function RowsBy(rows: seq<Row>, i: nat): seq<int> {
    if rows == [] then []
    else RowsBy(rows[..|rows| - 1], i) + if rows[|rows| - 1].session == i then [rows[|rows| - 1].value] else []
  }

  /** Claims and committed sessions are the same thing seen twice. */
  ghost predicate ClaimsAreCommits(s: Store) {
    && (forall k :: 0 <= k < |s.claims| ==>
          && s.claims[k].session < |s.sessions| && s.sessions[s.claims[k].session].phase == Committed
          && s.sessions[s.claims[k].session].manifest.batch == s.claims[k].batch)
    && (forall i :: 0 <= i < |s.sessions| && s.sessions[i].phase == Committed ==>
          exists k :: 0 <= k < |s.claims| && s.claims[k] == Claim(s.sessions[i].manifest.batch, i))
  }

  /** What is durable of a session is all it wrote, or nothing. */
  ghost predicate AllOrNothing(s: Store) {
    forall i :: 0 <= i < |s.sessions| ==>
      RowsBy(s.rows, i) == if s.sessions[i].phase == Committed then s.sessions[i].writes else []
  }

  ghost predicate RowsHaveSessions(s: Store) {
    forall k :: 0 <= k < |s.rows| ==> s.rows[k].session < |s.sessions|
  }

  /** Manifests that share a batch id name the same project, among those that name one at all. */
  ghost predicate SameProject(s: Store) {
    forall i: nat, j: nat ::
      (Eligible(s, i) && Eligible(s, j) && s.sessions[i].manifest.batch == s.sessions[j].manifest.batch) ==>
        ProjectOf(s, i) == ProjectOf(s, j)
  }

  ghost predicate SameManifests(s: Store, s': Store) {
    && s'.projects == s.projects && |s'.sessions| == |s.sessions|
    && forall i :: 0 <= i < |s.sessions| ==>
         s'.sessions[i].manifest == s.sessions[i].manifest && s'.sessions[i].pending == s.sessions[i].pending
  }

  /** What holds whatever the manifests say. */
  ghost predicate Orderly(s: Store) {
    LocksAgree(s) && OnItsProject(s) && ClaimsAreCommits(s) && AllOrNothing(s) && RowsHaveSessions(s)
  }

  lemma StepKeepsManifests(s: Store, i: nat, move: Move)
    ensures SameManifests(s, Step(s, i, move))
  {
    hide RowsFrom;
  }

  /** A step takes a free lock, gives up the session's own, or leaves every lock where it is. */
  lemma StepMovesOneLock(s: Store, i: nat, move: Move)
    requires i < |s.sessions|
    ensures var s', before := Step(s, i, move), LockOf(s.sessions[i].phase);
            && |s'.sessions| == |s.sessions|
                  && (forall j :: 0 <= j < |s.sessions| && j != i ==> s'.sessions[j] == s.sessions[j])
            && var after := LockOf(s'.sessions[i].phase);
               || (after == before && s'.holder == s.holder)
               || (before.None? && after.Some? && after.value !in s.holder && s'.holder == s.holder[after.value := i])
               || (before.Some? && after.None? && s'.holder == s.holder - {before.value})
  {
    hide RowsFrom, HasClaim;
  }

  lemma StepKeepsLocks(s: Store, i: nat, move: Move)
    requires LocksAgree(s)
    ensures LocksAgree(Step(s, i, move))
  {
    hide Step, LockOf;
    if i < |s.sessions| { StepMovesOneLock(s, i, move); } else { NoSuchSession(s, i, move); }
  }

  lemma StepKeepsProjects(s: Store, i: nat, move: Move)
    requires OnItsProject(s)
    ensures OnItsProject(Step(s, i, move))
  {
    hide RowsFrom, HasClaim;
  }

  lemma CommitKeepsCommits(s: Store, i: nat)
    requires ClaimsAreCommits(s) && i < |s.sessions| && s.sessions[i].phase.Claimed?
    ensures ClaimsAreCommits(Step(s, i, Commit))
  {
    hide RowsFrom, HasClaim;
    var s' := Step(s, i, Commit);
    assert s'.claims[|s.claims|] == Claim(s.sessions[i].manifest.batch, i);
    forall j | 0 <= j < |s'.sessions| && s'.sessions[j].phase == Committed
      ensures exists k :: 0 <= k < |s'.claims| && s'.claims[k] == Claim(s'.sessions[j].manifest.batch, j)
    {
      if j != i {
        var k :| 0 <= k < |s.claims| && s.claims[k] == Claim(s.sessions[j].manifest.batch, j);
        assert s'.claims[k] == s.claims[k];
      }
    }
  }

  /** Nothing but a commit commits, and nothing uncommits. */
  lemma OnlyCommitCommits(s: Store, i: nat, move: Move)
    requires i < |s.sessions| && !(s.sessions[i].phase.Claimed? && move == Commit)
    ensures var s' := Step(s, i, move);
            && s'.claims == s.claims && s'.rows == s.rows
            && |s'.sessions| == |s.sessions|
            && forall j :: 0 <= j < |s.sessions| ==>
                  (s'.sessions[j].phase == Committed <==> s.sessions[j].phase == Committed)
  {
    hide RowsFrom, HasClaim;
  }

  lemma StepKeepsCommits(s: Store, i: nat, move: Move)
    requires ClaimsAreCommits(s)
    ensures ClaimsAreCommits(Step(s, i, move))
  {
    hide Step;
    StepKeepsManifests(s, i, move);
    if i >= |s.sessions| {
      NoSuchSession(s, i, move);
    } else if s.sessions[i].phase.Claimed? && move == Commit {
      CommitKeepsCommits(s, i);
    } else {
      OnlyCommitCommits(s, i, move);
    }
  }

  lemma NoSuchSession(s: Store, i: nat, move: Move)
    requires i >= |s.sessions|
    ensures Step(s, i, move) == s
  {
  }

  lemma {:induction false} RowsByAppends(a: seq<Row>, b: seq<Row>, i: nat)
    ensures RowsBy(a + b, i) == RowsBy(a, i) + RowsBy(b, i)
  {
    if b == [] {
      assert a + b == a;
    } else {
      assert (a + b)[..|a + b| - 1] == a + b[..|b| - 1];
      RowsByAppends(a, b[..|b| - 1], i);
    }
  }

  lemma OneRowBy(rows: seq<Row>, row: Row, j: nat)
    ensures RowsBy(rows + [row], j) == RowsBy(rows, j) + if row.session == j then [row.value] else []
  {
    assert (rows + [row])[..|rows|] == rows;
  }

  lemma {:induction false} RowsFromAreBy(i: nat, writes: seq<int>, j: nat)
    ensures RowsBy(RowsFrom(i, writes), j) == if i == j then writes else []
  {
    hide RowsBy;
    if writes == [] {
      NoRowsBy(j);
    } else {
      var n := |writes| - 1;
      RowsFromAreBy(i, writes[..n], j);
      OneRowBy(RowsFrom(i, writes[..n]), Row(i, writes[n]), j);
      assert writes == writes[..n] + [writes[n]];
    }
  }

  lemma NoRowsBy(j: nat)
    ensures RowsBy([], j) == []
  {
  }

  lemma {:induction false} RowsFromOne(i: nat, writes: seq<int>)
    ensures forall k :: 0 <= k < |RowsFrom(i, writes)| ==> RowsFrom(i, writes)[k].session == i
  {
    if writes != [] { RowsFromOne(i, writes[..|writes| - 1]); }
  }

  lemma StepKeepsRows(s: Store, i: nat, move: Move)
    requires AllOrNothing(s) && RowsHaveSessions(s)
    ensures AllOrNothing(Step(s, i, move)) && RowsHaveSessions(Step(s, i, move))
  {
    hide RowsFrom, HasClaim, RowsBy;
    if i < |s.sessions| && s.sessions[i].phase.Claimed? && move == Commit {
      var writes := s.sessions[i].writes;
      forall j | 0 <= j < |s.sessions|
        ensures RowsBy(s.rows + RowsFrom(i, writes), j) == RowsBy(s.rows, j) + if i == j then writes else []
      {
        RowsByAppends(s.rows, RowsFrom(i, writes), j);
        RowsFromAreBy(i, writes, j);
      }
      RowsFromOne(i, writes);
    }
  }

  lemma StepKeepsOrder(s: Store, i: nat, move: Move)
    requires Orderly(s)
    ensures Orderly(Step(s, i, move))
  {
    hide Step, LocksAgree, OnItsProject, ClaimsAreCommits, AllOrNothing, RowsHaveSessions;
    StepKeepsLocks(s, i, move);
    StepKeepsProjects(s, i, move);
    StepKeepsCommits(s, i, move);
    StepKeepsRows(s, i, move);
  }

  /** Two batches being applied at once, under one id, would both hold one lock. */
  lemma NoTwinApplies(s: Store, i: nat, j: nat)
    requires LocksAgree(s) && OnItsProject(s) && SameProject(s)
    requires i < |s.sessions| && j < |s.sessions| && s.sessions[i].phase.Claimed? && s.sessions[j].phase.Claimed?
    requires s.sessions[i].manifest.batch == s.sessions[j].manifest.batch
    ensures i == j
  {
    assert LockOf(s.sessions[i].phase) == LockOf(s.sessions[j].phase);
  }

  lemma StepKeepsOneClaim(s: Store, i: nat, move: Move)
    requires Orderly(s) && SameProject(s) && ClaimsOnce(s) && ClaimedAlone(s)
    ensures ClaimsOnce(Step(s, i, move)) && ClaimedAlone(Step(s, i, move))
  {
    hide RowsFrom, AllOrNothing, RowsHaveSessions, LocksAgree, OnItsProject, SameProject, ClaimsAreCommits;
    if i < |s.sessions| && s.sessions[i].phase.Claimed? && move == Commit {
      var s' := Step(s, i, move);
      var batch := s.sessions[i].manifest.batch;
      forall j | 0 <= j < |s'.sessions| && s'.sessions[j].phase.Claimed?
        ensures !HasClaim(s'.claims, s'.sessions[j].manifest.batch)
      {
        if s.sessions[j].manifest.batch == batch { NoTwinApplies(s, i, j); }
      }
    }
  }

  // ---------------------------------------------------------------- runs

  ghost predicate Starting(s: Store) {
    && s.claims == [] && s.rows == [] && s.holder == map[]
    && forall i :: 0 <= i < |s.sessions| ==> s.sessions[i].phase == Fresh && s.sessions[i].writes == []
  }

  lemma StartingIsOrderly(s: Store)
    requires Starting(s)
    ensures Orderly(s) && ClaimsOnce(s) && ClaimedAlone(s)
  {
  }

  /** However sessions interleave, a claim is committed with all of its session's rows, or neither is. */
  lemma {:induction false} EveryRunIsOrderly(s: Store, turns: seq<Turn>)
    requires Starting(s)
    ensures Orderly(Run(s, turns)) && SameManifests(s, Run(s, turns))
  {
    hide Step, Orderly, Starting;
    StartingIsOrderly(s);
    if turns != [] {
      var n := |turns| - 1;
      EveryRunIsOrderly(s, turns[..n]);
      StepKeepsOrder(Run(s, turns[..n]), turns[n].session, turns[n].move);
      StepKeepsManifests(Run(s, turns[..n]), turns[n].session, turns[n].move);
    }
  }

  lemma SameProjectCarries(s: Store, s': Store)
    requires SameManifests(s, s') && SameProject(s)
    ensures SameProject(s')
  {
  }

  /** In every interleaving each batch id has at most one committed claim. */
  lemma {:induction false} EachBatchIsClaimedOnce(s: Store, turns: seq<Turn>)
    requires Starting(s) && SameProject(s)
    ensures ClaimsOnce(Run(s, turns)) && ClaimedAlone(Run(s, turns))
  {
    hide Step, Orderly, Starting, ClaimsOnce, ClaimedAlone, SameManifests, SameProject;
    StartingIsOrderly(s);
    if turns != [] {
      var n := |turns| - 1;
      var before := Run(s, turns[..n]);
      EachBatchIsClaimedOnce(s, turns[..n]);
      EveryRunIsOrderly(s, turns[..n]);
      SameProjectCarries(s, before);
      StepKeepsOneClaim(before, turns[n].session, turns[n].move);
    }
  }

  // ---------------------------------------------------------------- runs one after another

  lemma {:induction false} RunsCompose(s: Store, a: seq<Turn>, b: seq<Turn>)
    ensures Run(s, a + b) == Run(Run(s, a), b)
  {
    hide Step;
    if b == [] {
      assert a + b == a;
    } else {
      assert (a + b)[..|a + b| - 1] == a + b[..|b| - 1];
      RunsCompose(s, a, b[..|b| - 1]);
    }
  }

  /** The steps that take a session to its claim. */
  function Opening(i: nat): seq<Turn> {
    [Turn(i, CheckSession), Turn(i, ResolveProject), Turn(i, TakeLock), Turn(i, ReadClaim)]
  }

  predicate CanOpen(s: Store, i: nat) { Eligible(s, i) && s.sessions[i].phase == Fresh && ProjectOf(s, i) !in s.holder }

  lemma RunOfFour(s: Store, a: Turn, b: Turn, c: Turn, d: Turn)
    ensures Run(s, [a, b, c, d])
            == Step(Step(Step(Step(s, a.session, a.move), b.session, b.move), c.session, c.move), d.session, d.move)
  {
    hide Step;
    assert [a, b, c, d][..3] == [a, b, c] && [a, b, c][..2] == [a, b] && [a, b][..1] == [a] && [a][..0] == [];
    assert Run(s, [a]) == Step(s, a.session, a.move);
    assert Run(s, [a, b]) == Step(Run(s, [a]), b.session, b.move);
    assert Run(s, [a, b, c]) == Step(Run(s, [a, b]), c.session, c.move);
  }

  /**
   * With its lock free, a session reaches the answer: claimed if nothing committed claims it, and
   * refused otherwise.
   */
  lemma OpeningDecides(s: Store, i: nat)
    requires CanOpen(s, i)
    ensures var p, phase := ProjectOf(s, i), Run(s, Opening(i)).sessions;
            Run(s, Opening(i))
            == Entered(s, i, if HasClaim(s.claims, s.sessions[i].manifest.batch) then Refused(AlreadyApplied, Some(p))
                       else Claimed(p))
               .(holder := s.holder[p := i])
  {
    hide HasClaim;
    RunOfFour(s, Turn(i, CheckSession), Turn(i, ResolveProject), Turn(i, TakeLock), Turn(i, ReadClaim));
    var s1 := Step(s, i, CheckSession);
    var s2 := Step(s1, i, ResolveProject);
    var s3 := Step(s2, i, TakeLock);
    assert s3.sessions[i] == s.sessions[i].(phase := Locked(ProjectOf(s, i)));
  }

  /** After a failure the lock is free, and no committed claim names the batch. */
  lemma FailureLeavesNothing(s: Store, i: nat)
    requires Orderly(s) && ClaimedAlone(s) && i < |s.sessions| && s.sessions[i].phase.Claimed?
    ensures var s' := Step(s, i, Fail);
            && s'.claims == s.claims && s'.rows == s.rows
            && !HasClaim(s'.claims, s.sessions[i].manifest.batch)
            && ProjectOf(s, i) !in s'.holder
  {
    hide AllOrNothing, ClaimsAreCommits, HasClaim;
  }

  /** So the retry, by any session with the same manifest, is allowed and commits; and after a commit it is refused. */
  lemma RetryIsAllowedUnlessApplied(s: Store, j: nat)
    requires CanOpen(s, j)
    ensures var batch, s' := s.sessions[j].manifest.batch, Run(s, Opening(j) + [Turn(j, Commit)]);
            && |s'.sessions| == |s.sessions|
            && (!HasClaim(s.claims, batch) ==> s'.sessions[j].phase == Committed && HasClaim(s'.claims, batch))
            && (HasClaim(s.claims, batch) ==>
                  s'.sessions[j].phase == Refused(AlreadyApplied, Some(ProjectOf(s, j))) && s'.claims == s.claims
                      && s'.rows == s.rows)
  {
    hide HasClaim, RowsFrom;
    OpeningDecides(s, j);
    OneMore(s, Opening(j), Turn(j, Commit));
    var batch := s.sessions[j].manifest.batch;
    if !HasClaim(s.claims, batch) {
      LastIsClaimed(s.claims, Claim(batch, j));
    }
  }

  lemma OneMore(s: Store, a: seq<Turn>, t: Turn)
    ensures Run(s, a + [t]) == Step(Run(s, a), t.session, t.move)
  {
    hide Step;
    assert (a + [t])[..|a|] == a;
  }

  lemma LastIsClaimed(claims: seq<Claim>, c: Claim)
    ensures HasClaim(claims + [c], c.batch)
  {
    assert (claims + [c])[|claims|] == c;
  }

  // ---------------------------------------------------------------- exactly when a batch is claimed once

  /** The two commits that follow when one batch id is open on two projects at once. */
  function Clash(i: nat, j: nat): seq<Turn> {
    Opening(i) + Opening(j) + [Turn(i, Commit)] + [Turn(j, Commit)]
  }

  lemma TwoProjectsTwoClaims(s: Store, i: nat, j: nat)
    requires Starting(s) && Eligible(s, i) && Eligible(s, j) && ProjectOf(s, i) != ProjectOf(s, j)
    requires s.sessions[i].manifest.batch == s.sessions[j].manifest.batch
    ensures var batch := s.sessions[i].manifest.batch;
            Run(s, Clash(i, j)).claims == [Claim(batch, i), Claim(batch, j)]
  {
    hide RowsFrom, Run, Opening;
    var one := Run(s, Opening(i));
    OpeningDecides(s, i);
    RunsCompose(s, Opening(i), Opening(j));
    OpeningDecides(one, j);
    OneMore(s, Opening(i) + Opening(j), Turn(i, Commit));
    OneMore(s, Opening(i) + Opening(j) + [Turn(i, Commit)], Turn(j, Commit));
  }

  /**
   * The lock is the project's and the id is the batch's, so the id is claimed once in every
   * interleaving exactly when the manifests that share it name the same project.
   */
  lemma ClaimedOnceExactlyWhen(s: Store)
    requires Starting(s)
    ensures SameProject(s) <==> forall turns: seq<Turn> :: ClaimsOnce(Run(s, turns))
  {
    hide Run, Starting;
    if SameProject(s) {
      forall turns: seq<Turn> ensures ClaimsOnce(Run(s, turns)) {
        EachBatchIsClaimedOnce(s, turns);
      }
    } else {
      var i: nat, j: nat :| Eligible(s, i) && Eligible(s, j)
          && s.sessions[i].manifest.batch == s.sessions[j].manifest.batch
                            && ProjectOf(s, i) != ProjectOf(s, j);
      TwoProjectsTwoClaims(s, i, j);
      var claims := Run(s, Clash(i, j)).claims;
      assert claims[0].batch == claims[1].batch;
      assert !ClaimsOnce(Run(s, Clash(i, j)));
    }
  }

  // ---------------------------------------------------------------- the store in place

  /** A body's writes, one turn each. */
  function Writing(i: nat, body: seq<int>): seq<Turn> {
    if body == [] then [] else Writing(i, body[..|body| - 1]) + [Turn(i, Write(body[|body| - 1]))]
  }

  lemma {:induction false} WritingRuns(s: Store, i: nat, body: seq<int>)
    requires i < |s.sessions| && s.sessions[i].phase.Claimed? && s.sessions[i].writes == []
    ensures Run(s, Writing(i, body)) == s.(sessions := s.sessions[i := s.sessions[i].(writes := body)])
  {
    if body != [] {
      WritingRuns(s, i, body[..|body| - 1]);
      OneMore(s, Writing(i, body[..|body| - 1]), Turn(i, Write(body[|body| - 1])));
      assert body == body[..|body| - 1] + [body[|body| - 1]];
    }
  }

  lemma FinishRuns(s: Store, i: nat, body: seq<int>, fails: bool)
    requires i < |s.sessions| && s.sessions[i].phase.Claimed? && s.sessions[i].writes == []
    ensures var me, left := s.sessions[i].(writes := body), s.holder - {s.sessions[i].phase.project};
            Run(s, Writing(i, body) + [Turn(i, if fails then Fail else Commit)])
            == if fails then s.(sessions := s.sessions[i := me.(phase := RolledBack)], holder := left)
               else s.(sessions := s.sessions[i := me.(phase := Committed)],
                       claims := s.claims + [Claim(me.manifest.batch, i)],
                       rows := s.rows + RowsFrom(i, body), holder := left)
  {
    hide Run, RowsFrom;
    WritingRuns(s, i, body);
    OneMore(s, Writing(i, body), Turn(i, if fails then Fail else Commit));
  }

  /** Committed tables and sessions in flight, each step made in place by the session that takes it. */
  class Cutover {
    var projects: map<int, int>
    var claims: seq<Claim>
    var rows: seq<Row>
    var holder: map<int, nat>
    var sessions: seq<Session>

    function Now(): Store
      reads this
    {
      Store(projects, claims, rows, holder, sessions)
    }

    constructor (projects: map<int, int>, manifests: seq<Manifest>, pending: seq<nat>)
      requires |manifests| == |pending|
      ensures Starting(Now()) && Now().projects == projects && |sessions| == |manifests|
      ensures forall i :: 0 <= i < |manifests| ==>
                sessions[i].manifest == manifests[i] && sessions[i].pending == pending[i]
    {
      this.projects := projects;
      claims, rows, holder := [], [], map[];
      sessions := seq(|manifests|, i requires 0 <= i < |manifests| => Session(manifests[i], pending[i], Fresh, []));
    }

    /** Refuses a session that holds somebody else's work, and then an unknown project. */
    method Enter(i: nat) returns (refused: Option<Reason>)
      requires i < |sessions| && sessions[i].phase == Fresh
      modifies this`sessions
      ensures Now() == Step(Step(old(Now()), i, CheckSession), i, ResolveProject)
      ensures refused.Some? <==> !Eligible(old(Now()), i)
    {
      var me := sessions[i];
      if me.pending > 0 {
        sessions := sessions[i := me.(phase := Refused(SessionNotClean, None))];
        return Some(SessionNotClean);
      }
      if me.manifest.code !in projects {
        sessions := sessions[i := me.(phase := Refused(UnknownProject, None))];
        return Some(UnknownProject);
      }
      sessions := sessions[i := me.(phase := Resolved(projects[me.manifest.code]))];
      refused := None;
    }

    /** Waits its turn for the project's row; false while another session has it. */
    method LockProject(i: nat) returns (taken: bool)
      requires i < |sessions| && sessions[i].phase.Resolved?
      modifies this`sessions, this`holder
      ensures Now() == Step(old(Now()), i, TakeLock)
      ensures taken <==> old(sessions[i].phase.project !in holder)
    {
      var project := sessions[i].phase.project;
      if project in holder {
        return false;
      }
      holder := holder[project := i];
      sessions := sessions[i := sessions[i].(phase := Locked(project))];
      taken := true;
    }

    /** The duplicate check, made under the lock. */
    method ClaimBatch(i: nat) returns (refused: Option<Reason>)
      requires i < |sessions| && sessions[i].phase.Locked?
      modifies this`sessions
      ensures Now() == Step(old(Now()), i, ReadClaim)
      ensures refused.Some? <==> HasClaim(old(claims), old(sessions[i].manifest.batch))
    {
      var me := sessions[i];
      if exists k :: 0 <= k < |claims| && claims[k].batch == me.manifest.batch {
        sessions := sessions[i := me.(phase := Refused(AlreadyApplied, Some(me.phase.project)))];
        return Some(AlreadyApplied);
      }
      sessions := sessions[i := me.(phase := Claimed(me.phase.project))];
      refused := None;
    }

    /** The body: its rows in order, then a commit of claim and rows together, or a rollback of both. */
    method Finish(i: nat, body: seq<int>, fails: bool)
      requires i < |sessions| && sessions[i].phase.Claimed? && sessions[i].writes == []
      modifies this
      ensures Now() == Run(old(Now()), Writing(i, body) + [Turn(i, if fails then Fail else Commit)])
      ensures fails ==>
                claims == old(claims) && rows == old(rows) && holder == old(holder) - {old(sessions[i].phase.project)}
    {
      hide Run, Step, Writing, RowsFrom;
      var project := sessions[i].phase.project;
      FinishRuns(Now(), i, body, fails);
      for k := 0 to |body|
        invariant projects == old(projects) && claims == old(claims) && rows == old(rows) && holder == old(holder)
        invariant sessions == old(sessions)[i := old(sessions[i]).(writes := body[..k])]
      {
        assert body[..k + 1] == body[..k] + [body[k]];
        sessions := sessions[i := sessions[i].(writes := sessions[i].writes + [body[k]])];
      }
      assert body[..|body|] == body;
      holder := holder - {project};
      if fails {
        sessions := sessions[i := sessions[i].(phase := RolledBack)];
        return;
      }
      claims := claims + [Claim(sessions[i].manifest.batch, i)];
      rows := rows + RowsFrom(i, sessions[i].writes);
      sessions := sessions[i := sessions[i].(phase := Committed)];
    }
  }
}

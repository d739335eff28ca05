/** Every step of every actor keeps the invariant, and moves each row only forward. */
module QueueSteps {
  import opened Common
  import opened Domain
  import opened Positions
  import opened RunQueue
  import opened QueueInvariants

  // ----- the invariant over all tables

  ghost predicate RunsOk(db: Db)
    requires Linked(db)
  {
    && (forall r <- db.runs :: r < db.nextRun)
    && (forall r {:trigger AttsOf(db, r)} :: r in db.runs ==>
          RunOk(db.runs[r], AttsOf(db, r), SourceOf(db, r), db.nextAttempt))
  }

  ghost predicate AttemptsOk(db: Db) {
    && (forall a <- db.attempts :: a < db.nextAttempt && db.attempts[a].fence < db.nextFence)
    && (forall a, b {:trigger db.attempts[a].fence, db.attempts[b].fence} ::
          a in db.attempts && b in db.attempts && a != b ==> db.attempts[a].fence != db.attempts[b].fence)
  }

  ghost predicate SnapsOk(db: Db) {
    && (forall s <- db.snaps :: s < db.nextSnap)
    && (forall s, t {:trigger db.snaps[s].idem, db.snaps[t].idem} ::
          s in db.snaps && t in db.snaps && s != t ==> db.snaps[s].idem != db.snaps[t].idem)
  }

  /** One run per agent and snapshot, and one engine decision per snapshot. */
  ghost predicate FanOk(db: Db) {
    && (forall q, r :: q in db.runs && r in db.runs && q != r && db.runs[q].snap == db.runs[r].snap ==>
          db.runs[q].agent != db.runs[r].agent)
    && (forall q, r :: q in db.runs && r in db.runs && db.runs[q].snap == db.runs[r].snap ==>
          db.runs[q].legacy == db.runs[r].legacy)
  }

  ghost predicate AgentsOk(db: Db) {
    forall a <- db.agents :: db.agents[a].budgets == WithDefaults(db.agents[a].budgets)
  }

  /** Every position was opened by a succeeded run, once, and an agent holds at most one open. */
  ghost predicate BookOk(db: Db) {
    && 0 < db.nextPosition
    && (forall p <- db.positions ::
          && 0 < p < db.nextPosition && RowInv(db.positions[p])
          && db.positions[p].run in db.runs && db.runs[db.positions[p].run].status.Succeeded?
          && db.runs[db.positions[p].run].agent == db.positions[p].agent)
    && (forall p, q :: p in db.positions && q in db.positions && p != q ==>
          db.positions[p].run != db.positions[q].run)
    && (forall p, q ::
          p in db.positions && q in db.positions && p != q && db.positions[p].agent == db.positions[q].agent ==>
          db.positions[p].status != Live || db.positions[q].status != Live)
  }

  ghost predicate Inv(db: Db) {
    Linked(db) && RunsOk(db) && AttemptsOk(db) && SnapsOk(db) && FanOk(db) && AgentsOk(db) && BookOk(db)
  }

  // ----- what later states keep

  ghost predicate Evolves(db: Db, d: Db) {
    && (forall r <- db.runs :: r in d.runs && RunEvolves(db.runs[r], d.runs[r]))
    && (forall r <- d.runs :: r !in db.runs ==> d.runs[r].snap !in db.snaps)
    && (forall a <- db.attempts :: a in d.attempts && AttEvolves(db.attempts[a], d.attempts[a]))
    && (forall s <- db.snaps :: s in d.snaps && d.snaps[s] == db.snaps[s])
    && (forall p <- db.positions :: p in d.positions && RowEvolves(db.positions[p], d.positions[p]))
    && db.events <= d.events
  }

  lemma EvolvesReflexive(db: Db)
    ensures Evolves(db, db)
  {
  }

  lemma EvolvesTransitive(db: Db, d: Db, e: Db)
    requires Evolves(db, d) && Evolves(d, e)
    ensures Evolves(db, e)
  {
    forall r <- db.runs ensures r in e.runs && RunEvolves(db.runs[r], e.runs[r]) {
      RunEvolvesTransitive(db.runs[r], d.runs[r], e.runs[r]);
    }
    forall p <- db.positions ensures p in e.positions && RowEvolves(db.positions[p], e.positions[p]) {
      RowEvolvesTransitive(db.positions[p], d.positions[p], e.positions[p]);
    }
    forall r <- e.runs | r !in db.runs ensures e.runs[r].snap !in db.snaps {
      if r in d.runs {
        assert RunEvolves(d.runs[r], e.runs[r]);
      }
    }
  }

  // ----- steps that touch the queue tables only

  predicate BookSame(db: Db, d: Db) {
    d.positions == db.positions && d.events == db.events && d.nextPosition == db.nextPosition
  }

  predicate NamesSame(db: Db, d: Db) {
    d.agents == db.agents && d.snaps == db.snaps && d.nextSnap == db.nextSnap && d.nextRun == db.nextRun
  }

  /** Rows change in place: no run comes or goes, and each keeps its owner and its snapshot. */
  ghost predicate KeysKept(db: Db, d: Db) {
    && d.runs.Keys == db.runs.Keys
    && (forall r <- db.runs ::
          d.runs[r].snap == db.runs[r].snap && d.runs[r].agent == db.runs[r].agent)
    && (forall r <- db.runs :: db.runs[r].status.Succeeded? ==> d.runs[r].status.Succeeded?)
  }

  lemma KeptLinked(db: Db, d: Db)
    requires Linked(db) && NamesSame(db, d) && KeysKept(db, d)
    requires forall a <- d.attempts :: d.attempts[a].run in db.runs
    requires forall r <- d.runs :: 0 <= Used(d.runs[r])
    ensures Linked(d)
  {
  }

  lemma KeptFan(db: Db, d: Db)
    requires FanOk(db) && d.runs.Keys == db.runs.Keys
    requires forall r <- db.runs ::
      d.runs[r].legacy == db.runs[r].legacy && d.runs[r].snap == db.runs[r].snap && d.runs[r].agent == db.runs[r].agent
    ensures FanOk(d)
  {
  }

  lemma KeptBook(db: Db, d: Db)
    requires BookOk(db) && BookSame(db, d) && KeysKept(db, d)
    ensures BookOk(d)
  {
  }

  lemma KeptNames(db: Db, d: Db)
    requires AgentsOk(db) && SnapsOk(db) && NamesSame(db, d)
    ensures AgentsOk(d) && SnapsOk(d)
  {
  }

  lemma KeptEvolves(db: Db, d: Db)
    requires BookSame(db, d) && NamesSame(db, d) && d.runs.Keys == db.runs.Keys
    requires forall r <- db.runs :: RunEvolves(db.runs[r], d.runs[r])
    requires forall a <- db.attempts :: a in d.attempts && AttEvolves(db.attempts[a], d.attempts[a])
    ensures Evolves(db, d)
  {
    hide RunEvolves, AttEvolves, RowEvolves;
    forall p <- db.positions ensures RowEvolves(db.positions[p], d.positions[p]) {
      RowEvolvesSelf(db.positions[p]);
    }
  }

  lemma InPlace(db: Db, d: Db)
    requires Inv(db) && BookSame(db, d) && NamesSame(db, d) && AttemptsOk(d)
    requires d.runs.Keys == db.runs.Keys && FanOk(d)
    requires forall r <- db.runs :: RunEvolves(db.runs[r], d.runs[r])
    requires forall r <- db.runs :: RunOk(d.runs[r], AttsOf(d, r), SourceOf(db, r), d.nextAttempt)
    requires forall a <- d.attempts :: d.attempts[a].run in db.runs
    requires forall a <- db.attempts :: a in d.attempts && AttEvolves(db.attempts[a], d.attempts[a])
    ensures Inv(d) && Evolves(db, d)
  {
    hide RunOk, RunEvolves, AttEvolves, BookOk, FanOk, AttemptsOk, AgentsOk, SnapsOk;
    forall r <- d.runs ensures 0 <= Used(d.runs[r]) {
      UsedNonNegative(d.runs[r], AttsOf(d, r), SourceOf(db, r), d.nextAttempt);
    }
    forall r <- db.runs
      ensures d.runs[r].snap == db.runs[r].snap && d.runs[r].agent == db.runs[r].agent
      ensures db.runs[r].status.Succeeded? ==> d.runs[r].status.Succeeded?
    {
      EvolvesKeys(db.runs[r], d.runs[r]);
    }
    KeptLinked(db, d);
    KeptBook(db, d);
    KeptNames(db, d);
    KeptEvolves(db, d);
    hide Evolves;
  }

  lemma UsedNonNegative(x: Run, m: map<nat, Attempt>, source: Source, n: nat)
    requires RunOk(x, m, source, n)
    ensures 0 <= Used(x)
  {
  }

  lemma EvolvesKeys(x: Run, y: Run)
    requires RunEvolves(x, y)
    ensures y.snap == x.snap && y.agent == x.agent
    ensures x.status.Succeeded? ==> y.status.Succeeded?
  {
  }

  function Rewrite(db: Db, a: nat, t: Attempt, x: Run): Db {
    db.(attempts := db.attempts[a := t], runs := db.runs[t.run := x])
  }

  lemma RewrittenAtts(db: Db, a: nat, t: Attempt, x: Run, r: nat)
    requires a in db.attempts && t.run == db.attempts[a].run
    ensures AttsOf(Rewrite(db, a, t, x), r) == if r == t.run then AttsOf(db, r)[a := t] else AttsOf(db, r)
  {
  }

  lemma RewrittenRows(db: Db, a: nat, t: Attempt, x: Run, r: nat)
    requires Linked(db) && a in db.attempts && t.run == db.attempts[a].run && r in db.runs
    requires RunOk(db.runs[r], AttsOf(db, r), SourceOf(db, r), db.nextAttempt)
    requires RunOk(x, AttsOf(db, t.run)[a := t], SourceOf(db, t.run), db.nextAttempt)
    ensures var d := Rewrite(db, a, t, x); RunOk(d.runs[r], AttsOf(d, r), SourceOf(db, r), d.nextAttempt)
  {
    hide RunOk, AttsOf;
    RewrittenAtts(db, a, t, x, r);
  }

  lemma RewrittenEvolves(db: Db, a: nat, t: Attempt, x: Run)
    requires Linked(db) && a in db.attempts && AttEvolves(db.attempts[a], t)
    requires t.run in db.runs && RunEvolves(db.runs[t.run], x) && x.legacy == db.runs[t.run].legacy
    ensures var d := Rewrite(db, a, t, x);
      && d.runs.Keys == db.runs.Keys
      && (forall r <- db.runs :: d.runs[r].legacy == db.runs[r].legacy)
      && (forall r <- db.runs :: RunEvolves(db.runs[r], d.runs[r]))
      && (forall b <- d.attempts :: d.attempts[b].run in db.runs)
      && (forall b <- db.attempts :: b in d.attempts && AttEvolves(db.attempts[b], d.attempts[b]))
  {
  }

  /** One attempt of one run is rewritten in place, with its row. */
  lemma FinishStep(db: Db, a: nat, t: Attempt, x: Run)
    requires Inv(db) && Linked(db) && a in db.attempts
    requires AttEvolves(db.attempts[a], t)
    requires RunEvolves(db.runs[t.run], x) && x.legacy == db.runs[t.run].legacy
    requires RunOk(x, AttsOf(db, t.run)[a := t], SourceOf(db, t.run), db.nextAttempt)
    ensures Inv(Rewrite(db, a, t, x)) && Evolves(db, Rewrite(db, a, t, x))
  {
    var d := Rewrite(db, a, t, x);
    hide RunOk, RunEvolves, BookOk, FanOk, AttemptsOk, SnapsOk, AgentsOk, RunsOk;
    RewrittenAttempts(db, d, a, t);
    RewrittenEvolves(db, a, t, x);
    RewrittenRunsOk(db, a, t, x);
    RewrittenFan(db, a, t, x);
    hide Inv, Evolves, Linked, Rewrite;
    InPlace(db, d);
  }

  lemma RewrittenRunsOk(db: Db, a: nat, t: Attempt, x: Run)
    requires Linked(db) && RunsOk(db) && a in db.attempts && t.run in db.runs && AttEvolves(db.attempts[a], t)
    requires RunOk(x, AttsOf(db, t.run)[a := t], SourceOf(db, t.run), db.nextAttempt)
    ensures var d := Rewrite(db, a, t, x);
      forall r <- db.runs :: r in d.runs && RunOk(d.runs[r], AttsOf(d, r), SourceOf(db, r), d.nextAttempt)
  {
    hide RunOk;
    forall r <- db.runs
      ensures r in Rewrite(db, a, t, x).runs
      ensures RunOk(Rewrite(db, a, t, x).runs[r], AttsOf(Rewrite(db, a, t, x), r), SourceOf(db, r), db.nextAttempt)
    {
      RewrittenRows(db, a, t, x, r);
    }
  }

  lemma RewrittenFan(db: Db, a: nat, t: Attempt, x: Run)
    requires FanOk(db) && t.run in db.runs && RunEvolves(db.runs[t.run], x) && x.legacy == db.runs[t.run].legacy
    ensures FanOk(Rewrite(db, a, t, x))
  {
    EvolvesKeys(db.runs[t.run], x);
    hide RunEvolves, FanOk;
    KeptFan(db, Rewrite(db, a, t, x));
  }

  lemma RewrittenAttempts(db: Db, d: Db, a: nat, t: Attempt)
    requires AttemptsOk(db) && a in db.attempts && t.fence == db.attempts[a].fence
    requires d.attempts == db.attempts[a := t] && d.nextAttempt == db.nextAttempt && d.nextFence == db.nextFence
    ensures AttemptsOk(d)
  {
  }

  lemma SameEvolves(x: Run)
    ensures RunEvolves(x, x)
  {
  }

  // ----- rows rewritten without their attempts

  /** Attempts untouched; each run's row is as it was or an idle row of it. */
  ghost predicate IdleRows(db: Db, d: Db)
    requires Linked(db)
  {
    && BookSame(db, d) && NamesSame(db, d)
    && d.attempts == db.attempts && d.nextAttempt == db.nextAttempt && d.nextFence == db.nextFence
    && d.runs.Keys == db.runs.Keys
    && (forall r <- db.runs :: d.runs[r] == db.runs[r] || IdleRow(db.runs[r], d.runs[r], SourceOf(db, r)))
  }

  lemma SameAttempts(db: Db, d: Db)
    requires AttemptsOk(db) && d.attempts == db.attempts
    requires d.nextAttempt == db.nextAttempt && d.nextFence == db.nextFence
    ensures AttemptsOk(d)
  {
  }

  lemma IdleRowOk(db: Db, d: Db, r: nat)
    requires Linked(db) && IdleRows(db, d) && r in db.runs
    requires RunOk(db.runs[r], AttsOf(db, r), SourceOf(db, r), db.nextAttempt)
    ensures RunOk(d.runs[r], AttsOf(d, r), SourceOf(db, r), d.nextAttempt)
    ensures RunEvolves(db.runs[r], d.runs[r])
  {
    hide RunOk, RunEvolves, IdleRow;
    assert AttsOf(d, r) == AttsOf(db, r);
    if d.runs[r] == db.runs[r] {
      SameEvolves(db.runs[r]);
    } else {
      IdleMove(db.runs[r], AttsOf(db, r), d.runs[r], SourceOf(db, r), db.nextAttempt);
    }
  }

  lemma IdleStep(db: Db, d: Db)
    requires Inv(db) && IdleRows(db, d) && FanOk(d)
    ensures Inv(d) && Evolves(db, d)
  {
    hide RunOk, RunEvolves, BookOk, FanOk, IdleRow, AttemptsOk;
    forall r <- db.runs
      ensures RunOk(d.runs[r], AttsOf(d, r), SourceOf(db, r), d.nextAttempt)
      ensures RunEvolves(db.runs[r], d.runs[r])
    {
      IdleRowOk(db, d, r);
    }
    SameAttempts(db, d);
    hide Inv, Evolves;
    InPlace(db, d);
  }

  lemma LegacyKept(db: Db, d: Db)
    requires Linked(db) && FanOk(db) && IdleRows(db, d)
    requires forall r <- db.runs :: d.runs[r].legacy == db.runs[r].legacy
    ensures FanOk(d)
  {
    forall r <- db.runs ensures d.runs[r].snap == db.runs[r].snap && d.runs[r].agent == db.runs[r].agent {
      assert d.runs[r] == db.runs[r] || IdleRow(db.runs[r], d.runs[r], SourceOf(db, r));
    }
    hide FanOk;
    KeptFan(db, d);
  }

  lemma ComparisonOk(db: Db, r: nat)
    requires Linked(db) && RunsOk(db) && r in db.runs
    ensures var x := db.runs[r]; x.comparison == CompareOf(x.proposal, x.validation, x.legacy, SourceOf(db, r))
  {
    assert RunOk(db.runs[r], AttsOf(db, r), SourceOf(db, r), db.nextAttempt);
    hide Counted, Budgeted, StatusOk, Numbered, UsageBelow, CompareOf;
  }

  predicate CompareHolds(x: Run, source: Source) {
    x.comparison == CompareOf(x.proposal, x.validation, x.legacy, source)
  }

  lemma IdleRowCases(x: Run, source: Source, now: int, legacy: Legacy)
    ensures x.status.Queued? || x.status.WaitingForEvent? || x.status.AwaitingApproval? ==>
      IdleRow(x, CancelRow(x, source), source)
    ensures x.status.Running? && CompareHolds(x, source) ==> IdleRow(x, x.(cancelRequested := true), source)
    ensures x.status.WaitingForEvent? && CompareHolds(x, source) ==> IdleRow(x, WakeRow(x, now), source)
    ensures x.status.Queued? ==> IdleRow(x, AgeRow(x, source), source)
    ensures IdleRow(x, Recomputed(x.(legacy := Some(legacy)), source), source)
  {
    hide CompareOf;
  }

  lemma CancelLegacy(x: Run, source: Source)
    ensures CancelRow(x, source).legacy == x.legacy
  {
  }

  lemma CancelIdle(db: Db, r: nat)
    requires Linked(db) && RunsOk(db)
    ensures IdleRows(db, CancelDb(db, r))
    ensures forall q <- db.runs :: CancelDb(db, r).runs[q].legacy == db.runs[q].legacy
  {
    hide RunsOk, CompareOf, IdleRow, Recomputed;
    var d := CancelDb(db, r);
    if r in db.runs {
      ComparisonOk(db, r);
      IdleRowCases(db.runs[r], SourceOf(db, r), 0, Unreadable);
      assert d.runs[r] == db.runs[r] || IdleRow(db.runs[r], d.runs[r], SourceOf(db, r));
      assert d.runs[r].legacy == db.runs[r].legacy by {
        CancelLegacy(db.runs[r], SourceOf(db, r));
      }
    }
  }

  lemma CancelStep(db: Db, r: nat)
    requires Inv(db)
    ensures Inv(CancelDb(db, r)) && Evolves(db, CancelDb(db, r))
  {
    CancelIdle(db, r);
    hide RunsOk, AttemptsOk, SnapsOk, FanOk, AgentsOk, BookOk, Linked, IdleRows, CancelDb;
    LegacyKept(db, CancelDb(db, r));
    IdleStep(db, CancelDb(db, r));
  }

  lemma DueStep(db: Db, now: int)
    requires Inv(db)
    ensures Inv(WakeDueDb(db, now)) && Evolves(db, WakeDueDb(db, now))
  {
    hide RunsOk, AttemptsOk, SnapsOk, FanOk, AgentsOk, BookOk, IdleRow, CompareOf, Evolves;
    var d := WakeDueDb(db, now);
    forall r <- db.runs ensures d.runs[r] == db.runs[r] || IdleRow(db.runs[r], d.runs[r], SourceOf(db, r)) {
      ComparisonOk(db, r);
      IdleRowCases(db.runs[r], SourceOf(db, r), now, Unreadable);
    }
    LegacyKept(db, d);
    hide Inv;
    IdleStep(db, d);
  }

  lemma AgeStep(db: Db, locked: set<nat>, now: int)
    requires Inv(db)
    ensures Inv(AgeDb(db, locked, now)) && Evolves(db, AgeDb(db, locked, now))
  {
    hide RunsOk, AttemptsOk, SnapsOk, FanOk, AgentsOk, BookOk, IdleRow, CompareOf, Evolves;
    var d := AgeDb(db, locked, now);
    forall r <- db.runs ensures d.runs[r] == db.runs[r] || IdleRow(db.runs[r], d.runs[r], SourceOf(db, r)) {
      IdleRowCases(db.runs[r], SourceOf(db, r), now, Unreadable);
    }
    LegacyKept(db, d);
    hide Inv;
    IdleStep(db, d);
  }

  lemma SetLegacyIdle(db: Db, idem: string, legacy: Legacy)
    requires Linked(db)
    ensures IdleRows(db, SetLegacyDb(db, idem, legacy))
  {
    hide IdleRow, Recomputed;
    var d := SetLegacyDb(db, idem, legacy);
    forall r <- db.runs ensures d.runs[r] == db.runs[r] || IdleRow(db.runs[r], d.runs[r], SourceOf(db, r)) {
      IdleRowCases(db.runs[r], SourceOf(db, r), 0, legacy);
    }
  }

  lemma SetLegacyFan(db: Db, idem: string, legacy: Legacy)
    requires Linked(db) && FanOk(db)
    ensures FanOk(SetLegacyDb(db, idem, legacy))
  {
    hide CompareOf;
  }

  lemma SetLegacyStep(db: Db, idem: string, legacy: Legacy)
    requires Inv(db)
    ensures Inv(SetLegacyDb(db, idem, legacy)) && Evolves(db, SetLegacyDb(db, idem, legacy))
  {
    SetLegacyIdle(db, idem, legacy);
    SetLegacyFan(db, idem, legacy);
    hide RunsOk, AttemptsOk, SnapsOk, FanOk, AgentsOk, BookOk, IdleRow, Linked, SetLegacyDb;
    IdleStep(db, SetLegacyDb(db, idem, legacy));
  }

  // ----- calls of the owning worker

  lemma EditRunOk(db: Db, a: nat, t: Attempt)
    requires Linked(db) && RunsOk(db) && a in db.attempts
    requires t.run == db.attempts[a].run && t.no == db.attempts[a].no
    requires t.status == db.attempts[a].status && t.usage == db.attempts[a].usage
    ensures RunOk(db.runs[t.run], AttsOf(db, t.run)[a := t], SourceOf(db, t.run), db.nextAttempt)
  {
    hide RunOk;
    EditMove(db.runs[t.run], AttsOf(db, t.run), a, t, SourceOf(db, t.run), db.nextAttempt);
  }

  lemma EditStep(db: Db, a: nat, t: Attempt)
    requires Inv(db) && a in db.attempts
    requires AttEvolves(db.attempts[a], t) && t.status == db.attempts[a].status && t.usage == db.attempts[a].usage
    ensures var d := db.(attempts := db.attempts[a := t]); Inv(d) && Evolves(db, d)
  {
    hide RunOk, RunEvolves, RunsOk, AttemptsOk, SnapsOk, FanOk, AgentsOk, BookOk, Evolves;
    EditRunOk(db, a, t);
    var x := db.runs[t.run];
    SameEvolves(x);
    assert db.runs[t.run := x] == db.runs;
    hide Linked;
    FinishStep(db, a, t, x);
  }

  lemma HeartbeatStep(db: Db, a: nat, fence: nat, lease: int, now: int)
    requires Inv(db)
    ensures var d := HeartbeatDb(db, a, fence, lease, now); Inv(d) && Evolves(db, d)
  {
    hide Inv, Evolves;
    if Current(db, a, fence, now) {
      EditStep(db, a, db.attempts[a].(leaseUntil := now + lease));
    } else {
      EvolvesReflexive(db);
    }
  }

  lemma AuthorizeStep(db: Db, a: nat, fence: nat, tool: string, now: int)
    requires Inv(db)
    ensures var d := AuthorizeDb(db, a, fence, tool, now); Inv(d) && Evolves(db, d)
  {
    hide Evolves, RunsOk, AttemptsOk, SnapsOk, FanOk, AgentsOk, BookOk, RunOf, AgentOf;
    if AuthorizeAnswer(db, a, fence, tool, now).Ok? {
      EditStep(db, a, db.attempts[a].(toolCalls := db.attempts[a].toolCalls + 1));
    } else {
      EvolvesReflexive(db);
    }
  }

  lemma PendingWaitStep(db: Db, a: nat, fence: nat, seconds: int, now: int, clock: int)
    requires Inv(db)
    ensures var d := SetPendingWaitDb(db, a, fence, seconds, now, clock); Inv(d) && Evolves(db, d)
  {
    hide Evolves, RunsOk, AttemptsOk, SnapsOk, FanOk, AgentsOk, BookOk, RunOf, AgentOf;
    if PendingWaitAnswer(db, a, fence, seconds, now, clock).Ok? {
      EditStep(db, a, db.attempts[a].(pendingWait := Some(seconds)));
    } else {
      EvolvesReflexive(db);
    }
  }

  // ----- attempts that begin and end

  lemma EndRowCases(x: Run, source: Source, used: Usage, d: Decision, v: Validation, retryable: bool, now: int,
                    s: AttemptStatus)
    requires 0 <= Used(x)
    ensures s.AttCancelled? || s.AttFailed? || s.AttExpired? ==> EndRow(x, CancelRow(x, source), s, used, source)
    ensures (s.AttFailed? || s.AttExpired?) && !x.cancelRequested && CompareHolds(x, source) ==>
      EndRow(x, RequeueOrFail(x, retryable, source, now), s, used, source)
    ensures !x.cancelRequested ==> EndRow(x, WaitRow(x, d, v, used, now, source), AttWaiting, used, source)
    ensures !x.cancelRequested ==> EndRow(x, SucceedRow(x, d, v, used, source), AttSucceeded, used, source)
  {
    hide CompareOf, AddUsage, Backoff;
  }

  lemma EndRunOk(db: Db, a: nat, t: Attempt, y: Run)
    requires Linked(db) && RunsOk(db) && a in db.attempts && db.attempts[a].status.AttRunning? && !t.status.AttRunning?
    requires t.run == db.attempts[a].run && t.no == db.attempts[a].no
    requires EndRow(db.runs[t.run], y, t.status, t.usage, SourceOf(db, t.run))
    requires Spent(t.status) ==> !db.runs[t.run].cancelRequested
    ensures db.runs[t.run].status.Running?
    ensures RunOk(y, AttsOf(db, t.run)[a := t], SourceOf(db, t.run), db.nextAttempt) && RunEvolves(db.runs[t.run], y)
    ensures y.legacy == db.runs[t.run].legacy
  {
    hide RunOk, RunEvolves;
    EndMove(db.runs[t.run], AttsOf(db, t.run), a, t, y, SourceOf(db, t.run), db.nextAttempt);
  }

  /** The running attempt ends with this status, and its run takes the matching row. */
  lemma EndStep(db: Db, a: nat, s: AttemptStatus, used: Usage, y: Run)
    requires Inv(db) && a in db.attempts && db.attempts[a].status.AttRunning? && !s.AttRunning?
    requires EndRow(RunOf(db, a), y, s, used, SourceOf(db, db.attempts[a].run))
    requires Spent(s) ==> !RunOf(db, a).cancelRequested
    ensures RunOf(db, a).status.Running?
    ensures Inv(Finish(db, a, s, used, y)) && Evolves(db, Finish(db, a, s, used, y))
  {
    hide RunsOk, AttemptsOk, SnapsOk, FanOk, AgentsOk, BookOk, EndRow, RunOk, RunEvolves, Evolves;
    var t := db.attempts[a].(status := s, usage := used);
    EndRunOk(db, a, t, y);
    FinishStep(db, a, t, y);
    assert Finish(db, a, s, used, y) == Rewrite(db, a, t, y);
  }

  lemma AckCancelStep(db: Db, a: nat, fence: nat)
    requires Inv(db)
    ensures Inv(AckCancelDb(db, a, fence)) && Evolves(db, AckCancelDb(db, a, fence))
  {
    hide RunsOk, AttemptsOk, SnapsOk, FanOk, AgentsOk, BookOk, EndRow, Evolves, CancelRow;
    if Fenced(db, a, fence) && db.attempts[a].status.AttRunning? {
      var x := RunOf(db, a);
      EndRowCases(x, SourceOf(db, db.attempts[a].run), db.attempts[a].usage, HOLD, FAILSAFE, false, 0, AttCancelled);
      EndStep(db, a, AttCancelled, db.attempts[a].usage, CancelRow(x, SourceOf(db, db.attempts[a].run)));
    } else {
      EvolvesReflexive(db);
    }
  }

  lemma FailStep(db: Db, a: nat, fence: nat, retryable: bool, now: int)
    requires Inv(db)
    ensures Inv(FailDb(db, a, fence, retryable, now)) && Evolves(db, FailDb(db, a, fence, retryable, now))
  {
    hide RunsOk, AttemptsOk, SnapsOk, FanOk, AgentsOk, BookOk, EndRow, Evolves, CancelRow, RequeueOrFail, CompareOf;
    if Current(db, a, fence, now) {
      var r, x, src := db.attempts[a].run, RunOf(db, a), SourceOf(db, db.attempts[a].run);
      ComparisonOk(db, r);
      EndRowCases(x, src, db.attempts[a].usage, HOLD, FAILSAFE, retryable, now, AttFailed);
      EndStep(db, a, AttFailed, db.attempts[a].usage,
              if x.cancelRequested then CancelRow(x, src) else RequeueOrFail(x, retryable, src, now));
    } else {
      EvolvesReflexive(db);
    }
  }

  lemma ClaimRows(db: Db, r: nat, worker: string, lease: int, now: int, q: nat)
    requires Linked(db) && RunsOk(db) && r in db.runs && db.runs[r].status.Queued? && q in db.runs
    requires forall a <- db.attempts :: a < db.nextAttempt
    ensures var d := ClaimRunDb(db, r, worker, lease, now);
      && RunOk(d.runs[q], AttsOf(d, q), SourceOf(db, q), d.nextAttempt)
      && RunEvolves(db.runs[q], d.runs[q])
  {
    hide RunOk, RunEvolves;
    var d := ClaimRunDb(db, r, worker, lease, now);
    var n := db.nextAttempt;
    if q == r {
      assert AttsOf(d, r) == AttsOf(db, r)[n := d.attempts[n]];
      ClaimMove(db.runs[r], AttsOf(db, r), d.attempts[n], SourceOf(db, r), n);
    } else {
      assert AttsOf(d, q) == AttsOf(db, q);
      BoundMove(db.runs[q], AttsOf(db, q), SourceOf(db, q), n);
      SameEvolves(db.runs[q]);
    }
  }

  lemma ClaimAttempts(db: Db, r: nat, worker: string, lease: int, now: int)
    requires AttemptsOk(db) && r in db.runs
    ensures var d := ClaimRunDb(db, r, worker, lease, now);
      && AttemptsOk(d)
      && forall a <- db.attempts :: a in d.attempts && AttEvolves(db.attempts[a], d.attempts[a])
  {
  }

  lemma ClaimRunStep(db: Db, r: nat, worker: string, lease: int, now: int)
    requires Inv(db) && r in db.runs && db.runs[r].status.Queued?
    ensures var d := ClaimRunDb(db, r, worker, lease, now); Inv(d) && Evolves(db, d)
  {
    hide RunsOk, SnapsOk, FanOk, AgentsOk, BookOk, RunOk, RunEvolves;
    var d := ClaimRunDb(db, r, worker, lease, now);
    forall q <- db.runs
      ensures RunOk(d.runs[q], AttsOf(d, q), SourceOf(db, q), d.nextAttempt)
      ensures RunEvolves(db.runs[q], d.runs[q])
    {
      ClaimRows(db, r, worker, lease, now, q);
    }
    ClaimAttempts(db, r, worker, lease, now);
    KeptFan(db, d);
    hide AttemptsOk, Inv, Evolves;
    InPlace(db, d);
  }

  lemma ClaimStep(db: Db, worker: string, runtimes: set<string>, lease: int, locked: set<nat>, now: int)
    requires Inv(db)
    ensures var d := ClaimDb(db, worker, runtimes, lease, locked, now); Inv(d) && Evolves(db, d)
  {
    hide RunsOk, AttemptsOk, SnapsOk, FanOk, AgentsOk, BookOk, Evolves;
    var c := Claimable(db, runtimes, locked, now);
    if c == {} {
      EvolvesReflexive(db);
    } else {
      ClaimRunStep(db, First(db, c), worker, lease, now);
    }
  }

  // ----- the reaper

  ghost predicate AllRunning(db: Db, dead: set<nat>) {
    forall a <- dead :: a in db.attempts && db.attempts[a].status.AttRunning?
  }

  function Lapsed(t: Attempt): Attempt {
    t.(status := AttExpired)
  }

  /** At most one attempt of a run can have lapsed, so the run's attempts change in that one place. */
  lemma LapsedAtts(db: Db, dead: set<nat>, now: int, a: nat)
    requires Linked(db) && AllRunning(db, dead) && a in dead
    requires Counted(RunOf(db, a), AttsOf(db, db.attempts[a].run))
    ensures var r := db.attempts[a].run;
      AttsOf(LapseDb(db, dead, now), r) == AttsOf(db, r)[a := Lapsed(db.attempts[a])]
  {
    hide LapseRow, Counted;
    var r := db.attempts[a].run;
    var m := AttsOf(db, r);
    RunningOnly(RunOf(db, a), m, a);
    forall b | b in m && b in dead ensures b == a {
      assert b in WithStatus(m, AttRunning);
    }
  }

  lemma LapsedRow(db: Db, dead: set<nat>, now: int, a: nat)
    requires Linked(db) && RunsOk(db) && AllRunning(db, dead) && a in dead
    ensures var r, d := db.attempts[a].run, LapseDb(db, dead, now);
      && RunOk(d.runs[r], AttsOf(d, r), SourceOf(db, r), d.nextAttempt) && RunEvolves(db.runs[r], d.runs[r])
      && d.runs[r].legacy == db.runs[r].legacy
  {
    hide EndRow, RunOk, RunEvolves, CompareOf, AttsOf, LapseRow, UsageBelow;
    var r := db.attempts[a].run;
    var x, src := db.runs[r], SourceOf(db, r);
    CountedOf(db, r);
    LapsedAtts(db, dead, now, a);
    ComparisonOk(db, r);
    LapseEnds(x, src, now, db.attempts[a].usage);
    EndRunOk(db, a, Lapsed(db.attempts[a]), LapseRow(x, src, now));
    assert Owns(db.attempts, dead, r);
  }

  lemma CountedOf(db: Db, r: nat)
    requires Linked(db) && RunsOk(db) && r in db.runs
    ensures Counted(db.runs[r], AttsOf(db, r))
  {
    hide UsageBelow, Counted;
  }

  lemma LapseEnds(x: Run, source: Source, now: int, used: Usage)
    requires 0 <= Used(x) && CompareHolds(x, source)
    ensures EndRow(x, LapseRow(x, source, now), AttExpired, used, source)
  {
    EndRowCases(x, source, used, HOLD, FAILSAFE, true, now, AttExpired);
  }

  lemma UnlapsedRow(db: Db, dead: set<nat>, now: int, r: nat)
    requires Linked(db) && RunsOk(db) && AllRunning(db, dead) && r in db.runs && !Owns(db.attempts, dead, r)
    ensures var d := LapseDb(db, dead, now);
      && RunOk(d.runs[r], AttsOf(d, r), SourceOf(db, r), d.nextAttempt) && RunEvolves(db.runs[r], d.runs[r])
      && d.runs[r].legacy == db.runs[r].legacy
  {
    hide RunOk, RunEvolves, LapseRow;
    var d := LapseDb(db, dead, now);
    assert AttsOf(d, r) == AttsOf(db, r);
    SameEvolves(db.runs[r]);
  }

  lemma LapseAttempts(db: Db, dead: set<nat>, now: int)
    requires Linked(db) && AttemptsOk(db) && AllRunning(db, dead)
    ensures var d := LapseDb(db, dead, now);
      && AttemptsOk(d)
      && (forall a <- db.attempts :: a in d.attempts && AttEvolves(db.attempts[a], d.attempts[a]))
      && (forall a <- d.attempts :: d.attempts[a].run in db.runs)
  {
    hide LapseRow;
  }

  lemma LapseStep(db: Db, dead: set<nat>, now: int)
    requires Inv(db) && AllRunning(db, dead)
    ensures Inv(LapseDb(db, dead, now)) && Evolves(db, LapseDb(db, dead, now))
  {
    hide RunsOk, SnapsOk, FanOk, AgentsOk, BookOk, RunOk, RunEvolves, LapseRow;
    var d := LapseDb(db, dead, now);
    forall r <- db.runs
      ensures RunOk(d.runs[r], AttsOf(d, r), SourceOf(db, r), d.nextAttempt)
      ensures RunEvolves(db.runs[r], d.runs[r])
      ensures d.runs[r].legacy == db.runs[r].legacy && d.runs[r].snap == db.runs[r].snap
      ensures d.runs[r].agent == db.runs[r].agent
    {
      if Owns(db.attempts, dead, r) {
        var a :| a in dead && a in db.attempts && db.attempts[a].run == r;
        LapsedRow(db, dead, now, a);
      } else {
        UnlapsedRow(db, dead, now, r);
      }
      EvolvesKeys(db.runs[r], d.runs[r]);
    }
    LapseAttempts(db, dead, now);
    KeptFan(db, d);
    hide AttemptsOk, Inv, Evolves, AttEvolves;
    InPlace(db, d);
  }

  // ----- the shadow book

  lemma BookStep(db: Db, d: Db)
    requires Inv(db) && BookOk(d)
    requires d == db.(positions := d.positions, events := d.events, nextPosition := d.nextPosition)
    requires forall p <- db.positions :: p in d.positions && RowEvolves(db.positions[p], d.positions[p])
    requires db.events <= d.events
    ensures Inv(d) && Evolves(db, d)
  {
    hide BookOk, RowEvolves, FanOk, RunOk, RunEvolves, AttEvolves;
    forall r <- db.runs ensures RunEvolves(db.runs[r], d.runs[r]) && AttsOf(d, r) == AttsOf(db, r) {
      SameEvolves(db.runs[r]);
    }
    assert FanOk(d) by {
      KeptFan(db, d);
    }
    forall a <- db.attempts ensures AttEvolves(db.attempts[a], d.attempts[a]) {
      SameAttempt(db.attempts[a]);
    }
  }

  lemma SameAttempt(t: Attempt)
    ensures AttEvolves(t, t)
  {
  }

  lemma RowReplaced(db: Db, d: Db, id: int, q: Position)
    requires BookOk(db) && id in db.positions && RowInv(q) && RowEvolves(db.positions[id], q)
    requires d.runs == db.runs && d.nextPosition == db.nextPosition && d.positions == db.positions[id := q]
    ensures BookOk(d)
  {
    hide RowInv;
  }

  /** Any change that a row admits, with any events after it. */
  lemma RowChanged(db: Db, d: Db, id: int, q: Position)
    requires Inv(db) && id in db.positions && RowInv(q) && RowEvolves(db.positions[id], q)
    requires d == db.(positions := db.positions[id := q], events := d.events) && db.events <= d.events
    ensures Inv(d) && Evolves(db, d)
  {
    hide RowEvolves, RunsOk, AttemptsOk, SnapsOk, FanOk, AgentsOk, RowInv, BookOk, Evolves;
    RowReplaced(db, d, id, q);
    forall p <- db.positions ensures RowEvolves(db.positions[p], d.positions[p]) {
      RowEvolvesSelf(db.positions[p]);
    }
    BookStep(db, d);
  }

  lemma EventsOnly(db: Db, d: Db)
    requires Inv(db) && d == db.(events := d.events) && db.events <= d.events
    ensures Inv(d) && Evolves(db, d)
  {
    assert BookOk(d);
    hide RowEvolves, RunsOk, AttemptsOk, SnapsOk, FanOk, AgentsOk, BookOk, Evolves;
    forall p <- db.positions ensures RowEvolves(db.positions[p], d.positions[p]) {
      RowEvolvesSelf(db.positions[p]);
    }
    BookStep(db, d);
  }

  lemma RowInvOf(db: Db, id: int)
    requires Inv(db) && id in db.positions
    ensures RowInv(db.positions[id])
  {
    hide RowInv, RunsOk, AttemptsOk, SnapsOk, FanOk, AgentsOk;
  }

  lemma RowOpStep(db: Db, id: int, op: RowOp)
    requires Inv(db)
    ensures Inv(RowDb(db, id, op)) && Evolves(db, RowDb(db, id, op))
  {
    hide Inv, Evolves, RowInv, RowEvolves, ApplyRow;
    if id in db.positions {
      RowInvOf(db, id);
      RowStep(db.positions[id], op);
      RowChanged(db, RowDb(db, id, op), id, ApplyRow(db.positions[id], op));
    } else {
      EvolvesReflexive(db);
    }
  }

  lemma LogStep(db: Db, id: int, kind: EventKind, at: int)
    requires Inv(db)
    ensures Inv(Log(db, id, kind, at)) && Evolves(db, Log(db, id, kind, at))
  {
    hide Inv, Evolves;
    EventsOnly(db, Log(db, id, kind, at));
  }

  lemma RowThenLog(db: Db, id: int, op: RowOp, kind: EventKind, at: int)
    requires Inv(db)
    ensures var d := Log(RowDb(db, id, op), id, kind, at); Inv(d) && Evolves(db, d)
  {
    hide Inv, Evolves, ApplyRow;
    RowOpStep(db, id, op);
    LogStep(RowDb(db, id, op), id, kind, at);
    EvolvesTransitive(db, RowDb(db, id, op), Log(RowDb(db, id, op), id, kind, at));
  }

  lemma ClosePositionStep(db: Db, id: int, price: real, at: int, reason: ExitReason, now: int)
    requires Inv(db)
    ensures var d := ClosePositionDb(db, id, price, at, reason, now); Inv(d) && Evolves(db, d)
  {
    hide Inv, Evolves, Log, RowDb;
    RowThenLog(db, id, CloseAt(price, at, reason), ExitNoted, now);
    EvolvesReflexive(db);
  }

  lemma RecordWakeStep(db: Db, id: int, run: nat, now: int)
    requires Inv(db)
    ensures var d := RecordWakeDb(db, id, run, now); Inv(d) && Evolves(db, d)
  {
    hide Inv, Evolves, Log, RowDb;
    RowThenLog(db, id, WakeNoted, Wake(run), now);
    EvolvesReflexive(db);
  }

  lemma CountMissStep(db: Db, id: int, e: nat, now: int)
    requires Inv(db) && id in db.positions
    ensures var d := CountMissDb(db, id, e, now); Inv(d) && Evolves(db, d) && id in d.positions
  {
    hide Inv, Evolves, ApplyRow;
    var l := Log(db, id, WakeFailed(e), now);
    LogStep(db, id, WakeFailed(e), now);
    RowOpStep(l, id, WakeMissed);
    var d := RowDb(l, id, WakeMissed);
    EvolvesTransitive(db, l, d);
    LogStep(d, id, AttentionRaised, now);
    EvolvesTransitive(db, d, Log(d, id, AttentionRaised, now));
  }

  lemma {:induction false} CountMissesStep(db: Db, id: int, es: seq<nat>, now: int)
    requires Inv(db) && id in db.positions
    ensures var d := CountMissesDb(db, id, es, now); Inv(d) && Evolves(db, d)
    decreases |es|
  {
    hide Inv, Evolves, CountMissDb;
    if es == [] {
      EvolvesReflexive(db);
    } else {
      var d := CountMissDb(db, id, es[0], now);
      CountMissStep(db, id, es[0], now);
      CountMissesStep(d, id, es[1..], now);
      EvolvesTransitive(db, d, CountMissesDb(d, id, es[1..], now));
    }
  }

  lemma ReconcileStep(db: Db, id: int, now: int)
    requires Inv(db)
    ensures Inv(ReconcileDb(db, id, now)) && Evolves(db, ReconcileDb(db, id, now))
  {
    hide Inv, Evolves, CountMissesDb;
    if id in db.positions {
      CountMissesStep(db, id, MissedFrom(db, id, 0), now);
    } else {
      EvolvesReflexive(db);
    }
  }

  // ----- completion

  /** A verdict that lets an entry through vouches for the position it opens. */
  lemma AcceptedEntry(s: Snapshot, d: Decision, clock: int, maxAge: int, agent: nat, run: nat, at: int)
    requires WakeIn(s).None? && d.action.Open? && Judge(s, d, clock, maxAge).valid
    ensures RowInv(NewPosition(agent, run, s, d, Judge(s, d, clock, maxAge).priceUsed, at))
  {
    ValidOpenIff(d, FactsOf(s.instrument, s.payload, s.takenAt), clock, maxAge);
    hide OpenReasons, PlanOk, TripwiresOk;
  }

  lemma InsertedBook(db: Db, d: Db, p: Position)
    requires BookOk(db) && RowInv(p) && !OpenConflict(db, p.agent, p.run)
    requires p.run in db.runs && db.runs[p.run].status.Succeeded? && db.runs[p.run].agent == p.agent
    requires d.runs == db.runs && d.positions == db.positions[db.nextPosition as int := p]
    requires d.nextPosition == db.nextPosition + 1
    ensures BookOk(d)
  {
    hide RowInv;
  }

  lemma OpenStep(db: Db, agent: nat, run: nat, s: Snapshot, d: Decision, clock: int, maxAge: int, now: int)
    requires Inv(db)
    requires run in db.runs && db.runs[run].status.Succeeded? && db.runs[run].agent == agent
    requires WakeIn(s).None? && d.action.Open? && Judge(s, d, clock, maxAge).valid
    ensures var e := OpenDb(db, agent, run, s, d, Judge(s, d, clock, maxAge).priceUsed, clock, now);
      Inv(e) && Evolves(db, e)
  {
    hide RowEvolves, RunsOk, AttemptsOk, SnapsOk, FanOk, AgentsOk, RowInv, Judge, Evolves, WakeIn, BookOk;
    var price := Judge(s, d, clock, maxAge).priceUsed;
    var e := OpenDb(db, agent, run, s, d, price, clock, now);
    if !OpenConflict(db, agent, run) {
      AcceptedEntry(s, d, clock, maxAge, agent, run, clock);
      InsertedBook(db, e, NewPosition(agent, run, s, d, price, clock));
      FreshId(db);
      forall p <- db.positions ensures p in e.positions && RowEvolves(db.positions[p], e.positions[p]) {
        RowEvolvesSelf(db.positions[p]);
      }
      BookStep(db, e);
    } else {
      EvolvesReflexive(db);
      EventsOnly(db, e);
    }
  }

  lemma FreshId(db: Db)
    requires BookOk(db)
    ensures db.nextPosition as int !in db.positions
  {
    hide RowInv;
  }

  lemma ApplyWakeStep(db: Db, run: nat, w: WakePosition, d: Decision, price: real, at: int, now: int)
    requires Inv(db) && w.id in db.positions
    ensures var e := ApplyWakeDb(db, run, w, d, price, at, now); Inv(e) && Evolves(db, e)
  {
    hide Inv, Evolves, RowInv, RowEvolves, RunRow, WakeRowOps, WakeNote;
    var p := db.positions[w.id];
    RowInvOf(db, w.id);
    var ops := WakeRowOps(p, d, price, at);
    RowHistory(p, ops);
    RowChanged(db, ApplyWakeDb(db, run, w, d, price, at, now), w.id, RunRow(p, ops));
  }

  lemma BookDbStep(db: Db, agent: nat, run: nat, s: Snapshot, d: Decision, maxAge: int, now: int, clock: int, host: int)
    requires Inv(db)
    requires run in db.runs && db.runs[run].status.Succeeded? && db.runs[run].agent == agent
    ensures var e := BookDb(db, agent, run, s, d, Judge(s, d, clock, maxAge), now, clock, host);
      Inv(e) && Evolves(db, e)
  {
    hide Inv, Evolves, Judge, OpenDb, ApplyWakeDb, WakeIn;
    var v := Judge(s, d, clock, maxAge);
    EvolvesReflexive(db);
    var wake := WakeIn(s);
    if wake.Some? {
      if wake.value.id in db.positions {
        ApplyWakeStep(db, run, wake.value, d, v.priceUsed, host, now);
      }
      LogStep(db, wake.value.id, WakeHeld(run), now);
    } else if v.valid && d.action.Open? {
      OpenStep(db, agent, run, s, d, clock, maxAge, now);
    }
  }

  /** The queue part of a final, uncancelled completion. */
  lemma SucceedStep(db: Db, a: nat, d: Decision, v: Validation, used: Usage)
    requires Inv(db) && a in db.attempts && db.attempts[a].status.AttRunning? && !RunOf(db, a).cancelRequested
    ensures var x := SucceedRow(RunOf(db, a), d, v, used, SourceOf(db, db.attempts[a].run));
      var e := Finish(db, a, AttSucceeded, used, x);
      Inv(e) && Evolves(db, e) && db.attempts[a].run in e.runs
      && e.runs[db.attempts[a].run].status.Succeeded? && e.runs[db.attempts[a].run].agent == RunOf(db, a).agent
  {
    hide RunsOk, AttemptsOk, SnapsOk, FanOk, AgentsOk, BookOk, EndRow, Evolves, CompareOf, AddUsage;
    var x, src := RunOf(db, a), SourceOf(db, db.attempts[a].run);
    EndRowCases(x, src, used, d, v, false, 0, AttSucceeded);
    EndStep(db, a, AttSucceeded, used, SucceedRow(x, d, v, used, src));
  }

  lemma CompleteStep(db: Db, a: nat, fence: nat, i: CompleteInput, now: int, clock: int, host: int)
    requires Inv(db)
    ensures var e := CompleteDb(db, a, fence, i, now, clock, host); Inv(e) && Evolves(db, e)
  {
    hide RunsOk, AttemptsOk, SnapsOk, FanOk, AgentsOk, BookOk, EndRow, Evolves, CompareOf, Judge, BookDb, Inv,
         Recomputed, CancelRow, SucceedRow, WaitRow, Waits, Finish;
    if !Current(db, a, fence, now) {
      EvolvesReflexive(db);
    } else {
      LinkedOf(db);
      var at, r, x := db.attempts[a], db.attempts[a].run, RunOf(db, a);
      var s := db.snaps[x.snap];
      var b := AgentOf(db, a).budgets;
      var d := ProposalOf(i);
      var v := Judge(s, d, clock, b.freshnessSeconds * SECOND);
      var until := now + at.pendingWait.GetOr(0) * SECOND;
      if x.cancelRequested {
        EndRowCases(x, s.source, at.usage, d, v, false, until, AttCancelled);
        EndStep(db, a, AttCancelled, at.usage, CancelRow(x, s.source));
      } else if Waits(at, x.followupsUsed, b) {
        EndRowCases(x, s.source, i.usage, d, v, false, until, AttWaiting);
        EndStep(db, a, AttWaiting, i.usage, WaitRow(x, d, v, i.usage, until, s.source));
        WaitsPending(at, x.followupsUsed, b);
      } else {
        SucceedStep(db, a, d, v, i.usage);
        var e := Finish(db, a, AttSucceeded, i.usage, SucceedRow(x, d, v, i.usage, s.source));
        BookDbStep(e, x.agent, r, s, d, b.freshnessSeconds * SECOND, now, clock, host);
        EvolvesTransitive(db, e, BookDb(e, x.agent, r, s, d, v, now, clock, host));
      }
    }
  }

  lemma WaitsPending(at: Attempt, followupsUsed: int, b: Budgets)
    requires Waits(at, followupsUsed, b)
    ensures at.pendingWait.Some?
  {
  }

  lemma BookOf(db: Db)
    requires Inv(db)
    ensures BookOk(db)
  {
    hide Linked, RunsOk, AttemptsOk, SnapsOk, FanOk, AgentsOk, BookOk;
  }

  lemma LinkedOf(db: Db)
    requires Inv(db)
    ensures Linked(db)
  {
  }

  // ----- agents and ingest

  lemma AgentsStep(db: Db, d: Db)
    requires Inv(db) && d == db.(agents := d.agents) && AgentsOk(d)
    requires forall a <- db.agents :: a in d.agents
    ensures Inv(d) && Evolves(db, d)
  {
    hide AttemptsOk, SnapsOk, FanOk, BookOk, AgentsOk, RunOk, RunEvolves, AttEvolves, RowEvolves;
    forall r <- db.runs ensures RunEvolves(db.runs[r], d.runs[r]) && AttsOf(d, r) == AttsOf(db, r) {
      SameEvolves(db.runs[r]);
    }
    forall a <- db.attempts ensures AttEvolves(db.attempts[a], d.attempts[a]) {
      SameAttempt(db.attempts[a]);
    }
    forall p <- db.positions ensures RowEvolves(db.positions[p], d.positions[p]) {
      RowEvolvesSelf(db.positions[p]);
    }
    SameTables(db, d);
  }

  lemma SameTables(db: Db, d: Db)
    requires d == db.(agents := d.agents) && AttemptsOk(db) && SnapsOk(db) && FanOk(db) && BookOk(db)
    ensures AttemptsOk(d) && SnapsOk(d) && FanOk(d) && BookOk(d)
  {
    hide RowInv;
  }

  lemma UpsertAgentStep(db: Db, id: nat, agent: Agent)
    requires Inv(db)
    ensures Inv(UpsertAgentDb(db, id, agent)) && Evolves(db, UpsertAgentDb(db, id, agent))
  {
    hide Linked, RunsOk, AttemptsOk, SnapsOk, FanOk, BookOk, Evolves;
    AgentsStep(db, UpsertAgentDb(db, id, agent));
  }

  lemma SetEnabledStep(db: Db, id: nat, enabled: bool)
    requires Inv(db)
    ensures Inv(SetEnabledDb(db, id, enabled)) && Evolves(db, SetEnabledDb(db, id, enabled))
  {
    hide Linked, RunsOk, AttemptsOk, SnapsOk, FanOk, BookOk, Evolves;
    AgentsStep(db, SetEnabledDb(db, id, enabled));
  }

  lemma {:induction false} NoUsage(n: nat)
    ensures UsageBelow(map[], n) == map[]
  {
    if n > 0 {
      NoUsage(n - 1);
    }
  }

  lemma NewRunOk(agents: map<nat, Agent>, agent: nat, snap: nat, trigger: string, now: int, source: Source, n: nat)
    requires agent in agents
    ensures RunOk(NewRun(agents, agent, snap, trigger, now), map[], source, n)
  {
    NoUsage(n);
    hide UsageBelow;
    assert forall s: AttemptStatus :: WithStatus(map[], s) == {};
  }

  lemma OldRunOk(db: Db, i: IngestInput, ids: seq<nat>, now: int, r: nat)
    requires Linked(db) && r in db.runs && r < db.nextRun && (forall a <- ids :: a in db.agents)
    requires db.runs[r].snap < db.nextSnap
    requires RunOk(db.runs[r], AttsOf(db, r), SourceOf(db, r), db.nextAttempt)
    ensures var d := Enqueue(db, i, ids, now);
      && d.runs[r] == db.runs[r] && d.runs[r].snap in d.snaps
      && RunOk(d.runs[r], AttsOf(d, r), SourceOf(d, r), d.nextAttempt)
  {
    hide RunOk, TriggerOf;
    assert AttsOf(Enqueue(db, i, ids, now), r) == AttsOf(db, r);
  }

  lemma NoAttempts(db: Db, r: nat)
    requires Linked(db) && r !in db.runs
    ensures AttsOf(db, r) == map[]
  {
  }

  lemma AddedRunOk(db: Db, i: IngestInput, ids: seq<nat>, now: int, r: nat)
    requires Linked(db) && (forall a <- ids :: a in db.agents)
    requires db.nextRun <= r < db.nextRun + |ids| && r !in db.runs
    ensures var d := Enqueue(db, i, ids, now);
      && d.runs[r] == NewRun(db.agents, ids[r - db.nextRun], db.nextSnap, TriggerOf(i), now)
      && RunOk(d.runs[r], AttsOf(d, r), SourceOf(d, r), d.nextAttempt)
  {
    hide RunOk, TriggerOf;
    NoAttempts(db, r);
    assert AttsOf(Enqueue(db, i, ids, now), r) == AttsOf(db, r);
    hide AttsOf, Linked;
    NewRunOk(db.agents, ids[r - db.nextRun], db.nextSnap, TriggerOf(i), now, i.source, db.nextAttempt);
  }

  ghost predicate Ascending(ids: seq<nat>) {
    forall j, k :: 0 <= j < k < |ids| ==> ids[j] < ids[k]
  }

  /** Rows after an enqueue: the old ones as they were, and one new row per agent. */
  ghost predicate Enqueued(db: Db, d: Db, ids: seq<nat>) {
    && (forall r <- db.runs :: r in d.runs && d.runs[r] == db.runs[r])
    && (forall r <- d.runs :: r !in db.runs ==>
          && db.nextRun <= r < db.nextRun + |ids|
          && d.runs[r].snap == db.nextSnap && d.runs[r].agent == ids[r - db.nextRun] && d.runs[r].legacy == None)
  }

  lemma EnqueueRows(db: Db, i: IngestInput, ids: seq<nat>, now: int)
    requires (forall r <- db.runs :: r < db.nextRun) && (forall a <- ids :: a in db.agents)
    ensures Enqueued(db, Enqueue(db, i, ids, now), ids)
  {
    hide TriggerOf, WithDefaults;
  }

  lemma EnqueueFan(db: Db, d: Db, ids: seq<nat>)
    requires FanOk(db) && Enqueued(db, d, ids) && Ascending(ids)
    requires forall r <- db.runs :: db.runs[r].snap < db.nextSnap
    ensures FanOk(d)
  {
  }

  lemma EnqueueLinks(db: Db, i: IngestInput, ids: seq<nat>, now: int)
    requires Linked(db) && SnapsOk(db) && AgentsOk(db) && !Known(db, i.idem)
    requires (forall r <- db.runs :: r < db.nextRun) && (forall a <- ids :: a in db.agents)
    ensures var d := Enqueue(db, i, ids, now); Linked(d) && SnapsOk(d) && AgentsOk(d)
  {
    EnqueueLinked(db, i, ids, now);
    EnqueueSnaps(db, i, ids, now);
    hide TriggerOf, WithDefaults, Known, SnapsOk, Linked, FanOut;
  }

  lemma EnqueueLinked(db: Db, i: IngestInput, ids: seq<nat>, now: int)
    requires Linked(db) && (forall r <- db.runs :: r < db.nextRun) && (forall a <- ids :: a in db.agents)
    ensures Linked(Enqueue(db, i, ids, now))
  {
    hide TriggerOf, WithDefaults;
    EnqueueRows(db, i, ids, now);
  }

  lemma EnqueueSnaps(db: Db, i: IngestInput, ids: seq<nat>, now: int)
    requires SnapsOk(db) && !Known(db, i.idem) && (forall a <- ids :: a in db.agents)
    ensures SnapsOk(Enqueue(db, i, ids, now))
  {
    hide TriggerOf, FanOut;
  }

  lemma EnqueueRunsOk(db: Db, i: IngestInput, ids: seq<nat>, now: int)
    requires Linked(db) && RunsOk(db) && SnapsOk(db) && (forall a <- ids :: a in db.agents)
    requires Linked(Enqueue(db, i, ids, now))
    ensures RunsOk(Enqueue(db, i, ids, now))
  {
    hide RunOk, AttsOf, TriggerOf;
    var d := Enqueue(db, i, ids, now);
    forall r <- d.runs ensures r < d.nextRun && RunOk(d.runs[r], AttsOf(d, r), SourceOf(d, r), d.nextAttempt) {
      if r in db.runs {
        OldRunOk(db, i, ids, now, r);
      } else {
        AddedRunOk(db, i, ids, now, r);
      }
    }
  }

  lemma RunIds(db: Db)
    requires Linked(db) && RunsOk(db)
    ensures forall r <- db.runs :: r < db.nextRun
  {
    hide RunOk;
  }

  lemma EnqueueStep(db: Db, i: IngestInput, ids: seq<nat>, now: int)
    requires Inv(db) && !Known(db, i.idem)
    requires Ascending(ids) && (forall a <- ids :: a in db.agents)
    ensures Inv(Enqueue(db, i, ids, now)) && Evolves(db, Enqueue(db, i, ids, now))
  {
    hide RunsOk, RunEvolves, FanOk, BookOk, AttemptsOk, AgentsOk, Known, Evolves, Ascending, FanOut;
    var d := Enqueue(db, i, ids, now);
    RunIds(db);
    EnqueueRows(db, i, ids, now);
    EnqueueLinks(db, i, ids, now);
    EnqueueRunsOk(db, i, ids, now);
    EnqueueFan(db, d, ids);
    EnqueueBook(db, d);
    forall r <- db.runs ensures RunEvolves(db.runs[r], d.runs[r]) {
      SameEvolves(db.runs[r]);
    }
    EnqueueEvolves(db, d);
  }

  lemma EnqueueBook(db: Db, d: Db)
    requires BookOk(db) && AttemptsOk(db) && BookSame(db, d)
    requires forall r <- db.runs :: r in d.runs && d.runs[r] == db.runs[r]
    requires d.attempts == db.attempts && d.nextAttempt == db.nextAttempt && d.nextFence == db.nextFence
    ensures BookOk(d) && AttemptsOk(d)
  {
    hide RowInv;
  }

  lemma EnqueueEvolves(db: Db, d: Db)
    requires BookSame(db, d) && d.attempts == db.attempts
    requires forall r <- db.runs :: r in d.runs && RunEvolves(db.runs[r], d.runs[r])
    requires forall r <- d.runs :: r !in db.runs ==> d.runs[r].snap !in db.snaps
    requires forall s <- db.snaps :: s in d.snaps && d.snaps[s] == db.snaps[s]
    ensures Evolves(db, d)
  {
    hide RunEvolves, AttEvolves, RowEvolves;
    forall a <- db.attempts ensures AttEvolves(db.attempts[a], d.attempts[a]) {
      SameAttempt(db.attempts[a]);
    }
    forall p <- db.positions ensures RowEvolves(db.positions[p], d.positions[p]) {
      RowEvolvesSelf(db.positions[p]);
    }
  }

  lemma IngestStep(db: Db, i: IngestInput, now: int)
    requires Inv(db)
    ensures Inv(IngestDb(db, i, now)) && Evolves(db, IngestDb(db, i, now))
  {
    hide Inv, Evolves, Enqueue, IngestOk;
    if IngestOk(i) && !Known(db, i.idem) {
      SortedIdsOk(Targets(db, i));
      EnqueueStep(db, i, TargetIds(db, i), now);
    } else {
      EvolvesReflexive(db);
    }
  }
}

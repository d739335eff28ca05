/** The engine's own decision may arrive before or after the agent's result: the rows end the same. */
module EngineDecision {
  import opened Common
  import opened Domain
  import opened Positions
  import opened RunQueue
  import opened QueueInvariants
  import opened QueueSteps
  import opened QueueTheorems

  function LegacyRow(x: Run, legacy: Legacy, source: Source): Run {
    Recomputed(x.(legacy := Some(legacy)), source)
  }

  /** Every run of snapshot s gets the decision. */
  ghost function WithLegacy(db: Db, s: nat, legacy: Legacy): Db
    requires Linked(db)
  {
    db.(runs := map r | r in db.runs ::
          if db.runs[r].snap == s then LegacyRow(db.runs[r], legacy, SourceOf(db, r)) else db.runs[r])
  }

  /** The steps that write a proposal or a verdict, or end a run without one. */
  predicate WritesVerdict(op: Op) {
    op.Complete? || op.Fail? || op.AckCancel? || op.Cancel? || op.ReapLapsed? || op.ReapDue? || op.ReapAged?
  }

  // ----- each row update commutes with the arrival of the decision

  lemma WaitCommutes(x: Run, l: Legacy, src: Source, p: Decision, v: Validation, used: Usage, until: int)
    ensures WaitRow(LegacyRow(x, l, src), p, v, used, until, src)
         == LegacyRow(WaitRow(x, p, v, used, until, src), l, src)
  {
    hide CompareOf, AddUsage;
  }

  lemma SucceedCommutes(x: Run, l: Legacy, src: Source, p: Decision, v: Validation, used: Usage)
    ensures SucceedRow(LegacyRow(x, l, src), p, v, used, src) == LegacyRow(SucceedRow(x, p, v, used, src), l, src)
  {
    hide CompareOf, AddUsage;
  }

  lemma CancelCommutes(x: Run, l: Legacy, src: Source)
    ensures CancelRow(LegacyRow(x, l, src), src) == LegacyRow(CancelRow(x, src), l, src)
  {
    hide CompareOf;
  }

  lemma RequeueCommutes(x: Run, l: Legacy, src: Source, retryable: bool, now: int)
    requires 0 <= Used(x)
    ensures RequeueOrFail(LegacyRow(x, l, src), retryable, src, now)
         == LegacyRow(RequeueOrFail(x, retryable, src, now), l, src)
  {
    hide CompareOf, Backoff;
  }

  lemma LapseCommutes(x: Run, l: Legacy, src: Source, now: int)
    requires 0 <= Used(x)
    ensures LapseRow(LegacyRow(x, l, src), src, now) == LegacyRow(LapseRow(x, src, now), l, src)
  {
    CancelCommutes(x, l, src);
    RequeueCommutes(x, l, src, true, now);
    hide CompareOf, RequeueOrFail, CancelRow;
  }

  lemma WakeCommutes(x: Run, l: Legacy, src: Source, now: int)
    ensures WakeRow(LegacyRow(x, l, src), now) == LegacyRow(WakeRow(x, now), l, src)
    ensures Due(LegacyRow(x, l, src), now) == Due(x, now) && WakeRow(x, now).snap == x.snap
  {
    hide CompareOf;
  }

  lemma AgeCommutes(x: Run, l: Legacy, src: Source)
    ensures AgeRow(LegacyRow(x, l, src), src) == LegacyRow(AgeRow(x, src), l, src)
  {
    hide CompareOf;
  }

  // ----- each step commutes

  /** State e has the rows of d with the decision added. */
  ghost predicate Commutes(d: Db, e: Db, s: nat, legacy: Legacy) {
    && Linked(d) && e.attempts == d.attempts && e.runs == WithLegacy(d, s, legacy).runs
  }

  lemma FinishCommutes(db: Db, s: nat, legacy: Legacy, a: nat, st: AttemptStatus, used: Usage, x: Run, y: Run)
    requires Linked(db) && a in db.attempts && Linked(Finish(db, a, st, used, x))
    requires x.snap == RunOf(db, a).snap
    requires y == if x.snap == s then LegacyRow(x, legacy, SourceOf(db, db.attempts[a].run)) else x
    ensures Commutes(Finish(db, a, st, used, x), Finish(WithLegacy(db, s, legacy), a, st, used, y), s, legacy)
  {
    hide LegacyRow;
  }

  lemma SameLookups(db: Db, s: nat, legacy: Legacy, a: nat)
    requires Linked(db) && Linked(WithLegacy(db, s, legacy)) && a in db.attempts
    ensures var e := WithLegacy(db, s, legacy);
      && RunOf(db, a).snap == RunOf(e, a).snap && SourceOf(e, db.attempts[a].run) == SourceOf(db, db.attempts[a].run)
      && RunOf(e, a) == (if RunOf(db, a).snap == s
                         then LegacyRow(RunOf(db, a), legacy, SourceOf(db, db.attempts[a].run)) else RunOf(db, a))
      && AgentOf(e, a) == AgentOf(db, a) && RunOf(e, a).cancelRequested == RunOf(db, a).cancelRequested
      && RunOf(e, a).followupsUsed == RunOf(db, a).followupsUsed && Used(RunOf(e, a)) == Used(RunOf(db, a))
      && RunOf(e, a).agent == RunOf(db, a).agent
  {
    RunLinked(db, a);
    LegacyKeeps(RunOf(db, a), legacy, SourceOf(db, db.attempts[a].run));
    hide Linked, LegacyRow;
  }

  lemma FailCommutes(db: Db, s: nat, legacy: Legacy, a: nat, fence: nat, retryable: bool, now: int)
    requires Linked(db) && Linked(WithLegacy(db, s, legacy)) && Linked(FailDb(db, a, fence, retryable, now))
    ensures Commutes(FailDb(db, a, fence, retryable, now),
                     FailDb(WithLegacy(db, s, legacy), a, fence, retryable, now), s, legacy)
  {
    if Current(db, a, fence, now) {
      SameLookups(db, s, legacy, a);
      var x, src := RunOf(db, a), SourceOf(db, db.attempts[a].run);
      CancelCommutes(x, legacy, src);
      RequeueCommutes(x, legacy, src, retryable, now);
      var y := if x.cancelRequested then CancelRow(x, src) else RequeueOrFail(x, retryable, src, now);
      RetryKeepsSnap(x, src, retryable, now);
      hide Linked, WithLegacy, LegacyRow, CancelRow, RequeueOrFail, CompareOf, RunOf, Finish, Commutes;
      FinishCommutes(db, s, legacy, a, AttFailed, db.attempts[a].usage, y,
                     if y.snap == s then LegacyRow(y, legacy, src) else y);
    }
  }

  lemma RetryKeepsSnap(x: Run, src: Source, retryable: bool, now: int)
    requires 0 <= Used(x)
    ensures CancelRow(x, src).snap == x.snap && RequeueOrFail(x, retryable, src, now).snap == x.snap
  {
    hide CompareOf, Backoff;
  }

  lemma AckCommutes(db: Db, s: nat, legacy: Legacy, a: nat, fence: nat)
    requires Linked(db) && Linked(WithLegacy(db, s, legacy)) && Linked(AckCancelDb(db, a, fence))
    ensures Commutes(AckCancelDb(db, a, fence), AckCancelDb(WithLegacy(db, s, legacy), a, fence), s, legacy)
  {
    if Fenced(db, a, fence) && db.attempts[a].status.AttRunning? {
      SameLookups(db, s, legacy, a);
      var x, src := RunOf(db, a), SourceOf(db, db.attempts[a].run);
      CancelCommutes(x, legacy, src);
      RetryKeepsSnap(x, src, false, 0);
      var y := CancelRow(x, src);
      hide Linked, WithLegacy, LegacyRow, CancelRow, CompareOf, RunOf, Finish, Commutes;
      FinishCommutes(db, s, legacy, a, AttCancelled, db.attempts[a].usage, y,
                     if y.snap == s then LegacyRow(y, legacy, src) else y);
    }
  }

  /** The attempt's end and its run's row when the result arrives, on values. */
  function RowEnd(x: Run, at: Attempt, b: Budgets, s: Snapshot, i: CompleteInput, now: int,
                  clock: int): (AttemptStatus, Usage, Run) {
    var d := ProposalOf(i);
    var v := Judge(s, d, clock, b.freshnessSeconds * SECOND);
    if x.cancelRequested then (AttCancelled, at.usage, CancelRow(x, s.source))
    else if Waits(at, x.followupsUsed, b) then
      (AttWaiting, i.usage, WaitRow(x, d, v, i.usage, now + at.pendingWait.value * SECOND, s.source))
    else (AttSucceeded, i.usage, SucceedRow(x, d, v, i.usage, s.source))
  }

  lemma RowEndCommutes(x: Run, l: Legacy, at: Attempt, b: Budgets, s: Snapshot, i: CompleteInput, now: int, clock: int)
    ensures var t, u := RowEnd(x, at, b, s, i, now, clock), RowEnd(LegacyRow(x, l, s.source), at, b, s, i, now, clock);
      t.0 == u.0 && t.1 == u.1 && t.2.snap == x.snap && u.2 == LegacyRow(t.2, l, s.source)
  {
    var d := ProposalOf(i);
    var v := Judge(s, d, clock, b.freshnessSeconds * SECOND);
    CancelCommutes(x, l, s.source);
    WaitCommutes(x, l, s.source, d, v, i.usage, now + at.pendingWait.GetOr(0) * SECOND);
    SucceedCommutes(x, l, s.source, d, v, i.usage);
    SnapsKept(x, d, v, i.usage, now + at.pendingWait.GetOr(0) * SECOND, s.source);
    LegacyKeeps(x, l, s.source);
    hide LegacyRow, CancelRow, WaitRow, SucceedRow, Judge;
  }

  lemma LegacyKeeps(x: Run, l: Legacy, src: Source)
    ensures var y := LegacyRow(x, l, src);
      && y.cancelRequested == x.cancelRequested && y.followupsUsed == x.followupsUsed && y.snap == x.snap
      && y.agent == x.agent && Used(y) == Used(x)
  {
    hide CompareOf;
  }

  /** The attempt's end and its run's row, with the shadow book set aside. */
  ghost function Ended(db: Db, a: nat, i: CompleteInput, now: int, clock: int): (AttemptStatus, Usage, Run)
    requires Linked(db) && a in db.attempts
  {
    RowEnd(RunOf(db, a), db.attempts[a], AgentOf(db, a).budgets, db.snaps[RunOf(db, a).snap], i, now, clock)
  }

  lemma CompleteIs(db: Db, a: nat, fence: nat, i: CompleteInput, now: int, clock: int, host: int)
    requires Linked(db) && Current(db, a, fence, now)
    ensures var t, e := Ended(db, a, i, now, clock), CompleteDb(db, a, fence, i, now, clock, host);
      var f := Finish(db, a, t.0, t.1, t.2);
      e.runs == f.runs && e.attempts == f.attempts && e.agents == db.agents && e.snaps == db.snaps
  {
    RunLinked(db, a);
    hide Linked, BookDb, Judge, CancelRow, WaitRow, SucceedRow, Waits, AgentOf;
    var x := RunOf(db, a);
    var s, d := db.snaps[x.snap], ProposalOf(i);
    var v := Judge(s, d, clock, AgentOf(db, a).budgets.freshnessSeconds * SECOND);
    var e := Finish(db, a, AttSucceeded, i.usage, SucceedRow(x, d, v, i.usage, s.source));
    BookRuns(e, x.agent, db.attempts[a].run, s, d, v, now, clock, host);
    BookAttempts(e, x.agent, db.attempts[a].run, s, d, v, now, clock, host);
    BookTables(e, x.agent, db.attempts[a].run, s, d, v, now, clock, host);
  }

  lemma EndedCommutes(db: Db, s: nat, legacy: Legacy, a: nat, i: CompleteInput, now: int, clock: int)
    requires Linked(db) && Linked(WithLegacy(db, s, legacy)) && a in db.attempts
    ensures var t, u := Ended(db, a, i, now, clock), Ended(WithLegacy(db, s, legacy), a, i, now, clock);
      && t.0 == u.0 && t.1 == u.1 && t.2.snap == RunOf(db, a).snap
      && u.2 == if t.2.snap == s then LegacyRow(t.2, legacy, SourceOf(db, db.attempts[a].run)) else t.2
  {
    SameLookups(db, s, legacy, a);
    RunLinked(db, a);
    var x := RunOf(db, a);
    RowEndCommutes(x, legacy, db.attempts[a], AgentOf(db, a).budgets, db.snaps[x.snap], i, now, clock);
    hide Linked, LegacyRow, RowEnd, RunOf, AgentOf;
  }

  lemma SnapsKept(x: Run, p: Decision, v: Validation, used: Usage, until: int, src: Source)
    ensures WaitRow(x, p, v, used, until, src).snap == x.snap && SucceedRow(x, p, v, used, src).snap == x.snap
    ensures CancelRow(x, src).snap == x.snap
  {
    hide CompareOf, AddUsage;
  }

  lemma CompleteCommutes(db: Db, s: nat, legacy: Legacy, a: nat, fence: nat, i: CompleteInput, now: int, clock: int,
                         host: int)
    requires Linked(db) && Linked(WithLegacy(db, s, legacy)) && Linked(CompleteDb(db, a, fence, i, now, clock, host))
    ensures Commutes(CompleteDb(db, a, fence, i, now, clock, host),
                     CompleteDb(WithLegacy(db, s, legacy), a, fence, i, now, clock, host), s, legacy)
  {
    var l := WithLegacy(db, s, legacy);
    assert l.attempts == db.attempts;
    if Current(db, a, fence, now) {
      CompleteIs(db, a, fence, i, now, clock, host);
      CompleteIs(l, a, fence, i, now, clock, host);
      EndedCommutes(db, s, legacy, a, i, now, clock);
      hide CompleteDb, Ended, LegacyRow, RunOf, Finish, Linked, WithLegacy;
      var t, u := Ended(db, a, i, now, clock), Ended(l, a, i, now, clock);
      var f, g := Finish(db, a, t.0, t.1, t.2), Finish(l, a, u.0, u.1, u.2);
      FinishTables(db, a, t.0, t.1, t.2);
      SameRowsLinked(CompleteDb(db, a, fence, i, now, clock, host), f);
      FinishCommutes(db, s, legacy, a, t.0, t.1, t.2, u.2);
      Conclude(CompleteDb(db, a, fence, i, now, clock, host), CompleteDb(l, a, fence, i, now, clock, host), f, g,
               s, legacy);
    }
  }

  lemma FinishTables(db: Db, a: nat, st: AttemptStatus, used: Usage, x: Run)
    requires a in db.attempts
    ensures Finish(db, a, st, used, x).agents == db.agents && Finish(db, a, st, used, x).snaps == db.snaps
  {
  }

  lemma Conclude(d: Db, e: Db, f: Db, g: Db, s: nat, legacy: Legacy)
    requires Linked(d) && Commutes(f, g, s, legacy)
    requires d.runs == f.runs && d.attempts == f.attempts && d.snaps == f.snaps
    requires e.runs == g.runs && e.attempts == g.attempts
    ensures Commutes(d, e, s, legacy)
  {
    hide Linked, LegacyRow;
  }

  lemma SameRowsLinked(d: Db, f: Db)
    requires Linked(d) && d.runs == f.runs && d.attempts == f.attempts && d.agents == f.agents && d.snaps == f.snaps
    ensures Linked(f)
  {
  }

  lemma BookTables(db: Db, agent: nat, run: nat, s: Snapshot, d: Decision, v: Validation, now: int, clock: int,
                   host: int)
    ensures var e := BookDb(db, agent, run, s, d, v, now, clock, host); e.agents == db.agents && e.snaps == db.snaps
  {
    hide WakeIn, RunRow, WakeRowOps, WakeNote, OpenConflict, NewPosition;
  }

  /** Row by row: what state e holds for run r if it is d with the decision added. */
  ghost predicate RowCommutes(d: Db, e: Db, s: nat, legacy: Legacy, r: nat) {
    && r in d.runs && r in e.runs && d.runs[r].snap in d.snaps
    && e.runs[r] == if d.runs[r].snap == s then LegacyRow(d.runs[r], legacy, SourceOf(d, r)) else d.runs[r]
  }

  lemma RowsCommute(d: Db, e: Db, s: nat, legacy: Legacy)
    requires Linked(d) && e.attempts == d.attempts && e.runs.Keys == d.runs.Keys
    requires forall r <- d.runs :: RowCommutes(d, e, s, legacy, r)
    ensures Commutes(d, e, s, legacy)
  {
    hide Linked, LegacyRow;
    var w := WithLegacy(d, s, legacy);
    forall r <- d.runs ensures e.runs[r] == w.runs[r] {
      assert RowCommutes(d, e, s, legacy, r);
    }
  }

  lemma AskCommutes(x: Run, l: Legacy, src: Source)
    ensures LegacyRow(x, l, src).(cancelRequested := true) == LegacyRow(x.(cancelRequested := true), l, src)
  {
    hide CompareOf;
  }

  lemma SameCancel(db: Db, s: nat, legacy: Legacy, q: nat)
    requires Linked(db)
    ensures CancelAnswerOf(WithLegacy(db, s, legacy), q) == CancelAnswerOf(db, q)
  {
    hide Linked, CompareOf;
  }

  lemma CancelRowCommutes(db: Db, s: nat, legacy: Legacy, q: nat, r: nat)
    requires Linked(db) && Linked(WithLegacy(db, s, legacy)) && r in db.runs
    ensures RowCommutes(CancelDb(db, q), CancelDb(WithLegacy(db, s, legacy), q), s, legacy, r)
  {
    CancelledRow(db, q, r);
    CancelledRow(WithLegacy(db, s, legacy), q, r);
    SameCancel(db, s, legacy, q);
    var src := SourceOf(db, r);
    CancelCommutes(db.runs[r], legacy, src);
    AskCommutes(db.runs[r], legacy, src);
    EndsKeepSnap(db.runs[r], src);
    LegacySnap(db.runs[r], legacy, src);
    hide Linked, CancelRow, LegacyRow, CancelAnswerOf, CancelDb;
  }

  lemma LegacySnap(x: Run, l: Legacy, src: Source)
    ensures LegacyRow(x, l, src).snap == x.snap
  {
    hide CompareOf;
  }

  lemma CancelRunCommutes(db: Db, s: nat, legacy: Legacy, q: nat)
    requires Linked(db) && Linked(WithLegacy(db, s, legacy)) && Linked(CancelDb(db, q))
    ensures Commutes(CancelDb(db, q), CancelDb(WithLegacy(db, s, legacy), q), s, legacy)
  {
    CancelKeys(db, q);
    CancelKeys(WithLegacy(db, s, legacy), q);
    hide Linked, CancelRow, LegacyRow, RowCommutes, Commutes, CancelDb;
    var d, e := CancelDb(db, q), CancelDb(WithLegacy(db, s, legacy), q);
    forall r <- d.runs ensures RowCommutes(d, e, s, legacy, r) {
      CancelRowCommutes(db, s, legacy, q, r);
    }
    RowsCommute(d, e, s, legacy);
  }

  lemma EndsKeepSnap(x: Run, src: Source)
    ensures CancelRow(x, src).snap == x.snap && AgeRow(x, src).snap == x.snap
  {
    hide CompareOf;
  }

  lemma LapseRowCommutes(db: Db, s: nat, legacy: Legacy, dead: set<nat>, now: int, r: nat)
    requires Linked(db) && Linked(WithLegacy(db, s, legacy)) && r in db.runs
    ensures RowCommutes(LapseDb(db, dead, now), LapseDb(WithLegacy(db, s, legacy), dead, now), s, legacy, r)
  {
    LapseCommutes(db.runs[r], legacy, SourceOf(db, r), now);
    LapseSnap(db.runs[r], SourceOf(db, r), now);
    hide Linked, LapseRow, CompareOf;
  }

  lemma LapseRunsCommute(db: Db, s: nat, legacy: Legacy, dead: set<nat>, now: int)
    requires Linked(db) && Linked(WithLegacy(db, s, legacy)) && Linked(LapseDb(db, dead, now))
    ensures Commutes(LapseDb(db, dead, now), LapseDb(WithLegacy(db, s, legacy), dead, now), s, legacy)
  {
    hide Linked, LapseRow, LegacyRow, RowCommutes, Commutes, Owns;
    var d, e := LapseDb(db, dead, now), LapseDb(WithLegacy(db, s, legacy), dead, now);
    forall r <- d.runs ensures RowCommutes(d, e, s, legacy, r) {
      LapseRowCommutes(db, s, legacy, dead, now, r);
    }
    RowsCommute(d, e, s, legacy);
  }

  lemma LapseSnap(x: Run, src: Source, now: int)
    requires 0 <= Used(x)
    ensures LapseRow(x, src, now).snap == x.snap
  {
    RetryKeepsSnap(x, src, true, now);
    hide CancelRow, RequeueOrFail;
  }

  lemma DueRowCommutes(db: Db, s: nat, legacy: Legacy, now: int, r: nat)
    requires Linked(db) && Linked(WithLegacy(db, s, legacy)) && r in db.runs && db.runs[r].snap in db.snaps
    ensures RowCommutes(WakeDueDb(db, now), WakeDueDb(WithLegacy(db, s, legacy), now), s, legacy, r)
  {
    WakeCommutes(db.runs[r], legacy, SourceOf(db, r), now);
    hide Linked, WakeRow, LegacyRow, Due;
  }

  lemma DueRunsCommute(db: Db, s: nat, legacy: Legacy, now: int)
    requires Linked(db) && Linked(WithLegacy(db, s, legacy)) && Linked(WakeDueDb(db, now))
    ensures Commutes(WakeDueDb(db, now), WakeDueDb(WithLegacy(db, s, legacy), now), s, legacy)
  {
    RowsLinked(db);
    hide Linked, WakeRow, LegacyRow, RowCommutes, Commutes, Due;
    var d, e := WakeDueDb(db, now), WakeDueDb(WithLegacy(db, s, legacy), now);
    forall r <- d.runs ensures RowCommutes(d, e, s, legacy, r) {
      DueRowCommutes(db, s, legacy, now, r);
    }
    RowsCommute(d, e, s, legacy);
  }

  lemma RowsLinked(db: Db)
    requires Linked(db)
    ensures forall r <- db.runs :: db.runs[r].snap in db.snaps
  {
  }

  lemma AgeRowCommutes(db: Db, s: nat, legacy: Legacy, locked: set<nat>, now: int, r: nat)
    requires Linked(db) && Linked(WithLegacy(db, s, legacy)) && r in db.runs
    ensures RowCommutes(AgeDb(db, locked, now), AgeDb(WithLegacy(db, s, legacy), locked, now), s, legacy, r)
  {
    AgeCommutes(db.runs[r], legacy, SourceOf(db, r));
    EndsKeepSnap(db.runs[r], SourceOf(db, r));
    hide Linked, AgeRow, CompareOf;
  }

  lemma AgeRunsCommute(db: Db, s: nat, legacy: Legacy, locked: set<nat>, now: int)
    requires Linked(db) && Linked(WithLegacy(db, s, legacy)) && Linked(AgeDb(db, locked, now))
    ensures Commutes(AgeDb(db, locked, now), AgeDb(WithLegacy(db, s, legacy), locked, now), s, legacy)
  {
    hide Linked, AgeRow, LegacyRow, RowCommutes, Commutes, Aged;
    var d, e := AgeDb(db, locked, now), AgeDb(WithLegacy(db, s, legacy), locked, now);
    forall r <- d.runs ensures RowCommutes(d, e, s, legacy, r) {
      AgeRowCommutes(db, s, legacy, locked, now, r);
    }
    RowsCommute(d, e, s, legacy);
  }

  lemma StepCommutes(db: Db, op: Op, s: nat, legacy: Legacy)
    requires Linked(db) && Linked(WithLegacy(db, s, legacy)) && WritesVerdict(op) && Linked(Apply(db, op))
    ensures Commutes(Apply(db, op), Apply(WithLegacy(db, s, legacy), op), s, legacy)
  {
    hide Linked, WithLegacy, Commutes, CompleteDb, FailDb, AckCancelDb, CancelDb, LapseDb, WakeDueDb, AgeDb;
    match op
    case Complete(a, f, i, now, clock, host) => CompleteCommutes(db, s, legacy, a, f, i, now, clock, host);
    case Fail(a, f, retryable, now) => FailCommutes(db, s, legacy, a, f, retryable, now);
    case AckCancel(a, f) => AckCommutes(db, s, legacy, a, f);
    case Cancel(r) => CancelRunCommutes(db, s, legacy, r);
    case ReapLapsed(locked, now) =>
      SameDead(db, s, legacy, locked, now);
      LapseRunsCommute(db, s, legacy, Dead(db, locked, now), now);
    case ReapDue(now) => DueRunsCommute(db, s, legacy, now);
    case ReapAged(locked, now) => AgeRunsCommute(db, s, legacy, locked, now);
  }

  lemma SameDead(db: Db, s: nat, legacy: Legacy, locked: set<nat>, now: int)
    requires Linked(db)
    ensures Dead(WithLegacy(db, s, legacy), locked, now) == Dead(db, locked, now)
  {
  }

  // ----- the tables besides the runs and attempts

  predicate Alike(d: Db, e: Db) {
    && d.agents == e.agents && d.snaps == e.snaps && d.positions == e.positions && d.events == e.events
    && d.nextSnap == e.nextSnap && d.nextRun == e.nextRun && d.nextAttempt == e.nextAttempt
    && d.nextFence == e.nextFence && d.nextPosition == e.nextPosition
  }

  predicate OneHolder(db: Db) {
    forall p, q :: p in db.positions && q in db.positions && p != q
                   && db.positions[p].agent == db.positions[q].agent ==>
      db.positions[p].status != Live || db.positions[q].status != Live
  }

  lemma OneHolderOf(db: Db)
    requires BookOk(db)
    ensures OneHolder(db)
  {
  }

  lemma ConflictAlike(d: Db, e: Db, agent: nat, run: nat)
    requires d.positions == e.positions
    ensures OpenConflict(d, agent, run) == OpenConflict(e, agent, run)
    ensures forall p :: HoldsOpen(d, agent, p) == HoldsOpen(e, agent, p)
  {
  }

  lemma HolderAlike(d: Db, agent: nat, p: int, q: int)
    requires OneHolder(d) && HoldsOpen(d, agent, p) && HoldsOpen(d, agent, q)
    ensures p == q
  {
  }

  /** Whose position a refused entry is noted on does not depend on the runs. */
  lemma OpenAlike(d: Db, e: Db, agent: nat, run: nat, s: Snapshot, p: Decision, price: real, at: int, now: int)
    requires Alike(d, e) && OneHolder(d)
    ensures Alike(OpenDb(d, agent, run, s, p, price, at, now), OpenDb(e, agent, run, s, p, price, at, now))
  {
    hide NewPosition, OneHolder, OpenConflict, HoldsOpen;
    ConflictAlike(d, e, agent, run);
    if OpenConflict(d, agent, run) && exists q :: HoldsOpen(d, agent, q) {
      var x :| HoldsOpen(d, agent, x);
      forall q | HoldsOpen(d, agent, q) ensures q == x {
        HolderAlike(d, agent, q, x);
      }
    }
  }

  lemma WakeAlike(d: Db, e: Db, run: nat, w: WakePosition, p: Decision, price: real, at: int, now: int)
    requires Alike(d, e) && w.id in d.positions && w.id in e.positions
    ensures Alike(ApplyWakeDb(d, run, w, p, price, at, now), ApplyWakeDb(e, run, w, p, price, at, now))
  {
    hide WakeRowOps, WakeNote, RunRow;
  }

  lemma BookAlike(d: Db, e: Db, agent: nat, run: nat, s: Snapshot, p: Decision, v: Validation, now: int, clock: int,
                  host: int)
    requires Alike(d, e) && OneHolder(d)
    ensures Alike(BookDb(d, agent, run, s, p, v, now, clock, host), BookDb(e, agent, run, s, p, v, now, clock, host))
  {
    hide OpenDb, ApplyWakeDb, WakeIn;
    OpenAlike(d, e, agent, run, s, p, v.priceUsed, clock, now);
    if WakeIn(s).Some? && WakeIn(s).value.id in d.positions {
      WakeAlike(d, e, run, WakeIn(s).value, p, v.priceUsed, host, now);
    }
  }

  lemma FinishAlike(db: Db, a: nat, st: AttemptStatus, used: Usage, x: Run)
    requires a in db.attempts
    ensures Alike(Finish(db, a, st, used, x), db)
  {
  }

  /** What a completion does to the tables besides the runs and attempts, told from a state alike. */
  lemma CompleteBesides(db: Db, a: nat, fence: nat, i: CompleteInput, now: int, clock: int, host: int, e: Db)
    requires Linked(db) && Current(db, a, fence, now) && Alike(e, db) && OneHolder(e)
    ensures RunOf(db, a).snap in db.snaps
    ensures var x, s, b := RunOf(db, a), db.snaps[RunOf(db, a).snap], AgentOf(db, a).budgets;
      var v := Judge(s, ProposalOf(i), clock, b.freshnessSeconds * SECOND);
      Alike(if x.cancelRequested || Waits(db.attempts[a], x.followupsUsed, b) then e
            else BookDb(e, x.agent, db.attempts[a].run, s, ProposalOf(i), v, now, clock, host),
            CompleteDb(db, a, fence, i, now, clock, host))
  {
    RunLinked(db, a);
    hide Linked, BookDb, Judge, CancelRow, WaitRow, SucceedRow, Waits, Finish, OneHolder;
    var x, at, s := RunOf(db, a), db.attempts[a], db.snaps[RunOf(db, a).snap];
    var d, v := ProposalOf(i), Judge(s, ProposalOf(i), clock, AgentOf(db, a).budgets.freshnessSeconds * SECOND);
    FinishAlike(db, a, AttCancelled, at.usage, CancelRow(x, s.source));
    if at.pendingWait.Some? {
      FinishAlike(db, a, AttWaiting, i.usage, WaitRow(x, d, v, i.usage, now + at.pendingWait.value * SECOND, s.source));
    }
    var y := SucceedRow(x, d, v, i.usage, s.source);
    FinishAlike(db, a, AttSucceeded, i.usage, y);
    BookAlike(e, Finish(db, a, AttSucceeded, i.usage, y), x.agent, at.run, s, d, v, now, clock, host);
    WaitsPending(at, x.followupsUsed, AgentOf(db, a).budgets);
  }

  lemma WaitsPending(at: Attempt, followupsUsed: int, b: Budgets)
    ensures Waits(at, followupsUsed, b) ==> at.pendingWait.Some?
  {
  }

  lemma CompleteAlike(db: Db, s: nat, legacy: Legacy, a: nat, fence: nat, i: CompleteInput, now: int, clock: int,
                      host: int)
    requires Linked(db) && Linked(WithLegacy(db, s, legacy)) && OneHolder(db)
    ensures Alike(CompleteDb(db, a, fence, i, now, clock, host),
                  CompleteDb(WithLegacy(db, s, legacy), a, fence, i, now, clock, host))
  {
    var l := WithLegacy(db, s, legacy);
    LegacyAlike(db, s, legacy);
    if Current(db, a, fence, now) {
      SameLookups(db, s, legacy, a);
      CompleteBesides(db, a, fence, i, now, clock, host, db);
      CompleteBesides(l, a, fence, i, now, clock, host, db);
      hide CompleteDb, Linked, WithLegacy, LegacyRow, RunOf, AgentOf, Waits, Judge, BookDb, OneHolder;
    }
  }

  lemma LegacyAlike(db: Db, s: nat, legacy: Legacy)
    requires Linked(db)
    ensures Alike(db, WithLegacy(db, s, legacy)) && WithLegacy(db, s, legacy).attempts == db.attempts
  {
    hide Linked, LegacyRow;
  }

  lemma OthersAlike(db: Db, op: Op)
    requires Linked(db) && WritesVerdict(op) && !op.Complete?
    ensures Alike(Apply(db, op), db)
  {
    hide Linked, RequeueOrFail, CancelRow, LapseRow, AgeRow, WakeRow, Owns, Dead, Aged, Due, SourceOf, RunOf;
  }

  /** No step sees the decision in what it does to the other tables. */
  lemma StepAlike(db: Db, op: Op, s: nat, legacy: Legacy)
    requires Linked(db) && Linked(WithLegacy(db, s, legacy)) && BookOk(db) && WritesVerdict(op)
    ensures Alike(Apply(WithLegacy(db, s, legacy), op), Apply(db, op))
  {
    hide Linked, BookOk, OneHolder, WithLegacy, CompleteDb;
    OneHolderOf(db);
    if op.Complete? {
      CompleteAlike(db, s, legacy, op.attempt, op.fence, op.result, op.now, op.clock, op.host);
    } else {
      hide Apply;
      OthersAlike(db, op);
      OthersAlike(WithLegacy(db, s, legacy), op);
      LegacyAlike(db, s, legacy);
    }
  }

  // ----- either order

  lemma LegacyIs(db: Db, idem: string, legacy: Legacy)
    requires Linked(db)
    ensures SetLegacyDb(db, idem, legacy) == if Known(db, idem) then WithLegacy(db, SnapOf(db, idem), legacy) else db
  {
    hide Linked, CompareOf;
  }

  lemma SameSnaps(db: Db, op: Op)
    requires Linked(db) && WritesVerdict(op)
    ensures Apply(db, op).snaps == db.snaps
  {
    hide Linked, CompareOf, RequeueOrFail, CancelRow;
    if op.Complete? && Current(db, op.attempt, op.fence, op.now) {
      CompleteIs(db, op.attempt, op.fence, op.result, op.now, op.clock, op.host);
      hide CompleteDb;
    }
  }

  lemma SameSnap(db: Db, d: Db, idem: string)
    requires Inv(db) && Inv(d) && d.snaps == db.snaps && Known(db, idem)
    ensures Known(d, idem) && SnapOf(d, idem) == SnapOf(db, idem)
  {
    hide Inv;
    IdemUnique(d, SnapOf(db, idem), idem);
  }

  lemma SameState(d: Db, e: Db)
    requires d.runs == e.runs && d.attempts == e.attempts && Alike(d, e)
    ensures d == e
  {
  }

  /** Whichever comes first, the agent's result (or the failure, cancellation or expiry that ends its
      run) or the engine's own decision: the whole state ends the same, every run with its stored
      comparison, every attempt, and the shadow book with its events. */
  lemma EitherOrder(db: Db, op: Op, idem: string, legacy: Legacy)
    requires Inv(db) && Linked(db) && WritesVerdict(op)
    ensures Linked(Apply(db, op)) && Linked(SetLegacyDb(db, idem, legacy))
    ensures var resultFirst := SetLegacyDb(Apply(db, op), idem, legacy);
      var engineFirst := Apply(SetLegacyDb(db, idem, legacy), op);
      engineFirst == resultFirst
  {
    hide Inv, Evolves, Linked, Apply, SetLegacyDb, LegacyRow, Known;
    var d := Apply(db, op);
    BookOf(db);
    StepKeeps(db, op);
    SetLegacyStep(db, idem, legacy);
    LinkedOf(d);
    LinkedOf(SetLegacyDb(db, idem, legacy));
    SameSnaps(db, op);
    LegacyIs(db, idem, legacy);
    LegacyIs(d, idem, legacy);
    SameKnown(db, d, idem);
    if Known(db, idem) {
      SameSnap(db, d, idem);
      StepCommutes(db, op, SnapOf(db, idem), legacy);
      StepAlike(db, op, SnapOf(db, idem), legacy);
      LegacyAlike(d, SnapOf(db, idem), legacy);
      AlikeThrough(Apply(SetLegacyDb(db, idem, legacy), op), d, SetLegacyDb(d, idem, legacy));
      hide *;
      SameState(Apply(SetLegacyDb(db, idem, legacy), op), SetLegacyDb(d, idem, legacy));
    }
  }

  lemma AlikeThrough(c: Db, d: Db, e: Db)
    requires Alike(c, d) && Alike(d, e)
    ensures Alike(c, e)
  {
  }

  lemma SameKnown(db: Db, d: Db, idem: string)
    requires d.snaps == db.snaps
    ensures Known(d, idem) <==> Known(db, idem)
  {
  }
}

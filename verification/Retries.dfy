/** When a run is tried again: after a failed attempt and after a lapsed lease, in the columns of its row. */
module Retries {
  import opened Common
  import opened Domain
  import opened RunQueue
  import opened QueueInvariants
  import opened QueueSteps
  import opened QueueTheorems

  // ----- one row

  /** Tries so far, follow-ups not counted. */
  function Tries(x: Run): int {
    x.attemptsMade - x.followupsUsed
  }

  /** The row of an uncancelled run after an attempt failed: queued again exactly if the failure may be
      retried and tries are left, in at least four seconds, four on the first try, with its verdict as
      it was; otherwise failed with the fail-safe hold. */
  ghost predicate TriedAgain(x: Run, y: Run, retryable: bool, now: int) {
    && 1 <= Tries(x)
    && (y.status.Queued? <==> retryable && Tries(x) < x.maxAttempts)
    && (y.status.Queued? ==>
          && y.runAfter == now + Backoff(Tries(x)) >= now + 4 * SECOND
          && (Tries(x) == 1 ==> y.runAfter == now + 4 * SECOND)
          && y.proposal == x.proposal && y.validation == x.validation)
    && (!y.status.Queued? ==>
          && y.status.Failed? && y.proposal.Some? && y.proposal.value.action.Hold?
          && y.validation == Some(Validation(true, [], 0.0)))
    && y.attemptsMade == x.attemptsMade && y.followupsUsed == x.followupsUsed && y.maxAttempts == x.maxAttempts
    && y.usage == x.usage
  }

  lemma RowTriedAgain(x: Run, retryable: bool, src: Source, now: int)
    requires 1 <= Tries(x)
    ensures TriedAgain(x, RequeueOrFail(x, retryable, src, now), retryable, now)
  {
    hide CompareOf;
    Pow2Grows(Tries(x));
    assert Pow2(1) == 2;
  }

  // ----- a failed attempt

  /** The run of a running attempt has used between one try and all of them. */
  lemma RunningTries(db: Db, a: nat)
    requires Inv(db) && Linked(db) && a in db.attempts && db.attempts[a].status.AttRunning?
    ensures var r := db.attempts[a].run;
      r in db.runs && db.runs[r].snap in db.snaps && 1 <= Tries(db.runs[r]) <= db.runs[r].maxAttempts
  {
    hide Inv, Backoff, AttsOf;
    RunLinked(db, a);
    BackoffShift(db, a);
  }

  lemma FailRow(db: Db, a: nat, fence: nat, retryable: bool, now: int)
    requires Linked(db) && Current(db, a, fence, now)
    requires db.attempts[a].run in db.runs && db.runs[db.attempts[a].run].snap in db.snaps
    requires 0 <= Used(db.runs[db.attempts[a].run])
    ensures var r, d := db.attempts[a].run, FailDb(db, a, fence, retryable, now);
      && r in d.runs && a in d.attempts && d.attempts[a].status.AttFailed?
      && d.runs[r] == if db.runs[r].cancelRequested then CancelRow(db.runs[r], SourceOf(db, r))
                      else RequeueOrFail(db.runs[r], retryable, SourceOf(db, r), now)
  {
    hide Linked, CancelRow, RequeueOrFail, Current;
  }

  /** A call that reports failure inside its lease. */
  lemma FailedCall(db: Db, a: nat, fence: nat, retryable: bool, now: int)
    requires Inv(db) && Linked(db) && a in db.attempts
    requires db.attempts[a].fence == fence && db.attempts[a].status.AttRunning? && db.attempts[a].leaseUntil > now
    ensures var r, d := db.attempts[a].run, Apply(db, Fail(a, fence, retryable, now));
      && r in db.runs && r in d.runs && a in d.attempts && d.attempts[a].status.AttFailed?
      && (db.runs[r].cancelRequested ==> d.runs[r].status.Cancelled?)
      && (!db.runs[r].cancelRequested ==> TriedAgain(db.runs[r], d.runs[r], retryable, now))
  {
    hide Inv, Linked, RequeueOrFail, FailDb, TriedAgain;
    var r := db.attempts[a].run;
    RunningTries(db, a);
    FailRow(db, a, fence, retryable, now);
    RowTriedAgain(db.runs[r], retryable, SourceOf(db, r), now);
    ApplyFail(db, a, fence, retryable, now);
    hide Apply;
  }

  lemma ApplyFail(db: Db, a: nat, fence: nat, retryable: bool, now: int)
    requires Linked(db)
    ensures Apply(db, Fail(a, fence, retryable, now)) == FailDb(db, a, fence, retryable, now)
  {
    hide Linked, FailDb;
  }

  // ----- a lapsed lease

  /** The attempts the reaper ends: running, past their lease, and not locked elsewhere. */
  predicate LeaseRanOut(t: Attempt, now: int) {
    t.status.AttRunning? && t.leaseUntil < now
  }

  lemma LapseRows(db: Db, locked: set<nat>, now: int, a: nat)
    requires Linked(db) && a in db.attempts && db.attempts[a].run in db.runs
    requires db.runs[db.attempts[a].run].snap in db.snaps && 0 <= Used(db.runs[db.attempts[a].run])
    ensures var r, d := db.attempts[a].run, LapseDb(db, Dead(db, locked, now), now);
      && a in d.attempts && r in d.runs
      && (if LeaseRanOut(db.attempts[a], now) && a !in locked
          then d.attempts[a].status.AttExpired? && d.runs[r] == LapseRow(db.runs[r], SourceOf(db, r), now)
          else d.attempts[a] == db.attempts[a])
  {
    hide LapseRow, Linked;
    assert LeaseRanOut(db.attempts[a], now) && a !in locked ==> a in Dead(db, locked, now);
  }

  /** The reaper ends exactly the running, unlocked attempts past their lease; their runs end cancelled
      if asked to, and are tried again like after a failure that may be retried. */
  lemma LapsedLease(db: Db, locked: set<nat>, now: int, a: nat)
    requires Inv(db) && Linked(db) && a in db.attempts
    ensures var r, d := db.attempts[a].run, Apply(db, ReapLapsed(locked, now));
      && r in db.runs && r in d.runs && a in d.attempts
      && (if db.attempts[a].status.AttRunning? && db.attempts[a].leaseUntil < now && a !in locked
          then
            && d.attempts[a].status.AttExpired?
            && (db.runs[r].cancelRequested ==> d.runs[r].status.Cancelled?)
            && (!db.runs[r].cancelRequested ==> TriedAgain(db.runs[r], d.runs[r], true, now))
          else d.attempts[a] == db.attempts[a])
  {
    hide Inv, Linked, RequeueOrFail, LapseDb, Dead, TriedAgain;
    var r := db.attempts[a].run;
    RunLinked(db, a);
    UsedOf(db, r);
    LapseRows(db, locked, now, a);
    if db.attempts[a].status.AttRunning? {
      RunningTries(db, a);
      RowTriedAgain(db.runs[r], true, SourceOf(db, r), now);
    }
    ApplyLapse(db, locked, now);
    hide Apply;
  }

  lemma ApplyLapse(db: Db, locked: set<nat>, now: int)
    requires Linked(db)
    ensures Apply(db, ReapLapsed(locked, now)) == LapseDb(db, Dead(db, locked, now), now)
  {
    hide Linked, LapseDb, Dead;
  }

  // ----- histories

  /** The run, if it failed, has used all its tries. */
  predicate TriesGone(x: Run) {
    x.status.Failed? ==> Tries(x) >= x.maxAttempts
  }

  /** Every failed run has. */
  ghost predicate AllTriesGone(db: Db) {
    forall r <- db.runs :: TriesGone(db.runs[r])
  }

  lemma RewriteSpent(x: Run, y: Run, src: Source, op: Op)
    requires RowRewrite(x, y, src, op) && TriesGone(x) && (op.Fail? ==> op.retryable)
    ensures TriesGone(y)
  {
    hide CompareOf, Backoff;
  }

  lemma OldRowSpent(db: Db, op: Op, r: nat)
    requires Linked(db) && r in db.runs && TriesGone(db.runs[r]) && (op.Fail? ==> op.retryable)
    requires !op.Complete? && !op.Ingest? && !op.Reconcile?
    ensures r in Apply(db, op).runs && TriesGone(Apply(db, op).runs[r])
  {
    hide Linked, Apply;
    if RewritesRuns(op) {
      UsedOf(db, r);
      Rewrites(db, op, r);
      hide *;
      RewriteSpent(db.runs[r], Apply(db, op).runs[r], SourceOf(db, r), op);
    } else if op.Claim? {
      ClaimedRow(db, op, r);
    } else {
      RunsLeft(db, op);
    }
  }

  lemma CompletedSpent(db: Db, a: nat, fence: nat, i: CompleteInput, now: int, clock: int, host: int, r: nat)
    requires Linked(db) && r in db.runs && TriesGone(db.runs[r])
    ensures var d := CompleteDb(db, a, fence, i, now, clock, host); r in d.runs && TriesGone(d.runs[r])
  {
    hide BookDb, Judge, CompareOf, AddUsage, Waits;
    if Current(db, a, fence, now) {
      RunLinked(db, a);
      hide Linked;
      var x := RunOf(db, a);
      var s, d := db.snaps[x.snap], ProposalOf(i);
      var v := Judge(s, d, clock, AgentOf(db, a).budgets.freshnessSeconds * SECOND);
      var e := Finish(db, a, AttSucceeded, i.usage, SucceedRow(x, d, v, i.usage, s.source));
      BookRuns(e, x.agent, db.attempts[a].run, s, d, v, now, clock, host);
    }
  }

  lemma IngestSpent(db: Db, i: IngestInput, now: int, r: nat)
    requires r in IngestDb(db, i, now).runs && (forall q <- db.runs :: q < db.nextRun)
    requires forall q <- db.runs :: TriesGone(db.runs[q])
    ensures TriesGone(IngestDb(db, i, now).runs[r])
  {
    hide IngestOk, Known, TriggerOf, TriesGone;
    if r in db.runs {
      FollowupIngest(db, i, now, r);
    } else if IngestOk(i) && !Known(db, i.idem) {
      NewSpent(db, i, TargetIds(db, i), now, r);
    }
  }

  lemma NewSpent(db: Db, i: IngestInput, ids: seq<nat>, now: int, r: nat)
    requires (forall a <- ids :: a in db.agents) && r !in db.runs && r in Enqueue(db, i, ids, now).runs
    ensures TriesGone(Enqueue(db, i, ids, now).runs[r])
  {
    hide TriggerOf, WithDefaults;
  }

  lemma IdsBelow(db: Db)
    requires Inv(db)
    ensures forall r <- db.runs :: r < db.nextRun
  {
    hide Linked, AttemptsOk, SnapsOk, FanOk, AgentsOk, BookOk, RunOk;
  }

  lemma StepSpent(db: Db, op: Op)
    requires Inv(db) && Linked(db) && AllTriesGone(db) && (op.Fail? ==> op.retryable)
    ensures AllTriesGone(Apply(db, op))
  {
    hide Inv, Linked, TriesGone;
    IdsBelow(db);
    var d := Apply(db, op);
    forall r <- d.runs ensures TriesGone(d.runs[r]) {
      hide Apply;
      StepRowSpent(db, op, r);
    }
  }

  lemma StepRowSpent(db: Db, op: Op, r: nat)
    requires Inv(db) && Linked(db) && AllTriesGone(db) && (op.Fail? ==> op.retryable) && r in Apply(db, op).runs
    requires forall q <- db.runs :: q < db.nextRun
    ensures TriesGone(Apply(db, op).runs[r])
  {
    hide Inv, Linked, TriesGone, IngestDb, CompleteDb, ReconcileDb;
    if op.Ingest? {
      IngestSpent(db, op.input, op.now, r);
    } else {
      NoNewRun(db, op, r);
      if op.Complete? {
        CompletedSpent(db, op.attempt, op.fence, op.result, op.now, op.clock, op.host, r);
      } else if op.Reconcile? {
        FollowupReconcile(db, op.position, op.now);
      } else {
        hide Apply;
        OldRowSpent(db, op, r);
      }
    }
  }

  lemma CallKeys(db: Db, op: Op)
    requires Linked(db) && (op.Fail? || op.AckCancel?)
    ensures Apply(db, op).runs.Keys == db.runs.Keys
  {
    hide CancelRow, RequeueOrFail;
    if op.attempt in db.attempts {
      RunLinked(db, op.attempt);
    }
    hide Linked;
  }

  lemma LegacyKeys(db: Db, idem: string, legacy: Legacy)
    requires Linked(db)
    ensures SetLegacyDb(db, idem, legacy).runs.Keys == db.runs.Keys
  {
    hide Linked, Recomputed, Known;
  }

  lemma ReapKeys(db: Db, dead: set<nat>, locked: set<nat>, now: int)
    requires Linked(db)
    ensures LapseDb(db, dead, now).runs.Keys == db.runs.Keys && WakeDueDb(db, now).runs.Keys == db.runs.Keys
    ensures AgeDb(db, locked, now).runs.Keys == db.runs.Keys
  {
    hide Linked, LapseRow, AgeRow, WakeRow, Owns, Due, Aged;
  }

  lemma OtherKeys(db: Db, op: Op)
    requires Linked(db) && RewritesRuns(op) && !op.Fail? && !op.AckCancel?
    ensures Apply(db, op).runs.Keys == db.runs.Keys
  {
    hide Linked, SetLegacyDb, CancelDb, LapseDb, WakeDueDb, AgeDb, Dead;
    match op
    case SetLegacy(idem, legacy) => LegacyKeys(db, idem, legacy);
    case Cancel(r) => CancelKeys(db, r);
    case ReapLapsed(locked, now) => ReapKeys(db, Dead(db, locked, now), locked, now);
    case ReapDue(now) => ReapKeys(db, {}, {}, now);
    case ReapAged(locked, now) => ReapKeys(db, {}, locked, now);
  }

  lemma NoNewRun(db: Db, op: Op, r: nat)
    requires Linked(db) && !op.Ingest? && r in Apply(db, op).runs
    ensures r in db.runs
  {
    hide Linked, CompleteDb, ReconcileDb;
    if op.Complete? {
      CompleteRunKeys(db, op.attempt, op.fence, op.result, op.now, op.clock, op.host);
    } else if op.Reconcile? {
      FollowupReconcile(db, op.position, op.now);
    } else {
      hide Apply;
      if op.Claim? {
        ClaimKeys(db, op);
      } else if LeavesRuns(op) {
        RunsLeft(db, op);
      } else if op.Fail? || op.AckCancel? {
        CallKeys(db, op);
      } else {
        OtherKeys(db, op);
      }
    }
  }

  lemma ClaimKeys(db: Db, op: Op)
    requires Linked(db) && op.Claim?
    ensures Apply(db, op).runs.Keys == db.runs.Keys
  {
    hide First, ClaimRow;
  }

  lemma CompleteRunKeys(db: Db, a: nat, fence: nat, i: CompleteInput, now: int, clock: int, host: int)
    requires Linked(db)
    ensures CompleteDb(db, a, fence, i, now, clock, host).runs.Keys == db.runs.Keys
  {
    hide BookDb, Judge, CompareOf, AddUsage, Waits;
    if Current(db, a, fence, now) {
      RunLinked(db, a);
      hide Linked;
      var x := RunOf(db, a);
      var s, d := db.snaps[x.snap], ProposalOf(i);
      var v := Judge(s, d, clock, AgentOf(db, a).budgets.freshnessSeconds * SECOND);
      var e := Finish(db, a, AttSucceeded, i.usage, SucceedRow(x, d, v, i.usage, s.source));
      BookRuns(e, x.agent, db.attempts[a].run, s, d, v, now, clock, host);
    }
  }

  /** As long as workers report only failures that may be retried, whatever leases lapse, no run fails
      before it has used all its tries. */
  lemma {:induction false} NoneFailsEarly(db: Db, ops: seq<Op>)
    requires Inv(db) && AllTriesGone(db) && forall op <- ops :: op.Fail? ==> op.retryable
    ensures AllTriesGone(Exec(db, ops))
    decreases |ops|
  {
    hide Inv, Linked, Apply, AllTriesGone, Evolves;
    if ops != [] {
      LinkedOf(db);
      StepKeeps(db, ops[0]);
      StepSpent(db, ops[0]);
      NoneFailsEarly(Apply(db, ops[0]), ops[1..]);
    }
  }
}

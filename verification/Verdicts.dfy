/** Which verdict a repeated completion is answered with. A run keeps one verdict; a follow-up's
    completion, a failure or an expiry overwrites it, so the answer is not always the caller's own. */
module Verdicts {
  import opened Common
  import opened Domain
  import opened Positions
  import opened RunQueue
  import opened QueueInvariants
  import opened QueueSteps
  import opened QueueTheorems

  // ----- who wrote the verdict

  /** A run that failed or expired carries the fail-safe verdict. */
  predicate Overwritten(s: RunStatus) {
    s.Failed? || s.Expired?
  }

  /** Attempt b was completed, as waiting or succeeded, between the two states. */
  ghost predicate Spends(db: Db, d: Db, b: nat) {
    b in d.attempts && Spent(d.attempts[b].status) && !(b in db.attempts && Spent(db.attempts[b].status))
  }

  /** The verdicts of the attempts completed between the two states. */
  ghost function NewVerdicts(db: Db, d: Db): map<nat, Option<Validation>>
    requires Linked(d)
  {
    map b | b in d.attempts && Spends(db, d, b) :: d.runs[d.attempts[b].run].validation
  }

  /** The verdict each completion of a history recorded, by attempt. */
  ghost function Recorded(db: Db, ops: seq<Op>): map<nat, Option<Validation>>
    requires Inv(db)
    decreases |ops|
  {
    if ops == [] then map[]
    else
      StepKeeps(db, ops[0]);
      var d := Apply(db, ops[0]);
      LinkedOf(d);
      NewVerdicts(db, d) + Recorded(d, ops[1..])
  }

  ghost predicate SpentSince(db: Db, d: Db, r: nat, b: nat) {
    Spends(db, d, b) && d.attempts[b].run == r
  }

  ghost predicate NoneSince(db: Db, d: Db, r: nat) {
    forall b :: !SpentSince(db, d, r, b)
  }

  ghost predicate LatestSince(db: Db, d: Db, r: nat, b: nat) {
    SpentSince(db, d, r, b) && forall c :: SpentSince(db, d, r, c) ==> d.attempts[c].no <= d.attempts[b].no
  }

  /** The run's verdict in d against the one in db: the fail-safe if the run failed or expired since,
      else the one the latest completion since recorded, else the old one. */
  ghost predicate Explained(db: Db, d: Db, r: nat, v: map<nat, Option<Validation>>) {
    && r in db.runs && r in d.runs
    && var x, y := db.runs[r], d.runs[r];
    if Overwritten(y.status) && !Overwritten(x.status) then y.validation == Some(FAILSAFE)
    else
      && (forall b :: LatestSince(db, d, r, b) ==> b in v && y.validation == v[b])
      && (NoneSince(db, d, r) ==> y.validation == x.validation)
  }

  // ----- one step

  /** What a step other than a completion does to a run's verdict. */
  predicate QuietVerdict(x: Run, y: Run) {
    || (y.validation == x.validation && (Overwritten(y.status) ==> Overwritten(x.status)))
    || (y.validation == Some(FAILSAFE) && Overwritten(y.status))
  }

  lemma OtherVerdict(db: Db, op: Op, r: nat)
    requires Linked(db) && r in db.runs && !op.Complete? && !op.Ingest? && !op.Reconcile?
    ensures r in Apply(db, op).runs && QuietVerdict(db.runs[r], Apply(db, op).runs[r])
  {
    hide Linked, Apply;
    if RewritesRuns(op) {
      UsedOf(db, r);
      Rewrites(db, op, r);
      hide *;
      RowVerdict(db.runs[r], Apply(db, op).runs[r], SourceOf(db, r), op);
    } else if op.Claim? {
      ClaimedRow(db, op, r);
    } else {
      RunsLeft(db, op);
    }
  }

  lemma EndVerdict(x: Run, src: Source)
    ensures QuietVerdict(x, CancelRow(x, src)) && QuietVerdict(x, AgeRow(x, src))
  {
    hide CompareOf;
  }

  lemma RetryVerdict(x: Run, retryable: bool, src: Source, now: int)
    requires 0 <= Used(x)
    ensures QuietVerdict(x, RequeueOrFail(x, retryable, src, now)) && QuietVerdict(x, LapseRow(x, src, now))
  {
    hide CompareOf, Backoff, Retries;
  }

  lemma RowVerdict(x: Run, y: Run, src: Source, op: Op)
    requires RowRewrite(x, y, src, op)
    ensures QuietVerdict(x, y)
  {
    EndVerdict(x, src);
    if 0 <= Used(x) && (op.Fail? || op.ReapLapsed?) {
      RetryVerdict(x, op.Fail? && op.retryable, src, op.now);
    }
    hide CompareOf, CancelRow, AgeRow, RequeueOrFail, LapseRow;
  }

  lemma StepVerdict(db: Db, op: Op, r: nat)
    requires Linked(db) && r in db.runs && !op.Complete? && (forall q <- db.runs :: q < db.nextRun)
    ensures r in Apply(db, op).runs && QuietVerdict(db.runs[r], Apply(db, op).runs[r])
  {
    hide Linked, IngestDb, ReconcileDb;
    match op
    case Ingest(i, now) => FollowupIngest(db, i, now, r);
    case Reconcile(id, now) => FollowupReconcile(db, id, now);
    case _ => hide Apply; OtherVerdict(db, op, r);
  }

  /** Every attempt of d was there before, with the same number, and spent only if it was; or it is a
      new running one numbered past all before. */
  predicate QuietAttempt(db: Db, d: Db, b: nat)
    requires b in d.attempts
  {
    if b in db.attempts then
      Spent(d.attempts[b].status) ==> Spent(db.attempts[b].status)
    else
      && d.attempts[b].status.AttRunning?
      && (d.attempts[b].run in db.runs ==> d.attempts[b].no > db.runs[d.attempts[b].run].attemptsMade)
  }

  lemma OtherAttempt(db: Db, op: Op, b: nat)
    requires Linked(db) && !op.Complete? && !op.Ingest? && !op.Reconcile? && b in Apply(db, op).attempts
    ensures QuietAttempt(db, Apply(db, op), b)
  {
    hide Linked, Apply, QuietAttempt;
    if RewritesRuns(op) {
      RewriteAttempt(db, op, b);
    } else if op.Claim? {
      ClaimAttempt(db, op, b);
    } else {
      CallAttempt(db, op, b);
    }
  }

  lemma ClaimAttempt(db: Db, op: Op, b: nat)
    requires Linked(db) && op.Claim? && b in Apply(db, op).attempts
    ensures QuietAttempt(db, Apply(db, op), b)
  {
    hide Linked, First, Claimable, ClaimRunDb, QuietAttempt;
    var c := Claimable(db, op.runtimes, op.locked, op.now);
    forall r <- c ensures r in db.runs {
      QueuedOnly(db, op.runtimes, op.locked, op.now, r);
    }
    if c == {} {
      SameAttempt(db, b);
    } else {
      LeasedAttempt(db, First(db, c), op.worker, op.lease, op.now, b);
    }
  }

  lemma SameAttempt(db: Db, b: nat)
    requires b in db.attempts
    ensures QuietAttempt(db, db, b)
  {
  }

  lemma LeasedAttempt(db: Db, r: nat, worker: string, lease: int, now: int, b: nat)
    requires r in db.runs && b in ClaimRunDb(db, r, worker, lease, now).attempts
    ensures QuietAttempt(db, ClaimRunDb(db, r, worker, lease, now), b)
  {
  }

  /** The calls that edit their attempt in place. */
  predicate EditsAttempt(op: Op) {
    op.Heartbeat? || op.AuthorizeTool? || op.SetPendingWait?
  }

  lemma AttemptsLeft(db: Db, op: Op)
    requires Linked(db) && LeavesRuns(op) && !EditsAttempt(op)
    ensures Apply(db, op).attempts == db.attempts
  {
    hide Linked, ApplyRow, WakeRecorded, WithDefaults;
  }

  lemma EditedAttempt(db: Db, a: nat, t: Attempt, b: nat)
    requires a in db.attempts && t.status == db.attempts[a].status && b in db.attempts
    ensures QuietAttempt(db, db.(attempts := db.attempts[a := t]), b)
  {
  }

  /** The edited attempt, or none. */
  ghost predicate Edits(db: Db, d: Db, a: nat) {
    || d == db
    || (a in db.attempts && exists t: Attempt ::
          t.status == db.attempts[a].status && d == db.(attempts := db.attempts[a := t]))
  }

  lemma CallEdits(db: Db, op: Op)
    requires Linked(db) && EditsAttempt(op)
    ensures Edits(db, Apply(db, op), op.attempt)
  {
    hide Linked, RunOf, AgentOf;
    var d := Apply(db, op);
    if d != db {
      assert d == db.(attempts := db.attempts[op.attempt := d.attempts[op.attempt]]);
    }
  }

  lemma EditsQuiet(db: Db, d: Db, a: nat, b: nat)
    requires Edits(db, d, a) && b in d.attempts
    ensures QuietAttempt(db, d, b)
  {
    hide QuietAttempt;
    if d == db {
      SameAttempt(db, b);
    } else {
      var t: Attempt :| t.status == db.attempts[a].status && d == db.(attempts := db.attempts[a := t]);
      EditedAttempt(db, a, t, b);
    }
  }

  lemma CallAttempt(db: Db, op: Op, b: nat)
    requires Linked(db) && LeavesRuns(op) && b in Apply(db, op).attempts
    ensures QuietAttempt(db, Apply(db, op), b)
  {
    hide Linked, Apply, Edits;
    if EditsAttempt(op) {
      CallEdits(db, op);
      EditsQuiet(db, Apply(db, op), op.attempt, b);
    } else {
      AttemptsLeft(db, op);
    }
  }

  lemma RewriteAttempt(db: Db, op: Op, b: nat)
    requires Linked(db) && RewritesRuns(op) && b in Apply(db, op).attempts
    ensures QuietAttempt(db, Apply(db, op), b)
  {
    RewriteTables(db, op);
    hide *;
    TouchedAttempt(db, Apply(db, op), b);
  }

  lemma TouchedAttempt(db: Db, d: Db, b: nat)
    requires TablesRewritten(db, d) && b in d.attempts
    ensures QuietAttempt(db, d, b)
  {
    assert AttemptRewrite(db.attempts[b], d.attempts[b]);
  }

  lemma StepAttempt(db: Db, op: Op, b: nat)
    requires Linked(db) && !op.Complete? && b in Apply(db, op).attempts
    ensures QuietAttempt(db, Apply(db, op), b)
  {
    hide Linked, IngestDb, ReconcileDb;
    match op
    case Ingest(i, now) => ToolsIngest(db, i, now);
    case Reconcile(id, now) => ToolsReconcile(db, id, now);
    case _ => hide Apply; OtherAttempt(db, op, b);
  }

  /** What the proposal is judged to be when attempt a completes. */
  ghost function VerdictOf(db: Db, a: nat, i: CompleteInput, clock: int): Validation
    requires Linked(db) && a in db.attempts
  {
    Judge(db.snaps[RunOf(db, a).snap], ProposalOf(i), clock, AgentOf(db, a).budgets.freshnessSeconds * SECOND)
  }

  /** A completion touches its attempt and that attempt's run: it records the verdict and spends the
      attempt, or cancels, or changes nothing. */
  lemma CompletionVerdict(db: Db, a: nat, fence: nat, i: CompleteInput, now: int, clock: int, host: int)
    requires Linked(db)
    ensures var d := CompleteDb(db, a, fence, i, now, clock, host);
      && d.attempts.Keys == db.attempts.Keys && d.runs.Keys == db.runs.Keys
      && (forall b <- db.attempts :: b != a ==> d.attempts[b] == db.attempts[b])
      && (forall q <- db.runs :: (a in db.attempts ==> q != db.attempts[a].run) ==> d.runs[q] == db.runs[q])
      && (a in db.attempts && Current(db, a, fence, now) && !RunOf(db, a).cancelRequested ==>
            && d.attempts[a].run == db.attempts[a].run && Spent(d.attempts[a].status)
            && !Overwritten(d.runs[db.attempts[a].run].status)
            && d.runs[db.attempts[a].run].validation == Some(VerdictOf(db, a, i, clock)))
      && (a in db.attempts && !(Current(db, a, fence, now) && !RunOf(db, a).cancelRequested) ==>
            && (Spent(d.attempts[a].status) ==> Spent(db.attempts[a].status))
            && QuietVerdict(RunOf(db, a), d.runs[db.attempts[a].run]))
  {
    hide BookDb, Judge, CompareOf, AddUsage, Waits;
    if Current(db, a, fence, now) {
      RunLinked(db, a);
      hide Linked;
      var x := RunOf(db, a);
      var s, d, v := db.snaps[x.snap], ProposalOf(i), VerdictOf(db, a, i, clock);
      var e := Finish(db, a, AttSucceeded, i.usage, SucceedRow(x, d, v, i.usage, s.source));
      BookRuns(e, x.agent, db.attempts[a].run, s, d, v, now, clock, host);
      BookAttempts(e, x.agent, db.attempts[a].run, s, d, v, now, clock, host);
    }
  }

  lemma CompleteSpends(db: Db, a: nat, fence: nat, i: CompleteInput, now: int, clock: int, host: int, b: nat)
    requires Linked(db) && Spends(db, CompleteDb(db, a, fence, i, now, clock, host), b)
    ensures b == a && b in db.attempts && db.attempts[b].status.AttRunning? && db.attempts[b].run in db.runs
    ensures var d := CompleteDb(db, a, fence, i, now, clock, host);
      db.attempts[b].run in d.runs && !Overwritten(d.runs[db.attempts[b].run].status)
  {
    hide CompleteDb;
    CompletionVerdict(db, a, fence, i, now, clock, host);
  }

  lemma QuietSpendsNone(db: Db, d: Db, b: nat)
    requires b in d.attempts && QuietAttempt(db, d, b)
    ensures !Spends(db, d, b)
  {
  }

  lemma SpendsThere(db: Db, d: Db, b: nat)
    requires Spends(db, d, b)
    ensures b in d.attempts
  {
  }

  /** Only the completion of the run's one running attempt spends an attempt. */
  lemma StepSpends(db: Db, op: Op, b: nat)
    requires Inv(db) && Linked(db) && Spends(db, Apply(db, op), b)
    ensures b in db.attempts && db.attempts[b].status.AttRunning? && db.attempts[b].run in db.runs
    ensures db.attempts[b].run in Apply(db, op).runs && !Overwritten(Apply(db, op).runs[db.attempts[b].run].status)
    ensures op.Complete? && b == op.attempt
  {
    hide Inv, Linked, Spends, CompleteDb, Overwritten;
    if op.Complete? {
      CompleteSpends(db, op.attempt, op.fence, op.result, op.now, op.clock, op.host, b);
    } else {
      hide Apply;
      SpendsThere(db, Apply(db, op), b);
      StepAttempt(db, op, b);
      QuietSpendsNone(db, Apply(db, op), b);
      assert false;
    }
  }

  lemma CompleteQuiet(db: Db, a: nat, fence: nat, i: CompleteInput, now: int, clock: int, host: int, r: nat)
    requires Linked(db) && r in db.runs
    requires a in db.attempts && db.attempts[a].run == r ==>
      !Spends(db, CompleteDb(db, a, fence, i, now, clock, host), a)
    ensures var d := CompleteDb(db, a, fence, i, now, clock, host); r in d.runs && QuietVerdict(db.runs[r], d.runs[r])
  {
    CompletionVerdict(db, a, fence, i, now, clock, host);
    hide CompleteDb, Linked;
  }

  lemma StepQuiet(db: Db, op: Op, r: nat)
    requires Linked(db) && r in db.runs && (forall q <- db.runs :: q < db.nextRun)
    requires forall b <- db.attempts :: Spends(db, Apply(db, op), b) ==> db.attempts[b].run != r
    ensures r in Apply(db, op).runs && QuietVerdict(db.runs[r], Apply(db, op).runs[r])
  {
    hide Linked, QuietVerdict, CompleteDb;
    if op.Complete? {
      CompleteQuiet(db, op.attempt, op.fence, op.result, op.now, op.clock, op.host, r);
    } else {
      hide Apply;
      StepVerdict(db, op, r);
    }
  }

  /** The running attempt of a run has the highest number. */
  lemma RunningIsLatest(db: Db, b: nat, c: nat)
    requires Inv(db) && b in db.attempts && db.attempts[b].status.AttRunning? && db.attempts[b].run in db.runs
    requires c in db.attempts && db.attempts[c].run == db.attempts[b].run
    ensures db.attempts[b].no == db.runs[db.attempts[b].run].attemptsMade
    ensures c != b ==> db.attempts[c].no < db.attempts[b].no
  {
    var r := db.attempts[b].run;
    RowOk(db, r);
    assert b in AttsOf(db, r) && c in AttsOf(db, r);
    hide Inv, UsageBelow, Counted, Budgeted, StatusOk, CompareOf;
  }

  /** A completion since is explained by the verdict it recorded. */
  lemma ExplainsNew(base: Db, db: Db, d: Db, r: nat, b: nat, v: map<nat, Option<Validation>>)
    requires Linked(d) && r in base.runs && r in d.runs && !Overwritten(d.runs[r].status)
    requires SpentSince(base, d, r, b) && Spends(db, d, b)
    requires forall c :: SpentSince(base, d, r, c) && c != b ==> d.attempts[c].no < d.attempts[b].no
    ensures Explained(base, d, r, v + NewVerdicts(db, d))
  {
    hide Linked;
    assert !NoneSince(base, d, r);
    forall c | LatestSince(base, d, r, c) ensures c == b {
      if c != b {
        assert false;
      }
    }
  }

  /** Without one the explanation stands. */
  lemma ExplainsOld(base: Db, db: Db, d: Db, r: nat, v: map<nat, Option<Validation>>)
    requires Linked(d) && r in base.runs && r in db.runs && r in d.runs && Explained(base, db, r, v)
    requires QuietVerdict(db.runs[r], d.runs[r])
    requires RunEvolves(base.runs[r], db.runs[r]) && RunEvolves(db.runs[r], d.runs[r])
    requires forall c :: SpentSince(base, d, r, c) <==> SpentSince(base, db, r, c)
    requires forall c :: SpentSince(base, db, r, c) ==>
      c in db.attempts && c in d.attempts && d.attempts[c].no == db.attempts[c].no
    ensures Explained(base, d, r, v + NewVerdicts(db, d))
  {
    SinceSame(base, db, d, r);
    TerminalSame(base.runs[r], db.runs[r]);
    TerminalSame(db.runs[r], d.runs[r]);
    hide Linked, RunEvolves, Spends, LatestSince, NoneSince, SpentSince, NewVerdicts;
    forall b | LatestSince(base, db, r, b) ensures b !in NewVerdicts(db, d) {
      NotNew(base, db, d, r, b);
    }
  }

  lemma SinceSame(base: Db, db: Db, d: Db, r: nat)
    requires forall c :: SpentSince(base, d, r, c) <==> SpentSince(base, db, r, c)
    requires forall c :: SpentSince(base, db, r, c) ==>
      c in db.attempts && c in d.attempts && d.attempts[c].no == db.attempts[c].no
    ensures NoneSince(base, d, r) <==> NoneSince(base, db, r)
    ensures forall c :: LatestSince(base, d, r, c) <==> LatestSince(base, db, r, c)
  {
    hide Spends;
  }

  lemma NotNew(base: Db, db: Db, d: Db, r: nat, b: nat)
    requires Linked(d) && LatestSince(base, db, r, b)
    ensures b !in NewVerdicts(db, d)
  {
  }

  lemma TerminalSame(x: Run, y: Run)
    requires RunEvolves(x, y)
    ensures Overwritten(x.status) ==> y.status == x.status && y.validation == x.validation
  {
  }

  // ----- any history

  /** Whatever a step spends was running before, and there is one such attempt at most. */
  ghost predicate SpendsOne(db: Db, d: Db) {
    && (forall b :: Spends(db, d, b) ==>
          && b in db.attempts && db.attempts[b].status.AttRunning?
          && db.attempts[b].run in db.runs && db.attempts[b].run in d.runs
          && !Overwritten(d.runs[db.attempts[b].run].status))
    && (forall b, c :: Spends(db, d, b) && Spends(db, d, c) ==> b == c)
  }

  ghost predicate SpendsNoneOf(db: Db, d: Db, r: nat) {
    forall b <- db.attempts :: Spends(db, d, b) ==> db.attempts[b].run != r
  }

  /** What any step does to run r's verdict, seen from its two states alone. */
  ghost predicate VerdictStep(db: Db, d: Db, r: nat) {
    && r in db.runs && r in d.runs && SpendsOne(db, d)
    && (SpendsNoneOf(db, d, r) ==> QuietVerdict(db.runs[r], d.runs[r]))
  }

  lemma StepSpendsOne(db: Db, op: Op)
    requires Inv(db) && Linked(db)
    ensures SpendsOne(db, Apply(db, op))
  {
    hide Inv, Linked, Apply, Spends;
    var d := Apply(db, op);
    forall b | Spends(db, d, b)
      ensures b in db.attempts && db.attempts[b].status.AttRunning? && db.attempts[b].run in db.runs
      ensures op.Complete? && b == op.attempt && db.attempts[b].run in d.runs
      ensures !Overwritten(d.runs[db.attempts[b].run].status)
    {
      StepSpends(db, op, b);
    }
  }

  lemma StepIsVerdictStep(db: Db, op: Op, r: nat)
    requires Inv(db) && Linked(db) && r in db.runs
    ensures VerdictStep(db, Apply(db, op), r)
  {
    hide Inv, Linked, Apply, QuietVerdict, Spends, SpendsOne;
    AgentBudget(db, r);
    RunStays(db, op, r);
    StepSpendsOne(db, op);
    if SpendsNoneOf(db, Apply(db, op), r) {
      StepQuiet(db, op, r);
    }
  }

  lemma RunStays(db: Db, op: Op, r: nat)
    requires Inv(db) && Linked(db) && r in db.runs
    ensures r in Apply(db, op).runs
  {
    hide Inv, Apply, Linked;
    StepKeeps(db, op);
    RunLater(db, Apply(db, op), r);
  }

  lemma AttemptKept(db: Db, d: Db, b: nat)
    requires Evolves(db, d) && b in db.attempts
    ensures b in d.attempts && AttEvolves(db.attempts[b], d.attempts[b])
  {
    hide RunEvolves, RowEvolves, AttEvolves;
  }

  lemma BaseUnspent(base: Db, db: Db, b: nat)
    requires Evolves(base, db) && b in db.attempts && db.attempts[b].status.AttRunning?
    ensures !(b in base.attempts && Spent(base.attempts[b].status))
  {
    hide Evolves;
    if b in base.attempts {
      AttemptKept(base, db, b);
    }
  }

  lemma OtherSpent(db: Db, d: Db, r: nat, b: nat, c: nat)
    requires Inv(db) && VerdictStep(db, d, r) && Evolves(db, d)
    requires Spends(db, d, b) && c in d.attempts && c != b && Spent(d.attempts[c].status)
    requires d.attempts[c].run == d.attempts[b].run
    ensures d.attempts[c].no < d.attempts[b].no
  {
    hide Inv, Evolves, QuietVerdict;
    assert b in db.attempts && !Spends(db, d, c);
    AttemptKept(db, d, b);
    AttemptKept(db, d, c);
    RunningIsLatest(db, b, c);
  }

  /** Without a completion of run r, the set of its completed attempts stays. */
  lemma SpentStays(base: Db, db: Db, d: Db, r: nat, c: nat)
    requires VerdictStep(db, d, r) && Evolves(db, d)
    requires SpendsNoneOf(db, d, r)
    ensures SpentSince(base, d, r, c) <==> SpentSince(base, db, r, c)
    ensures SpentSince(base, db, r, c) ==> c in db.attempts && c in d.attempts && d.attempts[c].no == db.attempts[c].no
  {
    hide Evolves, QuietVerdict;
    if c in db.attempts {
      AttemptKept(db, d, c);
    }
  }

  /** The step completed attempt b of the run. */
  lemma CompletedExplained(base: Db, db: Db, d: Db, r: nat, b: nat, v: map<nat, Option<Validation>>)
    requires Inv(db) && Linked(d) && Evolves(base, db) && Evolves(db, d) && VerdictStep(db, d, r)
    requires r in base.runs && b in db.attempts && Spends(db, d, b) && db.attempts[b].run == r
    ensures Explained(base, d, r, v + NewVerdicts(db, d))
  {
    hide Inv, Linked, Explained, RunEvolves, QuietVerdict, Evolves;
    BaseUnspent(base, db, b);
    AttemptKept(db, d, b);
    forall c | SpentSince(base, d, r, c) && c != b ensures d.attempts[c].no < d.attempts[b].no {
      OtherSpent(db, d, r, b, c);
    }
    ExplainsNew(base, db, d, r, b, v);
  }

  /** The step completed none. */
  lemma QuietExplained(base: Db, db: Db, d: Db, r: nat, v: map<nat, Option<Validation>>)
    requires Linked(d) && Evolves(base, db) && Evolves(db, d) && VerdictStep(db, d, r) && SpendsNoneOf(db, d, r)
    requires r in base.runs && Explained(base, db, r, v)
    ensures Explained(base, d, r, v + NewVerdicts(db, d))
  {
    RunLater(base, db, r);
    RunLater(db, d, r);
    hide Linked, Explained, RunEvolves, QuietVerdict, Evolves, SpentSince;
    forall c ensures SpentSince(base, d, r, c) <==> SpentSince(base, db, r, c)
             ensures SpentSince(base, db, r, c) ==>
               c in db.attempts && c in d.attempts && d.attempts[c].no == db.attempts[c].no
    {
      SpentStays(base, db, d, r, c);
    }
    ExplainsOld(base, db, d, r, v);
  }

  lemma StepExplained(base: Db, db: Db, d: Db, r: nat, v: map<nat, Option<Validation>>)
    requires Inv(db) && Linked(d) && Evolves(base, db) && Evolves(db, d) && VerdictStep(db, d, r)
    requires r in base.runs && Explained(base, db, r, v)
    ensures Explained(base, d, r, v + NewVerdicts(db, d))
  {
    hide Inv, Linked, Explained, VerdictStep, Evolves, Spends;
    if b :| b in db.attempts && Spends(db, d, b) && db.attempts[b].run == r {
      CompletedExplained(base, db, d, r, b, v);
    } else {
      QuietExplained(base, db, d, r, v);
    }
  }

  ghost predicate ExplainedAfter(base: Db, db: Db, ops: seq<Op>, r: nat, v: map<nat, Option<Validation>>)
    requires Inv(db)
  {
    Explained(base, Exec(db, ops), r, v + Recorded(db, ops))
  }

  lemma ExplainedNow(base: Db, db: Db, r: nat, v: map<nat, Option<Validation>>)
    requires Inv(db) && Explained(base, db, r, v)
    ensures ExplainedAfter(base, db, [], r, v)
  {
    hide Inv, Explained;
    assert v + map[] == v;
  }

  lemma ExplainedFirst(base: Db, db: Db, ops: seq<Op>, r: nat, v: map<nat, Option<Validation>>)
    requires Inv(db) && ops != [] && Linked(db) && Linked(Apply(db, ops[0])) && Inv(Apply(db, ops[0]))
    requires ExplainedAfter(base, Apply(db, ops[0]), ops[1..], r, v + NewVerdicts(db, Apply(db, ops[0])))
    ensures ExplainedAfter(base, db, ops, r, v)
  {
    hide Inv, Explained, Linked, Apply, NewVerdicts;
    var d := Apply(db, ops[0]);
    MergeAssociates(v, NewVerdicts(db, d), Recorded(d, ops[1..]));
  }

  lemma {:induction false} HistoryExplained(base: Db, db: Db, ops: seq<Op>, r: nat, v: map<nat, Option<Validation>>)
    requires Inv(db) && Evolves(base, db) && Explained(base, db, r, v)
    ensures ExplainedAfter(base, db, ops, r, v)
    decreases |ops|
  {
    hide *;
    if ops == [] {
      ExplainedNow(base, db, r, v);
    } else {
      LinkedOf(db);
      var d := Apply(db, ops[0]);
      OneStepExplained(base, db, ops[0], r, v);
      HistoryExplained(base, d, ops[1..], r, v + NewVerdicts(db, d));
      ExplainedFirst(base, db, ops, r, v);
    }
  }

  lemma OneStepExplained(base: Db, db: Db, op: Op, r: nat, v: map<nat, Option<Validation>>)
    requires Inv(db) && Linked(db) && Evolves(base, db) && Explained(base, db, r, v)
    ensures var d := Apply(db, op);
      && Inv(d) && Linked(d) && Evolves(base, d) && Explained(base, d, r, v + NewVerdicts(db, d))
  {
    hide *;
    ExplainedRun(base, db, r, v);
    StepKeeps(db, op);
    StepIsVerdictStep(db, op, r);
    var d := Apply(db, op);
    LinkedOf(d);
    StepExplained(base, db, d, r, v);
    EvolvesTransitive(base, db, d);
  }

  lemma ExplainedRun(db: Db, d: Db, r: nat, v: map<nat, Option<Validation>>)
    requires Explained(db, d, r, v)
    ensures r in db.runs && r in d.runs
  {
  }

  lemma MergeAssociates<K, V>(a: map<K, V>, b: map<K, V>, c: map<K, V>)
    ensures a + (b + c) == (a + b) + c
  {
  }

  lemma SelfExplained(db: Db, r: nat)
    requires r in db.runs
    ensures Explained(db, db, r, map[])
  {
  }

  lemma ExplainedPlain(db: Db, ops: seq<Op>, r: nat)
    requires Inv(db) && ExplainedAfter(db, db, ops, r, map[])
    ensures Explained(db, Exec(db, ops), r, Recorded(db, ops))
  {
    hide Inv, Explained, Exec, Recorded;
    assert map[] + Recorded(db, ops) == Recorded(db, ops);
  }

  /** A run's verdict after any history: the fail-safe if it failed or expired meanwhile, else what the
      latest completion recorded, else the old one. */
  lemma VerdictExplained(db: Db, ops: seq<Op>, r: nat)
    requires Inv(db) && r in db.runs
    ensures Explained(db, Exec(db, ops), r, Recorded(db, ops))
  {
    hide *;
    EvolvesReflexive(db);
    SelfExplained(db, r);
    HistoryExplained(db, db, ops, r, map[]);
    ExplainedPlain(db, ops, r);
  }

  // ----- what a repeated completion is answered with

  /** An attempt of the same run that was completed after a. */
  ghost predicate Later(d: Db, a: nat, b: nat) {
    && a in d.attempts && b in d.attempts && d.attempts[b].run == d.attempts[a].run
    && d.attempts[b].no > d.attempts[a].no && Spent(d.attempts[b].status)
  }

  ghost predicate LatestAfter(d: Db, a: nat, b: nat) {
    Later(d, a, b) && forall c :: Later(d, a, c) ==> d.attempts[c].no <= d.attempts[b].no
  }

  /** Distinct numbers from 1 to n: there are n at most. */
  lemma {:induction false} AtMost(m: map<nat, Attempt>, n: nat)
    requires forall a <- m :: 1 <= m[a].no <= n
    requires forall a, b :: a in m && b in m && a != b ==> m[a].no != m[b].no
    ensures |m| <= n
    decreases n
  {
    if a :| a in m && m[a].no == n {
      AtMost(m - {a}, n - 1);
      assert m.Keys == (m - {a}).Keys + {a};
      assert |m| == |m.Keys| && |m - {a}| == |(m - {a}).Keys|;
    } else if m == map[] {
      assert |m| == 0;
    } else {
      var a :| a in m;
      AtMost(m, n - 1);
    }
  }

  /** An attempt that joined a run later is numbered past all the attempts before. */
  lemma JoinedLater(e: Db, d: Db, r: nat, b: nat)
    requires Inv(e) && Inv(d) && Evolves(e, d) && r in e.runs && r in d.runs
    requires b in d.attempts && b !in e.attempts && d.attempts[b].run == r
    ensures d.attempts[b].no > e.runs[r].attemptsMade
  {
    var m, k := AttsOf(e, r), AttsOf(d, r);
    assert b in k && b !in m;
    NumbersOf(e, r);
    NumbersOf(d, r);
    forall a <- m ensures a in k && k[a].no == m[a].no {
      AttemptKept(e, d, a);
    }
    hide Inv, Evolves, AttsOf, RunOk;
    NumberPast(m, k, b, e.runs[r].attemptsMade);
  }

  lemma NumbersOf(db: Db, r: nat)
    requires Inv(db) && r in db.runs
    ensures Numbered(AttsOf(db, r), db.runs[r].attemptsMade) && |AttsOf(db, r)| == db.runs[r].attemptsMade
  {
    RowOk(db, r);
    hide Inv, UsageBelow, AttsOf, Numbered, WithStatus, CompareOf;
  }

  lemma NumberPast(m: map<nat, Attempt>, k: map<nat, Attempt>, b: nat, made: int)
    requires Numbered(m, made) && |m| == made && b in k && b !in m && 1 <= k[b].no
    requires forall a <- m :: a in k && k[a].no == m[a].no
    requires forall a, c :: a in k && c in k && a != c ==> k[a].no != k[c].no
    ensures k[b].no > made
  {
    var all := m[b := k[b]];
    assert all.Keys == m.Keys + {b};
    assert |all| == |all.Keys| && |m| == |m.Keys|;
    if k[b].no <= made {
      AtMost(all, made);
    }
  }

  /** The state right after the first answer: a is completed, the latest of its run, and its verdict stands. */
  ghost predicate Answered(e: Db, a: nat, fence: nat, first: Outcome) {
    && Fenced(e, a, fence) && e.attempts[a].run in e.runs
    && var x := e.runs[e.attempts[a].run];
    && (first.status.Succeeded? <==> e.attempts[a].status.AttSucceeded?)
    && (first.status.WaitingForEvent? <==> e.attempts[a].status.AttWaiting?)
    && Spent(e.attempts[a].status) && (x.status.Succeeded? || x.status.WaitingForEvent?)
    && x.validation == first.validation && e.attempts[a].no == x.attemptsMade
  }

  lemma FirstRow(db: Db, a: nat, fence: nat, i: CompleteInput, now: int, clock: int, host: int)
    requires Linked(db) && Current(db, a, fence, now) && !RunOf(db, a).cancelRequested
    ensures var e, r, x := CompleteDb(db, a, fence, i, now, clock, host), db.attempts[a].run, RunOf(db, a);
      var w := Waits(db.attempts[a], x.followupsUsed, AgentOf(db, a).budgets);
      && a in e.attempts && r in e.runs
      && e.attempts[a] == db.attempts[a].(status := if w then AttWaiting else AttSucceeded, usage := i.usage)
      && e.runs[r].status == (if w then WaitingForEvent else Succeeded)
      && e.runs[r].validation == Some(VerdictOf(db, a, i, clock)) && e.runs[r].attemptsMade == x.attemptsMade
  {
    RunLinked(db, a);
    hide Linked, BookDb, Judge, CompareOf, AddUsage, Waits;
    var x := RunOf(db, a);
    var s, d, v := db.snaps[x.snap], ProposalOf(i), VerdictOf(db, a, i, clock);
    var e := Finish(db, a, AttSucceeded, i.usage, SucceedRow(x, d, v, i.usage, s.source));
    BookRuns(e, x.agent, db.attempts[a].run, s, d, v, now, clock, host);
    BookAttempts(e, x.agent, db.attempts[a].run, s, d, v, now, clock, host);
  }

  lemma FirstCurrent(db: Db, a: nat, fence: nat, i: CompleteInput, now: int, clock: int)
    requires Linked(db) && CompleteAnswer(db, a, fence, i, now, clock).Ok?
    requires !CompleteAnswer(db, a, fence, i, now, clock).value.duplicate
    ensures Current(db, a, fence, now) && !RunOf(db, a).cancelRequested
    ensures var first := CompleteAnswer(db, a, fence, i, now, clock).value;
      && first.status == (if Waits(db.attempts[a], RunOf(db, a).followupsUsed, AgentOf(db, a).budgets)
                          then WaitingForEvent else Succeeded)
      && first.validation == Some(VerdictOf(db, a, i, clock))
  {
    hide Linked, Judge, Waits;
  }

  lemma FirstAnswer(db: Db, a: nat, fence: nat, i: CompleteInput, now: int, clock: int, host: int)
    requires Inv(db) && Linked(db) && CompleteAnswer(db, a, fence, i, now, clock).Ok?
    requires !CompleteAnswer(db, a, fence, i, now, clock).value.duplicate
    ensures Answered(CompleteDb(db, a, fence, i, now, clock, host), a, fence,
                     CompleteAnswer(db, a, fence, i, now, clock).value)
  {
    hide Inv, Linked, CompleteDb, CompleteAnswer, VerdictOf, AgentOf, Waits;
    FirstCurrent(db, a, fence, i, now, clock);
    RunLinked(db, a);
    RunningIsLatest(db, a, a);
    FirstRow(db, a, fence, i, now, clock, host);
  }

  lemma LaterIsSince(e: Db, d: Db, a: nat, fence: nat, first: Outcome, b: nat)
    requires Inv(e) && Inv(d) && Evolves(e, d) && Answered(e, a, fence, first)
    ensures a in d.attempts && d.attempts[a] == e.attempts[a]
    ensures Later(d, a, b) <==> SpentSince(e, d, e.attempts[a].run, b)
  {
    hide Inv, Evolves, RunEvolves;
    var r := e.attempts[a].run;
    AttemptLater(e, d, a);
    RunLater(e, d, r);
    if b in e.attempts && e.attempts[b].run == r {
      EndedNow(e, r, b);
      AttemptKept(e, d, b);
    } else if b in e.attempts {
      AttemptKept(e, d, b);
    } else if b in d.attempts && d.attempts[b].run == r {
      JoinedLater(e, d, r, b);
    }
  }

  lemma EndedNow(e: Db, r: nat, b: nat)
    requires Inv(e) && r in e.runs && !e.runs[r].status.Running? && b in e.attempts && e.attempts[b].run == r
    ensures !e.attempts[b].status.AttRunning? && e.attempts[b].no <= e.runs[r].attemptsMade
  {
    RowOk(e, r);
    NumbersOf(e, r);
    assert b in AttsOf(e, r);
    NoneRunning(e.runs[r], AttsOf(e, r)) by { hide Inv, UsageBelow, CompareOf; }
    hide Inv, RunOk;
  }

  lemma StoredAnswer(d: Db, a: nat, fence: nat, i: CompleteInput, now: int, clock: int)
    requires Linked(d) && Fenced(d, a, fence) && Spent(d.attempts[a].status)
    ensures CompleteAnswer(d, a, fence, i, now, clock) ==
      Ok(Outcome(if d.attempts[a].status.AttSucceeded? then Succeeded else WaitingForEvent,
                 RunOf(d, a).validation, true))
  {
    hide Linked;
  }

  /** The verdict a repeat is answered with, in any later state d: the fail-safe if the run failed or
      expired, else the one the latest completion of a later attempt recorded, else the first answer's. */
  ghost predicate RepeatIs(d: Db, a: nat, first: Outcome, recorded: map<nat, Option<Validation>>,
                           answer: Answer<Outcome>) {
    && a in d.attempts && d.attempts[a].run in d.runs
    && answer.Ok? && answer.value.status == first.status && answer.value.duplicate
    && var status := d.runs[d.attempts[a].run].status;
    if Overwritten(status) then answer.value.validation == Some(FAILSAFE)
    else
      && ((forall b :: !Later(d, a, b)) ==> answer.value.validation == first.validation)
      && (forall b :: LatestAfter(d, a, b) ==> b in recorded && answer.value.validation == recorded[b])
  }

  lemma RepeatOf(e: Db, d: Db, recorded: map<nat, Option<Validation>>, a: nat, fence: nat, first: Outcome,
                 i: CompleteInput, now: int, clock: int)
    requires Inv(e) && Inv(d) && Linked(d) && Evolves(e, d) && Answered(e, a, fence, first)
    requires Explained(e, d, e.attempts[a].run, recorded)
    ensures RepeatIs(d, a, first, recorded, CompleteAnswer(d, a, fence, i, now, clock))
  {
    hide Inv, Evolves, Linked, Later, SpentSince, Explained, LatestAfter, CompleteAnswer;
    var r := e.attempts[a].run;
    LaterIsSince(e, d, a, fence, first, 0);
    forall b ensures Later(d, a, b) <==> SpentSince(e, d, r, b) {
      LaterIsSince(e, d, a, fence, first, b);
    }
    StoredAnswer(d, a, fence, i, now, clock);
    ExplainedRun(e, d, r, recorded);
    Translate(e, d, a, r, first, recorded);
  }

  lemma RepeatAfter(e: Db, ops: seq<Op>, a: nat, fence: nat, first: Outcome, i: CompleteInput, now: int, clock: int)
    requires Inv(e) && Answered(e, a, fence, first) && Linked(Exec(e, ops))
    ensures RepeatIs(Exec(e, ops), a, first, Recorded(e, ops), CompleteAnswer(Exec(e, ops), a, fence, i, now, clock))
  {
    hide *;
    AnsweredRun(e, a, fence, first);
    ExecEvolves(e, ops);
    VerdictExplained(e, ops, e.attempts[a].run);
    RepeatOf(e, Exec(e, ops), Recorded(e, ops), a, fence, first, i, now, clock);
  }

  lemma AnsweredRun(e: Db, a: nat, fence: nat, first: Outcome)
    requires Answered(e, a, fence, first)
    ensures a in e.attempts && e.attempts[a].run in e.runs
  {
  }

  lemma Translate(e: Db, d: Db, a: nat, r: nat, first: Outcome, recorded: map<nat, Option<Validation>>)
    requires Explained(e, d, r, recorded) && a in e.attempts && a in d.attempts && d.attempts[a] == e.attempts[a]
    requires e.attempts[a].run == r && e.runs[r].validation == first.validation && !Overwritten(e.runs[r].status)
    requires forall b :: Later(d, a, b) <==> SpentSince(e, d, r, b)
    ensures Overwritten(d.runs[r].status) ==> d.runs[r].validation == Some(FAILSAFE)
    ensures !Overwritten(d.runs[r].status) && (forall b :: !Later(d, a, b)) ==> d.runs[r].validation == first.validation
    ensures !Overwritten(d.runs[r].status) ==>
      forall b :: LatestAfter(d, a, b) ==> b in recorded && d.runs[r].validation == recorded[b]
  {
    hide Later, SpentSince;
    forall b | LatestAfter(d, a, b) ensures LatestSince(e, d, r, b) {
      assert SpentSince(e, d, r, b);
    }
  }

  /** A completion is answered once, and from then on every repeat of it, at any time, with the verdict
      its run carries by then: the first answer's exactly while no later attempt of the run completed
      and the run neither failed nor expired; else the one that overwrote it. */
  lemma RepeatedCompletion(db: Db, a: nat, fence: nat, i: CompleteInput, now: int, clock: int, host: int,
                           ops: seq<Op>, again: CompleteInput, later: int, laterClock: int)
    requires Inv(db) && Linked(db) && CompleteAnswer(db, a, fence, i, now, clock).Ok?
    requires !CompleteAnswer(db, a, fence, i, now, clock).value.duplicate
    ensures var e := CompleteDb(db, a, fence, i, now, clock, host);
      && Inv(e) && Linked(Exec(e, ops))
      && RepeatIs(Exec(e, ops), a, CompleteAnswer(db, a, fence, i, now, clock).value, Recorded(e, ops),
                  CompleteAnswer(Exec(e, ops), a, fence, again, later, laterClock))
  {
    hide *;
    FirstAnswer(db, a, fence, i, now, clock, host);
    CompleteStep(db, a, fence, i, now, clock, host);
    var e := CompleteDb(db, a, fence, i, now, clock, host);
    LinkedOf(Exec(e, ops));
    RepeatAfter(e, ops, a, fence, CompleteAnswer(db, a, fence, i, now, clock).value, again, later, laterClock);
  }

  /** How a repeat for the completed attempt a is answered in a later state d. */
  ghost predicate DuplicateIs(db: Db, d: Db, recorded: map<nat, Option<Validation>>, a: nat, answer: Answer<Outcome>) {
    && a in db.attempts && a in d.attempts && d.attempts[a] == db.attempts[a]
    && var r, succeeded := db.attempts[a].run, db.attempts[a].status.AttSucceeded?;
    && Explained(db, d, r, recorded)
    && answer == Ok(Outcome(if succeeded then Succeeded else WaitingForEvent, d.runs[r].validation, true))
    && (succeeded ==> d.runs[r].validation == db.runs[r].validation)
  }

  lemma DuplicateOf(db: Db, d: Db, recorded: map<nat, Option<Validation>>, a: nat, fence: nat,
                    i: CompleteInput, now: int, clock: int)
    requires Linked(db) && Linked(d) && Evolves(db, d) && Fenced(db, a, fence) && Spent(db.attempts[a].status)
    requires Explained(db, d, db.attempts[a].run, recorded)
    requires db.attempts[a].run in db.runs
    requires db.attempts[a].status.AttSucceeded? ==> db.runs[db.attempts[a].run].status.Succeeded?
    ensures DuplicateIs(db, d, recorded, a, CompleteAnswer(d, a, fence, i, now, clock))
  {
    hide Evolves, Linked, Explained, CompleteAnswer;
    AttemptLater(db, d, a);
    RunLater(db, d, db.attempts[a].run);
    StoredAnswer(d, a, fence, i, now, clock);
  }

  /** A repeat of any completion, waiting or succeeded, is answered with the verdict the run carries by
      then; for a succeeded one that is the verdict it carried all along. */
  lemma DuplicateCompletion(db: Db, ops: seq<Op>, a: nat, fence: nat, i: CompleteInput, now: int, clock: int)
    requires Inv(db) && Linked(db) && Fenced(db, a, fence) && Spent(db.attempts[a].status)
    ensures Linked(Exec(db, ops))
      && DuplicateIs(db, Exec(db, ops), Recorded(db, ops), a, CompleteAnswer(Exec(db, ops), a, fence, i, now, clock))
  {
    hide *;
    FencedIn(db, a, fence);
    RunLinked(db, a);
    LinkedOf(Exec(db, ops));
    ExecEvolves(db, ops);
    VerdictExplained(db, ops, db.attempts[a].run);
    if db.attempts[a].status.AttSucceeded? {
      SucceededRun(db, a);
    }
    DuplicateOf(db, Exec(db, ops), Recorded(db, ops), a, fence, i, now, clock);
  }

  lemma FencedIn(db: Db, a: nat, fence: nat)
    requires Fenced(db, a, fence)
    ensures a in db.attempts
  {
  }

  /** A proposal of no known shape. */
  const MALFORMED := HOLD.(action := OtherAction("?"))

  /** The answer to a repeat is not always the caller's own verdict: while attempt a waits, its run's
      follow-up b completes, and the repeat of a's completion is answered with b's verdict. If a's was
      valid and b proposes nonsense, a is told its proposal was rejected. */
  lemma FollowupOverwrites(db: Db, a: nat, fence: nat, b: nat, fenceB: nat, i: CompleteInput, now: int, clock: int,
                           host: int, again: CompleteInput, later: int, laterClock: int)
    requires Inv(db) && Linked(db) && Fenced(db, a, fence) && db.attempts[a].status.AttWaiting?
    requires Current(db, b, fenceB, now) && db.attempts[b].run == db.attempts[a].run && !RunOf(db, b).cancelRequested
    ensures Linked(CompleteDb(db, b, fenceB, i, now, clock, host))
    ensures CompleteAnswer(CompleteDb(db, b, fenceB, i, now, clock, host), a, fence, again, later, laterClock) ==
      Ok(Outcome(WaitingForEvent, Some(VerdictOf(db, b, i, clock)), true))
    ensures i.proposal == Some(MALFORMED) && RunOf(db, a).validation.Some? && RunOf(db, a).validation.value.valid ==>
      Some(VerdictOf(db, b, i, clock)) != RunOf(db, a).validation
  {
    hide Inv, Linked, Evolves, CompleteDb, CompleteAnswer, VerdictOf;
    var e := CompleteDb(db, b, fenceB, i, now, clock, host);
    RunLinked(db, b);
    CompleteStep(db, b, fenceB, i, now, clock, host);
    LinkedOf(e);
    CompletionVerdict(db, b, fenceB, i, now, clock, host);
    MalformedFails(db, b, i, clock);
    StoredAnswer(e, a, fence, again, later, laterClock);
  }

  lemma MalformedFails(db: Db, b: nat, i: CompleteInput, clock: int)
    requires Linked(db) && b in db.attempts
    ensures i.proposal == Some(MALFORMED) ==> !VerdictOf(db, b, i, clock).valid
  {
    hide Linked, WakeIn, FactsOf;
  }

  /** Attempt 1 waits with an accepted hold while its run's follow-up, attempt 2, is running. */
  const RESUMED := Db(
    map[1 := Agent("X", Minutes(5), "", "", [], Budgets(12, 3, 2, 900, 900), true)],
    map[1 := Snapshot("k", "X", Minutes(5), Operator, Payload(None, None, false, 0.0, map[], None), 0)],
    map[1 := Run(1, 1, "", Running, 2, 3, 1, false, 0, None, Some(HOLD), Some(FAILSAFE), None, NoLegacy, map[])],
    map[1 := Attempt(1, 1, "", 1, AttWaiting, 0, Some(10), 0, map[]),
        2 := Attempt(1, 2, "", 2, AttRunning, 1, None, 0, map[])],
    map[], [], 2, 2, 3, 3, 1)

  lemma ResumedSets(m: map<nat, Attempt>)
    requires m == RESUMED.attempts
    ensures WithStatus(m, AttWaiting) == {1} && WithStatus(m, AttRunning) == {2} && WithStatus(m, AttSucceeded) == {}
  {
  }

  lemma ResumedCounts(m: map<nat, Attempt>)
    requires m == RESUMED.attempts
    ensures Counted(RESUMED.runs[1], m)
  {
    ResumedSets(m);
    assert m.Keys == {1, 2};
    assert |m| == |m.Keys|;
    hide WithStatus;
  }

  lemma ResumedNumbers(m: map<nat, Attempt>)
    requires m == RESUMED.attempts
    ensures Numbered(m, 2)
  {
  }

  lemma ResumedUsage(m: map<nat, Attempt>)
    requires m == RESUMED.attempts
    ensures UsageBelow(m, 3) == map[]
  {
    assert UsageBelow(m, 1) == map[];
    assert UsageBelow(m, 2) == AddUsage(map[], map[]) == map[];
  }

  lemma ResumedRow(m: map<nat, Attempt>)
    requires m == RESUMED.attempts
    ensures RunOk(RESUMED.runs[1], m, Operator, 3)
  {
    ResumedCounts(m);
    ResumedNumbers(m);
    ResumedUsage(m);
    hide Counted, Numbered, UsageBelow;
  }

  lemma ResumedRun()
    ensures AttsOf(RESUMED, 1) == RESUMED.attempts && RunOk(RESUMED.runs[1], AttsOf(RESUMED, 1), Operator, 3)
  {
    assert AttsOf(RESUMED, 1) == RESUMED.attempts;
    ResumedRow(RESUMED.attempts);
    hide RunOk, AttsOf;
  }

  lemma ResumedInv()
    ensures Inv(RESUMED) && Linked(RESUMED)
  {
    ResumedRun();
    hide RunOk, AttsOf;
  }

  /** The case is real: there the first caller, whose proposal was accepted, is told it was rejected. */
  lemma AcceptedThenRejected(again: CompleteInput, later: int, clock: int)
    ensures Linked(RESUMED) && RunOf(RESUMED, 1).validation == Some(FAILSAFE) && FAILSAFE.valid
    ensures var d := CompleteDb(RESUMED, 2, 2, CompleteInput(Some(MALFORMED), map[]), 0, 0, 0);
      && Linked(d)
      && var answer := CompleteAnswer(d, 1, 1, again, later, clock);
      && answer.Ok? && answer.value.status.WaitingForEvent? && answer.value.duplicate
      && answer.value.validation.Some? && !answer.value.validation.value.valid
  {
    ResumedInv();
    hide Inv, CompleteDb, CompleteAnswer, VerdictOf;
    var i := CompleteInput(Some(MALFORMED), map[]);
    FollowupOverwrites(RESUMED, 1, 1, 2, 2, i, 0, 0, 0, again, later, clock);
    MalformedFails(RESUMED, 2, i, 0);
  }
}

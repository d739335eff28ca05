/** What holds of the queue over every sequence of steps by any actors in any order. */
module QueueTheorems {
  import opened Common
  import opened Domain
  import opened Positions
  import opened RunQueue
  import opened QueueInvariants
  import opened QueueSteps

  // ----- histories

  /** Steps on the tables of agents, snapshots, runs and attempts. */
  predicate QueueOp(op: Op) {
    || op.UpsertAgent? || op.SetEnabled? || op.Ingest? || op.SetLegacy? || op.Claim? || op.Heartbeat?
    || op.AuthorizeTool? || op.SetPendingWait? || op.Complete? || op.Fail? || op.AckCancel? || op.Cancel?
  }

  lemma QueueOpKeeps(db: Db, op: Op)
    requires Linked(db) && Inv(db) && QueueOp(op)
    ensures Inv(Apply(db, op)) && Evolves(db, Apply(db, op))
  {
    hide Inv, Evolves, Linked, UpsertAgentDb, SetEnabledDb, IngestDb, SetLegacyDb, ClaimDb, HeartbeatDb, AuthorizeDb,
         SetPendingWaitDb, CompleteDb, FailDb, AckCancelDb, CancelDb;
    match op
    case UpsertAgent(id, agent) => UpsertAgentStep(db, id, agent);
    case SetEnabled(id, enabled) => SetEnabledStep(db, id, enabled);
    case Ingest(i, now) => IngestStep(db, i, now);
    case SetLegacy(idem, legacy) => SetLegacyStep(db, idem, legacy);
    case Claim(w, rt, lease, locked, now) => ClaimStep(db, w, rt, lease, locked, now);
    case Heartbeat(a, f, lease, now) => HeartbeatStep(db, a, f, lease, now);
    case AuthorizeTool(a, f, tool, now) => AuthorizeStep(db, a, f, tool, now);
    case SetPendingWait(a, f, sec, now, clock) => PendingWaitStep(db, a, f, sec, now, clock);
    case Complete(a, f, i, now, clock, host) => CompleteStep(db, a, f, i, now, clock, host);
    case Fail(a, f, retryable, now) => FailStep(db, a, f, retryable, now);
    case AckCancel(a, f) => AckCancelStep(db, a, f);
    case Cancel(r) => CancelStep(db, r);
  }

  lemma OtherOpKeeps(db: Db, op: Op)
    requires Linked(db) && Inv(db) && !QueueOp(op)
    ensures Inv(Apply(db, op)) && Evolves(db, Apply(db, op))
  {
    hide Inv, Evolves, Linked, LapseDb, WakeDueDb, AgeDb, RowDb, ClosePositionDb, Log, RecordWakeDb, ReconcileDb,
         AllRunning;
    match op
    case ReapLapsed(locked, now) => DeadRunning(db, locked, now); LapseStep(db, Dead(db, locked, now), now);
    case ReapDue(now) => DueStep(db, now);
    case ReapAged(locked, now) => AgeStep(db, locked, now);
    case SavePosition(id, s) => RowOpStep(db, id, Save(s));
    case ClosePosition(id, price, at, reason, now) => ClosePositionStep(db, id, price, at, reason, now);
    case RaiseAttention(id, now) => RowThenLog(db, id, Attention, AttentionRaised, now);
    case AddNote(id, now) => LogStep(db, id, Note, now);
    case RecordWake(id, run, now) => RecordWakeStep(db, id, run, now);
    case Reconcile(id, now) => ReconcileStep(db, id, now);
  }

  /** Every step of every actor keeps the invariant and moves each row only forward. */
  lemma StepKeeps(db: Db, op: Op)
    requires Inv(db)
    ensures Inv(Apply(db, op)) && Evolves(db, Apply(db, op))
  {
    hide *;
    LinkedOf(db);
    if QueueOp(op) {
      QueueOpKeeps(db, op);
    } else {
      OtherOpKeeps(db, op);
    }
  }

  lemma DeadRunning(db: Db, locked: set<nat>, now: int)
    ensures AllRunning(db, Dead(db, locked, now))
  {
  }

  /** The state after any sequence of steps. */
  ghost function Exec(db: Db, ops: seq<Op>): (d: Db)
    requires Inv(db)
    ensures Inv(d)
    decreases |ops|
  {
    if ops == [] then db
    else
      StepKeeps(db, ops[0]);
      Exec(Apply(db, ops[0]), ops[1..])
  }

  lemma {:induction false} ExecEvolves(db: Db, ops: seq<Op>)
    requires Inv(db)
    ensures Evolves(db, Exec(db, ops))
    decreases |ops|
  {
    hide Inv, Evolves, Apply;
    LinkedOf(db);
    if ops == [] {
      EvolvesReflexive(db);
    } else {
      StepKeeps(db, ops[0]);
      var d := Apply(db, ops[0]);
      ExecEvolves(d, ops[1..]);
      EvolvesTransitive(db, d, Exec(d, ops[1..]));
    }
  }

  lemma EmptyInv()
    ensures Inv(EMPTY)
  {
  }

  /** The state after any steps of any actors on an empty database. */
  ghost function Reached(ops: seq<Op>): (d: Db)
    ensures Inv(d)
  {
    EmptyInv();
    Exec(EMPTY, ops)
  }

  /** The attempts of a run with one status. */
  ghost function Having(db: Db, r: nat, s: AttemptStatus): set<nat> {
    set a | a in db.attempts && db.attempts[a].run == r && db.attempts[a].status == s
  }

  lemma HavingIs(db: Db, r: nat, s: AttemptStatus)
    ensures Having(db, r, s) == WithStatus(AttsOf(db, r), s)
  {
  }

  lemma RowOk(db: Db, r: nat)
    requires Inv(db) && r in db.runs
    ensures RunOk(db.runs[r], AttsOf(db, r), SourceOf(db, r), db.nextAttempt)
  {
    hide RunOk, AttemptsOk, SnapsOk, FanOk, AgentsOk, BookOk;
  }

  /** In every reachable state a run is running exactly when one of its attempts is; its counters
      count its attempts; a succeeded run has the one succeeded attempt; and a requested
      cancellation leaves only running or cancelled. */
  lemma ReachableCounts(ops: seq<Op>, r: nat)
    requires r in Reached(ops).runs
    ensures var d := Reached(ops);
      var x := d.runs[r];
      && |Having(d, r, AttRunning)| == (if x.status.Running? then 1 else 0)
      && |Having(d, r, AttSucceeded)| == (if x.status.Succeeded? then 1 else 0)
      && x.followupsUsed == |Having(d, r, AttWaiting)|
      && x.attemptsMade == |AttsOf(d, r)|
      && Numbered(AttsOf(d, r), x.attemptsMade)
      && (x.cancelRequested ==> x.status.Running? || x.status.Cancelled?)
  {
    hide Inv, WithStatus, AttsOf, Having, Reached, UsageBelow, Numbered;
    var d := Reached(ops);
    RowOk(d, r);
    HavingIs(d, r, AttRunning);
    HavingIs(d, r, AttSucceeded);
    HavingIs(d, r, AttWaiting);
  }

  /** In every reachable state the derived columns agree with their definitions. */
  lemma ReachableDerived(ops: seq<Op>, r: nat)
    requires r in Reached(ops).runs
    ensures var d := Reached(ops);
      var x := d.runs[r];
      && x.snap in d.snaps
      && x.comparison == CompareOf(x.proposal, x.validation, x.legacy, d.snaps[x.snap].source)
      && x.usage == UsageBelow(AttsOf(d, r), d.nextAttempt)
      && (forall q <- d.runs :: d.runs[q].snap == x.snap ==> d.runs[q].legacy == x.legacy)
  {
    hide Inv, WithStatus, AttsOf, Reached, UsageBelow, Numbered, Counted, Budgeted, StatusOk, CompareOf;
    var d := Reached(ops);
    LinkedOf(d);
    RowOk(d, r);
    SameLegacy(d, r);
  }

  lemma SameLegacy(db: Db, r: nat)
    requires Inv(db) && r in db.runs
    ensures forall q <- db.runs :: db.runs[q].snap == db.runs[r].snap ==> db.runs[q].legacy == db.runs[r].legacy
  {
    hide Linked, RunsOk, AttemptsOk, SnapsOk, AgentsOk, BookOk;
  }

  /** Each key's total is the sum of that key over the waiting and succeeded attempts. */
  function KeyTotal(m: map<nat, Attempt>, n: nat, k: string): real {
    if n == 0 then 0.0
    else KeyTotal(m, n - 1, k) + (if n - 1 in m && Spent(m[n - 1].status) then Get(m[n - 1].usage, k) else 0.0)
  }

  lemma {:induction false} UsagePerKey(m: map<nat, Attempt>, n: nat, k: string)
    ensures Get(UsageBelow(m, n), k) == KeyTotal(m, n, k)
  {
    if n > 0 {
      UsagePerKey(m, n - 1, k);
    }
  }

  // ----- claims

  /** The one run a claim leased: runnable, the earliest of the runnable ones, now running under a new
      attempt whose fence no attempt held before. */
  ghost predicate Leased(db: Db, d: Db, r: nat, c: set<nat>, worker: string, until: int)
    requires forall s <- c :: s in db.runs
  {
    && r in c && (forall s <- c :: NotLater(db, r, s))
    && db.nextAttempt !in db.attempts && d.attempts.Keys == db.attempts.Keys + {db.nextAttempt}
    && (forall a <- db.attempts ::
          d.attempts[a] == db.attempts[a] && db.attempts[a].fence < d.attempts[db.nextAttempt].fence)
    && d.attempts[db.nextAttempt].run == r && d.attempts[db.nextAttempt].worker == worker
    && d.attempts[db.nextAttempt].status.AttRunning? && d.attempts[db.nextAttempt].leaseUntil == until
    && d.runs.Keys == db.runs.Keys && (forall q <- db.runs :: q != r ==> d.runs[q] == db.runs[q])
    && db.runs[r].status.Queued? && d.runs[r].status.Running?
    && d.attempts[db.nextAttempt].no == d.runs[r].attemptsMade == db.runs[r].attemptsMade + 1
  }

  lemma ClaimTakesOldest(db: Db, worker: string, runtimes: set<string>, lease: int, locked: set<nat>, now: int)
    requires Linked(db) && Inv(db)
    ensures Claimable(db, runtimes, locked, now) == {} ==> ClaimDb(db, worker, runtimes, lease, locked, now) == db
    ensures Claimable(db, runtimes, locked, now) != {} ==>
      var c := Claimable(db, runtimes, locked, now);
      Leased(db, ClaimDb(db, worker, runtimes, lease, locked, now), First(db, c), c, worker, now + lease)
  {
    FreshAttempt(db);
    hide Inv, Linked, Leased, NotLater, Claimable;
    var c := Claimable(db, runtimes, locked, now);
    if c != {} {
      QueuedOnly(db, runtimes, locked, now, First(db, c));
      hide First;
      LeasedRun(db, First(db, c), c, worker, lease, now);
    }
  }

  lemma QueuedOnly(db: Db, runtimes: set<string>, locked: set<nat>, now: int, r: nat)
    requires Linked(db) && r in Claimable(db, runtimes, locked, now)
    ensures r in db.runs && db.runs[r].status.Queued?
  {
    hide Linked;
  }

  lemma LeasedRun(db: Db, r: nat, c: set<nat>, worker: string, lease: int, now: int)
    requires r in c && (forall s <- c :: s in db.runs) && (forall s <- c :: NotLater(db, r, s))
    requires db.nextAttempt !in db.attempts && (forall a <- db.attempts :: db.attempts[a].fence < db.nextFence)
    requires db.runs[r].status.Queued?
    ensures Leased(db, ClaimRunDb(db, r, worker, lease, now), r, c, worker, now + lease)
  {
    hide NotLater;
  }

  lemma FreshAttempt(db: Db)
    requires Inv(db)
    ensures db.nextAttempt !in db.attempts && forall a <- db.attempts :: db.attempts[a].fence < db.nextFence
  {
    hide Linked, RunsOk, SnapsOk, FanOk, AgentsOk, BookOk;
  }

  /** As long as an attempt runs, whatever else happens, no claim of any worker leases its run again. */
  lemma LeasedOnce(db: Db, ops: seq<Op>, a: nat, runtimes: set<string>, locked: set<nat>, now: int)
    requires Inv(db) && a in db.attempts
    ensures Linked(Exec(db, ops))
    ensures var d := Exec(db, ops);
      && a in d.attempts && d.attempts[a].run == db.attempts[a].run
      && (d.attempts[a].status.AttRunning? ==> d.attempts[a].run !in Claimable(d, runtimes, locked, now))
  {
    hide Inv, Evolves, Exec, Linked;
    var d := Exec(db, ops);
    ExecEvolves(db, ops);
    LinkedOf(d);
    SameRun(db, d, a);
    if d.attempts[a].status.AttRunning? {
      RunLinked(d, a);
      RunningRun(d, a);
    }
  }

  lemma SameRun(db: Db, d: Db, a: nat)
    requires Evolves(db, d) && a in db.attempts
    ensures a in d.attempts && d.attempts[a].run == db.attempts[a].run
  {
    hide RunEvolves, RowEvolves;
  }

  lemma RunningRun(db: Db, a: nat)
    requires Inv(db) && a in db.attempts && db.attempts[a].status.AttRunning? && db.attempts[a].run in db.runs
    ensures db.runs[db.attempts[a].run].status.Running?
  {
    var r := db.attempts[a].run;
    CountedOf(db, r);
    hide Inv, Counted;
    RunningOnly(db.runs[r], AttsOf(db, r), a);
  }

  // ----- fencing

  /** The calls an attempt's owner makes. */
  predicate OwnerCall(op: Op, a: nat, fence: nat) {
    || (op.Heartbeat? && op.attempt == a && op.fence == fence)
    || (op.AuthorizeTool? && op.attempt == a && op.fence == fence)
    || (op.SetPendingWait? && op.attempt == a && op.fence == fence)
    || (op.Complete? && op.attempt == a && op.fence == fence)
    || (op.Fail? && op.attempt == a && op.fence == fence)
    || (op.AckCancel? && op.attempt == a && op.fence == fence)
  }

  function ClockOf(op: Op): int {
    if op.Heartbeat? || op.AuthorizeTool? || op.SetPendingWait? || op.Complete? || op.Fail? then op.now else 0
  }

  /** A stale call leaves every table as it was. */
  lemma StaleCall(db: Db, op: Op, a: nat, fence: nat)
    requires Linked(db) && OwnerCall(op, a, fence)
    requires if op.AckCancel? then !(Fenced(db, a, fence) && db.attempts[a].status.AttRunning?)
             else !Current(db, a, fence, ClockOf(op))
    ensures Apply(db, op) == db
  {
    hide Linked, Finish, BookDb, AgentOf, RunOf, Judge, Waits, RequeueOrFail, CancelRow, WaitRow, SucceedRow, Current;
  }

  /** A call changes the state only for the attempt that is the run's one running attempt, under its
      fence; except for the acknowledgement of a cancellation, only inside the lease. */
  lemma FencedCalls(db: Db, op: Op, a: nat, fence: nat)
    requires Inv(db) && OwnerCall(op, a, fence) && Apply(db, op) != db
    ensures a in db.attempts && db.attempts[a].fence == fence
    ensures RunOf(db, a).status.Running? && Having(db, db.attempts[a].run, AttRunning) == {a}
    ensures !op.AckCancel? ==> db.attempts[a].leaseUntil > ClockOf(op)
  {
    LinkedOf(db);
    hide Inv, Apply, Having, WithStatus, AttsOf, UsageBelow, Numbered, Budgeted, StatusOk, OwnerCall, Linked;
    if !(if op.AckCancel? then Fenced(db, a, fence) && db.attempts[a].status.AttRunning?
         else Current(db, a, fence, ClockOf(op))) {
      StaleCall(db, op, a, fence);
      assert false;
    }
    RunLinked(db, a);
    var r := db.attempts[a].run;
    RowOk(db, r);
    HavingIs(db, r, AttRunning);
    RunningOnly(db.runs[r], AttsOf(db, r), a);
  }

  lemma RunLinked(db: Db, a: nat)
    requires Linked(db) && a in db.attempts
    ensures db.attempts[a].run in db.runs
  {
  }

  /** The one call that ignores the lease: an acknowledgement for a running attempt always ends it. */
  lemma AckEndsRegardlessOfLease(db: Db, a: nat, fence: nat)
    requires Inv(db)
    ensures Apply(db, AckCancel(a, fence)) != db <==> Fenced(db, a, fence) && db.attempts[a].status.AttRunning?
    ensures Fenced(db, a, fence) && db.attempts[a].status.AttRunning? ==>
      Apply(db, AckCancel(a, fence)).runs[db.attempts[a].run].status.Cancelled?
  {
    hide Inv, CompareOf;
    LinkedOf(db);
    var d := AckCancelDb(db, a, fence);
    if Fenced(db, a, fence) && db.attempts[a].status.AttRunning? {
      assert d.attempts[a].status.AttCancelled?;
    }
  }

  lemma AttemptLater(db: Db, d: Db, a: nat)
    requires Evolves(db, d) && a in db.attempts && !db.attempts[a].status.AttRunning?
    ensures a in d.attempts && d.attempts[a] == db.attempts[a]
  {
    hide RunEvolves, RowEvolves;
  }

  lemma RunLater(db: Db, d: Db, r: nat)
    requires Evolves(db, d) && r in db.runs
    ensures r in d.runs && RunEvolves(db.runs[r], d.runs[r])
  {
    hide RunEvolves, RowEvolves, AttEvolves;
  }

  /** Once an attempt is over it stays as it is, and no call with it changes anything, whatever happens in between. */
  lemma EndedForever(db: Db, ops: seq<Op>, op: Op, a: nat, fence: nat)
    requires Inv(db) && a in db.attempts && !db.attempts[a].status.AttRunning?
    requires OwnerCall(op, a, fence)
    ensures var d := Exec(db, ops);
      a in d.attempts && d.attempts[a] == db.attempts[a] && LinkedNow(d) && Apply(d, op) == d
  {
    hide Inv, Evolves, Exec, Apply, OwnerCall, Linked;
    ExecEvolves(db, ops);
    AttemptLater(db, Exec(db, ops), a);
    LinkedOf(Exec(db, ops));
    StaleCall(Exec(db, ops), op, a, fence);
  }

  lemma SucceededCounted(x: Run, m: map<nat, Attempt>, a: nat)
    requires Counted(x, m) && a in m && m[a].status.AttSucceeded?
    ensures x.status.Succeeded?
  {
    assert a in WithStatus(m, AttSucceeded);
  }

  lemma SucceededRun(db: Db, a: nat)
    requires Inv(db) && a in db.attempts && db.attempts[a].status.AttSucceeded?
    ensures db.attempts[a].run in db.runs && db.runs[db.attempts[a].run].status.Succeeded?
  {
    LinkedOf(db);
    RunLinked(db, a);
    hide UsageBelow, Counted, Linked, Numbered, AttemptsOk, SnapsOk, FanOk, AgentsOk, BookOk, RunsOk;
    CountedOf(db, db.attempts[a].run);
    SucceededCounted(db.runs[db.attempts[a].run], AttsOf(db, db.attempts[a].run), a);
  }

  // ----- absorption

  /** Once a run is over, its status, proposal, validation and usage never change. */
  lemma TerminalForever(db: Db, ops: seq<Op>, r: nat)
    requires Inv(db) && r in db.runs && Terminal(db.runs[r].status)
    ensures var d := Exec(db, ops);
      r in d.runs && d.runs[r].status == db.runs[r].status && SameVerdict(db.runs[r], d.runs[r])
  {
    hide Inv, Evolves, Exec;
    ExecEvolves(db, ops);
    RunLater(db, Exec(db, ops), r);
  }

  // ----- cancellation wins

  /** From the moment a cancellation is requested, whatever anyone does: the run is still running
      or cancelled, its verdict stays as it was, and no position is ever opened for it. */
  lemma CancellationWins(db: Db, ops: seq<Op>, r: nat)
    requires Inv(db) && r in db.runs && db.runs[r].cancelRequested
    ensures var d := Exec(db, ops);
      && r in d.runs && d.runs[r].cancelRequested
      && (d.runs[r].status.Running? || d.runs[r].status.Cancelled?)
      && SameVerdict(db.runs[r], d.runs[r])
      && (forall p <- d.positions :: d.positions[p].run != r)
  {
    ExecEvolves(db, ops);
    var d := Exec(db, ops);
    assert RunEvolves(db.runs[r], d.runs[r]) by {
      hide Inv, RunEvolves, RowEvolves, AttEvolves, Exec;
    }
    RowOk(db, r);
    RowOk(d, r);
    assert (d.runs[r].status.Running? || d.runs[r].status.Cancelled?) by {
      hide Inv, Exec, UsageBelow, Numbered, Evolves, Counted, Budgeted;
    }
    NoPosition(d, r);
    hide Inv, Exec, Evolves, UsageBelow, Numbered, Counted, Budgeted;
  }

  lemma NoPosition(db: Db, r: nat)
    requires Inv(db) && r in db.runs && !db.runs[r].status.Succeeded?
    ensures forall p <- db.positions :: db.positions[p].run != r
  {
    hide RunsOk, AttemptsOk, SnapsOk, FanOk, AgentsOk, RowInv;
  }

  /** While it is requested, no call of the run's attempts is authorized, and none moves the shadow book. */
  lemma CancelledCalls(db: Db, a: nat, fence: nat, tool: string, i: CompleteInput, now: int, clock: int, host: int)
    requires Linked(db) && a in db.attempts && RunOf(db, a).cancelRequested
    ensures AuthorizeAnswer(db, a, fence, tool, now).Err?
    ensures var d := CompleteDb(db, a, fence, i, now, clock, host);
      && d.positions == db.positions && d.events == db.events
      && (d != db ==> d.runs[db.attempts[a].run].status.Cancelled?)
  {
    RunLinked(db, a);
    hide Linked, CompareOf, Judge, BookDb, AgentOf, WaitRow, SucceedRow, Waits;
  }

  // ----- tools

  /** The step is an authorized call of a declared tool inside the budget. */
  ghost predicate Authorized(db: Db, op: Op, a: nat)
    requires Linked(db) && a in db.attempts
  {
    && op.AuthorizeTool? && op.attempt == a
    && op.tool in AgentOf(db, a).allowedTools && !RunOf(db, a).cancelRequested
    && db.attempts[a].toolCalls < AgentOf(db, a).budgets.maxToolCalls
  }

  /** Whatever the step, an attempt's tool calls grow by one exactly on an authorized call that finds
      the attempt current, and otherwise stay. */
  lemma ToolCallsCounted(db: Db, op: Op, a: nat)
    requires Linked(db) && a in db.attempts && db.nextAttempt !in db.attempts
    ensures var d := Apply(db, op);
      && a in d.attempts
      && d.attempts[a].toolCalls ==
           db.attempts[a].toolCalls
           + (if Authorized(db, op, a) && Current(db, a, op.fence, op.now) then 1 else 0)
  {
    hide Linked, CompleteDb, AuthorizeDb, ReconcileDb, IngestDb, ClaimDb, Current, AgentOf, RunOf;
    match op
    case Complete(b, f, i, now, clock, host) => ToolsComplete(db, b, f, i, now, clock, host, a);
    case AuthorizeTool(b, f, tool, now) => ToolsAuthorize(db, b, f, tool, now, a);
    case Reconcile(id, now) => ToolsReconcile(db, id, now);
    case Ingest(i, now) => ToolsIngest(db, i, now);
    case Claim(w, rt, lease, locked, now) => ToolsClaim(db, w, rt, lease, locked, now, a);
    case _ => hide Apply; ToolsOther(db, op, a);
  }

  lemma ToolsAuthorize(db: Db, b: nat, fence: nat, tool: string, now: int, a: nat)
    requires Linked(db) && a in db.attempts
    ensures var d := AuthorizeDb(db, b, fence, tool, now);
      && a in d.attempts
      && d.attempts[a].toolCalls ==
           db.attempts[a].toolCalls
           + (if Authorized(db, AuthorizeTool(b, fence, tool, now), a) && Current(db, a, fence, now) then 1 else 0)
  {
    hide Linked;
  }

  lemma ToolsIngest(db: Db, i: IngestInput, now: int)
    ensures IngestDb(db, i, now).attempts == db.attempts
  {
    hide IngestOk, Known, FanOut, TargetIds;
  }

  lemma ToolsClaim(db: Db, worker: string, runtimes: set<string>, lease: int, locked: set<nat>, now: int, a: nat)
    requires Linked(db) && a in db.attempts && db.nextAttempt !in db.attempts
    ensures var d := ClaimDb(db, worker, runtimes, lease, locked, now);
      a in d.attempts && d.attempts[a] == db.attempts[a]
  {
    hide Linked, First, Claimable;
  }

  lemma ToolsOther(db: Db, op: Op, a: nat)
    requires Linked(db) && a in db.attempts
    requires !op.Complete? && !op.AuthorizeTool? && !op.Reconcile? && !op.Ingest? && !op.Claim?
    ensures var d := Apply(db, op); a in d.attempts && d.attempts[a].toolCalls == db.attempts[a].toolCalls
  {
    hide Linked;
    if RewritesRuns(op) {
      hide Apply;
      ToolsRewrite(db, op, a);
    } else {
      hide AgentOf, RunOf;
    }
  }

  /** Such a step leaves the other tables alone; an attempt it touches ends without a result. */
  predicate AttemptRewrite(t: Attempt, u: Attempt) {
    u == t || u == t.(status := AttFailed) || u == t.(status := AttCancelled) || u == t.(status := AttExpired)
  }

  ghost predicate TablesRewritten(db: Db, d: Db) {
    && d.attempts.Keys == db.attempts.Keys && (forall a <- db.attempts :: AttemptRewrite(db.attempts[a], d.attempts[a]))
    && d.positions == db.positions && d.events == db.events && d.snaps == db.snaps && d.agents == db.agents
  }

  lemma FinishTables(db: Db, a: nat, s: AttemptStatus, x: Run)
    requires a in db.attempts && (s.AttFailed? || s.AttCancelled?)
    ensures TablesRewritten(db, Finish(db, a, s, db.attempts[a].usage, x))
  {
  }

  /** The attempts stay, or at most lapse; the runs may be anything. */
  lemma RunTables(db: Db, d: Db)
    requires d == db.(runs := d.runs, attempts := d.attempts) && d.attempts.Keys == db.attempts.Keys
    requires forall a <- db.attempts ::
      d.attempts[a] == db.attempts[a] || d.attempts[a] == db.attempts[a].(status := AttExpired)
    ensures TablesRewritten(db, d)
  {
  }

  lemma FailTables(db: Db, a: nat, fence: nat, retryable: bool, now: int)
    requires Linked(db)
    ensures TablesRewritten(db, FailDb(db, a, fence, retryable, now))
  {
    RunTables(db, db);
    hide CancelRow, RequeueOrFail, TablesRewritten, Finish;
    if Current(db, a, fence, now) {
      RunLinked(db, a);
      hide Linked;
      var x, src := RunOf(db, a), SourceOf(db, db.attempts[a].run);
      FinishTables(db, a, AttFailed,
                   if x.cancelRequested then CancelRow(x, src) else RequeueOrFail(x, retryable, src, now));
    }
  }

  lemma AckTables(db: Db, a: nat, fence: nat)
    requires Linked(db)
    ensures TablesRewritten(db, AckCancelDb(db, a, fence))
  {
    RunTables(db, db);
    hide CancelRow, TablesRewritten, Finish;
    if Fenced(db, a, fence) {
      RunLinked(db, a);
      hide Linked;
      FinishTables(db, a, AttCancelled, CancelRow(RunOf(db, a), SourceOf(db, db.attempts[a].run)));
    }
  }

  lemma CallTables(db: Db, op: Op)
    requires Linked(db) && (op.Fail? || op.AckCancel?)
    ensures TablesRewritten(db, Apply(db, op))
  {
    hide Linked, TablesRewritten, FailDb, AckCancelDb;
    if op.Fail? {
      FailTables(db, op.attempt, op.fence, op.retryable, op.now);
    } else {
      AckTables(db, op.attempt, op.fence);
    }
  }

  lemma OtherTables(db: Db, op: Op)
    requires Linked(db) && RewritesRuns(op) && !op.Fail? && !op.AckCancel?
    ensures TablesRewritten(db, Apply(db, op))
  {
    hide Linked, CancelRow, LapseRow, AgeRow, WakeRow, Recomputed, Owns, Due, Aged, TablesRewritten, CancelAnswerOf,
         Dead, Known, SourceOf;
    RunTables(db, Apply(db, op));
  }

  lemma RewriteTables(db: Db, op: Op)
    requires Linked(db) && RewritesRuns(op)
    ensures TablesRewritten(db, Apply(db, op))
  {
    hide Linked, Apply, TablesRewritten;
    if op.Fail? || op.AckCancel? {
      CallTables(db, op);
    } else {
      OtherTables(db, op);
    }
  }

  lemma ToolsRewrite(db: Db, op: Op, a: nat)
    requires Linked(db) && a in db.attempts && RewritesRuns(op)
    ensures var d := Apply(db, op); a in d.attempts && d.attempts[a].toolCalls == db.attempts[a].toolCalls
  {
    RewriteTables(db, op);
    hide *;
    ToolsTouched(db, Apply(db, op), a);
  }

  lemma ToolsTouched(db: Db, d: Db, a: nat)
    requires TablesRewritten(db, d) && a in db.attempts
    ensures a in d.attempts && d.attempts[a].toolCalls == db.attempts[a].toolCalls
  {
    assert AttemptRewrite(db.attempts[a], d.attempts[a]);
  }

  lemma ToolsComplete(db: Db, b: nat, fence: nat, i: CompleteInput, now: int, clock: int, host: int, a: nat)
    requires Linked(db) && a in db.attempts
    ensures var d := CompleteDb(db, b, fence, i, now, clock, host);
      a in d.attempts && d.attempts[a].toolCalls == db.attempts[a].toolCalls
  {
    hide BookDb, Judge, CompareOf, AddUsage, WaitRow, SucceedRow, CancelRow;
    if Current(db, b, fence, now) {
      RunLinked(db, b);
      hide Linked;
      var x := RunOf(db, b);
      var s, d := db.snaps[x.snap], ProposalOf(i);
      var v := Judge(s, d, clock, AgentOf(db, b).budgets.freshnessSeconds * SECOND);
      var e := Finish(db, b, AttSucceeded, i.usage, SucceedRow(x, d, v, i.usage, s.source));
      BookAttempts(e, x.agent, db.attempts[b].run, s, d, v, now, clock, host);
    }
  }

  lemma BookAttempts(db: Db, agent: nat, run: nat, s: Snapshot, d: Decision, v: Validation, now: int, clock: int,
                     host: int)
    ensures BookDb(db, agent, run, s, d, v, now, clock, host).attempts == db.attempts
  {
    hide WakeIn, RunRow, WakeRowOps, WakeNote, OpenConflict, NewPosition;
  }

  lemma {:induction false} MissesAttempts(db: Db, id: int, es: seq<nat>, now: int)
    requires id in db.positions
    ensures CountMissesDb(db, id, es, now).attempts == db.attempts
    decreases |es|
  {
    if es != [] {
      MissesAttempts(CountMissDb(db, id, es[0], now), id, es[1..], now);
    }
  }

  lemma ToolsReconcile(db: Db, id: int, now: int)
    ensures ReconcileDb(db, id, now).attempts == db.attempts
  {
    if id in db.positions {
      MissesAttempts(db, id, MissedFrom(db, id, 0), now);
    }
  }

  // ----- retries

  /** A failing attempt has used at least one try, so the backoff shift is 4, 8, 16 ... seconds and
      doubles with every retry; a retry is granted only while tries are left. */
  lemma BackoffShift(db: Db, a: nat)
    requires Inv(db) && a in db.attempts && db.attempts[a].status.AttRunning?
    ensures 1 <= Used(RunOf(db, a)) <= RunOf(db, a).maxAttempts
    ensures Backoff(Used(RunOf(db, a))) >= 4 * SECOND
    ensures Backoff(Used(RunOf(db, a)) + 1) == 2 * Backoff(Used(RunOf(db, a)))
  {
    var r := db.attempts[a].run;
    LinkedOf(db);
    RowOk(db, r);
    RunningOnly(db.runs[r], AttsOf(db, r), a);
    var u := Used(RunOf(db, a));
    assert 1 <= u <= RunOf(db, a).maxAttempts by {
      hide Inv, UsageBelow, Numbered, Counted;
    }
    Pow2Grows(u);
  }

  lemma {:induction false} Pow2Grows(n: nat)
    requires n >= 1
    ensures Pow2(n) >= 2
  {
    if n > 1 {
      Pow2Grows(n - 1);
    }
  }

  // ----- termination

  /** How often the run changes status along the way. */
  ghost function Changes(db: Db, ops: seq<Op>, r: nat): nat
    requires Inv(db) && r in db.runs
    decreases |ops|
  {
    if ops == [] then 0
    else
      StepKeeps(db, ops[0]);
      var d := Apply(db, ops[0]);
      (if d.runs[r].status != db.runs[r].status then 1 else 0) + Changes(d, ops[1..], r)
  }

  /** The follow-up budget of the run's agent is at most f before every step. */
  ghost predicate FollowupCap(db: Db, ops: seq<Op>, r: nat, f: int)
    requires Inv(db) && r in db.runs
    decreases |ops|
  {
    ops != [] ==>
      LinkedNow(db) && db.agents[db.runs[r].agent].budgets.maxFollowups <= f &&
      (StepKeeps(db, ops[0]);
       FollowupCap(Apply(db, ops[0]), ops[1..], r, f))
  }

  ghost predicate LinkedNow(db: Db)
    requires Inv(db)
    ensures LinkedNow(db) && Linked(db)
  {
    LinkedOf(db);
    true
  }

  /** Only a completion that waits uses a follow-up, and only below the agent's budget. */
  lemma FollowupStep(db: Db, op: Op, r: nat)
    requires Linked(db) && r in db.runs && (forall q <- db.runs :: q < db.nextRun)
    requires db.agents[db.runs[r].agent].budgets.maxFollowups >= 1
    ensures r in Apply(db, op).runs
    ensures var y := Apply(db, op).runs[r];
      y.followupsUsed <= db.runs[r].followupsUsed
      || y.followupsUsed <= db.agents[db.runs[r].agent].budgets.maxFollowups
  {
    hide Linked, CompleteDb, IngestDb, ReconcileDb;
    match op
    case Complete(a, f, i, now, clock, host) => FollowupComplete(db, a, f, i, now, clock, host, r);
    case Ingest(i, now) => FollowupIngest(db, i, now, r);
    case Reconcile(id, now) => FollowupReconcile(db, id, now);
    case _ => hide Apply; FollowupOther(db, op, r);
  }

  /** Steps that rewrite run rows, other than claims, completions and new runs. */
  predicate RewritesRuns(op: Op) {
    op.SetLegacy? || op.Fail? || op.AckCancel? || op.Cancel? || op.ReapLapsed? || op.ReapDue? || op.ReapAged?
  }

  /** How such a step may rewrite one row. */
  predicate RowRewrite(x: Run, y: Run, src: Source, op: Op) {
    || y == x || y == x.(cancelRequested := true) || y == CancelRow(x, src) || y == AgeRow(x, src)
    || (op.SetLegacy? && y == Recomputed(x.(legacy := Some(op.legacy)), src))
    || (op.Fail? && 0 <= Used(x) && y == RequeueOrFail(x, op.retryable, src, op.now))
    || (op.ReapLapsed? && 0 <= Used(x) && y == LapseRow(x, src, op.now))
    || (op.ReapDue? && y == WakeRow(x, op.now))
  }

  lemma FailRewrites(db: Db, op: Op, r: nat)
    requires Linked(db) && r in db.runs && (op.Fail? || op.AckCancel?)
    ensures r in Apply(db, op).runs && RowRewrite(db.runs[r], Apply(db, op).runs[r], SourceOf(db, r), op)
  {
    assert 0 <= Used(db.runs[r]);
    hide Linked, CancelRow, AgeRow, RequeueOrFail;
  }

  lemma CancelFinds(db: Db, q: nat)
    ensures CancelAnswerOf(db, q).CancelledNow? || CancelAnswerOf(db, q).CancelAsked? ==> q in db.runs
  {
  }

  /** What a cancellation does to one row. */
  lemma CancelledRow(db: Db, q: nat, r: nat)
    requires Linked(db) && r in db.runs
    ensures r in CancelDb(db, q).runs && CancelDb(db, q).snaps == db.snaps && db.runs[r].snap in db.snaps
    ensures CancelDb(db, q).runs[r] ==
      if r == q && CancelAnswerOf(db, q).CancelledNow? then CancelRow(db.runs[r], SourceOf(db, r))
      else if r == q && CancelAnswerOf(db, q).CancelAsked? then db.runs[r].(cancelRequested := true)
      else db.runs[r]
  {
    CancelFinds(db, q);
    hide CancelRow, CancelAnswerOf;
  }

  lemma CancelKeys(db: Db, q: nat)
    requires Linked(db)
    ensures CancelDb(db, q).runs.Keys == db.runs.Keys && CancelDb(db, q).attempts == db.attempts
  {
    hide Linked, CancelRow;
  }

  lemma CancelRewrites(db: Db, op: Op, r: nat)
    requires Linked(db) && r in db.runs && op.Cancel?
    ensures r in Apply(db, op).runs && RowRewrite(db.runs[r], Apply(db, op).runs[r], SourceOf(db, r), op)
  {
    CancelledRow(db, op.run, r);
    hide Linked, CancelRow, AgeRow, CancelDb, CancelAnswerOf;
  }

  lemma LegacyRewrites(db: Db, op: Op, r: nat)
    requires Linked(db) && r in db.runs && op.SetLegacy?
    ensures r in Apply(db, op).runs && RowRewrite(db.runs[r], Apply(db, op).runs[r], SourceOf(db, r), op)
  {
    hide Linked, CancelRow, AgeRow, Recomputed;
  }

  lemma LapseRewrites(db: Db, op: Op, r: nat)
    requires Linked(db) && r in db.runs && op.ReapLapsed?
    ensures r in Apply(db, op).runs && RowRewrite(db.runs[r], Apply(db, op).runs[r], SourceOf(db, r), op)
  {
    hide CancelRow, AgeRow, LapseRow, Owns, Dead;
    var y := Apply(db, op).runs[r];
    assert y == db.runs[r] || y == LapseRow(db.runs[r], SourceOf(db, r), op.now);
  }

  lemma ReapRewrites(db: Db, op: Op, r: nat)
    requires Linked(db) && r in db.runs && (op.ReapDue? || op.ReapAged?)
    ensures r in Apply(db, op).runs && RowRewrite(db.runs[r], Apply(db, op).runs[r], SourceOf(db, r), op)
  {
    hide Linked, CancelRow, AgeRow, WakeRow, Due, Aged;
  }

  lemma Rewrites(db: Db, op: Op, r: nat)
    requires Linked(db) && r in db.runs && RewritesRuns(op)
    ensures r in Apply(db, op).runs && RowRewrite(db.runs[r], Apply(db, op).runs[r], SourceOf(db, r), op)
  {
    hide Linked, Apply, RowRewrite;
    if op.Fail? || op.AckCancel? {
      FailRewrites(db, op, r);
    } else if op.Cancel? {
      CancelRewrites(db, op, r);
    } else if op.SetLegacy? {
      LegacyRewrites(db, op, r);
    } else if op.ReapLapsed? {
      LapseRewrites(db, op, r);
    } else {
      ReapRewrites(db, op, r);
    }
  }

  lemma FollowupRewrite(db: Db, op: Op, r: nat)
    requires Linked(db) && r in db.runs && RewritesRuns(op)
    ensures r in Apply(db, op).runs && Apply(db, op).runs[r].followupsUsed == db.runs[r].followupsUsed
  {
    UsedOf(db, r);
    hide *;
    Rewrites(db, op, r);
    RowsKeepFollowups(db.runs[r], Apply(db, op).runs[r], SourceOf(db, r), op);
  }

  lemma UsedOf(db: Db, r: nat)
    requires Linked(db) && r in db.runs
    ensures 0 <= Used(db.runs[r]) && db.runs[r].snap in db.snaps
  {
  }

  lemma RowsKeepFollowups(x: Run, y: Run, src: Source, op: Op)
    requires RowRewrite(x, y, src, op)
    ensures y.followupsUsed == x.followupsUsed
  {
    hide CompareOf, Backoff;
  }

  /** Steps that leave every run as it is. */
  predicate LeavesRuns(op: Op) {
    op.UpsertAgent? || op.SetEnabled? || op.Heartbeat? || op.AuthorizeTool? || op.SetPendingWait?
    || op.SavePosition? || op.ClosePosition? || op.RaiseAttention? || op.AddNote? || op.RecordWake?
  }

  lemma RunsLeft(db: Db, op: Op)
    requires Linked(db) && LeavesRuns(op)
    ensures Apply(db, op).runs == db.runs
  {
    hide Linked, AuthorizeAnswer, PendingWaitAnswer, Current, ApplyRow, WakeRecorded, WithDefaults;
  }

  lemma ClaimedRow(db: Db, op: Op, r: nat)
    requires Linked(db) && op.Claim? && r in db.runs
    ensures var d := Apply(db, op); r in d.runs && (d.runs[r] == db.runs[r] || d.runs[r] == ClaimRow(db.runs[r]))
  {
    hide Linked, First, Claimable, ClaimRow;
  }

  lemma FollowupOther(db: Db, op: Op, r: nat)
    requires Linked(db) && r in db.runs && !op.Complete? && !op.Ingest? && !op.Reconcile?
    ensures r in Apply(db, op).runs && Apply(db, op).runs[r].followupsUsed == db.runs[r].followupsUsed
  {
    hide Linked, Apply;
    if RewritesRuns(op) {
      FollowupRewrite(db, op, r);
    } else if op.Claim? {
      ClaimedRow(db, op, r);
    } else {
      RunsLeft(db, op);
    }
  }

  lemma BookRuns(db: Db, agent: nat, run: nat, s: Snapshot, d: Decision, v: Validation, now: int, clock: int, host: int)
    ensures BookDb(db, agent, run, s, d, v, now, clock, host).runs == db.runs
  {
    hide WakeIn, RunRow, WakeRowOps, WakeNote, OpenConflict, NewPosition;
  }

  lemma FollowupComplete(db: Db, a: nat, fence: nat, i: CompleteInput, now: int, clock: int, host: int, r: nat)
    requires Linked(db) && r in db.runs && db.agents[db.runs[r].agent].budgets.maxFollowups >= 1
    ensures var d := CompleteDb(db, a, fence, i, now, clock, host);
      r in d.runs &&
      (d.runs[r].followupsUsed <= db.runs[r].followupsUsed
       || d.runs[r].followupsUsed <= db.agents[db.runs[r].agent].budgets.maxFollowups)
  {
    hide BookDb, Judge, CompareOf, AddUsage;
    if Current(db, a, fence, now) {
      RunLinked(db, a);
      hide Linked;
      var x := RunOf(db, a);
      var b := AgentOf(db, a).budgets;
      var s := db.snaps[x.snap];
      var d := ProposalOf(i);
      var v := Judge(s, d, clock, b.freshnessSeconds * SECOND);
      var e := Finish(db, a, AttSucceeded, i.usage, SucceedRow(x, d, v, i.usage, s.source));
      BookRuns(e, x.agent, db.attempts[a].run, s, d, v, now, clock, host);
    }
  }

  lemma FollowupIngest(db: Db, i: IngestInput, now: int, r: nat)
    requires r in db.runs && forall q <- db.runs :: q < db.nextRun
    ensures r in IngestDb(db, i, now).runs && IngestDb(db, i, now).runs[r] == db.runs[r]
  {
    hide IngestOk, Known, TriggerOf;
    if IngestOk(i) && !Known(db, i.idem) {
      EnqueueRows(db, i, TargetIds(db, i), now);
    }
  }

  lemma {:induction false} CountMissesRuns(db: Db, id: int, es: seq<nat>, now: int)
    requires id in db.positions
    ensures CountMissesDb(db, id, es, now).runs == db.runs
    decreases |es|
  {
    if es != [] {
      CountMissesRuns(CountMissDb(db, id, es[0], now), id, es[1..], now);
    }
  }

  lemma FollowupReconcile(db: Db, id: int, now: int)
    ensures ReconcileDb(db, id, now).runs == db.runs
  {
    if id in db.positions {
      CountMissesRuns(db, id, MissedFrom(db, id, 0), now);
    }
  }

  /** Status changes still possible: three per attempt left, plus the phase. */
  function Remaining(x: Run, f: int): int {
    3 * (x.maxAttempts + f - x.attemptsMade) + Phase(x.status)
  }

  lemma RemainingNonNegative(db: Db, r: nat, f: int)
    requires Inv(db) && r in db.runs && db.runs[r].followupsUsed <= f
    ensures Remaining(db.runs[r], f) >= 0
  {
    LinkedOf(db);
    RowOk(db, r);
    hide Inv, UsageBelow, Numbered, Counted, Linked;
  }

  lemma AgentBudget(db: Db, r: nat)
    requires Inv(db) && r in db.runs
    ensures db.runs[r].agent in db.agents && db.agents[db.runs[r].agent].budgets.maxFollowups >= 1
    ensures forall q <- db.runs :: q < db.nextRun
  {
    LinkedOf(db);
    RunIds(db);
    hide RunsOk, AttemptsOk, SnapsOk, FanOk, BookOk;
  }

  /** One step: the measure never rises, falls whenever the status changes, and follow-ups stay inside the cap. */
  lemma RemainingStep(db: Db, op: Op, r: nat, f: int)
    requires Inv(db) && r in db.runs && db.runs[r].followupsUsed <= f
    requires LinkedNow(db) && db.agents[db.runs[r].agent].budgets.maxFollowups <= f
    ensures var d := Apply(db, op);
      && r in d.runs && d.runs[r].followupsUsed <= f
      && Remaining(d.runs[r], f) <= Remaining(db.runs[r], f) - (if d.runs[r].status != db.runs[r].status then 1 else 0)
  {
    hide Inv, Apply, Evolves, Linked;
    AgentBudget(db, r);
    FollowupStep(db, op, r);
    StepKeeps(db, op);
    RunLater(db, Apply(db, op), r);
  }

  /** A run changes status at most 3 * (max attempts + follow-ups left) + phase times, over any history. */
  lemma {:induction false} RunTerminates(db: Db, ops: seq<Op>, r: nat, f: int)
    requires Inv(db) && r in db.runs && db.runs[r].followupsUsed <= f
    requires FollowupCap(db, ops, r, f)
    ensures Changes(db, ops, r) <= Remaining(db.runs[r], f)
    decreases |ops|
  {
    if ops == [] {
      hide Inv;
      RemainingNonNegative(db, r, f);
    } else {
      hide Inv, Apply, Evolves, Linked, Remaining;
      StepKeeps(db, ops[0]);
      RemainingStep(db, ops[0], r, f);
      RunTerminates(Apply(db, ops[0]), ops[1..], r, f);
    }
  }

  // ----- the reaper

  lemma LapseLeavesNone(db: Db, locked: set<nat>, now: int)
    requires Linked(db)
    ensures Dead(LapseDb(db, Dead(db, locked, now), now), locked, now) == {}
  {
    hide Linked, LapseRow;
  }

  lemma WakeLeavesNone(db: Db, now: int, r: nat)
    requires r in db.runs
    ensures r in WakeDueDb(db, now).runs && !Due(WakeDueDb(db, now).runs[r], now)
  {
  }

  lemma AgeLeavesNone(db: Db, locked: set<nat>, now: int, r: nat)
    requires Linked(db) && Linked(AgeDb(db, locked, now)) && r in db.runs && !Due(db.runs[r], now)
    ensures var d := AgeDb(db, locked, now);
      r in d.runs && !Due(d.runs[r], now) && (r !in locked ==> !Aged(d, r, now))
  {
    hide Linked, CompareOf;
  }

  lemma LaterKeepAttempts(db: Db, lapsed: Db, dead: set<nat>, locked: set<nat>, now: int)
    requires Linked(WakeDueDb(lapsed, now))
    ensures Dead(AgeDb(WakeDueDb(lapsed, now), locked, now), dead, now) == Dead(lapsed, dead, now)
    ensures AgeDb(WakeDueDb(lapsed, now), locked, now).runs.Keys == lapsed.runs.Keys
  {
    hide Linked;
  }

  lemma ReapLinks(db: Db, lockedAttempts: set<nat>, lockedRuns: set<nat>, now: int)
    requires Inv(db)
    ensures Linked(db) && Inv(LapseDb(db, Dead(db, lockedAttempts, now), now))
    ensures Linked(LapseDb(db, Dead(db, lockedAttempts, now), now))
    ensures var woken := WakeDueDb(LapseDb(db, Dead(db, lockedAttempts, now), now), now);
      Linked(woken) && Inv(woken) && Inv(AgeDb(woken, lockedRuns, now)) && Linked(AgeDb(woken, lockedRuns, now))
  {
    LinkedOf(db);
    hide *;
    DeadRunning(db, lockedAttempts, now);
    var lapsed := LapseDb(db, Dead(db, lockedAttempts, now), now);
    LapseStep(db, Dead(db, lockedAttempts, now), now);
    LinkedOf(lapsed);
    DueStep(lapsed, now);
    LinkedOf(WakeDueDb(lapsed, now));
    AgeStep(WakeDueDb(lapsed, now), lockedRuns, now);
    LinkedOf(AgeDb(WakeDueDb(lapsed, now), lockedRuns, now));
  }

  /** The reaper's three steps; lockedAttempts and lockedRuns are held by other transactions. */
  ghost function LapsedDb(db: Db, lockedAttempts: set<nat>, now: int): (d: Db)
    requires Inv(db)
    ensures Inv(d) && Linked(d)
  {
    ReapLinks(db, lockedAttempts, {}, now);
    LapseDb(db, Dead(db, lockedAttempts, now), now)
  }

  ghost function WokenDb(db: Db, lockedAttempts: set<nat>, now: int): (d: Db)
    requires Inv(db)
    ensures Inv(d) && Linked(d)
  {
    ReapLinks(db, lockedAttempts, {}, now);
    WakeDueDb(LapsedDb(db, lockedAttempts, now), now)
  }

  ghost function ReapedDb(db: Db, lockedAttempts: set<nat>, lockedRuns: set<nat>, now: int): (d: Db)
    requires Inv(db)
    ensures Inv(d) && Linked(d)
  {
    ReapLinks(db, lockedAttempts, lockedRuns, now);
    AgeDb(WokenDb(db, lockedAttempts, now), lockedRuns, now)
  }

  /** The follow-ups that are due. */
  ghost function DueRuns(db: Db, now: int): set<nat> {
    set r | r in db.runs && Due(db.runs[r], now)
  }

  /** The runs past their queue deadline. */
  ghost function AgedRuns(db: Db, locked: set<nat>, now: int): set<nat>
    requires Linked(db)
  {
    set r | r in db.runs && r !in locked && Aged(db, r, now)
  }

  /** Nothing the reaper could reach is left stuck in the state it leaves: no lapsed lease, no due
      follow-up, no run past its queue deadline, except what another transaction holds locked. */
  lemma ReaperSettles(db: Db, lockedAttempts: set<nat>, lockedRuns: set<nat>, now: int)
    requires Inv(db)
    ensures var d := ReapedDb(db, lockedAttempts, lockedRuns, now);
      Dead(d, lockedAttempts, now) == {} && DueRuns(d, now) == {} && AgedRuns(d, lockedRuns, now) == {}
  {
    ReapLinks(db, lockedAttempts, lockedRuns, now);
    hide Inv, Linked, Dead, LapseDb, WakeDueDb, AgeDb, Aged, Due;
    var lapsed, woken := LapsedDb(db, lockedAttempts, now), WokenDb(db, lockedAttempts, now);
    var d := ReapedDb(db, lockedAttempts, lockedRuns, now);
    LapseLeavesNone(db, lockedAttempts, now);
    LaterKeepAttempts(db, lapsed, lockedAttempts, lockedRuns, now);
    forall r <- d.runs ensures !Due(d.runs[r], now) && (r !in lockedRuns ==> !Aged(d, r, now)) {
      WakeLeavesNone(lapsed, now, r);
      AgeLeavesNone(woken, lockedRuns, now, r);
    }
  }

  // ----- ingest

  /** Two listings of the same runs in agent order are the same listing. */
  lemma {:induction false} ListingUnique(db: Db, rs: set<nat>, p: seq<RunRef>, q: seq<RunRef>, created: bool)
    requires Lists(db, rs, p, created) && Lists(db, rs, q, created)
    ensures p == q
    decreases |p|
  {
    hide Lists;
    SameHead(db, rs, p, q, created);
    if p != [] {
      ListingTail(db, rs, p, created);
      ListingTail(db, rs, q, created);
      ListingUnique(db, rs - {p[0].run}, p[1..], q[1..], created);
      assert p == [p[0]] + p[1..] && q == [q[0]] + q[1..];
    }
  }

  lemma SameHead(db: Db, rs: set<nat>, p: seq<RunRef>, q: seq<RunRef>, created: bool)
    requires Lists(db, rs, p, created) && Lists(db, rs, q, created)
    ensures p == [] <==> q == []
    ensures p != [] ==> p[0] == q[0]
  {
    if p != [] {
      assert p[0].run in rs;
      var k :| 0 <= k < |q| && q[k].run == p[0].run;
      assert q[0].run in rs;
      var j :| 0 <= j < |p| && p[j].run == q[0].run;
      assert k == 0;
    }
  }

  lemma ListingTail(db: Db, rs: set<nat>, p: seq<RunRef>, created: bool)
    requires Lists(db, rs, p, created) && p != []
    ensures Lists(db, rs - {p[0].run}, p[1..], created)
  {
    var t := p[1..];
    forall k | 0 <= k < |t| ensures t[k].run in rs - {p[0].run} {
      assert t[k] == p[k + 1] && p[0].agent < p[k + 1].agent;
    }
    forall r <- rs - {p[0].run} ensures exists k :: 0 <= k < |t| && t[k].run == r {
      var k :| 0 <= k < |p| && p[k].run == r;
      assert t[k - 1] == p[k];
    }
  }

  /** What the first delivery of a key answers. */
  function FirstDelivery(db: Db, i: IngestInput, created: bool): seq<RunRef> {
    var ids := TargetIds(db, i);
    seq(|ids|, k requires 0 <= k < |ids| => RunRef(db.nextRun + k, ids[k], created))
  }

  lemma FirstDeliveryLists(db: Db, i: IngestInput, now: int)
    requires Inv(db) && IngestOk(i) && !Known(db, i.idem)
    ensures var d := IngestDb(db, i, now);
      && db.nextSnap in d.snaps && d.snaps[db.nextSnap].idem == i.idem
      && Lists(d, RunsOfSnap(d, db.nextSnap, None), FirstDelivery(db, i, true), true)
      && Lists(d, RunsOfSnap(d, db.nextSnap, None), FirstDelivery(db, i, false), false)
  {
    RunIds(db);
    SnapIds(db);
    hide Inv, IngestOk, Known, TriggerOf;
    SortedIdsOk(Targets(db, i));
    var ids := TargetIds(db, i);
    EnqueueRows(db, i, ids, now);
    var d := IngestDb(db, i, now);
    ListsFan(db, d, ids, true);
    ListsFan(db, d, ids, false);
  }

  lemma SnapIds(db: Db)
    requires Inv(db)
    ensures forall r <- db.runs :: db.runs[r].snap < db.nextSnap
  {
    hide RunsOk, AttemptsOk, FanOk, AgentsOk, BookOk;
  }

  lemma ListsFan(db: Db, d: Db, ids: seq<nat>, created: bool)
    requires Enqueued(db, d, ids) && Ascending(ids) && d.nextRun == db.nextRun + |ids|
    requires (forall r <- db.runs :: db.runs[r].snap < db.nextSnap && r < db.nextRun)
    requires forall k :: db.nextRun <= k < db.nextRun + |ids| ==> k in d.runs
    ensures var refs := seq(|ids|, k requires 0 <= k < |ids| => RunRef(db.nextRun + k, ids[k], created));
      Lists(d, RunsOfSnap(d, db.nextSnap, None), refs, created)
  {
    hide Enqueued, RunsOfSnap;
    var refs := seq(|ids|, k requires 0 <= k < |ids| => RunRef(db.nextRun + k, ids[k], created));
    var rs := RunsOfSnap(d, db.nextSnap, None);
    forall r | r in rs || db.nextRun <= r < db.nextRun + |ids|
      ensures r in rs && db.nextRun <= r < db.nextRun + |ids| && d.runs[r].agent == ids[r - db.nextRun]
    {
      FannedRow(db, d, ids, r);
    }
    forall r <- rs ensures exists k :: 0 <= k < |refs| && refs[k].run == r {
      assert refs[r - db.nextRun].run == r;
    }
    forall k | 0 <= k < |refs|
      ensures refs[k].created == created && refs[k].run in rs && refs[k].run in d.runs
              && refs[k].agent == d.runs[refs[k].run].agent
    {
      assert refs[k].run == db.nextRun + k;
    }
  }

  /** The runs of the new snapshot are the ones just fanned out. */
  lemma FannedRow(db: Db, d: Db, ids: seq<nat>, r: nat)
    requires Enqueued(db, d, ids) && (forall q <- db.runs :: db.runs[q].snap < db.nextSnap && q < db.nextRun)
    requires forall k :: db.nextRun <= k < db.nextRun + |ids| ==> k in d.runs
    ensures r in RunsOfSnap(d, db.nextSnap, None) <==> db.nextRun <= r < db.nextRun + |ids|
    ensures r in RunsOfSnap(d, db.nextSnap, None) ==> d.runs[r].agent == ids[r - db.nextRun]
  {
  }

  /** No later step adds a run to a stored snapshot or takes one away, so a listing stays a listing. */
  lemma ListsLater(db: Db, d: Db, s: nat, refs: seq<RunRef>, created: bool)
    requires Evolves(db, d) && s in db.snaps
    requires Lists(db, RunsOfSnap(db, s, None), refs, created)
    ensures Lists(d, RunsOfSnap(d, s, None), refs, created)
  {
    assert RunsOfSnap(d, s, None) == RunsOfSnap(db, s, None) by {
      forall r <- d.runs ensures r in RunsOfSnap(d, s, None) <==> r in RunsOfSnap(db, s, None) {
        if r in db.runs {
          RunLater(db, d, r);
        }
      }
    }
    forall r <- db.runs ensures r in d.runs && d.runs[r].agent == db.runs[r].agent {
      RunLater(db, d, r);
    }
    hide Evolves;
  }

  lemma IdemUnique(db: Db, s: nat, idem: string)
    requires Inv(db) && s in db.snaps && db.snaps[s].idem == idem
    ensures Known(db, idem) && SnapOf(db, idem) == s
  {
    hide RunsOk, AttemptsOk, FanOk, AgentsOk, BookOk, Linked;
  }

  lemma SnapLater(db: Db, d: Db, s: nat)
    requires Evolves(db, d) && s in db.snaps
    ensures s in d.snaps && d.snaps[s] == db.snaps[s]
  {
    hide RunEvolves, AttEvolves, RowEvolves;
  }

  /** The references to one agent's runs, or to all, in the same order. */
  function OnlyAgent(refs: seq<RunRef>, agent: Option<nat>): seq<RunRef> {
    if refs == [] then []
    else (if agent.None? || refs[0].agent == agent.value then [refs[0]] else []) + OnlyAgent(refs[1..], agent)
  }

  predicate ByAgent(refs: seq<RunRef>) {
    forall j, k :: 0 <= j < k < |refs| ==> refs[j].agent < refs[k].agent
  }

  lemma ByAgentSplit(refs: seq<RunRef>)
    requires refs != [] && ByAgent(refs)
    ensures ByAgent(refs[1..]) && forall x <- refs[1..] :: refs[0].agent < x.agent
    ensures forall x :: x in refs <==> x == refs[0] || x in refs[1..]
  {
    assert refs == [refs[0]] + refs[1..];
  }

  lemma ByAgentJoin(head: RunRef, rest: seq<RunRef>)
    requires ByAgent(rest) && forall x <- rest :: head.agent < x.agent
    ensures ByAgent([head] + rest)
  {
    forall j, k | 0 <= j < k < |rest| + 1 ensures ([head] + rest)[j].agent < ([head] + rest)[k].agent {
      assert rest[k - 1] in rest;
    }
  }

  lemma {:induction false} OnlyAgentKeeps(refs: seq<RunRef>, agent: Option<nat>)
    requires ByAgent(refs)
    ensures forall x :: x in OnlyAgent(refs, agent) <==> x in refs && (agent.None? || x.agent == agent.value)
    ensures ByAgent(OnlyAgent(refs, agent))
  {
    hide ByAgent;
    if refs == [] {
      ByAgentNone();
    } else {
      var rest := OnlyAgent(refs[1..], agent);
      ByAgentSplit(refs);
      OnlyAgentKeeps(refs[1..], agent);
      ByAgentJoin(refs[0], rest);
      assert [] + rest == rest;
    }
  }

  lemma ByAgentNone()
    ensures ByAgent([])
  {
  }

  /** A listing of a snapshot's runs, cut down to one agent, is the listing of that agent's runs. */
  lemma ListsOnly(db: Db, s: nat, refs: seq<RunRef>, agent: Option<nat>, created: bool)
    requires Lists(db, RunsOfSnap(db, s, None), refs, created)
    ensures Lists(db, RunsOfSnap(db, s, agent), OnlyAgent(refs, agent), created)
  {
    var all, some, f := RunsOfSnap(db, s, None), RunsOfSnap(db, s, agent), OnlyAgent(refs, agent);
    OnlyAgentKeeps(refs, agent);
    forall k | 0 <= k < |f|
      ensures f[k].created == created && f[k].run in some && f[k].run in db.runs
              && f[k].agent == db.runs[f[k].run].agent
    {
      assert f[k] in f;
    }
    forall r <- some ensures exists k :: 0 <= k < |f| && f[k].run == r {
      assert r in all;
      var j :| 0 <= j < |refs| && refs[j].run == r;
      assert refs[j] in f;
    }
  }

  lemma ExecFirst(db: Db, op: Op, rest: seq<Op>)
    requires Inv(db) && Linked(db) && Inv(Apply(db, op))
    ensures Exec(db, [op] + rest) == Exec(Apply(db, op), rest)
  {
    hide Inv, Apply, Linked;
    assert ([op] + rest)[0] == op && ([op] + rest)[1..] == rest;
  }

  /** In any later state the stored runs of a key list as its first delivery did. */
  lemma ReplayLists(e: Db, d: Db, s: nat, first: seq<RunRef>, again: IngestInput, later: int, refs: seq<RunRef>)
    requires Inv(d) && Evolves(e, d) && s in e.snaps && e.snaps[s].idem == again.idem
    requires Lists(e, RunsOfSnap(e, s, None), first, false)
    ensures Known(d, again.idem) && SnapOf(d, again.idem) == s && IngestDb(d, again, later) == d
    ensures Lists(d, RunsOfSnap(d, s, again.agent), refs, false) <==> refs == OnlyAgent(first, again.agent)
  {
    hide *;
    SnapLater(e, d, s);
    IdemUnique(d, s, again.idem);
    ListsLater(e, d, s, first, false);
    KnownIngest(d, again, later);
    var listed, rs := OnlyAgent(first, again.agent), RunsOfSnap(d, s, again.agent);
    ListsOnly(d, s, first, again.agent, false);
    if Lists(d, rs, refs, false) {
      ListingUnique(d, rs, refs, listed, false);
    }
  }

  lemma ApplyIngest(db: Db, i: IngestInput, now: int)
    requires Linked(db)
    ensures Apply(db, Ingest(i, now)) == IngestDb(db, i, now)
  {
    hide Linked, IngestDb;
  }

  /** After the first delivery of a key, whatever happens in between, another delivery of it changes
      nothing and lists exactly the runs the first one created, even for agents that match since; a
      delivery that names one agent lists that agent's run among them, if there is one. */
  lemma IngestReplay(db: Db, i: IngestInput, now: int, ops: seq<Op>, again: IngestInput, later: int, refs: seq<RunRef>)
    requires Inv(db) && IngestOk(i) && !Known(db, i.idem) && again.idem == i.idem
    ensures var d := Exec(db, [Ingest(i, now)] + ops);
      && Known(d, i.idem) && SnapOf(d, i.idem) == db.nextSnap
      && IngestDb(d, again, later) == d
      && (Lists(d, RunsOfSnap(d, SnapOf(d, i.idem), again.agent), refs, false) <==>
            refs == OnlyAgent(FirstDelivery(db, i, false), again.agent))
  {
    hide *;
    LinkedOf(db);
    StepKeeps(db, Ingest(i, now));
    FirstDeliveryLists(db, i, now);
    var e := Apply(db, Ingest(i, now));
    ApplyIngest(db, i, now);
    ExecFirst(db, Ingest(i, now), ops);
    ExecEvolves(e, ops);
    ReplayLists(e, Exec(e, ops), db.nextSnap, FirstDelivery(db, i, false), again, later, refs);
  }

  lemma KnownIngest(db: Db, i: IngestInput, now: int)
    requires Known(db, i.idem)
    ensures IngestDb(db, i, now) == db
  {
  }
}

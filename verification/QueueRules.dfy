/** What each step of the queue does, in the columns of its rows: who is leased, woken, expired or
    cancelled and when, what a completion records, and whom a delivery reaches. */
module QueueRules {
  import opened Common
  import opened Domain
  import opened RunQueue
  import opened QueueInvariants
  import opened QueueSteps
  import opened QueueTheorems

  // ----- claim

  /** The run waits for this worker: queued and due, its agent switched on or the run asked for by an
      operator, on a runtime the worker has, and locked by no one. */
  predicate MayLease(db: Db, r: nat, runtimes: set<string>, locked: set<nat>, now: int) {
    && r in db.runs && r !in locked && db.runs[r].status.Queued? && db.runs[r].runAfter <= now
    && db.runs[r].agent in db.agents
    && (db.agents[db.runs[r].agent].enabled || "operator:" <= db.runs[r].trigger)
    && db.agents[db.runs[r].agent].runtime in runtimes
  }

  /** A claim changes nothing exactly when no run waits for the worker. Otherwise it leases one of those
      that wait, and none of them was to run earlier, or as early under a smaller id. */
  lemma ClaimRule(db: Db, worker: string, runtimes: set<string>, lease: int, locked: set<nat>, now: int)
    requires Inv(db) && Linked(db)
    ensures var d, a := Apply(db, Claim(worker, runtimes, lease, locked, now)), db.nextAttempt;
      if exists r :: MayLease(db, r, runtimes, locked, now) then
        && a !in db.attempts && a in d.attempts
        && var t := d.attempts[a];
        && t.run in db.runs && MayLease(db, t.run, runtimes, locked, now)
        && d.runs[t.run] == db.runs[t.run].(status := Running, attemptsMade := db.runs[t.run].attemptsMade + 1)
        && t.status.AttRunning? && t.worker == worker && t.leaseUntil == now + lease && t.toolCalls == 0
        && t.pendingWait.None?
        && forall s :: MayLease(db, s, runtimes, locked, now) ==>
             db.runs[t.run].runAfter < db.runs[s].runAfter
             || (db.runs[t.run].runAfter == db.runs[s].runAfter && t.run <= s)
      else d == db
  {
    hide Inv, Linked, First;
    FreshAttempt(db);
    var c := Claimable(db, runtimes, locked, now);
    forall r ensures r in c <==> MayLease(db, r, runtimes, locked, now) {
      ClaimableIs(db, runtimes, locked, now, r);
    }
    hide Claimable, MayLease;
    if c != {} {
      assert exists r :: MayLease(db, r, runtimes, locked, now) by {
        var r :| r in c;
      }
      ClaimTaken(db, First(db, c), c, worker, lease, now);
    }
  }

  lemma ClaimableIs(db: Db, runtimes: set<string>, locked: set<nat>, now: int, r: nat)
    requires Linked(db)
    ensures r in Claimable(db, runtimes, locked, now) <==> MayLease(db, r, runtimes, locked, now)
    ensures r in Claimable(db, runtimes, locked, now) ==> r in db.runs
  {
    if r in db.runs {
      assert db.runs[r].agent in db.agents;
    }
    hide Linked;
  }

  lemma ClaimTaken(db: Db, r: nat, c: set<nat>, worker: string, lease: int, now: int)
    requires r in c && (forall s <- c :: s in db.runs) && forall s <- c :: NotLater(db, r, s)
    ensures var d := ClaimRunDb(db, r, worker, lease, now);
      && db.nextAttempt in d.attempts
      && var t := d.attempts[db.nextAttempt];
      && t.run == r && d.runs[r] == db.runs[r].(status := Running, attemptsMade := db.runs[r].attemptsMade + 1)
      && t.status.AttRunning? && t.worker == worker && t.leaseUntil == now + lease && t.toolCalls == 0
      && t.pendingWait.None?
      && forall s <- c ::
           db.runs[r].runAfter < db.runs[s].runAfter || (db.runs[r].runAfter == db.runs[s].runAfter && r <= s)
  {
    forall s <- c ensures
      db.runs[r].runAfter < db.runs[s].runAfter || (db.runs[r].runAfter == db.runs[s].runAfter && r <= s)
    {
      assert NotLater(db, r, s);
    }
  }

  // ----- calls of the owning worker

  /** The caller holds the attempt: its fence, running, inside its lease. */
  predicate Holds(db: Db, a: nat, fence: nat, now: int) {
    && a in db.attempts && db.attempts[a].fence == fence && db.attempts[a].status.AttRunning?
    && now < db.attempts[a].leaseUntil
  }

  /** A heartbeat of the holder moves the end of the lease to a lease length from now, and nothing else. */
  lemma HeartbeatRule(db: Db, a: nat, fence: nat, lease: int, now: int)
    requires Linked(db)
    ensures var d := Apply(db, Heartbeat(a, fence, lease, now));
      if Holds(db, a, fence, now)
      then d == db.(attempts := db.attempts[a := db.attempts[a].(leaseUntil := now + lease)])
      else d == db
  {
    hide Linked;
  }

  lemma RunColumns(db: Db, a: nat)
    requires Inv(db) && Linked(db) && a in db.attempts
    ensures var r := db.attempts[a].run;
      && r in db.runs && db.runs[r].agent in db.agents && db.runs[r].snap in db.snaps
      && AgentOf(db, a).budgets == db.agents[db.runs[r].agent].budgets
  {
    AgentBudgets(db, db.runs[db.attempts[a].run].agent);
    hide Inv;
  }

  lemma AgentBudgets(db: Db, agent: nat)
    requires Inv(db)
    ensures agent in db.agents ==> db.agents[agent].budgets == WithDefaults(db.agents[agent].budgets)
  {
    hide Linked, RunsOk, AttemptsOk, SnapsOk, FanOk, BookOk, WithDefaults;
  }

  /** The holder may pause this long: ten seconds to an hour, while the agent has follow-ups left, and
      only if a minute after the pause the snapshot is still fresh. */
  predicate MayPause(db: Db, a: nat, fence: nat, seconds: int, now: int, clock: int) {
    && 10 <= seconds <= 3600 && Holds(db, a, fence, now)
    && var r := db.attempts[a].run;
    && r in db.runs && db.runs[r].agent in db.agents && db.runs[r].snap in db.snaps
    && var b := db.agents[db.runs[r].agent].budgets;
    && db.runs[r].followupsUsed < b.maxFollowups
    && clock + (seconds + 60) * SECOND <= db.snaps[db.runs[r].snap].takenAt + b.freshnessSeconds * SECOND
  }

  lemma PauseAnswer(db: Db, a: nat, fence: nat, seconds: int, now: int, clock: int)
    requires Linked(db)
    requires a in db.attempts ==>
      var r := db.attempts[a].run;
      r in db.runs && db.runs[r].agent in db.agents && db.runs[r].snap in db.snaps
      && AgentOf(db, a).budgets == db.agents[db.runs[r].agent].budgets
    ensures PendingWaitAnswer(db, a, fence, seconds, now, clock).Ok? <==> MayPause(db, a, fence, seconds, now, clock)
  {
    if a in db.attempts && seconds >= 10 {
      var r := db.attempts[a].run;
      var b := db.agents[db.runs[r].agent].budgets;
      Truncated(b.freshnessSeconds * SECOND - (clock - db.snaps[db.runs[r].snap].takenAt) - FOLLOWUP_MARGIN, seconds);
    }
    hide Linked, AgentOf, TruncDiv;
  }

  /** A pause is granted, and stored with the attempt, exactly then; otherwise nothing changes. */
  lemma PendingWaitRule(db: Db, a: nat, fence: nat, seconds: int, now: int, clock: int)
    requires Inv(db) && Linked(db)
    ensures PendingWaitAnswer(db, a, fence, seconds, now, clock).Ok? <==> MayPause(db, a, fence, seconds, now, clock)
    ensures var d := Apply(db, SetPendingWait(a, fence, seconds, now, clock));
      if MayPause(db, a, fence, seconds, now, clock)
      then d == db.(attempts := db.attempts[a := db.attempts[a].(pendingWait := Some(seconds))])
      else d == db
  {
    hide Inv, Linked, AgentOf, PendingWaitAnswer;
    if a in db.attempts {
      RunColumns(db, a);
    }
    PauseAnswer(db, a, fence, seconds, now, clock);
  }

  lemma Truncated(x: int, seconds: int)
    requires seconds >= 10
    ensures seconds > TruncDiv(x, SECOND) <==> seconds * SECOND > x
  {
  }

  // ----- complete

  /** What a result of the holder records when the run was not asked to stop: the attempt and the run end
      as waiting exactly if a pause was granted and follow-ups are left, else as succeeded; the run
      carries the proposal, or a hold, and its verdict; a pause ends the granted seconds from now. */
  ghost predicate Delivered(db: Db, d: Db, a: nat, i: CompleteInput, now: int, clock: int)
    requires Linked(db) && a in db.attempts
  {
    var r, t := db.attempts[a].run, db.attempts[a];
    && r in db.runs && db.runs[r].snap in db.snaps && db.runs[r].agent in db.agents && r in d.runs && a in d.attempts
    && var x, y, b := db.runs[r], d.runs[r], db.agents[db.runs[r].agent].budgets;
    && y.proposal == Some(i.proposal.GetOr(HOLD))
    && y.validation == Some(Judge(db.snaps[x.snap], i.proposal.GetOr(HOLD), clock, b.freshnessSeconds * SECOND))
    && d.attempts[a].usage == i.usage
    && (if t.pendingWait.Some? && t.pendingWait.value > 0 && x.followupsUsed < b.maxFollowups
        then
          && d.attempts[a].status.AttWaiting? && y.status.WaitingForEvent?
          && y.waitUntil == Some(now + t.pendingWait.value * SECOND) && y.followupsUsed == x.followupsUsed + 1
        else
          && d.attempts[a].status.AttSucceeded? && y.status.Succeeded? && y.waitUntil.None?
          && y.followupsUsed == x.followupsUsed)
  }

  lemma CompleteRule(db: Db, a: nat, fence: nat, i: CompleteInput, now: int, clock: int, host: int)
    requires Inv(db) && Linked(db)
    ensures var d := Apply(db, Complete(a, fence, i, now, clock, host));
      && (!Holds(db, a, fence, now) ==> d == db)
      && (Holds(db, a, fence, now) && !RunOf(db, a).cancelRequested ==> Delivered(db, d, a, i, now, clock))
      && (Holds(db, a, fence, now) && RunOf(db, a).cancelRequested ==>
            && a in d.attempts && d.attempts[a].status.AttCancelled?
            && db.attempts[a].run in d.runs && d.runs[db.attempts[a].run].status.Cancelled?)
  {
    assert Apply(db, Complete(a, fence, i, now, clock, host)) == CompleteDb(db, a, fence, i, now, clock, host) by {
      hide Linked, CompleteDb, Inv;
    }
    if Holds(db, a, fence, now) {
      RunColumns(db, a);
      DeliveredOrCancelled(db, a, fence, i, now, clock, host);
      hide Inv, Linked, CompleteDb, Apply, Delivered, RunOf;
    } else {
      hide Inv, Linked, Apply, Delivered;
    }
  }

  lemma DeliveredOrCancelled(db: Db, a: nat, fence: nat, i: CompleteInput, now: int, clock: int, host: int)
    requires Linked(db) && Holds(db, a, fence, now)
    requires var r := db.attempts[a].run;
      r in db.runs && db.runs[r].agent in db.agents && db.runs[r].snap in db.snaps
      && AgentOf(db, a).budgets == db.agents[db.runs[r].agent].budgets
    ensures var d := CompleteDb(db, a, fence, i, now, clock, host);
      if RunOf(db, a).cancelRequested then
        && a in d.attempts && d.attempts[a].status.AttCancelled?
        && db.attempts[a].run in d.runs && d.runs[db.attempts[a].run].status.Cancelled?
      else Delivered(db, d, a, i, now, clock)
  {
    hide Linked, BookDb, Judge, CompareOf, AddUsage, AgentOf;
    var x, b := RunOf(db, a), AgentOf(db, a).budgets;
    var s, d := db.snaps[x.snap], ProposalOf(i);
    var v := Judge(s, d, clock, b.freshnessSeconds * SECOND);
    var e := Finish(db, a, AttSucceeded, i.usage, SucceedRow(x, d, v, i.usage, s.source));
    BookRuns(e, x.agent, db.attempts[a].run, s, d, v, now, clock, host);
    BookAttempts(e, x.agent, db.attempts[a].run, s, d, v, now, clock, host);
  }

  /** The answer to a result: to an attempt that delivered before, the run's verdict again; to the holder of a
      run not asked to stop, its verdict; a refusal to everyone else. */
  lemma AnswerRule(db: Db, a: nat, fence: nat, i: CompleteInput, now: int, clock: int)
    requires Inv(db) && Linked(db)
    ensures var r := CompleteAnswer(db, a, fence, i, now, clock);
      && (a !in db.attempts || db.attempts[a].fence != fence ==> r == Err(Stale))
      && (a in db.attempts && db.attempts[a].fence == fence ==>
            var run, t := db.attempts[a].run, db.attempts[a];
            && run in db.runs
            && (t.status.AttSucceeded? ==> r == Ok(Outcome(Succeeded, db.runs[run].validation, true)))
            && (t.status.AttWaiting? ==> r == Ok(Outcome(WaitingForEvent, db.runs[run].validation, true)))
            && (t.status.AttFailed? || t.status.AttCancelled? || t.status.AttExpired? ==> r == Err(Stale))
            && (t.status.AttRunning? && t.leaseUntil <= now ==> r == Err(Stale))
            && (Holds(db, a, fence, now) && db.runs[run].cancelRequested ==> r == Err(RunCancelled))
            && (Holds(db, a, fence, now) && !db.runs[run].cancelRequested ==>
                  r.Ok? && !r.value.duplicate
                  && var d := Apply(db, Complete(a, fence, i, now, clock, 0));
                  run in d.runs && r.value.status == d.runs[run].status
                  && r.value.validation == d.runs[run].validation))
  {
    hide Inv, Linked, Judge, AgentOf, Waits, Apply, Delivered;
    if a in db.attempts {
      RunColumns(db, a);
      if Holds(db, a, fence, now) && !RunOf(db, a).cancelRequested {
        CompleteRule(db, a, fence, i, now, clock, 0);
        AnswerDelivered(db, Apply(db, Complete(a, fence, i, now, clock, 0)), a, fence, i, now, clock);
      }
    }
  }

  lemma AnswerDelivered(db: Db, d: Db, a: nat, fence: nat, i: CompleteInput, now: int, clock: int)
    requires Linked(db) && Holds(db, a, fence, now) && !RunOf(db, a).cancelRequested
    requires Delivered(db, d, a, i, now, clock)
    requires AgentOf(db, a).budgets == db.agents[db.runs[db.attempts[a].run].agent].budgets
    ensures var r, run := CompleteAnswer(db, a, fence, i, now, clock), db.attempts[a].run;
      r.Ok? && !r.value.duplicate && run in d.runs && r.value.status == d.runs[run].status
      && r.value.validation == d.runs[run].validation
  {
    hide Linked, Judge, AgentOf;
  }

  /** A tool call is authorized exactly for the holder of a run not asked to stop, for a tool its agent may
      use, while calls are left. */
  lemma AuthorizeRule(db: Db, a: nat, fence: nat, tool: string, now: int)
    requires Inv(db) && Linked(db)
    ensures AuthorizeAnswer(db, a, fence, tool, now).Ok? <==>
      && Holds(db, a, fence, now)
      && var r := db.attempts[a].run;
      && r in db.runs && db.runs[r].agent in db.agents && !db.runs[r].cancelRequested
      && var x := db.agents[db.runs[r].agent];
      && tool in x.allowedTools && db.attempts[a].toolCalls < x.budgets.maxToolCalls
  {
    hide Inv;
    if a in db.attempts {
      RunColumns(db, a);
    }
    hide Linked;
  }

  // ----- cancel

  /** A cancellation ends a run that is queued, waiting or awaiting approval, asks a running one to stop,
      and leaves a finished one, and every other run, as it is. */
  lemma CancelRule(db: Db, q: nat, r: nat)
    requires Linked(db) && r in db.runs
    ensures var d, x := Apply(db, Cancel(q)), db.runs[r];
      && r in d.runs && d.attempts == db.attempts
      && (r != q || x.status.Succeeded? || x.status.Failed? || x.status.Cancelled? || x.status.Expired? ==>
            d.runs[r] == x)
      && (r == q && x.status.Running? ==> d.runs[r] == x.(cancelRequested := true))
      && (r == q && (x.status.Queued? || x.status.WaitingForEvent? || x.status.AwaitingApproval?) ==>
            d.runs[r].status.Cancelled? && d.runs[r].waitUntil.None? && d.runs[r].proposal == x.proposal
            && d.runs[r].validation == x.validation)
  {
    CancelledRow(db, q, r);
    CancelKeys(db, q);
    assert Apply(db, Cancel(q)) == CancelDb(db, q) by {
      hide Linked, CancelDb;
    }
    hide Linked, CancelDb, Apply, CompareOf;
  }

  // ----- the reaper

  /** A run is woken exactly when it waits and its pause is over, and then it is queued to run at once. */
  lemma WakeRule(db: Db, now: int, r: nat)
    requires Linked(db) && r in db.runs
    ensures var d, x := Apply(db, ReapDue(now)), db.runs[r];
      && r in d.runs
      && d.runs[r] == if x.status.WaitingForEvent? && x.waitUntil.Some? && x.waitUntil.value <= now
                      then x.(status := Queued, runAfter := now, waitUntil := None) else x
  {
    hide Linked;
  }

  /** A run expires exactly when it is queued, unlocked, and its agent's deadline has passed since it was
      to run; it ends with the fail-safe hold. */
  lemma ExpireRule(db: Db, locked: set<nat>, now: int, r: nat)
    requires Linked(db) && r in db.runs && db.runs[r].agent in db.agents
    ensures var d, x := Apply(db, ReapAged(locked, now)), db.runs[r];
      && r in d.runs
      && (if x.status.Queued? && r !in locked
             && x.runAfter + db.agents[x.agent].budgets.deadlineSeconds * SECOND < now
          then
            && d.runs[r].status.Expired? && d.runs[r].validation == Some(Validation(true, [], 0.0))
            && d.runs[r].proposal.Some? && d.runs[r].proposal.value.action.Hold?
          else d.runs[r] == x)
  {
    UsedOf(db, r);
    hide Linked, CompareOf;
  }

  // ----- agents and deliveries

  /** An agent's budgets are the given ones where positive, else twelve tool calls, three tries, two
      follow-ups, and a quarter of an hour of deadline and of freshness. */
  lemma BudgetRule(db: Db, id: nat, agent: Agent)
    requires Linked(db)
    ensures var d, b := Apply(db, UpsertAgent(id, agent)), agent.budgets;
      && id in d.agents && d.agents[id] == agent.(budgets := d.agents[id].budgets)
      && var c := d.agents[id].budgets;
      && c.maxToolCalls == (if b.maxToolCalls > 0 then b.maxToolCalls else 12)
      && c.maxAttempts == (if b.maxAttempts > 0 then b.maxAttempts else 3)
      && c.maxFollowups == (if b.maxFollowups > 0 then b.maxFollowups else 2)
      && c.deadlineSeconds == (if b.deadlineSeconds > 0 then b.deadlineSeconds else 900)
      && c.freshnessSeconds == (if b.freshnessSeconds > 0 then b.freshnessSeconds else 900)
  {
    hide Linked;
  }

  /** Switching an agent on or off changes nothing else. */
  lemma EnableRule(db: Db, id: nat, on: bool)
    requires Linked(db)
    ensures var d := Apply(db, SetEnabled(id, on));
      && d == db.(agents := d.agents) && d.agents.Keys == db.agents.Keys
      && (forall a <- db.agents :: a != id ==> d.agents[a] == db.agents[a])
      && (id in db.agents ==> d.agents[id].enabled == on && d.agents[id] == db.agents[id].(enabled := on))
  {
    hide Linked;
  }

  /** The delivery is for this agent: its instrument and granularity, and either no agent is named and it
      is switched on, or it is the one named. */
  predicate Reaches(db: Db, i: IngestInput, agent: nat) {
    && agent in db.agents
    && db.agents[agent].instrument == i.instrument && db.agents[agent].granularity == i.granularity
    && (if i.agent.None? then db.agents[agent].enabled else i.agent.value == agent)
  }

  /** The run a delivery starts for an agent: queued, to run at once, nothing spent. */
  predicate Started(db: Db, x: Run, i: IngestInput, agent: nat, now: int) {
    && agent in db.agents
    && x.agent == agent && x.snap == db.nextSnap && x.status.Queued? && x.runAfter == now
    && x.trigger == (if i.trigger == "" then i.event else i.trigger)
    && x.maxAttempts == db.agents[agent].budgets.maxAttempts
    && x.attemptsMade == 0 && x.followupsUsed == 0 && !x.cancelRequested && x.waitUntil.None?
    && x.proposal.None? && x.validation.None? && x.legacy.None? && x.comparison.Pending? && x.usage == map[]
  }

  ghost predicate HasRun(db: Db, d: Db, i: IngestInput, agent: nat, now: int) {
    exists r :: r in d.runs && r !in db.runs && Started(db, d.runs[r], i, agent, now)
  }

  /** A delivery with a new key, an instrument, a granularity and a payload of at most 96000 bytes stores
      its snapshot and starts one run for each agent it reaches, and for no other; the rest stays. Any
      other delivery changes nothing. */
  lemma IngestRule(db: Db, i: IngestInput, now: int, agent: nat)
    requires Inv(db) && Linked(db)
    ensures var d := Apply(db, Ingest(i, now));
      if i.idem != "" && i.instrument != "" && i.granularity != OtherGranularity("") && 0 < i.bytes <= 96000
         && (forall s <- db.snaps :: db.snaps[s].idem != i.idem)
      then
        && db.nextSnap in d.snaps
        && d.snaps[db.nextSnap] == Snapshot(i.idem, i.instrument, i.granularity, i.source, i.payload, now)
        && (forall r <- db.runs :: r in d.runs && d.runs[r] == db.runs[r])
        && (forall r <- d.runs :: r !in db.runs ==>
              Reaches(db, i, d.runs[r].agent) && Started(db, d.runs[r], i, d.runs[r].agent, now))
        && (Reaches(db, i, agent) ==> HasRun(db, d, i, agent, now))
      else d == db
  {
    hide Inv, Linked, Started, Reaches, HasRun;
    assert Apply(db, Ingest(i, now)) == IngestDb(db, i, now) by {
      ApplyIngest(db, i, now);
    }
    IdsOf(db);
    TargetsAre(db, i);
    hide Apply, TargetIds;
    if IngestOk(i) && !Known(db, i.idem) {
      FannedOut(db, i, TargetIds(db, i), now, agent);
    }
  }

  lemma IdsOf(db: Db)
    requires Inv(db)
    ensures forall r <- db.runs :: r < db.nextRun
    ensures forall a <- db.agents :: db.agents[a].budgets == WithDefaults(db.agents[a].budgets)
  {
    hide Linked, AttemptsOk, SnapsOk, FanOk, BookOk, RunOk, WithDefaults;
  }

  lemma TargetsAre(db: Db, i: IngestInput)
    ensures forall a :: a in TargetIds(db, i) <==> Reaches(db, i, a)
  {
    SortedIdsOk(Targets(db, i));
    hide SortedIds;
  }

  lemma FannedOut(db: Db, i: IngestInput, ids: seq<nat>, now: int, agent: nat)
    requires (forall r <- db.runs :: r < db.nextRun) && (forall a <- ids :: a in db.agents)
    requires forall a <- db.agents :: db.agents[a].budgets == WithDefaults(db.agents[a].budgets)
    requires forall a :: a in ids <==> Reaches(db, i, a)
    ensures var d := Enqueue(db, i, ids, now);
      && db.nextSnap in d.snaps
      && d.snaps[db.nextSnap] == Snapshot(i.idem, i.instrument, i.granularity, i.source, i.payload, now)
      && (forall r <- db.runs :: r in d.runs && d.runs[r] == db.runs[r])
      && (forall r <- d.runs :: r !in db.runs ==>
            Reaches(db, i, d.runs[r].agent) && Started(db, d.runs[r], i, d.runs[r].agent, now))
      && (Reaches(db, i, agent) ==> HasRun(db, d, i, agent, now))
  {
    hide Reaches, WithDefaults, Started;
    var d := Enqueue(db, i, ids, now);
    forall r <- d.runs | r !in db.runs
      ensures d.runs[r].agent in ids && Started(db, d.runs[r], i, d.runs[r].agent, now)
    {
      assert d.runs[r] == NewRun(db.agents, ids[r - db.nextRun], db.nextSnap, TriggerOf(i), now);
      NewRunStarted(db, i, ids[r - db.nextRun], now);
    }
    if Reaches(db, i, agent) {
      var k :| 0 <= k < |ids| && ids[k] == agent;
      assert d.runs[db.nextRun + k] == NewRun(db.agents, agent, db.nextSnap, TriggerOf(i), now);
    }
  }

  lemma NewRunStarted(db: Db, i: IngestInput, agent: nat, now: int)
    requires agent in db.agents && db.agents[agent].budgets == WithDefaults(db.agents[agent].budgets)
    ensures Started(db, NewRun(db.agents, agent, db.nextSnap, TriggerOf(i), now), i, agent, now)
  {
    hide WithDefaults;
  }

  // ----- a pause is kept

  /** The step does not end the pause: no cancellation of the run, no reaper after the pause. */
  predicate KeepsPause(op: Op, r: nat, until: int) {
    (op.Cancel? ==> op.run != r) && (op.ReapDue? ==> op.now < until)
  }

  ghost predicate Pausing(db: Db, r: nat, until: int) {
    r in db.runs && db.runs[r].status.WaitingForEvent? && db.runs[r].waitUntil == Some(until)
  }

  /** A paused run has no running attempt. */
  lemma NobodyRuns(db: Db, r: nat, until: int)
    requires Inv(db) && Linked(db) && Pausing(db, r, until)
    ensures forall a <- db.attempts :: db.attempts[a].run == r ==> !db.attempts[a].status.AttRunning?
  {
    RowOk(db, r);
    NoneRunning(db.runs[r], AttsOf(db, r)) by {
      hide Inv, Linked, UsageBelow, CompareOf, Numbered;
    }
    hide Inv, Linked, RunOk;
    forall a <- db.attempts | db.attempts[a].run == r ensures !db.attempts[a].status.AttRunning? {
      assert a in AttsOf(db, r);
    }
  }

  /** Calls act on their own run alone. */
  lemma OtherCall(db: Db, op: Op, r: nat)
    requires Linked(db) && r in db.runs && (op.Fail? || op.AckCancel? || op.Complete?)
    requires op.attempt in db.attempts && db.attempts[op.attempt].run == r ==>
      !db.attempts[op.attempt].status.AttRunning?
    ensures r in Apply(db, op).runs && Apply(db, op).runs[r] == db.runs[r]
  {
    if op.Complete? {
      hide CompleteDb;
      CompletesOwn(db, op.attempt, op.fence, op.result, op.now, op.clock, op.host, r);
    } else {
      hide Linked, CancelRow, RequeueOrFail, RunOf, SourceOf;
    }
  }

  lemma CompletesOwn(db: Db, a: nat, fence: nat, i: CompleteInput, now: int, clock: int, host: int, r: nat)
    requires Linked(db) && r in db.runs
    requires a in db.attempts && db.attempts[a].run == r ==> !db.attempts[a].status.AttRunning?
    ensures var d := CompleteDb(db, a, fence, i, now, clock, host); r in d.runs && d.runs[r] == db.runs[r]
  {
    hide BookDb, Judge, CompareOf, AddUsage, Waits;
    if Current(db, a, fence, now) {
      RunLinked(db, a);
      hide Linked;
      var x := RunOf(db, a);
      var s, d := db.snaps[x.snap], ProposalOf(i);
      var v := Judge(s, d, clock, AgentOf(db, a).budgets.freshnessSeconds * SECOND);
      var e := Finish(db, a, AttSucceeded, i.usage, SucceedRow(x, d, v, i.usage, s.source));
      BookRuns(e, x.agent, db.attempts[a].run, s, d, v, now, clock, host);
    }
  }

  lemma PauseLapse(db: Db, dead: set<nat>, now: int, r: nat, until: int)
    requires Linked(db) && Pausing(db, r, until) && (forall a <- dead :: a in db.attempts && db.attempts[a].run != r)
    ensures Pausing(LapseDb(db, dead, now), r, until)
  {
    hide Linked, LapseRow;
    assert !Owns(db.attempts, dead, r);
  }

  lemma PauseDecided(db: Db, idem: string, legacy: Legacy, r: nat, until: int)
    requires Linked(db) && Pausing(db, r, until)
    ensures Pausing(Apply(db, SetLegacy(idem, legacy)), r, until)
  {
    hide Linked, CompareOf, Known;
  }

  lemma PauseLapsed(db: Db, locked: set<nat>, now: int, r: nat, until: int)
    requires Linked(db) && Pausing(db, r, until)
    requires forall a <- db.attempts :: db.attempts[a].run == r ==> !db.attempts[a].status.AttRunning?
    ensures Pausing(Apply(db, ReapLapsed(locked, now)), r, until)
  {
    hide Linked, LapseDb, Pausing;
    PauseLapse(db, Dead(db, locked, now), now, r, until);
  }

  lemma PauseReap(db: Db, op: Op, r: nat, until: int)
    requires Linked(db) && Pausing(db, r, until) && KeepsPause(op, r, until)
    requires op.ReapLapsed? || op.ReapDue? || op.ReapAged? || op.SetLegacy?
    requires forall a <- db.attempts :: db.attempts[a].run == r ==> !db.attempts[a].status.AttRunning?
    ensures Pausing(Apply(db, op), r, until)
  {
    AgentThere(db, r, until);
    hide Linked, Apply;
    match op
    case SetLegacy(idem, legacy) => PauseDecided(db, idem, legacy, r, until);
    case ReapLapsed(locked, now) => PauseLapsed(db, locked, now, r, until);
    case ReapDue(now) => WakeRule(db, now, r);
    case ReapAged(locked, now) => ExpireRule(db, locked, now, r);
  }

  lemma AgentThere(db: Db, r: nat, until: int)
    requires Linked(db) && Pausing(db, r, until)
    ensures r in db.runs && db.runs[r].agent in db.agents
  {
  }

  lemma PauseElsewhere(db: Db, op: Op, r: nat, until: int)
    requires Linked(db) && Pausing(db, r, until) && (op.Ingest? || op.Reconcile? || op.Claim?)
    requires forall q <- db.runs :: q < db.nextRun
    ensures Pausing(Apply(db, op), r, until)
  {
    hide Linked, IngestDb, ReconcileDb, ClaimDb;
    match op
    case Ingest(i, now) => FollowupIngest(db, i, now, r);
    case Reconcile(id, now) => FollowupReconcile(db, id, now);
    case Claim(w, runtimes, lease, locked, now) => PauseClaim(db, w, runtimes, lease, locked, now, r);
  }

  lemma PauseCancel(db: Db, q: nat, r: nat, until: int)
    requires Linked(db) && Pausing(db, r, until) && q != r
    ensures Pausing(Apply(db, Cancel(q)), r, until)
  {
    hide Linked, Apply;
    CancelRule(db, q, r);
  }

  lemma StepKeepsPause(db: Db, op: Op, r: nat, until: int)
    requires Inv(db) && Linked(db) && Pausing(db, r, until) && KeepsPause(op, r, until)
    ensures Pausing(Apply(db, op), r, until)
  {
    hide Inv, Linked, Apply;
    NobodyRuns(db, r, until);
    IdsOf(db);
    if op.Ingest? || op.Reconcile? || op.Claim? {
      PauseElsewhere(db, op, r, until);
    } else if op.Cancel? {
      PauseCancel(db, op.run, r, until);
    } else if op.Complete? || op.Fail? || op.AckCancel? {
      OtherCall(db, op, r);
    } else if LeavesRuns(op) {
      RunsLeft(db, op);
    } else {
      PauseReap(db, op, r, until);
    }
  }

  lemma PauseClaim(db: Db, worker: string, runtimes: set<string>, lease: int, locked: set<nat>, now: int, r: nat)
    requires Linked(db) && r in db.runs && !db.runs[r].status.Queued?
    ensures var d := ClaimDb(db, worker, runtimes, lease, locked, now); r in d.runs && d.runs[r] == db.runs[r]
  {
    var c := Claimable(db, runtimes, locked, now);
    forall s <- c ensures s in db.runs && db.runs[s].status.Queued? {
      QueuedOnly(db, runtimes, locked, now, s);
    }
    hide Linked, Claimable, ClaimRow;
  }

  /** A run that pauses until a time is not run, requeued or expired by anyone before it: over every
      history without a cancellation of it in which the reaper's clock stays below that time, it
      stays paused. */
  lemma {:induction false} PauseKept(db: Db, ops: seq<Op>, r: nat, until: int)
    requires Inv(db) && Pausing(db, r, until) && forall op <- ops :: KeepsPause(op, r, until)
    ensures Pausing(Exec(db, ops), r, until)
    decreases |ops|
  {
    hide Inv, Linked, Apply, Pausing, KeepsPause, Evolves;
    if ops != [] {
      LinkedOf(db);
      StepKeeps(db, ops[0]);
      StepKeepsPause(db, ops[0], r, until);
      PauseKept(Apply(db, ops[0]), ops[1..], r, until);
    }
  }
}

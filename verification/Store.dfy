/** The store's transactions as they run: each locks what it needs, updates rows one statement at
    a time, and commits to exactly the step the model gives it. */
module Store {
  import opened Common
  import opened Domain
  import opened Positions
  import opened RunQueue
  import opened QueueInvariants
  import opened QueueSteps
  import opened QueueTheorems

  /** What locking an attempt with its run reads. */
  datatype Lock = Lock(run: nat, status: AttemptStatus, live: bool, cancelRequested: bool,
                       pendingWait: Option<int>, toolCalls: int)

  class Store {
    var agents: map<nat, Agent>
    var snaps: map<nat, Snapshot>
    var runs: map<nat, Run>
    var attempts: map<nat, Attempt>
    var positions: map<int, Position>
    var events: seq<PosEvent>
    var nextSnap: nat
    var nextRun: nat
    var nextAttempt: nat
    var nextFence: nat
    var nextPosition: nat

    ghost function State(): Db
      reads this
    {
      Db(agents, snaps, runs, attempts, positions, events, nextSnap, nextRun, nextAttempt, nextFence, nextPosition)
    }

    ghost predicate Valid()
      reads this
    {
      Linked(State()) && Inv(State())
    }

    constructor ()
      ensures Valid() && State() == EMPTY
    {
      agents, snaps, runs, attempts, positions, events := map[], map[], map[], map[], map[], [];
      nextSnap, nextRun, nextAttempt, nextFence, nextPosition := 1, 1, 1, 1, 1;
      new;
      EmptyInv();
    }

    // ----- statements shared by transactions

    /** Derives the comparison from the proposal and the engine's decision. */
    method Recompute(r: nat)
      requires r in runs && runs[r].snap in snaps
      modifies this`runs
      ensures runs == old(runs)[r := Recomputed(old(runs)[r], snaps[old(runs)[r].snap].source)]
    {
      var x := runs[r];
      var cmp := Pending;
      if x.proposal.Some? && x.legacy.Some? {
        cmp := CompareDecisions(x.proposal.value, x.validation, x.legacy.value);
      } else if x.proposal.Some? && !snaps[x.snap].source.Engine? {
        cmp := NoLegacy;
      }
      runs := runs[r := x.(comparison := cmp)];
    }

    method FinishCancelled(r: nat, a: Option<nat>)
      requires r in runs && runs[r].snap in snaps
      requires a.Some? ==> a.value in attempts
      modifies this`runs, this`attempts
      ensures runs == old(runs)[r := CancelRow(old(runs)[r], snaps[old(runs)[r].snap].source)]
      ensures attempts == if a.Some? && old(attempts)[a.value].status.AttRunning?
                          then old(attempts)[a.value := old(attempts)[a.value].(status := AttCancelled)]
                          else old(attempts)
    {
      if a.Some? && attempts[a.value].status.AttRunning? {
        attempts := attempts[a.value := attempts[a.value].(status := AttCancelled)];
      }
      runs := runs[r := runs[r].(status := Cancelled, waitUntil := None)];
      Recompute(r);
    }

    method Requeue(r: nat, retryable: bool, now: int) returns (status: RunStatus)
      requires r in runs && runs[r].snap in snaps && 0 <= Used(runs[r])
      modifies this`runs
      ensures runs == old(runs)[r := RequeueOrFail(old(runs)[r], retryable, snaps[old(runs)[r].snap].source, now)]
      ensures status == runs[r].status
    {
      var x := runs[r];
      var made := x.attemptsMade - x.followupsUsed;
      if retryable && made < x.maxAttempts {
        runs := runs[r := x.(status := Queued, runAfter := now + Backoff(made))];
        return Queued;
      }
      runs := runs[r := x.(status := Failed, proposal := Some(HOLD), validation := Some(FAILSAFE))];
      Recompute(r);
      status := Failed;
    }

    method LockAttempt(a: nat, fence: nat, now: int) returns (l: Option<Lock>)
      requires a in attempts ==> attempts[a].run in runs
      ensures l.Some? <==> a in attempts && attempts[a].fence == fence
      ensures l.Some? ==>
        var at := attempts[a];
        l.value == Lock(at.run, at.status, at.leaseUntil > now, runs[at.run].cancelRequested, at.pendingWait,
                        at.toolCalls)
    {
      if a !in attempts || attempts[a].fence != fence {
        return None;
      }
      var at := attempts[a];
      l := Some(Lock(at.run, at.status, at.leaseUntil > now, runs[at.run].cancelRequested, at.pendingWait,
                     at.toolCalls));
    }

    lemma AttemptLinked(db: Db, a: nat)
      requires Linked(db)
      ensures a in db.attempts ==>
        var r := db.attempts[a].run;
        r in db.runs && db.runs[r].agent in db.agents && db.runs[r].snap in db.snaps && 0 <= Used(db.runs[r])
    {
    }

    lemma RunsLinked(db: Db)
      requires Linked(db)
      ensures forall r <- db.runs :: db.runs[r].agent in db.agents && db.runs[r].snap in db.snaps
    {
    }

    // ----- agents

    /** An agent may only point at a strategy that has a live version. */
    method UpsertAgent(id: nat, agent: Agent, liveStrategies: set<string>) returns (ok: bool)
      requires Valid()
      modifies this`agents
      ensures Valid() && ok == (agent.strategy == "" || agent.strategy in liveStrategies)
      ensures State() == if ok then UpsertAgentDb(old(State()), id, agent) else old(State())
    {
      ok := agent.strategy == "" || agent.strategy in liveStrategies;
      if !ok {
        return;
      }
      hide Inv, Linked, Evolves;
      UpsertAgentStep(State(), id, agent);
      LinkedOf(UpsertAgentDb(State(), id, agent));
      agents := agents[id := agent.(budgets := WithDefaults(agent.budgets))];
    }

    method SetEnabled(id: nat, enabled: bool) returns (found: bool)
      requires Valid()
      modifies this`agents
      ensures Valid() && State() == SetEnabledDb(old(State()), id, enabled) && found == (id in old(agents))
    {
      hide Inv, Linked, Evolves;
      SetEnabledStep(State(), id, enabled);
      LinkedOf(SetEnabledDb(State(), id, enabled));
      found := id in agents;
      if found {
        agents := agents[id := agents[id].(enabled := enabled)];
      }
    }

    // ----- worker calls

    /** ORDER BY run_after, id LIMIT 1. */
    method Oldest(c: set<nat>) returns (r: nat)
      requires c != {} && forall s <- c :: s in runs
      ensures r in runs && r == First(State(), c)
    {
      OldestExists(runs, State(), c);
      r :| r in c && forall s <- c :: Precedes(runs, r, s);
      OldestIsFirst(runs, State(), c, r);
    }

    static predicate Precedes(rs: map<nat, Run>, r: nat, s: nat) {
      && r in rs && s in rs
      && (rs[r].runAfter < rs[s].runAfter || (rs[r].runAfter == rs[s].runAfter && r <= s))
    }

    lemma OldestExists(rs: map<nat, Run>, db: Db, c: set<nat>)
      requires c != {} && db.runs == rs && forall s <- c :: s in rs
      ensures exists r :: r in c && forall s <- c :: Precedes(rs, r, s)
    {
      var first := First(db, c);
      forall s <- c ensures Precedes(rs, first, s) {
        assert NotLater(db, first, s);
      }
    }

    lemma OldestIsFirst(rs: map<nat, Run>, db: Db, c: set<nat>, r: nat)
      requires c != {} && db.runs == rs && (forall s <- c :: s in rs) && r in c
      requires forall s <- c :: Precedes(rs, r, s)
      ensures r == First(db, c)
    {
      var first := First(db, c);
      assert NotLater(db, first, r) && Precedes(rs, r, first);
    }

    /** SELECT ... FOR UPDATE SKIP LOCKED. */
    method PickRunnable(runtimes: set<string>, locked: set<nat>, now: int) returns (picked: Option<nat>)
      requires Linked(State())
      ensures var c := Claimable(State(), runtimes, locked, now);
        picked == if c == {} then None else Some(First(State(), c))
      ensures picked.Some? ==> picked.value in runs
    {
      RunsLinked(State());
      hide Linked, First;
      var c := set r | r in runs && r !in locked && runs[r].status.Queued? && runs[r].runAfter <= now
                       && (agents[runs[r].agent].enabled || "operator:" <= runs[r].trigger)
                       && agents[runs[r].agent].runtime in runtimes;
      assert c == Claimable(State(), runtimes, locked, now);
      if c == {} {
        return None;
      }
      hide Claimable;
      var r := Oldest(c);
      picked := Some(r);
    }

    /** Leases the oldest runnable run this worker can execute and no one holds locked. */
    method Claim(worker: string, runtimes: set<string>, lease: int, locked: set<nat>, now: int)
      returns (claimed: Option<nat>)
      requires Valid()
      modifies this`runs, this`attempts, this`nextAttempt, this`nextFence
      ensures Valid() && State() == ClaimDb(old(State()), worker, runtimes, lease, locked, now)
      ensures claimed.None? <==> Claimable(old(State()), runtimes, locked, now) == {}
      ensures claimed.Some? ==>
        claimed.value !in old(attempts) && Current(State(), claimed.value, old(nextFence), now + lease - 1)
    {
      hide Inv, Linked, Evolves, Claimable;
      ClaimStep(State(), worker, runtimes, lease, locked, now);
      LinkedOf(ClaimDb(State(), worker, runtimes, lease, locked, now));
      AttemptIds(State());
      var picked := PickRunnable(runtimes, locked, now);
      if picked.None? {
        return None;
      }
      var r := picked.value;
      runs := runs[r := runs[r].(status := Running, attemptsMade := runs[r].attemptsMade + 1)];
      var a := nextAttempt;
      var t := Attempt(r, runs[r].attemptsMade, worker, nextFence, AttRunning, now + lease, None, 0, map[]);
      attempts := attempts[a := t];
      nextAttempt, nextFence := nextAttempt + 1, nextFence + 1;
      claimed := Some(a);
    }

    lemma AttemptIds(db: Db)
      requires Inv(db)
      ensures forall a <- db.attempts :: a < db.nextAttempt
    {
      hide Linked, RunsOk, SnapsOk, FanOk, AgentsOk, BookOk;
    }

    method Heartbeat(a: nat, fence: nat, lease: int, now: int) returns (r: Answer<bool>)
      requires Valid()
      modifies this`attempts
      ensures Valid() && State() == HeartbeatDb(old(State()), a, fence, lease, now)
      ensures
        r == if Current(old(State()), a, fence, now) then Ok(RunOf(old(State()), a).cancelRequested) else Err(Stale)
    {
      hide Inv, Linked, Evolves;
      HeartbeatStep(State(), a, fence, lease, now);
      LinkedOf(HeartbeatDb(State(), a, fence, lease, now));
      AttemptLinked(State(), a);
      var l := LockAttempt(a, fence, now);
      if l.None? || !l.value.status.AttRunning? || !l.value.live {
        return Err(Stale);
      }
      attempts := attempts[a := attempts[a].(leaseUntil := now + lease)];
      r := Ok(l.value.cancelRequested);
    }

    method AuthorizeTool(a: nat, fence: nat, tool: string, now: int) returns (r: Answer<nat>)
      requires Valid()
      modifies this`attempts
      ensures Valid()
      ensures State() == AuthorizeDb(old(State()), a, fence, tool, now)
      ensures r == AuthorizeAnswer(old(State()), a, fence, tool, now)
    {
      hide Inv, Linked, Evolves;
      AuthorizeStep(State(), a, fence, tool, now);
      LinkedOf(AuthorizeDb(State(), a, fence, tool, now));
      AttemptLinked(State(), a);
      var l := LockAttempt(a, fence, now);
      if l.None? || !l.value.status.AttRunning? || !l.value.live {
        return Err(Stale);
      }
      if l.value.cancelRequested {
        return Err(RunCancelled);
      }
      var agent := agents[runs[l.value.run].agent];
      var budgets := WithDefaults(agent.budgets);
      var allowed := false;
      for k := 0 to |agent.allowedTools|
        invariant allowed <==> tool in agent.allowedTools[..k]
      {
        if agent.allowedTools[k] == tool {
          allowed := true;
        }
      }
      if !allowed {
        return Err(Forbidden);
      }
      if l.value.toolCalls >= budgets.maxToolCalls {
        return Err(BudgetSpent);
      }
      attempts := attempts[a := attempts[a].(toolCalls := attempts[a].toolCalls + 1)];
      r := Ok(l.value.run);
    }

    method SetPendingWait(a: nat, fence: nat, seconds: int, now: int, clock: int) returns (r: Answer<()>)
      requires Valid()
      modifies this`attempts
      ensures Valid()
      ensures State() == SetPendingWaitDb(old(State()), a, fence, seconds, now, clock)
      ensures r == PendingWaitAnswer(old(State()), a, fence, seconds, now, clock)
    {
      hide Inv, Linked, Evolves, TruncDiv;
      PendingWaitStep(State(), a, fence, seconds, now, clock);
      LinkedOf(SetPendingWaitDb(State(), a, fence, seconds, now, clock));
      AttemptLinked(State(), a);
      if seconds < 10 || seconds > 3600 {
        return Err(BadDelay);
      }
      var l := LockAttempt(a, fence, now);
      if l.None? || !l.value.status.AttRunning? || !l.value.live {
        return Err(Stale);
      }
      var x := runs[l.value.run];
      var budgets := WithDefaults(agents[x.agent].budgets);
      if x.followupsUsed >= budgets.maxFollowups {
        return Err(BudgetSpent);
      }
      var age := clock - snaps[x.snap].takenAt;
      var limit := TruncDiv(budgets.freshnessSeconds * SECOND - age - FOLLOWUP_MARGIN, SECOND);
      if seconds > limit {
        return Err(PastFreshness);
      }
      attempts := attempts[a := attempts[a].(pendingWait := Some(seconds))];
      r := Ok(());
    }

    // ----- the end of an attempt

    method Fail(a: nat, fence: nat, retryable: bool, now: int) returns (r: Answer<RunStatus>)
      requires Valid()
      modifies this`runs, this`attempts
      ensures Valid() && State() == FailDb(old(State()), a, fence, retryable, now)
      ensures r.Err? <==> !Current(old(State()), a, fence, now)
      ensures r.Ok? ==> r.value == RunOf(State(), a).status
    {
      hide Inv, Linked, Evolves, RequeueOrFail, CancelRow;
      FailStep(State(), a, fence, retryable, now);
      LinkedOf(FailDb(State(), a, fence, retryable, now));
      AttemptLinked(State(), a);
      var l := LockAttempt(a, fence, now);
      if l.None? || !l.value.status.AttRunning? || !l.value.live {
        return Err(Stale);
      }
      attempts := attempts[a := attempts[a].(status := AttFailed)];
      if l.value.cancelRequested {
        FinishCancelled(l.value.run, None);
        assert runs[l.value.run].status.Cancelled? by {
          CancelRowStatus(old(runs)[l.value.run], snaps[old(runs)[l.value.run].snap].source);
        }
        return Ok(Cancelled);
      }
      var status := Requeue(l.value.run, retryable, now);
      r := Ok(status);
    }

    lemma CancelRowStatus(x: Run, source: Source)
      ensures CancelRow(x, source).status.Cancelled?
    {
    }

    /** The worker confirms it stopped; an attempt already over is left alone. */
    method AckCancel(a: nat, fence: nat) returns (known: bool)
      requires Valid()
      modifies this`runs, this`attempts
      ensures Valid() && State() == AckCancelDb(old(State()), a, fence)
      ensures known <==> Fenced(old(State()), a, fence)
    {
      hide Inv, Linked, Evolves, CancelRow;
      AckCancelStep(State(), a, fence);
      LinkedOf(AckCancelDb(State(), a, fence));
      AttemptLinked(State(), a);
      var l := LockAttempt(a, fence, 0);
      if l.None? {
        return false;
      }
      if l.value.status.AttRunning? {
        FinishCancelled(l.value.run, Some(a));
      }
      known := true;
    }

    method Cancel(r: nat) returns (answer: CancelAnswer)
      requires Valid()
      modifies this`runs, this`attempts
      ensures Valid() && State() == CancelDb(old(State()), r) && answer == CancelAnswerOf(old(State()), r)
    {
      hide Inv, Linked, Evolves, CancelRow;
      CancelStep(State(), r);
      LinkedOf(CancelDb(State(), r));
      RunsLinked(State());
      if r !in runs {
        return RunNotFound;
      }
      match runs[r].status {
        case Queued | WaitingForEvent | AwaitingApproval =>
          FinishCancelled(r, None);
          answer := CancelledNow;
        case Running =>
          runs := runs[r := runs[r].(cancelRequested := true)];
          answer := CancelAsked;
        case _ =>
          answer := AlreadyTerminal(runs[r].status);
      }
    }

    // ----- completion

    method ClosePositionTx(id: int, price: real, at: int, reason: ExitReason, now: int) returns (won: bool)
      modifies this`positions, this`events
      ensures State() == ClosePositionDb(old(State()), id, price, at, reason, now)
      ensures won <==> id in old(positions) && old(positions)[id].status == Live
    {
      if id !in positions || positions[id].status != Live {
        return false;
      }
      var p := positions[id];
      var realized := PnL(p.side, p.notional, p.entry, price);
      positions := positions[id := p.(status := Closed(price, at, reason, realized))];
      events := events + [PosEvent(id, ExitNoted, now)];
      won := true;
    }

    /** Applies the result of a tripwire wake, guarding each change again: the monitor may have
        moved the stop or closed the position since the snapshot. */
    method ApplyWake(run: nat, w: WakePosition, d: Decision, price: real, at: int, now: int)
      requires w.id in positions
      modifies this`positions, this`events
      ensures State() == ApplyWakeDb(old(State()), run, w, d, price, at, now)
    {
      var id := w.id;
      RunTwo(positions[id], WakeRowOps(positions[id], d, price, at));
      positions := positions[id := positions[id].(failedWakes := 0)];
      if d.action.Close? {
        var p := positions[id];
        var fill := price;
        if p.lastClose > 0.0 && p.lastBarTime.Some? && at - p.lastBarTime.value < 3 * MINUTE {
          fill := p.lastClose;
        }
        var won := ClosePositionTx(id, fill, at, AgentClose, now);
        if !won {
          events := events + [PosEvent(id, WakeIgnored(run), now)];
        }
      } else if d.action.TightenStop? && d.newStop.Some? {
        var p, ns := positions[id], d.newStop.value;
        var lands := (p.side.Long? && ns > p.stop && ns < price) || (p.side.Short? && ns < p.stop && ns > price);
        if p.status == Live && lands {
          positions := positions[id := p.(stop := ns)];
          events := events + [PosEvent(id, Tightened(run), now)];
        } else {
          events := events + [PosEvent(id, WakeIgnored(run), now)];
        }
      } else if d.action.SetTripwires? {
        var p := positions[id];
        if p.status == Live {
          positions := positions[id := p.(plan := p.plan.(tripwires := d.tripwires), lastFired := map[])];
          events := events + [PosEvent(id, Rewired(run), now)];
        } else {
          events := events + [PosEvent(id, WakeIgnored(run), now)];
        }
      } else {
        events := events + [PosEvent(id, WakeHeld(run), now)];
      }
    }

    lemma RunTwo(p: Position, ops: seq<RowOp>)
      requires 1 <= |ops| <= 2
      ensures RunRow(p, ops) ==
        if |ops| == 1 then ApplyRow(p, ops[0]) else ApplyRow(ApplyRow(p, ops[0]), ops[1])
    {
      var rest, q := ops[1..], ApplyRow(p, ops[0]);
      if rest != [] {
        assert rest[1..] == [];
        assert RunRow(q, rest) == RunRow(ApplyRow(q, rest[0]), rest[1..]);
      }
    }

    /** INSERT ... ON CONFLICT DO NOTHING; an open ignored for a held position leaves an event on it. */
    method OpenPosition(agent: nat, run: nat, s: Snapshot, d: Decision, price: real, at: int, now: int)
      requires BookOk(State())
      modifies this`positions, this`events, this`nextPosition
      ensures State() == OpenDb(old(State()), agent, run, s, d, price, at, now)
    {
      var conflict := exists p <- positions ::
        (positions[p].agent == agent && positions[p].status == Live) || positions[p].run == run;
      if !conflict {
        positions := positions[nextPosition as int := NewPosition(agent, run, s, d, price, at)];
        events := events + [PosEvent(nextPosition, Opened(run), now)];
        nextPosition := nextPosition + 1;
        return;
      }
      if !exists p <- positions :: positions[p].agent == agent && positions[p].status == Live {
        return;
      }
      var held :| held in positions && positions[held].agent == agent && positions[held].status == Live;
      assert HoldsOpen(State(), agent, held);
      if positions[held].run != run {
        events := events + [PosEvent(held, OpenIgnored(run), now)];
      }
    }

    /** Moves the shadow book on a final result: a wake acts on its own agent's position, a valid
        engine entry opens one. */
    method MoveBook(agent: nat, run: nat, s: Snapshot, d: Decision, v: Validation, now: int, clock: int, host: int)
      requires BookOk(State())
      modifies this`positions, this`events, this`nextPosition
      ensures State() == BookDb(old(State()), agent, run, s, d, v, now, clock, host)
    {
      hide BookOk, OpenDb, ApplyWakeDb;
      var wake := if s.source.Monitor? then WakeOf(s.payload) else None;
      if wake.Some? {
        var id := wake.value.id;
        if id !in positions || positions[id].agent != agent {
        } else if v.valid {
          ApplyWake(run, wake.value, d, v.priceUsed, host, now);
        } else {
          events := events + [PosEvent(id, WakeHeld(run), now)];
        }
      } else if v.valid && d.action.Open? && s.source.Engine? {
        OpenPosition(agent, run, s, d, v.priceUsed, clock, now);
      }
    }

    /** The verdict on a proposal, by the rules of the snapshot's source. */
    method Validate(s: Snapshot, d: Decision, clock: int, maxAge: int) returns (v: Validation)
      ensures v == Judge(s, d, clock, maxAge)
    {
      hide JudgeWake, JudgeProposal;
      var wake := if s.source.Monitor? then WakeOf(s.payload) else None;
      if wake.Some? {
        v := ValidateWake(d, wake.value, s.takenAt, clock, maxAge);
      } else {
        v := ValidateProposal(d, FactsOf(s.instrument, s.payload, s.takenAt), clock, maxAge);
      }
    }

    /** The run waits for its follow-up: an interim result, recorded but not acted on. */
    method RecordWaiting(a: nat, d: Decision, v: Validation, used: Usage, seconds: int, now: int)
      requires a in attempts && attempts[a].run in runs && runs[attempts[a].run].snap in snaps
      modifies this`runs, this`attempts
      ensures var r := old(attempts)[a].run;
        var x := old(runs)[r];
        State() == Finish(old(State()), a, AttWaiting, used,
                          WaitRow(x, d, v, used, now + seconds * SECOND, snaps[x.snap].source))
    {
      hide AddUsage, CompareOf;
      var r := attempts[a].run;
      attempts := attempts[a := attempts[a].(status := AttWaiting, usage := used)];
      runs := runs[r := runs[r].(status := WaitingForEvent, followupsUsed := runs[r].followupsUsed + 1,
                                 waitUntil := Some(now + seconds * SECOND), proposal := Some(d), validation := Some(v),
                                 usage := AddUsage(runs[r].usage, used))];
      Recompute(r);
    }

    method RecordFinal(a: nat, d: Decision, v: Validation, used: Usage)
      requires a in attempts && attempts[a].run in runs && runs[attempts[a].run].snap in snaps
      modifies this`runs, this`attempts
      ensures var r := old(attempts)[a].run;
        var x := old(runs)[r];
        State() == Finish(old(State()), a, AttSucceeded, used, SucceedRow(x, d, v, used, snaps[x.snap].source))
    {
      hide AddUsage, CompareOf;
      var r := attempts[a].run;
      attempts := attempts[a := attempts[a].(status := AttSucceeded, usage := used)];
      runs := runs[r := runs[r].(status := Succeeded, waitUntil := None, proposal := Some(d), validation := Some(v),
                                 usage := AddUsage(runs[r].usage, used))];
      Recompute(r);
    }

    method Complete(a: nat, fence: nat, i: CompleteInput, now: int, clock: int, host: int) returns (r: Answer<Outcome>)
      requires Valid()
      modifies this`runs, this`attempts, this`positions, this`events, this`nextPosition
      ensures Valid() && State() == CompleteDb(old(State()), a, fence, i, now, clock, host)
      ensures r == CompleteAnswer(old(State()), a, fence, i, now, clock)
    {
      hide Inv, Linked, Evolves, WaitRow, SucceedRow, CancelRow, BookDb, Judge;
      ghost var db := State();
      CompleteStep(db, a, fence, i, now, clock, host);
      LinkedOf(CompleteDb(db, a, fence, i, now, clock, host));
      AttemptLinked(db, a);
      var l := LockAttempt(a, fence, now);
      if l.None? {
        return Err(Stale);
      }
      var x := runs[l.value.run];
      if l.value.status.AttSucceeded? || l.value.status.AttWaiting? {
        var status := if l.value.status.AttSucceeded? then Succeeded else WaitingForEvent;
        return Ok(Outcome(status, x.validation, true));
      }
      if !l.value.status.AttRunning? || !l.value.live {
        return Err(Stale);
      }
      if l.value.cancelRequested {
        FinishCancelled(l.value.run, Some(a));
        return Err(RunCancelled);
      }
      var s, agent := snaps[x.snap], agents[x.agent];
      var budgets := WithDefaults(agent.budgets);
      var d := if i.proposal.Some? then i.proposal.value else HOLD;
      var v := Validate(s, d, clock, budgets.freshnessSeconds * SECOND);
      if l.value.pendingWait.Some? && l.value.pendingWait.value > 0 && x.followupsUsed < budgets.maxFollowups {
        RecordWaiting(a, d, v, i.usage, l.value.pendingWait.value, now);
        r := Ok(Outcome(WaitingForEvent, Some(v), false));
      } else {
        SucceedStep(db, a, d, v, i.usage);
        RecordFinal(a, d, v, i.usage);
        BookOf(State());
        MoveBook(x.agent, l.value.run, s, d, v, now, clock, host);
        r := Ok(Outcome(Succeeded, Some(v), false));
      }
    }

    // ----- the reaper

    /** Lapsed leases, one row after another in whatever order the rows come. */
    method ReapLapsedLeases(locked: set<nat>, now: int) returns (expired: nat)
      requires Valid()
      modifies this`runs, this`attempts
      ensures Valid() && State() == LapseDb(old(State()), Dead(old(State()), locked, now), now)
      ensures expired == |Dead(old(State()), locked, now)|
    {
      hide Inv, Linked, Evolves, LapseDb, Dead, AllRunning;
      ghost var db := State();
      var dead := DeadRows(locked, now);
      DeadRunning(db, locked, now);
      LapseStep(db, dead, now);
      LinkedOf(LapseDb(db, dead, now));
      expired := |dead|;
      LapseEach(dead, now);
    }

    /** Row by row, in any order. */
    method LapseEach(dead: set<nat>, now: int)
      requires Linked(State()) && Inv(State()) && AllRunning(State(), dead)
      modifies this`runs, this`attempts
      ensures State() == LapseDb(old(State()), dead, now)
    {
      hide Inv, Linked, LapseDb, AllRunning, LapseRow;
      ghost var db := State();
      var left := dead;
      LapseNone(db, now);
      assert dead - left == {};
      while left != {}
        invariant left <= dead
        invariant State() == LapseDb(db, dead - left, now)
      {
        var a :| a in left;
        LapseOne(db, dead, dead - left, a, now);
        LapseAttempt(a, now);
        assert dead - (left - {a}) == (dead - left) + {a};
        left := left - {a};
      }
      assert dead - {} == dead;
    }

    /** The attempt ends, and its run is cancelled if asked, else requeued or failed. */
    method LapseAttempt(a: nat, now: int)
      requires a in attempts && attempts[a].run in runs
      requires runs[attempts[a].run].snap in snaps && 0 <= Used(runs[attempts[a].run])
      modifies this`runs, this`attempts
      ensures attempts == old(attempts)[a := Lapsed(old(attempts)[a])]
      ensures var r := old(attempts)[a].run;
        runs == old(runs)[r := LapseRow(old(runs)[r], snaps[old(runs)[r].snap].source, now)]
    {
      hide CancelRow, RequeueOrFail;
      var r := attempts[a].run;
      var cancel := runs[r].cancelRequested;
      attempts := attempts[a := attempts[a].(status := AttExpired)];
      if cancel {
        FinishCancelled(r, None);
      } else {
        var _ := Requeue(r, true, now);
      }
    }

    method DeadRows(locked: set<nat>, now: int) returns (dead: set<nat>)
      ensures dead == Dead(State(), locked, now)
    {
      dead := set a | a in attempts && attempts[a].status.AttRunning? && attempts[a].leaseUntil < now && a !in locked;
    }

    lemma LapseNone(db: Db, now: int)
      requires Linked(db)
      ensures LapseDb(db, {}, now) == db
    {
      hide LapseRow;
      assert forall r <- db.runs :: !Owns(db.attempts, {}, r);
    }

    /** Two running attempts never share a run, so each row of the reaper meets a run as it was. */
    lemma LapseOne(db: Db, dead: set<nat>, done: set<nat>, a: nat, now: int)
      requires Linked(db) && Inv(db) && AllRunning(db, dead) && done <= dead && a in dead && a !in done
      ensures var d, r := LapseDb(db, done, now), db.attempts[a].run;
        && a in d.attempts && d.attempts[a] == db.attempts[a]
        && r in d.runs && d.runs[r] == db.runs[r] && db.runs[r].snap in db.snaps && 0 <= Used(db.runs[r])
        && LapseDb(db, done + {a}, now) ==
           d.(attempts := d.attempts[a := Lapsed(d.attempts[a])],
              runs := d.runs[r := LapseRow(db.runs[r], SourceOf(db, r), now)])
    {
      OneLapsed(db, dead, done, a);
      hide Inv, LapseRow, AllRunning;
      LapseOneAttempts(db, done, a, now);
      LapseOneRuns(db, done, a, now);
    }

    lemma LapseOneAttempts(db: Db, done: set<nat>, a: nat, now: int)
      requires Linked(db) && a in db.attempts && a !in done
      ensures var d := LapseDb(db, done, now);
        a in d.attempts && d.attempts[a] == db.attempts[a]
        && LapseDb(db, done + {a}, now).attempts == d.attempts[a := Lapsed(d.attempts[a])]
    {
      hide LapseRow, Linked, Owns;
    }

    lemma LapseOneRuns(db: Db, done: set<nat>, a: nat, now: int)
      requires Linked(db) && a in db.attempts && !Owns(db.attempts, done, db.attempts[a].run)
      ensures var d, r := LapseDb(db, done, now), db.attempts[a].run;
        r in d.runs && d.runs[r] == db.runs[r]
        && LapseDb(db, done + {a}, now).runs == d.runs[r := LapseRow(db.runs[r], SourceOf(db, r), now)]
    {
      forall q <- db.runs
        ensures Owns(db.attempts, done + {a}, q) <==> Owns(db.attempts, done, q) || q == db.attempts[a].run
      {
        OwnsOneMore(db.attempts, done, a, q);
      }
      hide LapseRow, Owns;
    }

    lemma OwnsOneMore(attempts: map<nat, Attempt>, done: set<nat>, a: nat, q: nat)
      requires a in attempts
      ensures Owns(attempts, done + {a}, q) <==> Owns(attempts, done, q) || q == attempts[a].run
    {
      if q == attempts[a].run {
        assert a in done + {a};
      }
      if Owns(attempts, done, q) {
        var b :| b in done && b in attempts && attempts[b].run == q;
        assert b in done + {a};
      }
    }

    lemma OneLapsed(db: Db, dead: set<nat>, done: set<nat>, a: nat)
      requires Linked(db) && Inv(db) && AllRunning(db, dead) && done <= dead && a in dead && a !in done
      ensures !Owns(db.attempts, done, db.attempts[a].run)
    {
      var r := db.attempts[a].run;
      CountedOf(db, r);
      hide Inv, Counted, WithStatus, UsageBelow;
      RunningOnly(db.runs[r], AttsOf(db, r), a);
      if Owns(db.attempts, done, r) {
        var b :| b in done && b in db.attempts && db.attempts[b].run == r;
        RunningOnly(db.runs[r], AttsOf(db, r), b);
        assert false;
      }
    }

    method WakeDueRuns(now: int) returns (woken: nat)
      requires Valid()
      modifies this`runs
      ensures State() == WakeDueDb(old(State()), now)
      ensures Valid()
      ensures woken == |DueRuns(old(State()), now)|
    {
      hide Inv, Linked, Evolves;
      DueStep(State(), now);
      LinkedOf(WakeDueDb(State(), now));
      var due := set r | r in runs && runs[r].status.WaitingForEvent?
                         && runs[r].waitUntil.Some? && runs[r].waitUntil.value <= now;
      assert due == DueRuns(State(), now);
      woken := |due|;
      runs := map r | r in runs ::
        if runs[r].status.WaitingForEvent? && runs[r].waitUntil.Some? && runs[r].waitUntil.value <= now
        then runs[r].(status := Queued, runAfter := now, waitUntil := None) else runs[r];
    }

    ghost function AgeSome(db: Db, rs: set<nat>): Db
      requires Linked(db)
    {
      db.(runs := map r | r in db.runs :: if r in rs then AgeRow(db.runs[r], SourceOf(db, r)) else db.runs[r])
    }

    method ExpireAged(locked: set<nat>, now: int) returns (aged: nat)
      requires Valid()
      modifies this`runs
      ensures Valid() && State() == AgeDb(old(State()), locked, now)
      ensures Linked(old(State())) && aged == |AgedRuns(old(State()), locked, now)|
    {
      hide Inv, Evolves, Recomputed, Linked, AgeSome;
      ghost var db := State();
      RunsLinked(db);
      AgeStep(db, locked, now);
      LinkedOf(AgeDb(db, locked, now));
      var stale := set r | r in runs && r !in locked && runs[r].status.Queued?
                           && runs[r].runAfter + agents[runs[r].agent].budgets.deadlineSeconds * SECOND < now;
      assert stale == AgedRuns(db, locked, now);
      AgeSomeIs(db, locked, now);
      hide AgeDb;
      aged := |stale|;
      ExpireEach(stale);
    }

    /** Row by row, in any order. */
    method ExpireEach(stale: set<nat>)
      requires Linked(State()) && stale <= runs.Keys
      modifies this`runs
      ensures Linked(State()) && State() == AgeSome(old(State()), stale)
    {
      hide Recomputed, Linked, AgeSome;
      ghost var db := State();
      var left := stale;
      assert stale - left == {};
      AgeNone(db);
      while left != {}
        invariant left <= stale
        invariant State() == AgeSome(db, stale - left)
      {
        var r :| r in left;
        AgeOne(db, stale - left, r);
        runs := runs[r := runs[r].(status := Expired, proposal := Some(HOLD), validation := Some(FAILSAFE))];
        Recompute(r);
        assert stale - (left - {r}) == (stale - left) + {r};
        left := left - {r};
      }
      assert stale - {} == stale;
      AgeSomeLinked(db, stale);
    }

    lemma AgeNone(db: Db)
      requires Linked(db)
      ensures AgeSome(db, {}) == db
    {
    }

    lemma AgeSomeLinked(db: Db, rs: set<nat>)
      requires Linked(db)
      ensures Linked(AgeSome(db, rs))
    {
    }

    lemma AgeSomeIs(db: Db, locked: set<nat>, now: int)
      requires Linked(db)
      ensures AgeSome(db, {}) == db
      ensures AgeDb(db, locked, now) == AgeSome(db, set r | r in db.runs && r !in locked && Aged(db, r, now))
    {
      hide AgeRow, Linked;
      RunsLinked(db);
      assert AgeSome(db, {}).runs == db.runs;
      assert AgeDb(db, locked, now).runs == AgeSome(db, set r | r in db.runs && r !in locked && Aged(db, r, now)).runs;
    }

    lemma AgeOne(db: Db, done: set<nat>, r: nat)
      requires Linked(db) && r in db.runs && r !in done
      ensures var d := AgeSome(db, done);
        r in d.runs && d.runs[r] == db.runs[r] && db.runs[r].snap in db.snaps
        && AgeSome(db, done + {r}) == d.(runs := d.runs[r := AgeRow(db.runs[r], SourceOf(db, r))])
    {
      hide AgeRow;
      assert AgeSome(db, done + {r}).runs == AgeSome(db, done).runs[r := AgeRow(db.runs[r], SourceOf(db, r))];
    }

    /** The whole reaper, in one transaction. */
    method Reap(lockedAttempts: set<nat>, lockedRuns: set<nat>, now: int) returns (expired: nat, woken: nat, aged: nat)
      requires Valid()
      modifies this`runs, this`attempts
      ensures Valid()
      ensures State() == ReapedDb(old(State()), lockedAttempts, lockedRuns, now)
      ensures State() == Exec(old(State()), [ReapLapsed(lockedAttempts, now), ReapDue(now), ReapAged(lockedRuns, now)])
      ensures expired == |Dead(old(State()), lockedAttempts, now)|
      ensures woken == |DueRuns(LapsedDb(old(State()), lockedAttempts, now), now)|
      ensures aged == |AgedRuns(WokenDb(old(State()), lockedAttempts, now), lockedRuns, now)|
    {
      hide Inv, Linked, LapseDb, WakeDueDb, AgeDb, Dead, Due, Aged, Exec;
      ghost var db := State();
      expired := ReapLapsedLeases(lockedAttempts, now);
      woken := WakeDueRuns(now);
      aged := ExpireAged(lockedRuns, now);
      ExecThree(db, ReapLapsed(lockedAttempts, now), ReapDue(now), ReapAged(lockedRuns, now));
    }

    lemma ExecThree(db: Db, a: Op, b: Op, c: Op)
      requires Inv(db)
      ensures Linked(db) && Linked(Apply(db, a)) && Linked(Apply(Apply(db, a), b))
      ensures Exec(db, [a, b, c]) == Apply(Apply(Apply(db, a), b), c)
    {
      hide Inv, Apply, Linked, Evolves;
      StepKeeps(db, a);
      LinkedOf(db);
      var d := Apply(db, a);
      LinkedOf(d);
      StepKeeps(d, b);
      var e := Apply(d, b);
      LinkedOf(e);
      StepKeeps(e, c);
      assert [a, b, c][1..] == [b, c] && [b, c][1..] == [c] && [c][1..] == [];
      assert Exec(e, [c]) == Exec(Apply(e, c), []);
      assert Exec(d, [b, c]) == Exec(e, [c]);
    }

    // ----- ingest and legacy decisions

    lemma ListsNone(db: Db)
      ensures Lists(db, {}, [], false)
    {
    }

    /** The stored runs of a replayed key, ORDER BY agent_id. */
    method ListRuns(s: nat, agent: Option<nat>) returns (refs: seq<RunRef>)
      requires FanOk(State())
      ensures Lists(State(), RunsOfSnap(State(), s, agent), refs, false)
    {
      hide Lists, FanOk;
      ghost var db := State();
      ghost var rs := RunsOfSnap(db, s, agent);
      ListsNone(db);
      var left := set r | r in runs && runs[r].snap == s && (agent.None? || runs[r].agent == agent.value);
      refs := [];
      assert rs - left == {};
      while left != {}
        invariant left <= rs && State() == db
        invariant Lists(db, rs - left, refs, false)
        invariant forall k, r :: 0 <= k < |refs| && r in left ==> refs[k].agent < runs[r].agent
      {
        LeastAgent(db, left);
        var r :| r in left && forall q <- left :: runs[r].agent <= runs[q].agent;
        ListMore(db, rs, left, refs, r);
        refs := refs + [RunRef(r, runs[r].agent, false)];
        left := left - {r};
      }
      assert rs - {} == rs;
    }

    lemma {:induction false} LeastAgent(db: Db, c: set<nat>)
      requires c != {} && forall r <- c :: r in db.runs
      ensures exists r :: r in c && forall q <- c :: db.runs[r].agent <= db.runs[q].agent
      decreases |c|
    {
      var y :| y in c;
      var t := c - {y};
      if t == {} {
        assert c == {y};
        assert y in c && forall q <- c :: db.runs[y].agent <= db.runs[q].agent;
      } else {
        LeastAgent(db, t);
        var k :| k in t && forall q <- t :: db.runs[k].agent <= db.runs[q].agent;
        var m := if db.runs[k].agent <= db.runs[y].agent then k else y;
        assert forall q <- c :: q == y || q in t;
        assert m in c && forall q <- c :: db.runs[m].agent <= db.runs[q].agent;
      }
    }

    lemma ListMore(db: Db, rs: set<nat>, left: set<nat>, refs: seq<RunRef>, r: nat)
      requires FanOk(db) && left <= rs && (forall q <- rs :: q in db.runs) && r in left
      requires forall p, q :: p in rs && q in rs ==> db.runs[p].snap == db.runs[q].snap
      requires forall q <- left :: db.runs[r].agent <= db.runs[q].agent
      requires Lists(db, rs - left, refs, false)
      requires forall k, q :: 0 <= k < |refs| && q in left ==> refs[k].agent < db.runs[q].agent
      ensures Lists(db, rs - (left - {r}), refs + [RunRef(r, db.runs[r].agent, false)], false)
      ensures forall q <- left - {r} :: db.runs[r].agent < db.runs[q].agent
    {
      var more := refs + [RunRef(r, db.runs[r].agent, false)];
      forall q <- rs - (left - {r}) ensures exists k :: 0 <= k < |more| && more[k].run == q {
        if q == r {
          assert more[|refs|].run == q;
        } else {
          assert q in rs - left;
          var k :| 0 <= k < |refs| && refs[k].run == q;
          assert more[k].run == q;
        }
      }
      forall q <- left - {r} ensures db.runs[r].agent < db.runs[q].agent {
        assert db.runs[q].agent != db.runs[r].agent;
      }
    }

    lemma FanOf(db: Db)
      requires Inv(db)
      ensures FanOk(db)
    {
      hide Linked, RunsOk, AttemptsOk, SnapsOk, FanOk, AgentsOk, BookOk;
    }

    /** One queued run per target agent, in the transaction that stored the snapshot. */
    method EnqueueRuns(i: IngestInput, ids: seq<nat>, now: int) returns (refs: seq<RunRef>)
      requires forall a <- ids :: a in agents
      modifies this`snaps, this`nextSnap, this`runs, this`nextRun
      ensures State() == Enqueue(old(State()), i, ids, now)
      ensures |refs| == |ids|
      ensures forall k :: 0 <= k < |ids| ==> refs[k] == RunRef(old(nextRun) + k, ids[k], true)
    {
      hide TriggerOf, NewRun, WithRuns;
      ghost var db := State();
      var s := nextSnap;
      snaps := snaps[s := Snapshot(i.idem, i.instrument, i.granularity, i.source, i.payload, now)];
      nextSnap := nextSnap + 1;
      refs := [];
      FanOutNone(agents, nextRun, ids, s, TriggerOf(i), now, runs);
      for k := 0 to |ids|
        invariant snaps == db.snaps[s := Snapshot(i.idem, i.instrument, i.granularity, i.source, i.payload, now)]
        invariant nextSnap == db.nextSnap + 1 && nextRun == db.nextRun + k && |refs| == k
        invariant forall j :: 0 <= j < k ==> refs[j] == RunRef(db.nextRun + j, ids[j], true)
        invariant runs == WithRuns(agents, db.nextRun, ids[..k], s, TriggerOf(i), now, db.runs)
      {
        FanOutMore(agents, db.nextRun, ids, k, s, TriggerOf(i), now, db.runs);
        runs := runs[nextRun := NewRun(agents, ids[k], s, TriggerOf(i), now)];
        refs := refs + [RunRef(nextRun, ids[k], true)];
        nextRun := nextRun + 1;
      }
      assert ids[..|ids|] == ids;
      WithRunsIs(agents, db.nextRun, ids, s, TriggerOf(i), now, db.runs);
    }

    ghost function WithRuns(agents: map<nat, Agent>, from: nat, ids: seq<nat>, s: nat, trigger: string, now: int,
                            runs: map<nat, Run>): map<nat, Run>
      requires forall a <- ids :: a in agents
    {
      runs + FanOut(agents, from, ids, s, trigger, now)
    }

    lemma WithRunsIs(agents: map<nat, Agent>, from: nat, ids: seq<nat>, s: nat, trigger: string, now: int,
                     runs: map<nat, Run>)
      requires forall a <- ids :: a in agents
      ensures WithRuns(agents, from, ids, s, trigger, now, runs) == runs + FanOut(agents, from, ids, s, trigger, now)
    {
    }

    lemma FanOutNone(agents: map<nat, Agent>, from: nat, ids: seq<nat>, s: nat, trigger: string, now: int,
                     runs: map<nat, Run>)
      ensures WithRuns(agents, from, ids[..0], s, trigger, now, runs) == runs
    {
    }

    lemma FanOutMore(agents: map<nat, Agent>, from: nat, ids: seq<nat>, k: nat, s: nat, trigger: string, now: int,
                     runs: map<nat, Run>)
      requires k < |ids| && forall a <- ids :: a in agents
      ensures WithRuns(agents, from, ids[..k + 1], s, trigger, now, runs)
           == WithRuns(agents, from, ids[..k], s, trigger, now, runs)
                [from + k := NewRun(agents, ids[k], s, trigger, now)]
    {
      assert ids[..k + 1][..k] == ids[..k];
    }

    /** A first delivery stores the snapshot and its runs; a replayed key answers with the runs of
        the first one and changes nothing. */
    method Ingest(i: IngestInput, now: int) returns (r: IngestResult)
      requires Valid()
      modifies this`snaps, this`nextSnap, this`runs, this`nextRun
      ensures State() == IngestDb(old(State()), i, now)
      ensures Valid()
      ensures r.Refused? <==> !IngestOk(i)
      ensures r.Accepted? ==> r.isNew == !Known(old(State()), i.idem)
      ensures r.Accepted? && r.isNew ==> r.snapshot == old(nextSnap) && r.runs == FirstDelivery(old(State()), i, true)
      ensures r.Accepted? && !r.isNew ==>
        r.snapshot == SnapOf(State(), i.idem) && Lists(State(), RunsOfSnap(State(), r.snapshot, i.agent), r.runs, false)
    {
      hide Inv, Linked, Evolves, FanOk, Lists, Enqueue, RunsOfSnap;
      ghost var db := State();
      IngestStep(db, i, now);
      LinkedOf(IngestDb(db, i, now));
      FanOf(db);
      if !IngestOk(i) {
        return Refused;
      }
      if exists s <- snaps :: snaps[s].idem == i.idem {
        var s :| s in snaps && snaps[s].idem == i.idem;
        IdemUnique(db, s, i.idem);
        var stored := ListRuns(s, i.agent);
        return Accepted(s, false, stored);
      }
      var targets := set a | a in agents && (agents[a].enabled || i.agent.Some?)
                             && agents[a].instrument == i.instrument && agents[a].granularity == i.granularity
                             && (i.agent.None? || i.agent.value == a);
      assert targets == Targets(db, i);
      var ids := SortedIds(targets);
      assert ids == TargetIds(db, i);
      var first := nextSnap;
      var refs := EnqueueRuns(i, ids, now);
      assert refs == FirstDelivery(db, i, true);
      r := Accepted(first, true, refs);
    }

    /** Records the engine's decision on every run of the snapshot, then refreshes each comparison. */
    method SetLegacy(idem: string, legacy: Legacy) returns (n: Option<nat>)
      requires Valid()
      modifies this`runs
      ensures State() == SetLegacyDb(old(State()), idem, legacy)
      ensures Valid()
      ensures n.None? <==> !Known(old(State()), idem)
      ensures n.Some? ==> n.value == |RunsOfSnap(old(State()), SnapOf(old(State()), idem), None)|
    {
      hide Inv, Linked, Evolves, CompareOf;
      ghost var db := State();
      SetLegacyStep(db, idem, legacy);
      LinkedOf(SetLegacyDb(db, idem, legacy));
      RunsLinked(db);
      hide SetLegacyDb, Recomputed;
      if !exists s <- snaps :: snaps[s].idem == idem {
        LegacyUnknown(db, idem, legacy);
        return None;
      }
      var s :| s in snaps && snaps[s].idem == idem;
      IdemUnique(db, s, idem);
      var ids := RewriteLegacy(s, legacy);
      LegacyRows(db, idem, legacy, s, ids, runs);
      n := Some(|ids|);
    }

    /** The snapshot's runs get the decision and, one by one, their comparison again. */
    method RewriteLegacy(s: nat, legacy: Legacy) returns (ids: set<nat>)
      requires forall r <- runs :: runs[r].snap in snaps
      modifies this`runs
      ensures ids == RunsOfSnap(old(State()), s, None)
      ensures runs.Keys == old(runs).Keys
      ensures forall r <- runs ::
        runs[r] == if r in ids then Recomputed(old(runs)[r].(legacy := Some(legacy)), snaps[old(runs)[r].snap].source)
                   else old(runs)[r]
    {
      hide Recomputed;
      ids := set r | r in runs && runs[r].snap == s;
      runs := map r | r in runs :: if runs[r].snap == s then runs[r].(legacy := Some(legacy)) else runs[r];
      RefreshComparisons(ids);
    }

    lemma LegacyUnknown(db: Db, idem: string, legacy: Legacy)
      requires Linked(db) && !Known(db, idem)
      ensures SetLegacyDb(db, idem, legacy) == db
    {
      hide Linked;
    }

    /** The runs of the snapshot rewritten one by one are the rows the step leaves. */
    lemma LegacyRows(db: Db, idem: string, legacy: Legacy, s: nat, ids: set<nat>, rows: map<nat, Run>)
      requires Linked(db) && Known(db, idem) && SnapOf(db, idem) == s && ids == RunsOfSnap(db, s, None)
      requires rows.Keys == db.runs.Keys
      requires forall r <- rows ::
        rows[r] == if r in ids then Recomputed(db.runs[r].(legacy := Some(legacy)), SourceOf(db, r)) else db.runs[r]
      ensures SetLegacyDb(db, idem, legacy) == db.(runs := rows)
    {
      hide Linked, Recomputed;
    }

    method RefreshComparisons(ids: set<nat>)
      requires forall r <- ids :: r in runs && runs[r].snap in snaps
      modifies this`runs
      ensures runs.Keys == old(runs).Keys
      ensures forall r <- ids :: runs[r] == Recomputed(old(runs)[r], snaps[old(runs)[r].snap].source)
      ensures forall r <- runs :: r !in ids ==> runs[r] == old(runs)[r]
    {
      hide Recomputed;
      ghost var before := runs;
      var left := ids;
      while left != {}
        invariant left <= ids && runs.Keys == before.Keys
        invariant forall r <- runs :: r !in ids || r in left ==> runs[r] == before[r]
        invariant forall r <- ids - left :: runs[r] == Recomputed(before[r], snaps[before[r].snap].source)
      {
        var r :| r in left;
        Recompute(r);
        left := left - {r};
      }
    }

    // ----- the shadow book

    /** Stores the monitor's state after a bar and returns the stop on record, or 0 when the row is closed. */
    method SavePosition(id: int, s: Saved) returns (stop: real)
      requires Valid()
      modifies this`positions
      ensures State() == RowDb(old(State()), id, Save(s))
      ensures Valid()
      ensures stop == if id in positions && positions[id].status == Live then positions[id].stop else 0.0
    {
      hide Inv, Linked, Evolves;
      RowOpStep(State(), id, Save(s));
      LinkedOf(RowDb(State(), id, Save(s)));
      if id !in positions || positions[id].status != Live {
        return 0.0;
      }
      var p := positions[id];
      stop := if p.side.Long? then MaxR(p.stop, s.stop) else MinR(p.stop, s.stop);
      positions := positions[id := p.(stop := stop, barsHeld := s.barsHeld, best := s.best, lastClose := s.lastClose,
                                      lastBarTime := s.lastBarTime, lastFired := p.lastFired + s.lastFired)];
    }

    /** Ends an open position; a close racing a wake resolves once. */
    method ClosePosition(id: int, price: real, at: int, reason: ExitReason, now: int) returns (won: bool)
      requires Valid()
      modifies this`positions, this`events
      ensures State() == ClosePositionDb(old(State()), id, price, at, reason, now)
      ensures Valid()
      ensures won <==> id in old(positions) && old(positions)[id].status == Live
    {
      hide Inv, Linked, Evolves, ClosePositionDb;
      ClosePositionStep(State(), id, price, at, reason, now);
      LinkedOf(ClosePositionDb(State(), id, price, at, reason, now));
      won := ClosePositionTx(id, price, at, reason, now);
    }

    method RaiseAttention(id: int, now: int)
      requires Valid()
      modifies this`positions, this`events
      ensures State() == Log(RowDb(old(State()), id, Attention), id, AttentionRaised, now)
      ensures Valid()
    {
      hide Inv, Linked, Evolves;
      RowThenLog(State(), id, Attention, AttentionRaised, now);
      LinkedOf(Log(RowDb(State(), id, Attention), id, AttentionRaised, now));
      if id in positions {
        positions := positions[id := positions[id].(needsAttention := true)];
      }
      events := events + [PosEvent(id, AttentionRaised, now)];
    }

    /** What the monitor needs before it wakes an agent again. An unknown position has no count, and the
        call fails on it. */
    method WakeState(id: int, now: int) returns (inFlight: bool, last24h: nat, failedRuns: Option<nat>)
      ensures inFlight == InFlight(State(), id) && last24h == WakesSince(State(), id, now - DAY)
      ensures failedRuns == if id in positions then Some(positions[id].failedWakes) else None
    {
      failedRuns := if id in positions then Some(positions[id].failedWakes) else None;
      inFlight, last24h := false, 0;
      for e := 0 to |events|
        invariant inFlight <==> exists f :: 0 <= f < e && InFlightAt(State(), id, f)
        invariant last24h == WakesUpTo(State(), id, now - DAY, e)
      {
        var v := events[e];
        if v.position == id && v.kind.Wake? {
          var run := v.kind.run;
          if run in runs
             && (runs[run].status.Queued? || runs[run].status.Running? || runs[run].status.WaitingForEvent?) {
            assert InFlightAt(State(), id, e);
            inFlight := true;
          }
          if v.at > now - DAY {
            last24h := last24h + 1;
          }
        }
      }
    }

    /** Notes that a wake run was enqueued for a position; a run it has noted is ignored. */
    method RecordWake(id: int, run: nat, now: int)
      requires Valid()
      modifies this`positions, this`events
      ensures State() == RecordWakeDb(old(State()), id, run, now)
      ensures Valid()
    {
      hide Inv, Linked, Evolves;
      RecordWakeStep(State(), id, run, now);
      LinkedOf(RecordWakeDb(State(), id, run, now));
      if exists e :: 0 <= e < |events| && events[e].position == id && events[e].kind == Wake(run) {
        return;
      }
      if id in positions {
        positions := positions[id := positions[id].(wakes := positions[id].wakes + 1)];
      }
      events := events + [PosEvent(id, Wake(run), now)];
    }

    /** Counts each wake run that ended without an answer once, and asks for attention after three in a row. */
    method ReconcileFailedWakes(id: int, now: int) returns (n: nat)
      requires Valid()
      modifies this`positions, this`events
      ensures State() == ReconcileDb(old(State()), id, now)
      ensures Valid()
      ensures id in old(positions) ==> n == |MissedFrom(old(State()), id, 0)|
    {
      hide Inv, Linked, Evolves, Missed, CountMissDb;
      ghost var db := State();
      ReconcileStep(db, id, now);
      LinkedOf(ReconcileDb(db, id, now));
      if id !in positions {
        return 0;
      }
      var misses := FindMisses(id);
      for k := 0 to |misses|
        invariant id in positions
        invariant CountMissesDb(State(), id, misses[k..], now) == CountMissesDb(db, id, misses, now)
      {
        assert misses[k..][1..] == misses[k + 1..];
        CountMiss(id, misses[k], now);
      }
      n := |misses|;
    }

    method FindMisses(id: int) returns (misses: seq<nat>)
      ensures misses == MissedFrom(State(), id, 0)
    {
      hide Missed;
      misses := [];
      for e := |events| downto 0
        invariant misses == MissedFrom(State(), id, e)
      {
        var missed := IsMissed(id, e);
        if missed {
          misses := [e] + misses;
        }
      }
    }

    method IsMissed(id: int, e: nat) returns (b: bool)
      requires e < |events|
      ensures b == Missed(State(), id, e)
    {
      var v := events[e];
      b := v.position == id && v.kind.Wake? && v.kind.run in runs
           && (var s := runs[v.kind.run].status; s.Failed? || s.Expired? || s.Cancelled?)
           && !exists f :: 0 <= f < |events| && events[f].position == id && events[f].kind == WakeFailed(e);
    }

    method CountMiss(id: int, e: nat, now: int)
      requires id in positions
      modifies this`positions, this`events
      ensures State() == CountMissDb(old(State()), id, e, now) && id in positions
    {
      events := events + [PosEvent(id, WakeFailed(e), now)];
      var failed := positions[id].failedWakes + 1;
      positions := positions[id := positions[id].(failedWakes := failed)];
      if failed >= MAX_FAILED_WAKES {
        positions := positions[id := positions[id].(needsAttention := true)];
        events := events + [PosEvent(id, AttentionRaised, now)];
      }
    }
  }
}

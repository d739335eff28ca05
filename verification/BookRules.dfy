/** What each step does to a position of the shadow book, in its columns: the monitor's saves and
    exits, a woken agent's answer, and the wakes that went unanswered. */
module BookRules {
  import opened Common
  import opened Domain
  import opened Positions
  import opened RunQueue
  import opened QueueSteps
  import opened QueueTheorems
  import opened QueueRules
  import opened BookHistory
  import opened WakeLimits
  import opened Verdicts

  // ----- the monitor

  /** A save merges the marks, records the bar's numbers and moves the stop only toward price; a closed
      position, and every other one, stays. */
  lemma SaveRule(db: Db, id: int, s: Saved, p: int)
    requires Linked(db) && p in db.positions
    ensures var d, x := Apply(db, SavePosition(id, s)), db.positions[p];
      && p in d.positions && d.events == db.events
      && (p != id || x.status.Closed? ==> d.positions[p] == x)
      && (p == id && x.status == Live ==>
            var y := d.positions[p];
            && y == x.(stop := y.stop, barsHeld := s.barsHeld, best := s.best, lastClose := s.lastClose,
                       lastBarTime := s.lastBarTime, lastFired := y.lastFired)
            && (if x.side.Long? then y.stop == MaxR(x.stop, s.stop) else y.stop == MinR(x.stop, s.stop))
            && (forall t :: t in y.lastFired <==> t in s.lastFired || t in x.lastFired)
            && (forall t <- y.lastFired ::
                  y.lastFired[t] == if t in s.lastFired then s.lastFired[t] else x.lastFired[t]))
  {
    ApplySave(db, id, s);
    hide Linked, Apply;
  }

  lemma ApplySave(db: Db, id: int, s: Saved)
    requires Linked(db)
    ensures Apply(db, SavePosition(id, s)) == RowDb(db, id, Save(s))
  {
    hide Linked, RowDb;
  }

  /** An exit closes an open position at its price, with the realized result of that price, and is noted;
      a closed position, and every other one, stays. */
  lemma CloseRule(db: Db, id: int, price: real, at: int, reason: ExitReason, now: int, p: int)
    requires Linked(db) && p in db.positions
    ensures var d, x := Apply(db, ClosePosition(id, price, at, reason, now)), db.positions[p];
      && p in d.positions
      && (if p == id && x.status == Live
          then d.positions[p] == x.(status := Closed(price, at, reason, PnL(x.side, x.notional, x.entry, price)))
               && d.events == db.events + [PosEvent(id, ExitNoted, now)]
          else d.positions[p] == x)
  {
    ApplyClose(db, id, price, at, reason, now);
    hide Linked, PnL, Apply;
  }

  lemma ApplyClose(db: Db, id: int, price: real, at: int, reason: ExitReason, now: int)
    requires Linked(db)
    ensures Apply(db, ClosePosition(id, price, at, reason, now)) == ClosePositionDb(db, id, price, at, reason, now)
  {
    hide Linked, ClosePositionDb;
  }

  // ----- a woken agent's answer

  /** A bar less than three minutes old fills at its close, else the snapshot's price counts. */
  function FillPrice(x: Position, snapshotPrice: real, at: int): real {
    if x.lastClose > 0.0 && x.lastBarTime.Some? && at < x.lastBarTime.value + 180 * SECOND then x.lastClose
    else snapshotPrice
  }

  /** What an accepted answer does to an open position: a close fills, a stop strictly between the old one
      and the price replaces it, new tripwires start without marks; anything else only clears the count
      of unanswered wakes. A closed position keeps all but that count. */
  predicate Answered(x: Position, y: Position, d: Decision, price: real, at: int) {
    && y.failedWakes == 0
    && (if x.status == Live && d.action.Close? then
          var fill := FillPrice(x, price, at);
          y == x.(failedWakes := 0, status := Closed(fill, at, AgentClose, PnL(x.side, x.notional, x.entry, fill)))
        else if x.status == Live && d.action.TightenStop? && d.newStop.Some?
                && ((x.side.Long? && x.stop < d.newStop.value < price)
                    || (x.side.Short? && price < d.newStop.value < x.stop))
        then y == x.(failedWakes := 0, stop := d.newStop.value)
        else if x.status == Live && d.action.SetTripwires? then
          y == x.(failedWakes := 0, plan := x.plan.(tripwires := d.tripwires), lastFired := map[])
        else y == x.(failedWakes := 0))
  }

  /** How the answer is noted: what it did, or that it was ignored, or that the agent held. */
  predicate Noted(x: Position, y: Position, d: Decision, run: nat, kind: EventKind) {
    if d.action.Close? then kind == if x.status == Live then ExitNoted else WakeIgnored(run)
    else if d.action.TightenStop? && d.newStop.Some? then
      kind == if y.stop != x.stop then Tightened(run) else WakeIgnored(run)
    else if d.action.SetTripwires? then kind == if x.status == Live then Rewired(run) else WakeIgnored(run)
    else kind == WakeHeld(run)
  }

  lemma RowAnswered(x: Position, d: Decision, price: real, at: int, run: nat)
    ensures var y := RunRow(x, WakeRowOps(x, d, price, at));
      Answered(x, y, d, price, at) && Noted(x, y, d, run, WakeNote(x, d, price, run))
  {
    hide PnL;
    var first := ApplyRow(x, WakeAnswered);
    OneOp(x, WakeAnswered);
    TwoOps(x, WakeAnswered, CloseAt(WakeFill(x, price, at), at, AgentClose));
    if d.newStop.Some? {
      TwoOps(x, WakeAnswered, Tighten(d.newStop.value, price));
    }
    TwoOps(x, WakeAnswered, Rewire(d.tripwires));
    hide RunRow;
  }

  lemma TwoOps(x: Position, a: RowOp, b: RowOp)
    ensures RunRow(x, [a, b]) == ApplyRow(ApplyRow(x, a), b)
  {
    hide ApplyRow;
    assert [a, b][0] == a && [a, b][1..] == [b];
    OneOp(ApplyRow(x, a), b);
  }

  /** The result is the last word on a wake of this position: the holder delivers it, is not asked to stop,
      does not pause, and was woken by the monitor for a position of its own agent. */
  ghost predicate AnswersWake(db: Db, a: nat, fence: nat, now: int, w: WakePosition)
    requires Linked(db)
  {
    && Holds(db, a, fence, now) && !RunOf(db, a).cancelRequested
    && !Waits(db.attempts[a], RunOf(db, a).followupsUsed, AgentOf(db, a).budgets)
    && RunOf(db, a).snap in db.snaps
    && db.snaps[RunOf(db, a).snap].source.Monitor? && db.snaps[RunOf(db, a).snap].payload.wake == Some(w)
    && w.id > 0 && w.id in db.positions && db.positions[w.id].agent == RunOf(db, a).agent
  }

  /** Such a result is judged by the wake rules; accepted, it does to the position what it says and is noted
      once; rejected, it is noted as a hold and the position stays. */
  lemma WakeAnswerRule(db: Db, a: nat, fence: nat, i: CompleteInput, now: int, clock: int, host: int, w: WakePosition)
    requires Linked(db) && AnswersWake(db, a, fence, now, w)
    ensures var d, x, run := Apply(db, Complete(a, fence, i, now, clock, host)), db.positions[w.id], db.attempts[a].run;
      var s, p := db.snaps[RunOf(db, a).snap], i.proposal.GetOr(HOLD);
      var v := JudgeWake(p, w, s.takenAt, clock, AgentOf(db, a).budgets.freshnessSeconds * SECOND);
      && w.id in d.positions
      && (v.valid ==>
            Answered(x, d.positions[w.id], p, w.price, host)
            && |d.events| == |db.events| + 1 && d.events[..|db.events|] == db.events
            && d.events[|db.events|].position == w.id && d.events[|db.events|].at == now
            && Noted(x, d.positions[w.id], p, run, d.events[|db.events|].kind))
      && (!v.valid ==>
            d.positions == db.positions && d.events == db.events + [PosEvent(w.id, WakeHeld(run), now)])
  {
    ApplyComplete(db, Complete(a, fence, i, now, clock, host));
    RunLinked(db, a);
    hide Linked, Apply, JudgeWake, Answered, Noted, Waits, WakeRowOps, WakeNote, RunRow, CompareOf, AddUsage;
    var s, p := db.snaps[RunOf(db, a).snap], ProposalOf(i);
    var v := JudgeWake(p, w, s.takenAt, clock, AgentOf(db, a).budgets.freshnessSeconds * SECOND);
    JudgedByWake(s, w, p, clock, AgentOf(db, a).budgets.freshnessSeconds * SECOND);
    RowAnswered(db.positions[w.id], p, w.price, host, db.attempts[a].run);
    CompletesBook(db, a, fence, i, now, clock, host, w);
    hide CompleteDb;
  }

  lemma JudgedByWake(s: Snapshot, w: WakePosition, p: Decision, clock: int, maxAge: int)
    requires s.source.Monitor? && s.payload.wake == Some(w) && w.id > 0
    ensures WakeIn(s) == Some(w) && Judge(s, p, clock, maxAge) == JudgeWake(p, w, s.takenAt, clock, maxAge)
    ensures Judge(s, p, clock, maxAge).priceUsed == w.price
  {
    hide WakeReasons;
  }

  lemma CompletesBook(db: Db, a: nat, fence: nat, i: CompleteInput, now: int, clock: int, host: int, w: WakePosition)
    requires Linked(db) && AnswersWake(db, a, fence, now, w)
    ensures var d, x, run := CompleteDb(db, a, fence, i, now, clock, host), db.positions[w.id], db.attempts[a].run;
      var s, p := db.snaps[RunOf(db, a).snap], ProposalOf(i);
      var v := Judge(s, p, clock, AgentOf(db, a).budgets.freshnessSeconds * SECOND);
      if v.valid then
        && d.positions == db.positions[w.id := RunRow(x, WakeRowOps(x, p, v.priceUsed, host))]
        && d.events == db.events + [PosEvent(w.id, WakeNote(x, p, v.priceUsed, run), now)]
      else d.positions == db.positions && d.events == db.events + [PosEvent(w.id, WakeHeld(run), now)]
  {
    RunLinked(db, a);
    hide Linked, Judge, Waits, WakeRowOps, WakeNote, RunRow, CompareOf, AddUsage, AgentOf;
    var s, p := db.snaps[RunOf(db, a).snap], ProposalOf(i);
    JudgedByWake(s, w, p, clock, 0);
  }

  // ----- how a proposal is judged

  /** A monitor's wake is judged by the wake rules, anything else by the entry rules, at the last quote, or
      the last close where there is none. */
  lemma JudgedAt(s: Snapshot, p: Decision, clock: int, maxAge: int)
    ensures var woken := s.source.Monitor? && s.payload.wake.Some? && s.payload.wake.value.id > 0;
      var quote, close := s.payload.quoteLast.GetOr(0.0), s.payload.close.GetOr(0.0);
      Judge(s, p, clock, maxAge).priceUsed ==
        if woken then s.payload.wake.value.price else if quote != 0.0 then quote else close
  {
    hide ProposalReasons, WakeReasons;
  }

  // ----- entries

  /** The agent holds an open position. */
  ghost predicate HoldsOne(db: Db, agent: nat) {
    exists p :: HoldsOpen(db, agent, p)
  }

  /** The result proposes an entry that is accepted: the holder delivers it, is not asked to stop, does not
      pause, and answers the engine. */
  ghost predicate Enters(db: Db, a: nat, fence: nat, i: CompleteInput, now: int, clock: int)
    requires Linked(db)
  {
    && Holds(db, a, fence, now) && !RunOf(db, a).cancelRequested
    && !Waits(db.attempts[a], RunOf(db, a).followupsUsed, AgentOf(db, a).budgets)
    && RunOf(db, a).snap in db.snaps && db.snaps[RunOf(db, a).snap].source.Engine?
    && i.proposal.GetOr(HOLD).action.Open? && VerdictOf(db, a, i, clock).valid
  }

  /** Such a result opens one position, the entry it proposes, exactly when its agent holds none; otherwise
      it is noted as ignored on the one the agent holds. No other position changes. */
  lemma EntryRule(db: Db, a: nat, fence: nat, i: CompleteInput, now: int, clock: int, host: int)
    requires Inv(db) && Linked(db) && Enters(db, a, fence, i, now, clock)
    ensures var d, run, agent := Apply(db, Complete(a, fence, i, now, clock, host)), db.attempts[a].run,
                                 RunOf(db, a).agent;
      var s, p, v := db.snaps[RunOf(db, a).snap], i.proposal.GetOr(HOLD), VerdictOf(db, a, i, clock);
      if HoldsOne(db, agent) then
        && d.positions == db.positions && |d.events| == |db.events| + 1 && d.events[..|db.events|] == db.events
        && d.events[|db.events|].kind == OpenIgnored(run)
        && HoldsOpen(db, agent, d.events[|db.events|].position)
      else
        && d.positions.Keys == db.positions.Keys + {db.nextPosition as int}
        && db.nextPosition as int !in db.positions
        && (forall q <- db.positions :: d.positions[q] == db.positions[q])
        && IsEntry(d.positions[db.nextPosition], agent, run, s, p, v, clock)
        && d.events == db.events + [PosEvent(db.nextPosition, Opened(run), now)]
  {
    hide Inv, Linked, Apply, IsEntry, Waits, VerdictOf, NewPosition, CompleteDb, OpenDb, BookOk, HoldsOne, HoldsOpen;
    ApplyComplete(db, Complete(a, fence, i, now, clock, host));
    RunLinked(db, a);
    BookOf(db);
    FreshId(db);
    NotOpened(db, a);
    var s, p, v := db.snaps[RunOf(db, a).snap], ProposalOf(i), VerdictOf(db, a, i, clock);
    EntersBook(db, a, fence, i, now, clock, host);
    OpenBook(db, RunOf(db, a).agent, db.attempts[a].run, s, p, v.priceUsed, clock, now);
    EntryIs(RunOf(db, a).agent, db.attempts[a].run, s, p, v, clock);
  }

  lemma EntryIs(agent: nat, run: nat, s: Snapshot, d: Decision, v: Validation, clock: int)
    requires s.source.Engine? && d.action.Open? && v.valid
    ensures IsEntry(NewPosition(agent, run, s, d, v.priceUsed, clock), agent, run, s, d, v, clock)
  {
  }

  /** A run that is still running opened no position yet. */
  lemma NotOpened(db: Db, a: nat)
    requires Inv(db) && Linked(db) && a in db.attempts && db.attempts[a].status.AttRunning?
    ensures forall p <- db.positions :: db.positions[p].run != db.attempts[a].run
  {
    RunningRun(db, a);
    BookOf(db);
    hide Inv, Linked;
  }

  lemma EntersBook(db: Db, a: nat, fence: nat, i: CompleteInput, now: int, clock: int, host: int)
    requires Linked(db) && Enters(db, a, fence, i, now, clock)
    ensures var d, x := CompleteDb(db, a, fence, i, now, clock, host), RunOf(db, a);
      exists e: Db :: e.positions == db.positions && e.events == db.events && e.nextPosition == db.nextPosition
                      && d == OpenDb(e, x.agent, db.attempts[a].run, db.snaps[x.snap], ProposalOf(i),
                                     VerdictOf(db, a, i, clock).priceUsed, clock, now)
  {
    RunLinked(db, a);
    hide Linked, Judge, Waits, CompareOf, AddUsage, AgentOf, OpenDb;
    var x := RunOf(db, a);
    var s, d, v := db.snaps[x.snap], ProposalOf(i), VerdictOf(db, a, i, clock);
    var e := Finish(db, a, AttSucceeded, i.usage, SucceedRow(x, d, v, i.usage, s.source));
    assert e.positions == db.positions && e.events == db.events && e.nextPosition == db.nextPosition;
    assert BookDb(e, x.agent, db.attempts[a].run, s, d, v, now, clock, host)
        == OpenDb(e, x.agent, db.attempts[a].run, s, d, v.priceUsed, clock, now);
  }

  lemma OpenBook(db: Db, agent: nat, run: nat, s: Snapshot, d: Decision, price: real, at: int, now: int)
    requires db.nextPosition as int !in db.positions && forall p <- db.positions :: db.positions[p].run != run
    ensures forall e: Db {:trigger OpenDb(e, agent, run, s, d, price, at, now)} ::
      e.positions == db.positions && e.events == db.events && e.nextPosition == db.nextPosition ==>
        var o := OpenDb(e, agent, run, s, d, price, at, now);
        if HoldsOne(db, agent) then
          && o.positions == db.positions
          && exists held :: HoldsOpen(db, agent, held)
                            && o.events == db.events + [PosEvent(held, OpenIgnored(run), now)]
        else
          && o.positions == db.positions[db.nextPosition := NewPosition(agent, run, s, d, price, at)]
          && o.events == db.events + [PosEvent(db.nextPosition, Opened(run), now)]
  {
    hide NewPosition, HoldsOne, HoldsOpen, OpenConflict;
    forall e: Db | e.positions == db.positions && e.events == db.events && e.nextPosition == db.nextPosition
      ensures
        var o := OpenDb(e, agent, run, s, d, price, at, now);
        if HoldsOne(db, agent) then
          && o.positions == db.positions
          && exists held :: HoldsOpen(db, agent, held)
                            && o.events == db.events + [PosEvent(held, OpenIgnored(run), now)]
        else
          && o.positions == db.positions[db.nextPosition := NewPosition(agent, run, s, d, price, at)]
          && o.events == db.events + [PosEvent(db.nextPosition, Opened(run), now)]
    {
      OpenBookOf(db, e, agent, run, s, d, price, at, now);
    }
  }

  lemma OpenBookOf(db: Db, e: Db, agent: nat, run: nat, s: Snapshot, d: Decision, price: real, at: int, now: int)
    requires forall p <- db.positions :: db.positions[p].run != run
    requires e.positions == db.positions && e.events == db.events && e.nextPosition == db.nextPosition
    ensures var o := OpenDb(e, agent, run, s, d, price, at, now);
      if HoldsOne(db, agent) then
        && o.positions == db.positions
        && exists held :: HoldsOpen(db, agent, held)
                          && o.events == db.events + [PosEvent(held, OpenIgnored(run), now)]
      else
        && o.positions == db.positions[db.nextPosition := NewPosition(agent, run, s, d, price, at)]
        && o.events == db.events + [PosEvent(db.nextPosition, Opened(run), now)]
  {
    hide NewPosition;
    forall p ensures HoldsOpen(e, agent, p) == HoldsOpen(db, agent, p) {
    }
    assert OpenConflict(e, agent, run) <==> HoldsOne(db, agent) by {
      if p :| HoldsOpen(db, agent, p) {
        assert p in e.positions;
      }
      if p :| p in e.positions && ((e.positions[p].agent == agent && e.positions[p].status == Live)
                                   || e.positions[p].run == run) {
        assert HoldsOpen(db, agent, p);
      }
    }
  }

  /** A wake's run is counted and noted once, however often it is recorded. */
  lemma RecordRule(db: Db, id: int, run: nat, now: int)
    requires Linked(db) && id in db.positions
    ensures var d, x := Apply(db, RecordWake(id, run, now)), db.positions[id];
      && id in d.positions
      && if exists e :: 0 <= e < |db.events| && db.events[e] == PosEvent(id, Wake(run), db.events[e].at) then d == db
         else d.positions[id] == x.(wakes := x.wakes + 1) && d.events == db.events + [PosEvent(id, Wake(run), now)]
  {
    hide Linked;
    assert Apply(db, RecordWake(id, run, now)) == RecordWakeDb(db, id, run, now);
    hide Apply;
    if e :| 0 <= e < |db.events| && db.events[e].position == id && db.events[e].kind == Wake(run) {
      assert db.events[e] == PosEvent(id, Wake(run), db.events[e].at);
    }
  }

  // ----- unanswered wakes

  /** A wake recorded at event e whose run ended without an answer, not counted yet. */
  predicate Unanswered(db: Db, id: int, e: nat) {
    && e < |db.events| && db.events[e].position == id && db.events[e].kind.Wake?
    && db.events[e].kind.run in db.runs
    && db.runs[db.events[e].kind.run].status in {Failed, Expired, Cancelled}
    && forall f :: 0 <= f < |db.events| && db.events[f].position == id ==> db.events[f].kind != WakeFailed(e)
  }

  lemma {:induction false} MissesRow(x: Position, n: nat)
    ensures var y := RunRow(x, Repeated(WakeMissed, n));
      y == x.(failedWakes := x.failedWakes + n, needsAttention := y.needsAttention)
      && (y.needsAttention <==> x.needsAttention || (n > 0 && x.failedWakes + n >= 3))
    decreases n
  {
    if n > 0 {
      assert Repeated(WakeMissed, n)[1..] == Repeated(WakeMissed, n - 1);
      MissesRow(ApplyRow(x, WakeMissed), n - 1);
    }
  }

  /** Reconciling counts exactly the unanswered wakes, and asks for attention when three in a row are. */
  lemma ReconcileRule(db: Db, id: int, now: int)
    requires Inv(db) && Linked(db) && id in db.positions
    ensures var d, x, es := Apply(db, Reconcile(id, now)), db.positions[id], MissedFrom(db, id, 0);
      && (forall e: nat :: e in es <==> Unanswered(db, id, e))
      && id in d.positions
      && d.positions[id] == x.(failedWakes := x.failedWakes + |es|, needsAttention := d.positions[id].needsAttention)
      && (d.positions[id].needsAttention <==> x.needsAttention || (es != [] && x.failedWakes + |es| >= 3))
  {
    hide Inv, Linked, Apply, MissedFrom, RunRow;
    StepRows(db, Reconcile(id, now), id);
    MissesRow(db.positions[id], |MissedFrom(db, id, 0)|);
    ReconcileOnce(db, id, now);
    hide ReconcileDb;
  }

  /** Each of them is noted, and from the third in a row on attention is raised with it. */
  lemma MissNoted(db: Db, id: int, e: nat, now: int)
    requires id in db.positions
    ensures CountMissDb(db, id, e, now).events ==
      db.events + [PosEvent(id, WakeFailed(e), now)]
      + if db.positions[id].failedWakes + 1 >= 3 then [PosEvent(id, AttentionRaised, now)] else []
  {
  }

  /** Raising attention marks the position and is noted. */
  lemma AttentionRule(db: Db, id: int, now: int)
    requires Linked(db) && id in db.positions
    ensures var d := Apply(db, RaiseAttention(id, now));
      && d.positions == db.positions[id := db.positions[id].(needsAttention := true)]
      && d.events == db.events + [PosEvent(id, AttentionRaised, now)]
  {
    hide Linked;
  }
}

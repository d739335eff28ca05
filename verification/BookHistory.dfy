/** The shadow book inside the whole system: every step of every actor reaches a stored position
    only through the row changes of its kind, so what holds of one row's history holds here. */
module BookHistory {
  import opened Common
  import opened Domain
  import opened Positions
  import opened RunQueue
  import opened QueueSteps
  import opened QueueTheorems
  import opened ServiceSafety
  import opened Verdicts

  // ----- one step, seen from one row

  function Repeated(op: RowOp, n: nat): seq<RowOp> {
    seq(n, i requires 0 <= i < n => op)
  }

  /** What a final result does to an existing position. */
  ghost function BookRowOps(db: Db, agent: nat, s: Snapshot, d: Decision, v: Validation, host: int, id: int): seq<RowOp>
    requires id in db.positions
  {
    var wake := WakeIn(s);
    if wake.Some? && wake.value.id == id && db.positions[id].agent == agent && v.valid
    then WakeRowOps(db.positions[id], d, v.priceUsed, host)
    else []
  }

  ghost function CompleteRowOps(db: Db, a: nat, fence: nat, i: CompleteInput, now: int, clock: int, host: int,
                                id: int): seq<RowOp>
    requires Linked(db) && id in db.positions
  {
    if !Current(db, a, fence, now) then []
    else
      var at, x := db.attempts[a], RunOf(db, a);
      var s, b := db.snaps[x.snap], AgentOf(db, a).budgets;
      if x.cancelRequested || Waits(at, x.followupsUsed, b) then []
      else
        var v := Judge(s, ProposalOf(i), clock, b.freshnessSeconds * SECOND);
        BookRowOps(db, x.agent, s, ProposalOf(i), v, host, id)
  }

  /** The row changes a step makes to position id. */
  ghost function RowOpsOf(db: Db, op: Op, id: int): seq<RowOp>
    requires Linked(db) && id in db.positions
  {
    match op
    case Complete(a, f, i, now, clock, host) => CompleteRowOps(db, a, f, i, now, clock, host, id)
    case SavePosition(p, s) => if p == id then [Save(s)] else []
    case ClosePosition(p, price, at, reason, _) => if p == id then [CloseAt(price, at, reason)] else []
    case RaiseAttention(p, _) => if p == id then [Attention] else []
    case RecordWake(p, run, _) => if p == id && !WakeRecorded(db, id, run) then [WakeNoted] else []
    case Reconcile(p, _) => if p == id then Repeated(WakeMissed, |MissedFrom(db, id, 0)|) else []
    case _ => []
  }

  lemma OneOp(p: Position, op: RowOp)
    ensures RunRow(p, [op]) == ApplyRow(p, op) && RunRow(p, []) == p
  {
    hide ApplyRow;
    assert [op][1..] == [];
  }

  lemma {:induction false} MissRows(db: Db, id: int, es: seq<nat>, now: int, p: int)
    requires id in db.positions && p in db.positions
    ensures var d := CountMissesDb(db, id, es, now);
      && p in d.positions
      && d.positions[p] ==
           if p == id then RunRow(db.positions[p], Repeated(WakeMissed, |es|)) else db.positions[p]
    decreases |es|
  {
    if es != [] {
      var d := CountMissDb(db, id, es[0], now);
      CountMissRow(db, id, es[0], now, p);
      hide MissRow, CountMissDb;
      MissRows(d, id, es[1..], now, p);
      assert Repeated(WakeMissed, |es|)[1..] == Repeated(WakeMissed, |es| - 1);
    }
  }

  lemma CountMissRow(db: Db, id: int, e: nat, now: int, p: int)
    requires id in db.positions && p in db.positions
    ensures var d := CountMissDb(db, id, e, now);
      id in d.positions && p in d.positions
      && d.positions[p] == if p == id then ApplyRow(db.positions[p], WakeMissed) else db.positions[p]
  {
  }

  lemma BookRows(db: Db, agent: nat, run: nat, s: Snapshot, d: Decision, v: Validation, now: int, clock: int,
                 host: int, id: int)
    requires id in db.positions && db.nextPosition as int !in db.positions
    ensures var e := BookDb(db, agent, run, s, d, v, now, clock, host);
      id in e.positions && e.positions[id] == RunRow(db.positions[id], BookRowOps(db, agent, s, d, v, host, id))
  {
    hide WakeIn, WakeRowOps, OpenConflict, NewPosition, TightenLands, WakeNote, ApplyRow;
    assert RunRow(db.positions[id], []) == db.positions[id];
  }

  lemma CompleteRows(db: Db, a: nat, fence: nat, i: CompleteInput, now: int, clock: int, host: int, id: int)
    requires Linked(db) && id in db.positions && db.nextPosition as int !in db.positions
    ensures var e := CompleteDb(db, a, fence, i, now, clock, host);
      && id in e.positions
      && e.positions[id] == RunRow(db.positions[id], CompleteRowOps(db, a, fence, i, now, clock, host, id))
  {
    hide BookDb, Judge, CancelRow, WaitRow, SucceedRow, BookRowOps, ApplyRow;
    assert RunRow(db.positions[id], []) == db.positions[id];
    if Current(db, a, fence, now) {
      RunLinked(db, a);
      hide Linked;
      var x := RunOf(db, a);
      var s := db.snaps[x.snap];
      var d := ProposalOf(i);
      var v := Judge(s, d, clock, AgentOf(db, a).budgets.freshnessSeconds * SECOND);
      var e := Finish(db, a, AttSucceeded, i.usage, SucceedRow(x, d, v, i.usage, s.source));
      BookRows(e, x.agent, db.attempts[a].run, s, d, v, now, clock, host, id);
      SameBookOps(db, e, x.agent, s, d, v, host, id);
    }
  }

  lemma SameBookOps(db: Db, e: Db, agent: nat, s: Snapshot, d: Decision, v: Validation, host: int, id: int)
    requires id in db.positions && e.positions == db.positions
    ensures BookRowOps(db, agent, s, d, v, host, id) == BookRowOps(e, agent, s, d, v, host, id)
  {
    hide WakeIn, WakeRowOps;
  }

  predicate BookOp(op: Op) {
    op.Complete? || op.SavePosition? || op.ClosePosition? || op.RaiseAttention? || op.RecordWake? || op.Reconcile?
  }

  lemma BookUntouched(db: Db, op: Op)
    requires Linked(db) && !BookOp(op)
    ensures Apply(db, op).positions == db.positions
  {
    hide Linked;
    if RewritesRuns(op) {
      hide Apply;
      RewriteUntouched(db, op);
    } else {
      hide IngestOk, Known, FanOut, TargetIds, First, Claimable, AgentOf, RunOf;
    }
  }

  lemma RewriteUntouched(db: Db, op: Op)
    requires Linked(db) && RewritesRuns(op)
    ensures Apply(db, op).positions == db.positions
  {
    RewriteTables(db, op);
    hide Linked, Apply;
  }

  lemma BookStepRows(db: Db, op: Op, id: int)
    requires Linked(db) && id in db.positions && db.nextPosition as int !in db.positions && BookOp(op)
    ensures id in Apply(db, op).positions
    ensures Apply(db, op).positions[id] == RunRow(db.positions[id], RowOpsOf(db, op, id))
  {
    hide Linked, RunRow, CompleteDb, CompleteRowOps, ClosePositionDb, RecordWakeDb, ReconcileDb, MissedFrom, Repeated,
         WakeRecorded;
    if op.Complete? {
      CompleteRows(db, op.attempt, op.fence, op.result, op.now, op.clock, op.host, id);
    } else {
      hide Apply, RowOpsOf;
      PlainStepRows(db, op, id);
    }
  }

  lemma PlainStepRows(db: Db, op: Op, id: int)
    requires Linked(db) && id in db.positions && BookOp(op) && !op.Complete?
    ensures id in Apply(db, op).positions
    ensures Apply(db, op).positions[id] == RunRow(db.positions[id], RowOpsOf(db, op, id))
  {
    hide Linked, ApplyRow, RowDb, Log, ClosePositionDb, RecordWakeDb, ReconcileDb, MissedFrom, Repeated, RunRow,
         WakeRecorded;
    match op
    case SavePosition(q, s) => RowDbRows(db, q, Save(s), id);
    case ClosePosition(q, price, at, reason, now) => CloseRows(db, q, price, at, reason, now, id);
    case RaiseAttention(q, now) => LoggedRows(db, q, Attention, AttentionRaised, now, id);
    case RecordWake(q, run, now) => RecordRows(db, q, run, now, id);
    case Reconcile(q, now) => ReconcileRows(db, q, now, id);
  }

  lemma QuietStepRows(db: Db, op: Op, id: int)
    requires Linked(db) && id in db.positions && !BookOp(op)
    ensures id in Apply(db, op).positions
    ensures Apply(db, op).positions[id] == RunRow(db.positions[id], RowOpsOf(db, op, id))
  {
    BookUntouched(db, op);
    OneOp(db.positions[id], Attention);
    hide Apply, Linked, RunRow;
  }

  /** Every step changes an existing position by exactly its row changes, one after the other. */
  lemma StepRows(db: Db, op: Op, id: int)
    requires Inv(db) && id in db.positions
    ensures id in Apply(db, op).positions
    ensures Apply(db, op).positions[id] == RunRow(db.positions[id], RowOpsOf(db, op, id))
  {
    hide *;
    LinkedOf(db);
    BookOf(db);
    FreshId(db);
    if BookOp(op) {
      BookStepRows(db, op, id);
    } else {
      QuietStepRows(db, op, id);
    }
  }

  lemma RowDbRows(db: Db, q: int, op: RowOp, id: int)
    requires id in db.positions
    ensures id in RowDb(db, q, op).positions
    ensures RowDb(db, q, op).positions[id] == RunRow(db.positions[id], if q == id then [op] else [])
  {
    OneOp(db.positions[id], op);
    hide ApplyRow;
  }

  lemma LoggedRows(db: Db, q: int, op: RowOp, kind: EventKind, now: int, id: int)
    requires id in db.positions
    ensures var d := Log(RowDb(db, q, op), q, kind, now);
      id in d.positions && d.positions[id] == RunRow(db.positions[id], if q == id then [op] else [])
  {
    RowDbRows(db, q, op, id);
    hide RowDb;
  }

  lemma RecordRows(db: Db, q: int, run: nat, now: int, id: int)
    requires id in db.positions
    ensures var d := RecordWakeDb(db, q, run, now);
      id in d.positions
      && d.positions[id] == RunRow(db.positions[id], if q == id && !WakeRecorded(db, id, run) then [WakeNoted] else [])
  {
    hide WakeRecorded;
    RowDbRows(db, q, WakeNoted, id);
    OneOp(db.positions[id], WakeNoted);
    hide RowDb, RunRow;
  }

  lemma ReconcileRows(db: Db, q: int, now: int, id: int)
    requires id in db.positions
    ensures var d := ReconcileDb(db, q, now);
      id in d.positions
      && d.positions[id] ==
           RunRow(db.positions[id], if q == id then Repeated(WakeMissed, |MissedFrom(db, id, 0)|) else [])
  {
    hide MissedFrom;
    OneOp(db.positions[id], WakeMissed);
    if q in db.positions {
      MissRows(db, q, MissedFrom(db, q, 0), now, id);
    }
    hide RunRow, CountMissesDb;
  }

  lemma CloseRows(db: Db, q: int, price: real, at: int, reason: ExitReason, now: int, id: int)
    requires id in db.positions
    ensures var d := ClosePositionDb(db, q, price, at, reason, now);
      id in d.positions
      && d.positions[id] == RunRow(db.positions[id], if q == id then [CloseAt(price, at, reason)] else [])
  {
    OneOp(db.positions[id], CloseAt(price, at, reason));
  }

  // ----- who may do what

  /** The steps the monitor makes on this position: its saves and its exits. */
  predicate ByMonitor(op: Op, id: int) {
    (op.SavePosition? || op.ClosePosition?) && op.position == id
  }

  /** Everyone else only tightens to a positive price, rewires, closes as the agent, and counts:
      exactly the interference the monitor's loop is proved safe against. */
  lemma OthersReach(db: Db, op: Op, id: int)
    requires Linked(db) && id in db.positions && !ByMonitor(op, id)
    ensures OtherOps(RowOpsOf(db, op, id))
  {
    hide MissedFrom, Linked, WakeRecorded;
    if op.Complete? {
      CompleteReaches(db, op.attempt, op.fence, op.result, op.now, op.clock, op.host, id);
    }
  }

  lemma CompleteReaches(db: Db, a: nat, fence: nat, i: CompleteInput, now: int, clock: int, host: int, id: int)
    requires Linked(db) && id in db.positions
    ensures OtherOps(CompleteRowOps(db, a, fence, i, now, clock, host, id))
  {
    hide Judge, BookRowOps, WakeIn, OtherOps, Waits;
    assert OtherOps([]) by { NoOps(); }
    if Current(db, a, fence, now) {
      RunLinked(db, a);
      hide Linked;
      var x := RunOf(db, a);
      WakeReaches(db, x.agent, db.snaps[x.snap], ProposalOf(i), clock,
                  AgentOf(db, a).budgets.freshnessSeconds * SECOND, host, id);
    }
  }

  lemma NoOps()
    ensures OtherOps([])
  {
  }

  lemma WakeReaches(db: Db, agent: nat, s: Snapshot, d: Decision, clock: int, maxAge: int, host: int, id: int)
    requires id in db.positions
    ensures OtherOps(BookRowOps(db, agent, s, d, Judge(s, d, clock, maxAge), host, id))
  {
    var v := Judge(s, d, clock, maxAge);
    if WakeIn(s).Some? && v.valid {
      ValidWakeIff(d, WakeIn(s).value, s.takenAt, clock, maxAge);
      hide JudgeWake, WakeFill;
    }
  }

  // ----- whole histories

  /** The row changes a history makes to position id. */
  ghost function RowHistoryOf(db: Db, ops: seq<Op>, id: int): seq<RowOp>
    requires Inv(db) && id in db.positions
    decreases |ops|
  {
    if ops == [] then []
    else
      StepKeeps(db, ops[0]);
      LinkedOf(db);
      StepRows(db, ops[0], id);
      RowOpsOf(db, ops[0], id) + RowHistoryOf(Apply(db, ops[0]), ops[1..], id)
  }

  /** A stored position after any history is its row changes applied in order. */
  lemma {:induction false} HistoryRows(db: Db, ops: seq<Op>, id: int)
    requires Inv(db) && id in db.positions
    ensures id in Exec(db, ops).positions
    ensures Exec(db, ops).positions[id] == RunRow(db.positions[id], RowHistoryOf(db, ops, id))
    decreases |ops|
  {
    hide Inv, Linked, Apply, RowOpsOf, ApplyRow;
    LinkedOf(db);
    if ops != [] {
      StepKeeps(db, ops[0]);
      StepRows(db, ops[0], id);
      var d := Apply(db, ops[0]);
      HistoryRows(d, ops[1..], id);
      RunRowConcat(db.positions[id], RowOpsOf(db, ops[0], id), RowHistoryOf(d, ops[1..], id));
    }
  }

  /** In every history: the trade never changes, the recorded stop only moves toward price from the
      initial one, and once closed the exit, stop and plan stay, with the realized result of that exit. */
  lemma PositionHistory(db: Db, before: seq<Op>, after: seq<Op>, id: int)
    requires Inv(db) && id in Exec(db, before).positions
    ensures id in Exec(Exec(db, before), after).positions
    ensures var p, q := Exec(db, before).positions[id], Exec(Exec(db, before), after).positions[id];
      && SameTrade(p, q)
      && Closer(p.side, q.stop, p.stop) && Closer(p.side, p.stop, p.initialStop)
      && (p.status.Closed? ==> q.status == p.status && q.stop == p.stop && q.plan == p.plan)
      && (q.status.Closed? ==> q.status.realized == PnL(q.side, q.notional, q.entry, q.status.price))
  {
    hide Inv, Exec, RowHistoryOf, RunRow, PnL;
    var d := Exec(db, before);
    BookOf(d);
    RowInvOf(d, id);
    HistoryRows(d, after, id);
    RowHistory(d.positions[id], RowHistoryOf(d, after, id));
  }

  predicate Starts(p: Position) {
    p.status == Live && p.stop == p.initialStop && p.lastBarTime.None? && p.barsHeld == 0
  }

  lemma SoundStart(p: Position)
    requires RowInv(p) && Starts(p)
    ensures Sound(p)
  {
  }

  /** The row is the proposal's entry, at the price it was judged by, at decision time. */
  predicate IsEntry(p: Position, agent: nat, run: nat, s: Snapshot, d: Decision, v: Validation, clock: int) {
    && Starts(p)
    && s.source.Engine? && d.action.Open? && v.valid
    && p.agent == agent && p.run == run && p.instrument == s.instrument && p.granularity == s.granularity
    && p.side == d.side && p.notional == d.notional && p.initialStop == d.stop && p.target == d.target
    && p.plan == d.plan.GetOr(NO_PLAN) && p.entry == v.priceUsed && p.entryTime == clock
  }

  lemma OpenRow(db: Db, agent: nat, run: nat, s: Snapshot, d: Decision, price: real, at: int, now: int, id: int)
    requires id !in db.positions
    ensures var e := OpenDb(db, agent, run, s, d, price, at, now);
      id in e.positions ==> e.positions[id] == NewPosition(agent, run, s, d, price, at)
  {
    hide OpenConflict, NewPosition;
  }

  lemma BookOpens(db: Db, agent: nat, run: nat, s: Snapshot, d: Decision, v: Validation, now: int, clock: int,
                  host: int, id: int)
    requires id !in db.positions
    ensures var e := BookDb(db, agent, run, s, d, v, now, clock, host);
      id in e.positions ==> IsEntry(e.positions[id], agent, run, s, d, v, clock)
  {
    OpenRow(db, agent, run, s, d, v.priceUsed, clock, now, id);
    hide WakeIn, WakeRowOps, OpenDb, TightenLands, WakeNote, RunRow;
  }

  /** The call was current and uncancelled, ended its run, and its valid proposal is the entry. */
  ghost predicate OpenedBy(db: Db, a: nat, fence: nat, i: CompleteInput, now: int, clock: int, p: Position)
    requires Linked(db)
  {
    && Current(db, a, fence, now) && !RunOf(db, a).cancelRequested
    && !Waits(db.attempts[a], RunOf(db, a).followupsUsed, AgentOf(db, a).budgets)
    && RunOf(db, a).snap in db.snaps
    && IsEntry(p, RunOf(db, a).agent, db.attempts[a].run, db.snaps[RunOf(db, a).snap], ProposalOf(i),
               VerdictOf(db, a, i, clock), clock)
  }

  lemma CompleteOpens(db: Db, a: nat, fence: nat, i: CompleteInput, now: int, clock: int, host: int, id: int)
    requires Linked(db) && id !in db.positions
    ensures var e := CompleteDb(db, a, fence, i, now, clock, host);
      id in e.positions ==> OpenedBy(db, a, fence, i, now, clock, e.positions[id])
  {
    hide BookDb, Judge, CancelRow, WaitRow, SucceedRow, IsEntry, Waits;
    if Current(db, a, fence, now) {
      RunLinked(db, a);
      hide Linked;
      var x := RunOf(db, a);
      var s, d, v := db.snaps[x.snap], ProposalOf(i), VerdictOf(db, a, i, clock);
      var e := Finish(db, a, AttSucceeded, i.usage, SucceedRow(x, d, v, i.usage, s.source));
      BookOpens(e, x.agent, db.attempts[a].run, s, d, v, now, clock, host, id);
    }
  }

  /** A position appears only from the final result of a current, uncancelled call whose valid proposal
      opens on an engine snapshot; it is that proposal's entry and starts sound. */
  lemma OpensSound(db: Db, op: Op, id: int)
    requires Inv(db) && id in Apply(db, op).positions && id !in db.positions
    ensures op.Complete? && Linked(db)
      && OpenedBy(db, op.attempt, op.fence, op.result, op.now, op.clock, Apply(db, op).positions[id])
    ensures Sound(Apply(db, op).positions[id])
  {
    LinkedOf(db);
    StepKeeps(db, op);
    BookOf(Apply(db, op));
    RowInvOf(Apply(db, op), id);
    hide Inv, Evolves, RowInv, Linked, BookOk;
    if op.Complete? {
      CompleteOpens(db, op.attempt, op.fence, op.result, op.now, op.clock, op.host, id);
      hide Current, RunOf, AgentOf, Waits;
      SoundStart(Apply(db, op).positions[id]);
    } else {
      OnlyCompleteOpens(db, op, id);
    }
  }

  lemma {:induction false} MissOpensNone(db: Db, p: int, es: seq<nat>, now: int, id: int)
    requires p in db.positions && id !in db.positions
    ensures id !in CountMissesDb(db, p, es, now).positions
    decreases |es|
  {
    hide ApplyRow;
    if es != [] {
      MissOpensNone(CountMissDb(db, p, es[0], now), p, es[1..], now, id);
    }
  }

  lemma OnlyCompleteOpens(db: Db, op: Op, id: int)
    requires Linked(db) && id !in db.positions && !op.Complete?
    ensures id !in Apply(db, op).positions
  {
    hide ApplyRow, MissedFrom, CountMissesDb, CompleteDb, Linked;
    if !BookOp(op) {
      hide Apply;
      BookUntouched(db, op);
    } else if op.Reconcile? && op.position in db.positions {
      MissOpensNone(db, op.position, MissedFrom(db, op.position, 0), op.now, id);
    }
  }
}

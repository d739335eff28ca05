/** One row of the shadow book, and every change a transaction may make to an existing row.
    The monitor saves its state after each bar, a woken agent tightens, rewires or closes,
    and the wake bookkeeping counts; any of them may come in any order. */
module Positions {
  import opened Common
  import opened Domain

  datatype ExitReason = StopHit | TargetHit | Invalidated | TimeStop | KillSwitch | AgentClose

  datatype Status = Live | Closed(price: real, at: int, reason: ExitReason, realized: real)

  datatype Position = Position(
    agent: nat, run: nat, instrument: string, granularity: Granularity,
    side: Side, notional: real, entry: real, entryTime: int, initialStop: real,
    stop: real, target: Option<real>, plan: Plan,
    barsHeld: int, best: real, lastClose: real, lastBarTime: Option<int>, lastFired: map<Tripwire, int>,
    status: Status, wakes: nat, failedWakes: nat, needsAttention: bool)

  /** What the monitor writes back after a bar. It never writes the plan. */
  datatype Saved = Saved(stop: real, barsHeld: int, best: real, lastClose: real, lastBarTime: Option<int>,
                         lastFired: map<Tripwire, int>)

  const MAX_FAILED_WAKES := 3

  /** The stop at least as close to price, as the update picks it. */
  function CloserOf(side: Side, a: real, b: real): real {
    if side.Long? then MaxR(a, b) else MinR(a, b)
  }

  /** Stop a sits at least as close to price as stop b. */
  predicate Closer(side: Side, a: real, b: real) {
    if side.Long? then a >= b else a <= b
  }

  function SaveRow(p: Position, s: Saved): Position {
    if p.status != Live then p
    else p.(stop := CloserOf(p.side, p.stop, s.stop), barsHeld := s.barsHeld, best := s.best,
            lastClose := s.lastClose, lastBarTime := s.lastBarTime, lastFired := p.lastFired + s.lastFired)
  }

  function CloseRow(p: Position, price: real, at: int, reason: ExitReason): Position {
    if p.status != Live then p
    else p.(status := Closed(price, at, reason, PnL(p.side, p.notional, p.entry, price)))
  }

  /** A tightening lands only if it still moves the stop toward price and stays behind it. */
  predicate TightenLands(p: Position, newStop: real, price: real) {
    && p.status == Live
    && (|| (p.side.Long? && newStop > p.stop && newStop < price)
        || (p.side.Short? && newStop < p.stop && newStop > price))
  }

  function TightenRow(p: Position, newStop: real, price: real): Position {
    if TightenLands(p, newStop, price) then p.(stop := newStop) else p
  }

  function RewireRow(p: Position, ts: seq<Tripwire>): Position {
    if p.status != Live then p
    else p.(plan := p.plan.(tripwires := ts), lastFired := map[])
  }

  function MissRow(p: Position): Position {
    var failed := p.failedWakes + 1;
    p.(failedWakes := failed, needsAttention := p.needsAttention || failed >= MAX_FAILED_WAKES)
  }

  /** A fresh bar close, at most three minutes old, is a better fill than the wake snapshot's price. */
  function WakeFill(p: Position, snapshotPrice: real, at: int): real {
    if p.lastClose > 0.0 && p.lastBarTime.Some? && at - p.lastBarTime.value < 3 * MINUTE then p.lastClose
    else snapshotPrice
  }

  datatype RowOp =
    | Save(saved: Saved)
    | CloseAt(price: real, at: int, reason: ExitReason)
    | Tighten(newStop: real, price: real)
    | Rewire(tripwires: seq<Tripwire>)
    | WakeAnswered
    | WakeNoted
    | WakeMissed
    | Attention

  function ApplyRow(p: Position, op: RowOp): Position {
    match op
    case Save(s) => SaveRow(p, s)
    case CloseAt(price, at, reason) => CloseRow(p, price, at, reason)
    case Tighten(ns, price) => TightenRow(p, ns, price)
    case Rewire(ts) => RewireRow(p, ts)
    case WakeAnswered => p.(failedWakes := 0)
    case WakeNoted => p.(wakes := p.wakes + 1)
    case WakeMissed => MissRow(p)
    case Attention => p.(needsAttention := true)
  }

  function RunRow(p: Position, ops: seq<RowOp>): Position
    decreases |ops|
  {
    if ops == [] then p else RunRow(ApplyRow(p, ops[0]), ops[1..])
  }

  /** The entry was accepted: sizes and prices are positive, the initial stop lies behind the
      entry and the target ahead of it. */
  predicate EntryOk(side: Side, notional: real, entry: real, initialStop: real, target: Option<real>) {
    && !side.OtherSide?
    && notional > 0.0 && entry > 0.0 && initialStop > 0.0
    && Behind(side, initialStop, entry)
    && (target.Some? ==> Ahead(side, target.value, entry))
  }

  predicate RowInv(p: Position) {
    && EntryOk(p.side, p.notional, p.entry, p.initialStop, p.target)
    && Closer(p.side, p.stop, p.initialStop)
    && (p.status.Closed? ==> p.status.realized == PnL(p.side, p.notional, p.entry, p.status.price))
  }

  predicate SameTrade(p: Position, q: Position) {
    && q.agent == p.agent && q.run == p.run && q.instrument == p.instrument && q.granularity == p.granularity
    && q.side == p.side && q.notional == p.notional && q.entry == p.entry && q.entryTime == p.entryTime
    && q.initialStop == p.initialStop && q.target == p.target
    && q.plan == p.plan.(tripwires := q.plan.tripwires)
  }

  /** What any later state of a row keeps from an earlier one. */
  predicate RowEvolves(p: Position, q: Position) {
    && SameTrade(p, q)
    && Closer(p.side, q.stop, p.stop)
    && (p.status.Closed? ==>
          && q.status == p.status && q.stop == p.stop && q.plan == p.plan && q.barsHeld == p.barsHeld
          && q.best == p.best && q.lastClose == p.lastClose && q.lastBarTime == p.lastBarTime
          && q.lastFired == p.lastFired)
    && p.wakes <= q.wakes
    && (p.needsAttention ==> q.needsAttention)
  }

  lemma RowEvolvesSelf(p: Position)
    ensures RowEvolves(p, p)
  {
  }

  lemma RowEvolvesTransitive(p: Position, q: Position, r: Position)
    requires RowEvolves(p, q) && RowEvolves(q, r)
    ensures RowEvolves(p, r)
  {
  }

  lemma RowStep(p: Position, op: RowOp)
    requires RowInv(p)
    ensures RowInv(ApplyRow(p, op)) && RowEvolves(p, ApplyRow(p, op))
  {
  }

  /** For every interleaving of saves, wake results, closes and counters: the trade itself never
      changes, the stop only moves toward price from where it started, and a closed row keeps
      its exit, its stop and its plan, with the realized result of that exit. */
  lemma {:induction false} RowHistory(p: Position, ops: seq<RowOp>)
    requires RowInv(p)
    ensures RowInv(RunRow(p, ops)) && RowEvolves(p, RunRow(p, ops))
    ensures Closer(p.side, RunRow(p, ops).stop, p.initialStop)
    decreases |ops|
  {
    if ops != [] {
      RowStep(p, ops[0]);
      var q := ApplyRow(p, ops[0]);
      RowHistory(q, ops[1..]);
      RowEvolvesTransitive(p, q, RunRow(q, ops[1..]));
    }
  }

  lemma {:induction false} RunRowConcat(p: Position, a: seq<RowOp>, b: seq<RowOp>)
    ensures RunRow(p, a + b) == RunRow(RunRow(p, a), b)
    decreases |a|
  {
    if a == [] {
      assert a + b == b;
    } else {
      assert (a + b)[1..] == a[1..] + b;
      RunRowConcat(ApplyRow(p, a[0]), a[1..], b);
    }
  }

  /** How many close requests along the way report that they closed the row. */
  function ClosesWon(p: Position, ops: seq<RowOp>): nat
    decreases |ops|
  {
    if ops == [] then 0
    else
      (if ops[0].CloseAt? && p.status == Live then 1 else 0) + ClosesWon(ApplyRow(p, ops[0]), ops[1..])
  }

  /** However many closes race, exactly one wins, and only if some close arrives while the row is open. */
  lemma {:induction false} ClosesOnce(p: Position, ops: seq<RowOp>)
    ensures ClosesWon(p, ops) == if p.status == Live && RunRow(p, ops).status.Closed? then 1 else 0
    ensures p.status == Live ==> (RunRow(p, ops).status.Closed? <==> exists i :: 0 <= i < |ops| && ops[i].CloseAt?)
    decreases |ops|
  {
    if ops != [] {
      var q := ApplyRow(p, ops[0]);
      var rest := ops[1..];
      ClosesOnce(q, rest);
      assert forall i :: 0 <= i < |rest| ==> rest[i] == ops[i + 1];
      if q.status == Live {
        if j :| 0 <= j < |ops| && ops[j].CloseAt? {
          assert j > 0 && rest[j - 1].CloseAt?;
        }
      } else {
        ClosedStays(q, rest);
        assert p.status == Live ==> ops[0].CloseAt?;
      }
    }
  }

  lemma {:induction false} ClosedStays(p: Position, ops: seq<RowOp>)
    requires p.status.Closed?
    ensures RunRow(p, ops).status == p.status
    decreases |ops|
  {
    if ops != [] {
      ClosedStays(ApplyRow(p, ops[0]), ops[1..]);
    }
  }
}

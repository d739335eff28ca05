/** What a booked result is: the return on the notional, to the nearest ten-thousandth. */
module Results {
  import opened Common
  import opened Domain
  import opened Positions
  import opened RunQueue
  import opened QueueSteps
  import opened ServiceSafety
  import opened TimeStop
  import opened MonitorHistory
  import opened TickHistory

  // ----- rounding

  /** Nearest whole number, the odd one out going away from zero. */
  lemma Rounds(x: real)
    ensures -0.5 <= RoundHalfAway(x) as real - x <= 0.5
    ensures RoundHalfAway(-x) == -RoundHalfAway(x)
  {
  }

  lemma RoundsAway(x: real, k: nat)
    requires x == k as real + 0.5
    ensures RoundHalfAway(x) == k + 1 && RoundHalfAway(-x) == -(k + 1)
  {
  }

  // ----- the return

  lemma ReturnOfLong(side: Side, notional: real, entry: real, exit: real)
    requires entry > 0.0 && !side.Short?
    ensures Return(side, notional, entry, exit) == notional * (exit / entry - 1.0)
  {
    var q := exit / entry;
    assert q * entry == exit;
    assert exit - entry == (q - 1.0) * entry;
    assert notional * Sign(side) * (exit - entry) == notional * (q - 1.0) * entry;
  }

  lemma Opposite(notional: real, entry: real, exit: real)
    requires entry > 0.0
    ensures Return(Short, notional, entry, exit) == -Return(Long, notional, entry, exit)
  {
    var a, b := notional * -1.0 * (exit - entry), notional * 1.0 * (exit - entry);
    assert a == -b;
  }

  /** Every booked result is a whole number of ten-thousandths. */
  lemma Whole(side: Side, notional: real, entry: real, exit: real)
    ensures (PnL(side, notional, entry, exit) * 10000.0).Floor as real == PnL(side, notional, entry, exit) * 10000.0
  {
    hide Return, RoundHalfAway;
    if entry > 0.0 {
      var n := RoundHalfAway(Return(side, notional, entry, exit) * 10000.0);
      assert PnL(side, notional, entry, exit) * 10000.0 == n as real;
    }
  }

  lemma NearReturn(side: Side, notional: real, entry: real, exit: real)
    requires entry > 0.0
    ensures AbsR(PnL(side, notional, entry, exit) - Return(side, notional, entry, exit)) <= 0.00005
  {
    var x := Return(side, notional, entry, exit);
    Rounds(x * 10000.0);
    hide Return, RoundHalfAway;
    assert PnL(side, notional, entry, exit) * 10000.0 == RoundHalfAway(x * 10000.0) as real;
  }

  /** A long books the relative rise of the price times the notional, to the nearest ten-thousandth; a
      short books the opposite; an exit at the entry books nothing. */
  lemma BooksReturn(notional: real, entry: real, exit: real)
    requires entry > 0.0
    ensures AbsR(PnL(Long, notional, entry, exit) - notional * (exit / entry - 1.0)) <= 0.00005
    ensures PnL(Short, notional, entry, exit) == -PnL(Long, notional, entry, exit)
    ensures PnL(Long, notional, entry, entry) == 0.0
    ensures (PnL(Long, notional, entry, exit) * 10000.0).Floor as real == PnL(Long, notional, entry, exit) * 10000.0
  {
    ReturnOfLong(Long, notional, entry, exit);
    NearReturn(Long, notional, entry, exit);
    Opposite(notional, entry, exit);
    Rounds(Return(Long, notional, entry, exit) * 10000.0);
    NoMove(notional, entry);
    Whole(Long, notional, entry, exit);
    hide Return, RoundHalfAway;
    var x := Return(Long, notional, entry, exit);
    assert Return(Short, notional, entry, exit) * 10000.0 == -(x * 10000.0);
  }

  lemma NoMove(notional: real, entry: real)
    requires entry > 0.0
    ensures PnL(Long, notional, entry, entry) == 0.0
  {
    assert notional * 1.0 * (entry - entry) == 0.0;
  }

  lemma SameRatio(n: real, a: real, e: real, k: real)
    requires e > 0.0 && k > 0.0
    ensures k * e > 0.0
    ensures n * (k * a) / (k * e) == n * a / e
  {
    var q := n * a / e;
    assert q * e == n * a;
    assert n * (k * a) == k * (n * a) == k * (q * e) == q * (k * e);
  }

  lemma SameReturn(side: Side, notional: real, entry: real, exit: real, k: real)
    requires entry > 0.0 && k > 0.0
    ensures k * entry > 0.0
    ensures Return(side, notional, k * entry, k * exit) == Return(side, notional, entry, exit)
  {
    SameRatio(notional * Sign(side), exit - entry, entry, k);
    var moved := k * exit - k * entry;
    assert moved == k * (exit - entry);
  }

  /** The unit prices are quoted in does not matter. */
  lemma ScaleFree(side: Side, notional: real, entry: real, exit: real, k: real)
    requires entry > 0.0 && k > 0.0
    ensures k * entry > 0.0
    ensures PnL(side, notional, k * entry, k * exit) == PnL(side, notional, entry, exit)
  {
    hide Return, RoundHalfAway;
    SameReturn(side, notional, entry, exit, k);
  }

  // ----- the loss bound in account currency

  /** The notional times the relative distance of the initial stop from the entry. */
  function Risked(q: Position): real
    requires q.entry > 0.0
  {
    q.notional * AbsR(q.entry - q.initialStop) / q.entry
  }

  lemma StopReturn(q: Position)
    requires RowInv(q)
    ensures Return(q.side, q.notional, q.entry, q.initialStop) == -Risked(q)
  {
    var far, gap := AbsR(q.entry - q.initialStop), q.initialStop - q.entry;
    assert Sign(q.side) * gap == -far;
    Flipped(q.notional, Sign(q.side), gap, far);
    Negated(q.notional * far, q.entry);
    hide PnL, Closer;
  }

  lemma Flipped(n: real, s: real, gap: real, far: real)
    requires s * gap == -far
    ensures n * s * gap == -(n * far)
  {
    assert n * s * gap == n * (s * gap);
  }

  lemma StopLoss(q: Position)
    requires RowInv(q)
    ensures PnL(q.side, q.notional, q.entry, q.initialStop) >= -Risked(q) - 0.00005
  {
    StopReturn(q);
    NearReturn(q.side, q.notional, q.entry, q.initialStop);
    hide PnL, Return, Closer, Risked;
  }

  lemma Negated(a: real, e: real)
    requires e > 0.0
    ensures (-a) / e == -(a / e)
  {
    var q := a / e;
    assert q * e == a;
    assert (-q) * e == -a;
  }

  lemma SameTerms(q: Position, r: Position)
    requires RowInv(q)
    requires r.status.Closed? && !r.status.reason.AgentClose? ==>
      r.status.realized >= PnL(q.side, q.notional, q.entry, q.initialStop)
    ensures q.entry > 0.0
    ensures r.status.Closed? && !r.status.reason.AgentClose? ==>
      r.status.realized >= -Risked(q) - 0.00005
  {
    hide PnL, Closer, Risked;
    StopLoss(q);
  }

  /** Whatever happens between and inside the monitor's ticks, if no judged bar opens beyond the stop in
      force, a trade the monitor closes loses at most the notional times the relative distance of its
      initial stop, to the nearest ten-thousandth. */
  lemma LossInCurrency(db: Db, id: int, es: seq<Event>)
    requires Inv(db) && id in db.positions && Sound(db.positions[id]) && Timely(db.positions[id])
    requires FairHistory(World(db, None), id, es)
    ensures var q, r := db.positions[id], After(World(db, None), id, es).db.positions[id];
      && q.entry > 0.0
      && (r.status.Closed? && !r.status.reason.AgentClose? ==>
            r.status.realized >= -Risked(q) - 0.00005)
  {
    hide Inv, FairHistory, After, PnL, RowEvolves, Closer, RowInv, Risked, Sound, Timely;
    TicksLossBound(db, id, es);
    SoundInv(db.positions[id]);
    SameTerms(db.positions[id], After(World(db, None), id, es).db.positions[id]);
  }
}

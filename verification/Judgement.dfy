/** Which proposals are accepted, read off the snapshot's own payload. */
module Judgement {
  import opened Common
  import opened Domain
  import opened RunQueue

  predicate Woken(s: Snapshot) {
    s.source.Monitor? && s.payload.wake.Some? && s.payload.wake.value.id > 0
  }

  /** The last quote, or the last close where there is none. */
  function PriceIn(s: Snapshot): real {
    var quote := s.payload.quoteLast.GetOr(0.0);
    if quote != 0.0 then quote else s.payload.close.GetOr(0.0)
  }

  /** No older than the agent allows, if it sets a limit. */
  predicate Fresh(s: Snapshot, clock: int, maxAge: int) {
    maxAge <= 0 || clock <= s.takenAt + maxAge
  }

  /** An entry is accepted exactly if it is shaped, fresh, the portfolio is not halted, there is a price, the
      size stays inside the equity, the stop and the invalidation level lie on the losing side of the
      price and the target on the winning one. */
  lemma EntryIff(s: Snapshot, d: Decision, clock: int, maxAge: int)
    requires !Woken(s) && d.action.Open?
    ensures var price, inv := PriceIn(s), if d.plan.Some? then d.plan.value.invalidation else None;
      Judge(s, d, clock, maxAge).valid <==>
        && ShapeOk(d) && Fresh(s, clock, maxAge) && !s.payload.halted && price > 0.0
        && (s.payload.equity <= 0.0 || d.notional <= s.payload.equity)
        && (if d.side.Long?
            then d.stop < price && (d.target.Some? ==> d.target.value > price) && (inv.Some? ==> inv.value < price)
            else d.stop > price && (d.target.Some? ==> d.target.value < price) && (inv.Some? ==> inv.value > price))
  {
    ValidOpenIff(d, FactsOf(s.instrument, s.payload, s.takenAt), clock, maxAge);
    hide ShapeOk, OpenReasons;
  }

  /** Otherwise: a hold is accepted if fresh, a close also if not halted and for a position the snapshot
      shows on its instrument; a stop or tripwires never. */
  lemma OtherIff(s: Snapshot, d: Decision, clock: int, maxAge: int)
    requires !Woken(s) && !d.action.Open?
    ensures Judge(s, d, clock, maxAge).valid <==>
      && Fresh(s, clock, maxAge)
      && (|| d.action.Hold?
          || (d.action.Close? && d.positionId > 0 && !s.payload.halted
              && d.positionId in s.payload.positions && s.payload.positions[d.positionId] == s.instrument))
  {
    var f := FactsOf(s.instrument, s.payload, s.takenAt);
    assert forall k :: k in f.positions <==> k in s.payload.positions && k > 0;
    hide OpenReasons;
  }

  /** On a wake: anything but an entry, fresh, for the position it was woken for; a stop only strictly between
      the one in force and the price. */
  lemma WakeIff(s: Snapshot, d: Decision, clock: int, maxAge: int)
    requires Woken(s)
    ensures var w := s.payload.wake.value;
      Judge(s, d, clock, maxAge).valid <==>
        && ShapeOk(d) && Fresh(s, clock, maxAge)
        && (|| d.action.Hold?
            || (d.positionId == w.id
                && (|| d.action.Close? || d.action.SetTripwires?
                    || (d.action.TightenStop?
                        && if w.side.Long? then w.stop < d.newStop.value < w.price
                           else w.price < d.newStop.value < w.stop))))
  {
    ValidWakeIff(d, s.payload.wake.value, s.takenAt, clock, maxAge);
    hide WakeReasons;
  }
}

/** What one bar does to a position, in its prices alone: where the trail puts the stop, which price
    ends the trade, and what wakes the agent. */
module StepRules {
  import opened Common
  import opened Domain
  import opened Positions
  import opened MonitorStep

  // ----- the trail

  /** A known level of the trail, measured from the best close held. */
  predicate TrailLevel(trail: Trail, side: Side, best: real, env: Env, level: real) {
    || (trail.kind.AtrTrail? && env.atr > 0.0
        && (if side.Short? then level - best == trail.mult * env.atr else best - level == trail.mult * env.atr))
    || (trail.kind.SupertrendTrail? && env.supertrend > 0.0 && level == env.supertrend)
  }

  /** The level is a price strictly between the old stop and the close. */
  predicate Lands(side: Side, stop: real, level: real, close: real) {
    level > 0.0 && (if side.Short? then close < level < stop else stop < level < close)
  }

  /** The stop moves exactly when the position stays open and its trail has a known level that is a
      price strictly between the old stop and the close; and then exactly to that level. */
  lemma TrailIff(p: Pos, b: Bar, env: Env)
    ensures var r := StepOf(p, b, env);
      && (r.trailed <==>
            r.exit.None? && p.plan.trail.Some?
            && exists level :: TrailLevel(p.plan.trail.value, p.side, r.pos.best, env, level)
                               && Lands(p.side, p.stop, level, b.close))
      && (r.trailed ==>
            forall level :: TrailLevel(p.plan.trail.value, p.side, r.pos.best, env, level) ==> r.pos.stop == level)
      && (!r.trailed ==> r.pos.stop == p.stop)
  {
    hide Marks, Fired, EarlyExit;
    var r := StepOf(p, b, env);
    if r.exit.None? && p.plan.trail.Some? {
      var held := HeldBar(Normal(p), b);
      forall level ensures
        TrailLevel(p.plan.trail.value, p.side, r.pos.best, env, level) ==> level == TrailTo(held, env)
      {
        TrailToIs(held, env, level);
      }
      TrailToIs(held, env, TrailTo(held, env));
    }
  }

  lemma TrailToIs(held: Pos, env: Env, level: real)
    requires held.plan.trail.Some?
    ensures TrailLevel(held.plan.trail.value, held.side, held.best, env, level) ==> level == TrailTo(held, env)
    ensures TrailTo(held, env) > 0.0 ==>
      TrailLevel(held.plan.trail.value, held.side, held.best, env, TrailTo(held, env))
  {
    var m := held.plan.trail.value.mult;
    assert 1.0 * m * env.atr == m * env.atr && -1.0 * m * env.atr == -(m * env.atr);
  }

  /** A bar the position stays open on and that closes at its best leaves the stop within the trail's
      distance of that close. */
  lemma TrailFollows(p: Pos, b: Bar, env: Env)
    requires p.plan.trail.Some? && p.plan.trail.value.kind.AtrTrail? && env.atr > 0.0
    requires 0.0 < p.plan.trail.value.mult * env.atr < b.close
    requires StepOf(p, b, env).exit.None? && StepOf(p, b, env).pos.best == b.close
    ensures var dist, stop := p.plan.trail.value.mult * env.atr, StepOf(p, b, env).pos.stop;
      if p.side.Short? then stop <= b.close + dist else stop >= b.close - dist
  {
    TrailIff(p, b, env);
    hide StepOf;
    var dist := p.plan.trail.value.mult * env.atr;
    var level := if p.side.Short? then b.close + dist else b.close - dist;
    assert TrailLevel(p.plan.trail.value, p.side, b.close, env, level);
  }

  // ----- the best close

  /** The best of the entry (or the best so far) and the closes of the bars. */
  ghost predicate IsBest(long: bool, start: real, ticks: seq<Tick>, best: real) {
    && (best == start || exists k :: 0 <= k < |ticks| && ticks[k].bar.close == best)
    && (if long then start <= best else best <= start)
    && (forall k :: 0 <= k < |ticks| ==> if long then ticks[k].bar.close <= best else best <= ticks[k].bar.close)
  }

  lemma BarBest(p: Pos, b: Bar, env: Env)
    ensures var r, start := StepOf(p, b, env), if p.best == 0.0 then p.entry else p.best;
      && (r.exit.None? ==>
            r.pos.lastClose == b.close
            && r.pos.best == if p.side.Short? then MinR(start, b.close) else MaxR(start, b.close))
  {
    hide Marks, Fired, TrailTo, EarlyExit;
  }

  /** Over any bars a position stays open on, the best close is the best of its entry (or of what it
      had) and all their closes, and the last close is the last bar's. */
  lemma {:induction false} BestClose(p: Pos, ticks: seq<Tick>)
    requires ticks != [] && Fold(p, ticks).exit.None? && p.entry > 0.0 && p.best >= 0.0
    requires forall k :: 0 <= k < |ticks| ==> ticks[k].bar.close > 0.0
    ensures var start := if p.best == 0.0 then p.entry else p.best;
      IsBest(!p.side.Short?, start, ticks, Fold(p, ticks).pos.best)
    ensures Fold(p, ticks).pos.lastClose == ticks[|ticks| - 1].bar.close
    decreases |ticks|
  {
    var r := StepOf(p, ticks[0].bar, ticks[0].env);
    var start := if p.best == 0.0 then p.entry else p.best;
    BarBest(p, ticks[0].bar, ticks[0].env);
    PlanKept(p, ticks[0].bar, ticks[0].env);
    hide StepOf;
    if |ticks| > 1 {
      BestClose(r.pos, ticks[1..]);
      BestMore(!p.side.Short?, start, ticks, r.pos.best, Fold(p, ticks).pos.best);
    } else {
      assert ticks[0].bar.close == r.pos.best || start == r.pos.best;
    }
  }

  lemma BestMore(long: bool, start: real, ticks: seq<Tick>, first: real, best: real)
    requires ticks != [] && IsBest(long, first, ticks[1..], best)
    requires first == if long then MaxR(start, ticks[0].bar.close) else MinR(start, ticks[0].bar.close)
    ensures IsBest(long, start, ticks, best)
  {
    if best != first {
      var k :| 0 <= k < |ticks[1..]| && ticks[1..][k].bar.close == best;
      assert ticks[k + 1].bar.close == best;
    } else if first != start {
      assert ticks[0].bar.close == best;
    }
    forall k | 0 <= k < |ticks|
      ensures if long then ticks[k].bar.close <= best else best <= ticks[k].bar.close
    {
      if k > 0 {
        assert ticks[1..][k - 1] == ticks[k];
      }
    }
  }

  // ----- which price ends the trade

  /** A long trade: the bar's low reaches the stop, its high the target, its close falls below the
      invalidation level; the first of these rules that applies gives the exit and its price. */
  lemma LongExits(p: Pos, b: Bar, env: Env)
    requires !p.side.Short?
    ensures var e, target, inv := StepOf(p, b, env).exit, p.target, p.plan.invalidation;
      && (b.low <= p.stop ==> e == Some(Exit(MinR(p.stop, b.open), StopHit)))
      && (b.low > p.stop && target.Some? && b.high >= target.value ==> e == Some(Exit(target.value, TargetHit)))
      && (b.low > p.stop && (target.Some? ==> b.high < target.value) ==>
            && (env.halted ==> e == Some(Exit(b.close, KillSwitch)))
            && (!env.halted && inv.Some? && b.close < inv.value ==> e == Some(Exit(b.close, Invalidated)))
            && (!env.halted && (inv.Some? ==> b.close >= inv.value) ==>
                  e == if p.plan.maxBars > 0 && p.barsHeld + 1 >= p.plan.maxBars
                       then Some(Exit(b.close, TimeStop)) else None))
  {
    hide Marks, Fired, TrailTo;
  }

  /** A short trade, the other way round. */
  lemma ShortExits(p: Pos, b: Bar, env: Env)
    requires p.side.Short?
    ensures var e, target, inv := StepOf(p, b, env).exit, p.target, p.plan.invalidation;
      && (b.high >= p.stop ==> e == Some(Exit(MaxR(p.stop, b.open), StopHit)))
      && (b.high < p.stop && target.Some? && b.low <= target.value ==> e == Some(Exit(target.value, TargetHit)))
      && (b.high < p.stop && (target.Some? ==> b.low > target.value) ==>
            && (env.halted ==> e == Some(Exit(b.close, KillSwitch)))
            && (!env.halted && inv.Some? && b.close > inv.value ==> e == Some(Exit(b.close, Invalidated)))
            && (!env.halted && (inv.Some? ==> b.close <= inv.value) ==>
                  e == if p.plan.maxBars > 0 && p.barsHeld + 1 >= p.plan.maxBars
                       then Some(Exit(b.close, TimeStop)) else None))
  {
    hide Marks, Fired, TrailTo;
  }

  // ----- what wakes the agent

  /** The tripwire's condition on a bar, in prices: the previous close is the one of the bar before, or
      the entry. */
  predicate Condition(t: Tripwire, p: Pos, b: Bar, env: Env, prevClose: real, held: int) {
    var long := !p.side.Short?;
    match t.kind
    case CloseBeyond => if t.dir.Above? then b.close > t.level else t.dir.Below? && b.close < t.level
    case PriceCross =>
      if t.dir.Up? then prevClose < t.level <= b.high else t.dir.Down? && b.low <= t.level < prevClose
    case AdversePct =>
      && p.entry > 0.0
      && if long then b.close <= p.entry - p.entry * t.pct / 100.0 else b.close >= p.entry + p.entry * t.pct / 100.0
    case AdverseAtr =>
      env.atr > 0.0 && if long then b.close <= p.entry - t.atr * env.atr else b.close >= p.entry + t.atr * env.atr
    case NoProgress =>
      var least := if t.minProfitAtr == 0.0 then env.atr / 2.0 else t.minProfitAtr * env.atr;
      && env.atr > 0.0 && held >= t.bars
      && if long then b.close < p.entry + least else b.close > p.entry - least
    case OppositeFlip => env.oppositeFlip
    case Impulse => env.impulse
    case NewsEscalation => env.newsEscalation
    case FeedStale => env.feedStaleMinutes >= t.minutes as real
    case OtherKind(_) => false
  }

  lemma AtLeast(a: real, e: real, t: real)
    requires e > 0.0
    ensures a / e >= t <==> a >= t * e
  {
    var q := a / e;
    assert q * e == a;
    assert (q - t) * e == a - t * e;
  }

  lemma Percent(a: real, e: real, t: real)
    requires e > 0.0
    ensures a / e * 100.0 >= t <==> a >= e * t / 100.0
  {
    var q := a / e;
    assert q * e == a;
    assert (q * 100.0 - t) * e == 100.0 * a - t * e;
  }

  /** How far the close lies against the position. */
  lemma AdverseIs(p: Pos, b: Bar)
    ensures Adverse(p, b) == if p.side.Short? then b.close - p.entry else p.entry - b.close
  {
  }

  lemma PercentTripped(t: Tripwire, p: Pos, b: Bar, env: Env, prevClose: real)
    requires t.kind.AdversePct?
    ensures Tripped(t, p, b, env, prevClose) <==> Condition(t, p, b, env, prevClose, p.barsHeld)
  {
    AdverseIs(p, b);
    if p.entry > 0.0 {
      Percent(Adverse(p, b), p.entry, t.pct);
    }
    hide Adverse;
  }

  lemma RangeTripped(t: Tripwire, p: Pos, b: Bar, env: Env, prevClose: real)
    requires t.kind.AdverseAtr?
    ensures Tripped(t, p, b, env, prevClose) <==> Condition(t, p, b, env, prevClose, p.barsHeld)
  {
    AdverseIs(p, b);
    if env.atr > 0.0 {
      AtLeast(Adverse(p, b), env.atr, t.atr);
    }
    hide Adverse;
  }

  lemma IdleTripped(t: Tripwire, p: Pos, b: Bar, env: Env, prevClose: real)
    requires t.kind.NoProgress?
    ensures Tripped(t, p, b, env, prevClose) <==> Condition(t, p, b, env, prevClose, p.barsHeld)
  {
    AdverseIs(p, b);
    if env.atr > 0.0 {
      AtLeast(-Adverse(p, b), env.atr, if t.minProfitAtr == 0.0 then 0.5 else t.minProfitAtr);
    }
    hide Adverse;
  }

  lemma TrippedIs(t: Tripwire, p: Pos, b: Bar, env: Env, prevClose: real)
    ensures Tripped(t, p, b, env, prevClose) <==> Condition(t, p, b, env, prevClose, p.barsHeld)
  {
    if t.kind.AdversePct? {
      hide *;
      PercentTripped(t, p, b, env, prevClose);
    } else if t.kind.AdverseAtr? {
      hide *;
      RangeTripped(t, p, b, env, prevClose);
    } else if t.kind.NoProgress? {
      hide *;
      IdleTripped(t, p, b, env, prevClose);
    } else {
      hide Adverse;
    }
  }

  /** A tripwire may fire on its bar when it never fired, or fired at least five held bars ago and is not
      a no-progress one. */
  predicate Rested(t: Tripwire, marks: map<Tripwire, int>, held: int) {
    t !in marks || (held - marks[t] >= 5 && !t.kind.NoProgress?)
  }

  lemma {:induction false} FiredIff(ts: seq<Tripwire>, p: Pos, b: Bar, env: Env, prevClose: real, t: Tripwire)
    ensures t in Fired(ts, p, b, env, prevClose) <==>
      t in ts && Tripped(t, p, b, env, prevClose) && Rested(t, p.lastFired, p.barsHeld)
    ensures t !in Fired(ts, p, b, env, prevClose) ==>
      (t in Marks(ts, p, b, env, prevClose) <==> t in p.lastFired)
      && (t in p.lastFired ==> Marks(ts, p, b, env, prevClose)[t] == p.lastFired[t])
    ensures t in Fired(ts, p, b, env, prevClose) ==>
      t in Marks(ts, p, b, env, prevClose) && Marks(ts, p, b, env, prevClose)[t] == p.barsHeld
    decreases |ts|
  {
    hide Tripped;
    if ts != [] {
      var rest, last := ts[..|ts| - 1], ts[|ts| - 1];
      FiredIff(rest, p, b, env, prevClose, t);
      FiredIff(rest, p, b, env, prevClose, last);
      assert t in ts <==> t in rest || t == last;
      assert t in Fired(ts, p, b, env, prevClose) <==>
        t in Fired(rest, p, b, env, prevClose)
        || (t == last && Fires(last, p, Marks(rest, p, b, env, prevClose), b, env, prevClose));
    }
  }

  /** A bar the position stays open on fires exactly the planned tripwires whose condition holds and
      that have rested, and marks them with the number of bars held. */
  lemma FiresIff(p: Pos, b: Bar, env: Env, t: Tripwire)
    requires StepOf(p, b, env).exit.None?
    ensures var r, prev := StepOf(p, b, env), if p.lastClose == 0.0 then p.entry else p.lastClose;
      && r.pos.barsHeld == p.barsHeld + 1
      && (t in r.fired <==>
            t in p.plan.tripwires && Condition(t, p, b, env, prev, p.barsHeld + 1)
            && Rested(t, p.lastFired, p.barsHeld + 1))
      && (t in r.fired ==> t in r.pos.lastFired && r.pos.lastFired[t] == p.barsHeld + 1)
      && (t !in r.fired ==>
            (t in r.pos.lastFired <==> t in p.lastFired)
            && (t in p.lastFired ==> r.pos.lastFired[t] == p.lastFired[t]))
  {
    hide Marks, Fired, TrailTo, EarlyExit, Condition, Tripped, Rested, Trails;
    var q, prev := Trailed(HeldBar(Normal(p), b), b, env), PrevClose(p);
    FiredIff(q.plan.tripwires, q, b, env, prev, t);
    TrippedIs(t, q, b, env, prev);
    SameCondition(t, q, p, b, env, prev, p.barsHeld + 1);
  }

  lemma SameCondition(t: Tripwire, q: Pos, p: Pos, b: Bar, env: Env, prev: real, held: int)
    requires q.side == p.side && q.entry == p.entry
    ensures Condition(t, q, b, env, prev, held) == Condition(t, p, b, env, prev, held)
  {
  }
}

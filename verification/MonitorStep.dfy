/** The deterministic core of the monitor: one completed bar in; fills, trailing, time stop, kill
    switch and fired tripwires out. A tripwire is its own cooldown key. */
module MonitorStep {
  import opened Common
  import opened Domain
  import opened Positions

  const COOLDOWN_BARS := 5

  datatype Bar = Bar(time: int, open: real, high: real, low: real, close: real)

  /** A best or last close of 0 means the entry. */
  datatype Pos = Pos(side: Side, entry: real, stop: real, target: Option<real>, plan: Plan,
                     barsHeld: int, best: real, lastClose: real, lastFired: map<Tripwire, int>)

  /** ATR and Supertrend are 0 when unknown. */
  datatype Env = Env(atr: real, supertrend: real, halted: bool, oppositeFlip: bool, impulse: bool,
                     newsEscalation: bool, feedStaleMinutes: real)

  datatype Exit = Exit(price: real, reason: ExitReason)

  datatype Result = Result(pos: Pos, exit: Option<Exit>, trailed: bool, fired: seq<Tripwire>)

  predicate BarOk(b: Bar) {
    b.low <= b.open <= b.high && b.low <= b.close <= b.high
  }

  // ----- the step as a function

  function Normal(p: Pos): Pos {
    if p.best == 0.0 then p.(best := p.entry) else p
  }

  function PrevClose(p: Pos): real {
    if p.lastClose == 0.0 then p.entry else p.lastClose
  }

  predicate IsLong(p: Pos) {
    !p.side.Short?
  }

  predicate TouchesStop(p: Pos, b: Bar) {
    if IsLong(p) then b.low <= p.stop else b.high >= p.stop
  }

  predicate TouchesTarget(p: Pos, b: Bar) {
    p.target.Some? && if IsLong(p) then b.high >= p.target.value else b.low <= p.target.value
  }

  predicate Invalidates(p: Pos, b: Bar) {
    p.plan.invalidation.Some?
    && if IsLong(p) then b.close < p.plan.invalidation.value else b.close > p.plan.invalidation.value
  }

  /** How the bar ends the position before it counts as held. */
  function EarlyExit(p: Pos, b: Bar, env: Env): Option<Exit> {
    if TouchesStop(p, b) then
      Some(Exit(if IsLong(p) then MinR(p.stop, b.open) else MaxR(p.stop, b.open), StopHit))
    else if TouchesTarget(p, b) then Some(Exit(p.target.value, TargetHit))
    else if env.halted then Some(Exit(b.close, KillSwitch))
    else if Invalidates(p, b) then Some(Exit(b.close, Invalidated))
    else None
  }

  function HeldBar(p: Pos, b: Bar): Pos {
    var better := if IsLong(p) then b.close > p.best else b.close < p.best;
    p.(barsHeld := p.barsHeld + 1, best := if better then b.close else p.best)
  }

  predicate TimesOut(p: Pos) {
    p.plan.maxBars > 0 && p.barsHeld >= p.plan.maxBars
  }

  function TrailTo(p: Pos, env: Env): real {
    if p.plan.trail.None? then 0.0
    else if p.plan.trail.value.kind.AtrTrail? && env.atr > 0.0 then
      p.best - Sign(p.side) * p.plan.trail.value.mult * env.atr
    else if p.plan.trail.value.kind.SupertrendTrail? && env.supertrend > 0.0 then env.supertrend
    else 0.0
  }

  predicate Trails(p: Pos, b: Bar, cand: real) {
    cand > 0.0
    && if IsLong(p) then p.stop < cand < b.close else b.close < cand < p.stop
  }

  function Trailed(p: Pos, b: Bar, env: Env): Pos {
    if Trails(p, b, TrailTo(p, env)) then p.(stop := TrailTo(p, env)) else p
  }

  /** Positive when the close is against the position. */
  function Adverse(p: Pos, b: Bar): real {
    -Sign(p.side) * (b.close - p.entry)
  }

  predicate Tripped(t: Tripwire, p: Pos, b: Bar, env: Env, prevClose: real) {
    match t.kind
    case CloseBeyond => (t.dir.Above? && b.close > t.level) || (t.dir.Below? && b.close < t.level)
    case PriceCross =>
      || (t.dir.Up? && prevClose < t.level && b.high >= t.level)
      || (t.dir.Down? && prevClose > t.level && b.low <= t.level)
    case AdversePct => p.entry > 0.0 && Adverse(p, b) / p.entry * 100.0 >= t.pct
    case AdverseAtr => env.atr > 0.0 && Adverse(p, b) / env.atr >= t.atr
    case NoProgress =>
      env.atr > 0.0 && p.barsHeld >= t.bars
      && -Adverse(p, b) / env.atr < (if t.minProfitAtr == 0.0 then 0.5 else t.minProfitAtr)
    case OppositeFlip => env.oppositeFlip
    case Impulse => env.impulse
    case NewsEscalation => env.newsEscalation
    case FeedStale => env.feedStaleMinutes >= t.minutes as real
    case OtherKind(_) => false
  }

  predicate Cooling(fired: map<Tripwire, int>, t: Tripwire, held: int) {
    t in fired && (t.kind.NoProgress? || held - fired[t] < COOLDOWN_BARS)
  }

  /** Whether tripwire t wakes the agent now, given the marks so far. */
  predicate Fires(t: Tripwire, p: Pos, marks: map<Tripwire, int>, b: Bar, env: Env, prevClose: real) {
    Tripped(t, p, b, env, prevClose) && !Cooling(marks, t, p.barsHeld)
  }

  /** The cooldown marks after these tripwires, taken in order. */
  function Marks(ts: seq<Tripwire>, p: Pos, b: Bar, env: Env, prevClose: real): map<Tripwire, int> {
    if ts == [] then p.lastFired
    else
      var t, before := ts[|ts| - 1], Marks(ts[..|ts| - 1], p, b, env, prevClose);
      if Fires(t, p, before, b, env, prevClose) then before[t := p.barsHeld] else before
  }

  function Fired(ts: seq<Tripwire>, p: Pos, b: Bar, env: Env, prevClose: real): seq<Tripwire> {
    if ts == [] then []
    else
      var rest := ts[..|ts| - 1];
      var t := ts[|ts| - 1];
      Fired(rest, p, b, env, prevClose)
      + if Fires(t, p, Marks(rest, p, b, env, prevClose), b, env, prevClose) then [t] else []
  }

  function StepOf(start: Pos, b: Bar, env: Env): Result {
    var p := Normal(start);
    var early := EarlyExit(p, b, env);
    if early.Some? then Result(p.(lastClose := b.close), early, false, [])
    else
      var held := HeldBar(p, b);
      if TimesOut(held) then Result(held.(lastClose := b.close), Some(Exit(b.close, TimeStop)), false, [])
      else
        var q := Trailed(held, b, env);
        var ts, prev := q.plan.tripwires, PrevClose(start);
        Result(q.(lastClose := b.close, lastFired := Marks(ts, q, b, env, prev)), None,
               Trails(held, b, TrailTo(held, env)), Fired(ts, q, b, env, prev))
  }

  // ----- the step as it runs

  /** Applies one completed bar: fills, kill switch, invalidation, time stop, trailing, tripwires. */
  method Step(start: Pos, b: Bar, env: Env) returns (res: Result)
    ensures res == StepOf(start, b, env)
  {
    var p := start;
    if p.best == 0.0 {
      p := p.(best := p.entry);
    }
    var prevClose := p.lastClose;
    if prevClose == 0.0 {
      prevClose := p.entry;
    }
    var long := !p.side.Short?;
    var done := Result(p.(lastClose := b.close), None, false, []);
    if long && b.low <= p.stop {
      return done.(exit := Some(Exit(MinR(p.stop, b.open), StopHit)));
    }
    if !long && b.high >= p.stop {
      return done.(exit := Some(Exit(MaxR(p.stop, b.open), StopHit)));
    }
    if p.target.Some? && ((long && b.high >= p.target.value) || (!long && b.low <= p.target.value)) {
      return done.(exit := Some(Exit(p.target.value, TargetHit)));
    }
    if env.halted {
      return done.(exit := Some(Exit(b.close, KillSwitch)));
    }
    if p.plan.invalidation.Some? {
      var inv := p.plan.invalidation.value;
      if (long && b.close < inv) || (!long && b.close > inv) {
        return done.(exit := Some(Exit(b.close, Invalidated)));
      }
    }
    p := p.(barsHeld := p.barsHeld + 1);
    if (long && b.close > p.best) || (!long && b.close < p.best) {
      p := p.(best := b.close);
    }
    assert p == HeldBar(Normal(start), b);
    res := HeldPart(p, b, env, prevClose);
  }

  /** The rest of the step for a bar that is held. */
  method HeldPart(held: Pos, b: Bar, env: Env, prevClose: real) returns (res: Result)
    ensures TimesOut(held) ==> res == Result(held.(lastClose := b.close), Some(Exit(b.close, TimeStop)), false, [])
    ensures !TimesOut(held) ==>
      var q := Trailed(held, b, env);
      res == Result(q.(lastClose := b.close, lastFired := Marks(q.plan.tripwires, q, b, env, prevClose)), None,
                    Trails(held, b, TrailTo(held, env)), Fired(q.plan.tripwires, q, b, env, prevClose))
  {
    hide Tripped, Cooling;
    var p := held;
    if p.plan.maxBars > 0 && p.barsHeld >= p.plan.maxBars {
      return Result(p.(lastClose := b.close), Some(Exit(b.close, TimeStop)), false, []);
    }
    var long, trailed := !p.side.Short?, false;
    var cand := TrailTo(p, env);
    if cand > 0.0 && ((long && cand > p.stop && cand < b.close) || (!long && cand < p.stop && cand > b.close)) {
      p := p.(stop := cand);
      trailed := true;
    }
    var q, ts := p, p.plan.tripwires;
    var marks, fired := p.lastFired, [];
    for k := 0 to |ts|
      invariant marks == Marks(ts[..k], q, b, env, prevClose)
      invariant fired == Fired(ts[..k], q, b, env, prevClose)
    {
      assert ts[..k + 1][..k] == ts[..k];
      var t := ts[k];
      if Tripped(t, q, b, env, prevClose) && !Cooling(marks, t, q.barsHeld) {
        marks := marks[t := q.barsHeld];
        fired := fired + [t];
      }
    }
    assert ts[..|ts|] == ts;
    res := Result(q.(lastClose := b.close, lastFired := marks), None, trailed, fired);
  }

  // ----- one bar

  /** The stop only moves toward price, and stays a price. */
  lemma StopOnlyTightens(p: Pos, b: Bar, env: Env)
    requires !p.side.OtherSide?
    ensures Closer(p.side, StepOf(p, b, env).pos.stop, p.stop)
    ensures p.stop > 0.0 ==> StepOf(p, b, env).pos.stop > 0.0
    ensures !StepOf(p, b, env).trailed ==> StepOf(p, b, env).pos.stop == p.stop
  {
    hide Marks, Fired, TrailTo;
  }

  /** A bar never fills against information the position did not have when it opened: the exit is
      the same without a trail, an ATR, a Supertrend line or any cooldown mark. */
  lemma ExitIgnoresTrail(p: Pos, b: Bar, env: Env, marks: map<Tripwire, int>)
    ensures StepOf(p, b, env).exit ==
      StepOf(p.(plan := p.plan.(trail := None, tripwires := []), lastFired := marks), b,
             env.(atr := 0.0, supertrend := 0.0, oppositeFlip := false, impulse := false)).exit
  {
    hide Marks, Fired, TrailTo;
  }

  /** An open position with a time stop has been held for fewer bars than it allows. */
  lemma HeldBelowTimeStop(p: Pos, b: Bar, env: Env)
    requires p.plan.maxBars > 0 && StepOf(p, b, env).exit.None?
    ensures StepOf(p, b, env).pos.barsHeld == p.barsHeld + 1 < p.plan.maxBars
  {
    hide Marks, Fired, TrailTo, EarlyExit;
  }

  /** The bar opens on the right side of the stop in force. */
  predicate OpensInside(p: Pos, b: Bar) {
    if p.side.Short? then b.open <= p.stop else b.open >= p.stop
  }

  /** Every exit of the monitor is no worse than the initial stop, unless the bar opens beyond the stop in force. */
  lemma ExitNoWorse(p: Pos, b: Bar, env: Env, notional: real, initialStop: real)
    requires EntryOk(p.side, notional, p.entry, initialStop, p.target)
    requires Closer(p.side, p.stop, initialStop)
    requires BarOk(b) && OpensInside(p, b) && StepOf(p, b, env).exit.Some?
    ensures Closer(p.side, StepOf(p, b, env).exit.value.price, initialStop)
    ensures PnL(p.side, notional, p.entry, StepOf(p, b, env).exit.value.price)
         >= PnL(p.side, notional, p.entry, initialStop)
  {
    ExitBeyondStop(p, b, env);
    PnLMonotone(p.side, notional, p.entry, initialStop, StepOf(p, b, env).exit.value.price);
  }

  predicate Ends(p: Pos, b: Bar, env: Env, reason: ExitReason) {
    StepOf(p, b, env).exit.Some? && StepOf(p, b, env).exit.value.reason == reason
  }

  /** The order of the rules, pessimistic first: a bar that touches stop and target is a stop, at the
      open if it gapped through; the kill switch beats invalidation; the time stop comes last. */
  lemma ReasonIff(p: Pos, b: Bar, env: Env)
    ensures Ends(p, b, env, StopHit) <==> TouchesStop(p, b)
    ensures Ends(p, b, env, TargetHit) <==> !TouchesStop(p, b) && TouchesTarget(p, b)
    ensures Ends(p, b, env, KillSwitch) <==> !TouchesStop(p, b) && !TouchesTarget(p, b) && env.halted
    ensures Ends(p, b, env, Invalidated) <==>
      !TouchesStop(p, b) && !TouchesTarget(p, b) && !env.halted && Invalidates(p, b)
    ensures Ends(p, b, env, TimeStop) <==>
      && !TouchesStop(p, b) && !TouchesTarget(p, b) && !env.halted && !Invalidates(p, b)
      && p.plan.maxBars > 0 && p.barsHeld + 1 >= p.plan.maxBars
    ensures TouchesStop(p, b) ==> StepOf(p, b, env).exit.value.price == if OpensInside(p, b) then p.stop else b.open
  {
    hide Marks, Fired, TrailTo;
  }

  /** A stop fills exactly at the stop, a target at the target, and everything else at a close beyond the stop. */
  lemma ExitBeyondStop(p: Pos, b: Bar, env: Env)
    requires !p.side.OtherSide? && BarOk(b) && OpensInside(p, b) && StepOf(p, b, env).exit.Some?
    ensures var e := StepOf(p, b, env).exit.value;
      && (e.reason.StopHit? ==> e.price == p.stop)
      && (e.reason.TargetHit? ==> Some(e.price) == p.target)
      && (!e.reason.TargetHit? ==> Closer(p.side, e.price, p.stop))
      && !e.reason.AgentClose?
  {
    hide Marks, Fired, TrailTo;
  }

  // ----- many bars

  datatype Tick = Tick(bar: Bar, env: Env)

  /** Folds the step over bars until the position ends. */
  function Fold(p: Pos, ticks: seq<Tick>): Result
    decreases |ticks|
  {
    if ticks == [] then Result(p, None, false, [])
    else
      var r := StepOf(p, ticks[0].bar, ticks[0].env);
      if r.exit.Some? || |ticks| == 1 then r else Fold(r.pos, ticks[1..])
  }

  /** However the bars fall, a position still open has been held for every bar, and for fewer than its
      time stop allows. */
  lemma {:induction false} OpenMeansBelowTimeStop(p: Pos, ticks: seq<Tick>)
    requires p.plan.maxBars > 0 && p.barsHeld < p.plan.maxBars
    requires Fold(p, ticks).exit.None?
    ensures Fold(p, ticks).pos.barsHeld == p.barsHeld + |ticks| < p.plan.maxBars
    decreases |ticks|
  {
    if ticks != [] {
      HeldBelowTimeStop(p, ticks[0].bar, ticks[0].env);
      PlanKept(p, ticks[0].bar, ticks[0].env);
      hide StepOf;
      if |ticks| > 1 {
        OpenMeansBelowTimeStop(StepOf(p, ticks[0].bar, ticks[0].env).pos, ticks[1..]);
      }
    }
  }

  /** A step never changes the trade or its plan. */
  lemma PlanKept(p: Pos, b: Bar, env: Env)
    ensures var q := StepOf(p, b, env).pos;
      q.side == p.side && q.entry == p.entry && q.target == p.target && q.plan == p.plan
  {
    hide Marks, Fired, TrailTo, EarlyExit;
  }

  datatype Firing = Firing(tripwire: Tripwire, held: int)

  /** Every firing along the bars, with the held count at which it fired. */
  function Firings(p: Pos, ticks: seq<Tick>): seq<Firing>
    decreases |ticks|
  {
    if ticks == [] then []
    else
      var r := StepOf(p, ticks[0].bar, ticks[0].env);
      At(r.fired, r.pos.barsHeld) + (if r.exit.Some? then [] else Firings(r.pos, ticks[1..]))
  }

  function At(ts: seq<Tripwire>, held: int): seq<Firing> {
    seq(|ts|, i requires 0 <= i < |ts| => Firing(ts[i], held))
  }

  /** What one bar fires: each tripwire at most once, only past its cooldown, and each leaves its mark. */
  ghost predicate FiredOk(fs: seq<Tripwire>, earlier: map<Tripwire, int>, marks: map<Tripwire, int>, held: int) {
    && (forall i, j :: 0 <= i < j < |fs| ==> fs[i] != fs[j])
    && (forall i :: 0 <= i < |fs| ==> !Cooling(earlier, fs[i], held))
    && (forall i :: 0 <= i < |fs| ==> fs[i] in marks && marks[fs[i]] == held)
    && (forall t :: t !in fs ==> (t in marks <==> t in earlier))
    && (forall t :: t !in fs && t in earlier ==> marks[t] == earlier[t])
  }

  lemma FiredMore(fs: seq<Tripwire>, earlier: map<Tripwire, int>, marks: map<Tripwire, int>, held: int, t: Tripwire)
    requires FiredOk(fs, earlier, marks, held) && !Cooling(marks, t, held)
    ensures FiredOk(fs + [t], earlier, marks[t := held], held)
  {
    var more := fs + [t];
    assert forall u :: u in more <==> u in fs || u == t;
  }

  lemma {:induction false} BarFires(ts: seq<Tripwire>, p: Pos, b: Bar, env: Env, prevClose: real)
    ensures FiredOk(Fired(ts, p, b, env, prevClose), p.lastFired, Marks(ts, p, b, env, prevClose), p.barsHeld)
  {
    hide Tripped, Cooling, FiredOk;
    if ts == [] {
      NoneFired(p.lastFired, p.barsHeld);
    } else {
      var rest := ts[..|ts| - 1];
      BarFires(rest, p, b, env, prevClose);
      if Fires(ts[|ts| - 1], p, Marks(rest, p, b, env, prevClose), b, env, prevClose) {
        FiredMore(Fired(rest, p, b, env, prevClose), p.lastFired, Marks(rest, p, b, env, prevClose), p.barsHeld,
                  ts[|ts| - 1]);
      } else {
        assert Fired(ts, p, b, env, prevClose) == Fired(rest, p, b, env, prevClose);
      }
    }
  }

  lemma NoneFired(marks: map<Tripwire, int>, held: int)
    ensures FiredOk([], marks, marks, held)
  {
  }

  lemma StepFires(p: Pos, b: Bar, env: Env)
    ensures var r := StepOf(p, b, env);
      && (r.exit.Some? ==> r.fired == [])
      && (r.exit.None? ==>
            r.pos.barsHeld == p.barsHeld + 1 && FiredOk(r.fired, p.lastFired, r.pos.lastFired, r.pos.barsHeld))
  {
    hide Marks, Fired, TrailTo, EarlyExit, FiredOk;
    var held := HeldBar(Normal(p), b);
    var q := Trailed(held, b, env);
    BarFires(q.plan.tripwires, q, b, env, PrevClose(p));
  }

  /** A firing respects the marks it started from. */
  ghost predicate Spaced(f: Firing, marks: map<Tripwire, int>, held: int) {
    && f.held > held
    && (f.tripwire in marks ==> !f.tripwire.kind.NoProgress? && f.held - marks[f.tripwire] >= COOLDOWN_BARS)
  }

  /** Over any bars, successive firings of one tripwire lie at least five held bars apart, and a
      no-progress tripwire fires at most once. */
  lemma {:induction false} CooldownHolds(p: Pos, ticks: seq<Tick>)
    ensures forall i, j ::
      0 <= i < j < |Firings(p, ticks)| && Firings(p, ticks)[i].tripwire == Firings(p, ticks)[j].tripwire ==>
      && Firings(p, ticks)[j].held - Firings(p, ticks)[i].held >= COOLDOWN_BARS
      && !Firings(p, ticks)[i].tripwire.kind.NoProgress?
    ensures forall i :: 0 <= i < |Firings(p, ticks)| ==> Spaced(Firings(p, ticks)[i], p.lastFired, p.barsHeld)
    decreases |ticks|
  {
    if ticks != [] {
      var r := StepOf(p, ticks[0].bar, ticks[0].env);
      StepFires(p, ticks[0].bar, ticks[0].env);
      hide StepOf;
      if r.exit.None? {
        CooldownHolds(r.pos, ticks[1..]);
        SpacedJoin(p.lastFired, p.barsHeld, r.fired, r.pos.lastFired, r.pos.barsHeld, Firings(r.pos, ticks[1..]));
        assert Firings(p, ticks) == At(r.fired, r.pos.barsHeld) + Firings(r.pos, ticks[1..]);
      }
    }
  }

  ghost predicate Apart(fs: seq<Firing>) {
    forall i, j :: 0 <= i < j < |fs| && fs[i].tripwire == fs[j].tripwire ==>
      fs[j].held - fs[i].held >= COOLDOWN_BARS && !fs[i].tripwire.kind.NoProgress?
  }

  ghost predicate AllSpaced(fs: seq<Firing>, marks: map<Tripwire, int>, held: int) {
    forall i :: 0 <= i < |fs| ==> Spaced(fs[i], marks, held)
  }

  lemma SpacedJoin(earlier: map<Tripwire, int>, was: int, fs: seq<Tripwire>, marks: map<Tripwire, int>, held: int,
                   later: seq<Firing>)
    requires held == was + 1 && FiredOk(fs, earlier, marks, held)
    requires Apart(later) && AllSpaced(later, marks, held)
    ensures Apart(At(fs, held) + later) && AllSpaced(At(fs, held) + later, earlier, was)
  {
    var all := At(fs, held) + later;
    forall i, j | 0 <= i < j < |all| && all[i].tripwire == all[j].tripwire
      ensures all[j].held - all[i].held >= COOLDOWN_BARS && !all[i].tripwire.kind.NoProgress?
    {
      if i < |fs| <= j {
        assert Spaced(later[j - |fs|], marks, held);
      } else if i >= |fs| {
        assert all[i] == later[i - |fs|] && all[j] == later[j - |fs|];
      }
    }
    forall i | 0 <= i < |all| ensures Spaced(all[i], earlier, was) {
      if i < |fs| {
        assert !Cooling(earlier, fs[i], held);
      } else {
        assert Spaced(later[i - |fs|], marks, held);
        if later[i - |fs|].tripwire in fs {
          assert marks[later[i - |fs|].tripwire] == held;
          var k :| 0 <= k < |fs| && fs[k] == later[i - |fs|].tripwire;
          assert !Cooling(earlier, fs[k], held);
        }
      }
    }
  }
}

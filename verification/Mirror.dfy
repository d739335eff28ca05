/** Longs and shorts are treated alike: reflecting every price at a level M turns the step of a
    position into the reflected step of its mirror image. */
module Mirror {
  import opened Common
  import opened Domain
  import opened Positions
  import opened MonitorStep

  // ----- reflection at m

  function Flip(m: real, x: real): real {
    m - x
  }

  /** A price of 0 means unknown, and stays unknown. */
  function FlipKnown(m: real, x: real): real {
    if x == 0.0 then 0.0 else m - x
  }

  function FlipOption(m: real, x: Option<real>): Option<real> {
    if x.Some? then Some(m - x.value) else None
  }

  function FlipSide(s: Side): Side {
    match s
    case Long => Short
    case Short => Long
    case OtherSide(_) => s
  }

  function FlipDir(d: TripDir): TripDir {
    match d
    case Above => Below
    case Below => Above
    case Up => Down
    case Down => Up
    case OtherDir(_) => d
  }

  function FlipTrip(m: real, t: Tripwire): Tripwire {
    t.(level := m - t.level, dir := FlipDir(t.dir))
  }

  function FlipTrips(m: real, ts: seq<Tripwire>): seq<Tripwire> {
    seq(|ts|, i requires 0 <= i < |ts| => FlipTrip(m, ts[i]))
  }

  function FlipMarks(m: real, marks: map<Tripwire, int>): map<Tripwire, int> {
    map t | t in (set k | k in marks :: FlipTrip(m, k)) :: marks[FlipTrip(m, t)]
  }

  function FlipPlan(m: real, p: Plan): Plan {
    p.(invalidation := FlipOption(m, p.invalidation), tripwires := FlipTrips(m, p.tripwires))
  }

  function FlipPos(m: real, p: Pos): Pos {
    Pos(FlipSide(p.side), Flip(m, p.entry), Flip(m, p.stop), FlipOption(m, p.target), FlipPlan(m, p.plan),
        p.barsHeld, FlipKnown(m, p.best), FlipKnown(m, p.lastClose), FlipMarks(m, p.lastFired))
  }

  function FlipBar(m: real, b: Bar): Bar {
    Bar(b.time, m - b.open, m - b.low, m - b.high, m - b.close)
  }

  function FlipEnv(m: real, e: Env): Env {
    e.(supertrend := FlipKnown(m, e.supertrend))
  }

  function FlipExit(m: real, e: Option<Exit>): Option<Exit> {
    if e.Some? then Some(Exit(m - e.value.price, e.value.reason)) else None
  }

  function FlipResult(m: real, r: Result): Result {
    Result(FlipPos(m, r.pos), FlipExit(m, r.exit), r.trailed, FlipTrips(m, r.fired))
  }

  // ----- the prices that may be reflected

  predicate Inside(m: real, x: real) {
    0.0 < x < m
  }

  predicate Reflectable(m: real, p: Pos, b: Bar, env: Env) {
    && !p.side.OtherSide?
    && Inside(m, p.entry) && Inside(m, p.stop)
    && (p.best == 0.0 || Inside(m, p.best)) && (p.lastClose == 0.0 || Inside(m, p.lastClose))
    && Inside(m, b.open) && Inside(m, b.high) && Inside(m, b.low) && Inside(m, b.close)
    && (env.supertrend == 0.0 || Inside(m, env.supertrend))
    && (forall t <- p.plan.tripwires :: !t.kind.AdversePct?)
  }

  // ----- marks

  lemma FlipTripTwice(m: real, t: Tripwire)
    ensures FlipTrip(m, FlipTrip(m, t)) == t
  {
  }

  lemma FlipMarksAt(m: real, marks: map<Tripwire, int>, t: Tripwire)
    ensures FlipTrip(m, t) in FlipMarks(m, marks) <==> t in marks
    ensures t in marks ==> FlipMarks(m, marks)[FlipTrip(m, t)] == marks[t]
  {
    FlipTripTwice(m, t);
    if FlipTrip(m, t) in FlipMarks(m, marks) {
      var k :| k in marks && FlipTrip(m, k) == FlipTrip(m, t);
      FlipTripTwice(m, k);
    }
  }

  lemma FlipMarksSet(m: real, marks: map<Tripwire, int>, t: Tripwire, held: int)
    ensures FlipMarks(m, marks[t := held]) == FlipMarks(m, marks)[FlipTrip(m, t) := held]
  {
    var a, b := FlipMarks(m, marks[t := held]), FlipMarks(m, marks)[FlipTrip(m, t) := held];
    forall u ensures (u in a <==> u in b) && (u in a ==> a[u] == b[u]) {
      FlipTripTwice(m, u);
      FlipTripTwice(m, t);
      FlipMarksAt(m, marks, FlipTrip(m, u));
      FlipMarksAt(m, marks[t := held], FlipTrip(m, u));
    }
  }

  // ----- parts of the step

  lemma NormalFlips(m: real, p: Pos)
    requires Inside(m, p.entry) && (p.best == 0.0 || Inside(m, p.best))
    ensures Normal(FlipPos(m, p)) == FlipPos(m, Normal(p))
    ensures p.lastClose == 0.0 || Inside(m, p.lastClose) ==> PrevClose(FlipPos(m, p)) == Flip(m, PrevClose(p))
  {
    hide FlipMarks, FlipTrips;
  }

  lemma EarlyExitFlips(m: real, p: Pos, b: Bar, env: Env)
    requires !p.side.OtherSide?
    ensures EarlyExit(FlipPos(m, p), FlipBar(m, b), FlipEnv(m, env)) == FlipExit(m, EarlyExit(p, b, env))
  {
    hide FlipMarks, FlipTrips, FlipKnown;
  }

  lemma HoldFlips(m: real, p: Pos, b: Bar)
    requires !p.side.OtherSide? && Inside(m, p.best) && Inside(m, b.close)
    ensures HeldBar(FlipPos(m, p), FlipBar(m, b)) == FlipPos(m, HeldBar(p, b))
    ensures Inside(m, HeldBar(p, b).best)
  {
    hide FlipMarks, FlipTrips;
  }

  lemma TrailFlips(m: real, p: Pos, b: Bar, env: Env)
    requires !p.side.OtherSide? && Inside(m, p.stop) && Inside(m, p.best) && Inside(m, b.close)
    requires env.supertrend == 0.0 || Inside(m, env.supertrend)
    ensures var q, c, e := FlipPos(m, p), FlipBar(m, b), FlipEnv(m, env);
      && (Trails(q, c, TrailTo(q, e)) <==> Trails(p, b, TrailTo(p, env)))
      && (Trails(p, b, TrailTo(p, env)) ==> TrailTo(q, e) == Flip(m, TrailTo(p, env)))
      && (Trails(p, b, TrailTo(p, env)) ==> Inside(m, TrailTo(p, env)))
  {
    hide FlipMarks, FlipTrips;
    if p.plan.trail.Some? {
      var d := p.plan.trail.value.mult * env.atr;
      assert Sign(p.side) * p.plan.trail.value.mult * env.atr == (if p.side.Short? then -d else d);
      assert Sign(FlipSide(p.side)) * p.plan.trail.value.mult * env.atr == (if p.side.Short? then d else -d);
    }
  }

  lemma TrailedFlips(m: real, p: Pos, b: Bar, env: Env)
    requires !p.side.OtherSide? && Inside(m, p.stop) && Inside(m, p.best) && Inside(m, b.close)
    requires env.supertrend == 0.0 || Inside(m, env.supertrend)
    ensures Trailed(FlipPos(m, p), FlipBar(m, b), FlipEnv(m, env)) == FlipPos(m, Trailed(p, b, env))
  {
    TrailFlips(m, p, b, env);
    hide FlipMarks, FlipTrips, TrailTo, Trails;
  }

  lemma AdverseFlips(m: real, p: Pos, b: Bar)
    requires !p.side.OtherSide?
    ensures Adverse(FlipPos(m, p), FlipBar(m, b)) == Adverse(p, b)
  {
    hide FlipMarks, FlipTrips;
  }

  lemma TrippedFlips(m: real, t: Tripwire, p: Pos, b: Bar, env: Env, prevClose: real)
    requires !p.side.OtherSide? && !t.kind.AdversePct?
    ensures Tripped(FlipTrip(m, t), FlipPos(m, p), FlipBar(m, b), FlipEnv(m, env), Flip(m, prevClose))
        <==> Tripped(t, p, b, env, prevClose)
  {
    AdverseFlips(m, p, b);
    hide FlipMarks, FlipTrips, Adverse;
  }

  lemma FiresFlips(m: real, t: Tripwire, p: Pos, marks: map<Tripwire, int>, b: Bar, env: Env, prevClose: real)
    requires !p.side.OtherSide? && !t.kind.AdversePct?
    ensures Fires(FlipTrip(m, t), FlipPos(m, p), FlipMarks(m, marks), FlipBar(m, b), FlipEnv(m, env),
                  Flip(m, prevClose))
        <==> Fires(t, p, marks, b, env, prevClose)
  {
    TrippedFlips(m, t, p, b, env, prevClose);
    FlipMarksAt(m, marks, t);
    hide FlipMarks, FlipTrips, Tripped;
  }

  lemma {:induction false} FiringFlips(m: real, ts: seq<Tripwire>, p: Pos, b: Bar, env: Env, prevClose: real)
    requires !p.side.OtherSide? && forall t <- ts :: !t.kind.AdversePct?
    ensures var q, c, e, pc := FlipPos(m, p), FlipBar(m, b), FlipEnv(m, env), Flip(m, prevClose);
      && Marks(FlipTrips(m, ts), q, c, e, pc) == FlipMarks(m, Marks(ts, p, b, env, prevClose))
      && Fired(FlipTrips(m, ts), q, c, e, pc) == FlipTrips(m, Fired(ts, p, b, env, prevClose))
    decreases |ts|
  {
    hide FlipMarks, Fires, FlipBar, FlipEnv, Flip, FlipTrip;
    if ts != [] {
      var rest, t := ts[..|ts| - 1], ts[|ts| - 1];
      FiringFlips(m, rest, p, b, env, prevClose);
      assert FlipTrips(m, ts)[..|ts| - 1] == FlipTrips(m, rest);
      var before := Marks(rest, p, b, env, prevClose);
      FiresFlips(m, t, p, before, b, env, prevClose);
      FlipMarksSet(m, before, t, p.barsHeld);
      assert FlipTrips(m, Fired(rest, p, b, env, prevClose) + [t])
          == FlipTrips(m, Fired(rest, p, b, env, prevClose)) + [FlipTrip(m, t)];
    }
  }

  /** The whole step: same exit reason, reflected exit price and stop, and the mirror images of the same tripwires. */
  lemma MirrorStep(m: real, p: Pos, b: Bar, env: Env)
    requires Reflectable(m, p, b, env)
    ensures StepOf(FlipPos(m, p), FlipBar(m, b), FlipEnv(m, env)) == FlipResult(m, StepOf(p, b, env))
  {
    NormalFlips(m, p);
    var n := Normal(p);
    EarlyExitFlips(m, n, b, env);
    if EarlyExit(n, b, env).Some? {
      EarlyResult(m, n, b, env);
    } else {
      HoldFlips(m, n, b);
      HeldResult(m, p, b, env);
    }
  }

  lemma EarlyResult(m: real, n: Pos, b: Bar, env: Env)
    requires Inside(m, b.close)
    ensures FlipResult(m, Result(n.(lastClose := b.close), EarlyExit(n, b, env), false, []))
         == Result(FlipPos(m, n).(lastClose := FlipBar(m, b).close), FlipExit(m, EarlyExit(n, b, env)), false, [])
  {
    hide FlipMarks, EarlyExit;
  }

  lemma UpdateFlips(m: real, q: Pos, close: real, marks: map<Tripwire, int>)
    requires Inside(m, close)
    ensures FlipPos(m, q.(lastClose := close)) == FlipPos(m, q).(lastClose := m - close)
    ensures FlipPos(m, q.(lastClose := close, lastFired := marks))
         == FlipPos(m, q).(lastClose := m - close, lastFired := FlipMarks(m, marks))
  {
    hide FlipMarks, FlipTrips;
  }

  /** The part of a step after the bar counts as held. */
  function AfterHold(held: Pos, b: Bar, env: Env, prevClose: real): Result {
    if TimesOut(held) then Result(held.(lastClose := b.close), Some(Exit(b.close, TimeStop)), false, [])
    else
      var q := Trailed(held, b, env);
      Result(q.(lastClose := b.close, lastFired := Marks(q.plan.tripwires, q, b, env, prevClose)), None,
             Trails(held, b, TrailTo(held, env)), Fired(q.plan.tripwires, q, b, env, prevClose))
  }

  lemma TimesOutFlips(m: real, held: Pos, b: Bar)
    requires Inside(m, b.close)
    ensures TimesOut(FlipPos(m, held)) <==> TimesOut(held)
    ensures FlipPos(m, held.(lastClose := b.close)) == FlipPos(m, held).(lastClose := FlipBar(m, b).close)
  {
    UpdateFlips(m, held, b.close, map[]);
    hide FlipMarks, FlipTrips;
  }

  lemma TrailedInside(m: real, held: Pos, b: Bar, env: Env)
    requires !held.side.OtherSide?
    ensures var q := Trailed(held, b, env); q.side == held.side && q.plan == held.plan
    ensures FlipPos(m, Trailed(held, b, env)).plan.tripwires == FlipTrips(m, held.plan.tripwires)
  {
    hide FlipMarks, TrailTo, Trails;
  }

  lemma AfterHoldFlips(m: real, held: Pos, b: Bar, env: Env, prevClose: real)
    requires !held.side.OtherSide? && Inside(m, held.stop) && Inside(m, held.best) && Inside(m, b.close)
    requires env.supertrend == 0.0 || Inside(m, env.supertrend)
    requires forall t <- held.plan.tripwires :: !t.kind.AdversePct?
    ensures AfterHold(FlipPos(m, held), FlipBar(m, b), FlipEnv(m, env), Flip(m, prevClose))
         == FlipResult(m, AfterHold(held, b, env, prevClose))
  {
    TrailFlips(m, held, b, env);
    TrailedFlips(m, held, b, env);
    TimesOutFlips(m, held, b);
    TrailedInside(m, held, b, env);
    var q := Trailed(held, b, env);
    FiringFlips(m, q.plan.tripwires, q, b, env, prevClose);
    UpdateFlips(m, q, b.close, Marks(q.plan.tripwires, q, b, env, prevClose));
    hide Marks, Fired, TrailTo, Trails, FlipMarks, FlipEnv, FlipPos, Trailed, TimesOut, Flip;
  }

  lemma HeldResult(m: real, p: Pos, b: Bar, env: Env)
    requires Reflectable(m, p, b, env) && EarlyExit(Normal(p), b, env).None?
    requires Normal(FlipPos(m, p)) == FlipPos(m, Normal(p))
    requires EarlyExit(FlipPos(m, Normal(p)), FlipBar(m, b), FlipEnv(m, env)).None?
    requires HeldBar(FlipPos(m, Normal(p)), FlipBar(m, b)) == FlipPos(m, HeldBar(Normal(p), b))
    ensures StepOf(FlipPos(m, p), FlipBar(m, b), FlipEnv(m, env)) == FlipResult(m, StepOf(p, b, env))
  {
    NormalFlips(m, p);
    HoldFlips(m, Normal(p), b);
    AfterHoldFlips(m, HeldBar(Normal(p), b), b, env, PrevClose(p));
    StepHeld(p, b, env);
    StepHeld(FlipPos(m, p), FlipBar(m, b), FlipEnv(m, env));
    hide AfterHold, EarlyExit, FlipPos, FlipBar, FlipEnv, HeldBar, FlipResult, StepOf;
  }

  lemma StepHeld(p: Pos, b: Bar, env: Env)
    ensures EarlyExit(Normal(p), b, env).None? ==>
      StepOf(p, b, env) == AfterHold(HeldBar(Normal(p), b), b, env, PrevClose(p))
  {
    hide Marks, Fired, TrailTo, Trails, EarlyExit;
  }
}

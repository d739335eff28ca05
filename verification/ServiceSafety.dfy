/** What the catch-up loop keeps while other actors change the same row between its store calls. */
module ServiceSafety {
  import opened Common
  import opened Domain
  import opened Positions
  import opened MonitorStep
  import opened Service

  /** Only the monitor saves bars and fills exits; a woken agent may close the trade as its own,
      tighten to a positive price, rewire, and count. */
  predicate OtherOp(op: RowOp) {
    !op.Save? && (op.CloseAt? ==> op.reason.AgentClose?) && (op.Tighten? ==> op.newStop > 0.0)
  }

  predicate OtherOps(ops: seq<RowOp>) {
    forall i :: 0 <= i < |ops| ==> OtherOp(ops[i])
  }

  predicate Fair(x: Others) {
    OtherOps(x.before) && OtherOps(x.during)
  }

  predicate AllFair(xs: seq<Others>) {
    forall i :: 0 <= i < |xs| ==> Fair(xs[i])
  }

  predicate FairWakes(ws: seq<Wake>) {
    forall i :: 0 <= i < |ws| ==> OtherOps(ws[i].ops)
  }

  // ----- others

  /** The exit, if the monitor made it, books no less than the initial stop would have. */
  predicate AtWorst(q: Position) {
    q.status.Closed? && !q.status.reason.AgentClose? ==>
      q.status.realized >= PnL(q.side, q.notional, q.entry, q.initialStop)
  }

  /** A well-formed row, a positive stop, and no monitor exit below the initial stop. */
  predicate Sound(q: Position) {
    RowInv(q) && q.stop > 0.0 && AtWorst(q)
  }

  lemma OtherKeeps(q: Position, op: RowOp)
    requires Sound(q) && OtherOp(op)
    ensures Sound(ApplyRow(q, op)) && ApplyRow(q, op).lastBarTime == q.lastBarTime
  {
    hide PnL, Closer;
    RowStep(q, op);
  }

  lemma {:induction false} OthersKeep(q: Position, ops: seq<RowOp>)
    requires Sound(q) && OtherOps(ops)
    ensures var r := RunRow(q, ops); Sound(r) && RowEvolves(q, r) && r.lastBarTime == q.lastBarTime
    decreases |ops|
  {
    hide Sound, OtherOp, ApplyRow, RowEvolves;
    RowHistory(q, ops) by { assert Sound(q); SoundInv(q); }
    if ops != [] {
      OtherKeeps(q, ops[0]);
      OthersKeep(ApplyRow(q, ops[0]), ops[1..]);
    }
  }

  lemma SoundInv(q: Position)
    requires Sound(q)
    ensures RowInv(q)
  {
  }

  lemma SaveKeeps(q: Position, s: Saved)
    requires Sound(q) && s.stop > 0.0
    ensures Sound(SaveRow(q, s)) && RowEvolves(q, SaveRow(q, s))
    ensures q.status == Live ==> SaveRow(q, s).stop == CloserOf(q.side, q.stop, s.stop)
  {
    hide PnL;
  }

  // ----- one bar

  /** The loop's position is the row's trade, behind a stop no looser than the initial one. */
  predicate InStep(l: Loop) {
    && Sound(l.row)
    && l.pos.side == l.row.side && l.pos.entry == l.row.entry && l.pos.target == l.row.target
    && l.pos.stop > 0.0 && Closer(l.row.side, l.pos.stop, l.row.initialStop)
  }

  lemma StepTrade(l: Loop, b: Bar, env: Env)
    requires InStep(l)
    ensures var p := StepOf(l.pos, b, env).pos;
      && p.side == l.pos.side && p.entry == l.pos.entry && p.target == l.pos.target
      && p.stop > 0.0 && Closer(p.side, p.stop, l.pos.stop) && Closer(p.side, p.stop, l.row.initialStop)
  {
    PlanKept(l.pos, b, env);
    StopOnlyTightens(l.pos, b, env);
    hide StepOf, PnL;
  }

  lemma CloserPick(side: Side, a: real, b: real, limit: real)
    requires Closer(side, a, limit)
    ensures Closer(side, CloserOf(side, a, b), limit)
    ensures Closer(side, CloserOf(side, a, b), a) && Closer(side, CloserOf(side, a, b), b)
    ensures a > 0.0 && b > 0.0 ==> CloserOf(side, a, b) > 0.0
    ensures CloserOf(side, b, CloserOf(side, a, b)) == CloserOf(side, a, b)
  {
  }

  predicate InsideBar(l: Loop, b: Bar) {
    BarOk(b) && OpensInside(l.pos, b)
  }

  lemma CloseKeeps(q: Position, p: Pos, b: Bar, env: Env)
    requires Sound(q) && p.side == q.side && p.entry == q.entry && p.target == q.target
    requires Closer(q.side, p.stop, q.initialStop)
    requires StepOf(p, b, env).exit.Some? && BarOk(b) && OpensInside(p, b)
    ensures var e := StepOf(p, b, env).exit.value; Sound(CloseRow(q, e.price, b.time, e.reason))
  {
    ExitNoWorse(p, b, env, q.notional, q.initialStop);
    hide StepOf, PnL, Closer;
  }

  lemma CloseEvolves(q: Position, price: real, at: int, reason: ExitReason)
    requires RowInv(q)
    ensures RowEvolves(q, CloseRow(q, price, at, reason)) && RowInv(CloseRow(q, price, at, reason))
    ensures CloseRow(q, price, at, reason).status.Closed?
  {
    hide PnL;
  }

  lemma TradeKept(q: Position, r: Position)
    requires RowEvolves(q, r)
    ensures r.side == q.side && r.entry == q.entry && r.target == q.target && r.notional == q.notional
    ensures r.initialStop == q.initialStop && r.entryTime == q.entryTime
  {
  }

  lemma SaveBarKeeps(l: Loop, row: Position, res: Result, b: Bar, x: Others)
    requires Sound(row) && Fair(x)
    requires res.pos.side == row.side && res.pos.entry == row.entry && res.pos.target == row.target
    requires res.pos.stop > 0.0 && Closer(row.side, res.pos.stop, row.initialStop)
    ensures var d := AfterSave(l, row, res, b, x);
      InStep(d) && RowEvolves(row, d.row) && (d.over ==> d.row.status.Closed?)
  {
    hide Stored, Marked, Closer, CloserOf, AtWorst, RowInv, RowEvolves;
    var s := SavedOf(res.pos, Some(b.time), l.durable);
    var saved := SaveRow(row, s);
    SaveKeeps(row, s);
    TradeKept(row, saved);
    if row.status == Live {
      CloserPick(row.side, res.pos.stop, saved.stop, row.initialStop);
      var pos := res.pos.(stop := CloserOf(res.pos.side, res.pos.stop, saved.stop));
      var durable := Stored(l.durable, res.fired, x.woken, pos.lastFired);
      var after := RunRow(saved, x.during);
      OthersKeep(saved, x.during);
      TradeKept(saved, after);
      SaveKeeps(after, SavedOf(pos, Some(b.time), durable));
      TradeKept(after, SaveRow(after, SavedOf(pos, Some(b.time), durable)));
      hide SaveRow, RunRow, Sound;
      RowEvolvesTransitive(row, saved, after);
      RowEvolvesTransitive(row, after, SaveRow(after, SavedOf(pos, Some(b.time), durable)));
    }
  }

  /** One judged bar keeps the row and the position in step, whatever others do around it. */
  lemma BarKeeps(l: Loop, m: Market, lastBar: Option<int>, b: Bar, x: Others)
    requires |m.bars| > 0 && InStep(l) && Fair(x) && InsideBar(l, b)
    ensures InStep(BarStep(l, m, lastBar, b, x)) && RowEvolves(l.row, BarStep(l, m, lastBar, b, x).row)
    ensures BarStep(l, m, lastBar, b, x).over ==> BarStep(l, m, lastBar, b, x).row.status.Closed?
  {
    var env := EnvFor(m, l.row.granularity, l.row.side, lastBar, l.row.entryTime, l.prevBar, b);
    var res := StepOf(l.pos, b, env);
    var row := RunRow(l.row, x.before);
    StepTrade(l, b, env);
    OthersKeep(l.row, x.before);
    TradeKept(l.row, row);
    hide EnvFor, StepOf, RunRow, CloseRow, SaveRow, RowEvolves, Stored, OpensInside, BarOk, RowInv, OtherOps, Closer,
         CloserOf, AtWorst, Marked;
    if res.exit.Some? {
      CloseKeeps(row, l.pos, b, env);
      CloseEvolves(row, res.exit.value.price, b.time, res.exit.value.reason);
      RowEvolvesTransitive(l.row, row, BarStep(l, m, lastBar, b, x).row);
      TradeKept(l.row, BarStep(l, m, lastBar, b, x).row);
    } else {
      SaveBarKeeps(l, row, res, b, x);
      RowEvolvesTransitive(l.row, row, BarStep(l, m, lastBar, b, x).row);
    }
  }

  // ----- what is known as of now

  /** A catch-up bar before the newest one is judged the same whatever the ATR, the Supertrend line
      and the kill switch are by now. */
  lemma OlderBarsIgnoreNow(l: Loop, m: Market, atr: real, supertrend: real, halted: bool,
                           lastBar: Option<int>, b: Bar, x: Others)
    requires |m.bars| > 0 && b.time != m.bars[|m.bars| - 1].time
    ensures BarStep(l, m, lastBar, b, x)
         == BarStep(l, m.(atr := atr, supertrend := supertrend, halted := halted), lastBar, b, x)
  {
    hide StepOf, AfterSave, CloseRow, RunRow, BecameKnown;
  }

  // ----- the stop in memory and the stop on record

  /** What the store holds right after the loop's save, before anyone else moves. */
  function Recorded(l: Loop, m: Market, lastBar: Option<int>, b: Bar, x: Others): Position
    requires |m.bars| > 0
  {
    var res := StepOf(l.pos, b, EnvFor(m, l.row.granularity, l.row.side, lastBar, l.row.entryTime, l.prevBar, b));
    SaveRow(RunRow(l.row, x.before), SavedOf(res.pos, Some(b.time), l.durable))
  }

  predicate NoTighten(ops: seq<RowOp>) {
    forall i :: 0 <= i < |ops| ==> !ops[i].Tighten?
  }

  lemma {:induction false} StopUntouched(q: Position, ops: seq<RowOp>)
    requires OtherOps(ops) && NoTighten(ops)
    ensures RunRow(q, ops).stop == q.stop
    decreases |ops|
  {
    if ops != [] {
      StopUntouched(ApplyRow(q, ops[0]), ops[1..]);
    }
  }

  /** After each save the loop judges the next bar against exactly the stop on record; while the
      agent is woken the record may only move closer, and stays put if nobody tightens it. */
  lemma SaveSync(l: Loop, m: Market, lastBar: Option<int>, b: Bar, x: Others)
    requires |m.bars| > 0 && InStep(l) && Fair(x) && InsideBar(l, b)
    requires !BarStep(l, m, lastBar, b, x).over
    ensures var d := BarStep(l, m, lastBar, b, x);
      && d.pos.stop == Recorded(l, m, lastBar, b, x).stop
      && Closer(d.row.side, d.row.stop, d.pos.stop)
      && (NoTighten(x.during) ==> d.row.stop == d.pos.stop)
      && (d.row.status == Live ==> d.row.lastBarTime == Some(b.time))
  {
    var env := EnvFor(m, l.row.granularity, l.row.side, lastBar, l.row.entryTime, l.prevBar, b);
    var res := StepOf(l.pos, b, env);
    var row := RunRow(l.row, x.before);
    StepTrade(l, b, env);
    OthersKeep(l.row, x.before);
    TradeKept(l.row, row);
    hide EnvFor, StepOf, RunRow, Stored, OpensInside, BarOk, RowInv, OtherOps, AtWorst, Marked, InStep, Sound;
    SaveSynced(l, row, res, b, x);
  }

  lemma SaveSynced(l: Loop, row: Position, res: Result, b: Bar, x: Others)
    requires Sound(row) && Fair(x) && res.pos.side == row.side && res.pos.stop > 0.0
    requires !AfterSave(l, row, res, b, x).over
    ensures var d := AfterSave(l, row, res, b, x);
      && d.pos.stop == SaveRow(row, SavedOf(res.pos, Some(b.time), l.durable)).stop
      && Closer(d.row.side, d.row.stop, d.pos.stop)
      && (NoTighten(x.during) ==> d.row.stop == d.pos.stop)
      && (d.row.status == Live ==> d.row.lastBarTime == Some(b.time))
  {
    hide Stored, Marked, AtWorst, RowInv, NoTighten;
    var saved := SaveRow(row, SavedOf(res.pos, Some(b.time), l.durable));
    SaveKeeps(row, SavedOf(res.pos, Some(b.time), l.durable));
    OthersKeep(saved, x.during);
    if NoTighten(x.during) {
      StopUntouched(saved, x.during);
    }
    hide RunRow, Sound;
  }

  // ----- one tick

  /** Every bar the loop judges is well formed and opens inside the stop in force. */
  predicate Inside(l: Loop, m: Market, lastBar: Option<int>, bars: seq<Bar>, xs: seq<Others>)
    requires |xs| == |bars| && (|bars| > 0 ==> |m.bars| > 0)
    decreases |bars|
  {
    if bars == [] || l.over then true
    else if !Judged(lastBar, l.row.entryTime, bars[0]) then Inside(l, m, lastBar, bars[1..], xs[1..])
    else
      && InsideBar(l, bars[0])
      && Inside(BarStep(l, m, lastBar, bars[0], xs[0]), m, lastBar, bars[1..], xs[1..])
  }

  lemma {:induction false} BarsKeep(l: Loop, m: Market, lastBar: Option<int>, bars: seq<Bar>, xs: seq<Others>)
    requires |xs| == |bars| && (|bars| > 0 ==> |m.bars| > 0)
    requires InStep(l) && AllFair(xs) && Inside(l, m, lastBar, bars, xs)
    ensures InStep(RunBars(l, m, lastBar, bars, xs)) && RowEvolves(l.row, RunBars(l, m, lastBar, bars, xs).row)
    decreases |bars|
  {
    hide InStep, RowEvolves, BarStep, InsideBar, Fair;
    if bars == [] || l.over {
      RowEvolvesSelf(l.row);
    } else if !Judged(lastBar, l.row.entryTime, bars[0]) {
      BarsKeep(l, m, lastBar, bars[1..], xs[1..]);
    } else {
      BarKeeps(l, m, lastBar, bars[0], xs[0]);
      var d := BarStep(l, m, lastBar, bars[0], xs[0]);
      BarsKeep(d, m, lastBar, bars[1..], xs[1..]);
      RowEvolvesTransitive(l.row, d.row, RunBars(d, m, lastBar, bars[1..], xs[1..]).row);
    }
  }

  lemma SilentWakeKeeps(l: Loop, time: Option<int>, t: Tripwire, w: Wake)
    requires InStep(l) && OtherOps(w.ops)
    ensures InStep(SilentWake(l, time, t, w)) && RowEvolves(l.row, SilentWake(l, time, t, w).row)
  {
    var row := RunRow(l.row, w.ops);
    OthersKeep(l.row, w.ops);
    TradeKept(l.row, row);
    var d := SilentWake(l, time, t, w);
    if w.enqueued {
      var s := SavedOf(d.pos, time, d.durable);
      SaveKeeps(row, s);
      TradeKept(row, SaveRow(row, s));
      hide RowEvolves, SaveRow, RunRow, Sound;
      RowEvolvesTransitive(l.row, row, SaveRow(row, s));
    }
  }

  lemma {:induction false} SilentKeeps(l: Loop, m: Market, time: Option<int>, ts: seq<Tripwire>, ws: seq<Wake>)
    requires |ws| == |ts| && InStep(l) && FairWakes(ws)
    ensures InStep(Silent(l, m, time, ts, ws)) && RowEvolves(l.row, Silent(l, m, time, ts, ws).row)
    decreases |ts|
  {
    hide InStep, RowEvolves, SilentWake, Stale, OtherOps;
    if ts == [] {
      RowEvolvesSelf(l.row);
    } else if !Stale(ts[0], l.pos, m) {
      SilentKeeps(l, m, time, ts[1..], ws[1..]);
    } else {
      SilentWakeKeeps(l, time, ts[0], ws[0]);
      var d := SilentWake(l, time, ts[0], ws[0]);
      SilentKeeps(d, m, time, ts[1..], ws[1..]);
      RowEvolvesTransitive(l.row, d.row, Silent(d, m, time, ts[1..], ws[1..]).row);
    }
  }

  // ----- a life of ticks

  /** One tick of the monitor over the row, and what others do to it before the next one. */
  datatype Visit = Visit(market: Market, xs: seq<Others>, ws: seq<Wake>, after: seq<RowOp>)

  predicate VisitOk(v: Visit) {
    |v.xs| == |v.market.bars|
  }

  predicate VisitsOk(vs: seq<Visit>) {
    forall i :: 0 <= i < |vs| ==> VisitOk(vs[i])
  }

  predicate FairVisits(vs: seq<Visit>) {
    forall i :: 0 <= i < |vs| ==> AllFair(vs[i].xs) && FairWakes(vs[i].ws) && OtherOps(vs[i].after)
  }

  function Visited(q: Position, v: Visit): Position
    requires VisitOk(v)
  {
    RunRow(TickRow(q, v.market, v.xs, v.ws), v.after)
  }

  function Life(q: Position, vs: seq<Visit>): Position
    requires VisitsOk(vs)
    decreases |vs|
  {
    if vs == [] then q else Life(Visited(q, vs[0]), vs[1..])
  }

  predicate InsideTick(q: Position, v: Visit)
    requires VisitOk(v)
  {
    q.status == Live ==> Inside(StartOf(q, v.market), v.market, q.lastBarTime, v.market.bars, v.xs)
  }

  /** No bar the monitor judges over the row's life opens beyond the stop in force. */
  predicate InsideLife(q: Position, vs: seq<Visit>)
    requires VisitsOk(vs)
    decreases |vs|
  {
    vs == [] || (InsideTick(q, vs[0]) && InsideLife(Visited(q, vs[0]), vs[1..]))
  }

  lemma StartInStep(q: Position, m: Market)
    requires Sound(q)
    ensures InStep(StartOf(q, m)) && RowEvolves(q, StartOf(q, m).row) && StartOf(q, m).row.lastBarTime == q.lastBarTime
  {
    hide PnL;
    OtherKeeps(q, Attention);
    RowEvolvesSelf(q);
  }

  lemma PaddedFair(ws: seq<Wake>, n: nat)
    requires FairWakes(ws)
    ensures FairWakes(Padded(ws, n))
  {
  }

  lemma TickKeeps(q: Position, v: Visit)
    requires VisitOk(v) && Sound(q) && AllFair(v.xs) && FairWakes(v.ws) && OtherOps(v.after) && InsideTick(q, v)
    ensures Sound(Visited(q, v)) && RowEvolves(q, Visited(q, v))
  {
    var l, t := StartOf(q, v.market), TickRow(q, v.market, v.xs, v.ws);
    StartInStep(q, v.market);
    assert Sound(t) && RowEvolves(q, t) by {
      hide StartOf, RowEvolves, Sound, RunBars, Inside, NothingNew, Padded, FairWakes, OtherOps, AllFair;
      RowEvolvesSelf(q);
      if q.status == Live {
        if v.market.bars != [] && NothingNew(q, v.market) {
          var ws := Padded(v.ws, |q.plan.tripwires|);
          PaddedFair(v.ws, |q.plan.tripwires|);
          SilentKeeps(l, v.market, q.lastBarTime, q.plan.tripwires, ws);
          RowEvolvesTransitive(q, l.row, Silent(l, v.market, q.lastBarTime, q.plan.tripwires, ws).row);
        } else {
          BarsKeep(l, v.market, q.lastBarTime, v.market.bars, v.xs);
          RowEvolvesTransitive(q, l.row, RunBars(l, v.market, q.lastBarTime, v.market.bars, v.xs).row);
        }
      }
    }
    hide TickRow, RowEvolves, Sound, RunRow, StartOf;
    OthersKeep(t, v.after);
    RowEvolvesTransitive(q, t, RunRow(t, v.after));
  }

  /** For every run of ticks interleaved with any wakes, tightenings and closes: if no judged bar
      opens beyond the stop in force, a close by the monitor books at least the result at the
      initial stop, and the trade itself never changed. */
  lemma LossBound(q: Position, vs: seq<Visit>)
    requires VisitsOk(vs) && FairVisits(vs) && InsideLife(q, vs)
    requires Sound(q)
    ensures var r := Life(q, vs);
      && RowEvolves(q, r)
      && Closer(q.side, r.stop, q.initialStop) && r.stop > 0.0
      && (r.status.Closed? ==>
            && r.status.realized == PnL(q.side, q.notional, q.entry, r.status.price)
            && (!r.status.reason.AgentClose? ==> r.status.realized >= PnL(q.side, q.notional, q.entry, q.initialStop)))
  {
    LifeKeeps(q, vs);
    hide Life, InsideLife, PnL;
  }

  lemma {:induction false} LifeKeeps(q: Position, vs: seq<Visit>)
    requires VisitsOk(vs) && FairVisits(vs) && InsideLife(q, vs) && Sound(q)
    ensures Sound(Life(q, vs)) && RowEvolves(q, Life(q, vs))
    decreases |vs|
  {
    hide Sound, RowEvolves, InsideTick, Visited, OtherOps, AllFair, FairWakes;
    if vs == [] {
      RowEvolvesSelf(q);
    } else {
      TickKeeps(q, vs[0]);
      var r := Visited(q, vs[0]);
      LifeKeeps(r, vs[1..]);
      RowEvolvesTransitive(q, r, Life(r, vs[1..]));
    }
  }
}

/** The time stop over the life of a stored row. */
module TimeStop {
  import opened Common
  import opened Domain
  import opened Positions
  import opened MonitorStep
  import opened Service
  import opened ServiceSafety

  /** An open row has been held for fewer bars than its time stop allows. */
  predicate Timely(q: Position) {
    q.plan.maxBars > 0 && q.status == Live ==> q.barsHeld < q.plan.maxBars
  }

  predicate TimelyLoop(l: Loop) {
    && Timely(l.row)
    && l.pos.plan.maxBars == l.row.plan.maxBars
    && (l.pos.plan.maxBars > 0 && !l.over ==> l.pos.barsHeld < l.pos.plan.maxBars)
  }

  lemma {:induction false} OthersKeepTime(q: Position, ops: seq<RowOp>)
    requires OtherOps(ops)
    ensures var r := RunRow(q, ops);
      r.barsHeld == q.barsHeld && r.plan.maxBars == q.plan.maxBars && (q.status.Closed? ==> r.status.Closed?)
    decreases |ops|
  {
    if ops != [] {
      OthersKeepTime(ApplyRow(q, ops[0]), ops[1..]);
    }
  }

  lemma BarTimely(l: Loop, m: Market, lastBar: Option<int>, b: Bar, x: Others)
    requires |m.bars| > 0 && TimelyLoop(l) && Fair(x)
    ensures TimelyLoop(BarStep(l, m, lastBar, b, x))
    ensures BarStep(l, m, lastBar, b, x).row.plan.maxBars == l.row.plan.maxBars
  {
    var env := EnvFor(m, l.row.granularity, l.row.side, lastBar, l.row.entryTime, l.prevBar, b);
    var res, row := StepOf(l.pos, b, env), RunRow(l.row, x.before);
    PlanKept(l.pos, b, env);
    if l.pos.plan.maxBars > 0 && res.exit.None? {
      HeldBelowTimeStop(l.pos, b, env);
    }
    OthersKeepTime(l.row, x.before);
    hide StepOf, EnvFor, RunRow, Stored, Marked, OtherOps, CloserOf;
    if res.exit.None? {
      SavedTimely(l, row, res, b, x);
    }
  }

  lemma SavedTimely(l: Loop, row: Position, res: Result, b: Bar, x: Others)
    requires Fair(x) && res.pos.plan.maxBars == row.plan.maxBars
    requires res.pos.plan.maxBars > 0 ==> res.pos.barsHeld < res.pos.plan.maxBars
    ensures TimelyLoop(AfterSave(l, row, res, b, x))
    ensures AfterSave(l, row, res, b, x).row.plan.maxBars == row.plan.maxBars
  {
    hide Stored, Marked, OtherOps, CloserOf;
    OthersKeepTime(SaveRow(row, SavedOf(res.pos, Some(b.time), l.durable)), x.during);
  }

  lemma {:induction false} BarsTimely(l: Loop, m: Market, lastBar: Option<int>, bars: seq<Bar>, xs: seq<Others>)
    requires |xs| == |bars| && (|bars| > 0 ==> |m.bars| > 0) && TimelyLoop(l) && AllFair(xs)
    ensures var d := RunBars(l, m, lastBar, bars, xs); Timely(d.row) && d.row.plan.maxBars == l.row.plan.maxBars
    decreases |bars|
  {
    hide BarStep, Fair;
    if bars != [] && !l.over {
      if !Judged(lastBar, l.row.entryTime, bars[0]) {
        BarsTimely(l, m, lastBar, bars[1..], xs[1..]);
      } else {
        BarTimely(l, m, lastBar, bars[0], xs[0]);
        BarsTimely(BarStep(l, m, lastBar, bars[0], xs[0]), m, lastBar, bars[1..], xs[1..]);
      }
    }
  }

  lemma {:induction false} SilentTimely(l: Loop, m: Market, time: Option<int>, ts: seq<Tripwire>, ws: seq<Wake>)
    requires |ws| == |ts| && FairWakes(ws) && TimelyLoop(l) && !l.over
    ensures var d := Silent(l, m, time, ts, ws); Timely(d.row) && d.row.plan.maxBars == l.row.plan.maxBars
    decreases |ts|
  {
    hide Stale, OtherOps, CloserOf;
    if ts != [] {
      if !Stale(ts[0], l.pos, m) {
        SilentTimely(l, m, time, ts[1..], ws[1..]);
      } else {
        OthersKeepTime(l.row, ws[0].ops);
        SilentTimely(SilentWake(l, time, ts[0], ws[0]), m, time, ts[1..], ws[1..]);
      }
    }
  }

  lemma TickTimely(q: Position, v: Visit)
    requires VisitOk(v) && AllFair(v.xs) && FairWakes(v.ws) && OtherOps(v.after) && Timely(q)
    ensures Timely(Visited(q, v)) && Visited(q, v).plan.maxBars == q.plan.maxBars
  {
    OthersKeepTime(TickRow(q, v.market, v.xs, v.ws), v.after);
    hide RunRow, OtherOps, FairWakes, AllFair, RunBars, Silent;
    if q.status == Live {
      var l := StartOf(q, v.market);
      if v.market.bars != [] && NothingNew(q, v.market) {
        PaddedFair(v.ws, |q.plan.tripwires|);
        SilentTimely(l, v.market, q.lastBarTime, q.plan.tripwires, Padded(v.ws, |q.plan.tripwires|));
      } else {
        BarsTimely(l, v.market, q.lastBarTime, v.market.bars, v.xs);
      }
    }
  }

  /** With a time stop of m bars, an open row has been held for fewer than m, over every run of ticks
      and everything others do in between. */
  lemma {:induction false} TimeStopHolds(q: Position, vs: seq<Visit>)
    requires VisitsOk(vs) && FairVisits(vs) && Timely(q)
    ensures Timely(Life(q, vs)) && Life(q, vs).plan.maxBars == q.plan.maxBars
    decreases |vs|
  {
    hide Visited, OtherOps, AllFair, FairWakes, Timely;
    if vs != [] {
      TickTimely(q, vs[0]);
      TimeStopHolds(Visited(q, vs[0]), vs[1..]);
    }
  }
}

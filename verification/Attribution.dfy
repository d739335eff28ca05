/** On which bar a signal counts: the windows of the judged bars, across ticks and restarts. */
module Attribution {
  import opened Common
  import opened Domain
  import opened Positions
  import opened MonitorStep
  import opened Service
  import opened ServiceSafety

  // ----- what one tick judges and counts

  /** The opening times of the bars the loop judges, in order. */
  function JudgedIn(l: Loop, m: Market, lastBar: Option<int>, bars: seq<Bar>, xs: seq<Others>): seq<int>
    requires |xs| == |bars| && (|bars| > 0 ==> |m.bars| > 0)
    decreases |bars|
  {
    if bars == [] || l.over then []
    else if !Judged(lastBar, l.row.entryTime, bars[0]) then JudgedIn(l, m, lastBar, bars[1..], xs[1..])
    else [bars[0].time] + JudgedIn(BarStep(l, m, lastBar, bars[0], xs[0]), m, lastBar, bars[1..], xs[1..])
  }

  /** On how many judged bars a signal known at this time counts. */
  function CountIn(l: Loop, m: Market, lastBar: Option<int>, bars: seq<Bar>, xs: seq<Others>, known: int): nat
    requires |xs| == |bars| && (|bars| > 0 ==> |m.bars| > 0)
    decreases |bars|
  {
    if bars == [] || l.over then 0
    else if !Judged(lastBar, l.row.entryTime, bars[0]) then CountIn(l, m, lastBar, bars[1..], xs[1..], known)
    else
      (if BecameKnown(known, lastBar, l.row.entryTime, l.prevBar, bars[0]) then 1 else 0)
      + CountIn(BarStep(l, m, lastBar, bars[0], xs[0]), m, lastBar, bars[1..], xs[1..], known)
  }

  predicate Ascending(bars: seq<Bar>) {
    forall i, j :: 0 <= i < j < |bars| ==> bars[i].time < bars[j].time
  }

  function LastOf(ts: seq<int>, default: int): int {
    if ts == [] then default else ts[|ts| - 1]
  }

  function Within(lo: int, known: int, hi: int): nat {
    if lo < known <= hi then 1 else 0
  }

  lemma RisingMore(t: int, ts: seq<int>, after: int)
    requires after < t && Rising(ts, t)
    ensures Rising([t] + ts, after) && LastOf([t] + ts, after) == LastOf(ts, t) >= t
  {
  }

  /** What places a signal on a bar never changes. */
  predicate SameFrame(p: Position, q: Position) {
    q.entryTime == p.entryTime && q.granularity == p.granularity && q.side == p.side
  }

  lemma BarMoves(l: Loop, m: Market, lastBar: Option<int>, b: Bar, x: Others)
    requires |m.bars| > 0
    ensures BarStep(l, m, lastBar, b, x).prevBar == b.time
    ensures SameFrame(l.row, BarStep(l, m, lastBar, b, x).row)
  {
    hide StepOf, EnvFor, Stored, Marked;
    FrameKept(l.row, x.before);
    var res := StepOf(l.pos, b, EnvFor(m, l.row.granularity, l.row.side, lastBar, l.row.entryTime, l.prevBar, b));
    FrameKept(SaveRow(RunRow(l.row, x.before), SavedOf(res.pos, Some(b.time), l.durable)), x.during);
  }

  lemma {:induction false} FrameKept(q: Position, ops: seq<RowOp>)
    ensures SameFrame(q, RunRow(q, ops))
    decreases |ops|
  {
    if ops != [] {
      FrameKept(ApplyRow(q, ops[0]), ops[1..]);
    }
  }

  /** Past the entry bar the windows meet end to end: a signal counts once, on the bar that closes over it. */
  lemma {:induction false} SettledCount(l: Loop, m: Market, lastBar: Option<int>, bars: seq<Bar>, xs: seq<Others>,
                                        known: int)
    requires |xs| == |bars| && (|bars| > 0 ==> |m.bars| > 0) && Ascending(bars)
    requires lastBar.None? ==> l.prevBar > l.row.entryTime
    requires lastBar.Some? ==> l.prevBar >= l.row.entryTime
    requires forall i :: 0 <= i < |bars| && Judged(lastBar, l.row.entryTime, bars[i]) ==> bars[i].time > l.prevBar
    ensures var js := JudgedIn(l, m, lastBar, bars, xs);
      && Rising(js, l.prevBar)
      && CountIn(l, m, lastBar, bars, xs, known) == Within(l.prevBar + MINUTE, known, LastOf(js, l.prevBar) + MINUTE)
    decreases |bars|
  {
    hide BarStep;
    if bars != [] && !l.over {
      if !Judged(lastBar, l.row.entryTime, bars[0]) {
        SettledCount(l, m, lastBar, bars[1..], xs[1..], known);
      } else {
        var d := BarStep(l, m, lastBar, bars[0], xs[0]);
        BarMoves(l, m, lastBar, bars[0], xs[0]);
        SettledCount(d, m, lastBar, bars[1..], xs[1..], known);
        RisingMore(bars[0].time, JudgedIn(d, m, lastBar, bars[1..], xs[1..]), l.prevBar);
      }
    }
  }

  /** The first judged bar opens at the entry and the same tick judges another one. */
  predicate DoublesIn(js: seq<int>, entryTime: int) {
    |js| >= 2 && js[0] == entryTime
  }

  /** In the tick that starts at the entry, the second bar's window reaches back to the entry again
      if the first bar opened exactly there. */
  lemma {:induction false} FirstCount(l: Loop, m: Market, bars: seq<Bar>, xs: seq<Others>, known: int)
    requires |xs| == |bars| && (|bars| > 0 ==> |m.bars| > 0) && Ascending(bars)
    requires l.prevBar == l.row.entryTime
    ensures var js, e := JudgedIn(l, m, None, bars, xs), l.row.entryTime;
      && Rising(js, e - 1)
      && CountIn(l, m, None, bars, xs, known) ==
           (if js == [] then 0 else Within(e, known, LastOf(js, e) + MINUTE))
           + (if DoublesIn(js, e) then Within(e, known, e + MINUTE) else 0)
    decreases |bars|
  {
    hide BarStep;
    var e := l.row.entryTime;
    if bars != [] && !l.over {
      if !Judged(None, e, bars[0]) {
        FirstCount(l, m, bars[1..], xs[1..], known);
      } else {
        var d := BarStep(l, m, None, bars[0], xs[0]);
        BarMoves(l, m, None, bars[0], xs[0]);
        var js := JudgedIn(d, m, None, bars[1..], xs[1..]);
        assert JudgedIn(l, m, None, bars, xs) == [bars[0].time] + js;
        if bars[0].time > e {
          SettledCount(d, m, None, bars[1..], xs[1..], known);
        } else {
          SecondCount(d, m, bars[1..], xs[1..], known);
        }
        hide JudgedIn, CountIn, Rising, Ascending;
        RisingMore(bars[0].time, js, e - 1);
      }
    }
  }

  /** After a bar that opened exactly at the entry. */
  lemma {:induction false} SecondCount(l: Loop, m: Market, bars: seq<Bar>, xs: seq<Others>, known: int)
    requires |xs| == |bars| && (|bars| > 0 ==> |m.bars| > 0) && Ascending(bars)
    requires l.prevBar == l.row.entryTime
    requires forall i :: 0 <= i < |bars| ==> bars[i].time > l.prevBar
    ensures var js, e := JudgedIn(l, m, None, bars, xs), l.row.entryTime;
      && Rising(js, e)
      && CountIn(l, m, None, bars, xs, known) == if js == [] then 0 else Within(e, known, LastOf(js, e) + MINUTE)
  {
    hide BarStep;
    var e := l.row.entryTime;
    if bars != [] && !l.over {
      var d := BarStep(l, m, None, bars[0], xs[0]);
      BarMoves(l, m, None, bars[0], xs[0]);
      SettledCount(d, m, None, bars[1..], xs[1..], known);
      RisingMore(bars[0].time, JudgedIn(d, m, None, bars[1..], xs[1..]), e);
    }
  }

  // ----- what the row remembers

  lemma {:induction false} SameLastBar(q: Position, ops: seq<RowOp>)
    requires OtherOps(ops)
    ensures RunRow(q, ops).lastBarTime == q.lastBarTime
    decreases |ops|
  {
    if ops != [] {
      SameLastBar(ApplyRow(q, ops[0]), ops[1..]);
    }
  }

  lemma BarRemembered(l: Loop, m: Market, lastBar: Option<int>, b: Bar, x: Others)
    requires |m.bars| > 0 && Fair(x)
    ensures var d := BarStep(l, m, lastBar, b, x); d.row.status == Live ==> d.row.lastBarTime == Some(b.time)
  {
    hide StepOf, EnvFor, Stored, Marked, OtherOps;
    SameLastBar(l.row, x.before);
    var res := StepOf(l.pos, b, EnvFor(m, l.row.granularity, l.row.side, lastBar, l.row.entryTime, l.prevBar, b));
    var saved := SaveRow(RunRow(l.row, x.before), SavedOf(res.pos, Some(b.time), l.durable));
    SameLastBar(saved, x.during);
    StillClosed(saved, x.during);
  }

  lemma StillClosed(q: Position, ops: seq<RowOp>)
    requires OtherOps(ops)
    ensures q.status.Closed? ==> RunRow(q, ops).status.Closed?
  {
    if q.status.Closed? {
      ClosedStays(q, ops);
    }
  }

  lemma {:induction false} LoopRemembers(l: Loop, m: Market, lastBar: Option<int>, bars: seq<Bar>, xs: seq<Others>)
    requires |xs| == |bars| && (|bars| > 0 ==> |m.bars| > 0) && AllFair(xs)
    ensures var r, js := RunBars(l, m, lastBar, bars, xs).row, JudgedIn(l, m, lastBar, bars, xs);
      && SameFrame(l.row, r)
      && (js == [] ==> r == l.row)
      && (js != [] && r.status == Live ==> r.lastBarTime == Some(LastOf(js, 0)))
    decreases |bars|
  {
    hide BarStep, Fair;
    if bars != [] && !l.over {
      if !Judged(lastBar, l.row.entryTime, bars[0]) {
        LoopRemembers(l, m, lastBar, bars[1..], xs[1..]);
      } else {
        BarMoves(l, m, lastBar, bars[0], xs[0]);
        BarRemembered(l, m, lastBar, bars[0], xs[0]);
        LoopRemembers(BarStep(l, m, lastBar, bars[0], xs[0]), m, lastBar, bars[1..], xs[1..]);
      }
    }
  }

  lemma {:induction false} SilentRemembers(l: Loop, m: Market, time: Option<int>, ts: seq<Tripwire>, ws: seq<Wake>)
    requires |ws| == |ts| && FairWakes(ws) && l.row.lastBarTime == time
    ensures var r := Silent(l, m, time, ts, ws).row; r.lastBarTime == time && SameFrame(l.row, r)
    decreases |ts|
  {
    hide Stale, OtherOps;
    if ts != [] {
      if !Stale(ts[0], l.pos, m) {
        SilentRemembers(l, m, time, ts[1..], ws[1..]);
      } else {
        SameLastBar(l.row, ws[0].ops);
        FrameKept(l.row, ws[0].ops);
        SilentRemembers(SilentWake(l, time, ts[0], ws[0]), m, time, ts[1..], ws[1..]);
      }
    }
  }

  // ----- across ticks and restarts

  function TickJudged(q: Position, v: Visit): seq<int>
    requires VisitOk(v)
  {
    if q.status != Live then [] else JudgedIn(StartOf(q, v.market), v.market, q.lastBarTime, v.market.bars, v.xs)
  }

  function TickCount(q: Position, v: Visit, known: int): nat
    requires VisitOk(v)
  {
    if q.status != Live then 0 else CountIn(StartOf(q, v.market), v.market, q.lastBarTime, v.market.bars, v.xs, known)
  }

  /** Every bar judged over the life of the row. */
  function AllJudged(q: Position, vs: seq<Visit>): seq<int>
    requires VisitsOk(vs)
    decreases |vs|
  {
    if vs == [] then [] else TickJudged(q, vs[0]) + AllJudged(Visited(q, vs[0]), vs[1..])
  }

  /** On how many judged bars the signal counts over the life of the row. */
  function AllCount(q: Position, vs: seq<Visit>, known: int): nat
    requires VisitsOk(vs)
    decreases |vs|
  {
    if vs == [] then 0 else TickCount(q, vs[0], known) + AllCount(Visited(q, vs[0]), vs[1..], known)
  }

  /** The first tick that judges a bar starts exactly at the entry and judges a second bar too. */
  predicate Doubles(q: Position, vs: seq<Visit>)
    requires VisitsOk(vs)
    decreases |vs|
  {
    vs != []
    && if TickJudged(q, vs[0]) == [] then Doubles(Visited(q, vs[0]), vs[1..])
       else DoublesIn(TickJudged(q, vs[0]), q.entryTime)
  }

  predicate InOrder(vs: seq<Visit>) {
    forall i :: 0 <= i < |vs| ==> Ascending(vs[i].market.bars)
  }

  lemma NothingJudged(q: Position, v: Visit)
    requires VisitOk(v) && q.status == Live && v.market.bars != [] && NothingNew(q, v.market)
    ensures TickJudged(q, v) == []
  {
    NoneJudged(StartOf(q, v.market), v.market, q.lastBarTime, v.market.bars, v.xs);
  }

  lemma {:induction false} NoneJudged(l: Loop, m: Market, lastBar: Option<int>, bars: seq<Bar>, xs: seq<Others>)
    requires |xs| == |bars| && (|bars| > 0 ==> |m.bars| > 0)
    requires forall i :: 0 <= i < |bars| ==> !Judged(lastBar, l.row.entryTime, bars[i])
    ensures JudgedIn(l, m, lastBar, bars, xs) == []
    decreases |bars|
  {
    if bars != [] {
      NoneJudged(l, m, lastBar, bars[1..], xs[1..]);
    }
  }

  lemma TickRemembers(q: Position, v: Visit)
    requires VisitOk(v) && AllFair(v.xs) && FairWakes(v.ws) && OtherOps(v.after)
    ensures var r, js := Visited(q, v), TickJudged(q, v);
      && SameFrame(q, r)
      && (q.status.Closed? ==> js == [] && r.status.Closed?)
      && (r.status == Live ==> r.lastBarTime == if js == [] then q.lastBarTime else Some(LastOf(js, 0)))
  {
    var t := TickRow(q, v.market, v.xs, v.ws);
    SameLastBar(t, v.after);
    FrameKept(t, v.after);
    StillClosed(t, v.after);
    hide RunRow, OtherOps, FairWakes, AllFair, RunBars, Silent, JudgedIn, Judged;
    if q.status == Live {
      var l := StartOf(q, v.market);
      if v.market.bars != [] && NothingNew(q, v.market) {
        PaddedFair(v.ws, |q.plan.tripwires|);
        SilentRemembers(l, v.market, q.lastBarTime, q.plan.tripwires, Padded(v.ws, |q.plan.tripwires|));
        NothingJudged(q, v);
      } else {
        LoopRemembers(l, v.market, q.lastBarTime, v.market.bars, v.xs);
      }
    }
  }

  lemma TickLater(q: Position, v: Visit, known: int, t: int)
    requires VisitOk(v) && Ascending(v.market.bars) && q.lastBarTime == Some(t) && t >= q.entryTime
    ensures Rising(TickJudged(q, v), t)
    ensures TickCount(q, v, known) == Within(t + MINUTE, known, LastOf(TickJudged(q, v), t) + MINUTE)
  {
    if q.status == Live {
      SettledCount(StartOf(q, v.market), v.market, q.lastBarTime, v.market.bars, v.xs, known);
    }
  }

  lemma TickFirst(q: Position, v: Visit, known: int)
    requires VisitOk(v) && Ascending(v.market.bars) && q.lastBarTime.None?
    ensures var js, e := TickJudged(q, v), q.entryTime;
      && Rising(js, e - 1)
      && TickCount(q, v, known) == (if js == [] then 0 else Within(e, known, LastOf(js, e) + MINUTE))
                                   + (if DoublesIn(js, e) then Within(e, known, e + MINUTE) else 0)
  {
    if q.status == Live {
      FirstCount(StartOf(q, v.market), v.market, v.market.bars, v.xs, known);
    }
  }

  lemma RisingJoin(a: seq<int>, b: seq<int>, after: int)
    requires Rising(a, after) && Rising(b, LastOf(a, after))
    ensures Rising(a + b, after) && LastOf(a + b, after) == LastOf(b, LastOf(a, after)) >= LastOf(a, after)
  {
  }

  lemma {:induction false} NothingAfterClose(q: Position, vs: seq<Visit>, known: int)
    requires VisitsOk(vs) && FairVisits(vs) && q.status.Closed?
    ensures AllJudged(q, vs) == [] && AllCount(q, vs, known) == 0
    decreases |vs|
  {
    hide Visited, OtherOps, AllFair, FairWakes;
    if vs != [] {
      TickRemembers(q, vs[0]);
      NothingAfterClose(Visited(q, vs[0]), vs[1..], known);
    }
  }

  lemma WithinJoin(lo: int, mid: int, known: int, hi: int)
    requires lo <= mid <= hi
    ensures Within(lo, known, mid) + Within(mid, known, hi) == Within(lo, known, hi)
  {
  }

  lemma WithinNothing(lo: int, known: int)
    ensures Within(lo, known, lo) == 0
  {
  }

  lemma LastNone(default: int)
    ensures LastOf([], default) == default
  {
  }

  lemma RememberedLast(ts: seq<int>, t: int)
    ensures Some(LastOf(ts, t)) == if ts == [] then Some(t) else Some(LastOf(ts, 0))
  {
  }

  lemma RisingNone(after: int)
    ensures Rising([], after)
  {
  }

  lemma RisingLast(ts: seq<int>, after: int)
    requires Rising(ts, after)
    ensures LastOf(ts, after) >= after && (ts != [] ==> LastOf(ts, after) > after)
  {
  }

  lemma AllUnfold(q: Position, vs: seq<Visit>, known: int)
    requires VisitsOk(vs) && vs != []
    ensures AllJudged(q, vs) == TickJudged(q, vs[0]) + AllJudged(Visited(q, vs[0]), vs[1..])
    ensures AllCount(q, vs, known) == TickCount(q, vs[0], known) + AllCount(Visited(q, vs[0]), vs[1..], known)
  {
    hide Visited, TickCount, TickJudged;
  }

  lemma AllNone(q: Position, known: int)
    ensures AllJudged(q, []) == [] && AllCount(q, [], known) == 0
  {
  }

  lemma {:induction false} LaterCount(q: Position, vs: seq<Visit>, known: int, t: int)
    requires VisitsOk(vs) && FairVisits(vs) && InOrder(vs)
    requires q.lastBarTime == Some(t) && t >= q.entryTime
    ensures Rising(AllJudged(q, vs), t)
    ensures AllCount(q, vs, known) == Within(t + MINUTE, known, LastOf(AllJudged(q, vs), t) + MINUTE)
    decreases |vs|
  {
    hide Visited, OtherOps, AllFair, FairWakes, TickCount, TickJudged, Ascending, Rising, Within, LastOf, AllJudged,
         AllCount;
    if vs == [] {
      AllNone(q, known);
      RisingNone(t);
      WithinNothing(t + MINUTE, known);
      LastNone(t);
    } else {
      var r, js := Visited(q, vs[0]), TickJudged(q, vs[0]);
      TickRemembers(q, vs[0]);
      TickLater(q, vs[0], known, t);
      RisingLast(js, t);
      AllUnfold(q, vs, known);
      RememberedLast(js, t);
      if r.status == Live {
        LaterCount(r, vs[1..], known, LastOf(js, t));
      } else {
        NothingAfterClose(r, vs[1..], known);
        RisingNone(LastOf(js, t));
        WithinNothing(LastOf(js, t) + MINUTE, known);
        LastNone(LastOf(js, t));
      }
      RisingJoin(js, AllJudged(r, vs[1..]), t);
      WithinJoin(t + MINUTE, LastOf(js, t) + MINUTE, known, LastOf(AllJudged(q, vs), t) + MINUTE);
    }
  }

  /** Across all ticks and restarts, whatever others do to the row: no bar is judged twice, and a
      signal known after the entry and by the end of the last judged bar counts on exactly one bar,
      any other on none; but for the first minute after the entry, which counts twice exactly when
      the first judged bar opens at the entry and its tick goes on to a second bar. */
  lemma {:induction false} EventCount(q: Position, vs: seq<Visit>, known: int)
    requires VisitsOk(vs) && FairVisits(vs) && InOrder(vs) && q.lastBarTime.None?
    ensures var js, e := AllJudged(q, vs), q.entryTime;
      && Rising(js, e - 1)
      && AllCount(q, vs, known) == (if js == [] then 0 else Within(e, known, LastOf(js, e) + MINUTE))
                                   + (if Doubles(q, vs) then Within(e, known, e + MINUTE) else 0)
    decreases |vs|
  {
    hide Visited, OtherOps, AllFair, FairWakes, TickCount, TickJudged, Ascending, Rising, Within, LastOf, AllJudged,
         AllCount;
    if vs == [] {
      AllNone(q, known);
      RisingNone(q.entryTime - 1);
    } else {
      var r, js := Visited(q, vs[0]), TickJudged(q, vs[0]);
      TickRemembers(q, vs[0]);
      TickFirst(q, vs[0], known);
      AllUnfold(q, vs, known);
      if r.status == Live && js == [] {
        EventCount(r, vs[1..], known);
        assert js + AllJudged(r, vs[1..]) == AllJudged(r, vs[1..]);
      } else if r.status == Live {
        AfterFirst(q, vs, known);
      } else {
        NothingAfterClose(r, vs[1..], known);
        assert js + AllJudged(r, vs[1..]) == js;
        NoDoubleAfterClose(r, vs[1..]);
      }
    }
  }

  /** The first tick that judges a bar, and the ticks after it. */
  lemma AfterFirst(q: Position, vs: seq<Visit>, known: int)
    requires VisitsOk(vs) && FairVisits(vs) && InOrder(vs) && q.lastBarTime.None? && vs != []
    requires TickJudged(q, vs[0]) != [] && Visited(q, vs[0]).status == Live
    ensures var js, all, e := TickJudged(q, vs[0]), AllJudged(q, vs), q.entryTime;
      && Rising(all, e - 1) && all != []
      && AllCount(q, vs, known) == Within(e, known, LastOf(all, e) + MINUTE)
                                   + (if DoublesIn(js, e) then Within(e, known, e + MINUTE) else 0)
  {
    hide Visited, OtherOps, AllFair, FairWakes, TickCount, TickJudged, Ascending, Rising, Within, AllJudged, AllCount,
         DoublesIn;
    var r, js, e := Visited(q, vs[0]), TickJudged(q, vs[0]), q.entryTime;
    TickRemembers(q, vs[0]);
    TickFirst(q, vs[0], known);
    AllUnfold(q, vs, known);
    RisingLast(js, e - 1);
    var last := LastOf(js, 0);
    LaterCount(r, vs[1..], known, last);
    var rest := AllJudged(r, vs[1..]);
    RisingJoin(js, rest, e - 1);
    RisingLast(rest, last);
    WithinJoin(e, last + MINUTE, known, LastOf(rest, last) + MINUTE);
  }

  lemma {:induction false} NoDoubleAfterClose(q: Position, vs: seq<Visit>)
    requires VisitsOk(vs) && FairVisits(vs) && q.status.Closed?
    ensures !Doubles(q, vs)
    decreases |vs|
  {
    hide Visited, OtherOps, AllFair, FairWakes;
    if vs != [] {
      TickRemembers(q, vs[0]);
      NoDoubleAfterClose(Visited(q, vs[0]), vs[1..]);
    }
  }

  /** Every signal counts at most once, exactly unless the entry bar is judged together with the next one. */
  lemma AtMostOnceIff(q: Position, vs: seq<Visit>)
    requires VisitsOk(vs) && FairVisits(vs) && InOrder(vs) && q.lastBarTime.None?
    ensures (forall known :: AllCount(q, vs, known) <= 1) <==> !Doubles(q, vs)
  {
    hide AllCount, AllJudged, Doubles;
    forall known ensures !Doubles(q, vs) ==> AllCount(q, vs, known) <= 1 {
      EventCount(q, vs, known);
    }
    if Doubles(q, vs) {
      EventCount(q, vs, q.entryTime + 1);
      DoublesJudge(q, vs);
      assert AllCount(q, vs, q.entryTime + 1) == 2;
    }
  }

  lemma {:induction false} DoublesJudge(q: Position, vs: seq<Visit>)
    requires VisitsOk(vs) && Doubles(q, vs) && FairVisits(vs)
    ensures |AllJudged(q, vs)| >= 2
    decreases |vs|
  {
    hide Visited, OtherOps, AllFair, FairWakes;
    if TickJudged(q, vs[0]) == [] {
      DoublesJudge(Visited(q, vs[0]), vs[1..]);
    }
  }

  lemma {:induction false} JudgedAreBars(l: Loop, m: Market, lastBar: Option<int>, bars: seq<Bar>, xs: seq<Others>,
                                         time: int)
    requires |xs| == |bars| && (|bars| > 0 ==> |m.bars| > 0)
    requires forall i :: 0 <= i < |bars| ==> bars[i].time != time
    ensures time !in JudgedIn(l, m, lastBar, bars, xs)
    decreases |bars|
  {
    hide BarStep;
    if bars != [] && !l.over {
      if !Judged(lastBar, l.row.entryTime, bars[0]) {
        JudgedAreBars(l, m, lastBar, bars[1..], xs[1..], time);
      } else {
        JudgedAreBars(BarStep(l, m, lastBar, bars[0], xs[0]), m, lastBar, bars[1..], xs[1..], time);
      }
    }
  }

  predicate NoBarAt(vs: seq<Visit>, time: int) {
    forall i, j :: 0 <= i < |vs| && 0 <= j < |vs[i].market.bars| ==> vs[i].market.bars[j].time != time
  }

  /** When no bar opens exactly at the entry, every signal known after it and by the end of the last
      judged bar counts on exactly one bar. */
  lemma ExactlyOnce(q: Position, vs: seq<Visit>, known: int)
    requires VisitsOk(vs) && FairVisits(vs) && InOrder(vs) && q.lastBarTime.None? && NoBarAt(vs, q.entryTime)
    ensures AllCount(q, vs, known) ==
      if AllJudged(q, vs) == [] then 0 else Within(q.entryTime, known, LastOf(AllJudged(q, vs), 0) + MINUTE)
  {
    hide AllCount, AllJudged, Doubles, Within, Rising, FairVisits, InOrder, NoBarAt;
    EventCount(q, vs, known);
    NeverDoubles(q, vs, q.entryTime);
  }

  lemma {:induction false} NeverDoubles(q: Position, vs: seq<Visit>, entryTime: int)
    requires VisitsOk(vs) && FairVisits(vs) && NoBarAt(vs, entryTime) && q.entryTime == entryTime
    ensures !Doubles(q, vs)
    decreases |vs|
  {
    hide Visited, OtherOps, AllFair, FairWakes;
    if vs != [] {
      var m := vs[0].market;
      TickRemembers(q, vs[0]);
      if q.status == Live {
        JudgedAreBars(StartOf(q, m), m, q.lastBarTime, m.bars, vs[0].xs, entryTime);
      }
      assert forall i :: 0 <= i < |vs[1..]| ==> vs[1..][i] == vs[i + 1];
      NeverDoubles(Visited(q, vs[0]), vs[1..], entryTime);
    }
  }

  // ----- the exception, on a concrete run

  /** A long trade entered at time 0 that nothing touches. */
  const HELD := Position(1, 1, "X", Minutes(5), Long, 1.0, 10.0, 0, 5.0, 5.0, None, NO_PLAN, 0, 10.0, 0.0, None, map[],
                         Live, 0, 0, false)

  const FLAT := Market([Bar(0, 10.0, 10.0, 10.0, 10.0), Bar(MINUTE, 10.0, 10.0, 10.0, 10.0)], 0.0, 0.0, false,
                       [], [], 0.0)

  const QUIET := Others([], [], [])

  /** One tick over two bars, the first of which opens at the entry, counts a signal known a moment
      after the entry on both bars. */
  lemma CountsTwice()
    ensures var v := Visit(FLAT, [QUIET, QUIET], [], []);
      VisitsOk([v]) && Doubles(HELD, [v]) && AllCount(HELD, [v], 1) == 2
  {
    hide BarStep, TickJudged, TickCount, Visited, Rising;
    var v := Visit(FLAT, [QUIET, QUIET], [], []);
    FlatJudged(v);
    EventCount(HELD, [v], 1);
    DoublesJudge(HELD, [v]);
    RisingLast(AllJudged(HELD, [v]), -1);
  }

  lemma FlatJudged(v: Visit)
    requires v == Visit(FLAT, [QUIET, QUIET], [], [])
    ensures DoublesIn(TickJudged(HELD, v), HELD.entryTime)
  {
    hide BarStep;
    var l, bars := StartOf(HELD, FLAT), FLAT.bars;
    HeldFirst(l);
    BarMoves(l, FLAT, None, bars[0], QUIET);
    var d := BarStep(l, FLAT, None, bars[0], QUIET);
    assert bars[1..] == [bars[1]] && v.xs[1..] == [QUIET] && [bars[1]][1..] == [];
    assert JudgedIn(d, FLAT, None, bars[1..], v.xs[1..])[0] == MINUTE;
  }

  lemma HeldFirst(l: Loop)
    requires l == StartOf(HELD, FLAT)
    ensures !BarStep(l, FLAT, None, FLAT.bars[0], QUIET).over
  {
  }
}

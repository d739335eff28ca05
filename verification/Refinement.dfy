/** Ticks over overlapping feed windows, with every store round trip and reload in between, end as
    one fold of the step over the whole stream. */
module Refinement {
  import opened Common
  import opened Domain
  import opened Positions
  import opened MonitorStep
  import opened Service
  import opened ServiceSafety
  import opened Attribution

  // ----- the fold

  const CALM := Env(0.0, 0.0, false, false, false, false, 0.0)

  datatype End = End(exit: Exit, at: int)

  /** The position after the bars it held through, the last of those bars, and how it ended. */
  datatype Outcome = Outcome(pos: Pos, last: Option<int>, end: Option<End>)

  function Replay(o: Outcome, bars: seq<Bar>): Outcome
    decreases |bars|
  {
    if bars == [] || o.end.Some? then o
    else
      var r := StepOf(o.pos, bars[0], CALM);
      if r.exit.Some? then o.(end := Some(End(r.exit.value, bars[0].time)))
      else Replay(Outcome(r.pos, Some(bars[0].time), None), bars[1..])
  }

  lemma {:induction false} ReplayJoin(o: Outcome, a: seq<Bar>, b: seq<Bar>)
    ensures Replay(o, a + b) == Replay(Replay(o, a), b)
    decreases |a|
  {
    hide StepOf;
    if a == [] {
      assert a + b == b;
    } else if o.end.None? {
      assert (a + b)[1..] == a[1..] + b;
      var r := StepOf(o.pos, a[0], CALM);
      if r.exit.None? {
        ReplayJoin(Outcome(r.pos, Some(a[0].time), None), a[1..], b);
      }
    }
  }

  /** The opening times of the bars the fold steps over, up to the one that ends the position. */
  function Consumed(o: Outcome, bars: seq<Bar>): seq<int>
    decreases |bars|
  {
    if bars == [] || o.end.Some? then []
    else [bars[0].time] + Consumed(Replay(o, [bars[0]]), bars[1..])
  }

  lemma {:induction false} ConsumedJoin(o: Outcome, a: seq<Bar>, b: seq<Bar>)
    ensures Consumed(o, a + b) == Consumed(o, a) + Consumed(Replay(o, a), b)
    decreases |a|
  {
    hide Replay;
    if a == [] {
      assert a + b == b;
      assert Replay(o, a) == o by { ReplayNothing(o); }
    } else if o.end.None? {
      assert (a + b)[1..] == a[1..] + b;
      ConsumedJoin(Replay(o, [a[0]]), a[1..], b);
      assert a == [a[0]] + a[1..];
      ReplayJoin(o, [a[0]], a[1..]);
    } else {
      ReplayEnded(o, a);
    }
  }

  lemma ReplayNothing(o: Outcome)
    ensures Replay(o, []) == o
  {
  }

  lemma ReplayEnded(o: Outcome, bars: seq<Bar>)
    requires o.end.Some?
    ensures Replay(o, bars) == o && Consumed(o, bars) == []
  {
  }

  /** The fold steps over a stretch of bars from the first on, and over all of them while the position lives. */
  lemma {:induction false} ConsumedPrefix(o: Outcome, bars: seq<Bar>)
    ensures var ts := Consumed(o, bars);
      && |ts| <= |bars|
      && (forall i :: 0 <= i < |ts| ==> ts[i] == bars[i].time)
      && (Replay(o, bars).end.None? ==> |ts| == |bars|)
    decreases |bars|
  {
    hide StepOf;
    if bars != [] && o.end.None? {
      ConsumedPrefix(Replay(o, [bars[0]]), bars[1..]);
      assert bars == [bars[0]] + bars[1..];
      ReplayJoin(o, [bars[0]], bars[1..]);
    }
  }

  // ----- agreement of a row with the fold

  /** The position apart from its cooldown marks, which never touch fills. */
  function Core(p: Pos): Pos {
    p.(lastFired := map[])
  }

  predicate Agrees(q: Position, o: Outcome) {
    && Core(FromRow(q)) == Core(o.pos)
    && q.lastBarTime == o.last
    && q.status == match o.end
                   case None => Live
                   case Some(e) =>
                     Closed(e.exit.price, e.at, e.exit.reason, PnL(q.side, q.notional, q.entry, e.exit.price))
  }

  predicate Tied(l: Loop, o: Outcome) {
    && Agrees(l.row, o)
    && l.row.stop > 0.0
    && l.over == o.end.Some?
    && (!l.over ==> Core(l.pos) == Core(o.pos))
  }

  /** The feed reports no ATR, no Supertrend line and no halt; signals may come as they like. */
  predicate CalmMarket(m: Market) {
    m.atr == 0.0 && m.supertrend == 0.0 && !m.halted
  }

  predicate Undisturbed(x: Others) {
    x.before == [] && x.during == []
  }

  predicate CalmVisit(v: Visit) {
    && CalmMarket(v.market)
    && (forall i :: 0 <= i < |v.xs| ==> Undisturbed(v.xs[i]))
    && (forall i :: 0 <= i < |v.ws| ==> v.ws[i].ops == [])
    && v.after == []
  }

  /** Marks and signals decide wakes, never fills. */
  lemma CoreStep(p: Pos, p': Pos, b: Bar, env: Env)
    requires Core(p) == Core(p') && env.atr == 0.0 && env.supertrend == 0.0 && !env.halted
    ensures StepOf(p, b, env).exit == StepOf(p', b, CALM).exit
    ensures StepOf(p, b, env).exit.None? ==>
      Core(StepOf(p, b, env).pos) == Core(StepOf(p', b, CALM).pos)
      && StepOf(p, b, env).pos.stop == p.stop
      && StepOf(p, b, env).pos.lastClose == b.close
  {
    hide Marks, Fired;
  }

  lemma CalmEnv(m: Market, g: Granularity, side: Side, lastBar: Option<int>, entryTime: int, prevBar: int, b: Bar)
    requires |m.bars| > 0 && CalmMarket(m)
    ensures var env := EnvFor(m, g, side, lastBar, entryTime, prevBar, b);
      env.atr == 0.0 && env.supertrend == 0.0 && !env.halted
  {
    hide BecameKnown;
  }

  lemma SaveAgrees(q: Position, p: Pos, time: int, durable: map<Tripwire, int>)
    requires q.status == Live && q.side == p.side && q.entry == p.entry && q.target == p.target && q.plan == p.plan
    requires q.stop == p.stop
    ensures var r := SaveRow(q, SavedOf(p, Some(time), durable));
      && Core(FromRow(r)) == Core(p) && r.lastBarTime == Some(time) && r.status == Live && r.stop == p.stop
      && r.entryTime == q.entryTime
  {
  }

  /** One undisturbed bar keeps the loop tied to the fold. */
  lemma BarTied(l: Loop, m: Market, lastBar: Option<int>, b: Bar, x: Others, o: Outcome)
    requires |m.bars| > 0 && CalmMarket(m) && Undisturbed(x) && Tied(l, o) && !l.over
    ensures Tied(BarStep(l, m, lastBar, b, x), Replay(o, [b]))
  {
    var env := EnvFor(m, l.row.granularity, l.row.side, lastBar, l.row.entryTime, l.prevBar, b);
    CalmEnv(m, l.row.granularity, l.row.side, lastBar, l.row.entryTime, l.prevBar, b);
    CoreStep(l.pos, o.pos, b, env);
    PlanKept(l.pos, b, env);
    hide EnvFor, StepOf, PnL, Stored, Marked;
    var res, out := StepOf(l.pos, b, env), StepOf(o.pos, b, CALM);
    assert [b][0] == b;
    if res.exit.None? {
      var p := res.pos;
      SaveAgrees(l.row, p, b.time, l.durable);
      var saved := SaveRow(l.row, SavedOf(p, Some(b.time), l.durable));
      var durable := Stored(l.durable, res.fired, x.woken, p.lastFired);
      SaveAgrees(saved, p, b.time, durable);
      hide SaveRow;
      assert [b][1..] == [];
    }
  }

  /** The bars of a window that are still to judge. */
  function Unseen(lastBar: Option<int>, entryTime: int, bars: seq<Bar>): seq<Bar> {
    if bars == [] then []
    else (if Judged(lastBar, entryTime, bars[0]) then [bars[0]] else []) + Unseen(lastBar, entryTime, bars[1..])
  }

  lemma {:induction false} LoopTied(l: Loop, m: Market, lastBar: Option<int>, bars: seq<Bar>, xs: seq<Others>,
                                    o: Outcome)
    requires |xs| == |bars| && (|bars| > 0 ==> |m.bars| > 0) && CalmMarket(m) && Tied(l, o)
    requires forall i :: 0 <= i < |xs| ==> Undisturbed(xs[i])
    ensures Tied(RunBars(l, m, lastBar, bars, xs), Replay(o, Unseen(lastBar, l.row.entryTime, bars)))
    ensures JudgedIn(l, m, lastBar, bars, xs) == Consumed(o, Unseen(lastBar, l.row.entryTime, bars))
    decreases |bars|
  {
    hide BarStep, Agrees, Core;
    var e := l.row.entryTime;
    if bars != [] && !l.over {
      var rest := Unseen(lastBar, e, bars[1..]);
      if !Judged(lastBar, e, bars[0]) {
        assert [] + rest == rest;
        LoopTied(l, m, lastBar, bars[1..], xs[1..], o);
      } else {
        BarTied(l, m, lastBar, bars[0], xs[0], o);
        BarMoves(l, m, lastBar, bars[0], xs[0]);
        ReplayJoin(o, [bars[0]], rest);
        assert ([bars[0]] + rest)[1..] == rest;
        LoopTied(BarStep(l, m, lastBar, bars[0], xs[0]), m, lastBar, bars[1..], xs[1..], Replay(o, [bars[0]]));
      }
    }
  }

  // ----- one tick

  lemma {:induction false} SilentTied(l: Loop, m: Market, time: Option<int>, ts: seq<Tripwire>, ws: seq<Wake>,
                                      o: Outcome)
    requires |ws| == |ts| && (forall i :: 0 <= i < |ws| ==> ws[i].ops == [])
    requires Tied(l, o) && !l.over && time == l.row.lastBarTime && Core(FromRow(l.row)) == Core(l.pos)
    ensures Tied(Silent(l, m, time, ts, ws), o)
    decreases |ts|
  {
    hide Stale;
    if ts != [] {
      if !Stale(ts[0], l.pos, m) {
        SilentTied(l, m, time, ts[1..], ws[1..], o);
      } else {
        var d := SilentWake(l, time, ts[0], ws[0]);
        assert Core(FromRow(d.row)) == Core(d.pos);
        SilentTied(d, m, time, ts[1..], ws[1..], o);
      }
    }
  }

  lemma StartTied(q: Position, m: Market, o: Outcome)
    requires Agrees(q, o) && q.status == Live && q.stop > 0.0
    ensures Tied(StartOf(q, m), o) && StartOf(q, m).row.entryTime == q.entryTime
    ensures StartOf(q, m).row.lastBarTime == q.lastBarTime
    ensures Core(FromRow(StartOf(q, m).row)) == Core(StartOf(q, m).pos)
  {
  }

  lemma {:induction false} UnseenNone(lastBar: Option<int>, entryTime: int, bars: seq<Bar>)
    requires forall i :: 0 <= i < |bars| ==> !Judged(lastBar, entryTime, bars[i])
    ensures Unseen(lastBar, entryTime, bars) == []
    decreases |bars|
  {
    if bars != [] {
      UnseenNone(lastBar, entryTime, bars[1..]);
    }
  }

  lemma TickTied(q: Position, v: Visit, o: Outcome)
    requires VisitOk(v) && CalmVisit(v) && Agrees(q, o) && q.stop > 0.0
    ensures var out := if q.status == Live then Replay(o, Unseen(q.lastBarTime, q.entryTime, v.market.bars)) else o;
      Agrees(Visited(q, v), out) && Visited(q, v).stop > 0.0
    ensures TickJudged(q, v) ==
      if q.status == Live then Consumed(o, Unseen(q.lastBarTime, q.entryTime, v.market.bars)) else []
  {
    if q.status == Live {
      var l := StartOf(q, v.market);
      StartTied(q, v.market, o);
      hide StartOf, Agrees, Core;
      if v.market.bars != [] && NothingNew(q, v.market) {
        UnseenNone(q.lastBarTime, q.entryTime, v.market.bars);
        NothingJudged(q, v);
        SilentTied(l, v.market, q.lastBarTime, q.plan.tripwires, Padded(v.ws, |q.plan.tripwires|), o);
      } else {
        LoopTied(l, v.market, q.lastBarTime, v.market.bars, v.xs, o);
      }
    }
  }

  // ----- the whole stream

  /** The first bar that opens at or after a time. */
  function FirstFrom(bars: seq<Bar>, time: int): (n: nat)
    ensures n <= |bars|
    ensures forall i :: 0 <= i < n ==> bars[i].time < time
    ensures n < |bars| ==> bars[n].time >= time
  {
    if bars == [] || bars[0].time >= time then 0 else 1 + FirstFrom(bars[1..], time)
  }

  datatype Range = Range(lo: nat, hi: nat)

  /** Each window is a stretch of the stream that starts no later than the first bar not covered yet. */
  predicate GapFree(stream: seq<Bar>, vs: seq<Visit>, rs: seq<Range>, covered: nat)
    requires |rs| == |vs|
  {
    vs != [] ==>
      && rs[0].lo <= covered && rs[0].lo <= rs[0].hi <= |stream|
      && vs[0].market.bars == stream[rs[0].lo..rs[0].hi]
      && GapFree(stream, vs[1..], rs[1..], Covered(rs[0], covered))
  }

  function Covered(r: Range, covered: nat): nat {
    if r.hi > covered then r.hi else covered
  }

  /** How far into the stream the windows reach together. */
  function Reach(rs: seq<Range>, covered: nat): nat {
    if rs == [] then covered else Reach(rs[1..], Covered(rs[0], covered))
  }

  lemma {:induction false} ReachBounds(stream: seq<Bar>, vs: seq<Visit>, rs: seq<Range>, covered: nat)
    requires |rs| == |vs| && covered <= |stream| && GapFree(stream, vs, rs, covered)
    ensures covered <= Reach(rs, covered) <= |stream|
    decreases |vs|
  {
    if vs != [] {
      ReachBounds(stream, vs[1..], rs[1..], Covered(rs[0], covered));
    }
  }

  /** Bars before the frontier were judged or lie before the entry; the rest are still to judge. */
  predicate Frontier(stream: seq<Bar>, q: Position, n: nat) {
    n <= |stream| && forall i :: 0 <= i < |stream| ==> (Judged(q.lastBarTime, q.entryTime, stream[i]) <==> i >= n)
  }

  lemma {:induction false} UnseenWindow(stream: seq<Bar>, q: Position, n: nat, lo: nat, hi: nat)
    requires Frontier(stream, q, n) && lo <= hi <= |stream| && lo <= n
    ensures Unseen(q.lastBarTime, q.entryTime, stream[lo..hi]) == if n < hi then stream[n..hi] else []
    decreases hi - lo
  {
    if lo < hi {
      var w := stream[lo..hi];
      assert w[0] == stream[lo] && w[1..] == stream[lo + 1..hi];
      if lo < n {
        UnseenWindow(stream, q, n, lo + 1, hi);
      } else {
        UnseenAll(q.lastBarTime, q.entryTime, w);
      }
    }
  }

  lemma {:induction false} UnseenAll(lastBar: Option<int>, entryTime: int, bars: seq<Bar>)
    requires forall i :: 0 <= i < |bars| ==> Judged(lastBar, entryTime, bars[i])
    ensures Unseen(lastBar, entryTime, bars) == bars
    decreases |bars|
  {
    if bars != [] {
      UnseenAll(lastBar, entryTime, bars[1..]);
      assert bars == [bars[0]] + bars[1..];
    }
  }

  lemma {:induction false} ReplayLast(o: Outcome, bars: seq<Bar>)
    requires Replay(o, bars).end.None?
    ensures Replay(o, bars).last == if bars == [] then o.last else Some(bars[|bars| - 1].time)
    decreases |bars|
  {
    hide StepOf;
    if bars != [] {
      ReplayLast(Outcome(StepOf(o.pos, bars[0], CALM).pos, Some(bars[0].time), None), bars[1..]);
    }
  }

  lemma FrontierMoves(stream: seq<Bar>, q: Position, r: Position, n: nat, n': nat)
    requires Ascending(stream) && Frontier(stream, q, n) && r.entryTime == q.entryTime && n <= n' <= |stream|
    requires r.lastBarTime == if n' > n then Some(stream[n' - 1].time) else q.lastBarTime
    ensures Frontier(stream, r, n')
  {
  }

  lemma VisitSameEntry(q: Position, v: Visit)
    requires VisitOk(v) && CalmVisit(v)
    ensures Visited(q, v).entryTime == q.entryTime
  {
    assert AllFair(v.xs) && FairWakes(v.ws) && OtherOps(v.after);
    TickRemembers(q, v);
  }

  lemma {:induction false} LifeAgrees(stream: seq<Bar>, q: Position, vs: seq<Visit>, rs: seq<Range>, n: nat, o: Outcome)
    requires VisitsOk(vs) && |rs| == |vs| && (forall i :: 0 <= i < |vs| ==> CalmVisit(vs[i]))
    requires Ascending(stream) && n <= |stream| && GapFree(stream, vs, rs, n)
    requires Agrees(q, o) && q.stop > 0.0 && (q.status == Live ==> Frontier(stream, q, n))
    ensures n <= Reach(rs, n) <= |stream|
    ensures Agrees(Life(q, vs), Replay(o, stream[n..Reach(rs, n)]))
    ensures AllJudged(q, vs) == Consumed(o, stream[n..Reach(rs, n)])
    decreases |vs|
  {
    hide Agrees, Visited, CalmVisit, Ascending;
    ReachBounds(stream, vs, rs, n);
    if vs == [] {
      assert stream[n..n] == [];
    } else {
      var v, r, c := vs[0], Visited(q, vs[0]), Covered(rs[0], n);
      var unseen := stream[n..c];
      AgreesStatus(q, o);
      TickTied(q, v, o);
      VisitSameEntry(q, v);
      if q.status == Live {
        UnseenWindow(stream, q, n, rs[0].lo, rs[0].hi);
        NextFrontier(stream, q, r, n, c, o);
      } else {
        AgreesStatus(r, o);
      }
      LifeAgrees(stream, r, vs[1..], rs[1..], c, Replay(o, unseen));
      var to := Reach(rs, n);
      assert unseen + stream[c..to] == stream[n..to];
      ReplayJoin(o, unseen, stream[c..to]);
      ConsumedJoin(o, unseen, stream[c..to]);
    }
  }

  lemma AgreesStatus(q: Position, o: Outcome)
    requires Agrees(q, o)
    ensures q.status == Live <==> o.end.None?
    ensures q.lastBarTime == o.last
  {
  }

  lemma NextFrontier(stream: seq<Bar>, q: Position, r: Position, n: nat, c: nat, o: Outcome)
    requires Ascending(stream) && Frontier(stream, q, n) && n <= c <= |stream| && r.entryTime == q.entryTime
    requires Agrees(q, o) && Agrees(r, Replay(o, stream[n..c]))
    ensures r.status == Live ==> Frontier(stream, r, c)
  {
    hide Agrees;
    AgreesStatus(q, o);
    AgreesStatus(r, Replay(o, stream[n..c]));
    if r.status == Live {
      ReplayLast(o, stream[n..c]);
      FrontierMoves(stream, q, r, n, c);
    }
  }

  /** However the windows overlap and wherever ticks fall, as long as no bar is missed: the bars from the
      entry on are judged in order, each exactly once, all of them while the position lives; and the
      row ends with the same exit or the same open state as one fold of the step over the stream. */
  lemma TicksRefineFold(stream: seq<Bar>, q: Position, vs: seq<Visit>, rs: seq<Range>)
    requires VisitsOk(vs) && |rs| == |vs| && (forall i :: 0 <= i < |vs| ==> CalmVisit(vs[i]))
    requires Ascending(stream) && GapFree(stream, vs, rs, FirstFrom(stream, q.entryTime))
    requires q.status == Live && q.lastBarTime.None? && q.stop > 0.0
    ensures var n := FirstFrom(stream, q.entryTime);
      && n <= Reach(rs, n) <= |stream|
      && Agrees(Life(q, vs), Replay(Outcome(FromRow(q), None, None), stream[n..Reach(rs, n)]))
      && JudgesFrom(AllJudged(q, vs), stream, n)
      && (Life(q, vs).status == Live ==> n + |AllJudged(q, vs)| == Reach(rs, n))
  {
    hide Life, Agrees, Replay, AllJudged, FirstFrom, Ascending, GapFree, CalmVisit, VisitsOk, Frontier;
    var n, o := FirstFrom(stream, q.entryTime), Outcome(FromRow(q), None, None);
    StartFrontier(stream, q);
    StartAgrees(q);
    LifeAgrees(stream, q, vs, rs, n, o);
    JudgesPrefix(stream, o, n, Reach(rs, n), Life(q, vs));
  }

  lemma StartFrontier(stream: seq<Bar>, q: Position)
    requires Ascending(stream) && q.lastBarTime.None?
    ensures Frontier(stream, q, FirstFrom(stream, q.entryTime))
  {
  }

  lemma JudgesPrefix(stream: seq<Bar>, o: Outcome, n: nat, to: nat, r: Position)
    requires n <= to <= |stream| && Agrees(r, Replay(o, stream[n..to]))
    ensures var ts := Consumed(o, stream[n..to]);
      JudgesFrom(ts, stream, n) && (r.status == Live ==> n + |ts| == to)
  {
    hide Agrees, Replay, Consumed;
    ConsumedPrefix(o, stream[n..to]);
    AgreesStatus(r, Replay(o, stream[n..to]));
  }

  lemma StartAgrees(q: Position)
    requires q.status == Live && q.lastBarTime.None?
    ensures Agrees(q, Outcome(FromRow(q), None, None))
  {
  }

  /** The judged times are the opening times of the stream's bars from index n on, each once, in order. */
  predicate JudgesFrom(judged: seq<int>, stream: seq<Bar>, n: nat) {
    n + |judged| <= |stream| && forall i :: 0 <= i < |judged| ==> judged[i] == stream[n + i].time
  }
}

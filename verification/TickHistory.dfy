/** The whole service inside the whole system: a tick, with anyone's database steps between its store
    calls, is a stretch of moves, so the bounds hold of every history of ticks. */
module TickHistory {
  import opened Common
  import opened Domain
  import opened Positions
  import RunQueue
  import opened QueueSteps
  import opened QueueTheorems
  import opened MonitorStep
  import opened Service
  import opened ServiceSafety
  import opened Signals
  import opened TimeStop
  import opened BookHistory
  import opened MonitorHistory

  /** Moves, and what others did between them as the row sees it. */
  datatype Stretch<T> = Stretch(moves: seq<Move>, seen: seq<T>)

  const NOTHING := Others([], [], [])

  // ----- the loop over the bars

  ghost function LoopStretch(w: World, id: int, l: Loop, m: Market, lastBar: Option<int>, bars: seq<Bar>,
                             around: seq<Around>, now: int): (s: Stretch<Others>)
    requires Has(w, id) && |around| == |bars| && (|bars| > 0 ==> |m.bars| > 0)
    ensures |s.seen| == |bars|
    decreases |bars|
  {
    hide Inv, RunQueue.Linked;
    if bars == [] then Stretch([], [])
    else if l.over || !Judged(lastBar, l.row.entryTime, bars[0]) then
      var rest := LoopStretch(w, id, l, m, lastBar, bars[1..], around[1..], now);
      Stretch(rest.moves, [NOTHING] + rest.seen)
    else
      var x := SeenAround(w, id, l, m, lastBar, bars[0], now, around[0]);
      var mvs := BarStretch(w, id, l, m, lastBar, bars[0], now, around[0]);
      var rest := LoopStretch(Moves(w, id, mvs), id, BarStep(l, m, lastBar, bars[0], x), m, lastBar, bars[1..],
                              around[1..], now);
      Stretch(mvs + rest.moves, [x] + rest.seen)
  }

  lemma {:induction false} LoopIsMoves(w: World, id: int, l: Loop, m: Market, lastBar: Option<int>, bars: seq<Bar>,
                                       around: seq<Around>, now: int)
    requires InLoop(w, id, l) && |around| == |bars| && (|bars| > 0 ==> |m.bars| > 0)
    ensures var s := LoopStretch(w, id, l, m, lastBar, bars, around, now);
      InLoop(Moves(w, id, s.moves), id, RunBars(l, m, lastBar, bars, s.seen))
    decreases |bars|
  {
    hide Inv, Moves, BarStep, BarStretch, SeenAround, InLoop, Has;
    InLoopHas(w, id, l);
    if bars == [] {
      NoMoves(w, id);
    } else if l.over || !Judged(lastBar, l.row.entryTime, bars[0]) {
      LoopIsMoves(w, id, l, m, lastBar, bars[1..], around[1..], now);
    } else {
      var x := SeenAround(w, id, l, m, lastBar, bars[0], now, around[0]);
      var mvs := BarStretch(w, id, l, m, lastBar, bars[0], now, around[0]);
      BarIsMoves(w, id, l, m, lastBar, bars[0], now, around[0]);
      var d := BarStep(l, m, lastBar, bars[0], x);
      LoopIsMoves(Moves(w, id, mvs), id, d, m, lastBar, bars[1..], around[1..], now);
      MovesJoin(w, id, mvs, LoopStretch(Moves(w, id, mvs), id, d, m, lastBar, bars[1..], around[1..], now).moves);
    }
  }

  lemma InLoopHas(w: World, id: int, l: Loop)
    requires InLoop(w, id, l)
    ensures Has(w, id)
  {
  }

  // ----- the tripwires on a stale feed

  /** Whether the wake of a stale feed went through, and what others did meanwhile, in database steps. */
  datatype StaleWake = StaleWake(enqueued: bool, ops: seq<RunQueue.Op>)

  ghost function WakeStretch(durable: map<Tripwire, int>, time: Option<int>, a: StaleWake): seq<Move> {
    OthersMoves(a.ops) + if a.enqueued then [StoreMarks(durable, time)] else []
  }

  ghost function SilentStretch(w: World, id: int, l: Loop, m: Market, time: Option<int>, ts: seq<Tripwire>,
                               wakes: seq<StaleWake>): (s: Stretch<Wake>)
    requires Has(w, id) && |wakes| == |ts|
    ensures |s.seen| == |ts|
    decreases |ts|
  {
    if ts == [] then Stretch([], [])
    else if !Stale(ts[0], l.pos, m) then
      var rest := SilentStretch(w, id, l, m, time, ts[1..], wakes[1..]);
      Stretch(rest.moves, [Wake(false, [])] + rest.seen)
    else
      var x := Wake(wakes[0].enqueued, RowHistoryOf(w.db, wakes[0].ops, id));
      var mvs := WakeStretch(l.durable[ts[0] := l.pos.barsHeld], time, wakes[0]);
      var rest := SilentStretch(Moves(w, id, mvs), id, SilentWake(l, time, ts[0], x), m, time, ts[1..], wakes[1..]);
      Stretch(mvs + rest.moves, [x] + rest.seen)
  }

  /** The monitor is at this point of the tripwires: its position but for the marks is the one in memory. */
  ghost predicate InSilence(w: World, id: int, l: Loop) {
    && Has(w, id) && w.db.positions[id] == l.row && w.memory.Some?
    && l.pos == w.memory.value.(lastFired := l.pos.lastFired)
  }

  lemma InSilenceHas(w: World, id: int, l: Loop)
    requires InSilence(w, id, l)
    ensures Has(w, id)
  {
  }

  lemma WakeIsMoves(w: World, id: int, l: Loop, time: Option<int>, t: Tripwire, a: StaleWake)
    requires InSilence(w, id, l)
    ensures InSilence(Moves(w, id, WakeStretch(l.durable[t := l.pos.barsHeld], time, a)), id,
                      SilentWake(l, time, t, Wake(a.enqueued, RowHistoryOf(w.db, a.ops, id))))
  {
    hide Inv, Exec, RunRow, RowHistoryOf, Moves, OthersMoves, SaveRow, Moved;
    var durable := l.durable[t := l.pos.barsHeld];
    var u := Moves(w, id, OthersMoves(a.ops));
    OthersRow(w, id, a.ops);
    if a.enqueued {
      MovesJoin(w, id, OthersMoves(a.ops), [StoreMarks(durable, time)]);
      OneMove(u, id, StoreMarks(durable, time));
      MarksWorld(u, id, durable, time);
    } else {
      assert OthersMoves(a.ops) + [] == OthersMoves(a.ops);
    }
  }

  lemma {:induction false} SilentIsMoves(w: World, id: int, l: Loop, m: Market, time: Option<int>, ts: seq<Tripwire>,
                                         wakes: seq<StaleWake>)
    requires InSilence(w, id, l) && |wakes| == |ts|
    ensures var s := SilentStretch(w, id, l, m, time, ts, wakes);
      InSilence(Moves(w, id, s.moves), id, Silent(l, m, time, ts, s.seen))
    decreases |ts|
  {
    hide Inv, Moves, SilentWake, WakeStretch, Stale, InSilence, Has;
    InSilenceHas(w, id, l);
    if ts == [] {
      NoMoves(w, id);
    } else if !Stale(ts[0], l.pos, m) {
      SilentIsMoves(w, id, l, m, time, ts[1..], wakes[1..]);
    } else {
      var x := Wake(wakes[0].enqueued, RowHistoryOf(w.db, wakes[0].ops, id));
      var mvs := WakeStretch(l.durable[ts[0] := l.pos.barsHeld], time, wakes[0]);
      WakeIsMoves(w, id, l, time, ts[0], wakes[0]);
      var d := SilentWake(l, time, ts[0], x);
      SilentIsMoves(Moves(w, id, mvs), id, d, m, time, ts[1..], wakes[1..]);
      MovesJoin(w, id, mvs, SilentStretch(Moves(w, id, mvs), id, d, m, time, ts[1..], wakes[1..]).moves);
    }
  }

  // ----- one tick

  /** One tick: the feed, the host clock, and what others do around each bar and each stale wake. */
  datatype Tick = Tick(market: Market, now: int, around: seq<Around>, wakes: seq<StaleWake>) {
    predicate Ok() {
      |around| == |market.bars|
    }
  }

  /** A tripwire the list does not reach was not enqueued. */
  function Listed(wakes: seq<StaleWake>, n: nat): seq<StaleWake> {
    seq(n, i requires 0 <= i < n => if i < |wakes| then wakes[i] else StaleWake(false, []))
  }

  /** The monitor loads the row and asks the operator to look if it must. */
  function OpeningMoves(id: int, q: Position, t: Tick): seq<Move> {
    [Load] + OthersMoves(WarningsOf(id, q, t))
  }

  function WarningsOf(id: int, q: Position, t: Tick): seq<RunQueue.Op> {
    var warning := [RunQueue.RaiseAttention(id, t.now)];
    (if Gap(q, t.market) then warning else []) + if Unplaced(q) then warning else []
  }

  ghost function Opening(w: World, id: int, t: Tick): (v: World)
    requires Has(w, id)
    ensures Has(v, id)
  {
    Moves(w, id, OpeningMoves(id, w.db.positions[id], t))
  }

  /** The bars of the tick, or the tripwires when there is no new bar. */
  datatype TickRun = TickRun(moves: seq<Move>, xs: seq<Others>, ws: seq<Wake>)

  ghost function TickStretch(w: World, id: int, t: Tick): (r: TickRun)
    requires Has(w, id) && t.Ok()
    ensures |r.xs| == |t.market.bars|
  {
    var q, m := w.db.positions[id], t.market;
    var none := seq(|m.bars|, i => NOTHING);
    var l, u := StartOf(q, m), Opening(w, id, t);
    if q.status != Live then TickRun([], none, [])
    else if m.bars != [] && NothingNew(q, m) then
      var s := SilentStretch(u, id, l, m, q.lastBarTime, q.plan.tripwires, Listed(t.wakes, |q.plan.tripwires|));
      TickRun(OpeningMoves(id, q, t) + s.moves, none, s.seen)
    else
      var s := LoopStretch(u, id, l, m, q.lastBarTime, m.bars, t.around, t.now);
      TickRun(OpeningMoves(id, q, t) + s.moves, s.seen, [])
  }

  lemma WarnedOnce(db: RunQueue.Db, id: int, op: RunQueue.Op)
    requires Inv(db) && RunQueue.Linked(db) && id in db.positions && op.RaiseAttention? && op.position == id
    ensures Inv(RunQueue.Apply(db, op)) && id in RunQueue.Apply(db, op).positions
    ensures RunQueue.Apply(db, op).positions[id] == ApplyRow(db.positions[id], Attention)
  {
    hide Inv, RunQueue.Linked, RunQueue.Apply, RunRow, ApplyRow, Evolves;
    StepKeeps(db, op);
    StepRows(db, op, id);
    OneOp(db.positions[id], Attention);
  }

  lemma {:induction false} WarnedRow(db: RunQueue.Db, id: int, ops: seq<RunQueue.Op>)
    requires Inv(db) && id in db.positions
    requires forall op <- ops :: op.RaiseAttention? && op.position == id
    ensures id in Exec(db, ops).positions
    ensures Exec(db, ops).positions[id] == if ops == [] then db.positions[id] else ApplyRow(db.positions[id], Attention)
    decreases |ops|
  {
    hide Inv, RunQueue.Linked, RunQueue.Apply, Evolves;
    if ops != [] {
      LinkedOf(db);
      WarnedOnce(db, id, ops[0]);
      WarnedRow(RunQueue.Apply(db, ops[0]), id, ops[1..]);
    }
  }

  /** The loop starts from the position as loaded. */
  lemma OpeningStart(w: World, id: int, t: Tick)
    requires Has(w, id) && w.db.positions[id].status == Live
    ensures var q := w.db.positions[id];
      InLoop(Opening(w, id, t), id, StartOf(q, t.market)) && InSilence(Opening(w, id, t), id, StartOf(q, t.market))
  {
    hide Inv, Moves, ApplyRow, Exec, OthersMoves, Gap, Unplaced;
    var q := w.db.positions[id];
    var u := Moves(w, id, [Load]);
    OneMove(w, id, Load);
    assert u == World(w.db, Some(FromRow(q)));
    var ops := WarningsOf(id, q, t);
    MovesJoin(w, id, [Load], OthersMoves(ops));
    OthersRun(u, id, ops);
    WarnedRow(w.db, id, ops);
  }

  lemma PaddedSeen(ws: seq<Wake>)
    ensures Padded(ws, |ws|) == ws
  {
  }

  /** A tick of the service, with anyone's database steps between its store calls, is such a stretch:
      the stored row comes out as the service leaves it. */
  lemma TickIsMoves(w: World, id: int, t: Tick)
    requires Has(w, id) && t.Ok()
    ensures var r := TickStretch(w, id, t);
      Moves(w, id, r.moves).db.positions[id] == TickRow(w.db.positions[id], t.market, r.xs, r.ws)
  {
    hide Inv, Moves, StartOf, RunBars, Silent, NothingNew, LoopStretch, SilentStretch, Listed, Padded, OpeningMoves;
    var q, m := w.db.positions[id], t.market;
    if q.status == Live {
      var l, u := StartOf(q, m), Opening(w, id, t);
      OpeningStart(w, id, t);
      if m.bars != [] && NothingNew(q, m) {
        var wakes := Listed(t.wakes, |q.plan.tripwires|);
        ListedAll(t.wakes, |q.plan.tripwires|);
        var s := SilentStretch(u, id, l, m, q.lastBarTime, q.plan.tripwires, wakes);
        SilentIsMoves(u, id, l, m, q.lastBarTime, q.plan.tripwires, wakes);
        MovesJoin(w, id, OpeningMoves(id, q, t), s.moves);
        PaddedSeen(s.seen);
      } else {
        var s := LoopStretch(u, id, l, m, q.lastBarTime, m.bars, t.around, t.now);
        LoopIsMoves(u, id, l, m, q.lastBarTime, m.bars, t.around, t.now);
        MovesJoin(w, id, OpeningMoves(id, q, t), s.moves);
      }
    } else {
      NoMoves(w, id);
    }
  }

  lemma ListedAll(wakes: seq<StaleWake>, n: nat)
    ensures |Listed(wakes, n)| == n
  {
  }

  // ----- a fair tick makes only allowed moves

  predicate ByOthers(ops: seq<RunQueue.Op>, id: int) {
    forall op <- ops :: !ByMonitor(op, id)
  }

  /** No one else poses as the monitor of this position. */
  predicate FairAround(a: Around, id: int) {
    ByOthers(a.before, id) && ByOthers(a.during, id)
  }

  predicate FairTick(t: Tick, id: int) {
    && t.Ok()
    && (forall k :: 0 <= k < |t.around| ==> FairAround(t.around[k], id))
    && (forall k :: 0 <= k < |t.wakes| ==> ByOthers(t.wakes[k].ops, id))
  }

  lemma {:induction false} AllowedJoin(w: World, id: int, a: seq<Move>, b: seq<Move>)
    requires Has(w, id) && AllAllowed(w, id, a) && AllAllowed(Moves(w, id, a), id, b)
    ensures AllAllowed(w, id, a + b)
    decreases |a|
  {
    hide Has, Moved, Allowed;
    if a == [] {
      assert a + b == b;
    } else {
      assert (a + b)[0] == a[0] && (a + b)[1..] == a[1..] + b;
      AllowedJoin(Moved(w, id, a[0]), id, a[1..], b);
    }
  }

  lemma NoneAllowed(w: World, id: int)
    requires Has(w, id)
    ensures AllAllowed(w, id, [])
  {
    hide Has;
  }

  lemma OneAllowed(w: World, id: int, mv: Move)
    requires Has(w, id) && Allowed(w, id, mv)
    ensures AllAllowed(w, id, [mv])
  {
    hide Has, Moved, Allowed;
    assert [mv][1..] == [];
  }

  lemma {:induction false} OthersAllowed(w: World, id: int, ops: seq<RunQueue.Op>)
    requires Has(w, id) && ByOthers(ops, id)
    ensures AllAllowed(w, id, OthersMoves(ops))
    decreases |ops|
  {
    hide Has, Moved;
    if ops == [] {
      NoneAllowed(w, id);
    } else {
      assert OthersMoves(ops)[0] == Other(ops[0]) && OthersMoves(ops)[1..] == OthersMoves(ops[1..]);
      OthersAllowed(Moved(w, id, Other(ops[0])), id, ops[1..]);
    }
  }

  lemma MarksAllowed(w: World, id: int, ops: seq<RunQueue.Op>, stores: bool, marks: map<Tripwire, int>,
                     time: Option<int>)
    requires Has(w, id) && ByOthers(ops, id)
    ensures AllAllowed(w, id, OthersMoves(ops) + if stores then [StoreMarks(marks, time)] else [])
  {
    hide Has, Moves, AllAllowed, ByOthers;
    var u := Moves(w, id, OthersMoves(ops));
    OthersAllowed(w, id, ops);
    if stores {
      OneAllowed(u, id, StoreMarks(marks, time));
    } else {
      NoneAllowed(u, id);
    }
    AllowedJoin(w, id, OthersMoves(ops), if stores then [StoreMarks(marks, time)] else []);
  }

  lemma BarAllowed(w: World, id: int, l: Loop, m: Market, lastBar: Option<int>, b: Bar, now: int, a: Around)
    requires |m.bars| > 0 && InLoop(w, id, l) && !l.over && InsideBar(l, b) && FairAround(a, id)
    ensures AllAllowed(w, id, BarStretch(w, id, l, m, lastBar, b, now, a))
  {
    hide Inv, Moves, OthersMoves, AllAllowed, StepOf, LoopEnv, ByOthers, BarOk, OpensInside, RunRow, RowHistoryOf, Exec,
         Marked, Stored;
    var env := LoopEnv(l, m, lastBar, b);
    var mv := JudgeBar(b, env, l.durable, now);
    var u := Moves(w, id, OthersMoves(a.before));
    OthersAllowed(w, id, a.before);
    OthersRow(w, id, a.before);
    OneAllowed(u, id, mv);
    AllowedJoin(w, id, OthersMoves(a.before), [mv]);
    var judged := JudgedWorld(w, id, b, env, l.durable, now, a.before);
    TailAllowed(judged, id, b, StepOf(l.pos, b, env).fired, l.durable, a.during, a.woken);
    AllowedJoin(w, id, OthersMoves(a.before) + [mv],
                TailMoves(judged.memory, b, StepOf(l.pos, b, env).fired, l.durable, a.during, a.woken));
  }

  lemma TailAllowed(w: World, id: int, b: Bar, fired: seq<Tripwire>, durable: map<Tripwire, int>,
                    during: seq<RunQueue.Op>, woken: seq<bool>)
    requires Has(w, id) && ByOthers(during, id)
    ensures AllAllowed(w, id, TailMoves(w.memory, b, fired, durable, during, woken))
  {
    hide Has, OthersMoves, AllAllowed, ByOthers, Marked, Stored;
    if w.memory.None? {
      NoneAllowed(w, id);
    } else {
      MarksAllowed(w, id, during, Marked(|fired|, woken), Stored(durable, fired, woken, w.memory.value.lastFired),
                   Some(b.time));
    }
  }

  lemma {:induction false} LoopAllowed(w: World, id: int, l: Loop, m: Market, lastBar: Option<int>, bars: seq<Bar>,
                                       around: seq<Around>, now: int)
    requires InLoop(w, id, l) && |around| == |bars| && (|bars| > 0 ==> |m.bars| > 0)
    requires forall k :: 0 <= k < |around| ==> FairAround(around[k], id)
    requires Inside(l, m, lastBar, bars, LoopStretch(w, id, l, m, lastBar, bars, around, now).seen)
    ensures AllAllowed(w, id, LoopStretch(w, id, l, m, lastBar, bars, around, now).moves)
    decreases |bars|
  {
    hide Inv, Moves, BarStep, BarStretch, SeenAround, InLoop, Has, AllAllowed, FairAround, InsideBar;
    InLoopHas(w, id, l);
    if bars == [] {
      NoneAllowed(w, id);
    } else if l.over || !Judged(lastBar, l.row.entryTime, bars[0]) {
      if l.over {
        OverInside(l, m, lastBar, bars[1..], LoopStretch(w, id, l, m, lastBar, bars[1..], around[1..], now).seen);
      }
      LoopAllowed(w, id, l, m, lastBar, bars[1..], around[1..], now);
    } else {
      var x := SeenAround(w, id, l, m, lastBar, bars[0], now, around[0]);
      var mvs := BarStretch(w, id, l, m, lastBar, bars[0], now, around[0]);
      var d, v := BarStep(l, m, lastBar, bars[0], x), Moves(w, id, mvs);
      BarIsMoves(w, id, l, m, lastBar, bars[0], now, around[0]);
      BarAllowed(w, id, l, m, lastBar, bars[0], now, around[0]);
      LoopAllowed(v, id, d, m, lastBar, bars[1..], around[1..], now);
      AllowedJoin(w, id, mvs, LoopStretch(v, id, d, m, lastBar, bars[1..], around[1..], now).moves);
    }
  }

  lemma OverInside(l: Loop, m: Market, lastBar: Option<int>, bars: seq<Bar>, xs: seq<Others>)
    requires |xs| == |bars| && (|bars| > 0 ==> |m.bars| > 0) && l.over
    ensures Inside(l, m, lastBar, bars, xs)
  {
  }

  lemma {:induction false} SilentAllowed(w: World, id: int, l: Loop, m: Market, time: Option<int>, ts: seq<Tripwire>,
                                         wakes: seq<StaleWake>)
    requires InSilence(w, id, l) && |wakes| == |ts| && forall k :: 0 <= k < |wakes| ==> ByOthers(wakes[k].ops, id)
    ensures AllAllowed(w, id, SilentStretch(w, id, l, m, time, ts, wakes).moves)
    decreases |ts|
  {
    hide Inv, Moves, SilentWake, Stale, InSilence, Has, AllAllowed, ByOthers, OthersMoves;
    InSilenceHas(w, id, l);
    if ts == [] {
      NoneAllowed(w, id);
    } else if !Stale(ts[0], l.pos, m) {
      SilentAllowed(w, id, l, m, time, ts[1..], wakes[1..]);
    } else {
      var x := Wake(wakes[0].enqueued, RowHistoryOf(w.db, wakes[0].ops, id));
      var durable := l.durable[ts[0] := l.pos.barsHeld];
      var mvs := WakeStretch(durable, time, wakes[0]);
      var d, v := SilentWake(l, time, ts[0], x), Moves(w, id, mvs);
      WakeIsMoves(w, id, l, time, ts[0], wakes[0]);
      MarksAllowed(w, id, wakes[0].ops, wakes[0].enqueued, durable, time);
      SilentAllowed(v, id, d, m, time, ts[1..], wakes[1..]);
      AllowedJoin(w, id, mvs, SilentStretch(v, id, d, m, time, ts[1..], wakes[1..]).moves);
    }
  }

  lemma OpeningAllowed(w: World, id: int, t: Tick)
    requires Has(w, id)
    ensures AllAllowed(w, id, OpeningMoves(id, w.db.positions[id], t))
  {
    hide Inv, Moves, AllAllowed, OthersMoves, Gap, Unplaced;
    var ops := WarningsOf(id, w.db.positions[id], t);
    OneAllowed(w, id, Load);
    OthersAllowed(Moves(w, id, [Load]), id, ops);
    AllowedJoin(w, id, [Load], OthersMoves(ops));
  }

  /** The tick as a visit to the row. */
  ghost function SeenTick(w: World, id: int, t: Tick): Visit
    requires Has(w, id) && t.Ok()
  {
    Visit(t.market, TickStretch(w, id, t).xs, TickStretch(w, id, t).ws, [])
  }

  lemma TickAllowed(w: World, id: int, t: Tick)
    requires Has(w, id) && FairTick(t, id) && InsideTick(w.db.positions[id], SeenTick(w, id, t))
    ensures AllAllowed(w, id, TickStretch(w, id, t).moves)
  {
    hide Inv, Moves, StartOf, Inside, NothingNew, LoopStretch, SilentStretch, Listed, OpeningMoves, AllAllowed,
         FairAround, ByOthers;
    var q, m := w.db.positions[id], t.market;
    if q.status == Live {
      var l, u := StartOf(q, m), Opening(w, id, t);
      OpeningStart(w, id, t);
      OpeningAllowed(w, id, t);
      if m.bars != [] && NothingNew(q, m) {
        var wakes := Listed(t.wakes, |q.plan.tripwires|);
        ListedFair(t.wakes, |q.plan.tripwires|, id);
        SilentAllowed(u, id, l, m, q.lastBarTime, q.plan.tripwires, wakes);
        AllowedJoin(w, id, OpeningMoves(id, q, t),
                    SilentStretch(u, id, l, m, q.lastBarTime, q.plan.tripwires, wakes).moves);
      } else {
        LoopAllowed(u, id, l, m, q.lastBarTime, m.bars, t.around, t.now);
        AllowedJoin(w, id, OpeningMoves(id, q, t),
                    LoopStretch(u, id, l, m, q.lastBarTime, m.bars, t.around, t.now).moves);
      }
    } else {
      NoneAllowed(w, id);
    }
  }

  lemma ListedFair(wakes: seq<StaleWake>, n: nat, id: int)
    requires forall k :: 0 <= k < |wakes| ==> ByOthers(wakes[k].ops, id)
    ensures |Listed(wakes, n)| == n && forall k :: 0 <= k < n ==> ByOthers(Listed(wakes, n)[k].ops, id)
  {
  }

  // ----- histories of ticks

  /** What happens next: a step of anyone else, or a tick of the monitor. */
  datatype Event = Step(op: RunQueue.Op) | Ticked(tick: Tick)

  /** Others do not pose as the monitor; a judged bar is well formed and opens inside the stop in force. */
  ghost predicate FairEvent(w: World, id: int, e: Event)
    requires Has(w, id)
  {
    match e
    case Step(op) => !ByMonitor(op, id)
    case Ticked(t) => FairTick(t, id) && InsideTick(w.db.positions[id], SeenTick(w, id, t))
  }

  ghost function EventMoves(w: World, id: int, e: Event): seq<Move>
    requires Has(w, id) && FairEvent(w, id, e)
  {
    match e
    case Step(op) => [Other(op)]
    case Ticked(t) => TickStretch(w, id, t).moves
  }

  ghost predicate FairHistory(w: World, id: int, es: seq<Event>)
    requires Has(w, id)
    decreases |es|
  {
    es != [] ==> FairEvent(w, id, es[0]) && FairHistory(Moves(w, id, EventMoves(w, id, es[0])), id, es[1..])
  }

  /** The system after the events. */
  ghost function After(w: World, id: int, es: seq<Event>): (v: World)
    requires Has(w, id) && FairHistory(w, id, es)
    ensures Has(v, id)
    decreases |es|
  {
    if es == [] then w else After(Moves(w, id, EventMoves(w, id, es[0])), id, es[1..])
  }

  lemma EventAllowed(w: World, id: int, e: Event)
    requires Has(w, id) && FairEvent(w, id, e)
    ensures AllAllowed(w, id, EventMoves(w, id, e))
  {
    hide Has, AllAllowed, FairTick, InsideTick, TickStretch;
    match e
    case Step(op) => OneAllowed(w, id, Other(op));
    case Ticked(t) => TickAllowed(w, id, t);
  }

  lemma {:induction false} EventsKeep(w: World, id: int, es: seq<Event>)
    requires Has(w, id) && SaneWorld(w, id) && FairHistory(w, id, es)
    ensures Keeps(w, After(w, id, es), id)
    decreases |es|
  {
    hide Inv, Sane, RowEvolves, FairEvent, EventMoves, Moves, AllAllowed;
    if es == [] {
      RowEvolvesSelf(w.db.positions[id]);
    } else {
      var v := Moves(w, id, EventMoves(w, id, es[0]));
      EventAllowed(w, id, es[0]);
      HistoryKeeps(w, id, EventMoves(w, id, es[0]));
      EventsKeep(v, id, es[1..]);
      RowEvolvesTransitive(w.db.positions[id], v.db.positions[id], After(v, id, es[1..]).db.positions[id]);
    }
  }

  /** In every history of ticks and of anyone's steps, between the ticks or between their store calls,
      from a sound row on: the trade never changes, a close by the monitor books at least the result at
      the initial stop, and an open row has been held for fewer bars than its time stop. */
  lemma TicksLossBound(db: RunQueue.Db, id: int, es: seq<Event>)
    requires Inv(db) && id in db.positions && Sound(db.positions[id]) && Timely(db.positions[id])
    requires FairHistory(World(db, None), id, es)
    ensures var q, r := db.positions[id], After(World(db, None), id, es).db.positions[id];
      && RowEvolves(q, r) && Timely(r) && RowInv(r)
      && (r.status.Closed? && !r.status.reason.AgentClose? ==>
            r.status.realized >= PnL(q.side, q.notional, q.entry, q.initialStop))
  {
    hide Inv, FairHistory, After, PnL, Closer;
    EventsKeep(World(db, None), id, es);
  }
}

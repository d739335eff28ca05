/** The monitor's catch-up loop over one shadow position. The row is shared: between any two store
    calls of the loop, other actors may tighten, rewire, close or count on it. */
module Service {
  import opened Common
  import opened Domain
  import opened Positions
  import opened MonitorStep

  // ----- the feed

  datatype Signal = Signal(time: int, dir: int)

  /** The stale minutes are the age of the newest bar when the tick looks. */
  datatype Market = Market(bars: seq<Bar>, atr: real, supertrend: real, halted: bool,
                           flips: seq<Signal>, impulses: seq<Signal>, staleMinutes: real)

  /** The first bar to judge opens at or after the entry; later ticks go on after the last judged bar. */
  predicate Judged(lastBar: Option<int>, entryTime: int, b: Bar) {
    if lastBar.Some? then b.time > lastBar.value else b.time >= entryTime
  }

  /** Signals known at or before this time were counted on an earlier bar. */
  function PrevEnd(lastBar: Option<int>, entryTime: int, prevBar: int): int {
    if lastBar.None? && prevBar == entryTime then entryTime else prevBar + MINUTE
  }

  /** A signal is known when its candle closes, and counts on the one bar during which that happens. */
  predicate BecameKnown(known: int, lastBar: Option<int>, entryTime: int, prevBar: int, b: Bar) {
    PrevEnd(lastBar, entryTime, prevBar) < known <= b.time + MINUTE && known > entryTime
  }

  function Direction(side: Side): int {
    if side.Short? then -1 else 1
  }

  /** ATR, the Supertrend line and the kill switch are known as of now, so only the newest bar gets them. */
  function EnvFor(m: Market, g: Granularity, side: Side, lastBar: Option<int>, entryTime: int, prevBar: int,
                  b: Bar): Env
    requires |m.bars| > 0
  {
    var newest := b.time == m.bars[|m.bars| - 1].time;
    var candle := Duration(g);
    var flip := candle.Some? && exists f <- m.flips ::
      f.dir == -Direction(side) && BecameKnown(f.time + candle.value, lastBar, entryTime, prevBar, b);
    var impulse := candle.Some? && exists f <- m.impulses ::
      BecameKnown(f.time + candle.value, lastBar, entryTime, prevBar, b);
    Env(if newest then m.atr else 0.0, if newest then m.supertrend else 0.0, newest && m.halted, flip, impulse,
        false, 0.0)
  }

  // ----- one position, one bar

  function FromRow(q: Position): Pos {
    Pos(q.side, q.entry, q.stop, q.target, q.plan, q.barsHeld, q.best, q.lastClose, q.lastFired)
  }

  /** What others do to the row around one judged bar: before the close or save, and while the
      fired tripwires wake the agent; and which of those wakes could be enqueued. */
  datatype Others = Others(before: seq<RowOp>, during: seq<RowOp>, woken: seq<bool>)

  /** The loop's state: the stored row, the position in memory, the marks that are stored. */
  datatype Loop = Loop(row: Position, pos: Pos, durable: map<Tripwire, int>, prevBar: int, over: bool)

  function Stored(durable: map<Tripwire, int>, fired: seq<Tripwire>, woken: seq<bool>, marks: map<Tripwire,
                  int>): map<Tripwire, int> {
    if fired == [] then durable
    else
      var n := |fired| - 1;
      var before := Stored(durable, fired[..n], woken, marks);
      if n < |woken| && woken[n] && fired[n] in marks then before[fired[n] := marks[fired[n]]] else before
  }

  /** Some fired tripwire's wake went through. */
  predicate Marked(n: nat, woken: seq<bool>) {
    exists k :: 0 <= k < n && k < |woken| && woken[k]
  }

  function SavedOf(p: Pos, time: Option<int>, durable: map<Tripwire, int>): Saved {
    Saved(p.stop, p.barsHeld, p.best, p.lastClose, time, durable)
  }

  /** A bar that did not end the trade: the state is saved, the recorded stop adopted, the agent woken. */
  function AfterSave(l: Loop, row: Position, res: Result, b: Bar, x: Others): Loop {
    var saved := SaveRow(row, SavedOf(res.pos, Some(b.time), l.durable));
    if row.status != Live || saved.stop == 0.0 then Loop(saved, res.pos, l.durable, b.time, true)
    else
      var pos := res.pos.(stop := CloserOf(res.pos.side, res.pos.stop, saved.stop));
      var durable := Stored(l.durable, res.fired, x.woken, pos.lastFired);
      var after := RunRow(saved, x.during);
      Loop(if Marked(|res.fired|, x.woken) then SaveRow(after, SavedOf(pos, Some(b.time), durable)) else after,
           pos, durable, b.time, false)
  }

  function BarStep(l: Loop, m: Market, lastBar: Option<int>, b: Bar, x: Others): Loop
    requires |m.bars| > 0
  {
    var res := StepOf(l.pos, b, EnvFor(m, l.row.granularity, l.row.side, lastBar, l.row.entryTime, l.prevBar, b));
    var row := RunRow(l.row, x.before);
    if res.exit.Some? then
      Loop(CloseRow(row, res.exit.value.price, b.time, res.exit.value.reason), res.pos, l.durable, b.time, true)
    else AfterSave(l, row, res, b, x)
  }

  function RunBars(l: Loop, m: Market, lastBar: Option<int>, bars: seq<Bar>, xs: seq<Others>): Loop
    requires |xs| == |bars| && (|bars| > 0 ==> |m.bars| > 0)
    decreases |bars|
  {
    if bars == [] || l.over then l
    else if !Judged(lastBar, l.row.entryTime, bars[0]) then RunBars(l, m, lastBar, bars[1..], xs[1..])
    else RunBars(BarStep(l, m, lastBar, bars[0], xs[0]), m, lastBar, bars[1..], xs[1..])
  }

  function PrevBarOf(q: Position): int {
    q.lastBarTime.GetOr(q.entryTime)
  }

  /** The feed no longer serves the bars in between. */
  predicate Gap(q: Position, m: Market) {
    |m.bars| > 0 && m.bars[0].time > PrevBarOf(q) + MINUTE
  }

  /** Flips and impulses have no candle close, and the operator was not yet told. */
  predicate Unplaced(q: Position) {
    Duration(q.granularity).None? && !q.needsAttention
  }

  /** Either asks the operator to look. */
  function Warned(q: Position, m: Market): Position {
    if Gap(q, m) || Unplaced(q) then ApplyRow(q, Attention) else q
  }

  function StartOf(q: Position, m: Market): Loop {
    Loop(Warned(q, m), FromRow(q), q.lastFired, PrevBarOf(q), false)
  }

  /** Whether the wake of a stale feed went through, and what others did to the row meanwhile. */
  datatype Wake = Wake(enqueued: bool, ops: seq<RowOp>)

  /** A silent feed still matters: feed_stale tripwires look at the age of the newest complete bar. */
  predicate Stale(t: Tripwire, p: Pos, m: Market) {
    t.kind.FeedStale? && m.staleMinutes >= t.minutes as real && !Cooling(p.lastFired, t, p.barsHeld)
  }

  function Silent(l: Loop, m: Market, time: Option<int>, ts: seq<Tripwire>, ws: seq<Wake>): Loop
    requires |ws| == |ts|
    decreases |ts|
  {
    if ts == [] then l
    else if !Stale(ts[0], l.pos, m) then Silent(l, m, time, ts[1..], ws[1..])
    else Silent(SilentWake(l, time, ts[0], ws[0]), m, time, ts[1..], ws[1..])
  }

  function SilentWake(l: Loop, time: Option<int>, t: Tripwire, w: Wake): Loop {
    var pos := l.pos.(lastFired := l.pos.lastFired[t := l.pos.barsHeld]);
    var row := RunRow(l.row, w.ops);
    if w.enqueued then
      var durable := l.durable[t := pos.barsHeld];
      l.(row := SaveRow(row, SavedOf(pos, time, durable)), pos := pos, durable := durable)
    else l.(row := row, pos := pos)
  }

  /** A tripwire the list does not reach was not enqueued. */
  function Padded(ws: seq<Wake>, n: nat): seq<Wake> {
    seq(n, i requires 0 <= i < n => if i < |ws| then ws[i] else Wake(false, []))
  }

  predicate NothingNew(q: Position, m: Market) {
    forall i :: 0 <= i < |m.bars| ==> !Judged(q.lastBarTime, q.entryTime, m.bars[i])
  }

  /** The row after one tick. */
  function TickRow(q: Position, m: Market, xs: seq<Others>, ws: seq<Wake>): Position
    requires |xs| == |m.bars|
  {
    if q.status != Live then q
    else if m.bars != [] && NothingNew(q, m) then
      Silent(StartOf(q, m), m, q.lastBarTime, q.plan.tripwires, Padded(ws, |q.plan.tripwires|)).row
    else RunBars(StartOf(q, m), m, q.lastBarTime, m.bars, xs).row
  }

  /** The service over the stored row of one position. */
  class Service {
    var row: Position

    constructor (q: Position)
      ensures row == q
    {
      row := q;
    }

    /** Some other actor's transactions on the row. */
    method Interfere(ops: seq<RowOp>)
      modifies this
      ensures row == RunRow(old(row), ops)
    {
      for k := 0 to |ops|
        invariant RunRow(row, ops[k..]) == RunRow(old(row), ops)
      {
        row := ApplyRow(row, ops[k]);
        assert ops[k..][1..] == ops[k + 1..];
      }
    }

    /** Replays the completed bars the position has not seen, one at a time. */
    method Advance(m: Market, xs: seq<Others>, ws: seq<Wake>)
      requires |xs| == |m.bars| && row.status == Live
      modifies this
      ensures row == TickRow(old(row), m, xs, ws)
    {
      hide StepOf, EnvFor, Stored, RunRow, SaveRow, CloseRow, Silent;
      var q := row;
      var pos, durable, lastBar := FromRow(q), q.lastFired, q.lastBarTime;
      var prevBar := if lastBar.Some? then lastBar.value else q.entryTime;
      if |m.bars| > 0 && m.bars[0].time > prevBar + MINUTE {
        row := row.(needsAttention := true);
      }
      if Duration(q.granularity).None? && !q.needsAttention {
        row := row.(needsAttention := true);
      }
      ghost var start := Loop(row, pos, durable, prevBar, false);
      assert start == StartOf(q, m);
      var newBars := 0;
      for i := 0 to |m.bars|
        invariant RunBars(Loop(row, pos, durable, prevBar, false), m, lastBar, m.bars[i..], xs[i..])
               == RunBars(start, m, lastBar, m.bars, xs)
        invariant newBars == 0 ==>
          Loop(row, pos, durable, prevBar, false) == start
          && forall j :: 0 <= j < i ==> !Judged(lastBar, q.entryTime, m.bars[j])
        invariant newBars > 0 ==> !NothingNew(q, m)
      {
        var b, x := m.bars[i], xs[i];
        assert m.bars[i..][0] == b && m.bars[i..][1..] == m.bars[i + 1..];
        assert xs[i..][0] == x && xs[i..][1..] == xs[i + 1..];
        if Judged(lastBar, row.entryTime, b) {
          newBars := newBars + 1;
          var over;
          pos, durable, over := JudgeBar(m, lastBar, pos, durable, prevBar, b, x);
          prevBar := b.time;
          if over {
            return;
          }
        }
      }
      if newBars == 0 && |m.bars| > 0 {
        Watch(m, pos, durable, prevBar, lastBar, pos.plan.tripwires, Padded(ws, |pos.plan.tripwires|));
      }
    }

    /** No new bar: the tripwires on a stale feed, in order. */
    method Watch(m: Market, pos: Pos, durable: map<Tripwire, int>, prevBar: int, time: Option<int>, ts: seq<Tripwire>,
                 ws: seq<Wake>)
      requires |ws| == |ts|
      modifies this
      ensures row == Silent(Loop(old(row), pos, durable, prevBar, false), m, time, ts, ws).row
    {
      hide RunRow, SaveRow, Cooling;
      var pos', durable' := pos, durable;
      for k := 0 to |ts|
        invariant Silent(Loop(row, pos', durable', prevBar, false), m, time, ts[k..], ws[k..])
               == Silent(Loop(old(row), pos, durable, prevBar, false), m, time, ts, ws)
      {
        assert ts[k..][1..] == ts[k + 1..] && ws[k..][1..] == ws[k + 1..];
        var t := ts[k];
        if t.kind.FeedStale? && m.staleMinutes >= t.minutes as real && !Cooling(pos'.lastFired, t, pos'.barsHeld) {
          pos' := pos'.(lastFired := pos'.lastFired[t := pos'.barsHeld]);
          Interfere(ws[k].ops);
          if ws[k].enqueued {
            durable' := durable'[t := pos'.barsHeld];
            row := SaveRow(row, SavedOf(pos', time, durable'));
          }
        }
      }
    }

    method JudgeBar(m: Market, lastBar: Option<int>, pos: Pos, durable: map<Tripwire, int>, prevBar: int, b: Bar,
                    x: Others)
      returns (pos': Pos, durable': map<Tripwire, int>, over: bool)
      requires |m.bars| > 0
      modifies this
      ensures Loop(row, pos', durable', b.time, over)
           == BarStep(Loop(old(row), pos, durable, prevBar, false), m, lastBar, b, x)
    {
      hide StepOf, EnvFor, RunRow;
      var env := EnvFor(m, row.granularity, row.side, lastBar, row.entryTime, prevBar, b);
      var res := Step(pos, b, env);
      pos', durable', over := res.pos, durable, true;
      Interfere(x.before);
      if res.exit.Some? {
        row := CloseRow(row, res.exit.value.price, b.time, res.exit.value.reason);
        return;
      }
      var open := row.status == Live;
      row := SaveRow(row, SavedOf(pos', Some(b.time), durable));
      if !open || row.stop == 0.0 {
        return;
      }
      over := false;
      pos' := pos'.(stop := CloserOf(pos'.side, pos'.stop, row.stop));
      var marked := false;
      for k := 0 to |res.fired|
        invariant marked == Marked(k, x.woken)
        invariant durable' == Stored(durable, res.fired[..k], x.woken, pos'.lastFired)
      {
        assert res.fired[..k + 1][..k] == res.fired[..k];
        if k < |x.woken| && x.woken[k] {
          marked := true;
          if res.fired[k] in pos'.lastFired {
            durable' := durable'[res.fired[k] := pos'.lastFired[res.fired[k]]];
          }
        }
      }
      assert res.fired[..|res.fired|] == res.fired;
      Interfere(x.during);
      if marked {
        row := SaveRow(row, SavedOf(pos', Some(b.time), durable'));
      }
    }
  }
}

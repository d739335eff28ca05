/** What a signal of the feed does: the bars whose environment it sets a flag on are exactly the bars
    its closing time counts on. */
module Signals {
  import opened Common
  import opened Domain
  import opened Positions
  import opened MonitorStep
  import opened Service
  import opened ServiceSafety
  import opened Attribution

  datatype Kind = Flips | Impulses

  function Flag(env: Env, kind: Kind): bool {
    if kind.Flips? then env.oppositeFlip else env.impulse
  }

  function Feed(m: Market, kind: Kind): seq<Signal> {
    if kind.Flips? then m.flips else m.impulses
  }

  /** The environment the loop judges bar b in. */
  function LoopEnv(l: Loop, m: Market, lastBar: Option<int>, b: Bar): Env
    requires |m.bars| > 0
  {
    EnvFor(m, l.row.granularity, l.row.side, lastBar, l.row.entryTime, l.prevBar, b)
  }

  /** The position listens to the signal: any impulse, and flips against its side. */
  predicate Listens(side: Side, kind: Kind, s: Signal) {
    kind.Impulses? || s.dir == -Direction(side)
  }

  // ----- what each judged bar sees

  /** The span of closing times that count on one judged bar, the feed it was judged with, and whether
      its flag was set. */
  datatype Window = Window(from: int, to: int, feed: seq<Signal>, flagged: bool)

  predicate Covers(w: Window, known: int) {
    w.from < known <= w.to
  }

  function From(lastBar: Option<int>, entryTime: int, prevBar: int): int {
    var prev := PrevEnd(lastBar, entryTime, prevBar);
    if prev >= entryTime then prev else entryTime
  }

  function WindowOf(l: Loop, m: Market, lastBar: Option<int>, b: Bar, kind: Kind): Window
    requires |m.bars| > 0
  {
    Window(From(lastBar, l.row.entryTime, l.prevBar), b.time + MINUTE, Feed(m, kind),
           Flag(LoopEnv(l, m, lastBar, b), kind))
  }

  /** One window for each bar the loop judges. */
  function WindowsIn(l: Loop, m: Market, lastBar: Option<int>, bars: seq<Bar>, xs: seq<Others>, kind: Kind): seq<Window>
    requires |xs| == |bars| && (|bars| > 0 ==> |m.bars| > 0)
    decreases |bars|
  {
    if bars == [] || l.over then []
    else if !Judged(lastBar, l.row.entryTime, bars[0]) then WindowsIn(l, m, lastBar, bars[1..], xs[1..], kind)
    else
      [WindowOf(l, m, lastBar, bars[0], kind)]
      + WindowsIn(BarStep(l, m, lastBar, bars[0], xs[0]), m, lastBar, bars[1..], xs[1..], kind)
  }

  function TickWindows(q: Position, v: Visit, kind: Kind): seq<Window>
    requires VisitOk(v)
  {
    if q.status != Live then []
    else WindowsIn(StartOf(q, v.market), v.market, q.lastBarTime, v.market.bars, v.xs, kind)
  }

  /** One window for each bar judged over the life of the row. */
  function AllWindows(q: Position, vs: seq<Visit>, kind: Kind): seq<Window>
    requires VisitsOk(vs)
    decreases |vs|
  {
    if vs == [] then [] else TickWindows(q, vs[0], kind) + AllWindows(Visited(q, vs[0]), vs[1..], kind)
  }

  // ----- the flag of a bar is set exactly by the signals that count on it

  /** The candle length is known, and some signal of the feed the position listens to counts on the bar. */
  predicate Heard(w: Window, side: Side, kind: Kind, candle: Option<int>) {
    candle.Some? && exists s <- w.feed :: Listens(side, kind, s) && Covers(w, s.time + candle.value)
  }

  predicate FlagsHeard(ws: seq<Window>, side: Side, kind: Kind, candle: Option<int>) {
    forall w <- ws :: w.flagged <==> Heard(w, side, kind, candle)
  }

  /** The windows end where the judged bars end. */
  predicate Ends(ws: seq<Window>, js: seq<int>) {
    |ws| == |js| && forall k :: 0 <= k < |ws| ==> ws[k].to == js[k] + MINUTE
  }

  /** How many windows cover a closing time. */
  function Covering(ws: seq<Window>, known: int): nat {
    if ws == [] then 0 else (if Covers(ws[0], known) then 1 else 0) + Covering(ws[1..], known)
  }

  lemma CoversIs(l: Loop, m: Market, lastBar: Option<int>, b: Bar, kind: Kind, known: int)
    requires |m.bars| > 0
    ensures Covers(WindowOf(l, m, lastBar, b, kind), known) <==>
      BecameKnown(known, lastBar, l.row.entryTime, l.prevBar, b)
  {
    hide LoopEnv, Flag, Feed;
  }

  lemma FlagIs(l: Loop, m: Market, lastBar: Option<int>, b: Bar, kind: Kind, candle: Option<int>)
    requires |m.bars| > 0 && Duration(l.row.granularity) == candle
    ensures var w := WindowOf(l, m, lastBar, b, kind); w.flagged <==> Heard(w, l.row.side, kind, candle)
  {
    if candle.Some? {
      forall s <- Feed(m, kind)
        ensures Covers(WindowOf(l, m, lastBar, b, kind), s.time + candle.value) <==>
          BecameKnown(s.time + candle.value, lastBar, l.row.entryTime, l.prevBar, b)
      {
        CoversIs(l, m, lastBar, b, kind, s.time + candle.value);
      }
    }
    hide BecameKnown, Duration, Covers, From;
  }

  lemma HeardMore(w: Window, ws: seq<Window>, side: Side, kind: Kind, candle: Option<int>)
    requires (w.flagged <==> Heard(w, side, kind, candle)) && FlagsHeard(ws, side, kind, candle)
    ensures FlagsHeard([w] + ws, side, kind, candle)
  {
    hide Heard;
  }

  lemma EndsMore(w: Window, ws: seq<Window>, time: int, js: seq<int>)
    requires w.to == time + MINUTE && Ends(ws, js)
    ensures Ends([w] + ws, [time] + js)
  {
  }

  lemma CoveringMore(w: Window, ws: seq<Window>, known: int)
    ensures Covering([w] + ws, known) == (if Covers(w, known) then 1 else 0) + Covering(ws, known)
  {
    assert ([w] + ws)[1..] == ws;
  }

  lemma {:induction false} CoveringJoin(a: seq<Window>, b: seq<Window>, known: int)
    ensures Covering(a + b, known) == Covering(a, known) + Covering(b, known)
  {
    if a == [] {
      assert a + b == b;
    } else {
      assert (a + b)[1..] == a[1..] + b;
      CoveringJoin(a[1..], b, known);
    }
  }

  lemma {:induction false} TickSees(l: Loop, m: Market, lastBar: Option<int>, bars: seq<Bar>, xs: seq<Others>,
                                    kind: Kind, candle: Option<int>, known: int)
    requires |xs| == |bars| && (|bars| > 0 ==> |m.bars| > 0) && Duration(l.row.granularity) == candle
    ensures var ws := WindowsIn(l, m, lastBar, bars, xs, kind);
      && FlagsHeard(ws, l.row.side, kind, candle)
      && Covering(ws, known) == CountIn(l, m, lastBar, bars, xs, known)
    decreases |bars|
  {
    hide BarStep, BecameKnown, Duration, FlagsHeard, Covering, Covers, Heard, WindowOf;
    if bars == [] || l.over {
      NoWindows(l.row.side, kind, candle, known);
    } else if !Judged(lastBar, l.row.entryTime, bars[0]) {
      TickSees(l, m, lastBar, bars[1..], xs[1..], kind, candle, known);
    } else {
      var d, w := BarStep(l, m, lastBar, bars[0], xs[0]), WindowOf(l, m, lastBar, bars[0], kind);
      BarMoves(l, m, lastBar, bars[0], xs[0]);
      TickSees(d, m, lastBar, bars[1..], xs[1..], kind, candle, known);
      var ws := WindowsIn(d, m, lastBar, bars[1..], xs[1..], kind);
      FlagIs(l, m, lastBar, bars[0], kind, candle);
      CoversIs(l, m, lastBar, bars[0], kind, known);
      HeardMore(w, ws, l.row.side, kind, candle);
      CoveringMore(w, ws, known);
    }
  }

  lemma NoWindows(side: Side, kind: Kind, candle: Option<int>, known: int)
    ensures Ends([], []) && FlagsHeard([], side, kind, candle) && Covering([], known) == 0
  {
  }

  lemma WindowEnds(l: Loop, m: Market, lastBar: Option<int>, b: Bar, kind: Kind)
    requires |m.bars| > 0
    ensures WindowOf(l, m, lastBar, b, kind).to == b.time + MINUTE
  {
  }

  lemma {:induction false} WindowsEnd(l: Loop, m: Market, lastBar: Option<int>, bars: seq<Bar>, xs: seq<Others>,
                                      kind: Kind)
    requires |xs| == |bars| && (|bars| > 0 ==> |m.bars| > 0)
    ensures Ends(WindowsIn(l, m, lastBar, bars, xs, kind), JudgedIn(l, m, lastBar, bars, xs))
    decreases |bars|
  {
    hide BarStep, Ends, WindowOf;
    if bars == [] || l.over {
      NoWindows(l.row.side, kind, None, 0);
    } else if !Judged(lastBar, l.row.entryTime, bars[0]) {
      WindowsEnd(l, m, lastBar, bars[1..], xs[1..], kind);
    } else {
      var d := BarStep(l, m, lastBar, bars[0], xs[0]);
      WindowsEnd(d, m, lastBar, bars[1..], xs[1..], kind);
      WindowEnds(l, m, lastBar, bars[0], kind);
      EndsMore(WindowOf(l, m, lastBar, bars[0], kind), WindowsIn(d, m, lastBar, bars[1..], xs[1..], kind),
               bars[0].time, JudgedIn(d, m, lastBar, bars[1..], xs[1..]));
    }
  }

  lemma TickEnds(q: Position, v: Visit, kind: Kind)
    requires VisitOk(v)
    ensures Ends(TickWindows(q, v, kind), TickJudged(q, v))
  {
    hide Ends;
    if q.status == Live {
      WindowsEnd(StartOf(q, v.market), v.market, q.lastBarTime, v.market.bars, v.xs, kind);
    } else {
      NoWindows(q.side, kind, None, 0);
    }
  }

  lemma SeesJoin(a: seq<Window>, b: seq<Window>, ja: seq<int>, jb: seq<int>, side: Side, kind: Kind,
                 candle: Option<int>)
    requires Ends(a, ja) && Ends(b, jb) && FlagsHeard(a, side, kind, candle) && FlagsHeard(b, side, kind, candle)
    ensures Ends(a + b, ja + jb) && FlagsHeard(a + b, side, kind, candle)
  {
    hide Heard;
  }

  /** Over the life of the row, whatever the feeds serve: a judged bar's flag is set exactly when some
      signal of its feed, one the position listens to, counts on it, and never when the candle length
      is unknown; a closing time counts on as many bars as windows cover it. */
  lemma {:induction false} FlagsAreCounts(q: Position, vs: seq<Visit>, kind: Kind, candle: Option<int>, known: int)
    requires VisitsOk(vs) && FairVisits(vs) && Duration(q.granularity) == candle
    ensures var ws := AllWindows(q, vs, kind);
      && Ends(ws, AllJudged(q, vs)) && FlagsHeard(ws, q.side, kind, candle)
      && Covering(ws, known) == AllCount(q, vs, known)
    decreases |vs|
  {
    hide Visited, OtherOps, AllFair, FairWakes, Duration, Ends, FlagsHeard, Covering, WindowsIn, CountIn, JudgedIn;
    if vs == [] {
      NoWindows(q.side, kind, candle, known);
    } else {
      var m, r := vs[0].market, Visited(q, vs[0]);
      if q.status == Live {
        TickSees(StartOf(q, m), m, q.lastBarTime, m.bars, vs[0].xs, kind, candle, known);
      } else {
        NoWindows(q.side, kind, candle, known);
      }
      TickEnds(q, vs[0], kind);
      TickRemembers(q, vs[0]);
      FlagsAreCounts(r, vs[1..], kind, candle, known);
      SeesJoin(TickWindows(q, vs[0], kind), AllWindows(r, vs[1..], kind), TickJudged(q, vs[0]),
               AllJudged(r, vs[1..]), q.side, kind, candle);
      CoveringJoin(TickWindows(q, vs[0], kind), AllWindows(r, vs[1..], kind), known);
    }
  }

  // ----- the windows meet end to end

  /** Each window begins where the one before ends, the first one at this time. */
  predicate Meet(ws: seq<Window>, start: int) {
    ws == [] || (ws[0].from == start < ws[0].to && Meet(ws[1..], ws[0].to))
  }

  function EndOf(ws: seq<Window>, start: int): int {
    if ws == [] then start else ws[|ws| - 1].to
  }

  lemma MeetMore(w: Window, ws: seq<Window>)
    requires w.from < w.to && Meet(ws, w.to)
    ensures Meet([w] + ws, w.from) && EndOf([w] + ws, w.from) == EndOf(ws, w.to)
  {
    assert ([w] + ws)[1..] == ws;
  }

  lemma {:induction false} MeetJoin(a: seq<Window>, b: seq<Window>, start: int)
    requires Meet(a, start) && Meet(b, EndOf(a, start))
    ensures Meet(a + b, start) && EndOf(a + b, start) == EndOf(b, EndOf(a, start))
  {
    if a == [] {
      assert a + b == b;
    } else {
      assert (a + b)[1..] == a[1..] + b;
      MeetJoin(a[1..], b, a[0].to);
    }
  }

  /** Every time past the start and up to the end lies in exactly one window. */
  lemma {:induction false} OneCover(ws: seq<Window>, start: int, known: int) returns (k: nat)
    requires Meet(ws, start) && start < known <= EndOf(ws, start)
    ensures k < |ws| && Covers(ws[k], known) && forall j :: 0 <= j < |ws| && Covers(ws[j], known) ==> j == k
    decreases |ws|
  {
    if known <= ws[0].to {
      k := 0;
      NoneCovers(ws[1..], ws[0].to, known);
      forall j | 0 < j < |ws| ensures !Covers(ws[j], known) {
        assert ws[j] == ws[1..][j - 1];
      }
    } else {
      var i := OneCover(ws[1..], ws[0].to, known);
      k := i + 1;
      forall j | 0 < j < |ws| && Covers(ws[j], known) ensures j == k {
        assert ws[j] == ws[1..][j - 1];
      }
    }
  }

  /** Any other lies in none. */
  lemma {:induction false} NoneCovers(ws: seq<Window>, start: int, known: int)
    requires Meet(ws, start) && !(start < known <= EndOf(ws, start))
    ensures forall w <- ws :: !Covers(w, known)
    ensures start <= EndOf(ws, start)
    decreases |ws|
  {
    if ws != [] {
      EndsLater(ws[1..], ws[0].to);
      NoneCovers(ws[1..], ws[0].to, known);
    }
  }

  lemma {:induction false} EndsLater(ws: seq<Window>, start: int)
    requires Meet(ws, start)
    ensures start <= EndOf(ws, start)
    decreases |ws|
  {
    if ws != [] {
      EndsLater(ws[1..], ws[0].to);
    }
  }

  lemma MeetNone(start: int)
    ensures Meet([], start) && EndOf([], start) == start
  {
  }

  /** Past the entry bar. */
  lemma {:induction false} SettledMeet(l: Loop, m: Market, lastBar: Option<int>, bars: seq<Bar>, xs: seq<Others>,
                                       kind: Kind)
    requires |xs| == |bars| && (|bars| > 0 ==> |m.bars| > 0) && Ascending(bars)
    requires lastBar.None? ==> l.prevBar > l.row.entryTime
    requires lastBar.Some? ==> l.prevBar >= l.row.entryTime
    requires forall i :: 0 <= i < |bars| && Judged(lastBar, l.row.entryTime, bars[i]) ==> bars[i].time > l.prevBar
    ensures Meet(WindowsIn(l, m, lastBar, bars, xs, kind), l.prevBar + MINUTE)
    decreases |bars|
  {
    hide BarStep, Meet, LoopEnv;
    if bars == [] || l.over {
      MeetNone(l.prevBar + MINUTE);
    } else if !Judged(lastBar, l.row.entryTime, bars[0]) {
      SettledMeet(l, m, lastBar, bars[1..], xs[1..], kind);
    } else {
      var d := BarStep(l, m, lastBar, bars[0], xs[0]);
      BarMoves(l, m, lastBar, bars[0], xs[0]);
      SettledMeet(d, m, lastBar, bars[1..], xs[1..], kind);
      MeetMore(WindowOf(l, m, lastBar, bars[0], kind), WindowsIn(d, m, lastBar, bars[1..], xs[1..], kind));
    }
  }

  /** In the tick that starts at the entry, when no bar opens exactly there. */
  lemma {:induction false} FirstMeet(l: Loop, m: Market, bars: seq<Bar>, xs: seq<Others>, kind: Kind)
    requires |xs| == |bars| && (|bars| > 0 ==> |m.bars| > 0) && Ascending(bars)
    requires l.prevBar == l.row.entryTime && forall i :: 0 <= i < |bars| ==> bars[i].time != l.row.entryTime
    ensures Meet(WindowsIn(l, m, None, bars, xs, kind), l.row.entryTime)
    decreases |bars|
  {
    hide BarStep, Meet, LoopEnv;
    if bars == [] || l.over {
      MeetNone(l.row.entryTime);
    } else if !Judged(None, l.row.entryTime, bars[0]) {
      FirstMeet(l, m, bars[1..], xs[1..], kind);
    } else {
      var d := BarStep(l, m, None, bars[0], xs[0]);
      BarMoves(l, m, None, bars[0], xs[0]);
      SettledMeet(d, m, None, bars[1..], xs[1..], kind);
      MeetMore(WindowOf(l, m, None, bars[0], kind), WindowsIn(d, m, None, bars[1..], xs[1..], kind));
    }
  }

  /** Where the next window is to begin. */
  function NextFrom(q: Position): int {
    if q.lastBarTime.None? then q.entryTime else q.lastBarTime.value + MINUTE
  }

  predicate LaterThanEntry(q: Position) {
    q.lastBarTime.Some? ==> q.lastBarTime.value >= q.entryTime
  }

  predicate NoBarOf(v: Visit, time: int) {
    forall j :: 0 <= j < |v.market.bars| ==> v.market.bars[j].time != time
  }

  lemma TickMeet(q: Position, v: Visit, kind: Kind)
    requires VisitOk(v) && AllFair(v.xs) && FairWakes(v.ws) && OtherOps(v.after) && Ascending(v.market.bars)
    requires LaterThanEntry(q) && NoBarOf(v, q.entryTime)
    ensures var ws, r := TickWindows(q, v, kind), Visited(q, v);
      && Meet(ws, NextFrom(q))
      && (q.status.Closed? ==> ws == [] && r.status.Closed?)
      && (r.status == Live ==> NextFrom(r) == EndOf(ws, NextFrom(q)) && LaterThanEntry(r))
  {
    TickRemembers(q, v);
    hide OtherOps, FairWakes, AllFair, JudgedIn, WindowsIn, Meet, Visited, Judged;
    if q.status == Live {
      var l, m := StartOf(q, v.market), v.market;
      TickEnds(q, v, kind);
      if q.lastBarTime.None? {
        FirstMeet(l, m, m.bars, v.xs, kind);
        TickFirst(q, v, 0);
      } else {
        TickSettled(q, v, kind);
        TickLater(q, v, 0, q.lastBarTime.value);
      }
    } else {
      MeetNone(NextFrom(q));
    }
  }

  lemma TickSettled(q: Position, v: Visit, kind: Kind)
    requires VisitOk(v) && Ascending(v.market.bars) && q.status == Live && q.lastBarTime.Some? && LaterThanEntry(q)
    ensures Meet(TickWindows(q, v, kind), NextFrom(q))
  {
    SettledMeet(StartOf(q, v.market), v.market, q.lastBarTime, v.market.bars, v.xs, kind);
    hide Meet, WindowsIn;
  }

  lemma {:induction false} NoneAfterClose(q: Position, vs: seq<Visit>, kind: Kind)
    requires VisitsOk(vs) && FairVisits(vs) && q.status.Closed?
    ensures AllWindows(q, vs, kind) == []
    decreases |vs|
  {
    hide Visited, OtherOps, AllFair, FairWakes;
    if vs != [] {
      TickRemembers(q, vs[0]);
      NoneAfterClose(Visited(q, vs[0]), vs[1..], kind);
    }
  }

  /** When no bar opens exactly at the entry, the windows of all judged bars, whatever the ticks and
      restarts, meet end to end from the entry on. */
  lemma {:induction false} WindowsMeet(q: Position, vs: seq<Visit>, kind: Kind)
    requires VisitsOk(vs) && FairVisits(vs) && InOrder(vs) && LaterThanEntry(q)
    requires forall v <- vs :: NoBarOf(v, q.entryTime)
    ensures Meet(AllWindows(q, vs, kind), NextFrom(q))
    decreases |vs|
  {
    hide Visited, OtherOps, AllFair, FairWakes, Meet, TickWindows, NextFrom, EndOf, LaterThanEntry, NoBarOf, Ascending,
         TickJudged;
    MeetNone(NextFrom(q));
    if vs != [] {
      var r, ws := Visited(q, vs[0]), TickWindows(q, vs[0], kind);
      assert NoBarOf(vs[0], q.entryTime);
      TickMeet(q, vs[0], kind);
      TickRemembers(q, vs[0]);
      if r.status == Live {
        WindowsMeet(r, vs[1..], kind);
      } else {
        NoneAfterClose(r, vs[1..], kind);
        MeetNone(EndOf(ws, NextFrom(q)));
      }
      MeetJoin(ws, AllWindows(r, vs[1..], kind), NextFrom(q));
    }
  }

  /** Every tick's feed holds the signal, among any others. */
  predicate Served(vs: seq<Visit>, kind: Kind, s: Signal) {
    forall i :: 0 <= i < |vs| ==> s in Feed(vs[i].market, kind)
  }

  lemma {:induction false} FeedsServed(l: Loop, m: Market, lastBar: Option<int>, bars: seq<Bar>, xs: seq<Others>,
                                       kind: Kind, s: Signal)
    requires |xs| == |bars| && (|bars| > 0 ==> |m.bars| > 0) && s in Feed(m, kind)
    ensures forall w <- WindowsIn(l, m, lastBar, bars, xs, kind) :: s in w.feed
    decreases |bars|
  {
    hide BarStep, Feed, Flag, LoopEnv, From;
    if bars != [] && !l.over {
      if !Judged(lastBar, l.row.entryTime, bars[0]) {
        FeedsServed(l, m, lastBar, bars[1..], xs[1..], kind, s);
      } else {
        FeedsServed(BarStep(l, m, lastBar, bars[0], xs[0]), m, lastBar, bars[1..], xs[1..], kind, s);
      }
    }
  }

  lemma {:induction false} AllServed(q: Position, vs: seq<Visit>, kind: Kind, s: Signal)
    requires VisitsOk(vs) && Served(vs, kind, s)
    ensures forall w <- AllWindows(q, vs, kind) :: s in w.feed
    decreases |vs|
  {
    hide Visited, Feed, WindowsIn;
    if vs != [] {
      var m := vs[0].market;
      if q.status == Live {
        FeedsServed(StartOf(q, m), m, q.lastBarTime, m.bars, vs[0].xs, kind, s);
      }
      AllServed(Visited(q, vs[0]), vs[1..], kind, s);
    }
  }

  /** The signal counts on bar k alone, and the bar's flag is set. */
  predicate SeenOn(ws: seq<Window>, known: int, k: nat) {
    k < |ws| && Covers(ws[k], known) && ws[k].flagged && forall j :: 0 <= j < |ws| && Covers(ws[j], known) ==> j == k
  }

  /** When no bar opens exactly at the entry, a signal the position listens to, known after the entry
      and by the end of the last judged bar, counts on exactly one bar, whose flag is set, whatever else
      the feeds serve; known before or later, it counts on none. */
  lemma SignalSeenOnce(q: Position, vs: seq<Visit>, kind: Kind, s: Signal, candle: int)
    requires VisitsOk(vs) && FairVisits(vs) && InOrder(vs) && q.lastBarTime.None? && NoBarAt(vs, q.entryTime)
    requires Served(vs, kind, s) && Listens(q.side, kind, s) && Duration(q.granularity) == Some(candle)
    ensures var ws, known := AllWindows(q, vs, kind), s.time + candle;
      if q.entryTime < known <= EndOf(ws, q.entryTime) then exists k :: SeenOn(ws, known, k)
      else forall w <- ws :: !Covers(w, known)
  {
    hide AllWindows, Listens, Duration, FairVisits, InOrder, Meet, EndOf, Served, Covers, FlagsHeard, Ends, Covering,
         AllJudged, AllCount;
    var ws, known := AllWindows(q, vs, kind), s.time + candle;
    forall v <- vs ensures NoBarOf(v, q.entryTime) {
    }
    hide NoBarAt, NoBarOf;
    FlagsAreCounts(q, vs, kind, Some(candle), known);
    WindowsMeet(q, vs, kind);
    AllServed(q, vs, kind, s);
    if q.entryTime < known <= EndOf(ws, q.entryTime) {
      var k := OneCover(ws, q.entryTime, known);
      FlagSet(ws, q.side, kind, candle, s, k);
      assert SeenOn(ws, known, k);
    } else {
      NoneCovers(ws, q.entryTime, known);
    }
  }

  lemma FlagSet(ws: seq<Window>, side: Side, kind: Kind, candle: int, s: Signal, k: nat)
    requires FlagsHeard(ws, side, kind, Some(candle)) && k < |ws| && s in ws[k].feed
    requires Listens(side, kind, s) && Covers(ws[k], s.time + candle)
    ensures ws[k].flagged
  {
    hide Covers, Listens;
    assert ws[k] in ws;
    assert Heard(ws[k], side, kind, Some(candle));
  }

  // ----- the exception, in the tick's inputs

  /** Bar i opens exactly at the entry, the position survives it, and the window goes on. */
  predicate EntryBarSurvives(l: Loop, m: Market, bars: seq<Bar>, xs: seq<Others>, i: int)
    requires |xs| == |bars| && (|bars| > 0 ==> |m.bars| > 0)
  {
    0 <= i < |bars| - 1 && bars[i].time == l.row.entryTime && !BarStep(l, m, None, bars[i], xs[i]).over
  }

  lemma {:induction false} DoublesInIff(l: Loop, m: Market, bars: seq<Bar>, xs: seq<Others>)
    requires |xs| == |bars| && (|bars| > 0 ==> |m.bars| > 0) && Ascending(bars) && !l.over
    ensures DoublesIn(JudgedIn(l, m, None, bars, xs), l.row.entryTime) <==>
      exists i :: 0 <= i < |bars| && EntryBarSurvives(l, m, bars, xs, i)
    decreases |bars|
  {
    hide BarStep;
    var e := l.row.entryTime;
    if bars != [] {
      if !Judged(None, e, bars[0]) {
        DoublesInIff(l, m, bars[1..], xs[1..]);
        forall i | 0 <= i < |bars| - 1
          ensures EntryBarSurvives(l, m, bars[1..], xs[1..], i) <==> EntryBarSurvives(l, m, bars, xs, i + 1)
        {
        }
        if i :| 0 <= i < |bars| && EntryBarSurvives(l, m, bars, xs, i) {
          assert i > 0 && EntryBarSurvives(l, m, bars[1..], xs[1..], i - 1);
        }
      } else {
        BarMoves(l, m, None, bars[0], xs[0]);
        var d := BarStep(l, m, None, bars[0], xs[0]);
        assert |bars| > 1 ==> Judged(None, e, bars[1]);
        assert EntryBarSurvives(l, m, bars, xs, 0) <==> |bars| > 1 && bars[0].time == e && !d.over;
      }
    }
  }

  /** The first tick that judges anything doubles exactly when its window has a bar at the entry that
      the position survives, and a later bar. */
  lemma DoublesIff(q: Position, v: Visit, rest: seq<Visit>)
    requires VisitOk(v) && VisitsOk([v] + rest) && Ascending(v.market.bars)
    requires q.status == Live && q.lastBarTime.None? && TickJudged(q, v) != []
    ensures Doubles(q, [v] + rest) <==>
      exists i :: 0 <= i < |v.market.bars| && EntryBarSurvives(StartOf(q, v.market), v.market, v.market.bars, v.xs, i)
  {
    hide JudgedIn, EntryBarSurvives;
    assert ([v] + rest)[0] == v;
    DoublesInIff(StartOf(q, v.market), v.market, v.market.bars, v.xs);
  }
}

/** What the replay's numbers may be trusted for: no trade depends on later candles, trades never
    overlap, and a loss is one unit of risk unless the market opened beyond the stop. */
module BacktestTheorems {
  import opened Common
  import opened Indicators
  import opened Backtest

  predicate Ascending(c: seq<Candle>) {
    forall i, j :: 0 <= i < j < |c| ==> c[i].time < c[j].time
  }

  predicate InOrder(flips: seq<Flip>) {
    forall i, j :: 0 <= i < j < |flips| ==> flips[i].time <= flips[j].time
  }

  // ----- one trade at a time

  /** A trade occupies the bars after its signal up to its last bar, at most as many as its limit. */
  lemma {:induction false} HoldRange(c: seq<Candle>, flips: seq<Flip>, t: Bracket, j: nat)
    requires t.signal < j < |c| && t.limit > 0 && j <= t.signal + t.limit
    ensures var o := Hold(c, flips, t, j);
      && j <= o.last < |c| && o.last <= t.signal + t.limit
      && (o.reason.EndOfData? ==> o.last == |c| - 1)
    decreases |c| - j
  {
    hide FlipOn;
    if ExitOn(c, FlipOn(c, flips, j), t, j).None? && j + 1 < |c| {
      HoldRange(c, flips, t, j + 1);
    }
  }

  predicate FillOk(c: seq<Candle>, p: Params, x: Fill) {
    && WARMUP <= x.signal < x.last < |c| && x.last <= x.signal + Limit(p)
    && x.trade.entry == c[x.signal + 1].time
    && (x.trade.reason.EndOfData? ==> x.last == |c| - 1)
  }

  lemma FillRange(c: seq<Candle>, f: Features, flips: seq<Flip>, p: Params, i: nat, dir: int)
    requires Fits(c, f) && WARMUP <= i && i + 1 < |c| && Distance(f, p, i) > 0.0
    ensures FillOk(c, p, FillOf(c, f, flips, p, i, dir))
  {
    HoldRange(c, flips, BracketOf(c, f, p, i, dir), i + 1);
    hide Hold;
  }

  /** Every trade is well placed after bar busy, and begins after the one before it ended. */
  predicate Disjoint(c: seq<Candle>, p: Params, fs: seq<Fill>, busy: int) {
    && (forall k :: 0 <= k < |fs| ==> FillOk(c, p, fs[k]) && fs[k].signal > busy)
    && (forall k, l :: 0 <= k < l < |fs| ==> fs[k].last < fs[l].signal)
  }

  /** The trades of a replay hold disjoint stretches of bars, in order, each signalled after the last
      one ended and closed within its time stop. */
  lemma {:induction false} FillsDisjoint(c: seq<Candle>, f: Features, flips: seq<Flip>, p: Params, rest: seq<Flip>,
                                         busy: int)
    requires Fits(c, f)
    ensures Disjoint(c, p, Fills(c, f, flips, p, rest, busy), busy)
    decreases |rest|
  {
    if rest == [] {
      return;
    }
    hide Hold, Disjoint;
    var i := Accepted(c, f, p, rest[0], busy);
    if i.None? {
      hide Accepted;
      FillsDisjoint(c, f, flips, p, rest[1..], busy);
    } else {
      var x := FillOf(c, f, flips, p, i.value, rest[0].dir);
      FillRange(c, f, flips, p, i.value, rest[0].dir);
      assert x.signal == i.value > busy;
      hide FillOf, Accepted;
      FillsDisjoint(c, f, flips, p, rest[1..], x.last);
      LaterFills(c, p, x, Fills(c, f, flips, p, rest[1..], x.last), busy);
    }
  }

  lemma LaterFills(c: seq<Candle>, p: Params, x: Fill, fs: seq<Fill>, busy: int)
    requires FillOk(c, p, x) && x.signal > busy && Disjoint(c, p, fs, x.last)
    ensures Disjoint(c, p, [x] + fs, busy)
  {
  }

  lemma FeaturesFit(c: seq<Candle>)
    ensures Fits(c, FeaturesOf(c))
  {
    hide Atr, Adx, VolumeRatio;
  }

  /** Trades come out in the order of their entries, so a date splits them in two. */
  lemma EntriesAscend(c: seq<Candle>, flips: seq<Flip>, p: Params)
    requires Ascending(c)
    ensures var ts := TradesOf(Replay(c, flips, p)); forall k, l :: 0 <= k < l < |ts| ==> ts[k].entry < ts[l].entry
  {
    FeaturesFit(c);
    FillsDisjoint(c, FeaturesOf(c), flips, p, flips, -1);
    hide FeaturesOf, Fills;
  }

  // ----- no look-ahead

  lemma IndexUnique(c: seq<Candle>, i: nat)
    requires Ascending(c) && i < |c|
    ensures IndexOf(c, c[i].time) == Some(i)
  {
  }

  /** Appended candles neither move a signal nor hide it. */
  lemma IndexStable(c: seq<Candle>, d: seq<Candle>, time: int)
    requires c <= d && Ascending(d)
    ensures IndexOf(c, time).Some? ==> IndexOf(d, time) == IndexOf(c, time)
    ensures IndexOf(c, time).None? && IndexOf(d, time).Some? ==> IndexOf(d, time).value >= |c|
  {
    if IndexOf(c, time).Some? {
      IndexUnique(d, IndexOf(c, time).value);
    }
  }

  lemma {:induction false} FlipStable(c: seq<Candle>, d: seq<Candle>, flips: seq<Flip>, j: nat)
    requires c <= d && Ascending(d) && j < |c|
    ensures FlipOn(c, flips, j) == FlipOn(d, flips, j)
    decreases |flips|
  {
    hide IndexOf, Ascending;
    if flips != [] {
      IndexStable(c, d, flips[|flips| - 1].time);
      FlipStable(c, d, flips[..|flips| - 1], j);
    }
  }

  /** A trade that closed on the bars known so far closes the same way however the series goes on. */
  lemma {:induction false} HoldStable(c: seq<Candle>, d: seq<Candle>, flips: seq<Flip>, t: Bracket, j: nat)
    requires c <= d && Ascending(d) && |c| > 0
    requires !Hold(c, flips, t, j).reason.EndOfData?
    ensures Hold(d, flips, t, j) == Hold(c, flips, t, j)
    decreases |c| - j
  {
    hide FlipOn, Ascending;
    FlipStable(c, d, flips, j) by { assert j < |c|; }
    if ExitOn(c, FlipOn(c, flips, j), t, j).None? {
      HoldStable(c, d, flips, t, j + 1);
    }
  }

  lemma FeaturesStable(c: seq<Candle>, d: seq<Candle>, p: Params, i: nat)
    requires c <= d && WARMUP <= i < |c|
    ensures var f, g := FeaturesOf(c), FeaturesOf(d);
      Fits(c, f) && Fits(d, g)
      && f.atr[i] == g.atr[i] && f.adx[i] == g.adx[i] && f.vol[i] == g.vol[i] && Distance(f, p, i) == Distance(g, p, i)
  {
    FeaturesCausal(c, d, i);
    hide Atr, Adx, VolumeRatio;
  }

  lemma BracketStable(c: seq<Candle>, d: seq<Candle>, f: Features, g: Features, p: Params, i: nat, dir: int)
    requires c <= d && i + 1 < |c| && Fits(c, f) && Fits(d, g) && Distance(f, p, i) == Distance(g, p, i)
    ensures BracketOf(c, f, p, i, dir) == BracketOf(d, g, p, i, dir)
  {
    hide Distance;
    assert c[i + 1] == d[i + 1];
  }

  lemma FillStable(c: seq<Candle>, d: seq<Candle>, f: Features, g: Features, flips: seq<Flip>, p: Params, i: nat,
                   dir: int)
    requires c <= d && Ascending(d) && i + 1 < |c| && Fits(c, f) && Fits(d, g)
    requires Distance(f, p, i) == Distance(g, p, i) > 0.0
    requires !FillOf(c, f, flips, p, i, dir).trade.reason.EndOfData?
    ensures FillOf(d, g, flips, p, i, dir) == FillOf(c, f, flips, p, i, dir)
  {
    hide Hold, Ascending, Distance, BracketOf;
    assert c[i + 1] == d[i + 1];
    BracketStable(c, d, f, g, p, i, dir);
    HoldStable(c, d, flips, BracketOf(c, f, p, i, dir), i + 1);
  }

  lemma AcceptedStable(c: seq<Candle>, d: seq<Candle>, p: Params, fl: Flip, busy: int)
    requires c <= d && Ascending(d) && Fits(c, FeaturesOf(c)) && Fits(d, FeaturesOf(d))
    requires IndexOf(c, fl.time).Some? && IndexOf(c, fl.time).value + 1 < |c|
    ensures Accepted(d, FeaturesOf(d), p, fl, busy) == Accepted(c, FeaturesOf(c), p, fl, busy)
  {
    IndexStable(c, d, fl.time);
    var i := IndexOf(c, fl.time).value;
    if i >= WARMUP {
      FeaturesStable(c, d, p, i);
    }
    hide FeaturesOf, Ascending, IndexOf, Distance;
  }

  /** No signal from this one on can open a trade. */
  predicate Spent(c: seq<Candle>, rest: seq<Flip>, busy: int) {
    forall k :: 0 <= k < |rest| ==>
      var i := IndexOf(c, rest[k].time); i.Some? ==> i.value + 1 >= |c| || i.value <= busy
  }

  lemma {:induction false} SpentNone(c: seq<Candle>, f: Features, flips: seq<Flip>, p: Params, rest: seq<Flip>,
                                     busy: int)
    requires Fits(c, f) && Spent(c, rest, busy)
    ensures Fills(c, f, flips, p, rest, busy) == []
    decreases |rest|
  {
    hide FillOf, IndexOf;
    if rest != [] {
      SpentNone(c, f, flips, p, rest[1..], busy);
    }
  }

  /** Once a signal lies on the last candle or past it, so do all later ones. */
  lemma LateSpent(c: seq<Candle>, d: seq<Candle>, rest: seq<Flip>, busy: int)
    requires c <= d && Ascending(d) && InOrder(rest) && rest != []
    requires var i := IndexOf(d, rest[0].time); i.Some? && i.value + 1 >= |c|
    ensures Spent(c, rest, busy)
  {
    var i := IndexOf(d, rest[0].time).value;
    forall k | 0 <= k < |rest| && IndexOf(c, rest[k].time).Some?
      ensures IndexOf(c, rest[k].time).value + 1 >= |c|
    {
      var j := IndexOf(c, rest[k].time).value;
      assert d[j].time == rest[k].time >= rest[0].time == d[i].time;
    }
  }

  lemma BusySpent(c: seq<Candle>, rest: seq<Flip>)
    ensures Spent(c, rest, |c| - 1)
  {
  }

  function Closed(fs: seq<Fill>): seq<Fill> {
    if fs == [] then []
    else (if fs[0].trade.reason.EndOfData? then [] else [fs[0]]) + Closed(fs[1..])
  }

  /** The trades closed on a series are, in order, the first trades of any continuation of it. */
  lemma {:induction false} ClosedArePrefix(c: seq<Candle>, d: seq<Candle>, flips: seq<Flip>, p: Params,
                                           rest: seq<Flip>, busy: int)
    requires c <= d && Ascending(d) && InOrder(rest)
    requires Fits(c, FeaturesOf(c)) && Fits(d, FeaturesOf(d))
    ensures Closed(Fills(c, FeaturesOf(c), flips, p, rest, busy)) <= Fills(d, FeaturesOf(d), flips, p, rest, busy)
    decreases |rest|
  {
    hide FillOf, FeaturesOf, IndexOf, Ascending, Spent;
    if rest != [] {
      var fl, f, g := rest[0], FeaturesOf(c), FeaturesOf(d);
      var i := IndexOf(d, fl.time);
      IndexStable(c, d, fl.time);
      if i.Some? && i.value + 1 >= |c| {
        LateSpent(c, d, rest, busy);
        SpentNone(c, f, flips, p, rest, busy);
      } else if Accepted(c, f, p, fl, busy).None? {
        if i.Some? {
          IndexBack(c, d, fl.time);
          AcceptedStable(c, d, p, fl, busy);
        }
        ClosedArePrefix(c, d, flips, p, rest[1..], busy);
      } else {
        AcceptedStable(c, d, p, fl, busy);
        OneMore(c, d, flips, p, rest, busy);
        var x := FillOf(c, f, flips, p, Accepted(c, f, p, fl, busy).value, fl.dir);
        if !x.trade.reason.EndOfData? {
          ClosedArePrefix(c, d, flips, p, rest[1..], x.last);
        }
      }
    }
  }

  lemma IndexBack(c: seq<Candle>, d: seq<Candle>, time: int)
    requires c <= d && Ascending(d) && IndexOf(d, time).Some? && IndexOf(d, time).value < |c|
    ensures IndexOf(c, time) == IndexOf(d, time)
  {
    IndexUnique(c, IndexOf(d, time).value);
  }

  /** One accepted signal: closed on c, it is the same trade on d; still open, it is the last on c. */
  lemma OneMore(c: seq<Candle>, d: seq<Candle>, flips: seq<Flip>, p: Params, rest: seq<Flip>, busy: int)
    requires c <= d && Ascending(d) && rest != [] && Fits(c, FeaturesOf(c)) && Fits(d, FeaturesOf(d))
    requires var i := Accepted(c, FeaturesOf(c), p, rest[0], busy);
      i.Some? && Accepted(d, FeaturesOf(d), p, rest[0], busy) == i
    ensures var f, g, i := FeaturesOf(c), FeaturesOf(d), Accepted(c, FeaturesOf(c), p, rest[0], busy).value;
      var x := FillOf(c, f, flips, p, i, rest[0].dir);
      if x.trade.reason.EndOfData? then Closed(Fills(c, f, flips, p, rest, busy)) == []
      else
        && Closed(Fills(c, f, flips, p, rest, busy)) == [x] + Closed(Fills(c, f, flips, p, rest[1..], x.last))
        && Fills(d, g, flips, p, rest, busy) == [x] + Fills(d, g, flips, p, rest[1..], x.last)
  {
    var f, g, i := FeaturesOf(c), FeaturesOf(d), Accepted(c, FeaturesOf(c), p, rest[0], busy).value;
    var x := FillOf(c, f, flips, p, i, rest[0].dir);
    FillRange(c, f, flips, p, i, rest[0].dir);
    if x.trade.reason.EndOfData? {
      BusySpent(c, rest[1..]);
      SpentNone(c, f, flips, p, rest[1..], x.last);
      hide FillOf, FeaturesOf, Accepted;
      assert Fills(c, f, flips, p, rest, busy) == [x];
    } else {
      FeaturesStable(c, d, p, i);
      FillStable(c, d, f, g, flips, p, i, rest[0].dir);
      hide FillOf, FeaturesOf, Accepted;
      assert ([x] + Fills(c, f, flips, p, rest[1..], x.last))[1..] == Fills(c, f, flips, p, rest[1..], x.last);
    }
  }

  /** No look-ahead: appending candles never changes a trade that had closed. */
  lemma NoLookAhead(c: seq<Candle>, more: seq<Candle>, flips: seq<Flip>, p: Params)
    requires Ascending(c + more) && InOrder(flips)
    ensures Closed(Replay(c, flips, p)) <= Replay(c + more, flips, p)
  {
    FeaturesFit(c);
    FeaturesFit(c + more);
    ClosedArePrefix(c, c + more, flips, p, flips, -1);
  }

  // ----- signals that come with the new candles

  predicate PastEnd(c: seq<Candle>, later: seq<Flip>) {
    forall k :: 0 <= k < |later| ==> IndexOf(c, later[k].time).None?
  }

  lemma {:induction false} FlipOnOlder(c: seq<Candle>, flips: seq<Flip>, later: seq<Flip>, j: nat)
    requires PastEnd(c, later)
    ensures FlipOn(c, flips + later, j) == FlipOn(c, flips, j)
    decreases |later|
  {
    hide IndexOf;
    if later == [] {
      assert flips + later == flips;
    } else {
      var all, n := flips + later, |later| - 1;
      assert all[|all| - 1] == later[n] && all[..|all| - 1] == flips + later[..n];
      FlipOnOlder(c, flips, later[..n], j);
    }
  }

  lemma {:induction false} HoldOlder(c: seq<Candle>, flips: seq<Flip>, later: seq<Flip>, t: Bracket, j: nat)
    requires |c| > 0 && PastEnd(c, later)
    ensures Hold(c, flips + later, t, j) == Hold(c, flips, t, j)
    decreases |c| - j
  {
    hide FlipOn, PastEnd;
    if j < |c| && j <= t.signal + t.limit {
      FlipOnOlder(c, flips, later, j);
      HoldOlder(c, flips, later, t, j + 1);
    }
  }

  lemma {:induction false} FillsOlder(c: seq<Candle>, f: Features, flips: seq<Flip>, p: Params, rest: seq<Flip>,
                                      later: seq<Flip>, busy: int)
    requires Fits(c, f) && PastEnd(c, later)
    ensures Fills(c, f, flips + later, p, rest + later, busy) == Fills(c, f, flips, p, rest, busy)
    decreases |rest|
  {
    hide IndexOf, Hold, BracketOf, Distance;
    if rest == [] {
      assert rest + later == later;
      assert Spent(c, later, busy);
      SpentNone(c, f, flips + later, p, later, busy);
    } else {
      var i := Accepted(c, f, p, rest[0], busy);
      assert (rest + later)[0] == rest[0] && (rest + later)[1..] == rest[1..] + later;
      hide Accepted, PastEnd;
      if i.None? {
        FillsOlder(c, f, flips, p, rest[1..], later, busy);
      } else {
        HoldOlder(c, flips, later, BracketOf(c, f, p, i.value, rest[0].dir), i.value + 1);
        FillsOlder(c, f, flips, p, rest[1..], later, FillOf(c, f, flips, p, i.value, rest[0].dir).last);
      }
    }
  }

  /** A replay repeated once more candles and more signals are known keeps every closed trade. */
  lemma NoLookAheadWithNewSignals(c: seq<Candle>, more: seq<Candle>, flips: seq<Flip>, later: seq<Flip>, p: Params)
    requires Ascending(c + more) && InOrder(flips + later)
    requires forall k, i :: 0 <= k < |later| && 0 <= i < |c| ==> later[k].time > c[i].time
    ensures Closed(Replay(c, flips, p)) <= Replay(c + more, flips + later, p)
  {
    FeaturesFit(c);
    assert PastEnd(c, later);
    hide FeaturesOf, Fills, PastEnd;
    FillsOlder(c, FeaturesOf(c), flips, p, flips, later, -1);
    NoLookAhead(c, more, flips + later, p);
  }

  // ----- results in units of risk

  predicate WellFormed(c: seq<Candle>) {
    forall i :: 0 <= i < |c| ==> c[i].low <= c[i].open <= c[i].high && c[i].low <= c[i].close <= c[i].high
  }

  /** How a trade ends, read off its last bar. */
  predicate EndsOn(c: seq<Candle>, t: Bracket, o: Out) {
    && o.last < |c|
    && var b := c[o.last];
    && (o.reason.StopOut? ==>
          HitsStop(b, t.dir, t.stop) && o.exit == if OpensBeyond(b, t.dir, t.stop) then b.open else t.stop)
    && (o.reason.TargetOut? ==> !HitsStop(b, t.dir, t.stop) && HitsTarget(b, t.dir, t.target) && o.exit == t.target)
    && (!o.reason.StopOut? && !o.reason.TargetOut? ==>
          o.exit == b.close && !HitsStop(b, t.dir, t.stop) && !HitsTarget(b, t.dir, t.target))
  }

  lemma {:induction false} HoldExit(c: seq<Candle>, flips: seq<Flip>, t: Bracket, j: nat)
    requires t.signal < j < |c| && j <= t.signal + t.limit
    ensures EndsOn(c, t, Hold(c, flips, t, j))
    decreases |c| - j
  {
    hide FlipOn, HitsStop, HitsTarget, OpensBeyond;
    if ExitOn(c, FlipOn(c, flips, j), t, j).None? && j + 1 < |c| {
      HoldExit(c, flips, t, j + 1);
    }
  }

  lemma MultipleIs(dir: int, entry: real, exit: real, dist: real, k: real)
    requires dist > 0.0
    ensures var gain := Gain(dir, entry, exit);
      && (gain == k * dist ==> Multiple(dir, entry, exit, dist) == k)
      && (gain < k * dist ==> Multiple(dir, entry, exit, dist) < k)
      && (gain > k * dist ==> Multiple(dir, entry, exit, dist) > k)
  {
    hide Gain;
    var gain := Gain(dir, entry, exit);
    var r := Multiple(dir, entry, exit, dist);
    assert r * dist == gain;
    assert (r - k) * dist == gain - k * dist;
  }

  predicate AllPositive(c: seq<Candle>) {
    forall i :: 0 <= i < |c| ==> c[i].low > 0.0
  }

  /** The stop costs one unit, more only if its bar opens beyond it; the target pays its multiple
      exactly; every other exit lies strictly between. */
  predicate ResultOk(c: seq<Candle>, t: Bracket, rr: real, reason: Reason, last: nat, r: real) {
    && last < |c|
    && (reason.StopOut? ==> r <= -1.0 && (r < -1.0 <==> OpensBeyond(c[last], t.dir, t.stop)))
    && (!reason.StopOut? && !reason.TargetOut? ==> r > -1.0)
    && (reason.TargetOut? ==> r == rr)
    && (rr > 0.0 && (t.target != 0.0 || AllPositive(c)) ==> r <= rr)
  }

  lemma FillResult(c: seq<Candle>, f: Features, flips: seq<Flip>, p: Params, i: nat, dir: int)
    requires Fits(c, f) && i + 1 < |c| && Distance(f, p, i) > 0.0 && WellFormed(c) && (dir == 1 || dir == -1)
    ensures var x := FillOf(c, f, flips, p, i, dir);
      ResultOk(c, BracketOf(c, f, p, i, dir), p.rr, x.trade.reason, x.last, x.trade.r)
  {
    var t, entry, dist := BracketOf(c, f, p, i, dir), c[i + 1].open, Distance(f, p, i);
    HoldExit(c, flips, t, i + 1);
    assert AllPositive(c) ==> entry > 0.0 by { assert c[i + 1].low <= c[i + 1].open; }
    hide Hold, FlipOn, Distance, WellFormed, AllPositive, StopAt, TargetAt, Multiple, EndsOn, ResultOk;
    ResultBetween(c, t, Hold(c, flips, t, i + 1), entry, dist, p.rr);
  }

  lemma ResultBetween(c: seq<Candle>, t: Bracket, o: Out, entry: real, dist: real, rr: real)
    requires WellFormed(c) && dist > 0.0 && (t.dir == 1 || t.dir == -1) && EndsOn(c, t, o)
    requires t.stop == StopAt(entry, t.dir, dist) && t.target == TargetAt(entry, t.dir, rr, dist)
    requires AllPositive(c) ==> entry > 0.0
    ensures ResultOk(c, t, rr, o.reason, o.last, Multiple(t.dir, entry, o.exit, dist))
  {
    GainBetween(c, t, o, entry, dist, rr);
    hide WellFormed, AllPositive, StopAt, TargetAt, Multiple, EndsOn, OpensBeyond, Gain;
    MultipleIs(t.dir, entry, o.exit, dist, -1.0);
    MultipleIs(t.dir, entry, o.exit, dist, rr);
  }

  lemma Signed(dir: int, x: real)
    requires dir == 1 || dir == -1
    ensures dir as real * x == if dir == 1 then x else -x
  {
  }

  lemma GainBetween(c: seq<Candle>, t: Bracket, o: Out, entry: real, dist: real, rr: real)
    requires WellFormed(c) && dist > 0.0 && (t.dir == 1 || t.dir == -1) && EndsOn(c, t, o)
    requires t.stop == StopAt(entry, t.dir, dist) && t.target == TargetAt(entry, t.dir, rr, dist)
    requires AllPositive(c) ==> entry > 0.0
    ensures var gain := Gain(t.dir, entry, o.exit);
      && o.last < |c|
      && (o.reason.StopOut? ==> gain <= -dist && (gain < -dist <==> OpensBeyond(c[o.last], t.dir, t.stop)))
      && (!o.reason.StopOut? && !o.reason.TargetOut? ==> gain > -dist)
      && (o.reason.TargetOut? ==> gain == rr * dist)
      && (rr > 0.0 && (t.target != 0.0 || AllPositive(c)) ==> gain <= rr * dist)
  {
    var b, reach := c[o.last], rr * dist;
    assert rr > 0.0 ==> reach > 0.0;
    assert t.dir as real * rr * dist == t.dir as real * reach;
    Signed(t.dir, reach);
    Signed(t.dir, dist);
    Signed(t.dir, o.exit - entry);
    assert AllPositive(c) ==> b.low > 0.0;
  }

  predicate FillFair(c: seq<Candle>, f: Features, p: Params, x: Fill) {
    && x.signal + 1 < |c| && x.signal < |f.atr|
    && ResultOk(c, BracketOf(c, f, p, x.signal, x.trade.dir), p.rr, x.trade.reason, x.last, x.trade.r)
  }

  predicate AllFair(c: seq<Candle>, f: Features, p: Params, fs: seq<Fill>) {
    forall k :: 0 <= k < |fs| ==> FillFair(c, f, p, fs[k])
  }

  lemma FairMore(c: seq<Candle>, f: Features, p: Params, x: Fill, fs: seq<Fill>)
    requires FillFair(c, f, p, x) && AllFair(c, f, p, fs)
    ensures AllFair(c, f, p, [x] + fs)
  {
    hide FillFair;
  }

  /** Every trade of every replay loses at most one unit unless its stop bar opened beyond the stop,
      and wins at most the target's multiple. */
  lemma {:induction false} ResultsBounded(c: seq<Candle>, f: Features, flips: seq<Flip>, p: Params, rest: seq<Flip>,
                                          busy: int)
    requires Fits(c, f) && WellFormed(c) && (forall k :: 0 <= k < |rest| ==> rest[k].dir == 1 || rest[k].dir == -1)
    ensures AllFair(c, f, p, Fills(c, f, flips, p, rest, busy))
    decreases |rest|
  {
    if rest != [] {
      hide IndexOf, Distance, Hold, WellFormed, ResultOk, BracketOf, AllFair;
      var i := Accepted(c, f, p, rest[0], busy);
      if i.None? {
        hide Accepted;
        ResultsBounded(c, f, flips, p, rest[1..], busy);
      } else {
        var x := FillOf(c, f, flips, p, i.value, rest[0].dir);
        FillResult(c, f, flips, p, i.value, rest[0].dir);
        assert FillFair(c, f, p, x);
        hide FillOf, FillFair, Accepted;
        ResultsBounded(c, f, flips, p, rest[1..], x.last);
        FairMore(c, f, p, x, Fills(c, f, flips, p, rest[1..], x.last));
      }
    }
  }

  // ----- filters

  predicate Filtered(p: Params, fs: seq<Fill>) {
    && (forall k :: 0 <= k < |fs| ==>
          (p.direction == "long" ==> fs[k].trade.dir >= 0) && (p.direction == "short" ==> fs[k].trade.dir <= 0))
    && (p.minAdx > 100.0 ==> fs == [])
  }

  /** A direction filter lets no trade through against it, and no ADX ever reaches past 100. */
  lemma {:induction false} FiltersHold(c: seq<Candle>, flips: seq<Flip>, p: Params, rest: seq<Flip>, busy: int)
    requires Fits(c, FeaturesOf(c))
    ensures Filtered(p, Fills(c, FeaturesOf(c), flips, p, rest, busy))
    decreases |rest|
  {
    if rest != [] {
      hide IndexOf, Distance, Hold;
      var i := Accepted(c, FeaturesOf(c), p, rest[0], busy);
      if i.None? {
        hide Filtered, Accepted;
        FiltersHold(c, flips, p, rest[1..], busy);
      } else {
        AdxBound(c, i.value);
        var x := FillOf(c, FeaturesOf(c), flips, p, i.value, rest[0].dir);
        assert x.trade.dir == rest[0].dir && p.minAdx <= 100.0;
        assert Filtered(p, [x]);
        hide FillOf, FeaturesOf, Accepted, Filtered;
        FiltersHold(c, flips, p, rest[1..], x.last);
        FilteredMore(p, [x], Fills(c, FeaturesOf(c), flips, p, rest[1..], x.last));
      }
    }
  }

  lemma FilteredMore(p: Params, a: seq<Fill>, b: seq<Fill>)
    requires Filtered(p, a) && Filtered(p, b)
    ensures Filtered(p, a + b)
  {
  }
}

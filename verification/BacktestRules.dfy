/** When the replay opens a trade and when it ends it, in the candles and signals alone. */
module BacktestRules {
  import opened Common
  import opened Indicators
  import opened Backtest

  // ----- where signals fall

  /** The bar of the signal's time; of bars with one time, the last. */
  predicate FallsOn(c: seq<Candle>, fl: Flip, j: nat) {
    j < |c| && c[j].time == fl.time && forall m :: j < m < |c| ==> c[m].time != fl.time
  }

  lemma {:induction false} IndexIff(c: seq<Candle>, fl: Flip, j: nat)
    ensures IndexOf(c, fl.time) == Some(j) <==> FallsOn(c, fl, j)
    decreases |c|
  {
    if c != [] && c[|c| - 1].time != fl.time {
      IndexIff(c[..|c| - 1], fl, j);
    }
  }

  /** The last signal on bar j, if any, points this way. */
  ghost predicate LastSignal(c: seq<Candle>, flips: seq<Flip>, j: nat, dir: int) {
    exists k :: 0 <= k < |flips| && FallsOn(c, flips[k], j) && flips[k].dir == dir
                && forall l :: k < l < |flips| ==> !FallsOn(c, flips[l], j)
  }

  lemma {:induction false} FlipOnIs(c: seq<Candle>, flips: seq<Flip>, j: nat, dir: int)
    requires dir != 0
    ensures FlipOn(c, flips, j) == dir <==> LastSignal(c, flips, j, dir)
    decreases |flips|
  {
    hide FallsOn, IndexOf;
    if flips != [] {
      var n := |flips| - 1;
      IndexIff(c, flips[n], j);
      FlipOnIs(c, flips[..n], j, dir);
      if FallsOn(c, flips[n], j) {
        if LastSignal(c, flips, j, dir) {
          var k :| 0 <= k < |flips| && FallsOn(c, flips[k], j) && flips[k].dir == dir
                   && forall l :: k < l < |flips| ==> !FallsOn(c, flips[l], j);
          assert k == n;
        }
      } else {
        EarlierSignal(c, flips, j, dir);
      }
    }
  }

  lemma EarlierSignal(c: seq<Candle>, flips: seq<Flip>, j: nat, dir: int)
    requires flips != [] && !FallsOn(c, flips[|flips| - 1], j)
    ensures LastSignal(c, flips, j, dir) <==> LastSignal(c, flips[..|flips| - 1], j, dir)
  {
    hide FallsOn;
    var less := flips[..|flips| - 1];
    if k :| 0 <= k < |less| && FallsOn(c, less[k], j) && less[k].dir == dir
            && forall l :: k < l < |less| ==> !FallsOn(c, less[l], j) {
      assert flips[k] == less[k];
      forall l | k < l < |flips| ensures !FallsOn(c, flips[l], j) {
        if l < |less| {
          assert flips[l] == less[l];
        }
      }
    }
    if k :| 0 <= k < |flips| && FallsOn(c, flips[k], j) && flips[k].dir == dir
            && forall l :: k < l < |flips| ==> !FallsOn(c, flips[l], j) {
      assert k < |less| && less[k] == flips[k];
      forall l | k < l < |less| ensures !FallsOn(c, less[l], j) {
        assert flips[l] == less[l];
      }
    }
  }

  // ----- when a trade ends

  /** The bar's range reaches the stop. */
  predicate ReachesStop(b: Candle, t: Bracket) {
    if t.dir > 0 then b.low <= t.stop else b.high >= t.stop
  }

  /** The bar's range reaches the target, if there is one. */
  predicate ReachesTarget(b: Candle, t: Bracket) {
    t.target != 0.0 && if t.dir > 0 then b.high >= t.target else b.low <= t.target
  }

  /** The bar ends the trade. */
  ghost predicate EndsHere(c: seq<Candle>, flips: seq<Flip>, t: Bracket, j: nat)
    requires j < |c|
  {
    || ReachesStop(c[j], t) || ReachesTarget(c[j], t) || LastSignal(c, flips, j, -t.dir) || j == t.signal + t.limit
  }

  /** The trade ends on the first bar that reaches its stop or its target, carries a last signal against it,
      or is the last its time stop allows; failing that, with the data. On that bar the stop comes first,
      at the open if the bar opens beyond it, then the target, then the signal, then the time stop. */
  ghost predicate EndsRightly(c: seq<Candle>, flips: seq<Flip>, t: Bracket, from: nat, o: Out) {
    && from <= o.last < |c|
    && (forall j :: from <= j < o.last ==> !EndsHere(c, flips, t, j))
    && var b := c[o.last];
    && (o.reason.StopOut? <==> ReachesStop(b, t))
    && (o.reason.TargetOut? <==> !ReachesStop(b, t) && ReachesTarget(b, t))
    && (o.reason.Reversal? <==>
          !ReachesStop(b, t) && !ReachesTarget(b, t) && LastSignal(c, flips, o.last, -t.dir))
    && (o.reason.TimeUp? <==>
          && !ReachesStop(b, t) && !ReachesTarget(b, t) && !LastSignal(c, flips, o.last, -t.dir)
          && o.last == t.signal + t.limit)
    && (o.reason.EndOfData? ==> o.last == |c| - 1)
    && o.exit == (match o.reason
                  case StopOut => if t.dir > 0 then MinR(b.open, t.stop) else MaxR(b.open, t.stop)
                  case TargetOut => t.target
                  case _ => b.close)
  }

  lemma BarEnds(c: seq<Candle>, flips: seq<Flip>, t: Bracket, j: nat)
    requires j < |c| && t.dir != 0
    ensures var x := ExitOn(c, FlipOn(c, flips, j), t, j);
      && (x.Some? <==> EndsHere(c, flips, t, j))
      && (x.Some? ==> x.value.last == j && EndsRightly(c, flips, t, j, x.value) && !x.value.reason.EndOfData?)
  {
    hide FlipOn, LastSignal;
    FlipOnIs(c, flips, j, -t.dir);
  }

  lemma {:induction false} HoldEnds(c: seq<Candle>, flips: seq<Flip>, t: Bracket, j: nat)
    requires t.signal < j < |c| && j <= t.signal + t.limit && t.dir != 0
    ensures EndsRightly(c, flips, t, j, Hold(c, flips, t, j))
    decreases |c| - j
  {
    hide FlipOn, LastSignal, ExitOn, ReachesStop, ReachesTarget;
    BarEnds(c, flips, t, j);
    if ExitOn(c, FlipOn(c, flips, j), t, j).None? {
      if j + 1 < |c| {
        HoldEnds(c, flips, t, j + 1);
      }
    }
  }

  /** So every trade of a replay ends. */
  lemma FillEnds(c: seq<Candle>, f: Features, flips: seq<Flip>, p: Params, i: nat, dir: int)
    requires Fits(c, f) && i + 1 < |c| && Distance(f, p, i) > 0.0 && dir != 0
    ensures var x, entry, dist := FillOf(c, f, flips, p, i, dir), c[i + 1].open, p.stopAtr * f.atr[i];
      var t := BracketOf(c, f, p, i, dir);
      && x.signal == i && x.trade.entry == c[i + 1].time && x.trade.dir == dir
      && t.stop == entry - dir as real * dist && t.signal == i && t.dir == dir
      && t.target == (if p.rr > 0.0 then entry + dir as real * p.rr * dist else 0.0)
      && t.limit == (if p.maxBars > 0 then p.maxBars else 200)
      && exists exit :: EndsRightly(c, flips, t, i + 1, Out(exit, x.trade.reason, x.last))
                        && x.trade.r * dist == dir as real * (exit - entry)
  {
    var t, dist := BracketOf(c, f, p, i, dir), Distance(f, p, i);
    var o := Hold(c, flips, t, i + 1);
    HoldEnds(c, flips, t, i + 1);
    var r := Multiple(dir, c[i + 1].open, o.exit, dist);
    assert r * dist == Gain(dir, c[i + 1].open, o.exit);
    hide Hold, EndsRightly;
    assert Out(o.exit, o.reason, o.last) == o;
  }

  // ----- when a signal opens a trade

  /** The signal falls on bar i, past the warm-up and not the last one, in a direction the setting trades,
      with a known range, enough trend, enough volume where that is asked for, and a stop at some distance. */
  predicate Qualifies(c: seq<Candle>, f: Features, p: Params, fl: Flip, i: nat)
    requires Fits(c, f)
  {
    && FallsOn(c, fl, i) && 42 <= i && i + 1 < |c|
    && (p.direction == "long" ==> fl.dir >= 0) && (p.direction == "short" ==> fl.dir <= 0)
    && f.atr[i] > 0.0 && f.adx[i] >= p.minAdx && (p.minVolume > 0.0 ==> f.vol[i] >= p.minVolume)
    && p.stopAtr * f.atr[i] > 0.0
  }

  lemma AcceptedIff(c: seq<Candle>, f: Features, p: Params, fl: Flip, busy: int, i: nat)
    requires Fits(c, f)
    ensures Accepted(c, f, p, fl, busy) == Some(i) <==> Qualifies(c, f, p, fl, i) && i > busy
  {
    hide FallsOn, IndexOf;
    IndexIff(c, fl, i);
  }

  /** The last bar a replay so far is busy on. */
  function BusyAfter(fs: seq<Fill>, busy: int): int {
    if fs == [] then busy else fs[|fs| - 1].last
  }

  lemma {:induction false} FillsJoin(c: seq<Candle>, f: Features, flips: seq<Flip>, p: Params, a: seq<Flip>,
                                     b: seq<Flip>, busy: int)
    requires Fits(c, f)
    ensures var fs := Fills(c, f, flips, p, a, busy);
      Fills(c, f, flips, p, a + b, busy) == fs + Fills(c, f, flips, p, b, BusyAfter(fs, busy))
    decreases |a|
  {
    hide Accepted, FillOf;
    if a == [] {
      assert a + b == b;
    } else {
      assert (a + b)[0] == a[0] && (a + b)[1..] == a[1..] + b;
      match Accepted(c, f, p, a[0], busy)
      case None => FillsJoin(c, f, flips, p, a[1..], b, busy);
      case Some(i) =>
        var x := FillOf(c, f, flips, p, i, a[0].dir);
        FillsJoin(c, f, flips, p, a[1..], b, x.last);
        assert Fills(c, f, flips, p, a, busy) == [x] + Fills(c, f, flips, p, a[1..], x.last);
    }
  }

  /** Of the signals in order, each one opens the next trade exactly if it qualifies and falls after the
      last bar of the trade before; otherwise it is passed over. */
  lemma SignalOpens(c: seq<Candle>, f: Features, flips: seq<Flip>, p: Params, before: seq<Flip>, fl: Flip,
                    after: seq<Flip>, i: nat)
    requires Fits(c, f)
    ensures var fs := Fills(c, f, flips, p, before, -1);
      var all := Fills(c, f, flips, p, before + [fl] + after, -1);
      && (Qualifies(c, f, p, fl, i) && i > BusyAfter(fs, -1) ==>
            |all| > |fs| && all[..|fs|] == fs && all[|fs|] == FillOf(c, f, flips, p, i, fl.dir))
      && ((forall k: nat :: !(Qualifies(c, f, p, fl, k) && k > BusyAfter(fs, -1))) ==>
            all == Fills(c, f, flips, p, before + after, -1))
  {
    var fs := Fills(c, f, flips, p, before, -1);
    var busy := BusyAfter(fs, -1);
    assert before + [fl] + after == before + ([fl] + after);
    FillsJoin(c, f, flips, p, before, [fl] + after, -1);
    FillsJoin(c, f, flips, p, before, after, -1);
    assert ([fl] + after)[0] == fl && ([fl] + after)[1..] == after;
    AcceptedIff(c, f, p, fl, busy, i);
    var x := Accepted(c, f, p, fl, busy);
    if x.Some? {
      AcceptedIff(c, f, p, fl, busy, x.value);
    }
    hide Accepted, FillOf, Qualifies;
  }
}

/** The replay of past signals under one setting: one position at a time, entered at the next bar's
    open, the stop checked before the target. */
module Backtest {
  import opened Common
  import opened Indicators

  datatype Flip = Flip(time: int, dir: int)

  datatype Params = Params(stopAtr: real, rr: real, maxBars: int, minAdx: real, minVolume: real, direction: string)

  datatype Reason = StopOut | TargetOut | Reversal | TimeUp | EndOfData

  datatype Trade = Trade(entry: int, dir: int, r: real, reason: Reason)

  const DEFAULT_MAX_BARS := 200

  // ----- where signals fall

  /** The bar of a time; of bars with one time, the last. */
  function IndexOf(c: seq<Candle>, time: int): (i: Option<nat>)
    ensures i.Some? ==> i.value < |c| && c[i.value].time == time
    ensures i.None? ==> forall k :: 0 <= k < |c| ==> c[k].time != time
  {
    if c == [] then None
    else if c[|c| - 1].time == time then Some(|c| - 1)
    else IndexOf(c[..|c| - 1], time)
  }

  /** The direction of the last signal on bar j, 0 if there is none. */
  function FlipOn(c: seq<Candle>, flips: seq<Flip>, j: nat): int {
    if flips == [] then 0
    else
      var f := flips[|flips| - 1];
      if IndexOf(c, f.time) == Some(j) then f.dir else FlipOn(c, flips[..|flips| - 1], j)
  }

  function Limit(p: Params): nat {
    if p.maxBars <= 0 then DEFAULT_MAX_BARS else p.maxBars
  }

  // ----- one trade

  predicate HitsStop(b: Candle, dir: int, stop: real) {
    (dir > 0 && b.low <= stop) || (dir < 0 && b.high >= stop)
  }

  /** A target of 0 is off. */
  predicate HitsTarget(b: Candle, dir: int, target: real) {
    target != 0.0 && ((dir > 0 && b.high >= target) || (dir < 0 && b.low <= target))
  }

  predicate OpensBeyond(b: Candle, dir: int, stop: real) {
    (dir > 0 && b.open < stop) || (dir < 0 && b.open > stop)
  }

  datatype Bracket = Bracket(signal: nat, dir: int, stop: real, target: real, limit: nat)

  datatype Out = Out(exit: real, reason: Reason, last: nat)

  /** What bar j does to the trade. */
  function ExitOn(c: seq<Candle>, flip: int, t: Bracket, j: nat): Option<Out>
    requires j < |c|
  {
    var b := c[j];
    if HitsStop(b, t.dir, t.stop) then
      Some(Out(if OpensBeyond(b, t.dir, t.stop) then b.open else t.stop, StopOut, j))
    else if HitsTarget(b, t.dir, t.target) then Some(Out(t.target, TargetOut, j))
    else if flip == -t.dir then Some(Out(b.close, Reversal, j))
    else if j == t.signal + t.limit then Some(Out(b.close, TimeUp, j))
    else None
  }

  function Hold(c: seq<Candle>, flips: seq<Flip>, t: Bracket, j: nat): Out
    requires |c| > 0
    decreases |c| - j
  {
    if j >= |c| || j > t.signal + t.limit then Out(c[|c| - 1].close, EndOfData, |c| - 1)
    else ExitOn(c, FlipOn(c, flips, j), t, j).GetOr(Hold(c, flips, t, j + 1))
  }

  /** A trade with the bar of its signal and the last bar it was open on. */
  datatype Fill = Fill(signal: nat, last: nat, trade: Trade)

  function Distance(f: Features, p: Params, i: nat): real
    requires i < |f.atr|
  {
    p.stopAtr * f.atr[i]
  }

  function StopAt(entry: real, dir: int, dist: real): real {
    entry - dir as real * dist
  }

  function TargetAt(entry: real, dir: int, rr: real, dist: real): real {
    if rr > 0.0 then entry + dir as real * rr * dist else 0.0
  }

  function Gain(dir: int, entry: real, exit: real): real {
    dir as real * (exit - entry)
  }

  /** The result in units of the initial stop distance. */
  function Multiple(dir: int, entry: real, exit: real, dist: real): real
    requires dist > 0.0
  {
    Gain(dir, entry, exit) / dist
  }

  function BracketOf(c: seq<Candle>, f: Features, p: Params, i: nat, dir: int): Bracket
    requires i + 1 < |c| && i < |f.atr|
  {
    var entry, dist := c[i + 1].open, Distance(f, p, i);
    Bracket(i, dir, StopAt(entry, dir, dist), TargetAt(entry, dir, p.rr, dist), Limit(p))
  }

  function FillOf(c: seq<Candle>, f: Features, flips: seq<Flip>, p: Params, i: nat, dir: int): Fill
    requires i + 1 < |c| && i < |f.atr| && Distance(f, p, i) > 0.0
  {
    var out := Hold(c, flips, BracketOf(c, f, p, i, dir), i + 1);
    Fill(i, out.last,
         Trade(c[i + 1].time, dir, Multiple(dir, c[i + 1].open, out.exit, Distance(f, p, i)), out.reason))
  }

  // ----- the replay

  predicate Fits(c: seq<Candle>, f: Features) {
    |f.atr| == |c| && |f.adx| == |c| && |f.vol| == |c|
  }

  /** The signal's bar, if it may open a trade while the last one occupies bars up to busy. */
  function Accepted(c: seq<Candle>, f: Features, p: Params, fl: Flip, busy: int): (i: Option<nat>)
    requires Fits(c, f)
    ensures i.Some? ==> WARMUP <= i.value && i.value + 1 < |c| && i.value > busy && Distance(f, p, i.value) > 0.0
  {
    match IndexOf(c, fl.time)
    case None => None
    case Some(i) =>
      if i < WARMUP || i + 1 >= |c| || i <= busy then None
      else if (p.direction == "long" && fl.dir < 0) || (p.direction == "short" && fl.dir > 0) then None
      else if f.atr[i] <= 0.0 || f.adx[i] < p.minAdx || (p.minVolume > 0.0 && f.vol[i] < p.minVolume) then None
      else if Distance(f, p, i) <= 0.0 then None
      else Some(i)
  }

  /** The trades the remaining signals open. */
  function Fills(c: seq<Candle>, f: Features, flips: seq<Flip>, p: Params, rest: seq<Flip>, busy: int): seq<Fill>
    requires Fits(c, f)
    decreases |rest|
  {
    if rest == [] then []
    else
      match Accepted(c, f, p, rest[0], busy)
      case None => Fills(c, f, flips, p, rest[1..], busy)
      case Some(i) =>
        var x := FillOf(c, f, flips, p, i, rest[0].dir);
        [x] + Fills(c, f, flips, p, rest[1..], x.last)
  }

  function TradesOf(fs: seq<Fill>): seq<Trade> {
    seq(|fs|, i requires 0 <= i < |fs| => fs[i].trade)
  }

  function Replay(c: seq<Candle>, flips: seq<Flip>, p: Params): seq<Fill> {
    Fills(c, FeaturesOf(c), flips, p, flips, -1)
  }

  // ----- as it runs

  ghost predicate IsIndex(idx: map<int, nat>, c: seq<Candle>) {
    forall t: int :: (t in idx <==> IndexOf(c, t).Some?) && (t in idx ==> IndexOf(c, t) == Some(idx[t]))
  }

  method BuildIndex(c: seq<Candle>) returns (idx: map<int, nat>)
    ensures IsIndex(idx, c)
  {
    idx := map[];
    for i := 0 to |c|
      invariant IsIndex(idx, c[..i])
    {
      assert c[..i + 1][..i] == c[..i] && c[..i + 1][i] == c[i];
      idx := idx[c[i].time := i];
    }
    assert c[..|c|] == c;
  }

  ghost predicate IsFlipBar(bars: map<nat, int>, c: seq<Candle>, flips: seq<Flip>) {
    forall j: nat :: FlipOn(c, flips, j) == if j in bars then bars[j] else 0
  }

  method BuildFlipBar(idx: map<int, nat>, c: seq<Candle>, flips: seq<Flip>) returns (bars: map<nat, int>)
    requires IsIndex(idx, c)
    ensures IsFlipBar(bars, c, flips)
  {
    hide IndexOf;
    bars := map[];
    for k := 0 to |flips|
      invariant IsFlipBar(bars, c, flips[..k])
    {
      assert flips[..k + 1][..k] == flips[..k] && flips[..k + 1][k] == flips[k];
      if flips[k].time in idx {
        bars := bars[idx[flips[k].time] := flips[k].dir];
      }
    }
    assert flips[..|flips|] == flips;
  }

  method Run(c: seq<Candle>, flips: seq<Flip>, p: Params) returns (out: seq<Trade>)
    ensures out == TradesOf(Replay(c, flips, p))
  {
    var atr, adx, vol := Compute(c);
    out := RunWith(c, atr, adx, vol, flips, p);
  }

  method RunWith(c: seq<Candle>, atr: array<real>, adx: array<real>, vol: array<real>, flips: seq<Flip>, p: Params)
    returns (out: seq<Trade>)
    requires Fits(c, Features(atr[..], adx[..], vol[..]))
    ensures out == TradesOf(Fills(c, Features(atr[..], adx[..], vol[..]), flips, p, flips, -1))
  {
    hide IsIndex, IsFlipBar, Accepted, FillOf;
    var idx := BuildIndex(c);
    var bars := BuildFlipBar(idx, c, flips);
    ghost var f := Features(atr[..], adx[..], vol[..]);
    ghost var fills := [];
    out := [];
    var busyUntil: int := -1;
    for k := 0 to |flips|
      invariant fills + Fills(c, f, flips, p, flips[k..], busyUntil) == Fills(c, f, flips, p, flips, -1)
      invariant out == TradesOf(fills)
    {
      assert flips[k..][0] == flips[k] && flips[k..][1..] == flips[k + 1..];
      var x := Consider(c, atr, adx, vol, idx, bars, flips, p, flips[k], busyUntil);
      if x.Some? {
        ghost var later := Fills(c, f, flips, p, flips[k + 1..], x.value.last);
        assert fills + ([x.value] + later) == (fills + [x.value]) + later;
        fills := fills + [x.value];
        busyUntil := x.value.last;
        out := out + [x.value.trade];
      }
    }
  }

  /** One signal: skipped, or entered at the next open and followed to its exit. */
  method Consider(c: seq<Candle>, atr: array<real>, adx: array<real>, vol: array<real>, idx: map<int, nat>,
                  bars: map<nat, int>, flips: seq<Flip>, p: Params, fl: Flip, busyUntil: int)
    returns (x: Option<Fill>)
    requires Fits(c, Features(atr[..], adx[..], vol[..])) && IsIndex(idx, c) && IsFlipBar(bars, c, flips)
    ensures var f := Features(atr[..], adx[..], vol[..]);
      var i := Accepted(c, f, p, fl, busyUntil);
      x == if i.None? then None else Some(FillOf(c, f, flips, p, i.value, fl.dir))
  {
    LookUp(idx, c, fl.time);
    hide IsIndex, IsFlipBar, IndexOf, Hold;
    if fl.time !in idx {
      return None;
    }
    var i := idx[fl.time];
    if i < WARMUP || i + 1 >= |c| || i <= busyUntil {
      return None;
    }
    if (p.direction == "long" && fl.dir < 0) || (p.direction == "short" && fl.dir > 0) {
      return None;
    }
    if atr[i] <= 0.0 || adx[i] < p.minAdx || (p.minVolume > 0.0 && vol[i] < p.minVolume) {
      return None;
    }
    var entry, dist := c[i + 1].open, p.stopAtr * atr[i];
    if dist <= 0.0 {
      return None;
    }
    hide StopAt, TargetAt, Multiple;
    var maxBars := if p.maxBars <= 0 then DEFAULT_MAX_BARS else p.maxBars;
    var t := Bracket(i, fl.dir, StopAt(entry, fl.dir, dist), TargetAt(entry, fl.dir, p.rr, dist), maxBars);
    var o := Manage(c, bars, flips, t);
    x := Some(Fill(i, o.last, Trade(c[i + 1].time, fl.dir, Multiple(fl.dir, entry, o.exit, dist), o.reason)));
    ghost var f := Features(atr[..], adx[..], vol[..]);
    assert dist == Distance(f, p, i);
    assert x.value == FillOf(c, f, flips, p, i, fl.dir);
  }

  lemma LookUp(idx: map<int, nat>, c: seq<Candle>, time: int)
    requires IsIndex(idx, c)
    ensures IndexOf(c, time) == if time in idx then Some(idx[time]) else None
    ensures time in idx ==> idx[time] < |c|
  {
  }

  /** Walks the bars after the entry until one ends the trade. */
  method Manage(c: seq<Candle>, bars: map<nat, int>, flips: seq<Flip>, t: Bracket) returns (o: Out)
    requires t.signal + 1 < |c| && IsFlipBar(bars, c, flips)
    ensures o == Hold(c, flips, t, t.signal + 1)
  {
    hide FlipOn;
    o := Out(c[|c| - 1].close, EndOfData, |c| - 1);
    var j := t.signal + 1;
    while j < |c| && j <= t.signal + t.limit
      invariant Hold(c, flips, t, j) == Hold(c, flips, t, t.signal + 1)
    {
      var b := c[j];
      var hitStop := (t.dir > 0 && b.low <= t.stop) || (t.dir < 0 && b.high >= t.stop);
      var hitTarget := t.target != 0.0 && ((t.dir > 0 && b.high >= t.target) || (t.dir < 0 && b.low <= t.target));
      var flip := if j in bars then bars[j] else 0;
      assert flip == FlipOn(c, flips, j);
      if hitStop {
        var beyond := (t.dir > 0 && b.open < t.stop) || (t.dir < 0 && b.open > t.stop);
        return Out(if beyond then b.open else t.stop, StopOut, j);
      } else if hitTarget {
        return Out(t.target, TargetOut, j);
      } else if flip == -t.dir {
        return Out(b.close, Reversal, j);
      } else if j == t.signal + t.limit {
        return Out(b.close, TimeUp, j);
      }
      j := j + 1;
    }
  }
}

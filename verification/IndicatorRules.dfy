/** What the indicators measure: spans, decaying sums and ratios of the candles themselves. */
module IndicatorRules {
  import opened Common
  import opened Indicators

  // ----- one bar

  /** The true range is the length of the shortest span that holds the bar and the close before it. */
  lemma TrueRangeIsSpan(c: seq<Candle>, i: nat)
    requires 1 <= i < |c| && c[i].low <= c[i].high
    ensures var pc := c[i - 1].close; TrueRange(c, i) == MaxR(c[i].high, pc) - MinR(c[i].low, pc)
  {
  }

  /** Of the two directional moves at most one is not zero: the rise of the high if it beats the fall of the
      low, the fall of the low if it beats the rise of the high, and neither below zero. */
  lemma MovesAre(c: seq<Candle>, i: nat)
    requires 1 <= i < |c|
    ensures var rise, fall := c[i].high - c[i - 1].high, c[i - 1].low - c[i].low;
      && (rise > fall && rise > 0.0 ==> PlusMove(c, i) == rise && MinusMove(c, i) == 0.0)
      && (fall > rise && fall > 0.0 ==> MinusMove(c, i) == fall && PlusMove(c, i) == 0.0)
      && (rise == fall || (rise <= 0.0 && fall <= 0.0) ==> PlusMove(c, i) == 0.0 && MinusMove(c, i) == 0.0)
  {
  }

  // ----- decaying sums

  /** Thirteen fourteenths, n times over. */
  function Decay(n: nat): real {
    if n == 0 then 1.0 else Decay(n - 1) * 13.0 / 14.0
  }

  /** The sum of the values from one index to another, each decayed since it was added, those up to the
      seed only since the seed. */
  function Decayed(xs: seq<real>, from: nat, seed: nat, i: nat, k: nat): real
    requires from <= k + 1 <= |xs| && k <= i && seed <= i
    decreases k
  {
    if k + 1 == from || k == 0 then 0.0
    else Decayed(xs, from, seed, i, k - 1) + xs[k] * Decay(i - if k <= seed then seed else k)
  }

  lemma {:induction false} DecayedMore(xs: seq<real>, from: nat, seed: nat, i: nat, k: nat)
    requires from <= k + 1 <= |xs| && k <= i && seed <= i
    ensures Decayed(xs, from, seed, i + 1, k) == Decayed(xs, from, seed, i, k) * 13.0 / 14.0
    decreases k
  {
    if k + 1 != from && k != 0 {
      DecayedMore(xs, from, seed, i, k - 1);
      var since := i - if k <= seed then seed else k;
      assert Decay(since + 1) == Decay(since) * 13.0 / 14.0;
      Spread(Decayed(xs, from, seed, i, k - 1), xs[k], Decay(since));
    }
  }

  lemma Spread(a: real, x: real, d: real)
    ensures a * 13.0 / 14.0 + x * (d * 13.0 / 14.0) == (a + x * d) * 13.0 / 14.0
  {
    assert x * (d * 13.0 / 14.0) == x * d * 13.0 / 14.0;
  }

  function Ranges(c: seq<Candle>): seq<real> {
    seq(|c|, j requires 0 <= j < |c| => if j == 0 then 0.0 else TrueRange(c, j))
  }

  function Rises(c: seq<Candle>): seq<real> {
    seq(|c|, j requires 0 <= j < |c| => if j == 0 then 0.0 else PlusMove(c, j))
  }

  function Falls(c: seq<Candle>): seq<real> {
    seq(|c|, j requires 0 <= j < |c| => if j == 0 then 0.0 else MinusMove(c, j))
  }

  lemma {:induction false} PlainSum(xs: seq<real>, k: nat)
    requires k < |xs| && 1 <= k <= 14
    ensures Decayed(xs, 1, 14, 14, k) == Decayed(xs, 1, 14, 14, k - 1) + xs[k]
  {
    assert Decay(0) == 1.0;
  }

  lemma {:induction false} SeedSums(c: seq<Candle>, i: nat)
    requires i < |c| && i <= 14
    ensures var s := Smoothed(c, i);
      && s.tr == Decayed(Ranges(c), 1, 14, 14, i) && s.plus == Decayed(Rises(c), 1, 14, 14, i)
      && s.minus == Decayed(Falls(c), 1, 14, 14, i)
  {
    hide TrueRange, PlusMove, MinusMove;
    if i > 0 {
      SeedSums(c, i - 1);
      PlainSum(Ranges(c), i);
      PlainSum(Rises(c), i);
      PlainSum(Falls(c), i);
    }
  }

  /** From bar 14 on the running sums are the sums of all values since bar 1, each losing a fourteenth per
      bar after the first fourteen. */
  lemma {:induction false} SumsDecay(c: seq<Candle>, i: nat)
    requires 14 <= i < |c|
    ensures var s := Smoothed(c, i);
      && s.tr == Decayed(Ranges(c), 1, 14, i, i) && s.plus == Decayed(Rises(c), 1, 14, i, i)
      && s.minus == Decayed(Falls(c), 1, 14, i, i)
    decreases i
  {
    hide TrueRange, PlusMove, MinusMove;
    if i == 14 {
      SeedSums(c, 14);
    } else {
      SumsDecay(c, i - 1);
      OneMoreBar(Ranges(c), 1, 14, i);
      OneMoreBar(Rises(c), 1, 14, i);
      OneMoreBar(Falls(c), 1, 14, i);
    }
  }

  lemma OneMoreBar(xs: seq<real>, from: nat, seed: nat, i: nat)
    requires 0 < i < |xs| && from <= i && seed < i
    ensures Decayed(xs, from, seed, i, i) == Decayed(xs, from, seed, i - 1, i - 1) * 13.0 / 14.0 + xs[i]
  {
    DecayedMore(xs, from, seed, i - 1, i - 1);
    assert Decay(0) == 1.0;
  }

  /** The average true range from bar 14 on: a fourteenth of that sum. */
  lemma AtrIs(c: seq<Candle>, i: nat)
    requires 14 <= i < |c| && |c| > 15
    ensures Atr(c, i) == Decayed(Ranges(c), 1, 14, i, i) / 14.0
  {
    SumsDecay(c, i);
    hide Smoothed, Decayed;
  }

  // ----- the directional index

  /** How one-sided the movement is: the difference of the two sums against their total. */
  lemma IndexIs(s: Sums)
    requires s.tr > 0.0 && s.plus >= 0.0 && s.minus >= 0.0
    ensures s.plus + s.minus > 0.0 ==>
      Index(s) * (s.plus + s.minus) == 100.0 * AbsR(s.plus - s.minus)
    ensures s.plus + s.minus == 0.0 ==> Index(s) == 0.0
  {
    var p, m := 100.0 * s.plus / s.tr, 100.0 * s.minus / s.tr;
    assert p * s.tr == 100.0 * s.plus && m * s.tr == 100.0 * s.minus;
    if s.plus + s.minus > 0.0 {
      assert (p + m) * s.tr == 100.0 * (s.plus + s.minus);
      assert p + m > 0.0;
      var x := 100.0 * AbsR(p - m) / (p + m);
      assert x * (p + m) == 100.0 * AbsR(p - m);
      assert (p - m) * s.tr == 100.0 * (s.plus - s.minus);
      Cleared(x, p, m, s);
    }
  }

  lemma Cleared(x: real, p: real, m: real, s: Sums)
    requires s.tr > 0.0 && x * (p + m) == 100.0 * AbsR(p - m)
    requires (p + m) * s.tr == 100.0 * (s.plus + s.minus) && (p - m) * s.tr == 100.0 * (s.plus - s.minus)
    ensures x * (s.plus + s.minus) == 100.0 * AbsR(s.plus - s.minus)
  {
    AbsScaled(p - m, s.tr);
    assert AbsR(p - m) * s.tr == AbsR((p - m) * s.tr) == 100.0 * AbsR(s.plus - s.minus);
    assert x * ((p + m) * s.tr) == (x * (p + m)) * s.tr;
    assert x * (100.0 * (s.plus + s.minus)) == 100.0 * (x * (s.plus + s.minus));
  }

  lemma AbsScaled(a: real, k: real)
    requires k > 0.0
    ensures AbsR(a) * k == AbsR(a * k)
  {
    if a >= 0.0 {
      assert a * k >= 0.0;
    } else {
      assert a * k < 0.0;
    }
  }

  function Indices(c: seq<Candle>): seq<real> {
    seq(|c|, j requires 0 <= j < |c| => Dx(c, j))
  }

  lemma {:induction false} DxSumIs(c: seq<Candle>, k: nat)
    requires 13 <= k < |c| && k <= 27
    ensures DxSum(c, k + 1) == Decayed(Indices(c), 14, 27, 27, k)
    decreases k
  {
    hide Dx;
    if k > 13 {
      DxSumIs(c, k - 1);
      assert Decay(0) == 1.0;
    }
  }

  /** The ADX from bar 27 on: a fourteenth of the sum of the indices since bar 14, each losing a fourteenth
      per bar after the first fourteen. */
  lemma {:induction false} AdxIs(c: seq<Candle>, i: nat)
    requires 27 <= i < |c| && |c| > 28
    ensures Adx(c, i) == Decayed(Indices(c), 14, 27, i, i) / 14.0
    decreases i
  {
    hide Dx;
    if i == 27 {
      DxSumIs(c, 27);
    } else {
      AdxIs(c, i - 1);
      OneMoreBar(Indices(c), 14, 27, i);
    }
    hide Decayed;
  }

  // ----- the volume ratio

  /** Bars with a known volume among some. */
  function Known(c: seq<Candle>, lo: nat, hi: nat): set<nat>
    requires lo <= hi <= |c|
  {
    set k: nat | lo <= k < hi && c[k].volume > 0.0
  }

  /** The total of the known volumes. */
  function Total(c: seq<Candle>, lo: nat, hi: nat): real
    requires lo <= hi <= |c|
    decreases hi - lo
  {
    if lo == hi then 0.0 else MaxR(c[lo].volume, 0.0) + Total(c, lo + 1, hi)
  }

  lemma {:induction false} TotalLast(c: seq<Candle>, lo: nat, hi: nat)
    requires lo < hi <= |c|
    ensures Total(c, lo, hi) == Total(c, lo, hi - 1) + MaxR(c[hi - 1].volume, 0.0)
    decreases hi - lo
  {
    if lo + 1 < hi {
      TotalLast(c, lo + 1, hi);
    }
  }

  lemma {:induction false} VolumesAre(c: seq<Candle>, lo: nat, hi: nat)
    requires lo <= hi <= |c|
    ensures Volumes(c, lo, hi) == (Total(c, lo, hi), |Known(c, lo, hi)|) && Total(c, lo, hi) >= 0.0
    decreases hi
  {
    if lo < hi {
      VolumesAre(c, lo, hi - 1);
      TotalLast(c, lo, hi);
      if c[hi - 1].volume > 0.0 {
        assert Known(c, lo, hi) == Known(c, lo, hi - 1) + {hi - 1};
      } else {
        assert Known(c, lo, hi) == Known(c, lo, hi - 1);
      }
    }
  }

  /** A bar's volume against the mean of the known volumes of the twenty bars before, when ten of them and
      the bar's own are known; else 0. */
  lemma RatioIs(c: seq<Candle>, i: nat)
    requires 20 <= i < |c| && |c| > 15
    ensures var known, total := |Known(c, i - 20, i)|, Total(c, i - 20, i);
      if known >= 10 && c[i].volume > 0.0 then VolumeRatio(c, i) * total == c[i].volume * known as real
      else VolumeRatio(c, i) == 0.0
  {
    hide VolumeRatio, Known, Total, Volumes;
    var known, total := |Known(c, i - 20, i)|, Total(c, i - 20, i);
    VolumesAre(c, i - 20, i);
    RatioOf(c, i, total, known);
    if known >= 10 && c[i].volume > 0.0 {
      SomeKnown(c, i - 20, i);
      MeanRatio(c[i].volume, total, known as real);
    }
  }

  lemma RatioOf(c: seq<Candle>, i: nat, total: real, known: nat)
    requires 20 <= i < |c| && |c| > 15 && Volumes(c, i - 20, i) == (total, known)
    ensures VolumeRatio(c, i) ==
      if known >= 10 && total > 0.0 && c[i].volume > 0.0 then c[i].volume / (total / known as real) else 0.0
  {
    hide Volumes;
  }

  lemma MeanRatio(v: real, total: real, n: real)
    requires total > 0.0 && n > 0.0
    ensures total / n > 0.0 && v / (total / n) * total == v * n
  {
    var mean := total / n;
    assert mean * n == total;
    var r := v / mean;
    assert r * mean == v;
    assert r * total == (r * mean) * n;
  }

  lemma {:induction false} SomeKnown(c: seq<Candle>, lo: nat, hi: nat)
    requires lo <= hi <= |c| && |Known(c, lo, hi)| > 0
    ensures Total(c, lo, hi) > 0.0
  {
    VolumesAre(c, lo, hi);
    var k :| k in Known(c, lo, hi);
    AboveOne(c, lo, hi, k);
  }

  lemma {:induction false} AboveOne(c: seq<Candle>, lo: nat, hi: nat, k: nat)
    requires lo <= k < hi <= |c|
    ensures Total(c, lo, hi) >= c[k].volume
    decreases hi - lo
  {
    VolumesAre(c, lo + 1, hi);
    if k > lo {
      AboveOne(c, lo + 1, hi, k);
    }
  }

  /** Before the indicators have enough bars they are 0. */
  lemma TooEarly(c: seq<Candle>, i: nat)
    requires i < |c|
    ensures |c| <= 15 || i < 14 ==> Atr(c, i) == 0.0
    ensures |c| <= 28 || i < 27 ==> Adx(c, i) == 0.0
    ensures |c| <= 15 || i < 20 ==> VolumeRatio(c, i) == 0.0
  {
  }
}

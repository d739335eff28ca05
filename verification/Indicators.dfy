/** Wilder's average true range and directional index, and the volume ratio, of every bar. */
module Indicators {
  import opened Common

  /** Times are whole seconds; a volume of 0 is unknown. */
  datatype Candle = Candle(time: int, open: real, high: real, low: real, close: real, volume: real)

  const PERIOD := 14
  const VOL_WINDOW := 20
  const WARMUP := 3 * PERIOD

  const SPAN: real := 14.0

  // ----- one bar against the one before

  function TrueRange(c: seq<Candle>, i: nat): real
    requires 1 <= i < |c|
  {
    var pc := c[i - 1].close;
    MaxR(c[i].high - c[i].low, MaxR(AbsR(c[i].high - pc), AbsR(c[i].low - pc)))
  }

  function Up(c: seq<Candle>, i: nat): real
    requires 1 <= i < |c|
  {
    c[i].high - c[i - 1].high
  }

  function Down(c: seq<Candle>, i: nat): real
    requires 1 <= i < |c|
  {
    c[i - 1].low - c[i].low
  }

  function PlusMove(c: seq<Candle>, i: nat): real
    requires 1 <= i < |c|
  {
    if Up(c, i) > Down(c, i) && Up(c, i) > 0.0 then Up(c, i) else 0.0
  }

  function MinusMove(c: seq<Candle>, i: nat): real
    requires 1 <= i < |c|
  {
    if Down(c, i) > Up(c, i) && Down(c, i) > 0.0 then Down(c, i) else 0.0
  }

  // ----- the recurrences

  /** Running sums of true range and directional movement. */
  datatype Sums = Sums(tr: real, plus: real, minus: real)

  /** Plain sums over the first period, then Wilder's smoothing. */
  function Smoothed(c: seq<Candle>, i: nat): Sums
    requires i < |c|
  {
    if i == 0 then Sums(0.0, 0.0, 0.0)
    else
      var s := Smoothed(c, i - 1);
      if i <= PERIOD then
        Sums(s.tr + TrueRange(c, i), s.plus + PlusMove(c, i), s.minus + MinusMove(c, i))
      else
        Sums(s.tr - s.tr / SPAN + TrueRange(c, i), s.plus - s.plus / SPAN + PlusMove(c, i),
             s.minus - s.minus / SPAN + MinusMove(c, i))
  }

  /** How one-sided the movement is, 0 to 100. */
  function Index(s: Sums): real {
    if s.tr == 0.0 then 0.0
    else
      var pdi, mdi := 100.0 * s.plus / s.tr, 100.0 * s.minus / s.tr;
      if pdi + mdi > 0.0 then 100.0 * AbsR(pdi - mdi) / (pdi + mdi) else 0.0
  }

  function Dx(c: seq<Candle>, i: nat): real
    requires i < |c|
  {
    if i < PERIOD then 0.0 else Index(Smoothed(c, i))
  }

  /** The sum of the index over bars PERIOD to i - 1. */
  function DxSum(c: seq<Candle>, i: nat): real
    requires PERIOD <= i <= |c|
  {
    if i == PERIOD then 0.0 else DxSum(c, i - 1) + Dx(c, i - 1)
  }

  /** The Wilder average of the index, seeded with the mean of its first values. */
  function AverageDx(c: seq<Candle>, i: nat): real
    requires 2 * PERIOD - 1 <= i < |c|
  {
    if i == 2 * PERIOD - 1 then DxSum(c, i + 1) / SPAN
    else (AverageDx(c, i - 1) * (SPAN - 1.0) + Dx(c, i)) / SPAN
  }

  /** Total and number of the known volumes of bars lo to hi - 1. */
  function Volumes(c: seq<Candle>, lo: nat, hi: nat): (v: (real, nat))
    requires lo <= hi <= |c|
    ensures v.0 > 0.0 ==> v.1 > 0
  {
    if lo == hi then (0.0, 0)
    else
      var v := Volumes(c, lo, hi - 1);
      if c[hi - 1].volume > 0.0 then (v.0 + c[hi - 1].volume, v.1 + 1) else v
  }

  // ----- the three series

  function Atr(c: seq<Candle>, i: nat): real
    requires i < |c|
  {
    if |c| <= PERIOD + 1 || i < PERIOD then 0.0 else Smoothed(c, i).tr / SPAN
  }

  function Adx(c: seq<Candle>, i: nat): real
    requires i < |c|
  {
    if |c| <= 2 * PERIOD || i < 2 * PERIOD - 1 then 0.0 else AverageDx(c, i)
  }

  function VolumeRatio(c: seq<Candle>, i: nat): real
    requires i < |c|
  {
    if |c| <= PERIOD + 1 || i < VOL_WINDOW then 0.0
    else
      var v := Volumes(c, i - VOL_WINDOW, i);
      if v.1 >= VOL_WINDOW / 2 && v.0 > 0.0 && c[i].volume > 0.0 then c[i].volume / (v.0 / v.1 as real) else 0.0
  }

  datatype Features = Features(atr: seq<real>, adx: seq<real>, vol: seq<real>)

  function FeaturesOf(c: seq<Candle>): Features {
    Features(seq(|c|, i requires 0 <= i < |c| => Atr(c, i)),
             seq(|c|, i requires 0 <= i < |c| => Adx(c, i)),
             seq(|c|, i requires 0 <= i < |c| => VolumeRatio(c, i)))
  }

  // ----- as computed

  method Compute(c: seq<Candle>) returns (atr: array<real>, adx: array<real>, vol: array<real>)
    ensures fresh(atr) && fresh(adx) && fresh(vol)
    ensures Features(atr[..], adx[..], vol[..]) == FeaturesOf(c)
  {
    hide TrueRange, PlusMove, MinusMove, Index, Volumes, Smoothed;
    var n := |c|;
    atr, adx, vol := new real[n](_ => 0.0), new real[n](_ => 0.0), new real[n](_ => 0.0);
    if n > PERIOD + 1 {
      var dx := Directional(c, atr);
      Average(c, dx, adx);
      Ratios(c, vol);
    }
  }

  method Moves(c: seq<Candle>) returns (tr: array<real>, pdm: array<real>, mdm: array<real>)
    ensures fresh(tr) && fresh(pdm) && fresh(mdm)
    ensures tr.Length == |c| && pdm.Length == |c| && mdm.Length == |c|
    ensures forall k :: 1 <= k < |c| ==>
      tr[k] == TrueRange(c, k) && pdm[k] == PlusMove(c, k) && mdm[k] == MinusMove(c, k)
  {
    var n := |c|;
    tr, pdm, mdm := new real[n](_ => 0.0), new real[n](_ => 0.0), new real[n](_ => 0.0);
    if n == 0 {
      return;
    }
    for i := 1 to n
      invariant forall k :: 1 <= k < i ==>
        tr[k] == TrueRange(c, k) && pdm[k] == PlusMove(c, k) && mdm[k] == MinusMove(c, k)
      invariant forall k :: i <= k < n ==> pdm[k] == 0.0 && mdm[k] == 0.0
    {
      var h, l, pc := c[i].high, c[i].low, c[i - 1].close;
      tr[i] := MaxR(h - l, MaxR(AbsR(h - pc), AbsR(l - pc)));
      var up, dn := h - c[i - 1].high, c[i - 1].low - l;
      if up > dn && up > 0.0 {
        pdm[i] := up;
      }
      if dn > up && dn > 0.0 {
        mdm[i] := dn;
      }
    }
  }

  /** The sums over the first period. */
  method Seed(c: seq<Candle>, tr: array<real>, pdm: array<real>, mdm: array<real>) returns (s: Sums)
    requires |c| > PERIOD + 1 && tr.Length == |c| && pdm.Length == |c| && mdm.Length == |c|
    requires forall k :: 1 <= k < |c| ==>
      tr[k] == TrueRange(c, k) && pdm[k] == PlusMove(c, k) && mdm[k] == MinusMove(c, k)
    ensures s == Smoothed(c, PERIOD)
  {
    hide TrueRange, PlusMove, MinusMove;
    var sTR, sP, sM := 0.0, 0.0, 0.0;
    for i := 1 to PERIOD + 1
      invariant Sums(sTR, sP, sM) == Smoothed(c, i - 1)
    {
      sTR, sP, sM := sTR + tr[i], sP + pdm[i], sM + mdm[i];
    }
    s := Sums(sTR, sP, sM);
  }

  /** True range and directional movement: the average range per bar, and the index. */
  method Directional(c: seq<Candle>, atr: array<real>) returns (dx: array<real>)
    requires |c| > PERIOD + 1 && atr.Length == |c|
    requires forall k :: 0 <= k < |c| ==> atr[k] == 0.0
    modifies atr
    ensures fresh(dx) && dx.Length == |c|
    ensures forall k :: 0 <= k < |c| ==> atr[k] == Atr(c, k)
    ensures forall k :: 0 <= k < |c| ==> dx[k] == Dx(c, k)
  {
    hide Index, TrueRange, PlusMove, MinusMove;
    var tr, pdm, mdm := Moves(c);
    var s := Seed(c, tr, pdm, mdm);
    dx := new real[|c|](_ => 0.0);
    atr[PERIOD] := s.tr / SPAN;
    dx[PERIOD] := Index(s);
    for i := PERIOD + 1 to |c|
      invariant s == Smoothed(c, i - 1)
      invariant forall k :: 0 <= k < i ==> atr[k] == Atr(c, k)
      invariant forall k :: 0 <= k < i ==> dx[k] == Dx(c, k)
      invariant forall k :: 1 <= k < |c| ==>
        tr[k] == TrueRange(c, k) && pdm[k] == PlusMove(c, k) && mdm[k] == MinusMove(c, k)
    {
      s := Sums(s.tr - s.tr / SPAN + tr[i], s.plus - s.plus / SPAN + pdm[i], s.minus - s.minus / SPAN + mdm[i]);
      atr[i] := s.tr / SPAN;
      dx[i] := Index(s);
    }
  }

  method Average(c: seq<Candle>, dx: array<real>, adx: array<real>)
    requires dx.Length == |c| && adx.Length == |c| && dx != adx
    requires forall k :: 0 <= k < |c| ==> dx[k] == Dx(c, k) && adx[k] == 0.0
    modifies adx
    ensures forall k :: 0 <= k < |c| ==> adx[k] == Adx(c, k)
  {
    hide Dx;
    var n := |c|;
    if n > 2 * PERIOD {
      var s := 0.0;
      for i := PERIOD to 2 * PERIOD
        invariant s == DxSum(c, i)
      {
        s := s + dx[i];
      }
      adx[2 * PERIOD - 1] := s / SPAN;
      for i := 2 * PERIOD to n
        invariant forall k :: 0 <= k < i ==> adx[k] == Adx(c, k)
        invariant forall k :: 0 <= k < n ==> dx[k] == Dx(c, k)
      {
        hide DxSum;
        adx[i] := (adx[i - 1] * (SPAN - 1.0) + dx[i]) / SPAN;
      }
    }
  }

  method Ratios(c: seq<Candle>, vol: array<real>)
    requires |c| > PERIOD + 1 && vol.Length == |c|
    requires forall k :: 0 <= k < |c| ==> vol[k] == 0.0
    modifies vol
    ensures forall k :: 0 <= k < |c| ==> vol[k] == VolumeRatio(c, k)
  {
    var n := |c|;
    if n <= VOL_WINDOW {
      return;
    }
    for i := VOL_WINDOW to n
      invariant forall k :: 0 <= k < i ==> vol[k] == VolumeRatio(c, k)
      invariant forall k :: i <= k < n ==> vol[k] == 0.0
    {
      hide VolumeRatio;
      var s, k := VolumeOf(c, i - VOL_WINDOW, i);
      if k >= VOL_WINDOW / 2 && s > 0.0 && c[i].volume > 0.0 {
        vol[i] := c[i].volume / (s / k as real);
      }
      RatioIs(c, i);
    }
  }

  lemma RatioIs(c: seq<Candle>, i: nat)
    requires |c| > PERIOD + 1 && VOL_WINDOW <= i < |c|
    ensures var v := Volumes(c, i - VOL_WINDOW, i);
      VolumeRatio(c, i) ==
        if v.1 >= VOL_WINDOW / 2 && v.0 > 0.0 && c[i].volume > 0.0 then c[i].volume / (v.0 / v.1 as real) else 0.0
  {
  }

  method VolumeOf(c: seq<Candle>, lo: nat, hi: nat) returns (s: real, k: nat)
    requires lo <= hi <= |c|
    ensures (s, k) == Volumes(c, lo, hi)
  {
    s, k := 0.0, 0;
    for j := lo to hi
      invariant (s, k) == Volumes(c, lo, j)
    {
      if c[j].volume > 0.0 {
        s, k := s + c[j].volume, k + 1;
      }
    }
  }

  // ----- no bar sees a later one

  lemma {:induction false} SmoothedCausal(c: seq<Candle>, d: seq<Candle>, i: nat)
    requires c <= d && i < |c|
    ensures Smoothed(c, i) == Smoothed(d, i)
    decreases i
  {
    if i > 0 {
      SmoothedCausal(c, d, i - 1);
    }
  }

  lemma DxCausal(c: seq<Candle>, d: seq<Candle>, i: nat)
    requires c <= d && i < |c|
    ensures Dx(c, i) == Dx(d, i)
  {
    SmoothedCausal(c, d, i);
    hide Smoothed, Index;
  }

  lemma {:induction false} DxSumCausal(c: seq<Candle>, d: seq<Candle>, i: nat)
    requires c <= d && PERIOD <= i <= |c|
    ensures DxSum(c, i) == DxSum(d, i)
    decreases i
  {
    hide Dx;
    if i > PERIOD {
      DxCausal(c, d, i - 1);
      DxSumCausal(c, d, i - 1);
    }
  }

  lemma {:induction false} AverageDxCausal(c: seq<Candle>, d: seq<Candle>, i: nat)
    requires c <= d && 2 * PERIOD - 1 <= i < |c|
    ensures AverageDx(c, i) == AverageDx(d, i)
    decreases i
  {
    hide Dx;
    if i == 2 * PERIOD - 1 {
      DxSumCausal(c, d, i + 1);
    } else {
      DxCausal(c, d, i);
      AverageDxCausal(c, d, i - 1);
    }
  }

  lemma {:induction false} VolumesCausal(c: seq<Candle>, d: seq<Candle>, lo: nat, hi: nat)
    requires c <= d && lo <= hi <= |c|
    ensures Volumes(c, lo, hi) == Volumes(d, lo, hi)
    decreases hi
  {
    if lo < hi {
      VolumesCausal(c, d, lo, hi - 1);
    }
  }

  /** Past the warm-up, appending candles never changes the features of a bar. */
  lemma FeaturesCausal(c: seq<Candle>, d: seq<Candle>, i: nat)
    requires c <= d && WARMUP <= i < |c|
    ensures Atr(c, i) == Atr(d, i) && Adx(c, i) == Adx(d, i) && VolumeRatio(c, i) == VolumeRatio(d, i)
  {
    SmoothedCausal(c, d, i);
    AverageDxCausal(c, d, i);
    VolumesCausal(c, d, i - VOL_WINDOW, i);
    hide Smoothed, AverageDx, Volumes;
  }

  // ----- bounds

  lemma {:induction false} SmoothedNonNegative(c: seq<Candle>, i: nat)
    requires i < |c|
    ensures Smoothed(c, i).tr >= 0.0 && Smoothed(c, i).plus >= 0.0 && Smoothed(c, i).minus >= 0.0
    decreases i
  {
    if i > 0 {
      SmoothedNonNegative(c, i - 1);
      assert PlusMove(c, i) >= 0.0 && MinusMove(c, i) >= 0.0 && TrueRange(c, i) >= 0.0;
      hide PlusMove, MinusMove, TrueRange;
    }
  }

  lemma QuotientBound(x: real, y: real, limit: real)
    requires 0.0 <= x <= limit * y && y > 0.0
    ensures 0.0 <= x / y <= limit
  {
    var q := x / y;
    assert q * y == x;
    if q > limit {
      assert (q - limit) * y > 0.0;
      assert q * y - limit * y > 0.0;
    }
  }

  lemma RatioBound(a: real, b: real)
    requires a >= 0.0 && b >= 0.0 && a + b > 0.0
    ensures 0.0 <= 100.0 * AbsR(a - b) / (a + b) <= 100.0
  {
    QuotientBound(100.0 * AbsR(a - b), a + b, 100.0);
  }

  lemma QuotientNonNegative(a: real, b: real)
    requires a >= 0.0 && b > 0.0
    ensures a / b >= 0.0
  {
  }

  lemma IndexBound(s: Sums)
    requires s.tr >= 0.0 && s.plus >= 0.0 && s.minus >= 0.0
    ensures 0.0 <= Index(s) <= 100.0
  {
    if s.tr > 0.0 {
      QuotientNonNegative(100.0 * s.plus, s.tr);
      QuotientNonNegative(100.0 * s.minus, s.tr);
      var pdi, mdi := 100.0 * s.plus / s.tr, 100.0 * s.minus / s.tr;
      if pdi + mdi > 0.0 {
        RatioBound(pdi, mdi);
      }
    }
  }

  lemma DxBound(c: seq<Candle>, i: nat)
    requires i < |c|
    ensures 0.0 <= Dx(c, i) <= 100.0
  {
    SmoothedNonNegative(c, i);
    IndexBound(Smoothed(c, i));
    hide Smoothed, Index;
  }

  lemma {:induction false} DxSumBound(c: seq<Candle>, i: nat)
    requires PERIOD <= i <= |c|
    ensures 0.0 <= DxSum(c, i) <= 100.0 * (i - PERIOD) as real
    decreases i
  {
    hide Dx;
    if i > PERIOD {
      DxBound(c, i - 1);
      DxSumBound(c, i - 1);
    }
  }

  /** ADX is a percentage on every bar of every series. */
  lemma {:induction false} AdxBound(c: seq<Candle>, i: nat)
    requires i < |c|
    ensures 0.0 <= Adx(c, i) <= 100.0
    decreases i
  {
    hide Dx, DxSum;
    if |c| > 2 * PERIOD && i == 2 * PERIOD - 1 {
      DxSumBound(c, i + 1);
    } else if |c| > 2 * PERIOD && i > 2 * PERIOD - 1 {
      AdxBound(c, i - 1);
      DxBound(c, i);
    }
  }
}

/** The summary of a list of trades, and its split at a date. */
module Statistics {
  import opened Common
  import opened Indicators
  import opened Backtest
  import opened BacktestTheorems

  datatype Stats = Stats(trades: nat, winRate: real, expectancy: real, totalR: real, profitFactor: real, maxDD: real)

  // ----- definitions

  /** The account after the first k trades. */
  function Sum(t: seq<Trade>, k: nat): real
    requires k <= |t|
  {
    if k == 0 then 0.0 else Sum(t, k - 1) + t[k - 1].r
  }

  function Wins(t: seq<Trade>, k: nat): nat
    requires k <= |t|
  {
    if k == 0 then 0 else Wins(t, k - 1) + (if t[k - 1].r > 0.0 then 1 else 0)
  }

  /** What the winning trades made. */
  function Won(t: seq<Trade>, k: nat): real
    requires k <= |t|
  {
    if k == 0 then 0.0 else Won(t, k - 1) + MaxR(t[k - 1].r, 0.0)
  }

  /** What the others lost, as a positive number. */
  function Lost(t: seq<Trade>, k: nat): real
    requires k <= |t|
  {
    if k == 0 then 0.0 else Lost(t, k - 1) + MaxR(-t[k - 1].r, 0.0)
  }

  /** The account's highest point so far, counting the empty start. */
  ghost predicate IsPeak(t: seq<Trade>, k: nat, peak: real)
    requires k <= |t|
  {
    && (forall i :: 0 <= i <= k ==> Sum(t, i) <= peak)
    && exists i :: 0 <= i <= k && Sum(t, i) == peak
  }

  /** The deepest fall from any point of the account to any later one. */
  ghost predicate IsDrawdown(t: seq<Trade>, k: nat, d: real)
    requires k <= |t|
  {
    && (forall i, j :: 0 <= i <= j <= k ==> Sum(t, i) - Sum(t, j) <= d)
    && exists i, j :: 0 <= i <= j <= k && Sum(t, i) - Sum(t, j) == d
  }

  // ----- as computed

  method Summarize(t: seq<Trade>) returns (s: Stats)
    ensures s.trades == |t| && s.totalR == Sum(t, |t|)
    ensures IsDrawdown(t, |t|, s.maxDD)
    ensures t == [] ==> s.winRate == 0.0 && s.expectancy == 0.0 && s.profitFactor == 0.0
    ensures t != [] ==> s.winRate == Wins(t, |t|) as real / |t| as real && s.expectancy == s.totalR / |t| as real
    ensures s.profitFactor ==
      if Lost(t, |t|) > 0.0 then Won(t, |t|) / Lost(t, |t|) else if Won(t, |t|) > 0.0 then 99.0 else 0.0
    ensures s.totalR > 0.0 <==> s.profitFactor > 1.0
    ensures s.winRate > 0.0 <==> s.profitFactor > 0.0
  {
    hide IsPeak, IsDrawdown;
    StartPoint(t);
    WonLessLost(t, |t|);
    FactorSides(Won(t, |t|), Lost(t, |t|));
    s := Stats(|t|, 0.0, 0.0, 0.0, 0.0, 0.0);
    if t == [] {
      return;
    }
    var win, loss, cum, peak, wins: nat := 0.0, 0.0, 0.0, 0.0, 0;
    for k := 0 to |t|
      invariant s.trades == |t| && s.winRate == s.expectancy == s.profitFactor == 0.0
      invariant s.totalR == cum == Sum(t, k) && wins == Wins(t, k) && win == Won(t, k) && loss == Lost(t, k)
      invariant IsPeak(t, k, peak) && IsDrawdown(t, k, s.maxDD)
    {
      var x := t[k];
      s := s.(totalR := s.totalR + x.r);
      if x.r > 0.0 {
        wins, win := wins + 1, win + x.r;
      } else {
        loss := loss - x.r;
      }
      cum := cum + x.r;
      NextPoint(t, k, peak, s.maxDD);
      peak := MaxR(peak, cum);
      s := s.(maxDD := MaxR(s.maxDD, peak - cum));
    }
    s := s.(winRate := wins as real / |t| as real, expectancy := s.totalR / |t| as real);
    if loss > 0.0 {
      s := s.(profitFactor := win / loss);
    } else if win > 0.0 {
      s := s.(profitFactor := 99.0);
    }
  }

  lemma StartPoint(t: seq<Trade>)
    ensures IsPeak(t, 0, 0.0) && IsDrawdown(t, 0, 0.0)
  {
    assert Sum(t, 0) == 0.0;
    assert Sum(t, 0) - Sum(t, 0) == 0.0;
  }

  lemma NextPeak(t: seq<Trade>, k: nat, peak: real)
    requires k < |t| && IsPeak(t, k, peak)
    ensures IsPeak(t, k + 1, MaxR(peak, Sum(t, k + 1)))
  {
    hide Sum;
    var i :| 0 <= i <= k && Sum(t, i) == peak;
    assert Sum(t, if Sum(t, k + 1) > peak then k + 1 else i) == MaxR(peak, Sum(t, k + 1));
  }

  /** One more trade: the running peak and the deepest fall are still the true ones. */
  lemma NextPoint(t: seq<Trade>, k: nat, peak: real, d: real)
    requires k < |t| && IsPeak(t, k, peak) && IsDrawdown(t, k, d)
    ensures var top := MaxR(peak, Sum(t, k + 1));
      IsPeak(t, k + 1, top) && IsDrawdown(t, k + 1, MaxR(d, top - Sum(t, k + 1)))
  {
    NextPeak(t, k, peak);
    hide Sum;
    DeeperOf(t, k, MaxR(peak, Sum(t, k + 1)), d);
  }

  lemma DeeperOf(t: seq<Trade>, k: nat, top: real, d: real)
    requires k < |t| && IsPeak(t, k + 1, top) && IsDrawdown(t, k, d)
    ensures IsDrawdown(t, k + 1, MaxR(d, top - Sum(t, k + 1)))
  {
    hide Sum;
    var e, n := MaxR(d, top - Sum(t, k + 1)), k + 1;
    var from, to :| 0 <= from <= to <= k && Sum(t, from) - Sum(t, to) == d;
    var i :| 0 <= i <= n && Sum(t, i) == top;
    assert Sum(t, from) - Sum(t, to) == e || Sum(t, i) - Sum(t, n) == e;
    forall a, b | 0 <= a <= b <= n ensures Sum(t, a) - Sum(t, b) <= e {
      if b == n {
        assert Sum(t, a) <= top;
      }
    }
  }

  /** What was won less what was lost is what the account made. */
  lemma {:induction false} WonLessLost(t: seq<Trade>, k: nat)
    requires k <= |t|
    ensures Won(t, k) - Lost(t, k) == Sum(t, k)
    ensures Won(t, k) >= 0.0 && Lost(t, k) >= 0.0
    ensures Wins(t, k) > 0 <==> Won(t, k) > 0.0
    decreases k
  {
    if k > 0 {
      WonLessLost(t, k - 1);
    }
  }

  /** A profit factor lies above one exactly when more was won than lost. */
  lemma FactorSides(won: real, lost: real)
    requires won >= 0.0 && lost >= 0.0
    ensures lost > 0.0 ==> (won / lost > 1.0 <==> won > lost) && (won / lost > 0.0 <==> won > 0.0)
  {
    if lost > 0.0 {
      var q := won / lost;
      assert q * lost == won;
      assert (q - 1.0) * lost == won - lost;
    }
  }

  // ----- the split

  function Before(t: seq<Trade>, cut: int): seq<Trade> {
    if t == [] then []
    else Before(t[..|t| - 1], cut) + (if t[|t| - 1].entry < cut then [t[|t| - 1]] else [])
  }

  function Since(t: seq<Trade>, cut: int): seq<Trade> {
    if t == [] then []
    else Since(t[..|t| - 1], cut) + (if t[|t| - 1].entry < cut then [] else [t[|t| - 1]])
  }

  method SplitAt(t: seq<Trade>, cut: int) returns (train: seq<Trade>, test: seq<Trade>)
    ensures train == Before(t, cut) && test == Since(t, cut)
  {
    train, test := [], [];
    for k := 0 to |t|
      invariant train == Before(t[..k], cut) && test == Since(t[..k], cut)
    {
      assert t[..k + 1][..k] == t[..k];
      if t[k].entry < cut {
        train := train + [t[k]];
      } else {
        test := test + [t[k]];
      }
    }
    assert t[..|t|] == t;
  }

  lemma SumMore(t: seq<Trade>, x: Trade)
    ensures Sum(t + [x], |t| + 1) == Sum(t, |t|) + x.r
  {
    SumPrefix(t, t + [x], |t|);
  }

  lemma {:induction false} SumPrefix(t: seq<Trade>, u: seq<Trade>, k: nat)
    requires k <= |t| && t <= u
    ensures Sum(u, k) == Sum(t, k)
    decreases k
  {
    if k > 0 {
      SumPrefix(t, u, k - 1);
    }
  }

  lemma SplitLast(t: seq<Trade>, cut: int)
    requires t != []
    ensures var rest, x := t[..|t| - 1], t[|t| - 1];
      if x.entry < cut then Before(t, cut) == Before(rest, cut) + [x] && Since(t, cut) == Since(rest, cut)
      else Before(t, cut) == Before(rest, cut) && Since(t, cut) == Since(rest, cut) + [x]
  {
  }

  lemma {:induction false} SplitBags(t: seq<Trade>, cut: int)
    ensures multiset(Before(t, cut)) + multiset(Since(t, cut)) == multiset(t)
    decreases |t|
  {
    if t != [] {
      var rest, x := t[..|t| - 1], t[|t| - 1];
      SplitLast(t, cut);
      SplitBags(rest, cut);
      hide Before, Since;
      assert t == rest + [x];
    }
  }

  lemma {:induction false} SplitSums(t: seq<Trade>, cut: int)
    ensures Sum(Before(t, cut), |Before(t, cut)|) + Sum(Since(t, cut), |Since(t, cut)|) == Sum(t, |t|)
    decreases |t|
  {
    if t != [] {
      var rest, x := t[..|t| - 1], t[|t| - 1];
      SplitLast(t, cut);
      SplitSums(rest, cut);
      hide Before, Since, Sum;
      assert t == rest + [x];
      SumMore(rest, x);
      SumMore(Before(rest, cut), x);
      SumMore(Since(rest, cut), x);
    }
  }

  predicate OnSides(a: seq<Trade>, b: seq<Trade>, cut: int) {
    (forall i :: 0 <= i < |a| ==> a[i].entry < cut) && (forall i :: 0 <= i < |b| ==> b[i].entry >= cut)
  }

  lemma {:induction false} SplitSides(t: seq<Trade>, cut: int)
    ensures OnSides(Before(t, cut), Since(t, cut), cut)
    decreases |t|
  {
    if t != [] {
      SplitLast(t, cut);
      SplitSides(t[..|t| - 1], cut);
      hide Before, Since;
    }
  }

  /** The split loses no trade and no result, and each side holds only its own dates. */
  lemma SplitKeepsAll(t: seq<Trade>, cut: int)
    ensures var a, b := Before(t, cut), Since(t, cut);
      && multiset(a) + multiset(b) == multiset(t)
      && Sum(a, |a|) + Sum(b, |b|) == Sum(t, |t|)
      && OnSides(a, b, cut)
  {
    SplitBags(t, cut);
    SplitSums(t, cut);
    SplitSides(t, cut);
    hide *;
  }

  predicate InTime(t: seq<Trade>) {
    forall i, j :: 0 <= i < j < |t| ==> t[i].entry <= t[j].entry
  }

  /** Trades in time order split into a first part and the rest. */
  lemma {:induction false} SplitIsCut(t: seq<Trade>, cut: int)
    requires InTime(t)
    ensures Before(t, cut) + Since(t, cut) == t
    decreases |t|
  {
    if t != [] {
      var rest, x := t[..|t| - 1], t[|t| - 1];
      SplitLast(t, cut);
      SplitIsCut(rest, cut);
      SplitSides(rest, cut);
      hide Before, Since;
      if x.entry < cut && Since(rest, cut) != [] {
        assert false;
      }
      assert t == rest + [x];
    }
  }

  /** The training part of any replay is its first trades, the test part the rest, for every cut. */
  lemma ReplaySplit(c: seq<Candle>, flips: seq<Flip>, p: Params, cut: int)
    requires BacktestTheorems.Ascending(c)
    ensures var t := TradesOf(Replay(c, flips, p)); Before(t, cut) + Since(t, cut) == t
  {
    EntriesAscend(c, flips, p);
    hide Replay;
    SplitIsCut(TradesOf(Replay(c, flips, p)), cut);
  }
}

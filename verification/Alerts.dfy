/** Cooldown alerts over scored rows, and the choice of the threshold whose alert count comes
    closest to a target. */
module Alerts {
  import opened Common

  // ----- the greedy selection

  predicate Sorted(t: seq<int>) {
    forall i, j :: 0 <= i < j < |t| ==> t[i] <= t[j]
  }

  /** One threshold for all rows, or one per row. */
  datatype Threshold = Flat(value: real) | PerRow(values: seq<real>) {
    predicate Fits(n: nat) {
      PerRow? ==> |values| == n
    }

    function At(i: nat): real
      requires PerRow? ==> i < |values|
    {
      if Flat? then value else values[i]
    }
  }

  function Hits(p: seq<real>, thr: Threshold): seq<bool>
    requires thr.Fits(|p|)
  {
    seq(|p|, i requires 0 <= i < |p| => p[i] >= thr.At(i))
  }

  predicate Open(last: Option<int>, at: int, cool: int) {
    last.None? || at - last.value >= cool
  }

  /** The time of the last alert among the first k rows. */
  function Last(t: seq<int>, hit: seq<bool>, cool: int, k: nat): Option<int>
    requires |hit| == |t| && k <= |t|
    decreases k, 0
  {
    if k == 0 then None
    else if Raises(t, hit, cool, k - 1) then Some(t[k - 1])
    else Last(t, hit, cool, k - 1)
  }

  /** Row k raises an alert: it hits, and the last alert is far enough back. */
  predicate Raises(t: seq<int>, hit: seq<bool>, cool: int, k: nat)
    requires |hit| == |t| && k < |t|
    decreases k, 1
  {
    hit[k] && Open(Last(t, hit, cool, k), t[k], cool)
  }

  function Count(t: seq<int>, hit: seq<bool>, cool: int, k: nat): nat
    requires |hit| == |t| && k <= |t|
  {
    if k == 0 then 0 else Count(t, hit, cool, k - 1) + (if Raises(t, hit, cool, k - 1) then 1 else 0)
  }

  method Fire(t: seq<int>, p: seq<real>, thr: Threshold, cool: int) returns (out: array<bool>)
    requires |t| == |p| && thr.Fits(|p|)
    ensures fresh(out) && out.Length == |p|
    ensures forall k :: 0 <= k < |p| ==> out[k] == Raises(t, Hits(p, thr), cool, k)
  {
    ghost var hit := Hits(p, thr);
    out := new bool[|p|](_ => false);
    var last: Option<int> := None;
    for k := 0 to |p|
      invariant last == Last(t, hit, cool, k)
      invariant forall i :: 0 <= i < |p| ==> out[i] == (i < k && Raises(t, hit, cool, i))
    {
      if p[k] >= thr.At(k) && (last.None? || t[k] - last.value >= cool) {
        out[k] := true;
        last := Some(t[k]);
      }
    }
  }

  /** Row j is the last alert before row k. */
  ghost predicate LastBefore(t: seq<int>, hit: seq<bool>, cool: int, k: nat, j: nat)
    requires |hit| == |t| && k <= |t|
  {
    j < k && Raises(t, hit, cool, j) && forall i :: j < i < k ==> !Raises(t, hit, cool, i)
  }

  /** The row of the last alert, or -1. */
  lemma {:induction false} LastRow(t: seq<int>, hit: seq<bool>, cool: int, k: nat) returns (j: int)
    requires |hit| == |t| && k <= |t|
    ensures -1 <= j < k && forall i :: j < i < k ==> !Raises(t, hit, cool, i)
    ensures j >= 0 ==> Raises(t, hit, cool, j)
    ensures Last(t, hit, cool, k) == if j < 0 then None else Some(t[j])
    decreases k
  {
    hide Raises;
    j := k - 1;
    if k > 0 && !Raises(t, hit, cool, k - 1) {
      j := LastRow(t, hit, cool, k - 1);
    }
  }

  /** Row k raises an alert exactly if its score reaches its threshold and the last alert before it, if any,
      lies at least a cooldown back. */
  lemma RaisesIff(t: seq<int>, p: seq<real>, thr: Threshold, cool: int, k: nat)
    requires |t| == |p| && thr.Fits(|p|) && k < |t|
    ensures var hit := Hits(p, thr);
      Raises(t, hit, cool, k) <==>
        && p[k] >= (if thr.Flat? then thr.value else thr.values[k])
        && forall j: nat :: LastBefore(t, hit, cool, k, j) ==> t[k] - t[j] >= cool
  {
    var hit := Hits(p, thr);
    var last := LastRow(t, hit, cool, k);
    assert Raises(t, hit, cool, k) <==> hit[k] && Open(Last(t, hit, cool, k), t[k], cool);
    assert hit[k] <==> p[k] >= (if thr.Flat? then thr.value else thr.values[k]);
    hide Raises, Last, Hits;
    if last >= 0 {
      assert LastBefore(t, hit, cool, k, last);
    }
    forall j: nat | LastBefore(t, hit, cool, k, j) ensures j == last {
    }
  }

  /** The number of alerts at a threshold. */
  function AlertCount(t: seq<int>, p: seq<real>, thr: real, cool: int): nat
    requires |t| == |p|
  {
    Count(t, Hits(p, Flat(thr)), cool, |t|)
  }

  method CountAlerts(t: seq<int>, p: seq<real>, thr: real, cool: int) returns (n: nat)
    requires |t| == |p|
    ensures n == AlertCount(t, p, thr, cool)
  {
    hide Raises;
    var out := Fire(t, p, Flat(thr), cool);
    n := 0;
    for k := 0 to |p|
      invariant n == Count(t, Hits(p, Flat(thr)), cool, k)
    {
      if out[k] {
        n := n + 1;
      }
    }
  }

  // ----- the greedy selection is a largest one

  /** Rows in ascending order, all of them hits, each at least a cooldown after the one before. */
  predicate Apart(t: seq<int>, hit: seq<bool>, cool: int, rows: seq<nat>, k: nat)
    requires |hit| == |t|
  {
    && k <= |t|
    && (forall i :: 0 <= i < |rows| ==> rows[i] < k && hit[rows[i]])
    && (forall i, j :: 0 <= i < j < |rows| ==> rows[i] < rows[j] && t[rows[j]] - t[rows[i]] >= cool)
  }

  /** The rows that raise an alert. */
  function Chosen(t: seq<int>, hit: seq<bool>, cool: int, k: nat): seq<nat>
    requires |hit| == |t| && k <= |t|
  {
    if k == 0 then [] else Chosen(t, hit, cool, k - 1) + (if Raises(t, hit, cool, k - 1) then [k - 1] else [])
  }

  lemma {:induction false} LastInPast(t: seq<int>, hit: seq<bool>, cool: int, k: nat)
    requires |hit| == |t| && k < |t| && Sorted(t)
    ensures var last := Last(t, hit, cool, k); last.Some? ==> last.value <= t[k]
    decreases k
  {
    hide Raises;
    if k > 0 {
      LastInPast(t, hit, cool, k - 1);
    }
  }

  /** A row that raises an alert is a cooldown past every row before it. */
  lemma ApartMore(t: seq<int>, hit: seq<bool>, cool: int, rows: seq<nat>, k: nat)
    requires |hit| == |t| && k < |t| && Apart(t, hit, cool, rows, k) && Raises(t, hit, cool, k)
    requires var last := Last(t, hit, cool, k);
      (rows == [] <==> last.None?) && forall i :: 0 <= i < |rows| ==> t[rows[i]] <= last.value
    ensures Apart(t, hit, cool, rows + [k], k + 1)
  {
    hide Last;
    forall i | 0 <= i < |rows| ensures rows[i] < k && t[k] - t[rows[i]] >= cool {
    }
  }

  /** The alerts respect the cooldown among each other. */
  lemma {:induction false} ChosenApart(t: seq<int>, hit: seq<bool>, cool: int, k: nat)
    requires |hit| == |t| && k <= |t| && Sorted(t)
    ensures var rows, last := Chosen(t, hit, cool, k), Last(t, hit, cool, k);
      && |rows| == Count(t, hit, cool, k)
      && Apart(t, hit, cool, rows, k)
      && (rows == [] <==> last.None?)
      && (forall i :: 0 <= i < |rows| ==> t[rows[i]] <= last.value)
    decreases k
  {
    hide Raises;
    if k > 0 {
      ChosenApart(t, hit, cool, k - 1);
      LastInPast(t, hit, cool, k - 1);
      var rows := Chosen(t, hit, cool, k - 1);
      if Raises(t, hit, cool, k - 1) {
        assert Chosen(t, hit, cool, k) == rows + [k - 1];
        ApartMore(t, hit, cool, rows, k - 1);
      } else {
        assert Chosen(t, hit, cool, k) == rows;
      }
    }
  }

  /** No selection of hits that keeps the cooldown has more rows than there are alerts; one with as
      many does not end earlier than the last alert. */
  lemma {:induction false} GreedyBest(t: seq<int>, hit: seq<bool>, cool: int, rows: seq<nat>, k: nat)
    requires |hit| == |t| && Sorted(t) && Apart(t, hit, cool, rows, k)
    ensures |rows| <= Count(t, hit, cool, k)
    ensures rows != [] && |rows| == Count(t, hit, cool, k) ==>
      Last(t, hit, cool, k).Some? && Last(t, hit, cool, k).value <= t[rows[|rows| - 1]]
    decreases k
  {
    if rows != [] {
      var n := |rows| - 1;
      assert rows[n] < k;
      LastInPast(t, hit, cool, k - 1);
      if rows[n] < k - 1 {
        GreedyBest(t, hit, cool, rows, k - 1);
      } else {
        GreedyBest(t, hit, cool, rows[..n], k - 1);
        CountLast(t, hit, cool, k - 1);
      }
    }
  }

  lemma {:induction false} CountLast(t: seq<int>, hit: seq<bool>, cool: int, k: nat)
    requires |hit| == |t| && k <= |t|
    ensures Count(t, hit, cool, k) == 0 <==> Last(t, hit, cool, k).None?
    decreases k
  {
    hide Raises;
    if k > 0 {
      CountLast(t, hit, cool, k - 1);
    }
  }

  /** The alerts are a largest selection of hits that keeps the cooldown. */
  lemma AlertsAreMaximum(t: seq<int>, hit: seq<bool>, cool: int, rows: seq<nat>)
    requires |hit| == |t| && Sorted(t)
    ensures Apart(t, hit, cool, Chosen(t, hit, cool, |t|), |t|)
    ensures Apart(t, hit, cool, rows, |t|) ==> |rows| <= |Chosen(t, hit, cool, |t|)|
  {
    ChosenApart(t, hit, cool, |t|);
    if Apart(t, hit, cool, rows, |t|) {
      GreedyBest(t, hit, cool, rows, |t|);
    }
  }

  // ----- when the count never rises with the threshold

  /** Row i would silence both j and k, though j and k keep the cooldown between each other. */
  predicate Trap(t: seq<int>, cool: int, i: nat, j: nat, k: nat) {
    i < j < k < |t| && t[j] - t[i] < cool && t[k] - t[i] < cool && t[k] - t[j] >= cool
  }

  predicate NoTrap(t: seq<int>, cool: int) {
    forall i, j, k :: 0 <= i < j < k < |t| ==> !Trap(t, cool, i, j, k)
  }

  /** Rows in time order hold no trap. */
  lemma SortedNoTrap(t: seq<int>, cool: int)
    requires Sorted(t)
    ensures NoTrap(t, cool)
  {
  }

  predicate Subset(few: seq<bool>, many: seq<bool>) {
    |few| == |many| && forall i :: 0 <= i < |few| && few[i] ==> many[i]
  }

  /** After k rows the larger set of hits is ahead in count, or level and open to every row the
      smaller one is open to. */
  ghost predicate Leads(t: seq<int>, few: seq<bool>, many: seq<bool>, cool: int, k: nat)
    requires |few| == |t| == |many| && k <= |t|
  {
    var f, m := Count(t, few, cool, k), Count(t, many, cool, k);
    f < m || (f == m && forall x :: k <= x < |t| && Open(Last(t, few, cool, k), t[x], cool) ==>
                                    Open(Last(t, many, cool, k), t[x], cool))
  }

  /** The last alert is one of the rows before. */
  lemma {:induction false} LastIsRow(t: seq<int>, hit: seq<bool>, cool: int, k: nat) returns (i: nat)
    requires |hit| == |t| && k <= |t| && Last(t, hit, cool, k).Some?
    ensures i < k && t[i] == Last(t, hit, cool, k).value
    decreases k
  {
    hide Raises;
    i := k - 1;
    if !Raises(t, hit, cool, k - 1) {
      i := LastIsRow(t, hit, cool, k - 1);
    }
  }

  lemma {:induction false} StaysAhead(t: seq<int>, few: seq<bool>, many: seq<bool>, cool: int, k: nat)
    requires |few| == |t| && Subset(few, many) && NoTrap(t, cool) && k <= |t|
    ensures Leads(t, few, many, cool, k)
    decreases k
  {
    if k > 0 {
      var n := k - 1;
      StaysAhead(t, few, many, cool, n);
      var closed := Last(t, many, cool, n);
      if Raises(t, few, cool, n) && !Raises(t, many, cool, n) {
        var i := LastIsRow(t, many, cool, n);
        forall x | k <= x < |t| && t[x] - t[n] >= cool ensures Open(closed, t[x], cool) {
          assert !Trap(t, cool, i, n, x);
        }
      }
    }
  }

  lemma MoreHitsMoreAlerts(t: seq<int>, few: seq<bool>, many: seq<bool>, cool: int)
    requires |few| == |t| && Subset(few, many) && NoTrap(t, cool)
    ensures Count(t, few, cool, |t|) <= Count(t, many, cool, |t|)
  {
    StaysAhead(t, few, many, cool, |t|);
  }

  /** Without a trap the alert count is exactly, not almost, non-increasing in the threshold. */
  lemma CountFalls(t: seq<int>, p: seq<real>, low: real, high: real, cool: int)
    requires |t| == |p| && NoTrap(t, cool) && low <= high
    ensures AlertCount(t, p, high, cool) <= AlertCount(t, p, low, cool)
  {
    hide Count, NoTrap;
    MoreHitsMoreAlerts(t, Hits(p, Flat(high)), Hits(p, Flat(low)), cool);
  }

  /** On rows in time order the count never rises with the threshold. */
  lemma SortedCountFalls(t: seq<int>, p: seq<real>, low: real, high: real, cool: int)
    requires |t| == |p| && Sorted(t) && low <= high
    ensures AlertCount(t, p, high, cool) <= AlertCount(t, p, low, cool)
  {
    hide AlertCount;
    SortedNoTrap(t, cool);
    CountFalls(t, p, low, high, cool);
  }

  /** Rows without hits change nothing. */
  lemma {:induction false} QuietRows(t: seq<int>, hit: seq<bool>, cool: int, a: nat, b: nat)
    requires |hit| == |t| && a <= b <= |t| && forall i :: a <= i < b ==> !hit[i]
    ensures Count(t, hit, cool, b) == Count(t, hit, cool, a) && Last(t, hit, cool, b) == Last(t, hit, cool, a)
    decreases b
  {
    if a < b {
      QuietRows(t, hit, cool, a, b - 1);
    }
  }

  /** Scores that set off a trap: row i just below the rows it silences. */
  function TrapScores(n: nat, i: nat, j: nat, k: nat): seq<real> {
    seq(n, x requires 0 <= x < n => if x == j || x == k then 2.0 else if x == i then 1.0 else 0.0)
  }

  lemma TrapRises(t: seq<int>, cool: int, i: nat, j: nat, k: nat)
    requires Trap(t, cool, i, j, k)
    ensures var p := TrapScores(|t|, i, j, k); AlertCount(t, p, 1.0, cool) == 1 && AlertCount(t, p, 2.0, cool) == 2
  {
    var p := TrapScores(|t|, i, j, k);
    TrapLow(t, Hits(p, Flat(1.0)), cool, i, j, k);
    TrapHigh(t, Hits(p, Flat(2.0)), cool, i, j, k);
  }

  lemma TrapLow(t: seq<int>, hit: seq<bool>, cool: int, i: nat, j: nat, k: nat)
    requires Trap(t, cool, i, j, k) && |hit| == |t|
    requires forall x :: 0 <= x < |t| ==> hit[x] == (x == i || x == j || x == k)
    ensures Count(t, hit, cool, |t|) == 1
  {
    QuietRows(t, hit, cool, 0, i);
    QuietRows(t, hit, cool, i + 1, j);
    QuietRows(t, hit, cool, j + 1, k);
    QuietRows(t, hit, cool, k + 1, |t|);
    assert Last(t, hit, cool, i + 1) == Some(t[i]);
    assert Last(t, hit, cool, j + 1) == Some(t[i]);
  }

  lemma TrapHigh(t: seq<int>, hit: seq<bool>, cool: int, i: nat, j: nat, k: nat)
    requires Trap(t, cool, i, j, k) && |hit| == |t| && forall x :: 0 <= x < |t| ==> hit[x] == (x == j || x == k)
    ensures Count(t, hit, cool, |t|) == 2
  {
    QuietRows(t, hit, cool, 0, j);
    QuietRows(t, hit, cool, j + 1, k);
    QuietRows(t, hit, cool, k + 1, |t|);
    assert Last(t, hit, cool, j + 1) == Some(t[j]);
  }

  /** For all scores, the count never rises with the threshold. */
  ghost predicate NeverRises(t: seq<int>, cool: int) {
    forall p: seq<real>, low: real, high: real :: |p| == |t| && low <= high ==>
      AlertCount(t, p, high, cool) <= AlertCount(t, p, low, cool)
  }

  /** The count is monotone for all scores exactly when the rows hold no trap. */
  lemma NeverRisesIff(t: seq<int>, cool: int)
    ensures NeverRises(t, cool) <==> NoTrap(t, cool)
  {
    hide AlertCount;
    if NoTrap(t, cool) {
      forall p: seq<real>, low: real, high: real | |p| == |t| && low <= high
        ensures AlertCount(t, p, high, cool) <= AlertCount(t, p, low, cool)
      {
        CountFalls(t, p, low, high, cool);
      }
    } else {
      var i, j, k :| 0 <= i < j < k < |t| && Trap(t, cool, i, j, k);
      TrapRises(t, cool, i, j, k);
      var p := TrapScores(|t|, i, j, k);
      assert AlertCount(t, p, 2.0, cool) > AlertCount(t, p, 1.0, cool);
    }
  }

  /** A trap out of time order, and scores it fails on: one more hit leaves fewer alerts. */
  lemma UnsortedRises()
    ensures Trap([100, 0, 5], 5, 0, 1, 2)
    ensures var t, p := [100, 0, 5], [1.0, 2.0, 2.0];
      AlertCount(t, p, 1.0, 5) == 1 && AlertCount(t, p, 2.0, 5) == 2
  {
    assert TrapScores(3, 0, 1, 2) == [1.0, 2.0, 2.0];
    TrapRises([100, 0, 5], 5, 0, 1, 2);
  }

  // ----- the threshold

  function Miss(t: seq<int>, p: seq<real>, thr: real, cool: int, target: real): real
    requires |t| == |p|
  {
    AbsR(AlertCount(t, p, thr, cool) as real - target)
  }

  predicate Ordered(cand: seq<real>) {
    forall i, j :: 0 <= i < j < |cand| ==> cand[i] < cand[j]
  }

  /** Candidates before position lo fire more often than the target; lo and those after it do not,
      unless lo is the last and all fire too often. */
  predicate Crossing(t: seq<int>, p: seq<real>, cand: seq<real>, cool: int, target: real, lo: nat)
    requires |t| == |p|
  {
    && lo < |cand|
    && (forall i :: 0 <= i < lo ==> AlertCount(t, p, cand[i], cool) as real > target)
    && (lo < |cand| - 1 ==> forall i :: lo <= i < |cand| ==> AlertCount(t, p, cand[i], cool) as real <= target)
  }

  /** Bisects for the crossing. */
  method Bisect(t: seq<int>, p: seq<real>, cand: seq<real>, cool: int, target: real) returns (lo: nat)
    requires |t| == |p| && NoTrap(t, cool) && Ordered(cand) && cand != []
    ensures Crossing(t, p, cand, cool, target, lo)
  {
    hide AlertCount;
    lo := 0;
    var hi := |cand| - 1;
    while lo < hi
      invariant lo <= hi < |cand|
      invariant forall i :: 0 <= i < lo ==> AlertCount(t, p, cand[i], cool) as real > target
      invariant hi < |cand| - 1 ==> forall i :: hi <= i < |cand| ==> AlertCount(t, p, cand[i], cool) as real <= target
    {
      var mid := (lo + hi) / 2;
      var n := CountAlerts(t, p, cand[mid], cool);
      forall i | 0 <= i < |cand|
        ensures i <= mid ==> AlertCount(t, p, cand[i], cool) >= n
        ensures i >= mid ==> AlertCount(t, p, cand[i], cool) <= n
      {
        CountFalls(t, p, if i <= mid then cand[i] else cand[mid], if i <= mid then cand[mid] else cand[i], cool);
      }
      if n as real <= target {
        hi := mid;
      } else {
        lo := mid + 1;
      }
    }
  }

  function From(lo: nat): nat {
    if lo < 4 then 0 else lo - 4
  }

  function To(lo: nat, cand: seq<real>): nat {
    if lo + 5 < |cand| then lo + 5 else |cand|
  }

  /** Of the candidates around the crossing that miss by as much, none is higher. */
  predicate HighestOf(t: seq<int>, p: seq<real>, cand: seq<real>, cool: int, target: real, lo: nat, thr: real)
    requires |t| == |p|
  {
    forall i :: From(lo) <= i < To(lo, cand) && Miss(t, p, cand[i], cool, target) == Miss(t, p, thr, cool, target) ==>
      cand[i] <= thr
  }

  /** The candidates around the crossing are checked one by one; of equal misses the highest threshold wins. */
  method PickThreshold(t: seq<int>, p: seq<real>, cand: seq<real>, cool: int, target: real) returns (thr: real)
    requires |t| == |p| && NoTrap(t, cool) && Ordered(cand) && cand != []
    ensures thr in cand
    ensures forall c <- cand :: Miss(t, p, thr, cool, target) <= Miss(t, p, c, cool, target)
    ensures exists lo :: Crossing(t, p, cand, cool, target, lo) && HighestOf(t, p, cand, cool, target, lo, thr)
  {
    hide AlertCount, Crossing;
    var lo := Bisect(t, p, cand, cool, target);
    CrossingInside(t, p, cand, cool, target, lo);
    var n := CountAlerts(t, p, cand[From(lo)], cool);
    var best, miss := From(lo), AbsR(n as real - target);
    for i := From(lo) + 1 to To(lo, cand)
      invariant From(lo) <= best < i && miss == Miss(t, p, cand[best], cool, target)
      invariant forall k :: From(lo) <= k < i ==> miss <= Miss(t, p, cand[k], cool, target)
      invariant forall k :: From(lo) <= k < i && Miss(t, p, cand[k], cool, target) == miss ==> k <= best
    {
      n := CountAlerts(t, p, cand[i], cool);
      var d := AbsR(n as real - target);
      if d < miss || (d == miss && -cand[i] < -cand[best]) {
        best, miss := i, d;
      }
    }
    thr := cand[best];
    forall c <- cand ensures Miss(t, p, thr, cool, target) <= Miss(t, p, c, cool, target) {
      var k :| 0 <= k < |cand| && cand[k] == c;
      NearestInWindow(t, p, cand, cool, target, lo, k);
    }
  }

  lemma CrossingInside(t: seq<int>, p: seq<real>, cand: seq<real>, cool: int, target: real, lo: nat)
    requires |t| == |p| && Crossing(t, p, cand, cool, target, lo)
    ensures lo < |cand|
  {
  }

  /** For every candidate, the crossing or the one before it misses the target by no more. */
  lemma NearestInWindow(t: seq<int>, p: seq<real>, cand: seq<real>, cool: int, target: real, lo: nat, k: nat)
    requires |t| == |p| && NoTrap(t, cool) && Ordered(cand) && Crossing(t, p, cand, cool, target, lo) && k < |cand|
    ensures exists i | From(lo) <= i < To(lo, cand) ::
      Miss(t, p, cand[i], cool, target) <= Miss(t, p, cand[k], cool, target)
  {
    hide AlertCount;
    var i := if k < lo then lo - 1 else lo;
    CountFalls(t, p, if k < lo then cand[k] else cand[lo], if k < lo then cand[i] else cand[k], cool);
    assert Miss(t, p, cand[i], cool, target) <= Miss(t, p, cand[k], cool, target);
  }
}

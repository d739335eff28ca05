/** Small shared vocabulary: an optional value, real bounds, and the time unit. */
module Common {

  datatype Option<+T> = None | Some(value: T) {
    function GetOr(default: T): T {
      if Some? then value else default
    }
  }

  /** Times are integers in microseconds, the resolution of the database clock. */
  const SECOND: int := 1_000_000
  const MINUTE: int := 60 * SECOND
  const DAY: int := 24 * 60 * MINUTE

  function MaxR(a: real, b: real): real {
    if a >= b then a else b
  }

  function MinR(a: real, b: real): real {
    if a <= b then a else b
  }

  function AbsR(a: real): real {
    if a >= 0.0 then a else -a
  }

  /** Numbers above a bound, each larger than the one before. */
  predicate Rising(ts: seq<int>, after: int) {
    && (forall i :: 0 <= i < |ts| ==> ts[i] > after)
    && (forall i, j :: 0 <= i < j < |ts| ==> ts[i] < ts[j])
  }

  // ----- ordered ids

  lemma {:induction false} Least(s: set<nat>) returns (m: nat)
    requires s != {}
    ensures m in s && forall x <- s :: m <= x
    decreases |s|
  {
    var y :| y in s;
    m := y;
    if s != {y} {
      var k := Least(s - {y});
      m := if k <= y then k else y;
      assert forall x <- s :: x == y || x in s - {y};
    }
  }

  lemma LeastExists(s: set<nat>)
    requires s != {}
    ensures exists m :: m in s && forall x <- s :: m <= x
  {
    var m := Least(s);
  }

  function SortedIds(s: set<nat>): seq<nat> {
    if s == {} then []
    else
      LeastExists(s);
      var m :| m in s && forall x <- s :: m <= x;
      [m] + SortedIds(s - {m})
  }

  /** Every id once, ascending. */
  lemma {:induction false} SortedIdsOk(s: set<nat>)
    ensures forall i, j :: 0 <= i < j < |SortedIds(s)| ==> SortedIds(s)[i] < SortedIds(s)[j]
    ensures forall x :: x in SortedIds(s) <==> x in s
    ensures |SortedIds(s)| == |s|
  {
    if s != {} {
      var q := SortedIds(s);
      var t := s - {q[0]};
      SortedIdsOk(t);
      assert q == [q[0]] + SortedIds(t);
      forall i, j | 0 <= i < j < |q| ensures q[i] < q[j] {
        assert q[j] == SortedIds(t)[j - 1] && q[j] in t;
        if i > 0 {
          assert q[i] == SortedIds(t)[i - 1];
        }
      }
    }
  }
}

/** One connection of the event stream. Ids are drawn before commit, so an event may become visible
    after later ids; each poll reads again a window behind the cursor and skips what it sent. */
module EventStream {
  import opened Common

  const LOOKBACK := 200
  const LIMIT := LOOKBACK + 200

  /** The cursor, the ids counted as sent, and the frames written. */
  datatype Conn = Conn(after: int, sent: set<nat>, out: seq<nat>)

  // ----- the log

  function Newer(log: set<nat>, floor: int): set<nat> {
    set x | x in log && x > floor
  }

  /** Visible ids past the floor, in order, up to a limit. */
  function EventsAfter(log: set<nat>, floor: int, limit: nat): seq<nat> {
    var ids := SortedIds(Newer(log, floor));
    if |ids| <= limit then ids else ids[..limit]
  }

  function Latest(log: set<nat>): nat {
    var ids := SortedIds(log);
    if ids == [] then 0 else ids[|ids| - 1]
  }

  function Floor(after: int): int {
    if after > LOOKBACK then after - LOOKBACK else 0
  }

  // ----- what a connection does

  /** An absent or negative cursor means live only: from the newest event on. */
  function CursorOf(cursor: Option<int>, log: set<nat>): int {
    if cursor.GetOr(-1) < 0 then Latest(log) else cursor.value
  }

  function AtOrBelow(ids: seq<nat>, after: int): set<nat> {
    set x | x in ids && x <= after
  }

  /** Ids already visible at or below the cursor count as sent; a failed read counts none. */
  function Connected(cursor: Option<int>, log: set<nat>, readable: bool): Conn {
    var after := CursorOf(cursor, log);
    Conn(after, if readable then AtOrBelow(EventsAfter(log, Floor(after), LIMIT), after) else {}, [])
  }

  function Sent(c: Conn, evs: seq<nat>): Conn {
    if evs == [] then c
    else
      var d, e := Sent(c, evs[..|evs| - 1]), evs[|evs| - 1];
      if e in d.sent then d else Conn(if e > d.after then e else d.after, d.sent + {e}, d.out + [e])
  }

  function Pruned(c: Conn): Conn {
    c.(sent := set x | x in c.sent && x > c.after - LOOKBACK)
  }

  function Polled(c: Conn, log: set<nat>): Conn {
    Pruned(Sent(c, EventsAfter(log, Floor(c.after), LIMIT)))
  }

  /** Polls over whatever the log shows at each of them. */
  function Polls(c: Conn, logs: seq<set<nat>>): Conn
    decreases |logs|
  {
    if logs == [] then c else Polls(Polled(c, logs[0]), logs[1..])
  }

  class Stream {
    var after: int
    var sent: set<nat>
    var out: seq<nat>

    function State(): Conn
      reads this
    {
      Conn(after, sent, out)
    }

    constructor (cursor: Option<int>, log: set<nat>, readable: bool)
      ensures State() == Connected(cursor, log, readable)
    {
      var start := if cursor.Some? then cursor.value else -1;
      if start < 0 {
        start := Latest(log);
      }
      var seen := {};
      if readable {
        var evs := EventsAfter(log, Floor(start), LIMIT);
        for k := 0 to |evs|
          invariant seen == AtOrBelow(evs[..k], start)
        {
          assert evs[..k + 1] == evs[..k] + [evs[k]];
          if evs[k] <= start {
            seen := seen + {evs[k]};
          }
        }
        assert evs[..|evs|] == evs;
      }
      after, sent, out := start, seen, [];
    }

    method Poll(log: set<nat>)
      modifies this
      ensures State() == Polled(old(State()), log)
    {
      var evs := EventsAfter(log, Floor(after), LIMIT);
      for k := 0 to |evs|
        invariant State() == Sent(old(State()), evs[..k])
      {
        assert evs[..k + 1][..k] == evs[..k];
        var e := evs[k];
        if e in sent {
          continue;
        }
        sent := sent + {e};
        out := out + [e];
        after := if e > after then e else after;
      }
      assert evs[..|evs|] == evs;
      Prune();
    }

    method Prune()
      modifies this
      ensures State() == Pruned(old(State()))
    {
      var rest := sent;
      while rest != {}
        invariant after == old(after) && out == old(out)
        invariant rest <= sent <= old(sent)
        invariant forall x <- old(sent) :: x in sent <==> x in rest || x > after - LOOKBACK
        decreases rest
      {
        var id :| id in rest;
        rest := rest - {id};
        if id <= after - LOOKBACK {
          sent := sent - {id};
        }
      }
    }
  }

  // ----- pages

  lemma AllRising(log: set<nat>, floor: int)
    ensures var ids := SortedIds(Newer(log, floor));
      Rising(ids, floor) && forall x: nat :: x in ids <==> x in log && x > floor
  {
    var ids := SortedIds(Newer(log, floor));
    SortedIdsOk(Newer(log, floor));
    hide SortedIds;
    forall i | 0 <= i < |ids| ensures ids[i] > floor {
      assert ids[i] in ids;
    }
  }

  lemma CutRising(ids: seq<nat>, floor: int, limit: nat, x: nat)
    requires Rising(ids, floor) && 0 < limit <= |ids|
    ensures Rising(ids[..limit], floor)
    ensures x in ids && x !in ids[..limit] ==> ids[limit - 1] < x
  {
    if x in ids && x !in ids[..limit] {
      var k :| 0 <= k < |ids| && ids[k] == x;
      assert k >= limit;
    }
  }

  /** A page holds the lowest visible ids past its floor; what it leaves out lies beyond its last id. */
  lemma PageOk(log: set<nat>, floor: int, limit: nat)
    requires limit > 0
    ensures var evs := EventsAfter(log, floor, limit);
      && Rising(evs, floor) && |evs| <= limit && (forall x <- evs :: x in log)
      && (forall x <- log :: x > floor && x !in evs ==> |evs| == limit && evs[limit - 1] < x)
  {
    var ids := SortedIds(Newer(log, floor));
    AllRising(log, floor);
    hide SortedIds, Rising, Newer;
    if |ids| > limit {
      CutRising(ids, floor, limit, 0);
      forall x: nat ensures x in ids && x !in ids[..limit] ==> ids[limit - 1] < x {
        CutRising(ids, floor, limit, x);
      }
      assert forall x <- ids[..limit] :: x in ids;
    }
  }

  /** Ids are whole numbers, so the k-th id of a page lies at least k past the floor. */
  lemma {:induction false} RisingFar(ids: seq<nat>, floor: int, k: nat)
    requires Rising(ids, floor) && k < |ids|
    ensures ids[k] >= floor + 1 + k
    decreases k
  {
    if k > 0 {
      RisingFar(ids, floor, k - 1);
    }
  }

  // ----- what every poll keeps

  predicate Distinct(out: seq<nat>) {
    forall i, j :: 0 <= i < j < |out| ==> out[i] != out[j]
  }

  /** No frame twice and none for an id seen at the start; the sent set lies within the window; and
      whatever was sent or seen is still in it or out of reach. */
  ghost predicate ConnOk(c: Conn, seen: set<nat>) {
    && Distinct(c.out)
    && (forall x <- c.out :: x !in seen)
    && (forall x <- c.sent :: c.after - LOOKBACK < x <= c.after && (x in c.out || x in seen))
    && (forall x :: x in c.out || x in seen ==> x in c.sent || x <= c.after - LOOKBACK)
  }

  /** The same in the middle of a poll that started at cursor a. */
  ghost predicate MidPoll(c: Conn, seen: set<nat>, a: int) {
    && a <= c.after
    && Distinct(c.out)
    && (forall x <- c.out :: x !in seen)
    && (forall x <- c.sent :: x <= c.after && (x in c.out || x in seen))
    && (forall x :: x in c.out || x in seen ==> x in c.sent || x <= a - LOOKBACK)
  }

  lemma {:induction false} SentKeeps(c: Conn, evs: seq<nat>, seen: set<nat>, a: int)
    requires MidPoll(c, seen, a) && Rising(evs, a - LOOKBACK)
    ensures MidPoll(Sent(c, evs), seen, a) && c.out <= Sent(c, evs).out
    ensures forall x <- evs :: x in Sent(c, evs).sent && x <= Sent(c, evs).after
    ensures c.sent <= Sent(c, evs).sent
    decreases |evs|
  {
    if evs != [] {
      var n := |evs| - 1;
      SentKeeps(c, evs[..n], seen, a);
      var d := Sent(c, evs[..n]);
      if evs[n] !in d.sent {
        OneFrame(d, evs[n], seen, a);
      }
      assert forall x <- evs :: x in evs[..n] || x == evs[n];
    }
  }

  lemma OneFrame(d: Conn, e: nat, seen: set<nat>, a: int)
    requires MidPoll(d, seen, a) && e !in d.sent && e > a - LOOKBACK
    ensures MidPoll(Conn(if e > d.after then e else d.after, d.sent + {e}, d.out + [e]), seen, a)
  {
    assert e !in d.out && e !in seen;
  }

  lemma PruneOk(c: Conn, seen: set<nat>, a: int)
    requires MidPoll(c, seen, a)
    ensures ConnOk(Pruned(c), seen)
  {
  }

  lemma WindowRising(log: set<nat>, after: int)
    ensures Rising(EventsAfter(log, Floor(after), LIMIT), after - LOOKBACK)
  {
    PageOk(log, Floor(after), LIMIT);
    hide EventsAfter;
  }

  lemma PollKeeps(c: Conn, log: set<nat>, seen: set<nat>)
    requires ConnOk(c, seen)
    ensures ConnOk(Polled(c, log), seen) && c.out <= Polled(c, log).out && Polled(c, log).after >= c.after
  {
    WindowRising(log, c.after);
    assert MidPoll(c, seen, c.after);
    hide EventsAfter, ConnOk, MidPoll, Rising;
    var evs := EventsAfter(log, Floor(c.after), LIMIT);
    SentKeeps(c, evs, seen, c.after);
    PruneOk(Sent(c, evs), seen, c.after);
    CursorRises(Sent(c, evs), seen, c.after);
  }

  lemma CursorRises(c: Conn, seen: set<nat>, a: int)
    requires MidPoll(c, seen, a)
    ensures c.after >= a
  {
  }

  lemma {:induction false} PollsKeep(c: Conn, logs: seq<set<nat>>, seen: set<nat>)
    requires ConnOk(c, seen)
    ensures ConnOk(Polls(c, logs), seen) && c.out <= Polls(c, logs).out
    decreases |logs|
  {
    hide ConnOk, Polled;
    if logs != [] {
      PollKeeps(c, logs[0], seen);
      PollsKeep(Polled(c, logs[0]), logs[1..], seen);
    }
  }

  // ----- the start

  /** The limit never cuts the lookback short: exactly the visible ids of the window count as seen. */
  lemma SeenAtStart(cursor: Option<int>, log: set<nat>)
    ensures var c := Connected(cursor, log, true);
      forall x: nat :: x in c.sent <==> x in log && Floor(c.after) < x <= c.after
  {
    var after := CursorOf(cursor, log);
    var floor := Floor(after);
    PageOk(log, floor, LIMIT);
    var evs := EventsAfter(log, floor, LIMIT);
    if |evs| == LIMIT {
      RisingFar(evs, floor, LIMIT - 1);
    }
    hide EventsAfter, Rising, CursorOf;
    assert Rising(evs, floor);
    forall x: nat ensures x in AtOrBelow(evs, after) <==> x in log && floor < x <= after {
      if x in evs {
        RisingAbove(evs, floor, x);
      }
    }
  }

  lemma RisingAbove(ids: seq<nat>, floor: int, x: nat)
    requires Rising(ids, floor) && x in ids
    ensures x > floor
  {
  }

  lemma StartOk(cursor: Option<int>, log: set<nat>, readable: bool)
    ensures var c := Connected(cursor, log, readable); ConnOk(c, c.sent)
  {
    var c := Connected(cursor, log, readable);
    if readable {
      SeenAtStart(cursor, log);
    }
    hide EventsAfter, CursorOf, AtOrBelow;
  }

  /** However commits interleave with polls, one connection never writes a frame twice, nor one for
      an id that was already visible at its start. */
  lemma AtMostOnce(cursor: Option<int>, log: set<nat>, readable: bool, logs: seq<set<nat>>)
    ensures var c := Connected(cursor, log, readable);
      Distinct(Polls(c, logs).out) && forall x <- Polls(c, logs).out :: x !in c.sent
  {
    var c := Connected(cursor, log, readable);
    StartOk(cursor, log, readable);
    PollsKeep(c, logs, c.sent);
    hide Connected, Polls;
  }

  lemma LatestIs(log: set<nat>)
    ensures forall x <- log :: x <= Latest(log)
    ensures if log == {} then Latest(log) == 0 else Latest(log) in log
  {
    var ids := SortedIds(log);
    SortedIdsOk(log);
    hide SortedIds;
    assert |ids| == |log|;
    if ids != [] {
      assert ids[|ids| - 1] in ids;
      forall x <- log ensures x <= Latest(log) {
        assert x in ids;
      }
    }
  }

  /** Where a connection starts: after the id it names, or, if it names none, after the newest visible
      event. */
  lemma StartsAfter(cursor: Option<int>, log: set<nat>, readable: bool)
    ensures var c := Connected(cursor, log, readable);
      && c.out == []
      && (cursor.Some? && cursor.value >= 0 ==> c.after == cursor.value)
      && (cursor.None? || cursor.value < 0 ==>
            (forall x <- log :: x <= c.after) && (if log == {} then c.after == 0 else exists x <- log :: x == c.after))
      && (readable ==> forall x: nat :: x in c.sent <==> x in log && c.after - 200 < x <= c.after && x > 0)
      && (!readable ==> c.sent == {})
  {
    hide Latest, EventsAfter, AtOrBelow;
    LatestIs(log);
    if readable {
      SeenAtStart(cursor, log);
    }
  }

  // ----- nothing in reach is skipped

  /** A poll delivers a visible id in reach, or its page was full and the cursor still lies below the id. */
  lemma PollDelivers(c: Conn, log: set<nat>, seen: set<nat>, id: nat)
    requires ConnOk(c, seen) && id in log && id > 0 && id > c.after - LOOKBACK
    ensures var d := Polled(c, log);
      id in d.out || id in seen || (id > d.after && d.after >= c.after + LOOKBACK)
  {
    var floor := Floor(c.after);
    var evs := EventsAfter(log, floor, LIMIT);
    PageOk(log, floor, LIMIT);
    WindowRising(log, c.after);
    var d := Sent(c, evs);
    SentKeeps(c, evs, seen, c.after);
    hide EventsAfter, Sent;
    if id in evs {
      assert id in d.out || id in seen;
    } else {
      RisingFar(evs, floor, LIMIT - 1);
      assert evs[LIMIT - 1] in evs;
      assert d.after >= c.after + LOOKBACK;
      if id <= d.after {
        CursorIsSent(c, evs, floor);
        assert false;
      }
    }
  }

  lemma {:induction false} SentBelow(c: Conn, evs: seq<nat>, bound: int)
    requires c.after < bound && (forall x <- c.sent :: x < bound) && (forall i :: 0 <= i < |evs| ==> evs[i] < bound)
    ensures Sent(c, evs).after < bound && forall x <- Sent(c, evs).sent :: x < bound
    decreases |evs|
  {
    if evs != [] {
      SentBelow(c, evs[..|evs| - 1], bound);
    }
  }

  /** A page that reaches past the cursor moves it to its last id exactly. */
  lemma CursorIsSent(c: Conn, evs: seq<nat>, floor: int)
    requires Rising(evs, floor) && evs != [] && evs[|evs| - 1] > c.after && forall x <- c.sent :: x <= c.after
    ensures Sent(c, evs).after == evs[|evs| - 1]
  {
    SentBelow(c, evs[..|evs| - 1], evs[|evs| - 1]);
  }

  predicate AlwaysVisible(logs: seq<set<nat>>, id: nat) {
    forall k :: 0 <= k < |logs| ==> id in logs[k]
  }

  /** An id visible from some poll on, and within reach of the cursor then, is delivered: at once if
      it lies behind the cursor, otherwise after one poll per 200 ids of distance at the latest,
      however many other events commit meanwhile. */
  lemma {:induction false} Delivered(c: Conn, logs: seq<set<nat>>, seen: set<nat>, id: nat)
    requires ConnOk(c, seen) && id > 0 && id > c.after - LOOKBACK && AlwaysVisible(logs, id)
    requires |logs| >= 1 && LOOKBACK * |logs| >= id - c.after
    ensures id in Polls(c, logs).out || id in seen
    decreases |logs|
  {
    var d := Polled(c, logs[0]);
    PollKeeps(c, logs[0], seen);
    PollDelivers(c, logs[0], seen, id);
    hide ConnOk, Polled;
    if id in d.out {
      PollsKeep(d, logs[1..], seen);
      assert id in Polls(d, logs[1..]).out;
    } else if id !in seen {
      Delivered(d, logs[1..], seen, id);
    }
  }

  /** An id that becomes visible out of reach is never written. */
  lemma {:induction false} OutOfReach(c: Conn, logs: seq<set<nat>>, seen: set<nat>, id: nat)
    requires ConnOk(c, seen) && id <= c.after - LOOKBACK && id !in c.out
    ensures id !in Polls(c, logs).out
    decreases |logs|
  {
    hide ConnOk, Polled;
    if logs != [] {
      PollKeeps(c, logs[0], seen);
      PollIgnores(c, logs[0], seen, id);
      OutOfReach(Polled(c, logs[0]), logs[1..], seen, id);
    }
  }

  lemma PollIgnores(c: Conn, log: set<nat>, seen: set<nat>, id: nat)
    requires ConnOk(c, seen) && id <= c.after - LOOKBACK && id !in c.out
    ensures id !in Polled(c, log).out
  {
    var evs := EventsAfter(log, Floor(c.after), LIMIT);
    WindowRising(log, c.after);
    if id in evs {
      RisingAbove(evs, c.after - LOOKBACK, id);
      assert false;
    }
    hide EventsAfter, Rising;
    SentOnly(c, evs);
  }

  lemma {:induction false} SentOnly(c: Conn, evs: seq<nat>)
    ensures forall x <- Sent(c, evs).out :: x in c.out || x in evs
    decreases |evs|
  {
    if evs != [] {
      SentOnly(c, evs[..|evs| - 1]);
    }
  }

  /** A late commit reaches the client exactly when its id still lies within the lookback at the
      first poll that can see it. */
  lemma ReachedIff(c: Conn, logs: seq<set<nat>>, seen: set<nat>, id: nat)
    requires ConnOk(c, seen) && id > 0 && id !in c.out && id !in seen && AlwaysVisible(logs, id)
    requires |logs| >= 1 && LOOKBACK * |logs| >= id - c.after
    ensures id in Polls(c, logs).out <==> id > c.after - LOOKBACK
  {
    hide ConnOk, Polls;
    if id > c.after - LOOKBACK {
      Delivered(c, logs, seen, id);
    } else {
      OutOfReach(c, logs, seen, id);
    }
  }

  /** A connection that names no cursor is live only: however late other ids become visible, it never writes
      an event that was already visible when it started. */
  lemma LiveOnly(cursor: Option<int>, log: set<nat>, logs: seq<set<nat>>, id: nat)
    requires (cursor.None? || cursor.value < 0) && id in log && id > 0
    ensures id !in Polls(Connected(cursor, log, true), logs).out
  {
    var c := Connected(cursor, log, true);
    StartsAfter(cursor, log, true);
    StartOk(cursor, log, true);
    AtMostOnce(cursor, log, true, logs);
    hide Connected, ConnOk, Polls;
    if id <= c.after - 200 {
      OutOfReach(c, logs, c.sent, id);
    }
  }

  // ----- memory

  /** The sent set never holds more ids than the window is wide. */
  lemma SentBounded(c: Conn, seen: set<nat>)
    requires ConnOk(c, seen)
    ensures |c.sent| <= LOOKBACK
  {
    var ids := SortedIds(c.sent);
    SortedIdsOk(c.sent);
    forall i | 0 <= i < |ids| ensures c.after - LOOKBACK < ids[i] <= c.after {
      assert ids[i] in c.sent;
    }
    if ids != [] {
      RisingFar(ids, c.after - LOOKBACK, |ids| - 1);
    }
  }
}

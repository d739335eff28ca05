/** The wake bookkeeping over whole histories: missed wakes are counted once each, and one monitor
    with one clock never exceeds its limits however its calls interleave with everyone else's. */
module WakeLimits {
  import opened Common
  import opened Domain
  import opened Positions
  import opened RunQueue
  import opened QueueInvariants
  import opened QueueSteps
  import opened QueueTheorems

  const MAX_WAKES_PER_DAY := 6

  // ----- missed wakes are counted exactly once

  lemma {:induction false} MissedFromIff(db: Db, id: int, e: nat, x: nat)
    requires e <= |db.events|
    ensures x in MissedFrom(db, id, e) <==> e <= x && Missed(db, id, x)
    decreases |db.events| - e
  {
    hide Missed;
    if e < |db.events| {
      MissedFromIff(db, id, e + 1, x);
    } else {
      assert Missed(db, id, x) ==> x < |db.events| by {
        MissedBelow(db, id, x);
      }
    }
  }

  lemma MissedBelow(db: Db, id: int, x: nat)
    ensures Missed(db, id, x) ==> x < |db.events|
  {
  }

  ghost predicate Noted(d: Db, id: int, e: nat) {
    exists f :: 0 <= f < |d.events| && d.events[f].position == id && d.events[f].kind == WakeFailed(e)
  }

  lemma CountMissEffect(db: Db, id: int, e: nat, now: int)
    requires id in db.positions
    ensures var d := CountMissDb(db, id, e, now);
      && id in d.positions && d.runs == db.runs && db.events <= d.events && Noted(d, id, e)
      && d.positions[id].failedWakes == db.positions[id].failedWakes + 1
      && (forall f :: |db.events| <= f < |d.events| ==> !d.events[f].kind.Wake?)
  {
    var d := CountMissDb(db, id, e, now);
    assert d.events[|db.events|] == PosEvent(id, WakeFailed(e), now);
  }

  lemma NotedLater(db: Db, d: Db, id: int, e: nat)
    requires Noted(db, id, e) && db.events <= d.events
    ensures Noted(d, id, e)
  {
    var f :| 0 <= f < |db.events| && db.events[f].position == id && db.events[f].kind == WakeFailed(e);
    assert d.events[f] == db.events[f];
  }

  /** After counting these misses each has its note, every run and older event is as it was, and no wake was added. */
  lemma {:induction false} CountMissesEffect(db: Db, id: int, es: seq<nat>, now: int)
    requires id in db.positions
    ensures var d := CountMissesDb(db, id, es, now);
      && id in d.positions && d.runs == db.runs && db.events <= d.events
      && d.positions[id].failedWakes == db.positions[id].failedWakes + |es|
      && (forall e <- es :: Noted(d, id, e))
      && (forall f :: |db.events| <= f < |d.events| ==> !d.events[f].kind.Wake?)
    decreases |es|
  {
    hide CountMissDb, Noted;
    if es != [] {
      var c := CountMissDb(db, id, es[0], now);
      CountMissEffect(db, id, es[0], now);
      CountMissesEffect(c, id, es[1..], now);
      NotedLater(c, CountMissesDb(c, id, es[1..], now), id, es[0]);
    }
  }

  /** Reconciling counts every missed wake, one each, and leaves none to count again. */
  lemma ReconcileOnce(db: Db, id: int, now: int)
    requires id in db.positions
    ensures var d := ReconcileDb(db, id, now);
      && id in d.positions && MissedFrom(d, id, 0) == []
      && d.positions[id].failedWakes == db.positions[id].failedWakes + |MissedFrom(db, id, 0)|
      && (forall e: nat :: e in MissedFrom(db, id, 0) <==> Missed(db, id, e))
  {
    var es := MissedFrom(db, id, 0);
    CountMissesEffect(db, id, es, now);
    var d := ReconcileDb(db, id, now);
    forall e: nat ensures e in es <==> Missed(db, id, e) {
      MissedFromIff(db, id, 0, e);
    }
    forall e: nat ensures !Missed(d, id, e) {
      if e in es {
      } else if Missed(d, id, e) {
        MissedEarlier(db, d, id, e);
      }
    }
    if MissedFrom(d, id, 0) != [] {
      MissedFromIff(d, id, 0, MissedFrom(d, id, 0)[0]);
    }
  }

  lemma MissedEarlier(db: Db, d: Db, id: int, e: nat)
    requires d.runs == db.runs && db.events <= d.events && Missed(d, id, e)
    requires forall f :: |db.events| <= f < |d.events| ==> !d.events[f].kind.Wake?
    ensures Missed(db, id, e)
  {
    assert e < |db.events|;
    forall f | 0 <= f < |db.events| ensures db.events[f] == d.events[f] {
    }
  }

  // ----- who may record a wake

  /** The step adds no wake of the position to the log. */
  ghost predicate NoNewWake(db: Db, d: Db, id: int) {
    && db.events <= d.events
    && forall e :: |db.events| <= e < |d.events| && d.events[e].position == id ==> !d.events[e].kind.Wake?
  }

  lemma BookNoWake(db: Db, agent: nat, run: nat, s: Snapshot, d: Decision, v: Validation, now: int, clock: int,
                   host: int, id: int)
    ensures NoNewWake(db, BookDb(db, agent, run, s, d, v, now, clock, host), id)
  {
    hide WakeIn, RunRow, WakeRowOps, OpenConflict, NewPosition, TightenLands;
  }

  lemma CompleteNoWake(db: Db, a: nat, fence: nat, i: CompleteInput, now: int, clock: int, host: int, id: int)
    requires Linked(db)
    ensures NoNewWake(db, CompleteDb(db, a, fence, i, now, clock, host), id)
  {
    hide BookDb, Judge, NoNewWake, CancelRow, WaitRow, SucceedRow;
    if Current(db, a, fence, now) {
      RunLinked(db, a);
      hide Linked;
      var x := RunOf(db, a);
      var s := db.snaps[x.snap];
      var d := ProposalOf(i);
      var v := Judge(s, d, clock, AgentOf(db, a).budgets.freshnessSeconds * SECOND);
      var e := Finish(db, a, AttSucceeded, i.usage, SucceedRow(x, d, v, i.usage, s.source));
      BookNoWake(e, x.agent, db.attempts[a].run, s, d, v, now, clock, host, id);
      SameEventsNoWake(e, db, BookDb(e, x.agent, db.attempts[a].run, s, d, v, now, clock, host), id);
    }
    SameEventsNoWake(db, db, db, id);
    SameEventsNoWake(db, db, CompleteDb(db, a, fence, i, now, clock, host), id);
  }

  lemma SameEventsNoWake(e: Db, db: Db, d: Db, id: int)
    ensures e.events == db.events && NoNewWake(e, d, id) ==> NoNewWake(db, d, id)
    ensures d.events == db.events ==> NoNewWake(db, d, id)
  {
  }

  lemma StepNoWake(db: Db, op: Op, id: int)
    requires Linked(db) && !(op.RecordWake? && op.position == id)
    ensures NoNewWake(db, Apply(db, op), id)
  {
    hide Linked, CompleteDb, NoNewWake, Apply;
    if op.Complete? {
      CompleteNoWake(db, op.attempt, op.fence, op.result, op.now, op.clock, op.host, id);
      ApplyComplete(db, op);
    } else if RewritesRuns(op) {
      RewriteNoWake(db, op, id);
    } else {
      OtherNoWake(db, op, id);
    }
  }

  lemma ApplyComplete(db: Db, op: Op)
    requires Linked(db) && op.Complete?
    ensures Apply(db, op) == CompleteDb(db, op.attempt, op.fence, op.result, op.now, op.clock, op.host)
  {
    hide Linked, CompleteDb;
  }

  lemma RewriteNoWake(db: Db, op: Op, id: int)
    requires Linked(db) && RewritesRuns(op)
    ensures NoNewWake(db, Apply(db, op), id)
  {
    hide Linked, Apply;
    RewriteTables(db, op);
  }

  lemma OtherNoWake(db: Db, op: Op, id: int)
    requires Linked(db) && !op.Complete? && !RewritesRuns(op) && !(op.RecordWake? && op.position == id)
    ensures NoNewWake(db, Apply(db, op), id)
  {
    if op.Reconcile? && op.position in db.positions {
      CountMissesEffect(db, op.position, MissedFrom(db, op.position, 0), op.now);
    }
    hide Linked, IngestOk, Known, FanOut, TargetIds, First, Claimable, AgentOf, RunOf, CountMissesDb, MissedFrom;
  }

  // ----- histories of one monitor

  /** Steps of everyone else, none of which records a wake of the position. */
  ghost predicate OthersOnly(ops: seq<Op>, id: int) {
    forall k :: 0 <= k < |ops| ==> !(ops[k].RecordWake? && ops[k].position == id)
  }

  /** A stretch of the history: others alone, or one wake call of the monitor. The call looks at the limits at
      one clock reading, lets anything happen (its own ingest included), and records a run that exists by then. */
  datatype Stretch =
    | Others(ops: seq<Op>)
    | WakeCall(checkedAt: int, meanwhile: seq<Op>, run: nat, recordedAt: int)

  ghost predicate MayWake(db: Db, id: int, now: int) {
    !InFlight(db, id) && WakesSince(db, id, now - DAY) < MAX_WAKES_PER_DAY
  }

  ghost predicate Fair(db: Db, id: int, s: Stretch)
    requires Inv(db)
  {
    match s
    case Others(ops) => OthersOnly(ops, id)
    case WakeCall(t, ops, run, u) => OthersOnly(ops, id) && t <= u && run in Exec(db, ops).runs
  }

  ghost function Advance(db: Db, id: int, s: Stretch): (d: Db)
    requires Inv(db)
    ensures Inv(d)
  {
    match s
    case Others(ops) => Exec(db, ops)
    case WakeCall(t, ops, run, u) =>
      if !MayWake(db, id, t) then db
      else
        var d := Exec(db, ops);
        RecordWakeStep(d, id, run, u);
        RecordWakeDb(d, id, run, u)
  }

  ghost predicate FairAll(db: Db, id: int, ss: seq<Stretch>)
    requires Inv(db)
    decreases |ss|
  {
    ss != [] ==> Fair(db, id, ss[0]) && FairAll(Advance(db, id, ss[0]), id, ss[1..])
  }

  ghost function AdvanceAll(db: Db, id: int, ss: seq<Stretch>): (d: Db)
    requires Inv(db)
    ensures Inv(d)
    decreases |ss|
  {
    if ss == [] then db else AdvanceAll(Advance(db, id, ss[0]), id, ss[1..])
  }

  // ----- the limits

  ghost predicate IsWake(db: Db, id: int, e: nat) {
    e < |db.events| && db.events[e].position == id && db.events[e].kind.Wake?
  }

  /** Each recorded run exists, at most one is unfinished, and each wake came after at most five in its day. */
  ghost predicate WithinLimits(db: Db, id: int) {
    && (forall e: nat :: IsWake(db, id, e) ==> db.events[e].kind.run in db.runs)
    && (forall e: nat, f: nat ::
          IsWake(db, id, e) && IsWake(db, id, f) && InFlightAt(db, id, e) && InFlightAt(db, id, f) ==>
          db.events[e].kind.run == db.events[f].kind.run)
    && (forall e: nat :: IsWake(db, id, e) ==> WakesUpTo(db, id, db.events[e].at - DAY, e) < MAX_WAKES_PER_DAY)
  }

  /** Wakes of the position in the window (until - 24 h, until], among the first n events. */
  function WakesWithin(db: Db, id: int, until: int, n: nat): nat
    requires n <= |db.events|
  {
    if n == 0 then 0
    else
      var v := db.events[n - 1];
      WakesWithin(db, id, until, n - 1)
      + (if v.position == id && v.kind.Wake? && until - DAY < v.at <= until then 1 else 0)
  }

  lemma {:induction false} LaterCutCountsLess(db: Db, id: int, a: int, b: int, n: nat)
    requires n <= |db.events| && a <= b
    ensures WakesUpTo(db, id, b, n) <= WakesUpTo(db, id, a, n)
  {
    if n > 0 {
      LaterCutCountsLess(db, id, a, b, n - 1);
    }
  }

  lemma {:induction false} WindowCountsLess(db: Db, id: int, until: int, n: nat)
    requires n <= |db.events|
    ensures WakesWithin(db, id, until, n) <= WakesUpTo(db, id, until - DAY, n)
  {
    if n > 0 {
      WindowCountsLess(db, id, until, n - 1);
    }
  }

  /** The per-wake limit bounds every window of a day, wherever it ends. */
  lemma {:induction false} EveryWindow(db: Db, id: int, until: int, n: nat)
    requires n <= |db.events| && WithinLimits(db, id)
    ensures WakesWithin(db, id, until, n) <= MAX_WAKES_PER_DAY
  {
    if n > 0 {
      EveryWindow(db, id, until, n - 1);
      var v := db.events[n - 1];
      if v.position == id && v.kind.Wake? && until - DAY < v.at <= until {
        assert IsWake(db, id, n - 1);
        WindowCountsLess(db, id, until, n - 1);
        LaterCutCountsLess(db, id, v.at - DAY, until - DAY, n - 1);
      }
    }
  }

  lemma {:induction false} PrefixCounts(db: Db, d: Db, id: int, after: int, n: nat)
    requires db.events <= d.events && n <= |db.events|
    ensures WakesUpTo(d, id, after, n) == WakesUpTo(db, id, after, n)
  {
    if n > 0 {
      PrefixCounts(db, d, id, after, n - 1);
    }
  }

  lemma {:induction false} NoNewCounts(db: Db, d: Db, id: int, after: int, n: nat)
    requires NoNewWake(db, d, id) && |db.events| <= n <= |d.events|
    ensures WakesUpTo(d, id, after, n) == WakesSince(db, id, after)
    decreases n
  {
    if n == |db.events| {
      PrefixCounts(db, d, id, after, n);
    } else {
      NoNewCounts(db, d, id, after, n - 1);
    }
  }

  lemma {:induction false} ExecNoWake(db: Db, ops: seq<Op>, id: int)
    requires Inv(db) && OthersOnly(ops, id)
    ensures NoNewWake(db, Exec(db, ops), id)
    decreases |ops|
  {
    hide Inv, Apply, Linked, Evolves;
    LinkedOf(db);
    if ops != [] {
      StepNoWake(db, ops[0], id);
      StepKeeps(db, ops[0]);
      var d := Apply(db, ops[0]);
      assert OthersOnly(ops[1..], id);
      ExecNoWake(d, ops[1..], id);
      assert Exec(db, ops) == Exec(d, ops[1..]);
    }
  }

  lemma OldWake(db: Db, d: Db, id: int, e: nat)
    requires NoNewWake(db, d, id) && IsWake(d, id, e)
    ensures IsWake(db, id, e) && d.events[e] == db.events[e]
  {
  }

  /** A run that is unfinished later was unfinished before, if it existed. */
  lemma UnfinishedBefore(db: Db, d: Db, id: int, e: nat)
    requires Evolves(db, d) && NoNewWake(db, d, id) && IsWake(d, id, e) && InFlightAt(d, id, e)
    requires IsWake(db, id, e) ==> db.events[e].kind.run in db.runs
    requires forall r <- db.runs :: !db.runs[r].status.AwaitingApproval?
    ensures InFlightAt(db, id, e)
  {
    OldWake(db, d, id, e);
    RunLater(db, d, db.events[e].kind.run);
    hide Evolves;
  }

  lemma NoApproval(db: Db)
    requires Inv(db)
    ensures forall r <- db.runs :: !db.runs[r].status.AwaitingApproval?
  {
    forall r <- db.runs ensures !db.runs[r].status.AwaitingApproval? {
      RowOk(db, r);
      hide Inv, Counted, UsageBelow, Numbered;
    }
  }

  /** What the limits say of one wake event. */
  lemma WakeFacts(db: Db, id: int, e: nat)
    requires WithinLimits(db, id) && IsWake(db, id, e)
    ensures db.events[e].kind.run in db.runs
    ensures WakesUpTo(db, id, db.events[e].at - DAY, e) < MAX_WAKES_PER_DAY
  {
    hide InFlightAt;
  }

  lemma OthersWake(db: Db, d: Db, id: int, e: nat)
    requires Evolves(db, d) && NoNewWake(db, d, id) && WithinLimits(db, id) && IsWake(d, id, e)
    ensures IsWake(db, id, e) && d.events[e] == db.events[e] && d.events[e].kind.run in d.runs
    ensures WakesUpTo(d, id, d.events[e].at - DAY, e) < MAX_WAKES_PER_DAY
  {
    hide RunEvolves, WithinLimits, Evolves, WakesUpTo;
    OldWake(db, d, id, e);
    WakeFacts(db, id, e);
    RunLater(db, d, db.events[e].kind.run);
    PrefixCounts(db, d, id, d.events[e].at - DAY, e);
  }

  lemma OthersFlight(db: Db, d: Db, id: int, e: nat)
    requires Inv(db) && Evolves(db, d) && NoNewWake(db, d, id) && WithinLimits(db, id)
    requires IsWake(d, id, e) && InFlightAt(d, id, e)
    ensures InFlightAt(db, id, e)
  {
    NoApproval(db);
    hide Inv, InFlightAt, RunEvolves, WithinLimits, Evolves, WakesUpTo;
    OldWake(db, d, id, e);
    WakeFacts(db, id, e);
    UnfinishedBefore(db, d, id, e);
  }

  lemma LimitsWithOthers(db: Db, d: Db, id: int)
    requires Inv(db) && Evolves(db, d) && NoNewWake(db, d, id) && WithinLimits(db, id)
    ensures WithinLimits(d, id)
  {
    hide Inv, InFlightAt, Evolves, NoNewWake;
    forall e: nat | IsWake(d, id, e)
      ensures IsWake(db, id, e) && d.events[e] == db.events[e] && d.events[e].kind.run in d.runs
      ensures InFlightAt(d, id, e) ==> InFlightAt(db, id, e)
      ensures WakesUpTo(d, id, d.events[e].at - DAY, e) < MAX_WAKES_PER_DAY
    {
      OthersWake(db, d, id, e);
      if InFlightAt(d, id, e) {
        OthersFlight(db, d, id, e);
      }
    }
    hide IsWake;
  }

  lemma IdleWithOthers(db: Db, d: Db, id: int)
    requires Inv(db) && Evolves(db, d) && NoNewWake(db, d, id) && WithinLimits(db, id) && !InFlight(db, id)
    ensures !InFlight(d, id)
  {
    NoApproval(db);
    hide Inv;
    forall e: nat | e < |d.events| ensures !InFlightAt(d, id, e) {
      if InFlightAt(d, id, e) {
        OldWake(db, d, id, e);
        UnfinishedBefore(db, d, id, e);
      }
    }
  }

  /** Recording a wake with none in flight and at most five in the day before it stays inside the limits. */
  lemma LimitsWithWake(db: Db, id: int, run: nat, now: int)
    requires WithinLimits(db, id) && !InFlight(db, id) && run in db.runs
    requires WakesSince(db, id, now - DAY) < MAX_WAKES_PER_DAY
    ensures WithinLimits(RecordWakeDb(db, id, run, now), id)
  {
    var d := RecordWakeDb(db, id, run, now);
    if !WakeRecorded(db, id, run) {
      assert d.events == db.events + [PosEvent(id, Wake(run), now)] && d.runs == db.runs;
      hide RecordWakeDb, WakesUpTo, InFlight, WithinLimits, WakesSince;
      forall e: nat | IsWake(d, id, e)
        ensures d.events[e].kind.run in d.runs
        ensures InFlightAt(d, id, e) ==> e == |db.events|
        ensures WakesUpTo(d, id, d.events[e].at - DAY, e) < MAX_WAKES_PER_DAY
      {
        WakeAt(db, d, id, run, now, e);
      }
      LimitsFrom(d, id, |db.events|);
    }
  }

  lemma LimitsFrom(d: Db, id: int, n: nat)
    requires forall e: nat :: IsWake(d, id, e) ==> d.events[e].kind.run in d.runs
    requires forall e: nat :: IsWake(d, id, e) && InFlightAt(d, id, e) ==> e == n
    requires forall e: nat :: IsWake(d, id, e) ==> WakesUpTo(d, id, d.events[e].at - DAY, e) < MAX_WAKES_PER_DAY
    ensures WithinLimits(d, id)
  {
    hide WakesUpTo;
  }

  lemma OldWakeAt(db: Db, d: Db, id: int, run: nat, now: int, e: nat)
    requires WithinLimits(db, id) && !InFlight(db, id) && e < |db.events|
    requires d.events == db.events + [PosEvent(id, Wake(run), now)] && d.runs == db.runs && IsWake(d, id, e)
    ensures d.events[e].kind.run in d.runs && !InFlightAt(d, id, e)
    ensures WakesUpTo(d, id, d.events[e].at - DAY, e) < MAX_WAKES_PER_DAY
  {
    PrefixCounts(db, d, id, d.events[e].at - DAY, e);
    hide WakesUpTo;
    assert d.events[e] == db.events[e] && IsWake(db, id, e);
    assert !InFlightAt(db, id, e);
  }

  lemma NewWakeAt(db: Db, d: Db, id: int, run: nat, now: int, e: nat)
    requires run in db.runs && WakesSince(db, id, now - DAY) < MAX_WAKES_PER_DAY && e == |db.events|
    requires d.events == db.events + [PosEvent(id, Wake(run), now)] && d.runs == db.runs
    ensures IsWake(d, id, e) && d.events[e].kind.run in d.runs
    ensures WakesUpTo(d, id, d.events[e].at - DAY, e) < MAX_WAKES_PER_DAY
  {
    PrefixCounts(db, d, id, d.events[e].at - DAY, e);
    hide WakesUpTo;
  }

  lemma WakeAt(db: Db, d: Db, id: int, run: nat, now: int, e: nat)
    requires WithinLimits(db, id) && !InFlight(db, id) && run in db.runs
    requires WakesSince(db, id, now - DAY) < MAX_WAKES_PER_DAY
    requires d.events == db.events + [PosEvent(id, Wake(run), now)] && d.runs == db.runs && IsWake(d, id, e)
    ensures d.events[e].kind.run in d.runs
    ensures InFlightAt(d, id, e) ==> e == |db.events|
    ensures WakesUpTo(d, id, d.events[e].at - DAY, e) < MAX_WAKES_PER_DAY
  {
    hide WakesUpTo, WithinLimits, InFlight, InFlightAt, WakesSince;
    if e < |db.events| {
      OldWakeAt(db, d, id, run, now, e);
    } else {
      NewWakeAt(db, d, id, run, now, e);
    }
  }

  lemma LimitsStretch(db: Db, id: int, s: Stretch)
    requires Inv(db) && WithinLimits(db, id) && Fair(db, id, s)
    ensures WithinLimits(Advance(db, id, s), id)
  {
    hide Inv, WithinLimits, Exec, Evolves, InFlight, RecordWakeDb;
    match s
    case Others(ops) =>
      ExecEvolves(db, ops);
      ExecNoWake(db, ops, id);
      LimitsWithOthers(db, Exec(db, ops), id);
    case WakeCall(t, ops, run, u) =>
      if MayWake(db, id, t) {
        var d := Exec(db, ops);
        ExecEvolves(db, ops);
        ExecNoWake(db, ops, id);
        LimitsWithOthers(db, d, id);
        IdleWithOthers(db, d, id);
        NoNewCounts(db, d, id, u - DAY, |d.events|);
        LaterCutCountsLess(db, id, t - DAY, u - DAY, |db.events|);
        LimitsWithWake(d, id, run, u);
      }
  }

  /** Over every history with one monitor and a clock that does not run backwards inside a wake call:
      every window of 24 hours holds at most six wakes, and at most one recorded wake run is unfinished. */
  lemma {:induction false} WakeLimitsHold(db: Db, id: int, ss: seq<Stretch>)
    requires Inv(db) && WithinLimits(db, id) && FairAll(db, id, ss)
    ensures var d := AdvanceAll(db, id, ss);
      && WithinLimits(d, id)
      && (forall until: int :: WakesWithin(d, id, until, |d.events|) <= MAX_WAKES_PER_DAY)
      && (forall e: nat, f: nat ::
            IsWake(d, id, e) && IsWake(d, id, f) && InFlightAt(d, id, e) && InFlightAt(d, id, f) ==>
            d.events[e].kind.run == d.events[f].kind.run)
    decreases |ss|
  {
    if ss == [] {
      forall until: int ensures WakesWithin(db, id, until, |db.events|) <= MAX_WAKES_PER_DAY {
        EveryWindow(db, id, until, |db.events|);
      }
    } else {
      hide Inv, WithinLimits, Advance;
      LimitsStretch(db, id, ss[0]);
      WakeLimitsHold(Advance(db, id, ss[0]), id, ss[1..]);
    }
  }

  /** A position nobody was woken for is inside the limits. */
  lemma NoWakesYet(db: Db, id: int)
    requires forall e: nat :: !IsWake(db, id, e)
    ensures WithinLimits(db, id)
  {
  }

  /** So from a position's first wake on, over every such history, the limits hold. */
  lemma WakeLimitsFromStart(db: Db, id: int, ss: seq<Stretch>)
    requires Inv(db) && (forall e: nat :: !IsWake(db, id, e)) && FairAll(db, id, ss)
    ensures var d := AdvanceAll(db, id, ss);
      && WithinLimits(d, id)
      && (forall until: int :: WakesWithin(d, id, until, |d.events|) <= MAX_WAKES_PER_DAY)
      && (forall e: nat, f: nat ::
            IsWake(d, id, e) && IsWake(d, id, f) && InFlightAt(d, id, e) && InFlightAt(d, id, f) ==>
              d.events[e].kind.run == d.events[f].kind.run)
  {
    hide Inv, WithinLimits, IsWake, AdvanceAll, FairAll, WakesWithin, InFlightAt;
    NoWakesYet(db, id);
    WakeLimitsHold(db, id, ss);
  }

  // ----- the limits, told from the events alone

  /** The wakes of the position after one time and up to another, by event. */
  function WakeEvents(db: Db, id: int, after: int, until: int, n: nat): set<nat>
    requires n <= |db.events|
  {
    set e: nat | e < n && db.events[e].position == id && db.events[e].kind.Wake? && after < db.events[e].at <= until
  }

  lemma {:induction false} WithinIs(db: Db, id: int, until: int, n: nat)
    requires n <= |db.events|
    ensures WakesWithin(db, id, until, n) == |WakeEvents(db, id, until - DAY, until, n)|
  {
    if n > 0 {
      WithinIs(db, id, until, n - 1);
      MoreEvents(db, id, until - DAY, until, n);
    }
  }

  lemma MoreEvents(db: Db, id: int, after: int, until: int, n: nat)
    requires 0 < n <= |db.events|
    ensures var v, before := db.events[n - 1], WakeEvents(db, id, after, until, n - 1);
      |WakeEvents(db, id, after, until, n)| ==
        |before| + (if v.position == id && v.kind.Wake? && after < v.at <= until then 1 else 0)
  {
    var v, before := db.events[n - 1], WakeEvents(db, id, after, until, n - 1);
    var counts := v.position == id && v.kind.Wake? && after < v.at <= until;
    assert WakeEvents(db, id, after, until, n) == if counts then before + {n - 1} else before;
    assert n - 1 !in before;
    hide WakeEvents;
  }

  /** A recorded wake whose run is not over. */
  predicate Unfinished(db: Db, id: int, e: nat) {
    && e < |db.events| && db.events[e].position == id && db.events[e].kind.Wake? && db.events[e].kind.run in db.runs
    && db.runs[db.events[e].kind.run].status !in {Succeeded, Failed, Cancelled, Expired}
  }

  lemma UnfinishedIs(db: Db, id: int, e: nat)
    requires Inv(db)
    ensures Unfinished(db, id, e) <==> InFlightAt(db, id, e)
  {
    NoApproval(db);
    hide Inv;
  }

  /** So over every such history no window of 24 hours holds more than six wakes of the position, and at
      most one of their runs is not over. */
  lemma AtMostSixADay(db: Db, id: int, ss: seq<Stretch>, until: int, e: nat, f: nat)
    requires Inv(db) && (forall x: nat :: !IsWake(db, id, x)) && FairAll(db, id, ss)
    ensures var d := AdvanceAll(db, id, ss);
      && |WakeEvents(d, id, until - 24 * 60 * 60 * 1_000_000, until, |d.events|)| <= 6
      && (Unfinished(d, id, e) && Unfinished(d, id, f) ==> d.events[e].kind.run == d.events[f].kind.run)
  {
    hide Inv, WithinLimits, AdvanceAll, FairAll, WakesWithin, WakeEvents;
    WakeLimitsFromStart(db, id, ss);
    var d := AdvanceAll(db, id, ss);
    WithinIs(d, id, until, |d.events|);
    UnfinishedIs(d, id, e);
    UnfinishedIs(d, id, f);
    hide InFlightAt;
  }

  lemma {:induction false} SinceIs(db: Db, id: int, after: int, until: int, n: nat)
    requires n <= |db.events| && forall e :: 0 <= e < n ==> db.events[e].at <= until
    ensures WakesUpTo(db, id, after, n) == |WakeEvents(db, id, after, until, n)|
  {
    if n > 0 {
      SinceIs(db, id, after, until, n - 1);
      MoreEvents(db, id, after, until, n);
    }
  }

  /** Unless its clock ran backwards, the monitor wakes an agent exactly when no wake of the position is
      unfinished and the last 24 hours hold fewer than six. */
  lemma MayWakeIff(db: Db, id: int, now: int)
    requires Inv(db) && forall e :: 0 <= e < |db.events| ==> db.events[e].at <= now
    ensures MayWake(db, id, now) <==>
      && (forall e: nat :: !Unfinished(db, id, e))
      && |WakeEvents(db, id, now - 24 * 60 * 60 * 1_000_000, now, |db.events|)| < 6
  {
    forall e: nat ensures Unfinished(db, id, e) <==> InFlightAt(db, id, e) {
      UnfinishedIs(db, id, e);
    }
    hide Inv, Unfinished, WakesUpTo, WakeEvents;
    SinceIs(db, id, now - DAY, now, |db.events|);
    assert InFlight(db, id) <==> exists e: nat :: InFlightAt(db, id, e);
  }
}

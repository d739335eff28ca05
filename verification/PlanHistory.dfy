/** The plan stored with a position is well formed in every reachable state, whoever wrote it. */
module PlanHistory {
  import opened Common
  import opened Domain
  import opened Positions
  import opened RunQueue
  import opened QueueSteps
  import opened QueueTheorems
  import opened BookHistory

  /** A tripwire the monitor can act on: of a known kind, with its numbers in range. */
  predicate WireSane(t: Tripwire) {
    && !t.kind.OtherKind?
    && (t.kind.CloseBeyond? ==> t.level > 0.0 && (t.dir.Above? || t.dir.Below?))
    && (t.kind.PriceCross? ==> t.level > 0.0 && (t.dir.Up? || t.dir.Down?))
    && (t.kind.AdversePct? ==> t.pct > 0.0 && t.pct <= 50.0)
    && (t.kind.AdverseAtr? ==> t.atr > 0.0 && t.atr <= 50.0)
    && (t.kind.NoProgress? ==> 2 <= t.bars <= 1000 && t.minProfitAtr >= 0.0 && t.minProfitAtr <= 20.0)
    && (t.kind.FeedStale? ==> 2 <= t.minutes <= 1440)
  }

  predicate WiresSane(ts: seq<Tripwire>) {
    |ts| <= 8 && forall t <- ts :: WireSane(t)
  }

  /** At most eight such tripwires, a positive invalidation level, a known trail, a time stop in range. */
  predicate PlanSane(p: Plan) {
    && WiresSane(p.tripwires)
    && (p.invalidation.Some? ==> p.invalidation.value > 0.0)
    && (p.trail.Some? ==>
          && !p.trail.value.kind.OtherTrail?
          && (p.trail.value.kind.AtrTrail? ==> p.trail.value.mult > 0.0 && p.trail.value.mult <= 20.0))
    && 0 <= p.maxBars <= 100000
  }

  ghost predicate AllSane(db: Db) {
    forall id <- db.positions :: PlanSane(db.positions[id].plan)
  }

  lemma ShapedWires(ts: seq<Tripwire>)
    ensures TripwiresOk(ts) <==> WiresSane(ts)
  {
    forall t <- ts ensures TripwireOk(t) <==> WireSane(t) {
    }
    hide TripwireOk, WireSane;
  }

  /** What the shape check lets through: an entry with a sane plan, new tripwires that are sane, and a
      positive position, stop and size wherever one is named. */
  lemma ShapeIs(d: Decision)
    ensures ShapeOk(d) <==>
      match d.action
      case Hold => true
      case Open =>
        && (d.side.Long? || d.side.Short?) && d.notional > 0.0 && d.stop > 0.0
        && (d.target.Some? ==> d.target.value > 0.0) && (d.plan.Some? ==> PlanSane(d.plan.value))
      case Close => d.positionId > 0
      case TightenStop => d.positionId > 0 && d.newStop.Some? && d.newStop.value > 0.0
      case SetTripwires => d.positionId > 0 && WiresSane(d.tripwires)
      case OtherAction(_) => false
  {
    ShapedWires(d.tripwires);
    if d.plan.Some? {
      ShapedWires(d.plan.value.tripwires);
    }
    hide TripwiresOk, WiresSane;
  }

  // ----- one row

  predicate RewiresSane(ops: seq<RowOp>) {
    forall k :: 0 <= k < |ops| && ops[k].Rewire? ==> WiresSane(ops[k].tripwires)
  }

  lemma {:induction false} RowKeepsSane(q: Position, ops: seq<RowOp>)
    requires PlanSane(q.plan) && RewiresSane(ops)
    ensures PlanSane(RunRow(q, ops).plan)
    decreases |ops|
  {
    hide WiresSane, PnL;
    if ops != [] {
      RowKeepsSane(ApplyRow(q, ops[0]), ops[1..]);
    }
  }

  lemma WakeRewires(p: Position, d: Decision, price: real, at: int)
    requires ShapeOk(d)
    ensures RewiresSane(WakeRowOps(p, d, price, at))
  {
    ShapedWires(d.tripwires);
    hide TripwiresOk, WiresSane, WakeFill;
  }

  lemma ValidShaped(s: Snapshot, d: Decision, clock: int, maxAge: int)
    requires Judge(s, d, clock, maxAge).valid
    ensures ShapeOk(d)
  {
    hide ShapeOk, OpenReasons, CloseReasons, FactsOf, WakeOf;
  }

  lemma CompleteRewires(db: Db, a: nat, fence: nat, i: CompleteInput, now: int, clock: int, host: int, id: int)
    requires Linked(db) && id in db.positions
    ensures RewiresSane(CompleteRowOps(db, a, fence, i, now, clock, host, id))
  {
    hide Judge, WakeIn, RewiresSane, Waits, WakeRowOps, ShapeOk;
    NoRewires();
    if Current(db, a, fence, now) {
      RunLinked(db, a);
      hide Linked;
      var s, maxAge := db.snaps[RunOf(db, a).snap], AgentOf(db, a).budgets.freshnessSeconds * SECOND;
      var v := Judge(s, ProposalOf(i), clock, maxAge);
      if v.valid {
        ValidShaped(s, ProposalOf(i), clock, maxAge);
        WakeRewires(db.positions[id], ProposalOf(i), v.priceUsed, host);
      }
    }
  }

  lemma NoRewires()
    ensures RewiresSane([])
  {
  }

  lemma StepRewires(db: Db, op: Op, id: int)
    requires Linked(db) && id in db.positions
    ensures RewiresSane(RowOpsOf(db, op, id))
  {
    hide Linked, MissedFrom, WakeRecorded, CompleteRowOps, WiresSane;
    if op.Complete? {
      CompleteRewires(db, op.attempt, op.fence, op.result, op.now, op.clock, op.host, id);
    }
  }

  // ----- histories

  lemma EntrySane(d: Decision)
    requires ShapeOk(d) && d.action.Open?
    ensures PlanSane(d.plan.GetOr(NO_PLAN))
  {
    ShapeIs(d);
    hide ShapeOk;
  }

  lemma OpenedSane(db: Db, op: Op, id: int)
    requires Inv(db) && id in Apply(db, op).positions && id !in db.positions
    ensures PlanSane(Apply(db, op).positions[id].plan)
  {
    hide Inv, Linked, Apply, Judge, ShapeOk, PlanSane, Waits;
    OpensSound(db, op, id);
    var s := db.snaps[RunOf(db, op.attempt).snap];
    ValidShaped(s, ProposalOf(op.result), op.clock, AgentOf(db, op.attempt).budgets.freshnessSeconds * SECOND);
    EntrySane(ProposalOf(op.result));
  }

  lemma StepSane(db: Db, op: Op)
    requires Inv(db) && Linked(db) && AllSane(db)
    ensures AllSane(Apply(db, op))
  {
    hide Inv, Linked, Apply, PlanSane, RunRow, RewiresSane, RowOpsOf;
    var d := Apply(db, op);
    forall id <- d.positions ensures PlanSane(d.positions[id].plan) {
      if id in db.positions {
        StepRows(db, op, id);
        StepRewires(db, op, id);
        RowKeepsSane(db.positions[id], RowOpsOf(db, op, id));
      } else {
        OpenedSane(db, op, id);
      }
    }
  }

  /** Over every history, whatever agents propose and rewire, the plan of every stored position is sane:
      no accepted entry and no wake ever stores a tripwire, trail or time stop out of range. */
  lemma {:induction false} PlansStaySane(db: Db, ops: seq<Op>)
    requires Inv(db) && AllSane(db)
    ensures AllSane(Exec(db, ops))
    decreases |ops|
  {
    hide Inv, Linked, Apply, AllSane, Evolves;
    if ops != [] {
      LinkedOf(db);
      StepKeeps(db, ops[0]);
      StepSane(db, ops[0]);
      PlansStaySane(Apply(db, ops[0]), ops[1..]);
    }
  }
}

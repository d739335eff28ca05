/** What the comparison with the engine's own decision says, in every reachable state. */
module Comparison {
  import opened Common
  import opened Domain
  import opened RunQueue
  import opened QueueInvariants
  import opened QueueSteps
  import opened QueueTheorems

  /** The engine did this: its nested decision if that names an action, else the bare one. */
  predicate EngineDid(l: Legacy, action: Action, side: Side) {
    && l.Legacy?
    && (if l.nestedAction == OtherAction("") then l.bareAction == action && l.bareSide == side
        else l.nestedAction == action && l.nestedSide == side)
  }

  predicate Rejected(x: Run) {
    x.validation.Some? && !x.validation.value.valid
  }

  /** The column of a run with a proposal, when the engine decided on this action and side. */
  predicate Compared(x: Run, action: Action, side: Side)
    requires x.proposal.Some?
  {
    var p := x.proposal.value;
    && (!Rejected(x) ==>
          && (p.action == action && p.side == side ==> x.comparison.Agree?)
          && (p.action != action ==> x.comparison.Differ?)
          && (p.action.Open? && action.Open? && p.side != side ==> x.comparison.Differ?)
          && (p.action == action && !action.Open? ==> x.comparison.Agree?))
    && (Rejected(x) ==> if action.Hold? then x.comparison.Agree? else x.comparison.Differ?)
  }

  /** In every reachable state: the comparison agrees when the accepted proposal takes the engine's action,
      on an entry on its side; a rejected proposal counts as a hold; without a readable decision or
      without a proposal there is nothing to compare. */
  lemma ComparisonSays(db: Db, r: nat)
    requires Inv(db) && Linked(db) && r in db.runs
    ensures var x := db.runs[r];
      && (x.proposal.Some? && x.legacy.Some? && x.legacy.value.Legacy? ==>
            exists action, side :: EngineDid(x.legacy.value, action, side) && Compared(x, action, side))
      && (x.proposal.Some? && x.legacy == Some(Unreadable) ==> x.comparison.Pending?)
      && (x.proposal.Some? && x.legacy.None? ==>
            x.comparison == if SourceOf(db, r).Engine? then Pending else NoLegacy)
      && (x.proposal.None? ==> x.comparison.Pending?)
  {
    RowOk(db, r);
    hide Inv, Linked, Counted, Numbered, UsageBelow, AttsOf, Budgeted, StatusOk;
    ColumnSays(db.runs[r], SourceOf(db, r));
  }

  lemma ColumnSays(x: Run, source: Source)
    requires x.comparison == CompareOf(x.proposal, x.validation, x.legacy, source)
    ensures x.proposal.Some? && x.legacy.Some? && x.legacy.value.Legacy? ==>
      exists action, side :: EngineDid(x.legacy.value, action, side) && Compared(x, action, side)
    ensures x.proposal.Some? && x.legacy == Some(Unreadable) ==> x.comparison.Pending?
    ensures x.proposal.Some? && x.legacy.None? ==> x.comparison == if source.Engine? then Pending else NoLegacy
    ensures x.proposal.None? ==> x.comparison.Pending?
  {
    if x.proposal.Some? && x.legacy.Some? && x.legacy.value.Legacy? {
      var l := x.legacy.value;
      var bare := l.nestedAction == OtherAction("");
      var action, side := if bare then l.bareAction else l.nestedAction, if bare then l.bareSide else l.nestedSide;
      assert EngineDid(l, action, side) && Compared(x, action, side);
    }
  }

  lemma EngineDidOnce(l: Legacy, a: Action, s: Side, b: Action, t: Side)
    requires EngineDid(l, a, s) && EngineDid(l, b, t)
    ensures a == b && s == t
  {
  }

  /** After the engine's decision arrives, every run of the snapshot that has a proposal is compared with
      it, whether the decision came nested or bare; its proposal and verdict are as they were. */
  lemma AfterDecision(db: Db, idem: string, legacy: Legacy, r: nat, action: Action, side: Side)
    requires Inv(db) && Linked(db) && r in db.runs && db.runs[r].snap in db.snaps
    requires db.snaps[db.runs[r].snap].idem == idem && EngineDid(legacy, action, side)
    ensures var x, d := db.runs[r], Apply(db, SetLegacy(idem, legacy));
      && r in d.runs
      && d.runs[r].legacy == Some(legacy) && d.runs[r].proposal == x.proposal && d.runs[r].validation == x.validation
      && d.runs[r].status == x.status
      && (x.proposal.Some? ==> Compared(d.runs[r], action, side))
  {
    hide Inv, Linked, Evolves, Compared, CompareOf, Known;
    var d := Apply(db, SetLegacy(idem, legacy));
    StepKeeps(db, SetLegacy(idem, legacy));
    LinkedOf(d);
    IdemUnique(db, db.runs[r].snap, idem);
    DecidedRow(db, idem, legacy, r);
    ApplyLegacy(db, idem, legacy);
    ComparisonSays(d, r);
    hide Apply, SetLegacyDb;
    if db.runs[r].proposal.Some? {
      var a, s :| EngineDid(legacy, a, s) && Compared(d.runs[r], a, s);
      EngineDidOnce(legacy, a, s, action, side);
    }
  }

  lemma ApplyLegacy(db: Db, idem: string, legacy: Legacy)
    requires Linked(db)
    ensures Apply(db, SetLegacy(idem, legacy)) == SetLegacyDb(db, idem, legacy)
  {
    hide Linked, SetLegacyDb;
  }

  lemma DecidedRow(db: Db, idem: string, legacy: Legacy, r: nat)
    requires Linked(db) && r in db.runs && Known(db, idem) && SnapOf(db, idem) == db.runs[r].snap
    ensures var x, d := db.runs[r], SetLegacyDb(db, idem, legacy);
      && r in d.runs && d.runs[r].legacy == Some(legacy) && d.runs[r].proposal == x.proposal
      && d.runs[r].validation == x.validation && d.runs[r].status == x.status
  {
    hide Linked, CompareOf, Known;
  }

  /** After a completion the run carries the proposal it delivered, or a hold, and is compared with the
      engine's decision if that came first. */
  lemma AfterCompletion(db: Db, a: nat, fence: nat, i: CompleteInput, now: int, clock: int, host: int,
                        action: Action, side: Side)
    requires Inv(db) && Linked(db) && Current(db, a, fence, now) && !RunOf(db, a).cancelRequested
    requires RunOf(db, a).legacy.Some? && EngineDid(RunOf(db, a).legacy.value, action, side)
    ensures var r, d := db.attempts[a].run, Apply(db, Complete(a, fence, i, now, clock, host));
      && r in d.runs && d.runs[r].proposal == Some(i.proposal.GetOr(HOLD)) && d.runs[r].validation.Some?
      && d.runs[r].legacy == RunOf(db, a).legacy
      && Compared(d.runs[r], action, side)
  {
    hide Inv, Linked, Evolves, Compared, CompareOf, CompleteDb;
    var op := Complete(a, fence, i, now, clock, host);
    var r, d := db.attempts[a].run, Apply(db, op);
    assert d == CompleteDb(db, a, fence, i, now, clock, host);
    StepKeeps(db, op);
    LinkedOf(d);
    DeliveredRow(db, a, fence, i, now, clock, host);
    ComparisonSays(d, r);
    hide Apply;
    var b, s :| EngineDid(d.runs[r].legacy.value, b, s) && Compared(d.runs[r], b, s);
    EngineDidOnce(d.runs[r].legacy.value, b, s, action, side);
  }

  lemma DeliveredRow(db: Db, a: nat, fence: nat, i: CompleteInput, now: int, clock: int, host: int)
    requires Linked(db) && Current(db, a, fence, now) && !RunOf(db, a).cancelRequested
    ensures var r, d := db.attempts[a].run, CompleteDb(db, a, fence, i, now, clock, host);
      && r in d.runs && d.runs[r].proposal == Some(i.proposal.GetOr(HOLD)) && d.runs[r].validation.Some?
      && d.runs[r].legacy == RunOf(db, a).legacy
  {
    RunLinked(db, a);
    hide Linked, BookDb, Judge, CompareOf, AddUsage, Waits;
    var x := RunOf(db, a);
    var s, d := db.snaps[x.snap], ProposalOf(i);
    var v := Judge(s, d, clock, AgentOf(db, a).budgets.freshnessSeconds * SECOND);
    var e := Finish(db, a, AttSucceeded, i.usage, SucceedRow(x, d, v, i.usage, s.source));
    BookRuns(e, x.agent, db.attempts[a].run, s, d, v, now, clock, host);
  }
}

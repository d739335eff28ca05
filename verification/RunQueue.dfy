/** The tables of the run queue and what each transaction does to them, as functions of the
    state the transaction starts from. Every clock reading and every set of rows another
    transaction holds locked is an argument, so a theorem about all operation sequences is a
    theorem about all interleavings of workers, operators, the reaper and the monitor. */
module RunQueue {
  import opened Common
  import opened Domain
  import opened Positions

  // ----- tables

  datatype RunStatus =
    | Queued | Running | WaitingForEvent | AwaitingApproval
    | Succeeded | Failed | Cancelled | Expired

  datatype AttemptStatus = AttRunning | AttSucceeded | AttWaiting | AttFailed | AttCancelled | AttExpired

  datatype Comparison = Pending | Agree | Differ | NoLegacy

  datatype Source = Engine | Operator | Demo | Monitor

  /** The engine's own decision: nested under "decision", bare, or not readable as either. */
  datatype Legacy =
    | Unreadable
    | Legacy(nestedAction: Action, nestedSide: Side, bareAction: Action, bareSide: Side)

  type Usage = map<string, real>

  datatype Budgets = Budgets(maxToolCalls: int, maxAttempts: int, maxFollowups: int,
                             deadlineSeconds: int, freshnessSeconds: int)

  /** An empty strategy name is none. */
  datatype Agent = Agent(instrument: string, granularity: Granularity, runtime: string, strategy: string,
                         allowedTools: seq<string>, budgets: Budgets, enabled: bool)

  datatype Snapshot = Snapshot(idem: string, instrument: string, granularity: Granularity,
                               source: Source, payload: Payload, takenAt: int)

  datatype Run = Run(agent: nat, snap: nat, trigger: string, status: RunStatus,
                     attemptsMade: int, maxAttempts: int, followupsUsed: int, cancelRequested: bool,
                     runAfter: int, waitUntil: Option<int>,
                     proposal: Option<Decision>, validation: Option<Validation>, legacy: Option<Legacy>,
                     comparison: Comparison, usage: Usage)

  datatype Attempt = Attempt(run: nat, no: int, worker: string, fence: nat, status: AttemptStatus,
                             leaseUntil: int, pendingWait: Option<int>, toolCalls: int, usage: Usage)

  datatype EventKind =
    | Opened(run: nat) | OpenIgnored(run: nat) | ExitNoted | Tightened(run: nat) | Rewired(run: nat)
    | WakeHeld(run: nat) | WakeIgnored(run: nat)
    | Wake(run: nat) | WakeFailed(wake: nat) | AttentionRaised | Note

  datatype PosEvent = PosEvent(position: int, kind: EventKind, at: int)

  /** Ids are allocated by counters, as sequences do. An event's id is its index. */
  datatype Db = Db(agents: map<nat, Agent>, snaps: map<nat, Snapshot>, runs: map<nat, Run>,
                   attempts: map<nat, Attempt>, positions: map<int, Position>, events: seq<PosEvent>,
                   nextSnap: nat, nextRun: nat, nextAttempt: nat, nextFence: nat, nextPosition: nat)

  const EMPTY := Db(map[], map[], map[], map[], map[], [], 1, 1, 1, 1, 1)

  function WithDefaults(b: Budgets): Budgets {
    Budgets(if b.maxToolCalls <= 0 then 12 else b.maxToolCalls,
            if b.maxAttempts <= 0 then 3 else b.maxAttempts,
            if b.maxFollowups <= 0 then 2 else b.maxFollowups,
            if b.deadlineSeconds <= 0 then 900 else b.deadlineSeconds,
            if b.freshnessSeconds <= 0 then 900 else b.freshnessSeconds)
  }

  predicate Terminal(s: RunStatus) {
    s.Succeeded? || s.Failed? || s.Cancelled? || s.Expired?
  }

  // ----- derived columns

  function Get(u: Usage, k: string): real {
    if k in u then u[k] else 0.0
  }

  function AddUsage(u: Usage, v: Usage): Usage {
    map k | k in u.Keys + v.Keys :: Get(u, k) + Get(v, k)
  }

  /** A rejected proposal never stands, so its effective outcome is a hold. */
  function CompareDecisions(p: Decision, v: Option<Validation>, l: Legacy): Comparison {
    match l
    case Unreadable => Pending
    case Legacy(na, ns, ba, bs) =>
      var rejected := v.Some? && !v.value.valid;
      var pa := if rejected then Hold else p.action;
      var ps := if rejected then OtherSide("") else p.side;
      var bare := na == OtherAction("");
      var la := if bare then ba else na;
      var ls := if bare then bs else ns;
      if pa != la || (la.Open? && ps != ls) then Differ else Agree
  }

  function CompareOf(p: Option<Decision>, v: Option<Validation>, l: Option<Legacy>, source: Source): Comparison {
    if p.Some? && l.Some? then CompareDecisions(p.value, v, l.value)
    else if p.Some? && !source.Engine? then NoLegacy
    else Pending
  }

  function Recomputed(x: Run, source: Source): Run {
    x.(comparison := CompareOf(x.proposal, x.validation, x.legacy, source))
  }

  // ----- row updates on a run

  function Pow2(n: nat): nat {
    if n == 0 then 1 else 2 * Pow2(n - 1)
  }

  /** int(2) << made seconds. */
  function Backoff(made: nat): int {
    2 * Pow2(made) * SECOND
  }

  predicate Retries(x: Run, retryable: bool) {
    retryable && x.attemptsMade - x.followupsUsed < x.maxAttempts
  }

  function RequeueOrFail(x: Run, retryable: bool, source: Source, now: int): Run
    requires 0 <= x.attemptsMade - x.followupsUsed
  {
    if Retries(x, retryable) then
      x.(status := Queued, runAfter := now + Backoff(x.attemptsMade - x.followupsUsed))
    else
      Recomputed(x.(status := Failed, proposal := Some(HOLD), validation := Some(FAILSAFE)), source)
  }

  function CancelRow(x: Run, source: Source): Run {
    Recomputed(x.(status := Cancelled, waitUntil := None), source)
  }

  function ClaimRow(x: Run): Run {
    x.(status := Running, attemptsMade := x.attemptsMade + 1)
  }

  function WaitRow(x: Run, p: Decision, v: Validation, used: Usage, until: int, source: Source): Run {
    Recomputed(x.(status := WaitingForEvent, followupsUsed := x.followupsUsed + 1, waitUntil := Some(until),
                  proposal := Some(p), validation := Some(v), usage := AddUsage(x.usage, used)), source)
  }

  function SucceedRow(x: Run, p: Decision, v: Validation, used: Usage, source: Source): Run {
    Recomputed(x.(status := Succeeded, waitUntil := None, proposal := Some(p), validation := Some(v),
                  usage := AddUsage(x.usage, used)), source)
  }

  function WakeRow(x: Run, now: int): Run {
    x.(status := Queued, runAfter := now, waitUntil := None)
  }

  function AgeRow(x: Run, source: Source): Run {
    Recomputed(x.(status := Expired, proposal := Some(HOLD), validation := Some(FAILSAFE)), source)
  }

  /** A lease that ran out: a requested cancellation wins, otherwise the attempt counts as a retryable failure. */
  function LapseRow(x: Run, source: Source, now: int): Run
    requires 0 <= x.attemptsMade - x.followupsUsed
  {
    if x.cancelRequested then CancelRow(x, source) else RequeueOrFail(x, true, source, now)
  }

  // ----- foreign keys, and lookups that rely on them

  ghost predicate Linked(db: Db) {
    && (forall a <- db.attempts :: db.attempts[a].run in db.runs)
    && (forall r <- db.runs :: db.runs[r].agent in db.agents && db.runs[r].snap in db.snaps)
    && (forall r <- db.runs :: 0 <= db.runs[r].attemptsMade - db.runs[r].followupsUsed)
  }

  function SourceOf(db: Db, r: nat): Source
    requires r in db.runs && db.runs[r].snap in db.snaps
  {
    db.snaps[db.runs[r].snap].source
  }

  /** The attempt exists and the caller holds its fence. */
  predicate Fenced(db: Db, a: nat, fence: nat) {
    a in db.attempts && db.attempts[a].fence == fence
  }

  /** Fenced, still running, and inside its lease. */
  predicate Current(db: Db, a: nat, fence: nat, now: int) {
    Fenced(db, a, fence) && db.attempts[a].status.AttRunning? && db.attempts[a].leaseUntil > now
  }

  function Finish(db: Db, a: nat, s: AttemptStatus, used: Usage, x: Run): Db
    requires a in db.attempts
  {
    db.(attempts := db.attempts[a := db.attempts[a].(status := s, usage := used)],
        runs := db.runs[db.attempts[a].run := x])
  }

  // ----- agents

  function UpsertAgentDb(db: Db, id: nat, agent: Agent): Db {
    db.(agents := db.agents[id := agent.(budgets := WithDefaults(agent.budgets))])
  }

  function SetEnabledDb(db: Db, id: nat, enabled: bool): Db {
    if id in db.agents then db.(agents := db.agents[id := db.agents[id].(enabled := enabled)]) else db
  }

  // ----- ingest

  const MAX_SNAPSHOT_BYTES := 96000

  datatype IngestInput = IngestInput(idem: string, instrument: string, granularity: Granularity, event: string,
                                     source: Source, trigger: string, payload: Payload, bytes: nat, agent: Option<nat>)

  datatype RunRef = RunRef(run: nat, agent: nat, created: bool)

  datatype IngestResult = Refused | Accepted(snapshot: nat, isNew: bool, runs: seq<RunRef>)

  predicate IngestOk(i: IngestInput) {
    && i.idem != "" && i.instrument != "" && i.granularity != OtherGranularity("")
    && 0 < i.bytes <= MAX_SNAPSHOT_BYTES
  }

  predicate Known(db: Db, idem: string) {
    exists s <- db.snaps :: db.snaps[s].idem == idem
  }

  ghost function SnapOf(db: Db, idem: string): nat
    requires Known(db, idem)
  {
    var s :| s in db.snaps && db.snaps[s].idem == idem; s
  }

  /** The agents an accepted event fans out to. */
  function Targets(db: Db, i: IngestInput): set<nat> {
    set a | a in db.agents
            && (db.agents[a].enabled || i.agent.Some?)
            && db.agents[a].instrument == i.instrument && db.agents[a].granularity == i.granularity
            && (i.agent.None? || i.agent.value == a)
  }

  function NewRun(agents: map<nat, Agent>, agent: nat, snap: nat, trigger: string, now: int): Run
    requires agent in agents
  {
    Run(agent, snap, trigger, Queued, 0, WithDefaults(agents[agent].budgets).maxAttempts, 0, false, now, None,
        None, None, None, Pending, map[])
  }

  /** One new run per agent, with consecutive ids from the given one. */
  function FanOut(agents: map<nat, Agent>, from: nat, ids: seq<nat>, snap: nat, trigger: string,
                  now: int): (m: map<nat, Run>)
    requires forall a <- ids :: a in agents
    ensures forall r :: r in m <==> from <= r < from + |ids|
    ensures forall r <- m :: m[r] == NewRun(agents, ids[r - from], snap, trigger, now)
  {
    hide NewRun;
    if ids == [] then map[]
    else
      var last := |ids| - 1;
      var before := FanOut(agents, from, ids[..last], snap, trigger, now);
      before[from + last := NewRun(agents, ids[last], snap, trigger, now)]
  }

  function TriggerOf(i: IngestInput): string {
    if i.trigger == "" then i.event else i.trigger
  }

  /** The accepted snapshot and one queued run for each of these agents, in order. */
  function Enqueue(db: Db, i: IngestInput, ids: seq<nat>, now: int): Db
    requires forall a <- ids :: a in db.agents
  {
    db.(snaps := db.snaps[db.nextSnap := Snapshot(i.idem, i.instrument, i.granularity, i.source, i.payload, now)],
        nextSnap := db.nextSnap + 1,
        runs := db.runs + FanOut(db.agents, db.nextRun, ids, db.nextSnap, TriggerOf(i), now),
        nextRun := db.nextRun + |ids|)
  }

  /** The agents an accepted event reaches, in id order. */
  function TargetIds(db: Db, i: IngestInput): (ids: seq<nat>)
    ensures forall a <- ids :: a in db.agents
  {
    SortedIdsOk(Targets(db, i));
    SortedIds(Targets(db, i))
  }

  function IngestDb(db: Db, i: IngestInput, now: int): Db {
    if !IngestOk(i) || Known(db, i.idem) then db else Enqueue(db, i, TargetIds(db, i), now)
  }

  /** The runs of a snapshot, one agent or all. */
  function RunsOfSnap(db: Db, s: nat, agent: Option<nat>): set<nat> {
    set r | r in db.runs && db.runs[r].snap == s && (agent.None? || db.runs[r].agent == agent.value)
  }

  /** Run references in agent order: exactly one for each run of the set. */
  ghost predicate Lists(db: Db, rs: set<nat>, refs: seq<RunRef>, created: bool) {
    && (forall k :: 0 <= k < |refs| ==>
          && refs[k].created == created && refs[k].run in rs && refs[k].run in db.runs
          && refs[k].agent == db.runs[refs[k].run].agent)
    && (forall r <- rs :: exists k :: 0 <= k < |refs| && refs[k].run == r)
    && (forall j, k :: 0 <= j < k < |refs| ==> refs[j].agent < refs[k].agent)
  }

  // ----- legacy decisions

  ghost function SetLegacyDb(db: Db, idem: string, legacy: Legacy): Db
    requires Linked(db)
  {
    if !Known(db, idem) then db
    else
      var s := SnapOf(db, idem);
      db.(runs := map r | r in db.runs ::
            if db.runs[r].snap == s then Recomputed(db.runs[r].(legacy := Some(legacy)), SourceOf(db, r))
            else db.runs[r])
  }

  // ----- claim

  predicate Runnable(db: Db, r: nat, runtimes: set<string>, now: int)
    requires r in db.runs && db.runs[r].agent in db.agents
  {
    var x, a := db.runs[r], db.agents[db.runs[r].agent];
    x.status.Queued? && x.runAfter <= now && (a.enabled || "operator:" <= x.trigger) && a.runtime in runtimes
  }

  /** The runnable runs no other transaction holds locked. */
  ghost function Claimable(db: Db, runtimes: set<string>, locked: set<nat>, now: int): set<nat>
    requires Linked(db)
  {
    set r | r in db.runs && r !in locked && Runnable(db, r, runtimes, now)
  }

  /** ORDER BY run_after, id. */
  predicate NotLater(db: Db, r: nat, s: nat)
    requires r in db.runs && s in db.runs
  {
    db.runs[r].runAfter < db.runs[s].runAfter || (db.runs[r].runAfter == db.runs[s].runAfter && r <= s)
  }

  lemma NotLaterTransitive(db: Db, a: nat, b: nat, c: nat)
    requires a in db.runs && b in db.runs && c in db.runs && NotLater(db, a, b) && NotLater(db, b, c)
    ensures NotLater(db, a, c)
  {
  }

  lemma {:induction false} FirstExists(db: Db, c: set<nat>) returns (r: nat)
    requires c != {} && forall r <- c :: r in db.runs
    ensures r in c && forall s <- c :: NotLater(db, r, s)
    decreases |c|
  {
    var x :| x in c;
    r := x;
    if c != {x} {
      var k := FirstExists(db, c - {x});
      r := if NotLater(db, x, k) then x else k;
      forall s <- c ensures NotLater(db, r, s) {
        if s != x {
          assert s in c - {x};
          NotLaterTransitive(db, r, k, s);
        }
      }
    }
  }

  ghost function First(db: Db, c: set<nat>): (r: nat)
    requires c != {} && forall r <- c :: r in db.runs
    ensures r in c && forall s <- c :: NotLater(db, r, s)
  {
    assert exists r :: r in c && forall s <- c :: NotLater(db, r, s) by {
      var r := FirstExists(db, c);
    }
    var r :| r in c && forall s <- c :: NotLater(db, r, s);
    r
  }

  function ClaimRunDb(db: Db, r: nat, worker: string, lease: int, now: int): Db
    requires r in db.runs
  {
    var x := ClaimRow(db.runs[r]);
    db.(runs := db.runs[r := x],
        attempts := db.attempts[db.nextAttempt :=
          Attempt(r, x.attemptsMade, worker, db.nextFence, AttRunning, now + lease, None, 0, map[])],
        nextAttempt := db.nextAttempt + 1, nextFence := db.nextFence + 1)
  }

  ghost function ClaimDb(db: Db, worker: string, runtimes: set<string>, lease: int, locked: set<nat>, now: int): Db
    requires Linked(db)
  {
    var c := Claimable(db, runtimes, locked, now);
    if c == {} then db else ClaimRunDb(db, First(db, c), worker, lease, now)
  }

  // ----- calls of the owning worker

  datatype CallError = Stale | RunCancelled | Forbidden | BudgetSpent | BadDelay | PastFreshness

  datatype Answer<T> = Ok(value: T) | Err(error: CallError)

  function HeartbeatDb(db: Db, a: nat, fence: nat, lease: int, now: int): Db {
    if Current(db, a, fence, now) then db.(attempts := db.attempts[a := db.attempts[a].(leaseUntil := now + lease)])
    else db
  }

  ghost function AgentOf(db: Db, a: nat): Agent
    requires Linked(db) && a in db.attempts
  {
    var x := db.agents[db.runs[db.attempts[a].run].agent];
    x.(budgets := WithDefaults(x.budgets))
  }

  ghost function RunOf(db: Db, a: nat): Run
    requires Linked(db) && a in db.attempts
  {
    db.runs[db.attempts[a].run]
  }

  ghost function AuthorizeAnswer(db: Db, a: nat, fence: nat, tool: string, now: int): Answer<nat>
    requires Linked(db)
  {
    if !Current(db, a, fence, now) then Err(Stale)
    else if RunOf(db, a).cancelRequested then Err(RunCancelled)
    else if tool !in AgentOf(db, a).allowedTools then Err(Forbidden)
    else if db.attempts[a].toolCalls >= AgentOf(db, a).budgets.maxToolCalls then Err(BudgetSpent)
    else Ok(db.attempts[a].run)
  }

  ghost function AuthorizeDb(db: Db, a: nat, fence: nat, tool: string, now: int): Db
    requires Linked(db)
  {
    if AuthorizeAnswer(db, a, fence, tool, now).Ok? then
      db.(attempts := db.attempts[a := db.attempts[a].(toolCalls := db.attempts[a].toolCalls + 1)])
    else db
  }

  /** Time a follow-up reserves for the resumed attempt. */
  const FOLLOWUP_MARGIN := 60 * SECOND

  /** Integer division that truncates toward zero. */
  function TruncDiv(a: int, b: int): int
    requires b > 0
  {
    if a >= 0 then a / b else -((-a) / b)
  }

  ghost function PendingWaitAnswer(db: Db, a: nat, fence: nat, seconds: int, now: int, clock: int): Answer<()>
    requires Linked(db)
  {
    if seconds < 10 || seconds > 3600 then Err(BadDelay)
    else if !Current(db, a, fence, now) then Err(Stale)
    else
      var b := AgentOf(db, a).budgets;
      var age := clock - db.snaps[RunOf(db, a).snap].takenAt;
      if RunOf(db, a).followupsUsed >= b.maxFollowups then Err(BudgetSpent)
      else if seconds > TruncDiv(b.freshnessSeconds * SECOND - age - FOLLOWUP_MARGIN, SECOND) then Err(PastFreshness)
      else Ok(())
  }

  ghost function SetPendingWaitDb(db: Db, a: nat, fence: nat, seconds: int, now: int, clock: int): Db
    requires Linked(db)
  {
    if PendingWaitAnswer(db, a, fence, seconds, now, clock).Ok? then
      db.(attempts := db.attempts[a := db.attempts[a].(pendingWait := Some(seconds))])
    else db
  }

  // ----- complete

  datatype CompleteInput = CompleteInput(proposal: Option<Decision>, usage: Usage)

  datatype Outcome = Outcome(status: RunStatus, validation: Option<Validation>, duplicate: bool)

  function ProposalOf(i: CompleteInput): Decision {
    i.proposal.GetOr(HOLD)
  }

  /** Only the monitor writes wake snapshots; a wake block elsewhere is plain payload data. */
  function WakeIn(s: Snapshot): Option<WakePosition> {
    if s.source.Monitor? then WakeOf(s.payload) else None
  }

  function Judge(s: Snapshot, d: Decision, clock: int, maxAge: int): Validation {
    if WakeIn(s).Some? then JudgeWake(d, WakeIn(s).value, s.takenAt, clock, maxAge)
    else JudgeProposal(d, FactsOf(s.instrument, s.payload, s.takenAt), clock, maxAge)
  }

  predicate Waits(at: Attempt, followupsUsed: int, b: Budgets) {
    at.pendingWait.Some? && at.pendingWait.value > 0 && followupsUsed < b.maxFollowups
  }

  function Log(db: Db, position: int, kind: EventKind, at: int): Db {
    db.(events := db.events + [PosEvent(position, kind, at)])
  }

  /** The row changes of an accepted wake result, in order. */
  function WakeRowOps(p: Position, d: Decision, price: real, at: int): seq<RowOp> {
    if d.action.Close? then [WakeAnswered, CloseAt(WakeFill(p, price, at), at, AgentClose)]
    else if d.action.TightenStop? && d.newStop.Some? then [WakeAnswered, Tighten(d.newStop.value, price)]
    else if d.action.SetTripwires? then [WakeAnswered, Rewire(d.tripwires)]
    else [WakeAnswered]
  }

  function WakeNote(p: Position, d: Decision, price: real, run: nat): EventKind {
    if d.action.Close? then (if p.status == Live then ExitNoted else WakeIgnored(run))
    else if d.action.TightenStop? && d.newStop.Some? then
      (if TightenLands(p, d.newStop.value, price) then Tightened(run) else WakeIgnored(run))
    else if d.action.SetTripwires? then (if p.status == Live then Rewired(run) else WakeIgnored(run))
    else WakeHeld(run)
  }

  function ApplyWakeDb(db: Db, run: nat, w: WakePosition, d: Decision, price: real, at: int, now: int): Db
    requires w.id in db.positions
  {
    var p := db.positions[w.id];
    Log(db.(positions := db.positions[w.id := RunRow(p, WakeRowOps(p, d, price, at))]),
        w.id, WakeNote(p, d, price, run), now)
  }

  /** One open position per agent, and one position per opening run. */
  predicate OpenConflict(db: Db, agent: nat, run: nat) {
    exists p <- db.positions ::
      (db.positions[p].agent == agent && db.positions[p].status == Live) || db.positions[p].run == run
  }

  predicate HoldsOpen(db: Db, agent: nat, p: int) {
    p in db.positions && db.positions[p].agent == agent && db.positions[p].status == Live
  }

  function NewPosition(agent: nat, run: nat, s: Snapshot, d: Decision, price: real, at: int): Position {
    Position(agent, run, s.instrument, s.granularity, d.side, d.notional, price, at, d.stop, d.stop, d.target,
             d.plan.GetOr(NO_PLAN), 0, price, 0.0, None, map[], Live, 0, 0, false)
  }

  ghost function OpenDb(db: Db, agent: nat, run: nat, s: Snapshot, d: Decision, price: real, at: int, now: int): Db {
    if !OpenConflict(db, agent, run) then
      Log(db.(positions := db.positions[db.nextPosition := NewPosition(agent, run, s, d, price, at)],
              nextPosition := db.nextPosition + 1),
          db.nextPosition, Opened(run), now)
    else if !exists p :: HoldsOpen(db, agent, p) then db
    else
      var held :| HoldsOpen(db, agent, held);
      if db.positions[held].run == run then db else Log(db, held, OpenIgnored(run), now)
  }

  /** A final result moves the shadow book: a wake acts on its own agent's position, a valid
      engine entry opens one. */
  ghost function BookDb(db: Db, agent: nat, run: nat, s: Snapshot, d: Decision, v: Validation,
                        now: int, clock: int, host: int): Db
  {
    var wake := WakeIn(s);
    if wake.Some? then
      var id := wake.value.id;
      if id !in db.positions || db.positions[id].agent != agent then db
      else if v.valid then ApplyWakeDb(db, run, wake.value, d, v.priceUsed, host, now)
      else Log(db, id, WakeHeld(run), now)
    else if v.valid && d.action.Open? && s.source.Engine? then OpenDb(db, agent, run, s, d, v.priceUsed, clock, now)
    else db
  }

  ghost function CompleteDb(db: Db, a: nat, fence: nat, i: CompleteInput, now: int, clock: int, host: int): Db
    requires Linked(db)
  {
    if !Current(db, a, fence, now) then db
    else
      var at, r, x := db.attempts[a], db.attempts[a].run, RunOf(db, a);
      var s := db.snaps[x.snap];
      if x.cancelRequested then Finish(db, a, AttCancelled, at.usage, CancelRow(x, s.source))
      else
        var b := AgentOf(db, a).budgets;
        var d := ProposalOf(i);
        var v := Judge(s, d, clock, b.freshnessSeconds * SECOND);
        if Waits(at, x.followupsUsed, b) then
          Finish(db, a, AttWaiting, i.usage, WaitRow(x, d, v, i.usage, now + at.pendingWait.value * SECOND, s.source))
        else
          BookDb(Finish(db, a, AttSucceeded, i.usage, SucceedRow(x, d, v, i.usage, s.source)),
                 x.agent, r, s, d, v, now, clock, host)
  }

  ghost function CompleteAnswer(db: Db, a: nat, fence: nat, i: CompleteInput, now: int, clock: int): Answer<Outcome>
    requires Linked(db)
  {
    if !Fenced(db, a, fence) then Err(Stale)
    else
      var at, x := db.attempts[a], RunOf(db, a);
      if at.status.AttSucceeded? then Ok(Outcome(Succeeded, x.validation, true))
      else if at.status.AttWaiting? then Ok(Outcome(WaitingForEvent, x.validation, true))
      else if !Current(db, a, fence, now) then Err(Stale)
      else if x.cancelRequested then Err(RunCancelled)
      else
        var b := AgentOf(db, a).budgets;
        var v := Judge(db.snaps[x.snap], ProposalOf(i), clock, b.freshnessSeconds * SECOND);
        Ok(Outcome(if Waits(at, x.followupsUsed, b) then WaitingForEvent else Succeeded, Some(v), false))
  }

  // ----- fail and cancel

  ghost function FailDb(db: Db, a: nat, fence: nat, retryable: bool, now: int): Db
    requires Linked(db)
  {
    if !Current(db, a, fence, now) then db
    else
      var x, src := RunOf(db, a), SourceOf(db, db.attempts[a].run);
      Finish(db, a, AttFailed, db.attempts[a].usage,
             if x.cancelRequested then CancelRow(x, src) else RequeueOrFail(x, retryable, src, now))
  }

  /** The acknowledgement does not look at the lease: a running attempt past its lease is still ended. */
  ghost function AckCancelDb(db: Db, a: nat, fence: nat): Db
    requires Linked(db)
  {
    if !Fenced(db, a, fence) || !db.attempts[a].status.AttRunning? then db
    else Finish(db, a, AttCancelled, db.attempts[a].usage, CancelRow(RunOf(db, a), SourceOf(db, db.attempts[a].run)))
  }

  datatype CancelAnswer = RunNotFound | AlreadyTerminal(status: RunStatus) | CancelledNow | CancelAsked

  ghost function CancelAnswerOf(db: Db, r: nat): CancelAnswer {
    if r !in db.runs then RunNotFound
    else if Terminal(db.runs[r].status) then AlreadyTerminal(db.runs[r].status)
    else if db.runs[r].status.Running? then CancelAsked
    else CancelledNow
  }

  ghost function CancelDb(db: Db, r: nat): Db
    requires Linked(db)
  {
    match CancelAnswerOf(db, r)
    case CancelledNow => db.(runs := db.runs[r := CancelRow(db.runs[r], SourceOf(db, r))])
    case CancelAsked => db.(runs := db.runs[r := db.runs[r].(cancelRequested := true)])
    case _ => db
  }

  // ----- the reaper

  ghost function Dead(db: Db, locked: set<nat>, now: int): set<nat> {
    set a | a in db.attempts && db.attempts[a].status.AttRunning? && db.attempts[a].leaseUntil < now && a !in locked
  }

  /** Some attempt of this set belongs to the run. */
  ghost predicate Owns(attempts: map<nat, Attempt>, dead: set<nat>, r: nat) {
    exists a :: a in dead && a in attempts && attempts[a].run == r
  }

  /** Row by row, in no particular order: lapsed attempts end and their runs move on. */
  ghost function LapseDb(db: Db, dead: set<nat>, now: int): Db
    requires Linked(db)
  {
    db.(attempts := map a | a in db.attempts ::
          if a in dead then db.attempts[a].(status := AttExpired) else db.attempts[a],
        runs := map r | r in db.runs ::
          if Owns(db.attempts, dead, r) then LapseRow(db.runs[r], SourceOf(db, r), now) else db.runs[r])
  }

  function Due(x: Run, now: int): bool {
    x.status.WaitingForEvent? && x.waitUntil.Some? && x.waitUntil.value <= now
  }

  ghost function WakeDueDb(db: Db, now: int): Db {
    db.(runs := map r | r in db.runs :: if Due(db.runs[r], now) then WakeRow(db.runs[r], now) else db.runs[r])
  }

  predicate Aged(db: Db, r: nat, now: int)
    requires r in db.runs && db.runs[r].agent in db.agents
  {
    var x := db.runs[r];
    x.status.Queued? && x.runAfter + db.agents[x.agent].budgets.deadlineSeconds * SECOND < now
  }

  ghost function AgeDb(db: Db, locked: set<nat>, now: int): Db
    requires Linked(db)
  {
    db.(runs := map r | r in db.runs ::
          if r !in locked && Aged(db, r, now) then AgeRow(db.runs[r], SourceOf(db, r)) else db.runs[r])
  }

  // ----- the shadow book, outside completion

  function RowDb(db: Db, id: int, op: RowOp): Db {
    if id in db.positions then db.(positions := db.positions[id := ApplyRow(db.positions[id], op)]) else db
  }

  ghost function ClosePositionDb(db: Db, id: int, price: real, at: int, reason: ExitReason, now: int): Db {
    if id in db.positions && db.positions[id].status == Live then
      Log(RowDb(db, id, CloseAt(price, at, reason)), id, ExitNoted, now)
    else db
  }

  predicate WakeRecorded(db: Db, id: int, run: nat) {
    exists e :: 0 <= e < |db.events| && db.events[e].position == id && db.events[e].kind == Wake(run)
  }

  function RecordWakeDb(db: Db, id: int, run: nat, now: int): Db {
    if WakeRecorded(db, id, run) then db else Log(RowDb(db, id, WakeNoted), id, Wake(run), now)
  }

  // ----- wake limits

  /** The event records a wake of the position whose run has not finished. */
  predicate InFlightAt(db: Db, id: int, e: nat) {
    && e < |db.events| && db.events[e].position == id && db.events[e].kind.Wake? && db.events[e].kind.run in db.runs
    && var s := db.runs[db.events[e].kind.run].status; s.Queued? || s.Running? || s.WaitingForEvent?
  }

  predicate InFlight(db: Db, id: int) {
    exists e :: 0 <= e < |db.events| && InFlightAt(db, id, e)
  }

  /** Wakes of the position later than a time, among the first n events. */
  function WakesUpTo(db: Db, id: int, after: int, n: nat): nat
    requires n <= |db.events|
  {
    if n == 0 then 0
    else
      var v := db.events[n - 1];
      WakesUpTo(db, id, after, n - 1) + (if v.position == id && v.kind.Wake? && v.at > after then 1 else 0)
  }

  function WakesSince(db: Db, id: int, after: int): nat {
    WakesUpTo(db, id, after, |db.events|)
  }

  /** A wake whose run ended without an answer and that was not counted yet. */
  predicate Missed(db: Db, id: int, e: nat) {
    && e < |db.events| && db.events[e].position == id && db.events[e].kind.Wake?
    && db.events[e].kind.run in db.runs
    && (var s := db.runs[db.events[e].kind.run].status; s.Failed? || s.Expired? || s.Cancelled?)
    && !exists f :: 0 <= f < |db.events| && db.events[f].position == id && db.events[f].kind == WakeFailed(e)
  }

  function MissedFrom(db: Db, id: int, e: nat): seq<nat>
    requires e <= |db.events|
    decreases |db.events| - e
  {
    if e == |db.events| then []
    else (if Missed(db, id, e) then [e] else []) + MissedFrom(db, id, e + 1)
  }

  /** One missed wake: note it, count it, and ask for attention once three in a row got no answer. */
  function CountMissDb(db: Db, id: int, e: nat, now: int): Db
    requires id in db.positions
  {
    var d := RowDb(Log(db, id, WakeFailed(e), now), id, WakeMissed);
    if d.positions[id].failedWakes >= MAX_FAILED_WAKES then Log(d, id, AttentionRaised, now) else d
  }

  function CountMissesDb(db: Db, id: int, es: seq<nat>, now: int): Db
    requires id in db.positions
    decreases |es|
  {
    if es == [] then db else CountMissesDb(CountMissDb(db, id, es[0], now), id, es[1..], now)
  }

  function ReconcileDb(db: Db, id: int, now: int): Db {
    if id !in db.positions then db else CountMissesDb(db, id, MissedFrom(db, id, 0), now)
  }

  // ----- one step of any actor

  datatype Op =
    | UpsertAgent(id: nat, agent: Agent)
    | SetEnabled(id: nat, enabled: bool)
    | Ingest(input: IngestInput, now: int)
    | SetLegacy(idem: string, legacy: Legacy)
    | Claim(worker: string, runtimes: set<string>, lease: int, locked: set<nat>, now: int)
    | Heartbeat(attempt: nat, fence: nat, lease: int, now: int)
    | AuthorizeTool(attempt: nat, fence: nat, tool: string, now: int)
    | SetPendingWait(attempt: nat, fence: nat, seconds: int, now: int, clock: int)
    | Complete(attempt: nat, fence: nat, result: CompleteInput, now: int, clock: int, host: int)
    | Fail(attempt: nat, fence: nat, retryable: bool, now: int)
    | AckCancel(attempt: nat, fence: nat)
    | Cancel(run: nat)
    | ReapLapsed(locked: set<nat>, now: int)
    | ReapDue(now: int)
    | ReapAged(locked: set<nat>, now: int)
    | SavePosition(position: int, saved: Saved)
    | ClosePosition(position: int, price: real, at: int, reason: ExitReason, now: int)
    | RaiseAttention(position: int, now: int)
    | AddNote(position: int, now: int)
    | RecordWake(position: int, wakeRun: nat, now: int)
    | Reconcile(position: int, now: int)

  ghost function Apply(db: Db, op: Op): Db
    requires Linked(db)
  {
    match op
    case UpsertAgent(id, agent) => UpsertAgentDb(db, id, agent)
    case SetEnabled(id, enabled) => SetEnabledDb(db, id, enabled)
    case Ingest(i, now) => IngestDb(db, i, now)
    case SetLegacy(idem, legacy) => SetLegacyDb(db, idem, legacy)
    case Claim(w, rt, lease, locked, now) => ClaimDb(db, w, rt, lease, locked, now)
    case Heartbeat(a, f, lease, now) => HeartbeatDb(db, a, f, lease, now)
    case AuthorizeTool(a, f, tool, now) => AuthorizeDb(db, a, f, tool, now)
    case SetPendingWait(a, f, seconds, now, clock) => SetPendingWaitDb(db, a, f, seconds, now, clock)
    case Complete(a, f, i, now, clock, host) => CompleteDb(db, a, f, i, now, clock, host)
    case Fail(a, f, retryable, now) => FailDb(db, a, f, retryable, now)
    case AckCancel(a, f) => AckCancelDb(db, a, f)
    case Cancel(r) => CancelDb(db, r)
    case ReapLapsed(locked, now) => LapseDb(db, Dead(db, locked, now), now)
    case ReapDue(now) => WakeDueDb(db, now)
    case ReapAged(locked, now) => AgeDb(db, locked, now)
    case SavePosition(id, s) => RowDb(db, id, Save(s))
    case ClosePosition(id, price, at, reason, now) => ClosePositionDb(db, id, price, at, reason, now)
    case RaiseAttention(id, now) => Log(RowDb(db, id, Attention), id, AttentionRaised, now)
    case AddNote(id, now) => Log(db, id, Note, now)
    case RecordWake(id, run, now) => RecordWakeDb(db, id, run, now)
    case Reconcile(id, now) => ReconcileDb(db, id, now)
  }
}

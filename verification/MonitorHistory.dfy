/** The monitor inside the whole system: database histories in which every save and every exit of one
    position comes from judging a bar, and anyone else may take any step at any time. */
module MonitorHistory {
  import opened Common
  import opened Domain
  import opened Positions
  import opened RunQueue
  import opened QueueSteps
  import opened QueueTheorems
  import opened MonitorStep
  import opened Service
  import opened ServiceSafety
  import opened Signals
  import opened TimeStop
  import opened BookHistory

  /** A step of anyone else; the monitor loading the row for a tick; judging one bar in some
      environment, with the marks stored by then; or storing marks again after a wake. */
  datatype Move =
    | Other(op: Op)
    | Load
    | JudgeBar(bar: Bar, env: Env, marks: map<Tripwire, int>, now: int)
    | StoreMarks(marks: map<Tripwire, int>, time: Option<int>)

  /** The database, and the position the monitor holds in memory during a tick. */
  datatype World = World(db: Db, memory: Option<Pos>)

  ghost predicate Has(w: World, id: int) {
    Inv(w.db) && id in w.db.positions
  }

  /** The database step of a move, if it has one. */
  function OpOf(w: World, id: int, mv: Move): Option<Op> {
    match mv
    case Other(op) => Some(op)
    case Load => None
    case JudgeBar(b, env, marks, now) =>
      if w.memory.None? then None
      else
        var res := StepOf(w.memory.value, b, env);
        if res.exit.Some? then Some(ClosePosition(id, res.exit.value.price, b.time, res.exit.value.reason, now))
        else Some(SavePosition(id, SavedOf(res.pos, Some(b.time), marks)))
    case StoreMarks(marks, time) =>
      if w.memory.None? then None else Some(SavePosition(id, SavedOf(w.memory.value, time, marks)))
  }

  /** What the monitor holds after a move, given the row before and after it. */
  function MemoryAfter(memory: Option<Pos>, mv: Move, before: Position, after: Position): Option<Pos> {
    match mv
    case Other(_) => memory
    case Load => if before.status == Live then Some(FromRow(before)) else None
    case StoreMarks(_, _) => memory
    case JudgeBar(b, env, _, _) =>
      if memory.None? then None
      else
        var res := StepOf(memory.value, b, env);
        if res.exit.Some? || before.status != Live || after.stop == 0.0 then None
        else Some(res.pos.(stop := CloserOf(res.pos.side, res.pos.stop, after.stop)))
  }

  ghost function Moved(w: World, id: int, mv: Move): (w': World)
    requires Has(w, id)
    ensures Has(w', id)
  {
    LinkedOf(w.db);
    var op := OpOf(w, id, mv);
    if op.None? then World(w.db, MemoryAfter(w.memory, mv, w.db.positions[id], w.db.positions[id]))
    else
      StepKeeps(w.db, op.value);
      StepRows(w.db, op.value, id);
      var d := Apply(w.db, op.value);
      World(d, MemoryAfter(w.memory, mv, w.db.positions[id], d.positions[id]))
  }

  /** Others do not pose as the monitor, and a judged bar is well formed and opens inside the stop in force. */
  predicate Allowed(w: World, id: int, mv: Move) {
    match mv
    case Other(op) => !ByMonitor(op, id)
    case JudgeBar(b, _, _, _) => w.memory.Some? ==> BarOk(b) && OpensInside(w.memory.value, b)
    case _ => true
  }

  ghost function Moves(w: World, id: int, mvs: seq<Move>): (w': World)
    requires Has(w, id)
    ensures Has(w', id)
    decreases |mvs|
  {
    if mvs == [] then w else Moves(Moved(w, id, mvs[0]), id, mvs[1..])
  }

  ghost predicate AllAllowed(w: World, id: int, mvs: seq<Move>)
    requires Has(w, id)
    decreases |mvs|
  {
    mvs != [] ==> Allowed(w, id, mvs[0]) && AllAllowed(Moved(w, id, mvs[0]), id, mvs[1..])
  }

  // ----- the moves are a database history

  ghost function OpsOf(w: World, id: int, mvs: seq<Move>): seq<Op>
    requires Has(w, id)
    decreases |mvs|
  {
    if mvs == [] then []
    else
      var op := OpOf(w, id, mvs[0]);
      (if op.Some? then [op.value] else []) + OpsOf(Moved(w, id, mvs[0]), id, mvs[1..])
  }

  lemma MovedDb(w: World, id: int, mv: Move)
    requires Has(w, id) && Linked(w.db)
    ensures Moved(w, id, mv).db == var op := OpOf(w, id, mv); if op.Some? then Apply(w.db, op.value) else w.db
  {
    hide Inv, Apply, OpOf, MemoryAfter, Linked, Evolves;
  }

  lemma StepOrNot(db: Db, d: Db, op: Option<Op>, rest: seq<Op>)
    requires Linked(db) && Inv(db) && Inv(d) && d == if op.Some? then Apply(db, op.value) else db
    ensures Exec(db, (if op.Some? then [op.value] else []) + rest) == Exec(d, rest)
  {
    hide *;
    if op.Some? {
      ExecFirst(db, op.value, rest);
    } else {
      assert [] + rest == rest;
    }
  }

  /** The whole is a history of database steps. */
  lemma {:induction false} MovesAreHistory(w: World, id: int, mvs: seq<Move>)
    requires Has(w, id)
    ensures Moves(w, id, mvs).db == Exec(w.db, OpsOf(w, id, mvs))
    decreases |mvs|
  {
    hide Inv, OpOf, Moved, Linked, Apply;
    if mvs != [] {
      var next := Moved(w, id, mvs[0]);
      MovesAreHistory(next, id, mvs[1..]);
      LinkedOf(w.db);
      MovedDb(w, id, mvs[0]);
      StepOrNot(w.db, next.db, OpOf(w, id, mvs[0]), OpsOf(next, id, mvs[1..]));
    }
  }

  // ----- what every move keeps

  /** The row is sound and timely, and so is the position in memory against it. */
  ghost predicate Sane(q: Position, memory: Option<Pos>) {
    && Sound(q) && Timely(q)
    && (memory.Some? ==>
          InStep(Loop(q, memory.value, map[], 0, false)) && TimelyLoop(Loop(q, memory.value, map[], 0, false)))
  }

  ghost predicate SaneWorld(w: World, id: int) {
    id in w.db.positions && Sane(w.db.positions[id], w.memory)
  }

  ghost predicate Keeps(w: World, w': World, id: int) {
    SaneWorld(w', id) && id in w.db.positions && RowEvolves(w.db.positions[id], w'.db.positions[id])
  }

  lemma OthersSane(q: Position, memory: Option<Pos>, ops: seq<RowOp>)
    requires Sane(q, memory) && OtherOps(ops)
    ensures Sane(RunRow(q, ops), memory) && RowEvolves(q, RunRow(q, ops))
  {
    OthersKeep(q, ops);
    OthersKeepTime(q, ops);
    TradeKept(q, RunRow(q, ops));
    hide RunRow, OtherOps, RowEvolves, RowInv, AtWorst;
  }

  lemma LoadSane(q: Position)
    requires Sound(q) && Timely(q) && q.status == Live
    ensures Sane(q, Some(FromRow(q)))
  {
    hide PnL;
  }

  lemma SaveSane(q: Position, memory: Option<Pos>, p: Pos, s: Saved)
    requires Sane(q, Some(p)) && s == SavedOf(p, s.lastBarTime, s.lastFired)
    requires memory == (if q.status != Live || SaveRow(q, s).stop == 0.0 then None
                        else Some(p.(stop := CloserOf(p.side, p.stop, SaveRow(q, s).stop)))) || memory == Some(p)
    ensures Sane(SaveRow(q, s), memory) && RowEvolves(q, SaveRow(q, s))
  {
    SaveKeeps(q, s);
    TradeKept(q, SaveRow(q, s));
    CloserPick(q.side, p.stop, SaveRow(q, s).stop, q.initialStop);
    hide RowEvolves, RowInv, AtWorst, Closer, CloserOf;
  }

  lemma JudgedSane(q: Position, p: Pos, b: Bar, env: Env)
    requires Sane(q, Some(p)) && StepOf(p, b, env).exit.None?
    ensures Sane(q, Some(StepOf(p, b, env).pos))
  {
    StepTrade(Loop(q, p, map[], 0, false), b, env);
    PlanKept(p, b, env);
    if p.plan.maxBars > 0 {
      HeldBelowTimeStop(p, b, env);
    }
    hide StepOf, Sound;
  }

  lemma CloseSane(q: Position, p: Pos, b: Bar, env: Env)
    requires Sane(q, Some(p)) && StepOf(p, b, env).exit.Some? && BarOk(b) && OpensInside(p, b)
    ensures var e := StepOf(p, b, env).exit.value;
      Sane(CloseRow(q, e.price, b.time, e.reason), None) && RowEvolves(q, CloseRow(q, e.price, b.time, e.reason))
  {
    CloseKeeps(q, p, b, env);
    CloseEvolves(q, StepOf(p, b, env).exit.value.price, b.time, StepOf(p, b, env).exit.value.reason);
    hide StepOf, RowEvolves, PnL;
  }

  // ----- one move

  /** The row change of the monitor's own step. */
  lemma OwnRow(db: Db, op: Op, id: int)
    requires Inv(db) && Linked(db) && id in db.positions && (op.SavePosition? || op.ClosePosition?) && op.position == id
    ensures id in Apply(db, op).positions
    ensures Apply(db, op).positions[id] ==
      if op.SavePosition? then SaveRow(db.positions[id], op.saved)
      else CloseRow(db.positions[id], op.price, op.at, op.reason)
  {
    hide Inv, Linked, Apply, RunRow, SaveRow, CloseRow;
    StepRows(db, op, id);
    var change := if op.SavePosition? then Save(op.saved) else CloseAt(op.price, op.at, op.reason);
    OneOp(db.positions[id], change);
  }

  lemma OtherKeepsWorld(w: World, id: int, op: Op)
    requires Has(w, id) && SaneWorld(w, id) && !ByMonitor(op, id)
    ensures Keeps(w, Moved(w, id, Other(op)), id)
  {
    hide Inv, Linked, Apply, Sane, RowEvolves, RunRow, RowOpsOf, OtherOps, ByMonitor;
    LinkedOf(w.db);
    StepRows(w.db, op, id);
    OthersReach(w.db, op, id);
    OthersSane(w.db.positions[id], w.memory, RowOpsOf(w.db, op, id));
  }

  lemma MovedWorld(w: World, id: int, mv: Move)
    requires Has(w, id) && Linked(w.db) && OpOf(w, id, mv).Some? && id in Apply(w.db, OpOf(w, id, mv).value).positions
    ensures var d := Apply(w.db, OpOf(w, id, mv).value);
      Moved(w, id, mv) == World(d, MemoryAfter(w.memory, mv, w.db.positions[id], d.positions[id]))
  {
    hide Inv, Apply, OpOf, MemoryAfter, Linked, Evolves;
  }

  lemma MarksWorld(w: World, id: int, marks: map<Tripwire, int>, time: Option<int>)
    requires Has(w, id) && w.memory.Some?
    ensures var v := Moved(w, id, StoreMarks(marks, time));
      v.memory == w.memory && v.db.positions[id] == SaveRow(w.db.positions[id], SavedOf(w.memory.value, time, marks))
  {
    hide Inv, Linked, Apply, SaveRow, Moved;
    var mv := StoreMarks(marks, time);
    LinkedOf(w.db);
    OwnRow(w.db, OpOf(w, id, mv).value, id);
    MovedWorld(w, id, mv);
  }

  lemma MarksKeep(w: World, id: int, marks: map<Tripwire, int>, time: Option<int>)
    requires Has(w, id) && SaneWorld(w, id)
    ensures Keeps(w, Moved(w, id, StoreMarks(marks, time)), id)
  {
    hide Inv, Sane, RowEvolves, SaveRow, Moved;
    if w.memory.Some? {
      var s := SavedOf(w.memory.value, time, marks);
      MarksWorld(w, id, marks, time);
      SaveSane(w.db.positions[id], w.memory, w.memory.value, s);
    } else {
      NoMarks(w, id, marks, time);
      RowEvolvesSelf(w.db.positions[id]);
    }
  }

  lemma NoMarks(w: World, id: int, marks: map<Tripwire, int>, time: Option<int>)
    requires Has(w, id) && w.memory.None?
    ensures Moved(w, id, StoreMarks(marks, time)) == w
  {
    hide Inv, Linked, Apply;
  }

  lemma LoadRow(q: Position, memory: Option<Pos>)
    requires Sane(q, memory)
    ensures RowEvolves(q, q) && Sane(q, if q.status == Live then Some(FromRow(q)) else None)
  {
    RowEvolvesSelf(q);
    if q.status == Live {
      LoadSane(q);
    }
  }

  lemma LoadKeeps(w: World, id: int)
    requires Has(w, id) && SaneWorld(w, id)
    ensures Keeps(w, Moved(w, id, Load), id)
  {
    hide Inv, Sane, RowEvolves, FromRow;
    LoadRow(w.db.positions[id], w.memory);
  }

  lemma JudgeOp(w: World, id: int, mv: Move)
    requires mv.JudgeBar? && w.memory.Some?
    ensures OpOf(w, id, mv).Some?
    ensures var op := OpOf(w, id, mv).value; (op.SavePosition? || op.ClosePosition?) && op.position == id
  {
    hide StepOf;
  }

  lemma JudgedKeeps(w: World, id: int, b: Bar, env: Env, marks: map<Tripwire, int>, now: int)
    requires Has(w, id) && SaneWorld(w, id) && w.memory.Some? && Allowed(w, id, JudgeBar(b, env, marks, now))
    ensures Keeps(w, Moved(w, id, JudgeBar(b, env, marks, now)), id)
  {
    hide Inv, Linked, Apply, Sane, RowEvolves, OpOf, SaveRow, CloseRow, Allowed, MemoryAfter, Moved;
    var mv := JudgeBar(b, env, marks, now);
    LinkedOf(w.db);
    JudgeOp(w, id, mv);
    OwnRow(w.db, OpOf(w, id, mv).value, id);
    MovedWorld(w, id, mv);
    RowAndMemory(w.db.positions[id], w, id, mv);
  }

  lemma JudgeKeeps(w: World, id: int, b: Bar, env: Env, marks: map<Tripwire, int>, now: int)
    requires Has(w, id) && SaneWorld(w, id) && Allowed(w, id, JudgeBar(b, env, marks, now))
    ensures Keeps(w, Moved(w, id, JudgeBar(b, env, marks, now)), id)
  {
    hide Inv, Linked, Apply, Sane, RowEvolves, SaveRow, CloseRow, Allowed, StepOf;
    if w.memory.None? {
      RowEvolvesSelf(w.db.positions[id]);
    } else {
      JudgedKeeps(w, id, b, env, marks, now);
    }
  }

  /** The row and the memory after judging a bar, on values. */
  lemma RowAndMemory(q: Position, w: World, id: int, mv: Move)
    requires Sane(q, w.memory) && w.memory.Some? && mv.JudgeBar? && Allowed(w, id, mv)
    ensures var op := OpOf(w, id, mv).value;
      var r := if op.SavePosition? then SaveRow(q, op.saved) else CloseRow(q, op.price, op.at, op.reason);
      Sane(r, MemoryAfter(w.memory, mv, q, r)) && RowEvolves(q, r)
  {
    hide Sane, RowEvolves, StepOf, SaveRow, CloseRow, BarOk, OpensInside;
    var p, b := w.memory.value, mv.bar;
    var res := StepOf(p, b, mv.env);
    if res.exit.Some? {
      CloseSane(q, p, b, mv.env);
    } else {
      var s := SavedOf(res.pos, Some(b.time), mv.marks);
      JudgedSane(q, p, b, mv.env);
      SaveSane(q, MemoryAfter(w.memory, mv, q, SaveRow(q, s)), res.pos, s);
    }
  }

  lemma MoveKeeps(w: World, id: int, mv: Move)
    requires Has(w, id) && SaneWorld(w, id) && Allowed(w, id, mv)
    ensures Keeps(w, Moved(w, id, mv), id)
  {
    hide Has, SaneWorld, Keeps, Moved, BarOk, OpensInside;
    match mv
    case Other(op) => OtherKeepsWorld(w, id, op);
    case Load => LoadKeeps(w, id);
    case StoreMarks(marks, time) => MarksKeep(w, id, marks, time);
    case JudgeBar(b, env, marks, now) => JudgeKeeps(w, id, b, env, marks, now);
  }

  /** In every such history of the whole system, from a sound row on: the trade never changes, a close
      by the monitor books at least the result at the initial stop, and an open row has been held for
      fewer bars than its time stop. */
  lemma DatabaseLossBound(w: World, id: int, mvs: seq<Move>)
    requires Has(w, id) && SaneWorld(w, id) && AllAllowed(w, id, mvs)
    ensures var q, r := w.db.positions[id], Moves(w, id, mvs).db.positions[id];
      && RowEvolves(q, r) && Timely(r) && RowInv(r)
      && (r.status.Closed? && !r.status.reason.AgentClose? ==>
            r.status.realized >= PnL(q.side, q.notional, q.entry, q.initialStop))
  {
    hide Has, AllAllowed, Moves, PnL, Closer;
    HistoryKeeps(w, id, mvs);
  }

  lemma {:induction false} HistoryKeeps(w: World, id: int, mvs: seq<Move>)
    requires Has(w, id) && SaneWorld(w, id) && AllAllowed(w, id, mvs)
    ensures Keeps(w, Moves(w, id, mvs), id)
    decreases |mvs|
  {
    hide Inv, Sane, RowEvolves, Allowed, Moved;
    if mvs == [] {
      RowEvolvesSelf(w.db.positions[id]);
    } else {
      MoveKeeps(w, id, mvs[0]);
      var next := Moved(w, id, mvs[0]);
      HistoryKeeps(next, id, mvs[1..]);
      RowEvolvesTransitive(w.db.positions[id], next.db.positions[id], Moves(next, id, mvs[1..]).db.positions[id]);
    }
  }

  /** A position the system has just opened is a start for such a history. */
  lemma OpenedIsSane(db: Db, op: Op, id: int)
    requires Inv(db) && id in Apply(db, op).positions && id !in db.positions
    ensures Sane(Apply(db, op).positions[id], None)
  {
    hide Inv, Apply, Sound, Linked;
    OpensSound(db, op, id);
  }

  // ----- a bar of the service is such a stretch

  function OthersMoves(ops: seq<Op>): seq<Move> {
    if ops == [] then [] else [Other(ops[0])] + OthersMoves(ops[1..])
  }

  lemma {:induction false} MovesJoin(w: World, id: int, a: seq<Move>, b: seq<Move>)
    requires Has(w, id)
    ensures Moves(w, id, a + b) == Moves(Moves(w, id, a), id, b)
    decreases |a|
  {
    hide Has, Moved;
    if a == [] {
      assert a + b == b;
    } else {
      assert (a + b)[1..] == a[1..] + b;
      MovesJoin(Moved(w, id, a[0]), id, a[1..], b);
    }
  }

  lemma OtherMoved(w: World, id: int, op: Op)
    requires Has(w, id) && Linked(w.db)
    ensures Moved(w, id, Other(op)) == World(Apply(w.db, op), w.memory)
  {
    hide Inv, Linked, Apply, Evolves;
  }

  lemma {:induction false} OthersRun(w: World, id: int, ops: seq<Op>)
    requires Has(w, id)
    ensures Moves(w, id, OthersMoves(ops)) == World(Exec(w.db, ops), w.memory)
    decreases |ops|
  {
    hide Inv, Linked, Apply, Evolves, Moved;
    LinkedOf(w.db);
    if ops != [] {
      var next := Moved(w, id, Other(ops[0]));
      OtherMoved(w, id, ops[0]);
      assert OthersMoves(ops)[1..] == OthersMoves(ops[1..]);
      OthersRun(next, id, ops[1..]);
    }
  }

  /** Others run: the memory stays, and the row goes through their row changes. */
  lemma OthersRow(w: World, id: int, ops: seq<Op>)
    requires Has(w, id)
    ensures var v := Moves(w, id, OthersMoves(ops));
      v.memory == w.memory && v.db.positions[id] == RunRow(w.db.positions[id], RowHistoryOf(w.db, ops, id))
      && v.db == Exec(w.db, ops)
  {
    hide Inv, Exec, RunRow, RowHistoryOf, Moves, OthersMoves;
    OthersRun(w, id, ops);
    HistoryRows(w.db, ops, id);
  }

  lemma OneMove(w: World, id: int, mv: Move)
    requires Has(w, id)
    ensures Moves(w, id, [mv]) == Moved(w, id, mv)
  {
    hide Has, Moved;
    assert [mv][1..] == [];
  }

  lemma JudgeWorld(w: World, id: int, b: Bar, env: Env, durable: map<Tripwire, int>, now: int)
    requires Has(w, id) && w.memory.Some?
    ensures var q, res := w.db.positions[id], StepOf(w.memory.value, b, env);
      var v := Moved(w, id, JudgeBar(b, env, durable, now));
      v.db.positions[id] == (if res.exit.Some? then CloseRow(q, res.exit.value.price, b.time, res.exit.value.reason)
                             else SaveRow(q, SavedOf(res.pos, Some(b.time), durable)))
      && v.memory == MemoryAfter(w.memory, JudgeBar(b, env, durable, now), q, v.db.positions[id])
  {
    hide Inv, Linked, Apply, StepOf, SaveRow, CloseRow, MemoryAfter, Moved;
    var mv := JudgeBar(b, env, durable, now);
    LinkedOf(w.db);
    JudgeOp(w, id, mv);
    OwnRow(w.db, OpOf(w, id, mv).value, id);
    MovedWorld(w, id, mv);
  }

  /** The world after others ran and the bar was judged. */
  ghost function JudgedWorld(w: World, id: int, b: Bar, env: Env, durable: map<Tripwire, int>, now: int,
                             before: seq<Op>): (v: World)
    requires Has(w, id)
    ensures Has(v, id)
  {
    Moves(w, id, OthersMoves(before) + [JudgeBar(b, env, durable, now)])
  }

  lemma JudgedWorldIs(w: World, id: int, b: Bar, env: Env, durable: map<Tripwire, int>, now: int, before: seq<Op>)
    requires Has(w, id) && w.memory.Some?
    ensures var q, res := RunRow(w.db.positions[id], RowHistoryOf(w.db, before, id)), StepOf(w.memory.value, b, env);
      var v := JudgedWorld(w, id, b, env, durable, now, before);
      v.db.positions[id] == (if res.exit.Some? then CloseRow(q, res.exit.value.price, b.time, res.exit.value.reason)
                             else SaveRow(q, SavedOf(res.pos, Some(b.time), durable)))
      && v.memory == MemoryAfter(w.memory, JudgeBar(b, env, durable, now), q, v.db.positions[id])
  {
    hide Inv, Exec, RunRow, RowHistoryOf, Moves, OthersMoves, StepOf, SaveRow, CloseRow, Moved, MemoryAfter;
    var mv := JudgeBar(b, env, durable, now);
    var u := Moves(w, id, OthersMoves(before));
    OthersRow(w, id, before);
    MovesJoin(w, id, OthersMoves(before), [mv]);
    OneMove(u, id, mv);
    JudgeWorld(u, id, b, env, durable, now);
  }

  /** What follows the judgement of a bar the position lives through: what others do while the agent is
      woken, and the marks stored after. */
  function TailMoves(memory: Option<Pos>, b: Bar, fired: seq<Tripwire>, durable: map<Tripwire, int>,
                     during: seq<Op>, woken: seq<bool>): seq<Move>
  {
    if memory.None? then []
    else
      OthersMoves(during)
      + if Marked(|fired|, woken)
        then [StoreMarks(Stored(durable, fired, woken, memory.value.lastFired), Some(b.time))] else []
  }

  lemma TailIs(w: World, id: int, b: Bar, fired: seq<Tripwire>, durable: map<Tripwire, int>, during: seq<Op>,
               woken: seq<bool>)
    requires Has(w, id) && w.memory.Some?
    ensures var p, v := w.memory.value, Moves(w, id, TailMoves(w.memory, b, fired, durable, during, woken));
      var after := RunRow(w.db.positions[id], RowHistoryOf(w.db, during, id));
      v.memory == w.memory
      && v.db.positions[id] ==
           if Marked(|fired|, woken)
           then SaveRow(after, SavedOf(p, Some(b.time), Stored(durable, fired, woken, p.lastFired))) else after
  {
    hide Inv, Exec, RunRow, RowHistoryOf, Moves, OthersMoves, SaveRow, Moved, Stored, Marked;
    var u := Moves(w, id, OthersMoves(during));
    OthersRow(w, id, during);
    if Marked(|fired|, woken) {
      var marks := Stored(durable, fired, woken, w.memory.value.lastFired);
      MovesJoin(w, id, OthersMoves(during), [StoreMarks(marks, Some(b.time))]);
      OneMove(u, id, StoreMarks(marks, Some(b.time)));
      MarksWorld(u, id, marks, Some(b.time));
    } else {
      assert OthersMoves(during) + [] == OthersMoves(during);
    }
  }

  /** The service's bar, taken apart the same way. */
  lemma BarParts(l: Loop, m: Market, lastBar: Option<int>, b: Bar, now: int, x: Others)
    requires |m.bars| > 0
    ensures var env, q, d := LoopEnv(l, m, lastBar, b), RunRow(l.row, x.before), BarStep(l, m, lastBar, b, x);
      var res := StepOf(l.pos, b, env);
      var row := if res.exit.Some? then CloseRow(q, res.exit.value.price, b.time, res.exit.value.reason)
                 else SaveRow(q, SavedOf(res.pos, Some(b.time), l.durable));
      var memory := MemoryAfter(Some(l.pos), JudgeBar(b, env, l.durable, now), q, row);
      if memory.None? then d.over && d.row == row
      else
        var after, p := RunRow(row, x.during), memory.value;
        && !d.over && d.pos == p
        && d.row == if Marked(|res.fired|, x.woken)
                    then SaveRow(after, SavedOf(p, Some(b.time), Stored(l.durable, res.fired, x.woken, p.lastFired)))
                    else after
  {
    hide RunRow, SaveRow, CloseRow, Stored, Marked, StepOf, EnvFor, CloserOf;
  }

  /** What others do around one judged bar, in database steps: before the close or save, and while the
      fired tripwires wake the agent; and which of those wakes could be enqueued. */
  datatype Around = Around(before: seq<Op>, during: seq<Op>, woken: seq<bool>)

  /** The moves of one judged bar of the service. */
  ghost function BarStretch(w: World, id: int, l: Loop, m: Market, lastBar: Option<int>, b: Bar, now: int,
                            a: Around): seq<Move>
    requires Has(w, id) && |m.bars| > 0
  {
    var env := LoopEnv(l, m, lastBar, b);
    var judged := JudgedWorld(w, id, b, env, l.durable, now, a.before);
    (OthersMoves(a.before) + [JudgeBar(b, env, l.durable, now)])
    + TailMoves(judged.memory, b, StepOf(l.pos, b, env).fired, l.durable, a.during, a.woken)
  }

  /** What others do around it, as the row sees it. */
  ghost function SeenAround(w: World, id: int, l: Loop, m: Market, lastBar: Option<int>, b: Bar, now: int,
                            a: Around): Others
    requires Has(w, id) && |m.bars| > 0
  {
    var judged := JudgedWorld(w, id, b, LoopEnv(l, m, lastBar, b), l.durable, now, a.before);
    Others(RowHistoryOf(w.db, a.before, id), RowHistoryOf(judged.db, a.during, id), a.woken)
  }

  /** The monitor is at this point of the service's loop. */
  ghost predicate InLoop(w: World, id: int, l: Loop) {
    Has(w, id) && w.db.positions[id] == l.row && w.memory == if l.over then None else Some(l.pos)
  }

  /** One judged bar of the service, with others' database steps around it, is a stretch of moves: the
      row and the position in memory come out as the service's bar has them. */
  lemma BarIsMoves(w: World, id: int, l: Loop, m: Market, lastBar: Option<int>, b: Bar, now: int, a: Around)
    requires |m.bars| > 0 && InLoop(w, id, l) && !l.over
    ensures InLoop(Moves(w, id, BarStretch(w, id, l, m, lastBar, b, now, a)), id,
               BarStep(l, m, lastBar, b, SeenAround(w, id, l, m, lastBar, b, now, a)))
  {
    hide Inv, Exec, RunRow, RowHistoryOf, Moves, OthersMoves, SaveRow, CloseRow, Moved, Stored, Marked, StepOf, LoopEnv,
         BarStep, MemoryAfter;
    var env := LoopEnv(l, m, lastBar, b);
    var judged := JudgedWorld(w, id, b, env, l.durable, now, a.before);
    JudgedWorldIs(w, id, b, env, l.durable, now, a.before);
    BarParts(l, m, lastBar, b, now, SeenAround(w, id, l, m, lastBar, b, now, a));
    var fired, head := StepOf(l.pos, b, env).fired, OthersMoves(a.before) + [JudgeBar(b, env, l.durable, now)];
    MovesJoin(w, id, head, TailMoves(judged.memory, b, fired, l.durable, a.during, a.woken));
    if judged.memory.Some? {
      TailIs(judged, id, b, fired, l.durable, a.during, a.woken);
    } else {
      NoMoves(judged, id);
    }
  }

  lemma NoMoves(w: World, id: int)
    requires Has(w, id)
    ensures Moves(w, id, []) == w
  {
  }
}

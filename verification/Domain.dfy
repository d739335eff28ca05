/** The deterministic rules a proposal must pass before it can move the shadow book.
    Free text (reasoning, error messages) is not modelled: a rejected proposal carries
    the list of reasons as an enumeration, in the order the rules append them. */
module Domain {
  import opened Common

  datatype Side = Long | Short | OtherSide(text: string)

  datatype Action = Hold | Open | Close | TightenStop | SetTripwires | OtherAction(text: string)

  datatype TripKind =
    | CloseBeyond | PriceCross | AdversePct | AdverseAtr | NoProgress
    | OppositeFlip | Impulse | NewsEscalation | FeedStale | OtherKind(text: string)

  datatype TripDir = Above | Below | Up | Down | OtherDir(text: string)

  datatype Tripwire = Tripwire(kind: TripKind, level: real, dir: TripDir, pct: real, atr: real,
                               bars: int, minProfitAtr: real, minutes: int)

  datatype TrailKind = AtrTrail | SupertrendTrail | OtherTrail(text: string)

  datatype Trail = Trail(kind: TrailKind, mult: real)

  datatype Plan = Plan(invalidation: Option<real>, trail: Option<Trail>, maxBars: int, tripwires: seq<Tripwire>)

  const NO_PLAN := Plan(None, None, 0, [])

  datatype Decision = Decision(action: Action, side: Side, notional: real, stop: real, target: Option<real>,
                               positionId: int, plan: Option<Plan>, newStop: Option<real>, tripwires: seq<Tripwire>)

  /** The fail-safe decision. */
  const HOLD := Decision(Hold, OtherSide(""), 0.0, 0.0, None, 0, None, None, [])

  datatype Granularity = Minutes(n: nat) | Hours(n: nat) | OtherGranularity(text: string)

  /** The candle length of a granularity; an unknown one has none. */
  function Duration(g: Granularity): Option<int> {
    match g
    case Minutes(n) => if 1 <= n <= 99 then Some(n * MINUTE) else None
    case Hours(n) => if 1 <= n <= 99 then Some(n * 60 * MINUTE) else None
    case OtherGranularity(_) => None
  }

  // ----- shape checks

  const MAX_TRIPWIRES := 8

  predicate TripwireOk(t: Tripwire) {
    match t.kind
    case CloseBeyond => t.level > 0.0 && (t.dir.Above? || t.dir.Below?)
    case PriceCross => t.level > 0.0 && (t.dir.Up? || t.dir.Down?)
    case AdversePct => 0.0 < t.pct <= 50.0
    case AdverseAtr => 0.0 < t.atr <= 50.0
    case NoProgress => 2 <= t.bars <= 1000 && 0.0 <= t.minProfitAtr <= 20.0
    case OppositeFlip => true
    case Impulse => true
    case NewsEscalation => true
    case FeedStale => 2 <= t.minutes <= 1440
    case OtherKind(_) => false
  }

  predicate TripwiresOk(ts: seq<Tripwire>) {
    |ts| <= MAX_TRIPWIRES && forall t <- ts :: TripwireOk(t)
  }

  predicate PlanOk(p: Plan, side: Side) {
    && (side.Long? || side.Short?)
    && (p.invalidation.Some? ==> p.invalidation.value > 0.0)
    && (p.trail.Some? ==>
          match p.trail.value.kind
          case AtrTrail => 0.0 < p.trail.value.mult <= 20.0
          case SupertrendTrail => true
          case OtherTrail(_) => false)
    && 0 <= p.maxBars <= 100000
    && TripwiresOk(p.tripwires)
  }

  predicate ShapeOk(d: Decision) {
    match d.action
    case Hold => true
    case Open =>
      && (d.side.Long? || d.side.Short?)
      && d.notional > 0.0
      && d.stop > 0.0
      && (d.target.Some? ==> d.target.value > 0.0)
      && (d.plan.Some? ==> PlanOk(d.plan.value, d.side))
    case Close => d.positionId > 0
    case TightenStop => d.positionId > 0 && d.newStop.Some? && d.newStop.value > 0.0
    case SetTripwires => d.positionId > 0 && TripwiresOk(d.tripwires)
    case OtherAction(_) => false
  }

  // ----- the frozen snapshot

  datatype WakePosition = WakePosition(id: int, side: Side, entry: real, stop: real, price: real)

  /** What validation reads out of a snapshot payload; an absent key is None. */
  datatype Payload = Payload(quoteLast: Option<real>, close: Option<real>, halted: bool, equity: real,
                             positions: map<int, string>, wake: Option<WakePosition>)

  datatype Facts = Facts(instrument: string, price: real, halted: bool, equity: real,
                         positions: map<int, string>, takenAt: int)

  function FactsOf(instrument: string, p: Payload, takenAt: int): Facts {
    var quoted := p.quoteLast.GetOr(0.0);
    var price := if quoted == 0.0 then p.close.GetOr(0.0) else quoted;
    Facts(instrument, price, p.halted, p.equity, map k | k in p.positions && k > 0 :: p.positions[k], takenAt)
  }

  /** A wake block without a positive position id is no wake. */
  function WakeOf(p: Payload): Option<WakePosition> {
    if p.wake.Some? && p.wake.value.id <= 0 then None else p.wake
  }

  // ----- verdicts

  datatype Reason =
    | BadShape | StaleSnapshot | OnlyFromWake | PortfolioHalted | NoPrice | OverEquity
    | WrongSideStop | WrongSideTarget | WrongSideInvalidation | UnknownPosition | ForeignPosition
    | OtherPosition | NotTighter | BeyondPrice | NotFromWake

  datatype Validation = Validation(valid: bool, reasons: seq<Reason>, priceUsed: real)

  /** The hold recorded when a run fails or expires. */
  const FAILSAFE := Validation(true, [], 0.0)

  function When(c: bool, r: Reason): seq<Reason> {
    if c then [r] else []
  }

  predicate TooOld(takenAt: int, now: int, maxAge: int) {
    maxAge > 0 && now - takenAt > maxAge
  }

  /** The level lies strictly behind the entry for the side: below a long, above a short. */
  predicate Behind(side: Side, level: real, price: real) {
    if side.Long? then level < price else level > price
  }

  predicate Ahead(side: Side, level: real, price: real) {
    if side.Long? then level > price else level < price
  }

  function OpenReasons(d: Decision, f: Facts): seq<Reason> {
    if f.price <= 0.0 then [NoPrice]
    else
      var inv := if d.plan.Some? then d.plan.value.invalidation else None;
      When(f.equity > 0.0 && d.notional > f.equity, OverEquity)
      + When(!Behind(d.side, d.stop, f.price), WrongSideStop)
      + When(d.target.Some? && !Ahead(d.side, d.target.value, f.price), WrongSideTarget)
      + When(inv.Some? && !Behind(d.side, inv.value, f.price), WrongSideInvalidation)
  }

  function CloseReasons(d: Decision, f: Facts): seq<Reason> {
    if d.positionId !in f.positions then [UnknownPosition]
    else When(f.positions[d.positionId] != f.instrument, ForeignPosition)
  }

  function ProposalReasons(d: Decision, f: Facts, now: int, maxAge: int): seq<Reason> {
    if !ShapeOk(d) then [BadShape]
    else
      var stale := When(TooOld(f.takenAt, now, maxAge), StaleSnapshot);
      if d.action.Hold? then stale
      else if d.action.TightenStop? || d.action.SetTripwires? then stale + [OnlyFromWake]
      else
        stale + When(f.halted, PortfolioHalted)
        + if d.action.Open? then OpenReasons(d, f) else CloseReasons(d, f)
  }

  function JudgeProposal(d: Decision, f: Facts, now: int, maxAge: int): Validation {
    var reasons := ProposalReasons(d, f, now, maxAge);
    Validation(reasons == [], reasons, f.price)
  }

  function WakeReasons(d: Decision, w: WakePosition, takenAt: int, now: int, maxAge: int): seq<Reason> {
    if !ShapeOk(d) then [BadShape]
    else
      When(TooOld(takenAt, now, maxAge), StaleSnapshot)
      + if d.action.Hold? then []
        else if d.action.Open? then [NotFromWake]
        else if d.positionId != w.id then [OtherPosition]
        else if !d.action.TightenStop? then []
        else if !Ahead(w.side, d.newStop.value, w.stop) then [NotTighter]
        else When(!Behind(w.side, d.newStop.value, w.price), BeyondPrice)
  }

  function JudgeWake(d: Decision, w: WakePosition, takenAt: int, now: int, maxAge: int): Validation {
    var reasons := WakeReasons(d, w, takenAt, now, maxAge);
    Validation(reasons == [], reasons, w.price)
  }

  /** A failed rule appends its reason to the verdict; a passed one leaves it alone. */
  method Fail(reasons: seq<Reason>, failed: bool, r: Reason) returns (out: seq<Reason>)
    ensures out == reasons + When(failed, r)
  {
    out := reasons;
    if failed {
      out := out + [r];
    }
  }

  method CheckOpen(d: Decision, f: Facts) returns (reasons: seq<Reason>)
    requires d.action.Open?
    ensures reasons == OpenReasons(d, f)
  {
    if f.price <= 0.0 {
      return [NoPrice];
    }
    var long := d.side.Long?;
    reasons := Fail([], f.equity > 0.0 && d.notional > f.equity, OverEquity);
    assert reasons == When(f.equity > 0.0 && d.notional > f.equity, OverEquity);
    var wrongStop := (long && d.stop >= f.price) || (!long && d.stop <= f.price);
    assert wrongStop == !Behind(d.side, d.stop, f.price);
    reasons := Fail(reasons, wrongStop, WrongSideStop);
    var wrongTarget := d.target.Some? && ((long && d.target.value <= f.price) || (!long && d.target.value >= f.price));
    reasons := Fail(reasons, wrongTarget, WrongSideTarget);
    var inv := if d.plan.Some? then d.plan.value.invalidation else None;
    var wrongInv := inv.Some? && ((long && inv.value >= f.price) || (!long && inv.value <= f.price));
    reasons := Fail(reasons, wrongInv, WrongSideInvalidation);
  }

  method CheckTrade(d: Decision, f: Facts) returns (reasons: seq<Reason>)
    ensures reasons == if d.action.Open? then OpenReasons(d, f) else CloseReasons(d, f)
  {
    hide OpenReasons;
    reasons := [];
    if d.action.Open? {
      reasons := CheckOpen(d, f);
    } else if d.positionId !in f.positions {
      reasons := Fail(reasons, true, UnknownPosition);
    } else {
      reasons := Fail(reasons, f.positions[d.positionId] != f.instrument, ForeignPosition);
    }
  }

  method ValidateProposal(d: Decision, f: Facts, now: int, maxAge: int) returns (v: Validation)
    ensures v == JudgeProposal(d, f, now, maxAge)
  {
    hide ShapeOk, OpenReasons, CloseReasons;
    var reasons := [];
    if !ShapeOk(d) {
      return Validation(false, [BadShape], f.price);
    }
    reasons := Fail(reasons, maxAge > 0 && now - f.takenAt > maxAge, StaleSnapshot);
    if d.action.Hold? {
    } else if d.action.TightenStop? || d.action.SetTripwires? {
      reasons := Fail(reasons, true, OnlyFromWake);
    } else {
      reasons := Fail(reasons, f.halted, PortfolioHalted);
      var more := CheckTrade(d, f);
      reasons := reasons + more;
    }
    assert reasons == ProposalReasons(d, f, now, maxAge);
    v := Validation(|reasons| == 0, reasons, f.price);
  }

  method ValidateWake(d: Decision, w: WakePosition, takenAt: int, now: int, maxAge: int) returns (v: Validation)
    ensures v == JudgeWake(d, w, takenAt, now, maxAge)
  {
    var reasons := [];
    if !ShapeOk(d) {
      return Validation(false, [BadShape], w.price);
    }
    reasons := Fail(reasons, maxAge > 0 && now - takenAt > maxAge, StaleSnapshot);
    if d.action.Hold? {
    } else if d.action.Open? {
      reasons := Fail(reasons, true, NotFromWake);
    } else if d.positionId != w.id {
      reasons := Fail(reasons, true, OtherPosition);
    } else if d.action.TightenStop? {
      var long, ns := w.side.Long?, d.newStop.value;
      if (long && ns <= w.stop) || (!long && ns >= w.stop) {
        reasons := Fail(reasons, true, NotTighter);
      } else {
        reasons := Fail(reasons, (long && ns >= w.price) || (!long && ns <= w.price), BeyondPrice);
      }
    }
    v := Validation(|reasons| == 0, reasons, w.price);
  }

  /** Exactly the entries the rules let through: a shaped, fresh entry with a price, inside
      equity, whose stop and invalidation lie behind the price and whose target lies ahead. */
  lemma ValidOpenIff(d: Decision, f: Facts, now: int, maxAge: int)
    requires d.action.Open?
    ensures JudgeProposal(d, f, now, maxAge).valid <==>
      && ShapeOk(d)
      && !(maxAge > 0 && now - f.takenAt > maxAge)
      && !f.halted
      && f.price > 0.0
      && (f.equity > 0.0 ==> d.notional <= f.equity)
      && Behind(d.side, d.stop, f.price)
      && (d.target.Some? ==> Ahead(d.side, d.target.value, f.price))
      && (d.plan.Some? && d.plan.value.invalidation.Some? ==> Behind(d.side, d.plan.value.invalidation.value, f.price))
  {
    if ShapeOk(d) && f.price > 0.0 {
      var reasons := ProposalReasons(d, f, now, maxAge);
      assert |reasons| ==
        (if TooOld(f.takenAt, now, maxAge) then 1 else 0) + (if f.halted then 1 else 0) + |OpenReasons(d, f)|;
    }
  }

  /** A wake can never open, act on another position, or loosen a stop: exactly the moves it may make. */
  lemma ValidWakeIff(d: Decision, w: WakePosition, takenAt: int, now: int, maxAge: int)
    ensures JudgeWake(d, w, takenAt, now, maxAge).valid <==>
      && ShapeOk(d)
      && !(maxAge > 0 && now - takenAt > maxAge)
      && !d.action.Open?
      && (!d.action.Hold? ==> d.positionId == w.id)
      && (d.action.TightenStop? ==>
            Ahead(w.side, d.newStop.value, w.stop) && Behind(w.side, d.newStop.value, w.price))
  {
  }

  // ----- realized result

  /** Rounds half away from zero. */
  function RoundHalfAway(x: real): int {
    if x >= 0.0 then (x + 0.5).Floor else -((0.5 - x).Floor)
  }

  function Sign(side: Side): real {
    if side.Short? then -1.0 else 1.0
  }

  /** The signed return in account currency, before rounding. */
  function Return(side: Side, notional: real, entry: real, exit: real): real
    requires entry > 0.0
  {
    notional * Sign(side) * (exit - entry) / entry
  }

  function PnL(side: Side, notional: real, entry: real, exit: real): real {
    if entry <= 0.0 then 0.0
    else RoundHalfAway(Return(side, notional, entry, exit) * 10000.0) as real / 10000.0
  }

  lemma RoundMonotone(x: real, y: real)
    requires x <= y
    ensures RoundHalfAway(x) <= RoundHalfAway(y)
  {
  }

  lemma ScaleMonotone(a: real, b: real, n: real, e: real)
    requires n * (b - a) >= 0.0 && e > 0.0
    ensures n * a / e <= n * b / e
  {
    assert n * b == n * a + n * (b - a);
    var k := n * (b - a) / e;
    assert k >= 0.0;
    assert n * b / e == n * a / e + k;
  }

  lemma ProductSign(notional: real, side: Side, gain: real)
    requires notional > 0.0 && Sign(side) * gain >= 0.0
    ensures notional * Sign(side) * gain >= 0.0
  {
    assert notional * Sign(side) * gain == notional * (Sign(side) * gain);
  }

  lemma ReturnMonotone(side: Side, notional: real, entry: real, worse: real, better: real)
    requires notional > 0.0 && entry > 0.0
    requires if side.Short? then better <= worse else worse <= better
    ensures Return(side, notional, entry, worse) <= Return(side, notional, entry, better)
  {
    var a, b := worse - entry, better - entry;
    ProductSign(notional, side, b - a);
    ScaleMonotone(a, b, notional * Sign(side), entry);
  }

  /** A better exit for the side never books a smaller result, rounding included. */
  lemma PnLMonotone(side: Side, notional: real, entry: real, worse: real, better: real)
    requires notional > 0.0 && entry > 0.0
    requires if side.Short? then better <= worse else worse <= better
    ensures PnL(side, notional, entry, worse) <= PnL(side, notional, entry, better)
  {
    ReturnMonotone(side, notional, entry, worse, better);
    RoundMonotone(Return(side, notional, entry, worse) * 10000.0, Return(side, notional, entry, better) * 10000.0);
  }
}

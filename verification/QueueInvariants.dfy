/** The cross-table invariant of the queue, and what one local move on a run keeps.
    Many transactions overwrite a run by id without looking at its status; they are right
    only because an attempt is running exactly when its run is. */
module QueueInvariants {
  import opened RunQueue

  // ----- the attempts of one run

  function AttsOf(db: Db, r: nat): map<nat, Attempt> {
    map a | a in db.attempts && db.attempts[a].run == r :: db.attempts[a]
  }

  function WithStatus(m: map<nat, Attempt>, s: AttemptStatus): set<nat> {
    set a | a in m && m[a].status == s
  }

  predicate Spent(s: AttemptStatus) {
    s.AttSucceeded? || s.AttWaiting?
  }

  /** The usage of the waiting and succeeded attempts below an id, key by key. */
  function UsageBelow(m: map<nat, Attempt>, n: nat): Usage {
    if n == 0 then map[]
    else if n - 1 in m && Spent(m[n - 1].status) then AddUsage(UsageBelow(m, n - 1), m[n - 1].usage)
    else UsageBelow(m, n - 1)
  }

  function Used(x: Run): int {
    x.attemptsMade - x.followupsUsed
  }

  /** Attempts are numbered 1 to attemptsMade, each number once, and only the latest may be running. */
  ghost predicate Numbered(m: map<nat, Attempt>, made: int) {
    && (forall a <- m :: 1 <= m[a].no <= made)
    && (forall a <- m :: m[a].status.AttRunning? ==> m[a].no == made)
    && (forall a, b :: a in m && b in m && a != b ==> m[a].no != m[b].no)
  }

  predicate Counted(x: Run, m: map<nat, Attempt>) {
    && x.attemptsMade == |m|
    && x.followupsUsed == |WithStatus(m, AttWaiting)|
    && |WithStatus(m, AttRunning)| == (if x.status.Running? then 1 else 0)
    && |WithStatus(m, AttSucceeded)| == (if x.status.Succeeded? then 1 else 0)
  }

  predicate Budgeted(x: Run) {
    && x.maxAttempts >= 1
    && 0 <= Used(x) <= x.maxAttempts
    && (x.status.Queued? || x.status.WaitingForEvent? ==> Used(x) < x.maxAttempts)
    && (x.status.Running? ==> 1 <= Used(x))
  }

  predicate StatusOk(x: Run) {
    && !x.status.AwaitingApproval?
    && (x.cancelRequested ==> x.status.Running? || x.status.Cancelled?)
    && (x.status.WaitingForEvent? ==> x.waitUntil.Some?)
  }

  /** Everything a run's row must agree on with its attempts; n bounds the attempt ids. */
  ghost predicate RunOk(x: Run, m: map<nat, Attempt>, source: Source, n: nat) {
    && Counted(x, m) && Budgeted(x) && StatusOk(x)
    && Numbered(m, x.attemptsMade)
    && x.comparison == CompareOf(x.proposal, x.validation, x.legacy, source)
    && (forall a <- m :: a < n)
    && x.usage == UsageBelow(m, n)
  }

  // ----- usage sums

  lemma AddUsageSwap(u: Usage, v: Usage, w: Usage)
    ensures AddUsage(AddUsage(u, v), w) == AddUsage(AddUsage(u, w), v)
  {
    var a, b := AddUsage(AddUsage(u, v), w), AddUsage(AddUsage(u, w), v);
    assert a.Keys == b.Keys;
    forall k <- a.Keys ensures a[k] == b[k] {
      assert a[k] == Get(u, k) + Get(v, k) + Get(w, k);
    }
  }

  lemma {:induction false} UsageSame(m: map<nat, Attempt>, k: map<nat, Attempt>, n: nat)
    requires forall a :: a < n ==> (a in m && Spent(m[a].status) <==> a in k && Spent(k[a].status))
    requires forall a :: a < n && a in m && Spent(m[a].status) ==> m[a].usage == k[a].usage
    ensures UsageBelow(m, n) == UsageBelow(k, n)
  {
    if n > 0 {
      UsageSame(m, k, n - 1);
    }
  }

  /** Ending one attempt with a counted status adds exactly its usage to the sum. */
  lemma {:induction false} UsageEnds(m: map<nat, Attempt>, a: nat, t: Attempt, n: nat)
    requires a in m && a < n && !Spent(m[a].status) && Spent(t.status)
    ensures UsageBelow(m[a := t], n) == AddUsage(UsageBelow(m, n), t.usage)
  {
    if a == n - 1 {
      UsageSame(m, m[a := t], n - 1);
    } else {
      UsageEnds(m, a, t, n - 1);
      if n - 1 in m && Spent(m[n - 1].status) {
        AddUsageSwap(UsageBelow(m, n - 1), t.usage, m[n - 1].usage);
      }
    }
  }

  // ----- what a run keeps from step to step

  function Phase(s: RunStatus): int {
    if s.Running? then 3 else if s.WaitingForEvent? then 2 else if Terminal(s) then 0 else 1
  }

  /** Three per attempt, less the phase: it grows on every status change. */
  function Progress(x: Run): int {
    3 * x.attemptsMade - Phase(x.status)
  }

  predicate SameVerdict(x: Run, y: Run) {
    y.proposal == x.proposal && y.validation == x.validation && y.usage == x.usage
    && y.attemptsMade == x.attemptsMade && y.followupsUsed == x.followupsUsed
  }

  predicate RunEvolves(x: Run, y: Run) {
    && y.agent == x.agent && y.snap == x.snap && y.trigger == x.trigger && y.maxAttempts == x.maxAttempts
    && x.attemptsMade <= y.attemptsMade && x.followupsUsed <= y.followupsUsed
    && (if y.status == x.status then Progress(x) <= Progress(y) else Progress(x) < Progress(y))
    && (Terminal(x.status) ==> y.status == x.status && SameVerdict(x, y))
    && (x.cancelRequested ==> y.cancelRequested)
    && (x.cancelRequested && x.status.Running? ==> (y.status.Running? || y.status.Cancelled?) && SameVerdict(x, y))
  }

  lemma RunEvolvesTransitive(x: Run, y: Run, z: Run)
    requires RunEvolves(x, y) && RunEvolves(y, z)
    ensures RunEvolves(x, z)
  {
  }

  predicate AttEvolves(a: Attempt, b: Attempt) {
    && b.run == a.run && b.no == a.no && b.worker == a.worker && b.fence == a.fence
    && a.toolCalls <= b.toolCalls
    && (!a.status.AttRunning? ==> b == a)
  }

  // ----- local moves

  /** The status sets after the running attempt a ends as t. */
  lemma EndSets(m: map<nat, Attempt>, a: nat, t: Attempt)
    requires a in m && m[a].status.AttRunning? && !t.status.AttRunning?
    ensures |m[a := t]| == |m|
    ensures |WithStatus(m[a := t], AttRunning)| == |WithStatus(m, AttRunning)| - 1
    ensures forall s: AttemptStatus :: s != AttRunning && s != t.status ==> WithStatus(m[a := t], s) == WithStatus(m, s)
    ensures |WithStatus(m[a := t], t.status)| == |WithStatus(m, t.status)| + 1
  {
    var k := m[a := t];
    assert k.Keys == m.Keys;
    assert WithStatus(k, AttRunning) == WithStatus(m, AttRunning) - {a};
    assert WithStatus(k, t.status) == WithStatus(m, t.status) + {a};
    forall s: AttemptStatus | s != AttRunning && s != t.status ensures WithStatus(k, s) == WithStatus(m, s) {
      assert forall b :: b in WithStatus(k, s) <==> b in WithStatus(m, s);
    }
  }

  /** An attempt is running only on a running run, and then it is the only one. */
  lemma RunningOnly(x: Run, m: map<nat, Attempt>, a: nat)
    requires Counted(x, m) && a in m && m[a].status.AttRunning?
    ensures x.status.Running? && WithStatus(m, AttRunning) == {a}
  {
    var s := WithStatus(m, AttRunning);
    assert a in s && |s| == 1;
    assert |s - {a}| == 0;
    assert s == {a};
  }

  /** The row a run gets when its running attempt ends with this status and usage. */
  predicate EndRow(x: Run, y: Run, s: AttemptStatus, used: Usage, source: Source) {
    && y.agent == x.agent && y.snap == x.snap && y.trigger == x.trigger && y.maxAttempts == x.maxAttempts
    && y.attemptsMade == x.attemptsMade && y.cancelRequested == x.cancelRequested && y.legacy == x.legacy
    && y.comparison == CompareOf(y.proposal, y.validation, y.legacy, source)
    && y.usage == (if Spent(s) then AddUsage(x.usage, used) else x.usage)
    && y.followupsUsed == (if s.AttWaiting? then x.followupsUsed + 1 else x.followupsUsed)
    && (x.cancelRequested ==> y.status.Cancelled? && y.proposal == x.proposal && y.validation == x.validation)
    && (match s
        case AttSucceeded => y.status.Succeeded?
        case AttWaiting => y.status.WaitingForEvent? && y.waitUntil.Some?
        case AttCancelled => y.status.Cancelled?
        case _ => y.status.Cancelled? || y.status.Failed? || (y.status.Queued? && Used(x) < x.maxAttempts))
  }

  lemma EndCounted(x: Run, m: map<nat, Attempt>, a: nat, t: Attempt, y: Run, source: Source)
    requires Counted(x, m) && a in m && m[a].status.AttRunning? && !t.status.AttRunning?
    requires EndRow(x, y, t.status, t.usage, source)
    requires Spent(t.status) ==> !x.cancelRequested
    ensures x.status.Running? && Counted(y, m[a := t])
  {
    RunningOnly(x, m, a);
    EndSets(m, a, t);
  }

  lemma EditNumbered(m: map<nat, Attempt>, a: nat, t: Attempt, made: int)
    requires Numbered(m, made) && a in m && t.no == m[a].no && (t.status.AttRunning? ==> m[a].status.AttRunning?)
    ensures Numbered(m[a := t], made)
  {
  }

  lemma EndMove(x: Run, m: map<nat, Attempt>, a: nat, t: Attempt, y: Run, source: Source, n: nat)
    requires RunOk(x, m, source, n) && a in m && m[a].status.AttRunning? && !t.status.AttRunning?
    requires t.no == m[a].no
    requires EndRow(x, y, t.status, t.usage, source)
    requires Spent(t.status) ==> !x.cancelRequested
    ensures x.status.Running?
    ensures RunOk(y, m[a := t], source, n) && RunEvolves(x, y)
  {
    EndCounted(x, m, a, t, y, source);
    EditNumbered(m, a, t, x.attemptsMade);
    EndUsage(m, a, t, n);
    RunningSpends(x, m, a);
    EndEvolves(x, y, t.status, t.usage, source);
    hide Counted, Numbered, UsageBelow, CompareOf, AddUsage, RunEvolves;
  }

  lemma RunningSpends(x: Run, m: map<nat, Attempt>, a: nat)
    requires Counted(x, m) && a in m && m[a].status.AttRunning?
    ensures x.status.Running?
  {
    RunningOnly(x, m, a);
  }

  lemma EndUsage(m: map<nat, Attempt>, a: nat, t: Attempt, n: nat)
    requires a in m && a < n && m[a].status.AttRunning? && !t.status.AttRunning?
    ensures UsageBelow(m[a := t], n) ==
      if Spent(t.status) then AddUsage(UsageBelow(m, n), t.usage) else UsageBelow(m, n)
  {
    hide UsageBelow, AddUsage;
    if Spent(t.status) {
      UsageEnds(m, a, t, n);
    } else {
      UsageSame(m, m[a := t], n);
    }
  }

  lemma EndEvolves(x: Run, y: Run, s: AttemptStatus, used: Usage, source: Source)
    requires x.status.Running? && EndRow(x, y, s, used, source) && (Spent(s) ==> !x.cancelRequested) && !s.AttRunning?
    ensures RunEvolves(x, y)
  {
    hide CompareOf, AddUsage;
  }

  /** The running attempt is edited in place: lease, tool count or wait request. */
  lemma EditMove(x: Run, m: map<nat, Attempt>, a: nat, t: Attempt, source: Source, n: nat)
    requires RunOk(x, m, source, n) && a in m
    requires t.no == m[a].no && t.status == m[a].status && t.usage == m[a].usage
    ensures RunOk(x, m[a := t], source, n)
  {
    EditSets(m, a, t);
    EditNumbered(m, a, t, x.attemptsMade);
    UsageSame(m, m[a := t], n);
    hide WithStatus, Numbered, UsageBelow, CompareOf, Budgeted, StatusOk;
  }

  lemma EditSets(m: map<nat, Attempt>, a: nat, t: Attempt)
    requires a in m && t.status == m[a].status
    ensures |m[a := t]| == |m| && forall s: AttemptStatus :: WithStatus(m[a := t], s) == WithStatus(m, s)
  {
    var k := m[a := t];
    assert k.Keys == m.Keys;
    forall s: AttemptStatus ensures WithStatus(k, s) == WithStatus(m, s) {
      assert forall b :: b in WithStatus(k, s) <==> b in WithStatus(m, s);
    }
  }

  lemma OneMore(m: map<nat, Attempt>, t: Attempt, n: nat)
    requires n !in m
    ensures |m[n := t]| == |m| + 1
  {
    var k := m[n := t];
    assert k.Keys == m.Keys + {n};
    assert |k| == |k.Keys| && |m| == |m.Keys|;
  }

  /** The attempts of one status after a new running attempt joins. */
  lemma ClaimSet(m: map<nat, Attempt>, t: Attempt, n: nat, s: AttemptStatus)
    requires n !in m && t.status.AttRunning?
    ensures WithStatus(m[n := t], s) == WithStatus(m, s) + (if s.AttRunning? then {n} else {})
  {
  }

  lemma ClaimCounted(x: Run, m: map<nat, Attempt>, t: Attempt, n: nat)
    requires Counted(x, m) && x.status.Queued? && n !in m && t.status.AttRunning?
    ensures Counted(ClaimRow(x), m[n := t])
  {
    OneMore(m, t, n);
    ClaimSet(m, t, n, AttRunning);
    ClaimSet(m, t, n, AttWaiting);
    ClaimSet(m, t, n, AttSucceeded);
    assert n !in WithStatus(m, AttRunning);
    hide WithStatus;
  }

  lemma NoneRunning(x: Run, m: map<nat, Attempt>)
    requires Counted(x, m) && !x.status.Running?
    ensures forall a <- m :: !m[a].status.AttRunning?
  {
    forall a <- m ensures !m[a].status.AttRunning? {
      assert a !in WithStatus(m, AttRunning);
    }
  }

  lemma ClaimNumbered(m: map<nat, Attempt>, t: Attempt, n: nat, made: int)
    requires Numbered(m, made) && t.no == made + 1 && made >= 0 && forall a <- m :: !m[a].status.AttRunning?
    ensures Numbered(m[n := t], made + 1)
  {
  }

  lemma ClaimMove(x: Run, m: map<nat, Attempt>, t: Attempt, source: Source, n: nat)
    requires RunOk(x, m, source, n) && x.status.Queued?
    requires t.no == x.attemptsMade + 1 && t.status.AttRunning?
    ensures RunOk(ClaimRow(x), m[n := t], source, n + 1) && RunEvolves(x, ClaimRow(x))
  {
    assert n !in m;
    ClaimCounted(x, m, t, n);
    NoneRunning(x, m);
    ClaimNumbered(m, t, n, x.attemptsMade);
    ClaimUsage(m, t, n);
    hide Counted, Numbered, UsageBelow, CompareOf;
  }

  lemma ClaimUsage(m: map<nat, Attempt>, t: Attempt, n: nat)
    requires n !in m && t.status.AttRunning?
    ensures UsageBelow(m[n := t], n + 1) == UsageBelow(m, n)
  {
    UsageSame(m, m[n := t], n);
  }

  /** The row changes without its attempts: the operator, a due follow-up, the deadline or the engine's decision. */
  predicate IdleRow(x: Run, y: Run, source: Source) {
    && y.agent == x.agent && y.snap == x.snap && y.trigger == x.trigger && y.maxAttempts == x.maxAttempts
    && y.attemptsMade == x.attemptsMade && y.followupsUsed == x.followupsUsed && y.usage == x.usage
    && y.comparison == CompareOf(y.proposal, y.validation, y.legacy, source)
    && (|| (y.status == x.status && y.proposal == x.proposal && y.validation == x.validation
            && y.waitUntil == x.waitUntil && (x.cancelRequested ==> y.cancelRequested)
            && (y.cancelRequested ==> x.cancelRequested || x.status.Running?))
        || (y.cancelRequested == x.cancelRequested
            && (|| (x.status.WaitingForEvent? && y.status.Queued?)
                || ((x.status.Queued? || x.status.WaitingForEvent? || x.status.AwaitingApproval?)
                    && y.status.Cancelled?)
                || (x.status.Queued? && y.status.Expired?))))
  }

  lemma IdleMove(x: Run, m: map<nat, Attempt>, y: Run, source: Source, n: nat)
    requires RunOk(x, m, source, n) && IdleRow(x, y, source)
    ensures RunOk(y, m, source, n) && RunEvolves(x, y)
  {
  }

  /** The bound on attempt ids may grow. */
  lemma BoundMove(x: Run, m: map<nat, Attempt>, source: Source, n: nat)
    requires RunOk(x, m, source, n)
    ensures RunOk(x, m, source, n + 1)
  {
    assert n !in m;
  }
}

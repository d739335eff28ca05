# Trading desk: a model with proofs

The repository runs language-model agents on market snapshots. This project models the parts that
must be right whatever the agents, the feed and the operators do, and proves them right:

- **The run queue** (`RunQueue`, `QueueInvariants`, `QueueSteps`, `QueueTheorems`, `QueueRules`,
  `Retries`, `Comparison`, `Verdicts`, `EngineDecision`, `Store`). Each store method is one atomic step
  over the tables of agents, snapshots, runs, attempts and shadow positions; any actor may take any step in any order. `RunQueue`
  states each step as a function of the state it finds, with clocks and the rows other transactions
  hold locked as arguments. `Store` is the class whose methods carry the steps out row by row; each is
  proved equal to its function. The invariant
  spans the tables (a run's row against the set of its attempts, the book against the runs), and the
  theorems quantify over all step sequences.
- **The shadow book and its monitor** (`Domain`, `Judgement`, `Results`, `Positions`, `BookRules`,
  `MonitorStep`, `StepRules`, `Mirror`, `Service`, `ServiceRules`, `ServiceSafety`, `TimeStop`,
  `Refinement`, `Attribution`, `Signals`, `BookHistory`, `PlanHistory`, `MonitorHistory`, `TickHistory`,
  `WakeLimits`). A pure step judges one bar; a catch-up loop drives it over overlapping
  feed windows and stores the result after each bar, while woken agents tighten, rewire or close the
  same row between any two store calls.
- **The backtest** (`Indicators`, `IndicatorRules`, `Backtest`, `BacktestRules`, `BacktestTheorems`, `Statistics`). Wilder recurrences over
  arrays and a one-position trade loop, free of look-ahead.
- **The event stream** (`EventStream`). A cursor, a look-back window and a pruned set of sent ids over a
  log whose ids become visible out of order.
- **Cooldown alerts** (`Alerts`) and **the line diff** (`DiffLines`).

The modules named `...Rules`, and `Retries`, `Comparison`, `Judgement` and `Results`, say what a step or a
number means in the columns, prices and bars themselves.

Conventions. Prices, features and results are reals. Times are integers: microseconds in the queue and
the monitor, minutes in the alerts, seconds in the backtest. The unique keys, defaults and foreign keys
of the database schema, which is not part of this model, are assumed as the queries rely on them. A
theorem over "any history" starts from any state that satisfies the invariant; the empty database does.

Where the code differs from what its notes say, the model follows the code:

- A signal can count on two bars: after a first judged bar that opens exactly at the entry, line 170 of
  the monitor's service takes the next bar of the same tick for the first one. `Attribution` proves when.
- The note "(almost) monotone" at docs/research/registry/campaigns/alert7/alert7.py:72, on a sibling of
  the threshold search, undersells it: on rows in time order the count is exactly monotone; in any order
  it is so exactly when the rows hold no trap (`Alerts`).
- A repeat of an applied completion changes nothing (platform/internal/queue/lifecycle.go:333-334), but its
  answer carries the run's verdict of the moment, which a later completion, a failure or an expiry may
  have overwritten. `Verdicts` proves when.
- The tie rule of the threshold search is highest within the checked window, not over all candidates.

## Model

| member | source | states |
|---|---|---|
| `QueueTheorems.StepKeeps` | platform/internal/queue/lifecycle.go:43-713 | every step of every actor keeps the cross-table invariant (runs, attempts, snapshots, agents, shadow book) and moves each run, attempt and position only forward |
| `QueueTheorems.ReachableCounts` | platform/internal/queue/lifecycle.go:43-713 | in every reachable state a run is running exactly when one of its attempts is; attempts_made and followups_used count its attempts; at most one attempt succeeded; a requested cancellation leaves only running or cancelled |
| `QueueTheorems.ReachableDerived` | platform/internal/queue/ingest.go:202-251 | in every reachable state comparison, usage and the engine decision agree with their definitions, whatever came first |
| `EngineDecision.EitherOrder` | platform/internal/queue/ingest.go:161-215 | whichever comes first, the step that writes a run's proposal or verdict or ends it, or the engine's own decision, the whole state ends the same: every run with its comparison, every attempt, the shadow book and its events |
| `QueueTheorems.UsagePerKey` | platform/internal/queue/lifecycle.go:314-322 | each usage key's total is the sum of that key over the waiting and succeeded attempts |
| `QueueTheorems.ClaimTakesOldest` | platform/internal/queue/lifecycle.go:43-71 | a claim leases the earliest runnable unlocked run under a fence no attempt held before and touches nothing else; with none it changes nothing |
| `QueueTheorems.LeasedOnce` | platform/internal/queue/lifecycle.go:41-61 | as long as an attempt runs, over any history, no claim of any worker can lease its run again |
| `QueueTheorems.FencedCalls` | platform/internal/queue/lifecycle.go:109-134 | a call that changes anything comes from the run's one running attempt, under its fence and, but for AckCancel, inside its lease |
| `QueueTheorems.AckEndsRegardlessOfLease` | platform/internal/queue/lifecycle.go:564-582 | AckCancel acts exactly on a running attempt under its fence, even past its lease, and then the run is cancelled |
| `QueueTheorems.EndedForever` | platform/internal/queue/lifecycle.go:109-134 | an attempt that ended never changes again and no call with it changes anything, after any history |
| `Verdicts.RepeatedCompletion` | platform/internal/queue/lifecycle.go:345-351 | after any history a repeat of a completion, waiting or succeeded, gets the first answer's verdict while no later attempt of the run completed and the run neither failed nor expired; else the fail-safe, or the verdict the latest completion recorded |
| `Verdicts.DuplicateCompletion` | platform/internal/queue/lifecycle.go:345-351 | from any state with a completed attempt, its repeat is answered with the verdict the run carries by then, for a succeeded one the verdict it carried all along |
| `Verdicts.VerdictExplained` | platform/internal/queue/lifecycle.go:434-443 | a run's verdict after any history is the fail-safe if it failed or expired meanwhile, else what the latest completion recorded, else the old one |
| `Verdicts.FollowupOverwrites` | platform/internal/queue/lifecycle.go:345-351 | the case that fails: while an attempt waits its follow-up completes, and the repeat of the first is answered with the follow-up's verdict, different from its own |
| `Verdicts.AcceptedThenRejected` | platform/internal/queue/lifecycle.go:345-351 | that case on a concrete state: a caller whose proposal was accepted is told on the repeat that it was rejected |
| `QueueTheorems.TerminalForever` | platform/internal/queue/lifecycle.go:335-713 | a finished run keeps its status, proposal, validation, usage and counters over any history |
| `QueueTheorems.CancellationWins` | platform/internal/queue/lifecycle.go:355-651 | once cancellation is requested the run only stays running or ends cancelled, its verdict never changes, and no position is ever opened for it |
| `QueueTheorems.CancelledCalls` | platform/internal/queue/lifecycle.go:206-363 | while it is requested no tool call is authorized and no completion moves the shadow book |
| `QueueTheorems.ToolCallsCounted` | platform/internal/queue/lifecycle.go:190-252 | over any step an attempt's tool calls grow by one exactly on a current call of a declared tool, not cancelled and inside the budget |
| `QueueTheorems.BackoffShift` | platform/internal/queue/lifecycle.go:539-551 | a failing attempt has used between one and max_attempts tries, so the backoff shift is positive: at least 4 s, doubling per retry |
| `QueueTheorems.RemainingStep` | platform/internal/queue/lifecycle.go:416-424 | 3*(max attempts + follow-ups - attempts made) + phase falls on every status change and never rises |
| `QueueTheorems.RunTerminates` | platform/internal/queue/lifecycle.go:539-562 | under fixed budgets a run changes status at most that many times over any history |
| `QueueTheorems.ReaperSettles` | platform/internal/queue/lifecycle.go:618-712 | in the state the whole reaper leaves, no unlocked lease is lapsed, no follow-up is due and no unlocked run is past its queue deadline |
| `QueueTheorems.IngestReplay` | platform/internal/queue/ingest.go:84-106 | after any history a later delivery of a key changes nothing and lists exactly the runs the first delivery created, or of them the one of the agent it names |
| `Retries.FailedCall` | platform/internal/queue/lifecycle.go:510-562 | a failed attempt's run is queued again exactly if the failure may be retried and tries are left, in at least four seconds, with its verdict as it was; otherwise it fails with the fail-safe hold |
| `Retries.LapsedLease` | platform/internal/queue/lifecycle.go:618-658 | the reaper ends exactly the running, unlocked attempts past their lease, and treats their runs like a failure that may be retried |
| `Retries.NoneFailsEarly` | platform/internal/queue/lifecycle.go:539-562 | over every history in which workers report only failures that may be retried, no run fails before it has used all its tries |
| `Comparison.ComparisonSays` | platform/internal/queue/ingest.go:221-251 | in every reachable state the comparison agrees when an accepted proposal takes the engine's action, on an entry on its side, or a rejected one meets a hold; differs otherwise; and is open without a readable decision or a proposal |
| `Comparison.AfterDecision` | platform/internal/queue/ingest.go:161-251 | the engine's decision, nested or bare, reaches every run of its snapshot and is compared so |
| `Comparison.AfterCompletion` | platform/internal/queue/ingest.go:202-251 | a completion records the proposal or a hold and is compared so with a decision that came first |
| `QueueRules.ClaimRule` | platform/internal/queue/lifecycle.go:43-96 | a claim changes nothing exactly when no run waits for the worker; else it leases the one to run earliest, by id among equals |
| `QueueRules.HeartbeatRule` | platform/internal/queue/lifecycle.go:137-158 | a heartbeat of the holder moves its lease to end a lease length from now and nothing else; anyone else's does nothing |
| `QueueRules.AuthorizeRule` | platform/internal/queue/lifecycle.go:193-252 | a tool call is authorized exactly for the holder of an uncancelled run, for an allowed tool, while calls are left |
| `QueueRules.PendingWaitRule` | platform/internal/queue/lifecycle.go:260-300 | a pause is granted exactly for ten seconds to an hour, while follow-ups are left, if a minute after it the snapshot is still fresh |
| `QueueRules.CompleteRule` | platform/internal/queue/lifecycle.go:335-484 | a result of the holder ends as waiting exactly if a pause was granted and follow-ups are left, else as succeeded, with its proposal, verdict, usage and pause; cancelled if asked to stop; anyone else's does nothing |
| `QueueRules.AnswerRule` | platform/internal/queue/lifecycle.go:335-363 | the answer to any result: the run's verdict again to an earlier deliverer, the new row's verdict to the holder, a refusal to everyone else |
| `QueueRules.CancelRule` | platform/internal/queue/lifecycle.go:586-612 | a cancellation ends a queued, waiting or approval run, asks a running one to stop, and leaves every other run as it is |
| `QueueRules.WakeRule` | platform/internal/queue/lifecycle.go:663-676 | a run is woken exactly when it waits and its pause is over, to run at once |
| `QueueRules.PauseKept` | platform/internal/queue/lifecycle.go:663-676 | a paused run stays paused over every history without its cancellation in which the reaper's clock stays before the end of the pause |
| `QueueRules.ExpireRule` | platform/internal/queue/lifecycle.go:678-712 | a run expires exactly when it is queued, unlocked and past its agent's deadline, with the fail-safe hold |
| `QueueRules.IngestRule` | platform/internal/queue/ingest.go:62-160 | a valid new delivery stores its snapshot and starts one fresh run for each agent it reaches and no other; any other delivery changes nothing |
| `QueueRules.BudgetRule` | platform/internal/queue/types.go:51-69 | an agent's budgets are the given ones where positive, else 12 calls, 3 tries, 2 follow-ups, 900 s and 900 s |
| `QueueRules.EnableRule` | platform/internal/queue/agents.go:87-96 | switching an agent on or off changes its flag and nothing else |
| `Store.Store.UpsertAgent` | platform/internal/queue/agents.go:12-45 | writes the agent with default budgets and nothing else, unless it names a strategy without a live version |
| `Store.Store.SetEnabled` | platform/internal/queue/agents.go:87-96 | flips only the flag, and reports an unknown agent |
| `Store.Store.Claim` | platform/internal/queue/lifecycle.go:43-96 | refines the claim step and keeps the invariant |
| `Store.Store.Heartbeat` | platform/internal/queue/lifecycle.go:137-158 | extends only the caller's lease, only while current, and reports a pending cancellation |
| `Store.Store.AuthorizeTool` | platform/internal/queue/lifecycle.go:193-252 | the exact answer (stale, cancelled, forbidden, budget, ok) and one more tool call only on ok |
| `Store.Store.SetPendingWait` | platform/internal/queue/lifecycle.go:260-300 | the exact answer of the delay, budget and freshness rules, and the stored wait only on ok |
| `Store.Store.Complete` | platform/internal/queue/lifecycle.go:335-484 | the exact outcome and the whole new state: cancelled, waiting, or succeeded with the shadow book moved; duplicates answered |
| `Store.Store.Fail` | platform/internal/queue/lifecycle.go:510-562 | the attempt ends; the run is cancelled, requeued with backoff, or failed with a hold |
| `Store.Store.AckCancel` | platform/internal/queue/lifecycle.go:565-582 | ends a running attempt and its run as cancelled, otherwise changes nothing |
| `Store.Store.Cancel` | platform/internal/queue/lifecycle.go:586-612 | ends an idle run, flags a running one, refuses a finished or unknown one |
| `Store.Store.Reap` | platform/internal/queue/lifecycle.go:618-713 | the three reaper steps one after the other, each row by row; the counts are the lapsed leases, the follow-ups due after them and the runs past their deadline after those |
| `Store.Store.Ingest` | platform/internal/queue/ingest.go:62-160 | refused, replayed or enqueued: the exact new state and the exact run listing |
| `Store.Store.SetLegacy` | platform/internal/queue/ingest.go:163-199 | every run of the snapshot gets the decision and its comparison again, and no other row changes |
| `Store.Store.SavePosition` | platform/internal/queue/positions.go:115-131 | moves an open row's stop only toward price, merges the marks, and returns the stop on record or 0 |
| `Store.Store.ClosePosition` | platform/internal/queue/positions.go:133-163 | closes an open row once, with the realized result, and says whether it did |
| `Store.Store.ApplyWake` | platform/internal/queue/positions.go:225-279 | resets the missed wakes and tightens, rewires, closes at the fresher price or holds, each under its guard |
| `Store.Store.OpenPosition` | platform/internal/queue/positions.go:193-223 | one open position per agent and one per run; a conflict leaves a note on the held one |
| `Store.Store.RecordWake` | platform/internal/queue/positions.go:298-320 | counts a wake run once |
| `Store.Store.ReconcileFailedWakes` | platform/internal/queue/positions.go:325-376 | counts exactly the missed wakes, in order, and raises attention at three |
| `Store.Store.WakeState` | platform/internal/queue/positions.go:281-296 | whether a wake is unfinished, how many fell in the last 24 hours, and how many wakes in a row failed |
| `WakeLimits.ReconcileOnce` | platform/internal/queue/positions.go:325-376 | reconciling counts every missed wake exactly once and leaves none to count |
| `WakeLimits.StepNoWake` | platform/internal/queue/positions.go:298-320 | only RecordWake adds a wake of a position to the log |
| `WakeLimits.WakeLimitsHold` | platform/internal/monitor/service.go:269-283 | from any state inside the limits, over every history with one monitor and one clock, every 24-hour window holds at most six wakes and at most one recorded wake run is unfinished |
| `WakeLimits.WakeLimitsFromStart` | platform/internal/monitor/service.go:269-283 | so the limits hold over every such history of a position from before its first wake on |
| `WakeLimits.AtMostSixADay` | platform/internal/monitor/service.go:269-283 | told from the events: no 24 hours hold more than six wakes of the position, and at most one of their runs is not over |
| `WakeLimits.MayWakeIff` | platform/internal/queue/positions.go:281-296 | a wake is allowed exactly when no recorded wake's run is unfinished and the last 24 hours hold fewer than six |
| `Domain.ValidateProposal` | platform/internal/domain/decision.go:135-189 | accumulates exactly the reasons of the rules, in order |
| `Domain.ValidateWake` | platform/internal/domain/decision.go:231-264 | accumulates exactly the reasons of the narrower wake rules |
| `Domain.ValidOpenIff` | platform/internal/domain/decision.go:135-181 | an entry is valid exactly when shape, freshness, halt, price, equity and the sides of stop, target and invalidation all hold |
| `Domain.ValidWakeIff` | platform/internal/domain/decision.go:231-264 | a wake may hold, close, tighten between its stop and the price, or rewire its own position, and nothing else |
| `Domain.PnLMonotone` | platform/internal/domain/plan.go:131-140 | a better exit for the side never books a smaller result, rounding included |
| `Results.BooksReturn` | platform/internal/domain/plan.go:131-140 | a long books the notional times the relative rise, to the nearest ten-thousandth, a short the opposite, an exit at the entry nothing |
| `Results.RoundsAway` | platform/internal/domain/plan.go:139 | a tie of the rounding goes away from zero |
| `Results.ScaleFree` | platform/internal/domain/plan.go:131-140 | the unit prices are quoted in does not matter |
| `Results.LossInCurrency` | platform/internal/monitor/service.go:119-256 | over every history of ticks, a trade the monitor closes loses at most the notional times the relative distance of its initial stop, if no judged bar opens beyond the stop in force |
| `Judgement.EntryIff` | platform/internal/domain/decision.go:101-181 | which entries are accepted, read off the payload: shape, age, halt, quote or close, equity and the sides of stop, target and invalidation |
| `Judgement.OtherIff` | platform/internal/domain/decision.go:135-189 | a hold is accepted if fresh, a close also if not halted and of a shown position on the instrument, a stop or tripwires never |
| `Judgement.WakeIff` | platform/internal/domain/decision.go:213-264 | on a wake: anything but an entry, for its own position, a stop only strictly between the one in force and the price |
| `PlanHistory.ShapeIs` | platform/internal/domain/decision.go:32-70 | what the shape check lets through, with every number's range |
| `PlanHistory.PlansStaySane` | platform/internal/domain/plan.go:55-128 | over every history every stored position has a plan in range: at most eight tripwires the monitor can act on, a known trail, a time stop within bounds |
| `QueueSteps.AcceptedEntry` | platform/internal/domain/decision.go:156-179 | a verdict that lets an entry through vouches for the position it opens: prices positive, stop behind, target ahead |
| `Positions.RowHistory` | platform/internal/queue/positions.go:115-163 | for every interleaving of saves, wake results, closes and counters: the trade never changes, the stop only moves toward price, a closed row stays closed with its realized result |
| `Positions.ClosesOnce` | platform/internal/queue/positions.go:133-163 | however many closes race exactly one wins |
| `BookHistory.StepRows` | platform/internal/queue/positions.go:115-376 | every step of the whole system changes a stored position by exactly its row changes |
| `BookHistory.OthersReach` | platform/internal/queue/positions.go:225-279 | everyone but the monitor only tightens to a positive price, rewires, closes as the agent, and counts |
| `BookHistory.HistoryRows` | platform/internal/queue/positions.go:115-376 | a position after any history is its row changes applied in order |
| `BookHistory.PositionHistory` | platform/internal/queue/positions.go:115-279 | in every history the recorded stop only moves toward price from the initial one and a closed row keeps exit, stop and plan |
| `BookHistory.OpensSound` | platform/internal/queue/lifecycle.go:435-472 | a position appears only from the final result of a current, uncancelled call whose valid proposal opens on an engine snapshot; it is that proposal's entry, at the judged price and decision time, open at its stop |
| `BookRules.EntryRule` | platform/internal/queue/positions.go:193-223 | an accepted engine entry opens exactly its position if the agent holds none, and is otherwise noted on the one it holds |
| `BookRules.SaveRule` | platform/internal/queue/positions.go:115-131 | a save records the bar's numbers, merges the marks and moves the stop only toward price; a closed position and every other one stay |
| `BookRules.CloseRule` | platform/internal/queue/positions.go:133-163 | an exit closes an open position at its price and is noted; a closed one and every other one stay |
| `BookRules.WakeAnswerRule` | platform/internal/queue/positions.go:225-279 | the answer to a wake: judged by the wake rules, an accepted one closes, tightens, rewires or holds as it says and is noted once, a rejected one is noted as a hold |
| `BookRules.JudgedAt` | platform/internal/domain/decision.go:101-133 | the price a verdict uses: the wake's on a wake, else the last quote, else the last close |
| `BookRules.RecordRule` | platform/internal/queue/positions.go:298-320 | a wake's run is counted and noted once |
| `BookRules.ReconcileRule` | platform/internal/queue/positions.go:325-376 | reconciling counts exactly the wakes whose run failed, expired or was cancelled and was not counted, and asks for attention from three on |
| `BookRules.MissNoted` | platform/internal/queue/positions.go:340-372 | each counted wake is noted, and from the third in a row on attention is raised with it |
| `BookRules.AttentionRule` | platform/internal/queue/positions.go:184-192 | raising attention marks the position and is noted |
| `MonitorStep.Step` | platform/internal/monitor/eval.go:73-159 | refines the step function |
| `MonitorStep.ReasonIff` | platform/internal/monitor/eval.go:69-128 | the order of the rules, pessimistic first: exactly when each exit reason occurs, and the fill of a gapped stop |
| `MonitorStep.StopOnlyTightens` | platform/internal/monitor/eval.go:129-142 | trailing moves the stop only toward price |
| `MonitorStep.ExitIgnoresTrail` | platform/internal/monitor/eval.go:69-72 | no bar is filled with the trail, ATR, Supertrend or marks of its own close |
| `MonitorStep.ExitNoWorse` | platform/internal/monitor/eval.go:94-128 | unless a bar opens beyond the stop in force, every exit is no worse than the initial stop, and neither is its rounded result |
| `MonitorStep.CooldownHolds` | platform/internal/monitor/eval.go:143-155 | along any bars, firings of one tripwire lie at least five held bars apart and no_progress fires at most once |
| `MonitorStep.OpenMeansBelowTimeStop` | platform/internal/monitor/eval.go:124-128 | folding any bars, an open position was held for every bar and fewer than its time stop |
| `StepRules.TrailIff` | platform/internal/monitor/eval.go:129-142 | the stop moves exactly when the trail has a known level, mult ATRs behind the best close or the Supertrend line, that is a price strictly between the old stop and the close, and then exactly there |
| `StepRules.TrailFollows` | platform/internal/monitor/eval.go:129-142 | a bar that closes at its best leaves the stop within the trail's distance of that close |
| `StepRules.BestClose` | platform/internal/monitor/eval.go:118-123 | over any bars the best close is the best of the entry and all closes, the last close the last one's |
| `StepRules.LongExits` | platform/internal/monitor/eval.go:88-128 | which price ends a long, and at what price, rule by rule |
| `StepRules.ShortExits` | platform/internal/monitor/eval.go:88-128 | the same for a short |
| `StepRules.FiresIff` | platform/internal/monitor/eval.go:143-187 | a bar fires and marks exactly the planned tripwires whose condition holds in prices and that have rested five held bars |
| `Mirror.MirrorStep` | platform/internal/monitor/eval.go:69-188 | reflecting all prices turns a long step into exactly the reflected short step and back, tripwires included |
| `Service.Service.Advance` | platform/internal/monitor/service.go:119-256 | refines the tick function, with others' changes between any two store calls |
| `Service.Service.JudgeBar` | platform/internal/monitor/service.go:163-232 | one bar: signals attributed, step, close or save, stop adopted, wakes, marks stored |
| `Service.Service.Watch` | platform/internal/monitor/service.go:234-254 | a silent feed: each old enough feed_stale tripwire past its cooldown wakes the agent and is marked |
| `ServiceSafety.OlderBarsIgnoreNow` | platform/internal/monitor/service.go:160-166 | a catch-up bar before the newest is judged the same whatever the ATR, the Supertrend line and the kill switch are by now |
| `ServiceSafety.SaveSync` | platform/internal/monitor/service.go:205-216 | after each save the stop in memory is the stop on record, and stays so unless someone tightens |
| `ServiceRules.NewestSeesNow` | platform/internal/monitor/service.go:160-166 | the newest bar, and only it, is judged with the ATR, the Supertrend line and the kill switch |
| `ServiceRules.StoredIff` | platform/internal/monitor/service.go:220-228 | a cooldown mark is stored exactly when the wake went through |
| `ServiceRules.SilentRule` | platform/internal/monitor/service.go:234-254 | a tick without a new bar wakes the agent for a tripwire exactly when the feed was silent for its minutes and it has rested |
| `ServiceRules.WarnedRule` | platform/internal/monitor/service.go:132-153 | the operator is asked to look exactly on a gap of more than a minute or a granularity without a candle |
| `ServiceRules.CandleRule` | platform/internal/domain/granularity.go:18-30 | minutes and hours up to 99 have a candle, nothing else |
| `ServiceSafety.LossBound` | platform/internal/monitor/service.go:119-233 | over any ticks interleaved with any wakes and closes: if no judged bar opens beyond the stop in force, a monitor exit books at least the result at the initial stop, and the trade never changed |
| `TimeStop.TimeStopHolds` | platform/internal/monitor/eval.go:124-128 | over any ticks and interference an open row was held for fewer bars than its time stop |
| `MonitorHistory.DatabaseLossBound` | platform/internal/monitor/service.go:119-233 | the loss bound and the time stop for every history of the whole database whose saves and exits of the position come from judging bars, whatever anyone else does |
| `MonitorHistory.MovesAreHistory` | platform/internal/monitor/service.go:119-233 | such a history is a history of database steps |
| `MonitorHistory.BarIsMoves` | platform/internal/monitor/service.go:163-232 | one judged bar of the service, with others' database steps around it, is such a stretch: same row, same position in memory |
| `MonitorHistory.OpenedIsSane` | platform/internal/queue/positions.go:193-223 | a position the system has just opened is a start for such a history |
| `TickHistory.TickIsMoves` | platform/internal/monitor/service.go:119-256 | a whole tick, the loop over the bars or the stale tripwires, with anyone's database steps between its store calls, is such a stretch: the stored row ends as the service's tick leaves it |
| `TickHistory.TicksLossBound` | platform/internal/monitor/service.go:119-256 | so, if no judged bar opens beyond the stop in force, the loss bound and the time stop hold over every history of ticks and of anyone's steps, between the ticks or inside them |
| `Refinement.CoreStep` | platform/internal/monitor/eval.go:143-188 | marks and signals decide wakes, never fills |
| `Refinement.TicksRefineFold` | platform/internal/monitor/service.go:119-233 | over overlapping gap-free windows, with every save and reload in between, the bars from the entry on are judged in order, each exactly once and all of them while the row lives, and the row ends as one fold of the step over the stream |
| `Attribution.EventCount` | platform/internal/monitor/service.go:154-189 | across ticks, restarts and interference no bar is judged twice and a signal counts exactly once after the entry and up to the last judged bar, but for the stated exception |
| `Attribution.AtMostOnceIff` | platform/internal/monitor/service.go:169-172 | signals count at most once exactly unless the first judged bar opens at the entry and its tick goes on to a second bar |
| `Attribution.ExactlyOnce` | platform/internal/monitor/service.go:169-179 | when no bar opens exactly at the entry every signal in range counts on exactly one bar |
| `Attribution.CountsTwice` | platform/internal/monitor/service.go:169-172 | a concrete tick over two bars on which one signal counts twice |
| `Signals.FlagsAreCounts` | platform/internal/monitor/service.go:163-189 | whatever the feeds serve, a judged bar's flag is set exactly when some signal of its feed, one the position listens to, counts on it; never when the granularity has no known candle; a closing time counts on as many bars as windows cover it |
| `Signals.WindowsMeet` | platform/internal/monitor/service.go:163-193 | with no bar at the entry, the windows of all judged bars, across ticks and restarts, meet end to end from the entry on |
| `Signals.SignalSeenOnce` | platform/internal/monitor/service.go:163-189 | so a signal the position listens to, known after the entry and by the end of the last judged bar, counts on exactly one bar and sets its flag, whatever else the feeds serve; known before or later, on none |
| `Signals.DoublesIff` | platform/internal/monitor/service.go:169-172 | the exception in the tick's inputs: its window has a bar at the entry that the position survives, and a later bar |
| `Indicators.Compute` | platform/internal/backtest/backtest.go:68-136 | the arrays hold Wilder ATR, ADX and the volume ratio of every bar |
| `Indicators.FeaturesCausal` | platform/internal/backtest/backtest.go:68-136 | past the warm-up appending candles never changes a bar's features |
| `Indicators.AdxBound` | platform/internal/backtest/backtest.go:92-121 | ADX lies between 0 and 100 on every bar |
| `IndicatorRules.TrueRangeIsSpan` | platform/internal/backtest/backtest.go:72-80 | the true range is the shortest span that holds the bar and the close before it |
| `IndicatorRules.MovesAre` | platform/internal/backtest/backtest.go:72-90 | of the two directional moves only the larger positive one counts |
| `IndicatorRules.SumsDecay` | platform/internal/backtest/backtest.go:84-110 | the running sums are all values since bar 1, each losing a fourteenth per bar after the first fourteen |
| `IndicatorRules.AtrIs` | platform/internal/backtest/backtest.go:84-110 | the ATR is a fourteenth of that sum of true ranges |
| `IndicatorRules.IndexIs` | platform/internal/backtest/backtest.go:92-110 | the index is the difference of the two movement sums against their total, in percent |
| `IndicatorRules.AdxIs` | platform/internal/backtest/backtest.go:110-121 | the ADX is a fourteenth of the decaying sum of the indices since bar 14 |
| `IndicatorRules.RatioIs` | platform/internal/backtest/backtest.go:122-136 | the volume ratio is the volume against the mean of the known ones of the twenty bars before, if ten are known |
| `IndicatorRules.TooEarly` | platform/internal/backtest/backtest.go:68-136 | without enough bars the indicators are 0 |
| `Backtest.Run` | platform/internal/backtest/backtest.go:138-142 | refines the replay function |
| `Backtest.RunWith` | platform/internal/backtest/backtest.go:144-218 | refines the replay function for given features |
| `Backtest.Manage` | platform/internal/backtest/backtest.go:185-212 | follows one trade bar by bar to the exit the specification gives |
| `BacktestRules.HoldEnds` | platform/internal/backtest/backtest.go:185-212 | a trade ends on the first bar that reaches stop or target, carries a last signal against it or is its time stop's, in that order and at that price, else with the data |
| `BacktestRules.FillEnds` | platform/internal/backtest/backtest.go:174-213 | stop and target of every trade lie at their multiples of the ATR from the entry, and its result is the gain in units of the stop distance |
| `BacktestRules.SignalOpens` | platform/internal/backtest/backtest.go:160-183 | a signal opens the next trade exactly if it qualifies and falls after the trade before; otherwise the replay is as if it were not there |
| `BacktestTheorems.NoLookAhead` | platform/internal/backtest/backtest.go:139-218 | the trades closed on a series are, in order, the first trades of any continuation of it |
| `BacktestTheorems.NoLookAheadWithNewSignals` | platform/internal/backtest/backtest.go:139-218 | the same when new signals arrive with the new candles |
| `BacktestTheorems.FillsDisjoint` | platform/internal/backtest/backtest.go:160-216 | trades hold disjoint stretches of bars, in order, each within its time stop |
| `BacktestTheorems.FillResult` | platform/internal/backtest/backtest.go:174-213 | a stop costs one unit, more only if its bar opens beyond it; a target pays its multiple exactly; every other exit lies between |
| `BacktestTheorems.ResultsBounded` | platform/internal/backtest/backtest.go:174-213 | that holds of every trade of every replay |
| `BacktestTheorems.FiltersHold` | platform/internal/backtest/backtest.go:167-173 | a direction filter lets no trade through against it, and a minimum ADX over 100 lets none through |
| `Statistics.Summarize` | platform/internal/backtest/backtest.go:221-248 | totals, rates and the profit factor, which lies above one exactly when the total is positive, and a one-pass drawdown that is the largest fall from any point of the account to any later one |
| `Statistics.SplitAt` | platform/internal/backtest/backtest.go:265-274 | the two sides of the date, in order |
| `Statistics.SplitKeepsAll` | platform/internal/backtest/backtest.go:264-274 | the split loses no trade and no result, and each side holds only its own dates |
| `Statistics.ReplaySplit` | platform/internal/backtest/backtest.go:250-274 | for every replay and every cut the training part is a prefix and the test part the rest |
| `EventStream.Stream.constructor` | platform/internal/api/server.go:509-540 | the cursor and the ids counted as sent at the start |
| `EventStream.Stream.Poll` | platform/internal/api/server.go:570-598 | one poll: page, frames for unsent ids, cursor, pruning |
| `EventStream.SeenAtStart` | platform/internal/api/server.go:531-540 | the limit never cuts the start short: exactly the visible ids of the window count as seen |
| `EventStream.StartsAfter` | platform/internal/api/server.go:509-540 | a connection starts after the id it names, or after the newest visible event, and counts the visible ids of the 200 before as sent |
| `EventStream.LiveOnly` | platform/internal/api/server.go:523-540 | a connection that names no id never writes an event that was visible when it started, however late others become visible |
| `EventStream.AtMostOnce` | platform/internal/api/server.go:570-598 | for every order of commits one connection writes no frame twice and none for an id visible at its start |
| `EventStream.Delivered` | platform/internal/api/server.go:570-598 | an id in reach when it becomes visible is delivered within one poll per 200 ids of distance, whatever else commits |
| `EventStream.ReachedIff` | platform/internal/api/server.go:493-496 | a late commit reaches the client exactly when its id lies within the lookback at the first poll that can see it |
| `EventStream.SentBounded` | platform/internal/api/server.go:593-597 | pruning keeps the sent set within the window |
| `Alerts.Fire` | docs/research/registry/campaigns/abs11/abs11.py:62-68 | marks exactly the rows the greedy rule picks, for one threshold or one per row |
| `Alerts.RaisesIff` | docs/research/registry/campaigns/abs11/abs11.py:62-68 | a row raises an alert exactly if its score reaches its threshold and the last alert before it lies a cooldown back |
| `Alerts.AlertsAreMaximum` | docs/research/registry/campaigns/abs11/abs11.py:62-68 | on rows in time order the alerts are a largest selection of hits that keeps the cooldown |
| `Alerts.CountFalls` | docs/research/registry/campaigns/abs11/abs11.py:71-83 | without a trap the alert count is exactly non-increasing in the threshold |
| `Alerts.SortedCountFalls` | docs/research/registry/campaigns/abs11/abs11.py:71-83 | so it is on rows in time order |
| `Alerts.NeverRisesIff` | docs/research/registry/campaigns/abs11/abs11.py:62-83 | the count is non-increasing for all scores exactly when no row silences two later rows that keep the cooldown between each other |
| `Alerts.UnsortedRises` | docs/research/registry/campaigns/abs11/abs11.py:62-68 | the failing input: three rows out of time order that hold a trap, and scores on which one more hit leaves fewer alerts |
| `Alerts.Bisect` | docs/research/registry/campaigns/abs11/abs11.py:74-81 | finds the crossing of the target |
| `Alerts.PickThreshold` | docs/research/registry/campaigns/abs11/abs11.py:71-83 | the result misses the target by no more than any candidate, and of equal misses in the checked window it is the highest |
| `DiffLines.Table` | platform/web/app/strategies/page.tsx:18-19 | the table of longest common lengths |
| `DiffLines.SplitBreaks` | platform/web/app/strategies/page.tsx:16 | no line holds a line break and there is one more line than line breaks |
| `DiffLines.SplitUnique` | platform/web/app/strategies/page.tsx:16 | the lines of a text are the only ones without a line break that join back to it |
| `DiffLines.Diff` | platform/web/app/strategies/page.tsx:15-30 | without added lines the old text, without dropped lines the new one, as many kept lines as the longest common subsequence, no line break in an edit, dropped lines before added ones |
| `DiffLines.NoneLonger` | platform/web/app/strategies/page.tsx:18-19 | no common subsequence is longer than the table says |
| `DiffLines.DiffIsExactAndShortest` | platform/web/app/strategies/page.tsx:14-30 | both texts can be read back from the diff, and no common subsequence beats the lines it keeps |

## Left out

- Sessions, their notes and `touchSession`; the run event log; worker registration and `last_seen`; strategies, of which only the set with a live version is an input.
- Texts: reasoning, stop and wait reasons, error messages, event payloads, digests. A reason of a verdict is a tag.
- SQL, JSON encoding and locking internals: a transaction is one atomic step; `SKIP LOCKED` is an arbitrary set of locked rows. `Reap` is modelled as three steps in a row, which allows more interleavings than its one transaction.
- JSON shapes: a payload is an abstract record; an absent, null or mistyped field reads as absent.
- Agent ids are numbers ordered like the texts they stand for; event ids of positions are log positions.
- Storage errors and crashes between two store calls: only steps that succeed are modelled. A failed wake is a wake that was not enqueued.
- Floating point: rounding and NaN. `PnL` rounds explicitly to four decimals, half away from zero.
- Store.Store.Reap: does not model that its three steps share one transaction, because each step alone keeps the invariant.
- WakeLimits.WakeLimitsHold: does not claim the cap of 20 wakes per trade, because the row's count is read once per tick; it assumes one monitor and a clock that does not run backwards inside a wake call, as the limits are checked before and recorded after the enqueue.
- QueueTheorems.RunTerminates: assumes the agent's follow-up budget stays fixed, because raising it is an operator's way to allow more.
- Refinement.TicksRefineFold: assumes no ATR, Supertrend or halt in the feed and no interference, because the newest bar alone gets them, so a fold over all bars cannot see them.
- Mirror.MirrorStep: excludes adverse_pct tripwires, which are relative to the entry price and do not reflect; a tripwire is its own key.
- MonitorStep.CooldownHolds: speaks of the marks along one fold; a mark whose wake failed is not stored, so a later tick may fire it again, as the service intends.
- Alerts.PickThreshold: takes the candidate thresholds as a strictly rising list; the quantiles they come from are numpy's.
- The backtest's `Search`, `Grid` and `cutTime`, which only rank summaries; `day_thr` and `first_per_day` of the research script.
- Stream pings, signal notices, headers and reconnects: a reconnect is a new connection.
- HTTP handlers, the language-model runtime, prompts, news, the web pages other than the diff, imports and migrations.

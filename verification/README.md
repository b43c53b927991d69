# Quota coordinator: a verified model

A coordinator hands out tickets, one per appliance, for calls to an upstream API
that rate-limits them. It learns the limits from the headers of each response,
tracks what is in flight, keeps a queue of waiting appliances, and serves the
penalties upstream imposes. This project models its quota state, its ticket
engine and its aging queue, and proves what they guarantee together, for every
configuration, every run and every interleaving of the lock-held sections.

## How the model is built

- `Clock`, `Policy`, `ClassSplit`, `QuotaModel`: time in nanoseconds with the
  64-bit wrap of a duration, the policy-header parser, the weighted class split,
  and the quota state as a value with one function per operation.
- `StateObject` and `EngineObject`, and the class `Queue` in `AgingQueue`: the
  mutable objects, with the loops and branches of the source. Each method is
  proved to compute the function of the value model it is named after. Loops over
  a map pick their next key arbitrarily, so their results hold for every order.
- `EngineModel`: each lock-held section is one atomic step that reads the clock
  once; `Exec` runs any sequence of steps whose readings do not decrease. The
  dispatch loop unlocks after each signal, so each of its rounds is a step of
  its own.
- `QuotaLaws` and `EngineLaws` say what each operation decides and leaves behind
  by the state before it, without naming the functions that compute it.
- `QuotaInvariant`, `RateBound`, `WindowSpacing`, `Penalty`, `Refill`,
  `Liveness`: properties of quota operations in any legal order. `EngineTrace`
  shows that every run is such an order, and `EngineInvariant`,
  `EngineTheorems`, `Learning`, `AdaptiveLimit`, `Progress` and `PenaltyRuns`
  state the results for runs of the engine. `Scenarios` holds runs from a fresh server that show what the code
  does not promise.
- `Upstream` puts the engine beside the bucket it spends from.

The `hist` and `ledger` components record the past of a run (windows opened,
tickets issued and retired, penalties). They are written and never read by a
decision, and in the classes they are ghost fields.

## Where the code and its comments differ

The code is followed in each case.

- "Only one bootstrap request" (internal/state/state.go:179-180, 211, 358):
  before the first report every request of a fresh appliance is granted
  (`ColdStartGrantsEveryRequest`, `ColdStartIssuesSeveral`).
- A penalty is said to be served in full (internal/state/state.go:420-422): a
  later, shorter one replaces a longer one that still runs
  (`LaterPenaltyCanEndSooner`). An earlier end is respected over every
  continuation if and only if the later 429 does not end sooner
  (`EarlierPenaltyStillHolds`), and a penalty that is not undercut is served in
  full (`PenaltyHoldsOverRuns`, `RetryAfterIsServed`).
- The remaining is capped by the limit (internal/state/state.go:259-263) only
  when the report carries one: `ReportKeepsWithinLimit` gives the exact
  condition, `LimitCanFallBelowRemaining` a report that breaks it.
- Class budgets are said to reset at each window boundary
  (internal/state/state.go:170): a report that raises the remaining in
  mid-window opens a view without a reset (`ReportRedoesSplitOnlyWhenStale`).
- The ceiling of 0.7 is a floating-point product: for a limit of 90 it is 62, not
  63 (`SevenTenthsOfNinety`).

## Model

| member | source | states |
|---|---|---|
| Policy.ParsePolicyWindow | internal/state/state.go:93-105 | the loop returns the value of the first part with a usable `w=`; 0 exactly when no part carries one; never a negative number |
| Policy.UsableExactlyWhenNamed | internal/state/state.go:96-102 | a part yields n > 0 if and only if, trimmed, it is `w=` and the digits of n, with or without a plus sign, within 64 bits |
| Policy.AsciiSpaces | internal/state/state.go:95 | trimming removes blanks and the five white control characters of ASCII, and no other ASCII character |
| Policy.FirstUsablePartWins | internal/state/state.go:94-103 | parts before the first usable one and parts after it have no influence on the result |
| Policy.PolicyRoundTrip | internal/state/state.go:93-105 | for every positive 64-bit n, a policy whose first `w=` part is a printed n parses to n, whatever the spaces around it and the other semicolon-free parts |
| Policy.PlainPolicyRoundTrip | internal/state/state.go:91-105 | the form upstream sends, limit then `;w=n`, parses back to n |
| Clock.SecondsBoundary | internal/state/state.go:275 | a window length in seconds is a positive duration exactly as multiplied up to 9223372036 seconds; the next length already wraps into the past |
| Clock.SecondsWrap | internal/state/state.go:275 | any length gives the 64-bit signed number congruent to its nanoseconds |
| ClassSplit.SharesSumToLimit | internal/state/state.go:455-463 | for every limit and every set of active classes the exact shares, rounded, add up to the limit, each strictly within half a unit of its exact part, so no rounding tie occurs |
| ClassSplit.SharesByWeight | internal/state/state.go:40-44 | with demand in all classes High, Medium and Low get four, two and one sevenths of the limit to the nearest unit |
| ClassSplit.Ceilings | internal/state/state.go:40-44 | the ceilings are half the limit, seven tenths of it or one less, and all of it |
| ClassSplit.ShareSurvivesRounding | internal/state/state.go:463 | for limits below 2 to the 50, any quotient within the relative error of a double rounds to that same share, so the code's double-precision share is the exact one |
| ClassSplit.SplitConserves | internal/state/state.go:437-482 | exactly the classes with demand get a quota; class quotas and shared pool add up to the bucket limit, so the negative clamp never fires; each quota is non-negative, within demand, ceiling and share, and equal to one of them |
| ClassSplit.SevenTenthsBounds | internal/state/state.go:42 | the double-precision ceiling is the exact floor of seven tenths or one less, for limits below 2 to the 49 |
| ClassSplit.SevenTenthsOfNinety | internal/state/state.go:468 | at 90 the floating-point ceiling is 62, one below the exact 63; at 50 it is 35 |
| StateObject.ActiveClassesOf | internal/state/state.go:439-444 | the loop finds exactly the classes with positive demand, in any visiting order |
| StateObject.TotalWeightOf | internal/state/state.go:455-458 | the sum of the weights, in any visiting order |
| StateObject.Allocate | internal/state/state.go:460-474 | the allocation loop gives one and the same quota map, and its total, for every visiting order of the classes |
| StateObject.State.constructor | internal/state/state.go:181-222 | from any raw configuration the object starts in the clamped boot state |
| StateObject.State.TakeLimits | internal/state/state.go:242-254 | limit and policy window are taken over when positive, and the split is redone for an uncalibrated or aged view |
| StateObject.State.TakeRemaining | internal/state/state.go:256-283 | a non-negative remaining is capped and stored; the horizon moves only when a fresh view opens; the state is calibrated |
| StateObject.State.NoteHeaders | internal/state/state.go:241-284 | the whole new state and the answer after one response's headers |
| StateObject.State.RefreshRemaining | internal/state/state.go:294-305 | the whole new state of a refresh, and whether there was one |
| StateObject.State.RollSustainedWindow | internal/state/state.go:309-319 | the whole new state of a roll; the credit comes before the new window and only after a clean one |
| StateObject.State.CanDispatch | internal/state/state.go:344-370 | the answer and every side effect of a check: penalty served, view refreshed, window rolled |
| StateObject.State.DeductSustained | internal/state/state.go:376-378 | one unit of the sustained budget and nothing else |
| StateObject.State.NotePenalty | internal/state/state.go:397-432 | the whole new state after a 429 |
| StateObject.State.ResetClassBudgets | internal/state/state.go:437-482 | classes, shared pool and demand become the split of the limit by the demand booked |
| StateObject.State.DeductClassQuota | internal/state/state.go:492-494 | one unit of the class, which had one |
| StateObject.State.DeductShared | internal/state/state.go:504-506 | one unit of the shared pool, which had one |
| QuotaLaws.ClampsToNearest | internal/state/state.go:181-205 | a configuration in range is taken over unchanged; otherwise 50, 30 and 900 stand in, the floor is at least 1, the ceiling at least the floor, and the initial limit the nearest one between them |
| QuotaLaws.FreshServer | internal/state/state.go:207-221 | a fresh server has one cold-start unit, nothing booked, drawn, out or running, the configured lengths and limits, and the whole limit in the shared pool |
| QuotaLaws.DispatchesExactlyWithRoom | internal/state/state.go:344-370 | a check says yes if and only if no penalty runs and, calibrated, a running sustained window is not used up and fewer tickets are out than the reported remaining of a running view, or the limit without one; uncalibrated, the cold-start unit is there |
| QuotaLaws.DispatchesInsideView | internal/state/state.go:365-369 | inside a running view and a running window with room, yes if and only if fewer tickets are out than the remaining reported |
| QuotaLaws.CheckEffects | internal/state/state.go:344-370 | what a check leaves behind: a running penalty freezes everything; otherwise view and window are renewed independently, each only when it has ended |
| QuotaLaws.RollCreditsCleanWindows | internal/state/state.go:309-330 | a running window is kept; else a fresh one of the learned length opens, and the limit rises by one, up to the maximum, exactly when a window ended without a penalty |
| QuotaLaws.PenaltyAdoptsRetryAfter | internal/state/state.go:397-432 | a 429 adopts a positive Retry-After as window length and keeps the learned one otherwise, lasts that long in place of the sustained window, halves the limit down to the floor and leaves view, budgets and tickets alone |
| QuotaLaws.FirstReportCalibrates | internal/state/state.go:256-283 | the first report replaces the cold-start unit, opens a view exactly when it carries a remaining, and leaves the class budgets alone |
| QuotaLaws.ReportNamesLimits | internal/state/state.go:241-247 | every settled report frees a slot and takes over the limit and policy window it names; the sustained budget and a penalty stay |
| QuotaLaws.TicketCostsOne | internal/handlers/engine.go:191-193 | a ticket takes one slot and one unit of the sustained budget; limits and view stay |
| QuotaInvariant.BootIsSound | internal/state/state.go:181-222 | the quota invariant holds after construction from any raw configuration |
| QuotaInvariant.CheckKeepsSound | internal/state/state.go:344-370 | a check keeps the invariant, and a positive answer means no penalty, a fresh view and room in both budgets |
| QuotaInvariant.OpKeepsSound | internal/state/state.go:241-506 | every quota operation keeps limits in bounds, the bootstrap shape, the penalty coupling, the window bound and the conservation of class budgets |
| QuotaInvariant.OpsKeepSound | internal/state/state.go:241-506 | so does every sequence of them |
| RateBound.RateBoundOps | internal/state/state.go:309-319 | in a span of length t at most (t/w + 2) times the maximum limit of sustained tickets, w the shortest sustained window in use |
| EngineTheorems.RateBoundOverRuns | internal/state/state.go:372-378 | the same for every run of the engine from every configuration, over all three grant paths and across penalties |
| EngineTheorems.WindowNeverExceeded | internal/state/state.go:365-378 | in every reachable state the current window has issued at most the limit it began with, and the limit lies between its configured bounds |
| WindowSpacing.WindowsStaySpaced | internal/state/state.go:309-319 | sustained windows never open less than w apart, although penalties replace the end and the length of the running one |
| EngineTheorems.WindowsSpacedOverRuns | internal/state/state.go:397-432 | the same in every run of the engine |
| Learning.EventLearns | internal/handlers/engine.go:218-283 | what one step teaches: only a settled report moves limits, window lengths, calibration and the penalty count; only a 429 or the end of a window moves the sustained limit and the window's mark |
| Learning.LastReportRules | internal/state/state.go:231-247 | in every run bucket limit, policy window and sustained window length are what the last settled report that named them said, a 429's Retry-After for the latter, and the configured values before |
| AdaptiveLimit.LimitFollowsEvents | internal/state/state.go:309-330 | in every run the sustained limit is the one computed from its events alone: halved to the floor by each accepted 429, raised by one to the ceiling by each window that ended without one |
| AdaptiveLimit.LimitFromStart | internal/state/state.go:397-412 | the same from a fresh server with the configured limit |
| AdaptiveLimit.PenaltiesHalveLimit | internal/state/state.go:407-412 | over a run, k accepted 429s and no clean window leave max(min, floor(limit / 2^k)) |
| AdaptiveLimit.CleanWindowsCredit | internal/state/state.go:321-330 | over a run, k windows that ended with no 429 accepted since they opened, and no 429, leave min(max, limit + k); windows are counted from the events |
| Penalty.LastPenaltyIsLatest | internal/state/state.go:417-429 | the recorded penalty end is that of the latest 429 and changes with nothing else |
| Penalty.ServedPenaltyResetsBoth | internal/state/state.go:351-369 | the first check after a penalty refills the burst view and opens a new sustained window together, credits nothing, and grants exactly when the slots in flight leave room |
| PenaltyRuns.PenaltyHoldsOverRuns | internal/state/state.go:420-429 | in every run in which no penalty announced meanwhile ends before a running penalty's end, no ticket is issued before that end |
| PenaltyRuns.RetryAfterIsServed | internal/state/state.go:397-429 | after an accepted 429 of n seconds no ticket is issued for n seconds of any run, unless a later 429 ends sooner; n is the Retry-After or the learned window, up to 9223372036 |
| PenaltyRuns.UndercutPenaltyIssues | internal/state/state.go:428-429 | after a 429 that ends before a given instant some continuation without a further 429 issues a ticket before that instant, whatever is in flight |
| PenaltyRuns.EarlierPenaltyStillHolds | internal/state/state.go:420-429 | a 429 accepted during a penalty keeps the earlier end safe, over every continuation in which no further 429 ends sooner, if and only if its own penalty ends no sooner |
| Scenarios.LaterPenaltyCanEndSooner | internal/state/state.go:428-429 | a run from a fresh server: during a penalty of 900 seconds another of one second is reported, and a second later a ticket is issued |
| EngineTheorems.RunPenalty | internal/handlers/engine.go:246-265 | over any run the recorded end is that of the last accepted 429 |
| EngineTheorems.NoGrantDuringPenalty | internal/state/state.go:420-429 | in every run, no step issues a ticket before the end of the latest penalty announced |
| Refill.ReportMovesHorizon | internal/state/state.go:264-277 | a matched report moves the staleness horizon exactly when it carries a remaining and finds no view, an aged one, or fewer units than it reports |
| Refill.RefreshHandsOutWholeLimit | internal/state/state.go:294-305 | a refresh happens exactly for a missing or aged view, and then hands out the whole limit with a fresh class split |
| Refill.ReportRedoesSplitOnlyWhenStale | internal/state/state.go:249-254 | a calibrated report redoes the class split exactly when the view had aged, not when it merely raises the remaining |
| Refill.RefillsStaySpaced | internal/state/state.go:294-305 | refills with no served penalty between them are at least p - lag apart, p the shortest policy window, lag the delay of reports |
| EngineTheorems.RefillsSpacedOverRuns | internal/state/state.go:267-275 | the same in every run of the engine |
| Refill.ReportKeepsWithinLimit | internal/state/state.go:257-265 | a report keeps the believed remaining within the limit if and only if it carries one, or calibrates, or does not lower the limit below it |
| Refill.OthersKeepWithinLimit | internal/state/state.go:298 | every other operation keeps it |
| Scenarios.LimitCanFallBelowRemaining | internal/state/state.go:242-244 | a run from a fresh server: a response reports 40 of 50, the next names a limit of 10 and no remaining, and the server still believes in 40 |
| EngineTheorems.WithinLimitOverRuns | internal/state/state.go:256-265 | in every run whose reports carry a remaining, what is believed to remain stays within the limit |
| Liveness.ClearDispatches | internal/state/state.go:344-370 | once no penalty runs, a view still running is full and a sustained window still running has room, a check succeeds if and only if the state is uncalibrated or fewer slots are in flight than the limit |
| Liveness.ClearStays | internal/state/state.go:294-319 | over any sequence of checks, bookings and expiries a quota that is clear by an instant stays so, although the checks open new views and windows |
| Liveness.TimersStayNear | internal/state/state.go:275-318 | no timer ever lies further ahead than the longest window of its kind |
| Progress.NoWedge | internal/handlers/engine.go:518-536 | from any proper state, through any traffic that issues and accepts nothing: once the periods then in force are over and a reaper pass has met every ticket expired, a check succeeds and a request of an appliance that does not wait is granted |
| Progress.WaitIsBounded | internal/state/state.go:286-293 | after any run ending at T, however long polls, refusals and reaper passes go on without a grant or an accepted report, a request at or after T plus the longest policy window and T plus the longest sustained window is granted, given a reaper pass later than T plus the expiry |
| AgingQueue.OrderIsClockIndependent | internal/queue/queue.go:83-86 | which of two items ranks higher, and whether they tie, is the same at every instant |
| AgingQueue.SortSorts | internal/queue/queue.go:76-81 | the result is descending and a permutation of the queue |
| AgingQueue.SortIsStable | internal/queue/queue.go:78 | items of equal priority keep their list order |
| AgingQueue.SortIsClockIndependent | internal/queue/queue.go:76-81 | the sorted list does not depend on when it is sorted |
| AgingQueue.PopTakesFirstMaximum | internal/queue/queue.go:43-51 | a pop removes one maximal item, the first of its priority in list order, and loses no other |
| AgingQueue.PopsFollowOneOrder | internal/queue/queue.go:43-51 | pops at any instants with no enqueue between them yield the one descending permutation of the queue |
| AgingQueue.OvertakingBound | internal/queue/queue.go:83-86 | an item that ranks as high as another was queued at most (base difference)/weight seconds after it |
| AgingQueue.WithoutRemovesFirst | internal/queue/queue.go:55-63 | removal takes exactly the first item of the appliance and every other keeps its place; without one nothing changes |
| AgingQueue.Queue.SortByEffective | internal/queue/queue.go:76-81 | the list becomes its stable descending sort at the clock reading |
| AgingQueue.Queue.PopBest | internal/queue/queue.go:43-51 | none exactly for an empty queue, else the head of the sorted list, which the rest keeps |
| AgingQueue.Queue.Remove | internal/queue/queue.go:55-63 | the first item of the appliance leaves, and the answer says whether there was one |
| AgingQueue.Queue.Holds | internal/queue/queue.go:66-73 | true exactly when some item is the appliance's |
| AgingQueue.Queue.DrainAll | internal/queue/queue.go:89-97 | the channel of every waiting item holds a value afterwards, no other channel changes, and the queue is empty |
| EngineObject.Engine.TryAcquire | internal/handlers/engine.go:117-180 | the whole new engine state and the answer: 409, immediate grant, 503 or queued |
| EngineObject.Engine.GrantTicket | internal/handlers/engine.go:184-198 | the tail of the three grant paths: a slot, a sustained unit and a fresh ticket stamped with the headroom |
| EngineObject.Engine.ProcessReport | internal/handlers/engine.go:218-283 | an unmatched report changes nothing; a matched one retires its ticket, folds its headers and, for a 429, serves a penalty |
| EngineObject.Engine.HandleReport | internal/handlers/engine.go:365-375 | the whole new engine state after a report |
| EngineObject.Engine.TryReportAndAcquire | internal/handlers/engine.go:380-454 | the whole new engine state and the answer of the combined call |
| EngineObject.Engine.DispatchSection | internal/handlers/engine.go:303-330 | one round of the dispatch loop between taking and releasing the lock |
| EngineObject.Engine.ReaperPass | internal/handlers/engine.go:518-539 | the map loop removes the expired tickets, for every visiting order |
| EngineObject.Engine.RemoveFromQueue | internal/handlers/engine.go:201-205 | the waiter of a timed-out request leaves and nothing else changes |
| EngineObject.Engine.DrainQueue | internal/queue/queue.go:89-97 | shutdown empties the queue and leaves a value in every waiter's channel |
| EngineInvariant.StartHolds | internal/handlers/engine.go:60-69 | a fresh engine satisfies the ticket and queue invariant |
| EngineInvariant.NextHolds | internal/handlers/engine.go:117-539 | every atomic step keeps it |
| EngineInvariant.ReachableHolds | internal/handlers/engine.go:117-539 | every reachable state of every configuration satisfies it |
| EngineInvariant.SignalNeverBlocked | internal/handlers/engine.go:319-328 | a popped item's channel is empty, so the reclaiming branch is never taken |
| EngineTrace.EventQuota | internal/handlers/engine.go:117-330 | one step acts on the quota as a legal sequence of quota operations at its clock reading: a check before every grant, a unit drawn before every queue grant |
| EngineTrace.RunQuota | internal/handlers/engine.go:117-539 | so does a whole run, each operation coming from one of its events |
| EngineTheorems.EveryGrantIsJustified | internal/handlers/engine.go:144-155 | at the instant of any grant no penalty runs and, once calibrated, the view has not ended (for policy windows up to 9223372036 seconds), the sustained budget is kept and the expected remaining is non-negative; the ticket has a fresh token |
| EngineTheorems.AcquireAnswers | internal/handlers/engine.go:108-116 | what each answer means: granted holds the ticket, queued waits last under its class with an empty channel, 503 found no room and the queue full, 409 changed nothing |
| EngineLaws.AcquireAnswersByRoom | internal/handlers/engine.go:117-180 | the answer by the state before: 409 for a duplicate, else a ticket exactly when there is room, else a place exactly when the queue is not full, else 503 |
| EngineLaws.AcquireInsideView | internal/state/state.go:365-369 | inside a running view and a running window with room a new request is granted if and only if fewer tickets are out than units reported |
| EngineLaws.CombinedAnswersByRoom | internal/handlers/engine.go:405-453 | the same answers for the combined call, by the state its report leaves |
| EngineLaws.CombinedQueuesNamedClass | internal/handlers/engine.go:381-443 | a combined call that is queued waits last in line under the class it named, medium for none, with that class's base |
| EngineLaws.DispatchGrantsByRoom | internal/handlers/engine.go:304-316 | a round grants if and only if there is room, somebody waits and a unit is left for the item ranked first; without a unit that item goes to the back |
| EngineLaws.BasesByClass | internal/state/state.go:25-29 | the bases are 100, 50 and 1, and 50 for unknown labels |
| EngineLaws.HigherClassGoesFirst | internal/handlers/engine.go:304-318 | when a round serves g and x of a higher class, or of the same, keeps waiting, g was queued earlier by at least their lead over the aging weight: 99, 50 or 49 between classes, 0 within one |
| EngineLaws.HigherClassGoesFirstOverRuns | internal/queue/queue.go:76-86 | the same in every reachable state |
| Refill.CheckKeepsOrRedoesSplit | internal/state/state.go:344-363 | a check leaves the class budgets and the booked demand alone, or refreshes the view and splits the limit by that demand |
| EngineTheorems.AcquireBooksDemand | internal/handlers/engine.go:136-142 | every request that is not a duplicate books 1 + backlog under its class (unknown labels under medium) and nothing elsewhere; the booking waits for the next split or is counted by the one this request triggers |
| EngineTheorems.ColdStartGrantsEveryRequest | internal/state/state.go:357-360 | before the first report a request is granted at once if and only if its appliance neither holds a ticket nor waits |
| Scenarios.ColdStartIssuesSeveral | internal/state/state.go:211 | two first requests give two tickets |
| EngineTheorems.CombinedRefinesReportThenAcquire | internal/handlers/engine.go:377-454 | for a matched report other than a 429 the combined call leaves the state and gives the answer of the report followed at once by an acquire with the class it names, medium for none, and its backlog |
| EngineTheorems.CombinedWithoutAcquire | internal/handlers/engine.go:387-395 | a combined 429 is the report alone, answered 429; an unmatched one changes nothing and is answered 409 |
| EngineTheorems.ReportSettlesItsTicket | internal/handlers/engine.go:219-234 | a report is heard if and only if its appliance holds the ticket it names, and then retires that ticket and touches no other ticket, waiter or channel |
| EngineTheorems.ReplayIsUnmatched | internal/handlers/engine.go:219-233 | once a token has been accepted, every later report that carries it is unmatched |
| EngineTheorems.LedgerOverRuns | internal/handlers/engine.go:233-234 | in every run tickets issued are reports accepted, tickets reaped and tickets active; in flight counts the active ones; no token is accepted twice |
| EngineTheorems.ReaperLeavesRecentTickets | internal/handlers/engine.go:524-534 | a pass removes exactly the tickets older than ten seconds, lowers in-flight by their number, and leaves at most as many as were issued within ten seconds |
| EngineTheorems.BoundedOvertaking | internal/handlers/engine.go:304-318 | an item granted while another waits was queued at most (base difference)/weight, hence 99/weight, seconds after it |
| EngineTheorems.BoundedOvertakingOverRuns | internal/handlers/engine.go:304-318 | the same in every reachable state |
| EngineTheorems.DispatchLosesNobody | internal/handlers/engine.go:304-329 | a round moves one waiter to a ticket, a signal and one drawn unit, of its class if that has any and else of the shared pool, or moves nothing; everyone else keeps waiting |
| EngineLaws.GivingUpRemovesOneWaiter | internal/handlers/engine.go:200-205 | a long-poll that gives up takes its own waiter out of the queue, and nobody else; tickets and quota stay |
| EngineLaws.ReadingEmptiesOneChannel | internal/handlers/http.go:59 | a waiter that reads its channel empties that one alone |
| EngineLaws.ShutdownAnswersEveryWaiter | internal/queue/queue.go:89-97 | after shutdown the queue is empty and exactly the waiters' channels have been filled; tickets stay out |
| EngineTheorems.ImmediateGrantsDrawNothing | internal/handlers/engine.go:144-160 | immediate grants, plain or combined, draw no class or shared unit |
| EngineTheorems.QueueOverRuns | internal/handlers/engine.go:122-129 | in every run waiting appliances are pairwise distinct, hold no ticket, have empty channels, and are at most the queue cap |
| EngineTheorems.QueueGrantsConserved | internal/handlers/engine.go:307-316 | at every point of every run class quotas, shared pool and queue grants since the last reset make up the limit at that reset, none negative |
| Upstream.MoveHolds | internal/state/state.go:256-278 | each event inside a view keeps the belief within the upstream bucket plus the answers not yet reported, and exactly equal to it while no report names a limit below its own remaining |
| Upstream.ServeIsAffordable | internal/state/state.go:369 | upstream has a unit for every ticket it has not served |
| Upstream.NoOverDispatchInsideView | internal/handlers/engine.go:233-275 | with no refill, reaping or outside spending and reports in upstream's order, of any status and limit, the headroom is never above upstream's remaining less the granted and unserved requests, and upstream refuses nothing |
| Upstream.HeadroomStaysExact | internal/handlers/engine.go:233-275 | the two are equal throughout, while no report names a limit below its own remaining |
| Upstream.FreshViewNeverOverDispatches | internal/state/state.go:256-278 | a calibrated server that has just learnt the true remaining, with nothing answered, makes upstream refuse nothing inside that view |

## Left out

- HTTP, JSON, environment parsing, TLS, signals, logging, the notifier, the dashboard and SQLite: plumbing. Analytics writes are no-ops.
- The notify channel: the dispatch loop may take a round at any time, which covers every wake-up the channel allows.
- The token hand-off map of queue grants: a grant ends at the send on the waiter's channel, and the waiter's lookup is not modelled.
- Telemetry that decides no grant: implied legacy usage, anomalies, `WindowStartTime`, the window-opened flag, the returned `Penalty` record (whose old window is read after it was overwritten), snapshots and status.
- A ticket's own appliance field: the key of the ticket map stands for it.
- Clock readings inside one lock-held section: a section reads the clock once. A report's receive time is a separate input.
- Machine integers other than durations and the parsed window: counters and limits are unbounded.
- Floating-point priorities: base, aging and effective priority are reals. The shares of the split are exact quotients, rounded as the code rounds them, which the double-precision ones agree with for limits below 2 to the 50.
- Tokens and channels: fresh numbers stand for UUIDs and for newly made channels; a one-slot channel is empty or full.
- The library's stable sort: an insertion sort with the same comparison.
- The reset header: the coordinator does not act on it.
- Progress of the queue within a window is not claimed: an item whose class and the shared pool are exhausted blocks those behind it.

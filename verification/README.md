# A verified model of the budget and routing control plane

The control plane spends money on behalf of agents. It keeps a tree of workflow budgets in a document
store, a per-run reservation ledger in the gateway, a cache index that must agree with the real
conversation, a compactor that shortens prompts, a router that prices candidates, an idempotent usage
log, and signed tokens that carry accounting claims between services. Each of these has a promise that
no single function states. This project models the code behind those promises and proves them, for all
inputs and for all runs.

Check it with `dafny verify dfyconfig.toml`.

## How the model is laid out

| files | what they hold |
|---|---|
| `Basics.dfy` | options and results, the `1e-12` slack as an exact real, sums over maps, rounding to eight decimals |
| `WorkflowLedger.dfy`, `WorkflowSteps.dfy` | the workflow budget as data; each function is one atomic step: one document read, one document update, or one whole transaction |
| `WorkflowSystem.dfy`, `WorkflowTheorems.dfy` | callers that race over the ledger with rows, reservations and checks they read earlier; what every run of them keeps |
| `WorkflowStore.dfy` | the stored collections and the service operations that update them in place, tied to those steps |
| `WorkflowBudget.dfy` | weighted pacing and the authorization of one call |
| `ControllerLedger.dfy`, `GlobalController.dfy` | an agent run's reservation ledger, whose allocator is called with the lock released; the mutable runs behind it |
| `Pricing.dfy`, `Routing.dfy`, `Ordering.dfy` | the five separately written price formulas, the ranking, and the provider deadline plan |
| `WaterFill.dfy`, `CompactText.dfy`, `Compaction.dfy` | planning a reduction, splitting it over messages, rewriting texts inside protected boundaries |
| `PromptCache.dfy` | the content-free cache index |
| `UsageAccounting.dfy` | the retried usage transaction and its shadow price |
| `Base64Url.dfy`, `AccountingToken.dfy` | unpadded base64url (section 5 of RFC 4648), profile normalisation, issuing and verifying tokens |
| `ResponsesLens.dfy` | reading messages out of a request body and writing compacted ones back |
| `Failover.dfy`, `Gateway.dfy` | switching models under one reservation, and the gateway that prepares and observes calls |

Code that only computes is modelled by functions; code that changes state step by step is modelled by
classes and methods with loops, each proved equal to, or bounded by, a specification function, about
which the theorems are proved. Runs are sequences of actions: an action its caller is not in a position
to take does nothing, so a statement about all sequences covers every interleaving.

Dollar amounts are exact reals. Clocks, identifiers, model outputs (allocations, scores, predicted
lengths), hashes, byte counts, JSON text and HMAC are parameters, restricted only by what the validators
of the program check.

## What the proofs found

Several tempting statements about the code are false. For each there is an input or a run that shows it,
and the exact condition under which the statement holds, or what is left of it.

- Rounding spending to eight decimals can refuse a call that stayed inside its authorization
  (`WorkflowBudget.RoundingCanRefuseAnAuthorizedCall`); every use of an authorization settles exactly when
  its largest use does (`WorkflowBudget.RoundedSpendSettlesIff`).
- Children may together be given more than their parent (`WorkflowTheorems.ChildrenMayOversubscribe`); they
  fit exactly when each child asked for no more than the others left
  (`WorkflowTheorems.ChildrenFitAfterRunIff`).
- A finished scope may hold an open call (`WorkflowTheorems.FinishedScopeMayHoldAnOpenCall`), exactly one
  that was reserved between the check and the update and not finalized since
  (`WorkflowTheorems.FinishedScopeHoldsOpenCallIff`).
- An active agent run can be above its hard limit (`ControllerLedger.OverrunThenFailureExceedsLimit`); it
  never is exactly when every settlement fits beside the other commitments
  (`ControllerLedger.AlwaysWithinLimitIff`).
- A failed agent run can hold a reservation for good (`ControllerLedger.FailedRunMayHoldAReservation`),
  exactly when a broken limit ended it while another call was reserved
  (`ControllerLedger.ClosedRunHoldsIff`), so a call prepared meanwhile cannot be released
  (`ControllerLedger.InterruptedPreparation`).
- The advertised price and the planner's estimate can be below the price they stand for
  (`Pricing.AdvertisedMayBeLower`, `Pricing.PlannerMayEstimateLess`), and agree with it exactly under
  `Pricing.AdvertisedMatchesCoordinatorIff` and `Pricing.PlannerMatchesRouterIff`.
- A shorter context can cost more (`PromptCache.ShorterContextCanCostMore`): the discount it loses can be
  worth more than the tokens it saves (`Pricing.InputCostMonotoneIff`, `Pricing.RoutedPriceMonotoneIff`).
- The water filling is described as proportional; because each share is taken of what the earlier ones
  left, equal messages may share unequally (`WaterFill.EqualMessagesMayShareUnequally`), unless the floors
  or the capacities hide the difference in every round (`WaterFill.EqualMessagesEndEqualIff`), as they do
  when the reduction is generous (`WaterFill.GenerousReductionFillsBoth`).
- The benchmark's failover loop resolves its reservation on every failing path, as its documentation
  says; the proxy's copy of the loop keeps the reservation held when a connection breaks, a log record
  fails or a switch fails (`Failover.BrokenConnectionStopsTheLoop`, `Failover.ProxyForward`).
- A token can be issued that never verifies (`AccountingToken.IssuedButNeverVerified`): one that is too
  long, carries an infinite cache price, or names a workflow call without output tokens or without a
  positive limit (`AccountingToken.VerifyReturnsTheSignedClaim`).
- Writing compacted messages back loses a change to the instructions, to a text input, to an item with
  several text parts, or to a call-output item that also has a role (`ResponsesLens.SecondPartSurvives`,
  `ResponsesLens.RereadingGivesTheCompactedView`).
- Retrying a logged usage request is refused once the route's accounting mode has changed
  (`UsageAccounting.ModeChangeRefusesRetry`, `UsageAccounting.RetryIsIdempotent`).

## Model

| member | source | states |
|---|---|---|
| `WorkflowSystem.EveryReachableSystemIsSound` | frontend/lerouter_modal_api.py:956-1079 | under any interleaving of callers the scopes form a tree rooted at their runs, every stored total is the sum of the calls that list the scope, and no caller's stale rows or reservation copies contradict the ledger beyond phase and totals |
| `WorkflowTheorems.EveryScopeStaysWithinBudget` | frontend/lerouter_modal_api.py:975-1012 | in every reachable state each scope's reserved and spent totals are sums over its calls, and spent plus reserved passes the maximum by at most one slack for each finalized call |
| `WorkflowTheorems.WithoutOverrunsNoScopeIsOverspent` | frontend/lerouter_modal_api.py:975-1012 | if no call was debited above its own limit, no scope ever exceeds its maximum |
| `WorkflowTheorems.ParentIsDirectPlusChildren` | frontend/lerouter_modal_api.py:956-1079 | each parent's totals are those of the calls made directly on it plus its children's totals |
| `WorkflowTheorems.OneCallSplits` | frontend/lerouter_modal_api.py:727-751 | a call below a scope belongs to the scope itself or passes through exactly one of its children |
| `WorkflowTheorems.EveryCallIsFinalizedOnce` | frontend/lerouter_modal_api.py:1045-1079 | a reservation leaves reserved or started exactly once if it is final in the end, never otherwise, and its record never changes afterwards |
| `WorkflowTheorems.EachStepDebitsOneChain` | frontend/lerouter_modal_api.py:1045-1079 | a step that changes spending finalizes one reservation and debits every scope of its chain, and no other, by the same amount |
| `WorkflowTheorems.FinalizationReplays` | frontend/lerouter_modal_api.py:1045-1053 | once a finalization succeeded, whatever callers do next, its claim finds the record as it was left, and replaying succeeds exactly for the same outcome and recorded spend and changes nothing; the identical request replays unless it cancels while naming a spend |
| `WorkflowTheorems.RivalFinalizerIsRefused` | frontend/lerouter_modal_api.py:1058-1079 | once one caller finalized a reservation, and whatever anyone did since, every other caller holding an open copy of it is refused |
| `WorkflowTheorems.SettlementAcceptance` | frontend/lerouter_modal_api.py:1045-1079 | an outstanding call settles exactly when it is in the state the outcome needs and the debit is within its limit plus the slack: the conflict guards never fire |
| `WorkflowTheorems.OutcomesOfACall` | frontend/lerouter_modal_api.py:1045-1079 | an outstanding call is settled, or failed, exactly when it is started and its spending is at most its limit and one slack, and is cancelled exactly when it is not started; the record left names the outcome and the debit, and a started call can always be failed for its full limit |
| `WorkflowTheorems.ReadChainFindsThePath` | frontend/lerouter_modal_api.py:727-751 | reading a chain ends with the exact root-to-leaf path precisely when the run and all scopes on it are active; the cycle and foreign-root errors are unreachable |
| `WorkflowSystem.WalkMeetsNoCycle` | frontend/lerouter_modal_api.py:736-751 | a walk whose rows were read at different times still never comes back to a scope it has read |
| `WorkflowTheorems.FreshReservationIsGranted` | frontend/lerouter_modal_api.py:975-1012 | a reservation on a chain just read is granted exactly when every scope of it has headroom |
| `WorkflowTheorems.ClosedScopeAdmitsNoCall` | frontend/lerouter_modal_api.py:975-1000 | over any run, the open calls below a closed scope can only dwindle |
| `WorkflowTheorems.ChildrenMayOversubscribe` | frontend/lerouter_modal_api.py:7704-7718 | a run in which two children hold more than their parent's maximum |
| `WorkflowTheorems.ChildrenFitAfterRunIff` | frontend/lerouter_modal_api.py:7704-7718 | over any run a scope's children stay within its maximum exactly when they were within it before and every child inserted on the way asked for no more than its elder siblings left over; no other action matters |
| `WorkflowTheorems.StepGrants` | frontend/lerouter_modal_api.py:7704-7718 | a step raises the sum of the children's maxima by the maximum of the child it inserts below the scope, and otherwise not at all |
| `WorkflowTheorems.FinishedScopeMayHoldAnOpenCall` | frontend/lerouter_modal_api.py:7733-7741 | a run in which a scope is finished while a call below it is open |
| `WorkflowTheorems.FinishedScopeHoldsOpenCallIff` | frontend/lerouter_modal_api.py:7733-7741 | a finished scope has an open call below it exactly when, between the check and the update, a reservation succeeded on a chain that holds the scope and nothing finalized it |
| `WorkflowTheorems.OpenAfterRunIff` | frontend/lerouter_modal_api.py:956-1079 | after any run the open calls below a scope are those open before, or reserved on the way, that no step finalized |
| `WorkflowLedger.PathIsUnique` | frontend/lerouter_modal_api.py:727-751 | a scope has only one root-to-leaf path |
| `WorkflowLedger.HoldAllMeaning` | frontend/lerouter_modal_api.py:975-1000 | the loop over a chain succeeds exactly when every scope has headroom, and raises exactly those scopes |
| `WorkflowLedger.ReleaseAllMeaning` | frontend/lerouter_modal_api.py:1061-1070 | the settlement loop succeeds exactly when every scope still holds the limit, and moves exactly those scopes |
| `WorkflowStore.Store.CreateRun` | frontend/lerouter_modal_api.py:7688-7701 | creating a run inserts it with its root scope, or changes nothing |
| `WorkflowStore.Store.ReadScopeChain` | frontend/lerouter_modal_api.py:727-751 | the loop over parent links returns what the step-by-step walk returns, whatever the collections hold |
| `WorkflowStore.Store.CreateScope` | frontend/lerouter_modal_api.py:7704-7718 | a child is inserted below the chain's leaf within its parent's maximum, or nothing changes |
| `WorkflowStore.Store.ReserveCall` | frontend/lerouter_modal_api.py:956-1019 | the transaction raises every scope of the chain and stores the reservation, or leaves everything as it was |
| `WorkflowStore.Store.StartReservation` | frontend/lerouter_modal_api.py:7771-7786 | starting moves a reserved call to started, tolerates a repeat, and refuses anything else |
| `WorkflowTheorems.OneClaimForever` | frontend/lerouter_modal_api.py:1022-1042 | exactly one claim finds a reservation, that of its run, leaf scope, id and limit, and it finds it in every later state |
| `WorkflowStore.Store.FinalizeReservation` | frontend/lerouter_modal_api.py:1045-1079 | finalizing debits the whole chain and the reservation together, or changes nothing |
| `WorkflowStore.Store.FinishScope` | frontend/lerouter_modal_api.py:7733-7741 | a scope is closed only after a check found no outstanding call below it, in whatever active state other callers have left it since; a call open below it then was not there at the check |
| `WorkflowStore.Store.FinishRun` | frontend/lerouter_modal_api.py:7751-7762 | after a check that nothing is outstanding, and with other callers acting between the steps, every scope of the run is closed, and the run exactly when it is still active |
| `WorkflowBudget.EffectiveTarget` | frontend/workflow_budget.py:56-101 | the target is the least weighted share over the chain, positive and at most the least available amount; it fails exactly on an unusable row, an empty chain or a bad weight |
| `WorkflowBudget.PacingKeepsEveryShare` | frontend/workflow_budget.py:56-101 | pacing telescopes: after any number of calls every scope keeps at least the fraction of its budget that its remaining work is of its initial work |
| `WorkflowBudget.ExactSpendingIsProportional` | frontend/workflow_budget.py:82-101 | spending exactly the target gives each call its weight's share of the initial budget |
| `WorkflowBudget.AuthorizedCallFitsItsLimit` | frontend/workflow_budget.py:177-210 | any use within the authorization costs at most the call limit, which is positive and at most what is available; one more output token would not fit or is not wanted |
| `WorkflowBudget.AuthorizationMeaning` | frontend/workflow_budget.py:177-210 | a call is authorized exactly when every amount is positive, the prediction fits what is available and the slack, and one output token can be paid for and is wanted; its limit reaches the target and the prediction as far as they are available, and no further than the larger |
| `WorkflowBudget.AuthorizedCallIsReserved` | frontend/workflow_budget.py:177-210 | a call authorized from a chain as it stands always gets its reservation |
| `WorkflowBudget.AuthorizedSpendSettles` | frontend/lerouter_modal_api.py:1054-1057 | the exact cost of a started call within its authorization always settles |
| `WorkflowBudget.RoundedSpendSettlesIff` | frontend/lerouter_modal_api.py:5736-5740 | on a started call, the rounded cost of every use within the authorization settles exactly when the rounded cost of the largest use is within the limit plus the slack |
| `WorkflowBudget.RoundingCanRefuseAnAuthorizedCall` | frontend/lerouter_modal_api.py:5736-5740 | a reachable started call whose authorized use, rounded, is refused |
| `WorkflowBudget.PredictedOutputIsFunded` | frontend/workflow_budget.py:164-210 | an authorized candidate may produce all the output predicted for it, unless its caller allows less or the prediction passes what is available by part of the slack |
| `ControllerLedger.EveryCallIsAccountedFor` | src/promptrail/controller.py:113-116 | every sequence number issued is in exactly one of pending, reserved, charged and abandoned, and spending is the sum of one charge for each finished call |
| `ControllerLedger.ClosedRunIsFrozen` | src/promptrail/controller.py:302-332 | a run leaves ACTIVE at most once and then spending, completed calls and reservations never change |
| `ControllerLedger.FinishedRunHoldsNothing` | src/promptrail/controller.py:302-332 | a run closed by finishing has charged every reservation in full and holds nothing |
| `ControllerLedger.GrantFitsTheLimit` | src/promptrail/controller.py:175-206 | whatever order pending allocations return in, a grant leaves everything committed within the hard limit plus the slack, and a refusal commits nothing |
| `ControllerLedger.CommitGrantsIff` | src/promptrail/controller.py:345-383 | a decision is granted exactly when the run is active, its context fits the input, its overrides name known blocks that are not immutable, and its cost and latency fit the limits of one call and what is left of the run's; the budget splits the cost by the decided fraction, and each refusal names a condition that fails |
| `ControllerLedger.BeginsIff` | src/promptrail/controller.py:103-116 | an allocation begins exactly on an active run with money and time left |
| `ControllerLedger.SettlingMeaning` | src/promptrail/controller.py:208-270 | a settlement charges its cost and fails the run exactly when the call passes a limit of one call or brings the run past one of its own |
| `ControllerLedger.SettleKeepsLimitIff` | src/promptrail/controller.py:208-270 | settling keeps the bound exactly when the cost fits beside the other commitments |
| `ControllerLedger.FailKeepsLimitIff` | src/promptrail/controller.py:272-284 | failing with unknown billing keeps the bound exactly when it held before |
| `ControllerLedger.AlwaysWithinLimitIff` | src/promptrail/controller.py:175-332 | a run is within its limit at every moment exactly when it is at the start and every settlement of a reserved call fits beside the other commitments of its moment |
| `ControllerLedger.FaithfulRunStaysWithinLimit` | src/promptrail/controller.py:208-332 | when no settlement exceeds its reservation, the bound holds in every reachable state |
| `ControllerLedger.OverrunThenFailureExceedsLimit` | src/promptrail/controller.py:208-284 | from a new run, actions that lead to a run that is active and above its hard limit |
| `ControllerLedger.InterruptedPreparation` | src/promptrail/controller.py:103-284 | with other calls acting before and after a grant, releasing a refused call leaves nothing of it exactly when the grant was refused or the run is still active, and leaves the other calls as they were |
| `ControllerLedger.ViolatedRunKeepsReservations` | src/promptrail/controller.py:225-297 | a run failed by a settlement over a limit, or by a tool call past the deadline, keeps every other reservation for good, and holds nothing exactly when no other call was reserved |
| `ControllerLedger.ClosedRunHoldsIff` | src/promptrail/controller.py:208-332 | over any actions, a run is over and still holds a reservation exactly when a broken limit ended it while another call was reserved |
| `ControllerLedger.FailedRunMayHoldAReservation` | src/promptrail/controller.py:208-270 | from a new run, actions that lead to a failed run that still holds a reservation |
| `GlobalController.AgentRun.ReservedTotal` | src/promptrail/controller.py:457-461 | the loop over reservations returns their sum |
| `GlobalController.AgentRun.TakeAll` | src/promptrail/controller.py:103-342 | the run object, taking any actions one after another, ends in the state to which the ledger's run leads |
| `GlobalController.Controller.BeginAllocation` | src/promptrail/controller.py:103-116 | the first locked section issues one sequence number, or refuses and changes nothing |
| `GlobalController.Controller.CommitAllocation` | src/promptrail/controller.py:175-206 | the second locked section grants exactly the decisions that fit every hard limit, the input and the blocks as they are now, reserves what was decided, and otherwise abandons the call |
| `GlobalController.Controller.DiscardPending` | src/promptrail/controller.py:338-342 | a failed allocator call gives its pending sequence number up |
| `GlobalController.Controller.SettleCall` | src/promptrail/controller.py:208-270 | settling charges the actual cost and then fails the run if a limit is broken |
| `GlobalController.Controller.FailCall` | src/promptrail/controller.py:272-284 | failing charges the full allocation or nothing |
| `GlobalController.Controller.FinishRun` | src/promptrail/controller.py:299-332 | finishing charges what is reserved and closes the run, unless allocations are pending |
| `Pricing.AdvertisedMatchesCoordinatorIff` | src/promptrail/controller.py:394-422 | the controller's advertised cheapest cost equals the coordinator's minimum exactly when the coordinator reuses a cache, or no matching route, read plainly, is cheaper than every route as the record prices it |
| `Pricing.AdvertisedMayBeLower` | src/promptrail/controller.py:394-422 | two routes for which the advertised cost is a fifth of the coordinator's |
| `Pricing.AdvertisedMatchesCoordinator` | src/promptrail/cache.py:401-432 | they agree whenever reading a cache never costs more than plain input |
| `Pricing.RouterMatchesAdvertised` | src/promptrail/routing.py:147-163 | at full context the router's predicted cost is the advertised cost |
| `Pricing.AllocatorPicksRoutedRoute` | src/promptrail/routing.py:457-491 | for any context the provider allocator's cheapest route is the one the router priced |
| `Pricing.ValueMeaning` | src/promptrail/cache.py:401-468 | a candidate's cache value is that of its cheapest route: it is read exactly when that route is the recorded one and supports caching, and what it retains is what the read saves |
| `Pricing.SwitchMeaning` | src/promptrail/cache.py:439-459 | a candidate that does not read the recorded prefix forgoes what the first recorded route would have saved on it, or nothing without one |
| `Pricing.PlannerMatchesRouterIff` | src/promptrail/compaction.py:67-80 | the planner's estimate equals the router's input cost exactly when its cached discount is worth nothing or the route is the cached provider's and supports caching |
| `Pricing.PlannerMayEstimateLess` | src/promptrail/compaction.py:67-80 | two routes for which the planner's estimate is about half of what the router charges on the route it picked |
| `Pricing.InputCostMonotoneIff` | src/promptrail/routing.py:264-291 | on one route a shorter context costs at most as much as a longer one exactly when cutting it down keeps the discount, or the tokens saved are worth at least the discount lost |
| `Pricing.RoutedPriceMonotoneIff` | src/promptrail/routing.py:147-163 | so does the routed price exactly when both contexts keep the cached prefix or neither does, or every discounted route at the longer context is matched by some plain route at the shorter one |
| `PromptCache.ShorterContextCanCostMore` | src/promptrail/routing.py:264-291 | a conversation, observed and sent again, whose routed price rises tenfold when it is cut from 110 to 100 tokens |
| `Routing.AdmittedExactly` | src/promptrail/routing.py:126-240 | the admitted decisions are exactly those of the candidates that pass every guard, and each is feasible |
| `Routing.AdmittedIff` | src/promptrail/routing.py:126-198 | a candidate is admitted exactly when it is good and capable enough, its window holds the call, it is known to cache analysis and ranker, and its cheapest route fits the budget where the policy limits cost or latency |
| `Routing.SelectRanked` | src/promptrail/routing.py:94-252 | the ranking is a rearrangement of the admitted decisions, by descending score, own score, ascending cost and name, each score the weighted sum of five ratios; each of the four failures happens exactly under its own condition, tested in order: nothing to rank, no time left by the fastest route, scores for other models, nothing admitted |
| `Routing.BetterComesFirst` | src/promptrail/routing.py:200-252 | in a ranking, a decision no worse than another in own score, cost, latency, retained and forfeited cache value, and better in one that has weight, comes first |
| `Routing.ScoreDifference` | src/promptrail/routing.py:203-213 | two scores differ by the weighted differences of the five ratios |
| `Routing.Plan` | src/promptrail/routing.py:337-455 | planning fails exactly when preparation and margin use up a capped latency budget; it stays with the last provider exactly when the model was used last and still has a route there; otherwise it explores exactly when the cheapest route is not the guaranteed one and the window is open, listing every route once, from the routed one to the guaranteed one, and preparation, margin, window and guaranteed latency fit the budget |
| `Routing.Escalation` | src/promptrail/routing.py:412-422 | the routes between the cheapest and the guaranteed one are all the others, fastest first |
| `Routing.ExplorationWindow` | src/promptrail/routing.py:392-396 | the exploration window is the largest within the policy's fraction of the slack and its maximum |
| `Routing.GuaranteedIsSafest` | src/promptrail/routing.py:381-385 | the last route is guaranteed if any is, and of those the fastest, then the first to answer, then the first by name |
| `Compaction.PlanIsReachable` | src/promptrail/compaction.py:33-94 | a context between the reachable floor and the total is the target, and one outside is moved to the nearer end; the eligible messages can give up the whole reduction, and are the unprotected ones, cached ones among them exactly when the uncached ones fall short |
| `Compaction.ImportanceMeaning` | src/promptrail/compaction.py:81-86 | a message is as important as the last override of its block says, or else as the last block that lists it says, or else one half |
| `Compaction.PlannerKeepsCacheAsRouted` | src/promptrail/compaction.py:42-71 | with 32 kept tokens the planner keeps the cached prefix exactly when the router assumed it |
| `Compaction.Compact` | src/promptrail/compaction.py:165-255 | only eligible, unprotected messages change, only in their text, never growing; the shares they are asked for are those of water filling under their pressures; the records sum to tokens before minus after; the boundary check never fails; the target is met exactly when the records save the reduction |
| `Compaction.PressureOrders` | src/promptrail/compaction.py:191-202 | pressure is zero exactly at importance one, falls as importance rises, grows with redundancy and age, and is lower the more of the cache a rewrite would invalidate |
| `Compaction.PressureMeaning` | src/promptrail/compaction.py:194-202 | the pressure in closed form, cleared of fractions |
| `Compaction.MoreImportantGivesNoMore` | src/promptrail/compaction.py:191-320 | of two messages alike otherwise the more important is never asked for more at the same remainder, and when it comes later it gives no more in the end |
| `Compaction.RewriteMeaning` | src/promptrail/compaction.py:214-227 | a message asked for tokens keeps a text that is short enough, and else is cut to four characters for each token it may keep, or 48, beside its marker; signal lines come from tests, patches and tools only |
| `Compaction.ValidateBoundaries` | src/promptrail/compaction.py:322-335 | the check reports nothing exactly when every changed message is eligible and unprotected |
| `Compaction.OrderBySize` | src/promptrail/compaction.py:208-208 | messages are visited by descending share, then position |
| `Compaction.CompactAllKeeps` | src/promptrail/compaction.py:208-244 | whatever the shares, rewriting messages one after another keeps the boundaries and the token sums |
| `Compaction.DeliveredSharesMeetTarget` | src/promptrail/compaction.py:177-255 | when every rewritten message yields at least its requested share, the target is met |
| `CompactText.CompactIsBounded` | src/promptrail/compaction.py:257-287 | a text within its budget is unchanged; a longer one shrinks to the budget plus the marker plus one character |
| `CompactText.CompactKeepsBothEnds` | src/promptrail/compaction.py:257-287 | a shortened text is its first 45 percent, the marker, its signal lines and its last 25 percent, each stripped inwards and on a line of its own unless it is empty |
| `WaterFill.Fill` | src/promptrail/compaction.py:289-320 | the loop ends, respects every capacity, and allocates exactly the smaller of the reduction and the total capacity, whatever the pressures |
| `WaterFill.Round` | src/promptrail/compaction.py:298-320 | each round allocates something and conserves the reduction, so the no-progress exit is unreachable |
| `WaterFill.PourAllConserves` | src/promptrail/compaction.py:304-318 | a round over any order of messages conserves the reduction and exceeds no capacity |
| `WaterFill.RoundAdds` | src/promptrail/compaction.py:304-318 | a round gives each active message the smaller of its room and its share of what is left at its turn, or nothing once nothing is left |
| `WaterFill.ShareMeaning` | src/promptrail/compaction.py:302-309 | a share is the proportional part of the remainder rounded down, or one token |
| `WaterFill.LeaderGivesNoLess` | src/promptrail/compaction.py:289-320 | of two messages, the earlier one with no less room and pressure ends up giving no less |
| `WaterFill.EqualAfterRoundIff` | src/promptrail/compaction.py:304-318 | two messages alike in capacity, pressure and allocation stay alike through a round exactly when nothing is left at the earlier turn, or the later share equals the earlier one or fills all the room |
| `WaterFill.EqualMessagesEndEqualIff` | src/promptrail/compaction.py:289-320 | in the end they have given the same exactly when both gave all they had or no round told them apart |
| `WaterFill.EverythingIsGiven` | src/promptrail/compaction.py:289-320 | a reduction of at least the total capacity takes every message's whole capacity |
| `WaterFill.GenerousReductionFillsBoth` | src/promptrail/compaction.py:289-320 | a condition on the input alone: equal messages both give all they have when the later one's share would cover it even after every message before it had given its whole capacity |
| `WaterFill.EqualMessagesMayShareUnequally` | src/promptrail/compaction.py:300-319 | two messages of equal capacity and pressure that share four tokens three to one |
| `PromptCache.BuildContextBlocks` | src/promptrail/cache.py:186-264 | one pass with a count of the messages seen builds the block of every message |
| `PromptCache.BoundaryRecovered` | src/promptrail/cache.py:291-335 | the boundary read back from the blocks is the boundary proposed from the messages |
| `PromptCache.AnalysisIsWellFormed` | src/promptrail/cache.py:85-184 | an analysis describes its messages and offers only unprotected ones for compaction |
| `PromptCache.AnalysisOffers` | src/promptrail/cache.py:337-373 | exactly the instructions, the latest user turn and messages with an unanswered tool call are protected, and exactly the other long enough, plain, nonblank texts of assistants and tools are offered |
| `PromptCache.OfferedPrefix` | src/promptrail/cache.py:315-335 | the offered prefix ends before the latest user turn, or after the leading instructions without one, and its hash covers it and the tools |
| `PromptCache.AnalysisReports` | src/promptrail/cache.py:101-184 | messages are cached exactly as far as a matching record that holds tokens reaches; a block is cached when it holds one of them, at its part of the record's tokens |
| `PromptCache.BlockMeaning` | src/promptrail/cache.py:186-264 | a block's kind, age, redundancy and immutability in terms of roles, of the messages after it and of equal messages before it |
| `PromptCache.ObservedRecordRemembersCall` | src/promptrail/cache.py:266-289 | a stored hash is always that of the first messages, and the tools, of the call observed |
| `PromptCache.RematchesIffLiteralPrefix` | src/promptrail/cache.py:101-121 | with an injective hash a record matches exactly a literal repetition of its prefix and tools |
| `PromptCache.CachedTokensNeedLiteralPrefix` | src/promptrail/cache.py:101-184 | cached tokens are credited only to an unexpired literal prefix match |
| `PromptCache.GrownConversationRematches` | src/promptrail/cache.py:101-137 | a conversation that only grew rematches its record until it expires |
| `PromptCache.PromptCacheCoordinator.AnalyzeCall` | src/promptrail/cache.py:85-184 | analysing forgets an expired record and changes nothing else |
| `PromptCache.PromptCacheCoordinator.ObserveCall` | src/promptrail/cache.py:266-289 | observing replaces the session's record only on reported cache use, and the new record is that of the observed call |
| `UsageAccounting.EveryRunConserves` | frontend/lerouter_modal_api.py:5995-6303 | over any run of committed, lost, aborted and duplicate attempts the budget stays nonnegative, remaining plus spent is constant, the price stays in bounds, and spending is the sum of one debit for each counted call |
| `UsageAccounting.EachCallIsDebitedOnce` | frontend/lerouter_modal_api.py:5995-6303 | a routing call is debited at most once, exactly when a counted log of it appears |
| `UsageAccounting.RetryIsIdempotent` | frontend/lerouter_modal_api.py:5898-5992 | retrying a committed request changes nothing and returns the logged facts exactly while the accounting mode is unchanged; a retry reported as a duplicate goes by the mode when it reads the budget |
| `UsageAccounting.ModeChangeRefusesRetry` | frontend/lerouter_modal_api.py:5898-5992 | in any store an uncounted request, retried after the mode changed, is refused |
| `UsageAccounting.AllottedFitsBudget` | frontend/lerouter_modal_api.py:4513-4598 | the allotted spending never exceeds the remaining budget |
| `UsageAccounting.PriceFollowsSpending` | frontend/lerouter_modal_api.py:4513-4598 | the shadow price rises with overspending, falls with underspending, and stays within its bounds |
| `UsageAccounting.UsageStore.Transact` | frontend/lerouter_modal_api.py:6105-6250 | the transaction body stores budget, user totals and log together, or nothing; a fresh counted request is debited its spending or its fee as the accounting mode says |
| `UsageAccounting.FreshRequestIsPaidFor` | frontend/lerouter_modal_api.py:6079-6250 | a fresh counted request takes from the budget what it spent, or a fee of 3 percent of it to within half of 1e-8, charges the user that fee either way, counts as a success or as a failure, and lowers the remaining weight down to zero |
| `UsageAccounting.FreshRequestMeaning` | frontend/lerouter_modal_api.py:6105-6170 | a fresh request is accepted exactly when it is not counted, or its budget holds what its mode accounts and does not learn at a negative rate |
| `UsageAccounting.LoggedRequestMeaning` | frontend/lerouter_modal_api.py:5898-5992 | a request whose call is logged is answered with that log exactly when it agrees with it in every fact, amounts to within one slack, and changes nothing |
| `UsageAccounting.UsageStore.WriteUsageLog` | frontend/lerouter_modal_api.py:5995-6303 | with other writers acting between its bounded attempts, and between the log and budget reads after a duplicate, the call as a whole is one run of attempts, and returns the reply of its last one |
| `Base64Url.DecodeUndoesEncode` | frontend/lerouter_modal_api.py:252-257 | decoding with restored padding undoes unpadded encoding for every byte string |
| `Base64Url.PaddingIsRestored` | frontend/lerouter_modal_api.py:256-257 | minus the length modulo four pad characters restore exactly what was stripped |
| `Base64Url.EncodeUsesLetters` | frontend/lerouter_modal_api.py:252-253 | encoded text holds alphabet letters only, so a token can be cut at its first full stop |
| `AccountingToken.NormalizeProfile` | frontend/lerouter_modal_api.py:260-330 | the pass over the fields that fills the profile and overwrites cache prices returns, entry by entry, what the profile specification lists |
| `AccountingToken.CachePriceMeaning` | frontend/lerouter_modal_api.py:2021-2036 | a cache price is the first one above zero among the two names in the model, the cost table, and the price list, whose single-token price counts a million times |
| `AccountingToken.SecondNormalization` | frontend/lerouter_modal_api.py:260-330 | normalising a normalised profile changes nothing exactly when its fallback cache prices are finite, and is refused otherwise |
| `AccountingToken.VerifyReturnsTheSignedClaim` | frontend/lerouter_modal_api.py:333-454 | verification returns the issued claim exactly when the token is at most 8192 characters, cache prices are finite and a workflow call has positive limits; otherwise it refuses |
| `AccountingToken.TokenIsAcceptedIff` | frontend/lerouter_modal_api.py:386-454 | any token at all is accepted exactly when it is at most 8192 characters, what follows its first full stop is the signature of what precedes it, and the signed claim has exactly the keys of its version, filled names, a positive weight, a normal profile that names its model, and positive limits for a workflow call |
| `AccountingToken.AcceptedClaimIsAsSigned` | frontend/lerouter_modal_api.py:386-454 | an accepted claim is the signed one, but for the notation of its numbers, the case of its provider and the normal form of its profile |
| `AccountingToken.TokenIsIssuedIff` | frontend/lerouter_modal_api.py:333-383 | a token is issued exactly for a request whose model is described completely and is the one named, whose weight is above zero, and none of whose names is blank |
| `AccountingToken.IssuedButNeverVerified` | frontend/lerouter_modal_api.py:333-454 | two requests, for no output tokens and with an infinite cache price, whose tokens are issued and refused by any library |
| `AccountingToken.SignedBytesOfToken` | frontend/lerouter_modal_api.py:386-406 | stripping, cutting, decoding and checking the signature give back the signed bytes |
| `AccountingToken.VerifiedProfileIsNormal` | frontend/lerouter_modal_api.py:436-454 | the profile that verification returns is its own normalisation and names the claim's model |
| `ResponsesLens.ResponsesToMessages` | demo/backend.py:1084-1135 | the loop collects one message for each readable item, with its position |
| `ResponsesLens.ItemsRead` | demo/backend.py:1084-1135 | which items are messages, calls and outputs, and what role, text and call each is read as |
| `ResponsesLens.TextsRead` | demo/backend.py:1072-1081 | the text of a list of parts is that of its text parts in order, with a line break between any two |
| `ResponsesLens.ApplyCompaction` | demo/backend.py:1205-1234 | the loop writes each changed message to the item it came from |
| `ResponsesLens.WritingBackTheViewIsIdentity` | demo/backend.py:1205-1234 | writing unchanged messages back gives the same body, for every body |
| `ResponsesLens.RereadingGivesTheCompactedView` | demo/backend.py:1072-1234 | reading the written-back body gives the compacted messages from the same places exactly when each changed message came from an item that can hold a new text |
| `ResponsesLens.SecondPartSurvives` | demo/backend.py:1217-1234 | a message in two parts, rewritten, is read back with its second part still there |
| `ResponsesLens.OnlyChangedTextIsWritten` | demo/backend.py:1205-1234 | an item none of whose messages changed is untouched, and a rewritten one keeps everything but its text |
| `ResponsesLens.StoreThenRead` | demo/backend.py:1217-1234 | a new text survives an item exactly when it is a call output without a role, or a message with text content or exactly one text part |
| `Failover.Reroute` | src/promptrail/gateway.py:279-319 | the first ranked model that is not excluded is chosen under the same budget, context and compaction, and the others that are not excluded stay; it fails for want of a model exactly when all alternatives are excluded, and otherwise exactly when the time is up |
| `Failover.Cascade` | demo/backend.py:1672-1738 | the models tried, each the first remaining one that is not cooling down, and the way the attempts end are determined: delivered, refused, broken and unable to switch each happen exactly under their own condition on the last attempt |
| `Failover.ProviderCallWithFailover` | demo/benchmark_control_plane.py:251-321 | a delivered answer, exactly when the last model tried delivers, returns a live, untouched reservation; every other path has resolved it by exactly one failure report |
| `Failover.ProxyForward` | demo/backend.py:1672-1738 | the proxy resolves the reservation exactly when the last attempt is refused, its record is written and no remaining model may be tried; in every other case it stays held |
| `Failover.BrokenConnectionStopsTheLoop` | demo/backend.py:1672-1738 | when the first connection breaks, one model was tried and the ending is one that the proxy leaves unresolved |
| `Failover.ResolveCall` | demo/backend.py:1543-1579 | reporting a failure removes the reservation and charges it in full or not at all |
| `Gateway.PromptRailGateway.PrepareCall` | src/promptrail/gateway.py:104-265 | success hands out a coherent call; with other calls acting before the allocator answers and after, the run is left as the ledger's actions say, and a refused preparation leaves nothing of its call exactly when the allocation was refused or the run is still active; undisturbed, the reservation is live and within the agent limit and a refusal leaves nothing reserved, pending or charged |
| `Gateway.CompactFor` | src/promptrail/gateway.py:167-228 | the compacted conversation meets the budget's context exactly as planned, touching only unprotected messages |
| `Gateway.WaitingMessagesAreKept` | src/promptrail/gateway.py:167-228 | a prepared call sends on unchanged the instructions, the latest user turn and every message whose tool call has no result yet |
| `Gateway.RankingIsDistinct` | src/promptrail/gateway.py:90-101 | candidates with distinct ids give a ranking without repetition |
| `Gateway.Reserve` | src/promptrail/gateway.py:149-166 | with other calls acting between them, both halves of an allocation add one reservation within the limit, or leave nothing of it |
| `Gateway.FailoverStaysCoherent` | src/promptrail/gateway.py:279-319 | after any failover the remaining models are still feasible and in order for the same budget, context and compacted conversation |
| `Gateway.PromptRailGateway.ObserveModel` | src/promptrail/gateway.py:321-362 | a new cache record always describes the messages that were sent, after compaction, and one whose cached prefix was rewritten needs a reported write |
| `Gateway.CostMeaning` | src/promptrail/gateway.py:474-497 | every input token is charged once, as read from the cache, else as written to it, else plainly, as far as each was reported |
| `Gateway.PredictedUsageCostsAtMostThePrediction` | src/promptrail/gateway.py:474-497 | a call that uses no more tokens than planned and reads at least the routed cached ones costs at most the router's prediction plus what its cache writes cost above plain input |
| `Gateway.PredictedUsageFitsTheReservation` | src/promptrail/gateway.py:474-497 | so, under a cost-capping policy, it settles within its reservation plus the slack and that surcharge |

## Left out

- Floating point: amounts are exact reals, and NaN, overflow and rounding are ignored, except the eight-decimal rounding of spending and infinite cache prices.
- Tenancy: documents are those of one user and one route, so identity comparisons and authentication are not modelled.
- Identifiers: scope and reservation ids are never empty; UUIDs and clocks are parameters; in the controller a call id is identified with the sequence number it was issued.
- Bulk scope update on finishing a run: modelled as reaching any subset of the run's active scopes.
- Request validation of the web endpoints, and of `allocate_call`'s arguments: model ranges are preconditions (`Valid`, `Admissible`).
- Prediction services, ranking scores, horizon predictions and request weights: arbitrary inputs that satisfy the validators; the formula for request weights is left out.
- Task rules: the minimum quality of a request is a parameter of the router.
- Signal lines, message importance, block names, token byte counts and hashes: function parameters; repetition of a message is equality instead of a fingerprint.
- JSON and HMAC in tokens: parameters; the round trip asks that parsing undoes rendering for the claim at hand. Characters are lower-cased one by one, lists inside profiles are not represented, and an identity outside ASCII, for which the library comparison raises, is compared like any other.
- The gateway's planner and compactor share one minimum of kept tokens, as in their default wiring.
- Usage statistics that nothing reads back (latency sums, success rates, lab counters) and the public form of a log document.
- `spent_model_latency_ms` and other snapshot statistics of the controller.
- Gateway.PromptRailGateway.PrepareCall: cancellation while an allocation thread is running is not modelled.
- WorkflowStore.Store.FinishScope: what other callers do between its check and its update is a parameter, any later consistent state; which of their actions leave a call open is `WorkflowTheorems.FinishedScopeHoldsOpenCallIff`.
- WorkflowStore.Store.FinishRun: likewise, with the states found by its two updates.
- Failover.ProxyForward: the response body that follows a delivered answer, and its settlement, are not part of the loop.
- Catalog hydration, provider wire formats, SDK event export, historical import, web sessions, terminal and browser interfaces: input and output, or easy members.
- The retrieval store of discarded context, and the text of reasons and error messages.

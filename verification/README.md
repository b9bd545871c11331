# Money, quota and routing of the hosted scheduler: a verified model

This project models the parts of the repository that decide over money, provider quota, routing and scheduling, and
proves what those parts promise. It is written in Dafny 4.11; `dafny verify dfyconfig.toml` checks all of it.

Each SQL transaction is one atomic step and the steps of all workers interleave freely. Where the source updates rows or
fields in place there is a class whose methods are proved equal to functions of the old state, and the theorems are
about those functions and about every run of them. Where a promise turned out false of the code, the code is kept, a
lemma gives a concrete run that breaks it, and another proves exactly when it holds.

| files | what they model |
|---|---|
| `Common.dfy` | optional values, results, safe integers |
| `Pricing.dfy`, `PaidKeys.dfy` | prices, admission and classification of paid calls; the key namespaces |
| `Ledger.dfy`, `LedgerProofs.dfy` | the credit ledger and its transactions; conservation |
| `PaidCalls.dfy`, `PaidTheorems.dfy`, `PaidProvider.dfy` | paid calls across workers, crashes, the provider and recovery |
| `Capacity.dfy`, `CapacityProofs.dfy`, `WaiterClaim.dfy` | the token bucket with debt, leases and one waiter claim |
| `RouteLeases.dfy`, `RouteChain.dfy`, `Route.dfy`, `BenchGuard.dfy` | the two leases of a call, the chain, the routed decision, the bench cap |
| `HttpCompletion.dfy`, `HttpProofs.dfy` | the completion observer |
| `CanonicalJson.dfy`, `CanonicalProofs.dfy`, `ContentHash.dfy` | canonical JSON and the pre-image of the revision digest |
| `PublicEgress.dfy`, `EgressV4.dfy`, `EgressV6.dfy` | the address classifier |
| `Claiming.dfy`, `Scheduler.dfy`, `PhaseGrid.dfy` | tenant-fair claiming, the poll loop, the phase grid |
| `CapitalSizing.dfy`, `CapitalProofs.dfy`, `CapitalBook.dfy` | capital sizing, its validator, the reconciled book |

Every lemma switches automatic induction off, so that each proof is the one that is written down.

Findings, each with the lemma that shows it and the one that says exactly when the promise holds:

- The rate bound over windows fails when usage above a reserve is posted to a bucket whose unclamped refill has already
  passed its cap (`CapacityProofs.LateDebtBreaksWindows`); it holds for a run exactly when no such late debt is posted
  (`CapacityProofs.WindowsExactly`).
- An owner's turn can be lost when a lease that expired after the purge of the denial is released and clamps the stored
  tokens (`WaiterClaim.LeftoverLeaseLosesTheTurn`); it is kept exactly when no leftover lease can do that
  (`WaiterClaim.OwnerTurnExactly`).
- A retry hint falls short when the reserve and what is owed to another claim do not fit under the requester's cap
  (`CapacityProofs.HintFallsShort`), and only then (`CapacityProofs.HintIsSound`).
- A balance goes below zero when a top-up is reversed after it was spent (`PaidTheorems.ReversalCanOverdraw`); it stays
  above exactly when each reversal is covered by the balance it finds (`PaidTheorems.BalanceHoldsExactly`).
- Provider calls of a bench decision that throws are not counted (`BenchGuard.ThrownCallsEscapeTheCap`); the cap covers
  the calls really made exactly when none has been lost that way (`BenchGuard.CapHoldsExactly`).
- A second matched send that fails hides a delivered response (`HttpProofs.SecondSendHidesFirst`); a response is reported
  exactly when the last write of its record is a start (`HttpProofs.FinishedReportsLastWrite`).
- A sized futures entry can be refused when its fee is rounded up to the cent (`CapitalProofs.RoundedFeeRefused`);
  `CapitalProofs.SizedFuturesExactly` says when it is accepted.
- `[undefined]` and `[]` have one canonical text (`CanonicalProofs.UndefinedElementVanishes`), and beyond key
  order and undefined members nothing else is confused (`CanonicalProofs.TextIsExact`).
- A newline in a provider or model name lets two configurations share a digest, and only that does
  (`ContentHash.NewlineMakesTwins`).

## Model

| member | source | states |
|---|---|---|
| Pricing.RateSumIsInvoice | packages/scheduler/src/paidBrain.ts:220-264 | The conditional token sum succeeds exactly when every count is a finite nonnegative number and every line that charges something has a published rate; it is then the total of a five-line invoice (input, output, cache reads, 5-minute writes, every other write at the 1-hour rate). |
| Pricing.PricingIsExact | packages/scheduler/src/paidBrain.ts:238-280 | A price is produced exactly when nothing has to be guessed and the product stays a safe integer; total and provider cost are the exact invoice rounded up once each, and the invoice bills every reported token once. |
| Pricing.NeverBelowProviderCost | packages/scheduler/src/paidBrain.ts:269-280 | The owner is never charged less than the provider cost, nor less than zero. |
| Pricing.BoundedUsageFitsReserve | packages/scheduler/src/paidBrain.ts:285-297 | Usage inside the input and output bounds and without cache tokens always prices, and never above the reserve. |
| PaidKeys.ReserveKeyInjective | packages/scheduler/src/paidBrain.ts:459-470 | A reservation key is accepted only for well-formed cycle keys and names one agent and one cycle. |
| PaidKeys.KeysAreDistinct | packages/scheduler/src/paidBrain.ts:462-474 | Reserve, release and debit keys of any two reservations never meet, and each derived key determines its reservation. |
| Ledger.CreditStore.ReservePaidCall | packages/scheduler/src/db.ts:507-560 | The transaction statement by statement: position read, admission, ledger row, call row; any conflict or unsafe sum rolls everything back. Equal to the function the theorems are about. |
| Ledger.CreditStore.MarkPaidCallDispatched | packages/scheduler/src/db.ts:565-579 | Dispatch moves only a reserved call, and reports whether it did. |
| Ledger.CreditStore.RecordPaidCallResult | packages/scheduler/src/db.ts:581-611 | A result is recorded only on a dispatched call; a call that was not made goes back to reserved. |
| Ledger.CreditStore.FinalizePaidCall | packages/scheduler/src/db.ts:643-788 | Release, debit with the excess written off, or mark uncertain, in both modes, with the fifteen-minute rule of recovery. |
| LedgerProofs.CallConservation | packages/scheduler/src/db.ts:507-560 | In every state that keeps the invariant one call’s rows sum to minus what it holds: minus the worst case while open or uncertain, zero when released, minus a debit within the reserve when finalized. |
| LedgerProofs.SettleStep | packages/scheduler/src/db.ts:733-782 | Settling an answered call releases its reserve and charges the smaller of price and reserve; above the reserve it ends uncertain, otherwise finalized. |
| LedgerProofs.FinalizeKeepsInv | packages/scheduler/src/db.ts:643-788 | Finalising any call in any mode keeps the ledger invariant of every call. |
| LedgerProofs.ReserveKeepsInv | packages/scheduler/src/db.ts:507-560 | Reserving keeps the ledger invariant, the new call included. |
| LedgerProofs.FinalizeConserves | packages/scheduler/src/db.ts:643-788 | Finalising keeps each owner’s balance equal to backend credits minus the weight of the owner’s calls, and never lowers a balance. |
| PaidCalls.StepKeeps | packages/scheduler/src/runtime.ts:801-978 | Every step of any worker, the provider, recovery, the backend or a crash keeps the whole-system invariant. |
| PaidCalls.DispatchUpdates | packages/scheduler/src/db.ts:565-579 | Dispatching a reserved call is safe because no worker can hold its key: a worker that did would have made the call in flight already. |
| PaidTheorems.LedgerConservation | packages/scheduler/src/db.ts:507-788 | In every state reached by any interleaving, each call’s rows sum to what its status says. |
| PaidTheorems.BalanceAndCap | packages/scheduler/src/db.ts:452-484 | After any run an owner’s balance is credits minus call weights, is not negative except by what reversals took back, and no agent’s month spend exceeds the cap of its latest admitted reservation. |
| PaidTheorems.BalanceHoldsExactly | packages/scheduler/src/db.ts:452-484 | Over any run an owner’s balance is never below zero if and only if each reversal takes back at most the balance it finds. |
| PaidTheorems.ReversalCanOverdraw | packages/scheduler/src/db.ts:452-484 | The exception is real: for every amount, a top-up, an admitted reservation that spends all of it, and the reversal of the top-up end with minus that amount. |
| PaidTheorems.AtMostOneRequest | packages/scheduler/src/runtime.ts:812-874 | At most one provider request per reservation; a released call was never sent or was rejected with a known status; only usage the provider reported is charged, also for a call charged its whole reserve and left uncertain. |
| PaidTheorems.FinalizeTwice | packages/scheduler/src/db.ts:643-788 | Once a call is finalised its row and the sum of its ledger rows stay as they are through any later run, after which finalising it again, in either mode and at any time, changes nothing. |
| PaidTheorems.ReserveTwice | packages/scheduler/src/db.ts:507-560 | After a granted reservation and any later run, a request under the same key, whoever asks, is refused or rolled back and changes nothing. |
| PaidTheorems.UncertainStopsOwner | packages/scheduler/src/paidBrain.ts:424-448 | Once an owner has an uncertain call, no run admits another call of that owner. No timing is assumed. |
| PaidTheorems.CycleEndOutcome | packages/scheduler/src/db.ts:643-788 | At cycle end a call is debited exactly when it was answered with usage priced within its reserve, released exactly when reserved or rejected, and is never left open. |
| PaidTheorems.BoundedAnswerIsDebited | packages/scheduler/src/paidBrain.ts:285-297 | An answer within the reserve’s token bounds always finalises as debited. |
| PaidTheorems.RecoveryAgrees | packages/scheduler/src/db.ts:696-786 | Recovery does exactly what the end of the cycle would, or leaves the call open. |
| PaidTheorems.UnlockedStepsMoveNothing | packages/scheduler/src/db.ts:565-611 | The steps that take no owner lock change neither the ledger nor any month’s spend. |
| PaidProvider.PaidCallProvider.Decide | packages/scheduler/src/runtime.ts:812-874 | A paid decision is a run of the shared machine: its own steps in program order with arbitrary steps of others between them; the provider is asked only after an acknowledged dispatch, one result is noted unless the inner provider throws, and an answer that says no request was made is recorded as such. |
| PaidProvider.RecoverStale | packages/scheduler/src/runtime.ts:942-968 | One recovery pass finalises every candidate or counts it failed; no failure stops the others. |
| PaidProvider.AlertUncertain | packages/scheduler/src/runtime.ts:969-977 | Each uncertain call is alerted once per process. |
| Capacity.Check | packages/scheduler/src/capacity.ts:60-112 | A limit that passes the checks is usable: rates, slots and reserve are at least one, and the cap covers both the reserve and the rate. |
| Capacity.ProviderBucket.ReserveProviderCapacity | packages/scheduler/src/capacity.ts:73-313 | Upsert, purge, then one locked decision: refill, owed tokens, denial reasons, admission with its lease, or a denial that may leave a claim. |
| Capacity.ProviderBucket.ReleaseProviderCapacity | packages/scheduler/src/capacity.ts:426-484 | A lease is deleted once; usage below or above the reserve is refunded or owed; the claimant’s turn ends only when tokens were used. |
| Capacity.ProviderBucket.ReleaseOwnerClaim | packages/scheduler/src/capacity.ts:319-331 | Only the claimant’s own claim is cleared. |
| CapacityProofs.LongRunRate | packages/scheduler/src/capacity.ts:117-223 | At every admission, all tokens charged since the bucket was created (reported usage for reconciled leases, reserves otherwise) are at most the rate times the elapsed time, whatever refunds, clamping and debt came before. |
| CapacityProofs.BurstFromLastRefill | packages/scheduler/src/capacity.ts:159-223 | From any reached state to a later admission the net charge is at most what the bucket held, so at most the cap, plus the refill since it was last brought up to date. |
| CapacityProofs.ReleaseKeepsLevelExactly | packages/scheduler/src/capacity.ts:426-475 | A release keeps level plus charges from growing exactly when it posts no late debt, whatever limits came before. |
| CapacityProofs.WindowRate | packages/scheduler/src/capacity.ts:159-223 | Over any window ending in an admission, net charges are at most the cap plus the rate times the window, when no late debt is posted in it. |
| CapacityProofs.WindowsExactly | packages/scheduler/src/capacity.ts:159-223 | The exact condition: in a run no admission that could be made at any point breaks the bound of any window if and only if the run posts no late debt. |
| CapacityProofs.LateDebtBreaks | packages/scheduler/src/capacity.ts:426-475 | After any late debt an admission at the first whole level of the bucket breaks the bound of the window that starts at the debt. |
| CapacityProofs.LateDebtBreaksWindows | packages/scheduler/src/capacity.ts:426-475 | Without that condition the window bound is false: a concrete run that charges 600 tokens in an empty window of a bucket capped at 100. |
| CapacityProofs.LiveLeasesBounded | packages/scheduler/src/capacity.ts:141-208 | Over any run live leases never exceed the concurrency limit. |
| CapacityProofs.LeaseReconcilesOnce | packages/scheduler/src/capacity.ts:441-475 | After a lease is released and any further run of steps, releasing it again changes neither the row nor the charge, whatever it reports. |
| CapacityProofs.HintIsSound | packages/scheduler/src/capacity.ts:251-295 | A denied requester that returns at its hint, nothing having happened in between, passes the request test, and passes the token test exactly when its reserve and what it owes fit under its cap together. |
| CapacityProofs.HintFallsShort | packages/scheduler/src/capacity.ts:251-295 | When they do not fit, a concrete requester that waits out its hint is denied for tokens again. |
| WaiterClaim.AdmissionLeavesNeed | packages/scheduler/src/capacity.ts:187-208 | An admission of anyone but the claimant leaves at least the claimant’s need in the bucket. |
| WaiterClaim.ClaimKeepsTurn | packages/scheduler/src/capacity.ts:195-249 | A requester denied for tokens with a claim is not denied for tokens when it returns after its hint and before its claim expires, for every sibling run that does not report above its reserve nor clamp stored tokens away. |
| WaiterClaim.OwnerTurnExactly | packages/scheduler/src/capacity.ts:447-473 | In owner buckets, with any number of slots and with separate clock readings for purge and check, the turn is kept against every sibling run if and only if no other lease still in the table could clamp the stored tokens below the claimant’s need. |
| WaiterClaim.OwnerLimitGivesOwnerAsk | packages/scheduler/src/sharedPolicy.ts:20-62 | A checked limit with a waiter whose burst is its reserve, as the owner policy sets it, is one the owner theorems speak of. |
| WaiterClaim.OwnerClaimKeepsTurn | packages/scheduler/src/sharedPolicy.ts:20-62 | The turn is kept when at most the rate is stored at the denial and, with the one slot of an owner bucket, whenever no lease expired between the purge and the check of the denial. |
| WaiterClaim.ClaimNeverMoves | packages/scheduler/src/capacity.ts:224-249 | Over any run that finds it live, a claim keeps its holder, age and expiry, and it ends no later than the time to live that was asked when it was taken. |
| WaiterClaim.LeftoverLeaseLosesTheTurn | packages/scheduler/src/capacity.ts:447-473 | The exception is real with an owner limit and one slot: a lease that expires after the purge of the denial clamps the stored tokens when it is released, and the claimant is denied again. |
| RouteLeases.LeaseHooks.AcquireLeases | packages/scheduler/src/runtime.ts:494-541 | Cooldown check, owner reservation, key reservation, and the owner’s lease given back on refusal or error, under any database faults. |
| RouteLeases.LeaseHooks.ReleaseLeases | packages/scheduler/src/runtime.ts:570-603 | Both leases are released with one charge, and an error on the first does not keep the second. |
| RouteLeases.KeyRefusalCostsOwnerNothing | packages/scheduler/src/runtime.ts:522-533 | When the key refuses, the owner’s bucket offers at every later instant exactly what it would have offered had it never been asked. |
| RouteLeases.AdmitThenGiveBack | packages/scheduler/src/capacity.ts:426-475 | Admitting and giving the lease back unused is invisible: same tokens, requests, leases and live claim at every later instant. |
| RouteLeases.OwnerLeaseHeldExactly | packages/scheduler/src/runtime.ts:505-541 | After an acquisition the owner’s lease is held exactly when the call was granted with it, its own commit was lost on the caller, or every attempt to give it back was lost. |
| RouteLeases.ChargedExactly | packages/scheduler/src/runtime.ts:578-595 | A used lease is charged its reported usage, nothing for an official rejection before inference, and its full reserve otherwise. |
| RouteChain.ResolveRouteChain | packages/scheduler/src/route.ts:263-324 | The pushes and the de-duplicating filter build the listed routes, first occurrences only. |
| RouteChain.ChainFacts | packages/scheduler/src/route.ts:263-324 | A chain starts with the configured route and repeats none; pinned and own-key agents have no other route; shared fallbacks spend the configured key; the backup is there exactly when allowed. |
| RouteChain.FirstsExact | packages/scheduler/src/route.ts:315-323 | The filter keeps every listed route once. |
| Route.DisciplineMeans | packages/scheduler/src/route.ts:616-664 | A trace that follows the lease discipline answers every grant at once by an unused release, or by one request and its release, and requests nothing outside a grant. |
| Route.Admit | packages/scheduler/src/route.ts:456-580 | Asking for capacity with at most one bounded owner wait: a grant is the one event it leaves, a refusal or a throw leaves none, no provider is asked, the wait counter is given back as it was taken, and a gate found closed after the wait comes back as the owner denial it was. |
| Route.Dispatch | packages/scheduler/src/route.ts:616-664 | Under a grant: one request if time and the operator gate allow, and exactly one release on every path. |
| Route.Refused | packages/scheduler/src/route.ts:582-614 | A local refusal is one deferred attempt without a request, blocks its key or its route, and ends the cycle when it is the owner’s. |
| Route.Concluded | packages/scheduler/src/route.ts:665-772 | An answer is one attempt whose usage is added; it decides exactly when the decision parser accepts it, and otherwise blocks what its failure class says. |
| Route.Decide | packages/scheduler/src/route.ts:383-790 | The loop ends although its list grows; it records at most two attempts, all on routes of the chain and none again on a route that met a capacity limit, asks a provider only under a grant, releases every grant once, reports the sum of the usage, and is deferred only when every attempt was capacity-class; a throwing hook ends it with the discipline kept so far. |
| BenchGuard.RunStopsExactly | packages/scheduler/src/benchGuard.ts:69-83 | A result stops the run exactly when some attempt met provider capacity or a cooldown. |
| BenchGuard.Guard.AccountDecision | packages/scheduler/src/benchGuard.ts:182-192 | Counting, abort reasons and the denial streak after one decision, in the order of the source. |
| BenchGuard.CallsStayUnderCap | packages/scheduler/src/benchGuard.ts:129-193 | For any interleaving of submissions, aborts and gate checks the counted calls never exceed the cap, and the branch that reports an excess is unreachable; the calls made obey the cap when every decision returns. |
| BenchGuard.AbortIsFinal | packages/scheduler/src/benchGuard.ts:129-169 | After any abort no further inner decision starts. |
| BenchGuard.ThrownCallsEscapeTheCap | packages/scheduler/src/benchGuard.ts:174-182 | That a decision returns is needed: with a cap of two, a run in which one decision throws makes four calls. |
| BenchGuard.CapHoldsExactly | packages/scheduler/src/benchGuard.ts:129-193 | The exact condition: while decisions are still admitted and no deadline is set, the calls really made stay under the cap in every continuation without further loss if and only if no calls have been lost to a decision that threw. |
| HttpCompletion.CompletionObserver.EmitOnce | packages/mcp-trading/src/httpCompletion.ts:142-178 | One batch, from the records or one empty record, or nothing if it is too early or too late. |
| HttpCompletion.CompletionObserver.OnAbort | packages/mcp-trading/src/httpCompletion.ts:183-199 | Every request record is withdrawn before emission. |
| HttpCompletion.CompletionObserver.Send | packages/mcp-trading/src/httpCompletion.ts:245-271 | A final response is attributed to a pending record only when its id is unambiguous. |
| HttpProofs.MatchIsUnambiguous | packages/mcp-trading/src/httpCompletion.ts:204-250 | A response is matched to message i exactly when i is the only request so far with that id. |
| HttpProofs.ReportsOnce | packages/mcp-trading/src/httpCompletion.ts:134-283 | After any events at most one batch is out, and it is out exactly when the delivery is known and is aborted or has no send in flight; it has max(1, messages) records, each about its own message. |
| HttpProofs.AbortedReportsNothing | packages/mcp-trading/src/httpCompletion.ts:183-199 | An aborted delivery reports every request as unanswered. |
| HttpProofs.FinishedReportsLastWrite | packages/mcp-trading/src/httpCompletion.ts:251-283 | In a finished delivery the record of a message is its last write: a response is reported if and only if the last thing that happened to it was a matched send starting, and then it is that send’s answer. |
| HttpProofs.FinishedReportsSends | packages/mcp-trading/src/httpCompletion.ts:251-283 | In a finished delivery a response is reported only if a send of it completed; for a request with exactly one matched send the report is that send’s answer if and only if it completed. |
| HttpProofs.SecondSendHidesFirst | packages/mcp-trading/src/httpCompletion.ts:271-282 | A delivered response need not be reported: a second, failing send under the same id is the last write. |
| HttpProofs.BatchIsFinal | packages/mcp-trading/src/httpCompletion.ts:142-178 | After emission no event changes the batch or adds a message. |
| CanonicalProofs.QuotedSplit | packages/scheduler/src/houseRollout.ts:61-72 | A string literal is a prefix of no other: escapes, surrogate pairs and lone surrogates included. |
| CanonicalProofs.TextIsExact | packages/scheduler/src/houseRollout.ts:61-72 | Two values have the same canonical text if and only if they are equal up to key order, undefined members, and the array whose only element is undefined. |
| CanonicalProofs.UndefinedElementVanishes | packages/scheduler/src/houseRollout.ts:61-66 | That array is confused with the empty one, so it has to be named. |
| CanonicalProofs.AscendingUnique | packages/scheduler/src/houseRollout.ts:67-71 | Sorting by key leaves one order: ascending lists with the same keys list them alike. |
| ContentHash.RenderOneLine | packages/scheduler/src/houseRollout.ts:61-72 | The canonical text of a value holds no newline. |
| ContentHash.CanonicalIsExact | packages/scheduler/src/houseRollout.ts:82-91 | For one-line provider and model names the joined text is the same if and only if the configurations are the same. |
| ContentHash.NewlineMakesTwins | packages/scheduler/src/houseRollout.ts:82-91 | A configuration shares its text with one that differs only in the two names if and only if one of its names holds a newline. |
| EgressV4.V4ToIntIsNumber | packages/scheduler/src/publicEgress.ts:25-26 | The signed 32-bit shifts and the final unsigned shift read the dotted text as the number it stands for. |
| EgressV4.BlockIsInterval | packages/scheduler/src/publicEgress.ts:28-52 | For each listed block the bitmask test is membership in its interval of addresses. |
| EgressV4.V4Verdict | packages/scheduler/src/publicEgress.ts:46-52 | A dotted address is public exactly when no octet rule of the special-purpose list matches. |
| EgressV6.ReadsBack | packages/scheduler/src/publicEgress.ts:55-77 | Every text form of section 2.2 of RFC 4291 (any case, any leading zeros, a gap for any missing fields, a dotted tail) is expanded to the groups it stands for. |
| EgressV6.AnyRunReadsBack | packages/scheduler/src/publicEgress.ts:55-77 | For any eight groups and any run of zeros among them the compressed text reads back as the groups. |
| EgressV6.V6Verdict | packages/scheduler/src/publicEgress.ts:79-104 | The verdict is the embedded address’s for mapped, compatible and NAT64 addresses, and otherwise the allowlist with its four exceptions. |
| EgressV6.EmbeddedVerdict | packages/scheduler/src/publicEgress.ts:81-91 | An IPv4 address written inside such an address gets the verdict it has on its own. |
| Claiming.Fleet.ClaimDueAgents | packages/scheduler/src/db.ts:898-990 | The ranked, limited batch is returned and exactly its rows are locked out. |
| Claiming.BatchIsFirst | packages/scheduler/src/db.ts:933-965 | The batch is the limit’s worth of available due agents that rank first, none twice. |
| Claiming.BatchIsFair | packages/scheduler/src/db.ts:933-965 | With no row locked elsewhere the batch is max-min fair: while a tenant has a due agent left behind, no tenant has more than one pick beyond its. |
| Claiming.OldestFirst | packages/scheduler/src/db.ts:934-942 | Within a tenant the picks are its oldest due agents. |
| Claiming.NotClaimedAgain | packages/scheduler/src/db.ts:971-982 | A claimed agent that nobody reschedules is not claimed again by any scheduler until its cadence or the run lock has passed, whichever is longer. |
| Scheduler.Loop.BeatNow | packages/scheduler/src/scheduler.ts:111-122 | The heartbeat becomes the present or the oldest start still running. |
| Scheduler.StepKeeps | packages/scheduler/src/scheduler.ts:101-202 | Beats, completions at any point, claims in flight and launches keep the slot bound, the distinct agents and the heartbeat bound. |
| Scheduler.RowsFit | packages/scheduler/src/scheduler.ts:177-195 | The rows a claim brings fit the slots that were free when it left and name no agent that was running then. |
| Scheduler.SlotsAndHeartbeat | packages/scheduler/src/scheduler.ts:101-195 | Over any run: at most maxConcurrent runs in flight, no agent twice, a heartbeat that never goes back and never passes the start of a run still in flight. |
| Scheduler.BeatIsExact | packages/scheduler/src/scheduler.ts:111-122 | A beat sets the present when nothing runs, otherwise the start of a run in flight that none precedes. |
| Scheduler.HungRunPins | packages/scheduler/src/scheduler.ts:93-125 | A run that hangs pins the heartbeat at or below its own start for as long as it hangs. |
| PhaseGrid.HashInjective | packages/scheduler/src/db.ts:1393-1404 | Two ids hash alike exactly when they agree modulo 2^32, so ids below 2^32 only when equal. |
| PhaseGrid.PhaseSpread | packages/scheduler/src/db.ts:1396-1404 | The phase lies inside the slot, and two agents on one cadence share it only when their hashes are within one second’s worth. |
| PhaseGrid.NextRunIsLeast | packages/scheduler/src/db.ts:1408-1418 | The next due time is the least instant of the agent’s grid after now, and at most one slot away. |
| PhaseGrid.NextRunInOneCadence | packages/scheduler/src/db.ts:1408-1418 | On the grid or off it, the next due time is after now and at most one cadence away. |
| PhaseGrid.SlotsAreApart | packages/scheduler/src/db.ts:1408-1418 | A cycle that ends within its slot is due again exactly one slot later. |
| PhaseGrid.PoolAtTarget | packages/scheduler/src/db.ts:1349-1363 | The cadence floor keeps the whole shared pool at or below its target rate, however many agents share it. |
| CapitalProofs.SizedFuturesPasses | packages/mcp-trading/src/agent/capitalSizing.ts:189-373 | A sized futures entry whose quote fills at the mark, with cost fields that agree to the cent and stay inside the fee buffer, passes every check of the validator under the same budget, except the reward-to-risk check, which it fails exactly when its own target is too near. |
| CapitalProofs.SizedFuturesExactly | packages/mcp-trading/src/agent/capitalSizing.ts:320-402 | When rounding lifts the cost fields above the buffer, the stop risk is at most a cent above its budget and the outlay at most two above the room, and the entry is accepted if and only if neither is above by more than the epsilon and the target is far enough. |
| CapitalProofs.RoundedFeeRefused | packages/mcp-trading/src/agent/capitalSizing.ts:320-402 | That happens: a concrete sized entry is refused because its fee was rounded up to the cent. |
| CapitalProofs.SizedPmPasses | packages/mcp-trading/src/agent/capitalSizing.ts:229-238 | A sized prediction-market stake passes every check. |
| CapitalProofs.MarginFits | packages/mcp-trading/src/agent/capitalSizing.ts:250-262 | The sized margin fits the ticket, the stop-risk budget, the open-margin limit and the room left after its fee. |
| CapitalProofs.StopRiskBound | packages/mcp-trading/src/agent/capitalSizing.ts:332-340 | At the mark the validator’s stop risk is at most the sizer’s risk per margin times the margin, plus whatever the quoted fee exceeds the buffer’s by. |
| CapitalProofs.ChargedIsSpent | packages/mcp-trading/src/agent/capitalSizing.ts:351-402 | What the validator charges an accepted action is what the runner takes from its budget. |
| CapitalProofs.AcceptedStayInPolicy | packages/mcp-trading/src/agent/capitalSizing.ts:351-402 | However many actions are accepted in a cycle, committed capital and the cash reserve stay within their shares up to a single 1e-8, and cash only becomes committed capital. |
| CapitalBook.ScanRows | packages/mcp-trading/src/agent/capitalSizing.ts:124-163 | The loop over listed positions, with the reason of the first row that cannot be read. |
| CapitalBook.ScanTotalsOwnRows | packages/mcp-trading/src/agent/capitalSizing.ts:139-160 | The scan succeeds exactly on readable lists and totals the own open rows and nothing else. |
| CapitalBook.ReadyBookAddsUp | packages/mcp-trading/src/agent/capitalSizing.ts:71-170 | In a ready book each venue’s collateral reconciles with its bucket to the cent, equity is the total lowered by own losses only, and spendable plus committed never exceed the total by more than the cent. |
| CapitalBook.OtherRowsIrrelevant | packages/mcp-trading/src/agent/capitalSizing.ts:149-154 | Rows of other wallets and closed rows change nothing. |

## Left out

- Floating point: money and token counts of the ledger are integers; bucket levels, prices, mUSD and seconds are reals.
  Rounding of doubles and of database timestamps is not modelled.
- CapacityProofs.WindowsExactly: for buckets without a provider cooldown, under which the admission that would break the
  bound may come too late (`WindowRate` holds with one as well), and for windows that start no earlier than the last refill.
- WaiterClaim.OwnerTurnExactly: releases that report above a sibling's reserve are excluded, as their debt is the
  claimant's to wait for; requests of others come with the owner's limit.
- CapacityProofs.HintIsSound: nothing happens between the denial and the return, and for a requester that owes, the other
  claim is still live.
- Route.Decide: `deferred` of a provider's own answer is taken as its contract says, that no request was made; error texts,
  reasons, model attribution, latencies and the compact prompt are not modelled.
- Route.Decide and Route.Admit: diagnostics events of owner waits are left out.
- RouteChain.ResolveRouteChain: the profile label and the model names are data; the NUL-joined key is compared part by part.
- HttpCompletion: timestamps, the credential flag and the logger are left out; an unknown tool and no tool are both None.
- CanonicalJson: a number is its decimal text, so that 0 and -0 are one number, and values outside JSON (functions, dates,
  NaN) are left out.
- ContentHash: the digest is taken to be whatever the joined text determines. It is computed over UTF-8 bytes, in which
  every lone surrogate of a name or of the prose becomes one replacement character; texts that differ only there are told
  apart here.
- PublicEgress: the platform's literal check comes first, so texts that are not addresses, signs and prefixes that
  `parseInt` would skip, and lower-casing outside ASCII are not modelled. DNS, redirects and the fetch itself are left out.
- Claiming: SQL is modelled by its result; rows locked or changed by others are a parameter.
- Scheduler: the rate budgets, revival, recovery timing, log lines and the final drain are left out; a clock that never goes
  back is assumed, and so it is for the buckets.
- PhaseGrid: ids are positive and the product fits the database's integers.
- CapitalSizing: symbols are compared after case folding; evidence and adjustment records beside the sized action are
  left out, and so is the runner around the budget.
- PaidCalls: hashes are injective, lease ids and cycle keys fresh where the source draws them at random; the backend may
  add any credit, refund, restore or reversal row under its lock. Reconciling an uncertain call by hand is not modelled.
- PaidProvider: an answer that classifies as not called is taken at its word that no request was made, and a thrown error
  is taken to come after the request went out.
- PaidCalls: price rows, catalogue dates and the parsing of an agent's paid-brain settings are data.
- Capacity: provider and route cooldown rows beyond the bucket's own are left out, and an agent's presence on the shared
  pool is a parameter.
- BenchGuard.CapHoldsExactly: a deadline is left out of the condition, since it may end the run before the cap is reached.
- BenchGuard: the sleep between decisions lasts at least as long as asked; option parsing is left out.
- House rollout beyond its canonical text: carrying spec paths, revision rows and plans.
- Transport, prompts, encryption, the API clients, tool registration, examples and the command line.

# Money and delivery in the marketplace, verified

This project models the parts of the marketplace that move money and decide on delivery, and proves what they
keep over every run:

- provider liquidity: settlement bindings, one pool per provider, reservations, and the provisioner that opens
  payment channels (`Settlement`, `SettlementRuns`, `Overlaps`, `ActiveBindings`, `DeskEffects`, `DeskRuns`, `Fnn`,
  `Supply`);
- orders and milestones, from the single call to whole lives of an order (`Workflow`, `LiveOrders`, `OrderRuns`,
  `OrderMoney`, `OrderEffects`, `Disputes`);
- requests for quotes, bids, awards, orders, outages and the funding gates as one platform (`Market`, `Platform`,
  `PlatformRuns`, `MarketRuns`, `BidOrigins`, `DisputeRecords`, `Funding`, and the application object in
  `MarketplaceApp`);
- carrier callbacks: the event ledger with its shared objects, the job service, and the gateway in front of both
  (`EventLedger`, `CarrierService`, `JobEffects`, `Callbacks`, `CallbackEffects`, `GatewayRuns`, `CallbackServer`);
- four algorithms: bit regrouping and the Bech32 checksum, Base58, the fixed-window rate limiter, and shell quoting
  (`BitRegroup`, `Bech32`, `Bech32Numbers`, `Base58`, `RateLimit`, `ShellQuote`, with arithmetic in `Radix`).

Where the program changes an object in place, the model has a class whose methods work the same way, and each method
is proved to do what a function on values says; the theorems are about those functions and about runs built from them.
Run theorems speak of every sequence of events: those about the whole system start from the empty one, those about
one order from any fresh order, and those about what lasts from any state.

How the pieces fit:

- `OrderEffects`, `DeskEffects`, `JobEffects`, `CallbackEffects`, `DisputeRecords` and `BidOrigins` say what each call
  means on the fields of orders, desk, jobs and records: which one it concerns, when it is accepted, what changes and
  what does not. They do not go through the functions the methods are proved against, so a call that did something
  else would contradict them.
- `SettlementRuns` cuts reserve, warm and recover where the lock is dropped and lets any number of threads interleave;
  `Fnn` and `Platform` run one call after the other.
- `PlatformRuns.StepLives` shows that every event of the platform is, seen from one order, one of the seven steps of
  `OrderRuns` or no step at all. Everything proved about a single order's life therefore holds of every order of the
  platform (`OrdersBalance`, `OrdersProgress`, `CompletedForGood`).
- `DeskRuns.RunAtDesk` shows that every run of the platform is, at the liquidity desk, one of the interleaved runs, so
  what holds of pools under any interleaving holds on the platform.
- `Supply.RunIsProvisioned` shows that every run of the platform with the channel provisioner behind it is, at the desk,
  one of the provisioner's serialised runs, so solvency holds on the platform.
- `Callbacks` puts the ledger gate in front of jobs and platform and lets callbacks interleave with everything else;
  `GatewayRuns.RunOnPlatform` shows that every such run is, on the platform, a run of the platform, so its laws hold with
  callbacks too.

Assumptions, stated in the contracts: stores and publishers do not fail; cents are mathematical integers; in the
theorems that say so, milestone ids within an order are distinct and amounts are not negative (`PlatformRuns.Sane`),
which neither order nor bid creation checks.

Findings about the code, each with its exact condition and, where it is a failure, a run that shows it:

- A disconnect followed by a recovery restores an order exactly if it was running with nothing paused
  (`OrderRuns.OutageRestores`). A budget wall does not survive it: usage over budget, disconnect, recover leaves the order
  running, overspent and without a wall (`Disputes.WallLost`).
- Right after an accepted dispute the milestones still are a settled prefix, one under way and a pending suffix exactly if
  the order was completed and the disputed milestone is its last (`OrderRuns.StageAfterDispute`); the status then still
  says completed (`OrderRuns.DisputeBreaks`). Settle, then dispute, on an order with one milestone is such a life
  (`Disputes.CompletedButPaused`).
- A frozen dispute does not block settlement: in every run a milestone under one can be settled exactly if it is not
  settled already (`Disputes.FrozenBlocksNothing`). Settle, dispute, settle pays twice and refunds once
  (`Disputes.PaidTwice`). Settling again restores the pattern exactly if no milestone is left waiting behind the one under
  way; otherwise two milestones are under way at once (`Disputes.AgainRestores`).
- A dispute is resolved by the state of its milestone, whatever its record says (`DisputeRecords.ResolveMeans`). Every
  frozen milestone has an unresolved record through which it can be resolved (`DisputeRecords.FrozenResolvable`); but a
  milestone disputed twice has two records and is resolved once, and the other record stays unresolved until the
  milestone is disputed again (`DisputeRecords.LeftUnresolved`).
- A provider has at most one active binding exactly until a second one is verified (`ActiveBindings.OneActiveUntilDoubled`);
  register, register, verify, verify makes two (`ActiveBindings.TwoActive`).
- Verifying a binding while its provider has something outstanding makes the pool count too little
  (`SettlementRuns.CarelessBreaks`); without that the count is exact. Register, verify, reserve, verify is such a run
  (`Overlaps.CarelessRun`).
- A pool's total is the money in its channels plus what verifications and recoveries make of it
  (`Fnn.TotalsExplained`), and exact for a provider verified at most once and never recovered (`Fnn.TotalsExact`). A
  recovery that finds a ready channel counts what is reserved a second time (`Fnn.RecoveryInflates`).
- Under concurrent calls a pool goes on covering its reservations exactly until an answer is written that does not cover
  what is reserved by then (`Overlaps.CoveredUntilShort`); the code compares with what was reserved when the provisioner
  was asked. Two overlapping reserves can promise twice what the pool holds (`Overlaps.OverlappingReserves`); with the
  provisioner's own answers on an empty pool they promise too much exactly if twice the need exceeds what one call funds
  (`Overlaps.OverlapProvisioned`).
- A suspension or disconnection survives an event exactly if that is no verification, no start of a recovery and no
  commit of a call already under way (`Overlaps.DownStep`); one reported while a reserve is asking is overwritten
  (`Overlaps.IncidentForgotten`), and one that nobody was asking through lasts (`Overlaps.DownStays`).
- An award that fails leaves the bids on the request marked exactly if it got past the reservation, that is, if it is the
  order that was refused (`MarketRuns.FailedAward`). With a credit limit below the bid the request ends up open, without
  an order, and with its bid awarded (`MarketRuns.MarkedButOpen`).
- The rate limiter lets through at most 2·limit − 1 calls in any stretch as long as a window, one less than the obvious
  bound, and at most the limit if a window is a single tick (`RateLimit.NeverMore`); for every limit and window some
  history reaches that (`RateLimit.BoundIsReached`).
- The Base58 text of the empty byte string is that of one zero byte (`Base58.RoundTrip`).
- A callback that is rejected the first time is lost: it never charges or settles anything later, even if it could be
  acted on by then, and is answered with an empty decision (`Callbacks.RejectedForGood`). Which callbacks are rejected can
  be told before the call (`Callbacks.FirstRejected`); a usage report that arrives before its job exists is one
  (`Callbacks.TooEarly`).

## Model

| member | source | states |
|---|---|---|
| `SettlementRuns.PoolsBounded` | internal/platform/provider_settlement.go:156-556 | In every interleaved run every pool's reserved amount lies between zero and the sum of that provider's unreleased reservations |
| `SettlementRuns.PoolsExact` | internal/platform/provider_settlement.go:156-556 | It equals that sum in every interleaved run that verifies a binding only while its provider has nothing outstanding |
| `DeskRuns.PlatformPools` | internal/platform/bids.go:176-243 | In every platform run, awards, completions, outages and all, every pool stays within what is outstanding, and exact without hasty verifications |
| `DeskRuns.RunAtDesk` | internal/platform/provider_settlement.go:269-556 | Every platform run is, at the liquidity desk, a run of the interleaved model |
| `SettlementRuns.CarelessBreaks` | internal/platform/provider_settlement.go:156-176 | A verification while something is outstanding always breaks the equality |
| `Overlaps.CarelessRun` | internal/platform/provider_settlement.go:156-176 | Register, verify, reserve, verify again is such a run, for every budget and every sufficient answer |
| `Overlaps.CoveredUntilShort` | internal/platform/provider_settlement.go:463-487 | In every interleaved run no pool reserves more than its total until an answer below what is then reserved is written, and exactly then it does |
| `Overlaps.CoveredStep` | internal/platform/provider_settlement.go:463-487 | One event keeps every pool covered if and only if it writes no such answer |
| `Overlaps.AloneIsNotShort` | internal/platform/provider_settlement.go:463-465 | The comparison with the snapshot is enough if nobody else has reserved in the meantime |
| `Overlaps.OverlappingReserves` | internal/platform/provider_settlement.go:413-505 | Two reserves on one snapshot, each answered with just enough for one, leave the pool with twice its total reserved |
| `Overlaps.OverlapProvisioned` | internal/platform/provider_settlement_fnn.go:203-267 | With the provisioner's answers, two overlapping reserves on an empty pool break coverage if and only if twice the need exceeds what one call funds |
| `Overlaps.DownStep` | internal/platform/provider_settlement.go:302-341 | A suspended or disconnected pool stays so over an event if and only if that does not verify, start to recover or commit for it |
| `Overlaps.DownStays` | internal/platform/provider_settlement.go:351-447 | If no call was asking, the incident lasts over every continuation without a verification or recovery of the provider |
| `Overlaps.IncidentForgotten` | internal/platform/provider_settlement.go:467-480 | A disconnect reported while a reserve is asking is overwritten with healthy when that commits |
| `ActiveBindings.OneActiveStep` | internal/platform/provider_settlement.go:104-198 | An event keeps at most one active binding per provider if and only if it does not verify a second one |
| `ActiveBindings.OneActiveUntilDoubled` | internal/platform/provider_settlement.go:104-198 | The same over every interleaved run, and the first such verification breaks it |
| `ActiveBindings.TwoActive` | internal/platform/provider_settlement.go:118-176 | Register, register, verify, verify leaves two active bindings |
| `SettlementRuns.OwnedStep` | internal/platform/provider_settlement.go:467-556 | A reservation is its thread's own exactly while it is merely reserved, so no two calls release it |
| `SettlementRuns.ReleaseFollows` | internal/platform/provider_settlement.go:530-556 | Releasing takes the same amount from pool and outstanding sum, and stops at zero |
| `Settlement.NeededReserve` | internal/platform/provider_settlement.go:453-453 | The reserve asked for covers the budget, whatever the buffer setting |
| `DeskEffects.ReserveAsks` | internal/platform/provider_settlement.go:413-447 | A reservation asks the provisioner if and only if the carrier is usable, the provider's indexed binding active and its pool new or healthy; it is not needed if and only if there is no carrier; the snapshot is that binding and pool |
| `DeskEffects.ReserveAmount` | internal/platform/provider_settlement.go:449-453 | The reserve is the budget plus the buffer's share of it rounded down, with a tenth when no buffer is set |
| `DeskEffects.CommitMeans` | internal/platform/provider_settlement.go:467-502 | A commit adds a reservation without an order, its cents to what is reserved, and changes no other pool |
| `DeskEffects.ReleaseMeans` | internal/platform/provider_settlement.go:530-556 | A reservation is released once; its cents leave the pool, down to zero |
| `DeskEffects.AttachMeans` | internal/platform/provider_settlement.go:508-528 | An existing reservation becomes active for its order and is indexed under it, and no other changes |
| `DeskEffects.RegisterMeans` | internal/platform/provider_settlement.go:104-141 | A provider with an active binding is refused; otherwise the new binding waits for verification and is the indexed one |
| `DeskEffects.VerifyMeans` | internal/platform/provider_settlement.go:156-176 | Verification activates that binding and starts the provider's pool from nothing, and an unknown binding changes nothing |
| `DeskEffects.SuspendMeans` | internal/platform/provider_settlement.go:178-198 | Suspension suspends binding and pool, keeps every amount, and touches no other provider |
| `DeskEffects.TotalMeans` | internal/platform/provider_settlement.go:391-411 | Warming and recovery write the new total, keep what is reserved, and never offer less than nothing |
| `DeskEffects.FailMeans` | internal/platform/provider_settlement.go:226-312 | A disconnect and a failed recovery mark the pool disconnected and keep its amounts |
| `DeskEffects.WarmAsks` | internal/platform/provider_settlement.go:343-371 | Warming asks if and only if the provider is active with a pool that is not disconnected, recovering or suspended |
| `DeskEffects.WarmWants` | internal/platform/provider_settlement.go:373-380 | Warming wants the larger of what is available and what was asked for, never less than nothing |
| `DeskEffects.RecoverAsks` | internal/platform/provider_settlement.go:269-300 | Recovery asks if and only if the provider is active with a pool, marks that pool and offers its whole total |
| `DeskEffects.SuspendedDenied` | internal/platform/provider_settlement.go:413-418 | With a suspended carrier every award of an open request is denied for that reason and leaves everything as it is |
| `DeskEffects.NoCarrierUntouched` | internal/platform/provider_settlement.go:420-423 | Without a carrier binding an award touches no liquidity and is not denied for lack of it |
| `DeskEffects.AwardHolds` | internal/platform/bids.go:176-243 | With a usable carrier an award that goes through leaves its order with an active reservation of the provider's for budget and buffer |
| `DeskEffects.DenialMeans` | internal/platform/provider_settlement.go:413-447 | Each reason for a denial, if and only if what the desk holds says so |
| `DeskEffects.AwardMeans` | internal/platform/bids.go:153-269 | A successful award places one order, for the request's buyer, by the bid's provider, with its milestones and the funding asked for, and closes the request |
| `DeskEffects.VerdictMeans` | internal/platform/bids.go:153-190 | Which verdict an award gets, in the order of the checks, and that a refusal before the order changes nothing |
| `DeskEffects.UnitsMean` | internal/platform/provider_settlement_fnn.go:666-691 | For every setting of a provisioner a new channel has the fewest units that cover the need and at least the minimum, with 100 cents and one unit as defaults |
| `DeskEffects.EnsureMeans` | internal/platform/provider_settlement_fnn.go:203-267 | A ready channel is reused if and only if the pool has the need available; otherwise a channel is opened and its money added |
| `Fnn.FundingCovers` | internal/platform/provider_settlement_fnn.go:666-691 | A new channel covers the need with the fewest units, except for the minimum |
| `Fnn.NewConfig` | internal/platform/provider_settlement_fnn.go:137-142 | A constructed provisioner has a positive rate and a positive minimum |
| `Fnn.ConfiguredCovers` | internal/platform/provider_settlement_fnn.go:666-691 | So every constructed provisioner funds at least what is needed |
| `Fnn.EnsureCovers` | internal/platform/provider_settlement_fnn.go:203-267 | On a solvent pool the reported total covers reserved plus needed and grows by exactly what was funded |
| `Fnn.ReserveSucceeds` | internal/platform/provider_settlement.go:413-505 | On solvent pools a reservation is made if and only if it is begun and the nodes can be reached; the sufficiency check never rejects |
| `Fnn.NeverRejected` | internal/platform/provider_settlement.go:463-465 | In every serialised run a reservation that is begun is made as soon as the provisioner answers |
| `Fnn.WarmDelivers` | internal/platform/provider_settlement.go:343-411 | On a solvent pool warming leaves at least what was asked for and never less than before, and adds money if and only if no channel is ready or too little was available |
| `Fnn.RecoverDelivers` | internal/platform/provider_settlement.go:269-341 | Recovery makes the pool healthy with its reservations covered and says what it then offers; a failed one leaves the amounts and marks it disconnected |
| `Fnn.AlwaysSolvent` | internal/platform/provider_settlement.go:269-505 | In every serialised run every pool has 0 <= reserved <= total and available = total - reserved |
| `Fnn.TotalsExplained` | internal/platform/provider_settlement.go:288-341 | In every serialised run a total is the money in the channels opened plus the drift of verifications and recoveries |
| `Fnn.TotalsExact` | internal/platform/provider_settlement.go:156-176 | In every serialised run that never recovers a provider and verifies it at most once, its total is exactly the money in its channels |
| `Fnn.FirstFindsNothing` | internal/platform/provider_settlement.go:156-176 | Until its first verification a provider has an empty pool and no active binding |
| `Fnn.RecoveryInflates` | internal/platform/provider_settlement.go:288-341 | Verify, reserve, recover with a ready channel makes the total exceed the channels by what is reserved |
| `Fnn.ConfiguredRuns` | internal/platform/provider_settlement_fnn.go:137-142 | Solvency, the exact success of reservations and the explained totals, for every provisioner that can be constructed |
| `Supply.RunIsProvisioned` | internal/platform/bids.go:176-243 | Every platform run with the provisioner behind it is, at the desk, one of the provisioner's serialised runs |
| `Supply.PlatformSolvent` | internal/platform/provider_settlement.go:269-505 | So on the platform every pool always covers its reservations and offers exactly the rest |
| `Supply.AwardsGoThrough` | internal/platform/bids.go:153-243 | With any constructed provisioner an award of an open request goes through if and only if it is not refused at the start, the nodes answer if asked, and the order is allowed |
| `Fnn.GapStep` | internal/platform/provider_settlement_fnn.go:203-267 | The exact change of total minus channel money for every event |
| `LiveOrders.LiveOrder.FindMilestone` | internal/core/workflow.go:275-283 | Finds the first milestone with the id, or none |
| `LiveOrders.LiveOrder.IsLastMilestoneSettled` | internal/core/workflow.go:285-293 | Says whether all milestones are settled |
| `LiveOrders.LiveOrder.CurrentSpendCents` | internal/core/workflow.go:266-273 | Base price plus all usage charges |
| `LiveOrders.LiveOrder.SettleMilestone` | internal/core/workflow.go:139-174 | Settles in place as `Workflow.Settle` says, with the ledger entry, or refuses and changes nothing |
| `LiveOrders.LiveOrder.RecordUsageCharge` | internal/core/workflow.go:176-205 | Charges in place as `Workflow.Charge` says, with the budget wall, or refuses and changes nothing |
| `LiveOrders.LiveOrder.OpenDispute` | internal/core/workflow.go:207-250 | Disputes in place as `Workflow.Dispute` says, with refund and recovery entries, or refuses |
| `LiveOrders.LiveOrder.ResolveDispute` | internal/core/workflow.go:252-264 | Resolves in place or refuses and changes nothing |
| `LiveOrders.LiveOrder.Reconcile` | internal/platform/app.go:535-548 | Replaces the flags of the settled milestone when anomalies are found |
| `LiveOrders.LiveOrder.AdvanceNextMilestone` | internal/platform/app.go:782-797 | Starts the first pending milestone behind the settled one |
| `LiveOrders.LiveOrder.TopUpBudget` | internal/platform/app.go:1994-2022 | Adds to the budget and resumes a paused milestone, or refuses |
| `LiveOrders.LiveOrder.MarkDisconnected` | internal/platform/provider_settlement.go:253-261 | Pauses and flags in place |
| `LiveOrders.LiveOrder.Resume` | internal/platform/provider_settlement.go:567-578 | Resumes flagged milestones and removes the flag in place |
| `LiveOrders.LiveOrder.GetBudgetWallInfo` | internal/platform/app.go:2276-2293 | Reports the first paused milestone of an order awaiting budget |
| `OrderEffects.SettleMeans` | internal/core/workflow.go:139-174 | A milestone is settled if and only if it is running or paused, for its price; the entry is a payout if and only if the order is prepaid; the order is completed if and only if all others are settled |
| `OrderEffects.ChargeMeans` | internal/core/workflow.go:176-205 | A charge is accepted if and only if it is positive and the milestone running or paused; the wall is hit if and only if price and all charges together exceed the budget, and otherwise state and status stay |
| `OrderEffects.NothingRunsOver` | internal/core/workflow.go:176-205 | From a fresh order with prices within budgets, by settlements, usage and resolutions, no milestone ever runs with more spent than its budget |
| `OrderEffects.DisputeMeans` | internal/core/workflow.go:207-250 | A dispute is accepted if and only if the milestone is settled and the refund positive and within what was settled; it freezes and pauses, and books refund and recovery |
| `OrderEffects.ResolvedOnce` | internal/core/workflow.go:252-264 | An accepted dispute can be resolved once and not again |
| `OrderEffects.TopUpMeans` | internal/platform/app.go:1990-2031 | A top-up raises the budget by its cents and runs a paused milestone and its order again |
| `OrderEffects.RecoverMeans` | internal/platform/provider_settlement.go:558-584 | Exactly the paused and flagged milestones run again and lose that flag only |
| `OrderEffects.DisconnectMeans` | internal/platform/provider_settlement.go:226-267 | A disconnect makes the order wait for its rail, pauses what runs and flags every milestone once |
| `OrderEffects.ReconcileMeans` | internal/platform/app.go:534-549 | Anomalies replace the flags of the settled milestone and of no other |
| `OrderEffects.NewOrderMeans` | internal/platform/app.go:455-521 | A new order has what it was made with; its first milestone runs and the others wait, with nothing charged, settled or disputed |
| `OrderEffects.Unlocated` | internal/core/workflow.go:139-264 | An id no milestone has is refused by every call |
| `OrderEffects.AdvanceMeans` | internal/platform/app.go:782-797 | Exactly the first pending milestone behind the settled one starts |
| `OrderEffects.WallMeans` | internal/platform/app.go:2271-2293 | A wall is reported if and only if an order awaiting budget has something paused, about the first such milestone |
| `OrderRuns.LedgerBalances` | internal/core/workflow.go:139-264 | In every run of all seven steps settlements minus disputes is 1 for a settled milestone and 0 otherwise; refunds equal recoveries and never exceed settlements |
| `OrderRuns.StepBalanced` | internal/core/workflow.go:139-264 | Every step keeps the ledger in agreement with the order |
| `OrderRuns.Lifecycle` | internal/platform/app.go:523-592 | In every dispute-free run milestones are a settled prefix, one under way, a pending suffix; Completed exactly when all are settled; a budget wall never reports a non-positive overage |
| `OrderRuns.StepMoves` | internal/platform/app.go:487-592 | No step but a dispute leaves the pattern or moves it back |
| `OrderRuns.UsageStays` | internal/core/workflow.go:176-205 | Only the milestone under way takes charges, every other stays as it is, and a paused one awaiting budget is overspent |
| `OrderRuns.StageAfterDispute` | internal/core/workflow.go:222-225 | After an accepted dispute the milestones keep the pattern if and only if the order was completed and the disputed milestone is its last |
| `OrderRuns.DisputeBreaks` | internal/core/workflow.go:207-250 | Right after an accepted dispute the status is as it was with a milestone unsettled, and pattern and status do not agree |
| `Disputes.DisputeThenSettle` | internal/core/workflow.go:145-147 | Right after an accepted dispute the milestone can be settled again |
| `Disputes.FrozenBlocksNothing` | internal/core/workflow.go:145-225 | In every run from a fresh order a milestone under a frozen dispute can be settled if and only if it is not settled |
| `Disputes.AgainRestores` | internal/platform/app.go:535-552 | Settling a disputed milestone again restores pattern and status if and only if none is left waiting behind the one under way; otherwise two are under way at once |
| `Disputes.PaidTwice` | internal/core/workflow.go:139-250 | Settle, dispute, settle leaves two settlements against one refund, for every price and refund |
| `Disputes.CompletedButPaused` | internal/core/workflow.go:222-225 | Settle, then dispute leaves a completed order with its milestone paused |
| `Disputes.WallLost` | internal/platform/provider_settlement.go:252-578 | Usage over budget, disconnect, recover leaves the order running, overspent and without a budget wall, for every price, budget and charge |
| `OrderRuns.CompletionIsFinal` | internal/platform/app.go:573-584 | A completed order stays completed and its reservation released, whatever follows short of a dispute |
| `OrderRuns.RailRuns` | internal/platform/provider_settlement.go:530-556 | A reservation is released at most once and never attached again |
| `OrderRuns.OutageRestores` | internal/platform/provider_settlement.go:252-578 | Disconnect then recovery gives status and milestone states back if and only if the order was running with nothing paused |
| `OrderRuns.OutageKeepsMoney` | internal/platform/provider_settlement.go:252-578 | An outage changes nothing but status, states and flags |
| `OrderMoney.MoneyAddsUp` | internal/core/workflow.go:176-205 | In every run budgets are the original ones plus accepted top-ups, and usage is the sum of accepted charges |
| `OrderMoney.StepBudget` | internal/platform/app.go:1990-2031 | A top-up adds exactly its cents and no other step touches a budget |
| `Market.SplitAddsUp` | internal/platform/milestones.go:26-47 | The default split totals exactly the budget, with distinct ids and no negative amount |
| `Market.DefaultBidFits` | internal/platform/bids.go:63-111 | A default bid on a default split totals exactly the request's budget and is never refused over its milestones |
| `BidOrigins.RequestMeans` | internal/platform/app.go:392-453 | A request is accepted if and only if its fields are there and its deadline ahead, and keeps the submitted milestones or gets the default split |
| `BidOrigins.BidMeans` | internal/platform/bids.go:63-151 | When a bid is accepted, and that it then has exactly the submitted milestones, or the request's if there are none, the provider and the positive quote |
| `BidOrigins.SplitMeans` | internal/platform/milestones.go:26-47 | Setup and delivery get a fifth each rounded down and execution all the rest, with the share of each in its title |
| `BidOrigins.BudgetIsSum` | internal/platform/bids.go:84-95 | The total a bid is compared by is the sum of its milestones' budgets |
| `BidOrigins.RequestOrigin` | internal/platform/app.go:392-453 | Every request of every run comes from a submission with these contents |
| `BidOrigins.BidOrigin` | internal/platform/bids.go:63-151 | Every bid of every run comes from a submission with these contents |
| `BidOrigins.OrderOrigin` | internal/platform/bids.go:153-269 | In every run the order behind an awarded request copies the milestones of the submission that placed the winning bid |
| `PlatformRuns.StepLives` | internal/platform/app.go:523-747 | Every platform event is, for each order, one of its seven steps or nothing |
| `PlatformRuns.StepLinked` | internal/platform/provider_settlement.go:508-556 | Orders and attached reservations always point at each other, with the same provider |
| `PlatformRuns.BackedExactly` | internal/platform/provider_settlement.go:245-251 | An outage reaches exactly the provider's orders that hold an active reservation |
| `PlatformRuns.WholeLife` | internal/platform/app.go:455-521 | Every order of every run has lived a fresh life of its own steps |
| `PlatformRuns.OrdersBalance` | internal/core/workflow.go:139-264 | The ledger law for every order of every platform run |
| `PlatformRuns.OrdersProgress` | internal/platform/app.go:523-592 | The progress law for every order of every dispute-free platform run |
| `PlatformRuns.CompletedForGood` | internal/platform/app.go:573-584 | A completed order stays completed in every continuation without disputes, disconnects included |
| `PlatformRuns.OutageRoundTrip` | internal/platform/provider_settlement.go:226-341 | Disconnect and successful recovery restore the provider's running orders with nothing paused, exactly those, and leave every other order untouched |
| `MarketRuns.OneWinner` | internal/platform/bids.go:153-269 | In every run at most one bid per request is awarded; an awarded request names it, its other bids are rejected, its own order has the bid's milestones, within the request's budget |
| `MarketRuns.AwardIsFinal` | internal/platform/bids.go:63-160 | Nothing later changes an awarded request or any bid on it, and no bid joins |
| `MarketRuns.AwardSucceeds` | internal/platform/bids.go:153-243 | Exactly when an award goes through, and that the verdict says so |
| `MarketRuns.FailedAward` | internal/platform/bids.go:183-243 | A failed award changes no request, no order and no reserve, and leaves the bids marked if and only if it got past the reservation |
| `MarketRuns.FailedAwardInRun` | internal/platform/bids.go:183-243 | The same, bids included, in every run from the empty system |
| `MarketRuns.MarkedButOpen` | internal/platform/bids.go:199-243 | For every credit limit below the bid, a run that ends with the request open, no order, and the bid awarded |
| `MarketRuns.ReleaseUndoes` | internal/platform/provider_settlement.go:467-556 | Releasing a fresh reservation restores reserved and outstanding amounts of every provider |
| `MarketRuns.StepKeepsTerms` | internal/core/workflow.go:139-264 | Every step keeps parties, ids, titles, prices, and, top-ups apart, budgets |
| `Funding.PrepaidStaysCovered` | internal/gateway/server.go:832-868 | Without disputes and top-ups, committed prepaid cents never exceed credited cents, outages or not |
| `Funding.CreditStaysWithin` | internal/platform/app.go:2338-2363 | With a fixed limit and without disputes, top-ups and disconnects, active credit budgets stay within the limit |
| `Funding.ListedIsEnough` | internal/platform/app.go:869-898 | Summing commitments over the filtered list, in any order, equals summing over all orders |
| `Funding.StepCommits` | internal/gateway/server.go:903-930 | No step but a dispute or a top-up raises an order's commitment |
| `Funding.BornAdmitted` | internal/platform/app.go:455-469 | Every order that comes into being has passed the gate for its funding |
| `Funding.PlacedMeans` | internal/gateway/server.go:584-594 | An order is placed if and only if parties and milestones are given, prepaid money beyond what is committed suffices, and the unused credit does; then nothing else changes |
| `Funding.CommittedOfOne` | internal/gateway/server.go:903-930 | An order adds the positive rests of its unsettled milestones to what its buyer has committed, if and only if it is prepaid and running or waiting for budget or payment rail |
| `Funding.UnsettledOfOne` | internal/gateway/server.go:903-930 | A milestone adds its budget less what was settled, if it is not settled and that is positive |
| `Funding.CreditOfOne` | internal/platform/app.go:2338-2363 | An order adds all its budgets to its buyer's used credit, if and only if it is on credit and running or waiting for budget |
| `Funding.BudgetOfOne` | internal/platform/app.go:2338-2363 | A milestone adds its budget |
| `MarketplaceApp.App.RegisterProviderSettlementBinding` | internal/platform/provider_settlement.go:104-141 | Registers unless a field is blank or the provider has an active binding |
| `MarketplaceApp.App.VerifyProviderSettlementBinding` | internal/platform/provider_settlement.go:156-176 | Activates the binding and starts the pool from nothing |
| `MarketplaceApp.App.SuspendProviderSettlementBinding` | internal/platform/provider_settlement.go:178-198 | Suspends binding and pool, amounts kept |
| `MarketplaceApp.App.ReportProviderSettlementDisconnect` | internal/platform/provider_settlement.go:226-267 | Whatever the order in which reservations are visited, the result is the same sweep |
| `MarketplaceApp.App.ResumeProviderSettlementOrders` | internal/platform/provider_settlement.go:558-584 | The same for the resumption |
| `MarketplaceApp.App.BeginRecovery` | internal/platform/provider_settlement.go:269-294 | The locked section before the provisioner is asked |
| `MarketplaceApp.App.FinishRecovery` | internal/platform/provider_settlement.go:302-341 | The locked section after it: failure marks the pool, success writes it and resumes the orders |
| `MarketplaceApp.App.RecoverProviderSettlement` | internal/platform/provider_settlement.go:269-341 | The whole recovery, when nothing intervenes |
| `MarketplaceApp.App.BeginWarming` | internal/platform/provider_settlement.go:343-373 | Which pools may be warmed, and with which snapshot |
| `MarketplaceApp.App.WarmProviderSettlementPool` | internal/platform/provider_settlement.go:343-411 | Warming writes the new total and keeps what is reserved, and says whether it did |
| `MarketplaceApp.App.BeginReservation` | internal/platform/provider_settlement.go:413-447 | Refused, not needed, or the snapshot to ask with |
| `MarketplaceApp.App.FinishReservation` | internal/platform/provider_settlement.go:463-505 | Adds reservation and reserved amount if the answer suffices, else nothing |
| `MarketplaceApp.App.AttachProviderSettlementReservation` | internal/platform/provider_settlement.go:508-528 | Ties the reservation to the order and activates it |
| `MarketplaceApp.App.ReleaseProviderSettlementReservation` | internal/platform/provider_settlement.go:530-556 | Releases once, never below zero |
| `MarketplaceApp.App.CreateRFQ` | internal/platform/app.go:392-453 | Opens a request with its own or the default milestones, or the exact error |
| `MarketplaceApp.App.CreateBid` | internal/platform/bids.go:63-151 | Places a bid within the budget, or the exact error |
| `MarketplaceApp.App.CheckCreditAvailability` | internal/platform/app.go:2338-2363 | The limit less the budgets of the active orders on credit |
| `MarketplaceApp.App.CreateOrder` | internal/platform/app.go:455-521 | Creates the order if allowed, else changes nothing |
| `MarketplaceApp.App.MarkBids` | internal/platform/bids.go:199-213 | Awards the winner and rejects every other bid on the request |
| `MarketplaceApp.App.ConcludeAward` | internal/platform/bids.go:192-250 | Marks, creates the order, then attaches or releases the reservation |
| `MarketplaceApp.App.AwardRFQ` | internal/platform/bids.go:153-269 | The whole award, and which of the ways to fail it was |
| `MarketplaceApp.App.MaybeReserve` | internal/platform/provider_settlement.go:413-505 | The reservation from begin to end: denied and why, not needed, or made |
| `MarketplaceApp.App.SettleMilestone` | internal/platform/app.go:523-592 | Settles, reconciles, advances, releases the reservation on completion, and returns the ledger entry |
| `MarketplaceApp.App.RecordUsageCharge` | internal/platform/app.go:594-632 | Charges the stored order or changes nothing |
| `MarketplaceApp.App.OpenDispute` | internal/platform/app.go:634-687 | Disputes the stored order and records the dispute under the id returned, or changes nothing |
| `MarketplaceApp.App.ResolveDispute` | internal/platform/app.go:689-747 | Resolves order and record through the record, exactly if that is possible |
| `DisputeRecords.OpenMeans` | internal/platform/app.go:634-687 | An accepted dispute is recorded with its order, milestone and refund, unresolved, and books two entries over that refund |
| `DisputeRecords.ResolveMeans` | internal/platform/app.go:689-747 | A dispute is resolved if and only if the milestone of its record is under dispute; then record and milestone are resolved and nothing else changes |
| `DisputeRecords.RecordsAreRefunds` | internal/platform/app.go:634-687 | In every run the records are, one by one, the refunds in the ledger |
| `DisputeRecords.FrozenResolvable` | internal/platform/app.go:689-747 | In every run a frozen milestone has an unresolved record through which it can be resolved |
| `DisputeRecords.RecordsStay` | internal/platform/app.go:689-747 | Records are never withdrawn or changed, and what is resolved stays resolved |
| `DisputeRecords.LeftUnresolved` | internal/platform/app.go:689-747 | Of two records of one milestone only one is resolved; the other stays as it is until the milestone is disputed again |
| `MarketplaceApp.App.TopUpMilestone` | internal/platform/app.go:1990-2031 | Tops up the stored order or changes nothing, and says which |
| `MarketplaceApp.App.GetBudgetWallInfo` | internal/platform/app.go:2271-2293 | The budget wall of the stored order |
| `MarketplaceApp.BuyerCommittedPrepaidCents` | internal/gateway/server.go:903-930 | The sum of the unsettled budgets of the buyer's committed prepaid orders |
| `MarketplaceApp.App.ListPrepaidOrders` | internal/platform/app.go:869-898 | Lists exactly the matching orders, in an order of its own |
| `MarketplaceApp.App.EnsureBuyerPrepaidAvailability` | internal/gateway/server.go:832-868 | The gate over the filtered list decides as one over all orders would |
| `MarketplaceApp.App.RecordTopUp` | internal/gateway/server.go:841-853 | A settled top-up adds to what the gate finds credited |
| `MarketplaceApp.App.HandleCreateOrder` | internal/gateway/server.go:584-594 | The gate, then the order, whose id is returned exactly if it is created |
| `MarketplaceApp.App.HandleAwardRFQ` | internal/gateway/server.go:804-825 | The gate, then the award and its verdict |
| `EventLedger.LedgerKept` | internal/carrier/ledger.go:49-121 | After any calls every event id is recorded once and each log goes up by one from its first positive number on |
| `EventLedger.GapSnoc` | internal/carrier/ledger.go:61-71 | A log stays gap-free if and only if what is added is the next number or nothing positive came before |
| `EventLedger.ConsecutiveFrom` | internal/carrier/ledger.go:61-71 | From a positive number on, positions and numbers advance together |
| `EventLedger.AppendOnly` | internal/carrier/ledger.go:73-91 | Nothing recorded is lost or rewritten, except for decisions |
| `EventLedger.RefusalKeeps` | internal/carrier/ledger.go:53-71 | Replay exactly for a known id; refusals change nothing; an accepted number is the next one |
| `EventLedger.Ledger.RecordEvent` | internal/carrier/ledger.go:49-91 | Record on the live objects, which log and index share |
| `EventLedger.Ledger.List` | internal/carrier/ledger.go:94-105 | The log of an execution, decisions included |
| `EventLedger.Ledger.LastSequence` | internal/carrier/ledger.go:108-112 | The last entry's number, or zero |
| `EventLedger.Ledger.UpdateDecision` | internal/carrier/ledger.go:115-121 | A decision written through the index is seen in the log, and nothing else changes |
| `EventLedger.LastMeans` | internal/carrier/ledger.go:108-112 | The last number of an execution is that of its latest entry in the whole ledger |
| `EventLedger.UpdateMeans` | internal/carrier/ledger.go:115-121 | A decision is written to the entry with the id and to no other |
| `CarrierService.AlwaysSound` | internal/carrier/service.go:131-329 | In every reachable state CompletedAt is set exactly for terminal jobs, completed and failed jobs have StartedAt, lists, keys, attempts and binding index are exact |
| `CarrierService.RunPreserves` | internal/carrier/service.go:269-298 | Terminal jobs never change, jobs keep binding and milestone, keys keep their job |
| `CarrierService.KeyForGood` | internal/carrier/service.go:428-468 | An idempotency key used once gives the same job back forever and makes no other |
| `CarrierService.ListingIsExact` | internal/carrier/service.go:317-329 | A listing shows exactly the binding's jobs in creation order |
| `CarrierService.Service.MayMove` | internal/carrier/service.go:67-86 | The transition table |
| `CarrierService.Service.BindCarrier` | internal/carrier/service.go:131-155 | Binds a milestone once |
| `CarrierService.Service.CreateJobOnce` | internal/carrier/service.go:428-468 | Creates a job, or gives back the one the key stands for |
| `CarrierService.Service.TransitionJob` | internal/carrier/service.go:269-298 | An allowed transition with its times, a repeat without effect, or an error |
| `CarrierService.Service.SetProgress` | internal/carrier/service.go:300-314 | Progress only on running jobs |
| `CarrierService.Service.StartAttempt` | internal/carrier/service.go:386-417 | The next attempt, numbered |
| `CarrierService.Service.FailJobTyped` | internal/carrier/service.go:505-526 | Fails the job and marks its last attempt |
| `CarrierService.Service.ListJobs` | internal/carrier/service.go:317-329 | Fetches the listed jobs |
| `JobEffects.CreateMeans` | internal/carrier/service.go:428-468 | A key that leads to a job gives it back; otherwise an existing binding gets one new job with what was submitted |
| `JobEffects.BindMeans` | internal/carrier/service.go:131-155 | A milestone of an order is bound if and only if it is not bound yet, and the binding keeps what it was made with |
| `JobEffects.MissingJob` | internal/carrier/service.go:269-417 | No call works on a job that does not exist |
| `JobEffects.ProgressMeans` | internal/carrier/service.go:300-314 | Progress is kept if and only if the job runs |
| `JobEffects.AttemptMeans` | internal/carrier/service.go:386-417 | One attempt is added, with the next number |
| `JobEffects.TransitionMeans` | internal/carrier/service.go:269-298 | Which transitions are possible, and which times, output and error each sets |
| `JobEffects.FailTypedMeans` | internal/carrier/service.go:505-526 | A typed failure fails the job as any failure does and marks the last attempt only |
| `Callbacks.AtMostOnce` | internal/gateway/server.go:2181-2307 | For every stream of callbacks amid any other activity each event id causes at most one charge or settlement, and none if known before |
| `Callbacks.GateKeeps` | internal/gateway/server.go:2181-2202 | A replay or a sequence conflict leaves ledger, jobs, orders and pools unchanged; exactly when a conflict is reported |
| `Callbacks.RedeliveryAnswers` | internal/gateway/server.go:2181-2307 | However much later, a redelivery answers with the decision of the first delivery |
| `Callbacks.FirstRejected` | internal/gateway/server.go:2204-2290 | A first delivery is rejected if and only if it fails by a condition on the state before the call, and then leaves the platform alone |
| `Callbacks.RejectedForGood` | internal/gateway/server.go:2181-2307 | A rejected event never charges or settles later, and every redelivery is answered with an empty decision |
| `Callbacks.TooEarly` | internal/gateway/server.go:2776-2808 | A usage report that arrives before its job exists is rejected and lost |
| `GatewayRuns.RunOnPlatform` | internal/gateway/server.go:2181-2307 | Every run with callbacks is, on the platform, a run of platform events |
| `GatewayRuns.GatewayBalances` | internal/core/workflow.go:139-264 | The ledger law for every order of every run with callbacks |
| `GatewayRuns.GatewayProgress` | internal/platform/app.go:523-592 | The progress law for every order of every run with callbacks and without disputes |
| `GatewayRuns.GatewayKeeps` | internal/gateway/server.go:832-868 | Pools bounded, one winner per request and, without disputes and top-ups, prepaid covered, with any callbacks |
| `Callbacks.HandleLedger` | internal/gateway/server.go:2181-2307 | A delivery adds nothing to the ledger or one entry with its decision |
| `Callbacks.ActEffects` | internal/gateway/server.go:2204-2290 | Only a usage report charges and only a ready milestone settles, once each |
| `CallbackEffects.UsageMeans` | internal/gateway/server.go:2776-2808 | A usage report that gets past the ledger appends exactly the reported charge to the milestone its job was created for, in the order its binding names; accepted if and only if that milestone takes it; all other orders unchanged |
| `CallbackEffects.ExactCents` | internal/gateway/server.go:2776-2808 | For every stream of callbacks amid any activity the cents charged by one event id are none or exactly the amount one of its deliveries reported |
| `CallbackEffects.ReadyMeans` | internal/gateway/server.go:2218-2249 | A ready milestone is accepted if and only if its evidence is, its job can be completed and its milestone settled; the one new entry is for that order, milestone and price |
| `CallbackEffects.ProgressMeans` | internal/gateway/server.go:2204-2290 | A callback about progress moves exactly the job it names, if and only if that can go there, and nothing on the platform |
| `CallbackEffects.DecisionMeans` | internal/gateway/server.go:2204-2290 | Which action the carrier is told |
| `CallbackEffects.OthersChangeNothing` | internal/gateway/server.go:2204-2290 | Heartbeats, artifacts, low budgets and the like change neither jobs nor platform |
| `CallbackEffects.JobFound` | internal/carrier/service.go:209-242 | No two jobs share an id, so the job found is the one meant |
| `CallbackServer.Server.HandleCarrierCallback` | internal/gateway/server.go:2181-2307 | The handler on the live ledger, service and application |
| `CallbackServer.Server.MilestoneIsReady` | internal/gateway/server.go:2218-2249 | Completes the job, then settles its milestone |
| `CallbackServer.Server.RecordUsageFromCallback` | internal/gateway/server.go:2776-2808 | Charges the milestone the job works for |
| `BitRegroup.ConvertBits` | internal/release/demo_fnn_funding.go:575-599 | The accumulator loop regroups the number the digits spell, although the 64-bit accumulator is never masked |
| `BitRegroup.RoundTrip` | internal/release/demo_fnn_funding.go:575-599 | 8 to 5 bits with padding and back gives every byte string back, with every group below 32 |
| `Bech32.ComputePolymod` | internal/release/demo_fnn_funding.go:624-637 | The register after all values, for any generator table |
| `Bech32.CreateChecksum` | internal/release/demo_fnn_funding.go:601-610 | The six groups of the corrected register |
| `Bech32.ChecksumVerifies` | internal/release/demo_fnn_funding.go:601-637 | For every ASCII prefix and 5-bit data the polymod of prefix, data and checksum is 1 |
| `Bech32.RegisterBelow` | internal/release/demo_fnn_funding.go:624-637 | The register stays below 2^30 throughout |
| `Bech32.BackToStart` | internal/release/demo_fnn_funding.go:601-637 | Why: for any narrow table the corrected groups lead back to the start |
| `Bech32.SingleErrorDetected` | internal/release/demo_fnn_funding.go:624-637 | Any single wrong group changes the polymod |
| `Bech32Numbers.ExpansionMeans` | internal/release/demo_fnn_funding.go:612-622 | The expanded prefix has the codes divided by 32, a zero, then the codes modulo 32 |
| `Bech32Numbers.PolymodIs` | internal/release/demo_fnn_funding.go:624-637 | The register is the one computed on plain integers |
| `Bech32Numbers.VectorVerifies` | internal/release/demo_fnn_funding.go:601-637 | The test vector of BIP 173: prefix a with the groups of 2uel5l has polymod 1 |
| `Base58.Encode` | internal/platform/provider_settlement_fnn.go:754-779 | The division loop, the leading zeros and the reversal in place give the text |
| `Base58.TurnAround` | internal/platform/provider_settlement_fnn.go:772-774 | The in-place reversal |
| `Base58.RoundTrip` | internal/platform/provider_settlement_fnn.go:754-779 | A standard decoder inverts the encoding on every non-empty byte string |
| `Base58.Injective` | internal/platform/provider_settlement_fnn.go:754-779 | So different non-empty byte strings have different texts |
| `RateLimit.MemoryStore.Allow` | internal/ratelimit/service.go:162-184 | Counts the call in the key's window and decides |
| `RateLimit.DecisionMeans` | internal/ratelimit/service.go:162-184 | A call is allowed if and only if its count is within the limit; what remains and how long to wait |
| `RateLimit.EntryMeans` | internal/ratelimit/service.go:162-184 | The first call, and the first after a window has ended, opens a window; every other one is counted in it |
| `RateLimit.WaitingHelps` | internal/ratelimit/service.go:162-184 | After waiting as long as told, the next call opens a window |
| `RateLimit.AlwaysKnown` | internal/ratelimit/service.go:162-184 | In every history the stored entry tells how many calls its window has seen and lets through at most the limit |
| `RateLimit.BelowTwiceTheLimit` | internal/ratelimit/service.go:162-184 | Less than twice the limit passes in any window-long stretch, whatever the traffic on other keys |
| `RateLimit.NeverMore` | internal/ratelimit/service.go:162-184 | At most 2·limit − 1 calls in any window-long stretch, and at most the limit if a window is one tick |
| `RateLimit.BoundIsReached` | internal/ratelimit/service.go:162-184 | For every limit and every window a history that lets through exactly that many |
| `ShellQuote.QuoteIsOneWord` | internal/gateway/carrier_award_executor.go:393-398 | Reading a quoted string by the shell's rules gives exactly one word, the string itself |
| `ShellQuote.RunCommandReadsBack` | internal/gateway/carrier_award_executor.go:265-285 | Both nested levels of the run command give back the exact directory, path, prompt and callback script |

## Left out

- Times: clocks, deadlines beyond missing, past or ahead, warm-until, heartbeat staleness and all timestamps except
  whether a job's start and end are set.
- Identifiers: ids such as `ord_7` are positions in their store, a missing id is a position outside it, and stores that
  never delete are sequences. The carrier's binding key is the pair of order and milestone rather than the two joined
  by a bar, which agrees as long as ids contain no bar.
- Listings sorted by id: the sort is not modelled; sums and markings are proved for any order.
- Failing stores, publishers and notifiers, and the concurrency of calls other than reserve, warm and recover.
- Overflow of 64-bit cents and sequence numbers.
- HTTP, JSON, authentication, signatures of callbacks and usage proofs, Redis, Postgres and message queues: a callback
  arrives authenticated and taken apart, and a decision is kept as the name of its action.
- The evidence store: whether evidence is refused is part of a callback.
- Amount parsing and the reconciliation ratio, which use floating point: credited cents and anomalies are inputs.
- The prepaid gate without a settlement service, which lets everything through.
- Network calls, retries and polling of the provisioner: it is unreachable, reuses a ready channel, or opens a new one;
  a channel opened by a call that then fails is not counted.
- An application without a provisioner, whose calls fail before they change anything.
- Changing a credit limit: limits are fixed for a run.
- Profiles, listings, ratings, messages, statistics, pagination and the web interface are not modelled.
- `ShellQuote`: of the shell's operators only those that occur in the run command are read, each as a single character,
  and expansions inside words are not performed.

# flexmore Source — a verified model of the supply facility

`flexmore::Source` is a Cyclus facility that supplies one commodity. Each
timestep it offers up to a time-varying throughput, capped by a finite
inventory that shrinks with every trade. This project models the facility's
state and callbacks in Dafny and proves what they guarantee:

- **Entry** (`EnterNotify`): a one-entry throughput list is expanded to the
  facility's active lifetime. The list is then checked: its length must equal
  the lifetime, and every entry must lie in [0, largest double]. All
  violations are collected into one error.
- **Tick** (`Tick` / `SetThroughput`): the current throughput is the list
  entry for the number of steps since entry.
- **Bids** (`GetMatlBids`): the bound is `min(current throughput, inventory)`.
  Nothing is offered when the bound is below `eps` (1e-6) or no request exists
  for the output commodity. Otherwise there is one portfolio, with one bid of
  `min(target quantity, bound)` per request and one capacity constraint equal
  to the bound.
- **Trades** (`GetMatlTrades`): each trade, in order, debits the inventory by
  its amount and appends a response of that amount. The response uses the
  output recipe's composition, or the requested composition when no output
  recipe is set.

Files:

- `wrappers.dfy`: `Option` and `Result`.
- `resources.dfy`: the exchange records (material, request, bid, portfolio,
  trade, response) and the recipe lookup.
- `schedule.dfy`: the pure specification of expansion and validation.
- `exchange.dfy`: the pure specification of bids and fulfilment.
- `source.dfy`: the class `Flexmore.Source`. It has the facility's fields.
  Its methods update those fields and are proved against the specifications.
- `scenarios.dfy`: a client that drives the facility the way the kernel and
  the tests do. It covers the multi-value and single-value schedules and the
  trade-response test.

Modelling choices:

- Quantities are `real`. `DoubleMax` is the exact value of
  `numeric_limits<double>::max()`. `Eps` is `cyclus::eps()` = 1e-6.
- `DocumentedDefault` is 1e299, the default documented for inventory and
  throughput (src/source.h:107,123). A default-constructed object uses `DoubleMax`
  instead (src/source.cc:11-12). `FromConfig` applies the documented defaults.
- Compositions are opaque values. `Context::GetRecipe` is not among the
  source files; the context's recipe store is modelled as a map from name to
  composition, and the lookup raises a key error for an unknown name.
- The source leaves `currentThroughput` uninitialised. The ghost flag
  `throughputResolved` is set by `Tick`, and `GetMatlBids` requires it.
- The kernel's inputs are method parameters: the simulation time, the entry
  time, the lifetime and the simulation duration. `EnterNotify` stores the
  entry time in a field, which `SetThroughput` and `Tick` read, as the source
  reads the agent's one `enter_time()`.

Observations about the source that the model reproduces:

- The documentation of `outrecipe` says that with an empty recipe name the
  facility provides whatever compositions are requested (src/source.h:93-95).
  Bids do not do this: their material is always built from
  `GetRecipe(outrecipe)` (src/source.cc:133-136). With an empty output recipe,
  a bid uses the recipe registered under the empty name, and fails without one
  (`Exchange.BidCompositionIgnoresTarget`). Only trade responses use the
  requested composition (src/source.cc:161-165).
- The debit at src/source.cc:157-158 is not checked against the inventory, so
  `GetMatlTrades` has no such precondition.
  `Exchange.ClearingWithinConstraintKeepsInventory` shows that the inventory
  stays non-negative when the exchange respects the published constraint.
- `commod_requests.count(outcommod)` tests whether the key is present. A
  present key with an empty request list therefore yields one portfolio with
  no bids and one constraint.
- When the output recipe is unknown, `GetMatlTrades` debits the first trade
  and then fails. Nothing is appended.
- `EnterNotify` keeps the expanded list even when it raises the error.
- The bid test (src/source_tests.cc:105-131) calls `GetMatlBids` on a facility
  that was never ticked. That call reads the uninitialised
  `currentThroughput`, yet the test expects the constraint to be 5.
  `GetMatlBids` requires `throughputResolved`, so the model excludes this call.

## Model

| member | source | states |
|---|---|---|
| `Flexmore.Source.constructor` | src/source.cc:9-15 | a new facility has throughput `[DoubleMax]`, inventory `DoubleMax`, latitude and longitude 0, empty commodity and recipe names, and no current throughput yet |
| `Flexmore.Source.FromConfig` | src/source.h:89-146 | configured parameters are stored; absent ones take their documented defaults (recipe "", inventory 1e299, throughput [1e299], position 0, 0) |
| `Flexmore.Source.EnterNotify` | src/source.cc:37-67 | the new throughput is the old one expanded to the active lifetime (lifetime, or duration minus entry time when the lifetime is -1); the raised error is exactly `Validate` of the expanded list; the entry time is stored for later ticks |
| `Flexmore.Source.SetThroughput` | src/source.cc:92-95 | the current throughput becomes the entry at time minus the stored entry time, and no other field changes |
| `Flexmore.Source.Tick` | src/source.cc:98-100 | a tick only sets the current throughput to the entry of the current step |
| `Flexmore.Source.GetMatlBids` | src/source.cc:103-145 | the result is `MatlBids` of the facility's state and the requests; every bid is at most the current throughput and at most the inventory; the recorded supply value is min(current throughput, inventory) |
| `Flexmore.Source.GetMatlTrades` | src/source.cc:148-170 | the inventory drops by exactly the sum of the trade amounts; one response per trade is appended, in order, with that trade's amount and the recipe policy's composition; no trades change nothing; an unknown output recipe fails at the first trade after its debit |
| `Schedule.BadEntriesSound` | src/source.cc:55-62 | every reported violation names a real position with its actual value, and that value is negative or above the largest double |
| `Schedule.BadEntriesComplete` | src/source.cc:55-62 | every out-of-range entry is reported with its position and value |
| `Schedule.BadEntriesOrdered` | src/source.cc:55-62 | violations are reported in strictly increasing position order, each at most once |
| `Schedule.BadEntriesEmptyIff` | src/source.cc:55-62 | no violation is reported if and only if every entry is in [0, DoubleMax] |
| `Schedule.ValidateSucceedsIff` | src/source.cc:49-66 | entry raises no error if and only if the list has lifetime length and every entry is in range |
| `Schedule.ValidateReportsEveryViolation` | src/source.cc:49-66 | one error carries the length mismatch (actual and expected length) exactly when the lengths differ, together with every out-of-range entry and nothing else |
| `Schedule.ExpandSingleEntry` | src/source.cc:43-46 | a one-entry list becomes a list of exactly ltime entries, each equal to the single entry, so every step has the same throughput |
| `Schedule.SingleInRangeEntryValidates` | src/source.cc:43-66 | a single in-range value passes validation for every lifetime |
| `Schedule.SingleNegativeEntryReportedEverywhere` | src/source.cc:43-62 | a single negative value is reported at every position of the expanded list |
| `Exchange.Min` | src/source.cc:111 | the bid bound min(current throughput, inventory) is at most both and equals one of them |
| `Exchange.BidsForShape` | src/source.cc:126-138 | one bid per request, in request order, each offering min(target quantity, bound) of the given composition |
| `Exchange.BidsForBounded` | src/source.cc:132 | no bid offers more than the bound or more than its request's target |
| `Exchange.BidsForNonNegative` | src/source.cc:132 | with a non-negative bound and non-negative targets, no bid is negative |
| `Exchange.MatlBidsEmptyIff` | src/source.cc:119-124 | the bid set is empty if and only if the bound is below eps or no request exists for the output commodity |
| `Exchange.MatlBidsPortfolio` | src/source.cc:126-142 | otherwise there is exactly one portfolio; its only constraint equals the bound and its bids follow the requests in order with quantity min(target, bound) and the output recipe's composition |
| `Exchange.BidCompositionIgnoresTarget` | src/source.cc:133-136 | with an empty output recipe the bid material is taken from the recipe named "", not from the request, and the bid fails when no such recipe exists |
| `Exchange.ResponsesForShape` | src/source.cc:155-169 | one response per trade, in trade order, of exactly the trade's amount and the policy's composition |
| `Exchange.ResponseRecipePolicy` | src/source.cc:160-165 | with an output recipe every response has that recipe's composition; without one every response mirrors its request's target composition |
| `Exchange.TotalAmountAppend` | src/source.cc:156-158 | fulfilling two batches in turn debits the sum of both batches |
| `Exchange.TotalAmountNonNegative` | src/source.h:103-106 | trades with non-negative amounts never increase the inventory |
| `Exchange.ClearingWithinConstraintKeepsInventory` | src/source.cc:140-142 | when the cleared total respects the published constraint, the inventory after fulfilment stays between zero and its old value |
| `Scenarios.SupplyBounds` | src/source_tests.cc:61-98 | entering with a list, then ticking and bidding on every step, records on each step the supply value min(expanded entry, inventory), or raises exactly the validation error |
| `Scenarios.MultiThroughputScenario` | src/source_tests.cc:61-79 | the list [1, 2, 3] over three steps records the supply values 1, 2, 3 |
| `Scenarios.SingleThroughputScenario` | src/source_tests.cc:82-99 | the list [1] over three steps records the supply value 1 on every step |
| `Scenarios.ResponseScenario` | src/source_tests.cc:133-174 | with output recipe "recipe" and throughput [5]: no trades give no response; one trade of 5/3 gives one response of 5/3 with the recipe's composition; two such trades give two such responses |

## Left out

- Telemetry: the log lines, and the writing of the `supply<commodity>` time series. `GetMatlBids` returns the recorded value as its `supply` result.
- `str()`, which only formats text.
- `RecordPosition`, `InitFrom` and the commodity-producer registration, which are framework and database calls. `FromConfig` stands in for loading the parameters.
- The `coordinates` position object. Only latitude and longitude are stored.
- `ConstructSource`, cloning, snapshotting and the code-generation directives.
- Bidder identity: every bid and portfolio belongs to this facility, so the model does not record an agent reference.
- The exact error-message text. The error is the optional length mismatch plus the list of (position, value) violations.
- Rounding of the debit at src/source.cc:158: the model subtracts exact reals, while the program's doubles absorb a small debit from an inventory near DoubleMax or 1e299, leaving it unchanged.
- IEEE behaviour: a NaN entry passes both range tests, and `> max()` only catches +infinity. Entries are reals, checked against `DoubleMax`.
- Negative active lifetimes: `EnterNotify` requires the active lifetime to be at least 0.
- The range [0, 1e299] for the inventory is documented at src/source.h:108-110, but the class never checks it. `FromConfig` stores the value as given.
- The test fixtures and the simulation harness used by the tests. The scenario methods drive the facility the way those tests do and state their expected values.
- Scenarios.SupplyBounds: runs without the sink's trades, so the inventory stays at 1e299 between steps. A trade of at most one step's throughput cannot lower that inventory below the throughputs of these tests.

# YieldForge bookkeeping in Dafny

This project models the simulated finance behind the YieldForge dashboard: a yield vault on the Qubic testnet. It covers four parts:

- **`Ledger`.** The vault contract (`SmartContractService`):
  - a share ledger that mints one lot per deposit and burns lots oldest-first on withdrawal;
  - a rebalance engine that turns yields and price momentum into capped, rounded and renormalised allocations;
  - a compounding engine that grows the one global share value once per 24 hours, net of a 0.5% yearly management fee.
- **`Chain`.** The mock Qubic service (`QubicService`):
  - wallet connect and disconnect;
  - a testnet faucet;
  - an append-only transaction log;
  - the gas fee table;
  - the random-walk oracle feed that pushes quotes to its subscribers.
- **`Store`.** The application store (`AppStore`): one record of dashboard state, and the actions that move it from one state to the next by calling the ledger and the chain service.
- **Component helpers.** The small pure helpers of four components:
  - the demo oracle tick (`OracleFeed`);
  - the what-if allocation clamp (`Simulator`);
  - the vote-share and time-left arithmetic and the vote-button predicate (`Governance`);
  - address truncation (`Navbar`).

`Common` holds the shared vocabulary:
- JavaScript objects used as string-keyed records (`Record`, an insertion-ordered list of entries with `Lookup` and `Put`);
- JavaScript numbers that can be NaN (`Number`), and the `x || d` fallback (`OrElse`);
- thrown errors as `Result` values;
- every clock reading and `Math.random()` draw as a field of an `Env` parameter.

## How the model is built

- **Imperative code stays imperative.** Each service and the store is a class whose fields the methods update, with `modifies` frames. The following loops are method loops, each proved against a function:
  - the FIFO `filter` of a withdrawal;
  - the scoring, capping and normalising loops of a rebalance;
  - the 60-letter address generator;
  - the per-asset oracle tick over the feed's asset array.

  The `for…in` loops of `calculateRebalanceYield` and `determineRebalanceReason` (src/services/smartContractService.ts:267-306) are the recursive functions `Ledger.YieldSums` and `Ledger.MaxChange`. The store's record-building `forEach` (src/lib/store.ts:369-373) is the recursive function `Store.BuildRecord`.
- **Cross-service calls are real calls.** The ledger calls the chain service's `ExecuteTransaction`, which fails when no wallet is connected. The store calls the ledger and the chain service.
- **The ledger's order of effects is kept.**
  - `deposit` and `withdraw` fail before any change.
  - `rebalance` and `compound` record their event before the transaction is logged. Their history and share-value changes therefore remain after the call fails for want of a wallet.
- **Consequences of the code that a reader might not expect:**
  - **Compounding at a non-negative APY can lower the share value.** The 0.5% annual management fee (src/services/smartContractService.ts:55, 198-199) is charged daily whatever the APY. The fee-adjusted daily factor exceeds 1 only above an APY of 182.5/364.995 ≈ 0.5%. At 0% APY the share value shrinks by the daily fee (`Ledger.CompoundFactorSpec`, `Ledger.CompoundAmountSign`).
  - **The 80% cap is not an invariant of the final allocations.** The source declares `MAX_ALLOCATION = 0.8` as the maximum in a single asset (src/services/smartContractService.ts:57), but the cap applies before renormalisation. A single asset is capped at 80 and then scaled back up to 100 (`Ledger.SingleAssetExceedsCap`).
  - **The store's `currentApy` starts at 0, not at the 10.4 the initial assets imply.** It is set to the allocation-weighted yield only on connect, on subscription, on an oracle quote and on a rebalance. `updateOracleData` leaves it as it was. So `currentApy == Apy(oracleData)` holds after those actions but is not an invariant of the store.
  - **A store withdrawal's `totalTvl = max(0, totalTvl − qx)` is immediately overwritten.** `updateMetrics` sets it to the ledger's TVL. The model states the final value.
  - **Rebalance results are applied through `||`.** A proposed allocation of exactly 0, or NaN (all scores 0), keeps the asset's old allocation (`Store.ApplyAllocationsSpec`).

## Model

| member | source | states |
|---|---|---|
| Common.Round2 | src/services/smartContractService.ts:153 | two-decimal rounding moves a value by at most half a cent |
| Chain.CalculateGasFee | src/services/qubicService.ts:220-229 | the fee is 0.1, 0.15, 0.05 or 0.03 QX for deposit, withdraw, rebalance or compound, and always positive |
| Chain.DestinationNonEmpty | src/services/qubicService.ts:111 | a logged call never has an empty destination, and a given address is used exactly when it is non-empty |
| Chain.Letter | src/services/qubicService.ts:72 | every generated character is an upper-case letter A–Z |
| Chain.QuoteBounds | src/services/qubicService.ts:169-177 | a quote is for the asset's id; its step is at most volatility·base/2 either way; its price is the stepped price floored at 0.01; its confidence lies in [0.95, 1) |
| Chain.TickDeliveriesLength | src/services/qubicService.ts:168-185 | one tick makes exactly assets × subscribers calls |
| Chain.TickDeliveriesAt | src/services/qubicService.ts:168-185 | call k·S+j of a tick delivers asset k's quote to subscriber j |
| Chain.QubicService.constructor | src/services/qubicService.ts:32-35 | no wallet, an empty log, no subscribers |
| Chain.QubicService.GenerateQubicAddress | src/services/qubicService.ts:68-75 | the loop yields a 60-character address of A–Z letters, one per draw |
| Chain.QubicService.ConnectWallet | src/services/qubicService.ts:38-54 | the connected wallet holds 10000 QX, is on testnet, is connected, and has a valid 60-letter address; the feed starts from the initial asset table |
| Chain.QubicService.DisconnectWallet | src/services/qubicService.ts:57-60 | no wallet remains |
| Chain.QubicService.RequestFaucet | src/services/qubicService.ts:78-98 | without a wallet it fails with nothing changed; otherwise the balance grows by exactly 1000, exactly one confirmed faucet transfer to the wallet is appended, and 1000 is returned |
| Chain.QubicService.ExecuteTransaction | src/services/qubicService.ts:101-128 | without a wallet it fails and the log is unchanged; otherwise exactly one pending transaction from the wallet, with the given type and amount and the resolved destination, is appended after the unchanged earlier entries |
| Chain.QubicService.SubscribeToOracles | src/services/qubicService.ts:155-157 | the callback is appended after the earlier ones |
| Chain.QubicService.OracleTick | src/services/qubicService.ts:167-186 | every asset's base price becomes its new quoted price; the calls made are exactly the tick's deliveries |
| Ledger.ConsumeSum | src/services/smartContractService.ts:109-124 | taking an amount between 0 and the balance lowers the owner's lot sum by exactly that amount |
| Ledger.ConsumeShape | src/services/smartContractService.ts:109-121 | the FIFO shape: the survivors are a suffix of the lots in their order; only the first may be reduced, and it stays positive; a non-positive amount keeps every lot |
| Ledger.ConsumeSuffix | src/services/smartContractService.ts:109-121 | the survivors are a suffix of the lots; only the first may be reduced, and never grows |
| Ledger.ConsumePositive | src/services/smartContractService.ts:113-118 | positive lots stay positive: a lot is reduced only by less than its amount |
| Ledger.FifoFromConsume | src/services/smartContractService.ts:109-121 | running the filter from any lot on appends the FIFO remainder of the remaining lots to what was kept |
| Ledger.ConsumeNothing | src/services/smartContractService.ts:111 | once nothing remains to withdraw, every further lot is kept |
| Ledger.LotSumAppend | src/services/smartContractService.ts:82-85 | appending a lot adds its amount to the owner's balance |
| Ledger.TotalLotsRemove | src/services/smartContractService.ts:44-48 | the total over all owners is the same whichever owner is counted first |
| Ledger.TotalLotsUpdate | src/services/smartContractService.ts:123-124 | replacing one owner's lots changes the total by the difference of their sums |
| Ledger.WithdrawKeepsLotsWellFormed | src/services/smartContractService.ts:109-123 | after a withdrawal every lot is still positive and stored under its own owner |
| Ledger.PriceChangeBounds | src/services/smartContractService.ts:261-264 | the simulated momentum lies in [-5%, +5%) |
| Ledger.ScoresNonNegative | src/services/smartContractService.ts:141-146 | every score is at least 0 |
| Ledger.NewAllocationKeys | src/services/smartContractService.ts:141-160 | the allocation keys are exactly the yield keys, in order |
| Ledger.Round2InCap | src/services/smartContractService.ts:150-153 | rounding a percentage in [0, 80] stays in [0, 80] |
| Ledger.CappedBounds | src/services/smartContractService.ts:141-154 | scores are non-negative; a capped allocation is NaN exactly when all scores are 0, and otherwise lies in [0, 80] |
| Ledger.SumNumbersFinite | src/services/smartContractService.ts:157 | a finite JavaScript sum has no NaN term |
| Ledger.SumNumbersAsReals | src/services/smartContractService.ts:157 | without NaN terms the JavaScript sum is the real sum |
| Ledger.CappedTotalZero | src/services/smartContractService.ts:150-159 | a rounded total of 0 comes only from all-zero allocations, so normalisation never divides a non-zero value by 0 |
| Ledger.SumNormalised | src/services/smartContractService.ts:157-160 | scaling every entry by 100/total scales their sum the same way |
| Ledger.NewAllocationsSumTo100 | src/services/smartContractService.ts:141-160 | when the rounded total is positive, the final allocations sum to exactly 100 and each lies in [0, 100] |
| Ledger.SingleAssetExceedsCap | src/services/smartContractService.ts:150-160 | one asset with yield 10 ends at 100, above the 80 cap |
| Ledger.RebalanceYieldIsDelta | src/services/smartContractService.ts:267-281 | the generated yield equals the sum over the yield keys of (new − old allocation)·yield/100 |
| Ledger.RebalanceYieldUnchanged | src/services/smartContractService.ts:267-281 | unchanged allocations on every yield key generate no yield |
| Ledger.MaxChangeSpec | src/services/smartContractService.ts:288-297 | the maximum found bounds every change; when positive it is the change of the first entry reaching it, whose key is reported |
| Ledger.RebalanceReasonSpec | src/services/smartContractService.ts:284-306 | major exactly when some change exceeds 20, naming the first asset with the largest change; yield optimisation exactly when the largest change is in (10, 20]; routine exactly when every change is at most 10 |
| Ledger.CompoundFactorSpec | src/services/smartContractService.ts:194-200 | the factor is positive above −36500% APY and strictly increasing in the APY; it exceeds 1 exactly above the break-even APY; at 0% only the fee applies and it is below 1 |
| Ledger.CompoundAmountSign | src/services/smartContractService.ts:199-202 | with a positive supply the compounded amount is positive exactly above the break-even APY, and 0 exactly at it |
| Ledger.CompoundEventOf | src/services/smartContractService.ts:202-212 | the recorded amount is positive exactly when the share value rose over a positive supply, or fell over a negative one |
| Ledger.SmartContractService.constructor | src/services/smartContractService.ts:44-50 | no lots, empty histories, share value 1, supply 0, both clocks at the start time |
| Ledger.SmartContractService.GetTVL | src/services/smartContractService.ts:241-243 | while the supply matches the lots, TVL is the sum of all lots times the share value |
| Ledger.SmartContractService.GetUserShares | src/services/smartContractService.ts:236-238 | returns exactly the stored lots of the owner, oldest first (none for an unknown owner); they sum to the balance, all belong to the owner and are positive |
| Ledger.SmartContractService.Deposit | src/services/smartContractService.ts:60-91 | below 10 QX, or without a wallet, it fails with nothing changed; otherwise one lot of amount/shareValue, worth the amount, is appended to the owner's list only, the supply and balance grow by it, one pending deposit call of the amount to the contract is appended to the unchanged log, and supply = sum of lots is kept |
| Ledger.SmartContractService.Withdraw | src/services/smartContractService.ts:94-127 | above the balance, or without a wallet, it fails with nothing changed; otherwise it returns shares·shareValue, replaces the owner's lots by their FIFO remainder, lowers supply and balance by the amount, appends one pending withdraw call of shares·shareValue to the unchanged log, and keeps supply = sum of lots and well-formed lots |
| Ledger.SmartContractService.WithdrawFifo | src/services/smartContractService.ts:109-121 | the filter loop computes exactly the FIFO remainder of the lots |
| Ledger.SmartContractService.ScoreAssets | src/services/smartContractService.ts:141-146 | the scoring loop gives every yield key's momentum-adjusted score, floored at 0, and their total |
| Ledger.SmartContractService.CapAllocations | src/services/smartContractService.ts:149-157 | the capping loop gives every asset's rounded share of the total, capped at 80, and their JavaScript sum |
| Ledger.SmartContractService.Normalise | src/services/smartContractService.ts:158-160 | the normalising loop divides every allocation by the total, in percent |
| Ledger.RebalanceEventOf | src/services/smartContractService.ts:163-174 | the event keeps the input allocations unchanged, proposes one allocation per yield key in key order, and records a positive gas fee |
| Ledger.SmartContractService.Rebalance | src/services/smartContractService.ts:130-183 | the history grows by exactly one event, holding the input allocations unchanged, the new allocations, the reason, the rebalance gas fee and the generated yield; with a wallet it returns that event and appends one pending rebalance call of 0 to the unchanged log; without one it fails, keeps the event and leaves the log unchanged |
| Ledger.SmartContractService.Compound | src/services/smartContractService.ts:186-221 | within 86400 s of the last compound it fails with nothing changed; otherwise the share value is multiplied by the fee-adjusted daily factor, one event with amount (new − old)·supply is appended and the clock moves on; with a wallet one pending compound call of 0 is appended to the unchanged log and the event is returned, without one the call fails and the log is unchanged |
| Store.InitialApy | src/lib/store.ts:88-128 | the initial assets (45/30/25 at 12/10/8) give an APY of 10.4 |
| Store.ApySameWeights | src/lib/store.ts:498 | assets with the same yields and allocations have the same APY |
| Store.ApyBounds | src/lib/store.ts:201 | with non-negative allocations and yields in [0, top], the APY lies between 0 and top·(total allocation)/100 |
| Store.FindProposal | src/lib/store.ts:335 | none exactly when no proposal has the id; otherwise the first proposal with that id |
| Store.VoteSpec | src/lib/store.ts:342-352 | only the proposals with the id change; their chosen tally grows by the shares, the other tally is unchanged, and they are flagged as voted |
| Store.VoteClosesProposal | src/lib/store.ts:335-339 | after a vote on an existing proposal the double-vote guard refuses the next one |
| Common.PutSpec | src/lib/store.ts:370-372 | assigning `obj[k] = v` makes k read v, leaves every other key as it was, keeps keys distinct, and adds an entry exactly when k was new |
| Store.BuildRecordShape | src/lib/store.ts:365-373 | the record built from the assets never holds a key twice and has at most one entry per asset |
| Store.BuildRecordDistinct | src/lib/store.ts:369-373 | with distinct symbols the record lists every asset's value under its symbol, in asset order |
| Store.ApplyAllocationsSpec | src/lib/store.ts:382-385 | only allocations change; an asset takes the non-zero finite value under its symbol and keeps its old allocation for a missing, zero or NaN value |
| Store.RebalanceAdoptsAllocations | src/lib/store.ts:365-385 | on distinct symbols, asset i takes the i-th proposed allocation, or keeps its own when that is 0 or NaN |
| Store.ApplyAllocationsKeepsPrices | src/lib/store.ts:382-385 | applying allocations keeps every price positive |
| Store.TickSpec | src/lib/store.ts:479-503 | a quote changes only the assets with its symbol: new price, percentage move added to change24h, the quote's time, confidence and source; the APY is unchanged and prices stay positive |
| Store.MaxAbsChange | src/lib/store.ts:507-508 | none exactly for no assets; otherwise the largest absolute change24h, reached by some asset |
| Store.ThresholdSpec | src/lib/store.ts:506-511 | the auto-rebalance threshold is met exactly when some asset moved by more than 5% either way |
| Store.AppStore.constructor | src/lib/store.ts:178-192 | disconnected, with the initial assets, portfolio, proposals and metrics, APY 0, TVL 2847500, empty histories, and fresh services |
| Store.AppStore.ConnectedIffWallet | src/lib/store.ts:256 | in a valid store the wallet guard passes exactly when the chain service holds a wallet |
| Store.AppStore.ConnectWallet | src/lib/store.ts:194-219 | connected with the generated address, the wallet balance in the portfolio, the APY recomputed, the store subscribed to the oracle feed, a success notification |
| Store.AppStore.StartOracleSubscription | src/lib/store.ts:471-477 | the APY is recomputed and the store's handler is appended to the subscribers |
| Store.AppStore.DisconnectWallet | src/lib/store.ts:221-229 | the wallet is gone in the store and the chain service, and the portfolio is back to its initial value |
| Store.AppStore.ToggleDemoMode | src/lib/store.ts:231-239 | demo mode flips; only turning it on notifies |
| Store.AppStore.ToggleAutoMode | src/lib/store.ts:241-248 | auto mode flips and the notification says which way |
| Store.AppStore.UpdateOracleData | src/lib/store.ts:250-252 | the asset list is replaced by the given one |
| Store.AppStore.ClearNotification | src/lib/store.ts:467-469 | no notification remains |
| Store.AppStore.UpdateMetrics | src/lib/store.ts:516-535 | the metrics take the ledger's TVL, the store APY, the ledger's rebalance count and last time, the accrued revenue and the next hourly slot; the store TVL becomes the ledger's |
| Store.AppStore.Deposit | src/lib/store.ts:254-285 | without a wallet, or below the minimum, it fails with the portfolio and the ledger unchanged; otherwise QX falls by the amount, shares and the ledger balance rise by the minted amount, the deposit is appended, and the TVL is the ledger's |
| Store.AppStore.BookDeposit | src/lib/store.ts:266-280 | the portfolio loses the QX, gains the minted shares valued at the ledger's share value, appends the deposit, and the TVL ends as the ledger's |
| Store.AppStore.Withdraw | src/lib/store.ts:287-323 | without a wallet, or for shares ≤ 0 or above those owned, the ledger is never called and the portfolio is unchanged; on success QX rises by the returned value, shares and the ledger balance fall by the amount, and the TVL is the ledger's |
| Store.AppStore.Vote | src/lib/store.ts:325-358 | without shares, or on a proposal already voted on, the proposals are unchanged and an error is shown; otherwise exactly the vote of the portfolio's shares is applied |
| Store.AppStore.BookWithdrawal | src/lib/store.ts:302-317 | the portfolio gains the QX paid out, gives up the shares, is revalued at the ledger's share value, and the TVL ends as the ledger's |
| Store.AppStore.Rebalance | src/lib/store.ts:360-403 | the ledger records one event built from the assets' allocations and yields; without a wallet the store keeps its assets, history and APY; otherwise the allocations are applied, the event is appended and the APY is recomputed |
| Store.AppStore.LedgerRebalance | src/lib/store.ts:365-379 | the three records are built from the assets and the ledger records exactly the event for the allocation and yield records; with a wallet that event is returned, without one the call fails with "wallet not connected" |
| Store.AppStore.AdoptRebalance | src/lib/store.ts:382-398 | the assets take the proposed allocations, the event is appended, the APY is recomputed and the TVL is the ledger's |
| Store.AppStore.Compound | src/lib/store.ts:405-438 | too early, or without a wallet, the portfolio and store history are unchanged; otherwise the share value follows the ledger, the harvest is appended, totalEarned grows by the event's amount, and the event joins the history |
| Store.AppStore.RequestFaucet | src/lib/store.ts:440-459 | without a wallet the portfolio, the chain wallet and the log are unchanged and the failure is shown; otherwise the portfolio's QX balance and the chain wallet's balance both grow by 1000 and one confirmed faucet transfer to the wallet is appended to the log |
| Store.AppStore.OnOraclePrice | src/lib/store.ts:477-513 | the quote is applied and the APY recomputed; without a rebalance the assets are the ticked assets and the APY equals the old one; the ledger rebalances exactly when auto mode was on and some ticked asset moved by more than 5%, recording the event for the ticked assets' allocations and yields; then with a wallet the ticked assets take the proposed allocations and the event joins the store's history, and without one the ticked assets stay and the failure is shown |
| OracleFeed.TickIndex | src/components/OracleFeed.tsx:27 | the drawn index lies within the list |
| OracleFeed.PriceStepBound | src/components/OracleFeed.tsx:30 | the raw step is within ±1% of the price |
| OracleFeed.FeedTickSpec | src/components/OracleFeed.tsx:27-45 | only the drawn asset changes: price floored at 0.01, change24h clamped to [−10, 10], new time, other fields kept; prices stay positive and the APY is unchanged |
| OracleFeed.UnflooredChange | src/components/OracleFeed.tsx:30-32 | when the floor does not apply, the unclamped change is the old one plus (d − 0.5)·2, within one point of it |
| Simulator.SimulateSpec | src/components/RebalanceSimulator.tsx:44-53 | one entry per asset in order, keeping the symbol and current allocation, simulated in [5, 80], change = simulated − current, and exactly the shifted allocation when that is in bounds |
| Simulator.MissingSymbol | src/components/RebalanceSimulator.tsx:45-46 | a symbol the scenario does not name is shifted by 0 and only clamped |
| Simulator.GoldPumpExample | src/components/RebalanceSimulator.tsx:21-26 | the gold-pump scenario on 45/30/25 gives 35/50/15 |
| Governance.JsRem | src/components/GovernancePanel.tsx:13 | the remainder has the dividend's sign and is smaller than the divisor in magnitude |
| Governance.TimeRemainingSpec | src/components/GovernancePanel.tsx:10-15 | before the deadline, the whole days and the whole hours 0..23 left over; after it, negative days and hours in [−24, 0] |
| Governance.VotePercentageSpec | src/components/GovernancePanel.tsx:17-21 | 50 for no votes; in [0, 100] for non-negative tallies; the against-bar (100 minus it) is the against-share, so the bars fill 100 |
| Governance.ButtonsOrBadge | src/components/GovernancePanel.tsx:132-154 | the vote buttons and the voted badge never show together, and exactly one shows to a connected shareholder on an active proposal |
| Governance.ButtonsMeanVoteCounted | src/components/GovernancePanel.tsx:132 | a button press on a uniquely identified proposal passes both of the store's vote guards |
| Navbar.TruncateSpec | src/components/Navbar.tsx:65-70 | addresses of at most 20 characters pass through; longer ones become exactly 21 characters: the first 10, "...", the last 8 |
| Navbar.DisplaySpec | src/components/Navbar.tsx:157 | no wallet shows the empty string; a 60-letter address shows as 21 characters |

## Left out

- **Timers and delays.** Each `await` is one atomic step. The following are not modelled:
  - the 5-second notification auto-clear;
  - `simulateAutoCompound` and the demo-mode interval that starts it;
  - the delayed confirmation of a pending transaction;
  - the `setInterval` wrappers around the oracle ticks.
  Only the tick bodies are modelled.
- **Randomness, clocks and ids.** These are `Env` and draw parameters:
  - `Math.random()` (momentum, gas, block numbers, oracle steps and nodes, metrics noise);
  - `Date.now()`;
  - the random id strings.
- **Numbers.** IEEE-754 floating point is modelled with exact reals. `Math.round(x*100)/100` is modelled as an exact two-decimal rounding. `toFixed` and all notification text are modelled as the `Message` datatype.
- **Loading state.** The `isLoading` flag is not modelled, since each action sets it and clears it again.
- **Store plumbing.** The zustand `set`/`get` machinery is not modelled.
- **Record key order.** JavaScript enumerates integer-like keys of an object first. The asset symbols are never integer-like, so records keep insertion order.
- **Withdrawal aliasing.** `withdraw`'s filter reduces the partly used lot object in place, and that object is shared with earlier `getUserShares` results. The model replaces the lot with a reduced copy.
- **Oracle subscribers.** Subscribers are recorded by name, and a tick returns the calls it makes. The store's handler is a separate method (`Store.AppStore.OnOraclePrice`).
- **Getters.** The following are not modelled: the unused oracle WebSocket, `getOraclePrices` (a random snapshot), `getIPOData`, `estimateTransactionTime`, `getWallet`, `getTransactions` and the history getters.
- **Proposal descriptions.** The long description text of each proposal is display text only; `Store.Proposal` keeps the id, title, tallies, status, deadline, quorum and vote flag.
- **Components.** All rendering is left out. DepositModal, WithdrawModal, PortfolioDashboard, HeroSection, Footer and the index page are not part of this model.
- Ledger.SmartContractService.Compound: requires an APY above −36500%. Below it the factor is not positive and the share value would turn non-positive.
- Store.AppStore.Compound: requires an APY above −36500%, for the same reason.
- Store.AppStore.UpdateOracleData: requires positive prices. A zero price would make the next quote divide by zero, which JavaScript turns into Infinity.
- Store.AppStore.OnOraclePrice: requires a positive quoted price, for the same reason. It also requires at least one momentum draw per asset for the rebalance it may start.
- Store.AppStore.Rebalance: requires at least one momentum draw per asset.
- Ledger.SmartContractService.Rebalance: requires at least one momentum draw per yield key.
- Store.AppStore.ConnectWallet: requires exactly the 60 letter draws of the address generator.
- Store.AppStore.LedgerRebalance: requires at least one momentum draw per asset, as Store.AppStore.Rebalance does.
- OracleFeed.FeedTick: requires positive prices. The percentage change divides by the old price.

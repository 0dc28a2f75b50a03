# Trading desk: a verified model

This project models the parts of a trading desk where money, risk and admission are decided, and proves what the
desk promises about them over every input, every run and every reachable state:

- the **account ledger** (`Ledger`, `LedgerLaws`, `LedgerOrder`, `LedgerIssues`, `LotMatching`), which folds a broker's activity list
  into cash, inventory, fees, income and realized P&L without matching lots;
- the **drawdown state machine** (`AccountRisk`, `RiskRuns`, `RiskAcceptance`), which keeps a baseline, a high-water
  mark and an append-only transfer history, and the joint theorems of both (`LedgerRisk`, `TransferNeutrality`,
  `NeutralRuns`);
- the **scan** (`Funnel`, `FunnelCounts`, `SendLoop`, `SendLaws`, `SendDecisions`, `Sending`, `GateLaws`,
  `ScanExposure`): the collect funnel, the send loop's decisions and budgets, the LLM gate and the exposure ceiling;
- **sizing and brackets** (`Brackets`, `Sizing`, `SizingMeaning`, `SizingLaws`, `ScaleSizing`, `ScaleLaws`, `LlmGate`,
  `Evaluation`, `CardDecisions`, `CardLaws`, `CardSizes`);
- the bar-by-bar **backtest** (`Backtest`, `BacktestLaws`, `BacktestMeaning`, `BacktestStops`) and the live stop ratchet
  (`LiveStops`);
- the shared **request pacer** (`Pacer`) and the static/live **calendar** union (`Calendar`).

Money and prices are reals; `round(x, 2)` is concrete half-to-even rounding to cents (`Rounding`). A fingerprint is
the evidence it digests. Clocks, broker answers, LLM replies, strategy signals and exceptions are arbitrary inputs.
Code that updates state in place is a class or a loop proved equal to a specification function (`RequestPacer`,
`ScanFunnel`, `Sender`, `BacktestEngine`, `Ledger.Reconcile`, `AccountRisk.CollectCashHistory`,
`Sizing.CalculateSizing`, `ScaleSizing.Scale`); the laws are then proved of that function.

What each operation decides is also stated on its raw inputs, naming none of the functions that compute it:
`LedgerLaws.ReadIff`, `LedgerIssues`, `RiskAcceptance`, `SendDecisions`, `FunnelCounts`, `SizingMeaning`, `CardDecisions`,
`BacktestMeaning`, `LiveStops.RequestIs`, `Brackets.LevelsAre`, `Calendar.StaticNamed` and `LiveNamed`.

Some properties one might expect are false of the code; each has an input that shows it and its exact boundary:

- a total of an activity list depends on the order of the list exactly when two activities with one id differ in what
  they contribute to it (`LedgerOrder.TotalsOrderFreeIff`, `RepeatedIdDependsOnOrder`);
- a sub-penny entry is sized on its stop distance rounded to cents: when that rounds down, tiers lose more than the
  budget (`CardLaws.KeepsBudgetIff`, `SubPennyEntryOversizes`); when it rounds up, a reply whose stop lies between the
  two distances makes the card larger, which the code's comments rule out, unless the ATR minimum admits no such stop
  or a short's target has no room above zero (`CardSizes.NeverEnlargesIff`, `WiderStopEnlarges`, `AtrMinimumShields`);
- futures tiers repeat a quantity exactly when base and max coincide at three or more contracts
  (`Sizing.TiersIncreaseIff`, `FuturesTiersRepeat`);
- the edge of a live event's window is open when a static event within the match tolerance replaces it
  (`Calendar.LockoutIff`, `EdgeOfMatchedWindowIsOpen`);
- rounding a raised stop to cents can move it back over a sub-cent stop, exactly where the stop and the step do not
  round safely (`BacktestStops.RaisedProtectsIff`, `SubCentStopReverses`); stops the levels compute are cent prices.

The exposure ceiling holds for what the send loop counts. Were an iteration to fail after it records a card and before
the card joins the book, that card would stay uncounted (`ScanExposure.RecordedNotionalStaysUnderCeiling`). The loop
charges its budgets first because of such a failure; between the two stand only bookkeeping and a log call, so
`LateFailureBreaksCeiling` is a hypothetical.

The desk raises rather than constructing a pacer with a nonpositive limit, and divides by a live position's multiplier
and quantity; these appear as preconditions. Sizing laws assume `min_shares > 0` and `min_contracts >= 1`, bracket laws
a tick that is a whole number of cents, and backtest stop laws nonnegative ticks and steps and stops
that round safely. Card laws range over the terms the configuration accepts (`CardLaws.Configured`).

## Model

| member | source | states |
|---|---|---|
| `Ledger.ReadFill` | agentic_trader/accounting/ledger.py:112-125 | A fill keeps its own symbol, positive quantity and price, and counts against cash exactly when it is a buy; which activities are fills is `LedgerLaws.ReadIff` |
| `Ledger.ReadCash` | agentic_trader/accounting/ledger.py:126-136 | A cash activity keeps its own amount, must be executed, moves no shares as a transfer, and is a fee or income only under that kind |
| `LedgerLaws.ReadIff` | agentic_trader/accounting/ledger.py:112-138 | By literal kind: a FILL is read if and only if quantity and price are positive numbers, symbol, order id and time are nonempty, the side is buy, sell or sell_short, the symbol has no slash and the class is absent or us_equity; CSD, CSW and JNLC are transfers, FEE, CFEE and DIVFEE fees, DIV and INT income, if and only if executed with a readable amount, and a transfer only without shares |
| `Ledger.PostAll` | agentic_trader/accounting/ledger.py:99-140 | The activity loop over its mutable totals computes the fold `Replay`, whose laws are `IssueFreeIffClean` and `CleanTotals` |
| `Ledger.SumPositions` | agentic_trader/accounting/ledger.py:156-168 | The position loop totals signed cost basis and unrealized P&L whatever order the positions come in |
| `Ledger.Reconcile` | agentic_trader/accounting/ledger.py:92-169 | The whole reconciliation returns the report of the fold, issues included; when it is ready and what it then says are `ReadyIffReconciles` and `ReadyTotals`, on raw fields |
| `LedgerLaws.IssueFreeIffClean` | agentic_trader/accounting/ledger.py:105-140 | The loop leaves no issue exactly when every activity is identified, supported and complete and no id repeats |
| `LedgerLaws.CleanTotals` | agentic_trader/accounting/ledger.py:105-140 | On a clean list every loop variable is an order-free sum, per symbol for the inventory |
| `LedgerLaws.NoBookIssues` | agentic_trader/accounting/ledger.py:141-155 | No issue remains exactly when there was none before and cash, quantities and positions agree with the snapshot |
| `LedgerLaws.ReadyIffReconciles` | agentic_trader/accounting/ledger.py:60-61 | A report is ready if and only if the list is clean, cash agrees within tolerance, every symbol's quantity agrees and every position is consistent |
| `LedgerLaws.ReadyTotals` | agentic_trader/accounting/ledger.py:141-169 | Every field of a ready report is an order-free total |
| `LedgerLaws.OrderIndependent` | agentic_trader/accounting/ledger.py:92-169 | Permuted activity lists are both ready or both not, and ready ones give the same report |
| `LedgerOrder.KeptTotals` | agentic_trader/accounting/ledger.py:105-140 | Whatever the list, the loop's totals are the plain totals of the first copy of every id |
| `LedgerOrder.OrderFreeIff` | agentic_trader/accounting/ledger.py:105-140 | For any per-activity figure, its counted total is the same in every order of the list if and only if activities with one id agree on it |
| `LedgerOrder.TotalsOrderFreeIff` | agentic_trader/accounting/ledger.py:105-140 | Ready or not, fill cash, cash, fees, income, fills and each symbol's inventory are the same in every order of the list if and only if activities with one id contribute the same to them |
| `LedgerOrder.RepeatedIdDependsOnOrder` | agentic_trader/accounting/ledger.py:105-110 | Two fees of one and two dollars under one id: the total fees depend on the order |
| `LedgerIssues.IssuesAre` | agentic_trader/accounting/ledger.py:105-155 | The report of any list carries exactly the issues its raw fields give: an invalid activity for a missing or repeated id or a kept faulty one, each unknown kind kept, the cash difference past the tolerance, the set of disagreeing symbols, and positions whose basis has the wrong sign or class |
| `LedgerIssues.FiguresAre` | agentic_trader/accounting/ledger.py:141-169 | The report of any list, ready or not, gives the counts, differences, fees and income of the first copy of every id, and a realized P&L exactly when it has no issue |
| `LedgerLaws.LedgerEquation` | agentic_trader/accounting/ledger.py:141-169 | In a ready report, equity is external transfers plus net realized and unrealized P&L, within the cash tolerance |
| `LedgerLaws.RoundTripRealizesTen` | agentic_trader/accounting/ledger.py:92-169 | A deposit of 100, ten shares bought at 5 and sold at 6 and a cash balance of 110 are ready with a gross realized P&L of ten |
| `LotMatching.RealizedIsCashPlusOpenCost` | agentic_trader/accounting/ledger.py:1-6 | Under every cost-conserving lot method and any activities, realized P&L is fill cash plus the cost still open |
| `LotMatching.GrossRealizedIsLotFree` | agentic_trader/accounting/ledger.py:141-156 | A ready report's gross realized P&L differs from any such method's by exactly the difference of remaining bases, so they agree if and only if the bases do |
| `LotMatching.AverageCostConserves` | agentic_trader/accounting/ledger.py:1-6 | Average cost, with shorts and flips through zero, conserves cost and keeps the signed-basis rule |
| `LotMatching.AverageStepIs` | agentic_trader/accounting/ledger.py:1-6 | Adding averages the price in, reducing keeps the unit cost and a flip leaves the rest at the new price |
| `LotMatching.AverageQtyIsInventory` | agentic_trader/accounting/ledger.py:119-125 | The average-cost quantity of every symbol is the ledger's inventory |
| `LotMatching.GrossRealizedIsAverageCost` | agentic_trader/accounting/ledger.py:141-156 | With average-cost remaining bases, the ledger's gross realized P&L is the sum of per-fill average-cost P&L |
| `LotMatching.FifoConserves` | agentic_trader/accounting/ledger.py:1-6 | First-in-first-out lots conserve cost as well, any number of lots closed per fill |
| `LotMatching.FifoStepIs` | agentic_trader/accounting/ledger.py:1-6 | A fill on the lots' own side joins them last; against them the oldest close first, and an excess opens one lot at its price |
| `LotMatching.FifoVersusAverage` | agentic_trader/accounting/ledger.py:1-6 | Two methods' realized P&L on one list differ by exactly their open costs |
| `AccountRisk.CollectCashHistory` | agentic_trader/accounting/risk.py:120-145 | The transfer loop stops at the first transfer it cannot accept with that error, else returns the total and both sorted evidence lists |
| `AccountRisk.AdmissionSeesOnlyAccepted` | agentic_trader/accounting/risk.py:148-244 | After an accepted step admission returns exactly the stored snapshot, if and only if it is fresh, and it is consistent and matches the latest reconciled equity; after any rejected step admission refuses; which steps are accepted is `FirstAcceptedIff` and `NextAcceptedIff` |
| `RiskAcceptance.HistoryReadableIff` | agentic_trader/accounting/risk.py:120-145 | The transfer loop ends without an error if and only if every CSD, CSW and JNLC has an amount, is executed, moves no shares, has its kind's sign and an id |
| `RiskAcceptance.FirstAcceptedIff` | agentic_trader/accounting/risk.py:83-213 | From the empty state an observation is accepted if and only if there is no import error, the report is ready, its snapshot is of the bound account, taken at the report's aware time and not after now, the history is readable with distinct nonempty transfer ids, and equity is positive |
| `RiskAcceptance.NextAcceptedIff` | agentic_trader/accounting/risk.py:83-213 | On a stored history the same, with the stored account, no earlier time, exactly the stored journals reported and every accepted transfer still reported unrevised |
| `RiskAcceptance.ErrorExplained` | agentic_trader/accounting/risk.py:83-219 | Every observation leaves the error of the first raw condition it fails, that of the first bad transfer included, or none |
| `RiskAcceptance.DrawdownIsStored` | agentic_trader/accounting/risk.py:148-213 | A deposit of 100 and then a fee of ten, as the ledger reports them, store a high-water mark of 100 and a drawdown of one tenth |
| `AccountRisk.SortKeeps` | agentic_trader/accounting/risk.py:145 | Sorting the evidence loses and invents nothing |
| `AccountRisk.SortValid` | agentic_trader/accounting/risk.py:55-67 | Distinct nonempty ids come out strictly increasing, as the validator demands |
| `AccountRisk.HistorySourced` | agentic_trader/accounting/risk.py:120-145 | Both evidence lists carry only ids of the activities, each once over both |
| `AccountRisk.DistinctIdsNeverInvalid` | agentic_trader/accounting/risk.py:49-68 | For distinct nonempty activity ids the constructed snapshot always passes its own validator |
| `RiskRuns.ExtendStep` | agentic_trader/accounting/risk.py:178-213 | An accepted step on a prior keeps the baseline and the journals, keeps every accepted transfer and takes the larger peak |
| `RiskRuns.RunIsChain` | agentic_trader/accounting/risk.py:148-219 | Over every run the stored risk is the last acceptance and the acceptances form a chain from their seed |
| `RiskRuns.HighWaterIsPeak` | agentic_trader/accounting/risk.py:148-219 | Over every run from the empty state the high-water mark is the largest adjusted equity accepted, the baseline is the first acceptance's and drawdown is measured between peak and last |
| `RiskRuns.StoredRiskOnlyGrows` | agentic_trader/accounting/risk.py:148-219 | However a run continues the baseline never changes, accepted transfers are never dropped, and peak and time never go back |
| `RiskRuns.RejectionKeepsRisk` | agentic_trader/accounting/risk.py:214-219 | A rejected observation changes nothing in the stored risk |
| `RiskRuns.InvalidationIsDurable` | agentic_trader/accounting/risk.py:156-168 | Once invalidated, no later sequence of inputs restores, reseeds or changes anything and admission always refuses |
| `RiskRuns.InvalidatedExactlyByRevision` | agentic_trader/accounting/risk.py:178-215 | A stored history is invalidated if and only if a usable, later observation of its account changes the journals or revises or drops an accepted transfer |
| `LedgerRisk.AdjustedIsPnlPlusOffset` | agentic_trader/accounting/risk.py:114-145 | Each acceptance's adjusted equity is its ledger P&L plus an amount fixed by the baseline and the journals, within tolerance |
| `LedgerRisk.AdjustedMovesWithPnl` | agentic_trader/accounting/risk.py:114-213 | Over every run of reconciled observations, between any two acceptances adjusted equity moves with ledger P&L within twice the cash tolerance |
| `LedgerRisk.StoredRiskMeasuresPnl` | agentic_trader/accounting/risk.py:148-219 | After every such run, gain, peak gain and dollar drawdown are those of the P&L series within twice the tolerance |
| `TransferNeutrality.HistoryExtends` | agentic_trader/accounting/risk.py:120-145 | Appending deposits and withdrawals appends their evidence and adds their total, nothing else |
| `TransferNeutrality.TransfersAreNeutral` | agentic_trader/accounting/risk.py:148-219 | One accepted observation with any number of extra deposits and withdrawals, and their cash, is accepted and leaves adjusted equity, peak and drawdown exactly unchanged |
| `NeutralRuns.FundedReadyIff` | agentic_trader/accounting/ledger.py:92-169 | A list with extra transfers and their cash is ready if and only if the list without them is |
| `NeutralRuns.StepTwins` | agentic_trader/accounting/risk.py:148-219 | Two stored states that differ by accepted transfers alone are refused, invalidated and advanced alike by an observation and its funded twin |
| `NeutralRuns.RunsStayNeutral` | agentic_trader/accounting/risk.py:148-219 | Over every run and every funding of it after the baseline, refusals and invalidations included, the stored states differ in equity, flows and the transfers' evidence alone |
| `NeutralRuns.FundingNeverShows` | agentic_trader/accounting/risk.py:114-219 | Over every such pair of runs errors, invalidation, baseline, adjusted equity, high-water mark and drawdown are exactly the same at every point |
| `Funnel.BumpAddsOne` | agentic_trader/agent/scan_journal.py:76-78 | Counting a name raises a counter's total by one, whether the name is new or not |
| `Funnel.ScanFunnel.ScanSetups` | agentic_trader/agent/copilot.py:1434-1478 | One contract's setups with the guard's two counters end in the specified counts, an exception at any setup included |
| `Funnel.ScanFunnel.Collect` | agentic_trader/agent/copilot.py:1368-1478 | The collect loop ends in the specified counts for any contracts, gates and exceptions |
| `Funnel.SetupsAreConserved` | agentic_trader/agent/scan_journal.py:56-91 | Raw setups are duplicates, account-risk refusals, rejections over all rules, admitted and lost to errors, and the per-strategy counts add up to them |
| `Funnel.ContractsAreConserved` | agentic_trader/agent/scan_journal.py:56-91 | Selected contracts split exactly among the gates, scanned and guards fired before scanning, and setups lost are exactly the contracts that failed on a setup |
| `FunnelCounts.CountersAre` | agentic_trader/agent/copilot.py:1368-1478 | Every counter is the number of contracts, or of setups handled up to the first that raises, of its own kind, and every strategy, rule and error type has its own number |
| `Sending.Sender.constructor` | agentic_trader/agent/copilot.py:1644-1701 | Loops over today's cards leave every budget in step with the recorded cards: what they leave of the session and source caps, and each group's count |
| `Sending.Sender.ChargeGroups` | agentic_trader/agent/copilot.py:2008-2009 | Charging a card's groups in any order counts each once |
| `Sending.Sender.DeriveSources` | agentic_trader/agent/copilot.py:1667-1672 | Each source's allowance is what its cards today leave of its cap, zero without a budget |
| `Sending.Sender.DeriveGroups` | agentic_trader/agent/copilot.py:1674-1676 | The nested loops count every group of every card today |
| `Sending.Sender.SendOne` | agentic_trader/agent/copilot.py:1710-2061 | One guarded iteration, exceptions included: its outcome is the one its raw conditions give, it writes the card, the LLM budget and the breaker they say, records exactly one card against open budgets or touches none, and keeps the counters in step with the cards |
| `Sending.Sender.Send` | agentic_trader/agent/copilot.py:1710-2061 | The whole ranking: every rank's outcome is the one its raw conditions give against what the earlier ones left; counters stay in step with the cards, no cap is passed, and native cards sent plus the remaining allowance is the initial one |
| `SendDecisions.SentIff` | agentic_trader/agent/copilot.py:1710-2061 | A candidate is sent if and only if it is no broad index, not carded for a watch source, its own budgets and groups are open, a native one has no live card, failed lookup, withholding or book refusal, the deterministic stages passed, the gate approved where its verdict applies, and the scan is not dry and records it |
| `SendDecisions.OutcomeExplained` | agentic_trader/agent/copilot.py:1710-2061 | Every iteration ends in the refusal, or the sending, of the first raw condition in the loop's order that holds |
| `SendDecisions.StepLeaves` | agentic_trader/agent/copilot.py:1738-2047 | A sent card is recorded with its contract, strategy, dynamic mark and shrunk dollars and counted in each of its groups; the LLM budget falls and the breaker opens exactly for the evaluations that are reached and the gates that fail |
| `SendDecisions.EntryNoted` | agentic_trader/agent/copilot.py:1710-2061 | The log entry says whether the evaluator was reached, the gate asked, failed or answered a raw true, and the dollars of a sent card |
| `SendDecisions.RankingExplained` | agentic_trader/agent/copilot.py:1710-2061 | Through every ranking each outcome is the one its raw conditions give against what the earlier ranks left |
| `SendLaws.StepRecordsOrNothing` | agentic_trader/agent/copilot.py:1710-2061 | Every iteration either records exactly one card and charges exactly its budgets, all found open, or touches no budget |
| `SendLaws.RowCountsAsCharged` | agentic_trader/agent/copilot.py:750-763 | A recorded card is read back into exactly the groups it was charged to |
| `SendLaws.StepKeepsSync` | agentic_trader/agent/copilot.py:1644-1701 | The counters in memory always equal the counts re-derived from the recorded cards |
| `SendLaws.ScanKeepsBudgets` | agentic_trader/agent/copilot.py:1710-2061 | Through the send loop counters and cards stay in step and no native, source or group cap is passed |
| `SendLaws.RestartGrantsNothing` | agentic_trader/agent/copilot.py:1644-1701 | A restart after any part of a ranking derives exactly the budgets that were in memory |
| `SendLaws.SessionBudgetsHold` | agentic_trader/agent/copilot.py:1644-2061 | Over every sequence of full and session scans, with any rankings, refusals, exceptions and interruptions, the session, source and group caps hold for the recorded cards |
| `SendLaws.PerScanBudget` | agentic_trader/agent/copilot.py:1644-1701 | Native cards sent plus the remaining allowance is the initial allowance, and every rank leaves one outcome |
| `SendLaws.FullScanSendsAtMostItsAllowance` | agentic_trader/agent/copilot.py:1644-1701 | A full scan sends at most its per-scan allowance of native cards |
| `SendLaws.OperatorScanKeepsDynamicCap` | agentic_trader/agent/copilot.py:1650-1701 | An operator scan without budgets, from the count it derives, never takes the session past the cap on dynamic cards, whatever the configured groups are called |
| `GateLaws.EvaluateLaws` | agentic_trader/agent/evaluator.py:1024-1041 | No call is made while the breaker is open, and a native approval needs a validated raw-true reply |
| `GateLaws.StepIsGateStep` | agentic_trader/agent/copilot.py:1738-1839 | Each iteration moves breaker, LLM budget and log together |
| `GateLaws.GateHoldsOverScan` | agentic_trader/agent/copilot.py:1677-1839 | Over every LLM scan at most one gate call errors, native evaluations stay within the LLM budget, and a native card is recorded only on a validated raw-true reply with no gate error so far |
| `LlmGate.OnlyRawTrueApproves` | agentic_trader/agent/llm_gate.py:89-128 | Approval, veto and error each happen exactly under stated conditions on the raw reply; a veto always has a reason and a malformed one carries no levels |
| `LlmGate.RepliesKeep` | agentic_trader/agent/llm_gate.py:89-128 | An approval or well-formed veto carries the validated fields, a veto the reply's nonblank reason or its form's default, a malformed one its thesis alone, and an error its type |
| `ScanExposure.ExposureStaysUnderCeiling` | agentic_trader/agent/copilot.py:2037-2047 | If counted open notional starts under the ceiling it stays there after every card: exactly on cents, else to half a cent |
| `ScanExposure.StepCountsWhatItRecords` | agentic_trader/agent/copilot.py:1921-2047 | An iteration counts the notional it records, unless it fails between the two |
| `ScanExposure.RecordedNotionalStaysUnderCeiling` | agentic_trader/agent/copilot.py:1710-2061 | Recorded notional is counted plus forgotten; the two agree if and only if no card of positive notional was recorded and then lost to a failure, and the record stays under the ceiling if and only if what was forgotten fits in the room left |
| `ScanExposure.LateFailureBreaksCeiling` | agentic_trader/agent/copilot.py:1996-2061 | The failure the loop provides for, were it to happen, would let two cards of 60 be recorded under a ceiling of 100 |
| `ScanExposure.EvaluatorFits` | agentic_trader/agent/position_sizing.py:95-118 | At every exposure and for every reply the evaluated notional fits what is left under the ceiling |
| `ScanExposure.EvaluatedAttemptsAreSizedWithin` | agentic_trader/agent/copilot.py:1780-1869 | Cards from the evaluator, scaled by the book or not, meet the requirement of the exposure theorem |
| `ScanExposure.BookScalingShrinks` | agentic_trader/agent/copilot.py:1841-1869 | Scaling a cent notional down gives a cent notional no larger |
| `Brackets.LevelsMeetTheirDistances` | agentic_trader/agent/evaluator.py:221-249 | In both directions the stop is within half a tick of the required distance, and the target reaches the ratio of the actual stop distance to a millionth of a tick and less than a tick beyond |
| `Brackets.LevelsAre` | agentic_trader/agent/evaluator.py:221-249 | In prices and both directions: the stop's distance is that of two ticks behind the swing or the ATR minimum, whichever is more, to half a tick, the target's reaches the ratio, and both are recorded to the cent |
| `Brackets.NativeBracketMeetsRatio` | agentic_trader/risk/rules.py:234-250 | A bracket whose stop is at least a tick away clears its own two-decimal reward/risk ratio after rounding |
| `Brackets.CentEntryDistanceIsExact` | agentic_trader/agent/evaluator.py:221-249 | On a cent entry the recorded stop distance is the actual one |
| `Sizing.MaxQtyLaws` | agentic_trader/agent/position_sizing.py:95-118 | The largest quantity is whole and, when positive, fits the risk ceiling and the notional ceiling unrounded |
| `Sizing.UnblockedPlans` | agentic_trader/agent/position_sizing.py:209-242 | An unblocked card's tiers have positive nondecreasing quantities, exactly one default at the base quantity and the largest last |
| `Sizing.TiersIncreaseIff` | agentic_trader/agent/position_sizing.py:209-242 | A card's tiers strictly increase, except exactly when futures base and max quantities coincide at three or more |
| `Sizing.FuturesTiersRepeat` | agentic_trader/agent/position_sizing.py:230-233 | A concrete configuration, budget and futures request whose tiers are one, three and three contracts |
| `Sizing.BuildTiers` | agentic_trader/agent/position_sizing.py:244-278 | The tier loop's running default and max end as the default-marked and the last, largest tier |
| `Sizing.CalculateSizing` | agentic_trader/agent/position_sizing.py:40-278 | It raises exactly on a nonpositive cap; otherwise its tiers, default and max are those of `TiersOf`, `DefaultQty` and `LargestQty`, which `SizingMeaning.SizesAre` gives on the raw inputs, and max respects the cap |
| `SizingMeaning.SizesAre` | agentic_trader/agent/position_sizing.py:92-278 | On the raw inputs: nothing when blocked; otherwise max is the largest whole quantity that fits, the default the largest whole quantity within every budget in force times both factors for shares, the nearest one for contracts (one in static mode), held between the minimum and max, and the tiers are half, base, medium and max with risk, reward and notional to the cent |
| `SizingMeaning.MaxIsLargest` | agentic_trader/agent/position_sizing.py:95-118 | Max fits the count cap, the shared dollars, the card's cap, the trade notional and the portfolio notional left, and one more unit breaks one of them |
| `SizingMeaning.BlockedIff` | agentic_trader/agent/position_sizing.py:119-139 | A card is blocked if and only if the drawdown halts sizing or no whole quantity from the minimum up fits |
| `SizingMeaning.BaseBudgetIsSmallest` | agentic_trader/agent/position_sizing.py:151-189 | The base budget is the smallest in force: the contract's own target; else for shares the default or 500 in static mode, both the default and the share of capital in dynamic mode; for contracts the futures target or the share |
| `SizingMeaning.SmallerBudgetDecides` | agentic_trader/agent/position_sizing.py:172-180 | A default risk of 500 against one percent of 100000, a dollar a share and at most 2000 shares: 500 shares by default |
| `SizingMeaning.HaircutIs` | agentic_trader/risk/capital.py:45-59 | The drawdown factor is one up to the threshold, zero from the halt, and between them the linear value or the floor, whichever is more |
| `SizingMeaning.SharedBudgetIs` | agentic_trader/risk/capital.py:62-93 | The shared dollars are capital times the cap times the drawdown factor times the regime multiplier clamped to a tenth and one |
| `Sizing.TiersAtMostLargest` | agentic_trader/agent/position_sizing.py:244-278 | No tier exceeds the largest quantity, and quantities are positive exactly when the card is not blocked |
| `Sizing.TiersFitTheirCeilings` | agentic_trader/agent/position_sizing.py:95-118 | Every tier fits the shared budget, its card's cap and the notional ceiling unrounded |
| `SizingLaws.DrawdownFactorFalls` | agentic_trader/risk/capital.py:45-59 | A deeper drawdown never raises the drawdown factor, which stays in [0, 1] |
| `SizingLaws.BudgetFalls` | agentic_trader/risk/capital.py:80-93 | Smaller factors never give a larger shared budget |
| `SizingLaws.MaxQtyFalls` | agentic_trader/agent/position_sizing.py:95-118 | Tighter inputs never raise the largest quantity |
| `SizingLaws.BaseQtyFalls` | agentic_trader/agent/position_sizing.py:150-206 | Tighter inputs never raise the base quantity, across every mode, fallback and clamp |
| `SizingLaws.TighterNeverSizesUp` | agentic_trader/agent/position_sizing.py:92-278 | A wider stop, more open notional, smaller factors or a lower cap never raise the default or max tier, and never unblock a card |
| `SizingLaws.WorseConditionsNeverSizeUp` | agentic_trader/risk/capital.py:45-93 | From observed drawdown and regime multiplier to quantities: worse conditions, alone or together, never size a trade up, and the budget never exceeds capital times the cap |
| `ScaleSizing.FillByQuantity` | agentic_trader/agent/position_sizing.py:317-324 | The dictionary holds one survivor for each scaled quantity, the default where any default has it |
| `ScaleSizing.Scale` | agentic_trader/agent/position_sizing.py:281-354 | It refuses exactly a non-equity card or a factor outside [0, 1]; drops exactly when no default survives; otherwise tiers are the survivors in strictly increasing quantity with the headline from a surviving default |
| `ScaleSizing.DefaultSurvives` | agentic_trader/agent/position_sizing.py:317-328 | The default is kept through every collision: the result has one exactly when a default survives scaling |
| `ScaleSizing.TierScales` | agentic_trader/agent/position_sizing.py:301-316 | A scaled tier has the whole part of its share, and its risk, reward and notional in proportion to the cent |
| `ScaleSizing.TierlessScales` | agentic_trader/agent/position_sizing.py:336-354 | A card without tiers is kept if and only if the whole part of its share reaches the minimum, with its figures in proportion to the cent |
| `ScaleSizing.SurvivorsShrink` | agentic_trader/agent/position_sizing.py:301-316 | A surviving tier has whole units, at least the minimum, no more than before, and less than one unit below the exact product |
| `ScaleLaws.BuiltCardScales` | agentic_trader/agent/position_sizing.py:248-354 | On the tier builder's cards, below factor one: dropped if and only if the default floors below the minimum; otherwise strictly increasing whole quantities, each from a tier no smaller with risk, reward and notional within a cent of the builder's for it, and the headline is the floored default |
| `ScaleLaws.BuiltCardTwice` | agentic_trader/agent/position_sizing.py:281-354 | Whenever two successive scalings of such a card leave one, so does one scaling by the product, with a headline at least as large |
| `ScaleLaws.ScaleOne` | agentic_trader/agent/position_sizing.py:317-354 | A card with one default quantity is kept if and only if that quantity survives, and then has that one scaled default and headline |
| `ScaleSizing.ScaledNotionalShrinks` | agentic_trader/agent/position_sizing.py:301-316 | A scaled tier's notional stays a cent amount no larger than the original |
| `Evaluation.FinalIsDeterministicOrWider` | agentic_trader/agent/evaluator.py:300-373 | The final card keeps the deterministic tiers on a stop no wider, or is resized at a strictly wider stop |
| `CardDecisions.LevelsStandIff` | agentic_trader/agent/evaluator.py:923-984 | A reply's own stop and target stand on the card if and only if its policy is not locked, the stop reaches the ATR minimum, the ratio is kept, the bracket trades, and the stop is no wider or the resized card fits the trade, its cap and the book |
| `CardDecisions.CardDecided` | agentic_trader/agent/evaluator.py:300-373 | Whatever the reply, the card carries its proposal on its own sizes when no wider, on resized ones when those fit, and its own bracket otherwise |
| `Evaluation.EveryTierWithinBudget` | agentic_trader/agent/evaluator.py:923-984 | For every LLM reply to a card sized on at least its actual stop, every tier on the final card times its final stop distance stays within the per-trade budget and the card's cap |
| `Evaluation.FinalNeverLarger` | agentic_trader/agent/evaluator.py:300-373 | For every LLM reply to a card not sized on more than its actual stop, the final default and max quantities are at most the deterministic ones |
| `Evaluation.CardNotionalFits` | agentic_trader/agent/evaluator.py:300-373 | For every LLM reply every tier's notional fits the notional left, exactly on cents and else to half a cent |
| `CardLaws.CentEntriesAreSafe` | agentic_trader/agent/evaluator.py:201-373 | End to end from the candidate's levels: on a cent entry and tick, for all configured terms and every reply, every tier of a card that passed its gates keeps the budget and cap at its final stop, and no size grows |
| `CardLaws.KeepsBudgetIff` | agentic_trader/agent/evaluator.py:221-280 | For any positive multiplier, all of a candidate's cards keep their budgets under all configured terms and replies if and only if its levels pass no gate or the recorded stop distance covers the actual one |
| `CardLaws.KeepsBudgetIffEntryRoundsOut` | agentic_trader/agent/evaluator.py:221-280 | That is if and only if the entry rounds away from the stop, levels that pass no gate and units of at most a cent's risk aside |
| `CardLaws.RecordedFollowsEntry` | agentic_trader/agent/evaluator.py:228-242 | The recorded distance is off the actual one by exactly as much as the entry is off its nearest cent |
| `CardSizes.NeverEnlargesIff` | agentic_trader/agent/evaluator.py:320-373 | No reply enlarges a candidate's card under any configured terms, at any positive multiplier, if and only if its levels pass no gate, a unit risks at most a cent, the recorded distance does not exceed the actual one or the ATR minimum, or a short's target has no room above zero |
| `CardSizes.NeverEnlargesIffEntryRoundsIn` | agentic_trader/agent/evaluator.py:320-373 | The same with the condition on the entry: that it rounds toward the stop in place of the two distances |
| `CardSizes.LargerMeansWidenable` | agentic_trader/agent/evaluator.py:923-984 | Whenever a reply makes a card larger, some stop fits between the distance it must reach and the recorded one with a target for it |
| `CardSizes.WiderStopEnlarges` | agentic_trader/agent/evaluator.py:320-373 | A long at 100.006 whose levels put the stop at 99.00, with 201.60 of capital, one per cent per trade and two per cent of planned stop risk: a reply stop of 98.998 turns its one share into two |
| `CardSizes.AtrMinimumShields` | agentic_trader/agent/evaluator.py:924-930 | The same entry, stop and recorded distance under an ATR minimum of 1.0105: no terms and no reply enlarge the card |
| `CardLaws.SubPennyEntryOversizes` | agentic_trader/agent/evaluator.py:221-280 | A long at 100.004 whose levels put the stop at 99.00 is sized on 1.00 and, at any multiplier from a hundredth up and under configured terms, breaks its budget |
| `Backtest.BacktestEngine.SettleOpenTrades` | agentic_trader/backtest/engine.py:198-346 | The exit loop over open trades, cash and closed trades is the fold of carrying, ratcheting or closing each trade; what each of these is, in prices and fees, is `BacktestMeaning.AgedTradeIs` and `RatchetIs` |
| `Backtest.BacktestEngine.Notional` | agentic_trader/backtest/engine.py:350-354 | The open-notional loop totals entry price times multiplier times quantity |
| `Backtest.BacktestEngine.AdmitSignals` | agentic_trader/backtest/engine.py:348-466 | The admission loop with its early stop at capacity is the fold over all symbols |
| `Backtest.BacktestEngine.MarkToMarket` | agentic_trader/backtest/engine.py:468-484 | The unrealized loop totals open trades at the bar's closes; by side it is `BacktestMeaning.EquityIsCashAndMarks` |
| `Backtest.BacktestEngine.OneBar` | agentic_trader/backtest/engine.py:192-505 | A bar accrues interest, settles, admits and appends its equity point, in that order |
| `Backtest.BacktestEngine.Run` | agentic_trader/backtest/engine.py:183-505 | The timeline loop leaves the simulated book and its whole equity curve, whose money is `BacktestMeaning.CashIsPricesAndFees` and `EquityIsCashAndMarks` |
| `Backtest.FullStaysFull` | agentic_trader/backtest/engine.py:356-358 | Stopping at capacity loses no admission |
| `BacktestLaws.CashAlwaysBalances` | agentic_trader/backtest/engine.py:183-290 | After every bar cash is initial cash plus interest plus the unrounded P&L of closed trades, each reported to the cent; that P&L in prices is `BacktestMeaning.CashIsPricesAndFees` |
| `BacktestMeaning.CashIsPricesAndFees` | agentic_trader/backtest/engine.py:183-290 | After every bar of every timeline cash is initial cash plus interest, plus exit less entry for each closed long and entry less exit for each closed short, times point value and quantity, less commission |
| `BacktestMeaning.InterestAccrues` | agentic_trader/backtest/engine.py:192-197 | Every bar adds the daily rate on the cash it finds to the interest |
| `BacktestMeaning.EquityIsCashAndMarks` | agentic_trader/backtest/engine.py:468-505 | Every equity point is cash plus close less entry for each open long and entry less close for each open short, times point value and quantity, to the cent |
| `BacktestMeaning.AgedTradeIs` | agentic_trader/backtest/engine.py:198-291 | An open trade without a bar is only counted; one the bar takes to its stop, else to its target, closes there with the slipped fill, the summed fee and slippage and its P&L to the cent; otherwise it is ratcheted |
| `BacktestMeaning.RatchetIs` | agentic_trader/backtest/engine.py:292-342 | A trade that stays open records its best price; its stop breaks even, then follows, each exactly when the price has gone its multiple of the first risk and the new stop is better by the step |
| `BacktestMeaning.ExitsAreNoBetter` | agentic_trader/backtest/engine.py:250-290 | Over every timeline under nonnegative slippage a closed long sold no better and a closed short bought no better than its stop or target: at all on cent prices, else by half a cent |
| `BacktestMeaning.EntriesAreNoBetter` | agentic_trader/backtest/engine.py:416-436 | An admitted long buys no better and a short sells no better than the signal's price, likewise |
| `BacktestMeaning.AdmittedIff` | agentic_trader/backtest/engine.py:356-466 | A symbol opens exactly one trade, its signal's at the slipped price with the entry fee, if and only if there is room, none open on it, a bar, a signal and notional left |
| `BacktestLaws.EndingEquityReconciles` | agentic_trader/backtest/engine.py:468-513 | Ending equity is initial plus interest plus reported trade P&L plus unrealized, within half a cent per closed trade plus half a cent |
| `BacktestLaws.TradesAreConserved` | agentic_trader/backtest/engine.py:192-466 | Over every timeline each trade ever opened is in exactly one of open and closed, no symbol has two open trades, and capacity (or the larger initial book) holds |
| `BacktestLaws.ExitsNeverDivideByZero` | agentic_trader/backtest/engine.py:286-287 | Where no initial or opened trade is worth nothing at entry, no exit of any timeline divides by zero for its percentage |
| `BacktestStops.ExitsOnTouchStopFirst` | agentic_trader/backtest/engine.py:223-248 | In both directions a bar takes a trade out exactly when it reaches the stop or the target, and at the stop when it reaches both |
| `BacktestStops.RaisedProtectsIff` | agentic_trader/backtest/engine.py:292-342 | Rounding a taken stop to cents never moves it against the trade, whatever is proposed, if and only if the stop is a cent price or it and the step lie past the half cent |
| `BacktestStops.SubCentStopReverses` | agentic_trader/backtest/engine.py:292-342 | A break-even proposal of 99.0045 takes a long's stop from 99.004 back to 99.00 |
| `BacktestStops.NoExitOnEntryBar` | agentic_trader/backtest/engine.py:200-291 | Over every timeline and any setup no trade exits on its entry bar, and every bar held is counted |
| `BacktestStops.StopsAndExitsAreSound` | agentic_trader/backtest/engine.py:200-342 | Over every timeline with stops that round safely, stops are at least as protective as a known (positive) initial stop, and an exit fills from its stop or its target, a stop exit labelled trailing exactly when a positive initial stop is known and the stop moved |
| `BacktestStops.StopsOnlyRatchet` | agentic_trader/backtest/engine.py:292-342 | A trade open after any bar, found again after any later one, has the same order and a stop at least as protective, where stops round safely |
| `LiveStops.RequestsImprove` | agentic_trader/agent/copilot.py:3251-3273 | Every requested live stop is strictly in the position's favour |
| `LiveStops.RequestIs` | agentic_trader/agent/copilot.py:3251-3273 | A positive price and planned risk request the break-even price when its multiple is reached and it improves the stop, then the trailing price when its multiple is reached and it improves on that by the step; nothing else is requested |
| `LiveStops.RequestedIff` | agentic_trader/agent/copilot.py:3251-3273 | A request is made if and only if price and risk are positive and one of the two rules is due |
| `LiveStops.CycleStores` | agentic_trader/agent/copilot.py:3274-3304 | The stored stop is the one the broker reports, the requested one where it reports none and need not, and else the one found |
| `LiveStops.CycleRatchetsIff` | agentic_trader/agent/copilot.py:3251-3304 | A cycle moves the stored stop against the position if and only if the broker reports a stop worse than the one it replaces |
| `LiveStops.LiveStopsOnlyRatchet` | agentic_trader/agent/copilot.py:3251-3304 | Over every path of prices and broker answers, failures included, in which the broker never reports a worse stop, the stored stop never moves against the position between any two cycles |
| `Pacer.RequestPacer.constructor` | agentic_trader/data/pacing.py:17-29 | A new pacer has granted nothing |
| `Pacer.RequestPacer.Attempt` | agentic_trader/data/pacing.py:33-40 | One locked section grants exactly when fewer than the limit were granted in the last 60 s; otherwise its wait is in (0, 60], after it the window has room, and after any shorter one it has none |
| `Pacer.RequestPacer.Acquire` | agentic_trader/data/pacing.py:31-41 | Interleaved with any other callers, a caller loops until its own section is granted, each earlier one of its sections having been refused |
| `Pacer.GrantsArePaced` | agentic_trader/data/pacing.py:31-41 | Under every interleaving with a monotone clock, grants `max_per_minute` apart are at least 60 s apart and no half-open 60 s window holds more than `max_per_minute` |
| `Pacer.WaitsOnlyWhenFull` | agentic_trader/data/pacing.py:33-40 | A section is refused exactly when `max_per_minute` grants lie in the last 60 s, and the wait is in (0, 60] |
| `Pacer.WaitsNoLonger` | agentic_trader/data/pacing.py:33-40 | After any wait shorter than the one told the window is still full |
| `Pacer.StampsTrackGrants` | agentic_trader/data/pacing.py:33-39 | The deque is always exactly the suffix of the grants that has not expired |
| `Calendar.LockoutIff` | agentic_trader/agent/calendar.py:639-663 | A lockout is reported if and only if a verified static event's window or an unmatched live tier-1 event's window holds now, and it names a static event exactly when one qualifies |
| `Calendar.StaticNamed` | agentic_trader/agent/calendar.py:645-663 | The static event named is the first of the schedule whose window holds now, marked as listed by the feed too exactly when a live tier-1 event of its kind lies within five minutes |
| `Calendar.LiveNamed` | agentic_trader/agent/calendar.py:645-663 | The live event named locks and is an earliest of those that do |
| `Calendar.ShrunkLiveWindowLocks` | agentic_trader/agent/calendar.py:588-663 | Any live tier-1 window shrunk by the tolerance at both ends still locks |
| `Calendar.EdgeOfMatchedWindowIsOpen` | agentic_trader/agent/calendar.py:588-591 | The tolerance is really lost: at the first second of a live window a matching static event five minutes later leaves the desk open |

## Left out

- Backtest.BacktestEngine.SettleOpenTrades: does not model the exception at `agentic_trader/backtest/engine.py:287` when a trade worth nothing at entry (a blocked sizing has quantity zero) exits, because the run then has no result; `ExitsNeverDivideByZero` says when it cannot happen.
- Exact IEEE-754 and 28-digit decimal arithmetic: money and prices are reals, with cent rounding written out.
- Ids, symbols and kinds that are not strings, and the wording of issue, gating and rejection texts.
- SHA-256: a fingerprint is the evidence it digests, so hash collisions are not modelled.
- The order of two transfers with one id by digest text: arrival order is kept; the validator refuses both.
- `AccountLedgerService` fencing, stores, journals, Telegram, broker and feed I/O: their results are arbitrary inputs.
- Corporate-action detail in unsupported activities: every unsupported kind is one issue.
- Percentage P&L, Sharpe and other statistics, attribution and effective leverage: reporting only.
- Aliasing of backtest trade objects: a trade is a value with an id, moved between the lists.
- Strategies, indicators and level computation inside the backtest: a signal is any function of bar and symbol.
- JSON parsing and field coercion of LLM replies: validation is any function of the payload.
- Catalog preparation and policy-locked brackets, alpha-policy trailing stops and card freshness: their rules live in other modules.
- Book volatility sizing: only that it shrinks by `scale_sizing`, blocks or fails.
- Journal-only scans, which send nothing, and sessions that cross New York midnight during a scan.
- Calendar file validation, upcoming events and disagreement reports: plain listings beside the lockout check.
- Sleeping in the pacer: a caller may come back at any later clock reading.
- Config validation, prompts, CLI, macro and regime classification: threshold case splits and plumbing.

# Scavenger: custody, value and provenance

Scavenger is a recycling contract for the Soroban platform, with an indexer and a web backend around it. This project
models its stateful core and proves what the many entry points keep together.

- **The contract** (`stellar-contract/src/lib.rs`) is the class `Contract.ScavengerContract`: one field for each
  storage entry and one method for each entry point of these areas, in the steps and loops of the original. Every method is proved
  against a specification function of the area it belongs to (`Custody`, `Participants`, `Rewards`, `Incentives`,
  `Carbon`, `Governance`, `Quality`, `Leaderboard`). A method that answers with an error has left the storage as it
  was: the platform rolls a failed call back, and so does the model.
- **Runs.** `Runs.Step` is one call of any entry point and `Runs.Run` a sequence of calls from initialisation.
  `Host.Serve` proves that the object after any sequence of invocations holds exactly what `Run` says, so everything
  proved of `Run` is proved of the object. `Reachable.RunIsSound` is the invariant of all runs; `CustodyRuns` and
  `ValueRuns` hold the conservation and provenance theorems. They quantify over all sequences of calls; a theorem that
  needs some calls to be left out names the condition each call must meet in the state it finds (`Along`), and a
  theorem about amounts adds up what each call contributed (`Flow`).
- **Effects.** For every call of every area a second description says when it goes through (`Admits`) and what it then
  leaves of each waste, list, history, record, account, programme, listing, proposal and key (`Leaves`), entity by
  entity and without the functions that compute it; a batch of verifications alone is reduced to single ones by two
  laws. These are `CustodyEffects`, `RewardEffects`, `MaterialEffects`, `IncentiveEffects`, `MarketEffects`,
  `GovernanceEffects`, `QualityEffects`, `PeopleEffects` and the end of `KeyRotation`. Each `StepIs` proves the two
  descriptions equal, in every state with good ids; `Blames` and the `Refusals` lemmas say that an error names a check
  that failed. `LedgerRuns` adds the effects up address by address over whole runs.
- **Key rotation** (`stellar-contract/src/key_rotation.rs`), **the indexer** (`indexer/src/indexer.ts`) and
  **pagination** (`backend/src/api/pagination.rs`) are modules of their own.

`SplitWaste`, `MergeWastes` and the weight scan rely on the id invariant `CustodyIndex.IdsInv`, which every reachable
state has.

Modelling conventions. Addresses are opaque; the ledger time is an argument of the call. Integers are unbounded and
every checked width (u32, u64, u128, i128) is written out as a bound whose violation is the error `Overflow`; `as u64`
casts are `Low64`. Facts the contract reads from other contracts or from settings outside these areas are arguments of
the call: the minimum weight and time to live, the season's reward multiplier, whether the token and charity addresses
are set, and whether the token contract accepts the payments of the call. Panics and returned errors are one enumeration.

## What turned out not to hold

The code is modelled as it is. Where a promise fails, the exact condition or amount is proved beside the operation. The
concrete runs and requests named with a point show the failure.

- A batch transfer that repeats an id is accepted and lists the waste twice: the lists stay right if and only if the
  ids are distinct (`CustodyIndex.BatchKeepsIff`, `Witnesses.BatchCanListTwice`).
- A merge that repeats an id creates weight: it conserves weight if and only if every waste it repeats is weightless
  (`Weight.MergeConservesIff`, `Witnesses.MergeCanDoubleWeight`).
- An administrator's override and the acceptance of a pending transfer can leave the lists wrong, the first exactly when
  the waste was listed, the second exactly when its sender no longer owns the waste (`CustodyIndex.OverrideKeepsIff`,
  `CustodyIndex.ApproveKeepsIff`, `Witnesses.OverrideCanMislist`, `Witnesses.AcceptanceCanMislist`). Together:
  the lists are right throughout a run if and only if no accepted call of it was one of these
  (`CustodyRuns.RunKeepsCustodyIff`).
- A history need not be a chain in which each record starts where the one before ended. Exactly three accepted calls
  break one: a batch that names the waste twice, an acceptance whose sender no longer owns the waste although hand-overs
  are on record, and a merge where a source with records, not the first such, was first handed on by somebody else than
  the present owner. Splits and merges pass a broken history on (`CustodyRuns.HistoryIsChainIff`,
  `CustodyRuns.HistoriesAreChainsIff`, `Witnesses.BatchCanBreakChain`, `Witnesses.AcceptanceCanBreakChain`,
  `Witnesses.MergeCanBreakChain`).
- A distribution of 2^64 tokens or more charges the budget only its low 64 bits, and one whose fixed shares exceed the
  reward, as role changes along a chain make possible, pays out more than it charges (`RewardSplit.PayoutIsChargeIff`,
  `MoneyWitnesses.RewardCanBeFree`, `MoneyWitnesses.RolesCanOverpay`). Every distribution is added to the global token
  counter twice (`ValueRuns.TokenLedgerHolds` accounts for it).
- Neither verification entry point asks whether a material was verified before; each time mints its credits again
  (`MintRuns.CreditsAreEarned` accounts for it, `MoneyWitnesses.MaterialCanMintTwice`).
- Recycled weight beyond the 128-bit ceiling of an account is cut off (`ValueRuns.RecycledWeightAddsUp` accounts for
  it). An account with registered weight aborts before that, see Left out.
- The contamination discount of the reward paths never applies: it looks a material's id up among the version 2 wastes,
  and the two id ranges are disjoint (`Materials.DiscountNeverReaches`).
- Setting a budget below what was spent makes the contract forget the difference (`ValueRuns.BudgetsAddUp`).
- `remove_admin` promises to keep the last administrator, but a list that names one address twice passes its length
  check and can be emptied (`Governance.RemovalLeavesSomeone`, `Witnesses.RemovalCanEmpty`).
- The documentation of `revoke_key_version` says a revoked key is not returned as active. The active slot still points
  at it, and a rotation then overwrites the revocation with `Archived` (`KeyRotation.ActiveLookup`,
  `KeyRotation.RevocationLostIff`, `KeyRotation.RevocationCanBeLost`).
- The indexer asks the node once per poll and does not page (`indexer/src/stellar/streamer.ts:46-49`). A poll keeps
  the promise of exactly-once delivery if and only if the answer leaves out no event at or below the new cursor, and an
  empty answer does not come for a start ledger more than one ahead of the network (`Indexer.PollIsSoundIff`). A page
  that ends inside a ledger loses the rest of that ledger for good (`Indexer.CutLedgerIsLost`).
- Should the node answer a start ledger it has not reached with an empty page rather than an error, the indexer moves
  its cursor to the network's head and later hands over events from before the start
  (`Indexer.StartAheadHandsTooMuch`); an error is a crashed poll and harmless.
- The unique index on stored events drops an event that shares transaction and first topic with an earlier one
  (`Indexer.RowsAreEventsIff`).
- The page count is computed as `total + limit - 1`, a checked u32 sum from the left, so a request aborts when total
  plus limit leaves 32 bits; a cursor request also aborts at the last cursor with a limit of one
  (`Pagination.WalkShowsAll`, `Pagination.CursorAnsweredIff`, `Pagination.LargestRequestsFail`).

The source has leftover merge text at `stellar-contract/src/lib.rs:1664-1670`, `4110-4112` and `4148-4162`; the model
follows the documented bodies around it.

## Model

| member | source | states |
|---|---|---|
| `Host.Invoke` | stellar-contract/src/lib.rs:2524-2602 | any entry point called on the object changes its storage exactly as the state machine's step does, and keeps the invariant of all runs |
| `Host.Serve` | stellar-contract/src/lib.rs:364-389 | after initialisation and any sequence of calls the object holds exactly the state the run theorems speak about |
| `Reachable.RunIsSound` | stellar-contract/src/lib.rs:1426-1436 | in every reachable state: ids of both versions disjoint in 1..=count; every history empty or ending at the owner; impact scores within their integer; stages climb; the contaminated list is exact and duplicate-free; the participant index is the duplicate-free set of registered addresses; reputations in [-1000, 10000]; the listing index is the ascending list of active listings; budgets within totals; percentages at most 100; goals achieved iff reached, at most five open; approvers distinct |
| `Reachable.StepSound` | stellar-contract/src/lib.rs:1426-1436 | every single call of every area keeps that invariant |
| `CustodyRuns.EveryActiveWasteIsListedOnce` | stellar-contract/src/lib.rs:2806-2834 | along every run whose accepted batches repeat no id, whose accepted overrides move unlisted wastes and whose accepted transfers come from the present owner, each active waste is listed exactly once under its owner and under nobody else, and every listed id is a waste of that owner |
| `CustodyRuns.RunKeepsCustodyIff` | stellar-contract/src/lib.rs:2571-2583 | the lists are right after every call of a run iff every accepted call of it met that condition |
| `CustodyIndex.StepKeepsCustodyIff` | stellar-contract/src/lib.rs:2928-2962 | a custody call keeps lists, owners and ids right iff it was refused or meets its condition |
| `CustodyIndex.ListedOnce` | stellar-contract/src/lib.rs:2818-2834 | in a good store an active waste occurs once in its owner's list and nowhere else |
| `CustodyIndex.BatchKeepsIff` | stellar-contract/src/lib.rs:2927-2962 | an accepted batch keeps the lists right iff it repeats no id |
| `CustodyIndex.OverrideKeepsIff` | stellar-contract/src/lib.rs:1378-1410 | an override keeps the lists right iff the waste was on no list of the sender |
| `CustodyIndex.ApproveKeepsIff` | stellar-contract/src/lib.rs:6352-6392 | accepting a pending transfer keeps the lists right iff its sender still owns the waste |
| `Witnesses.BatchCanListTwice` | stellar-contract/src/lib.rs:2873-2993 | five calls from initialisation end with one waste listed twice |
| `Witnesses.OverrideCanMislist` | stellar-contract/src/lib.rs:1359-1415 | five calls from initialisation leave an overridden waste on its former owner's list and off the new one's |
| `Witnesses.AcceptanceCanMislist` | stellar-contract/src/lib.rs:6326-6425 | seven calls from initialisation take a waste from somebody who never offered it and leave it on two lists |
| `BatchRefinement.BatchRefinesSingles` | stellar-contract/src/lib.rs:2873-2993 | for every non-empty list the left-to-right single transfers succeed iff the batch does, no id repeats and nothing is frozen or reserved for another; the stores are then equal in every part |
| `CustodyRuns.WeightIsConserved` | stellar-contract/src/lib.rs:1509-1530 | along every run, for each waste type and for all together, active weight plus what was deactivated equals what was registered plus what merges repeated; the scan over 1..=count finds exactly the total |
| `Weight.StepWeight` | stellar-contract/src/lib.rs:2754-2868 | type by type, each custody call adds exactly a registered (or repeatedly merged) weight and removes exactly the active weight it deactivates; moves and splits change nothing |
| `Weight.SplitWeight` | stellar-contract/src/lib.rs:5643-5718 | a split conserves the active weight of every type |
| `Upkeep.SplitScores` | stellar-contract/src/lib.rs:5643-5676 | in every reachable state a split whose weights add up to the parent's fails for its owner, activity, count or counter only, never for a child's impact score |
| `CustodyEffects.SplitIs` | stellar-contract/src/lib.rs:5609-5729 | a split goes through iff the caller owns the active parent, there are 2 to 10 weights adding up to its own, and ids and scores fit; then waste count+1+i has weight i, the parent's type, owner, coordinates and history, is active, clean and without expiry; the parent is retired and unlisted; every other waste, list and history is as before |
| `CustodyEffects.MergeIs` | stellar-contract/src/lib.rs:5754-5886 | a merge goes through iff 2 to 20 ids name active wastes of the caller and one type and sum and score fit; then one new waste of that type has the sum of the named weights and the named histories one after the other, the named wastes are retired and unlisted, and all else is as before |
| `CustodyEffects.BatchIs` | stellar-contract/src/lib.rs:2873-2993 | a batch goes through iff the receiver is registered and each named waste is active, unexpired and reaches it by a climbing route; then each named waste has the new owner, one record for each time it is named, the lists are those without and with the ids, and every other waste is as before |
| `CustodyEffects.ApproveIs` | stellar-contract/src/lib.rs:6326-6425 | an acceptance goes through iff the recipient answers a pending, unexpired offer of an active waste; an expired one is refused; then owner, two lists, one record and the offer's status change and nothing else |
| `CustodyEffects.StepIs` | stellar-contract/src/lib.rs:2524-3338 | every custody call of a state with good ids goes through exactly when it is admitted and then leaves exactly the stated wastes, lists, histories and offers; otherwise the store is as before |
| `Weight.MergeAdds` | stellar-contract/src/lib.rs:5779-5881 | a merge adds exactly the weight of the ids it repeats, to the type of the merged wastes and to no other |
| `Weight.MergeConservesIff` | stellar-contract/src/lib.rs:5754-5886 | a merge conserves the active weight of every other type, and that of its own iff every repeated waste is weightless |
| `Weight.ScanIsTotal` | stellar-contract/src/lib.rs:1509-1530 | the scan over the issued ids is the sum over all stored wastes |
| `Witnesses.MergeCanDoubleWeight` | stellar-contract/src/lib.rs:5754-5886 | five calls from initialisation double the active weight by a merge |
| `CustodyRuns.HistoriesEndAtOwner` | stellar-contract/src/lib.rs:2838-2855 | along every run, whatever was called, each history is empty or ends at the present owner: overrides, splits, merges, repeated batches and late acceptances included |
| `Provenance.StepKeepsEnds` | stellar-contract/src/lib.rs:2838-2855 | every custody call with any arguments keeps every history empty or ending at the owner |
| `CustodyRuns.HistoryIsChainIff` | stellar-contract/src/lib.rs:5654-5688 | along every run and for every waste, merged or not, each record of its history starts where the one before ended iff no call broke the history and none passed a broken one on |
| `CustodyRuns.HistoriesAreChainsIff` | stellar-contract/src/lib.rs:2975-2984 | the histories of all wastes with no merge in their ancestry are chains after every call of a run iff no accepted batch named one of them twice and every accepted transfer of one that had changed hands came from its present owner |
| `CustodyRuns.HistoriesAreShort` | stellar-contract/src/lib.rs:1279-1302 | with fixed roles, and valid routes for accepted overrides and acceptances too, a history that is a chain has at most two records and never returns to an earlier holder |
| `Provenance.StepKeepsBroken` | stellar-contract/src/lib.rs:2838-2855 | which histories stop being, or start without being, chains under any custody call: exactly those the call's guards name |
| `Provenance.StepKeepsChainsIff` | stellar-contract/src/lib.rs:2838-2855 | a custody call leaves the histories of all unmerged wastes chains iff it was refused or meets its condition |
| `Provenance.BatchKeepsChainIff` | stellar-contract/src/lib.rs:2928-2984 | an accepted batch keeps a waste's history a chain iff it does not name the waste twice |
| `Provenance.ApproveKeepsChainIff` | stellar-contract/src/lib.rs:6352-6412 | an acceptance keeps its waste's history a chain iff that is empty or the sender still owns the waste |
| `Provenance.JoinedIsLinkedIff` | stellar-contract/src/lib.rs:5837-5851 | a merged history is a chain iff every source's is and every later source with records was first handed on by the present owner |
| `Witnesses.BatchCanBreakChain` | stellar-contract/src/lib.rs:2873-2993 | five calls from initialisation write one hand-over into a history twice |
| `Witnesses.AcceptanceCanBreakChain` | stellar-contract/src/lib.rs:6326-6425 | seven calls from initialisation leave a history in which the first holder hands the waste over twice |
| `Witnesses.MergeCanBreakChain` | stellar-contract/src/lib.rs:5754-5886 | seven calls from initialisation merge a waste with itself into a history that is no chain |
| `Provenance.StepChange` | stellar-contract/src/lib.rs:5837-5851 | what any call with any arguments does to any waste's owner and history: nothing; one record for each time it names the waste, from the present owner or the sender on record to the new owner; or a fresh, inherited or joined history |
| `Provenance.ClimbingChainIsShort` | stellar-contract/src/lib.rs:1279-1302 | a linked chain of role-climbing transfers has at most two records and distinct holders |
| `RewardSplit.PayoutIs` | stellar-contract/src/lib.rs:5522-5579 | with k collector recipients a distribution pays max(T, k times the collector share plus the owner share) |
| `RewardSplit.PayoutIsReward` | stellar-contract/src/lib.rs:5522-5579 | exactly T is paid when k times the collector percentage plus the owner percentage is at most 100 |
| `RewardSplit.PayoutIsChargeIff` | stellar-contract/src/lib.rs:5476-5585 | payout equals the budget debit iff the reward fits 64 bits and covers the fixed shares |
| `RewardSplit.OneCollectorAtMost` | stellar-contract/src/lib.rs:2336-2376 | a chain that only climbs hands the material to at most one collector |
| `RewardEffects.PaymentsAre` | stellar-contract/src/lib.rs:5535-5573 | a distribution pays each address: for each record handing it the material the collector share, if its role collects; to the submitter the owner share and the remainder besides; to nobody else anything |
| `RewardEffects.PaymentsCount` | stellar-contract/src/lib.rs:5535-5573 | in one payment for each such record, one for the owner share and one more iff a remainder is left |
| `RewardEffects.EarnAllAre` | stellar-contract/src/lib.rs:5535-5573 | booking a list of payments raises each record by the low 64 bits of the payments to it, and regrades the records paid |
| `IncentiveEffects.DistributeIs` | stellar-contract/src/lib.rs:5476-5585 | a distribution goes through iff material, programme, owner, type, token and budget are right and everything fits; the payments are those, in state and answer, and the budget is charged the reward, season multiplier included |
| `CustodyRuns.FixedRolesPayExactly` | stellar-contract/src/lib.rs:5476-5585 | if roles never change, every accepted distribution of every run pays out exactly what it debits iff its reward fits 64 bits |
| `Materials.FixedRolesPayTheCharge` | stellar-contract/src/lib.rs:5535-5581 | in any state whose version 1 chains climb, payout equals debit iff the reward fits 64 bits |
| `Materials.StepKeepsMaterialChains` | stellar-contract/src/lib.rs:2306-2376 | version 1 histories end at the present holder, link up and climb the roles, call after call |
| `Materials.DiscountNeverReaches` | stellar-contract/src/lib.rs:5505-5518 | no material's reward is ever reduced for contamination |
| `MoneyWitnesses.RewardCanBeFree` | stellar-contract/src/lib.rs:5519-5581 | after five calls from initialisation a distribution of 2^64 tokens is accepted on a budget of one token and charges nothing |
| `MoneyWitnesses.RolesCanOverpay` | stellar-contract/src/lib.rs:5522-5579 | after ten calls from initialisation, two of them role changes, a distribution of 100 tokens pays out 150 and charges 100 |
| `ValueRuns.TokenLedgerHolds` | stellar-contract/src/lib.rs:1093-1229 | along every run the global counter equals the sum of all earnings plus donations plus what distributions counted twice plus what re-registrations overwrote |
| `TokenLedger.StepTokens` | stellar-contract/src/lib.rs:948-974 | submission, verification, grants and donations move counter and earnings by the same amount, up to what a donation gives away |
| `TokenLedger.RewardTokensBalances` | stellar-contract/src/lib.rs:1141-1229 | rewards along a history keep the balance even when the submitter is also a collector in it |
| `RewardEffects.RewardTokensAre` | stellar-contract/src/lib.rs:1141-1229 | a collector gains the collector share times its multipliers for each record handing it the material; the submitter gains the multiplied maximum of owner share and what the collectors leave, besides; nobody else gains, and no record changes otherwise but for its grade |
| `RewardEffects.RewardFitsIff` | stellar-contract/src/lib.rs:1141-1229 | such a reward goes through iff the shares, each gainer's sum, the weight of regraded records and the counter fit their integers |
| `MaterialEffects.VerifyIs` | stellar-contract/src/lib.rs:3553-3625 | a verification goes through iff a registered recycler verifies a known material and everything fits; it marks that material, mints its credits to its submitter, pays by the first rule above and thanks both; nothing else changes |
| `MaterialEffects.StepIs` | stellar-contract/src/lib.rs:2336-3704 | every call on materials goes through exactly when admitted and then leaves exactly the stated materials, records and accounts (a batch: by the two rows below) |
| `MaterialEffects.BatchSplits` | stellar-contract/src/lib.rs:3655-3704 | verifying a batch is verifying a first part and then the rest, all or nothing |
| `MaterialEffects.BatchOfOne` | stellar-contract/src/lib.rs:3655-3704 | a batch of one id is that verification without the thanks, and passes an unknown id over |
| `LedgerRuns.EarningsAddUp` | stellar-contract/src/lib.rs:1093-1229 | along every run and for each address, tokens plus donations and what re-registering wiped out equal what its verifications, grants, claims and distributions brought it: nobody earns in any other way |
| `Budgets.IncentiveTokens` | stellar-contract/src/lib.rs:5545-5582 | claims keep the balance; a distribution adds its reward to the counter once too often |
| `ValueRuns.BudgetsAddUp` | stellar-contract/src/lib.rs:1587-1648 | along every run, debits plus remaining equal the total budget plus what updates below the spent amount made the contract forget; remaining never exceeds the total |
| `Budgets.StepBudget` | stellar-contract/src/lib.rs:4437-4511 | what each incentive call does to total minus remaining of every programme |
| `IncentiveEffects.ClaimIs` | stellar-contract/src/lib.rs:4437-4477 | a claim goes through iff programme and material are right and 0 < points per whole kilogram <= remaining; the claimer gains that amount, the budget loses it and closes at zero, and the call answers it |
| `IncentiveEffects.StepIs` | stellar-contract/src/lib.rs:4372-4511 | every call on programmes goes through exactly when admitted and then leaves exactly the stated programmes, records and counter |
| `ValueRuns.CarbonIsConserved` | stellar-contract/src/lib.rs:3608-3612 | along every run the credits ever minted are those on accounts, in active listings, or redeemed |
| `ValueRuns.ReleasesSucceed` | stellar-contract/src/lib.rs:3855-3982 | in every reachable state cancelling succeeds iff the listing is active and the caller's, a paid purchase iff it is active, another's and its price fits: crediting never overflows |
| `Carbon.StepSupply` | stellar-contract/src/lib.rs:3743-3982 | listing, cancelling and buying conserve the supply, redeeming removes exactly its amount |
| `Carbon.StepKeepsMarket` | stellar-contract/src/lib.rs:3823-4024 | the index stays the ascending list of exactly the active listings |
| `Carbon.NothingIsSkipped` | stellar-contract/src/lib.rs:3990-4009 | with a good index the query shows one active listing for every id on it |
| `MarketEffects.StepIs` | stellar-contract/src/lib.rs:3743-3982 | a purchase goes through iff the listing is active and another's, the token set, the payment accepted and price and balance fit: the buyer gains exactly the listed amount, every other account, the seller's included, is as before, and the listing is closed; a cancel gives it back to the seller, a new listing takes it from the seller, a redemption takes it from the account; recycled weights are untouched |
| `LedgerRuns.CarbonAccountAddsUp` | stellar-contract/src/lib.rs:3596-3982 | along every run each account holds what was minted for its owner's materials and what its owner bought or took back, less what its owner listed or redeemed |
| `Materials.StepMints` | stellar-contract/src/lib.rs:3596-3612 | verification adds the same credits to the submitter and to the global total |
| `MintRuns.CreditsAreEarned` | stellar-contract/src/lib.rs:3573-3612 | along every run the credits ever minted are those of the verified materials plus what verifying them again minted |
| `Materials.StepMintsFor` | stellar-contract/src/lib.rs:3662-3692 | a call on materials mints what its newly verified materials are worth, and once more for each verified before |
| `MoneyWitnesses.MaterialCanMintTwice` | stellar-contract/src/lib.rs:3553-3612 | five calls from initialisation mint the credits of one material twice |
| `ValueRuns.ExecutedAtMostOnce` | stellar-contract/src/lib.rs:4960-5017 | along every run each proposal is executed at most once, and its record says executed iff it was |
| `ValueRuns.ExecutedStaysAsItIs` | stellar-contract/src/lib.rs:4963-4970 | an executed proposal's record never changes for the rest of the run |
| `ValueRuns.EveryExecutionIsEarned` | stellar-contract/src/lib.rs:4914-5017 | along every run an executed proposal was executed by an administrator's call, within seven days of the call that proposed this action, after at least the threshold of distinct administrators had signed it in earlier calls; and that call left the proposed list as administrators, or the proposed numbers as collector and owner percentage, or exactly the proposed waste no longer active, and nothing else but the mark |
| `ValueRuns.ApproversSigned` | stellar-contract/src/lib.rs:4914-4957 | along every run approvers are distinct and each signed the proposal while an administrator |
| `Governance.ExecutionIsEarned` | stellar-contract/src/lib.rs:4960-5017 | an execution is by an administrator, within seven days of creation, with at least threshold >= 1 distinct approvers; afterwards the administrators are the proposed list, or the two percentages the proposed numbers, or exactly the proposed waste is active before and inactive after; all else but the mark is as before |
| `Governance.OnlyExecutionExecutes` | stellar-contract/src/lib.rs:5011-5013 | nothing but its own execution marks a proposal executed |
| `Governance.ApproversSign` | stellar-contract/src/lib.rs:4917-4953 | a new approver of a proposal is the administrator whose call was accepted |
| `Governance.StepKeepsConfig` | stellar-contract/src/lib.rs:729-818 | collector and owner percentages never exceed 100 together |
| `Governance.RemovalLeavesSomeone` | stellar-contract/src/lib.rs:463-490 | a removal leaves an administrator iff somebody else is on the list |
| `GovernanceEffects.StepIs` | stellar-contract/src/lib.rs:4871-5017 | every call of administrators goes through exactly when admitted and then leaves exactly the stated list, threshold, percentages and proposal |
| `GovernanceEffects.ExecutionIs` | stellar-contract/src/lib.rs:4960-5017 | an execution is accepted iff an administrator calls, the proposal is open, not older than seven days and signed by the threshold, and its action is possible; its effect is that action, spelled out, and the mark |
| `Witnesses.RemovalCanEmpty` | stellar-contract/src/lib.rs:463-490 | two calls from initialisation leave the contract without administrators |
| `ValueRuns.RecycledWeightAddsUp` | stellar-contract/src/lib.rs:2670-2682 | along every run, recycled weight on the accounts plus what the 128-bit ceiling cut off equals the summed weight of the wastes that were recycled |
| `ValueRuns.RecycledAtMostOnce` | stellar-contract/src/lib.rs:2648-2665 | in every reachable state a waste's stages strictly climb to its status, so it was recycled at most once |
| `Quality.StepKeepsGoals` | stellar-contract/src/lib.rs:2684-2704 | goals stay achieved iff reached, at most five open, through progress and new goals |
| `Quality.StepKeepsContamination` | stellar-contract/src/lib.rs:4062-4078 | the contaminated list holds exactly the contaminated wastes, each once |
| `Quality.StepRecycled` | stellar-contract/src/lib.rs:2670-2682 | any call on status, goals or contamination moves both recycled sums by the same weight, up to what the ceiling cuts off |
| `QualityEffects.StepIs` | stellar-contract/src/lib.rs:2632-2707 | every call on status, goals and contamination goes through exactly when admitted; recycling adds the weight to its owner's account and to exactly the open goals for its type or any; the third and later reports mark a clean waste at a middle of the levels reported |
| `QualityEffects.MiddleIsUnique` | stellar-contract/src/lib.rs:4196-4217 | only one level is the middle, so the level marked is determined |
| `Ordering.MedianIsMiddle` | stellar-contract/src/lib.rs:4196-4217 | the median is a reported level with at least n/2+1 reports at or below it and at least n-n/2 at or above it |
| `Ordering.SortedIsUnique` | stellar-contract/src/lib.rs:4202-4216 | a sorted rearrangement is unique, so the selection sort computes the specified order |
| `Ordering.SortIsStable` | stellar-contract/src/lib.rs:6753-6767 | equal scores keep their order |
| `Upkeep.StepFramed` | stellar-contract/src/lib.rs:5663-5676 | custody calls leave type, weight, status, stages and contamination of every existing waste alone and start new ones clean |
| `Participants.StepKeepsIndex` | stellar-contract/src/lib.rs:1036-1068 | the participant index stays the duplicate-free set of registered addresses |
| `Participants.StepKeepsReputation` | stellar-contract/src/lib.rs:7454-7472 | penalties and decay keep scores in [-1000, 10000] |
| `Participants.ManyDecaysLoseLess` | stellar-contract/src/lib.rs:7477-7505 | any ascending series of decay calls leaves at least the score one call at the last time would leave |
| `Participants.DecayStaysAboveZero` | stellar-contract/src/lib.rs:7480-7499 | decay never turns a score negative, never raises it, and never touches a negative one |
| `PeopleEffects.StepIs` | stellar-contract/src/lib.rs:1020-2213 | every call on registration, role, penalty and decay goes through exactly when admitted and changes exactly that record, and the index as stated; decay takes a point for each whole day beyond thirty |
| `Leaderboard.SortAndRankIs` | stellar-contract/src/lib.rs:6747-6780 | the board is a stable descending rearrangement of the entries, cut at the limit, ranked 1, 2, 3, ... |
| `Leaderboard.PositionAgainstRank` | stellar-contract/src/lib.rs:6673-6744 | each top-earner position is at least the participant's rank, with equality iff no earlier entry ties |
| `Leaderboard.EarnersAre` | stellar-contract/src/lib.rs:6673-6692 | the entries ranked are the registered addresses of the index in its order, each with its tokens |
| `Leaderboard.BoardSize` | stellar-contract/src/lib.rs:6673-6692 | the board is as long as the limit, a hundred or the index, whichever is least |
| `Leaderboard.RankIs` | stellar-contract/src/lib.rs:6695-6744 | the rank is one more than the number of other places on the index with more tokens |
| `KeyRotation.RunKeepsKeys` | stellar-contract/src/key_rotation.rs:206-303 | in every reachable state the slot points at a stored record, versions lie in 1..=active with their own key and a non-zero hash, and only the slot's version can be Active |
| `KeyRotation.RunAges` | stellar-contract/src/key_rotation.rs:252-394 | along every run an issued version never changes its hash, never returns once purged, never becomes Active again, and a superseded revoked version stays revoked until purged |
| `KeyRotation.ActiveLookup` | stellar-contract/src/key_rotation.rs:336-346 | the active lookup returns a key that is not Active iff the slot's own version was revoked |
| `KeyRotation.RevocationLostIff` | stellar-contract/src/key_rotation.rs:252-333 | a revocation is lost iff the slot's own version was revoked and is then rotated away |
| `KeyRotation.RevocationCanBeLost` | stellar-contract/src/key_rotation.rs:310-333 | a concrete install, revoke, rotate leaves the revoked key Archived |
| `KeyRotation.StepIs` | stellar-contract/src/key_rotation.rs:206-394 | every call goes through exactly when admitted; installing and rotating point the slot at a new active record with the hash given, rotating archives the old one with its hash, revoking marks one version and keeps its hash, purging removes one version; every other slot and record is as before |
| `KeyRotation.RotationInstalls` | stellar-contract/src/key_rotation.rs:252-303 | after an accepted rotation the active lookup returns the hash given, active, under the next version; the version before keeps its hash and is archived |
| `KeyRotation.ActiveIsLatest` | stellar-contract/src/key_rotation.rs:206-346 | along every run the active lookup returns the hash that the last accepted installation or rotation gave, and fails iff there was none |
| `KeyRotation.KeyStore.constructor` | stellar-contract/src/key_rotation.rs:206-206 | an empty key store |
| `KeyRotation.KeyStore.InstallKey` | stellar-contract/src/key_rotation.rs:206-241 | the first version of a purpose, or the error, and the whole new store |
| `KeyRotation.KeyStore.RotateKey` | stellar-contract/src/key_rotation.rs:252-303 | archives the slot's record, stores the given hash as the next version, moves the slot (`KeyRotation.StepIs` and `KeyRotation.RotationInstalls` say what that means) |
| `KeyRotation.KeyStore.RevokeKeyVersion` | stellar-contract/src/key_rotation.rs:310-333 | marks one stored version revoked and nothing else |
| `KeyRotation.KeyStore.PurgeKeyVersion` | stellar-contract/src/key_rotation.rs:373-394 | removes one stored version that the slot does not point at |
| `Indexer.PollsDeliverOnce` | indexer/src/indexer.ts:72-115 | along every run of polls, crashes included, whose answers leave out nothing at or below the new cursor and whose network has reached the ledger before the start, the events handed over are exactly the chain's from start to cursor, in order, each once |
| `Indexer.PollIsSoundIff` | indexer/src/indexer.ts:84-101 | for a single answer holding any first part of the events asked for, a poll keeps that promise iff the first event left out lies beyond the new cursor and an empty answer does not start ahead of the network; a poll that is neither idle nor crashed moves the cursor forward |
| `Indexer.GroupThenFlatten` | indexer/src/indexer.ts:25-32 | grouping ledger-ordered events by ledger and flattening the groups gives the events back |
| `Indexer.ProcessHandsOver` | indexer/src/indexer.ts:34-67 | a batch of new ledgers triggers no rollback, hands every event over once and in order, and sets the cursor to its last ledger |
| `Indexer.RowsAreEventsIff` | indexer/src/db/migrations/001_initial_schema_up.sql:29-29 | the stored rows are the events handed over iff no two share transaction and first topic; events without topics are never dropped |
| `Indexer.EveryEventHasARow` | indexer/src/db/migrations/001_initial_schema_up.sql:29-29 | rows are only added at the end, and each event handed over has its row or one with its key |
| `Indexer.ReorganisationDrops` | indexer/src/indexer.ts:32-39 | a row not delivered again is dropped iff its ledger is not below the one processed and some row of that ledger has a transaction the delivery does not show |
| `Indexer.EmptyAnswerMoves` | indexer/src/indexer.ts:84-101 | an empty answer moves the cursor to the last of the at most 200 ledgers asked for and changes nothing else |
| `Indexer.StartAheadHandsTooMuch` | indexer/src/indexer.ts:89-101 | if the node answers a future start ledger with an empty page, two concrete polls hand over an event from before the start |
| `Indexer.CutLedgerIsLost` | indexer/src/stellar/streamer.ts:46-49 | a page that ends inside a ledger: whatever polls follow, the second of two events is never handed over |
| `Indexer.IndexerProcess.GroupByLedger` | indexer/src/indexer.ts:25-30 | the grouping loop computes the groups in order of first appearance |
| `Indexer.IndexerProcess.RollbackFrom` | indexer/src/sync/syncStatus.ts:51-60 | drops exactly the rows from a ledger on |
| `Indexer.IndexerProcess.ProcessLedger` | indexer/src/indexer.ts:32-67 | one ledger: rollback on a reorganisation, rows and hand-over of each event, cursor |
| `Indexer.IndexerProcess.ProcessEvents` | indexer/src/indexer.ts:18-70 | the committed effect of a batch is that of its ledger groups in order |
| `Indexer.IndexerProcess.Run` | indexer/src/indexer.ts:81-101 | one poll that reaches its commit, given the fetch's answer |
| `Indexer.IndexerProcess.Range` | indexer/src/indexer.ts:88-89 | the ledgers a poll asks for |
| `Pagination.WalkShowsAll` | backend/src/api/pagination.rs:10-14 | for every list shorter than 2^32 and every limit >= 1 following the cursor ends without a fault iff total plus limit fits 32 bits, and the pages then make up the list |
| `Pagination.WalkMatchesNumbers` | backend/src/api/pagination.rs:4-14 | the i-th page of the walk is the page that pagination by number gives for i |
| `Pagination.CursorPageIsNumberedPage` | backend/src/api/pagination.rs:10-14 | the page at cursor (k-1)*limit is page k, down to its number |
| `Pagination.PageIs` | backend/src/api/pagination.rs:16-31 | a page holds exactly the items from its offset on, up to the limit; total, more-flag, cursor and page count are what they say |
| `Pagination.SaturationIsHarmless` | backend/src/api/pagination.rs:5-7 | saturating arithmetic never changes an answer |
| `Pagination.PagesAreReported` | backend/src/services/api.rs:117-128 | the reported page count is the number of pages of the walk |
| `Pagination.AnsweredIff` | backend/src/services/api.rs:117-128 | a numbered request is answered iff the limit is zero or total plus limit fits 32 bits |
| `Pagination.CursorAnsweredIff` | backend/src/api/pagination.rs:10-14 | a cursor request is answered iff, besides, it is not the last cursor with a limit of one |
| `Pagination.LargestRequestsFail` | backend/src/services/api.rs:124-124 | one item with the largest limit, and the last cursor with a limit of one, abort |
| `Sorting.SelectionSort` | stellar-contract/src/lib.rs:4202-4216 | the in-place sort of the reported levels computes the one sorted rearrangement |
| `Sorting.InsertionSort` | stellar-contract/src/lib.rs:6753-6767 | the in-place sort of the entries computes the stable descending order |
| `Contract.ScavengerContract.constructor` | stellar-contract/src/lib.rs:364-389 | one administrator, default percentages 5 and 50, everything else empty |
| `Contract.ScavengerContract.RegisterParticipant` | stellar-contract/src/lib.rs:1020-1089 | a new record and its index entry, or the refusal |
| `Contract.ScavengerContract.UpdateRole` | stellar-contract/src/lib.rs:2134-2159 | the role of a registered participant |
| `Contract.ScavengerContract.DeregisterParticipant` | stellar-contract/src/lib.rs:2174-2213 | clears the flag and rebuilds the index without the address |
| `Contract.ScavengerContract.PenalizeReputation` | stellar-contract/src/lib.rs:7454-7472 | an administrator's clamped penalty |
| `Contract.ScavengerContract.DecayReputation` | stellar-contract/src/lib.rs:7477-7505 | the decayed score, and the record it leaves |
| `Contract.ScavengerContract.ApplyReputation` | stellar-contract/src/lib.rs:603-610 | clamps the score and restarts the decay timer; unknown addresses are skipped |
| `Contract.ScavengerContract.RecycleWaste` | stellar-contract/src/lib.rs:2524-2602 | registers a waste under the next id, on its recycler's list, or refuses |
| `Contract.ScavengerContract.TransferCollectedWaste` | stellar-contract/src/lib.rs:3015-3108 | a weightless waste for the manufacturer with a one-record history |
| `Contract.ScavengerContract.TransferWaste` | stellar-contract/src/lib.rs:2754-2868 | moves owner, both lists and history, thanks both parties, or refuses in the source's order |
| `Contract.ScavengerContract.BatchTransferWaste` | stellar-contract/src/lib.rs:2873-2993 | validates all items, then moves them; a refused batch changes nothing |
| `Contract.ScavengerContract.AdminOverrideTransfer` | stellar-contract/src/lib.rs:1359-1415 | moves owner and history, but no list |
| `Contract.ScavengerContract.InitiateTransfer` | stellar-contract/src/lib.rs:6266-6323 | a pending transfer under the next number |
| `Contract.ScavengerContract.ApproveTransfer` | stellar-contract/src/lib.rs:6326-6425 | moves the waste from the recorded sender to the recipient and marks the transfer |
| `Contract.ScavengerContract.SplitWaste` | stellar-contract/src/lib.rs:5609-5729 | children with the given weights and the parent's history; the parent retired and unlisted |
| `Contract.ScavengerContract.MergeWastes` | stellar-contract/src/lib.rs:5754-5886 | one waste with the summed weight and joined histories; the sources retired and unlisted |
| `Contract.ScavengerContract.DeactivateWaste` | stellar-contract/src/lib.rs:3225-3255 | retires one active waste |
| `Contract.ScavengerContract.BatchDeactivateWaste` | stellar-contract/src/lib.rs:3269-3286 | retires the active wastes among the ids and counts them |
| `Contract.ScavengerContract.CleanupExpiredWastes` | stellar-contract/src/lib.rs:3321-3338 | retires the expired active wastes and counts them |
| `Contract.ScavengerContract.ReserveWaste` | stellar-contract/src/lib.rs:5903-5943 | reserves an active, unreserved waste until now plus duration |
| `Contract.ScavengerContract.CancelReservation` | stellar-contract/src/lib.rs:5958-5991 | lets the reserver or the owner clear a reservation |
| `Contract.ScavengerContract.GetTotalActiveWasteWeight` | stellar-contract/src/lib.rs:1509-1530 | the total active weight if it fits 64 bits, an abort otherwise |
| `Contract.ScavengerContract.UpdateParticipantStats` | stellar-contract/src/lib.rs:1093-1137 | adds waste and tokens to one record and the tokens to the counter, with certification and tier |
| `Contract.ScavengerContract.RewardTokens` | stellar-contract/src/lib.rs:1141-1229 | pays collectors along the history, then owner share and remainder to the submitter |
| `Contract.ScavengerContract.SubmitMaterial` | stellar-contract/src/lib.rs:2447-2503 | stores a material under the next id and opens its submitter's statistics |
| `Contract.ScavengerContract.TransferMaterial` | stellar-contract/src/lib.rs:2336-2376 | hands a version 1 material on along a valid route and records it |
| `Contract.ScavengerContract.VerifyMaterial` | stellar-contract/src/lib.rs:3553-3625 | marks, mints, pays and thanks, or leaves everything as it was |
| `Contract.ScavengerContract.VerifyMaterialsBatch` | stellar-contract/src/lib.rs:3641-3704 | verifies the existing ids one after the other, all or nothing |
| `Contract.ScavengerContract.GrantTokens` | stellar-contract/src/lib.rs:919-974 | a grant, by whoever signs, to record and counter |
| `Contract.ScavengerContract.DonateToCharity` | stellar-contract/src/lib.rs:657-695 | takes the amount from the record |
| `Contract.ScavengerContract.CreateIncentive` | stellar-contract/src/lib.rs:4372-4416 | a programme with its full budget under the next id |
| `Contract.ScavengerContract.UpdateIncentiveStatus` | stellar-contract/src/lib.rs:1553-1566 | switches a programme on or off |
| `Contract.ScavengerContract.UpdateIncentive` | stellar-contract/src/lib.rs:1587-1648 | a new total keeps what was spent, or empties and closes the programme |
| `Contract.ScavengerContract.DeactivateIncentive` | stellar-contract/src/lib.rs:4493-4511 | closes a programme of the caller's |
| `Contract.ScavengerContract.ClaimIncentiveReward` | stellar-contract/src/lib.rs:4437-4477 | points per kilogram from the budget to the claimer, or the refusal |
| `Contract.ScavengerContract.DistributeRewards` | stellar-contract/src/lib.rs:5476-5585 | makes exactly the planned payments, books them, charges the budget, or leaves everything as it was |
| `Contract.ScavengerContract.RedeemCarbonCredits` | stellar-contract/src/lib.rs:3743-3773 | takes the amount from the account |
| `Contract.ScavengerContract.CreateCarbonListing` | stellar-contract/src/lib.rs:3785-3846 | escrows the amount in a new indexed listing |
| `Contract.ScavengerContract.CancelCarbonListing` | stellar-contract/src/lib.rs:3855-3899 | returns the escrow, closes and unindexes the listing |
| `Contract.ScavengerContract.PurchaseCarbonListing` | stellar-contract/src/lib.rs:3912-3982 | credits the buyer, closes and unindexes the listing |
| `Contract.ScavengerContract.GetActiveCarbonListings` | stellar-contract/src/lib.rs:3990-4009 | the active listings in the order of the index |
| `Contract.ScavengerContract.SetPercentages` | stellar-contract/src/lib.rs:729-754 | both percentages, at most 100 together |
| `Contract.ScavengerContract.SetCollectorPercentage` | stellar-contract/src/lib.rs:778-793 | the collector percentage beside the stored owner percentage |
| `Contract.ScavengerContract.SetOwnerPercentage` | stellar-contract/src/lib.rs:803-818 | the owner percentage beside the stored collector percentage |
| `Contract.ScavengerContract.AddAdmin` | stellar-contract/src/lib.rs:444-459 | adds an address once |
| `Contract.ScavengerContract.RemoveAdmin` | stellar-contract/src/lib.rs:463-490 | removes every occurrence of an address from a list of more than one |
| `Contract.ScavengerContract.TransferAdmin` | stellar-contract/src/lib.rs:421-441 | replaces a list by a non-empty one |
| `Contract.ScavengerContract.SetMultisigThreshold` | stellar-contract/src/lib.rs:4871-4884 | a threshold between one and the number of administrators |
| `Contract.ScavengerContract.ProposeAdminAction` | stellar-contract/src/lib.rs:4914-4934 | a proposal approved by its proposer |
| `Contract.ScavengerContract.ApproveAdminProposal` | stellar-contract/src/lib.rs:4937-4957 | adds one approver to an open, unexpired proposal |
| `Contract.ScavengerContract.ExecuteAdminProposal` | stellar-contract/src/lib.rs:4960-5017 | applies the action and marks the proposal, or leaves everything as it was |
| `Contract.ScavengerContract.UpdateProcessingStatus` | stellar-contract/src/lib.rs:2632-2707 | moves the status forward; on Recycled adds the weight to statistics and goals |
| `Contract.ScavengerContract.SetRecyclingGoal` | stellar-contract/src/lib.rs:7144-7206 | a new goal unless five are open |
| `Contract.ScavengerContract.MarkContaminated` | stellar-contract/src/lib.rs:4031-4083 | marks a waste and lists it once |
| `Contract.ScavengerContract.ReportContamination` | stellar-contract/src/lib.rs:4138-4248 | stores the level; from the third report on marks a clean waste at the median |
| `Contract.ScavengerContract.MedianLevel` | stellar-contract/src/lib.rs:4196-4217 | sorts the levels in place and takes the middle one |
| `Contract.ScavengerContract.SortAndRank` | stellar-contract/src/lib.rs:6747-6780 | sorts the entries in place and numbers the first of them |
| `Contract.ScavengerContract.GetTopEarners` | stellar-contract/src/lib.rs:6673-6692 | the board of the registered participants on the index |
| `Contract.ScavengerContract.GetParticipantRank` | stellar-contract/src/lib.rs:6695-6744 | one more than the number of other indexed participants with more tokens |

## Left out

- Signatures (`require_auth`), the pause switch, the reentrancy flag, storage time-to-live, events and the audit log: host plumbing that decides only whether a call runs.
- Calls that write the modelled entries past the rules, and that the run theorems therefore do not admit: `bulk_import_wastes` and `bulk_import_participants` (records without indexes), `create_auction` and `end_auction` (owners without lists), `substitute_waste` (retires a waste), `reconcile_waste` (changes a weight, so the weight theorems do not admit it), `process_batch` (statuses), `confirm_waste_details` (reputations), `grant_certification` (a certification, and with it the multiplier of later rewards), challenge and milestone bonuses (earnings or counter by ways of their own).
- Disputes: they only set and clear the frozen flag, which transfers test; the flag is kept and never set in runs.
- The confirmation fields of a waste, grades, tags, images, documents, compositions, costs, locations, seasons, batches, certificates, transfer thresholds and incentive schedules: further fields and entry points beside the ones modelled.
- `reject_transfer` and `expire_transfer`: they only change the status of a pending transfer.
- `submit_materials_batch`: a loop of submissions.
- The token contract: whether it accepts the payments of one call is an argument of the call.
- Contract.ScavengerContract.RegisterParticipant: neither name nor location, so not the coordinate check either.
- Contract.ScavengerContract.RecycleWaste: opens the recycler's statistics, but total weight and recycling rate are not modelled, nor the same abort.
- Contract.ScavengerContract.SubmitMaterial: submission counts, the description and the global weight counter, with the abort when that overflows, are not modelled.
- Contract.ScavengerContract.VerifyMaterial: verification counts and points in the statistics are not modelled.
- Contract.ScavengerContract.VerifyMaterialsBatch: likewise, and the materials it returns are not.
- Contract.ScavengerContract.CreateIncentive: the lists of incentives by rewarder and by waste type are not modelled.
- Contract.ScavengerContract.UpdateProcessingStatus: the recycling rate is not modelled, nor the abort of an account with registered weight when its recycled weight times 10000 leaves 128 bits. The model accepts there, so a run of the contract is a run of the model without the calls that abort.
- Contract.ScavengerContract.MarkContaminated: the reason and the check of its length are not modelled.
- Contract.ScavengerContract.ReportContamination: a report keeps its level, not its author, reason and time.
- Contract.ScavengerContract.GetParticipantRank: ranks by tokens only; ranks by weight and by verifications are the same code over another score.
- Contract.ScavengerContract.DistributeRewards: whether the token contract accepts the payments is one answer for the whole call, so the point at which a payment fails is not observed; every failure rolls the call back.
- Contract.ScavengerContract.SplitWaste: the id counter and the impact scores are checked once before the children are made, where the source aborts part-way and is rolled back.
- Indexer.IndexerProcess.ProcessLedger: a handler that fails is caught in the source and its event counted as failed; the model hands every event over, and a poll whose transaction fails is a crashed poll. Handlers, metrics and broadcasts are not part of this model.
- Indexer.IndexerProcess.RollbackFrom: only raw events and the cursor are modelled, not the derived tables.
- Indexer.PollsDeliverOnce: polls do not overlap and the chain is not reorganised.
- HTTP handlers, caches, search, the frontend and mobile clients.

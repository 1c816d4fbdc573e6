# Farmledge receipts: a verified model

This project models the on-chain warehouse receipts of the Farmledge protocol and
the service code that mirrors them, and proves what they promise.

* **The receipt contracts.** `MaizeReceipt` and `SesameReceipt` hold one class each,
  with the storage entries as fields and the calls as methods that read and write
  them in the order of the source. A call ends in `Ok`, `Err` or `Panic` (failed
  authorisation, arithmetic overflow, index out of bounds). Both classes are proved
  against one state machine on values, `ReceiptSpec`; the host around a call is part of
  it, once as it is (`Rollback`: a call that returns an error leaves nothing behind)
  and once without that rule (`KeepWrites`).
* **The contract as its callers see it.** `Acceptance` states what each call needs, what
  each error means and what the queries show afterwards, `Authority` whose signature a
  change needs, and `Provenance` which mint a receipt comes from.
* **Runs.** `Worlds` adds what the ledger forgets: every receipt as it was issued, and
  which ones were burned or split. `Invariants`, `History`, `Lineage`, `Conservation`,
  `Deposits`, `WeightFormula`, `Flows`, `Lifecycle` and `Balances` prove properties of
  every run, from any calls, callers and ledger times (time may go backwards). They
  hold for every product whose ids tell the counter they were made under;
  `ContractsIssueDistinctIds` shows that both contracts are such products. `InvokeAll`
  ties a run of calls on an object to a run of the specification. `Twins` shows that
  the two contracts are the same machine, and `TwinRuns` says so of the two classes.
* **Ids.** `Calendar` and `TokenIds` model the year arithmetic, the digit writer and the
  32-byte id buffer.
* **Reconciliation.** `TokenRecords`, `Reconcile`, `ReconcilePass` and `Drift` model one
  pass of the reconciliation job over the service's store against a fixed view of the
  chain, and the drift report of the verification endpoint.

The lemmas about calls and runs hold on both hosts. `IssueAccounting` states the one
difference: the equality of the token counter and the number of issued ids needs
rollback. `Invoke`, `InvokeAll` and `RunBoth` are the contracts on the host as it is,
`Rollback`.

Where the code and its documentation differ, the model follows the code:

* the token standard (docs/TOKEN_STANDARD.md:30) gives `total_weight_kg` as bags times
  weight per bag for every receipt; over a run that holds exactly when every split that
  went through halved an even number of bags and the weight (`FormulaOverRuns`);
  `Witnesses` has a run that breaks it (`SplitBreaksWeightFormula`);
* the token standard (docs/TOKEN_STANDARD.md:90-92) lets only registered custodians burn;
  the code asks the receipt for its custodian, registered or not
  (`RemovedCustodianBurns`, and a run in `RemovedKeeperBurns`);
* the SDK says that the owner authorises a split (sdk/src/maize/split.ts:36); the
  contract asks for no signature (`SplitAsksNobody`, and the split in
  `SplitBreaksWeightFormula`, which anybody may sign);
* the reconciliation job takes code 1 for "token not found" and the contracts use code
  3 (`OnlyCodeOneIsNotFound`): a burned token whose error only quotes its code stays in
  the store and is reported as an error (`OnlyCodeOneRemoves`, and the client's message
  in `BurnedTokenStays`). No link from a burn on the chain to a deletion in the store is
  claimed.

Functions that say what a contract or a job does (`Check`, `Effect`, `Step`, `Verdict`,
`Handle` and the like) carry no contract of their own; the rows below name the methods
proved against them and the lemmas about them.

## Model

| member | source | states |
|---|---|---|
| Calendar.DecomposeCorrect | contracts/maize-receipt/src/lib.rs:16-28 | for every day, before or after 1970, the algorithm finds the proleptic Gregorian year that contains it; day of era below 146097, year of era below 400, day of year below 366, month in 1..12 |
| Calendar.YearIsUnique | contracts/maize-receipt/src/lib.rs:13-15 | no other year contains the day |
| Calendar.YearFromTimestampCorrect | contracts/maize-receipt/src/lib.rs:16-28 | the result is that year modulo 2^32, and that very year exactly when it fits 32 bits |
| Calendar.DecomposeFitsI64 | contracts/maize-receipt/src/lib.rs:17-26 | no intermediate of the signed 64-bit computation overflows, for any 64-bit timestamp |
| TokenIds.ExtractDigits | contracts/maize-receipt/src/lib.rs:31-42 | the twenty-slot buffer suffices for every 64-bit value and holds its decimal digits, last first |
| TokenIds.WritePaddedNumber | contracts/maize-receipt/src/lib.rs:30-51 | appends the zero-padded numeral, advances by the larger of width and digit count, leaves every other byte alone; panics exactly when that does not fit |
| TokenIds.PaddedDecodes | contracts/maize-receipt/src/lib.rs:30-51 | a padded numeral decodes to the number it was made from, is canonical and has the stated length |
| TokenIds.CanonicalIsPadded | contracts/maize-receipt/src/lib.rs:43-50 | conversely every canonical digit string is the padded numeral of what it decodes to |
| TokenIds.GenerateTokenId | contracts/maize-receipt/src/lib.rs:55-69 | the id stays inside the 32-byte buffer exactly when the two padded lengths add up to at most 28; then it is letter, year and counter in the documented format |
| TokenIds.ParseInvertsTokenId | contracts/maize-receipt/src/lib.rs:53-69 | a parser accepts exactly the ids and recovers letter, year and counter from each |
| TokenIds.TokenIdInjective | contracts/maize-receipt/src/lib.rs:55-69 | equal ids were made from equal letter, year and counter |
| TokenIds.IdReads | contracts/maize-receipt/src/lib.rs:30-69 | every id, byte by byte in ASCII: letter, N, dash, the year in decimal in at least four places, dash, the counter in at least six, with more places only where the number needs them |
| TokenIds.ShortIdReads | contracts/maize-receipt/src/lib.rs:53-69 | the fourteen bytes of an id with a year of four digits and a counter of up to six |
| TokenIds.NearYearsFit | contracts/maize-receipt/src/lib.rs:56-67 | every year below 10^8 fits with any 64-bit counter |
| TokenIds.FarYearsOverflow | contracts/maize-receipt/src/lib.rs:56-67 | year 10^8 with the largest counter does not fit, so the bound is the best one |
| Invariants.IdNamesYearAndCounter | contracts/maize-receipt/src/lib.rs:210-211 | every id that is issued parses to the calendar year of the ledger time modulo 2^32 and to the counter; before the year 10^8 there always is an id, and it holds the year itself |
| Invariants.IssuedIdsRead | contracts/maize-receipt/src/lib.rs:200-211 | whatever the contracts issue reads KN- and SN-, then the year of the ledger time, a dash and the counter in decimal |
| Invariants.ContractsIssueDistinctIds | contracts/maize-receipt/src/lib.rs:200-211 | ids of either contract made under different counters differ, whatever the ledger times |
| Invariants.StepKeepsInv | contracts/maize-receipt/src/lib.rs:92-543 | every call keeps the representation invariant, with and without rollback: same keys for metadata and owners, record ids equal to their keys, live ids in a repetition-free list, positive weights, nothing before initialisation |
| Invariants.OwnerLookupsSucceed | contracts/maize-receipt/src/lib.rs:370-374 | the owner lookups that follow a successful metadata lookup in transfer and split never fail |
| Invariants.SplitOrderIsHarmless | contracts/maize-receipt/src/lib.rs:502-535 | writing the children before removing the parent gives the same storage as the other order, because a split's ids are new |
| MaizeReceipt.MaizeReceiptContract.Init | contracts/maize-receipt/src/lib.rs:92-99 | result and whole new storage of the call; refuses a second initialisation |
| MaizeReceipt.MaizeReceiptContract.AddCustodian | contracts/maize-receipt/src/lib.rs:101-130 | result and whole new storage of the call, on the map from addresses to flags |
| MaizeReceipt.MaizeReceiptContract.RemoveCustodian | contracts/maize-receipt/src/lib.rs:132-161 | result and whole new storage of the call |
| MaizeReceipt.MaizeReceiptContract.Mint | contracts/maize-receipt/src/lib.rs:164-261 | result and whole new storage of the call, with the counter bump that precedes the overflow refusal |
| MaizeReceipt.MaizeReceiptContract.Transfer | contracts/maize-receipt/src/lib.rs:358-396 | result and whole new storage of the call, checks in the order of the source |
| MaizeReceipt.MaizeReceiptContract.Burn | contracts/maize-receipt/src/lib.rs:398-428 | result and whole new storage of the call; compares with the custodian in the metadata |
| MaizeReceipt.MaizeReceiptContract.Lock | contracts/maize-receipt/src/lib.rs:284-319 | result and whole new storage of the call |
| MaizeReceipt.MaizeReceiptContract.Unlock | contracts/maize-receipt/src/lib.rs:321-356 | result and whole new storage of the call |
| MaizeReceipt.MaizeReceiptContract.Split | contracts/maize-receipt/src/lib.rs:434-543 | result and whole new storage of the call: parent out, two children in |
| MaizeReceipt.MaizeReceiptContract.Invoke | contracts/maize-receipt/src/lib.rs:90-551 | body plus commit or rollback: the invariant is kept and a call that is not Ok leaves the storage as it was |
| MaizeReceipt.MaizeReceiptContract.InvokeAll | contracts/maize-receipt/src/lib.rs:90-551 | any sequence of calls on the object gives the results and the ledger of the specified run |
| MaizeReceipt.MaizeReceiptContract.QueryBalance | contracts/maize-receipt/src/lib.rs:263-282 | the loop returns the wallet's entries of the list of issued ids |
| SesameReceipt.SesameReceiptContract.Init | contracts/sesame-receipt/src/lib.rs:67-74 | result and whole new storage of the call |
| SesameReceipt.SesameReceiptContract.AddCustodian | contracts/sesame-receipt/src/lib.rs:85-107 | result and whole new storage of the call, with one entry for each custodian |
| SesameReceipt.SesameReceiptContract.RemoveCustodian | contracts/sesame-receipt/src/lib.rs:109-131 | result and whole new storage of the call |
| SesameReceipt.SesameReceiptContract.Mint | contracts/sesame-receipt/src/lib.rs:138-232 | result and whole new storage of the call; registration is presence of the entry |
| SesameReceipt.SesameReceiptContract.Transfer | contracts/sesame-receipt/src/lib.rs:238-276 | result and whole new storage of the call |
| SesameReceipt.SesameReceiptContract.Burn | contracts/sesame-receipt/src/lib.rs:282-312 | result and whole new storage of the call |
| SesameReceipt.SesameReceiptContract.Lock | contracts/sesame-receipt/src/lib.rs:318-353 | result and whole new storage of the call |
| SesameReceipt.SesameReceiptContract.Unlock | contracts/sesame-receipt/src/lib.rs:355-390 | result and whole new storage of the call |
| SesameReceipt.SesameReceiptContract.Split | contracts/sesame-receipt/src/lib.rs:399-513 | result and whole new storage of the call |
| SesameReceipt.SesameReceiptContract.Invoke | contracts/sesame-receipt/src/lib.rs:64-532 | body plus commit or rollback, keeping the invariant |
| SesameReceipt.SesameReceiptContract.InvokeAll | contracts/sesame-receipt/src/lib.rs:64-532 | any sequence of calls on the object gives the results and the ledger of the specified run |
| Twins.StepTwins | contracts/sesame-receipt/src/lib.rs:67-513 | one call on two matching ledgers: the same result up to the pairing of ids, and ledgers that match again |
| Twins.ContractsAgree | contracts/sesame-receipt/src/lib.rs:67-513 | in the specification: whatever one product does from its creation, the other does to the paired run, in both directions: the same Ok and error codes in the same order, and matching ledgers |
| TwinRuns.RunBoth | contracts/sesame-receipt/src/lib.rs:67-513 | on the contract objects, with their two kinds of custodian registry: a new sesame contract run on the paired calls gives the paired results of a new maize contract, and their storages match |
| Twins.TwinsHoldTheSame | contracts/sesame-receipt/src/lib.rs:475-493 | matching ledgers have no entry without a twin |
| History.RunKeepsInv | contracts/maize-receipt/src/lib.rs:217-247 | in every reachable world each issued receipt is live, burned or split and just one of these, live ones are as issued but for the lock, parents are split and were issued earlier |
| History.RunFromExtends | contracts/maize-receipt/src/lib.rs:238-247 | history only grows: issued ids stay in place, records never change, later ids have larger counters |
| Lineage.NoIdIssuedTwice | contracts/maize-receipt/src/lib.rs:200-211 | no run ever issues an id twice, and later ids were made under larger counters |
| Provenance.RecordsComeFromMints | contracts/maize-receipt/src/lib.rs:164-236 | in every run each receipt ever issued, however often split, carries the commodity, grade, warehouse, custodian, weight per bag and ledger time of a mint call of that run, signed by a custodian then registered; an unsplit deposit also its bags, weight and id |
| Lineage.ParentChains | contracts/maize-receipt/src/lib.rs:474-524 | from any receipt the parent links reach a minted one in fewer steps than the counter; every ancestor is split for good, was issued earlier and is of the same lot |
| Lineage.RunMintWeights | contracts/maize-receipt/src/lib.rs:213-229 | in every run the weight of a minted receipt is bags times weight per bag, both positive |
| WeightFormula.SplitKeepsWeightFormula | contracts/maize-receipt/src/lib.rs:474-500 | of any receipt, on the formula or off it: both children of a split weigh bags times weight per bag exactly when each gets the weight of its bags; for a parent that itself meets the formula, exactly when the bags are even and the weight is halved |
| WeightFormula.RunSplitsInTwo | contracts/maize-receipt/src/lib.rs:474-500 | in every run each split receipt has exactly two children, which weigh together what it weighed and have half its bags each, rounded down |
| WeightFormula.FormulaOverRuns | contracts/maize-receipt/src/lib.rs:474-500 | in every run all receipts weigh bags times weight per bag exactly when every accepted split halved an even number of bags and the weight, and exactly when those never split (live or burned) do |
| Witnesses.SplitBreaksWeightFormula | contracts/maize-receipt/src/lib.rs:478-480 | a run from the empty ledger, every call of it accepted whoever signs the split, that leaves a live receipt of fifty bags of 50 kg weighing 30 kg: the formula of the token standard fails |
| Conservation.ConservedOverRuns | contracts/maize-receipt/src/lib.rs:449-524 | for weight, bags and pieces and every set of receipts that with a receipt holds its children: what the set begins with (minted, or split from a receipt outside) equals live plus burned plus lost in splits, in every reachable world |
| Deposits.DescendantConservation | contracts/maize-receipt/src/lib.rs:449-524 | the weight of any receipt ever issued, at any depth of splitting, is for ever the live weight plus the burned weight of what descends from it |
| Deposits.LineageConservation | contracts/maize-receipt/src/lib.rs:213-229 | of a deposit this is the weight fixed at mint, bags times weight per bag, and the receipts are exactly those whose parent links end at it |
| Deposits.SplitsBoundedByWeight | contracts/maize-receipt/src/lib.rs:449-453 | any receipt of W kg is split at most W - 1 times, itself and below itself; its pieces, live or burned, are one more than these splits and at most W are live |
| Deposits.ClassConservation | contracts/maize-receipt/src/lib.rs:217-229 | for every commodity, grade, warehouse and custodian: live weight is minted weight less burned weight |
| Deposits.BagAccounting | contracts/maize-receipt/src/lib.rs:478-492 | bags minted are bags live plus bags burned plus the number of splits of odd-bag receipts |
| Flows.StepFlow | contracts/maize-receipt/src/lib.rs:163-543 | any total over the live receipts changes by exactly what the call says, on either host |
| Flows.WalletFlow | contracts/maize-receipt/src/lib.rs:386-388 | a transfer moves one receipt's weight from sender to receiver, a mint and a burn add and take one, every other call changes no wallet's weight |
| Flows.SplitLowersPotential | contracts/maize-receipt/src/lib.rs:449-524 | every successful split lowers the sum of weight less one over the live receipts by exactly one, and only a mint can raise it |
| Acceptance.AcceptedExactly | contracts/maize-receipt/src/lib.rs:92-543 | on every ledger with the invariant, exactly what each call needs to go through, whatever the order of its tests: a burn does not depend on the registry nor a split on anybody's signature, and the owner lookups refuse nothing |
| Acceptance.ReceiptErrorsMean | contracts/maize-receipt/src/lib.rs:284-453 | over all calls, "token not found" says that the receipt sought is not live, and "token locked" that its lock is the wrong way |
| Acceptance.DepositErrorsMean | contracts/maize-receipt/src/lib.rs:92-215 | over all calls, what "already initialised", "invalid commodity" and "invalid weight" say of the call |
| Acceptance.UnauthorizedMeans | contracts/maize-receipt/src/lib.rs:101-428 | over all calls, "unauthorised" names a wrong administrator, an unregistered custodian, a wrong sender or a wrong custodian, and nothing else |
| Acceptance.CommoditiesAccepted | contracts/maize-receipt/src/lib.rs:185-190 | by name: maize takes MAIZE_WHITE and MAIZE_YELLOW, sesame takes SESAME |
| Acceptance.MintShows | contracts/maize-receipt/src/lib.rs:217-247 | after a mint the queries show the call's contents, the ledger time and the farmer under a new id, and every other receipt as before |
| Acceptance.TransferShows | contracts/maize-receipt/src/lib.rs:386-388 | after a transfer the queries show the new owner, and everything else as before |
| Acceptance.LockShows | contracts/maize-receipt/src/lib.rs:303-344 | after a lock or unlock the queries show the flag, and everything else as before |
| Acceptance.BurnShows | contracts/maize-receipt/src/lib.rs:415-421 | after a burn the queries find the receipt no more, and everything else as before |
| Acceptance.SplitShows | contracts/maize-receipt/src/lib.rs:474-535 | after a split the queries show the two children, with their weights, half the bags and the parent's lot and owner, in the place of the parent |
| Acceptance.GovernanceShows | contracts/maize-receipt/src/lib.rs:92-161 | initialisation names the administrator, the registry changes in one entry, receipts stay |
| Acceptance.QueriesAgree | contracts/sesame-receipt/src/lib.rs:519-531 | in every run the token and the owner query find the same receipts, show them as issued but for the lock, and agree with the balances |
| Acceptance.AlwaysBurnable | contracts/maize-receipt/src/lib.rs:398-428 | in every run the custodian named in a live receipt can burn it, registered or not, after the administrator's unlocking if it is locked |
| Acceptance.AlwaysTransferable | contracts/maize-receipt/src/lib.rs:358-396 | in every run the owner of a live receipt can hand it to anybody, after the administrator's unlocking if it is locked |
| Authority.ChangeNeedsSignature | contracts/maize-receipt/src/lib.rs:284-447 | a live receipt changes exactly when a call that names it goes through (a transfer to its present owner changes nothing); then a transfer has been signed by the owner, a burn by the custodian named in the receipt, a lock or unlock by the administrator |
| Authority.GovernanceNeedsAdmin | contracts/maize-receipt/src/lib.rs:101-161 | the registry of custodians and the lock of a receipt change only in a call the administrator has signed |
| Authority.AdminAloneGoverns | contracts/maize-receipt/src/lib.rs:101-161 | over a run of which the administrator signs nothing the registry stays the same, and so does the lock of each receipt that stays live |
| Authority.WalletAccount | contracts/maize-receipt/src/lib.rs:358-428 | over any run a wallet's weight is what it had, plus received, less sent, less burned; it sends nothing in a run in which it signs nothing |
| Authority.SplitAsksNobody | contracts/maize-receipt/src/lib.rs:434-453 | a split gives the same result and the same storage whoever signs it, or nobody |
| Lifecycle.LockedStep | contracts/maize-receipt/src/lib.rs:303-344 | a call changes a locked receipt exactly when it is its successful unlocking |
| Lifecycle.LockFreezes | contracts/maize-receipt/src/lib.rs:380-447 | over any run without that unlocking a locked receipt stays live with the same owner and metadata |
| Lifecycle.LockedUntilUnlocked | contracts/maize-receipt/src/lib.rs:284-319 | from its locking to its unlocking a receipt keeps its owner and contents, the query shows the lock, and every transfer, burn or split of it is refused |
| Lifecycle.DeadForEver | contracts/maize-receipt/src/lib.rs:398-447 | a receipt that left the live set never returns, and every later transfer, burn, split or query of it is TokenNotFound |
| Lifecycle.RemovedCustodianBurns | contracts/maize-receipt/src/lib.rs:405-413 | whatever follows the removal of a custodian, until it is added again it can mint nothing, and it can burn each receipt of its that is still live, exactly while the receipt is not locked |
| Witnesses.RemovedKeeperBurns | contracts/maize-receipt/src/lib.rs:398-428 | a run from the empty ledger, every call of it accepted, in which a removed custodian burns its receipt |
| Lifecycle.RegistryOverRuns | contracts/maize-receipt/src/lib.rs:101-161 | after any number of calls of a run a custodian is registered exactly when one of them added it and no later one removed it, or it was registered at the start and never removed |
| Lifecycle.AdminIsFixed | contracts/maize-receipt/src/lib.rs:92-96 | the administrator set first is never replaced |
| Lifecycle.InitResetsNothing | contracts/maize-receipt/src/lib.rs:93-97 | initialisation resets the counter only while no id has been issued |
| Lifecycle.IssueAccounting | contracts/maize-receipt/src/lib.rs:200-215 | issued ids are mints plus twice the splits; the counter equals that with rollback, and without it exceeds it by the mints refused for weight overflow |
| Balances.BalanceIsExact | contracts/maize-receipt/src/lib.rs:263-282 | a balance is exactly the wallet's live receipts, in order of issue and without repeats, although the list keeps dead ids |
| Balances.BalancesPartition | contracts/maize-receipt/src/lib.rs:270-279 | every live receipt is in its owner's balance and in no other, and no dead one is in any |
| TokenRecords.OnlyCodeOneIsNotFound | apps/api/src/jobs/reconcile.job.ts:249-256 | an error that quotes a contract error code of any length counts as "not found" exactly for code 1, unless the text before or after the quotation reads as "not found" by itself |
| TokenRecords.ReceiptsEqual | apps/api/src/jobs/reconcile.job.ts:294-309 | the field-by-field comparison is equality of receipts |
| TokenRecords.ReadsAsNotFound | apps/api/src/jobs/reconcile.job.ts:249-256 | a message with any of the three texts in it, wherever it stands, reads as "not found" if it is an Error's |
| TokenRecords.NotFoundHasText | apps/api/src/jobs/reconcile.job.ts:249-256 | conversely every error that reads as "not found" is an Error with one of the three texts in its message |
| Reconcile.TokenStore.SetToken | apps/api/src/jobs/reconcile.job.ts:54-55 | the record is replaced or appended, and the write is noted |
| Reconcile.TokenStore.DeleteToken | apps/api/src/jobs/reconcile.job.ts:56-57 | the record goes, the order of the others stays, and the write is noted |
| ReconcilePass.WithoutKeepsOrder | apps/api/src/jobs/reconcile.job.ts:56-57 | a deletion takes one key out of the list and leaves those before and after it as they stand |
| Reconcile.RunReconciliation | apps/api/src/jobs/reconcile.job.ts:111-194 | the loop leaves the store, the summary and the writes of the specified pass |
| ReconcilePass.PassMeetsSpec | apps/api/src/jobs/reconcile.job.ts:111-194 | every token gets its own verdict; checked is the initial size, the correction counts are the numbers of drifted tokens, the final size is the initial one less the deletions |
| ReconcilePass.CountsAreDifferences | apps/api/src/jobs/reconcile.job.ts:111-194 | the counts are the numbers of tokens that have another owner after the pass, that have another receipt, and that are gone |
| ReconcilePass.WritesAreDifferences | apps/api/src/jobs/reconcile.job.ts:182-184 | a pass writes each token that changed or went, once, with its new record, and no other |
| ReconcilePass.OrderIsKept | apps/api/src/jobs/reconcile.job.ts:50-57 | after a pass the store lists the tokens that remain, in the order it had |
| ReconcilePass.ReceiptShows | apps/api/src/jobs/reconcile.job.ts:269-288 | a token whose queries succeed ends with the chain's owner and the mapped receipt, field by field |
| ReconcilePass.VerdictPromises | apps/api/src/jobs/reconcile.job.ts:134-184 | not found removes; another owner error changes nothing; otherwise the chain's owner, and the mapped receipt if the metadata came, with all other fields kept; an error, with its exact text, for each token kept although a query failed and for no other |
| ReconcilePass.OnlyCodeOneRemoves | apps/api/src/jobs/reconcile.job.ts:127-147 | a token whose owner query fails with an error that quotes a code, in text that does not itself read as "not found", is removed exactly for code 1; for every other code, 3 among them, its record stays as it was and the error is reported |
| ReconcilePass.BurnedTokenStays | sdk/src/sesame/query.ts:161-165 | the message of the client's owner query for code 3 leaves the record in the store with the owner it had, and an error in the summary |
| ReconcilePass.FailuresAreIsolated | apps/api/src/jobs/reconcile.job.ts:104-106 | what happens to a token depends on its record and the chain's answers about it alone |
| ReconcilePass.SecondPassIsIdle | apps/api/src/jobs/reconcile.job.ts:127-193 | a second pass against the same chain writes, corrects and deletes nothing and reports the same errors |
| Drift.DetectDrift | apps/api/src/controllers/verifyToken.controller.ts:246-277 | the report of the fields that differ, in order; empty without a record |
| Drift.ReportIs | apps/api/src/controllers/verifyToken.controller.ts:255-274 | the report holds an entry for each field that differs, with both values, and no other entry |
| Drift.ReportInOrder | apps/api/src/controllers/verifyToken.controller.ts:255-274 | the entries come in the order owner, commodity, quantity, grade, custodian, depositor, none of them twice |
| Drift.PassRemovesDrift | apps/api/src/jobs/reconcile.job.ts:149-184 | a pass sets every reported field to exactly the reported chain value and leaves nothing to report |
| Drift.CleanExactlyWhen | apps/api/src/jobs/reconcile.job.ts:294-309 | reconciliation leaves a token alone exactly when nothing is reported and id, unit, issue and expiry times match too |
| Drift.SilentCorrection | apps/api/src/jobs/reconcile.job.ts:269-288 | a receipt in another unit shows no drift and is rewritten all the same |

## Left out

- Transactions built, simulated and submitted by the SDK, with their polling: network and library code.
- Soroban internals: `require_auth` is membership in the set of authorising addresses; events, storage lifetimes, storage size limits and the 32-bit length of a host vector are not modelled.
- Concurrent writers during a pass: one token's record is read and written with two network calls between, and another writer can be overwritten there; the pass modelled is the only writer.
- JavaScript numbers: quantities and times are reals, the conversion of a deposit time is any function of it, and NaN does not occur.
- handleVerifyToken beyond its drift report: status codes, registries, price lookup and valuation.
- The scheduler and its logging.
- Farmer wallets, PIN hashing, key storage, certificates, the price oracle, environment and health routes: library calls and I/O.
- `version` and the SDK's error classes and error map: lookups settled by reading one line.

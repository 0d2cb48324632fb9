# PandaProbe backend: verified models

Dafny models of the parts of PandaProbe where a mistake costs money or trust, with proofs.
`dafny verify dfyconfig.toml` checks the whole project.

## What is modelled

**Overage billing** (the core). Usage beyond a plan's base is reserved in durable reports and
delivered to Stripe independently of period closing.

- `Billing`, `IdempotencyKeys`: entities, plan table, half-up cents, key texts. `Text`: white
  space as Python strips it, shared with the secondary models.
- `Reservation`: `stage`, and the ledger of reservations. A ledger entry (`Intent`) is what a
  report promised; delivery steps are proved never to change it.
- `Protocol`: the delivery protocol as a state machine. A `World` holds the usage and report
  rows, the row locks of any number of workers, the calls under way, Stripe's replies and items,
  the finalized invoices and the clock. A `Step` is one committed transaction or one event:
  lock-and-read, freeze intent, send, record, carry over, recover, finish, review, release (a
  crash, an exception or a rollback), Stripe handling a call, an invoice finalizing, an
  operator's requeue, time passing. `Valid`/`Exec` are runs; theorems quantify over all of them.
- `Delivery`, `Books`, `Settlement`, `Closing`, `Progress`, `Completion`: the invariants and what
  follows from them.
- `Reporting`, `Handlers`: the service's methods as imperative code. `Deliver` is the service's
  loop; `Interfere` stands for everyone else and may be any run in which this worker takes no
  step, so what is proved of the loop holds under every interleaving.

Assumptions, visible in `Protocol` and `Reporting`: a call reaches Stripe at most one hour after the clock
read that allowed it, or never, and may arrive several times, also after its sender crashed;
Stripe replays a stored success for a live key, keeps keys at least 24 hours, keeps or forgets
them afterwards, rejects an item aimed at an invoice that left draft, and does not delete items;
invoices never return to draft; all workers read one clock; a row lock is held until commit,
rollback or crash. `finish` reads other reports as last committed (`unseen` names items another
worker recorded but `finish` did not see yet). Stripe's lookups may fail at any time, replies
may be lost, and the commit of a turn may fail and roll back; these outages are the `Weather` of
a delivery, one for each turn. PostgreSQL answers the queries themselves, the lock query
included, and a commit that raises did not happen.

**Secondary models**, each with whole-history theorems: `UsageCounters` (Lua quota scripts),
`OwnedLock` (Redis lock scripts), `EmbeddingCache` (LRU batch embedding), `EvalRun` (restartable
executor and exact retry), `CliExchange` (single-use login codes), `SpanForest` (waterfall tree
on mutable nodes), `CommaSplit` (signature splitter), `ReExports` (import-chain resolver).

Where code and documentation differ the code is followed:

- The module text of `cli_service.py` says that a code is consumed before the PKCE challenge is
  verified, and a comment calls the lookup a fetch-and-delete; the code reads, verifies, then
  deletes. Single use is proved for that order.
- `embed_texts` is described as a bounded cache for any batch; a batch with more distinct texts
  than the cache holds evicts its own keys and raises. `EmbedTexts` succeeds if and only if the
  batch fits.
- `check_and_increment` reads the reply `-1` as a rejection; that is exact as long as no granted
  total is itself `-1` (`MinusOneMeansRejected`).

## Model

| member | source | states |
|---|---|---|
| Settlement.ChargedAtMostOnce | backend/app/services/billing_reporting_service.py:138-216 | in every run, under all crashes, lost replies, repeated calls, carryovers and delays, each (report, category) has at most one Stripe item |
| Settlement.ReportedMeansChargedOnce | backend/app/services/billing_reporting_service.py:145-149 | a reported report has for each requested category exactly one item, the recorded one, for the reserved charge, and none for other categories |
| Settlement.FrozenRequests | backend/app/services/billing_reporting_service.py:150-213 | no idempotency key is ever sent with two parameter sets; all calls of a category carry one charge; at most one carryover, and then without invoice |
| Settlement.SentOnlyGrows | backend/app/services/billing_reporting_service.py:196-215 | sent calls and Stripe's items are never forgotten along a run, so statements about them cover the whole history |
| Settlement.UnattemptedMeansUncharged | backend/app/services/billing_reporting_service.py:154-182 | while no intent is persisted for a category there is no Stripe item for it under any key |
| Settlement.RecoveryFindsTheCharge | backend/app/services/billing_reporting_service.py:131-136 | over any listing of real items the mismatch that recovery guards against is unreachable; the search succeeds exactly when the bounded listing shows the requested item, and returns that |
| Settlement.RecoveryIsConclusive | backend/app/services/billing_reporting_service.py:124-136 | in every reachable state a complete listing within the scan limit, cut off a minute before the attempt, yields an item if and only if Stripe holds one for the report and category |
| Settlement.MoneyIsConserved | backend/app/services/billing_reporting_service.py:75-103 | once all reports of a record are reported, Stripe's cents are the price of the overage between opening and highest snapshot, within 0.4 cent per charge |
| Settlement.RoundingAddsUp | backend/app/services/billing_reporting_service.py:86 | at any price, the reserved cents of a record stay within one rounding slack per charge of the exact price |
| Settlement.StripeHoldsTheReserve | backend/app/services/billing_reporting_service.py:138-216 | the sum over Stripe's items of a fully reported record equals the sum of its reserved amounts |
| Settlement.IntentsArePermanent | backend/app/services/billing_reporting_service.py:107-117 | no step of any run alters or drops what a report reserved; runs only append reports |
| Settlement.EndsAreAbsorbing | backend/app/services/billing_reporting_service.py:141-144 | a reported or reviewed report is neither changed nor sent by any step except an operator's requeue |
| Settlement.EndsLast | backend/app/services/billing_reporting_service.py:141-149 | in any run a reported report, and one in review that no operator requeues, keeps its row and no call is ever sent for it |
| Settlement.FinalInvoiceNeverNamed | backend/app/services/billing_reporting_service.py:155-181 | once a request was frozen because its invoice had left draft, no call sent for that category at any later time names an invoice |
| Settlement.StagedInvoiceIsNamed | backend/app/services/billing_reporting_service.py:154-178 | as long as the invoice a report was staged against has not left draft, every call ever sent for the report names it |
| Delivery.StepKeeps | backend/app/services/billing_reporting_service.py:138-216 | every step keeps the delivery invariant: current and superseded requests, one item per key, truthful replies, exclusive locks |
| Delivery.RunKeeps | backend/app/services/billing_reporting_service.py:138-216 | whole runs keep the delivery invariant |
| Delivery.KeyStillLive | backend/app/services/billing_reporting_service.py:27-27 | a call that may still arrive meets a live key for any earlier success, because 23 hours of retries plus the call window stay below the key lifetime |
| Delivery.CarryOverRow | backend/app/services/billing_reporting_service.py:199-213 | a definitive rejection proves that no item exists under the old key, so re-keying keeps the invariant |
| Delivery.RowFrame | backend/app/infrastructure/db/repositories/billing_report_repo.py:53-69 | a report row is changed only by the commit of the worker holding its lock, or by a requeue |
| Delivery.NextIsMissing | backend/app/services/billing_reporting_service.py:145-146 | the chosen category is requested and unrecorded, and there is none exactly when everything is recorded |
| Books.BooksStep | backend/app/infrastructure/db/repositories/billing_report_repo.py:71-102 | every step keeps the ledger chain, the bounds of the confirmed counts, and that no unresolved charge is skipped |
| Books.BooksRun | backend/app/services/billing_reporting_service.py:45-117 | whole runs keep ledger and confirmed counts sound |
| Books.WatermarkBounds | backend/app/infrastructure/db/repositories/billing_report_repo.py:82-101 | finishing moves confirmed counts only forward, never beyond the highest snapshot nor past any unresolved charge of the record |
| Books.FinishSettles | backend/app/infrastructure/db/repositories/billing_report_repo.py:87-98 | when the last report of a record finishes, its confirmed counts equal the highest snapshot |
| Books.DeliveryKeepsIntents | backend/app/services/billing_reporting_service.py:150-215 | no delivery commit changes usage, terms, snapshots or charges of any report |
| Reservation.StageExtends | backend/app/services/billing_reporting_service.py:45-117 | a fresh report extends the ledger: it starts where the earlier ones stopped, on their terms |
| Reservation.FreshReportAsks | backend/app/services/billing_reporting_service.py:72-117 | a fresh report asks for exactly the categories with new overage, aimed at the given invoice under their first key, and is reported at birth only when empty |
| Reservation.IncludedUnitsAreFree | backend/app/services/billing_reporting_service.py:59-85 | on a record's first report no unit that the plan includes is charged |
| Reservation.FreshOnlyForOverage | backend/app/services/billing_reporting_service.py:104-105 | without a closing invoice a report is made exactly when some category has counted beyond both its base and everything reserved or confirmed |
| Reservation.StageGuards | backend/app/services/billing_reporting_service.py:47-70 | the guards in order: an absent or billed record, an invoice that closed it already, a plan without overage billing, a missing customer; otherwise a report is made, or without closing invoice possibly nothing |
| Reservation.TermsAreFixed | backend/app/services/billing_reporting_service.py:59-68 | a record's first report is charged on its plan's base at 0.004 and its customer and subscription, every later one on the terms of the earlier ones |
| Reservation.FreshReportReserves | backend/app/services/billing_reporting_service.py:72-103 | a report's snapshot is the highest of counters, confirmed count and earlier snapshots; a category is charged exactly when the counters exceed both the base and that earlier mark, for exactly the units beyond both, within half a cent of their price |
| Reservation.Telescopes | backend/app/services/billing_reporting_service.py:75-85 | the units over all reports of a record sum to over(highest snapshot) minus over(opening), whatever the counters did |
| Reservation.ChargesDisjoint | backend/app/services/billing_reporting_service.py:76-80 | two charges of one record and category never cover a common unit |
| Reservation.SameTerms | backend/app/services/billing_reporting_service.py:59-68 | all reports of a record share pricing, customer and subscription |
| Reservation.ChargeIsPriced | backend/app/services/billing_reporting_service.py:83-99 | every charge bills a positive number of units for its own report, category and customer, within half a cent of the exact price |
| Reservation.HighMarkIsMark | backend/app/services/billing_reporting_service.py:77-79 | the maximum over the queried reports is the ledger's high-water mark |
| Billing.HalfUpIsNearest | backend/app/services/billing_reporting_service.py:86 | the rounding is to the nearest cent, ties away from zero |
| Billing.ChargeWithinFourTenths | backend/app/core/billing/plans.py:59 | at the configured unit price every charge is within 0.4 cent of exact |
| IdempotencyKeys.TextIsInjective | backend/app/services/billing_reporting_service.py:100-100 | equal key strings mean the same report, category and number of carryovers |
| Closing.ClosingIsComplete | backend/app/services/billing_service.py:447-464 | closing an unbilled pay-as-you-go record bills it and leaves its reserved units covering the synced counters |
| Closing.ClosingReplayed | backend/app/services/billing_service.py:453-460 | replayed or further renewal invoices for a billed record change nothing |
| Closing.NeverUnbilled | backend/app/services/billing_service.py:447-464 | no run reopens a billed record |
| Closing.StagingCovers | backend/app/infrastructure/queue/tasks.py:981-996 | any eligible staging, also of late counters on a closed record, makes the reserved units cover highest snapshot and counters |
| Closing.StagingAgainReservesNothing | backend/app/infrastructure/queue/tasks.py:994-996 | staging twice with unchanged counters reserves nothing the second time |
| Closing.ReachableIsSound | backend/app/services/billing_reporting_service.py:45-216 | every reachable state satisfies delivery, ledger and closing invariants |
| Closing.PreviewAgreesWithStaging | backend/app/services/billing_service.py:264-311 | the unreported-overage preview is never below the next reservation, and equals it once earlier reports are reported; for a first report unconditionally, later on unless the earlier ones froze another plan's base |
| Closing.PreviewSpelledOut | backend/app/services/billing_service.py:264-311 | the preview shows the units counted beyond both base and confirmed count, and none for a billed record or a plan without overage billing |
| Progress.CommitLowersRank | backend/app/services/billing_reporting_service.py:140-216 | every commit that leaves a report pending lowers its rank |
| Progress.RankNeverRises | backend/app/services/billing_reporting_service.py:138-216 | no step of anyone raises any report's rank |
| Progress.RankBound | backend/app/services/billing_reporting_service.py:138-216 | a report with n requests needs at most 4n further commits |
| Progress.OthersKeepHold | backend/app/infrastructure/db/repositories/billing_report_repo.py:53-63 | a held row and its holder are untouched by any run of others |
| Completion.NeverStuck | backend/app/services/billing_reporting_service.py:138-216 | from every sound state an unlocked pending report with open windows can be driven to reported by one worker and Stripe alone |
| Reporting.BillingReporting.Deliver | backend/app/services/billing_reporting_service.py:138-216 | in every reachable state and under any interference and any outages of Stripe the loop performs a run of the protocol, locks an available report first, ends within 4n+1 rounds, reports success only when the report is reported, and gives up quietly only on an unavailable report; it raises only with its lock released, either over a failed lookup or commit right after locking, or right after a call to which, at that moment, there is no answer it could use |
| Reporting.BillingReporting.Round | backend/app/services/billing_reporting_service.py:141-215 | one turn locks the row if it can and then takes the branch that the row, the clock, the outages and Stripe's answer call for; a turn that raises leaves the row alone; the verdict follows from the last step, and no verdict means a lower rank |
| Reporting.BillingReporting.Locked | backend/app/services/billing_reporting_service.py:145-216 | under the row lock the steps are finish, freeze for the draft state looked up, recover from a complete listing, or send followed by the one reaction that fits the answer, as the first unrecorded category and its attempt time decide; a failed lookup or commit replaces the first three by a release |
| Reporting.BillingReporting.FreezeNext | backend/app/services/billing_reporting_service.py:154-182 | a freeze keeps a draft invoice as destination, drops one that had left draft, and sets the attempt time; the report goes to review exactly when no invoice remains and its subscription does not continue; it raises, leaving the row alone, exactly when a needed lookup or the commit fails |
| Reporting.BillingReporting.SendNext | backend/app/services/billing_reporting_service.py:196-216 | the call is sent once and others step; then an item is recorded, a rejection carried over, or the turn raises, exactly as the answers Stripe gave to this very call allow |
| Reporting.BillingReporting.React | backend/app/services/billing_reporting_service.py:196-213 | it raises if and only if, when it stops waiting, the commit fails, the reply is lost, or Stripe gave this call no answer but a rejection whose invoice lookup fails; otherwise it records the created item or carries the rejection over |
| Reporting.BillingReporting.TakeReply | backend/app/services/billing_reporting_service.py:196-216 | a created item is recorded; a rejection is carried over, to the same charge under its second key without invoice and not attempted, when the lookup shows the invoice final; anything else raises and leaves the row alone |
| Reporting.BillingReporting.RecoverNext | backend/app/services/billing_reporting_service.py:184-195 | past the retry window nothing is created: an item Stripe held when a complete listing within the scan limit was read is recorded, and without any item the report goes to review, with others stepping before the commit; it raises, leaving the row alone, exactly when listing or commit fails |
| Reporting.BillingReporting.DeliverSafely | backend/app/services/billing_reporting_service.py:218-231 | an exception becomes an undelivered report; success means reported, failure an unavailable report, a failed lookup or commit after locking, or a call to which there is no usable answer |
| Reporting.BillingReporting.Stage | backend/app/services/billing_reporting_service.py:37-117 | the imperative staging yields the outcome that StageGuards, TermsAreFixed and FreshReportReserves spell out, and its report is the only change |
| Reporting.FillRequests | backend/app/services/billing_reporting_service.py:72-103 | the loop over the counters yields exactly the specified requests and snapshots |
| Reporting.MaxSnapshot | backend/app/services/billing_reporting_service.py:77-79 | the computed mark bounds and is attained by the confirmed count and the earlier snapshots |
| Reporting.ScanFor | backend/app/services/billing_reporting_service.py:131-136 | the scan reads at most 1000 entries and returns the first match of report and category, or a mismatch |
| Reporting.BillingReporting.ListItems | backend/app/services/billing_reporting_service.py:126-128 | the listing holds all of the service's items for the customer created no more than a minute before the attempt, among any number of the customer's other items |
| Reporting.BillingReporting.Finish | backend/app/infrastructure/db/repositories/billing_report_repo.py:71-102 | exactly when the commit succeeds the report is marked, and each confirmed count becomes the greatest value at or below a confirmed snapshot and every unresolved charge seen, but never less than it was; nothing else changes |
| Handlers.BillingService.HandleInvoicePaid | backend/app/services/billing_service.py:425-473 | a renewal is a run that syncs and closes its record, or fails and changes nothing; it fails exactly when the subscription lookup, the lock, the period, the usage history or the customer is missing; a pay-as-you-go record it closes carries the invoice's id and is covered by reservations up to the counters read |
| Handlers.ClosedIsCovered | backend/app/services/billing_service.py:447-464 | whenever the closing step of an invoice bills a pay-as-you-go record, its reserved units reach from its opening to the larger of its mark and its counters, on its reports' base or, for a first report, the plan's |
| Handlers.BillingService.SyncInvoicePeriod | backend/app/services/billing_service.py:371-389 | the record is found exactly when its period agrees and it is billed, or when its counters could be read and it exists or they create it; a billed record is not synced |
| Handlers.BillingService.HandleInvoiceCreated | backend/app/services/billing_service.py:391-423 | for a renewal on a pay-as-you-go plan an open record is synced, reserved against the draft and committed; what is reserved is locked for delivery by this worker, or by one that came first, and ends reported, unavailable, or with an attempt that raised for one of the reasons of the loop; failed guards leave the world as it was |
| Handlers.BillingService.Capture | backend/app/services/billing_service.py:313-329 | sync and reservation are committed together; without a customer the sync alone is committed and nothing reported, with an empty one both are rolled back; others may step before delivery is attempted |
| Handlers.UnlockedUntilLocked | backend/app/infrastructure/db/repositories/billing_report_repo.py:53-63 | in any run a pending report that nobody holds stays available until some worker locks it |
| Handlers.BillingService.CheckClosedPeriod | backend/app/infrastructure/queue/tasks.py:970-998 | while the marker exists and no worker is delivering it, late counters are synced and staged in one transaction, without changing whether any record is billed; otherwise nothing happens |
| UsageCounters.RetriesAreInvisible | backend/app/services/usage_service.py:41-66 | with any retries inside the window the counters equal those of the first calls alone |
| UsageCounters.RepliesAreFirstAnswers | backend/app/services/usage_service.py:42-45 | every reply under an id is the answer its first call gets in the history without retries |
| UsageCounters.RetryIsInvisibleExactlyInWindow | backend/app/services/usage_service.py:59-68 | a repeated call leaves the counters alone exactly when its key is live, it is rejected, or it counts nothing |
| UsageCounters.ReplyLivesAMinute | backend/app/services/usage_service.py:41-68 | a reply is replayed for sixty seconds and not beyond |
| UsageCounters.CounterBalances | backend/app/services/usage_service.py:46-66 | a counter is its start plus granted counts minus refunds |
| UsageCounters.QuotaHoldsUnderRetries | backend/app/services/usage_service.py:46-55 | with refunds matching grants and any retries, the counter stays between zero and the limit after every event of the history |
| UsageCounters.QuotaHolds | backend/app/services/usage_service.py:46-55 | the same after every single call of the history |
| UsageCounters.MinusOneMeansRejected | backend/app/services/usage_service.py:126-130 | the reply -1 means rejection exactly unless a granted total is -1, and rejection means current plus count exceeds the limit |
| UsageCounters.UsageService.CheckAndIncrementScript | backend/app/services/usage_service.py:41-56 | the script that increments first and undoes equals the check-first specification |
| UsageCounters.UsageService.RollbackScript | backend/app/services/usage_service.py:58-66 | the compensating script equals its specification |
| UsageCounters.UsageService.CheckAndIncrement | backend/app/services/usage_service.py:80-132 | inactive accounts are refused untouched; with a fresh token a call is refused exactly when the plan is neither pay-as-you-go nor Development and the total exceeds its included units, with its counter unmoved |
| UsageCounters.HobbyStaysWithinPlan | backend/app/services/usage_service.py:102-132 | over any history of the service's calls on the Hobby plan, retries included, a counter stays between zero and the plan's included units |
| OwnedLock.HolderKeepsLock | backend/app/infrastructure/redis/locks.py:7-35 | until its deadline a holder loses the lock only by releasing or completing it |
| OwnedLock.OwnersAreSeparated | backend/app/infrastructure/redis/locks.py:7-35 | between two different owners lies the first one's release, completion or expiry |
| OwnedLock.ReleaseHandsOver | backend/app/infrastructure/redis/locks.py:18-23 | a key released by its owner goes to the next one who asks, for its full lifetime |
| OwnedLock.FreeKeyIsAcquired | backend/app/infrastructure/redis/locks.py:7-16 | an absent or expired key is acquired by whoever asks, and held for its full lifetime unless given up |
| OwnedLock.RepliesAreTrue | backend/app/infrastructure/redis/locks.py:7-35 | a script succeeds exactly when the key is free or the caller's own, the caller's own, or the caller's own or completed |
| OwnedLock.AcquiresAreSeparated | backend/app/infrastructure/redis/locks.py:7-16 | of two different tokens that were both told they acquired the key, the first gave it up or expired in between |
| OwnedLock.CompletionIsDurable | backend/app/infrastructure/redis/locks.py:25-35 | while a completion marker lives no acquire succeeds and nobody removes it |
| OwnedLock.ProcessedOnce | backend/app/api/v1/routes/webhooks.py:79-127 | a completed webhook event cannot be claimed again before its marker expires |
| OwnedLock.RefusalsAreInvisible | backend/app/infrastructure/redis/locks.py:7-35 | erasing every refused script, a release by a non-owner included, from any history leaves the same key |
| OwnedLock.RedisKey.AcquireScript | backend/app/infrastructure/redis/locks.py:7-16 | the acquire script equals its specification |
| OwnedLock.RedisKey.ReleaseScript | backend/app/infrastructure/redis/locks.py:18-23 | the release script equals its specification |
| OwnedLock.RedisKey.CompleteScript | backend/app/infrastructure/redis/locks.py:25-35 | the completion script equals its specification |
| EmbeddingCache.LLMEngine.EmbedTexts | backend/app/infrastructure/llm/engine.py:207-225 | the result is the direct embedding of every text, duplicates included, if and only if the batch has at most the cache size of distinct texts; size and key agreement always hold |
| EmbeddingCache.LLMEngine.Evict | backend/app/infrastructure/llm/engine.py:221-223 | eviction drops exactly the oldest keys and spares a batch that fits |
| EmbeddingCache.LLMEngine.Touch | backend/app/infrastructure/llm/engine.py:208-213 | hits move behind all other keys, and the misses are exactly the uncached positions |
| EmbeddingCache.LLMEngine.StoreMisses | backend/app/infrastructure/llm/engine.py:215-219 | the provider's answers are stored under their own keys, newest last |
| EmbeddingCache.OldestIsEvictable | backend/app/infrastructure/llm/engine.py:222-223 | a cache larger than the batch has a key outside it in front |
| EvalRun.RestartConverges | backend/app/infrastructure/queue/tasks.py:211-303 | whatever cut attempts left, a completed one leaves one score per listed found pair occurrence, failed exactly when its metric raised, evaluated and failed counters equal to the targets and to the raising occurrences, and other runs untouched |
| EvalRun.PlainRunScores | backend/app/infrastructure/queue/tasks.py:233-236 | without overrides each found target is scored on each of the run's metrics, as often as listed |
| EvalRun.Worker.RunEvalRun | backend/app/infrastructure/queue/tasks.py:188-303 | an attempt that dies at any commit point has committed exactly one of the specified cuts; a completed one flags and counts exactly the metrics that raised |
| EvalRun.PrepareRetry | backend/app/services/eval_service.py:237-247 | the retry's targets and per-trace metrics list exactly the distinct failed pairs |
| EvalRun.FailedRowsMeaning | backend/app/infrastructure/db/repositories/eval_repo.py:318-326 | the rows handed to a retry are exactly the failed pairs of the run |
| EvalRun.RetryIsPrecise | backend/app/services/eval_service.py:241-274 | a completed retry scores exactly the failed pairs whose trace still exists, each once |
| EvalRun.PrepareRetryFailedRun | backend/app/services/eval_service.py:227-274 | from the original run's committed scores: the retry is refused exactly when nothing failed, and however often it is cut its completed attempt scores exactly the failed pairs whose trace exists, each once, flags exactly what raises again, and touches no other run |
| CliExchange.SingleUse | backend/app/services/cli_service.py:136-162 | over every interleaving a code yields at most one key, only to a verifier of its challenge, and is then gone |
| CliExchange.WrongVerifierIsHarmless | backend/app/services/cli_service.py:121-145 | erasing all steps of a caller with a non-matching verifier changes nothing for anyone else |
| CliExchange.LoneExchange | backend/app/services/cli_service.py:136-162 | alone with a live code a member can complete the exchange exactly when the verifier matches; a failed comparison leaves the code in place |
| CliExchange.IssuedCodeServes | backend/app/services/cli_service.py:94-172 | a code issued less than two minutes ago serves a lone member whose verifier matches, once |
| CliExchange.CodesExpire | backend/app/services/cli_service.py:115-136 | two minutes after it was issued a code that nobody consumed yields no key, whoever asks and whatever happens |
| CliExchange.CliAuthService.Exchange | backend/app/services/cli_service.py:118-172 | a successful exchange is a member's, took all five steps and minted its own key for the payload bound to the code; each error is raised by the step that refused this caller, and lack of authorization only for a non-member |
| CliExchange.CliAuthService.IssueCode | backend/app/services/cli_service.py:94-116 | codes are issued exactly for S256, a challenge that is not blank, the fixed lifetime, a member and a project of the organization, and every refusal names its guard |
| SpanForest.BuildTree | frontend/src/components/features/WaterfallTree.tsx:26-43 | each distinct id becomes one fresh node under its own parent or among the roots, in input order |
| SpanForest.ForestHoldsRootedOnce | frontend/src/components/features/WaterfallTree.tsx:34-42 | the forest shows each id whose parent chain ends exactly once and none on or below a cycle |
| SpanForest.RootedOrBelowCycle | frontend/src/components/features/WaterfallTree.tsx:34-40 | a parent chain ends exactly when it never runs into a cycle |
| SpanForest.ParentMeaning | frontend/src/components/features/WaterfallTree.tsx:27-40 | the parent is what the last span with the id names, and roots are the spans that name none, an empty one or one that no span has |
| SpanForest.AcyclicForestIsPermutation | frontend/src/components/features/WaterfallTree.tsx:26-43 | with acyclic parents the flattened forest is a permutation of the distinct ids |
| CommaSplit.SplitOfJoin | docs/_tools/sdk-reference/generate.py:123-143 | splitting the comma-join of balanced comma-free parts returns exactly those parts |
| CommaSplit.JoinOfSplit | docs/_tools/sdk-reference/generate.py:123-143 | re-joining the raw slices of any text reproduces it |
| CommaSplit.SplitIsMaximal | docs/_tools/sdk-reference/generate.py:123-143 | of any text, exactly the top-level commas separate the raw slices: none is inside a slice, and each slice ends at one |
| CommaSplit.SplitOfNested | docs/_tools/sdk-reference/generate.py:123-143 | on a grammar of nested bracket pairs and quotations, commas inside them never cut: parameters come apart exactly at the commas between them |
| CommaSplit.SplitParameters | docs/_tools/sdk-reference/generate.py:125-143 | the scanning loop yields the stripped slices between the top-level commas |
| CommaSplit.StripMeaning | docs/_tools/sdk-reference/generate.py:140-143 | stripping removes exactly the white space at both ends of a slice |
| ReExports.ResolveIsReachability | docs/_tools/sdk-reference/extract_python.py:39-49 | on any graph, cyclic or not, resolution returns a definition exactly when the import chain reaches it |
| ReExports.ResolveFollowsImports | docs/_tools/sdk-reference/extract_python.py:39-49 | a local definition is found at once, an import resolves to what it names, cycles or not, and anything else to nothing |

## Left out

- Stripe, PostgreSQL, Redis and Celery themselves: only the behaviour listed under the assumptions.
- Request fields that never vary within a report: currency, description text, period timestamps and organization id.
- `last_error`, `updated_at`, log lines, and the ordering and batching of the dispatchers.
- Clock skew between workers beyond the call window, and created-at ordering of reports: rows are listed in the order they were reserved, which the usage row lock serializes.
- Who is a member, whose project it is, and whether a subscription continues are choices of the environment; failures of Redis outside the usage snapshot of a handler.
- `handle_subscription_deleted`, checkout, portal and the other webhooks.
- Opening the next period in `handle_invoice_paid` is the separate step `OpenUsage`.
- Expiry of the Redis usage hash, counter sync of the current period, plan changes under a quota, and periods sharing one usage key.
- Embedding calls that mix models on one engine, a provider that answers with the wrong number of vectors, and hash collisions.
- Metric computation, score rounding, session evals and monitors; a metric name without implementation ends an attempt like any other cut. A metric listed twice for one trace raises both times of an attempt or neither.
- SHA-256, random tokens and key generation: an uninterpreted digest and fresh values.
- React rendering of the tree; formatting of signatures around the split, which also drops empty parts.
- Organization membership and invitations: guard checks around single rows.
- Parsing Python sources into the re-export graph.

# Fraud rule engine — a Dafny model

This project models the core of a small transaction-ingest service. A client
submits a transaction. The rule engine (`ProcessRules`) checks three fraud
rules against it: high volume, frequent small transactions and rapid
transfers. The orchestrator (`NewTransaction`) then stores the transaction
with a suspicious flag and the list of reasons that fired.

Two of the rules look at the user's recent history through the transaction
repository. They memoise a positive verdict in a suspicion cache whose keys
expire: the frequent-small verdict lasts 3600 s and the rapid-transfers
verdict 300 s. While that entry is live, the rule fires without a history
query and without checking its own amount or type guard.

Layout, one module per file:

- `transaction_model.dfy` (`TransactionModel`): transaction types, reasons,
  the submitted payload, the stored document and the persisted record.
- `transaction_repository.dfy` (`TransactionRepository`):
  - the store queries as a `Query` value, with `Select` as their meaning;
  - the sort by timestamp;
  - the `TransactionRepository` class, which owns the collection as a
    `seq<Transaction>` and has insert, get-by-id, recent-history and
    suspicious-by-user operations.
- `suspicion_cache.dfy` (`SuspicionCache`): a class holding
  `map<string, int>`, mapping each key to the instant it expires. A key is
  visible while `now <` its expiry.
- `process_rules.dfy` (`ProcessRules`):
  - `Evaluate`, the specification function of one engine run, built from one
    outcome function per cached rule;
  - the `ProcessRules` class, whose methods read and write the cache and
    query the repository and are proved against `Evaluate`;
  - lemmas stating the rule semantics.
- `new_transaction.dfy` (`NewTransaction`): the orchestrator class and the
  document it stores.
- `ingest_scenarios.dfy` (`IngestScenarios`): the service's unit-test
  scenarios, restated over the model on fresh objects as postconditions.

Modelling choices:

- Amounts are `real`.
- Timestamps and the evaluation instant `now` are whole seconds. `now` is a
  parameter: the engine, the repository's window and the cache's expiry all
  take it from the caller instead of reading a clock.
- The repository's ghost counter `recentQueries` counts the history queries
  issued. This lets contracts say when a rule queries and when it does not;
  the unit tests do not check this.
- In the source, the engine and the orchestrator each build their own
  repository object over one shared collection. Here they share one
  `TransactionRepository` object, and the module-level cache client becomes
  an explicitly passed `SuspicionCache` object.

Two consequences of the code worth stating:

- The cache keys have no separator between prefix and user id. They are
  `"small_transactions" + user_id` and `"rapid_transfers" + user_id`
  (services/rules/process_rules.py:59, services/rules/process_rules.py:83).
  `ProcessRules.KeysDistinct` proves that these keys never collide
  across rules and tell users apart.
- A TRANSFER of exactly 10000 that is the third transfer within five minutes
  is flagged with `RAPID_TRANSFERS` alone. The high-volume test is strict
  (services/rules/process_rules.py:53), and the unit test at
  tests/unit/test_transaction.py:143-146 expects exactly this.
  `IngestScenarios.RapidTransfersScenario` proves it.

## Model

| member | source | states |
|---|---|---|
| `TransactionRepository.Select` | repositories/transaction_repository.py:39 | the selection holds exactly the stored records that satisfy every condition of the query, and is never longer than the collection |
| `TransactionRepository.SelectSnoc` | repositories/transaction_repository.py:39 | storing one more record adds it to a query's result exactly when it matches, at the end |
| `TransactionRepository.SelectConcat` | repositories/transaction_repository.py:39 | the result of a query over two runs of records is the two results in stored order, so the selection is a subsequence of the collection |
| `TransactionRepository.SelectAllMatching` | repositories/transaction_repository.py:39 | when every stored record matches, the query returns the whole collection |
| `TransactionRepository.RecentQuery` | repositories/transaction_repository.py:32-38 | a record matches the recent-history query exactly when it belongs to the user, is dated at or after `now - minutes`, has a listed type if types were given, and has an amount at or below the maximum if one was given; the suspicious flag plays no part |
| `TransactionRepository.RecentTransactionsMembers` | repositories/transaction_repository.py:25-39 | a record is returned exactly when it is stored, belongs to the user, is dated at or after `now - minutes`, has a listed type if types were given, and has an amount at or below the maximum (inclusive) if one was given |
| `TransactionRepository.FutureRecordsCount` | repositories/transaction_repository.py:34 | a stored record dated after `now` is still counted: the window has no upper bound |
| `TransactionRepository.SuspiciousQuery` | repositories/transaction_repository.py:45 | a record matches the suspicious query exactly when it belongs to the user and is flagged suspicious |
| `TransactionRepository.InsertByTimestamp` | repositories/transaction_repository.py:46 | inserting into a timestamp-sorted list keeps it sorted and adds exactly that record |
| `TransactionRepository.SortByTimestamp` | repositories/transaction_repository.py:46 | the result is sorted by ascending timestamp and is a permutation of the input |
| `TransactionRepository.FindById` | repositories/transaction_repository.py:16-19 | a found record is stored and has the id asked for; nothing is found only when no stored record has that id |
| `TransactionRepository.TransactionRepository.constructor` | repositories/transaction_repository.py:12-14 | a new repository starts with an empty collection and no queries issued |
| `TransactionRepository.TransactionRepository.GetTransaction` | repositories/transaction_repository.py:16-19 | a record is returned exactly when some stored record has the id, and it is such a record |
| `TransactionRepository.TransactionRepository.InsertTransaction` | repositories/transaction_repository.py:21-23 | the collection grows by exactly one record at the end; the record carries the document given, under an id no earlier record has, and is what is read back; earlier records are unchanged |
| `TransactionRepository.TransactionRepository.GetRecentTransactionsForUser` | repositories/transaction_repository.py:25-39 | returns the selection of the recent-history query, leaves the collection unchanged and counts one query |
| `TransactionRepository.TransactionRepository.GetSuspiciousTransactionsForUser` | repositories/transaction_repository.py:41-49 | returns exactly the user's suspicious records, each as often as it is stored, sorted by ascending timestamp |
| `SuspicionCache.SuspicionCache.constructor` | services/rules/process_rules.py:22 | a new cache holds no entries |
| `SuspicionCache.SuspicionCache.Get` | services/rules/process_rules.py:60 | a key reads as present exactly when it is stored and its expiry lies after `now` |
| `SuspicionCache.SuspicionCache.Set` | services/rules/process_rules.py:79 | setting a key with a TTL makes it expire at `now + ttl`, makes it visible now, and leaves every other key as it was |
| `ProcessRules.KeysDistinct` | services/rules/process_rules.py:59-83 | a frequent-small key never equals a rapid-transfers key, and each rule's keys are equal exactly for equal user ids |
| `ProcessRules.IsHighVolume` | services/rules/process_rules.py:52-54 | the high-volume reason is returned exactly when the amount is strictly above 10000 |
| `ProcessRules.HighVolumeIff` | services/rules/process_rules.py:36-54 | the engine reports `HIGH_VOLUME_TRANSACTION` exactly when the amount is above 10000, so an amount of exactly 10000 is not flagged |
| `ProcessRules.ReasonsInEvaluationOrder` | services/rules/process_rules.py:36-50 | the reasons appear in the order high volume, frequent small, rapid transfers, each at most once, so there are at most three |
| `ProcessRules.FrequentSmallIff` | services/rules/process_rules.py:56-80 | frequent-small fires exactly when its cache entry is live, whatever the amount, or when the amount is at most 100 and at least 4 of the user's stored transactions of at most 100 fall in the last 60 minutes |
| `ProcessRules.RapidTransfersIff` | services/rules/process_rules.py:82-99 | rapid-transfers fires exactly when its cache entry is live, whatever the type, or when the transaction is a TRANSFER and at least 2 of the user's stored TRANSFERs fall in the last 5 minutes; the frequent-small write made before it does not change this |
| `ProcessRules.QueriesIssued` | services/rules/process_rules.py:56-99 | a run issues one history query per rule that finds no live entry and whose guard holds (amount at most 100, or type TRANSFER), and no other queries |
| `ProcessRules.CacheWrites` | services/rules/process_rules.py:56-99 | a run changes only the user's two rule keys; each is written only after a query that reached its limit, expiring at `now + 3600` or `now + 300`; every other entry is unchanged |
| `ProcessRules.MemoisedVerdictLifetime` | services/rules/process_rules.py:76-79 | a verdict reached by query stays live until exactly one hour (or five minutes) after the evaluation instant, not after the first qualifying transaction |
| `ProcessRules.ReevaluationStable` | services/rules/process_rules.py:36-99 | running the engine again on the same transaction, against the cache the first run left, reports the same reasons and leaves the cache as it is |
| `ProcessRules.ProcessRules.constructor` | services/rules/process_rules.py:27-34 | the engine is bound to the transaction, the repository and the cache it is given |
| `ProcessRules.ProcessRules.Call` | services/rules/process_rules.py:36-50 | evaluates all three rules in order; the reasons, the new cache and the number of queries are those of `Evaluate` on the old cache and the stored records; the store is unchanged |
| `ProcessRules.ProcessRules.HasFrequentSmallTransactions` | services/rules/process_rules.py:56-80 | fires on a live entry with no query; on a miss with an amount above 100 it neither queries nor writes; otherwise it queries once, and it fires and sets the key for 3600 s exactly when the count is at least 4 |
| `ProcessRules.ProcessRules.HasRapidTransfers` | services/rules/process_rules.py:82-99 | fires on a live entry with no query; on a miss for a non-TRANSFER it neither queries nor writes; otherwise it queries once, and it fires and sets the key for 300 s exactly when the count is at least 2 |
| `NewTransaction.ToDocument` | services/transaction/new_transaction.py:27-31 | the stored document carries the payload's user, amount, currency, timestamp and type unchanged; its reasons are the engine's, in the same order; it is suspicious exactly when that list is non-empty |
| `NewTransaction.StoredVerdictConsistent` | services/transaction/new_transaction.py:22-31 | a stored verdict is suspicious exactly when the amount is above 10000 or a cached rule's reason is listed; its reasons are in evaluation order without repeats; each cached rule's reason is listed exactly when that rule fired |
| `NewTransaction.NewTransaction.constructor` | services/transaction/new_transaction.py:13-20 | the orchestrator is bound to the payload, the repository and the cache it is given |
| `NewTransaction.NewTransaction.Call` | services/transaction/new_transaction.py:22-33 | the reasons are evaluated on the store as it was before the call, so the new transaction never counts towards its own rules; exactly one record is appended, under a fresh id, carrying the payload and that verdict; the cache ends as the engine left it |
| `IngestScenarios.FirstDepositScenario` | tests/unit/test_transaction.py:19-45 | a first DEPOSIT of 500 is stored as submitted, not suspicious, with no reasons |
| `IngestScenarios.HighVolumeBoundaryScenario` | tests/unit/test_transaction.py:47-102 | 10001 is flagged with exactly `[HIGH_VOLUME_TRANSACTION]`; 10000 is not flagged |
| `IngestScenarios.TransferEvaluation` | tests/unit/test_transaction.py:104-146 | with an empty cache and only recent transfers stored, a transfer of 10000 is flagged for rapid transfers alone exactly when at least two are stored, and sets the rapid-transfers key for 300 s |
| `IngestScenarios.SubmitTransfer` | tests/unit/test_transaction.py:116-129 | ingesting one such transfer appends it and flags it exactly when at least two transfers are already stored |
| `IngestScenarios.RapidTransfersScenario` | tests/unit/test_transaction.py:104-146 | three transfers of 10000 within 40 seconds: the first two pass, and the third is flagged with exactly `[RAPID_TRANSFERS]` |
| `IngestScenarios.SmallWithdrawalEvaluation` | tests/unit/test_transaction.py:148-189 | with an empty cache and only small recent records stored, a withdrawal of at most 100 is flagged for frequent small transactions alone exactly when at least four are stored, and sets the frequent-small key for 3600 s |
| `IngestScenarios.SubmitSmallWithdrawal` | tests/unit/test_transaction.py:159-171 | ingesting one withdrawal of 50 appends it and flags it exactly when at least four small recent records are already stored |
| `IngestScenarios.FrequentSmallScenario` | tests/unit/test_transaction.py:148-189 | five withdrawals of 50, ten minutes apart: the first four pass, and the fifth is flagged with exactly `[FREQUENT_SMALL_TRANSACTIONS]` |
| `IngestScenarios.CachedVerdictScenario` | tests/unit/test_transaction.py:191-236 | a live frequent-small entry flags a withdrawal of 50 with exactly `[FREQUENT_SMALL_TRANSACTIONS]`, and that run issues no history query; a live rapid-transfers entry flags the same withdrawal, which is not a transfer, with exactly `[RAPID_TRANSFERS]` |

## Left out

- Concurrency and `async`/`await`. Each call is one sequential step, so the
  same-user races between concurrent ingests are not modelled.
- Time within a call. The source reads the wall clock separately for each
  history query and relies on the cache server's clock for expiry. The model
  uses one `now` per engine run. Timestamps are whole seconds, with no
  sub-second precision and no timezone handling.
- Floating point. Amounts are exact reals, so Python float rounding is out
  of scope.
- Dynamic argument checks. The repository applies the type filter only when
  `types` is a list and the amount filter only when `max_amount` is a float.
  The model encodes "given or not" as `Option`. Passing an integer maximum,
  which the source would silently ignore, cannot be expressed.
- Store ids. Ids come from a counter in the repository instead of the
  store's ObjectId generator. Ids are modelled as fresh and distinct, with no
  further structure.
- `TransactionRepository.GetSuspiciousTransactionsForUser`: the order of
  records with equal timestamps is left open, as in the store's sort. The
  model's sort happens to be stable, but no contract states that.
- Cache and store failures, such as an unreachable server or a timeout.
  The source only lets these exceptions propagate, so no error path is
  modelled.
- Serialisation and validation. `to_dict_json`, pydantic validation of the
  payload, and the string form of enum values are not modelled. The HTTP
  router, the suspicious-transactions service wrapper, application startup,
  settings loading and index creation are not part of this model.

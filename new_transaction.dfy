/**
 * The ingest orchestrator (`NewTransaction`): evaluates the rules for the
 * submitted payload first, then stores exactly one record carrying the
 * payload, the suspicious flag and the reasons.
 */
module NewTransaction {
  import opened TransactionModel
  import opened TransactionRepository
  import opened SuspicionCache
  import opened ProcessRules

  /**
   * The document stored for `payload` with the engine's `reasons`: the
   * payload's fields unchanged, flagged suspicious exactly when some rule
   * fired, and the reasons in the order the engine reported them.
   */
  function ToDocument(payload: Payload, reasons: seq<SuspiciousReason>): (d: Document)
    ensures d.isSuspicious <==> |reasons| != 0
    ensures d.suspiciousReasons == reasons
    ensures d.userId == payload.userId && d.amount == payload.amount && d.currency == payload.currency
    ensures d.timestamp == payload.timestamp && d.kind == payload.kind
  {
    Document(payload.userId, payload.amount, payload.currency, payload.timestamp, payload.kind,
             |reasons| != 0, reasons)
  }

  /**
   * A stored verdict is suspicious exactly when it names a reason, its
   * reasons are in evaluation order, and a cached rule's reason is listed
   * exactly when that rule fired.
   */
  lemma StoredVerdictConsistent(payload: Payload, entries: map<string, int>,
                                records: seq<Transaction>, now: int)
    ensures var d := ToDocument(payload, Evaluate(payload, entries, records, now).reasons);
            && (d.isSuspicious <==> || payload.amount > FlagAmountThreshold
                                    || FrequentSmallTransactions in d.suspiciousReasons
                                    || RapidTransfers in d.suspiciousReasons)
            && InEvaluationOrder(d.suspiciousReasons)
    ensures var small := FrequentSmallOutcome(payload, entries, records, now);
            var d := ToDocument(payload, Evaluate(payload, entries, records, now).reasons);
            && (FrequentSmallTransactions in d.suspiciousReasons <==> small.Fired())
            && var rapid := RapidTransfersOutcome(payload, small.Apply(entries), records, now);
               (RapidTransfers in d.suspiciousReasons <==> rapid.Fired())
  {
  }

  class NewTransaction {
    const transaction: Payload
    const repo: TransactionRepository
    const cache: SuspicionCache

    constructor (transaction: Payload, repo: TransactionRepository, cache: SuspicionCache)
      ensures this.transaction == transaction && this.repo == repo && this.cache == cache
    {
      this.transaction := transaction;
      this.repo := repo;
      this.cache := cache;
    }

    /**
     * `__call__`: the reasons are computed from the history as it was before
     * this call, so the incoming transaction never counts towards its own
     * rules; then one record with a fresh id is appended to the store.
     */
    method Call(now: int) returns (t: Transaction)
      requires repo.Valid()
      modifies repo, cache
      ensures repo.Valid()
      ensures var e := Evaluate(transaction, old(cache.entries), old(repo.records), now);
              && t.Doc() == ToDocument(transaction, e.reasons)
              && cache.entries == e.entries
              && repo.recentQueries == old(repo.recentQueries) + e.queries
      ensures repo.records == old(repo.records) + [t]
      ensures forall u :: u in old(repo.records) ==> u.id != t.id
    {
      var rules := new ProcessRules(transaction, repo, cache);
      var suspiciousReasons := rules.Call(now);
      t := repo.InsertTransaction(ToDocument(transaction, suspiciousReasons));
    }
  }
}

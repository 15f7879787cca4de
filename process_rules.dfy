/**
 * The fraud rule engine (`ProcessRules`). For one incoming transaction it
 * checks three independent rules, in a fixed order and without
 * short-circuiting, and returns the reasons that fired:
 *
 *  - high volume: the amount is strictly above 10000;
 *  - frequent small transactions: the amount is at most 100 and the user has
 *    at least 4 transactions of at most 100 in the last 60 minutes;
 *  - rapid transfers: the transaction is a transfer and the user has at least
 *    2 transfers in the last 5 minutes.
 *
 * The last two rules memoise a positive verdict in the suspicion cache (for
 * 3600 and 300 seconds). While that entry is live the rule fires at once,
 * without querying history and without looking at its own amount or type guard.
 *
 * `Evaluate` is the specification of one engine run over the visible state:
 * the cache entries, the stored records and the evaluation instant.
 */
module ProcessRules {
  import opened TransactionModel
  import opened TransactionRepository
  import opened SuspicionCache

  const FlagAmountThreshold: real := 10000.0
  const FrequentSmallTransactionsPerHourMax: nat := 4
  const FrequentSmallTransactionsLimit: real := 100.0
  const FrequentSmallTransactionsMinutes: nat := 60
  const FrequentSmallTransactionsTtl: nat := 3600
  const RapidTransfersMinutes: nat := 5
  const RapidTransferMax: nat := 2
  const RapidTransfersTtl: nat := 300

  /** Cache key of the frequent-small verdict; the user id follows the prefix directly. */
  function SmallTransactionsKey(userId: string): string {
    "small_transactions" + userId
  }

  /** Cache key of the rapid-transfers verdict. */
  function RapidTransfersKey(userId: string): string {
    "rapid_transfers" + userId
  }

  /** The two rules never share a key, and each rule's keys tell users apart. */
  lemma KeysDistinct(u: string, v: string)
    ensures SmallTransactionsKey(u) != RapidTransfersKey(v)
    ensures SmallTransactionsKey(u) == SmallTransactionsKey(v) <==> u == v
    ensures RapidTransfersKey(u) == RapidTransfersKey(v) <==> u == v
  {
    assert SmallTransactionsKey(u)[0] == 's';
    assert RapidTransfersKey(v)[0] == 'r';
    assert SmallTransactionsKey(u)[18..] == u;
    assert SmallTransactionsKey(v)[18..] == v;
    assert RapidTransfersKey(u)[15..] == u;
    assert RapidTransfersKey(v)[15..] == v;
  }

  /** The user's stored transactions of at most 100 from the last 60 minutes. */
  function SmallCount(tx: Payload, records: seq<Transaction>, now: int): nat {
    |RecentTransactions(records, tx.userId, FrequentSmallTransactionsMinutes,
                        None, Some(FrequentSmallTransactionsLimit), now)|
  }

  /** The user's stored transfers from the last 5 minutes. */
  function TransferCount(tx: Payload, records: seq<Transaction>, now: int): nat {
    |RecentTransactions(records, tx.userId, RapidTransfersMinutes,
                        Some([Transfer]), None, now)|
  }

  /** `is_high_volume`: the high-volume reason exactly when the amount is above the threshold. */
  function IsHighVolume(tx: Payload): (r: Option<SuspiciousReason>)
    ensures r.Some? <==> tx.amount > FlagAmountThreshold
    ensures r.Some? ==> r.value == HighVolumeTransaction
  {
    if tx.amount > FlagAmountThreshold then Some(HighVolumeTransaction) else None
  }

  /**
   * The path one cached rule takes: a live cache entry, its guard failing
   * (no query), a query below the limit, or a query at the limit, which
   * writes `key` with expiry `expiry`.
   */
  datatype RuleOutcome = CacheHit | Skipped | BelowLimit | Flagged(key: string, expiry: int)
  {
    predicate Fired() { CacheHit? || Flagged? }

    predicate Queried() { BelowLimit? || Flagged? }

    /** The cache after the rule ran. */
    function Apply(entries: map<string, int>): map<string, int> {
      if Flagged? then entries[key := expiry] else entries
    }
  }

  /** `has_frequent_small_transactions` over the visible state. */
  function FrequentSmallOutcome(tx: Payload, entries: map<string, int>,
                                records: seq<Transaction>, now: int): RuleOutcome
  {
    var key := SmallTransactionsKey(tx.userId);
    if Visible(entries, key, now) then CacheHit
    else if !(tx.amount <= FrequentSmallTransactionsLimit) then Skipped
    else if SmallCount(tx, records, now) >= FrequentSmallTransactionsPerHourMax
    then Flagged(key, now + FrequentSmallTransactionsTtl)
    else BelowLimit
  }

  /** `has_rapid_transfers` over the visible state. */
  function RapidTransfersOutcome(tx: Payload, entries: map<string, int>,
                                 records: seq<Transaction>, now: int): RuleOutcome
  {
    var key := RapidTransfersKey(tx.userId);
    if Visible(entries, key, now) then CacheHit
    else if tx.kind != Transfer then Skipped
    else if TransferCount(tx, records, now) >= RapidTransferMax
    then Flagged(key, now + RapidTransfersTtl)
    else BelowLimit
  }

  /** What one engine run yields: the reasons, the cache afterwards, the history queries issued. */
  datatype Evaluation = Evaluation(reasons: seq<SuspiciousReason>, entries: map<string, int>, queries: nat)

  /** One engine run: the three rules in order, the rapid-transfers rule seeing the cache the frequent-small rule left. */
  function Evaluate(tx: Payload, entries: map<string, int>, records: seq<Transaction>, now: int): Evaluation {
    var small := FrequentSmallOutcome(tx, entries, records, now);
    var afterSmall := small.Apply(entries);
    var rapid := RapidTransfersOutcome(tx, afterSmall, records, now);
    Evaluation(
      (if IsHighVolume(tx).Some? then [HighVolumeTransaction] else [])
        + (if small.Fired() then [FrequentSmallTransactions] else [])
        + (if rapid.Fired() then [RapidTransfers] else []),
      rapid.Apply(afterSmall),
      (if small.Queried() then 1 else 0) + (if rapid.Queried() then 1 else 0))
  }

  /** Position of a reason in the evaluation order. */
  function Rank(r: SuspiciousReason): nat {
    match r
    case HighVolumeTransaction => 0
    case FrequentSmallTransactions => 1
    case RapidTransfers => 2
  }

  /** Strictly increasing in evaluation order: ordered and free of repeats. */
  predicate InEvaluationOrder(rs: seq<SuspiciousReason>) {
    forall i, j :: 0 <= i < j < |rs| ==> Rank(rs[i]) < Rank(rs[j])
  }

  /** The high-volume reason is reported exactly for amounts strictly above 10000. */
  lemma HighVolumeIff(tx: Payload, entries: map<string, int>, records: seq<Transaction>, now: int)
    ensures HighVolumeTransaction in Evaluate(tx, entries, records, now).reasons
            <==> tx.amount > FlagAmountThreshold
  {
  }

  /** The reasons are a subsequence of the evaluation order, each at most once. */
  lemma ReasonsInEvaluationOrder(tx: Payload, entries: map<string, int>, records: seq<Transaction>, now: int)
    ensures InEvaluationOrder(Evaluate(tx, entries, records, now).reasons)
    ensures |Evaluate(tx, entries, records, now).reasons| <= 3
  {
  }

  /**
   * Frequent-small fires exactly when its cache entry is live (whatever the
   * amount) or the amount is at most 100 and at least 4 of the user's
   * stored transactions of at most 100 fall in the last 60 minutes.
   */
  lemma FrequentSmallIff(tx: Payload, entries: map<string, int>, records: seq<Transaction>, now: int)
    ensures FrequentSmallTransactions in Evaluate(tx, entries, records, now).reasons
            <==> || Visible(entries, SmallTransactionsKey(tx.userId), now)
                 || (tx.amount <= FrequentSmallTransactionsLimit
                     && SmallCount(tx, records, now) >= FrequentSmallTransactionsPerHourMax)
  {
  }

  /**
   * Rapid-transfers fires exactly when its cache entry is live (whatever the
   * type) or the transaction is a transfer and at least 2 of the user's
   * stored transfers fall in the last 5 minutes. The frequent-small write
   * that precedes it never touches its key.
   */
  lemma RapidTransfersIff(tx: Payload, entries: map<string, int>, records: seq<Transaction>, now: int)
    ensures RapidTransfers in Evaluate(tx, entries, records, now).reasons
            <==> || Visible(entries, RapidTransfersKey(tx.userId), now)
                 || (tx.kind == Transfer && TransferCount(tx, records, now) >= RapidTransferMax)
  {
  }

  /**
   * A history query is issued by a rule only on a cache miss whose guard
   * holds: the amount is at most 100 for frequent-small, the type is a
   * transfer for rapid-transfers.
   */
  lemma QueriesIssued(tx: Payload, entries: map<string, int>, records: seq<Transaction>, now: int)
    ensures Evaluate(tx, entries, records, now).queries
            == (if !Visible(entries, SmallTransactionsKey(tx.userId), now)
                   && tx.amount <= FrequentSmallTransactionsLimit then 1 else 0)
             + (if !Visible(entries, RapidTransfersKey(tx.userId), now)
                   && tx.kind == Transfer then 1 else 0)
  {
  }

  /**
   * The only cache writes are the user's two rule keys, each written only
   * after a query that reached its limit, with expiry `now + 3600` and
   * `now + 300`; every other entry is left as it was.
   */
  lemma CacheWrites(tx: Payload, entries: map<string, int>, records: seq<Transaction>, now: int)
    ensures var small := SmallTransactionsKey(tx.userId);
            var rapid := RapidTransfersKey(tx.userId);
            var writeSmall := !Visible(entries, small, now) && tx.amount <= FrequentSmallTransactionsLimit
                              && SmallCount(tx, records, now) >= FrequentSmallTransactionsPerHourMax;
            var writeRapid := !Visible(entries, rapid, now) && tx.kind == Transfer
                              && TransferCount(tx, records, now) >= RapidTransferMax;
            var after := Evaluate(tx, entries, records, now).entries;
            && after.Keys == entries.Keys + (if writeSmall then {small} else {})
                                          + (if writeRapid then {rapid} else {})
            && (forall k :: k in after ==>
                  after[k] == if k == small && writeSmall then now + FrequentSmallTransactionsTtl
                              else if k == rapid && writeRapid then now + RapidTransfersTtl
                              else entries[k])
  {
  }

  /**
   * A frequent-small verdict reached by query stays live for exactly the hour
   * after the evaluation instant, whenever the qualifying transactions
   * happened; the rapid-transfers verdict likewise for five minutes.
   */
  lemma MemoisedVerdictLifetime(tx: Payload, entries: map<string, int>, records: seq<Transaction>,
                                now: int, later: int)
    ensures var after := Evaluate(tx, entries, records, now).entries;
            && (!Visible(entries, SmallTransactionsKey(tx.userId), now)
                && tx.amount <= FrequentSmallTransactionsLimit
                && SmallCount(tx, records, now) >= FrequentSmallTransactionsPerHourMax
                ==> (Visible(after, SmallTransactionsKey(tx.userId), later)
                     <==> later < now + FrequentSmallTransactionsTtl))
            && (!Visible(entries, RapidTransfersKey(tx.userId), now)
                && tx.kind == Transfer
                && TransferCount(tx, records, now) >= RapidTransferMax
                ==> (Visible(after, RapidTransfersKey(tx.userId), later)
                     <==> later < now + RapidTransfersTtl))
  {
  }

  /**
   * Re-running the engine on the same transaction against the cache the
   * first run left behind reports the same reasons and writes nothing new:
   * every verdict it memoised is live again as a cache hit.
   */
  lemma ReevaluationStable(tx: Payload, entries: map<string, int>, records: seq<Transaction>, now: int)
    ensures var first := Evaluate(tx, entries, records, now);
            var second := Evaluate(tx, first.entries, records, now);
            second.reasons == first.reasons && second.entries == first.entries
  {
  }

  /**
   * One engine run for `transaction`, reading the suspicion cache and the
   * transaction history held by `repo` at a common evaluation instant.
   */
  class ProcessRules {
    const transaction: Payload
    const repo: TransactionRepository
    const cache: SuspicionCache

    constructor (transaction: Payload, repo: TransactionRepository, cache: SuspicionCache)
      ensures this.transaction == transaction && this.repo == repo && this.cache == cache
    {
      this.transaction := transaction;
      this.repo := repo;
      this.cache := cache;
    }

    /** `__call__`: all three rules in order, collecting the reasons that fired. */
    method Call(now: int) returns (reasons: seq<SuspiciousReason>)
      modifies cache, repo`recentQueries
      ensures repo.records == old(repo.records)
      ensures var e := Evaluate(transaction, old(cache.entries), repo.records, now);
              && reasons == e.reasons
              && cache.entries == e.entries
              && repo.recentQueries == old(repo.recentQueries) + e.queries
    {
      reasons := [];
      var highVolume := IsHighVolume(transaction);
      if highVolume.Some? {
        reasons := reasons + [highVolume.value];
      }

      var frequentSmall := HasFrequentSmallTransactions(now);
      if frequentSmall.Some? {
        reasons := reasons + [frequentSmall.value];
      }

      var rapidTransfers := HasRapidTransfers(now);
      if rapidTransfers.Some? {
        reasons := reasons + [rapidTransfers.value];
      }
    }

    /** `has_frequent_small_transactions`, with its cache read, optional query and optional write. */
    method HasFrequentSmallTransactions(now: int) returns (r: Option<SuspiciousReason>)
      modifies cache, repo`recentQueries
      ensures repo.records == old(repo.records)
      ensures var o := FrequentSmallOutcome(transaction, old(cache.entries), repo.records, now);
              && r == (if o.Fired() then Some(FrequentSmallTransactions) else None)
              && cache.entries == o.Apply(old(cache.entries))
              && repo.recentQueries == old(repo.recentQueries) + (if o.Queried() then 1 else 0)
    {
      var key := SmallTransactionsKey(transaction.userId);
      var cached := cache.Get(key, now);
      if cached {
        return Some(FrequentSmallTransactions);
      }
      if transaction.amount <= FrequentSmallTransactionsLimit {
        var transactions := repo.GetRecentTransactionsForUser(
          transaction.userId, FrequentSmallTransactionsMinutes,
          None, Some(FrequentSmallTransactionsLimit), now);
        if |transactions| >= FrequentSmallTransactionsPerHourMax {
          cache.Set(key, FrequentSmallTransactionsTtl, now);
          return Some(FrequentSmallTransactions);
        }
      }
      return None;
    }

    /** `has_rapid_transfers`, with its cache read, optional query and optional write. */
    method HasRapidTransfers(now: int) returns (r: Option<SuspiciousReason>)
      modifies cache, repo`recentQueries
      ensures repo.records == old(repo.records)
      ensures var o := RapidTransfersOutcome(transaction, old(cache.entries), repo.records, now);
              && r == (if o.Fired() then Some(RapidTransfers) else None)
              && cache.entries == o.Apply(old(cache.entries))
              && repo.recentQueries == old(repo.recentQueries) + (if o.Queried() then 1 else 0)
    {
      var key := RapidTransfersKey(transaction.userId);
      var cached := cache.Get(key, now);
      if cached {
        return Some(RapidTransfers);
      }
      if transaction.kind == Transfer {
        var transactions := repo.GetRecentTransactionsForUser(
          transaction.userId, RapidTransfersMinutes, Some([Transfer]), None, now);
        if |transactions| >= RapidTransferMax {
          cache.Set(key, RapidTransfersTtl, now);
          return Some(RapidTransfers);
        }
      }
      return None;
    }
  }
}

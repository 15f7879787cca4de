/**
 * The service's unit-test scenarios, restated over the model: each method
 * builds an empty store and cache, ingests the payloads the scenario submits
 * at evaluation instant `now`, and states the verdicts the service promises.
 */
module IngestScenarios {
  import opened TransactionModel
  import opened TransactionRepository
  import opened SuspicionCache
  import opened ProcessRules
  import opened NewTransaction

  const User := "user1234"

  /** A first deposit of 500 is stored as submitted and is not suspicious. */
  method FirstDepositScenario(now: int) returns (t: Transaction)
    ensures t.userId == User && t.amount == 500.0 && t.currency == "USD" && t.kind == Deposit
    ensures !t.isSuspicious && t.suspiciousReasons == []
  {
    var repo := new TransactionRepository();
    var cache := new SuspicionCache();
    var ingest := new NewTransaction(Payload(User, 500.0, "USD", now, Deposit), repo, cache);
    t := ingest.Call(now);
  }

  /** 10001 is flagged for high volume alone; exactly 10000 is not flagged. */
  method HighVolumeBoundaryScenario(now: int) returns (above: Transaction, at: Transaction)
    ensures above.isSuspicious && above.suspiciousReasons == [HighVolumeTransaction]
    ensures !at.isSuspicious && at.suspiciousReasons == []
  {
    var repo := new TransactionRepository();
    var cache := new SuspicionCache();
    var ingest := new NewTransaction(Payload(User, 10001.0, "USD", now, Deposit), repo, cache);
    above := ingest.Call(now);

    var repo2 := new TransactionRepository();
    var cache2 := new SuspicionCache();
    var ingest2 := new NewTransaction(Payload(User, 10000.0, "USD", now, Deposit), repo2, cache2);
    at := ingest2.Call(now);
  }

  /** The history query of the frequent-small rule for the scenario's user. */
  function SmallQuery(now: int): Query {
    RecentQuery(User, FrequentSmallTransactionsMinutes, None, Some(FrequentSmallTransactionsLimit), now)
  }

  /** The history query of the rapid-transfers rule for the scenario's user. */
  function TransferQuery(now: int): Query {
    RecentQuery(User, RapidTransfersMinutes, Some([Transfer]), None, now)
  }

  /** With an empty cache and every stored record small and recent, a small withdrawal is judged by the record count. */
  lemma SmallWithdrawalEvaluation(payload: Payload, records: seq<Transaction>, now: int)
    requires payload.userId == User && payload.kind == Withdrawal
    requires payload.amount <= FrequentSmallTransactionsLimit
    requires forall i :: 0 <= i < |records| ==> Matches(records[i], SmallQuery(now))
    ensures Evaluate(payload, map[], records, now)
            == if |records| >= FrequentSmallTransactionsPerHourMax
               then Evaluation([FrequentSmallTransactions],
                               map[SmallTransactionsKey(User) := now + FrequentSmallTransactionsTtl], 1)
               else Evaluation([], map[], 1)
  {
    SelectAllMatching(records, SmallQuery(now));
  }

  /** With an empty cache and every stored record a recent transfer, a transfer of 10000 is judged by the record count. */
  lemma TransferEvaluation(payload: Payload, records: seq<Transaction>, now: int)
    requires payload.userId == User && payload.kind == Transfer
    requires FrequentSmallTransactionsLimit < payload.amount <= FlagAmountThreshold
    requires forall i :: 0 <= i < |records| ==> Matches(records[i], TransferQuery(now))
    ensures Evaluate(payload, map[], records, now)
            == if |records| >= RapidTransferMax
               then Evaluation([RapidTransfers], map[RapidTransfersKey(User) := now + RapidTransfersTtl], 1)
               else Evaluation([], map[], 1)
  {
    SelectAllMatching(records, TransferQuery(now));
  }

  /**
   * Submits a withdrawal of 50 dated `timestamp`, inside the hour before
   * `now`, to a store whose records all count as small and recent: it is
   * flagged for frequent small transactions alone exactly when at least four such
   * records are already stored.
   */
  method SubmitSmallWithdrawal(repo: TransactionRepository, cache: SuspicionCache,
                               timestamp: int, now: int) returns (t: Transaction)
    requires repo.Valid() && cache.entries == map[]
    requires now - 3600 <= timestamp
    requires forall i :: 0 <= i < |repo.records| ==> Matches(repo.records[i], SmallQuery(now))
    modifies repo, cache
    ensures repo.Valid() && repo.records == old(repo.records) + [t]
    ensures forall i :: 0 <= i < |repo.records| ==> Matches(repo.records[i], SmallQuery(now))
    ensures t.isSuspicious == (|old(repo.records)| >= FrequentSmallTransactionsPerHourMax)
    ensures t.suspiciousReasons
            == if |old(repo.records)| >= FrequentSmallTransactionsPerHourMax
               then [FrequentSmallTransactions] else []
    ensures |old(repo.records)| < FrequentSmallTransactionsPerHourMax ==> cache.entries == map[]
  {
    var payload := Payload(User, 50.0, "USD", timestamp, Withdrawal);
    SmallWithdrawalEvaluation(payload, repo.records, now);
    var ingest := new NewTransaction(payload, repo, cache);
    t := ingest.Call(now);
    assert Matches(t, SmallQuery(now));
  }

  /**
   * Submits a transfer of 10000 dated `timestamp`, inside the five minutes
   * before `now`, to a store whose records all count as recent transfers: it
   * is flagged for rapid transfers alone exactly when at least two are already stored.
   */
  method SubmitTransfer(repo: TransactionRepository, cache: SuspicionCache,
                        timestamp: int, now: int) returns (t: Transaction)
    requires repo.Valid() && cache.entries == map[]
    requires now - 300 <= timestamp
    requires forall i :: 0 <= i < |repo.records| ==> Matches(repo.records[i], TransferQuery(now))
    modifies repo, cache
    ensures repo.Valid() && repo.records == old(repo.records) + [t]
    ensures forall i :: 0 <= i < |repo.records| ==> Matches(repo.records[i], TransferQuery(now))
    ensures t.isSuspicious == (|old(repo.records)| >= RapidTransferMax)
    ensures t.suspiciousReasons
            == if |old(repo.records)| >= RapidTransferMax then [RapidTransfers] else []
    ensures |old(repo.records)| < RapidTransferMax ==> cache.entries == map[]
  {
    var payload := Payload(User, 10000.0, "USD", timestamp, Transfer);
    TransferEvaluation(payload, repo.records, now);
    var ingest := new NewTransaction(payload, repo, cache);
    t := ingest.Call(now);
    assert Matches(t, TransferQuery(now));
  }

  /**
   * Three transfers of 10000, 20 seconds apart: the first two pass, the third
   * is flagged for rapid transfers only (10000 is not above the high-volume
   * threshold).
   */
  method RapidTransfersScenario(now: int) returns (flags: seq<bool>, third: seq<SuspiciousReason>)
    ensures flags == [false, false, true]
    ensures third == [RapidTransfers]
  {
    var repo := new TransactionRepository();
    var cache := new SuspicionCache();
    var t1 := SubmitTransfer(repo, cache, now - 40, now);
    var t2 := SubmitTransfer(repo, cache, now - 20, now);
    var t3 := SubmitTransfer(repo, cache, now, now);
    flags := [t1.isSuspicious, t2.isSuspicious, t3.isSuspicious];
    third := t3.suspiciousReasons;
  }

  /**
   * Five withdrawals of 50, ten minutes apart: the first four pass, the fifth
   * is flagged for frequent small transactions only.
   */
  method FrequentSmallScenario(now: int) returns (flags: seq<bool>, fifth: seq<SuspiciousReason>)
    ensures flags == [false, false, false, false, true]
    ensures fifth == [FrequentSmallTransactions]
  {
    var repo := new TransactionRepository();
    var cache := new SuspicionCache();
    var t1 := SubmitSmallWithdrawal(repo, cache, now - 2400, now);
    var t2 := SubmitSmallWithdrawal(repo, cache, now - 1800, now);
    var t3 := SubmitSmallWithdrawal(repo, cache, now - 1200, now);
    var t4 := SubmitSmallWithdrawal(repo, cache, now - 600, now);
    var t5 := SubmitSmallWithdrawal(repo, cache, now, now);
    flags := [t1.isSuspicious, t2.isSuspicious, t3.isSuspicious, t4.isSuspicious, t5.isSuspicious];
    fifth := t5.suspiciousReasons;
  }

  /**
   * With a live frequent-small entry and no rapid-transfers entry, a small
   * withdrawal is flagged for frequent small transactions and `smallQueries`,
   * the number of history queries that run issued, is zero;
   * with only the rapid-transfers entry live, the same withdrawal is flagged
   * for rapid transfers although it is not a transfer.
   */
  method CachedVerdictScenario(now: int) returns (small: Transaction, rapid: Transaction, ghost smallQueries: nat)
    ensures small.suspiciousReasons == [FrequentSmallTransactions]
    ensures smallQueries == 0
    ensures rapid.suspiciousReasons == [RapidTransfers]
  {
    var payload := Payload(User, 50.0, "USD", now, Withdrawal);

    var repo := new TransactionRepository();
    var cache := new SuspicionCache();
    cache.Set(SmallTransactionsKey(User), FrequentSmallTransactionsTtl, now - 1);
    KeysDistinct(User, User);
    var ingest := new NewTransaction(payload, repo, cache);
    small := ingest.Call(now);
    smallQueries := repo.recentQueries;

    var repo2 := new TransactionRepository();
    var cache2 := new SuspicionCache();
    cache2.Set(RapidTransfersKey(User), RapidTransfersTtl, now - 1);
    var ingest2 := new NewTransaction(payload, repo2, cache2);
    rapid := ingest2.Call(now);
  }
}

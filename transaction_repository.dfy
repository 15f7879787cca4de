/**
 * The transaction store and the two queries the service runs against it.
 *
 * A store query is a conjunction of field conditions, as in the document
 * store's `find`: the user, optionally a lower bound on the timestamp, a set
 * of accepted types, an inclusive maximum amount and a suspicious flag.
 * `Select` is its meaning: the matching records, in stored order.
 */
module TransactionRepository {
  import opened TransactionModel

  datatype Query = Query(
    userId: string,
    since: Option<int>,
    kinds: Option<seq<TransactionType>>,
    maxAmount: Option<real>,
    suspicious: Option<bool>)

  /** Does record `t` satisfy every condition of `q`? */
  predicate Matches(t: Transaction, q: Query) {
    && t.userId == q.userId
    && (q.since.Some? ==> t.timestamp >= q.since.value)
    && (q.kinds.Some? ==> t.kind in q.kinds.value)
    && (q.maxAmount.Some? ==> t.amount <= q.maxAmount.value)
    && (q.suspicious.Some? ==> t.isSuspicious == q.suspicious.value)
  }

  /** The records of `records` that match `q`, in the order they are stored. */
  function Select(records: seq<Transaction>, q: Query): (r: seq<Transaction>)
    ensures |r| <= |records|
    ensures forall t :: t in r <==> t in records && Matches(t, q)
  {
    if records == [] then []
    else
      var rest := Select(records[..|records| - 1], q);
      var last := records[|records| - 1];
      assert records == records[..|records| - 1] + [last];
      if Matches(last, q) then rest + [last] else rest
  }

  /** Appending one record extends a selection by that record exactly when it matches. */
  lemma SelectSnoc(records: seq<Transaction>, t: Transaction, q: Query)
    ensures Select(records + [t], q) == Select(records, q) + (if Matches(t, q) then [t] else [])
  {
  }

  /** Selection distributes over concatenation, so it keeps the stored order. */
  lemma {:induction false} SelectConcat(a: seq<Transaction>, b: seq<Transaction>, q: Query)
    ensures Select(a + b, q) == Select(a, q) + Select(b, q)
  {
    if b == [] {
      assert a + b == a;
    } else {
      var init, last := b[..|b| - 1], b[|b| - 1];
      assert b == init + [last];
      assert a + b == (a + init) + [last];
      SelectConcat(a, init, q);
      SelectSnoc(a + init, last, q);
      SelectSnoc(init, last, q);
    }
  }

  /** A selection from records that all match is the whole sequence. */
  lemma {:induction false} SelectAllMatching(records: seq<Transaction>, q: Query)
    requires forall i :: 0 <= i < |records| ==> Matches(records[i], q)
    ensures Select(records, q) == records
  {
    if records != [] {
      var init := records[..|records| - 1];
      SelectAllMatching(init, q);
      SelectSnoc(init, records[|records| - 1], q);
      assert init + [records[|records| - 1]] == records;
    }
  }

  /**
   * The query `get_recent_transactions_for_user` sends: the user, timestamps
   * from `now - minutes` on (no upper bound), the type list only when one is
   * given and the maximum amount only when one is given.
   */
  function RecentQuery(userId: string, minutes: int, kinds: Option<seq<TransactionType>>,
                       maxAmount: Option<real>, now: int): (q: Query)
    ensures forall t :: Matches(t, q)
              <==> && t.userId == userId
                   && t.timestamp >= now - minutes * 60
                   && (kinds.Some? ==> t.kind in kinds.value)
                   && (maxAmount.Some? ==> t.amount <= maxAmount.value)
  {
    Query(userId, Some(now - minutes * 60), kinds, maxAmount, None)
  }

  /** The user's recent records, as the repository returns them. */
  function RecentTransactions(records: seq<Transaction>, userId: string, minutes: int,
                              kinds: Option<seq<TransactionType>>, maxAmount: Option<real>,
                              now: int): seq<Transaction>
  {
    Select(records, RecentQuery(userId, minutes, kinds, maxAmount, now))
  }

  /** Exactly the user's records from `minutes` before `now` on that pass both optional filters. */
  lemma RecentTransactionsMembers(records: seq<Transaction>, userId: string, minutes: int,
                                  kinds: Option<seq<TransactionType>>, maxAmount: Option<real>,
                                  now: int, t: Transaction)
    ensures t in RecentTransactions(records, userId, minutes, kinds, maxAmount, now)
            <==> && t in records
                 && t.userId == userId
                 && t.timestamp >= now - minutes * 60
                 && (kinds.Some? ==> t.kind in kinds.value)
                 && (maxAmount.Some? ==> t.amount <= maxAmount.value)
  {
  }

  /** A record dated after `now` still counts: the window has no upper bound. */
  lemma FutureRecordsCount(records: seq<Transaction>, t: Transaction, minutes: nat, now: int)
    requires t.timestamp > now
    ensures |RecentTransactions(records + [t], t.userId, minutes, None, None, now)|
            == |RecentTransactions(records, t.userId, minutes, None, None, now)| + 1
  {
  }

  /** The query `get_suspicious_transactions_for_user` sends. */
  function SuspiciousQuery(userId: string): (q: Query)
    ensures forall t :: Matches(t, q) <==> t.userId == userId && t.isSuspicious
  {
    Query(userId, None, None, None, Some(true))
  }

  ghost predicate SortedByTimestamp(s: seq<Transaction>) {
    forall i, j :: 0 <= i < j < |s| ==> s[i].timestamp <= s[j].timestamp
  }

  /** Puts `t` into the sorted `s` before the first record that is not earlier. */
  function InsertByTimestamp(t: Transaction, s: seq<Transaction>): (r: seq<Transaction>)
    requires SortedByTimestamp(s)
    ensures SortedByTimestamp(r)
    ensures multiset(r) == multiset(s) + multiset{t}
    ensures forall x :: x in r ==> x == t || x in s
  {
    if s == [] then [t]
    else if t.timestamp <= s[0].timestamp then [t] + s
    else
      var rest := InsertByTimestamp(t, s[1..]);
      assert s == [s[0]] + s[1..];
      assert forall k :: 0 <= k < |rest| ==> s[0].timestamp <= rest[k].timestamp by {
        forall k | 0 <= k < |rest| ensures s[0].timestamp <= rest[k].timestamp {
          assert rest[k] in rest;
        }
      }
      [s[0]] + rest
  }

  /** The records of `s` ordered by ascending timestamp. */
  function SortByTimestamp(s: seq<Transaction>): (r: seq<Transaction>)
    ensures SortedByTimestamp(r)
    ensures multiset(r) == multiset(s)
  {
    if s == [] then []
    else
      assert s == [s[0]] + s[1..];
      InsertByTimestamp(s[0], SortByTimestamp(s[1..]))
  }

  /** The first stored record with id `id`, if any (`find_one` on the id). */
  function FindById(records: seq<Transaction>, id: nat): (r: Option<Transaction>)
    ensures r.Some? ==> r.value in records && r.value.id == id
    ensures r.None? ==> forall t :: t in records ==> t.id != id
  {
    if records == [] then None
    else if records[0].id == id then Some(records[0])
    else FindById(records[1..], id)
  }

  /**
   * The transaction collection. `nextId` stands for the store's id generator;
   * `recentQueries` counts the recent-transaction queries issued, so that the
   * rule engine's contracts can say when it does and does not query history.
   */
  class TransactionRepository {
    var records: seq<Transaction>
    var nextId: nat
    ghost var recentQueries: nat

    /** Ids are distinct and all below the next one to be handed out. */
    ghost predicate Valid()
      reads this
    {
      && (forall i :: 0 <= i < |records| ==> records[i].id < nextId)
      && (forall i, j :: 0 <= i < j < |records| ==> records[i].id != records[j].id)
    }

    constructor ()
      ensures Valid() && records == [] && recentQueries == 0
    {
      records := [];
      nextId := 0;
      recentQueries := 0;
    }

    /** `get_transaction`: the record stored under `id`, if any. */
    method GetTransaction(id: nat) returns (r: Option<Transaction>)
      ensures r.Some? <==> exists t :: t in records && t.id == id
      ensures r.Some? ==> r.value in records && r.value.id == id
    {
      r := FindById(records, id);
    }

    /**
     * `insert_transaction`: stores `doc` under a fresh id and returns the
     * record as read back by that id. Earlier records are untouched.
     */
    method InsertTransaction(doc: Document) returns (t: Transaction)
      requires Valid()
      modifies this`records, this`nextId
      ensures Valid()
      ensures t.Doc() == doc
      ensures forall u :: u in old(records) ==> u.id != t.id
      ensures records == old(records) + [t]
    {
      var id := nextId;
      records := records + [Persist(doc, id)];
      nextId := nextId + 1;
      var found := FindById(records, id);
      assert found.Some? && found.value == Persist(doc, id) by {
        assert records[|records| - 1] == Persist(doc, id);
        assert forall i :: 0 <= i < |records| - 1 ==> records[i] == old(records)[i];
      }
      t := found.value;
    }

    /**
     * `get_recent_transactions_for_user`: the user's records from `minutes`
     * before `now` on, filtered by type and by maximum amount when given.
     * It only reads the collection; the query is counted.
     */
    method GetRecentTransactionsForUser(userId: string, minutes: int,
                                        kinds: Option<seq<TransactionType>>,
                                        maxAmount: Option<real>, now: int)
      returns (r: seq<Transaction>)
      modifies this`recentQueries
      ensures records == old(records) && nextId == old(nextId)
      ensures recentQueries == old(recentQueries) + 1
      ensures r == RecentTransactions(records, userId, minutes, kinds, maxAmount, now)
    {
      recentQueries := recentQueries + 1;
      r := Select(records, RecentQuery(userId, minutes, kinds, maxAmount, now));
    }

    /**
     * `get_suspicious_transactions_for_user`: exactly the user's suspicious
     * records, each as often as stored, in ascending timestamp order.
     */
    method GetSuspiciousTransactionsForUser(userId: string) returns (r: seq<Transaction>)
      ensures SortedByTimestamp(r)
      ensures multiset(r) == multiset(Select(records, SuspiciousQuery(userId)))
      ensures forall t :: t in r <==> t in records && t.userId == userId && t.isSuspicious
    {
      var found := Select(records, SuspiciousQuery(userId));
      r := SortByTimestamp(found);
      forall t ensures t in r <==> t in found {
        assert t in r <==> t in multiset(r);
        assert t in found <==> t in multiset(found);
      }
    }
  }
}

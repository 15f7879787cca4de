/**
 * The closed data model of the transaction service: the transaction types,
 * the reasons a transaction can be flagged for, the payload a client submits
 * and the record the store keeps.
 *
 * Amounts are exact reals (the service stores them as floats); timestamps and
 * evaluation instants are whole seconds on one common clock.
 */
module TransactionModel {

  datatype Option<T> = None | Some(value: T)

  /** Kind of money movement (`TransactionType`). */
  datatype TransactionType = Deposit | Withdrawal | Transfer | Other

  /** Identifier of a fraud rule that fired (`SuspiciousReasonsType`). */
  datatype SuspiciousReason =
    | HighVolumeTransaction
    | FrequentSmallTransactions
    | RapidTransfers

  /** What a client submits: a transaction that is not yet persisted. */
  datatype Payload = Payload(
    userId: string,
    amount: real,
    currency: string,
    timestamp: int,
    kind: TransactionType)

  /** The document handed to the store: the payload plus the verdict, without an id. */
  datatype Document = Document(
    userId: string,
    amount: real,
    currency: string,
    timestamp: int,
    kind: TransactionType,
    isSuspicious: bool,
    suspiciousReasons: seq<SuspiciousReason>)

  /** A persisted transaction: a document together with the id the store gave it. */
  datatype Transaction = Transaction(
    id: nat,
    userId: string,
    amount: real,
    currency: string,
    timestamp: int,
    kind: TransactionType,
    isSuspicious: bool,
    suspiciousReasons: seq<SuspiciousReason>)
  {
    /** The document this record was created from. */
    function Doc(): Document {
      Document(userId, amount, currency, timestamp, kind, isSuspicious, suspiciousReasons)
    }
  }

  /** The record the store creates for document `d` under id `id`. */
  function Persist(d: Document, id: nat): (t: Transaction)
    ensures t.id == id && t.Doc() == d
  {
    Transaction(id, d.userId, d.amount, d.currency, d.timestamp, d.kind,
                d.isSuspicious, d.suspiciousReasons)
  }
}

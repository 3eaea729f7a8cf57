/** The records of the ledger (types.ts). */
module Types {

  datatype Option<+T> = None | Some(value: T)

  /** The closed set of transaction categories. */
  datatype TransactionType = Collection | DeliveryCharge | Payment | Other

  /** The string value each enum member carries. */
  function Label(k: TransactionType): (s: string)
    ensures |s| > 0
  {
    match k
    case Collection => "Collection"
    case DeliveryCharge => "Delivery Charge"
    case Payment => "Payment"
    case Other => "Other"
  }

  /** No two categories share a label. */
  lemma LabelsDistinct(a: TransactionType, b: TransactionType)
    ensures Label(a) == Label(b) <==> a == b
  {
  }

  /** The enumeration has exactly these four members. */
  lemma FourCategories(k: TransactionType)
    ensures k == Collection || k == DeliveryCharge || k == Payment || k == Other
  {
  }

  /** An extracted transaction once its category is normalized. The source's
      field `type` is called `kind` here, since `type` is a Dafny keyword. */
  datatype Transaction = Transaction(date: string, kind: TransactionType, id: string, amount: real)

  /** A manually entered expense. */
  datatype Expense = Expense(id: string, description: string, amount: real)

  /** The dashboard's state record; `error` is `None` where the source holds `null`. */
  datatype LedgerState = LedgerState(
    transactions: seq<Transaction>,
    expenses: seq<Expense>,
    isLoading: bool,
    error: Option<string>)
}

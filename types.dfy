/** The records of the expense tracker (types.ts). */
module Types {

  datatype Option<+T> = None | Some(value: T)

  /** Whether a record is money coming in or going out. */
  datatype TransactionType = INCOME | EXPENSE

  /** The ten categories a record can be filed under. */
  datatype Category =
    | Salary | Freelance | Investment
    | Food | Transport | Rent | Shopping | Entertainment | Health
    | Others

  /** A ledger record. `kind` is the source's `type` field (a keyword in Dafny).
      `createdAt` is optional because the entry form never sets it. */
  datatype Transaction = Transaction(
    id: string,
    amount: real,
    kind: TransactionType,
    category: Category,
    date: string,
    createdAt: Option<string>,
    note: string)

  /** A record without its id: what the entry form hands to the ledger. */
  datatype Entry = Entry(
    amount: real,
    kind: TransactionType,
    category: Category,
    date: string,
    createdAt: Option<string>,
    note: string)

  /** The signed-in user. The only sign-in builds a user from a name and an
      e-mail address, so every other field is optional here. */
  datatype User = User(
    name: string,
    username: Option<string>,
    email: string,
    password: Option<string>,
    avatarUrl: Option<string>)

  /** The four figures shown on the dashboard. */
  datatype FinancialStats = FinancialStats(
    totalIncome: real,
    totalExpense: real,
    balance: real,
    expenseRatio: real)

  /** No value occurs twice in `s`. */
  predicate NoDuplicates<T(==)>(s: seq<T>)
  {
    forall i, j :: 0 <= i < j < |s| ==> s[i] != s[j]
  }
}

/** The financial model the dashboard edits and the projection reads:
    accounts, incomes with scheduled raises, expenses of three kinds, and
    transfers with scheduled increases, plus the record the projection emits
    for each month. */
module Finance {
  import opened Common
  import opened Calendar

  datatype AccountType = Checking | Savings | Investment

  /** `balance` is the account's balance now, the projection's starting point. */
  datatype Account = Account(id: string, name: string, kind: AccountType, balance: real)

  /** From the month whose key equals `date`, the income grows by `percent` percent. */
  datatype Raise = Raise(date: string, percent: real)

  datatype Income = Income(id: string, name: string, amount: real,
                           depositAccountId: string, raises: seq<Raise>)

  /** The three expense types. An amortized loan with no start month or a
      zero term is never charged. */
  datatype ExpenseKind =
    | Fixed(amount: real)
    | Percentage(percent: real)
    | Amortized(principal: real, apr: real, termYears: nat, startDate: Option<YearMonth>)

  datatype Expense = Expense(id: string, name: string, paymentAccountId: string, kind: ExpenseKind)

  /** From the month whose key equals `date`, the transfer moves `amount`. */
  datatype Increase = Increase(date: string, amount: real)

  datatype Transfer = Transfer(id: string, amount: real, fromAccountId: string,
                               toAccountId: string, increases: seq<Increase>)

  datatype FinancialModel = FinancialModel(accounts: seq<Account>, incomes: seq<Income>,
                                           expenses: seq<Expense>, transfers: seq<Transfer>)

  /** One projected month. The source's locale label for the month is
      replaced by the month itself. */
  datatype ProjectionRecord = ProjectionRecord(month: YearMonth, income: real, expenses: real,
                                               netFlow: real, balances: map<string, real>)

  function AccountIds(accounts: seq<Account>): set<string> {
    set a | a in accounts :: a.id
  }

  predicate DistinctIds(accounts: seq<Account>) {
    forall i, j :: 0 <= i < j < |accounts| ==> accounts[i].id != accounts[j].id
  }

}

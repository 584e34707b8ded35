/** The cash-flow projection engine (`generateMonthlyProjections`).

    Each month, in this order: scheduled raises and transfer increases update
    the run's working copies of the incomes and transfers; incomes are
    totalled; expenses are totalled; last month's balances are copied and
    updated by deposits, expense charges and transfer legs; a record is
    emitted and its balances carried to the next month.

    The functions below state one month's step and the whole run; the methods
    carry out the source's loops and are proved to compute those functions. */
module Projection {
  import opened Common
  import opened Calendar
  import opened Amortization
  import opened Finance
  import opened Ledger

  // ---------------------------------------------------------------------
  // Schedules: raises compound, increases replace; `.find` takes the first
  // entry whose date equals the month key.

  /** `s.find(x => dateOf(x) === key)`, as an index: the position of the
      first entry dated `key`, or None when no entry is. */
  function FirstMatch<T>(s: seq<T>, dateOf: T -> string, key: string): (r: Option<nat>)
    ensures r.Some? ==>
      r.value < |s| && dateOf(s[r.value]) == key &&
      forall k :: 0 <= k < r.value ==> dateOf(s[k]) != key
    ensures r.None? ==> forall k :: 0 <= k < |s| ==> dateOf(s[k]) != key
  {
    if s == [] then None
    else if dateOf(s[0]) == key then Some(0)
    else match FirstMatch(s[1..], dateOf, key)
      case None => None
      case Some(j) => Some(j + 1)
  }

  function RaiseDate(r: Raise): string {
    r.date
  }

  function IncreaseDate(inc: Increase): string {
    inc.date
  }

  /** The factor a raise of `percent` percent multiplies an amount by. */
  function Growth(percent: real): real {
    1.0 + percent / 100.0
  }

  function RaiseIncome(income: Income, key: string): Income {
    match FirstMatch(income.raises, RaiseDate, key)
    case Some(x) => income.(amount := income.amount * Growth(income.raises[x].percent))
    case None => income
  }

  function ApplyRaises(incomes: seq<Income>, key: string): (r: seq<Income>)
    ensures |r| == |incomes|
    ensures forall j :: 0 <= j < |r| ==> r[j] == RaiseIncome(incomes[j], key)
  {
    if incomes == [] then []
    else ApplyRaises(incomes[..|incomes| - 1], key) + [RaiseIncome(incomes[|incomes| - 1], key)]
  }

  function IncreaseTransfer(transfer: Transfer, key: string): Transfer {
    match FirstMatch(transfer.increases, IncreaseDate, key)
    case Some(x) => transfer.(amount := transfer.increases[x].amount)
    case None => transfer
  }

  function ApplyIncreases(transfers: seq<Transfer>, key: string): (r: seq<Transfer>)
    ensures |r| == |transfers|
    ensures forall j :: 0 <= j < |r| ==> r[j] == IncreaseTransfer(transfers[j], key)
  {
    if transfers == [] then []
    else ApplyIncreases(transfers[..|transfers| - 1], key) + [IncreaseTransfer(transfers[|transfers| - 1], key)]
  }

  // ---------------------------------------------------------------------
  // Totals

  function TotalIncome(incomes: seq<Income>): real {
    if incomes == [] then 0.0
    else TotalIncome(incomes[..|incomes| - 1]) + incomes[|incomes| - 1].amount
  }

  /** An amortized loan that can be charged (it has a start month and a
      term) has a finite payment (see CalculateAmortizedPayment for the
      inputs that have none). */
  predicate PaymentFinite(e: Expense) {
    match e.kind
    case Amortized(principal, apr, termYears, startDate) =>
      startDate.Some? && termYears > 0 ==> CalculateAmortizedPayment(principal, apr, termYears).Some?
    case _ => true
  }

  predicate PaymentsFinite(expenses: seq<Expense>) {
    forall e :: e in expenses ==> PaymentFinite(e)
  }

  /** What one expense costs in month `date`, given that month's total income. */
  function ExpenseAmount(e: Expense, date: YearMonth, monthlyIncome: real): real
    requires PaymentFinite(e)
  {
    match e.kind
    case Fixed(amount) => amount
    case Percentage(percent) => monthlyIncome * (percent / 100.0)
    case Amortized(principal, apr, termYears, startDate) =>
      if startDate.Some? && termYears > 0 then
        var loanMonth := LoanMonth(startDate.value, date);
        if 0 <= loanMonth < termYears * 12 then CalculateAmortizedPayment(principal, apr, termYears).value
        else 0.0
      else 0.0
  }

  function TotalExpenses(expenses: seq<Expense>, date: YearMonth, monthlyIncome: real): real
    requires PaymentsFinite(expenses)
  {
    if expenses == [] then 0.0
    else
      TotalExpenses(expenses[..|expenses| - 1], date, monthlyIncome) +
      ExpenseAmount(expenses[|expenses| - 1], date, monthlyIncome)
  }

  // ---------------------------------------------------------------------
  // Balance updates, applied in list order

  /** `currentBalances[account.id] = account.balance` for every account in turn. */
  function InitialBalances(accounts: seq<Account>): (b: Balances)
    ensures b.Keys == AccountIds(accounts)
    ensures forall i :: (0 <= i < |accounts| &&
                         forall j :: i < j < |accounts| ==> accounts[j].id != accounts[i].id) ==>
      b[accounts[i].id] == accounts[i].balance
  {
    if accounts == [] then map[]
    else
      var init := accounts[..|accounts| - 1];
      var last := accounts[|accounts| - 1];
      assert accounts == init + [last];
      InitialBalances(init)[last.id := last.balance]
  }

  function DepositIncomes(b: Balances, incomes: seq<Income>): (r: Balances)
    ensures r.Keys == b.Keys
  {
    if incomes == [] then b
    else
      var last := incomes[|incomes| - 1];
      Adjust(DepositIncomes(b, incomes[..|incomes| - 1]), last.depositAccountId, last.amount)
  }

  function ChargeExpenses(b: Balances, expenses: seq<Expense>, date: YearMonth, monthlyIncome: real): (r: Balances)
    requires PaymentsFinite(expenses)
    ensures r.Keys == b.Keys
  {
    if expenses == [] then b
    else
      var last := expenses[|expenses| - 1];
      Adjust(ChargeExpenses(b, expenses[..|expenses| - 1], date, monthlyIncome),
             last.paymentAccountId, -ExpenseAmount(last, date, monthlyIncome))
  }

  /** Both legs of one transfer, each applied only if its account is known. */
  function MoveTransfer(b: Balances, t: Transfer): (r: Balances)
    ensures r.Keys == b.Keys
  {
    Adjust(Adjust(b, t.fromAccountId, -t.amount), t.toAccountId, t.amount)
  }

  function ApplyTransfers(b: Balances, transfers: seq<Transfer>): (r: Balances)
    ensures r.Keys == b.Keys
  {
    if transfers == [] then b
    else MoveTransfer(ApplyTransfers(b, transfers[..|transfers| - 1]), transfers[|transfers| - 1])
  }

  // ---------------------------------------------------------------------
  // One month, and the whole run

  /** The balances after one month: deposits, then expense charges, then
      transfer legs, each only where the account is known. `incomes` are the
      month's incomes after its raises, `transfers` its transfers after its
      increases. */
  function MonthBalances(b: Balances, incomes: seq<Income>, transfers: seq<Transfer>,
                         expenses: seq<Expense>, date: YearMonth): (r: Balances)
    requires PaymentsFinite(expenses)
    ensures r.Keys == b.Keys
  {
    ApplyTransfers(ChargeExpenses(DepositIncomes(b, incomes), expenses, date, TotalIncome(incomes)), transfers)
  }

  /** The month keys of the first `n` months of a run anchored at `anchor`. */
  function RunKeys(anchor: YearMonth, n: nat): (keys: seq<string>)
    ensures |keys| == n
  {
    if n == 0 then [] else RunKeys(anchor, n - 1) + [MonthKey(AddMonths(anchor, n - 1))]
  }

  /** The incomes after the raises of the months keyed `keys`, in order. */
  function RaisedIncomes(incomes: seq<Income>, keys: seq<string>): seq<Income> {
    if keys == [] then incomes
    else ApplyRaises(RaisedIncomes(incomes, keys[..|keys| - 1]), keys[|keys| - 1])
  }

  /** The transfers after the increases of the months keyed `keys`, in order. */
  function IncreasedTransfers(transfers: seq<Transfer>, keys: seq<string>): seq<Transfer> {
    if keys == [] then transfers
    else ApplyIncreases(IncreasedTransfers(transfers, keys[..|keys| - 1]), keys[|keys| - 1])
  }

  /** The run's working copy of the incomes at the start of month `i`. */
  function IncomesBefore(fm: FinancialModel, anchor: YearMonth, i: nat): seq<Income> {
    RaisedIncomes(fm.incomes, RunKeys(anchor, i))
  }

  /** The run's working copy of the transfers at the start of month `i`. */
  function TransfersBefore(fm: FinancialModel, anchor: YearMonth, i: nat): seq<Transfer> {
    IncreasedTransfers(fm.transfers, RunKeys(anchor, i))
  }

  /** Month `i`'s schedules apply on top of the previous months'. */
  lemma SchedulesStep(fm: FinancialModel, anchor: YearMonth, i: nat)
    ensures IncomesBefore(fm, anchor, i + 1) ==
      ApplyRaises(IncomesBefore(fm, anchor, i), MonthKey(AddMonths(anchor, i)))
    ensures TransfersBefore(fm, anchor, i + 1) ==
      ApplyIncreases(TransfersBefore(fm, anchor, i), MonthKey(AddMonths(anchor, i)))
  {
    assert RunKeys(anchor, i + 1)[..i] == RunKeys(anchor, i);
  }

  /** The balances at the start of month `i`. */
  function BalancesBefore(fm: FinancialModel, anchor: YearMonth, i: nat): Balances
    requires PaymentsFinite(fm.expenses)
  {
    if i == 0 then InitialBalances(fm.accounts)
    else MonthBalances(BalancesBefore(fm, anchor, i - 1), IncomesBefore(fm, anchor, i),
                       TransfersBefore(fm, anchor, i), fm.expenses, AddMonths(anchor, i - 1))
  }

  /** Record `i` of every run anchored at `anchor` that is at least `i + 1`
      months long. */
  function RecordAt(fm: FinancialModel, anchor: YearMonth, i: nat): ProjectionRecord
    requires PaymentsFinite(fm.expenses)
  {
    var date := AddMonths(anchor, i);
    var monthlyIncome := TotalIncome(IncomesBefore(fm, anchor, i + 1));
    var monthlyExpenses := TotalExpenses(fm.expenses, date, monthlyIncome);
    ProjectionRecord(date, monthlyIncome, monthlyExpenses, monthlyIncome - monthlyExpenses,
                     BalancesBefore(fm, anchor, i + 1))
  }

  /** The first `n` records of a run. */
  function Projected(fm: FinancialModel, anchor: YearMonth, n: nat): seq<ProjectionRecord>
    requires PaymentsFinite(fm.expenses)
  {
    seq(n, i requires 0 <= i < n => RecordAt(fm, anchor, i))
  }

  lemma ProjectedStep(fm: FinancialModel, anchor: YearMonth, i: nat)
    requires PaymentsFinite(fm.expenses)
    ensures Projected(fm, anchor, i + 1) == Projected(fm, anchor, i) + [RecordAt(fm, anchor, i)]
  {
    var longer := Projected(fm, anchor, i + 1);
    var shorter := Projected(fm, anchor, i);
    assert forall k :: 0 <= k < i ==> longer[k] == shorter[k];
  }

  // ---------------------------------------------------------------------
  // The source's loops

  method InitBalances(accounts: seq<Account>) returns (balances: Balances)
    ensures balances == InitialBalances(accounts)
  {
    balances := map[];
    var j := 0;
    while j < |accounts|
      invariant 0 <= j <= |accounts|
      invariant balances == InitialBalances(accounts[..j])
    {
      assert accounts[..j + 1][..j] == accounts[..j];
      balances := balances[accounts[j].id := accounts[j].balance];
      j := j + 1;
    }
    assert accounts[..j] == accounts;
  }

  /** `income.amount *= (1 + raise.percent / 100)` for each income whose raises
      include one dated `key`. */
  method RaiseIncomes(incomes: seq<Income>, key: string) returns (effective: seq<Income>)
    ensures effective == ApplyRaises(incomes, key)
  {
    effective := incomes;
    var j := 0;
    while j < |effective|
      invariant 0 <= j <= |effective| == |incomes|
      invariant forall k :: 0 <= k < j ==> effective[k] == RaiseIncome(incomes[k], key)
      invariant forall k :: j <= k < |effective| ==> effective[k] == incomes[k]
    {
      var income := effective[j];
      var raiseForThisMonth := FirstMatch(income.raises, RaiseDate, key);
      if raiseForThisMonth.Some? {
        income := income.(amount := income.amount * Growth(income.raises[raiseForThisMonth.value].percent));
      }
      effective := effective[j := income];
      j := j + 1;
    }
  }

  /** `transfer.amount = increase.amount` for each transfer whose increases
      include one dated `key`. */
  method IncreaseTransfers(transfers: seq<Transfer>, key: string) returns (effective: seq<Transfer>)
    ensures effective == ApplyIncreases(transfers, key)
  {
    effective := transfers;
    var j := 0;
    while j < |effective|
      invariant 0 <= j <= |effective| == |transfers|
      invariant forall k :: 0 <= k < j ==> effective[k] == IncreaseTransfer(transfers[k], key)
      invariant forall k :: j <= k < |effective| ==> effective[k] == transfers[k]
    {
      var transfer := effective[j];
      var increaseForThisMonth := FirstMatch(transfer.increases, IncreaseDate, key);
      if increaseForThisMonth.Some? {
        transfer := transfer.(amount := transfer.increases[increaseForThisMonth.value].amount);
      }
      effective := effective[j := transfer];
      j := j + 1;
    }
  }

  method SumIncomes(incomes: seq<Income>) returns (total: real)
    ensures total == TotalIncome(incomes)
  {
    total := 0.0;
    var j := 0;
    while j < |incomes|
      invariant 0 <= j <= |incomes|
      invariant total == TotalIncome(incomes[..j])
    {
      assert incomes[..j + 1][..j] == incomes[..j];
      total := total + incomes[j].amount;
      j := j + 1;
    }
    assert incomes[..j] == incomes;
  }

  method SumExpenses(expenses: seq<Expense>, date: YearMonth, monthlyIncome: real) returns (total: real)
    requires PaymentsFinite(expenses)
    ensures total == TotalExpenses(expenses, date, monthlyIncome)
  {
    total := 0.0;
    var j := 0;
    while j < |expenses|
      invariant 0 <= j <= |expenses|
      invariant total == TotalExpenses(expenses[..j], date, monthlyIncome)
    {
      assert expenses[..j + 1][..j] == expenses[..j];
      total := total + ExpenseAmount(expenses[j], date, monthlyIncome);
      j := j + 1;
    }
    assert expenses[..j] == expenses;
  }

  method DepositAll(current: Balances, incomes: seq<Income>) returns (next: Balances)
    ensures next == DepositIncomes(current, incomes)
  {
    next := current;
    var j := 0;
    while j < |incomes|
      invariant 0 <= j <= |incomes|
      invariant next == DepositIncomes(current, incomes[..j])
    {
      assert incomes[..j + 1][..j] == incomes[..j];
      var id := incomes[j].depositAccountId;
      if id in next {
        next := next[id := next[id] + incomes[j].amount];
      }
      j := j + 1;
    }
    assert incomes[..j] == incomes;
  }

  method ChargeAll(current: Balances, expenses: seq<Expense>, date: YearMonth, monthlyIncome: real)
    returns (next: Balances)
    requires PaymentsFinite(expenses)
    ensures next == ChargeExpenses(current, expenses, date, monthlyIncome)
  {
    next := current;
    var j := 0;
    while j < |expenses|
      invariant 0 <= j <= |expenses|
      invariant next == ChargeExpenses(current, expenses[..j], date, monthlyIncome)
    {
      assert expenses[..j + 1][..j] == expenses[..j];
      var id := expenses[j].paymentAccountId;
      if id in next {
        var expenseAmount := ExpenseAmount(expenses[j], date, monthlyIncome);
        next := next[id := next[id] - expenseAmount];
      }
      j := j + 1;
    }
    assert expenses[..j] == expenses;
  }

  method TransferAll(current: Balances, transfers: seq<Transfer>) returns (next: Balances)
    ensures next == ApplyTransfers(current, transfers)
  {
    next := current;
    var j := 0;
    while j < |transfers|
      invariant 0 <= j <= |transfers|
      invariant next == ApplyTransfers(current, transfers[..j])
    {
      assert transfers[..j + 1][..j] == transfers[..j];
      var t := transfers[j];
      if t.fromAccountId in next {
        next := next[t.fromAccountId := next[t.fromAccountId] - t.amount];
      }
      if t.toAccountId in next {
        next := next[t.toAccountId := next[t.toAccountId] + t.amount];
      }
      j := j + 1;
    }
    assert transfers[..j] == transfers;
  }

  /** One pass of the monthly loop's body, for month `i` of a run anchored at
      `anchor`: updates the working copies, totals income and expenses,
      updates the balances and builds the month's record. */
  method ProjectMonth(fm: FinancialModel, anchor: YearMonth, i: nat, effectiveIncomes: seq<Income>,
                      effectiveTransfers: seq<Transfer>, currentBalances: Balances)
    returns (record: ProjectionRecord, incomes: seq<Income>, transfers: seq<Transfer>)
    requires PaymentsFinite(fm.expenses)
    requires effectiveIncomes == IncomesBefore(fm, anchor, i)
    requires effectiveTransfers == TransfersBefore(fm, anchor, i)
    requires currentBalances == BalancesBefore(fm, anchor, i)
    ensures record == RecordAt(fm, anchor, i)
    ensures incomes == IncomesBefore(fm, anchor, i + 1)
    ensures transfers == TransfersBefore(fm, anchor, i + 1)
    ensures record.balances == BalancesBefore(fm, anchor, i + 1)
  {
    var date := AddMonths(anchor, i);
    var monthStr := MonthKey(date);
    incomes := RaiseIncomes(effectiveIncomes, monthStr);
    transfers := IncreaseTransfers(effectiveTransfers, monthStr);
    var monthlyIncome := SumIncomes(incomes);
    var monthlyExpenses := SumExpenses(fm.expenses, date, monthlyIncome);
    var nextBalances := DepositAll(currentBalances, incomes);
    nextBalances := ChargeAll(nextBalances, fm.expenses, date, monthlyIncome);
    nextBalances := TransferAll(nextBalances, transfers);
    record := ProjectionRecord(date, monthlyIncome, monthlyExpenses,
                               monthlyIncome - monthlyExpenses, nextBalances);
    SchedulesStep(fm, anchor, i);
  }

  /** Projects `monthsToProject` months from `anchor` (the month the source
      reads from the clock). A run of any length agrees with every longer run
      on the months they share, since record `i` is RecordAt(fm, anchor, i). */
  method GenerateMonthlyProjections(fm: FinancialModel, anchor: YearMonth, monthsToProject: int)
    returns (projections: seq<ProjectionRecord>)
    requires PaymentsFinite(fm.expenses)
    ensures |projections| == if monthsToProject > 0 then monthsToProject else 0
    ensures projections == Projected(fm, anchor, |projections|)
  {
    var n: nat := if monthsToProject > 0 then monthsToProject else 0;
    projections := [];
    var effectiveIncomes := fm.incomes;
    var effectiveTransfers := fm.transfers;
    var currentBalances := InitBalances(fm.accounts);
    var i := 0;
    while i < n
      invariant 0 <= i <= n
      invariant projections == Projected(fm, anchor, i)
      invariant effectiveIncomes == IncomesBefore(fm, anchor, i)
      invariant effectiveTransfers == TransfersBefore(fm, anchor, i)
      invariant currentBalances == BalancesBefore(fm, anchor, i)
    {
      var record;
      record, effectiveIncomes, effectiveTransfers :=
        ProjectMonth(fm, anchor, i, effectiveIncomes, effectiveTransfers, currentBalances);
      ProjectedStep(fm, anchor, i);
      projections := projections + [record];
      currentBalances := record.balances;
      i := i + 1;
    }
  }

}

/** What the projection promises, stated against the run's functions:
    balance keys never change, balances are conserved up to deposits and
    charges to known accounts, raises compound, increases replace, loans are
    charged only inside their window, and a percentage expense follows the
    month's income after that month's raises. */
module ProjectionProperties {
  import opened Common
  import opened Calendar
  import opened Amortization
  import opened Finance
  import opened Ledger
  import opened Projection

  // ---------------------------------------------------------------------
  // Shape of the run

  /** The balances month `i` starts from: the accounts' own balances for the
      first month, the previous record's balances afterwards. */
  function Opening(fm: FinancialModel, anchor: YearMonth, i: nat): Balances
    requires PaymentsFinite(fm.expenses)
  {
    if i == 0 then InitialBalances(fm.accounts) else RecordAt(fm, anchor, i - 1).balances
  }

  lemma {:induction false} OpeningIsCarried(fm: FinancialModel, anchor: YearMonth, i: nat)
    requires PaymentsFinite(fm.expenses)
    ensures BalancesBefore(fm, anchor, i) == Opening(fm, anchor, i)
  {
  }

  /** Record `i` is for the month `i` months after the anchor, its expenses
      are charged against its own income (the income after that month's
      raises), and its net flow is its income less its expenses. */
  lemma RecordShape(fm: FinancialModel, anchor: YearMonth, i: nat)
    requires PaymentsFinite(fm.expenses)
    ensures MonthIndex(RecordAt(fm, anchor, i).month) == MonthIndex(anchor) + i
    ensures RecordAt(fm, anchor, i).netFlow == RecordAt(fm, anchor, i).income - RecordAt(fm, anchor, i).expenses
    ensures RecordAt(fm, anchor, i).expenses ==
      TotalExpenses(fm.expenses, RecordAt(fm, anchor, i).month, RecordAt(fm, anchor, i).income)
  {
  }

  /** Every record's balances have exactly one entry per account id. */
  lemma {:induction false} BalanceKeysStable(fm: FinancialModel, anchor: YearMonth, i: nat)
    requires PaymentsFinite(fm.expenses)
    ensures BalancesBefore(fm, anchor, i).Keys == AccountIds(fm.accounts)
    ensures RecordAt(fm, anchor, i).balances.Keys == AccountIds(fm.accounts)
  {
    if i > 0 {
      BalanceKeysStable(fm, anchor, i - 1);
    }
  }

  // ---------------------------------------------------------------------
  // Raises compound

  /** Distinct months of a run have distinct keys, so a raise or increase is
      matched in at most one month of the run. */
  lemma {:induction false} RunKeysDistinct(anchor: YearMonth, n: nat, i: nat, j: nat)
    requires i < n && j < n && i != j
    ensures RunKeys(anchor, n)[i] != RunKeys(anchor, n)[j]
  {
    RunKeyAt(anchor, n, i);
    RunKeyAt(anchor, n, j);
    MonthKeysDistinct(anchor, i, j);
  }

  lemma {:induction false} RunKeyAt(anchor: YearMonth, n: nat, i: nat)
    requires i < n
    ensures RunKeys(anchor, n)[i] == MonthKey(AddMonths(anchor, i))
  {
    if i < n - 1 {
      RunKeyAt(anchor, n - 1, i);
    }
  }

  /** The percentage of the first raise dated `key` (0 if there is none). */
  function PercentIn(raises: seq<Raise>, key: string): real {
    match FirstMatch(raises, RaiseDate, key)
    case Some(x) => raises[x].percent
    case None => 0.0
  }

  /** `amount` grown month by month by the first raise dated each of `keys`:
      a(1 + p1/100)(1 + p2/100)..., each factor applied to the amount already
      grown. */
  function Compounded(amount: real, raises: seq<Raise>, keys: seq<string>): real {
    if keys == [] then amount
    else
      var previous := Compounded(amount, raises, keys[..|keys| - 1]);
      match FirstMatch(raises, RaiseDate, keys[|keys| - 1])
      case Some(x) => previous * Growth(raises[x].percent)
      case None => previous
  }

  /** One income taken through the raises of the months keyed `keys`. */
  function RaisedIncome(income: Income, keys: seq<string>): Income {
    if keys == [] then income
    else RaiseIncome(RaisedIncome(income, keys[..|keys| - 1]), keys[|keys| - 1])
  }

  /** Each working income evolves on its own: the j-th working income is the
      j-th source income taken through the same months. */
  lemma {:induction false} RaisedPointwise(incomes: seq<Income>, keys: seq<string>, j: nat)
    requires j < |incomes|
    ensures |RaisedIncomes(incomes, keys)| == |incomes|
    ensures RaisedIncomes(incomes, keys)[j] == RaisedIncome(incomes[j], keys)
  {
    if keys != [] {
      RaisedPointwise(incomes, keys[..|keys| - 1], j);
    }
  }

  /** Raises change an income's amount and nothing else. */
  lemma {:induction false} RaisedKeepsFields(income: Income, keys: seq<string>)
    ensures RaisedIncome(income, keys).id == income.id
    ensures RaisedIncome(income, keys).name == income.name
    ensures RaisedIncome(income, keys).depositAccountId == income.depositAccountId
    ensures RaisedIncome(income, keys).raises == income.raises
  {
    if keys != [] {
      RaisedKeepsFields(income, keys[..|keys| - 1]);
    }
  }

  /** One month's raise multiplies the amount by that month's growth. */
  lemma RaiseGrows(before: Income, after: Income, key: string)
    requires after == RaiseIncome(before, key)
    ensures after.amount == before.amount * Growth(PercentIn(before.raises, key))
  {
  }

  /** Raises compound: after the months keyed `keys`, an income's amount is
      its source amount grown by the percentage of each month's first
      matching raise, each applied to the amount already raised. */
  lemma {:induction false} IncomeCompounds(income: Income, keys: seq<string>)
    ensures RaisedIncome(income, keys).amount == Compounded(income.amount, income.raises, keys)
  {
    if keys != [] {
      IncomeCompounds(income, keys[..|keys| - 1]);
      RaisedKeepsFields(income, keys[..|keys| - 1]);
    }
  }

  /** Sum of the source incomes, each grown over the months keyed `keys`. */
  function CompoundedTotal(incomes: seq<Income>, keys: seq<string>): real {
    if incomes == [] then 0.0
    else
      var last := incomes[|incomes| - 1];
      CompoundedTotal(incomes[..|incomes| - 1], keys) + Compounded(last.amount, last.raises, keys)
  }

  lemma {:induction false} TotalOfCompounded(working: seq<Income>, incomes: seq<Income>, keys: seq<string>)
    requires |working| == |incomes|
    requires forall j :: 0 <= j < |incomes| ==>
      working[j].amount == Compounded(incomes[j].amount, incomes[j].raises, keys)
    ensures TotalIncome(working) == CompoundedTotal(incomes, keys)
  {
    if incomes != [] {
      var m := |incomes| - 1;
      assert forall j :: 0 <= j < m ==> working[..m][j] == working[j] && incomes[..m][j] == incomes[j];
      TotalOfCompounded(working[..m], incomes[..m], keys);
    }
  }

  /** The run's working copy of income `j` at the start of month `n` is the
      source income with its amount grown by the raises of months 0 .. n-1;
      the source incomes themselves are never changed. */
  lemma RunIncome(fm: FinancialModel, anchor: YearMonth, n: nat, j: nat)
    requires j < |fm.incomes|
    ensures |IncomesBefore(fm, anchor, n)| == |fm.incomes|
    ensures IncomesBefore(fm, anchor, n)[j] ==
      fm.incomes[j].(amount := Compounded(fm.incomes[j].amount, fm.incomes[j].raises, RunKeys(anchor, n)))
  {
    var keys := RunKeys(anchor, n);
    RaisedPointwise(fm.incomes, keys, j);
    RaisedKeepsFields(fm.incomes[j], keys);
    IncomeCompounds(fm.incomes[j], keys);
  }

  /** Month `i`'s income is every source income grown by the raises of
      months 0 .. i: this month's raise is already in it. */
  lemma RecordIncome(fm: FinancialModel, anchor: YearMonth, i: nat)
    requires PaymentsFinite(fm.expenses)
    ensures RecordAt(fm, anchor, i).income == CompoundedTotal(fm.incomes, RunKeys(anchor, i + 1))
  {
    var keys := RunKeys(anchor, i + 1);
    var working := RaisedIncomes(fm.incomes, keys);
    RaisedLength(fm.incomes, keys);
    forall j | 0 <= j < |fm.incomes|
      ensures working[j].amount == Compounded(fm.incomes[j].amount, fm.incomes[j].raises, keys)
    {
      RaisedPointwise(fm.incomes, keys, j);
      IncomeCompounds(fm.incomes[j], keys);
    }
    TotalOfCompounded(working, fm.incomes, keys);
  }

  lemma {:induction false} RaisedLength(incomes: seq<Income>, keys: seq<string>)
    ensures |RaisedIncomes(incomes, keys)| == |incomes|
  {
    if keys != [] {
      RaisedLength(incomes, keys[..|keys| - 1]);
    }
  }

  // ---------------------------------------------------------------------
  // Increases replace

  lemma {:induction false} IncreasedLength(transfers: seq<Transfer>, keys: seq<string>)
    ensures |IncreasedTransfers(transfers, keys)| == |transfers|
  {
    if keys != [] {
      IncreasedLength(transfers, keys[..|keys| - 1]);
    }
  }

  /** One transfer taken through the increases of the months keyed `keys`. */
  function IncreasedTransfer(transfer: Transfer, keys: seq<string>): Transfer {
    if keys == [] then transfer
    else IncreaseTransfer(IncreasedTransfer(transfer, keys[..|keys| - 1]), keys[|keys| - 1])
  }

  /** Each working transfer evolves on its own. */
  lemma {:induction false} IncreasedPointwise(transfers: seq<Transfer>, keys: seq<string>, j: nat)
    requires j < |transfers|
    ensures |IncreasedTransfers(transfers, keys)| == |transfers|
    ensures IncreasedTransfers(transfers, keys)[j] == IncreasedTransfer(transfers[j], keys)
  {
    if keys != [] {
      IncreasedPointwise(transfers, keys[..|keys| - 1], j);
    }
  }

  /** Increases change a transfer's amount and nothing else. */
  lemma {:induction false} IncreasedKeepsFields(transfer: Transfer, keys: seq<string>)
    ensures IncreasedTransfer(transfer, keys).id == transfer.id
    ensures IncreasedTransfer(transfer, keys).fromAccountId == transfer.fromAccountId
    ensures IncreasedTransfer(transfer, keys).toAccountId == transfer.toAccountId
    ensures IncreasedTransfer(transfer, keys).increases == transfer.increases
  {
    if keys != [] {
      IncreasedKeepsFields(transfer, keys[..|keys| - 1]);
    }
  }

  /** A transfer none of whose increases has matched a month yet moves its
      source amount. */
  lemma {:induction false} TransferKeepsAmount(transfer: Transfer, keys: seq<string>)
    requires forall k :: 0 <= k < |keys| ==> FirstMatch(transfer.increases, IncreaseDate, keys[k]).None?
    ensures IncreasedTransfer(transfer, keys) == transfer
  {
    if keys != [] {
      var init := keys[..|keys| - 1];
      assert forall k :: 0 <= k < |init| ==> init[k] == keys[k];
      TransferKeepsAmount(transfer, init);
    }
  }

  /** Once the first increase dated month `k` has matched, the transfer moves
      exactly that increase's amount (it does not add to the old amount)
      until a later month matches another increase. */
  lemma {:induction false} TransferTakesLatestIncrease(transfer: Transfer, keys: seq<string>, k: nat)
    requires k < |keys|
    requires FirstMatch(transfer.increases, IncreaseDate, keys[k]).Some?
    requires forall m :: k < m < |keys| ==> FirstMatch(transfer.increases, IncreaseDate, keys[m]).None?
    ensures IncreasedTransfer(transfer, keys).amount ==
      transfer.increases[FirstMatch(transfer.increases, IncreaseDate, keys[k]).value].amount
  {
    var init := keys[..|keys| - 1];
    var before := IncreasedTransfer(transfer, init);
    IncreasedKeepsFields(transfer, init);
    assert before.increases == transfer.increases;
    if k < |init| {
      assert forall m :: 0 <= m < |init| ==> init[m] == keys[m];
      TransferTakesLatestIncrease(transfer, init, k);
      assert FirstMatch(before.increases, IncreaseDate, keys[|keys| - 1]).None?;
    }
  }

  // ---------------------------------------------------------------------
  // Expenses

  /** An amortized loan is charged its payment exactly in the months from its
      start month through the last month of its term, and never when it has
      no start month or no term. */
  lemma LoanWindow(e: Expense, date: YearMonth, monthlyIncome: real)
    requires e.kind.Amortized? && PaymentFinite(e)
    ensures e.kind.startDate.None? || e.kind.termYears == 0 ==> ExpenseAmount(e, date, monthlyIncome) == 0.0
    ensures e.kind.startDate.Some? && e.kind.termYears > 0 ==>
      var start := MonthIndex(e.kind.startDate.value);
      ExpenseAmount(e, date, monthlyIncome) ==
        if start <= MonthIndex(date) < start + 12 * e.kind.termYears
        then CalculateAmortizedPayment(e.kind.principal, e.kind.apr, e.kind.termYears).value
        else 0.0
  {
  }

  /** Sum of the percentages of the percentage-of-income expenses. */
  function PercentTotal(expenses: seq<Expense>): real {
    if expenses == [] then 0.0
    else
      var last := expenses[|expenses| - 1];
      PercentTotal(expenses[..|expenses| - 1]) + (if last.kind.Percentage? then last.kind.percent else 0.0)
  }

  /** The month's expense total is what it would be with no income, plus the
      income times the summed percentages. */
  lemma {:induction false} ExpensesAffineInIncome(expenses: seq<Expense>, date: YearMonth, monthlyIncome: real)
    requires PaymentsFinite(expenses)
    ensures TotalExpenses(expenses, date, monthlyIncome) ==
      TotalExpenses(expenses, date, 0.0) + monthlyIncome * PercentTotal(expenses) / 100.0
  {
    if expenses != [] {
      var init := expenses[..|expenses| - 1];
      assert PaymentsFinite(init) by {
        forall e | e in init ensures PaymentFinite(e) { assert e in expenses; }
      }
      ExpensesAffineInIncome(init, date, monthlyIncome);
    }
  }

  // ---------------------------------------------------------------------
  // Balance conservation

  /** Income amounts that land in one of `keys`. */
  function KnownDeposits(keys: set<string>, incomes: seq<Income>): real {
    if incomes == [] then 0.0
    else
      var last := incomes[|incomes| - 1];
      KnownDeposits(keys, incomes[..|incomes| - 1]) + (if last.depositAccountId in keys then last.amount else 0.0)
  }

  /** Expense amounts charged to one of `keys`. */
  function KnownCharges(keys: set<string>, expenses: seq<Expense>, date: YearMonth, monthlyIncome: real): real
    requires PaymentsFinite(expenses)
  {
    if expenses == [] then 0.0
    else
      var last := expenses[|expenses| - 1];
      KnownCharges(keys, expenses[..|expenses| - 1], date, monthlyIncome) +
      (if last.paymentAccountId in keys then ExpenseAmount(last, date, monthlyIncome) else 0.0)
  }

  /** What transfers add to the accounts in `keys` less what they take out. */
  function TransferImbalance(keys: set<string>, transfers: seq<Transfer>): real {
    if transfers == [] then 0.0
    else
      var t := transfers[|transfers| - 1];
      TransferImbalance(keys, transfers[..|transfers| - 1]) +
      (if t.toAccountId in keys then t.amount else 0.0) - (if t.fromAccountId in keys then t.amount else 0.0)
  }

  lemma {:induction false} DepositsTotal(b: Balances, incomes: seq<Income>)
    ensures MapSum(DepositIncomes(b, incomes)) == MapSum(b) + KnownDeposits(b.Keys, incomes)
  {
    if incomes != [] {
      var last := incomes[|incomes| - 1];
      DepositsTotal(b, incomes[..|incomes| - 1]);
      MapSumAdjust(DepositIncomes(b, incomes[..|incomes| - 1]), last.depositAccountId, last.amount);
    }
  }

  lemma {:induction false} ChargesTotal(b: Balances, expenses: seq<Expense>, date: YearMonth, monthlyIncome: real)
    requires PaymentsFinite(expenses)
    ensures MapSum(ChargeExpenses(b, expenses, date, monthlyIncome)) ==
      MapSum(b) - KnownCharges(b.Keys, expenses, date, monthlyIncome)
  {
    if expenses != [] {
      var init := expenses[..|expenses| - 1];
      var last := expenses[|expenses| - 1];
      assert PaymentsFinite(init) by {
        forall e | e in init ensures PaymentFinite(e) { assert e in expenses; }
      }
      ChargesTotal(b, init, date, monthlyIncome);
      MapSumAdjust(ChargeExpenses(b, init, date, monthlyIncome), last.paymentAccountId,
                   -ExpenseAmount(last, date, monthlyIncome));
    }
  }

  lemma {:induction false} TransfersTotal(b: Balances, transfers: seq<Transfer>)
    ensures MapSum(ApplyTransfers(b, transfers)) == MapSum(b) + TransferImbalance(b.Keys, transfers)
  {
    if transfers != [] {
      var t := transfers[|transfers| - 1];
      var before := ApplyTransfers(b, transfers[..|transfers| - 1]);
      TransfersTotal(b, transfers[..|transfers| - 1]);
      MapSumAdjust(before, t.fromAccountId, -t.amount);
      MapSumAdjust(Adjust(before, t.fromAccountId, -t.amount), t.toAccountId, t.amount);
    }
  }

  /** Transfers whose two legs name known accounts move money between
      accounts without changing the total. */
  lemma {:induction false} TransfersNetZero(keys: set<string>, transfers: seq<Transfer>)
    requires forall t :: t in transfers ==> t.fromAccountId in keys && t.toAccountId in keys
    ensures TransferImbalance(keys, transfers) == 0.0
  {
    if transfers != [] {
      var init := transfers[..|transfers| - 1];
      assert forall t :: t in init ==> t in transfers;
      TransfersNetZero(keys, init);
    }
  }

  /** Month `i` ends with the opening total plus the incomes deposited to
      known accounts, less the expenses charged to known accounts, plus the
      transfer legs that reach known accounts. */
  lemma MonthConservation(fm: FinancialModel, anchor: YearMonth, i: nat)
    requires PaymentsFinite(fm.expenses)
    ensures var keys := AccountIds(fm.accounts);
      var r := RecordAt(fm, anchor, i);
      MapSum(r.balances) ==
        MapSum(Opening(fm, anchor, i)) + KnownDeposits(keys, IncomesBefore(fm, anchor, i + 1))
        - KnownCharges(keys, fm.expenses, r.month, r.income)
        + TransferImbalance(keys, TransfersBefore(fm, anchor, i + 1))
  {
    var opening := BalancesBefore(fm, anchor, i);
    var incomes := IncomesBefore(fm, anchor, i + 1);
    var transfers := TransfersBefore(fm, anchor, i + 1);
    var r := RecordAt(fm, anchor, i);
    OpeningIsCarried(fm, anchor, i);
    BalanceKeysStable(fm, anchor, i);
    var deposited := DepositIncomes(opening, incomes);
    var charged := ChargeExpenses(deposited, fm.expenses, r.month, r.income);
    assert r.balances == ApplyTransfers(charged, transfers);
    DepositsTotal(opening, incomes);
    ChargesTotal(deposited, fm.expenses, r.month, r.income);
    TransfersTotal(charged, transfers);
  }

  /** Every income, expense and transfer leg names a known account. */
  predicate ReferencesKnown(fm: FinancialModel) {
    var keys := AccountIds(fm.accounts);
    (forall inc :: inc in fm.incomes ==> inc.depositAccountId in keys) &&
    (forall e :: e in fm.expenses ==> e.paymentAccountId in keys) &&
    (forall t :: t in fm.transfers ==> t.fromAccountId in keys && t.toAccountId in keys)
  }

  lemma {:induction false} AllDeposited(keys: set<string>, incomes: seq<Income>)
    requires forall inc :: inc in incomes ==> inc.depositAccountId in keys
    ensures KnownDeposits(keys, incomes) == TotalIncome(incomes)
  {
    if incomes != [] {
      var init := incomes[..|incomes| - 1];
      assert forall inc :: inc in init ==> inc in incomes;
      AllDeposited(keys, init);
    }
  }

  lemma {:induction false} AllCharged(keys: set<string>, expenses: seq<Expense>, date: YearMonth, monthlyIncome: real)
    requires PaymentsFinite(expenses)
    requires forall e :: e in expenses ==> e.paymentAccountId in keys
    ensures KnownCharges(keys, expenses, date, monthlyIncome) == TotalExpenses(expenses, date, monthlyIncome)
  {
    if expenses != [] {
      var init := expenses[..|expenses| - 1];
      assert forall e :: e in init ==> e in expenses;
      AllCharged(keys, init, date, monthlyIncome);
    }
  }

  /** Raises never change where an income is paid. */
  lemma RaisedDepositsKnown(incomes: seq<Income>, keys: seq<string>, known: set<string>)
    requires forall inc :: inc in incomes ==> inc.depositAccountId in known
    ensures forall inc :: inc in RaisedIncomes(incomes, keys) ==> inc.depositAccountId in known
  {
    var raised := RaisedIncomes(incomes, keys);
    RaisedLength(incomes, keys);
    forall inc | inc in raised ensures inc.depositAccountId in known {
      var j :| 0 <= j < |raised| && raised[j] == inc;
      RaisedPointwise(incomes, keys, j);
      RaisedKeepsFields(incomes[j], keys);
      assert incomes[j] in incomes;
    }
  }

  /** Increases never change the accounts a transfer links. */
  lemma IncreasedLegsKnown(transfers: seq<Transfer>, keys: seq<string>, known: set<string>)
    requires forall t :: t in transfers ==> t.fromAccountId in known && t.toAccountId in known
    ensures forall t :: t in IncreasedTransfers(transfers, keys) ==> t.fromAccountId in known && t.toAccountId in known
  {
    var increased := IncreasedTransfers(transfers, keys);
    IncreasedLength(transfers, keys);
    forall t | t in increased ensures t.fromAccountId in known && t.toAccountId in known {
      var j :| 0 <= j < |increased| && increased[j] == t;
      IncreasedPointwise(transfers, keys, j);
      IncreasedKeepsFields(transfers[j], keys);
      assert transfers[j] in transfers;
    }
  }

  /** When every reference names a known account, the total of all balances
      moves each month by exactly that month's net flow. */
  lemma NetFlowMovesTotal(fm: FinancialModel, anchor: YearMonth, i: nat)
    requires PaymentsFinite(fm.expenses)
    requires ReferencesKnown(fm)
    ensures MapSum(RecordAt(fm, anchor, i).balances) ==
      MapSum(Opening(fm, anchor, i)) + RecordAt(fm, anchor, i).netFlow
  {
    var keys := AccountIds(fm.accounts);
    var incomes := IncomesBefore(fm, anchor, i + 1);
    var transfers := TransfersBefore(fm, anchor, i + 1);
    var r := RecordAt(fm, anchor, i);
    MonthConservation(fm, anchor, i);
    RecordShape(fm, anchor, i);
    RaisedDepositsKnown(fm.incomes, RunKeys(anchor, i + 1), keys);
    AllDeposited(keys, incomes);
    AllCharged(keys, fm.expenses, r.month, r.income);
    IncreasedLegsKnown(fm.transfers, RunKeys(anchor, i + 1), keys);
    TransfersNetZero(keys, transfers);
    assert r.income == TotalIncome(incomes);
  }

  // ---------------------------------------------------------------------
  // Unknown accounts are ignored

  function DepositingTo(keys: set<string>, incomes: seq<Income>): (r: seq<Income>)
    ensures forall inc :: inc in r <==> inc in incomes && inc.depositAccountId in keys
  {
    if incomes == [] then []
    else
      var last := incomes[|incomes| - 1];
      DepositingTo(keys, incomes[..|incomes| - 1]) + (if last.depositAccountId in keys then [last] else [])
  }

  lemma DepositAppend(b: Balances, incomes: seq<Income>, income: Income)
    ensures DepositIncomes(b, incomes + [income]) ==
      Adjust(DepositIncomes(b, incomes), income.depositAccountId, income.amount)
  {
    assert (incomes + [income])[..|incomes|] == incomes;
  }

  /** One more income keeps the unknown-account deposits ignored. */
  lemma DepositsIgnoredStep(b: Balances, incomes: seq<Income>)
    requires incomes != []
    requires DepositIncomes(b, incomes[..|incomes| - 1]) ==
      DepositIncomes(b, DepositingTo(b.Keys, incomes[..|incomes| - 1]))
    ensures DepositIncomes(b, incomes) == DepositIncomes(b, DepositingTo(b.Keys, incomes))
  {
    var last := incomes[|incomes| - 1];
    var kept := DepositingTo(b.Keys, incomes[..|incomes| - 1]);
    if last.depositAccountId in b.Keys {
      assert DepositingTo(b.Keys, incomes) == kept + [last];
      DepositAppend(b, kept, last);
    } else {
      assert DepositingTo(b.Keys, incomes) == kept;
    }
  }

  /** Incomes paid into unknown accounts contribute nothing to the balances. */
  lemma {:induction false} UnknownDepositsIgnored(b: Balances, incomes: seq<Income>)
    ensures DepositIncomes(b, incomes) == DepositIncomes(b, DepositingTo(b.Keys, incomes))
  {
    if incomes != [] {
      UnknownDepositsIgnored(b, incomes[..|incomes| - 1]);
      DepositsIgnoredStep(b, incomes);
    }
  }

  function ChargingTo(keys: set<string>, expenses: seq<Expense>): (r: seq<Expense>)
    ensures forall e :: e in r <==> e in expenses && e.paymentAccountId in keys
  {
    if expenses == [] then []
    else
      var last := expenses[|expenses| - 1];
      ChargingTo(keys, expenses[..|expenses| - 1]) + (if last.paymentAccountId in keys then [last] else [])
  }

  lemma ChargeAppend(b: Balances, expenses: seq<Expense>, e: Expense, date: YearMonth, monthlyIncome: real)
    requires PaymentsFinite(expenses) && PaymentFinite(e)
    ensures PaymentsFinite(expenses + [e])
    ensures ChargeExpenses(b, expenses + [e], date, monthlyIncome) ==
      Adjust(ChargeExpenses(b, expenses, date, monthlyIncome), e.paymentAccountId, -ExpenseAmount(e, date, monthlyIncome))
  {
    assert (expenses + [e])[..|expenses|] == expenses;
  }

  lemma FinitePrefix(expenses: seq<Expense>, n: nat)
    requires PaymentsFinite(expenses) && n <= |expenses|
    ensures PaymentsFinite(expenses[..n])
  {
    forall e | e in expenses[..n] ensures PaymentFinite(e) {
      assert e in expenses;
    }
  }

  /** One more expense keeps the unknown-account charges ignored. */
  lemma ChargesIgnoredStep(b: Balances, expenses: seq<Expense>, date: YearMonth, monthlyIncome: real)
    requires expenses != [] && PaymentsFinite(expenses)
    requires PaymentsFinite(expenses[..|expenses| - 1])
    requires PaymentsFinite(ChargingTo(b.Keys, expenses[..|expenses| - 1]))
    requires ChargeExpenses(b, expenses[..|expenses| - 1], date, monthlyIncome) ==
      ChargeExpenses(b, ChargingTo(b.Keys, expenses[..|expenses| - 1]), date, monthlyIncome)
    ensures PaymentsFinite(ChargingTo(b.Keys, expenses))
    ensures ChargeExpenses(b, expenses, date, monthlyIncome) ==
      ChargeExpenses(b, ChargingTo(b.Keys, expenses), date, monthlyIncome)
  {
    var last := expenses[|expenses| - 1];
    var kept := ChargingTo(b.Keys, expenses[..|expenses| - 1]);
    if last.paymentAccountId in b.Keys {
      assert ChargingTo(b.Keys, expenses) == kept + [last];
      ChargeAppend(b, kept, last, date, monthlyIncome);
    } else {
      assert ChargingTo(b.Keys, expenses) == kept;
    }
  }

  /** Expenses charged to unknown accounts contribute nothing to the balances. */
  lemma {:induction false} UnknownChargesIgnored(b: Balances, expenses: seq<Expense>, date: YearMonth, monthlyIncome: real)
    requires PaymentsFinite(expenses)
    ensures PaymentsFinite(ChargingTo(b.Keys, expenses))
    ensures ChargeExpenses(b, expenses, date, monthlyIncome) ==
      ChargeExpenses(b, ChargingTo(b.Keys, expenses), date, monthlyIncome)
  {
    if expenses != [] {
      FinitePrefix(expenses, |expenses| - 1);
      UnknownChargesIgnored(b, expenses[..|expenses| - 1], date, monthlyIncome);
      ChargesIgnoredStep(b, expenses, date, monthlyIncome);
    }
  }

  /** A transfer both of whose accounts are unknown changes nothing; one with
      a single known leg still moves money on that leg. */
  lemma TransferLegsIndependent(b: Balances, t: Transfer)
    ensures t.fromAccountId !in b && t.toAccountId !in b ==> MoveTransfer(b, t) == b
    ensures t.fromAccountId in b && t.toAccountId !in b ==>
      MoveTransfer(b, t) == b[t.fromAccountId := b[t.fromAccountId] - t.amount]
    ensures t.fromAccountId !in b && t.toAccountId in b ==>
      MoveTransfer(b, t) == b[t.toAccountId := b[t.toAccountId] + t.amount]
  {
  }

  /** Every known account gains what the transfer pays into it and loses what
      it takes out of it; with both legs on one account the two cancel. */
  lemma TransferMovesAmount(b: Balances, t: Transfer, k: string)
    requires k in b
    ensures MoveTransfer(b, t)[k] == b[k] - (if k == t.fromAccountId then t.amount else 0.0)
                                         + (if k == t.toAccountId then t.amount else 0.0)
  {
  }

}

/** The figures the dashboard derives from a projection and the accounts:
    the horizon label in the section titles, the savings-rate metric, the
    account balance cards with their totals, the alerts, the colour each
    account is drawn in, and the filter that deletes an item by id. */
module Dashboard {
  import opened Common
  import opened Text
  import opened Calendar
  import opened Finance
  import opened Ledger
  import opened Projection
  import opened ProjectionProperties

  // ---------------------------------------------------------------------
  // Horizon label

  /** `n % 12` in JavaScript: the remainder of the division truncated
      towards zero, so it has the sign of `n`. */
  function TruncatedRemainder12(n: int): (r: int)
    ensures -12 < r < 12
    ensures (n - r) % 12 == 0
    ensures n >= 0 ==> 0 <= r
    ensures n < 0 ==> r <= 0
  {
    if n >= 0 then n % 12 else -((-n) % 12)
  }

  /** The label shown in the three section titles for a horizon of `n`
      months. `years` is `Math.floor(n / 12)`, which Dafny's division by a
      positive divisor already is. */
  function HorizonLabel(n: int): string {
    var years := n / 12;
    var months := TruncatedRemainder12(n);
    if years > 0 && months > 0 then MixedLabel(years, months)
    else if years > 0 then CountLabel(years, " Year")
    else CountLabel(months, " Month")
  }

  /** `${years}yr ${months}mo`. */
  function MixedLabel(years: int, months: int): string {
    IntString(years) + "yr " + IntString(months) + "mo"
  }

  /** `${count} Unit`, with an `s` added when the count is above one. */
  function CountLabel(count: int, unit: string): string {
    IntString(count) + unit + (if count > 1 then "s" else "")
  }

  /** The decimal number at the front of `s` and the text after it, if `s`
      starts with a digit. */
  function ReadNumber(s: string): Option<(nat, string)> {
    var k := DigitRun(s);
    if k == 0 then None else Some((DecimalValue(s[..k]), s[k..]))
  }

  /** A decimal number followed by text that does not start with a digit
      reads back as that number and that text. */
  lemma NumberThen(d: nat, rest: string)
    requires rest == [] || !IsDigit(rest[0])
    ensures ReadNumber(DecimalString(d) + rest) == Some((d, rest))
  {
    var s := DecimalString(d) + rest;
    DigitRunOfPrefix(DecimalString(d), rest);
    assert s[..|DecimalString(d)|] == DecimalString(d);
    assert s[|DecimalString(d)|..] == rest;
    DecimalRoundTrip(d);
  }

  /** The months named by a count and the unit text that follows it. */
  function ReadUnit(count: nat, rest: string): Option<nat> {
    if rest == " Year" || rest == " Years" then Some(12 * count)
    else if rest == " Month" || rest == " Months" then Some(count)
    else if |rest| >= 3 && rest[..3] == "yr " then
      match ReadNumber(rest[3..])
      case Some((months, after)) => if after == "mo" then Some(12 * count + months) else None
      case None => None
    else None
  }

  /** Reads a horizon label back as a number of months. */
  function ParseHorizon(s: string): Option<nat> {
    match ReadNumber(s)
    case Some((count, rest)) => ReadUnit(count, rest)
    case None => None
  }

  lemma MixedUnit(count: nat, rest: string, months: nat)
    requires rest != " Year" && rest != " Years" && rest != " Month" && rest != " Months"
    requires |rest| >= 3 && rest[..3] == "yr "
    requires ReadNumber(rest[3..]) == Some((months, "mo"))
    ensures ReadUnit(count, rest) == Some(12 * count + months)
  {
  }

  lemma MixedRoundTrip(years: nat, months: nat)
    ensures ParseHorizon(MixedLabel(years, months)) == Some(12 * years + months)
  {
    var tail := DecimalString(months) + "mo";
    var rest := "yr " + tail;
    assert MixedLabel(years, months) == DecimalString(years) + rest;
    NumberThen(years, rest);
    NumberThen(months, "mo");
    assert rest[0] == 'y';
    assert rest[..3] == "yr " && rest[3..] == tail;
    MixedUnit(years, rest, months);
  }

  lemma YearsRoundTrip(years: nat)
    ensures ParseHorizon(CountLabel(years, " Year")) == Some(12 * years)
  {
    var unit := " Year" + (if years > 1 then "s" else "");
    assert CountLabel(years, " Year") == DecimalString(years) + unit;
    NumberThen(years, unit);
  }

  lemma MonthsRoundTrip(months: nat)
    ensures ParseHorizon(CountLabel(months, " Month")) == Some(months)
  {
    var unit := " Month" + (if months > 1 then "s" else "");
    assert CountLabel(months, " Month") == DecimalString(months) + unit;
    NumberThen(months, unit);
    assert unit[1] == 'M';
  }

  /** Which of the three forms the label of `n` months takes. */
  lemma HorizonForms(n: nat)
    ensures n / 12 > 0 && n % 12 > 0 ==> HorizonLabel(n) == MixedLabel(n / 12, n % 12)
    ensures n / 12 > 0 && n % 12 == 0 ==> HorizonLabel(n) == CountLabel(n / 12, " Year")
    ensures n / 12 == 0 ==> HorizonLabel(n) == CountLabel(n % 12, " Month")
  {
    assert TruncatedRemainder12(n) == n % 12;
  }

  /** The round trip, one form of label at a time. */
  lemma MixedHorizon(n: nat)
    requires n / 12 > 0 && n % 12 > 0
    ensures ParseHorizon(HorizonLabel(n)) == Some(n)
  {
    HorizonForms(n);
    MixedRoundTrip(n / 12, n % 12);
  }

  lemma YearsHorizon(n: nat)
    requires n / 12 > 0 && n % 12 == 0
    ensures ParseHorizon(HorizonLabel(n)) == Some(n)
  {
    HorizonForms(n);
    YearsRoundTrip(n / 12);
  }

  lemma MonthsHorizon(n: nat)
    requires n / 12 == 0
    ensures ParseHorizon(HorizonLabel(n)) == Some(n)
  {
    HorizonForms(n);
    MonthsRoundTrip(n % 12);
  }

  /** Every horizon the dashboard offers is named without loss: the label
      of `n` months reads back as `n`. */
  lemma HorizonRoundTrip(n: nat)
    ensures ParseHorizon(HorizonLabel(n)) == Some(n)
  {
    if n / 12 > 0 && n % 12 > 0 {
      MixedHorizon(n);
    } else if n / 12 > 0 {
      YearsHorizon(n);
    } else {
      MonthsHorizon(n);
    }
  }

  /** The unit is plural exactly when the single number shown exceeds one;
      a mixed "yr … mo" label is never pluralised. */
  lemma HorizonPlural(n: nat)
    ensures var title := HorizonLabel(n);
      |title| > 0 &&
      (title[|title| - 1] == 's' <==> (n % 12 == 0 && n / 12 > 1) || 1 < n < 12)
  {
    var years := n / 12;
    var months := n % 12;
    assert TruncatedRemainder12(n) == months;
    if years > 0 && months > 0 {
      assert HorizonLabel(n) == DecimalString(years) + "yr " + DecimalString(months) + "mo";
    } else if years > 0 {
      assert HorizonLabel(n) == DecimalString(years) + " Year" + (if years > 1 then "s" else "");
    } else {
      assert HorizonLabel(n) == DecimalString(months) + " Month" + (if months > 1 then "s" else "");
    }
  }

  // ---------------------------------------------------------------------
  // Metrics

  /** `(projectionData[0] || { income: 0, expenses: 0 })`, as the pair
      (income, expenses). */
  function FirstMonth(projection: seq<ProjectionRecord>): (real, real) {
    if projection == [] then (0.0, 0.0) else (projection[0].income, projection[0].expenses)
  }

  /** The savings rate of the first projected month, in percent: the share
      of its income left over after its expenses, and 0 when there is no
      positive income to take a share of. */
  function SavingsRate(projection: seq<ProjectionRecord>): (rate: real)
    ensures projection != [] && projection[0].income > 0.0 ==>
      rate * projection[0].income == 100.0 * (projection[0].income - projection[0].expenses)
    ensures projection == [] || projection[0].income <= 0.0 ==> rate == 0.0
  {
    var (income, expenses) := FirstMonth(projection);
    var netCashFlow := income - expenses;
    if income > 0.0 then netCashFlow / income * 100.0 else 0.0
  }

  /** With a positive income the rate is positive exactly when the month
      saves money, reaches 100 exactly when nothing is spent, and is at most
      100 exactly when expenses are not negative. */
  lemma SavingsRateMeaning(projection: seq<ProjectionRecord>)
    requires projection != [] && projection[0].income > 0.0
    ensures var (income, expenses) := (projection[0].income, projection[0].expenses);
      (SavingsRate(projection) > 0.0 <==> income - expenses > 0.0) &&
      (SavingsRate(projection) == 100.0 <==> expenses == 0.0) &&
      (SavingsRate(projection) <= 100.0 <==> expenses >= 0.0)
  {
    var (income, expenses) := FirstMonth(projection);
    var rate := SavingsRate(projection);
    assert rate * income == 100.0 * (income - expenses);
    if rate > 0.0 {
      assert rate * income > 0.0;
    } else {
      assert rate * income <= 0.0;
    }
    if rate <= 100.0 {
      assert rate * income <= 100.0 * income;
    } else {
      assert rate * income > 100.0 * income;
    }
    if rate == 100.0 {
      assert rate * income == 100.0 * income;
    } else if rate < 100.0 {
      assert rate * income < 100.0 * income;
    } else {
      assert rate * income > 100.0 * income;
    }
  }

  // ---------------------------------------------------------------------
  // Account balance cards

  /** One account card: the balance now, at the end of the horizon, and
      the difference. */
  datatype AccountChange = AccountChange(id: string, now: real, projected: real, change: real)

  /** The cards in account order, with the "Total Assets" figures. */
  datatype BalanceSummary = BalanceSummary(cards: seq<AccountChange>, totalNow: real,
                                           totalProjected: real, totalChange: real)

  /** The current balances of `accounts`, added up in order. */
  function TotalNow(accounts: seq<Account>): real {
    if accounts == [] then 0.0
    else TotalNow(accounts[..|accounts| - 1]) + accounts[|accounts| - 1].balance
  }

  predicate Covers(balances: map<string, real>, accounts: seq<Account>) {
    forall i :: 0 <= i < |accounts| ==> accounts[i].id in balances
  }

  /** The projected balances of `accounts`, added up in order. */
  function TotalProjected(accounts: seq<Account>, balances: map<string, real>): real
    requires Covers(balances, accounts)
  {
    if accounts == [] then 0.0
    else TotalProjected(accounts[..|accounts| - 1], balances) + balances[accounts[|accounts| - 1].id]
  }

  /** The changes shown on the cards, added up in order. */
  function SumOfChanges(cards: seq<AccountChange>): real {
    if cards == [] then 0.0 else SumOfChanges(cards[..|cards| - 1]) + cards[|cards| - 1].change
  }

  /** The card of one account against the projected balances. */
  function Card(account: Account, balances: map<string, real>): AccountChange
    requires account.id in balances
  {
    var projected := balances[account.id];
    AccountChange(account.id, account.balance, projected, projected - account.balance)
  }

  /** The cards of `accounts`, in order. */
  function CardsFor(accounts: seq<Account>, balances: map<string, real>): (cards: seq<AccountChange>)
    requires Covers(balances, accounts)
    ensures |cards| == |accounts|
  {
    if accounts == [] then []
    else CardsFor(accounts[..|accounts| - 1], balances) + [Card(accounts[|accounts| - 1], balances)]
  }

  /** Card `i` is the card of account `i`. */
  lemma {:induction false} CardAt(accounts: seq<Account>, balances: map<string, real>, i: nat)
    requires Covers(balances, accounts)
    requires i < |accounts|
    ensures CardsFor(accounts, balances)[i] == Card(accounts[i], balances)
  {
    if i < |accounts| - 1 {
      CardAt(accounts[..|accounts| - 1], balances, i);
    }
  }

  /** The total change is the sum of the per-account changes. */
  lemma {:induction false} ChangesAddUp(accounts: seq<Account>, balances: map<string, real>)
    requires Covers(balances, accounts)
    ensures SumOfChanges(CardsFor(accounts, balances)) ==
      TotalProjected(accounts, balances) - TotalNow(accounts)
  {
    if accounts != [] {
      var init := accounts[..|accounts| - 1];
      var cards := CardsFor(accounts, balances);
      assert cards[..|init|] == CardsFor(init, balances);
      ChangesAddUp(init, balances);
    }
  }

  /** `renderAccountBalances`: nothing when the projection is empty;
      otherwise one card per account, comparing its balance now with its
      balance in the last projected month, and the totals of both. The
      last month's balances must name every account, as the balances of
      every projected month do (see `Dashboard.ProjectionCoversAccounts`). */
  method SummarizeBalances(accounts: seq<Account>, projection: seq<ProjectionRecord>)
    returns (summary: Option<BalanceSummary>)
    requires projection != [] ==> Covers(projection[|projection| - 1].balances, accounts)
    ensures summary.None? <==> projection == []
    ensures summary.Some? ==>
      var last := projection[|projection| - 1].balances;
      summary.value.cards == CardsFor(accounts, last) &&
      summary.value.totalNow == TotalNow(accounts) &&
      summary.value.totalProjected == TotalProjected(accounts, last) &&
      summary.value.totalChange == SumOfChanges(summary.value.cards)
  {
    if projection == [] {
      return None;
    }
    var lastMonth := projection[|projection| - 1].balances;
    var cards := [];
    var totalCurrentAssets := 0.0;
    var totalProjectedAssets := 0.0;
    for i := 0 to |accounts|
      invariant cards == CardsFor(accounts[..i], lastMonth)
      invariant totalCurrentAssets == TotalNow(accounts[..i])
      invariant totalProjectedAssets == TotalProjected(accounts[..i], lastMonth)
    {
      assert accounts[..i + 1][..i] == accounts[..i];
      var account := accounts[i];
      var projectedBalance := lastMonth[account.id];
      var change := projectedBalance - account.balance;
      cards := cards + [AccountChange(account.id, account.balance, projectedBalance, change)];
      assert cards == CardsFor(accounts[..i + 1], lastMonth);
      totalCurrentAssets := totalCurrentAssets + account.balance;
      totalProjectedAssets := totalProjectedAssets + projectedBalance;
    }
    assert accounts[..|accounts|] == accounts;
    ChangesAddUp(accounts, lastMonth);
    summary := Some(BalanceSummary(cards, totalCurrentAssets, totalProjectedAssets,
                                   totalProjectedAssets - totalCurrentAssets));
  }

  /** The last month of every non-empty projection has a balance for each
      account, so the cards never look up a missing account. */
  lemma ProjectionCoversAccounts(fm: FinancialModel, anchor: YearMonth, n: nat)
    requires PaymentsFinite(fm.expenses)
    requires n > 0
    ensures Covers(Projected(fm, anchor, n)[n - 1].balances, fm.accounts)
  {
    BalanceKeysStable(fm, anchor, n - 1);
    forall i | 0 <= i < |fm.accounts| ensures fm.accounts[i].id in AccountIds(fm.accounts) {
      assert fm.accounts[i] in fm.accounts;
    }
  }

  /** The net flows of the projected months, added up in order. */
  function NetFlowSum(projection: seq<ProjectionRecord>): real {
    if projection == [] then 0.0
    else NetFlowSum(projection[..|projection| - 1]) + projection[|projection| - 1].netFlow
  }

  /** With distinct ids, adding the balances account by account gives the
      total over the set of their ids. */
  lemma {:induction false} TotalIsSumOver(accounts: seq<Account>, b: map<string, real>)
    requires DistinctIds(accounts)
    requires AccountIds(accounts) <= b.Keys
    ensures Covers(b, accounts)
    ensures TotalProjected(accounts, b) == SumOver(b, AccountIds(accounts))
  {
    forall i | 0 <= i < |accounts| ensures accounts[i].id in b {
      assert accounts[i] in accounts;
    }
    if accounts != [] {
      var init := accounts[..|accounts| - 1];
      var last := accounts[|accounts| - 1];
      assert accounts == init + [last];
      assert AccountIds(accounts) == AccountIds(init) + {last.id};
      assert last.id !in AccountIds(init);
      TotalIsSumOver(init, b);
      SumOverRemove(b, AccountIds(accounts), last.id);
      assert AccountIds(accounts) - {last.id} == AccountIds(init);
    }
  }

  /** Adding up the current balances gives the same as adding up a map
      that holds each account's current balance. */
  lemma {:induction false} TotalNowAsLookups(accounts: seq<Account>, b: map<string, real>)
    requires Covers(b, accounts)
    requires forall i :: 0 <= i < |accounts| ==> b[accounts[i].id] == accounts[i].balance
    ensures TotalNow(accounts) == TotalProjected(accounts, b)
  {
    if accounts != [] {
      TotalNowAsLookups(accounts[..|accounts| - 1], b);
    }
  }

  lemma NetFlowSumAppend(projection: seq<ProjectionRecord>, r: ProjectionRecord)
    ensures NetFlowSum(projection + [r]) == NetFlowSum(projection) + r.netFlow
  {
    assert (projection + [r])[..|projection|] == projection;
  }

  /** Month by month, the total of all balances is the starting total plus
      the net flows so far. */
  lemma {:induction false} TotalAfterMonths(fm: FinancialModel, anchor: YearMonth, i: nat)
    requires PaymentsFinite(fm.expenses)
    requires ReferencesKnown(fm)
    ensures MapSum(RecordAt(fm, anchor, i).balances) ==
      MapSum(InitialBalances(fm.accounts)) + NetFlowSum(Projected(fm, anchor, i + 1))
  {
    NetFlowMovesTotal(fm, anchor, i);
    ProjectedStep(fm, anchor, i);
    NetFlowSumAppend(Projected(fm, anchor, i), RecordAt(fm, anchor, i));
    if i > 0 {
      TotalAfterMonths(fm, anchor, i - 1);
    }
  }

  /** With distinct ids, the accounts' running total of a map that has
      exactly their ids is the map's total. */
  lemma TotalOfMap(accounts: seq<Account>, b: map<string, real>)
    requires DistinctIds(accounts)
    requires b.Keys == AccountIds(accounts)
    ensures Covers(b, accounts)
    ensures TotalProjected(accounts, b) == MapSum(b)
  {
    TotalIsSumOver(accounts, b);
  }

  /** With distinct ids, the current total is the total of the balances
      the projection starts from. */
  lemma StartingTotal(accounts: seq<Account>)
    requires DistinctIds(accounts)
    ensures TotalNow(accounts) == MapSum(InitialBalances(accounts))
  {
    var start := InitialBalances(accounts);
    TotalOfMap(accounts, start);
    forall i | 0 <= i < |accounts| ensures start[accounts[i].id] == accounts[i].balance {
    }
    TotalNowAsLookups(accounts, start);
  }

  /** The "Total Assets" card is consistent with the monthly figures: when
      the ids are distinct and every income, expense and transfer names an
      existing account, the total change over the horizon is the sum of
      the monthly net flows. */
  lemma TotalChangeIsNetFlow(fm: FinancialModel, anchor: YearMonth, n: nat)
    requires PaymentsFinite(fm.expenses)
    requires ReferencesKnown(fm) && DistinctIds(fm.accounts)
    requires n > 0
    ensures Covers(Projected(fm, anchor, n)[n - 1].balances, fm.accounts)
    ensures TotalProjected(fm.accounts, Projected(fm, anchor, n)[n - 1].balances) - TotalNow(fm.accounts) ==
      NetFlowSum(Projected(fm, anchor, n))
  {
    assert Projected(fm, anchor, n)[n - 1] == RecordAt(fm, anchor, n - 1);
    BalanceKeysStable(fm, anchor, n - 1);
    TotalOfMap(fm.accounts, RecordAt(fm, anchor, n - 1).balances);
    StartingTotal(fm.accounts);
    TotalAfterMonths(fm, anchor, n - 1);
  }

  // ---------------------------------------------------------------------
  // Alerts

  datatype Alert =
    | LowEmergencyFund(liquidAssets: real, cushion: real)
    | NegativeCashFlow(negativeMonths: nat, horizon: int)
    | AllClear

  predicate IsLiquid(account: Account) {
    account.kind == Checking || account.kind == Savings
  }

  /** The balances of the checking and savings accounts, added up in order. */
  function LiquidAssets(accounts: seq<Account>): real {
    if accounts == [] then 0.0
    else
      var last := accounts[|accounts| - 1];
      LiquidAssets(accounts[..|accounts| - 1]) + (if IsLiquid(last) then last.balance else 0.0)
  }

  /** Investment accounts never count: two account lists that agree on
      which accounts are liquid and on their balances have the same
      liquid assets. */
  lemma {:induction false} LiquidAssetsIgnoreInvestments(a: seq<Account>, b: seq<Account>)
    requires |a| == |b|
    requires forall i :: 0 <= i < |a| ==> IsLiquid(a[i]) == IsLiquid(b[i])
    requires forall i :: 0 <= i < |a| && IsLiquid(a[i]) ==> a[i].balance == b[i].balance
    ensures LiquidAssets(a) == LiquidAssets(b)
  {
    if a != [] {
      LiquidAssetsIgnoreInvestments(a[..|a| - 1], b[..|b| - 1]);
    }
  }

  /** `(projectionData[0] || {}).expenses || 0`. */
  function FirstMonthExpenses(projection: seq<ProjectionRecord>): real {
    if projection == [] then 0.0 else projection[0].expenses
  }

  /** The number of projected months with a negative net flow. */
  function CountNegative(projection: seq<ProjectionRecord>): (count: nat)
    ensures count <= |projection|
    ensures count == 0 <==> forall i :: 0 <= i < |projection| ==> projection[i].netFlow >= 0.0
    ensures count == |projection| <==> forall i :: 0 <= i < |projection| ==> projection[i].netFlow < 0.0
  {
    if projection == [] then 0
    else
      var init := projection[..|projection| - 1];
      var count := CountNegative(init) + (if projection[|projection| - 1].netFlow < 0.0 then 1 else 0);
      assert forall i :: 0 <= i < |init| ==> init[i] == projection[i];
      count
  }

  /** `renderAlerts`: a low-emergency-fund warning when the liquid assets
      fall short of three months of the first month's expenses, a
      negative-cash-flow alarm when some month loses money, and the
      all-clear only when neither fires. */
  method RenderAlerts(accounts: seq<Account>, projection: seq<ProjectionRecord>, horizon: int)
    returns (alerts: seq<Alert>)
    ensures var liquid := LiquidAssets(accounts);
      var cushion := FirstMonthExpenses(projection) * 3.0;
      var negative := CountNegative(projection);
      (LowEmergencyFund(liquid, cushion) in alerts <==> liquid < cushion) &&
      (NegativeCashFlow(negative, horizon) in alerts <==> negative > 0) &&
      (AllClear in alerts <==> liquid >= cushion && negative == 0) &&
      (alerts[0] == LowEmergencyFund(liquid, cushion) <==> liquid < cushion) &&
      |alerts| == (if liquid < cushion && negative > 0 then 2 else 1)
  {
    alerts := [];
    var firstMonthExpenses := FirstMonthExpenses(projection);
    var emergencyFundGoal := firstMonthExpenses * 3.0;
    var liquidAssets := LiquidAssets(accounts);
    if liquidAssets < emergencyFundGoal {
      alerts := alerts + [LowEmergencyFund(liquidAssets, emergencyFundGoal)];
    }
    var negativeMonths := CountNegative(projection);
    if negativeMonths > 0 {
      alerts := alerts + [NegativeCashFlow(negativeMonths, horizon)];
    }
    if |alerts| == 0 {
      alerts := alerts + [AllClear];
    }
  }

  // ---------------------------------------------------------------------
  // Chart colours

  const Palette: seq<string> :=
    ["#3498db", "#2ecc71", "#9b59b6", "#f1c40f", "#e74c3c", "#1abc9c", "#34495e"]

  /** `assignChartColors`: each account takes the palette colour of its
      position, cycling through the seven colours; an id that occurs twice
      keeps the colour of its last position. */
  function ChartColors(accounts: seq<Account>): (colors: map<string, string>)
    ensures colors.Keys == AccountIds(accounts)
  {
    if accounts == [] then map[]
    else
      var init := accounts[..|accounts| - 1];
      var last := accounts[|accounts| - 1];
      assert accounts == init + [last];
      ChartColors(init)[last.id := Palette[(|accounts| - 1) % |Palette|]]
  }

  /** The account at position `i` gets the palette colour of `i` unless a
      later account has the same id. */
  lemma {:induction false} ChartColorAt(accounts: seq<Account>, i: nat)
    requires i < |accounts|
    requires forall j :: i < j < |accounts| ==> accounts[j].id != accounts[i].id
    ensures accounts[i].id in ChartColors(accounts)
    ensures ChartColors(accounts)[accounts[i].id] == Palette[i % |Palette|]
  {
    var init := accounts[..|accounts| - 1];
    if i < |accounts| - 1 {
      ChartColorAt(init, i);
    }
  }

  /** Accounts fewer than seven places apart are drawn in different
      colours when their ids are distinct. */
  lemma NearbyAccountsDiffer(accounts: seq<Account>, i: nat, j: nat)
    requires DistinctIds(accounts)
    requires i < j < |accounts| && j - i < |Palette|
    ensures ChartColors(accounts)[accounts[i].id] != ChartColors(accounts)[accounts[j].id]
  {
    ColorOfPosition(accounts, i);
    ColorOfPosition(accounts, j);
    DifferentResidues(i, j);
    PaletteDistinct(i % 7, j % 7);
  }

  /** With distinct ids, every account has the colour of its own position. */
  lemma ColorOfPosition(accounts: seq<Account>, i: nat)
    requires DistinctIds(accounts)
    requires i < |accounts|
    ensures ChartColors(accounts)[accounts[i].id] == Palette[i % |Palette|]
  {
    ChartColorAt(accounts, i);
  }

  lemma DifferentResidues(i: nat, j: nat)
    requires i < j < i + 7
    ensures i % 7 != j % 7
  {
  }

  /** The seven palette colours are all different. */
  lemma PaletteDistinct(p: nat, q: nat)
    requires p < |Palette| && q < |Palette| && p != q
    ensures Palette[p] != Palette[q]
  {
    assert (Palette[p][1], Palette[p][4]) != (Palette[q][1], Palette[q][4]);
  }

  // ---------------------------------------------------------------------
  // Deleting an item

  /** `arr.filter(item => item.id !== id)`, for any item with an id. */
  function RemoveById<T(!new)>(items: seq<T>, idOf: T -> string, id: string): (kept: seq<T>)
    ensures |kept| <= |items|
  {
    if items == [] then []
    else
      var init := items[..|items| - 1];
      var last := items[|items| - 1];
      RemoveById(init, idOf, id) + (if idOf(last) != id then [last] else [])
  }

  /** The filter keeps every item whose id differs as often as before, and
      no item with the id. */
  lemma {:induction false} RemoveByIdCounts<T(!new)>(items: seq<T>, idOf: T -> string, id: string)
    ensures forall x ::
      multiset(RemoveById(items, idOf, id))[x] == if idOf(x) != id then multiset(items)[x] else 0
  {
    if items != [] {
      var init := items[..|items| - 1];
      var last := items[|items| - 1];
      assert items == init + [last];
      RemoveByIdCounts(init, idOf, id);
    }
  }

  /** With no item carrying the id, the filter keeps the whole list. */
  lemma {:induction false} RemoveByIdNothing<T(!new)>(items: seq<T>, idOf: T -> string, id: string)
    requires forall x :: x in items ==> idOf(x) != id
    ensures RemoveById(items, idOf, id) == items
  {
    if items != [] {
      var init := items[..|items| - 1];
      assert items == init + [items[|items| - 1]];
      RemoveByIdNothing(init, idOf, id);
    }
  }

  /** The filter keeps exactly the items whose id differs. */
  lemma RemoveByIdKeeps<T(!new)>(items: seq<T>, idOf: T -> string, id: string)
    ensures forall x :: x in RemoveById(items, idOf, id) <==> x in items && idOf(x) != id
  {
    RemoveByIdCounts(items, idOf, id);
    forall x
      ensures x in RemoveById(items, idOf, id) <==> x in items && idOf(x) != id
    {
      assert x in RemoveById(items, idOf, id) <==> multiset(RemoveById(items, idOf, id))[x] > 0;
      assert x in items <==> multiset(items)[x] > 0;
    }
  }

  /** Filtering works piece by piece: the kept items of a concatenation are
      the kept items of the first part followed by those of the second, so
      the filter keeps the order of what it keeps. */
  lemma {:induction false} RemoveByIdAppend<T(!new)>(a: seq<T>, b: seq<T>, idOf: T -> string, id: string)
    ensures RemoveById(a + b, idOf, id) == RemoveById(a, idOf, id) + RemoveById(b, idOf, id)
  {
    if b == [] {
      assert a + b == a;
    } else {
      var init, last := b[..|b| - 1], b[|b| - 1];
      var tail := if idOf(last) != id then [last] else [];
      RemoveByIdAppend(a, init, idOf, id);
      var ab := a + b;
      assert ab[..|ab| - 1] == a + init && ab[|ab| - 1] == last;
      calc {
        RemoveById(ab, idOf, id);
        RemoveById(a + init, idOf, id) + tail;
        (RemoveById(a, idOf, id) + RemoveById(init, idOf, id)) + tail;
        RemoveById(a, idOf, id) + (RemoveById(init, idOf, id) + tail);
        RemoveById(a, idOf, id) + RemoveById(b, idOf, id);
      }
    }
  }

  /** Deleting twice deletes nothing more. */
  lemma RemoveByIdIdempotent<T(!new)>(items: seq<T>, idOf: T -> string, id: string)
    ensures RemoveById(RemoveById(items, idOf, id), idOf, id) == RemoveById(items, idOf, id)
  {
    RemoveByIdKeeps(items, idOf, id);
    RemoveByIdNothing(RemoveById(items, idOf, id), idOf, id);
  }

  datatype ItemKind = AccountItem | IncomeItem | ExpenseItem | TransferItem

  function AccountIdOf(a: Account): string { a.id }
  function IncomeIdOf(x: Income): string { x.id }
  function ExpenseIdOf(x: Expense): string { x.id }
  function TransferIdOf(x: Transfer): string { x.id }

  /** `deleteCurrentItem` once confirmed: the list of the edited kind is
      filtered by the edited id, and the other three lists stay as they are. */
  function DeleteItem(fm: FinancialModel, kind: ItemKind, id: string): (r: FinancialModel)
    ensures kind == AccountItem ==>
      r.incomes == fm.incomes && r.expenses == fm.expenses && r.transfers == fm.transfers &&
      r.accounts == RemoveById(fm.accounts, AccountIdOf, id) &&
      forall a :: a in r.accounts <==> a in fm.accounts && a.id != id
    ensures kind == IncomeItem ==>
      r.accounts == fm.accounts && r.expenses == fm.expenses && r.transfers == fm.transfers &&
      r.incomes == RemoveById(fm.incomes, IncomeIdOf, id) &&
      forall x :: x in r.incomes <==> x in fm.incomes && x.id != id
    ensures kind == ExpenseItem ==>
      r.accounts == fm.accounts && r.incomes == fm.incomes && r.transfers == fm.transfers &&
      r.expenses == RemoveById(fm.expenses, ExpenseIdOf, id) &&
      forall x :: x in r.expenses <==> x in fm.expenses && x.id != id
    ensures kind == TransferItem ==>
      r.accounts == fm.accounts && r.incomes == fm.incomes && r.expenses == fm.expenses &&
      r.transfers == RemoveById(fm.transfers, TransferIdOf, id) &&
      forall x :: x in r.transfers <==> x in fm.transfers && x.id != id
  {
    RemoveByIdKeeps(fm.accounts, AccountIdOf, id);
    RemoveByIdKeeps(fm.incomes, IncomeIdOf, id);
    RemoveByIdKeeps(fm.expenses, ExpenseIdOf, id);
    RemoveByIdKeeps(fm.transfers, TransferIdOf, id);
    match kind
    case AccountItem => fm.(accounts := RemoveById(fm.accounts, AccountIdOf, id))
    case IncomeItem => fm.(incomes := RemoveById(fm.incomes, IncomeIdOf, id))
    case ExpenseItem => fm.(expenses := RemoveById(fm.expenses, ExpenseIdOf, id))
    case TransferItem => fm.(transfers := RemoveById(fm.transfers, TransferIdOf, id))
  }
}

# Budget projection model

A Dafny model of the cash-flow engine of a single-page personal budget
dashboard (`script.js`). The dashboard keeps a financial model with four lists:

- accounts (checking, savings, investment), each with a current balance;
- incomes, each paid into an account, with raises scheduled by month;
- expenses, each paid from an account. An expense is fixed, a percentage of the
  month's income, or an amortized loan with a start month and a term;
- transfers between two accounts, with new amounts scheduled by month.

`generateMonthlyProjections` runs the model forward month by month from the
current month. For each month it does the following, in order:

1. It applies the raises and increases dated that month to working copies of
   the incomes and transfers.
2. It adds up the income and the expenses.
3. It deposits the incomes, charges the expenses and moves the transfers. These
   update, in turn, one copy of the previous month's balances, and each ignores
   any account that is not in the map.
4. It records the month.

`calculateAmortizedPayment` gives the fixed monthly payment of a loan. The
dashboard then derives these figures from the projection:

- the horizon title;
- the savings rate;
- the per-account balance changes and the total;
- the alerts;
- each account's chart colour.

Deleting an item filters it out of its list by id.

The modules are:

| module | what it holds |
|---|---|
| `Common` | `Option` |
| `Text` | decimal digits |
| `Calendar` | year-months and their `YYYY-MM` keys |
| `Amortization` | the loan payment and the balance it pays down |
| `Finance` | the data model |
| `Ledger` | the balance map and its single update |
| `Projection` | the engine, as functions and as the loop methods proved equal to them |
| `ProjectionProperties` | what a run computes |
| `Dashboard` | the derived figures |

## Model

| member | source | states |
|---|---|---|
| Projection.GenerateMonthlyProjections | script.js:628-728 | Emits exactly `max(monthsToProject, 0)` records. The records are the month-by-month reference run `Projected`, which `ProjectionProperties` characterises. |
| Projection.ProjectMonth | script.js:642-725 | One loop iteration. From the working incomes, transfers and balances at the start of month `i`, it yields month `i`'s record. It also yields the working lists and balances that month `i + 1` starts from. |
| Projection.InitBalances | script.js:636-640 | The loop over the accounts builds the opening balance map `InitialBalances`. |
| Projection.InitialBalances | script.js:636-640 | The opening map has exactly the account ids as keys. Each id maps to the balance of the last account carrying it. |
| Projection.FirstMatch | script.js:649-660 | `.find` on a raise or increase schedule. It gives the index of the first entry dated with the month key, or reports that no entry carries that date. |
| Projection.RaiseIncome | script.js:650-653 | One income's raise for one month. `ProjectionProperties.RaiseGrows` states its effect on the amount, and `RaisedKeepsFields` states that nothing else changes. |
| Projection.IncreaseTransfer | script.js:656-659 | One transfer's increase for one month. `ProjectionProperties.TransferKeepsAmount` and `TransferTakesLatestIncrease` state its effect over a run, and `IncreasedKeepsFields` states that only the amount changes. |
| Projection.TotalIncome | script.js:663 | The month's income total. `ProjectionProperties.TotalOfCompounded` and `RecordIncome` state its value over a run. |
| Projection.ExpenseAmount | script.js:668-679 | What one expense costs in a month. The same function is used for the total and for the charge (script.js:693-703). `ProjectionProperties.LoanWindow` states the loan case. |
| Projection.TotalExpenses | script.js:666-680 | The month's expense total. `ProjectionProperties.ExpensesAffineInIncome` states how it depends on the income, and `AllCharged` ties it to the charges. |
| Projection.BalancesBefore | script.js:684-725 | The balances a month starts from. `ProjectionProperties.OpeningIsCarried` and `BalanceKeysStable` describe them. |
| Projection.RecordAt | script.js:718-724 | Month `i`'s record. `ProjectionProperties.RecordShape`, `RecordIncome`, `MonthConservation` and `NetFlowMovesTotal` describe it. |
| Projection.ApplyRaises | script.js:649-654 | Keeps the length. Each income is raised independently of the others. |
| Projection.RaiseIncomes | script.js:649-654 | The loop over the working incomes computes `ApplyRaises` for the month key. |
| Projection.ApplyIncreases | script.js:655-660 | Keeps the length. Each transfer is updated independently of the others. |
| Projection.IncreaseTransfers | script.js:655-660 | The loop over the working transfers computes `ApplyIncreases` for the month key. |
| Projection.SumIncomes | script.js:663 | The reduce over the working incomes is their total, `TotalIncome`. |
| Projection.SumExpenses | script.js:666-680 | The loop over the expenses is their total for the month and the month's income. |
| Projection.DepositAll | script.js:684-689 | The loop depositing every income gives `DepositIncomes` of the previous balances. |
| Projection.ChargeAll | script.js:691-706 | The loop charging every expense gives `ChargeExpenses` of the balances. |
| Projection.TransferAll | script.js:708-715 | The loop moving every transfer gives `ApplyTransfers` of the balances. |
| Projection.DepositIncomes | script.js:685-689 | Deposits never add or remove an account. |
| Projection.ChargeExpenses | script.js:691-706 | Charges never add or remove an account. |
| Projection.MoveTransfer | script.js:708-715 | A transfer never adds or removes an account. |
| Projection.ApplyTransfers | script.js:708-715 | Transfers never add or remove an account. |
| Projection.MonthBalances | script.js:684-715 | A month's balance update keeps the account set. |
| Projection.RunKeys | script.js:642-646 | The run visits one month key per month. |
| Projection.SchedulesStep | script.js:649-660 | The working incomes and transfers of month `i + 1` are month `i`'s with month `i`'s raises and increases applied on top. |
| Projection.ProjectedStep | script.js:718-725 | The projection of `i + 1` months extends that of `i` months by month `i`'s record. |
| Ledger.Adjust | script.js:686-688 | Updating a balance keeps the key set. An unknown account is left untouched, with nothing added. A known account changes by exactly the delta, and every other account keeps its balance. |
| Ledger.MapSumAdjust | script.js:686-688 | Updating a known account moves the total of all balances by the delta. Updating an unknown one leaves the total as it was. |
| Calendar.AddMonths | script.js:643-644 | Stepping `k` months from the anchor advances the month index by `k`, rolling over years. |
| Calendar.NextMonthRollsOver | script.js:643-644 | The month after December is January of the next year. Any other month is followed by the next month of the same year. |
| Calendar.LoanMonth | script.js:675 | The loan month is the number of months from the loan's start to the projected month. It is negative before the start. |
| Calendar.MonthKey | script.js:646 | The key is three characters longer than the year's digits. Its format is pinned down by `MonthKeyRoundTrip`. |
| Calendar.MonthKeyRoundTrip | script.js:646 | The `YYYY-MM` key with a zero-padded month parses back to the same year and month. |
| Calendar.MonthKeyInjective | script.js:646 | Different months have different keys. |
| Calendar.MonthKeysDistinct | script.js:642-646 | The months of one run have pairwise different keys, so a scheduled date can match in at most one month of a run. |
| Text.DecimalString | script.js:646 | A number's decimal form is non-empty and made of digits, with no leading zero. |
| Text.DecimalRoundTrip | script.js:646 | A number's decimal form reads back as that number. |
| Amortization.MonthlyRate | script.js:736 | The monthly rate times 1200 is the yearly percentage. |
| Amortization.RoundCents | script.js:741 | Rounding to cents moves the value by at most half a cent and gives a whole number of cents. |
| Amortization.Annuity | script.js:740 | The exact payment satisfies the annuity equation `payment·(g − 1) = P·r·g`, where `g = (1 + r)^n`. |
| Amortization.CalculateAmortizedPayment | script.js:735-742 | There is no finite payment in exactly two cases: a zero rate over a zero term, or a growth factor of exactly 1. A zero rate gives `principal / (12·term)`. A zero term at a nonzero rate gives 0. Otherwise the result is within half a cent of the exact annuity, in whole cents. |
| Amortization.EqualPaymentsRetire | script.js:738 | Without interest, `n` payments of `principal / n` leave nothing owed. |
| Amortization.RemainingClosedForm | script.js:740 | Closed form of the balance still owed after `k` months of interest and payment. |
| Amortization.AnnuityRetires | script.js:740 | The exact annuity payment leaves nothing owed after the last month. |
| Amortization.PaymentRetiresLoan | script.js:735-742 | A finite payment pays the loan off over the term. At a zero rate this is exact. Otherwise the payment is within half a cent of the exact annuity, which leaves nothing owed. |
| ProjectionProperties.OpeningIsCarried | script.js:636-725 | Each month starts from the balances the previous month ended with. The first month starts from the account balances. |
| ProjectionProperties.RecordShape | script.js:642-724 | Record `i` is the month `i` months after the anchor. Its net flow is income minus expenses. Its expenses are the expense total for that month at that month's income. |
| ProjectionProperties.BalanceKeysStable | script.js:684-725 | Every month's balances have exactly the account ids as keys. |
| ProjectionProperties.RunKeysDistinct | script.js:642-646 | No month key repeats within a run. |
| ProjectionProperties.RunKeyAt | script.js:646 | The `i`-th key of a run is the key of the `i`-th month after the anchor. |
| ProjectionProperties.RaisedPointwise | script.js:649-654 | Each working income depends only on its own source income. |
| ProjectionProperties.RaisedKeepsFields | script.js:652 | Raises change an income's amount and nothing else. |
| ProjectionProperties.RaiseGrows | script.js:650-653 | A month multiplies the amount by `1 + p/100`. Here `p` is the percentage of the first raise dated that month, or 0 when no raise is dated that month. |
| ProjectionProperties.IncomeCompounds | script.js:649-654 | After a run of months, an income's amount is the source amount compounded by every matching raise, each on top of the last. |
| ProjectionProperties.TotalOfCompounded | script.js:663 | The month's income total is the sum of the compounded amounts. |
| ProjectionProperties.RunIncome | script.js:633-654 | At the start of any month, the working income is the source income with only its amount compounded. The source incomes themselves are never changed. |
| ProjectionProperties.RecordIncome | script.js:663 | Record `i`'s income is the total of every income compounded through months `0..i`. |
| ProjectionProperties.IncreasedPointwise | script.js:655-660 | Each working transfer depends only on its own source transfer. |
| ProjectionProperties.IncreasedKeepsFields | script.js:658 | Increases change a transfer's amount and nothing else. |
| ProjectionProperties.TransferKeepsAmount | script.js:655-660 | A transfer with no increase dated in the run keeps its original amount. |
| ProjectionProperties.TransferTakesLatestIncrease | script.js:655-660 | A transfer's amount is that of the increase from the latest month that had one. Increases replace the amount rather than accumulate. |
| ProjectionProperties.LoanWindow | script.js:672-678 | A loan with no start month or a zero term costs nothing. Otherwise it costs the amortized payment in the `12·term` months from its start, and nothing outside them. |
| ProjectionProperties.ExpensesAffineInIncome | script.js:666-680 | The expense total is its value at zero income plus the income times the summed percentages over 100. |
| ProjectionProperties.DepositsTotal | script.js:685-689 | Deposits raise the total of all balances by the incomes paid into known accounts. |
| ProjectionProperties.ChargesTotal | script.js:691-706 | Charges lower the total by the expenses paid from known accounts. |
| ProjectionProperties.TransfersTotal | script.js:708-715 | Transfers move the total by what enters known accounts minus what leaves them. |
| ProjectionProperties.TransfersNetZero | script.js:708-715 | Transfers between known accounts leave the total unchanged. |
| ProjectionProperties.MonthConservation | script.js:684-715 | A month's closing total is its opening total, plus known deposits, minus known charges, plus the transfer imbalance. |
| ProjectionProperties.AllDeposited | script.js:685-689 | When every income goes to a known account, the known deposits are the whole income. |
| ProjectionProperties.AllCharged | script.js:691-706 | When every expense comes from a known account, the known charges are the whole expense total. |
| ProjectionProperties.RaisedDepositsKnown | script.js:649-654 | Raises never redirect an income to another account. |
| ProjectionProperties.IncreasedLegsKnown | script.js:655-660 | Increases never redirect a transfer. |
| ProjectionProperties.NetFlowMovesTotal | script.js:684-722 | When every reference names a known account, a month's closing total is its opening total plus its recorded net flow. |
| ProjectionProperties.DepositingTo | script.js:686 | Keeps exactly the incomes paid into a known account. |
| ProjectionProperties.UnknownDepositsIgnored | script.js:685-689 | Incomes paid into unknown accounts have no effect: depositing all of them equals depositing only those going to known accounts. |
| ProjectionProperties.ChargingTo | script.js:692 | Keeps exactly the expenses paid from a known account. |
| ProjectionProperties.UnknownChargesIgnored | script.js:691-706 | Expenses paid from unknown accounts have no effect on the balances. |
| ProjectionProperties.TransferLegsIndependent | script.js:708-715 | Each leg of a transfer is applied only if its own account is known. A transfer with one unknown leg still moves money on the other leg. |
| ProjectionProperties.TransferMovesAmount | script.js:708-715 | A transfer takes its amount from the source account and adds it to the destination. Any other account is unchanged, and an account that is both source and destination nets to zero. |
| Dashboard.TruncatedRemainder12 | script.js:82 | The remainder keeps the sign of the dividend, and the dividend minus it is a multiple of 12. This is JavaScript's `%`. |
| Dashboard.HorizonLabel | script.js:80-91 | The horizon title. `HorizonForms`, `HorizonRoundTrip` and `HorizonPlural` describe it. |
| Dashboard.MixedLabel | script.js:85-86 | The mixed `Nyr Mmo` title. `MixedRoundTrip` states that it reads back. |
| Dashboard.CountLabel | script.js:87-90 | A count with its unit, plural above one. `YearsRoundTrip`, `MonthsRoundTrip` and `HorizonPlural` describe it. |
| Dashboard.HorizonForms | script.js:81-91 | Which of the three forms a horizon's title takes. A whole number of years of at least one shows years only. Fewer than twelve months shows months only. Anything else shows both. |
| Dashboard.HorizonRoundTrip | script.js:80-91 | Every horizon title reads back as its number of months. This covers the mixed form `Nyr Mmo`, whole years and bare months. |
| Dashboard.MixedRoundTrip | script.js:85-86 | The mixed title reads back as `12·years + months`. |
| Dashboard.YearsRoundTrip | script.js:87-88 | The years title reads back as `12·years`. |
| Dashboard.MonthsRoundTrip | script.js:89-90 | The months title reads back as the months. |
| Dashboard.HorizonPlural | script.js:84-91 | The title ends in `s` exactly when the horizon is a whole number of years greater than one, or between 2 and 11 months. |
| Dashboard.SavingsRate | script.js:446-448 | When the first month has positive income, the rate times that income is 100 times the month's net flow. With no projection, or no positive income, the rate is 0. |
| Dashboard.SavingsRateMeaning | script.js:446-448 | With positive income, three things hold. The rate is positive exactly when the net flow is. It is 100 exactly when there are no expenses. It is at most 100 exactly when expenses are not negative. |
| Dashboard.TotalNow | script.js:493 | The sum of the current balances. `StartingTotal` ties it to the opening balance map. |
| Dashboard.TotalProjected | script.js:476-494 | The sum of the projected balances of the accounts, in list order. `TotalOfMap` and `ChangesAddUp` describe it. |
| Dashboard.TotalOfMap | script.js:494 | With distinct ids, the projected total is the total of the balance map. |
| Dashboard.CardsFor | script.js:471-492 | One card per account, in list order. `CardAt` and `ChangesAddUp` describe the cards. |
| Dashboard.CardAt | script.js:476-477 | The `i`-th card is the card of the `i`-th account. |
| Dashboard.ChangesAddUp | script.js:493-500 | The per-account changes add up to the total change. |
| Dashboard.SummarizeBalances | script.js:465-500 | Shows nothing for an empty projection. Otherwise it gives one card per account against the last month's balances, with the current and projected totals. Its total change is the sum of the card changes. |
| Dashboard.ProjectionCoversAccounts | script.js:476 | The last projected month has a balance for every account, so no card looks up a missing balance. |
| Dashboard.TotalChangeIsNetFlow | script.js:493-500 | Requires distinct ids and references to known accounts only. Under those conditions the total change in assets over the horizon is the sum of the monthly net flows. |
| Dashboard.TotalAfterMonths | script.js:684-725 | After `i + 1` months, the total of all balances is the opening total plus the net flows so far. |
| Dashboard.StartingTotal | script.js:493 | With distinct ids, the sum of the current balances is the total of the opening balance map. |
| Dashboard.LiquidAssets | script.js:520-522 | The sum of the checking and savings balances. `LiquidAssetsIgnoreInvestments` states what it depends on. |
| Dashboard.LiquidAssetsIgnoreInvestments | script.js:520-522 | Liquid assets depend only on the checking and savings accounts and their balances. |
| Dashboard.FirstMonthExpenses | script.js:518 | The definition of the first month's expenses, or 0 when there is no projection. `RenderAlerts` states the emergency-fund alert in terms of it. |
| Dashboard.CountNegative | script.js:529 | The count is at most the horizon. It is 0 exactly when no month has a negative net flow. It equals the horizon exactly when every month does. |
| Dashboard.RenderAlerts | script.js:515-537 | The low-fund alert appears exactly when liquid assets are below three months of first-month expenses, and then it comes first. The negative-flow alert, with its count, appears exactly when some month is negative. All-clear appears exactly when neither fires. There are two alerts only when both fire. |
| Dashboard.ChartColors | script.js:744-749 | Every account id gets a colour, and nothing else does. |
| Dashboard.ChartColorAt | script.js:747-749 | The account at position `i` gets palette colour `i mod 7`, unless a later account has the same id. |
| Dashboard.NearbyAccountsDiffer | script.js:745-749 | With distinct ids, any two accounts fewer than seven positions apart get different colours. |
| Dashboard.PaletteDistinct | script.js:745 | The seven palette colours are pairwise different. |
| Dashboard.RemoveById | script.js:287 | The filter never grows the list. The lemmas below state what it keeps. |
| Dashboard.RemoveByIdCounts | script.js:287 | Every item whose id differs is kept as often as it occurred, and no item with the id is kept. |
| Dashboard.RemoveByIdKeeps | script.js:287 | An item is kept exactly when it was in the list and its id differs. |
| Dashboard.RemoveByIdNothing | script.js:287 | With no item carrying the id, the list is unchanged. |
| Dashboard.RemoveByIdAppend | script.js:287 | Filtering a concatenation gives the filtered first part followed by the filtered second part. So the kept items stay in their order, and chart colours and cards follow them by position. |
| Dashboard.RemoveByIdIdempotent | script.js:287 | Deleting the same id twice is the same as deleting it once. |
| Dashboard.DeleteItem | script.js:284-294 | The list of the edited kind becomes that list filtered by the id: `RemoveById`, with order and repeats kept. Its members are exactly the old ones with a different id. The other three lists are unchanged. |

## Left out

- Rendering is not modelled: the DOM, the Chart.js charts, the projections table, the edit forms and the modals. The dashboard functions are modelled only as the figures they compute.
- Import and export of the financial model as JSON, and the sample data, are not modelled.
- Ids and account references that name members of JavaScript's `Object.prototype` are not modelled. Examples are `toString`, `constructor`, `valueOf` and `__proto__`. The balance and colour dictionaries are plain objects (script.js:637, 746), so for such ids the `!== undefined` tests at script.js:686, 692, 709 and 712 see an inherited member, and an assignment to `__proto__` is ignored. The model treats balances and colours as true maps, keyed by the ids that were assigned. The dashboard itself generates ids of the form `acc<timestamp>` (script.js:208), so only an imported model can carry such ids.
- The clock: `new Date()` becomes the `anchor` parameter, a year and month. `setMonth`'s day-of-month overflow and time zones are not modelled, because only year and month are kept.
- The locale month label (`monthLabel`) is not modelled. Each record carries its year-month instead.
- Numbers are exact reals, not IEEE doubles. Rounding error, `NaN`, `Infinity` and `parseFloat` coercion of form input are not modelled.
- An amortized loan's term is a natural number of years. Fractional or negative terms are not modelled.
- Projection.GenerateMonthlyProjections: requires every loan with a start month and a nonzero term to have a finite payment (`PaymentsFinite`). Such a loan is excluded even when its window falls outside the projected months. Without a finite payment, the source divides by zero and its balances become `Infinity` or `NaN`. `Amortization.CalculateAmortizedPayment` returns `None` in exactly those cases.
- Expense types other than fixed, percentage and amortized are not modelled. The source ignores them in the total and charges 0 for them.
- A loan start date that does not parse as a month is not modelled. It is modelled as a present or absent year-month.
- Schedules that an income or transfer does not have (`raises || []`) are modelled as empty sequences.
- Dashboard.SummarizeBalances: requires the last month's balances to cover every account. For an uncovered account, the source's `projectedBalance.toLocaleString` on `undefined` (script.js:488) throws a `TypeError` and stops the render. `Dashboard.ProjectionCoversAccounts` proves this holds for every projection the engine produces.
- Dashboard.RenderAlerts: models the alerts' kinds and figures, not their message text or styling.
- Dashboard.HorizonRoundTrip: covers horizons of zero or more months. The title of a negative horizon is defined but is not parsed back.
- Dashboard.DeleteItem: does not model the edit state, the confirmation prompt or the re-rendering that follow a deletion. The `accountColorMap` global is modelled as the value `ChartColors` returns.

/**
 * The summary cards: income, expenses, balance and savings rate of the
 * current period, each compared with the previous period; the period is the
 * last seven days against the seven before, or this month against the last.
 */
module FinancialSummary {
  import opened Wrappers
  import opened Sums
  import opened Time
  import opened Records

  datatype ChangeKind = Positive | Negative | Neutral

  datatype Change = Change(text: string, kind: ChangeKind)

  /** One card; `fix(x, d)` stands for `x.toFixed(d)`. */
  datatype Metric = Metric(caption: string, value: string, change: Option<Change>, icon: string)

  /** Percentage change from `previous` to `current`, 0 when `previous` is not positive. */
  function PercentChange(current: real, previous: real): (r: real)
    ensures previous <= 0.0 ==> r == 0.0
    ensures previous > 0.0 ==> (r > 0.0 <==> current > previous)
    ensures previous > 0.0 ==> (r < 0.0 <==> current < previous)
  {
    if previous > 0.0 then
      var r := (current - previous) / previous * 100.0;
      assert r * previous == (current - previous) * 100.0;
      ScaleCompare(r, 0.0, previous);
      r
    else 0.0
  }

  /** 'positive' above zero, 'negative' below, 'neutral' at zero. */
  function KindOf(x: real): (k: ChangeKind)
    ensures k == Positive <==> x > 0.0
    ensures k == Negative <==> x < 0.0
  {
    if x > 0.0 then Positive else if x < 0.0 then Negative else Neutral
  }

  /** The expense card reads the sign the other way round: spending less is 'positive'. */
  function InvertedKindOf(x: real): (k: ChangeKind)
    ensures k == Positive <==> x < 0.0
    ensures k == Negative <==> x > 0.0
  {
    if x < 0.0 then Positive else if x > 0.0 then Negative else Neutral
  }

  /** A leading '+' for a non-negative change. */
  function Sign(x: real): string {
    if x >= 0.0 then "+" else ""
  }

  /** 🎯 above 20 %, ⚡ above 10 %, ⚠️ otherwise. */
  function SavingsIcon(rate: real): (icon: string)
    ensures icon == "🎯" <==> rate > 20.0
    ensures icon == "⚡" <==> 10.0 < rate <= 20.0
  {
    if rate > 20.0 then "🎯" else if rate > 10.0 then "⚡" else "⚠️"
  }

  /** `calculateFinancialMetrics`: the four cards, in the order Receita, Gastos, Saldo, Taxa de Poupança. */
  function CalculateMetrics(current: seq<Transaction>, previous: seq<Transaction>, fix: (real, nat) -> string): (r: seq<Metric>)
    ensures |r| == 4
    ensures r[0].caption == "Receita" && r[1].caption == "Gastos" && r[2].caption == "Saldo" && r[3].caption == "Taxa de Poupança"
    ensures r[0].value == "R$ " + fix(Income(current), 2) && r[1].value == "R$ " + fix(Expenses(current), 2)
    ensures r[2].value == "R$ " + fix(Income(current) - Expenses(current), 2)
    ensures r[0].change.Some? && r[1].change.Some? && r[2].change.Some? && r[3].change.None?
    ensures r[0].change.value.kind == Positive <==> Income(previous) > 0.0 && Income(current) > Income(previous)
    ensures r[0].change.value.kind == Negative <==> Income(previous) > 0.0 && Income(current) < Income(previous)
    ensures r[1].change.value.kind == Positive <==> Expenses(previous) > 0.0 && Expenses(current) < Expenses(previous)
    ensures r[1].change.value.kind == Negative <==> Expenses(previous) > 0.0 && Expenses(current) > Expenses(previous)
    ensures r[2].change.value.kind == Positive
        <==> Income(current) - Expenses(current) > Income(previous) - Expenses(previous)
    ensures r[2].change.value.kind == Negative
        <==> Income(current) - Expenses(current) < Income(previous) - Expenses(previous)
    ensures r[2].icon == "📈" <==> Income(current) >= Expenses(current)
    ensures r[3].icon == "🎯" <==> Income(current) > 0.0 && (Income(current) - Expenses(current)) * 100.0 > 20.0 * Income(current)
  {
    var income := Income(current);
    var expenses := Expenses(current);
    var balance := income - expenses;
    var rate := SavingsRate(income, expenses);
    var previousIncome := Income(previous);
    var previousExpenses := Expenses(previous);
    var incomeChange := PercentChange(income, previousIncome);
    var expenseChange := PercentChange(expenses, previousExpenses);
    var balanceChange := balance - (previousIncome - previousExpenses);
    SavingsAbove(income, expenses, 20.0);
    [ Metric("Receita", "R$ " + fix(income, 2),
        Some(Change(Sign(incomeChange) + fix(incomeChange, 1) + "%", KindOf(incomeChange))), "💰"),
      Metric("Gastos", "R$ " + fix(expenses, 2),
        Some(Change(Sign(expenseChange) + fix(expenseChange, 1) + "%", InvertedKindOf(expenseChange))), "💸"),
      Metric("Saldo", "R$ " + fix(balance, 2),
        Some(Change(Sign(balanceChange) + "R$ " + fix(balanceChange, 2), KindOf(balanceChange))),
        if balance >= 0.0 then "📈" else "📉"),
      Metric("Taxa de Poupança", fix(rate, 1) + "%", None, SavingsIcon(rate))
    ]
  }

  /** The rate exceeds `k` exactly when income is positive and the balance exceeds `k` % of income. */
  lemma SavingsAbove(income: real, expenses: real, k: real)
    requires k >= 0.0
    ensures SavingsRate(income, expenses) > k <==> income > 0.0 && (income - expenses) * 100.0 > k * income
  {
    if income > 0.0 {
      SavingsRateCompare(income, expenses, k);
    }
  }

  /** Seven days in milliseconds (`setDate(getDate() - 7)` without a daylight-saving shift). */
  const WeekMs: int := 7 * DayMs

  /** The week view's current period: dated at or after one week ago. */
  function CurrentWeek(list: seq<Transaction>, now: int): seq<Transaction> {
    Filter(list, (t: Transaction) => t.date >= now - WeekMs)
  }

  /** The week view's previous period: from two weeks ago up to, not including, one week ago. */
  function PreviousWeek(list: seq<Transaction>, now: int): seq<Transaction> {
    Filter(list, (t: Transaction) => now - 2 * WeekMs <= t.date < now - WeekMs)
  }

  /** The two weeks share no transaction, and together they hold exactly the transactions of the last fourteen days. */
  lemma WeeksPartition(list: seq<Transaction>, now: int)
    ensures forall t :: !(t in CurrentWeek(list, now) && t in PreviousWeek(list, now))
    ensures forall t :: t in CurrentWeek(list, now) || t in PreviousWeek(list, now) <==> t in list && t.date >= now - 2 * WeekMs
  {
    FilterMembers(list, (t: Transaction) => t.date >= now - WeekMs);
    FilterMembers(list, (t: Transaction) => now - 2 * WeekMs <= t.date < now - WeekMs);
  }

  /** The week view's current income and expense totals add up to the amounts of the current week. */
  lemma WeekTotals(list: seq<Transaction>, now: int)
    ensures Income(CurrentWeek(list, now)) + Expenses(CurrentWeek(list, now)) == Sum(CurrentWeek(list, now), Amount)
  {
    IncomeExpensesSplit(CurrentWeek(list, now));
  }

  /** The month view compares with the previous calendar month, which for January is December of the year before. */
  lemma PreviousOfJanuary(year: int)
    ensures PreviousMonth(1, year) == (12, year - 1)
    ensures forall m :: 2 <= m <= 12 ==> PreviousMonth(m, year) == (m - 1, year)
  {
  }
}

/**
 * The insight cards of the home page: month-over-month spending trend, the
 * largest expense category, and the savings rate; at most three cards.
 */
module SmartInsights {
  import opened Wrappers
  import opened Sums
  import opened Records

  datatype Trend = Up | Down | Flat

  datatype Color = Success | Warning | Danger | Info

  /** One card; `fix(x, d)` stands for `x.toFixed(d)`. */
  datatype Insight = Insight(icon: string, title: string, description: string, value: string, trend: Trend, color: Color)

  /** The spending comparison: a card only when last month's expenses are positive and changed by more than 5 %. */
  function ComparisonInsight(current: real, last: real, fix: (real, nat) -> string): Option<Insight> {
    if last > 0.0 then
      var change := PercentOf(current - last, last);
      if change > 5.0 then Some(RisingCard(change, current - last, fix))
      else if change < -5.0 then Some(FallingCard(change, current - last, fix))
      else None
    else None
  }

  /** The card for spending that grew by `change` percent, `difference` in money. */
  function RisingCard(change: real, difference: real, fix: (real, nat) -> string): Insight {
    Insight("📈", "Gastos em Alta",
      "Seus gastos aumentaram " + fix(change, 1) + "% em relação ao mês passado",
      "+R$ " + fix(difference, 2), Up, Warning)
  }

  /** The card for spending that fell by `change` percent, `difference` in money. */
  function FallingCard(change: real, difference: real, fix: (real, nat) -> string): Insight {
    Insight("📉", "Gastos Reduzidos",
      "Parabéns! Você economizou " + fix(Abs(change), 1) + "% este mês",
      "-R$ " + fix(Abs(difference), 2), Down, Color.Success)
  }

  /**
   * The comparison card exists only when last month's expenses are
   * positive; it reads 'up' (in warning colour) when this month's expenses
   * grew by more than 5 %, 'down' when they fell by more than 5 %, and there
   * is no card in between.
   */
  lemma ComparisonTrend(current: real, last: real, fix: (real, nat) -> string)
    ensures ComparisonInsight(current, last, fix).Some? ==> last > 0.0
    ensures ComparisonInsight(current, last, fix).Some? && ComparisonInsight(current, last, fix).value.trend == Up
      <==> last > 0.0 && (current - last) * 100.0 > 5.0 * last
    ensures ComparisonInsight(current, last, fix).Some? && ComparisonInsight(current, last, fix).value.trend == Down
      <==> last > 0.0 && (current - last) * 100.0 < -5.0 * last
    ensures ComparisonInsight(current, last, fix).Some? ==> ComparisonInsight(current, last, fix).value.trend != Flat
    ensures ComparisonInsight(current, last, fix).Some?
      ==> (ComparisonInsight(current, last, fix).value.color == Warning <==> ComparisonInsight(current, last, fix).value.trend == Up)
  {
    var r := ComparisonInsight(current, last, fix);
    if last > 0.0 {
      var change := PercentOf(current - last, last);
      PercentCompare(current - last, last, 5.0);
      PercentCompare(current - last, last, -5.0);
      if change > 5.0 {
        assert r == Some(RisingCard(change, current - last, fix));
      } else if change < -5.0 {
        assert r == Some(FallingCard(change, current - last, fix));
      } else {
        assert r.None?;
      }
    }
  }

  /** The largest-category card: the first largest expense entry, with its share of the month's expenses. */
  function TopCategoryInsight(bd: seq<Entry>, expenses: real, fix: (real, nat) -> string): Option<Insight> {
    match TopExpense(bd)
    case None => None
    case Some(i) => Some(TopCard(bd[i], expenses, fix))
  }

  /** The card for the entry `top`. */
  function TopCard(top: Entry, expenses: real, fix: (real, nat) -> string): Insight {
    var share := PercentOf(top.total, expenses);
    Insight("🎯", "Maior Categoria de Gasto",
      top.title + " representa " + fix(share, 1) + "% dos seus gastos",
      "R$ " + fix(top.total, 2), Flat, if share > 40.0 then Warning else Info)
  }

  /**
   * The largest-category card is present exactly when some entry is an
   * expense; it shows the largest expense total and is coloured 'warning'
   * exactly when that total is more than 40 % of the month's expenses.
   */
  lemma TopCategoryColor(bd: seq<Entry>, expenses: real, fix: (real, nat) -> string)
    ensures TopCategoryInsight(bd, expenses, fix).Some? <==> exists i :: 0 <= i < |bd| && bd[i].isExpense
    ensures TopCategoryInsight(bd, expenses, fix).Some?
      ==> TopCategoryInsight(bd, expenses, fix).value.value == "R$ " + fix(bd[TopExpense(bd).value].total, 2)
    ensures TopCategoryInsight(bd, expenses, fix).Some?
      ==> (TopCategoryInsight(bd, expenses, fix).value.color == Warning
           <==> expenses > 0.0 && bd[TopExpense(bd).value].total * 100.0 > 40.0 * expenses)
    ensures TopCategoryInsight(bd, expenses, fix).Some? ==> TopCategoryInsight(bd, expenses, fix).value.color in {Warning, Info}
  {
    if TopExpense(bd).Some? {
      TopCardColor(bd[TopExpense(bd).value], expenses, fix);
    }
  }

  lemma TopCardColor(top: Entry, expenses: real, fix: (real, nat) -> string)
    ensures TopCard(top, expenses, fix).value == "R$ " + fix(top.total, 2)
    ensures TopCard(top, expenses, fix).color == Warning <==> expenses > 0.0 && top.total * 100.0 > 40.0 * expenses
    ensures TopCard(top, expenses, fix).color in {Warning, Info}
  {
    PercentAbove(top.total, expenses, 40.0);
  }

  /** The savings card: present when income is positive, coloured by the savings rate. */
  function SavingsInsight(income: real, expenses: real, fix: (real, nat) -> string): Option<Insight> {
    if income > 0.0 then Some(SavingsCard(SavingsRate(income, expenses), fix)) else None
  }

  /** The savings card for the rate `rate`. */
  function SavingsCard(rate: real, fix: (real, nat) -> string): Insight {
    var text := fix(rate, 1) + "%";
    if rate < 0.0 then
      Insight("⚠️", "Atenção: Gastos > Receita", "Seus gastos excedem sua receita este mês", text, Flat, Danger)
    else if rate < 10.0 then
      Insight("💰", "Taxa de Poupança Baixa", "Tente poupar pelo menos 20% da sua receita", text, Flat, Warning)
    else
      Insight("🎉", "Ótima Taxa de Poupança", "Você está poupando bem! Continue assim", text, Flat, Color.Success)
  }

  /**
   * The savings card is present exactly when income is positive; it is
   * 'danger' when expenses exceed income, 'warning' when less than 10 % of
   * the income is saved, and 'success' otherwise.
   */
  lemma SavingsColor(income: real, expenses: real, fix: (real, nat) -> string)
    ensures SavingsInsight(income, expenses, fix).Some? <==> income > 0.0
    ensures SavingsInsight(income, expenses, fix).Some?
      ==> (SavingsInsight(income, expenses, fix).value.color == Danger <==> expenses > income)
    ensures SavingsInsight(income, expenses, fix).Some?
      ==> (SavingsInsight(income, expenses, fix).value.color == Warning
           <==> expenses <= income && (income - expenses) * 100.0 < 10.0 * income)
    ensures SavingsInsight(income, expenses, fix).Some?
      ==> (SavingsInsight(income, expenses, fix).value.color == Color.Success <==> (income - expenses) * 100.0 >= 10.0 * income)
  {
    if income > 0.0 {
      SavingsRateCompare(income, expenses, 10.0);
    }
  }

  /** The cards that are present, in the order given. */
  function Present(cards: seq<Option<Insight>>): (r: seq<Insight>)
    ensures |r| <= |cards|
  {
    if cards == [] then []
    else Present(cards[..|cards| - 1]) + Pushed(cards[|cards| - 1])
  }

  /** The three candidate cards in push order. */
  function Candidates(current: seq<Transaction>, last: seq<Transaction>, fix: (real, nat) -> string): seq<Option<Insight>> {
    [ ComparisonInsight(Expenses(current), Expenses(last), fix),
      TopCategoryInsight(Breakdown(current), Expenses(current), fix),
      SavingsInsight(Income(current), Expenses(current), fix) ]
  }

  /**
   * `analyzeTransactions`: push the comparison, top-category and savings
   * cards that apply, in that order, and keep at most three. As there are
   * only three candidates, the cut never removes a card.
   */
  method AnalyzeTransactions(current: seq<Transaction>, last: seq<Transaction>, fix: (real, nat) -> string)
    returns (insights: seq<Insight>)
    ensures |insights| <= 3
    ensures insights == Present(Candidates(current, last, fix))
  {
    var currentExpenses := Expenses(current);
    var lastExpenses := Expenses(last);
    var currentIncome := Income(current);
    insights := [];
    var comparison := ComparisonInsight(currentExpenses, lastExpenses, fix);
    insights := PushIfPresent(insights, comparison);
    assert insights == Pushed(comparison);
    var categoryTotals := AccumulateBreakdown(current);
    var top := TopCategoryInsight(categoryTotals, currentExpenses, fix);
    insights := PushIfPresent(insights, top);
    var savings := SavingsInsight(currentIncome, currentExpenses, fix);
    insights := PushIfPresent(insights, savings);
    PresentThree(comparison, top, savings);
    assert insights == Present(Candidates(current, last, fix));
    assert |insights| <= 3;
    ghost var all := insights;
    var kept := if |insights| < 3 then |insights| else 3;
    assert kept == |all|;
    insights := insights[..kept];
    assert insights == all;
  }

  /** `if (card) insights.push(card)`. */
  method PushIfPresent(insights: seq<Insight>, card: Option<Insight>) returns (r: seq<Insight>)
    ensures r == insights + Pushed(card)
  {
    r := insights;
    if card.Some? {
      r := r + [card.value];
    }
  }

  /** Every card is backed by its trigger: a comparison needs last month's expenses, a savings card needs income. */
  lemma CardsNeedData(current: seq<Transaction>, last: seq<Transaction>, fix: (real, nat) -> string)
    ensures Expenses(last) <= 0.0 && Income(current) <= 0.0 && (forall t :: t in current ==> !t.category.isExpense)
        ==> Present(Candidates(current, last, fix)) == []
  {
    if forall t :: t in current ==> !t.category.isExpense {
      BreakdownEntries(current);
      NoExpenseEntries(current);
    }
    ComparisonTrend(Expenses(current), Expenses(last), fix);
    TopCategoryColor(Breakdown(current), Expenses(current), fix);
    SavingsColor(Income(current), Expenses(current), fix);
    var cs := Candidates(current, last, fix);
    PresentThree(cs[0], cs[1], cs[2]);
  }

  /** The card of an option, as a list of zero or one cards. */
  function Pushed(card: Option<Insight>): seq<Insight> {
    if card.Some? then [card.value] else []
  }

  lemma PresentThree(a: Option<Insight>, b: Option<Insight>, c: Option<Insight>)
    ensures Present([a, b, c]) == Pushed(a) + Pushed(b) + Pushed(c)
  {
    assert [a][..0] == [];
    assert Present([a]) == Pushed(a);
    assert [a, b][..1] == [a];
    assert Present([a, b]) == Pushed(a) + Pushed(b);
    assert [a, b, c][..2] == [a, b];
  }

  /** A list without expense transactions yields a dictionary without expense entries. */
  lemma NoExpenseEntries(list: seq<Transaction>)
    requires forall t :: t in list ==> !t.category.isExpense
    ensures forall i :: 0 <= i < |Breakdown(list)| ==> !Breakdown(list)[i].isExpense
  {
    BreakdownEntries(list);
    forall i | 0 <= i < |Breakdown(list)| ensures !Breakdown(list)[i].isExpense {
      var e := Breakdown(list)[i];
      FirstWithNameIn(list, e.name);
    }
  }

  /** The category `FirstWithName` reports belongs to a transaction of the list. */
  lemma {:induction false} FirstWithNameIn(list: seq<Transaction>, name: string)
    ensures FirstWithName(list, name).Some? ==> exists t :: t in list && t.category == FirstWithName(list, name).value
  {
    if list != [] {
      var n := |list| - 1;
      FirstWithNameIn(list[..n], name);
      if FirstWithName(list[..n], name).Some? {
        var t :| t in list[..n] && t.category == FirstWithName(list[..n], name).value;
        assert t in list;
      } else if list[n].category.name == name {
        assert list[n] in list;
      }
    }
  }
}

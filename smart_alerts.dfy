/**
 * The alert panel: rules over this month's transactions and the last seven
 * days of them (spending spike, nothing recorded today, possible duplicates,
 * weekend spending, the monthly budget, a random tip), minus the alerts the
 * user dismissed.
 */
module SmartAlerts {
  import opened Wrappers
  import opened Sums
  import opened Text
  import opened Time
  import opened Records

  datatype AlertType = WarningAlert | InfoAlert | SuccessAlert | TipKind

  datatype Alert = Alert(id: string, kind: AlertType, icon: string, title: string, message: string)

  const SpikeId: string := "spending-spike"
  const NoTransactionsTodayId: string := "no-transactions-today"
  const DuplicatesId: string := "duplicate-transactions"
  const WeekendId: string := "weekend-spending"
  const BudgetExceededId: string := "budget-almost-exceeded"
  const BudgetOnTrackId: string := "budget-on-track"
  const TipId: string := "smart-tip"

  /** The fixed monthly budget the milestone check measures against. */
  const MonthlyBudget: real := 3000.0

  const Tips: seq<string> := [
    "Considere definir um limite mensal para sua categoria de maior gasto.",
    "Que tal revisar assinaturas e serviços recorrentes?",
    "Experimente a regra 50/30/20: 50% necessidades, 30% desejos, 20% poupança.",
    "Use a técnica dos 24 horas: espere um dia antes de compras não essenciais.",
    "Considere usar dinheiro físico para categorias de maior gasto - ajuda a controlar."
  ]

  /** The month's transactions dated at or after one week before `now`. */
  function Recent(month: seq<Transaction>, now: int): seq<Transaction> {
    Filter(month, (t: Transaction) => t.date >= now - 7 * DayMs)
  }

  /** Rule 1: the last seven days' daily expense average exceeds 1.5 times the month's average per elapsed day. */
  function SpikeAlert(recent: seq<Transaction>, month: seq<Transaction>, now: int, fix: (real, nat) -> string): (r: Option<Alert>)
    ensures r.Some? ==> r.value.id == SpikeId
  {
    DateOfRange(now);
    var dailyAverage := Expenses(recent) / 7.0;
    var monthlyAverage := Expenses(month) / (DateOf(now) as real);
    if dailyAverage > monthlyAverage * 1.5 then Some(SpikeCard(Expenses(recent), fix)) else None
  }

  /** The spike alert fires exactly when twice the week's expenses times the day of the month exceed 21 times the month's. */
  lemma SpikeIff(recent: seq<Transaction>, month: seq<Transaction>, now: int, fix: (real, nat) -> string)
    ensures SpikeAlert(recent, month, now, fix).Some? <==> 2.0 * Expenses(recent) * (DateOf(now) as real) > 21.0 * Expenses(month)
  {
    DateOfRange(now);
    SpikeCondition(Expenses(recent), Expenses(month), DateOf(now) as real);
  }

  /** The spike alert's text, with the week's expenses. */
  function SpikeCard(spent: real, fix: (real, nat) -> string): (a: Alert)
    ensures a.id == SpikeId && a.kind == WarningAlert
  {
    Alert(SpikeId, WarningAlert, "⚡", "Gastos Acima da Média",
      "Você gastou R$ " + fix(spent, 2) + " nos últimos 7 dias, acima da sua média mensal.")
  }

  /** `a / 7 > b / day * 1.5`, with both sides multiplied by `14 * day`. */
  lemma SpikeCondition(a: real, b: real, day: real)
    requires day > 0.0
    ensures a / 7.0 > b / day * 1.5 <==> 2.0 * a * day > 21.0 * b
  {
    var lhs := a / 7.0;
    var rhs := b / day * 1.5;
    assert rhs * day == b * 1.5;
    assert lhs * (14.0 * day) == 2.0 * a * day;
    assert rhs * (14.0 * day) == 21.0 * b;
    ScaleCompare(lhs, rhs, 14.0 * day);
  }

  /** Rule 2: after 18:59 with nothing recorded on the current day (`toDateString` equality is equality of days). */
  function NoTransactionsTodayAlert(recent: seq<Transaction>, now: int): (r: Option<Alert>)
    ensures r.Some? <==> HourOf(now) > 18 && forall t :: t in recent ==> DayOf(t.date) != DayOf(now)
    ensures r.Some? ==> r.value.id == NoTransactionsTodayId
  {
    var today := Filter(recent, (t: Transaction) => DayOf(t.date) == DayOf(now));
    FilterMembers(recent, (t: Transaction) => DayOf(t.date) == DayOf(now));
    assert |today| > 0 ==> today[0] in today;
    if |today| == 0 && HourOf(now) > 18 then Some(NoTransactionsTodayCard()) else None
  }

  /** The reminder's text. */
  function NoTransactionsTodayCard(): (a: Alert)
    ensures a.id == NoTransactionsTodayId && a.kind == InfoAlert
  {
    Alert(NoTransactionsTodayId, InfoAlert, "📝", "Sem Transações Hoje", "Não esqueça de registrar suas transações do dia!")
  }

  /** The grouping key `${amount}-${category.name}-${toDateString()}`, as the triple it spells out. */
  datatype DupKey = DupKey(amount: real, name: string, day: int)

  function KeyOf(t: Transaction): DupKey {
    DupKey(t.amount, t.category.name, DayOf(t.date))
  }

  function KeyIs(k: DupKey): Transaction -> bool {
    (t: Transaction) => KeyOf(t) == k
  }

  /** One entry of the `duplicateGroups` map. */
  datatype Group = Group(key: DupKey, members: seq<Transaction>)

  function FindGroup(gs: seq<Group>, k: DupKey): (r: Option<nat>)
    ensures r.None? <==> forall i :: 0 <= i < |gs| ==> gs[i].key != k
    ensures r.Some? ==> r.value < |gs| && gs[r.value].key == k
  {
    if gs == [] then None
    else match FindGroup(gs[..|gs| - 1], k)
      case Some(i) => Some(i)
      case None => if gs[|gs| - 1].key == k then Some(|gs| - 1) else None
  }

  /** One step of the `forEach`: create the key's group if missing, then push the transaction onto it. */
  function AddToGroups(gs: seq<Group>, t: Transaction): seq<Group> {
    match FindGroup(gs, KeyOf(t))
    case None => gs + [Group(KeyOf(t), [t])]
    case Some(i) => gs[i := gs[i].(members := gs[i].members + [t])]
  }

  /** The map after the whole list, groups in first-seen order. */
  function Groups(list: seq<Transaction>): seq<Group> {
    if list == [] then [] else AddToGroups(Groups(list[..|list| - 1]), list[|list| - 1])
  }

  predicate KeysDistinct(gs: seq<Group>) {
    forall i, j :: 0 <= i < j < |gs| ==> gs[i].key != gs[j].key
  }

  /** One group per key occurring in the list, holding exactly the transactions with that key, in list order. */
  lemma {:induction false} GroupsSpec(list: seq<Transaction>)
    ensures KeysDistinct(Groups(list))
    ensures forall k :: FindGroup(Groups(list), k).Some? <==> exists t :: t in list && KeyOf(t) == k
    ensures forall i :: 0 <= i < |Groups(list)| ==> Groups(list)[i].members == Filter(list, KeyIs(Groups(list)[i].key))
  {
    if list != [] {
      var n := |list| - 1;
      var init := list[..n];
      var t := list[n];
      GroupsSpec(init);
      var gs0 := Groups(init);
      var gs := Groups(list);
      assert gs == AddToGroups(gs0, t);
      AddToGroupsShape(gs0, t);
      forall k ensures FindGroup(gs, k).Some? <==> exists x :: x in list && KeyOf(x) == k {
        assert list == init + [t];
        if FindGroup(gs0, k).Some? {
          var x :| x in init && KeyOf(x) == k;
          assert x in list;
        }
        if exists x :: x in list && KeyOf(x) == k {
          var x :| x in list && KeyOf(x) == k;
          assert x in init || x == t;
        }
      }
      forall i | 0 <= i < |gs| ensures gs[i].members == Filter(list, KeyIs(gs[i].key)) {
        if i < |gs0| {
          assert gs0[i].key == gs[i].key;
        } else {
          assert FindGroup(gs0, KeyOf(t)).None?;
          NoKeyEmptyFilter(init, KeyOf(t));
        }
      }
    }
  }

  lemma AddToGroupsShape(gs0: seq<Group>, t: Transaction)
    requires KeysDistinct(gs0)
    ensures KeysDistinct(AddToGroups(gs0, t))
    ensures |gs0| <= |AddToGroups(gs0, t)|
    ensures forall i :: 0 <= i < |gs0| ==> AddToGroups(gs0, t)[i].key == gs0[i].key
    ensures forall i :: 0 <= i < |gs0| && gs0[i].key != KeyOf(t) ==> AddToGroups(gs0, t)[i].members == gs0[i].members
    ensures forall i :: 0 <= i < |gs0| && gs0[i].key == KeyOf(t) ==> AddToGroups(gs0, t)[i].members == gs0[i].members + [t]
    ensures FindGroup(gs0, KeyOf(t)).None? ==> AddToGroups(gs0, t) == gs0 + [Group(KeyOf(t), [t])]
    ensures FindGroup(gs0, KeyOf(t)).Some? ==> |AddToGroups(gs0, t)| == |gs0|
    ensures forall k :: FindGroup(AddToGroups(gs0, t), k).Some? <==> FindGroup(gs0, k).Some? || k == KeyOf(t)
  {
    var f := FindGroup(gs0, KeyOf(t));
    if f.Some? {
      assert forall i :: 0 <= i < |gs0| && gs0[i].key == KeyOf(t) ==> i == f.value;
    }
  }

  /** A key no transaction carries selects nothing. */
  lemma {:induction false} NoKeyEmptyFilter(list: seq<Transaction>, k: DupKey)
    requires forall x :: x in list ==> KeyOf(x) != k
    ensures Filter(list, KeyIs(k)) == []
  {
    if list != [] {
      NoKeyEmptyFilter(list[..|list| - 1], k);
      assert list[|list| - 1] in list;
    }
  }

  /** The `forEach` that fills `duplicateGroups`. */
  method GroupByKey(recent: seq<Transaction>) returns (gs: seq<Group>)
    ensures gs == Groups(recent)
  {
    gs := [];
    var i := 0;
    while i < |recent|
      invariant 0 <= i <= |recent|
      invariant gs == Groups(recent[..i])
    {
      assert recent[..i + 1][..i] == recent[..i];
      var t := recent[i];
      ghost var before := gs;
      match FindGroup(gs, KeyOf(t)) {
        case None =>
          gs := gs + [Group(KeyOf(t), [])];
          var k := |gs| - 1;
          assert gs[k].members + [t] == [t];
          gs := gs[k := gs[k].(members := gs[k].members + [t])];
          assert gs == before + [Group(KeyOf(t), [t])];
        case Some(k) =>
          gs := gs[k := gs[k].(members := gs[k].members + [t])];
      }
      assert gs == AddToGroups(before, t);
      i := i + 1;
    }
    assert recent[..i] == recent;
  }

  /** The groups with more than one transaction. */
  function Duplicates(gs: seq<Group>): seq<Group> {
    Filter(gs, (g: Group) => |g.members| > 1)
  }

  /** Rule 3: some group holds more than one transaction; the message counts such groups. */
  function DuplicatesAlert(gs: seq<Group>): (r: Option<Alert>)
    ensures r.Some? <==> exists i :: 0 <= i < |gs| && |gs[i].members| > 1
    ensures r.Some? ==> r.value.id == DuplicatesId
  {
    var duplicates := Duplicates(gs);
    FilterMembers(gs, (g: Group) => |g.members| > 1);
    if |duplicates| > 0 then
      assert duplicates[0] in gs;
      Some(DuplicatesCard(|duplicates|))
    else
      assert forall i :: 0 <= i < |gs| && |gs[i].members| > 1 ==> gs[i] in duplicates;
      None
  }

  /** The duplicate alert's text, with the number of groups. */
  function DuplicatesCard(groups: nat): (a: Alert)
    ensures a.id == DuplicatesId && a.kind == WarningAlert
  {
    Alert(DuplicatesId, WarningAlert, "👥", "Possíveis Transações Duplicadas",
      "Encontrei " + NatToString(groups) + " grupo(s) de transações similares. Verifique se não há duplicatas.")
  }

  /** Two of the transactions share amount, category name and day. */
  predicate SharedKey(recent: seq<Transaction>) {
    exists i, j :: 0 <= i < j < |recent| && KeyOf(recent[i]) == KeyOf(recent[j])
  }

  /** The duplicate alert fires exactly when two of the recent transactions share amount, category name and day. */
  lemma DuplicatesIff(recent: seq<Transaction>)
    ensures DuplicatesAlert(Groups(recent)).Some? <==> SharedKey(recent)
  {
    var gs := Groups(recent);
    if DuplicatesAlert(gs).Some? {
      GroupsSpec(recent);
      var g :| 0 <= g < |gs| && |gs[g].members| > 1;
      SelectedTwiceShared(recent, gs[g].key);
    }
    if SharedKey(recent) {
      var i, j :| 0 <= i < j < |recent| && KeyOf(recent[i]) == KeyOf(recent[j]);
      SharedMakesGroup(recent, i, j);
    }
  }

  /** Two transactions selected by one key share it. */
  lemma SelectedTwiceShared(recent: seq<Transaction>, k: DupKey)
    requires |Filter(recent, KeyIs(k))| > 1
    ensures SharedKey(recent)
  {
    FilterTwo(recent, KeyIs(k));
    var i, j :| 0 <= i < j < |recent| && KeyIs(k)(recent[i]) && KeyIs(k)(recent[j]);
    assert KeyOf(recent[i]) == KeyOf(recent[j]);
  }

  /** Two transactions sharing a key end up in one group, which then has more than one member. */
  lemma SharedMakesGroup(recent: seq<Transaction>, i: nat, j: nat)
    requires i < j < |recent| && KeyOf(recent[i]) == KeyOf(recent[j])
    ensures exists g :: 0 <= g < |Groups(recent)| && |Groups(recent)[g].members| > 1
  {
    var gs := Groups(recent);
    GroupsSpec(recent);
    var k := KeyOf(recent[i]);
    assert recent[i] in recent;
    var g := FindGroup(gs, k).value;
    FilterTwo(recent, KeyIs(k));
    assert KeyIs(k)(recent[i]) && KeyIs(k)(recent[j]);
    assert |gs[g].members| > 1;
  }

  /** A filter keeps at least one element exactly when some element satisfies the predicate. */
  lemma {:induction false} FilterOne<T>(s: seq<T>, p: T -> bool)
    ensures |Filter(s, p)| >= 1 <==> exists i :: 0 <= i < |s| && p(s[i])
  {
    if s != [] {
      var n := |s| - 1;
      FilterOne(s[..n], p);
      if exists i :: 0 <= i < n && p(s[..n][i]) {
        var i :| 0 <= i < n && p(s[..n][i]);
        assert s[i] == s[..n][i];
      }
      if exists i :: 0 <= i < |s| && p(s[i]) {
        var i :| 0 <= i < |s| && p(s[i]);
        if i < n {
          assert s[..n][i] == s[i];
        }
      }
    }
  }

  /** A filter keeps at least two elements exactly when two positions satisfy the predicate. */
  lemma {:induction false} FilterTwo<T>(s: seq<T>, p: T -> bool)
    ensures |Filter(s, p)| >= 2 <==> exists i, j :: 0 <= i < j < |s| && p(s[i]) && p(s[j])
  {
    if s != [] {
      var n := |s| - 1;
      var init := s[..n];
      FilterTwo(init, p);
      FilterOne(init, p);
      if |Filter(s, p)| >= 2 {
        if p(s[n]) {
          var i :| 0 <= i < n && p(init[i]);
          assert s[i] == init[i];
          assert 0 <= i < n < |s| && p(s[i]) && p(s[n]);
        } else {
          var i, j :| 0 <= i < j < n && p(init[i]) && p(init[j]);
          assert s[i] == init[i] && s[j] == init[j];
        }
      }
      if exists i, j :: 0 <= i < j < |s| && p(s[i]) && p(s[j]) {
        var i, j :| 0 <= i < j < |s| && p(s[i]) && p(s[j]);
        assert init[i] == s[i];
        if j < n {
          assert init[j] == s[j];
        }
      }
    }
  }

  /** Saturday or Sunday (`getDay()` 6 or 0) and an expense. */
  predicate WeekendExpense(t: Transaction) {
    (Weekday(t.date) == 0 || Weekday(t.date) == 6) && t.category.isExpense
  }

  /** Rule 4: more than half of the last seven days' expenses fell on a weekend; 0 % when there were none. */
  function WeekendAlert(recent: seq<Transaction>, fix: (real, nat) -> string): (r: Option<Alert>)
    ensures r.Some? ==> r.value.id == WeekendId
  {
    var percentage := PercentOf(WeekendSpending(recent), Expenses(recent));
    if percentage > 50.0 then Some(WeekendCard(percentage, fix)) else None
  }

  /** The last seven days' weekend expenses. */
  function WeekendSpending(recent: seq<Transaction>): real {
    Sum(Filter(recent, WeekendExpense), Amount)
  }

  /** The weekend alert fires exactly when there were expenses and the weekend ones make up more than half of them. */
  lemma WeekendIff(recent: seq<Transaction>, fix: (real, nat) -> string)
    ensures WeekendAlert(recent, fix).Some?
        <==> Expenses(recent) > 0.0 && WeekendSpending(recent) * 100.0 > 50.0 * Expenses(recent)
  {
    PercentAbove(WeekendSpending(recent), Expenses(recent), 50.0);
  }

  /** The weekend alert's text, with the weekend share. */
  function WeekendCard(percentage: real, fix: (real, nat) -> string): (a: Alert)
    ensures a.id == WeekendId && a.kind == InfoAlert
  {
    Alert(WeekendId, InfoAlert, "🎪", "Gastos Concentrados no Fim de Semana",
      fix(percentage, 1) + "% dos seus gastos foram nos fins de semana. Considere planejar o orçamento para lazer.")
  }

  /**
   * Rule 5: from the 25th of the month, the month's expenses against the
   * budget of 3000: over 90 % warns, under 70 % congratulates, nothing in
   * between.
   */
  function BudgetAlert(month: seq<Transaction>, now: int, fix: (real, nat) -> string): (r: Option<Alert>)
    ensures r.Some? ==> DateOf(now) >= 25
    ensures r.Some? && r.value.id == BudgetExceededId <==> DateOf(now) >= 25 && Expenses(month) > 2700.0
    ensures r.Some? && r.value.id == BudgetOnTrackId <==> DateOf(now) >= 25 && Expenses(month) < 2100.0
    ensures r.Some? ==> r.value.id in {BudgetExceededId, BudgetOnTrackId}
  {
    if DateOf(now) >= 25 then
      var budgetPercentage := Expenses(month) / MonthlyBudget * 100.0;
      if budgetPercentage > 90.0 then Some(BudgetExceededCard(budgetPercentage, fix))
      else if budgetPercentage < 70.0 then Some(BudgetOnTrackCard(budgetPercentage, fix))
      else None
    else None
  }

  /** The budget warning's text, with the share of the budget spent. */
  function BudgetExceededCard(percentage: real, fix: (real, nat) -> string): (a: Alert)
    ensures a.id == BudgetExceededId && a.kind == WarningAlert
  {
    Alert(BudgetExceededId, WarningAlert, "🚨", "Orçamento Quase Excedido",
      "Você já gastou " + fix(percentage, 1) + "% do seu orçamento mensal. Cuidado com os gastos restantes!")
  }

  /** The congratulation's text, with the share of the budget spent. */
  function BudgetOnTrackCard(percentage: real, fix: (real, nat) -> string): (a: Alert)
    ensures a.id == BudgetOnTrackId && a.kind == SuccessAlert
  {
    Alert(BudgetOnTrackId, SuccessAlert, "🎯", "Orçamento Sob Controle",
      "Parabéns! Você está usando apenas " + fix(percentage, 1) + "% do seu orçamento mensal.")
  }

  /**
   * Rule 6: when the month has an expense category (the largest one exists)
   * and the draw `chance` of `Math.random()` is below 0.3, the tip at
   * `tipIndex` (`Math.floor(Math.random() * 5)`).
   */
  function TipAlert(month: seq<Transaction>, chance: real, tipIndex: nat): (r: Option<Alert>)
    requires tipIndex < |Tips|
    ensures r.Some? <==> (exists t :: t in month && t.category.isExpense) && chance < 0.3
    ensures r.Some? ==> r.value.id == TipId && r.value.message in Tips
  {
    var expenses := Filter(month, (t: Transaction) => t.category.isExpense);
    FilterMembers(month, (t: Transaction) => t.category.isExpense);
    if |expenses| > 0 && chance < 0.3 then
      assert expenses[0] in expenses;
      Some(Alert(TipId, TipKind, "💡", "Dica Inteligente", Tips[tipIndex]))
    else
      assert forall t :: t in month && t.category.isExpense ==> t in expenses;
      None
  }

  /** The alert of an option, as a list of zero or one alerts. */
  function Pushed(alert: Option<Alert>): seq<Alert> {
    if alert.Some? then [alert.value] else []
  }

  /** Not among the dismissed ids. */
  function Kept(dismissed: seq<string>): Alert -> bool {
    (a: Alert) => a.id !in dismissed
  }

  /** The alerts the six rules push, in rule order, before dismissed ones are dropped. */
  function Candidates(recent: seq<Transaction>, month: seq<Transaction>, now: int, chance: real, tipIndex: nat,
                      fix: (real, nat) -> string): seq<Alert>
    requires tipIndex < |Tips|
  {
    Pushed(SpikeAlert(recent, month, now, fix)) + Pushed(NoTransactionsTodayAlert(recent, now))
    + Pushed(DuplicatesAlert(Groups(recent))) + Pushed(WeekendAlert(recent, fix))
    + Pushed(BudgetAlert(month, now, fix)) + Pushed(TipAlert(month, chance, tipIndex))
  }

  /**
   * `analyzeForAlerts`: the six rules push their alerts in order, then the
   * dismissed ones are dropped. `now` is the clock for every `new Date()` of
   * the function, including the second `today` of rule 5.
   */
  method AnalyzeForAlerts(recent: seq<Transaction>, month: seq<Transaction>, now: int, chance: real, tipIndex: nat,
                          dismissed: seq<string>, fix: (real, nat) -> string) returns (alerts: seq<Alert>)
    requires tipIndex < |Tips|
    ensures alerts == Filter(Candidates(recent, month, now, chance, tipIndex, fix), Kept(dismissed))
    ensures forall i :: 0 <= i < |alerts| ==> alerts[i].id !in dismissed
  {
    var spike := SpikeAlert(recent, month, now, fix);
    var noToday := NoTransactionsTodayAlert(recent, now);
    var groups := GroupByKey(recent);
    var duplicates := DuplicatesAlert(groups);
    var weekend := WeekendAlert(recent, fix);
    var budget := BudgetAlert(month, now, fix);
    var tip := TipAlert(month, chance, tipIndex);
    var pushed: seq<Alert> := [];
    pushed := pushed + Pushed(spike);
    pushed := pushed + Pushed(noToday);
    pushed := pushed + Pushed(duplicates);
    pushed := pushed + Pushed(weekend);
    pushed := pushed + Pushed(budget);
    pushed := pushed + Pushed(tip);
    assert [] + Pushed(spike) == Pushed(spike);
    alerts := Filter(pushed, Kept(dismissed));
  }

  /** The alert list and the ids dismissed so far. */
  class AlertPanel {
    var alerts: seq<Alert>
    var dismissed: seq<string>

    constructor ()
      ensures alerts == [] && dismissed == []
    {
      alerts, dismissed := [], [];
    }

    /** `dismissAlert`: record the id and drop the alerts carrying it, keeping the others in order. */
    method Dismiss(id: string)
      modifies this
      ensures dismissed == old(dismissed) + [id]
      ensures alerts == Filter(old(alerts), (a: Alert) => a.id != id)
    {
      dismissed := dismissed + [id];
      alerts := Filter(alerts, (a: Alert) => a.id != id);
    }
  }

  /** Once dismissed, an alert id stays out of every later analysis. */
  lemma DismissedStaysOut(dismissed: seq<string>, id: string, pushed: seq<Alert>)
    ensures forall a :: a in Filter(pushed, Kept(dismissed + [id])) ==> a.id != id
  {
    FilterMembers(pushed, Kept(dismissed + [id]));
  }
}

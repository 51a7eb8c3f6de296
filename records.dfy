/**
 * The transaction shape the server returns (amount, category with name,
 * title and expense flag, date), as read by the summary, insight and alert
 * panels and by the recommendation controller; and the per-category
 * breakdown they build in a dictionary keyed by category name.
 */
module Records {
  import opened Wrappers
  import opened Sums

  /** The category joined to a transaction. */
  datatype CategoryRef = CategoryRef(name: string, title: string, isExpense: bool)

  /** A transaction; `amount` is the number `parseFloat(amount.toString())` reads back. */
  datatype Transaction = Transaction(amount: real, category: CategoryRef, date: int)

  function Amount(t: Transaction): real {
    t.amount
  }

  /** Contribution to the expense total. */
  function ExpenseAmount(t: Transaction): real {
    if t.category.isExpense then t.amount else 0.0
  }

  /** Contribution to the income total. */
  function IncomeAmount(t: Transaction): real {
    if t.category.isExpense then 0.0 else t.amount
  }

  /** `filter(t => t.category.isExpense).reduce(+ amount)`. */
  function Expenses(list: seq<Transaction>): real {
    Sum(Filter(list, (t: Transaction) => t.category.isExpense), Amount)
  }

  /** `filter(t => !t.category.isExpense).reduce(+ amount)`. */
  function Income(list: seq<Transaction>): real {
    Sum(Filter(list, (t: Transaction) => !t.category.isExpense), Amount)
  }

  /** The filtered sums are the sums of the per-transaction contributions, and they add up to the sum of all amounts. */
  lemma IncomeExpensesSplit(list: seq<Transaction>)
    ensures Expenses(list) == Sum(list, ExpenseAmount)
    ensures Income(list) == Sum(list, IncomeAmount)
    ensures Income(list) + Expenses(list) == Sum(list, Amount)
  {
    SumFilter(list, (t: Transaction) => t.category.isExpense, Amount, ExpenseAmount);
    SumFilter(list, (t: Transaction) => !t.category.isExpense, Amount, IncomeAmount);
    SplitCoversAll(list);
  }

  lemma {:induction false} SplitCoversAll(list: seq<Transaction>)
    ensures Sum(list, IncomeAmount) + Sum(list, ExpenseAmount) == Sum(list, Amount)
  {
    if list != [] {
      SplitCoversAll(list[..|list| - 1]);
    }
  }

  /** `income > 0 ? (income - expenses) / income * 100 : 0`. */
  function SavingsRate(income: real, expenses: real): (r: real)
    ensures income <= 0.0 ==> r == 0.0
    ensures income > 0.0 ==> (r < 0.0 <==> expenses > income)
    ensures income > 0.0 && expenses >= 0.0 ==> r <= 100.0
    ensures income > 0.0 ==> r * income == (income - expenses) * 100.0
  {
    if income > 0.0 then (income - expenses) / income * 100.0 else 0.0
  }

  /** Compared with a threshold `k`, the savings rate compares the balance with a share `k / 100` of income. */
  lemma SavingsRateCompare(income: real, expenses: real, k: real)
    requires income > 0.0
    ensures SavingsRate(income, expenses) < k <==> (income - expenses) * 100.0 < k * income
    ensures SavingsRate(income, expenses) > k <==> (income - expenses) * 100.0 > k * income
  {
    var r := SavingsRate(income, expenses);
    assert r * income == (income - expenses) * 100.0;
    ScaleCompare(r, k, income);
  }

  /** Multiplying both sides by a positive number keeps a strict comparison. */
  lemma ScaleCompare(a: real, b: real, c: real)
    requires c > 0.0
    ensures a < b <==> a * c < b * c
    ensures a > b <==> a * c > b * c
  {
    if a < b {
      assert (b - a) * c > 0.0;
    }
    if a > b {
      assert (a - b) * c > 0.0;
    }
    if a == b {
      assert a * c == b * c;
    }
  }

  /** `whole > 0 ? part / whole * 100 : 0`: the percentage `part` makes up of `whole`. */
  function PercentOf(part: real, whole: real): real {
    if whole > 0.0 then part / whole * 100.0 else 0.0
  }

  /** Of a positive whole, the percentage times the whole is a hundred times the part; of any other whole it is 0. */
  lemma PercentOfScales(part: real, whole: real)
    ensures whole > 0.0 ==> PercentOf(part, whole) * whole == part * 100.0
    ensures whole <= 0.0 ==> PercentOf(part, whole) == 0.0
  {
  }

  /** Of a positive whole, comparing the percentage with `k` is comparing the part with `k` % of the whole. */
  lemma PercentCompare(part: real, whole: real, k: real)
    requires whole > 0.0
    ensures PercentOf(part, whole) > k <==> part * 100.0 > k * whole
    ensures PercentOf(part, whole) < k <==> part * 100.0 < k * whole
  {
    PercentOfScales(part, whole);
    ScaleCompare(PercentOf(part, whole), k, whole);
  }

  /** The percentage exceeds `k` exactly when the whole is positive and the part exceeds `k` % of it. */
  lemma PercentAbove(part: real, whole: real, k: real)
    requires k >= 0.0
    ensures PercentOf(part, whole) > k <==> whole > 0.0 && part * 100.0 > k * whole
  {
    PercentOfScales(part, whole);
    if whole > 0.0 {
      ScaleCompare(PercentOf(part, whole), k, whole);
    }
  }

  /** The previous calendar month: January steps back to December of the year before. */
  function PreviousMonth(month: int, year: int): (r: (int, int))
    ensures r.1 * 12 + r.0 == year * 12 + month - 1
    ensures 1 <= month <= 12 ==> 1 <= r.0 <= 12
  {
    if month == 1 then (12, year - 1) else (month - 1, year)
  }

  /** One entry of the `categoryTotals` dictionary. */
  datatype Entry = Entry(name: string, title: string, isExpense: bool, total: real)

  function EntryTotal(e: Entry): real {
    e.total
  }

  /** Position of the entry for `name`, the dictionary lookup `categoryTotals[name]`. */
  function Find(bd: seq<Entry>, name: string): (r: Option<nat>)
    ensures r.None? <==> forall i :: 0 <= i < |bd| ==> bd[i].name != name
    ensures r.Some? ==> r.value < |bd| && bd[r.value].name == name
  {
    if bd == [] then None
    else match Find(bd[..|bd| - 1], name)
      case Some(i) => Some(i)
      case None => if bd[|bd| - 1].name == name then Some(|bd| - 1) else None
  }

  /**
   * One step of the `forEach`: a name seen for the first time gets an entry,
   * appended (the dictionary's insertion order) with the title and flag of
   * this transaction; then the amount is added to the name's entry.
   */
  function Accumulate(bd: seq<Entry>, t: Transaction): seq<Entry> {
    match Find(bd, t.category.name)
    case None => bd + [Entry(t.category.name, t.category.title, t.category.isExpense, 0.0 + t.amount)]
    case Some(i) => bd[i := bd[i].(total := bd[i].total + t.amount)]
  }

  /** The dictionary after the whole list, entries in first-seen order. */
  function Breakdown(list: seq<Transaction>): seq<Entry> {
    if list == [] then [] else Accumulate(Breakdown(list[..|list| - 1]), list[|list| - 1])
  }

  /** The category of the first transaction filed under `name`. */
  function FirstWithName(list: seq<Transaction>, name: string): Option<CategoryRef> {
    if list == [] then None
    else match FirstWithName(list[..|list| - 1], name)
      case Some(c) => Some(c)
      case None => if list[|list| - 1].category.name == name then Some(list[|list| - 1].category) else None
  }

  /** Contribution of a transaction to the total of `name`. */
  function NamePart(name: string): Transaction -> real {
    (t: Transaction) => if t.category.name == name then t.amount else 0.0
  }

  predicate NamesDistinct(bd: seq<Entry>) {
    forall i, j :: 0 <= i < j < |bd| ==> bd[i].name != bd[j].name
  }

  /** An entry agrees with the list: its total is its name's sum, its title and flag those of the name's first transaction. */
  predicate EntryAgrees(list: seq<Transaction>, e: Entry) {
    && e.total == Sum(list, NamePart(e.name))
    && FirstWithName(list, e.name) == Some(CategoryRef(e.name, e.title, e.isExpense))
  }

  /**
   * The dictionary holds one entry per category name occurring in the list;
   * its total is the sum of that name's amounts and its title and expense
   * flag are those of the first transaction of that name.
   */
  lemma {:induction false} BreakdownEntries(list: seq<Transaction>)
    ensures NamesDistinct(Breakdown(list))
    ensures forall name :: Find(Breakdown(list), name).Some? <==> FirstWithName(list, name).Some?
    ensures forall i :: 0 <= i < |Breakdown(list)| ==>
      var e := Breakdown(list)[i];
      && e.total == Sum(list, NamePart(e.name))
      && FirstWithName(list, e.name) == Some(CategoryRef(e.name, e.title, e.isExpense))
  {
    BreakdownNames(list);
    if list != [] {
      var n := |list| - 1;
      var init := list[..n];
      BreakdownEntries(init);
      assert forall i :: 0 <= i < |Breakdown(init)| ==> EntryAgrees(init, Breakdown(init)[i]);
      assert list == init + [list[n]];
      assert Breakdown(list) == Accumulate(Breakdown(init), list[n]);
      forall i | 0 <= i < |Breakdown(list)|
        ensures EntryAgrees(list, Breakdown(list)[i])
      {
        EntryStep(init, list[n], i);
      }
    }
  }

  /** The names of the dictionary are distinct and are exactly the names occurring in the list. */
  lemma {:induction false} BreakdownNames(list: seq<Transaction>)
    ensures NamesDistinct(Breakdown(list))
    ensures forall name :: Find(Breakdown(list), name).Some? <==> FirstWithName(list, name).Some?
  {
    if list != [] {
      var n := |list| - 1;
      var init := list[..n];
      BreakdownNames(init);
      var bd0 := Breakdown(init);
      assert Breakdown(list) == Accumulate(bd0, list[n]);
      forall name ensures Find(Breakdown(list), name).Some? <==> FirstWithName(list, name).Some? {
        FindAfterAccumulate(bd0, list[n], name);
      }
    }
  }

  /** One transaction more keeps every entry in agreement with the list. */
  lemma EntryStep(init: seq<Transaction>, t: Transaction, i: nat)
    requires NamesDistinct(Breakdown(init))
    requires forall name :: Find(Breakdown(init), name).Some? <==> FirstWithName(init, name).Some?
    requires forall j :: 0 <= j < |Breakdown(init)| ==> EntryAgrees(init, Breakdown(init)[j])
    requires i < |Accumulate(Breakdown(init), t)|
    ensures EntryAgrees(init + [t], Accumulate(Breakdown(init), t)[i])
  {
    var list := init + [t];
    assert list[..|init|] == init;
    var bd0 := Breakdown(init);
    var bd := Accumulate(bd0, t);
    var name := bd[i].name;
    assert Sum(list, NamePart(name)) == Sum(init, NamePart(name)) + NamePart(name)(t);
    FindAfterAccumulate(bd0, t, name);
    if i < |bd0| {
      assert EntryAgrees(init, bd0[i]);
    } else {
      assert Find(bd0, t.category.name).None?;
      ZeroNamePart(init, t.category.name);
    }
  }

  lemma FindAfterAccumulate(bd0: seq<Entry>, t: Transaction, name: string)
    requires NamesDistinct(bd0)
    ensures forall i :: 0 <= i < |bd0| ==> i < |Accumulate(bd0, t)| && Accumulate(bd0, t)[i].name == bd0[i].name
    ensures forall i :: 0 <= i < |bd0| ==> Accumulate(bd0, t)[i].title == bd0[i].title && Accumulate(bd0, t)[i].isExpense == bd0[i].isExpense
    ensures forall i :: 0 <= i < |bd0| && bd0[i].name != t.category.name ==> Accumulate(bd0, t)[i].total == bd0[i].total
    ensures forall i :: 0 <= i < |bd0| && bd0[i].name == t.category.name ==> Accumulate(bd0, t)[i].total == bd0[i].total + t.amount
    ensures Find(bd0, t.category.name).None? ==> Accumulate(bd0, t) == bd0 + [Entry(t.category.name, t.category.title, t.category.isExpense, t.amount)]
    ensures Find(bd0, t.category.name).Some? ==> |Accumulate(bd0, t)| == |bd0|
    ensures Find(Accumulate(bd0, t), name).Some? <==> Find(bd0, name).Some? || name == t.category.name
  {
    var f := Find(bd0, t.category.name);
    if f.Some? {
      assert forall i :: 0 <= i < |bd0| && bd0[i].name == t.category.name ==> i == f.value;
    }
  }

  /** A name absent from the list contributes nothing. */
  lemma {:induction false} ZeroNamePart(list: seq<Transaction>, name: string)
    requires FirstWithName(list, name).None?
    ensures Sum(list, NamePart(name)) == 0.0
  {
    if list != [] {
      ZeroNamePart(list[..|list| - 1], name);
    }
  }

  /** The `forEach` that fills `categoryTotals`, a lookup and an update per transaction. */
  method AccumulateBreakdown(list: seq<Transaction>) returns (bd: seq<Entry>)
    ensures bd == Breakdown(list)
  {
    bd := [];
    var i := 0;
    while i < |list|
      invariant 0 <= i <= |list|
      invariant bd == Breakdown(list[..i])
    {
      BreakdownPrefix(list, i);
      bd := AddTransaction(bd, list[i]);
      i := i + 1;
    }
    assert list[..i] == list;
  }

  /**
   * The body of the `forEach`: an entry with total 0 is created for an unseen
   * name, then the amount is added to the name's entry.
   */
  method AddTransaction(bd: seq<Entry>, t: Transaction) returns (r: seq<Entry>)
    ensures r == Accumulate(bd, t)
  {
    AccumulateCases(bd, t);
    r := bd;
    match Find(r, t.category.name) {
      case None =>
        var added := Entry(t.category.name, t.category.title, t.category.isExpense, 0.0);
        r := r + [added];
        var k := |r| - 1;
        r := r[k := r[k].(total := r[k].total + t.amount)];
        AppendThenAdd(bd, added, t.amount);
      case Some(k) =>
        r := r[k := r[k].(total := r[k].total + t.amount)];
    }
  }

  /** The dictionary after one more transaction is one `Accumulate` step further. */
  lemma BreakdownPrefix(list: seq<Transaction>, i: nat)
    requires i < |list|
    ensures Breakdown(list[..i + 1]) == Accumulate(Breakdown(list[..i]), list[i])
  {
    assert list[..i + 1][..i] == list[..i];
  }

  /** The two cases of `Accumulate`: a new entry for an unseen name, an added amount for a known one. */
  lemma AccumulateCases(bd: seq<Entry>, t: Transaction)
    ensures Find(bd, t.category.name).None?
      ==> Accumulate(bd, t) == bd + [Entry(t.category.name, t.category.title, t.category.isExpense, 0.0 + t.amount)]
    ensures Find(bd, t.category.name).Some?
      ==> var k := Find(bd, t.category.name).value;
          Accumulate(bd, t) == bd[k := bd[k].(total := bd[k].total + t.amount)]
  {
  }

  /** Appending an entry and then adding to its total appends the entry with the added total. */
  lemma AppendThenAdd(bd: seq<Entry>, e: Entry, amount: real)
    ensures (bd + [e])[|bd| := (bd + [e])[|bd|].(total := (bd + [e])[|bd|].total + amount)]
      == bd + [e.(total := e.total + amount)]
  {
  }

  /**
   * `entries.filter(isExpense).sort(by total, descending)[0]`: the expense
   * entry with the largest total; the sort is stable, so among equal totals
   * the entry inserted first wins.
   */
  function TopExpense(bd: seq<Entry>): (r: Option<nat>)
    ensures r.None? <==> forall i :: 0 <= i < |bd| ==> !bd[i].isExpense
    ensures r.Some? ==> r.value < |bd| && bd[r.value].isExpense
    ensures r.Some? ==> forall i :: 0 <= i < |bd| && bd[i].isExpense ==> bd[i].total <= bd[r.value].total
    ensures r.Some? ==> forall i :: 0 <= i < r.value && bd[i].isExpense ==> bd[i].total < bd[r.value].total
  {
    if bd == [] then None
    else
      var n := |bd| - 1;
      var top := TopExpense(bd[..n]);
      if bd[n].isExpense && (top.None? || bd[n].total > bd[top.value].total) then Some(n)
      else top
  }
}

/**
 * The transaction list held by the client's root component: adding and
 * deleting items, the attribute filters applied to the month's items, the
 * income/expense totals of what is displayed, and whether any filter is on.
 */
module App {
  import opened Wrappers
  import opened Text
  import opened Sums
  import opened Time
  import opened Categories

  /** A client-side transaction: timestamp, registry key, title and amount. */
  datatype Item = Item(date: int, category: string, title: string, value: real)

  /** The filter emitted by the filter panel; an empty string or None switches a dimension off. */
  datatype FilterOptions = FilterOptions(
    searchText: string,
    category: string,
    minValue: Option<real>,
    maxValue: Option<real>,
    startDate: Option<int>,
    endDate: Option<int>)

  /** The filter the root component starts with: nothing is filtered. */
  const NoFilters: FilterOptions := FilterOptions("", "", None, None, None, None)

  /** One item passes every active dimension of the filter. */
  predicate Matches(f: FilterOptions, item: Item) {
    && (f.searchText == "" || Contains(Lower(item.title), Lower(f.searchText)))
    && (f.category == "" || item.category == f.category)
    && (f.minValue.None? || item.value >= f.minValue.value)
    && (f.maxValue.None? || item.value <= f.maxValue.value)
    && (f.startDate.None? || item.date >= StartOfDay(f.startDate.value))
    && (f.endDate.None? || item.date <= EndOfDay(f.endDate.value))
  }

  /** `applyFilters`: the items passing the filter, in their original order. */
  function ApplyFilters(items: seq<Item>, f: FilterOptions): (r: seq<Item>)
    ensures IsSubsequence(r, items)
    ensures forall x :: x in r <==> x in items && Matches(f, x)
    ensures forall x :: multiset(r)[x] == if Matches(f, x) then multiset(items)[x] else 0
  {
    var p := (x: Item) => Matches(f, x);
    FilterIsSubsequence(items, p);
    FilterMembers(items, p);
    FilterMultiplicity(items, p);
    Filter(items, p)
  }

  /** With no dimension active the list passes unchanged. */
  lemma NoFiltersKeepAll(items: seq<Item>)
    ensures ApplyFilters(items, NoFilters) == items
  {
    FilterAll(items, (x: Item) => Matches(NoFilters, x));
  }

  /** `g` keeps every constraint of `f` and may switch on further ones. */
  predicate Refines(f: FilterOptions, g: FilterOptions) {
    && (f.searchText == "" || g.searchText == f.searchText)
    && (f.category == "" || g.category == f.category)
    && (f.minValue.None? || g.minValue == f.minValue)
    && (f.maxValue.None? || g.maxValue == f.maxValue)
    && (f.startDate.None? || g.startDate == f.startDate)
    && (f.endDate.None? || g.endDate == f.endDate)
  }

  /** Adding constraints never enlarges the result: it is a sub-filter of the looser result. */
  lemma RefinedFilterShrinks(items: seq<Item>, f: FilterOptions, g: FilterOptions)
    requires Refines(f, g)
    ensures ApplyFilters(items, g) == Filter(ApplyFilters(items, f), (x: Item) => Matches(g, x))
    ensures |ApplyFilters(items, g)| <= |ApplyFilters(items, f)|
  {
    FilterMonotone(items, (x: Item) => Matches(f, x), (x: Item) => Matches(g, x));
  }

  /** Value bounds are inclusive: an item equal to a bound passes that bound. */
  lemma ValueBoundsInclusive(item: Item)
    ensures Matches(NoFilters.(minValue := Some(item.value), maxValue := Some(item.value)), item)
  {
  }

  /** With both date bounds set, an item passes exactly when its day lies between the two bound days. */
  lemma DateBoundsByDay(item: Item, start: int, end: int)
    ensures Matches(NoFilters.(startDate := Some(start), endDate := Some(end)), item)
        <==> DayOf(start) <= DayOf(item.date) <= DayOf(end)
  {
    var t := item.date;
    StartBoundByDay(t, start);
    EndBoundByDay(t, end);
  }

  lemma StartBoundByDay(t: int, start: int)
    ensures t >= StartOfDay(start) <==> DayOf(t) >= DayOf(start)
  {
    var s := StartOfDay(start);
    if DayOf(t) < DayOf(start) {
      assert (DayOf(t) + 1) * DayMs <= DayOf(start) * DayMs;
    }
    if t < s {
      assert DayOf(t) * DayMs <= t;
    }
  }

  lemma EndBoundByDay(t: int, end: int)
    ensures t <= EndOfDay(end) <==> DayOf(t) <= DayOf(end)
  {
    if DayOf(t) > DayOf(end) {
      assert (DayOf(end) + 1) * DayMs <= DayOf(t) * DayMs;
    }
    if t > EndOfDay(end) {
      assert t >= (DayOf(end) + 1) * DayMs;
    }
  }

  /** Lower-casing twice is lower-casing once. */
  lemma LowerIdempotent(s: string)
    ensures Lower(Lower(s)) == Lower(s)
  {
  }

  /** The text search ignores ASCII case in the query: a query and its lower-cased form select the same items. */
  lemma SearchIgnoresCase(item: Item, q: string)
    ensures Matches(NoFilters.(searchText := q), item) <==> Matches(NoFilters.(searchText := Lower(q)), item)
  {
    LowerIdempotent(q);
    assert q == "" <==> Lower(q) == "";
  }

  /** Contribution of an item to the expense total: its value when its category is an expense. */
  function ExpensePart(x: Item): real {
    if IsExpense(x.category) then x.value else 0.0
  }

  /** Contribution of an item to the income total. */
  function IncomePart(x: Item): real {
    if IsExpense(x.category) then 0.0 else x.value
  }

  function Value(x: Item): real {
    x.value
  }

  predicate IsExpenseItem(x: Item) {
    IsExpense(x.category)
  }

  /**
   * The aggregation effect: every displayed item goes to the expense total or
   * to the income total according to its registry flag. The source reads the
   * registry entry unguarded, so every category must be registered.
   */
  method Totals(display: seq<Item>) returns (income: real, expense: real)
    requires forall i :: 0 <= i < |display| ==> display[i].category in Registry
    ensures income == Sum(display, IncomePart)
    ensures expense == Sum(display, ExpensePart)
  {
    income, expense := 0.0, 0.0;
    var i := 0;
    while i < |display|
      invariant 0 <= i <= |display|
      invariant income == Sum(display[..i], IncomePart)
      invariant expense == Sum(display[..i], ExpensePart)
    {
      assert display[..i + 1][..i] == display[..i];
      if Registry[display[i].category].expense {
        expense := expense + display[i].value;
      } else {
        income := income + display[i].value;
      }
      i := i + 1;
    }
    assert display[..i] == display;
  }

  /** Income plus expense is the sum of all displayed values. */
  lemma {:induction false} TotalsCoverAll(s: seq<Item>)
    ensures Sum(s, IncomePart) + Sum(s, ExpensePart) == Sum(s, Value)
  {
    if s != [] {
      TotalsCoverAll(s[..|s| - 1]);
    }
  }

  /** The expense total is the sum of the values of the expense items, and the income total that of the others. */
  lemma TotalsAreFilteredSums(s: seq<Item>)
    ensures Sum(s, ExpensePart) == Sum(Filter(s, IsExpenseItem), Value)
    ensures Sum(s, IncomePart) == Sum(Filter(s, (x: Item) => !IsExpenseItem(x)), Value)
  {
    SumFilter(s, IsExpenseItem, Value, ExpensePart);
    SumFilter(s, (x: Item) => !IsExpenseItem(x), Value, IncomePart);
  }

  /** The list without its first element equal to `x`; the list itself when there is none. */
  function RemoveFirst(s: seq<Item>, x: Item): (r: seq<Item>)
    ensures x in s ==> |r| == |s| - 1 && multiset(r) == multiset(s) - multiset{x}
    ensures x !in s ==> r == s
  {
    if s == [] then []
    else if s[0] == x then
      assert s == [x] + s[1..];
      s[1..]
    else
      assert s == [s[0]] + s[1..];
      [s[0]] + RemoveFirst(s[1..], x)
  }

  /** Deleting keeps the items before the first match and after it, in order. */
  lemma {:induction false} RemoveFirstAt(s: seq<Item>, x: Item, k: nat)
    requires k < |s| && s[k] == x && x !in s[..k]
    ensures RemoveFirst(s, x) == s[..k] + s[k + 1..]
  {
    if k > 0 {
      assert s[0] != x by { assert s[0] == s[..k][0]; }
      assert s[1..][..k - 1] == s[..k][1..];
      RemoveFirstAt(s[1..], x, k - 1);
      assert s[..k] == [s[0]] + s[1..][..k - 1];
    }
  }

  /** `findIndex` on the (date, category, title, value) tuple; -1 when no item matches. */
  method FindIndex(list: seq<Item>, item: Item) returns (k: int)
    ensures -1 <= k < |list|
    ensures k == -1 <==> item !in list
    ensures k >= 0 ==> list[k] == item && item !in list[..k]
  {
    k := 0;
    while k < |list|
      invariant 0 <= k <= |list|
      invariant item !in list[..k]
    {
      if list[k].date == item.date && list[k].category == item.category
        && list[k].title == item.title && list[k].value == item.value
      {
        return;
      }
      assert list[..k + 1] == list[..k] + [list[k]];
      k := k + 1;
    }
    assert list[..k] == list;
    k := -1;
  }

  /** The toast the root component shows after an add or a delete. */
  datatype Toast = SuccessToast(message: string) | ErrorToast(message: string) | Thrown

  /** 'Despesa' or 'Receita' per the registry flag, then the quoted title. */
  function ItemToast(item: Item, verb: string): (t: Toast)
    ensures item.category !in Registry <==> t.Thrown?
  {
    if item.category in Registry then
      SuccessToast((if Registry[item.category].expense then "Despesa" else "Receita") + " \"" + item.title + "\" " + verb + " com sucesso!")
    else Thrown
  }

  /** The full (unfiltered) list of items the root component owns. */
  class ItemList {
    var items: seq<Item>

    constructor (initial: seq<Item>)
      ensures items == initial
    {
      items := initial;
    }

    /** `handleAddItem`: append at the end; the toast reads the registry and throws for an unknown key after the list is set. */
    method Add(item: Item) returns (t: Toast)
      modifies this
      ensures items == old(items) + [item]
      ensures t == ItemToast(item, "adicionada")
    {
      items := items + [item];
      t := ItemToast(item, "adicionada");
    }

    /** `handleDeleteItem`: remove the first item equal to `item`, or leave the list alone and report an error. */
    method Delete(item: Item) returns (t: Toast)
      modifies this
      ensures items == RemoveFirst(old(items), item)
      ensures item in old(items) ==> t == ItemToast(item, "excluída")
      ensures item !in old(items) ==> t == ErrorToast("Erro ao excluir item. Tente novamente.")
    {
      var k := FindIndex(items, item);
      if k != -1 {
        RemoveFirstAt(items, item, k);
        items := items[..k] + items[k + 1..];
        t := ItemToast(item, "excluída");
      } else {
        t := ErrorToast("Erro ao excluir item. Tente novamente.");
      }
    }
  }

  /** `hasActiveFilters` in `handleFilterChange`. */
  function HasActiveFilters(f: FilterOptions): (r: bool)
    ensures r <==> f != NoFilters
  {
    f.searchText != "" || f.category != "" || f.minValue.Some? || f.maxValue.Some?
    || f.startDate.Some? || f.endDate.Some?
  }
}

/**
 * The per-category expense totals behind the chart panel: every expense
 * category of the registry starts at 0 and each expense item adds its value
 * to its own category.
 */
module ChartArea {
  import opened Sums
  import opened Categories
  import opened App

  /** Contribution of an item to the total of category `key`. */
  function KeyPart(key: string): Item -> real {
    (x: Item) => if x.category == key then x.value else 0.0
  }

  /** Sum of the values of the items filed under `key`. */
  function CategoryTotal(list: seq<Item>, key: string): real {
    Sum(list, KeyPart(key))
  }

  /**
   * The effect that fills `expensesByCategory`: seed every expense key of the
   * registry with 0, then add each expense item's value to its key. The
   * registry entry of each item is read unguarded.
   */
  method ExpensesByCategory(list: seq<Item>) returns (totals: map<string, real>)
    requires forall i :: 0 <= i < |list| ==> list[i].category in Registry
    ensures totals.Keys == ExpenseKeys
    ensures forall k :: k in totals ==> totals[k] == CategoryTotal(list, k)
  {
    totals := SeedExpenseKeys();
    totals := AddExpenses(list, totals);
  }

  /** The `for (let key in categories)` loop: an entry of 0 for each expense key, in declaration order. */
  method SeedExpenseKeys() returns (totals: map<string, real>)
    ensures totals.Keys == ExpenseKeys
    ensures forall k :: k in totals ==> totals[k] == 0.0
  {
    totals := map[];
    var i := 0;
    while i < |Keys|
      invariant 0 <= i <= |Keys|
      invariant totals.Keys == set k | k in Keys[..i] && IsExpense(k)
      invariant forall k :: k in totals ==> totals[k] == 0.0
    {
      assert Keys[..i + 1] == Keys[..i] + [Keys[i]];
      totals := SeedKey(totals, Keys[i]);
      i := i + 1;
    }
    assert Keys[..i] == Keys;
    SeedCoversExpenseKeys();
  }

  /** One pass of the loop: an expense key gets an entry of 0, any other key is skipped. */
  method SeedKey(totals: map<string, real>, key: string) returns (r: map<string, real>)
    ensures r == if IsExpense(key) then totals[key := 0.0] else totals
  {
    r := totals;
    if key in Registry && Registry[key].expense {
      r := r[key := 0.0];
    }
  }

  lemma SeedCoversExpenseKeys()
    ensures (set k | k in Keys && IsExpense(k)) == ExpenseKeys
  {
    forall k | k in ExpenseKeys ensures k in Keys && IsExpense(k) {
      ExpenseFlag(k);
      KeysEnumerateRegistry();
    }
    forall k | k in Keys && IsExpense(k) ensures k in ExpenseKeys {
      ExpenseFlag(k);
    }
  }

  /** The `forEach` loop: each expense item adds its value to the entry of its own category. */
  method AddExpenses(list: seq<Item>, seed: map<string, real>) returns (totals: map<string, real>)
    requires forall i :: 0 <= i < |list| ==> list[i].category in Registry
    requires seed.Keys == ExpenseKeys
    ensures totals.Keys == ExpenseKeys
    ensures forall k :: k in totals ==> totals[k] == seed[k] + CategoryTotal(list, k)
  {
    totals := seed;
    var n := 0;
    while n < |list|
      invariant 0 <= n <= |list|
      invariant totals.Keys == ExpenseKeys
      invariant forall k :: k in totals ==> totals[k] == seed[k] + CategoryTotal(list[..n], k)
    {
      var item := list[n];
      assert list[..n + 1][..n] == list[..n];
      ExpenseFlag(item.category);
      if Registry[item.category].expense {
        totals := totals[item.category := totals[item.category] + item.value];
      }
      n := n + 1;
    }
    assert list[..n] == list;
  }

  /** The totals do not depend on the order of the list. */
  lemma TotalsOrderIndependent(a: seq<Item>, b: seq<Item>, key: string)
    requires multiset(a) == multiset(b)
    ensures CategoryTotal(a, key) == CategoryTotal(b, key)
  {
    SumPermutation(a, b, KeyPart(key));
  }

  /** An income item leaves every expense category's total unchanged. */
  lemma IncomeItemIgnored(list: seq<Item>, x: Item, key: string)
    requires x.category in Registry && !Registry[x.category].expense
    requires key in ExpenseKeys
    ensures CategoryTotal(list + [x], key) == CategoryTotal(list, key)
  {
    ExpenseFlag(x.category);
    assert (list + [x])[..|list|] == list;
  }

  /** Contribution of an item to the total over the keys `ks`. */
  function KeysPart(ks: seq<string>): Item -> real {
    (x: Item) => if x.category in ks then x.value else 0.0
  }

  /** Summing the category totals over distinct keys is summing the items filed under any of them. */
  lemma {:induction false} SumOfCategoryTotals(list: seq<Item>, ks: seq<string>)
    requires forall i, j :: 0 <= i < j < |ks| ==> ks[i] != ks[j]
    ensures Sum(ks, (k: string) => CategoryTotal(list, k)) == Sum(list, KeysPart(ks))
  {
    if ks == [] {
      SumCongruent(list, KeysPart(ks), (x: Item) => 0.0);
      ZeroSum(list);
    } else {
      var n := |ks| - 1;
      var k := ks[n];
      SumOfCategoryTotals(list, ks[..n]);
      assert k !in ks[..n];
      forall x | x in list ensures KeysPart(ks)(x) == KeysPart(ks[..n])(x) + KeyPart(k)(x) {
        assert x.category in ks <==> x.category in ks[..n] || x.category == k by {
          assert ks == ks[..n] + [k];
        }
      }
      SumPointwiseAdd(list, KeysPart(ks[..n]), KeyPart(k), KeysPart(ks));
    }
  }

  lemma {:induction false} ZeroSum(list: seq<Item>)
    ensures Sum(list, (x: Item) => 0.0) == 0.0
  {
    if list != [] {
      ZeroSum(list[..|list| - 1]);
    }
  }

  /** The chart's category totals add up to the expense total of the root component. */
  lemma ChartMatchesExpenseTotal(list: seq<Item>)
    requires forall i :: 0 <= i < |list| ==> list[i].category in Registry
    ensures Sum(ExpenseKeyOrder, (k: string) => CategoryTotal(list, k)) == Sum(list, ExpensePart)
  {
    ExpenseKeyOrderDistinct();
    SumOfCategoryTotals(list, ExpenseKeyOrder);
    forall x | x in list ensures KeysPart(ExpenseKeyOrder)(x) == ExpensePart(x) {
      ExpenseFlag(x.category);
    }
    SumCongruent(list, KeysPart(ExpenseKeyOrder), ExpensePart);
  }
}

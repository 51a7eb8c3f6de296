/**
 * The client's category registry: every key a transaction item may carry,
 * with its display title, colour and whether it counts as an expense.
 */
module Categories {

  datatype CategoryInfo = CategoryInfo(title: string, color: string, expense: bool)

  /** The registry keys in declaration order. */
  const Keys: seq<string> := [
    "food", "rent", "salary", "transport", "utilities", "entertainment",
    "health", "education", "investment", "other", "freelance", "gift"
  ]

  /** The registry itself. */
  const Registry: map<string, CategoryInfo> := map[
    "food" := CategoryInfo("Alimentação", "#FF6961", true),
    "rent" := CategoryInfo("Aluguel", "#8884FF", true),
    "salary" := CategoryInfo("Salário", "#4CAF50", false),
    "transport" := CategoryInfo("Transporte", "#FFC107", true),
    "utilities" := CategoryInfo("Utilidades", "#03A9F4", true),
    "entertainment" := CategoryInfo("Entretenimento", "#9C27B0", true),
    "health" := CategoryInfo("Saúde", "#E91E63", true),
    "education" := CategoryInfo("Educação", "#3F51B5", true),
    "investment" := CategoryInfo("Investimento", "#009688", false),
    "other" := CategoryInfo("Outros", "#607D8B", true),
    "freelance" := CategoryInfo("Freelance", "#8BC34A", false),
    "gift" := CategoryInfo("Presente", "#FF9800", false)
  ]

  /** The keys of the income (non-expense) categories. */
  const IncomeKeys: set<string> := {"salary", "investment", "freelance", "gift"}

  /** The keys of the expense categories. */
  const ExpenseKeys: set<string> := {"food", "rent", "transport", "utilities", "entertainment", "health", "education", "other"}

  /** The expense keys in declaration order. */
  const ExpenseKeyOrder: seq<string> := ["food", "rent", "transport", "utilities", "entertainment", "health", "education", "other"]

  /** A key is an expense category when it is registered with the expense flag set. */
  predicate IsExpense(key: string) {
    key in Registry && Registry[key].expense
  }

  /** The declaration order lists every registry key exactly once. */
  lemma KeysEnumerateRegistry()
    ensures |Keys| == 12
    ensures forall i, j :: 0 <= i < j < |Keys| ==> Keys[i] != Keys[j]
    ensures forall k :: k in Registry <==> k in Keys
  {
  }

  /** A list without repeats has as many distinct elements as entries. */
  lemma {:induction false} DistinctCard(s: seq<string>)
    requires forall i, j :: 0 <= i < j < |s| ==> s[i] != s[j]
    ensures |set x | x in s| == |s|
  {
    if s != [] {
      var n := |s| - 1;
      DistinctCard(s[..n]);
      assert (set x | x in s) == (set x | x in s[..n]) + {s[n]};
      assert s[n] !in s[..n];
    }
  }

  /** The registry has exactly twelve keys. */
  lemma RegistrySize()
    ensures |Registry.Keys| == 12
  {
    KeysEnumerateRegistry();
    DistinctCard(Keys);
    assert Registry.Keys == set x | x in Keys;
  }

  /** The keys split into the four income keys and the eight expense keys, as the expense flag says. */
  lemma RegistryPartition()
    ensures Registry.Keys == IncomeKeys + ExpenseKeys
    ensures IncomeKeys !! ExpenseKeys
    ensures forall k :: k in Registry ==> (Registry[k].expense <==> k in ExpenseKeys)
  {
  }

  /** A registered key is flagged as an expense exactly when it is one of the expense keys, listed in `ExpenseKeyOrder`. */
  lemma ExpenseFlag(k: string)
    ensures k in Registry ==> (Registry[k].expense <==> k in ExpenseKeys)
    ensures k in ExpenseKeys <==> k in ExpenseKeyOrder
    ensures k in ExpenseKeys ==> k in Registry
  {
  }

  lemma ExpenseKeyOrderDistinct()
    ensures forall i, j :: 0 <= i < j < |ExpenseKeyOrder| ==> ExpenseKeyOrder[i] != ExpenseKeyOrder[j]
  {
  }

  /** No two keys share a title, so totals keyed by title and totals keyed by key agree. */
  lemma TitlesDistinct()
    ensures forall k1, k2 :: k1 in Registry && k2 in Registry && Registry[k1].title == Registry[k2].title ==> k1 == k2
  {
  }
}

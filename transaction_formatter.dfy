/**
 * `TransactionFormatter.format`: one flat row per transaction item, with
 * the date and the amount rendered by the locale formatters (parameters)
 * and the category key replaced by its display title.
 */
module TransactionFormatter {
  import opened App
  import opened Categories
  import opened ExportRows

  /** The name shown for a category key the registry lacks. */
  const Unknown: string := "Desconhecida"

  /** The keys of a formatted transaction, in order. */
  const Headers: seq<string> := ["Data", "Categoria", "Título", "Valor"]

  /** `getCategoryName`: the registered title, 'Desconhecida' for a key without an entry. */
  function CategoryName(key: string, categories: map<string, CategoryInfo>): string {
    if key in categories then categories[key].title else Unknown
  }

  /**
   * With the application's registry, the name is 'Desconhecida' exactly for
   * an unregistered key, because no registered title reads that way.
   */
  lemma RegistryNames(key: string)
    ensures CategoryName(key, Registry) == Unknown <==> key !in Registry
    ensures key in Registry ==> CategoryName(key, Registry) == Registry[key].title
  {
    KeysEnumerateRegistry();
    if key in Registry {
      assert key in Keys;
      assert |Unknown| == 12;
    }
  }

  /** The row of one item. */
  function Formatted(item: Item, categories: map<string, CategoryInfo>,
                     formatDate: int -> string, formatCurrency: real -> string): Row
  {
    [("Data", Str(formatDate(item.date))),
     ("Categoria", Str(CategoryName(item.category, categories))),
     ("Título", Str(item.title)),
     ("Valor", Str(formatCurrency(item.value)))]
  }

  /** `transactions.map(...)`. */
  function Format(transactions: seq<Item>, categories: map<string, CategoryInfo>,
                  formatDate: int -> string, formatCurrency: real -> string): (r: seq<Row>)
    ensures |r| == |transactions|
  {
    seq(|transactions|, i requires 0 <= i < |transactions| =>
      Formatted(transactions[i], categories, formatDate, formatCurrency))
  }

  /**
   * Row `i` belongs to item `i`: its keys are Data, Categoria, Título and
   * Valor, once each and in that order, and reading them back gives the
   * formatted date, the category name, the title unchanged and the
   * formatted amount.
   */
  lemma FormatSpec(transactions: seq<Item>, categories: map<string, CategoryInfo>,
                   formatDate: int -> string, formatCurrency: real -> string, i: nat)
    requires i < |transactions|
    ensures var row := Format(transactions, categories, formatDate, formatCurrency)[i];
      var t := transactions[i];
      && ObjectKeys(row) == Headers && DistinctKeys(row)
      && Lookup(row, "Data") == Str(formatDate(t.date))
      && Lookup(row, "Categoria") == Str(CategoryName(t.category, categories))
      && Lookup(row, "Título") == Str(t.title)
      && Lookup(row, "Valor") == Str(formatCurrency(t.value))
  {
    var row := Format(transactions, categories, formatDate, formatCurrency)[i];
    assert ObjectKeys(row) == Headers;
    LookupFinds(row, 0);
    LookupFinds(row, 1);
    LookupFinds(row, 2);
    LookupFinds(row, 3);
  }
}

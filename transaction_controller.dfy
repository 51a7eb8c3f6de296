/**
 * The transaction handlers: the filtered listing, get, create, update and
 * delete scoped to the calling user, and the twelve-month summary of a year.
 */
module TransactionController {
  import opened Wrappers
  import opened Sums
  import opened Sorting
  import opened Time
  import opened ServerStore

  /** The query string of the listing: month and year count only when both are given. */
  datatype Query = Query(month: Option<int>, year: Option<int>, kind: Option<string>)

  /** `new Date(year, month - 1, 1)`: the first instant of month `month` (1-based). */
  function MonthStart(year: int, month: int): int {
    MakeDate(year, month - 1, 1)
  }

  /** `new Date(year, month, 0)`: midnight at the start of the last day of month `month`. */
  function MonthEnd(year: int, month: int): int {
    MakeDate(year, month, 0)
  }

  /** `Op.between`: inclusive at both ends. */
  predicate Between(t: int, start: int, end: int) {
    start <= t <= end
  }

  /** The category `categoryId` is one of the caller's, with the given expense flag. */
  predicate OfType(categories: seq<CategoryRow>, user: nat, isExpense: bool, categoryId: nat) {
    exists c :: c in categories && c.id == categoryId && c.userId == user && c.isExpense == isExpense
  }

  /** The `where` clause of `getTransactions`. */
  function Matches(categories: seq<CategoryRow>, user: nat, q: Query): TransactionRow -> bool {
    (t: TransactionRow) =>
      && t.userId == user
      && (q.month.Some? && q.year.Some? ==> Between(t.date, MonthStart(q.year.value, q.month.value), MonthEnd(q.year.value, q.month.value)))
      && (Truthy(q.kind) ==> OfType(categories, user, q.kind.value == "expense", t.categoryId))
  }

  /** `ORDER BY date DESC`. */
  predicate DateDesc(a: TransactionRow, b: TransactionRow) {
    a.date >= b.date
  }

  lemma DateDescTotalPreorder()
    ensures TotalPreorder(DateDesc)
  {
  }

  /**
   * `getTransactions`: the caller's transactions, restricted to the month
   * when month and year are both given and to the caller's categories of
   * the requested kind when a type is given, newest first.
   */
  function GetTransactions(db: Database, user: nat, q: Query): (r: seq<TransactionRow>)
    reads db
    ensures multiset(r) == multiset(Filter(db.transactions, Matches(db.categories, user, q)))
    ensures forall t :: t in r <==> t in db.transactions && Matches(db.categories, user, q)(t)
    ensures SortedBy(r, DateDesc)
  {
    DateDescTotalPreorder();
    var selected := Filter(db.transactions, Matches(db.categories, user, q));
    FilterMembers(db.transactions, Matches(db.categories, user, q));
    var r := Sort(selected, DateDesc);
    assert forall t :: t in r <==> t in multiset(selected);
    r
  }

  /** Every listed transaction is the caller's; without month or type, all of the caller's are listed. */
  lemma ListingIsOwnerScoped(db: Database, user: nat, q: Query)
    ensures forall t :: t in GetTransactions(db, user, q) ==> t.userId == user
    ensures q.month.None? && !Truthy(q.kind)
      ==> forall t :: t in db.transactions && t.userId == user ==> t in GetTransactions(db, user, q)
  {
  }

  /**
   * The month window ends at midnight of the last day: the next month starts
   * one day later, so a transaction dated after midnight on the last day
   * falls outside both that month's window and the next one's.
   */
  lemma LastDayAfterMidnightExcluded(year: int, month: int, t: int)
    requires MonthEnd(year, month) < t < MonthEnd(year, month) + DayMs
    ensures MonthEnd(year, month) + DayMs == MonthStart(year, month + 1)
    ensures DayOf(t) == DayOf(MonthEnd(year, month))
    ensures !Between(t, MonthStart(year, month), MonthEnd(year, month))
    ensures !Between(t, MonthStart(year, month + 1), MonthEnd(year, month + 1))
  {
    DayZeroIsDayBefore(year, month);
    MakeDateIsMidnight(year, month, 0);
    var end := MonthEnd(year, month);
    SameDayWindow(end, t);
  }

  /** `getTransactionById`: the transaction with that id when the caller owns it, 404 otherwise. */
  function GetTransactionById(db: Database, user: nat, id: nat): (r: Result<TransactionRow, Status>)
    reads db
    ensures r.Success? <==> exists i :: 0 <= i < |db.transactions| && db.transactions[i].id == id && db.transactions[i].userId == user
    ensures r.Success? ==> r.value in db.transactions && r.value.id == id && r.value.userId == user
    ensures r.Failure? ==> r.error == NotFound
  {
    match FindOwned(db.transactions, TransactionKey, TransactionOwner, id, user)
    case None => Failure(NotFound)
    case Some(k) => Success(db.transactions[k])
  }

  /** The caller owns a category with this id. */
  predicate OwnsCategory(db: Database, user: nat, categoryId: nat)
    reads db
  {
    exists c :: c in db.categories && c.id == categoryId && c.userId == user
  }

  lemma FindOwnedCategory(db: Database, user: nat, categoryId: nat)
    ensures FindOwned(db.categories, CategoryKey, CategoryOwner, categoryId, user).Some? <==> OwnsCategory(db, user, categoryId)
  {
    var found := FindOwned(db.categories, CategoryKey, CategoryOwner, categoryId, user);
    if found.Some? {
      assert db.categories[found.value] in db.categories;
    } else {
      forall c | c in db.categories
        ensures !(c.id == categoryId && c.userId == user)
      {
        var i :| 0 <= i < |db.categories| && db.categories[i] == c;
      }
    }
  }

  /**
   * `createTransaction`: 400 and nothing stored when the category is not the
   * caller's; otherwise a new row with the given fields, the parsed date
   * (`new Date(date)`) and the caller as owner.
   */
  method CreateTransaction(db: Database, user: nat, title: string, amount: real, date: string,
                           description: Option<string>, categoryId: nat, parseDate: string -> int)
    returns (status: Status, created: Option<TransactionRow>)
    requires db.Valid()
    modifies db
    ensures db.Valid()
    ensures db.users == old(db.users) && db.categories == old(db.categories)
    ensures db.recommendations == old(db.recommendations)
    ensures !old(OwnsCategory(db, user, categoryId))
      ==> status == BadRequest && created.None? && db.transactions == old(db.transactions)
    ensures old(OwnsCategory(db, user, categoryId)) ==> (
      && status == Created
      && created == Some(TransactionRow(old(db.nextId), title, amount, parseDate(date), description, categoryId, user))
      && db.transactions == old(db.transactions) + [created.value]
      && (forall t :: t in old(db.transactions) ==> t.id != created.value.id))
  {
    FindOwnedCategory(db, user, categoryId);
    var category := FindOwned(db.categories, CategoryKey, CategoryOwner, categoryId, user);
    if category.None? {
      return BadRequest, None;
    }
    var id := db.FreshId();
    var row := TransactionRow(id, title, amount, parseDate(date), description, categoryId, user);
    AppendFresh(db.transactions, TransactionKey, id, row);
    db.transactions := db.transactions + [row];
    status, created := Created, Some(row);
  }

  /**
   * The request body of an update: each field may be absent; the
   * description may also be sent as null, the inner None.
   */
  datatype TransactionPatch = TransactionPatch(
    title: Option<string>,
    amount: Option<real>,
    date: Option<string>,
    description: Option<Option<string>>,
    categoryId: Option<nat>)

  /**
   * The merge of `updateTransaction`: title and date are replaced only by a
   * truthy value, amount and description by any value that is not
   * `undefined`, the category by any id sent; id and owner never change.
   */
  function MergeTransaction(t: TransactionRow, patch: TransactionPatch, parseDate: string -> int): (r: TransactionRow)
    ensures r.id == t.id && r.userId == t.userId
    ensures r.title == (if Truthy(patch.title) then patch.title.value else t.title)
    ensures r.amount == (if patch.amount.Some? then patch.amount.value else t.amount)
    ensures r.date == (if Truthy(patch.date) then parseDate(patch.date.value) else t.date)
    ensures r.description == (if patch.description.Some? then patch.description.value else t.description)
    ensures r.categoryId == (if patch.categoryId.Some? then patch.categoryId.value else t.categoryId)
  {
    t.(title := OrElse(patch.title, t.title),
       amount := patch.amount.GetOr(t.amount),
       date := if Truthy(patch.date) then parseDate(patch.date.value) else t.date,
       description := patch.description.GetOr(t.description),
       categoryId := patch.categoryId.GetOr(t.categoryId))
  }

  /** An amount of 0 is applied (it is not `undefined`), while an empty title is ignored (it is falsy). */
  lemma ZeroAmountAppliedEmptyTitleIgnored(t: TransactionRow, parseDate: string -> int)
    ensures MergeTransaction(t, TransactionPatch(Some(""), Some(0.0), None, None, None), parseDate)
      == t.(amount := 0.0)
  {
  }

  /**
   * `updateTransaction`: a category that is sent must be the caller's, or
   * the answer is 400 (checked before the transaction is looked up); a
   * transaction the caller does not own gives 404; in both cases nothing
   * changes. Otherwise the merged row replaces the old one.
   */
  method UpdateTransaction(db: Database, user: nat, id: nat, patch: TransactionPatch, parseDate: string -> int)
    returns (status: Status, updated: Option<TransactionRow>)
    requires db.Valid()
    modifies db
    ensures db.Valid()
    ensures db.users == old(db.users) && db.categories == old(db.categories)
    ensures db.recommendations == old(db.recommendations) && db.nextId == old(db.nextId)
    ensures patch.categoryId.Some? && !old(OwnsCategory(db, user, patch.categoryId.value))
      ==> status == BadRequest && updated.None? && db.transactions == old(db.transactions)
    ensures (patch.categoryId.None? || old(OwnsCategory(db, user, patch.categoryId.value)))
        && old(GetTransactionById(db, user, id)).Failure?
      ==> status == NotFound && updated.None? && db.transactions == old(db.transactions)
    ensures (patch.categoryId.None? || old(OwnsCategory(db, user, patch.categoryId.value)))
        && old(GetTransactionById(db, user, id)).Success?
      ==> status == Ok
    ensures status == Ok ==> (
      && old(GetTransactionById(db, user, id)).Success?
      && updated == Some(MergeTransaction(old(GetTransactionById(db, user, id)).value, patch, parseDate))
      && (exists k :: (0 <= k < |old(db.transactions)| && old(db.transactions)[k] == old(GetTransactionById(db, user, id)).value
                       && db.transactions == old(db.transactions)[k := updated.value])))
    ensures status in {Ok, BadRequest, NotFound}
    ensures status != Ok ==> db.transactions == old(db.transactions)
  {
    if patch.categoryId.Some? {
      FindOwnedCategory(db, user, patch.categoryId.value);
      var category := FindOwned(db.categories, CategoryKey, CategoryOwner, patch.categoryId.value, user);
      if category.None? {
        return BadRequest, None;
      }
    }
    var found := FindOwned(db.transactions, TransactionKey, TransactionOwner, id, user);
    if found.None? {
      return NotFound, None;
    }
    var k := found.value;
    var row := MergeTransaction(db.transactions[k], patch, parseDate);
    SameKeys(db.transactions, db.transactions[k := row], TransactionKey, db.nextId);
    db.transactions := db.transactions[k := row];
    status, updated := Ok, Some(row);
  }

  /** `deleteTransaction`: 404 and no change for a transaction the caller does not own; otherwise exactly that row goes. */
  method DeleteTransaction(db: Database, user: nat, id: nat) returns (status: Status)
    requires db.Valid()
    modifies db
    ensures db.Valid()
    ensures db.users == old(db.users) && db.categories == old(db.categories)
    ensures db.recommendations == old(db.recommendations) && db.nextId == old(db.nextId)
    ensures old(GetTransactionById(db, user, id)).Failure? ==> status == NotFound && db.transactions == old(db.transactions)
    ensures old(GetTransactionById(db, user, id)).Success? ==> (
      && status == Ok
      && (exists k :: (0 <= k < |old(db.transactions)| && old(db.transactions)[k].id == id
                       && db.transactions == old(db.transactions)[..k] + old(db.transactions)[k + 1..])))
  {
    var found := FindOwned(db.transactions, TransactionKey, TransactionOwner, id, user);
    if found.None? {
      return NotFound;
    }
    WithoutRemovesOne(db.transactions, TransactionKey, db.nextId, found.value);
    WithoutKeys(db.transactions, TransactionKey, db.nextId, id);
    db.transactions := Without(db.transactions, TransactionKey, id);
    status := Ok;
  }

  /** One line of the yearly summary. */
  datatype MonthSummary = MonthSummary(month: nat, monthName: string, income: real, expenses: real, balance: real)

  function Amount(t: TransactionRow): real {
    t.amount
  }

  /** The `where` clause of one `Transaction.sum` of the summary: the caller's, of the kind, in month index `m0`. */
  function InSummaryMonth(categories: seq<CategoryRow>, user: nat, isExpense: bool, year: int, m0: int): TransactionRow -> bool {
    (t: TransactionRow) =>
      && t.userId == user
      && OfType(categories, user, isExpense, t.categoryId)
      && Between(t.date, MakeDate(year, m0, 1), MakeDate(year, m0 + 1, 0))
  }

  /** `Transaction.sum('amount', …) || 0`: the sum of the matching amounts, 0 when nothing matches. */
  function MonthTotal(db: Database, user: nat, isExpense: bool, year: int, m0: int): real
    reads db
  {
    Sum(Filter(db.transactions, InSummaryMonth(db.categories, user, isExpense, year, m0)), Amount)
  }

  /**
   * `getTransactionSummary`: for each month of the year (the query's, or the
   * current one) a line with its number, its name, and the income,
   * expenses and balance of the caller's transactions in that month.
   */
  method GetTransactionSummary(db: Database, user: nat, year: Option<int>, now: int, monthName: int -> string)
    returns (summary: seq<MonthSummary>)
    ensures |summary| == 12
    ensures forall i :: 0 <= i < 12 ==> summary[i].month == i + 1
    ensures forall i :: 0 <= i < 12 ==> summary[i].monthName == monthName(MakeDate(year.GetOr(YearOf(now)), i, 1))
    ensures forall i :: 0 <= i < 12 ==> summary[i].income == MonthTotal(db, user, false, year.GetOr(YearOf(now)), i)
    ensures forall i :: 0 <= i < 12 ==> summary[i].expenses == MonthTotal(db, user, true, year.GetOr(YearOf(now)), i)
    ensures forall i :: 0 <= i < 12 ==> summary[i].balance == summary[i].income - summary[i].expenses
  {
    var currentYear := year.GetOr(YearOf(now));
    summary := [];
    var month := 0;
    while month < 12
      invariant 0 <= month <= 12 && |summary| == month
      invariant forall i :: 0 <= i < month ==> summary[i] == MonthSummary(i + 1, monthName(MakeDate(currentYear, i, 1)),
        MonthTotal(db, user, false, currentYear, i), MonthTotal(db, user, true, currentYear, i),
        MonthTotal(db, user, false, currentYear, i) - MonthTotal(db, user, true, currentYear, i))
    {
      var expenses := MonthTotal(db, user, true, currentYear, month);
      var income := MonthTotal(db, user, false, currentYear, month);
      summary := summary + [MonthSummary(month + 1, monthName(MakeDate(currentYear, month, 1)), income, expenses, income - expenses)];
      month := month + 1;
    }
  }

  /**
   * The summary agrees with the listing: a month's expenses (income) are the
   * sum of the amounts `getTransactions` lists for that month and year with
   * type 'expense' (any other type).
   */
  lemma SummaryAgreesWithListing(db: Database, user: nat, year: int, month: int, kind: string)
    requires 1 <= month <= 12 && kind != ""
    ensures MonthTotal(db, user, kind == "expense", year, month - 1)
      == Sum(GetTransactions(db, user, Query(Some(month), Some(year), Some(kind))), Amount)
  {
    var q := Query(Some(month), Some(year), Some(kind));
    var p := Matches(db.categories, user, q);
    var s := InSummaryMonth(db.categories, user, kind == "expense", year, month - 1);
    FilterCongruent(db.transactions, s, p);
    SumPermutation(Filter(db.transactions, p), GetTransactions(db, user, q), Amount);
  }
}

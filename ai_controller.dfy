/**
 * The recommendation handlers: the caller's latest recommendations, a new
 * recommendation built from the last three months of the caller's
 * transactions, and marking one as read.
 */
module AiController {
  import opened Wrappers
  import opened Sums
  import opened Sorting
  import opened Time
  import opened Records
  import opened ServerStore
  import opened AiService
  import TransactionController

  /** The most recommendations one listing returns. */
  const ListingLimit: nat := 10

  /** `ORDER BY createdAt DESC`. */
  predicate CreatedDesc(a: RecommendationRow, b: RecommendationRow) {
    a.createdAt >= b.createdAt
  }

  lemma CreatedDescTotalPreorder()
    ensures TotalPreorder(CreatedDesc)
  {
  }

  function RecommendationOwnedBy(user: nat): RecommendationRow -> bool {
    (r: RecommendationRow) => r.userId == user
  }

  /** The caller's recommendations, newest first. */
  function OwnRecommendations(db: Database, user: nat): (r: seq<RecommendationRow>)
    reads db
    ensures multiset(r) == multiset(Filter(db.recommendations, RecommendationOwnedBy(user)))
    ensures forall x :: x in r <==> x in db.recommendations && x.userId == user
    ensures SortedBy(r, CreatedDesc)
  {
    CreatedDescTotalPreorder();
    var owned := Filter(db.recommendations, RecommendationOwnedBy(user));
    FilterMembers(db.recommendations, RecommendationOwnedBy(user));
    var r := Sort(owned, CreatedDesc);
    assert forall x :: x in r <==> x in multiset(owned);
    r
  }

  /** `getRecommendations`: the first ten of the caller's recommendations, newest first. */
  function GetRecommendations(db: Database, user: nat): (r: seq<RecommendationRow>)
    reads db
    ensures |r| <= ListingLimit && |r| <= |OwnRecommendations(db, user)|
    ensures r == OwnRecommendations(db, user)[..|r|]
    ensures |r| == ListingLimit || r == OwnRecommendations(db, user)
  {
    var own := OwnRecommendations(db, user);
    if |own| <= ListingLimit then own else own[..ListingLimit]
  }

  /**
   * The listing holds only the caller's rows, newest first, and none of the
   * caller's rows left out is newer than one listed.
   */
  lemma ListingIsNewestOwn(db: Database, user: nat)
    ensures forall x :: x in GetRecommendations(db, user) ==> x in db.recommendations && x.userId == user
    ensures SortedBy(GetRecommendations(db, user), CreatedDesc)
    ensures forall x, y ::
      (x in db.recommendations && x.userId == user && x !in GetRecommendations(db, user) && y in GetRecommendations(db, user))
      ==> x.createdAt <= y.createdAt
  {
    var own := OwnRecommendations(db, user);
    var r := GetRecommendations(db, user);
    forall x | x in r ensures x in own {
      var i :| 0 <= i < |r| && r[i] == x;
      assert own[i] == x;
    }
    assert forall m :: 0 <= m < |r| ==> own[m] == r[m];
    forall x, y | x in db.recommendations && x.userId == user && x !in r && y in r
      ensures x.createdAt <= y.createdAt
    {
      var j :| 0 <= j < |own| && own[j] == x;
      var i :| 0 <= i < |r| && r[i] == y;
      assert own[i] == y;
    }
  }

  /** The cutoff of the query: three calendar months before now. */
  function ThreeMonthsAgo(now: int): int {
    AddMonths(now, -3)
  }

  function InWindow(user: nat, cutoff: int): TransactionRow -> bool {
    (t: TransactionRow) => t.userId == user && t.date >= cutoff
  }

  /** The rows of the query: the caller's transactions dated at or after the cutoff, newest first. */
  function RecentRows(transactions: seq<TransactionRow>, user: nat, cutoff: int): (r: seq<TransactionRow>)
    ensures multiset(r) == multiset(Filter(transactions, InWindow(user, cutoff)))
    ensures forall t :: t in r <==> t in transactions && t.userId == user && t.date >= cutoff
    ensures SortedBy(r, TransactionController.DateDesc)
  {
    TransactionController.DateDescTotalPreorder();
    var rows := Filter(transactions, InWindow(user, cutoff));
    FilterMembers(transactions, InWindow(user, cutoff));
    var r := Sort(rows, TransactionController.DateDesc);
    assert forall t :: t in r <==> t in multiset(rows);
    r
  }

  function HasId(id: nat): CategoryRow -> bool {
    (c: CategoryRow) => c.id == id
  }

  /** A transaction with the name, title and flag of its joined category. */
  function Joined(t: TransactionRow, c: CategoryRow): Transaction {
    Transaction(t.amount, CategoryRef(c.name, c.title, c.isExpense), t.date)
  }

  /** The category row a transaction row joins with: the first one carrying its category id. */
  function CategoryOf(t: TransactionRow, categories: seq<CategoryRow>): (r: Option<CategoryRow>)
    ensures r.None? <==> forall c :: c in categories ==> c.id != t.categoryId
    ensures r.Some? ==> r.value in categories && r.value.id == t.categoryId
  {
    match FindFirst(categories, HasId(t.categoryId))
    case None => None
    case Some(k) => Some(categories[k])
  }

  /**
   * The `include: [Category]` join. A transaction with no category row for
   * its `categoryId` comes back with a null category, and reading
   * `category.isExpense` then throws: `None`.
   */
  function Join(rows: seq<TransactionRow>, categories: seq<CategoryRow>): (r: Option<seq<Transaction>>)
    ensures r.None? <==> exists i :: 0 <= i < |rows| && CategoryOf(rows[i], categories).None?
    ensures r.Some? ==> |r.value| == |rows|
    ensures r.Some? ==> forall i :: 0 <= i < |rows| ==> r.value[i] == Joined(rows[i], CategoryOf(rows[i], categories).value)
  {
    if rows == [] then Some([])
    else
      var n := |rows| - 1;
      assert forall i :: 0 <= i < n ==> rows[..n][i] == rows[i];
      match Join(rows[..n], categories)
      case None => None
      case Some(init) =>
        match CategoryOf(rows[n], categories)
        case None => None
        case Some(c) =>
          var r := init + [Joined(rows[n], c)];
          assert forall i :: 0 <= i < n ==> r[i] == init[i];
          Some(r)
  }

  /** The context the handler hands to the service. */
  function ContextOf(list: seq<Transaction>): FinancialContext {
    FinancialContext(
      Income(list),
      Expenses(list),
      Income(list) - Expenses(list),
      SavingsRate(Income(list), Expenses(list)),
      Breakdown(list),
      |list|,
      "3 months")
  }

  /**
   * The `forEach` over the transactions: each amount goes to the income or
   * the expense total by its category's flag, and to its category name's
   * entry, created on first sight.
   */
  method Aggregate(list: seq<Transaction>) returns (totalIncome: real, totalExpenses: real, categoryTotals: seq<Entry>)
    ensures totalIncome == Income(list) && totalExpenses == Expenses(list)
    ensures categoryTotals == Breakdown(list)
  {
    totalIncome, totalExpenses, categoryTotals := 0.0, 0.0, [];
    var i := 0;
    while i < |list|
      invariant 0 <= i <= |list|
      invariant totalIncome == Sum(list[..i], IncomeAmount)
      invariant totalExpenses == Sum(list[..i], ExpenseAmount)
      invariant categoryTotals == Breakdown(list[..i])
    {
      var t := list[i];
      assert list[..i + 1][..i] == list[..i];
      if t.category.isExpense {
        totalExpenses := totalExpenses + t.amount;
      } else {
        totalIncome := totalIncome + t.amount;
      }
      BreakdownPrefix(list, i);
      categoryTotals := AddTransaction(categoryTotals, t);
      i := i + 1;
    }
    assert list[..i] == list;
    IncomeExpensesSplit(list);
  }

  /**
   * Every amount goes to exactly one of the two totals, by its category's
   * flag, so together they are the sum of all amounts; each category entry
   * holds the sum of its name's amounts and the flag and title of its first
   * transaction; the balance is income minus expenses.
   */
  lemma ContextTotals(list: seq<Transaction>)
    ensures ContextOf(list).totalExpenses == Sum(list, ExpenseAmount)
    ensures ContextOf(list).totalIncome == Sum(list, IncomeAmount)
    ensures ContextOf(list).totalIncome + ContextOf(list).totalExpenses == Sum(list, Amount)
    ensures ContextOf(list).balance == ContextOf(list).totalIncome - ContextOf(list).totalExpenses
    ensures forall e :: e in ContextOf(list).breakdown ==> EntryAgrees(list, e)
    ensures ContextOf(list).transactionCount == |list|
  {
    IncomeExpensesSplit(list);
    BreakdownEntries(list);
    forall e | e in Breakdown(list) ensures EntryAgrees(list, e) {
      var i :| 0 <= i < |Breakdown(list)| && Breakdown(list)[i] == e;
    }
  }

  /**
   * The advice on a list is a budget warning exactly when there is income
   * and the expenses exceed it; the deficit it reports, the absolute
   * balance, is then the excess of expenses over income. Without income
   * there is never a budget warning.
   */
  lemma BudgetIffDeficit(list: seq<Transaction>)
    ensures Classify(ContextOf(list).savingsRate) == Budget <==> Income(list) > 0.0 && Expenses(list) > Income(list)
    ensures Classify(ContextOf(list).savingsRate) == Budget ==>
      Abs(ContextOf(list).balance) == Expenses(list) - Income(list)
  {
  }

  /** The row stored for the advice on a list of transactions: unread, created now. */
  function Stored(id: nat, list: seq<Transaction>, fix: (real, nat) -> string, tip: string, now: int, user: nat): RecommendationRow {
    var kind := Classify(ContextOf(list).savingsRate);
    RecommendationRow(id, Title(kind), Content(ContextOf(list), fix, tip), KindName(kind), false, now, user)
  }

  /**
   * The middle of `generateRecommendation`: the aggregation loop, the
   * context expression and the service call.
   */
  method AdviseOn(transactions: seq<Transaction>, fix: (real, nat) -> string, tipIndex: nat) returns (advice: Advice)
    requires tipIndex < |Tips|
    ensures advice.kind == Classify(ContextOf(transactions).savingsRate) && advice.title == Title(advice.kind)
    ensures advice.content == Content(ContextOf(transactions), fix, Tips[tipIndex])
  {
    var totalIncome, totalExpenses, categoryTotals := Aggregate(transactions);
    var financialContext := FinancialContext(
      totalIncome,
      totalExpenses,
      totalIncome - totalExpenses,
      SavingsRate(totalIncome, totalExpenses),
      categoryTotals,
      |transactions|,
      "3 months");
    assert financialContext == ContextOf(transactions);
    advice := GenerateFinancialAdvice(financialContext, fix, tipIndex);
  }

  /**
   * What `generateRecommendation` creates for a store holding these
   * transactions and categories: nothing when the join fails, otherwise the
   * advice on the joined rows under the next id.
   */
  function Generated(transactions: seq<TransactionRow>, categories: seq<CategoryRow>, user: nat, now: int, id: nat,
                     fix: (real, nat) -> string, tip: string): Option<RecommendationRow>
  {
    var joined := Join(RecentRows(transactions, user, ThreeMonthsAgo(now)), categories);
    if joined.None? then None else Some(Stored(id, joined.value, fix, tip, now, user))
  }

  /**
   * Nothing is created exactly when one of the caller's transactions in the
   * window refers to a category that no longer exists; what is created is
   * the caller's, unread, created now, under the given id.
   */
  lemma GeneratedIff(transactions: seq<TransactionRow>, categories: seq<CategoryRow>, user: nat, now: int, id: nat,
                     fix: (real, nat) -> string, tip: string)
    ensures Generated(transactions, categories, user, now, id, fix, tip).None? <==>
      exists t :: t in transactions && t.userId == user && t.date >= ThreeMonthsAgo(now)
                  && forall c :: c in categories ==> c.id != t.categoryId
    ensures var g := Generated(transactions, categories, user, now, id, fix, tip);
      g.Some? ==> g.value.id == id && g.value.userId == user && g.value.createdAt == now && !g.value.isRead
  {
    var rows := RecentRows(transactions, user, ThreeMonthsAgo(now));
    if Join(rows, categories).None? {
      var i :| 0 <= i < |rows| && CategoryOf(rows[i], categories).None?;
      assert rows[i] in rows;
    } else {
      forall t | t in transactions && t.userId == user && t.date >= ThreeMonthsAgo(now)
        ensures exists c :: c in categories && c.id == t.categoryId
      {
        assert t in rows;
        var i :| 0 <= i < |rows| && rows[i] == t;
        assert CategoryOf(rows[i], categories).Some?;
      }
    }
  }

  /** The query, the join and the service call of `generateRecommendation`. */
  method Prepare(transactions: seq<TransactionRow>, categories: seq<CategoryRow>, user: nat, now: int, id: nat,
                 fix: (real, nat) -> string, tipIndex: nat) returns (r: Option<RecommendationRow>)
    requires tipIndex < |Tips|
    ensures r == Generated(transactions, categories, user, now, id, fix, Tips[tipIndex])
    ensures r.Some? ==> r.value.id == id && r.value.userId == user && r.value.createdAt == now && !r.value.isRead
  {
    var threeMonthsAgo := ThreeMonthsAgo(now);
    var rows := RecentRows(transactions, user, threeMonthsAgo);
    var joined := Join(rows, categories);
    if joined.None? {
      return None;
    }
    var advice := AdviseOn(joined.value, fix, tipIndex);
    r := Some(RecommendationRow(id, advice.title, advice.content, KindName(advice.kind), false, now, user));
  }

  /**
   * `generateRecommendation`: the caller's transactions of the last three
   * months, newest first, joined with their categories, aggregated into a
   * context; the service's advice is stored as a new unread recommendation
   * of the caller, created now. A transaction whose category is gone makes
   * the handler answer 500 without storing anything.
   */
  method GenerateRecommendation(db: Database, user: nat, now: int, fix: (real, nat) -> string, tipIndex: nat)
    returns (status: Status, created: Option<RecommendationRow>)
    requires db.Valid() && tipIndex < |Tips|
    modifies db
    ensures db.Valid()
    ensures db.users == old(db.users) && db.categories == old(db.categories) && db.transactions == old(db.transactions)
    ensures created == Generated(old(db.transactions), old(db.categories), user, now, old(db.nextId), fix, Tips[tipIndex])
    ensures created.None? ==> status == ServerError && db.recommendations == old(db.recommendations)
    ensures created.Some? ==> status == Created && db.recommendations == old(db.recommendations) + [created.value]
  {
    created := Prepare(db.transactions, db.categories, user, now, db.nextId, fix, tipIndex);
    if created.None? {
      return ServerError, None;
    }
    db.AddRecommendation(created.value);
    status := Created;
  }

  /**
   * `markRecommendationAsRead`: 404 and no change when the caller owns no
   * recommendation with that id; otherwise only that row's read flag is set.
   */
  method MarkRecommendationAsRead(db: Database, user: nat, id: nat) returns (status: Status)
    requires db.Valid()
    modifies db
    ensures db.Valid()
    ensures db.users == old(db.users) && db.categories == old(db.categories) && db.transactions == old(db.transactions)
    ensures db.nextId == old(db.nextId)
    ensures var found := FindOwned(old(db.recommendations), RecommendationKey, RecommendationOwner, id, user);
      && (found.None? ==> status == NotFound && db.recommendations == old(db.recommendations))
      && (found.Some? ==>
            status == Ok
            && db.recommendations == old(db.recommendations)[found.value := old(db.recommendations)[found.value].(isRead := true)])
  {
    var found := FindOwned(db.recommendations, RecommendationKey, RecommendationOwner, id, user);
    if found.None? {
      return NotFound;
    }
    var k := found.value;
    var row := db.recommendations[k].(isRead := true);
    SameKeys(db.recommendations, db.recommendations[k := row], RecommendationKey, db.nextId);
    db.recommendations := db.recommendations[k := row];
    status := Ok;
  }
}

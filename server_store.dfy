/**
 * The server's tables as an in-memory store: users, categories,
 * transactions and recommendations, each row keyed by an id and owned by a
 * user. Ids come from a counter, standing for the UUIDs the database draws.
 */
module ServerStore {
  import opened Wrappers
  import opened Sums

  datatype UserRow = UserRow(
    id: nat,
    name: string,
    email: string,
    password: string,
    isVerified: bool,
    verificationToken: Option<string>,
    resetPasswordToken: Option<string>,
    resetPasswordExpires: Option<int>)

  datatype CategoryRow = CategoryRow(id: nat, name: string, title: string, color: string, isExpense: bool, userId: nat)

  datatype TransactionRow = TransactionRow(
    id: nat,
    title: string,
    amount: real,
    date: int,
    description: Option<string>,
    categoryId: nat,
    userId: nat)

  datatype RecommendationRow = RecommendationRow(
    id: nat,
    title: string,
    content: string,
    kind: string,
    isRead: bool,
    createdAt: int,
    userId: nat)

  /** The outcome of a handler: 200, 201, 400, 401, 404 or 500. */
  datatype Status = Ok | Created | BadRequest | Unauthorized | NotFound | ServerError

  /** Every id is below `next` and no two rows share one: the primary-key constraint. */
  predicate KeysBelow<T>(rows: seq<T>, key: T -> nat, next: nat) {
    && (forall i :: 0 <= i < |rows| ==> key(rows[i]) < next)
    && (forall i, j :: 0 <= i < j < |rows| ==> key(rows[i]) != key(rows[j]))
  }

  /**
   * `findOne({ where: { id, userId } })`: the first row with that id owned by
   * that user, if any.
   */
  function FindOwned<T>(rows: seq<T>, key: T -> nat, owner: T -> nat, id: nat, user: nat): (r: Option<nat>)
    ensures r.None? <==> forall i :: 0 <= i < |rows| ==> !(key(rows[i]) == id && owner(rows[i]) == user)
    ensures r.Some? ==> r.value < |rows| && key(rows[r.value]) == id && owner(rows[r.value]) == user
    ensures r.Some? ==> forall i :: 0 <= i < r.value ==> !(key(rows[i]) == id && owner(rows[i]) == user)
  {
    if rows == [] then None
    else if key(rows[0]) == id && owner(rows[0]) == user then Some(0)
    else
      match FindOwned(rows[1..], key, owner, id, user)
      case None => None
      case Some(i) => Some(i + 1)
  }

  /** `destroy()` of the row with id `id`: every other row stays, in order. */
  function Without<T(!new)>(rows: seq<T>, key: T -> nat, id: nat): (r: seq<T>)
    ensures forall x :: x in r <==> x in rows && key(x) != id
  {
    FilterMembers(rows, (x: T) => key(x) != id);
    Filter(rows, (x: T) => key(x) != id)
  }

  /** With distinct keys, destroying the row at `k` removes exactly that row. */
  lemma WithoutRemovesOne<T(!new)>(rows: seq<T>, key: T -> nat, next: nat, k: nat)
    requires KeysBelow(rows, key, next) && k < |rows|
    ensures Without(rows, key, key(rows[k])) == rows[..k] + rows[k + 1..]
  {
    FilterRemovesOne(rows, (x: T) => key(x) != key(rows[k]), k);
  }

  function UserKey(u: UserRow): nat { u.id }
  function CategoryKey(c: CategoryRow): nat { c.id }
  function CategoryOwner(c: CategoryRow): nat { c.userId }
  function TransactionKey(t: TransactionRow): nat { t.id }
  function TransactionOwner(t: TransactionRow): nat { t.userId }
  function RecommendationKey(r: RecommendationRow): nat { r.id }
  function RecommendationOwner(r: RecommendationRow): nat { r.userId }

  /** The database: one sequence per table, and the next free id. */
  class Database {
    var users: seq<UserRow>
    var categories: seq<CategoryRow>
    var transactions: seq<TransactionRow>
    var recommendations: seq<RecommendationRow>
    var nextId: nat

    /** Primary keys are distinct and below the counter in every table. */
    predicate Valid()
      reads this
    {
      && KeysBelow(users, UserKey, nextId)
      && KeysBelow(categories, CategoryKey, nextId)
      && KeysBelow(transactions, TransactionKey, nextId)
      && KeysBelow(recommendations, RecommendationKey, nextId)
    }

    constructor ()
      ensures Valid()
      ensures users == [] && categories == [] && transactions == [] && recommendations == []
    {
      users, categories, transactions, recommendations := [], [], [], [];
      nextId := 0;
    }

    /** Draws a fresh id: one that no row of any table carries. */
    method FreshId() returns (id: nat)
      requires Valid()
      modifies this
      ensures Valid()
      ensures id == old(nextId) && nextId == id + 1
      ensures users == old(users) && categories == old(categories)
      ensures transactions == old(transactions) && recommendations == old(recommendations)
    {
      id := nextId;
      nextId := nextId + 1;
    }

    /** Inserts a recommendation under the next id, which it consumes. */
    method AddRecommendation(row: RecommendationRow)
      requires Valid() && row.id == nextId
      modifies this
      ensures Valid()
      ensures recommendations == old(recommendations) + [row] && nextId == old(nextId) + 1
      ensures users == old(users) && categories == old(categories) && transactions == old(transactions)
    {
      var id := FreshId();
      AppendFresh(recommendations, RecommendationKey, id, row);
      recommendations := recommendations + [row];
    }
  }

  /** Appending a row with the counter's id keeps the keys distinct and below the advanced counter. */
  lemma AppendFresh<T>(rows: seq<T>, key: T -> nat, next: nat, row: T)
    requires KeysBelow(rows, key, next) && key(row) == next
    ensures KeysBelow(rows + [row], key, next + 1)
  {
  }

  /** Rows that keep their keys keep the key constraint. */
  lemma SameKeys<T>(rows: seq<T>, rows': seq<T>, key: T -> nat, next: nat)
    requires KeysBelow(rows, key, next) && |rows'| == |rows|
    requires forall i :: 0 <= i < |rows| ==> key(rows'[i]) == key(rows[i])
    ensures KeysBelow(rows', key, next)
  {
  }

  /** Removing rows keeps the key constraint. */
  lemma WithoutKeys<T(!new)>(rows: seq<T>, key: T -> nat, next: nat, id: nat)
    requires KeysBelow(rows, key, next)
    ensures KeysBelow(Without(rows, key, id), key, next)
  {
    var p := (x: T) => key(x) != id;
    FilterIsSubsequence(rows, p);
    SubsequenceKeys(Filter(rows, p), rows, key, next);
  }

  lemma {:induction false} SubsequenceKeys<T>(r: seq<T>, s: seq<T>, key: T -> nat, next: nat)
    requires IsSubsequence(r, s) && KeysBelow(s, key, next)
    ensures KeysBelow(r, key, next)
    decreases |s|
  {
    if r != [] {
      var n := |s| - 1;
      assert KeysBelow(s[..n], key, next);
      if r[|r| - 1] == s[n] {
        SubsequenceKeys(r[..|r| - 1], s[..n], key, next);
        SubsequenceMembers(r[..|r| - 1], s[..n]);
        forall i | 0 <= i < |r| - 1
          ensures key(r[i]) != key(r[|r| - 1])
        {
          assert r[..|r| - 1][i] in s[..n];
          var j :| 0 <= j < n && s[..n][j] == r[i];
        }
      } else {
        SubsequenceKeys(r, s[..n], key, next);
      }
    }
  }

  lemma {:induction false} SubsequenceMembers<T>(r: seq<T>, s: seq<T>)
    requires IsSubsequence(r, s)
    ensures forall x :: x in r ==> x in s
    decreases |s|
  {
    if r != [] {
      var n := |s| - 1;
      if r[|r| - 1] == s[n] {
        SubsequenceMembers(r[..|r| - 1], s[..n]);
        assert r == r[..|r| - 1] + [r[|r| - 1]];
      } else {
        SubsequenceMembers(r, s[..n]);
      }
      assert s == s[..n] + [s[n]];
    }
  }
}

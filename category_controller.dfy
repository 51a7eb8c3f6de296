/**
 * The category handlers: list, get, create, update and delete, each scoped
 * to the calling user. A category of another user is treated exactly like a
 * missing one.
 */
module CategoryController {
  import opened Wrappers
  import opened Sorting
  import opened Sums
  import opened ServerStore

  /** `ORDER BY name ASC`, by code points. */
  predicate NameLe(a: CategoryRow, b: CategoryRow) {
    StrLe(a.name, b.name)
  }

  lemma NameLeTotalPreorder()
    ensures TotalPreorder(NameLe)
  {
    forall x: CategoryRow, y: CategoryRow ensures NameLe(x, y) || NameLe(y, x) {
      StrLeTotal(x.name, y.name);
    }
    forall x: CategoryRow, y: CategoryRow, z: CategoryRow | NameLe(x, y) && NameLe(y, z) ensures NameLe(x, z) {
      StrLeTransitive(x.name, y.name, z.name);
    }
  }

  function OwnedBy(user: nat): CategoryRow -> bool {
    (c: CategoryRow) => c.userId == user
  }

  /** `getCategories`: the caller's categories, and only those, sorted by name. */
  function GetCategories(db: Database, user: nat): (r: seq<CategoryRow>)
    reads db
    ensures multiset(r) == multiset(Filter(db.categories, OwnedBy(user)))
    ensures forall c :: c in r <==> c in db.categories && c.userId == user
    ensures SortedBy(r, NameLe)
  {
    NameLeTotalPreorder();
    var owned := Filter(db.categories, OwnedBy(user));
    FilterMembers(db.categories, OwnedBy(user));
    var r := Sort(owned, NameLe);
    assert forall c :: c in r <==> c in multiset(owned);
    r
  }

  /** `getCategoryById`: the category with that id when the caller owns it, 404 otherwise. */
  function GetCategoryById(db: Database, user: nat, id: nat): (r: Result<CategoryRow, Status>)
    reads db
    ensures r.Success? <==> exists i :: 0 <= i < |db.categories| && db.categories[i].id == id && db.categories[i].userId == user
    ensures r.Success? ==> r.value in db.categories && r.value.id == id && r.value.userId == user
    ensures r.Failure? ==> r.error == NotFound
  {
    match FindOwned(db.categories, CategoryKey, CategoryOwner, id, user)
    case None => Failure(NotFound)
    case Some(k) => Success(db.categories[k])
  }

  /** The request body of an update: each field may be absent. */
  datatype CategoryPatch = CategoryPatch(name: Option<string>, title: Option<string>, color: Option<string>, isExpense: Option<bool>)

  /**
   * The merge of `updateCategory`: name, title and color are replaced only by
   * a truthy value (`x || old`), isExpense by any value that is not
   * `undefined`; id and owner never change.
   */
  function MergeCategory(c: CategoryRow, patch: CategoryPatch): (r: CategoryRow)
    ensures r.id == c.id && r.userId == c.userId
    ensures r.name == (if Truthy(patch.name) then patch.name.value else c.name)
    ensures r.title == (if Truthy(patch.title) then patch.title.value else c.title)
    ensures r.color == (if Truthy(patch.color) then patch.color.value else c.color)
    ensures r.isExpense == (if patch.isExpense.Some? then patch.isExpense.value else c.isExpense)
  {
    c.(name := OrElse(patch.name, c.name),
       title := OrElse(patch.title, c.title),
       color := OrElse(patch.color, c.color),
       isExpense := patch.isExpense.GetOr(c.isExpense))
  }

  /** An empty body, or one whose strings are all '', changes nothing. */
  lemma EmptyPatchKeepsRow(c: CategoryRow, name: Option<string>, title: Option<string>, color: Option<string>)
    requires !Truthy(name) && !Truthy(title) && !Truthy(color)
    ensures MergeCategory(c, CategoryPatch(name, title, color, None)) == c
  {
  }

  /** Sending the same body twice is the same as sending it once. */
  lemma MergeIdempotent(c: CategoryRow, patch: CategoryPatch)
    ensures MergeCategory(MergeCategory(c, patch), patch) == MergeCategory(c, patch)
  {
  }

  /**
   * `createCategory`: a new row with the given fields and the caller as
   * owner; `isExpense` defaults to true. A missing name, title or color
   * violates the NOT NULL columns, and the handler answers 500 without
   * storing anything.
   */
  method CreateCategory(db: Database, user: nat, name: Option<string>, title: Option<string>, color: Option<string>, isExpense: Option<bool>)
    returns (status: Status, created: Option<CategoryRow>)
    requires db.Valid()
    modifies db
    ensures db.Valid()
    ensures db.users == old(db.users) && db.transactions == old(db.transactions)
    ensures db.recommendations == old(db.recommendations)
    ensures name.None? || title.None? || color.None?
      ==> status == ServerError && created.None? && db.categories == old(db.categories)
    ensures name.Some? && title.Some? && color.Some? ==> status == Created && created.Some?
    ensures created.Some? ==> (
      && db.categories == old(db.categories) + [created.value]
      && created.value == CategoryRow(old(db.nextId), name.value, title.value, color.value, isExpense.GetOr(true), user)
      && (forall c :: c in old(db.categories) ==> c.id != created.value.id))
  {
    if name.None? || title.None? || color.None? {
      return ServerError, None;
    }
    var id := db.FreshId();
    var row := CategoryRow(id, name.value, title.value, color.value, isExpense.GetOr(true), user);
    AppendFresh(db.categories, CategoryKey, id, row);
    db.categories := db.categories + [row];
    status, created := Created, Some(row);
  }

  /**
   * `updateCategory`: 404 and no change when the caller owns no category
   * with that id; otherwise the merged row replaces it and nothing else
   * changes.
   */
  method UpdateCategory(db: Database, user: nat, id: nat, patch: CategoryPatch)
    returns (status: Status, updated: Option<CategoryRow>)
    requires db.Valid()
    modifies db
    ensures db.Valid()
    ensures db.users == old(db.users) && db.transactions == old(db.transactions)
    ensures db.recommendations == old(db.recommendations) && db.nextId == old(db.nextId)
    ensures GetCategoryById(db, user, id).Failure? <==> old(GetCategoryById(db, user, id)).Failure?
    ensures old(GetCategoryById(db, user, id)).Failure?
      ==> status == NotFound && updated.None? && db.categories == old(db.categories)
    ensures old(GetCategoryById(db, user, id)).Success? ==> (
      && status == Ok
      && updated == Some(MergeCategory(old(GetCategoryById(db, user, id)).value, patch))
      && (exists k :: (0 <= k < |old(db.categories)| && old(db.categories)[k] == old(GetCategoryById(db, user, id)).value
                       && db.categories == old(db.categories)[k := updated.value])))
  {
    var found := FindOwned(db.categories, CategoryKey, CategoryOwner, id, user);
    if found.None? {
      return NotFound, None;
    }
    var k := found.value;
    var row := MergeCategory(db.categories[k], patch);
    SameKeys(db.categories, db.categories[k := row], CategoryKey, db.nextId);
    db.categories := db.categories[k := row];
    assert db.categories[k].id == id && db.categories[k].userId == user;
    status, updated := Ok, Some(row);
  }

  /**
   * `deleteCategory`: 404 and no change when the caller owns no category
   * with that id; otherwise exactly that row is removed. The transactions
   * table is left as it is: the referential action the database applies to
   * rows that refer to the category is not part of this model.
   */
  method DeleteCategory(db: Database, user: nat, id: nat) returns (status: Status)
    requires db.Valid()
    modifies db
    ensures db.Valid()
    ensures db.users == old(db.users) && db.transactions == old(db.transactions)
    ensures db.recommendations == old(db.recommendations) && db.nextId == old(db.nextId)
    ensures old(GetCategoryById(db, user, id)).Failure? ==> status == NotFound && db.categories == old(db.categories)
    ensures old(GetCategoryById(db, user, id)).Success? ==> (
      && status == Ok
      && (exists k :: (0 <= k < |old(db.categories)| && old(db.categories)[k].id == id
                       && db.categories == old(db.categories)[..k] + old(db.categories)[k + 1..])))
  {
    var found := FindOwned(db.categories, CategoryKey, CategoryOwner, id, user);
    if found.None? {
      return NotFound;
    }
    WithoutRemovesOne(db.categories, CategoryKey, db.nextId, found.value);
    WithoutKeys(db.categories, CategoryKey, db.nextId, id);
    db.categories := Without(db.categories, CategoryKey, id);
    status := Ok;
  }
}

/** The categories service: CRUD over the shared categories array, with
    case-insensitive name uniqueness and a delete guard that re-scans the
    shared products array. */
module CategoriesService {
  import opened Common
  import opened Entities
  import opened Store
  import opened MockData

  /** Some category other than the one with id `except` has `name`, ignoring case. */
  predicate NameInUse(cs: seq<Category>, name: string, except: Option<int>) {
    exists i :: 0 <= i < |cs| && Lower(cs[i].categoryName) == Lower(name) && (except.None? || cs[i].id != except.value)
  }

  /** The category records `findAll` selects before the `size` cut. */
  function KeepActive(filter: Option<string>): (r: Category -> bool) {
    (c: Category) => ActiveFilter(filter, c.active)
  }

  /** A category has a non-empty key exactly when it has a non-empty name. */
  lemma CategoryKeyEmpty(c: Category)
    ensures CategoryKey(c) == "" <==> c.categoryName == ""
  {
    LowerEmpty(c.categoryName);
  }

  /** Appending a category that carries the counter's value and a name that
      clashes with no stored name keeps the database invariant, once the
      counter has moved past it. */
  lemma AddCategoryKeeps(d: Db, c: Category)
    requires Invariant(d)
    requires c.id == d.nextCategoryId
    requires c.categoryName != "" ==> !NameInUse(d.categories, c.categoryName, None)
    ensures Invariant(d.(categories := d.categories + [c], nextCategoryId := d.nextCategoryId + 1))
  {
    CategoryKeyEmpty(c);
    AppendFresh(d.categories, CategoryId, d.nextCategoryId, c);
    AppendDistinct(d.categories, CategoryKey, c);
    var cs := d.categories + [c];
    forall i | 0 <= i < |d.products| ensures d.products[i].categoryId in Ids(cs, CategoryId) {
      var j :| 0 <= j < |d.categories| && d.categories[j].id == d.products[i].categoryId;
      assert cs[j] == d.categories[j];
    }
  }

  /** Replacing the category at `k` by one with the same id keeps the database
      invariant when the new name is empty, unchanged, or clashes with no
      other category. */
  lemma ReplaceCategoryKeeps(d: Db, k: nat, c: Category)
    requires Invariant(d) && k < |d.categories|
    requires c.id == d.categories[k].id
    requires c.categoryName == "" || c.categoryName == d.categories[k].categoryName
             || !NameInUse(d.categories, c.categoryName, Some(c.id))
    ensures Invariant(d.(categories := d.categories[k := c]))
  {
    CategoryKeyEmpty(c);
    IdsLocate(d.categories, CategoryId, k);
    ReplaceSameId(d.categories, CategoryId, d.nextCategoryId, k, c);
    ReplaceDistinct(d.categories, CategoryKey, k, c);
    var cs := d.categories[k := c];
    forall i | 0 <= i < |d.products| ensures d.products[i].categoryId in Ids(cs, CategoryId) {
      var j :| 0 <= j < |d.categories| && d.categories[j].id == d.products[i].categoryId;
      assert cs[j].id == d.categories[j].id;
    }
  }

  /** Removing a category that no product references keeps the database
      invariant: in particular every product's category still exists. */
  lemma RemoveCategoryKeeps(d: Db, k: nat)
    requires Invariant(d) && k < |d.categories|
    requires forall i :: 0 <= i < |d.products| ==> d.products[i].categoryId != d.categories[k].id
    ensures Invariant(d.(categories := RemoveAt(d.categories, k)))
  {
    Store.RemoveKeeps(d.categories, CategoryId, d.nextCategoryId, k);
    RemoveKeepsDistinct(d.categories, CategoryKey, k);
    var cs := RemoveAt(d.categories, k);
    forall i | 0 <= i < |d.products| ensures d.products[i].categoryId in Ids(cs, CategoryId) {
      var j :| 0 <= j < |d.categories| && d.categories[j].id == d.products[i].categoryId;
      assert j != k;
      if j < k {
        assert cs[j] == d.categories[j];
      } else {
        assert cs[j - 1] == d.categories[j];
      }
    }
  }

  /** `CategoriesService`: holds the same `db` as every other service. */
  class CategoriesService {
    const db: Catalog

    constructor (db: Catalog)
      ensures this.db == db
    {
      this.db := db;
    }

    /** `hasAssociatedProducts`: some product, in the live products array, references the category. */
    function HasAssociatedProducts(categoryId: int): (r: bool)
      reads db
      ensures r <==> exists i :: 0 <= i < |db.products| && db.products[i].categoryId == categoryId
    {
      Any(db.products, InCategory(categoryId))
    }

    /** `findAll`: the categories whose `active` flag matches the filter, in
        store order, cut to `size`; `total` is the unfiltered store size. */
    function FindAll(active: Option<string>, size: Option<nat>): (r: Listing<Category>)
      reads db
      ensures r.total == |db.categories|
      ensures r.data == Take(Filter(db.categories, KeepActive(active)), size)
    {
      if active.Some? then
        var isActive := active.value == "true";
        FilterSame(db.categories, (c: Category) => c.active == isActive, KeepActive(active));
        Listing(Take(Filter(db.categories, (c: Category) => c.active == isActive), size), |db.categories|)
      else
        FilterAll(db.categories, KeepActive(active));
        Listing(Take(db.categories, size), |db.categories|)
    }

    /** `findOne`: the category with that id, or 404. */
    function FindOne(id: int): (r: Result<Category>)
      reads db
      ensures r.Ok? <==> id in Ids(db.categories, CategoryId)
      ensures r.Ok? ==> r.value in db.categories && r.value.id == id
      ensures r.Err? ==> r.failure == NotFound(CategoryEntity, id)
    {
      match FindIndex(db.categories, (c: Category) => c.id == id)
      case Some(k) => Ok(db.categories[k])
      case None => Err(NotFound(CategoryEntity, id))
    }

    /** `create`: 400 for a missing or empty name, 409 for a name already
        used ignoring case; otherwise appends a record with the next id and
        `active` defaulting to true. */
    method Create(input: CategoryInput, defaultDescription: string, now: Timestamp) returns (r: Result<Category>)
      requires db.Valid()
      modifies db
      ensures db.Valid()
      ensures r.Err? ==> db.State() == old(db.State())
      ensures r == Err(RequiredFields(CategoryEntity)) <==> !Truthy(input.categoryName)
      ensures r == Err(NameTaken(CategoryEntity))
              <==> Truthy(input.categoryName) && NameInUse(old(db.categories), input.categoryName.value, None)
      ensures r.Ok? <==> Truthy(input.categoryName) && !NameInUse(old(db.categories), input.categoryName.value, None)
      ensures r.Ok? ==> r.value == Category(old(db.nextCategoryId), input.categoryName.value,
                                            OrKeep(input.description, defaultDescription),
                                            Supplied(input.active, true), now, None)
      ensures r.Ok? ==> db.State() == old(db.State()).(categories := old(db.categories) + [r.value],
                                                       nextCategoryId := old(db.nextCategoryId) + 1)
    {
      if !Truthy(input.categoryName) {
        return Err(RequiredFields(CategoryEntity));
      }
      var name := input.categoryName.value;
      if Any(db.categories, (c: Category) => Lower(c.categoryName) == Lower(name)) {
        return Err(NameTaken(CategoryEntity));
      }
      ghost var d := db.State();
      var id := db.NextCategoryId();
      var category := Category(id, name, OrKeep(input.description, defaultDescription),
                               Supplied(input.active, true), now, None);
      AddCategoryKeeps(d, category);
      db.categories := db.categories + [category];
      r := Ok(category);
    }

    /** `update` (PUT): 404 for an unknown id, then 400 for an empty name,
        then 409 for a name another category uses ignoring case; otherwise
        replaces the record in place, keeping id and createdAt and the old
        description and `active` when those are omitted. */
    method Update(id: int, input: CategoryInput, now: Timestamp) returns (r: Result<Category>)
      requires db.Valid()
      modifies db
      ensures db.Valid()
      ensures r.Err? ==> db.State() == old(db.State())
      ensures r == Err(NotFound(CategoryEntity, id)) <==> id !in Ids(old(db.categories), CategoryId)
      ensures r == Err(RequiredFields(CategoryEntity))
              <==> id in Ids(old(db.categories), CategoryId) && !Truthy(input.categoryName)
      ensures r == Err(NameTaken(CategoryEntity))
              <==> id in Ids(old(db.categories), CategoryId) && Truthy(input.categoryName)
                   && NameInUse(old(db.categories), input.categoryName.value, Some(id))
      ensures r.Ok? <==> id in Ids(old(db.categories), CategoryId) && Truthy(input.categoryName)
                         && !NameInUse(old(db.categories), input.categoryName.value, Some(id))
      ensures r.Ok? ==>
                exists k :: 0 <= k < |old(db.categories)| && old(db.categories)[k].id == id
                  && r.value == PutCategory(old(db.categories)[k], input.categoryName.value, input, now)
                  && db.State() == old(db.State()).(categories := old(db.categories)[k := r.value])
    {
      var index := FindIndex(db.categories, (c: Category) => c.id == id);
      if index.None? {
        return Err(NotFound(CategoryEntity, id));
      }
      var k := index.value;
      if !Truthy(input.categoryName) {
        return Err(RequiredFields(CategoryEntity));
      }
      var name := input.categoryName.value;
      if Any(db.categories, (c: Category) => Lower(c.categoryName) == Lower(name) && c.id != id) {
        return Err(NameTaken(CategoryEntity));
      }
      var category := PutCategory(db.categories[k], name, input, now);
      ReplaceCategoryKeeps(db.State(), k, category);
      db.categories := db.categories[k := category];
      r := Ok(category);
    }

    /** `partialUpdate` (PATCH): 404 for an unknown id; the uniqueness check,
        excluding this category, runs only for a truthy `categoryName`; then
        the patch is merged over the record and the id forced back. */
    method PartialUpdate(id: int, patch: CategoryPatch, now: Timestamp) returns (r: Result<Category>)
      requires db.Valid()
      modifies db
      ensures db.Valid()
      ensures r.Err? ==> db.State() == old(db.State())
      ensures r == Err(NotFound(CategoryEntity, id)) <==> id !in Ids(old(db.categories), CategoryId)
      ensures r == Err(NameTaken(CategoryEntity))
              <==> id in Ids(old(db.categories), CategoryId) && Truthy(patch.categoryName)
                   && NameInUse(old(db.categories), patch.categoryName.value, Some(id))
      ensures r.Ok? <==> id in Ids(old(db.categories), CategoryId)
                         && !(Truthy(patch.categoryName) && NameInUse(old(db.categories), patch.categoryName.value, Some(id)))
      ensures r.Ok? ==>
                exists k :: 0 <= k < |old(db.categories)| && old(db.categories)[k].id == id
                  && r.value == PatchCategory(old(db.categories)[k], patch, now)
                  && db.State() == old(db.State()).(categories := old(db.categories)[k := r.value])
    {
      var index := FindIndex(db.categories, (c: Category) => c.id == id);
      if index.None? {
        return Err(NotFound(CategoryEntity, id));
      }
      var k := index.value;
      if Truthy(patch.categoryName) {
        var name := patch.categoryName.value;
        if Any(db.categories, (c: Category) => Lower(c.categoryName) == Lower(name) && c.id != id) {
          return Err(NameTaken(CategoryEntity));
        }
      }
      var category := PatchCategory(db.categories[k], patch, now);
      ReplaceCategoryKeeps(db.State(), k, category);
      db.categories := db.categories[k := category];
      r := Ok(category);
    }

    /** `delete`: 404 for an unknown id; 409 exactly when some product
        currently references the category; otherwise removes it, keeping the
        order of the others, and returns it. */
    method Delete(id: int) returns (r: Result<Category>)
      requires db.Valid()
      modifies db
      ensures db.Valid()
      ensures r.Err? ==> db.State() == old(db.State())
      ensures r == Err(NotFound(CategoryEntity, id)) <==> id !in Ids(old(db.categories), CategoryId)
      ensures r == Err(CategoryInUse(id))
              <==> id in Ids(old(db.categories), CategoryId)
                   && exists i :: 0 <= i < |old(db.products)| && old(db.products)[i].categoryId == id
      ensures r.Ok? <==> id in Ids(old(db.categories), CategoryId)
                         && forall i :: 0 <= i < |old(db.products)| ==> old(db.products)[i].categoryId != id
      ensures r.Ok? ==>
                exists k :: 0 <= k < |old(db.categories)| && old(db.categories)[k] == r.value && r.value.id == id
                  && db.State() == old(db.State()).(categories := RemoveAt(old(db.categories), k))
    {
      var index := FindIndex(db.categories, (c: Category) => c.id == id);
      if index.None? {
        return Err(NotFound(CategoryEntity, id));
      }
      var k := index.value;
      if HasAssociatedProducts(id) {
        return Err(CategoryInUse(id));
      }
      var category := db.categories[k];
      RemoveCategoryKeeps(db.State(), k);
      db.categories := RemoveAt(db.categories, k);
      r := Ok(category);
    }

    /** `deleteAll`: 409 while any product exists; otherwise empties the
        shared categories array in place and returns how many there were.
        No counter moves, so ids are still never reused. */
    method DeleteAll() returns (r: Result<nat>)
      requires db.Valid()
      modifies db
      ensures db.Valid()
      ensures r.Err? ==> db.State() == old(db.State())
      ensures r == Err(ProductsExist) <==> |old(db.products)| > 0
      ensures r.Ok? <==> old(db.products) == []
      ensures r.Ok? ==> r.value == |old(db.categories)| && db.State() == old(db.State()).(categories := [])
    {
      if |db.products| > 0 {
        return Err(ProductsExist);
      }
      var count := |db.categories|;
      db.categories := [];
      r := Ok(count);
    }
  }
}

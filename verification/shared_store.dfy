/** What follows from every service holding the same `db`: a write through
    one service is seen by the checks of another. Each method below calls
    the services as a client would and relies on their contracts alone. */
module SharedStore {
  import opened Common
  import opened Entities
  import opened Store
  import opened MockData
  import Products = ProductsService
  import Categories = CategoriesService
  import UsersService

  /** A product created through the products service blocks the deletion
      of its category through the categories service. */
  method CreatedProductBlocksCategoryDelete(
    db: Catalog, products: Products.ProductsService, categories: Categories.CategoriesService,
    input: ProductInput, categoryId: int, defaultDescription: string, defaultStock: int, defaultImage: string,
    now: Timestamp)
    returns (created: Result<Product>, deleted: Result<Category>)
    requires products.db == db && categories.db == db && db.Valid()
    requires input.categoryId == Some(categoryId) && 0 <= defaultStock <= 100
    modifies db
    ensures db.Valid()
    ensures created.Ok? ==> deleted == Err(CategoryInUse(categoryId))
  {
    created := products.Create(input, defaultDescription, defaultStock, defaultImage, now);
    if created.Ok? {
      assert db.products[|db.products| - 1].categoryId == categoryId;
    }
    deleted := categories.Delete(categoryId);
  }

  /** Once `deleteAll` has emptied the categories, a product create that
      passes the field checks fails on its category. */
  method ClearedCategoriesBlockCreate(
    db: Catalog, products: Products.ProductsService, categories: Categories.CategoriesService,
    input: ProductInput, defaultDescription: string, defaultStock: int, defaultImage: string, now: Timestamp)
    returns (cleared: Result<nat>, created: Result<Product>)
    requires products.db == db && categories.db == db && db.Valid()
    requires 0 <= defaultStock <= 100
    requires Products.HasRequired(input) && input.price.value >= 0.0 && (input.stock.None? || input.stock.value >= 0)
    modifies db
    ensures db.Valid()
    ensures cleared.Ok? ==> created == Err(MissingReference(Creating, CategoryEntity, input.categoryId.value))
    ensures cleared.Err? ==> old(db.products) != []
  {
    cleared := categories.DeleteAll();
    created := products.Create(input, defaultDescription, defaultStock, defaultImage, now);
  }

  /** Two successful creates draw consecutive ids, and a rejected create draws none. */
  method CreatesDrawConsecutiveIds(
    db: Catalog, products: Products.ProductsService, first: ProductInput, second: ProductInput,
    defaultDescription: string, defaultStock: int, defaultImage: string, now: Timestamp)
    returns (a: Result<Product>, b: Result<Product>)
    requires products.db == db && db.Valid() && 0 <= defaultStock <= 100
    modifies db
    ensures db.Valid()
    ensures a.Ok? && b.Ok? ==> a.value.id == old(db.nextProductId) && b.value.id == a.value.id + 1
    ensures a.Err? && b.Ok? ==> b.value.id == old(db.nextProductId)
  {
    a := products.Create(first, defaultDescription, defaultStock, defaultImage, now);
    b := products.Create(second, defaultDescription, defaultStock, defaultImage, now);
  }

  /** The record a successful create returns is what `findOne` then finds by its id. */
  method CreatedIsReadBack(
    db: Catalog, products: Products.ProductsService, input: ProductInput,
    defaultDescription: string, defaultStock: int, defaultImage: string, now: Timestamp)
    returns (r: Result<Product>)
    requires products.db == db && db.Valid() && 0 <= defaultStock <= 100
    modifies db
    ensures db.Valid()
    ensures r.Ok? ==> products.FindOne(r.value.id) == Ok(r.value)
  {
    r := products.Create(input, defaultDescription, defaultStock, defaultImage, now);
    if r.Ok? {
      var last := |db.products| - 1;
      assert db.products[last] == r.value;
      IdsLocate(db.products, ProductId, last);
    }
  }

  /** A username clash leaves the stored users exactly as they were. */
  method RejectedPatchKeepsUser(
    db: Catalog, users: UsersService.UsersService, id: int, patch: UserPatch, now: Timestamp)
    returns (r: Result<User>)
    requires users.db == db && db.Valid()
    modifies db
    ensures db.Valid()
    ensures id in Ids(old(db.users), UserId) && Truthy(patch.username)
            && UsersService.UsernameInUse(old(db.users), patch.username.value, Some(id))
            ==> r == Err(NameTaken(UserEntity)) && db.users == old(db.users)
  {
    r := users.PartialUpdate(id, patch, now);
  }
}

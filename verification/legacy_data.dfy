/** The older shared-data module kept beside the services: its own empty
    arrays and counters and four referential predicates over them. No
    service reads it; it is modelled over the same record shapes. */
module LegacyData {
  import opened Common
  import opened Entities
  import opened Store
  import opened MockData

  /** The module's state when it is loaded: four empty arrays, every counter at 1. */
  const Initial: Db := Db([], [], [], [], 1, 1, 1, 1)

  /** `hasProductsInCategory`. */
  function HasProductsInCategory(products: seq<Product>, categoryId: int): (r: bool)
    ensures r <==> exists i :: 0 <= i < |products| && products[i].categoryId == categoryId
  {
    Any(products, InCategory(categoryId))
  }

  /** `hasProductsInBrand`. */
  function HasProductsInBrand(products: seq<Product>, brandId: int): (r: bool)
    ensures r <==> exists i :: 0 <= i < |products| && products[i].brandId == brandId
  {
    Any(products, InBrand(brandId))
  }

  /** `categoryExists`. */
  function CategoryExists(categories: seq<Category>, categoryId: int): (r: bool)
    ensures r <==> categoryId in Ids(categories, CategoryId)
  {
    Any(categories, (c: Category) => c.id == categoryId)
  }

  /** `brandExists`. */
  function BrandExists(brands: seq<Brand>, brandId: int): (r: bool)
    ensures r <==> brandId in Ids(brands, BrandId)
  {
    Any(brands, (b: Brand) => b.id == brandId)
  }

  /** The initial state satisfies the store invariant, with every counter
      at 1, and none of the four predicates holds for any id. */
  lemma InitialState(id: int)
    ensures Invariant(Initial)
    ensures Initial.nextProductId == 1 && Initial.nextCategoryId == 1
            && Initial.nextBrandId == 1 && Initial.nextUserId == 1
    ensures !HasProductsInCategory(Initial.products, id) && !HasProductsInBrand(Initial.products, id)
    ensures !CategoryExists(Initial.categories, id) && !BrandExists(Initial.brands, id)
  {
  }

  /** The product predicates agree with the listings: a category or brand
      has products exactly when filtering the products by it leaves some. */
  lemma HasProductsIffListed(products: seq<Product>, id: int)
    ensures HasProductsInCategory(products, id) <==> Filter(products, InCategory(id)) != []
    ensures HasProductsInBrand(products, id) <==> Filter(products, InBrand(id)) != []
  {
    FilterEmpty(products, InCategory(id));
    FilterEmpty(products, InBrand(id));
  }

  /** In a store that keeps its invariant, a category some product
      references exists. The same does not hold for brands, whose delete
      has no guard. */
  lemma ReferencedCategoryExists(d: Db, id: int)
    requires Invariant(d)
    ensures HasProductsInCategory(d.products, id) ==> CategoryExists(d.categories, id)
  {
    if HasProductsInCategory(d.products, id) {
      var i :| 0 <= i < |d.products| && d.products[i].categoryId == id;
      assert d.products[i].categoryId in Ids(d.categories, CategoryId);
    }
  }

  /** A store can keep its invariant while a product names a brand that
      does not exist. The invariant, unlike for categories, says nothing
      about a product's brand, and brand delete has no product guard (see
      `BrandsService.RemoveBrandOrphans`). */
  lemma DanglingBrandAllowed()
    ensures exists d :: Invariant(d) && HasProductsInBrand(d.products, 1) && !BrandExists(d.brands, 1)
  {
    var category := Category(1, "Books", "", true, 0, None);
    var product := Product(1, "Atlas", "", 10.0, 3, 1, 1, "", 0, None);
    var d := Db([], [category], [], [product], 1, 2, 2, 2);
    assert d.categories[0].id == product.categoryId;
    assert d.products[0].brandId == 1;
    assert Invariant(d);
    assert HasProductsInBrand(d.products, 1);
  }
}

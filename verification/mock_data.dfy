/** The in-memory database every service shares: four record arrays and
    four id counters, the post-increment id dispensers, and the seeding done
    when the module is loaded. */
module MockData {
  import opened Common
  import opened Entities
  import opened Store

  /** The fixed category names used for seeding, in order. */
  const CategoryNames: seq<string> := [
    "Electronics", "Clothing", "Home & Garden", "Sports",
    "Books", "Toys", "Automotive", "Beauty", "Food", "Health"]

  /** The fixed brand names used for seeding, in order. */
  const BrandNames: seq<string> := [
    "Apple", "Samsung", "Nike", "Adidas", "Sony",
    "Microsoft", "Google", "Amazon", "Tesla", "Netflix"]

  // The values the seeding draws from the fake-data generator, one record's worth each.
  datatype UserSeed = UserSeed(name: string, username: string, password: string, email: string, createdAt: Timestamp)
  datatype CategorySeed = CategorySeed(description: string, active: bool, createdAt: Timestamp)
  datatype BrandSeed = BrandSeed(description: string, active: bool, country: string, createdAt: Timestamp)
  datatype ProductSeed = ProductSeed(
    image: string, productName: string, description: string, price: real, stock: int,
    categoryId: int, brandId: int, createdAt: Timestamp)

  /** What the generator is asked for: a non-negative price, a stock in 0..100
      and both references in 1..10. */
  predicate ProductSeedInRange(s: ProductSeed) {
    0.0 <= s.price && 0 <= s.stock <= 100 && 1 <= s.categoryId <= 10 && 1 <= s.brandId <= 10
  }

  function SeedUser(id: int, s: UserSeed): (r: User) {
    User(id, s.name, s.username, s.password, s.email, s.createdAt, None)
  }

  function SeedCategory(id: int, s: CategorySeed): (r: Category)
    requires 1 <= id <= |CategoryNames|
  {
    Category(id, CategoryNames[id - 1], s.description, s.active, s.createdAt, None)
  }

  function SeedBrand(id: int, s: BrandSeed): (r: Brand)
    requires 1 <= id <= |BrandNames|
  {
    Brand(id, BrandNames[id - 1], s.description, s.active, s.country, s.createdAt, None)
  }

  function SeedProduct(id: int, s: ProductSeed): (r: Product) {
    Product(id, s.productName, s.description, s.price, s.stock, s.categoryId, s.brandId, s.image, s.createdAt, None)
  }

  /** The first two lowercased letters of a name. */
  function Tag(s: string): (r: (char, char))
    requires |s| >= 2
  {
    (LowerChar(s[0]), LowerChar(s[1]))
  }

  /** Names whose two-letter tags differ pairwise also differ pairwise once lowercased. */
  lemma TagsSeparate(names: seq<string>, tags: seq<(char, char)>)
    requires |names| == |tags|
    requires forall i :: 0 <= i < |names| ==> |names[i]| >= 2 && Tag(names[i]) == tags[i]
    requires forall i, j :: 0 <= i < |tags| && 0 <= j < |tags| && i != j ==> tags[i] != tags[j]
    ensures forall i, j :: 0 <= i < |names| && 0 <= j < |names| && i != j ==> Lower(names[i]) != Lower(names[j])
  {
    forall i, j | 0 <= i < |names| && 0 <= j < |names| && i != j
      ensures Lower(names[i]) != Lower(names[j])
    {
      assert Tag(names[i]) != Tag(names[j]);
    }
  }

  /** The ten seeded category names differ pairwise ignoring case, and so do the ten brand names. */
  lemma SeedNamesDistinct()
    ensures forall i, j :: 0 <= i < 10 && 0 <= j < 10 && i != j ==> Lower(CategoryNames[i]) != Lower(CategoryNames[j])
    ensures forall i, j :: 0 <= i < 10 && 0 <= j < 10 && i != j ==> Lower(BrandNames[i]) != Lower(BrandNames[j])
  {
    var ct := [('e', 'l'), ('c', 'l'), ('h', 'o'), ('s', 'p'), ('b', 'o'), ('t', 'o'), ('a', 'u'), ('b', 'e'), ('f', 'o'), ('h', 'e')];
    var bt := [('a', 'p'), ('s', 'a'), ('n', 'i'), ('a', 'd'), ('s', 'o'), ('m', 'i'), ('g', 'o'), ('a', 'm'), ('t', 'e'), ('n', 'e')];
    TagsSeparate(CategoryNames, ct);
    TagsSeparate(BrandNames, bt);
  }

  /** A snapshot of `db`: the four arrays and the four counters. */
  datatype Db = Db(
    users: seq<User>, categories: seq<Category>, brands: seq<Brand>, products: seq<Product>,
    nextUserId: int, nextCategoryId: int, nextBrandId: int, nextProductId: int)

  /** The store invariants, all of which the services preserve: every counter
      is at least 1; in every store ids increase in insertion order and lie in 1 .. counter - 1; category
      names and brand names are distinct ignoring case (among non-empty
      names); prices and stocks are non-negative; and every product's
      category exists. */
  ghost predicate Invariant(d: Db) {
    && 1 <= d.nextUserId && 1 <= d.nextCategoryId && 1 <= d.nextBrandId && 1 <= d.nextProductId
    && IdsIncreasing(d.users, UserId) && IdsBelow(d.users, UserId, d.nextUserId)
    && IdsIncreasing(d.categories, CategoryId) && IdsBelow(d.categories, CategoryId, d.nextCategoryId)
    && DistinctKeys(d.categories, CategoryKey)
    && IdsIncreasing(d.brands, BrandId) && IdsBelow(d.brands, BrandId, d.nextBrandId)
    && DistinctKeys(d.brands, BrandKey)
    && IdsIncreasing(d.products, ProductId) && IdsBelow(d.products, ProductId, d.nextProductId)
    && (forall i :: 0 <= i < |d.products| ==> 0.0 <= d.products[i].price && 0 <= d.products[i].stock)
    && (forall i :: 0 <= i < |d.products| ==> d.products[i].categoryId in Ids(d.categories, CategoryId))
  }

  /** The database object `db`: the arrays every service reads and writes,
      and the next id of each store. */
  class Catalog {
    var users: seq<User>
    var categories: seq<Category>
    var brands: seq<Brand>
    var products: seq<Product>
    var nextUserId: int
    var nextCategoryId: int
    var nextBrandId: int
    var nextProductId: int

    function State(): Db
      reads this
    {
      Db(users, categories, brands, products, nextUserId, nextCategoryId, nextBrandId, nextProductId)
    }

    ghost predicate Valid()
      reads this
    {
      Invariant(State())
    }

    /** Loading the module: the empty `db` with every counter at 1, then
        `initializeDatabase()`, which pushes ten users, ten categories, ten
        brands and twenty products with ids counted up from 1 and then sets
        the counters past them. */
    constructor Initialize(userSeeds: seq<UserSeed>, categorySeeds: seq<CategorySeed>,
                           brandSeeds: seq<BrandSeed>, productSeeds: seq<ProductSeed>)
      requires |userSeeds| == 10 && |categorySeeds| == 10 && |brandSeeds| == 10 && |productSeeds| == 20
      requires forall i :: 0 <= i < 20 ==> ProductSeedInRange(productSeeds[i])
      ensures Valid()
      ensures |users| == 10 && |categories| == 10 && |brands| == 10 && |products| == 20
      ensures forall i :: 0 <= i < 10 ==> users[i] == SeedUser(i + 1, userSeeds[i])
      ensures forall i :: 0 <= i < 10 ==> categories[i] == SeedCategory(i + 1, categorySeeds[i])
      ensures forall i :: 0 <= i < 10 ==> brands[i] == SeedBrand(i + 1, brandSeeds[i])
      ensures forall i :: 0 <= i < 20 ==> products[i] == SeedProduct(i + 1, productSeeds[i])
      ensures nextUserId == 11 && nextCategoryId == 11 && nextBrandId == 11 && nextProductId == 21
      ensures forall i :: 0 <= i < |products| ==> products[i].brandId in Ids(brands, BrandId)
    {
      var us: seq<User> := [];
      for i := 1 to 11
        invariant |us| == i - 1
        invariant forall k :: 0 <= k < |us| ==> us[k] == SeedUser(k + 1, userSeeds[k])
      {
        us := us + [SeedUser(i, userSeeds[i - 1])];
      }
      var cs: seq<Category> := [];
      for i := 1 to 11
        invariant |cs| == i - 1
        invariant forall k :: 0 <= k < |cs| ==> cs[k] == SeedCategory(k + 1, categorySeeds[k])
      {
        cs := cs + [SeedCategory(i, categorySeeds[i - 1])];
      }
      var bs: seq<Brand> := [];
      for i := 1 to 11
        invariant |bs| == i - 1
        invariant forall k :: 0 <= k < |bs| ==> bs[k] == SeedBrand(k + 1, brandSeeds[k])
      {
        bs := bs + [SeedBrand(i, brandSeeds[i - 1])];
      }
      var ps: seq<Product> := [];
      for i := 1 to 21
        invariant |ps| == i - 1
        invariant forall k :: 0 <= k < |ps| ==> ps[k] == SeedProduct(k + 1, productSeeds[k])
      {
        ps := ps + [SeedProduct(i, productSeeds[i - 1])];
      }
      users, categories, brands, products := us, cs, bs, ps;
      nextUserId, nextCategoryId, nextBrandId, nextProductId := 11, 11, 11, 21;
      new;
      SeedNamesDistinct();
      forall i | 0 <= i < |products| ensures products[i].categoryId in Ids(categories, CategoryId) {
        assert categories[products[i].categoryId - 1].id == products[i].categoryId;
      }
      forall i | 0 <= i < |products| ensures products[i].brandId in Ids(brands, BrandId) {
        assert brands[products[i].brandId - 1].id == products[i].brandId;
      }
    }

    /** `getNextUserId`: hands out the counter, then increments it. The id
        handed out is above every id in the store, so it is not in use. */
    method NextUserId() returns (id: int)
      requires Valid()
      modifies this`nextUserId
      ensures Valid()
      ensures id == old(nextUserId)
      ensures State() == old(State()).(nextUserId := id + 1)
      ensures id !in Ids(users, UserId)
    {
      id := nextUserId;
      nextUserId := nextUserId + 1;
    }

    /** `getNextCategoryId`. */
    method NextCategoryId() returns (id: int)
      requires Valid()
      modifies this`nextCategoryId
      ensures Valid()
      ensures id == old(nextCategoryId)
      ensures State() == old(State()).(nextCategoryId := id + 1)
      ensures id !in Ids(categories, CategoryId)
    {
      id := nextCategoryId;
      nextCategoryId := nextCategoryId + 1;
    }

    /** `getNextBrandId`. */
    method NextBrandId() returns (id: int)
      requires Valid()
      modifies this`nextBrandId
      ensures Valid()
      ensures id == old(nextBrandId)
      ensures State() == old(State()).(nextBrandId := id + 1)
      ensures id !in Ids(brands, BrandId)
    {
      id := nextBrandId;
      nextBrandId := nextBrandId + 1;
    }

    /** `getNextProductId`. */
    method NextProductId() returns (id: int)
      requires Valid()
      modifies this`nextProductId
      ensures Valid()
      ensures id == old(nextProductId)
      ensures State() == old(State()).(nextProductId := id + 1)
      ensures id !in Ids(products, ProductId)
    {
      id := nextProductId;
      nextProductId := nextProductId + 1;
    }
  }
}

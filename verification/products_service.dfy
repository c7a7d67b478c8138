/** The products service: CRUD over the shared products array, listings by
    category and by brand, and the price, stock and reference checks that
    guard every write. */
module ProductsService {
  import opened Common
  import opened Entities
  import opened Store
  import opened MockData

  /** The query of `findAll`: three optional bounds and the `size` cut. */
  datatype ProductQuery = ProductQuery(minPrice: Option<real>, maxPrice: Option<real>, minStock: Option<int>, size: Option<nat>)

  /** What `findByCategory` and `findByBrand` return: the id asked for, the
      matching products cut to `size`, and how many matched before the cut. */
  datatype RefListing = RefListing(refId: int, data: seq<Product>, total: nat)

  // The three tests `findAll` applies one after the other.
  function PriceAtLeast(min: real): (r: Product -> bool) { (p: Product) => p.price >= min }
  function PriceAtMost(max: real): (r: Product -> bool) { (p: Product) => p.price <= max }
  function StockAtLeast(min: int): (r: Product -> bool) { (p: Product) => p.stock >= min }

  /** A product satisfies every bound the query gives. */
  predicate Matches(q: ProductQuery, p: Product) {
    && (q.minPrice.None? || p.price >= q.minPrice.value)
    && (q.maxPrice.None? || p.price <= q.maxPrice.value)
    && (q.minStock.None? || p.stock >= q.minStock.value)
  }

  function Matching(q: ProductQuery): (r: Product -> bool) {
    (p: Product) => Matches(q, p)
  }

  /** The filters of `findAll` as the source applies them: each given bound
      narrows the list left by the previous one. */
  function Staged(ps: seq<Product>, q: ProductQuery): (r: seq<Product>) {
    var byMinPrice := if q.minPrice.Some? then Filter(ps, PriceAtLeast(q.minPrice.value)) else ps;
    var byMaxPrice := if q.maxPrice.Some? then Filter(byMinPrice, PriceAtMost(q.maxPrice.value)) else byMinPrice;
    if q.minStock.Some? then Filter(byMaxPrice, StockAtLeast(q.minStock.value)) else byMaxPrice
  }

  /** Applying the bounds one after the other selects, in store order,
      exactly the products that satisfy all of them at once. */
  lemma StagedIsOneFilter(ps: seq<Product>, q: ProductQuery)
    ensures Staged(ps, q) == Filter(ps, Matching(q))
  {
    var first := Matching(q.(maxPrice := None, minStock := None));
    var second := Matching(q.(minStock := None));
    if q.minPrice.Some? {
      FilterSame(ps, PriceAtLeast(q.minPrice.value), first);
    } else {
      FilterAll(ps, first);
    }
    if q.maxPrice.Some? {
      FilterTwice(ps, first, PriceAtMost(q.maxPrice.value), second);
    } else {
      FilterSame(ps, first, second);
    }
    if q.minStock.Some? {
      FilterTwice(ps, second, StockAtLeast(q.minStock.value), Matching(q));
    } else {
      FilterSame(ps, second, Matching(q));
    }
  }

  /** The fields POST and PUT insist on: a truthy name and a price, a
      category and a brand that are present. */
  predicate HasRequired(input: ProductInput) {
    Truthy(input.productName) && input.price.Some? && input.categoryId.Some? && input.brandId.Some?
  }

  /** Appending a product that carries the counter's value, a non-negative
      price and stock and an existing category keeps the database invariant. */
  lemma AddProductKeeps(d: Db, p: Product)
    requires Invariant(d)
    requires p.id == d.nextProductId && 0.0 <= p.price && 0 <= p.stock && p.categoryId in Ids(d.categories, CategoryId)
    ensures Invariant(d.(products := d.products + [p], nextProductId := d.nextProductId + 1))
  {
    AppendFresh(d.products, ProductId, d.nextProductId, p);
    var ps := d.products + [p];
    forall i | 0 <= i < |ps| ensures 0.0 <= ps[i].price && 0 <= ps[i].stock && ps[i].categoryId in Ids(d.categories, CategoryId) {
      if i < |d.products| {
        assert ps[i] == d.products[i];
      }
    }
  }

  /** Replacing the product at `k` by one with the same id, a non-negative
      price and stock and an existing category keeps the database invariant. */
  lemma ReplaceProductKeeps(d: Db, k: nat, p: Product)
    requires Invariant(d) && k < |d.products|
    requires p.id == d.products[k].id && 0.0 <= p.price && 0 <= p.stock && p.categoryId in Ids(d.categories, CategoryId)
    ensures Invariant(d.(products := d.products[k := p]))
  {
    ReplaceSameId(d.products, ProductId, d.nextProductId, k, p);
  }

  /** Removing a product keeps the database invariant. */
  lemma RemoveProductKeeps(d: Db, k: nat)
    requires Invariant(d) && k < |d.products|
    ensures Invariant(d.(products := RemoveAt(d.products, k)))
  {
    Store.RemoveKeeps(d.products, ProductId, d.nextProductId, k);
    var ps := RemoveAt(d.products, k);
    forall i | 0 <= i < |ps| ensures 0.0 <= ps[i].price && 0 <= ps[i].stock && ps[i].categoryId in Ids(d.categories, CategoryId) {
      assert ps[i] == d.products[if i < k then i else i + 1];
    }
  }

  /** `ProductsService`: holds the same `db` as every other service. */
  class ProductsService {
    const db: Catalog

    constructor (db: Catalog)
      ensures this.db == db
    {
      this.db := db;
    }

    /** `categoryExists`, against the live categories array. */
    function CategoryExists(categoryId: int): (r: bool)
      reads db
      ensures r <==> categoryId in Ids(db.categories, CategoryId)
    {
      Any(db.categories, (c: Category) => c.id == categoryId)
    }

    /** `brandExists`, against the live brands array. */
    function BrandExists(brandId: int): (r: bool)
      reads db
      ensures r <==> brandId in Ids(db.brands, BrandId)
    {
      Any(db.brands, (b: Brand) => b.id == brandId)
    }

    /** `findAll`: the products satisfying every given bound, in store order,
        cut to `size`; `total` is the unfiltered store size. */
    function FindAll(q: ProductQuery): (r: Listing<Product>)
      reads db
      ensures r.total == |db.products|
      ensures r.data == Take(Filter(db.products, Matching(q)), q.size)
    {
      StagedIsOneFilter(db.products, q);
      Listing(Take(Staged(db.products, q), q.size), |db.products|)
    }

    /** `findOne`: the product with that id, or 404. */
    function FindOne(id: int): (r: Result<Product>)
      reads db
      ensures r.Ok? <==> id in Ids(db.products, ProductId)
      ensures r.Ok? ==> r.value in db.products && r.value.id == id
      ensures r.Err? ==> r.failure == NotFound(ProductEntity, id)
    {
      match FindIndex(db.products, (p: Product) => p.id == id)
      case Some(k) => Ok(db.products[k])
      case None => Err(NotFound(ProductEntity, id))
    }

    /** `findByCategory`: 404 for an unknown category, then 404 when no
        product is in it; otherwise its products in store order, cut to
        `size`, with the number before the cut. */
    function FindByCategory(categoryId: int, size: Option<nat>): (r: Result<RefListing>)
      reads db
      ensures r == Err(NotFound(CategoryEntity, categoryId)) <==> categoryId !in Ids(db.categories, CategoryId)
      ensures r == Err(NoProductsFor(CategoryEntity, categoryId))
              <==> categoryId in Ids(db.categories, CategoryId)
                   && forall i :: 0 <= i < |db.products| ==> db.products[i].categoryId != categoryId
      ensures r.Ok? <==> categoryId in Ids(db.categories, CategoryId)
                         && exists i :: 0 <= i < |db.products| && db.products[i].categoryId == categoryId
      ensures r.Ok? ==> r.value.refId == categoryId && r.value.total > 0
                        && r.value.data == Take(Filter(db.products, InCategory(categoryId)), size)
                        && r.value.total == |Filter(db.products, InCategory(categoryId))|
    {
      if !CategoryExists(categoryId) then Err(NotFound(CategoryEntity, categoryId))
      else
        var matches := Filter(db.products, InCategory(categoryId));
        FilterEmpty(db.products, InCategory(categoryId));
        if |matches| == 0 then Err(NoProductsFor(CategoryEntity, categoryId))
        else Ok(RefListing(categoryId, Take(matches, size), |matches|))
    }

    /** `findByBrand`: as `findByCategory`, for a brand. */
    function FindByBrand(brandId: int, size: Option<nat>): (r: Result<RefListing>)
      reads db
      ensures r == Err(NotFound(BrandEntity, brandId)) <==> brandId !in Ids(db.brands, BrandId)
      ensures r == Err(NoProductsFor(BrandEntity, brandId))
              <==> brandId in Ids(db.brands, BrandId)
                   && forall i :: 0 <= i < |db.products| ==> db.products[i].brandId != brandId
      ensures r.Ok? <==> brandId in Ids(db.brands, BrandId)
                         && exists i :: 0 <= i < |db.products| && db.products[i].brandId == brandId
      ensures r.Ok? ==> r.value.refId == brandId && r.value.total > 0
                        && r.value.data == Take(Filter(db.products, InBrand(brandId)), size)
                        && r.value.total == |Filter(db.products, InBrand(brandId))|
    {
      if !BrandExists(brandId) then Err(NotFound(BrandEntity, brandId))
      else
        var matches := Filter(db.products, InBrand(brandId));
        FilterEmpty(db.products, InBrand(brandId));
        if |matches| == 0 then Err(NoProductsFor(BrandEntity, brandId))
        else Ok(RefListing(brandId, Take(matches, size), |matches|))
    }

    /** The checks shared by `create` and `update`, in the source's order:
        required fields, then a negative price, then a negative stock, then
        an unknown category, then an unknown brand. None means every check
        passed. */
    function CheckInput(input: ProductInput, action: Action): (r: Option<Failure>)
      reads db
      ensures r == Some(RequiredFields(ProductEntity)) <==> !HasRequired(input)
      ensures HasRequired(input) ==>
                (r == Some(NegativePrice) <==> input.price.value < 0.0)
      ensures HasRequired(input) ==>
                (r == Some(NegativeStock) <==> input.price.value >= 0.0 && input.stock.Some? && input.stock.value < 0)
      ensures HasRequired(input) ==>
                (r == Some(MissingReference(action, CategoryEntity, input.categoryId.value))
                 <==> input.price.value >= 0.0 && (input.stock.None? || input.stock.value >= 0)
                      && input.categoryId.value !in Ids(db.categories, CategoryId))
      ensures HasRequired(input) ==>
                (r == Some(MissingReference(action, BrandEntity, input.brandId.value))
                 <==> input.price.value >= 0.0 && (input.stock.None? || input.stock.value >= 0)
                      && input.categoryId.value in Ids(db.categories, CategoryId)
                      && input.brandId.value !in Ids(db.brands, BrandId))
      ensures r.None? <==> HasRequired(input) && input.price.value >= 0.0
                           && (input.stock.None? || input.stock.value >= 0)
                           && input.categoryId.value in Ids(db.categories, CategoryId)
                           && input.brandId.value in Ids(db.brands, BrandId)
    {
      if !HasRequired(input) then Some(RequiredFields(ProductEntity))
      else if input.price.value < 0.0 then Some(NegativePrice)
      else if input.stock.Some? && input.stock.value < 0 then Some(NegativeStock)
      else if !CategoryExists(input.categoryId.value) then Some(MissingReference(action, CategoryEntity, input.categoryId.value))
      else if !BrandExists(input.brandId.value) then Some(MissingReference(action, BrandEntity, input.brandId.value))
      else None
    }

    /** The checks of `partialUpdate`, each run only for a field the patch
        supplies: a negative price, then a negative stock, then an unknown
        category, then an unknown brand. */
    function CheckPatch(patch: ProductPatch): (r: Option<Failure>)
      reads db
      ensures r == Some(NegativePrice) <==> patch.price.Some? && patch.price.value < 0.0
      ensures r.None? <==> (patch.price.None? || patch.price.value >= 0.0)
                           && (patch.stock.None? || patch.stock.value >= 0)
                           && (patch.categoryId.None? || patch.categoryId.value in Ids(db.categories, CategoryId))
                           && (patch.brandId.None? || patch.brandId.value in Ids(db.brands, BrandId))
      ensures r == Some(NegativeStock)
              <==> (patch.price.None? || patch.price.value >= 0.0) && patch.stock.Some? && patch.stock.value < 0
      ensures patch.categoryId.Some? ==>
                (r == Some(MissingReference(Updating, CategoryEntity, patch.categoryId.value))
                 <==> (patch.price.None? || patch.price.value >= 0.0)
                      && (patch.stock.None? || patch.stock.value >= 0)
                      && patch.categoryId.value !in Ids(db.categories, CategoryId))
      ensures patch.brandId.Some? ==>
                (r == Some(MissingReference(Updating, BrandEntity, patch.brandId.value))
                 <==> (patch.price.None? || patch.price.value >= 0.0)
                      && (patch.stock.None? || patch.stock.value >= 0)
                      && (patch.categoryId.None? || patch.categoryId.value in Ids(db.categories, CategoryId))
                      && patch.brandId.value !in Ids(db.brands, BrandId))
    {
      if patch.price.Some? && patch.price.value < 0.0 then Some(NegativePrice)
      else if patch.stock.Some? && patch.stock.value < 0 then Some(NegativeStock)
      else if patch.categoryId.Some? && !CategoryExists(patch.categoryId.value) then
        Some(MissingReference(Updating, CategoryEntity, patch.categoryId.value))
      else if patch.brandId.Some? && !BrandExists(patch.brandId.value) then
        Some(MissingReference(Updating, BrandEntity, patch.brandId.value))
      else None
    }

    /** `create`: rejects what `CheckInput` rejects; otherwise appends a
        record with the next id, a generated description, stock (0 to 100)
        and image standing in for omitted ones. */
    method Create(input: ProductInput, defaultDescription: string, defaultStock: int, defaultImage: string, now: Timestamp)
      returns (r: Result<Product>)
      requires 0 <= defaultStock <= 100
      requires db.Valid()
      modifies db
      ensures db.Valid()
      ensures r.Err? ==> db.State() == old(db.State())
      ensures r.Err? <==> old(CheckInput(input, Creating)).Some?
      ensures r.Err? ==> r.failure == old(CheckInput(input, Creating)).value
      ensures r.Ok? ==> r.value == Product(old(db.nextProductId), input.productName.value,
                                           OrKeep(input.description, defaultDescription), input.price.value,
                                           Supplied(input.stock, defaultStock), input.categoryId.value,
                                           input.brandId.value, OrKeep(input.image, defaultImage), now, None)
      ensures r.Ok? ==> db.State() == old(db.State()).(products := old(db.products) + [r.value],
                                                       nextProductId := old(db.nextProductId) + 1)
    {
      var failure := CheckInput(input, Creating);
      if failure.Some? {
        return Err(failure.value);
      }
      ghost var d := db.State();
      var id := db.NextProductId();
      var product := Product(id, input.productName.value, OrKeep(input.description, defaultDescription),
                             input.price.value, Supplied(input.stock, defaultStock), input.categoryId.value,
                             input.brandId.value, OrKeep(input.image, defaultImage), now, None);
      AddProductKeeps(d, product);
      db.products := db.products + [product];
      r := Ok(product);
    }

    /** `update` (PUT): 404 for an unknown id, then what `CheckInput`
        rejects; otherwise replaces the record in place, keeping id and
        createdAt, and the old description, stock and image when those are
        omitted. */
    method Update(id: int, input: ProductInput, now: Timestamp) returns (r: Result<Product>)
      requires db.Valid()
      modifies db
      ensures db.Valid()
      ensures r.Err? ==> db.State() == old(db.State())
      ensures r == Err(NotFound(ProductEntity, id)) <==> id !in Ids(old(db.products), ProductId)
      ensures id in Ids(old(db.products), ProductId) ==>
                (r.Err? <==> old(CheckInput(input, Updating)).Some?)
                && (r.Err? ==> r.failure == old(CheckInput(input, Updating)).value)
      ensures r.Ok? ==>
                exists k :: 0 <= k < |old(db.products)| && old(db.products)[k].id == id
                  && r.value == PutProduct(old(db.products)[k], input.productName.value, input.price.value, input,
                                           input.categoryId.value, input.brandId.value, now)
                  && db.State() == old(db.State()).(products := old(db.products)[k := r.value])
    {
      var index := FindIndex(db.products, (p: Product) => p.id == id);
      if index.None? {
        return Err(NotFound(ProductEntity, id));
      }
      var k := index.value;
      var failure := CheckInput(input, Updating);
      if failure.Some? {
        return Err(failure.value);
      }
      var product := PutProduct(db.products[k], input.productName.value, input.price.value, input,
                                input.categoryId.value, input.brandId.value, now);
      ReplaceProductKeeps(db.State(), k, product);
      db.products := db.products[k := product];
      r := Ok(product);
    }

    /** `partialUpdate` (PATCH): 404 for an unknown id, then what
        `CheckPatch` rejects; otherwise the patch is merged over the record
        and the id forced back. */
    method PartialUpdate(id: int, patch: ProductPatch, now: Timestamp) returns (r: Result<Product>)
      requires db.Valid()
      modifies db
      ensures db.Valid()
      ensures r.Err? ==> db.State() == old(db.State())
      ensures r == Err(NotFound(ProductEntity, id)) <==> id !in Ids(old(db.products), ProductId)
      ensures id in Ids(old(db.products), ProductId) ==>
                (r.Err? <==> old(CheckPatch(patch)).Some?)
                && (r.Err? ==> r.failure == old(CheckPatch(patch)).value)
      ensures r.Ok? ==>
                exists k :: 0 <= k < |old(db.products)| && old(db.products)[k].id == id
                  && r.value == PatchProduct(old(db.products)[k], patch, now)
                  && db.State() == old(db.State()).(products := old(db.products)[k := r.value])
    {
      var index := FindIndex(db.products, (p: Product) => p.id == id);
      if index.None? {
        return Err(NotFound(ProductEntity, id));
      }
      var k := index.value;
      var failure := CheckPatch(patch);
      if failure.Some? {
        return Err(failure.value);
      }
      var product := PatchProduct(db.products[k], patch, now);
      ReplaceProductKeeps(db.State(), k, product);
      db.products := db.products[k := product];
      r := Ok(product);
    }

    /** `delete`: 404 for an unknown id; otherwise removes the product,
        keeping the order of the others, and returns it. */
    method Delete(id: int) returns (r: Result<Product>)
      requires db.Valid()
      modifies db
      ensures db.Valid()
      ensures r.Err? ==> db.State() == old(db.State())
      ensures r.Err? <==> id !in Ids(old(db.products), ProductId)
      ensures r.Err? ==> r.failure == NotFound(ProductEntity, id)
      ensures r.Ok? ==>
                exists k :: 0 <= k < |old(db.products)| && old(db.products)[k] == r.value && r.value.id == id
                  && db.State() == old(db.State()).(products := RemoveAt(old(db.products), k))
    {
      var index := FindIndex(db.products, (p: Product) => p.id == id);
      if index.None? {
        return Err(NotFound(ProductEntity, id));
      }
      var k := index.value;
      var product := db.products[k];
      RemoveProductKeeps(db.State(), k);
      db.products := RemoveAt(db.products, k);
      r := Ok(product);
    }
  }
}

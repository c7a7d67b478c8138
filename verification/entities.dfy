/** The four record shapes kept in the store, the request bodies the
    services accept, and the merges that build an updated record.

    A PATCH body is a record of optional fields: object spread
    `{ ...current, ...updates }` is a shallow merge in which every supplied
    field wins, so an `Option` per field says exactly which ones are supplied.
    Fields the source never reads back (`id` and the timestamps) are in the
    patches too, because a client may send them. */
module Entities {
  import opened Common

  datatype User = User(
    id: int, name: string, username: string, password: string, email: string,
    createdAt: Timestamp, updatedAt: Option<Timestamp>)

  datatype Category = Category(
    id: int, categoryName: string, description: string, active: bool,
    createdAt: Timestamp, updatedAt: Option<Timestamp>)

  datatype Brand = Brand(
    id: int, brandName: string, description: string, active: bool, country: string,
    createdAt: Timestamp, updatedAt: Option<Timestamp>)

  /** `price` is an exact number: the services only compare it, never compute with it. */
  datatype Product = Product(
    id: int, productName: string, description: string, price: real, stock: int,
    categoryId: int, brandId: int, image: string,
    createdAt: Timestamp, updatedAt: Option<Timestamp>)

  /** POST and PUT bodies: every field may be missing. */
  datatype UserInput = UserInput(
    name: Option<string>, username: Option<string>, password: Option<string>, email: Option<string>)

  datatype CategoryInput = CategoryInput(
    categoryName: Option<string>, description: Option<string>, active: Option<bool>)

  datatype BrandInput = BrandInput(
    brandName: Option<string>, description: Option<string>, active: Option<bool>, country: Option<string>)

  datatype ProductInput = ProductInput(
    productName: Option<string>, description: Option<string>, price: Option<real>, stock: Option<int>,
    categoryId: Option<int>, brandId: Option<int>, image: Option<string>)

  /** PATCH bodies. */
  datatype UserPatch = UserPatch(
    id: Option<int>, name: Option<string>, username: Option<string>, password: Option<string>,
    email: Option<string>, createdAt: Option<Timestamp>, updatedAt: Option<Timestamp>)

  datatype CategoryPatch = CategoryPatch(
    id: Option<int>, categoryName: Option<string>, description: Option<string>, active: Option<bool>,
    createdAt: Option<Timestamp>, updatedAt: Option<Timestamp>)

  datatype BrandPatch = BrandPatch(
    id: Option<int>, brandName: Option<string>, description: Option<string>, active: Option<bool>,
    country: Option<string>, createdAt: Option<Timestamp>, updatedAt: Option<Timestamp>)

  datatype ProductPatch = ProductPatch(
    id: Option<int>, productName: Option<string>, description: Option<string>, price: Option<real>,
    stock: Option<int>, categoryId: Option<int>, brandId: Option<int>, image: Option<string>,
    createdAt: Option<Timestamp>, updatedAt: Option<Timestamp>)

  /** The body `{}`. */
  const EmptyUserPatch := UserPatch(None, None, None, None, None, None, None)
  const EmptyCategoryPatch := CategoryPatch(None, None, None, None, None, None)
  const EmptyBrandPatch := BrandPatch(None, None, None, None, None, None, None)
  const EmptyProductPatch := ProductPatch(None, None, None, None, None, None, None, None, None, None)

  // Projections handed to the generic store invariants.
  function UserId(u: User): (r: int) { u.id }
  function CategoryId(c: Category): (r: int) { c.id }
  function BrandId(b: Brand): (r: int) { b.id }
  function ProductId(p: Product): (r: int) { p.id }

  /** Usernames are compared exactly. */
  function UsernameKey(u: User): (r: string) { u.username }

  /** Category and brand names are compared after lowercasing. */
  function CategoryKey(c: Category): (r: string) { Lower(c.categoryName) }
  function BrandKey(b: Brand): (r: string) { Lower(b.brandName) }

  /** The product tests `p.categoryId === id` and `p.brandId === id`. */
  function InCategory(id: int): (r: Product -> bool) {
    (p: Product) => p.categoryId == id
  }

  function InBrand(id: int): (r: Product -> bool) {
    (p: Product) => p.brandId == id
  }

  // ---------------------------------------------------------------- PATCH merges

  /** `{ ...u, ...patch, id: u.id, updatedAt: now }`. */
  function PatchUser(u: User, patch: UserPatch, now: Timestamp): (r: User)
    ensures r.id == u.id && r.updatedAt == Some(now)
    ensures Agrees(patch.name, r.name) && Agrees(patch.username, r.username)
            && Agrees(patch.password, r.password) && Agrees(patch.email, r.email)
            && Agrees(patch.createdAt, r.createdAt)
    ensures (patch.name.None? ==> r.name == u.name) && (patch.username.None? ==> r.username == u.username)
            && (patch.password.None? ==> r.password == u.password)
            && (patch.email.None? ==> r.email == u.email)
            && (patch.createdAt.None? ==> r.createdAt == u.createdAt)
    ensures r == u.(updatedAt := Some(now))
            <==> Agrees(patch.name, u.name) && Agrees(patch.username, u.username)
                 && Agrees(patch.password, u.password) && Agrees(patch.email, u.email)
                 && Agrees(patch.createdAt, u.createdAt)
  {
    User(u.id, Supplied(patch.name, u.name), Supplied(patch.username, u.username),
         Supplied(patch.password, u.password), Supplied(patch.email, u.email),
         Supplied(patch.createdAt, u.createdAt), Some(now))
  }

  /** `{ ...c, ...patch, id: c.id, updatedAt: now }`. */
  function PatchCategory(c: Category, patch: CategoryPatch, now: Timestamp): (r: Category)
    ensures r.id == c.id && r.updatedAt == Some(now)
    ensures Agrees(patch.categoryName, r.categoryName) && Agrees(patch.description, r.description)
            && Agrees(patch.active, r.active) && Agrees(patch.createdAt, r.createdAt)
    ensures (patch.categoryName.None? ==> r.categoryName == c.categoryName)
            && (patch.description.None? ==> r.description == c.description)
            && (patch.active.None? ==> r.active == c.active)
            && (patch.createdAt.None? ==> r.createdAt == c.createdAt)
    ensures r == c.(updatedAt := Some(now))
            <==> Agrees(patch.categoryName, c.categoryName) && Agrees(patch.description, c.description)
                 && Agrees(patch.active, c.active) && Agrees(patch.createdAt, c.createdAt)
  {
    Category(c.id, Supplied(patch.categoryName, c.categoryName), Supplied(patch.description, c.description),
             Supplied(patch.active, c.active), Supplied(patch.createdAt, c.createdAt), Some(now))
  }

  /** `{ ...b, ...patch, id: b.id, updatedAt: now }`. */
  function PatchBrand(b: Brand, patch: BrandPatch, now: Timestamp): (r: Brand)
    ensures r.id == b.id && r.updatedAt == Some(now)
    ensures Agrees(patch.brandName, r.brandName) && Agrees(patch.description, r.description)
            && Agrees(patch.active, r.active) && Agrees(patch.country, r.country)
            && Agrees(patch.createdAt, r.createdAt)
    ensures (patch.brandName.None? ==> r.brandName == b.brandName)
            && (patch.description.None? ==> r.description == b.description)
            && (patch.active.None? ==> r.active == b.active)
            && (patch.country.None? ==> r.country == b.country)
            && (patch.createdAt.None? ==> r.createdAt == b.createdAt)
    ensures r == b.(updatedAt := Some(now))
            <==> Agrees(patch.brandName, b.brandName) && Agrees(patch.description, b.description)
                 && Agrees(patch.active, b.active) && Agrees(patch.country, b.country)
                 && Agrees(patch.createdAt, b.createdAt)
  {
    Brand(b.id, Supplied(patch.brandName, b.brandName), Supplied(patch.description, b.description),
          Supplied(patch.active, b.active), Supplied(patch.country, b.country),
          Supplied(patch.createdAt, b.createdAt), Some(now))
  }

  /** `{ ...p, ...patch, id: p.id, updatedAt: now }`. */
  function PatchProduct(p: Product, patch: ProductPatch, now: Timestamp): (r: Product)
    ensures r.id == p.id && r.updatedAt == Some(now)
    ensures Agrees(patch.productName, r.productName) && Agrees(patch.description, r.description)
            && Agrees(patch.price, r.price) && Agrees(patch.stock, r.stock)
            && Agrees(patch.categoryId, r.categoryId) && Agrees(patch.brandId, r.brandId)
            && Agrees(patch.image, r.image) && Agrees(patch.createdAt, r.createdAt)
    ensures (patch.productName.None? ==> r.productName == p.productName)
            && (patch.description.None? ==> r.description == p.description)
            && (patch.price.None? ==> r.price == p.price) && (patch.stock.None? ==> r.stock == p.stock)
            && (patch.categoryId.None? ==> r.categoryId == p.categoryId)
            && (patch.brandId.None? ==> r.brandId == p.brandId) && (patch.image.None? ==> r.image == p.image)
            && (patch.createdAt.None? ==> r.createdAt == p.createdAt)
    ensures r == p.(updatedAt := Some(now))
            <==> Agrees(patch.productName, p.productName) && Agrees(patch.description, p.description)
                 && Agrees(patch.price, p.price) && Agrees(patch.stock, p.stock)
                 && Agrees(patch.categoryId, p.categoryId) && Agrees(patch.brandId, p.brandId)
                 && Agrees(patch.image, p.image) && Agrees(patch.createdAt, p.createdAt)
  {
    Product(p.id, Supplied(patch.productName, p.productName), Supplied(patch.description, p.description),
            Supplied(patch.price, p.price), Supplied(patch.stock, p.stock),
            Supplied(patch.categoryId, p.categoryId), Supplied(patch.brandId, p.brandId),
            Supplied(patch.image, p.image), Supplied(patch.createdAt, p.createdAt), Some(now))
  }

  /** An empty patch changes nothing but `updatedAt`, whatever the record. */
  lemma EmptyPatchesOnlyStamp(u: User, c: Category, b: Brand, p: Product, now: Timestamp)
    ensures PatchUser(u, EmptyUserPatch, now) == u.(updatedAt := Some(now))
    ensures PatchCategory(c, EmptyCategoryPatch, now) == c.(updatedAt := Some(now))
    ensures PatchBrand(b, EmptyBrandPatch, now) == b.(updatedAt := Some(now))
    ensures PatchProduct(p, EmptyProductPatch, now) == p.(updatedAt := Some(now))
  {
  }

  /** Applying the same patch twice is applying it once (with the later stamp). */
  lemma PatchesIdempotent(u: User, pu: UserPatch, c: Category, pc: CategoryPatch,
                          b: Brand, pb: BrandPatch, p: Product, pp: ProductPatch, t1: Timestamp, t2: Timestamp)
    ensures PatchUser(PatchUser(u, pu, t1), pu, t2) == PatchUser(u, pu, t2)
    ensures PatchCategory(PatchCategory(c, pc, t1), pc, t2) == PatchCategory(c, pc, t2)
    ensures PatchBrand(PatchBrand(b, pb, t1), pb, t2) == PatchBrand(b, pb, t2)
    ensures PatchProduct(PatchProduct(p, pp, t1), pp, t2) == PatchProduct(p, pp, t2)
  {
  }

  /** Whatever a patch says about `id` and `updatedAt` is overridden: the
      merged record keeps the stored id and carries the new stamp. */
  lemma PatchesIgnoreIdAndStamp(u: User, pu: UserPatch, c: Category, pc: CategoryPatch,
                                b: Brand, pb: BrandPatch, p: Product, pp: ProductPatch,
                                id: int, stamp: Timestamp, now: Timestamp)
    ensures PatchUser(u, pu.(id := Some(id), updatedAt := Some(stamp)), now) == PatchUser(u, pu, now)
    ensures PatchCategory(c, pc.(id := Some(id), updatedAt := Some(stamp)), now) == PatchCategory(c, pc, now)
    ensures PatchBrand(b, pb.(id := Some(id), updatedAt := Some(stamp)), now) == PatchBrand(b, pb, now)
    ensures PatchProduct(p, pp.(id := Some(id), updatedAt := Some(stamp)), now) == PatchProduct(p, pp, now)
    ensures PatchUser(u, pu, now).id == u.id && PatchCategory(c, pc, now).id == c.id
    ensures PatchBrand(b, pb, now).id == b.id && PatchProduct(p, pp, now).id == p.id
  {
  }

  // ---------------------------------------------------------------- PUT merges

  /** The PUT record of a user: the validated name, username and password
      replace the old ones, a falsy email keeps the old one, and id and
      createdAt are carried over by the spread. */
  function PutUser(u: User, name: string, username: string, password: string,
                   email: Option<string>, now: Timestamp): (r: User)
    ensures r.id == u.id && r.createdAt == u.createdAt && r.updatedAt == Some(now)
    ensures r.name == name && r.username == username && r.password == password
    ensures Truthy(email) ==> r.email == email.value
    ensures !Truthy(email) ==> r.email == u.email
    ensures r == u.(updatedAt := Some(now))
            <==> name == u.name && username == u.username && password == u.password
                 && (!Truthy(email) || email.value == u.email)
  {
    u.(name := name, username := username, password := password,
       email := OrKeep(email, u.email), updatedAt := Some(now))
  }

  /** The PUT record of a category: an omitted description or `active` keeps its old value. */
  function PutCategory(c: Category, name: string, input: CategoryInput, now: Timestamp): (r: Category)
    ensures r.id == c.id && r.createdAt == c.createdAt && r.updatedAt == Some(now)
    ensures r.categoryName == name
    ensures Truthy(input.description) ==> r.description == input.description.value
    ensures !Truthy(input.description) ==> r.description == c.description
    ensures Agrees(input.active, r.active) && (input.active.None? ==> r.active == c.active)
  {
    c.(categoryName := name, description := OrKeep(input.description, c.description),
       active := Supplied(input.active, c.active), updatedAt := Some(now))
  }

  /** The PUT record of a brand: an omitted description, `active` or country keeps its old value. */
  function PutBrand(b: Brand, name: string, input: BrandInput, now: Timestamp): (r: Brand)
    ensures r.id == b.id && r.createdAt == b.createdAt && r.updatedAt == Some(now)
    ensures r.brandName == name
    ensures Truthy(input.description) ==> r.description == input.description.value
    ensures !Truthy(input.description) ==> r.description == b.description
    ensures Agrees(input.active, r.active) && (input.active.None? ==> r.active == b.active)
    ensures Truthy(input.country) ==> r.country == input.country.value
    ensures !Truthy(input.country) ==> r.country == b.country
  {
    b.(brandName := name, description := OrKeep(input.description, b.description),
       active := Supplied(input.active, b.active), country := OrKeep(input.country, b.country),
       updatedAt := Some(now))
  }

  /** The PUT record of a product: name, price and both references are the
      validated values; an omitted description, stock or image keeps its old value. */
  function PutProduct(p: Product, name: string, price: real, input: ProductInput,
                      categoryId: int, brandId: int, now: Timestamp): (r: Product)
    ensures r.id == p.id && r.createdAt == p.createdAt && r.updatedAt == Some(now)
    ensures r.productName == name && r.price == price && r.categoryId == categoryId && r.brandId == brandId
    ensures Truthy(input.description) ==> r.description == input.description.value
    ensures !Truthy(input.description) ==> r.description == p.description
    ensures Agrees(input.stock, r.stock) && (input.stock.None? ==> r.stock == p.stock)
    ensures Truthy(input.image) ==> r.image == input.image.value
    ensures !Truthy(input.image) ==> r.image == p.image
  {
    p.(productName := name, description := OrKeep(input.description, p.description), price := price,
       stock := Supplied(input.stock, p.stock), categoryId := categoryId, brandId := brandId,
       image := OrKeep(input.image, p.image), updatedAt := Some(now))
  }
}

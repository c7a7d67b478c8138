# Catalog service layer, modelled in Dafny

This project models the in-memory catalog back end of an Express app:

- **The store.** One `db` object holds four arrays (users, categories, brands, products) and four id counters. Each `getNext*Id` hands out a counter and then increments it.
- **The services.** Four classes (`UsersService`, `CategoriesService`, `BrandsService`, `ProductsService`) read and mutate those same arrays. Their failures are errors carrying an HTTP status code: 400 for validation, 404 for not found, 409 for a conflict.
- **The legacy module.** An older data module holds four referential predicates.

How the model is built:

- `MockData.Catalog` is the store, as a class with four `seq` fields and four counters. `State()` takes a value snapshot of it, and `Invariant` is what every operation keeps:
  - every counter is at least 1;
  - ids increase in store order and stay below their counter;
  - category names are distinct ignoring case, and so are brand names, among non-empty names;
  - prices and stocks are non-negative;
  - every product's category exists.
- Each service is a class holding `const db: Catalog`. All four services hold the same object, just as the JavaScript services hold the same arrays. So a product created through one service is seen by the category delete guard of another (`SharedStore`).
- Queries are functions that read `db`. Writes are methods with `modifies db`. Each write states:
  - its error cases, in the source's order and each as an if-and-only-if;
  - that a failed call leaves the whole store unchanged;
  - the exact new state on success;
  - that the invariant is kept.

  The invariant-preservation steps are value-level lemmas about `Db`.
- Errors are `Result<T>`. `Failure` has one constructor per distinct error message, and `Status` maps it to 400, 404 or 409.
- Request bodies are records of `Option` fields. PATCH bodies are merged field by field, so a supplied field wins (object spread). PUT bodies keep the old value for a falsy description, country, email or image, or an omitted stock or `active` (`||` and `!== undefined`).

## Model

| member | source | states |
|---|---|---|
| Common.Status | services/productsService.js:141-173 | validation failures are 400, missing records and references are 404, name clashes and blocked deletes are 409 |
| Common.OrKeep | services/productsService.js:242-247 | `x \|\| current`: a truthy value wins, otherwise the current one is kept |
| Common.Supplied | services/productsService.js:244 | `x !== undefined ? x : current`: any supplied value wins |
| Common.Lower | services/categoriesService.js:63-65 | lowercasing preserves length and maps each character by ASCII `toLowerCase` |
| Store.FindIndex | services/productsService.js:196 | `findIndex`: the first matching position, or none exactly when nothing matches |
| Store.Any | services/productsService.js:12-19 | `some`: true exactly when some element matches |
| Store.Filter | services/productsService.js:76 | `filter`: keeps exactly the matching elements, never more than the input |
| Store.FilterTwice | services/productsService.js:26-38 | two filters in a row equal one filter by their conjunction |
| Store.FilterEmpty | services/productsService.js:76-82 | a filter is empty exactly when no element matches |
| Store.Take | services/productsService.js:40-44 | `slice(0, size)`: a prefix of length min(size, length), or everything when no size is given |
| Store.RemoveAt | services/productsService.js:333-334 | `splice(i, 1)`: one element shorter, the others in their original order |
| Store.AppendFresh | data/mockData.js:102-105 | pushing a record that carries the counter's value, then incrementing the counter, keeps ids increasing and below the counter |
| Store.RemoveKeepsDistinct | services/categoriesService.js:182-183 | removing a record keeps names distinct |
| Store.Ids | services/productsService.js:12-19 | the set of ids present in a store, in both directions |
| Entities.PatchUser | services/usersService.js:139-144 | object spread of a PATCH body: every supplied field wins, every omitted field keeps its old value, the id is the stored one and `updatedAt` is now; the record is unchanged but for the stamp exactly when every supplied field equals the stored one |
| Entities.PatchCategory | services/categoriesService.js:150-155 | as for users, over the category fields |
| Entities.PatchBrand | services/brandsService.js:146-151 | as for users, over the brand fields |
| Entities.PatchProduct | services/productsService.js:310-315 | as for users, over the product fields |
| Entities.PutUser | services/usersService.js:102-109 | the PUT record keeps id and createdAt, takes the given name, username and password, keeps the old email exactly when the new one is falsy, and is stamped now; it is unchanged but for the stamp exactly when nothing given differs |
| Entities.PutCategory | services/categoriesService.js:114-120 | keeps id and createdAt, takes the given name, keeps the old description when the new one is falsy and the old `active` when it is omitted, stamped now |
| Entities.PutBrand | services/brandsService.js:109-116 | as for categories, and keeps the old country when the new one is falsy |
| Entities.PutProduct | services/productsService.js:239-249 | keeps id and createdAt, takes the validated name, price and references, keeps the old description and image when falsy and the old stock when omitted, stamped now |
| Entities.EmptyPatchesOnlyStamp | services/productsService.js:310-315 | an empty PATCH body changes only `updatedAt` |
| Entities.PatchesIdempotent | services/productsService.js:310-315 | applying the same PATCH body twice is applying it once |
| Entities.PatchesIgnoreIdAndStamp | services/productsService.js:310-315 | a PATCH body's `id` and `updatedAt` are overridden, so the merged record keeps its id |
| MockData.Invariant | data/mockData.js:4-15 | what every operation keeps of the store: counters at least 1, ids increasing and below their counter, category and brand names distinct ignoring case, prices and stocks non-negative, every product's category existing |
| MockData.SeedNamesDistinct | data/mockData.js:18-26 | the ten seeded category names are pairwise distinct ignoring case, and so are the ten brand names |
| MockData.Catalog.Initialize | data/mockData.js:29-87 | after seeding: ids 1..10, 1..10, 1..10 and 1..20 in order; counters 11, 11, 11 and 21; every product's category and brand exist; the invariant holds |
| MockData.Catalog.NextUserId | data/mockData.js:102 | returns the counter and increments it by one, changing nothing else; the id returned is not in use |
| MockData.Catalog.NextCategoryId | data/mockData.js:103 | as for users, over the categories |
| MockData.Catalog.NextBrandId | data/mockData.js:104 | as for users, over the brands |
| MockData.Catalog.NextProductId | data/mockData.js:105 | as for users, over the products |
| CategoriesService.AddCategoryKeeps | services/categoriesService.js:63-80 | appending a category with a fresh id and a non-clashing name keeps the invariant |
| CategoriesService.ReplaceCategoryKeeps | services/categoriesService.js:105-122 | replacing a category by one with the same id and an empty, unchanged or non-clashing name keeps the invariant |
| CategoriesService.RemoveCategoryKeeps | services/categoriesService.js:173-183 | removing a category that no product references keeps the invariant, including that every product's category exists |
| CategoriesService.CategoriesService.HasAssociatedProducts | services/categoriesService.js:11-13 | true exactly when some product in the shared array has this category |
| CategoriesService.CategoriesService.FindAll | services/categoriesService.js:16-35 | the categories whose `active` matches the filter, in store order, cut to `size`; `total` is the unfiltered length |
| CategoriesService.CategoriesService.FindOne | services/categoriesService.js:38-49 | the stored category with that id, or 404 exactly when there is none |
| CategoriesService.CategoriesService.Create | services/categoriesService.js:52-82 | 400 iff the name is falsy; 409 iff it clashes ignoring case; otherwise appends the record with the counter's id and `active` defaulting to true; an error changes nothing |
| CategoriesService.CategoriesService.Update | services/categoriesService.js:85-124 | 404, then 400, then 409 against another category, each an iff; on success only that index is replaced, keeping id, createdAt and omitted fields |
| CategoriesService.CategoriesService.PartialUpdate | services/categoriesService.js:127-159 | 404; 409 iff a truthy name clashes with another category; otherwise the patch merged over the record at that index, id forced back |
| CategoriesService.CategoriesService.Delete | services/categoriesService.js:162-185 | 404 iff unknown; 409 iff some product references it; otherwise removes exactly that record and returns it |
| CategoriesService.CategoriesService.DeleteAll | services/categoriesService.js:188-201 | 409 iff products exist; otherwise empties the categories, returns the old length and leaves every counter unchanged |
| BrandsService.AddBrandKeeps | services/brandsService.js:57-75 | appending a brand with a fresh id and a non-clashing name keeps the invariant |
| BrandsService.ReplaceBrandKeeps | services/brandsService.js:100-118 | replacing a brand by one with the same id and an empty, unchanged or non-clashing name keeps the invariant |
| BrandsService.RemoveBrandKeeps | services/brandsService.js:169-170 | removing any brand keeps the invariant |
| BrandsService.RemoveBrandOrphans | services/brandsService.js:158-172 | deleting a brand that a product references leaves that product's brand id pointing at no brand |
| BrandsService.BrandsService.FindAll | services/brandsService.js:10-29 | the brands whose `active` matches the filter, in store order, cut to `size`; `total` is the unfiltered length |
| BrandsService.BrandsService.FindOne | services/brandsService.js:32-43 | the stored brand with that id, or 404 exactly when there is none |
| BrandsService.BrandsService.Create | services/brandsService.js:46-77 | 400 iff the name is falsy; 409 iff it clashes ignoring case; otherwise appends the record with the counter's id; an error changes nothing |
| BrandsService.BrandsService.Update | services/brandsService.js:80-120 | 404, then 400, then 409 against another brand, each an iff; on success only that index is replaced, keeping omitted description, `active` and country |
| BrandsService.BrandsService.PartialUpdate | services/brandsService.js:123-155 | 404; 409 iff a truthy name clashes with another brand; otherwise the patch merged over the record, id forced back |
| BrandsService.BrandsService.Delete | services/brandsService.js:158-172 | fails only with 404; otherwise removes exactly that record, whatever products reference it |
| UsersService.AddUserKeeps | services/usersService.js:51-68 | appending a user with a fresh id keeps the invariant, and keeps usernames distinct when the new one is unused |
| UsersService.ReplaceUserKeeps | services/usersService.js:93-111 | replacing a user keeps the invariant, and keeps usernames distinct when the new one is empty, unchanged or unused |
| UsersService.RemoveUserKeeps | services/usersService.js:162-163 | removing a user keeps the invariant and distinct usernames |
| UsersService.UsersService.FindAll | services/usersService.js:10-23 | a prefix of the users of length min(size, length); `total` is the full length |
| UsersService.UsersService.FindOne | services/usersService.js:26-37 | the stored user with that id, or 404 exactly when there is none |
| UsersService.UsersService.Create | services/usersService.js:40-70 | 400 iff name, username or password is falsy; 409 iff the username is exactly in use; otherwise appends the user with the counter's id; distinct usernames stay distinct |
| UsersService.UsersService.Update | services/usersService.js:73-113 | 404, then 400, then 409 against another user, each an iff; on success that index is replaced, keeping id, createdAt and a falsy email's old value |
| UsersService.UsersService.PartialUpdate | services/usersService.js:116-148 | 404; 409 iff a truthy username is another user's; a rejected call changes nothing; otherwise the patch merged over the record, id forced back |
| UsersService.UsersService.Delete | services/usersService.js:151-165 | 404 iff unknown; otherwise removes exactly that user and returns it |
| ProductsService.StagedIsOneFilter | services/productsService.js:25-38 | the three conditional filters applied in turn select exactly the products meeting every supplied bound, in store order |
| ProductsService.AddProductKeeps | services/productsService.js:175-187 | appending a product with a fresh id, non-negative price and stock, and an existing category keeps the invariant |
| ProductsService.ReplaceProductKeeps | services/productsService.js:239-251 | replacing a product by a validated one with the same id keeps the invariant |
| ProductsService.RemoveProductKeeps | services/productsService.js:333-334 | removing a product keeps the invariant |
| ProductsService.ProductsService.CategoryExists | services/productsService.js:12-14 | true exactly when the id is a stored category's |
| ProductsService.ProductsService.BrandExists | services/productsService.js:17-19 | true exactly when the id is a stored brand's |
| ProductsService.ProductsService.FindAll | services/productsService.js:22-50 | the products meeting every supplied bound, in store order, cut to `size`; `total` is the unfiltered length |
| ProductsService.ProductsService.FindOne | services/productsService.js:53-64 | the stored product with that id, or 404 exactly when there is none |
| ProductsService.ProductsService.FindByCategory | services/productsService.js:67-99 | 404 iff the category is unknown; a distinct 404 iff no product is in it; success iff the category exists and some product is in it, returning its products in order, cut to `size`, with the full match count |
| ProductsService.ProductsService.FindByBrand | services/productsService.js:102-134 | as for categories, against the brands |
| ProductsService.ProductsService.CheckInput | services/productsService.js:141-173 | the checks of create and update in order: each failure holds exactly when the earlier checks pass and this one fails; none fails exactly when the input is complete, non-negative and both references exist |
| ProductsService.ProductsService.CheckPatch | services/productsService.js:268-300 | the PATCH checks in order, each run only for a supplied field: each failure (negative price, negative stock, unknown category, unknown brand) holds exactly when the earlier checks pass and this one fails; none fails exactly when every supplied price, stock and reference is acceptable |
| ProductsService.ProductsService.Create | services/productsService.js:137-189 | fails exactly when the checks fail, changing nothing; otherwise appends the record with the counter's id and the validated references |
| ProductsService.ProductsService.Update | services/productsService.js:192-253 | 404 iff unknown, before any field check; then fails exactly when the checks fail; on success only that index is replaced, keeping omitted description, stock and image |
| ProductsService.ProductsService.PartialUpdate | services/productsService.js:256-319 | 404 iff unknown; then fails with exactly the failure `CheckPatch` reports; otherwise the patch merged over the record, id forced back |
| ProductsService.ProductsService.Delete | services/productsService.js:322-336 | 404 iff unknown; otherwise removes exactly that record, keeping the others in order |
| LegacyData.HasProductsInCategory | routes/data.js:16-18 | true exactly when some product's category id is the id |
| LegacyData.HasProductsInBrand | routes/data.js:20-22 | true exactly when some product's brand id is the id |
| LegacyData.CategoryExists | routes/data.js:24-26 | true exactly when some category has the id |
| LegacyData.BrandExists | routes/data.js:28-30 | true exactly when some brand has the id |
| LegacyData.InitialState | routes/data.js:4-13 | the arrays start empty and every counter at 1, so no predicate holds |
| LegacyData.HasProductsIffListed | routes/data.js:16-22 | the product predicates hold exactly when the corresponding product listing is non-empty |
| LegacyData.ReferencedCategoryExists | routes/data.js:16-26 | in a store keeping the invariant, a category with products exists |
| LegacyData.DanglingBrandAllowed | routes/data.js:20-30 | the invariant allows a product whose brand does not exist |
| SharedStore.CreatedProductBlocksCategoryDelete | data/mockData.js:97-100 | a product created through the products service makes the categories service refuse to delete its category |
| SharedStore.ClearedCategoriesBlockCreate | services/categoriesService.js:188-201 | after `deleteAll` succeeds, a product create that passes the field checks fails with a missing category |
| SharedStore.CreatesDrawConsecutiveIds | data/mockData.js:105 | two successful creates get consecutive ids; a rejected create draws none |
| SharedStore.CreatedIsReadBack | services/productsService.js:53-64 | `findOne` of a created product's id returns that very record |
| SharedStore.RejectedPatchKeepsUser | services/usersService.js:128-146 | a username clash on PATCH leaves the users array unchanged |

## Left out

- Generated values: faker's default descriptions, emails, countries, images and stock, and every seeded field other than ids, names and references. They are parameters of the operations that use them. The only constraints kept are the ranges the generator is asked for: stock 0 to 100, seeded prices non-negative, seeded references 1 to 10.
- `new Date()` is a `Timestamp` parameter.
- Parsing of query strings and path ids is not modelled: `parseInt`, `parseFloat`, `NaN` and truthiness quirks such as `size=0` or `size=abc`. Ids are integers, `size` is an optional natural, the price bounds are optional exact numbers, and `active` is an optional string compared with `"true"`.
- Request bodies are typed: a field is absent or holds a value of its declared type. Non-string names, `null` fields and unknown extra keys in a PATCH body are out of scope.
- `partialUpdate` in the products service rewrites fields of its `updates` argument in place. The caller's object is not modelled; only the merged record is.
- `toLowerCase` is modelled on ASCII letters only; other Unicode case mappings are out of scope.
- Prices are exact numbers. They are only compared, never computed, so floating point is out of scope.
- Re-running `initializeDatabase` after the services exist is not modelled. It would rebind `db`'s arrays and leave the services holding the old ones.
- The getters' shared-array identity is modelled as every service holding the same `Catalog` object.
- The `setNext*` closures of routes/data.js are not modelled. They rebind module variables that nothing reads back, and the exported counters are copies taken at load time.
- The Express routers, index.js and all browser code are not part of this model.
- Usernames are not distinct in the seeded data, because faker may repeat them. The user operations therefore keep distinctness when it already holds rather than as a store invariant.
- Brand references are not in the invariant. `BrandsService.BrandsService.Delete` has no product guard, so a product's brand may not exist (`BrandsService.RemoveBrandOrphans`, `LegacyData.DanglingBrandAllowed`). Product writes still check the brand.
- `size` is a natural number. A negative `size` reaching `slice(0, size)` would drop the last records instead of cutting to a prefix; that case is not modelled.
- A product's `categoryId` could be made to dangle only by deleting a category, which the guard prevents, so category existence is part of the invariant.

/** The brands service: CRUD over the shared brands array, with
    case-insensitive name uniqueness. Unlike categories, deleting a brand
    does not look at the products at all. */
module BrandsService {
  import opened Common
  import opened Entities
  import opened Store
  import opened MockData

  /** Some brand other than the one with id `except` has `name`, ignoring case. */
  predicate NameInUse(bs: seq<Brand>, name: string, except: Option<int>) {
    exists i :: 0 <= i < |bs| && Lower(bs[i].brandName) == Lower(name) && (except.None? || bs[i].id != except.value)
  }

  /** The brand records `findAll` selects before the `size` cut. */
  function KeepActive(filter: Option<string>): (r: Brand -> bool) {
    (b: Brand) => ActiveFilter(filter, b.active)
  }

  /** A brand has a non-empty key exactly when it has a non-empty name. */
  lemma BrandKeyEmpty(b: Brand)
    ensures BrandKey(b) == "" <==> b.brandName == ""
  {
    LowerEmpty(b.brandName);
  }

  /** Appending a brand that carries the counter's value and a name that
      clashes with no stored name keeps the database invariant, once the
      counter has moved past it. */
  lemma AddBrandKeeps(d: Db, b: Brand)
    requires Invariant(d)
    requires b.id == d.nextBrandId
    requires b.brandName != "" ==> !NameInUse(d.brands, b.brandName, None)
    ensures Invariant(d.(brands := d.brands + [b], nextBrandId := d.nextBrandId + 1))
  {
    BrandKeyEmpty(b);
    AppendFresh(d.brands, BrandId, d.nextBrandId, b);
    AppendDistinct(d.brands, BrandKey, b);
  }

  /** Replacing the brand at `k` by one with the same id keeps the database
      invariant when the new name is empty, unchanged, or clashes with no
      other brand. */
  lemma ReplaceBrandKeeps(d: Db, k: nat, b: Brand)
    requires Invariant(d) && k < |d.brands|
    requires b.id == d.brands[k].id
    requires b.brandName == "" || b.brandName == d.brands[k].brandName
             || !NameInUse(d.brands, b.brandName, Some(b.id))
    ensures Invariant(d.(brands := d.brands[k := b]))
  {
    BrandKeyEmpty(b);
    IdsLocate(d.brands, BrandId, k);
    ReplaceSameId(d.brands, BrandId, d.nextBrandId, k, b);
    ReplaceDistinct(d.brands, BrandKey, k, b);
  }

  /** Removing any brand keeps the database invariant, which says nothing
      about the brands products point at. */
  lemma RemoveBrandKeeps(d: Db, k: nat)
    requires Invariant(d) && k < |d.brands|
    ensures Invariant(d.(brands := RemoveAt(d.brands, k)))
  {
    Store.RemoveKeeps(d.brands, BrandId, d.nextBrandId, k);
    RemoveKeepsDistinct(d.brands, BrandKey, k);
  }

  /** Because `delete` has no product check, removing a brand that a product
      references leaves that product pointing at a brand that no longer
      exists, and a later `findOne` of that brand is a 404. */
  lemma RemoveBrandOrphans(d: Db, k: nat, i: nat)
    requires Invariant(d) && k < |d.brands| && i < |d.products|
    requires d.products[i].brandId == d.brands[k].id
    ensures d.products[i].brandId !in Ids(RemoveAt(d.brands, k), BrandId)
  {
    var bs := RemoveAt(d.brands, k);
    forall j | 0 <= j < |bs| ensures bs[j].id != d.brands[k].id {
      var j' := if j < k then j else j + 1;
      assert bs[j] == d.brands[j'];
    }
  }

  /** `BrandsService`: holds the same `db` as every other service. */
  class BrandsService {
    const db: Catalog

    constructor (db: Catalog)
      ensures this.db == db
    {
      this.db := db;
    }

    /** `findAll`: the brands whose `active` flag matches the filter, in
        store order, cut to `size`; `total` is the unfiltered store size. */
    function FindAll(active: Option<string>, size: Option<nat>): (r: Listing<Brand>)
      reads db
      ensures r.total == |db.brands|
      ensures r.data == Take(Filter(db.brands, KeepActive(active)), size)
    {
      if active.Some? then
        var isActive := active.value == "true";
        FilterSame(db.brands, (b: Brand) => b.active == isActive, KeepActive(active));
        Listing(Take(Filter(db.brands, (b: Brand) => b.active == isActive), size), |db.brands|)
      else
        FilterAll(db.brands, KeepActive(active));
        Listing(Take(db.brands, size), |db.brands|)
    }

    /** `findOne`: the brand with that id, or 404. */
    function FindOne(id: int): (r: Result<Brand>)
      reads db
      ensures r.Ok? <==> id in Ids(db.brands, BrandId)
      ensures r.Ok? ==> r.value in db.brands && r.value.id == id
      ensures r.Err? ==> r.failure == NotFound(BrandEntity, id)
    {
      match FindIndex(db.brands, (b: Brand) => b.id == id)
      case Some(k) => Ok(db.brands[k])
      case None => Err(NotFound(BrandEntity, id))
    }

    /** `create`: 400 for a missing or empty name, 409 for a name already
        used ignoring case; otherwise appends a record with the next id,
        `active` defaulting to true and a generated description and country
        standing in for falsy ones. */
    method Create(input: BrandInput, defaultDescription: string, defaultCountry: string, now: Timestamp)
      returns (r: Result<Brand>)
      requires db.Valid()
      modifies db
      ensures db.Valid()
      ensures r.Err? ==> db.State() == old(db.State())
      ensures r == Err(RequiredFields(BrandEntity)) <==> !Truthy(input.brandName)
      ensures r == Err(NameTaken(BrandEntity))
              <==> Truthy(input.brandName) && NameInUse(old(db.brands), input.brandName.value, None)
      ensures r.Ok? <==> Truthy(input.brandName) && !NameInUse(old(db.brands), input.brandName.value, None)
      ensures r.Ok? ==> r.value == Brand(old(db.nextBrandId), input.brandName.value,
                                         OrKeep(input.description, defaultDescription),
                                         Supplied(input.active, true),
                                         OrKeep(input.country, defaultCountry), now, None)
      ensures r.Ok? ==> db.State() == old(db.State()).(brands := old(db.brands) + [r.value],
                                                       nextBrandId := old(db.nextBrandId) + 1)
    {
      if !Truthy(input.brandName) {
        return Err(RequiredFields(BrandEntity));
      }
      var name := input.brandName.value;
      if Any(db.brands, (b: Brand) => Lower(b.brandName) == Lower(name)) {
        return Err(NameTaken(BrandEntity));
      }
      ghost var d := db.State();
      var id := db.NextBrandId();
      var brand := Brand(id, name, OrKeep(input.description, defaultDescription),
                         Supplied(input.active, true), OrKeep(input.country, defaultCountry), now, None);
      AddBrandKeeps(d, brand);
      db.brands := db.brands + [brand];
      r := Ok(brand);
    }

    /** `update` (PUT): 404 for an unknown id, then 400 for an empty name,
        then 409 for a name another brand uses ignoring case; otherwise
        replaces the record in place, keeping id and createdAt and the old
        description, `active` and country when those are omitted. */
    method Update(id: int, input: BrandInput, now: Timestamp) returns (r: Result<Brand>)
      requires db.Valid()
      modifies db
      ensures db.Valid()
      ensures r.Err? ==> db.State() == old(db.State())
      ensures r == Err(NotFound(BrandEntity, id)) <==> id !in Ids(old(db.brands), BrandId)
      ensures r == Err(RequiredFields(BrandEntity))
              <==> id in Ids(old(db.brands), BrandId) && !Truthy(input.brandName)
      ensures r == Err(NameTaken(BrandEntity))
              <==> id in Ids(old(db.brands), BrandId) && Truthy(input.brandName)
                   && NameInUse(old(db.brands), input.brandName.value, Some(id))
      ensures r.Ok? <==> id in Ids(old(db.brands), BrandId) && Truthy(input.brandName)
                         && !NameInUse(old(db.brands), input.brandName.value, Some(id))
      ensures r.Ok? ==>
                exists k :: 0 <= k < |old(db.brands)| && old(db.brands)[k].id == id
                  && r.value == PutBrand(old(db.brands)[k], input.brandName.value, input, now)
                  && db.State() == old(db.State()).(brands := old(db.brands)[k := r.value])
    {
      var index := FindIndex(db.brands, (b: Brand) => b.id == id);
      if index.None? {
        return Err(NotFound(BrandEntity, id));
      }
      var k := index.value;
      if !Truthy(input.brandName) {
        return Err(RequiredFields(BrandEntity));
      }
      var name := input.brandName.value;
      if Any(db.brands, (b: Brand) => Lower(b.brandName) == Lower(name) && b.id != id) {
        return Err(NameTaken(BrandEntity));
      }
      var brand := PutBrand(db.brands[k], name, input, now);
      ReplaceBrandKeeps(db.State(), k, brand);
      db.brands := db.brands[k := brand];
      r := Ok(brand);
    }

    /** `partialUpdate` (PATCH): 404 for an unknown id; the uniqueness check,
        excluding this brand, runs only for a truthy `brandName`; then the
        patch is merged over the record and the id forced back. */
    method PartialUpdate(id: int, patch: BrandPatch, now: Timestamp) returns (r: Result<Brand>)
      requires db.Valid()
      modifies db
      ensures db.Valid()
      ensures r.Err? ==> db.State() == old(db.State())
      ensures r == Err(NotFound(BrandEntity, id)) <==> id !in Ids(old(db.brands), BrandId)
      ensures r == Err(NameTaken(BrandEntity))
              <==> id in Ids(old(db.brands), BrandId) && Truthy(patch.brandName)
                   && NameInUse(old(db.brands), patch.brandName.value, Some(id))
      ensures r.Ok? <==> id in Ids(old(db.brands), BrandId)
                         && !(Truthy(patch.brandName) && NameInUse(old(db.brands), patch.brandName.value, Some(id)))
      ensures r.Ok? ==>
                exists k :: 0 <= k < |old(db.brands)| && old(db.brands)[k].id == id
                  && r.value == PatchBrand(old(db.brands)[k], patch, now)
                  && db.State() == old(db.State()).(brands := old(db.brands)[k := r.value])
    {
      var index := FindIndex(db.brands, (b: Brand) => b.id == id);
      if index.None? {
        return Err(NotFound(BrandEntity, id));
      }
      var k := index.value;
      if Truthy(patch.brandName) {
        var name := patch.brandName.value;
        if Any(db.brands, (b: Brand) => Lower(b.brandName) == Lower(name) && b.id != id) {
          return Err(NameTaken(BrandEntity));
        }
      }
      var brand := PatchBrand(db.brands[k], patch, now);
      ReplaceBrandKeeps(db.State(), k, brand);
      db.brands := db.brands[k := brand];
      r := Ok(brand);
    }

    /** `delete`: 404 for an unknown id; otherwise removes the brand, keeping
        the order of the others, whatever products still reference it. */
    method Delete(id: int) returns (r: Result<Brand>)
      requires db.Valid()
      modifies db
      ensures db.Valid()
      ensures r.Err? ==> db.State() == old(db.State())
      ensures r.Err? <==> id !in Ids(old(db.brands), BrandId)
      ensures r.Err? ==> r.failure == NotFound(BrandEntity, id)
      ensures r.Ok? ==>
                exists k :: 0 <= k < |old(db.brands)| && old(db.brands)[k] == r.value && r.value.id == id
                  && db.State() == old(db.State()).(brands := RemoveAt(old(db.brands), k))
    {
      var index := FindIndex(db.brands, (b: Brand) => b.id == id);
      if index.None? {
        return Err(NotFound(BrandEntity, id));
      }
      var k := index.value;
      var brand := db.brands[k];
      RemoveBrandKeeps(db.State(), k);
      db.brands := RemoveAt(db.brands, k);
      r := Ok(brand);
    }
  }
}

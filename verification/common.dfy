/** Values shared by every service of the catalog: optional fields, the
    classified errors the services throw, and the string helpers the name
    checks rely on. */
module Common {

  /** A field of a request body or a query string that may be absent. */
  datatype Option<+T> = None | Some(value: T)

  /** A clock reading; `new Date()` is a parameter of every operation that stamps a record. */
  type Timestamp = int

  /** The four resource kinds, used to say which one an error is about. */
  datatype Entity = UserEntity | CategoryEntity | BrandEntity | ProductEntity

  /** Whether a product operation that met a dangling reference was a create or an update. */
  datatype Action = Creating | Updating

  /** The errors a service throws, one constructor per distinct message. */
  datatype Failure =
    | RequiredFields(entity: Entity)                         // "... is required" / "... are required"
    | NegativePrice                                          // "Price cannot be negative"
    | NegativeStock                                          // "Stock cannot be negative"
    | NotFound(entity: Entity, id: int)                      // "<Entity> with id <id> does not exist"
    | MissingReference(action: Action, entity: Entity, id: int)  // "Cannot create product. Category with id ..."
    | NoProductsFor(entity: Entity, id: int)                 // "No products found for category <id>"
    | NameTaken(entity: Entity)                              // "... name already exists" / "Username already exists"
    | CategoryInUse(id: int)                                 // "Category with id <id> has associated products ..."
    | ProductsExist                                          // "Cannot delete all categories while products exist ..."

  /** The outcome of a service call: a value, or the error it throws. */
  datatype Result<+T> = Ok(value: T) | Err(failure: Failure)

  /** The HTTP status carried as `error.statusCode`. */
  function Status(f: Failure): (code: int)
    ensures code == 400 <==> (f.RequiredFields? || f.NegativePrice? || f.NegativeStock?)
    ensures code == 404 <==> (f.NotFound? || f.MissingReference? || f.NoProductsFor?)
    ensures code == 409 <==> (f.NameTaken? || f.CategoryInUse? || f.ProductsExist?)
  {
    match f
    case RequiredFields(_) => 400
    case NegativePrice => 400
    case NegativeStock => 400
    case NotFound(_, _) => 404
    case MissingReference(_, _, _) => 404
    case NoProductsFor(_, _) => 404
    case NameTaken(_) => 409
    case CategoryInUse(_) => 409
    case ProductsExist => 409
  }

  /** JavaScript truthiness of an optional string: absent and "" are falsy. */
  predicate Truthy(s: Option<string>) {
    s.Some? && s.value != ""
  }

  /** The `active` query filter: absent keeps every record, otherwise a
      record is kept when its flag equals `filter === 'true'`. */
  predicate ActiveFilter(filter: Option<string>, active: bool) {
    filter.None? || active == (filter.value == "true")
  }

  /** `patch || current` for an optional string: a falsy patch keeps the current value. */
  function OrKeep(s: Option<string>, current: string): (r: string)
    ensures r == current || (Truthy(s) && r == s.value)
    ensures Truthy(s) ==> r == s.value
    ensures !Truthy(s) ==> r == current
  {
    if s.Some? && s.value != "" then s.value else current
  }

  /** `x !== undefined ? x : current`: any supplied value wins. */
  function Supplied<T>(x: Option<T>, current: T): (r: T)
    ensures x.Some? ==> r == x.value
    ensures x.None? ==> r == current
  {
    match x
    case Some(v) => v
    case None => current
  }

  /** A supplied value, if there is one, equals `current`. */
  predicate Agrees<T(==)>(x: Option<T>, current: T) {
    x.None? || x.value == current
  }

  /** `toLowerCase` on one character, for the ASCII letters. */
  function LowerChar(c: char): (r: char)
    ensures 'A' <= c <= 'Z' ==> 'a' <= r <= 'z' && r as int - c as int == 32
    ensures !('A' <= c <= 'Z') ==> r == c
  {
    if 'A' <= c <= 'Z' then (c as int + 32) as char else c
  }

  /** `toLowerCase` on a string, character by character. */
  function Lower(s: string): (r: string)
    ensures |r| == |s|
    ensures forall i :: 0 <= i < |s| ==> r[i] == LowerChar(s[i])
  {
    if s == [] then [] else [LowerChar(s[0])] + Lower(s[1..])
  }

  /** Only the empty string lowercases to the empty string, so a
      case-insensitive clash between a non-empty name and "" is impossible. */
  lemma LowerEmpty(s: string)
    ensures Lower(s) == "" <==> s == ""
  {
  }
}

/**
 * The product REST handler: GET lists a window of the products, POST creates
 * one, PUT replaces one, DELETE removes one, anything else is refused.
 *
 * The collection is a map from id to document. What the store does on its
 * own is an input: `isValidId` decides whether a string has the form of an
 * object id, `storeFails` makes the store call throw, `newId` is the id the
 * driver assigns to a new document and `now` is the clock.
 */
module Products {
  import opened Common
  import opened Http
  import opened Listing
  import opened Ordering

  /** A stored product (models/Product.ts). */
  datatype Product = Product(
    name: string,
    price: int,
    description: Option<string>,
    provider: Option<Id>,
    createdAt: int,
    updatedAt: int)

  /** The JSON body of POST and PUT; an absent field is None. */
  datatype ProductBody = ProductBody(
    name: Option<string>,
    price: Option<int>,
    description: Option<string>,
    provider: Option<string>)

  /** A request: its method, its query string (with `id`) and its body. */
  datatype Request = Request(verb: string, query: Query, id: Option<string>, body: ProductBody)

  type Entry = (Id, Product)

  const RequiredMessage := "Name and price are required"
  const InvalidIdMessage := "Invalid product ID"
  const NotFoundMessage := "Product not found"
  const DeletedMessage := "Product deleted successfully"
  const FetchError := "Error fetching products"
  const CreateError := "Error creating product"
  const UpdateError := "Error updating product"
  const DeleteError := "Error deleting product"

  /** `name` and `price` are both truthy: a price of 0 is missing, a negative one is not. */
  predicate HasRequiredFields(b: ProductBody)
    ensures HasRequiredFields(b) ==> b.name.Some? && b.price.Some?
    ensures b.name == Some("") || b.price == Some(0) ==> !HasRequiredFields(b)
    ensures Truthy(b.name) && b.price.Some? && b.price.value < 0 ==> HasRequiredFields(b)
  {
    Truthy(b.name) && NonZero(b.price)
  }

  /** The checks PUT makes before it reaches the store: the id first, then the body. */
  function CheckUpdate(idValid: bool, b: ProductBody): (e: Option<string>)
    ensures e.None? <==> idValid && HasRequiredFields(b)
    ensures !idValid ==> e == Some(InvalidIdMessage)
    ensures idValid && !HasRequiredFields(b) ==> e == Some(RequiredMessage)
  {
    if !idValid then Some(InvalidIdMessage)
    else if !HasRequiredFields(b) then Some(RequiredMessage)
    else None
  }

  /** The fields an exact-match filter can select on. */
  const FilterFields: set<string> := {"name", "description", "provider"}

  /** `{ [field]: value }` on a product; fields other than the string ones match nothing. */
  predicate Matches(p: Product, f: Option<Filter>)
    ensures f.None? ==> Matches(p, f)
    ensures f.Some? && f.value.field !in FilterFields ==> !Matches(p, f)
    ensures f.Some? && f.value.field == "provider" && p.provider.None? ==> !Matches(p, f)
    ensures f.Some? && f.value.field == "description" && p.description.None? ==> !Matches(p, f)
  {
    match f
    case None => true
    case Some(Filter(field, value)) =>
      if field == "name" then p.name == value
      else if field == "description" then p.description == Some(value)
      else if field == "provider" then p.provider == Some(value)
      else false
  }

  /** The fields of a stored product. */
  const SortFields: set<string> := {"_id", "name", "price", "description", "provider", "createdAt", "updatedAt"}

  /** The value a product holds in the field it is sorted by. */
  function SortKey(field: string, e: Entry): (k: Key)
    ensures k.Missing? <==> (field !in SortFields
      || (field == "description" && e.1.description.None?) || (field == "provider" && e.1.provider.None?))
    ensures field == "createdAt" || field == "updatedAt" ==> k.Date?
    ensures field == "_id" ==> k == Ref(e.0)
  {
    var p := e.1;
    if field == "_id" then Ref(e.0)
    else if field == "name" then Text(p.name)
    else if field == "price" then Num(p.price)
    else if field == "description" then (if p.description.Some? then Text(p.description.value) else Missing)
    else if field == "provider" then (if p.provider.Some? then Ref(p.provider.value) else Missing)
    else if field == "createdAt" then Date(p.createdAt)
    else if field == "updatedAt" then Date(p.updatedAt)
    else Missing
  }

  function KeyOf(field: string): Entry -> Key {
    e => SortKey(field, e)
  }

  /** The ids `countDocuments(filter)` counts. */
  function Selected(table: map<Id, Product>, f: Option<Filter>): set<Id> {
    set k | k in table && Matches(table[k], f)
  }

  /** The matching ids among those in `seen`. */
  ghost function SelectedAmong(table: map<Id, Product>, seen: set<Id>, f: Option<Filter>): set<Id> {
    set k | k in seen && k in table && Matches(table[k], f)
  }

  /** `matching` holds exactly the matching records among the ids in `seen`, each once. */
  ghost predicate Scanned(table: map<Id, Product>, seen: set<Id>, matching: seq<Entry>, f: Option<Filter>) {
    && (forall e :: e in matching <==> e.0 in seen && e.0 in table && e.1 == table[e.0] && Matches(e.1, f))
    && |matching| == |SelectedAmong(table, seen, f)|
  }

  lemma ScanComplete(table: map<Id, Product>, matching: seq<Entry>, f: Option<Filter>)
    requires Scanned(table, table.Keys, matching, f)
    ensures forall e :: e in matching <==> e.0 in table && e.1 == table[e.0] && Matches(e.1, f)
    ensures |matching| == |Selected(table, f)|
  {
    assert SelectedAmong(table, table.Keys, f) == Selected(table, f);
  }

  lemma ScanStep(table: map<Id, Product>, seen: set<Id>, matching: seq<Entry>, k: Id, f: Option<Filter>)
    requires Scanned(table, seen, matching, f) && k in table && k !in seen
    ensures Scanned(table, seen + {k}, if Matches(table[k], f) then matching + [(k, table[k])] else matching, f)
  {
    if Matches(table[k], f) {
      assert SelectedAmong(table, seen + {k}, f) == SelectedAmong(table, seen, f) + {k};
    } else {
      assert SelectedAmong(table, seen + {k}, f) == SelectedAmong(table, seen, f);
    }
  }

  class ProductCollection {
    var table: map<Id, Product>
    const isValidId: string -> bool

    constructor (isValidId: string -> bool)
      ensures table == map[] && this.isValidId == isValidId
    {
      table := map[];
      this.isValidId := isValidId;
    }

    predicate IdIsValid(id: Option<string>) {
      id.Some? && isValidId(id.value)
    }

    /** The scan behind `find(filter)`: every matching record, once. */
    method MatchingEntries(f: Option<Filter>) returns (matching: seq<Entry>)
      ensures forall e :: e in matching <==> e.0 in table && e.1 == table[e.0] && Matches(e.1, f)
      ensures |matching| == |Selected(table, f)|
    {
      var t := table;
      matching := [];
      var remaining := t.Keys;
      ghost var seen: set<Id> := {};
      while remaining != {}
        invariant remaining + seen == t.Keys && remaining !! seen
        invariant Scanned(t, seen, matching, f)
        decreases remaining
      {
        var k :| k in remaining;
        ScanStep(t, seen, matching, k, f);
        if Matches(t[k], f) {
          matching := matching + [(k, t[k])];
        }
        remaining := remaining - {k};
        seen := seen + {k};
      }
      ScanComplete(t, matching, f);
    }

    /**
     * GET: the products matching the filter, sorted (`ranked` is the order
     * the store chose among equal keys), the window of the requested page,
     * and the page count over all matching products.
     */
    method HandleGet(q: Query, storeFails: bool) returns (res: Response<Product>, ghost ranked: seq<Entry>)
      ensures storeFails || Skip(PageOf(q), LimitOf(q)) < 0 ==> res == Json(500, Error(FetchError))
      ensures !storeFails && Skip(PageOf(q), LimitOf(q)) >= 0 ==>
        && (forall e :: e in ranked <==> e.0 in table && e.1 == table[e.0] && Matches(e.1, FilterOf(q)))
        && |ranked| == |Selected(table, FilterOf(q))|
        && SortedBy(ranked, KeyOf(SortField(q)), IsDescending(q))
        && res == Json(200, Page(Window(ranked, Skip(PageOf(q), LimitOf(q)), LimitOf(q)),
                                 TotalPages(|Selected(table, FilterOf(q))|, LimitOf(q))))
    {
      var filter := FilterOf(q);
      var skip := Skip(PageOf(q), LimitOf(q));
      if storeFails || skip < 0 {
        res, ranked := Json(500, Error(FetchError)), [];
        return;
      }
      var matching := MatchingEntries(filter);
      var key, desc := KeyOf(SortField(q)), IsDescending(q);
      var sorted := Sort(matching, key, desc);
      SortPermutes(matching, key, desc);
      SortSorted(matching, key, desc);
      assert forall e :: e in sorted <==> e in multiset(sorted);
      ranked := sorted;
      var count := |Selected(table, filter)|;
      res := Json(200, Page(Window(sorted, skip, LimitOf(q)), TotalPages(count, LimitOf(q))));
    }

    /** POST: validate the body, then insert one new product. */
    method HandlePost(body: ProductBody, newId: Id, now: int, storeFails: bool) returns (res: Response<Product>)
      modifies this
      ensures !HasRequiredFields(body) ==> res == Json(400, Error(RequiredMessage)) && table == old(table)
      ensures HasRequiredFields(body) && (storeFails || newId in old(table)) ==>
        res == Json(500, Error(CreateError)) && table == old(table)
      ensures HasRequiredFields(body) && !storeFails && newId !in old(table) ==>
        var p := Product(body.name.value, body.price.value, body.description, OrNull(body.provider), now, now);
        && table == old(table)[newId := p]
        && |table| == |old(table)| + 1
        && res == Json(201, Saved(newId, p))
    {
      if !HasRequiredFields(body) {
        return Json(400, Error(RequiredMessage));
      }
      if storeFails || newId in table {
        // a failing store, or a duplicate key, makes `save` throw
        return Json(500, Error(CreateError));
      }
      var p := Product(body.name.value, body.price.value, body.description, OrNull(body.provider), now, now);
      table := table[newId := p];
      res := Json(201, Saved(newId, p));
    }

    /** PUT: check the id, then the body, then replace an existing product (never insert one). */
    method HandlePut(id: Option<string>, body: ProductBody, now: int, storeFails: bool) returns (res: Response<Product>)
      modifies this
      ensures CheckUpdate(IdIsValid(id), body).Some? ==>
        res == Json(400, Error(CheckUpdate(IdIsValid(id), body).value)) && table == old(table)
      ensures CheckUpdate(IdIsValid(id), body).None? && storeFails ==>
        res == Json(500, Error(UpdateError)) && table == old(table)
      ensures CheckUpdate(IdIsValid(id), body).None? && !storeFails && id.value !in old(table) ==>
        res == Json(404, Error(NotFoundMessage)) && table == old(table)
      ensures CheckUpdate(IdIsValid(id), body).None? && !storeFails && id.value in old(table) ==>
        var p := old(table)[id.value].(name := body.name.value, price := body.price.value,
                                       description := body.description, provider := OrNull(body.provider),
                                       updatedAt := now);
        table == old(table)[id.value := p] && res == Json(200, Saved(id.value, p))
      ensures table.Keys == old(table).Keys
    {
      var problem := CheckUpdate(IdIsValid(id), body);
      if problem.Some? {
        return Json(400, Error(problem.value));
      }
      if storeFails {
        return Json(500, Error(UpdateError));
      }
      var key := id.value;
      if key !in table {
        return Json(404, Error(NotFoundMessage));
      }
      var p := table[key].(name := body.name.value, price := body.price.value,
                           description := body.description, provider := OrNull(body.provider),
                           updatedAt := now);
      table := table[key := p];
      res := Json(200, Saved(key, p));
    }

    /** DELETE: check the id, then remove exactly that product. */
    method HandleDelete(id: Option<string>, storeFails: bool) returns (res: Response<Product>)
      modifies this
      ensures !IdIsValid(id) ==> res == Json(400, Error(InvalidIdMessage)) && table == old(table)
      ensures IdIsValid(id) && storeFails ==> res == Json(500, Error(DeleteError)) && table == old(table)
      ensures IdIsValid(id) && !storeFails && id.value !in old(table) ==>
        res == Json(404, Error(NotFoundMessage)) && table == old(table)
      ensures IdIsValid(id) && !storeFails && id.value in old(table) ==>
        table == old(table) - {id.value} && res == Json(200, Message(DeletedMessage))
    {
      if !IdIsValid(id) {
        return Json(400, Error(InvalidIdMessage));
      }
      if storeFails {
        return Json(500, Error(DeleteError));
      }
      var key := id.value;
      if key !in table {
        return Json(404, Error(NotFoundMessage));
      }
      table := table - {key};
      res := Json(200, Message(DeletedMessage));
    }

    /** The handler: dispatch on the method; only POST adds and only PUT/DELETE touch the named id. */
    method Handle(req: Request, newId: Id, now: int, storeFails: bool) returns (res: Response<Product>)
      modifies this
      ensures req.verb !in AllowedMethods ==> res == MethodNotAllowed(req.verb) && table == old(table)
      ensures res.status in {200, 201, 400, 404, 405, 500}
      ensures res.status != 200 && res.status != 201 ==> table == old(table)
      ensures req.verb == "GET" ==> table == old(table)
      ensures req.verb != "POST" ==> table.Keys <= old(table).Keys
      ensures forall k :: k in old(table) && (req.id.None? || k != req.id.value) ==> k in table && table[k] == old(table)[k]
    {
      match req.verb
      case "GET" =>
        ghost var ranked;
        res, ranked := HandleGet(req.query, storeFails);
      case "POST" =>
        res := HandlePost(req.body, newId, now, storeFails);
      case "PUT" =>
        res := HandlePut(req.id, req.body, now, storeFails);
      case "DELETE" =>
        res := HandleDelete(req.id, storeFails);
      case _ =>
        res := MethodNotAllowed(req.verb);
    }
  }
}

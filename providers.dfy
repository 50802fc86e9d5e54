/**
 * The provider REST handler, the same shape as the product handler: GET
 * lists a window of the providers (with no join), POST creates one, PUT
 * replaces one, DELETE removes one, anything else is refused.
 *
 * The collection is a map from id to document. What the store does on its
 * own is an input: `isValidId` decides whether a string has the form of an
 * object id, `storeFails` makes the store call throw, `newId` is the id the
 * driver assigns to a new document and `now` is the clock.
 */
module Providers {
  import opened Common
  import opened Http
  import opened Listing
  import opened Ordering

  /** A stored provider (models/Provider.ts). */
  datatype Provider = Provider(
    name: string,
    address: Option<string>,
    phone: Option<string>,
    description: Option<string>,
    createdAt: int,
    updatedAt: int)

  /** The JSON body of POST and PUT; an absent field is None. */
  datatype ProviderBody = ProviderBody(
    name: Option<string>,
    address: Option<string>,
    phone: Option<string>,
    description: Option<string>)

  /** A request: its method, its query string (with `id`) and its body. */
  datatype Request = Request(verb: string, query: Query, id: Option<string>, body: ProviderBody)

  type Entry = (Id, Provider)

  const RequiredMessage := "Name and address are required"
  const InvalidIdMessage := "Invalid provider ID"
  const NotFoundMessage := "Provider not found"
  const DeletedMessage := "Provider deleted successfully"
  const FetchError := "Error fetching providers"
  const CreateError := "Error creating provider"
  const UpdateError := "Error updating provider"
  const DeleteError := "Error deleting provider"

  /** `name` and `address` are both non-empty; `phone` and `description` are optional. */
  predicate HasRequiredFields(b: ProviderBody)
    ensures HasRequiredFields(b) ==> b.name.Some? && b.address.Some?
    ensures b.name == Some("") || b.address == Some("") ==> !HasRequiredFields(b)
    ensures Truthy(b.name) && Truthy(b.address) && b.phone.None? && b.description.None? ==> HasRequiredFields(b)
  {
    Truthy(b.name) && Truthy(b.address)
  }

  /** The checks PUT makes before it reaches the store: the id first, then the body. */
  function CheckUpdate(idValid: bool, b: ProviderBody): (e: Option<string>)
    ensures e.None? <==> idValid && HasRequiredFields(b)
    ensures !idValid ==> e == Some(InvalidIdMessage)
    ensures idValid && !HasRequiredFields(b) ==> e == Some(RequiredMessage)
  {
    if !idValid then Some(InvalidIdMessage)
    else if !HasRequiredFields(b) then Some(RequiredMessage)
    else None
  }

  /** The fields an exact-match filter can select on. */
  const FilterFields: set<string> := {"name", "address", "phone", "description"}

  /** `{ [field]: value }` on a provider; fields other than the string ones match nothing. */
  predicate Matches(p: Provider, f: Option<Filter>)
    ensures f.None? ==> Matches(p, f)
    ensures f.Some? && f.value.field !in FilterFields ==> !Matches(p, f)
    ensures f.Some? && f.value.field == "phone" && p.phone.None? ==> !Matches(p, f)
    ensures f.Some? && f.value.field == "description" && p.description.None? ==> !Matches(p, f)
  {
    match f
    case None => true
    case Some(Filter(field, value)) =>
      if field == "name" then p.name == value
      else if field == "address" then p.address == Some(value)
      else if field == "phone" then p.phone == Some(value)
      else if field == "description" then p.description == Some(value)
      else false
  }

  function TextOrMissing(s: Option<string>): Key {
    if s.Some? then Text(s.value) else Missing
  }

  /** The fields of a stored provider. */
  const SortFields: set<string> := {"_id", "name", "address", "phone", "description", "createdAt", "updatedAt"}

  /** The value a provider holds in the field it is sorted by. */
  function SortKey(field: string, e: Entry): (k: Key)
    ensures k.Missing? <==> (field !in SortFields
      || (field == "address" && e.1.address.None?) || (field == "phone" && e.1.phone.None?)
      || (field == "description" && e.1.description.None?))
    ensures field == "createdAt" || field == "updatedAt" ==> k.Date?
    ensures field == "_id" ==> k == Ref(e.0)
  {
    var p := e.1;
    if field == "_id" then Ref(e.0)
    else if field == "name" then Text(p.name)
    else if field == "address" then TextOrMissing(p.address)
    else if field == "phone" then TextOrMissing(p.phone)
    else if field == "description" then TextOrMissing(p.description)
    else if field == "createdAt" then Date(p.createdAt)
    else if field == "updatedAt" then Date(p.updatedAt)
    else Missing
  }

  function KeyOf(field: string): Entry -> Key {
    e => SortKey(field, e)
  }

  /** The ids `countDocuments(filter)` counts. */
  function Selected(table: map<Id, Provider>, f: Option<Filter>): set<Id> {
    set k | k in table && Matches(table[k], f)
  }

  /** The matching ids among those in `seen`. */
  ghost function SelectedAmong(table: map<Id, Provider>, seen: set<Id>, f: Option<Filter>): set<Id> {
    set k | k in seen && k in table && Matches(table[k], f)
  }

  /** `matching` holds exactly the matching records among the ids in `seen`, each once. */
  ghost predicate Scanned(table: map<Id, Provider>, seen: set<Id>, matching: seq<Entry>, f: Option<Filter>) {
    && (forall e :: e in matching <==> e.0 in seen && e.0 in table && e.1 == table[e.0] && Matches(e.1, f))
    && |matching| == |SelectedAmong(table, seen, f)|
  }

  lemma ScanComplete(table: map<Id, Provider>, matching: seq<Entry>, f: Option<Filter>)
    requires Scanned(table, table.Keys, matching, f)
    ensures forall e :: e in matching <==> e.0 in table && e.1 == table[e.0] && Matches(e.1, f)
    ensures |matching| == |Selected(table, f)|
  {
    assert SelectedAmong(table, table.Keys, f) == Selected(table, f);
  }

  lemma ScanStep(table: map<Id, Provider>, seen: set<Id>, matching: seq<Entry>, k: Id, f: Option<Filter>)
    requires Scanned(table, seen, matching, f) && k in table && k !in seen
    ensures Scanned(table, seen + {k}, if Matches(table[k], f) then matching + [(k, table[k])] else matching, f)
  {
    if Matches(table[k], f) {
      assert SelectedAmong(table, seen + {k}, f) == SelectedAmong(table, seen, f) + {k};
    } else {
      assert SelectedAmong(table, seen + {k}, f) == SelectedAmong(table, seen, f);
    }
  }

  class ProviderCollection {
    var table: map<Id, Provider>
    const isValidId: string -> bool

    constructor (isValidId: string -> bool)
      ensures table == map[] && this.isValidId == isValidId
    {
      table := map[];
      this.isValidId := isValidId;
    }

    predicate IdIsValid(id: Option<string>) {
      id.Some? && isValidId(id.value)
    }

    /** The scan behind `find(filter)`: every matching record, once. */
    method MatchingEntries(f: Option<Filter>) returns (matching: seq<Entry>)
      ensures forall e :: e in matching <==> e.0 in table && e.1 == table[e.0] && Matches(e.1, f)
      ensures |matching| == |Selected(table, f)|
    {
      var t := table;
      matching := [];
      var remaining := t.Keys;
      ghost var seen: set<Id> := {};
      while remaining != {}
        invariant remaining + seen == t.Keys && remaining !! seen
        invariant Scanned(t, seen, matching, f)
        decreases remaining
      {
        var k :| k in remaining;
        ScanStep(t, seen, matching, k, f);
        if Matches(t[k], f) {
          matching := matching + [(k, t[k])];
        }
        remaining := remaining - {k};
        seen := seen + {k};
      }
      ScanComplete(t, matching, f);
    }

    /**
     * GET: the providers matching the filter, sorted (`ranked` is the order
     * the store chose among equal keys), the window of the requested page,
     * and the page count over all matching providers.
     */
    method HandleGet(q: Query, storeFails: bool) returns (res: Response<Provider>, ghost ranked: seq<Entry>)
      ensures storeFails || Skip(PageOf(q), LimitOf(q)) < 0 ==> res == Json(500, Error(FetchError))
      ensures !storeFails && Skip(PageOf(q), LimitOf(q)) >= 0 ==>
        && (forall e :: e in ranked <==> e.0 in table && e.1 == table[e.0] && Matches(e.1, FilterOf(q)))
        && |ranked| == |Selected(table, FilterOf(q))|
        && SortedBy(ranked, KeyOf(SortField(q)), IsDescending(q))
        && res == Json(200, Page(Window(ranked, Skip(PageOf(q), LimitOf(q)), LimitOf(q)),
                                 TotalPages(|Selected(table, FilterOf(q))|, LimitOf(q))))
    {
      var filter := FilterOf(q);
      var skip := Skip(PageOf(q), LimitOf(q));
      if storeFails || skip < 0 {
        res, ranked := Json(500, Error(FetchError)), [];
        return;
      }
      var matching := MatchingEntries(filter);
      var key, desc := KeyOf(SortField(q)), IsDescending(q);
      var sorted := Sort(matching, key, desc);
      SortPermutes(matching, key, desc);
      SortSorted(matching, key, desc);
      assert forall e :: e in sorted <==> e in multiset(sorted);
      ranked := sorted;
      var count := |Selected(table, filter)|;
      res := Json(200, Page(Window(sorted, skip, LimitOf(q)), TotalPages(count, LimitOf(q))));
    }

    /** POST: validate the body, then insert one new provider. */
    method HandlePost(body: ProviderBody, newId: Id, now: int, storeFails: bool) returns (res: Response<Provider>)
      modifies this
      ensures !HasRequiredFields(body) ==> res == Json(400, Error(RequiredMessage)) && table == old(table)
      ensures HasRequiredFields(body) && (storeFails || newId in old(table)) ==>
        res == Json(500, Error(CreateError)) && table == old(table)
      ensures HasRequiredFields(body) && !storeFails && newId !in old(table) ==>
        var p := Provider(body.name.value, body.address, body.phone, body.description, now, now);
        && table == old(table)[newId := p]
        && |table| == |old(table)| + 1
        && res == Json(201, Saved(newId, p))
    {
      if !HasRequiredFields(body) {
        return Json(400, Error(RequiredMessage));
      }
      if storeFails || newId in table {
        // a failing store, or a duplicate key, makes `save` throw
        return Json(500, Error(CreateError));
      }
      var p := Provider(body.name.value, body.address, body.phone, body.description, now, now);
      table := table[newId := p];
      res := Json(201, Saved(newId, p));
    }

    /** PUT: check the id, then the body, then replace an existing provider (never insert one). */
    method HandlePut(id: Option<string>, body: ProviderBody, now: int, storeFails: bool) returns (res: Response<Provider>)
      modifies this
      ensures CheckUpdate(IdIsValid(id), body).Some? ==>
        res == Json(400, Error(CheckUpdate(IdIsValid(id), body).value)) && table == old(table)
      ensures CheckUpdate(IdIsValid(id), body).None? && storeFails ==>
        res == Json(500, Error(UpdateError)) && table == old(table)
      ensures CheckUpdate(IdIsValid(id), body).None? && !storeFails && id.value !in old(table) ==>
        res == Json(404, Error(NotFoundMessage)) && table == old(table)
      ensures CheckUpdate(IdIsValid(id), body).None? && !storeFails && id.value in old(table) ==>
        var p := old(table)[id.value].(name := body.name.value, address := body.address,
                                       phone := body.phone, description := body.description,
                                       updatedAt := now);
        table == old(table)[id.value := p] && res == Json(200, Saved(id.value, p))
      ensures table.Keys == old(table).Keys
    {
      var problem := CheckUpdate(IdIsValid(id), body);
      if problem.Some? {
        return Json(400, Error(problem.value));
      }
      if storeFails {
        return Json(500, Error(UpdateError));
      }
      var key := id.value;
      if key !in table {
        return Json(404, Error(NotFoundMessage));
      }
      var p := table[key].(name := body.name.value, address := body.address,
                           phone := body.phone, description := body.description,
                           updatedAt := now);
      table := table[key := p];
      res := Json(200, Saved(key, p));
    }

    /** DELETE: check the id, then remove exactly that provider. */
    method HandleDelete(id: Option<string>, storeFails: bool) returns (res: Response<Provider>)
      modifies this
      ensures !IdIsValid(id) ==> res == Json(400, Error(InvalidIdMessage)) && table == old(table)
      ensures IdIsValid(id) && storeFails ==> res == Json(500, Error(DeleteError)) && table == old(table)
      ensures IdIsValid(id) && !storeFails && id.value !in old(table) ==>
        res == Json(404, Error(NotFoundMessage)) && table == old(table)
      ensures IdIsValid(id) && !storeFails && id.value in old(table) ==>
        table == old(table) - {id.value} && res == Json(200, Message(DeletedMessage))
    {
      if !IdIsValid(id) {
        return Json(400, Error(InvalidIdMessage));
      }
      if storeFails {
        return Json(500, Error(DeleteError));
      }
      var key := id.value;
      if key !in table {
        return Json(404, Error(NotFoundMessage));
      }
      table := table - {key};
      res := Json(200, Message(DeletedMessage));
    }

    /** The handler: dispatch on the method; only POST adds and only PUT/DELETE touch the named id. */
    method Handle(req: Request, newId: Id, now: int, storeFails: bool) returns (res: Response<Provider>)
      modifies this
      ensures req.verb !in AllowedMethods ==> res == MethodNotAllowed(req.verb) && table == old(table)
      ensures res.status in {200, 201, 400, 404, 405, 500}
      ensures res.status != 200 && res.status != 201 ==> table == old(table)
      ensures req.verb == "GET" ==> table == old(table)
      ensures req.verb != "POST" ==> table.Keys <= old(table).Keys
      ensures forall k :: k in old(table) && (req.id.None? || k != req.id.value) ==> k in table && table[k] == old(table)[k]
    {
      match req.verb
      case "GET" =>
        ghost var ranked;
        res, ranked := HandleGet(req.query, storeFails);
      case "POST" =>
        res := HandlePost(req.body, newId, now, storeFails);
      case "PUT" =>
        res := HandlePut(req.id, req.body, now, storeFails);
      case "DELETE" =>
        res := HandleDelete(req.id, storeFails);
      case _ =>
        res := MethodNotAllowed(req.verb);
    }
  }
}

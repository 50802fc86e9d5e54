/**
 * The query of a listing (GET on a collection) and the page arithmetic both
 * handlers share: which filter applies, which way the records are sorted,
 * which window of them is returned and how many pages there are.
 */
module Listing {
  import opened Common

  const DefaultPage: int := 1
  const DefaultLimit: int := 5
  const DefaultSortBy: string := "createdAt"
  const DefaultOrder: string := "desc"

  /** The query-string parameters of a listing; numbers already converted. */
  datatype Query = Query(
    page: Option<int>,
    limit: Option<int>,
    sortBy: Option<string>,
    order: Option<string>,
    filterBy: Option<string>,
    filterValue: Option<string>)

  /** An exact-match condition `{ field: value }`. */
  datatype Filter = Filter(field: string, value: string)

  /** The filter applies only when both `filterBy` and `filterValue` are non-empty. */
  function FilterOf(q: Query): (f: Option<Filter>)
    ensures f.Some? <==> Truthy(q.filterBy) && Truthy(q.filterValue)
    ensures f.Some? ==> f.value.field == q.filterBy.value && f.value.value == q.filterValue.value
  {
    if Truthy(q.filterBy) && Truthy(q.filterValue) then Some(Filter(q.filterBy.value, q.filterValue.value))
    else None
  }

  /** The field sorted on: `sortBy`, or `createdAt` when it is absent. */
  function SortField(q: Query): (field: string)
    ensures q.sortBy.None? ==> field == DefaultSortBy
    ensures q.sortBy.Some? ==> field == q.sortBy.value
  {
    q.sortBy.GetOr(DefaultSortBy)
  }

  /** Descending exactly when `order` is "desc", which is also its default. */
  function IsDescending(q: Query): (desc: bool)
    ensures desc <==> q.order.None? || q.order.value == "desc"
  {
    q.order.GetOr(DefaultOrder) == "desc"
  }

  function PageOf(q: Query): (page: int)
    ensures q.page.None? ==> page == DefaultPage
    ensures q.page.Some? ==> page == q.page.value
  {
    q.page.GetOr(DefaultPage)
  }

  function LimitOf(q: Query): (limit: int)
    ensures q.limit.None? ==> limit == DefaultLimit
    ensures q.limit.Some? ==> limit == q.limit.value
  {
    q.limit.GetOr(DefaultLimit)
  }

  /** The number of records skipped before the requested page. */
  function Skip(page: int, limit: int): (s: int)
    ensures page == DefaultPage ==> s == 0
    ensures page >= 1 && limit >= 0 ==> s >= 0
    ensures page < 1 && limit > 0 ==> s < 0
  {
    (page - 1) * limit
  }

  /**
   * What the store returns for `.skip(skip).limit(limit)` over the sorted
   * records: a limit of 0 means no limit, a negative limit means its
   * absolute value.
   */
  function Window<T>(xs: seq<T>, skip: nat, limit: int): (w: seq<T>)
    ensures skip >= |xs| ==> w == []
    ensures skip < |xs| ==> |w| == if limit == 0 then |xs| - skip else Min(|xs| - skip, Abs(limit))
    ensures forall i :: 0 <= i < |w| ==> w[i] == xs[skip + i]
  {
    if skip >= |xs| then []
    else if limit == 0 || Abs(limit) >= |xs| - skip then xs[skip..]
    else xs[skip..skip + Abs(limit)]
  }

  lemma CeilingDivision(count: nat, limit: int)
    requires limit > 0
    ensures var t := (count + limit - 1) / limit;
      t >= 0 && (t - 1) * limit < count <= t * limit
  {
    var t := (count + limit - 1) / limit;
    var r := (count + limit - 1) % limit;
    assert count + limit - 1 == t * limit + r;
    assert (t - 1) * limit == t * limit - limit;
  }

  lemma NegativeCeilingDivision(count: nat, limit: int)
    requires limit < 0
    ensures var t := -(count / -limit);
      t <= 0 && t * limit <= count < (t - 1) * limit
  {
    var m := -limit;
    var q := count / m;
    var r := count % m;
    assert count == q * m + r;
    assert -q * limit == q * m;
    assert (-q - 1) * limit == q * m + m;
  }

  /**
   * `Math.ceil(count / limit)` as the response carries it: None (JSON null)
   * when the limit is 0, since the quotient is then Infinity or NaN.
   */
  function TotalPages(count: nat, limit: int): (t: Option<int>)
    ensures t.None? <==> limit == 0
    ensures limit > 0 ==> t.value >= 0 && (t.value - 1) * limit < count <= t.value * limit
    ensures limit < 0 ==> t.value <= 0 && t.value * limit <= count < (t.value - 1) * limit
  {
    if limit == 0 then None
    else if limit > 0 then CeilingDivision(count, limit); Some((count + limit - 1) / limit)
    else NegativeCeilingDivision(count, limit); Some(-(count / -limit))
  }

  /** No records give no pages; between 1 and `limit` records give one page. */
  lemma TotalPagesSmallCounts(count: nat, limit: int)
    requires limit > 0
    ensures count == 0 <==> TotalPages(count, limit) == Some(0)
    ensures 0 < count <= limit <==> TotalPages(count, limit) == Some(1)
  {
    var t := TotalPages(count, limit).value;
    if t >= 2 {
      assert (t - 1) * limit >= limit;
    }
  }

  /** A reference definition of paging: consecutive chunks of `limit` records. */
  function Paginate<T>(xs: seq<T>, limit: int): seq<seq<T>>
    requires limit > 0
    decreases |xs|
  {
    if xs == [] then []
    else if |xs| <= limit then [xs]
    else [xs[..limit]] + Paginate(xs[limit..], limit)
  }

  function Flatten<T>(pages: seq<seq<T>>): seq<T> {
    if pages == [] then [] else pages[0] + Flatten(pages[1..])
  }

  lemma MulMonotone(a: int, b: int, limit: int)
    requires a <= b && limit > 0
    ensures a * limit <= b * limit
  {
    assert b * limit - a * limit == (b - a) * limit;
  }

  /** Each count has exactly one page number `t` with (t-1)*limit < count <= t*limit. */
  lemma CeilingUnique(count: nat, limit: int, a: int, b: int)
    requires limit > 0
    requires (a - 1) * limit < count <= a * limit
    requires (b - 1) * limit < count <= b * limit
    ensures a == b
  {
    if a < b {
      MulMonotone(a, b - 1, limit);
    } else if b < a {
      MulMonotone(b, a - 1, limit);
    }
  }

  /** One more full page of records adds one to the page count. */
  lemma TotalPagesStep(count: nat, limit: int)
    requires limit > 0 && count > limit
    ensures TotalPages(count, limit).value == TotalPages(count - limit, limit).value + 1
  {
    var n := TotalPages(count - limit, limit).value;
    assert (n - 1) * limit + limit == n * limit;
    assert n * limit + limit == (n + 1) * limit;
    CeilingUnique(count, limit, TotalPages(count, limit).value, n + 1);
  }

  /** There are `TotalPages` pages, and none of them is empty. */
  lemma {:induction false} PaginateCount<T>(xs: seq<T>, limit: int)
    requires limit > 0
    ensures TotalPages(|xs|, limit) == Some(|Paginate(xs, limit)|)
    ensures forall p :: 0 <= p < |Paginate(xs, limit)| ==> Paginate(xs, limit)[p] != []
  {
    if xs == [] {
    } else if |xs| <= limit {
      TotalPagesSmallCounts(|xs|, limit);
    } else {
      PaginateCount(xs[limit..], limit);
      TotalPagesStep(|xs|, limit);
      assert Paginate(xs, limit)[1..] == Paginate(xs[limit..], limit);
    }
  }

  /** The pages, one after another, are the records in order. */
  lemma {:induction false} PaginateFlattens<T>(xs: seq<T>, limit: int)
    requires limit > 0
    ensures Flatten(Paginate(xs, limit)) == xs
  {
    if xs == [] {
    } else if |xs| <= limit {
      assert Flatten(Paginate(xs, limit)) == xs + Flatten([]);
    } else {
      var rest := xs[limit..];
      PaginateFlattens(rest, limit);
      assert Paginate(xs, limit)[1..] == Paginate(rest, limit);
      assert xs == xs[..limit] + rest;
    }
  }

  lemma WindowShift<T>(xs: seq<T>, skip: nat, limit: int, offset: nat)
    requires offset <= |xs|
    ensures Window(xs[offset..], skip, limit) == Window(xs, skip + offset, limit)
  {
  }

  /** Page `p` (1-based) of a listing is the window the handler returns for it. */
  lemma {:induction false} PageIsWindow<T>(xs: seq<T>, limit: int, p: int)
    requires limit > 0 && 1 <= p <= |Paginate(xs, limit)|
    ensures Skip(p, limit) >= 0
    ensures Paginate(xs, limit)[p - 1] == Window(xs, Skip(p, limit), limit)
  {
    if p == 1 {
      assert Skip(p, limit) == 0;
    } else {
      PaginateTail(xs, limit, p);
      var rest := xs[limit..];
      PageIsWindow(rest, limit, p - 1);
      SkipStep(p, limit);
      WindowShift(xs, Skip(p - 1, limit), limit, limit);
    }
  }

  /** Every page after the first is a page of the records past the first `limit`. */
  lemma PaginateTail<T>(xs: seq<T>, limit: int, p: int)
    requires limit > 0 && 2 <= p <= |Paginate(xs, limit)|
    ensures |xs| > limit
    ensures |Paginate(xs[limit..], limit)| == |Paginate(xs, limit)| - 1
    ensures Paginate(xs, limit)[p - 1] == Paginate(xs[limit..], limit)[p - 2]
  {
    assert |xs| > limit;
    assert Paginate(xs, limit) == [xs[..limit]] + Paginate(xs[limit..], limit);
  }

  lemma SkipStep(p: int, limit: int)
    requires p >= 1 && limit > 0
    ensures Skip(p, limit) >= 0
    ensures Skip(p - 1, limit) + limit == Skip(p, limit)
  {
    MulMonotone(0, p - 1, limit);
  }

  /** A page past the last one is empty. */
  lemma PastLastPageEmpty<T>(xs: seq<T>, limit: int, p: int)
    requires limit > 0 && p > TotalPages(|xs|, limit).value
    ensures Skip(p, limit) >= |xs|
    ensures Window(xs, Skip(p, limit), limit) == []
  {
    var t := TotalPages(|xs|, limit).value;
    assert |xs| <= t * limit;
    MulMonotone(t, p - 1, limit);
  }
}

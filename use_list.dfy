/**
 * The list state kept by the `useList` hook: pagination, sorting and filters,
 * read once from the page's search parameters, sent to the caller's
 * `fetchData`, and written back to the address bar after each successful
 * fetch, together with the loading flag, the error message, the rows and the
 * total that a fetch leaves behind.
 */
module UseList {
  import opened Wrappers
  import opened JsValues
  import SP = SearchParams

  /** The search parameters the hook reads itself; every other one is a filter. */
  const Reserved: set<string> := {"page", "perPage", "sortBy", "sortType"}

  /** The message shown when `fetchData` fails for a reason other than an abort. */
  const LoadError: string := "Hubo un problema al cargar los datos."

  /** `defaultSorting` and `defaultPagination`. */
  datatype Options = Options(sortBy: string, sortType: string, page: int, perPage: int)

  const DefaultOptions: Options := Options("name", "asc", 1, 10)

  /** The arguments `fetchData` receives (the abort signal aside). */
  datatype Request = Request(page: Value, perPage: Value, sortBy: string, sortType: string, filters: SP.Query)

  /** How the awaited `fetchData` call ended: with rows and a total, rejected
      with an `AbortError`, rejected with any other error, or rejected with
      null or undefined (whose `name` cannot be read). */
  datatype Outcome<T> = Fetched(data: seq<T>, total: int) | Aborted | Failed | RejectedNullish

  /** Filters as the hook keeps them: an object whose property names are
      distinct and never one of the reserved parameters. */
  ghost predicate ValidFilters(f: SP.Query)
  {
    SP.Unique(f) && SP.Names(f) !! Reserved
  }

  /** `params.get(k) || fallback` */
  function GetOr(q: SP.Query, k: string, fallback: string): (r: string)
    ensures SP.Get(q, k) == Some(r) || r == fallback
    ensures r == fallback || r != ""
    ensures SP.Get(q, k).Some? && SP.Get(q, k).value != "" ==> r == SP.Get(q, k).value
    ensures SP.Get(q, k) == None || SP.Get(q, k) == Some("") ==> r == fallback
  {
    match SP.Get(q, k)
    case Some(v) => if v != "" then v else fallback
    case None => fallback
  }

  // ---------------------------------------------------------------------------
  // Reading the filters from the address bar

  /** One step of `params.forEach`: a pair whose name is not reserved is
      assigned to the filters object. */
  function Collect(acc: SP.Query, p: (string, string)): SP.Query
  {
    if p.0 in Reserved then acc else SP.Set(acc, p.0, p.1)
  }

  /** The filters object after `forEach` has visited every pair of `q`, starting from `acc`. */
  function CollectAll(acc: SP.Query, q: SP.Query): SP.Query
  {
    if q == [] then acc else Collect(CollectAll(acc, q[..|q| - 1]), q[|q| - 1])
  }

  /** The filters the hook reads from the search parameters `q`. */
  function FiltersFrom(q: SP.Query): SP.Query
  {
    CollectAll([], q)
  }

  /** The value of the last pair named `k`. */
  function LastValue(q: SP.Query, k: string): Option<string>
  {
    if q == [] then None
    else if q[|q| - 1].0 == k then Some(q[|q| - 1].1)
    else LastValue(q[..|q| - 1], k)
  }

  // ---------------------------------------------------------------------------
  // Writing the state back to the address bar

  /** The four parameters every successful fetch writes, in their order. */
  function BaseQuery(req: Request): SP.Query
  {
    SP.Set(SP.Set(SP.Set(SP.Set([], "page", ToStr(req.page)), "perPage", ToStr(req.perPage)),
      "sortBy", req.sortBy), "sortType", req.sortType)
  }

  /** One step of `Object.entries(filters).forEach`: a filter with a truthy value is set. */
  function Emit(acc: SP.Query, p: (string, string)): SP.Query
  {
    if p.1 != "" then SP.Set(acc, p.0, p.1) else acc
  }

  function EmitAll(acc: SP.Query, f: SP.Query): SP.Query
  {
    if f == [] then acc else Emit(EmitAll(acc, f[..|f| - 1]), f[|f| - 1])
  }

  /** The search parameters a successful fetch of `req` writes. */
  function QueryFor(req: Request): SP.Query
  {
    EmitAll(BaseQuery(req), req.filters)
  }

  /** The value filter `k` contributes to the address bar: its value when that is not empty. */
  function FilterValue(f: SP.Query, k: string): Option<string>
  {
    match SP.Get(f, k)
    case Some(v) => if v != "" then Some(v) else None
    case None => None
  }

  /** The filters whose value is not empty, in order. */
  function NonEmpty(f: SP.Query): SP.Query
  {
    if f == [] then []
    else NonEmpty(f[..|f| - 1]) + (if f[|f| - 1].1 != "" then [f[|f| - 1]] else [])
  }

  /** What the mount effect reads from the search parameters `q`: each of
      pagination and sorting, or its default when absent or empty, and the
      filters. */
  method ReadQuery(q: SP.Query, options: Options) returns (page: Value, perPage: Value, sortBy: string, sortType: string, filters: SP.Query)
    ensures IsNumber(page) && IsNumber(perPage) && ValidFilters(filters)
    ensures page == ParseInt(GetOr(q, "page", IntToString(options.page)))
    ensures perPage == ParseInt(GetOr(q, "perPage", IntToString(options.perPage)))
    ensures sortBy == GetOr(q, "sortBy", options.sortBy)
    ensures sortType == GetOr(q, "sortType", options.sortType)
    ensures filters == FiltersFrom(q)
  {
    page := ParseInt(GetOr(q, "page", IntToString(options.page)));
    perPage := ParseInt(GetOr(q, "perPage", IntToString(options.perPage)));
    sortBy := GetOr(q, "sortBy", options.sortBy);
    sortType := GetOr(q, "sortType", options.sortType);
    filters := ReadFilters(q);
    FiltersFromValid(q);
  }

  /** The loop of the mount effect over the search parameters: every
      pair whose name is not reserved is set on the filters. */
  method ReadFilters(location: SP.Query) returns (collected: SP.Query)
    ensures collected == FiltersFrom(location)
  {
    collected := [];
    var i := 0;
    while i < |location|
      invariant 0 <= i <= |location|
      invariant collected == CollectAll([], location[..i])
    {
      var (key, value) := location[i];
      if key !in Reserved {
        collected := SP.Set(collected, key, value);
      }
      assert location[..i + 1][..i] == location[..i];
      i := i + 1;
    }
    assert location[..i] == location;
  }

  // ---------------------------------------------------------------------------
  // The hook's state

  class ListController<T> {
    const options: Options
    var loading: bool
    var error: Option<string>
    var data: seq<T>
    var page: Value
    var perPage: Value
    var total: int
    var sortBy: string
    var sortType: string
    var filters: SP.Query
    /** The page's current search parameters. */
    var location: SP.Query

    /** Page and page size hold numbers (parseInt may give NaN), and the
        filters form an object whose names are not reserved. */
    ghost predicate Valid()
      reads this
    {
      IsNumber(page) && IsNumber(perPage) && ValidFilters(filters)
    }

    /** The arguments the next fetch passes to `fetchData`. */
    function CurrentRequest(): Request
      reads this
    {
      Request(page, perPage, sortBy, sortType, filters)
    }

    /** The initial state of the hook, mounted on a page whose search parameters are `location`. */
    constructor (options: Options, location: SP.Query)
      ensures Valid()
      ensures this.options == options && this.location == location
      ensures !loading && error == None && data == [] && total == 0
      ensures page == Num(options.page) && perPage == Num(options.perPage)
      ensures sortBy == options.sortBy && sortType == options.sortType && filters == []
    {
      this.options := options;
      this.location := location;
      loading := false;
      error := None;
      data := [];
      total := 0;
      page := Num(options.page);
      perPage := Num(options.perPage);
      sortBy := options.sortBy;
      sortType := options.sortType;
      filters := [];
    }

    /** The mount effect: pagination, sorting and filters are read from the
        search parameters, each falling back to its default. */
    method Initialize()
      modifies this`page, this`perPage, this`sortBy, this`sortType, this`filters
      ensures Valid()
      ensures page == ParseInt(GetOr(location, "page", IntToString(options.page)))
      ensures perPage == ParseInt(GetOr(location, "perPage", IntToString(options.perPage)))
      ensures sortBy == GetOr(location, "sortBy", options.sortBy)
      ensures sortType == GetOr(location, "sortType", options.sortType)
      ensures filters == FiltersFrom(location)
    {
      var newPage, newPerPage, newSortBy, newSortType, collected := ReadQuery(location, options);
      ApplyQuery(newPage, newPerPage, newSortBy, newSortType, collected);
    }

    /** The state setters the mount effect calls, one per piece of state. */
    method ApplyQuery(newPage: Value, newPerPage: Value, newSortBy: string, newSortType: string, newFilters: SP.Query)
      modifies this`page, this`perPage, this`sortBy, this`sortType, this`filters
      ensures page == newPage && perPage == newPerPage && sortBy == newSortBy && sortType == newSortType
      ensures filters == newFilters
    {
      page, perPage, sortBy, sortType, filters := newPage, newPerPage, newSortBy, newSortType, newFilters;
    }

    /** The start of `doFetch`: loading is raised, the error cleared, and the
        current state becomes the request. */
    method StartFetch() returns (request: Request)
      modifies this`loading, this`error
      ensures loading && error == None
      ensures request == CurrentRequest()
    {
      loading := true;
      error := None;
      request := CurrentRequest();
    }

    /** The rest of `doFetch` once `fetchData` has settled: rows and total are
        taken from a successful response and the address bar is replaced when
        its parameters differ from the request's; an abort changes nothing; any
        other failure sets the error message, except a null or undefined
        rejection, where reading `err.name` throws before the message is set.
        Loading ends in every case. */
    method FinishFetch(request: Request, outcome: Outcome<T>) returns (replaced: bool)
      modifies this`data, this`total, this`error, this`loading, this`location
      ensures !loading
      ensures outcome.Fetched? ==>
        && data == outcome.data && total == outcome.total && error == old(error)
        && replaced == (old(location) != QueryFor(request)) && location == QueryFor(request)
      ensures outcome.Aborted? ==>
        data == old(data) && total == old(total) && error == old(error) && location == old(location) && !replaced
      ensures outcome.Failed? ==>
        && data == old(data) && total == old(total) && error == Some(LoadError)
        && location == old(location) && !replaced
      ensures outcome.RejectedNullish? ==>
        data == old(data) && total == old(total) && error == old(error) && location == old(location) && !replaced
    {
      replaced := false;
      match outcome {
      case Fetched(rows, count) =>
        data := rows;
        total := count;
        var params: SP.Query := [];
        params := SP.Set(params, "page", ToStr(request.page));
        params := SP.Set(params, "perPage", ToStr(request.perPage));
        params := SP.Set(params, "sortBy", request.sortBy);
        params := SP.Set(params, "sortType", request.sortType);
        var i := 0;
        while i < |request.filters|
          invariant 0 <= i <= |request.filters|
          invariant params == EmitAll(BaseQuery(request), request.filters[..i])
        {
          var (key, value) := request.filters[i];
          if value != "" {
            params := SP.Set(params, key, value);
          }
          assert request.filters[..i + 1][..i] == request.filters[..i];
          i := i + 1;
        }
        assert request.filters[..i] == request.filters;
        if location != params {
          location := params;
          replaced := true;
        }
      case Aborted =>
      case Failed =>
        error := Some(LoadError);
      case RejectedNullish =>
      }
      loading := false;
    }

    /** A whole `doFetch` (also what `refetch` runs) with the given outcome. */
    method Fetch(outcome: Outcome<T>) returns (request: Request, replaced: bool)
      modifies this`data, this`total, this`error, this`loading, this`location
      ensures request == old(CurrentRequest())
      ensures !loading
      ensures error == if outcome.Failed? then Some(LoadError) else None
      ensures data == if outcome.Fetched? then outcome.data else old(data)
      ensures total == if outcome.Fetched? then outcome.total else old(total)
      ensures location == if outcome.Fetched? then QueryFor(request) else old(location)
      ensures replaced <==> outcome.Fetched? && old(location) != QueryFor(request)
    {
      request := StartFetch();
      replaced := FinishFetch(request, outcome);
    }

    /** `handleSearching`: the search filter takes the typed value and the
        list goes back to its first page. */
    method HandleSearching(value: string)
      requires Valid()
      modifies this`filters, this`page
      ensures Valid()
      ensures filters == SP.Set(old(filters), "search", value) && page == Num(1)
    {
      SP.SetSpec(filters, "search", value);
      filters := SP.Set(filters, "search", value);
      page := Num(1);
    }
  }

  /** `useList` called without `defaultSorting` or `defaultPagination`: the
      list starts on page 1 of 10 rows, sorted by `name` ascending. */
  method NewWithDefaults<T>(location: SP.Query) returns (c: ListController<T>)
    ensures c.options == DefaultOptions && c.location == location
    ensures c.page == Num(1) && c.perPage == Num(10)
    ensures c.sortBy == "name" && c.sortType == "asc"
    ensures !c.loading && c.error == None && c.data == [] && c.total == 0 && c.filters == []
  {
    c := new ListController(DefaultOptions, location);
  }

  // ---------------------------------------------------------------------------
  // Lemmas

  /** An absent or empty parameter falls back to the default, and a present
      one is parsed: the defaults survive `parseInt(String(default))`. */
  lemma InitialiseFallsBack(q: SP.Query, options: Options)
    ensures SP.Get(q, "page") in {None, Some("")} ==>
      ParseInt(GetOr(q, "page", IntToString(options.page))) == Num(options.page)
    ensures SP.Get(q, "perPage") in {None, Some("")} ==>
      ParseInt(GetOr(q, "perPage", IntToString(options.perPage))) == Num(options.perPage)
    ensures forall s :: SP.Get(q, "page") == Some(s) && s != "" ==>
      ParseInt(GetOr(q, "page", IntToString(options.page))) == ParseInt(s)
    ensures SP.Get(q, "sortBy") in {None, Some("")} ==> GetOr(q, "sortBy", options.sortBy) == options.sortBy
  {
    ParseIntOfIntToString(options.page);
    ParseIntOfIntToString(options.perPage);
  }

  /** The filters read from the search parameters are exactly the
      non-reserved names, each with the value of its LAST occurrence. */
  lemma {:induction false} FiltersFromValid(q: SP.Query)
    ensures ValidFilters(FiltersFrom(q))
    ensures SP.Names(FiltersFrom(q)) == SP.Names(q) - Reserved
    ensures forall k :: k !in Reserved ==> SP.Get(FiltersFrom(q), k) == LastValue(q, k)
  {
    if q != [] {
      var init := q[..|q| - 1];
      var p := q[|q| - 1];
      FiltersFromValid(init);
      var prev := FiltersFrom(init);
      assert q == init + [p];
      SP.NamesConcat(init, [p]);
      SP.NamesCons(p, []);
      assert [p] + [] == [p];
      if p.0 !in Reserved {
        SP.SetSpec(prev, p.0, p.1);
      }
    }
  }

  /** Collecting over a concatenation collects the second part after the first. */
  lemma {:induction false} CollectAllSplit(acc: SP.Query, a: SP.Query, b: SP.Query)
    ensures CollectAll(acc, a + b) == CollectAll(CollectAll(acc, a), b)
  {
    if b == [] {
      assert a + b == a;
    } else {
      CollectAllSplit(acc, a, b[..|b| - 1]);
      assert (a + b)[..|a + b| - 1] == a + b[..|b| - 1];
      assert (a + b)[|a + b| - 1] == b[|b| - 1];
    }
  }

  lemma {:induction false} CollectAllReserved(acc: SP.Query, b: SP.Query)
    requires SP.Names(b) <= Reserved
    ensures CollectAll(acc, b) == acc
  {
    if b != [] {
      var init := b[..|b| - 1];
      assert b == init + [b[|b| - 1]];
      SP.NamesConcat(init, [b[|b| - 1]]);
      SP.NamesCons(b[|b| - 1], []);
      assert [b[|b| - 1]] + [] == [b[|b| - 1]];
      CollectAllReserved(acc, init);
    }
  }

  /** Collecting valid filters whose names are new appends them. */
  lemma {:induction false} CollectAllAppends(acc: SP.Query, x: SP.Query)
    requires ValidFilters(x) && SP.Names(x) !! SP.Names(acc)
    ensures CollectAll(acc, x) == acc + x
  {
    if x == [] {
      assert acc + x == acc;
    } else {
      var init := x[..|x| - 1];
      var p := x[|x| - 1];
      assert x == init + [p];
      SP.NamesConcat(init, [p]);
      SP.NamesCons(p, []);
      assert [p] + [] == [p];
      SP.UniqueInit(x);
      CollectAllAppends(acc, init);
      SP.NamesConcat(acc, init);
      SP.SetAbsent(acc + init, p.0, p.1);
      assert acc + init + [p] == acc + x;
    }
  }

  /** Non-empty filters: a valid filters object whose names come from `f`. */
  lemma {:induction false} NonEmptyValid(f: SP.Query)
    requires ValidFilters(f)
    ensures ValidFilters(NonEmpty(f)) && SP.Names(NonEmpty(f)) <= SP.Names(f)
    ensures forall k :: SP.Get(NonEmpty(f), k) == FilterValue(f, k)
  {
    if f != [] {
      var init := f[..|f| - 1];
      var p := f[|f| - 1];
      assert f == init + [p];
      SP.NamesConcat(init, [p]);
      SP.NamesCons(p, []);
      assert [p] + [] == [p];
      SP.UniqueInit(f);
      NonEmptyValid(init);
      var prev := NonEmpty(init);
      var tail: SP.Query := if p.1 != "" then [p] else [];
      assert NonEmpty(f) == prev + tail;
      SP.NamesConcat(prev, tail);
      if p.1 != "" {
        SP.UniqueSnoc(prev, p);
      } else {
        assert prev + tail == prev;
      }
      forall k
        ensures SP.Get(NonEmpty(f), k) == FilterValue(f, k)
      {
        SP.GetConcat(prev, tail, k);
        SP.GetConcat(init, [p], k);
        SP.GetCons(p, [], k);
        assert SP.Get(prev, k) == FilterValue(init, k);
        if k in SP.Names(init) {
          assert k != p.0;
          assert SP.Get(tail, k) == None by {
            if p.1 != "" { SP.GetCons(p, [], k); }
          }
        } else {
          assert SP.Get(init, k) == None;
          assert k !in SP.Names(prev);
          if p.1 != "" { SP.GetCons(p, [], k); }
        }
      }
    }
  }

  /** Emitting the filters after the base parameters appends the non-empty ones. */
  lemma {:induction false} EmitAllAppends(acc: SP.Query, f: SP.Query)
    requires SP.Unique(f) && SP.Names(f) !! SP.Names(acc)
    ensures EmitAll(acc, f) == acc + NonEmpty(f)
  {
    if f == [] {
      assert acc + [] == acc;
    } else {
      var init := f[..|f| - 1];
      var p := f[|f| - 1];
      assert f == init + [p];
      SP.NamesConcat(init, [p]);
      SP.NamesCons(p, []);
      assert [p] + [] == [p];
      SP.UniqueInit(f);
      EmitAllAppends(acc, init);
      if p.1 != "" {
        NonEmptyNames(init);
        SP.NamesConcat(acc, NonEmpty(init));
        SP.SetAbsent(acc + NonEmpty(init), p.0, p.1);
        assert acc + NonEmpty(init) + [p] == acc + (NonEmpty(init) + [p]);
      } else {
        assert NonEmpty(init) + [] == NonEmpty(init);
      }
    }
  }

  lemma {:induction false} NonEmptyNames(f: SP.Query)
    ensures SP.Names(NonEmpty(f)) <= SP.Names(f)
  {
    if f != [] {
      var init := f[..|f| - 1];
      var p := f[|f| - 1];
      assert f == init + [p];
      SP.NamesConcat(init, [p]);
      SP.NamesCons(p, []);
      assert [p] + [] == [p];
      NonEmptyNames(init);
      var tail: SP.Query := if p.1 != "" then [p] else [];
      SP.NamesConcat(NonEmpty(init), tail);
      if p.1 != "" {
        assert SP.Names(tail) == {p.0};
      } else {
        assert SP.Names(tail) == {};
      }
    }
  }

  /** The four base parameters, one pair each. */
  lemma BaseQueryShape(req: Request)
    ensures BaseQuery(req) == [("page", ToStr(req.page)), ("perPage", ToStr(req.perPage)),
                               ("sortBy", req.sortBy), ("sortType", req.sortType)]
    ensures SP.Names(BaseQuery(req)) == Reserved
  {
    var p1 := ("page", ToStr(req.page));
    var p2 := ("perPage", ToStr(req.perPage));
    var p3 := ("sortBy", req.sortBy);
    var p4 := ("sortType", req.sortType);
    SP.NamesCons(p1, []);
    assert [p1] + [] == [p1];
    SP.SetAbsent([], "page", p1.1);
    SP.NamesConcat([p1], [p2]);
    SP.NamesCons(p2, []);
    assert [p2] + [] == [p2];
    SP.SetAbsent([p1], "perPage", p2.1);
    SP.NamesConcat([p1, p2], [p3]);
    SP.NamesCons(p3, []);
    assert [p3] + [] == [p3];
    assert [p1] + [p2] == [p1, p2];
    SP.SetAbsent([p1, p2], "sortBy", p3.1);
    assert [p1, p2] + [p3] == [p1, p2, p3];
    SP.NamesConcat([p1, p2, p3], [p4]);
    SP.NamesCons(p4, []);
    assert [p4] + [] == [p4];
    SP.SetAbsent([p1, p2, p3], "sortType", p4.1);
    assert [p1, p2, p3] + [p4] == [p1, p2, p3, p4];
  }

  /** What a successful fetch writes to the address bar: the four base
      parameters, then the filters with a non-empty value, and nothing else. */
  lemma QueryForContents(req: Request)
    requires ValidFilters(req.filters)
    ensures QueryFor(req) == BaseQuery(req) + NonEmpty(req.filters)
    ensures SP.Get(QueryFor(req), "page") == Some(ToStr(req.page))
    ensures SP.Get(QueryFor(req), "perPage") == Some(ToStr(req.perPage))
    ensures SP.Get(QueryFor(req), "sortBy") == Some(req.sortBy)
    ensures SP.Get(QueryFor(req), "sortType") == Some(req.sortType)
    ensures forall k :: k !in Reserved ==> SP.Get(QueryFor(req), k) == FilterValue(req.filters, k)
    ensures SP.Unique(QueryFor(req))
  {
    BaseReads(req);
    assert SP.Names(BaseQuery(req)) == Reserved by { BaseQueryShape(req); }
    EmitAllAppends(BaseQuery(req), req.filters);
    NonEmptyValid(req.filters);
    ReservedThenFilters(BaseQuery(req), NonEmpty(req.filters));
  }

  /** The base pairs, read back. */
  lemma BaseReads(req: Request)
    ensures SP.Get(BaseQuery(req), "page") == Some(ToStr(req.page))
    ensures SP.Get(BaseQuery(req), "perPage") == Some(ToStr(req.perPage))
    ensures SP.Get(BaseQuery(req), "sortBy") == Some(req.sortBy)
    ensures SP.Get(BaseQuery(req), "sortType") == Some(req.sortType)
    ensures SP.Unique(BaseQuery(req))
  {
    var q0: SP.Query := [];
    var q1 := SP.Set(q0, "page", ToStr(req.page));
    var q2 := SP.Set(q1, "perPage", ToStr(req.perPage));
    var q3 := SP.Set(q2, "sortBy", req.sortBy);
    SP.SetSpec(q0, "page", ToStr(req.page));
    SP.SetSpec(q1, "perPage", ToStr(req.perPage));
    SP.SetSpec(q2, "sortBy", req.sortBy);
    SP.SetSpec(q3, "sortType", req.sortType);
  }

  /** Reserved names are read from the base pairs and every other name from
      the filters that follow them. */
  lemma ReservedThenFilters(base: SP.Query, x: SP.Query)
    requires SP.Unique(base) && SP.Names(base) == Reserved
    requires SP.Unique(x) && SP.Names(x) !! Reserved
    ensures forall k :: SP.Get(base + x, k) == if k in Reserved then SP.Get(base, k) else SP.Get(x, k)
    ensures SP.Unique(base + x)
  {
    forall k
      ensures SP.Get(base + x, k) == if k in Reserved then SP.Get(base, k) else SP.Get(x, k)
    {
      SP.GetConcat(base, x, k);
    }
    UniqueConcat(base, x);
  }

  lemma UniqueConcat(a: SP.Query, b: SP.Query)
    requires SP.Unique(a) && SP.Unique(b) && SP.Names(a) !! SP.Names(b)
    ensures SP.Unique(a + b)
  {
    var r := a + b;
    forall i, j | 0 <= i < j < |r|
      ensures r[i].0 != r[j].0
    {
      if j < |a| {
        assert r[i] == a[i] && r[j] == a[j];
      } else if i >= |a| {
        assert r[i] == b[i - |a|] && r[j] == b[j - |a|];
      } else {
        assert r[i] == a[i] && r[j] == b[j - |a|];
        assert a[i].0 in SP.Names(a) && b[j - |a|].0 in SP.Names(b);
      }
    }
  }

  /** The address bar round trip: reading the search parameters a successful
      fetch wrote restores page, page size and sorting, and gives back the
      filters with a non-empty value (empty ones are lost, as `if (value)`
      skips them). */
  lemma UrlRoundTrip(options: Options, req: Request)
    requires req.page.Num? && req.perPage.Num? && req.sortBy != "" && req.sortType != ""
    requires ValidFilters(req.filters)
    ensures ParseInt(GetOr(QueryFor(req), "page", IntToString(options.page))) == req.page
    ensures ParseInt(GetOr(QueryFor(req), "perPage", IntToString(options.perPage))) == req.perPage
    ensures GetOr(QueryFor(req), "sortBy", options.sortBy) == req.sortBy
    ensures GetOr(QueryFor(req), "sortType", options.sortType) == req.sortType
    ensures FiltersFrom(QueryFor(req)) == NonEmpty(req.filters)
  {
    QueryScalars(req);
    NumberFieldRoundTrip(QueryFor(req), "page", req.page.n, options.page);
    NumberFieldRoundTrip(QueryFor(req), "perPage", req.perPage.n, options.perPage);
    FiltersRoundTrip(req);
  }

  lemma QueryScalars(req: Request)
    requires ValidFilters(req.filters)
    ensures SP.Get(QueryFor(req), "page") == Some(ToStr(req.page))
    ensures SP.Get(QueryFor(req), "perPage") == Some(ToStr(req.perPage))
    ensures SP.Get(QueryFor(req), "sortBy") == Some(req.sortBy)
    ensures SP.Get(QueryFor(req), "sortType") == Some(req.sortType)
  {
    QueryForContents(req);
  }

  lemma NumberFieldRoundTrip(q: SP.Query, k: string, n: int, fallback: int)
    requires SP.Get(q, k) == Some(IntToString(n))
    ensures ParseInt(GetOr(q, k, IntToString(fallback))) == Num(n)
  {
    IntToStringNonEmpty(n);
    ParseIntOfIntToString(n);
  }

  lemma FiltersRoundTrip(req: Request)
    requires ValidFilters(req.filters)
    ensures FiltersFrom(QueryFor(req)) == NonEmpty(req.filters)
  {
    QueryForContents(req);
    BaseQueryShape(req);
    var base := BaseQuery(req);
    var x := NonEmpty(req.filters);
    var nothing: SP.Query := [];
    CollectAllSplit(nothing, base, x);
    CollectAllReserved(nothing, base);
    NonEmptyValid(req.filters);
    assert SP.Names(nothing) == {};
    CollectAllAppends(nothing, x);
    assert nothing + x == x;
  }

  /** When every filter is non-empty, the round trip is exact. */
  lemma {:induction false} NonEmptyIdentity(f: SP.Query)
    requires forall i :: 0 <= i < |f| ==> f[i].1 != ""
    ensures NonEmpty(f) == f
  {
    if f != [] {
      var init := f[..|f| - 1];
      var last := f[|f| - 1];
      forall i | 0 <= i < |init|
        ensures init[i].1 != ""
      {
        assert init[i] == f[i];
      }
      NonEmptyIdentity(init);
      assert last.1 != "";
      assert NonEmpty(f) == init + [last];
      assert f == init + [last];
    }
  }
}

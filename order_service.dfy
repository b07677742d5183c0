/**
 * `OrderService`: the paginated order list with its fallback endpoints and
 * response normalisation, and the payloads `create` and `update` send for an
 * order and its detail lines. Each service operation is a method that issues
 * calls to a server and returns, with its result, the calls in the order it
 * made them.
 */
module OrderService {
  import opened Wrappers
  import opened JsValues
  import opened ApiWrapper
  import Seqs
  import OrderTypes

  // ---------------------------------------------------------------------------
  // paginated

  /** The parameters `paginated` always sends. */
  const ParamKeys: set<string> :=
    {"page", "perPage", "sortBy", "sortType", "search", "status", "payment_method", "customer_type"}

  /** Every one of those parameters, blank. */
  const BlankParams: Record := map k | k in ParamKeys :: Str("")

  /** The default `formattedParams` gives one parameter before the caller's
      own are spread over it: `page` and `perPage` keep any defined value,
      the others any truthy one, and everything else becomes ''. */
  function ParamDefault(params: Record, k: string): Value
  {
    if k == "page" || k == "perPage" then
      (if Lookup(params, k) != Undefined then Lookup(params, k) else Str(""))
    else Or(Lookup(params, k), Str(""))
  }

  /** `formattedParams`: each parameter defaulted and then the caller's own
      parameters spread over them. */
  function FormatParams(params: Record): (r: Record)
    ensures r.Keys == ParamKeys + params.Keys
  {
    (map k | k in ParamKeys :: ParamDefault(params, k)) + params
  }

  /** The counters of a page and the value each falls back to. */
  const PageDefaults: map<string, int> :=
    map["total" := 0, "current_page" := 1, "per_page" := 10, "last_page" := 1, "from" := 0, "to" := 0]

  /** The page `paginated` resolves to when anything throws. */
  const EmptyPage: Value := Obj(map[
    "data" := Arr([]), "total" := Num(0), "current_page" := Num(1), "per_page" := Num(10),
    "last_page" := Num(1), "from" := Num(0), "to" := Num(0)])

  /** A bare array from a fallback endpoint, presented as a single page. */
  function BareArrayPage(xs: seq<Value>): Value
  {
    Obj(map[
      "data" := Arr(xs), "total" := Num(|xs|), "current_page" := Num(1), "per_page" := Num(|xs|),
      "last_page" := Num(1), "from" := Num(1), "to" := Num(|xs|)])
  }

  /** The response of `/orders` with a truthy `data`: its own properties, with
      every falsy counter replaced by its default. */
  function Normalise(r: Value): (p: Value)
    ensures p.Obj? && p.fields.Keys == Spread(r).Keys + PageDefaults.Keys + {"data"}
    ensures p.fields["data"] == Field(r, "data")
    ensures forall k :: k in PageDefaults ==>
      p.fields[k] == if Truthy(Field(r, k)) then Field(r, k) else Num(PageDefaults[k])
    ensures forall k :: k in Spread(r) && k !in PageDefaults && k != "data" ==> p.fields[k] == Spread(r)[k]
  {
    Obj(Spread(r) + map["data" := Field(r, "data")]
        + map k | k in PageDefaults :: Or(Field(r, k), Num(PageDefaults[k])))
  }

  const Alternatives: seq<string> := ["/orders/all", "/orders/index", "/orders/list"]

  const AltParams: Value :=
    Obj(map["page" := Str(""), "perPage" := Str(""), "sortBy" := Str(""), "sortType" := Str("")])

  function AltCall(endpoint: string): Call
  {
    Call(Get, endpoint, AltParams)
  }

  /** Whether a fallback endpoint's answer is taken, and as what: a bare array
      becomes a single page; an object with a non-empty `data` array is taken
      as it is; anything else, a failure included, moves on to the next one. */
  function Accept(a: ApiResult): (r: Option<Value>)
    ensures r.Some? <==> a.Ok? && (a.value.Arr? || (Field(a.value, "data").Arr? && |Field(a.value, "data").elems| > 0))
    ensures r.Some? && a.value.Arr? ==> r.value == BareArrayPage(a.value.elems)
    ensures r.Some? && !a.value.Arr? ==> r.value == a.value
  {
    match a
    case Threw(_) => None
    case Ok(v) =>
      if !Truthy(v) then None
      else if v.Arr? then Some(BareArrayPage(v.elems))
      else
        var d := Field(v, "data");
        if Truthy(d) && d.Arr? && |d.elems| > 0 then Some(v) else None
  }

  /** The fallback endpoints tried in order until one is accepted: the calls
      made and the page accepted, if any. */
  function Probe(server: Server, eps: seq<string>): (seq<Call>, Option<Value>)
  {
    if eps == [] then ([], None)
    else
      var c := AltCall(eps[0]);
      match Accept(server(c))
      case Some(p) => ([c], Some(p))
      case None =>
        var rest := Probe(server, eps[1..]);
        ([c] + rest.0, rest.1)
  }

  /** The probe calls the endpoints in order, stops at the first one whose
      answer is accepted and yields that answer, and calls every endpoint when
      none is accepted. */
  lemma {:induction false} ProbeSpec(server: Server, eps: seq<string>)
    ensures var r := Probe(server, eps);
      && |r.0| <= |eps| && (forall i :: 0 <= i < |r.0| ==> r.0[i] == AltCall(eps[i]))
      && (r.1.None? ==> |r.0| == |eps| && forall i :: 0 <= i < |eps| ==> Accept(server(AltCall(eps[i]))).None?)
      && (r.1.Some? ==>
            && |r.0| > 0 && r.1 == Accept(server(AltCall(eps[|r.0| - 1])))
            && forall i :: 0 <= i < |r.0| - 1 ==> Accept(server(AltCall(eps[i]))).None?)
  {
    if eps != [] {
      var c := AltCall(eps[0]);
      if Accept(server(c)).None? {
        ProbeSpec(server, eps[1..]);
        var rest := Probe(server, eps[1..]);
        var r := Probe(server, eps);
        assert r == ([c] + rest.0, rest.1);
        forall i | 0 <= i < |r.0|
          ensures r.0[i] == AltCall(eps[i])
        {
          if i > 0 { assert r.0[i] == rest.0[i - 1]; }
        }
        if r.1.None? {
          forall i | 0 <= i < |eps|
            ensures Accept(server(AltCall(eps[i]))).None?
          {
            if i > 0 { assert eps[i] == eps[1..][i - 1]; }
          }
        } else {
          assert eps[|r.0| - 1] == eps[1..][|rest.0| - 1];
          forall i | 0 <= i < |r.0| - 1
            ensures Accept(server(AltCall(eps[i]))).None?
          {
            if i > 0 { assert eps[i] == eps[1..][i - 1]; }
          }
        }
      }
    }
  }

  /** One step of the probe. */
  lemma ProbeUnfold(server: Server, eps: seq<string>, i: nat)
    requires i < |eps|
    ensures Probe(server, eps[i..]) ==
      match Accept(server(AltCall(eps[i])))
      case Some(p) => ([AltCall(eps[i])], Some(p))
      case None => ([AltCall(eps[i])] + Probe(server, eps[i + 1..]).0, Probe(server, eps[i + 1..]).1)
  {
    assert eps[i..][0] == eps[i];
    assert eps[i..][1..] == eps[i + 1..];
  }

  /** What `paginated(params)` does: the calls it makes and the page it
      resolves to (it never rejects). */
  function PaginatedSpec(params: Record, server: Server): (seq<Call>, Value)
  {
    var fp := FormatParams(params);
    var c0 := Call(Get, "/orders", Obj(fp));
    match server(c0)
    case Threw(_) => ([c0], EmptyPage)
    case Ok(r) =>
      if Nullish(r) then ([c0], EmptyPage)
      else
        var rest := SettleSpec(fp, r, server);
        ([c0] + rest.0, rest.1)
  }

  /** What `paginated` does with a response `r` to its first request: the
      fallback calls it makes, if it probes, and the page it settles on. */
  function SettleSpec(fp: Record, r: Value, server: Server): (seq<Call>, Value)
  {
    var d := Field(r, "data");
    var probe := (!Truthy(d) || Field(d, "length") == Num(0)) && Lookup(fp, "page") == Str("");
    var alt := if probe then Probe(server, Alternatives) else ([], None);
    match alt.1
    case Some(p) => (alt.0, p)
    case None => (alt.0, if Truthy(d) then Normalise(r) else r)
  }

  /** The loop over the fallback endpoints `eps`, tried in order. */
  method ProbeAlternatives(server: Server, eps: seq<string>) returns (calls: seq<Call>, found: Option<Value>)
    ensures (calls, found) == Probe(server, eps)
  {
    calls := [];
    found := None;
    var i := 0;
    while i < |eps| && found.None?
      invariant 0 <= i <= |eps|
      invariant found.None? ==>
        && calls + Probe(server, eps[i..]).0 == Probe(server, eps).0
        && Probe(server, eps[i..]).1 == Probe(server, eps).1
      invariant found.Some? ==> (calls, found) == Probe(server, eps)
    {
      var c := AltCall(eps[i]);
      ProbeUnfold(server, eps, i);
      calls := calls + [c];
      found := Accept(server(c));
      i := i + 1;
    }
    if found.None? {
      assert eps[i..] == [];
      assert calls + [] == calls;
    }
  }

  /** `paginated(params)` */
  method Paginated(params: Record, server: Server) returns (calls: seq<Call>, page: Value)
    ensures (calls, page) == PaginatedSpec(params, server)
  {
    var fp := FormatParams(params);
    var c0 := Call(Get, "/orders", Obj(fp));
    calls := [c0];
    var response := server(c0);
    if response.Threw? {
      return calls, EmptyPage;
    }
    var r := response.value;
    if Nullish(r) {
      return calls, EmptyPage;
    }
    var alts, settled := Settle(fp, r, server);
    calls := calls + alts;
    page := settled;
  }

  method Settle(fp: Record, r: Value, server: Server) returns (calls: seq<Call>, page: Value)
    ensures (calls, page) == SettleSpec(fp, r, server)
  {
    var d := Field(r, "data");
    var fallback := if Truthy(d) then Normalise(r) else r;
    if (!Truthy(d) || Field(d, "length") == Num(0)) && Lookup(fp, "page") == Str("") {
      var found;
      calls, found := ProbeAlternatives(server, Alternatives);
      page := if found.Some? then found.value else fallback;
    } else {
      calls, page := [], fallback;
    }
  }


  // ---------------------------------------------------------------------------
  // create and update: the order header

  /** `Number(v || 0)` */
  function Coerce(v: Value): (r: Value)
    ensures IsNumber(r)
    ensures !Truthy(v) ==> r == Num(0)
    ensures v.Num? ==> r == v
    ensures v.Str? ==> r == StringToNumber(v.s)
  {
    ToNumber(Or(v, Num(0)))
  }

  /** The order amounts that are coerced to numbers. */
  const HeaderAmounts: set<string> := {"total_bruto", "total", "delivery_cost", "discount"}

  /** The coerced amounts; also the body of the totals update after `create`. */
  function Amounts(data: Record): (r: Record)
    ensures r.Keys == HeaderAmounts
    ensures forall k :: k in HeaderAmounts ==> r[k] == Coerce(Lookup(data, k))
  {
    map k | k in HeaderAmounts :: Coerce(Lookup(data, k))
  }

  /** The order `create` posts. */
  function CreateHeader(data: Record): Record
  {
    (data + Amounts(data)
      + map["payment_method" := Or(Lookup(data, "payment_method"), Str("ef")),
            "print_status" := Lookup(data, "print_status")]) - {"details"}
  }

  /** The order `create` posts has no details, numeric amounts that are 0
      when falsy, a payment method defaulted to 'ef', the caller's print
      status, every other property of the input unchanged, and no other
      property. */
  lemma CreateHeaderSpec(data: Record)
    ensures var h := CreateHeader(data);
      && "details" !in h
      && (forall k :: k in HeaderAmounts ==> k in h && IsNumber(h[k]) && (!Truthy(Lookup(data, k)) ==> h[k] == Num(0)))
      && "payment_method" in h && h["payment_method"] == Or(Lookup(data, "payment_method"), Str("ef"))
      && "print_status" in h && h["print_status"] == Lookup(data, "print_status")
      && (forall k :: k in data && k !in HeaderAmounts && k !in {"payment_method", "print_status", "details"} ==>
            k in h && h[k] == data[k])
      && h.Keys == data.Keys + HeaderAmounts + {"payment_method", "print_status"} - {"details"}
  {
    CreatedAmounts(data);
    CreatedFixed(data);
    CreatedKeeps(data);
  }

  lemma CreatedAmounts(data: Record)
    ensures "details" !in CreateHeader(data)
    ensures forall k :: k in HeaderAmounts ==> k in CreateHeader(data) && CreateHeader(data)[k] == Coerce(Lookup(data, k))
  {
  }

  lemma CreatedFixed(data: Record)
    ensures var h := CreateHeader(data);
      && "payment_method" in h && h["payment_method"] == Or(Lookup(data, "payment_method"), Str("ef"))
      && "print_status" in h && h["print_status"] == Lookup(data, "print_status")
      && h.Keys == data.Keys + HeaderAmounts + {"payment_method", "print_status"} - {"details"}
  {
  }

  lemma CreatedKeeps(data: Record)
    ensures forall k :: k in data && k !in HeaderAmounts && k !in {"payment_method", "print_status", "details"} ==>
      k in CreateHeader(data) && CreateHeader(data)[k] == data[k]
  {
  }

  /** The print status code of a known status, in the order statuses progress. */
  function PrintCode(s: OrderTypes.Status): nat
  {
    match s
    case Pending => 0
    case Processing => 1
    case Completed => 2
    case Cancelled => 3
  }

  /** `calculatedPrintStatus`: an explicit print status wins; otherwise the
      status's code, and 0 for any status that is not one of the four. */
  function PrintStatus(data: Record): (r: Value)
    ensures Lookup(data, "print_status") != Undefined ==> r == Lookup(data, "print_status")
    ensures Lookup(data, "print_status") == Undefined ==> r.Num? && 0 <= r.n <= 3
  {
    var ps := Lookup(data, "print_status");
    if ps != Undefined then ps
    else
      var st := Lookup(data, "status");
      if st == Str("pending") then Num(0)
      else if st == Str("processing") then Num(1)
      else if st == Str("completed") then Num(2)
      else if st == Str("cancelled") then Num(3)
      else Num(0)
  }

  /** `paymentMethod` in `update`: a falsy method becomes 'ef'; a string is
      kept as it is unless it is blank; calling `trim` on a truthy value that
      is not a string throws a TypeError. */
  function UpdatePaymentMethod(data: Record): (r: Result<Value, Thrown>)
    ensures r.Failure? <==> Truthy(Lookup(data, "payment_method")) && !Lookup(data, "payment_method").Str?
    ensures r.Failure? ==> r.error == TypeError
    ensures r.Success? ==> r.value == Str("ef") || r.value == Lookup(data, "payment_method")
  {
    var pm := Lookup(data, "payment_method");
    if !Truthy(pm) then Success(Str("ef"))
    else if pm.Str? then Success(if Trim(pm.s) != "" then pm else Str("ef"))
    else Failure(TypeError)
  }

  /** The body `update` puts once its payment method `pm` is checked. */
  function UpdatedOrder(data: Record, pm: Value): Record
  {
    (data + Amounts(data)
      + map["payment_method" := pm,
            "status" := Or(Lookup(data, "status"), Str("pending")),
            "print_status" := PrintStatus(data)]) - {"details"}
  }

  /** The order `update` puts. */
  function UpdateHeader(data: Record): (r: Result<Record, Thrown>)
    ensures r.Failure? <==> UpdatePaymentMethod(data).Failure?
  {
    match UpdatePaymentMethod(data)
    case Failure(e) => Failure(e)
    case Success(pm) =>
      Success(UpdatedOrder(data, pm))
  }

  /** The order `update` puts has no details, numeric amounts, the checked
      payment method, a status defaulted to 'pending', the computed print
      status, and every other property of the input unchanged. */
  lemma UpdateHeaderSpec(data: Record)
    requires UpdateHeader(data).Success?
    ensures var h := UpdateHeader(data).value;
      && "details" !in h
      && (forall k :: k in HeaderAmounts ==> k in h && h[k] == Coerce(Lookup(data, k)))
      && "payment_method" in h && h["payment_method"] == UpdatePaymentMethod(data).value
      && "status" in h && h["status"] == Or(Lookup(data, "status"), Str("pending"))
      && "print_status" in h && h["print_status"] == PrintStatus(data)
      && (forall k :: k in data && k !in HeaderAmounts && k !in {"payment_method", "status", "print_status", "details"} ==>
            k in h && h[k] == data[k])
  {
    var pm := UpdatePaymentMethod(data).value;
    UpdatedAmounts(data, pm);
    UpdatedFixed(data, pm);
    UpdatedKeeps(data, pm);
  }

  lemma UpdatedAmounts(data: Record, pm: Value)
    ensures "details" !in UpdatedOrder(data, pm)
    ensures forall k :: k in HeaderAmounts ==> k in UpdatedOrder(data, pm) && UpdatedOrder(data, pm)[k] == Coerce(Lookup(data, k))
  {
  }

  lemma UpdatedFixed(data: Record, pm: Value)
    ensures var h := UpdatedOrder(data, pm);
      && "payment_method" in h && h["payment_method"] == pm
      && "status" in h && h["status"] == Or(Lookup(data, "status"), Str("pending"))
      && "print_status" in h && h["print_status"] == PrintStatus(data)
  {
  }

  lemma UpdatedKeeps(data: Record, pm: Value)
    ensures forall k :: k in data && k !in HeaderAmounts && k !in {"payment_method", "status", "print_status", "details"} ==>
      k in UpdatedOrder(data, pm) && UpdatedOrder(data, pm)[k] == data[k]
  {
  }



  // ---------------------------------------------------------------------------
  // create and update: the detail lines

  /** The detail amounts that are coerced to numbers. */
  const LineAmounts: set<string> := {"quantity", "price_unit", "price_final", "discount"}

  /** The elements of `data.details`: none when it is null or undefined; a
      TypeError when it is not an array or one of its elements is null or
      undefined (reading a property of it throws). */
  function DetailItems(details: Value): (r: Result<seq<Value>, Thrown>)
    ensures r.Success? ==> forall i :: 0 <= i < |r.value| ==> !Nullish(r.value[i])
    ensures r.Success? && details.Arr? ==> r.value == details.elems
    ensures r.Failure? ==> r.error == TypeError
  {
    if Nullish(details) then Success([])
    else if details.Arr? && forall i :: 0 <= i < |details.elems| ==> !Nullish(details.elems[i]) then
      Success(details.elems)
    else Failure(TypeError)
  }

  /** One line with its amounts coerced to numbers. */
  function CoerceLine(item: Value): (line: Record)
    ensures forall k :: k in LineAmounts ==> k in line && line[k] == Coerce(Field(item, k))
    ensures forall k :: k in Spread(item) && k !in LineAmounts ==> k in line && line[k] == Spread(item)[k]
  {
    Spread(item) + map k | k in LineAmounts :: Coerce(Field(item, k))
  }

  /** `create`'s lines: every element, coerced. */
  function CreateLines(details: Value): (r: Result<seq<Record>, Thrown>)
    ensures r.Failure? <==> DetailItems(details).Failure?
    ensures r.Success? ==> |r.value| == |DetailItems(details).value|
    ensures r.Success? ==> forall i :: 0 <= i < |r.value| ==> r.value[i] == CoerceLine(DetailItems(details).value[i])
  {
    match DetailItems(details)
    case Failure(e) => Failure(e)
    case Success(xs) => Success(seq(|xs|, i requires 0 <= i < |xs| => CoerceLine(xs[i])))
  }

  /** The filter and map of `update`: a line with a null or undefined
      `id_product` is dropped, any other is coerced. */
  function KeepLine(item: Value): Option<Record>
  {
    if Nullish(Field(item, "id_product")) then None else Some(CoerceLine(item))
  }

  /** `update`'s lines. */
  function UpdateLines(details: Value): (r: Result<seq<Record>, Thrown>)
    ensures r.Failure? <==> DetailItems(details).Failure?
    ensures r.Success? ==> r.value == Seqs.FilterMap(DetailItems(details).value, KeepLine)
  {
    match DetailItems(details)
    case Failure(e) => Failure(e)
    case Success(xs) => Success(Seqs.FilterMap(xs, KeepLine))
  }

  const DetailKeys: set<string> := {"id_order", "id_product", "quantity", "discount", "price_unit", "price_final"}

  /** `detailData`: the order's id, the line's product, quantity and prices,
      and its discount defaulted to 0. */
  function DetailBody(orderId: Value, line: Record): (b: Record)
    ensures b.Keys == DetailKeys
    ensures b["id_order"] == orderId
    ensures forall k :: k in DetailKeys - {"id_order", "discount"} ==> b[k] == Lookup(line, k)
    ensures b["discount"] == if Truthy(Lookup(line, "discount")) then Lookup(line, "discount") else Num(0)
  {
    map[
      "id_order" := orderId,
      "id_product" := Lookup(line, "id_product"),
      "quantity" := Lookup(line, "quantity"),
      "discount" := Or(Lookup(line, "discount"), Num(0)),
      "price_unit" := Lookup(line, "price_unit"),
      "price_final" := Lookup(line, "price_final")]
  }

  function DetailPost(orderId: Value, line: Record): Call
  {
    Call(Post, "/details", Obj(DetailBody(orderId, line)))
  }

  /** The calls `create` makes for its lines, one POST each, in order. */
  function CreateDetailCalls(orderId: Value, lines: seq<Record>): (cs: seq<Call>)
    ensures |cs| == |lines|
    ensures forall i :: 0 <= i < |lines| ==> cs[i] == DetailPost(orderId, lines[i])
  {
    seq(|lines|, i requires 0 <= i < |lines| => DetailPost(orderId, lines[i]))
  }

  lemma CreateDetailCallsStep(orderId: Value, lines: seq<Record>, i: nat)
    requires i < |lines|
    ensures CreateDetailCalls(orderId, lines[..i + 1]) == CreateDetailCalls(orderId, lines[..i]) + [DetailPost(orderId, lines[i])]
  {
    var l := CreateDetailCalls(orderId, lines[..i + 1]);
    var r := CreateDetailCalls(orderId, lines[..i]) + [DetailPost(orderId, lines[i])];
    forall j | 0 <= j < |l|
      ensures l[j] == r[j]
    {
      assert lines[..i + 1][j] == lines[j];
      if j < i {
        assert lines[..i][j] == lines[j];
      }
    }
  }

  datatype DetailAction = PutDetail(call: Call) | PostDetail(call: Call) | SkipDetail

  /** How `update` handles one line: a line with a truthy id is put to its own
      URL; one without an id but with a truthy `id_product` is posted; any
      other is skipped. */
  function UpdateAction(id: string, line: Record): (a: DetailAction)
    ensures a.PutDetail? <==> Truthy(Lookup(line, "id"))
    ensures a.PostDetail? <==> !Truthy(Lookup(line, "id")) && Truthy(Lookup(line, "id_product"))
    ensures a.PutDetail? ==> a.call == Call(Put, "/details/" + ToStr(Lookup(line, "id")), Obj(DetailBody(Str(id), line)))
    ensures a.PostDetail? ==> a.call == Call(Post, "/details", Obj(DetailBody(Str(id), line)))
  {
    var body := Obj(DetailBody(Str(id), line));
    var lineId := Lookup(line, "id");
    if Truthy(lineId) then PutDetail(Call(Put, "/details/" + ToStr(lineId), body))
    else if Truthy(Lookup(line, "id_product")) then PostDetail(Call(Post, "/details", body))
    else SkipDetail
  }

  /** The calls `update` makes for its lines, in order, skipped lines omitted. */
  function UpdateDetailCalls(id: string, lines: seq<Record>): seq<Call>
  {
    if lines == [] then []
    else
      UpdateDetailCalls(id, lines[..|lines| - 1])
      + match UpdateAction(id, lines[|lines| - 1])
        case SkipDetail => []
        case PutDetail(c) => [c]
        case PostDetail(c) => [c]
  }

  /** The bodies of the calls that succeeded, in order: what the loops push. */
  function Responses(server: Server, calls: seq<Call>): seq<Value>
  {
    if calls == [] then []
    else
      Responses(server, calls[..|calls| - 1])
      + match server(calls[|calls| - 1])
        case Ok(v) => [v]
        case Threw(_) => []
  }

  /** `response.details = ...`: an object gains the property; an array keeps
      its elements (a named property on an array is not represented); on any
      other value the assignment throws a TypeError in strict mode. */
  function AttachDetails(r: Value, details: seq<Value>): (a: ApiResult)
    ensures r.Obj? ==> a == Ok(Obj(r.fields["details" := Arr(details)]))
    ensures r.Arr? ==> a == Ok(r)
    ensures !r.Obj? && !r.Arr? ==> a == Threw(TypeError)
  {
    match r
    case Obj(m) => Ok(Obj(m["details" := Arr(details)]))
    case Arr(_) => Ok(r)
    case _ => Threw(TypeError)
  }

  /** What `create(data)` does: the calls it makes and how it settles. */
  function CreateSpec(data: Record, server: Server): (seq<Call>, ApiResult)
  {
    match CreateLines(Lookup(data, "details"))
    case Failure(e) => ([], Threw(e))
    case Success(lines) =>
      var c0 := Call(Post, "/orders", Obj(CreateHeader(data)));
      match server(c0)
      case Threw(e) => ([c0], Threw(e))
      case Ok(r) =>
        var orderId := Field(r, "id");
        if |lines| > 0 && Truthy(r) && Truthy(orderId) then
          var dcs := CreateDetailCalls(orderId, lines);
          var totals := Call(Put, "/orders/" + ToStr(orderId), Obj(Amounts(data)));
          ([c0] + dcs + [totals], AttachDetails(r, Responses(server, dcs)))
        else ([c0], Ok(r))
  }

  /** What `update(id, data)` does: the calls it makes and how it settles. */
  function UpdateSpec(id: string, data: Record, server: Server): (seq<Call>, ApiResult)
  {
    match UpdateHeader(data)
    case Failure(e) => ([], Threw(e))
    case Success(header) =>
      match UpdateLines(Lookup(data, "details"))
      case Failure(e) => ([], Threw(e))
      case Success(lines) => SendUpdateSpec(id, header, lines, server)
  }

  /** The requests of `update` once its order and lines are prepared. */
  function SendUpdateSpec(id: string, header: Record, lines: seq<Record>, server: Server): (seq<Call>, ApiResult)
  {
    var c0 := Call(Put, "/orders/" + id, Obj(header));
    match server(c0)
    case Threw(e) => ([c0], Threw(e))
    case Ok(r) =>
      if |lines| > 0 && Truthy(r) then
        var dcs := UpdateDetailCalls(id, lines);
        ([c0] + dcs, AttachDetails(r, Responses(server, dcs)))
      else ([c0], Ok(r))
  }

  /** The loop of `create` over its lines: one POST each; the bodies of the
      ones that succeed are collected and failures are skipped. */
  method PostDetails(orderId: Value, lines: seq<Record>, server: Server) returns (calls: seq<Call>, created: seq<Value>)
    ensures calls == CreateDetailCalls(orderId, lines)
    ensures created == Responses(server, calls)
  {
    calls := [];
    created := [];
    var i := 0;
    while i < |lines|
      invariant 0 <= i <= |lines|
      invariant calls == CreateDetailCalls(orderId, lines[..i])
      invariant created == Responses(server, calls)
    {
      var c := DetailPost(orderId, lines[i]);
      CreateDetailCallsStep(orderId, lines, i);
      ResponsesStep(server, calls, c);
      calls := calls + [c];
      var reply := server(c);
      if reply.Ok? {
        created := created + [reply.value];
      }
      i := i + 1;
    }
    assert lines[..i] == lines;
  }

  /** The loop of `update` over its lines: each is put, posted or skipped as
      `UpdateAction` says; the bodies of the calls that succeed are collected. */
  method SendDetailUpdates(id: string, lines: seq<Record>, server: Server) returns (calls: seq<Call>, updated: seq<Value>)
    ensures calls == UpdateDetailCalls(id, lines)
    ensures updated == Responses(server, calls)
  {
    calls := [];
    updated := [];
    var i := 0;
    while i < |lines|
      invariant 0 <= i <= |lines|
      invariant calls == UpdateDetailCalls(id, lines[..i])
      invariant updated == Responses(server, calls)
    {
      UpdateDetailCallsStep(id, lines, i);
      var action := UpdateAction(id, lines[i]);
      if !action.SkipDetail? {
        ResponsesStep(server, calls, action.call);
        calls := calls + [action.call];
        var reply := server(action.call);
        if reply.Ok? {
          updated := updated + [reply.value];
        }
      }
      i := i + 1;
    }
    assert lines[..i] == lines;
  }

  lemma UpdateDetailCallsStep(id: string, lines: seq<Record>, i: nat)
    requires i < |lines|
    ensures UpdateDetailCalls(id, lines[..i + 1]) ==
      UpdateDetailCalls(id, lines[..i]) + if UpdateAction(id, lines[i]).SkipDetail? then [] else [UpdateAction(id, lines[i]).call]
  {
    assert lines[..i + 1][..i] == lines[..i];
  }

  lemma ResponsesStep(server: Server, calls: seq<Call>, c: Call)
    ensures Responses(server, calls + [c]) == Responses(server, calls) + if server(c).Ok? then [server(c).value] else []
  {
    assert (calls + [c])[..|calls|] == calls;
  }

  /** `create(data)` */
  method Create(data: Record, server: Server) returns (calls: seq<Call>, result: ApiResult)
    ensures (calls, result) == CreateSpec(data, server)
  {
    var header := CreateHeader(data);
    var prepared := CreateLines(Lookup(data, "details"));
    if prepared.Failure? {
      return [], Threw(prepared.error);
    }
    var lines := prepared.value;
    var c0 := Call(Post, "/orders", Obj(header));
    var response := server(c0);
    if response.Threw? {
      return [c0], response;
    }
    var r := response.value;
    var orderId := Field(r, "id");
    if |lines| > 0 && Truthy(r) && Truthy(orderId) {
      var detailCalls, created := PostDetails(orderId, lines, server);
      calls := [c0] + detailCalls + [Call(Put, "/orders/" + ToStr(orderId), Obj(Amounts(data)))];
      result := AttachDetails(r, created);
    } else {
      calls, result := [c0], response;
    }
  }

  /** `update(id, data)` */
  method Update(id: string, data: Record, server: Server) returns (calls: seq<Call>, result: ApiResult)
    ensures (calls, result) == UpdateSpec(id, data, server)
  {
    var prepared := UpdateHeader(data);
    if prepared.Failure? {
      return [], Threw(prepared.error);
    }
    var details := UpdateLines(Lookup(data, "details"));
    if details.Failure? {
      return [], Threw(details.error);
    }
    calls, result := SendUpdate(id, prepared.value, details.value, server);
  }

  method SendUpdate(id: string, header: Record, lines: seq<Record>, server: Server) returns (calls: seq<Call>, result: ApiResult)
    ensures (calls, result) == SendUpdateSpec(id, header, lines, server)
  {
    var c0 := Call(Put, "/orders/" + id, Obj(header));
    var response := server(c0);
    if response.Threw? {
      return [c0], response;
    }
    var r := response.value;
    if |lines| > 0 && Truthy(r) {
      var detailCalls, updated := SendDetailUpdates(id, lines, server);
      calls := [c0] + detailCalls;
      result := AttachDetails(r, updated);
    } else {
      calls, result := [c0], response;
    }
  }


  // ---------------------------------------------------------------------------
  // Lemmas

  /** The per-parameter defaults of `formattedParams` only matter for absent
      parameters, since the caller's parameters are spread over them: the
      result is every parameter blank, overridden key by key by the caller's. */
  lemma FormatParamsOverrides(params: Record)
    ensures FormatParams(params) == BlankParams + params
    ensures Lookup(FormatParams(params), "page") == Str("") <==> "page" !in params || params["page"] == Str("")
  {
    var l := FormatParams(params);
    var r := BlankParams + params;
    assert l.Keys == r.Keys;
    forall k | k in l.Keys
      ensures l[k] == r[k]
    {
    }
  }

  /** The page that `paginated` falls back to is what normalising a response
      with an empty `data` array gives. */
  lemma EmptyPageIsNormalisedEmpty()
    ensures EmptyPage == Normalise(Obj(map["data" := Arr([])]))
  {
    NormaliseEmpty();
    EmptyPageCounters();
  }

  /** The counters all at their defaults, with no rows. */
  function DefaultPage(): Record
  {
    map["data" := Arr([])] + map k | k in PageDefaults :: Num(PageDefaults[k])
  }

  lemma NormaliseEmpty()
    ensures Normalise(Obj(map["data" := Arr([])])).fields == DefaultPage()
  {
    var r := Obj(map["data" := Arr([])]);
    var p := Normalise(r);
    forall k | k in PageDefaults
      ensures Field(r, k) == Undefined
    {
      assert k != "data";
    }
    assert p.fields.Keys == DefaultPage().Keys;
  }

  lemma EmptyPageCounters()
    ensures EmptyPage.fields == DefaultPage()
  {
    assert EmptyPage.fields.Keys == DefaultPage().Keys;
  }

  /** What `paginated` does, call by call: it first asks `/orders` with the
      formatted parameters; it tries the fallback endpoints only when no page
      was asked for; a failure, or a null or undefined answer, resolves to the
      empty page; and an answer with a non-empty `data` array is normalised
      without asking anything else. */
  lemma PaginatedShape(params: Record, server: Server)
    ensures var (calls, page) := PaginatedSpec(params, server);
      var c0 := Call(Get, "/orders", Obj(FormatParams(params)));
      && 1 <= |calls| <= 1 + |Alternatives| && calls[0] == c0
      && (|calls| > 1 ==> "page" !in params || params["page"] == Str(""))
      && (forall i :: 1 <= i < |calls| ==> calls[i] == AltCall(Alternatives[i - 1]))
      && (server(c0).Threw? ==> page == EmptyPage)
      && (server(c0).Ok? && Nullish(server(c0).value) ==> page == EmptyPage)
      && (server(c0).Ok? && Field(server(c0).value, "data").Arr? && |Field(server(c0).value, "data").elems| > 0 ==>
            calls == [c0] && page == Normalise(server(c0).value))
  {
    var fp := FormatParams(params);
    var c0 := Call(Get, "/orders", Obj(fp));
    var (calls, page) := PaginatedSpec(params, server);
    if server(c0).Ok? && !Nullish(server(c0).value) {
      var rest := SettleSpec(fp, server(c0).value, server);
      SettleShape(fp, server(c0).value, server);
      assert calls == [c0] + rest.0;
      forall i | 1 <= i < |calls|
        ensures calls[i] == AltCall(Alternatives[i - 1])
      {
        assert calls[i] == rest.0[i - 1];
      }
      if |calls| > 1 {
        assert Lookup(fp, "page") == Str("");
        FormatParamsOverrides(params);
      }
    }
  }

  /** After a usable first response, `paginated` calls only fallback
      endpoints, in order, and only when the page was left blank; a non-empty
      `data` array is normalised without any further call. */
  lemma SettleShape(fp: Record, r: Value, server: Server)
    ensures var (calls, page) := SettleSpec(fp, r, server);
      && |calls| <= |Alternatives|
      && (|calls| > 0 ==> Lookup(fp, "page") == Str(""))
      && (forall i :: 0 <= i < |calls| ==> calls[i] == AltCall(Alternatives[i]))
      && (Field(r, "data").Arr? && |Field(r, "data").elems| > 0 ==> calls == [] && page == Normalise(r))
  {
    var d := Field(r, "data");
    if (!Truthy(d) || Field(d, "length") == Num(0)) && Lookup(fp, "page") == Str("") {
      ProbeSpec(server, Alternatives);
      assert !(d.Arr? && |d.elems| > 0);
    }
  }


  /** With no explicit print status, the print status is the code of the known
      status named by `status`, and 0 for any other status. */
  lemma PrintStatusOfStatus(data: Record)
    requires Lookup(data, "print_status") == Undefined
    ensures forall s: OrderTypes.Status :: Lookup(data, "status") == Str(OrderTypes.StatusName(s)) ==>
      PrintStatus(data) == Num(PrintCode(s))
    ensures !(Lookup(data, "status").Str? && OrderTypes.ParseStatus(Lookup(data, "status").s).Some?) ==>
      PrintStatus(data) == Num(0)
  {
  }

  /** Distinct statuses have distinct codes, so only an unknown status can share
      pending's 0. */
  lemma PrintCodeInjective(s: OrderTypes.Status, t: OrderTypes.Status)
    ensures PrintCode(s) == PrintCode(t) ==> s == t
  {
  }

  /** In `update` a string payment method is replaced by 'ef' exactly when it is
      white space only (the empty string included), and is otherwise sent as it
      is, without trimming. */
  lemma UpdatePaymentMethodOfString(data: Record, pm: string)
    requires Lookup(data, "payment_method") == Str(pm)
    ensures UpdatePaymentMethod(data) == Success(if AllSpace(pm) then Str("ef") else Str(pm))
  {
    TrimEmptyIffAllSpace(pm);
  }

  /** `create` and `update` disagree on a blank payment method: `create` keeps
      it, `update` sends 'ef'. */
  lemma BlankPaymentMethodDiffers(data: Record)
    requires Lookup(data, "payment_method") == Str(" ")
    ensures CreateHeader(data)["payment_method"] == Str(" ")
    ensures UpdateHeader(data).Success? && UpdateHeader(data).value["payment_method"] == Str("ef")
  {
    UpdatePaymentMethodOfString(data, " ");
    UpdateHeaderSpec(data);
  }

  /** Coerced lines give a detail body whose discount is always a number
      (a NaN discount is falsy and becomes 0). */
  lemma DetailDiscountIsNumber(orderId: Value, item: Value)
    ensures DetailBody(orderId, CoerceLine(item))["discount"].Num?
  {
  }

  /** `update` keeps, in their order, exactly the items whose `id_product` is
      neither null nor undefined, and every kept line still carries it. */
  lemma UpdateLinesKeep(details: Value) returns (idx: seq<nat>)
    requires DetailItems(details).Success?
    ensures var xs := DetailItems(details).value;
      var lines := UpdateLines(details).value;
      && Seqs.SelectedAt(xs, KeepLine, lines, idx)
      && |lines| <= |xs|
      && forall j :: 0 <= j < |lines| ==> !Nullish(Lookup(lines[j], "id_product"))
  {
    var xs := DetailItems(details).value;
    idx := Seqs.FilterMapSelects(xs, KeepLine);
    var lines := UpdateLines(details).value;
    forall j | 0 <= j < |lines|
      ensures !Nullish(Lookup(lines[j], "id_product"))
    {
      KeptLineHasProduct(xs[idx[j]]);
    }
  }

  /** A line `update` keeps still carries its product. */
  lemma KeptLineHasProduct(item: Value)
    requires KeepLine(item).Some?
    ensures !Nullish(Lookup(KeepLine(item).value, "id_product"))
  {
    assert item.Obj?;
  }

  /** Every call `create` makes for a line posts to `/details` a body that
      carries the order's id and, for coerced lines, a numeric discount. */
  lemma CreateDetailCallsSpec(orderId: Value, lines: seq<Record>)
    requires forall j :: 0 <= j < |lines| ==> IsNumber(Lookup(lines[j], "discount"))
    ensures forall j :: 0 <= j < |lines| ==>
      var c := CreateDetailCalls(orderId, lines)[j];
      && c.verb == Post && c.path == "/details" && c.body.Obj?
      && c.body.fields["id_order"] == orderId && c.body.fields["discount"].Num?
  {
  }

  /** Coerced lines have numeric discounts. */
  lemma CreateLinesCoerced(details: Value)
    requires CreateLines(details).Success?
    ensures forall j :: 0 <= j < |CreateLines(details).value| ==> IsNumber(Lookup(CreateLines(details).value[j], "discount"))
  {
  }

  /** What `create` sends: the order first; then, when there are lines and the
      order came back with an id, one POST per line carrying that id, and a
      final PUT of the coerced totals to the new order. */
  lemma CreateShape(data: Record, server: Server)
    ensures var (calls, result) := CreateSpec(data, server);
      && (CreateLines(Lookup(data, "details")).Failure? ==> calls == [] && result == Threw(TypeError))
      && (CreateLines(Lookup(data, "details")).Success? ==> calls != [] && calls[0] == Call(Post, "/orders", Obj(CreateHeader(data))))
      && (|calls| > 1 ==>
            var lines := CreateLines(Lookup(data, "details")).value;
            var orderId := Field(server(calls[0]).value, "id");
            && |calls| == |lines| + 2
            && calls[1..|calls| - 1] == CreateDetailCalls(orderId, lines)
            && calls[|calls| - 1] == Call(Put, "/orders/" + ToStr(orderId), Obj(Amounts(data))))
  {
    var prepared := CreateLines(Lookup(data, "details"));
    if prepared.Success? {
      var lines := prepared.value;
      var c0 := Call(Post, "/orders", Obj(CreateHeader(data)));
      if server(c0).Ok? {
        var r := server(c0).value;
        var orderId := Field(r, "id");
        if |lines| > 0 && Truthy(r) && Truthy(orderId) {
          var dcs := CreateDetailCalls(orderId, lines);
          var totals := Call(Put, "/orders/" + ToStr(orderId), Obj(Amounts(data)));
          var calls := [c0] + dcs + [totals];
          assert CreateSpec(data, server).0 == calls;
          assert calls[1..|calls| - 1] == dcs;
        }
      }
    }
  }

  /** Every call `update` makes for a line carries the order's id and is a PUT
      to that line's URL or a POST to `/details`; no line makes more than one. */
  lemma {:induction false} UpdateDetailCallsSpec(id: string, lines: seq<Record>)
    ensures |UpdateDetailCalls(id, lines)| <= |lines|
    ensures forall c :: c in UpdateDetailCalls(id, lines) ==>
      && c.body.Obj? && "id_order" in c.body.fields && c.body.fields["id_order"] == Str(id)
      && ((c.verb == Put && |c.path| >= 9 && c.path[..9] == "/details/") || (c.verb == Post && c.path == "/details"))
  {
    if lines != [] {
      UpdateDetailCallsSpec(id, lines[..|lines| - 1]);
      var a := UpdateAction(id, lines[|lines| - 1]);
      if !a.SkipDetail? {
        assert a.call.body == Obj(DetailBody(Str(id), lines[|lines| - 1]));
      }
    }
  }

  /** When every line has a truthy id, `update` puts every line, in order. */
  lemma {:induction false} UpdateAllExisting(id: string, lines: seq<Record>)
    requires forall j :: 0 <= j < |lines| ==> Truthy(Lookup(lines[j], "id"))
    ensures |UpdateDetailCalls(id, lines)| == |lines|
    ensures forall j :: 0 <= j < |lines| ==> UpdateDetailCalls(id, lines)[j] == UpdateAction(id, lines[j]).call
    ensures forall j :: 0 <= j < |lines| ==> UpdateDetailCalls(id, lines)[j].verb == Put
  {
    if lines != [] {
      var init := lines[..|lines| - 1];
      var last := lines[|lines| - 1];
      forall j | 0 <= j < |init|
        ensures Truthy(Lookup(init[j], "id"))
      {
        assert init[j] == lines[j];
      }
      UpdateAllExisting(id, init);
      var prev := UpdateDetailCalls(id, init);
      var calls := UpdateDetailCalls(id, lines);
      PutStep(id, lines);
      forall j | 0 <= j < |lines|
        ensures calls[j] == UpdateAction(id, lines[j]).call && calls[j].verb == Put
      {
        if j < |init| {
          assert calls[j] == prev[j] && init[j] == lines[j];
        }
      }
    }
  }

  /** A last line with an id adds one PUT to the calls of the others. */
  lemma PutStep(id: string, lines: seq<Record>)
    requires lines != [] && Truthy(Lookup(lines[|lines| - 1], "id"))
    ensures var a := UpdateAction(id, lines[|lines| - 1]);
      && UpdateDetailCalls(id, lines) == UpdateDetailCalls(id, lines[..|lines| - 1]) + [a.call]
      && a.call.verb == Put
  {
  }

  /** What `update` sends: nothing when the payment method or the lines cannot
      be prepared; otherwise the order first, then the line calls when there
      are lines and the order came back truthy. */
  lemma UpdateShape(id: string, data: Record, server: Server)
    ensures var (calls, result) := UpdateSpec(id, data, server);
      && (UpdatePaymentMethod(data).Failure? || DetailItems(Lookup(data, "details")).Failure? ==>
            calls == [] && result == Threw(TypeError))
      && (calls != [] ==> calls[0] == Call(Put, "/orders/" + id, Obj(UpdateHeader(data).value)))
      && (|calls| > 1 ==> calls[1..] == UpdateDetailCalls(id, UpdateLines(Lookup(data, "details")).value))
  {
    var (calls, result) := UpdateSpec(id, data, server);
    if |calls| > 1 {
      var lines := UpdateLines(Lookup(data, "details")).value;
      assert calls == [calls[0]] + UpdateDetailCalls(id, lines);
    }
  }
}

/**
 * `ZoneService.getAll`: one request for the zone list, whose answer is
 * reduced to an array whatever the server sends.
 */
module ZoneService {
  import opened JsValues
  import opened ApiWrapper

  /** `{ perPage: 1000, ...params }` */
  function ZoneParams(params: Record): (r: Record)
    ensures r.Keys == params.Keys + {"perPage"}
    ensures r["perPage"] == if "perPage" in params then params["perPage"] else Num(1000)
    ensures forall k :: k in params ==> r[k] == params[k]
  {
    map["perPage" := Num(1000)] + params
  }

  function ZoneCall(params: Record): Call
  {
    Call(Get, "/zones", Obj(ZoneParams(params)))
  }

  /** The zones a settled request yields: the `data` array of the body, else
      the body itself when it is an array, else none; a failed request yields
      none. */
  function Zones(response: ApiResult): (zones: seq<Value>)
    ensures response.Threw? ==> zones == []
    ensures response.Ok? && Field(response.value, "data").Arr? ==> zones == Field(response.value, "data").elems
    ensures response.Ok? && !Field(response.value, "data").Arr? && response.value.Arr? ==> zones == response.value.elems
    ensures zones != [] ==> response.Ok? && (Field(response.value, "data").Arr? || response.value.Arr?)
  {
    match response
    case Threw(_) => []
    case Ok(v) =>
      if Truthy(v) && Field(v, "data").Arr? then Field(v, "data").elems
      else if v.Arr? then v.elems
      else []
  }

  /** `getAll(params)`: the request it issues and the zones it resolves to. */
  function GetAll(params: Record, server: Server): (r: (Call, seq<Value>))
    ensures r.0.verb == Get && r.0.path == "/zones" && r.0.body == Obj(ZoneParams(params))
    ensures r.1 == Zones(server(r.0))
  {
    var call := ZoneCall(params);
    (call, Zones(server(call)))
  }
}

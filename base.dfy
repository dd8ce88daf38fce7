/**
 * `BaseAPI`, the class every resource class extends: it holds the token
 * and the base URL, and `request` sends one call and normalises the
 * response into `{success, response}`.  The network exchange itself is not
 * modelled: `Request` takes the response that `fetch` produced as an input
 * and returns the call it was asked to make beside the normalised outcome.
 */
module Base {
  import opened Wrappers
  import opened JsValue

  const DefaultBaseUrl: string := "https://api.hetzner.cloud/v1"

  /** The two fields every resource object inherits. */
  datatype BaseAPI = BaseAPI(token: string, baseUrl: string)

  /** `new X(token)`: the token as given, the base URL at its default. */
  function New(token: string): BaseAPI {
    BaseAPI(token, DefaultBaseUrl)
  }

  type Headers = map<string, string>

  /** The `RequestInit` fields the client passes (`verb` is `method`); an absent field is `None`. */
  datatype RequestInit = RequestInit(verb: Option<string>, headers: Option<Headers>, body: Option<Value>)

  /** `options = {}` */
  const NoOptions: RequestInit := RequestInit(None, None, None)

  /** The method `fetch` uses: `GET` when none is given. */
  function EffectiveMethod(init: RequestInit): (m: string)
    ensures init.verb.None? ==> m == "GET"
    ensures init.verb.Some? ==> m == init.verb.value
  {
    init.verb.GetOr("GET")
  }

  /** What is handed to `fetch`. */
  datatype Fetch = Fetch(url: string, verb: Option<string>, headers: Headers, body: Option<Value>)

  /**
   * `{ ...(options.headers || {}), Authorization: ..., "Content-Type": ... }`:
   * the caller's headers, with the two fixed ones written last so that they
   * win on a clash.
   */
  function OutgoingHeaders(caller: Option<Headers>, token: string): (h: Headers)
    ensures "Authorization" in h && h["Authorization"] == "Bearer " + token
    ensures "Content-Type" in h && h["Content-Type"] == "application/json"
    ensures h.Keys == caller.GetOr(map[]).Keys + {"Authorization", "Content-Type"}
    ensures forall name | name in caller.GetOr(map[]) && name != "Authorization" && name != "Content-Type" ::
      h[name] == caller.GetOr(map[])[name]
  {
    caller.GetOr(map[])["Authorization" := "Bearer " + token]["Content-Type" := "application/json"]
  }

  /** The body `fetch` delivered: parsed JSON, or text `res.json()` rejects. */
  datatype ResponseBody = Json(value: Value) | NotJson

  datatype Response = Response(status: int, body: ResponseBody)

  /** `res.ok`: a status in the range 200-299. */
  predicate IsOk(status: int) {
    200 <= status <= 299
  }

  /** `{ success, response }` */
  datatype ApiResult = ApiResult(success: bool, response: Value)

  /** How the promise `request` returns settles. */
  datatype Settled = Resolved(result: ApiResult) | Rejected

  /**
   * The response normaliser: 204 gives a null payload without reading the
   * body, any other status the parsed body; `success` is `res.ok`.  A body
   * that is not JSON makes `res.json()`, and so the whole call, reject.
   */
  function Settle(res: Response): (s: Settled)
    ensures s.Rejected? <==> res.status != 204 && res.body.NotJson?
    ensures s.Resolved? ==> (s.result.success <==> IsOk(res.status))
    ensures s.Resolved? ==> s.result.response == if res.status == 204 then Null else res.body.value
  {
    if res.status == 204 then Resolved(ApiResult(IsOk(res.status), Null))
    else match res.body
      case NotJson => Rejected
      case Json(v) => Resolved(ApiResult(IsOk(res.status), v))
  }

  /** One call of `request`: what was fetched, and how the call settled. */
  datatype Exchange = Exchange(sent: Fetch, outcome: Settled)

  /** `request(endpoint, options)`, given the response `fetch` produced. */
  function Request(api: BaseAPI, endpoint: string, init: RequestInit, res: Response): (e: Exchange)
    ensures |e.sent.url| == |api.baseUrl| + |endpoint|
    ensures e.sent.url[..|api.baseUrl|] == api.baseUrl && e.sent.url[|api.baseUrl|..] == endpoint
    ensures e.sent.verb == init.verb && e.sent.body == init.body
    ensures e.sent.headers == OutgoingHeaders(init.headers, api.token)
    ensures e.outcome == Settle(res)
  {
    Exchange(Fetch(api.baseUrl + endpoint, init.verb, OutgoingHeaders(init.headers, api.token), init.body), Settle(res))
  }

  /** A 204 resolves to success with a null payload, whatever the body. */
  lemma NoContentSucceedsWithNull(body: ResponseBody)
    ensures Settle(Response(204, body)) == Resolved(ApiResult(true, Null))
  {
  }

  /** A parsed error body is handed back with `success: false`, not thrown. */
  lemma ErrorStatusKeepsBody(status: int, v: Value)
    requires !IsOk(status)
    ensures Settle(Response(status, Json(v))) == Resolved(ApiResult(false, v))
  {
  }

  /** Caller headers cannot replace the token or the content type. */
  lemma FixedHeadersWin(caller: Headers, token: string)
    ensures OutgoingHeaders(Some(caller), token)["Authorization"] == "Bearer " + token
    ensures OutgoingHeaders(Some(caller), token)["Content-Type"] == "application/json"
  {
  }

  /** Passing the outgoing headers back in as options changes nothing. */
  lemma OutgoingHeadersIdempotent(caller: Option<Headers>, token: string)
    ensures OutgoingHeaders(Some(OutgoingHeaders(caller, token)), token) == OutgoingHeaders(caller, token)
  {
    var h := OutgoingHeaders(caller, token);
    var h2 := OutgoingHeaders(Some(h), token);
    assert h2.Keys == h.Keys;
    assert forall name | name in h :: h2[name] == h[name];
  }
}

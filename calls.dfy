/**
 * The arguments every resource method passes to `request`: an endpoint
 * written as a template string and the options.  The constructors here are
 * the shapes those arguments take across the client; each is specified by
 * what `Endpoint.Parse` reads back from the endpoint.
 */
module Calls {
  import opened Wrappers
  import opened JsValue
  import opened Endpoint
  import opened Base
  import Decimal
  import FormUrlEncoded

  type Pair = FormUrlEncoded.Pair

  /** `this.request(endpoint, init)` */
  datatype Call = Call(endpoint: string, init: RequestInit)

  /** A number interpolated into a template: `${id}`. */
  function Id(n: int): (s: string)
    ensures Plain(s)
    ensures |s| > 0 && (s[0] == '-' || Decimal.IsDigit(s[0]))
  {
    var s := Decimal.Decimal(n);
    assert '/' !in s && '?' !in s by {
      forall k | 0 <= k < |s| ensures s[k] != '/' && s[k] != '?' {
        assert Decimal.IsDigit(s[k]) || s[k] == '-';
      }
    }
    s
  }

  /** `this.request(path)`: no options, so `fetch` sends a GET. */
  function Get(segs: seq<string>): (c: Call)
    requires AllPlain(segs)
    ensures Parse(c.endpoint) == Target(segs, None)
    ensures c.init == NoOptions && EffectiveMethod(c.init) == "GET"
  {
    RouteParses(segs);
    Call(Route(segs), NoOptions)
  }

  /** `this.request(`${path}?${query}`)` with a query written out by hand. */
  function GetWithQuery(segs: seq<string>, query: string): (c: Call)
    requires AllPlain(segs)
    ensures Parse(c.endpoint) == Target(segs, Some(query))
    ensures c.init == NoOptions
  {
    RouteWithQueryParses(segs, query);
    Call(Route(segs) + "?" + query, NoOptions)
  }

  /** `this.request(path, { method: "POST" })`, with `body` when one is given. */
  function Post(segs: seq<string>, body: Option<Value>): (c: Call)
    requires AllPlain(segs)
    ensures Parse(c.endpoint) == Target(segs, None)
    ensures c.init == RequestInit(Some("POST"), None, body)
  {
    RouteParses(segs);
    Call(Route(segs), RequestInit(Some("POST"), None, body))
  }

  /** `this.request(path, { method: "PUT", body: JSON.stringify(params) })` */
  function Put(segs: seq<string>, params: Value): (c: Call)
    requires AllPlain(segs)
    ensures Parse(c.endpoint) == Target(segs, None)
    ensures c.init == RequestInit(Some("PUT"), None, Some(params))
  {
    RouteParses(segs);
    Call(Route(segs), RequestInit(Some("PUT"), None, Some(params)))
  }

  /** `this.request(path, { method: "DELETE" })` */
  function Delete(segs: seq<string>): (c: Call)
    requires AllPlain(segs)
    ensures Parse(c.endpoint) == Target(segs, None)
    ensures c.init == RequestInit(Some("DELETE"), None, None)
  {
    RouteParses(segs);
    Call(Route(segs), RequestInit(Some("DELETE"), None, None))
  }

  /** `${path}${queryString ? `?${queryString}` : ""}` */
  function QueryPath(path: string, queryString: string): string {
    if queryString == "" then path else path + "?" + queryString
  }

  /**
   * A list call whose endpoint gets `?` only when the encoded query is not
   * empty; an exception raised while building the pairs propagates.
   */
  function List(segs: seq<string>, pairs: Result<seq<Pair>, Thrown>): (r: Result<Call, Thrown>)
    requires AllPlain(segs)
    ensures r.Err? <==> pairs.Err?
    ensures r.Ok? ==> r.value.init == NoOptions
    ensures r.Ok? ==>
      Parse(r.value.endpoint) == Target(segs, if pairs.value == [] then None else Some(FormUrlEncoded.Encode(pairs.value)))
  {
    match pairs
    case Err(t) => Err(t)
    case Ok(p) =>
      var q := FormUrlEncoded.Encode(p);
      RouteParses(segs);
      RouteWithQueryParses(segs, q);
      Ok(Call(QueryPath(Route(segs), q), NoOptions))
  }

  /**
   * A list call that tests the `URLSearchParams` object rather than its
   * string: the object is always truthy, so `?` is always written.
   */
  function ListAlways(segs: seq<string>, pairs: Result<seq<Pair>, Thrown>): (r: Result<Call, Thrown>)
    requires AllPlain(segs)
    ensures r.Err? <==> pairs.Err?
    ensures r.Ok? ==> r.value.init == NoOptions
    ensures r.Ok? ==> Parse(r.value.endpoint) == Target(segs, Some(FormUrlEncoded.Encode(pairs.value)))
  {
    match pairs
    case Err(t) => Err(t)
    case Ok(p) =>
      var q := FormUrlEncoded.Encode(p);
      RouteWithQueryParses(segs, q);
      Ok(Call(Route(segs) + "?" + q, NoOptions))
  }

  /**
   * The two path shapes agree exactly when there is at least one pair;
   * without pairs the always-`?` shape ends in a bare `?`.
   */
  lemma AlwaysQuestionMark(segs: seq<string>, pairs: seq<Pair>)
    requires AllPlain(segs)
    ensures ListAlways(segs, Ok(pairs)) == List(segs, Ok(pairs)) <==> pairs != []
    ensures pairs == [] ==> ListAlways(segs, Ok(pairs)).value.endpoint == Route(segs) + "?"
    ensures pairs == [] ==> List(segs, Ok(pairs)).value.endpoint == Route(segs)
  {
    if pairs == [] {
      var a, b := ListAlways(segs, Ok(pairs)).value.endpoint, List(segs, Ok(pairs)).value.endpoint;
      assert |a| == |b| + 1;
    }
  }
}

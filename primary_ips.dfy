/**
 * `PrimaryIP` (servers/primary-ip/primary-ip.ts): each method is modelled by the call it
 * hands to `request`.
 */
module PrimaryIPs {
  import opened Wrappers
  import opened JsValue
  import Base
  import Endpoint
  import Calls
  import QueryPairs
  import QueryBuilder

  /** An instance of `PrimaryIP`: all it holds is what it inherits from `BaseAPI`. */
  class PrimaryIP {
    const api: Base.BaseAPI

    /** `new PrimaryIP(token)` */
    constructor(token: string)
      ensures api.token == token && api.baseUrl == Base.DefaultBaseUrl
    {
      api := Base.New(token);
    }
  }

  /**
   * `list`: GET on `/primary_ips`, always followed by `?`, even when no pair is built; the pairs come from
   * `params` with undefined, null and "" skipped, one pair per key.
   */
  method List(params: Option<seq<QueryPairs.Entry>>) returns (r: Result<Calls.Call, Thrown>)
    ensures r == Calls.ListAlways(["primary_ips"], QueryPairs.Pairs(QueryPairs.Present, QueryPairs.EntriesOf(params)))
  {
    var pairs := QueryBuilder.Build(QueryPairs.Present, params);
    r := Calls.ListAlways(["primary_ips"], pairs);
  }

  /** `get`: GET on `/primary_ips/{id}`. */
  function Get(id: int): (c: Calls.Call)
    ensures Endpoint.Parse(c.endpoint) == Endpoint.Target(["primary_ips", Calls.Id(id)], None)
    ensures c.init == Base.NoOptions
  {
    Calls.Get(["primary_ips", Calls.Id(id)])
  }

  /** `create`: POST to `/primary_ips` with `params` as the body. */
  function Create(params: Value): (c: Calls.Call)
    ensures Endpoint.Parse(c.endpoint) == Endpoint.Target(["primary_ips"], None)
    ensures c.init == Base.RequestInit(Some("POST"), None, Some(params))
  {
    Calls.Post(["primary_ips"], Some(params))
  }

  /** `update`: PUT on `/primary_ips/{id}` with `params` as the body. */
  function Update(id: int, params: Value): (c: Calls.Call)
    ensures Endpoint.Parse(c.endpoint) == Endpoint.Target(["primary_ips", Calls.Id(id)], None)
    ensures c.init == Base.RequestInit(Some("PUT"), None, Some(params))
  {
    Calls.Put(["primary_ips", Calls.Id(id)], params)
  }

  /** `delete`: DELETE on `/primary_ips/{id}`. */
  function Delete(id: int): (c: Calls.Call)
    ensures Endpoint.Parse(c.endpoint) == Endpoint.Target(["primary_ips", Calls.Id(id)], None)
    ensures c.init == Base.RequestInit(Some("DELETE"), None, None)
  {
    Calls.Delete(["primary_ips", Calls.Id(id)])
  }
}

/**
 * `Images` (servers/images/images.ts): each method is modelled by the call it
 * hands to `request`.
 */
module Images {
  import opened Wrappers
  import opened JsValue
  import Base
  import Endpoint
  import Calls
  import QueryPairs
  import QueryBuilder

  /** An instance of `Images`: all it holds is what it inherits from `BaseAPI`. */
  class Images {
    const api: Base.BaseAPI

    /** `new Images(token)` */
    constructor(token: string)
      ensures api.token == token && api.baseUrl == Base.DefaultBaseUrl
    {
      api := Base.New(token);
    }
  }

  /**
   * `getAll`: GET on `/images`, always followed by `?`, even when no pair is built; the pairs come from
   * `params` with undefined, null and "" skipped, one pair per key.
   */
  method GetAll(params: Option<seq<QueryPairs.Entry>>) returns (r: Result<Calls.Call, Thrown>)
    ensures r == Calls.ListAlways(["images"], QueryPairs.Pairs(QueryPairs.Present, QueryPairs.EntriesOf(params)))
  {
    var pairs := QueryBuilder.Build(QueryPairs.Present, params);
    r := Calls.ListAlways(["images"], pairs);
  }

  /** `get`: GET on `/images/{id}`. */
  function Get(id: int): (c: Calls.Call)
    ensures Endpoint.Parse(c.endpoint) == Endpoint.Target(["images", Calls.Id(id)], None)
    ensures c.init == Base.NoOptions
  {
    Calls.Get(["images", Calls.Id(id)])
  }

  /** `update`: PUT on `/images/{id}` with `params` as the body. */
  function Update(id: int, params: Value): (c: Calls.Call)
    ensures Endpoint.Parse(c.endpoint) == Endpoint.Target(["images", Calls.Id(id)], None)
    ensures c.init == Base.RequestInit(Some("PUT"), None, Some(params))
  {
    Calls.Put(["images", Calls.Id(id)], params)
  }

  /** `delete`: DELETE on `/images/{id}`. */
  function Delete(id: int): (c: Calls.Call)
    ensures Endpoint.Parse(c.endpoint) == Endpoint.Target(["images", Calls.Id(id)], None)
    ensures c.init == Base.RequestInit(Some("DELETE"), None, None)
  {
    Calls.Delete(["images", Calls.Id(id)])
  }
}

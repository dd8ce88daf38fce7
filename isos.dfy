/**
 * `Isos` (servers/isos/isos.ts): each method is modelled by the call it
 * hands to `request`.
 */
module Isos {
  import opened Wrappers
  import opened JsValue
  import Base
  import Endpoint
  import Calls
  import QueryPairs
  import QueryBuilder

  /** An instance of `Isos`: all it holds is what it inherits from `BaseAPI`. */
  class Isos {
    const api: Base.BaseAPI

    /** `new Isos(token)` */
    constructor(token: string)
      ensures api.token == token && api.baseUrl == Base.DefaultBaseUrl
    {
      api := Base.New(token);
    }
  }

  /**
   * `list`: GET on `/isos`, always followed by `?`, even when no pair is built; the pairs come from
   * `params` with undefined, null and "" skipped, one pair per key.
   */
  method List(params: Option<seq<QueryPairs.Entry>>) returns (r: Result<Calls.Call, Thrown>)
    ensures r == Calls.ListAlways(["isos"], QueryPairs.Pairs(QueryPairs.Present, QueryPairs.EntriesOf(params)))
  {
    var pairs := QueryBuilder.Build(QueryPairs.Present, params);
    r := Calls.ListAlways(["isos"], pairs);
  }

  /** `get`: GET on `/isos/{id}`. */
  function Get(id: int): (c: Calls.Call)
    ensures Endpoint.Parse(c.endpoint) == Endpoint.Target(["isos", Calls.Id(id)], None)
    ensures c.init == Base.NoOptions
  {
    Calls.Get(["isos", Calls.Id(id)])
  }
}

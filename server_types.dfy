/**
 * `ServerTypes` (servers/server-types/server-types.ts): each method is modelled by the call it
 * hands to `request`.
 */
module ServerTypes {
  import opened Wrappers
  import opened JsValue
  import Base
  import Endpoint
  import Calls
  import QueryPairs
  import QueryBuilder

  /** An instance of `ServerTypes`: all it holds is what it inherits from `BaseAPI`. */
  class ServerTypes {
    const api: Base.BaseAPI

    /** `new ServerTypes(token)` */
    constructor(token: string)
      ensures api.token == token && api.baseUrl == Base.DefaultBaseUrl
    {
      api := Base.New(token);
    }
  }

  /**
   * `getAll`: GET on `/server_types`, always followed by `?`, even when no pair is built; the pairs come from
   * `params` with undefined, null and "" skipped, one pair per key.
   */
  method GetAll(params: Option<seq<QueryPairs.Entry>>) returns (r: Result<Calls.Call, Thrown>)
    ensures r == Calls.ListAlways(["server_types"], QueryPairs.Pairs(QueryPairs.Present, QueryPairs.EntriesOf(params)))
  {
    var pairs := QueryBuilder.Build(QueryPairs.Present, params);
    r := Calls.ListAlways(["server_types"], pairs);
  }

  /** `get`: GET on `/server_types/{id}`. */
  function Get(id: int): (c: Calls.Call)
    ensures Endpoint.Parse(c.endpoint) == Endpoint.Target(["server_types", Calls.Id(id)], None)
    ensures c.init == Base.NoOptions
  {
    Calls.Get(["server_types", Calls.Id(id)])
  }
}

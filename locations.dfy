/**
 * `Locations` (locations/locations.ts): each method is modelled by the call it
 * hands to `request`.
 */
module Locations {
  import opened Wrappers
  import opened JsValue
  import Base
  import Endpoint
  import Calls
  import QueryPairs
  import QueryBuilder

  /**
   * `list`: GET on `/locations`, followed by `?` and the query only when the query is not empty; the pairs come from
   * `params` with undefined entries skipped, one pair per key, arrays comma-joined by `toString()`.
   */
  method List(params: Option<seq<QueryPairs.Entry>>) returns (r: Result<Calls.Call, Thrown>)
    ensures r == Calls.List(["locations"], QueryPairs.Pairs(QueryPairs.OnePerKey, QueryPairs.EntriesOf(params)))
  {
    var pairs := QueryBuilder.Build(QueryPairs.OnePerKey, params);
    r := Calls.List(["locations"], pairs);
  }

  /** `get`: GET on `/locations/{id}`. */
  function Get(id: int): (c: Calls.Call)
    ensures Endpoint.Parse(c.endpoint) == Endpoint.Target(["locations", Calls.Id(id)], None)
    ensures c.init == Base.NoOptions
  {
    Calls.Get(["locations", Calls.Id(id)])
  }
}

/**
 * `Datacenters` (locations/locations.ts): each method is modelled by the call it
 * hands to `request`.
 */
module Datacenters {
  import opened Wrappers
  import opened JsValue
  import Base
  import Endpoint
  import Calls
  import QueryPairs
  import QueryBuilder

  /**
   * `list`: GET on `/datacenters`, followed by `?` and the query only when the query is not empty; the pairs come from
   * `params` with undefined entries skipped, one pair per key, arrays comma-joined by `toString()`.
   */
  method List(params: Option<seq<QueryPairs.Entry>>) returns (r: Result<Calls.Call, Thrown>)
    ensures r == Calls.List(["datacenters"], QueryPairs.Pairs(QueryPairs.OnePerKey, QueryPairs.EntriesOf(params)))
  {
    var pairs := QueryBuilder.Build(QueryPairs.OnePerKey, params);
    r := Calls.List(["datacenters"], pairs);
  }

  /** `get`: GET on `/datacenters/{id}`. */
  function Get(id: int): (c: Calls.Call)
    ensures Endpoint.Parse(c.endpoint) == Endpoint.Target(["datacenters", Calls.Id(id)], None)
    ensures c.init == Base.NoOptions
  {
    Calls.Get(["datacenters", Calls.Id(id)])
  }
}

/**
 * `LoadBalancerTypes` (load-balancers/load-balancers-types.ts): each method is modelled by the call it
 * hands to `request`.
 */
module LoadBalancerTypes {
  import opened Wrappers
  import opened JsValue
  import Base
  import Endpoint
  import Calls
  import QueryPairs
  import QueryBuilder

  /**
   * `list`: GET on `/load_balancer_types`, followed by `?` and the query only when the query is not empty; the pairs come from
   * `params` with undefined entries skipped, one pair per key, arrays comma-joined by `toString()`.
   */
  method List(params: Option<seq<QueryPairs.Entry>>) returns (r: Result<Calls.Call, Thrown>)
    ensures r == Calls.List(["load_balancer_types"], QueryPairs.Pairs(QueryPairs.OnePerKey, QueryPairs.EntriesOf(params)))
  {
    var pairs := QueryBuilder.Build(QueryPairs.OnePerKey, params);
    r := Calls.List(["load_balancer_types"], pairs);
  }

  /** `get`: GET on `/load_balancer_types/{id}`. */
  function Get(id: int): (c: Calls.Call)
    ensures Endpoint.Parse(c.endpoint) == Endpoint.Target(["load_balancer_types", Calls.Id(id)], None)
    ensures c.init == Base.NoOptions
  {
    Calls.Get(["load_balancer_types", Calls.Id(id)])
  }
}

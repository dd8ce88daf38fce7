/**
 * `LoadBalancers` (load-balancers/load-balancers.ts): each method is modelled by the call it
 * hands to `request`.
 */
module LoadBalancers {
  import opened Wrappers
  import opened JsValue
  import Base
  import Endpoint
  import Calls
  import QueryPairs
  import QueryBuilder
  import LoadBalancerActions

  /** An instance of `LoadBalancers`, with its lazily built sub-accessors. */
  class LoadBalancers {
    const api: Base.BaseAPI
    var actionsCache: LoadBalancerActions.LoadBalancerActions?

    /** Every cached sub-accessor was built with this object's token. */
    predicate Valid()
      reads this
    {
      (actionsCache != null ==> actionsCache.api == Base.New(api.token))
    }

    /** `new LoadBalancers(token)` */
    constructor(token: string)
      ensures api.token == token && api.baseUrl == Base.DefaultBaseUrl
      ensures actionsCache == null
      ensures Valid()
    {
      api := Base.New(token);
      actionsCache := null;
    }

    /**
     * `get actions()`: builds a `LoadBalancerActions` with this object's token on the first
     * access and hands back that same object on every later one.
     */
    method Actions() returns (a: LoadBalancerActions.LoadBalancerActions)
      requires Valid()
      modifies this`actionsCache
      ensures Valid()
      ensures old(actionsCache) != null ==> a == old(actionsCache)
      ensures old(actionsCache) == null ==> fresh(a)
      ensures actionsCache == a
      ensures a.api == Base.New(api.token)
    {
      if actionsCache == null {
        actionsCache := new LoadBalancerActions.LoadBalancerActions(api.token);
      }
      a := actionsCache;
    }
  }

  /**
   * `list`: GET on `/load_balancers`, followed by `?` and the query only when the query is not empty; the pairs come from
   * `params` with undefined entries skipped, one pair per key, arrays comma-joined by `toString()`.
   */
  method List(params: Option<seq<QueryPairs.Entry>>) returns (r: Result<Calls.Call, Thrown>)
    ensures r == Calls.List(["load_balancers"], QueryPairs.Pairs(QueryPairs.OnePerKey, QueryPairs.EntriesOf(params)))
  {
    var pairs := QueryBuilder.Build(QueryPairs.OnePerKey, params);
    r := Calls.List(["load_balancers"], pairs);
  }

  /** `create`: POST to `/load_balancers` with `params` as the body. */
  function Create(params: Value): (c: Calls.Call)
    ensures Endpoint.Parse(c.endpoint) == Endpoint.Target(["load_balancers"], None)
    ensures c.init == Base.RequestInit(Some("POST"), None, Some(params))
  {
    Calls.Post(["load_balancers"], Some(params))
  }

  /** `get`: GET on `/load_balancers/{id}`. */
  function Get(id: int): (c: Calls.Call)
    ensures Endpoint.Parse(c.endpoint) == Endpoint.Target(["load_balancers", Calls.Id(id)], None)
    ensures c.init == Base.NoOptions
  {
    Calls.Get(["load_balancers", Calls.Id(id)])
  }

  /** `update`: PUT on `/load_balancers/{id}` with `params` as the body. */
  function Update(id: int, params: Value): (c: Calls.Call)
    ensures Endpoint.Parse(c.endpoint) == Endpoint.Target(["load_balancers", Calls.Id(id)], None)
    ensures c.init == Base.RequestInit(Some("PUT"), None, Some(params))
  {
    Calls.Put(["load_balancers", Calls.Id(id)], params)
  }

  /** `delete`: DELETE on `/load_balancers/{id}`. */
  function Delete(id: int): (c: Calls.Call)
    ensures Endpoint.Parse(c.endpoint) == Endpoint.Target(["load_balancers", Calls.Id(id)], None)
    ensures c.init == Base.RequestInit(Some("DELETE"), None, None)
  {
    Calls.Delete(["load_balancers", Calls.Id(id)])
  }

  /**
   * `getMetrics`: GET on `/load_balancers/{id}/metrics`, always followed by `?`, even when no pair is built; the pairs come from
   * `params` with undefined entries skipped, one pair per key, arrays comma-joined by `toString()`.
   */
  method GetMetrics(id: int, params: seq<QueryPairs.Entry>) returns (r: Result<Calls.Call, Thrown>)
    ensures r == Calls.ListAlways(["load_balancers", Calls.Id(id), "metrics"], QueryPairs.Pairs(QueryPairs.OnePerKey, params))
  {
    var pairs := QueryBuilder.Build(QueryPairs.OnePerKey, Some(params));
    r := Calls.ListAlways(["load_balancers", Calls.Id(id), "metrics"], pairs);
  }

  /**
   * `listTypes`: GET on `/load_balancer_types`, followed by `?` and the query only when the query is not empty; the pairs come from
   * `params` with undefined entries skipped, one pair per key, arrays comma-joined by `toString()`.
   */
  method ListTypes(params: Option<seq<QueryPairs.Entry>>) returns (r: Result<Calls.Call, Thrown>)
    ensures r == Calls.List(["load_balancer_types"], QueryPairs.Pairs(QueryPairs.OnePerKey, QueryPairs.EntriesOf(params)))
  {
    var pairs := QueryBuilder.Build(QueryPairs.OnePerKey, params);
    r := Calls.List(["load_balancer_types"], pairs);
  }

  /** `getType`: GET on `/load_balancer_types/{id}`. */
  function GetType(id: int): (c: Calls.Call)
    ensures Endpoint.Parse(c.endpoint) == Endpoint.Target(["load_balancer_types", Calls.Id(id)], None)
    ensures c.init == Base.NoOptions
  {
    Calls.Get(["load_balancer_types", Calls.Id(id)])
  }
}

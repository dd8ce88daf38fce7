/**
 * `FloatingIPs` (floating-ips/floating-ips.ts): each method is modelled by the call it
 * hands to `request`.
 */
module FloatingIPs {
  import opened Wrappers
  import opened JsValue
  import Base
  import Endpoint
  import Calls
  import QueryPairs
  import QueryBuilder
  import FloatingIPActions

  /** An instance of `FloatingIPs`, with its lazily built sub-accessors. */
  class FloatingIPs {
    const api: Base.BaseAPI
    var actionsCache: FloatingIPActions.FloatingIPActions?

    /** Every cached sub-accessor was built with this object's token. */
    predicate Valid()
      reads this
    {
      (actionsCache != null ==> actionsCache.api == Base.New(api.token))
    }

    /** `new FloatingIPs(token)` */
    constructor(token: string)
      ensures api.token == token && api.baseUrl == Base.DefaultBaseUrl
      ensures actionsCache == null
      ensures Valid()
    {
      api := Base.New(token);
      actionsCache := null;
    }

    /**
     * `get actions()`: builds a `FloatingIPActions` with this object's token on the first
     * access and hands back that same object on every later one.
     */
    method Actions() returns (a: FloatingIPActions.FloatingIPActions)
      requires Valid()
      modifies this`actionsCache
      ensures Valid()
      ensures old(actionsCache) != null ==> a == old(actionsCache)
      ensures old(actionsCache) == null ==> fresh(a)
      ensures actionsCache == a
      ensures a.api == Base.New(api.token)
    {
      if actionsCache == null {
        actionsCache := new FloatingIPActions.FloatingIPActions(api.token);
      }
      a := actionsCache;
    }
  }

  /**
   * `list`: GET on `/floating_ips`, followed by `?` and the query only when the query is not empty; the pairs come from
   * `params` with undefined entries skipped, one pair per key, arrays comma-joined by `toString()`.
   */
  method List(params: Option<seq<QueryPairs.Entry>>) returns (r: Result<Calls.Call, Thrown>)
    ensures r == Calls.List(["floating_ips"], QueryPairs.Pairs(QueryPairs.OnePerKey, QueryPairs.EntriesOf(params)))
  {
    var pairs := QueryBuilder.Build(QueryPairs.OnePerKey, params);
    r := Calls.List(["floating_ips"], pairs);
  }

  /** `get`: GET on `/floating_ips/{id}`. */
  function Get(id: int): (c: Calls.Call)
    ensures Endpoint.Parse(c.endpoint) == Endpoint.Target(["floating_ips", Calls.Id(id)], None)
    ensures c.init == Base.NoOptions
  {
    Calls.Get(["floating_ips", Calls.Id(id)])
  }

  /** `create`: POST to `/floating_ips` with `params` as the body. */
  function Create(params: Value): (c: Calls.Call)
    ensures Endpoint.Parse(c.endpoint) == Endpoint.Target(["floating_ips"], None)
    ensures c.init == Base.RequestInit(Some("POST"), None, Some(params))
  {
    Calls.Post(["floating_ips"], Some(params))
  }

  /** `update`: PUT on `/floating_ips/{id}` with `params` as the body. */
  function Update(id: int, params: Value): (c: Calls.Call)
    ensures Endpoint.Parse(c.endpoint) == Endpoint.Target(["floating_ips", Calls.Id(id)], None)
    ensures c.init == Base.RequestInit(Some("PUT"), None, Some(params))
  {
    Calls.Put(["floating_ips", Calls.Id(id)], params)
  }

  /** `delete`: DELETE on `/floating_ips/{id}`. */
  function Delete(id: int): (c: Calls.Call)
    ensures Endpoint.Parse(c.endpoint) == Endpoint.Target(["floating_ips", Calls.Id(id)], None)
    ensures c.init == Base.RequestInit(Some("DELETE"), None, None)
  {
    Calls.Delete(["floating_ips", Calls.Id(id)])
  }

  /** Reading `actions` twice gives the very same `FloatingIPActions` object. */
  method SameActionsInstance(floatingIPs: FloatingIPs) returns (first: FloatingIPActions.FloatingIPActions, second: FloatingIPActions.FloatingIPActions)
    requires floatingIPs.Valid()
    modifies floatingIPs
    ensures first == second
    ensures first.api == Base.New(floatingIPs.api.token)
  {
    first := floatingIPs.Actions();
    second := floatingIPs.Actions();
  }
}

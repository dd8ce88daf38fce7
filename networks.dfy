/**
 * `Networks` (networks/networks.ts): each method is modelled by the call it
 * hands to `request`.
 */
module Networks {
  import opened Wrappers
  import opened JsValue
  import Base
  import Endpoint
  import Calls
  import QueryPairs
  import QueryBuilder
  import NetworkActions

  /** An instance of `Networks`, with its lazily built sub-accessors. */
  class Networks {
    const api: Base.BaseAPI
    var actionsCache: NetworkActions.NetworkActions?

    /** Every cached sub-accessor was built with this object's token. */
    predicate Valid()
      reads this
    {
      (actionsCache != null ==> actionsCache.api == Base.New(api.token))
    }

    /** `new Networks(token)` */
    constructor(token: string)
      ensures api.token == token && api.baseUrl == Base.DefaultBaseUrl
      ensures actionsCache == null
      ensures Valid()
    {
      api := Base.New(token);
      actionsCache := null;
    }

    /**
     * `get actions()`: builds a `NetworkActions` with this object's token on the first
     * access and hands back that same object on every later one.
     */
    method Actions() returns (a: NetworkActions.NetworkActions)
      requires Valid()
      modifies this`actionsCache
      ensures Valid()
      ensures old(actionsCache) != null ==> a == old(actionsCache)
      ensures old(actionsCache) == null ==> fresh(a)
      ensures actionsCache == a
      ensures a.api == Base.New(api.token)
    {
      if actionsCache == null {
        actionsCache := new NetworkActions.NetworkActions(api.token);
      }
      a := actionsCache;
    }
  }

  /**
   * `list`: GET on `/networks`, followed by `?` and the query only when the query is not empty; the pairs come from
   * `params` with undefined entries skipped, one pair per key, arrays comma-joined by `toString()`.
   */
  method List(params: Option<seq<QueryPairs.Entry>>) returns (r: Result<Calls.Call, Thrown>)
    ensures r == Calls.List(["networks"], QueryPairs.Pairs(QueryPairs.OnePerKey, QueryPairs.EntriesOf(params)))
  {
    var pairs := QueryBuilder.Build(QueryPairs.OnePerKey, params);
    r := Calls.List(["networks"], pairs);
  }

  /** `create`: POST to `/networks` with `params` as the body. */
  function Create(params: Value): (c: Calls.Call)
    ensures Endpoint.Parse(c.endpoint) == Endpoint.Target(["networks"], None)
    ensures c.init == Base.RequestInit(Some("POST"), None, Some(params))
  {
    Calls.Post(["networks"], Some(params))
  }

  /** `get`: GET on `/networks/{id}`. */
  function Get(id: int): (c: Calls.Call)
    ensures Endpoint.Parse(c.endpoint) == Endpoint.Target(["networks", Calls.Id(id)], None)
    ensures c.init == Base.NoOptions
  {
    Calls.Get(["networks", Calls.Id(id)])
  }

  /** `update`: PUT on `/networks/{id}` with `params` as the body. */
  function Update(id: int, params: Value): (c: Calls.Call)
    ensures Endpoint.Parse(c.endpoint) == Endpoint.Target(["networks", Calls.Id(id)], None)
    ensures c.init == Base.RequestInit(Some("PUT"), None, Some(params))
  {
    Calls.Put(["networks", Calls.Id(id)], params)
  }

  /** `delete`: DELETE on `/networks/{id}`. */
  function Delete(id: int): (c: Calls.Call)
    ensures Endpoint.Parse(c.endpoint) == Endpoint.Target(["networks", Calls.Id(id)], None)
    ensures c.init == Base.RequestInit(Some("DELETE"), None, None)
  {
    Calls.Delete(["networks", Calls.Id(id)])
  }
}

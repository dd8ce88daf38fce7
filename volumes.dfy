/**
 * `Volumes` (volumes/volumes.ts): each method is modelled by the call it
 * hands to `request`.
 */
module Volumes {
  import opened Wrappers
  import opened JsValue
  import Base
  import Endpoint
  import Calls
  import QueryPairs
  import QueryBuilder
  import VolumeActions

  /** An instance of `Volumes`, with its lazily built sub-accessors. */
  class Volumes {
    const api: Base.BaseAPI
    var actionsCache: VolumeActions.VolumeActions?

    /** Every cached sub-accessor was built with this object's token. */
    predicate Valid()
      reads this
    {
      (actionsCache != null ==> actionsCache.api == Base.New(api.token))
    }

    /** `new Volumes(token)` */
    constructor(token: string)
      ensures api.token == token && api.baseUrl == Base.DefaultBaseUrl
      ensures actionsCache == null
      ensures Valid()
    {
      api := Base.New(token);
      actionsCache := null;
    }

    /**
     * `get actions()`: builds a `VolumeActions` with this object's token on the first
     * access and hands back that same object on every later one.
     */
    method Actions() returns (a: VolumeActions.VolumeActions)
      requires Valid()
      modifies this`actionsCache
      ensures Valid()
      ensures old(actionsCache) != null ==> a == old(actionsCache)
      ensures old(actionsCache) == null ==> fresh(a)
      ensures actionsCache == a
      ensures a.api == Base.New(api.token)
    {
      if actionsCache == null {
        actionsCache := new VolumeActions.VolumeActions(api.token);
      }
      a := actionsCache;
    }
  }

  /**
   * `list`: GET on `/volumes`, followed by `?` and the query only when the query is not empty; the pairs come from
   * `params` with undefined entries skipped, each array element its own pair under the key.
   */
  method List(params: Option<seq<QueryPairs.Entry>>) returns (r: Result<Calls.Call, Thrown>)
    ensures r == Calls.List(["volumes"], QueryPairs.Pairs(QueryPairs.Expanding, QueryPairs.EntriesOf(params)))
  {
    var pairs := QueryBuilder.Build(QueryPairs.Expanding, params);
    r := Calls.List(["volumes"], pairs);
  }

  /** `get`: GET on `/volumes/{id}`. */
  function Get(id: int): (c: Calls.Call)
    ensures Endpoint.Parse(c.endpoint) == Endpoint.Target(["volumes", Calls.Id(id)], None)
    ensures c.init == Base.NoOptions
  {
    Calls.Get(["volumes", Calls.Id(id)])
  }

  /** `create`: POST to `/volumes` with `params` as the body. */
  function Create(params: Value): (c: Calls.Call)
    ensures Endpoint.Parse(c.endpoint) == Endpoint.Target(["volumes"], None)
    ensures c.init == Base.RequestInit(Some("POST"), None, Some(params))
  {
    Calls.Post(["volumes"], Some(params))
  }

  /** `update`: PUT on `/volumes/{id}` with `params` as the body. */
  function Update(id: int, params: Value): (c: Calls.Call)
    ensures Endpoint.Parse(c.endpoint) == Endpoint.Target(["volumes", Calls.Id(id)], None)
    ensures c.init == Base.RequestInit(Some("PUT"), None, Some(params))
  {
    Calls.Put(["volumes", Calls.Id(id)], params)
  }

  /** `delete`: DELETE on `/volumes/{id}`. */
  function Delete(id: int): (c: Calls.Call)
    ensures Endpoint.Parse(c.endpoint) == Endpoint.Target(["volumes", Calls.Id(id)], None)
    ensures c.init == Base.RequestInit(Some("DELETE"), None, None)
  {
    Calls.Delete(["volumes", Calls.Id(id)])
  }
}

/**
 * `PlacementGroup` (servers/placement-groups/placement-group.ts): each method is modelled by the call it
 * hands to `request`.
 */
module PlacementGroups {
  import opened Wrappers
  import opened JsValue
  import Base
  import Endpoint
  import Calls
  import QueryPairs
  import QueryBuilder

  /** An instance of `PlacementGroup`: all it holds is what it inherits from `BaseAPI`. */
  class PlacementGroup {
    const api: Base.BaseAPI

    /** `new PlacementGroup(token)` */
    constructor(token: string)
      ensures api.token == token && api.baseUrl == Base.DefaultBaseUrl
    {
      api := Base.New(token);
    }
  }

  /**
   * `getAll`: GET on `/placement_groups`, always followed by `?`, even when no pair is built; the pairs come from
   * `params` with undefined, null and "" skipped, one pair per key.
   */
  method GetAll(params: Option<seq<QueryPairs.Entry>>) returns (r: Result<Calls.Call, Thrown>)
    ensures r == Calls.ListAlways(["placement_groups"], QueryPairs.Pairs(QueryPairs.Present, QueryPairs.EntriesOf(params)))
  {
    var pairs := QueryBuilder.Build(QueryPairs.Present, params);
    r := Calls.ListAlways(["placement_groups"], pairs);
  }

  /** `get`: GET on `/placement_groups/{id}`. */
  function Get(id: int): (c: Calls.Call)
    ensures Endpoint.Parse(c.endpoint) == Endpoint.Target(["placement_groups", Calls.Id(id)], None)
    ensures c.init == Base.NoOptions
  {
    Calls.Get(["placement_groups", Calls.Id(id)])
  }

  /** `create`: POST to `/placement_groups` with `params` as the body. */
  function Create(params: Value): (c: Calls.Call)
    ensures Endpoint.Parse(c.endpoint) == Endpoint.Target(["placement_groups"], None)
    ensures c.init == Base.RequestInit(Some("POST"), None, Some(params))
  {
    Calls.Post(["placement_groups"], Some(params))
  }

  /** `update`: PUT on `/placement_groups/{id}` with `params` as the body. */
  function Update(id: int, params: Value): (c: Calls.Call)
    ensures Endpoint.Parse(c.endpoint) == Endpoint.Target(["placement_groups", Calls.Id(id)], None)
    ensures c.init == Base.RequestInit(Some("PUT"), None, Some(params))
  {
    Calls.Put(["placement_groups", Calls.Id(id)], params)
  }

  /** `delete`: DELETE on `/placement_groups/{id}`. */
  function Delete(id: int): (c: Calls.Call)
    ensures Endpoint.Parse(c.endpoint) == Endpoint.Target(["placement_groups", Calls.Id(id)], None)
    ensures c.init == Base.RequestInit(Some("DELETE"), None, None)
  {
    Calls.Delete(["placement_groups", Calls.Id(id)])
  }
}

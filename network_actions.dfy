/**
 * `NetworkActions` (networks/actions.ts): each method is modelled by the call it
 * hands to `request`.
 */
module NetworkActions {
  import opened Wrappers
  import opened JsValue
  import Base
  import Endpoint
  import Calls
  import QueryPairs
  import QueryBuilder

  /** An instance of `NetworkActions`: all it holds is what it inherits from `BaseAPI`. */
  class NetworkActions {
    const api: Base.BaseAPI

    /** `new NetworkActions(token)` */
    constructor(token: string)
      ensures api.token == token && api.baseUrl == Base.DefaultBaseUrl
    {
      api := Base.New(token);
    }
  }

  /**
   * `listAll`: GET on `/networks/actions`, followed by `?` and the query only when the query is not empty; the pairs come from
   * `params` with undefined entries skipped, one pair per key, arrays comma-joined by `toString()`.
   */
  method ListAll(params: Option<seq<QueryPairs.Entry>>) returns (r: Result<Calls.Call, Thrown>)
    ensures r == Calls.List(["networks", "actions"], QueryPairs.Pairs(QueryPairs.OnePerKey, QueryPairs.EntriesOf(params)))
  {
    var pairs := QueryBuilder.Build(QueryPairs.OnePerKey, params);
    r := Calls.List(["networks", "actions"], pairs);
  }

  /** `get`: GET on `/networks/actions/{actionId}`. */
  function Get(actionId: int): (c: Calls.Call)
    ensures Endpoint.Parse(c.endpoint) == Endpoint.Target(["networks", "actions", Calls.Id(actionId)], None)
    ensures c.init == Base.NoOptions
  {
    Calls.Get(["networks", "actions", Calls.Id(actionId)])
  }

  /**
   * `listForNetwork`: GET on `/networks/{networkId}/actions`, followed by `?` and the query only when the query is not empty; the pairs come from
   * `params` with undefined entries skipped, one pair per key, arrays comma-joined by `toString()`.
   */
  method ListForNetwork(networkId: int, params: Option<seq<QueryPairs.Entry>>) returns (r: Result<Calls.Call, Thrown>)
    ensures r == Calls.List(["networks", Calls.Id(networkId), "actions"], QueryPairs.Pairs(QueryPairs.OnePerKey, QueryPairs.EntriesOf(params)))
  {
    var pairs := QueryBuilder.Build(QueryPairs.OnePerKey, params);
    r := Calls.List(["networks", Calls.Id(networkId), "actions"], pairs);
  }

  /** `getForNetwork`: GET on `/networks/{networkId}/actions/{actionId}`. */
  function GetForNetwork(networkId: int, actionId: int): (c: Calls.Call)
    ensures Endpoint.Parse(c.endpoint) == Endpoint.Target(["networks", Calls.Id(networkId), "actions", Calls.Id(actionId)], None)
    ensures c.init == Base.NoOptions
  {
    Calls.Get(["networks", Calls.Id(networkId), "actions", Calls.Id(actionId)])
  }

  /** `addRoute`: POST to `/networks/{networkId}/actions/add_route` with `params` as the body. */
  function AddRoute(networkId: int, params: Value): (c: Calls.Call)
    ensures Endpoint.Parse(c.endpoint) == Endpoint.Target(["networks", Calls.Id(networkId), "actions", "add_route"], None)
    ensures c.init == Base.RequestInit(Some("POST"), None, Some(params))
  {
    Calls.Post(["networks", Calls.Id(networkId), "actions", "add_route"], Some(params))
  }

  /** `deleteRoute`: POST to `/networks/{networkId}/actions/delete_route` with `params` as the body. */
  function DeleteRoute(networkId: int, params: Value): (c: Calls.Call)
    ensures Endpoint.Parse(c.endpoint) == Endpoint.Target(["networks", Calls.Id(networkId), "actions", "delete_route"], None)
    ensures c.init == Base.RequestInit(Some("POST"), None, Some(params))
  {
    Calls.Post(["networks", Calls.Id(networkId), "actions", "delete_route"], Some(params))
  }

  /** `addSubnet`: POST to `/networks/{networkId}/actions/add_subnet` with `params` as the body. */
  function AddSubnet(networkId: int, params: Value): (c: Calls.Call)
    ensures Endpoint.Parse(c.endpoint) == Endpoint.Target(["networks", Calls.Id(networkId), "actions", "add_subnet"], None)
    ensures c.init == Base.RequestInit(Some("POST"), None, Some(params))
  {
    Calls.Post(["networks", Calls.Id(networkId), "actions", "add_subnet"], Some(params))
  }

  /** `deleteSubnet`: POST to `/networks/{networkId}/actions/delete_subnet` with `params` as the body. */
  function DeleteSubnet(networkId: int, params: Value): (c: Calls.Call)
    ensures Endpoint.Parse(c.endpoint) == Endpoint.Target(["networks", Calls.Id(networkId), "actions", "delete_subnet"], None)
    ensures c.init == Base.RequestInit(Some("POST"), None, Some(params))
  {
    Calls.Post(["networks", Calls.Id(networkId), "actions", "delete_subnet"], Some(params))
  }

  /** `changeIPRange`: POST to `/networks/{networkId}/actions/change_ip_range` with `params` as the body. */
  function ChangeIPRange(networkId: int, params: Value): (c: Calls.Call)
    ensures Endpoint.Parse(c.endpoint) == Endpoint.Target(["networks", Calls.Id(networkId), "actions", "change_ip_range"], None)
    ensures c.init == Base.RequestInit(Some("POST"), None, Some(params))
  {
    Calls.Post(["networks", Calls.Id(networkId), "actions", "change_ip_range"], Some(params))
  }

  /** `changeProtection`: POST to `/networks/{networkId}/actions/change_protection` with `params` as the body. */
  function ChangeProtection(networkId: int, params: Value): (c: Calls.Call)
    ensures Endpoint.Parse(c.endpoint) == Endpoint.Target(["networks", Calls.Id(networkId), "actions", "change_protection"], None)
    ensures c.init == Base.RequestInit(Some("POST"), None, Some(params))
  {
    Calls.Post(["networks", Calls.Id(networkId), "actions", "change_protection"], Some(params))
  }
}

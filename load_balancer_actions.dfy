/**
 * `LoadBalancerActions` (load-balancers/actions.ts): each method is modelled by the call it
 * hands to `request`.
 */
module LoadBalancerActions {
  import opened Wrappers
  import opened JsValue
  import Base
  import Endpoint
  import Calls
  import QueryPairs
  import QueryBuilder

  /** An instance of `LoadBalancerActions`: all it holds is what it inherits from `BaseAPI`. */
  class LoadBalancerActions {
    const api: Base.BaseAPI

    /** `new LoadBalancerActions(token)` */
    constructor(token: string)
      ensures api.token == token && api.baseUrl == Base.DefaultBaseUrl
    {
      api := Base.New(token);
    }
  }

  /**
   * `listAllGlobal`: GET on `/load_balancers/actions`, followed by `?` and the query only when the query is not empty; the pairs come from
   * `params` with undefined entries skipped, each array element its own pair under the key.
   */
  method ListAllGlobal(params: Option<seq<QueryPairs.Entry>>) returns (r: Result<Calls.Call, Thrown>)
    ensures r == Calls.List(["load_balancers", "actions"], QueryPairs.Pairs(QueryPairs.Expanding, QueryPairs.EntriesOf(params)))
  {
    var pairs := QueryBuilder.Build(QueryPairs.Expanding, params);
    r := Calls.List(["load_balancers", "actions"], pairs);
  }

  /** `getGlobalAction`: GET on `/load_balancers/actions/{actionId}`. */
  function GetGlobalAction(actionId: int): (c: Calls.Call)
    ensures Endpoint.Parse(c.endpoint) == Endpoint.Target(["load_balancers", "actions", Calls.Id(actionId)], None)
    ensures c.init == Base.NoOptions
  {
    Calls.Get(["load_balancers", "actions", Calls.Id(actionId)])
  }

  /**
   * `listForLoadBalancer`: GET on `/load_balancers/{loadBalancerId}/actions`, followed by `?` and the query only when the query is not empty; the pairs come from
   * `params` with undefined entries skipped, each array element its own pair under the key.
   */
  method ListForLoadBalancer(loadBalancerId: int, params: Option<seq<QueryPairs.Entry>>) returns (r: Result<Calls.Call, Thrown>)
    ensures r == Calls.List(["load_balancers", Calls.Id(loadBalancerId), "actions"], QueryPairs.Pairs(QueryPairs.Expanding, QueryPairs.EntriesOf(params)))
  {
    var pairs := QueryBuilder.Build(QueryPairs.Expanding, params);
    r := Calls.List(["load_balancers", Calls.Id(loadBalancerId), "actions"], pairs);
  }

  /** `getAction`: GET on `/load_balancers/{loadBalancerId}/actions/{actionId}`. */
  function GetAction(loadBalancerId: int, actionId: int): (c: Calls.Call)
    ensures Endpoint.Parse(c.endpoint) == Endpoint.Target(["load_balancers", Calls.Id(loadBalancerId), "actions", Calls.Id(actionId)], None)
    ensures c.init == Base.NoOptions
  {
    Calls.Get(["load_balancers", Calls.Id(loadBalancerId), "actions", Calls.Id(actionId)])
  }

  /** `addService`: POST to `/load_balancers/{loadBalancerId}/actions/add_service` with `params` as the body. */
  function AddService(loadBalancerId: int, params: Value): (c: Calls.Call)
    ensures Endpoint.Parse(c.endpoint) == Endpoint.Target(["load_balancers", Calls.Id(loadBalancerId), "actions", "add_service"], None)
    ensures c.init == Base.RequestInit(Some("POST"), None, Some(params))
  {
    Calls.Post(["load_balancers", Calls.Id(loadBalancerId), "actions", "add_service"], Some(params))
  }

  /** `updateService`: POST to `/load_balancers/{loadBalancerId}/actions/update_service` with `params` as the body. */
  function UpdateService(loadBalancerId: int, params: Value): (c: Calls.Call)
    ensures Endpoint.Parse(c.endpoint) == Endpoint.Target(["load_balancers", Calls.Id(loadBalancerId), "actions", "update_service"], None)
    ensures c.init == Base.RequestInit(Some("POST"), None, Some(params))
  {
    Calls.Post(["load_balancers", Calls.Id(loadBalancerId), "actions", "update_service"], Some(params))
  }

  /** `deleteService`: POST to `/load_balancers/{loadBalancerId}/actions/delete_service` with `params` as the body. */
  function DeleteService(loadBalancerId: int, params: Value): (c: Calls.Call)
    ensures Endpoint.Parse(c.endpoint) == Endpoint.Target(["load_balancers", Calls.Id(loadBalancerId), "actions", "delete_service"], None)
    ensures c.init == Base.RequestInit(Some("POST"), None, Some(params))
  {
    Calls.Post(["load_balancers", Calls.Id(loadBalancerId), "actions", "delete_service"], Some(params))
  }

  /** `addTarget`: POST to `/load_balancers/{loadBalancerId}/actions/add_target` with `params` as the body. */
  function AddTarget(loadBalancerId: int, params: Value): (c: Calls.Call)
    ensures Endpoint.Parse(c.endpoint) == Endpoint.Target(["load_balancers", Calls.Id(loadBalancerId), "actions", "add_target"], None)
    ensures c.init == Base.RequestInit(Some("POST"), None, Some(params))
  {
    Calls.Post(["load_balancers", Calls.Id(loadBalancerId), "actions", "add_target"], Some(params))
  }

  /** `removeTarget`: POST to `/load_balancers/{loadBalancerId}/actions/remove_target` with `params` as the body. */
  function RemoveTarget(loadBalancerId: int, params: Value): (c: Calls.Call)
    ensures Endpoint.Parse(c.endpoint) == Endpoint.Target(["load_balancers", Calls.Id(loadBalancerId), "actions", "remove_target"], None)
    ensures c.init == Base.RequestInit(Some("POST"), None, Some(params))
  {
    Calls.Post(["load_balancers", Calls.Id(loadBalancerId), "actions", "remove_target"], Some(params))
  }

  /** `attachToNetwork`: POST to `/load_balancers/{loadBalancerId}/actions/attach_to_network` with `params` as the body. */
  function AttachToNetwork(loadBalancerId: int, params: Value): (c: Calls.Call)
    ensures Endpoint.Parse(c.endpoint) == Endpoint.Target(["load_balancers", Calls.Id(loadBalancerId), "actions", "attach_to_network"], None)
    ensures c.init == Base.RequestInit(Some("POST"), None, Some(params))
  {
    Calls.Post(["load_balancers", Calls.Id(loadBalancerId), "actions", "attach_to_network"], Some(params))
  }

  /** `detachFromNetwork`: POST to `/load_balancers/{loadBalancerId}/actions/detach_from_network` with `params` as the body. */
  function DetachFromNetwork(loadBalancerId: int, params: Value): (c: Calls.Call)
    ensures Endpoint.Parse(c.endpoint) == Endpoint.Target(["load_balancers", Calls.Id(loadBalancerId), "actions", "detach_from_network"], None)
    ensures c.init == Base.RequestInit(Some("POST"), None, Some(params))
  {
    Calls.Post(["load_balancers", Calls.Id(loadBalancerId), "actions", "detach_from_network"], Some(params))
  }

  /** `changeAlgorithm`: POST to `/load_balancers/{loadBalancerId}/actions/change_algorithm` with `params` as the body. */
  function ChangeAlgorithm(loadBalancerId: int, params: Value): (c: Calls.Call)
    ensures Endpoint.Parse(c.endpoint) == Endpoint.Target(["load_balancers", Calls.Id(loadBalancerId), "actions", "change_algorithm"], None)
    ensures c.init == Base.RequestInit(Some("POST"), None, Some(params))
  {
    Calls.Post(["load_balancers", Calls.Id(loadBalancerId), "actions", "change_algorithm"], Some(params))
  }

  /** `changeDNSPTR`: POST to `/load_balancers/{loadBalancerId}/actions/change_dns_ptr` with `params` as the body. */
  function ChangeDNSPTR(loadBalancerId: int, params: Value): (c: Calls.Call)
    ensures Endpoint.Parse(c.endpoint) == Endpoint.Target(["load_balancers", Calls.Id(loadBalancerId), "actions", "change_dns_ptr"], None)
    ensures c.init == Base.RequestInit(Some("POST"), None, Some(params))
  {
    Calls.Post(["load_balancers", Calls.Id(loadBalancerId), "actions", "change_dns_ptr"], Some(params))
  }

  /** `changeProtection`: POST to `/load_balancers/{loadBalancerId}/actions/change_protection` with `params` as the body. */
  function ChangeProtection(loadBalancerId: int, params: Value): (c: Calls.Call)
    ensures Endpoint.Parse(c.endpoint) == Endpoint.Target(["load_balancers", Calls.Id(loadBalancerId), "actions", "change_protection"], None)
    ensures c.init == Base.RequestInit(Some("POST"), None, Some(params))
  {
    Calls.Post(["load_balancers", Calls.Id(loadBalancerId), "actions", "change_protection"], Some(params))
  }

  /** `changeType`: POST to `/load_balancers/{loadBalancerId}/actions/change_type` with `params` as the body. */
  function ChangeType(loadBalancerId: int, params: Value): (c: Calls.Call)
    ensures Endpoint.Parse(c.endpoint) == Endpoint.Target(["load_balancers", Calls.Id(loadBalancerId), "actions", "change_type"], None)
    ensures c.init == Base.RequestInit(Some("POST"), None, Some(params))
  {
    Calls.Post(["load_balancers", Calls.Id(loadBalancerId), "actions", "change_type"], Some(params))
  }

  /** `enablePublicInterface`: POST to `/load_balancers/{loadBalancerId}/actions/enable_public_interface` with no body. */
  function EnablePublicInterface(loadBalancerId: int): (c: Calls.Call)
    ensures Endpoint.Parse(c.endpoint) == Endpoint.Target(["load_balancers", Calls.Id(loadBalancerId), "actions", "enable_public_interface"], None)
    ensures c.init == Base.RequestInit(Some("POST"), None, None)
  {
    Calls.Post(["load_balancers", Calls.Id(loadBalancerId), "actions", "enable_public_interface"], None)
  }

  /** `disablePublicInterface`: POST to `/load_balancers/{loadBalancerId}/actions/disable_public_interface` with no body. */
  function DisablePublicInterface(loadBalancerId: int): (c: Calls.Call)
    ensures Endpoint.Parse(c.endpoint) == Endpoint.Target(["load_balancers", Calls.Id(loadBalancerId), "actions", "disable_public_interface"], None)
    ensures c.init == Base.RequestInit(Some("POST"), None, None)
  {
    Calls.Post(["load_balancers", Calls.Id(loadBalancerId), "actions", "disable_public_interface"], None)
  }
}

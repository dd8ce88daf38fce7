/**
 * `FloatingIPActions` (floating-ips/actions.ts): each method is modelled by the call it
 * hands to `request`.
 */
module FloatingIPActions {
  import opened Wrappers
  import opened JsValue
  import Base
  import Endpoint
  import Calls
  import QueryPairs
  import QueryBuilder

  /** An instance of `FloatingIPActions`: all it holds is what it inherits from `BaseAPI`. */
  class FloatingIPActions {
    const api: Base.BaseAPI

    /** `new FloatingIPActions(token)` */
    constructor(token: string)
      ensures api.token == token && api.baseUrl == Base.DefaultBaseUrl
    {
      api := Base.New(token);
    }
  }

  /**
   * `getAll`: GET on `/floating_ips/actions`, followed by `?` and the query only when the query is not empty; the pairs come from
   * `params` with undefined entries skipped, one pair per key, arrays comma-joined by `toString()`.
   */
  method GetAll(params: Option<seq<QueryPairs.Entry>>) returns (r: Result<Calls.Call, Thrown>)
    ensures r == Calls.List(["floating_ips", "actions"], QueryPairs.Pairs(QueryPairs.OnePerKey, QueryPairs.EntriesOf(params)))
  {
    var pairs := QueryBuilder.Build(QueryPairs.OnePerKey, params);
    r := Calls.List(["floating_ips", "actions"], pairs);
  }

  /** `get`: GET on `/floating_ips/actions/{actionId}`. */
  function Get(actionId: int): (c: Calls.Call)
    ensures Endpoint.Parse(c.endpoint) == Endpoint.Target(["floating_ips", "actions", Calls.Id(actionId)], None)
    ensures c.init == Base.NoOptions
  {
    Calls.Get(["floating_ips", "actions", Calls.Id(actionId)])
  }

  /**
   * `listForFloatingIP`: GET on `/floating_ips/{floatingIpId}/actions`, followed by `?` and the query only when the query is not empty; the pairs come from
   * `params` with undefined entries skipped, one pair per key, arrays comma-joined by `toString()`.
   */
  method ListForFloatingIP(floatingIpId: int, params: Option<seq<QueryPairs.Entry>>) returns (r: Result<Calls.Call, Thrown>)
    ensures r == Calls.List(["floating_ips", Calls.Id(floatingIpId), "actions"], QueryPairs.Pairs(QueryPairs.OnePerKey, QueryPairs.EntriesOf(params)))
  {
    var pairs := QueryBuilder.Build(QueryPairs.OnePerKey, params);
    r := Calls.List(["floating_ips", Calls.Id(floatingIpId), "actions"], pairs);
  }

  /** `assign`: POST to `/floating_ips/{floatingIpId}/actions/assign` with `params` as the body. */
  function Assign(floatingIpId: int, params: Value): (c: Calls.Call)
    ensures Endpoint.Parse(c.endpoint) == Endpoint.Target(["floating_ips", Calls.Id(floatingIpId), "actions", "assign"], None)
    ensures c.init == Base.RequestInit(Some("POST"), None, Some(params))
  {
    Calls.Post(["floating_ips", Calls.Id(floatingIpId), "actions", "assign"], Some(params))
  }

  /** `unassign`: POST to `/floating_ips/{floatingIpId}/actions/unassign` with no body. */
  function Unassign(floatingIpId: int): (c: Calls.Call)
    ensures Endpoint.Parse(c.endpoint) == Endpoint.Target(["floating_ips", Calls.Id(floatingIpId), "actions", "unassign"], None)
    ensures c.init == Base.RequestInit(Some("POST"), None, None)
  {
    Calls.Post(["floating_ips", Calls.Id(floatingIpId), "actions", "unassign"], None)
  }

  /** `changeDNSPTR`: POST to `/floating_ips/{floatingIpId}/actions/change_dns_ptr` with `params` as the body. */
  function ChangeDNSPTR(floatingIpId: int, params: Value): (c: Calls.Call)
    ensures Endpoint.Parse(c.endpoint) == Endpoint.Target(["floating_ips", Calls.Id(floatingIpId), "actions", "change_dns_ptr"], None)
    ensures c.init == Base.RequestInit(Some("POST"), None, Some(params))
  {
    Calls.Post(["floating_ips", Calls.Id(floatingIpId), "actions", "change_dns_ptr"], Some(params))
  }

  /** `changeProtection`: POST to `/floating_ips/{floatingIpId}/actions/change_protection` with `params` as the body. */
  function ChangeProtection(floatingIpId: int, params: Value): (c: Calls.Call)
    ensures Endpoint.Parse(c.endpoint) == Endpoint.Target(["floating_ips", Calls.Id(floatingIpId), "actions", "change_protection"], None)
    ensures c.init == Base.RequestInit(Some("POST"), None, Some(params))
  {
    Calls.Post(["floating_ips", Calls.Id(floatingIpId), "actions", "change_protection"], Some(params))
  }

  /** `getForFloatingIP`: GET on `/floating_ips/{floatingIpId}/actions/{actionId}`. */
  function GetForFloatingIP(floatingIpId: int, actionId: int): (c: Calls.Call)
    ensures Endpoint.Parse(c.endpoint) == Endpoint.Target(["floating_ips", Calls.Id(floatingIpId), "actions", Calls.Id(actionId)], None)
    ensures c.init == Base.NoOptions
  {
    Calls.Get(["floating_ips", Calls.Id(floatingIpId), "actions", Calls.Id(actionId)])
  }
}

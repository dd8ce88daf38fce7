/**
 * `FirewallActions` (firewalls/actions.ts): each method is modelled by the call it
 * hands to `request`.
 */
module FirewallActions {
  import opened Wrappers
  import opened JsValue
  import Base
  import Endpoint
  import Calls
  import QueryPairs
  import QueryBuilder

  /** An instance of `FirewallActions`: all it holds is what it inherits from `BaseAPI`. */
  class FirewallActions {
    const api: Base.BaseAPI

    /** `new FirewallActions(token)` */
    constructor(token: string)
      ensures api.token == token && api.baseUrl == Base.DefaultBaseUrl
    {
      api := Base.New(token);
    }
  }

  /**
   * `getAll`: GET on `/firewalls/actions`, followed by `?` and the query only when the query is not empty; the pairs come from
   * `params` with undefined entries skipped, one pair per key, arrays comma-joined by `toString()`.
   */
  method GetAll(params: Option<seq<QueryPairs.Entry>>) returns (r: Result<Calls.Call, Thrown>)
    ensures r == Calls.List(["firewalls", "actions"], QueryPairs.Pairs(QueryPairs.OnePerKey, QueryPairs.EntriesOf(params)))
  {
    var pairs := QueryBuilder.Build(QueryPairs.OnePerKey, params);
    r := Calls.List(["firewalls", "actions"], pairs);
  }

  /** `get`: GET on `/firewalls/{firewallId}/actions/{actionId}`. */
  function Get(firewallId: int, actionId: int): (c: Calls.Call)
    ensures Endpoint.Parse(c.endpoint) == Endpoint.Target(["firewalls", Calls.Id(firewallId), "actions", Calls.Id(actionId)], None)
    ensures c.init == Base.NoOptions
  {
    Calls.Get(["firewalls", Calls.Id(firewallId), "actions", Calls.Id(actionId)])
  }

  /** `applyToResources`: POST to `/firewalls/{firewallId}/actions/apply_to_resources` with the body `{apply_to: resources}`. */
  function ApplyToResources(firewallId: int, resources: Value): (c: Calls.Call)
    ensures Endpoint.Parse(c.endpoint) == Endpoint.Target(["firewalls", Calls.Id(firewallId), "actions", "apply_to_resources"], None)
    ensures c.init == Base.RequestInit(Some("POST"), None, Some(Obj([("apply_to", resources)])))
  {
    Calls.Post(["firewalls", Calls.Id(firewallId), "actions", "apply_to_resources"], Some(Obj([("apply_to", resources)])))
  }

  /** `removeFromResources`: POST to `/firewalls/{firewallId}/actions/remove_from_resources` with the body `{remove_from: resources}`. */
  function RemoveFromResources(firewallId: int, resources: Value): (c: Calls.Call)
    ensures Endpoint.Parse(c.endpoint) == Endpoint.Target(["firewalls", Calls.Id(firewallId), "actions", "remove_from_resources"], None)
    ensures c.init == Base.RequestInit(Some("POST"), None, Some(Obj([("remove_from", resources)])))
  {
    Calls.Post(["firewalls", Calls.Id(firewallId), "actions", "remove_from_resources"], Some(Obj([("remove_from", resources)])))
  }

  /** `setRules`: POST to `/firewalls/{firewallId}/actions/set_rules` with the body `{rules: rules}`. */
  function SetRules(firewallId: int, rules: Value): (c: Calls.Call)
    ensures Endpoint.Parse(c.endpoint) == Endpoint.Target(["firewalls", Calls.Id(firewallId), "actions", "set_rules"], None)
    ensures c.init == Base.RequestInit(Some("POST"), None, Some(Obj([("rules", rules)])))
  {
    Calls.Post(["firewalls", Calls.Id(firewallId), "actions", "set_rules"], Some(Obj([("rules", rules)])))
  }

  /**
   * `getFirewallActions`: GET on `/firewalls/{firewallId}/actions`, followed by `?` and the query only when the query is not empty; the pairs come from
   * `params` with undefined entries skipped, one pair per key, arrays comma-joined by `toString()`.
   */
  method GetFirewallActions(firewallId: int, params: Option<seq<QueryPairs.Entry>>) returns (r: Result<Calls.Call, Thrown>)
    ensures r == Calls.List(["firewalls", Calls.Id(firewallId), "actions"], QueryPairs.Pairs(QueryPairs.OnePerKey, QueryPairs.EntriesOf(params)))
  {
    var pairs := QueryBuilder.Build(QueryPairs.OnePerKey, params);
    r := Calls.List(["firewalls", Calls.Id(firewallId), "actions"], pairs);
  }

  /** `getFirewallAction`: GET on `/firewalls/{firewallId}/actions/{actionId}`. */
  function GetFirewallAction(firewallId: int, actionId: int): (c: Calls.Call)
    ensures Endpoint.Parse(c.endpoint) == Endpoint.Target(["firewalls", Calls.Id(firewallId), "actions", Calls.Id(actionId)], None)
    ensures c.init == Base.NoOptions
  {
    Calls.Get(["firewalls", Calls.Id(firewallId), "actions", Calls.Id(actionId)])
  }

  /** `get` and `getFirewallAction` are two names for the same call. */
  lemma GetIsGetFirewallAction(firewallId: int, actionId: int)
    ensures Get(firewallId, actionId) == GetFirewallAction(firewallId, actionId)
  {
  }
}

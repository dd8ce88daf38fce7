/**
 * `VolumeActions` (volumes/actions.ts): each method is modelled by the call it
 * hands to `request`.
 */
module VolumeActions {
  import opened Wrappers
  import opened JsValue
  import Base
  import Endpoint
  import Calls
  import QueryPairs
  import QueryBuilder

  /** An instance of `VolumeActions`: all it holds is what it inherits from `BaseAPI`. */
  class VolumeActions {
    const api: Base.BaseAPI

    /** `new VolumeActions(token)` */
    constructor(token: string)
      ensures api.token == token && api.baseUrl == Base.DefaultBaseUrl
    {
      api := Base.New(token);
    }
  }

  /**
   * `getAll`: GET on `/volumes/actions`, followed by `?` and the query only when the query is not empty; the pairs come from
   * `params` with undefined entries skipped, each array element its own pair under the key.
   */
  method GetAll(params: Option<seq<QueryPairs.Entry>>) returns (r: Result<Calls.Call, Thrown>)
    ensures r == Calls.List(["volumes", "actions"], QueryPairs.Pairs(QueryPairs.Expanding, QueryPairs.EntriesOf(params)))
  {
    var pairs := QueryBuilder.Build(QueryPairs.Expanding, params);
    r := Calls.List(["volumes", "actions"], pairs);
  }

  /** `getGlobalAction`: GET on `/volumes/actions/{actionId}`. */
  function GetGlobalAction(actionId: int): (c: Calls.Call)
    ensures Endpoint.Parse(c.endpoint) == Endpoint.Target(["volumes", "actions", Calls.Id(actionId)], None)
    ensures c.init == Base.NoOptions
  {
    Calls.Get(["volumes", "actions", Calls.Id(actionId)])
  }

  /**
   * `listForVolume`: GET on `/volumes/{volumeId}/actions`, followed by `?` and the query only when the query is not empty; the pairs come from
   * `params` with undefined entries skipped, each array element its own pair under the key.
   */
  method ListForVolume(volumeId: int, params: Option<seq<QueryPairs.Entry>>) returns (r: Result<Calls.Call, Thrown>)
    ensures r == Calls.List(["volumes", Calls.Id(volumeId), "actions"], QueryPairs.Pairs(QueryPairs.Expanding, QueryPairs.EntriesOf(params)))
  {
    var pairs := QueryBuilder.Build(QueryPairs.Expanding, params);
    r := Calls.List(["volumes", Calls.Id(volumeId), "actions"], pairs);
  }

  /** `getAction`: GET on `/volumes/{volumeId}/actions/{actionId}`. */
  function GetAction(volumeId: int, actionId: int): (c: Calls.Call)
    ensures Endpoint.Parse(c.endpoint) == Endpoint.Target(["volumes", Calls.Id(volumeId), "actions", Calls.Id(actionId)], None)
    ensures c.init == Base.NoOptions
  {
    Calls.Get(["volumes", Calls.Id(volumeId), "actions", Calls.Id(actionId)])
  }

  /** `attach`: POST to `/volumes/{volumeId}/actions/attach` with `params` as the body. */
  function Attach(volumeId: int, params: Value): (c: Calls.Call)
    ensures Endpoint.Parse(c.endpoint) == Endpoint.Target(["volumes", Calls.Id(volumeId), "actions", "attach"], None)
    ensures c.init == Base.RequestInit(Some("POST"), None, Some(params))
  {
    Calls.Post(["volumes", Calls.Id(volumeId), "actions", "attach"], Some(params))
  }

  /** `detach`: POST to `/volumes/{volumeId}/actions/detach` with no body. */
  function Detach(volumeId: int): (c: Calls.Call)
    ensures Endpoint.Parse(c.endpoint) == Endpoint.Target(["volumes", Calls.Id(volumeId), "actions", "detach"], None)
    ensures c.init == Base.RequestInit(Some("POST"), None, None)
  {
    Calls.Post(["volumes", Calls.Id(volumeId), "actions", "detach"], None)
  }

  /** `resize`: POST to `/volumes/{volumeId}/actions/resize` with `params` as the body. */
  function Resize(volumeId: int, params: Value): (c: Calls.Call)
    ensures Endpoint.Parse(c.endpoint) == Endpoint.Target(["volumes", Calls.Id(volumeId), "actions", "resize"], None)
    ensures c.init == Base.RequestInit(Some("POST"), None, Some(params))
  {
    Calls.Post(["volumes", Calls.Id(volumeId), "actions", "resize"], Some(params))
  }

  /** `changeProtection`: POST to `/volumes/{volumeId}/actions/change_protection` with `params` as the body. */
  function ChangeProtection(volumeId: int, params: Value): (c: Calls.Call)
    ensures Endpoint.Parse(c.endpoint) == Endpoint.Target(["volumes", Calls.Id(volumeId), "actions", "change_protection"], None)
    ensures c.init == Base.RequestInit(Some("POST"), None, Some(params))
  {
    Calls.Post(["volumes", Calls.Id(volumeId), "actions", "change_protection"], Some(params))
  }
}

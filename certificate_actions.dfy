/**
 * `CertificateActions` (security/actions.ts): each method is modelled by the call it
 * hands to `request`.
 */
module CertificateActions {
  import opened Wrappers
  import opened JsValue
  import Base
  import Endpoint
  import Calls
  import QueryPairs
  import QueryBuilder

  /** An instance of `CertificateActions`: all it holds is what it inherits from `BaseAPI`. */
  class CertificateActions {
    const api: Base.BaseAPI

    /** `new CertificateActions(token)` */
    constructor(token: string)
      ensures api.token == token && api.baseUrl == Base.DefaultBaseUrl
    {
      api := Base.New(token);
    }
  }

  /**
   * `getAll`: GET on `/certificates/actions`, followed by `?` and the query only when the query is not empty; the pairs come from
   * `params` with arrays expanded into repeated keys before the undefined test, other undefined entries skipped.
   */
  method GetAll(params: Option<seq<QueryPairs.Entry>>) returns (r: Result<Calls.Call, Thrown>)
    ensures r == Calls.List(["certificates", "actions"], QueryPairs.Pairs(QueryPairs.ArrayFirst, QueryPairs.EntriesOf(params)))
  {
    var pairs := QueryBuilder.Build(QueryPairs.ArrayFirst, params);
    r := Calls.List(["certificates", "actions"], pairs);
  }

  /** `get`: GET on `/certificates/actions/{actionId}`. */
  function Get(actionId: int): (c: Calls.Call)
    ensures Endpoint.Parse(c.endpoint) == Endpoint.Target(["certificates", "actions", Calls.Id(actionId)], None)
    ensures c.init == Base.NoOptions
  {
    Calls.Get(["certificates", "actions", Calls.Id(actionId)])
  }

  /**
   * `listForCertificate`: GET on `/certificates/{certificateId}/actions`, followed by `?` and the query only when the query is not empty; the pairs come from
   * `params` with arrays expanded into repeated keys before the undefined test, other undefined entries skipped.
   */
  method ListForCertificate(certificateId: int, params: Option<seq<QueryPairs.Entry>>) returns (r: Result<Calls.Call, Thrown>)
    ensures r == Calls.List(["certificates", Calls.Id(certificateId), "actions"], QueryPairs.Pairs(QueryPairs.ArrayFirst, QueryPairs.EntriesOf(params)))
  {
    var pairs := QueryBuilder.Build(QueryPairs.ArrayFirst, params);
    r := Calls.List(["certificates", Calls.Id(certificateId), "actions"], pairs);
  }

  /** `getForCertificate`: GET on `/certificates/{certificateId}/actions/{actionId}`. */
  function GetForCertificate(certificateId: int, actionId: int): (c: Calls.Call)
    ensures Endpoint.Parse(c.endpoint) == Endpoint.Target(["certificates", Calls.Id(certificateId), "actions", Calls.Id(actionId)], None)
    ensures c.init == Base.NoOptions
  {
    Calls.Get(["certificates", Calls.Id(certificateId), "actions", Calls.Id(actionId)])
  }

  /** `retry`: POST to `/certificates/{certificateId}/actions/retry` with no body. */
  function Retry(certificateId: int): (c: Calls.Call)
    ensures Endpoint.Parse(c.endpoint) == Endpoint.Target(["certificates", Calls.Id(certificateId), "actions", "retry"], None)
    ensures c.init == Base.RequestInit(Some("POST"), None, None)
  {
    Calls.Post(["certificates", Calls.Id(certificateId), "actions", "retry"], None)
  }
}

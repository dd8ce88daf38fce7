/**
 * `Certificates` (security/certificates.ts): each method is modelled by the call it
 * hands to `request`.
 */
module Certificates {
  import opened Wrappers
  import opened JsValue
  import Base
  import Endpoint
  import Calls
  import QueryPairs
  import QueryBuilder
  import CertificateActions

  /** An instance of `Certificates`, with its lazily built sub-accessors. */
  class Certificates {
    const api: Base.BaseAPI
    var actionsCache: CertificateActions.CertificateActions?

    /** Every cached sub-accessor was built with this object's token. */
    predicate Valid()
      reads this
    {
      (actionsCache != null ==> actionsCache.api == Base.New(api.token))
    }

    /** `new Certificates(token)` */
    constructor(token: string)
      ensures api.token == token && api.baseUrl == Base.DefaultBaseUrl
      ensures actionsCache == null
      ensures Valid()
    {
      api := Base.New(token);
      actionsCache := null;
    }

    /**
     * `get actions()`: builds a `CertificateActions` with this object's token on the first
     * access and hands back that same object on every later one.
     */
    method Actions() returns (a: CertificateActions.CertificateActions)
      requires Valid()
      modifies this`actionsCache
      ensures Valid()
      ensures old(actionsCache) != null ==> a == old(actionsCache)
      ensures old(actionsCache) == null ==> fresh(a)
      ensures actionsCache == a
      ensures a.api == Base.New(api.token)
    {
      if actionsCache == null {
        actionsCache := new CertificateActions.CertificateActions(api.token);
      }
      a := actionsCache;
    }
  }

  /**
   * `getAll`: GET on `/certificates`, followed by `?` and the query only when the query is not empty; the pairs come from
   * `params` with undefined entries skipped, one pair per key, arrays comma-joined by `toString()`.
   */
  method GetAll(params: Option<seq<QueryPairs.Entry>>) returns (r: Result<Calls.Call, Thrown>)
    ensures r == Calls.List(["certificates"], QueryPairs.Pairs(QueryPairs.OnePerKey, QueryPairs.EntriesOf(params)))
  {
    var pairs := QueryBuilder.Build(QueryPairs.OnePerKey, params);
    r := Calls.List(["certificates"], pairs);
  }

  /** `get`: GET on `/certificates/{id}`. */
  function Get(id: int): (c: Calls.Call)
    ensures Endpoint.Parse(c.endpoint) == Endpoint.Target(["certificates", Calls.Id(id)], None)
    ensures c.init == Base.NoOptions
  {
    Calls.Get(["certificates", Calls.Id(id)])
  }

  /** `create`: POST to `/certificates` with `params` as the body. */
  function Create(params: Value): (c: Calls.Call)
    ensures Endpoint.Parse(c.endpoint) == Endpoint.Target(["certificates"], None)
    ensures c.init == Base.RequestInit(Some("POST"), None, Some(params))
  {
    Calls.Post(["certificates"], Some(params))
  }

  /** `update`: PUT on `/certificates/{id}` with `params` as the body. */
  function Update(id: int, params: Value): (c: Calls.Call)
    ensures Endpoint.Parse(c.endpoint) == Endpoint.Target(["certificates", Calls.Id(id)], None)
    ensures c.init == Base.RequestInit(Some("PUT"), None, Some(params))
  {
    Calls.Put(["certificates", Calls.Id(id)], params)
  }

  /** `delete`: DELETE on `/certificates/{id}`. */
  function Delete(id: int): (c: Calls.Call)
    ensures Endpoint.Parse(c.endpoint) == Endpoint.Target(["certificates", Calls.Id(id)], None)
    ensures c.init == Base.RequestInit(Some("DELETE"), None, None)
  {
    Calls.Delete(["certificates", Calls.Id(id)])
  }
}

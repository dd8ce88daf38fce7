/**
 * `SSHKeys` (security/security.ts): each method is modelled by the call it
 * hands to `request`.
 */
module SSHKeys {
  import opened Wrappers
  import opened JsValue
  import Base
  import Endpoint
  import Calls
  import QueryPairs
  import QueryBuilder

  /**
   * `getAll`: GET on `/ssh_keys`, followed by `?` and the query only when the query is not empty; the pairs come from
   * `params` with undefined entries skipped, one pair per key, arrays comma-joined by `toString()`.
   */
  method GetAll(params: Option<seq<QueryPairs.Entry>>) returns (r: Result<Calls.Call, Thrown>)
    ensures r == Calls.List(["ssh_keys"], QueryPairs.Pairs(QueryPairs.OnePerKey, QueryPairs.EntriesOf(params)))
  {
    var pairs := QueryBuilder.Build(QueryPairs.OnePerKey, params);
    r := Calls.List(["ssh_keys"], pairs);
  }

  /** `get`: GET on `/ssh_keys/{id}`. */
  function Get(id: int): (c: Calls.Call)
    ensures Endpoint.Parse(c.endpoint) == Endpoint.Target(["ssh_keys", Calls.Id(id)], None)
    ensures c.init == Base.NoOptions
  {
    Calls.Get(["ssh_keys", Calls.Id(id)])
  }

  /** `create`: POST to `/ssh_keys` with `params` as the body. */
  function Create(params: Value): (c: Calls.Call)
    ensures Endpoint.Parse(c.endpoint) == Endpoint.Target(["ssh_keys"], None)
    ensures c.init == Base.RequestInit(Some("POST"), None, Some(params))
  {
    Calls.Post(["ssh_keys"], Some(params))
  }

  /** `update`: PUT on `/ssh_keys/{id}` with `params` as the body. */
  function Update(id: int, params: Value): (c: Calls.Call)
    ensures Endpoint.Parse(c.endpoint) == Endpoint.Target(["ssh_keys", Calls.Id(id)], None)
    ensures c.init == Base.RequestInit(Some("PUT"), None, Some(params))
  {
    Calls.Put(["ssh_keys", Calls.Id(id)], params)
  }

  /** `delete`: DELETE on `/ssh_keys/{id}`. */
  function Delete(id: int): (c: Calls.Call)
    ensures Endpoint.Parse(c.endpoint) == Endpoint.Target(["ssh_keys", Calls.Id(id)], None)
    ensures c.init == Base.RequestInit(Some("DELETE"), None, None)
  {
    Calls.Delete(["ssh_keys", Calls.Id(id)])
  }
}

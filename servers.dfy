/**
 * `Servers` (servers/servers.ts): each method is modelled by the call it
 * hands to `request`.
 */
module Servers {
  import opened Wrappers
  import opened JsValue
  import Base
  import Endpoint
  import Calls
  import QueryPairs
  import QueryBuilder
  import Decimal
  import PrimaryIPs
  import Images
  import PlacementGroups
  import Isos
  import ServerTypes

  /** An instance of `Servers`, with its lazily built sub-accessors. */
  class Servers {
    const api: Base.BaseAPI
    var primaryIPCache: PrimaryIPs.PrimaryIP?
    var imagesCache: Images.Images?
    var placementGroupsCache: PlacementGroups.PlacementGroup?
    var isosCache: Isos.Isos?
    var serverTypesCache: ServerTypes.ServerTypes?

    /** Every cached sub-accessor was built with this object's token. */
    predicate Valid()
      reads this
    {
      (primaryIPCache != null ==> primaryIPCache.api == Base.New(api.token))
      && (imagesCache != null ==> imagesCache.api == Base.New(api.token))
      && (placementGroupsCache != null ==> placementGroupsCache.api == Base.New(api.token))
      && (isosCache != null ==> isosCache.api == Base.New(api.token))
      && (serverTypesCache != null ==> serverTypesCache.api == Base.New(api.token))
    }

    /** `new Servers(token)` */
    constructor(token: string)
      ensures api.token == token && api.baseUrl == Base.DefaultBaseUrl
      ensures primaryIPCache == null && imagesCache == null && placementGroupsCache == null && isosCache == null && serverTypesCache == null
      ensures Valid()
    {
      api := Base.New(token);
      primaryIPCache := null;
      imagesCache := null;
      placementGroupsCache := null;
      isosCache := null;
      serverTypesCache := null;
    }

    /**
     * `get primaryIP()`: builds a `PrimaryIP` with this object's token on the first
     * access and hands back that same object on every later one.
     */
    method PrimaryIP() returns (a: PrimaryIPs.PrimaryIP)
      requires Valid()
      modifies this`primaryIPCache
      ensures Valid()
      ensures old(primaryIPCache) != null ==> a == old(primaryIPCache)
      ensures old(primaryIPCache) == null ==> fresh(a)
      ensures primaryIPCache == a
      ensures a.api == Base.New(api.token)
      ensures imagesCache == old(imagesCache) && placementGroupsCache == old(placementGroupsCache) && isosCache == old(isosCache) && serverTypesCache == old(serverTypesCache)
    {
      if primaryIPCache == null {
        primaryIPCache := new PrimaryIPs.PrimaryIP(api.token);
      }
      a := primaryIPCache;
    }

    /**
     * `get images()`: builds a `Images` with this object's token on the first
     * access and hands back that same object on every later one.
     */
    method Images() returns (a: Images.Images)
      requires Valid()
      modifies this`imagesCache
      ensures Valid()
      ensures old(imagesCache) != null ==> a == old(imagesCache)
      ensures old(imagesCache) == null ==> fresh(a)
      ensures imagesCache == a
      ensures a.api == Base.New(api.token)
      ensures primaryIPCache == old(primaryIPCache) && placementGroupsCache == old(placementGroupsCache) && isosCache == old(isosCache) && serverTypesCache == old(serverTypesCache)
    {
      if imagesCache == null {
        imagesCache := new Images.Images(api.token);
      }
      a := imagesCache;
    }

    /**
     * `get placementGroups()`: builds a `PlacementGroup` with this object's token on the first
     * access and hands back that same object on every later one.
     */
    method PlacementGroups() returns (a: PlacementGroups.PlacementGroup)
      requires Valid()
      modifies this`placementGroupsCache
      ensures Valid()
      ensures old(placementGroupsCache) != null ==> a == old(placementGroupsCache)
      ensures old(placementGroupsCache) == null ==> fresh(a)
      ensures placementGroupsCache == a
      ensures a.api == Base.New(api.token)
      ensures primaryIPCache == old(primaryIPCache) && imagesCache == old(imagesCache) && isosCache == old(isosCache) && serverTypesCache == old(serverTypesCache)
    {
      if placementGroupsCache == null {
        placementGroupsCache := new PlacementGroups.PlacementGroup(api.token);
      }
      a := placementGroupsCache;
    }

    /**
     * `get isos()`: builds a `Isos` with this object's token on the first
     * access and hands back that same object on every later one.
     */
    method Isos() returns (a: Isos.Isos)
      requires Valid()
      modifies this`isosCache
      ensures Valid()
      ensures old(isosCache) != null ==> a == old(isosCache)
      ensures old(isosCache) == null ==> fresh(a)
      ensures isosCache == a
      ensures a.api == Base.New(api.token)
      ensures primaryIPCache == old(primaryIPCache) && imagesCache == old(imagesCache) && placementGroupsCache == old(placementGroupsCache) && serverTypesCache == old(serverTypesCache)
    {
      if isosCache == null {
        isosCache := new Isos.Isos(api.token);
      }
      a := isosCache;
    }

    /**
     * `get serverTypes()`: builds a `ServerTypes` with this object's token on the first
     * access and hands back that same object on every later one.
     */
    method ServerTypes() returns (a: ServerTypes.ServerTypes)
      requires Valid()
      modifies this`serverTypesCache
      ensures Valid()
      ensures old(serverTypesCache) != null ==> a == old(serverTypesCache)
      ensures old(serverTypesCache) == null ==> fresh(a)
      ensures serverTypesCache == a
      ensures a.api == Base.New(api.token)
      ensures primaryIPCache == old(primaryIPCache) && imagesCache == old(imagesCache) && placementGroupsCache == old(placementGroupsCache) && isosCache == old(isosCache)
    {
      if serverTypesCache == null {
        serverTypesCache := new ServerTypes.ServerTypes(api.token);
      }
      a := serverTypesCache;
    }
  }

  /**
   * `list`: GET on `/servers`, followed by `?` and the query only when the query is not empty; the pairs come from
   * `params` with undefined entries skipped, one pair per key, arrays comma-joined by `toString()`.
   */
  method List(params: Option<seq<QueryPairs.Entry>>) returns (r: Result<Calls.Call, Thrown>)
    ensures r == Calls.List(["servers"], QueryPairs.Pairs(QueryPairs.OnePerKey, QueryPairs.EntriesOf(params)))
  {
    var pairs := QueryBuilder.Build(QueryPairs.OnePerKey, params);
    r := Calls.List(["servers"], pairs);
  }

  /** `get`: GET on `/servers/{id}`. */
  function Get(id: int): (c: Calls.Call)
    ensures Endpoint.Parse(c.endpoint) == Endpoint.Target(["servers", Calls.Id(id)], None)
    ensures c.init == Base.NoOptions
  {
    Calls.Get(["servers", Calls.Id(id)])
  }

  /** `create`: POST to `/servers` with `params` as the body. */
  function Create(params: Value): (c: Calls.Call)
    ensures Endpoint.Parse(c.endpoint) == Endpoint.Target(["servers"], None)
    ensures c.init == Base.RequestInit(Some("POST"), None, Some(params))
  {
    Calls.Post(["servers"], Some(params))
  }

  /** `delete`: DELETE on `/servers/{id}`. */
  function Delete(id: int): (c: Calls.Call)
    ensures Endpoint.Parse(c.endpoint) == Endpoint.Target(["servers", Calls.Id(id)], None)
    ensures c.init == Base.RequestInit(Some("DELETE"), None, None)
  {
    Calls.Delete(["servers", Calls.Id(id)])
  }

  /** `${step}`: the number, or the text `undefined` when `step` is omitted. */
  function StepText(step: Option<int>): string {
    match step
    case Some(n) => Calls.Id(n)
    case None => "undefined"
  }

  /** The query `getMetrics` writes: the four values interpolated as they are, nothing encoded. */
  function MetricsQuery(metricType: string, start: string, end: string, step: Option<int>): string {
    Endpoint.Join(["type=" + metricType, "start=" + start, "end=" + end, "step=" + StepText(step)], '&')
  }

  /** `getMetrics`: GET on `/servers/{id}/metrics` with the interpolated query. */
  function GetMetrics(id: int, metricType: string, start: string, end: string, step: Option<int>): (c: Calls.Call)
    ensures Endpoint.Parse(c.endpoint) ==
      Endpoint.Target(["servers", Calls.Id(id), "metrics"], Some(MetricsQuery(metricType, start, end, step)))
    ensures c.init == Base.NoOptions
  {
    Calls.GetWithQuery(["servers", Calls.Id(id), "metrics"], MetricsQuery(metricType, start, end, step))
  }

  lemma StepTextHasNoAmpersand(step: Option<int>)
    ensures '&' !in StepText(step)
  {
    if step.Some? {
      var s := StepText(step);
      forall k | 0 <= k < |s| ensures s[k] != '&' {
        assert Decimal.IsDigit(s[k]) || s[k] == '-';
      }
    }
  }

  /**
   * With values free of `&`, the query splits into exactly the four fields
   * in order; an omitted step is sent as `step=undefined`.
   */
  lemma MetricsFields(metricType: string, start: string, end: string, step: Option<int>)
    requires '&' !in metricType && '&' !in start && '&' !in end
    ensures Endpoint.Split(MetricsQuery(metricType, start, end, step), '&') ==
      ["type=" + metricType, "start=" + start, "end=" + end, "step=" + StepText(step)]
    ensures step.None? ==> StepText(step) == "undefined"
  {
    var fields := ["type=" + metricType, "start=" + start, "end=" + end, "step=" + StepText(step)];
    StepTextHasNoAmpersand(step);
    assert forall k | 0 <= k < |fields| :: '&' !in fields[k];
    Endpoint.SplitJoin(fields, '&');
  }

  /** Nothing is encoded: an `&` inside `start` splits it into a field of its own. */
  lemma AmpersandInStartSplitsIt(metricType: string, left: string, right: string, end: string, step: Option<int>)
    requires '&' !in metricType && '&' !in left && '&' !in right && '&' !in end
    ensures Endpoint.Split(MetricsQuery(metricType, left + "&" + right, end, step), '&') ==
      ["type=" + metricType, "start=" + left, right, "end=" + end, "step=" + StepText(step)]
  {
    var s := "start=" + left;
    var tail := ["end=" + end, "step=" + StepText(step)];
    var fields := ["type=" + metricType, s, right] + tail;
    var rest := Endpoint.Join(tail, '&');
    assert "start=" + (left + "&" + right) == s + ['&'] + right;
    assert (s + ['&'] + right) + ['&'] + rest == s + ['&'] + (right + ['&'] + rest);
    assert fields[1..] == [s, right] + tail && fields[2..] == [right] + tail && fields[3..] == tail;
    var t := "type=" + metricType;
    var written := [t, "start=" + (left + "&" + right)] + tail;
    assert written[1..][1..] == tail && fields[1..][1..][1..] == tail;
    assert Endpoint.Join(written, '&') == t + ['&'] + (("start=" + (left + "&" + right)) + ['&'] + rest);
    assert ([right] + tail)[1..] == tail && ([s, right] + tail)[1..] == [right] + tail;
    assert fields[1..] == [s, right] + tail;
    assert Endpoint.Join([right] + tail, '&') == right + ['&'] + rest;
    assert Endpoint.Join([s, right] + tail, '&') == s + ['&'] + (right + ['&'] + rest);
    assert Endpoint.Join(fields, '&') == t + ['&'] + (s + ['&'] + (right + ['&'] + rest));
    assert written == ["type=" + metricType, "start=" + (left + "&" + right), "end=" + end, "step=" + StepText(step)];
    assert MetricsQuery(metricType, left + "&" + right, end, step) == Endpoint.Join(written, '&');
    StepTextHasNoAmpersand(step);
    assert forall k | 0 <= k < |fields| :: '&' !in fields[k];
    Endpoint.SplitJoin(fields, '&');
  }

}

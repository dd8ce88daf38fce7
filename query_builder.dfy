/**
 * The query-building loop shared by the list methods: a `URLSearchParams`
 * object filled by `Object.entries(params).forEach(...)`, run for one of
 * the four `QueryPairs.Variant`s.
 */
module QueryBuilder {
  import opened Wrappers
  import opened JsValue
  import opened QueryPairs
  import FormUrlEncoded

  /** The part of `URLSearchParams` the client uses: an ordered list of pairs. */
  class SearchParams {
    var list: seq<Pair>

    /** `new URLSearchParams()` */
    constructor()
      ensures list == []
    {
      list := [];
    }

    /** `append(name, value)` adds a pair at the end, keeping earlier pairs with the same name. */
    method Append(name: string, value: string)
      modifies this
      ensures list == old(list) + [(name, value)]
    {
      list := list + [(name, value)];
    }

    /** `toString()`: the `application/x-www-form-urlencoded` serialization of the list. */
    function Serialized(): (q: string)
      reads this
      ensures q == "" <==> list == []
      ensures '?' !in q
    {
      FormUrlEncoded.Encode(list)
    }
  }

  /** `elems.forEach((v) => query.append(key, v.toString()))` */
  method AppendEach(query: SearchParams, key: string, elems: seq<Value>) returns (thrown: Option<Thrown>)
    modifies query
    ensures thrown.None? <==> EachElement(key, elems).Ok?
    ensures thrown.None? ==> query.list == old(query.list) + EachElement(key, elems).value
  {
    var j := 0;
    while j < |elems|
      invariant 0 <= j <= |elems|
      invariant EachElement(key, elems[..j]).Ok?
      invariant query.list == old(query.list) + EachElement(key, elems[..j]).value
    {
      assert elems[..j + 1][..j] == elems[..j];
      var s := ToString(elems[j]);
      if s.Err? {
        EachElementFails(key, elems);
        return Some(s.error);
      }
      query.Append(key, s.value);
      j := j + 1;
    }
    assert elems[..j] == elems;
    return None;
  }

  /**
   * The loop of a list method: walks the entries of `params` in order and
   * appends what `variant` makes of each; a `toString()` on null or
   * undefined aborts it with the exception.
   */
  method Build(variant: Variant, params: Option<seq<Entry>>) returns (r: Result<seq<Pair>, Thrown>)
    ensures r == Pairs(variant, EntriesOf(params))
  {
    var query := new SearchParams();
    var entries := if params.Some? then params.value else [];
    var i := 0;
    while i < |entries|
      invariant 0 <= i <= |entries|
      invariant Pairs(variant, entries[..i]) == Ok(query.list)
    {
      assert entries[..i + 1][..i] == entries[..i];
      var (key, value) := entries[i];
      ghost var before := query.list;
      ContributionFails(variant, entries[i]);
      if variant == ArrayFirst && value.Arr? {
        var thrown := AppendEach(query, key, value.elems);
        if thrown.Some? {
          PairsFail(variant, entries);
          assert Pairs(variant, entries).error == thrown.value;
          return Err(thrown.value);
        }
        assert Contribution(variant, entries[i]) == Ok(query.list[|before|..]);
      } else if value.Undef? || (variant == Present && (value.Null? || value == Str(""))) {
        assert Contribution(variant, entries[i]) == Ok([]);
        assert query.list[|before|..] == [];
      } else if variant == Expanding && value.Arr? {
        var thrown := AppendEach(query, key, value.elems);
        if thrown.Some? {
          PairsFail(variant, entries);
          assert Pairs(variant, entries).error == thrown.value;
          return Err(thrown.value);
        }
        assert Contribution(variant, entries[i]) == Ok(query.list[|before|..]);
      } else {
        var s := ToString(value);
        if s.Err? {
          assert Throws(variant, entries[i].1);
          PairsFail(variant, entries);
          assert Pairs(variant, entries).error == s.error;
          return Err(s.error);
        }
        query.Append(key, s.value);
        assert Contribution(variant, entries[i]) == Ok([(key, s.value)]);
        assert query.list[|before|..] == [(key, s.value)];
      }
      assert Contribution(variant, entries[i]) == Ok(query.list[|before|..]);
      assert query.list == before + query.list[|before|..];
      i := i + 1;
    }
    assert entries[..i] == entries;
    return Ok(query.list);
  }
}

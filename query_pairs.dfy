/**
 * What the list methods append to their `URLSearchParams`.  Every list
 * method walks `Object.entries(params)` in order; they differ only in how
 * one entry is turned into pairs, and the four ways found in the client
 * are the four `Variant`s.
 */
module QueryPairs {
  import opened Wrappers
  import opened JsValue
  import FormUrlEncoded
  import Decimal

  type Pair = FormUrlEncoded.Pair
  type Entry = (string, Value)

  datatype Variant =
    | OnePerKey   // skip undefined; `value.toString()` once per key, arrays comma-joined
    | Expanding   // skip undefined; an array becomes one pair per element
    | ArrayFirst  // test for an array before testing for undefined
    | Present     // skip undefined, null and ""; `value.toString()` once per key

  /** `if (params) Object.entries(params)`: no filter object means no entries. */
  function EntriesOf(params: Option<seq<Entry>>): seq<Entry> {
    params.GetOr([])
  }

  /** `queryParams.append(key, value.toString())` */
  function Single(key: string, value: Value): (r: Result<seq<Pair>, Thrown>)
    ensures r.Err? <==> value.Undef? || value.Null?
    ensures r.Ok? ==> r.value == [(key, Text(value))]
  {
    match ToString(value)
    case Err(t) => Err(t)
    case Ok(s) => Ok([(key, s)])
  }

  /** `elems.forEach((v) => queryParams.append(key, v.toString()))` */
  function EachElement(key: string, elems: seq<Value>): Result<seq<Pair>, Thrown> {
    if elems == [] then Ok([])
    else match EachElement(key, elems[..|elems| - 1])
      case Err(t) => Err(t)
      case Ok(before) =>
        match Single(key, elems[|elems| - 1])
        case Err(t) => Err(t)
        case Ok(more) => Ok(before + more)
  }

  /** The pairs one entry contributes, or the exception it raises. */
  function Contribution(variant: Variant, entry: Entry): Result<seq<Pair>, Thrown> {
    var (key, value) := entry;
    match variant
    case OnePerKey =>
      if value.Undef? then Ok([]) else Single(key, value)
    case Expanding =>
      if value.Undef? then Ok([])
      else if value.Arr? then EachElement(key, value.elems)
      else Single(key, value)
    case ArrayFirst =>
      if value.Arr? then EachElement(key, value.elems)
      else if value.Undef? then Ok([])
      else Single(key, value)
    case Present =>
      if value.Undef? || value.Null? || value == Str("") then Ok([])
      else Single(key, value)
  }

  /** Running the entries in order: the first exception aborts the whole call. */
  function Then(first: Result<seq<Pair>, Thrown>, second: Result<seq<Pair>, Thrown>): Result<seq<Pair>, Thrown> {
    match first
    case Err(t) => Err(t)
    case Ok(a) =>
      match second
      case Err(t) => Err(t)
      case Ok(b) => Ok(a + b)
  }

  /** The pairs the builder of `variant` appends for `entries`. */
  function Pairs(variant: Variant, entries: seq<Entry>): Result<seq<Pair>, Thrown> {
    if entries == [] then Ok([])
    else Then(Pairs(variant, entries[..|entries| - 1]), Contribution(variant, entries[|entries| - 1]))
  }

  // ---------------------------------------------------------------------
  // Independent descriptions of the variants

  /** Whether `variant` lets `value` through to `toString()` as one pair. */
  predicate Kept(variant: Variant, value: Value) {
    match variant
    case Present => !(value.Undef? || value.Null? || value == Str(""))
    case _ => !value.Undef?
  }

  /** The entries `variant` keeps, in their original order. */
  function KeptEntries(variant: Variant, entries: seq<Entry>): (r: seq<Entry>)
    ensures |r| <= |entries|
  {
    if entries == [] then []
    else
      var last := entries[|entries| - 1];
      KeptEntries(variant, entries[..|entries| - 1]) + (if Kept(variant, last.1) then [last] else [])
  }

  /** One pair per entry, the value written as `toString()` writes it. */
  function Rendered(entries: seq<Entry>): (r: seq<Pair>)
    ensures |r| == |entries|
    ensures forall k | 0 <= k < |r| :: r[k] == (entries[k].0, Text(entries[k].1))
  {
    seq(|entries|, k requires 0 <= k < |entries| => (entries[k].0, Text(entries[k].1)))
  }

  /** When an element of an array value makes `v.toString()` throw. */
  predicate HasMissingElement(value: Value) {
    value.Arr? && exists k | 0 <= k < |value.elems| :: value.elems[k].Undef? || value.elems[k].Null?
  }

  /** The entries that make the builder of `variant` throw. */
  predicate Throws(variant: Variant, value: Value) {
    match variant
    case OnePerKey => value.Null?
    case Expanding => value.Null? || HasMissingElement(value)
    case ArrayFirst => value.Null? || HasMissingElement(value)
    case Present => false
  }

  // ---------------------------------------------------------------------
  // Lemmas

  lemma {:induction false} EachElementFails(key: string, elems: seq<Value>)
    ensures EachElement(key, elems).Err? <==> HasMissingElement(Arr(elems))
    ensures EachElement(key, elems).Ok? ==>
      EachElement(key, elems).value == seq(|elems|, k requires 0 <= k < |elems| => (key, Text(elems[k])))
  {
    if elems != [] {
      var init := elems[..|elems| - 1];
      EachElementFails(key, init);
      assert forall k | 0 <= k < |init| :: init[k] == elems[k];
    }
  }

  /** A single entry throws exactly in the cases `Throws` lists. */
  lemma ContributionFails(variant: Variant, entry: Entry)
    ensures Contribution(variant, entry).Err? <==> Throws(variant, entry.1)
  {
    if entry.1.Arr? { EachElementFails(entry.0, entry.1.elems); }
  }

  /** Building for `a + b` is building for `a`, then for `b`. */
  lemma {:induction false} PairsAppend(variant: Variant, a: seq<Entry>, b: seq<Entry>)
    ensures Pairs(variant, a + b) == Then(Pairs(variant, a), Pairs(variant, b))
    decreases |b|
  {
    if b == [] {
      assert a + b == a;
      match Pairs(variant, a)
      case Err(_) =>
      case Ok(x) => assert x + [] == x;
    } else {
      var init := b[..|b| - 1];
      assert (a + b)[..|a + b| - 1] == a + init;
      assert (a + b)[|a + b| - 1] == b[|b| - 1];
      PairsAppend(variant, a, init);
      var c := Contribution(variant, b[|b| - 1]);
      match Pairs(variant, a)
      case Err(_) =>
      case Ok(x) =>
        match Pairs(variant, init)
        case Err(_) =>
        case Ok(y) =>
          match c
          case Err(_) =>
          case Ok(z) => assert x + y + z == x + (y + z);
    }
  }

  /** The call throws exactly when some entry throws. */
  lemma {:induction false} PairsFail(variant: Variant, entries: seq<Entry>)
    ensures Pairs(variant, entries).Err? <==>
      exists k | 0 <= k < |entries| :: Throws(variant, entries[k].1)
  {
    if entries != [] {
      var init := entries[..|entries| - 1];
      var last := entries[|entries| - 1];
      PairsFail(variant, init);
      ContributionFails(variant, last);
      if exists k | 0 <= k < |init| :: Throws(variant, init[k].1) {
        var k :| 0 <= k < |init| && Throws(variant, init[k].1);
        assert entries[k] == init[k];
      }
      if exists k | 0 <= k < |entries| :: Throws(variant, entries[k].1) {
        var k :| 0 <= k < |entries| && Throws(variant, entries[k].1);
        if k < |init| { assert init[k] == entries[k]; }
      }
    }
  }

  /** The variant that never expands arrays never throws on an array value. */
  lemma OnePerKeyJoinsArrays(key: string, elems: seq<Value>)
    ensures Pairs(OnePerKey, [(key, Arr(elems))]) == Ok([(key, Text(Arr(elems)))])
  {
    var entries := [(key, Arr(elems))];
    assert entries[..0] == [];
    var one := [(key, Text(Arr(elems)))];
    assert Pairs(OnePerKey, entries) == Then(Ok([]), Ok(one));
    assert [] + one == one;
  }

  /** The expanding variants give one pair per element, all under the same key, in element order. */
  lemma ExpandingRepeatsKey(variant: Variant, key: string, elems: seq<Value>)
    requires variant == Expanding || variant == ArrayFirst
    requires !HasMissingElement(Arr(elems))
    ensures Pairs(variant, [(key, Arr(elems))]) ==
      Ok(seq(|elems|, k requires 0 <= k < |elems| => (key, Text(elems[k]))))
  {
    var entries := [(key, Arr(elems))];
    assert entries[..0] == [];
    EachElementFails(key, elems);
    assert Contribution(variant, entries[0]) == EachElement(key, elems);
    var r := EachElement(key, elems).value;
    assert Pairs(variant, entries) == Then(Ok([]), Ok(r));
    assert [] + r == r;
  }

  /** An empty array contributes nothing when expanded, but `key=` when joined. */
  lemma EmptyArray(variant: Variant, key: string)
    ensures Pairs(variant, [(key, Arr([]))]) ==
      if variant == OnePerKey || variant == Present then Ok([(key, "")]) else Ok([])
  {
    var entries := [(key, Arr([]))];
    assert entries[..0] == [];
    var joined := [(key, "")];
    assert Text(Arr([])) == "";
    assert [] + joined == joined;
    if variant == OnePerKey || variant == Present {
      assert Pairs(variant, entries) == Then(Ok([]), Ok(joined));
    } else {
      var none: seq<Pair> := [];
      assert Pairs(variant, entries) == Then(Ok(none), Ok(none));
      assert none + none == none;
    }
  }

  /** Testing for an array before testing for undefined changes nothing. */
  lemma {:induction false} ArrayFirstIsExpanding(entries: seq<Entry>)
    ensures Pairs(ArrayFirst, entries) == Pairs(Expanding, entries)
  {
    if entries != [] {
      var init := entries[..|entries| - 1];
      ArrayFirstIsExpanding(init);
      assert Pairs(ArrayFirst, entries) == Then(Pairs(ArrayFirst, init), Contribution(ArrayFirst, entries[|entries| - 1]));
      assert Pairs(Expanding, entries) == Then(Pairs(Expanding, init), Contribution(Expanding, entries[|entries| - 1]));
      assert Contribution(ArrayFirst, entries[|entries| - 1]) == Contribution(Expanding, entries[|entries| - 1]);
    }
  }

  /** Without array values, expanding and not expanding agree. */
  lemma {:induction false} ExpandingWithoutArrays(entries: seq<Entry>)
    requires forall k | 0 <= k < |entries| :: !entries[k].1.Arr?
    ensures Pairs(Expanding, entries) == Pairs(OnePerKey, entries)
  {
    if entries != [] {
      ExpandingWithoutArrays(entries[..|entries| - 1]);
    }
  }

  /** An entry a variant skips can be removed without changing the query. */
  lemma SkippedEntry(variant: Variant, a: seq<Entry>, key: string, value: Value, b: seq<Entry>)
    requires value.Undef? || (variant == Present && (value.Null? || value == Str("")))
    ensures Pairs(variant, a + [(key, value)] + b) == Pairs(variant, a + b)
  {
    PairsAppend(variant, a + [(key, value)], b);
    PairsAppend(variant, a, [(key, value)]);
    PairsAppend(variant, a, b);
    assert [(key, value)][..0] == [];
    match Pairs(variant, a)
    case Err(_) =>
    case Ok(x) => assert x + [] == x;
  }

  /**
   * The non-expanding variants write exactly the entries they keep, one
   * pair each, in entry order, unless some entry throws.
   */
  lemma {:induction false} OnePairPerKeptEntry(variant: Variant, entries: seq<Entry>)
    requires variant == OnePerKey || variant == Present
    ensures Pairs(variant, entries).Ok? ==> Pairs(variant, entries).value == Rendered(KeptEntries(variant, entries))
  {
    if entries != [] {
      var init := entries[..|entries| - 1];
      var last := entries[|entries| - 1];
      OnePairPerKeptEntry(variant, init);
      var kept := KeptEntries(variant, init);
      var tail := if Kept(variant, last.1) then [last] else [];
      assert Rendered(kept + tail) == Rendered(kept) + Rendered(tail);
    }
  }

  /** The variant that skips null as well never throws. */
  lemma {:induction false} PresentNeverThrows(entries: seq<Entry>)
    ensures Pairs(Present, entries).Ok?
  {
    PairsFail(Present, entries);
  }

  /** `false` and `0` are kept by the variant that skips only undefined, null and "". */
  lemma PresentKeepsFalseAndZero(key: string)
    ensures Pairs(Present, [(key, Bool(false))]) == Ok([(key, "false")])
    ensures Pairs(Present, [(key, Int(0))]) == Ok([(key, "0")])
  {
    var f, z := [(key, Bool(false))], [(key, Int(0))];
    assert f[..0] == [] && z[..0] == [];
    assert Text(Bool(false)) == "false";
    assert Decimal.Digits(0) == "0";
    assert Pairs(Present, f) == Then(Ok([]), Ok([(key, "false")]));
    assert Pairs(Present, z) == Then(Ok([]), Ok([(key, "0")]));
    assert [] + [(key, "false")] == [(key, "false")];
    assert [] + [(key, "0")] == [(key, "0")];
  }
}

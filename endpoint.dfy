/**
 * Endpoints are written by plain string concatenation: a `/` before each
 * path segment, then optionally `?` and a query.  `Parse` reads an
 * endpoint back into its segments and query, and marks a path that does not
 * start with `/` as `Unrooted`.  It is the inverse of `Route`: a parsed
 * target determines the endpoint exactly (`ParseInverse`), and the segments
 * that `Route` writes are read back when they hold neither `/` nor `?`.
 */
module Endpoint {
  import opened Wrappers

  /** A segment that cannot be mistaken for a separator. */
  predicate Plain(seg: string) {
    '/' !in seg && '?' !in seg
  }

  predicate AllPlain(segs: seq<string>) {
    forall k | 0 <= k < |segs| :: Plain(segs[k])
  }

  /** `"/" + segs[0] + "/" + segs[1] + ...` */
  function Route(segs: seq<string>): string {
    if segs == [] then "" else "/" + segs[0] + Route(segs[1..])
  }

  /** Splits on every occurrence of `sep`. */
  function Split(s: string, sep: char): (r: seq<string>)
    ensures |r| >= 1
  {
    if s == [] then [""]
    else
      var rest := Split(s[1..], sep);
      if s[0] == sep then [""] + rest else [[s[0]] + rest[0]] + rest[1..]
  }

  /** The segments of a path that is empty or starts with `/`. */
  function Segments(path: string): seq<string> {
    if path == [] then [] else Split(path[1..], '/')
  }

  /** Index of the first `?`, or the length when there is none. */
  function QueryStart(s: string): (i: nat)
    ensures i <= |s|
    ensures forall k | 0 <= k < i :: s[k] != '?'
    ensures i < |s| ==> s[i] == '?'
  {
    if s == [] || s[0] == '?' then 0 else 1 + QueryStart(s[1..])
  }

  /** What an endpoint reads as: its segments and query, or a path missing its leading `/`. */
  datatype Target = Target(segments: seq<string>, query: Option<string>) | Unrooted

  function Parse(endpoint: string): Target {
    var i := QueryStart(endpoint);
    var path := endpoint[..i];
    if path != [] && path[0] != '/' then Unrooted
    else Target(Segments(path), if i < |endpoint| then Some(endpoint[i + 1..]) else None)
  }

  /** What `Route(segments)` followed by the query, if any, writes. */
  function Render(segments: seq<string>, query: Option<string>): string {
    Route(segments) + if query.Some? then "?" + query.value else ""
  }

  /** A field without the separator is read back whole, and the split goes on after the separator. */
  lemma {:induction false} SplitPlain(seg: string, sep: char, t: Option<string>)
    requires sep !in seg
    ensures t.None? ==> Split(seg, sep) == [seg]
    ensures t.Some? ==> Split(seg + [sep] + t.value, sep) == [seg] + Split(t.value, sep)
    decreases |seg|
  {
    if seg == [] {
      if t.Some? {
        assert (seg + [sep] + t.value)[1..] == t.value;
      }
    } else {
      assert seg[0] in seg;
      assert [seg[0]] + seg[1..] == seg;
      SplitPlain(seg[1..], sep, t);
      if t.Some? {
        var s := seg + [sep] + t.value;
        assert s[0] == seg[0];
        assert s[1..] == seg[1..] + [sep] + t.value;
      }
    }
  }

  /** `fields[0] + sep + fields[1] + sep + ...` */
  function Join(fields: seq<string>, sep: char): string {
    if fields == [] then ""
    else if |fields| == 1 then fields[0]
    else fields[0] + [sep] + Join(fields[1..], sep)
  }

  /** Appending one more field to a non-empty join adds a separator and the field. */
  lemma {:induction false} JoinSnoc(fields: seq<string>, x: string, sep: char)
    requires fields != []
    ensures Join(fields + [x], sep) == Join(fields, sep) + [sep] + x
  {
    if |fields| == 1 {
      assert (fields + [x])[1..] == [x];
    } else {
      assert (fields + [x])[1..] == fields[1..] + [x];
      JoinSnoc(fields[1..], x, sep);
    }
  }

  /** Fields free of the separator are read back by `Split` exactly. */
  lemma {:induction false} SplitJoin(fields: seq<string>, sep: char)
    requires fields != []
    requires forall k | 0 <= k < |fields| :: sep !in fields[k]
    ensures Split(Join(fields, sep), sep) == fields
  {
    if |fields| == 1 {
      SplitPlain(fields[0], sep, None);
    } else {
      var rest := fields[1..];
      assert forall k | 0 <= k < |rest| :: rest[k] == fields[k + 1];
      SplitJoin(rest, sep);
      SplitPlain(fields[0], sep, Some(Join(rest, sep)));
      assert [fields[0]] + rest == fields;
    }
  }

  /** Joining the pieces of a split puts the separators back: nothing is lost. */
  lemma {:induction false} JoinSplit(s: string, sep: char)
    ensures Join(Split(s, sep), sep) == s
    decreases |s|
  {
    if s != [] {
      var rest := Split(s[1..], sep);
      JoinSplit(s[1..], sep);
      if s[0] == sep {
        assert ([""] + rest)[1..] == rest;
        assert s == [sep] + s[1..];
      } else {
        var parts := [[s[0]] + rest[0]] + rest[1..];
        assert parts[1..] == rest[1..];
        if |rest| > 1 {
          assert Join(rest, sep) == rest[0] + [sep] + Join(rest[1..], sep);
        }
        assert s == [s[0]] + s[1..];
      }
    }
  }

  /** A route is `/` followed by its segments joined by `/`. */
  lemma {:induction false} RouteIsJoin(segs: seq<string>)
    requires segs != []
    ensures Route(segs) == "/" + Join(segs, '/')
  {
    if |segs| == 1 {
      assert Route(segs[1..]) == "";
    } else {
      RouteIsJoin(segs[1..]);
    }
  }

  /**
   * A parsed target determines the endpoint: the only endpoint that parses
   * to `Target(segs, q)` is the route of `segs` followed by `?q` when there
   * is a query.  So `Parse(e) == Target(segs, q)` pins `e` exactly.
   */
  lemma ParseInverse(e: string, segs: seq<string>, q: Option<string>)
    requires Parse(e) == Target(segs, q)
    ensures e == Render(segs, q)
  {
    var i := QueryStart(e);
    var path := e[..i];
    assert path == Route(segs) by {
      if path != [] {
        assert path[0] == '/';
        JoinSplit(path[1..], '/');
        RouteIsJoin(segs);
        assert path == [path[0]] + path[1..];
      }
    }
    if q.Some? {
      assert e == path + "?" + q.value;
    } else {
      assert e == path;
    }
  }

  lemma {:induction false} SplitRoute(segs: seq<string>)
    requires segs != [] && AllPlain(segs)
    ensures Split(Route(segs)[1..], '/') == segs
  {
    var rest := segs[1..];
    assert Plain(segs[0]);
    assert Route(segs)[1..] == segs[0] + Route(rest);
    if rest == [] {
      assert Route(rest) == "";
      assert segs[0] + Route(rest) == segs[0];
      SplitPlain(segs[0], '/', None);
    } else {
      assert AllPlain(rest) by {
        forall k | 0 <= k < |rest| ensures Plain(rest[k]) { assert rest[k] == segs[k + 1]; }
      }
      var tail := Route(rest)[1..];
      assert Route(rest) == "/" + tail;
      assert Route(segs)[1..] == segs[0] + "/" + tail;
      SplitPlain(segs[0], '/', Some(tail));
      SplitRoute(rest);
      assert [segs[0]] + rest == segs;
    }
  }

  lemma {:induction false} RouteHasNoQuestion(segs: seq<string>)
    requires AllPlain(segs)
    ensures '?' !in Route(segs)
  {
    if segs != [] {
      assert Plain(segs[0]);
      assert AllPlain(segs[1..]) by {
        forall k | 0 <= k < |segs[1..]| ensures Plain(segs[1..][k]) { assert segs[1..][k] == segs[k + 1]; }
      }
      RouteHasNoQuestion(segs[1..]);
    }
  }

  lemma {:induction false} QueryStartAfter(p: string, rest: string)
    requires '?' !in p
    ensures QueryStart(p + rest) == |p| + QueryStart(rest)
    decreases |p|
  {
    if p == [] {
      assert p + rest == rest;
    } else {
      assert p[0] in p;
      assert (p + rest)[0] == p[0];
      assert (p + rest)[1..] == p[1..] + rest;
      QueryStartAfter(p[1..], rest);
    }
  }

  /** Segments built by `Route` are read back unchanged. */
  lemma SegmentsOfRoute(segs: seq<string>)
    requires AllPlain(segs)
    ensures Segments(Route(segs)) == segs
  {
    if segs != [] { SplitRoute(segs); }
  }

  /** A route without a query parses to its segments and no query. */
  lemma {:induction false} RouteParses(segs: seq<string>)
    requires AllPlain(segs)
    ensures Parse(Route(segs)) == Target(segs, None)
  {
    RouteHasNoQuestion(segs);
    QueryStartAfter(Route(segs), "");
    assert Route(segs) + "" == Route(segs);
    SegmentsOfRoute(segs);
  }

  /** `route + "?" + q` parses to the route's segments and exactly `q`. */
  lemma {:induction false} RouteWithQueryParses(segs: seq<string>, q: string)
    requires AllPlain(segs)
    ensures Parse(Route(segs) + "?" + q) == Target(segs, Some(q))
  {
    var e := Route(segs) + "?" + q;
    RouteHasNoQuestion(segs);
    QueryStartAfter(Route(segs), "?" + q);
    assert e == Route(segs) + ("?" + q);
    assert e[..|Route(segs)|] == Route(segs);
    assert e[|Route(segs)| + 1..] == q;
    SegmentsOfRoute(segs);
  }
}

/**
 * The application/x-www-form-urlencoded serializer that `URLSearchParams`
 * uses for `toString()` (section 5.2 of the WHATWG URL Standard): each name
 * and value is UTF-8 encoded and percent-encoded except for ASCII
 * alphanumerics and `*-._`, a space becomes `+`, and the pairs are written
 * as `name=value` joined by `&`.
 */
module FormUrlEncoded {

  import Endpoint

  type Pair = (string, string)

  const HexChars := "0123456789ABCDEF"

  /** The code points the serializer leaves as they are. */
  predicate Unreserved(c: char) {
    ('a' <= c <= 'z') || ('A' <= c <= 'Z') || ('0' <= c <= '9')
    || c == '*' || c == '-' || c == '.' || c == '_'
  }

  function PercentByte(b: nat): (s: string)
    requires b < 256
    ensures |s| == 3 && s[0] == '%'
    ensures forall k | 0 <= k < |s| :: s[k] == '%' || s[k] in HexChars
  {
    ['%', HexChars[b / 16], HexChars[b % 16]]
  }

  /** The UTF-8 bytes of one code point. */
  function Utf8(c: char): (bytes: seq<nat>)
    ensures 1 <= |bytes| <= 4
    ensures forall k | 0 <= k < |bytes| :: bytes[k] < 256
  {
    var cp := c as int;
    if cp < 0x80 then [cp]
    else if cp < 0x800 then [0xC0 + cp / 0x40, 0x80 + cp % 0x40]
    else if cp < 0x1_0000 then
      [0xE0 + cp / 0x1000, 0x80 + (cp / 0x40) % 0x40, 0x80 + cp % 0x40]
    else
      [0xF0 + (cp / 0x4_0000) % 8, 0x80 + (cp / 0x1000) % 0x40,
       0x80 + (cp / 0x40) % 0x40, 0x80 + cp % 0x40]
  }

  function PercentBytes(bytes: seq<nat>): (s: string)
    requires forall k | 0 <= k < |bytes| :: bytes[k] < 256
    ensures |s| == 3 * |bytes|
    ensures forall k | 0 <= k < |s| :: s[k] == '%' || s[k] in HexChars
  {
    if bytes == [] then "" else PercentByte(bytes[0]) + PercentBytes(bytes[1..])
  }

  function EscapeChar(c: char): (s: string)
    ensures |s| >= 1
    ensures forall k | 0 <= k < |s| :: s[k] != '?' && s[k] != '&' && s[k] != '='
  {
    if Unreserved(c) then [c]
    else if c == ' ' then "+"
    else PercentBytes(Utf8(c))
  }

  function Escape(s: string): (r: string)
    ensures |r| >= |s|
    ensures forall k | 0 <= k < |r| :: r[k] != '?' && r[k] != '&' && r[k] != '='
  {
    if s == [] then "" else EscapeChar(s[0]) + Escape(s[1..])
  }

  function SerializePair(p: Pair): (s: string)
    ensures '=' in s && '?' !in s && '&' !in s
  {
    var name, value := Escape(p.0), Escape(p.1);
    var s := name + "=" + value;
    assert s[|name|] == '=';
    assert forall k | 0 <= k < |s| :: s[k] != '?' && s[k] != '&' by {
      forall k | 0 <= k < |s| ensures s[k] != '?' && s[k] != '&' {
        if k < |name| {
          assert s[k] == name[k];
        } else if k > |name| {
          assert s[k] == value[k - |name| - 1];
        }
      }
    }
    s
  }

  /** `new URLSearchParams(pairs).toString()`. */
  function Encode(pairs: seq<Pair>): (q: string)
    ensures q == "" <==> pairs == []
    ensures '?' !in q
  {
    if pairs == [] then ""
    else if |pairs| == 1 then SerializePair(pairs[0])
    else Encode(pairs[..|pairs| - 1]) + "&" + SerializePair(pairs[|pairs| - 1])
  }

  /** The `name=value` fields of the pairs, in order. */
  function Fields(pairs: seq<Pair>): (fs: seq<string>)
    ensures |fs| == |pairs|
  {
    seq(|pairs|, k requires 0 <= k < |pairs| => SerializePair(pairs[k]))
  }

  lemma FieldsSnoc(pairs: seq<Pair>)
    requires pairs != []
    ensures Fields(pairs) == Fields(pairs[..|pairs| - 1]) + [SerializePair(pairs[|pairs| - 1])]
  {
    var init, fs := pairs[..|pairs| - 1], Fields(pairs);
    var gs := Fields(init) + [SerializePair(pairs[|pairs| - 1])];
    forall k | 0 <= k < |fs| ensures fs[k] == gs[k] {
      if k < |init| {
        assert init[k] == pairs[k];
      }
    }
  }

  lemma {:induction false} EncodeIsJoin(pairs: seq<Pair>)
    ensures Encode(pairs) == Endpoint.Join(Fields(pairs), '&')
  {
    if |pairs| == 1 {
      assert Fields(pairs) == [SerializePair(pairs[0])];
    } else if |pairs| > 1 {
      var init := pairs[..|pairs| - 1];
      var last := SerializePair(pairs[|pairs| - 1]);
      assert Encode(pairs) == Encode(init) + "&" + last;
      EncodeIsJoin(init);
      FieldsSnoc(pairs);
      Endpoint.JoinSnoc(Fields(init), last, '&');
    }
  }

  /**
   * Reading the query back: cutting it at `&` gives one field per pair, in
   * order, and cutting a field at `=` gives the escaped name and value.
   */
  lemma QueryFields(pairs: seq<Pair>)
    requires pairs != []
    ensures |Endpoint.Split(Encode(pairs), '&')| == |pairs|
    ensures forall k | 0 <= k < |pairs| ::
      Endpoint.Split(Endpoint.Split(Encode(pairs), '&')[k], '=') == [Escape(pairs[k].0), Escape(pairs[k].1)]
  {
    EncodeIsJoin(pairs);
    Endpoint.SplitJoin(Fields(pairs), '&');
    forall k | 0 <= k < |pairs|
      ensures Endpoint.Split(SerializePair(pairs[k]), '=') == [Escape(pairs[k].0), Escape(pairs[k].1)]
    {
      var name, value := Escape(pairs[k].0), Escape(pairs[k].1);
      assert Endpoint.Join([name, value], '=') == SerializePair(pairs[k]);
      Endpoint.SplitJoin([name, value], '=');
    }
  }
}

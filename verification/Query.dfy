/** Query strings: percent-encoded pairs, and tables of values by key. */
module Queries {
  import opened Common
  import opened WireInstant

  // ---------------------------------------------------------------- percent-encoding

  /** The unreserved characters of RFC 3986, section 2.3. */
  predicate Unreserved(c: char) {
    'A' <= c <= 'Z' || 'a' <= c <= 'z' || '0' <= c <= '9' || c == '-' || c == '_' || c == '.' || c == '~'
  }

  function HexDigit(n: nat): Byte
    requires n < 16
  {
    if n < 10 then '0' + n as char else 'A' + (n - 10) as char
  }

  function HexValue(c: char): Option<nat> {
    if '0' <= c <= '9' then Some(c as nat - '0' as nat)
    else if 'A' <= c <= 'F' then Some(c as nat - 'A' as nat + 10)
    else if 'a' <= c <= 'f' then Some(c as nat - 'a' as nat + 10)
    else None
  }

  function EscapeByte(c: Byte): (code: Text)
    ensures |code| > 0
  {
    if Unreserved(c) then [c]
    else if c == ' ' then ['+']
    else ['%', HexDigit(c as nat / 16), HexDigit(c as nat % 16)]
  }

  function Escape(text: Text): Text {
    if text == [] then [] else EscapeByte(text[0]) + Escape(text[1..])
  }

  /** Undoes the escapes, in either case of hex; None when a `%` has no two hex digits after it. */
  function Unescape(text: Text): Option<Text> {
    if text == [] then Some([])
    else if text[0] != '%' then Glue(if text[0] == '+' then ' ' else text[0], Unescape(text[1..]))
    else if |text| < 3 then None
    else
      var high, low := HexValue(text[1]), HexValue(text[2]);
      if high.None? || low.None? then None
      else Glue((16 * high.value + low.value) as char, Unescape(text[3..]))
  }

  function Glue(c: Byte, rest: Option<Text>): Option<Text> {
    if rest.Some? then Some([c] + rest.value) else None
  }

  lemma ByteRoundTrips(c: Byte, rest: Text)
    ensures Unescape(EscapeByte(c) + rest) == Glue(c, Unescape(rest))
  {
    var code := EscapeByte(c);
    var text := code + rest;
    assert text[|code|..] == rest;
    if !Unreserved(c) && c != ' ' {
      assert text[1] == HexDigit(c as nat / 16) && text[2] == HexDigit(c as nat % 16);
      assert c as nat == 16 * (c as nat / 16) + c as nat % 16;
    }
  }

  lemma {:induction false} EscapeRoundTrips(text: Text)
    ensures Unescape(Escape(text)) == Some(text)
  {
    if text != [] {
      ByteRoundTrips(text[0], Escape(text[1..]));
      EscapeRoundTrips(text[1..]);
      assert text == [text[0]] + text[1..];
    }
  }

  /** An escaped text holds no character that the query syntax gives a meaning to. */
  predicate Plain(c: char) {
    Unreserved(c) || c == '+' || c == '%'
  }

  lemma {:induction false} EscapeIsPlain(text: Text)
    ensures forall c :: c in Escape(text) ==> Plain(c)
  {
    if text != [] {
      EscapeIsPlain(text[1..]);
      forall c | c in EscapeByte(text[0]) ensures Plain(c) {
      }
    }
  }

  /** The unreserved octets, as section 2.3 of RFC 3986 gives them: the letters, the digits, the hyphen,
      the period, the underscore and the tilde. */
  predicate UnreservedOctet(n: nat) {
    0x41 <= n <= 0x5A || 0x61 <= n <= 0x7A || 0x30 <= n <= 0x39 || n == 0x2D || n == 0x2E || n == 0x5F || n == 0x7E
  }

  /** How one byte is written: an unreserved one as itself, a space as a plus, and any other as a
      percent sign and its two hex digits, in upper case. */
  lemma EscapeSpelling(c: Byte)
    ensures UnreservedOctet(c as nat) ==> Escape([c]) == [c]
    ensures c == ' ' ==> Escape([c]) == "+"
    ensures !UnreservedOctet(c as nat) && c != ' ' ==>
      var hex := "0123456789ABCDEF";
      Escape([c]) == ['%', hex[c as nat / 16], hex[c as nat % 16]]
  {
    assert Escape([c]) == EscapeByte(c) + [];
    UnreservedListed(c);
    HexDigitListed(c as nat / 16);
    HexDigitListed(c as nat % 16);
  }

  lemma UnreservedListed(c: char)
    ensures Unreserved(c) <==> UnreservedOctet(c as nat)
  {
  }

  lemma HexDigitListed(n: nat)
    requires n < 16
    ensures HexDigit(n) == "0123456789ABCDEF"[n]
  {
  }

  /** And a text is written byte by byte. */
  lemma {:induction false} EscapeJoins(a: Text, b: Text)
    ensures Escape(a + b) == Escape(a) + Escape(b)
  {
    if a == [] {
      assert a + b == b;
    } else {
      EscapeJoins(a[1..], b);
      HeadAndTail(a, b);
      Regrouped(EscapeByte(a[0]), Escape(a[1..]), Escape(b));
    }
  }

  /** Hex digits are read in either case. */
  lemma HexReads(n: nat)
    requires n < 16
    ensures HexValue("0123456789ABCDEF"[n]) == Some(n) && HexValue("0123456789abcdef"[n]) == Some(n)
  {
  }

  lemma HexIsListed(c: char)
    ensures HexValue(c).Some? <==> c in "0123456789ABCDEFabcdef"
  {
  }

  /** The percent sign at i has two hex digits after it. */
  predicate Escaped(text: Text, i: nat)
    requires i < |text|
  {
    i + 2 < |text| && text[i + 1] in "0123456789ABCDEFabcdef" && text[i + 2] in "0123456789ABCDEFabcdef"
  }

  /** Some percent sign has no two hex digits after it. */
  ghost predicate HasBadEscape(text: Text) {
    exists i :: 0 <= i < |text| && text[i] == '%' && !Escaped(text, i)
  }

  lemma EscapeAtFront(text: Text)
    requires text != []
    ensures text[0] != '%' ==> (Unescape(text).None? <==> Unescape(text[1..]).None?)
    ensures text[0] == '%' && Escaped(text, 0) ==>
      (Unescape(text).None? <==> Unescape(text[3..]).None?) && text[1] != '%' && text[2] != '%'
    ensures text[0] == '%' && !Escaped(text, 0) ==> Unescape(text).None?
  {
    if |text| > 2 {
      HexIsListed(text[1]);
      HexIsListed(text[2]);
    }
  }

  /** A text is refused exactly when some percent sign in it has no two hex digits after it. */
  lemma {:induction false} UnescapeRefuses(text: Text)
    ensures Unescape(text).None? <==> HasBadEscape(text)
    decreases |text|
  {
    if text != [] {
      EscapeAtFront(text);
      if text[0] != '%' {
        UnescapeRefuses(text[1..]);
        BadEscapesShift(text, 1);
      } else if Escaped(text, 0) {
        UnescapeRefuses(text[3..]);
        BadEscapesShift(text, 3);
      } else {
        assert HasBadEscape(text);
      }
    }
  }

  /** No bad escape begins in the first n bytes, so the text has one exactly when the rest has. */
  lemma BadEscapesShift(text: Text, n: nat)
    requires n <= |text| && forall i :: 0 <= i < n && text[i] == '%' ==> Escaped(text, i)
    ensures HasBadEscape(text) <==> HasBadEscape(text[n..])
  {
    assert forall i :: n <= i < |text| ==> text[i] == text[n..][i - n] && (Escaped(text, i) <==> Escaped(text[n..], i - n));
    assert forall i :: 0 <= i < |text| - n ==> text[n..][i] == text[i + n] && (Escaped(text, i + n) <==> Escaped(text[n..], i));
  }

  /** The hex digit in either case. */
  function HexPair(n: nat): set<char>
    requires n < 16
  {
    {"0123456789ABCDEF"[n], "0123456789abcdef"[n]}
  }

  /** What an accepted text stands for, from its front: an escape for the byte it spells, a plus for a
      space, and any other byte for itself. */
  lemma UnescapeReads(c: Byte, high: nat, low: nat, rest: Text)
    requires high < 16 && low < 16 && Unescape(rest).Some?
    ensures c != '%' && c != '+' ==> Unescape([c] + rest) == Some([c] + Unescape(rest).value)
    ensures Unescape(['+'] + rest) == Some([' '] + Unescape(rest).value)
    ensures forall hi: Byte, lo: Byte | hi in HexPair(high) && lo in HexPair(low) ::
      Unescape(['%', hi, lo] + rest) == Some([(16 * high + low) as char] + Unescape(rest).value)
  {
    assert ([c] + rest)[1..] == rest && (['+'] + rest)[1..] == rest;
    HexReads(high);
    HexReads(low);
    forall hi: Byte, lo: Byte | hi in HexPair(high) && lo in HexPair(low)
      ensures Unescape(['%', hi, lo] + rest) == Some([(16 * high + low) as char] + Unescape(rest).value)
    {
      assert (['%', hi, lo] + rest)[3..] == rest;
    }
  }

  // ---------------------------------------------------------------- query strings

  datatype Pair = Pair(key: Text, value: Text)

  /** How far the text runs before the first such character. */
  function CutAt(text: Text, c: char): (n: nat)
    ensures n <= |text| && c !in text[..n] && (n < |text| ==> text[n] == c)
  {
    if text == [] || text[0] == c then 0 else 1 + CutAt(text[1..], c)
  }

  lemma {:induction false} CutFinds(head: Text, c: Byte, rest: Text)
    requires c !in head
    ensures CutAt(head, c) == |head|
    ensures CutAt(head + [c] + rest, c) == |head|
  {
    if head != [] {
      CutFinds(head[1..], c, rest);
      assert (head + [c] + rest)[1..] == head[1..] + [c] + rest;
    }
  }

  function EncodePair(pair: Pair): Text {
    Escape(pair.key) + ['='] + Escape(pair.value)
  }

  function Encode(pairs: seq<Pair>): Text {
    if pairs == [] then []
    else if |pairs| == 1 then EncodePair(pairs[0])
    else EncodePair(pairs[0]) + ['&'] + Encode(pairs[1..])
  }

  /** One `&`-separated segment; an absent `=` means an empty value. */
  function ParseSegment(segment: Text): Option<Pair> {
    var n := CutAt(segment, '=');
    var key := Unescape(segment[..n]);
    var value := if n < |segment| then Unescape(segment[n + 1..]) else Some([]);
    if key.Some? && value.Some? then Some(Pair(key.value, value.value)) else None
  }

  /** The pairs of a query string in order. Empty segments are passed over; one bad segment, or one
      holding a semicolon, spoils the whole. */
  function ParseQuery(query: Text): Option<seq<Pair>>
    decreases |query|
  {
    if query == [] then Some([])
    else
      var n := CutAt(query, '&');
      var segment := query[..n];
      var rest := ParseQuery(if n < |query| then query[n + 1..] else []);
      if segment == [] then rest
      else if rest.None? || ';' in segment then None
      else
        var pair := ParseSegment(segment);
        if pair.None? then None else Some([pair.value] + rest.value)
  }

  /** The text's parts between separators. */
  function Split(text: Text, c: Byte): (parts: seq<Text>)
    ensures |parts| > 0
    decreases |text|
  {
    var n := CutAt(text, c);
    if n < |text| then [text[..n]] + Split(text[n + 1..], c) else [text]
  }

  /** A segment spoils a query when it is not empty and holds a semicolon, or a bad escape on either
      side of its first equals sign. */
  ghost predicate Spoils(segment: Text) {
    segment != [] && (';' in segment || HasBadEscape(Side(segment, true)) || HasBadEscape(Side(segment, false)))
  }

  /** What stands before, or after, the first equals sign. */
  function Side(segment: Text, before: bool): Text {
    var parts := Split(segment, '=');
    if before then parts[0] else if |parts| == 1 then [] else segment[|parts[0]| + 1..]
  }

  lemma SidesAreCut(segment: Text)
    ensures var n := CutAt(segment, '=');
      && Side(segment, true) == segment[..n]
      && Side(segment, false) == if n < |segment| then segment[n + 1..] else []
  {
    var n := CutAt(segment, '=');
    if n < |segment| {
      assert Split(segment, '=')[0] == segment[..n];
      assert |Split(segment, '=')| > 1;
    } else {
      assert segment[..n] == segment;
    }
  }

  lemma SegmentRefuses(segment: Text)
    ensures ParseSegment(segment).None? <==> HasBadEscape(Side(segment, true)) || HasBadEscape(Side(segment, false))
  {
    SidesAreCut(segment);
    UnescapeRefuses(Side(segment, true));
    UnescapeRefuses(Side(segment, false));
  }

  lemma SplitCuts(text: Text, c: Byte)
    ensures var n := CutAt(text, c);
      Split(text, c) == if n < |text| then [text[..n]] + Split(text[n + 1..], c) else [text]
  {
  }

  ghost predicate SomeSpoils(parts: seq<Text>) {
    exists segment :: segment in parts && Spoils(segment)
  }

  lemma SomeSpoilsFirst(first: Text, rest: seq<Text>)
    ensures SomeSpoils([first] + rest) <==> Spoils(first) || SomeSpoils(rest)
  {
    assert forall part :: part in [first] + rest <==> part == first || part in rest;
  }

  lemma QueryReadsFirst(query: Text)
    ensures var n := CutAt(query, '&');
      ParseQuery(query).None? <==>
        Spoils(query[..n]) || (n < |query| && ParseQuery(query[n + 1..]).None?)
  {
    var n := CutAt(query, '&');
    SegmentRefuses(query[..n]);
  }

  /** A query is refused exactly when one of its segments spoils it. */
  lemma {:induction false} QueryRefuses(query: Text)
    ensures ParseQuery(query).None? <==> SomeSpoils(Split(query, '&'))
    decreases |query|
  {
    var n := CutAt(query, '&');
    QueryReadsFirst(query);
    SplitCuts(query, '&');
    if n < |query| {
      QueryRefuses(query[n + 1..]);
      SomeSpoilsFirst(query[..n], Split(query[n + 1..], '&'));
    } else {
      assert query[..n] == query && [query] + [] == [query];
      SomeSpoilsFirst(query, []);
    }
  }

  /** An accepted segment means its two sides, cut at the first equals sign; with none, the value is
      blank. */
  lemma SegmentReads(key: Text, value: Text)
    requires '=' !in key && Unescape(key).Some? && Unescape(value).Some?
    ensures ParseSegment(key) == Some(Pair(Unescape(key).value, []))
    ensures ParseSegment(key + "=" + value) == Some(Pair(Unescape(key).value, Unescape(value).value))
  {
    CutFinds(key, '=', value);
    var segment := key + ['='] + value;
    assert key[..|key|] == key && segment[..|key|] == key && segment[|key| + 1..] == value;
  }

  lemma SegmentRoundTrips(pair: Pair)
    ensures ParseSegment(EncodePair(pair)) == Some(pair)
    ensures EncodePair(pair) != [] && '&' !in EncodePair(pair) && ';' !in EncodePair(pair)
  {
    var key, value := Escape(pair.key), Escape(pair.value);
    EscapeIsPlain(pair.key);
    EscapeIsPlain(pair.value);
    assert !Plain('=') && !Plain('&') && !Plain(';');
    CutFinds(key, '=', value);
    var segment := EncodePair(pair);
    assert segment[..|key|] == key && segment[|key| + 1..] == value;
    EscapeRoundTrips(pair.key);
    EscapeRoundTrips(pair.value);
  }

  lemma FirstSegment(pair: Pair, rest: Text)
    ensures ParseQuery(EncodePair(pair)) == Some([pair])
    ensures ParseQuery(EncodePair(pair) + ['&'] + rest) ==
      var more := ParseQuery(rest);
      if more.None? then None else Some([pair] + more.value)
  {
    var segment := EncodePair(pair);
    var query := segment + ['&'] + rest;
    SegmentRoundTrips(pair);
    CutFinds(segment, '&', rest);
    var nothing: Text := [];
    assert ParseQuery(nothing) == Some([]);
    assert segment[..|segment|] == segment;
    assert [pair] + [] == [pair];
    assert query[..|segment|] == segment && query[|segment| + 1..] == rest;
  }

  /** Every list of pairs, of any bytes at all, comes back from its query string. */
  lemma {:induction false} QueryRoundTrips(pairs: seq<Pair>)
    ensures ParseQuery(Encode(pairs)) == Some(pairs)
  {
    if pairs != [] {
      FirstSegment(pairs[0], Encode(pairs[1..]));
      QueryRoundTrips(pairs[1..]);
      assert pairs == [pairs[0]] + pairs[1..];
    }
  }

  // ---------------------------------------------------------------- values by key

  /** A multi-valued table, as the query encoder and parser use. */
  type Values = map<Text, seq<Text>>

  function Set(values: Values, key: Text, value: Text): Values {
    values[key := [value]]
  }

  /** The first value under the key; empty when there is none. */
  function Get(values: Values, key: Text): Text {
    if key in values && values[key] != [] then values[key][0] else []
  }

  /** Byte order. */
  predicate Less(a: Text, b: Text) {
    b != [] && (a == [] || a[0] < b[0] || (a[0] == b[0] && Less(a[1..], b[1..])))
  }

  lemma {:induction false} LessIsTotal(a: Text, b: Text)
    ensures Less(a, b) || a == b || Less(b, a)
    ensures !(Less(a, b) && Less(b, a)) && !Less(a, a)
  {
    if a != [] && b != [] {
      LessIsTotal(a[1..], b[1..]);
      LessIsTotal(a[1..], a[1..]);
      assert a[0] == b[0] && a[1..] == b[1..] ==> a == [a[0]] + a[1..] == b;
    } else if a != [] {
      LessIsTotal(a[1..], a[1..]);
    }
  }

  lemma {:induction false} LessIsTransitive(a: Text, b: Text, c: Text)
    requires Less(a, b) && Less(b, c)
    ensures Less(a, c)
  {
    if a != [] && a[0] == b[0] == c[0] {
      LessIsTransitive(a[1..], b[1..], c[1..]);
    }
  }

  /** The first byte that differs decides, and a text comes before what it begins. */
  lemma {:induction false} LessSpelling(begin: Text, x: Byte, y: Byte, a: Text, b: Text)
    ensures x < y ==> Less(begin + [x] + a, begin + [y] + b)
    ensures Less(begin, begin + [y] + b)
  {
    if begin != [] {
      LessSpelling(begin[1..], x, y, a, b);
      assert (begin + [x] + a)[1..] == begin[1..] + [x] + a;
      assert (begin + [y] + b)[1..] == begin[1..] + [y] + b;
    }
  }

  predicate IsLeast(keys: set<Text>, key: Text) {
    key in keys && forall other :: other in keys ==> !Less(other, key)
  }

  lemma {:induction false} LeastExists(keys: set<Text>) returns (least: Text)
    requires keys != {}
    ensures IsLeast(keys, least)
  {
    var one :| one in keys;
    least := one;
    LessIsTotal(one, one);
    if keys != {one} {
      var rest := keys - {one};
      var other := LeastExists(rest);
      LessIsTotal(one, other);
      if Less(other, one) {
        least := other;
        forall k | k in keys ensures !Less(k, least) {
          LessIsTotal(k, least);
        }
      } else {
        forall k | k in keys ensures !Less(k, least) {
          LessIsTotal(k, other);
          if Less(k, one) && k != one && one != other {
            LessIsTransitive(k, one, other);
          }
        }
      }
    }
  }

  /** The key that comes first in byte order. */
  function Least(keys: set<Text>): (least: Text)
    requires keys != {}
    ensures IsLeast(keys, least)
  {
    assert exists k :: IsLeast(keys, k) by {
      var k := LeastExists(keys);
    }
    assert forall j, k :: IsLeast(keys, j) && IsLeast(keys, k) ==> j == k by {
      forall j, k | IsLeast(keys, j) && IsLeast(keys, k) ensures j == k {
        LessIsTotal(j, k);
      }
    }
    var k :| IsLeast(keys, k);
    k
  }

  ghost predicate Ascending(keys: seq<Text>) {
    forall i, j :: 0 <= i < j < |keys| ==> Less(keys[i], keys[j])
  }

  /** The keys in byte order, each once. */
  function Sorted(keys: set<Text>): (sorted: seq<Text>)
    ensures Ascending(sorted) && forall k :: k in sorted <==> k in keys
  {
    if keys == {} then []
    else
      var least := Least(keys);
      var rest := Sorted(keys - {least});
      assert forall k :: k in keys ==> k == least || k in rest;
      assert forall i :: 0 <= i < |rest| ==> Less(least, rest[i]) by {
        forall i | 0 <= i < |rest| ensures Less(least, rest[i]) {
          assert rest[i] in rest;
          LessIsTotal(least, rest[i]);
        }
      }
      [least] + rest
  }

  function PairsUnder(key: Text, values: seq<Text>): (pairs: seq<Pair>)
    ensures |pairs| == |values| && forall i :: 0 <= i < |pairs| ==> pairs[i] == Pair(key, values[i])
  {
    if values == [] then [] else PairsUnder(key, values[..|values| - 1]) + [Pair(key, values[|values| - 1])]
  }

  /** Every value under every one of these keys, in the order given. */
  function PairsOf(keys: seq<Text>, values: Values): seq<Pair> {
    if keys == [] then []
    else
      var last := keys[|keys| - 1];
      PairsOf(keys[..|keys| - 1], values) + PairsUnder(last, if last in values then values[last] else [])
  }

  /** The query string of the values, sorted by key. */
  function EncodeValues(values: Values): Text {
    Encode(PairsOf(Sorted(values.Keys), values))
  }

  function Added(values: Values, pair: Pair): Values {
    values[pair.key := (if pair.key in values then values[pair.key] else []) + [pair.value]]
  }

  /** The values of a list of pairs, in order under each key. */
  function Collect(pairs: seq<Pair>): Values {
    if pairs == [] then map[] else Added(Collect(pairs[..|pairs| - 1]), pairs[|pairs| - 1])
  }

  function ParseValues(query: Text): Option<Values> {
    var pairs := ParseQuery(query);
    if pairs.None? then None else Some(Collect(pairs.value))
  }

  lemma CollectOneMore(pairs: seq<Pair>, pair: Pair)
    ensures Collect(pairs + [pair]) == Added(Collect(pairs), pair)
  {
    assert (pairs + [pair])[..|pairs|] == pairs;
  }

  lemma PairsUnderOneMore(pairs: seq<Pair>, key: Text, values: seq<Text>, value: Text)
    ensures pairs + PairsUnder(key, values + [value]) == pairs + PairsUnder(key, values) + [Pair(key, value)]
  {
    assert (values + [value])[..|values|] == values;
  }

  lemma {:induction false} CollectUnder(pairs: seq<Pair>, key: Text, values: seq<Text>, value: Text)
    requires key !in Collect(pairs)
    ensures Collect(pairs + PairsUnder(key, values + [value])) == Collect(pairs)[key := values + [value]]
    decreases |values|
  {
    PairsUnderOneMore(pairs, key, values, value);
    CollectOneMore(pairs + PairsUnder(key, values), Pair(key, value));
    if values == [] {
      assert pairs + PairsUnder(key, values) == pairs;
    } else {
      var init, last := values[..|values| - 1], values[|values| - 1];
      assert values == init + [last];
      CollectUnder(pairs, key, init, last);
    }
  }

  /** What of the values is under these keys and not empty. */
  function Under(keys: seq<Text>, values: Values): Values {
    map k | k in values && k in keys && values[k] != [] :: values[k]
  }

  lemma UnderOneMore(keys: seq<Text>, key: Text, values: Values)
    ensures Under(keys + [key], values) ==
      if key in values && values[key] != [] then Under(keys, values)[key := values[key]] else Under(keys, values)
  {
  }

  lemma CollectKey(pairs: seq<Pair>, key: Text, values: seq<Text>)
    requires key !in Collect(pairs)
    ensures Collect(pairs + PairsUnder(key, values))
      == if values == [] then Collect(pairs) else Collect(pairs)[key := values]
  {
    if values == [] {
      assert pairs + PairsUnder(key, values) == pairs;
    } else {
      var init, last := values[..|values| - 1], values[|values| - 1];
      assert values == init + [last];
      CollectUnder(pairs, key, init, last);
    }
  }

  ghost predicate Distinct(keys: seq<Text>) {
    forall i, j :: 0 <= i < j < |keys| ==> keys[i] != keys[j]
  }

  lemma {:induction false} CollectPairs(keys: seq<Text>, values: Values)
    requires Distinct(keys)
    ensures Collect(PairsOf(keys, values)) == Under(keys, values)
  {
    if keys != [] {
      var init, last := keys[..|keys| - 1], keys[|keys| - 1];
      CollectPairs(init, values);
      UnderOneMore(init, last, values);
      assert keys == init + [last];
      CollectKey(PairsOf(init, values), last, if last in values then values[last] else []);
    }
  }

  /** The keys that have values. */
  function NonEmpty(values: Values): Values {
    map k | k in values && values[k] != [] :: values[k]
  }

  lemma SortedIsDistinct(values: Values)
    ensures Distinct(Sorted(values.Keys)) && Under(Sorted(values.Keys), values) == NonEmpty(values)
  {
    var keys := Sorted(values.Keys);
    forall i, j | 0 <= i < j < |keys| ensures keys[i] != keys[j] {
      LessIsTotal(keys[i], keys[j]);
    }
  }

  /** Values come back from their query string, all but keys that have none. */
  lemma ValuesRoundTrip(values: Values)
    ensures ParseValues(EncodeValues(values)) == Some(NonEmpty(values))
  {
    var keys := Sorted(values.Keys);
    SortedIsDistinct(values);
    QueryRoundTrips(PairsOf(keys, values));
    CollectPairs(keys, values);
  }

  /** And so whole, when every key has one. */
  lemma WholeValuesRoundTrip(values: Values)
    requires forall k :: k in values ==> values[k] != []
    ensures ParseValues(EncodeValues(values)) == Some(values)
  {
    ValuesRoundTrip(values);
    assert NonEmpty(values) == values;
  }

  // ---------------------------------------------------------------- three values in order

  lemma BeginsLess(a: Text, b: Text)
    requires a < b
    ensures Less(a, b)
  {
    assert b == a + [b[|a|]] + b[|a| + 1..];
    LessSpelling(a, b[|a|], b[|a|], [], b[|a| + 1..]);
  }

  lemma DiffersLess(a: Text, b: Text, n: nat)
    requires n < |a| && n < |b| && a[..n] == b[..n] && a[n] < b[n]
    ensures Less(a, b)
  {
    assert a == a[..n] + [a[n]] + a[n + 1..] && b == a[..n] + [b[n]] + b[n + 1..];
    LessSpelling(a[..n], a[n], b[n], a[n + 1..], b[n + 1..]);
  }

  /** There is one way to put three keys in order. */
  lemma SortedThree(x: Text, y: Text, z: Text)
    requires Less(x, y) && Less(x, z) && Less(y, z)
    ensures Sorted({x, y, z}) == [x, y, z]
  {
    LessIsTotal(x, y);
    LessIsTotal(x, z);
    LessIsTotal(y, z);
    LeastIs({x, y, z}, x);
    assert {x, y, z} - {x} == {y, z};
    LeastIs({y, z}, y);
    assert {y, z} - {y} == {z};
    LeastIs({z}, z);
    assert {z} - {z} == {};
    assert Sorted({z}) == [z] + Sorted({});
    assert Sorted({y, z}) == [y] + Sorted({z});
  }

  lemma LeastIs(keys: set<Text>, key: Text)
    requires key in keys && forall k :: k in keys && k != key ==> Less(key, k)
    ensures Least(keys) == key
  {
    LessIsTotal(Least(keys), key);
  }

  predicate AllPlain(text: Text) {
    forall i :: 0 <= i < |text| ==> 'a' <= text[i] <= 'z' || text[i] == '_'
  }

  lemma {:induction false} EscapePlain(text: Text)
    requires AllPlain(text)
    ensures Escape(text) == text
  {
    if text != [] {
      EscapePlain(text[1..]);
      assert EscapeByte(text[0]) == [text[0]];
    }
  }

  lemma PairsOfOneMore(keys: seq<Text>, key: Text, value: Text, values: Values)
    requires key in values && values[key] == [value]
    ensures PairsOf(keys + [key], values) == PairsOf(keys, values) + [Pair(key, value)]
  {
    assert (keys + [key])[..|keys|] == keys;
    assert PairsUnder(key, [value]) == [Pair(key, value)];
  }

  lemma PairsOfTwo(x: Text, a: Text, y: Text, b: Text, values: Values)
    requires x in values && values[x] == [a] && y in values && values[y] == [b]
    ensures PairsOf([x, y], values) == [Pair(x, a), Pair(y, b)]
  {
    PairsOfOneMore([], x, a, values);
    assert [] + [x] == [x];
    assert PairsOf([x], values) == [Pair(x, a)];
    PairsOfOneMore([x], y, b, values);
    assert [x] + [y] == [x, y];
  }

  lemma PairsOfThree(x: Text, a: Text, y: Text, b: Text, z: Text, c: Text, values: Values)
    requires x in values && values[x] == [a] && y in values && values[y] == [b] && z in values && values[z] == [c]
    ensures PairsOf([x, y, z], values) == [Pair(x, a), Pair(y, b), Pair(z, c)]
  {
    PairsOfTwo(x, a, y, b, values);
    PairsOfOneMore([x, y], z, c, values);
    assert [x, y] + [z] == [x, y, z];
  }

  lemma EncodeOneMore(pair: Pair, pairs: seq<Pair>)
    requires pairs != []
    ensures Encode([pair] + pairs) == EncodePair(pair) + ['&'] + Encode(pairs)
  {
    HeadAndTail([pair], pairs);
  }

  lemma EncodeThreePairs(one: Pair, two: Pair, three: Pair)
    ensures Encode([one, two, three])
      == EncodePair(one) + ['&'] + (EncodePair(two) + ['&'] + EncodePair(three))
  {
    EncodeOneMore(two, [three]);
    EncodeOneMore(one, [two] + [three]);
    assert [one] + ([two] + [three]) == [one, two, three];
    assert Encode([three]) == EncodePair(three);
  }

  // ---------------------------------------------------------------- values among others

  ghost predicate Lacks(pairs: seq<Pair>, key: Text) {
    forall i :: 0 <= i < |pairs| ==> pairs[i].key != key
  }

  lemma {:induction false} CollectLacks(pairs: seq<Pair>, key: Text)
    ensures key in Collect(pairs) <==> !Lacks(pairs, key)
    ensures key in Collect(pairs) ==> Collect(pairs)[key] != []
  {
    if pairs != [] {
      var init := pairs[..|pairs| - 1];
      CollectLacks(init, key);
      assert pairs[|pairs| - 1].key == key || (Lacks(pairs, key) <==> Lacks(init, key)) by {
        assert forall i :: 0 <= i < |init| ==> init[i] == pairs[i];
      }
    }
  }

  /** The first pair with the key is the one whose value is got, whatever comes after it. */
  lemma {:induction false} GetIsFirst(before: seq<Pair>, pair: Pair, after: seq<Pair>)
    requires Lacks(before, pair.key)
    ensures Get(Collect(before + [pair] + after), pair.key) == pair.value
    ensures pair.key in Collect(before + [pair] + after)
  {
    var all := before + [pair] + after;
    if after == [] {
      assert all[..|all| - 1] == before;
      CollectLacks(before, pair.key);
    } else {
      var shorter := before + [pair] + after[..|after| - 1];
      assert all[..|all| - 1] == shorter;
      GetIsFirst(before, pair, after[..|after| - 1]);
      CollectLacks(shorter, pair.key);
    }
  }
}

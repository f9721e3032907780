/** The two URL encodings the application relies on, and the query parser a browser page uses
    to read them back:
    - `URLSearchParams` serialisation (application/x-www-form-urlencoded): ASCII letters,
      digits and `*-._` stay, a space becomes `+`, every other character becomes the
      percent-encoding of its UTF-8 bytes;
    - `encodeURIComponent`: ASCII letters, digits and `-_.!~*'()` stay, everything else is
      percent-encoded;
    - `URLSearchParams` parsing: split on `&`, split each non-empty piece at its first `=`,
      turn `+` into a space, decode `%XX`, and read the bytes as UTF-8. */
module UrlEncoding {
  import opened Common
  import opened Utf8

  /** Upper-case hexadecimal digit for 0..15. */
  function HexDigit(i: int): (c: char)
    requires 0 <= i < 16
    ensures IsAsciiDigit(c) || 'A' <= c <= 'F'
  {
    if i < 10 then ('0' as int + i) as char else ('A' as int + i - 10) as char
  }

  function HexValue(c: char): Option<int> {
    if IsAsciiDigit(c) then Some(c as int - '0' as int)
    else if 'A' <= c <= 'F' then Some(c as int - 'A' as int + 10)
    else if 'a' <= c <= 'f' then Some(c as int - 'a' as int + 10)
    else None
  }

  function PercentByte(b: byte): string {
    ['%', HexDigit(b as int / 16), HexDigit(b as int % 16)]
  }

  function PercentBytes(bs: seq<byte>): string {
    if bs == [] then "" else PercentByte(bs[0]) + PercentBytes(bs[1..])
  }

  /** Characters an encoder may emit: none of them is `&`, `=`, `?` or `#`. */
  predicate EncodedChar(c: char) {
    IsAsciiAlnum(c) || c in "*-._!~'()+%"
  }

  lemma PercentBytesEncoded(bs: seq<byte>)
    ensures forall i :: 0 <= i < |PercentBytes(bs)| ==> EncodedChar(PercentBytes(bs)[i])
  {
    if bs != [] {
      PercentBytesEncoded(bs[1..]);
    }
  }

  // ---- application/x-www-form-urlencoded -------------------------------------------------

  predicate FormSafe(c: char) {
    IsAsciiAlnum(c) || c in "*-._"
  }

  function FormEncodeChar(c: char): string {
    if FormSafe(c) then [c] else if c == ' ' then "+" else PercentBytes(EncodeChar(c))
  }

  function FormEncode(s: string): (r: string)
    ensures forall i :: 0 <= i < |r| ==> EncodedChar(r[i])
  {
    if s == [] then "" else
      PercentBytesEncoded(EncodeChar(s[0]));
      FormEncodeChar(s[0]) + FormEncode(s[1..])
  }

  // ---- encodeURIComponent -----------------------------------------------------------------

  predicate ComponentSafe(c: char) {
    IsAsciiAlnum(c) || c in "-_.!~*'()"
  }

  function ComponentEncodeChar(c: char): string {
    if ComponentSafe(c) then [c] else PercentBytes(EncodeChar(c))
  }

  function EncodeURIComponent(s: string): (r: string)
    ensures forall i :: 0 <= i < |r| ==> EncodedChar(r[i])
  {
    if s == [] then "" else
      PercentBytesEncoded(EncodeChar(s[0]));
      ComponentEncodeChar(s[0]) + EncodeURIComponent(s[1..])
  }

  // ---- decoding -----------------------------------------------------------------------------

  /** The bytes a name or value stands for: `+` is a space, `%XX` one byte, any other
      character its UTF-8 bytes (a `%` not followed by two hex digits stays literal). */
  function PercentDecode(s: string): seq<byte>
    decreases |s|
  {
    if s == [] then []
    else if s[0] == '+' then [0x20] + PercentDecode(s[1..])
    else if s[0] == '%' && |s| >= 3 && HexValue(s[1]).Some? && HexValue(s[2]).Some? then
      [(HexValue(s[1]).value * 16 + HexValue(s[2]).value) as byte] + PercentDecode(s[3..])
    else EncodeChar(s[0]) + PercentDecode(s[1..])
  }

  function FormDecode(s: string): string {
    Utf8.Decode(PercentDecode(s))
  }

  lemma HexDigitValue(i: int)
    requires 0 <= i < 16
    ensures HexValue(HexDigit(i)) == Some(i)
  {
  }

  /** One escaped byte decodes back to that byte. */
  lemma PercentByteDecodes(b: byte, rest: string)
    ensures PercentDecode(PercentByte(b) + rest) == [b] + PercentDecode(rest)
  {
    var v := b as int;
    HexDigitValue(v / 16);
    HexDigitValue(v % 16);
    var s := PercentByte(b) + rest;
    assert s[0] == '%' && s[1] == HexDigit(v / 16) && s[2] == HexDigit(v % 16);
    assert s[3..] == rest;
    assert (v / 16) * 16 + v % 16 == v;
  }

  lemma {:induction false} PercentDecodeBytes(bs: seq<byte>, rest: string)
    ensures PercentDecode(PercentBytes(bs) + rest) == bs + PercentDecode(rest)
  {
    if bs == [] {
      assert PercentBytes(bs) + rest == rest;
    } else {
      var tail := PercentBytes(bs[1..]) + rest;
      calc {
        PercentDecode(PercentBytes(bs) + rest);
        { assert PercentBytes(bs) + rest == PercentByte(bs[0]) + tail; }
        PercentDecode(PercentByte(bs[0]) + tail);
        { PercentByteDecodes(bs[0], tail); }
        [bs[0]] + PercentDecode(tail);
        { PercentDecodeBytes(bs[1..], rest); }
        [bs[0]] + (bs[1..] + PercentDecode(rest));
        { assert bs == [bs[0]] + bs[1..]; }
        bs + PercentDecode(rest);
      }
    }
  }

  lemma PercentDecodeFormChar(c: char, rest: string)
    ensures PercentDecode(FormEncodeChar(c) + rest) == EncodeChar(c) + PercentDecode(rest)
  {
    if FormSafe(c) {
      assert ([c] + rest)[0] == c && ([c] + rest)[1..] == rest;
    } else if c == ' ' {
      assert ("+" + rest)[1..] == rest;
    } else {
      PercentDecodeBytes(EncodeChar(c), rest);
    }
  }

  lemma PercentDecodeComponentChar(c: char, rest: string)
    ensures PercentDecode(ComponentEncodeChar(c) + rest) == EncodeChar(c) + PercentDecode(rest)
  {
    if ComponentSafe(c) {
      assert ([c] + rest)[0] == c && ([c] + rest)[1..] == rest;
    } else {
      PercentDecodeBytes(EncodeChar(c), rest);
    }
  }

  lemma {:induction false} PercentDecodeFormEncode(s: string)
    ensures PercentDecode(FormEncode(s)) == Utf8.Encode(s)
  {
    if s != [] {
      PercentDecodeFormChar(s[0], FormEncode(s[1..]));
      PercentDecodeFormEncode(s[1..]);
    }
  }

  lemma {:induction false} PercentDecodeComponentEncode(s: string)
    ensures PercentDecode(EncodeURIComponent(s)) == Utf8.Encode(s)
  {
    if s != [] {
      PercentDecodeComponentChar(s[0], EncodeURIComponent(s[1..]));
      PercentDecodeComponentEncode(s[1..]);
    }
  }

  /** A form-encoded string reads back as the string that was encoded, for every string. */
  lemma FormRoundTrip(s: string)
    ensures FormDecode(FormEncode(s)) == s
  {
    PercentDecodeFormEncode(s);
    Utf8.DecodeEncode(s);
  }

  /** A value encoded with `encodeURIComponent` is read back unchanged by `URLSearchParams`. */
  lemma ComponentRoundTrip(s: string)
    ensures FormDecode(EncodeURIComponent(s)) == s
  {
    PercentDecodeComponentEncode(s);
    Utf8.DecodeEncode(s);
  }

  // ---- query strings ------------------------------------------------------------------------

  /** `s.split(sep)`. */
  function Split(s: string, sep: char): (r: seq<string>)
    ensures |r| >= 1
  {
    if s == [] then [""]
    else if s[0] == sep then [""] + Split(s[1..], sep)
    else
      var rest := Split(s[1..], sep);
      [[s[0]] + rest[0]] + rest[1..]
  }

  /** The parts before and after the first `sep`, if there is one. */
  function SplitAtFirst(s: string, sep: char): (r: Option<(string, string)>)
    ensures r.Some? ==> r.value.0 + [sep] + r.value.1 == s && sep !in r.value.0
    ensures r.None? ==> sep !in s
  {
    if s == [] then None
    else if s[0] == sep then Some(("", s[1..]))
    else match SplitAtFirst(s[1..], sep)
      case None => None
      case Some(p) => Some(([s[0]] + p.0, p.1))
  }

  function ParsePiece(piece: string): (string, string) {
    match SplitAtFirst(piece, '=')
    case None => (FormDecode(piece), "")
    case Some(p) => (FormDecode(p.0), FormDecode(p.1))
  }

  function ParsePieces(pieces: seq<string>): seq<(string, string)> {
    if pieces == [] then []
    else if pieces[0] == "" then ParsePieces(pieces[1..])
    else [ParsePiece(pieces[0])] + ParsePieces(pieces[1..])
  }

  /** `new URLSearchParams(query)` as a list of name/value pairs. */
  function ParseQuery(query: string): seq<(string, string)> {
    ParsePieces(Split(query, '&'))
  }

  /** The first value stored under `name`. */
  function Lookup(pairs: seq<(string, string)>, name: string): (r: Option<string>)
    ensures r.Some? <==> exists i :: 0 <= i < |pairs| && pairs[i].0 == name
  {
    if pairs == [] then None
    else if pairs[0].0 == name then Some(pairs[0].1)
    else
      var r := Lookup(pairs[1..], name);
      assert forall i :: 1 <= i < |pairs| ==> pairs[i] == pairs[1..][i - 1];
      r
  }

  /** The value found is the one of the first pair carrying the name. */
  lemma {:induction false} LookupFirst(pairs: seq<(string, string)>, name: string, i: nat)
    requires i < |pairs| && pairs[i].0 == name
    requires forall j :: 0 <= j < i ==> pairs[j].0 != name
    ensures Lookup(pairs, name) == Some(pairs[i].1)
  {
    if i > 0 {
      assert pairs[0].0 != name;
      assert pairs[1..][i - 1] == pairs[i];
      assert forall j :: 0 <= j < i - 1 ==> pairs[1..][j] == pairs[j + 1];
      LookupFirst(pairs[1..], name, i - 1);
    }
  }

  /** `searchParams.get(name)`. */
  function QueryGet(query: string, name: string): Option<string> {
    Lookup(ParseQuery(query), name)
  }

  /** The query of a URL: what follows its first `?`. */
  function QueryOf(url: string): string {
    match SplitAtFirst(url, '?')
    case None => ""
    case Some(p) => p.1
  }

  function EncodePair(p: (string, string)): string {
    FormEncode(p.0) + "=" + FormEncode(p.1)
  }

  /** `new URLSearchParams(pairs).toString()`. */
  function Serialize(pairs: seq<(string, string)>): string {
    if pairs == [] then ""
    else if |pairs| == 1 then EncodePair(pairs[0])
    else EncodePair(pairs[0]) + "&" + Serialize(pairs[1..])
  }

  lemma {:induction false} SplitNoSep(a: string, sep: char)
    requires sep !in a
    ensures Split(a, sep) == [a]
  {
    if a != [] {
      SplitNoSep(a[1..], sep);
      assert a[0] != sep && [a[0]] + a[1..] == a;
    }
  }

  lemma {:induction false} SplitConcat(a: string, sep: char, b: string)
    requires sep !in a
    ensures Split(a + [sep] + b, sep) == [a] + Split(b, sep)
  {
    var s := a + [sep] + b;
    if a == [] {
      assert s[0] == sep && s[1..] == b;
    } else {
      assert s[0] == a[0] && s[1..] == a[1..] + [sep] + b;
      SplitConcat(a[1..], sep, b);
      assert a[0] != sep && [a[0]] + a[1..] == a;
    }
  }

  lemma {:induction false} SplitAtFirstConcat(a: string, sep: char, b: string)
    requires sep !in a
    ensures SplitAtFirst(a + [sep] + b, sep) == Some((a, b))
  {
    var s := a + [sep] + b;
    if a == [] {
      assert s[0] == sep && s[1..] == b;
    } else {
      assert s[0] == a[0] && s[1..] == a[1..] + [sep] + b;
      SplitAtFirstConcat(a[1..], sep, b);
      assert a[0] != sep && [a[0]] + a[1..] == a;
    }
  }

  lemma NoSeparator(s: string, sep: char)
    requires forall i :: 0 <= i < |s| ==> EncodedChar(s[i])
    requires sep in "&=?#"
    ensures sep !in s
  {
  }

  lemma PieceRoundTrip(p: (string, string))
    ensures EncodePair(p) != "" && '&' !in EncodePair(p)
    ensures ParsePiece(EncodePair(p)) == p
  {
    var k, v := FormEncode(p.0), FormEncode(p.1);
    NoSeparator(k, '&');
    NoSeparator(v, '&');
    NoSeparator(k, '=');
    assert EncodePair(p) == k + ['='] + v;
    SplitAtFirstConcat(k, '=', v);
    FormRoundTrip(p.0);
    FormRoundTrip(p.1);
  }

  /** Parsing what `URLSearchParams` serialised gives back the same pairs in the same order. */
  lemma {:induction false} ParseSerialize(pairs: seq<(string, string)>)
    ensures ParseQuery(Serialize(pairs)) == pairs
  {
    if pairs == [] {
    } else if |pairs| == 1 {
      PieceRoundTrip(pairs[0]);
      SplitNoSep(EncodePair(pairs[0]), '&');
      assert Serialize(pairs) == EncodePair(pairs[0]);
      assert ParsePieces([EncodePair(pairs[0])]) == [pairs[0]] + ParsePieces([]);
    } else {
      PieceRoundTrip(pairs[0]);
      SplitConcat(EncodePair(pairs[0]), '&', Serialize(pairs[1..]));
      ParseSerialize(pairs[1..]);
    }
  }

  /** The query of `prefix?query` is `query`, whenever the prefix holds no `?`. */
  lemma QueryOfConcat(prefix: string, query: string)
    requires '?' !in prefix
    ensures QueryOf(prefix + "?" + query) == query
  {
    SplitAtFirstConcat(prefix, '?', query);
  }
}

/**
 * The two query encoders the strategies use.
 *
 * `encodeParams` in base.strategy.ts maps every entry to
 * `encodeURIComponent(key)=encodeURIComponent(value)` and joins them with `&`
 * (percent-encoding as in section 2.1 of RFC 3986, leaving the section 2.3
 * unreserved characters and `! * ' ( )` alone). Apple and Google serialise a
 * `URLSearchParams` instead: the application/x-www-form-urlencoded
 * serializer of section 5.2 of the WHATWG URL Standard, which leaves only
 * ASCII alphanumerics and `* - . _` alone and writes a space as `+`.
 *
 * Both write every other character as `%XX` for each byte of its UTF-8
 * encoding, with upper-case hexadecimal digits. Dafny's `char` ranges over
 * Unicode scalar values, so lone surrogates (on which `encodeURIComponent`
 * throws) cannot occur.
 *
 * The decoders below are the inverse the round-trip lemmas are stated
 * against; the gateway itself never decodes a query.
 */
module UriEncoding {
  import opened Wrappers
  import opened JsText

  type Byte = b: int | 0 <= b < 256

  /** Which serializer: `encodeURIComponent` or `URLSearchParams`. */
  datatype Flavour = Component | Form

  predicate IsAsciiAlphanumeric(c: char) {
    ('A' as int <= c as int <= 'Z' as int) || ('a' as int <= c as int <= 'z' as int)
    || ('0' as int <= c as int <= '9' as int)
  }

  /** The characters `encodeURIComponent` writes unchanged. */
  predicate IsUnreserved(c: char) {
    IsAsciiAlphanumeric(c) || c == '-' || c == '_' || c == '.' || c == '!' || c == '~'
    || c == '*' || c == '\'' || c == '(' || c == ')'
  }

  /** The characters the form-urlencoded serializer writes unchanged. */
  predicate IsFormSafe(c: char) {
    IsAsciiAlphanumeric(c) || c == '*' || c == '-' || c == '.' || c == '_'
  }

  predicate LeftAsIs(f: Flavour, c: char) {
    match f
    case Component => IsUnreserved(c)
    case Form => IsFormSafe(c)
  }

  /** The characters an encoder can produce. */
  predicate OutputChar(f: Flavour, c: char) {
    LeftAsIs(f, c) || c == '%' || (f == Form && c == '+')
  }

  // ---------------------------------------------------------------------
  // UTF-8

  /** The UTF-8 encoding of a Unicode scalar value (section 3 of RFC 3629). */
  function Utf8(c: char): (bs: seq<Byte>)
    ensures 1 <= |bs| <= 4
  {
    var cp := c as int;
    var q1, r1 := cp / 64, cp % 64;
    var q2, r2 := q1 / 64, q1 % 64;
    var q3, r3 := q2 / 64, q2 % 64;
    if cp < 0x80 then [cp]
    else if cp < 0x800 then [0xC0 + q1, 0x80 + r1]
    else if cp < 0x10000 then [0xE0 + q2, 0x80 + r2, 0x80 + r1]
    else [0xF0 + q3, 0x80 + r3, 0x80 + r2, 0x80 + r1]
  }

  /** An upper-case hexadecimal digit. */
  function HexDigit(d: nat): (c: char)
    requires d < 16
  {
    if d < 10 then ('0' as int + d) as char else ('A' as int + d - 10) as char
  }

  /** The value of a hexadecimal digit of either case, or -1. */
  function HexValue(c: char): int
  {
    if '0' as int <= c as int <= '9' as int then c as int - '0' as int
    else if 'A' as int <= c as int <= 'F' as int then c as int - 'A' as int + 10
    else if 'a' as int <= c as int <= 'f' as int then c as int - 'a' as int + 10
    else -1
  }

  function PercentByte(b: Byte): (s: string)
    ensures |s| == 3 && s[0] == '%'
  {
    ['%', HexDigit(b / 16), HexDigit(b % 16)]
  }

  function PercentBytes(bs: seq<Byte>): (s: string)
    ensures |s| == 3 * |bs|
  {
    if bs == [] then [] else PercentByte(bs[0]) + PercentBytes(bs[1..])
  }

  // ---------------------------------------------------------------------
  // Encoders

  function EncodeChar(f: Flavour, c: char): (s: string)
    ensures 1 <= |s|
    ensures forall k :: 0 <= k < |s| ==> OutputChar(f, s[k])
  {
    if LeftAsIs(f, c) then [c]
    else if f == Form && c == ' ' then "+"
    else PercentOutput(f, Utf8(c)); PercentBytes(Utf8(c))
  }

  lemma {:induction false} PercentOutput(f: Flavour, bs: seq<Byte>)
    ensures forall k :: 0 <= k < |PercentBytes(bs)| ==> OutputChar(f, PercentBytes(bs)[k])
  {
    if bs != [] {
      PercentOutput(f, bs[1..]);
      var p := PercentByte(bs[0]);
      assert LeftAsIs(f, p[1]) && LeftAsIs(f, p[2]);
      assert PercentBytes(bs) == p + PercentBytes(bs[1..]);
    }
  }

  /** `encodeURIComponent(s)` (Component) or the form serialization of `s` (Form). */
  function Encode(f: Flavour, s: string): (r: string)
    ensures forall k :: 0 <= k < |r| ==> OutputChar(f, r[k])
    ensures '&' !in r && '=' !in r && ' ' !in r
    ensures |r| >= |s|
  {
    if s == [] then []
    else EncodeChar(f, s[0]) + Encode(f, s[1..])
  }

  lemma {:induction false} EncodeAppend(f: Flavour, a: string, b: string)
    ensures Encode(f, a + b) == Encode(f, a) + Encode(f, b)
  {
    if a == [] {
      assert a + b == b;
    } else {
      assert (a + b)[1..] == a[1..] + b;
      EncodeAppend(f, a[1..], b);
    }
  }

  /** The form serializer writes a space as `+` and everything else around it as before. */
  lemma SpaceBecomesPlus(a: string, b: string)
    ensures Encode(Form, a + " " + b) == Encode(Form, a) + "+" + Encode(Form, b)
  {
    EncodeAppend(Form, a + " ", b);
    EncodeAppend(Form, a, " ");
    assert Encode(Form, " ") == "+";
  }

  /** Two words the form serializer leaves alone, joined by a space, are joined by `+`. */
  lemma FormJoinOfSafeWords(a: string, b: string)
    requires forall k :: 0 <= k < |a| ==> LeftAsIs(Form, a[k])
    requires forall k :: 0 <= k < |b| ==> LeftAsIs(Form, b[k])
    ensures Encode(Form, a + " " + b) == a + "+" + b
  {
    SpaceBecomesPlus(a, b);
    EncodeIdentity(Form, a);
    EncodeIdentity(Form, b);
  }

  /** A string made only of characters an encoder leaves alone is encoded as itself. */
  lemma {:induction false} EncodeIdentity(f: Flavour, s: string)
    requires forall k :: 0 <= k < |s| ==> LeftAsIs(f, s[k])
    ensures Encode(f, s) == s
  {
    if s != [] {
      EncodeIdentity(f, s[1..]);
    }
  }

  // ---------------------------------------------------------------------
  // Decoder

  /** The byte written as `%XY` at position `i` of `s`, if there is one. */
  function ByteAt(s: string, i: nat): Option<Byte>
  {
    if i + 3 <= |s| && s[i] == '%' && HexValue(s[i + 1]) >= 0 && HexValue(s[i + 2]) >= 0
    then Some(HexValue(s[i + 1]) * 16 + HexValue(s[i + 2]))
    else None
  }

  /** A UTF-8 continuation byte at position `i`, as its six payload bits. */
  function ContinuationAt(s: string, i: nat): Option<int>
  {
    match ByteAt(s, i)
    case Some(b) => if 0x80 <= b < 0xC0 then Some(b - 0x80) else None
    case None => None
  }

  predicate IsScalarValue(cp: int) {
    (0 <= cp < 0xD800) || (0xE000 <= cp < 0x110000)
  }

  /** A character from the code point a percent-encoded UTF-8 sequence spells, with its length. */
  function Scalar(cp: int, len: nat): Option<(char, nat)>
  {
    if IsScalarValue(cp) then Some((cp as char, len)) else None
  }

  /** Decodes one percent-encoded UTF-8 sequence at the start of `s`. */
  function DecodePercent(s: string): Option<(char, nat)>
  {
    match ByteAt(s, 0)
    case None => None
    case Some(b0) =>
      if b0 < 0x80 then Scalar(b0, 3)
      else if 0xC0 <= b0 < 0xE0 then
        match ContinuationAt(s, 3)
        case None => None
        case Some(x1) => Scalar((b0 - 0xC0) * 64 + x1, 6)
      else if 0xE0 <= b0 < 0xF0 then
        match (ContinuationAt(s, 3), ContinuationAt(s, 6))
        case (Some(x1), Some(x2)) => Scalar(((b0 - 0xE0) * 64 + x1) * 64 + x2, 9)
        case _ => None
      else if 0xF0 <= b0 < 0xF8 then
        match (ContinuationAt(s, 3), ContinuationAt(s, 6), ContinuationAt(s, 9))
        case (Some(x1), Some(x2), Some(x3)) => Scalar((((b0 - 0xF0) * 64 + x1) * 64 + x2) * 64 + x3, 12)
        case _ => None
      else None
  }

  /** Decodes the first character of a non-empty encoded string, with the length it took. */
  function DecodeOne(f: Flavour, s: string): (r: Option<(char, nat)>)
    requires s != []
    ensures r.Some? ==> 1 <= r.value.1 <= |s|
  {
    if s[0] == '%' then
      match DecodePercent(s)
      case Some((c, n)) => if 1 <= n <= |s| then Some((c, n)) else None
      case None => None
    else if f == Form && s[0] == '+' then Some((' ', 1))
    else Some((s[0], 1))
  }

  /** Percent-decoding (and `+` as space for Form); `None` on a malformed escape. */
  function Decode(f: Flavour, s: string): Option<string>
    decreases |s|
  {
    if s == [] then Some([])
    else
      match DecodeOne(f, s)
      case None => None
      case Some((c, n)) =>
        match Decode(f, s[n..])
        case None => None
        case Some(rest) => Some([c] + rest)
  }

  lemma HexRoundTrip(b: Byte)
    ensures HexValue(HexDigit(b / 16)) * 16 + HexValue(HexDigit(b % 16)) == b
  {
  }

  /** The three characters `%`, high digit, low digit at `i` spell the byte. */
  lemma ByteAtDigits(s: string, i: nat, b: Byte)
    requires i + 3 <= |s| && s[i] == '%' && s[i + 1] == HexDigit(b / 16) && s[i + 2] == HexDigit(b % 16)
    ensures ByteAt(s, i) == Some(b)
  {
    HexRoundTrip(b);
  }

  /** The `k`-th escape of `PercentBytes(bs)` spells `bs[k]`. */
  lemma {:induction false} PercentBytesAt(bs: seq<Byte>, k: nat)
    requires k < |bs|
    ensures var p := PercentBytes(bs);
      p[3 * k] == '%' && p[3 * k + 1] == HexDigit(bs[k] / 16) && p[3 * k + 2] == HexDigit(bs[k] % 16)
  {
    if k > 0 {
      PercentBytesAt(bs[1..], k - 1);
      assert PercentBytes(bs) == PercentByte(bs[0]) + PercentBytes(bs[1..]);
    }
  }

  lemma ByteAtPercent(bs: seq<Byte>, tail: string, k: nat)
    requires k < |bs|
    ensures ByteAt(PercentBytes(bs) + tail, 3 * k) == Some(bs[k])
  {
    var p := PercentBytes(bs);
    var s := p + tail;
    var i := 3 * k;
    assert i + 3 <= |p|;
    PercentBytesAt(bs, k);
    assert s[i] == p[i] && s[i + 1] == p[i + 1] && s[i + 2] == p[i + 2];
    ByteAtDigits(s, i, bs[k]);
  }

  /** A two-byte sequence: a lead byte `110xxxxx` and one continuation byte. */
  lemma DecodeTwo(s: string, b0: Byte, b1: Byte)
    requires ByteAt(s, 0) == Some(b0) && 0xC0 <= b0 < 0xE0
    requires ByteAt(s, 3) == Some(b1) && 0x80 <= b1 < 0xC0
    ensures DecodePercent(s) == Scalar((b0 - 0xC0) * 64 + (b1 - 0x80), 6)
  {
  }

  /** A three-byte sequence: a lead byte `1110xxxx` and two continuation bytes. */
  lemma DecodeThree(s: string, b0: Byte, b1: Byte, b2: Byte)
    requires ByteAt(s, 0) == Some(b0) && 0xE0 <= b0 < 0xF0
    requires ByteAt(s, 3) == Some(b1) && 0x80 <= b1 < 0xC0
    requires ByteAt(s, 6) == Some(b2) && 0x80 <= b2 < 0xC0
    ensures DecodePercent(s) == Scalar(((b0 - 0xE0) * 64 + (b1 - 0x80)) * 64 + (b2 - 0x80), 9)
  {
  }

  /** A four-byte sequence: a lead byte `11110xxx` and three continuation bytes. */
  lemma DecodeFour(s: string, b0: Byte, b1: Byte, b2: Byte, b3: Byte)
    requires ByteAt(s, 0) == Some(b0) && 0xF0 <= b0 < 0xF8
    requires ByteAt(s, 3) == Some(b1) && 0x80 <= b1 < 0xC0
    requires ByteAt(s, 6) == Some(b2) && 0x80 <= b2 < 0xC0
    requires ByteAt(s, 9) == Some(b3) && 0x80 <= b3 < 0xC0
    ensures DecodePercent(s) == Scalar((((b0 - 0xF0) * 64 + (b1 - 0x80)) * 64 + (b2 - 0x80)) * 64 + (b3 - 0x80), 12)
  {
  }

  /**
   * `bs` is a UTF-8 sequence for code point `cp`: the lead and continuation
   * bytes have the ranges of its length, and their payload bits put back
   * together give `cp`.
   */
  predicate Utf8Spells(bs: seq<Byte>, cp: int) {
    && 1 <= |bs| <= 4
    && (|bs| == 1 ==> bs[0] == cp < 0x80)
    && (|bs| == 2 ==>
          && 0xC0 <= bs[0] < 0xE0 && 0x80 <= bs[1] < 0xC0
          && (bs[0] as int - 0xC0) * 64 + (bs[1] as int - 0x80) == cp)
    && (|bs| == 3 ==>
          && 0xE0 <= bs[0] < 0xF0 && 0x80 <= bs[1] < 0xC0 && 0x80 <= bs[2] < 0xC0
          && ((bs[0] as int - 0xE0) * 64 + (bs[1] as int - 0x80)) * 64 + (bs[2] as int - 0x80) == cp)
    && (|bs| == 4 ==>
          && 0xF0 <= bs[0] < 0xF8 && 0x80 <= bs[1] < 0xC0 && 0x80 <= bs[2] < 0xC0 && 0x80 <= bs[3] < 0xC0
          && (((bs[0] as int - 0xF0) * 64 + (bs[1] as int - 0x80)) * 64 + (bs[2] as int - 0x80)) * 64 + (bs[3] as int - 0x80) == cp)
  }

  /** The encoder's bytes for a character are a UTF-8 sequence for its code point. */
  lemma Utf8Payload(c: char)
    ensures Utf8Spells(Utf8(c), c as int)
  {
    var cp := c as int;
    var q1, r1 := cp / 64, cp % 64;
    var q2, r2 := q1 / 64, q1 % 64;
    var q3, r3 := q2 / 64, q2 % 64;
    assert cp == q1 * 64 + r1 && q1 == q2 * 64 + r2 && q2 == q3 * 64 + r3;
  }

  /** The escapes of a UTF-8 sequence decode to its code point, taking three characters a byte. */
  lemma DecodeUtf8Escapes(bs: seq<Byte>, tail: string, cp: int)
    requires Utf8Spells(bs, cp)
    ensures DecodePercent(PercentBytes(bs) + tail) == Scalar(cp, 3 * |bs|)
  {
    var s := PercentBytes(bs) + tail;
    ByteAtPercent(bs, tail, 0);
    if |bs| == 2 {
      ByteAtPercent(bs, tail, 1);
      DecodeTwo(s, bs[0], bs[1]);
    } else if |bs| == 3 {
      ByteAtPercent(bs, tail, 1);
      ByteAtPercent(bs, tail, 2);
      DecodeThree(s, bs[0], bs[1], bs[2]);
    } else if |bs| == 4 {
      ByteAtPercent(bs, tail, 1);
      ByteAtPercent(bs, tail, 2);
      ByteAtPercent(bs, tail, 3);
      DecodeFour(s, bs[0], bs[1], bs[2], bs[3]);
    }
  }

  /** Decoding the first escape sequence of an encoded character gives the character. */
  lemma DecodePercentUtf8(c: char, tail: string)
    ensures DecodePercent(PercentBytes(Utf8(c)) + tail) == Some((c, 3 * |Utf8(c)|))
  {
    Utf8Payload(c);
    DecodeUtf8Escapes(Utf8(c), tail, c as int);
  }

  /** Decoding the encoding of a character followed by anything reads that character first. */
  lemma DecodeOneEncoded(f: Flavour, c: char, tail: string)
    ensures DecodeOne(f, EncodeChar(f, c) + tail) == Some((c, |EncodeChar(f, c)|))
  {
    var e := EncodeChar(f, c);
    var s := e + tail;
    if LeftAsIs(f, c) {
      assert s[0] == c;
    } else if f == Form && c == ' ' {
      assert s[0] == '+';
    } else {
      assert s[0] == '%';
      DecodePercentUtf8(c, tail);
    }
  }

  /** Percent-decoding undoes either encoder. */
  lemma {:induction false} DecodeEncode(f: Flavour, s: string)
    ensures Decode(f, Encode(f, s)) == Some(s)
  {
    if s != [] {
      var e := EncodeChar(f, s[0]);
      var rest := Encode(f, s[1..]);
      DecodeOneEncoded(f, s[0], rest);
      assert (e + rest)[|e|..] == rest;
      DecodeEncode(f, s[1..]);
      assert [s[0]] + s[1..] == s;
    }
  }

  // ---------------------------------------------------------------------
  // Query strings

  /** `key=value` with both sides encoded. */
  function EncodePair(f: Flavour, entry: (string, string)): (p: string)
    ensures '&' !in p
  {
    Encode(f, entry.0) + "=" + Encode(f, entry.1)
  }

  function EncodePairs(f: Flavour, entries: seq<(string, string)>): (ps: seq<string>)
    ensures |ps| == |entries|
    ensures forall k :: 0 <= k < |ps| ==> ps[k] == EncodePair(f, entries[k])
  {
    if entries == [] then [] else [EncodePair(f, entries[0])] + EncodePairs(f, entries[1..])
  }

  /** The encoded entries in order, joined by `&`. */
  function Serialize(f: Flavour, entries: seq<(string, string)>): string
  {
    Join(EncodePairs(f, entries), "&")
  }

  /** `encodeParams(params)` of base.strategy.ts over the record's entries in order. */
  function EncodeParams(entries: seq<(string, string)>): string
  {
    Serialize(Component, entries)
  }

  /** `new URLSearchParams(record).toString()` over the record's entries in order. */
  function FormSerialize(entries: seq<(string, string)>): string
  {
    Serialize(Form, entries)
  }

  /** Splits one `key=value` piece at its first `=` and decodes both sides. */
  function ParsePair(f: Flavour, p: string): Option<(string, string)>
  {
    var i := IndexOf(p, '=');
    var key := Decode(f, p[..i]);
    var value := if i < |p| then Decode(f, p[i + 1..]) else Some("");
    if key.Some? && value.Some? then Some((key.value, value.value)) else None
  }

  function ParsePairs(f: Flavour, pieces: seq<string>): Option<seq<(string, string)>>
  {
    if pieces == [] then Some([])
    else
      match (ParsePair(f, pieces[0]), ParsePairs(f, pieces[1..]))
      case (Some(e), Some(es)) => Some([e] + es)
      case _ => None
  }

  /** Splits on `&`, then each piece on its first `=`, and percent-decodes. */
  function ParseQuery(f: Flavour, s: string): Option<seq<(string, string)>>
  {
    if s == "" then Some([]) else ParsePairs(f, Split(s, '&'))
  }

  lemma ParsePairEncoded(f: Flavour, entry: (string, string))
    ensures ParsePair(f, EncodePair(f, entry)) == Some(entry)
  {
    var k := Encode(f, entry.0);
    var v := Encode(f, entry.1);
    var p := k + "=" + v;
    assert p == k + ['='] + v;
    IndexOfAfter(k, '=', v);
    assert p[..|k|] == k;
    assert p[|k| + 1..] == v;
    DecodeEncode(f, entry.0);
    DecodeEncode(f, entry.1);
  }

  lemma {:induction false} ParsePairsEncoded(f: Flavour, entries: seq<(string, string)>)
    ensures ParsePairs(f, EncodePairs(f, entries)) == Some(entries)
  {
    if entries != [] {
      ParsePairEncoded(f, entries[0]);
      ParsePairsEncoded(f, entries[1..]);
      assert EncodePairs(f, entries)[1..] == EncodePairs(f, entries[1..]);
      assert [entries[0]] + entries[1..] == entries;
    }
  }

  /**
   * Round trip: splitting a serialized query on `&`, each piece on its first
   * `=`, and decoding both sides recovers the entries in order. This holds
   * because no encoded key or value contains `&`, `=` or a space.
   */
  lemma SerializeRoundTrip(f: Flavour, entries: seq<(string, string)>)
    ensures ParseQuery(f, Serialize(f, entries)) == Some(entries)
  {
    var pieces := EncodePairs(f, entries);
    if entries != [] {
      assert '=' in pieces[0];
      assert Serialize(f, entries) != "";
      SplitJoin(pieces, '&');
      ParsePairsEncoded(f, entries);
    }
  }

  /** There is one `&` fewer than there are entries; no entries give the empty string. */
  lemma SeparatorCount(f: Flavour, entries: seq<(string, string)>)
    ensures entries == [] ==> Serialize(f, entries) == ""
    ensures entries != [] ==> Count(Serialize(f, entries), '&') == |entries| - 1
  {
    if entries != [] {
      CountJoin(EncodePairs(f, entries), '&');
    }
  }
}

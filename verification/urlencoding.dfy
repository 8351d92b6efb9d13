/** PHP's `urlencode` and `http_build_query` for string-keyed arrays of
    strings, and their inverses `urldecode` and query parsing.

    `urlencode` works on the UTF-8 bytes of its argument and follows RFC 1738
    form encoding: ASCII letters, digits and `-`, `_`, `.` stay as they are,
    a space becomes `+`, and every other byte becomes `%` and two upper-case
    hex digits. `http_build_query` writes `urlencode(key)=urlencode(value)`
    for each pair in order and joins the pieces with `&`. */
module UrlEncoding {
  import opened Maybe
  import opened Strings
  import opened Assoc

  newtype byte = x: int | 0 <= x < 256

  /** A string-keyed PHP array of strings: a request's parameters. */
  type Params = Pairs<string>

  // ---------------------------------------------------------------------------
  // UTF-8 (RFC 3629)
  // ---------------------------------------------------------------------------

  predicate IsScalar(n: int) {
    (0 <= n < 0xD800) || (0xE000 <= n < 0x11_0000)
  }

  predicate IsContinuation(b: byte) { 0x80 <= b < 0xC0 }

  /** The UTF-8 encoding of one scalar value: one to four bytes, the first of
      which announces the length. */
  function Utf8Char(c: char): (bs: seq<byte>)
    ensures 1 <= |bs| <= 4
    ensures |bs| == 1 <==> c as int < 0x80
    ensures |bs| == 1 ==> bs[0] as int == c as int
    ensures |bs| > 1 ==> bs[0] >= 0xC0 && forall k :: 1 <= k < |bs| ==> IsContinuation(bs[k])
  {
    var n := c as int;
    if n < 0x80 then [n as byte]
    else if n < 0x800 then [(0xC0 + n / 64) as byte, (0x80 + n % 64) as byte]
    else if n < 0x1_0000 then
      [(0xE0 + n / 4096) as byte, (0x80 + (n / 64) % 64) as byte, (0x80 + n % 64) as byte]
    else
      [(0xF0 + n / 262144) as byte, (0x80 + (n / 4096) % 64) as byte,
       (0x80 + (n / 64) % 64) as byte, (0x80 + n % 64) as byte]
  }

  /** The UTF-8 encoding of a string. */
  function Utf8(s: string): seq<byte> {
    if |s| == 0 then [] else Utf8Char(s[0]) + Utf8(s[1..])
  }

  /** The number of bytes a sequence announced by lead byte `b` occupies, or 0
      when `b` cannot begin a sequence. */
  function SeqLength(b: byte): nat {
    if b < 0x80 then 1
    else if 0xC0 <= b < 0xE0 then 2
    else if 0xE0 <= b < 0xF0 then 3
    else if 0xF0 <= b < 0xF8 then 4
    else 0
  }

  /** The scalar value of the well-formed sequence at the front of `bs`. */
  function DecodeChar(bs: seq<byte>): Option<char> {
    if |bs| == 0 || SeqLength(bs[0]) == 0 || |bs| < SeqLength(bs[0]) then None
    else if exists k :: 1 <= k < SeqLength(bs[0]) && !IsContinuation(bs[k]) then None
    else
      var n := match SeqLength(bs[0])
        case 1 => bs[0] as int
        case 2 => (bs[0] as int - 0xC0) * 64 + (bs[1] as int - 0x80)
        case 3 => (bs[0] as int - 0xE0) * 4096 + (bs[1] as int - 0x80) * 64 + (bs[2] as int - 0x80)
        case _ => (bs[0] as int - 0xF0) * 262144 + (bs[1] as int - 0x80) * 4096
                  + (bs[2] as int - 0x80) * 64 + (bs[3] as int - 0x80);
      if IsScalar(n) then Some(n as char) else None
  }

  /** UTF-8 decoding: `None` unless the bytes split into sequences that each
      decode to a scalar value. */
  function DecodeUtf8(bs: seq<byte>): Option<string>
    decreases |bs|
  {
    if |bs| == 0 then Some([])
    else match DecodeChar(bs)
      case None => None
      case Some(c) =>
        match DecodeUtf8(bs[SeqLength(bs[0])..])
        case None => None
        case Some(rest) => Some([c] + rest)
  }

  /** The arithmetic behind `Utf8Char`: its bytes carry the value's bits. */
  lemma Utf8CharValue(c: char)
    ensures var bs := Utf8Char(c); var n := c as int;
      SeqLength(bs[0]) == |bs| &&
      (|bs| == 2 ==> (bs[0] as int - 0xC0) * 64 + (bs[1] as int - 0x80) == n) &&
      (|bs| == 3 ==> (bs[0] as int - 0xE0) * 4096 + (bs[1] as int - 0x80) * 64 + (bs[2] as int - 0x80) == n) &&
      (|bs| == 4 ==> (bs[0] as int - 0xF0) * 262144 + (bs[1] as int - 0x80) * 4096
                     + (bs[2] as int - 0x80) * 64 + (bs[3] as int - 0x80) == n)
  {
    var n := c as int;
    if 0x800 <= n {
      ThreeDigits(n);
    }
    if n >= 0x1_0000 {
      assert n / 4096 == (n / 262144) * 64 + (n / 4096) % 64;
    }
  }

  /** A value read as three base-64 digits. */
  lemma ThreeDigits(n: nat)
    ensures n == (n / 4096) * 4096 + ((n / 64) % 64) * 64 + n % 64
  {
  }

  /** One encoded character decodes back to itself, whatever follows it. */
  lemma DecodeCharPrefix(c: char, rest: seq<byte>)
    ensures DecodeChar(Utf8Char(c) + rest) == Some(c)
    ensures SeqLength(Utf8Char(c)[0]) == |Utf8Char(c)|
  {
    Utf8CharValue(c);
    var bs := Utf8Char(c) + rest;
    assert bs[0] == Utf8Char(c)[0];
    assert forall k :: 1 <= k < |Utf8Char(c)| ==> bs[k] == Utf8Char(c)[k];
  }

  /** Decoding undoes encoding, for every string. */
  lemma {:induction false} DecodeUtf8Encode(s: string)
    ensures DecodeUtf8(Utf8(s)) == Some(s)
    decreases |s|
  {
    if |s| > 0 {
      var bs := Utf8(s);
      DecodeCharPrefix(s[0], Utf8(s[1..]));
      assert bs[SeqLength(bs[0])..] == Utf8(s[1..]);
      DecodeUtf8Encode(s[1..]);
      assert [s[0]] + s[1..] == s;
    }
  }

  // ---------------------------------------------------------------------------
  // urlencode / urldecode
  // ---------------------------------------------------------------------------

  const HexDigits: string := "0123456789ABCDEF"

  /** The bytes `urlencode` leaves as they are: ASCII letters, digits, `-`,
      `_` and `.`. */
  predicate Unreserved(b: byte) {
    (0x30 <= b <= 0x39) || (0x41 <= b <= 0x5A) || (0x61 <= b <= 0x7A) || b == 0x2D || b == 0x5F || b == 0x2E
  }

  /** The characters `urlencode` can produce. */
  predicate EncodedChar(c: char) {
    ('0' <= c <= '9') || ('A' <= c <= 'Z') || ('a' <= c <= 'z') || c == '-' || c == '_' || c == '.' || c == '+' || c == '%'
  }

  /** The encoding of one byte. */
  function EncodeByte(b: byte): (t: string)
    ensures forall k :: 0 <= k < |t| ==> EncodedChar(t[k])
  {
    if Unreserved(b) then [(b as int) as char]
    else if b == 0x20 then "+"
    else ['%', HexDigits[b / 16], HexDigits[b % 16]]
  }

  function EncodeBytes(bs: seq<byte>): (t: string)
    ensures forall k :: 0 <= k < |t| ==> EncodedChar(t[k])
  {
    if |bs| == 0 then "" else EncodeByte(bs[0]) + EncodeBytes(bs[1..])
  }

  /** `urlencode(s)`. */
  function UrlEncode(s: string): (t: string)
    ensures forall k :: 0 <= k < |t| ==> EncodedChar(t[k])
  {
    EncodeBytes(Utf8(s))
  }

  predicate IsHex(c: char) {
    ('0' <= c <= '9') || ('A' <= c <= 'F') || ('a' <= c <= 'f')
  }

  function HexValue(c: char): (v: nat)
    requires IsHex(c)
    ensures v < 16
  {
    if '0' <= c <= '9' then c as int - '0' as int
    else if 'A' <= c <= 'F' then c as int - 'A' as int + 10
    else c as int - 'a' as int + 10
  }

  /** The bytes `urldecode` produces: `+` is a space, `%` followed by two hex
      digits (either case) is that byte, and any other character, including
      a `%` without two hex digits after it, stands for its own UTF-8 bytes. */
  function PercentDecode(t: string): seq<byte>
    decreases |t|
  {
    if |t| == 0 then []
    else if t[0] == '%' && |t| >= 3 && IsHex(t[1]) && IsHex(t[2]) then
      [(HexValue(t[1]) * 16 + HexValue(t[2])) as byte] + PercentDecode(t[3..])
    else if t[0] == '+' then [0x20] + PercentDecode(t[1..])
    else Utf8Char(t[0]) + PercentDecode(t[1..])
  }

  /** `urldecode` read back as text: `None` when the bytes are not UTF-8. */
  function UrlDecode(t: string): Option<string> {
    DecodeUtf8(PercentDecode(t))
  }

  /** Decoding one encoded byte yields the byte, whatever follows it. */
  lemma PercentDecodeByte(b: byte, rest: string)
    ensures PercentDecode(EncodeByte(b) + rest) == [b] + PercentDecode(rest)
  {
    var t := EncodeByte(b) + rest;
    if Unreserved(b) {
      assert t[1..] == rest;
    } else if b == 0x20 {
      assert t[1..] == rest;
    } else {
      HexDigitValue(b as int / 16);
      HexDigitValue(b as int % 16);
      assert t[3..] == rest;
    }
  }

  /** Each hex digit `urlencode` writes reads back as its value. */
  lemma HexDigitValue(d: int)
    requires 0 <= d < 16
    ensures IsHex(HexDigits[d]) && HexValue(HexDigits[d]) == d
  {
    if d < 10 {
      assert HexDigits[d] == ('0' as int + d) as char;
    } else {
      assert HexDigits[d] == ('A' as int + d - 10) as char;
    }
  }

  lemma {:induction false} PercentDecodeEncode(bs: seq<byte>)
    ensures PercentDecode(EncodeBytes(bs)) == bs
    decreases |bs|
  {
    if |bs| > 0 {
      PercentDecodeByte(bs[0], EncodeBytes(bs[1..]));
      PercentDecodeEncode(bs[1..]);
    }
  }

  /** `urldecode(urlencode(s)) == s` for every string. */
  lemma UrlDecodeEncode(s: string)
    ensures UrlDecode(UrlEncode(s)) == Some(s)
  {
    PercentDecodeEncode(Utf8(s));
    DecodeUtf8Encode(s);
  }

  /** So `urlencode` is injective: distinct strings encode differently. */
  lemma UrlEncodeInjective(s: string, s': string)
    requires UrlEncode(s) == UrlEncode(s')
    ensures s == s'
  {
    UrlDecodeEncode(s);
    UrlDecodeEncode(s');
  }

  /** Text that needs no escaping is encoded as itself. */
  lemma {:induction false} UrlEncodePlain(s: string)
    requires forall k :: 0 <= k < |s| ==> EncodedChar(s[k]) && s[k] != '+' && s[k] != '%'
    ensures UrlEncode(s) == s
    decreases |s|
  {
    if |s| > 0 {
      assert Utf8Char(s[0]) == [(s[0] as int) as byte];
      UrlEncodePlain(s[1..]);
      assert Utf8(s) == [(s[0] as int) as byte] + Utf8(s[1..]);
      assert EncodeBytes(Utf8(s)) == EncodeByte((s[0] as int) as byte) + EncodeBytes(Utf8(s[1..]));
      assert [s[0]] + s[1..] == s;
    }
  }

  // ---------------------------------------------------------------------------
  // http_build_query and its inverse
  // ---------------------------------------------------------------------------

  /** The piece `urlencode(k)=urlencode(v)` of one pair. */
  function QueryPair(p: (string, string)): string {
    UrlEncode(p.0) + "=" + UrlEncode(p.1)
  }

  function QueryPairs(ps: Params): (xs: seq<string>)
    ensures |xs| == |ps|
    ensures forall i :: 0 <= i < |ps| ==> xs[i] == QueryPair(ps[i])
  {
    if |ps| == 0 then [] else [QueryPair(ps[0])] + QueryPairs(ps[1..])
  }

  /** `http_build_query(ps)`. */
  function BuildQuery(ps: Params): string {
    Join("&", QueryPairs(ps))
  }

  /** Parsing one `key=value` piece. */
  function ParsePair(piece: string): Option<(string, string)> {
    var kv := Split(piece, '=');
    if |kv| != 2 then None
    else match (UrlDecode(kv[0]), UrlDecode(kv[1]))
      case (Some(k), Some(v)) => Some((k, v))
      case _ => None
  }

  function ParsePieces(pieces: seq<string>): Option<Params> {
    if |pieces| == 0 then Some([])
    else match (ParsePair(pieces[0]), ParsePieces(pieces[1..]))
      case (Some(p), Some(rest)) => Some([p] + rest)
      case _ => None
  }

  /** Reading a query string back into its pairs: the empty string is the
      empty array, and otherwise every `&`-separated piece must be a
      `key=value` whose halves decode. */
  function ParseQuery(q: string): Option<Params> {
    if q == "" then Some([]) else ParsePieces(Split(q, '&'))
  }

  /** Encoded text contains neither `&` nor `=` nor `?`: the query's own
      delimiters never occur inside a key or a value. */
  lemma UrlEncodeAvoids(s: string)
    ensures '&' !in UrlEncode(s) && '=' !in UrlEncode(s) && '?' !in UrlEncode(s) && '#' !in UrlEncode(s)
  {
  }

  lemma ParsePairOf(p: (string, string))
    ensures ParsePair(QueryPair(p)) == Some(p)
  {
    UrlEncodeAvoids(p.0);
    UrlEncodeAvoids(p.1);
    assert QueryPair(p) == UrlEncode(p.0) + ['='] + UrlEncode(p.1);
    SplitAfterSep(UrlEncode(p.0), UrlEncode(p.1), '=');
    SplitWithoutSep(UrlEncode(p.1), '=');
    UrlDecodeEncode(p.0);
    UrlDecodeEncode(p.1);
  }

  lemma {:induction false} ParsePiecesOf(ps: Params)
    ensures ParsePieces(QueryPairs(ps)) == Some(ps)
    decreases |ps|
  {
    if |ps| > 0 {
      ParsePairOf(ps[0]);
      ParsePiecesOf(ps[1..]);
      assert QueryPairs(ps)[1..] == QueryPairs(ps[1..]);
      assert [ps[0]] + ps[1..] == ps;
    }
  }

  /** Parsing a built query returns exactly the pairs, in order, for every
      array of string pairs. */
  lemma ParseBuildQuery(ps: Params)
    ensures ParseQuery(BuildQuery(ps)) == Some(ps)
  {
    var xs := QueryPairs(ps);
    forall i | 0 <= i < |xs| ensures '&' !in xs[i] {
      UrlEncodeAvoids(ps[i].0);
      UrlEncodeAvoids(ps[i].1);
    }
    if |ps| == 0 {
    } else {
      assert '=' in xs[0];
      assert BuildQuery(ps) != "" by {
        if |xs| == 1 {
        } else {
          assert Join("&", xs) == xs[0] + "&" + Join("&", xs[1..]);
        }
      }
      SplitJoin(xs, '&');
      ParsePiecesOf(ps);
    }
  }

  /** Hence the query determines the pairs: `http_build_query` is injective on
      string arrays. */
  lemma BuildQueryInjective(ps: Params, ps': Params)
    requires BuildQuery(ps) == BuildQuery(ps')
    ensures ps == ps'
  {
    ParseBuildQuery(ps);
    ParseBuildQuery(ps');
  }

  /** The query contains no `?`. */
  lemma BuildQueryAvoids(ps: Params)
    ensures '?' !in BuildQuery(ps) && '#' !in BuildQuery(ps)
  {
    var xs := QueryPairs(ps);
    forall i | 0 <= i < |xs| ensures '?' !in xs[i] && '#' !in xs[i] {
      UrlEncodeAvoids(ps[i].0);
      UrlEncodeAvoids(ps[i].1);
    }
    JoinAvoids("&", xs, '?');
    JoinAvoids("&", xs, '#');
  }
}

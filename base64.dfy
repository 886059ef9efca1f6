/** Base64 as defined in section 4 of RFC 4648 and its URL-safe alphabet of
    section 5, used for the OAuth `state` parameter and for Gmail's `raw`
    message field. Bytes are `bv8`. */
module Base64 {
  import opened Wrappers

  type byte = bv8

  /** A 6-bit value, one character of the encoding. */
  type sextet = x: bv8 | x < 64

  /** The standard alphabet: A-Z, a-z, 0-9, '+', '/'. */
  function Symbol(x: sextet): (c: char)
    ensures SymbolValue(c) == Some(x)
  {
    var k := x as int;
    if k < 26 then ('A' as int + k) as char
    else if k < 52 then ('a' as int + k - 26) as char
    else if k < 62 then ('0' as int + k - 52) as char
    else if k == 62 then '+'
    else '/'
  }

  /** The inverse of `Symbol`; `None` for a character outside the alphabet. */
  function SymbolValue(c: char): Option<sextet> {
    if 'A' <= c <= 'Z' then Some((c as int - 'A' as int) as bv8)
    else if 'a' <= c <= 'z' then Some((c as int - 'a' as int + 26) as bv8)
    else if '0' <= c <= '9' then Some((c as int - '0' as int + 52) as bv8)
    else if c == '+' then Some(62)
    else if c == '/' then Some(63)
    else None
  }

  predicate InAlphabet(c: char) {
    SymbolValue(c).Some?
  }

  predicate AllInAlphabet(s: string) {
    forall i :: 0 <= i < |s| ==> InAlphabet(s[i])
  }

  /** One to three bytes as two to four characters, without padding. */
  function Chunk(b: seq<byte>): (s: string)
    requires 1 <= |b| <= 3
    ensures |s| == |b| + 1
    ensures AllInAlphabet(s)
  {
    var b1: bv8 := if |b| > 1 then b[1] else 0;
    var b2: bv8 := if |b| > 2 then b[2] else 0;
    var x := Sextets(b[0], b1, b2);
    var c0, c1, c2, c3 := Symbol(x.0), Symbol(x.1), Symbol(x.2), Symbol(x.3);
    if |b| == 1 then [c0, c1]
    else if |b| == 2 then [c0, c1, c2]
    else [c0, c1, c2, c3]
  }

  /** Two to four characters as one to three bytes; the bits past the last
      whole byte are dropped. */
  function DecodeChunk(s: string): Option<seq<byte>>
    requires 2 <= |s| <= 4
  {
    if !AllInAlphabet(s) then None
    else
      var x0 := SymbolValue(s[0]).value;
      var x1 := SymbolValue(s[1]).value;
      var x2: bv8 := if |s| > 2 then SymbolValue(s[2]).value else 0;
      var x3: bv8 := if |s| > 3 then SymbolValue(s[3]).value else 0;
      var y := Octets(x0, x1, x2, x3);
      Some(if |s| == 2 then [y.0] else if |s| == 3 then [y.0, y.1] else [y.0, y.1, y.2])
  }

  /** The bits of three bytes as four sextets, most significant first. */
  function Sextets(b0: bv8, b1: bv8, b2: bv8): (x: (sextet, sextet, sextet, sextet))
  {
    (b0 >> 2, ((b0 & 3) << 4) | (b1 >> 4), ((b1 & 15) << 2) | (b2 >> 6), b2 & 63)
  }

  /** The bits of four sextets as three bytes. */
  function Octets(x0: bv8, x1: bv8, x2: bv8, x3: bv8): (b: (bv8, bv8, bv8))
  {
    ((x0 << 2) | (x1 >> 4), ((x1 & 15) << 4) | (x2 >> 2), ((x2 & 3) << 6) | x3)
  }

  /** Regrouping three bytes into four sextets and back loses no bit. */
  lemma RegroupBits(b0: bv8, b1: bv8, b2: bv8)
    ensures var x := Sextets(b0, b1, b2); Octets(x.0, x.1, x.2, x.3) == (b0, b1, b2)
  {
  }

  lemma ChunkRoundTrip(b: seq<byte>)
    requires 1 <= |b| <= 3
    ensures DecodeChunk(Chunk(b)) == Some(b)
  {
    var b1: bv8 := if |b| > 1 then b[1] else 0;
    var b2: bv8 := if |b| > 2 then b[2] else 0;
    RegroupBits(b[0], b1, b2);
    if |b| == 1 {
      assert b == [b[0]];
    } else if |b| == 2 {
      assert b == [b[0], b1];
    } else {
      assert b == [b[0], b1, b2];
    }
  }

  /** The encoding without its trailing '=' padding. */
  function EncodeUnpadded(b: seq<byte>): (s: string)
    ensures AllInAlphabet(s)
    ensures |s| == (4 * |b| + 2) / 3
  {
    if b == [] then []
    else if |b| <= 3 then Chunk(b)
    else Chunk(b[..3]) + EncodeUnpadded(b[3..])
  }

  /** The '=' characters that complete the last group of four. */
  function Padding(n: nat): string {
    if n % 3 == 1 then "==" else if n % 3 == 2 then "=" else ""
  }

  /** `Buffer.from(bytes).toString("base64")` */
  function Encode(b: seq<byte>): string {
    EncodeUnpadded(b) + Padding(|b|)
  }

  function DecodeUnpadded(s: string): Option<seq<byte>>
  {
    if s == [] then Some([])
    else if |s| == 1 then None
    else if |s| <= 4 then DecodeChunk(s)
    else
      match DecodeChunk(s[..4])
      case None => None
      case Some(head) =>
        match DecodeUnpadded(s[4..])
        case None => None
        case Some(tail) => Some(head + tail)
  }

  /** Base64 decoding that accepts the text with its padding or without it,
      and refuses characters outside the alphabet. */
  function Decode(s: string): Option<seq<byte>> {
    DecodeUnpadded(Unpad(s))
  }

  /** The text without a final "==" or, failing that, a final "=". */
  function Unpad(s: string): (body: string)
    ensures |body| <= |s| && body == s[..|body|]
  {
    if |s| >= 2 && s[|s| - 2..] == "==" then s[..|s| - 2]
    else if |s| >= 1 && s[|s| - 1] == '=' then s[..|s| - 1]
    else s
  }

  lemma {:induction false} UnpaddedRoundTrip(b: seq<byte>)
    ensures DecodeUnpadded(EncodeUnpadded(b)) == Some(b)
  {
    if b == [] {
    } else if |b| <= 3 {
      ChunkRoundTrip(b);
    } else {
      var head := Chunk(b[..3]);
      var tail := EncodeUnpadded(b[3..]);
      var s := head + tail;
      assert s[..4] == head && s[4..] == tail;
      ChunkRoundTrip(b[..3]);
      UnpaddedRoundTrip(b[3..]);
      assert b[..3] + b[3..] == b;
    }
  }

  /** `Decode` removes exactly the padding the encoder appended. */
  lemma DecodeDropsPadding(body: string, p: string)
    requires AllInAlphabet(body)
    requires p == "" || p == "=" || p == "=="
    requires p == "=" ==> body != []
    ensures Unpad(body + p) == body
    ensures Decode(body + p) == DecodeUnpadded(body)
  {
    var s := body + p;
    if p == "==" {
      assert s[|s| - 2..] == "==" && s[..|s| - 2] == body;
    } else if p == "=" {
      assert s[|s| - 2] == body[|body| - 1];
      assert InAlphabet(body[|body| - 1]);
      assert s[|s| - 1] == '=' && s[..|s| - 1] == body;
    } else {
      assert s == body;
      if |s| >= 1 {
        assert InAlphabet(s[|s| - 1]);
      }
    }
  }

  /** Decoding an encoding gives the bytes back. */
  lemma RoundTrip(b: seq<byte>)
    ensures Decode(Encode(b)) == Some(b)
  {
    DecodeDropsPadding(EncodeUnpadded(b), Padding(|b|));
    UnpaddedRoundTrip(b);
  }

  /** A strict decoding never leaves a lone character in the last group. */
  lemma {:induction false} DecodedLength(s: string)
    requires DecodeUnpadded(s).Some?
    ensures |s| % 4 != 1
  {
    if |s| > 4 {
      var rest := s[4..];
      assert DecodeUnpadded(rest).Some?;
      DecodedLength(rest);
      ShiftGroup(|rest|);
    }
  }

  lemma ShiftGroup(n: nat)
    ensures (n + 4) % 4 == n % 4
  {
  }

  /** Every alphabet text whose last group is not a lone character decodes. */
  lemma {:induction false} DecodeAlphabetic(s: string)
    requires AllInAlphabet(s) && |s| % 4 != 1
    ensures DecodeUnpadded(s).Some?
  {
    if |s| > 4 {
      assert AllInAlphabet(s[..4]);
      DecodeAlphabetic(s[4..]);
    }
  }

  // ---------------------------------------------------------------------------
  // Node's reading of `Buffer.from(s, "base64")`

  /** The standard character a character stands for when Node decodes: the
      URL-safe '-' and '_' count as '+' and '/'. */
  function FromUrlChar(c: char): char {
    if c == '-' then '+' else if c == '_' then '/' else c
  }

  /** The characters Node decodes, in the standard alphabet: reading stops at
      the first '=' and every character of neither alphabet is skipped. */
  function Canonical(s: string): (r: string)
    ensures AllInAlphabet(r) && |r| <= |s|
  {
    if s == [] || s[0] == '=' then []
    else if InAlphabet(FromUrlChar(s[0])) then [FromUrlChar(s[0])] + Canonical(s[1..])
    else Canonical(s[1..])
  }

  /** `Buffer.from(s, "base64")`: decodes what `Canonical` keeps, dropping a
      lone character left over at the end; it never fails. */
  function LenientDecode(s: string): seq<byte> {
    var c := Canonical(s);
    var whole := if |c| % 4 == 1 then c[..|c| - 1] else c;
    assert AllInAlphabet(whole);
    DecodeAlphabetic(whole);
    DecodeUnpadded(whole).value
  }

  lemma {:induction false} CanonicalOfAlphabet(body: string, p: string)
    requires AllInAlphabet(body)
    requires p == [] || p[0] == '='
    ensures Canonical(body + p) == body
  {
    if body == [] {
      assert body + p == p;
    } else {
      assert InAlphabet(body[0]);
      assert (body + p)[1..] == body[1..] + p;
      CanonicalOfAlphabet(body[1..], p);
    }
  }

  /** Wherever the strict decoder succeeds, Node's decoder gives the same
      bytes. */
  lemma LenientExtendsStrict(s: string)
    requires Decode(s).Some?
    ensures LenientDecode(s) == Decode(s).value
  {
    var body := Unpad(s);
    var p := s[|body|..];
    assert s == body + p;
    assert DecodeUnpadded(body).Some?;
    AlphabetOfDecoded(body);
    CanonicalOfAlphabet(body, p);
    DecodedLength(body);
  }

  lemma {:induction false} AlphabetOfDecoded(s: string)
    requires DecodeUnpadded(s).Some?
    ensures AllInAlphabet(s)
  {
    if 2 <= |s| <= 4 {
      ChunkAlphabet(s);
    } else if |s| > 4 {
      var rest := s[4..];
      assert DecodeChunk(s[..4]).Some? && DecodeUnpadded(rest).Some?;
      ChunkAlphabet(s[..4]);
      AlphabetOfDecoded(rest);
      forall i | 0 <= i < |s| ensures InAlphabet(s[i]) {
        if i >= 4 {
          assert s[i] == rest[i - 4];
        } else {
          assert s[i] == s[..4][i];
        }
      }
    }
  }

  lemma ChunkAlphabet(s: string)
    requires 2 <= |s| <= 4 && DecodeChunk(s).Some?
    ensures AllInAlphabet(s)
  {
  }

  /** Node's decoder reads back what the encoder wrote. */
  lemma LenientRoundTrip(b: seq<byte>)
    ensures LenientDecode(Encode(b)) == b
  {
    RoundTrip(b);
    LenientExtendsStrict(Encode(b));
  }

  /** A character of neither alphabet other than '=' (white space, say) makes
      no difference to Node's decoder wherever it stands. */
  lemma LenientSkips(x: string, c: char, y: string)
    requires c != '=' && !InAlphabet(FromUrlChar(c))
    ensures LenientDecode(x + [c] + y) == LenientDecode(x + y)
  {
    CanonicalSkips(x, c, y);
  }

  lemma {:induction false} CanonicalSkips(x: string, c: char, y: string)
    requires c != '=' && !InAlphabet(FromUrlChar(c))
    ensures Canonical(x + [c] + y) == Canonical(x + y)
  {
    if x == [] {
      assert x + [c] + y == [c] + y && ([c] + y)[1..] == y && x + y == y;
    } else {
      assert (x + [c] + y)[0] == x[0] && (x + [c] + y)[1..] == x[1..] + [c] + y;
      assert (x + y)[0] == x[0] && (x + y)[1..] == x[1..] + y;
      CanonicalSkips(x[1..], c, y);
    }
  }

  // ---------------------------------------------------------------------------
  // The URL-safe form written by `base64UrlEncode`

  function ToUrlChar(c: char): char {
    if c == '+' then '-' else if c == '/' then '_' else c
  }

  function MapChars(s: string, f: char -> char): (r: string)
    ensures |r| == |s| && forall i :: 0 <= i < |s| ==> r[i] == f(s[i])
  {
    if s == [] then [] else [f(s[0])] + MapChars(s[1..], f)
  }

  /** `replace(/=+$/g, "")`: drop every '=' at the end of the text. */
  function StripTrailingEquals(s: string): (r: string)
    ensures |r| <= |s| && r == s[..|r|]
    ensures r == [] || r[|r| - 1] != '='
    ensures forall i :: |r| <= i < |s| ==> s[i] == '='
  {
    if s != [] && s[|s| - 1] == '=' then StripTrailingEquals(s[..|s| - 1]) else s
  }

  /** The character set of section 5 of RFC 4648. */
  predicate UrlSafeChar(c: char) {
    'A' <= c <= 'Z' || 'a' <= c <= 'z' || '0' <= c <= '9' || c == '-' || c == '_'
  }

  /** The replace chain applied to a standard encoding: '+' to '-', '/' to
      '_', then the trailing '=' run removed. */
  function UrlEncode(b: seq<byte>): string {
    StripTrailingEquals(MapChars(Encode(b), ToUrlChar))
  }

  lemma {:induction false} StripEqualsRun(x: string, p: string)
    requires x == [] || x[|x| - 1] != '='
    requires forall i :: 0 <= i < |p| ==> p[i] == '='
    ensures StripTrailingEquals(x + p) == x
  {
    if p != [] {
      assert (x + p)[..|x + p| - 1] == x + p[..|p| - 1];
      StripEqualsRun(x, p[..|p| - 1]);
    } else {
      assert x + p == x;
    }
  }

  lemma StripPadding(b: seq<byte>)
    ensures UrlEncode(b) == MapChars(EncodeUnpadded(b), ToUrlChar)
  {
    var e := EncodeUnpadded(b);
    var body := MapChars(e, ToUrlChar);
    assert MapChars(Encode(b), ToUrlChar) == body + Padding(|b|);
    if body != [] {
      assert InAlphabet(e[|body| - 1]);
    }
    StripEqualsRun(body, Padding(|b|));
  }

  /** The encoded text uses only the URL-safe alphabet and carries no '='. */
  lemma UrlEncodeAlphabet(b: seq<byte>)
    ensures forall i :: 0 <= i < |UrlEncode(b)| ==> UrlSafeChar(UrlEncode(b)[i])
  {
    StripPadding(b);
  }

  /** For n bytes the text has ceil(4n/3) characters: the standard length
      with the padding removed. */
  lemma UrlEncodeLength(b: seq<byte>)
    ensures |UrlEncode(b)| == (4 * |b| + 2) / 3
    ensures |UrlEncode(b)| + |Padding(|b|)| == |Encode(b)|
  {
    StripPadding(b);
  }

  /** Undoing the alphabet change, restoring the padding and decoding gives
      the original bytes. */
  lemma UrlRoundTrip(b: seq<byte>)
    ensures Decode(MapChars(UrlEncode(b), FromUrlChar) + Padding(|b|)) == Some(b)
  {
    StripPadding(b);
    var e := EncodeUnpadded(b);
    UrlAlphabetRoundTrip(e);
    RoundTrip(b);
  }

  lemma UrlAlphabetRoundTrip(e: string)
    requires AllInAlphabet(e)
    ensures MapChars(MapChars(e, ToUrlChar), FromUrlChar) == e
  {
    var back := MapChars(MapChars(e, ToUrlChar), FromUrlChar);
    forall i | 0 <= i < |e| ensures back[i] == e[i] {
      assert InAlphabet(e[i]);
    }
  }

  /** Node reads the URL-safe alphabet as the standard one. */
  lemma {:induction false} LenientReadsUrlSafe(s: string)
    ensures LenientDecode(MapChars(s, ToUrlChar)) == LenientDecode(s)
  {
    CanonicalOfUrlSafe(s);
  }

  lemma {:induction false} CanonicalOfUrlSafe(s: string)
    ensures Canonical(MapChars(s, ToUrlChar)) == Canonical(s)
  {
    if s != [] {
      var m := MapChars(s, ToUrlChar);
      assert m[1..] == MapChars(s[1..], ToUrlChar);
      CanonicalOfUrlSafe(s[1..]);
    }
  }
}

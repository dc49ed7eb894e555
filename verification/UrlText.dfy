/** Percent-encoding (sections 2.1 and 2.3 of RFC 3986), as bytes. */
module UrlText {
  import opened Basics

  type Byte = x: int | 0 <= x < 256

  type Bytes = seq<Byte>

  const PERCENT: Byte := 37
  const AMPERSAND: Byte := 38
  const SLASH: Byte := 47
  const EQUALS: Byte := 61
  const QUESTION: Byte := 63
  const OPEN: Byte := 123
  const CLOSE: Byte := 125

  predicate Unreserved(b: Byte) {
    65 <= b <= 90 || 97 <= b <= 122 || 48 <= b <= 57 || b == 45 || b == 46 || b == 95 || b == 126
  }

  function Hex(n: int): Byte
    requires 0 <= n < 16
  {
    if n < 10 then 48 + n else 55 + n
  }

  function Unhex(b: Byte): Option<int> {
    if 48 <= b <= 57 then Some(b - 48) else if 65 <= b <= 70 then Some(b - 55) else None
  }

  function EncodeByte(b: Byte): (r: Bytes)
    ensures 1 <= |r| <= 3
  {
    if Unreserved(b) then [b] else [PERCENT, Hex(b / 16), Hex(b % 16)]
  }

  function Encode(s: Bytes): (r: Bytes)
    ensures |s| <= |r| <= 3 * |s|
  {
    if s == [] then [] else Encode(s[..|s| - 1]) + EncodeByte(s[|s| - 1])
  }

  /** The inverse, where there is one. */
  function Decode(t: Bytes): Option<Bytes>
    decreases |t|
  {
    if t == [] then Some([])
    else if t[0] == PERCENT then
      if |t| < 3 || Unhex(t[1]).None? || Unhex(t[2]).None? then None
      else
        var rest := Decode(t[3..]);
        if rest.None? then None else Some([Unhex(t[1]).value * 16 + Unhex(t[2]).value] + rest.value)
    else
      var rest := Decode(t[1..]);
      if rest.None? then None else Some([t[0]] + rest.value)
  }

  /** Nothing but unreserved bytes and `%` comes out, so none of the delimiters does. */
  lemma {:induction false} EncodedIsInert(s: Bytes, i: nat)
    requires i < |Encode(s)|
    ensures Unreserved(Encode(s)[i]) || Encode(s)[i] == PERCENT
    decreases |s|
  {
    var init := Encode(s[..|s| - 1]);
    if i < |init| { EncodedIsInert(s[..|s| - 1], i); }
  }

  lemma DelimiterNotEncoded(s: Bytes, d: Byte)
    requires !Unreserved(d) && d != PERCENT
    ensures d !in Encode(s)
  {
    if d in Encode(s) {
      var i :| 0 <= i < |Encode(s)| && Encode(s)[i] == d;
      EncodedIsInert(s, i);
    }
  }

  lemma {:induction false} EncodeConcat(a: Bytes, b: Bytes)
    ensures Encode(a + b) == Encode(a) + Encode(b)
    decreases |b|
  {
    if b == [] {
      assert a + b == a;
    } else {
      assert (a + b)[..|a + b| - 1] == a + b[..|b| - 1];
      EncodeConcat(a, b[..|b| - 1]);
    }
  }

  lemma DecodeOne(b: Byte, t: Bytes)
    requires Decode(t).Some?
    ensures Decode(EncodeByte(b) + t) == Some([b] + Decode(t).value)
  {
    var u := EncodeByte(b) + t;
    if Unreserved(b) {
      assert u[0] == b && u[1..] == t;
    } else {
      assert u[0] == PERCENT && u[1] == Hex(b / 16) && u[2] == Hex(b % 16) && u[3..] == t;
      assert Unhex(u[1]) == Some(b / 16) && Unhex(u[2]) == Some(b % 16);
    }
  }

  /** What was encoded decodes to itself. */
  lemma {:induction false} EncodeRoundTrip(s: Bytes)
    ensures Decode(Encode(s)) == Some(s)
    decreases |s|
  {
    if s != [] {
      EncodeRoundTrip(s[1..]);
      assert s == [s[0]] + s[1..];
      EncodeConcat([s[0]], s[1..]);
      assert [s[0]][..0] == [] && Encode([s[0]]) == EncodeByte(s[0]);
      DecodeOne(s[0], Encode(s[1..]));
    }
  }

  const HEX_DIGITS := "0123456789ABCDEF"

  /** One byte: a letter, a digit, or one of - . _ ~ is written as it is, any other as % and two hexadecimal digits. */
  lemma ByteEncodesAs(b: Byte)
    ensures Encode([b]) ==
      if ('A' as int <= b <= 'Z' as int) || ('a' as int <= b <= 'z' as int) || ('0' as int <= b <= '9' as int)
         || b == '-' as int || b == '.' as int || b == '_' as int || b == '~' as int
      then [b]
      else ['%' as int, HEX_DIGITS[b / 16] as int, HEX_DIGITS[b % 16] as int]
  {
    assert [b][..0] == [] && Encode([b]) == EncodeByte(b);
    HexDigit(b / 16);
    HexDigit(b % 16);
  }

  lemma HexDigit(n: int)
    requires 0 <= n < 16
    ensures HEX_DIGITS[n] as int == Hex(n)
  {
  }

  /** axiam_url_encode(): one pass over a buffer of three bytes for each. */
  method UrlEncode(s: Bytes) returns (r: Bytes)
    ensures r == Encode(s)
  {
    var out := new Byte[3 * |s| + 1];
    var at := 0;
    for i := 0 to |s|
      invariant at <= 3 * i && out[..at] == Encode(s[..i])
    {
      assert s[..i + 1][..i] == s[..i];
      var ch := s[i];
      if Unreserved(ch) {
        out[at] := ch;
        at := at + 1;
      } else {
        out[at], out[at + 1], out[at + 2] := PERCENT, Hex(ch / 16), Hex(ch % 16);
        at := at + 3;
      }
      assert out[..at] == Encode(s[..i]) + EncodeByte(ch);
    }
    assert s[..|s|] == s;
    r := out[..at];
  }
}

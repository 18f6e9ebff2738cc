/**
 * Percent-encoding of a query component, as Go's `url.QueryEscape` does it:
 * the unreserved bytes of section 2.3 of RFC 3986 stay as they are, a space
 * becomes '+', and every other byte becomes '%' followed by two upper-case
 * hexadecimal digits (section 2.1 of RFC 3986).
 *
 * `QueryUnescape` is the reference inverse; the lemmas show that escaping
 * loses nothing and that its output never contains a character that has a
 * meaning inside a URL query ('&', '=', '?', '#').
 */
module Escaping {
  import opened Wire

  /** Bytes left unescaped: ALPHA, DIGIT, '-', '.', '_' and '~'. */
  predicate Unreserved(b: byte) {
    (65 <= b <= 90) || (97 <= b <= 122) || (48 <= b <= 57) || b == 45 || b == 46 || b == 95 || b == 126
  }

  const HexDigits := "0123456789ABCDEF"

  function EscapeByte(b: byte): string {
    if Unreserved(b) then [(b as int) as char]
    else if b == 32 then "+"
    else ['%', HexDigits[(b as int) / 16], HexDigits[(b as int) % 16]]
  }

  function QueryEscape(bs: Bytes): string {
    if |bs| == 0 then "" else EscapeByte(bs[0]) + QueryEscape(bs[1..])
  }

  function HexValue(c: char): Option<int> {
    if '0' <= c <= '9' then Some(c as int - '0' as int)
    else if 'A' <= c <= 'F' then Some(c as int - 'A' as int + 10)
    else if 'a' <= c <= 'f' then Some(c as int - 'a' as int + 10)
    else None
  }

  function Prepend(b: byte, rest: Option<Bytes>): Option<Bytes> {
    match rest
    case Some(bs) => Some([b] + bs)
    case None => None
  }

  /** Decodes a query component: "%XY" is one byte, '+' a space, any other character below 256 itself. */
  function QueryUnescape(s: string): Option<Bytes>
    decreases |s|
  {
    if |s| == 0 then Some([])
    else if s[0] == '%' then
      if |s| < 3 then None
      else
        match (HexValue(s[1]), HexValue(s[2]))
        case (Some(hi), Some(lo)) => Prepend((hi * 16 + lo) as byte, QueryUnescape(s[3..]))
        case _ => None
    else if s[0] == '+' then Prepend(32, QueryUnescape(s[1..]))
    else if (s[0] as int) < 256 then Prepend((s[0] as int) as byte, QueryUnescape(s[1..]))
    else None
  }

  /** The characters escaping can produce. */
  predicate SafeChar(c: char) {
    ('A' <= c <= 'Z') || ('a' <= c <= 'z') || ('0' <= c <= '9')
    || c == '-' || c == '.' || c == '_' || c == '~' || c == '%' || c == '+'
  }

  lemma HexDigitValue(n: int)
    requires 0 <= n < 16
    ensures HexValue(HexDigits[n]) == Some(n)
    ensures SafeChar(HexDigits[n])
  {
    if n < 10 {
      assert HexDigits[n] as int == '0' as int + n;
    } else {
      assert HexDigits[n] as int == 'A' as int + n - 10;
    }
  }

  /** Unescaping undoes the escape of one byte, whatever follows it. */
  lemma UnescapeEscapeByte(b: byte, t: string)
    ensures QueryUnescape(EscapeByte(b) + t) == Prepend(b, QueryUnescape(t))
  {
    var s := EscapeByte(b) + t;
    if Unreserved(b) {
      assert s[0] == (b as int) as char && s[1..] == t;
    } else if b == 32 {
      assert s[0] == '+' && s[1..] == t;
    } else {
      var hi, lo := (b as int) / 16, (b as int) % 16;
      HexDigitValue(hi);
      HexDigitValue(lo);
      assert s[0] == '%' && s[1] == HexDigits[hi] && s[2] == HexDigits[lo] && s[3..] == t;
      assert (hi * 16 + lo) as byte == b;
    }
  }

  /** Escaping is lossless: unescaping its output gives the input back. */
  lemma {:induction false} UnescapeEscape(bs: Bytes)
    ensures QueryUnescape(QueryEscape(bs)) == Some(bs)
  {
    if |bs| > 0 {
      UnescapeEscape(bs[1..]);
      UnescapeEscapeByte(bs[0], QueryEscape(bs[1..]));
      assert [bs[0]] + bs[1..] == bs;
    }
  }

  /** Every character of an escaped byte string is safe in a query component. */
  lemma {:induction false} EscapedIsSafe(bs: Bytes)
    ensures forall i :: 0 <= i < |QueryEscape(bs)| ==> SafeChar(QueryEscape(bs)[i])
  {
    if |bs| > 0 {
      EscapedIsSafe(bs[1..]);
      var b := bs[0];
      if !Unreserved(b) && b != 32 {
        HexDigitValue((b as int) / 16);
        HexDigitValue((b as int) % 16);
      }
      var e := EscapeByte(b);
      assert forall i :: 0 <= i < |e| ==> SafeChar(e[i]);
      var s := QueryEscape(bs);
      assert s == e + QueryEscape(bs[1..]);
      forall i | 0 <= i < |s| ensures SafeChar(s[i]) {
        if i >= |e| {
          assert s[i] == QueryEscape(bs[1..])[i - |e|];
        }
      }
    }
  }

  /** The escaped encoding of "[]" (bytes 0x5B 0x5D) is "%5B%5D". */
  lemma EscapeEmptyArrayText()
    ensures QueryEscape([0x5B, 0x5D]) == "%5B%5D"
  {
    var bs: Bytes := [0x5B, 0x5D];
    assert bs[1..] == [0x5D];
    assert QueryEscape(bs) == EscapeByte(0x5B) + QueryEscape([0x5D]);
  }
}

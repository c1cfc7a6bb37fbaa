/**
 * The two ways the controller turns the configured signing secret into key
 * bytes: UTF-8 (RFC 3629) when a token is signed, and .NET's ASCII encoding
 * when a token is validated. The ASCII encoder works on the UTF-16 code units
 * of the string and writes '?' for every unit outside 0..127, so a character
 * beyond U+FFFF (a surrogate pair) becomes two '?'.
 */
module TextEncoding {

  newtype byte = x: int | 0 <= x < 0x100

  /** The replacement byte of the ASCII encoder's fallback, '?'. */
  const QuestionMark: byte := 0x3F

  predicate IsAsciiChar(c: char) {
    c as int < 0x80
  }

  predicate IsAscii(s: string) {
    forall i :: 0 <= i < |s| ==> IsAsciiChar(s[i])
  }

  predicate AllAsciiBytes(bs: seq<byte>) {
    forall k :: 0 <= k < |bs| ==> bs[k] < 0x80
  }

  /** How many UTF-16 code units .NET stores for one character: two for a surrogate pair. */
  function Utf16Units(c: char): nat {
    if c as int < 0x1_0000 then 1 else 2
  }

  /** The length of a string as .NET counts it, in UTF-16 code units. */
  function Utf16Length(s: string): (n: nat)
    ensures |s| <= n <= 2 * |s|
  {
    if s == [] then 0 else Utf16Units(s[0]) + Utf16Length(s[1..])
  }

  /** The UTF-8 form of one Unicode scalar value (section 3 of RFC 3629). */
  function Utf8Char(c: char): (bs: seq<byte>)
    ensures 1 <= |bs| <= 4
    ensures |bs| == 1 <==> IsAsciiChar(c)
    ensures IsAsciiChar(c) ==> bs[0] as int == c as int
    ensures !IsAsciiChar(c) ==> 0xC2 <= bs[0] <= 0xF4
    ensures forall k :: 1 <= k < |bs| ==> 0x80 <= bs[k] < 0xC0
  {
    var cp := c as int;
    if cp < 0x80 then
      [cp as byte]
    else if cp < 0x800 then
      [(0xC0 + cp / 0x40) as byte, (0x80 + cp % 0x40) as byte]
    else if cp < 0x1_0000 then
      [(0xE0 + cp / 0x1000) as byte, (0x80 + cp / 0x40 % 0x40) as byte, (0x80 + cp % 0x40) as byte]
    else
      [(0xF0 + cp / 0x4_0000) as byte, (0x80 + cp / 0x1000 % 0x40) as byte,
       (0x80 + cp / 0x40 % 0x40) as byte, (0x80 + cp % 0x40) as byte]
  }

  /** `Encoding.UTF8.GetBytes`: the characters' UTF-8 forms, concatenated in order. */
  function Utf8(s: string): (bs: seq<byte>)
    ensures |bs| >= |s|
  {
    if s == [] then [] else Utf8Char(s[0]) + Utf8(s[1..])
  }

  /** The bytes `Encoding.ASCII` writes for one character: one per UTF-16 code unit. */
  function AsciiChar(c: char): (bs: seq<byte>)
    ensures |bs| == Utf16Units(c)
    ensures AllAsciiBytes(bs)
    ensures IsAsciiChar(c) ==> bs == [c as int as byte]
    ensures !IsAsciiChar(c) ==> forall k :: 0 <= k < |bs| ==> bs[k] == QuestionMark
  {
    if IsAsciiChar(c) then [c as int as byte]
    else if c as int < 0x1_0000 then [QuestionMark]
    else [QuestionMark, QuestionMark]
  }

  /** `Encoding.ASCII.GetBytes`. */
  function Ascii(s: string): (bs: seq<byte>)
    ensures |bs| == Utf16Length(s)
    ensures AllAsciiBytes(bs)
    ensures IsAscii(s) ==> |bs| == |s| && forall i :: 0 <= i < |s| ==> bs[i] as int == s[i] as int
  {
    if s == [] then []
    else
      assert IsAscii(s) ==> IsAscii(s[1..]) by {
        assert forall i :: 0 <= i < |s[1..]| ==> s[1..][i] == s[i + 1];
      }
      AsciiChar(s[0]) + Ascii(s[1..])
  }

  /** The UTF-8 form of a string is all below 128 exactly when the string is all ASCII. */
  lemma {:induction false} Utf8BytesAsciiIff(s: string)
    ensures AllAsciiBytes(Utf8(s)) <==> IsAscii(s)
  {
    if s != [] {
      Utf8BytesAsciiIff(s[1..]);
      var head := Utf8Char(s[0]);
      var tail := Utf8(s[1..]);
      assert Utf8(s) == head + tail;
      assert forall i :: 0 <= i < |s[1..]| ==> s[1..][i] == s[i + 1];
      if IsAsciiChar(s[0]) {
        assert |head| == 1 && head[0] < 0x80;
        assert forall k :: 0 <= k < |tail| ==> (head + tail)[k + 1] == tail[k];
        assert IsAscii(s) <==> IsAscii(s[1..]) by {
          if IsAscii(s[1..]) {
            forall i | 0 <= i < |s|
              ensures IsAsciiChar(s[i])
            {
              if i > 0 {
                assert s[i] == s[1..][i - 1];
              }
            }
          }
        }
      } else {
        assert Utf8(s)[0] == head[0] >= 0x80;
      }
    }
  }

  /** On an all-ASCII string the two encoders write the same bytes. */
  lemma {:induction false} Utf8MatchesAsciiOnAscii(s: string)
    requires IsAscii(s)
    ensures Utf8(s) == Ascii(s)
  {
    if s != [] {
      assert IsAsciiChar(s[0]);
      assert IsAscii(s[1..]) by {
        assert forall i :: 0 <= i < |s[1..]| ==> s[1..][i] == s[i + 1];
      }
      Utf8MatchesAsciiOnAscii(s[1..]);
    }
  }

  /**
   * The signing bytes and the validation bytes of one secret coincide exactly
   * when every character of the secret is below 128.
   */
  lemma {:induction false} Utf8EqualsAsciiIff(s: string)
    ensures Utf8(s) == Ascii(s) <==> IsAscii(s)
  {
    if IsAscii(s) {
      Utf8MatchesAsciiOnAscii(s);
    } else {
      Utf8BytesAsciiIff(s);
    }
  }
}

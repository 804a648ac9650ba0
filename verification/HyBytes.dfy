/** The byte offsets of spans are offsets in the UTF-8 encoding of the source. */
module HyBytes {
  import opened HyReader

  /** Section 3 of RFC 3629. */
  function Utf8(c: char): seq<nat> {
    var n := c as int;
    if n < 0x80 then [n]
    else if n < 0x800 then [0xC0 + n / 0x40, 0x80 + n % 0x40]
    else if n < 0x10000 then [0xE0 + n / 0x1000, 0x80 + n / 0x40 % 0x40, 0x80 + n % 0x40]
    else [0xF0 + n / 0x40000, 0x80 + n / 0x1000 % 0x40, 0x80 + n / 0x40 % 0x40, 0x80 + n % 0x40]
  }

  function Encoded(s: string): seq<nat> { if s == [] then [] else Utf8(s[0]) + Encoded(s[1..]) }

  /** A character begins, and ends, where the encoding of what precedes it does. */
  lemma {:induction false} EncodedUpTo(s: string, i: nat)
    requires i <= |s|
    ensures Encoded(s) == Encoded(s[..i]) + Encoded(s[i..]) && |Encoded(s[..i])| == ByteAt(s, i)
    decreases i
  {
    if i == 0 {
      assert s[..0] == [] && s[0..] == s;
    } else {
      EncodedUpTo(s[1..], i - 1);
      assert s[..i][0] == s[0] && s[..i][1..] == s[1..][..i - 1] && s[1..][i - 1..] == s[i..];
      assert Encoded(s) == Utf8(s[0]) + (Encoded(s[..i][1..]) + Encoded(s[i..]));
    }
  }

  /** What stands between two offsets of the source stands, encoded, between those in bytes; so the bytes
      of a span are those of its text. */
  lemma ByteSpansSlice(s: string, i: nat, j: nat)
    requires i <= j <= |s|
    ensures ByteAt(s, i) <= ByteAt(s, j) <= |Encoded(s)|
    ensures Encoded(s)[ByteAt(s, i)..ByteAt(s, j)] == Encoded(s[i..j])
  {
    EncodedUpTo(s, j);
    EncodedUpTo(s[..j], i);
    EncodedUpTo(s, i);
    assert s[..j][..i] == s[..i] && s[..j][i..] == s[i..j];
  }
}

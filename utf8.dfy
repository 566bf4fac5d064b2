/**
 * The UTF-8 encoding of a Rust `String`. Rust measures (`len`) and slices
 * (`&s[..n]`) strings in bytes of this encoding, and a slice whose end is
 * not a character boundary panics.
 */
module Utf8 {

  newtype byte = x: int | 0 <= x < 256

  /** A byte of the form 10xxxxxx, which continues a multi-byte character. */
  predicate IsContinuation(b: byte) {
    0x80 <= b < 0xC0
  }

  /** The 1 to 4 bytes that encode one Unicode scalar value. */
  function EncodeChar(c: char): (bytes: seq<byte>)
    ensures 1 <= |bytes| <= 4
    ensures !IsContinuation(bytes[0])
    ensures forall i :: 1 <= i < |bytes| ==> IsContinuation(bytes[i])
  {
    var n := c as int;
    if n < 0x80 then
      [n as byte]
    else if n < 0x800 then
      [(0xC0 + n / 0x40) as byte, (0x80 + n % 0x40) as byte]
    else if n < 0x1_0000 then
      [(0xE0 + n / 0x1000) as byte, (0x80 + (n / 0x40) % 0x40) as byte, (0x80 + n % 0x40) as byte]
    else
      [(0xF0 + n / 0x4_0000) as byte, (0x80 + (n / 0x1000) % 0x40) as byte,
       (0x80 + (n / 0x40) % 0x40) as byte, (0x80 + n % 0x40) as byte]
  }

  function Encode(s: string): (bytes: seq<byte>)
    ensures |s| <= |bytes| <= 4 * |s|
  {
    if s == [] then [] else EncodeChar(s[0]) + Encode(s[1..])
  }

  /** Rust's `str::is_char_boundary`: the start, the end, or any byte that begins a character. */
  predicate IsCharBoundary(bytes: seq<byte>, i: nat) {
    i == 0 || i == |bytes| || (i < |bytes| && !IsContinuation(bytes[i]))
  }

  /** Every character is below U+0080. */
  predicate IsAscii(s: string) {
    forall i :: 0 <= i < |s| ==> s[i] as int < 0x80
  }

  /** An ASCII string is encoded one byte per character, each byte the character's code. */
  lemma {:induction false} AsciiEncoding(s: string)
    requires IsAscii(s)
    ensures |Encode(s)| == |s|
    ensures forall i :: 0 <= i < |s| ==> Encode(s)[i] as int == s[i] as int
  {
    if s != [] {
      AsciiEncoding(s[1..]);
      assert Encode(s) == [s[0] as int as byte] + Encode(s[1..]);
    }
  }

  lemma {:induction false} EncodeAppend(s: string, t: string)
    ensures Encode(s + t) == Encode(s) + Encode(t)
  {
    if s != [] {
      assert (s + t)[1..] == s[1..] + t;
      EncodeAppend(s[1..], t);
    } else {
      assert s + t == t;
    }
  }

  /**
   * Cutting the encoding of `s` at a character boundary yields the encoding
   * of a prefix of `s`: a slice that does not panic never splits a character.
   */
  lemma {:induction false} BoundaryIsCharPrefix(s: string, i: nat)
    requires i <= |Encode(s)| && IsCharBoundary(Encode(s), i)
    ensures exists k :: 0 <= k <= |s| && Encode(s)[..i] == Encode(s[..k])
  {
    if i == 0 {
      assert Encode(s)[..0] == Encode(s[..0]);
    } else {
      var e, rest := EncodeChar(s[0]), s[1..];
      assert Encode(s) == e + Encode(rest);
      if i < |e| {
        assert false;
      }
      var j := i - |e|;
      assert IsCharBoundary(Encode(rest), j) by {
        if 0 < j < |Encode(rest)| {
          assert Encode(rest)[j] == Encode(s)[i];
        }
      }
      BoundaryIsCharPrefix(rest, j);
      var k' :| 0 <= k' <= |rest| && Encode(rest)[..j] == Encode(rest[..k']);
      EncodeConsPrefix(s, k');
      assert Encode(s)[..i] == e + Encode(rest)[..j];
    }
  }

  /** The encoding of the first `k + 1` characters: the first character's bytes, then those of the next `k`. */
  lemma EncodeConsPrefix(s: string, k: nat)
    requires k < |s|
    ensures Encode(s[..k + 1]) == EncodeChar(s[0]) + Encode(s[1..][..k])
  {
    assert s[..k + 1][1..] == s[1..][..k];
  }
}

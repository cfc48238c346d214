/**
 * The two reads of `java.io.DataInputStream` the format check performs, over the
 * bytes of a file: `readByte` takes one byte, `readChar` takes two and combines
 * them big-endian into an unsigned 16-bit value. Either read hits the end of the
 * stream (an `EOFException`) when too few bytes remain.
 */
module DataInput {

  /** The value read and the bytes still unread, or end of stream. */
  datatype Read<T> = Got(value: T, rest: seq<bv8>) | EndOfStream

  /** The unsigned 16-bit value of a high and a low byte. */
  function CharOf(hi: bv8, lo: bv8): bv16 {
    (hi as bv16 << 8) | lo as bv16
  }

  /** The two bytes, high byte first, that `DataOutputStream.writeChar` writes for `c`. */
  function CharBytes(c: bv16): (bytes: seq<bv8>)
    ensures |bytes| == 2
  {
    [(c >> 8) as bv8, (c & 0xFF) as bv8]
  }

  /** Decoding the bytes written for a char gives the char back. */
  lemma CharOfCharBytes(c: bv16)
    ensures CharOf(CharBytes(c)[0], CharBytes(c)[1]) == c
  {
  }

  /** Encoding a decoded char gives the two bytes back: no two byte pairs share a char. */
  lemma CharBytesCharOf(hi: bv8, lo: bv8)
    ensures CharBytes(CharOf(hi, lo)) == [hi, lo]
  {
  }

  function ReadByte(s: seq<bv8>): (r: Read<bv8>)
    ensures r.Got? <==> |s| >= 1
    ensures r.Got? ==> s == [r.value] + r.rest
  {
    if |s| == 0 then EndOfStream else Got(s[0], s[1..])
  }

  function ReadChar(s: seq<bv8>): (r: Read<bv16>)
    ensures r.Got? <==> |s| >= 2
    ensures r.Got? ==> s == CharBytes(r.value) + r.rest
  {
    if |s| < 2 then EndOfStream
    else
      CharBytesCharOf(s[0], s[1]);
      assert s == [s[0], s[1]] + s[2..];
      Got(CharOf(s[0], s[1]), s[2..])
  }
}

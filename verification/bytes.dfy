/** Byte sequences as Node's `Buffer` sees them: index clamping of `slice`,
    big-endian 32-bit integers, and runs of one repeated byte. */
module Bytes {

  newtype byte = b: int | 0 <= b < 256

  const UINT32_LIMIT: int := 0x1_0000_0000

  /** How `Buffer.prototype.slice` (a typed-array `subarray`) turns an index
      argument into a position: a negative index counts from the end, and the
      result is clamped to `[0, len]`. */
  function SliceIndex(i: int, len: nat): (p: nat)
    ensures p <= len
    ensures i < 0 ==> p == (if len + i > 0 then len + i else 0)
    ensures i >= 0 ==> p == (if i < len then i else len)
  {
    if i < 0 then (if len + i > 0 then len + i else 0)
    else if i < len then i else len
  }

  /** `buff.slice(start, end)`; an empty buffer when the end lies before the start. */
  function Slice(s: seq<byte>, start: int, end: int): seq<byte>
  {
    var lo, hi := SliceIndex(start, |s|), SliceIndex(end, |s|);
    if lo < hi then s[lo..hi] else []
  }

  /** `buff.slice(start)`: everything from the clamped start to the end. */
  function SliceFrom(s: seq<byte>, start: int): seq<byte>
  {
    s[SliceIndex(start, |s|)..]
  }

  /** `n` copies of byte `b` (what `Buffer.alloc(n).fill(b)` holds). */
  function Repeat(b: byte, n: nat): (r: seq<byte>)
    ensures |r| == n
    ensures forall i :: 0 <= i < n ==> r[i] == b
  {
    if n == 0 then [] else Repeat(b, n - 1) + [b]
  }

  /** The four bytes `writeUInt32BE(n)` stores, most significant first. */
  function Uint32BE(n: nat): (r: seq<byte>)
    requires n < UINT32_LIMIT
    ensures |r| == 4
  {
    [(n / 0x100_0000) as byte, (n / 0x1_0000 % 0x100) as byte,
     (n / 0x100 % 0x100) as byte, (n % 0x100) as byte]
  }

  /** The number `readUInt32BE(0)` reads from the first four bytes. */
  function ReadUInt32BE(s: seq<byte>): (n: nat)
    requires |s| >= 4
    ensures n < UINT32_LIMIT
  {
    ((s[0] as nat * 0x100 + s[1] as nat) * 0x100 + s[2] as nat) * 0x100 + s[3] as nat
  }

  /** Reading back what was written gives the number that was written. */
  lemma ReadWriteUInt32BE(n: nat)
    requires n < UINT32_LIMIT
    ensures ReadUInt32BE(Uint32BE(n)) == n
  {
    var b := Uint32BE(n);
    assert b[0] as nat == n / 0x100_0000;
    assert n / 0x100_0000 * 0x100 + n / 0x1_0000 % 0x100 == n / 0x1_0000;
    assert n / 0x1_0000 * 0x100 + n / 0x100 % 0x100 == n / 0x100;
    assert n / 0x100 * 0x100 + n % 0x100 == n;
  }

  /** `buf.writeUInt32BE(value, 0)` on a freshly allocated four-byte buffer. */
  method WriteUInt32BE(buf: array<byte>, value: nat)
    requires buf.Length == 4 && value < UINT32_LIMIT
    modifies buf
    ensures buf[..] == Uint32BE(value)
    ensures ReadUInt32BE(buf[..]) == value
  {
    buf[0] := (value / 0x100_0000) as byte;
    buf[1] := (value / 0x1_0000 % 0x100) as byte;
    buf[2] := (value / 0x100 % 0x100) as byte;
    buf[3] := (value % 0x100) as byte;
    ReadWriteUInt32BE(value);
  }
}

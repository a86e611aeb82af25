/** Bytes, the big-endian integers of encoding/binary, their bits, and what every module uses. */
module Bytes {
  import opened Bits

  type byte = bv8

  datatype Result<+T> = Ok(value: T) | Err

  datatype Option<+T> = None | Some(value: T)

  const UINT32 := 0x1_0000_0000

  function Min(a: int, b: int): int { if a <= b then a else b }

  function Max(a: int, b: int): int { if a >= b then a else b }

  // The bits of a byte, least significant first.
  function BitsOf(b: byte): (r: Word)
    ensures |r| == 8
  {
    [b & 1 != 0, b & 2 != 0, b & 4 != 0, b & 8 != 0, b & 16 != 0, b & 32 != 0, b & 64 != 0, b & 128 != 0]
  }

  function ByteOf(w: Word): (b: byte)
    requires |w| == 8
  {
    (if w[0] then 1 else 0) | (if w[1] then 2 else 0) | (if w[2] then 4 else 0) | (if w[3] then 8 else 0)
    | (if w[4] then 16 else 0) | (if w[5] then 32 else 0) | (if w[6] then 64 else 0) | (if w[7] then 128 else 0)
  }

  lemma {:induction false} ByteOfBitsOf(b: byte)
    ensures ByteOf(BitsOf(b)) == b
  {}

  lemma {:induction false} BitsOfByteOf(w: Word)
    requires |w| == 8
    ensures BitsOf(ByteOf(w)) == w
  {}

  // The word a big-endian byte string denotes: the first byte is the most significant.
  function WordOf(bs: seq<byte>): (w: Word)
    ensures |w| == 8 * |bs|
  {
    if bs == [] then [] else WordOf(bs[1..]) + BitsOf(bs[0])
  }

  function BytesOf(w: Word): (bs: seq<byte>)
    requires |w| % 8 == 0
    ensures |bs| == |w| / 8
  {
    if w == [] then [] else [ByteOf(w[|w| - 8..])] + BytesOf(w[..|w| - 8])
  }

  lemma {:induction false} BytesOfWordOf(bs: seq<byte>)
    ensures BytesOf(WordOf(bs)) == bs
  {
    hide BitsOf, ByteOf;
    if bs != [] {
      var w := WordOf(bs);
      assert w[..|w| - 8] == WordOf(bs[1..]) && w[|w| - 8..] == BitsOf(bs[0]);
      ByteOfBitsOf(bs[0]);
      BytesOfWordOf(bs[1..]);
    }
  }

  lemma {:induction false} WordOfBytesOf(w: Word)
    requires |w| % 8 == 0
    ensures WordOf(BytesOf(w)) == w
  {
    hide BitsOf, ByteOf;
    if w != [] {
      WordOfBytesOf(w[..|w| - 8]);
      BitsOfByteOf(w[|w| - 8..]);
      assert BytesOf(w)[1..] == BytesOf(w[..|w| - 8]);
      assert w == w[..|w| - 8] + w[|w| - 8..];
    }
  }

  lemma {:induction false} Associates<T>(a: seq<T>, b: seq<T>, c: seq<T>)
    ensures (a + b) + c == a + (b + c)
  {}

  lemma {:induction false} WordOfConcat(a: seq<byte>, b: seq<byte>)
    ensures WordOf(a + b) == WordOf(b) + WordOf(a)
  {
    hide BitsOf;
    if a == [] {
      assert a + b == b && WordOf(b) + [] == WordOf(b);
    } else {
      WordOfConcat(a[1..], b);
      assert (a + b)[1..] == a[1..] + b;
      Associates(WordOf(b), WordOf(a[1..]), BitsOf(a[0]));
    }
  }

  lemma {:induction false} BytesOfConcat(a: Word, b: Word)
    requires |a| % 8 == 0 && |b| % 8 == 0
    ensures BytesOf(a + b) == BytesOf(b) + BytesOf(a)
  {
    hide ByteOf;
    if b == [] {
      assert a + b == a;
    } else {
      var rest := b[..|b| - 8];
      BytesOfConcat(a, rest);
      assert (a + b)[..|a + b| - 8] == a + rest && (a + b)[|a + b| - 8..] == b[|b| - 8..];
      Associates([ByteOf(b[|b| - 8..])], BytesOf(rest), BytesOf(a));
    }
  }

  function ZeroBytes(n: nat): (r: seq<byte>)
    ensures |r| == n
  {
    seq(n, _ => 0)
  }

  lemma {:induction false} WordOfZeroBytes(n: nat)
    ensures WordOf(ZeroBytes(n)) == Zeros(8 * n)
  {
    if n > 0 {
      assert ZeroBytes(n)[1..] == ZeroBytes(n - 1);
      WordOfZeroBytes(n - 1);
      assert BitsOf(0) == Zeros(8);
    }
  }
}

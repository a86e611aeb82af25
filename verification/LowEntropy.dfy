/** The low entropy codec (pkg/protocol/low_entropy.go): ciphertext bits are scattered
    over eight-byte chunks under a mask that rotates from chunk to chunk, and every other
    position carries one padding bit.

    `Encode` and `Decode` are the two directions on values; the methods `EncodePayload`
    and `DecodePayload` are the loops of the source. */
module LowEntropy {
  import opened Bits
  import opened Bytes

  const CHUNK_LEN := 8
  const MAX_UINT16 := 65535

  datatype Params = Params(sourceBytes: nat, halfMaskOnes: nat)

  // The enum values of LowEntropyMode are OFF = 0 and the four modes 1 to 4.
  function BuildParams(mode: int): (r: Result<Params>)
    ensures r.Ok? ==> r.value.sourceBytes == mode + 3 && r.value.halfMaskOnes == 4 * r.value.sourceBytes
    ensures r.Ok? <==> 1 <= mode <= 4
  {
    if mode == 1 then Ok(Params(4, 16))
    else if mode == 2 then Ok(Params(5, 20))
    else if mode == 3 then Ok(Params(6, 24))
    else if mode == 4 then Ok(Params(7, 28))
    else Err
  }

  function EncodedPayloadLen(n: int, mode: int): (r: Result<nat>)
  {
    match BuildParams(mode)
    case Err => Err
    case Ok(p) =>
      if n <= 0 then Err
      else
        var chunkCount := n / p.sourceBytes + (if n % p.sourceBytes != 0 then 1 else 0);
        if chunkCount > MAX_UINT16 / CHUNK_LEN then Err else Ok(chunkCount * CHUNK_LEN)
  }

  // Right rotations occupy the low nibble, left rotations the high nibble.
  predicate IsValidRotation(rotation: int) {
    rotation == 0 || 1 <= rotation <= 15 || (16 <= rotation <= 240 && rotation % 16 == 0)
  }

  function RotateMask(initial: Word, rotation: int, chunkIndex: nat): (r: Word)
    requires |initial| == 64
    ensures |r| == 64
  {
    if rotation == 0 || chunkIndex == 0 then initial
    else if rotation <= 15 then RotateLeft(initial, -((chunkIndex % 64) * rotation))
    else RotateLeft(initial, (chunkIndex % 64) * (rotation / 16))
  }

  function ValidateParams(mode: int, halfMask: Word, rotation: int): (r: Result<Params>)
    requires |halfMask| == 32
    ensures r.Ok? ==> r == BuildParams(mode) && Count(halfMask) == r.value.halfMaskOnes && IsValidRotation(rotation)
  {
    match BuildParams(mode)
    case Err => Err
    case Ok(p) =>
      if Count(halfMask) != p.halfMaskOnes then Err
      else if !IsValidRotation(rotation) then Err
      else Ok(p)
  }

  // RepeatUint32: both halves of the word are the half mask.
  function RepeatMask(halfMask: Word): (r: Word)
    requires |halfMask| == 32
    ensures |r| == 64
  {
    Or(Shl(halfMask + Zeros(32), 32), halfMask + Zeros(32))
  }

  // uint64(1)<<n - 1, saturating.
  function LowBits(n: nat): (r: Word)
    ensures |r| == 64
  {
    if n >= 64 then Not(Zeros(64)) else Dec(OneHot(64, n))
  }

  // ---------------------------------------------------------------------------
  // One chunk
  // ---------------------------------------------------------------------------

  // The positions of a chunk that carry n source bytes.
  function DataMask(n: nat, mask: Word): (r: Word)
    requires |mask| == 64
    ensures |r| == 64
  {
    Pdep(LowBits(8 * n), mask)
  }

  // The source bytes as the low end of a 64-bit word.
  function SourceWord(part: seq<byte>): (r: Word)
    requires |part| <= 8
    ensures |r| == 64
  {
    WordOf(ZeroBytes(8 - |part|) + part)
  }

  function EncodeChunk(part: seq<byte>, mask: Word, padding: bool): (r: Word)
    requires |part| <= 8 && |mask| == 64
    ensures |r| == 64
  {
    var chunk := Pdep(SourceWord(part), mask);
    if padding then Or(chunk, Not(DataMask(|part|, mask))) else chunk
  }

  // The padding bits of a chunk: Some(b) when they are all b.
  function ChunkPadding(chunk: Word, n: nat, mask: Word): (r: Result<bool>)
    requires |chunk| == 64 && |mask| == 64
  {
    var paddingMask := Not(DataMask(n, mask));
    var padding := And(chunk, paddingMask);
    if IsZero(padding) then Ok(false) else if padding == paddingMask then Ok(true) else Err
  }

  function DecodeChunk(chunk: Word, n: nat, mask: Word): (r: seq<byte>)
    requires |chunk| == 64 && |mask| == 64 && n <= 8
    ensures |r| == n
  {
    BytesOf(Pext(chunk, mask))[8 - n..]
  }

  lemma {:induction false} DecOneHot(w: nat, n: nat)
    requires n < w
    ensures forall i | 0 <= i < w :: Dec(OneHot(w, n))[i] == (i < n)
  {
    if n > 0 {
      DecOneHot(w - 1, n - 1);
      assert OneHot(w, n)[1..] == OneHot(w - 1, n - 1);
      assert forall i | 1 <= i < w :: Dec(OneHot(w, n))[i] == Dec(OneHot(w - 1, n - 1))[i - 1];
    }
  }

  lemma {:induction false} LowBitsAt(n: nat)
    ensures forall i | 0 <= i < 64 :: LowBits(n)[i] == (i < n)
  {
    if n < 64 {
      DecOneHot(64, n);
    }
  }

  lemma {:induction false} DataMaskAt(n: nat, mask: Word)
    requires |mask| == 64
    ensures forall i | 0 <= i < 64 :: DataMask(n, mask)[i] == (mask[i] && Rank(mask, i) < 8 * n)
  {
    LowBitsAt(8 * n);
  }

  lemma {:induction false} ZeroFill(n: nat)
    requires n <= 8
    ensures WordOf(ZeroBytes(8 - n)) == Zeros(64 - 8 * n)
  {
    hide *;
    WordOfZeroBytes(8 - n);
    assert 8 * (8 - n) == 64 - 8 * n;
  }

  // The source word is the bits of the source bytes, zero above them.
  lemma {:induction false} SourceWordSplit(part: seq<byte>)
    requires |part| <= 8
    ensures SourceWord(part) == WordOf(part) + Zeros(64 - 8 * |part|)
  {
    hide WordOf, ZeroBytes, Zeros;
    ZeroFill(|part|);
    WordOfConcat(ZeroBytes(8 - |part|), part);
  }

  // A data position carries the bit of w numbered by its rank; any other position the padding bit.
  ghost predicate Carries(chunk: Word, w: Word, mask: Word, padding: bool)
    requires |chunk| == |mask|
  {
    forall i | 0 <= i < |mask| :: chunk[i] == if mask[i] && Rank(mask, i) < |w| then w[Rank(mask, i)] else padding
  }

  lemma {:induction false} EncodeChunkCarries(part: seq<byte>, mask: Word, padding: bool)
    requires |part| <= 8 && |mask| == 64
    ensures Carries(EncodeChunk(part, mask, padding), WordOf(part), mask, padding)
  {
    DataMaskAt(|part|, mask);
    SourceWordSplit(part);
  }

  lemma {:induction false} CarriesUnique(chunk: Word, other: Word, w: Word, mask: Word, padding: bool)
    requires |chunk| == |other| == |mask|
    requires Carries(chunk, w, mask, padding) && Carries(other, w, mask, padding)
    ensures chunk == other
  {}

  lemma {:induction false} CarriesPick(chunk: Word, w: Word, mask: Word, padding: bool)
    requires |chunk| == |mask| && |w| <= Count(mask) && Carries(chunk, w, mask, padding)
    ensures Pick(chunk, mask)[..|w|] == w
  {
    forall j | 0 <= j < |w|
      ensures Pick(chunk, mask)[j] == w[j]
    {
      var i := RankOnto(mask, j);
      PickAt(chunk, mask, i);
    }
  }

  // The low source bytes of an extracted word are the low bits of the word.
  lemma {:induction false} LowBytes(w: Word, n: nat)
    requires |w| == 64 && n <= 8
    ensures BytesOf(w)[8 - n..] == BytesOf(w[..8 * n])
  {
    hide BytesOf;
    assert w == w[..8 * n] + w[8 * n..];
    BytesOfConcat(w[..8 * n], w[8 * n..]);
  }

  lemma {:induction false} DecodeChunkIs(chunk: Word, n: nat, mask: Word)
    requires |chunk| == |mask| == 64 && 8 * n <= Count(mask) && n <= 8
    ensures DecodeChunk(chunk, n, mask) == BytesOf(Pick(chunk, mask)[..8 * n])
  {
    LowBytes(Pext(chunk, mask), n);
    assert Pext(chunk, mask)[..8 * n] == Pick(chunk, mask)[..8 * n];
  }

  // The padding bits of a chunk are uniform just when they all equal some bit.
  lemma {:induction false} PaddingUniform(chunk: Word, n: nat, mask: Word, padding: bool)
    requires |chunk| == |mask| == 64 && Count(mask) < 64
    ensures ChunkPadding(chunk, n, mask) == Ok(padding)
       <==> forall i | 0 <= i < 64 && !(mask[i] && Rank(mask, i) < 8 * n) :: chunk[i] == padding
  {
    hide DataMask, Rank, Count;
    DataMaskAt(n, mask);
    var paddingMask := Not(DataMask(n, mask));
    var shown := And(chunk, paddingMask);
    assert forall i | 0 <= i < 64 :: shown[i] == (chunk[i] && !(mask[i] && Rank(mask, i) < 8 * n));
    var z := SomeClearBit(mask);
    assert paddingMask[z] && shown[z] == chunk[z];
    if forall i | 0 <= i < 64 && !(mask[i] && Rank(mask, i) < 8 * n) :: chunk[i] {
      assert shown == paddingMask;
    }
  }

  // A chunk decodes to what was encoded, and shows the padding bit it was given.
  lemma {:induction false} ChunkRoundTrip(part: seq<byte>, mask: Word, padding: bool)
    requires |part| <= 8 && |mask| == 64 && 8 * |part| <= Count(mask) < 64
    ensures DecodeChunk(EncodeChunk(part, mask, padding), |part|, mask) == part
    ensures ChunkPadding(EncodeChunk(part, mask, padding), |part|, mask) == Ok(padding)
  {
    hide EncodeChunk, DecodeChunk, ChunkPadding;
    var chunk := EncodeChunk(part, mask, padding);
    EncodeChunkCarries(part, mask, padding);
    CarriesPick(chunk, WordOf(part), mask, padding);
    DecodeChunkIs(chunk, |part|, mask);
    BytesOfWordOf(part);
    PaddingUniform(chunk, |part|, mask, padding);
  }

  lemma {:induction false} SomeClearBit(m: Word) returns (z: nat)
    requires Count(m) < |m|
    ensures z < |m| && !m[z]
  {
    var n := |m| - 1;
    if m[n] {
      z := SomeClearBit(m[..n]);
    } else {
      z := n;
    }
  }

  lemma {:induction false} DecodedCarries(chunk: Word, n: nat, mask: Word, padding: bool)
    requires |chunk| == |mask| == 64 && 8 * n <= Count(mask)
    requires forall i | 0 <= i < 64 && !(mask[i] && Rank(mask, i) < 8 * n) :: chunk[i] == padding
    ensures Carries(chunk, Pick(chunk, mask)[..8 * n], mask, padding)
  {
    forall i | 0 <= i < 64 && mask[i] && Rank(mask, i) < 8 * n
      ensures chunk[i] == Pick(chunk, mask)[..8 * n][Rank(mask, i)]
    {
      PickAt(chunk, mask, i);
    }
  }

  // Re-encoding a decoded chunk with the padding it shows gives the chunk back.
  lemma {:induction false} ChunkCanonical(chunk: Word, n: nat, mask: Word)
    requires |chunk| == |mask| == 64 && 8 * n <= Count(mask) < 64 && n <= 8
    requires ChunkPadding(chunk, n, mask).Ok?
    ensures EncodeChunk(DecodeChunk(chunk, n, mask), mask, ChunkPadding(chunk, n, mask).value) == chunk
  {
    hide EncodeChunk, DecodeChunk, ChunkPadding;
    var padding := ChunkPadding(chunk, n, mask).value;
    var part := DecodeChunk(chunk, n, mask);
    PaddingUniform(chunk, n, mask, padding);
    DecodedCarries(chunk, n, mask, padding);
    DecodeChunkIs(chunk, n, mask);
    WordOfBytesOf(Pick(chunk, mask)[..8 * n]);
    EncodeChunkCarries(part, mask, padding);
    CarriesUnique(chunk, EncodeChunk(part, mask, padding), WordOf(part), mask, padding);
  }

  // ---------------------------------------------------------------------------
  // Masks
  // ---------------------------------------------------------------------------

  lemma {:induction false} RepeatMaskSplit(halfMask: Word)
    requires |halfMask| == 32
    ensures RepeatMask(halfMask) == halfMask + halfMask
    ensures Count(RepeatMask(halfMask)) == 2 * Count(halfMask)
  {
    CountConcat(halfMask, halfMask);
  }

  // How far the mask turns left from one chunk to the next.
  function StepOf(rotation: int): (d: int) {
    if rotation <= 15 then -rotation else rotation / 16
  }

  lemma {:induction false} RolledTwice(a: Word, s: nat, t: nat)
    requires s < |a| && t < |a|
    ensures Rolled(Rolled(a, s), t) == Rolled(a, if s + t < |a| then s + t else s + t - |a|)
  {
  }

  lemma {:induction false} ModSum(x: int, y: int, w: nat)
    requires w > 0
    ensures (x + y) % w == if x % w + y % w < w then x % w + y % w else x % w + y % w - w
  {
    var s := x % w + y % w;
    assert (x / w + y / w) * w == (x / w) * w + (y / w) * w;
    if s < w {
      DivModUnique(x + y, w, x / w + y / w, s);
    } else {
      assert (x / w + y / w + 1) * w == (x / w + y / w) * w + w;
      DivModUnique(x + y, w, x / w + y / w + 1, s - w);
    }
  }

  lemma {:induction false} RotateSum(a: Word, x: int, y: int)
    requires a != []
    ensures RotateLeft(RotateLeft(a, x), y) == RotateLeft(a, x + y)
  {
    hide RotateLeft;
    RotateLeftRolls(a, x);
    RotateLeftRolls(RotateLeft(a, x), y);
    RotateLeftRolls(a, x + y);
    ModSum(x, y, |a|);
    RolledTwice(a, x % |a|, y % |a|);
  }

  lemma {:induction false} ModScaled(i: int, d: int, w: nat)
    requires w > 0
    ensures ((i % w) * d) % w == (i * d) % w
  {
    var q, r := ((i % w) * d) / w, ((i % w) * d) % w;
    assert i * d == ((i / w) * d + q) * w + r by {
      assert i * d == ((i / w) * w + i % w) * d == ((i / w) * d) * w + (i % w) * d;
    }
    DivModUnique(i * d, w, (i / w) * d + q, r);
  }

  lemma {:induction false} RotateMaskAt(initial: Word, rotation: int, i: nat)
    requires |initial| == 64 && IsValidRotation(rotation)
    ensures RotateMask(initial, rotation, i) == RotateLeft(initial, i * StepOf(rotation))
  {
    hide RotateLeft;
    var d := StepOf(rotation);
    assert RotateLeft(initial, (i % 64) * d) == RotateLeft(initial, i * d) by {
      ModScaled(i, d, 64);
      RotateLeftRolls(initial, (i % 64) * d);
      RotateLeftRolls(initial, i * d);
    }
    if rotation == 0 || i == 0 {
      RotateLeftRolls(initial, 0);
      assert Rolled(initial, 0) == initial;
      assert i * d == 0;
    } else {
      assert rotation <= 15 ==> (i % 64) * d == -((i % 64) * rotation);
    }
  }

  // The mask of a chunk is the mask of the chunk before it turned by one step, and the
  // number of data positions never changes.
  lemma {:induction false} RotateMaskNext(initial: Word, rotation: int, i: nat)
    requires |initial| == 64 && IsValidRotation(rotation)
    ensures RotateMask(initial, rotation, 0) == initial
    ensures RotateMask(initial, rotation, i + 1) == RotateLeft(RotateMask(initial, rotation, i), StepOf(rotation))
    ensures Count(RotateMask(initial, rotation, i)) == Count(initial)
  {
    var d := StepOf(rotation);
    RotateMaskAt(initial, rotation, i);
    RotateMaskAt(initial, rotation, i + 1);
    RotateSum(initial, i * d, d);
    assert (i + 1) * d == i * d + d;
    RotateCount(initial, i * d);
  }

  // ---------------------------------------------------------------------------
  // Whole payloads
  // ---------------------------------------------------------------------------

  // The chunks of src from chunk number `index` on.
  function EncodeFrom(src: seq<byte>, k: nat, initial: Word, rotation: int, padding: bool, index: nat): (r: seq<byte>)
    requires 0 < k <= 8 && |initial| == 64
    decreases |src|
  {
    if src == [] then []
    else
      var n := Min(k, |src|);
      BytesOf(EncodeChunk(src[..n], RotateMask(initial, rotation, index), padding))
      + EncodeFrom(src[n..], k, initial, rotation, padding, index + 1)
  }

  // n bytes decoded from the chunks of `encoded`; `expected` is the padding bit once it is known.
  function DecodeFrom(encoded: seq<byte>, n: nat, k: nat, initial: Word, rotation: int, expected: Result<bool>, index: nat): (r: Result<seq<byte>>)
    requires 0 < k <= 8 && |initial| == 64 && |encoded| == 8 * Chunks(n, k)
    ensures r.Ok? ==> |r.value| == n
    decreases n
  {
    if n == 0 then Ok([])
    else
      var p := Min(k, n);
      ChunksNext(n, k);
      var chunk := WordOf(encoded[..8]);
      var mask := RotateMask(initial, rotation, index);
      var padding := ChunkPadding(chunk, p, mask);
      if padding.Err? || (expected.Ok? && padding != expected) then Err
      else
        var rest := DecodeFrom(encoded[8..], n - p, k, initial, rotation, padding, index + 1);
        if rest.Err? then Err else Ok(DecodeChunk(chunk, p, mask) + rest.value)
  }

  // The number of chunks that n source bytes take.
  function Chunks(n: nat, k: nat): (c: nat)
    requires k > 0
  {
    n / k + (if n % k != 0 then 1 else 0)
  }

  lemma {:induction false} ChunksZero(k: nat)
    requires k > 0
    ensures Chunks(0, k) == 0
  {
    DivModUnique(0, k, 0, 0);
  }

  lemma {:induction false} ChunksNext(n: nat, k: nat)
    requires k > 0 && n > 0
    ensures Chunks(n, k) == 1 + Chunks(n - Min(k, n), k)
  {
    if n >= k {
      var q, r := (n - k) / k, (n - k) % k;
      assert n == (q + 1) * k + r by { assert (q + 1) * k == q * k + k; }
      DivModUnique(n, k, q + 1, r);
    } else {
      DivModUnique(n, k, 0, n);
      ChunksZero(k);
    }
  }

  function Encode(src: seq<byte>, mode: int, halfMask: Word, rotation: int, paddingBit: nat): (r: Result<seq<byte>>)
    requires |halfMask| == 32
  {
    match ValidateParams(mode, halfMask, rotation)
    case Err => Err
    case Ok(p) =>
      if paddingBit > 1 || EncodedPayloadLen(|src|, mode).Err? then Err
      else Ok(EncodeFrom(src, p.sourceBytes, RepeatMask(halfMask), rotation, paddingBit == 1, 0))
  }

  function Decode(encoded: seq<byte>, n: nat, mode: int, halfMask: Word, rotation: int): (r: Result<seq<byte>>)
    requires |halfMask| == 32
  {
    match ValidateParams(mode, halfMask, rotation)
    case Err => Err
    case Ok(p) =>
      if EncodedPayloadLen(n, mode) != Ok(|encoded|) then Err
      else DecodeFrom(encoded, n, p.sourceBytes, RepeatMask(halfMask), rotation, Err, 0)
  }

  lemma {:induction false} EncodeFromLength(src: seq<byte>, k: nat, initial: Word, rotation: int, padding: bool, index: nat)
    requires 0 < k <= 8 && |initial| == 64
    ensures |EncodeFrom(src, k, initial, rotation, padding, index)| == 8 * Chunks(|src|, k)
    decreases |src|
  {
    hide Chunks, EncodeChunk, RotateMask, BytesOf;
    ChunksZero(k);
    if src != [] {
      var n := Min(k, |src|);
      EncodeFromLength(src[n..], k, initial, rotation, padding, index + 1);
      ChunksNext(|src|, k);
    }
  }

  lemma {:induction false} RoundTripFrom(src: seq<byte>, k: nat, initial: Word, rotation: int, padding: bool, expected: Result<bool>, index: nat)
    requires 4 <= k <= 7 && |initial| == 64 && IsValidRotation(rotation) && Count(initial) == 8 * k
    requires expected.Ok? ==> expected.value == padding
    ensures var encoded := EncodeFrom(src, k, initial, rotation, padding, index);
            && |encoded| == 8 * Chunks(|src|, k)
            && DecodeFrom(encoded, |src|, k, initial, rotation, expected, index) == Ok(src)
    decreases |src|
  {
    hide EncodeChunk, DecodeChunk, ChunkPadding, RotateMask, Chunks, WordOf, BytesOf, Count;
    EncodeFromLength(src, k, initial, rotation, padding, index);
    if src != [] {
      var n := Min(k, |src|);
      var mask := RotateMask(initial, rotation, index);
      var chunk := EncodeChunk(src[..n], mask, padding);
      var rest := EncodeFrom(src[n..], k, initial, rotation, padding, index + 1);
      var encoded := EncodeFrom(src, k, initial, rotation, padding, index);
      assert encoded[..8] == BytesOf(chunk) && encoded[8..] == rest;
      WordOfBytesOf(chunk);
      RotateMaskNext(initial, rotation, index);
      ChunkRoundTrip(src[..n], mask, padding);
      RoundTripFrom(src[n..], k, initial, rotation, padding, Ok(padding), index + 1);
      assert src == src[..n] + src[n..];
    }
  }

  lemma {:induction false} CanonicalFrom(encoded: seq<byte>, n: nat, k: nat, initial: Word, rotation: int, padding: bool, index: nat)
    requires 4 <= k <= 7 && |initial| == 64 && IsValidRotation(rotation) && Count(initial) == 8 * k
    requires |encoded| == 8 * Chunks(n, k)
    requires DecodeFrom(encoded, n, k, initial, rotation, Ok(padding), index).Ok?
    ensures EncodeFrom(DecodeFrom(encoded, n, k, initial, rotation, Ok(padding), index).value, k, initial, rotation, padding, index) == encoded
    decreases n
  {
    hide EncodeChunk, DecodeChunk, ChunkPadding, RotateMask, Chunks, WordOf, BytesOf, Count;
    if n == 0 {
      ChunksZero(k);
    } else {
      var p := Min(k, n);
      ChunksNext(n, k);
      var chunk := WordOf(encoded[..8]);
      var mask := RotateMask(initial, rotation, index);
      RotateMaskNext(initial, rotation, index);
      ChunkCanonical(chunk, p, mask);
      BytesOfWordOf(encoded[..8]);
      CanonicalFrom(encoded[8..], n - p, k, initial, rotation, padding, index + 1);
      var part := DecodeChunk(chunk, p, mask);
      var rest := DecodeFrom(encoded[8..], n - p, k, initial, rotation, Ok(padding), index + 1).value;
      assert (part + rest)[..p] == part && (part + rest)[p..] == rest;
      assert encoded == encoded[..8] + encoded[8..];
    }
  }

  // Decoding an encoded payload gives the payload back, whatever the mode, the mask, the
  // rotation and the padding bit.
  lemma {:induction false} RoundTrip(src: seq<byte>, mode: int, halfMask: Word, rotation: int, paddingBit: nat)
    requires |halfMask| == 32 && Encode(src, mode, halfMask, rotation, paddingBit).Ok?
    ensures Decode(Encode(src, mode, halfMask, rotation, paddingBit).value, |src|, mode, halfMask, rotation) == Ok(src)
  {
    var k := BuildParams(mode).value.sourceBytes;
    RepeatMaskSplit(halfMask);
    RoundTripFrom(src, k, RepeatMask(halfMask), rotation, paddingBit == 1, Err, 0);
  }

  // Whatever decodes is the encoding of the result under one of the two padding bits: no
  // second byte string decodes to the same payload with the same padding.
  lemma {:induction false} Canonical(encoded: seq<byte>, n: nat, mode: int, halfMask: Word, rotation: int) returns (paddingBit: nat)
    requires |halfMask| == 32 && Decode(encoded, n, mode, halfMask, rotation).Ok?
    ensures paddingBit <= 1
    ensures Encode(Decode(encoded, n, mode, halfMask, rotation).value, mode, halfMask, rotation, paddingBit) == Ok(encoded)
  {
    hide RepeatMask, RotateMask, ChunkPadding, DecodeChunk, EncodeChunk, WordOf, Count, EncodeFrom;
    var k := BuildParams(mode).value.sourceBytes;
    var initial := RepeatMask(halfMask);
    RepeatMaskSplit(halfMask);
    var padding := ChunkPadding(WordOf(encoded[..8]), Min(k, n), RotateMask(initial, rotation, 0)).value;
    paddingBit := if padding then 1 else 0;
    assert DecodeFrom(encoded, n, k, initial, rotation, Err, 0) == DecodeFrom(encoded, n, k, initial, rotation, Ok(padding), 0);
    CanonicalFrom(encoded, n, k, initial, rotation, padding, 0);
  }

  // Exactly the encodings decode.
  lemma {:induction false} DecodesIffEncoded(encoded: seq<byte>, n: nat, mode: int, halfMask: Word, rotation: int)
    requires |halfMask| == 32
    ensures Decode(encoded, n, mode, halfMask, rotation).Ok?
       <==> exists src: seq<byte>, bit: nat :: |src| == n && Encode(src, mode, halfMask, rotation, bit) == Ok(encoded)
  {
    if Decode(encoded, n, mode, halfMask, rotation).Ok? {
      var bit := Canonical(encoded, n, mode, halfMask, rotation);
      assert Encode(Decode(encoded, n, mode, halfMask, rotation).value, mode, halfMask, rotation, bit) == Ok(encoded);
    }
    forall src: seq<byte>, bit: nat | |src| == n && Encode(src, mode, halfMask, rotation, bit) == Ok(encoded)
      ensures Decode(encoded, n, mode, halfMask, rotation).Ok?
    {
      RoundTrip(src, mode, halfMask, rotation, bit);
    }
  }

  // ---------------------------------------------------------------------------
  // The loops of the source
  // ---------------------------------------------------------------------------

  method EncodePayload(src: seq<byte>, mode: int, halfMask: Word, rotation: int, paddingBit: nat) returns (r: Result<seq<byte>>)
    requires |halfMask| == 32
    ensures r == Encode(src, mode, halfMask, rotation, paddingBit)
  {
    var params := ValidateParams(mode, halfMask, rotation);
    if params.Err? || paddingBit > 1 {
      return Err;
    }
    var encodedLen := EncodedPayloadLen(|src|, mode);
    if encodedLen.Err? {
      return Err;
    }
    EncodedLenIsChunks(|src|, mode);
    var encoded := EncodeLoop(src, encodedLen.value, params.value.sourceBytes, RepeatMask(halfMask), rotation, paddingBit == 1);
    r := Ok(encoded);
  }

  method EncodeLoop(src: seq<byte>, encodedLen: nat, k: nat, initial: Word, rotation: int, padding: bool) returns (r: seq<byte>)
    requires 0 < k <= 8 && |initial| == 64 && encodedLen == 8 * Chunks(|src|, k)
    ensures r == EncodeFrom(src, k, initial, rotation, padding, 0)
  {
    hide EncodeChunk, RotateMask, Chunks, EncodeFrom, BytesOf;
    var encoded := new byte[encodedLen];
    ghost var whole := EncodeFrom(src, k, initial, rotation, padding, 0);
    EncodeFromLength(src, k, initial, rotation, padding, 0);
    assert src[0..] == src;
    var chunkIndex, srcOffset := 0, 0;
    while srcOffset < |src|
      invariant srcOffset <= |src| && 8 * chunkIndex <= encoded.Length
      invariant encoded[..8 * chunkIndex] + EncodeFrom(src[srcOffset..], k, initial, rotation, padding, chunkIndex) == whole
      decreases |src| - srcOffset
    {
      var sourceLen := Min(k, |src| - srcOffset);
      var word := EncodeOneChunk(src[srcOffset..srcOffset + sourceLen], RotateMask(initial, rotation, chunkIndex), padding);
      var chunk := BytesOf(word);
      EncodeFromNext(src, srcOffset, k, initial, rotation, padding, chunkIndex);
      ghost var before := encoded[..8 * chunkIndex];
      ghost var rest := EncodeFrom(src[srcOffset + sourceLen..], k, initial, rotation, padding, chunkIndex + 1);
      Associates(before, chunk, rest);
      assert |before + chunk| <= |whole|;
      PutBytes(encoded, 8 * chunkIndex, chunk);
      chunkIndex, srcOffset := chunkIndex + 1, srcOffset + sourceLen;
    }
    EncodeFromDone(k, initial, rotation, padding, chunkIndex);
    assert src[srcOffset..] == [];
    assert encoded[..8 * chunkIndex] + [] == encoded[..];
    r := encoded[..];
  }

  method EncodeOneChunk(part: seq<byte>, mask: Word, padding: bool) returns (chunk: Word)
    requires |part| <= 8 && |mask| == 64
    ensures chunk == EncodeChunk(part, mask, padding)
  {
    var source := SourceWord(part);
    var dataMask := PdepGeneric(LowBits(8 * |part|), mask);
    chunk := PdepGeneric(source, mask);
    if padding {
      chunk := Or(chunk, Not(dataMask));
    }
  }

  method DecodeOneChunk(chunk: Word, n: nat, mask: Word) returns (padding: Result<bool>, part: seq<byte>)
    requires |chunk| == 64 && |mask| == 64 && n <= 8
    ensures padding == ChunkPadding(chunk, n, mask) && part == DecodeChunk(chunk, n, mask)
  {
    var dataMask := PdepGeneric(LowBits(8 * n), mask);
    var paddingMask := Not(dataMask);
    var shown := And(chunk, paddingMask);
    padding := if IsZero(shown) then Ok(false) else if shown == paddingMask then Ok(true) else Err;
    var source := PextGeneric(chunk, mask);
    part := BytesOf(source)[8 - n..];
  }

  // copy(a[at..], bs) and binary.BigEndian.PutUint64(a[at..], ...).
  method PutBytes(a: array<byte>, at: nat, bs: seq<byte>)
    requires at + |bs| <= a.Length
    modifies a
    ensures a[..at + |bs|] == old(a[..at]) + bs
    ensures a[at + |bs|..] == old(a[at + |bs|..])
  {
    forall j | 0 <= j < |bs| {
      a[at + j] := bs[j];
    }
  }

  lemma {:induction false} EncodeFromDone(k: nat, initial: Word, rotation: int, padding: bool, index: nat)
    requires 0 < k <= 8 && |initial| == 64
    ensures EncodeFrom([], k, initial, rotation, padding, index) == []
  {}

  lemma {:induction false} EncodeFromNext(src: seq<byte>, at: nat, k: nat, initial: Word, rotation: int, padding: bool, index: nat)
    requires 0 < k <= 8 && |initial| == 64 && at < |src|
    ensures EncodeFrom(src[at..], k, initial, rotation, padding, index)
         == BytesOf(EncodeChunk(src[at..at + Min(k, |src| - at)], RotateMask(initial, rotation, index), padding))
            + EncodeFrom(src[at + Min(k, |src| - at)..], k, initial, rotation, padding, index + 1)
  {
    hide EncodeChunk, RotateMask;
    var n := Min(k, |src| - at);
    assert src[at..][..n] == src[at..at + n] && src[at..][n..] == src[at + n..];
  }

  lemma {:induction false} EncodedLenIsChunks(n: nat, mode: int)
    requires EncodedPayloadLen(n, mode).Ok?
    ensures EncodedPayloadLen(n, mode).value == 8 * Chunks(n, BuildParams(mode).value.sourceBytes)
  {}

  method DecodePayload(encoded: seq<byte>, extractedLen: nat, mode: int, halfMask: Word, rotation: int) returns (r: Result<seq<byte>>)
    requires |halfMask| == 32
    ensures r == Decode(encoded, extractedLen, mode, halfMask, rotation)
  {
    var params := ValidateParams(mode, halfMask, rotation);
    if params.Err? {
      return Err;
    }
    var expectedLen := EncodedPayloadLen(extractedLen, mode);
    if expectedLen != Ok(|encoded|) {
      return Err;
    }
    EncodedLenIsChunks(extractedLen, mode);
    r := DecodeLoop(encoded, extractedLen, params.value.sourceBytes, RepeatMask(halfMask), rotation);
  }

  method DecodeLoop(encoded: seq<byte>, extractedLen: nat, k: nat, initial: Word, rotation: int) returns (r: Result<seq<byte>>)
    requires 0 < k <= 8 && |initial| == 64 && |encoded| == 8 * Chunks(extractedLen, k)
    ensures r == DecodeFrom(encoded, extractedLen, k, initial, rotation, Err, 0)
  {
    hide DecodeChunk, ChunkPadding, RotateMask, Chunks, WordOf, DecodeFrom;
    var decoded := new byte[extractedLen];
    ghost var whole := DecodeFrom(encoded, extractedLen, k, initial, rotation, Err, 0);
    var paddingBit: Result<bool> := Err;
    var chunkIndex, dstOffset := 0, 0;
    assert encoded[0..] == encoded;
    PrependNothing(whole);
    while dstOffset < extractedLen
      invariant dstOffset <= extractedLen && 8 * chunkIndex <= |encoded|
      invariant |encoded| - 8 * chunkIndex == 8 * Chunks(extractedLen - dstOffset, k)
      invariant whole == Prepend(decoded[..dstOffset], DecodeFrom(encoded[8 * chunkIndex..], extractedLen - dstOffset, k, initial, rotation, paddingBit, chunkIndex))
      decreases extractedLen - dstOffset
    {
      var sourceLen := Min(k, extractedLen - dstOffset);
      ChunksNext(extractedLen - dstOffset, k);
      DecodeFromNext(encoded, 8 * chunkIndex, extractedLen - dstOffset, k, initial, rotation, paddingBit, chunkIndex);
      var chunk := WordOf(encoded[8 * chunkIndex..8 * chunkIndex + 8]);
      var mask := RotateMask(initial, rotation, chunkIndex);
      var padding, part := DecodeOneChunk(chunk, sourceLen, mask);
      if padding.Err? || (paddingBit.Ok? && padding != paddingBit) {
        return Err;
      }
      PrependTwice(decoded[..dstOffset], part, DecodeFrom(encoded[8 * chunkIndex + 8..], extractedLen - dstOffset - sourceLen, k, initial, rotation, padding, chunkIndex + 1));
      PutBytes(decoded, dstOffset, part);
      paddingBit := padding;
      chunkIndex, dstOffset := chunkIndex + 1, dstOffset + sourceLen;
    }
    DecodeFromDone(encoded[8 * chunkIndex..], k, initial, rotation, paddingBit, chunkIndex);
    assert decoded[..dstOffset] + [] == decoded[..];
    r := Ok(decoded[..]);
  }

  ghost function Prepend(a: seq<byte>, r: Result<seq<byte>>): Result<seq<byte>> {
    match r
    case Err => Err
    case Ok(b) => Ok(a + b)
  }

  lemma {:induction false} PrependNothing(r: Result<seq<byte>>)
    ensures Prepend([], r) == r
  {
    assert r.Ok? ==> [] + r.value == r.value;
  }

  lemma {:induction false} PrependTwice(a: seq<byte>, b: seq<byte>, r: Result<seq<byte>>)
    ensures Prepend(a, Prepend(b, r)) == Prepend(a + b, r)
  {
    if r.Ok? {
      Associates(a, b, r.value);
    }
  }

  lemma {:induction false} DecodeFromDone(encoded: seq<byte>, k: nat, initial: Word, rotation: int, expected: Result<bool>, index: nat)
    requires 0 < k <= 8 && |initial| == 64 && |encoded| == 8 * Chunks(0, k)
    ensures DecodeFrom(encoded, 0, k, initial, rotation, expected, index) == Ok([])
  {}

  lemma {:induction false} DecodeFromNext(encoded: seq<byte>, at: nat, n: nat, k: nat, initial: Word, rotation: int, expected: Result<bool>, index: nat)
    requires 0 < k <= 8 && |initial| == 64 && n > 0 && at + 8 * Chunks(n, k) == |encoded|
    ensures Chunks(n, k) == 1 + Chunks(n - Min(k, n), k)
    ensures
      var p := Min(k, n);
      var chunk := WordOf(encoded[at..at + 8]);
      var mask := RotateMask(initial, rotation, index);
      var padding := ChunkPadding(chunk, p, mask);
      DecodeFrom(encoded[at..], n, k, initial, rotation, expected, index)
      == (if padding.Err? || (expected.Ok? && padding != expected) then Err
          else Prepend(DecodeChunk(chunk, p, mask), DecodeFrom(encoded[at + 8..], n - p, k, initial, rotation, padding, index + 1)))
  {
    hide DecodeChunk, ChunkPadding, RotateMask, Chunks, WordOf;
    ChunksNext(n, k);
    assert encoded[at..][..8] == encoded[at..at + 8] && encoded[at..][8..] == encoded[at + 8..];
  }
}

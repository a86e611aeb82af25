/** Fragmentation and the size of what goes on the wire (pkg/protocol/segment.go,
    pkg/protocol/padding.go and the fragment loop of Session.writeChunk). */
module Fragment {
  import opened Bits
  import opened Bytes
  import opened LowEntropy

  const NONCE_SIZE := 24
  const OVERHEAD := 16
  const METADATA_LENGTH := 32
  const PACKET_OVERHEAD := NONCE_SIZE + METADATA_LENGTH + OVERHEAD * 2
  const MAX_PDU := 32 * 1024
  const MAX_SESSION_OPEN_PAYLOAD := 1024
  const MODE_OFF := 0

  datatype Transport = StreamTransport | PacketTransport

  function MaxFragmentSizeInternal(mtu: int, transport: Transport): (r: int) {
    if transport.StreamTransport? then MAX_PDU else Max(0, mtu - PACKET_OVERHEAD)
  }

  // Go's division truncates toward zero.
  function Quotient(a: int, b: int): (q: int)
    requires b > 0
  {
    if a >= 0 then a / b else -((-a) / b)
  }

  function MaxFragmentSize(mtu: int, transport: Transport, mode: int): (r: Result<int>)
  {
    if mode == MODE_OFF then Ok(MaxFragmentSizeInternal(mtu, transport))
    else match BuildParams(mode)
      case Err => Err
      case Ok(p) =>
        match transport
        case StreamTransport => Ok(Min(MaxFragmentSizeInternal(mtu, transport), (MAX_UINT16 / CHUNK_LEN) * p.sourceBytes))
        case PacketTransport =>
          var mtuChunkCount := Quotient(mtu - PACKET_OVERHEAD, CHUNK_LEN);
          if mtuChunkCount <= 0 then Err else Ok(mtuChunkCount * p.sourceBytes)
  }

  // ---------------------------------------------------------------------------
  // Fragments of a chunk
  // ---------------------------------------------------------------------------

  function Flatten(parts: seq<seq<byte>>): (r: seq<byte>) {
    if parts == [] then [] else Flatten(parts[..|parts| - 1]) + parts[|parts| - 1]
  }

  lemma {:induction false} FlattenNone()
    ensures Flatten([]) == []
  {}

  // The number of fragments that writeChunk decides on.
  function FragmentCount(n: nat, size: nat): (c: nat)
    requires size > 0
  {
    if n > size then (n - 1) / size + 1 else 1
  }

  // The parts that the fragment loop cuts off one after the other.
  function Fragments(b: seq<byte>, size: nat): (r: seq<seq<byte>>)
    requires size > 0
    ensures |r| > 0
    decreases |b|
  {
    if |b| <= size then [b] else [b[..size]] + Fragments(b[size..], size)
  }

  lemma {:induction false} FlattenCons(p: seq<byte>, parts: seq<seq<byte>>)
    ensures Flatten([p] + parts) == p + Flatten(parts)
  {
    if parts == [] {
      assert [p] + parts == [p] && [p][..0] == [];
    } else {
      var n := |parts| - 1;
      FlattenCons(p, parts[..n]);
      assert ([p] + parts)[..n + 1] == [p] + parts[..n];
      Associates(p, Flatten(parts[..n]), parts[n]);
    }
  }

  lemma {:induction false} FlattenNext(parts: seq<seq<byte>>, p: seq<byte>)
    ensures Flatten(parts + [p]) == Flatten(parts) + p
  {
    assert (parts + [p])[..|parts|] == parts;
  }

  lemma {:induction false} FlattenPrefix(parts: seq<seq<byte>>, n: nat)
    requires n <= |parts|
    ensures Flatten(parts[..n]) <= Flatten(parts)
    decreases |parts|
  {
    if n == |parts| {
      assert parts[..n] == parts;
    } else {
      FlattenPrefix(parts[..|parts| - 1], n);
      assert parts[..|parts| - 1][..n] == parts[..n];
    }
  }

  // The fragments are as many as announced, none is longer than the fragment size, only
  // an empty chunk has an empty one, and together they are the chunk.
  lemma {:induction false} FragmentsOf(b: seq<byte>, size: nat)
    requires size > 0
    ensures |Fragments(b, size)| == FragmentCount(|b|, size)
    ensures Flatten(Fragments(b, size)) == b
    ensures forall i | 0 <= i < |Fragments(b, size)| :: |Fragments(b, size)[i]| <= size
    ensures b != [] ==> forall i | 0 <= i < |Fragments(b, size)| :: Fragments(b, size)[i] != []
    decreases |b|
  {
    if |b| <= size {
      assert [b][..0] == [];
    } else {
      FragmentsOf(b[size..], size);
      FlattenCons(b[..size], Fragments(b[size..], size));
      CountNext(|b|, size);
    }
  }

  lemma {:induction false} CountNext(n: nat, size: nat)
    requires 0 < size < n
    ensures FragmentCount(n, size) == 1 + FragmentCount(n - size, size)
  {
    var q, r := (n - size - 1) / size, (n - size - 1) % size;
    assert n - 1 == (q + 1) * size + r by { assert (q + 1) * size == q * size + size; }
    DivModUnique(n - 1, size, q + 1, r);
    if n - size <= size {
      DivModUnique(n - size - 1, size, 0, n - size - 1);
    }
  }

  lemma {:induction false} MulMonotone(a: int, b: int, k: int)
    requires a <= b && k >= 0
    ensures a * k <= b * k
  {}

  // A chunk of up to 32 KiB has few enough fragments for the one-byte fragment number.
  lemma {:induction false} FragmentNumberFits(n: nat, size: nat)
    requires n <= MAX_PDU && size >= 596
    ensures FragmentCount(n, size) <= 55
  {
    if n > size {
      var q := (n - 1) / size;
      if q >= 55 {
        MulMonotone(55, q, size);
        assert q * size <= n - 1;
      }
    }
  }

  // The wire length of a fragment: in low entropy mode the encoded length.
  function WireLen(n: nat, mode: int): (r: Result<nat>) {
    if mode == MODE_OFF then Ok(n) else EncodedPayloadLen(n, mode)
  }

  // ---------------------------------------------------------------------------
  // Padding
  // ---------------------------------------------------------------------------

  function MaxPaddingSize(mtu: int, transport: Transport, fragmentSize: int, existing: int): (r: int)
  {
    if transport.StreamTransport? then 255
    else
      var res := mtu - fragmentSize - PACKET_OVERHEAD;
      if res <= existing then 0 else Min(res - existing, 255)
  }

  // `configured` is the limit of the traffic pattern for this padding position, if any.
  function MaxPaddingSizeWithTrafficPattern(mtu: int, transport: Transport, fragmentSize: int, existing: int, configured: Result<int>): (r: int)
    ensures 0 <= r <= 255
    ensures r <= MaxPaddingSize(mtu, transport, fragmentSize, existing) && (configured.Ok? ==> r <= Max(0, configured.value))
    ensures r == MaxPaddingSize(mtu, transport, fragmentSize, existing) || (configured.Ok? && r == Max(0, configured.value))
  {
    var limit := MaxPaddingSize(mtu, transport, fragmentSize, existing);
    if configured.Err? then limit
    else if configured.value < 0 then 0
    else Min(limit, configured.value)
  }

  // The length newPadding draws for ASCII padding; `draw` is rng.Intn(maxLen - minLen + 1).
  function AsciiPaddingLen(maxLen: nat, minLen: nat, draw: nat): (r: nat)
    requires minLen <= maxLen && draw < maxLen - minLen + 1
    ensures minLen <= r <= maxLen
  {
    draw + minLen
  }

  // The length newPadding draws for entropy padding; `draw` is rng.Intn(maxLen - minPaddingBytes + 1).
  function EntropyPaddingLen(maxLen: nat, minPaddingBytes: nat, draw: nat): (r: nat)
    requires minPaddingBytes < maxLen ==> draw < maxLen - minPaddingBytes + 1
    ensures Min(minPaddingBytes, maxLen) <= r <= maxLen
  {
    if minPaddingBytes >= maxLen then maxLen else draw + minPaddingBytes
  }

  // The length of a data or ack datagram.
  function DataAckDatagramLen(prefix: nat, wirePayloadLen: nat, suffix: nat): (r: nat) {
    NONCE_SIZE + METADATA_LENGTH + OVERHEAD + prefix + (if wirePayloadLen > 0 then wirePayloadLen + OVERHEAD else 0) + suffix
  }

  // Every fragment of a chunk can be encoded and leaves room for the rest of its datagram.
  lemma {:induction false} FragmentWireLen(n: nat, mtu: int, mode: int)
    requires 1280 <= mtu <= 1500 && 0 <= mode <= 4
    requires MaxFragmentSize(mtu, PacketTransport, mode).Ok? && 0 < n <= MaxFragmentSize(mtu, PacketTransport, mode).value
    ensures WireLen(n, mode).Ok? && WireLen(n, mode).value <= mtu - PACKET_OVERHEAD
  {
    if mode != MODE_OFF {
      var k := BuildParams(mode).value.sourceBytes;
      var c := (mtu - PACKET_OVERHEAD) / CHUNK_LEN;
      ChunksBound(n, k, c);
    }
  }

  // The fragment size is the largest: a fragment fits if and only if it is no longer.
  lemma {:induction false} FragmentFitsExactly(n: nat, mtu: int, mode: int)
    requires 1280 <= mtu <= 1500 && 0 <= mode <= 4 && n > 0
    ensures MaxFragmentSize(mtu, PacketTransport, mode).Ok?
    ensures n <= MaxFragmentSize(mtu, PacketTransport, mode).value
            <==> WireLen(n, mode).Ok? && WireLen(n, mode).value <= mtu - PACKET_OVERHEAD
  {
    FragmentSizePositive(mtu, mode);
    var size := MaxFragmentSize(mtu, PacketTransport, mode).value;
    if n <= size {
      FragmentWireLen(n, mtu, mode);
    } else if mode != MODE_OFF && WireLen(n, mode).Ok? {
      var k := BuildParams(mode).value.sourceBytes;
      var c := (mtu - PACKET_OVERHEAD) / CHUNK_LEN;
      ManyChunks(n, k, c);
    }
  }

  lemma {:induction false} ManyChunks(n: nat, k: nat, c: nat)
    requires k > 0 && n > c * k
    ensures n / k + (if n % k != 0 then 1 else 0) >= c + 1
  {
    var q, r := n / k, n % k;
    assert n == q * k + r;
    if q < c {
      assert (q + 1) * k == q * k + k;
      MulMonotone(q + 1, c, k);
    }
  }

  // The padding limit is the largest: it is 255, or one more byte of padding exceeds the MTU.
  lemma {:induction false} PaddingIsLargest(mtu: int, fragmentSize: nat, existing: nat)
    ensures
      (var r := MaxPaddingSize(mtu, PacketTransport, fragmentSize, existing);
       && 0 <= r <= 255
       && (fragmentSize + existing + PACKET_OVERHEAD <= mtu ==> DataAckDatagramLen(existing, fragmentSize, r) <= mtu)
       && (fragmentSize > 0 ==> r == 255 || DataAckDatagramLen(existing, fragmentSize, r + 1) > mtu))
  {}

  lemma {:induction false} ChunksBound(n: nat, k: nat, c: nat)
    requires k > 0 && n <= c * k
    ensures Chunks(n, k) <= c
  {
    var q, r := n / k, n % k;
    assert (c + 1) * k == c * k + k;
    if q > c {
      MulMonotone(c + 1, q, k);
    }
  }

  // Every MTU of the configured range leaves room for a fragment in every mode.
  lemma {:induction false} FragmentSizePositive(mtu: int, mode: int)
    requires 1280 <= mtu <= 1500 && 0 <= mode <= 4
    ensures MaxFragmentSize(mtu, PacketTransport, mode).Ok?
    ensures 596 <= MaxFragmentSize(mtu, PacketTransport, mode).value <= MAX_PDU
  {
    if mode != MODE_OFF {
      MulMonotone(149, (mtu - PACKET_OVERHEAD) / CHUNK_LEN, BuildParams(mode).value.sourceBytes);
      MulMonotone((mtu - PACKET_OVERHEAD) / CHUNK_LEN, 177, BuildParams(mode).value.sourceBytes);
    }
  }

  // On a stream every mode fragments at a size whose encoded length fits the two-byte field.
  lemma {:induction false} StreamFragmentEncodable(n: nat, mtu: int, mode: int)
    requires 0 <= mode <= 4
    ensures MaxFragmentSize(mtu, StreamTransport, mode).Ok?
    ensures 0 < n <= MaxFragmentSize(mtu, StreamTransport, mode).value ==> WireLen(n, mode).Ok? && WireLen(n, mode).value <= MAX_UINT16
  {
    if mode != MODE_OFF && 0 < n <= MaxFragmentSize(mtu, StreamTransport, mode).value {
      ChunksBound(n, BuildParams(mode).value.sourceBytes, MAX_UINT16 / CHUNK_LEN);
    }
  }
}

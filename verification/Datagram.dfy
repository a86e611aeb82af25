/** From a packet of a session to the bytes on the wire and back: every packet that an endpoint
    makes can be written, its datagram fits the MTU with whatever padding is drawn, and the
    other side parses it into the same packet. */
module Datagrams {
  import opened Bits
  import opened Bytes
  import opened LowEntropy
  import opened Fragment
  import opened Protocols
  import opened Metadata
  import opened Cipher
  import opened Packets
  import opened Segments
  import opened Endpoints

  // A low entropy packet has an encoding in its mode.
  predicate Encodable(p: Packet, mode: int) {
    IsLowEntropyProtocol(p.protocol) ==> mode >= 0 && EncodedPayloadLen(|p.payload|, mode).Ok?
  }

  // The segment of a packet, with the session number, mode and rotation of its session.
  function SegOf(p: Packet, id: nat, mode: int, rotation: nat): (s: Seg)
    requires Encodable(p, mode)
    ensures s.payload == p.payload
  {
    if IsSessionProtocol(p.protocol) then
      Seg(SessionMeta(p.protocol, 0, id, p.seqNo, 0, |p.payload|, 0), p.payload)
    else if IsLowEntropyProtocol(p.protocol) then
      Seg(DataAckMeta(p.protocol, 0, mode, id, p.seqNo, p.unAckSeq, p.windowSize, p.fragment, 0,
                      EncodedPayloadLen(|p.payload|, mode).value, 0, Zeros(32), |p.payload|, rotation), p.payload)
    else
      Seg(DataAckMeta(p.protocol, 0, 0, id, p.seqNo, p.unAckSeq, p.windowSize, p.fragment, 0,
                      |p.payload|, 0, Zeros(32), 0, 0), p.payload)
  }

  // What the input of a session takes from a parsed segment. The metadata of a session control
  // segment has no acknowledgement, window or fragment number.
  function PacketOf(s: Seg): (p: Packet) {
    match s.meta
    case SessionMeta(protocol, _, _, seqNo, _, _, _) => Packet(protocol, seqNo, 0, 0, 0, s.payload)
    case DataAckMeta(protocol, _, _, _, seqNo, unAckSeq, windowSize, fragment, _, _, _, _, _, _) =>
      Packet(protocol, seqNo, unAckSeq, windowSize, fragment, s.payload)
  }

  // The limits that writeOneSegment puts on the two paddings.
  predicate PaddingWithin(s: Seg, mtu: int, c1: Result<int>, c2: Result<int>, prefix: nat, suffix: nat) {
    && prefix <= (if s.meta.SessionMeta? then 0 else MaxPaddingSizeWithTrafficPattern(mtu, PacketTransport, s.meta.payloadLen, 0, c1))
    && suffix <= MaxPaddingSizeWithTrafficPattern(mtu, PacketTransport, s.meta.payloadLen, prefix, c2)
  }

  // The segment can be written, and no choice of padding exceeds the MTU.
  ghost predicate Writable(s: Seg, mtu: int) {
    && Consistent(s)
    && forall c1, c2, prefix, suffix :: PaddingWithin(s, mtu, c1, c2, prefix, suffix)
         ==> DataAckDatagramLen(prefix, s.meta.payloadLen, suffix) <= mtu
  }

  // The numbers of a packet fit their fields, and its payload fits a datagram.
  predicate Fits(p: Packet, mtu: int, mode: int) {
    && p.seqNo < UINT32 && p.unAckSeq < UINT32 && p.windowSize <= SEGMENT_TREE_CAPACITY && p.fragment < 55
    && |p.payload| <= MAX_PDU && (IsSessionProtocol(p.protocol) || IsDataAckProtocol(p.protocol))
    && (IsSessionProtocol(p.protocol) ==>
          p.unAckSeq == 0 && p.windowSize == 0 && p.fragment == 0 && |p.payload| <= MAX_SESSION_OPEN_PAYLOAD)
    && (var wire := WireLen(|p.payload|, if IsLowEntropyProtocol(p.protocol) then mode else MODE_OFF);
        wire.Ok? && wire.value + PACKET_OVERHEAD <= mtu)
    && (IsLowEntropyProtocol(p.protocol) ==> mode != MODE_OFF)
  }

  predicate Configured(mtu: int, mode: int) { 1280 <= mtu <= 1500 && 0 <= mode <= 4 }

  // The segment of the packet can be written, and says everything that the packet says.
  ghost predicate Carried(p: Packet, mtu: int, mode: int, id: nat, rotation: nat) {
    && Encodable(p, mode)
    && (var s := SegOf(p, id, mode, rotation);
        Writable(s, mtu) && PacketOf(s) == p && s.meta.sessionID == id)
  }

  lemma {:induction false} ShortFits(s: Seg, mtu: int)
    requires Consistent(s) && s.meta.payloadLen + PACKET_OVERHEAD <= mtu
    ensures Writable(s, mtu)
  {
    hide Consistent;
  }

  lemma {:induction false} FitsIsCarried(p: Packet, mtu: int, mode: int, id: nat, rotation: nat)
    requires Configured(mtu, mode) && Fits(p, mtu, mode) && id < UINT32 && IsValidRotation(rotation)
    ensures Carried(p, mtu, mode, id, rotation)
  {
    hide EncodedPayloadLen, Writable;
    ShortFits(SegOf(p, id, mode, rotation), mtu);
  }

  // ---------------------------------------------------------------------------
  // The packets that an endpoint makes
  // ---------------------------------------------------------------------------

  predicate Small(e: Endpoint) {
    Configured(e.mtu, e.mode) && e.snd.nextSend < UINT32 && e.rcv.nextRecv < UINT32
  }

  // The parts of a chunk, as the fragment loop numbers them.
  predicate PartsFit(parts: seq<seq<byte>>, mtu: int, sendMode: int) {
    && |parts| <= 55
    && forall i | 0 <= i < |parts| ::
         |parts[i]| <= MAX_PDU && WireLen(|parts[i]|, sendMode).Ok? && WireLen(|parts[i]|, sendMode).value + PACKET_OVERHEAD <= mtu
  }

  lemma {:induction false} PartsOfFit(e: Endpoint, b: seq<byte>)
    requires Configured(e.mtu, e.mode) && 0 < |b| <= MAX_PDU
    ensures PartsFit(PartsOf(e, b), e.mtu, SendMode(e))
  {
    hide Fragments, FragmentCount, WireLen, MaxFragmentSize;
    FragmentSizePositive(e.mtu, SendMode(e));
    var size := MaxFragmentSize(e.mtu, PacketTransport, SendMode(e)).value;
    FragmentsOf(b, size);
    FragmentNumberFits(|b|, size);
    var parts := PartsOf(e, b);
    forall i | 0 <= i < |parts|
      ensures |parts[i]| <= MAX_PDU && WireLen(|parts[i]|, SendMode(e)).Ok? && WireLen(|parts[i]|, SendMode(e)).value + PACKET_OVERHEAD <= e.mtu
    {
      FragmentWireLen(|parts[i]|, e.mtu, SendMode(e));
    }
  }

  lemma {:induction false} PartFits(e: Endpoint, part: seq<byte>, fragment: nat)
    requires Small(e) && |part| <= MAX_PDU && fragment < 55
    requires WireLen(|part|, SendMode(e)).Ok? && WireLen(|part|, SendMode(e)).value + PACKET_OVERHEAD <= e.mtu
    ensures Fits(DataPacket(e, part, fragment), e.mtu, e.mode)
  {
    hide WireLen;
  }

  // A fragment of a chunk, as the fragment loop numbers it.
  lemma {:induction false} DataFits(e: Endpoint, b: seq<byte>, i: nat, id: nat, rotation: nat)
    requires Small(e) && id < UINT32 && IsValidRotation(rotation) && 0 < |b| <= MAX_PDU && i < |PartsOf(e, b)|
    ensures Carried(DataPacket(e, PartsOf(e, b)[i], |PartsOf(e, b)| - 1 - i), e.mtu, e.mode, id, rotation)
  {
    hide PartsOf, WireLen, IsValidRotation, Fits, Carried, DataPacket;
    PartsOfFit(e, b);
    var p := DataPacket(e, PartsOf(e, b)[i], |PartsOf(e, b)| - 1 - i);
    PartFits(e, PartsOf(e, b)[i], |PartsOf(e, b)| - 1 - i);
    FitsIsCarried(p, e.mtu, e.mode, id, rotation);
  }

  lemma {:induction false} OpenFits(e: Endpoint, b: seq<byte>)
    requires Small(e)
    ensures Fits(OpenRequest(e, b), e.mtu, e.mode) && Fits(OpenResponse(e), e.mtu, e.mode)
  {}

  // The open request and the open response.
  lemma {:induction false} SessionFits(e: Endpoint, b: seq<byte>, id: nat)
    requires Small(e) && id < UINT32
    ensures Carried(OpenRequest(e, b), e.mtu, e.mode, id, 0) && Carried(OpenResponse(e), e.mtu, e.mode, id, 0)
  {
    hide Fits, Carried, OpenRequest, OpenResponse;
    OpenFits(e, b);
    FitsIsCarried(OpenRequest(e, b), e.mtu, e.mode, id, 0);
    FitsIsCarried(OpenResponse(e), e.mtu, e.mode, id, 0);
  }

  lemma {:induction false} AckPacketFits(e: Endpoint)
    requires Small(e)
    ensures Fits(AckPacket(e), e.mtu, e.mode)
  {}

  // An acknowledgement or heartbeat, with padding on both sides.
  lemma {:induction false} AckFits(e: Endpoint, id: nat)
    requires Small(e) && id < UINT32
    ensures Carried(AckPacket(e), e.mtu, e.mode, id, 0)
  {
    hide Fits, Carried, AckPacket;
    AckPacketFits(e);
    FitsIsCarried(AckPacket(e), e.mtu, e.mode, id, 0);
  }

  // ---------------------------------------------------------------------------
  // Over the wire
  // ---------------------------------------------------------------------------

  // The segment as it leaves: masked if it is low entropy, stamped, and with its padding lengths.
  function Leaving(s: Seg, mask: Word, prefix: seq<byte>, suffix: seq<byte>, now: nat): (r: Seg) {
    Seg(Stamped(if IsLow(s.meta) then s.meta.(mask := mask) else s.meta, prefix, suffix, now), s.payload)
  }

  // A half-mask that prepareLowEntropyDataAckForSend accepts for the segment.
  predicate MaskFits(s: Seg, mask: Word) {
    |mask| == 32 && (IsLow(s.meta) ==> ValidLowEntropy(s.meta.(mask := mask)))
  }

  lemma {:induction false} LeavingSame(s: Seg, mask: Word, prefix: seq<byte>, suffix: seq<byte>, now: nat)
    ensures PacketOf(Leaving(s, mask, prefix, suffix, now)) == PacketOf(s)
    ensures
      (var m := Leaving(s, mask, prefix, suffix, now).meta;
       m.timestamp == now && m.payloadLen == s.meta.payloadLen && m.sessionID == s.meta.sessionID)
  {}

  // The datagram of a packet, with any padding, mask and nonce: it fits the MTU, a receiver whose
  // clock agrees parses it into the very same packet of the same session, and any other refuses it.
  lemma {:induction false} PacketCrosses(a: Aead, p: Packet, mtu: int, mode: int, id: nat, rotation: nat, c1: Result<int>, c2: Result<int>,
      nonce: seq<byte>, prefix: seq<byte>, suffix: seq<byte>, mask: Word, paddingBit: nat, now: nat, t: nat)
    requires Sound(a) && |nonce| == NONCE_SIZE && now < UINT32 && paddingBit <= 1
    requires Carried(p, mtu, mode, id, rotation) && MaskFits(SegOf(p, id, mode, rotation), mask)
    requires PaddingWithin(SegOf(p, id, mode, rotation), mtu, c1, c2, |prefix|, |suffix|)
    ensures
      (var s := Leaving(SegOf(p, id, mode, rotation), mask, prefix, suffix, now);
       && Fields(s.meta)
       && (var d := Datagram(a, nonce, s, prefix, suffix, paddingBit);
           && d.Ok? && |d.value| <= mtu
           && (if WithinRange(t, now, 1)
               then Parse(a, d.value, t).Ok? && PacketOf(Parse(a, d.value, t).value) == p && Parse(a, d.value, t).value.meta.sessionID == id
               else Parse(a, d.value, t).Err?)))
  {
    hide Encodable, SegOf, PacketOf, Consistent, Sound, Parse, WithinRange, Datagram, Sendable, Leaving, Stamped, ValidLowEntropy;
    var u := SegOf(p, id, mode, rotation);
    var s := Leaving(u, mask, prefix, suffix, now);
    LeavingSame(u, mask, prefix, suffix, now);
    LeavingIsSendable(u, mask, prefix, suffix, now);
    SendableFields(s, prefix, suffix);
    DatagramRoundTrip(a, nonce, s, prefix, suffix, paddingBit, t);
  }

  lemma {:induction false} LeavingIsSendable(s: Seg, mask: Word, prefix: seq<byte>, suffix: seq<byte>, now: nat)
    requires Consistent(s) && PaddingFits(s.meta, prefix, suffix) && now < UINT32 && MaskFits(s, mask)
    ensures Sendable(Leaving(s, mask, prefix, suffix, now), prefix, suffix)
  {
    hide Consistent, ValidLowEntropy, Stamped, Sendable;
    StampedIsSendable(s, if IsLow(s.meta) then s.meta.(mask := mask) else s.meta, prefix, suffix, now);
  }

  // writeOneSegment on a packet of a session: the length check before the write never fires,
  // and every receiver whose clock agrees takes in the same packet.
  method WriteDatagram(a: Aead, p: Packet, mtu: int, mode: int, id: nat, rotation: nat, c1: Result<int>, c2: Result<int>,
      nonce: seq<byte>, prefix: seq<byte>, suffix: seq<byte>, now: nat, draw: nat -> nat, paddingBit: nat) returns (b: seq<byte>)
    requires Sound(a) && |nonce| == NONCE_SIZE && Carried(p, mtu, mode, id, rotation)
    requires PaddingWithin(SegOf(p, id, mode, rotation), mtu, c1, c2, |prefix|, |suffix|)
    requires now < UINT32 && paddingBit <= 1 && forall i | 0 <= i < 32 :: draw(i) < 32 - i
    ensures |b| <= mtu
    ensures forall t | WithinRange(t, now, 1) ::
      Parse(a, b, t).Ok? && PacketOf(Parse(a, b, t).value) == p && Parse(a, b, t).value.meta.sessionID == id
  {
    hide Encodable, SegOf, PacketOf, Consistent, Sound, Parse, WithinRange, Datagram, Sendable, Stamped;
    var s := SegOf(p, id, mode, rotation);
    var sent;
    b, sent := WriteOneSegment(a, s, nonce, prefix, suffix, now, draw, paddingBit);
    StampedSame(s, if sent.meta.DataAckMeta? then sent.meta.mask else Zeros(32), prefix, suffix, now);
  }

  lemma {:induction false} StampedSame(s: Seg, mask: Word, prefix: seq<byte>, suffix: seq<byte>, now: nat)
    ensures
      (var m := Stamped(s.meta, prefix, suffix, now);
       PacketOf(Seg(m, s.payload)) == PacketOf(s) && m.sessionID == s.meta.sessionID)
    ensures IsLow(s.meta) ==>
      (var m := Stamped(s.meta.(mask := mask), prefix, suffix, now);
       PacketOf(Seg(m, s.payload)) == PacketOf(s) && m.sessionID == s.meta.sessionID)
  {}
}

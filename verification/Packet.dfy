/** Segments as datagrams (pkg/protocol/underlay_packet.go) and the low entropy form of an
    encrypted payload (pkg/protocol/underlay_base.go). */
module Packets {
  import opened Bits
  import opened Bytes
  import opened LowEntropy
  import opened Fragment
  import opened Protocols
  import opened Metadata
  import opened Cipher
  import opened Rng

  datatype Seg = Seg(meta: Meta, payload: seq<byte>)

  predicate IsLow(m: Meta) { m.DataAckMeta? && IsLowEntropyProtocol(m.protocol) }

  function PrefixLen(m: Meta): nat { if m.DataAckMeta? then m.prefixLen else 0 }

  // The lengths in the metadata agree with the payload.
  predicate LengthsAgree(m: Meta, n: nat) {
    if IsLow(m) then m.extractedLen == n && EncodedPayloadLen(n, m.mode) == Ok(m.payloadLen) else m.payloadLen == n
  }

  // A segment as a session hands it over. Padding, timestamp and mask are still to come.
  predicate Consistent(s: Seg) {
    && Fields(s.meta) && Clean(s.meta) && LengthsAgree(s.meta, |s.payload|)
    && (s.meta.SessionMeta? ==> |s.payload| <= MAX_SESSION_OPEN_PAYLOAD)
    && (IsLow(s.meta) ==> IsValidRotation(s.meta.rotation) && |s.payload| <= MAX_PDU)
  }

  // ---------------------------------------------------------------------------
  // Low entropy
  // ---------------------------------------------------------------------------

  // prepareLowEntropyDataAckForSend with the half-mask that was drawn.
  function Prepared(m: Meta, n: nat, mask: Word): (r: Result<Meta>)
    requires m.DataAckMeta? && |mask| == 32
  {
    if !IsLowEntropyProtocol(m.protocol) || n != m.extractedLen then Err
    else if EncodedPayloadLen(n, m.mode) != Ok(m.payloadLen) || !IsValidRotation(m.rotation) then Err
    else if !ValidLowEntropy(m.(mask := mask)) then Err
    else Ok(m.(mask := mask))
  }

  // Every low entropy segment of a session is prepared without an error, whatever the random
  // source draws, and then passes the check of the receiver.
  method PrepareForSend(s: Seg, draw: nat -> nat) returns (r: Result<Meta>)
    requires Consistent(s) && IsLow(s.meta) && forall i | 0 <= i < 32 :: draw(i) < 32 - i
    ensures r.Ok? && r.value.DataAckMeta? && |r.value.mask| == 32 && r == Prepared(s.meta, |s.payload|, r.value.mask)
    ensures r.value == s.meta.(mask := r.value.mask) && ValidLowEntropy(r.value)
  {
    hide Count;
    var params := BuildParams(s.meta.mode);
    var mask := Uint32WithBits(params.value.halfMaskOnes, draw);
    MultipleOfEight(|s.payload|, s.meta.mode);
    r := Prepared(s.meta, |s.payload|, mask.value);
  }

  lemma {:induction false} MultipleOfEight(n: nat, mode: int)
    requires EncodedPayloadLen(n, mode).Ok?
    ensures EncodedPayloadLen(n, mode).value % 8 == 0 && n > 0
  {}

  // encodeLowEntropyEncryptedPayload: the body is encoded, the tag stays as it is.
  function EncodeEncrypted(c: seq<byte>, m: Meta, paddingBit: nat): (r: Result<seq<byte>>)
    requires m.DataAckMeta? && |m.mask| == 32
  {
    if |c| != m.extractedLen + OVERHEAD then Err
    else
      match Encode(c[..m.extractedLen], m.mode, m.mask, m.rotation, paddingBit)
      case Err => Err
      case Ok(body) => if |body| != m.payloadLen then Err else Ok(body + c[m.extractedLen..])
  }

  function DecodeEncrypted(c: seq<byte>, m: Meta): (r: Result<seq<byte>>)
    requires m.DataAckMeta? && |m.mask| == 32
  {
    if !ValidLowEntropy(m) || |c| != m.payloadLen + OVERHEAD then Err
    else
      match Decode(c[..m.payloadLen], m.extractedLen, m.mode, m.mask, m.rotation)
      case Err => Err
      case Ok(body) => Ok(body + c[m.payloadLen..])
  }

  lemma {:induction false} EncodedLength(src: seq<byte>, mode: int, mask: Word, rotation: int, paddingBit: nat)
    requires |mask| == 32 && Encode(src, mode, mask, rotation, paddingBit).Ok?
    ensures EncodedPayloadLen(|src|, mode) == Ok(|Encode(src, mode, mask, rotation, paddingBit).value|)
  {
    hide EncodeFrom, EncodedPayloadLen;
    var k := BuildParams(mode).value.sourceBytes;
    EncodeFromLength(src, k, RepeatMask(mask), rotation, paddingBit == 1, 0);
    EncodedLenIsChunks(|src|, mode);
  }

  lemma {:induction false} EncodeSucceeds(src: seq<byte>, mode: int, mask: Word, rotation: int, paddingBit: nat)
    requires |mask| == 32 && ValidateParams(mode, mask, rotation).Ok? && paddingBit <= 1 && EncodedPayloadLen(|src|, mode).Ok?
    ensures Encode(src, mode, mask, rotation, paddingBit).Ok?
  {}

  lemma {:induction false} EncryptedRoundTrip(c: seq<byte>, m: Meta, paddingBit: nat)
    requires m.DataAckMeta? && |m.mask| == 32 && ValidLowEntropy(m) && m.extractedLen > 0
    requires |c| == m.extractedLen + OVERHEAD && paddingBit <= 1
    ensures EncodeEncrypted(c, m, paddingBit).Ok?
    ensures |EncodeEncrypted(c, m, paddingBit).value| == m.payloadLen + OVERHEAD
    ensures DecodeEncrypted(EncodeEncrypted(c, m, paddingBit).value, m) == Ok(c)
  {
    hide Encode, Decode, ValidateParams, EncodedPayloadLen;
    var src := c[..m.extractedLen];
    EncodeSucceeds(src, m.mode, m.mask, m.rotation, paddingBit);
    EncodedLength(src, m.mode, m.mask, m.rotation, paddingBit);
    RoundTrip(src, m.mode, m.mask, m.rotation, paddingBit);
    var body := Encode(src, m.mode, m.mask, m.rotation, paddingBit).value;
    var w := body + c[m.extractedLen..];
    assert w[..m.payloadLen] == body && w[m.payloadLen..] == c[m.extractedLen..];
    assert src + c[m.extractedLen..] == c;
  }

  // The encrypted payload as it goes over the wire, and back.
  function ToWire(c: seq<byte>, m: Meta, paddingBit: nat): (r: Result<seq<byte>>)
    requires m.DataAckMeta? ==> |m.mask| == 32
  {
    if IsLow(m) then EncodeEncrypted(c, m, paddingBit) else Ok(c)
  }

  function FromWire(c: seq<byte>, m: Meta): (r: Result<seq<byte>>)
    requires m.DataAckMeta? ==> |m.mask| == 32
  {
    if IsLow(m) then DecodeEncrypted(c, m) else Ok(c)
  }

  // A segment that is ready to be written: its metadata is final.
  predicate Sendable(s: Seg, prefix: seq<byte>, suffix: seq<byte>) {
    && Fields(s.meta) && Clean(s.meta) && Acceptable(s.meta)
    && LengthsAgree(s.meta, |s.payload|)
    && |prefix| == PrefixLen(s.meta) && |suffix| == s.meta.suffixLen
  }

  lemma {:induction false} WireRoundTrip(c: seq<byte>, s: Seg, prefix: seq<byte>, suffix: seq<byte>, paddingBit: nat)
    requires Sendable(s, prefix, suffix) && |c| == |s.payload| + OVERHEAD && s.payload != [] && paddingBit <= 1
    ensures ToWire(c, s.meta, paddingBit).Ok? && |ToWire(c, s.meta, paddingBit).value| == s.meta.payloadLen + OVERHEAD
    ensures FromWire(ToWire(c, s.meta, paddingBit).value, s.meta) == Ok(c) && s.meta.payloadLen > 0
  {
    hide EncodeEncrypted, DecodeEncrypted, ValidLowEntropy, Clean;
    if IsLow(s.meta) {
      EncryptedRoundTrip(c, s.meta, paddingBit);
      SomeChunk(|s.payload|, s.meta.mode);
    }
  }

  lemma {:induction false} SomeChunk(n: nat, mode: int)
    requires EncodedPayloadLen(n, mode).Ok?
    ensures EncodedPayloadLen(n, mode).value > 0
  {
    var k := BuildParams(mode).value.sourceBytes;
    if n % k == 0 {
      assert n / k > 0;
    }
  }

  // ---------------------------------------------------------------------------
  // Datagrams
  // ---------------------------------------------------------------------------

  const STATELESS := State(false, [])
  const HEADER_LEN: nat := NONCE_SIZE + METADATA_LENGTH + OVERHEAD

  // writeOneSegment: nonce and metadata, prefix padding, payload under the same nonce,
  // suffix padding.
  function Datagram(a: Aead, nonce: seq<byte>, s: Seg, prefix: seq<byte>, suffix: seq<byte>, paddingBit: nat): (r: Result<seq<byte>>)
    requires Fields(s.meta)
  {
    var header := Encrypted(a, STATELESS, Marshal(s.meta), nonce).0;
    if s.payload == [] then Ok(header + prefix + suffix)
    else
      match ToWire(a.seal(nonce, s.payload), s.meta, paddingBit)
      case Err => Err
      case Ok(w) => Ok(header + prefix + w + suffix)
  }

  // parseSessionSegment and parseDataAckSegment: `rest` is what follows the header.
  function ParseBody(a: Aead, nonce: seq<byte>, m: Meta, rest: seq<byte>): (r: Result<Seg>)
    requires m.DataAckMeta? ==> |m.mask| == 32
  {
    if |rest| < PrefixLen(m) then Err
    else
      var body := rest[PrefixLen(m)..];
      if m.payloadLen == 0 then
        if |body| != m.suffixLen then Err else Ok(Seg(m, []))
      else if |body| != m.payloadLen + OVERHEAD + m.suffixLen then Err
      else
        match FromWire(body[..m.payloadLen + OVERHEAD], m)
        case Err => Err
        case Ok(c) =>
          match a.open(nonce, c)
          case Err => Err
          case Ok(p) => Ok(Seg(m, p))
  }

  function Parse(a: Aead, b: seq<byte>, now: nat): (r: Result<Seg>) {
    if |b| < HEADER_LEN then Err
    else
      match Decrypted(a, STATELESS, b[..HEADER_LEN]).0
      case Err => Err
      case Ok(plain) =>
        match Unmarshal(plain, now)
        case Err => Err
        case Ok(m) => MetaCanonical(plain, now); ParseBody(a, b[..NONCE_SIZE], m, b[HEADER_LEN..])
  }

  lemma {:induction false} BodyRoundTrip(a: Aead, nonce: seq<byte>, s: Seg, prefix: seq<byte>, suffix: seq<byte>, paddingBit: nat)
    requires Sound(a) && Sendable(s, prefix, suffix) && paddingBit <= 1
    ensures s.payload == [] ==> ParseBody(a, nonce, s.meta, prefix + suffix) == Ok(s)
    ensures s.payload != [] ==>
      && ToWire(a.seal(nonce, s.payload), s.meta, paddingBit).Ok?
      && ParseBody(a, nonce, s.meta, prefix + ToWire(a.seal(nonce, s.payload), s.meta, paddingBit).value + suffix) == Ok(s)
  {
    hide ToWire, FromWire, Clean, Acceptable;
    if s.payload == [] {
      assert (prefix + suffix)[|prefix|..] == suffix;
      assert !IsLow(s.meta);
    } else {
      var c := a.seal(nonce, s.payload);
      WireRoundTrip(c, s, prefix, suffix, paddingBit);
      var w := ToWire(c, s.meta, paddingBit).value;
      assert (prefix + w + suffix)[|prefix|..] == w + suffix;
      assert (w + suffix)[..|w|] == w;
    }
  }

  // Parsing a datagram gives back the segment, if and only if the clock agrees with the
  // timestamp to the minute before or after.
  lemma {:induction false} DatagramRoundTrip(a: Aead, nonce: seq<byte>, s: Seg, prefix: seq<byte>, suffix: seq<byte>, paddingBit: nat, now: nat)
    requires Sound(a) && |nonce| == NONCE_SIZE && Sendable(s, prefix, suffix) && paddingBit <= 1
    ensures
      (var d := Datagram(a, nonce, s, prefix, suffix, paddingBit);
       && d.Ok?
       && |d.value| == DataAckDatagramLen(|prefix|, s.meta.payloadLen, |suffix|)
       && Parse(a, d.value, now) == if WithinRange(now, s.meta.timestamp, 1) then Ok(s) else Err)
  {
    hide ParseBody, ToWire, FromWire, Clean, Acceptable, Marshal, Unmarshal, WithinRange, Encrypted, Decrypted;
    var plain := Marshal(s.meta);
    CipherRoundTrip(a, STATELESS, plain, nonce);
    var header := Encrypted(a, STATELESS, plain, nonce).0;
    HeaderNonce(a, plain, nonce);
    BodyRoundTrip(a, nonce, s, prefix, suffix, paddingBit);
    MetaRoundTrip(s.meta, now);
    var body := if s.payload == [] then prefix + suffix else prefix + ToWire(a.seal(nonce, s.payload), s.meta, paddingBit).value + suffix;
    var d := Datagram(a, nonce, s, prefix, suffix, paddingBit).value;
    assert d == header + body;
    assert d[..HEADER_LEN] == header && d[HEADER_LEN..] == body && d[..NONCE_SIZE] == header[..NONCE_SIZE];
    if s.payload != [] {
      WireRoundTrip(a.seal(nonce, s.payload), s, prefix, suffix, paddingBit);
    }
  }

  // What is in a datagram, in order: the nonce, the metadata sealed under it, the prefix padding, the
  // payload sealed under the same nonce, and the suffix padding. In low entropy the body of the
  // sealed payload is encoded, and its tag follows as it is.
  lemma {:induction false} DatagramLayout(a: Aead, nonce: seq<byte>, s: Seg, prefix: seq<byte>, suffix: seq<byte>, paddingBit: nat)
    requires Sound(a) && |nonce| == NONCE_SIZE && Sendable(s, prefix, suffix) && paddingBit <= 1
    ensures
      (var header, sealed := nonce + a.seal(nonce, Marshal(s.meta)), a.seal(nonce, s.payload);
       var d := Datagram(a, nonce, s, prefix, suffix, paddingBit);
       if s.payload == [] then d == Ok(header + prefix + suffix)
       else if !IsLow(s.meta) then d == Ok(header + prefix + sealed + suffix)
       else
         && |sealed| == |s.payload| + 16
         && (var body := Encode(sealed[..|s.payload|], s.meta.mode, s.meta.mask, s.meta.rotation, paddingBit);
             body.Ok? && |body.value| == s.meta.payloadLen && d == Ok(header + prefix + (body.value + sealed[|s.payload|..]) + suffix)))
  {
    hide Marshal, Clean, Acceptable, Encode, Fields, EncodedPayloadLen;
    SendableFields(s, prefix, suffix);
    if s.payload != [] {
      WireRoundTrip(a.seal(nonce, s.payload), s, prefix, suffix, paddingBit);
    }
  }

  // No byte of an accepted datagram is left unaccounted for.
  lemma {:induction false} ParsedLength(a: Aead, b: seq<byte>, now: nat)
    requires Parse(a, b, now).Ok?
    ensures
      (var m := Parse(a, b, now).value.meta;
       Fields(m) && Acceptable(m) && |b| == DataAckDatagramLen(PrefixLen(m), m.payloadLen, m.suffixLen))
  {
    hide Unmarshal, ParseBody, Decrypted, Acceptable, Clean, Marshal, ReservedAreZero;
    var plain := Decrypted(a, STATELESS, b[..HEADER_LEN]).0.value;
    MetaCanonical(plain, now);
    ParsedBodyLength(a, b[..NONCE_SIZE], Unmarshal(plain, now).value, b[HEADER_LEN..]);
  }

  lemma {:induction false} ParsedBodyLength(a: Aead, nonce: seq<byte>, m: Meta, rest: seq<byte>)
    requires (m.DataAckMeta? ==> |m.mask| == 32) && ParseBody(a, nonce, m, rest).Ok?
    ensures ParseBody(a, nonce, m, rest).value.meta == m
    ensures HEADER_LEN + |rest| == DataAckDatagramLen(PrefixLen(m), m.payloadLen, m.suffixLen)
  {
    hide FromWire;
  }

  lemma {:induction false} HeaderNonce(a: Aead, plain: seq<byte>, nonce: seq<byte>)
    requires |nonce| == NONCE_SIZE
    ensures |Encrypted(a, STATELESS, plain, nonce).0| >= NONCE_SIZE && Encrypted(a, STATELESS, plain, nonce).0[..NONCE_SIZE] == nonce
  {}

  // ---------------------------------------------------------------------------
  // Writing
  // ---------------------------------------------------------------------------

  // The metadata with its padding lengths and the time of the transmission.
  function Stamped(m: Meta, prefix: seq<byte>, suffix: seq<byte>, now: nat): (r: Meta) {
    match m
    case SessionMeta(_, _, _, _, _, _, _) => m.(timestamp := now, suffixLen := |suffix|)
    case DataAckMeta(_, _, _, _, _, _, _, _, _, _, _, _, _, _) =>
      m.(timestamp := now, prefixLen := |prefix|, suffixLen := |suffix|)
  }

  predicate PaddingFits(m: Meta, prefix: seq<byte>, suffix: seq<byte>) {
    |prefix| < UINT8 && |suffix| < UINT8 && (m.SessionMeta? ==> prefix == [])
  }

  // A segment of a session, prepared and stamped, is ready to be written.
  lemma {:induction false} StampedIsSendable(s: Seg, m: Meta, prefix: seq<byte>, suffix: seq<byte>, now: nat)
    requires Consistent(s) && PaddingFits(s.meta, prefix, suffix) && now < UINT32
    requires if IsLow(s.meta) then m.DataAckMeta? && |m.mask| == 32 && ValidLowEntropy(m) && m == s.meta.(mask := m.mask) else m == s.meta
    ensures Sendable(Seg(Stamped(m, prefix, suffix, now), s.payload), prefix, suffix)
  {
    hide ValidateParams, EncodedPayloadLen, IsValidRotation;
  }

  // The buffer of a datagram, filled at running offsets.
  method Assemble(header: seq<byte>, prefix: seq<byte>, wire: seq<byte>, suffix: seq<byte>) returns (b: seq<byte>)
    ensures b == header + prefix + wire + suffix
  {
    var buf := new byte[|header| + |prefix| + |wire| + |suffix|];
    PutBytes(buf, 0, header);
    var offset := |header|;
    PutBytes(buf, offset, prefix);
    offset := offset + |prefix|;
    PutBytes(buf, offset, wire);
    offset := offset + |wire|;
    PutBytes(buf, offset, suffix);
    assert buf[..offset + |suffix|] == buf[..];
    return buf[..];
  }

  // writeOneSegment. `sent` is the segment with its final metadata; every receiver whose
  // clock agrees parses the datagram back into it.
  method WriteOneSegment(a: Aead, s: Seg, nonce: seq<byte>, prefix: seq<byte>, suffix: seq<byte>, now: nat, draw: nat -> nat, paddingBit: nat)
    returns (b: seq<byte>, sent: Seg)
    requires Sound(a) && |nonce| == NONCE_SIZE && Consistent(s) && PaddingFits(s.meta, prefix, suffix)
    requires now < UINT32 && paddingBit <= 1 && forall i | 0 <= i < 32 :: draw(i) < 32 - i
    ensures sent.payload == s.payload && Sendable(sent, prefix, suffix)
    ensures sent.meta == Stamped(if IsLow(s.meta) && sent.meta.DataAckMeta? then s.meta.(mask := sent.meta.mask) else s.meta, prefix, suffix, now)
    ensures Datagram(a, nonce, sent, prefix, suffix, paddingBit) == Ok(b) && |b| == DataAckDatagramLen(|prefix|, s.meta.payloadLen, |suffix|)
    ensures forall t | WithinRange(t, now, 1) :: Parse(a, b, t) == Ok(sent)
  {
    hide Marshal, Consistent, Sendable, ToWire, Encrypted, Parse, WithinRange, ValidLowEntropy, Sound;
    var m := s.meta;
    if IsLow(m) {
      var prepared := PrepareForSend(s, draw);
      m := prepared.value;
    }
    m := Stamped(m, prefix, suffix, now);
    sent := Seg(m, s.payload);
    assert Sendable(sent, prefix, suffix) by {
      StampedIsSendable(s, if IsLow(s.meta) then s.meta.(mask := m.mask) else s.meta, prefix, suffix, now);
    }
    SendableFields(sent, prefix, suffix);
    var header := Encrypted(a, STATELESS, Marshal(m), nonce).0;
    var wire := [];
    DatagramRoundTrip(a, nonce, sent, prefix, suffix, paddingBit, now);
    if |s.payload| > 0 {
      wire := ToWire(a.seal(nonce, s.payload), m, paddingBit).value;
    }
    b := Assemble(header, prefix, wire, suffix);
    assert s.payload == [] ==> header + prefix + [] + suffix == header + prefix + suffix;
    forall t | WithinRange(t, now, 1)
      ensures Parse(a, b, t) == Ok(sent)
    {
      DatagramRoundTrip(a, nonce, sent, prefix, suffix, paddingBit, t);
    }
  }

  lemma {:induction false} SendableFields(s: Seg, prefix: seq<byte>, suffix: seq<byte>)
    requires Sendable(s, prefix, suffix)
    ensures Fields(s.meta)
  {}
}

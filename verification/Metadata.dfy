/** The 32 bytes in front of every segment (pkg/protocol/metadata.go). Numbers are naturals
    and their widths are those of the fields. */
module Metadata {
  import opened Bits
  import opened Bytes
  import opened LowEntropy
  import opened Fragment
  import opened Protocols

  const UINT16 := 0x1_0000
  const UINT8 := 0x100

  // ---------------------------------------------------------------------------
  // Numbers on the wire
  // ---------------------------------------------------------------------------

  lemma {:induction false} ValueOfFromValue(n: nat, width: nat)
    requires n < Pow2(width)
    ensures Value(FromValue(n, width)) == n
    decreases width
  {
    if width > 0 {
      ValueOfFromValue(n / 2, width - 1);
      assert FromValue(n, width)[1..] == FromValue(n / 2, width - 1);
    }
  }

  lemma {:induction false} FromValueOfValue(w: Word)
    ensures FromValue(Value(w), |w|) == w
    decreases |w|
  {
    if w != [] {
      FromValueOfValue(w[1..]);
      assert Value(w) % 2 == 1 <==> w[0];
      assert Value(w) / 2 == Value(w[1..]);
      assert w == [w[0]] + w[1..];
    }
  }

  // Big-endian, k bytes wide.
  function Put(n: nat, k: nat): (b: seq<byte>)
    ensures |b| == k
  {
    BytesOf(FromValue(n, 8 * k))
  }

  function Get(b: seq<byte>): (n: nat) {
    Value(WordOf(b))
  }

  lemma {:induction false} GetPut(n: nat, k: nat)
    requires n < Pow2(8 * k)
    ensures Get(Put(n, k)) == n
  {
    WordOfBytesOf(FromValue(n, 8 * k));
    ValueOfFromValue(n, 8 * k);
  }

  lemma {:induction false} PutGet(b: seq<byte>)
    ensures Get(b) < Pow2(8 * |b|) && Put(Get(b), |b|) == b
  {
    FromValueOfValue(WordOf(b));
    BytesOfWordOf(b);
  }

  lemma {:induction false} Widths()
    ensures Pow2(8) == UINT8 && Pow2(16) == UINT16 && Pow2(32) == UINT32
  {
    assert Pow2(4) == 16 && Pow2(8) == 256;
    assert Pow2(12) == 4096 && Pow2(16) == 65536;
    assert Pow2(20) == 1048576 && Pow2(24) == 16777216 && Pow2(28) == 268435456;
  }

  // ---------------------------------------------------------------------------
  // The two structs
  // ---------------------------------------------------------------------------

  datatype Meta =
    | SessionMeta(
        protocol: Protocol, timestamp: nat, sessionID: nat, seqNo: nat, statusCode: nat,
        payloadLen: nat, suffixLen: nat)
    | DataAckMeta(
        protocol: Protocol, timestamp: nat, mode: nat, sessionID: nat, seqNo: nat, unAckSeq: nat,
        windowSize: nat, fragment: nat, prefixLen: nat, payloadLen: nat, suffixLen: nat,
        mask: Word, extractedLen: nat, rotation: nat)

  // The values that the fields of the structs can have.
  predicate Fields(m: Meta) {
    && m.timestamp < UINT32 && m.sessionID < UINT32 && m.seqNo < UINT32
    && m.payloadLen < UINT16 && m.suffixLen < UINT8
    && match m
       case SessionMeta(_, _, _, _, statusCode, _, _) => IsSessionProtocol(m.protocol) && statusCode < UINT8
       case DataAckMeta(_, _, mode, _, _, unAckSeq, windowSize, fragment, prefixLen, _, _, mask, extractedLen, rotation) =>
         && IsDataAckProtocol(m.protocol)
         && unAckSeq < UINT32 && windowSize < UINT16 && fragment < UINT8 && prefixLen < UINT8
         && mode < UINT8 && |mask| == 32 && extractedLen < UINT16 && rotation < UINT8
  }

  function LowEntropyFields(mask: Word, extractedLen: nat, rotation: nat): (b: seq<byte>)
    requires |mask| == 32
    ensures |b| == 7
  {
    BytesOf(mask) + Put(extractedLen, 2) + Put(rotation, 1)
  }

  function Marshal(m: Meta): (b: seq<byte>)
    requires Fields(m)
    ensures |b| == METADATA_LENGTH
  {
    match m
    case SessionMeta(protocol, timestamp, sessionID, seqNo, statusCode, payloadLen, suffixLen) =>
      Put(Code(protocol), 1) + ZeroBytes(1) + Put(timestamp, 4) + Put(sessionID, 4) + Put(seqNo, 4)
      + Put(statusCode, 1) + Put(payloadLen, 2) + Put(suffixLen, 1) + ZeroBytes(14)
    case DataAckMeta(protocol, timestamp, mode, sessionID, seqNo, unAckSeq, windowSize, fragment, prefixLen, payloadLen, suffixLen, mask, extractedLen, rotation) =>
      Put(Code(protocol), 1)
      + (if IsLowEntropyProtocol(protocol) then Put(mode, 1) else ZeroBytes(1))
      + Put(timestamp, 4) + Put(sessionID, 4) + Put(seqNo, 4) + Put(unAckSeq, 4) + Put(windowSize, 2)
      + Put(fragment, 1) + Put(prefixLen, 1) + Put(payloadLen, 2) + Put(suffixLen, 1)
      + (if IsLowEntropyProtocol(protocol) then LowEntropyFields(mask, extractedLen, rotation) else ZeroBytes(7))
  }

  // ---------------------------------------------------------------------------
  // Timestamps
  // ---------------------------------------------------------------------------

  // mathext.Mid: two compare-and-swap steps bring the least value forward, a third one
  // orders the other two.
  function Mid(a: nat, b: nat, c: nat): (r: nat) {
    var (x, y) := if a > b then (b, a) else (a, b);
    var z := if x > c then x else c;
    if y > z then z else y
  }

  // mathext.WithinRange on uint32, where the bounds wrap around.
  predicate WithinRange(v: nat, target: nat, margin: nat) {
    Mid(v, (target - margin) % UINT32, (target + margin) % UINT32) == v
  }

  // A minute of the clock is accepted against a timestamp exactly when they differ by at
  // most one minute, except at the two ends of the range.
  lemma {:induction false} WithinOneMinute(v: nat, target: nat)
    requires v < UINT32 && target < UINT32
    ensures WithinRange(v, target, 1) <==>
      (if target == 0 || target == UINT32 - 1 then v != target else target - 1 <= v <= target + 1)
  {}

  // ---------------------------------------------------------------------------
  // Unmarshal
  // ---------------------------------------------------------------------------

  // validateLowEntropyDataAckMetadata.
  predicate ValidLowEntropy(m: Meta)
    requires m.DataAckMeta? && |m.mask| == 32
  {
    && IsLowEntropyProtocol(m.protocol)
    && m.extractedLen <= MAX_PDU
    && m.payloadLen % 8 == 0
    && ValidateParams(m.mode, m.mask, m.rotation).Ok?
    && if m.extractedLen == 0 then m.payloadLen == 0
       else EncodedPayloadLen(m.extractedLen, m.mode) == Ok(m.payloadLen)
  }

  function UnmarshalSession(b: seq<byte>, now: nat): (r: Result<Meta>) {
    if |b| != METADATA_LENGTH then Err
    else if Get(b[..1]) >= |ALL| || !IsSessionProtocol(ALL[Get(b[..1])]) then Err
    else if !WithinRange(now, Get(b[2..6]), 1) then Err
    else if Get(b[15..17]) > MAX_SESSION_OPEN_PAYLOAD then Err
    else Ok(SessionMeta(ALL[Get(b[..1])], Get(b[2..6]), Get(b[6..10]), Get(b[10..14]), Get(b[14..15]), Get(b[15..17]), Get(b[17..18])))
  }

  function DataAckOf(b: seq<byte>, protocol: Protocol): (m: Meta)
    requires |b| == METADATA_LENGTH
    ensures m.DataAckMeta? && |m.mask| == 32
  {
    var low := IsLowEntropyProtocol(protocol);
    DataAckMeta(
      protocol, Get(b[2..6]), if low then Get(b[1..2]) else 0, Get(b[6..10]), Get(b[10..14]), Get(b[14..18]),
      Get(b[18..20]), Get(b[20..21]), Get(b[21..22]), Get(b[22..24]), Get(b[24..25]),
      if low then WordOf(b[25..29]) else Zeros(32), if low then Get(b[29..31]) else 0, if low then Get(b[31..32]) else 0)
  }

  function UnmarshalDataAck(b: seq<byte>, now: nat): (r: Result<Meta>) {
    if |b| != METADATA_LENGTH then Err
    else if Get(b[..1]) >= |ALL| || !IsDataAckProtocol(ALL[Get(b[..1])]) then Err
    else if !WithinRange(now, Get(b[2..6]), 1) then Err
    else
      var m := DataAckOf(b, ALL[Get(b[..1])]);
      if IsLowEntropyProtocol(m.protocol) && !ValidLowEntropy(m) then Err else Ok(m)
  }

  // The dispatch on the first byte, as readOneSegment does it.
  function Unmarshal(b: seq<byte>, now: nat): (r: Result<Meta>) {
    if |b| != METADATA_LENGTH || Get(b[..1]) >= |ALL| then Err
    else if IsSessionProtocol(ALL[Get(b[..1])]) then UnmarshalSession(b, now)
    else if IsDataAckProtocol(ALL[Get(b[..1])]) then UnmarshalDataAck(b, now)
    else Err
  }

  // Only low entropy segments carry the low entropy fields.
  predicate Clean(m: Meta) {
    m.DataAckMeta? && !IsLowEntropyProtocol(m.protocol) ==> m.mode == 0 && m.mask == Zeros(32) && m.extractedLen == 0 && m.rotation == 0
  }

  predicate Acceptable(m: Meta)
    requires m.DataAckMeta? ==> |m.mask| == 32
  {
    match m
    case SessionMeta(_, _, _, _, _, payloadLen, _) => payloadLen <= MAX_SESSION_OPEN_PAYLOAD
    case DataAckMeta(_, _, _, _, _, _, _, _, _, _, _, _, _, _) => IsLowEntropyProtocol(m.protocol) ==> ValidLowEntropy(m)
  }

  lemma {:induction false} MarshalSessionAt(m: Meta)
    requires Fields(m) && m.SessionMeta?
    ensures
      (var b := Marshal(m);
       && b[..1] == Put(Code(m.protocol), 1) && b[1..2] == ZeroBytes(1) && b[2..6] == Put(m.timestamp, 4)
       && b[6..10] == Put(m.sessionID, 4) && b[10..14] == Put(m.seqNo, 4) && b[14..15] == Put(m.statusCode, 1)
       && b[15..17] == Put(m.payloadLen, 2) && b[17..18] == Put(m.suffixLen, 1) && b[18..] == ZeroBytes(14))
  {
    hide Put, ZeroBytes, Code;
  }

  lemma {:induction false} MarshalDataAckAt(m: Meta)
    requires Fields(m) && m.DataAckMeta?
    ensures
      (var b, low := Marshal(m), IsLowEntropyProtocol(m.protocol);
       && b[..1] == Put(Code(m.protocol), 1) && b[1..2] == (if low then Put(m.mode, 1) else ZeroBytes(1))
       && b[2..6] == Put(m.timestamp, 4) && b[6..10] == Put(m.sessionID, 4) && b[10..14] == Put(m.seqNo, 4)
       && b[14..18] == Put(m.unAckSeq, 4) && b[18..20] == Put(m.windowSize, 2) && b[20..21] == Put(m.fragment, 1)
       && b[21..22] == Put(m.prefixLen, 1) && b[22..24] == Put(m.payloadLen, 2) && b[24..25] == Put(m.suffixLen, 1)
       && b[25..] == (if low then LowEntropyFields(m.mask, m.extractedLen, m.rotation) else ZeroBytes(7)))
  {
    hide Put, ZeroBytes, Code, LowEntropyFields;
  }

  lemma {:induction false} CodeRoundTrip(p: Protocol)
    ensures Get(Put(Code(p), 1)) == Code(p) < |ALL| && ALL[Code(p)] == p
  {
    Widths();
    GetPut(Code(p), 1);
    CodesAreIndexes(p);
  }

  lemma {:induction false} SessionRoundTrip(m: Meta, now: nat)
    requires Fields(m) && m.SessionMeta?
    ensures Unmarshal(Marshal(m), now) == if WithinRange(now, m.timestamp, 1) && Acceptable(m) then Ok(m) else Err
  {
    hide Marshal, Get, Put, Code, WithinRange, ALL;
    MarshalSessionAt(m);
    CodeRoundTrip(m.protocol);
    Widths();
    GetPut(m.timestamp, 4);
    GetPut(m.sessionID, 4);
    GetPut(m.seqNo, 4);
    GetPut(m.statusCode, 1);
    GetPut(m.payloadLen, 2);
    GetPut(m.suffixLen, 1);
  }

  lemma {:induction false} LowEntropyFieldsAt(b: seq<byte>, mask: Word, extractedLen: nat, rotation: nat)
    requires |b| == METADATA_LENGTH && |mask| == 32 && extractedLen < UINT16 && rotation < UINT8
    requires b[25..] == LowEntropyFields(mask, extractedLen, rotation)
    ensures WordOf(b[25..29]) == mask && Get(b[29..31]) == extractedLen && Get(b[31..32]) == rotation
  {
    hide Put, Get, WordOf, BytesOf;
    var f := LowEntropyFields(mask, extractedLen, rotation);
    assert f[..4] == BytesOf(mask) && f[4..6] == Put(extractedLen, 2) && f[6..7] == Put(rotation, 1);
    assert b[25..29] == f[..4] && b[29..31] == f[4..6] && b[31..32] == f[6..7];
    WordOfBytesOf(mask);
    Widths();
    GetPut(extractedLen, 2);
    GetPut(rotation, 1);
  }

  lemma {:induction false} DataAckOfMarshal(m: Meta)
    requires Fields(m) && m.DataAckMeta? && Clean(m)
    ensures DataAckOf(Marshal(m), m.protocol) == m
    ensures Get(Marshal(m)[2..6]) == m.timestamp
  {
    hide Marshal, Get, Put, Code, WordOf, LowEntropyFields, IsLowEntropyProtocol;
    MarshalDataAckAt(m);
    Widths();
    GetPut(m.timestamp, 4);
    GetPut(m.sessionID, 4);
    GetPut(m.seqNo, 4);
    GetPut(m.unAckSeq, 4);
    GetPut(m.windowSize, 2);
    GetPut(m.fragment, 1);
    GetPut(m.prefixLen, 1);
    GetPut(m.payloadLen, 2);
    GetPut(m.suffixLen, 1);
    GetPut(m.mode, 1);
    if IsLowEntropyProtocol(m.protocol) {
      LowEntropyFieldsAt(Marshal(m), m.mask, m.extractedLen, m.rotation);
    }
  }

  lemma {:induction false} DataAckRoundTrip(m: Meta, now: nat)
    requires Fields(m) && m.DataAckMeta? && Clean(m)
    ensures Unmarshal(Marshal(m), now) == if WithinRange(now, m.timestamp, 1) && Acceptable(m) then Ok(m) else Err
  {
    hide Marshal, Get, Put, Code, WithinRange, DataAckOf, ALL, LowEntropyFields, ValidLowEntropy;
    DataAckOfMarshal(m);
    MarshalDataAckAt(m);
    CodeRoundTrip(m.protocol);
  }

  // Reading back what was written gives the same fields, and is refused exactly when the
  // clock differs too much or the fields are not acceptable.
  lemma {:induction false} MetaRoundTrip(m: Meta, now: nat)
    requires Fields(m) && Clean(m)
    ensures Unmarshal(Marshal(m), now) == if WithinRange(now, m.timestamp, 1) && Acceptable(m) then Ok(m) else Err
  {
    hide Marshal, Unmarshal, WithinRange, Acceptable;
    if m.SessionMeta? {
      SessionRoundTrip(m, now);
    } else {
      DataAckRoundTrip(m, now);
    }
  }

  // The bytes that Unmarshal does not look at.
  predicate ReservedAreZero(b: seq<byte>)
    requires |b| == METADATA_LENGTH && Get(b[..1]) < |ALL|
  {
    var p := ALL[Get(b[..1])];
    if IsSessionProtocol(p) then b[1..2] == ZeroBytes(1) && b[18..] == ZeroBytes(14)
    else if IsLowEntropyProtocol(p) then true
    else b[1..2] == ZeroBytes(1) && b[25..] == ZeroBytes(7)
  }

  lemma {:induction false} CodeOfGet(b: seq<byte>)
    requires |b| == 1 && Get(b) < |ALL|
    ensures Put(Code(ALL[Get(b)]), 1) == b
  {
    hide Put, Get;
    PutGet(b);
    IndexesAreCodes(Get(b));
  }

  lemma {:induction false} IndexesAreCodes(i: nat)
    requires i < |ALL|
    ensures Code(ALL[i]) == i
  {}

  lemma {:induction false} SessionCanonical(b: seq<byte>, now: nat)
    requires UnmarshalSession(b, now).Ok?
    ensures
      (var m := UnmarshalSession(b, now).value;
       Fields(m) && Acceptable(m) && (Marshal(m) == b <==> ReservedAreZero(b)))
  {
    hide Marshal, Get, Put, Code, WithinRange, ZeroBytes, ALL;
    var m := UnmarshalSession(b, now).value;
    Widths();
    CodeOfGet(b[..1]);
    PutGet(b[2..6]);
    PutGet(b[6..10]);
    PutGet(b[10..14]);
    PutGet(b[14..15]);
    PutGet(b[15..17]);
    PutGet(b[17..18]);
    MarshalSessionAt(m);
    assert Marshal(m) == b <== Marshal(m)[1..2] == b[1..2] && Marshal(m)[18..] == b[18..];
  }

  lemma {:induction false} DataAckFields(b: seq<byte>, protocol: Protocol)
    requires |b| == METADATA_LENGTH && IsDataAckProtocol(protocol)
    ensures Fields(DataAckOf(b, protocol)) && Clean(DataAckOf(b, protocol))
  {
    hide Get, Put, WordOf;
    Widths();
    PutGet(b[1..2]);
    PutGet(b[2..6]);
    PutGet(b[6..10]);
    PutGet(b[10..14]);
    PutGet(b[14..18]);
    PutGet(b[18..20]);
    PutGet(b[20..21]);
    PutGet(b[21..22]);
    PutGet(b[22..24]);
    PutGet(b[24..25]);
    PutGet(b[29..31]);
    PutGet(b[31..32]);
  }

  lemma {:induction false} LowEntropyFieldsBack(b: seq<byte>)
    requires |b| == METADATA_LENGTH
    ensures LowEntropyFields(WordOf(b[25..29]), Get(b[29..31]), Get(b[31..32])) == b[25..]
  {
    hide Get, Put, WordOf, BytesOf;
    BytesOfWordOf(b[25..29]);
    PutGet(b[29..31]);
    PutGet(b[31..32]);
    assert b[25..29] + b[29..31] + b[31..32] == b[25..];
  }

  lemma {:induction false} DataAckCanonical(b: seq<byte>, protocol: Protocol)
    requires |b| == METADATA_LENGTH && Get(b[..1]) < |ALL| && protocol == ALL[Get(b[..1])] && IsDataAckProtocol(protocol)
    requires Fields(DataAckOf(b, protocol))
    ensures Marshal(DataAckOf(b, protocol)) == b <==> ReservedAreZero(b)
  {
    hide Marshal, Get, Put, Code, ZeroBytes, WordOf, LowEntropyFields, ALL, Fields;
    var m := DataAckOf(b, protocol);
    CodeOfGet(b[..1]);
    PutGet(b[1..2]);
    PutGet(b[2..6]);
    PutGet(b[6..10]);
    PutGet(b[10..14]);
    PutGet(b[14..18]);
    PutGet(b[18..20]);
    PutGet(b[20..21]);
    PutGet(b[21..22]);
    PutGet(b[22..24]);
    PutGet(b[24..25]);
    LowEntropyFieldsBack(b);
    MarshalDataAckAt(m);
    assert Marshal(m) == b <== Marshal(m)[1..2] == b[1..2] && Marshal(m)[25..] == b[25..];
  }

  // Whatever Unmarshal accepts is marshalled back to the same bytes if and only if the bytes
  // it ignores are zero.
  lemma {:induction false} MetaCanonical(b: seq<byte>, now: nat)
    requires Unmarshal(b, now).Ok?
    ensures
      (var m := Unmarshal(b, now).value;
       Fields(m) && Clean(m) && Acceptable(m) && (Marshal(m) == b <==> ReservedAreZero(b)))
  {
    hide Marshal, Get, WithinRange, DataAckOf, ReservedAreZero, Fields, ALL, ValidLowEntropy;
    var p := ALL[Get(b[..1])];
    if IsSessionProtocol(p) {
      SessionCanonical(b, now);
    } else {
      DataAckFields(b, p);
      DataAckCanonical(b, p);
    }
  }
}

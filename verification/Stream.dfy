/** Segments over a byte stream (pkg/protocol/underlay_stream.go): the nonce is sent once
    and then counted by both sides. */
module Streams {
  import opened Bits
  import opened Bytes
  import opened Fragment
  import opened Metadata
  import opened Cipher
  import opened Packets

  // writeOneSegment: the bytes and the state of the sending cipher after them.
  function WriteSegment(a: Aead, s: State, seg: Seg, prefix: seq<byte>, suffix: seq<byte>, paddingBit: nat, random: seq<byte>): (r: (Result<seq<byte>>, State))
    requires Fields(seg.meta)
  {
    var (header, s1) := Encrypted(a, s, Marshal(seg.meta), random);
    if seg.payload == [] then (Ok(header + prefix + suffix), s1)
    else
      var (c, s2) := Encrypted(a, s1, seg.payload, random);
      match ToWire(c, seg.meta, paddingBit)
      case Err => (Err, s2)
      case Ok(w) => (Ok(header + prefix + w + suffix), s2)
  }

  function HeaderLen(s: State): (n: nat) {
    METADATA_LENGTH + OVERHEAD + if s.nonce == [] then NONCE_SIZE else 0
  }

  // readSessionSegment and readDataAckSegment: what follows the metadata.
  function ReadBody(a: Aead, s: State, m: Meta, rest: seq<byte>): (r: (Result<(Seg, seq<byte>)>, State))
    requires m.DataAckMeta? ==> |m.mask| == 32
  {
    if |rest| < PrefixLen(m) then (Err, s)
    else
      var body := rest[PrefixLen(m)..];
      if m.payloadLen == 0 then
        (if |body| < m.suffixLen then Err else Ok((Seg(m, []), body[m.suffixLen..])), s)
      else if |body| < m.payloadLen + OVERHEAD then (Err, s)
      else
        match FromWire(body[..m.payloadLen + OVERHEAD], m)
        case Err => (Err, s)
        case Ok(c) =>
          var (p, t) := Decrypted(a, s, c);
          var tail := body[m.payloadLen + OVERHEAD..];
          (if p.Err? || |tail| < m.suffixLen then Err else Ok((Seg(m, p.value), tail[m.suffixLen..])), t)
  }

  // readOneSegment on the bytes that are left of the stream.
  function ReadSegment(a: Aead, s: State, stream: seq<byte>, now: nat): (r: (Result<(Seg, seq<byte>)>, State)) {
    if |stream| < HeaderLen(s) then (Err, s)
    else
      var (plain, s1) := Decrypted(a, s, stream[..HeaderLen(s)]);
      if plain.Err? then (Err, s1)
      else
        match Unmarshal(plain.value, now)
        case Err => (Err, s1)
        case Ok(m) => MetaCanonical(plain.value, now); ReadBody(a, s1, m, stream[HeaderLen(s)..])
  }

  lemma {:induction false} Slices(prefix: seq<byte>, w: seq<byte>, suffix: seq<byte>, tail: seq<byte>)
    ensures
      (var rest := prefix + w + suffix + tail;
       var body := rest[|prefix|..];
       body[..|w|] == w && body[|w|..][|suffix|..] == tail)
  {
    var rest := prefix + w + suffix + tail;
    assert rest[|prefix|..] == w + suffix + tail;
    assert (w + suffix + tail)[|w|..] == suffix + tail;
  }

  lemma {:induction false} ReadsEmptyBody(a: Aead, s: State, seg: Seg, prefix: seq<byte>, suffix: seq<byte>, tail: seq<byte>)
    requires Sendable(seg, prefix, suffix) && seg.payload == []
    ensures ReadBody(a, s, seg.meta, prefix + suffix + tail) == (Ok((seg, tail)), s)
  {
    hide FromWire, Clean, Acceptable, Decrypted;
    assert (prefix + suffix + tail)[|prefix|..] == suffix + tail;
    assert !IsLow(seg.meta);
  }

  lemma {:induction false} ReadsBody(a: Aead, s: State, seg: Seg, prefix: seq<byte>, suffix: seq<byte>, paddingBit: nat, random: seq<byte>, tail: seq<byte>)
    requires Sound(a) && s.implicit && s.nonce != [] && Sendable(seg, prefix, suffix) && paddingBit <= 1 && |random| == NONCE_SIZE
    requires seg.payload != []
    ensures
      (var (c, t) := Encrypted(a, s, seg.payload, random);
       && ToWire(c, seg.meta, paddingBit).Ok?
       && ReadBody(a, s, seg.meta, prefix + ToWire(c, seg.meta, paddingBit).value + suffix + tail) == (Ok((seg, tail)), t))
  {
    hide ToWire, FromWire, Clean, Acceptable, Encrypted, Decrypted, Fields, LengthsAgree, Sound;
    CipherRoundTrip(a, s, seg.payload, random);
    var c := Encrypted(a, s, seg.payload, random).0;
    SendableMask(seg, prefix, suffix);
    WireRoundTrip(c, seg, prefix, suffix, paddingBit);
    Slices(prefix, ToWire(c, seg.meta, paddingBit).value, suffix, tail);
  }

  lemma {:induction false} SendableMask(seg: Seg, prefix: seq<byte>, suffix: seq<byte>)
    requires Sendable(seg, prefix, suffix)
    ensures seg.meta.DataAckMeta? ==> |seg.meta.mask| == 32
  {}

  // One segment: the reader gets it back, with the rest of the stream untouched, and both
  // ciphers are in the same state again.
  lemma {:induction false} SegmentRoundTrip(a: Aead, s: State, seg: Seg, prefix: seq<byte>, suffix: seq<byte>, paddingBit: nat, random: seq<byte>, tail: seq<byte>, now: nat)
    requires Sound(a) && s.implicit && |random| == NONCE_SIZE && Sendable(seg, prefix, suffix) && paddingBit <= 1
    requires WithinRange(now, seg.meta.timestamp, 1)
    ensures
      (var (b, t) := WriteSegment(a, s, seg, prefix, suffix, paddingBit, random);
       && b.Ok? && t.implicit && t.nonce != []
       && ReadSegment(a, s, b.value + tail, now) == (Ok((seg, tail)), t))
  {
    hide ReadBody, ToWire, FromWire, Clean, Acceptable, Marshal, Unmarshal, WithinRange, Encrypted, Decrypted;
    var plain := Marshal(seg.meta);
    CipherRoundTrip(a, s, plain, random);
    StateAfter(a, s, plain, random);
    var (header, s1) := Encrypted(a, s, plain, random);
    MetaRoundTrip(seg.meta, now);
    if seg.payload == [] {
      ReadsEmptyBody(a, s1, seg, prefix, suffix, tail);
    } else {
      ReadsBody(a, s1, seg, prefix, suffix, paddingBit, random, tail);
    }
    StateAfter(a, s1, seg.payload, random);
    var body := if seg.payload == [] then prefix + suffix + tail else prefix + ToWire(Encrypted(a, s1, seg.payload, random).0, seg.meta, paddingBit).value + suffix + tail;
    var b := WriteSegment(a, s, seg, prefix, suffix, paddingBit, random).0.value + tail;
    assert b == header + body;
    assert b[..|header|] == header && b[|header|..] == body;
  }

  lemma {:induction false} StateAfter(a: Aead, s: State, plain: seq<byte>, random: seq<byte>)
    requires s.implicit && |random| == NONCE_SIZE
    ensures Encrypted(a, s, plain, random).1.implicit && Encrypted(a, s, plain, random).1.nonce != []
  {
    hide Increased;
  }

  // What the first segment puts on a stream, in order: the nonce, the metadata sealed under it, the
  // prefix padding, the payload sealed under the next nonce, and the suffix padding.
  lemma {:induction false} FirstSegmentLayout(a: Aead, seg: Seg, prefix: seq<byte>, suffix: seq<byte>, paddingBit: nat, random: seq<byte>)
    requires Sendable(seg, prefix, suffix) && random != []
    ensures Fields(seg.meta)
    ensures
      (var header := random + a.seal(random, Marshal(seg.meta));
       var b := WriteSegment(a, State(true, []), seg, prefix, suffix, paddingBit, random).0;
       && (seg.payload == [] ==> b == Ok(header + prefix + suffix))
       && (seg.payload != [] && !IsLow(seg.meta) ==> b == Ok(header + prefix + a.seal(Increased(random), seg.payload) + suffix)))
  {
    hide Increased, Marshal, Fields;
    SendableFields(seg, prefix, suffix);
  }

  // ---------------------------------------------------------------------------
  // Whole runs
  // ---------------------------------------------------------------------------

  // A segment with its padding, the filler bit of its encoding and the random nonce.
  datatype Item = Item(seg: Seg, prefix: seq<byte>, suffix: seq<byte>, paddingBit: nat, random: seq<byte>)

  predicate Ready(i: Item) {
    Sendable(i.seg, i.prefix, i.suffix) && |i.random| == NONCE_SIZE && i.paddingBit <= 1
  }

  predicate Writable(items: seq<Item>) {
    forall i | 0 <= i < |items| :: Ready(items[i])
  }

  predicate AllFields(items: seq<Item>) {
    items != [] ==> Fields(items[0].seg.meta) && AllFields(items[1..])
  }

  lemma {:induction false} WritableFields(items: seq<Item>)
    requires Writable(items)
    ensures AllFields(items)
    decreases |items|
  {
    hide Fields, Sendable;
    if items != [] {
      SendableFields(items[0].seg, items[0].prefix, items[0].suffix);
      WritableFields(items[1..]);
    }
  }

  function WriteItem(a: Aead, s: State, i: Item): (r: (Result<seq<byte>>, State))
    requires Fields(i.seg.meta)
  {
    WriteSegment(a, s, i.seg, i.prefix, i.suffix, i.paddingBit, i.random)
  }

  function WriteAll(a: Aead, s: State, items: seq<Item>): (r: (seq<byte>, State))
    requires AllFields(items)
    decreases |items|
  {
    if items == [] then ([], s)
    else
      var (b, t) := WriteItem(a, s, items[0]);
      var (rest, u) := WriteAll(a, t, items[1..]);
      ((if b.Ok? then b.value else []) + rest, u)
  }

  // Reads one segment per clock value.
  function ReadAll(a: Aead, s: State, stream: seq<byte>, nows: seq<nat>): (r: (Result<(seq<Seg>, seq<byte>)>, State))
    decreases |nows|
  {
    if nows == [] then (Ok(([], stream)), s)
    else
      var (first, t) := ReadSegment(a, s, stream, nows[0]);
      if first.Err? then (Err, t)
      else
        var (rest, u) := ReadAll(a, t, first.value.1, nows[1..]);
        (if rest.Err? then Err else Ok(([first.value.0] + rest.value.0, rest.value.1)), u)
  }

  function Segs(items: seq<Item>): (r: seq<Seg>) {
    if items == [] then [] else [items[0].seg] + Segs(items[1..])
  }

  // The clock of the reader agrees with every segment when it reads it.
  predicate ClocksAgree(items: seq<Item>, nows: seq<nat>) {
    |nows| == |items| && forall i | 0 <= i < |items| :: WithinRange(nows[i], items[i].seg.meta.timestamp, 1)
  }

  // Reading the concatenation of everything written gives the segments back in order,
  // consumes exactly what was written and leaves both ciphers in the same state.
  lemma {:induction false} StreamRoundTrip(a: Aead, s: State, items: seq<Item>, nows: seq<nat>, tail: seq<byte>)
    requires Sound(a) && s.implicit && Writable(items) && ClocksAgree(items, nows)
    ensures AllFields(items)
    ensures
      (var (b, t) := WriteAll(a, s, items);
       ReadAll(a, s, b + tail, nows) == (Ok((Segs(items), tail)), t))
    decreases |items|
  {
    hide WriteSegment, ReadSegment, Sendable, WithinRange, Fields;
    WritableFields(items);
    if items == [] {
      assert [] + tail == tail;
    } else {
      var i := items[0];
      var (b, t) := WriteItem(a, s, i);
      var (rest, u) := WriteAll(a, t, items[1..]);
      SegmentRoundTrip(a, s, i.seg, i.prefix, i.suffix, i.paddingBit, i.random, rest + tail, nows[0]);
      StreamRoundTrip(a, t, items[1..], nows[1..], tail);
      assert b.value + rest + tail == b.value + (rest + tail);
    }
  }

  // ---------------------------------------------------------------------------
  // The nonce as a counter
  // ---------------------------------------------------------------------------

  // How many times a segment uses the cipher.
  function Uses(seg: Seg): (n: nat) { if seg.payload == [] then 1 else 2 }

  function TotalUses(items: seq<Item>): (n: nat) {
    if items == [] then 0 else Uses(items[0].seg) + TotalUses(items[1..])
  }

  const NONCE_RANGE: nat := Pow2(8 * NONCE_SIZE)

  lemma {:induction false} ModAdd(x: nat, k: nat, m: nat)
    requires m > 0
    ensures (x % m + k) % m == (x + k) % m
  {
    var q, r := x / m, x % m;
    var p, t := (r + k) / m, (r + k) % m;
    assert x + k == (q + p) * m + t by {
      assert x == q * m + r && r + k == p * m + t;
      assert (q + p) * m == q * m + p * m;
    }
    DivModUnique(x + k, m, q + p, t);
  }

  lemma {:induction false} EncryptCounts(a: Aead, s: State, plain: seq<byte>, random: seq<byte>)
    requires s.implicit && |s.nonce| == NONCE_SIZE
    ensures |Encrypted(a, s, plain, random).1.nonce| == NONCE_SIZE
    ensures Get(Encrypted(a, s, plain, random).1.nonce) == (Get(s.nonce) + 1) % NONCE_RANGE
  {
    hide Increased, Get, Pow2;
    IncreasedValue(s.nonce);
  }

  lemma {:induction false} SegmentCounts(a: Aead, s: State, seg: Seg, prefix: seq<byte>, suffix: seq<byte>, paddingBit: nat, random: seq<byte>)
    requires s.implicit && |s.nonce| == NONCE_SIZE && Fields(seg.meta)
    ensures
      (var t := WriteSegment(a, s, seg, prefix, suffix, paddingBit, random).1;
       t.implicit && |t.nonce| == NONCE_SIZE && Get(t.nonce) == (Get(s.nonce) + Uses(seg)) % NONCE_RANGE)
  {
    hide Encrypted, Get, Marshal, ToWire, NONCE_RANGE;
    EncryptCounts(a, s, Marshal(seg.meta), random);
    StaysImplicit(a, s, Marshal(seg.meta), random);
    var s1 := Encrypted(a, s, Marshal(seg.meta), random).1;
    if seg.payload != [] {
      EncryptCounts(a, s1, seg.payload, random);
      StaysImplicit(a, s1, seg.payload, random);
      RangePositive();
      ModAdd(Get(s.nonce) + 1, 1, NONCE_RANGE);
    }
  }

  lemma {:induction false} RangePositive()
    ensures NONCE_RANGE > 0
  {}

  lemma {:induction false} StaysImplicit(a: Aead, s: State, plain: seq<byte>, random: seq<byte>)
    ensures Encrypted(a, s, plain, random).1.implicit == s.implicit
  {}

  // After any run the nonce has moved by the number of messages sealed, modulo 256^24.
  lemma {:induction false} RunCounts(a: Aead, s: State, items: seq<Item>)
    requires s.implicit && |s.nonce| == NONCE_SIZE && AllFields(items)
    ensures
      (var t := WriteAll(a, s, items).1;
       |t.nonce| == NONCE_SIZE && Get(t.nonce) == (Get(s.nonce) + TotalUses(items)) % NONCE_RANGE)
    decreases |items|
  {
    hide WriteSegment, Get, Uses, NONCE_RANGE, Fields;
    if items == [] {
      NonceInRange(s.nonce);
    } else {
      var i := items[0];
      SegmentCounts(a, s, i.seg, i.prefix, i.suffix, i.paddingBit, i.random);
      var t := WriteItem(a, s, i).1;
      RunCounts(a, t, items[1..]);
      RangePositive();
      ModAdd(Get(s.nonce) + Uses(i.seg), TotalUses(items[1..]), NONCE_RANGE);
    }
  }

  // A new cipher starts from the random nonce of its first message, which counts as the first.
  lemma {:induction false} FirstRunCounts(a: Aead, items: seq<Item>)
    requires items != [] && |items[0].random| == NONCE_SIZE && AllFields(items)
    ensures
      (var t := WriteAll(a, State(true, []), items).1;
       |t.nonce| == NONCE_SIZE && Get(t.nonce) == (Get(items[0].random) + TotalUses(items) - 1) % NONCE_RANGE)
  {
    hide WriteSegment, Get, Uses, NONCE_RANGE, Fields, AllFields;
    var i := items[0];
    ItemFields(items);
    FirstSegmentCounts(a, i.seg, i.prefix, i.suffix, i.paddingBit, i.random);
    var t := WriteItem(a, State(true, []), i).1;
    RunCounts(a, t, items[1..]);
    UsesPositive(i.seg);
    RangePositive();
    ModAdd(Get(i.random) + Uses(i.seg) - 1, TotalUses(items[1..]), NONCE_RANGE);
  }

  lemma {:induction false} ItemFields(items: seq<Item>)
    requires items != [] && AllFields(items)
    ensures Fields(items[0].seg.meta) && AllFields(items[1..])
  {}

  lemma {:induction false} UsesPositive(seg: Seg)
    ensures Uses(seg) >= 1
  {}

  lemma {:induction false} FirstSegmentCounts(a: Aead, seg: Seg, prefix: seq<byte>, suffix: seq<byte>, paddingBit: nat, random: seq<byte>)
    requires |random| == NONCE_SIZE && Fields(seg.meta)
    ensures
      (var t := WriteSegment(a, State(true, []), seg, prefix, suffix, paddingBit, random).1;
       t.implicit && |t.nonce| == NONCE_SIZE && Get(t.nonce) == (Get(random) + Uses(seg) - 1) % NONCE_RANGE)
  {
    hide Increased, Get, Marshal, ToWire, NONCE_RANGE;
    NonceInRange(random);
    var s1 := Encrypted(a, State(true, []), Marshal(seg.meta), random).1;
    if seg.payload != [] {
      EncryptCounts(a, s1, seg.payload, random);
    }
  }

  lemma {:induction false} NonceInRange(n: seq<byte>)
    requires |n| == NONCE_SIZE
    ensures Get(n) % NONCE_RANGE == Get(n)
  {
    hide Get, Pow2;
    PutGet(n);
    SmallMod(Get(n), NONCE_RANGE);
  }

  // ---------------------------------------------------------------------------
  // The underlay
  // ---------------------------------------------------------------------------

  // writeWithPossibleFragment: pieces of random lengths between root + 1 and half the data,
  // where root is the integer square root of the length. Nothing is lost or reordered.
  method WriteWithPossibleFragment(data: seq<byte>, enabled: bool, root: nat, draw: nat -> nat) returns (writes: seq<seq<byte>>)
    requires forall i | 0 <= i < |data| :: draw(i) <= Max(root + 1, |data| / 2) - (root + 1)
    ensures Flatten(writes) == data
    ensures enabled ==> forall i | 0 <= i < |writes| :: 0 < |writes[i]| <= Max(root + 1, |data| / 2)
    ensures enabled ==> forall i | 0 <= i < |writes| - 1 :: root < |writes[i]|
  {
    hide Flatten;
    if !enabled {
      FlattenOne(data);
      return [data];
    }
    writes := [];
    FlattenNone();
    var remaining := data;
    while |remaining| > 0
      invariant |remaining| + |writes| <= |data|
      invariant Flatten(writes) + remaining == data
      invariant forall i | 0 <= i < |writes| :: 0 < |writes[i]| <= Max(root + 1, |data| / 2)
      invariant forall i | 0 <= i < |writes| - (if |remaining| > 0 then 0 else 1) :: root < |writes[i]|
    {
      var minLenToSend := root + 1;
      var maxLenToSend := Max(minLenToSend, |data| / 2);
      var lenToSend := draw(|writes|) + minLenToSend;
      if lenToSend > |remaining| {
        lenToSend := |remaining|;
      }
      FlattenNext(writes, remaining[..lenToSend]);
      assert Flatten(writes) + remaining[..lenToSend] + remaining[lenToSend..] == Flatten(writes) + remaining;
      writes := writes + [remaining[..lenToSend]];
      remaining := remaining[lenToSend..];
    }
    assert Flatten(writes) + [] == Flatten(writes);
  }

  lemma {:induction false} FlattenOne(p: seq<byte>)
    ensures Flatten([p]) == p
  {
    FlattenNone();
    FlattenNext([], p);
    assert [] + [p] == [p];
  }

  // A cipher in use.
  datatype HalfLink = HalfLink(aead: Aead, state: State)

  const FRESH: State := State(true, [])

  // The ciphers of one end of a stream. `block` is the key it was made with.
  datatype Ends = Ends(isClient: bool, block: Aead, send: Option<HalfLink>, recv: Option<HalfLink>)

  // The cipher that writes the next segment: a server sends under the key that it found when
  // it received, and has none before.
  function Writer(e: Ends): (k: Option<HalfLink>) {
    if e.send.Some? then e.send
    else if e.isClient then Some(HalfLink(e.block, FRESH))
    else if e.recv.Some? then Some(HalfLink(e.recv.value.aead, FRESH))
    else None
  }

  // The cipher that reads the next segment; None for a server that finds no key.
  function Reader(e: Ends, found: Result<Aead>): (k: Option<HalfLink>) {
    if e.recv.Some? then e.recv
    else if e.isClient then Some(HalfLink(e.block, FRESH))
    else if found.Ok? then Some(HalfLink(found.value, FRESH))
    else None
  }

  // writeOneSegment: the bytes for the connection.
  function Wrote(e: Ends, i: Item): (r: (Result<seq<byte>>, Ends))
    requires Fields(i.seg.meta)
  {
    match Writer(e)
    case None => (Err, e)
    case Some(k) =>
      var (b, s) := WriteItem(k.aead, k.state, i);
      (b, e.(send := Some(HalfLink(k.aead, s))))
  }

  // readOneSegment on the bytes that arrived, as far as it succeeds.
  function Took(e: Ends, found: Result<Aead>, stream: seq<byte>, now: nat): (r: Result<(Seg, seq<byte>, Ends)>) {
    match Reader(e, found)
    case None => Err
    case Some(k) =>
      var (r, s) := ReadSegment(k.aead, k.state, stream, now);
      if r.Err? then Err else Ok((r.value.0, r.value.1, e.(recv := Some(HalfLink(k.aead, s)))))
  }

  // The two ciphers of a stream are set when they are first needed. `outgoing` and `incoming`
  // are the two directions of the connection.
  class StreamUnderlay {
    const isClient: bool
    const block: Aead
    var send: Option<HalfLink>
    var recv: Option<HalfLink>
    var outgoing: seq<byte>
    var incoming: seq<byte>

    constructor (client: bool, key: Aead, bytes: seq<byte>)
      ensures isClient == client && block == key && send.None? && recv.None? && outgoing == [] && incoming == bytes
    {
      isClient, block := client, key;
      send, recv := None, None;
      outgoing, incoming := [], bytes;
    }

    ghost function Abs(): Ends
      reads this
    {
      Ends(isClient, block, send, recv)
    }

    method MaybeInitSendBlockCipher() returns (ok: bool)
      modifies this`send
      ensures ok == Writer(old(Abs())).Some? && Abs() == old(Abs()).(send := Writer(old(Abs())))
    {
      if send.Some? {
        return true;
      }
      if isClient {
        send := Some(HalfLink(block, FRESH));
      } else {
        if recv.None? {
          return false;
        }
        send := Some(HalfLink(recv.value.aead, FRESH));
      }
      return true;
    }

    method WriteOneSegment(seg: Seg, prefix: seq<byte>, suffix: seq<byte>, paddingBit: nat, random: seq<byte>) returns (ok: bool)
      requires Fields(seg.meta)
      modifies this`send, this`outgoing
      ensures
        (var (b, e) := Wrote(old(Abs()), Item(seg, prefix, suffix, paddingBit, random));
         && ok == b.Ok? && Abs() == e
         && outgoing == old(outgoing) + if b.Ok? then b.value else [])
    {
      hide Marshal, ToWire, Encrypted;
      ok := MaybeInitSendBlockCipher();
      if !ok {
        return;
      }
      var a := send.value.aead;
      var (header, s1) := Encrypted(a, send.value.state, Marshal(seg.meta), random);
      var wire: Result<seq<byte>> := Ok([]);
      if |seg.payload| > 0 {
        var (c, s2) := Encrypted(a, s1, seg.payload, random);
        s1 := s2;
        wire := ToWire(c, seg.meta, paddingBit);
      }
      send := Some(HalfLink(a, s1));
      if wire.Err? {
        return false;
      }
      var b := Assemble(header, prefix, wire.value, suffix);
      assert seg.payload == [] ==> header + prefix + [] + suffix == header + prefix + suffix;
      outgoing := outgoing + b;
    }

    ghost predicate Valid()
      reads this
    {
      recv.Some? ==> recv.value.state.implicit && recv.value.state.nonce != []
    }

    // `found` is the key that the user registry of a server finds for the first header.
    method ReadOneSegment(found: Result<Aead>, now: nat) returns (r: Result<Seg>)
      requires Valid()
      modifies this`recv, this`incoming
      ensures Valid()
      ensures
        (var t := Took(old(Abs()), found, old(incoming), now);
         && (r.Ok? <==> t.Ok?)
         && (r.Ok? ==> t.value == (r.value, incoming, Abs())))
      ensures Reader(old(Abs()), found).None? ==> recv == old(recv) && incoming == old(incoming)
    {
      hide Unmarshal, ReadBody, Decrypted, Marshal, ReservedAreZero, Acceptable, Clean;
      var readLen := METADATA_LENGTH + OVERHEAD;
      if recv.None? {
        readLen := readLen + NONCE_SIZE;
      }
      if |incoming| < readLen {
        return Err;
      }
      var reader := Reader(Ends(isClient, block, send, recv), found);
      if reader.None? {
        return Err;
      }
      var a := reader.value.aead;
      var (plain, s1) := Decrypted(a, reader.value.state, incoming[..readLen]);
      AfterDecrypt(a, reader.value.state, incoming[..readLen]);
      recv := Some(HalfLink(a, s1));
      if plain.Err? {
        return Err;
      }
      var m := Unmarshal(plain.value, now);
      if m.Err? {
        return Err;
      }
      MetaCanonical(plain.value, now);
      var (body, s2) := ReadBody(a, s1, m.value, incoming[readLen..]);
      AfterBody(a, s1, m.value, incoming[readLen..]);
      recv := Some(HalfLink(a, s2));
      if body.Err? {
        return Err;
      }
      incoming := body.value.1;
      return Ok(body.value.0);
    }
  }

  lemma {:induction false} AfterDecrypt(a: Aead, s: State, c: seq<byte>)
    requires s.implicit && (s.nonce == [] ==> |c| >= NONCE_SIZE)
    ensures Decrypted(a, s, c).1.implicit && Decrypted(a, s, c).1.nonce != []
  {
    hide Increased;
  }

  lemma {:induction false} AfterBody(a: Aead, s: State, m: Meta, rest: seq<byte>)
    requires s.implicit && s.nonce != [] && (m.DataAckMeta? ==> |m.mask| == 32)
    ensures ReadBody(a, s, m, rest).1.implicit && ReadBody(a, s, m, rest).1.nonce != []
  {
    hide FromWire, Increased;
  }

  // ---------------------------------------------------------------------------
  // A conversation
  // ---------------------------------------------------------------------------

  // A client and a server with the bytes on their way up and down, what each end wrote and the
  // segments that each end read.
  datatype Talk = Talk(
    client: Ends,
    server: Ends,
    up: seq<byte>,
    down: seq<byte>,
    clientWrote: seq<Item>,
    serverRead: seq<Seg>,
    serverWrote: seq<Item>,
    clientRead: seq<Seg>)

  function NewTalk(key: Aead, serverBlock: Aead): (t: Talk) {
    Talk(Ends(true, key, None, None), Ends(false, serverBlock, None, None), [], [], [], [], [], [])
  }

  datatype Turn =
    | ClientWrites(i: Item)
    | ServerReads(now: nat)
    | ServerWrites(i: Item)
    | ClientReads(now: nat)

  // An end reads when a whole segment is on its way, with a clock that agrees with the segment.
  predicate CanRead(wrote: seq<Item>, read: seq<Seg>, now: nat) {
    |read| < |wrote| && WithinRange(now, wrote[|read|].seg.meta.timestamp, 1)
  }

  predicate Allowed(t: Talk, turn: Turn) {
    match turn
    case ClientWrites(i) => Ready(i)
    case ServerReads(now) => CanRead(t.clientWrote, t.serverRead, now)
    case ServerWrites(i) => Ready(i)
    case ClientReads(now) => CanRead(t.serverWrote, t.clientRead, now)
  }

  // A turn. A write that fails puts nothing on its way, and a read that fails reads nothing.
  // The user registry of the server finds the key `found` for the first header.
  function Taken(t: Talk, turn: Turn, found: Aead): (r: Talk)
    requires Allowed(t, turn)
  {
    match turn
    case ClientWrites(i) =>
      SendableFields(i.seg, i.prefix, i.suffix);
      var (b, e) := Wrote(t.client, i);
      if b.Err? then t.(client := e) else t.(client := e, up := t.up + b.value, clientWrote := t.clientWrote + [i])
    case ServerWrites(i) =>
      SendableFields(i.seg, i.prefix, i.suffix);
      var (b, e) := Wrote(t.server, i);
      if b.Err? then t.(server := e) else t.(server := e, down := t.down + b.value, serverWrote := t.serverWrote + [i])
    case ServerReads(now) =>
      (match Took(t.server, Ok(found), t.up, now)
       case Err => t
       case Ok((seg, rest, e)) => t.(server := e, up := rest, serverRead := t.serverRead + [seg]))
    case ClientReads(now) =>
      (match Took(t.client, Err, t.down, now)
       case Err => t
       case Ok((seg, rest, e)) => t.(client := e, down := rest, clientRead := t.clientRead + [seg]))
  }

  ghost predicate IsTalk(ts: seq<Talk>, turns: seq<Turn>, key: Aead, serverBlock: Aead) {
    && |ts| == |turns| + 1
    && ts[0] == NewTalk(key, serverBlock)
    && forall i | 0 <= i < |turns| :: Allowed(ts[i], turns[i]) && ts[i + 1] == Taken(ts[i], turns[i], key)
  }

  // The state of a cipher that may not be set yet.
  function StateOf(k: Option<HalfLink>): (s: State) { if k.Some? then k.value.state else FRESH }

  // One direction: the reader read what was written first, and the bytes on their way are the
  // rest, written from the state of the reader to the state of the writer, all under one key.
  ghost predicate Flows(key: Aead, send: Option<HalfLink>, recv: Option<HalfLink>, wrote: seq<Item>, read: seq<Seg>, bytes: seq<byte>) {
    && Writable(wrote)
    && |read| <= |wrote| && read == Segs(wrote[..|read|])
    && (send.Some? ==> send.value.aead == key) && (recv.Some? ==> recv.value.aead == key)
    && StateOf(recv).implicit && StateOf(send).implicit
    && AllFields(wrote[|read|..]) && WriteAll(key, StateOf(recv), wrote[|read|..]) == (bytes, StateOf(send))
  }

  lemma {:induction false} SegsNext(items: seq<Item>, i: Item)
    ensures Segs(items + [i]) == Segs(items) + [i.seg]
    decreases |items|
  {
    if items == [] {
      assert [] + [i] == [i];
    } else {
      SegsNext(items[1..], i);
      assert (items + [i])[1..] == items[1..] + [i];
    }
  }

  lemma {:induction false} SegsPrefix(items: seq<Item>, n: nat)
    requires n <= |items|
    ensures Segs(items[..n]) <= Segs(items)
    decreases |items| - n
  {
    if n < |items| {
      SegsNext(items[..n], items[n]);
      assert items[..n] + [items[n]] == items[..n + 1];
      SegsPrefix(items, n + 1);
    } else {
      assert items[..n] == items;
    }
  }

  lemma {:induction false} WriteAllNext(a: Aead, s: State, items: seq<Item>, i: Item)
    requires AllFields(items) && Fields(i.seg.meta)
    ensures AllFields(items + [i])
    ensures
      (var (b, t) := WriteAll(a, s, items);
       var (c, u) := WriteItem(a, t, i);
       WriteAll(a, s, items + [i]) == (b + (if c.Ok? then c.value else []), u))
    decreases |items|
  {
    hide WriteItem, Fields;
    if items == [] {
      assert [] + [i] == [i] && [i][1..] == [];
      var c := WriteItem(a, s, i).0;
      assert (if c.Ok? then c.value else []) + [] == [] + (if c.Ok? then c.value else []);
    } else {
      var (b, t) := WriteItem(a, s, items[0]);
      WriteAllNext(a, t, items[1..], i);
      assert (items + [i])[1..] == items[1..] + [i];
      var (b2, t2) := WriteAll(a, t, items[1..]);
      var c := WriteItem(a, t2, i).0;
      var x := if b.Ok? then b.value else [];
      var y := if c.Ok? then c.value else [];
      assert x + (b2 + y) == x + b2 + y;
    }
  }

  // Writing goes on from the state of the writer.
  lemma {:induction false} FlowsWrite(key: Aead, send: Option<HalfLink>, recv: Option<HalfLink>, wrote: seq<Item>, read: seq<Seg>, bytes: seq<byte>, i: Item)
    requires Sound(key) && Flows(key, send, recv, wrote, read, bytes) && Ready(i)
    ensures Fields(i.seg.meta)
    ensures
      (var (b, t) := WriteItem(key, StateOf(send), i);
       b.Ok? && Flows(key, Some(HalfLink(key, t)), recv, wrote + [i], read, bytes + b.value))
  {
    hide Sendable, Fields, Segs, WriteAll, WriteSegment, ReadSegment, WithinRange, AllFields, Sound;
    SendableFields(i.seg, i.prefix, i.suffix);
    WriteSucceeds(key, StateOf(send), i);
    WriteAllNext(key, StateOf(recv), wrote[|read|..], i);
    assert (wrote + [i])[|read|..] == wrote[|read|..] + [i];
    assert (wrote + [i])[..|read|] == wrote[..|read|];
  }

  // A segment that is ready can be written in every state of the cipher.
  lemma {:induction false} WriteSucceeds(a: Aead, s: State, i: Item)
    requires Sound(a) && s.implicit && Ready(i)
    ensures Fields(i.seg.meta) && WriteItem(a, s, i).0.Ok? && WriteItem(a, s, i).1.implicit
  {
    hide Sendable, Fields, Sound, Encrypted, ToWire, Marshal, ReadBody;
    SendableFields(i.seg, i.prefix, i.suffix);
    StateAfter(a, s, Marshal(i.seg.meta), i.random);
    var s1 := Encrypted(a, s, Marshal(i.seg.meta), i.random).1;
    StateAfter(a, s1, i.seg.payload, i.random);
    if i.seg.payload != [] {
      ReadsBody(a, s1, i.seg, i.prefix, i.suffix, i.paddingBit, i.random, []);
    }
  }

  // The next read gives the first segment on its way and leaves the rest.
  lemma {:induction false} FlowsRead(key: Aead, send: Option<HalfLink>, recv: Option<HalfLink>, wrote: seq<Item>, read: seq<Seg>, bytes: seq<byte>, now: nat)
    requires Sound(key) && Flows(key, send, recv, wrote, read, bytes) && CanRead(wrote, read, now)
    ensures
      (var (r, s) := ReadSegment(key, StateOf(recv), bytes, now);
       && r.Ok? && r.value.0 == wrote[|read|].seg
       && Flows(key, send, Some(HalfLink(key, s)), wrote, read + [r.value.0], r.value.1))
  {
    hide Sendable, Fields, Segs, WriteSegment, ReadSegment, WithinRange, Sound;
    var rest := wrote[|read|..];
    var i := rest[0];
    assert Ready(i);
    var (b, t) := WriteItem(key, StateOf(recv), i);
    var (more, u) := WriteAll(key, t, rest[1..]);
    SegmentRoundTrip(key, StateOf(recv), i.seg, i.prefix, i.suffix, i.paddingBit, i.random, more, now);
    assert rest[1..] == wrote[|read| + 1..];
    SegsNext(wrote[..|read|], i);
    assert wrote[..|read|] + [i] == wrote[..|read| + 1];
  }

  // What every turn keeps.
  ghost predicate Agrees(t: Talk, key: Aead) {
    && t.client.isClient && t.client.block == key && !t.server.isClient
    && Flows(key, t.client.send, t.server.recv, t.clientWrote, t.serverRead, t.up)
    && Flows(key, t.server.send, t.client.recv, t.serverWrote, t.clientRead, t.down)
    && (t.server.recv.Some? <==> t.serverRead != []) && (t.server.send.Some? ==> t.server.recv.Some?)
  }

  // What a turn does: a client can always write, a server once it has read something, and a
  // read gives the next segment of the other end.
  ghost predicate TurnDone(t: Talk, turn: Turn, u: Talk) {
    match turn
    case ClientWrites(i) =>
      u.clientWrote == t.clientWrote + [i] && u.serverRead == t.serverRead && u.serverWrote == t.serverWrote && u.clientRead == t.clientRead
    case ServerWrites(i) =>
      && u.serverWrote == (if t.serverRead == [] then t.serverWrote else t.serverWrote + [i])
      && u.clientWrote == t.clientWrote && u.serverRead == t.serverRead && u.clientRead == t.clientRead
    case ServerReads(now) =>
      && |t.serverRead| < |t.clientWrote| && u.serverRead == t.serverRead + [t.clientWrote[|t.serverRead|].seg]
      && u.clientWrote == t.clientWrote && u.serverWrote == t.serverWrote && u.clientRead == t.clientRead
    case ClientReads(now) =>
      && |t.clientRead| < |t.serverWrote| && u.clientRead == t.clientRead + [t.serverWrote[|t.clientRead|].seg]
      && u.clientWrote == t.clientWrote && u.serverWrote == t.serverWrote && u.serverRead == t.serverRead
  }

  lemma {:induction false} TurnAgrees(t: Talk, turn: Turn, key: Aead)
    requires Sound(key) && Agrees(t, key) && Allowed(t, turn)
    ensures Agrees(Taken(t, turn, key), key) && TurnDone(t, turn, Taken(t, turn, key))
  {
    hide Sound, Flows, WriteItem, ReadSegment, Ready, CanRead;
    FlowsKeys(t, key);
    match turn
    case ClientWrites(i) => FlowsWrite(key, t.client.send, t.server.recv, t.clientWrote, t.serverRead, t.up, i);
    case ServerWrites(i) =>
      if t.server.recv.Some? {
        FlowsWrite(key, t.server.send, t.client.recv, t.serverWrote, t.clientRead, t.down, i);
      }
    case ServerReads(now) =>
      FlowsRead(key, t.client.send, t.server.recv, t.clientWrote, t.serverRead, t.up, now);
      CanReadNext(t.clientWrote, t.serverRead, now);
    case ClientReads(now) =>
      FlowsRead(key, t.server.send, t.client.recv, t.serverWrote, t.clientRead, t.down, now);
      CanReadNext(t.serverWrote, t.clientRead, now);
  }

  lemma {:induction false} CanReadNext(wrote: seq<Item>, read: seq<Seg>, now: nat)
    requires CanRead(wrote, read, now)
    ensures |read| < |wrote|
  {}

  lemma {:induction false} FlowsKeys(t: Talk, key: Aead)
    requires Agrees(t, key)
    ensures t.client.send.Some? ==> t.client.send.value.aead == key
    ensures t.client.recv.Some? ==> t.client.recv.value.aead == key
    ensures t.server.send.Some? ==> t.server.send.value.aead == key
    ensures t.server.recv.Some? ==> t.server.recv.value.aead == key
  {
    hide Writable, Segs, AllFields, WriteAll;
  }

  lemma {:induction false} TalkAgrees(ts: seq<Talk>, turns: seq<Turn>, key: Aead, serverBlock: Aead, i: nat)
    requires Sound(key) && IsTalk(ts, turns, key, serverBlock) && i < |ts|
    ensures Agrees(ts[i], key)
  {
    hide Sound, Agrees, Allowed, Taken;
    if i == 0 {
      FirstAgrees(key, serverBlock);
    } else {
      TalkAgrees(ts, turns, key, serverBlock, i - 1);
      TurnAgrees(ts[i - 1], turns[i - 1], key);
    }
  }

  lemma {:induction false} FirstAgrees(key: Aead, serverBlock: Aead)
    ensures Agrees(NewTalk(key, serverBlock), key)
  {
    NothingFlows(key, NewTalk(key, serverBlock).clientWrote);
    NothingFlows(key, NewTalk(key, serverBlock).serverWrote);
  }

  lemma {:induction false} NothingFlows(key: Aead, wrote: seq<Item>)
    requires wrote == []
    ensures Flows(key, None, None, wrote, [], [])
  {
    assert wrote[..0] == [] && wrote[0..] == [];
    assert WriteAll(key, FRESH, wrote[0..]) == ([], FRESH);
  }

  // Two ends, with any interleaving of writes and reads on both, where the server was made with
  // any key at all and only finds the key of its client: at every point each end has read a
  // prefix of what the other wrote, every turn that is allowed does what it says, and so
  // everything that either of them writes can be read by the other, in order.
  lemma {:induction false} Conversation(ts: seq<Talk>, turns: seq<Turn>, key: Aead, serverBlock: Aead, i: nat)
    requires Sound(key) && IsTalk(ts, turns, key, serverBlock) && i < |ts|
    ensures ts[i].serverRead <= Segs(ts[i].clientWrote) && ts[i].clientRead <= Segs(ts[i].serverWrote)
    ensures i < |turns| ==> TurnDone(ts[i], turns[i], ts[i + 1])
  {
    hide Sound, Allowed, Taken, Segs, WriteAll, AllFields, Writable, TurnDone, NewTalk;
    TalkAgrees(ts, turns, key, serverBlock, i);
    SegsPrefix(ts[i].clientWrote, |ts[i].serverRead|);
    SegsPrefix(ts[i].serverWrote, |ts[i].clientRead|);
    if i < |turns| {
      TurnAgrees(ts[i], turns[i], key);
    }
  }
}

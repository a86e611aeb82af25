/** Progress: an established session can go on until both applications have read every byte
    written so far, unless both sides are stuck behind segments sent 20 times. The continuation
    uses the smallest congestion window, any retransmission timeout of the source, times that
    never go back, and output rounds that begin with the retransmission pass when it is due. */
module Progress {
  import opened Bytes
  import opened Protocols
  import opened Segments
  import opened Endpoints
  import opened Transport
  import opened Handshake
  import opened Runs

  // ---------------------------------------------------------------------------
  // Two more things that every run keeps
  // ---------------------------------------------------------------------------

  // Transmitted segments come before queued ones, and each was sent as it is now.
  ghost predicate Lined(s: Sender, out: set<Packet>) {
    && (forall j, k | j in s.sendBuf && k in s.sendQueue :: j < k)
    && SentTo(s.sendBuf, out)
  }

  lemma {:induction false} EnqueueLined(s: Sender, log: seq<Packet>, out: set<Packet>, p: Packet)
    requires Lined(s, out) && Sending(s, log, out) && p.seqNo == s.nextSend
    ensures Lined(Enqueue(s, p), out)
  {
    hide AddOne, IsAckProtocol, Numbered;
  }

  lemma {:induction false} ResendLined(s: Sender, out: set<Packet>, now: int, rto: nat, nextRecv: nat, nextTX: int)
    requires Lined(s, out) && forall k | k in s.sendBuf :: k < UINT32
    ensures Lined(ResendAll(s, now, rto, nextRecv, nextTX), out + ResentPackets(s.sendBuf, now, rto, nextRecv, UINT32))
  {
    hide TxTimeout, Due, IsAckProtocol;
    var t, sent := s.sendBuf, ResentPackets(s.sendBuf, now, rto, nextRecv, UINT32);
    forall k | k in t
      ensures Resent(t[k], now, rto, nextRecv).pkt in out + sent && Resent(t[k], now, rto, nextRecv).pkt.protocol == t[k].pkt.protocol
    {
      if Due(t[k], now) {
        assert Resent(t[k], now, rto, nextRecv).pkt in sent;
      }
    }
  }

  lemma {:induction false} SendNewLined(s: Sender, log: seq<Packet>, out: set<Packet>, now: int, rto: nat, nextRecv: nat)
    requires Lined(s, out) && Sending(s, log, out) && s.sendQueue != map[]
    ensures Lined(SendNew(s, now, rto, nextRecv), out + {NextToSend(s, now, rto, nextRecv).pkt})
  {
    hide TxTimeout, Numbered, Matches, IsAckProtocol, IsDataAckProtocol;
    var x := NextToSend(s, now, rto, nextRecv);
    QueuedIsNoAck(s, log, out, MinKey(s.sendQueue));
    assert x.pkt.seqNo == MinKey(s.sendQueue) && x.pkt.protocol == s.sendQueue[MinKey(s.sendQueue)].pkt.protocol;
  }

  lemma {:induction false} QueuedIsNoAck(s: Sender, log: seq<Packet>, out: set<Packet>, k: nat)
    requires Sending(s, log, out) && k in s.sendQueue
    ensures !IsAckProtocol(s.sendQueue[k].pkt.protocol) && s.sendQueue[k].pkt.seqNo == k
  {
    hide Numbered, IsAckProtocol;
    NumberedIsNoAck(log, s.sendQueue[k].pkt);
  }

  lemma {:induction false} NumberedIsNoAck(log: seq<Packet>, p: Packet)
    requires Numbered(log) && Matches(p, log)
    ensures !IsAckProtocol(p.protocol)
  {
    hide IsAckProtocol;
  }

  lemma {:induction false} DropLined(s: Sender, out: set<Packet>, u: nat)
    requires Lined(s, out)
    ensures Lined(s.(sendBuf := DropAcked(s.sendBuf, u)), out)
    ensures Lined(s.(sendBuf := CountAck(s.sendBuf, u)), out)
  {
    hide IsAckProtocol;
  }

  lemma {:induction false} MoreSentLined(s: Sender, out: set<Packet>, more: set<Packet>)
    requires Lined(s, out)
    ensures Lined(s, out + more)
  {}

  lemma {:induction false} TimeLined(s: Sender, out: set<Packet>, now: int)
    requires Lined(s, out)
    ensures Lined(s.(lastTX := now), out)
  {
    hide SentTo;
  }

  lemma {:induction false} QueuePartsLined(a: Side, parts: seq<seq<byte>>, n: nat, b: Side)
    requires Pair(a, b) && n <= |parts| && |a.log| + n < UINT32 && |a.e.snd.sendQueue| + n < SEND_QUEUE_CAPACITY
    requires Lined(a.e.snd, a.out)
    ensures
      (var c := SideQueueParts(a, parts, n);
       Lined(c.e.snd, c.out) && c.e.rcv == a.e.rcv && c.e.state == a.e.state)
    decreases n
  {
    hide Pair, Enqueue, ReceiveWindow, SendMode, Lined;
    if n > 0 {
      var p := DataPacket(a.e, parts[0], |parts| - 1);
      PairSending(a, b);
      EnqueueLined(a.e.snd, a.log, a.out, p);
      EnqueueKeeps(a, SideEnqueue(a, p), p, b);
      EnqueueSize(a.e.snd, p);
      QueuePartsLined(SideEnqueue(a, p), parts[1..], n - 1, b);
    }
  }

  lemma {:induction false} PairSending(a: Side, b: Side)
    requires Pair(a, b)
    ensures Sending(a.e.snd, a.log, a.out)
  {
    hide Sending, Link, Receiving, AcksSafe;
  }

  lemma {:induction false} InputLined(a: Side, b: Side, now: int)
    requires Pair(a, b) && a.chan != [] && Lined(a.e.snd, a.out)
    ensures Lined(SideInput(a, now).e.snd, a.out)
  {
    hide Pair, Lined, DropAcked, CountAck, Receive, Enqueue, Responds, IsAckProtocol;
    var p := a.chan[0];
    ConsumeKeeps(a, b);
    DropLined(a.e.snd, a.out, p.unAckSeq);
    if IsAckProtocol(p.protocol) {
      DropLined(a.e.snd.(sendBuf := DropAcked(a.e.snd.sendBuf, p.unAckSeq)), a.out, p.unAckSeq);
      AckIsDataAck(p.protocol);
    } else {
      var e := NoteLowEntropy(a.e, p);
      ReceiveFrame(e, p, now);
      TakeAckSending(a, b, p, e);
      EnqueueLined(TakeAck(e, p).snd, a.log, a.out, OpenResponse(a.e));
    }
  }

  lemma {:induction false} AckIsDataAck(p: Protocol)
    requires IsAckProtocol(p)
    ensures IsDataAckProtocol(p)
  {}

  lemma {:induction false} TakeAckSending(a: Side, b: Side, p: Packet, e: Endpoint)
    requires Pair(a, b) && p in b.out && e.snd == a.e.snd
    ensures Sending(TakeAck(e, p).snd, a.log, a.out) && TakeAck(e, p).snd.nextSend == a.e.snd.nextSend
  {
    hide Pair, Sending, DropAcked;
    TakeAckKeeps(a, p, b);
    PairSending(a.(e := TakeAck(a.e, p)), b);
  }

  // ---------------------------------------------------------------------------
  // The receiver never goes back
  // ---------------------------------------------------------------------------

  lemma {:induction false} InputMonotone(a: Side, b: Side, p: Packet, now: int)
    requires Pair(a, b) && p in b.out
    ensures Endpoints.Input(a.e, p, now).rcv.nextRecv >= a.e.rcv.nextRecv
  {
    hide Pair, MoveAll, WindowAfter, DropAcked, CountAck, Enqueue, Receives, Matches, IsAckProtocol, Dropped;
    if !IsAckProtocol(p.protocol) && !Dropped(a.e.rcv) {
      ReceivesPair(a, b);
      FileReceives(a.e.rcv, p, b.log, b.out, a.got);
      MoveAllReceives(Filed(a.e.rcv, p), b.log, b.out, a.got);
    }
    TakeAckRcv(NoteLowEntropy(a.e, p), p);
  }

  // ---------------------------------------------------------------------------
  // Every step keeps both
  // ---------------------------------------------------------------------------

  // A server takes its first segment exactly when it answers the open request.
  predicate Begun(e: Endpoint) {
    !e.isClient ==> (e.state == ATTACHED <==> e.rcv.nextRecv == 0)
  }

  // Some packet of these acknowledges everything below n.
  ghost predicate Acknowledged(out: set<Packet>, n: nat) {
    exists p :: p in out && IsDataAckProtocol(p.protocol) && p.unAckSeq >= n
  }

  // What a side has taken in order it has acknowledged, or it is about to.
  ghost predicate Owing(a: Side) {
    a.e.rcv.nextRecv == 0 || a.e.ackPending || Acknowledged(a.out, a.e.rcv.nextRecv)
  }

  ghost predicate Steady(a: Side) {
    Lined(a.e.snd, a.out) && Begun(a.e) && Owing(a)
  }

  lemma {:induction false} OwingGrows(a: Side, c: Side)
    requires Owing(a) && c.e.rcv.nextRecv == a.e.rcv.nextRecv && c.e.ackPending == a.e.ackPending && a.out <= c.out
    ensures Owing(c)
  {
    hide IsDataAckProtocol;
  }

  lemma {:induction false} InputOwing(a: Side, now: int)
    requires Owing(a) && a.chan != []
    ensures Owing(SideInput(a, now))
  {
    hide MoveAll, WindowAfter, DropAcked, CountAck, Enqueue, Dropped, IsAckProtocol, IsDataAckProtocol;
    if IsAckProtocol(a.chan[0].protocol) {
      OwingGrows(a, SideInput(a, now));
    }
  }

  ghost predicate Extra(w: World) {
    Steady(w.client) && Steady(w.server)
  }

  lemma {:induction false} ReadSteady(a: Side, b: Side, n: nat)
    requires Steady(a) && Pair(a, b)
    ensures Steady(SideRead(a, n))
  {
    hide Lined, Pair, ReadRest, ReadsResponse, Taken, Receives, Matches;
    ReceivesPair(a, b);
    ReadReceives(a.e.rcv, n, b.log, b.out, a.got);
    OwingGrows(a, SideRead(a, n));
  }

  // The first packet of a server is the open request, which is number 0.
  lemma {:induction false} FirstInputAdvances(w: World, now: int)
    requires Inv(w) && Steady(w.server) && w.registered && w.server.e.state == ATTACHED
    ensures w.server.chan != []
    ensures Endpoints.Input(w.server.e, w.server.chan[0], now).rcv.nextRecv > 0
  {
    hide Pair, Settled, Timed, OutShape, Endpoints.Input, Lined;
    InvSide(w, Server);
    var p := w.server.chan[0];
    ConsumeKeeps(w.server, w.client);
    OpenIsZero(w.client, w.server, p);
    NextSegmentAdvances(w.server, w.client, p, now);
  }

  lemma {:induction false} OpenIsZero(a: Side, b: Side, p: Packet)
    requires Pair(b, a) && p in a.out && p.protocol.OpenSessionRequest? && a.e.isClient && LogShape(a.e, a.log)
    ensures p.seqNo == 0
  {
    hide Pair, Receives;
    ReceivesPair(b, a);
    assert Matches(p, a.log);
  }

  lemma {:induction false} InputSteady(w: World, who: Who, now: int)
    requires At(w, who).chan != [] && Alive(w, who) && Steady(At(w, who)) && Inv(w)
    ensures Steady(SideInput(At(w, who), now))
  {
    hide Pair, Settled, Timed, LogShape, OutShape, Lined, Owing, Endpoints.Input, Responds;
    InvSide(w, who);
    var a, b := At(w, who), Peer(w, who);
    var p := a.chan[0];
    InputOwing(a, now);
    InputLined(a, b, now);
    ConsumeKeeps(a, b);
    InputMonotone(a, b, p, now);
    InputFrame(a.e, p, now);
    if who.Server? && a.e.state == ATTACHED {
      FirstInputAdvances(w, now);
      FirstInputResponds(a);
    }
  }

  lemma {:induction false} ResendSteady(a: Side, b: Side, now: int, rto: nat, nextTX: int)
    requires Steady(a) && Pair(a, b)
    ensures Steady(SideResend(a, now, rto, nextTX))
  {
    hide Pair, Lined, ResendTree, ResentPackets;
    SmallNumbers(a, b);
    ResendLined(a.e.snd, a.out, now, rto, a.e.rcv.nextRecv, nextTX);
    OwingGrows(a, SideResend(a, now, rto, nextTX));
  }

  lemma {:induction false} SendSteady(a: Side, b: Side, now: int, rto: nat)
    requires Steady(a) && Pair(a, b) && a.e.snd.sendQueue != map[]
    ensures Steady(SideSendNew(a, now, rto))
  {
    hide Pair, Lined, SendNew, NextToSend, Sending;
    PairSending(a, b);
    SendNewLined(a.e.snd, a.log, a.out, now, rto, a.e.rcv.nextRecv);
    OwingGrows(a, SideSendNew(a, now, rto));
  }

  lemma {:induction false} WriteSteady(a: Side, b: Side, parts: seq<seq<byte>>, n: nat)
    requires Steady(a) && Pair(a, b) && n <= |parts| && |a.log| + n < UINT32 && |a.e.snd.sendQueue| + n < SEND_QUEUE_CAPACITY
    requires LogShape(a.e, a.log) && (a.e.isClient ==> a.e.openSent)
    ensures Steady(SideQueueParts(a, parts, n))
  {
    hide Pair, Lined, SideQueueParts, LogShape;
    QueuePartsLined(a, parts, n, b);
    QueuePartsShape(a, parts, n);
    OwingGrows(a, SideQueueParts(a, parts, n));
  }

  lemma {:induction false} OpenSteady(a: Side, b: Side, bytes: seq<byte>)
    requires Steady(a) && Pair(a, b)
    ensures Steady(SideWriteOpen(a, bytes))
  {
    hide Pair, Lined, Enqueue, OpenPayload, Sending;
    PairSending(a, b);
    EnqueueLined(a.e.snd, a.log, a.out, OpenRequest(a.e, bytes));
    OwingGrows(a, SideWriteOpen(a, bytes));
  }

  lemma {:induction false} AckSteady(a: Side, now: int)
    requires Steady(a)
    ensures Steady(SideSendAck(a, now))
  {
    hide Lined, ReceiveWindow;
    MoreSentLined(a.e.snd, a.out, {AckPacket(a.e)});
    TimeLined(a.e.snd, a.out + {AckPacket(a.e)}, now);
    assert AckPacket(a.e) in SideSendAck(a, now).out;
  }

  lemma {:induction false} StepExtra(w: World, st: Step)
    requires Inv(w) && Extra(w) && Enabled(w, st)
    ensures Extra(Apply(w, st))
  {
    hide Inv, Steady, SideQueueParts, SideRead, SideResend, SideSendNew, SideSendAck, SideWriteOpen, SideInput, EarliestDeadline, NoneExhausted, PartsOf;
    match st
    case OpenStep(b) =>
      InvPair(w, Client);
      OpenSteady(w.client, w.server, b);
    case WriteStep(who, b, stop) =>
      InvPair(w, who);
      WriteSteady(At(w, who), Peer(w, who), PartsOf(At(w, who).e, b), stop);
    case ReadStep(who, n) =>
      InvPair(w, who);
      ReadSteady(At(w, who), Peer(w, who), n);
    case ResendStep(who, now, rto, nextTX) =>
      InvPair(w, who);
      ResendSteady(At(w, who), Peer(w, who), now, rto, nextTX);
    case SendStep(who, now, rto, cwnd, sent) =>
      InvPair(w, who);
      SendSteady(At(w, who), Peer(w, who), now, rto);
    case AckStep(who, now, jitter) =>
      AckSteady(At(w, who), now);
    case DispatchStep(who, p, now) =>
      DeliverSteady(At(w, who), p, now);
    case InputStep(who, now) =>
      InputSteady(w, who, now);
  }

  lemma {:induction false} DeliverSteady(a: Side, p: Packet, now: int)
    requires Steady(a)
    ensures Steady(SideDeliver(a, p)) && Steady(SideDeliver(SideCreated(a, now), p))
  {
    hide Lined;
    TimeLined(a.e.snd, a.out, now);
    OwingGrows(a, SideDeliver(a, p));
    OwingGrows(a, SideDeliver(SideCreated(a, now), p));
  }

  lemma {:induction false} InvPair(w: World, who: Who)
    requires Inv(w)
    ensures Pair(At(w, who), Peer(w, who)) && LogShape(At(w, who).e, At(w, who).log)
    ensures At(w, who).e.isClient == who.Client?
  {
    hide Pair, LogShape, OutShape, Settled, Timed;
    InvSide(w, who);
  }

  lemma {:induction false} InitExtra(cm: int, cl: int, sm: int, sl: int)
    ensures Extra(Init(cm, cl, sm, sl))
  {}

  // ---------------------------------------------------------------------------
  // Continuations
  // ---------------------------------------------------------------------------

  // The step does not go back on the clock of its side, and an output round sends new segments
  // and acknowledgements only when it did not have to begin with a retransmission pass, or
  // after that pass.
  predicate Orderly(w: World, st: Step) {
    match st
    case ResendStep(who, now, rto, nextTX) => now >= At(w, who).clock
    case SendStep(who, now, rto, cwnd, sent) => now >= At(w, who).clock && NoPassDue(At(w, who).e.snd, now)
    case AckStep(who, now, jitter) => now >= At(w, who).clock && NoPassDue(At(w, who).e.snd, now)
    case DispatchStep(who, p, now) => now >= At(w, who).clock
    case InputStep(who, now) => now >= At(w, who).clock
    case _ => true
  }

  ghost predicate Leads(w: World, steps: seq<Step>, v: World)
    decreases |steps|
  {
    if steps == [] then v == w
    else Enabled(w, steps[0]) && Orderly(w, steps[0]) && Leads(Apply(w, steps[0]), steps[1..], v)
  }

  lemma {:induction false} LeadsStep(w: World, st: Step)
    requires Enabled(w, st) && Orderly(w, st)
    ensures Leads(w, [st], Apply(w, st))
  {
    hide Enabled, Apply, Orderly;
    assert [st][1..] == [];
  }

  lemma {:induction false} LeadsOn(w: World, s: seq<Step>, v: World, t: seq<Step>, u: World)
    requires Leads(w, s, v) && Leads(v, t, u)
    ensures Leads(w, s + t, u)
    decreases |s|
  {
    hide Enabled, Apply, Orderly;
    if s == [] {
      assert s + t == t;
    } else {
      assert (s + t)[0] == s[0] && (s + t)[1..] == s[1..] + t;
      LeadsOn(Apply(w, s[0]), s[1..], v, t, u);
    }
  }

  // The same world when the clock of each side shows at least `time`.
  function Later(w: World, time: int): (v: World) {
    w.(client := w.client.(clock := Max(w.client.clock, time)), server := w.server.(clock := Max(w.server.clock, time)))
  }

  lemma {:induction false} LaterInv(w: World, time: int)
    requires Inv(w) && Extra(w)
    ensures Inv(Later(w, time)) && Extra(Later(w, time))
  {
    hide Pair, LogShape, OutShape, Settled, Timed, Lined;
    var v := Later(w, time);
    PairOther(w.client, v.client, w.server);
    PairSymmetric(v.client, w.server);
    PairOther(w.server, v.server, v.client);
    PairSymmetric(v.server, v.client);
  }

  // An established session with numbers left in both directions.
  ghost predicate Live(w: World) {
    && Inv(w) && Extra(w) && w.registered
    && w.client.e.state == ESTABLISHED && w.server.e.state == ESTABLISHED
    && |w.client.log| + 1 < UINT32 && |w.server.log| + 1 < UINT32
  }

  // Nothing was written, and neither side lost anything it had taken in order.
  predicate Onward(w: World, v: World) {
    && v.client.log == w.client.log && v.server.log == w.server.log
    && v.client.e.rcv.nextRecv >= w.client.e.rcv.nextRecv && v.server.e.rcv.nextRecv >= w.server.e.rcv.nextRecv
  }

  // The steps of the continuation: nobody writes.
  predicate Quiet(st: Step) {
    st.ReadStep? || st.ResendStep? || st.SendStep? || st.AckStep? || st.DispatchStep? || st.InputStep?
  }

  lemma {:induction false} ReadKeepsNext(e: Endpoint, n: nat)
    ensures ReadState(e, n).rcv.nextRecv == e.rcv.nextRecv
    decreases |e.rcv.recvQueue|
  {
    hide ReadsResponse;
    RestKeepsNext(e.rcv, n);
  }

  lemma {:induction false} RestKeepsNext(r: Receiver, n: nat)
    ensures ReadRest(r, n).nextRecv == r.nextRecv
    decreases |r.recvQueue|
  {
    if r.recvQueue != map[] && |r.unreadBuf| <= n {
      PopFrame(r);
      RestKeepsNext(PopQueue(r), n - |r.unreadBuf|);
    }
  }

  lemma {:induction false} QuietKeeps(w: World, st: Step)
    requires w.registered && w.client.e.state == ESTABLISHED && w.server.e.state == ESTABLISHED && Enabled(w, st) && Quiet(st)
    requires st.InputStep? ==> Pair(At(w, st.who), Peer(w, st.who))
    ensures
      (var v := Apply(w, st);
       && v.registered && Onward(w, v)
       && v.client.e.state == ESTABLISHED && v.server.e.state == ESTABLISHED)
  {
    hide Taken, ReadRest, ReadsResponse, SendNew, NextToSend, AckPacket, Endpoints.Input, CanSendNew, AckDue, Pair, ResendAll, ResentPackets, EarliestDeadline, NoneExhausted;
    match st
    case InputStep(who, now) =>
      var a := At(w, who);
      InputFrame(a.e, a.chan[0], now);
      ConsumeKeeps(a, Peer(w, who));
      InputMonotone(a, Peer(w, who), a.chan[0], now);
    case ReadStep(who, n) =>
      ReadKeepsNext(At(w, who).e, n);
    case _ =>
  }

  lemma {:induction false} LiveStep(w: World, st: Step)
    requires Enabled(w, st) && Quiet(st) && Live(w)
    ensures Live(Apply(w, st)) && Onward(w, Apply(w, st))
  {
    hide Inv, Extra, Enabled, Apply, Pair;
    StepKeeps(w, st);
    StepExtra(w, st);
    InvPair(w, Client);
    InvPair(w, Server);
    QuietKeeps(w, st);
  }

  ghost predicate Continues(w: World, steps: seq<Step>, v: World) {
    Leads(w, steps, v) && Live(v) && Onward(w, v)
  }

  lemma {:induction false} ContinueStep(w: World, st: Step)
    requires Enabled(w, st) && Orderly(w, st) && Quiet(st) && Live(w)
    ensures Continues(w, [st], Apply(w, st))
  {
    hide Live, Enabled, Apply, Leads, Orderly;
    LeadsStep(w, st);
    LiveStep(w, st);
  }

  lemma {:induction false} ContinueOn(w: World, s: seq<Step>, v: World, t: seq<Step>, u: World)
    requires Continues(w, s, v) && Continues(v, t, u)
    ensures Continues(w, s + t, u)
  {
    hide Live, Leads;
    LeadsOn(w, s, v, t, u);
  }

  lemma {:induction false} StayPut(w: World)
    requires Live(w)
    ensures Continues(w, [], w)
  {
    hide Live;
  }

  lemma {:induction false} ContinuesLive(w: World, steps: seq<Step>, v: World)
    requires Continues(w, steps, v)
    ensures Live(v) && Onward(w, v)
  {
    hide Live, Leads;
  }

  // ---------------------------------------------------------------------------
  // Input and reading
  // ---------------------------------------------------------------------------

  lemma {:induction false} LivePair(w: World, who: Who)
    requires Live(w)
    ensures Pair(At(w, who), Peer(w, who)) && Settled(At(w, who).e.rcv) && Steady(At(w, who)) && Steady(Peer(w, who))
    ensures At(w, who).e.state == ESTABLISHED && Peer(w, who).e.state == ESTABLISHED && Alive(w, who) && At(w, who).e.isClient == who.Client?
    ensures |At(w, who).log| + 1 < UINT32
  {
    hide Pair, Settled, Steady, Timed, LogShape, OutShape;
    InvSide(w, who);
  }

  // Acknowledgements only took segments out of sendBuf.
  ghost predicate Shrunk(s: Sender, t: Sender) {
    && t.sendQueue == s.sendQueue && t.nextRetransmission == s.nextRetransmission
    && t.sendBuf.Keys <= s.sendBuf.Keys
    && forall k | k in t.sendBuf :: t.sendBuf[k].txCount == s.sendBuf[k].txCount
  }

  lemma {:induction false} ShrunkOn(s: Sender, t: Sender, u: Sender)
    requires Shrunk(s, t) && Shrunk(t, u)
    ensures Shrunk(s, u)
  {}

  lemma {:induction false} InputShrinks(a: Side, now: int)
    requires a.chan != [] && !Responds(a.e, a.chan[0])
    ensures Shrunk(a.e.snd, SideInput(a, now).e.snd) && SideInput(a, now).log == a.log
  {
    hide Receive, Dropped, IsAckProtocol, IsDataAckProtocol;
    var p := a.chan[0];
    if !IsAckProtocol(p.protocol) {
      ReceiveFrame(NoteLowEntropy(a.e, p), p, now);
    }
  }

  // The side takes in the first packet that waits for it.
  lemma {:induction false} InputOnce(w: World, who: Who) returns (st: Step, v: World)
    requires At(w, who).chan != [] && Live(w)
    ensures Continues(w, [st], v) && v == With(w, who, SideInput(At(w, who), At(w, who).clock))
    ensures At(v, who).chan == At(w, who).chan[1..] && At(v, who).out == At(w, who).out && Peer(v, who) == Peer(w, who)
    ensures Shrunk(At(w, who).e.snd, At(v, who).e.snd)
  {
    hide Live, Continues, Endpoints.Input, Shrunk, Pair, Settled, Steady;
    LivePair(w, who);
    InputShrinks(At(w, who), At(w, who).clock);
    st := InputStep(who, At(w, who).clock);
    v := With(w, who, SideInput(At(w, who), At(w, who).clock));
    ContinueStep(w, st);
  }

  // A side takes in everything that waits for it.
  lemma {:induction false} Drain(w: World, who: Who) returns (steps: seq<Step>, v: World)
    requires Live(w)
    ensures Continues(w, steps, v) && At(v, who).chan == [] && At(v, who).out == At(w, who).out && Peer(v, who) == Peer(w, who)
    ensures Shrunk(At(w, who).e.snd, At(v, who).e.snd)
    decreases |At(w, who).chan|
  {
    hide Live, Continues, SideInput;
    if At(w, who).chan == [] {
      steps, v := [], w;
      StayPut(w);
    } else {
      var st, u := InputOnce(w, who);
      ContinuesLive(w, [st], u);
      var more, x := Drain(u, who);
      ContinueOn(w, [st], u, more, x);
      ShrunkOn(At(w, who).e.snd, At(u, who).e.snd, At(x, who).e.snd);
      steps, v := [st] + more, x;
    }
  }

  // A Read with room for more than there is takes everything.
  lemma {:induction false} ReadEverything(r: Receiver, n: nat)
    requires n > |Pending(r)|
    ensures ReadRest(r, n).recvQueue == map[] && ReadRest(r, n).recvBuf == r.recvBuf && ReadRest(r, n).nextRecv == r.nextRecv
    ensures Taken(r, n) == Pending(r)
    decreases |r.recvQueue|
  {
    hide MinKey;
    if r.recvQueue != map[] {
      PendingPop(r);
      PopFrame(r);
      ReadEverything(PopQueue(r), n - |r.unreadBuf|);
    }
  }

  lemma {:induction false} ReadOut(w: World, who: Who) returns (st: Step, v: World)
    requires Live(w)
    ensures Continues(w, [st], v) && Peer(v, who) == Peer(w, who)
    ensures
      (var a, c := At(w, who), At(v, who);
       && c.e.rcv.recvQueue == map[] && c.e.rcv.nextRecv == a.e.rcv.nextRecv && c.got == a.got + Pending(a.e.rcv)
       && c.chan == a.chan && c.out == a.out && c.e.snd == a.e.snd && c.clock == a.clock && c.e.remoteWindow == a.e.remoteWindow)
  {
    hide Live, Continues, Pending, Taken, ReadRest, ReadsResponse, Pair, Settled, Steady;
    var a := At(w, who);
    var n := |Pending(a.e.rcv)| + 1;
    LivePair(w, who);
    ReadEverything(a.e.rcv, n);
    st := ReadStep(who, n);
    v := With(w, who, SideRead(a, n));
    ContinueStep(w, st);
  }

  lemma {:induction false} HandOver(w: World, who: Who, p: Packet) returns (st: Step, v: World)
    requires p in Peer(w, who).out && (who.Client? || !p.protocol.OpenSessionRequest?) && Live(w)
    ensures Continues(w, [st], v) && v == With(w, who, SideDeliver(At(w, who), p))
  {
    hide Continues, Inv, Extra;
    st := DispatchStep(who, p, At(w, who).clock);
    v := With(w, who, SideDeliver(At(w, who), p));
    ContinueStep(w, st);
  }

  // The peer hands over one packet that it sent, and the side takes it in.
  lemma {:induction false} Deliver(w: World, who: Who, p: Packet) returns (steps: seq<Step>, v: World)
    requires p in Peer(w, who).out && (who.Client? || !p.protocol.OpenSessionRequest?) && Live(w)
    ensures Continues(w, steps, v) && Peer(v, who) == Peer(w, who) && At(v, who).out == At(w, who).out
    ensures Shrunk(At(w, who).e.snd, At(v, who).e.snd)
    ensures exists u: Side :: u.chan == [p] && At(v, who) == SideInput(u, u.clock)
  {
    hide Live, Continues, SideInput, Shrunk;
    var s1, w1 := Drain(w, who);
    ContinuesLive(w, s1, w1);
    var s2, w2 := HandOver(w1, who, p);
    ContinuesLive(w1, [s2], w2);
    ContinueOn(w, s1, w1, [s2], w2);
    var s3, w3 := InputOnce(w2, who);
    ContinueOn(w, s1 + [s2], w2, [s3], w3);
    ShrunkOn(At(w, who).e.snd, At(w1, who).e.snd, At(w3, who).e.snd);
    assert At(w2, who).chan == [p];
    return s1 + [s2] + [s3], w3;
  }

  // What an acknowledgement leaves of sendBuf.
  lemma {:induction false} AckDrops(a: Side, p: Packet, now: int)
    requires a.chan == [p] && IsDataAckProtocol(p.protocol)
    ensures forall k | k in SideInput(a, now).e.snd.sendBuf :: k >= p.unAckSeq
  {
    hide MoveAll, WindowAfter, Dropped;
  }

  // The side takes in a packet that acknowledges.
  lemma {:induction false} TakeAckOf(w: World, who: Who, p: Packet) returns (steps: seq<Step>, v: World)
    requires p in Peer(w, who).out && IsDataAckProtocol(p.protocol) && Live(w)
    ensures Continues(w, steps, v) && Peer(v, who) == Peer(w, who) && At(v, who).out == At(w, who).out
    ensures Shrunk(At(w, who).e.snd, At(v, who).e.snd)
    ensures forall k | k in At(v, who).e.snd.sendBuf :: k >= p.unAckSeq
  {
    hide Live, Continues, SideInput, Shrunk;
    steps, v := Deliver(w, who, p);
    var u: Side :| u.chan == [p] && At(v, who) == SideInput(u, u.clock);
    AckDrops(u, p, u.clock);
  }

  // ---------------------------------------------------------------------------
  // Taking what was sent
  // ---------------------------------------------------------------------------

  // What the sender holds as number k > 0 is not an open request.
  lemma {:induction false} HeldPacket(w: World, who: Who, k: nat)
    requires Live(w) && k in Peer(w, who).e.snd.sendBuf && k == At(w, who).e.rcv.nextRecv
    ensures
      (var p := Peer(w, who).e.snd.sendBuf[k].pkt;
       && p in Peer(w, who).out && p.seqNo == k && !IsAckProtocol(p.protocol)
       && (who.Client? || !p.protocol.OpenSessionRequest?))
  {
    hide Settled, Timed, OutShape, Receiving, AcksSafe, Link, IsAckProtocol;
    InvSide(w, who);
    var b := Peer(w, who);
    assert Files(b.e.snd.sendBuf, b.log);
    assert Matches(b.e.snd.sendBuf[k].pkt, b.log);
  }

  lemma {:induction false} TakeHeld(w: World, who: Who) returns (steps: seq<Step>, v: World)
    requires Live(w) && At(w, who).e.rcv.nextRecv in Peer(w, who).e.snd.sendBuf
    ensures Continues(w, steps, v) && Peer(v, who) == Peer(w, who) && At(v, who).out == At(w, who).out
    ensures Shrunk(At(w, who).e.snd, At(v, who).e.snd)
    ensures At(v, who).e.rcv.nextRecv > At(w, who).e.rcv.nextRecv
  {
    hide Live, Continues, Pending, Pair, Settled, Steady, SideInput, Shrunk;
    var i := At(w, who).e.rcv.nextRecv;
    var s1, w1 := Drain(w, who);
    ContinuesLive(w, s1, w1);
    if At(w1, who).e.rcv.nextRecv > i {
      return s1, w1;
    }
    var st, w2 := ReadOut(w1, who);
    ContinuesLive(w1, [st], w2);
    ContinueOn(w, s1, w1, [st], w2);
    HeldPacket(w2, who, i);
    var p := Peer(w2, who).e.snd.sendBuf[i].pkt;
    var s3, w3 := HandOver(w2, who, p);
    ContinuesLive(w2, [s3], w3);
    ContinueOn(w, s1 + [st], w2, [s3], w3);
    var s4, w4 := InputOnce(w3, who);
    ContinueOn(w, s1 + [st] + [s3], w3, [s4], w4);
    ShrunkOn(At(w, who).e.snd, At(w1, who).e.snd, At(w4, who).e.snd);
    LivePair(w3, who);
    EmptyQueueOpensWindow(At(w3, who), Peer(w3, who));
    NextSegmentAdvances(At(w3, who), Peer(w3, who), p, At(w3, who).clock);
    InputRcv(At(w3, who), At(w3, who).clock);
    return s1 + [st] + [s3] + [s4], w4;
  }

  lemma {:induction false} InputRcv(a: Side, now: int)
    requires a.chan != []
    ensures SideInput(a, now).e.rcv == Endpoints.Input(a.e, a.chan[0], now).rcv
  {
    hide Endpoints.Input, Responds;
  }

  lemma {:induction false} EmptyQueueOpensWindow(a: Side, b: Side)
    requires Pair(a, b) && Settled(a.e.rcv) && a.e.rcv.recvQueue == map[]
    ensures ReceiveWindow(a.e.rcv) > 0
  {
    hide Pair, Settled;
    WindowOpen(a, b);
  }

  lemma {:induction false} StillNeeded(a: Side, b: Side)
    requires Pair(a, b)
    ensures a.e.rcv.nextRecv <= |b.log|
    ensures a.e.rcv.nextRecv < |b.log| ==> a.e.rcv.nextRecv in b.e.snd.sendQueue || a.e.rcv.nextRecv in b.e.snd.sendBuf
  {
    hide Own, SentTo, Delivered;
  }

  // A number that is not outstanding and still needed is queued, so all that is outstanding is
  // below it.
  lemma {:induction false} AllBelow(a: Side, b: Side)
    requires Pair(a, b) && Lined(b.e.snd, b.out) && a.e.rcv.nextRecv !in b.e.snd.sendBuf
    ensures forall k | k in b.e.snd.sendBuf :: k < a.e.rcv.nextRecv
  {
    hide Pair, SentTo;
    StillNeeded(a, b);
    PairSymmetric(a, b);
    SmallNumbers(b, a);
  }

  // The side takes everything that its peer holds as sent; the peer does nothing.
  lemma {:induction false} TakeSent(w: World, who: Who) returns (steps: seq<Step>, v: World)
    requires Live(w)
    ensures Continues(w, steps, v) && Peer(v, who) == Peer(w, who) && At(v, who).out == At(w, who).out
    ensures Shrunk(At(w, who).e.snd, At(v, who).e.snd)
    ensures forall k | k in Peer(v, who).e.snd.sendBuf :: k < At(v, who).e.rcv.nextRecv
    ensures Peer(w, who).e.snd.sendBuf == map[] ==> v == w
    decreases |Peer(w, who).log| - At(w, who).e.rcv.nextRecv
  {
    hide Live, Continues, Pair, Settled, Lined, Shrunk;
    LivePair(w, who);
    StillNeeded(At(w, who), Peer(w, who));
    if At(w, who).e.rcv.nextRecv !in Peer(w, who).e.snd.sendBuf {
      AllBelow(At(w, who), Peer(w, who));
      SameShrunk(At(w, who).e.snd);
      StayPut(w);
      return [], w;
    }
    var s1, w1 := TakeHeld(w, who);
    ContinuesLive(w, s1, w1);
    LivePair(w1, who);
    StillNeeded(At(w1, who), Peer(w1, who));
    var s2, w2 := TakeSent(w1, who);
    ContinueOn(w, s1, w1, s2, w2);
    ShrunkOn(At(w, who).e.snd, At(w1, who).e.snd, At(w2, who).e.snd);
    return s1 + s2, w2;
  }

  lemma {:induction false} SameShrunk(s: Sender)
    ensures Shrunk(s, s)
  {}

  // ---------------------------------------------------------------------------
  // Retransmission passes
  // ---------------------------------------------------------------------------

  lemma {:induction false} BackOffPositive(n: nat)
    ensures BackOff(n) >= 1
  {
    PowPositive(n);
    PowLarger(n);
    DivideSelf(Pow(3, n), Pow(2, n));
  }

  lemma {:induction false} PowLarger(n: nat)
    ensures Pow(3, n) >= Pow(2, n)
  {
    if n > 0 {
      PowLarger(n - 1);
    }
  }

  lemma {:induction false} DivideSelf(a: nat, b: nat)
    requires a >= b > 0
    ensures a / b >= 1
  {}

  lemma {:induction false} TimeoutPositive(rto: nat, n: nat)
    requires rto >= MIN_RTO
    ensures TxTimeout(rto, n) > 0
  {
    hide BackOff;
    BackOffPositive(n);
    MulAtLeast(rto, BackOff(n));
  }

  lemma {:induction false} MulAtLeast(a: nat, b: nat)
    requires b >= 1
    ensures a * b >= a
  {}

  // After a visit of the pass the deadline of a segment is in the future.
  lemma {:induction false} ResentLater(s: Segment, now: int, rto: nat, nextRecv: nat)
    requires rto >= MIN_RTO
    ensures Resent(s, now, rto, nextRecv).Deadline() > now
  {
    hide TxTimeout, Refresh;
    TimeoutPositive(rto, s.txCount + 1);
  }

  lemma {:induction false} FindEarliest(t: Tree) returns (d: int)
    requires t != map[] && forall k | k in t :: k < UINT32
    ensures EarliestDeadline(t, UINT32, d)
    decreases |t|
  {
    var k := MinKey(t);
    var rest := t - {k};
    RemoveSize(t, k);
    d := t[k].Deadline();
    if rest != map[] {
      var e := FindEarliest(rest);
      var j :| j in rest && j < UINT32 && rest[j].Deadline() == e;
      assert j in t && t[j] == rest[j];
      d := Min(d, e);
      forall i | i in t && i < UINT32
        ensures d <= t[i].Deadline()
      {
        assert i == k || (i in rest && rest[i] == t[i]);
      }
    }
  }

  // A due pass that meets no segment sent 20 times can run, and no other is due right after it.
  lemma {:induction false} PassCanRun(a: Side, b: Side, now: int, rto: nat) returns (nextTX: int)
    requires Pair(a, b) && rto >= MIN_RTO && a.e.snd.sendBuf != map[]
    ensures EarliestDeadline(ResendTree(a.e.snd.sendBuf, now, rto, a.e.rcv.nextRecv, UINT32), UINT32, nextTX)
    ensures NoPassDue(SideResend(a, now, rto, nextTX).e.snd, now)
    ensures SideResend(a, now, rto, nextTX).e.snd.sendBuf.Keys == a.e.snd.sendBuf.Keys
  {
    hide Pair, Resent, ResentPackets, NoneDue;
    SmallNumbers(a, b);
    var t := a.e.snd.sendBuf;
    var r := ResendTree(t, now, rto, a.e.rcv.nextRecv, UINT32);
    assert MinKey(t) in r;
    nextTX := FindEarliest(r);
    var k :| k in r && k < UINT32 && r[k].Deadline() == nextTX;
    ResentLater(t[k], now, rto, a.e.rcv.nextRecv);
  }

  // The output round of a side that no exhausted segment stops begins: after it, at its time,
  // nothing keeps the side from sending.
  lemma {:induction false} BeginRound(w: World, who: Who, now: int, rto: nat) returns (steps: seq<Step>, v: World)
    requires rto >= MIN_RTO && now >= At(w, who).clock && NoneExhausted(At(w, who).e.snd.sendBuf) && Live(w)
    ensures Continues(w, steps, v) && Peer(v, who) == Peer(w, who)
    ensures At(v, who).clock <= now && NoPassDue(At(v, who).e.snd, now)
    ensures
      (var a, c := At(w, who), At(v, who);
       && c.e == a.e.(snd := c.e.snd) && a.out <= c.out && c.chan == a.chan && c.got == a.got
       && c.e.snd.sendQueue == a.e.snd.sendQueue && c.e.snd.sendBuf.Keys == a.e.snd.sendBuf.Keys)
  {
    hide Live, Continues, NoneExhausted, EarliestDeadline, ResendTree, ResentPackets, NoneDue, Pair, Settled, Steady;
    var a := At(w, who);
    LivePair(w, who);
    if NoPassDue(a.e.snd, now) {
      StayPut(w);
      return [], w;
    }
    var nextTX := PassCanRun(a, Peer(w, who), now, rto);
    v := With(w, who, SideResend(a, now, rto, nextTX));
    ContinueStep(w, ResendStep(who, now, rto, nextTX));
    return [ResendStep(who, now, rto, nextTX)], v;
  }

  // ---------------------------------------------------------------------------
  // A side that is not stuck
  // ---------------------------------------------------------------------------

  // None of these packets acknowledges number k.
  ghost predicate Uncovered(out: set<Packet>, k: nat) {
    forall p | p in out && IsDataAckProtocol(p.protocol) :: p.unAckSeq <= k
  }

  // The side holds a segment that was sent 20 times, and the peer has sent nothing that
  // acknowledges it: from the next check on, every output round of the side ends the session.
  ghost predicate Stuck(a: Side, b: Side) {
    exists k :: k in a.e.snd.sendBuf && a.e.snd.sendBuf[k].txCount >= TX_COUNT_LIMIT && Uncovered(b.out, k)
  }

  lemma {:induction false} ShrunkFree(a: Side, c: Side, b: Side)
    requires !Stuck(a, b) && Shrunk(a.e.snd, c.e.snd)
    ensures !Stuck(c, b)
  {
    hide Uncovered;
    forall k | k in c.e.snd.sendBuf && c.e.snd.sendBuf[k].txCount >= TX_COUNT_LIMIT
      ensures !Uncovered(b.out, k)
    {
      assert k in a.e.snd.sendBuf;
    }
  }

  // Acknowledgements in flight can take every segment sent 20 times off a side that is not stuck.
  lemma {:induction false} Unstick(w: World, who: Who) returns (steps: seq<Step>, v: World)
    requires Live(w) && !Stuck(At(w, who), Peer(w, who))
    ensures Continues(w, steps, v) && Peer(v, who) == Peer(w, who) && At(v, who).out == At(w, who).out
    ensures Shrunk(At(w, who).e.snd, At(v, who).e.snd) && NoneExhausted(At(v, who).e.snd.sendBuf)
    decreases |At(w, who).e.snd.sendBuf|
  {
    hide Live, Continues, Stuck, IsDataAckProtocol;
    var t := At(w, who).e.snd.sendBuf;
    if NoneExhausted(t) {
      SameShrunk(At(w, who).e.snd);
      StayPut(w);
      return [], w;
    }
    var k :| k in t && t[k].txCount >= TX_COUNT_LIMIT;
    var p := CoveringAck(At(w, who), Peer(w, who), k);
    var s1, w1 := TakeAckOf(w, who, p);
    ContinuesLive(w, s1, w1);
    ShrunkFree(At(w, who), At(w1, who), Peer(w, who));
    FewerKeys(t, At(w1, who).e.snd.sendBuf, k);
    var s2, w2 := Unstick(w1, who);
    ContinueOn(w, s1, w1, s2, w2);
    ShrunkOn(At(w, who).e.snd, At(w1, who).e.snd, At(w2, who).e.snd);
    return s1 + s2, w2;
  }

  lemma {:induction false} CoveringAck(a: Side, b: Side, k: nat) returns (p: Packet)
    requires !Stuck(a, b) && k in a.e.snd.sendBuf && a.e.snd.sendBuf[k].txCount >= TX_COUNT_LIMIT
    ensures p in b.out && IsDataAckProtocol(p.protocol) && p.unAckSeq > k
  {
    hide IsDataAckProtocol;
    assert !Uncovered(b.out, k);
    p :| p in b.out && IsDataAckProtocol(p.protocol) && p.unAckSeq > k;
  }

  lemma {:induction false} FewerKeys(t: Tree, u: Tree, k: nat)
    requires u.Keys <= t.Keys && k in t && k !in u
    ensures |u| < |t|
  {
    SubsetSize(u.Keys, t.Keys - {k});
    assert |t.Keys - {k}| == |t.Keys| - 1;
  }

  // ---------------------------------------------------------------------------
  // Everything sent is acknowledged
  // ---------------------------------------------------------------------------

  // The side acknowledges what it has taken, after the retransmission pass if one is due.
  lemma {:induction false} AckOwed(w: World, who: Who, rto: nat) returns (steps: seq<Step>, v: World)
    requires rto >= MIN_RTO && NoneExhausted(At(w, who).e.snd.sendBuf) && At(w, who).e.rcv.nextRecv > 0 && Live(w)
    ensures Continues(w, steps, v) && Peer(v, who) == Peer(w, who)
    ensures Acknowledged(At(v, who).out, At(v, who).e.rcv.nextRecv) && At(v, who).e.rcv.nextRecv == At(w, who).e.rcv.nextRecv
    ensures At(v, who).e.snd.sendQueue == At(w, who).e.snd.sendQueue && At(v, who).e.snd.sendBuf.Keys == At(w, who).e.snd.sendBuf.Keys
  {
    hide Live, Continues, NoneExhausted, Pair, Settled, Lined, Acknowledged, NoPassDue;
    LivePair(w, who);
    if Acknowledged(At(w, who).out, At(w, who).e.rcv.nextRecv) {
      StayPut(w);
      return [], w;
    }
    var now := Max(At(w, who).clock, At(w, who).e.ackDeadline);
    var s1, w1 := BeginRound(w, who, now, rto);
    ContinuesLive(w, s1, w1);
    var s2, w2 := SendAckAt(w1, who, now, 0);
    ContinueOn(w, s1, w1, [s2], w2);
    AckAcknowledges(At(w1, who), now);
    return s1 + [s2], w2;
  }

  lemma {:induction false} SendAckAt(w: World, who: Who, now: int, jitter: int) returns (st: Step, v: World)
    requires now >= At(w, who).clock && NoPassDue(At(w, who).e.snd, now) && AckDue(At(w, who).e, now, jitter)
    requires -HEARTBEAT_JITTER <= jitter <= HEARTBEAT_JITTER && Live(w)
    ensures Continues(w, [st], v) && v == With(w, who, SideSendAck(At(w, who), now))
  {
    hide Continues, Inv, Extra, AckPacket, AckDue, NoPassDue;
    v := With(w, who, SideSendAck(At(w, who), now));
    st := AckStep(who, now, jitter);
    ContinueStep(w, st);
  }

  lemma {:induction false} AckAcknowledges(a: Side, now: int)
    ensures Acknowledged(SideSendAck(a, now).out, a.e.rcv.nextRecv)
  {
    hide ReceiveWindow;
    assert AckPacket(a.e) in SideSendAck(a, now).out;
  }

  // With everything sent to it taken, an acknowledgement of a side empties the peer.
  lemma {:induction false} EmptyPeer(w: World, who: Who) returns (steps: seq<Step>, v: World)
    requires Acknowledged(At(w, who).out, At(w, who).e.rcv.nextRecv) && Live(w)
    requires forall k | k in Peer(w, who).e.snd.sendBuf :: k < At(w, who).e.rcv.nextRecv
    ensures Continues(w, steps, v) && At(v, who) == At(w, who)
    ensures Peer(v, who).e.snd.sendBuf == map[] && Peer(v, who).e.snd.sendQueue == Peer(w, who).e.snd.sendQueue
  {
    hide Live, Continues, IsDataAckProtocol;
    var p :| p in At(w, who).out && IsDataAckProtocol(p.protocol) && p.unAckSeq >= At(w, who).e.rcv.nextRecv;
    steps, v := TakeAckOf(w, Other(who), p);
    NoKeys(Peer(v, who).e.snd.sendBuf);
  }

  lemma {:induction false} NoKeys(t: Tree)
    requires forall k :: k !in t
    ensures t == map[]
  {}

  // After a quiet heartbeat interval an acknowledgement is due.
  function HeartbeatTime(a: Side): (now: int)
    ensures now >= a.clock && AckDue(a.e, now, 0)
  {
    Max(a.clock, a.e.snd.lastTX + HEARTBEAT_INTERVAL + 1)
  }

  // What the acknowledgement of a peer leaves.
  lemma {:induction false} AckOpensWindow(a: Side, e: Endpoint, now: int)
    requires a.chan == [AckPacket(e)] && ReceiveWindow(e.rcv) > 0
    ensures SideInput(a, now).e.remoteWindow > 0
  {}

  // A side with nothing outstanding takes everything, reads it and acknowledges; afterwards
  // the peer has nothing outstanding and knows an open window.
  lemma {:induction false} AckRound(w: World, who: Who) returns (steps: seq<Step>, v: World)
    requires At(w, who).e.snd.sendBuf == map[] && Live(w)
    ensures Continues(w, steps, v) && At(v, who).e.snd.sendBuf == map[] && Peer(v, who).e.snd.sendBuf == map[]
    ensures At(v, who).e.snd.sendQueue == At(w, who).e.snd.sendQueue && Peer(v, who).e.snd.sendQueue == Peer(w, who).e.snd.sendQueue
    ensures Peer(v, who).e.remoteWindow > 0
    ensures Peer(w, who).e.snd.sendBuf == map[] ==> At(v, who).e.remoteWindow == At(w, who).e.remoteWindow
  {
    hide Live, Continues, Pending, Pair, Settled, Steady, SideInput, ReceiveWindow, AckDue, HeartbeatTime;
    var s1, w1 := TakeSent(w, who);
    ContinuesLive(w, s1, w1);
    var s2, w2 := ReadOut(w1, who);
    ContinuesLive(w1, [s2], w2);
    ContinueOn(w, s1, w1, [s2], w2);
    LivePair(w2, who);
    EmptyQueueOpensWindow(At(w2, who), Peer(w2, who));
    var s3, w3 := SendAckAt(w2, who, HeartbeatTime(At(w2, who)), 0);
    ContinuesLive(w2, [s3], w3);
    ContinueOn(w, s1 + [s2], w2, [s3], w3);
    var p := AckPacket(At(w2, who).e);
    var s4, w4 := Deliver(w3, Other(who), p);
    ContinueOn(w, s1 + [s2] + [s3], w3, s4, w4);
    var u: Side :| u.chan == [p] && At(w4, Other(who)) == SideInput(u, u.clock);
    AckDrops(u, p, u.clock);
    AckOpensWindow(u, At(w2, who).e, u.clock);
    NoKeys(Peer(w4, who).e.snd.sendBuf);
    return s1 + [s2] + [s3] + s4, w4;
  }

  // If one side is not stuck, both can come to have nothing outstanding.
  lemma {:induction false} Settle(w: World, who: Who, rto: nat) returns (steps: seq<Step>, v: World)
    requires rto >= MIN_RTO && Live(w) && !Stuck(At(w, who), Peer(w, who))
    ensures Continues(w, steps, v) && At(v, who).e.snd.sendBuf == map[] && Peer(v, who).e.snd.sendBuf == map[]
  {
    hide Live, Continues, Stuck, NoneExhausted, Acknowledged;
    var s1, w1 := Unstick(w, who);
    ContinuesLive(w, s1, w1);
    var s2, w2 := TakeSent(w1, who);
    ContinuesLive(w1, s2, w2);
    ContinueOn(w, s1, w1, s2, w2);
    ShrunkNoneExhausted(At(w1, who).e.snd, At(w2, who).e.snd);
    var s3, w3 := SettlePeer(w2, who, rto);
    ContinuesLive(w2, s3, w3);
    ContinueOn(w, s1 + s2, w2, s3, w3);
    var s4, w4 := AckRound(w3, Other(who));
    ContinueOn(w, s1 + s2 + s3, w3, s4, w4);
    return s1 + s2 + s3 + s4, w4;
  }

  lemma {:induction false} ShrunkNoneExhausted(s: Sender, t: Sender)
    requires Shrunk(s, t) && NoneExhausted(s.sendBuf)
    ensures NoneExhausted(t.sendBuf)
  {}

  lemma {:induction false} SettlePeer(w: World, who: Who, rto: nat) returns (steps: seq<Step>, v: World)
    requires rto >= MIN_RTO && NoneExhausted(At(w, who).e.snd.sendBuf) && Live(w)
    requires forall k | k in Peer(w, who).e.snd.sendBuf :: k < At(w, who).e.rcv.nextRecv
    ensures Continues(w, steps, v) && Peer(v, who).e.snd.sendBuf == map[]
  {
    hide Live, Continues, NoneExhausted, Acknowledged;
    if At(w, who).e.rcv.nextRecv == 0 {
      NoKeys(Peer(w, who).e.snd.sendBuf);
      StayPut(w);
      return [], w;
    }
    var s1, w1 := AckOwed(w, who, rto);
    ContinuesLive(w, s1, w1);
    var s2, w2 := EmptyPeer(w1, who);
    ContinueOn(w, s1, w1, s2, w2);
    return s1 + s2, w2;
  }

  // ---------------------------------------------------------------------------
  // One segment at a time
  // ---------------------------------------------------------------------------

  lemma {:induction false} SendOnce(w: World, who: Who, rto: nat) returns (st: Step, v: World)
    requires rto >= MIN_RTO && At(w, who).e.remoteWindow > 0 && At(w, who).e.snd.sendBuf == map[] && At(w, who).e.snd.sendQueue != map[]
    requires Live(w)
    ensures Continues(w, [st], v) && Peer(v, who) == Peer(w, who)
    ensures |At(v, who).e.snd.sendQueue| < |At(w, who).e.snd.sendQueue|
  {
    hide Live, Continues, Pair, Settled, Steady, Transmit;
    var a := At(w, who);
    LivePair(w, who);
    st := SendStep(who, a.clock, rto, MIN_WINDOW_SIZE, 0);
    RemoveSize(a.e.snd.sendQueue, MinKey(a.e.snd.sendQueue));
    v := With(w, who, SideSendNew(a, a.clock, rto));
    ContinueStep(w, st);
  }

  // A side with nothing outstanding empties its queue, one acknowledged segment at a time.
  lemma {:induction false} Flush(w: World, who: Who, rto: nat) returns (steps: seq<Step>, v: World)
    requires rto >= MIN_RTO && At(w, who).e.snd.sendBuf == map[] && Peer(w, who).e.snd.sendBuf == map[] && Live(w)
    ensures Continues(w, steps, v) && At(v, who).e.snd.sendBuf == map[] && Peer(v, who).e.snd.sendBuf == map[]
    ensures At(v, who).e.snd.sendQueue == map[] && Peer(v, who).e.snd.sendQueue == Peer(w, who).e.snd.sendQueue
    decreases |At(w, who).e.snd.sendQueue|
  {
    hide Live, Continues;
    if At(w, who).e.snd.sendQueue == map[] {
      StayPut(w);
      return [], w;
    }
    var s1, w1 := AckRound(w, Other(who));
    ContinuesLive(w, s1, w1);
    var s2, w2 := SendOnce(w1, who, rto);
    ContinuesLive(w1, [s2], w2);
    ContinueOn(w, s1, w1, [s2], w2);
    var s3, w3 := AckRound(w2, Other(who));
    ContinuesLive(w2, s3, w3);
    ContinueOn(w, s1 + [s2], w2, s3, w3);
    var s4, w4 := Flush(w3, who, rto);
    ContinueOn(w, s1 + [s2] + s3, w3, s4, w4);
    return s1 + [s2] + s3 + s4, w4;
  }

  // ---------------------------------------------------------------------------
  // Everything arrives
  // ---------------------------------------------------------------------------

  lemma {:induction false} ReadAllTaken(w: World, who: Who, v: World)
    requires Live(w) && At(w, who).e.rcv.nextRecv == |Peer(w, who).log|
    requires At(v, who).got == At(w, who).got + Pending(At(w, who).e.rcv)
    ensures At(v, who).got == Payloads(Peer(w, who).log)
  {
    hide Live, Pair, Settled, Steady, Pending, Payloads, Matches, Receives;
    var a, b := At(w, who), Peer(w, who);
    LivePair(w, who);
    ReceivesPair(a, b);
    PendingPayloads(a.e.rcv, b.log, b.out, a.got);
    assert b.log[..|b.log|] == b.log;
  }

  // A side whose peer has nothing queued and nothing outstanding that it needs has everything.
  lemma {:induction false} AllTaken(w: World, who: Who)
    requires Live(w) && Peer(w, who).e.snd.sendQueue == map[]
    requires forall k | k in Peer(w, who).e.snd.sendBuf :: k < At(w, who).e.rcv.nextRecv
    ensures At(w, who).e.rcv.nextRecv == |Peer(w, who).log|
  {
    hide Live, Pair, Settled, Steady;
    LivePair(w, who);
    StillNeeded(At(w, who), Peer(w, who));
  }

  // With nothing queued, both applications can read everything that the other has written,
  // although neither side may be able to send.
  lemma {:induction false} ReadSent(w: World) returns (steps: seq<Step>, v: World)
    requires Live(w) && w.client.e.snd.sendQueue == map[] && w.server.e.snd.sendQueue == map[]
    ensures Continues(w, steps, v) && v.client.got == Payloads(w.server.log) && v.server.got == Payloads(w.client.log)
  {
    hide Live, Continues, Payloads, Pending, Pair, Settled, Steady;
    var s1, w1 := TakeSent(w, Client);
    ContinuesLive(w, s1, w1);
    AllTaken(w1, Client);
    var s2, w2 := TakeSent(w1, Server);
    ContinuesLive(w1, s2, w2);
    ContinueOn(w, s1, w1, s2, w2);
    AllTaken(w2, Server);
    var s3, w3 := ReadOut(w2, Client);
    ContinuesLive(w2, [s3], w3);
    ContinueOn(w, s1 + s2, w2, [s3], w3);
    ReadAllTaken(w2, Client, w3);
    var s4, w4 := ReadOut(w3, Server);
    ContinueOn(w, s1 + s2 + [s3], w3, [s4], w4);
    ReadAllTaken(w3, Server, w4);
    return s1 + s2 + [s3] + [s4], w4;
  }

  // Both applications can read everything that the other has written, unless both sides are stuck.
  lemma {:induction false} DeliverAll(w: World, rto: nat) returns (steps: seq<Step>, v: World)
    requires rto >= MIN_RTO && Live(w) && !(Stuck(w.client, w.server) && Stuck(w.server, w.client))
    ensures Continues(w, steps, v) && v.client.got == Payloads(w.server.log) && v.server.got == Payloads(w.client.log)
  {
    hide Live, Continues, Payloads, Stuck;
    var s1, w1 := Settle(w, if Stuck(w.client, w.server) then Server else Client, rto);
    ContinuesLive(w, s1, w1);
    var s2, w2 := Flush(w1, Client, rto);
    ContinuesLive(w1, s2, w2);
    ContinueOn(w, s1, w1, s2, w2);
    var s3, w3 := Flush(w2, Server, rto);
    ContinuesLive(w2, s3, w3);
    ContinueOn(w, s1 + s2, w2, s3, w3);
    var s4, w4 := ReadSent(w3);
    ContinueOn(w, s1 + s2 + s3, w3, s4, w4);
    return s1 + s2 + s3 + s4, w4;
  }
}

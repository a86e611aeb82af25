/** The opening of a session: who sends what before and after the open response. */
module Handshake {
  import opened Bytes
  import opened Protocols
  import opened Segments
  import opened Endpoints
  import opened Transport

  // What a side numbers: the client first one open request and then only data, the server
  // data and at most one open response, which it queues when it becomes established.
  ghost predicate LogShape(e: Endpoint, log: seq<Packet>) {
    if e.isClient then
      && (e.openSent <==> log != [])
      && (forall i | 0 <= i < |log| :: log[i].protocol.OpenSessionRequest? <==> i == 0)
      && (forall i | 0 <= i < |log| :: Accepts(false, log[i].protocol) && (i > 0 ==> IsDataProtocol(log[i].protocol)))
    else
      && (forall i | 0 <= i < |log| :: Accepts(true, log[i].protocol))
      && (forall i, j | 0 <= i < j < |log| :: log[i].protocol.OpenSessionResponse? ==> !log[j].protocol.OpenSessionResponse?)
      && (e.state == ATTACHED ==> forall i | 0 <= i < |log| :: !log[i].protocol.OpenSessionResponse?)
  }

  ghost predicate OnlyOpenRequests(t: Tree) {
    forall k | k in t :: t[k].pkt.protocol.OpenSessionRequest?
  }

  // What a side sends: packets its peer accepts, and only open requests while the client
  // waits for the open response.
  ghost predicate OutShape(e: Endpoint, out: set<Packet>) {
    && (forall p | p in out :: Accepts(!e.isClient, p.protocol))
    && (Opening(e) ==> OnlyOpenRequests(e.snd.sendBuf) && forall p | p in out :: p.protocol.OpenSessionRequest?)
  }

  // A server that has not answered yet has taken nothing in, and the open request that
  // registered it is the first packet it will see.
  ghost predicate Waiting(a: Side) {
    && a.chan != [] && a.chan[0].protocol.OpenSessionRequest?
    && a.e.rcv.recvBuf == map[] && a.e.rcv.recvQueue == map[]
  }

  ghost predicate Agreed(w: World) {
    && w.client.e.isClient && !w.server.e.isClient
    && w.client.e.state in {ATTACHED, ESTABLISHED} && w.server.e.state in {ATTACHED, ESTABLISHED}
    && (w.client.e.state == ESTABLISHED ==> w.registered)
    && (!w.registered ==> w.server.out == {} && w.server.e.state == ATTACHED && w.server.e.rcv.recvBuf == map[] && w.server.e.rcv.recvQueue == map[] && w.server.chan == [])
    && (w.registered && w.server.e.state == ATTACHED ==> Waiting(w.server))
  }

  ghost predicate Opened(w: World) {
    && Agreed(w)
    && LogShape(w.client.e, w.client.log) && LogShape(w.server.e, w.server.log)
    && OutShape(w.client.e, w.client.out) && OutShape(w.server.e, w.server.out)
  }

  lemma {:induction false} InitOpened(cm: int, cl: int, sm: int, sl: int)
    ensures Opened(Init(cm, cl, sm, sl))
  {}

  // ---------------------------------------------------------------------------
  // Writing
  // ---------------------------------------------------------------------------

  lemma {:induction false} AppendData(e: Endpoint, f: Endpoint, log: seq<Packet>, p: Packet)
    requires LogShape(e, log) && f.isClient == e.isClient && f.openSent == e.openSent && f.state == e.state
    requires e.isClient ==> e.openSent
    requires Accepts(!e.isClient, p.protocol) && IsDataProtocol(p.protocol)
    ensures LogShape(f, log + [p])
  {}

  lemma {:induction false} DataIsAccepted(e: Endpoint)
    ensures Accepts(!e.isClient, DataProtocol(e)) && IsDataProtocol(DataProtocol(e))
  {}

  lemma {:induction false} QueuePartsShape(a: Side, parts: seq<seq<byte>>, n: nat)
    requires n <= |parts| && LogShape(a.e, a.log) && (a.e.isClient ==> a.e.openSent)
    ensures var c := SideQueueParts(a, parts, n);
      && LogShape(c.e, c.log) && c.e == a.e.(snd := c.e.snd) && c.e.snd.sendBuf == a.e.snd.sendBuf
      && c.out == a.out && c.chan == a.chan
    decreases n
  {
    hide LogShape, SendMode, ReceiveWindow, IsDataProtocol, Accepts;
    if n > 0 {
      var p := DataPacket(a.e, parts[0], |parts| - 1);
      DataIsAccepted(a.e);
      AppendData(a.e, SideEnqueue(a, p).e, a.log, p);
      QueuePartsShape(SideEnqueue(a, p), parts[1..], n - 1);
    }
  }

  // ---------------------------------------------------------------------------
  // Sending
  // ---------------------------------------------------------------------------

  // A transmission keeps the protocol of the segment, and the log accepts it.
  lemma {:induction false} FiledIsAccepted(e: Endpoint, log: seq<Packet>, t: Tree, k: nat, now: int, rto: nat, nextRecv: nat)
    requires LogShape(e, log) && Files(t, log) && k in t
    ensures Accepts(!e.isClient, t[k].pkt.protocol)
    ensures e.isClient ==> (t[k].pkt.protocol.OpenSessionRequest? || IsDataProtocol(t[k].pkt.protocol))
    ensures Transmit(t[k], now, rto, nextRecv).pkt.protocol == Resent(t[k], now, rto, nextRecv).pkt.protocol == t[k].pkt.protocol
  {
    hide TxTimeout, IsDataAckProtocol, Due;
    assert t[k].pkt.protocol == log[t[k].pkt.seqNo].protocol;
  }

  lemma {:induction false} ResendShape(e: Endpoint, out: set<Packet>, now: int, rto: nat, nextTX: int, log: seq<Packet>)
    requires OutShape(e, out) && Files(e.snd.sendBuf, log) && LogShape(e, log)
    ensures OutShape(e.(snd := ResendAll(e.snd, now, rto, e.rcv.nextRecv, nextTX)),
                     out + ResentPackets(e.snd.sendBuf, now, rto, e.rcv.nextRecv, UINT32))
  {
    hide Accepts, Resent, Transmit, LogShape, Files;
    var t := e.snd.sendBuf;
    forall k | k in t
      ensures Accepts(!e.isClient, Resent(t[k], now, rto, e.rcv.nextRecv).pkt.protocol)
      ensures Resent(t[k], now, rto, e.rcv.nextRecv).pkt.protocol == t[k].pkt.protocol
    {
      FiledIsAccepted(e, log, t, k, now, rto, e.rcv.nextRecv);
    }
  }

  // While the client is opening, the segment it may send is the open request.
  lemma {:induction false} SendShape(e: Endpoint, out: set<Packet>, now: int, rto: nat, log: seq<Packet>)
    requires OutShape(e, out) && Sending(e.snd, log, out) && LogShape(e, log)
    requires e.snd.sendQueue != map[] && !DeferData(e)
    ensures OutShape(e.(snd := SendNew(e.snd, now, rto, e.rcv.nextRecv)),
                     out + {NextToSend(e.snd, now, rto, e.rcv.nextRecv).pkt})
  {
    hide Accepts, Resent, Transmit, LogShape, Files, Sending, IsDataProtocol;
    SendingFacts(e.snd, log, out);
    FiledIsAccepted(e, log, e.snd.sendQueue, MinKey(e.snd.sendQueue), now, rto, e.rcv.nextRecv);
  }

  lemma {:induction false} AckShape(e: Endpoint, out: set<Packet>, now: int)
    requires OutShape(e, out) && !Opening(e)
    ensures OutShape(SendAck(e, now), out + {AckPacket(e)})
  {
    hide ReceiveWindow;
  }

  // ---------------------------------------------------------------------------
  // Input
  // ---------------------------------------------------------------------------

  // Input drops segments from sendBuf or counts an acknowledgement, so what is left is no
  // more than what was there.
  lemma {:induction false} DropOnlyOpen(t: Tree, u: nat)
    requires OnlyOpenRequests(t)
    ensures OnlyOpenRequests(DropAcked(t, u)) && OnlyOpenRequests(CountAck(DropAcked(t, u), u))
  {}

  lemma {:induction false} InputOutShape(e: Endpoint, out: set<Packet>, p: Packet, now: int)
    requires OutShape(e, out)
    ensures OutShape(Endpoints.Input(e, p, now), out)
  {
    hide Accepts, DropAcked, CountAck, Accept, Enqueue, OnlyOpenRequests;
    if Opening(e) {
      DropOnlyOpen(e.snd.sendBuf, p.unAckSeq);
    }
    InputFrame(e, p, now);
  }

  // What an input step may change besides the receiving half.
  lemma {:induction false} InputFrame(e: Endpoint, p: Packet, now: int)
    ensures var f := Endpoints.Input(e, p, now);
      && f.isClient == e.isClient && f.openSent == e.openSent
      && f.state == (if Responds(e, p) || (Opening(e) && p.protocol.OpenSessionResponse?) then ESTABLISHED else e.state)
      && (f.snd.sendBuf == e.snd.sendBuf || f.snd.sendBuf == DropAcked(e.snd.sendBuf, p.unAckSeq)
          || f.snd.sendBuf == CountAck(DropAcked(e.snd.sendBuf, p.unAckSeq), p.unAckSeq))
  {
    hide DropAcked, CountAck, Receive, AddOne, TakeAck;
    if IsAckProtocol(p.protocol) {
      InputAckShape(e, p);
    } else {
      var g := NoteLowEntropy(e, p);
      ReceiveFrame(g, p, now);
      TakeAckShape(g, p);
    }
  }

  lemma {:induction false} TakeAckShape(e: Endpoint, p: Packet)
    ensures TakeAck(e, p).snd.sendBuf == e.snd.sendBuf || TakeAck(e, p).snd.sendBuf == DropAcked(e.snd.sendBuf, p.unAckSeq)
  {
    hide DropAcked;
  }

  lemma {:induction false} InputAckShape(e: Endpoint, p: Packet)
    requires IsAckProtocol(p.protocol)
    ensures var f := InputAck(e, p);
      && f.isClient == e.isClient && f.openSent == e.openSent && f.state == e.state
      && f.snd.sendBuf == CountAck(DropAcked(e.snd.sendBuf, p.unAckSeq), p.unAckSeq)
  {
    hide DropAcked, CountAck;
  }

  // ---------------------------------------------------------------------------
  // Every step
  // ---------------------------------------------------------------------------

  lemma {:induction false} WithOpened(w: World, who: Who, c: Side)
    requires Opened(w) && Alive(w, who) && c.chan == At(w, who).chan && c.e.rcv == At(w, who).e.rcv
    requires c.e.isClient == At(w, who).e.isClient && c.e.state == At(w, who).e.state
    requires LogShape(c.e, c.log) && OutShape(c.e, c.out)
    ensures Opened(With(w, who, c))
  {
    hide LogShape, OutShape;
  }

  lemma {:induction false} OpenKeepsOpened(w: World, b: seq<byte>)
    requires Opened(w) && Enabled(w, OpenStep(b))
    ensures Opened(Apply(w, OpenStep(b)))
  {
    hide OpenPayload, AddOne;
    var c := SideWriteOpen(w.client, b);
    assert c.log == [OpenRequest(w.client.e, b)];
    WithOpened(w, Client, c);
  }

  lemma {:induction false} WriteKeepsOpened(w: World, who: Who, b: seq<byte>, stop: nat)
    requires Opened(w) && Enabled(w, WriteStep(who, b, stop))
    ensures Opened(Apply(w, WriteStep(who, b, stop)))
  {
    hide LogShape, PartsOf, Accepts;
    var a := At(w, who);
    QueuePartsShape(a, PartsOf(a.e, b), stop);
    WithOpened(w, who, SideQueueParts(a, PartsOf(a.e, b), stop));
  }

  lemma {:induction false} ResendKeepsOpened(w: World, who: Who, now: int, rto: nat, nextTX: int)
    requires Opened(w) && Own(At(w, who)) && Enabled(w, ResendStep(who, now, rto, nextTX))
    ensures Opened(Apply(w, ResendStep(who, now, rto, nextTX)))
  {
    hide LogShape, OutShape, Sending, Files, ResendTree, ResentPackets, EarliestDeadline, NoneExhausted, Receiving;
    var a := At(w, who);
    SendingFacts(a.e.snd, a.log, a.out);
    ResendShape(a.e, a.out, now, rto, nextTX, a.log);
    var c := SideResend(a, now, rto, nextTX);
    SameLogShape(a.e, c.e, a.log);
    WithOpened(w, who, c);
  }

  lemma {:induction false} SameLogShape(e: Endpoint, f: Endpoint, log: seq<Packet>)
    requires LogShape(e, log) && f.isClient == e.isClient && f.openSent == e.openSent && (e.isClient || f.state == e.state)
    ensures LogShape(f, log)
  {}

  lemma {:induction false} SendKeepsOpened(w: World, who: Who, now: int, rto: nat, cwnd: nat, sent: nat)
    requires Opened(w) && Own(At(w, who)) && Enabled(w, SendStep(who, now, rto, cwnd, sent))
    ensures Opened(Apply(w, SendStep(who, now, rto, cwnd, sent)))
  {
    hide LogShape, OutShape, Sending, SendNew, NextToSend, DeferData, Receiving;
    var a := At(w, who);
    SendShape(a.e, a.out, now, rto, a.log);
    var c := SideSendNew(a, now, rto);
    SameLogShape(a.e, c.e, a.log);
    WithOpened(w, who, c);
  }

  lemma {:induction false} AckKeepsOpened(w: World, who: Who, now: int, jitter: int)
    requires Opened(w) && Enabled(w, AckStep(who, now, jitter))
    ensures Opened(Apply(w, AckStep(who, now, jitter)))
  {
    hide LogShape, OutShape;
    var a := At(w, who);
    AckShape(a.e, a.out, now);
    SameLogShape(a.e, SideSendAck(a, now).e, a.log);
    WithOpened(w, who, SideSendAck(a, now));
  }

  lemma {:induction false} ReadFrame(r: Receiver, n: nat)
    ensures ReadRest(r, n).recvBuf == r.recvBuf
    ensures r.recvQueue == map[] ==> ReadRest(r, n).recvQueue == map[] && !ReadsResponse(r, n)
    decreases |r.recvQueue|
  {
    hide MinKey;
    if !ReadStops(r, n) && n > 0 {
      PopFrame(r);
      ReadFrame(PopQueue(r), n - |r.unreadBuf|);
    }
  }

  lemma {:induction false} ReadKeepsOpened(w: World, who: Who, n: nat)
    requires Opened(w) && Pair(w.client, w.server) && Enabled(w, ReadStep(who, n))
    ensures Opened(Apply(w, ReadStep(who, n)))
  {
    hide LogShape, OutShape, Pair, ReadRest, ReadsResponse, Taken;
    var a := At(w, who);
    var c := SideRead(a, n);
    ReadFrame(a.e.rcv, n);
    SameLogShape(a.e, c.e, a.log);
    EstablishedOutShape(a.e, c.e, a.out);
    if who.Client? && !w.registered {
      NothingReceived(w.client, w.server);
    }
  }

  lemma {:induction false} EstablishedOutShape(e: Endpoint, f: Endpoint, out: set<Packet>)
    requires OutShape(e, out) && f.isClient == e.isClient && f.snd == e.snd && (f.state == e.state || f.state == ESTABLISHED)
    ensures OutShape(f, out)
  {
    hide Accepts;
  }

  // A side whose peer sent nothing has nothing to read.
  lemma {:induction false} NothingReceived(a: Side, b: Side)
    requires Pair(a, b) && b.out == {}
    ensures a.e.rcv.recvQueue == map[]
  {
    hide Own, Delivered, NoLoss;
    NoneSent(a.e.rcv.recvQueue);
  }

  lemma {:induction false} NoneSent(t: Tree)
    requires SentTo(t, {})
    ensures t == map[]
  {
    if t != map[] {
      var k := MinKey(t);
      assert false;
    }
  }

  lemma {:induction false} DispatchKeepsOpened(w: World, who: Who, p: Packet, now: int)
    requires Opened(w) && Enabled(w, DispatchStep(who, p, now))
    ensures Opened(Apply(w, DispatchStep(who, p, now)))
    ensures DispatchTo(w, who, p, now).Some?
  {
    hide LogShape, Accepts, OnlyOpenRequests;
    SameLogShape(w.server.e, SideCreated(w.server, now).e, w.server.log);
  }

  lemma {:induction false} InputKeepsOpened(w: World, who: Who, now: int)
    requires Opened(w) && Pair(w.client, w.server) && Enabled(w, InputStep(who, now))
    ensures Opened(Apply(w, InputStep(who, now)))
    ensures Accepts(At(w, who).e.isClient, At(w, who).chan[0].protocol)
  {
    hide LogShape, OutShape, Pair, Endpoints.Input, Responds;
    var a := At(w, who);
    var p := a.chan[0];
    InputFrame(a.e, p, now);
    InputOutShape(a.e, a.out, p, now);
    InFlight(w, who);
    InputLogShape(a.e, Endpoints.Input(a.e, p, now), a.log, p);
    if who.Server? && a.e.state == ATTACHED {
      FirstInputResponds(a);
    }
  }

  // What waits in the input channel was sent by the peer, so it is accepted, and a client
  // that has something waiting talks to a registered session.
  lemma {:induction false} InFlight(w: World, who: Who)
    requires Opened(w) && Pair(w.client, w.server) && At(w, who).chan != []
    ensures Accepts(At(w, who).e.isClient, At(w, who).chan[0].protocol) && w.registered
  {
    hide LogShape, Own, SentTo, Delivered, NoLoss, Accepts, OnlyOpenRequests, Waiting;
    assert At(w, who).chan[0] in Peer(w, who).out;
  }

  lemma {:induction false} FirstInputResponds(a: Side)
    requires !a.e.isClient && a.e.state == ATTACHED && Waiting(a)
    ensures Responds(a.e, a.chan[0])
  {}

  lemma {:induction false} InputLogShape(e: Endpoint, f: Endpoint, log: seq<Packet>, p: Packet)
    requires LogShape(e, log) && f.isClient == e.isClient && f.openSent == e.openSent
    requires f.state == (if Responds(e, p) || (Opening(e) && p.protocol.OpenSessionResponse?) then ESTABLISHED else e.state)
    ensures LogShape(f, if Responds(e, p) then log + [OpenResponse(e)] else log)
  {
    hide Dropped;
  }

  lemma {:induction false} StepKeepsOpened(w: World, st: Step)
    requires Opened(w) && Pair(w.client, w.server) && Enabled(w, st)
    ensures Opened(Apply(w, st))
  {
    hide Opened, Link, Own, Enabled, Apply;
    match st
    case OpenStep(b) => OpenKeepsOpened(w, b);
    case WriteStep(who, b, stop) => WriteKeepsOpened(w, who, b, stop);
    case ReadStep(who, n) => ReadKeepsOpened(w, who, n);
    case ResendStep(who, now, rto, nextTX) => ResendKeepsOpened(w, who, now, rto, nextTX);
    case SendStep(who, now, rto, cwnd, sent) => SendKeepsOpened(w, who, now, rto, cwnd, sent);
    case AckStep(who, now, jitter) => AckKeepsOpened(w, who, now, jitter);
    case DispatchStep(who, p, now) => DispatchKeepsOpened(w, who, p, now);
    case InputStep(who, now) => InputKeepsOpened(w, who, now);
  }
}

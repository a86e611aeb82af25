/** Whether a session can be opened. The client sends nothing but its open request before it
    has the open response, so until then no acknowledgement reaches the server, which can
    transmit only the first 16 segments it has numbered. */
module Openings {
  import opened Bytes
  import opened Protocols
  import opened Segments
  import opened Endpoints
  import opened Transport
  import opened Handshake
  import opened Runs
  import opened Progress

  // ---------------------------------------------------------------------------
  // The number of the open response
  // ---------------------------------------------------------------------------

  // The number of the first open response, or of the next segment when there is none yet.
  function ResponseAt(log: seq<Packet>): (n: nat)
    ensures n <= |log| && (n < |log| ==> log[n].protocol.OpenSessionResponse?)
    ensures forall i | 0 <= i < n :: !log[i].protocol.OpenSessionResponse?
  {
    if log == [] || log[0].protocol.OpenSessionResponse? then 0 else 1 + ResponseAt(log[1..])
  }

  lemma {:induction false} ResponseIs(log: seq<Packet>, n: nat)
    requires n <= |log| && (n < |log| ==> log[n].protocol.OpenSessionResponse?)
    requires forall i | 0 <= i < n :: !log[i].protocol.OpenSessionResponse?
    ensures ResponseAt(log) == n
  {
    hide ResponseAt;
  }

  // A longer log answers at the same place, or later if it had not answered.
  lemma {:induction false} ResponseGrows(log: seq<Packet>, more: seq<Packet>)
    requires log <= more
    ensures ResponseAt(more) >= ResponseAt(log)
    ensures ResponseAt(log) < |log| ==> ResponseAt(more) == ResponseAt(log)
  {
    hide ResponseAt;
    var n, m := ResponseAt(log), ResponseAt(more);
    assert forall i | 0 <= i < |log| :: more[i] == log[i];
    if n < |log| {
      ResponseIs(more, n);
    }
  }

  // ---------------------------------------------------------------------------
  // What every run keeps before the client has its response
  // ---------------------------------------------------------------------------

  // Nothing that the side numbered has been acknowledged, and no window has changed.
  ghost predicate Whole(a: Side) {
    && a.e.remoteWindow == MIN_WINDOW_SIZE
    && NoLoss(a.e.snd, a.log, 0)
    && |a.e.snd.sendBuf| <= MIN_WINDOW_SIZE
    && a.e.rcv.nextRecv <= 1
  }

  ghost predicate Early(w: World) {
    && (Opening(w.client.e) ==> Whole(w.server))
    && (!w.registered ==> w.client.e.remoteWindow == MIN_WINDOW_SIZE && w.server.log == [])
    && (w.client.e.state == ESTABLISHED ==> w.server.e.state == ESTABLISHED)
    && (w.server.e.state == ESTABLISHED ==> ResponseAt(w.server.log) < |w.server.log|)
  }

  ghost predicate Good(w: World) {
    Inv(w) && Extra(w) && Early(w)
  }

  // The numbers below n.
  function Below(n: nat): (r: set<nat>)
    ensures |r| == n && forall i: nat :: i in r <==> i < n
  {
    if n == 0 then {} else Below(n - 1) + {n - 1}
  }

  lemma {:induction false} UnionSize(a: set<nat>, b: set<nat>)
    requires a !! b
    ensures |a + b| == |a| + |b|
  {}

  // With nothing acknowledged, everything is in one of the two trees.
  lemma {:induction false} WholeSize(s: Sender, log: seq<Packet>, out: set<Packet>)
    requires Sending(s, log, out) && NoLoss(s, log, 0)
    ensures |s.sendQueue| + |s.sendBuf| == |log|
  {
    hide Sending, Files, Below;
    SendingFacts(s, log, out);
    FiledBelow(s.sendQueue, log);
    FiledBelow(s.sendBuf, log);
    assert s.sendQueue.Keys + s.sendBuf.Keys == Below(|log|);
    UnionSize(s.sendQueue.Keys, s.sendBuf.Keys);
  }

  lemma {:induction false} FiledBelow(t: Tree, log: seq<Packet>)
    requires Files(t, log)
    ensures forall k | k in t :: k < |log|
  {}

  // ---------------------------------------------------------------------------
  // A response that was sent
  // ---------------------------------------------------------------------------

  lemma {:induction false} SentResponse(w: World, q: Packet)
    requires q in w.server.out && q.protocol.OpenSessionResponse? && Inv(w)
    ensures q.seqNo < |w.server.log| && ResponseAt(w.server.log) == q.seqNo && q.seqNo !in w.server.e.snd.sendQueue
    ensures w.server.e.state == ESTABLISHED
  {
    hide Pair, Settled, Timed, OutShape, ResponseAt, Accepts;
    InvSide(w, Server);
    PairSending(w.server, w.client);
    assert Matches(q, w.server.log);
    ResponseIs(w.server.log, q.seqNo);
  }

  // While the client waits, a response that was sent is among the first 16 segments.
  lemma {:induction false} SentEarly(w: World, q: Packet)
    requires q in w.server.out && q.protocol.OpenSessionResponse? && Opening(w.client.e) && Good(w)
    ensures ResponseAt(w.server.log) == q.seqNo < MIN_WINDOW_SIZE
  {
    hide Inv, ResponseAt;
    SentResponse(w, q);
    TransmittedFirst(w.server.e.snd, w.server.log, w.server.out, q.seqNo);
  }

  lemma {:induction false} TransmittedFirst(s: Sender, log: seq<Packet>, out: set<Packet>, r: nat)
    requires Lined(s, out) && NoLoss(s, log, 0) && r < |log| && r !in s.sendQueue
    ensures r < |s.sendBuf|
  {
    hide SentTo;
    hide Below;
    assert r in s.sendBuf;
    assert Below(r + 1) <= s.sendBuf.Keys;
    SubsetSize(Below(r + 1), s.sendBuf.Keys);
  }

  // ---------------------------------------------------------------------------
  // Every step keeps it
  // ---------------------------------------------------------------------------

  lemma {:induction false} QueuePartsNoLoss(a: Side, parts: seq<seq<byte>>, n: nat)
    requires n <= |parts| && a.e.snd.nextSend == |a.log| && |a.log| + n < UINT32 && NoLoss(a.e.snd, a.log, 0)
    ensures var c := SideQueueParts(a, parts, n); NoLoss(c.e.snd, c.log, 0) && a.log <= c.log && |c.log| == |a.log| + n
    ensures forall i | |a.log| <= i < |a.log| + n :: IsDataProtocol(SideQueueParts(a, parts, n).log[i].protocol)
    decreases n
  {
    hide NoLoss, SendMode, ReceiveWindow, IsDataProtocol;
    if n > 0 {
      var p := DataPacket(a.e, parts[0], |parts| - 1);
      DataIsAccepted(a.e);
      EnqueueNoLoss(a.e.snd, a.log, p, 0);
      AddOneSmall(a.e.snd.nextSend);
      QueuePartsNoLoss(SideEnqueue(a, p), parts[1..], n - 1);
    }
  }

  // A step of the client, which may become established once the server is.
  lemma {:induction false} ClientEarly(w: World, c: Side)
    requires Early(w) && c.e.isClient == w.client.e.isClient
    requires !w.registered ==> c.e.remoteWindow == w.client.e.remoteWindow
    requires c.e.state == w.client.e.state || (c.e.state == ESTABLISHED && w.server.e.state == ESTABLISHED)
    ensures Early(w.(client := c))
  {
    hide Whole, ResponseAt;
  }

  // A step of the server.
  lemma {:induction false} ServerEarly(w: World, c: Side)
    requires Early(w) && w.registered
    requires Opening(w.client.e) ==> Whole(c)
    requires w.server.e.state == ESTABLISHED ==> c.e.state == ESTABLISHED
    requires c.e.state == ESTABLISHED ==> ResponseAt(c.log) < |c.log|
    ensures Early(w.(server := c))
  {
    hide Whole, ResponseAt;
  }

  lemma {:induction false} SameLogEarly(w: World, c: Side)
    requires Early(w) && w.registered && c.log == w.server.log && c.e.state == w.server.e.state
    requires Opening(w.client.e) ==> Whole(c)
    ensures Early(w.(server := c))
  {
    hide Whole, ResponseAt;
    ServerEarly(w, c);
  }

  lemma {:induction false} WriteEarly(w: World, who: Who, b: seq<byte>, stop: nat)
    requires Enabled(w, WriteStep(who, b, stop)) && Good(w)
    ensures Early(Apply(w, WriteStep(who, b, stop)))
  {
    hide Inv, Extra, Early, SideQueueParts, PartsOf;
    var a := At(w, who);
    var parts := PartsOf(a.e, b);
    InvPair(w, who);
    QueuePartsShape(a, parts, stop);
    if who.Client? {
      ClientEarly(w, SideQueueParts(a, parts, stop));
    } else {
      ServerWriteEarly(w, parts, stop);
    }
  }

  lemma {:induction false} ServerWriteEarly(w: World, parts: seq<seq<byte>>, n: nat)
    requires n <= |parts| && w.registered && |w.server.log| + n < UINT32 && Good(w)
    ensures Early(w.(server := SideQueueParts(w.server, parts, n)))
  {
    hide Inv, Extra, Early, NoLoss, SideQueueParts, ResponseAt, LogShape, Sending, Pair;
    EarlyAnswered(w);
    var a, c := w.server, SideQueueParts(w.server, parts, n);
    InvPair(w, Server);
    InvNumbers(w, Server);
    QueuePartsShape(a, parts, n);
    QueuePartsGrows(a, parts, n);
    ResponseGrows(a.log, c.log);
    if Opening(w.client.e) {
      EarlyWhole(w);
      QueuePartsNoLoss(a, parts, n);
    }
    ServerEarly(w, c);
  }

  lemma {:induction false} QueuePartsGrows(a: Side, parts: seq<seq<byte>>, n: nat)
    requires n <= |parts|
    ensures a.log <= SideQueueParts(a, parts, n).log
    decreases n
  {
    hide DataPacket, Enqueue;
    if n > 0 {
      QueuePartsGrows(SideEnqueue(a, DataPacket(a.e, parts[0], |parts| - 1)), parts[1..], n - 1);
    }
  }

  lemma {:induction false} InvNumbers(w: World, who: Who)
    requires Inv(w)
    ensures At(w, who).e.snd.nextSend == |At(w, who).log| < UINT32 && Sending(At(w, who).e.snd, At(w, who).log, At(w, who).out)
  {
    hide Pair, Opened, Settled, Timed, Sending;
    InvSide(w, who);
    PairSending(At(w, who), Peer(w, who));
    PairNumbers(At(w, who), Peer(w, who));
  }

  // The server sends only while fewer than 16 segments are outstanding.
  lemma {:induction false} SendEarly(w: World, who: Who, now: int, rto: nat, cwnd: nat, sent: nat)
    requires Enabled(w, SendStep(who, now, rto, cwnd, sent)) && Good(w)
    ensures Early(Apply(w, SendStep(who, now, rto, cwnd, sent)))
  {
    hide Inv, Extra, Early, Sending, NextToSend, SendNew, DeferData;
    var a := At(w, who);
    InvNumbers(w, who);
    if who.Client? {
      ClientEarly(w, SideSendNew(a, now, rto));
    } else {
      if Opening(w.client.e) {
        EarlyWhole(w);
        SendWhole(a, now, rto, cwnd, sent);
      }
      SameLogEarly(w, SideSendNew(a, now, rto));
    }
  }

  lemma {:induction false} EarlyWhole(w: World)
    requires Opening(w.client.e) && Early(w)
    ensures Whole(w.server)
  {
    hide Whole;
  }

  lemma {:induction false} SendWhole(a: Side, now: int, rto: nat, cwnd: nat, sent: nat)
    requires Whole(a) && Sending(a.e.snd, a.log, a.out) && CongestionWindow(a, cwnd) && CanSendNew(a.e, cwnd, sent)
    ensures Whole(SideSendNew(a, now, rto))
  {
    hide NoLoss, Sending, NextToSend, SendNew, DeferData;
    WholeSize(a.e.snd, a.log, a.out);
    SendNewSending(a.e.snd, a.log, a.out, now, rto, a.e.rcv.nextRecv);
    SendNewNoLoss(a.e.snd, a.log, now, rto, a.e.rcv.nextRecv, 0);
  }

  lemma {:induction false} ResendEarly(w: World, who: Who, now: int, rto: nat, nextTX: int)
    requires Enabled(w, ResendStep(who, now, rto, nextTX)) && Good(w)
    ensures Early(Apply(w, ResendStep(who, now, rto, nextTX)))
  {
    hide Inv, Extra, Early, ResendTree, ResentPackets, EarliestDeadline, NoneExhausted, NoneDue, Whole;
    var a := At(w, who);
    if who.Client? {
      ClientEarly(w, SideResend(a, now, rto, nextTX));
    } else {
      if Opening(w.client.e) {
        EarlyWhole(w);
        ResendWhole(a, now, rto, nextTX);
      }
      SameLogEarly(w, SideResend(a, now, rto, nextTX));
    }
  }

  lemma {:induction false} ResendWhole(a: Side, now: int, rto: nat, nextTX: int)
    requires Whole(a)
    ensures Whole(SideResend(a, now, rto, nextTX))
  {
    hide ResentPackets, Resent, NoneDue;
    assert ResendTree(a.e.snd.sendBuf, now, rto, a.e.rcv.nextRecv, UINT32).Keys == a.e.snd.sendBuf.Keys;
  }

  // A side that becomes established by reading has an open response to read.
  lemma {:induction false} ReadFinds(r: Receiver, n: nat) returns (k: nat)
    requires ReadsResponse(r, n)
    ensures k in r.recvQueue && r.recvQueue[k].pkt.protocol.OpenSessionResponse?
    decreases |r.recvQueue|
  {
    k := MinKey(r.recvQueue);
    if !r.recvQueue[k].pkt.protocol.OpenSessionResponse? {
      PopFrame(r);
      k := ReadFinds(PopQueue(r), n - |r.unreadBuf|);
    }
  }

  lemma {:induction false} ReadEarly(w: World, who: Who, n: nat)
    requires Enabled(w, ReadStep(who, n)) && Good(w)
    ensures Early(Apply(w, ReadStep(who, n)))
  {
    hide Inv, Extra, Early, NoLoss, ReadsResponse, ReadRest, Taken, Holds;
    var a := At(w, who);
    ReadKeepsNext(a.e, n);
    InvClient(w);
    if who.Client? {
      if ReadsResponse(a.e.rcv, n) {
        ReadNeedsAnswer(w, n);
      }
      ClientEarly(w, SideRead(a, n));
    } else {
      if Opening(w.client.e) {
        EarlyWhole(w);
      }
      SameLogEarly(w, SideRead(a, n));
    }
  }

  lemma {:induction false} ReadNeedsAnswer(w: World, n: nat)
    requires ReadsResponse(w.client.e.rcv, n) && Inv(w)
    ensures w.server.e.state == ESTABLISHED
    ensures exists q :: q in w.server.out && q.protocol.OpenSessionResponse?
  {
    hide Inv;
    var k := ReadFinds(w.client.e.rcv, n);
    InvHolds(w, Client);
    SentResponse(w, w.client.e.rcv.recvQueue[k].pkt);
  }

  lemma {:induction false} InvClient(w: World)
    requires Inv(w)
    ensures w.client.e.isClient && !w.server.e.isClient
  {
    hide Pair, Settled, Timed, LogShape, OutShape;
  }

  lemma {:induction false} InvHolds(w: World, who: Who)
    requires Inv(w)
    ensures Holds(Peer(w, who), At(w, who))
  {
    hide Opened, Settled, Timed, Own, Holds, NoLoss, Delivered;
    InvSide(w, who);
  }

  // ---------------------------------------------------------------------------
  // Input
  // ---------------------------------------------------------------------------

  // Copies of the open request move nothing but number 0.
  lemma {:induction false} MoveOnlyZero(r: Receiver)
    requires r.recvBuf.Keys == {0} && r.nextRecv <= 1 && !IsDataAckProtocol(r.recvBuf[0].pkt.protocol)
    ensures MoveAll(r).nextRecv <= 1
    ensures forall n :: WindowAfter(r, n) == n
  {
    hide IsDataAckProtocol;
    assert MinKey(r.recvBuf) == 0;
    if CanMove(r) {
      MoveOneShrinks(r);
      assert MoveOne(r).recvBuf == map[];
    }
  }

  // What a server does with an open request.
  lemma {:induction false} RequestEffects(e: Endpoint, p: Packet, now: int)
    requires p.protocol.OpenSessionRequest? && p.seqNo == 0 && e.rcv.recvBuf.Keys <= {0} && e.rcv.nextRecv <= 1 && !e.isClient
    ensures
      (var f := Endpoints.Input(e, p, now);
       && f.rcv.nextRecv <= 1 && f.remoteWindow == e.remoteWindow && f.snd.sendBuf == e.snd.sendBuf
       && f.snd == (if Responds(e, p) then Enqueue(e.snd, OpenResponse(e)) else e.snd))
  {
    hide MoveAll, WindowAfter, Enqueue, Dropped;
    MoveOnlyZero(Filed(e.rcv, p));
    EnqueueFrame(e.snd, OpenResponse(e));
  }

  // While the client waits, the server has been sent nothing but its open request.
  lemma {:induction false} OnlyRequests(w: World)
    requires w.server.chan != [] && Opening(w.client.e) && Inv(w)
    ensures w.server.chan[0].protocol.OpenSessionRequest? && w.server.chan[0].seqNo == 0
    ensures w.server.e.rcv.recvBuf.Keys <= {0}
  {
    hide Own, Settled, Timed, Delivered, NoLoss, Accepts, Pair, LogShape;
    InvSide(w, Server);
    InvPair(w, Client);
    InvHolds(w, Server);
    var p := w.server.chan[0];
    assert p in w.client.out;
    OpenIsZero(w.client, w.server, p);
    forall k | k in w.server.e.rcv.recvBuf
      ensures k == 0
    {
      var q := w.server.e.rcv.recvBuf[k].pkt;
      assert q in w.client.out;
      OpenIsZero(w.client, w.server, q);
      PairOwn(w.server, w.client);
      RecvKeyed(w.server, k);
    }
  }

  lemma {:induction false} PairOwn(a: Side, b: Side)
    requires Pair(a, b)
    ensures Own(a)
  {
    hide Own, Link;
  }

  lemma {:induction false} ServerInputEarly(w: World, now: int)
    requires w.server.chan != [] && w.registered && Good(w)
    ensures Early(w.(server := SideInput(w.server, now)))
  {
    hide Inv, Extra, Early, Whole, ResponseAt, Endpoints.Input, Responds;
    var a := w.server;
    var p := a.chan[0];
    InvPair(w, Server);
    InputFrame(a.e, p, now);
    if Opening(w.client.e) {
      InputWhole(w, now);
    }
    if Responds(a.e, p) {
      Answers(w, p);
    } else {
      EarlyAnswered(w);
    }
    ServerEarly(w, SideInput(a, now));
  }

  lemma {:induction false} EarlyAnswered(w: World)
    requires Early(w)
    ensures w.server.e.state == ESTABLISHED ==> ResponseAt(w.server.log) < |w.server.log|
  {
    hide Whole, ResponseAt;
  }

  lemma {:induction false} InputWhole(w: World, now: int)
    requires w.server.chan != [] && Opening(w.client.e) && Good(w)
    ensures Whole(SideInput(w.server, now))
  {
    hide Inv, Extra, ResponseAt, NoLoss, Endpoints.Input, Responds, Enqueue;
    var a := w.server;
    InvPair(w, Server);
    InvNumbers(w, Server);
    OnlyRequests(w);
    RequestEffects(a.e, a.chan[0], now);
    EnqueueNoLoss(a.e.snd, a.log, OpenResponse(a.e), 0);
  }

  // The answer is the first open response.
  lemma {:induction false} Answers(w: World, p: Packet)
    requires Responds(w.server.e, p) && Inv(w)
    ensures ResponseAt(w.server.log + [OpenResponse(w.server.e)]) == |w.server.log| == ResponseAt(w.server.log)
  {
    hide Pair, Settled, Timed, OutShape, ResponseAt, Accepts;
    ResponseIs(w.server.log, |w.server.log|);
    ResponseIs(w.server.log + [OpenResponse(w.server.e)], |w.server.log|);
  }

  lemma {:induction false} ClientInputEarly(w: World, now: int)
    requires w.client.chan != [] && Good(w)
    ensures Early(w.(client := SideInput(w.client, now)))
  {
    hide Inv, Extra, Early, ResponseAt, Endpoints.Input, Responds;
    var a := w.client;
    InputFrame(a.e, a.chan[0], now);
    InvPair(w, Client);
    InvFlight(w, Client);
    if Opening(a.e) && a.chan[0].protocol.OpenSessionResponse? {
      SentResponse(w, a.chan[0]);
    }
    ClientNeverResponds(a.e, a.chan[0]);
    ClientEarly(w, SideInput(a, now));
  }

  lemma {:induction false} ClientNeverResponds(e: Endpoint, p: Packet)
    requires e.isClient
    ensures !Responds(e, p)
  {}

  lemma {:induction false} InvFlight(w: World, who: Who)
    requires At(w, who).chan != [] && Inv(w)
    ensures w.registered && At(w, who).chan[0] in Peer(w, who).out
  {
    hide Opened, Pair, Settled, Timed;
    InFlight(w, who);
    InvHolds(w, who);
  }

  lemma {:induction false} InputEarly(w: World, who: Who, now: int)
    requires Enabled(w, InputStep(who, now)) && Good(w)
    ensures Early(Apply(w, InputStep(who, now)))
  {
    hide Good, Early, SideInput;
    if who.Client? {
      ClientInputEarly(w, now);
    } else {
      ServerInputEarly(w, now);
    }
  }

  lemma {:induction false} StepEarly(w: World, st: Step)
    requires Enabled(w, st) && Good(w)
    ensures Early(Apply(w, st))
  {
    hide Enabled, Apply, Good, Early;
    match st
    case WriteStep(who, b, stop) => WriteEarly(w, who, b, stop);
    case SendStep(who, now, rto, cwnd, sent) => SendEarly(w, who, now, rto, cwnd, sent);
    case ResendStep(who, now, rto, nextTX) => ResendEarly(w, who, now, rto, nextTX);
    case ReadStep(who, n) => ReadEarly(w, who, n);
    case InputStep(who, now) => InputEarly(w, who, now);
    case _ => OtherEarly(w, st);
  }

  lemma {:induction false} OtherEarly(w: World, st: Step)
    requires (st.OpenStep? || st.AckStep? || st.DispatchStep?) && Enabled(w, st) && Good(w)
    ensures Early(Apply(w, st))
  {
    hide Inv, Extra, ResponseAt, AckPacket, AckDue, OpenPayload, Enqueue;
  }

  lemma {:induction false} StepGood(w: World, st: Step)
    requires Enabled(w, st) && Good(w)
    ensures Good(Apply(w, st))
  {
    hide Enabled, Apply, Inv, Extra, Early;
    StepKeeps(w, st);
    StepExtra(w, st);
    StepEarly(w, st);
  }

  lemma {:induction false} InitGood(cm: int, cl: int, sm: int, sl: int)
    ensures Good(Init(cm, cl, sm, sl))
  {
    hide Inv, Extra;
    InitInv(cm, cl, sm, sl);
    InitExtra(cm, cl, sm, sl);
  }

  lemma {:induction false} RunGood(ws: seq<World>, steps: seq<Step>, cm: int, cl: int, sm: int, sl: int, i: nat)
    requires IsRun(ws, steps, cm, cl, sm, sl) && i < |ws|
    ensures Good(ws[i])
  {
    hide Good, Enabled, Apply, Init;
    if i == 0 {
      InitGood(cm, cl, sm, sl);
    } else {
      RunGood(ws, steps, cm, cl, sm, sl, i - 1);
      StepGood(ws[i - 1], steps[i - 1]);
    }
  }

  lemma {:induction false} LaterGood(w: World, time: int)
    requires Good(w)
    ensures Good(Later(w, time))
  {
    hide Inv, Extra, ResponseAt, NoLoss;
    LaterInv(w, time);
  }

  // ---------------------------------------------------------------------------
  // An opening that cannot complete
  // ---------------------------------------------------------------------------

  // The client waits for an open response that is not among the first 16 segments.
  predicate Late(w: World) {
    Opening(w.client.e) && ResponseAt(w.server.log) >= MIN_WINDOW_SIZE
  }

  lemma {:induction false} NoAnswerSent(w: World)
    requires Late(w) && Good(w)
    ensures forall q | q in w.server.out :: !q.protocol.OpenSessionResponse?
  {
    hide Good, ResponseAt;
    forall q | q in w.server.out
      ensures !q.protocol.OpenSessionResponse?
    {
      if q.protocol.OpenSessionResponse? {
        SentEarly(w, q);
        assert false;
      }
    }
  }

  lemma {:induction false} LogGrows(w: World, st: Step)
    requires Enabled(w, st)
    ensures w.server.log <= Apply(w, st).server.log
  {
    hide PartsOf, SideQueueParts, ReadRest, ReadsResponse, Endpoints.Input, SendNew, ResendTree, ResentPackets, EarliestDeadline, DeferData, NextToSend, AckDue;
    match st
    case WriteStep(who, b, stop) => QueuePartsGrows(At(w, who), PartsOf(At(w, who).e, b), stop);
    case _ =>
  }

  // Without an open response on the way the client stays as it is.
  lemma {:induction false} StaysOpening(w: World, st: Step)
    requires Enabled(w, st) && Opening(w.client.e) && Inv(w)
    requires forall q | q in w.server.out :: !q.protocol.OpenSessionResponse?
    ensures Opening(Apply(w, st).client.e)
  {
    hide Inv, PartsOf, SideQueueParts, ReadRest, ReadsResponse, Endpoints.Input, SendNew, ResendTree, ResentPackets, EarliestDeadline, DeferData, NextToSend, AckDue, LogShape;
    match st
    case WriteStep(who, b, stop) =>
      InvPair(w, who);
      QueuePartsShape(At(w, who), PartsOf(At(w, who).e, b), stop);
    case ReadStep(who, n) =>
      if who.Client? && ReadsResponse(w.client.e.rcv, n) {
        ReadNeedsAnswer(w, n);
        assert false;
      }
    case InputStep(who, now) =>
      InvFlight(w, who);
      InputFrame(At(w, who).e, At(w, who).chan[0], now);
      if who.Client? {
        ClientNeverResponds(w.client.e, w.client.chan[0]);
      }
    case _ =>
  }

  lemma {:induction false} LateStep(w: World, st: Step)
    requires Enabled(w, st) && Late(w) && Good(w)
    ensures Late(Apply(w, st)) && Good(Apply(w, st))
  {
    hide Inv, Extra, Early, Enabled, Apply, ResponseAt;
    NoAnswerSent(w);
    StaysOpening(w, st);
    LogGrows(w, st);
    ResponseGrows(w.server.log, Apply(w, st).server.log);
    StepGood(w, st);
  }

  lemma {:induction false} LateLeads(w: World, steps: seq<Step>, v: World)
    requires Late(w) && Good(w) && Leads(w, steps, v)
    ensures Late(v) && Good(v)
    decreases |steps|
  {
    hide Late, Good, Enabled, Apply, Orderly;
    if steps != [] {
      LateStep(w, steps[0]);
      LateLeads(Apply(w, steps[0]), steps[1..], v);
    }
  }

  // A registered session was opened.
  lemma {:induction false} RegisteredMeansOpened(w: World)
    requires w.registered && Inv(w) && Extra(w)
    ensures w.client.log != []
  {
    hide Pair, Settled, Timed, LogShape, OutShape, Lined;
    InvHolds(w, Server);
    InvSide(w, Client);
    PairSending(w.client, w.server);
    if w.server.e.state == ATTACHED {
      assert Matches(w.server.chan[0], w.client.log);
    }
  }

  // The application of the server can have read no more than the open request brought.
  lemma {:induction false} OnlyOpeningBytes(w: World)
    requires w.registered && Opening(w.client.e) && Good(w)
    ensures w.client.log != [] && w.server.got <= Payloads(w.client.log[..1])
  {
    hide Pair, Settled, Timed, Opened, ResponseAt, NoLoss, Payloads, Extra, Early;
    RegisteredMeansOpened(w);
    EarlyWhole(w);
    InvSide(w, Server);
    DeliveredTo(w.server, w.client);
    PayloadsPrefix(w.client.log[..1], QueueStart(w.server.e.rcv));
    assert w.client.log[..1][..QueueStart(w.server.e.rcv)] == w.client.log[..QueueStart(w.server.e.rcv)];
    assert w.server.got <= w.server.got + w.server.e.rcv.unreadBuf;
  }

  lemma {:induction false} DeliveredTo(a: Side, b: Side)
    requires Pair(a, b)
    ensures Delivered(b.log, a.e.rcv, a.got)
  {
    hide Own, Holds, Delivered, NoLoss;
  }

  lemma {:induction false} LateOpening(w: World)
    requires Late(w)
    ensures w.client.e.state != ESTABLISHED
  {
    hide ResponseAt;
  }

  // Once the open response is late, the client waits forever, and the application of the
  // server never reads more than the open request brought.
  lemma {:induction false} LateForever(ws: seq<World>, steps: seq<Step>, cm: int, cl: int, sm: int, sl: int, i: nat, j: nat)
    requires IsRun(ws, steps, cm, cl, sm, sl) && i <= j < |ws| && Late(ws[i])
    ensures Late(ws[j]) && ws[j].client.e.state == ATTACHED
    ensures ws[j].client.log != [] && ws[j].server.got <= Payloads(ws[j].client.log[..1])
    decreases j - i
  {
    hide Good, Enabled, Apply, Init, ResponseAt, Payloads;
    RunGood(ws, steps, cm, cl, sm, sl, j);
    if i < j {
      LateForever(ws, steps, cm, cl, sm, sl, i, j - 1);
      RunGood(ws, steps, cm, cl, sm, sl, j - 1);
      LateStep(ws[j - 1], steps[j - 1]);
    }
    LateRegistered(ws[j]);
    OnlyOpeningBytes(ws[j]);
  }

  lemma {:induction false} LateRegistered(w: World)
    requires Late(w) && Good(w)
    ensures w.registered
  {
    hide Inv, Extra, Whole, ResponseAt;
  }
}

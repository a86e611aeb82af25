/** When a session can be established: the open response must be early, and the server must
    have sent it already or be able to send it, which a segment sent 20 times prevents. */
module Establishment {
  import opened Bytes
  import opened Fragment
  import opened Protocols
  import opened Segments
  import opened Endpoints
  import opened Transport
  import opened Handshake
  import opened Runs
  import opened Progress
  import opened Openings

  // ---------------------------------------------------------------------------
  // Calm continuations
  // ---------------------------------------------------------------------------

  // The run went on and nothing was numbered.
  ghost predicate Calm(w: World, steps: seq<Step>, v: World) {
    Leads(w, steps, v) && Good(v) && v.client.log == w.client.log && v.server.log == w.server.log
  }

  lemma {:induction false} CalmStep(w: World, st: Step)
    requires Enabled(w, st) && Orderly(w, st) && Good(w)
    requires Apply(w, st).client.log == w.client.log && Apply(w, st).server.log == w.server.log
    ensures Calm(w, [st], Apply(w, st))
  {
    hide Good, Enabled, Apply, Leads, Orderly;
    LeadsStep(w, st);
    StepGood(w, st);
  }

  lemma {:induction false} CalmOn(w: World, s: seq<Step>, v: World, t: seq<Step>, u: World)
    requires Calm(w, s, v) && Calm(v, t, u)
    ensures Calm(w, s + t, u)
  {
    hide Good, Leads;
    LeadsOn(w, s, v, t, u);
  }

  lemma {:induction false} CalmHere(w: World)
    requires Good(w)
    ensures Calm(w, [], w)
  {
    hide Good;
  }

  lemma {:induction false} CalmGood(w: World, steps: seq<Step>, v: World)
    requires Calm(w, steps, v)
    ensures Good(v) && v.client.log == w.client.log && v.server.log == w.server.log && Leads(w, steps, v)
  {
    hide Good, Leads;
  }

  // ---------------------------------------------------------------------------
  // The server learns of the session and answers
  // ---------------------------------------------------------------------------

  // The open request is number 0, and it is with the client until the server knows the session.
  lemma {:induction false} RequestHeld(w: World)
    requires !w.registered && w.client.e.openSent && Good(w)
    ensures Opening(w.client.e) && (0 in w.client.e.snd.sendQueue || 0 in w.client.e.snd.sendBuf)
  {
    hide Own, Settled, Timed, ResponseAt, Lined, OutShape, Holds, Delivered;
    assert w.server.e.rcv.nextRecv == 0;
  }

  lemma {:induction false} RequestSegment(a: Side, t: Tree)
    requires 0 in t && Files(t, a.log) && LogShape(a.e, a.log) && a.e.isClient
    ensures t[0].pkt.protocol.OpenSessionRequest?
  {
    assert Matches(t[0].pkt, a.log);
  }

  // All transmitted segments come before the queued number 0: there are none.
  lemma {:induction false} NothingOutstanding(s: Sender, out: set<Packet>)
    requires Lined(s, out) && 0 in s.sendQueue
    ensures s.sendBuf == map[]
  {
    hide SentTo;
    if s.sendBuf != map[] {
      var k := MinKey(s.sendBuf);
      assert false;
    }
  }

  // The client can send its open request.
  lemma {:induction false} CanSendRequest(a: Side)
    requires 0 in a.e.snd.sendQueue && a.e.remoteWindow == MIN_WINDOW_SIZE && a.e.isClient
    requires Sending(a.e.snd, a.log, a.out) && Lined(a.e.snd, a.out) && LogShape(a.e, a.log)
    ensures CongestionWindow(a, MIN_WINDOW_SIZE) && CanSendNew(a.e, MIN_WINDOW_SIZE, 0) && a.e.snd.sendBuf == map[]
  {
    hide Lined, Sending, LogShape, Files;
    SendingFacts(a.e.snd, a.log, a.out);
    NothingOutstanding(a.e.snd, a.out);
    RequestSegment(a, a.e.snd.sendQueue);
  }

  lemma {:induction false} SendsZero(a: Side, now: int, rto: nat)
    requires 0 in a.e.snd.sendQueue && Sending(a.e.snd, a.log, a.out)
    ensures 0 in SideSendNew(a, now, rto).e.snd.sendBuf
  {
    hide Sending, Transmit;
    SendNewSending(a.e.snd, a.log, a.out, now, rto, a.e.rcv.nextRecv);
    assert MinKey(a.e.snd.sendQueue) == 0;
  }

  lemma {:induction false} SendRequest(w: World, rto: nat) returns (st: Step, v: World)
    requires rto >= MIN_RTO && !w.registered && 0 in w.client.e.snd.sendQueue && Good(w)
    ensures Calm(w, [st], v) && !v.registered && 0 in v.client.e.snd.sendBuf && Opening(v.client.e) == Opening(w.client.e)
    ensures v.server == w.server
  {
    hide Inv, Lined, Sending, LogShape, Calm, CanSendNew, CongestionWindow, SendNew, NextToSend, Pair, ResponseAt, Whole;
    InvPair(w, Client);
    InvNumbers(w, Client);
    CanSendRequest(w.client);
    SendsZero(w.client, w.client.clock, rto);
    st := SendStep(Client, w.client.clock, rto, MIN_WINDOW_SIZE, 0);
    v := w.(client := SideSendNew(w.client, w.client.clock, rto));
    CalmStep(w, st);
  }

  lemma {:induction false} RegisterServer(w: World) returns (st: Step, v: World)
    requires !w.registered && 0 in w.client.e.snd.sendBuf && Good(w)
    ensures Calm(w, [st], v) && v.registered && v.client == w.client
    ensures v.server == SideDeliver(SideCreated(w.server, w.server.clock), w.client.e.snd.sendBuf[0].pkt)
  {
    hide Inv, Sending, LogShape, Calm, Pair, ResponseAt, Whole, Files;
    InvPair(w, Client);
    InvNumbers(w, Client);
    SendingFacts(w.client.e.snd, w.client.log, w.client.out);
    RequestSegment(w.client, w.client.e.snd.sendBuf);
    var p := w.client.e.snd.sendBuf[0].pkt;
    st := DispatchStep(Server, p, w.server.clock);
    v := w.(registered := true, server := SideDeliver(SideCreated(w.server, w.server.clock), p));
    CalmStep(w, st);
  }

  lemma {:induction false} Register(w: World, rto: nat) returns (steps: seq<Step>, v: World)
    requires rto >= MIN_RTO && w.client.e.openSent && Good(w)
    ensures Calm(w, steps, v) && v.registered && Opening(v.client.e) == Opening(w.client.e)
    ensures v.server.e.snd.sendBuf == w.server.e.snd.sendBuf && v.server.e.state == w.server.e.state
    ensures w.registered ==> v == w
  {
    hide Good, Calm;
    if w.registered {
      CalmHere(w);
      return [], w;
    }
    RequestHeld(w);
    if 0 in w.client.e.snd.sendBuf {
      var st, u := RegisterServer(w);
      return [st], u;
    }
    var s1, w1 := SendRequest(w, rto);
    CalmGood(w, [s1], w1);
    var s2, w2 := RegisterServer(w1);
    CalmOn(w, [s1], w1, [s2], w2);
    return [s1] + [s2], w2;
  }

  // The server answers the open request that it was registered with.
  lemma {:induction false} Answer(w: World) returns (st: Step, v: World)
    requires w.registered && w.server.e.state == ATTACHED && |w.server.log| + 1 < UINT32 && Good(w)
    ensures Leads(w, [st], v) && Good(v) && v.client == w.client && v.registered && v.server.e.state == ESTABLISHED
    ensures v.server.log == w.server.log + [OpenResponse(w.server.e)] && ResponseAt(v.server.log) == ResponseAt(w.server.log)
    ensures v.server.e.snd.sendBuf == w.server.e.snd.sendBuf
  {
    hide Inv, Extra, Early, ResponseAt, Endpoints.Input, Responds, Leads, Enqueue;
    InvWaiting(w);
    AttachedWaits(w);
    OnlyRequests(w);
    InvClient(w);
    RequestEffects(w.server.e, w.server.chan[0], w.server.clock);
    Answers(w, w.server.chan[0]);
    InputFrame(w.server.e, w.server.chan[0], w.server.clock);
    st := InputStep(Server, w.server.clock);
    v := w.(server := SideInput(w.server, w.server.clock));
    LeadsStep(w, st);
    StepGood(w, st);
  }

  // The client of a server that has not answered waits.
  lemma {:induction false} AttachedWaits(w: World)
    requires w.server.e.state == ATTACHED && Good(w)
    ensures Opening(w.client.e) && w.server.e.rcv.nextRecv <= 1
  {
    hide Pair, Settled, Timed, LogShape, OutShape, Extra, NoLoss, ResponseAt;
  }

  lemma {:induction false} InvWaiting(w: World)
    requires w.registered && w.server.e.state == ATTACHED && Inv(w)
    ensures w.server.chan != [] && Responds(w.server.e, w.server.chan[0])
  {
    hide Pair, Settled, Timed, LogShape, OutShape, Responds;
    FirstInputResponds(w.server);
  }

  // ---------------------------------------------------------------------------
  // The response is sent
  // ---------------------------------------------------------------------------

  // An early response that is still queued leaves room in the congestion window.
  lemma {:induction false} RoomBefore(s: Sender, out: set<Packet>, r: nat)
    requires Lined(s, out) && r in s.sendQueue
    ensures |s.sendBuf| <= r
  {
    hide SentTo, Below;
    assert s.sendBuf.Keys <= Below(r);
    SubsetSize(s.sendBuf.Keys, Below(r));
  }

  // One of the two sides is known not to be stuck.
  ghost predicate Hope(w: World) {
    NoneExhausted(w.server.e.snd.sendBuf) || !Stuck(w.client, w.server)
  }

  lemma {:induction false} NotExhaustedFree(a: Side, b: Side)
    requires NoneExhausted(a.e.snd.sendBuf)
    ensures !Stuck(a, b)
  {}

  lemma {:induction false} MoreSentFree(a: Side, b: Side, c: Side)
    requires !Stuck(a, b) && b.out <= c.out
    ensures !Stuck(a, c)
  {
    hide IsDataAckProtocol;
    forall k | k in a.e.snd.sendBuf && a.e.snd.sendBuf[k].txCount >= TX_COUNT_LIMIT
      ensures !Uncovered(c.out, k)
    {
      assert !Uncovered(b.out, k);
    }
  }

  // An opening client holds nothing but its open request.
  lemma {:induction false} OpeningHoldsZero(w: World)
    requires Opening(w.client.e) && Inv(w)
    ensures w.client.e.snd.sendBuf.Keys <= {0}
  {
    hide Pair, Settled, Timed, Accepts, Files, Sending;
    InvNumbers(w, Client);
    SendingFacts(w.client.e.snd, w.client.log, w.client.out);
    forall k | k in w.client.e.snd.sendBuf
      ensures k == 0
    {
      FiledProtocol(w.client.e.snd.sendBuf, w.client.log, k);
    }
  }

  // So any acknowledgement of a server that has answered keeps it from being stuck.
  lemma {:induction false} AnsweredFree(w: World, b: Side, p: Packet)
    requires Opening(w.client.e) && Inv(w) && p in b.out && IsDataAckProtocol(p.protocol) && p.unAckSeq >= 1
    ensures !Stuck(w.client, b)
  {
    hide Inv, IsDataAckProtocol;
    OpeningHoldsZero(w);
  }

  lemma {:induction false} FiledProtocol(t: Tree, log: seq<Packet>, k: nat)
    requires Files(t, log) && k in t
    ensures k < |log| && t[k].pkt.protocol == log[k].protocol
  {
    assert Matches(t[k].pkt, log);
  }

  // What a server holds before its response is data.
  lemma {:induction false} DataBefore(w: World, k: nat)
    requires k in w.server.e.snd.sendBuf && k < ResponseAt(w.server.log) && Inv(w)
    ensures IsDataAckProtocol(w.server.e.snd.sendBuf[k].pkt.protocol)
  {
    hide Pair, Settled, Timed, OutShape, ResponseAt, Files, Sending;
    InvNumbers(w, Server);
    SendingFacts(w.server.e.snd, w.server.log, w.server.out);
    FiledProtocol(w.server.e.snd.sendBuf, w.server.log, k);
  }

  // A pass of the server either changes no count or sends an acknowledgement of the open request.
  lemma {:induction false} PassHope(w: World, now: int, rto: nat, nextTX: int)
    requires Opening(w.client.e) && w.server.e.rcv.nextRecv >= 1 && NoneExhausted(w.server.e.snd.sendBuf) && Inv(w)
    requires forall k | k in w.server.e.snd.sendBuf :: k < ResponseAt(w.server.log) && k < UINT32
    ensures Hope(w.(server := SideResend(w.server, now, rto, nextTX)))
  {
    hide Inv, Due, TxTimeout, ResponseAt, Stuck, IsDataAckProtocol;
    var t := w.server.e.snd.sendBuf;
    var c := SideResend(w.server, now, rto, nextTX);
    if !NoneDue(t, now) {
      var k :| k in t && Due(t[k], now);
      DataBefore(w, k);
      var p := Resent(t[k], now, rto, w.server.e.rcv.nextRecv).pkt;
      assert p in ResentPackets(t, now, rto, w.server.e.rcv.nextRecv, UINT32);
      AnsweredFree(w, c, p);
    }
  }

  // The server begins an output round.
  lemma {:induction false} ReadyServer(w: World, r: nat, rto: nat) returns (steps: seq<Step>, v: World)
    requires rto >= MIN_RTO && w.registered && Opening(w.client.e) && w.server.e.state == ESTABLISHED
    requires r == ResponseAt(w.server.log) && r in w.server.e.snd.sendQueue && NoneExhausted(w.server.e.snd.sendBuf) && Good(w)
    ensures Calm(w, steps, v) && v.client == w.client && v.registered && v.server.e.state == ESTABLISHED && Hope(v)
    ensures v.server.e.snd.sendQueue == w.server.e.snd.sendQueue && NoPassDue(v.server.e.snd, v.server.clock)
  {
    hide Inv, Lined, Calm, NoneExhausted, EarliestDeadline, ResendTree, ResentPackets, NoneDue, ResponseAt, Pair, Early, Hope;
    var a := w.server;
    if NoPassDue(a.e.snd, a.clock) {
      HopeHere(w);
      CalmHere(w);
      return [], w;
    }
    InvPair(w, Server);
    InvClient(w);
    var nextTX := PassCanRun(a, w.client, a.clock, rto);
    SmallNumbers(a, w.client);
    LinedBelow(a.e.snd, a.out, r);
    PassHope(w, a.clock, rto, nextTX);
    v := w.(server := SideResend(a, a.clock, rto, nextTX));
    CalmStep(w, ResendStep(Server, a.clock, rto, nextTX));
    return [ResendStep(Server, a.clock, rto, nextTX)], v;
  }

  lemma {:induction false} HopeHere(w: World)
    requires NoneExhausted(w.server.e.snd.sendBuf)
    ensures Hope(w)
  {}

  lemma {:induction false} LinedBelow(s: Sender, out: set<Packet>, r: nat)
    requires Lined(s, out) && r in s.sendQueue
    ensures forall k | k in s.sendBuf :: k < r
  {
    hide SentTo;
  }

  // Sending a new segment makes no pass due at its own time, and exhausts nothing.
  lemma {:induction false} SendKeepsRound(a: Side, rto: nat)
    requires rto >= MIN_RTO && a.e.snd.sendQueue != map[] && NoPassDue(a.e.snd, a.clock) && Timed(a.e.snd)
    ensures NoPassDue(SideSendNew(a, a.clock, rto).e.snd, a.clock) && SideSendNew(a, a.clock, rto).clock == a.clock
    ensures NoneExhausted(a.e.snd.sendBuf) ==> NoneExhausted(SideSendNew(a, a.clock, rto).e.snd.sendBuf)
  {
    hide TxTimeout, Refresh;
    TimeoutPositive(rto, a.e.snd.sendQueue[MinKey(a.e.snd.sendQueue)].txCount + 1);
  }

  lemma {:induction false} SendHead(w: World, r: nat, rto: nat) returns (st: Step, v: World)
    requires rto >= MIN_RTO && w.registered && Opening(w.client.e) && r in w.server.e.snd.sendQueue && r < MIN_WINDOW_SIZE
    requires NoPassDue(w.server.e.snd, w.server.clock) && Hope(w) && Good(w)
    ensures Calm(w, [st], v) && v == w.(server := SideSendNew(w.server, w.server.clock, rto))
    ensures |v.server.e.snd.sendQueue| < |w.server.e.snd.sendQueue|
    ensures NoPassDue(v.server.e.snd, v.server.clock) && Hope(v)
  {
    hide Inv, Lined, NoLoss, Calm, NextToSend, ResponseAt, NoneExhausted, Stuck, Timed;
    var a := w.server;
    InvClient(w);
    InvTimed(w);
    RoomBefore(a.e.snd, a.out, r);
    RemoveSize(a.e.snd.sendQueue, MinKey(a.e.snd.sendQueue));
    SendKeepsRound(a, rto);
    st := SendStep(Server, a.clock, rto, MIN_WINDOW_SIZE, 0);
    v := w.(server := SideSendNew(a, a.clock, rto));
    CalmStep(w, st);
    if !Stuck(w.client, w.server) {
      MoreSentFree(w.client, w.server, v.server);
    }
  }

  lemma {:induction false} InvTimed(w: World)
    requires Inv(w)
    ensures Timed(w.client.e.snd) && Timed(w.server.e.snd)
  {
    hide Pair, Opened, Settled, Timed;
  }

  lemma {:induction false} ResponseHeld(w: World)
    requires Opening(w.client.e) && w.server.e.state == ESTABLISHED && Good(w)
    ensures
      (var r := ResponseAt(w.server.log);
       && r < |w.server.log| && (r in w.server.e.snd.sendQueue || r in w.server.e.snd.sendBuf))
  {
    hide Inv, Extra, ResponseAt;
  }

  // The response goes out with everything before it.
  lemma {:induction false} SendResponse(w: World, rto: nat) returns (steps: seq<Step>, v: World)
    requires rto >= MIN_RTO && w.registered && Opening(w.client.e) && w.server.e.state == ESTABLISHED
    requires ResponseAt(w.server.log) < MIN_WINDOW_SIZE && NoPassDue(w.server.e.snd, w.server.clock) && Hope(w) && Good(w)
    ensures Calm(w, steps, v) && v.client == w.client && v.registered && v.server.e.state == ESTABLISHED
    ensures ResponseAt(v.server.log) in v.server.e.snd.sendBuf && Hope(v)
    decreases |w.server.e.snd.sendQueue|
  {
    hide Good, Calm, ResponseAt, SendNew, NextToSend, Hope, NoPassDue;
    ResponseHeld(w);
    var r := ResponseAt(w.server.log);
    if r in w.server.e.snd.sendBuf {
      CalmHere(w);
      return [], w;
    }
    var st, u := SendHead(w, r, rto);
    CalmGood(w, [st], u);
    var more, x := SendResponse(u, rto);
    CalmOn(w, [st], u, more, x);
    return [st] + more, x;
  }

  // ---------------------------------------------------------------------------
  // The response reaches the client
  // ---------------------------------------------------------------------------

  lemma {:induction false} HandResponse(w: World) returns (st: Step, v: World)
    requires w.registered && Opening(w.client.e) && w.server.e.state == ESTABLISHED && ResponseAt(w.server.log) in w.server.e.snd.sendBuf && Good(w)
    ensures Calm(w, [st], v) && v.registered && v.server == w.server && v.client.e == w.client.e && v.client.out == w.client.out
    ensures exists q :: q in v.client.chan && q.protocol.OpenSessionResponse?
  {
    hide Inv, Sending, Files, Calm, ResponseAt, NoLoss;
    var s := w.server.e.snd;
    var r := ResponseAt(w.server.log);
    InvNumbers(w, Server);
    SendingFacts(s, w.server.log, w.server.out);
    FiledProtocol(s.sendBuf, w.server.log, r);
    var q := s.sendBuf[r].pkt;
    assert q in w.server.out;
    st := DispatchStep(Client, q, w.client.clock);
    v := w.(client := SideDeliver(w.client, q));
    assert v.client.chan[|w.client.chan|] == q;
    CalmStep(w, st);
  }

  // The client takes in what waits for it until it has the response.
  lemma {:induction false} TakeResponse(w: World, q: Packet) returns (steps: seq<Step>, v: World)
    requires w.registered && (Opening(w.client.e) ==> q in w.client.chan) && q.protocol.OpenSessionResponse?
    requires w.server.e.state == ESTABLISHED && |w.client.log| + 1 < UINT32 && Good(w)
    ensures Calm(w, steps, v) && v.registered && v.client.e.state == ESTABLISHED && v.server == w.server
    ensures Shrunk(w.client.e.snd, v.client.e.snd) && v.client.out == w.client.out
    decreases |w.client.chan|
  {
    hide Good, Calm, SideInput, Shrunk;
    GoodClient(w);
    if !Opening(w.client.e) {
      SameShrunk(w.client.e.snd);
      CalmHere(w);
      return [], w;
    }
    var st, u := TakeNext(w);
    CalmGood(w, [st], u);
    var more, x := TakeResponse(u, q);
    CalmOn(w, [st], u, more, x);
    ShrunkOn(w.client.e.snd, u.client.e.snd, x.client.e.snd);
    return [st] + more, x;
  }

  lemma {:induction false} GoodClient(w: World)
    requires Good(w)
    ensures w.client.e.isClient && w.client.e.state in {ATTACHED, ESTABLISHED} && w.server.e.state in {ATTACHED, ESTABLISHED}
  {
    hide Pair, Settled, Timed, LogShape, OutShape, Extra, Early;
  }

  lemma {:induction false} TakeNext(w: World) returns (st: Step, v: World)
    requires w.client.chan != [] && Opening(w.client.e) && |w.client.log| + 1 < UINT32 && Good(w)
    ensures Calm(w, [st], v) && v.registered == w.registered && v.server == w.server
    ensures v.client.chan == w.client.chan[1..] && v.client.out == w.client.out && Shrunk(w.client.e.snd, v.client.e.snd)
    ensures w.client.chan[0].protocol.OpenSessionResponse? ==> !Opening(v.client.e)
  {
    hide Inv, Extra, Early, Calm, Endpoints.Input, Responds, Shrunk;
    var a := w.client;
    ClientNeverResponds(a.e, a.chan[0]);
    InputFrame(a.e, a.chan[0], a.clock);
    InputShrinks(a, a.clock);
    st := InputStep(Client, a.clock);
    v := w.(client := SideInput(a, a.clock));
    CalmStep(w, st);
  }

  // The response that was sent is delivered.
  lemma {:induction false} DeliverResponse(w: World) returns (steps: seq<Step>, v: World)
    requires w.registered && Opening(w.client.e) && w.server.e.state == ESTABLISHED && ResponseAt(w.server.log) in w.server.e.snd.sendBuf
    requires |w.client.log| + 1 < UINT32 && Good(w)
    ensures Calm(w, steps, v) && v.registered && v.client.e.state == ESTABLISHED && v.server == w.server
    ensures Shrunk(w.client.e.snd, v.client.e.snd) && v.client.out == w.client.out
  {
    hide Good, Calm, ResponseAt, Shrunk;
    var s1, w1 := HandResponse(w);
    CalmGood(w, [s1], w1);
    var q :| q in w1.client.chan && q.protocol.OpenSessionResponse?;
    var s2, w2 := TakeResponse(w1, q);
    CalmOn(w, [s1], w1, s2, w2);
    return [s1] + s2, w2;
  }

  // Both sides are not stuck at once.
  ghost predicate Hopeful(w: World) {
    !(Stuck(w.client, w.server) && Stuck(w.server, w.client))
  }

  lemma {:induction false} HopeIsHopeful(w: World, v: World)
    requires Hope(w) && v.server == w.server && Shrunk(w.client.e.snd, v.client.e.snd)
    ensures Hopeful(v)
  {
    hide Stuck, NoneExhausted, Shrunk;
    if NoneExhausted(w.server.e.snd.sendBuf) {
      NotExhaustedFree(v.server, v.client);
    } else {
      ShrunkFree(w.client, v.client, w.server);
    }
  }

  // Opening can go on: the response is early, and it was sent or nothing keeps the server from
  // sending it.
  predicate CanOpen(w: World) {
    Opening(w.client.e) ==>
      && ResponseAt(w.server.log) < MIN_WINDOW_SIZE
      && (ResponseAt(w.server.log) in w.server.e.snd.sendBuf || NoneExhausted(w.server.e.snd.sendBuf))
  }

  // A client that waits for a response which was not sent yet can get it.
  lemma {:induction false} SendAndDeliver(w: World, rto: nat) returns (steps: seq<Step>, v: World)
    requires rto >= MIN_RTO && w.registered && w.server.e.state == ESTABLISHED && |w.client.log| + 1 < UINT32
    requires Opening(w.client.e) && CanOpen(w) && ResponseAt(w.server.log) !in w.server.e.snd.sendBuf && Good(w)
    ensures Calm(w, steps, v) && v.registered && v.client.e.state == ESTABLISHED && v.server.e.state == ESTABLISHED && Hopeful(v)
  {
    hide Good, Calm, ResponseAt, Hope, Hopeful, NoneExhausted, NoPassDue, Shrunk;
    ResponseHeld(w);
    var s1, w1 := ReadyServer(w, ResponseAt(w.server.log), rto);
    CalmGood(w, s1, w1);
    var s2, w2 := SendResponse(w1, rto);
    CalmGood(w1, s2, w2);
    CalmOn(w, s1, w1, s2, w2);
    var s3, w3 := DeliverResponse(w2);
    CalmOn(w, s1 + s2, w2, s3, w3);
    HopeIsHopeful(w2, w3);
    return s1 + s2 + s3, w3;
  }

  // The server numbered at most an empty segment.
  ghost predicate OnlyAnswered(w: World, v: World) {
    && v.client.log == w.client.log
    && (v.server.log == w.server.log || exists p: Packet :: p.payload == [] && v.server.log == w.server.log + [p])
  }

  lemma {:induction false} GoodLive(w: World)
    requires Good(w) && w.registered && w.client.e.state == ESTABLISHED && w.server.e.state == ESTABLISHED
    requires |w.client.log| + 1 < UINT32 && |w.server.log| + 1 < UINT32
    ensures Live(w)
  {
    hide Inv, Extra, Early;
  }

  predicate NothingQueued(w: World) {
    w.client.e.snd.sendQueue == map[] && w.server.e.snd.sendQueue == map[]
  }

  // Hope and empty queues come along.
  ghost predicate KeepsHope(w: World, v: World) {
    (Hopeful(w) ==> Hopeful(v)) && (NothingQueued(w) && !Hopeful(w) ==> NothingQueued(v))
  }

  lemma {:induction false} ShrunkKeepsHope(w: World, v: World)
    requires v.server == w.server && Shrunk(w.client.e.snd, v.client.e.snd) && v.client.out == w.client.out
    ensures KeepsHope(w, v)
  {
    hide Stuck;
    if !Stuck(w.client, w.server) {
      ShrunkFree(w.client, v.client, w.server);
    }
    StuckByOut(w.server, w.client, v.client);
  }

  lemma {:induction false} StuckByOut(a: Side, b: Side, c: Side)
    requires c.out == b.out
    ensures Stuck(a, b) == Stuck(a, c)
  {
    hide Uncovered;
  }

  // A registered session that the server has answered, or answers now.
  lemma {:induction false} EstablishAnswered(w: World, rto: nat) returns (steps: seq<Step>, v: World)
    requires rto >= MIN_RTO && w.registered && w.server.e.state == ESTABLISHED && CanOpen(w) && Good(w)
    requires |w.client.log| + 1 < UINT32 && |w.server.log| + 1 < UINT32
    ensures Calm(w, steps, v) && Live(v)
    ensures KeepsHope(w, v) && (Opening(w.client.e) && ResponseAt(w.server.log) !in w.server.e.snd.sendBuf ==> Hopeful(v))
  {
    hide Good, Calm, ResponseAt, Live, Hopeful, NoneExhausted, Shrunk;
    GoodClient(w);
    if !Opening(w.client.e) {
      steps, v := [], w;
      CalmHere(w);
    } else if ResponseAt(w.server.log) in w.server.e.snd.sendBuf {
      steps, v := DeliverResponse(w);
      ShrunkKeepsHope(w, v);
    } else {
      steps, v := SendAndDeliver(w, rto);
      UnsentHope(w);
    }
    CalmGood(w, steps, v);
    GoodLive(v);
  }

  lemma {:induction false} UnsentHope(w: World)
    requires Opening(w.client.e) && CanOpen(w) && ResponseAt(w.server.log) !in w.server.e.snd.sendBuf
    ensures Hopeful(w)
  {
    hide Stuck, ResponseAt, NoneExhausted;
    NotExhaustedFree(w.server, w.client);
  }

  // An opened session whose response can reach the client can be established.
  lemma {:induction false} Establish(w: World, rto: nat) returns (steps: seq<Step>, v: World)
    requires rto >= MIN_RTO && w.client.e.openSent && |w.client.log| + 1 < UINT32 && |w.server.log| + 2 < UINT32
    requires CanOpen(w) && Good(w)
    ensures Leads(w, steps, v) && Live(v) && OnlyAnswered(w, v) && KeepsHope(w, v)
  {
    hide Good, Calm, ResponseAt, Leads, Live, Hopeful, NoneExhausted;
    GoodClient(w);
    if w.server.e.state == ESTABLISHED {
      AnsweredIsRegistered(w);
      steps, v := EstablishAnswered(w, rto);
      CalmGood(w, steps, v);
      return;
    }
    AttachedUnsent(w);
    UnsentHope(w);
    var s1, w1 := Register(w, rto);
    CalmGood(w, s1, w1);
    var s2, w2 := Answer(w1);
    LeadsOn(w, s1, w1, [s2], w2);
    var s3, w3 := EstablishAnswered(w2, rto);
    CalmGood(w2, s3, w3);
    LeadsOn(w, s1 + [s2], w2, s3, w3);
    return s1 + [s2] + s3, w3;
  }

  lemma {:induction false} AnsweredIsRegistered(w: World)
    requires w.server.e.state == ESTABLISHED && Good(w)
    ensures w.registered
  {
    hide Pair, Settled, Timed, LogShape, OutShape, Extra, Early;
  }

  // A response that has no number yet was not sent.
  lemma {:induction false} AttachedUnsent(w: World)
    requires w.server.e.state == ATTACHED && Good(w)
    ensures Opening(w.client.e) && ResponseAt(w.server.log) !in w.server.e.snd.sendBuf
  {
    hide Pair, Settled, Timed, OutShape, Extra, Early, ResponseAt, Sending, Files, Accepts;
    AttachedWaits(w);
    InvNumbers(w, Server);
    SendingFacts(w.server.e.snd, w.server.log, w.server.out);
    FiledBelow(w.server.e.snd.sendBuf, w.server.log);
    InvPair(w, Server);
    ResponseIs(w.server.log, |w.server.log|);
  }

  // ---------------------------------------------------------------------------
  // A server that cannot send its response
  // ---------------------------------------------------------------------------

  // The client waits, the response was not sent, and every output round of the server from now
  // on ends the session, because segment k was sent 20 times.
  ghost predicate Muted(w: World, k: nat) {
    && Opening(w.client.e) && k in w.server.e.snd.sendBuf && w.server.e.snd.sendBuf[k].txCount >= TX_COUNT_LIMIT
    && w.server.clock >= w.server.e.snd.nextRetransmission
    && forall q | q in w.server.out :: !q.protocol.OpenSessionResponse?
  }

  // A server step other than output keeps what silences it.
  lemma {:induction false} SilentStep(w: World, st: Step, k: nat)
    requires Muted(w, k) && Enabled(w, st) && Orderly(w, st) && Good(w)
    ensures
      (var v := Apply(w, st).server;
       && v.out == w.server.out && k in v.e.snd.sendBuf && v.e.snd.sendBuf[k].txCount >= TX_COUNT_LIMIT
       && v.clock >= v.e.snd.nextRetransmission)
  {
    hide Inv, Extra, Early, PartsOf, SideQueueParts, ReadRest, ReadsResponse, Taken, Endpoints.Input, SendNew, NextToSend, EarliestDeadline, CanSendNew, CongestionWindow, AckDue, AckPacket, ResendTree, ResentPackets, OpenPayload, Enqueue;
    match st
    case WriteStep(who, b, stop) =>
      InvPair(w, who);
      QueuePartsShape(At(w, who), PartsOf(At(w, who).e, b), stop);
      QueuePartsTimes(At(w, who), PartsOf(At(w, who).e, b), stop);
    case InputStep(who, now) =>
      if who.Server? {
        SilentInput(w, now, k);
      }
    case _ =>
  }

  lemma {:induction false} QueuePartsTimes(a: Side, parts: seq<seq<byte>>, n: nat)
    requires n <= |parts|
    ensures var c := SideQueueParts(a, parts, n); c.clock == a.clock && c.e.snd.nextRetransmission == a.e.snd.nextRetransmission
    decreases n
  {
    hide DataPacket, AddOne;
    if n > 0 {
      QueuePartsTimes(SideEnqueue(a, DataPacket(a.e, parts[0], |parts| - 1)), parts[1..], n - 1);
    }
  }

  // Open requests take nothing out of sendBuf.
  lemma {:induction false} SilentInput(w: World, now: int, k: nat)
    requires w.server.chan != [] && Opening(w.client.e) && Good(w)
    ensures
      (var v := SideInput(w.server, now);
       && v.out == w.server.out && v.e.snd.sendBuf == w.server.e.snd.sendBuf && v.clock >= w.server.clock
       && v.e.snd.nextRetransmission == w.server.e.snd.nextRetransmission)
  {
    hide Inv, Extra, Early, Endpoints.Input, Responds, AddOne;
    InvClient(w);
    OnlyRequests(w);
    EarlyWhole(w);
    RequestEffects(w.server.e, w.server.chan[0], now);
  }

  lemma {:induction false} MutedStep(w: World, st: Step, k: nat)
    requires Muted(w, k) && Enabled(w, st) && Orderly(w, st) && Good(w)
    ensures Muted(Apply(w, st), k) && Good(Apply(w, st))
  {
    hide Inv, Extra, Early, Enabled, Apply, Orderly;
    SilentStep(w, st, k);
    StaysOpening(w, st);
    StepGood(w, st);
  }

  lemma {:induction false} MutedLeads(w: World, steps: seq<Step>, v: World, k: nat)
    requires Muted(w, k) && Good(w) && Leads(w, steps, v)
    ensures Muted(v, k) && Good(v)
    decreases |steps|
  {
    hide Muted, Good, Enabled, Apply, Orderly;
    if steps != [] {
      MutedStep(w, steps[0], k);
      MutedLeads(Apply(w, steps[0]), steps[1..], v, k);
    }
  }

  // A response that is not with the transmitted segments was not sent.
  lemma {:induction false} UnsentIsNotOut(w: World)
    requires Opening(w.client.e) && ResponseAt(w.server.log) !in w.server.e.snd.sendBuf && Good(w)
    ensures forall q | q in w.server.out :: !q.protocol.OpenSessionResponse?
  {
    hide Inv, Extra, ResponseAt;
    forall q | q in w.server.out
      ensures !q.protocol.OpenSessionResponse?
    {
      if q.protocol.OpenSessionResponse? {
        SentResponse(w, q);
        EarlyWhole(w);
        assert false;
      }
    }
  }

  // ---------------------------------------------------------------------------
  // The session opens exactly when it can
  // ---------------------------------------------------------------------------

  lemma {:induction false} StepGoodOpen(w: World, b: seq<byte>) returns (v: World)
    requires w.client.e.state == ATTACHED && !w.client.e.openSent && Good(w)
    ensures Leads(w, [OpenStep(b)], v) && Good(v) && v.client.e.openSent && v.server == w.server
    ensures v.client.log == [OpenRequest(w.client.e, b)] && w.client.log == [] && w.server.log == [] && !w.registered
    ensures 0 in v.client.e.snd.sendQueue && !v.registered && Opening(v.client.e)
  {
    hide Inv, Extra, ResponseAt, Leads, OpenPayload, AddOne, Whole;
    v := Apply(w, OpenStep(b));
    LeadsStep(w, OpenStep(b));
    StepGood(w, OpenStep(b));
    FreshClient(w);
    InvNumbers(w, Client);
    if w.registered {
      RegisteredMeansOpened(w);
      assert false;
    }
  }

  ghost predicate CanEstablish(w: World) {
    exists more, v :: Leads(w, more, v) && v.client.e.state == ESTABLISHED
  }

  // From a reachable world the client can be established, however late it has become, if and
  // only if it is established, or the open response is numbered below 16 and was sent already
  // or no segment of the server was sent 20 times.
  lemma {:induction false} OpensExactly(ws: seq<World>, steps: seq<Step>, cm: int, cl: int, sm: int, sl: int, i: nat)
    requires IsRun(ws, steps, cm, cl, sm, sl) && i < |ws|
    requires |ws[i].client.log| + 1 < UINT32 && |ws[i].server.log| + 2 < UINT32
    ensures (forall time: int :: CanEstablish(Later(ws[i], time))) <==> CanOpen(ws[i])
  {
    hide IsRun, Good, Leads, CanOpen, CanEstablish;
    RunGood(ws, steps, cm, cl, sm, sl, i);
    var w := ws[i];
    if CanOpen(w) {
      forall time: int
        ensures CanEstablish(Later(w, time))
      {
        LaterGood(w, time);
        LaterCanOpen(w, time);
        Opens(Later(w, time));
      }
    } else {
      NeverOpens(w);
      assert !CanEstablish(Later(w, w.server.e.snd.nextRetransmission));
    }
  }

  lemma {:induction false} LaterCanOpen(w: World, time: int)
    ensures CanOpen(Later(w, time)) == CanOpen(w)
  {
    hide ResponseAt, NoneExhausted;
  }

  lemma {:induction false} Opens(w: World)
    requires CanOpen(w) && |w.client.log| + 1 < UINT32 && |w.server.log| + 2 < UINT32 && Good(w)
    ensures CanEstablish(w)
  {
    hide Good, Leads, CanOpen, Inv, Extra;
    GoodClient(w);
    if w.client.e.state == ESTABLISHED {
      Stays(w);
    } else if w.client.e.openSent {
      var steps, v := Establish(w, INITIAL_RTO);
      LiveEstablished(v);
    } else {
      var u := StepGoodOpen(w, []);
      FreshCanOpen(w, u);
      var more, x := Establish(u, INITIAL_RTO);
      LiveEstablished(x);
      LeadsOn(w, [OpenStep([])], u, more, x);
    }
  }

  lemma {:induction false} LiveEstablished(w: World)
    requires Live(w)
    ensures w.client.e.state == ESTABLISHED && w.server.e.state == ESTABLISHED
  {
    hide Inv, Extra;
  }

  lemma {:induction false} FreshCanOpen(w: World, v: World)
    requires v.server == w.server && CanOpen(w) && Opening(w.client.e)
    ensures CanOpen(v)
  {
    hide ResponseAt, NoneExhausted;
  }

  lemma {:induction false} Stays(w: World)
    ensures Leads(w, [], w)
  {
    hide Enabled, Apply, Orderly;
  }

  // From the time of the next check on, what cannot open never opens.
  lemma {:induction false} NeverOpens(w: World)
    requires !CanOpen(w) && Good(w)
    ensures !CanEstablish(Later(w, w.server.e.snd.nextRetransmission))
  {
    hide Good, Leads, Late, ResponseAt, Muted;
    var v := Later(w, w.server.e.snd.nextRetransmission);
    LaterGood(w, w.server.e.snd.nextRetransmission);
    LaterCanOpen(w, w.server.e.snd.nextRetransmission);
    var late, k := WhyNot(v);
    forall more, x | Leads(v, more, x)
      ensures x.client.e.state != ESTABLISHED
    {
      if late {
        LateLeads(v, more, x);
        LateOpening(x);
      } else {
        MutedLeads(v, more, x, k);
        MutedOpening(x, k);
      }
    }
  }

  lemma {:induction false} MutedOpening(w: World, k: nat)
    requires Muted(w, k)
    ensures w.client.e.state != ESTABLISHED
  {}

  lemma {:induction false} WhyNot(w: World) returns (late: bool, k: nat)
    requires !CanOpen(w) && w.server.clock >= w.server.e.snd.nextRetransmission && Good(w)
    ensures if late then Late(w) else Muted(w, k)
  {
    hide Good, ResponseAt;
    if ResponseAt(w.server.log) >= MIN_WINDOW_SIZE {
      return true, 0;
    }
    UnsentIsNotOut(w);
    k :| k in w.server.e.snd.sendBuf && w.server.e.snd.sendBuf[k].txCount >= TX_COUNT_LIMIT;
    return false, k;
  }

  // ---------------------------------------------------------------------------
  // Runs to such worlds
  // ---------------------------------------------------------------------------

  lemma {:induction false} Trace(w: World, steps: seq<Step>, v: World) returns (ws: seq<World>)
    requires Leads(w, steps, v)
    ensures |ws| == |steps| + 1 && ws[0] == w && ws[|steps|] == v
    ensures forall i | 0 <= i < |steps| :: Enabled(ws[i], steps[i]) && ws[i + 1] == Apply(ws[i], steps[i])
    decreases |steps|
  {
    hide Enabled, Apply, Orderly;
    if steps == [] {
      return [w];
    }
    var rest := Trace(Apply(w, steps[0]), steps[1..], v);
    ws := [w] + rest;
    forall i | 0 <= i < |steps|
      ensures Enabled(ws[i], steps[i]) && ws[i + 1] == Apply(ws[i], steps[i])
    {
      if i > 0 {
        assert ws[i] == rest[i - 1] && ws[i + 1] == rest[i] && steps[i] == steps[1..][i - 1];
      }
    }
  }

  // A write of 24 KB or more is at least 16 packets.
  lemma {:induction false} ManyFragments(n: nat, size: nat)
    requires 24_000 <= n <= MAX_PDU && 596 <= size <= 1_500
    ensures 16 <= FragmentCount(n, size) <= 55
  {
    FragmentNumberFits(n, size);
    var q := (n - 1) / size;
    assert n - 1 < (q + 1) * size by {
      assert (q + 1) * size == q * size + size;
    }
    if q < 15 {
      MulMonotone(q + 1, 15, size);
    }
  }

  lemma {:induction false} PartsOfNew(mtu: int, mode: int, b: seq<byte>)
    requires 1280 <= mtu <= 1500 && 24_000 <= |b| <= MAX_PDU
    ensures 16 <= |PartsOf(NewEndpoint(false, mtu, mode, 0), b)| <= 55
  {
    FragmentsOf(b, mtu - PACKET_OVERHEAD);
    ManyFragments(|b|, mtu - PACKET_OVERHEAD);
  }

  // The server registers the session and its application writes 24 KB or more before the
  // session takes in the open request.
  lemma {:induction false} LateIsReachable(cm: int, cl: int, sm: int, sl: int, first: seq<byte>, b: seq<byte>, rto: nat)
    returns (ws: seq<World>, steps: seq<Step>)
    requires 1280 <= sm <= 1500 && 24_000 <= |b| <= MAX_PDU && rto >= MIN_RTO
    ensures IsRun(ws, steps, cm, cl, sm, sl) && Late(ws[|steps|])
    ensures |steps| == 4 && steps[0] == OpenStep(first) && steps[3].WriteStep? && steps[3].b == b
  {
    hide Good, Calm, Leads, Inv, Extra, PartsOf, OpenPayload, Late;
    var w0 := Init(cm, cl, sm, sl);
    InitGood(cm, cl, sm, sl);
    var w1 := StepGoodOpen(w0, first);
    var s2, w2 := SendRequest(w1, rto);
    CalmGood(w1, [s2], w2);
    LeadsOn(w0, [OpenStep(first)], w1, [s2], w2);
    var s3, w3 := RegisterServer(w2);
    CalmGood(w2, [s3], w3);
    LeadsOn(w0, [OpenStep(first)] + [s2], w2, [s3], w3);
    assert w3.server.e == NewEndpoint(false, sm, sl, 0);
    PartsOfNew(sm, sl, b);
    var s4, w4 := WriteLate(w3, b);
    LeadsOn(w0, [OpenStep(first)] + [s2] + [s3], w3, [s4], w4);
    steps := [OpenStep(first)] + [s2] + [s3] + [s4];
    ws := Trace(w0, steps, w4);
  }

  lemma {:induction false} WriteLate(w: World, b: seq<byte>) returns (st: Step, v: World)
    requires w.registered && Opening(w.client.e) && w.server.e.state == ATTACHED && w.server.log == [] && w.server.e.snd.sendQueue == map[]
    requires 0 < |b| <= MAX_PDU && 16 <= |PartsOf(w.server.e, b)| <= 55 && Good(w)
    ensures st.WriteStep? && st.b == b && Leads(w, [st], v) && Late(v)
  {
    hide Inv, Extra, PartsOf, SideQueueParts, Leads, NoLoss, ResponseAt, LogShape, OutShape;
    var parts := PartsOf(w.server.e, b);
    st := WriteStep(Server, b, |parts|);
    InvPair(w, Server);
    InvNumbers(w, Server);
    QueuePartsShape(w.server, parts, |parts|);
    QueuePartsNoLoss(w.server, parts, |parts|);
    v := w.(server := SideQueueParts(w.server, parts, |parts|));
    LeadsStep(w, st);
    ServerWithout(v.server);
  }

  lemma {:induction false} ServerWithout(a: Side)
    requires !a.e.isClient && a.e.state == ATTACHED && LogShape(a.e, a.log)
    ensures ResponseAt(a.log) == |a.log|
  {
    hide ResponseAt, Accepts;
    ResponseIs(a.log, |a.log|);
  }

  // A write of one fragment.
  lemma {:induction false} WriteOne(w: World, who: Who, b: seq<byte>) returns (st: Step, v: World)
    requires Alive(w, who) && (who.Client? ==> At(w, who).e.openSent) && 0 < |b| <= MAX_PDU && PartsOf(At(w, who).e, b) == [b]
    requires |At(w, who).e.snd.sendQueue| + 1 < SEND_QUEUE_CAPACITY && |At(w, who).log| + 1 < UINT32 && Good(w)
    ensures Leads(w, [st], v) && Good(v) && v.registered == w.registered && Peer(v, who) == Peer(w, who)
    ensures v == With(w, who, SideEnqueue(At(w, who), DataPacket(At(w, who).e, b, 0)))
    ensures At(v, who).e.snd.sendQueue == At(w, who).e.snd.sendQueue[|At(w, who).log| := NewSegment(DataPacket(At(w, who).e, b, 0))]
  {
    hide Good, Leads, PartsOf, DataProtocol, ReceiveWindow;
    var a := At(w, who);
    GoodNumbers(w, who);
    v := With(w, who, SideEnqueue(a, DataPacket(a.e, b, 0)));
    st := WriteStep(who, b, 1);
    assert SideQueueParts(a, [b], 1) == SideEnqueue(a, DataPacket(a.e, b, 0));
    LeadsStep(w, st);
    StepGood(w, st);
  }

  lemma {:induction false} GoodNumbers(w: World, who: Who)
    requires Good(w)
    ensures At(w, who).e.snd.nextSend == |At(w, who).log|
  {
    hide Inv, Extra, Early, Sending;
    InvNumbers(w, who);
  }

  // A side with nothing outstanding sends its next segment.
  lemma {:induction false} SendOnly(w: World, who: Who, rto: nat) returns (st: Step, v: World)
    requires rto >= MIN_RTO && Alive(w, who) && !Opening(At(w, who).e) && At(w, who).e.remoteWindow > 0
    requires At(w, who).e.snd.sendBuf == map[] && At(w, who).e.snd.sendQueue != map[] && Good(w)
    ensures Calm(w, [st], v) && v == With(w, who, SideSendNew(At(w, who), At(w, who).clock, rto))
  {
    hide Good, Calm, Transmit;
    var a := At(w, who);
    st := SendStep(who, a.clock, rto, MIN_WINDOW_SIZE, 0);
    v := With(w, who, SideSendNew(a, a.clock, rto));
    CalmStep(w, st);
  }

  // Its only outstanding segment is sent again and again, until it was sent 20 times.
  lemma {:induction false} ResendMany(w: World, who: Who, k: nat, rto: nat) returns (steps: seq<Step>, v: World)
    requires rto >= MIN_RTO && Alive(w, who) && At(w, who).e.snd.sendBuf.Keys == {k} && At(w, who).e.snd.sendBuf[k].txCount <= TX_COUNT_LIMIT
    requires Good(w)
    ensures Calm(w, steps, v) && Peer(v, who) == Peer(w, who) && v.registered == w.registered && At(w, who).out <= At(v, who).out
    ensures At(v, who).e == At(w, who).e.(snd := At(v, who).e.snd) && At(v, who).e.snd.sendQueue == At(w, who).e.snd.sendQueue
    ensures At(v, who).e.snd.sendBuf.Keys == {k} && At(v, who).e.snd.sendBuf[k].txCount == TX_COUNT_LIMIT
    decreases TX_COUNT_LIMIT - At(w, who).e.snd.sendBuf[k].txCount
  {
    hide Good, Calm;
    if At(w, who).e.snd.sendBuf[k].txCount == TX_COUNT_LIMIT {
      CalmHere(w);
      return [], w;
    }
    var st, u := ResendOnce(w, who, k, rto);
    CalmGood(w, [st], u);
    var more, x := ResendMany(u, who, k, rto);
    CalmOn(w, [st], u, more, x);
    return [st] + more, x;
  }

  // A side that writes one fragment sends it 20 times.
  lemma {:induction false} WriteInVain(w: World, who: Who, b: seq<byte>, rto: nat) returns (steps: seq<Step>, v: World)
    requires rto >= MIN_RTO && Alive(w, who) && (who.Client? ==> At(w, who).e.openSent) && !Opening(At(w, who).e)
    requires 0 < |b| <= MAX_PDU && PartsOf(At(w, who).e, b) == [b] && At(w, who).e.remoteWindow > 0
    requires At(w, who).e.snd.sendQueue == map[] && At(w, who).e.snd.sendBuf == map[] && |At(w, who).log| + 1 < UINT32 && Good(w)
    ensures Leads(w, steps, v) && Good(v) && v.registered == w.registered && Peer(v, who) == Peer(w, who)
    ensures At(v, who).e == At(w, who).e.(snd := At(v, who).e.snd) && At(v, who).log == At(w, who).log + [DataPacket(At(w, who).e, b, 0)]
    ensures At(v, who).e.snd.sendQueue == map[]
    ensures At(v, who).e.snd.sendBuf.Keys == {|At(w, who).log|} && At(v, who).e.snd.sendBuf[|At(w, who).log|].txCount == TX_COUNT_LIMIT
  {
    hide Good, Leads, Calm, PartsOf, DataProtocol, ReceiveWindow, SideSendNew;
    var k := |At(w, who).log|;
    var s1, w1 := WriteOne(w, who, b);
    var s2, w2 := SendOnly(w1, who, rto);
    CalmGood(w1, [s2], w2);
    LeadsOn(w, [s1], w1, [s2], w2);
    OnlySent(At(w1, who), k, DataPacket(At(w, who).e, b, 0), rto);
    var s3, w3 := ResendMany(w2, who, k, rto);
    CalmGood(w2, s3, w3);
    LeadsOn(w, [s1] + [s2], w2, s3, w3);
    return [s1] + [s2] + s3, w3;
  }

  lemma {:induction false} OnlySent(a: Side, k: nat, p: Packet, rto: nat)
    requires k in a.e.snd.sendQueue && a.e.snd.sendQueue == map[k := NewSegment(p)] && a.e.snd.sendBuf == map[] && p.seqNo == k
    ensures
      (var c := SideSendNew(a, a.clock, rto);
       && c.e == a.e.(snd := c.e.snd) && c.e.snd.sendQueue == map[] && c.log == a.log
       && c.e.snd.sendBuf.Keys == {k} && c.e.snd.sendBuf[k].txCount == 1)
  {
    hide TxTimeout;
    assert MinKey(a.e.snd.sendQueue) == k;
  }

  // A small write is one fragment.
  lemma {:induction false} OneFragment(e: Endpoint, b: seq<byte>)
    requires 1280 <= e.mtu <= 1500 && 0 <= e.mode <= 4 && 0 < |b| <= 596
    ensures PartsOf(e, b) == [b]
  {
    hide MaxFragmentSize;
    FragmentSizePositive(e.mtu, SendMode(e));
  }

  // The server registers the session, and its application writes one fragment before the session
  // takes in the open request; all its transmissions are lost.
  lemma {:induction false} MutedIsReachable(cm: int, cl: int, sm: int, sl: int, first: seq<byte>, b: seq<byte>, rto: nat)
    returns (ws: seq<World>, steps: seq<Step>)
    requires 1280 <= sm <= 1500 && 0 <= sl <= 4 && 0 < |b| <= 596 && rto >= MIN_RTO
    ensures IsRun(ws, steps, cm, cl, sm, sl) && !CanOpen(ws[|steps|]) && !Late(ws[|steps|])
  {
    hide Good, Calm, Leads, Inv, Extra, PartsOf, OpenPayload, Late, DataPacket;
    var w0 := Init(cm, cl, sm, sl);
    InitGood(cm, cl, sm, sl);
    var w1 := StepGoodOpen(w0, first);
    var s2, w2 := SendRequest(w1, rto);
    CalmGood(w1, [s2], w2);
    LeadsOn(w0, [OpenStep(first)], w1, [s2], w2);
    var s3, w3 := RegisterServer(w2);
    CalmGood(w2, [s3], w3);
    LeadsOn(w0, [OpenStep(first)] + [s2], w2, [s3], w3);
    assert w3.server.e == NewEndpoint(false, sm, sl, 0);
    OneFragment(w3.server.e, b);
    var s4, w4 := WriteInVain(w3, Server, b, rto);
    LeadsOn(w0, [OpenStep(first)] + [s2] + [s3], w3, s4, w4);
    MutedEnd(w4);
    steps := [OpenStep(first)] + [s2] + [s3] + s4;
    ws := Trace(w0, steps, w4);
  }

  lemma {:induction false} MutedEnd(w: World)
    requires Opening(w.client.e) && w.server.e.state == ATTACHED && |w.server.log| == 1 && Good(w)
    requires 0 in w.server.e.snd.sendBuf && w.server.e.snd.sendBuf[0].txCount >= TX_COUNT_LIMIT && w.server.e.snd.sendBuf.Keys == {0}
    ensures !CanOpen(w) && !Late(w)
  {
    hide Inv, Extra, Early, ResponseAt, LogShape, Pair;
    InvPair(w, Server);
    ServerWithout(w.server);
  }

  lemma {:induction false} ResendOnce(w: World, who: Who, k: nat, rto: nat) returns (st: Step, v: World)
    requires rto >= MIN_RTO && Alive(w, who) && At(w, who).e.snd.sendBuf.Keys == {k} && At(w, who).e.snd.sendBuf[k].txCount < TX_COUNT_LIMIT
    requires Good(w)
    ensures Calm(w, [st], v) && Peer(v, who) == Peer(w, who) && v.registered == w.registered && At(w, who).out <= At(v, who).out
    ensures At(v, who).e == At(w, who).e.(snd := At(v, who).e.snd) && At(v, who).e.snd.sendQueue == At(w, who).e.snd.sendQueue
    ensures At(v, who).e.snd.sendBuf.Keys == {k} && At(v, who).e.snd.sendBuf[k].txCount == At(w, who).e.snd.sendBuf[k].txCount + 1
  {
    hide Inv, Extra, Early, Calm, EarliestDeadline, ResentPackets, NoneDue, TxTimeout, Refresh, Pair;
    var a := At(w, who);
    var s := a.e.snd.sendBuf[k];
    InvPair(w, who);
    var now := Max(a.clock, Max(a.e.snd.nextRetransmission, s.txTime + s.txTimeout));
    var nextTX := PassCanRun(a, Peer(w, who), now, rto);
    SmallNumbers(a, Peer(w, who));
    st := ResendStep(who, now, rto, nextTX);
    v := With(w, who, SideResend(a, now, rto, nextTX));
    CalmStep(w, st);
  }
}

/** When everything written can still be read: exactly when the session can open and the two
    sides are not both stuck behind segments sent 20 times, or nothing is queued any more. */
module Delivery {
  import opened Bytes
  import opened Fragment
  import opened Protocols
  import opened Segments
  import opened Endpoints
  import opened Transport
  import opened Handshake
  import opened Runs
  import opened Writes
  import opened Progress
  import opened Openings
  import opened Establishment

  // ---------------------------------------------------------------------------
  // More that every run keeps
  // ---------------------------------------------------------------------------

  // What is queued the peer has not received.
  ghost predicate Ahead(s: Sender, r: Receiver) {
    forall k | k in s.sendQueue :: r.nextRecv <= k
  }

  // Only session segments may be empty.
  ghost predicate Filling(log: seq<Packet>) {
    forall i | 0 <= i < |log| :: IsDataProtocol(log[i].protocol) ==> log[i].payload != []
  }

  // A client that does not wait was sent its open response.
  ghost predicate Answered(w: World) {
    Opening(w.client.e) || exists q :: q in w.server.out && q.protocol.OpenSessionResponse?
  }

  ghost predicate Apart(w: World) {
    && Ahead(w.client.e.snd, w.server.e.rcv) && Ahead(w.server.e.snd, w.client.e.rcv)
    && Filling(w.client.log) && Filling(w.server.log) && Answered(w)
  }

  ghost predicate Reached(w: World) {
    Good(w) && Apart(w)
  }

  // ---------------------------------------------------------------------------
  // What is queued is not received
  // ---------------------------------------------------------------------------

  // Every number of the new queue was queued before or is new.
  ghost predicate QueueGrows(a: Side, c: Side) {
    && (forall k | k in c.e.snd.sendQueue :: k in a.e.snd.sendQueue || k >= |a.log|)
    && a.log <= c.log
  }

  lemma {:induction false} QueuePartsQueue(a: Side, parts: seq<seq<byte>>, n: nat)
    requires n <= |parts| && a.e.snd.nextSend == |a.log| && |a.log| + n < UINT32
    ensures QueueGrows(a, SideQueueParts(a, parts, n))
    ensures forall k | k in a.e.snd.sendQueue :: k in SideQueueParts(a, parts, n).e.snd.sendQueue
    decreases n
  {
    hide SendMode, ReceiveWindow;
    if n > 0 {
      var p := DataPacket(a.e, parts[0], |parts| - 1);
      AddOneSmall(a.e.snd.nextSend);
      QueuePartsQueue(SideEnqueue(a, p), parts[1..], n - 1);
    }
  }

  lemma {:induction false} InputQueue(a: Side, now: int)
    requires a.chan != [] && a.e.snd.nextSend == |a.log|
    ensures QueueGrows(a, SideInput(a, now))
    ensures forall k | k in a.e.snd.sendQueue :: k in SideInput(a, now).e.snd.sendQueue
  {
    hide Receive, Dropped, IsAckProtocol, IsDataAckProtocol, AddOne, DropAcked, CountAck;
    var p := a.chan[0];
    if !IsAckProtocol(p.protocol) {
      ReceiveFrame(NoteLowEntropy(a.e, p), p, now);
    }
  }

  lemma {:induction false} StepQueue(w: World, st: Step, who: Who)
    requires Enabled(w, st) && Good(w)
    ensures QueueGrows(At(w, who), At(Apply(w, st), who))
    ensures !st.SendStep? ==> forall k | k in At(w, who).e.snd.sendQueue :: k in At(Apply(w, st), who).e.snd.sendQueue
  {
    hide Good, PartsOf, SideQueueParts, ReadRest, ReadsResponse, Taken, Endpoints.Input, EarliestDeadline, CanSendNew, CongestionWindow, AckDue, AckPacket, ResendTree, ResentPackets, OpenPayload, AddOne, Transmit;
    GoodNumbers(w, who);
    match st
    case OpenStep(b) =>
    case WriteStep(x, b, stop) =>
      if x == who {
        QueuePartsQueue(At(w, who), PartsOf(At(w, who).e, b), stop);
      }
    case InputStep(x, now) =>
      if x == who {
        InputQueue(At(w, who), now);
      }
    case SendStep(x, now, rto, cwnd, sent) =>
      assert At(w, x).e.snd.sendQueue != map[] by { CanSendQueued(At(w, x).e, cwnd, sent); }
    case _ =>
  }

  lemma {:induction false} CanSendQueued(e: Endpoint, cwnd: nat, sent: nat)
    requires CanSendNew(e, cwnd, sent)
    ensures e.snd.sendQueue != map[]
  {}

  // Moving segments in order stops before a number that is not there.
  lemma {:induction false} MoveAllStops(r: Receiver, q: nat)
    requires r.nextRecv <= q && q !in r.recvBuf
    ensures MoveAll(r).nextRecv <= q
    decreases |r.recvBuf|
  {
    hide MoveOne, CanMove;
    if CanMove(r) {
      MoveOneShrinks(r);
      MoveOneStops(r, q);
      MoveAllStops(MoveOne(r), q);
    }
  }

  lemma {:induction false} MoveOneStops(r: Receiver, q: nat)
    requires CanMove(r) && r.nextRecv <= q && q !in r.recvBuf
    ensures MoveOne(r).nextRecv <= q && q !in MoveOne(r).recvBuf
  {
    assert MinKey(r.recvBuf) != q;
  }

  // A queued number was never sent, so no packet and no held segment has it.
  lemma {:induction false} QueuedNotHeld(a: Side, b: Side, q: nat)
    requires Pair(a, b) && q in b.e.snd.sendQueue
    ensures q !in a.e.rcv.recvBuf && forall p | p in b.out && !IsAckProtocol(p.protocol) :: p.seqNo != q
  {
    hide Delivered, NoLoss, AcksSafe, Numbered, Matches, IsAckProtocol;
  }

  lemma {:induction false} InputStops(a: Side, b: Side, now: int, q: nat)
    requires Pair(a, b) && a.chan != [] && q in b.e.snd.sendQueue && a.e.rcv.nextRecv <= q
    ensures SideInput(a, now).e.rcv.nextRecv <= q
  {
    hide Pair, MoveAll, WindowAfter, TakeAck, InputAck, Enqueue, IsAckProtocol, Dropped;
    var p := a.chan[0];
    ConsumeKeeps(a, b);
    QueuedNotHeld(a, b, q);
    if IsAckProtocol(p.protocol) {
      InputAckFrame(a.e, p);
    } else {
      TakeAckRcv(NoteLowEntropy(a.e, p), p);
      MoveAllStops(Filed(a.e.rcv, p), q);
    }
  }

  lemma {:induction false} StepStops(w: World, st: Step, who: Who, q: nat)
    requires Enabled(w, st) && Good(w) && q in Peer(w, who).e.snd.sendQueue && At(w, who).e.rcv.nextRecv <= q
    ensures At(Apply(w, st), who).e.rcv.nextRecv <= q
  {
    hide Inv, Extra, Early, Pair, LogShape, PartsOf, SideQueueParts, ReadRest, ReadsResponse, Taken, Endpoints.Input, EarliestDeadline, CanSendNew, CongestionWindow, AckDue, AckPacket, ResendAll, ResentPackets, OpenPayload, SendNew, NextToSend, Enqueue;
    InvPair(w, who);
    match st
    case WriteStep(x, b, stop) =>
      InvPair(w, x);
      QueuePartsShape(At(w, x), PartsOf(At(w, x).e, b), stop);
    case ReadStep(x, n) =>
      ReadKeepsNext(At(w, x).e, n);
    case InputStep(x, now) =>
      if x == who {
        InputStops(At(w, who), Peer(w, who), now, q);
      }
    case SendStep(x, now, rto, cwnd, sent) =>
      assert At(w, x).e.snd.sendQueue != map[] by { CanSendQueued(At(w, x).e, cwnd, sent); }
    case _ =>
  }

  // A step of one side leaves the other alone, but for its input channel.
  lemma {:induction false} AheadStep(w: World, st: Step, who: Who)
    requires Enabled(w, st) && Good(w) && Ahead(Peer(w, who).e.snd, At(w, who).e.rcv)
    ensures Ahead(Peer(Apply(w, st), who).e.snd, At(Apply(w, st), who).e.rcv)
  {
    hide Good, Enabled, Apply;
    var a, b := At(w, who), Peer(w, who);
    var v := Apply(w, st);
    StepQueue(w, st, Other(who));
    forall k | k in Peer(v, who).e.snd.sendQueue
      ensures At(v, who).e.rcv.nextRecv <= k
    {
      if k in b.e.snd.sendQueue {
        StepStops(w, st, who, k);
      } else {
        NewIsAhead(w, st, who, k);
      }
    }
  }

  // A number that was just given is not below what the peer has received.
  lemma {:induction false} NewIsAhead(w: World, st: Step, who: Who, k: nat)
    requires Enabled(w, st) && Good(w) && k in Peer(Apply(w, st), who).e.snd.sendQueue && k >= |Peer(w, who).log|
    ensures At(Apply(w, st), who).e.rcv.nextRecv <= k
  {
    hide Good, Enabled, Apply, Pair, Inv, Extra, Early;
    GoodPair(w, who);
    StillNeeded(At(w, who), Peer(w, who));
    OneSideOnly(w, st, who);
    if Peer(Apply(w, st), who).e.snd.sendQueue == Peer(w, who).e.snd.sendQueue {
      GoodFiled(w, who, k);
    }
  }

  lemma {:induction false} GoodPair(w: World, who: Who)
    requires Good(w)
    ensures Pair(At(w, who), Peer(w, who))
  {
    hide Inv, Extra, Early, Pair, LogShape;
    InvPair(w, who);
  }

  lemma {:induction false} GoodFiled(w: World, who: Who, k: nat)
    requires Good(w) && k in Peer(w, who).e.snd.sendQueue
    ensures k < |Peer(w, who).log|
  {
    hide Inv, Extra, Early, Sending, Files;
    InvNumbers(w, Other(who));
    SendingFacts(Peer(w, who).e.snd, Peer(w, who).log, Peer(w, who).out);
    FiledBelow(Peer(w, who).e.snd.sendQueue, Peer(w, who).log);
  }

  // Either the queue of the peer or what this side has received stays the same.
  lemma {:induction false} OneSideOnly(w: World, st: Step, who: Who)
    requires Enabled(w, st)
    ensures Peer(Apply(w, st), who).e.snd.sendQueue == Peer(w, who).e.snd.sendQueue || At(Apply(w, st), who).e.rcv == At(w, who).e.rcv
  {
    hide PartsOf, SideQueueParts, ReadRest, ReadsResponse, Taken, Endpoints.Input, EarliestDeadline, CanSendNew, CongestionWindow, AckDue, AckPacket, ResendTree, ResentPackets, OpenPayload, SendNew, NextToSend, Enqueue;
    match st
    case SendStep(x, now, rto, cwnd, sent) =>
      assert At(w, x).e.snd.sendQueue != map[] by { CanSendQueued(At(w, x).e, cwnd, sent); }
    case _ =>
  }

  // ---------------------------------------------------------------------------
  // Data segments are not empty
  // ---------------------------------------------------------------------------

  lemma {:induction false} QueuePartsFilling(a: Side, parts: seq<seq<byte>>, n: nat)
    requires n <= |parts| && Filling(a.log) && forall i | 0 <= i < |parts| :: parts[i] != []
    ensures Filling(SideQueueParts(a, parts, n).log)
    decreases n
  {
    hide Enqueue, DataProtocol, ReceiveWindow, IsDataProtocol;
    if n > 0 {
      QueuePartsFilling(SideEnqueue(a, DataPacket(a.e, parts[0], |parts| - 1)), parts[1..], n - 1);
    }
  }

  lemma {:induction false} PartsNotEmpty(e: Endpoint, b: seq<byte>)
    requires b != []
    ensures forall i | 0 <= i < |PartsOf(e, b)| :: PartsOf(e, b)[i] != []
  {
    hide MaxFragmentSize, SendMode, Fragments;
    if PartsOf(e, b) != [] {
      FragmentsOf(b, MaxFragmentSize(e.mtu, PacketTransport, SendMode(e)).value);
    }
  }

  lemma {:induction false} FillingStep(w: World, st: Step, who: Who)
    requires Enabled(w, st) && Filling(At(w, who).log)
    ensures Filling(At(Apply(w, st), who).log)
  {
    hide PartsOf, SideQueueParts, ReadRest, ReadsResponse, Taken, Endpoints.Input, EarliestDeadline, CanSendNew, CongestionWindow, AckDue, AckPacket, ResendTree, ResentPackets, OpenPayload, SendNew, NextToSend, Enqueue, Responds;
    match st
    case WriteStep(x, b, stop) =>
      PartsNotEmpty(At(w, x).e, b);
      if x == who {
        QueuePartsFilling(At(w, x), PartsOf(At(w, x).e, b), stop);
      }
    case SendStep(x, now, rto, cwnd, sent) =>
      assert At(w, x).e.snd.sendQueue != map[] by { CanSendQueued(At(w, x).e, cwnd, sent); }
    case _ =>
  }

  // ---------------------------------------------------------------------------
  // Every run
  // ---------------------------------------------------------------------------

  lemma {:induction false} OutGrows(w: World, st: Step, who: Who)
    requires Enabled(w, st)
    ensures At(w, who).out <= At(Apply(w, st), who).out
  {
    hide PartsOf, SideQueueParts, ReadRest, ReadsResponse, Taken, Endpoints.Input, EarliestDeadline, CanSendNew, CongestionWindow, AckDue, AckPacket, ResendTree, ResentPackets, OpenPayload, SendNew, NextToSend, Enqueue;
    match st
    case WriteStep(x, b, stop) =>
      QueuePartsOut(At(w, x), PartsOf(At(w, x).e, b), stop);
    case SendStep(x, now, rto, cwnd, sent) =>
      assert At(w, x).e.snd.sendQueue != map[] by { CanSendQueued(At(w, x).e, cwnd, sent); }
    case _ =>
  }

  lemma {:induction false} QueuePartsOut(a: Side, parts: seq<seq<byte>>, n: nat)
    requires n <= |parts|
    ensures SideQueueParts(a, parts, n).out == a.out
    decreases n
  {
    hide Enqueue, DataPacket;
    if n > 0 {
      QueuePartsOut(SideEnqueue(a, DataPacket(a.e, parts[0], |parts| - 1)), parts[1..], n - 1);
    }
  }

  lemma {:induction false} AnsweredStep(w: World, st: Step)
    requires Enabled(w, st) && Good(w) && Answered(w)
    ensures Answered(Apply(w, st))
  {
    hide Inv, Extra, Early, Enabled, Apply;
    OutGrows(w, st, Server);
    if forall q | q in w.server.out :: !q.protocol.OpenSessionResponse? {
      StaysOpening(w, st);
    }
  }

  lemma {:induction false} StepReached(w: World, st: Step)
    requires Enabled(w, st) && Reached(w)
    ensures Reached(Apply(w, st))
  {
    hide Good, Ahead, Filling, Answered, Enabled, Apply;
    StepGood(w, st);
    AheadStep(w, st, Client);
    AheadStep(w, st, Server);
    FillingStep(w, st, Client);
    FillingStep(w, st, Server);
    AnsweredStep(w, st);
  }

  lemma {:induction false} InitReached(cm: int, cl: int, sm: int, sl: int)
    ensures Reached(Init(cm, cl, sm, sl))
  {
    hide Good;
    InitGood(cm, cl, sm, sl);
  }

  lemma {:induction false} RunReached(ws: seq<World>, steps: seq<Step>, cm: int, cl: int, sm: int, sl: int, i: nat)
    requires IsRun(ws, steps, cm, cl, sm, sl) && i < |ws|
    ensures Reached(ws[i])
  {
    hide Reached, Enabled, Apply, Init;
    if i == 0 {
      InitReached(cm, cl, sm, sl);
    } else {
      RunReached(ws, steps, cm, cl, sm, sl, i - 1);
      StepReached(ws[i - 1], steps[i - 1]);
    }
  }

  lemma {:induction false} LaterReached(w: World, time: int)
    requires Reached(w)
    ensures Reached(Later(w, time))
  {
    hide Good, Filling;
    LaterGood(w, time);
  }

  lemma {:induction false} LeadsReached(w: World, steps: seq<Step>, v: World)
    requires Reached(w) && Leads(w, steps, v)
    ensures Reached(v)
    decreases |steps|
  {
    hide Reached, Enabled, Apply, Orderly;
    if steps != [] {
      StepReached(w, steps[0]);
      LeadsReached(Apply(w, steps[0]), steps[1..], v);
    }
  }

  // ---------------------------------------------------------------------------
  // Everything can be read
  // ---------------------------------------------------------------------------

  // No byte was written.
  predicate SameBytes(w: World, v: World) {
    Payloads(v.client.log) == Payloads(w.client.log) && Payloads(v.server.log) == Payloads(w.server.log)
  }

  // Both applications have read everything that the other has written in w.
  predicate AllRead(w: World, v: World) {
    v.client.got == Payloads(w.server.log) && v.server.got == Payloads(w.client.log)
  }

  lemma {:induction false} AnsweredPayloads(w: World, v: World)
    requires OnlyAnswered(w, v)
    ensures SameBytes(w, v)
  {
    hide Payloads;
    if v.server.log != w.server.log {
      var p: Packet :| p.payload == [] && v.server.log == w.server.log + [p];
      PayloadsAppend(w.server.log, p);
    }
  }

  // An established session.
  lemma {:induction false} DeliverLive(w: World, rto: nat) returns (steps: seq<Step>, v: World)
    requires rto >= MIN_RTO && Live(w) && (Hopeful(w) || NothingQueued(w))
    ensures Leads(w, steps, v) && SameBytes(w, v) && AllRead(w, v) && v.client.e.state == ESTABLISHED
  {
    hide Live, Continues, Payloads, Leads, Stuck;
    if Hopeful(w) {
      steps, v := DeliverAll(w, rto);
    } else {
      steps, v := ReadSent(w);
    }
    ContinuesLeads(w, steps, v);
  }

  lemma {:induction false} ContinuesLeads(w: World, steps: seq<Step>, v: World)
    requires Continues(w, steps, v)
    ensures Leads(w, steps, v) && v.client.log == w.client.log && v.server.log == w.server.log && v.client.e.state == ESTABLISHED
  {
    hide Inv, Extra, Leads;
  }

  // A session that was opened.
  lemma {:induction false} DeliverOpened(w: World, rto: nat) returns (steps: seq<Step>, v: World)
    requires rto >= MIN_RTO && w.client.e.openSent && |w.client.log| + 1 < UINT32 && |w.server.log| + 2 < UINT32
    requires CanOpen(w) && (Hopeful(w) || NothingQueued(w)) && Good(w)
    ensures Leads(w, steps, v) && SameBytes(w, v) && AllRead(w, v) && v.client.e.state == ESTABLISHED
  {
    hide Good, Live, Payloads, Leads, Hopeful, CanOpen, NothingQueued, OnlyAnswered;
    var s1, w1 := Establish(w, rto);
    var s2, w2 := DeliverLive(w1, rto);
    LeadsOn(w, s1, w1, s2, w2);
    AnsweredPayloads(w, w1);
    return s1 + s2, w2;
  }

  // A session that was not opened yet: it is opened without data.
  lemma {:induction false} OpenEmpty(w: World) returns (v: World)
    requires w.client.e.state == ATTACHED && !w.client.e.openSent && CanOpen(w) && Good(w)
    ensures Leads(w, [OpenStep([])], v) && Good(v) && v.client.e.openSent && CanOpen(v) && Hopeful(v) && SameBytes(w, v)
    ensures |v.client.log| == 1 && v.server.log == w.server.log
  {
    hide Inv, Extra, Early, Leads, ResponseAt, Payloads, Stuck;
    GoodClient(w);
    v := StepGoodOpen(w, []);
    FreshCanOpen(w, v);
    PayloadsAppend([], OpenRequest(w.client.e, []));
    assert [] + [OpenRequest(w.client.e, [])] == v.client.log;
    assert OpenRequest(w.client.e, []).payload == [];
    NothingToResend(v);
    NotExhaustedFree(v.server, v.client);
  }

  // A server that has numbered nothing holds nothing.
  lemma {:induction false} NothingToResend(w: World)
    requires w.server.log == [] && Good(w)
    ensures NoneExhausted(w.server.e.snd.sendBuf)
  {
    hide Inv, Extra, Early, Sending, Files;
    InvNumbers(w, Server);
    SendingFacts(w.server.e.snd, w.server.log, w.server.out);
    FiledBelow(w.server.e.snd.sendBuf, w.server.log);
  }

  // From every reachable world in which the session can open and one side is not stuck or
  // nothing is queued, at whatever time and with whatever retransmission timeout, the run can
  // go on, without another byte written, until the session is established and both
  // applications have read everything the other has written.
  lemma {:induction false} NoDeadlock(ws: seq<World>, steps: seq<Step>, cm: int, cl: int, sm: int, sl: int, i: nat, time: int, rto: nat)
    returns (more: seq<Step>, v: World)
    requires rto >= MIN_RTO && IsRun(ws, steps, cm, cl, sm, sl) && i < |ws|
    requires CanOpen(ws[i]) && (Hopeful(ws[i]) || NothingQueued(ws[i]))
    requires |ws[i].client.log| + 1 < UINT32 && |ws[i].server.log| + 2 < UINT32
    ensures |ws| == |steps| + 1 && Leads(Later(ws[i], time), more, v) && SameBytes(ws[i], v) && v.client.e.state == ESTABLISHED
    ensures v.client.got == Payloads(ws[i].server.log) && v.server.got == Payloads(ws[i].client.log)
  {
    hide IsRun, Good, Leads, Payloads, Hopeful, CanOpen, NothingQueued;
    RunLength(ws, steps, cm, cl, sm, sl);
    RunGood(ws, steps, cm, cl, sm, sl, i);
    LaterGood(ws[i], time);
    LaterHope(ws[i], time);
    more, v := Deliver(Later(ws[i], time), rto);
  }

  lemma {:induction false} LaterHope(w: World, time: int)
    ensures CanOpen(Later(w, time)) == CanOpen(w) && Hopeful(Later(w, time)) == Hopeful(w) && NothingQueued(Later(w, time)) == NothingQueued(w)
  {
    hide CanOpen;
    LaterCanOpen(w, time);
  }

  lemma {:induction false} Deliver(w: World, rto: nat) returns (more: seq<Step>, v: World)
    requires rto >= MIN_RTO && CanOpen(w) && (Hopeful(w) || NothingQueued(w)) && Good(w)
    requires |w.client.log| + 1 < UINT32 && |w.server.log| + 2 < UINT32
    ensures Leads(w, more, v) && SameBytes(w, v) && AllRead(w, v) && v.client.e.state == ESTABLISHED
  {
    hide Good, Leads, Payloads, Hopeful, CanOpen, NothingQueued;
    GoodClient(w);
    GoodOpened(w);
    if w.client.e.openSent {
      more, v := DeliverOpened(w, rto);
    } else {
      var u := OpenEmpty(w);
      var s2, x := DeliverOpened(u, rto);
      LeadsOn(w, [OpenStep([])], u, s2, x);
      more, v := [OpenStep([])] + s2, x;
    }
  }

  // An established client has opened the session.
  lemma {:induction false} GoodOpened(w: World)
    requires Good(w)
    ensures w.client.e.state == ESTABLISHED ==> w.client.e.openSent
  {
    hide Pair, Settled, Timed, OutShape, Early, Lined, Accepts;
    if w.client.e.state == ESTABLISHED {
      RegisteredMeansOpened(w);
    }
  }

  // ---------------------------------------------------------------------------
  // Nothing more can be sent
  // ---------------------------------------------------------------------------

  // Every output round of the side from now on ends the session.
  ghost predicate Blocked(a: Side, b: Side, k: nat) {
    && k in a.e.snd.sendBuf && a.e.snd.sendBuf[k].txCount >= TX_COUNT_LIMIT && Uncovered(b.out, k)
    && a.clock >= a.e.snd.nextRetransmission
  }

  lemma {:induction false} BlockedInput(a: Side, b: Side, now: int, k: nat)
    requires Blocked(a, b, k) && a.chan != [] && a.chan[0] in b.out
    ensures
      (var c := SideInput(a, now);
       && k in c.e.snd.sendBuf && c.e.snd.sendBuf[k].txCount >= TX_COUNT_LIMIT && c.clock >= c.e.snd.nextRetransmission)
  {
    hide Receive, Dropped, IsAckProtocol, IsDataAckProtocol, AddOne;
    var p := a.chan[0];
    if !IsAckProtocol(p.protocol) {
      ReceiveFrame(NoteLowEntropy(a.e, p), p, now);
    } else {
      AckIsDataAck(p.protocol);
    }
  }

  // A blocked side sends nothing and stays as it is.
  lemma {:induction false} BlockedStep(w: World, st: Step, who: Who, k: nat)
    requires Enabled(w, st) && Orderly(w, st) && Good(w) && Blocked(At(w, who), Peer(w, who), k)
    ensures
      (var c := At(Apply(w, st), who);
       && c.out == At(w, who).out && k in c.e.snd.sendBuf && c.e.snd.sendBuf[k].txCount >= TX_COUNT_LIMIT
       && c.clock >= c.e.snd.nextRetransmission)
    ensures st.SendStep? ==> st.who != who
  {
    hide Inv, Extra, Early, Uncovered, LogShape, PartsOf, SideQueueParts, ReadRest, ReadsResponse, Taken, Endpoints.Input, SendNew, NextToSend, EarliestDeadline, CanSendNew, CongestionWindow, AckDue, AckPacket, ResendTree, ResentPackets, OpenPayload, Enqueue;
    match st
    case OpenStep(b) =>
      OpenKeepsBuf(w.client, b);
    case WriteStep(x, b, stop) =>
      InvPair(w, x);
      QueuePartsShape(At(w, x), PartsOf(At(w, x).e, b), stop);
      QueuePartsTimes(At(w, x), PartsOf(At(w, x).e, b), stop);
    case InputStep(x, now) =>
      if x == who {
        InvFlight(w, who);
        BlockedInput(At(w, who), Peer(w, who), now, k);
      }
    case SendStep(x, now, rto, cwnd, sent) =>
      assert At(w, x).e.snd.sendQueue != map[] by { CanSendQueued(At(w, x).e, cwnd, sent); }
    case _ =>
  }

  lemma {:induction false} OpenKeepsBuf(a: Side, b: seq<byte>)
    ensures
      (var c := SideWriteOpen(a, b);
       c.out == a.out && c.e.snd.sendBuf == a.e.snd.sendBuf && c.clock == a.clock && c.e.snd.nextRetransmission == a.e.snd.nextRetransmission)
  {
    hide OpenRequest, AddOne;
  }

  // Both sides are blocked, and number q of one of them is queued.
  ghost predicate Dead(w: World, j: nat, k: nat, who: Who, q: nat) {
    Blocked(w.client, w.server, j) && Blocked(w.server, w.client, k) && q in At(w, who).e.snd.sendQueue
  }

  lemma {:induction false} DeadStep(w: World, st: Step, j: nat, k: nat, who: Who, q: nat)
    requires Dead(w, j, k, who, q) && Enabled(w, st) && Orderly(w, st) && Reached(w)
    ensures Dead(Apply(w, st), j, k, who, q) && Reached(Apply(w, st)) && At(w, who).log <= At(Apply(w, st), who).log
  {
    hide Good, Apart, Enabled, Apply, Orderly, Uncovered;
    BlockedStep(w, st, Client, j);
    BlockedStep(w, st, Server, k);
    StepQueue(w, st, who);
    StepReached(w, st);
  }

  lemma {:induction false} DeadLeads(w: World, steps: seq<Step>, v: World, j: nat, k: nat, who: Who, q: nat)
    requires Dead(w, j, k, who, q) && Reached(w) && Leads(w, steps, v)
    ensures Dead(v, j, k, who, q) && Reached(v) && At(w, who).log <= At(v, who).log
    decreases |steps|
  {
    hide Dead, Reached, Enabled, Apply, Orderly;
    if steps != [] {
      DeadStep(w, steps[0], j, k, who, q);
      DeadLeads(Apply(w, steps[0]), steps[1..], v, j, k, who, q);
    }
  }

  lemma {:induction false} PayloadsGrow(log: seq<Packet>, m: nat, n: nat)
    requires m <= n <= |log|
    ensures |Payloads(log[..m])| <= |Payloads(log[..n])|
  {
    hide Payloads;
    PayloadsPrefix(log[..n], m);
    assert log[..n][..m] == log[..m];
  }

  // What was read is shorter than what was written when a data segment is still queued.
  lemma {:induction false} ReadTooLittle(w: World, who: Who, q: nat, log: seq<Packet>)
    requires q in Peer(w, who).e.snd.sendQueue && q < |log| && log <= Peer(w, who).log && log[q].payload != [] && Reached(w)
    ensures |At(w, who).got| < |Payloads(log)|
  {
    hide Good, Pair, Payloads, Filling, Answered;
    var a, b := At(w, who), Peer(w, who);
    GoodPair(w, who);
    DeliveredTo(a, b);
    var n := QueueStart(a.e.rcv);
    assert n <= q;
    assert b.log[..n] == log[..n];
    PayloadsGrow(log, n, q);
    PayloadsAppend(log[..q], log[q]);
    assert log[..q] + [log[q]] == log[..q + 1];
    PayloadsGrow(log, q + 1, |log|);
    assert log[..|log|] == log;
  }

  // ---------------------------------------------------------------------------
  // Everything can be read exactly when
  // ---------------------------------------------------------------------------

  // When both sides are stuck and the session can open, what is queued is data.
  lemma {:induction false} QueuedIsData(w: World, who: Who, q: nat)
    requires q in At(w, who).e.snd.sendQueue && CanOpen(w) && !Hopeful(w) && Reached(w)
    ensures q < |At(w, who).log| && IsDataProtocol(At(w, who).log[q].protocol)
  {
    hide Good, Apart, CanOpen, IsDataProtocol;
    if who.Client? {
      ClientQueuesData(w, q);
    } else {
      ServerQueuesData(w, q);
    }
  }

  lemma {:induction false} ClientQueuesData(w: World, q: nat)
    requires q in w.client.e.snd.sendQueue && Stuck(w.client, w.server) && Good(w)
    ensures q < |w.client.log| && IsDataProtocol(w.client.log[q].protocol)
  {
    hide Inv, Early, Pair, Uncovered, IsDataProtocol, Accepts, SentTo;
    InvPair(w, Client);
    GoodFiled(w, Server, q);
    var k :| k in w.client.e.snd.sendBuf && w.client.e.snd.sendBuf[k].txCount >= TX_COUNT_LIMIT && Uncovered(w.server.out, k);
  }

  lemma {:induction false} ServerQueuesData(w: World, q: nat)
    requires q in w.server.e.snd.sendQueue && Stuck(w.server, w.client) && CanOpen(w) && Reached(w)
    ensures q < |w.server.log| && IsDataProtocol(w.server.log[q].protocol)
  {
    hide Inv, Extra, Early, Pair, LogShape, Ahead, Filling, ResponseAt, IsDataProtocol, Uncovered;
    GoodFiled(w, Client, q);
    ResponseNotQueued(w);
    InvPair(w, Server);
    InvNumbers(w, Server);
    NotResponseIsData(w.server, q);
  }

  lemma {:induction false} NotResponseIsData(a: Side, q: nat)
    requires !a.e.isClient && LogShape(a.e, a.log) && Sending(a.e.snd, a.log, a.out) && q < |a.log| && q != ResponseAt(a.log)
    ensures IsDataProtocol(a.log[q].protocol)
  {
    hide ResponseAt, Files, Matches;
    if a.log[q].protocol.OpenSessionResponse? {
      ResponseIs(a.log, q);
    }
  }

  lemma {:induction false} ResponseNotQueued(w: World)
    requires Stuck(w.server, w.client) && CanOpen(w) && Good(w) && Answered(w)
    ensures ResponseAt(w.server.log) !in w.server.e.snd.sendQueue
  {
    hide Inv, Extra, Early, ResponseAt, Uncovered, Sending;
    if Opening(w.client.e) {
      InvNumbers(w, Server);
      SendingFacts(w.server.e.snd, w.server.log, w.server.out);
    } else {
      var q :| q in w.server.out && q.protocol.OpenSessionResponse?;
      SentResponse(w, q);
    }
  }

  ghost predicate CanFinish(w: World, sent: seq<byte>, received: seq<byte>) {
    exists more, v :: Leads(w, more, v) && v.client.e.state == ESTABLISHED && v.server.got == sent && v.client.got == received
  }

  // When both retransmission checks are due.
  function BothDue(w: World): int { Max(w.client.e.snd.nextRetransmission, w.server.e.snd.nextRetransmission) }

  lemma {:induction false} StuckForever(w: World, who: Who, q: nat)
    requires q in At(w, who).e.snd.sendQueue && CanOpen(w) && !Hopeful(w) && Reached(w)
    ensures !CanFinish(Later(w, BothDue(w)), Payloads(w.client.log), Payloads(w.server.log))
  {
    hide Reached, Leads, Payloads, CanOpen, Uncovered;
    var u := Later(w, BothDue(w));
    LaterReached(w, BothDue(w));
    QueuedIsData(w, who, q);
    ReachedFilling(w, who, q);
    var j :| j in w.client.e.snd.sendBuf && w.client.e.snd.sendBuf[j].txCount >= TX_COUNT_LIMIT && Uncovered(w.server.out, j);
    var k :| k in w.server.e.snd.sendBuf && w.server.e.snd.sendBuf[k].txCount >= TX_COUNT_LIMIT && Uncovered(w.client.out, k);
    assert Dead(u, j, k, who, q);
    forall more, v | Leads(u, more, v)
      ensures |At(v, Other(who)).got| < |Payloads(At(w, who).log)|
    {
      DeadLeads(u, more, v, j, k, who, q);
      DeadQueued(v, j, k, who, q);
      ReadTooLittle(v, Other(who), q, At(w, who).log);
    }
  }

  lemma {:induction false} DeadQueued(w: World, j: nat, k: nat, who: Who, q: nat)
    requires Dead(w, j, k, who, q)
    ensures q in At(w, who).e.snd.sendQueue
  {
    hide Blocked;
  }

  lemma {:induction false} ReachedFilling(w: World, who: Who, q: nat)
    requires Reached(w) && q < |At(w, who).log| && IsDataProtocol(At(w, who).log[q].protocol)
    ensures At(w, who).log[q].payload != []
  {
    hide Good, Ahead, Answered, IsDataProtocol;
  }

  // From a reachable world the session can, however late it has become, be established and
  // both applications read everything written so far, if and only if it can open and either
  // one side is not stuck or nothing is queued.
  lemma {:induction false} DeliversExactly(ws: seq<World>, steps: seq<Step>, cm: int, cl: int, sm: int, sl: int, i: nat)
    requires IsRun(ws, steps, cm, cl, sm, sl) && i < |ws| && |ws| == |steps| + 1
    requires |ws[i].client.log| + 1 < UINT32 && |ws[i].server.log| + 2 < UINT32
    ensures (forall time: int :: CanFinish(Later(ws[i], time), Payloads(ws[i].client.log), Payloads(ws[i].server.log)))
            <==> CanOpen(ws[i]) && (Hopeful(ws[i]) || NothingQueued(ws[i]))
  {
    hide IsRun, Reached, Leads, Payloads, CanOpen, Hopeful, CanFinish;
    RunReached(ws, steps, cm, cl, sm, sl, i);
    var w := ws[i];
    if CanOpen(w) && (Hopeful(w) || NothingQueued(w)) {
      forall time: int
        ensures CanFinish(Later(w, time), Payloads(w.client.log), Payloads(w.server.log))
      {
        var more, v := NoDeadlock(ws, steps, cm, cl, sm, sl, i, time, INITIAL_RTO);
        Finishes(Later(w, time), more, v);
      }
    } else {
      var time := Fails(w);
      assert !CanFinish(Later(w, time), Payloads(w.client.log), Payloads(w.server.log));
    }
  }

  // The same over the calls of Write: however late it has become, the session can be established
  // and both applications read everything that the calls of the other handed over - all of their
  // data, if they succeeded - if and only if the world of the program meets that condition.
  lemma {:induction false} CallsDeliverExactly(ps: seq<Program>, evs: seq<Event>, cm: int, cl: int, sm: int, sl: int, i: nat)
    returns (client: seq<seq<byte>>, server: seq<seq<byte>>)
    requires IsProgram(ps, evs, cm, cl, sm, sl) && i < |ps|
    requires |ps[i].w.client.log| + 1 < UINT32 && |ps[i].w.server.log| + 2 < UINT32
    ensures
      (var w, cs, ss := ps[i].w, Calls(ps[i].client), Calls(ps[i].server);
       && AllCarry(cs, client) && AllCarry(ss, server)
       && ((forall time: int :: CanFinish(Later(w, time), Flatten(client), Flatten(server)))
           <==> CanOpen(w) && (Hopeful(w) || NothingQueued(w)))
       && (AllOk(cs) ==> Flatten(client) == Data(cs)) && (AllOk(ss) ==> Flatten(server) == Data(ss)))
  {
    hide IsProgram, IsRun, Leads, Payloads, CanOpen, Hopeful, CanFinish, Flatten, AllCarry, AllOk, Data, Accounts;
    client := LogIsWritten(ps, evs, cm, cl, sm, sl, i, Client);
    server := LogIsWritten(ps, evs, cm, cl, sm, sl, i, Server);
    var ws, steps := ProgramIsRun(ps, evs, cm, cl, sm, sl, i);
    DeliversExactly(ws, steps, cm, cl, sm, sl, |steps|);
    if AllOk(Calls(ps[i].client)) {
      OkCarryAll(Calls(ps[i].client), client);
    }
    if AllOk(Calls(ps[i].server)) {
      OkCarryAll(Calls(ps[i].server), server);
    }
  }

  lemma {:induction false} Finishes(w: World, more: seq<Step>, v: World)
    requires Leads(w, more, v) && v.client.e.state == ESTABLISHED
    ensures CanFinish(w, v.server.got, v.client.got)
  {
    hide Leads;
  }

  lemma {:induction false} Fails(w: World) returns (time: int)
    requires !(CanOpen(w) && (Hopeful(w) || NothingQueued(w))) && Reached(w)
    ensures !CanFinish(Later(w, time), Payloads(w.client.log), Payloads(w.server.log))
  {
    hide Good, Apart, Leads, Payloads, CanOpen, Hopeful;
    if !CanOpen(w) {
      NeverOpens(w);
      return w.server.e.snd.nextRetransmission;
    }
    if w.client.e.snd.sendQueue != map[] {
      StuckForever(w, Client, MinKey(w.client.e.snd.sendQueue));
    } else {
      StuckForever(w, Server, MinKey(w.server.e.snd.sendQueue));
    }
    return BothDue(w);
  }

  // ---------------------------------------------------------------------------
  // A run to a world in which both sides are stuck
  // ---------------------------------------------------------------------------

  lemma {:induction false} StepConfig(w: World, st: Step, who: Who)
    requires Enabled(w, st)
    ensures At(Apply(w, st), who).e.mtu == At(w, who).e.mtu && At(Apply(w, st), who).e.mode == At(w, who).e.mode
  {
    hide PartsOf, SideQueueParts, ReadRest, ReadsResponse, Taken, Endpoints.Input, EarliestDeadline, CanSendNew, CongestionWindow, AckDue, AckPacket, ResendTree, ResentPackets, OpenPayload, SendNew, NextToSend, Enqueue;
    match st
    case WriteStep(x, b, stop) =>
      QueuePartsConfig(At(w, x), PartsOf(At(w, x).e, b), stop);
    case InputStep(x, now) =>
      InputConfig(At(w, x), now);
    case SendStep(x, now, rto, cwnd, sent) =>
      assert At(w, x).e.snd.sendQueue != map[] by { CanSendQueued(At(w, x).e, cwnd, sent); }
    case _ =>
  }

  lemma {:induction false} QueuePartsConfig(a: Side, parts: seq<seq<byte>>, n: nat)
    requires n <= |parts|
    ensures SideQueueParts(a, parts, n).e.mtu == a.e.mtu && SideQueueParts(a, parts, n).e.mode == a.e.mode
    decreases n
  {
    hide Enqueue, DataPacket;
    if n > 0 {
      QueuePartsConfig(SideEnqueue(a, DataPacket(a.e, parts[0], |parts| - 1)), parts[1..], n - 1);
    }
  }

  lemma {:induction false} InputConfig(a: Side, now: int)
    requires a.chan != []
    ensures SideInput(a, now).e.mtu == a.e.mtu && SideInput(a, now).e.mode == a.e.mode
  {
    hide Receive, Dropped, IsAckProtocol, DropAcked, CountAck, Enqueue;
    var p := a.chan[0];
    if !IsAckProtocol(p.protocol) {
      ReceiveFrame(NoteLowEntropy(a.e, p), p, now);
    }
  }

  lemma {:induction false} LeadsConfig(w: World, steps: seq<Step>, v: World, who: Who)
    requires Leads(w, steps, v)
    ensures At(v, who).e.mtu == At(w, who).e.mtu && At(v, who).e.mode == At(w, who).e.mode
    decreases |steps|
  {
    hide Enabled, Apply, Orderly;
    if steps != [] {
      StepConfig(w, steps[0], who);
      LeadsConfig(Apply(w, steps[0]), steps[1..], v, who);
    }
  }

  // Nothing is queued or outstanding, and both windows are open.
  predicate AtRest(w: World) {
    && NothingQueued(w) && w.client.e.snd.sendBuf == map[] && w.server.e.snd.sendBuf == map[]
    && w.client.e.remoteWindow > 0 && w.server.e.remoteWindow > 0
  }

  lemma {:induction false} Rest(w: World, rto: nat) returns (steps: seq<Step>, v: World)
    requires rto >= MIN_RTO && Live(w) && Hopeful(w)
    ensures Continues(w, steps, v) && AtRest(v)
  {
    hide Live, Continues, Stuck;
    var s1, w1 := Settle(w, if Stuck(w.client, w.server) then Server else Client, rto);
    ContinuesLive(w, s1, w1);
    var s2, w2 := Flush(w1, Client, rto);
    ContinuesLive(w1, s2, w2);
    ContinueOn(w, s1, w1, s2, w2);
    var s3, w3 := Flush(w2, Server, rto);
    ContinuesLive(w2, s3, w3);
    ContinueOn(w, s1 + s2, w2, s3, w3);
    var s4, w4 := AckRound(w3, Client);
    ContinuesLive(w3, s4, w4);
    ContinueOn(w, s1 + s2 + s3, w3, s4, w4);
    var s5, w5 := AckRound(w4, Server);
    ContinueOn(w, s1 + s2 + s3 + s4, w4, s5, w5);
    return s1 + s2 + s3 + s4 + s5, w5;
  }

  // A new session can come to rest.
  lemma {:induction false} NewAtRest(cm: int, cl: int, sm: int, sl: int, rto: nat) returns (steps: seq<Step>, v: World)
    requires rto >= MIN_RTO
    ensures Leads(Init(cm, cl, sm, sl), steps, v) && Live(v) && AtRest(v) && |v.client.log| <= 1 && |v.server.log| <= 1
  {
    hide Good, Live, Leads, Stuck, Continues, CanOpen, Hopeful;
    var w0 := Init(cm, cl, sm, sl);
    InitGood(cm, cl, sm, sl);
    InitCanOpen(cm, cl, sm, sl);
    var w1 := OpenEmpty(w0);
    var s2, w2 := Establish(w1, rto);
    LeadsOn(w0, [OpenStep([])], w1, s2, w2);
    var s3, w3 := Rest(w2, rto);
    ContinuesLive(w2, s3, w3);
    ContinuesLeads(w2, s3, w3);
    LeadsOn(w0, [OpenStep([])] + s2, w2, s3, w3);
    return [OpenStep([])] + s2 + s3, w3;
  }

  lemma {:induction false} InitCanOpen(cm: int, cl: int, sm: int, sl: int)
    ensures CanOpen(Init(cm, cl, sm, sl)) && Init(cm, cl, sm, sl).client.e.state == ATTACHED && !Init(cm, cl, sm, sl).client.e.openSent
    ensures Init(cm, cl, sm, sl).server.log == []
  {}

  // Acknowledgements of a side do not reach beyond what it has taken.
  lemma {:induction false} AcksBelow(w: World, who: Who, k: nat)
    requires Good(w) && At(w, who).e.rcv.nextRecv <= k
    ensures Uncovered(At(w, who).out, k)
  {
    hide Inv, Extra, Early, Link, Sending, Receiving, IsDataAckProtocol;
    GoodPair(w, who);
  }

  lemma {:induction false} IsStuck(w: World, who: Who, k: nat)
    requires k in At(w, who).e.snd.sendBuf && At(w, who).e.snd.sendBuf[k].txCount >= TX_COUNT_LIMIT
    requires Peer(w, who).e.rcv.nextRecv <= k && Good(w)
    ensures Stuck(At(w, who), Peer(w, who))
  {
    hide Good, Uncovered;
    AcksBelow(w, Other(who), k);
  }

  lemma {:induction false} GoodNeeded(w: World, who: Who)
    requires Good(w)
    ensures At(w, who).e.rcv.nextRecv <= |Peer(w, who).log|
  {
    hide Good, Pair;
    GoodPair(w, who);
    StillNeeded(At(w, who), Peer(w, who));
  }

  // Each side writes one fragment, all of whose transmissions are lost, and the client one more.
  lemma {:induction false} BothInVain(w: World, b: seq<byte>, rto: nat) returns (steps: seq<Step>, v: World)
    requires rto >= MIN_RTO && 0 < |b| <= 596 && AtRest(w) && |w.client.log| <= 1 && |w.server.log| <= 1
    requires 1280 <= w.client.e.mtu <= 1500 && 0 <= w.client.e.mode <= 4 && 1280 <= w.server.e.mtu <= 1500 && 0 <= w.server.e.mode <= 4
    requires w.registered && w.client.e.state == ESTABLISHED && w.client.e.openSent && !Opening(w.server.e) && Good(w)
    ensures Leads(w, steps, v) && !Hopeful(v) && !NothingQueued(v) && v.client.e.state == ESTABLISHED
  {
    hide Good, Leads, PartsOf, DataPacket, SideEnqueue, Stuck;
    GoodNeeded(w, Client);
    GoodNeeded(w, Server);
    OneFragment(w.client.e, b);
    OneFragment(w.server.e, b);
    var s1, w1 := WriteInVain(w, Client, b, rto);
    var s2, w2 := WriteInVain(w1, Server, b, rto);
    LeadsOn(w, s1, w1, s2, w2);
    OneFragment(w2.client.e, b);
    var s3, w3 := WriteOne(w2, Client, b);
    LeadsOn(w, s1 + s2, w2, [s3], w3);
    EnqueuedOnly(w2.client, DataPacket(w2.client.e, b, 0));
    IsStuck(w3, Client, |w.client.log|);
    IsStuck(w3, Server, |w.server.log|);
    assert |w2.client.log| in w3.client.e.snd.sendQueue;
    return s1 + s2 + [s3], w3;
  }

  lemma {:induction false} EnqueuedOnly(a: Side, p: Packet)
    ensures
      (var c := SideEnqueue(a, p);
       c.e.snd.sendBuf == a.e.snd.sendBuf && c.e.rcv == a.e.rcv && c.e.state == a.e.state && c.out == a.out)
  {
    hide AddOne;
  }

  // Such a world is reached with every MTU in range and every low entropy mode.
  lemma {:induction false} StuckIsReachable(cm: int, cl: int, sm: int, sl: int, b: seq<byte>, rto: nat)
    returns (ws: seq<World>, steps: seq<Step>)
    requires 1280 <= cm <= 1500 && 0 <= cl <= 4 && 1280 <= sm <= 1500 && 0 <= sl <= 4 && 0 < |b| <= 596 && rto >= MIN_RTO
    ensures IsRun(ws, steps, cm, cl, sm, sl)
    ensures ws[|steps|].client.e.state == ESTABLISHED && !Hopeful(ws[|steps|]) && !NothingQueued(ws[|steps|])
  {
    hide Good, Leads, Live, Hopeful, NothingQueued, AtRest;
    var w0 := Init(cm, cl, sm, sl);
    var s1, w1 := NewAtRest(cm, cl, sm, sl, rto);
    InitReached(cm, cl, sm, sl);
    LeadsReached(w0, s1, w1);
    LeadsConfig(w0, s1, w1, Client);
    LeadsConfig(w0, s1, w1, Server);
    LiveEstablished(w1);
    LiveRegistered(w1);
    GoodOpened(w1);
    GoodClient(w1);
    var s2, w2 := BothInVain(w1, b, rto);
    LeadsOn(w0, s1, w1, s2, w2);
    ws := Trace(w0, s1 + s2, w2);
    steps := s1 + s2;
  }

  lemma {:induction false} LiveRegistered(w: World)
    requires Live(w)
    ensures w.registered && !Opening(w.server.e)
  {
    hide Pair, LogShape, OutShape, Settled, Timed, Extra;
  }
}

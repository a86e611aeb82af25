/** What single steps do, in every run: when a segment is sent again and when it leaves, what a new
    packet says, when an acknowledgement is due and which window counts. */
module StepLaws {
  import opened Bytes
  import opened Fragment
  import opened Protocols
  import opened Segments
  import opened Endpoints
  import opened Transport
  import opened Handshake
  import opened Runs

  // The packet that a step takes in for this side.
  function Arrived(w: World, st: Step, who: Who): (p: Option<Packet>) {
    if st.InputStep? && st.who == who && At(w, who).chan != [] then Some(At(w, who).chan[0]) else None
  }

  // ---------------------------------------------------------------------------
  // The records of segments in flight
  // ---------------------------------------------------------------------------

  // The record x of number k, if it was in flight, and its record y after a step. It is sent again
  // only by a pass of its own side at a time when its deadline has come, or when three
  // acknowledgements stopped at it after its first transmission, and such a pass always sends it.
  // An acknowledgement that stops at it is counted, modulo 256. It enters sendBuf when it is sent
  // for the first time.
  ghost predicate Recorded(x: Option<Segment>, st: Step, who: Who, arrived: Option<Packet>, k: nat, y: Segment, out: set<Packet>) {
    if x.None? then
      st.SendStep? && st.who == who && y.txCount == 1 && y.txTime == st.now && y.txTimeout == TxTimeout(st.rto, 1) && y.pkt in out
    else if st.ResendStep? && st.who == who && (x.value.Deadline() <= st.now || (x.value.ackCount >= 3 && x.value.txCount <= 1)) then
      && y.txCount == x.value.txCount + 1 && y.txTime == st.now && y.txTimeout == TxTimeout(st.rto, y.txCount) && y.ackCount == 0
      && y.pkt in out && y.pkt.(unAckSeq := x.value.pkt.unAckSeq) == x.value.pkt
    else if arrived.Some? && IsAckProtocol(arrived.value.protocol) && arrived.value.unAckSeq == k then
      y == x.value.(ackCount := (x.value.ackCount + 1) % 256)
    else y == x.value
  }

  function RecordAt(t: Tree, k: nat): Option<Segment> { if k in t then Some(t[k]) else None }

  lemma {:induction false} QueuePartsSendBuf(a: Side, parts: seq<seq<byte>>, n: nat)
    requires n <= |parts|
    ensures
      (var c := SideQueueParts(a, parts, n);
       && c.e.snd.sendBuf == a.e.snd.sendBuf && c.out == a.out && c.e.rcv == a.e.rcv
       && c.e.ackPending == a.e.ackPending && c.e.ackDeadline == a.e.ackDeadline && c.e.peerLowEntropy == a.e.peerLowEntropy)
    decreases n
  {
    hide AddOne, DataPacket;
    if n > 0 {
      QueuePartsSendBuf(SideEnqueue(a, DataPacket(a.e, parts[0], |parts| - 1)), parts[1..], n - 1);
    }
  }

  lemma {:induction false} SendRecords(a: Side, now: int, rto: nat, cwnd: nat, sent: nat, who: Who, k: nat)
    requires a.e.snd.sendQueue != map[] && Timed(a.e.snd) && Own(a) && k in SideSendNew(a, now, rto).e.snd.sendBuf
    ensures Recorded(RecordAt(a.e.snd.sendBuf, k), SendStep(who, now, rto, cwnd, sent), who, None, k,
                     SideSendNew(a, now, rto).e.snd.sendBuf[k], SideSendNew(a, now, rto).out)
  {
    hide TxTimeout, Receiving, AcksSafe, Numbered, Matches;
    var j := MinKey(a.e.snd.sendQueue);
    assert a.e.snd.sendQueue[j].pkt.seqNo == j;
  }

  lemma {:induction false} ResendRecords(a: Side, now: int, rto: nat, nextTX: int, who: Who, k: nat)
    requires k in a.e.snd.sendBuf && k < UINT32
    ensures
      (var c := SideResend(a, now, rto, nextTX);
       k in c.e.snd.sendBuf && Recorded(Some(a.e.snd.sendBuf[k]), ResendStep(who, now, rto, nextTX), who, None, k, c.e.snd.sendBuf[k], c.out))
  {
    hide TxTimeout, NoneDue;
    var x := a.e.snd.sendBuf[k];
    if Due(x, now) {
      assert Resent(x, now, rto, a.e.rcv.nextRecv).pkt in ResentPackets(a.e.snd.sendBuf, now, rto, a.e.rcv.nextRecv, UINT32);
    }
  }

  // What an input leaves in flight: everything that its acknowledgement does not cover.
  lemma {:induction false} InputRecords(e: Endpoint, p: Packet, now: int, k: nat)
    ensures
      (var t, u := e.snd.sendBuf, Endpoints.Input(e, p, now).snd.sendBuf;
       && (k in u <==> k in t && (IsDataAckProtocol(p.protocol) ==> p.unAckSeq <= k))
       && (k in u ==> u[k] == if IsAckProtocol(p.protocol) && p.unAckSeq == k then t[k].(ackCount := (t[k].ackCount + 1) % 256) else t[k]))
  {
    hide Receive, Responds, Enqueue;
    if IsAckProtocol(p.protocol) {
      AckRecords(e, p, k);
    } else {
      var g := NoteLowEntropy(e, p);
      ReceiveFrame(g, p, now);
      DataRecords(g, p, k);
      assert Endpoints.Input(e, p, now).snd.sendBuf == TakeAck(g, p).snd.sendBuf by { EnqueueSendBuf(Receive(g, p, now).snd, OpenResponse(g)); }
    }
  }

  lemma {:induction false} EnqueueSendBuf(s: Sender, p: Packet)
    ensures Enqueue(s, p).sendBuf == s.sendBuf
  {}

  lemma {:induction false} AckRecords(e: Endpoint, p: Packet, k: nat)
    requires IsAckProtocol(p.protocol)
    ensures
      (var t, u := e.snd.sendBuf, Endpoints.InputAck(e, p).snd.sendBuf;
       && (k in u <==> k in t && p.unAckSeq <= k)
       && (k in u ==> u[k] == if p.unAckSeq == k then t[k].(ackCount := (t[k].ackCount + 1) % 256) else t[k]))
  {}

  lemma {:induction false} DataRecords(e: Endpoint, p: Packet, k: nat)
    ensures
      (var t, u := e.snd.sendBuf, TakeAck(e, p).snd.sendBuf;
       (k in u <==> k in t && (IsDataAckProtocol(p.protocol) ==> p.unAckSeq <= k)) && (k in u ==> u[k] == t[k]))
  {}

  lemma {:induction false} PairOwn(a: Side, b: Side)
    requires Pair(a, b)
    ensures Own(a)
  {
    hide Own, Link;
  }

  lemma {:induction false} ResendKeys(a: Side, now: int, rto: nat, nextTX: int)
    ensures SideResend(a, now, rto, nextTX).e.snd.sendBuf.Keys == a.e.snd.sendBuf.Keys
  {
    hide Resent, NoneDue;
  }

  lemma {:induction false} SendGrows(s: Sender, now: int, rto: nat, nextRecv: nat, k: nat)
    requires s.sendQueue != map[] && k in s.sendBuf
    ensures k in SendNew(s, now, rto, nextRecv).sendBuf
  {
    hide TxTimeout, Refresh;
  }

  // Number k leaves sendBuf exactly when a packet arrives that acknowledges it.
  ghost predicate Leaves(w: World, st: Step, who: Who, k: nat) {
    var arrived := Arrived(w, st, who);
    arrived.Some? && IsDataAckProtocol(arrived.value.protocol) && k < arrived.value.unAckSeq
  }

  lemma {:induction false} StepRecords(w: World, st: Step, who: Who, k: nat)
    requires Inv(w) && Enabled(w, st)
    ensures
      (var t, c := At(w, who).e.snd.sendBuf, At(Apply(w, st), who);
       && (k in c.e.snd.sendBuf ==> Recorded(RecordAt(t, k), st, who, Arrived(w, st, who), k, c.e.snd.sendBuf[k], c.out))
       && (k in t ==> (k !in c.e.snd.sendBuf <==> Leaves(w, st, who, k))))
  {
    hide Pair, Opened, Settled, Timed, PartsOf, SideQueueParts, ReadRest, ReadsResponse, Taken, Endpoints.Input, EarliestDeadline, CongestionWindow, AckDue, AckPacket, ResendAll, ResentPackets, OpenPayload, SendNew, NextToSend, DeferData, Responds, IsDataAckProtocol, IsAckProtocol, Recorded, NoneExhausted, SendWindow;
    InvSide(w, who);
    if k in At(w, who).e.snd.sendBuf {
      KeepsRecord(At(w, who).e.snd.sendBuf[k], st, who, k, At(Apply(w, st), who).out);
    }
    match st
    case WriteStep(x, b, stop) => QueuePartsSendBuf(At(w, x), PartsOf(At(w, x).e, b), stop);
    case ResendStep(x, now, rto, nextTX) =>
      if x == who {
        ResendKeys(At(w, who), now, rto, nextTX);
        SmallNumbers(At(w, who), Peer(w, who));
        if k in At(w, who).e.snd.sendBuf {
          ResendRecords(At(w, who), now, rto, nextTX, who, k);
        }
      }
    case SendStep(x, now, rto, cwnd, sent) =>
      if x == who {
        PairOwn(At(w, who), Peer(w, who));
        if k in At(w, who).e.snd.sendBuf {
          SendGrows(At(w, who).e.snd, now, rto, At(w, who).e.rcv.nextRecv, k);
        }
        if k in SideSendNew(At(w, who), now, rto).e.snd.sendBuf {
          SendRecords(At(w, who), now, rto, cwnd, sent, who, k);
        }
      }
    case InputStep(x, now) =>
      if x == who {
        InputRecords(At(w, who).e, At(w, who).chan[0], now, k);
        if k in Endpoints.Input(At(w, who).e, At(w, who).chan[0], now).snd.sendBuf {
          CountsRecord(At(w, who).e.snd.sendBuf[k], st, who, At(w, who).chan[0], k, At(w, who).out);
        }
      }
    case _ =>
  }

  lemma {:induction false} KeepsRecord(x: Segment, st: Step, who: Who, k: nat, out: set<Packet>)
    ensures !(st.ResendStep? && st.who == who) ==> Recorded(Some(x), st, who, None, k, x, out)
  {}

  lemma {:induction false} CountsRecord(x: Segment, st: Step, who: Who, p: Packet, k: nat, out: set<Packet>)
    requires st.InputStep?
    ensures Recorded(Some(x), st, who, Some(p), k,
                     if IsAckProtocol(p.protocol) && p.unAckSeq == k then x.(ackCount := (x.ackCount + 1) % 256) else x, out)
  {}

  // In every run, what one step does to the record of a segment, and when it is dropped.
  lemma {:induction false} TransmitsExactly(ws: seq<World>, steps: seq<Step>, cm: int, cl: int, sm: int, sl: int, i: nat, who: Who, k: nat)
    requires IsRun(ws, steps, cm, cl, sm, sl) && i < |steps|
    ensures
      (var t, c := At(ws[i], who).e.snd.sendBuf, At(ws[i + 1], who);
       && (k in c.e.snd.sendBuf ==> Recorded(RecordAt(t, k), steps[i], who, Arrived(ws[i], steps[i], who), k, c.e.snd.sendBuf[k], c.out))
       && (k in t ==> (k !in c.e.snd.sendBuf <==> Leaves(ws[i], steps[i], who, k))))
  {
    hide IsRun, Inv, Enabled, Apply, Recorded, Leaves;
    RunStep(ws, steps, cm, cl, sm, sl, i);
    RunKeeps(ws, steps, cm, cl, sm, sl, i);
    StepRecords(ws[i], steps[i], who, k);
  }

  // ---------------------------------------------------------------------------
  // Acknowledgements that are pending
  // ---------------------------------------------------------------------------

  // From e to f: an acknowledgement becomes pending when a segment arrives, with a deadline 1 ms
  // later, is never put off, and stops pending when one is sent.
  ghost predicate AckPends(e: Endpoint, st: Step, who: Who, arrived: Option<Packet>, f: Endpoint) {
    && (arrived.Some? && !IsAckProtocol(arrived.value.protocol) ==> f.ackPending)
    && (f.ackPending ==>
          if e.ackPending then f.ackDeadline == e.ackDeadline
          else st.InputStep? && arrived.Some? && !IsAckProtocol(arrived.value.protocol) && f.ackDeadline == st.now + 1_000)
    && (e.ackPending && !f.ackPending ==> st.AckStep? && st.who == who)
    && (st.AckStep? && st.who == who ==> !f.ackPending)
  }

  lemma {:induction false} InputPends(e: Endpoint, p: Packet, now: int)
    ensures
      (var f := Endpoints.Input(e, p, now);
       if IsAckProtocol(p.protocol) || e.ackPending then f.ackDeadline == e.ackDeadline && f.ackPending == e.ackPending
       else f.ackPending && f.ackDeadline == now + 1_000)
  {
    hide DropAcked, CountAck, Receive, Enqueue, Responds;
    ReceivePends(NoteLowEntropy(e, p), p, now);
  }

  lemma {:induction false} ReceivePends(e: Endpoint, p: Packet, now: int)
    ensures
      (var f := Receive(e, p, now);
       f.ackPending && f.ackDeadline == if e.ackPending then e.ackDeadline else now + 1_000)
  {
    hide DropAcked, MoveAll, WindowAfter, Dropped, Filed;
  }

  lemma {:induction false} StepPends(w: World, st: Step, who: Who)
    requires Enabled(w, st)
    ensures AckPends(At(w, who).e, st, who, Arrived(w, st, who), At(Apply(w, st), who).e)
  {
    hide PartsOf, SideQueueParts, ReadRest, ReadsResponse, Taken, Endpoints.Input, EarliestDeadline, CanSendNew, CongestionWindow, AckDue, AckPacket, ResendAll, ResentPackets, OpenPayload, SendNew, NextToSend, Responds, IsAckProtocol, Enqueue;
    match st
    case WriteStep(x, b, stop) => QueuePartsSendBuf(At(w, x), PartsOf(At(w, x).e, b), stop);
    case InputStep(x, now) =>
      if x == who {
        InputPends(At(w, who).e, At(w, who).chan[0], now);
      }
    case _ =>
  }

  lemma {:induction false} AcksPendExactly(ws: seq<World>, steps: seq<Step>, cm: int, cl: int, sm: int, sl: int, i: nat, who: Who)
    requires IsRun(ws, steps, cm, cl, sm, sl) && i < |steps|
    ensures AckPends(At(ws[i], who).e, steps[i], who, Arrived(ws[i], steps[i], who), At(ws[i + 1], who).e)
  {
    hide IsRun, Enabled, Apply, AckPends;
    RunStep(ws, steps, cm, cl, sm, sl, i);
    StepPends(ws[i], steps[i], who);
  }

  // ---------------------------------------------------------------------------
  // The last transmission
  // ---------------------------------------------------------------------------

  // The time from which heartbeats count: that of the latest step of the side that sent anything,
  // or of its making.
  ghost predicate LastSent(a: Side, st: Step, who: Who, c: Side, made: bool) {
    if (st.SendStep? || st.AckStep?) && st.who == who then c.e.snd.lastTX == st.now
    else if st.ResendStep? && st.who == who && (exists k :: k in a.e.snd.sendBuf && k in c.e.snd.sendBuf && c.e.snd.sendBuf[k].txCount > a.e.snd.sendBuf[k].txCount) then c.e.snd.lastTX == st.now
    else if st.DispatchStep? && made then c.e.snd.lastTX == st.now
    else c.e.snd.lastTX == a.e.snd.lastTX
  }

  lemma {:induction false} ResendLast(a: Side, now: int, rto: nat, nextTX: int, b: Side)
    requires Pair(a, b)
    ensures
      (var c := SideResend(a, now, rto, nextTX);
       && c.e.snd.sendBuf.Keys == a.e.snd.sendBuf.Keys
       && c.e.snd.lastTX == if exists k :: k in a.e.snd.sendBuf && c.e.snd.sendBuf[k].txCount > a.e.snd.sendBuf[k].txCount then now else a.e.snd.lastTX)
  {
    hide Pair, Due, Transmit, ResentPackets;
    ResendKeys(a, now, rto, nextTX);
    SmallNumbers(a, b);
    var c := SideResend(a, now, rto, nextTX);
    forall k | k in a.e.snd.sendBuf
      ensures c.e.snd.sendBuf[k].txCount > a.e.snd.sendBuf[k].txCount <==> Due(a.e.snd.sendBuf[k], now)
    {
      TransmitCounts(a.e.snd.sendBuf[k].(ackCount := 0), now, rto, a.e.rcv.nextRecv);
    }
  }

  lemma {:induction false} TransmitCounts(s: Segment, now: int, rto: nat, nextRecv: nat)
    ensures Transmit(s, now, rto, nextRecv).txCount == s.txCount + 1
  {
    hide TxTimeout, Refresh;
  }

  lemma {:induction false} QueuePartsLast(a: Side, parts: seq<seq<byte>>, n: nat)
    requires n <= |parts|
    ensures SideQueueParts(a, parts, n).e.snd.lastTX == a.e.snd.lastTX
    decreases n
  {
    hide AddOne, DataPacket;
    if n > 0 {
      QueuePartsLast(SideEnqueue(a, DataPacket(a.e, parts[0], |parts| - 1)), parts[1..], n - 1);
    }
  }

  lemma {:induction false} InputLast(e: Endpoint, p: Packet, now: int)
    ensures Endpoints.Input(e, p, now).snd.lastTX == e.snd.lastTX
  {
    hide Receive, Responds, AddOne, DropAcked, CountAck;
    ReceiveFrame(NoteLowEntropy(e, p), p, now);
  }

  // In every run, when the time of the last transmission changes. A server session is made when it
  // is registered.
  lemma {:induction false} LastSentExactly(w: World, st: Step, who: Who)
    requires Inv(w) && Enabled(w, st)
    ensures st.ResendStep? && st.who == who ==> At(Apply(w, st), who).e.snd.sendBuf.Keys == At(w, who).e.snd.sendBuf.Keys
    ensures LastSent(At(w, who), st, who, At(Apply(w, st), who), who.Server? && !w.registered && Apply(w, st).registered)
  {
    hide Pair, Opened, Settled, Timed, PartsOf, SideQueueParts, ReadRest, ReadsResponse, Taken, Endpoints.Input, EarliestDeadline, CongestionWindow, AckDue, AckPacket, ResendAll, ResentPackets, OpenPayload, NextToSend, DeferData, Responds;
    InvSide(w, who);
    match st
    case WriteStep(x, b, stop) => QueuePartsLast(At(w, x), PartsOf(At(w, x).e, b), stop);
    case ResendStep(x, now, rto, nextTX) =>
      if x == who {
        ResendLast(At(w, who), now, rto, nextTX, Peer(w, who));
      }
    case InputStep(x, now) => InputLast(At(w, x).e, At(w, x).chan[0], now);
    case _ =>
  }

  // ---------------------------------------------------------------------------
  // The open request
  // ---------------------------------------------------------------------------

  function Opens(ps: seq<Packet>): (n: nat) {
    if ps == [] then 0 else Opens(ps[..|ps| - 1]) + if ps[|ps| - 1].protocol.OpenSessionRequest? then 1 else 0
  }

  lemma {:induction false} OpensFirst(ps: seq<Packet>)
    requires ps != []
    ensures Opens(ps) == (if ps[0].protocol.OpenSessionRequest? then 1 else 0) + Opens(ps[1..])
    decreases |ps|
  {
    if |ps| > 1 {
      OpensFirst(ps[..|ps| - 1]);
      assert ps[..|ps| - 1][1..] == ps[1..][..|ps| - 2];
    }
  }

  lemma {:induction false} OpensLast(ps: seq<Packet>, p: Packet)
    ensures Opens(ps + [p]) == Opens(ps) + if p.protocol.OpenSessionRequest? then 1 else 0
  {
    assert (ps + [p])[..|ps|] == ps;
  }

  predicate TakesOpen(w: World, st: Step) {
    var arrived := Arrived(w, st, Server);
    arrived.Some? && arrived.value.protocol.OpenSessionRequest?
  }

  // How many open requests the server has taken in.
  function OpensTaken(ws: seq<World>, steps: seq<Step>, i: nat): (n: nat)
    requires i <= |steps| <= |ws|
  {
    if i == 0 then 0 else OpensTaken(ws, steps, i - 1) + if TakesOpen(ws[i - 1], steps[i - 1]) then 1 else 0
  }

  lemma {:induction false} QueuePartsChan(a: Side, parts: seq<seq<byte>>, n: nat)
    requires n <= |parts|
    ensures SideQueueParts(a, parts, n).chan == a.chan
    decreases n
  {
    hide Enqueue, DataPacket;
    if n > 0 {
      QueuePartsChan(SideEnqueue(a, DataPacket(a.e, parts[0], |parts| - 1)), parts[1..], n - 1);
    }
  }

  lemma {:induction false} StepOpens(w: World, st: Step)
    requires Enabled(w, st)
    ensures
      (var v := Apply(w, st);
       (if TakesOpen(w, st) then 1 else 0) + Opens(v.server.chan) + (if w.registered then 1 else 0)
         == Opens(w.server.chan) + if v.registered then 1 else 0)
  {
    hide Opens, PartsOf, SideQueueParts, ReadRest, ReadsResponse, Taken, Endpoints.Input, EarliestDeadline, CanSendNew, CongestionWindow, AckDue, AckPacket, ResendAll, ResentPackets, OpenPayload, SendNew, NextToSend, Responds, Enqueue, NoneExhausted;
    match st
    case WriteStep(x, b, stop) => QueuePartsChan(At(w, x), PartsOf(At(w, x).e, b), stop);
    case DispatchStep(x, p, now) =>
      OpensLast(w.server.chan, p);
    case InputStep(x, now) =>
      if x.Server? {
        OpensFirst(w.server.chan);
      }
    case _ =>
  }

  // In every run, whatever the network repeats, the server takes in at most one open request, and
  // as long as its session is known exactly one that is taken in or waiting.
  lemma {:induction false} OpenTakenOnce(ws: seq<World>, steps: seq<Step>, cm: int, cl: int, sm: int, sl: int, i: nat)
    requires IsRun(ws, steps, cm, cl, sm, sl) && i < |ws| && |ws| == |steps| + 1
    ensures OpensTaken(ws, steps, i) + Opens(ws[i].server.chan) == if ws[i].registered then 1 else 0
  {
    hide Enabled, Apply, TakesOpen, Opens;
    if i == 0 {
      NoOpens();
    } else {
      OpenTakenOnce(ws, steps, cm, cl, sm, sl, i - 1);
      StepOpens(ws[i - 1], steps[i - 1]);
    }
  }

  lemma {:induction false} NoOpens()
    ensures Opens([]) == 0
  {}

  // ---------------------------------------------------------------------------
  // What new packets say
  // ---------------------------------------------------------------------------

  // The free places of the receiver.
  function Free(r: Receiver): (n: int) { 4096 - |r.recvBuf| - |r.recvQueue| }

  // A packet that was not sent before: an acknowledgement has the number of the last segment, says
  // what was received in order and how much room is left, and carries nothing. A data segment says
  // what was received in order when it is sent.
  ghost predicate Says(a: Side, p: Packet) {
    && (IsAckProtocol(p.protocol) ==>
          p.seqNo == Max(0, |a.log| - 1) && p.unAckSeq == a.e.rcv.nextRecv && p.windowSize == Free(a.e.rcv) && p.fragment == 0 && p.payload == [])
    && (IsDataProtocol(p.protocol) ==> p.unAckSeq == a.e.rcv.nextRecv)
  }

  lemma {:induction false} AckSays(a: Side)
    requires Own(a)
    ensures Says(a, AckPacket(a.e))
  {
    hide Numbered, Files, Matches, Contiguous;
  }

  lemma {:induction false} SentSays(a: Side, x: Segment, now: int, rto: nat)
    requires !IsAckProtocol(x.pkt.protocol)
    ensures Says(a, Transmit(x, now, rto, a.e.rcv.nextRecv).pkt)
  {
    hide TxTimeout;
  }

  lemma {:induction false} ResentSays(a: Side, now: int, rto: nat, p: Packet)
    requires Own(a) && p in ResentPackets(a.e.snd.sendBuf, now, rto, a.e.rcv.nextRecv, UINT32)
    ensures Says(a, p)
  {
    hide Says, Due, TxTimeout, Receiving, AcksSafe;
    var k :| k in a.e.snd.sendBuf && Due(a.e.snd.sendBuf[k], now) && Resent(a.e.snd.sendBuf[k], now, rto, a.e.rcv.nextRecv).pkt == p;
    assert Matches(a.e.snd.sendBuf[k].pkt, a.log);
    SentSays(a, a.e.snd.sendBuf[k].(ackCount := 0), now, rto);
  }

  lemma {:induction false} NewSays(a: Side, now: int, rto: nat)
    requires Own(a) && a.e.snd.sendQueue != map[]
    ensures Says(a, NextToSend(a.e.snd, now, rto, a.e.rcv.nextRecv).pkt)
  {
    hide Says, Transmit, Receiving, AcksSafe;
    var k := MinKey(a.e.snd.sendQueue);
    assert Matches(a.e.snd.sendQueue[k].pkt, a.log);
    SentSays(a, a.e.snd.sendQueue[k], now, rto);
  }

  lemma {:induction false} StepSends(w: World, st: Step, who: Who, p: Packet)
    requires Enabled(w, st) && p in At(Apply(w, st), who).out && p !in At(w, who).out
    ensures
      (var a := At(w, who);
       || (st.ResendStep? && p in ResentPackets(a.e.snd.sendBuf, st.now, st.rto, a.e.rcv.nextRecv, UINT32))
       || (st.SendStep? && a.e.snd.sendQueue != map[] && p == NextToSend(a.e.snd, st.now, st.rto, a.e.rcv.nextRecv).pkt)
       || p == AckPacket(a.e))
  {
    hide PartsOf, SideQueueParts, ReadRest, ReadsResponse, Taken, Endpoints.Input, EarliestDeadline, CongestionWindow, AckDue, AckPacket, ResendAll, ResentPackets, OpenPayload, SendNew, NextToSend, DeferData, Responds, Enqueue, NoneExhausted, SendWindow;
    match st
    case WriteStep(x, b, stop) => QueuePartsSendBuf(At(w, x), PartsOf(At(w, x).e, b), stop);
    case _ =>
  }

  lemma {:induction false} StepSays(w: World, st: Step, who: Who, p: Packet)
    requires Inv(w) && Enabled(w, st) && p in At(Apply(w, st), who).out && p !in At(w, who).out
    ensures Says(At(w, who), p)
  {
    hide Inv, Enabled, Apply, AckPacket, ResentPackets, NextToSend, Says, Own;
    InvOwn(w, who);
    StepSends(w, st, who, p);
    var a := At(w, who);
    if p == AckPacket(a.e) {
      AckSays(a);
    } else if st.ResendStep? {
      ResentSays(a, st.now, st.rto, p);
    } else {
      NewSays(a, st.now, st.rto);
    }
  }

  lemma {:induction false} InvOwn(w: World, who: Who)
    requires Inv(w)
    ensures Own(At(w, who))
  {
    hide Pair, Own, Opened, Settled, Timed;
    InvSide(w, who);
    PairOwn(At(w, who), Peer(w, who));
  }

  lemma {:induction false} PacketsSayExactly(ws: seq<World>, steps: seq<Step>, cm: int, cl: int, sm: int, sl: int, i: nat, who: Who, p: Packet)
    requires IsRun(ws, steps, cm, cl, sm, sl) && i < |steps| && p in At(ws[i + 1], who).out && p !in At(ws[i], who).out
    ensures Says(At(ws[i], who), p)
  {
    hide IsRun, Inv, Enabled, Apply, Says;
    RunStep(ws, steps, cm, cl, sm, sl, i);
    RunKeeps(ws, steps, cm, cl, sm, sl, i);
    StepSays(ws[i], steps[i], who, p);
  }

  // ---------------------------------------------------------------------------
  // The segments of a chunk
  // ---------------------------------------------------------------------------

  // The j-th segment that a chunk adds: its number, what was received in order, the room that is
  // left, how many fragments follow, and its part of the chunk.
  ghost predicate IsPart(a: Side, parts: seq<seq<byte>>, j: nat, low: bool, p: Packet)
    requires j < |parts|
  {
    && p.seqNo == |a.log| + j && p.unAckSeq == a.e.rcv.nextRecv && p.windowSize == Free(a.e.rcv)
    && p.fragment == |parts| - 1 - j && p.payload == parts[j]
    && IsDataProtocol(p.protocol) && (IsLowEntropyProtocol(p.protocol) <==> low)
  }

  lemma {:induction false} PartsAdded(a: Side, parts: seq<seq<byte>>, n: nat, j: nat)
    requires j < n <= |parts| && a.e.snd.nextSend == |a.log| && |a.log| + n < UINT32 && Free(a.e.rcv) >= 0
    ensures
      (var log := SideQueueParts(a, parts, n).log;
       |log| == |a.log| + n && a.log <= log && IsPart(a, parts, j, SendMode(a.e) != MODE_OFF, log[|a.log| + j]))
    decreases n
  {
    hide SendMode, IsPart, Enqueue, DataPacket;
    var p := DataPacket(a.e, parts[0], |parts| - 1);
    var c := SideEnqueue(a, p);
    NextPart(a, parts, p, c);
    assert c.log[|a.log|] == p;
    if n > 1 {
      PartsAdded(c, parts[1..], n - 1, if j == 0 then 0 else j - 1);
    } else {
      assert SideQueueParts(c, parts[1..], 0) == c;
    }
    if j > 0 {
      var log := SideQueueParts(a, parts, n).log;
      LaterPart(a, c, parts, j, log[|a.log| + j]);
    }
  }

  lemma {:induction false} NextPart(a: Side, parts: seq<seq<byte>>, p: Packet, c: Side)
    requires parts != [] && a.e.snd.nextSend == |a.log| && |a.log| + 1 < UINT32 && Free(a.e.rcv) >= 0
    requires p == DataPacket(a.e, parts[0], |parts| - 1) && c == SideEnqueue(a, p)
    ensures IsPart(a, parts, 0, SendMode(a.e) != MODE_OFF, p)
    ensures c.e.snd.nextSend == |c.log| == |a.log| + 1 && c.e.rcv == a.e.rcv && SendMode(c.e) == SendMode(a.e)
  {}

  lemma {:induction false} LaterPart(a: Side, c: Side, parts: seq<seq<byte>>, j: nat, p: Packet)
    requires 0 < j < |parts| && |c.log| == |a.log| + 1 && c.e.rcv == a.e.rcv && SendMode(c.e) == SendMode(a.e)
    requires IsPart(c, parts[1..], j - 1, SendMode(c.e) != MODE_OFF, p)
    ensures IsPart(a, parts, j, SendMode(a.e) != MODE_OFF, p)
  {
    hide SendMode;
  }

  // The server has taken in low entropy data.
  predicate TakesLowEntropy(w: World, st: Step) {
    var arrived := Arrived(w, st, Server);
    arrived.Some? && arrived.value.protocol.DataClientToServerLowEntropy?
  }

  ghost predicate TookLowEntropy(ws: seq<World>, steps: seq<Step>, i: nat)
    requires i <= |steps| <= |ws|
  {
    exists j :: 0 <= j < i && TakesLowEntropy(ws[j], steps[j])
  }

  lemma {:induction false} InputNotes(e: Endpoint, p: Packet, now: int)
    ensures Endpoints.Input(e, p, now).peerLowEntropy == (e.peerLowEntropy || (!e.isClient && p.protocol.DataClientToServerLowEntropy?))
  {
    hide Receive, Responds, Enqueue, DropAcked, CountAck;
    ReceiveFrame(NoteLowEntropy(e, p), p, now);
  }

  lemma {:induction false} StepNotes(w: World, st: Step)
    requires Inv(w) && Enabled(w, st)
    ensures Apply(w, st).server.e.peerLowEntropy == (w.server.e.peerLowEntropy || TakesLowEntropy(w, st)) && !w.server.e.isClient
  {
    hide Pair, Settled, Timed, LogShape, OutShape, PartsOf, SideQueueParts, ReadRest, ReadsResponse, Taken, Endpoints.Input, EarliestDeadline, CanSendNew, CongestionWindow, AckDue, AckPacket, ResendAll, ResentPackets, OpenPayload, SendNew, NextToSend, Responds, Enqueue;
    match st
    case WriteStep(x, b, stop) => QueuePartsSendBuf(At(w, x), PartsOf(At(w, x).e, b), stop);
    case InputStep(x, now) => InputNotes(At(w, x).e, At(w, x).chan[0], now);
    case _ =>
  }

  lemma {:induction false} RunNotes(ws: seq<World>, steps: seq<Step>, cm: int, cl: int, sm: int, sl: int, i: nat)
    requires IsRun(ws, steps, cm, cl, sm, sl) && i < |ws| && |ws| == |steps| + 1
    ensures ws[i].server.e.peerLowEntropy <==> TookLowEntropy(ws, steps, i)
  {
    hide Enabled, Apply, Inv, TakesLowEntropy;
    if i > 0 {
      RunNotes(ws, steps, cm, cl, sm, sl, i - 1);
      RunKeeps(ws, steps, cm, cl, sm, sl, i - 1);
      StepNotes(ws[i - 1], steps[i - 1]);
    }
  }

  // In every run, what a chunk adds: its fragments, in order and numbered on. They are low entropy
  // if and only if the side is set to it and, on the server, low entropy data has arrived before.
  lemma {:induction false} ChunkAddsExactly(ws: seq<World>, steps: seq<Step>, cm: int, cl: int, sm: int, sl: int, i: nat, j: nat)
    requires IsRun(ws, steps, cm, cl, sm, sl) && i < |steps| && |ws| == |steps| + 1 && steps[i].WriteStep? && j < steps[i].stop
    ensures
      (var a, c := At(ws[i], steps[i].who), At(ws[i + 1], steps[i].who);
       var parts := PartsOf(a.e, steps[i].b);
       && steps[i].stop <= |parts| && Flatten(parts) == steps[i].b
       && |c.log| == |a.log| + steps[i].stop && a.log <= c.log
       && IsPart(a, parts, j, a.e.mode != MODE_OFF && (steps[i].who.Client? || TookLowEntropy(ws, steps, i)), c.log[|a.log| + j]))
  {
    hide IsRun, Inv, Enabled, Apply, PartsOf, TookLowEntropy, IsPart, SendMode, Flatten;
    RunStep(ws, steps, cm, cl, sm, sl, i);
    RunKeeps(ws, steps, cm, cl, sm, sl, i);
    RunNotes(ws, steps, cm, cl, sm, sl, i);
    var who := steps[i].who;
    SideNumbers(ws[i], who);
    ChunkAdds(ws[i], who, steps[i].b, steps[i].stop, j);
    SendModeIs(At(ws[i], who).e);
  }

  lemma {:induction false} SendModeIs(e: Endpoint)
    ensures SendMode(e) != MODE_OFF <==> e.mode != MODE_OFF && (e.isClient || e.peerLowEntropy)
  {}

  lemma {:induction false} ChunkAdds(w: World, who: Who, b: seq<byte>, stop: nat, j: nat)
    requires Inv(w) && Enabled(w, WriteStep(who, b, stop)) && j < stop
    ensures
      (var a, c := At(w, who), At(Apply(w, WriteStep(who, b, stop)), who);
       var parts := PartsOf(a.e, b);
       && stop <= |parts| && Flatten(parts) == b
       && |c.log| == |a.log| + stop && a.log <= c.log
       && IsPart(a, parts, j, SendMode(a.e) != MODE_OFF, c.log[|a.log| + j]))
  {
    hide Inv, PartsOf, SideQueueParts, IsPart, SendMode, Flatten, Free;
    SideNumbers(w, who);
    WholeChunk(At(w, who).e, b);
    PartsAdded(At(w, who), PartsOf(At(w, who).e, b), stop, j);
  }

  lemma {:induction false} SideNumbers(w: World, who: Who)
    requires Inv(w)
    ensures At(w, who).e.snd.nextSend == |At(w, who).log| && Free(At(w, who).e.rcv) >= 0 && At(w, who).e.isClient == who.Client?
  {
    hide Settled, Timed, LogShape, OutShape, Link, Numbered, Files, Matches, AcksSafe, Contiguous, Keyed;
  }

  lemma {:induction false} WholeChunk(e: Endpoint, b: seq<byte>)
    requires PartsOf(e, b) != []
    ensures Flatten(PartsOf(e, b)) == b
  {
    hide Fragments, Flatten, MaxFragmentSize, SendMode;
    FragmentsOf(b, MaxFragmentSize(e.mtu, PacketTransport, SendMode(e)).value);
  }

  // ---------------------------------------------------------------------------
  // The window of the peer
  // ---------------------------------------------------------------------------

  // From r to t segments moved to recvQueue, and the window went from one to the other: it is the
  // one before when nothing moved, and else that of the last segment that moved, if it is data.
  ghost predicate WindowMoves(r: Receiver, window: nat, t: Receiver, w: nat) {
    && r.nextRecv <= t.nextRecv
    && (forall k | k in r.recvQueue && k < r.nextRecv :: k in t.recvQueue && t.recvQueue[k] == r.recvQueue[k])
    && (t.nextRecv == r.nextRecv ==> w == window)
    && (t.nextRecv > r.nextRecv ==>
          && t.nextRecv - 1 in t.recvQueue
          && (IsDataAckProtocol(t.recvQueue[t.nextRecv - 1].pkt.protocol) ==> w == t.recvQueue[t.nextRecv - 1].pkt.windowSize))
  }

  lemma {:induction false} WindowMovesNext(r: Receiver, window: nat, t: Receiver, w: nat)
    requires r.recvBuf != map[] && MinKey(r.recvBuf) <= r.nextRecv && r.nextRecv + 1 < UINT32
    requires WindowMoves(MoveOne(r), MovedWindow(r, window), t, w)
    ensures WindowMoves(r, window, t, w)
  {
    hide IsDataAckProtocol;
  }

  lemma {:induction false} WindowAfterMoves(r: Receiver, window: nat)
    requires r.nextRecv + |r.recvBuf| < UINT32
    ensures WindowMoves(r, window, MoveAll(r), WindowAfter(r, window))
    decreases |r.recvBuf|
  {
    hide WindowMoves, MovedWindow, MoveOne, MoveAll, WindowAfter;
    MoveUnfolds(r, window);
    if CanMove(r) {
      MoveOneNumbers(r);
      WindowAfterMoves(MoveOne(r), MovedWindow(r, window));
      WindowMovesNext(r, window, MoveAll(r), WindowAfter(r, window));
    } else {
      NothingMoves(r, window);
    }
  }

  lemma {:induction false} MoveUnfolds(r: Receiver, window: nat)
    ensures
      if CanMove(r)
      then MoveAll(r) == MoveAll(MoveOne(r)) && WindowAfter(r, window) == WindowAfter(MoveOne(r), MovedWindow(r, window))
      else MoveAll(r) == r && WindowAfter(r, window) == window
  {
    hide MovedWindow, MoveOne;
  }

  lemma {:induction false} MoveOneNumbers(r: Receiver)
    requires CanMove(r) && r.nextRecv + |r.recvBuf| < UINT32
    ensures |r.recvBuf| > 0 && |MoveOne(r).recvBuf| == |r.recvBuf| - 1 && MoveOne(r).nextRecv <= r.nextRecv + 1
  {
    hide AddOne;
    SizePositive(r.recvBuf);
    AddOneNumbered(r.nextRecv, r.nextRecv + |r.recvBuf|);
    RemoveSize(r.recvBuf, MinKey(r.recvBuf));
  }

  lemma {:induction false} SizePositive(t: Tree)
    requires t != map[]
    ensures |t| > 0
  {}

  lemma {:induction false} NothingMoves(r: Receiver, window: nat)
    ensures WindowMoves(r, window, r, window)
  {
    hide IsDataAckProtocol;
  }

  lemma {:induction false} InputMoves(e: Endpoint, p: Packet, now: int)
    requires IsDataProtocol(p.protocol)
    ensures
      (var f := Endpoints.Input(e, p, now);
       && f.rcv == (if Dropped(e.rcv) then e.rcv else MoveAll(Filed(e.rcv, p)))
       && f.remoteWindow == if Dropped(e.rcv) then p.windowSize else WindowAfter(Filed(e.rcv, p), p.windowSize))
  {
    hide MoveAll, WindowAfter, Filed, Dropped, Receive, Enqueue;
    ReceiveMoves(NoteLowEntropy(e, p), p, now);
  }

  lemma {:induction false} ReceiveMoves(e: Endpoint, p: Packet, now: int)
    requires IsDataProtocol(p.protocol)
    ensures
      (var f := Receive(e, p, now);
       && f.rcv == (if Dropped(e.rcv) then e.rcv else MoveAll(Filed(e.rcv, p)))
       && f.remoteWindow == if Dropped(e.rcv) then p.windowSize else WindowAfter(Filed(e.rcv, p), p.windowSize))
  {
    hide MoveAll, WindowAfter, DropAcked, Filed, Dropped;
  }

  // The window that an input leaves: that of an acknowledgement; that of a data packet as long as
  // nothing moves to recvQueue; and else that of the last segment that moved, if it is data.
  lemma {:induction false} InputTakesWindow(e: Endpoint, p: Packet, now: int)
    requires e.rcv.nextRecv + |e.rcv.recvBuf| + 1 < UINT32 && IsDataAckProtocol(p.protocol)
    ensures WindowMoves(e.rcv, p.windowSize, Endpoints.Input(e, p, now).rcv, Endpoints.Input(e, p, now).remoteWindow)
  {
    hide MoveAll, WindowAfter, WindowMoves, Endpoints.Input, DropAcked, CountAck, Dropped;
    if IsAckProtocol(p.protocol) {
      InputOfAck(e, p, now);
      NothingMoves(e.rcv, p.windowSize);
    } else {
      InputMoves(e, p, now);
      InsertSize(e.rcv.recvBuf, p.seqNo, NewSegment(p));
      NothingMoves(e.rcv, p.windowSize);
      WindowAfterMoves(Filed(e.rcv, p), p.windowSize);
      SameQueue(e.rcv, Filed(e.rcv, p), p.windowSize, MoveAll(Filed(e.rcv, p)), WindowAfter(Filed(e.rcv, p), p.windowSize));
    }
  }

  lemma {:induction false} InputOfAck(e: Endpoint, p: Packet, now: int)
    requires IsAckProtocol(p.protocol)
    ensures Endpoints.Input(e, p, now).rcv == e.rcv && Endpoints.Input(e, p, now).remoteWindow == p.windowSize
  {
    hide DropAcked, CountAck;
  }

  lemma {:induction false} SameQueue(q: Receiver, r: Receiver, window: nat, t: Receiver, w: nat)
    requires WindowMoves(r, window, t, w) && q.nextRecv == r.nextRecv && q.recvQueue == r.recvQueue
    ensures WindowMoves(q, window, t, w)
  {
    hide IsDataAckProtocol;
  }

  // ---------------------------------------------------------------------------
  // The sleep of the output loop
  // ---------------------------------------------------------------------------

  // The loop wakes up by every time at which it has something to do - the next retransmission
  // check, a pending acknowledgement, a heartbeat - or after 1 ms, and at no other time, unless a
  // client that waits for its open response has nothing to check.
  lemma {:induction false} SleepEndsAtNextTask(e: Endpoint, now: int, jitter: int)
    ensures
      (var wake, soon := now + OutputDelay(e, now, jitter), now + MIN_OUTPUT_INTERVAL;
       var heartbeat := e.snd.lastTX + HEARTBEAT_INTERVAL + jitter;
       && (e.snd.sendBuf != map[] ==> wake <= Max(e.snd.nextRetransmission, soon))
       && (!Opening(e) && e.ackPending ==> wake <= Max(e.ackDeadline, soon))
       && (!Opening(e) ==> wake <= Max(heartbeat, soon))
       && (|| wake == soon || (e.snd.sendBuf != map[] && wake == e.snd.nextRetransmission)
           || (!Opening(e) && ((e.ackPending && wake == e.ackDeadline) || wake == heartbeat))
           || (Opening(e) && e.snd.sendBuf == map[] && wake == now + HEARTBEAT_INTERVAL)))
  {}

  // The loop neither wakes up in vain nor too late: before it wakes up nothing is due, and right
  // after it, if nothing arrived in between, a retransmission check or an acknowledgement is.
  lemma {:induction false} WakesToWork(e: Endpoint, now: int, jitter: int)
    requires !Opening(e)
    ensures
      (var wake := now + OutputDelay(e, now, jitter);
       && (!NoPassDue(e.snd, wake + 1) || AckDue(e, wake + 1, jitter))
       && (OutputDelay(e, now, jitter) != MIN_OUTPUT_INTERVAL ==>
             forall t | now <= t < wake :: NoPassDue(e.snd, t) && !AckDue(e, t, jitter)))
  {}
}

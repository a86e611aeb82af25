/** Whole runs of a session: what holds in every reachable world. */
module Runs {
  import opened Bytes
  import opened Fragment
  import opened Protocols
  import opened Segments
  import opened Endpoints
  import opened Transport
  import opened Handshake

  // ---------------------------------------------------------------------------
  // Timers
  // ---------------------------------------------------------------------------

  // A queued segment was never sent. A sent one was sent at most 20 times, and the next
  // retransmission check is no later than its deadline.
  ghost predicate Timed(s: Sender) {
    && (forall k | k in s.sendQueue :: s.sendQueue[k].txCount == 0)
    && (forall k | k in s.sendBuf :: 1 <= s.sendBuf[k].txCount <= TX_COUNT_LIMIT && s.nextRetransmission <= s.sendBuf[k].Deadline())
  }

  lemma {:induction false} EnqueueTimed(s: Sender, p: Packet)
    requires Timed(s)
    ensures Timed(Enqueue(s, p))
  {
    hide AddOne;
  }

  lemma {:induction false} QueuePartsTimed(a: Side, parts: seq<seq<byte>>, n: nat)
    requires n <= |parts| && Timed(a.e.snd)
    ensures Timed(SideQueueParts(a, parts, n).e.snd) && SideQueueParts(a, parts, n).e.rcv == a.e.rcv
    decreases n
  {
    hide Timed, Enqueue, DataPacket;
    if n > 0 {
      var p := DataPacket(a.e, parts[0], |parts| - 1);
      EnqueueTimed(a.e.snd, p);
      QueuePartsTimed(SideEnqueue(a, p), parts[1..], n - 1);
    }
  }

  // A pass that reaches no exhausted segment leaves the earliest deadline.
  lemma {:induction false} ResendTimed(s: Sender, now: int, rto: nat, nextRecv: nat, nextTX: int)
    requires Timed(s) && NoneExhausted(s.sendBuf) && (forall k | k in s.sendBuf :: k < UINT32)
    requires EarliestDeadline(ResendTree(s.sendBuf, now, rto, nextRecv, UINT32), UINT32, nextTX)
    ensures Timed(ResendAll(s, now, rto, nextRecv, nextTX))
  {
    hide TxTimeout, Due, Refresh;
  }

  lemma {:induction false} SendNewTimed(s: Sender, now: int, rto: nat, nextRecv: nat)
    requires Timed(s) && s.sendQueue != map[]
    ensures Timed(SendNew(s, now, rto, nextRecv))
    ensures s.sendBuf == map[] ==> SendNew(s, now, rto, nextRecv).nextRetransmission <= now + 10_000
  {
    hide TxTimeout, Refresh;
  }

  lemma {:induction false} DropTimed(s: Sender, u: nat)
    requires Timed(s)
    ensures Timed(s.(sendBuf := DropAcked(s.sendBuf, u)))
    ensures Timed(s.(sendBuf := CountAck(s.sendBuf, u)))
  {}

  lemma {:induction false} InputTimed(e: Endpoint, p: Packet, now: int)
    requires Timed(e.snd)
    ensures Timed(Endpoints.Input(e, p, now).snd)
  {
    hide Timed, DropAcked, CountAck, Receive, Enqueue, Responds;
    DropTimed(e.snd, p.unAckSeq);
    var s := e.snd.(sendBuf := DropAcked(e.snd.sendBuf, p.unAckSeq));
    DropTimed(s, p.unAckSeq);
    if !IsAckProtocol(p.protocol) {
      ReceiveFrame(NoteLowEntropy(e, p), p, now);
      EnqueueTimed(Receive(NoteLowEntropy(e, p), p, now).snd, OpenResponse(NoteLowEntropy(e, p)));
    }
  }

  // The sleep that the output loop chooses ends by every deadline, or after 1 ms when a
  // deadline is nearer or past.
  lemma {:induction false} SleepMeetsDeadlines(e: Endpoint, now: int, jitter: int, k: nat)
    requires Timed(e.snd) && k in e.snd.sendBuf
    ensures now + OutputDelay(e, now, jitter) <= Max(e.snd.sendBuf[k].Deadline(), now + MIN_OUTPUT_INTERVAL)
  {}

  // ---------------------------------------------------------------------------
  // The invariant of a run
  // ---------------------------------------------------------------------------

  ghost predicate Inv(w: World) {
    && Pair(w.client, w.server)
    && Opened(w)
    && Settled(w.client.e.rcv) && Settled(w.server.e.rcv)
    && Timed(w.client.e.snd) && Timed(w.server.e.snd)
  }

  lemma {:induction false} InitInv(cm: int, cl: int, sm: int, sl: int)
    ensures Inv(Init(cm, cl, sm, sl))
  {
    InitOpened(cm, cl, sm, sl);
  }

  lemma {:induction false} PairSymmetric(a: Side, b: Side)
    requires Pair(a, b)
    ensures Pair(b, a)
  {
    hide Own, Link;
  }

  // The parts of the invariant for the side whose turn it is.
  ghost predicate InvAt(w: World, who: Who) {
    Pair(At(w, who), Peer(w, who)) && Settled(At(w, who).e.rcv) && Timed(At(w, who).e.snd)
  }

  lemma {:induction false} InvSide(w: World, who: Who)
    requires Inv(w)
    ensures InvAt(w, who)
  {
    hide Pair, Settled, Timed, Opened;
    PairSymmetric(w.client, w.server);
  }

  lemma {:induction false} InvWith(w: World, who: Who, c: Side)
    requires Inv(w) && Pair(c, Peer(w, who)) && Settled(c.e.rcv) && Timed(c.e.snd) && Opened(With(w, who, c))
    ensures Inv(With(w, who, c))
  {
    hide Pair, Settled, Timed, Opened;
    PairSymmetric(c, Peer(w, who));
  }

  lemma {:induction false} StepSide(w: World, who: Who, st: Step, c: Side)
    requires Inv(w) && Enabled(w, st) && Apply(w, st) == With(w, who, c)
    requires Pair(c, Peer(w, who)) && Settled(c.e.rcv) && Timed(c.e.snd)
    ensures Inv(Apply(w, st))
  {
    hide Pair, Settled, Timed, Opened, Enabled, Apply;
    StepKeepsOpened(w, st);
    InvWith(w, who, c);
  }

  lemma {:induction false} OpenKeeps(w: World, b: seq<byte>)
    requires Inv(w) && Enabled(w, OpenStep(b))
    ensures Inv(Apply(w, OpenStep(b)))
  {
    hide Pair, Settled, Timed, Enqueue, OpenPayload;
    var a := w.client;
    var p := OpenRequest(a.e, b);
    FreshClient(w);
    EnqueueKeeps(a, SideWriteOpen(a, b), p, w.server);
    EnqueueTimed(a.e.snd, p);
    StepSide(w, Client, OpenStep(b), SideWriteOpen(a, b));
  }

  // A client that has not sent its open request has not numbered anything.
  lemma {:induction false} FreshClient(w: World)
    requires Inv(w) && !w.client.e.openSent
    ensures w.client.log == [] && |w.client.e.snd.sendQueue| == 0 && w.client.e.isClient
  {
    hide Link, Receiving, AcksSafe, OutShape, Timed, Settled;
    NothingFiled(w.client.e.snd.sendQueue);
  }

  lemma {:induction false} NothingFiled(t: Tree)
    requires Files(t, [])
    ensures t == map[]
  {
    if t != map[] {
      var k := MinKey(t);
      assert false;
    }
  }

  lemma {:induction false} WriteKeeps(w: World, who: Who, b: seq<byte>, stop: nat)
    requires Inv(w) && Enabled(w, WriteStep(who, b, stop))
    ensures Inv(Apply(w, WriteStep(who, b, stop)))
  {
    hide Pair, Settled, Timed, Opened, PartsOf, SideQueueParts;
    InvSide(w, who);
    var a := At(w, who);
    QueuePartsKeeps(a, PartsOf(a.e, b), stop, Peer(w, who));
    QueuePartsTimed(a, PartsOf(a.e, b), stop);
    StepSide(w, who, WriteStep(who, b, stop), SideQueueParts(a, PartsOf(a.e, b), stop));
  }

  lemma {:induction false} ReadStepKeeps(w: World, who: Who, n: nat)
    requires Inv(w) && Enabled(w, ReadStep(who, n))
    ensures Inv(Apply(w, ReadStep(who, n)))
  {
    hide Pair, Settled, Timed, Opened, ReadRest, ReadsResponse, Taken;
    InvSide(w, who);
    ReadKeeps(At(w, who), n, Peer(w, who));
    StepSide(w, who, ReadStep(who, n), SideRead(At(w, who), n));
  }

  lemma {:induction false} ResendStepKeeps(w: World, who: Who, now: int, rto: nat, nextTX: int)
    requires Inv(w) && Enabled(w, ResendStep(who, now, rto, nextTX))
    ensures Inv(Apply(w, ResendStep(who, now, rto, nextTX)))
  {
    hide Pair, Settled, Timed, Opened, ResendTree, ResentPackets, EarliestDeadline, NoneExhausted;
    InvSide(w, who);
    var a := At(w, who);
    ResendKeeps(a, now, rto, nextTX, Peer(w, who));
    assert forall k | k in a.e.snd.sendBuf :: k < UINT32 by { SmallNumbers(a, Peer(w, who)); }
    ResendTimed(a.e.snd, now, rto, a.e.rcv.nextRecv, nextTX);
    StepSide(w, who, ResendStep(who, now, rto, nextTX), SideResend(a, now, rto, nextTX));
  }

  lemma {:induction false} SmallNumbers(a: Side, b: Side)
    requires Pair(a, b)
    ensures forall k | k in a.e.snd.sendBuf :: k < |a.log| < UINT32
  {
    hide Link, Receiving, AcksSafe;
  }

  lemma {:induction false} SendStepKeeps(w: World, who: Who, now: int, rto: nat, cwnd: nat, sent: nat)
    requires Inv(w) && Enabled(w, SendStep(who, now, rto, cwnd, sent))
    ensures Inv(Apply(w, SendStep(who, now, rto, cwnd, sent)))
  {
    hide Pair, Settled, Timed, Opened, SendNew, NextToSend, DeferData;
    InvSide(w, who);
    SendNewKeeps(At(w, who), now, rto, Peer(w, who));
    SendNewTimed(At(w, who).e.snd, now, rto, At(w, who).e.rcv.nextRecv);
    StepSide(w, who, SendStep(who, now, rto, cwnd, sent), SideSendNew(At(w, who), now, rto));
  }

  lemma {:induction false} AckStepKeeps(w: World, who: Who, now: int, jitter: int)
    requires Inv(w) && Enabled(w, AckStep(who, now, jitter))
    ensures Inv(Apply(w, AckStep(who, now, jitter)))
  {
    hide Pair, Settled, Opened, AckPacket;
    InvSide(w, who);
    SendAckKeeps(At(w, who), now, Peer(w, who));
    StepSide(w, who, AckStep(who, now, jitter), SideSendAck(At(w, who), now));
  }

  lemma {:induction false} DispatchStepKeeps(w: World, who: Who, p: Packet, now: int)
    requires Inv(w) && Enabled(w, DispatchStep(who, p, now))
    ensures Inv(Apply(w, DispatchStep(who, p, now)))
  {
    hide Pair, Settled, Opened;
    InvSide(w, who);
    var a, b := At(w, who), Peer(w, who);
    DeliverKeeps(a, p, b);
    CreatedKeeps(a, now, b);
    DeliverKeeps(SideCreated(a, now), p, b);
    StepKeepsOpened(w, DispatchStep(who, p, now));
    PairSymmetric(SideDeliver(a, p), b);
    PairSymmetric(SideDeliver(SideCreated(a, now), p), b);
  }

  lemma {:induction false} InputStepKeeps(w: World, who: Who, now: int)
    requires Inv(w) && Enabled(w, InputStep(who, now))
    ensures Inv(Apply(w, InputStep(who, now)))
  {
    hide Pair, Settled, Timed, Opened, Endpoints.Input, Responds;
    InvSide(w, who);
    InputKeeps(At(w, who), now, Peer(w, who));
    InputTimed(At(w, who).e, At(w, who).chan[0], now);
    StepSide(w, who, InputStep(who, now), SideInput(At(w, who), now));
  }

  lemma {:induction false} StepKeeps(w: World, st: Step)
    requires Inv(w) && Enabled(w, st)
    ensures Inv(Apply(w, st))
  {
    hide Inv, Enabled, Apply;
    match st
    case OpenStep(b) => OpenKeeps(w, b);
    case WriteStep(who, b, stop) => WriteKeeps(w, who, b, stop);
    case ReadStep(who, n) => ReadStepKeeps(w, who, n);
    case ResendStep(who, now, rto, nextTX) => ResendStepKeeps(w, who, now, rto, nextTX);
    case SendStep(who, now, rto, cwnd, sent) => SendStepKeeps(w, who, now, rto, cwnd, sent);
    case AckStep(who, now, jitter) => AckStepKeeps(w, who, now, jitter);
    case DispatchStep(who, p, now) => DispatchStepKeeps(w, who, p, now);
    case InputStep(who, now) => InputStepKeeps(w, who, now);
  }

  // The worlds a run goes through.
  ghost predicate IsRun(ws: seq<World>, steps: seq<Step>, cm: int, cl: int, sm: int, sl: int) {
    && |ws| == |steps| + 1
    && ws[0] == Init(cm, cl, sm, sl)
    && forall i | 0 <= i < |steps| :: Enabled(ws[i], steps[i]) && ws[i + 1] == Apply(ws[i], steps[i])
  }

  lemma {:induction false} RunKeeps(ws: seq<World>, steps: seq<Step>, cm: int, cl: int, sm: int, sl: int, i: nat)
    requires IsRun(ws, steps, cm, cl, sm, sl) && i < |ws|
    ensures Inv(ws[i])
  {
    hide Inv, Enabled, Apply, Init;
    if i == 0 {
      InitInv(cm, cl, sm, sl);
    } else {
      RunKeeps(ws, steps, cm, cl, sm, sl, i - 1);
      StepKeeps(ws[i - 1], steps[i - 1]);
    }
  }

  // ---------------------------------------------------------------------------
  // Prefix delivery
  // ---------------------------------------------------------------------------

  // What was read and what can still be read is the payload of everything taken in order.
  lemma {:induction false} PendingPayloads(r: Receiver, log: seq<Packet>, out: set<Packet>, got: seq<byte>)
    requires Receives(r, log, out, got)
    requires forall p | p in out && !IsAckProtocol(p.protocol) :: Matches(p, log)
    ensures got + Pending(r) == Payloads(log[..r.nextRecv])
    decreases |r.recvQueue|
  {
    hide Matches, IsAckProtocol, PopQueue, Payloads, SentTo, Keyed, Contiguous, InOrder;
    if r.recvQueue == map[] {
      EmptyInOrder();
      assert r.unreadBuf + [] == r.unreadBuf;
    } else {
      PopReceives(r, log, out, got);
      PopFrame(r);
      PendingPayloads(PopQueue(r), log, out, got + r.unreadBuf);
      PendingPop(r);
      assert got + r.unreadBuf + Pending(PopQueue(r)) == got + (r.unreadBuf + Pending(PopQueue(r)));
    }
  }

  lemma {:induction false} EmptyInOrder()
    ensures InOrder(map[]) == []
  {}

  lemma {:induction false} PendingPop(r: Receiver)
    requires r.recvQueue != map[]
    ensures Pending(r) == r.unreadBuf + Pending(PopQueue(r))
  {}

  lemma {:induction false} PayloadsPrefix(log: seq<Packet>, n: nat)
    requires n <= |log|
    ensures Payloads(log[..n]) <= Payloads(log)
  {
    if n < |log| {
      PayloadsPrefix(log[..|log| - 1], n);
      assert log[..|log| - 1][..n] == log[..n];
    } else {
      assert log[..n] == log;
    }
  }

  // In every reachable world, what one application has read, then what it can still read,
  // is the payload of the segments that its peer numbered and it took in order.
  lemma {:induction false} PrefixDelivery(ws: seq<World>, steps: seq<Step>, cm: int, cl: int, sm: int, sl: int, i: nat, who: Who)
    requires IsRun(ws, steps, cm, cl, sm, sl) && i < |ws|
    ensures var a, b := At(ws[i], who), Peer(ws[i], who);
      && a.e.rcv.nextRecv <= |b.log|
      && a.got + Pending(a.e.rcv) == Payloads(b.log[..a.e.rcv.nextRecv])
      && a.got <= Payloads(b.log)
  {
    hide Pair, Opened, Enabled, Apply, IsRun, Matches, Pending, Payloads;
    RunKeeps(ws, steps, cm, cl, sm, sl, i);
    InvSide(ws[i], who);
    var a, b := At(ws[i], who), Peer(ws[i], who);
    ReceivesPair(a, b);
    PendingPayloads(a.e.rcv, b.log, b.out, a.got);
    PayloadsPrefix(b.log, a.e.rcv.nextRecv);
    assert a.got <= a.got + Pending(a.e.rcv);
  }

  // ---------------------------------------------------------------------------
  // Writing
  // ---------------------------------------------------------------------------

  function Other(who: Who): Who { if who.Client? then Server else Client }

  lemma {:induction false} QueuePartsPayload(a: Side, parts: seq<seq<byte>>, n: nat)
    requires n <= |parts|
    ensures Payloads(SideQueueParts(a, parts, n).log) == Payloads(a.log) + Flatten(parts[..n])
    decreases n
  {
    hide Flatten, Enqueue, Payloads, DataProtocol, ReceiveWindow;
    if n == 0 {
      FlattenNone();
      assert parts[..0] == [];
      assert Payloads(a.log) + [] == Payloads(a.log);
    } else {
      var p := DataPacket(a.e, parts[0], |parts| - 1);
      QueuePartsPayload(SideEnqueue(a, p), parts[1..], n - 1);
      PayloadsAppend(a.log, p);
      assert parts[..n] == [parts[0]] + parts[1..][..n - 1];
      FlattenCons(parts[0], parts[1..][..n - 1]);
      assert Payloads(a.log) + parts[0] + Flatten(parts[1..][..n - 1]) == Payloads(a.log) + (parts[0] + Flatten(parts[1..][..n - 1]));
    }
  }

  // The endpoint after a write step is the one that the loop of writeChunk leaves.
  lemma {:induction false} WriteStepIsLoop(a: Side, parts: seq<seq<byte>>, n: nat)
    requires n <= |parts|
    ensures SideQueueParts(a, parts, n).e == QueueParts(a.e, parts, n)
    decreases n
  {
    hide Enqueue, DataPacket;
    if n > 0 {
      WriteStepIsLoop(SideEnqueue(a, DataPacket(a.e, parts[0], |parts| - 1)), parts[1..], n - 1);
    }
  }

  lemma {:induction false} RunLength(ws: seq<World>, steps: seq<Step>, cm: int, cl: int, sm: int, sl: int)
    requires IsRun(ws, steps, cm, cl, sm, sl)
    ensures |ws| == |steps| + 1
  {
    hide Init, Enabled, Apply;
  }

  // ---------------------------------------------------------------------------
  // Acknowledgements, loss and windows
  // ---------------------------------------------------------------------------

  // Every acknowledgement in flight covers only what the peer has taken in order, and
  // everything else is still with its sender.
  lemma {:induction false} AckSafety(ws: seq<World>, steps: seq<Step>, cm: int, cl: int, sm: int, sl: int, i: nat, who: Who)
    requires IsRun(ws, steps, cm, cl, sm, sl) && i < |ws|
    ensures var a, b := At(ws[i], who), Peer(ws[i], who);
      && (forall p | p in a.out && IsDataAckProtocol(p.protocol) :: p.unAckSeq <= a.e.rcv.nextRecv)
      && (forall k | a.e.rcv.nextRecv <= k < |b.log| :: k in b.e.snd.sendQueue || k in b.e.snd.sendBuf)
  {
    hide Opened, Enabled, Apply, IsRun, Sending, Receiving, Holds, Delivered, IsDataAckProtocol;
    RunKeeps(ws, steps, cm, cl, sm, sl, i);
    InvSide(ws[i], who);
  }

  lemma {:induction false} StillHeld(s: Sender, log: seq<Packet>, n: nat)
    requires NoLoss(s, log, n)
    ensures n < |log| ==> s.sendQueue != map[] || s.sendBuf != map[]
  {
    assert n < |log| ==> n in s.sendQueue || n in s.sendBuf;
  }

  // A sender with nothing queued and nothing unacknowledged has had everything taken in.
  lemma {:induction false} DrainedMeansTaken(ws: seq<World>, steps: seq<Step>, cm: int, cl: int, sm: int, sl: int, i: nat, who: Who)
    requires IsRun(ws, steps, cm, cl, sm, sl) && i < |ws|
    requires Peer(ws[i], who).e.snd.sendQueue == map[] && Peer(ws[i], who).e.snd.sendBuf == map[]
    ensures At(ws[i], who).got + Pending(At(ws[i], who).e.rcv) == Payloads(Peer(ws[i], who).log)
  {
    hide IsRun, Payloads, Pending;
    var a, b := At(ws[i], who), Peer(ws[i], who);
    AckSafety(ws, steps, cm, cl, sm, sl, i, who);
    PrefixDelivery(ws, steps, cm, cl, sm, sl, i, who);
    StillHeld(b.e.snd, b.log, a.e.rcv.nextRecv);
    assert b.log[..|b.log|] == b.log;
  }

  // A segment held out of order is still with its sender.
  lemma {:induction false} HeldIsUnacknowledged(a: Side, b: Side, k: nat)
    requires Pair(a, b) && Settled(a.e.rcv) && k in a.e.rcv.recvBuf
    ensures k in b.e.snd.sendBuf
  {
    hide Receiving, AcksSafe, Delivered, Numbered, Files;
    var p := a.e.rcv.recvBuf[k].pkt;
    assert p.seqNo == k by { RecvKeyed(a, k); }
    assert p in b.out && !IsAckProtocol(p.protocol);
    assert Matches(p, b.log) && k !in b.e.snd.sendQueue;
  }

  lemma {:induction false} RecvKeyed(a: Side, k: nat)
    requires Own(a) && k in a.e.rcv.recvBuf
    ensures a.e.rcv.recvBuf[k].pkt.seqNo == k
  {
    hide Sending, AcksSafe;
  }

  // The trees of the receiver never hold more than 4096 segments together, every segment
  // held out of order is still in the sendBuf of its sender, and a window of 0 means that
  // the application has something to read.
  lemma {:induction false} WindowNeverDeadlocks(ws: seq<World>, steps: seq<Step>, cm: int, cl: int, sm: int, sl: int, i: nat, who: Who)
    requires IsRun(ws, steps, cm, cl, sm, sl) && i < |ws|
    ensures var a, b := At(ws[i], who).e, Peer(ws[i], who).e;
      && |a.rcv.recvBuf| + |a.rcv.recvQueue| <= SEGMENT_TREE_CAPACITY
      && a.rcv.recvBuf.Keys <= b.snd.sendBuf.Keys && |b.snd.sendBuf| < SEGMENT_TREE_CAPACITY
      && (ReceiveWindow(a.rcv) == 0 ==> a.rcv.recvQueue != map[])
  {
    hide Opened, Enabled, Apply, IsRun;
    RunKeeps(ws, steps, cm, cl, sm, sl, i);
    InvSide(ws[i], who);
    WindowOpen(At(ws[i], who), Peer(ws[i], who));
  }

  lemma {:induction false} WindowOpen(a: Side, b: Side)
    requires Pair(a, b) && Settled(a.e.rcv)
    ensures |a.e.rcv.recvBuf| + |a.e.rcv.recvQueue| <= SEGMENT_TREE_CAPACITY
    ensures a.e.rcv.recvBuf.Keys <= b.e.snd.sendBuf.Keys && |b.e.snd.sendBuf| < SEGMENT_TREE_CAPACITY
    ensures ReceiveWindow(a.e.rcv) == 0 ==> a.e.rcv.recvQueue != map[]
  {
    hide Link, Sending, AcksSafe, Contiguous, Keyed, Settled;
    forall k | k in a.e.rcv.recvBuf
      ensures k in b.e.snd.sendBuf
    {
      HeldIsUnacknowledged(a, b, k);
    }
    SubsetSize(a.e.rcv.recvBuf.Keys, b.e.snd.sendBuf.Keys);
  }

  // The next segment is always taken when it arrives and the window is open.
  lemma {:induction false} NextSegmentAdvances(a: Side, b: Side, p: Packet, now: int)
    requires Pair(a, b) && Settled(a.e.rcv) && ReceiveWindow(a.e.rcv) > 0
    requires p in b.out && !IsAckProtocol(p.protocol) && p.seqNo == a.e.rcv.nextRecv
    ensures Endpoints.Input(a.e, p, now).rcv.nextRecv > a.e.rcv.nextRecv
  {
    hide Pair, MoveAll, WindowAfter, Settled, TakeAck, Enqueue, Receives, Matches;
    ReceivesPair(a, b);
    FileReceives(a.e.rcv, p, b.log, b.out, a.got);
    FiledAdvances(a.e.rcv, p, b.log, b.out, a.got);
    TakeAckRcv(NoteLowEntropy(a.e, p), p);
  }

  lemma {:induction false} TakeAckRcv(e: Endpoint, p: Packet)
    ensures TakeAck(e, p).rcv == e.rcv
  {}

  lemma {:induction false} FiledAdvances(r: Receiver, p: Packet, log: seq<Packet>, out: set<Packet>, got: seq<byte>)
    requires Receives(Filed(r, p), log, out, got) && |log| < UINT32 && p.seqNo == r.nextRecv
    requires forall p | p in out && !IsAckProtocol(p.protocol) :: Matches(p, log)
    requires Settled(r) && !Dropped(r)
    ensures MoveAll(Filed(r, p)).nextRecv > r.nextRecv
  {
    hide Receives, Matches, AddOne, Dropped;
    var t := Filed(r, p);
    assert MinKey(t.recvBuf) == r.nextRecv;
    assert |t.recvQueue| < SEGMENT_TREE_CAPACITY by { NotFull(r); }
    RemoveSize(t.recvBuf, r.nextRecv);
    MoveOneReceives(t, log, out, got);
    NextIsNumbered(t, log, out, got);
    AddOneNumbered(r.nextRecv, |log|);
    MoveAllReceives(MoveOne(t), log, out, got);
  }

  lemma {:induction false} NotFull(r: Receiver)
    requires !Dropped(r)
    ensures |r.recvQueue| < SEGMENT_TREE_CAPACITY
  {}

  // ---------------------------------------------------------------------------
  // Opening and timers
  // ---------------------------------------------------------------------------

  // The server never sees a packet of a session it does not know, every packet is one that
  // its receiver accepts, the client numbers one open request, as its first segment, and the
  // server numbers at most one open response.
  lemma {:induction false} OpeningHandshake(ws: seq<World>, steps: seq<Step>, cm: int, cl: int, sm: int, sl: int, i: nat, now: int)
    requires IsRun(ws, steps, cm, cl, sm, sl) && i < |ws|
    ensures var w := ws[i];
      && (forall p | p in w.client.out :: Accepts(false, p.protocol) && (p.protocol.OpenSessionRequest? || w.registered) && DispatchTo(w, Server, p, now).Some?)
      && (forall p | p in w.server.out :: Accepts(true, p.protocol))
      && (forall k | 0 <= k < |w.client.log| :: w.client.log[k].protocol.OpenSessionRequest? <==> k == 0)
      && (forall j, k | 0 <= j < k < |w.server.log| :: w.server.log[j].protocol.OpenSessionResponse? ==> !w.server.log[k].protocol.OpenSessionResponse?)
  {
    hide Pair, Enabled, Apply, IsRun, Accepts;
    RunKeeps(ws, steps, cm, cl, sm, sl, i);
  }

  lemma {:induction false} RunStep(ws: seq<World>, steps: seq<Step>, cm: int, cl: int, sm: int, sl: int, i: nat)
    requires IsRun(ws, steps, cm, cl, sm, sl) && i < |steps|
    ensures |ws| == |steps| + 1 && Enabled(ws[i], steps[i]) && ws[i + 1] == Apply(ws[i], steps[i])
  {
    hide Init, Enabled, Apply;
  }

  // No segment is sent more than 20 times, and the output loop sleeps past no deadline.
  lemma {:induction false} Retransmission(ws: seq<World>, steps: seq<Step>, cm: int, cl: int, sm: int, sl: int, i: nat, who: Who, k: nat, now: int, jitter: int)
    requires IsRun(ws, steps, cm, cl, sm, sl) && i < |ws| && k in At(ws[i], who).e.snd.sendBuf
    ensures var e := At(ws[i], who).e;
      && 1 <= e.snd.sendBuf[k].txCount <= TX_COUNT_LIMIT
      && e.snd.nextRetransmission <= e.snd.sendBuf[k].Deadline()
      && now + OutputDelay(e, now, jitter) <= Max(e.snd.sendBuf[k].Deadline(), now + MIN_OUTPUT_INTERVAL)
  {
    hide Pair, Opened, Enabled, Apply, IsRun, OutputDelay;
    RunKeeps(ws, steps, cm, cl, sm, sl, i);
    InvSide(ws[i], who);
    SleepMeetsDeadlines(At(ws[i], who).e, now, jitter, k);
  }
}

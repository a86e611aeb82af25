/** The runs of a session reach the wire: whatever the two sides do, every packet that one of them
    sends is written within its MTU and parsed by the other into the same packet. */
module Wire {
  import opened Bits
  import opened Bytes
  import opened LowEntropy
  import opened Fragment
  import opened Protocols
  import opened Metadata
  import opened Cipher
  import opened Packets
  import opened Segments
  import opened Endpoints
  import opened Transport
  import opened Handshake
  import opened Runs
  import opened Datagrams

  ghost predicate TreeFits(t: Tree, mtu: int, mode: int) {
    forall k | k in t :: Fits(t[k].pkt, mtu, mode)
  }

  // Everything that a side queued, keeps for retransmission or ever sent fits the wire.
  ghost predicate SideFits(a: Side, mtu: int, mode: int) {
    && a.e.mtu == mtu && a.e.mode == mode
    && TreeFits(a.e.snd.sendQueue, mtu, mode)
    && TreeFits(a.e.snd.sendBuf, mtu, mode)
    && forall p | p in a.out :: Fits(p, mtu, mode)
  }

  // The numbers that a side puts into its packets stay within 32 bits.
  lemma {:induction false} NumbersSmall(a: Side, b: Side, mtu: int, mode: int)
    requires Pair(a, b) && SideFits(a, mtu, mode) && Configured(mtu, mode)
    ensures Small(a.e) && a.e.snd.nextSend == |a.log| && a.e.rcv.nextRecv < UINT32
  {
    hide Receiving, AcksSafe, Delivered, NoLoss, Fits, Numbered, Files, Matches, TreeFits;
  }

  lemma {:induction false} EnqueueFits(a: Side, c: Side, p: Packet, mtu: int, mode: int)
    requires SideFits(a, mtu, mode) && Fits(p, mtu, mode)
    requires c.e.mtu == a.e.mtu && c.e.mode == a.e.mode && c.e.snd == Enqueue(a.e.snd, p) && c.out == a.out
    ensures SideFits(c, mtu, mode)
  {
    hide Fits, AddOne;
  }

  lemma {:induction false} QueuePartsFits(a: Side, parts: seq<seq<byte>>, n: nat, mtu: int, mode: int)
    requires SideFits(a, mtu, mode) && Configured(mtu, mode) && n <= |parts| && PartsFit(parts, mtu, SendMode(a.e))
    requires a.e.snd.nextSend + n < UINT32 && a.e.rcv.nextRecv < UINT32
    ensures SideFits(SideQueueParts(a, parts, n), mtu, mode)
    decreases n
  {
    hide Fits, SideFits, Enqueue, DataPacket, WireLen;
    if n > 0 {
      FitsConfigured(a, mtu, mode);
      var p := DataPacket(a.e, parts[0], |parts| - 1);
      PartFits(a.e, parts[0], |parts| - 1);
      var c := SideEnqueue(a, p);
      EnqueueFits(a, c, p, mtu, mode);
      assert c.e.snd.nextSend == a.e.snd.nextSend + 1 by { NextNumber(a.e.snd, p); }
      QueuePartsFits(c, parts[1..], n - 1, mtu, mode);
    }
  }

  lemma {:induction false} FitsConfigured(a: Side, mtu: int, mode: int)
    requires SideFits(a, mtu, mode)
    ensures a.e.mtu == mtu && a.e.mode == mode
  {
    hide TreeFits, Fits;
  }

  lemma {:induction false} NextNumber(s: Sender, p: Packet)
    requires s.nextSend + 1 < UINT32
    ensures Enqueue(s, p).nextSend == s.nextSend + 1
  {}

  // A transmission only changes the acknowledgement of its packet.
  lemma {:induction false} RefreshFits(p: Packet, nextRecv: nat, mtu: int, mode: int)
    requires Fits(p, mtu, mode) && nextRecv < UINT32
    ensures Fits(Refresh(p, nextRecv), mtu, mode)
  {
    hide WireLen;
  }

  lemma {:induction false} ResendFits(a: Side, now: int, rto: nat, nextTX: int, mtu: int, mode: int)
    requires SideFits(a, mtu, mode) && a.e.rcv.nextRecv < UINT32
    ensures SideFits(SideResend(a, now, rto, nextTX), mtu, mode)
  {
    hide Fits, Due, TxTimeout, Refresh, NoneDue;
    forall k | k in a.e.snd.sendBuf
      ensures Fits(Resent(a.e.snd.sendBuf[k], now, rto, a.e.rcv.nextRecv).pkt, mtu, mode)
    {
      RefreshFits(a.e.snd.sendBuf[k].pkt, a.e.rcv.nextRecv, mtu, mode);
    }
  }

  lemma {:induction false} SendFits(a: Side, now: int, rto: nat, mtu: int, mode: int)
    requires SideFits(a, mtu, mode) && a.e.rcv.nextRecv < UINT32 && a.e.snd.sendQueue != map[]
    ensures SideFits(SideSendNew(a, now, rto), mtu, mode)
  {
    hide Fits, TxTimeout, Refresh;
    RefreshFits(a.e.snd.sendQueue[MinKey(a.e.snd.sendQueue)].pkt, a.e.rcv.nextRecv, mtu, mode);
  }

  lemma {:induction false} DropFits(t: Tree, u: nat, mtu: int, mode: int)
    requires TreeFits(t, mtu, mode)
    ensures TreeFits(DropAcked(t, u), mtu, mode) && TreeFits(CountAck(t, u), mtu, mode)
  {
    hide Fits;
  }

  lemma {:induction false} TakeAckFits(a: Side, p: Packet, mtu: int, mode: int)
    requires SideFits(a, mtu, mode)
    ensures
      (var s := TakeAck(a.e, p).snd;
       && s.sendQueue == a.e.snd.sendQueue && s.nextSend == a.e.snd.nextSend
       && TreeFits(s.sendBuf, mtu, mode) && TreeFits(CountAck(s.sendBuf, p.unAckSeq), mtu, mode))
  {
    hide Fits, DropAcked, CountAck, TreeFits;
    DropFits(a.e.snd.sendBuf, p.unAckSeq, mtu, mode);
    DropFits(DropAcked(a.e.snd.sendBuf, p.unAckSeq), p.unAckSeq, mtu, mode);
  }

  lemma {:induction false} InputFits(a: Side, now: int, mtu: int, mode: int)
    requires SideFits(a, mtu, mode) && a.chan != [] && Small(a.e)
    ensures SideFits(SideInput(a, now), mtu, mode)
  {
    hide Fits, TakeAck, CountAck, Receive, Responds, TreeFits, AddOne;
    var p := a.chan[0];
    TakeAckFits(a, p, mtu, mode);
    if !IsAckProtocol(p.protocol) {
      var e := NoteLowEntropy(a.e, p);
      TakeAckFits(a.(e := e), p, mtu, mode);
      ReceiveFrame(e, p, now);
      OpenFits(e, []);
      InsertFits(a.e.snd.sendQueue, OpenResponse(e), mtu, mode);
    } else {
      AckFrame(a.e, p);
    }
  }

  lemma {:induction false} AckFrame(e: Endpoint, p: Packet)
    ensures TakeAck(e, p).mtu == e.mtu && TakeAck(e, p).mode == e.mode
  {}

  lemma {:induction false} InsertFits(t: Tree, p: Packet, mtu: int, mode: int)
    requires TreeFits(t, mtu, mode) && Fits(p, mtu, mode)
    ensures TreeFits(t[p.seqNo := NewSegment(p)], mtu, mode)
  {
    hide Fits;
  }

  lemma {:induction false} AckFitsSide(a: Side, now: int, mtu: int, mode: int)
    requires SideFits(a, mtu, mode) && Small(a.e)
    ensures SideFits(SideSendAck(a, now), mtu, mode)
  {
    hide Fits, AckPacket, TreeFits;
    AckPacketFits(a.e);
  }

  lemma {:induction false} StepFits(w: World, st: Step, who: Who, mtu: int, mode: int)
    requires Inv(w) && Enabled(w, st) && Configured(mtu, mode) && SideFits(At(w, who), mtu, mode)
    ensures SideFits(At(Apply(w, st), who), mtu, mode)
  {
    hide Pair, Settled, Timed, PartsOf, SideQueueParts, ReadRest, ReadsResponse, Taken, Endpoints.Input, EarliestDeadline, CanSendNew, CongestionWindow, AckDue, AckPacket, ResendAll, ResentPackets, OpenRequest, SendNew, NextToSend, Responds, Enqueue, TreeFits, Fits, Opened;
    InvSide(w, who);
    var a := At(w, who);
    NumbersSmall(a, Peer(w, who), mtu, mode);
    match st
    case OpenStep(b) =>
      if who.Client? {
        OpenFits(a.e, b);
        EnqueueFits(a, SideWriteOpen(a, b), OpenRequest(a.e, b), mtu, mode);
      }
    case WriteStep(x, b, stop) =>
      if x == who {
        PartsOfFit(a.e, b);
        QueuePartsFits(a, PartsOf(a.e, b), stop, mtu, mode);
      }
    case ResendStep(x, now, rto, nextTX) =>
      if x == who {
        ResendFits(a, now, rto, nextTX, mtu, mode);
      }
    case SendStep(x, now, rto, cwnd, sent) =>
      if x == who {
        assert a.e.snd.sendQueue != map[] by { SomethingQueued(a.e, cwnd, sent); }
        SendFits(a, now, rto, mtu, mode);
      }
    case AckStep(x, now, jitter) =>
      if x == who {
        AckFitsSide(a, now, mtu, mode);
      }
    case InputStep(x, now) =>
      if x == who {
        InputFits(a, now, mtu, mode);
      }
    case _ =>
  }

  lemma {:induction false} SomethingQueued(e: Endpoint, cwnd: nat, sent: nat)
    requires CanSendNew(e, cwnd, sent)
    ensures e.snd.sendQueue != map[]
  {
    hide DeferData, SendWindow;
  }

  lemma {:induction false} RunFits(ws: seq<World>, steps: seq<Step>, cm: int, cl: int, sm: int, sl: int, i: nat, who: Who)
    requires IsRun(ws, steps, cm, cl, sm, sl) && i < |ws| && Configured(cm, cl) && Configured(sm, sl)
    ensures SideFits(At(ws[i], who), if who.Client? then cm else sm, if who.Client? then cl else sl)
  {
    hide Inv, Enabled, Apply, Fits;
    if i > 0 {
      RunFits(ws, steps, cm, cl, sm, sl, i - 1, who);
      RunKeeps(ws, steps, cm, cl, sm, sl, i - 1);
      StepFits(ws[i - 1], steps[i - 1], who, if who.Client? then cm else sm, if who.Client? then cl else sl);
    }
  }

  // In every run, for every packet that a side has sent, first or again: whatever key, nonce,
  // padding, mask and filler bit its datagram is written with, the datagram fits the MTU of the
  // side, and the other side parses it into that same packet of that same session if its clock
  // agrees, and refuses it if not.
  lemma {:induction false} EveryPacketCrosses(ws: seq<World>, steps: seq<Step>, cm: int, cl: int, sm: int, sl: int, i: nat, who: Who, p: Packet,
      a: Aead, id: nat, rotation: nat, c1: Result<int>, c2: Result<int>, nonce: seq<byte>, prefix: seq<byte>, suffix: seq<byte>, mask: Word,
      paddingBit: nat, now: nat, t: nat)
    requires IsRun(ws, steps, cm, cl, sm, sl) && i < |ws| && Configured(cm, cl) && Configured(sm, sl) && p in At(ws[i], who).out
    requires Sound(a) && id < UINT32 && IsValidRotation(rotation) && |nonce| == NONCE_SIZE && now < UINT32 && paddingBit <= 1
    ensures
      (var mtu, mode := if who.Client? then cm else sm, if who.Client? then cl else sl;
       && Encodable(p, mode)
       && (var s := SegOf(p, id, mode, rotation);
           PaddingWithin(s, mtu, c1, c2, |prefix|, |suffix|) && MaskFits(s, mask) ==>
             (var u := Leaving(s, mask, prefix, suffix, now);
              && Fields(u.meta)
              && (var d := Datagram(a, nonce, u, prefix, suffix, paddingBit);
                  && d.Ok? && |d.value| <= mtu
                  && (if WithinRange(t, now, 1)
                      then Parse(a, d.value, t).Ok? && PacketOf(Parse(a, d.value, t).value) == p && Parse(a, d.value, t).value.meta.sessionID == id
                      else Parse(a, d.value, t).Err?)))))
  {
    hide IsRun, Fits, Encodable, SegOf, PacketOf, Sound, Parse, WithinRange, Datagram, Leaving, MaskFits, PaddingWithin, Writable, IsValidRotation, TreeFits;
    RunFits(ws, steps, cm, cl, sm, sl, i, who);
    var mtu, mode := if who.Client? then cm else sm, if who.Client? then cl else sl;
    FitsIsCarried(p, mtu, mode, id, rotation);
    var s := SegOf(p, id, mode, rotation);
    if PaddingWithin(s, mtu, c1, c2, |prefix|, |suffix|) && MaskFits(s, mask) {
      PacketCrosses(a, p, mtu, mode, id, rotation, c1, c2, nonce, prefix, suffix, mask, paddingBit, now, t);
    }
  }
}

/** The calls of a session are runs of the steps of the transport: what the methods of
    `Session` do to the endpoint, and the packets they send, is what a sequence of enabled
    steps does to that side of the world. */
module Refinement {
  import opened Bytes
  import opened Fragment
  import opened Segments
  import opened Endpoints
  import opened Transport
  import opened Progress
  import opened Runs
  import opened Sessions
  import opened Writes

  // The side went on to this endpoint and sent these packets; its peer did nothing.
  ghost predicate Became(w: World, who: Who, v: World, e: Endpoint, sent: set<Packet>) {
    && At(v, who).e == e && At(v, who).out == At(w, who).out + sent
    && Peer(v, who) == Peer(w, who) && At(v, who).got == At(w, who).got && At(v, who).chan == At(w, who).chan
  }

  // ---------------------------------------------------------------------------
  // Output
  // ---------------------------------------------------------------------------

  lemma {:induction false} SendKeepsWindow(a: Side, now: int, rto: nat, cwnd: nat, sent: nat)
    requires CongestionWindow(a, cwnd) && CanSendNew(a.e, cwnd, sent)
    ensures CongestionWindow(SideSendNew(a, now, rto), cwnd)
    ensures |SideSendNew(a, now, rto).e.snd.sendQueue| < |a.e.snd.sendQueue|
    ensures rto >= MIN_RTO && NoPassDue(a.e.snd, now) ==> NoPassDue(SideSendNew(a, now, rto).e.snd, now)
  {
    hide DeferData, SendWindow, TxTimeout, Refresh;
    var s := a.e.snd;
    var x := NextToSend(s, now, rto, a.e.rcv.nextRecv);
    if rto >= MIN_RTO {
      TimeoutPositive(rto, x.txCount);
    }
    RemoveSize(s.sendQueue, MinKey(s.sendQueue));
    InsertSize(s.sendBuf, x.pkt.seqNo, x);
  }

  // The loop that sends new segments is a run of send steps with one congestion window.
  lemma {:induction false} OutputNewIsRun(w: World, who: Who, now: int, rto: nat, cwnd: nat, total: nat) returns (steps: seq<Step>, v: World)
    requires Alive(w, who) && rto >= MIN_RTO && now >= At(w, who).clock && CongestionWindow(At(w, who), cwnd)
    requires NoPassDue(At(w, who).e.snd, now)
    ensures At(v, who).clock <= now && NoPassDue(At(v, who).e.snd, now) && Alive(v, who)
    ensures Leads(w, steps, v) && forall i | 0 <= i < |steps| :: steps[i] == SendStep(who, now, rto, cwnd, total + i)
    ensures
      (var e := At(w, who).e;
       var packets := RoundPackets(e, now, rto, cwnd, total);
       |steps| == |packets| && Became(w, who, v, SendRounds(e, now, rto, cwnd, total), set p | p in packets))
    decreases |At(w, who).e.snd.sendQueue|
  {
    hide CanSendNew, CongestionWindow, SendNew, NextToSend, NoPassDue, Leads, SendRounds, RoundPackets;
    var a := At(w, who);
    RoundsUnfold(a.e, now, rto, cwnd, total);
    if !CanSendNew(a.e, cwnd, total) {
      NoSteps(w);
      assert a.out + (set p: Packet | p in []) == a.out;
      return [], w;
    }
    var st := SendStep(who, now, rto, cwnd, total);
    SendKeepsWindow(a, now, rto, cwnd, total);
    var u := With(w, who, SideSendNew(a, now, rto));
    LeadsStep(w, st);
    var more, x := OutputNewIsRun(u, who, now, rto, cwnd, total + 1);
    LeadsOn(w, [st], u, more, x);
    var p := NextToSend(a.e.snd, now, rto, a.e.rcv.nextRecv).pkt;
    var rest := RoundPackets(At(u, who).e, now, rto, cwnd, total + 1);
    assert (set q | q in [p] + rest) == {p} + (set q | q in rest);
    return [st] + more, x;
  }

  lemma {:induction false} RoundsUnfold(e: Endpoint, now: int, rto: nat, cwnd: nat, sent: nat)
    ensures
      if CanSendNew(e, cwnd, sent) then
        e.snd.sendQueue != map[] &&
        (var f := e.(snd := SendNew(e.snd, now, rto, e.rcv.nextRecv));
         && SendRounds(e, now, rto, cwnd, sent) == SendRounds(f, now, rto, cwnd, sent + 1)
         && RoundPackets(e, now, rto, cwnd, sent) == [NextToSend(e.snd, now, rto, e.rcv.nextRecv).pkt] + RoundPackets(f, now, rto, cwnd, sent + 1))
      else SendRounds(e, now, rto, cwnd, sent) == e && RoundPackets(e, now, rto, cwnd, sent) == []
  {
    hide SendNew, NextToSend, DeferData, SendWindow;
  }

  lemma {:induction false} NoSteps(w: World)
    ensures Leads(w, [], w)
  {
    hide Enabled, Apply, Orderly;
  }

  // A whole retransmission pass is one step.
  lemma {:induction false} OutputResendIsRun(w: World, who: Who, now: int, rto: nat, t: Sender, sent: seq<Packet>) returns (v: World)
    requires Alive(w, who) && rto >= MIN_RTO && now >= At(w, who).clock && At(w, who).e.snd.sendBuf != map[]
    requires now >= At(w, who).e.snd.nextRetransmission && NoneExhausted(At(w, who).e.snd.sendBuf)
    requires ResentWhole(At(w, who).e.snd, now, rto, At(w, who).e.rcv.nextRecv, t, sent)
    ensures Leads(w, [ResendStep(who, now, rto, t.nextRetransmission)], v)
    ensures At(v, who).clock == now && At(v, who).log == At(w, who).log && Alive(v, who)
    ensures Became(w, who, v, At(w, who).e.(snd := t), set p | p in sent)
  {
    hide EarliestDeadline, NoneExhausted, ResendTree, ResentPackets, Leads;
    v := With(w, who, SideResend(At(w, who), now, rto, t.nextRetransmission));
    LeadsStep(w, ResendStep(who, now, rto, t.nextRetransmission));
  }

  // An acknowledgement or heartbeat is one step.
  lemma {:induction false} OutputAckIsRun(w: World, who: Who, now: int, jitter: int) returns (v: World)
    requires Alive(w, who) && now >= At(w, who).clock && -HEARTBEAT_JITTER <= jitter <= HEARTBEAT_JITTER
    requires !Opening(At(w, who).e) && AckDue(At(w, who).e, now, jitter) && NoPassDue(At(w, who).e.snd, now)
    ensures Leads(w, [AckStep(who, now, jitter)], v)
    ensures Became(w, who, v, SendAck(At(w, who).e, now), {AckPacket(At(w, who).e)})
  {
    hide AckDue, AckPacket, NoPassDue, Leads;
    v := With(w, who, SideSendAck(At(w, who), now));
    LeadsStep(w, AckStep(who, now, jitter));
  }

  // After a whole pass no other is due at the same time.
  lemma {:induction false} PassThenNotDue(s: Sender, now: int, rto: nat, nextRecv: nat, t: Sender, resent: seq<Packet>)
    requires rto >= MIN_RTO && ResentWhole(s, now, rto, nextRecv, t, resent)
    ensures NoPassDue(t, now) && t.sendQueue == s.sendQueue && |t.sendBuf| == |s.sendBuf|
  {
    hide Resent, ResentPackets, NoneDue;
    var r := ResendTree(s.sendBuf, now, rto, nextRecv, UINT32);
    var k :| k in r && k < UINT32 && r[k].Deadline() == t.nextRetransmission;
    ResentLater(s.sendBuf[k], now, rto, nextRecv);
    assert r.Keys == s.sendBuf.Keys;
  }

  // A round of the output loop that does not end the session is an orderly run: the pass if it
  // is due, new segments as far as the windows allow, and an acknowledgement if it is due.
  lemma {:induction false} OutputRoundIsRun(w: World, who: Who, now: int, rto: nat, cwnd: nat, jitter: int, f: Endpoint, sent: seq<Packet>)
    returns (steps: seq<Step>, v: World)
    requires Alive(w, who) && rto >= MIN_RTO && now >= At(w, who).clock && CongestionWindow(At(w, who), cwnd)
    requires -HEARTBEAT_JITTER <= jitter <= HEARTBEAT_JITTER && !EndsSession(At(w, who).e.snd, now)
    requires RoundOf(At(w, who).e, now, rto, cwnd, jitter, f, sent)
    ensures Leads(w, steps, v) && Became(w, who, v, f, set p | p in sent)
  {
    hide PassOf, RestOf, Leads, NoneExhausted;
    var a := At(w, who);
    var t, resent, rest :|
      && PassOf(a.e.snd, now, rto, a.e.rcv.nextRecv, t, resent)
      && RestOf(a.e.(snd := t), now, rto, cwnd, jitter, |resent|, f, rest)
      && sent == resent + rest;
    var s1, u := PassIsRun(w, who, now, rto, cwnd, t, resent);
    var s2, x := RestIsRun(u, who, now, rto, cwnd, jitter, |resent|, f, rest);
    LeadsOn(w, s1, u, s2, x);
    assert (set p | p in resent + rest) == (set p | p in resent) + (set p | p in rest);
    return s1 + s2, x;
  }

  lemma {:induction false} PassIsRun(w: World, who: Who, now: int, rto: nat, cwnd: nat, t: Sender, resent: seq<Packet>)
    returns (steps: seq<Step>, v: World)
    requires Alive(w, who) && rto >= MIN_RTO && now >= At(w, who).clock && CongestionWindow(At(w, who), cwnd)
    requires !EndsSession(At(w, who).e.snd, now) && PassOf(At(w, who).e.snd, now, rto, At(w, who).e.rcv.nextRecv, t, resent)
    ensures Leads(w, steps, v) && Became(w, who, v, At(w, who).e.(snd := t), set p | p in resent)
    ensures At(v, who).clock <= now && NoPassDue(t, now) && Alive(v, who) && CongestionWindow(At(v, who), cwnd)
  {
    hide ResentWhole, NoneExhausted, Leads, EarliestDeadline, ResendTree, ResentPackets;
    var a := At(w, who);
    if NoPassDue(a.e.snd, now) {
      NoSteps(w);
      assert a.out + (set p: Packet | p in []) == a.out;
      return [], w;
    }
    PassThenNotDue(a.e.snd, now, rto, a.e.rcv.nextRecv, t, resent);
    steps := [ResendStep(who, now, rto, t.nextRetransmission)];
    v := OutputResendIsRun(w, who, now, rto, t, resent);
  }

  lemma {:induction false} RestIsRun(w: World, who: Who, now: int, rto: nat, cwnd: nat, jitter: int, total: nat, f: Endpoint, sent: seq<Packet>)
    returns (steps: seq<Step>, v: World)
    requires Alive(w, who) && rto >= MIN_RTO && now >= At(w, who).clock && CongestionWindow(At(w, who), cwnd)
    requires -HEARTBEAT_JITTER <= jitter <= HEARTBEAT_JITTER && NoPassDue(At(w, who).e.snd, now)
    requires RestOf(At(w, who).e, now, rto, cwnd, jitter, total, f, sent)
    ensures Leads(w, steps, v) && Became(w, who, v, f, set p | p in sent)
  {
    hide SendRounds, RoundPackets, NoPassDue, CongestionWindow, AckDue, AckPacket, Leads;
    var s1, u := OutputNewIsRun(w, who, now, rto, cwnd, total);
    var g := At(u, who).e;
    if Opening(g) || !AckDue(g, now, jitter) {
      return s1, u;
    }
    var x := OutputAckIsRun(u, who, now, jitter);
    LeadsOn(w, s1, u, [AckStep(who, now, jitter)], x);
    var more := RoundPackets(At(w, who).e, now, rto, cwnd, total);
    assert (set p | p in more + [AckPacket(g)]) == (set p | p in more) + {AckPacket(g)};
    return s1 + [AckStep(who, now, jitter)], x;
  }

  // ---------------------------------------------------------------------------
  // Writing
  // ---------------------------------------------------------------------------

  lemma {:induction false} QueuePartsSide(a: Side, parts: seq<seq<byte>>, n: nat)
    requires n <= |parts|
    ensures var c := SideQueueParts(a, parts, n); c.out == a.out && c.got == a.got && c.chan == a.chan && c.clock == a.clock
    decreases n
  {
    hide Enqueue, DataPacket;
    if n > 0 {
      QueuePartsSide(SideEnqueue(a, DataPacket(a.e, parts[0], |parts| - 1)), parts[1..], n - 1);
    }
  }

  lemma {:induction false} NoParts(a: Side, parts: seq<seq<byte>>)
    ensures SideQueueParts(a, parts, 0) == a && QueueParts(a.e, parts, 0) == a.e
  {}

  // What writeChunk queues, in time for its deadline, is one step; a refused chunk is none.
  lemma {:induction false} WriteChunkIsRun(w: World, who: Who, b: seq<byte>, deadline: nat) returns (steps: seq<Step>, v: World)
    requires Alive(w, who) && (who.Client? ==> At(w, who).e.openSent) && b != []
    requires |At(w, who).log| + |PartsOf(At(w, who).e, b)| < UINT32
    ensures Leads(w, steps, v) && steps == if Refused(At(w, who).e, b) then [] else [WriteStep(who, b, ChunkQueued(At(w, who).e, b, deadline))]
    ensures v == With(w, who, SideQueueParts(At(w, who), PartsOf(At(w, who).e, b), ChunkQueued(At(w, who).e, b, deadline)))
    ensures
      (var e := At(w, who).e;
       Became(w, who, v, QueueParts(e, PartsOf(e, b), ChunkQueued(e, b, deadline)), {}))
  {
    hide PartsOf, Leads, SideQueueParts;
    var a := At(w, who);
    var n := ChunkQueued(a.e, b, deadline);
    assert a.out + {} == a.out;
    if Refused(a.e, b) {
      NoParts(a, PartsOf(a.e, b));
      NoSteps(w);
      return [], w;
    }
    v := With(w, who, SideQueueParts(a, PartsOf(a.e, b), n));
    QueuePartsSide(a, PartsOf(a.e, b), n);
    WriteStepIsLoop(a, PartsOf(a.e, b), n);
    LeadsStep(w, WriteStep(who, b, n));
    steps := [WriteStep(who, b, n)];
  }

  // Every fragment has at least one byte.
  lemma {:induction false} FewParts(e: Endpoint, b: seq<byte>)
    requires b != []
    ensures |PartsOf(e, b)| <= |b|
  {
    hide MaxFragmentSize, SendMode, Fragments;
    if PartsOf(e, b) != [] {
      var size: nat := MaxFragmentSize(e.mtu, PacketTransport, SendMode(e)).value;
      FragmentsOf(b, size);
      if |b| > size {
        DivideLess(|b| - 1, size);
      }
    }
  }

  lemma {:induction false} DivideLess(n: nat, size: nat)
    requires size > 0
    ensures n / size <= n
  {
    var q, r := n / size, n % size;
    assert n == q * size + r;
    MulMonotone(1, size, q);
  }

  lemma {:induction false} QueuePartsLog(a: Side, parts: seq<seq<byte>>, n: nat)
    requires n <= |parts|
    ensures var c := SideQueueParts(a, parts, n); |c.log| == |a.log| + n && c.e == a.e.(snd := c.e.snd)
    decreases n
  {
    hide Enqueue, DataPacket;
    if n > 0 {
      QueuePartsLog(SideEnqueue(a, DataPacket(a.e, parts[0], |parts| - 1)), parts[1..], n - 1);
    }
  }

  // The chunk loop of Write is a run of write steps, one for each chunk.
  lemma {:induction false} WriteRestIsRun(w: World, who: Who, b: seq<byte>) returns (steps: seq<Step>, v: World)
    requires Alive(w, who) && (who.Client? ==> At(w, who).e.openSent) && |At(w, who).log| + |b| < UINT32
    requires NoneRefused(At(w, who).e, b)
    ensures Leads(w, steps, v) && (forall i | 0 <= i < |steps| :: steps[i].WriteStep? && steps[i].who == who)
    ensures Became(w, who, v, WriteChunks(At(w, who).e, b), {})
    ensures Alive(v, who) && At(v, who).e.openSent == At(w, who).e.openSent && |At(v, who).log| <= |At(w, who).log| + |b|
    decreases |b|
  {
    hide PartsOf, Leads, SideQueueParts, QueueParts, Refused;
    var a := At(w, who);
    assert a.out + {} == a.out;
    if b == [] {
      NoSteps(w);
      return [], w;
    }
    var chunk := b[..Min(|b|, MAX_PDU)];
    var parts := PartsOf(a.e, chunk);
    FewParts(a.e, chunk);
    var s1, u := WriteChunkIsRun(w, who, chunk, |parts|);
    QueuePartsLog(a, parts, |parts|);
    var s2, x := WriteRestIsRun(u, who, b[|chunk|..]);
    LeadsOn(w, s1, u, s2, x);
    return s1 + s2, x;
  }

  // A Write that stops inside a chunk is such a run too, up to the fragments that were in time.
  lemma {:induction false} StoppedWriteIsRun(w: World, who: Who, b: seq<byte>, n: nat, d: nat, f: Endpoint) returns (steps: seq<Step>, v: World)
    requires Alive(w, who) && (who.Client? ==> At(w, who).e.openSent) && |At(w, who).log| + |b| < UINT32
    requires StoppedIn(At(w, who).e, b, n, d, f)
    ensures Leads(w, steps, v) && (forall i | 0 <= i < |steps| :: steps[i].WriteStep? && steps[i].who == who)
    ensures Became(w, who, v, f, {})
  {
    hide PartsOf, Leads, QueueParts, Refused, WriteChunks, NoneRefused, ChunkQueued;
    var s1, u := WriteRestIsRun(w, who, b[..n]);
    var chunk := b[n..n + Min(|b| - n, MAX_PDU)];
    FewParts(At(u, who).e, chunk);
    var s2, x := WriteChunkIsRun(u, who, chunk, d);
    LeadsOn(w, s1, u, s2, x);
    return s1 + s2, x;
  }

  // ---------------------------------------------------------------------------
  // Calls of Write
  // ---------------------------------------------------------------------------

  ghost predicate Unfolds(p: Program, evs: seq<Event>, q: Program)
    decreases |evs|
  {
    if evs == [] then q == p
    else CanHappen(p, evs[0]) && Unfolds(Happened(p, evs[0]), evs[1..], q)
  }

  lemma {:induction false} UnfoldsOne(p: Program, ev: Event)
    requires CanHappen(p, ev)
    ensures Unfolds(p, [ev], Happened(p, ev))
  {
    hide CanHappen, Happened;
    assert [ev][1..] == [];
  }

  lemma {:induction false} UnfoldsOn(p: Program, s: seq<Event>, q: Program, t: seq<Event>, r: Program)
    requires Unfolds(p, s, q) && Unfolds(q, t, r)
    ensures Unfolds(p, s + t, r)
    decreases |s|
  {
    hide CanHappen, Happened;
    if s == [] {
      assert s + t == t;
    } else {
      assert (s + t)[0] == s[0] && (s + t)[1..] == s[1..] + t;
      UnfoldsOn(Happened(p, s[0]), s[1..], q, t, r);
    }
  }

  // A side that can go on with the chunks of a Write.
  predicate MayWrite(w: World, who: Who, room: nat) {
    Alive(w, who) && (who.Client? ==> At(w, who).e.openSent) && FragmentsFit(At(w, who).e) && |At(w, who).log| + room < UINT32
  }

  // One chunk, up to the fragments that were in time.
  lemma {:induction false} ChunkUnfolds(p: Program, who: Who, b: seq<byte>, k: nat, stop: nat) returns (q: Program)
    requires k < |b| && WriterAt(p, who).act == Writing(b, k) && MayWrite(p.w, who, |NextChunk(b, k)|)
    requires !Refused(At(p.w, who).e, NextChunk(b, k)) && stop <= |PartsOf(At(p.w, who).e, NextChunk(b, k))|
    ensures Unfolds(p, [Do(WriteStep(who, NextChunk(b, k), stop))], q)
    ensures
      (var e, c := At(p.w, who).e, NextChunk(b, k);
       && At(q.w, who).e == QueueParts(e, PartsOf(e, c), stop)
       && WriterAt(q, who) == WriterAt(p, who).(act := if stop == |PartsOf(e, c)| then Writing(b, k + |c|) else Ending(b, k, false))
       && At(q.w, who).e.openSent == e.openSent && |At(q.w, who).log| <= |At(p.w, who).log| + |c|)
    ensures Peer(q.w, who) == Peer(p.w, who) && WriterAt(q, Other(who)) == WriterAt(p, Other(who)) && q.w.registered == p.w.registered
    ensures FragmentsFit(At(q.w, who).e)
  {
    hide PartsOf, Unfolds, SideQueueParts, QueueParts, MaxFragmentSize;
    var a, c := At(p.w, who), NextChunk(b, k);
    var parts := PartsOf(a.e, c);
    FewParts(a.e, c);
    ChunkParts(a.e, c, |parts|);
    WriteStepIsLoop(a, parts, stop);
    QueuePartsLog(a, parts, stop);
    PartsFitOn(a.e, parts, stop);
    UnfoldsOne(p, Do(WriteStep(who, c, stop)));
    q := Happened(p, Do(WriteStep(who, c, stop)));
  }

  // The chunk loop, from one offset to another.
  lemma {:induction false} ChunksUnfold(p: Program, who: Who, b: seq<byte>, k: nat, m: nat) returns (evs: seq<Event>, q: Program)
    requires k <= m <= |b| && (m == |b| || (m - k) % MAX_PDU == 0)
    requires WriterAt(p, who).act == Writing(b, k) && MayWrite(p.w, who, m - k) && NoneRefused(At(p.w, who).e, b[k..m])
    ensures Unfolds(p, evs, q) && WriterAt(q, who) == WriterAt(p, who).(act := Writing(b, m)) && WriterAt(q, Other(who)) == WriterAt(p, Other(who))
    ensures At(q.w, who).e == WriteChunks(At(p.w, who).e, b[k..m]) && Peer(q.w, who) == Peer(p.w, who) && q.w.registered == p.w.registered
    ensures |At(q.w, who).log| <= |At(p.w, who).log| + (m - k) && At(q.w, who).e.openSent == At(p.w, who).e.openSent && FragmentsFit(At(q.w, who).e)
    decreases m - k
  {
    hide PartsOf, Unfolds, QueueParts, Refused, FragmentsFit;
    var e := At(p.w, who).e;
    if k == m {
      assert b[k..m] == [];
      assert Unfolds(p, [], p) by { UnfoldsNone(p); }
      return [], p;
    }
    var c := NextChunk(b, k);
    ChunkOf(b, k, m);
    var u := ChunkUnfolds(p, who, b, k, |PartsOf(e, c)|);
    assert b[k..m][|c|..] == b[k + |c|..m];
    var more;
    more, q := ChunksUnfold(u, who, b, k + |c|, m);
    evs := [Do(WriteStep(who, c, |PartsOf(e, c)|))] + more;
    UnfoldsOn(p, [Do(WriteStep(who, c, |PartsOf(e, c)|))], u, more, q);
  }

  lemma {:induction false} UnfoldsNone(p: Program)
    ensures Unfolds(p, [], p)
  {}

  // The next chunk does not depend on how much of the data follows.
  lemma {:induction false} ChunkOf(b: seq<byte>, k: nat, m: nat)
    requires k < m <= |b| && (m == |b| || (m - k) % MAX_PDU == 0)
    ensures
      (var c := NextChunk(b, k);
       && 0 < |c| <= m - k && c == b[k..m][..Min(m - k, MAX_PDU)] && |c| == Min(m - k, MAX_PDU)
       && (m == |b| || (m - (k + |c|)) % MAX_PDU == 0))
  {}

  // Whatever Write does to a session, and whatever it returns, is a call of the program: it enters,
  // takes its steps and leaves with the same count and outcome.
  lemma {:induction false} WriteIsProgram(p: Program, who: Who, b: seq<byte>, n: nat, ok: bool, deadline: nat -> nat, f: Endpoint)
    returns (evs: seq<Event>, q: Program)
    requires WriterAt(p, who).act.Idle? && Alive(p.w, who) && At(p.w, who).e.isClient == who.Client?
    requires (who.Client? ==> Opening(At(p.w, who).e) || At(p.w, who).e.openSent) && FragmentsFit(At(p.w, who).e)
    requires |At(p.w, who).log| + |b| + 1 < UINT32 && WriteOutcome(At(p.w, who).e, b, n, ok, deadline, f)
    ensures Unfolds(p, evs, q) && At(q.w, who).e == f && Peer(q.w, who) == Peer(p.w, who)
    ensures WriterAt(q, who) == Writer(WriterAt(p, who).calls + [Call(b, n, ok)], Idle) && WriterAt(q, Other(who)) == WriterAt(p, Other(who))
  {
    hide Unfolds, WriteChunks, NoneRefused, StoppedIn, MaxFragmentSize, OpenPayload, Enqueue;
    var e := At(p.w, who).e;
    UnfoldsOne(p, Enter(who, b));
    var p1 := Happened(p, Enter(who, b));
    if Opening(e) && !e.openSent {
      var p2 := OpenUnfolds(p1, b);
      UnfoldsOn(p, [Enter(who, b)], p1, [Do(OpenStep(b))], p2);
      evs := [Enter(who, b)] + [Do(OpenStep(b))];
      p1 := p2;
      if OpenPayload(e, b) != [] {
        q := Happened(p1, Leave(who));
        UnfoldsOne(p1, Leave(who));
        UnfoldsOn(p, evs, p1, [Leave(who)], q);
        evs := evs + [Leave(who)];
        return;
      }
    } else {
      evs := [Enter(who, b)];
    }
    var more;
    more, q := RestUnfolds(p1, who, b, n, ok, deadline, f);
    UnfoldsOn(p, evs, p1, more, q);
    evs := evs + more;
  }

  lemma {:induction false} OpenUnfolds(p: Program, b: seq<byte>) returns (q: Program)
    requires p.client.act == Begun(b) && p.w.client.e.state == ATTACHED && !p.w.client.e.openSent && |p.w.client.log| + 1 < UINT32
    requires FragmentsFit(p.w.client.e)
    ensures Unfolds(p, [Do(OpenStep(b))], q) && q.w.client.e == WriteOpen(p.w.client.e, b) && q.w.server == p.w.server && q.server == p.server
    ensures q.w.registered == p.w.registered && |q.w.client.log| == |p.w.client.log| + 1 && FragmentsFit(q.w.client.e) && q.w.client.e.openSent
    ensures
      (var x := OpenPayload(p.w.client.e, b);
       q.client == p.client.(act := if x != [] then Ending(b, |x|, true) else Writing(b, 0)))
  {
    hide Unfolds, OpenPayload, Enqueue, MaxFragmentSize;
    UnfoldsOne(p, Do(OpenStep(b)));
    q := Happened(p, Do(OpenStep(b)));
  }

  lemma {:induction false} RestUnfolds(p: Program, who: Who, b: seq<byte>, n: nat, ok: bool, deadline: nat -> nat, f: Endpoint)
    returns (evs: seq<Event>, q: Program)
    requires WriterAt(p, who).act == Writing(b, 0) && MayWrite(p.w, who, |b|)
    requires if ok then n == |b| && NoneRefused(At(p.w, who).e, b) && f == WriteChunks(At(p.w, who).e, b) else StoppedIn(At(p.w, who).e, b, n, deadline(n), f)
    ensures Unfolds(p, evs, q) && At(q.w, who).e == f && Peer(q.w, who) == Peer(p.w, who)
    ensures WriterAt(q, who) == Writer(WriterAt(p, who).calls + [Call(b, n, ok)], Idle) && WriterAt(q, Other(who)) == WriterAt(p, Other(who))
  {
    hide Unfolds, WriteChunks, NoneRefused, PartsOf, QueueParts, FragmentsFit, Refused;
    assert b[0..n] == b[..n] && b[..|b|] == b;
    var u;
    evs, u := ChunksUnfold(p, who, b, 0, n);
    if !ok {
      var g, c := At(u.w, who).e, NextChunk(b, n);
      if Refused(g, c) {
        NoParts(At(u.w, who), PartsOf(g, c));
      } else {
        var v := ChunkUnfolds(u, who, b, n, deadline(n));
        UnfoldsOn(p, evs, u, [Do(WriteStep(who, c, deadline(n)))], v);
        evs := evs + [Do(WriteStep(who, c, deadline(n)))];
        u := v;
      }
    }
    q := Happened(u, Leave(who));
    UnfoldsOne(u, Leave(who));
    UnfoldsOn(p, evs, u, [Leave(who)], q);
    evs := evs + [Leave(who)];
  }

  // ---------------------------------------------------------------------------
  // Reading and input
  // ---------------------------------------------------------------------------

  // A Read that finds something, with room for n > 0 bytes, is one step.
  lemma {:induction false} ReadIsRun(w: World, who: Who, n: nat) returns (v: World)
    requires Alive(w, who)
    ensures Leads(w, [ReadStep(who, n)], v) && At(v, who).e == ReadState(At(w, who).e, n)
    ensures At(v, who).got == At(w, who).got + Taken(At(w, who).e.rcv, n) && Peer(v, who) == Peer(w, who)
  {
    hide ReadState, Taken, Leads;
    v := With(w, who, SideRead(At(w, who), n));
    LeadsStep(w, ReadStep(who, n));
  }

  // Taking in the packet that waits first is one step.
  lemma {:induction false} InputIsRun(w: World, who: Who, now: int) returns (v: World)
    requires Alive(w, who) && now >= At(w, who).clock && At(w, who).chan != [] && |At(w, who).log| + 1 < UINT32
    ensures Leads(w, [InputStep(who, now)], v) && Peer(v, who) == Peer(w, who)
    ensures At(v, who).e == Endpoints.Input(At(w, who).e, At(w, who).chan[0], now) && At(v, who).chan == At(w, who).chan[1..]
  {
    hide Endpoints.Input, Responds, Leads;
    v := With(w, who, SideInput(At(w, who), now));
    LeadsStep(w, InputStep(who, now));
  }
}

/** The session object (pkg/protocol/session.go): its fields and segment trees are updated in
    place by the loops of the source, each proved against the functions of `Endpoints`. Where
    the source waits, the method returns; deadlines and clocks are parameters. */
module Sessions {
  import opened Bytes
  import opened Fragment
  import opened Protocols
  import opened Segments
  import opened Endpoints

  // Sequence numbers are of type uint32.
  ghost predicate Small(t: Tree) {
    forall k | k in t :: k < UINT32
  }

  // The copy built-in: as many bytes of `src` as fit into dst[n..].
  method Copy(dst: array<byte>, n: nat, src: seq<byte>) returns (copied: nat)
    requires n <= dst.Length
    modifies dst
    ensures copied == Min(dst.Length - n, |src|)
    ensures dst[..n + copied] == old(dst[..n]) + src[..copied]
    ensures forall j | n + copied <= j < dst.Length :: dst[j] == old(dst[j])
  {
    copied := Min(dst.Length - n, |src|);
    forall i | 0 <= i < copied {
      dst[n + i] := src[i];
    }
  }

  lemma {:induction false} DropSmall(t: Tree, u: nat)
    requires Small(t)
    ensures Small(DropAcked(t, u)) && Small(CountAck(t, u))
  {}

  // The acknowledgement loop: the least segment is deleted as long as it is below unAckSeq.
  method DeleteAcked(t: SegmentTree, unAckSeq: nat)
    requires t.Valid()
    modifies t
    ensures t.Valid() && t.items == DropAcked(old(t.items), unAckSeq)
  {
    var deleted := true;
    while deleted
      invariant t.Valid()
      invariant DropAcked(t.items, unAckSeq) == DropAcked(old(t.items), unAckSeq)
      invariant !deleted ==> t.items == map[] || MinKey(t.items) >= unAckSeq
      decreases |t.items|, deleted
    {
      ghost var before := t.items;
      var seg := t.DeleteMinIf((s: Segment) => s.pkt.seqNo < unAckSeq);
      deleted := seg.Some?;
      if deleted {
        RemoveSize(before, MinKey(before));
      }
    }
  }

  // The second half of inputAck: the ascent ends at the first number above unAckSeq.
  method CountAcks(t: SegmentTree, unAckSeq: nat)
    requires t.Valid()
    modifies t
    ensures t.Valid() && t.items == CountAck(old(t.items), unAckSeq)
  {
    hide CountAck;
    ghost var before := t.items;
    var ks := t.Ascending();
    var i: nat := 0;
    ghost var seen := false;
    while i < |ks| && ks[i] <= unAckSeq
      invariant i <= |ks| && t.Valid()
      invariant if seen then i > 0 && ks[i - 1] == unAckSeq else forall j | 0 <= j < i :: ks[j] < unAckSeq
      invariant t.items == if seen then CountAck(before, unAckSeq) else before
    {
      if ks[i] == unAckSeq {
        CountOne(t, unAckSeq);
        seen := true;
      }
      i := i + 1;
    }
    if !seen {
      CountNone(before, ks, i, unAckSeq);
    }
  }

  method CountOne(t: SegmentTree, k: nat)
    requires t.Valid() && k in t.items
    modifies t
    ensures t.Valid() && t.items == CountAck(old(t.items), k)
  {
    var iter := t.items[k];
    iter := iter.(ackCount := (iter.ackCount + 1) % 256);
    InsertSize(t.items, k, iter);
    t.items := t.items[k := iter];
  }

  // An ascent that meets only smaller numbers up to the first one above `u` does not miss `u`.
  lemma {:induction false} CountNone(t: Tree, ks: seq<nat>, i: nat, u: nat)
    requires Sorted(ks) && (forall k :: k in ks <==> k in t) && i <= |ks| && (i == |ks| || ks[i] > u)
    requires forall j | 0 <= j < i :: ks[j] < u
    ensures CountAck(t, u) == t
  {
    assert u !in ks;
  }

  // ---------------------------------------------------------------------------
  // Retransmission
  // ---------------------------------------------------------------------------

  // Where the pass stops: at the first segment that was sent 20 times.
  ghost predicate StopsAt(t: Tree, stop: nat) {
    if NoneExhausted(t) then stop == UINT32
    else stop in t && t[stop].txCount >= TX_COUNT_LIMIT && forall k | k in t && k < stop :: t[k].txCount < TX_COUNT_LIMIT
  }

  ghost predicate Bound(ks: seq<nat>, i: nat, stop: nat) {
    i <= |ks| && stop == if i < |ks| then ks[i] else UINT32
  }

  lemma {:induction false} PassNext(t: Tree, now: int, rto: nat, nextRecv: nat, k: nat, next: nat)
    requires k in t && k < next && forall j | j in t :: j <= k || next <= j
    ensures ResendTree(t, now, rto, nextRecv, next) == ResendTree(t, now, rto, nextRecv, k)[k := Resent(t[k], now, rto, nextRecv)]
    ensures ResentPackets(t, now, rto, nextRecv, next) ==
            ResentPackets(t, now, rto, nextRecv, k) + if Due(t[k], now) then {Resent(t[k], now, rto, nextRecv).pkt} else {}
  {
    hide Resent, Due;
  }

  // The earliest deadline seen so far; None when nothing was visited.
  ghost predicate Earliest(t: Tree, stop: nat, d: Option<int>) {
    match d
    case None => forall k | k in t :: k >= stop
    case Some(x) => EarliestDeadline(t, stop, x)
  }

  // The order of an ascent leaves no number between two neighbours.
  lemma {:induction false} AscentNext(ks: seq<nat>, i: nat, j: nat, next: nat)
    requires Sorted(ks) && i < |ks| && Bound(ks, i + 1, next) && j in ks && j < UINT32
    ensures j <= ks[i] || next <= j
  {
    var m :| 0 <= m < |ks| && ks[m] == j;
  }

  lemma {:induction false} PassStart(t: Tree, now: int, rto: nat, nextRecv: nat, stop: nat)
    requires forall k | k in t :: k >= stop
    ensures ResendTree(t, now, rto, nextRecv, stop) == t && ResentPackets(t, now, rto, nextRecv, stop) == {}
  {
    hide Resent, Due;
  }

  lemma {:induction false} EarliestNext(t: Tree, u: Tree, k: nat, next: nat, d: Option<int>)
    requires Earliest(t, k, d) && k in t && k < next && (forall j | j in t :: j <= k || next <= j)
    requires u.Keys == t.Keys && forall j | j in t && j != k :: u[j] == t[j]
    ensures Earliest(u, next, Some(if d.None? then u[k].Deadline() else Min(d.value, u[k].Deadline())))
  {
    if d.Some? {
      var m :| m in t && m < k && t[m].Deadline() == d.value;
      assert u[m].Deadline() == d.value;
    }
  }

  method ResendOne(t: SegmentTree, k: nat, now: int, rto: nat, nextRecv: nat) returns (sent: seq<Packet>, deadline: int)
    requires t.Valid() && k in t.items
    modifies t
    ensures t.Valid() && t.items == old(t.items)[k := Resent(old(t.items)[k], now, rto, nextRecv)]
    ensures sent == if Due(old(t.items)[k], now) then [t.items[k].pkt] else []
    ensures deadline == t.items[k].Deadline()
  {
    var iter := t.items[k];
    sent := [];
    if (iter.ackCount >= EARLY_RETRANSMISSION && iter.txCount <= EARLY_RETRANSMISSION_LIMIT) || now - iter.txTime >= iter.txTimeout {
      iter := iter.(ackCount := 0, txCount := iter.txCount + 1, txTime := now);
      iter := iter.(txTimeout := TxTimeout(rto, iter.txCount));
      if IsDataAckProtocol(iter.pkt.protocol) {
        iter := iter.(pkt := iter.pkt.(unAckSeq := nextRecv));
      }
      sent := [iter.pkt];
    }
    InsertSize(t.items, k, iter);
    t.items := t.items[k := iter];
    deadline := iter.txTime + iter.txTimeout;
  }

  // The packets went out in ascending order, each number once, and none at or above `stop`.
  predicate InTurn(sent: seq<Packet>, stop: nat) {
    && (forall i, j | 0 <= i < j < |sent| :: sent[i].seqNo < sent[j].seqNo)
    && (forall i | 0 <= i < |sent| :: sent[i].seqNo < stop)
  }

  lemma {:induction false} InTurnNext(sent: seq<Packet>, k: nat, more: seq<Packet>, next: nat)
    requires InTurn(sent, k) && k < next && |more| <= 1 && forall p | p in more :: p.seqNo == k
    ensures InTurn(sent + more, next)
  {
    assert |more| == 1 ==> more[0] in more;
  }

  ghost predicate Passed(before: Tree, now: int, rto: nat, nextRecv: nat, stop: nat, after: Tree, sent: seq<Packet>, nextTX: Option<int>) {
    && after == ResendTree(before, now, rto, nextRecv, stop)
    && (set p | p in sent) == ResentPackets(before, now, rto, nextRecv, stop)
    && Earliest(after, stop, nextTX)
    && InTurn(sent, stop)
  }

  lemma {:induction false} PassedNext(before: Tree, now: int, rto: nat, nextRecv: nat, ks: seq<nat>, i: nat, after: Tree, sent: seq<Packet>, nextTX: Option<int>, more: seq<Packet>, u: Tree, next: nat)
    requires Sorted(ks) && (forall k :: k in ks <==> k in before) && (forall k | k in before :: k < UINT32)
    requires i < |ks| && Passed(before, now, rto, nextRecv, ks[i], after, sent, nextTX) && Bound(ks, i + 1, next)
    requires u == after[ks[i] := Resent(before[ks[i]], now, rto, nextRecv)] && before[ks[i]].pkt.seqNo == ks[i]
    requires more == if Due(before[ks[i]], now) then [u[ks[i]].pkt] else []
    ensures Passed(before, now, rto, nextRecv, next, u, sent + more, Some(if nextTX.None? then u[ks[i]].Deadline() else Min(nextTX.value, u[ks[i]].Deadline())))
  {
    hide Resent, Due, Earliest, ResendTree, ResentPackets, InTurn;
    var k := ks[i];
    forall j | j in before
      ensures j <= k || next <= j
    {
      AscentNext(ks, i, j, next);
    }
    PassNext(before, now, rto, nextRecv, k, next);
    PassKeys(before, now, rto, nextRecv, k);
    EarliestNext(after, u, k, next, nextTX);
    ResentSameNumber(before[k], now, rto, nextRecv);
    InTurnNext(sent, k, more, next);
    assert (set p | p in sent + more) == (set p | p in sent) + (set p | p in more);
  }

  lemma {:induction false} ResentSameNumber(s: Segment, now: int, rto: nat, nextRecv: nat)
    ensures Resent(s, now, rto, nextRecv).pkt.seqNo == s.pkt.seqNo
  {
    hide Due, TxTimeout;
  }

  lemma {:induction false} PassKeys(t: Tree, now: int, rto: nat, nextRecv: nat, k: nat)
    ensures ResendTree(t, now, rto, nextRecv, k).Keys == t.Keys
    ensures k in t ==> ResendTree(t, now, rto, nextRecv, k)[k] == t[k]
  {
    hide Resent;
  }

  // The pass over sendBuf in ascending order.
  method ResendPass(t: SegmentTree, now: int, rto: nat, nextRecv: nat) returns (sent: seq<Packet>, nextTX: Option<int>, exhausted: bool)
    requires t.Valid() && Small(t.items)
    modifies t
    ensures t.Valid()
    ensures exhausted <==> !NoneExhausted(old(t.items))
    ensures exists stop :: StopsAt(old(t.items), stop) && Passed(old(t.items), now, rto, nextRecv, stop, t.items, sent, nextTX)
  {
    hide Resent, Due, Passed;
    ghost var before := t.items;
    var ks := t.Ascending();
    sent, nextTX, exhausted := [], None, false;
    var i: nat := 0;
    ghost var stop: nat := if ks == [] then UINT32 else ks[0];
    assert Passed(before, now, rto, nextRecv, stop, t.items, sent, nextTX) by { PassedStart(before, now, rto, nextRecv, stop, ks); }
    while i < |ks| && !exhausted
      invariant t.Valid() && Bound(ks, i, stop)
      invariant Passed(before, now, rto, nextRecv, stop, t.items, sent, nextTX)
      invariant forall j | 0 <= j < i :: before[ks[j]].txCount < TX_COUNT_LIMIT
      invariant exhausted ==> i < |ks| && before[ks[i]].txCount >= TX_COUNT_LIMIT
      decreases |ks| - i, !exhausted
    {
      PassedHere(before, now, rto, nextRecv, ks[i], t.items, sent, nextTX);
      if t.items[ks[i]].txCount >= TX_COUNT_LIMIT {
        exhausted := true;
      } else {
        ghost var after := t.items;
        var more, deadline := ResendOne(t, ks[i], now, rto, nextRecv);
        stop := if i + 1 < |ks| then ks[i + 1] else UINT32;
        PassedNext(before, now, rto, nextRecv, ks, i, after, sent, nextTX, more, t.items, stop);
        nextTX := Some(if nextTX.None? then deadline else Min(nextTX.value, deadline));
        sent := sent + more;
        i := i + 1;
      }
    }
    PassStops(before, ks, i, stop, exhausted);
  }

  lemma {:induction false} PassedHere(before: Tree, now: int, rto: nat, nextRecv: nat, k: nat, after: Tree, sent: seq<Packet>, nextTX: Option<int>)
    requires Passed(before, now, rto, nextRecv, k, after, sent, nextTX) && k in before
    ensures k in after && after[k] == before[k]
  {
    hide Earliest, ResendTree, InTurn;
    PassKeys(before, now, rto, nextRecv, k);
  }

  lemma {:induction false} PassedStart(t: Tree, now: int, rto: nat, nextRecv: nat, stop: nat, ks: seq<nat>)
    requires Sorted(ks) && (forall k :: k in ks <==> k in t) && stop == if ks == [] then UINT32 else ks[0]
    ensures Passed(t, now, rto, nextRecv, stop, t, [], None)
  {
    hide ResendTree, ResentPackets;
    forall k | k in t
      ensures k >= stop
    {
      assert k in ks;
    }
    PassStart(t, now, rto, nextRecv, stop);
  }

  lemma {:induction false} PassStops(t: Tree, ks: seq<nat>, i: nat, stop: nat, exhausted: bool)
    requires Sorted(ks) && (forall k :: k in ks <==> k in t) && (forall k | k in t :: k < UINT32) && Bound(ks, i, stop)
    requires forall j | 0 <= j < i :: t[ks[j]].txCount < TX_COUNT_LIMIT
    requires if exhausted then i < |ks| && t[ks[i]].txCount >= TX_COUNT_LIMIT else i == |ks|
    ensures StopsAt(t, stop) && (exhausted <==> !NoneExhausted(t))
  {
    forall k | k in t && k < stop
      ensures t[k].txCount < TX_COUNT_LIMIT
    {
      var j :| 0 <= j < |ks| && ks[j] == k;
    }
  }

  lemma {:induction false} PassResult(t: Tree, now: int, rto: nat, nextRecv: nat, after: Tree, sent: seq<Packet>, nextTX: Option<int>)
    requires Small(t) && exists stop :: StopsAt(t, stop) && Passed(t, now, rto, nextRecv, stop, after, sent, nextTX)
    ensures Small(after)
    ensures NoneExhausted(t) && t != map[] ==>
      && after == ResendTree(t, now, rto, nextRecv, UINT32)
      && (set p | p in sent) == ResentPackets(t, now, rto, nextRecv, UINT32)
      && InTurn(sent, UINT32)
      && nextTX.Some? && EarliestDeadline(after, UINT32, nextTX.value)
  {
    hide NoneExhausted, ResentPackets, EarliestDeadline, Resent, InTurn;
    var stop :| StopsAt(t, stop) && Passed(t, now, rto, nextRecv, stop, after, sent, nextTX);
    if t != map[] && NoneExhausted(t) {
      var k := MinKey(t);
      assert k in after;
    }
  }

  // A pass moves the next check, and any transmission moves the time of the last one.
  function AfterPass(s: Sender, now: int, after: Tree, sent: seq<Packet>, nextTX: Option<int>): (t: Sender) {
    s.(sendBuf := after,
       nextRetransmission := if nextTX.Some? then nextTX.value else s.nextRetransmission,
       lastTX := if sent == [] then s.lastTX else now)
  }

  // A pass from s to t sent these packets: it went up to the first segment sent 20 times.
  ghost predicate ResentUpTo(s: Sender, now: int, rto: nat, nextRecv: nat, t: Sender, sent: seq<Packet>) {
    exists stop, nextTX ::
      && StopsAt(s.sendBuf, stop) && Passed(s.sendBuf, now, rto, nextRecv, stop, t.sendBuf, sent, nextTX)
      && t == AfterPass(s, now, t.sendBuf, sent, nextTX)
  }

  // The whole pass, when nothing stops it.
  ghost predicate ResentWhole(s: Sender, now: int, rto: nat, nextRecv: nat, t: Sender, sent: seq<Packet>) {
    && EarliestDeadline(ResendTree(s.sendBuf, now, rto, nextRecv, UINT32), UINT32, t.nextRetransmission)
    && t == ResendAll(s, now, rto, nextRecv, t.nextRetransmission)
    && (set p | p in sent) == ResentPackets(s.sendBuf, now, rto, nextRecv, UINT32)
    && InTurn(sent, UINT32)
  }

  // What a pass at `now` means, segment by segment. One numbered below `stop` goes out again,
  // once, if its deadline has come, or if three acknowledgements stopped at it after its first
  // transmission. Every other segment keeps its record and is not sent.
  ghost predicate ResendsExactly(t: Tree, now: int, stop: nat, u: Tree, sent: seq<Packet>) {
    && u.Keys == t.Keys
    && (forall i, j | 0 <= i < j < |sent| :: sent[i].seqNo < sent[j].seqNo)
    && (forall p | p in sent :: p.seqNo in t)
    && forall k | k in t ::
         if k < stop && (t[k].Deadline() <= now || (t[k].ackCount >= 3 && t[k].txCount <= 1)) then
           && u[k].txCount == t[k].txCount + 1 && u[k].ackCount == 0 && u[k].txTime == now
           && u[k].pkt in sent && u[k].pkt.(unAckSeq := t[k].pkt.unAckSeq) == t[k].pkt
         else
           u[k] == t[k] && forall p | p in sent :: p.seqNo != k
  }

  lemma {:induction false} ResentIsExact(x: Segment, now: int, rto: nat, nextRecv: nat)
    ensures
      (var due := x.Deadline() <= now || (x.ackCount >= 3 && x.txCount <= 1);
       var y := Resent(x, now, rto, nextRecv);
       && (Due(x, now) <==> due)
       && (due ==> y.txCount == x.txCount + 1 && y.ackCount == 0 && y.txTime == now && y.pkt.(unAckSeq := x.pkt.unAckSeq) == x.pkt)
       && (!due ==> y == x))
  {
    hide TxTimeout;
  }

  lemma {:induction false} PassIsExact(t: Tree, now: int, rto: nat, nextRecv: nat, stop: nat, sent: seq<Packet>)
    requires Keyed(t) && InTurn(sent, stop) && (set p | p in sent) == ResentPackets(t, now, rto, nextRecv, stop)
    ensures ResendsExactly(t, now, stop, ResendTree(t, now, rto, nextRecv, stop), sent)
  {
    hide Due, Resent, Keyed;
    forall p | p in sent
      ensures exists k :: k in t && k < stop && Due(t[k], now) && p.seqNo == k
    {
      assert p in (set q | q in sent);
      assert p in ResentPackets(t, now, rto, nextRecv, stop);
      var k :| k in t && k < stop && Due(t[k], now) && Resent(t[k], now, rto, nextRecv).pkt == p;
      ResentSameNumber(t[k], now, rto, nextRecv);
      KeyedAt(t, k);
    }
    forall k | k in t
      ensures k < stop && Due(t[k], now) ==> Resent(t[k], now, rto, nextRecv).pkt in sent
    {
      if k < stop && Due(t[k], now) {
        assert Resent(t[k], now, rto, nextRecv).pkt in ResentPackets(t, now, rto, nextRecv, stop);
      }
    }
    forall k | k in t
      ensures
        (var due := t[k].Deadline() <= now || (t[k].ackCount >= 3 && t[k].txCount <= 1);
         var y := Resent(t[k], now, rto, nextRecv);
         && (Due(t[k], now) <==> due)
         && (due ==> y.txCount == t[k].txCount + 1 && y.ackCount == 0 && y.txTime == now && y.pkt.(unAckSeq := t[k].pkt.unAckSeq) == t[k].pkt)
         && (!due ==> y == t[k]))
    {
      ResentIsExact(t[k], now, rto, nextRecv);
    }
  }

  lemma {:induction false} KeyedAt(t: Tree, k: nat)
    requires Keyed(t) && k in t
    ensures t[k].pkt.seqNo == k
  {}

  // The pass of a sender: up to the first segment sent 20 times, and over all when there is none.
  lemma {:induction false} PassResendsExactly(s: Sender, now: int, rto: nat, nextRecv: nat, t: Sender, sent: seq<Packet>)
    requires Keyed(s.sendBuf)
    ensures ResentUpTo(s, now, rto, nextRecv, t, sent) ==>
      exists stop :: StopsAt(s.sendBuf, stop) && ResendsExactly(s.sendBuf, now, stop, t.sendBuf, sent)
    ensures ResentWhole(s, now, rto, nextRecv, t, sent) ==> ResendsExactly(s.sendBuf, now, UINT32, t.sendBuf, sent)
  {
    hide Keyed, InTurn, ResendTree, ResentPackets, EarliestDeadline, Earliest, StopsAt, ResendsExactly;
    if ResentUpTo(s, now, rto, nextRecv, t, sent) {
      var stop, nextTX :| StopsAt(s.sendBuf, stop) && Passed(s.sendBuf, now, rto, nextRecv, stop, t.sendBuf, sent, nextTX);
      PassIsExact(s.sendBuf, now, rto, nextRecv, stop, sent);
    }
    if ResentWhole(s, now, rto, nextRecv, t, sent) {
      PassIsExact(s.sendBuf, now, rto, nextRecv, UINT32, sent);
    }
  }

  lemma {:induction false} PassEnds(s: Sender, now: int, rto: nat, nextRecv: nat, after: Tree, sent: seq<Packet>, nextTX: Option<int>)
    requires Small(s.sendBuf) && s.sendBuf != map[]
    requires exists stop :: StopsAt(s.sendBuf, stop) && Passed(s.sendBuf, now, rto, nextRecv, stop, after, sent, nextTX)
    ensures Small(after) && ResentUpTo(s, now, rto, nextRecv, AfterPass(s, now, after, sent, nextTX), sent)
    ensures NoneExhausted(s.sendBuf) ==> ResentWhole(s, now, rto, nextRecv, AfterPass(s, now, after, sent, nextTX), sent)
  {
    hide Passed, NoneExhausted, NoneDue, Small, EarliestDeadline, ResendTree, ResentPackets, InTurn;
    var stop :| StopsAt(s.sendBuf, stop) && Passed(s.sendBuf, now, rto, nextRecv, stop, after, sent, nextTX);
    PassResult(s.sendBuf, now, rto, nextRecv, after, sent, nextTX);
    if NoneExhausted(s.sendBuf) {
      NothingResent(s.sendBuf, now, rto, nextRecv, after, sent, nextTX);
    }
  }

  // The pass with the times it leaves, for the sender s that owns the tree.
  method ResendDue(buf: SegmentTree, nextRetransmission: int, lastTX: int, now: int, rto: nat, nextRecv: nat, ghost s: Sender)
    returns (sent: seq<Packet>, next: int, last: int, exhausted: bool)
    requires buf.Valid() && Small(buf.items) && buf.items != map[]
    requires s.sendBuf == buf.items && s.nextRetransmission == nextRetransmission && s.lastTX == lastTX
    modifies buf
    ensures buf.Valid() && Small(buf.items) && (exhausted <==> !NoneExhausted(s.sendBuf))
    ensures
      (var t := s.(sendBuf := buf.items, nextRetransmission := next, lastTX := last);
       && ResentUpTo(s, now, rto, nextRecv, t, sent)
       && (NoneExhausted(s.sendBuf) ==> ResentWhole(s, now, rto, nextRecv, t, sent)))
  {
    hide Keyed, Small, StopsAt, Passed, NoneExhausted, ResentUpTo, ResentWhole;
    var nextTX;
    sent, nextTX, exhausted := ResendPass(buf, now, rto, nextRecv);
    PassEnds(s, now, rto, nextRecv, buf.items, sent, nextTX);
    next := if nextTX.Some? then nextTX.value else nextRetransmission;
    last := if |sent| > 0 then now else lastTX;
  }

  lemma {:induction false} NothingResent(t: Tree, now: int, rto: nat, nextRecv: nat, after: Tree, sent: seq<Packet>, nextTX: Option<int>)
    requires Small(t) && Passed(t, now, rto, nextRecv, UINT32, after, sent, nextTX)
    ensures NoneDue(t, now) <==> sent == []
  {
    hide Due, Resent, ResendTree, Earliest, InTurn;
    forall k | k in t
      ensures Due(t[k], now) ==> Resent(t[k], now, rto, nextRecv).pkt in ResentPackets(t, now, rto, nextRecv, UINT32)
    {}
    assert forall p | p in sent :: p in ResentPackets(t, now, rto, nextRecv, UINT32);
    assert sent != [] ==> sent[0] in sent;
  }

  // ---------------------------------------------------------------------------
  // Reading without waiting
  // ---------------------------------------------------------------------------

  // Left-over bytes that fit are copied first; the rest of the Read is the same.
  lemma {:induction false} ConsumeUnread(r: Receiver, n: nat)
    requires |r.unreadBuf| < n || r.unreadBuf == []
    ensures ReadRest(r, n) == ReadRest(r.(unreadBuf := []), n - |r.unreadBuf|)
    ensures ReadsResponse(r, n) == ReadsResponse(r.(unreadBuf := []), n - |r.unreadBuf|)
    ensures Taken(r, n) == r.unreadBuf + Taken(r.(unreadBuf := []), n - |r.unreadBuf|)
  {
    hide MinKey, InOrder;
    if r.recvQueue != map[] {
      assert PopQueue(r) == PopQueue(r.(unreadBuf := []));
    }
  }

  // Left-over bytes that fill the buffer end the Read.
  lemma {:induction false} FillUnread(r: Receiver, n: nat)
    requires n <= |r.unreadBuf| && r.unreadBuf != []
    ensures ReadRest(r, n) == r.(unreadBuf := r.unreadBuf[n..]) && !ReadsResponse(r, n) && Taken(r, n) == r.unreadBuf[..n]
  {
    hide InOrder;
  }

  lemma {:induction false} NothingQueued(r: Receiver, n: nat)
    requires r.unreadBuf == [] && r.recvQueue == map[]
    ensures ReadRest(r, n) == r && !ReadsResponse(r, n) && Taken(r, n) == []
  {}

  // With nothing left over, the Read continues from the first queued segment.
  lemma {:induction false} ReadPops(r: Receiver, n: nat)
    requires r.unreadBuf == [] && r.recvQueue != map[]
    ensures Taken(r, n) == Taken(PopQueue(r), n)
    ensures n > 0 ==> ReadRest(r, n) == ReadRest(PopQueue(r), n)
    ensures n == 0 ==> ReadRest(r, n) == PopQueue(r) && Taken(r, n) == []
    ensures ReadsResponse(r, n) == (r.recvQueue[MinKey(r.recvQueue)].pkt.protocol.OpenSessionResponse? || (n > 0 && ReadsResponse(PopQueue(r), n)))
  {
    hide MinKey;
    assert Pending(r) == Pending(PopQueue(r));
  }

  // A Read of `room` bytes from e0 has copied `got` and is in state e: it goes on, or it is done.
  ghost predicate Reading(e0: Endpoint, room: nat, e: Endpoint, got: seq<byte>) {
    && |got| <= room
    && got + Taken(e.rcv, room - |got|) == Taken(e0.rcv, room)
    && ReadState(e, room - |got|) == ReadState(e0, room)
  }

  ghost predicate ReadDone(e0: Endpoint, room: nat, e: Endpoint, got: seq<byte>) {
    got == Taken(e0.rcv, room) && e == ReadState(e0, room)
  }

  lemma {:induction false} ReadsUnread(e0: Endpoint, room: nat, e: Endpoint, got: seq<byte>)
    requires Reading(e0, room, e, got) && e.rcv.unreadBuf != []
    ensures
      (var m := Min(room - |got|, |e.rcv.unreadBuf|);
       var f := e.(rcv := e.rcv.(unreadBuf := e.rcv.unreadBuf[m..]));
       if |got| + m == room || f.rcv.unreadBuf != [] then ReadDone(e0, room, f, got + e.rcv.unreadBuf[..m])
       else Reading(e0, room, f, got + e.rcv.unreadBuf[..m]))
  {
    hide ReadRest, ReadsResponse, Taken;
    var u, n := e.rcv.unreadBuf, room - |got|;
    if n <= |u| {
      FillUnread(e.rcv, n);
    } else {
      ConsumeUnread(e.rcv, n);
      assert u[..|u|] == u && u[|u|..] == [];
      assert got + u + Taken(e.rcv.(unreadBuf := []), n - |u|) == got + (u + Taken(e.rcv.(unreadBuf := []), n - |u|));
    }
  }

  lemma {:induction false} ReadsNothing(e0: Endpoint, room: nat, e: Endpoint, got: seq<byte>)
    requires Reading(e0, room, e, got) && e.rcv.unreadBuf == [] && e.rcv.recvQueue == map[]
    ensures ReadDone(e0, room, e, got)
  {
    hide ReadRest, ReadsResponse, Taken;
    NothingQueued(e.rcv, room - |got|);
    assert got + [] == got;
  }

  lemma {:induction false} ReadBegins(e: Endpoint, room: nat)
    ensures Reading(e, room, e, [])
  {}

  lemma {:induction false} ReadEnds(e0: Endpoint, room: nat, e: Endpoint, got: seq<byte>)
    requires ReadDone(e0, room, e, got)
    ensures got == Taken(e0.rcv, room) && e == ReadState(e0, room)
  {}

  lemma {:induction false} PopShrinks(r: Receiver)
    requires r.recvQueue != map[]
    ensures |PopQueue(r).recvQueue| < |r.recvQueue|
  {
    RemoveSize(r.recvQueue, MinKey(r.recvQueue));
  }

  // The first queued segment is taken off.
  ghost function Popped(e: Endpoint): (f: Endpoint)
    requires e.rcv.recvQueue != map[]
  {
    var k := MinKey(e.rcv.recvQueue);
    e.(rcv := e.rcv.(recvQueue := e.rcv.recvQueue - {k}),
       state := if Opening(e) && e.rcv.recvQueue[k].pkt.protocol.OpenSessionResponse? then ESTABLISHED else e.state)
  }

  lemma {:induction false} ReadsSegment(e0: Endpoint, room: nat, e: Endpoint, got: seq<byte>)
    requires Reading(e0, room, e, got) && e.rcv.unreadBuf == [] && e.rcv.recvQueue != map[]
    ensures
      (var p := PopQueue(e.rcv).unreadBuf;
       var m := Min(room - |got|, |p|);
       var f := Popped(e).(rcv := Popped(e).rcv.(unreadBuf := p[m..]));
       if |got| + m == room then ReadDone(e0, room, f, got + p[..m])
       else Reading(e0, room, f, got + p[..m]))
  {
    hide ReadRest, ReadsResponse, Taken;
    var r, n := PopQueue(e.rcv), room - |got|;
    var p := r.unreadBuf;
    ReadPops(e.rcv, n);
    if n <= |p| {
      if n > 0 {
        FillUnread(r, n);
      }
    } else {
      ConsumeUnread(r, n);
      assert p[..|p|] == p && p[|p|..] == [];
      assert got + p + Taken(r.(unreadBuf := []), n - |p|) == got + (p + Taken(r.(unreadBuf := []), n - |p|));
    }
  }

  // ---------------------------------------------------------------------------
  // Writing and output as rounds
  // ---------------------------------------------------------------------------

  // The loop that sends new segments: `sent` counts all transmissions of the output round.
  ghost function SendRounds(e: Endpoint, now: int, rto: nat, cwnd: nat, sent: nat): (r: Endpoint)
    decreases |e.snd.sendQueue|
  {
    if !CanSendNew(e, cwnd, sent) then e
    else
      RemoveSize(e.snd.sendQueue, MinKey(e.snd.sendQueue));
      SendRounds(e.(snd := SendNew(e.snd, now, rto, e.rcv.nextRecv)), now, rto, cwnd, sent + 1)
  }

  // The packets that these rounds send.
  ghost function RoundPackets(e: Endpoint, now: int, rto: nat, cwnd: nat, sent: nat): (r: seq<Packet>)
    decreases |e.snd.sendQueue|
  {
    if !CanSendNew(e, cwnd, sent) then []
    else
      RemoveSize(e.snd.sendQueue, MinKey(e.snd.sendQueue));
      [NextToSend(e.snd, now, rto, e.rcv.nextRecv).pkt]
      + RoundPackets(e.(snd := SendNew(e.snd, now, rto, e.rcv.nextRecv)), now, rto, cwnd, sent + 1)
  }

  // An output round sends no more than its windows allow: what it sent before and the new segments
  // together stay within the window of the peer, and within what the congestion window leaves
  // beside the segments in flight.
  lemma {:induction false} RoundWithinWindows(e: Endpoint, now: int, rto: nat, cwnd: nat, sent: nat)
    ensures
      (var n := |RoundPackets(e, now, rto, cwnd, sent)|;
       n > 0 ==> sent + n <= e.remoteWindow && sent + n + |e.snd.sendBuf| <= cwnd)
    decreases |e.snd.sendQueue|
  {
    hide NextToSend, DeferData;
    if CanSendNew(e, cwnd, sent) {
      RemoveSize(e.snd.sendQueue, MinKey(e.snd.sendQueue));
      var f := e.(snd := SendNew(e.snd, now, rto, e.rcv.nextRecv));
      var x := NextToSend(e.snd, now, rto, e.rcv.nextRecv);
      InsertSize(e.snd.sendBuf, x.pkt.seqNo, x);
      RoundWithinWindows(f, now, rto, cwnd, sent + 1);
    }
  }

  // The chunk loop of Write, when every chunk is queued completely.
  function WriteChunks(e: Endpoint, b: seq<byte>): (r: Endpoint)
    decreases |b|
  {
    if b == [] then e
    else
      var size := Min(|b|, MAX_PDU);
      WriteChunks(QueueParts(e, PartsOf(e, b[..size]), |PartsOf(e, b[..size])|), b[size..])
  }

  // The chunk is refused before anything is queued: too long, no room in a datagram, or too
  // little room in sendQueue, which keeps one slot for closing.
  predicate Refused(e: Endpoint, b: seq<byte>) {
    || |b| > MAX_PDU
    || MaxFragmentSize(e.mtu, PacketTransport, SendMode(e)).Err?
    || SEND_QUEUE_CAPACITY - |e.snd.sendQueue| <= |PartsOf(e, b)|
  }

  // How many fragments are queued when the write deadline passes after `deadline` of them.
  function ChunkQueued(e: Endpoint, b: seq<byte>, deadline: nat): (n: nat)
    ensures n <= |PartsOf(e, b)|
  {
    if Refused(e, b) then 0 else Min(deadline, |PartsOf(e, b)|)
  }

  predicate FragmentsFit(e: Endpoint) {
    MaxFragmentSize(e.mtu, PacketTransport, SendMode(e)).Ok? ==> MaxFragmentSize(e.mtu, PacketTransport, SendMode(e)).value > 0
  }

  // The fragment loop goes on: `parts` are left, of which n will be queued, and e is reached.
  ghost predicate Queuing(e0: Endpoint, all: seq<seq<byte>>, q: nat, e: Endpoint, parts: seq<seq<byte>>, n: nat) {
    && q <= |all| && n <= |parts|
    && QueueParts(e, parts, n) == QueueParts(e0, all, q)
    && e == e0.(snd := e.snd)
    && |e.snd.sendQueue| + |parts| < SEND_QUEUE_CAPACITY
  }

  lemma {:induction false} QueuesPart(e0: Endpoint, all: seq<seq<byte>>, q: nat, e: Endpoint, parts: seq<seq<byte>>, n: nat)
    requires Queuing(e0, all, q, e, parts, n) && n > 0
    ensures Queuing(e0, all, q, e.(snd := Enqueue(e.snd, DataPacket(e, parts[0], |parts| - 1))), parts[1..], n - 1)
  {
    hide SendMode, ReceiveWindow, AddOne;
    var p := DataPacket(e, parts[0], |parts| - 1);
    InsertSize(e.snd.sendQueue, p.seqNo, NewSegment(p));
  }

  lemma {:induction false} QueuingBegins(e: Endpoint, all: seq<seq<byte>>, q: nat)
    requires q <= |all| && |e.snd.sendQueue| + |all| < SEND_QUEUE_CAPACITY
    ensures Queuing(e, all, q, e, all, q)
  {}

  lemma {:induction false} QueuingFacts(e0: Endpoint, all: seq<seq<byte>>, q: nat, e: Endpoint, parts: seq<seq<byte>>, n: nat)
    requires Queuing(e0, all, q, e, parts, n)
    ensures SendMode(e) == SendMode(e0) && |e.snd.sendQueue| + |parts| < SEND_QUEUE_CAPACITY
    ensures n == 0 ==> e == QueueParts(e0, all, q)
  {}

  // Complete chunks one after the other.
  lemma {:induction false} WriteChunksNext(e: Endpoint, done: seq<byte>, chunk: seq<byte>)
    requires |done| % MAX_PDU == 0 && 0 < |chunk| <= MAX_PDU
    ensures
      (var f := WriteChunks(e, done);
       WriteChunks(e, done + chunk) == QueueParts(f, PartsOf(f, chunk), |PartsOf(f, chunk)|))
    decreases |done|
  {
    hide PartsOf, QueueParts;
    if done == [] {
      assert done + chunk == chunk && chunk[..|chunk|] == chunk && chunk[|chunk|..] == [];
    } else {
      assert |done| >= MAX_PDU;
      var first := done[..MAX_PDU];
      assert (done + chunk)[..MAX_PDU] == first && (done + chunk)[MAX_PDU..] == done[MAX_PDU..] + chunk;
      WriteChunksNext(QueueParts(e, PartsOf(e, first), |PartsOf(e, first)|), done[MAX_PDU..], chunk);
    }
  }

  lemma {:induction false} WriteNoChunk(e: Endpoint)
    ensures WriteChunks(e, []) == e && NoneRefused(e, [])
  {}

  lemma {:induction false} QueuePartsFrame(e: Endpoint, parts: seq<seq<byte>>, n: nat)
    requires n <= |parts|
    ensures QueueParts(e, parts, n) == e.(snd := QueueParts(e, parts, n).snd)
    decreases n
  {
    hide Enqueue, DataPacket;
    if n > 0 {
      QueuePartsFrame(e.(snd := Enqueue(e.snd, DataPacket(e, parts[0], |parts| - 1))), parts[1..], n - 1);
    }
  }

  lemma {:induction false} ChunkComplete(e: Endpoint, chunk: seq<byte>, deadline: nat)
    requires FragmentsFit(e) && !Refused(e, chunk) && deadline >= |PartsOf(e, chunk)|
    ensures ChunkQueued(e, chunk, deadline) == |PartsOf(e, chunk)|
    ensures FragmentsFit(QueueParts(e, PartsOf(e, chunk), |PartsOf(e, chunk)|))
  {
    hide PartsOf, MaxFragmentSize, QueueParts;
    QueuePartsFrame(e, PartsOf(e, chunk), |PartsOf(e, chunk)|);
  }

  // No chunk of b is refused when it is its turn.
  predicate NoneRefused(e: Endpoint, b: seq<byte>)
    decreases |b|
  {
    b == [] ||
    (var chunk := b[..Min(|b|, MAX_PDU)];
     !Refused(e, chunk) && NoneRefused(QueueParts(e, PartsOf(e, chunk), |PartsOf(e, chunk)|), b[|chunk|..]))
  }

  lemma {:induction false} NoneRefusedNext(e: Endpoint, done: seq<byte>, chunk: seq<byte>)
    requires |done| % MAX_PDU == 0 && 0 < |chunk| <= MAX_PDU
    requires NoneRefused(e, done) && !Refused(WriteChunks(e, done), chunk)
    ensures NoneRefused(e, done + chunk)
    decreases |done|
  {
    hide PartsOf, QueueParts, Refused;
    if done == [] {
      assert done + chunk == chunk && chunk[..|chunk|] == chunk && chunk[|chunk|..] == [];
    } else {
      assert |done| >= MAX_PDU;
      var first := done[..MAX_PDU];
      assert (done + chunk)[..MAX_PDU] == first && (done + chunk)[MAX_PDU..] == done[MAX_PDU..] + chunk;
      NoneRefusedNext(QueueParts(e, PartsOf(e, first), |PartsOf(e, first)|), done[MAX_PDU..], chunk);
    }
  }

  // Write has queued b[..n] completely, and of the next chunk only the fragments that were
  // in time for its deadline d.
  predicate StoppedIn(e: Endpoint, b: seq<byte>, n: nat, d: nat, f: Endpoint) {
    && n < |b| && n % MAX_PDU == 0 && NoneRefused(e, b[..n])
    && var g := WriteChunks(e, b[..n]);
       var chunk := b[n..n + Min(|b| - n, MAX_PDU)];
       && (Refused(g, chunk) || d < |PartsOf(g, chunk)|)
       && f == QueueParts(g, PartsOf(g, chunk), ChunkQueued(g, chunk, d))
  }

  // ---------------------------------------------------------------------------
  // The bytes that a Write hands over
  // ---------------------------------------------------------------------------

  // The packets are queued one after the other.
  function EnqueueAll(s: Sender, ps: seq<Packet>): (r: Sender) {
    if ps == [] then s else Enqueue(EnqueueAll(s, ps[..|ps| - 1]), ps[|ps| - 1])
  }

  // The packets have the next numbers, in order.
  predicate NumberedFrom(n: nat, ps: seq<Packet>) {
    forall i | 0 <= i < |ps| :: ps[i].seqNo == (n + i) % UINT32
  }

  // From e to f nothing but packets with these bytes was queued, under the next numbers.
  ghost predicate HandsOver(e: Endpoint, x: seq<byte>, f: Endpoint) {
    exists ps :: f.snd == EnqueueAll(e.snd, ps) && NumberedFrom(e.snd.nextSend, ps) && Payloads(ps) == x
  }

  // A Write from e to f that returned n and ok.
  ghost predicate HandsOverWritten(e: Endpoint, b: seq<byte>, n: nat, ok: bool, f: Endpoint) {
    exists x :: HandsOver(e, x, f) && Carries(b, n, ok, x)
  }

  lemma {:induction false} EnqueueAllConcat(s: Sender, ps: seq<Packet>, qs: seq<Packet>)
    ensures EnqueueAll(s, ps + qs) == EnqueueAll(EnqueueAll(s, ps), qs) && Payloads(ps + qs) == Payloads(ps) + Payloads(qs)
    decreases |qs|
  {
    hide Enqueue;
    if qs == [] {
      assert ps + qs == ps && Payloads(ps) + [] == Payloads(ps);
    } else {
      EnqueueAllConcat(s, ps, qs[..|qs| - 1]);
      assert (ps + qs)[..|ps + qs| - 1] == ps + qs[..|qs| - 1];
      Associates(Payloads(ps), Payloads(qs[..|qs| - 1]), qs[|qs| - 1].payload);
    }
  }

  lemma {:induction false} EnqueueAllNumber(s: Sender, ps: seq<Packet>)
    requires s.nextSend < UINT32
    ensures EnqueueAll(s, ps).nextSend == (s.nextSend + |ps|) % UINT32
    decreases |ps|
  {
    if ps != [] {
      EnqueueAllNumber(s, ps[..|ps| - 1]);
    }
  }

  lemma {:induction false} HandsOverNothing(e: Endpoint, f: Endpoint)
    requires f.snd == e.snd
    ensures HandsOver(e, [], f)
  {
    var ps: seq<Packet> := [];
    assert EnqueueAll(e.snd, ps) == e.snd && Payloads(ps) == [];
  }

  lemma {:induction false} HandsOverOne(e: Endpoint, p: Packet, f: Endpoint)
    requires e.snd.nextSend < UINT32 && p.seqNo == e.snd.nextSend && f.snd == Enqueue(e.snd, p)
    ensures HandsOver(e, p.payload, f)
  {
    hide Enqueue;
    assert [p][..0] == [];
    assert EnqueueAll(e.snd, [p]) == Enqueue(e.snd, p) && Payloads([p]) == [] + p.payload;
    assert [] + p.payload == p.payload;
  }

  lemma {:induction false} HandsOverBoth(e: Endpoint, x: seq<byte>, f: Endpoint, y: seq<byte>, g: Endpoint)
    requires e.snd.nextSend < UINT32 && HandsOver(e, x, f) && HandsOver(f, y, g)
    ensures HandsOver(e, x + y, g) && f.snd.nextSend < UINT32
  {
    hide EnqueueAll, Payloads;
    var ps :| f.snd == EnqueueAll(e.snd, ps) && NumberedFrom(e.snd.nextSend, ps) && Payloads(ps) == x;
    var qs :| g.snd == EnqueueAll(f.snd, qs) && NumberedFrom(f.snd.nextSend, qs) && Payloads(qs) == y;
    EnqueueAllConcat(e.snd, ps, qs);
    EnqueueAllNumber(e.snd, ps);
    NumberedOn(e.snd.nextSend, ps, qs);
  }

  lemma {:induction false} NumberedOn(n: nat, ps: seq<Packet>, qs: seq<Packet>)
    requires NumberedFrom(n, ps) && NumberedFrom((n + |ps|) % UINT32, qs)
    ensures NumberedFrom(n, ps + qs)
  {
    forall i | 0 <= i < |ps + qs|
      ensures (ps + qs)[i].seqNo == (n + i) % UINT32
    {
      if i >= |ps| {
        WrapAdd(n + |ps|, i - |ps|);
      }
    }
  }

  lemma {:induction false} WrapAdd(n: nat, k: nat)
    ensures (n % UINT32 + k) % UINT32 == (n + k) % UINT32
  {
    var q, r := n / UINT32, n % UINT32;
    assert n == q * UINT32 + r;
    assert n + k == (r + k) + q * UINT32;
  }

  // The fragment loop hands over the fragments that it queues.
  lemma {:induction false} PartsHandOver(e: Endpoint, parts: seq<seq<byte>>, n: nat)
    requires n <= |parts| && e.snd.nextSend < UINT32
    ensures HandsOver(e, Flatten(parts[..n]), QueueParts(e, parts, n)) && QueueParts(e, parts, n).snd.nextSend < UINT32
    decreases n
  {
    hide Flatten, HandsOver, DataProtocol, ReceiveWindow;
    if n == 0 {
      FlattenNone();
      assert parts[..0] == [];
      HandsOverNothing(e, e);
    } else {
      var p := DataPacket(e, parts[0], |parts| - 1);
      var f := e.(snd := Enqueue(e.snd, p));
      HandsOverOne(e, p, f);
      PartsHandOver(f, parts[1..], n - 1);
      assert parts[..n] == [parts[0]] + parts[1..][..n - 1];
      FlattenCons(parts[0], parts[1..][..n - 1]);
      HandsOverBoth(e, parts[0], f, Flatten(parts[1..][..n - 1]), QueueParts(e, parts, n));
    }
  }

  // A chunk that is not refused is cut into fragments that make it up.
  lemma {:induction false} ChunkParts(e: Endpoint, chunk: seq<byte>, n: nat)
    requires FragmentsFit(e) && n <= |PartsOf(e, chunk)|
    ensures Flatten(PartsOf(e, chunk)[..n]) <= chunk
    ensures !Refused(e, chunk) && n == |PartsOf(e, chunk)| ==> n > 0 && Flatten(PartsOf(e, chunk)[..n]) == chunk
  {
    hide Flatten, Fragments, MaxFragmentSize, SendMode;
    var parts := PartsOf(e, chunk);
    if parts == [] {
      FlattenNone();
    } else {
      FragmentsOf(chunk, MaxFragmentSize(e.mtu, PacketTransport, SendMode(e)).value);
      FlattenPrefix(parts, n);
      assert parts[..|parts|] == parts;
    }
  }

  lemma {:induction false} PartsFitOn(e: Endpoint, parts: seq<seq<byte>>, n: nat)
    requires n <= |parts| && FragmentsFit(e)
    ensures FragmentsFit(QueueParts(e, parts, n))
  {
    hide QueueParts, MaxFragmentSize;
    QueuePartsFrame(e, parts, n);
  }

  // The chunk loop hands over exactly what it was given.
  lemma {:induction false} ChunksHandOver(e: Endpoint, b: seq<byte>)
    requires FragmentsFit(e) && NoneRefused(e, b) && e.snd.nextSend < UINT32
    ensures HandsOver(e, b, WriteChunks(e, b)) && FragmentsFit(WriteChunks(e, b)) && WriteChunks(e, b).snd.nextSend < UINT32
    decreases |b|
  {
    hide HandsOver, PartsOf, QueueParts, Refused, FragmentsFit, Flatten;
    if b == [] {
      HandsOverNothing(e, e);
    } else {
      var chunk := b[..Min(|b|, MAX_PDU)];
      var parts := PartsOf(e, chunk);
      var f := QueueParts(e, parts, |parts|);
      ChunkParts(e, chunk, |parts|);
      PartsHandOver(e, parts, |parts|);
      PartsFitOn(e, parts, |parts|);
      ChunksHandOver(f, b[|chunk|..]);
      HandsOverBoth(e, chunk, f, b[|chunk|..], WriteChunks(e, b));
      assert chunk + b[|chunk|..] == b;
    }
  }

  lemma {:induction false} StoppedHandsOver(e: Endpoint, b: seq<byte>, n: nat, d: nat, f: Endpoint)
    requires FragmentsFit(e) && StoppedIn(e, b, n, d, f) && e.snd.nextSend < UINT32
    ensures HandsOverWritten(e, b, n, false, f)
  {
    hide HandsOver, PartsOf, QueueParts, Refused, FragmentsFit, Flatten, WriteChunks, NoneRefused, ChunkQueued;
    var g := WriteChunks(e, b[..n]);
    ChunksHandOver(e, b[..n]);
    var chunk := b[n..n + Min(|b| - n, MAX_PDU)];
    var q := ChunkQueued(g, chunk, d);
    var y := Flatten(PartsOf(g, chunk)[..q]);
    ChunkParts(g, chunk, q);
    PartsHandOver(g, PartsOf(g, chunk), q);
    HandsOverBoth(e, b[..n], g, y, f);
    assert y == chunk[..|y|] && b[..n] + y == b[..n + |y|];
    assert Carries(b, n, false, b[..n] + y);
  }

  // What a Write of b that returned n and ok has done: the open request if it comes first, which
  // ends the Write when it carries something, and then the chunk loop, to its end or to a chunk
  // that was refused or cut short.
  predicate WriteOutcome(e: Endpoint, b: seq<byte>, n: nat, ok: bool, deadline: nat -> nat, f: Endpoint) {
    var opens := Opening(e) && !e.openSent;
    var g := if opens then WriteOpen(e, b) else e;
    if opens && OpenPayload(e, b) != [] then n == |OpenPayload(e, b)| && ok && f == g
    else if ok then n == |b| && NoneRefused(g, b) && f == WriteChunks(g, b)
    else StoppedIn(g, b, n, deadline(n), f)
  }

  lemma {:induction false} OpenHandsOver(e: Endpoint, b: seq<byte>)
    requires e.snd.nextSend < UINT32 && FragmentsFit(e)
    ensures FragmentsFit(WriteOpen(e, b)) && WriteOpen(e, b).snd.nextSend < UINT32
    ensures HandsOver(e, if OpenPayload(e, b) == [] then [] else b, WriteOpen(e, b)) && (OpenPayload(e, b) != [] ==> OpenPayload(e, b) == b)
    ensures |OpenPayload(e, b)| <= MAX_PDU
  {
    hide HandsOver, MaxFragmentSize;
    HandsOverOne(e, OpenRequest(e, b), WriteOpen(e, b));
  }

  // Every Write hands over exactly what it reports: all of b if it succeeds, and else the b[..n]
  // that it reports and a part of the chunk after it.
  lemma {:induction false} OutcomeHandsOver(e: Endpoint, b: seq<byte>, n: nat, ok: bool, deadline: nat -> nat, f: Endpoint)
    requires FragmentsFit(e) && e.snd.nextSend < UINT32 && WriteOutcome(e, b, n, ok, deadline, f)
    ensures HandsOverWritten(e, b, n, ok, f)
  {
    hide HandsOver, FragmentsFit, WriteChunks, NoneRefused, StoppedIn, OpenPayload, WriteOpen;
    var opens := Opening(e) && !e.openSent;
    var g := if opens then WriteOpen(e, b) else e;
    if opens {
      OpenHandsOver(e, b);
      if OpenPayload(e, b) != [] {
        assert b[..|b|] == b;
        assert Carries(b, n, ok, b);
        return;
      }
    } else {
      HandsOverNothing(e, e);
    }
    assert HandsOver(e, [], g);
    if ok {
      ChunksHandOver(g, b);
      HandsOverBoth(e, [], g, b, f);
      assert [] + b == b && b[..|b|] == b;
      assert Carries(b, n, ok, b);
    } else {
      StoppedHandsOver(g, b, n, deadline(n), f);
      var x :| HandsOver(g, x, f) && Carries(b, n, ok, x);
      HandsOverBoth(e, [], g, x, f);
      assert [] + x == x;
    }
  }

  // The bytes of the packets in the queue, in order of their numbers, grow by the bytes handed over.
  lemma {:induction false} QueueGrows(s: Sender, ps: seq<Packet>)
    requires s.nextSend + |ps| < UINT32 && NumberedFrom(s.nextSend, ps) && forall k | k in s.sendQueue :: k < s.nextSend
    ensures
      (var t := EnqueueAll(s, ps);
       && t.nextSend == s.nextSend + |ps| && (forall k | k in t.sendQueue :: k < t.nextSend)
       && InOrder(t.sendQueue) == InOrder(s.sendQueue) + Payloads(ps))
    decreases |ps|
  {
    hide InOrder;
    if ps == [] {
      assert InOrder(s.sendQueue) + [] == InOrder(s.sendQueue);
    } else {
      var front, p := ps[..|ps| - 1], ps[|ps| - 1];
      QueueGrows(s, front);
      LastInOrder(EnqueueAll(s, front).sendQueue, p.seqNo, NewSegment(p));
      Associates(InOrder(s.sendQueue), Payloads(front), p.payload);
    }
  }

  lemma {:induction false} LastInOrder(t: Tree, k: nat, x: Segment)
    requires forall j | j in t :: j < k
    ensures InOrder(t[k := x]) == InOrder(t) + x.pkt.payload
    decreases |t|
  {
    var u := t[k := x];
    if t == map[] {
      assert u.Keys == {k} && MinKey(u) == k;
      assert u - {k} == map[];
      assert x.pkt.payload + [] == [] + x.pkt.payload;
    } else {
      var m, j := MinKey(t), MinKey(u);
      assert m in u && m < k && (j == k || j in t);
      assert j == m;
      assert u - {m} == (t - {m})[k := x];
      RemoveSize(t, m);
      RemoveSize(u, m);
      LastInOrder(t - {m}, k, x);
      Associates(t[m].pkt.payload, InOrder(t - {m}), x.pkt.payload);
    }
  }

  // What writeChunk returns: an error comes with a count of 0.
  function ChunkResult(e: Endpoint, b: seq<byte>, deadline: nat): (r: Result<nat>) {
    if Refused(e, b) || deadline < |PartsOf(e, b)| then Err else Ok(|b|)
  }

  function CountOf(r: Result<nat>): (n: nat) { if r.Ok? then r.value else 0 }

  function QueuedBytes(e: Endpoint, b: seq<byte>, deadline: nat): (n: nat) {
    |Flatten(PartsOf(e, b)[..ChunkQueued(e, b, deadline)])|
  }

  // The count that writeChunk reports for a chunk is the number of bytes it queued if and
  // only if the deadline does not pass between two fragments.
  lemma {:induction false} ReportedBytes(e: Endpoint, b: seq<byte>, deadline: nat)
    requires b != [] && FragmentsFit(e)
    ensures CountOf(ChunkResult(e, b, deadline)) == QueuedBytes(e, b, deadline)
            <==> Refused(e, b) || deadline == 0 || deadline >= |PartsOf(e, b)|
  {
    hide Fragments, MaxFragmentSize, SendMode;
    var parts := PartsOf(e, b);
    FlattenNone();
    assert parts[..0] == [] && parts[..|parts|] == parts;
    if !Refused(e, b) {
      FragmentsOf(b, MaxFragmentSize(e.mtu, PacketTransport, SendMode(e)).value);
      if 0 < deadline < |parts| {
        assert parts[..deadline] == [parts[0]] + parts[1..deadline];
        FlattenCons(parts[0], parts[1..deadline]);
      }
    }
  }

  // So the count can be trusted at every deadline exactly when there is only one fragment.
  lemma {:induction false} ReportsExactly(e: Endpoint, b: seq<byte>)
    requires b != [] && FragmentsFit(e)
    ensures (forall deadline: nat :: CountOf(ChunkResult(e, b, deadline)) == QueuedBytes(e, b, deadline))
            <==> Refused(e, b) || |b| <= MaxFragmentSize(e.mtu, PacketTransport, SendMode(e)).value
  {
    hide MaxFragmentSize, SendMode, QueuedBytes, ChunkResult, CountOf, FragmentCount;
    forall deadline: nat
      ensures CountOf(ChunkResult(e, b, deadline)) == QueuedBytes(e, b, deadline)
              <==> Refused(e, b) || deadline == 0 || deadline >= |PartsOf(e, b)|
    {
      ReportedBytes(e, b, deadline);
    }
    ReportedBytes(e, b, 1);
  }

  // A deadline that passes after the first of three fragments: 1312 bytes are queued, 0 reported.
  lemma {:induction false} ReportsTooFew(b: seq<byte>)
    requires |b| == 3000
    ensures
      (var e := NewEndpoint(false, 1400, MODE_OFF, 0);
       CountOf(ChunkResult(e, b, 1)) == 0 && QueuedBytes(e, b, 1) == 1312)
  {
    FragmentsOf(b, 1312);
    var parts := Fragments(b, 1312);
    assert parts[..1] == [b[..1312]];
    FlattenNone();
    FlattenCons(b[..1312], []);
    assert [b[..1312]] + [] == [b[..1312]];
  }

  // The rounds from e0 have reached e and sent `sent`.
  ghost predicate InRounds(e0: Endpoint, now: int, rto: nat, cwnd: nat, total: nat, e: Endpoint, sent: seq<Packet>) {
    && SendRounds(e, now, rto, cwnd, total + |sent|) == SendRounds(e0, now, rto, cwnd, total)
    && sent + RoundPackets(e, now, rto, cwnd, total + |sent|) == RoundPackets(e0, now, rto, cwnd, total)
  }

  // The round cannot go on: its retransmission pass meets a segment sent 20 times.
  predicate EndsSession(s: Sender, now: int) {
    !NoPassDue(s, now) && !NoneExhausted(s.sendBuf)
  }

  // The first part of a round: the retransmission pass, if it is due.
  ghost predicate PassOf(s: Sender, now: int, rto: nat, nextRecv: nat, t: Sender, resent: seq<Packet>) {
    if NoPassDue(s, now) then t == s && resent == [] else ResentWhole(s, now, rto, nextRecv, t, resent)
  }

  // The rest of a round: new segments, as far as the windows allow, and then an acknowledgement
  // if it is due.
  ghost predicate RestOf(e: Endpoint, now: int, rto: nat, cwnd: nat, jitter: int, total: nat, f: Endpoint, sent: seq<Packet>) {
    var g, more := SendRounds(e, now, rto, cwnd, total), RoundPackets(e, now, rto, cwnd, total);
    if !Opening(g) && AckDue(g, now, jitter) then f == SendAck(g, now) && sent == more + [AckPacket(g)]
    else f == g && sent == more
  }

  // A whole round of the output loop that does not end the session.
  ghost predicate RoundOf(e: Endpoint, now: int, rto: nat, cwnd: nat, jitter: int, f: Endpoint, sent: seq<Packet>) {
    exists t, resent, rest ::
      && PassOf(e.snd, now, rto, e.rcv.nextRecv, t, resent)
      && RestOf(e.(snd := t), now, rto, cwnd, jitter, |resent|, f, rest)
      && sent == resent + rest
  }

  lemma {:induction false} RoundParts(e: Endpoint, now: int, rto: nat, cwnd: nat, jitter: int, t: Sender, resent: seq<Packet>, f: Endpoint, rest: seq<Packet>)
    requires PassOf(e.snd, now, rto, e.rcv.nextRecv, t, resent) && RestOf(e.(snd := t), now, rto, cwnd, jitter, |resent|, f, rest)
    ensures RoundOf(e, now, rto, cwnd, jitter, f, resent + rest)
  {
    hide PassOf, RestOf;
  }

  lemma {:induction false} RoundsBegin(e: Endpoint, now: int, rto: nat, cwnd: nat, total: nat)
    ensures InRounds(e, now, rto, cwnd, total, e, [])
  {
    hide SendRounds, RoundPackets;
  }

  lemma {:induction false} RoundsNext(e0: Endpoint, now: int, rto: nat, cwnd: nat, total: nat, e: Endpoint, sent: seq<Packet>)
    requires InRounds(e0, now, rto, cwnd, total, e, sent) && CanSendNew(e, cwnd, total + |sent|)
    ensures InRounds(e0, now, rto, cwnd, total, e.(snd := SendNew(e.snd, now, rto, e.rcv.nextRecv)), sent + [NextToSend(e.snd, now, rto, e.rcv.nextRecv).pkt])
  {
    hide SendNew, NextToSend, DeferData, SendWindow;
    var p := NextToSend(e.snd, now, rto, e.rcv.nextRecv).pkt;
    var rest := RoundPackets(e.(snd := SendNew(e.snd, now, rto, e.rcv.nextRecv)), now, rto, cwnd, total + |sent| + 1);
    assert sent + ([p] + rest) == sent + [p] + rest;
  }

  lemma {:induction false} RoundsEnd(e0: Endpoint, now: int, rto: nat, cwnd: nat, total: nat, e: Endpoint, sent: seq<Packet>)
    requires InRounds(e0, now, rto, cwnd, total, e, sent) && !CanSendNew(e, cwnd, total + |sent|)
    ensures e == SendRounds(e0, now, rto, cwnd, total) && sent == RoundPackets(e0, now, rto, cwnd, total)
  {
    hide CanSendNew, SendNew, NextToSend;
    assert sent + [] == sent;
  }

  // The first transmission of a segment, on the two trees of the sender.
  method TransmitNext(queue: SegmentTree, buf: SegmentTree, nextRetransmission: int, now: int, rto: nat, nextRecv: nat, ghost nextSend: nat, ghost lastTX: int) returns (p: Packet, next: int)
    requires queue != buf && queue.Valid() && buf.Valid() && queue.items != map[] && |buf.items| < buf.cap && Small(queue.items) && Small(buf.items)
    modifies queue, buf
    ensures queue.Valid() && buf.Valid() && |queue.items| < |old(queue.items)| && Small(queue.items) && Small(buf.items)
    ensures
      (var s := Sender(nextSend, old(queue.items), old(buf.items), nextRetransmission, lastTX);
       && p == NextToSend(s, now, rto, nextRecv).pkt
       && Sender(nextSend, queue.items, buf.items, next, now) == SendNew(s, now, rto, nextRecv))
  {
    hide Keyed, Transmit, MinKey, Small;
    ghost var k := MinKey(queue.items);
    RemoveSize(queue.items, k);
    SmallMoves(queue.items, buf.items, k, nextRecv, rto, now);
    var first := queue.DeleteMin();
    var seg := FirstTransmission(first.value, now, rto, nextRecv);
    next := nextRetransmission;
    if |buf.items| == 0 {
      next := Min(seg.Deadline(), now + RETRANSMISSION_CHECK_DELAY);
    } else if next > seg.Deadline() {
      next := seg.Deadline();
    }
    var inserted := buf.Insert(seg);
    p := seg.pkt;
  }

  lemma {:induction false} SmallMoves(q: Tree, t: Tree, k: nat, nextRecv: nat, rto: nat, now: int)
    requires Small(q) && Small(t) && k in q
    ensures Small(q - {k}) && Small(t[k := Transmit(q[k], now, rto, nextRecv)])
  {
    hide Transmit;
  }

  method FirstTransmission(s: Segment, now: int, rto: nat, nextRecv: nat) returns (r: Segment)
    ensures r == Transmit(s, now, rto, nextRecv) && r.pkt.seqNo == s.pkt.seqNo && r.txTime == now
  {
    hide TxTimeout;
    r := s.(txCount := s.txCount + 1, txTime := now);
    r := r.(txTimeout := TxTimeout(rto, r.txCount));
    if IsDataAckProtocol(r.pkt.protocol) {
      r := r.(pkt := r.pkt.(unAckSeq := nextRecv));
    }
  }

  // One round of moveRecvBufToRecvQueue on the two trees.
  method MoveNext(buf: SegmentTree, queue: SegmentTree, nextRecv: nat, window: nat, ghost unread: seq<byte>) returns (moved: bool, next: nat, w: nat)
    requires buf != queue && buf.Valid() && queue.Valid() && queue.cap == SEGMENT_TREE_CAPACITY
    modifies buf, queue
    ensures buf.Valid() && queue.Valid()
    ensures
      (var r := Receiver(nextRecv, old(buf.items), old(queue.items), unread);
       && moved == CanMove(r)
       && Receiver(next, buf.items, queue.items, unread) == (if moved then MoveOne(r) else r)
       && w == if moved then MovedWindow(r, window) else window)
  {
    hide AddOne, IsDataAckProtocol, Keyed, MinKey;
    next, w := nextRecv, window;
    if |queue.items| >= queue.cap {
      return false, next, w;
    }
    var seg := buf.DeleteMinIf((s: Segment) => s.pkt.seqNo <= nextRecv);
    if seg.None? {
      return false, next, w;
    }
    moved := true;
    if seg.value.pkt.seqNo >= nextRecv {
      var inserted := queue.Insert(seg.value);
      next := AddOne(nextRecv);
      if IsDataAckProtocol(seg.value.pkt.protocol) {
        w := seg.value.pkt.windowSize;
      }
    }
  }

  // What is left for Receive to do once the acknowledgement of a packet is taken.
  lemma {:induction false} ReceiveSteps(e: Endpoint, p: Packet, now: int)
    ensures
      (var f := RequestAck(TakeAck(e, p), now);
       && f.rcv == e.rcv && f.isClient == e.isClient && f.state == e.state && f.snd.nextSend == e.snd.nextSend && f.snd.sendQueue == e.snd.sendQueue
       && RequestAck(Accept(f, p), now) == Receive(e, p, now)
       && Accept(f, p).snd == f.snd && Accept(f, p).isClient == e.isClient && Accept(f, p).state == e.state
       && (Dropped(e.rcv) ==> Receive(e, p, now) == Accept(f, p)))
  {
    hide DropAcked, MoveAll, WindowAfter, Dropped;
  }

  class Session {
    const isClient: bool
    const mtu: int
    const mode: int
    var state: nat
    var openSent: bool
    var peerLowEntropy: bool
    var remoteWindow: nat
    var ackPending: bool
    var ackDeadline: int
    var nextSend: nat
    var nextRecv: nat
    var unreadBuf: seq<byte>
    var nextRetransmission: int
    var lastTX: int
    var outputHasErr: bool
    const sendQueue: SegmentTree
    const sendBuf: SegmentTree
    const recvBuf: SegmentTree
    const recvQueue: SegmentTree

    ghost predicate Valid()
      reads this, sendQueue, sendBuf, recvBuf, recvQueue
    {
      && sendQueue != sendBuf && sendQueue != recvBuf && sendQueue != recvQueue
      && sendBuf != recvBuf && sendBuf != recvQueue && recvBuf != recvQueue
      && sendQueue.Valid() && sendBuf.Valid() && recvBuf.Valid() && recvQueue.Valid()
      && sendQueue.cap == SEND_QUEUE_CAPACITY && sendBuf.cap == SEGMENT_TREE_CAPACITY
      && recvBuf.cap == SEGMENT_TREE_CAPACITY && recvQueue.cap == SEGMENT_TREE_CAPACITY
      && nextSend < UINT32
      && Small(sendQueue.items) && Small(sendBuf.items)
    }

    ghost function Snd(): Sender
      reads this, sendQueue, sendBuf
    {
      Sender(nextSend, sendQueue.items, sendBuf.items, nextRetransmission, lastTX)
    }

    ghost function Rcv(): Receiver
      reads this, recvBuf, recvQueue
    {
      Receiver(nextRecv, recvBuf.items, recvQueue.items, unreadBuf)
    }

    // The state as a value.
    ghost function Abs(): Endpoint
      reads this, sendQueue, sendBuf, recvBuf, recvQueue
    {
      Endpoint(isClient, mtu, mode, state, openSent, peerLowEntropy, remoteWindow, ackPending, ackDeadline, Snd(), Rcv())
    }

    constructor (client: bool, m: int, lowEntropy: int, now: int)
      ensures Valid() && Abs() == NewEndpoint(client, m, lowEntropy, now) && !outputHasErr
      ensures fresh(sendQueue) && fresh(sendBuf) && fresh(recvBuf) && fresh(recvQueue)
    {
      isClient, mtu, mode := client, m, lowEntropy;
      state, openSent, peerLowEntropy, remoteWindow := ATTACHED, false, false, MIN_WINDOW_SIZE;
      ackPending, ackDeadline, lastTX := false, 0, now;
      nextSend, nextRecv, unreadBuf, nextRetransmission, outputHasErr := 0, 0, [], 0, false;
      sendQueue := new SegmentTree(SEND_QUEUE_CAPACITY);
      sendBuf := new SegmentTree(SEGMENT_TREE_CAPACITY);
      recvBuf := new SegmentTree(SEGMENT_TREE_CAPACITY);
      recvQueue := new SegmentTree(SEGMENT_TREE_CAPACITY);
    }

    // -------------------------------------------------------------------------
    // Input
    // -------------------------------------------------------------------------

    method MoveRecvBufToRecvQueue()
      requires Valid()
      modifies this`nextRecv, this`remoteWindow, recvBuf, recvQueue
      ensures Valid()
      ensures Rcv() == MoveAll(old(Rcv())) && remoteWindow == WindowAfter(old(Rcv()), old(remoteWindow))
    {
      hide MoveOne, CanMove, MovedWindow, Keyed, Small;
      var moving := true;
      while moving
        invariant Valid()
        invariant MoveAll(Rcv()) == MoveAll(old(Rcv())) && WindowAfter(Rcv(), remoteWindow) == WindowAfter(old(Rcv()), old(remoteWindow))
        invariant !moving ==> !CanMove(Rcv())
        decreases |recvBuf.items|, moving
      {
        MoveOneShrinks(Rcv());
        moving, nextRecv, remoteWindow := MoveNext(recvBuf, recvQueue, nextRecv, remoteWindow, unreadBuf);
      }
    }

    method RequestPacketAck(now: int)
      requires Valid()
      modifies this`ackPending, this`ackDeadline
      ensures Valid() && Abs() == RequestAck(old(Abs()), now)
    {
      hide Keyed, Small;
      if !ackPending {
        ackDeadline := now + PACKET_ACK_DELAY;
        ackPending := true;
      }
    }

    // The acknowledgement that a data packet carries.
    method TakeDataAck(p: Packet)
      requires Valid()
      modifies this`remoteWindow, sendBuf
      ensures Valid() && Abs() == TakeAck(old(Abs()), p)
    {
      hide Keyed, DropAcked;
      if IsDataAckProtocol(p.protocol) {
        DeleteAcked(sendBuf, p.unAckSeq);
        assert Small(sendBuf.items) by { DropSmall(old(sendBuf.items), p.unAckSeq); }
        remoteWindow := p.windowSize;
      }
    }

    // The delivery to recvBuf and on to recvQueue; `kept` is false when the segment is dropped.
    method AcceptSegment(p: Packet) returns (kept: bool)
      requires Valid()
      modifies this`nextRecv, this`remoteWindow, recvBuf, recvQueue
      ensures Valid() && kept == !Dropped(old(Rcv())) && Abs() == Accept(old(Abs()), p)
    {
      hide Keyed, MoveAll, WindowAfter, Small;
      if Max(0, SEGMENT_TREE_CAPACITY - |recvBuf.items| - |recvQueue.items|) <= 0 {
        return false;
      }
      kept := recvBuf.Insert(NewSegment(p));
      if kept {
        // waitForRecvQueueSpace returns at once.
        assert |recvQueue.items| < recvQueue.cap;
        MoveRecvBufToRecvQueue();
      }
    }

    // A segment takes the next number and goes to sendQueue, which may refuse it.
    method QueueSegment(p: Packet) returns (ok: bool)
      requires Valid() && p.seqNo == nextSend
      modifies this`nextSend, sendQueue
      ensures Valid() && ok == (|old(sendQueue.items)| < SEND_QUEUE_CAPACITY)
      ensures ok ==> Abs() == old(Abs()).(snd := Enqueue(old(Snd()), p))
      ensures !ok ==> Abs() == old(Abs()).(snd := old(Snd()).(nextSend := AddOne(old(nextSend))))
    {
      hide Keyed;
      nextSend := AddOne(nextSend);
      ok := sendQueue.Insert(NewSegment(p));
    }

    // inputData. It fails only when the answer to an open request meets a full sendQueue.
    method InputData(p: Packet, now: int) returns (ok: bool)
      requires Valid()
      modifies this, sendQueue, sendBuf, recvBuf, recvQueue
      ensures Valid() && outputHasErr == old(outputHasErr)
      ensures ok == !(Responds(old(Abs()), p) && |old(sendQueue.items)| >= SEND_QUEUE_CAPACITY)
      ensures ok ==> Abs() == Endpoints.InputData(old(Abs()), p, now)
    {
      hide Valid, Enqueue, TakeAck, Accept, Dropped;
      ghost var e := Abs();
      TakeDataAck(p);
      RequestPacketAck(now);
      assert Abs() == RequestAck(TakeAck(e, p), now);
      ReceiveSteps(e, p, now);
      var kept := AcceptSegment(p);
      if !kept {
        return true;
      }
      RequestPacketAck(now);
      assert Abs() == Receive(e, p, now);
      ok := true;
      if !isClient && p.protocol.OpenSessionRequest? && state == ATTACHED {
        ok := QueueSegment(Packet(OpenSessionResponse, nextSend, 0, 0, 0, []));
        if ok {
          Establish();
        }
      }
    }

    method InputAck(p: Packet)
      requires Valid() && IsAckProtocol(p.protocol)
      modifies this`remoteWindow, sendBuf
      ensures Valid() && Abs() == Endpoints.InputAck(old(Abs()), p)
    {
      hide Keyed, DropAcked, CountAck;
      TakeDataAck(p);
      ghost var t := sendBuf.items;
      CountAcks(sendBuf, p.unAckSeq);
      assert Small(sendBuf.items) by { DropSmall(t, p.unAckSeq); }
    }

    // input, for the protocols before a session closes.
    method Input(p: Packet, now: int) returns (ok: bool)
      requires Valid()
      modifies this, sendQueue, sendBuf, recvBuf, recvQueue
      ensures Valid() && outputHasErr == old(outputHasErr)
      ensures ok == (Accepts(isClient, p.protocol) && !(Responds(old(Abs()), p) && |old(sendQueue.items)| >= SEND_QUEUE_CAPACITY))
      ensures ok ==> Abs() == Endpoints.Input(old(Abs()), p, now)
      ensures !Accepts(isClient, p.protocol) ==> Abs() == old(Abs())
    {
      hide Valid, Endpoints.InputData, Endpoints.InputAck, Dropped;
      if isClient {
        if !p.protocol.OpenSessionResponse? && !p.protocol.DataServerToClient? && !p.protocol.DataServerToClientLowEntropy? && !p.protocol.AckServerToClient? {
          return false;
        }
      } else {
        if !p.protocol.OpenSessionRequest? && !p.protocol.DataClientToServer? && !p.protocol.DataClientToServerLowEntropy? && !p.protocol.AckClientToServer? {
          return false;
        }
      }
      if !isClient && p.protocol.DataClientToServerLowEntropy? {
        NoteLowEntropyData();
      }
      if IsAckProtocol(p.protocol) {
        InputAck(p);
        return true;
      }
      ok := InputData(p, now);
      if ok && isClient && state == ATTACHED && p.protocol.OpenSessionResponse? {
        Establish();
      }
    }

    method NoteLowEntropyData()
      requires Valid()
      modifies this`peerLowEntropy
      ensures Valid() && Abs() == old(Abs()).(peerLowEntropy := true)
    {
      hide Keyed, Small;
      peerLowEntropy := true;
    }

    method Establish()
      requires Valid()
      modifies this`state
      ensures Valid() && Abs() == old(Abs()).(state := ESTABLISHED)
    {
      hide Keyed, Small;
      state := ESTABLISHED;
    }

    // -------------------------------------------------------------------------
    // Reading
    // -------------------------------------------------------------------------

    // Takes a segment off recvQueue.
    method PopSegment() returns (payload: seq<byte>)
      requires Valid() && recvQueue.items != map[]
      modifies this`state, recvQueue
      ensures Valid() && |recvQueue.items| < |old(recvQueue.items)|
      ensures payload == PopQueue(old(Rcv())).unreadBuf && Abs() == Popped(old(Abs()))
    {
      hide Keyed, Small, MinKey;
      PopShrinks(Rcv());
      var seg := recvQueue.DeleteMin();
      payload := seg.value.pkt.payload;
      if isClient && seg.value.pkt.protocol.OpenSessionResponse? && state == ATTACHED {
        state := ESTABLISHED;
      }
    }

    // Copies as much as fits and leaves the rest for the next Read.
    method ReadBytes(b: array<byte>, n: nat, bytes: seq<byte>) returns (m: nat)
      requires Valid() && n <= b.Length
      modifies this`unreadBuf, b
      ensures Valid() && n <= m == n + Min(b.Length - n, |bytes|)
      ensures b[..m] == old(b[..n]) + bytes[..m - n] && forall j | m <= j < b.Length :: b[j] == old(b[j])
      ensures Abs() == old(Abs()).(rcv := old(Rcv()).(unreadBuf := bytes[m - n..]))
    {
      hide Keyed, Small;
      var copied := Copy(b, n, bytes);
      unreadBuf := bytes[copied..];
      m := n + copied;
    }

    method ReadUnread(b: array<byte>, n: nat, ghost e0: Endpoint) returns (m: nat, reading: bool)
      requires Valid() && n <= b.Length && unreadBuf != [] && Reading(e0, b.Length, Abs(), b[..n])
      modifies this`unreadBuf, b
      ensures Valid() && n <= m <= b.Length && (forall j | m <= j < b.Length :: b[j] == old(b[j])) && (reading ==> unreadBuf == [])
      ensures if reading then Reading(e0, b.Length, Abs(), b[..m]) else ReadDone(e0, b.Length, Abs(), b[..m])
    {
      hide Valid, Reading, ReadDone;
      ReadsUnread(e0, b.Length, Abs(), b[..n]);
      m := ReadBytes(b, n, unreadBuf);
      reading := m < b.Length && |unreadBuf| == 0;
    }

    method ReadSegment(b: array<byte>, n: nat, ghost e0: Endpoint) returns (m: nat, reading: bool)
      requires Valid() && n <= b.Length && unreadBuf == [] && recvQueue.items != map[] && Reading(e0, b.Length, Abs(), b[..n])
      modifies this`state, this`unreadBuf, recvQueue, b
      ensures Valid() && n <= m <= b.Length && (forall j | m <= j < b.Length :: b[j] == old(b[j])) && |recvQueue.items| < |old(recvQueue.items)|
      ensures if reading then Reading(e0, b.Length, Abs(), b[..m]) else ReadDone(e0, b.Length, Abs(), b[..m])
    {
      hide Valid, Reading, ReadDone, MinKey;
      ReadsSegment(e0, b.Length, Abs(), b[..n]);
      var payload := PopSegment();
      m := ReadBytes(b, n, payload);
      reading := m < b.Length;
    }

    // Read, up to the point where it would wait: it returns 0 bytes there.
    method Read(b: array<byte>) returns (n: nat)
      requires Valid()
      modifies this`state, this`unreadBuf, recvQueue, b
      ensures Valid() && Abs() == if b.Length == 0 then old(Abs()) else ReadState(old(Abs()), b.Length)
      ensures n <= b.Length && b[..n] == Taken(old(Rcv()), b.Length) && forall j | n <= j < b.Length :: b[j] == old(b[j])
    {
      hide Valid, Reading, ReadDone, Taken, ReadState;
      ghost var e0 := Abs();
      n := 0;
      if b.Length == 0 {
        TakenNone(Rcv());
        return;
      }
      ReadBegins(e0, b.Length);
      var reading := true;
      while reading
        invariant Valid() && n <= b.Length && forall j | n <= j < b.Length :: b[j] == old(b[j])
        invariant if reading then Reading(e0, b.Length, Abs(), b[..n]) else ReadDone(e0, b.Length, Abs(), b[..n])
        decreases |recvQueue.items|, reading
      {
        if |unreadBuf| > 0 {
          n, reading := ReadUnread(b, n, e0);
        }
        if reading {
          if |recvQueue.items| > 0 {
            n, reading := ReadSegment(b, n, e0);
          } else {
            ReadsNothing(e0, b.Length, Abs(), b[..n]);
            reading := false;
          }
        }
      }
      ReadEnds(e0, b.Length, Abs(), b[..n]);
    }

    // -------------------------------------------------------------------------
    // Writing
    // -------------------------------------------------------------------------

    method LowEntropySendMode() returns (m: int)
      ensures m == SendMode(Abs())
    {
      if mode == MODE_OFF {
        return MODE_OFF;
      }
      if !isClient && !peerLowEntropy {
        return MODE_OFF;
      }
      return mode;
    }

    method QueuePart(part: seq<byte>, fragment: nat, sendMode: int)
      requires Valid() && sendMode == SendMode(Abs()) && |sendQueue.items| < SEND_QUEUE_CAPACITY
      modifies this`nextSend, sendQueue
      ensures Valid() && Abs() == old(Abs()).(snd := Enqueue(old(Snd()), DataPacket(old(Abs()), part, fragment)))
    {
      hide Valid, Enqueue;
      var protocol;
      if isClient {
        protocol := if sendMode != MODE_OFF then DataClientToServerLowEntropy else DataClientToServer;
      } else {
        protocol := if sendMode != MODE_OFF then DataServerToClientLowEntropy else DataServerToClient;
      }
      var window := Max(0, SEGMENT_TREE_CAPACITY - |recvBuf.items| - |recvQueue.items|);
      var ok := QueueSegment(Packet(protocol, nextSend, nextRecv, window, fragment, part));
    }

    method WriteChunk(b: seq<byte>, deadline: nat) returns (r: Result<nat>)
      requires Valid() && FragmentsFit(Abs())
      modifies this`nextSend, sendQueue
      ensures Valid() && Abs() == QueueParts(old(Abs()), PartsOf(old(Abs()), b), ChunkQueued(old(Abs()), b, deadline))
      ensures r == ChunkResult(old(Abs()), b, deadline)
    {
      hide Valid, MaxFragmentSize, SendMode, Fragments, FragmentCount;
      ghost var e0 := Abs();
      if |b| > MAX_PDU {
        return Err;
      }
      var sendMode := LowEntropySendMode();
      var size := MaxFragmentSize(mtu, PacketTransport, sendMode);
      if size.Err? {
        return Err;
      }
      var nFragment := FragmentCount(|b|, size.value);
      FragmentsOf(b, size.value);
      if SEND_QUEUE_CAPACITY - |sendQueue.items| <= nFragment {
        return Err;
      }
      r := WriteFragments(b, size.value, nFragment, sendMode, deadline);
    }

    // The loop over the fragments, counting their numbers down.
    method WriteFragments(b: seq<byte>, size: nat, nFragment: nat, sendMode: int, deadline: nat) returns (r: Result<nat>)
      requires Valid() && size > 0 && nFragment == |Fragments(b, size)| && sendMode == SendMode(Abs())
      requires |sendQueue.items| + nFragment < SEND_QUEUE_CAPACITY
      modifies this`nextSend, sendQueue
      ensures Valid() && Abs() == QueueParts(old(Abs()), Fragments(b, size), Min(deadline, nFragment))
      ensures r == if deadline < nFragment then Err else Ok(|b|)
    {
      hide Valid, SendMode, Queuing;
      ghost var e0, all := Abs(), Fragments(b, size);
      ghost var q := Min(deadline, nFragment);
      ghost var parts := all;
      QueuingBegins(e0, all, q);
      var ptr := b;
      var i := nFragment - 1;
      while i >= 0
        invariant -1 <= i < nFragment && |parts| == i + 1 && nFragment - |parts| <= q && Valid()
        invariant i >= 0 ==> parts == Fragments(ptr, size)
        invariant Queuing(e0, all, q, Abs(), parts, q - (nFragment - |parts|))
      {
        QueuingFacts(e0, all, q, Abs(), parts, q - (nFragment - |parts|));
        if nFragment - 1 - i >= deadline {
          return Err;
        }
        var partLen := Min(size, |ptr|);
        var part := ptr[..partLen];
        assert part == parts[0] && (i > 0 ==> parts[1..] == Fragments(ptr[partLen..], size));
        QueuesPart(e0, all, q, Abs(), parts, q - (nFragment - |parts|));
        QueuePart(part, i, sendMode);
        ptr := ptr[partLen..];
        parts := parts[1..];
        i := i - 1;
      }
      QueuingFacts(e0, all, q, Abs(), parts, q - (nFragment - |parts|));
      return Ok(|b|);
    }

    // The open request that goes before the first bytes of a client.
    method WriteOpenRequest(b: seq<byte>) returns (payload: seq<byte>, ok: bool)
      requires Valid()
      modifies this`openSent, this`nextSend, sendQueue
      ensures Valid() && payload == OpenPayload(old(Abs()), b) && ok == (|old(sendQueue.items)| < SEND_QUEUE_CAPACITY)
      ensures ok ==> Abs() == WriteOpen(old(Abs()), b)
      ensures !ok ==> Abs() == old(Abs()).(openSent := true, snd := old(Snd()).(nextSend := AddOne(old(nextSend))))
    {
      hide Enqueue, Small, Keyed;
      openSent := true;
      var sendMode := LowEntropySendMode();
      payload := if sendMode == MODE_OFF && |b| <= MAX_SESSION_OPEN_PAYLOAD then b else [];
      ok := QueueSegment(Packet(OpenSessionRequest, nextSend, 0, 0, 0, payload));
    }

    // The chunk loop; deadline(n) fragments of the chunk at offset n are queued in time.
    method WriteRest(b: seq<byte>, deadline: nat -> nat) returns (n: nat, ok: bool)
      requires Valid() && FragmentsFit(Abs())
      modifies this`nextSend, sendQueue
      ensures Valid()
      ensures ok ==> n == |b| && NoneRefused(old(Abs()), b) && Abs() == WriteChunks(old(Abs()), b)
      ensures !ok ==> StoppedIn(old(Abs()), b, n, deadline(n), Abs())
    {
      hide Valid, QueueParts, PartsOf, ChunkQueued, Refused, FragmentsFit, WriteChunks, NoneRefused;
      ghost var e := Abs();
      n := 0;
      WriteNoChunk(e);
      while n < |b|
        invariant Valid() && n <= |b| && (n < |b| ==> n % MAX_PDU == 0)
        invariant Abs() == WriteChunks(e, b[..n]) && NoneRefused(e, b[..n]) && FragmentsFit(Abs())
      {
        var size := Min(|b| - n, MAX_PDU);
        var chunk := b[n..n + size];
        ghost var g := Abs();
        var r := WriteChunk(chunk, deadline(n));
        if r.Err? {
          return n, false;
        }
        ChunkComplete(g, chunk, deadline(n));
        WriteChunksNext(e, b[..n], chunk);
        NoneRefusedNext(e, b[..n], chunk);
        assert b[..n] + chunk == b[..n + size];
        n := n + size;
      }
      assert b[..n] == b;
      ok := true;
    }

    // Write. When the open request finds no room, its number is lost.
    method Write(b: seq<byte>, deadline: nat -> nat) returns (n: nat, ok: bool)
      requires Valid() && FragmentsFit(Abs())
      modifies this`openSent, this`nextSend, sendQueue
      ensures Valid()
      ensures
        (var e := old(Abs());
         if Opening(e) && !e.openSent && |old(sendQueue.items)| >= SEND_QUEUE_CAPACITY then
           n == 0 && !ok && Abs() == e.(openSent := true, snd := e.snd.(nextSend := AddOne(e.snd.nextSend)))
         else WriteOutcome(e, b, n, ok, deadline, Abs()) && HandsOverWritten(e, b, n, ok, Abs()))
    {
      hide Valid, WriteChunks, NoneRefused, StoppedIn, Enqueue, MaxFragmentSize, HandsOverWritten, OpenPayload;
      ghost var e := Abs();
      assert nextSend < UINT32 by { NumberSmall(); }
      if isClient && state == ATTACHED && !openSent {
        var payload, queued := WriteOpenRequest(b);
        if !queued {
          return 0, false;
        }
        if |payload| > 0 {
          OutcomeHandsOver(e, b, |payload|, true, deadline, Abs());
          return |payload|, true;
        }
      }
      n, ok := WriteRest(b, deadline);
      OutcomeHandsOver(e, b, n, ok, deadline, Abs());
    }

    lemma {:induction false} NumberSmall()
      requires Valid()
      ensures nextSend < UINT32
    {
      hide Keyed, Small;
    }

    // -------------------------------------------------------------------------
    // Output
    // -------------------------------------------------------------------------

    // The first part of an output round: segments that are due are sent again.
    method OutputResend(now: int, rto: nat) returns (sent: seq<Packet>)
      requires Valid()
      modifies this`nextRetransmission, this`lastTX, this`outputHasErr, sendBuf
      ensures Valid()
      ensures
        (var s, due := old(Snd()), old(|sendBuf.items| > 0 && now >= nextRetransmission);
         && Abs() == old(Abs()).(snd := Snd())
         && outputHasErr == (old(outputHasErr) || (due && !NoneExhausted(s.sendBuf)))
         && (!due ==> Snd() == s && sent == [])
         && (due ==> ResentUpTo(s, now, rto, nextRecv, Snd(), sent))
         && (due && NoneExhausted(s.sendBuf) ==> ResentWhole(s, now, rto, nextRecv, Snd(), sent))
         && (due ==> exists stop :: StopsAt(s.sendBuf, stop) && ResendsExactly(s.sendBuf, now, stop, Snd().sendBuf, sent)))
    {
      hide Keyed, Small, NoneExhausted, ResentUpTo, ResentWhole, StopsAt, ResendsExactly;
      ghost var s := Snd();
      sent := [];
      if |sendBuf.items| > 0 && now >= nextRetransmission {
        var exhausted;
        sent, nextRetransmission, lastTX, exhausted := ResendDue(sendBuf, nextRetransmission, lastTX, now, rto, nextRecv, Snd());
        PassResendsExactly(s, now, rto, nextRecv, Snd(), sent);
        if exhausted {
          outputHasErr := true;
        }
      }
    }

    // Whether the next queued packet is data that waits for the open response.
    method ShouldDeferNextPacketData() returns (deferred: bool)
      requires Valid()
      ensures deferred == DeferData(Abs())
    {
      hide Keyed, MinKey, Small;
      if !(isClient && state == ATTACHED) {
        return false;
      }
      var first := sendQueue.Min();
      return first.Some? && IsDataProtocol(first.value.pkt.protocol);
    }

    // The next segment goes from sendQueue to sendBuf and out.
    method SendNext(now: int, rto: nat) returns (p: Packet)
      requires Valid() && sendQueue.items != map[] && |sendBuf.items| < SEGMENT_TREE_CAPACITY
      modifies this`nextRetransmission, this`lastTX, sendQueue, sendBuf
      ensures Valid() && |sendQueue.items| < |old(sendQueue.items)|
      ensures p == NextToSend(old(Snd()), now, rto, nextRecv).pkt
      ensures Abs() == old(Abs()).(snd := SendNew(old(Snd()), now, rto, nextRecv))
    {
      hide Keyed, Small, SendNew, NextToSend;
      p, nextRetransmission := TransmitNext(sendQueue, sendBuf, nextRetransmission, now, rto, nextRecv, nextSend, lastTX);
      lastTX := now;
    }

    // The second part: new segments, as far as the windows allow. `total` counts the
    // transmissions of this round so far.
    method OutputNew(now: int, rto: nat, cwnd: nat, total: nat) returns (sent: seq<Packet>)
      requires Valid()
      modifies this`nextRetransmission, this`lastTX, sendQueue, sendBuf
      ensures Valid() && Abs() == SendRounds(old(Abs()), now, rto, cwnd, total)
      ensures sent == RoundPackets(old(Abs()), now, rto, cwnd, total)
    {
      hide Valid, SendNew, NextToSend, DeferData, SendRounds, RoundPackets, InRounds, CanSendNew;
      ghost var e := Abs();
      sent := [];
      RoundsBegin(e, now, rto, cwnd, total);
      var sending := true;
      while sending
        invariant Valid() && InRounds(e, now, rto, cwnd, total, Abs(), sent)
        invariant !sending ==> !CanSendNew(Abs(), cwnd, total + |sent|)
        decreases |sendQueue.items|, sending
      {
        sending := MaySend(cwnd, total + |sent|);
        if sending {
          RoundsNext(e, now, rto, cwnd, total, Abs(), sent);
          var p := SendNext(now, rto);
          sent := sent + [p];
        }
      }
      RoundsEnd(e, now, rto, cwnd, total, Abs(), sent);
    }

    // The conditions under which the loop sends one more segment.
    method MaySend(cwnd: nat, total: nat) returns (may: bool)
      requires Valid()
      ensures may == CanSendNew(Abs(), cwnd, total)
      ensures may ==> sendQueue.items != map[] && |sendBuf.items| < SEGMENT_TREE_CAPACITY
    {
      hide DeferData, Valid;
      if SEGMENT_TREE_CAPACITY - |sendBuf.items| <= 1 || |sendQueue.items| == 0 {
        return false;
      }
      var deferred := ShouldDeferNextPacketData();
      return !deferred && total < Max(0, Min(cwnd - |sendBuf.items|, remoteWindow));
    }

    // The last part: an acknowledgement or a heartbeat.
    method OutputAck(now: int, jitter: int) returns (sent: Option<Packet>)
      requires Valid()
      modifies this`ackPending, this`lastTX
      ensures Valid()
      ensures sent.Some? <==> !Opening(old(Abs())) && AckDue(old(Abs()), now, jitter)
      ensures sent.Some? ==> sent.value == AckPacket(old(Abs())) && Abs() == SendAck(old(Abs()), now)
      ensures sent.None? ==> Abs() == old(Abs())
    {
      hide Keyed, Small;
      var ackDue := ackPending && now >= ackDeadline;
      sent := None;
      if !(isClient && state == ATTACHED) && (ackDue || now - lastTX > HEARTBEAT_INTERVAL + jitter) {
        ackPending := false;
        var window := Max(0, SEGMENT_TREE_CAPACITY - |recvBuf.items| - |recvQueue.items|);
        sent := Some(Packet(if isClient then AckClientToServer else AckServerToClient, Max(0, nextSend - 1), nextRecv, window, 0, []));
        lastTX := now;
      }
    }

    // The two parts of a round after the retransmission pass.
    method OutputRest(now: int, rto: nat, cwnd: nat, jitter: int, total: nat) returns (sent: seq<Packet>)
      requires Valid()
      modifies this`nextRetransmission, this`lastTX, this`ackPending, sendQueue, sendBuf
      ensures Valid() && outputHasErr == old(outputHasErr)
      ensures RestOf(old(Abs()), now, rto, cwnd, jitter, total, Abs(), sent)
    {
      hide Valid, SendRounds, RoundPackets, AckDue, AckPacket;
      sent := OutputNew(now, rto, cwnd, total);
      var ack := OutputAck(now, jitter);
      if ack.Some? {
        sent := sent + [ack.value];
      }
    }

    // One round of the output loop. After an error nothing is sent any more, and a pass that
    // meets a segment sent 20 times is such an error.
    method RunOutputOncePacket(now: int, rto: nat, cwnd: nat, jitter: int) returns (sent: seq<Packet>)
      requires Valid()
      modifies this`nextRetransmission, this`lastTX, this`ackPending, this`outputHasErr, sendQueue, sendBuf
      ensures Valid()
      ensures outputHasErr == (old(outputHasErr) || EndsSession(old(Snd()), now))
      ensures old(outputHasErr) ==> Abs() == old(Abs()) && sent == []
      ensures !old(outputHasErr) && outputHasErr ==>
        Abs() == old(Abs()).(snd := Snd()) && ResentUpTo(old(Snd()), now, rto, nextRecv, Snd(), sent)
      ensures !outputHasErr ==> RoundOf(old(Abs()), now, rto, cwnd, jitter, Abs(), sent)
    {
      hide Valid, RestOf, ResentUpTo, ResentWhole, NoneExhausted, RoundOf;
      if outputHasErr {
        return [];
      }
      ghost var e := Abs();
      sent := OutputResend(now, rto);
      if outputHasErr {
        return;
      }
      ghost var t := Snd();
      var rest := OutputRest(now, rto, cwnd, jitter, |sent|);
      RoundParts(e, now, rto, cwnd, jitter, t, sent, Abs(), rest);
      sent := sent + rest;
    }

    // How long the output loop may sleep.
    method NextPacketOutputDelay(now: int, jitter: int) returns (delay: int)
      requires Valid()
      ensures delay == OutputDelay(Abs(), now, jitter)
    {
      hide Keyed, Small;
      var next: Option<int> := None;
      if |sendBuf.items| > 0 {
        next := Some(nextRetransmission);
      }
      if !(isClient && state == ATTACHED) {
        if ackPending {
          next := Some(if next.None? then ackDeadline else Min(next.value, ackDeadline));
        }
        var heartbeat := lastTX + HEARTBEAT_INTERVAL + jitter;
        next := Some(if next.None? then heartbeat else Min(next.value, heartbeat));
      }
      if next.None? {
        return HEARTBEAT_INTERVAL;
      }
      if next.value - now <= 0 {
        return MIN_OUTPUT_INTERVAL;
      }
      return next.value - now;
    }
  }
}

/** Segments and the ordered, bounded segment tree (pkg/protocol/segment.go). The B-tree
    of the source is an ordered map from sequence number to segment. */
module Segments {
  import opened Bytes
  import opened Protocols

  // What a segment carries over the network.
  datatype Packet = Packet(
    protocol: Protocol,
    seqNo: nat,
    unAckSeq: nat,
    windowSize: nat,
    fragment: nat,
    payload: seq<byte>)

  // A segment held by one side: the packet and its transmission record, times in microseconds.
  datatype Segment = Segment(
    pkt: Packet,
    ackCount: nat,
    txCount: nat,
    txTime: int,
    txTimeout: int)
  {
    function Deadline(): int { txTime + txTimeout }
  }

  type Tree = map<nat, Segment>

  // The payloads of a sequence of segments.
  function Payloads(log: seq<Packet>): (r: seq<byte>) {
    if log == [] then [] else Payloads(log[..|log| - 1]) + log[|log| - 1].payload
  }

  lemma {:induction false} PayloadsAppend(log: seq<Packet>, p: Packet)
    ensures Payloads(log + [p]) == Payloads(log) + p.payload
  {
    assert (log + [p])[..|log|] == log;
  }

  // Every segment is filed under its own sequence number.
  ghost predicate Keyed(t: Tree) {
    forall k | k in t :: t[k].pkt.seqNo == k
  }

  ghost predicate IsLeast(k: nat, s: set<nat>) {
    k in s && forall j | j in s :: k <= j
  }

  ghost function Least(s: set<nat>): (k: nat)
    requires s != {}
    ensures k in s && forall j | j in s :: k <= j
  {
    assert exists k :: IsLeast(k, s) by {
      var w := LeastExists(s);
    }
    var k :| IsLeast(k, s);
    k
  }

  lemma {:induction false} LeastExists(s: set<nat>) returns (k: nat)
    requires s != {}
    ensures IsLeast(k, s)
    decreases |s|
  {
    k :| k in s;
    var rest := s - {k};
    if rest != {} {
      var b := LeastExists(rest);
      assert forall j | j in s :: j == k || j in rest;
      if b < k {
        k := b;
      }
    }
  }

  // The smallest sequence number of a nonempty tree.
  ghost function MinKey(t: Tree): (k: nat)
    requires t != map[]
    ensures k in t && forall j | j in t :: k <= j
  {
    assert t.Keys != {};
    Least(t.Keys)
  }

  lemma {:induction false} RemoveSize(t: Tree, k: nat)
    requires k in t
    ensures |t - {k}| == |t| - 1
  {
    assert (t - {k}).Keys == t.Keys - {k};
  }

  lemma {:induction false} InsertSize(t: Tree, k: nat, s: Segment)
    ensures |t[k := s]| == if k in t then |t| else |t| + 1
  {
    assert t[k := s].Keys == t.Keys + {k};
  }

  lemma {:induction false} SubsetSize(a: set<nat>, b: set<nat>)
    requires a <= b
    ensures |a| <= |b|
    decreases |b|
  {
    if a == b {
    } else {
      var x :| x in b && x !in a;
      SubsetSize(a, b - {x});
    }
  }

  /** segmentTree: Insert replaces a segment with the same number, but refuses any insert
      when the tree is full. */
  class SegmentTree {
    var items: Tree
    const cap: nat

    ghost predicate Valid()
      reads this
    {
      Keyed(items) && |items| <= cap
    }

    constructor (capacity: nat)
      requires capacity > 0
      ensures Valid() && items == map[] && cap == capacity
    {
      items := map[];
      cap := capacity;
    }

    method Insert(s: Segment) returns (ok: bool)
      requires Valid()
      modifies this
      ensures Valid()
      ensures ok == (old(|items|) < cap)
      ensures items == if ok then old(items)[s.pkt.seqNo := s] else old(items)
    {
      if |items| >= cap {
        return false;
      }
      InsertSize(items, s.pkt.seqNo, s);
      items := items[s.pkt.seqNo := s];
      ok := true;
    }

    // The first segment in order.
    method Min() returns (r: Option<Segment>)
      requires Valid()
      ensures r.None? <==> items == map[]
      ensures r.Some? ==> r.value == items[MinKey(items)]
    {
      if items == map[] {
        return None;
      }
      var k := FindLeast(items.Keys);
      r := Some(items[k]);
    }

    method DeleteMin() returns (r: Option<Segment>)
      requires Valid()
      modifies this
      ensures Valid()
      ensures old(items) == map[] ==> r.None? && items == old(items)
      ensures old(items) != map[] ==>
        && r == Some(old(items)[MinKey(old(items))]) && r.value.pkt.seqNo == MinKey(old(items))
        && items == old(items) - {MinKey(old(items))}
    {
      r := Min();
      if r.Some? {
        RemoveSize(items, r.value.pkt.seqNo);
        items := items - {r.value.pkt.seqNo};
      }
    }

    // The smallest item, if there is one and it meets the condition.
    method DeleteMinIf(si: Segment -> bool) returns (r: Option<Segment>)
      requires Valid()
      modifies this
      ensures Valid()
      ensures r.None? <==> (old(items) == map[] || !si(old(items)[MinKey(old(items))]))
      ensures old(items) != map[] ==> old(items)[MinKey(old(items))].pkt.seqNo == MinKey(old(items))
      ensures r.None? ==> items == old(items)
      ensures r.Some? ==>
        && r == Some(old(items)[MinKey(old(items))]) && r.value.pkt.seqNo == MinKey(old(items))
        && items == old(items) - {MinKey(old(items))}
    {
      r := Min();
      if r.Some? && !si(r.value) {
        r := None;
      }
      if r.Some? {
        RemoveSize(items, r.value.pkt.seqNo);
        items := items - {r.value.pkt.seqNo};
      }
    }

    // The order in which Ascend visits the tree.
    method Ascending() returns (ks: seq<nat>)
      requires Valid()
      ensures Sorted(ks)
      ensures forall k :: k in ks <==> k in items
    {
      ks := [];
      var rest := items.Keys;
      while rest != {}
        invariant rest <= items.Keys
        invariant Sorted(ks)
        invariant forall k :: k in ks <==> k in items && k !in rest
        invariant forall i, k | 0 <= i < |ks| && k in rest :: ks[i] < k
        decreases |rest|
      {
        var k := FindLeast(rest);
        rest := rest - {k};
        ks := ks + [k];
      }
    }
  }

  predicate Sorted(ks: seq<nat>) {
    forall i, j | 0 <= i < j < |ks| :: ks[i] < ks[j]
  }

  method FindLeast(s: set<nat>) returns (k: nat)
    requires s != {}
    ensures k == Least(s)
  {
    k :| k in s;
    var rest := s - {k};
    while rest != {}
      invariant k in s && rest <= s
      invariant forall j | j in s :: j in rest || k <= j
      decreases |rest|
    {
      var j :| j in rest;
      rest := rest - {j};
      if j < k {
        k := j;
      }
    }
  }
}

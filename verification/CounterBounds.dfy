/** How far a query of the time series counter can be from the exact log of additions. The
    bounds hold while the clock does not move back to an earlier second, and only then. Every
    bucket is followed with the list of events it holds; forgetting the lists gives the
    counter itself. */
module CounterBounds {
  import Bits
  import opened Counters

  datatype Event = Event(time: int, delta: int)

  type Log = seq<Event>

  function Sum(es: Log): (t: int) {
    if es == [] then 0 else Sum(es[..|es| - 1]) + es[|es| - 1].delta
  }

  lemma {:induction false} SumConcat(a: Log, b: Log)
    ensures Sum(a + b) == Sum(a) + Sum(b)
    decreases |b|
  {
    if b == [] {
      assert a + b == a;
    } else {
      SumConcat(a, b[..|b| - 1]);
      assert (a + b)[..|a + b| - 1] == a + b[..|b| - 1];
    }
  }

  // ---------------------------------------------------------------------------
  // Tiers that remember their events
  // ---------------------------------------------------------------------------

  datatype Held = Held(start: int, events: Log)

  type HeldTier = seq<Held>

  function Forget(h: HeldTier): (r: Tier)
    ensures |r| == |h|
    ensures forall i | 0 <= i < |h| :: r[i] == Bucket(h[i].start, Sum(h[i].events))
  {
    seq(|h|, i requires 0 <= i < |h| => Bucket(h[i].start, Sum(h[i].events)))
  }

  function RecordHeld(h: HeldTier, start: int, es: Log): (r: HeldTier) {
    var n := |h|;
    if n > 0 && start <= h[n - 1].start then h[n - 1 := h[n - 1].(events := h[n - 1].events + es)]
    else h + [Held(start, es)]
  }

  function RecordAllHeld(h: HeldTier, moved: HeldTier, width: int): (r: HeldTier)
    requires width > 0
  {
    if moved == [] then h
    else RecordHeld(RecordAllHeld(h, moved[..|moved| - 1], width), FloorTo(moved[|moved| - 1].start, width), moved[|moved| - 1].events)
  }

  lemma {:induction false} ForgetRecord(h: HeldTier, start: int, es: Log)
    ensures Forget(RecordHeld(h, start, es)) == Record(Forget(h), start, Sum(es))
  {
    hide Sum;
    var n := |h|;
    if n > 0 && start <= h[n - 1].start {
      SumConcat(h[n - 1].events, es);
    }
  }

  lemma {:induction false} ForgetRecordAll(h: HeldTier, moved: HeldTier, width: int)
    requires width > 0
    ensures Forget(RecordAllHeld(h, moved, width)) == RecordAll(Forget(h), Forget(moved), width)
    decreases |moved|
  {
    hide Forget, RecordHeld, Record;
    if moved != [] {
      var m := |moved| - 1;
      ForgetRecordAll(h, moved[..m], width);
      assert Forget(moved)[..m] == Forget(moved[..m]);
      ForgetRecord(RecordAllHeld(h, moved[..m], width), FloorTo(moved[m].start, width), moved[m].events);
    } else {
      assert Forget(moved) == [];
    }
  }

  // All the events of a tier, in order.
  function Flat(h: HeldTier): (es: Log) {
    if h == [] then [] else Flat(h[..|h| - 1]) + h[|h| - 1].events
  }

  lemma {:induction false} FlatRecord(h: HeldTier, start: int, es: Log)
    ensures Flat(RecordHeld(h, start, es)) == Flat(h) + es
  {
    var n := |h|;
    var r := RecordHeld(h, start, es);
    if n > 0 && start <= h[n - 1].start {
      assert r[..n - 1] == h[..n - 1];
      assert Flat(h[..n - 1]) + h[n - 1].events + es == Flat(h[..n - 1]) + (h[n - 1].events + es);
    } else {
      assert r[..n] == h;
    }
  }

  lemma {:induction false} FlatRecordAll(h: HeldTier, moved: HeldTier, width: int)
    requires width > 0
    ensures Flat(RecordAllHeld(h, moved, width)) == Flat(h) + Flat(moved)
    decreases |moved|
  {
    hide RecordHeld;
    if moved == [] {
      assert Flat(h) + [] == Flat(h);
    } else {
      var m := |moved| - 1;
      FlatRecordAll(h, moved[..m], width);
      FlatRecord(RecordAllHeld(h, moved[..m], width), FloorTo(moved[m].start, width), moved[m].events);
      assert Flat(h) + Flat(moved[..m]) + moved[m].events == Flat(h) + (Flat(moved[..m]) + moved[m].events);
    }
  }

  lemma {:induction false} FlatSplit(h: HeldTier, n: nat)
    requires n <= |h|
    ensures Flat(h) == Flat(h[..n]) + Flat(h[n..])
    decreases |h|
  {
    if n == |h| {
      assert h[..n] == h && Flat(h) + [] == Flat(h);
    } else {
      var m := |h| - 1;
      FlatSplit(h[..m], n);
      assert h[..m][..n] == h[..n] && h[..m][n..] == h[n..][..m - n] && h[n..][m - n] == h[m];
      assert Flat(h[..n]) + Flat(h[n..m]) + h[m].events == Flat(h[..n]) + (Flat(h[n..m]) + h[m].events);
    }
  }

  // ---------------------------------------------------------------------------
  // Every event is in the bucket of its own time
  // ---------------------------------------------------------------------------

  ghost predicate Placed(b: Held, width: int)
    requires width > 0
  {
    b.events != [] && forall i | 0 <= i < |b.events| :: FloorTo(b.events[i].time, width) == b.start
  }

  ghost predicate AllPlaced(h: HeldTier, width: int)
    requires width > 0
  {
    forall i | 0 <= i < |h| :: Placed(h[i], width)
  }

  function Second(e: Event): (s: int) { FloorTo(e.time, Width(0)) }

  // The clock never moved back to an earlier second.
  ghost predicate InOrder(es: Log) {
    forall i, j | 0 <= i < j < |es| :: Second(es[i]) <= Second(es[j])
  }

  lemma {:induction false} FloorMonotone(a: int, b: int, width: int)
    requires width > 0 && a <= b
    ensures FloorTo(a, width) <= FloorTo(b, width)
  {
    hide FloorTo;
    FloorIsMultiple(a, width);
    FloorIsMultiple(b, width);
    var x, y := FloorTo(a, width), FloorTo(b, width);
    MultiplesDiffer(x, y, width);
    SmallMultiple(x - y, width);
  }

  lemma {:induction false} SmallMultiple(d: int, w: int)
    requires w > 0 && d % w == 0 && d < w
    ensures d <= 0
  {
    var q := d / w;
    assert d == q * w;
    Bits.MulBound(q, w);
  }

  // Rounding twice is rounding once to the coarser width.
  lemma {:induction false} FloorFloor(a: int, w: int, k: int)
    requires w > 0 && k > 0 && w * k > 0
    ensures FloorTo(FloorTo(a, w), w * k) == FloorTo(a, w * k)
  {
    hide FloorTo;
    FloorIsMultiple(a, w);
    FloorIsMultiple(a, w * k);
    var x, z := FloorTo(a, w), FloorTo(a, w * k);
    FloorMonotone(x, a, w * k);
    assert z % w == 0 by { CoarserMultiple(z, w, k); }
    FloorOfMultiple(z, w);
    FloorMonotone(z, a, w);
    FloorOfMultiple(z, w * k);
    FloorMonotone(z, x, w * k);
  }

  lemma {:induction false} CoarserMultiple(z: int, w: int, k: int)
    requires w > 0 && w * k > 0 && z % (w * k) == 0
    ensures z % w == 0
  {
    var q := z / (w * k);
    assert z == q * (w * k) == (q * k) * w;
    MultipleMod(q * k, w);
  }

  // ---------------------------------------------------------------------------
  // Moving buckets keeps every event in its place
  // ---------------------------------------------------------------------------

  // The order of seconds is an order of the coarser units.
  lemma {:induction false} CoarserOrder(a: Event, b: Event, width: int, k: int)
    requires k > 0 && width == Width(0) * k && Second(a) <= Second(b)
    ensures width > 0 && FloorTo(a.time, width) <= FloorTo(b.time, width)
  {
    hide FloorTo;
    FloorFloor(a.time, Width(0), k);
    FloorFloor(b.time, Width(0), k);
    FloorMonotone(Second(a), Second(b), width);
  }

  // The start of the last bucket is the rounded time of an event before the new ones.
  lemma {:induction false} RecordPlaced(h: HeldTier, start: int, es: Log, width: int, k: int)
    requires k > 0 && width == Width(0) * k && width > 0 && AllPlaced(h, width) && Placed(Held(start, es), width)
    requires InOrder(Flat(h) + es)
    ensures AllPlaced(RecordHeld(h, start, es), width)
  {
    hide FloorTo, Second;
    var n := |h|;
    if n > 0 {
      var last := h[n - 1];
      var all := Flat(h) + es;
      assert |Flat(h)| > 0 && Flat(h)[|Flat(h)| - 1] == last.events[|last.events| - 1];
      assert all[|Flat(h)| - 1] == last.events[|last.events| - 1] && all[|Flat(h)|] == es[0];
      CoarserOrder(last.events[|last.events| - 1], es[0], width, k);
    }
  }

  lemma {:induction false} CoarserPlaced(b: Held, w: int, k: int)
    requires w > 0 && k > 0 && w * k > 0 && Placed(b, w)
    ensures Placed(Held(FloorTo(b.start, w * k), b.events), w * k)
  {
    hide FloorTo;
    forall i | 0 <= i < |b.events|
      ensures FloorTo(b.events[i].time, w * k) == FloorTo(b.start, w * k)
    {
      FloorFloor(b.events[i].time, w, k);
    }
  }

  lemma {:induction false} PrefixInOrder(a: Log, b: Log)
    requires InOrder(a + b)
    ensures InOrder(a)
  {
    hide Second;
    forall i, j | 0 <= i < j < |a|
      ensures Second(a[i]) <= Second(a[j])
    {
      assert (a + b)[i] == a[i] && (a + b)[j] == a[j];
    }
  }

  lemma {:induction false} RecordAllPlaced(h: HeldTier, moved: HeldTier, w: int, k: int, m: int)
    requires w > 0 && k > 0 && w * k > 0 && m > 0 && w * k == Width(0) * m && AllPlaced(h, w * k) && AllPlaced(moved, w)
    requires InOrder(Flat(h) + Flat(moved))
    ensures AllPlaced(RecordAllHeld(h, moved, w * k), w * k)
    decreases |moved|
  {
    hide FloorTo, RecordHeld, InOrder, Placed;
    if moved != [] {
      var n := |moved| - 1;
      var es := moved[n].events;
      assert Flat(h) + Flat(moved) == Flat(h) + Flat(moved[..n]) + es;
      PrefixInOrder(Flat(h) + Flat(moved[..n]), es);
      RecordAllPlaced(h, moved[..n], w, k, m);
      FlatRecordAll(h, moved[..n], w * k);
      CoarserPlaced(moved[n], w, k);
      RecordPlaced(RecordAllHeld(h, moved[..n], w * k), FloorTo(moved[n].start, w * k), es, w * k, m);
    }
  }

  // ---------------------------------------------------------------------------
  // The counter with its events
  // ---------------------------------------------------------------------------

  type HeldHistory = seq<HeldTier>

  function ForgetAll(hs: HeldHistory): (r: History)
    requires |hs| == TIERS
    ensures |r| == TIERS
  {
    [Forget(hs[0]), Forget(hs[1]), Forget(hs[2]), Forget(hs[3])]
  }

  function CompactTierHeld(hs: HeldHistory, i: nat, now: int): (r: HeldHistory)
    requires |hs| == TIERS && i + 1 < TIERS
    ensures |r| == TIERS
  {
    var n := Expired(Forget(hs[i]), now, Retain(i));
    hs[i := hs[i][n..]][i + 1 := RecordAllHeld(hs[i + 1], hs[i][..n], Width(i + 1))]
  }

  function CompactedHeld(hs: HeldHistory, now: int): (r: HeldHistory)
    requires |hs| == TIERS
    ensures |r| == TIERS
  {
    CompactTierHeld(CompactTierHeld(CompactTierHeld(hs, 0, now), 1, now), 2, now)
  }

  // The counter after adding the events of a log one after the other, with the bucket lists.
  datatype HeldSeries = HeldSeries(history: HeldHistory, nextCompact: int)

  function RunHeld(log: Log): (r: HeldSeries)
    ensures |r.history| == TIERS
  {
    if log == [] then HeldSeries([[], [], [], []], 0)
    else
      var c, e := RunHeld(log[..|log| - 1]), log[|log| - 1];
      if e.delta == 0 then c
      else
        var hs := c.history[0 := RecordHeld(c.history[0], FloorTo(e.time, Width(0)), [e])];
        HeldSeries(if e.time >= c.nextCompact then CompactedHeld(hs, e.time) else hs,
                   if e.time >= c.nextCompact then e.time + COMPACT_INTERVAL else c.nextCompact)
  }

  function Run(log: Log): (r: Series)
    ensures |r.history| == TIERS
  {
    if log == [] then assert |EMPTY.history| == TIERS; EMPTY else Added(Run(log[..|log| - 1]), log[|log| - 1].delta, log[|log| - 1].time)
  }

  lemma {:induction false} ForgetCompactTier(hs: HeldHistory, i: nat, now: int)
    requires |hs| == TIERS && i + 1 < TIERS
    ensures ForgetAll(CompactTierHeld(hs, i, now)) == CompactTier(ForgetAll(hs), i, now)
  {
    hide Forget, Expired, RecordAllHeld, RecordAll;
    var n := Expired(Forget(hs[i]), now, Retain(i));
    assert Forget(hs[i][n..]) == Forget(hs[i])[n..];
    assert Forget(hs[i][..n]) == Forget(hs[i])[..n];
    ForgetRecordAll(hs[i + 1], hs[i][..n], Width(i + 1));
  }

  // Forgetting the events gives the counter itself.
  lemma {:induction false} ForgetRun(log: Log)
    ensures ForgetAll(RunHeld(log).history) == Run(log).history && RunHeld(log).nextCompact == Run(log).nextCompact
    decreases |log|
  {
    hide Forget, CompactedHeld, Compacted, RecordHeld, Record, FloorTo;
    if log == [] {
      EmptyForget();
    } else {
      ForgetRun(log[..|log| - 1]);
      var c, e := RunHeld(log[..|log| - 1]), log[|log| - 1];
      ForgetRecord(c.history[0], FloorTo(e.time, Width(0)), [e]);
      SumOne(e);
      var hs := c.history[0 := RecordHeld(c.history[0], FloorTo(e.time, Width(0)), [e])];
      assert ForgetAll(hs) == ForgetAll(c.history)[0 := Record(Forget(c.history[0]), FloorTo(e.time, Width(0)), e.delta)];
      ForgetCompacted(hs, e.time);
    }
  }

  lemma {:induction false} ForgetCompacted(hs: HeldHistory, now: int)
    requires |hs| == TIERS
    ensures ForgetAll(CompactedHeld(hs, now)) == Compacted(ForgetAll(hs), now)
  {
    hide CompactTierHeld, CompactTier, ForgetAll;
    ForgetCompactTier(hs, 0, now);
    ForgetCompactTier(CompactTierHeld(hs, 0, now), 1, now);
    ForgetCompactTier(CompactTierHeld(CompactTierHeld(hs, 0, now), 1, now), 2, now);
  }

  lemma {:induction false} EmptyForget()
    ensures Forget([]) == []
  {}

  lemma {:induction false} SumOne(e: Event)
    ensures Sum([e]) == e.delta
  {
    assert [e][..0] == [];
  }

  // ---------------------------------------------------------------------------
  // What every run keeps
  // ---------------------------------------------------------------------------

  // The events that change anything.
  function Kept(log: Log): (r: Log) {
    if log == [] then [] else Kept(log[..|log| - 1]) + if log[|log| - 1].delta == 0 then [] else [log[|log| - 1]]
  }

  // All the events of the counter, from the oldest tier to the newest.
  function AllEvents(hs: HeldHistory): (es: Log)
    requires |hs| == TIERS
  {
    Flat(hs[3]) + Flat(hs[2]) + Flat(hs[1]) + Flat(hs[0])
  }

  // Every event is older than the bound.
  ghost predicate Aged(es: Log, bound: int) {
    forall i | 0 <= i < |es| :: es[i].time < bound
  }

  // A bucket leaves tier k only when it is older than the retention.
  function Bound(k: nat, now: int): (b: int)
    requires k + 1 < TIERS
  {
    now - Retain(k) + Width(k)
  }

  ghost predicate Tidy(hs: HeldHistory, now: int)
    requires |hs| == TIERS
  {
    && AllPlaced(hs[0], Width(0)) && AllPlaced(hs[1], Width(1)) && AllPlaced(hs[2], Width(2)) && AllPlaced(hs[3], Width(3))
    && Aged(Flat(hs[1]), Bound(0, now)) && Aged(Flat(hs[2]), Bound(1, now)) && Aged(Flat(hs[3]), Bound(2, now))
  }

  lemma {:induction false} ExpiredAll(h: Tier, now: int, retain: int)
    ensures forall j | 0 <= j < Expired(h, now, retain) :: now - h[j].start > retain
  {
    if Expired(h, now, retain) > 0 {
      ExpiredAll(h[1..], now, retain);
      forall j | 0 <= j < Expired(h, now, retain)
        ensures now - h[j].start > retain
      {
        if j > 0 {
          assert h[1..][j - 1] == h[j];
        }
      }
    }
  }

  lemma {:induction false} FlatAged(h: HeldTier, width: int, bound: int)
    requires width > 0 && AllPlaced(h, width) && forall i | 0 <= i < |h| :: h[i].start + width <= bound
    ensures Aged(Flat(h), bound)
    decreases |h|
  {
    hide FloorTo;
    if h != [] {
      var b := h[|h| - 1];
      FlatAged(h[..|h| - 1], width, bound);
      forall i | 0 <= i < |b.events|
        ensures b.events[i].time < bound
      {
        FloorIsMultiple(b.events[i].time, width);
      }
    }
  }

  lemma {:induction false} AgedConcat(a: Log, b: Log, bound: int)
    ensures Aged(a + b, bound) <==> Aged(a, bound) && Aged(b, bound)
  {
    assert forall i | 0 <= i < |a| :: (a + b)[i] == a[i];
    assert forall i | 0 <= i < |b| :: (a + b)[|a| + i] == b[i];
  }

  lemma {:induction false} MiddleInOrder(a: Log, b: Log, c: Log)
    requires InOrder(a + b + c)
    ensures InOrder(b)
  {
    hide Second;
    forall i, j | 0 <= i < j < |b|
      ensures Second(b[i]) <= Second(b[j])
    {
      assert (a + b + c)[|a| + i] == b[i] && (a + b + c)[|a| + j] == b[j];
    }
  }

  lemma {:induction false} WidthsDivide(i: nat) returns (k: int, m: int)
    requires i + 1 < TIERS
    ensures k > 0 && Width(i + 1) == Width(i) * k && m > 0 && Width(i + 1) == Width(0) * m
  {
    k := if i == 2 then 24 else 60;
    m := Width(i + 1) / 1000;
  }

  // One compaction step at a time not after `now`, on two neighbouring tiers.
  lemma {:induction false} MoveTidy(h: HeldTier, g: HeldTier, i: nat, time: int, now: int, n: nat)
    requires i + 1 < TIERS && time <= now && n == Expired(Forget(h), time, Retain(i)) && n <= |h|
    requires AllPlaced(h, Width(i)) && AllPlaced(g, Width(i + 1)) && InOrder(Flat(g) + Flat(h))
    requires Aged(Flat(g), Bound(i, now))
    ensures
      (var r := RecordAllHeld(g, h[..n], Width(i + 1));
       && AllPlaced(h[n..], Width(i)) && AllPlaced(r, Width(i + 1))
       && Aged(Flat(r), Bound(i, now)) && Flat(r) + Flat(h[n..]) == Flat(g) + Flat(h))
  {
    hide FloorTo, RecordAllHeld, InOrder, Placed, Forget, Aged, Flat, Expired;
    var k, m := WidthsDivide(i);
    FlatSplit(h, n);
    assert Flat(g) + Flat(h) == Flat(g) + Flat(h[..n]) + Flat(h[n..]);
    PrefixInOrder(Flat(g) + Flat(h[..n]), Flat(h[n..]));
    RecordAllPlaced(g, h[..n], Width(i), k, m);
    FlatRecordAll(g, h[..n], Width(i + 1));
    ExpiredAll(Forget(h), time, Retain(i));
    assert forall j | 0 <= j < n :: h[j].start == Forget(h)[j].start;
    FlatAged(h[..n], Width(i), Bound(i, now));
    AgedConcat(Flat(g), Flat(h[..n]), Bound(i, now));
  }

  lemma {:induction false} AgedSuffix(h: HeldTier, n: nat, bound: int)
    requires n <= |h| && Aged(Flat(h), bound)
    ensures Aged(Flat(h[n..]), bound)
  {
    hide Flat, Aged;
    FlatSplit(h, n);
    AgedConcat(Flat(h[..n]), Flat(h[n..]), bound);
  }

  lemma {:induction false} CompactTierTidy(hs: HeldHistory, i: nat, time: int, now: int)
    requires |hs| == TIERS && i + 1 < TIERS && time <= now && Tidy(hs, now) && InOrder(AllEvents(hs))
    ensures Tidy(CompactTierHeld(hs, i, time), now) && AllEvents(CompactTierHeld(hs, i, time)) == AllEvents(hs)
  {
    hide AllPlaced, InOrder, Aged, Flat, Expired, RecordAllHeld, Forget;
    var h, g := hs[i], hs[i + 1];
    var n := Expired(Forget(h), time, Retain(i));
    assert InOrder(Flat(g) + Flat(h)) by { NeighboursInOrder(hs, i); }
    MoveTidy(h, g, i, time, now, n);
    if i > 0 {
      AgedSuffix(h, n, Bound(i - 1, now));
    }
    SameEvents(hs, i, RecordAllHeld(g, h[..n], Width(i + 1)), h[n..]);
  }

  lemma {:induction false} NeighboursInOrder(hs: HeldHistory, i: nat)
    requires |hs| == TIERS && i + 1 < TIERS && InOrder(AllEvents(hs))
    ensures InOrder(Flat(hs[i + 1]) + Flat(hs[i]))
  {
    hide InOrder, Flat;
    var a, b, c, d := Flat(hs[3]), Flat(hs[2]), Flat(hs[1]), Flat(hs[0]);
    if i == 2 {
      assert a + b + c + d == [] + (a + b) + (c + d);
      MiddleInOrder([], a + b, c + d);
    } else if i == 1 {
      assert a + b + c + d == a + (b + c) + d;
      MiddleInOrder(a, b + c, d);
    } else {
      assert a + b + c + d == (a + b) + (c + d) + [];
      MiddleInOrder(a + b, c + d, []);
    }
  }

  lemma {:induction false} SameEvents(hs: HeldHistory, i: nat, r: HeldTier, q: HeldTier)
    requires |hs| == TIERS && i + 1 < TIERS && Flat(r) + Flat(q) == Flat(hs[i + 1]) + Flat(hs[i])
    ensures AllEvents(hs[i := q][i + 1 := r]) == AllEvents(hs)
  {
    hide Flat;
    var a, b, c, d := Flat(hs[3]), Flat(hs[2]), Flat(hs[1]), Flat(hs[0]);
    if i == 2 {
      assert a + b + c + d == (a + b) + c + d;
    } else if i == 1 {
      assert a + b + c + d == a + (b + c) + d;
      assert a + Flat(r) + Flat(q) + d == a + (Flat(r) + Flat(q)) + d;
    } else {
      assert a + b + c + d == a + b + (c + d);
      assert a + b + Flat(r) + Flat(q) == a + b + (Flat(r) + Flat(q));
    }
  }

  // ---------------------------------------------------------------------------
  // Every run
  // ---------------------------------------------------------------------------

  lemma {:induction false} EventPlaced(e: Event, width: int)
    requires width > 0
    ensures Placed(Held(FloorTo(e.time, width), [e]), width)
  {
    hide FloorTo;
  }

  lemma {:induction false} AddTidy(hs: HeldHistory, e: Event, now: int)
    requires |hs| == TIERS && Tidy(hs, now) && InOrder(AllEvents(hs) + [e])
    ensures
      (var r := hs[0 := RecordHeld(hs[0], FloorTo(e.time, Width(0)), [e])];
       Tidy(r, now) && AllEvents(r) == AllEvents(hs) + [e])
  {
    hide AllPlaced, InOrder, Aged, Flat, FloorTo, RecordHeld, Placed;
    var h := hs[0];
    var front := Flat(hs[3]) + Flat(hs[2]) + Flat(hs[1]);
    assert AllEvents(hs) + [e] == front + (Flat(h) + [e]) + [];
    MiddleInOrder(front, Flat(h) + [e], []);
    EventPlaced(e, Width(0));
    RecordPlaced(h, FloorTo(e.time, Width(0)), [e], Width(0), 1);
    FlatRecord(h, FloorTo(e.time, Width(0)), [e]);
  }

  lemma {:induction false} CompactedTidy(hs: HeldHistory, time: int, now: int)
    requires |hs| == TIERS && time <= now && Tidy(hs, now) && InOrder(AllEvents(hs))
    ensures Tidy(CompactedHeld(hs, time), now) && AllEvents(CompactedHeld(hs, time)) == AllEvents(hs)
  {
    hide CompactTierHeld, Tidy, AllEvents, InOrder;
    CompactTierTidy(hs, 0, time, now);
    CompactTierTidy(CompactTierHeld(hs, 0, time), 1, time, now);
    CompactTierTidy(CompactTierHeld(CompactTierHeld(hs, 0, time), 1, time), 2, time, now);
  }

  ghost predicate NotAfter(es: Log, t: int) {
    forall i | 0 <= i < |es| :: es[i].time <= t
  }

  // After every run whose kept events are in the order of their seconds and not after `now`:
  // all of them are there in order, each in the bucket of its time, and the coarse tiers hold
  // only old ones.
  lemma {:induction false} RunTidy(log: Log, now: int)
    requires InOrder(Kept(log)) && NotAfter(Kept(log), now)
    ensures Tidy(RunHeld(log).history, now) && AllEvents(RunHeld(log).history) == Kept(log)
    decreases |log|
  {
    hide Tidy, AllEvents, InOrder, NotAfter, CompactedHeld, RecordHeld, FloorTo;
    if log == [] {
      EmptyTidy(now);
    } else {
      var front, e := log[..|log| - 1], log[|log| - 1];
      if e.delta != 0 {
        PrefixInOrder(Kept(front), [e]);
        FrontNotAfter(Kept(front), e, now);
        RunTidy(front, now);
        var c := RunHeld(front);
        AddTidy(c.history, e, now);
        CompactedTidy(c.history[0 := RecordHeld(c.history[0], FloorTo(e.time, Width(0)), [e])], e.time, now);
      } else {
        assert Kept(log) == Kept(front) + [] == Kept(front);
        RunTidy(front, now);
      }
    }
  }

  lemma {:induction false} FrontNotAfter(es: Log, e: Event, t: int)
    requires NotAfter(es + [e], t)
    ensures NotAfter(es, t) && e.time <= t
  {
    assert forall i | 0 <= i < |es| :: (es + [e])[i] == es[i];
    assert (es + [e])[|es|] == e;
  }

  lemma {:induction false} EmptyTidy(now: int)
    ensures Tidy([[], [], [], []], now) && AllEvents([[], [], [], []]) == []
  {}

  // ---------------------------------------------------------------------------
  // Queries against the log
  // ---------------------------------------------------------------------------

  // The exact sum of what was added after t.
  function SumAfter(es: Log, t: int): (s: int) {
    if es == [] then 0 else SumAfter(es[..|es| - 1], t) + if es[|es| - 1].time > t then es[|es| - 1].delta else 0
  }

  ghost predicate NonNegative(es: Log) {
    forall i | 0 <= i < |es| :: es[i].delta >= 0
  }

  // Only additions, none of them after t.
  ghost predicate Regular(es: Log, t: int) {
    NonNegative(es) && NotAfter(es, t)
  }

  lemma {:induction false} RegularConcat(a: Log, b: Log, t: int)
    ensures Regular(a + b, t) <==> Regular(a, t) && Regular(b, t)
  {
    assert forall i | 0 <= i < |a| :: (a + b)[i] == a[i];
    assert forall i | 0 <= i < |b| :: (a + b)[|a| + i] == b[i];
  }

  lemma {:induction false} EmptySumAfter(t: int)
    ensures SumAfter([], t) == 0
  {}

  lemma {:induction false} SumAfterConcat(a: Log, b: Log, t: int)
    ensures SumAfter(a + b, t) == SumAfter(a, t) + SumAfter(b, t)
    decreases |b|
  {
    if b == [] {
      assert a + b == a;
    } else {
      SumAfterConcat(a, b[..|b| - 1], t);
      assert (a + b)[..|a + b| - 1] == a + b[..|b| - 1];
    }
  }

  lemma {:induction false} SumAfterKept(log: Log, t: int)
    ensures SumAfter(Kept(log), t) == SumAfter(log, t)
    decreases |log|
  {
    if log != [] {
      var front, e := log[..|log| - 1], log[|log| - 1];
      SumAfterKept(front, t);
      if e.delta != 0 {
        assert Kept(log)[..|Kept(log)| - 1] == Kept(front);
      } else {
        assert Kept(log) == Kept(front) + [] == Kept(front);
      }
    }
  }

  lemma {:induction false} SumAfterMonotone(es: Log, t: int, u: int)
    requires NonNegative(es) && t <= u
    ensures 0 <= SumAfter(es, u) <= SumAfter(es, t)
    decreases |es|
  {
    if es != [] {
      SumAfterMonotone(es[..|es| - 1], t, u);
    }
  }

  // Events that are all after t, or all not after t.
  lemma {:induction false} SumAfterAll(es: Log, t: int)
    requires forall i | 0 <= i < |es| :: es[i].time > t
    ensures SumAfter(es, t) == Sum(es)
    decreases |es|
  {
    if es != [] {
      SumAfterAll(es[..|es| - 1], t);
    }
  }

  lemma {:induction false} SumAfterNone(es: Log, t: int)
    requires forall i | 0 <= i < |es| :: es[i].time <= t
    ensures SumAfter(es, t) == 0
    decreases |es|
  {
    if es != [] {
      SumAfterNone(es[..|es| - 1], t);
    }
  }

  lemma {:induction false} SumNonNegative(es: Log)
    requires NonNegative(es)
    ensures Sum(es) >= 0
    decreases |es|
  {
    if es != [] {
      SumNonNegative(es[..|es| - 1]);
    }
  }

  // A bucket that is counted holds only events after t1.
  lemma {:induction false} BucketUpper(b: Held, width: int, t1: int, t2: int)
    requires width > 0 && Placed(b, width) && Regular(b.events, t2)
    ensures (if t1 < b.start <= t2 then Sum(b.events) else 0) <= SumAfter(b.events, t1)
  {
    hide FloorTo;
    forall i | 0 <= i < |b.events|
      ensures b.start <= b.events[i].time
    {
      FloorIsMultiple(b.events[i].time, width);
    }
    SumAfterMonotone(b.events, t1, t1);
    if t1 < b.start {
      SumAfterAll(b.events, t1);
    }
  }

  lemma {:induction false} TierUpper(h: HeldTier, width: int, t1: int, t2: int)
    requires width > 0 && AllPlaced(h, width) && Regular(Flat(h), t2)
    ensures SumBetween(Forget(h), t1, t2) <= SumAfter(Flat(h), t1)
    decreases |h|
  {
    hide FloorTo, Placed, Regular, SumAfter, Sum, Forget;
    if h == [] {
      EmptyForget();
      EmptySumAfter(t1);
    } else {
      var n := |h| - 1;
      RegularConcat(Flat(h[..n]), h[n].events, t2);
      TierUpper(h[..n], width, t1, t2);
      BucketUpper(h[n], width, t1, t2);
      SumAfterConcat(Flat(h[..n]), h[n].events, t1);
      assert Forget(h)[..n] == Forget(h[..n]);
    }
  }

  // ---------------------------------------------------------------------------
  // The bounds
  // ---------------------------------------------------------------------------

  ghost predicate RegularTiers(hs: HeldHistory, t: int)
    requires |hs| == TIERS
  {
    Regular(Flat(hs[0]), t) && Regular(Flat(hs[1]), t) && Regular(Flat(hs[2]), t) && Regular(Flat(hs[3]), t)
  }

  lemma {:induction false} AllRegular(hs: HeldHistory, t: int)
    requires |hs| == TIERS && Regular(AllEvents(hs), t)
    ensures RegularTiers(hs, t)
  {
    hide Regular, Flat;
    var a, b, c, d := Flat(hs[3]), Flat(hs[2]), Flat(hs[1]), Flat(hs[0]);
    RegularConcat(a + b + c, d, t);
    RegularConcat(a + b, c, t);
    RegularConcat(a, b, t);
  }

  lemma {:induction false} SumAfterTiers(hs: HeldHistory, t: int)
    requires |hs| == TIERS
    ensures SumAfter(AllEvents(hs), t) == SumAfter(Flat(hs[0]), t) + SumAfter(Flat(hs[1]), t) + SumAfter(Flat(hs[2]), t) + SumAfter(Flat(hs[3]), t)
  {
    hide SumAfter, Flat;
    var a, b, c, d := Flat(hs[3]), Flat(hs[2]), Flat(hs[1]), Flat(hs[0]);
    SumAfterConcat(a + b + c, d, t);
    SumAfterConcat(a + b, c, t);
    SumAfterConcat(a, b, t);
  }

  // The widths a window can be trusted to: the tier whose retention, less one bucket, covers it.
  predicate Covers(k: nat, window: int) {
    k < TIERS && (k + 1 < TIERS ==> window <= Retain(k) - Width(k))
  }

  lemma {:induction false} HistoryUpper(hs: HeldHistory, t1: int, t2: int)
    requires |hs| == TIERS && Tidy(hs, t2) && Regular(AllEvents(hs), t2)
    ensures DeltaOf(ForgetAll(hs), t1, t2) <= SumAfter(AllEvents(hs), t1)
  {
    hide SumAfter, SumBetween, AllPlaced, Regular, Aged, Flat, AllEvents, Forget;
    AllRegular(hs, t2);
    SumAfterTiers(hs, t1);
    TierUpper(hs[0], Width(0), t1, t2);
    TierUpper(hs[1], Width(1), t1, t2);
    TierUpper(hs[2], Width(2), t1, t2);
    TierUpper(hs[3], Width(3), t1, t2);
  }

  lemma {:induction false} KeptRegular(log: Log, t: int)
    requires Regular(log, t)
    ensures Regular(Kept(log), t)
    decreases |log|
  {
    if log != [] {
      var front, e := log[..|log| - 1], log[|log| - 1];
      assert log == front + [e];
      RegularConcat(front, [e], t);
      KeptRegular(front, t);
      RegularConcat(Kept(front), if e.delta == 0 then [] else [e], t);
    }
  }

  lemma {:induction false} RegularNotAfter(es: Log, t: int)
    requires Regular(es, t)
    ensures NotAfter(es, t)
  {}

  // ---------------------------------------------------------------------------
  // The lower bound, whatever the clock does
  // ---------------------------------------------------------------------------

  // No event joins a bucket that starts before its own time.
  ghost predicate Loose(b: Held, width: int, now: int)
    requires width > 0
  {
    b.start <= now && forall i | 0 <= i < |b.events| :: FloorTo(b.events[i].time, width) <= b.start
  }

  ghost predicate AllLoose(h: HeldTier, width: int, now: int)
    requires width > 0
  {
    forall i | 0 <= i < |h| :: Loose(h[i], width, now)
  }

  ghost predicate LooseTiers(hs: HeldHistory, now: int)
    requires |hs| == TIERS
  {
    && AllLoose(hs[0], Width(0), now) && AllLoose(hs[1], Width(1), now) && AllLoose(hs[2], Width(2), now) && AllLoose(hs[3], Width(3), now)
    && Aged(Flat(hs[1]), Bound(0, now)) && Aged(Flat(hs[2]), Bound(1, now)) && Aged(Flat(hs[3]), Bound(2, now))
  }

  lemma {:induction false} RecordLoose(h: HeldTier, start: int, es: Log, width: int, now: int)
    requires width > 0 && AllLoose(h, width, now) && Loose(Held(start, es), width, now)
    ensures AllLoose(RecordHeld(h, start, es), width, now)
  {
    hide FloorTo;
  }

  lemma {:induction false} CoarserLoose(b: Held, w: int, k: int, now: int)
    requires w > 0 && k > 0 && w * k > 0 && Loose(b, w, now)
    ensures Loose(Held(FloorTo(b.start, w * k), b.events), w * k, now)
  {
    hide FloorTo;
    FloorIsMultiple(b.start, w * k);
    forall i | 0 <= i < |b.events|
      ensures FloorTo(b.events[i].time, w * k) <= FloorTo(b.start, w * k)
    {
      FloorFloor(b.events[i].time, w, k);
      FloorMonotone(FloorTo(b.events[i].time, w), b.start, w * k);
    }
  }

  lemma {:induction false} RecordAllLoose(h: HeldTier, moved: HeldTier, w: int, k: int, now: int)
    requires w > 0 && k > 0 && w * k > 0 && AllLoose(h, w * k, now) && AllLoose(moved, w, now)
    ensures AllLoose(RecordAllHeld(h, moved, w * k), w * k, now)
    decreases |moved|
  {
    hide FloorTo, RecordHeld, Loose;
    if moved != [] {
      var n := |moved| - 1;
      RecordAllLoose(h, moved[..n], w, k, now);
      CoarserLoose(moved[n], w, k, now);
      RecordLoose(RecordAllHeld(h, moved[..n], w * k), FloorTo(moved[n].start, w * k), moved[n].events, w * k, now);
    }
  }

  lemma {:induction false} LooseAged(h: HeldTier, width: int, now: int, bound: int)
    requires width > 0 && AllLoose(h, width, now) && forall i | 0 <= i < |h| :: h[i].start + width <= bound
    ensures Aged(Flat(h), bound)
    decreases |h|
  {
    hide FloorTo;
    if h != [] {
      var b := h[|h| - 1];
      LooseAged(h[..|h| - 1], width, now, bound);
      forall i | 0 <= i < |b.events|
        ensures b.events[i].time < bound
      {
        FloorIsMultiple(b.events[i].time, width);
      }
    }
  }

  lemma {:induction false} MoveLoose(h: HeldTier, g: HeldTier, i: nat, time: int, now: int, n: nat)
    requires i + 1 < TIERS && time <= now && n == Expired(Forget(h), time, Retain(i)) && n <= |h|
    requires AllLoose(h, Width(i), now) && AllLoose(g, Width(i + 1), now) && Aged(Flat(g), Bound(i, now))
    ensures
      (var r := RecordAllHeld(g, h[..n], Width(i + 1));
       AllLoose(h[n..], Width(i), now) && AllLoose(r, Width(i + 1), now) && Aged(Flat(r), Bound(i, now)))
  {
    hide FloorTo, RecordAllHeld, Loose, Forget, Aged, Flat, Expired;
    var k, m := WidthsDivide(i);
    RecordAllLoose(g, h[..n], Width(i), k, now);
    FlatRecordAll(g, h[..n], Width(i + 1));
    ExpiredAll(Forget(h), time, Retain(i));
    assert forall j | 0 <= j < n :: h[j].start == Forget(h)[j].start;
    LooseAged(h[..n], Width(i), now, Bound(i, now));
    AgedConcat(Flat(g), Flat(h[..n]), Bound(i, now));
  }

  lemma {:induction false} CompactTierLoose(hs: HeldHistory, i: nat, time: int, now: int)
    requires |hs| == TIERS && i + 1 < TIERS && time <= now && LooseTiers(hs, now)
    ensures LooseTiers(CompactTierHeld(hs, i, time), now)
  {
    hide AllLoose, Aged, Flat, Expired, RecordAllHeld, Forget;
    var h, g := hs[i], hs[i + 1];
    var n := Expired(Forget(h), time, Retain(i));
    MoveLoose(h, g, i, time, now, n);
    if i > 0 {
      AgedSuffix(h, n, Bound(i - 1, now));
    }
  }

  lemma {:induction false} AddLoose(hs: HeldHistory, e: Event, now: int)
    requires |hs| == TIERS && LooseTiers(hs, now) && e.time <= now
    ensures LooseTiers(hs[0 := RecordHeld(hs[0], FloorTo(e.time, Width(0)), [e])], now)
  {
    hide FloorTo, AllLoose, Aged, Flat, RecordHeld;
    FloorIsMultiple(e.time, Width(0));
    RecordLoose(hs[0], FloorTo(e.time, Width(0)), [e], Width(0), now);
  }

  // After every run, whatever the clock did, no event is in a bucket before its own and the
  // coarse tiers hold only old ones.
  lemma {:induction false} RunLoose(log: Log, now: int)
    requires NotAfter(log, now)
    ensures LooseTiers(RunHeld(log).history, now)
    decreases |log|
  {
    hide LooseTiers, CompactTierHeld, RecordHeld, FloorTo;
    if log == [] {
      EmptyLoose(now);
    } else {
      var front, e := log[..|log| - 1], log[|log| - 1];
      RunLoose(front, now);
      var c := RunHeld(front);
      if e.delta != 0 {
        var hs := c.history[0 := RecordHeld(c.history[0], FloorTo(e.time, Width(0)), [e])];
        AddLoose(c.history, e, now);
        CompactTierLoose(hs, 0, e.time, now);
        CompactTierLoose(CompactTierHeld(hs, 0, e.time), 1, e.time, now);
        CompactTierLoose(CompactTierHeld(CompactTierHeld(hs, 0, e.time), 1, e.time), 2, e.time, now);
      }
    }
  }

  lemma {:induction false} EmptyLoose(now: int)
    ensures LooseTiers([[], [], [], []], now)
  {}

  lemma {:induction false} BucketLower(b: Held, width: int, t1: int, now: int)
    requires width > 0 && Loose(b, width, now) && NonNegative(b.events)
    ensures SumAfter(b.events, t1 + width - 1) <= if t1 < b.start <= now then Sum(b.events) else 0
  {
    hide FloorTo;
    if t1 < b.start {
      SumAfterAtMost(b.events, t1 + width - 1);
    } else {
      forall i | 0 <= i < |b.events|
        ensures b.events[i].time <= t1 + width - 1
      {
        FloorIsMultiple(b.events[i].time, width);
      }
      SumAfterNone(b.events, t1 + width - 1);
    }
  }

  lemma {:induction false} SumAfterAtMost(es: Log, t: int)
    requires NonNegative(es)
    ensures SumAfter(es, t) <= Sum(es)
    decreases |es|
  {
    if es != [] {
      SumAfterAtMost(es[..|es| - 1], t);
    }
  }

  lemma {:induction false} TierLower(h: HeldTier, width: int, t1: int, now: int)
    requires width > 0 && AllLoose(h, width, now) && NonNegative(Flat(h))
    ensures 0 <= SumBetween(Forget(h), t1, now) && SumAfter(Flat(h), t1 + width - 1) <= SumBetween(Forget(h), t1, now)
    decreases |h|
  {
    hide FloorTo, Loose, NonNegative, SumAfter, Sum, Forget;
    if h == [] {
      EmptyForget();
      EmptySumAfter(t1 + width - 1);
    } else {
      var n := |h| - 1;
      NonNegativeConcat(Flat(h[..n]), h[n].events);
      TierLower(h[..n], width, t1, now);
      BucketLower(h[n], width, t1, now);
      SumNonNegative(h[n].events);
      SumAfterConcat(Flat(h[..n]), h[n].events, t1 + width - 1);
      assert Forget(h)[..n] == Forget(h[..n]);
    }
  }

  // A tier counts at least what is at least `width` after t1, when it is no coarser than that
  // or holds only what is older than t1.
  lemma {:induction false} TierCounts(h: HeldTier, w: int, width: int, t1: int, now: int)
    requires w > 0 && width > 0 && AllLoose(h, w, now) && NonNegative(Flat(h)) && (w <= width || Aged(Flat(h), t1))
    ensures SumAfter(Flat(h), t1 + width - 1) <= SumBetween(Forget(h), t1, now)
  {
    hide SumAfter, SumBetween, AllLoose, NonNegative, Forget;
    TierLower(h, w, t1, now);
    if w <= width {
      SumAfterMonotone(Flat(h), t1 + w - 1, t1 + width - 1);
    } else {
      SumAfterNone(Flat(h), t1 + width - 1);
    }
  }

  lemma {:induction false} AgedEarlier(es: Log, b: int, c: int)
    requires Aged(es, b) && b <= c
    ensures Aged(es, c)
  {}

  lemma {:induction false} HistoryLower(hs: HeldHistory, k: nat, t1: int, now: int)
    requires |hs| == TIERS && LooseTiers(hs, now) && NonNegative(AllEvents(hs)) && Covers(k, now - t1)
    ensures SumAfter(AllEvents(hs), t1 + Width(k) - 1) <= DeltaOf(ForgetAll(hs), t1, now)
  {
    hide SumAfter, SumBetween, AllLoose, NonNegative, Aged, Flat, Forget;
    NonNegativeConcat(Flat(hs[3]) + Flat(hs[2]) + Flat(hs[1]), Flat(hs[0]));
    NonNegativeConcat(Flat(hs[3]) + Flat(hs[2]), Flat(hs[1]));
    NonNegativeConcat(Flat(hs[3]), Flat(hs[2]));
    SumAfterTiers(hs, t1 + Width(k) - 1);
    if k < 1 {
      AgedEarlier(Flat(hs[1]), Bound(0, now), t1);
    }
    if k < 2 {
      AgedEarlier(Flat(hs[2]), Bound(1, now), t1);
    }
    if k < 3 {
      AgedEarlier(Flat(hs[3]), Bound(2, now), t1);
    }
    TierCounts(hs[0], Width(0), Width(k), t1, now);
    TierCounts(hs[1], Width(1), Width(k), t1, now);
    TierCounts(hs[2], Width(2), Width(k), t1, now);
    TierCounts(hs[3], Width(3), Width(k), t1, now);
  }

  // For additions only and any clock at all: a query up to now is at least the exact sum of
  // what was added one bucket width after t1 or later. The width is a second for windows up to
  // 119 seconds, a minute up to 119 minutes, an hour up to 8 days less one hour, and a day for
  // all others.
  lemma {:induction false} QueryNeverMisses(log: Log, k: nat, t1: int, now: int)
    requires Regular(log, now) && Covers(k, now - t1)
    ensures SumAfter(log, t1 + Width(k) - 1) <= DeltaOf(Run(log).history, t1, now)
  {
    hide LooseTiers, SumAfter, DeltaOf, ForgetAll, Width, Retain, RunHeld, Run, Kept, Regular, AllEvents, NonNegative;
    RegularNotAfter(log, now);
    RunLoose(log, now);
    RunEvents(log);
    KeptRegular(log, now);
    RegularNonNegative(Kept(log), now);
    HistoryLower(RunHeld(log).history, k, t1, now);
    ForgetRun(log);
    SumAfterKept(log, t1 + Width(k) - 1);
  }

  // While the clock does not move back to an earlier second, a query up to now is at most the
  // exact sum of what was added after t1.
  lemma {:induction false} QueryNeverExceeds(log: Log, t1: int, now: int)
    requires InOrder(Kept(log)) && Regular(log, now)
    ensures DeltaOf(Run(log).history, t1, now) <= SumAfter(log, t1)
  {
    hide Tidy, InOrder, SumAfter, DeltaOf, ForgetAll, RunHeld, Run, Kept, Regular, AllEvents;
    KeptRegular(log, now);
    RegularNotAfter(Kept(log), now);
    RunTidy(log, now);
    ForgetRun(log);
    HistoryUpper(RunHeld(log).history, t1, now);
    SumAfterKept(log, t1);
  }

  // ---------------------------------------------------------------------------
  // Exactly when a query never counts too much
  // ---------------------------------------------------------------------------

  // At no point of the log does a query up to the present count more than was added after t1.
  ghost predicate NeverOvercounts(log: Log) {
    forall n, t1, now | 0 <= n <= |log| && Regular(log[..n], now) ::
      DeltaOf(Run(log[..n]).history, t1, now) <= SumAfter(log[..n], t1)
  }

  lemma {:induction false} KeptPrefix(log: Log, n: nat)
    requires n <= |log|
    ensures Kept(log[..n]) <= Kept(log)
    decreases |log|
  {
    if n == |log| {
      assert log[..n] == log;
    } else {
      KeptPrefix(log[..|log| - 1], n);
      assert log[..|log| - 1][..n] == log[..n];
    }
  }

  // The newest bucket is never compacted away: it is the bucket of the last kept event.
  lemma {:induction false} NewestStays(log: Log)
    requires InOrder(Kept(log)) && Kept(log) != []
    ensures
      (var h := RunHeld(log).history[0];
       h != [] && h[|h| - 1].start == Second(Kept(log)[|Kept(log)| - 1]))
    decreases |log|
  {
    hide InOrder, Second, RunHeld, Tidy;
    var front, e := log[..|log| - 1], log[|log| - 1];
    if e.delta == 0 {
      assert Kept(log) == Kept(front) + [] == Kept(front);
      NewestStays(front);
      RunSkips(log);
    } else {
      PrefixInOrder(Kept(front), [e]);
      if Kept(front) != [] {
        NewestStays(front);
        LastTwo(Kept(front), e);
      } else {
        NothingHeld(front);
      }
      RecordsLast(RunHeld(front).history[0], e);
      InItsSecond(e);
      RunRecords(log);
    }
  }

  lemma {:induction false} RunSkips(log: Log)
    requires log != [] && log[|log| - 1].delta == 0
    ensures RunHeld(log) == RunHeld(log[..|log| - 1])
  {}

  lemma {:induction false} LastTwo(es: Log, e: Event)
    requires es != [] && InOrder(es + [e])
    ensures Second(es[|es| - 1]) <= Second(e)
  {
    hide Second;
    assert (es + [e])[|es| - 1] == es[|es| - 1] && (es + [e])[|es|] == e;
  }

  lemma {:induction false} NothingHeld(log: Log)
    requires Kept(log) == []
    ensures RunHeld(log).history == [[], [], [], []]
    decreases |log|
  {
    if log != [] {
      NothingHeld(log[..|log| - 1]);
    }
  }

  // An event that is not before the last bucket makes its own bucket the last one.
  lemma {:induction false} RecordsLast(h: HeldTier, e: Event)
    requires h != [] ==> h[|h| - 1].start <= Second(e)
    ensures
      (var r := RecordHeld(h, Second(e), [e]);
       r != [] && r[|r| - 1].start == Second(e))
  {
    hide Second;
  }

  // Compaction at a time before or in the second of the last bucket keeps that bucket.
  lemma {:induction false} CompactKeepsLast(hs: HeldHistory, time: int)
    requires |hs| == TIERS && hs[0] != [] && time < hs[0][|hs[0]| - 1].start + Width(0)
    ensures
      (var h, r := hs[0], CompactedHeld(hs, time)[0];
       && r != [] && r[|r| - 1] == h[|h| - 1]
       && exists n :: 0 <= n < |h| && r == h[n..])
  {
    hide Expired, RecordAllHeld, Forget;
    var h := hs[0];
    var n := Expired(Forget(h), time, Retain(0));
    ExpiredAll(Forget(h), time, Retain(0));
    assert Forget(h)[|h| - 1].start == h[|h| - 1].start;
    assert CompactTierHeld(hs, 0, time)[0] == h[n..];
    assert CompactedHeld(hs, time)[0] == h[n..];
  }

  // The tier of seconds with the last event of the log, before any compaction.
  function Recorded(log: Log): (r: HeldTier)
    requires log != []
  {
    RecordHeld(RunHeld(log[..|log| - 1]).history[0], Second(log[|log| - 1]), [log[|log| - 1]])
  }

  // Compaction right after the last event keeps the newest bucket.
  lemma {:induction false} RunRecords(log: Log)
    requires log != [] && log[|log| - 1].delta != 0
    requires Recorded(log) != [] && log[|log| - 1].time < Recorded(log)[|Recorded(log)| - 1].start + Width(0)
    ensures
      (var r, h := Recorded(log), RunHeld(log).history[0];
       r != [] && h != [] && h[|h| - 1] == r[|r| - 1] && exists n :: 0 <= n < |r| && h == r[n..])
  {
    hide FloorTo, CompactedHeld;
    var c, e, r := RunHeld(log[..|log| - 1]), log[|log| - 1], Recorded(log);
    CompactKeepsLast(c.history[0 := r], e.time);
    assert r == r[0..];
  }

  // All the events of the counter are those of the log, whatever the clock does.
  lemma {:induction false} CompactTierEvents(hs: HeldHistory, i: nat, time: int)
    requires |hs| == TIERS && i + 1 < TIERS
    ensures AllEvents(CompactTierHeld(hs, i, time)) == AllEvents(hs)
  {
    hide Flat, Expired, RecordAllHeld, Forget, AllEvents;
    var h, g := hs[i], hs[i + 1];
    var n := Expired(Forget(h), time, Retain(i));
    FlatSplit(h, n);
    FlatRecordAll(g, h[..n], Width(i + 1));
    assert Flat(g) + Flat(h) == Flat(g) + Flat(h[..n]) + Flat(h[n..]);
    SameEvents(hs, i, RecordAllHeld(g, h[..n], Width(i + 1)), h[n..]);
  }

  lemma {:induction false} RunEvents(log: Log)
    ensures AllEvents(RunHeld(log).history) == Kept(log)
    decreases |log|
  {
    hide CompactTierHeld, AllEvents, RecordHeld, FloorTo;
    if log == [] {
      EmptyTidy(0);
    } else {
      var front, e := log[..|log| - 1], log[|log| - 1];
      RunEvents(front);
      var c := RunHeld(front);
      if e.delta == 0 {
        assert Kept(log) == Kept(front) + [] == Kept(front);
      } else {
        var hs := c.history[0 := RecordHeld(c.history[0], FloorTo(e.time, Width(0)), [e])];
        AddEvents(c.history, e);
        CompactTierEvents(hs, 0, e.time);
        CompactTierEvents(CompactTierHeld(hs, 0, e.time), 1, e.time);
        CompactTierEvents(CompactTierHeld(CompactTierHeld(hs, 0, e.time), 1, e.time), 2, e.time);
      }
    }
  }

  lemma {:induction false} AddEvents(hs: HeldHistory, e: Event)
    requires |hs| == TIERS
    ensures AllEvents(hs[0 := RecordHeld(hs[0], FloorTo(e.time, Width(0)), [e])]) == AllEvents(hs) + [e]
  {
    hide Flat, RecordHeld, FloorTo;
    FlatRecord(hs[0], FloorTo(e.time, Width(0)), [e]);
    var front := Flat(hs[3]) + Flat(hs[2]) + Flat(hs[1]);
    assert front + (Flat(hs[0]) + [e]) == front + Flat(hs[0]) + [e];
  }

  lemma {:induction false} NonNegativeConcat(a: Log, b: Log)
    ensures NonNegative(a + b) <==> NonNegative(a) && NonNegative(b)
  {
    assert forall i | 0 <= i < |a| :: (a + b)[i] == a[i];
    assert forall i | 0 <= i < |b| :: (a + b)[|a| + i] == b[i];
  }

  // A query counts the whole last bucket if it starts in the window, and nothing negative.
  lemma {:induction false} CountsLast(h: HeldTier, t1: int, t2: int)
    requires NonNegative(Flat(h))
    ensures SumBetween(Forget(h), t1, t2) >= 0
    ensures h != [] && t1 < h[|h| - 1].start <= t2 ==> SumBetween(Forget(h), t1, t2) >= Sum(h[|h| - 1].events)
    decreases |h|
  {
    hide Sum, Forget, NonNegative;
    if h == [] {
      EmptyForget();
    } else {
      var n := |h| - 1;
      NonNegativeConcat(Flat(h[..n]), h[n].events);
      CountsLast(h[..n], t1, t2);
      SumNonNegative(h[n].events);
      assert Forget(h)[..n] == Forget(h[..n]);
    }
  }

  lemma {:induction false} CountsNewest(hs: HeldHistory, t1: int, t2: int)
    requires |hs| == TIERS && NonNegative(AllEvents(hs))
    requires hs[0] != [] && t1 < hs[0][|hs[0]| - 1].start <= t2
    ensures DeltaOf(ForgetAll(hs), t1, t2) >= Sum(hs[0][|hs[0]| - 1].events)
  {
    hide Flat, Sum, Forget, NonNegative, SumBetween;
    NonNegativeConcat(Flat(hs[3]) + Flat(hs[2]) + Flat(hs[1]), Flat(hs[0]));
    NonNegativeConcat(Flat(hs[3]) + Flat(hs[2]), Flat(hs[1]));
    NonNegativeConcat(Flat(hs[3]), Flat(hs[2]));
    CountsLast(hs[0], t1, t2);
    CountsLast(hs[1], t1, t2);
    CountsLast(hs[2], t1, t2);
    CountsLast(hs[3], t1, t2);
  }

  // In a tidy tier of seconds, what is in or after the last second is in the last bucket.
  lemma {:induction false} OnlyInLast(h: HeldTier)
    requires h != [] && AllPlaced(h, Width(0)) && Increasing(Forget(h))
    ensures SumAfter(Flat(h), h[|h| - 1].start - 1) == Sum(h[|h| - 1].events)
  {
    hide FloorTo, Forget, Sum;
    var n, b := |h| - 1, h[|h| - 1];
    forall i | 0 <= i < n
      ensures h[..n][i].start + Width(0) <= b.start
    {
      assert Forget(h)[i].start < Forget(h)[n].start;
      PlacedMultiple(h[i], Width(0));
      PlacedMultiple(b, Width(0));
      MultiplesApart(h[i].start, b.start);
    }
    FlatAged(h[..n], Width(0), b.start);
    SumAfterNone(Flat(h[..n]), b.start - 1);
    forall i | 0 <= i < |b.events|
      ensures b.events[i].time > b.start - 1
    {
      FloorIsMultiple(b.events[i].time, Width(0));
    }
    SumAfterAll(b.events, b.start - 1);
    SumAfterConcat(Flat(h[..n]), b.events, b.start - 1);
  }

  lemma {:induction false} PlacedMultiple(b: Held, width: int)
    requires width > 0 && Placed(b, width)
    ensures b.start % width == 0
  {
    hide FloorTo;
    FloorIsMultiple(b.events[0].time, width);
  }

  lemma {:induction false} MultiplesApart(a: int, b: int)
    requires a % 1000 == 0 && b % 1000 == 0 && a < b
    ensures a + 1000 <= b
  {}

  // The exact sum from the last second on, before the clock moves back.
  lemma {:induction false} ExactLast(log: Log)
    requires InOrder(Kept(log)) && Kept(log) != []
    ensures
      (var h := RunHeld(log).history[0];
       h != [] && SumAfter(log, h[|h| - 1].start - 1) == Sum(h[|h| - 1].events))
  {
    hide InOrder, Tidy, Kept, RunHeld, Second, SumAfter, Sum, Flat, AllEvents, ForgetAll;
    NewestStays(log);
    var hs: HeldHistory := RunHeld(log).history;
    var start := hs[0][|hs[0]| - 1].start;
    LastSecond(Kept(log));
    RunTidy(log, start + Width(0) - 1);
    TidyOrdered(log, start + Width(0) - 1);
    OnlyInLast(hs[0]);
    OldTiers(hs, start);
    SumAfterTiers(hs, start - 1);
    SumAfterKept(log, start - 1);
  }

  lemma {:induction false} LastSecond(es: Log)
    requires InOrder(es) && es != []
    ensures NotAfter(es, Second(es[|es| - 1]) + Width(0) - 1)
  {
    hide FloorTo;
    forall i | 0 <= i < |es|
      ensures es[i].time <= Second(es[|es| - 1]) + Width(0) - 1
    {
      FloorIsMultiple(es[i].time, Width(0));
      assert Second(es[i]) <= Second(es[|es| - 1]);
    }
  }

  lemma {:induction false} TidyOrdered(log: Log, now: int)
    requires Tidy(RunHeld(log).history, now)
    ensures AllPlaced(RunHeld(log).history[0], Width(0)) && Increasing(Forget(RunHeld(log).history[0]))
  {
    hide AllPlaced, Aged, Forget, RunHeld, Run, Total;
    ForgetRun(log);
    RunConserves(log);
  }

  lemma {:induction false} RunConserves(log: Log)
    ensures Conserves(Run(log))
    decreases |log|
  {
    hide Added, Conserves;
    if log == [] {
      EmptyConserves();
    } else {
      RunConserves(log[..|log| - 1]);
      AddConserves(Run(log[..|log| - 1]), log[|log| - 1].delta, log[|log| - 1].time);
    }
  }

  lemma {:induction false} EmptyConserves()
    ensures Conserves(EMPTY)
  {}

  lemma {:induction false} OldTiers(hs: HeldHistory, start: int)
    requires |hs| == TIERS && Tidy(hs, start + Width(0) - 1)
    ensures SumAfter(Flat(hs[1]), start - 1) == SumAfter(Flat(hs[2]), start - 1) == SumAfter(Flat(hs[3]), start - 1) == 0
  {
    hide Flat, AllPlaced, SumAfter;
    SumAfterNone(Flat(hs[1]), start - 1);
    SumAfterNone(Flat(hs[2]), start - 1);
    SumAfterNone(Flat(hs[3]), start - 1);
  }

  // The last addition is in an earlier second than the one before it, the first time so.
  ghost predicate StepsBack(log: Log) {
    && log != [] && log[|log| - 1].delta > 0
    && Kept(log[..|log| - 1]) != [] && InOrder(Kept(log[..|log| - 1]))
    && Second(log[|log| - 1]) < LastKept(log)
  }

  // The second of the last addition before the last event.
  function LastKept(log: Log): (s: int)
    requires log != [] && Kept(log[..|log| - 1]) != []
  {
    Second(Kept(log[..|log| - 1])[|Kept(log[..|log| - 1])| - 1])
  }

  // One step back to an earlier second: the event joins the newer bucket, and the query from
  // the start of that bucket counts it.
  lemma {:induction false} StepBackOvercounts(log: Log, now: int)
    requires StepsBack(log) && Regular(log, now)
    ensures
      (var t1 := LastKept(log) - 1;
       DeltaOf(Run(log).history, t1, now) >= SumAfter(log, t1) + log[|log| - 1].delta)
  {
    hide InOrder, Kept, RunHeld, Run, Second, SumAfter, Sum, Regular, DeltaOf, ForgetAll, AllEvents;
    var front, e := log[..|log| - 1], log[|log| - 1];
    var before: Log := Kept(front);
    NewestStays(front);
    ExactLast(front);
    var h: HeldTier := RunHeld(front).history[0];
    var b := h[|h| - 1];
    var t1 := b.start - 1;
    EarlierSecond(e, before[|before| - 1]);
    JoinsLast(h, e);
    RunRecords(log);
    RunEvents(log);
    KeptRegular(log, now);
    RegularNonNegative(Kept(log), now);
    ForgetRun(log);
    KeptLast(front, log, now);
    CountsNewest(RunHeld(log).history, t1, now);
    SumJoins(b.events, e);
    SumAfterLast(log, t1);
  }

  lemma {:induction false} InItsSecond(e: Event)
    ensures Second(e) <= e.time < Second(e) + Width(0)
  {
    hide FloorTo;
    FloorIsMultiple(e.time, Width(0));
  }

  lemma {:induction false} EarlierSecond(e: Event, f: Event)
    requires Second(e) < Second(f)
    ensures e.time < Second(f)
  {
    hide FloorTo;
    FloorIsMultiple(e.time, Width(0));
    FloorIsMultiple(f.time, Width(0));
    MultiplesApart(Second(e), Second(f));
  }

  lemma {:induction false} JoinsLast(h: HeldTier, e: Event)
    requires h != [] && Second(e) <= h[|h| - 1].start
    ensures
      (var r := RecordHeld(h, Second(e), [e]);
       r != [] && r[|r| - 1] == Held(h[|h| - 1].start, h[|h| - 1].events + [e]))
  {
    hide Second;
  }

  lemma {:induction false} RegularNonNegative(es: Log, t: int)
    requires Regular(es, t)
    ensures NonNegative(es)
  {}

  // The last kept event of a prefix is not after the present.
  lemma {:induction false} KeptLast(front: Log, log: Log, now: int)
    requires log != [] && front == log[..|log| - 1] && Regular(log, now) && Kept(front) != []
    ensures Second(Kept(front)[|Kept(front)| - 1]) <= now
  {
    hide Second, Kept;
    var e := log[|log| - 1];
    assert log == front + [e];
    RegularConcat(front, [e], now);
    KeptRegular(front, now);
    InItsSecond(Kept(front)[|Kept(front)| - 1]);
  }

  lemma {:induction false} SumJoins(es: Log, e: Event)
    ensures Sum(es + [e]) == Sum(es) + e.delta
  {
    SumConcat(es, [e]);
    SumOne(e);
  }

  lemma {:induction false} SumAfterLast(log: Log, t: int)
    requires log != [] && log[|log| - 1].time <= t
    ensures SumAfter(log, t) == SumAfter(log[..|log| - 1], t)
  {}

  // The first place where the clock has moved back to an earlier second.
  lemma {:induction false} FirstBack(log: Log) returns (n: nat)
    requires !InOrder(Kept(log))
    ensures n < |log| && log[n].delta != 0
    ensures
      (var before := Kept(log[..n]);
       before != [] && InOrder(before) && Second(log[n]) < Second(before[|before| - 1]))
    decreases |log|
  {
    hide InOrder, Second;
    if log == [] {
      EmptyInOrder();
    }
    var front, e := log[..|log| - 1], log[|log| - 1];
    if InOrder(Kept(front)) {
      assert Kept(front) + [] == Kept(front);
      OrderedAppend(Kept(front), e);
      return |log| - 1;
    }
    n := FirstBack(front);
    assert front[..n] == log[..n];
  }

  lemma {:induction false} EmptyInOrder()
    ensures InOrder([])
  {}

  lemma {:induction false} OrderedAppend(es: Log, e: Event)
    requires InOrder(es)
    ensures InOrder(es + [e]) || (es != [] && Second(e) < Second(es[|es| - 1]))
  {
    hide Second;
    if es == [] || Second(es[|es| - 1]) <= Second(e) {
      forall i, j | 0 <= i < j < |es + [e]|
        ensures Second((es + [e])[i]) <= Second((es + [e])[j])
      {
        if j == |es| {
          assert i < |es| - 1 ==> Second(es[i]) <= Second(es[|es| - 1]);
        }
      }
    }
  }

  lemma {:induction false} LatestTime(es: Log) returns (t: int)
    ensures NotAfter(es, t)
    decreases |es|
  {
    if es == [] {
      return 0;
    }
    t := LatestTime(es[..|es| - 1]);
    if es[|es| - 1].time > t {
      t := es[|es| - 1].time;
    }
  }

  // For additions only: no query ever counts more than was added in its window if and only if
  // the clock never moved back to an earlier second between two additions.
  lemma {:induction false} OvercountsExactly(log: Log)
    requires NonNegative(log)
    ensures NeverOvercounts(log) <==> InOrder(Kept(log))
  {
    hide InOrder, Kept, Run, SumAfter, DeltaOf, Regular;
    if InOrder(Kept(log)) {
      forall n, t1, now | 0 <= n <= |log| && Regular(log[..n], now)
        ensures DeltaOf(Run(log[..n]).history, t1, now) <= SumAfter(log[..n], t1)
      {
        KeptPrefix(log, n);
        assert Kept(log[..n]) + Kept(log)[|Kept(log[..n])|..] == Kept(log);
        PrefixInOrder(Kept(log[..n]), Kept(log)[|Kept(log[..n])|..]);
        QueryNeverExceeds(log[..n], t1, now);
      }
    } else {
      var n := FirstBack(log);
      var now := LatestTime(log[..n + 1]);
      RegularPrefix(log, n + 1, now);
      assert log[..n + 1][..n] == log[..n];
      StepBackOvercounts(log[..n + 1], now);
    }
  }

  lemma {:induction false} RegularPrefix(log: Log, n: nat, now: int)
    requires n <= |log| && NonNegative(log) && NotAfter(log[..n], now)
    ensures Regular(log[..n], now)
  {}

  // An addition recorded after the clock moved back five seconds joins the newer bucket.
  lemma {:induction false} BackwardClockOvercounts()
    ensures
      (var log := [Event(10_000, 1), Event(5_000, 1)];
       !InOrder(Kept(log)) && DeltaOf(Run(log).history, 7_000, 20_000) == 2 && SumAfter(log, 7_000) == 1)
  {
    hide Added, SumBetween, Kept, InOrder;
    var a, b := Event(10_000, 1), Event(5_000, 1);
    var log := [a, b];
    assert log[..1] == [a] && [a][..0] == [];
    BackwardLog(a, b);
    AddedFirst();
    AddedBefore();
    assert Run([a]) == Added(Run([]), 1, 10_000);
    assert Run(log) == Added(Run([a]), 1, 5_000);
    OneBucket();
  }

  lemma {:induction false} BackwardLog(a: Event, b: Event)
    requires a.delta != 0 && b.delta != 0 && Second(a) > Second(b)
    ensures !InOrder(Kept([a, b]))
  {
    hide Second;
    assert [a, b][..1] == [a] && [a][..0] == [];
    assert Kept([a]) == Kept([]) + [a] == [a];
    assert Kept([a, b]) == Kept([a]) + [b] == [a, b];
    assert Second([a, b][0]) > Second([a, b][1]);
  }

  lemma {:induction false} AddedFirst()
    ensures Added(EMPTY, 1, 10_000) == Series(1, [[Bucket(10_000, 1)], [], [], []], 10_000, 11_000)
  {
    hide Compacted;
    var hs: History := [[Bucket(10_000, 1)], [], [], []];
    assert FloorTo(10_000, 1000) == 10_000;
    assert EMPTY == Series(0, [[], [], [], []], 0, 0);
    assert Record([], 10_000, 1) == [Bucket(10_000, 1)];
    assert EMPTY.history[0 := Record(EMPTY.history[0], 10_000, 1)] == hs;
    Fresh(hs, 10_000);
  }

  lemma {:induction false} AddedBefore()
    ensures
      (var one := Series(1, [[Bucket(10_000, 1)], [], [], []], 10_000, 11_000);
       Added(one, 1, 5_000).history == [[Bucket(10_000, 2)], [], [], []])
  {
    hide Compacted;
    assert FloorTo(5_000, 1000) == 5_000;
    assert Record([Bucket(10_000, 1)], 5_000, 1) == [Bucket(10_000, 2)];
  }

  lemma {:induction false} OneBucket()
    ensures DeltaOf([[Bucket(10_000, 2)], [], [], []], 7_000, 20_000) == 2
  {
    assert [Bucket(10_000, 2)][..0] == [];
  }

  // Nothing moves while everything is recent.
  lemma {:induction false} Fresh(hs: History, now: int)
    requires |hs| == TIERS && hs[1] == hs[2] == [] && (hs[0] == [] || now - hs[0][0].start <= Retain(0))
    ensures Compacted(hs, now) == hs
  {
    hide Expired;
    NoneExpired(hs[0], now, Retain(0));
    NoneExpired([], now, Retain(1));
    NoneExpired([], now, Retain(2));
  }
}

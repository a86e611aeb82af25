/** The time series counter (pkg/metrics/counter.go): four tiers of buckets, from seconds to
    days. Times are milliseconds. */
module Counters {
  import Bits
  import opened Bytes

  datatype Bucket = Bucket(start: int, delta: int)

  type Tier = seq<Bucket>

  const TIERS: nat := 4
  const COMPACT_INTERVAL := 1000

  function Width(i: nat): (w: int)
    requires i < TIERS
    ensures w > 0
  {
    if i == 0 then 1000 else if i == 1 then 60_000 else if i == 2 then 3_600_000 else 86_400_000
  }

  // Not used for the last tier.
  function Retain(i: nat): (r: int)
    requires i < TIERS
  {
    if i == 0 then 120_000 else if i == 1 then 7_200_000 else if i == 2 then 691_200_000 else 0
  }

  // ---------------------------------------------------------------------------
  // Rounding
  // ---------------------------------------------------------------------------

  function FloorTo(ms: int, width: int): (f: int)
    requires width > 0
  {
    var r := Bits.Remainder(ms, width);
    ms - if r < 0 then r + width else r
  }

  // The greatest multiple of the width that is not after ms, for every ms.
  lemma {:induction false} FloorIsMultiple(ms: int, width: int)
    requires width > 0
    ensures FloorTo(ms, width) % width == 0 && FloorTo(ms, width) <= ms < FloorTo(ms, width) + width
  {
    if ms >= 0 {
      MinusRemainder(ms, width);
    } else {
      var r := (-ms) % width;
      MinusRemainder(-ms, width);
      NegatedMultiple(-ms - r, width);
      if r > 0 {
        assert FloorTo(ms, width) == -(-ms - r) - width;
        DropWidth(-(-ms - r), width);
      }
    }
  }

  lemma {:induction false} MinusRemainder(a: nat, w: int)
    requires w > 0
    ensures (a - a % w) % w == 0
  {
    var q := a / w;
    assert a - a % w == q * w;
    MultipleMod(q, w);
  }

  lemma {:induction false} MultipleMod(q: int, w: int)
    requires w > 0
    ensures (q * w) % w == 0
  {
    Bits.DivModUnique(q * w, w, q, 0);
  }

  lemma {:induction false} NegatedMultiple(a: int, w: int)
    requires w > 0 && a % w == 0
    ensures (-a) % w == 0
  {
    var q := a / w;
    assert -a == (-q) * w;
    MultipleMod(-q, w);
  }

  lemma {:induction false} DropWidth(a: int, w: int)
    requires w > 0 && a % w == 0
    ensures (a - w) % w == 0
  {
    var q := a / w;
    assert a - w == (q - 1) * w;
    MultipleMod(q - 1, w);
  }

  // ---------------------------------------------------------------------------
  // Recording and compaction
  // ---------------------------------------------------------------------------

  // `start` is already rounded. A start that is not after the last bucket joins it.
  function Record(h: Tier, start: int, delta: int): (r: Tier) {
    var n := |h|;
    if n > 0 && start <= h[n - 1].start then h[n - 1 := h[n - 1].(delta := h[n - 1].delta + delta)]
    else h + [Bucket(start, delta)]
  }

  // The expired prefix.
  function Expired(h: Tier, now: int, retain: int): (n: nat)
    ensures n <= |h|
  {
    if h == [] || now - h[0].start <= retain then 0 else 1 + Expired(h[1..], now, retain)
  }

  function RecordAll(h: Tier, moved: Tier, width: int): (r: Tier)
    requires width > 0
  {
    if moved == [] then h
    else Record(RecordAll(h, moved[..|moved| - 1], width), FloorTo(moved[|moved| - 1].start, width), moved[|moved| - 1].delta)
  }

  type History = seq<Tier>

  function CompactTier(hs: History, i: nat, now: int): (r: History)
    requires |hs| == TIERS && i + 1 < TIERS
    ensures |r| == TIERS
  {
    var n := Expired(hs[i], now, Retain(i));
    hs[i := hs[i][n..]][i + 1 := RecordAll(hs[i + 1], hs[i][..n], Width(i + 1))]
  }

  function Compacted(hs: History, now: int): (r: History)
    requires |hs| == TIERS
    ensures |r| == TIERS
  {
    CompactTier(CompactTier(CompactTier(hs, 0, now), 1, now), 2, now)
  }

  datatype Series = Series(value: int, history: History, lastUpdate: int, nextCompact: int)

  const EMPTY := Series(0, [[], [], [], []], 0, 0)

  // addWithTime on a time series counter.
  function Added(c: Series, delta: int, ms: int): (r: Series)
    requires |c.history| == TIERS
    ensures |r.history| == TIERS
  {
    if delta == 0 then c
    else
      var hs := c.history[0 := Record(c.history[0], FloorTo(ms, Width(0)), delta)];
      Series(c.value + delta,
             if ms >= c.nextCompact then Compacted(hs, ms) else hs,
             Max(c.lastUpdate, ms),
             if ms >= c.nextCompact then ms + COMPACT_INTERVAL else c.nextCompact)
  }

  // ---------------------------------------------------------------------------
  // Conservation, whatever the clock does
  // ---------------------------------------------------------------------------

  ghost predicate Increasing(h: Tier) {
    forall j, k | 0 <= j < k < |h| :: h[j].start < h[k].start
  }

  // Starts are strictly increasing multiples of the width.
  ghost predicate Ordered(h: Tier, width: int)
    requires width > 0
  {
    Increasing(h) && forall j | 0 <= j < |h| :: h[j].start % width == 0
  }

  function Total(h: Tier): (t: int) {
    if h == [] then 0 else Total(h[..|h| - 1]) + h[|h| - 1].delta
  }

  lemma {:induction false} RecordOrdered(h: Tier, start: int, delta: int, width: int)
    requires width > 0 && Ordered(h, width) && start % width == 0
    ensures Ordered(Record(h, start, delta), width)
  {}

  lemma {:induction false} RecordTotal(h: Tier, start: int, delta: int)
    ensures Total(Record(h, start, delta)) == Total(h) + delta
  {
    var n := |h|;
    var r := Record(h, start, delta);
    if n > 0 && start <= h[n - 1].start {
      assert r[..n - 1] == h[..n - 1];
    } else {
      assert r[..n] == h;
    }
  }

  lemma {:induction false} RecordAllKeeps(h: Tier, moved: Tier, width: int)
    requires width > 0 && Ordered(h, width)
    ensures Ordered(RecordAll(h, moved, width), width)
    ensures Total(RecordAll(h, moved, width)) == Total(h) + Total(moved)
    decreases |moved|
  {
    hide Record, Ordered, FloorTo;
    if moved != [] {
      var m := |moved| - 1;
      RecordAllKeeps(h, moved[..m], width);
      var g := RecordAll(h, moved[..m], width);
      var start := FloorTo(moved[m].start, width);
      FloorIsMultiple(moved[m].start, width);
      RecordOrdered(g, start, moved[m].delta, width);
      RecordTotal(g, start, moved[m].delta);
    }
  }

  lemma {:induction false} TotalSplit(h: Tier, n: nat)
    requires n <= |h|
    ensures Total(h) == Total(h[..n]) + Total(h[n..])
    decreases |h| - n
  {
    if n < |h| {
      TotalSplit(h, n + 1);
      assert h[..n + 1][..n] == h[..n];
      TotalFirst(h[n..]);
      assert h[n..][1..] == h[n + 1..];
    } else {
      assert h[..n] == h;
    }
  }

  lemma {:induction false} TotalFirst(h: Tier)
    requires h != []
    ensures Total(h) == h[0].delta + Total(h[1..])
  {
    if |h| > 1 {
      TotalFirst(h[..|h| - 1]);
      assert h[..|h| - 1][1..] == h[1..][..|h| - 2];
    }
  }

  ghost predicate AllOrdered(hs: History)
    requires |hs| == TIERS
  {
    Ordered(hs[0], Width(0)) && Ordered(hs[1], Width(1)) && Ordered(hs[2], Width(2)) && Ordered(hs[3], Width(3))
  }

  function GrandTotal(hs: History): (t: int)
    requires |hs| == TIERS
  {
    Total(hs[0]) + Total(hs[1]) + Total(hs[2]) + Total(hs[3])
  }

  lemma {:induction false} SuffixOrdered(h: Tier, n: nat, width: int)
    requires width > 0 && Ordered(h, width) && n <= |h|
    ensures Ordered(h[n..], width)
  {}

  lemma {:induction false} CompactTierKeeps(hs: History, i: nat, now: int)
    requires |hs| == TIERS && i + 1 < TIERS && AllOrdered(hs)
    ensures AllOrdered(CompactTier(hs, i, now)) && GrandTotal(CompactTier(hs, i, now)) == GrandTotal(hs)
  {
    hide Ordered, Total, RecordAll, Expired;
    var n := Expired(hs[i], now, Retain(i));
    TotalSplit(hs[i], n);
    SuffixOrdered(hs[i], n, Width(i));
    RecordAllKeeps(hs[i + 1], hs[i][..n], Width(i + 1));
  }

  // The value is the sum of all buckets and every tier stays ordered, for every clock.
  ghost predicate Conserves(c: Series) {
    |c.history| == TIERS && AllOrdered(c.history) && GrandTotal(c.history) == c.value
  }

  lemma {:induction false} AddConserves(c: Series, delta: int, ms: int)
    requires Conserves(c)
    ensures Conserves(Added(c, delta, ms)) && Added(c, delta, ms).value == c.value + delta
  {
    hide Ordered, Total, CompactTier, Record, FloorTo;
    if delta != 0 {
      FloorIsMultiple(ms, Width(0));
      RecordOrdered(c.history[0], FloorTo(ms, Width(0)), delta, Width(0));
      RecordTotal(c.history[0], FloorTo(ms, Width(0)), delta);
      var hs := c.history[0 := Record(c.history[0], FloorTo(ms, Width(0)), delta)];
      CompactTierKeeps(hs, 0, ms);
      CompactTierKeeps(CompactTier(hs, 0, ms), 1, ms);
      CompactTierKeeps(CompactTier(CompactTier(hs, 0, ms), 1, ms), 2, ms);
    }
  }

  // ---------------------------------------------------------------------------
  // What is kept
  // ---------------------------------------------------------------------------

  lemma {:induction false} FirstKept(h: Tier, now: int, retain: int)
    ensures (var n := Expired(h, now, retain); n < |h| ==> now - h[n].start <= retain)
    decreases |h|
  {
    if h != [] && now - h[0].start > retain {
      FirstKept(h[1..], now, retain);
      assert Expired(h, now, retain) < |h| ==> h[1..][Expired(h[1..], now, retain)] == h[Expired(h, now, retain)];
    }
  }

  ghost predicate NoneOlder(h: Tier, t: int) {
    forall j | 0 <= j < |h| :: t <= h[j].start
  }

  lemma {:induction false} CompactTierDrops(hs: History, i: nat, now: int)
    requires |hs| == TIERS && i + 1 < TIERS && AllOrdered(hs)
    ensures NoneOlder(CompactTier(hs, i, now)[i], now - Retain(i))
    ensures forall k | 0 <= k < i :: CompactTier(hs, i, now)[k] == hs[k]
  {
    hide Expired, RecordAll, Retain;
    var n := Expired(hs[i], now, Retain(i));
    FirstKept(hs[i], now, Retain(i));
    assert Increasing(hs[i]);
    assert CompactTier(hs, i, now)[i] == hs[i][n..];
  }

  // An addition that compacts leaves only recent buckets in the tiers: two minutes of seconds, two
  // hours of minutes and eight days of hours, and so at most 121, 121 and 193 buckets that do not
  // start after it.
  lemma {:induction false} CompactionKeepsRecent(c: Series, delta: int, ms: int)
    requires Conserves(c) && delta != 0 && ms >= c.nextCompact
    ensures
      (var hs := Added(c, delta, ms).history;
       && NoneOlder(hs[0], ms - 120_000) && NoneOlder(hs[1], ms - 7_200_000) && NoneOlder(hs[2], ms - 691_200_000)
       && (NoneAfter(hs[0], ms) ==> |hs[0]| <= 121) && (NoneAfter(hs[1], ms) ==> |hs[1]| <= 121) && (NoneAfter(hs[2], ms) ==> |hs[2]| <= 193))
  {
    hide Ordered, Total, CompactTier, Record, FloorTo, NoneOlder, NoneAfter;
    FloorIsMultiple(ms, Width(0));
    RecordOrdered(c.history[0], FloorTo(ms, Width(0)), delta, Width(0));
    var hs := c.history[0 := Record(c.history[0], FloorTo(ms, Width(0)), delta)];
    var h1 := CompactTier(hs, 0, ms);
    var h2 := CompactTier(h1, 1, ms);
    CompactTierDrops(hs, 0, ms);
    CompactTierKeeps(hs, 0, ms);
    CompactTierDrops(h1, 1, ms);
    CompactTierKeeps(h1, 1, ms);
    CompactTierDrops(h2, 2, ms);
    CompactTierKeeps(h2, 2, ms);
    var r := CompactTier(h2, 2, ms);
    assert r == Added(c, delta, ms).history;
    FewBuckets(r[0], 1000, ms, 120);
    FewBuckets(r[1], 60_000, ms, 120);
    FewBuckets(r[2], 3_600_000, ms, 192);
  }

  ghost predicate NoneAfter(h: Tier, t: int) {
    forall j | 0 <= j < |h| :: h[j].start <= t
  }

  lemma {:induction false} StepsApart(h: Tier, width: int, j: nat)
    requires width > 0 && Ordered(h, width) && j < |h|
    ensures h[j].start >= h[0].start + j * width
  {
    if j > 0 {
      StepsApart(h, width, j - 1);
      StartsDiffer(h[j - 1].start, h[j].start, width);
      assert j * width == (j - 1) * width + width;
    }
  }

  lemma {:induction false} StartsDiffer(a: int, b: int, width: int)
    requires width > 0 && a < b && a % width == 0 && b % width == 0
    ensures b >= a + width
  {
    var p, q := a / width, b / width;
    assert a == p * width && b == q * width;
    assert (p + 1) * width == p * width + width;
    if q <= p {
      MulAtMost(q, p, width);
    } else {
      MulAtMost(p + 1, q, width);
    }
  }

  lemma {:induction false} MulAtMost(a: int, b: int, k: int)
    requires a <= b && k > 0
    ensures a * k <= b * k
  {}

  lemma {:induction false} FewBuckets(h: Tier, width: int, now: int, n: nat)
    requires width > 0 && Ordered(h, width) && NoneOlder(h, now - n * width)
    ensures NoneAfter(h, now) ==> |h| <= n + 1
  {
    if h != [] && NoneAfter(h, now) {
      StepsApart(h, width, |h| - 1);
      assert (n + 1) * width == n * width + width;
      if |h| - 1 > n {
        MulAtMost(n + 1, |h| - 1, width);
      }
    }
  }

  // ---------------------------------------------------------------------------
  // Saving and loading
  // ---------------------------------------------------------------------------

  datatype RollUp = NoRollUp | ToSecond | ToMinute | ToHour | ToDay

  datatype Saved = Saved(time: int, delta: int, rollUp: RollUp)

  function RollUpOf(i: nat): (l: RollUp)
    requires i < TIERS
  {
    if i == 0 then ToSecond else if i == 1 then ToMinute else if i == 2 then ToHour else ToDay
  }

  // Records without a roll up go to the finest tier.
  function TierOf(l: RollUp): (i: nat)
    ensures i < TIERS
  {
    match l
    case NoRollUp => 0
    case ToSecond => 0
    case ToMinute => 1
    case ToHour => 2
    case ToDay => 3
  }

  function SaveTier(h: Tier, l: RollUp): (r: seq<Saved>) {
    if h == [] then [] else SaveTier(h[..|h| - 1], l) + [Saved(h[|h| - 1].start, h[|h| - 1].delta, l)]
  }

  // historyPB: the coarsest tier first.
  function Save(hs: History): (r: seq<Saved>)
    requires |hs| == TIERS
  {
    SaveTier(hs[3], RollUpOf(3)) + SaveTier(hs[2], RollUpOf(2)) + SaveTier(hs[1], RollUpOf(1)) + SaveTier(hs[0], RollUpOf(0))
  }

  // The records of one tier, in the order in which they come.
  function Pick(rs: seq<Saved>, i: nat): (r: Tier) {
    if rs == [] then []
    else
      var last := rs[|rs| - 1];
      Pick(rs[..|rs| - 1], i) + if TierOf(last.rollUp) == i then [Bucket(last.time, last.delta)] else []
  }

  // A stable sort by start.
  function InsertSorted(h: Tier, b: Bucket): (r: Tier) {
    if h == [] || h[|h| - 1].start <= b.start then h + [b]
    else InsertSorted(h[..|h| - 1], b) + [h[|h| - 1]]
  }

  function Sorted(h: Tier): (r: Tier) {
    if h == [] then [] else InsertSorted(Sorted(h[..|h| - 1]), h[|h| - 1])
  }

  function LoadTier(rs: seq<Saved>, i: nat): (r: Tier)
    requires i < TIERS
  {
    RecordAll([], Sorted(Pick(rs, i)), Width(i))
  }

  function Loaded(rs: seq<Saved>): (r: History)
    ensures |r| == TIERS
  {
    [LoadTier(rs, 0), LoadTier(rs, 1), LoadTier(rs, 2), LoadTier(rs, 3)]
  }

  function SavedTotal(rs: seq<Saved>): (t: int) {
    if rs == [] then 0 else SavedTotal(rs[..|rs| - 1]) + rs[|rs| - 1].delta
  }

  lemma {:induction false} InsertTotal(h: Tier, b: Bucket)
    ensures Total(InsertSorted(h, b)) == Total(h) + b.delta
  {
    if h == [] || h[|h| - 1].start <= b.start {
      assert (h + [b])[..|h|] == h;
    } else {
      var front := InsertSorted(h[..|h| - 1], b);
      InsertTotal(h[..|h| - 1], b);
      assert (front + [h[|h| - 1]])[..|front|] == front;
    }
  }

  lemma {:induction false} SortedTotal(h: Tier)
    ensures Total(Sorted(h)) == Total(h)
  {
    if h != [] {
      SortedTotal(h[..|h| - 1]);
      InsertTotal(Sorted(h[..|h| - 1]), h[|h| - 1]);
    }
  }

  lemma {:induction false} TotalAppend(h: Tier, b: Bucket)
    ensures Total(h + [b]) == Total(h) + b.delta
  {
    assert (h + [b])[..|h|] == h;
  }

  lemma {:induction false} PickTotal(rs: seq<Saved>)
    ensures Total(Pick(rs, 0)) + Total(Pick(rs, 1)) + Total(Pick(rs, 2)) + Total(Pick(rs, 3)) == SavedTotal(rs)
  {
    hide Total;
    if rs == [] {
      EmptyTotal();
    } else {
      var front, last := rs[..|rs| - 1], rs[|rs| - 1];
      PickTotal(front);
      TotalAppend(Pick(front, TierOf(last.rollUp)), Bucket(last.time, last.delta));
      assert forall i :: i != TierOf(last.rollUp) ==> Pick(rs, i) == Pick(front, i) + [] == Pick(front, i);
    }
  }

  lemma {:induction false} EmptyTotal()
    ensures Total([]) == 0
  {}

  // Loading any records, in any order and with any labels, loses nothing and gives ordered tiers.
  lemma {:induction false} LoadConserves(rs: seq<Saved>)
    ensures AllOrdered(Loaded(rs)) && GrandTotal(Loaded(rs)) == SavedTotal(rs)
  {
    hide Pick, Sorted, RecordAll;
    PickTotal(rs);
    forall i | 0 <= i < TIERS
      ensures Ordered(LoadTier(rs, i), Width(i)) && Total(LoadTier(rs, i)) == Total(Pick(rs, i))
    {
      EmptyTotal();
      SortedTotal(Pick(rs, i));
      RecordAllKeeps([], Sorted(Pick(rs, i)), Width(i));
    }
  }

  lemma {:induction false} PickConcat(a: seq<Saved>, b: seq<Saved>, i: nat)
    ensures Pick(a + b, i) == Pick(a, i) + Pick(b, i)
    decreases |b|
  {
    if b == [] {
      assert a + b == a;
    } else {
      PickConcat(a, b[..|b| - 1], i);
      assert (a + b)[..|a + b| - 1] == a + b[..|b| - 1];
    }
  }

  lemma {:induction false} PickSaved(h: Tier, l: RollUp, i: nat)
    ensures Pick(SaveTier(h, l), i) == if TierOf(l) == i then h else []
    decreases |h|
  {
    if h != [] {
      var front := SaveTier(h[..|h| - 1], l);
      PickSaved(h[..|h| - 1], l, i);
      assert SaveTier(h, l)[..|front|] == front;
      assert h == h[..|h| - 1] + [h[|h| - 1]];
    }
  }

  lemma {:induction false} PickSave(hs: History, i: nat)
    requires |hs| == TIERS && i < TIERS
    ensures Pick(Save(hs), i) == hs[i]
  {
    hide Pick, SaveTier;
    var a, b, c, d := SaveTier(hs[3], RollUpOf(3)), SaveTier(hs[2], RollUpOf(2)), SaveTier(hs[1], RollUpOf(1)), SaveTier(hs[0], RollUpOf(0));
    PickConcat(a + b + c, d, i);
    PickConcat(a + b, c, i);
    PickConcat(a, b, i);
    PickSaved(hs[3], RollUpOf(3), i);
    PickSaved(hs[2], RollUpOf(2), i);
    PickSaved(hs[1], RollUpOf(1), i);
    PickSaved(hs[0], RollUpOf(0), i);
  }

  lemma {:induction false} SortedIsSame(h: Tier)
    requires Increasing(h)
    ensures Sorted(h) == h
    decreases |h|
  {
    hide Increasing, InsertSorted;
    if h != [] {
      var front, b := h[..|h| - 1], h[|h| - 1];
      IncreasingFront(h);
      SortedIsSame(front);
      AppendSorted(front, b);
      assert h == front + [b];
    }
  }

  lemma {:induction false} IncreasingFront(h: Tier)
    requires Increasing(h) && h != []
    ensures Increasing(h[..|h| - 1]) && (|h| > 1 ==> h[..|h| - 1][|h| - 2].start < h[|h| - 1].start)
  {}

  lemma {:induction false} AppendSorted(h: Tier, b: Bucket)
    requires h == [] || h[|h| - 1].start <= b.start
    ensures InsertSorted(h, b) == h + [b]
  {}

  lemma {:induction false} FloorOfMultiple(s: int, width: int)
    requires width > 0 && s % width == 0
    ensures FloorTo(s, width) == s
  {
    FloorIsMultiple(s, width);
    var d := s - FloorTo(s, width);
    assert d % width == 0 by { MultiplesDiffer(s, FloorTo(s, width), width); }
  }

  lemma {:induction false} MultiplesDiffer(a: int, b: int, w: int)
    requires w > 0 && a % w == 0 && b % w == 0
    ensures (a - b) % w == 0
  {
    var p, q := a / w, b / w;
    assert a - b == (p - q) * w;
    MultipleMod(p - q, w);
  }

  lemma {:induction false} RecordAllSame(h: Tier, width: int)
    requires width > 0 && Ordered(h, width)
    ensures RecordAll([], h, width) == h
    decreases |h|
  {
    hide FloorTo;
    if h != [] {
      var n := |h| - 1;
      RecordAllSame(h[..n], width);
      FloorOfMultiple(h[n].start, width);
      assert h == h[..n] + [h[n]];
    }
  }

  // Loading what was saved rebuilds the same tiers.
  lemma {:induction false} LoadOfSave(hs: History)
    requires |hs| == TIERS && AllOrdered(hs)
    ensures Loaded(Save(hs)) == hs
  {
    hide Increasing, Pick, Save, Sorted, RecordAll;
    forall i | 0 <= i < TIERS
      ensures LoadTier(Save(hs), i) == hs[i]
    {
      PickSave(hs, i);
      SortedIsSame(hs[i]);
      RecordAllSame(hs[i], Width(i));
    }
  }

  // ---------------------------------------------------------------------------
  // Queries
  // ---------------------------------------------------------------------------

  // The buckets that start after `from` and not after `to`.
  function SumBetween(h: Tier, from: int, to: int): (t: int) {
    if h == [] then 0
    else SumBetween(h[..|h| - 1], from, to) + if from < h[|h| - 1].start <= to then h[|h| - 1].delta else 0
  }

  function DeltaOf(hs: History, from: int, to: int): (t: int)
    requires |hs| == TIERS
  {
    SumBetween(hs[0], from, to) + SumBetween(hs[1], from, to) + SumBetween(hs[2], from, to) + SumBetween(hs[3], from, to)
  }

  // sort.Search: the first bucket that starts after `from`.
  method Search(h: Tier, from: int) returns (i: nat)
    requires Increasing(h)
    ensures i <= |h| && (forall j | 0 <= j < i :: h[j].start <= from) && (forall j | i <= j < |h| :: h[j].start > from)
  {
    i := 0;
    var j: nat := |h|;
    while i < j
      invariant i <= j <= |h|
      invariant forall k | 0 <= k < i :: h[k].start <= from
      invariant forall k | j <= k < |h| :: h[k].start > from
    {
      var m := (i + j) / 2;
      if !(h[m].start > from) {
        i := m + 1;
      } else {
        j := m;
      }
    }
  }

  lemma {:induction false} SumNext(h: Tier, i: nat, from: int, to: int)
    requires i < |h|
    ensures SumBetween(h[..i + 1], from, to) == SumBetween(h[..i], from, to) + if from < h[i].start <= to then h[i].delta else 0
  {
    assert h[..i + 1][..i] == h[..i];
  }

  lemma {:induction false} SumNothing(h: Tier, from: int, to: int)
    requires forall j | 0 <= j < |h| :: h[j].start <= from
    ensures SumBetween(h, from, to) == 0
  {
    if h != [] {
      SumNothing(h[..|h| - 1], from, to);
    }
  }

  lemma {:induction false} SumDone(h: Tier, i: nat, from: int, to: int)
    requires i <= |h| && forall j | i <= j < |h| :: h[j].start > to
    ensures SumBetween(h, from, to) == SumBetween(h[..i], from, to)
    decreases |h|
  {
    if i < |h| {
      SumDone(h[..|h| - 1], i, from, to);
      assert h[..|h| - 1][..i] == h[..i];
    } else {
      assert h[..i] == h;
    }
  }

  // The search and the loop behind it visit exactly the buckets of the range.
  method SumTier(h: Tier, from: int, to: int) returns (sum: int)
    requires Increasing(h)
    ensures sum == SumBetween(h, from, to)
  {
    var i := Search(h, from);
    sum := 0;
    SumNothing(h[..i], from, to);
    while i < |h| && h[i].start <= to
      invariant i <= |h| && sum == SumBetween(h[..i], from, to)
      invariant forall j | i <= j < |h| :: h[j].start > from
    {
      SumNext(h, i, from, to);
      sum := sum + h[i].delta;
      i := i + 1;
    }
    SumDone(h, i, from, to);
  }

  // ---------------------------------------------------------------------------
  // The counter
  // ---------------------------------------------------------------------------

  lemma {:induction false} ExpiredNext(h: Tier, n: nat, now: int, retain: int)
    requires n < |h| && now - h[n].start > retain
    ensures Expired(h[n..], now, retain) == 1 + Expired(h[n + 1..], now, retain)
  {
    assert h[n..][1..] == h[n + 1..];
  }

  lemma {:induction false} RecordAllNext(h: Tier, moved: Tier, n: nat, width: int)
    requires width > 0 && n < |moved|
    ensures RecordAll(h, moved[..n + 1], width) == Record(RecordAll(h, moved[..n], width), FloorTo(moved[n].start, width), moved[n].delta)
  {
    assert moved[..n + 1][..n] == moved[..n];
  }

  // The latest start, at least m.
  function Latest(h: Tier, m: int): (r: int) {
    if h == [] then m else Max(Latest(h[..|h| - 1], m), h[|h| - 1].start)
  }

  lemma {:induction false} LatestIs(h: Tier, m: int)
    ensures m <= Latest(h, m) && (forall b | b in h :: b.start <= Latest(h, m))
    ensures Latest(h, m) == m || exists b :: b in h && b.start == Latest(h, m)
    decreases |h|
  {
    if h != [] {
      var front, last := h[..|h| - 1], h[|h| - 1];
      LatestIs(front, m);
      assert forall b | b in h :: b in front || b == last;
      assert last in h && forall b | b in front :: b in h;
    }
  }

  lemma {:induction false} InsertSortedSame(h: Tier, b: Bucket, x: Bucket)
    ensures x in InsertSorted(h, b) <==> x in h || x == b
    decreases |h|
  {
    if h != [] && h[|h| - 1].start > b.start {
      InsertSortedSame(h[..|h| - 1], b, x);
      assert h == h[..|h| - 1] + [h[|h| - 1]];
    }
  }

  lemma {:induction false} SortedSame(h: Tier, x: Bucket)
    ensures x in Sorted(h) <==> x in h
    decreases |h|
  {
    hide InsertSorted;
    if h != [] {
      SortedSame(h[..|h| - 1], x);
      InsertSortedSame(Sorted(h[..|h| - 1]), h[|h| - 1], x);
      assert h == h[..|h| - 1] + [h[|h| - 1]];
    }
  }

  lemma {:induction false} PickSame(rs: seq<Saved>, i: nat, x: Bucket)
    ensures x in Pick(rs, i) <==> exists r :: r in rs && TierOf(r.rollUp) == i && x == Bucket(r.time, r.delta)
    decreases |rs|
  {
    hide TierOf;
    if rs != [] {
      var front, last := rs[..|rs| - 1], rs[|rs| - 1];
      PickSame(front, i, x);
      assert rs == front + [last] && last in rs;
    }
  }

  // The latest start among the records of one tier and m.
  lemma {:induction false} LatestOfTier(rs: seq<Saved>, i: nat, m: int)
    ensures
      (var t := Latest(Sorted(Pick(rs, i)), m);
       && m <= t && (forall r | r in rs && TierOf(r.rollUp) == i :: r.time <= t)
       && (t == m || exists r :: r in rs && r.time == t))
  {
    hide Latest, Sorted, Pick, TierOf;
    var h := Sorted(Pick(rs, i));
    var t := Latest(h, m);
    LatestIs(h, m);
    forall r | r in rs && TierOf(r.rollUp) == i
      ensures r.time <= t
    {
      PickSame(rs, i, Bucket(r.time, r.delta));
      SortedSame(Pick(rs, i), Bucket(r.time, r.delta));
    }
    if t != m {
      var b :| b in h && b.start == t;
      SortedSame(Pick(rs, i), b);
      PickSame(rs, i, b);
    }
  }

  function LatestRecord(rs: seq<Saved>): (t: int) {
    Latest(Sorted(Pick(rs, 3)), Latest(Sorted(Pick(rs, 2)), Latest(Sorted(Pick(rs, 1)), Latest(Sorted(Pick(rs, 0)), 0))))
  }

  // Loading leaves the time of the latest record as the time of the last update, or the epoch
  // when no record is later.
  lemma {:induction false} LatestRecordIs(rs: seq<Saved>)
    ensures
      (var t := LatestRecord(rs);
       t >= 0 && (forall r | r in rs :: r.time <= t) && (t == 0 || exists r :: r in rs && r.time == t))
  {
    hide Latest, Sorted, Pick;
    var t0 := Latest(Sorted(Pick(rs, 0)), 0);
    var t1 := Latest(Sorted(Pick(rs, 1)), t0);
    var t2 := Latest(Sorted(Pick(rs, 2)), t1);
    LatestOfTier(rs, 0, 0);
    LatestOfTier(rs, 1, t0);
    LatestOfTier(rs, 2, t1);
    LatestOfTier(rs, 3, t2);
    forall r | r in rs
      ensures r.time <= LatestRecord(rs)
    {
      assert TierOf(r.rollUp) < TIERS;
    }
  }

  // The records with every missing roll up label replaced by that of seconds.
  function Relabeled(rs: seq<Saved>): (r: seq<Saved>) {
    if rs == [] then []
    else
      var last := rs[|rs| - 1];
      Relabeled(rs[..|rs| - 1]) + [if last.rollUp.NoRollUp? then last.(rollUp := RollUpOf(0)) else last]
  }

  lemma {:induction false} PickRelabeled(rs: seq<Saved>, i: nat)
    ensures Pick(Relabeled(rs), i) == Pick(rs, i)
    decreases |rs|
  {
    if rs != [] {
      PickRelabeled(rs[..|rs| - 1], i);
      var last := rs[|rs| - 1];
      var x := if last.rollUp.NoRollUp? then last.(rollUp := RollUpOf(0)) else last;
      var front := Relabeled(rs[..|rs| - 1]);
      assert (front + [x])[..|front + [x]| - 1] == front;
    }
  }

  // Records without a roll up label are merged into the finest tier, as if they had its label.
  lemma {:induction false} NoRollUpIsFinest(rs: seq<Saved>)
    ensures Loaded(Relabeled(rs)) == Loaded(rs) && LatestRecord(Relabeled(rs)) == LatestRecord(rs)
  {
    hide Pick, Sorted, Latest, RecordAll;
    PickRelabeled(rs, 0);
    PickRelabeled(rs, 1);
    PickRelabeled(rs, 2);
    PickRelabeled(rs, 3);
  }

  class Counter {
    var value: int
    var history: History
    var lastUpdate: int
    var nextCompact: int

    ghost predicate Valid()
      reads this
    {
      Conserves(Abs())
    }

    ghost function Abs(): Series
      reads this
    {
      Series(value, history, lastUpdate, nextCompact)
    }

    constructor ()
      ensures Valid() && Abs() == EMPTY
    {
      value, history, lastUpdate, nextCompact := 0, [[], [], [], []], 0, 0;
    }

    method RecordIn(i: nat, ms: int, delta: int)
      requires |history| == TIERS && i < TIERS
      modifies this`history
      ensures history == old(history)[i := Record(old(history)[i], FloorTo(ms, Width(i)), delta)]
    {
      var start := FloorTo(ms, Width(i));
      var h := history[i];
      var n := |h|;
      if n > 0 && start <= h[n - 1].start {
        history := history[i := h[n - 1 := Bucket(h[n - 1].start, h[n - 1].delta + delta)]];
        return;
      }
      history := history[i := h + [Bucket(start, delta)]];
    }

    // The expired prefix of tier i moves on.
    method CompactOne(i: nat, now: int)
      requires |history| == TIERS && i + 1 < TIERS
      modifies this`history
      ensures history == CompactTier(old(history), i, now)
    {
      hide Record, FloorTo, Expired;
      var h := history[i];
      var n: nat := 0;
      ghost var next := history[i + 1];
      assert h[0..] == h;
      while n < |h| && now - h[n].start > Retain(i)
        invariant n <= |h| && |history| == TIERS && n + Expired(h[n..], now, Retain(i)) == Expired(h, now, Retain(i))
        invariant history == old(history)[i + 1 := RecordAll(next, h[..n], Width(i + 1))]
      {
        ExpiredNext(h, n, now, Retain(i));
        RecordAllNext(next, h, n, Width(i + 1));
        RecordIn(i + 1, h[n].start, h[n].delta);
        n := n + 1;
      }
      assert Expired(h[n..], now, Retain(i)) == 0 by { NoneExpired(h[n..], now, Retain(i)); }
      history := history[i := h[n..]];
    }

    method Compact(now: int)
      requires |history| == TIERS
      modifies this`history
      ensures history == Compacted(old(history), now)
    {
      hide CompactTier;
      ghost var hs := history;
      for i := 0 to TIERS - 1
        invariant |history| == TIERS
        invariant i == 0 ==> history == hs
        invariant i == 1 ==> history == CompactTier(hs, 0, now)
        invariant i == 2 ==> history == CompactTier(CompactTier(hs, 0, now), 1, now)
        invariant i == 3 ==> history == Compacted(hs, now)
      {
        CompactOne(i, now);
      }
    }

    method AddWithTime(delta: int, ms: int) returns (v: int)
      requires Valid()
      modifies this
      ensures Valid() && Abs() == Added(old(Abs()), delta, ms) && v == value == old(value) + delta
    {
      hide Compacted, Record, FloorTo, AllOrdered, GrandTotal;
      AddConserves(Abs(), delta, ms);
      if delta == 0 {
        return value;
      }
      RecordIn(0, ms, delta);
      lastUpdate := Max(lastUpdate, ms);
      if ms >= nextCompact {
        Compact(ms);
        nextCompact := ms + COMPACT_INTERVAL;
      }
      value := value + delta;
      v := value;
    }

    // Err when t2 is before t1, which panics.
    method DeltaBetween(t1: int, t2: int) returns (r: Result<int>)
      requires Valid()
      ensures r == if t2 < t1 then Err else Ok(DeltaOf(history, t1, t2))
    {
      hide SumBetween;
      if t2 < t1 {
        return Err;
      }
      var sum0 := SumTier(history[0], t1, t2);
      var sum1 := SumTier(history[1], t1, t2);
      var sum2 := SumTier(history[2], t1, t2);
      var sum3 := SumTier(history[3], t1, t2);
      r := Ok(sum0 + sum1 + sum2 + sum3);
    }

    method HistoryPB() returns (v: int, records: seq<Saved>)
      requires Valid()
      ensures v == value && records == Save(history)
    {
      hide SaveTier, AllOrdered, GrandTotal;
      records := [];
      var i := TIERS;
      while i > 0
        invariant 0 <= i <= TIERS
        invariant i == 4 ==> records == []
        invariant i == 3 ==> records == SaveTier(history[3], RollUpOf(3))
        invariant i == 2 ==> records == SaveTier(history[3], RollUpOf(3)) + SaveTier(history[2], RollUpOf(2))
        invariant i == 1 ==> records == SaveTier(history[3], RollUpOf(3)) + SaveTier(history[2], RollUpOf(2)) + SaveTier(history[1], RollUpOf(1))
        invariant i == 0 ==> records == Save(history)
      {
        i := i - 1;
        var saved := SaveLoop(history[i], RollUpOf(i));
        records := records + saved;
      }
      v := value;
    }

    method LoadHistory(records: seq<Saved>)
      modifies this`history, this`lastUpdate, this`nextCompact
      ensures history == Loaded(records) && nextCompact == 0
      ensures lastUpdate == LatestRecord(records)
    {
      hide Pick, Sorted, RecordAll, Latest;
      var h0, h1, h2, h3 := PickLoop(records);
      lastUpdate, nextCompact := 0, 0;
      var t0, t1, t2, t3;
      t0, lastUpdate := ReloadTier(Sorted(h0), 0, lastUpdate);
      t1, lastUpdate := ReloadTier(Sorted(h1), 1, lastUpdate);
      t2, lastUpdate := ReloadTier(Sorted(h2), 2, lastUpdate);
      t3, lastUpdate := ReloadTier(Sorted(h3), 3, lastUpdate);
      history := [t0, t1, t2, t3];
    }
  }

  lemma {:induction false} NoneExpired(h: Tier, now: int, retain: int)
    requires h == [] || now - h[0].start <= retain
    ensures Expired(h, now, retain) == 0
  {}

  method SaveLoop(h: Tier, l: RollUp) returns (records: seq<Saved>)
    ensures records == SaveTier(h, l)
  {
    records := [];
    for i := 0 to |h|
      invariant records == SaveTier(h[..i], l)
    {
      assert h[..i + 1][..i] == h[..i];
      records := records + [Saved(h[i].start, h[i].delta, l)];
    }
    assert h[..|h|] == h;
  }

  // The first loop of loadHistory: every record goes to the list of its tier.
  method PickLoop(rs: seq<Saved>) returns (h0: Tier, h1: Tier, h2: Tier, h3: Tier)
    ensures h0 == Pick(rs, 0) && h1 == Pick(rs, 1) && h2 == Pick(rs, 2) && h3 == Pick(rs, 3)
  {
    hide TierOf;
    h0, h1, h2, h3 := [], [], [], [];
    for i := 0 to |rs|
      invariant h0 == Pick(rs[..i], 0) && h1 == Pick(rs[..i], 1) && h2 == Pick(rs[..i], 2) && h3 == Pick(rs[..i], 3)
    {
      assert rs[..i + 1][..i] == rs[..i];
      var b := Bucket(rs[i].time, rs[i].delta);
      var t := TierOf(rs[i].rollUp);
      if t == 0 {
        h0 := h0 + [b];
      } else if t == 1 {
        h1 := h1 + [b];
      } else if t == 2 {
        h2 := h2 + [b];
      } else {
        h3 := h3 + [b];
      }
    }
    assert rs[..|rs|] == rs;
  }

  // The second loop: the sorted records of one tier are recorded one after the other.
  method ReloadTier(h: Tier, i: nat, latest: int) returns (r: Tier, last: int)
    requires i < TIERS
    ensures r == RecordAll([], h, Width(i)) && last == Latest(h, latest)
  {
    hide Record, FloorTo;
    r, last := [], latest;
    for j := 0 to |h|
      invariant r == RecordAll([], h[..j], Width(i)) && last == Latest(h[..j], latest)
    {
      assert h[..j + 1][..j] == h[..j];
      r := Record(r, FloorTo(h[j].start, Width(i)), h[j].delta);
      last := Max(last, h[j].start);
    }
    assert h[..|h|] == h;
  }
}

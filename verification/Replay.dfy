/** The two-generation replay cache (pkg/replay/replay.go). Signatures are the hashes of the
    data; times are in any unit. */
module Replay {
  type Signature = nat

  const EMPTY_TAG: string := ""

  datatype Cache = Cache(
    capacity: nat,
    interval: int,
    expireTime: int,
    current: map<Signature, string>,
    previous: map<Signature, string>)

  function NewCache(capacity: nat, interval: int, now: int): (c: Cache) {
    Cache(capacity, interval, now + interval, map[], map[])
  }

  // Both generations are dropped when the current one expired more than an interval ago;
  // a full or expired current generation becomes the previous one.
  function Renewed(c: Cache, now: int): (r: Cache) {
    var d := if now - c.expireTime > c.interval then c.(current := map[], previous := map[], expireTime := now + c.interval) else c;
    if |d.current| >= d.capacity || now > d.expireTime
    then d.(previous := d.current, current := map[], expireTime := now + d.interval)
    else d
  }

  // The same non-empty tag may send the same data again.
  predicate Clashes(existing: string, tag: string) {
    existing == EMPTY_TAG || tag == EMPTY_TAG || existing != tag
  }

  function Checked(c: Cache, sig: Signature, tag: string, now: int): (r: (bool, Cache)) {
    if c.capacity == 0 then (false, c)
    else
      var d := Renewed(c, now);
      if sig in d.current then (Clashes(d.current[sig], tag), d)
      else
        (sig in d.previous && Clashes(d.previous[sig], tag), d.(current := d.current[sig := tag]))
  }

  class ReplayCache {
    var capacity: nat
    var expireTime: int
    var expireInterval: int
    var current: map<Signature, string>
    var previous: map<Signature, string>

    ghost function Abs(): Cache
      reads this
    {
      Cache(capacity, expireInterval, expireTime, current, previous)
    }

    constructor (cap: nat, interval: int, now: int)
      requires interval > 0
      ensures Abs() == NewCache(cap, interval, now)
    {
      capacity, expireInterval := cap, interval;
      current, previous := map[], map[];
      expireTime := now + interval;
    }

    method IsDuplicate(sig: Signature, tag: string, now: int) returns (duplicate: bool)
      modifies this
      ensures (duplicate, Abs()) == Checked(old(Abs()), sig, tag, now)
    {
      if capacity == 0 {
        return false;
      }
      if now - expireTime > expireInterval {
        current, previous := map[], map[];
        expireTime := now + expireInterval;
      }
      if |current| >= capacity || now > expireTime {
        previous := current;
        current := map[];
        expireTime := now + expireInterval;
      }
      if sig in current {
        if current[sig] == EMPTY_TAG || tag == EMPTY_TAG {
          return true;
        }
        return current[sig] != tag;
      }
      current := current[sig := tag];
      if sig in previous {
        if previous[sig] == EMPTY_TAG || tag == EMPTY_TAG {
          return true;
        }
        return previous[sig] != tag;
      }
      return false;
    }
  }

  // ---------------------------------------------------------------------------
  // Calls and runs
  // ---------------------------------------------------------------------------

  datatype Call = Call(sig: Signature, tag: string, time: int)

  function After(c: Cache, calls: seq<Call>): (r: Cache) {
    if calls == [] then c
    else
      var last := calls[|calls| - 1];
      Checked(After(c, calls[..|calls| - 1]), last.sig, last.tag, last.time).1
  }

  lemma {:induction false} InsertGrows(m: map<Signature, string>, sig: Signature, tag: string)
    ensures |m[sig := tag]| <= |m| + 1
  {
    assert m[sig := tag].Keys == m.Keys + {sig};
  }

  // ---------------------------------------------------------------------------
  // Sizes
  // ---------------------------------------------------------------------------

  // Neither generation outgrows the capacity, whatever the clock does.
  ghost predicate Fits(c: Cache) {
    |c.current| <= c.capacity && |c.previous| <= c.capacity
  }

  lemma {:induction false} CheckedFits(c: Cache, sig: Signature, tag: string, now: int)
    requires Fits(c)
    ensures Fits(Checked(c, sig, tag, now).1)
  {
    if c.capacity > 0 {
      InsertGrows(Renewed(c, now).current, sig, tag);
    }
  }

  lemma {:induction false} AlwaysFits(capacity: nat, interval: int, created: int, calls: seq<Call>)
    ensures Fits(After(NewCache(capacity, interval, created), calls))
    decreases |calls|
  {
    if calls != [] {
      var last := calls[|calls| - 1];
      AlwaysFits(capacity, interval, created, calls[..|calls| - 1]);
      CheckedFits(After(NewCache(capacity, interval, created), calls[..|calls| - 1]), last.sig, last.tag, last.time);
    }
  }

  // ---------------------------------------------------------------------------
  // A recent submission is found
  // ---------------------------------------------------------------------------

  // The signature was submitted at t0, and at most n calls came after it.
  ghost predicate Remembers(c: Cache, sig: Signature, t0: int, n: nat) {
    && c.capacity > 0
    && c.expireTime >= t0
    && (sig in c.current || (sig in c.previous && |c.current| <= n && c.expireTime >= t0 + c.interval))
  }

  lemma {:induction false} SubmissionIsRemembered(c: Cache, sig: Signature, tag: string, t0: int)
    requires c.capacity > 0 && c.interval > 0
    ensures Remembers(Checked(c, sig, tag, t0).1, sig, t0, 0)
  {}

  lemma {:induction false} CallKeepsMemory(c: Cache, sig: Signature, t0: int, n: nat, call: Call)
    requires c.interval > 0 && Remembers(c, sig, t0, n) && n < c.capacity && t0 <= call.time <= t0 + c.interval
    ensures Remembers(Checked(c, call.sig, call.tag, call.time).1, sig, t0, n + 1)
  {
    InsertGrows(Renewed(c, call.time).current, call.sig, call.tag);
  }

  lemma {:induction false} RememberedIsDuplicate(c: Cache, sig: Signature, t0: int, n: nat, now: int)
    requires c.interval > 0 && Remembers(c, sig, t0, n) && n < c.capacity && t0 <= now <= t0 + c.interval
    ensures Checked(c, sig, EMPTY_TAG, now).0
  {}

  lemma {:induction false} CallKeepsSetup(c: Cache, call: Call)
    ensures Checked(c, call.sig, call.tag, call.time).1.capacity == c.capacity
    ensures Checked(c, call.sig, call.tag, call.time).1.interval == c.interval
  {}

  ghost predicate Ordered(calls: seq<Call>) {
    forall i, j | 0 <= i < j < |calls| :: calls[i].time <= calls[j].time
  }

  lemma {:induction false} MemoryLasts(c: Cache, sig: Signature, t0: int, calls: seq<Call>)
    requires c.interval > 0 && Remembers(c, sig, t0, 0) && |calls| < c.capacity
    requires forall i | 0 <= i < |calls| :: t0 <= calls[i].time <= t0 + c.interval
    ensures
      (var d := After(c, calls);
       Remembers(d, sig, t0, |calls|) && d.capacity == c.capacity && d.interval == c.interval)
    decreases |calls|
  {
    hide Remembers, Checked;
    if calls != [] {
      var front, last := calls[..|calls| - 1], calls[|calls| - 1];
      MemoryLasts(c, sig, t0, front);
      CallKeepsMemory(After(c, front), sig, t0, |front|, last);
      CallKeepsSetup(After(c, front), last);
    }
  }

  // From any state of the cache: the same data is found at most an interval later, if fewer
  // than `capacity` calls came in between.
  lemma {:induction false} RecentIsFound(c: Cache, sig: Signature, tag: string, t0: int, calls: seq<Call>, now: int)
    requires c.capacity > 0 && c.interval > 0 && |calls| < c.capacity && t0 <= now <= t0 + c.interval
    requires forall i | 0 <= i < |calls| :: t0 <= calls[i].time <= now
    ensures Checked(After(Checked(c, sig, tag, t0).1, calls), sig, EMPTY_TAG, now).0
  {
    hide Remembers, After;
    var d := Checked(c, sig, tag, t0).1;
    SubmissionIsRemembered(c, sig, tag, t0);
    MemoryLasts(d, sig, t0, calls);
    RememberedIsDuplicate(After(d, calls), sig, t0, |calls|, now);
  }

  // ---------------------------------------------------------------------------
  // Which tag decides
  // ---------------------------------------------------------------------------

  // The signature is held with this tag since t0, and at most n calls came after it.
  ghost predicate Holds(c: Cache, sig: Signature, held: string, t0: int, n: nat) {
    && c.capacity > 0
    && c.expireTime >= t0
    && (if sig in c.current then c.current[sig] == held
        else sig in c.previous && c.previous[sig] == held && |c.current| <= n && c.expireTime >= t0 + c.interval)
  }

  // A call for other data keeps the tag.
  lemma {:induction false} CallKeepsTag(c: Cache, sig: Signature, held: string, t0: int, n: nat, call: Call)
    requires c.interval > 0 && Holds(c, sig, held, t0, n) && n < c.capacity && t0 <= call.time <= t0 + c.interval
    requires call.sig != sig
    ensures Holds(Checked(c, call.sig, call.tag, call.time).1, sig, held, t0, n + 1)
  {
    InsertGrows(Renewed(c, call.time).current, call.sig, call.tag);
  }

  lemma {:induction false} TagLasts(c: Cache, sig: Signature, held: string, t0: int, calls: seq<Call>)
    requires c.interval > 0 && Holds(c, sig, held, t0, 0) && |calls| < c.capacity
    requires forall i | 0 <= i < |calls| :: t0 <= calls[i].time <= t0 + c.interval && calls[i].sig != sig
    ensures
      (var d := After(c, calls);
       Holds(d, sig, held, t0, |calls|) && d.capacity == c.capacity && d.interval == c.interval)
    decreases |calls|
  {
    hide Holds, Checked;
    if calls != [] {
      var front, last := calls[..|calls| - 1], calls[|calls| - 1];
      TagLasts(c, sig, held, t0, front);
      CallKeepsTag(After(c, front), sig, held, t0, |front|, last);
      CallKeepsSetup(After(c, front), last);
    }
  }

  lemma {:induction false} HeldDecides(c: Cache, sig: Signature, held: string, t0: int, n: nat, tag: string, now: int)
    requires c.interval > 0 && Holds(c, sig, held, t0, n) && n < c.capacity && t0 <= now <= t0 + c.interval
    ensures Checked(c, sig, tag, now).0 <==> held == "" || tag == "" || held != tag
  {}

  // From any state of the cache, data comes with tag t1, and again with tag t2 at most an
  // interval later, with fewer than `capacity` calls in between, all for other data. The second
  // answer is a duplicate if and only if one of the two tags is empty or they differ. The first
  // of the two is t1, unless the current generation already had the data when t1 came and was
  // neither full nor expired: then the tag that it had stays and decides.
  lemma {:induction false} TagsDecide(c: Cache, sig: Signature, t1: string, t0: int, calls: seq<Call>, t2: string, now: int)
    requires c.capacity > 0 && c.interval > 0 && |calls| < c.capacity && t0 <= now <= t0 + c.interval
    requires forall i | 0 <= i < |calls| :: t0 <= calls[i].time <= now && calls[i].sig != sig
    ensures
      (var answer := Checked(After(Checked(c, sig, t1, t0).1, calls), sig, t2, now).0;
       if sig in c.current && |c.current| < c.capacity && t0 <= c.expireTime
       then answer <==> c.current[sig] == "" || t2 == "" || c.current[sig] != t2
       else answer <==> t1 == "" || t2 == "" || t1 != t2)
  {
    hide Holds, After;
    var d := Checked(c, sig, t1, t0).1;
    var held := if sig in c.current && |c.current| < c.capacity && t0 <= c.expireTime then c.current[sig] else t1;
    SubmissionHolds(c, sig, t1, t0);
    TagLasts(d, sig, held, t0, calls);
    HeldDecides(After(d, calls), sig, held, t0, |calls|, t2, now);
  }

  lemma {:induction false} SubmissionHolds(c: Cache, sig: Signature, tag: string, t0: int)
    requires c.capacity > 0 && c.interval > 0
    ensures Holds(Checked(c, sig, tag, t0).1, sig,
                  if sig in c.current && |c.current| < c.capacity && t0 <= c.expireTime then c.current[sig] else tag, t0, 0)
  {}

  // ---------------------------------------------------------------------------
  // What is found was submitted recently
  // ---------------------------------------------------------------------------

  ghost predicate SubmittedSince(calls: seq<Call>, sig: Signature, tag: string, t: int) {
    exists i :: 0 <= i < |calls| && calls[i].sig == sig && calls[i].tag == tag && calls[i].time >= t
  }

  // The current generation is younger than one interval, the previous one than three.
  ghost predicate Justified(c: Cache, calls: seq<Call>, now: int) {
    && c.expireTime - c.interval <= now
    && (forall s | s in c.current :: SubmittedSince(calls, s, c.current[s], c.expireTime - c.interval))
    && (forall s | s in c.previous :: SubmittedSince(calls, s, c.previous[s], c.expireTime - 3 * c.interval))
  }

  lemma {:induction false} RenewedJustified(c: Cache, calls: seq<Call>, now: int)
    requires c.interval > 0 && Justified(c, calls, now)
    ensures Justified(Renewed(c, now), calls, now) && now <= Renewed(c, now).expireTime && Renewed(c, now).interval == c.interval
  {
    forall s | s in c.current && now - c.expireTime <= c.interval
      ensures SubmittedSince(calls, s, c.current[s], now + c.interval - 3 * c.interval)
    {
      Earlier(calls, s, c.current[s], c.expireTime - c.interval, now + c.interval - 3 * c.interval);
    }
  }

  lemma {:induction false} Earlier(calls: seq<Call>, s: Signature, tag: string, t: int, u: int)
    requires SubmittedSince(calls, s, tag, t) && u <= t
    ensures SubmittedSince(calls, s, tag, u)
  {
    var i :| 0 <= i < |calls| && calls[i].sig == s && calls[i].tag == tag && calls[i].time >= t;
    assert calls[i].time >= u;
  }

  lemma {:induction false} MoreCalls(calls: seq<Call>, call: Call, s: Signature, tag: string, t: int)
    requires SubmittedSince(calls, s, tag, t)
    ensures SubmittedSince(calls + [call], s, tag, t)
  {
    var i :| 0 <= i < |calls| && calls[i].sig == s && calls[i].tag == tag && calls[i].time >= t;
    assert (calls + [call])[i].sig == s;
  }

  lemma {:induction false} NewCall(calls: seq<Call>, call: Call, t: int)
    requires t <= call.time
    ensures SubmittedSince(calls + [call], call.sig, call.tag, t)
  {
    assert (calls + [call])[|calls|].sig == call.sig;
  }

  // The data came since then, with an empty tag or another one than now.
  ghost predicate JustifiedBy(calls: seq<Call>, call: Call, t: int) {
    exists tag :: SubmittedSince(calls, call.sig, tag, t) && (tag == "" || call.tag == "" || tag != call.tag)
  }

  lemma {:induction false} CallJustified(c: Cache, calls: seq<Call>, call: Call)
    requires c.interval > 0 && c.capacity > 0 && Justified(c, calls, call.time)
    ensures Justified(Checked(c, call.sig, call.tag, call.time).1, calls + [call], call.time)
    ensures Checked(c, call.sig, call.tag, call.time).0 ==> JustifiedBy(calls, call, call.time - 3 * c.interval)
  {
    hide SubmittedSince, Renewed;
    RenewedJustified(c, calls, call.time);
    var d := Renewed(c, call.time);
    NewCall(calls, call, d.expireTime - d.interval);
    forall s | s in d.current
      ensures SubmittedSince(calls + [call], s, d.current[s], d.expireTime - d.interval)
    {
      MoreCalls(calls, call, s, d.current[s], d.expireTime - d.interval);
    }
    forall s | s in d.previous
      ensures SubmittedSince(calls + [call], s, d.previous[s], d.expireTime - 3 * d.interval)
    {
      MoreCalls(calls, call, s, d.previous[s], d.expireTime - 3 * d.interval);
    }
    if call.sig in d.current {
      Earlier(calls, call.sig, d.current[call.sig], d.expireTime - d.interval, call.time - 3 * c.interval);
    } else if call.sig in d.previous {
      Earlier(calls, call.sig, d.previous[call.sig], d.expireTime - 3 * d.interval, call.time - 3 * c.interval);
    }
  }

  lemma {:induction false} RunJustified(capacity: nat, interval: int, created: int, calls: seq<Call>, now: int)
    requires capacity > 0 && interval > 0 && Ordered(calls) && forall i | 0 <= i < |calls| :: created <= calls[i].time <= now
    requires created <= now
    ensures
      (var c := After(NewCache(capacity, interval, created), calls);
       Justified(c, calls, now) && c.capacity == capacity && c.interval == interval)
    decreases |calls|
  {
    hide SubmittedSince, Checked;
    if calls != [] {
      var front, last := calls[..|calls| - 1], calls[|calls| - 1];
      RunJustified(capacity, interval, created, front, last.time);
      var c := After(NewCache(capacity, interval, created), front);
      CallJustified(c, front, last);
      CallKeepsSetup(c, last);
      assert front + [last] == calls;
    }
  }

  // In every run whose clock does not move backwards, a positive answer means that the same
  // signature was submitted within the last three intervals, and not with the same tag.
  lemma {:induction false} FoundWasSubmitted(capacity: nat, interval: int, created: int, calls: seq<Call>, call: Call)
    requires capacity > 0 && interval > 0 && Ordered(calls) && created <= call.time
    requires forall i | 0 <= i < |calls| :: created <= calls[i].time <= call.time
    requires Checked(After(NewCache(capacity, interval, created), calls), call.sig, call.tag, call.time).0
    ensures exists i :: 0 <= i < |calls| && calls[i].sig == call.sig && calls[i].time >= call.time - 3 * interval
                     && (calls[i].tag == "" || call.tag == "" || calls[i].tag != call.tag)
  {
    hide SubmittedSince, Checked, Justified, After;
    RunJustified(capacity, interval, created, calls, call.time);
    CallJustified(After(NewCache(capacity, interval, created), calls), calls, call);
    var tag :| SubmittedSince(calls, call.sig, tag, call.time - 3 * interval) && (tag == "" || call.tag == "" || tag != call.tag);
    SubmissionAt(calls, call.sig, tag, call.time - 3 * interval);
  }

  lemma {:induction false} SubmissionAt(calls: seq<Call>, sig: Signature, tag: string, t: int)
    requires SubmittedSince(calls, sig, tag, t)
    ensures exists i :: 0 <= i < |calls| && calls[i].sig == sig && calls[i].tag == tag && calls[i].time >= t
  {}

  // ---------------------------------------------------------------------------
  // The capacity is sharp
  // ---------------------------------------------------------------------------

  // n submissions of new data at one time.
  function Fill(from: nat, n: nat, now: int): (calls: seq<Call>)
    ensures |calls| == n
  {
    if n == 0 then [] else Fill(from, n - 1, now) + [Call(from + n - 1, EMPTY_TAG, now)]
  }

  function Filled(from: nat, n: nat): (m: map<Signature, string>)
    ensures |m| == n && forall k: nat :: k in m <==> from <= k < from + n
  {
    if n == 0 then map[] else Filled(from, n - 1)[from + n - 1 := EMPTY_TAG]
  }

  predicate Unexpired(c: Cache, now: int) { c.capacity > 0 && c.interval > 0 && now <= c.expireTime }

  // While there is room, new data goes into the current generation.
  lemma {:induction false} FillCurrent(c: Cache, from: nat, n: nat, now: int)
    requires Unexpired(c, now) && n <= c.capacity && c.current == map[]
    ensures After(c, Fill(from, n, now)) == c.(current := Filled(from, n))
    decreases n
  {
    if n > 0 {
      FillCurrent(c, from, n - 1, now);
      assert Fill(from, n, now)[..n - 1] == Fill(from, n - 1, now);
    }
  }

  // A full cache first makes its current generation the previous one.
  lemma {:induction false} FillFull(c: Cache, from: nat, n: nat, now: int)
    requires Unexpired(c, now) && |c.current| == c.capacity && n > 0
    ensures After(c, Fill(from, n, now)) == After(Renewed(c, now), Fill(from, n, now))
    decreases n
  {
    assert Fill(from, n, now)[..n - 1] == Fill(from, n - 1, now);
    if n > 1 {
      FillFull(c, from, n - 1, now);
    }
  }

  // With as many calls in between as the capacity, whatever it is, a submission can already
  // be forgotten: the last of the first `capacity` submissions is, after as many others.
  lemma {:induction false} CapacityIsSharp(capacity: nat, interval: int, now: int)
    requires capacity > 0 && interval > 0
    ensures
      (var c := After(NewCache(capacity, interval, now), Fill(0, capacity, now));
       var calls := Fill(capacity, capacity, now);
       && capacity - 1 in c.current
       && |calls| == capacity && (forall i | 0 <= i < |calls| :: calls[i].sig != capacity - 1)
       && !Checked(After(c, calls), capacity - 1, EMPTY_TAG, now).0)
  {
    hide After, Filled, Fill;
    FillCurrent(NewCache(capacity, interval, now), 0, capacity, now);
    var c := NewCache(capacity, interval, now).(current := Filled(0, capacity));
    FillFull(c, capacity, capacity, now);
    FillCurrent(Renewed(c, now), capacity, capacity, now);
    FillSigs(capacity, capacity, now);
  }

  lemma {:induction false} FillSigs(from: nat, n: nat, now: int)
    ensures forall i | 0 <= i < n :: Fill(from, n, now)[i].sig == from + i
  {
    if n > 0 {
      FillSigs(from, n - 1, now);
    }
  }
}

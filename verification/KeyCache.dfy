/** The keys that a password gives over time and their two caches (pkg/cipher/cache.go,
    pkg/cipher/keygen.go, pkg/cipher/api.go). Times are nanoseconds. */
module KeyCache {
  import opened Bytes
  import Bits

  const KEY_REFRESH_INTERVAL := 120_000_000_000
  const CACHE_VALID_INTERVAL := 30_000_000_000
  const SECOND := 1_000_000_000

  type Key = seq<byte>

  // The key derivation: a password and the seconds of a rounded time.
  type Kdf = (string, int) -> Key

  // time.Round: to the nearest multiple, halfway up.
  function Round(t: int): (r: int) {
    var m := t % KEY_REFRESH_INTERVAL;
    if m + m < KEY_REFRESH_INTERVAL then t - m else t + KEY_REFRESH_INTERVAL - m
  }

  function Epoch(t: int): (e: int) {
    Round(t) / SECOND
  }

  // The three keys around a time; an empty password has none.
  function Derived(kdf: Kdf, password: string, now: int): (r: Result<seq<Key>>) {
    if password == "" then Err
    else
      Ok([kdf(password, (Round(now) - KEY_REFRESH_INTERVAL) / SECOND), kdf(password, Round(now) / SECOND), kdf(password, (Round(now) + KEY_REFRESH_INTERVAL) / SECOND)])
  }

  // ---------------------------------------------------------------------------
  // Rounding
  // ---------------------------------------------------------------------------

  lemma {:induction false} RoundIsMultiple(t: int)
    ensures Round(t) % KEY_REFRESH_INTERVAL == 0
    ensures t - KEY_REFRESH_INTERVAL / 2 < Round(t) <= t + KEY_REFRESH_INTERVAL / 2
  {
    var q, m := t / KEY_REFRESH_INTERVAL, t % KEY_REFRESH_INTERVAL;
    Bits.DivModUnique(q * KEY_REFRESH_INTERVAL, KEY_REFRESH_INTERVAL, q, 0);
    Bits.DivModUnique((q + 1) * KEY_REFRESH_INTERVAL, KEY_REFRESH_INTERVAL, q + 1, 0);
  }

  // The epoch determines the rounded time, because every multiple is a whole second.
  lemma {:induction false} EpochDetermines(t: int, u: int)
    requires Epoch(t) == Epoch(u)
    ensures Round(t) == Round(u)
  {
    WholeSeconds(t);
    WholeSeconds(u);
  }

  lemma {:induction false} WholeSeconds(t: int)
    ensures Round(t) == Epoch(t) * SECOND
  {
    RoundIsMultiple(t);
    var q := Round(t) / KEY_REFRESH_INTERVAL;
    assert Round(t) == q * KEY_REFRESH_INTERVAL == (q * 120) * SECOND;
    Bits.DivModUnique(Round(t), SECOND, q * 120, 0);
  }

  // ---------------------------------------------------------------------------
  // Clocks that differ
  // ---------------------------------------------------------------------------

  // The rounded times whose keys a receiver tries.
  predicate Tries(now: int, rounded: int) {
    rounded == Round(now) - KEY_REFRESH_INTERVAL || rounded == Round(now) || rounded == Round(now) + KEY_REFRESH_INTERVAL
  }

  lemma {:induction false} MultiplesApart(a: int, b: int)
    requires a % KEY_REFRESH_INTERVAL == 0 && b % KEY_REFRESH_INTERVAL == 0
    ensures exists k :: a - b == k * KEY_REFRESH_INTERVAL
  {
    var p, q := a / KEY_REFRESH_INTERVAL, b / KEY_REFRESH_INTERVAL;
    assert a - b == (p - q) * KEY_REFRESH_INTERVAL;
  }

  // When two clocks differ by at most the refresh interval, the key of one is among the three
  // that the other tries. When they differ by two intervals or more, it never is.
  lemma {:induction false} ClockTolerance(client: int, server: int)
    ensures -KEY_REFRESH_INTERVAL <= client - server <= KEY_REFRESH_INTERVAL ==> Tries(server, Round(client))
    ensures client - server >= 2 * KEY_REFRESH_INTERVAL || server - client >= 2 * KEY_REFRESH_INTERVAL ==> !Tries(server, Round(client))
  {
    hide Round;
    RoundIsMultiple(client);
    RoundIsMultiple(server);
    MultiplesApart(Round(client), Round(server));
    var k :| Round(client) - Round(server) == k * KEY_REFRESH_INTERVAL;
  }

  // The sender uses the second of its three keys.
  lemma {:induction false} SenderKeyIsTried(kdf: Kdf, password: string, client: int, server: int)
    requires password != "" && -KEY_REFRESH_INTERVAL <= client - server <= KEY_REFRESH_INTERVAL
    ensures Derived(kdf, password, client).value[1] in Derived(kdf, password, server).value
  {
    hide Round;
    ClockTolerance(client, server);
    var ks := Derived(kdf, password, server).value;
    assert ks[0] in ks && ks[1] in ks && ks[2] in ks;
  }

  // ---------------------------------------------------------------------------
  // The caches
  // ---------------------------------------------------------------------------

  datatype Entry = Entry(keys: seq<Key>, createTime: int, epoch: int)

  // What an entry of a password is: the keys of the time at which it was made.
  ghost predicate Genuine(kdf: Kdf, password: string, e: Entry) {
    Derived(kdf, password, e.createTime) == Ok(e.keys) && e.epoch == Epoch(e.createTime)
  }

  lemma {:induction false} SameEpochSameKeys(kdf: Kdf, password: string, e: Entry, now: int)
    requires Genuine(kdf, password, e) && e.epoch == Epoch(now)
    ensures Derived(kdf, password, now) == Ok(e.keys)
  {
    hide Round;
    EpochDetermines(e.createTime, now);
  }

  // saltFromTime and newBlockCipherList.
  method NewBlockCipherList(kdf: Kdf, password: string, now: int) returns (r: Result<seq<Key>>)
    ensures r == Derived(kdf, password, now)
  {
    var rounded := Round(now);
    var times := [rounded - KEY_REFRESH_INTERVAL, rounded, rounded + KEY_REFRESH_INTERVAL];
    var keys: seq<Key> := [];
    for i := 0 to 3
      invariant |keys| == i
      invariant i > 0 ==> password != ""
      invariant forall j | 0 <= j < i :: keys[j] == kdf(password, times[j] / SECOND)
    {
      if |password| == 0 {
        return Err;
      }
      keys := keys + [kdf(password, times[i] / SECOND)];
    }
    assert keys == [kdf(password, times[0] / SECOND), kdf(password, times[1] / SECOND), kdf(password, times[2] / SECOND)];
    return Ok(keys);
  }

  type Entries = map<string, Entry>

  ghost predicate AllGenuine(kdf: Kdf, entries: Entries) {
    forall p | p in entries :: Genuine(kdf, p, entries[p])
  }

  // getCachedCiphers: an entry serves as long as its epoch is the present one and it is not
  // too old. `jitter` shortens its life at random.
  function LookedUp(kdf: Kdf, entries: Entries, password: string, now: int, jitter: int): (r: (Result<Entry>, Entries)) {
    if password in entries && entries[password].epoch == Epoch(now) && entries[password].createTime + CACHE_VALID_INTERVAL - jitter >= now
    then (Ok(entries[password]), entries)
    else
      match Derived(kdf, password, now)
      case Err => (Err, entries)
      case Ok(keys) =>
        var e := Entry(keys, now, Epoch(now));
        (Ok(e), entries[password := e])
  }

  // The answer of a lookup, without the bookkeeping.
  function KeysOf(r: Result<Entry>): (k: Result<seq<Key>>) {
    if r.Err? then Err else Ok(r.value.keys)
  }

  lemma {:induction false} LookUpIsGenuine(kdf: Kdf, entries: Entries, password: string, now: int, jitter: int)
    requires AllGenuine(kdf, entries)
    ensures
      (var (r, after) := LookedUp(kdf, entries, password, now, jitter);
       && KeysOf(r) == Derived(kdf, password, now) && AllGenuine(kdf, after)
       && (r.Ok? ==> Genuine(kdf, password, r.value) && r.value.epoch == Epoch(now)))
  {
    hide Derived, Epoch;
    if password in entries && entries[password].epoch == Epoch(now) {
      SameEpochSameKeys(kdf, password, entries[password], now);
    }
  }

  datatype Call = Call(password: string, now: int, jitter: int)

  function After(kdf: Kdf, calls: seq<Call>): (r: Entries) {
    if calls == [] then map[]
    else
      var c := calls[|calls| - 1];
      LookedUp(kdf, After(kdf, calls[..|calls| - 1]), c.password, c.now, c.jitter).1
  }

  lemma {:induction false} AfterIsGenuine(kdf: Kdf, calls: seq<Call>)
    ensures AllGenuine(kdf, After(kdf, calls))
    decreases |calls|
  {
    hide LookedUp, Genuine;
    if calls != [] {
      var c := calls[|calls| - 1];
      AfterIsGenuine(kdf, calls[..|calls| - 1]);
      LookUpIsGenuine(kdf, After(kdf, calls[..|calls| - 1]), c.password, c.now, c.jitter);
    }
  }

  // After any history of calls, for any passwords and any clock, a lookup answers what a
  // fresh derivation gives.
  lemma {:induction false} CacheIsTransparent(kdf: Kdf, calls: seq<Call>, c: Call)
    ensures KeysOf(LookedUp(kdf, After(kdf, calls), c.password, c.now, c.jitter).0) == Derived(kdf, c.password, c.now)
  {
    hide LookedUp, Derived, After, AllGenuine, KeysOf;
    AfterIsGenuine(kdf, calls);
    LookUpIsGenuine(kdf, After(kdf, calls), c.password, c.now, c.jitter);
  }

  lemma {:induction false} OthersKeepEntry(kdf: Kdf, entries: Entries, password: string, call: Call)
    requires password in entries && call.password != password
    ensures
      (var after := LookedUp(kdf, entries, call.password, call.now, call.jitter).1;
       password in after && after[password] == entries[password])
  {
    hide Derived, Epoch;
  }

  // The lookups that follow on some entries.
  function Afterwards(kdf: Kdf, entries: Entries, calls: seq<Call>): (r: Entries) {
    if calls == [] then entries
    else
      var c := calls[|calls| - 1];
      LookedUp(kdf, Afterwards(kdf, entries, calls[..|calls| - 1]), c.password, c.now, c.jitter).1
  }

  lemma {:induction false} EntryStays(kdf: Kdf, entries: Entries, password: string, calls: seq<Call>)
    requires password in entries && forall i | 0 <= i < |calls| :: calls[i].password != password
    ensures password in Afterwards(kdf, entries, calls) && Afterwards(kdf, entries, calls)[password] == entries[password]
    decreases |calls|
  {
    hide LookedUp;
    if calls != [] {
      var front, c := calls[..|calls| - 1], calls[|calls| - 1];
      EntryStays(kdf, entries, password, front);
      OthersKeepEntry(kdf, Afterwards(kdf, entries, front), password, c);
    }
  }

  // The cache saves derivations: an entry made at t0 answers a lookup of its password, with any
  // lookups of others in between, if and only if the lookup comes in the same epoch and no later
  // than 30 s less the jitter after t0; any other lookup derives the keys anew.
  lemma {:induction false} RecentLookUpHits(kdf: Kdf, entries: Entries, password: string, t0: int, calls: seq<Call>, now: int, jitter: int)
    requires password in entries && entries[password].createTime == t0 && entries[password].epoch == Epoch(t0) && now != t0 && password != ""
    requires forall i | 0 <= i < |calls| :: calls[i].password != password
    ensures
      (var (r, after) := LookedUp(kdf, Afterwards(kdf, entries, calls), password, now, jitter);
       && r.Ok? && r.value == after[password]
       && (r.value == entries[password] <==> Epoch(now) == Epoch(t0) && now - t0 <= CACHE_VALID_INTERVAL - jitter)
       && (r.value != entries[password] ==> r.value.createTime == now))
  {
    hide Epoch, Afterwards;
    EntryStays(kdf, entries, password, calls);
  }

  // blockCipherCache.
  class CipherCache {
    const kdf: Kdf
    var entries: Entries

    ghost predicate Valid()
      reads this
    {
      AllGenuine(kdf, entries)
    }

    constructor (k: Kdf)
      ensures kdf == k && Valid() && entries == map[]
    {
      kdf := k;
      entries := map[];
    }

    method GetCachedCiphers(password: string, now: int, jitter: int) returns (r: Result<Entry>)
      requires Valid()
      modifies this
      ensures Valid() && (r, entries) == LookedUp(kdf, old(entries), password, now, jitter)
    {
      hide Derived, Epoch, Genuine;
      LookUpIsGenuine(kdf, entries, password, now, jitter);
      var ok := password in entries;
      if ok {
        var entry := entries[password];
        if entry.epoch != Epoch(now) || entry.createTime + CACHE_VALID_INTERVAL - jitter < now {
          ok := false;
        }
      }
      if ok {
        return Ok(entries[password]);
      }
      var keys := NewBlockCipherList(kdf, password, now);
      if keys.Err? {
        return Err;
      }
      var entry := Entry(keys.value, now, Epoch(now));
      entries := entries[password := entry];
      return Ok(entry);
    }
  }

  // StatelessDecryptor: keeps the entry of its password as long as the epoch stays the same.
  class StatelessDecryptor {
    const password: string
    const cache: CipherCache
    var ciphers: Option<Entry>

    ghost predicate Valid()
      reads this, cache
    {
      cache.Valid() && (ciphers.Some? ==> Genuine(cache.kdf, password, ciphers.value))
    }

    constructor (p: string, c: CipherCache)
      requires p != "" && c.Valid()
      ensures password == p && cache == c && Valid() && ciphers.None?
    {
      password, cache, ciphers := p, c, None;
    }

    // The keys that tryDecryptAt tries are those of a fresh derivation.
    method KeysAt(now: int, jitter: int) returns (r: Result<seq<Key>>)
      requires Valid()
      modifies this, cache
      ensures Valid() && r == Derived(cache.kdf, password, now)
      ensures old(ciphers.Some? && ciphers.value.epoch == Epoch(now)) ==> ciphers == old(ciphers) && cache.entries == old(cache.entries)
    {
      hide Derived, Epoch, LookedUp, Genuine;
      if ciphers.None? || ciphers.value.epoch != Epoch(now) {
        LookUpIsGenuine(cache.kdf, cache.entries, password, now, jitter);
        var entry := cache.GetCachedCiphers(password, now, jitter);
        if entry.Err? {
          return Err;
        }
        ciphers := Some(entry.value);
      }
      SameEpochSameKeys(cache.kdf, password, ciphers.value, now);
      return Ok(ciphers.value.keys);
    }
  }
}

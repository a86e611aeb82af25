/** The ring-buffer deque (internal/deque/deque.go), in place on an array, refining the same
    operations on a plain sequence. */
module Deques {
  import opened Bits

  const MIN_CAPACITY: nat := 16

  predicate IsPow2(n: nat) {
    n == 1 || (n > 1 && n % 2 == 0 && IsPow2(n / 2))
  }

  lemma {:induction false} DoublePow2(n: nat)
    requires IsPow2(n)
    ensures IsPow2(2 * n)
  {}

  // The bitwise modulus of the source: keeping the low k bits is the remainder by 2^k, also
  // for a negative number in two's complement.
  lemma {:induction false} MaskIsMod(w: Word, k: nat)
    requires k <= |w|
    ensures Value(w[..k]) == Value(w) % Pow2(k)
    decreases k
  {
    if k == 0 {
      assert w[..0] == [];
    } else {
      MaskIsMod(w[1..], k - 1);
      assert w[..k][1..] == w[1..][..k - 1];
      DoubleMod(Value(w[1..]), if w[0] then 1 else 0, Pow2(k - 1));
    }
  }

  lemma {:induction false} DoubleMod(v: nat, b: nat, p: nat)
    requires p > 0 && b <= 1
    ensures (b + 2 * v) % (2 * p) == b + 2 * (v % p)
  {
    var q, r := v / p, v % p;
    assert b + 2 * v == q * (2 * p) + (b + 2 * r) by { assert v == q * p + r; }
    DivModUnique(b + 2 * v, 2 * p, q, b + 2 * r);
  }

  // ---------------------------------------------------------------------------
  // The bitwise modulus
  // ---------------------------------------------------------------------------

  const INT_BITS: nat := 64

  // The largest power of two that an int holds.
  const MAX_CAPACITY: nat := Pow2(62)

  // An int in two's complement.
  function IntWord(x: int): (w: Word)
    ensures |w| == INT_BITS
  {
    if x >= 0 then FromValue(x, INT_BITS) else Neg(FromValue(-x, INT_BITS))
  }

  // x & (len - 1), as next, prev, At, Set, Clear and Rotate compute their indexes.
  function Masked(x: int, len: nat): (m: nat) {
    Value(And(IntWord(x), Dec(IntWord(len))))
  }

  lemma {:induction false} FromValueMod(v: nat, n: nat)
    ensures Value(FromValue(v, n)) == v % Pow2(n)
  {
    if n > 0 {
      FromValueMod(v / 2, n - 1);
      assert FromValue(v, n)[1..] == FromValue(v / 2, n - 1);
      DoubleMod(v / 2, v % 2, Pow2(n - 1));
    }
  }

  lemma {:induction false} IntWordValue(x: int)
    ensures Value(IntWord(x)) == x % Pow2(INT_BITS)
  {
    hide Value, Pow2, FromValue, Neg;
    var p := Pow2(INT_BITS);
    if x >= 0 {
      FromValueMod(x, INT_BITS);
    } else {
      FromValueMod(-x, INT_BITS);
      NegValue(FromValue(-x, INT_BITS));
      var q, r := (-x) / p, (-x) % p;
      assert x == (-q) * p - r;
      if r == 0 {
        DivModUnique(x, p, -q, 0);
      } else {
        assert x == (-q - 1) * p + (p - r);
        DivModUnique(x, p, -q - 1, p - r);
      }
    }
  }

  // The mask is the number that the source writes.
  lemma {:induction false} ModBits(len: nat)
    requires 0 < len <= MAX_CAPACITY
    ensures Value(Dec(IntWord(len))) == len - 1
  {
    hide Value, Pow2, FromValue, Dec;
    DecValue(IntWord(len));
    IntWordValue(len);
    Pow2Larger(62, INT_BITS);
    DivModUnique(len, Pow2(INT_BITS), 0, len);
  }

  lemma {:induction false} Pow2Larger(i: nat, j: nat)
    requires i < j
    ensures Pow2(i) < Pow2(j)
  {
    if i + 1 < j {
      Pow2Larger(i, j - 1);
    }
  }

  // k ones below zeros.
  function LowOnes(n: nat, k: nat): (w: Word)
    ensures |w| == n
  {
    seq(n, i => i < k)
  }

  lemma {:induction false} PowerMask(n: nat, k: nat)
    requires k < n
    ensures Dec(FromValue(Pow2(k), n)) == LowOnes(n, k)
    decreases k
  {
    if k == 0 {
      ZeroWord(n - 1);
      assert FromValue(1, n) == [true] + Zeros(n - 1);
    } else {
      PowerMask(n - 1, k - 1);
      assert FromValue(Pow2(k), n) == [false] + FromValue(Pow2(k - 1), n - 1);
      assert FromValue(Pow2(k), n)[1..] == FromValue(Pow2(k - 1), n - 1);
      assert LowOnes(n, k) == [true] + LowOnes(n - 1, k - 1);
    }
  }

  lemma {:induction false} ZeroWord(n: nat)
    ensures FromValue(0, n) == Zeros(n)
  {
    if n > 0 {
      ZeroWord(n - 1);
      assert Zeros(n) == [false] + Zeros(n - 1);
    }
  }

  lemma {:induction false} LowBits(w: Word, k: nat)
    requires k <= |w|
    ensures Value(And(w, LowOnes(|w|, k))) == Value(w[..k])
    decreases |w|
  {
    if w != [] {
      var rest := And(w[1..], LowOnes(|w| - 1, if k == 0 then 0 else k - 1));
      assert And(w, LowOnes(|w|, k))[1..] == rest;
      if k == 0 {
        LowBits(w[1..], 0);
        assert w[..0] == [] && w[1..][..0] == [];
      } else {
        LowBits(w[1..], k - 1);
        assert w[..k][1..] == w[1..][..k - 1];
      }
    }
  }

  lemma {:induction false} PowersDivide(k: nat, n: nat)
    requires k <= n
    ensures Pow2(n) == Pow2(k) * Pow2(n - k)
    decreases n
  {
    if k < n {
      PowersDivide(k, n - 1);
      assert Pow2(k) * (2 * Pow2(n - k - 1)) == 2 * (Pow2(k) * Pow2(n - k - 1));
    }
  }

  lemma {:induction false} ModMod(x: int, a: nat, b: nat)
    requires a > 0 && b > 0
    ensures a * b > 0 && x % (a * b) % a == x % a
  {
    assert a * b > 0;
    var q, r := x / (a * b), x % (a * b);
    var s, t := r / a, r % a;
    assert x == (q * b + s) * a + t by {
      assert x == q * (a * b) + r && r == s * a + t;
      assert (q * b + s) * a == q * b * a + s * a;
    }
    DivModUnique(x, a, q * b + s, t);
  }

  function Log2(n: nat): (k: nat)
    requires IsPow2(n)
    ensures n == Pow2(k)
  {
    if n == 1 then 0 else 1 + Log2(n / 2)
  }

  lemma {:induction false} SmallPower(k: nat, n: nat)
    requires Pow2(k) <= Pow2(n)
    ensures k <= n
  {
    if n < k {
      Pow2Larger(n, k);
    }
  }

  // Masking with a power of two less one is the remainder, for negative numbers too.
  lemma {:induction false} MaskedIsMod(x: int, len: nat)
    requires IsPow2(len) && len <= MAX_CAPACITY
    ensures Masked(x, len) == x % len
  {
    hide Value, Pow2, FromValue, Dec, And, IntWord, IsPow2, LowOnes;
    var k := Log2(len);
    SmallPower(k, 62);
    var w := IntWord(x);
    assert Dec(IntWord(len)) == LowOnes(INT_BITS, k) by {
      WordOfLength(len);
      PowerMask(INT_BITS, k);
    }
    LowBits(w, k);
    MaskIsMod(w, k);
    IntWordValue(x);
    PowersDivide(k, INT_BITS);
    ModMod(x, Pow2(k), Pow2(INT_BITS - k));
  }

  lemma {:induction false} WordOfLength(len: nat)
    ensures IntWord(len) == FromValue(len, INT_BITS)
  {
    hide FromValue, Neg;
  }

  // ---------------------------------------------------------------------------
  // The ring
  // ---------------------------------------------------------------------------

  // The slot i places behind the head.
  function Slot(head: nat, i: nat, cap: nat): (s: nat)
    requires head < cap && i <= cap
    ensures s < cap
  {
    if head + i < cap then head + i else head + i - cap
  }

  lemma {:induction false} SlotIsMod(head: nat, i: nat, cap: nat)
    requires head < cap && i <= cap
    ensures Slot(head, i, cap) == (head + i) % cap
  {
    if head + i >= cap {
      DivModUnique(head + i, cap, 1, head + i - cap);
    }
  }

  // What the source computes is the slot.
  lemma {:induction false} MaskedIsSlot(head: nat, i: nat, len: nat)
    requires IsPow2(len) && len <= MAX_CAPACITY && head < len && i <= len
    ensures Masked(head + i, len) == Slot(head, i, len)
  {
    hide Masked, IsPow2, Slot;
    MaskedIsMod(head + i, len);
    SlotIsMod(head, i, len);
  }

  // A negative offset counts from the other end.
  lemma {:induction false} MaskedBackward(head: nat, n: int, len: nat)
    requires IsPow2(len) && len <= MAX_CAPACITY && head < len && 0 <= n + len < len
    ensures Masked(head + n, len) == Slot(head, n + len, len)
  {
    hide Masked, IsPow2, Slot;
    MaskedIsMod(head + n, len);
    SlotIsMod(head, n + len, len);
    var q, r := (head + n) / len, (head + n) % len;
    assert head + n + len == (q + 1) * len + r;
    DivModUnique(head + n + len, len, q + 1, r);
  }

  lemma {:induction false} SlotPrev(head: nat, i: nat, cap: nat)
    requires head < cap && i < cap
    ensures Slot(Slot(head, cap - 1, cap), i + 1, cap) == Slot(head, i, cap)
  {}

  // A ring whose head is its tail is full, wherever the head is.
  lemma {:induction false} FullSlots(head: nat, count: nat, cap: nat)
    requires head < cap && 0 < count <= cap && Slot(head, count, cap) == head
    ensures count == cap && forall i: nat | i < cap :: Slot(i, cap, cap) == i
  {}

  // One step back of a head and a tail with an empty slot between them.
  lemma {:induction false} BackSlots(head: nat, count: nat, cap: nat)
    requires head < cap && 0 < count && count <= cap && head != Slot(head, count, cap)
    ensures count < cap
    ensures
      (var tail := Slot(head, count, cap);
       var prev, last := Slot(head, cap - 1, cap), Slot(tail, cap - 1, cap);
       last == Slot(head, count - 1, cap) == Slot(prev, count, cap) && prev != last)
  {}

  predicate InRing(len: nat, head: nat, count: nat) {
    count <= len && (head < len || (len == 0 && head == 0))
  }

  // The elements from the head on.
  function Ring<T>(s: seq<T>, head: nat, count: nat): (r: seq<T>)
    requires InRing(|s|, head, count)
    ensures |r| == count
    ensures forall i | 0 <= i < count :: r[i] == s[Slot(head, i, |s|)]
  {
    seq(count, i requires 0 <= i < count => s[Slot(head, i, |s|)])
  }

  lemma {:induction false} PushBackRing<T>(s: seq<T>, head: nat, count: nat, x: T)
    requires InRing(|s|, head, count) && count < |s|
    ensures Ring(s[Slot(head, count, |s|) := x], head, count + 1) == Ring(s, head, count) + [x]
  {
    hide Ring;
  }

  lemma {:induction false} PushFrontRing<T>(s: seq<T>, head: nat, count: nat, x: T)
    requires InRing(|s|, head, count) && count < |s|
    ensures
      (var prev := Slot(head, |s| - 1, |s|);
       Ring(s[prev := x], prev, count + 1) == [x] + Ring(s, head, count))
  {
    hide Ring;
  }

  lemma {:induction false} PopFrontRing<T>(s: seq<T>, head: nat, count: nat, zero: T)
    requires InRing(|s|, head, count) && count > 0
    ensures Ring(s[head := zero], Slot(head, 1, |s|), count - 1) == Ring(s, head, count)[1..]
  {
    hide Ring;
  }

  lemma {:induction false} PopBackRing<T>(s: seq<T>, head: nat, count: nat, zero: T)
    requires InRing(|s|, head, count) && count > 0
    ensures Ring(s[Slot(head, count - 1, |s|) := zero], head, count - 1) == Ring(s, head, count)[..count - 1]
  {
    hide Ring;
  }

  lemma {:induction false} SetRing<T>(s: seq<T>, head: nat, count: nat, i: nat, x: T)
    requires InRing(|s|, head, count) && i < count
    ensures Ring(s[Slot(head, i, |s|) := x], head, count) == Ring(s, head, count)[i := x]
  {
    hide Ring;
  }

  lemma {:induction false} RotateRing<T>(s: seq<T>, head: nat, n: nat)
    requires InRing(|s|, head, |s|) && n < |s|
    ensures Ring(s, Slot(head, n, |s|), |s|) == Ring(s, head, |s|)[n..] + Ring(s, head, |s|)[..n]
  {
    hide Ring;
  }

  // One rotation step when there is an empty slot: the head goes to the tail.
  lemma {:induction false} ForwardRing<T>(s: seq<T>, head: nat, count: nat, zero: T)
    requires InRing(|s|, head, count) && 0 < count < |s|
    ensures
      (var tail, c := Slot(head, count, |s|), Ring(s, head, count);
       Ring(s[tail := s[head]][head := zero], Slot(head, 1, |s|), count) == c[1..] + [c[0]])
  {
    hide Ring;
    var tail := Slot(head, count, |s|);
    PushBackRing(s, head, count, s[head]);
    PopFrontRing(s[tail := s[head]], head, count + 1, zero);
  }

  // The other way round: the last element goes in front of the head.
  lemma {:induction false} BackwardRing<T>(s: seq<T>, head: nat, count: nat, zero: T)
    requires InRing(|s|, head, count) && 0 < count < |s|
    ensures
      (var last, prev, c := Slot(head, count - 1, |s|), Slot(head, |s| - 1, |s|), Ring(s, head, count);
       Ring(s[prev := s[last]][last := zero], prev, count) == [c[count - 1]] + c[..count - 1])
  {
    hide Ring;
    var last, prev := Slot(head, count - 1, |s|), Slot(head, |s| - 1, |s|);
    PushFrontRing(s, head, count, s[last]);
    PopBackRing(s[prev := s[last]], prev, count + 1, zero);
  }

  // ---------------------------------------------------------------------------
  // The same operations on a sequence
  // ---------------------------------------------------------------------------

  function Inserted<T>(c: seq<T>, at: nat, x: T): (r: seq<T>)
    requires at <= |c|
  {
    c[..at] + [x] + c[at..]
  }

  function Removed<T>(c: seq<T>, at: nat): (r: seq<T>)
    requires at < |c|
  {
    c[..at] + c[at + 1..]
  }

  // n steps from front to back, or -n from back to front.
  function Rotated<T>(c: seq<T>, n: int): (r: seq<T>) {
    if c == [] then [] else Turned(c, n % |c|)
  }

  lemma {:induction false} RemainderIsMod(a: int, b: int)
    requires b > 0
    ensures a % b == if Remainder(a, b) < 0 then Remainder(a, b) + b else Remainder(a, b)
  {
    if a < 0 {
      var q, r := (-a) / b, (-a) % b;
      assert a == (-q) * b - r;
      if r > 0 {
        assert (-q) * b - r == (-q - 1) * b + (b - r);
        DivModUnique(a, b, -q - 1, b - r);
      } else {
        DivModUnique(a, b, -q, 0);
      }
    }
  }

  // Cut at m and exchange the two pieces.
  function Turned<T>(c: seq<T>, m: nat): (r: seq<T>)
    requires m <= |c|
  {
    c[m..] + c[..m]
  }

  lemma {:induction false} TurnedForward<T>(c: seq<T>, m: nat)
    requires m < |c|
    ensures Turned(c, m + 1) == Turned(c, m)[1..] + [Turned(c, m)[0]]
  {}

  lemma {:induction false} TurnedBackward<T>(c: seq<T>, m: nat)
    requires 0 < m <= |c|
    ensures Turned(c, m - 1) == [Turned(c, m)[|c| - 1]] + Turned(c, m)[..|c| - 1]
  {}

  lemma {:induction false} RotatedIs<T>(c: seq<T>, n: int)
    requires c != []
    ensures
      (var m := Remainder(n, |c|);
       Rotated(c, n) == if m < 0 then Turned(c, |c| + m) else if m == 0 then c else Turned(c, m))
  {
    hide Remainder, Turned;
    RemainderIsMod(n, |c|);
    TurnedNone(c);
  }

  lemma {:induction false} FewRotated<T>(c: seq<T>, n: int)
    requires |c| <= 1
    ensures Rotated(c, n) == c
  {
    if c != [] {
      assert n % 1 == 0;
    }
  }

  function Swapped<T>(c: seq<T>, i: nat, j: nat): (r: seq<T>)
    requires i < |c| && j < |c|
  {
    c[i := c[j]][j := c[i]]
  }

  // An element moves one place by a swap with its neighbour.
  lemma {:induction false} SwapMoves<T>(c: seq<T>, k: nat, x: T)
    requires k < |c|
    ensures Swapped(Inserted(c, k, x), k, k + 1) == Inserted(c, k + 1, x)
    ensures Swapped(Inserted(c, k + 1, x), k + 1, k) == Inserted(c, k, x)
  {}

  lemma {:induction false} RemovedInserted<T>(c: seq<T>, at: nat)
    requires at < |c|
    ensures Inserted(Removed(c, at), at, c[at]) == c
  {}

  lemma {:induction false} RemovedSize<T>(c: seq<T>, at: nat)
    requires at < |c|
    ensures |Removed(c, at)| == |c| - 1
  {}

  lemma {:induction false} InsertedEnds<T>(c: seq<T>, x: T)
    ensures Inserted(c, 0, x) == [x] + c && Inserted(c, |c|, x) == c + [x]
  {}

  lemma {:induction false} InsertedFront<T>(rest: seq<T>, item: T, x: T, d: seq<T>)
    requires [x] + d == Inserted(rest, 0, item)
    ensures x == item && d == rest
  {
    assert Inserted(rest, 0, item) == [item] + rest;
    assert ([x] + d)[0] == x && ([x] + d)[1..] == d && ([item] + rest)[1..] == rest;
  }

  lemma {:induction false} InsertedBack<T>(rest: seq<T>, item: T, x: T, d: seq<T>)
    requires d + [x] == Inserted(rest, |rest|, item)
    ensures x == item && d == rest
  {
    assert Inserted(rest, |rest|, item) == rest + [item];
    assert |d| == |rest| && (d + [x])[|d|] == x && (d + [x])[..|d|] == d && (rest + [item])[..|rest|] == rest;
  }

  // ---------------------------------------------------------------------------
  // The deque
  // ---------------------------------------------------------------------------

  class Deque<T> {
    const zero: T
    var buf: array<T>
    var head: nat
    var tail: nat
    var count: nat
    var minCap: nat

    // The capacity is a power of two, or 0 before the first push, and the tail is where the
    // next element goes.
    ghost predicate Valid()
      reads this, buf
    {
      && InRing(buf.Length, head, count)
      && (buf.Length == 0 || IsPow2(buf.Length)) && buf.Length <= MAX_CAPACITY
      && ((IsPow2(minCap) && MIN_CAPACITY <= minCap <= MAX_CAPACITY) || (minCap == 0 && buf.Length == 0))
      && tail == if buf.Length == 0 then 0 else Slot(head, count, buf.Length)
    }

    ghost function Contents(): (c: seq<T>)
      requires Valid()
      reads this, buf
      ensures |c| == count
    {
      Ring(buf[..], head, count)
    }

    // The least powers of two that reach 16 and the minimum, and that and the capacity.
    constructor (z: T, capacity: nat, minimum: nat)
      requires capacity <= MAX_CAPACITY && minimum <= MAX_CAPACITY
      ensures Valid() && Contents() == [] && zero == z && fresh(buf)
      ensures LeastPow2(minCap, MIN_CAPACITY, minimum)
      ensures if capacity == 0 then buf.Length == 0 else LeastPow2(buf.Length, minCap, capacity)
    {
      hide IsPow2, Pow2;
      SixteenIsPow2();
      var m := PowAtLeast(MIN_CAPACITY, minimum);
      zero, head, tail, count, minCap := z, 0, 0, 0, m;
      var size := 0;
      if capacity != 0 {
        size := PowAtLeast(m, capacity);
      }
      buf := new T[size](_ => z);
    }

    // The zero value of the type, which allocates on the first push.
    constructor ZeroValue(z: T)
      ensures Valid() && Contents() == [] && zero == z && fresh(buf)
    {
      zero, head, tail, count, minCap := z, 0, 0, 0, 0;
      buf := new T[0](_ => z);
    }

    // -------------------------------------------------------------------------
    // Growing and shrinking
    // -------------------------------------------------------------------------

    // Twice the number of elements, which are moved to the front.
    method Resize()
      requires Valid() && count > 0 && IsPow2(2 * count)
      modifies this`buf, this`head, this`tail
      requires 2 * count <= MAX_CAPACITY
      ensures Valid() && Contents() == old(Contents()) && fresh(buf) && buf.Length == 2 * count
    {
      hide IsPow2, Pow2;
      var newBuf := new T[2 * count](_ => zero);
      ghost var c := Contents();
      var cap := buf.Length;
      if tail > head {
        forall i | 0 <= i < tail - head {
          newBuf[i] := buf[head + i];
        }
      } else {
        var n := cap - head;
        forall i | 0 <= i < n {
          newBuf[i] := buf[head + i];
        }
        forall i | 0 <= i < tail {
          newBuf[n + i] := buf[i];
        }
      }
      assert newBuf[..count] == c;
      head := 0;
      tail := count;
      buf := newBuf;
      assert Contents() == c;
    }

    // A full buffer doubles; the first one has the minimum capacity.
    method GrowIfFull()
      requires Valid() && count < MAX_CAPACITY
      modifies this`buf, this`head, this`tail, this`minCap
      ensures Valid() && Contents() == old(Contents()) && count < buf.Length
      ensures minCap == if old(minCap) == 0 then MIN_CAPACITY else old(minCap)
      ensures
        (var n := old(buf.Length);
         if count < n then buf == old(buf) else buf.Length == if n == 0 then minCap else 2 * n)
      ensures fresh(buf) || buf == old(buf)
    {
      hide IsPow2;
      if count != buf.Length {
        return;
      }
      if buf.Length == 0 {
        if minCap == 0 {
          minCap := MIN_CAPACITY;
          SixteenIsPow2();
        }
        buf := new T[minCap](_ => zero);
        return;
      }
      DoublePow2(count);
      DoubleFits(count);
      Resize();
    }

    // A buffer that is a quarter full and above the minimum capacity halves.
    method ShrinkIfExcess()
      requires Valid()
      modifies this`buf, this`head, this`tail
      ensures Valid() && Contents() == old(Contents())
      ensures
        (var n := old(buf.Length);
         if n > minCap && 4 * count == n then buf.Length == n / 2 && fresh(buf) else buf == old(buf))
      ensures fresh(buf) || buf == old(buf)
    {
      if buf.Length > minCap && 4 * count == buf.Length {
        Resize();
      }
    }

    // -------------------------------------------------------------------------
    // Indexes
    // -------------------------------------------------------------------------

    method Prev(i: nat) returns (r: nat)
      requires Valid() && i < buf.Length
      ensures r == Slot(i, buf.Length - 1, buf.Length)
    {
      hide IsPow2, Masked, Ring;
      MaskedBackward(i, -1, buf.Length);
      return Masked(i - 1, buf.Length);
    }

    method Next(i: nat) returns (r: nat)
      requires Valid() && i < buf.Length
      ensures r == Slot(i, 1, buf.Length)
    {
      hide IsPow2, Masked, Ring;
      MaskedIsSlot(i, 1, buf.Length);
      return Masked(i + 1, buf.Length);
    }

    // The slot of an offset from the head.
    method Offset(n: int) returns (r: nat)
      requires Valid() && head < buf.Length && 0 <= n + buf.Length <= 2 * buf.Length
      ensures r == Slot(head, if n < 0 then n + buf.Length else n, buf.Length)
    {
      hide IsPow2, Masked, Ring;
      if n < 0 {
        MaskedBackward(head, n, buf.Length);
      } else {
        MaskedIsSlot(head, n, buf.Length);
      }
      return Masked(head + n, buf.Length);
    }

    // -------------------------------------------------------------------------
    // Both ends
    // -------------------------------------------------------------------------

    method PushBack(elem: T)
      requires Valid() && count < MAX_CAPACITY
      modifies this, buf
      ensures Valid() && Contents() == old(Contents()) + [elem]
      ensures fresh(buf) || buf == old(buf)
    {
      hide IsPow2;
      GrowIfFull();
      PushBackRing(buf[..], head, count, elem);
      ghost var s := buf[..];
      buf[tail] := elem;
      assert buf[..] == s[tail := elem];
      tail := Next(tail);
      count := count + 1;
    }

    method PushFront(elem: T)
      requires Valid() && count < MAX_CAPACITY
      modifies this, buf
      ensures Valid() && Contents() == [elem] + old(Contents())
      ensures fresh(buf) || buf == old(buf)
    {
      hide IsPow2, Ring, Slot;
      GrowIfFull();
      PushFrontRing(buf[..], head, count, elem);
      SlotPrev(head, count, buf.Length);
      ghost var s := buf[..];
      head := Prev(head);
      buf[head] := elem;
      assert buf[..] == s[head := elem];
      count := count + 1;
    }

    method PopFront() returns (ret: T)
      requires Valid() && count > 0
      modifies this, buf
      ensures Valid() && [ret] + Contents() == old(Contents())
      ensures fresh(buf) || buf == old(buf)
    {
      hide IsPow2;
      PopFrontRing(buf[..], head, count, zero);
      ghost var s := buf[..];
      ret := buf[head];
      buf[head] := zero;
      assert buf[..] == s[head := zero];
      head := Next(head);
      count := count - 1;
      ShrinkIfExcess();
    }

    method PopBack() returns (ret: T)
      requires Valid() && count > 0
      modifies this, buf
      ensures Valid() && Contents() + [ret] == old(Contents())
      ensures fresh(buf) || buf == old(buf)
    {
      hide IsPow2;
      PopBackRing(buf[..], head, count, zero);
      ghost var s := buf[..];
      tail := Prev(tail);
      ret := buf[tail];
      buf[tail] := zero;
      assert buf[..] == s[tail := zero];
      count := count - 1;
      ShrinkIfExcess();
    }

    // -------------------------------------------------------------------------
    // Inside
    // -------------------------------------------------------------------------

    method At(i: nat) returns (x: T)
      requires Valid() && i < count
      ensures x == Contents()[i]
    {
      hide IsPow2, Ring;
      var slot := Offset(i);
      x := buf[slot];
    }

    method Set(i: nat, item: T)
      requires Valid() && i < count
      modifies buf
      ensures Valid() && Contents() == old(Contents())[i := item]
    {
      hide IsPow2, Ring;
      SetRing(buf[..], head, count, i, item);
      ghost var s := buf[..];
      var slot := Offset(i);
      buf[slot] := item;
      assert buf[..] == s[slot := item];
    }

    // Exchanges two elements given by their slots.
    method Swap(ghost i: nat, ghost j: nat, a: nat, b: nat)
      requires Valid() && i < count && j < count && a == Slot(head, i, buf.Length) && b == Slot(head, j, buf.Length)
      modifies buf
      ensures Valid() && Contents() == Swapped(old(Contents()), i, j)
    {
      ghost var s := buf[..];
      buf[a], buf[b] := buf[b], buf[a];
      assert buf[..] == s[a := s[b]][b := s[a]];
      SetRing(s, head, count, i, s[b]);
      SetRing(s[a := s[b]], head, count, j, s[a]);
    }

    // From the front when the place is in the first half, otherwise from the back.
    method Insert(at: nat, item: T)
      requires Valid() && at <= count < MAX_CAPACITY
      modifies this, buf
      ensures Valid() && Contents() == Inserted(old(Contents()), at, item)
      ensures fresh(buf) || buf == old(buf)
    {
      hide Valid, Contents, Swapped, Inserted;
      ghost var c := Contents();
      InsertedEnds(c, item);
      if at * 2 < count {
        PushFront(item);
        BubbleBack(at, c, item);
        return;
      }
      var swaps := count - at;
      PushBack(item);
      BubbleFront(swaps, c, item);
    }

    // The element in front moves n places back.
    method BubbleBack(n: nat, ghost c: seq<T>, ghost item: T)
      requires Valid() && n <= |c| && count == |c| + 1 && Contents() == Inserted(c, 0, item)
      modifies buf
      ensures Valid() && Contents() == Inserted(c, n, item)
    {
      hide IsPow2, Ring, Swapped, Inserted;
      var front := head;
      for i := 0 to n
        invariant Valid() && Contents() == Inserted(c, i, item) && front == Slot(head, i, buf.Length)
      {
        SwapMoves(c, i, item);
        var next := Next(front);
        Swap(i, i + 1, front, next);
        front := next;
      }
    }

    // The element at the back moves n places forward.
    method BubbleFront(n: nat, ghost c: seq<T>, ghost item: T)
      requires Valid() && n <= |c| && count == |c| + 1 && Contents() == Inserted(c, |c|, item)
      modifies buf
      ensures Valid() && Contents() == Inserted(c, |c| - n, item)
    {
      hide IsPow2, Ring, Swapped, Inserted;
      var back := Prev(tail);
      for i := 0 to n
        invariant Valid() && Contents() == Inserted(c, |c| - i, item) && back == Slot(head, |c| - i, buf.Length)
      {
        SwapMoves(c, |c| - i - 1, item);
        var prev := Prev(back);
        Swap(|c| - i, |c| - i - 1, back, prev);
        back := prev;
      }
    }

    method Remove(at: nat) returns (x: T)
      requires Valid() && at < count
      modifies this, buf
      ensures Valid() && x == old(Contents())[at] && Contents() == Removed(old(Contents()), at)
      ensures fresh(buf) || buf == old(buf)
    {
      hide Valid, Contents, Swapped, Inserted, Removed;
      ghost var c := Contents();
      RemovedSize(c, at);
      ghost var rest, item := Removed(c, at), c[at];
      RemovedInserted(c, at);
      if at * 2 < count {
        MoveToFront(at, rest, item);
        x := PopFront();
        InsertedFront(rest, item, x, Contents());
        return;
      }
      MoveToBack(at, rest, item);
      x := PopBack();
      InsertedBack(rest, item, x, Contents());
    }

    method MoveToFront(at: nat, ghost rest: seq<T>, ghost item: T)
      requires Valid() && at <= |rest| && count == |rest| + 1 && Contents() == Inserted(rest, at, item)
      modifies buf
      ensures Valid() && Contents() == Inserted(rest, 0, item)
    {
      hide IsPow2, Ring, Swapped, Inserted;
      var rm := Offset(at);
      for i := 0 to at
        invariant Valid() && Contents() == Inserted(rest, at - i, item) && rm == Slot(head, at - i, buf.Length)
      {
        SwapMoves(rest, at - i - 1, item);
        var prev := Prev(rm);
        Swap(at - i, at - i - 1, rm, prev);
        rm := prev;
      }
    }

    method MoveToBack(at: nat, ghost rest: seq<T>, ghost item: T)
      requires Valid() && at <= |rest| && count == |rest| + 1 && Contents() == Inserted(rest, at, item)
      modifies buf
      ensures Valid() && Contents() == Inserted(rest, |rest|, item)
    {
      hide IsPow2, Ring, Swapped, Inserted;
      var rm := Offset(at);
      for i := 0 to count - at - 1
        invariant Valid() && Contents() == Inserted(rest, at + i, item) && rm == Slot(head, at + i, buf.Length)
      {
        SwapMoves(rest, at + i, item);
        var next := Next(rm);
        Swap(at + i, at + i + 1, rm, next);
        rm := next;
      }
    }

    // -------------------------------------------------------------------------
    // The whole deque
    // -------------------------------------------------------------------------

    method Rotate(n: int)
      requires Valid()
      modifies this`head, this`tail, buf
      ensures Valid() && Contents() == Rotated(old(Contents()), n)
    {
      hide Valid, Contents, Rotated, Turned, Remainder;
      ghost var c := Contents();
      if count <= 1 {
        FewRotated(c, n);
        return;
      }
      var m := Remainder(n, count);
      RotatedIs(c, n);
      if m == 0 {
        return;
      }
      if head == tail {
        RotateFull(m);
        return;
      }
      if m < 0 {
        RotateBackward(-m, c);
      } else {
        RotateForward(m, c);
      }
    }

    // Without an empty slot only the indexes move.
    method RotateFull(n: int)
      requires Valid() && 0 < n + count < 2 * count && head == tail && count > 0
      modifies this`head, this`tail
      ensures Valid() && Contents() == Turned(old(Contents()), if n < 0 then n + count else n)
    {
      hide IsPow2, Ring, Slot;
      FullSlots(head, count, buf.Length);
      RotateRing(buf[..], head, if n < 0 then n + count else n);
      head := Offset(n);
      tail := head;
    }

    method RotateForward(n: nat, ghost c: seq<T>)
      requires Valid() && 0 < count && head != tail && n < count && Contents() == c
      modifies this`head, this`tail, buf
      ensures Valid() && Contents() == Turned(c, n)
    {
      hide Valid, Contents, Turned;
      TurnedNone(c);
      for i := 0 to n
        invariant Valid() && head != tail && Contents() == Turned(c, i) && |c| == count
      {
        TurnedForward(c, i);
        StepForward();
      }
    }

    method StepForward()
      requires Valid() && 0 < count && head != tail
      modifies this`head, this`tail, buf
      ensures Valid() && head != tail && Contents() == old(Contents())[1..] + [old(Contents())[0]]
    {
      hide IsPow2, Ring;
      ForwardRing(buf[..], head, count, zero);
      ghost var s := buf[..];
      buf[tail] := buf[head];
      buf[head] := zero;
      assert buf[..] == s[tail := s[head]][head := zero];
      var next := Next(head);
      var end := Next(tail);
      head, tail := next, end;
    }

    method RotateBackward(n: nat, ghost c: seq<T>)
      requires Valid() && 0 < count && head != tail && n < count && Contents() == c
      modifies this`head, this`tail, buf
      ensures Valid() && |c| == count && Contents() == Turned(c, |c| - n)
    {
      hide Valid, Contents, Turned;
      TurnedNone(c);
      for i := 0 to n
        invariant Valid() && head != tail && |c| == count && Contents() == Turned(c, |c| - i)
      {
        TurnedBackward(c, |c| - i);
        StepBackward();
      }
    }

    method StepBackward()
      requires Valid() && 0 < count && head != tail
      modifies this`head, this`tail, buf
      ensures Valid() && head != tail
      ensures Contents() == [old(Contents())[count - 1]] + old(Contents())[..count - 1]
    {
      hide IsPow2, Ring, Slot;
      BackSlots(head, count, buf.Length);
      BackwardRing(buf[..], head, count, zero);
      ghost var s := buf[..];
      var prev := Prev(head);
      var last := Prev(tail);
      buf[prev] := buf[last];
      buf[last] := zero;
      assert buf[..] == s[prev := s[last]][last := zero];
      head, tail := prev, last;
    }

    method Clear()
      requires Valid()
      modifies this`head, this`tail, this`count, buf
      ensures Valid() && Contents() == [] && buf.Length == old(buf.Length)
      ensures forall i | 0 <= i < old(count) :: buf[Slot(old(head), i, buf.Length)] == zero
    {
      hide IsPow2, Ring;
      for i := 0 to count
        invariant Valid() && head == old(head) && count == old(count)
        invariant forall j | 0 <= j < i :: buf[Slot(head, j, buf.Length)] == zero
      {
        var slot := Offset(i);
        buf[slot] := zero;
      }
      head, tail, count := 0, 0, 0;
    }

    method SetMinCapacity(exp: nat)
      requires Valid()
      modifies this`minCap
      ensures Valid() && Contents() == old(Contents())
      ensures minCap == if exp < INT_BITS - 1 && Pow2(exp) > MIN_CAPACITY then Pow2(exp) else MIN_CAPACITY
    {
      hide Ring, Pow2;
      Pow2IsPow2(exp);
      SixteenIsPow2();
      // Shifting 1 by 63 gives a negative int, by 64 or more 0.
      var power: int := Pow2(exp);
      var shifted := if exp < INT_BITS - 1 then power else if exp == INT_BITS - 1 then -power else 0;
      if shifted > MIN_CAPACITY {
        if exp < 62 {
          Pow2Larger(exp, 62);
        }
        minCap := shifted;
      } else {
        minCap := MIN_CAPACITY;
      }
    }
  }

  lemma {:induction false} TurnedNone<T>(c: seq<T>)
    ensures Turned(c, 0) == c && Turned(c, |c|) == c
  {}

  lemma {:induction false} Pow2IsPow2(k: nat)
    ensures IsPow2(Pow2(k))
  {
    if k > 0 {
      Pow2IsPow2(k - 1);
      DoublePow2(Pow2(k - 1));
    }
  }

  lemma {:induction false} SixteenIsPow2()
    ensures IsPow2(MIN_CAPACITY) && MIN_CAPACITY < MAX_CAPACITY
  {
    assert IsPow2(4) && IsPow2(8);
    assert Pow2(2) == 4 && Pow2(4) == 16;
    Pow2Larger(4, 62);
  }

  // The least power of two from `from` on that reaches the size.
  ghost predicate LeastPow2(n: nat, from: nat, size: nat) {
    IsPow2(n) && n >= from && n >= size && (n == from || n / 2 < size)
  }

  // Below the largest power of two there is room to double.
  lemma {:induction false} DoubleFits(n: nat)
    requires IsPow2(n) && n < MAX_CAPACITY
    ensures 2 * n <= MAX_CAPACITY
  {
    hide IsPow2, Pow2;
    var k := Log2(n);
    if k >= 62 {
      if k > 62 {
        Pow2Larger(62, k);
      }
    } else if k < 61 {
      Pow2Larger(k + 1, 62);
    }
    assert Pow2(k + 1) == 2 * Pow2(k) by { DoublesPow2(k); }
  }

  lemma {:induction false} DoublesPow2(k: nat)
    ensures Pow2(k + 1) == 2 * Pow2(k)
  {}

  // Doubling until the size is reached.
  method PowAtLeast(from: nat, size: nat) returns (n: nat)
    requires IsPow2(from) && from <= MAX_CAPACITY && size <= MAX_CAPACITY
    ensures LeastPow2(n, from, size) && n <= MAX_CAPACITY
  {
    hide Pow2, IsPow2;
    n := from;
    while n < size
      invariant IsPow2(n) && from <= n <= MAX_CAPACITY && (n == from || n / 2 < size)
    {
      DoublePow2(n);
      DoubleFits(n);
      n := 2 * n;
    }
  }
}

/** Machine words as bit sequences, and the bit deposit and extract of
    pkg/mathext/bit.go.

    A word of width n is a sequence of n booleans, least significant bit first.
    `Inc`, `Dec` and `Neg` are the wrapping arithmetic of an unsigned integer type;
    `IncValue`, `DecValue` and `NegValue` tie them to the numbers the words denote. */
module Bits {

  type Word = seq<bool>

  // ---------------------------------------------------------------------------
  // Words
  // ---------------------------------------------------------------------------

  function Zeros(n: nat): (r: Word)
    ensures |r| == n
  {
    seq(n, _ => false)
  }

  // The word with bit k set and no other; a shift by the width or more gives zero.
  function OneHot(n: nat, k: nat): (r: Word)
    ensures |r| == n
  {
    seq(n, i => i == k)
  }

  function And(a: Word, b: Word): (r: Word)
    requires |a| == |b|
    ensures |r| == |a|
  {
    seq(|a|, i requires 0 <= i < |a| => a[i] && b[i])
  }

  function Or(a: Word, b: Word): (r: Word)
    requires |a| == |b|
    ensures |r| == |a|
  {
    seq(|a|, i requires 0 <= i < |a| => a[i] || b[i])
  }

  function Not(a: Word): (r: Word)
    ensures |r| == |a|
  {
    seq(|a|, i requires 0 <= i < |a| => !a[i])
  }

  function Shl(a: Word, k: nat): (r: Word)
    requires k <= |a|
    ensures |r| == |a|
  {
    Zeros(k) + a[..|a| - k]
  }

  function Shr(a: Word, k: nat): (r: Word)
    requires k <= |a|
    ensures |r| == |a|
  {
    a[k..] + Zeros(k)
  }

  function Inc(a: Word): (r: Word)
    ensures |r| == |a|
  {
    if a == [] then [] else if a[0] then [false] + Inc(a[1..]) else [true] + a[1..]
  }

  function Dec(a: Word): (r: Word)
    ensures |r| == |a|
  {
    if a == [] then [] else if a[0] then [false] + a[1..] else [true] + Dec(a[1..])
  }

  // Two's complement negation.
  function Neg(a: Word): (r: Word)
    ensures |r| == |a|
  {
    Inc(Not(a))
  }

  function Pow2(n: nat): (p: nat)
    ensures p > 0
  {
    if n == 0 then 1 else 2 * Pow2(n - 1)
  }

  function Value(a: Word): (v: nat)
    ensures v < Pow2(|a|)
  {
    if a == [] then 0 else (if a[0] then 1 else 0) + 2 * Value(a[1..])
  }

  // The low bits of a number, as a word of the given width.
  function FromValue(n: nat, width: nat): (w: Word)
    ensures |w| == width
    decreases width
  {
    if width == 0 then [] else [n % 2 == 1] + FromValue(n / 2, width - 1)
  }

  lemma {:induction false} IncValue(a: Word)
    ensures Value(Inc(a)) == if Value(a) + 1 == Pow2(|a|) then 0 else Value(a) + 1
  {
    if a != [] {
      IncValue(a[1..]);
      assert Inc(a)[1..] == if a[0] then Inc(a[1..]) else a[1..];
    }
  }

  lemma {:induction false} DecValue(a: Word)
    ensures Value(Dec(a)) == if Value(a) == 0 then Pow2(|a|) - 1 else Value(a) - 1
  {
    if a != [] {
      DecValue(a[1..]);
      assert Dec(a)[1..] == if a[0] then a[1..] else Dec(a[1..]);
    }
  }

  lemma {:induction false} NotValue(a: Word)
    ensures Value(Not(a)) == Pow2(|a|) - 1 - Value(a)
  {
    if a != [] {
      NotValue(a[1..]);
      assert Not(a)[1..] == Not(a[1..]);
    }
  }

  lemma {:induction false} NegValue(a: Word)
    ensures Value(Neg(a)) == if Value(a) == 0 then 0 else Pow2(|a|) - Value(a)
  {
    NotValue(a);
    IncValue(Not(a));
  }

  // ---------------------------------------------------------------------------
  // Population count and rank
  // ---------------------------------------------------------------------------

  // The number of set bits.
  function Count(a: Word): (n: nat)
    ensures n <= |a|
  {
    if a == [] then 0 else Count(a[..|a| - 1]) + (if a[|a| - 1] then 1 else 0)
  }

  lemma {:induction false} CountConcat(a: Word, b: Word)
    ensures Count(a + b) == Count(a) + Count(b)
  {
    if b == [] {
      assert a + b == a;
    } else {
      CountConcat(a, b[..|b| - 1]);
      assert (a + b)[..|a + b| - 1] == a + b[..|b| - 1];
    }
  }

  lemma {:induction false} CountOne(b: bool)
    ensures Count([b]) == if b then 1 else 0
  {
    assert [b][..0] == [];
  }

  // The number of set bits strictly below position i.
  function Rank(m: Word, i: nat): (n: nat)
    requires i <= |m|
    ensures n <= i
  {
    Count(m[..i])
  }

  lemma {:induction false} RankNext(m: Word, i: nat)
    requires i < |m|
    ensures Rank(m, i + 1) == Rank(m, i) + (if m[i] then 1 else 0)
  {
    assert m[..i + 1][..i] == m[..i];
  }

  lemma {:induction false} RankMonotone(m: Word, i: nat, j: nat)
    requires i <= j <= |m|
    ensures Rank(m, i) <= Rank(m, j) <= Count(m)
    decreases |m| - i
  {
    if i < j {
      RankNext(m, i);
      RankMonotone(m, i + 1, j);
    } else if j < |m| {
      RankNext(m, j);
      RankMonotone(m, j + 1, j + 1);
    } else {
      assert m[..j] == m;
    }
  }

  lemma {:induction false} NoSetBits(m: Word)
    requires Count(m) == 0
    ensures forall i | 0 <= i < |m| :: !m[i]
  {
    if m != [] {
      NoSetBits(m[..|m| - 1]);
    }
  }

  // Every rank below the count is the rank of exactly one set position.
  lemma {:induction false} RankOnto(m: Word, j: nat) returns (i: nat)
    requires j < Count(m)
    ensures i < |m| && m[i] && Rank(m, i) == j
  {
    var n := |m| - 1;
    if m[n] && Count(m[..n]) == j {
      i := n;
    } else {
      i := RankOnto(m[..n], j);
      assert m[..n][..i] == m[..i];
    }
  }

  // ---------------------------------------------------------------------------
  // Lowest set bit
  // ---------------------------------------------------------------------------

  function Lowest(m: Word): (p: nat)
    ensures p <= |m|
    ensures p < |m| ==> m[p]
    ensures forall i | 0 <= i < p :: !m[i]
  {
    if m == [] || m[0] then 0 else 1 + Lowest(m[1..])
  }

  // mask & -mask isolates the lowest set bit.
  lemma {:induction false} IsolateLowest(m: Word)
    ensures And(m, Neg(m)) == OneHot(|m|, Lowest(m))
  {
    if m != [] {
      assert Not(m)[1..] == Not(m[1..]);
      if m[0] {
        assert Neg(m) == [true] + Not(m[1..]);
      } else {
        assert Neg(m) == [false] + Neg(m[1..]);
        IsolateLowest(m[1..]);
        var rest := And(m[1..], Neg(m[1..]));
        assert forall i | 1 <= i < |m| :: And(m, Neg(m))[i] == rest[i - 1];
      }
    }
  }

  // mask & (mask - 1) clears the lowest set bit.
  lemma {:induction false} ClearLowest(m: Word)
    ensures |And(m, Dec(m))| == |m|
    ensures forall i | 0 <= i < |m| :: And(m, Dec(m))[i] == (m[i] && i != Lowest(m))
  {
    if m != [] && !m[0] {
      ClearLowest(m[1..]);
      var rest := And(m[1..], Dec(m[1..]));
      assert forall i | 1 <= i < |m| :: And(m, Dec(m))[i] == rest[i - 1];
    }
  }

  // ---------------------------------------------------------------------------
  // Deposit and extract
  // ---------------------------------------------------------------------------

  // PDEP by rank: a set mask position takes the source bit numbered by its rank.
  function Pdep(x: Word, m: Word): (r: Word)
    requires |x| == |m|
    ensures |r| == |m|
  {
    seq(|m|, i requires 0 <= i < |m| => m[i] && x[Rank(m, i)])
  }

  // The bits of x at the set positions of m, in order.
  function Pick(x: Word, m: Word): (r: Word)
    requires |x| == |m|
    ensures |r| == Count(m)
  {
    if m == [] then []
    else
      var n := |m| - 1;
      Pick(x[..n], m[..n]) + (if m[n] then [x[n]] else [])
  }

  // PEXT: the picked bits at the low end, zeros above.
  function Pext(x: Word, m: Word): (r: Word)
    requires |x| == |m|
    ensures |r| == |m|
  {
    Pick(x, m) + Zeros(|m| - Count(m))
  }

  // A set mask position i sends bit i of x to the picked bit numbered by its rank.
  lemma {:induction false} PickAt(x: Word, m: Word, i: nat)
    requires |x| == |m| && i < |m| && m[i]
    ensures Rank(m, i) < Count(m)
    ensures Pick(x, m)[Rank(m, i)] == x[i]
  {
    var n := |m| - 1;
    if i < n {
      PickAt(x[..n], m[..n], i);
      assert m[..n][..i] == m[..i];
    }
  }

  // Two words that agree on the set positions of m pick the same bits.
  lemma {:induction false} PickEqual(x: Word, y: Word, m: Word)
    requires |x| == |y| == |m|
    requires forall i | 0 <= i < |m| && m[i] :: x[i] == y[i]
    ensures Pick(x, m) == Pick(y, m)
  {
    if m != [] {
      var n := |m| - 1;
      PickEqual(x[..n], y[..n], m[..n]);
    }
  }

  lemma {:induction false} PickOfDeposit(x: Word, m: Word)
    requires |x| == |m|
    ensures Pick(Pdep(x, m), m) == x[..Count(m)]
  {
    hide Rank, Count, Pick;
    var d := Pdep(x, m);
    forall j | 0 <= j < Count(m)
      ensures Pick(d, m)[j] == x[j]
    {
      var i := RankOnto(m, j);
      PickAt(d, m, i);
    }
  }

  // Extracting what was deposited gives the source cut to the population count.
  lemma {:induction false} ExtractOfDeposit(x: Word, m: Word)
    requires |x| == |m|
    ensures Pext(Pdep(x, m), m) == x[..Count(m)] + Zeros(|m| - Count(m))
  {
    PickOfDeposit(x, m);
  }

  // Depositing what was extracted gives the word cut to the mask.
  lemma {:induction false} DepositOfExtract(x: Word, m: Word)
    requires |x| == |m|
    ensures Pdep(Pext(x, m), m) == And(x, m)
  {
    forall i | 0 <= i < |m|
      ensures Pdep(Pext(x, m), m)[i] == And(x, m)[i]
    {
      if m[i] {
        PickAt(x, m, i);
      }
    }
  }

  // ---------------------------------------------------------------------------
  // The loops of the source
  // ---------------------------------------------------------------------------

  // m0 without its k lowest set bits.
  ghost predicate Stripped(m: Word, m0: Word, k: nat) {
    && |m| == |m0|
    && forall i | 0 <= i < |m0| :: m[i] == (m0[i] && Rank(m0, i) >= k)
  }

  // The lowest set bit of m0 stripped k times has rank k, and clearing it strips once more.
  lemma {:induction false} StripNext(m: Word, m0: Word, k: nat)
    requires Stripped(m, m0, k) && Lowest(m) < |m|
    ensures Rank(m0, Lowest(m)) == k
    ensures And(m, Neg(m)) == OneHot(|m|, Lowest(m))
    ensures Stripped(And(m, Dec(m)), m0, k + 1)
    ensures Count(And(m, Dec(m))) < Count(m)
  {
    var p := Lowest(m);
    IsolateLowest(m);
    ClearedCount(m);
    ClearLowest(m);
    if Rank(m0, p) > k {
      RankMonotone(m0, p, p);
      var i := RankOnto(m0, k);
      if i >= p {
        RankMonotone(m0, p, i);
      }
      assert false;
    }
    forall i | 0 <= i < |m0|
      ensures And(m, Dec(m))[i] == (m0[i] && Rank(m0, i) >= k + 1)
    {
      if m0[i] && i < p {
        RankNext(m0, i);
        RankMonotone(m0, i + 1, p);
      } else if i > p {
        RankNext(m0, p);
        RankMonotone(m0, p + 1, i);
      }
    }
  }

  predicate IsZero(m: Word) {
    forall i | 0 <= i < |m| :: !m[i]
  }

  lemma {:induction false} CountDecreases(m: Word, p: nat)
    requires p < |m| && m[p]
    ensures Count(m[p := false]) < Count(m)
  {
    hide Count;
    CountConcat(m[..p], m[p..]);
    CountConcat([m[p]], m[p + 1..]);
    assert m[p..] == [m[p]] + m[p + 1..] && m == m[..p] + m[p..];
    var c := m[p := false];
    CountConcat(c[..p], c[p..]);
    CountConcat([c[p]], c[p + 1..]);
    assert c[p..] == [c[p]] + c[p + 1..] && c == c[..p] + c[p..];
    assert c[..p] == m[..p] && c[p + 1..] == m[p + 1..];
    CountOne(true);
    CountOne(false);
  }

  lemma {:induction false} ClearedCount(m: Word)
    requires Lowest(m) < |m|
    ensures Count(And(m, Dec(m))) < Count(m)
  {
    hide Count, Dec;
    ClearLowest(m);
    CountDecreases(m, Lowest(m));
    assert And(m, Dec(m)) == m[Lowest(m) := false];
  }

  method PdepGeneric(x: Word, mask: Word) returns (result: Word)
    requires |x| == |mask|
    ensures result == Pdep(x, mask)
  {
    var n := |mask|;
    result := Zeros(n);
    var srcBit, m := OneHot(n, 0), mask;
    ghost var k := 0;
    while !IsZero(m)
      invariant |result| == n && Stripped(m, mask, k) && srcBit == OneHot(n, k)
      invariant DepositedTo(result, x, mask, k)
      decreases Count(m)
    {
      var maskBit := And(m, Neg(m));
      StripNext(m, mask, k);
      var hit := And(x, srcBit);
      HitAt(x, k);
      DepositNext(result, x, mask, k, Lowest(m));
      if !IsZero(hit) {
        result := Or(result, maskBit);
      }
      m := And(m, Dec(m));
      ShlOneHot(n, k);
      srcBit := Shl(srcBit, 1);
      k := k + 1;
    }
  }

  lemma {:induction false} ShlOneHot(n: nat, k: nat)
    requires n > 0
    ensures Shl(OneHot(n, k), 1) == OneHot(n, k + 1)
  {
  }

  // Testing a word against one bit.
  lemma {:induction false} HitAt(x: Word, k: nat)
    requires k < |x|
    ensures !IsZero(And(x, OneHot(|x|, k))) <==> x[k]
  {
    assert And(x, OneHot(|x|, k))[k] == x[k];
  }

  // The mask positions of rank below k hold their source bits.
  ghost predicate DepositedTo(r: Word, x: Word, m0: Word, k: nat)
    requires |x| == |m0|
  {
    && |r| == |m0|
    && forall i | 0 <= i < |r| :: r[i] == (Rank(m0, i) < k && Pdep(x, m0)[i])
  }

  lemma {:induction false} DepositNext(r: Word, x: Word, m0: Word, k: nat, p: nat)
    requires |x| == |m0| && DepositedTo(r, x, m0, k)
    requires p < |m0| && m0[p] && Rank(m0, p) == k
    ensures DepositedTo(if x[k] then Or(r, OneHot(|r|, p)) else r, x, m0, k + 1)
  {
    RankIdentifies(m0, p);
  }

  method PextGeneric(x: Word, mask: Word) returns (result: Word)
    requires |x| == |mask|
    ensures result == Pext(x, mask)
  {
    var n := |mask|;
    result := Zeros(n);
    var resultBit, m := OneHot(n, 0), mask;
    ghost var k := 0;
    while !IsZero(m)
      invariant |result| == n && Stripped(m, mask, k) && resultBit == OneHot(n, k)
      invariant ExtractedTo(result, x, mask, k)
      decreases Count(m)
    {
      var maskBit := And(m, Neg(m));
      StripNext(m, mask, k);
      var hit := And(x, maskBit);
      HitAt(x, Lowest(m));
      ExtractNext(result, x, mask, k, Lowest(m));
      if !IsZero(hit) {
        result := Or(result, resultBit);
      }
      m := And(m, Dec(m));
      ShlOneHot(n, k);
      resultBit := Shl(resultBit, 1);
      k := k + 1;
    }
    ExtractDone(result, x, m, mask, k);
  }

  // The k lowest bits of PEXT(x, m0) are in place.
  ghost predicate ExtractedTo(r: Word, x: Word, m0: Word, k: nat)
    requires |x| == |m0|
  {
    && |r| == |m0|
    && forall j | 0 <= j < |r| :: r[j] == (j < k && Pext(x, m0)[j])
  }

  lemma {:induction false} ExtractNext(r: Word, x: Word, m0: Word, k: nat, p: nat)
    requires |x| == |m0| && ExtractedTo(r, x, m0, k)
    requires p < |m0| && m0[p] && Rank(m0, p) == k
    ensures ExtractedTo(if x[p] then Or(r, OneHot(|r|, k)) else r, x, m0, k + 1)
  {
    PickAt(x, m0, p);
  }

  lemma {:induction false} ExtractDone(r: Word, x: Word, m: Word, m0: Word, k: nat)
    requires |x| == |m0| && ExtractedTo(r, x, m0, k)
    requires Stripped(m, m0, k) && IsZero(m)
    ensures r == Pext(x, m0)
  {
    forall j | 0 <= j < |r|
      ensures r[j] == Pext(x, m0)[j]
    {
      if k <= j < Count(m0) {
        var i := RankOnto(m0, j);
        assert false;
      }
    }
  }

  // Distinct set positions have distinct ranks.
  lemma {:induction false} RankIdentifies(m: Word, p: nat)
    requires p < |m| && m[p]
    ensures forall i | 0 <= i < |m| && m[i] && Rank(m, i) == Rank(m, p) :: i == p
  {
    forall i | 0 <= i < |m| && m[i] && i != p
      ensures Rank(m, i) != Rank(m, p)
    {
      if i < p {
        RankNext(m, i);
        RankMonotone(m, i + 1, p);
      } else {
        RankNext(m, p);
        RankMonotone(m, p + 1, i);
      }
    }
  }

  // ---------------------------------------------------------------------------
  // Rotation
  // ---------------------------------------------------------------------------

  // bits.RotateLeft64 for any width: a negative k rotates right.
  function RotateLeft(a: Word, k: int): (r: Word)
    requires a != []
    ensures |r| == |a|
  {
    var s := k % |a|;
    Or(Shl(a, s), Shr(a, |a| - s))
  }

  function Rotate1(a: Word): (r: Word)
    requires a != []
    ensures |r| == |a|
  {
    [a[|a| - 1]] + a[..|a| - 1]
  }

  // n one-position rotations to the left.
  function RotateBy(a: Word, n: nat): (r: Word)
    requires a != []
    ensures |r| == |a|
  {
    if n == 0 then a else Rotate1(RotateBy(a, n - 1))
  }

  // The word with its s highest bits moved to the low end.
  function Rolled(a: Word, s: nat): (r: Word)
    requires s <= |a|
    ensures |r| == |a|
  {
    a[|a| - s..] + a[..|a| - s]
  }

  lemma {:induction false} RotateLeftRolls(a: Word, k: int)
    requires a != []
    ensures RotateLeft(a, k) == Rolled(a, k % |a|)
  {
  }

  lemma {:induction false} RolledNext(a: Word, s: nat)
    requires s < |a|
    ensures Rotate1(Rolled(a, s)) == Rolled(a, if s + 1 == |a| then 0 else s + 1)
  {
  }

  // n modulo w, counted up.
  function Wrap(n: nat, w: nat): (t: nat)
    requires w > 0
    ensures t < w
  {
    if n == 0 then 0
    else
      var t := Wrap(n - 1, w);
      if t + 1 == w then 0 else t + 1
  }

  lemma {:induction false} WrapIsMod(n: nat, w: nat)
    requires w > 0
    ensures Wrap(n, w) == n % w
  {
    if n == 0 {
      DivModUnique(0, w, 0, 0);
    } else {
      WrapIsMod(n - 1, w);
      ModStep(n, w);
    }
  }

  lemma {:induction false} RotateByRolls(a: Word, n: nat)
    requires a != []
    ensures RotateBy(a, n) == Rolled(a, Wrap(n, |a|))
  {
    if n > 0 {
      RotateByRolls(a, n - 1);
      RolledNext(a, Wrap(n - 1, |a|));
    }
  }

  // The shift-and-or rotation is the one-position rotation iterated.
  lemma {:induction false} RotateIterates(a: Word, n: nat)
    requires a != []
    ensures RotateLeft(a, n) == RotateBy(a, n)
  {
    RotateLeftRolls(a, n);
    RotateByRolls(a, n);
    WrapIsMod(n, |a|);
  }

  lemma {:induction false} ModStep(n: int, w: nat)
    requires w > 0
    ensures n % w == if (n - 1) % w + 1 == w then 0 else (n - 1) % w + 1
  {
    var q, t := (n - 1) / w, (n - 1) % w;
    if t + 1 == w {
      assert n == (q + 1) * w by { assert q * w + w == (q + 1) * w; }
      DivModUnique(n, w, q + 1, 0);
    } else {
      DivModUnique(n, w, q, t + 1);
    }
  }

  lemma {:induction false} DivModUnique(n: int, w: nat, q: int, r: int)
    requires 0 <= r < w && n == q * w + r
    ensures n / w == q && n % w == r
  {
    var d := n / w - q;
    assert d * w == r - n % w by { assert (n / w) * w + n % w == n; assert (n / w - q) * w == (n / w) * w - q * w; }
    MulBound(d, w);
  }

  lemma {:induction false} MulBound(d: int, w: int)
    requires w > 0
    ensures d >= 1 ==> d * w >= w
    ensures d <= -1 ==> d * w <= -w
  {
    if d >= 1 {
      assert (d - 1) * w >= 0;
    } else {
      assert d <= -1 ==> (d + 1) * w <= 0;
    }
  }

  lemma {:induction false} RotateCount(a: Word, k: int)
    requires a != []
    ensures Count(RotateLeft(a, k)) == Count(a)
  {
    RotateLeftRolls(a, k);
    var s := k % |a|;
    CountConcat(a[|a| - s..], a[..|a| - s]);
    CountConcat(a[..|a| - s], a[|a| - s..]);
    assert a == a[..|a| - s] + a[|a| - s..];
  }

  // The % of Go: the remainder has the sign of the dividend.
  function Remainder(a: int, b: int): (r: int)
    requires b > 0
    ensures -b < r < b
  {
    if a >= 0 then a % b else -((-a) % b)
  }
}

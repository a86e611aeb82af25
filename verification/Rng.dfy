/** The random half-mask (pkg/rng/rng.go): a partial shuffle of the 32 bit positions. */
module Rng {
  import opened Bits
  import opened Bytes

  // Every bit position occurs once.
  predicate Shuffled(a: seq<nat>) {
    && |a| == 32
    && (forall i | 0 <= i < 32 :: a[i] < 32)
    && (forall i, j | 0 <= i < j < 32 :: a[i] != a[j])
  }

  lemma {:induction false} SwapShuffled(a: seq<nat>, i: nat, j: nat)
    requires Shuffled(a) && i <= j < 32
    ensures Shuffled(a[i := a[j]][j := a[i]])
  {}

  lemma {:induction false} CountUpdate(w: Word, p: nat)
    requires p < |w| && !w[p]
    ensures Count(w[p := true]) == Count(w) + 1
  {
    var n := |w| - 1;
    if p < n {
      CountUpdate(w[..n], p);
      assert w[p := true][..n] == w[..n][p := true];
    } else {
      assert w[p := true][..n] == w[..n];
    }
  }

  // The bits at the first i positions.
  predicate Marked(w: Word, a: seq<nat>, i: nat)
    requires Shuffled(a) && |w| == 32 && i <= 32
  {
    forall p | 0 <= p < 32 :: w[p] <==> p in a[..i]
  }

  lemma {:induction false} MarkNext(w: Word, a: seq<nat>, i: nat)
    requires Shuffled(a) && |w| == 32 && i < 32 && Marked(w, a, i)
    ensures !w[a[i]] && Marked(w[a[i] := true], a, i + 1)
  {
    assert a[..i + 1] == a[..i] + [a[i]];
    assert a[i] !in a[..i];
  }

  lemma {:induction false} OrOneHot(w: Word, p: nat)
    requires p < |w|
    ensures Or(w, OneHot(|w|, p)) == w[p := true]
  {}

  // draw(i) is what mrand.Intn gives in round i. The result has exactly n bits set, whatever
  // the draws are; a bad n panics.
  method Uint32WithBits(n: int, draw: nat -> nat) returns (r: Result<Word>)
    requires forall i | 0 <= i < 32 :: draw(i) < 32 - i
    ensures r.Ok? <==> 0 <= n <= 32
    ensures r.Ok? ==> |r.value| == 32 && Count(r.value) == n
  {
    hide Or, OneHot, Marked, Count;
    if n < 0 || n > 32 {
      return Err;
    }
    var bitPositions := new nat[32](i => i);
    var result := Zeros(32);
    NoneMarked(bitPositions[..]);
    for i := 0 to n
      invariant Shuffled(bitPositions[..]) && |result| == 32 && Marked(result, bitPositions[..], i) && Count(result) == i
    {
      var j := i + draw(i);
      ghost var before := bitPositions[..];
      SwapShuffled(before, i, j);
      bitPositions[i], bitPositions[j] := bitPositions[j], bitPositions[i];
      assert bitPositions[..] == before[i := before[j]][j := before[i]];
      MarkedSame(result, before, bitPositions[..], i);
      MarkNext(result, bitPositions[..], i);
      OrOneHot(result, bitPositions[i]);
      CountUpdate(result, bitPositions[i]);
      result := Or(result, OneHot(32, bitPositions[i]));
    }
    return Ok(result);
  }

  lemma {:induction false} NoneMarked(a: seq<nat>)
    requires |a| == 32 && forall i | 0 <= i < 32 :: a[i] == i
    ensures Shuffled(a) && Marked(Zeros(32), a, 0) && Count(Zeros(32)) == 0
  {
    CountZeros(32);
  }

  lemma {:induction false} CountZeros(n: nat)
    ensures Count(Zeros(n)) == 0
  {
    if n > 0 {
      CountZeros(n - 1);
      assert Zeros(n)[..n - 1] == Zeros(n - 1);
    }
  }

  lemma {:induction false} MarkedSame(w: Word, a: seq<nat>, b: seq<nat>, i: nat)
    requires Shuffled(a) && Shuffled(b) && |w| == 32 && i <= 32 && Marked(w, a, i) && a[..i] == b[..i]
    ensures Marked(w, b, i)
  {}
}

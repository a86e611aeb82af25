/** The block cipher around an AEAD and its two nonce modes (pkg/cipher/cipher.go). The AEAD
    itself is a pair of functions. */
module Cipher {
  import opened Bits
  import opened Bytes
  import opened Fragment
  import opened Metadata

  datatype Aead = Aead(
    seal: (seq<byte>, seq<byte>) -> seq<byte>,
    open: (seq<byte>, seq<byte>) -> Result<seq<byte>>)

  // Opening what was sealed under the same nonce gives it back; the tag has a fixed length.
  ghost predicate Sound(a: Aead) {
    forall n, p :: a.open(n, a.seal(n, p)) == Ok(p) && |a.seal(n, p)| == |p| + OVERHEAD
  }

  // ---------------------------------------------------------------------------
  // The implicit nonce
  // ---------------------------------------------------------------------------

  predicate AllOnes(w: Word) {
    forall i | 0 <= i < |w| :: w[i]
  }

  lemma {:induction false} IncConcat(a: Word, b: Word)
    ensures Inc(a + b) == Inc(a) + if AllOnes(a) then Inc(b) else b
    decreases |a|
  {
    if a == [] {
      assert a + b == b && [] + Inc(b) == Inc(b);
    } else {
      assert (a + b)[1..] == a[1..] + b;
      if a[0] {
        IncConcat(a[1..], b);
        assert AllOnes(a) <==> AllOnes(a[1..]) by {
          assert forall i | 0 < i < |a| :: a[i] == a[1..][i - 1];
        }
        Associates([false], Inc(a[1..]), if AllOnes(a) then Inc(b) else b);
      } else {
        Associates([true], a[1..], b);
      }
    }
  }

  lemma {:induction false} IncAt(a: Word, i: nat)
    requires i < |a|
    ensures Inc(a)[i] == (a[i] != AllOnes(a[..i]))
    decreases |a|
  {
    if i > 0 {
      assert a[..i][0] == a[0];
      if a[0] {
        IncAt(a[1..], i - 1);
        assert a[1..][..i - 1] == a[..i][1..];
        assert AllOnes(a[..i]) <==> AllOnes(a[..i][1..]) by {
          assert forall j | 0 < j < i :: a[..i][j] == a[..i][1..][j - 1];
        }
      }
    }
  }

  // Bit i of x + 1 differs from bit i of x exactly when all the bits below it are set.
  lemma {:induction false} ByteIncBits(x: byte)
    ensures (x + 1) & 1 != 0 <==> x & 1 == 0
    ensures (x + 1) & 2 != 0 <==> ((x & 2 != 0) != (x & 1 != 0))
    ensures (x + 1) & 4 != 0 <==> ((x & 4 != 0) != (x & 3 == 3))
    ensures (x + 1) & 8 != 0 <==> ((x & 8 != 0) != (x & 7 == 7))
    ensures (x + 1) & 16 != 0 <==> ((x & 16 != 0) != (x & 15 == 15))
    ensures (x + 1) & 32 != 0 <==> ((x & 32 != 0) != (x & 31 == 31))
    ensures (x + 1) & 64 != 0 <==> ((x & 64 != 0) != (x & 63 == 63))
    ensures (x + 1) & 128 != 0 <==> ((x & 128 != 0) != (x & 127 == 127))
  {}

  lemma {:induction false} ByteLowOnes(x: byte)
    ensures x & 3 == 3 <==> x & 1 != 0 && x & 2 != 0
    ensures x & 7 == 7 <==> x & 3 == 3 && x & 4 != 0
    ensures x & 15 == 15 <==> x & 7 == 7 && x & 8 != 0
    ensures x & 31 == 31 <==> x & 15 == 15 && x & 16 != 0
    ensures x & 63 == 63 <==> x & 31 == 31 && x & 32 != 0
    ensures x & 127 == 127 <==> x & 63 == 63 && x & 64 != 0
    ensures x + 1 == 0 <==> x & 127 == 127 && x & 128 != 0
  {}

  lemma {:induction false} AllOnesNext(w: Word, i: nat)
    requires i < |w|
    ensures AllOnes(w[..i + 1]) <==> AllOnes(w[..i]) && w[i]
  {
    assert forall j | 0 <= j < i :: w[..i + 1][j] == w[..i][j];
    assert w[..i + 1][i] == w[i];
  }

  // Inc on four bits, written out.
  lemma {:induction false} IncFour(w: Word)
    requires |w| == 4
    ensures Inc(w) == [!w[0], w[1] != w[0], w[2] != (w[0] && w[1]), w[3] != (w[0] && w[1] && w[2])]
    ensures AllOnes(w) <==> w[0] && w[1] && w[2] && w[3]
  {
    hide AllOnes, Inc;
    NoOnes();
    assert w[..0] == [] && w[..4] == w;
    IncAt(w, 0);
    AllOnesNext(w, 0);
    IncAt(w, 1);
    AllOnesNext(w, 1);
    IncAt(w, 2);
    AllOnesNext(w, 2);
    IncAt(w, 3);
    AllOnesNext(w, 3);
  }

  lemma {:induction false} AllOnesConcat(a: Word, b: Word)
    ensures AllOnes(a + b) <==> AllOnes(a) && AllOnes(b)
  {
    assert forall i | 0 <= i < |a| :: a[i] == (a + b)[i];
    assert forall i | 0 <= i < |b| :: b[i] == (a + b)[|a| + i];
  }

  lemma {:induction false} IncEight(w: Word)
    requires |w| == 8
    ensures
      (var a2 := w[0] && w[1]; var a3 := a2 && w[2]; var a4 := a3 && w[3];
       var a5 := a4 && w[4]; var a6 := a5 && w[5]; var a7 := a6 && w[6];
       && Inc(w) == [!w[0], w[1] != w[0], w[2] != a2, w[3] != a3, w[4] != a4, w[5] != a5, w[6] != a6, w[7] != a7]
       && (AllOnes(w) <==> a7 && w[7]))
  {
    hide AllOnes, Inc;
    var low, high := w[..4], w[4..];
    assert w == low + high;
    IncFour(low);
    IncFour(high);
    IncConcat(low, high);
    AllOnesConcat(low, high);
  }

  lemma {:induction false} ByteInc(x: byte)
    ensures BitsOf(x + 1) == Inc(BitsOf(x)) && (x + 1 == 0 <==> AllOnes(BitsOf(x)))
  {
    hide AllOnes, Inc;
    ByteIncBits(x);
    ByteLowOnes(x);
    IncEight(BitsOf(x));
  }

  lemma {:induction false} NoOnes()
    ensures AllOnes([])
  {}

  // One step of the carry: the last byte that does not overflow takes it.
  function Increased(n: seq<byte>): (r: seq<byte>)
    ensures |r| == |n|
  {
    if n == [] then []
    else
      var last := n[|n| - 1] + 1;
      if last != 0 then n[..|n| - 1] + [last] else Increased(n[..|n| - 1]) + [0]
  }

  lemma {:induction false} IncreasedIsInc(n: seq<byte>)
    ensures WordOf(Increased(n)) == Inc(WordOf(n))
  {
    hide BitsOf, Inc, WordOf;
    if n == [] {
      EmptyInc();
    } else {
      var front, x := n[..|n| - 1], n[|n| - 1];
      assert n == front + [x];
      WordOfConcat(front, [x]);
      WordOfOne(x);
      ByteInc(x);
      IncConcat(BitsOf(x), WordOf(front));
      if x + 1 != 0 {
        WordOfConcat(front, [x + 1]);
        WordOfOne(x + 1);
      } else {
        IncreasedIsInc(front);
        WordOfConcat(Increased(front), [x + 1]);
        WordOfOne(x + 1);
      }
    }
  }

  lemma {:induction false} EmptyInc()
    ensures WordOf([]) == [] && Inc([]) == []
  {}

  lemma {:induction false} WordOfOne(x: byte)
    ensures WordOf([x]) == BitsOf(x)
  {
    hide BitsOf;
    assert WordOf([x]) == WordOf([x][1..]) + BitsOf(x) && WordOf([x][1..]) == [];
  }

  // The nonce is a big-endian counter: each step adds one, modulo 256 to the number of bytes.
  lemma {:induction false} IncreasedValue(n: seq<byte>)
    ensures Get(Increased(n)) == (Get(n) + 1) % Pow2(8 * |n|)
  {
    hide Increased, Inc, WordOf;
    IncreasedIsInc(n);
    IncValue(WordOf(n));
    if Get(n) + 1 < Pow2(8 * |n|) {
      SmallMod(Get(n) + 1, Pow2(8 * |n|));
    } else {
      SelfMod(Pow2(8 * |n|));
    }
  }

  lemma {:induction false} SmallMod(a: nat, b: nat)
    requires a < b
    ensures a % b == a
  {}

  lemma {:induction false} SelfMod(b: nat)
    requires b > 0
    ensures b % b == 0
  {}

  // increaseNonce: the loop adds one from the last byte on and stops at the first byte that
  // does not wrap to zero.
  method IncreaseNonce(nonce: array<byte>)
    modifies nonce
    ensures nonce[..] == Increased(old(nonce[..]))
  {
    ghost var n := nonce[..];
    assert n[..nonce.Length] == n && Increased(n) + [] == Increased(n);
    var i := 0;
    while i < nonce.Length
      invariant 0 <= i <= nonce.Length
      invariant Increased(n) == Increased(n[..nonce.Length - i]) + nonce[nonce.Length - i..]
      invariant nonce[..nonce.Length - i] == n[..nonce.Length - i]
    {
      var j := nonce.Length - 1 - i;
      ghost var front := n[..j + 1];
      assert front[..j] == n[..j] && front[j] == n[j];
      nonce[j] := nonce[j] + 1;
      if nonce[j] != 0 {
        assert nonce[..] == n[..j] + [nonce[j]] + nonce[j + 1..];
        return;
      }
      assert nonce[j..] == [0] + nonce[j + 1..];
      Associates(Increased(n[..j]), [0], nonce[j + 1..]);
      i := i + 1;
    }
  }

  // ---------------------------------------------------------------------------
  // Encrypt and Decrypt
  // ---------------------------------------------------------------------------

  // The mutable part of a cipher: the mode, and the implicit nonce, which is empty at first.
  datatype State = State(implicit: bool, nonce: seq<byte>)

  // `random` is the nonce that the random source gives.
  function Encrypted(a: Aead, s: State, plaintext: seq<byte>, random: seq<byte>): (r: (seq<byte>, State)) {
    if !s.implicit then (random + a.seal(random, plaintext), s)
    else if s.nonce == [] then (random + a.seal(random, plaintext), s.(nonce := random))
    else (a.seal(Increased(s.nonce), plaintext), s.(nonce := Increased(s.nonce)))
  }

  function Decrypted(a: Aead, s: State, c: seq<byte>): (r: (Result<seq<byte>>, State)) {
    if s.implicit && s.nonce != [] then (a.open(Increased(s.nonce), c), s.(nonce := Increased(s.nonce)))
    else if |c| < NONCE_SIZE then (Err, s)
    else (a.open(c[..NONCE_SIZE], c[NONCE_SIZE..]), if s.implicit then s.(nonce := c[..NONCE_SIZE]) else s)
  }

  // Two ciphers in the same state: what one encrypts the other decrypts, and their states
  // are the same again.
  lemma {:induction false} CipherRoundTrip(a: Aead, s: State, plaintext: seq<byte>, random: seq<byte>)
    requires Sound(a) && |random| == NONCE_SIZE
    ensures
      (var (c, t) := Encrypted(a, s, plaintext, random);
       && Decrypted(a, s, c) == (Ok(plaintext), t)
       && |c| == |plaintext| + OVERHEAD + if s.implicit && s.nonce != [] then 0 else NONCE_SIZE)
  {
    hide Increased;
    var c := random + a.seal(random, plaintext);
    assert c[..NONCE_SIZE] == random && c[NONCE_SIZE..] == a.seal(random, plaintext);
  }

  class BlockCipher {
    const aead: Aead
    var enableImplicitNonce: bool
    var implicitNonce: array<byte>

    ghost function Abs(): State
      reads this, implicitNonce
    {
      State(enableImplicitNonce, implicitNonce[..])
    }

    constructor (a: Aead)
      ensures aead == a && Abs() == State(false, []) && fresh(implicitNonce)
    {
      aead := a;
      enableImplicitNonce := false;
      implicitNonce := new byte[0];
    }

    method Encrypt(plaintext: seq<byte>, random: seq<byte>) returns (dst: seq<byte>)
      modifies this, implicitNonce
      ensures (dst, Abs()) == Encrypted(aead, old(Abs()), plaintext, random)
      ensures fresh(implicitNonce) || implicitNonce == old(implicitNonce)
    {
      hide Increased;
      var needSendNonce := !enableImplicitNonce || implicitNonce.Length == 0;
      var nonce := random;
      if enableImplicitNonce {
        if implicitNonce.Length == 0 {
          implicitNonce := new byte[|random|](i requires 0 <= i < |random| => random[i]);
          assert implicitNonce[..] == random;
        } else {
          IncreaseNonce(implicitNonce);
        }
        nonce := implicitNonce[..];
      }
      dst := aead.seal(nonce, plaintext);
      if needSendNonce {
        dst := nonce + dst;
      }
    }

    method Decrypt(ciphertext: seq<byte>) returns (r: Result<seq<byte>>)
      modifies this, implicitNonce
      ensures (r, Abs()) == Decrypted(aead, old(Abs()), ciphertext)
      ensures fresh(implicitNonce) || implicitNonce == old(implicitNonce)
    {
      hide Increased;
      var nonce, body := [], ciphertext;
      if enableImplicitNonce {
        if implicitNonce.Length == 0 {
          if |ciphertext| < NONCE_SIZE {
            return Err;
          }
          implicitNonce := new byte[NONCE_SIZE](i requires 0 <= i < NONCE_SIZE => ciphertext[i]);
          assert implicitNonce[..] == ciphertext[..NONCE_SIZE];
          body := ciphertext[NONCE_SIZE..];
        } else {
          IncreaseNonce(implicitNonce);
        }
        nonce := implicitNonce[..];
      } else {
        if |ciphertext| < NONCE_SIZE {
          return Err;
        }
        nonce := ciphertext[..NONCE_SIZE];
        body := ciphertext[NONCE_SIZE..];
      }
      r := aead.open(nonce, body);
    }
  }
}

/** getBucket: a polynomial hash in 64-bit two's complement, then Go's truncated remainder. */
module Buckets {
  const BUCKET_COUNT := 16
  const TWO_63 := 0x8000_0000_0000_0000
  const TWO_64 := 0x1_0000_0000_0000_0000

  /** A key is the sequence of its code points. */
  type Rune = c: int | 0 <= c <= 0x10FFFF

  function Wrap(x: int): (w: int)
    ensures -TWO_63 <= w < TWO_63
  {
    (x + TWO_63) % TWO_64 - TWO_63
  }

  /** Go's `%`: the sign of the result follows the dividend. */
  function Rem(a: int, b: int): int
    requires b > 0
  {
    if a >= 0 then a % b else -((-a) % b)
  }

  /** The hash over the integers. */
  function Unwrapped(key: seq<Rune>): nat {
    if key == [] then 0 else 31 * Unwrapped(key[..|key| - 1]) + key[|key| - 1]
  }

  /** Last code point minus the one before it plus the one before that, and so on. */
  function AlternatingSum(key: seq<Rune>): int {
    if key == [] then 0 else key[|key| - 1] - AlternatingSum(key[..|key| - 1])
  }

  /** The difference is a multiple of 16. */
  predicate Congruent16(a: int, b: int) {
    (a - b) % BUCKET_COUNT == 0
  }

  method GetBucket(key: seq<Rune>) returns (b: int)
    ensures b == Rem(Wrap(Unwrapped(key)), BUCKET_COUNT)
    ensures -16 < b < 16
    ensures Congruent16(b, AlternatingSum(key))
    ensures 0 <= b <==> Wrap(Unwrapped(key)) >= 0 || Congruent16(AlternatingSum(key), 0)
  {
    var h := 0;
    for i := 0 to |key|
      invariant h == Wrap(Unwrapped(key[..i]))
    {
      assert key[..i + 1][..i] == key[..i];
      WrapStep(Unwrapped(key[..i]), key[i]);
      h := Wrap(31 * h + key[i]);
    }
    assert key[..|key|] == key;
    b := Rem(h, BUCKET_COUNT);
    BucketResidue(key);
  }

  lemma WrapMod(x: int) returns (k: int)
    ensures x == Wrap(x) + k * TWO_64
  {
    k := (x + TWO_63) / TWO_64;
  }

  lemma WrapShift(x: int, k: int)
    ensures Wrap(x + k * TWO_64) == Wrap(x)
  {
    var q, r := (x + TWO_63) / TWO_64, (x + TWO_63) % TWO_64;
    assert x + k * TWO_64 + TWO_63 == (q + k) * TWO_64 + r;
    QuotientUnique(x + k * TWO_64 + TWO_63, q + k, r);
  }

  lemma QuotientUnique(x: int, q: int, r: int)
    requires x == q * TWO_64 + r && 0 <= r < TWO_64
    ensures x % TWO_64 == r
  {
  }

  /** Wrapping at every step or once at the end is the same. */
  lemma WrapStep(u: nat, c: Rune)
    ensures Wrap(31 * Wrap(u) + c) == Wrap(31 * u + c)
  {
    var k := WrapMod(u);
    assert 31 * u + c == 31 * Wrap(u) + c + (31 * k) * TWO_64;
    WrapShift(31 * Wrap(u) + c, 31 * k);
  }

  lemma Multiple(a: int, b: int, d: int)
    requires a - b == 16 * d
    ensures Congruent16(a, b)
  {
  }

  lemma Quotient(a: int, b: int) returns (d: int)
    requires Congruent16(a, b)
    ensures a - b == 16 * d
  {
    d := (a - b) / 16;
  }

  /** 31 is -1 modulo 16. */
  lemma {:induction false} UnwrappedResidue(key: seq<Rune>)
    ensures Congruent16(Unwrapped(key), AlternatingSum(key))
  {
    if key != [] {
      var rest := key[..|key| - 1];
      UnwrappedResidue(rest);
      var d := Quotient(Unwrapped(rest), AlternatingSum(rest));
      Multiple(Unwrapped(key), AlternatingSum(key), 2 * Unwrapped(rest) - d);
    }
  }

  lemma CongruentChain(a: int, b: int, c: int)
    requires Congruent16(a, b) && Congruent16(c, b)
    ensures Congruent16(a, c)
  {
    var d := Quotient(a, b);
    var e := Quotient(c, b);
    Multiple(a, c, d - e);
  }

  /** 16 divides 2^64. */
  lemma WrapCongruent(u: int)
    ensures Congruent16(Wrap(u), u)
  {
    var k := WrapMod(u);
    Multiple(Wrap(u), u, -k * 0x1000_0000_0000_0000);
  }

  lemma BucketResidue(key: seq<Rune>)
    ensures Congruent16(Rem(Wrap(Unwrapped(key)), BUCKET_COUNT), AlternatingSum(key))
    ensures 0 <= Rem(Wrap(Unwrapped(key)), BUCKET_COUNT)
            <==> Wrap(Unwrapped(key)) >= 0 || Congruent16(AlternatingSum(key), 0)
  {
    var u, s := Unwrapped(key), AlternatingSum(key);
    var w := Wrap(u);
    var r := Rem(w, BUCKET_COUNT);
    UnwrappedResidue(key);
    WrapCongruent(u);
    RemCongruent(w);
    CongruentSymmetric(u, s);
    CongruentChain(s, u, w);
    CongruentSymmetric(s, w);
    CongruentChain(r, w, s);
    ZeroChain(w, s);
  }

  lemma CongruentSymmetric(a: int, b: int)
    requires Congruent16(a, b)
    ensures Congruent16(b, a)
  {
    var d := Quotient(a, b);
    Multiple(b, a, -d);
  }

  lemma ZeroChain(a: int, b: int)
    requires Congruent16(a, b)
    ensures Congruent16(a, 0) <==> Congruent16(b, 0)
  {
    var d := Quotient(a, b);
    if Congruent16(a, 0) {
      var e := Quotient(a, 0);
      Multiple(b, 0, e - d);
    }
    if Congruent16(b, 0) {
      var e := Quotient(b, 0);
      Multiple(a, 0, e + d);
    }
  }

  lemma RemCongruent(w: int)
    ensures Congruent16(Rem(w, BUCKET_COUNT), w) && -16 < Rem(w, BUCKET_COUNT) < 16
    ensures 0 <= Rem(w, BUCKET_COUNT) <==> w >= 0 || Congruent16(w, 0)
  {
    if w >= 0 {
      Multiple(w % 16, w, -(w / 16));
    } else {
      Multiple(-((-w) % 16), w, (-w) / 16);
      if Congruent16(w, 0) {
        var e := Quotient(w, 0);
        assert (-w) % 16 == 0 by { Multiple(-w, 0, -e); }
      }
      if (-w) % 16 == 0 {
        Multiple(w, 0, -((-w) / 16));
      }
    }
  }

  // ---- short keys ----

  function Power31(n: nat): (p: nat)
    ensures p > 0
  {
    if n == 0 then 1 else 31 * Power31(n - 1)
  }

  lemma Horner(a: int, p: int)
    ensures 31 * (a * (p - 1)) + 30 * a == a * (31 * p - 1)
  {
  }

  lemma {:induction false} HashBound(key: seq<Rune>, top: nat)
    requires forall c <- key :: c <= top
    ensures 30 * Unwrapped(key) <= top * (Power31(|key|) - 1)
  {
    if key != [] {
      var rest := key[..|key| - 1];
      assert key[|key| - 1] in key;
      assert forall c <- rest :: c in key;
      HashBound(rest, top);
      Horner(top, Power31(|rest|));
    }
  }

  lemma {:induction false} Power31Monotone(m: nat, n: nat)
    requires m <= n
    ensures Power31(m) <= Power31(n)
  {
    if m < n { Power31Monotone(m, n - 1); }
  }

  /** The bucket is a bucket index whenever the hash does not overflow, in particular for every ASCII key
      of at most twelve characters. */
  lemma BucketInRange(key: seq<Rune>)
    requires Unwrapped(key) < TWO_63 || (|key| <= 12 && forall c <- key :: c < 128)
    ensures Unwrapped(key) < TWO_63
    ensures Rem(Wrap(Unwrapped(key)), BUCKET_COUNT) == Unwrapped(key) % BUCKET_COUNT
    ensures 0 <= Rem(Wrap(Unwrapped(key)), BUCKET_COUNT) < BUCKET_COUNT
  {
    if |key| <= 12 && forall c <- key :: c < 128 {
      HashBound(key, 127);
      Power31Monotone(|key|, 12);
      assert Power31(12) == 787662783788549761 by {
        assert Power31(4) == 923521;
        assert Power31(8) == 852891037441;
      }
      assert 30 * Unwrapped(key) <= 127 * (Power31(12) - 1);
    }
  }

  lemma {:induction false} RepeatedHash(key: seq<Rune>, c: Rune)
    requires forall x <- key :: x == c
    ensures 30 * Unwrapped(key) == c * (Power31(|key|) - 1)
  {
    if key != [] {
      var rest, p := key[..|key| - 1], Power31(|key| - 1);
      assert key[|key| - 1] in key;
      assert forall x <- rest :: x in key;
      RepeatedHash(rest, c);
      Horner(c, p);
    }
  }

  /** Longer keys do overflow into negative buckets: thirteen letters "f" are enough. */
  lemma BucketCanBeNegative(key: seq<Rune>)
    requires |key| == 13 && forall c <- key :: c == 102
    ensures Rem(Wrap(Unwrapped(key)), BUCKET_COUNT) == -10
  {
    RepeatedHash(key, 102);
    assert Power31(13) == 24417546297445042591 by {
      assert Power31(4) == 923521;
      assert Power31(8) == 852891037441;
      assert Power31(12) == 787662783788549761;
    }
    assert Unwrapped(key) == 83019657411313144806;
  }
}

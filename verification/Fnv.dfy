/** utils/Map/concurrentMap/map.go, lines 57-59 and 343-356: the hash that picks a shard.

    32-bit words are integers below 2^32; the wrap-around of the product and the exclusive or of
    two words are written out. */
module Fnv {
  import opened Bytes
  import Shards

  const WORD := 0x1_0000_0000
  const OFFSET := 2166136261
  const PRIME := 16777619
  const PRIME_INVERSE := 899433627   // PRIME * PRIME_INVERSE is 1 modulo 2^32

  type word = x: int | 0 <= x < WORD

  function Pow2(n: nat): int {
    if n == 0 then 1 else 2 * Pow2(n - 1)
  }

  // The exclusive or of the low n bits of x and y.
  function Xor(x: nat, y: nat, n: nat): nat {
    if n == 0 then 0 else (if x % 2 == y % 2 then 0 else 1) + 2 * Xor(x / 2, y / 2, n - 1)
  }

  lemma {:induction false} XorBound(x: nat, y: nat, n: nat)
    ensures Xor(x, y, n) < Pow2(n)
  {
    if n != 0 {
      XorBound(x / 2, y / 2, n - 1);
    }
  }

  // Doing it twice undoes it, on either side.
  lemma {:induction false} XorCancels(x: nat, y: nat, n: nat)
    ensures x < Pow2(n) ==> Xor(Xor(x, y, n), y, n) == x
    ensures y < Pow2(n) ==> Xor(x, Xor(x, y, n), n) == y
  {
    if n != 0 {
      XorCancels(x / 2, y / 2, n - 1);
      var z := Xor(x, y, n);
      assert z % 2 == (if x % 2 == y % 2 then 0 else 1) && z / 2 == Xor(x / 2, y / 2, n - 1);
    }
  }

  // The low two bits come from the low two bits.
  lemma XorLowBits(x: nat, y: nat, n: nat)
    requires 2 <= n
    ensures Xor(x, y, n) % 4 == Xor(x % 4, y % 4, 2)
  {
    XorTwice(x, y, n);
    XorTwice(x % 4, y % 4, 2);
    Digits(x);
    Digits(y);
    LowDigits(Bit(x % 2, y % 2), Bit(x / 2 % 2, y / 2 % 2), Xor(x / 2 / 2, y / 2 / 2, n - 2));
  }

  lemma LowDigits(a: int, b: int, t: int)
    requires 0 <= a <= 1 && 0 <= b <= 1
    ensures (a + 2 * b + 4 * t) % 4 == a + 2 * b
  {
  }

  function Bit(a: int, b: int): int { if a == b then 0 else 1 }

  lemma Digits(x: nat)
    ensures x % 4 % 2 == x % 2 && x % 4 / 2 % 2 == x / 2 % 2
  {
  }

  lemma XorTwice(x: nat, y: nat, n: nat)
    requires 2 <= n
    ensures Xor(x, y, n) == Bit(x % 2, y % 2) + 2 * Bit(x / 2 % 2, y / 2 % 2) + 4 * Xor(x / 2 / 2, y / 2 / 2, n - 2)
  {
    assert Xor(x, y, n) == Bit(x % 2, y % 2) + 2 * Xor(x / 2, y / 2, n - 1);
  }

  function Product(hash: word): word { (hash * PRIME) % WORD }

  // hash *= prime32; hash ^= uint32(b)
  function Step(hash: word, b: byte): (r: word) {
    XorBound(Product(hash), b, 32);
    assert Pow2(32) == WORD by { Pow2Word(); }
    Xor(Product(hash), b, 32)
  }

  lemma Pow2Word()
    ensures Pow2(32) == WORD
  {
    assert Pow2(8) == 256;
    assert Pow2(16) == 65536;
    assert Pow2(24) == 0x100_0000;
  }

  function From(hash: word, key: seq<byte>): word {
    if key == [] then hash else Step(From(hash, key[..|key| - 1]), key[|key| - 1])
  }

  function Hash(key: seq<byte>): word { From(OFFSET, key) }

  method Fnv32(key: seq<byte>) returns (hash: word)
    ensures hash == Hash(key)
  {
    hash := OFFSET;
    for i := 0 to |key|
      invariant hash == Hash(key[..i])
    {
      assert key[..i + 1][..i] == key[..i];
      XorBound((hash * PRIME) % WORD, key[i], 32);
      Pow2Word();
      hash := (hash * PRIME) % WORD;
      hash := Xor(hash, key[i], 32);
    }
    assert key[..|key|] == key;
  }

  // The prime is invertible modulo 2^32.
  lemma ProductInverts(hash: word)
    ensures (Product(hash) * PRIME_INVERSE) % WORD == hash
  {
    var k := hash * PRIME / WORD;
    var t := hash * (PRIME * PRIME_INVERSE / WORD) - k * PRIME_INVERSE;
    assert Product(hash) == hash * PRIME - WORD * k;
    assert Product(hash) * PRIME_INVERSE == hash + WORD * t;
    Remainder(Product(hash) * PRIME_INVERSE, t, hash);
  }

  lemma Remainder(x: int, t: int, r: word)
    requires x == r + WORD * t
    ensures x % WORD == r
  {
  }

  // The state before a byte, from the state after it.
  function Unstep(hash: word, b: byte): word {
    (Xor(hash, b, 32) * PRIME_INVERSE) % WORD
  }

  // Each byte step is a bijection on 32-bit states.
  lemma StepIsBijective(hash: word, b: byte)
    ensures Unstep(Step(hash, b), b) == hash
    ensures Step(Unstep(hash, b), b) == hash
  {
    Pow2Word();
    XorCancels(Product(hash), b, 32);
    ProductInverts(hash);
    XorBound(hash, b, 32);
    XorCancels(hash, b, 32);
    var x: word := Xor(hash, b, 32);
    ProductInvertsBack(x);
  }

  lemma ProductInvertsBack(x: word)
    ensures Product((x * PRIME_INVERSE) % WORD) == x
  {
    var y := (x * PRIME_INVERSE) % WORD;
    var k := x * PRIME_INVERSE / WORD;
    var t := x * (PRIME * PRIME_INVERSE / WORD) - k * PRIME;
    assert y == x * PRIME_INVERSE - WORD * k;
    assert y * PRIME == x + WORD * t;
    Remainder(y * PRIME, t, x);
  }

  lemma StepTellsBytesApart(hash: word, b: byte, c: byte)
    requires Step(hash, b) == Step(hash, c)
    ensures b == c
  {
    Pow2Word();
    XorCancels(Product(hash), b, 32);
    XorCancels(Product(hash), c, 32);
  }

  lemma {:induction false} FromConcat(hash: word, a: seq<byte>, b: seq<byte>)
    ensures From(hash, a + b) == From(From(hash, a), b)
  {
    if b == [] {
      assert a + b == a;
    } else {
      assert (a + b)[..|a + b| - 1] == a + b[..|b| - 1];
      FromConcat(hash, a, b[..|b| - 1]);
    }
  }

  lemma {:induction false} FromInjective(g: word, h: word, key: seq<byte>)
    ensures From(g, key) == From(h, key) <==> g == h
  {
    if key != [] {
      var earlier := key[..|key| - 1];
      var b := key[|key| - 1];
      FromInjective(g, h, earlier);
      StepIsBijective(From(g, earlier), b);
      StepIsBijective(From(h, earlier), b);
    }
  }

  // A common suffix neither creates nor removes a collision.
  lemma SuffixKeepsCollisions(a: seq<byte>, b: seq<byte>, suffix: seq<byte>)
    ensures Hash(a + suffix) == Hash(b + suffix) <==> Hash(a) == Hash(b)
  {
    FromConcat(OFFSET, a, suffix);
    FromConcat(OFFSET, b, suffix);
    FromInjective(Hash(a), Hash(b), suffix);
  }

  // Keys of one length that differ in exactly one byte never collide.
  lemma OneByteApart(prefix: seq<byte>, b: byte, c: byte, suffix: seq<byte>)
    requires b != c
    ensures Hash(prefix + [b] + suffix) != Hash(prefix + [c] + suffix)
  {
    SuffixKeepsCollisions(prefix + [b], prefix + [c], suffix);
    FromConcat(OFFSET, prefix, [b]);
    FromConcat(OFFSET, prefix, [c]);
    assert From(Hash(prefix), [b]) == Step(Hash(prefix), b);
    assert From(Hash(prefix), [c]) == Step(Hash(prefix), c);
    if Step(Hash(prefix), b) == Step(Hash(prefix), c) {
      StepTellsBytesApart(Hash(prefix), b, c);
    }
  }

  // The shard of a key, from the low two bits of each byte alone.
  function ShardBits(key: seq<byte>): nat {
    if key == [] then 1 else Xor(3 * ShardBits(key[..|key| - 1]) % 4, key[|key| - 1] % 4, 2)
  }

  lemma {:induction false} ShardFromLowBits(key: seq<byte>)
    ensures Hash(key) % Shards.SHARD_COUNT == ShardBits(key)
  {
    if key != [] {
      var h := Hash(key[..|key| - 1]);
      ShardFromLowBits(key[..|key| - 1]);
      XorLowBits(Product(h), key[|key| - 1], 32);
      ProductLowBits(h);
    }
  }

  lemma ProductLowBits(hash: word)
    ensures Product(hash) % 4 == 3 * (hash % 4) % 4
  {
    var k := hash * PRIME / WORD;
    var q := hash / 4;
    assert Product(hash) == hash * PRIME - WORD * k;
    SameLowBits(Product(hash), 3 * (hash % 4), PRIME * q + 4194404 * (hash % 4) - 0x4000_0000 * k);
  }

  lemma SameLowBits(x: int, y: int, t: int)
    requires x == y + 4 * t
    ensures x % 4 == y % 4
  {
  }

  function BitAt(x: nat, k: nat): nat { if k == 0 then x % 2 else BitAt(x / 2, k - 1) }

  // The exclusive or, bit by bit.
  lemma {:induction false} XorBits(x: nat, y: nat, n: nat, k: nat)
    requires k < n
    ensures BitAt(Xor(x, y, n), k) == if BitAt(x, k) == BitAt(y, k) then 0 else 1
  {
    var rest := Xor(x / 2, y / 2, n - 1);
    var z := Xor(x, y, n);
    assert z % 2 == (if x % 2 == y % 2 then 0 else 1) && z / 2 == rest;
    if k != 0 {
      XorBits(x / 2, y / 2, n - 1, k - 1);
    }
  }

  // Two values that can be looked up: the hash of nothing, and that of the letter a.
  lemma KnownHashes()
    ensures Hash([]) == 0x811c_9dc5 && Hash([0x61]) == 0x050c_5d7e
  {
    KnownProduct();
    KnownXor();
    assert [0x61][..0] == [];
    assert Hash([0x61]) == Step(Hash([]), 0x61);
  }

  lemma KnownProduct()
    ensures Product(0x811c_9dc5) == 0x050c_5d1f
  {
    assert 0x811c_9dc5 * PRIME == 0x050c_5d1f + WORD * 8461673;
    Remainder(0x811c_9dc5 * PRIME, 8461673, 0x050c_5d1f);
  }

  lemma {:induction false} XorZero(x: nat, n: nat)
    requires x < Pow2(n)
    ensures Xor(x, 0, n) == x
  {
    if n != 0 {
      XorZero(x / 2, n - 1);
    }
  }

  lemma KnownXor()
    ensures Xor(0x050c_5d1f, 0x61, 32) == 0x050c_5d7e
  {
    assert Pow2(24) == 0x100_0000 by { Pow2Word(); }
    XorZero(0xa18ba, 25);
    assert Xor(0x143174, 1, 26) == 0x143175;
    assert Xor(0x2862e8, 3, 27) == 0x2862eb;
    assert Xor(0x50c5d1, 6, 28) == 0x50c5d7;
    assert Xor(0xa18ba3, 12, 29) == 0xa18baf;
    assert Xor(0x1431747, 24, 30) == 0x143175f;
    assert Xor(0x2862e8f, 48, 31) == 0x2862ebf;
    assert Xor(0x50c5d1f, 97, 32) == 0x50c5d7e;
  }
}

/**
 MurmurHash3 (x86, 32 bit, little endian) and the mask that turns a hash into a shard.
 Machine words are bit vectors; `Number` is the number a word stands for.
 */
module Hasher {

  // ----- The word operations

  function MulC1(x: bv32): bv32 { x * 0xcc9e2d51 }

  function MulC2(x: bv32): bv32 { x * 0x1b873593 }

  function Rotl15(x: bv32): bv32 { (x << 15) | (x >> 17) }

  function Rotl13(x: bv32): bv32 { (x << 13) | (x >> 19) }

  function FivePlus(x: bv32): bv32 { x * 5 + 0xe6546b64 }

  function Fold16(x: bv32): bv32 { x ^ (x >> 16) }

  function Fold13(x: bv32): bv32 { x ^ (x >> 13) }

  function MulF1(x: bv32): bv32 { x * 0x85ebca6b }

  function MulF2(x: bv32): bv32 { x * 0xc2b2ae35 }

  function Word(b0: bv8, b1: bv8, b2: bv8, b3: bv8): bv32 {
    (b0 as bv32) | ((b1 as bv32) << 8) | ((b2 as bv32) << 16) | ((b3 as bv32) << 24)
  }

  // ----- The algorithm by recursion on the bytes: four at a time, then the tail

  function Scramble(k: bv32): bv32 {
    MulC2(Rotl15(MulC1(k)))
  }

  function MixBlock(h: bv32, k: bv32): bv32 {
    FivePlus(Rotl13(h ^ Scramble(k)))
  }

  function Finalize(h: bv32): bv32 {
    Fold16(MulF2(Fold13(MulF1(Fold16(h)))))
  }

  /** Fewer than four bytes, as the low bytes of a word. */
  function TailWord(t: seq<bv8>): bv32
    requires |t| < 4
  {
    Word(if |t| > 0 then t[0] else 0, if |t| > 1 then t[1] else 0, if |t| > 2 then t[2] else 0, 0)
  }

  function Body(h: bv32, bytes: seq<bv8>): bv32
    decreases |bytes|
  {
    if |bytes| < 4 then h ^ Scramble(TailWord(bytes))
    else Body(MixBlock(h, Word(bytes[0], bytes[1], bytes[2], bytes[3])), bytes[4..])
  }

  function Murmur3(key: seq<bv8>, seed: bv32): bv32 {
    Finalize(WithLength(Body(seed, key), |key|))
  }

  /** `h1 ^= static_cast<uint32_t>(len)` */
  function WithLength(h: bv32, n: nat): bv32 {
    h ^ Low32(n)
  }

  /** `static_cast<uint32_t>`: the low 32 bits. */
  function Low32(n: nat): bv32 {
    if n == 0 then 0 else Low32(n / 2) * 2 + if n % 2 == 1 then 1 else 0
  }

  /** The loop over aligned blocks, the fall-through switch on the tail, and the finaliser. */
  method MurmurHash3(key: seq<bv8>, seed: bv32) returns (hash: bv32)
    requires |key| < 0x8000_0000
    ensures hash == Murmur3(key, seed)
  {
    hide *;
    var len := |key|;
    var nblocks := len / 4;
    var h1 := seed;
    for i := 0 to nblocks
      invariant Body(h1, key[4 * i..]) == Body(seed, key)
    {
      BodyOfBlock(h1, key, i);
      var k1 := Word(key[4 * i], key[4 * i + 1], key[4 * i + 2], key[4 * i + 3]);
      h1 := MixInPlace(h1, k1);
    }
    var k1 := TailInPlace(key[4 * nblocks..]);
    BodyOfTail(h1, key[4 * nblocks..]);
    h1 := h1 ^ k1;
    h1 := LengthInPlace(h1, len);
    hash := FinalizeInPlace(h1);
    MurmurUnfold(key, seed);
  }

  /** One round of the block loop. */
  method MixInPlace(h: bv32, k: bv32) returns (h1: bv32)
    ensures h1 == MixBlock(h, k)
  {
    hide *;
    var k1 := ScrambleInPlace(k);
    h1 := h ^ k1;
    Operations(h1);
    h1 := (h1 << 13) | (h1 >> 19);
    Operations(h1);
    h1 := h1 * 5 + 0xe6546b64;
    MixBlockSteps(h, k);
  }

  method ScrambleInPlace(k: bv32) returns (k1: bv32)
    ensures k1 == Scramble(k)
  {
    hide *;
    k1 := k;
    Operations(k1);
    k1 := k1 * 0xcc9e2d51;
    Operations(k1);
    k1 := (k1 << 15) | (k1 >> 17);
    Operations(k1);
    k1 := k1 * 0x1b873593;
    ScrambleSteps(k);
  }

  /** The switch on `len & 3`; without a tail nothing is mixed in. */
  method TailInPlace(tail: seq<bv8>) returns (k1: bv32)
    requires |tail| < 4
    ensures k1 == Scramble(TailWord(tail))
  {
    hide *;
    k1 := 0;
    if |tail| >= 3 {
      k1 := k1 ^ ((tail[2] as bv32) << 16);
    }
    if |tail| >= 2 {
      k1 := k1 ^ ((tail[1] as bv32) << 8);
    }
    if |tail| >= 1 {
      k1 := k1 ^ (tail[0] as bv32);
      TailIsXor(tail, k1);
      k1 := ScrambleInPlace(k1);
    } else {
      NoTail(tail);
    }
  }

  method LengthInPlace(h: bv32, len: nat) returns (h1: bv32)
    ensures h1 == WithLength(h, len)
  {
    hide Low32;
    h1 := h ^ Low32(len);
  }

  method FinalizeInPlace(h: bv32) returns (h1: bv32)
    ensures h1 == Finalize(h)
  {
    hide *;
    h1 := h;
    Operations(h1);
    h1 := h1 ^ (h1 >> 16);
    Operations(h1);
    h1 := h1 * 0x85ebca6b;
    Operations(h1);
    h1 := h1 ^ (h1 >> 13);
    Operations(h1);
    h1 := h1 * 0xc2b2ae35;
    Operations(h1);
    h1 := h1 ^ (h1 >> 16);
    FinalizeSteps(h);
  }

  lemma BodyOfBlock(h: bv32, key: seq<bv8>, i: nat)
    requires 4 * i + 4 <= |key|
    ensures Body(h, key[4 * i..]) ==
            Body(MixBlock(h, Word(key[4 * i], key[4 * i + 1], key[4 * i + 2], key[4 * i + 3])), key[4 * (i + 1)..])
  {
    hide MixBlock, Word, Scramble;
    assert key[4 * i..][4..] == key[4 * (i + 1)..];
  }

  lemma BodyOfTail(h: bv32, tail: seq<bv8>)
    requires |tail| < 4
    ensures Body(h, tail) == h ^ Scramble(TailWord(tail))
  {
  }

  lemma LengthIsMixedIn(h: bv32, n: nat)
    ensures WithLength(h, n) == h ^ Low32(n)
  {
  }

  lemma MurmurUnfold(key: seq<bv8>, seed: bv32)
    ensures Murmur3(key, seed) == Finalize(WithLength(Body(seed, key), |key|))
    ensures key[4 * 0..] == key
  {
  }

  lemma TailIsXor(t: seq<bv8>, k: bv32)
    requires 1 <= |t| < 4
    requires k == 0 ^ (if |t| == 3 then (t[2] as bv32) << 16 else 0)
                  ^ (if |t| >= 2 then (t[1] as bv32) << 8 else 0) ^ (t[0] as bv32)
    ensures k == TailWord(t)
  {
  }

  lemma NoTail(t: seq<bv8>)
    requires t == []
    ensures Scramble(TailWord(t)) == 0
  {
    assert TailWord(t) == 0;
  }

  // ----- Every step can be undone

  function UnmulC1(x: bv32): bv32 { x * 0xdee13bb1 }

  function UnmulC2(x: bv32): bv32 { x * 0x56ed309b }

  function Unrotl15(x: bv32): bv32 { (x << 17) | (x >> 15) }

  function Unrotl13(x: bv32): bv32 { (x << 19) | (x >> 13) }

  function UnfivePlus(x: bv32): bv32 { (x - 0xe6546b64) * 0xcccccccd }

  function Unfold13(x: bv32): bv32 { x ^ (x >> 13) ^ (x >> 26) }

  function UnmulF1(x: bv32): bv32 { x * 0xa5cb9243 }

  function UnmulF2(x: bv32): bv32 { x * 0x7ed1b41d }

  lemma InverseOperations(x: bv32)
    ensures UnmulC1(x * 0xcc9e2d51) == x && UnmulC2(x * 0x1b873593) == x
    ensures UnmulF1(x * 0x85ebca6b) == x && UnmulF2(x * 0xc2b2ae35) == x
    ensures UnfivePlus(x * 5 + 0xe6546b64) == x
  {
  }

  lemma InverseShifts(x: bv32)
    ensures Unrotl15((x << 15) | (x >> 17)) == x && Unrotl13((x << 13) | (x >> 19)) == x
    ensures Fold16(x ^ (x >> 16)) == x && Unfold13(x ^ (x >> 13)) == x
  {
  }

  lemma Operations(x: bv32)
    ensures MulC1(x) == x * 0xcc9e2d51 && MulC2(x) == x * 0x1b873593
    ensures MulF1(x) == x * 0x85ebca6b && MulF2(x) == x * 0xc2b2ae35
    ensures FivePlus(x) == x * 5 + 0xe6546b64
    ensures Rotl15(x) == (x << 15) | (x >> 17) && Rotl13(x) == (x << 13) | (x >> 19)
    ensures Fold16(x) == x ^ (x >> 16) && Fold13(x) == x ^ (x >> 13)
  {
  }

  /** Each operation on words has an inverse: the multipliers are odd. */
  lemma Undo(x: bv32)
    ensures UnmulC1(MulC1(x)) == x && UnmulC2(MulC2(x)) == x
    ensures UnmulF1(MulF1(x)) == x && UnmulF2(MulF2(x)) == x
    ensures UnfivePlus(FivePlus(x)) == x
    ensures Unrotl15(Rotl15(x)) == x && Unrotl13(Rotl13(x)) == x
    ensures Fold16(Fold16(x)) == x && Unfold13(Fold13(x)) == x
  {
    hide *;
    Operations(x);
    InverseOperations(x);
    InverseShifts(x);
  }

  lemma XorCancels(a: bv32, b: bv32, c: bv32)
    ensures a ^ c == b ^ c ==> a == b
    ensures c ^ a == c ^ b ==> a == b
  {
  }

  lemma ScrambleInjective(x: bv32, y: bv32)
    requires Scramble(x) == Scramble(y)
    ensures x == y
  {
    hide *;
    ScrambleSteps(x);
    ScrambleSteps(y);
    Undo(Rotl15(MulC1(x)));
    Undo(Rotl15(MulC1(y)));
    Undo(MulC1(x));
    Undo(MulC1(y));
    Undo(x);
    Undo(y);
  }

  lemma ScrambleSteps(k: bv32)
    ensures Scramble(k) == MulC2(Rotl15(MulC1(k)))
  {
    hide MulC1, MulC2, Rotl15;
  }

  lemma MixBlockSteps(h: bv32, k: bv32)
    ensures MixBlock(h, k) == FivePlus(Rotl13(h ^ Scramble(k)))
  {
    hide FivePlus, Rotl13, Scramble;
  }

  lemma FinalizeSteps(h: bv32)
    ensures Finalize(h) == Fold16(MulF2(Fold13(MulF1(Fold16(h)))))
  {
    hide Fold16, Fold13, MulF1, MulF2;
  }

  /** A block step is a bijection of the state for each block, and of the block for each state. */
  lemma MixBlockInjective(g: bv32, j: bv32, h: bv32, k: bv32)
    requires MixBlock(g, j) == MixBlock(h, k)
    ensures g == h <==> j == k
  {
    hide *;
    var x, y := g ^ Scramble(j), h ^ Scramble(k);
    MixBlockSteps(g, j);
    MixBlockSteps(h, k);
    Undo(Rotl13(x));
    Undo(Rotl13(y));
    Undo(x);
    Undo(y);
    if g == h {
      XorCancels(Scramble(j), Scramble(k), g);
      ScrambleInjective(j, k);
    } else if j == k {
      XorCancels(g, h, Scramble(j));
    }
  }

  lemma FinalizeInjective(x: bv32, y: bv32)
    requires Finalize(x) == Finalize(y)
    ensures x == y
  {
    hide *;
    FinalizeSteps(x);
    FinalizeSteps(y);
    var a, b := Fold16(x), Fold16(y);
    var c, d := Fold13(MulF1(a)), Fold13(MulF1(b));
    Undo(MulF2(c));
    Undo(MulF2(d));
    Undo(c);
    Undo(d);
    Undo(MulF1(a));
    Undo(MulF1(b));
    Undo(a);
    Undo(b);
    Undo(x);
    Undo(y);
  }

  lemma WordBytes(b0: bv8, b1: bv8, b2: bv8, b3: bv8)
    ensures var w := Word(b0, b1, b2, b3);
            && (w & 0xff) as bv8 == b0 && ((w >> 8) & 0xff) as bv8 == b1
            && ((w >> 16) & 0xff) as bv8 == b2 && (w >> 24) as bv8 == b3
  {
  }

  lemma WordInjective(a0: bv8, a1: bv8, a2: bv8, a3: bv8, b0: bv8, b1: bv8, b2: bv8, b3: bv8)
    requires Word(a0, a1, a2, a3) == Word(b0, b1, b2, b3)
    ensures a0 == b0 && a1 == b1 && a2 == b2 && a3 == b3
  {
    hide Word;
    WordBytes(a0, a1, a2, a3);
    WordBytes(b0, b1, b2, b3);
  }

  /** Different states stay different over the same remaining bytes. */
  lemma {:induction false} BodyInjective(g: bv32, h: bv32, bytes: seq<bv8>)
    requires Body(g, bytes) == Body(h, bytes)
    ensures g == h
    decreases |bytes|
  {
    hide MixBlock, Scramble, Word, TailWord;
    if |bytes| < 4 {
      XorCancels(g, h, Scramble(TailWord(bytes)));
    } else {
      var k := Word(bytes[0], bytes[1], bytes[2], bytes[3]);
      BodyInjective(MixBlock(g, k), MixBlock(h, k), bytes[4..]);
      MixBlockInjective(g, k, h, k);
    }
  }

  /** Prefixes made of whole blocks lead both keys to the same state. */
  lemma {:induction false} SamePrefix(h: bv32, prefix: seq<bv8>, x: seq<bv8>, y: seq<bv8>) returns (state: bv32)
    requires |prefix| % 4 == 0
    ensures Body(h, prefix + x) == Body(state, x) && Body(h, prefix + y) == Body(state, y)
    decreases |prefix|
  {
    hide MixBlock, Scramble, Word, TailWord;
    if prefix == [] {
      state := h;
      assert prefix + x == x && prefix + y == y;
    } else {
      state := SamePrefix(MixBlock(h, Word(prefix[0], prefix[1], prefix[2], prefix[3])), prefix[4..], x, y);
      FirstBlock(h, prefix, x);
      FirstBlock(h, prefix, y);
    }
  }

  lemma FirstBlock(h: bv32, prefix: seq<bv8>, rest: seq<bv8>)
    requires |prefix| >= 4
    ensures Body(h, prefix + rest) ==
            Body(MixBlock(h, Word(prefix[0], prefix[1], prefix[2], prefix[3])), prefix[4..] + rest)
  {
    hide MixBlock, Scramble, Word, TailWord;
    assert (prefix + rest)[4..] == prefix[4..] + rest;
  }

  lemma SameLengthInjective(a: bv32, b: bv32, n: nat)
    requires Finalize(WithLength(a, n)) == Finalize(WithLength(b, n))
    ensures a == b
  {
    hide Finalize;
    FinalizeInjective(WithLength(a, n), WithLength(b, n));
    XorCancels(a, b, Low32(n));
  }

  lemma MurmurInjectiveInBody(x: seq<bv8>, y: seq<bv8>, seed: bv32)
    requires |x| == |y|
    requires Murmur3(x, seed) == Murmur3(y, seed)
    ensures Body(seed, x) == Body(seed, y)
  {
    hide *;
    MurmurUnfold(x, seed);
    MurmurUnfold(y, seed);
    SameLengthInjective(Body(seed, x), Body(seed, y), |x|);
  }

  lemma BlockInjective(h: bv32, a: seq<bv8>, b: seq<bv8>, rest: seq<bv8>)
    requires |a| == |b| == 4
    requires Body(h, a + rest) == Body(h, b + rest)
    ensures a == b
  {
    hide *;
    var j, k := Word(a[0], a[1], a[2], a[3]), Word(b[0], b[1], b[2], b[3]);
    FirstBlock(h, a, rest);
    FirstBlock(h, b, rest);
    assert a[4..] + rest == b[4..] + rest;
    BodyInjective(MixBlock(h, j), MixBlock(h, k), a[4..] + rest);
    MixBlockInjective(h, j, h, k);
    WordInjective(a[0], a[1], a[2], a[3], b[0], b[1], b[2], b[3]);
  }

  /** Keys that differ in one aligned block of four bytes have different hashes. */
  lemma OneBlockDiffers(prefix: seq<bv8>, a: seq<bv8>, b: seq<bv8>, rest: seq<bv8>, seed: bv32)
    requires |prefix| % 4 == 0 && |a| == |b| == 4 && a != b
    ensures Murmur3(prefix + a + rest, seed) != Murmur3(prefix + b + rest, seed)
  {
    hide *;
    var x, y := prefix + a + rest, prefix + b + rest;
    if Murmur3(x, seed) == Murmur3(y, seed) {
      MurmurInjectiveInBody(x, y, seed);
      assert x == prefix + (a + rest) && y == prefix + (b + rest);
      var h := SamePrefix(seed, prefix, a + rest, b + rest);
      BlockInjective(h, a, b, rest);
    }
  }

  lemma TailMatters(h: bv32, s: seq<bv8>, t: seq<bv8>)
    requires |s| == |t| < 4 && Body(h, s) == Body(h, t)
    ensures Scramble(TailWord(s)) == Scramble(TailWord(t))
  {
    BodyOfTail(h, s);
    BodyOfTail(h, t);
    hide *;
    XorCancels(Scramble(TailWord(s)), Scramble(TailWord(t)), h);
  }

  lemma TailInjective(h: bv32, s: seq<bv8>, t: seq<bv8>)
    requires |s| == |t| < 4 && Body(h, s) == Body(h, t)
    ensures s == t
  {
    hide *;
    TailMatters(h, s, t);
    ScrambleInjective(TailWord(s), TailWord(t));
    TailWordInjective(s, t);
  }

  /** Keys of one length that differ only in the tail bytes have different hashes. */
  lemma OnlyTailDiffers(prefix: seq<bv8>, s: seq<bv8>, t: seq<bv8>, seed: bv32)
    requires |prefix| % 4 == 0 && |s| == |t| < 4 && s != t
    ensures Murmur3(prefix + s, seed) != Murmur3(prefix + t, seed)
  {
    hide *;
    if Murmur3(prefix + s, seed) == Murmur3(prefix + t, seed) {
      MurmurInjectiveInBody(prefix + s, prefix + t, seed);
      var h := SamePrefix(seed, prefix, s, t);
      TailInjective(h, s, t);
    }
  }

  lemma TailWordInjective(s: seq<bv8>, t: seq<bv8>)
    requires |s| == |t| < 4 && TailWord(s) == TailWord(t)
    ensures s == t
  {
    hide Word;
    WordInjective(if |s| > 0 then s[0] else 0, if |s| > 1 then s[1] else 0, if |s| > 2 then s[2] else 0, 0,
                  if |t| > 0 then t[0] else 0, if |t| > 1 then t[1] else 0, if |t| > 2 then t[2] else 0, 0);
  }

  // ----- The length counts

  lemma DoubleNext(x: bv32)
    ensures (x + 1) * 2 == x * 2 + 1 + 1 && x != x + 1
  {
  }

  /** The cast counts modulo the word. */
  lemma {:induction false} Low32Next(n: nat)
    ensures Low32(0) == 0 && Low32(n + 1) == Low32(n) + 1
  {
    if n % 2 == 1 {
      assert (n + 1) / 2 == n / 2 + 1 && (n + 1) % 2 == 0;
      Low32Next(n / 2);
      DoubleNext(Low32(n / 2));
    } else {
      assert (n + 1) / 2 == n / 2 && (n + 1) % 2 == 1;
      if n == 0 {
        assert Low32(1) == Low32(0) * 2 + 1;
      }
    }
  }

  lemma {:induction false} BodyOfZeroByte(h: bv32, x: seq<bv8>)
    requires |x| % 4 < 3
    ensures Body(h, x + [0]) == Body(h, x)
    decreases |x|
  {
    hide MixBlock, Scramble, Word;
    if |x| < 4 {
      assert TailWord(x + [0]) == TailWord(x);
    } else {
      assert (x + [0])[4..] == x[4..] + [0];
      BodyOfZeroByte(MixBlock(h, Word(x[0], x[1], x[2], x[3])), x[4..]);
    }
  }

  /** A zero byte at the end of the tail goes unnoticed by the blocks, but not by the length. */
  lemma LengthMatters(x: seq<bv8>, seed: bv32)
    requires |x| % 4 < 3
    ensures Murmur3(x + [0], seed) != Murmur3(x, seed)
  {
    hide *;
    MurmurUnfold(x, seed);
    MurmurUnfold(x + [0], seed);
    BodyOfZeroByte(seed, x);
    var h, n := Body(seed, x), |x|;
    LengthsDiffer(h, n);
    if Murmur3(x + [0], seed) == Murmur3(x, seed) {
      FinalizeInjective(WithLength(h, n + 1), WithLength(h, n));
    }
  }

  lemma LengthsDiffer(h: bv32, n: nat)
    ensures WithLength(h, n + 1) != WithLength(h, n)
  {
    hide *;
    Low32Next(n);
    DoubleNext(Low32(n));
    LengthIsMixedIn(h, n);
    LengthIsMixedIn(h, n + 1);
    var x, y := Low32(n + 1), Low32(n);
    XorCancels(x, y, h);
  }

  // ----- Published values

  lemma EmptyKey()
    ensures Murmur3([], 0) == 0
    ensures Murmur3([], 1) == 0x514e28b7
    ensures Murmur3([], 0xffffffff) == 0x81f16f39
  {
  }

  lemma Low32Small()
    ensures Low32(1) == 1 && Low32(2) == 2 && Low32(3) == 3 && Low32(4) == 4 && Low32(13) == 13
  {
    assert Low32(6) == 6;
  }

  /** A key without whole blocks. */
  lemma TailValue(t: seq<bv8>, seed: bv32, body: bv32)
    requires |t| < 4 && seed ^ Scramble(TailWord(t)) == body
    ensures Murmur3(t, seed) == Finalize(body ^ Low32(|t|))
  {
    hide *;
    MurmurUnfold(t, seed);
    BodyOfTail(seed, t);
    LengthIsMixedIn(body, |t|);
  }

  lemma TailWords()
    ensures TailWord([0x21]) == 0x21 && TailWord([0x21, 0x43]) == 0x4321 && TailWord([0x21, 0x43, 0x65]) == 0x654321
    ensures TailWord([0x6b]) == 0x6b && TailWord([]) == 0
  {
  }

  lemma Scrambles()
    ensures Scramble(0x21) == 0xac5e5123 && Scramble(0x4321) == 0xec900b60 && Scramble(0x654321) == 0x17a6636e
    ensures Scramble(0x6b) == 0x36cae70a && Scramble(0) == 0
  {
  }

  lemma Finals()
    ensures Finalize(0xac5e5122) == 0x72661cf4 && Finalize(0xec900b62) == 0xa0f7b07a
    ensures Finalize(0x17a6636d) == 0x7e4a8634
    ensures Finalize(0x36cae70b) == 0xcfbda5d1 && Finalize(0xbb095db0) == 0xf55b516b
  {
  }

  lemma Xors()
    ensures (0 as bv32) ^ 0xac5e5123 == 0xac5e5123 && (0xac5e5123 as bv32) ^ 1 == 0xac5e5122
    ensures (0 as bv32) ^ 0xec900b60 == 0xec900b60 && (0xec900b60 as bv32) ^ 2 == 0xec900b62
    ensures (0 as bv32) ^ 0x17a6636e == 0x17a6636e && (0x17a6636e as bv32) ^ 3 == 0x17a6636d
    ensures (0 as bv32) ^ 0x36cae70a == 0x36cae70a && (0x36cae70a as bv32) ^ 1 == 0x36cae70b
    ensures (0xbb095db4 as bv32) ^ 0 == 0xbb095db4 && (0xbb095db4 as bv32) ^ 4 == 0xbb095db0
  {
  }

  /** Keys of one to three bytes. */
  lemma PublishedTails()
    ensures Murmur3([0x21], 0) == 0x72661cf4
    ensures Murmur3([0x21, 0x43], 0) == 0xa0f7b07a
    ensures Murmur3([0x21, 0x43, 0x65], 0) == 0x7e4a8634
    ensures Murmur3([0x6b], 0) == 0xcfbda5d1
  {
    TailWords();
    Scrambles();
    Finals();
    Xors();
    Low32Small();
    hide *;
    TailValue([0x21], 0, 0xac5e5123);
    TailValue([0x21, 0x43], 0, 0xec900b60);
    TailValue([0x21, 0x43, 0x65], 0, 0x17a6636e);
    TailValue([0x6b], 0, 0x36cae70a);
  }

  lemma FirstWord()
    ensures Word(0x21, 0x43, 0x65, 0x87) == 0x87654321 && MixBlock(0, 0x87654321) == 0xbb095db4
  {
  }

  /** A key of one block. */
  lemma PublishedBlock()
    ensures Murmur3([0x21, 0x43, 0x65, 0x87], 0) == 0xf55b516b
  {
    var key: seq<bv8> := [0x21, 0x43, 0x65, 0x87];
    assert key[4 * 0..] == key && key[4 * 1..] == [];
    FirstWord();
    TailWords();
    Scrambles();
    Finals();
    Xors();
    Low32Small();
    hide *;
    BodyOfBlock(0, key, 0);
    BodyOfTail(0xbb095db4, []);
    MurmurUnfold(key, 0);
    LengthIsMixedIn(0xbb095db4, 4);
  }

  // ----- From hash to shard

  /** The number that a word stands for. */
  function Number(x: bv32): nat {
    if x == 0 then 0 else LowBit(x) + 2 * Number(Half(x))
  }

  function Half(x: bv32): (h: bv32)
    ensures x != 0 ==> h < x
  {
    x >> 1
  }

  function LowBit(x: bv32): nat {
    if x & 1 == 1 then 1 else 0
  }

  lemma BitIsBit(x: bv32)
    ensures LowBit(x) <= 1
  {
  }

  lemma NumberStep(x: bv32)
    ensures Number(x) == LowBit(x) + 2 * Number(Half(x))
  {
    if x == 0 {
      assert Half(0) == 0 && LowBit(0) == 0;
    }
  }

  function Successor(x: bv32): bv32 {
    x + 1
  }

  lemma EvenNext(x: bv32)
    requires x & 1 == 0
    ensures (x + 1) >> 1 == x >> 1 && (x + 1) & 1 == 1
  {
  }

  lemma OddNext(x: bv32)
    requires x & 1 == 1 && x != 0xffffffff
    ensures (x + 1) >> 1 == (x >> 1) + 1 && (x + 1) & 1 == 0
  {
  }

  lemma OddHalf(x: bv32)
    requires x & 1 == 1
    ensures x >> 1 < x && x >> 1 != 0xffffffff
  {
  }

  lemma EvenNextHalves(x: bv32)
    requires LowBit(x) == 0
    ensures Half(Successor(x)) == Half(x) && LowBit(Successor(x)) == 1
  {
    assert x & 1 == 0 by { LowBitOrNot(x); }
    EvenNext(x);
  }

  lemma LowBitOrNot(x: bv32)
    ensures x & 1 == 0 || x & 1 == 1
  {
  }

  lemma OddNextHalves(x: bv32)
    requires LowBit(x) == 1 && x != 0xffffffff
    ensures Half(Successor(x)) == Successor(Half(x)) && LowBit(Successor(x)) == 0
    ensures Half(x) != 0xffffffff && Half(x) < x
  {
    OddNext(x);
    OddHalf(x);
  }

  lemma NextHalves(x: bv32)
    requires x != 0xffffffff
    ensures LowBit(x) == 0 ==> Half(Successor(x)) == Half(x) && LowBit(Successor(x)) == 1
    ensures LowBit(x) == 1 ==>
              Half(Successor(x)) == Successor(Half(x)) && LowBit(Successor(x)) == 0
              && Half(x) != 0xffffffff && Half(x) < x
  {
    hide *;
    if LowBit(x) == 0 {
      EvenNextHalves(x);
    } else if LowBit(x) == 1 {
      OddNextHalves(x);
    }
  }

  lemma NumberOfZero()
    ensures Number(0) == 0
  {
  }

  /** `Number` counts from zero: it is the number a word stands for. */
  lemma {:induction false} NumberNext(x: bv32)
    requires x != 0xffffffff
    ensures Number(Successor(x)) == Number(x) + 1
    decreases x
  {
    hide *;
    NextHalves(x);
    NumberStep(x);
    NumberStep(Successor(x));
    BitIsBit(x);
    if LowBit(x) == 1 {
      NumberNext(Half(x));
    }
  }

  /** shard_index: the hash masked by the shard count less one. */
  function MaskedIndex(hash: bv32, mask: bv32): nat {
    Number(hash & mask)
  }

  lemma MaskBits(hash: bv32, mask: bv32)
    ensures Half(hash & mask) == Half(hash) & Half(mask) && LowBit(hash & mask) <= LowBit(mask)
  {
    assert (hash & mask) & 1 == 1 ==> mask & 1 == 1;
  }

  /** The index selects one of the `Number(mask) + 1` shards. */
  lemma {:induction false} MaskedIndexInBounds(hash: bv32, mask: bv32)
    ensures MaskedIndex(hash, mask) <= Number(mask)
    decreases mask
  {
    hide Half, LowBit;
    if mask == 0 {
      assert hash & 0 == 0;
    } else {
      MaskBits(hash, mask);
      MaskedIndexInBounds(Half(hash), Half(mask));
      NumberStep(mask);
      NumberStep(hash & mask);
    }
  }

  /** A shard count that is a power of two, given as count less one. */
  predicate IsPowerOfTwoLessOne(mask: bv32) {
    mask & (mask + 1) == 0
  }

  lemma Masks()
    ensures IsPowerOfTwoLessOne(0) && IsPowerOfTwoLessOne(1) && IsPowerOfTwoLessOne(3) && IsPowerOfTwoLessOne(63)
    ensures IsPowerOfTwoLessOne(0xffffffff) && !IsPowerOfTwoLessOne(2) && !IsPowerOfTwoLessOne(62)
  {
  }

  lemma MaskHalves(hash: bv32, mask: bv32)
    requires IsPowerOfTwoLessOne(mask) && mask != 0
    ensures LowBit(mask) == 1 && IsPowerOfTwoLessOne(Half(mask))
    ensures Half(hash & mask) == Half(hash) & Half(mask) && LowBit(hash & mask) == LowBit(hash)
  {
    assert mask & 1 == 1;
    assert (hash & mask) & 1 == hash & 1;
  }

  /** For a power-of-two shard count, masking is the remainder by the shard count. */
  lemma {:induction false} MaskIsModulo(hash: bv32, mask: bv32)
    requires IsPowerOfTwoLessOne(mask)
    ensures MaskedIndex(hash, mask) == Number(hash) % (Number(mask) + 1)
    decreases mask
  {
    hide Half, LowBit, IsPowerOfTwoLessOne;
    if mask == 0 {
      assert hash & 0 == 0;
    } else {
      MaskHalves(hash, mask);
      MaskIsModulo(Half(hash), Half(mask));
      NumberStep(mask);
      NumberStep(hash);
      NumberStep(hash & mask);
      BitIsBit(hash);
      DoubleModulo(Number(Half(hash)), Number(Half(mask)) + 1, LowBit(hash));
    }
  }

  lemma DoubleModulo(n: nat, m: nat, bit: nat)
    requires m > 0 && bit <= 1
    ensures (bit + 2 * n) % (2 * m) == bit + 2 * (n % m)
  {
    var q, r := n / m, n % m;
    Quotient(n, m);
    assert q * (2 * m) == 2 * (q * m);
    RemainderIsUnique(bit + 2 * n, 2 * m, q, bit + 2 * r);
  }

  lemma Quotient(a: nat, b: nat)
    requires b > 0
    ensures a == (a / b) * b + a % b && a % b < b
  {
  }

  lemma RemainderIsUnique(a: nat, b: nat, q: nat, r: nat)
    requires b > 0 && a == q * b + r && r < b
    ensures a % b == r
  {
    Quotient(a, b);
    var q' := a / b;
    assert (q - q') * b == q * b - q' * b && (q' - q) * b == q' * b - q * b;
    if q > q' {
      AtLeastOnce(q - q', b);
    } else if q < q' {
      AtLeastOnce(q' - q, b);
    }
  }

  lemma AtLeastOnce(n: nat, b: nat)
    requires n >= 1
    ensures n * b >= b
  {
  }
}

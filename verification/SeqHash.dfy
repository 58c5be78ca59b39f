/** The positional hash of a block sequence: the word of block `i` is weighted by `BASE^i` modulo
    `2^61 - 1`. */
module SeqHash {
  import opened Mersenne
  import opened Blocks

  /** An odd constant; it is above the modulus, not below it. */
  const BASE: nat := 0x9E37_79B9_7F4A_7C15

  const TWO_TO_64: nat := 0x1_0000_0000_0000_0000

  const TWO_TO_128: nat := 0x1_0000_0000_0000_0000_0000_0000_0000_0000

  type u64 = x: int | 0 <= x < 0x1_0000_0000_0000_0000

  // ---------------------------------------------------------------------------------------
  // Arithmetic in machine integers
  // ---------------------------------------------------------------------------------------

  /** The product is taken in 128 bits and never wraps. */
  function MulMod(a: u64, b: u64): (r: u64)
    ensures r < P && Cong(P, r, a * b)
  {
    hide Cong, Reduction;
    ProductFits(a, b);
    ReducesIn128(a * b);
    Reduction(a * b)
  }

  function Reduction(product: int): int {
    product % TWO_TO_128 % P
  }

  lemma ReducesIn128(product: int)
    requires 0 <= product < TWO_TO_128
    ensures 0 <= Reduction(product) < P && Cong(P, Reduction(product), product)
  {
    ReductionCong(product);
  }

  lemma ReductionCong(x: int)
    ensures Cong(P, x % P, x)
  {
    CongIsMod(P, x % P, x);
  }

  lemma ProductFits(a: u64, b: u64)
    ensures 0 <= a * b < TWO_TO_128
  {
    Square(a, b, TWO_TO_64);
  }

  lemma Square(a: nat, b: nat, n: nat)
    requires a < n && b < n
    ensures 0 <= a * b < n * n
  {
  }

  /** The 64-bit sum of two field elements never wraps. */
  function AddMod(a: u64, b: u64): (r: u64)
    ensures a < P && b < P ==> r < P && Cong(P, r, a + b)
  {
    var s := (a + b) % TWO_TO_64;
    CongIsMod(P, a + b - P, a + b);
    CongSelf(P, a + b);
    if s >= P then s - P else s
  }

  function Pow(b: int, e: nat): int {
    if e == 0 then 1 else b * Pow(b, e - 1)
  }

  lemma {:induction false} PowAdd(b: int, i: nat, j: nat)
    ensures Pow(b, i + j) == Pow(b, i) * Pow(b, j)
  {
    if i == 0 {
      assert i + j == j;
    } else {
      PowAdd(b, i - 1, j);
      assert i + j - 1 == i - 1 + j;
      Regroup(b, Pow(b, i - 1), Pow(b, j));
    }
  }

  lemma Regroup(a: int, b: int, c: int)
    ensures a * (b * c) == a * b * c
  {
  }

  lemma {:induction false} PowSquare(b: int, e: nat)
    ensures Pow(b * b, e) == Pow(b, 2 * e)
  {
    if e > 0 {
      PowSquare(b, e - 1);
      assert Pow(b, 2 * e) == b * Pow(b, 2 * e - 1);
      assert Pow(b, 2 * e - 1) == b * Pow(b, 2 * (e - 1));
      Regroup(b, b, Pow(b, 2 * (e - 1)));
    }
  }

  lemma {:induction false} CongPow(m: int, a: int, b: int, e: nat)
    requires Cong(m, a, b)
    ensures Cong(m, Pow(a, e), Pow(b, e))
  {
    hide Cong;
    if e == 0 {
      CongSelf(m, 1);
    } else {
      CongPow(m, a, b, e - 1);
      CongMul(m, a, b, Pow(a, e - 1), Pow(b, e - 1));
    }
  }

  lemma PowHalves(b: int, e: nat)
    requires e > 0
    ensures Pow(b, e) == if e % 2 == 1 then b * Pow(b * b, e / 2) else Pow(b * b, e / 2)
  {
    PowSquare(b, e / 2);
  }

  lemma OddRound(result: int, base: int, product: int, half: int, squared: int, target: int)
    requires Cong(P, product, result * base) && Cong(P, squared, half) && Cong(P, result * (base * half), target)
    ensures Cong(P, product * squared, target)
  {
    hide Cong;
    Regroup(result, base, half);
    CongMul(P, product, result * base, squared, half);
    CongTrans(P, product * squared, result * base * half, target);
  }

  lemma EvenRound(result: int, half: int, squared: int, target: int)
    requires Cong(P, squared, half) && Cong(P, result * half, target)
    ensures Cong(P, result * squared, target)
  {
    hide Cong;
    CongSelf(P, result);
    CongMul(P, result, result, squared, half);
    CongTrans(P, result * squared, result * half, target);
  }

  /** One round of square-and-multiply. */
  lemma Round(result: u64, base: u64, e: nat, target: int)
    requires e > 0 && Cong(P, result * Pow(base, e), target)
    ensures Cong(P, (if e % 2 == 1 then MulMod(result, base) else result) * Pow(MulMod(base, base), e / 2), target)
  {
    hide Cong, Pow, MulMod;
    var half, squared := Pow(base * base, e / 2), Pow(MulMod(base, base), e / 2);
    PowHalves(base, e);
    CongPow(P, MulMod(base, base), base * base, e / 2);
    if e % 2 == 1 {
      OddRound(result, base, MulMod(result, base), half, squared, target);
    } else {
      EvenRound(result, half, squared, target);
    }
  }

  /** `BASE^i mod P` by square-and-multiply. */
  method Coeff(i: nat) returns (result: u64)
    ensures result == Weight(i)
  {
    result := 1;
    var base: u64, e := BASE, i;
    CongSelf(P, 1 * Pow(BASE, i));
    while e > 0
      invariant result < P
      invariant Cong(P, result * Pow(base, e), Pow(BASE, i))
      decreases e
    {
      Round(result, base, e, Pow(BASE, i));
      if e % 2 == 1 {
        result := MulMod(result, base);
      }
      base := MulMod(base, base);
      e := e / 2;
    }
    assert result * Pow(base, 0) == result;
    CongIsMod(P, result, Pow(BASE, i));
  }

  function Weight(i: nat): nat {
    Pow(BASE, i) % P
  }

  /** The first eight bytes of the digest, little-endian, as a field element. */
  function BlockWord(b: BlockId): (w: u64)
    ensures w < P
  {
    Number(b[..8]) % P
  }

  /** The word of a block is the little-endian number its first eight bytes spell, modulo p. */
  lemma BlockWordTold(b: BlockId)
    ensures 0 <= BlockWord(b) < 0x1FFF_FFFF_FFFF_FFFF
    ensures Cong(0x1FFF_FFFF_FFFF_FFFF, BlockWord(b),
                 b[0] as int + 0x100 * b[1] as int + 0x1_0000 * b[2] as int + 0x100_0000 * b[3] as int
                 + 0x1_0000_0000 * b[4] as int + 0x100_0000_0000 * b[5] as int + 0x1_0000_0000_0000 * b[6] as int
                 + 0x100_0000_0000_0000 * b[7] as int)
  {
    NumberOfEight(b[..8]);
    ReductionCong(Number(b[..8]));
  }

  lemma NumberOfEight(s: seq<byte>)
    requires |s| == 8
    ensures Number(s) ==
            s[0] as int + 0x100 * s[1] as int + 0x1_0000 * s[2] as int + 0x100_0000 * s[3] as int
            + 0x1_0000_0000 * s[4] as int + 0x100_0000_0000 * s[5] as int + 0x1_0000_0000_0000 * s[6] as int
            + 0x100_0000_0000_0000 * s[7] as int
  {
    NumberOfFour(s[4..]);
    assert s[1..][1..] == s[2..] && s[2..][1..] == s[3..] && s[3..][1..] == s[4..];
    assert Number(s) == s[0] as int + 256 * Number(s[1..]);
    assert Number(s[1..]) == s[1] as int + 256 * Number(s[2..]);
    assert Number(s[2..]) == s[2] as int + 256 * Number(s[3..]);
    assert Number(s[3..]) == s[3] as int + 256 * Number(s[4..]);
  }

  lemma NumberOfFour(s: seq<byte>)
    requires |s| == 4
    ensures Number(s) == s[0] as int + 0x100 * s[1] as int + 0x1_0000 * s[2] as int + 0x100_0000 * s[3] as int
  {
    assert s[1..][1..] == s[2..] && s[2..][1..] == s[3..] && s[3..][1..] == [];
    assert Number(s) == s[0] as int + 256 * Number(s[1..]);
    assert Number(s[1..]) == s[1] as int + 256 * Number(s[2..]);
    assert Number(s[2..]) == s[2] as int + 256 * Number(s[3..]);
    assert Number(s[3..]) == s[3] as int + 256 * Number([]);
  }

  // ---------------------------------------------------------------------------------------
  // The hash of a sequence
  // ---------------------------------------------------------------------------------------

  datatype Hash = Hash(acc: int, len: nat)

  /** The weighted sum, over the integers. */
  function Sum(blocks: seq<BlockId>): int {
    if blocks == [] then 0
    else Sum(blocks[..|blocks| - 1]) + Pow(BASE, |blocks| - 1) * BlockWord(blocks[|blocks| - 1])
  }

  function HashOf(blocks: seq<BlockId>): Hash {
    Hash(Sum(blocks) % P, |blocks|)
  }

  /** The monoid operation. */
  function Concat(a: Hash, b: Hash): Hash {
    Hash((a.acc + Pow(BASE, a.len) * b.acc) % P, a.len + b.len)
  }

  class SeqHash {
    var acc: u64
    var len: nat

    function Value(): Hash
      reads this
    {
      Hash(acc, len)
    }

    constructor ()
      ensures Value() == HashOf([])
    {
      acc, len := 0, 0;
    }

    method Append(block: BlockId)
      requires acc < P
      modifies this
      ensures acc < P && Value() == Concat(old(Value()), HashOf([block]))
    {
      var c := Coeff(len);
      SingleHash(block);
      Shifted(acc, c, len, BlockWord(block));
      acc := AddMod(acc, MulMod(c, BlockWord(block)));
      len := len + 1;
    }

    method Extend(blocks: seq<BlockId>)
      requires acc < P
      modifies this
      ensures acc < P && Value() == Concat(old(Value()), HashOf(blocks))
    {
      EmptyIsUnit(Value());
      for i := 0 to |blocks|
        invariant acc < P && Value() == Concat(old(Value()), HashOf(blocks[..i]))
      {
        ghost var before := Value();
        Append(blocks[i]);
        assert blocks[..i + 1] == blocks[..i] + [blocks[i]];
        Homomorphism(blocks[..i], [blocks[i]]);
        ConcatAssociates(old(Value()), HashOf(blocks[..i]), HashOf([blocks[i]]));
      }
      assert blocks[..|blocks|] == blocks;
    }

    /** This sequence followed by the other. */
    method Op(other: SeqHash)
      requires acc < P && other.acc < P
      modifies this
      ensures acc < P && Value() == Concat(old(Value()), old(other.Value()))
    {
      var shift := Coeff(len);
      Shifted(acc, shift, len, other.acc);
      var carried := MulMod(other.acc, shift);
      acc := AddMod(acc, carried);
      len := len + other.len;
    }
  }

  method FromBlocks(blocks: seq<BlockId>) returns (s: SeqHash)
    ensures fresh(s) && s.acc < P && s.Value() == HashOf(blocks)
  {
    s := new SeqHash();
    s.Extend(blocks);
    assert [] + blocks == blocks;
    Homomorphism([], blocks);
  }

  /** The machine steps of an append compute the sum modulo `P`. */
  lemma Shifted(acc: u64, c: u64, len: nat, w: u64)
    requires acc < P && c == Weight(len)
    ensures AddMod(acc, MulMod(c, w)) == AddMod(acc, MulMod(w, c)) == (acc + Pow(BASE, len) * w) % P
  {
    hide Cong;
    assert c * w == w * c;
    CongIsMod(P, c, Pow(BASE, len));
    CongSelf(P, w);
    CongMul(P, c, Pow(BASE, len), w, w);
    ReduceSum(acc, MulMod(c, w), c * w, Pow(BASE, len) * w);
    ReduceSum(acc, MulMod(w, c), c * w, Pow(BASE, len) * w);
  }

  lemma ReduceSum(acc: u64, term: u64, product: int, exact: int)
    requires acc < P && term < P && Cong(P, term, product) && Cong(P, product, exact)
    ensures AddMod(acc, term) == (acc + exact) % P
  {
  }

  lemma SingleHash(block: BlockId)
    ensures HashOf([block]) == Hash(BlockWord(block), 1)
  {
    assert Sum([block]) == Sum([block][..0]) + Pow(BASE, 0) * BlockWord(block);
    assert [block][..0] == [];
  }

  lemma {:induction false} SumConcat(a: seq<BlockId>, b: seq<BlockId>)
    ensures Sum(a + b) == Sum(a) + Pow(BASE, |a|) * Sum(b)
    decreases |b|
  {
    if b == [] {
      assert a + b == a;
    } else {
      var init, w := b[..|b| - 1], BlockWord(b[|b| - 1]);
      assert (a + b)[..|a + b| - 1] == a + init;
      SumConcat(a, init);
      PowAdd(BASE, |a|, |init|);
      Regroup(Pow(BASE, |a|), Pow(BASE, |init|), w);
      Distribute(Pow(BASE, |a|), Sum(init), Pow(BASE, |init|) * w);
    }
  }

  lemma Distribute(a: int, b: int, c: int)
    ensures a * (b + c) == a * b + a * c
  {
  }

  /** Appending is concatenation: the hash is a homomorphism. */
  lemma Homomorphism(a: seq<BlockId>, b: seq<BlockId>)
    ensures HashOf(a + b) == Concat(HashOf(a), HashOf(b))
  {
    SumConcat(a, b);
    Reduced(Sum(a), Pow(BASE, |a|), Sum(b));
  }

  lemma Reduced(a: int, w: int, b: int)
    ensures (a % P + w * (b % P)) % P == (a + w * b) % P
  {
    CongIsMod(P, a % P, a);
    CongIsMod(P, b % P, b);
    CongSelf(P, w);
    hide Cong;
    CongMul(P, w, w, b % P, b);
    CongAdd(P, a % P, a, w * (b % P), w * b);
    CongIsMod(P, a % P + w * (b % P), a + w * b);
  }

  /** The monoid laws, on every state. */
  lemma ConcatAssociates(a: Hash, b: Hash, c: Hash)
    ensures Concat(Concat(a, b), c) == Concat(a, Concat(b, c))
  {
    hide Pow;
    var i, j := Pow(BASE, a.len), Pow(BASE, b.len);
    PowAdd(BASE, a.len, b.len);
    Regroup(i, j, c.acc);
    Distribute(i, b.acc, j * c.acc);
    Reduced(a.acc + i * b.acc, i * j, c.acc);
    Reduced(a.acc, i, b.acc + j * c.acc);
    ReducedOnce(a.acc + i * b.acc, i * j * c.acc);
    ReducedOnce(i * (b.acc + j * c.acc), a.acc);
    ReduceInner(a.acc, i, b.acc + j * c.acc);
  }

  lemma ReducedOnce(a: int, b: int)
    ensures (a % P + b) % P == (a + b) % P
  {
  }

  lemma ReduceInner(a: int, w: int, b: int)
    ensures (a + w * (b % P)) % P == (a + w * b) % P
  {
    Reduced(a, w, b);
    ReducedOnce(a, w * (b % P));
  }

  lemma EmptyIsUnit(h: Hash)
    requires 0 <= h.acc < P
    ensures Concat(h, HashOf([])) == h && Concat(HashOf([]), h) == h
  {
    assert Pow(BASE, h.len) * 0 == 0;
  }

  // ---------------------------------------------------------------------------------------
  // What the hash tells apart
  // ---------------------------------------------------------------------------------------

  lemma {:induction false} WeightNotZero(i: nat)
    ensures !Cong(P, Pow(BASE, i), 0)
  {
    CongIsMod(P, Pow(BASE, i), 0);
    if i > 0 && Cong(P, Pow(BASE, i), 0) {
      WeightNotZero(i - 1);
      NoZeroDivisors(BASE, Pow(BASE, i - 1));
      CongIsMod(P, BASE, 0);
      assert false;
    }
  }

  lemma ByDifference(a: int, b: int)
    ensures a % P == b % P <==> Cong(P, a - b, 0)
  {
    CongIsMod(P, a, b);
    if a % P == b % P {
      CongSelf(P, b);
      CongAdd(P, a, b, b, b);
    }
    if Cong(P, a - b, 0) {
      CongSelf(P, b);
      CongAdd(P, a - b, 0, b, b);
    }
  }

  lemma ProductVanishes(a: int, b: int)
    ensures Cong(P, a * b, 0) <==> Cong(P, a, 0) || Cong(P, b, 0)
  {
    hide Cong;
    CongSelf(P, a);
    CongSelf(P, b);
    if Cong(P, a * b, 0) {
      NoZeroDivisors(a, b);
    } else if Cong(P, a, 0) {
      CongMul(P, a, 0, b, b);
    } else if Cong(P, b, 0) {
      CongMul(P, a, a, b, 0);
    }
  }

  /** A weight in front of a difference changes nothing. */
  lemma WeightCancels(i: nat, c: int, a: int, b: int)
    ensures (c + Pow(BASE, i) * a) % P == (c + Pow(BASE, i) * b) % P <==> a % P == b % P
  {
    hide Cong;
    var w := Pow(BASE, i);
    ByDifference(c + w * a, c + w * b);
    ByDifference(a, b);
    assert (c + w * a) - (c + w * b) == w * (a - b);
    ProductVanishes(w, a - b);
    WeightNotZero(i);
  }

  /** What two sequences share in front and behind does not matter: they collide exactly when the
      parts where they differ collide. */
  lemma CommonPartsCancel(front: seq<BlockId>, a: seq<BlockId>, b: seq<BlockId>, back: seq<BlockId>)
    ensures HashOf(front + a + back) == HashOf(front + b + back) <==> HashOf(a) == HashOf(b)
  {
    SumConcat(front + a, back);
    SumConcat(front + b, back);
    SumConcat(front, a);
    SumConcat(front, b);
    if |a| == |b| {
      var tail := Pow(BASE, |front + a|) * Sum(back);
      WeightCancels(|front|, Sum(front) + tail, Sum(a), Sum(b));
    }
  }

  /** Replacing one block is noticed exactly when its word changes. */
  lemma SubstitutionSeen(front: seq<BlockId>, x: BlockId, y: BlockId, back: seq<BlockId>)
    ensures HashOf(front + [x] + back) == HashOf(front + [y] + back) <==> BlockWord(x) == BlockWord(y)
  {
    CommonPartsCancel(front, [x], [y], back);
    SingleHash(x);
    SingleHash(y);
  }

  /** Exchanging two blocks goes unnoticed exactly when their words are equal, or the weight at
      their distance is one. */
  lemma SwapSeen(front: seq<BlockId>, x: BlockId, between: seq<BlockId>, y: BlockId, back: seq<BlockId>)
    ensures HashOf(front + ([x] + between + [y]) + back) == HashOf(front + ([y] + between + [x]) + back) <==>
            BlockWord(x) == BlockWord(y) || Weight(|between| + 1) == 1
  {
    CommonPartsCancel(front, [x] + between + [y], [y] + between + [x], back);
    var a, b, w := BlockWord(x), BlockWord(y), Pow(BASE, |between| + 1);
    EndsSum(x, between, y);
    EndsSum(y, between, x);
    var middle := Pow(BASE, 1) * Sum(between);
    SwapDiffers(a, b, w, middle);
  }

  lemma EndsSum(x: BlockId, between: seq<BlockId>, y: BlockId)
    ensures Sum([x] + between + [y]) == BlockWord(x) + Pow(BASE, 1) * Sum(between)
        + Pow(BASE, |between| + 1) * BlockWord(y)
  {
    SumConcat([x] + between, [y]);
    SumConcat([x], between);
    assert Pow(BASE, 0) * BlockWord(x) == BlockWord(x);
    assert Pow(BASE, 0) * BlockWord(y) == BlockWord(y);
    assert Sum([x]) == BlockWord(x) && Sum([y]) == BlockWord(y) by {
      assert [x][..0] == [] && [y][..0] == [];
    }
  }

  lemma SwapDifference(a: int, b: int, w: int, middle: int)
    ensures (a + middle + w * b) - (b + middle + w * a) == (b - a) * (w - 1)
  {
  }

  lemma SwapDiffers(a: int, b: int, w: int, middle: int)
    requires 0 <= a < P && 0 <= b < P
    ensures (a + middle + w * b) % P == (b + middle + w * a) % P <==> a == b || w % P == 1
  {
    hide Cong;
    SwapDifference(a, b, w, middle);
    ByDifference(a + middle + w * b, b + middle + w * a);
    ProductVanishes(b - a, w - 1);
    ByDifference(b, a);
    ByDifference(w, 1);
  }

  /** Exchanging two neighbours is always noticed when their words differ. */
  lemma NeighbourSwapSeen(front: seq<BlockId>, x: BlockId, y: BlockId, back: seq<BlockId>)
    ensures HashOf(front + [x, y] + back) == HashOf(front + [y, x] + back) <==> BlockWord(x) == BlockWord(y)
  {
    SwapSeen(front, x, [], y, back);
    assert [x] + [] + [y] == [x, y] && [y] + [] + [x] == [y, x];
    assert Pow(BASE, 1) == BASE * Pow(BASE, 0);
  }

  /** The bare fingerprint, without the length, does not see a trailing block whose word is zero. */
  lemma TrailingBlockSeen(blocks: seq<BlockId>, x: BlockId)
    ensures HashOf(blocks + [x]).acc == HashOf(blocks).acc <==> BlockWord(x) == 0
  {
    assert (blocks + [x])[..|blocks|] == blocks;
    assert Pow(BASE, |blocks|) * 0 == 0;
    WeightCancels(|blocks|, Sum(blocks), BlockWord(x), 0);
  }
}

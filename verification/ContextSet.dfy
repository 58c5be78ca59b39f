/** The order-independent hash of a multiset of blocks: 1024 limbs of 16 bits added limb by limb,
    with removal by subtraction. */
module ContextSet {
  import opened Blocks

  type u16 = x: int | 0 <= x < 65536

  const LIMBS: nat := 1024

  type Element = s: seq<u16> | |s| == LIMBS witness seq(LIMBS, i => 0)

  /** The 2048 bytes the extendable hash yields for a block. */
  type Key = s: seq<byte> | |s| == 2 * LIMBS witness seq(2 * LIMBS, i => 0)

  type Stream = BlockId -> Key

  function WrapAdd(a: u16, b: u16): u16 {
    (a + b) % 65536
  }

  function WrapSub(a: u16, b: u16): u16 {
    (a - b) % 65536
  }

  function Zero(): Element {
    seq(LIMBS, i => 0)
  }

  function Plus(a: Element, b: Element): (r: Element) {
    seq(LIMBS, i requires 0 <= i < LIMBS => WrapAdd(a[i], b[i]))
  }

  function Minus(a: Element, b: Element): (r: Element) {
    seq(LIMBS, i requires 0 <= i < LIMBS => WrapSub(a[i], b[i]))
  }

  // ---------------------------------------------------------------------------------------
  // Elements and their bytes
  // ---------------------------------------------------------------------------------------

  /** Limb `i` is bytes `2i` and `2i + 1`, the low one first. */
  function ToBytes(e: Element): Key {
    seq(2 * LIMBS, j requires 0 <= j < 2 * LIMBS => if j % 2 == 0 then (e[j / 2] % 256) as byte
        else (e[j / 2] / 256) as byte)
  }

  function FromBytes(bytes: Key): Element {
    seq(LIMBS, i requires 0 <= i < LIMBS => bytes[2 * i] as int + 256 * bytes[2 * i + 1] as int)
  }

  /** The key is a faithful copy of the limbs, in both directions. */
  lemma BytesRoundTrip(e: Element, bytes: Key)
    ensures FromBytes(ToBytes(e)) == e
    ensures ToBytes(FromBytes(bytes)) == bytes
  {
  }

  function Expand(stream: Stream, id: BlockId): Element {
    FromBytes(stream(id))
  }

  // ---------------------------------------------------------------------------------------
  // The group
  // ---------------------------------------------------------------------------------------

  lemma PlusCommutes(a: Element, b: Element)
    ensures Plus(a, b) == Plus(b, a)
  {
  }

  lemma PlusAssociates(a: Element, b: Element, c: Element)
    ensures Plus(Plus(a, b), c) == Plus(a, Plus(b, c))
  {
    forall i | 0 <= i < LIMBS
      ensures Plus(Plus(a, b), c)[i] == Plus(a, Plus(b, c))[i]
    {
      WrapAssociates(a[i], b[i], c[i]);
      hide WrapAdd;
      assert Plus(Plus(a, b), c)[i] == WrapAdd(WrapAdd(a[i], b[i]), c[i]);
    }
  }

  lemma WrapAssociates(a: u16, b: u16, c: u16)
    ensures WrapAdd(WrapAdd(a, b), c) == WrapAdd(a, WrapAdd(b, c))
  {
  }

  /** Subtraction undoes addition and addition undoes subtraction. */
  lemma MinusInverts(a: Element, b: Element)
    ensures Minus(Plus(a, b), b) == a && Plus(Minus(a, b), b) == a
  {
  }

  /** An element cancels itself exactly when every limb is zero or half the modulus. */
  lemma TwiceVanishesExactly(e: Element)
    ensures Plus(e, e) == Zero() <==> forall i :: 0 <= i < LIMBS ==> e[i] == 0 || e[i] == 0x8000
  {
    forall i | 0 <= i < LIMBS
      ensures Plus(e, e)[i] == Zero()[i] <==> e[i] == 0 || e[i] == 0x8000
    {
    }
  }

  /** So a non-zero element that cancels itself exists. */
  lemma SelfInverseElement() returns (e: Element)
    ensures e != Zero() && Plus(e, e) == Zero()
  {
    e := seq(LIMBS, i => 0x8000);
    TwiceVanishesExactly(e);
    assert e[0] != Zero()[0];
  }

  /** Limbs are added and subtracted modulo 2^16, each on its own, and an empty sum is zero. */
  lemma LimbsTold(a: Element, b: Element, i: nat)
    requires i < 1024
    ensures var x: int, y: int := a[i], b[i];
            && Plus(a, b)[i] == (if x + y < 65536 then x + y else x + y - 65536)
            && Minus(a, b)[i] == (if x >= y then x - y else x - y + 65536)
    ensures Zero()[i] == 0
  {
  }

  // ---------------------------------------------------------------------------------------
  // In-place kernels
  // ---------------------------------------------------------------------------------------

  method AddScalar(lhs: array<u16>, rhs: array<u16>)
    requires lhs.Length == rhs.Length == LIMBS && lhs != rhs
    modifies lhs
    ensures lhs[..] == Plus(old(lhs[..]), rhs[..])
  {
    for i := 0 to LIMBS
      invariant forall k :: 0 <= k < i ==> lhs[k] == WrapAdd(old(lhs[k]), rhs[k])
      invariant forall k :: i <= k < LIMBS ==> lhs[k] == old(lhs[k])
    {
      lhs[i] := WrapAdd(lhs[i], rhs[i]);
    }
  }

  method SubScalar(lhs: array<u16>, rhs: array<u16>)
    requires lhs.Length == rhs.Length == LIMBS && lhs != rhs
    modifies lhs
    ensures lhs[..] == Minus(old(lhs[..]), rhs[..])
  {
    for i := 0 to LIMBS
      invariant forall k :: 0 <= k < i ==> lhs[k] == WrapSub(old(lhs[k]), rhs[k])
      invariant forall k :: i <= k < LIMBS ==> lhs[k] == old(lhs[k])
    {
      lhs[i] := WrapSub(lhs[i], rhs[i]);
    }
  }

  const LANES: nat := 16

  type Vector = s: seq<u16> | |s| == LANES witness seq(LANES, i => 0)

  method Load(a: array<u16>, i: nat) returns (v: Vector)
    requires i + LANES <= a.Length
    ensures v == a[i..i + LANES]
  {
    v := a[i..i + LANES];
  }

  method StoreLanes(a: array<u16>, i: nat, v: Vector)
    requires i + LANES <= a.Length
    modifies a
    ensures forall k :: 0 <= k < a.Length ==> a[k] == if i <= k < i + LANES then v[k - i] else old(a[k])
  {
    for k := 0 to LANES
      invariant forall j :: 0 <= j < a.Length ==> a[j] == if i <= j < i + k then v[j - i] else old(a[j])
    {
      a[i + k] := v[k];
    }
  }

  function AddLanes(a: Vector, b: Vector): Vector {
    seq(LANES, k requires 0 <= k < LANES => WrapAdd(a[k], b[k]))
  }

  function SubLanes(a: Vector, b: Vector): Vector {
    seq(LANES, k requires 0 <= k < LANES => WrapSub(a[k], b[k]))
  }

  /** Sixteen limbs at a time: the same sums as the scalar loop. */
  method AddStrided(lhs: array<u16>, rhs: array<u16>)
    requires lhs.Length == rhs.Length == LIMBS && lhs != rhs
    modifies lhs
    ensures lhs[..] == Plus(old(lhs[..]), rhs[..])
  {
    hide WrapAdd;
    var i := 0;
    while i < LIMBS
      invariant 0 <= i <= LIMBS && i % LANES == 0
      invariant forall k :: 0 <= k < i ==> lhs[k] == WrapAdd(old(lhs[k]), rhs[k])
      invariant forall k :: i <= k < LIMBS ==> lhs[k] == old(lhs[k])
    {
      var a := Load(lhs, i);
      var b := Load(rhs, i);
      StoreLanes(lhs, i, AddLanes(a, b));
      i := i + LANES;
    }
  }

  method SubStrided(lhs: array<u16>, rhs: array<u16>)
    requires lhs.Length == rhs.Length == LIMBS && lhs != rhs
    modifies lhs
    ensures lhs[..] == Minus(old(lhs[..]), rhs[..])
  {
    hide WrapSub;
    var i := 0;
    while i < LIMBS
      invariant 0 <= i <= LIMBS && i % LANES == 0
      invariant forall k :: 0 <= k < i ==> lhs[k] == WrapSub(old(lhs[k]), rhs[k])
      invariant forall k :: i <= k < LIMBS ==> lhs[k] == old(lhs[k])
    {
      var a := Load(lhs, i);
      var b := Load(rhs, i);
      StoreLanes(lhs, i, SubLanes(a, b));
      i := i + LANES;
    }
  }

  // ---------------------------------------------------------------------------------------
  // Contexts as values
  // ---------------------------------------------------------------------------------------

  datatype Context = Context(hash: Element, blocks: seq<BlockId>)

  datatype Op = Add(id: BlockId) | Evict(id: BlockId)

  /** Index one past the last occurrence; zero when there is none. */
  function LastAfter(blocks: seq<BlockId>, id: BlockId): (n: nat)
    ensures n <= |blocks|
    ensures n > 0 ==> blocks[n - 1] == id
    ensures n == 0 <==> id !in blocks
    ensures forall k :: n <= k < |blocks| ==> blocks[k] != id
  {
    if blocks == [] then 0
    else if blocks[|blocks| - 1] == id then |blocks|
    else LastAfter(blocks[..|blocks| - 1], id)
  }

  /** The last block takes the place of the removed one. */
  function SwapRemove(blocks: seq<BlockId>, pos: nat): seq<BlockId>
    requires pos < |blocks|
  {
    blocks[pos := blocks[|blocks| - 1]][..|blocks| - 1]
  }

  function Step(c: Context, op: Op, stream: Stream): Context {
    match op
    case Add(id) => Context(Plus(c.hash, Expand(stream, id)), c.blocks + [id])
    case Evict(id) =>
      var after := LastAfter(c.blocks, id);
      if after == 0 then c else Context(Minus(c.hash, Expand(stream, id)), SwapRemove(c.blocks, after - 1))
  }

  function Steps(ops: seq<Op>, stream: Stream): Context {
    if ops == [] then Context(Zero(), []) else Step(Steps(ops[..|ops| - 1], stream), ops[|ops| - 1], stream)
  }

  class LtHash {
    const limbs: array<u16>

    constructor ()
      ensures fresh(limbs) && limbs.Length == LIMBS && limbs[..] == Zero()
    {
      limbs := new u16[LIMBS](i => 0);
    }

    method AddAssign(rhs: array<u16>, vectors: bool)
      requires limbs.Length == rhs.Length == LIMBS && limbs != rhs
      modifies limbs
      ensures limbs[..] == Plus(old(limbs[..]), rhs[..])
    {
      if vectors {
        AddStrided(limbs, rhs);
      } else {
        AddScalar(limbs, rhs);
      }
    }

    method SubAssign(rhs: array<u16>, vectors: bool)
      requires limbs.Length == rhs.Length == LIMBS && limbs != rhs
      modifies limbs
      ensures limbs[..] == Minus(old(limbs[..]), rhs[..])
    {
      if vectors {
        SubStrided(limbs, rhs);
      } else {
        SubScalar(limbs, rhs);
      }
    }

    method AddBlock(id: BlockId, stream: Stream, vectors: bool)
      requires limbs.Length == LIMBS
      modifies limbs
      ensures limbs[..] == Plus(old(limbs[..]), Expand(stream, id))
    {
      var element := ExpandToElement(id, stream);
      AddAssign(element, vectors);
    }

    method Remove(id: BlockId, stream: Stream, vectors: bool)
      requires limbs.Length == LIMBS
      modifies limbs
      ensures limbs[..] == Minus(old(limbs[..]), Expand(stream, id))
    {
      var element := ExpandToElement(id, stream);
      SubAssign(element, vectors);
    }

    method AsBytes() returns (out: seq<byte>)
      requires limbs.Length == LIMBS
      ensures out == ToBytes(limbs[..])
      ensures |out| == 2048 && forall i :: 0 <= i < 1024 ==> limbs[i] == out[2 * i] as int + 256 * out[2 * i + 1] as int
    {
      out := [];
      for i := 0 to LIMBS
        invariant out == ToBytes(limbs[..])[..2 * i]
      {
        ghost var all := ToBytes(limbs[..]);
        assert all[2 * i] as int == limbs[i] % 256 && all[2 * i + 1] as int == limbs[i] / 256;
        out := out + [(limbs[i] % 256) as byte, (limbs[i] / 256) as byte];
      }
    }
  }

  method ExpandToElement(id: BlockId, stream: Stream) returns (out: array<u16>)
    ensures fresh(out) && out.Length == LIMBS && out[..] == Expand(stream, id)
    ensures forall i :: 0 <= i < 1024 ==> out[i] == stream(id)[2 * i] as int + 256 * stream(id)[2 * i + 1] as int
  {
    out := new u16[LIMBS](i => 0);
    var bytes := stream(id);
    for i := 0 to LIMBS
      invariant forall k :: 0 <= k < i ==> out[k] == bytes[2 * k] as int + 256 * bytes[2 * k + 1] as int
    {
      out[i] := bytes[2 * i] as int + 256 * bytes[2 * i + 1] as int;
    }
  }

  class ContextSet {
    const hash: LtHash
    var blocks: seq<BlockId>

    predicate Valid()
      reads this
    {
      hash.limbs.Length == LIMBS
    }

    function Value(): Context
      reads this, hash.limbs
      requires Valid()
    {
      Context(hash.limbs[..], blocks)
    }

    constructor ()
      ensures Valid() && fresh(hash) && fresh(hash.limbs) && Value() == Context(Zero(), [])
    {
      hash := new LtHash();
      blocks := [];
    }

    method AddBlock(id: BlockId, stream: Stream, vectors: bool)
      requires Valid()
      modifies this, hash.limbs
      ensures Valid() && Value() == Step(old(Value()), Add(id), stream)
    {
      hash.AddBlock(id, stream, vectors);
      blocks := blocks + [id];
    }

    method Evict(id: BlockId, stream: Stream, vectors: bool)
      requires Valid()
      modifies this, hash.limbs
      ensures Valid() && Value() == Step(old(Value()), Op.Evict(id), stream)
    {
      var n := |blocks|;
      while n > 0 && blocks[n - 1] != id
        invariant 0 <= n <= |blocks|
        invariant forall k :: n <= k < |blocks| ==> blocks[k] != id
      {
        n := n - 1;
      }
      LastIsUnique(blocks, id, n);
      if n > 0 {
        blocks := blocks[n - 1 := blocks[|blocks| - 1]][..|blocks| - 1];
        hash.Remove(id, stream, vectors);
      }
    }

    method ContextKey() returns (key: seq<byte>)
      requires Valid()
      ensures key == ToBytes(Value().hash)
    {
      key := hash.AsBytes();
    }
  }

  lemma LastIsUnique(blocks: seq<BlockId>, id: BlockId, n: nat)
    requires n <= |blocks| && (n > 0 ==> blocks[n - 1] == id)
    requires forall k :: n <= k < |blocks| ==> blocks[k] != id
    ensures LastAfter(blocks, id) == n
  {
  }

  // ---------------------------------------------------------------------------------------
  // The key is a function of the live multiset
  // ---------------------------------------------------------------------------------------

  /** The sum of the elements of a list of blocks. */
  function Total(blocks: seq<BlockId>, stream: Stream): Element {
    if blocks == [] then Zero()
    else Plus(Total(blocks[..|blocks| - 1], stream), Expand(stream, blocks[|blocks| - 1]))
  }

  /** What is live after a list of operations, counted on its own: evicting an absent block does
      nothing. */
  function Live(ops: seq<Op>): multiset<BlockId> {
    if ops == [] then multiset{}
    else
      var before := Live(ops[..|ops| - 1]);
      match ops[|ops| - 1]
      case Add(id) => before + multiset{id}
      case Evict(id) => before - multiset{id}
  }

  function Without(blocks: seq<BlockId>, pos: nat): seq<BlockId>
    requires pos < |blocks|
  {
    blocks[..pos] + blocks[pos + 1..]
  }

  /** Any block can be counted last. */
  lemma {:induction false} TakeOut(blocks: seq<BlockId>, pos: nat, stream: Stream)
    requires pos < |blocks|
    ensures Total(blocks, stream) == Plus(Total(Without(blocks, pos), stream), Expand(stream, blocks[pos]))
    decreases |blocks|
  {
    hide Plus, Expand;
    var init, last := blocks[..|blocks| - 1], blocks[|blocks| - 1];
    if pos == |blocks| - 1 {
      assert Without(blocks, pos) == init;
    } else {
      TakeOut(init, pos, stream);
      var rest := Without(init, pos);
      assert Without(blocks, pos)[..|blocks| - 2] == rest;
      var x, y, t := Expand(stream, blocks[pos]), Expand(stream, last), Total(rest, stream);
      PlusAssociates(t, x, y);
      PlusCommutes(x, y);
      PlusAssociates(t, y, x);
    }
  }

  lemma WithoutCounts(blocks: seq<BlockId>, pos: nat)
    requires pos < |blocks|
    ensures multiset(Without(blocks, pos)) == multiset(blocks) - multiset{blocks[pos]}
  {
    assert blocks == blocks[..pos] + [blocks[pos]] + blocks[pos + 1..];
  }

  /** Two lists of the same blocks have the same sum, whatever their order. */
  lemma {:induction false} TotalIgnoresOrder(a: seq<BlockId>, b: seq<BlockId>, stream: Stream)
    requires multiset(a) == multiset(b)
    ensures Total(a, stream) == Total(b, stream)
    decreases |a|
  {
    hide Plus, Expand;
    if a == [] {
      assert |multiset(b)| == 0;
    } else {
      var last := a[|a| - 1];
      assert last in multiset(b);
      var pos :| 0 <= pos < |b| && b[pos] == last;
      WithoutCounts(b, pos);
      WithoutCounts(a, |a| - 1);
      assert Without(a, |a| - 1) == a[..|a| - 1];
      TotalIgnoresOrder(a[..|a| - 1], Without(b, pos), stream);
      TakeOut(b, pos, stream);
    }
  }

  lemma SwapRemoveCounts(blocks: seq<BlockId>, pos: nat)
    requires pos < |blocks|
    ensures multiset(SwapRemove(blocks, pos)) == multiset(blocks) - multiset{blocks[pos]}
  {
    var last := |blocks| - 1;
    if pos == last {
      assert SwapRemove(blocks, pos) == Without(blocks, pos);
    } else {
      assert blocks == blocks[..pos] + [blocks[pos]] + blocks[pos + 1..last] + [blocks[last]];
      assert SwapRemove(blocks, pos) == blocks[..pos] + [blocks[last]] + blocks[pos + 1..last];
    }
    WithoutCounts(blocks, pos);
  }

  ghost predicate Hashed(c: Context, stream: Stream) {
    c.hash == Total(c.blocks, stream)
  }

  lemma StepHashes(c: Context, op: Op, stream: Stream)
    requires Hashed(c, stream)
    ensures Hashed(Step(c, op, stream), stream)
    ensures multiset(Step(c, op, stream).blocks) ==
            match op case Add(id) => multiset(c.blocks)
                + multiset{id} case Evict(id) => multiset(c.blocks) - multiset{id}
  {
    hide Plus, Minus, Expand;
    match op
    case Add(id) => assert (c.blocks + [id])[..|c.blocks|] == c.blocks;
    case Evict(id) =>
      var after := LastAfter(c.blocks, id);
      if after > 0 {
        var pos := after - 1;
        TakeOut(c.blocks, pos, stream);
        SwapRemoveCounts(c.blocks, pos);
        WithoutCounts(c.blocks, pos);
        TotalIgnoresOrder(Without(c.blocks, pos), SwapRemove(c.blocks, pos), stream);
        MinusInverts(Total(SwapRemove(c.blocks, pos), stream), Expand(stream, id));
      }
  }

  /** After any adds and evictions, duplicates and absent blocks included, the live list holds
      exactly the live multiset and the hash is the sum of its elements. */
  lemma {:induction false} RunHashes(ops: seq<Op>, stream: Stream)
    ensures Hashed(Steps(ops, stream), stream) && multiset(Steps(ops, stream).blocks) == Live(ops)
    decreases |ops|
  {
    if ops != [] {
      hide Step, Total;
      RunHashes(ops[..|ops| - 1], stream);
      StepHashes(Steps(ops[..|ops| - 1], stream), ops[|ops| - 1], stream);
    }
  }

  /** Two histories that leave the same blocks live have the same key. */
  lemma KeyIgnoresHistory(a: seq<Op>, b: seq<Op>, stream: Stream)
    requires Live(a) == Live(b)
    ensures ToBytes(Steps(a, stream).hash) == ToBytes(Steps(b, stream).hash)
  {
    RunHashes(a, stream);
    RunHashes(b, stream);
    TotalIgnoresOrder(Steps(a, stream).blocks, Steps(b, stream).blocks, stream);
  }

  /** Keys agree exactly when the element sums do. */
  lemma KeysAgreeExactly(a: seq<Op>, b: seq<Op>, stream: Stream)
    ensures ToBytes(Steps(a, stream).hash) == ToBytes(Steps(b, stream).hash) <==>
            Total(Steps(a, stream).blocks, stream) == Total(Steps(b, stream).blocks, stream)
  {
    RunHashes(a, stream);
    RunHashes(b, stream);
    hide ToBytes, FromBytes, Total;
    BytesRoundTrip(Steps(a, stream).hash, ToBytes(Zero()));
    BytesRoundTrip(Steps(b, stream).hash, ToBytes(Zero()));
  }

  /** Evicting what was just added restores the whole state, list order included. */
  lemma EvictUndoesAdd(c: Context, id: BlockId, stream: Stream)
    ensures Step(Step(c, Add(id), stream), Evict(id), stream) == c
  {
  }

  /** An eviction keeps the insertion order exactly when the blocks behind the evicted one are all
      equal; otherwise the last block jumps forward. */
  lemma OrderKeptExactly(blocks: seq<BlockId>, pos: nat)
    requires pos < |blocks|
    ensures SwapRemove(blocks, pos) == Without(blocks, pos) <==>
            forall i, j :: pos < i < j < |blocks| ==> blocks[i] == blocks[j]
  {
    var last := |blocks| - 1;
    if pos < last {
      assert SwapRemove(blocks, pos) == blocks[..pos] + [blocks[last]] + blocks[pos + 1..last];
      if SwapRemove(blocks, pos) == Without(blocks, pos) {
        forall i | pos < i < last
          ensures blocks[i] == blocks[i + 1]
        {
          assert SwapRemove(blocks, pos)[i] == blocks[i];
          assert Without(blocks, pos)[i] == blocks[i + 1];
        }
        AllEqual(blocks, pos + 1);
      }
      if forall i, j :: pos < i < j < |blocks| ==> blocks[i] == blocks[j] {
        forall i | 0 <= i < last
          ensures SwapRemove(blocks, pos)[i] == Without(blocks, pos)[i]
        {
          assert Without(blocks, pos)[i] == if i < pos then blocks[i] else blocks[i + 1];
        }
      }
    }
  }

  lemma {:induction false} AllEqual(blocks: seq<BlockId>, from: nat)
    requires from < |blocks|
    requires forall i :: from <= i < |blocks| - 1 ==> blocks[i] == blocks[i + 1]
    ensures forall i :: from <= i < |blocks| ==> blocks[i] == blocks[from]
    decreases |blocks| - from
  {
    if from < |blocks| - 1 {
      AllEqual(blocks, from + 1);
    }
  }
}

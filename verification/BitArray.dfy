/** Items of up to 63 bits packed into 32-bit blocks. */
module BitArray {
  import opened Options
  import opened Powers

  type Block = bv32
  type Item = nat

  const BLOCK_SIZE := 32
  const ITEM_BITS := 64

  function Mask(k: nat): Block
    requires k < BLOCK_SIZE
  {
    1 << k
  }

  /** Bit `i` of a block sequence; bits beyond its end are clear. */
  predicate Bit(blocks: seq<Block>, i: nat) {
    i / BLOCK_SIZE < |blocks| && blocks[i / BLOCK_SIZE] & Mask(i % BLOCK_SIZE) != 0
  }

  lemma {:induction false} MasksDiffer(j: nat, k: nat)
    requires j < BLOCK_SIZE && k < BLOCK_SIZE
    ensures Mask(j) & Mask(k) == if j == k then Mask(j) else 0
    ensures Mask(j) != 0
  {
  }

  lemma {:induction false} OrBits(b: Block, m: Block, n: Block)
    ensures (b | m) & n == (b & n) | (m & n)
  {
  }

  lemma {:induction false} OrIsZero(a: Block, b: Block)
    ensures a | b == 0 <==> a == 0 && b == 0
  {
  }

  lemma {:induction false} AndNotOther(b: Block, m: Block, n: Block)
    requires m & n == 0
    ensures (b & !m) & n == b & n
  {
  }

  lemma {:induction false} AndNotSame(b: Block, m: Block)
    ensures (b & !m) & m == 0
  {
  }

  lemma {:induction false} BlockBits(b: Block, j: nat, k: nat)
    requires j < BLOCK_SIZE && k < BLOCK_SIZE
    ensures (b | Mask(k)) & Mask(j) != 0 <==> j == k || b & Mask(j) != 0
    ensures (b & !Mask(k)) & Mask(j) != 0 <==> j != k && b & Mask(j) != 0
  {
    var m, n := Mask(k), Mask(j);
    MasksDiffer(k, j);
    MasksDiffer(j, j);
    OrBits(b, m, n);
    OrIsZero(b & n, m & n);
    if j == k { AndNotSame(b, m); } else { AndNotOther(b, m, n); }
  }

  lemma {:induction false} SameBit(i: nat, j: nat)
    ensures i == j <==> i / BLOCK_SIZE == j / BLOCK_SIZE && i % BLOCK_SIZE == j % BLOCK_SIZE
  {
  }

  /** Setting or clearing a bit of one block changes exactly that bit of the sequence. */
  lemma {:induction false} SetOneBit(blocks: seq<Block>, i: nat, j: nat)
    requires i / BLOCK_SIZE < |blocks|
    ensures
      var at := i / BLOCK_SIZE;
      Bit(blocks[at := blocks[at] | Mask(i % BLOCK_SIZE)], j) <==> j == i || Bit(blocks, j)
  {
    SameBit(i, j);
    BlockBits(blocks[i / BLOCK_SIZE], j % BLOCK_SIZE, i % BLOCK_SIZE);
  }

  lemma {:induction false} ClearOneBit(blocks: seq<Block>, i: nat, j: nat)
    requires i / BLOCK_SIZE < |blocks|
    ensures
      var at := i / BLOCK_SIZE;
      Bit(blocks[at := blocks[at] & !Mask(i % BLOCK_SIZE)], j) <==> j != i && Bit(blocks, j)
  {
    SameBit(i, j);
    BlockBits(blocks[i / BLOCK_SIZE], j % BLOCK_SIZE, i % BLOCK_SIZE);
  }

  /** The block sequence as a set of bit numbers. */
  function BitsOf(blocks: seq<Block>): nat -> bool {
    (i: nat) => Bit(blocks, i)
  }

  class BitSet {
    var blocks: seq<Block>

    constructor (desiredCap: nat)
      ensures |blocks| == (desiredCap + BLOCK_SIZE - 1) / BLOCK_SIZE
      ensures forall j: nat :: !Bit(blocks, j)
    {
      var size := desiredCap / BLOCK_SIZE;
      if desiredCap % BLOCK_SIZE != 0 {
        size := size + 1;
      }
      blocks := seq(size, _ => 0);
    }

    constructor Copy(blocks: seq<Block>)
      ensures this.blocks == blocks
    {
      this.blocks := blocks;
    }

    /** Sets bit `i`, growing the block sequence first if it is too short. */
    method Set(i: nat)
      modifies this
      ensures forall j: nat :: Bit(blocks, j) <==> j == i || Bit(old(blocks), j)
      ensures |blocks| >= |old(blocks)|
    {
      if |blocks| < i / BLOCK_SIZE + 1 {
        blocks := blocks + seq(i / BLOCK_SIZE + 1, _ => 0);
      }
      ghost var grown := blocks;
      assert forall j: nat :: Bit(grown, j) <==> Bit(old(blocks), j);
      blocks := blocks[i / BLOCK_SIZE := blocks[i / BLOCK_SIZE] | Mask(i % BLOCK_SIZE)];
      forall j: nat ensures Bit(blocks, j) <==> j == i || Bit(grown, j) {
        SetOneBit(grown, i, j);
      }
    }

    /** Clears bit `i`; the block sequence never grows. */
    method Clear(i: nat)
      modifies this
      ensures forall j: nat :: Bit(blocks, j) <==> j != i && Bit(old(blocks), j)
      ensures |blocks| == |old(blocks)|
    {
      if |blocks| >= i / BLOCK_SIZE + 1 {
        blocks := blocks[i / BLOCK_SIZE := blocks[i / BLOCK_SIZE] & !Mask(i % BLOCK_SIZE)];
        forall j: nat ensures Bit(blocks, j) <==> j != i && Bit(old(blocks), j) {
          ClearOneBit(old(blocks), i, j);
        }
      }
    }

    method IsSet(i: nat) returns (r: bool)
      ensures r <==> Bit(blocks, i)
    {
      if |blocks| < i / BLOCK_SIZE + 1 {
        return false;
      }
      return blocks[i / BLOCK_SIZE] & Mask(i % BLOCK_SIZE) != 0;
    }
  }

  // ---- items

  /** `x & value != 0` for a power of two `x`. */
  predicate Hits(value: Item, x: nat)
    requires x > 0
  {
    value / x % 2 == 1
  }

  lemma {:induction false} NextLowBit(value: Item, x: nat)
    requires x > 0
    ensures value % (2 * x) == value % x + if Hits(value, x) then x else 0
  {
    var q, r := value / x, value % x;
    assert value == x * q + r;
    if q % 2 == 1 {
      assert q == 2 * (q / 2) + 1;
      assert value == (2 * x) * (q / 2) + (x + r) by { Spread(x, q / 2); }
      Remainder(2 * x, q / 2, x + r);
    } else {
      assert q == 2 * (q / 2);
      assert value == (2 * x) * (q / 2) + r by { Spread(x, q / 2); }
      Remainder(2 * x, q / 2, r);
    }
  }

  lemma {:induction false} Spread(x: nat, k: nat)
    ensures x * (2 * k) == (2 * x) * k && x * (2 * k + 1) == (2 * x) * k + x
  {
  }

  // ---- packed items

  /** Items are stored with their highest bit first: where bit `n` of item `index` is. */
  function Position(w: nat, index: nat, n: nat): nat
    requires n < w
  {
    index * w + (w - 1 - n)
  }

  /** The value of the `n` lowest bits stored for an item. */
  function Low(bits: nat -> bool, w: nat, index: nat, n: nat): Item
    requires n <= w
  {
    if n == 0 then 0
    else Low(bits, w, index, n - 1) + if bits(Position(w, index, n - 1)) then Pow2(n - 1) else 0
  }

  function ItemAt(bits: nat -> bool, w: nat, index: nat): Item {
    Low(bits, w, index, w)
  }

  lemma {:induction false} LowDepends(a: nat -> bool, b: nat -> bool, w: nat, index: nat, n: nat)
    requires n <= w
    requires forall m :: 0 <= m < n ==> (a(Position(w, index, m)) <==> b(Position(w, index, m)))
    ensures Low(a, w, index, n) == Low(b, w, index, n)
  {
    if n > 0 { LowDepends(a, b, w, index, n - 1); }
  }

  lemma {:induction false} LowIsValue(bits: nat -> bool, w: nat, index: nat, n: nat, value: Item)
    requires n <= w
    requires forall m :: 0 <= m < n ==> (bits(Position(w, index, m)) <==> Hits(value, Pow2(m)))
    ensures Low(bits, w, index, n) == value % Pow2(n)
  {
    if n > 0 {
      LowIsValue(bits, w, index, n - 1, value);
      NextLowBit(value, Pow2(n - 1));
    }
  }

  lemma {:induction false} LowOfClear(bits: nat -> bool, w: nat, index: nat, n: nat)
    requires n <= w && forall j: nat :: !bits(j)
    ensures Low(bits, w, index, n) == 0
  {
    if n > 0 { LowOfClear(bits, w, index, n - 1); }
  }

  /** A packed array is a sequence of items. */
  function Decode(bits: nat -> bool, w: nat, count: nat): (items: seq<Item>)
    ensures |items| == count
  {
    seq(count, i requires 0 <= i < count => ItemAt(bits, w, i))
  }

  class CompactArray {
    const bits: BitSet
    const itemSize: nat
    const itemsCount: nat

    constructor (bits: BitSet, itemSize: nat, itemsCount: nat)
      ensures this.bits == bits && this.itemSize == itemSize && this.itemsCount == itemsCount
    {
      this.bits, this.itemSize, this.itemsCount := bits, itemSize, itemsCount;
    }

    predicate Valid() {
      itemSize < ITEM_BITS
    }

    ghost function Items(): (items: seq<Item>)
      reads bits
      ensures |items| == itemsCount
    {
      Decode(BitsOf(bits.blocks), itemSize, itemsCount)
    }

    predicate ValidIndex(index: int) {
      0 <= index < itemsCount
    }

    /** Overwrites one item and no other, bit by bit. An index out of range or a value too wide for
        the items panics and changes nothing. */
    method SetItem(index: int, value: Item) returns (panicked: bool)
      requires Valid()
      modifies bits
      ensures panicked <==> index < 0 || index >= itemsCount || value > Pow2(itemSize) - 1
      ensures Items() == if panicked then old(Items()) else old(Items())[index := value]
    {
      if !ValidIndex(index) {
        return true;
      }
      if value > Pow2(itemSize) - 1 {
        return true;
      }
      hide Partial, Decode, Hits;
      NothingWritten(BitsOf(bits.blocks), itemSize, index, value);
      var bitIndex := index * itemSize;
      var x := 1;
      var i := itemSize - 1;
      while i >= 0
        invariant -1 <= i < itemSize
        invariant x == Pow2(itemSize - 1 - i)
        invariant Partial(BitsOf(old(bits.blocks)), BitsOf(bits.blocks), itemSize, index, itemSize - 1 - i, value)
      {
        ghost var now, n := bits.blocks, itemSize - 1 - i;
        assert bitIndex + i == Position(itemSize, index, n);
        if Hits(value, x) {
          bits.Set(bitIndex + i);
        } else {
          bits.Clear(bitIndex + i);
        }
        PartialStep(BitsOf(old(bits.blocks)), BitsOf(now), BitsOf(bits.blocks), itemSize, index, n, value);
        x := 2 * x;
        i := i - 1;
      }
      WrittenItems(BitsOf(old(bits.blocks)), BitsOf(bits.blocks), itemSize, itemsCount, index, value);
      return false;
    }

    method GetItem(index: int) returns (panicked: bool, item: Item)
      requires Valid()
      ensures panicked <==> index < 0 || index >= itemsCount
      ensures !panicked ==> item == Items()[index]
    {
      if !ValidIndex(index) {
        return true, 0;
      }
      var bitIndex := index * itemSize;
      var res := 0;
      var x := 1;
      var i := itemSize - 1;
      while i >= 0
        invariant -1 <= i < itemSize
        invariant x == Pow2(itemSize - 1 - i)
        invariant res == Low(BitsOf(bits.blocks), itemSize, index, itemSize - 1 - i)
      {
        var isSet := bits.IsSet(bitIndex + i);
        assert bitIndex + i == Position(itemSize, index, itemSize - 1 - i);
        if isSet {
          res := res + x;
        }
        x := 2 * x;
        i := i - 1;
      }
      return false, res;
    }

    method GetItems() returns (items: seq<Item>)
      requires Valid()
      ensures items == Items()
    {
      items := [];
      for i := 0 to itemsCount
        invariant items == Items()[..i]
      {
        var panicked, item := GetItem(i);
        items := items + [item];
      }
    }

    /** A copy with a bit set of its own: later writes to one do not show in the other. */
    method DeepCopy() returns (copy: CompactArray)
      ensures fresh(copy.bits) && copy.itemSize == itemSize && copy.itemsCount == itemsCount
      ensures copy.Items() == Items()
    {
      var b := new BitSet.Copy(bits.blocks);
      copy := new CompactArray(b, itemSize, itemsCount);
    }

    /** Any run of valid writes leaves the array as the same run leaves a plain sequence. */
    method SetAll(writes: seq<(nat, Item)>)
      requires Valid() && forall k :: 0 <= k < |writes| ==> writes[k].0 < itemsCount && writes[k].1 < Pow2(itemSize)
      modifies bits
      ensures Items() == Written(old(Items()), writes)
    {
      for k := 0 to |writes|
        invariant Items() == Written(old(Items()), writes[..k])
      {
        assert writes[..k + 1][..k] == writes[..k];
        var panicked := SetItem(writes[k].0, writes[k].1);
      }
      assert writes[..|writes|] == writes;
    }
  }

  lemma {:induction false} OtherPositions(w: nat, i: nat, index: nat, n: nat)
    requires n < w && i != index
    ensures Position(w, i, n) < index * w || Position(w, i, n) >= index * w + w
  {
    Multiple(i - index, w);
    assert (i - index) * w == i * w - index * w;
  }

  lemma {:induction false} OtherItem(before: nat -> bool, after: nat -> bool, w: nat, i: nat, index: nat)
    requires i != index
    requires forall j: nat :: (j < index * w || j >= index * w + w) ==> (after(j) <==> before(j))
    ensures ItemAt(after, w, i) == ItemAt(before, w, i)
  {
    forall n | 0 <= n < w ensures after(Position(w, i, n)) <==> before(Position(w, i, n)) {
      OtherPositions(w, i, index, n);
    }
    LowDepends(after, before, w, i, w);
  }

  /** The `n` lowest bits of item `index` have been written; no bit of another item has changed. */
  ghost predicate Partial(before: nat -> bool, after: nat -> bool, w: nat, index: nat, n: nat, value: Item)
    requires n <= w
  {
    (forall m :: 0 <= m < n ==> (after(Position(w, index, m)) <==> Hits(value, Pow2(m)))) &&
    (forall j: nat :: (j < index * w || j >= index * w + w) ==> (after(j) <==> before(j)))
  }

  lemma {:induction false} NothingWritten(bits: nat -> bool, w: nat, index: nat, value: Item)
    ensures Partial(bits, bits, w, index, 0, value)
  {
  }

  lemma {:induction false} PartialStep(before: nat -> bool, now: nat -> bool, after: nat -> bool, w: nat, index: nat,
        n: nat, value: Item)
    requires n < w && Partial(before, now, w, index, n, value)
    requires forall j: nat :: after(j) <==>
      if j == Position(w, index, n) then Hits(value, Pow2(n)) else now(j)
    ensures Partial(before, after, w, index, n + 1, value)
  {
  }

  lemma {:induction false} WrittenItem(before: nat -> bool, after: nat -> bool, w: nat, index: nat, value: Item)
    requires value < Pow2(w) && Partial(before, after, w, index, w, value)
    ensures ItemAt(after, w, index) == value
  {
    LowIsValue(after, w, index, w, value);
    SmallRemainder(value, Pow2(w));
  }

  lemma {:induction false} SmallRemainder(r: nat, d: nat)
    requires r < d
    ensures r % d == r
  {
    Remainder(d, 0, r);
  }

  lemma {:induction false} WrittenItems(before: nat -> bool, after: nat -> bool, w: nat, count: nat, index: nat,
        value: Item)
    requires index < count && value < Pow2(w) && Partial(before, after, w, index, w, value)
    ensures Decode(after, w, count) == Decode(before, w, count)[index := value]
  {
    var old', new' := Decode(before, w, count), Decode(after, w, count);
    WrittenItem(before, after, w, index, value);
    forall i | 0 <= i < count ensures new'[i] == old'[index := value][i] {
      if i != index { OtherItem(before, after, w, i, index); }
    }
  }

  /** The writes applied to a plain sequence, in order. */
  function Written(items: seq<Item>, writes: seq<(nat, Item)>): (r: seq<Item>)
    requires forall k :: 0 <= k < |writes| ==> writes[k].0 < |items|
    ensures |r| == |items|
  {
    if writes == [] then items
    else
      var last := writes[|writes| - 1];
      Written(items, writes[..|writes| - 1])[last.0 := last.1]
  }

  /** What is read at `i` is the last value written there, or the initial one. */
  lemma {:induction false} LastWriteWins(items: seq<Item>, writes: seq<(nat, Item)>, i: nat)
    requires i < |items| && forall k :: 0 <= k < |writes| ==> writes[k].0 < |items|
    ensures (forall k :: 0 <= k < |writes| ==> writes[k].0 != i) ==> Written(items, writes)[i] == items[i]
    ensures forall k :: 0 <= k < |writes| && writes[k].0 == i && (forall l :: k < l < |writes| ==> writes[l].0 != i) ==>
      Written(items, writes)[i] == writes[k].1
  {
    if writes != [] { LastWriteWins(items, writes[..|writes| - 1], i); }
  }

  /** A new array holds zeros and accepts every value up to `maxValue`; a value that needs all 64 bits
      is refused. The initial capacity is `size` bits, whatever the width of the items. */
  method NewCompactArray(size: nat, maxValue: Item) returns (r: Result<CompactArray, string>)
    ensures r.Failure? <==> maxValue >= Pow2(63)
    ensures r.Success? ==>
      fresh(r.value) && fresh(r.value.bits) && r.value.Valid() && maxValue < Pow2(r.value.itemSize) &&
      r.value.Items() == seq(size, _ => 0)
  {
    var itemSize := BitsNeeded(maxValue);
    BitsNeededIsLeast(maxValue);
    PowersGrow(itemSize, 63);
    if itemSize >= ITEM_BITS {
      return Failure("invalid itemSize, must be less than the size of Item");
    }
    var b := new BitSet(size);
    var a := new CompactArray(b, itemSize, size);
    forall i | 0 <= i < size ensures a.Items()[i] == 0 {
      LowOfClear(BitsOf(b.blocks), itemSize, i, itemSize);
    }
    return Success(a);
  }
}

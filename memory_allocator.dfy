// The size-class allocator of memory-go (memory.go): seventeen pools of
// power-of-two buffers from 1 byte to 64 KiB, and msb, the position of a
// 32-bit value's most significant bit by a de Bruijn multiply-and-lookup.
module MemoryAllocator {
  import opened Wrappers
  import opened GoStrings

  /** The largest pooled size, 64 KiB, and the number of classes: 1 << 0 .. 1 << 16. */
  const MaxPooled: int := 65536
  const Classes: int := 17

  // ---------------------------------------------------------------------------
  // msb

  /** Every bit below the most significant one set: v |= v >> 1, >> 2, >> 4, >> 8, >> 16. */
  function Smear(v: bv32): bv32 {
    var a := v | (v >> 1);
    var b := a | (a >> 2);
    var c := b | (b >> 4);
    var d := c | (c >> 8);
    d | (d >> 16)
  }

  const DeBruijnMultiplier: bv32 := 0x07C4ACDD

  /** debruijinPos: the bit position for each top-five-bit pattern of the product. */
  const DeBruijnPos: seq<nat> :=
    [0, 9, 1, 10, 13, 21, 2, 29, 11, 14, 16, 18, 22, 25, 3, 30,
     8, 12, 20, 28, 15, 17, 24, 7, 19, 27, 23, 6, 26, 5, 4, 31]

  /** The top five bits of a product, as a table index. */
  function TopFive(p: bv32): (r: int)
    ensures 0 <= r < 32
  {
    (p >> 27) as int
  }

  /** The table entry a smeared value selects: the top five bits of its
      (wrapping) product with the multiplier. */
  function Lookup(s: bv32): nat {
    DeBruijnPos[TopFive(s * DeBruijnMultiplier)]
  }

  /** msb on the uint32 conversion of the size. */
  function Msb(v: bv32): nat {
    Lookup(Smear(v))
  }

  /** The value whose bits 0..k are all set. */
  function Ones(k: bv32): bv32
    requires k < 32
  {
    ((1 << k) << 1) - 1
  }

  /** Bit k is the most significant set bit of v. */
  predicate IsTopBit(v: bv32, k: bv32) {
    k < 32 && (1 << k) <= v && (k == 31 || v < (1 << (k + 1)))
  }

  /** The most significant set bit of a non-zero value. */
  function TopBit(v: bv32): (k: bv32)
    requires v != 0
    ensures IsTopBit(v, k)
  {
    if v >= 0x80000000 then 31
    else if v >= 0x40000000 then 30
    else if v >= 0x20000000 then 29
    else if v >= 0x10000000 then 28
    else if v >= 0x8000000 then 27
    else if v >= 0x4000000 then 26
    else if v >= 0x2000000 then 25
    else if v >= 0x1000000 then 24
    else if v >= 0x800000 then 23
    else if v >= 0x400000 then 22
    else if v >= 0x200000 then 21
    else if v >= 0x100000 then 20
    else if v >= 0x80000 then 19
    else if v >= 0x40000 then 18
    else if v >= 0x20000 then 17
    else if v >= 0x10000 then 16
    else if v >= 0x8000 then 15
    else if v >= 0x4000 then 14
    else if v >= 0x2000 then 13
    else if v >= 0x1000 then 12
    else if v >= 0x800 then 11
    else if v >= 0x400 then 10
    else if v >= 0x200 then 9
    else if v >= 0x100 then 8
    else if v >= 0x80 then 7
    else if v >= 0x40 then 6
    else if v >= 0x20 then 5
    else if v >= 0x10 then 4
    else if v >= 0x8 then 3
    else if v >= 0x4 then 2
    else if v >= 0x2 then 1
    else 0
  }

  /** Smearing leaves exactly the bits up to the top one. */
  lemma SmearTop(v: bv32, k: bv32)
    requires IsTopBit(v, k)
    ensures Smear(v) == Ones(k)
  {
  }

  /** The multiplier and table are a de Bruijn lookup: each of the 32 smeared
      values selects its own top bit's position. */
  lemma LookupTable(k: bv32)
    requires k < 32
    ensures Lookup(Ones(k)) == k as int
  {
    if k < 8 {
      LookupTable0(k);
    } else if k < 16 {
      LookupTable1(k);
    } else if k < 24 {
      LookupTable2(k);
    } else {
      LookupTable3(k);
    }
  }

  lemma LookupTable0(k: bv32)
    requires 0 <= k <= 7
    ensures Lookup(Ones(k)) == k as int
  {
    if k == 7 {
      assert Ones(7) == 0xFF && Lookup(0xFF) == 7;
    } else if k == 6 {
      assert Ones(6) == 0x7F && Lookup(0x7F) == 6;
    } else if k == 5 {
      assert Ones(5) == 0x3F && Lookup(0x3F) == 5;
    } else if k == 4 {
      assert Ones(4) == 0x1F && Lookup(0x1F) == 4;
    } else if k == 3 {
      assert Ones(3) == 0xF && Lookup(0xF) == 3;
    } else if k == 2 {
      assert Ones(2) == 0x7 && Lookup(0x7) == 2;
    } else if k == 1 {
      assert Ones(1) == 0x3 && Lookup(0x3) == 1;
    } else {
      assert Ones(0) == 0x1 && Lookup(0x1) == 0;
    }
  }

  lemma LookupTable1(k: bv32)
    requires 8 <= k <= 15
    ensures Lookup(Ones(k)) == k as int
  {
    if k == 15 {
      assert Ones(15) == 0xFFFF && Lookup(0xFFFF) == 15;
    } else if k == 14 {
      assert Ones(14) == 0x7FFF && Lookup(0x7FFF) == 14;
    } else if k == 13 {
      assert Ones(13) == 0x3FFF && Lookup(0x3FFF) == 13;
    } else if k == 12 {
      assert Ones(12) == 0x1FFF && Lookup(0x1FFF) == 12;
    } else if k == 11 {
      assert Ones(11) == 0xFFF && Lookup(0xFFF) == 11;
    } else if k == 10 {
      assert Ones(10) == 0x7FF && Lookup(0x7FF) == 10;
    } else if k == 9 {
      assert Ones(9) == 0x3FF && Lookup(0x3FF) == 9;
    } else {
      assert Ones(8) == 0x1FF && Lookup(0x1FF) == 8;
    }
  }

  lemma LookupTable2(k: bv32)
    requires 16 <= k <= 23
    ensures Lookup(Ones(k)) == k as int
  {
    if k == 23 {
      assert Ones(23) == 0xFFFFFF && Lookup(0xFFFFFF) == 23;
    } else if k == 22 {
      assert Ones(22) == 0x7FFFFF && Lookup(0x7FFFFF) == 22;
    } else if k == 21 {
      assert Ones(21) == 0x3FFFFF && Lookup(0x3FFFFF) == 21;
    } else if k == 20 {
      assert Ones(20) == 0x1FFFFF && Lookup(0x1FFFFF) == 20;
    } else if k == 19 {
      assert Ones(19) == 0xFFFFF && Lookup(0xFFFFF) == 19;
    } else if k == 18 {
      assert Ones(18) == 0x7FFFF && Lookup(0x7FFFF) == 18;
    } else if k == 17 {
      assert Ones(17) == 0x3FFFF && Lookup(0x3FFFF) == 17;
    } else {
      assert Ones(16) == 0x1FFFF && Lookup(0x1FFFF) == 16;
    }
  }

  lemma LookupTable3(k: bv32)
    requires 24 <= k <= 31
    ensures Lookup(Ones(k)) == k as int
  {
    if k == 31 {
      assert Ones(31) == 0xFFFFFFFF && Lookup(0xFFFFFFFF) == 31;
    } else if k == 30 {
      assert Ones(30) == 0x7FFFFFFF && Lookup(0x7FFFFFFF) == 30;
    } else if k == 29 {
      assert Ones(29) == 0x3FFFFFFF && Lookup(0x3FFFFFFF) == 29;
    } else if k == 28 {
      assert Ones(28) == 0x1FFFFFFF && Lookup(0x1FFFFFFF) == 28;
    } else if k == 27 {
      assert Ones(27) == 0xFFFFFFF && Lookup(0xFFFFFFF) == 27;
    } else if k == 26 {
      assert Ones(26) == 0x7FFFFFF && Lookup(0x7FFFFFF) == 26;
    } else if k == 25 {
      assert Ones(25) == 0x3FFFFFF && Lookup(0x3FFFFFF) == 25;
    } else {
      assert Ones(24) == 0x1FFFFFF && Lookup(0x1FFFFFF) == 24;
    }
  }

  /** 2^0 .. 2^32. */
  const Powers: seq<int> :=
    [0x1, 0x2, 0x4, 0x8, 0x10, 0x20, 0x40, 0x80, 
     0x100, 0x200, 0x400, 0x800, 0x1000, 0x2000, 0x4000, 0x8000, 
     0x10000, 0x20000, 0x40000, 0x80000, 0x100000, 0x200000, 0x400000, 0x800000, 
     0x1000000, 0x2000000, 0x4000000, 0x8000000, 0x10000000, 0x20000000, 0x40000000, 0x80000000, 
     0x100000000]

  lemma {:induction false} PowersArePow2(k: nat)
    requires k <= 32
    ensures Pow2(k) == Powers[k]
    decreases k
  {
    if k > 0 {
      PowersArePow2(k - 1);
      assert Powers[k] == 2 * Powers[k - 1];
    }
  }

  /** The top bit's position as bounds on the value as a number. */
  lemma TopBitBounds(v: bv32, k: bv32)
    requires IsTopBit(v, k)
    ensures Pow2(k as int) <= v as int < Pow2(k as int + 1)
  {
    TopBitPowers(v, k);
    PowersBound(v as int, k as int);
  }

  lemma TopBitPowers(v: bv32, k: bv32)
    requires IsTopBit(v, k)
    ensures k < 32 && Powers[k as int] <= v as int < Powers[k as int + 1]
  {
    if k < 8 {
      TopBitBounds0(v, k);
    } else if k < 16 {
      TopBitBounds1(v, k);
    } else if k < 24 {
      TopBitBounds2(v, k);
    } else {
      TopBitBounds3(v, k);
    }
  }

  lemma PowersBound(x: int, j: nat)
    requires j < 32 && Powers[j] <= x < Powers[j + 1]
    ensures Pow2(j) <= x < Pow2(j + 1)
  {
    PowersArePow2(j);
    PowersArePow2(j + 1);
  }

  lemma TopBitBounds0(v: bv32, k: bv32)
    requires IsTopBit(v, k) && 0 <= k <= 7
    ensures Powers[k as int] <= v as int < Powers[k as int + 1]
  {
    if k == 7 {
      assert 0x80 <= v as int;
      assert v as int < 0x100;
    } else if k == 6 {
      assert 0x40 <= v as int;
      assert v as int < 0x80;
    } else if k == 5 {
      assert 0x20 <= v as int;
      assert v as int < 0x40;
    } else if k == 4 {
      assert 0x10 <= v as int;
      assert v as int < 0x20;
    } else if k == 3 {
      assert 0x8 <= v as int;
      assert v as int < 0x10;
    } else if k == 2 {
      assert 0x4 <= v as int;
      assert v as int < 0x8;
    } else if k == 1 {
      assert 0x2 <= v as int;
      assert v as int < 0x4;
    } else {
      assert 0x1 <= v as int;
      assert v as int < 0x2;
    }
  }

  lemma TopBitBounds1(v: bv32, k: bv32)
    requires IsTopBit(v, k) && 8 <= k <= 15
    ensures Powers[k as int] <= v as int < Powers[k as int + 1]
  {
    if k == 15 {
      assert 0x8000 <= v as int;
      assert v as int < 0x10000;
    } else if k == 14 {
      assert 0x4000 <= v as int;
      assert v as int < 0x8000;
    } else if k == 13 {
      assert 0x2000 <= v as int;
      assert v as int < 0x4000;
    } else if k == 12 {
      assert 0x1000 <= v as int;
      assert v as int < 0x2000;
    } else if k == 11 {
      assert 0x800 <= v as int;
      assert v as int < 0x1000;
    } else if k == 10 {
      assert 0x400 <= v as int;
      assert v as int < 0x800;
    } else if k == 9 {
      assert 0x200 <= v as int;
      assert v as int < 0x400;
    } else {
      assert 0x100 <= v as int;
      assert v as int < 0x200;
    }
  }

  lemma TopBitBounds2(v: bv32, k: bv32)
    requires IsTopBit(v, k) && 16 <= k <= 23
    ensures Powers[k as int] <= v as int < Powers[k as int + 1]
  {
    if k == 23 {
      assert 0x800000 <= v as int;
      assert v as int < 0x1000000;
    } else if k == 22 {
      assert 0x400000 <= v as int;
      assert v as int < 0x800000;
    } else if k == 21 {
      assert 0x200000 <= v as int;
      assert v as int < 0x400000;
    } else if k == 20 {
      assert 0x100000 <= v as int;
      assert v as int < 0x200000;
    } else if k == 19 {
      assert 0x80000 <= v as int;
      assert v as int < 0x100000;
    } else if k == 18 {
      assert 0x40000 <= v as int;
      assert v as int < 0x80000;
    } else if k == 17 {
      assert 0x20000 <= v as int;
      assert v as int < 0x40000;
    } else {
      assert 0x10000 <= v as int;
      assert v as int < 0x20000;
    }
  }

  lemma TopBitBounds3(v: bv32, k: bv32)
    requires IsTopBit(v, k) && 24 <= k <= 31
    ensures Powers[k as int] <= v as int < Powers[k as int + 1]
  {
    if k == 31 {
      assert 0x80000000 <= v as int;
    } else if k == 30 {
      assert 0x40000000 <= v as int;
      assert v as int < 0x80000000;
    } else if k == 29 {
      assert 0x20000000 <= v as int;
      assert v as int < 0x40000000;
    } else if k == 28 {
      assert 0x10000000 <= v as int;
      assert v as int < 0x20000000;
    } else if k == 27 {
      assert 0x8000000 <= v as int;
      assert v as int < 0x10000000;
    } else if k == 26 {
      assert 0x4000000 <= v as int;
      assert v as int < 0x8000000;
    } else if k == 25 {
      assert 0x2000000 <= v as int;
      assert v as int < 0x4000000;
    } else {
      assert 0x1000000 <= v as int;
      assert v as int < 0x2000000;
    }
  }

  /** msb(v) is the position of v's most significant bit: floor(log2 v). */
  lemma MsbSpec(v: bv32)
    requires v != 0
    ensures Pow2(Msb(v)) <= v as int < Pow2(Msb(v) + 1)
  {
    var k := TopBit(v);
    SmearTop(v, k);
    LookupTable(k);
    TopBitBounds(v, k);
  }

  /** floor(log2 n). */
  function Log2(n: int): (r: nat)
    requires n >= 1
    ensures Pow2(r) <= n < Pow2(r + 1)
    decreases n
  {
    if n == 1 then 0 else 1 + Log2(n / 2)
  }

  /** Only one exponent brackets a number between consecutive powers of two. */
  lemma {:induction false} Log2Unique(n: int, k: nat)
    requires n >= 1 && Pow2(k) <= n < Pow2(k + 1)
    ensures Log2(n) == k
    decreases k
  {
    if k > 0 {
      assert n >= 2;
      assert Pow2(k - 1) <= n / 2 < Pow2(k);
      Log2Unique(n / 2, k - 1);
    } else {
      assert n == 1;
    }
  }

  /** msb agrees with floor(log2) on every non-zero uint32. */
  lemma MsbIsLog2(v: bv32)
    requires v != 0
    ensures Msb(v) == Log2(v as int)
  {
    MsbSpec(v);
    Log2Unique(v as int, Msb(v));
  }

  // ---------------------------------------------------------------------------
  // Size classes

  /** 2^16 and 2^17. */
  lemma Pow2At16()
    ensures Pow2(16) == MaxPooled && Pow2(17) == 2 * MaxPooled
  {
    PowersArePow2(16);
    PowersArePow2(17);
  }

  /** The class Get serves a size from: msb(n) when n is a power of two, the next
      one up otherwise. It is the least power of two not below n, one of the 17,
      and wastes less than half of its buffer. */
  function ClassOf(n: int): (c: nat)
    requires 1 <= n <= MaxPooled
    ensures c < Classes && Pow2(c) <= MaxPooled
    ensures n <= Pow2(c) < 2 * n
    ensures c == 0 || Pow2(c - 1) < n
  {
    var bits := Log2(n);
    Pow2At16();
    assert bits <= 16 by {
      if bits > 16 {
        Pow2Monotone(17, bits);
      }
    }
    if n == Pow2(bits) then bits
    else
      assert bits < 16;
      Pow2Monotone(bits + 1, 16);
      bits + 1
  }

  lemma {:induction false} Pow2Monotone(a: nat, b: nat)
    requires a <= b
    ensures Pow2(a) <= Pow2(b)
    decreases b - a
  {
    if a < b {
      Pow2Monotone(a, b - 1);
    }
  }

  /** The class Put returns a buffer of this capacity to, or None when Put refuses it:
      a capacity of 0, above 64 KiB, or not a power of two. */
  function PutClass(capacity: int): (r: Option<nat>)
    ensures r.Some? <==> (1 <= capacity <= MaxPooled && capacity == Pow2(Log2(capacity)))
    ensures r.Some? ==> r.value < Classes && Pow2(r.value) == capacity
  {
    if capacity <= 0 || capacity > MaxPooled then None
    else
      var bits := Log2(capacity);
      if capacity != Pow2(bits) then None
      else
        Pow2At16();
        if bits > 16 then
          Pow2Monotone(17, bits);
          None
        else Some(bits)
  }

  /** Every buffer Get serves from a class is taken back by Put into that class. */
  lemma GetThenPut(n: int)
    requires 1 <= n <= MaxPooled
    ensures PutClass(Pow2(ClassOf(n))) == Some(ClassOf(n))
  {
    var c := ClassOf(n);
    Log2Unique(Pow2(c), c);
  }

  // ---------------------------------------------------------------------------
  // The allocator

  /** A buffer, by its capacity. */
  datatype Buf = Buf(capacity: nat)

  /** The free list after a Get from it: the last buffer put back is taken, and a
      new one is made when the list is empty. */
  function Taken(s: seq<Buf>): seq<Buf> {
    if |s| > 0 then s[..|s| - 1] else s
  }

  class Allocator {
    /** The size each class's Pool.New allocates. */
    const classSize: array<int>
    /** The buffers each class's pool holds. */
    const free: array<seq<Buf>>

    ghost predicate Valid()
      reads this, classSize, free
    {
      classSize.Length == Classes && free.Length == Classes
      && (forall k | 0 <= k < Classes :: classSize[k] == Pow2(k))
      && (forall k, i | 0 <= k < Classes && 0 <= i < |free[k]| :: free[k][i].capacity == Pow2(k))
    }

    /** NewAllocator: class k allocates 1 << k bytes; every pool starts empty. */
    constructor NewAllocator()
      ensures Valid()
      ensures fresh(classSize) && fresh(free)
      ensures forall k | 0 <= k < Classes :: free[k] == []
    {
      classSize := new int[Classes];
      free := new seq<Buf>[Classes](_ => []);
      new;
      for k := 0 to Classes
        invariant forall j | 0 <= j < k :: classSize[j] == Pow2(j)
        invariant forall j | 0 <= j < Classes :: free[j] == []
      {
        classSize[k] := Pow2(k);
      }
    }

    /** Get: nothing for n <= 0, a new n-byte buffer above 64 KiB, and otherwise a
        buffer of the least power-of-two size not below n, from its class's pool. */
    method Get(n: int) returns (p: Option<Buf>)
      requires Valid()
      modifies free
      ensures Valid()
      ensures n <= 0 ==> p.None? && free[..] == old(free[..])
      ensures n > MaxPooled ==> p == Some(Buf(n)) && free[..] == old(free[..])
      ensures 1 <= n <= MaxPooled ==>
                p == Some(Buf(Pow2(ClassOf(n))))
                && free[..] == old(free[..])[ClassOf(n) := Taken(old(free[ClassOf(n)]))]
    {
      if n <= 0 {
        return None;
      }
      if n > MaxPooled {
        return Some(Buf(n));
      }
      var c := ClassOf(n);
      var pool := free[c];
      if |pool| > 0 {
        p := Some(pool[|pool| - 1]);
        free[c] := pool[..|pool| - 1];
      } else {
        p := Some(Buf(classSize[c]));
      }
    }

    /** Put: a buffer whose capacity is a power of two up to 64 KiB goes back to
        its class's pool; any other is refused. */
    method Put(p: Option<Buf>) returns (err: Option<string>)
      requires Valid()
      requires p.Some?
      modifies free
      ensures Valid()
      ensures err.None? <==> PutClass(p.value.capacity).Some?
      ensures err.Some? ==> free[..] == old(free[..])
      ensures err.None? ==>
                var c := PutClass(p.value.capacity).value;
                free[..] == old(free[..])[c := old(free[c]) + [p.value]]
    {
      var capacity := p.value.capacity;
      if capacity == 0 || capacity > MaxPooled {
        return Some("allocator Put() incorrect buffer size");
      }
      var bits := Log2(capacity);
      if capacity != Pow2(bits) {
        return Some("allocator Put() incorrect buffer size");
      }
      var c := PutClass(capacity).value;
      free[c] := free[c] + [p.value];
      err := None;
    }
  }
}

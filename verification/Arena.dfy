/** The arena: a chain of chunks, each filled from the bottom (src/arena.c). `malloc` is taken to
    succeed, and each chunk's bytes are an array. */
module Arena {
  import opened Ast
  import opened Bits

  const DefaultCapacity := 1024 * 1024

  class Chunk {
    var used: nat
    const base: array<char>
    var next: Chunk?

    constructor (capacity: nat)
      ensures used == 0 && base.Length == capacity && fresh(base) && next == null
    {
      used := 0;
      base := new char[capacity];
      next := null;
    }
  }

  /** A returned block: its chunk, the offset there and the size. */
  datatype Piece = Piece(chunk: Chunk, offset: nat, size: nat)

  predicate Disjoint(a: Piece, b: Piece) {
    a.chunk != b.chunk || a.offset + a.size <= b.offset || b.offset + b.size <= a.offset
  }

  /** The offset of the next block in a chunk, in the arithmetic of the source: `size_t` wraps. */
  function Aligned(used: nat, align: nat): nat
    requires 0 < align <= SizeLimit
  {
    And((used + align - 1) % SizeLimit, SizeLimit - align)
  }

  /** The test whether a block fits, which wraps as well. */
  predicate FitTest(used: nat, capacity: nat, size: nat, align: nat)
    requires 0 < align <= SizeLimit
  {
    (Aligned(used, align) + size) % SizeLimit <= capacity
  }

  /** No size computed for a chunk of this capacity wraps. */
  predicate NoOverflow(capacity: nat, size: nat, align: nat) {
    capacity + align + size < SizeLimit
  }

  lemma {:induction false} AlignedIs(used: nat, align: nat)
    requires IsPower(align) && used + align < SizeLimit
    ensures Aligned(used, align) == LeastMultiple(used, align) && used <= LeastMultiple(used, align) < used + align
  {
    assert align > 0;
    hide And, IsPower, LeastMultiple;
    AlignUpIs(used, align);
    LeastMultipleIs(used, align);
    Small(used + align - 1);
  }

  /** Without overflow the offset is the least multiple of the alignment from the mark, and the test is the
      true one. */
  lemma {:induction false} FitTestIs(used: nat, capacity: nat, size: nat, align: nat)
    requires IsPower(align) && used <= capacity && NoOverflow(capacity, size, align)
    ensures Aligned(used, align) == LeastMultiple(used, align) && used <= LeastMultiple(used, align) < used + align
    ensures FitTest(used, capacity, size, align) <==> LeastMultiple(used, align) + size <= capacity
  {
    assert align > 0;
    hide Aligned, IsPower, LeastMultiple;
    AlignedIs(used, align);
    Small(LeastMultiple(used, align) + size);
  }

  /** Beyond that the test errs exactly when the sum wraps round to at most the capacity. */
  lemma {:induction false} FitTestErrs(used: nat, capacity: nat, size: nat, align: nat)
    requires IsPower(align) && used <= capacity && capacity + align < SizeLimit && size < SizeLimit
    ensures
      var end := LeastMultiple(used, align) + size;
      (FitTest(used, capacity, size, align) <==> end <= capacity) <==> !(SizeLimit <= end <= SizeLimit + capacity)
  {
    assert align > 0;
    hide Aligned, IsPower, LeastMultiple;
    AlignedIs(used, align);
    WrapTest(LeastMultiple(used, align) + size, capacity);
  }

  lemma WrapTest(end: nat, capacity: nat)
    requires end < 2 * SizeLimit && capacity < SizeLimit
    ensures (end % SizeLimit <= capacity <==> end <= capacity) <==> !(SizeLimit <= end <= SizeLimit + capacity)
  {
    if end >= SizeLimit { WrapOnce(end); } else { Small(end); }
  }

  lemma WrapOnce(x: nat)
    requires SizeLimit <= x < 2 * SizeLimit
    ensures x % SizeLimit == x - SizeLimit
  {
    ModUnique(x, SizeLimit, 1, x - SizeLimit);
  }

  lemma Small(x: nat)
    requires x < SizeLimit
    ensures x % SizeLimit == x
  {
  }

  class Arena {
    const head: Chunk
    ghost var chain: seq<Chunk>
    ghost var live: seq<Piece>      // the blocks returned since the last reset, oldest first

    ghost predicate Linked()
      reads this`chain, chain`next
    {
      && |chain| > 0 && chain[0] == head
      && (forall i :: 0 <= i < |chain| ==> chain[i].next == NextOf(i))
      && (forall i, j :: 0 <= i < j < |chain| ==> chain[i] != chain[j] && chain[i].base != chain[j].base)
    }

    ghost function NextOf(i: nat): Chunk?
      reads this`chain
    {
      if i + 1 < |chain| then chain[i + 1] else null
    }

    /** No chunk is filled past its capacity. */
    ghost predicate Filled()
      reads this`chain, chain`used
    {
      forall c :: c in chain ==> c.used <= c.base.Length
    }

    /** The block lies in a chunk of the chain, below the mark. */
    ghost predicate Below(b: Piece)
      reads this`chain, chain`used
    {
      b.chunk in chain && b.offset + b.size <= b.chunk.used
    }

    /** The live blocks lie below the marks, apart from each other. */
    ghost predicate Lives()
      reads this, chain`used
    {
      && (forall b :: b in live ==> Below(b))
      && (forall i, j :: 0 <= i < j < |live| ==> Disjoint(live[i], live[j]))
    }

    ghost predicate Valid()
      reads this, chain
    {
      Linked() && Filled() && Lives()
    }

    /** The size computations of a request do not wrap in any chunk. */
    ghost predicate Roomy(size: nat, align: nat)
      reads this, chain
    {
      forall i :: 0 <= i < |chain| ==> NoOverflow(chain[i].base.Length, size, align)
    }

    ghost predicate Fits(i: nat, size: nat, align: nat)
      requires i < |chain| && align > 0
      reads this, chain
    {
      LeastMultiple(chain[i].used, align) + size <= chain[i].base.Length
    }

    /** The block fits into none of the first chunks. */
    ghost predicate NoneFits(n: nat, size: nat, align: nat)
      requires align > 0
      reads this, chain
    {
      forall i :: 0 <= i < n && i < |chain| ==> !Fits(i, size, align)
    }

    constructor (capacity: nat)
      ensures Valid() && fresh(chain) && |chain| == 1 && live == []
      ensures head.base.Length == if capacity == 0 then DefaultCapacity else capacity
    {
      head := new Chunk(if capacity == 0 then DefaultCapacity else capacity);
      new;
      chain := [head];
      live := [];
    }

    /** Takes a block above the mark of a chunk. */
    method Place(b: Piece)
      requires Valid() && b.chunk in chain && b.chunk.used <= b.offset && b.offset + b.size <= b.chunk.base.Length
      modifies b.chunk`used, this`live
      ensures Valid() && live == old(live) + [b] && b.chunk.used == b.offset + b.size
    {
      assert forall x :: x in live ==> Below(x) && Disjoint(x, b);
      b.chunk.used := b.offset + b.size;
      live := live + [b];
    }

    /** A new chunk at the end of the chain. */
    method Grow(last: Chunk, minSize: nat) returns (chunk: Chunk)
      requires Valid() && last == chain[|chain| - 1]
      modifies last`next, this`chain
      ensures Valid() && fresh(chunk) && fresh(chunk.base) && chain == old(chain) + [chunk] && chunk.used == 0
      ensures chunk.base.Length == if minSize > DefaultCapacity then minSize else DefaultCapacity
    {
      chunk := new Chunk(if minSize > DefaultCapacity then minSize else DefaultCapacity);
      Link(last, chunk);
    }

    method Link(last: Chunk, chunk: Chunk)
      requires Valid() && last == chain[|chain| - 1] && chunk !in chain && chunk.next == null && chunk.used == 0
      requires forall c :: c in chain ==> c.base != chunk.base
      modifies last`next, this`chain
      ensures Valid() && chain == old(chain) + [chunk]
    {
      ghost var before := chain;
      last.next := chunk;
      chain := chain + [chunk];
      assert Linked() by {
        forall i | 0 <= i < |chain| ensures chain[i].next == NextOf(i) {
          if i < |before| - 1 { assert old(chain[i].next == NextOf(i)); }
        }
      }
      assert Lives() by {
        forall b | b in live ensures Below(b) { assert old(Below(b)); }
      }
    }

    /** First fit along the chain, else a new chunk at its end; `None` stands for an abort. `at` is the
        number of the chunk used. */
    method AllocAligned(size: nat, align: nat) returns (r: Option<Piece>, ghost at: nat)
      requires Valid() && align < SizeLimit && Roomy(size, align)
      modifies this, chain
      ensures Valid() && r.Some? == IsPower(align)
      ensures r.None? ==> live == old(live) && chain == old(chain)
      ensures r.Some? ==> live == old(live) + [r.value] && r.value.size == size && at < |chain| && r.value.chunk == chain[at]
      ensures r.Some? ==> old(NoneFits(at, size, align))
      ensures r.Some? && at < |old(chain)| ==>
        chain == old(chain) && r.value.offset == LeastMultiple(old(chain[at].used), align)
      ensures r.Some? && at >= |old(chain)| ==>
        && chain == old(chain) + [r.value.chunk] && fresh(r.value.chunk) && fresh(r.value.chunk.base) && r.value.offset == 0
        && r.value.chunk.base.Length == (if size + align > DefaultCapacity then size + align else DefaultCapacity)
      ensures forall c :: c in old(chain) && (r.Some? ==> c != r.value.chunk) ==> c.used == old(c.used)
    {
      at := 0;
      if align == 0 || And(align, align - 1) != 0 {
        if align > 0 { PowerTest(align); }
        return None, 0;
      }
      PowerTest(align);
      hide And, IsPower, Aligned, LeastMultiple, Valid, Roomy, Fits, NoneFits;
      var chunk, fits;
      chunk, fits, at := Find(size, align);
      if fits {
        OffsetFits(at, size, align);
        r := Some(Piece(chunk, Aligned(chunk.used, align), size));
        Place(r.value);
      } else {
        assert size <= SizeLimit - 1 - align by { RoomForChunk(size, align); }
        NoneMore(at, size, align);
        chunk := Grow(chunk, size + align);
        at := at + 1;
        AlignedZero(align);
        r := Some(Piece(chunk, Aligned(0, align), size));
        Place(r.value);
      }
    }

    lemma NoneMore(at: nat, size: nat, align: nat)
      requires align > 0 && at < |chain| && NoneFits(at, size, align) && !Fits(at, size, align)
      ensures NoneFits(at + 1, size, align)
    {
    }

    /** The overflow check before a new chunk passes. */
    lemma RoomForChunk(size: nat, align: nat)
      requires Valid() && Roomy(size, align)
      ensures size + align < SizeLimit
    {
      assert NoOverflow(chain[0].base.Length, size, align);
    }

    /** The first chunk into which the block fits, or the last chunk. */
    method Find(size: nat, align: nat) returns (chunk: Chunk, fits: bool, ghost at: nat)
      requires Valid() && align > 0 && IsPower(align) && align < SizeLimit && Roomy(size, align)
      ensures at < |chain| && chunk == chain[at] && fits == Fits(at, size, align) && NoneFits(at, size, align)
      ensures !fits ==> at == |chain| - 1
    {
      hide FitTest, Aligned, IsPower, Fits;
      chunk, at := head, 0;
      OffsetFits(at, size, align);
      while chunk.next != null && !FitTest(chunk.used, chunk.base.Length, size, align)
        invariant at < |chain| && chunk == chain[at]
        invariant FitTest(chunk.used, chunk.base.Length, size, align) == Fits(at, size, align)
        invariant NoneFits(at, size, align)
        decreases |chain| - at
      {
        assert chunk.next == NextOf(at);
        chunk := chunk.next;
        at := at + 1;
        OffsetFits(at, size, align);
      }
      fits := FitTest(chunk.used, chunk.base.Length, size, align);
      assert chunk.next == NextOf(at);
    }

    lemma {:induction false} OffsetFits(at: nat, size: nat, align: nat)
      requires Valid() && align > 0 && IsPower(align) && align < SizeLimit && Roomy(size, align) && at < |chain|
      ensures FitTest(chain[at].used, chain[at].base.Length, size, align) == Fits(at, size, align)
      ensures Aligned(chain[at].used, align) == LeastMultiple(chain[at].used, align) >= chain[at].used
      ensures chain[at] in chain && (Fits(at, size, align) ==> Aligned(chain[at].used, align) + size <= chain[at].base.Length)
    {
      hide FitTest, Aligned, LeastMultiple, IsPower;
      assert NoOverflow(chain[at].base.Length, size, align);
      assert chain[at] in chain;
      FitTestIs(chain[at].used, chain[at].base.Length, size, align);
    }

    /** `arena_reset`: every chunk is empty again and no block is live. */
    method Reset()
      requires Valid()
      modifies this`live, chain`used
      ensures Valid() && chain == old(chain) && live == []
      ensures forall c :: c in chain ==> c.used == 0
    {
      hide Valid, Lives;
      assert Linked() by { ValidIsLinked(); }
      var chunk: Chunk? := head;
      ghost var i := 0;
      while chunk != null
        invariant Linked() && i <= |chain| && chunk == (if i < |chain| then chain[i] else null)
        invariant forall j :: 0 <= j < i ==> chain[j].used == 0
        modifies chain`used
        decreases |chain| - i
      {
        chunk.used := 0;
        assert chunk.next == NextOf(i);
        chunk := chunk.next;
        i := i + 1;
      }
      live := [];
      assert Valid() by { EmptyIsValid(); }
    }

    lemma ValidIsLinked()
      requires Valid()
      ensures Linked()
    {
    }

    lemma EmptyIsValid()
      requires Linked() && live == [] && forall c :: c in chain ==> c.used == 0
      ensures Valid()
    {
    }

    // ---- contents ----

    /** `arena_alloc`: alignment 8. */
    method Alloc(size: nat) returns (r: Piece)
      requires Valid() && Roomy(size, 8)
      modifies this, chain
      ensures Valid() && live == old(live) + [r] && r.size == size && InBounds(r)
      ensures forall b :: b in old(live) ==> Disjoint(b, r) && InBounds(b) && OwnArray(b.chunk, r.chunk)
      ensures fresh(r.chunk.base) || r.chunk in old(chain)
    {
      assert IsPower(8) by { assert IsPower(4) && IsPower(2); }
      hide IsPower, NoneFits, LeastMultiple, Roomy;
      var got, at := AllocAligned(size, 8);
      r := got.value;
      LiveInBounds(r);
      forall b | b in old(live) ensures Disjoint(b, r) && InBounds(b) && OwnArray(b.chunk, r.chunk) {
        Apart(b, r, old(live));
        LiveInBounds(b);
        OwnBase(b.chunk, r.chunk);
      }
    }

    lemma LiveInBounds(b: Piece)
      requires Valid() && b in live
      ensures InBounds(b) && b.chunk in chain
    {
      assert Below(b);
    }

    /** Other chunks have other arrays. */
    lemma OwnBase(a: Chunk, b: Chunk)
      requires Valid() && a in chain && b in chain
      ensures OwnArray(a, b)
    {
      if a != b {
        var i :| 0 <= i < |chain| && chain[i] == a;
        var j :| 0 <= j < |chain| && chain[j] == b;
        assert if i < j then chain[i].base != chain[j].base else chain[j].base != chain[i].base;
      }
    }

    lemma Apart(b: Piece, r: Piece, before: seq<Piece>)
      requires Valid() && live == before + [r] && b in before
      ensures Disjoint(b, r) && b in live
    {
      var i :| 0 <= i < |before| && before[i] == b;
      assert live[i] == b && live[|before|] == r;
    }

    /** `arena_realloc`: a new block that starts with the bytes of the old one; no other block changes. */
    method Realloc(from: Option<Piece>, newSize: nat) returns (r: Piece)
      requires Valid() && Roomy(newSize, 8) && (from.Some? ==> from.value in live)
      modifies this, chain, set c | c in chain :: c.base
      ensures Valid() && live == old(live) + [r] && r.size == newSize && InBounds(r)
      ensures forall b :: b in old(live) ==> InBounds(b) && Bytes(b) == old(Bytes(b))
      ensures from.Some? ==>
        var n := if from.value.size < newSize then from.value.size else newSize;
        Bytes(r)[..n] == old(Bytes(from.value))[..n]
    {
      hide Roomy, Bytes, Disjoint, OwnArray;
      BoundsBefore();
      ghost var before := live;
      r := Alloc(newSize);
      hide Valid;
      if from.Some? { CopyInto(from.value, r, before); }
    }

    lemma BoundsBefore()
      requires Valid()
      ensures forall b :: b in live ==> InBounds(b)
    {
      forall b | b in live ensures InBounds(b) { LiveInBounds(b); }
    }
  }

  predicate InBounds(b: Piece) {
    b.offset + b.size <= b.chunk.base.Length
  }

  predicate OwnArray(a: Chunk, b: Chunk) {
    a != b ==> a.base != b.base
  }

  ghost function Bytes(b: Piece): string
    requires InBounds(b)
    reads b.chunk.base
  {
    b.chunk.base[b.offset..b.offset + b.size]
  }

  /** The part of a sequence outside of a changed range. */
  lemma SliceKept(u: string, v: string, j: nat, n: nat, i: nat, m: nat)
    requires |u| == |v| && j + n <= |u| && i + m <= |u| && u[..j] == v[..j] && u[j + n..] == v[j + n..]
    requires i + m <= j || j + n <= i
    ensures u[i..i + m] == v[i..i + m]
  {
    if i + m <= j {
      assert u[i..i + m] == u[..j][i..i + m] && v[i..i + m] == v[..j][i..i + m];
    } else {
      var d := i - (j + n);
      assert u[i..i + m] == u[j + n..][d..d + m] && v[i..i + m] == v[j + n..][d..d + m];
    }
  }

  /** Copies as much of one block as fits into another; the blocks listed keep their bytes. */
  method CopyInto(a: Piece, r: Piece, ghost others: seq<Piece>)
    requires a in others && InBounds(r)
    requires forall b :: b in others ==> InBounds(b) && Disjoint(b, r) && OwnArray(b.chunk, r.chunk)
    modifies r.chunk.base
    ensures forall b :: b in others ==> Bytes(b) == old(Bytes(b))
    ensures var n := if a.size < r.size then a.size else r.size; Bytes(r)[..n] == old(Bytes(a))[..n]
  {
    var n := if a.size < r.size then a.size else r.size;
    ghost var u := r.chunk.base[..];
    CopyBytes(a.chunk.base, a.offset, r.chunk.base, r.offset, n);
    ghost var v := r.chunk.base[..];
    assert u[..r.offset] == v[..r.offset] && u[r.offset + n..] == v[r.offset + n..];
    forall b | b in others ensures Bytes(b) == old(Bytes(b)) {
      if b.chunk.base == r.chunk.base {
        SliceKept(u, v, r.offset, n, b.offset, b.size);
        assert Bytes(b) == v[b.offset..b.offset + b.size] && old(Bytes(b)) == u[b.offset..b.offset + b.size];
      }
    }
    assert Bytes(r)[..n] == r.chunk.base[r.offset..r.offset + n];
    assert old(Bytes(a))[..n] == old(a.chunk.base[a.offset..a.offset + n]);
  }

  /** `memcpy` between ranges that do not overlap. */
  method CopyBytes(x: array<char>, i: nat, y: array<char>, j: nat, n: nat)
    requires i + n <= x.Length && j + n <= y.Length && (x == y ==> i + n <= j || j + n <= i)
    modifies y
    ensures y[j..j + n] == old(x[i..i + n]) && y[..j] == old(y[..j]) && y[j + n..] == old(y[j + n..])
  {
    var k := 0;
    while k < n
      invariant 0 <= k <= n && y[j..j + k] == old(x[i..i + k])
      invariant y[..j] == old(y[..j]) && y[j + k..] == old(y[j + k..]) && x[i + k..i + n] == old(x[i + k..i + n])
    {
      y[j + k] := x[i + k];
      k := k + 1;
    }
  }

  lemma {:induction false} AlignedZero(align: nat)
    requires IsPower(align) && align < SizeLimit
    ensures Aligned(0, align) == 0
  {
    AlignUpIs(0, align);
    LeastMultipleIs(0, align);
    assert 0 % align == 0;
  }
}

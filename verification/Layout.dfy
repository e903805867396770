/** Segment layout (superblock.go) in machine words, against the exact layout
    (conformance/layout.go). */
module Layout {
  import opened Wire

  const TWO_32: nat := 0x1_0000_0000

  const SUPERBLOCK: nat := 384
  const RING_HEADER: nat := 512
  const SLOT_STRIDE: nat := 128
  const MIN_COUNT: int := 2
  const MAX_COUNT: int := 0x100_0000
  const MIN_SIZE: int := 8
  const MAX_SIZE: int := 0x4000_0000
  const ALIGNMENT: int := 8
  const MIN_PAGE: nat := 4096

  // ------------------------------------------------------------ powers of two

  /** Bitwise and of two unsigned numbers. */
  function And(a: nat, b: nat): nat {
    if a == 0 || b == 0 then 0
    else 2 * And(a / 2, b / 2) + if a % 2 == 1 && b % 2 == 1 then 1 else 0
  }

  /** Clearing the lowest bit of v leaves nothing. */
  predicate IsPowerOfTwo(v: int) {
    v > 0 && And(v, v - 1) == 0
  }

  lemma {:induction false} AndSelf(a: nat)
    ensures And(a, a) == a
  {
    if a > 0 {
      AndSelf(a / 2);
    }
  }

  /** The bit trick accepts exactly the powers of two. */
  lemma {:induction false} BitTrick(v: int)
    ensures IsPowerOfTwo(v) <==> exists k :: Pow2(k) == v
  {
    if v > 0 {
      if IsPowerOfTwo(v) {
        var k := Exponent(v);
      }
      if k :| Pow2(k) == v {
        PowerPasses(k);
      }
    }
  }

  lemma {:induction false} Exponent(v: nat) returns (k: nat)
    requires IsPowerOfTwo(v)
    ensures Pow2(k) == v
  {
    if v % 2 == 1 {
      AndSelf(v / 2);
      k := 0;
    } else {
      k := Exponent(v / 2);
      k := k + 1;
    }
  }

  lemma {:induction false} PowerPasses(k: nat)
    ensures IsPowerOfTwo(Pow2(k))
  {
    if k > 0 {
      PowerPasses(k - 1);
      var v := Pow2(k - 1);
      assert (2 * v) / 2 == v && (2 * v - 1) / 2 == v - 1;
    }
  }

  lemma {:induction false} PowersDivide(a: nat, b: nat) returns (q: nat)
    requires a <= b
    ensures Pow2(b) == q * Pow2(a)
  {
    if a == b {
      q := 1;
    } else {
      q := PowersDivide(a, b - 1);
      q := 2 * q;
    }
  }

  lemma {:induction false} PowerGrows(a: nat, b: nat)
    requires a < b
    ensures Pow2(a) < Pow2(b)
  {
    if a < b - 1 {
      PowerGrows(a, b - 1);
    }
  }

  // ----------------------------------------------------------------- rounding

  /** The least multiple of page that is not below x. */
  function RoundUp(x: nat, page: nat): (r: nat)
    requires page > 0
    ensures x <= r < x + page
  {
    if x == 0 then 0 else if x <= page then page else page + RoundUp(x - page, page)
  }

  lemma {:induction false} Larger(a: int, b: int, c: nat)
    requires a <= b
    ensures a * c <= b * c
  {
    assert (b - a) * c >= 0;
  }

  lemma {:induction false} Multiple(q: nat, page: nat)
    requires page > 0
    ensures (q * page) % page == 0 && (q * page) / page == q
  {
    var x := q * page;
    var d := x / page;
    assert x == d * page + x % page;
    assert (d + 1) * page == d * page + page && (q + 1) * page == q * page + page;
    if d < q {
      Larger(d + 1, q, page);
    } else if q < d {
      Larger(q + 1, d, page);
    }
  }

  lemma {:induction false} RoundUpMultiple(x: nat, page: nat) returns (q: nat)
    requires page > 0
    ensures RoundUp(x, page) == q * page
  {
    if x == 0 {
      q := 0;
    } else if x <= page {
      q := 1;
    } else {
      q := RoundUpMultiple(x - page, page);
      assert (q + 1) * page == q * page + page;
      q := q + 1;
    }
  }

  lemma {:induction false} RoundUpAligned(x: nat, page: nat)
    requires page > 0
    ensures RoundUp(x, page) % page == 0
  {
    var q := RoundUpMultiple(x, page);
    Multiple(q, page);
  }

  /** x / page * page: the greatest multiple of page that is not above x. */
  function RoundDown(x: nat, page: nat): (r: nat)
    requires page > 0
    ensures r <= x < r + page
  {
    if x < page then 0 else page + RoundDown(x - page, page)
  }

  /** The expression of the source computes it. */
  lemma {:induction false} RoundDownFormula(x: nat, page: nat)
    requires page > 0
    ensures x / page * page == RoundDown(x, page)
  {
    var q := RoundDownMultiple(x, page);
    Between(x, q, page);
  }

  lemma {:induction false} RoundDownMultiple(x: nat, page: nat) returns (q: nat)
    requires page > 0
    ensures RoundDown(x, page) == q * page
  {
    if x < page {
      q := 0;
    } else {
      q := RoundDownMultiple(x - page, page);
      assert (q + 1) * page == q * page + page;
      q := q + 1;
    }
  }

  /** Rounding up is rounding x + page - 1 down. */
  lemma {:induction false} UpIsDown(x: nat, page: nat)
    requires page > 0
    ensures RoundDown(x + page - 1, page) == RoundUp(x, page)
  {
    if x > page {
      UpIsDown(x - page, page);
    }
  }

  lemma {:induction false} Between(y: nat, q: nat, page: nat)
    requires page > 0 && q * page <= y < q * page + page
    ensures y / page == q
  {
    var d := y / page;
    assert y == d * page + y % page;
    assert (d + 1) * page == d * page + page && (q + 1) * page == q * page + page;
    if d < q {
      Larger(d + 1, q, page);
    } else if q < d {
      Larger(q + 1, d, page);
    }
  }

  lemma {:induction false} RoundUpOverflows(x: nat, page: nat, q: nat)
    requires page > 0 && x + page - 1 >= q * page
    ensures RoundUp(x, page) >= q * page
  {
    var d := RoundUpMultiple(x, page);
    assert (d + 1) * page == d * page + page;
    if d < q {
      Larger(d + 1, q, page);
    }
  }

  lemma {:induction false} SmallDivision(x: nat, n: nat)
    requires n > 0
    ensures x / n == 0 <==> x < n
    ensures x < n ==> x % n == x
  {
  }

  // ---------------------------------------------------------------- the layouts

  datatype Regions = Regions(ring0: nat, buf0: nat, ring1: nat, buf1: nat, total: nat)

  predicate ValidGeometry(count: int, size: int) {
    IsPowerOfTwo(count) && MIN_COUNT <= count <= MAX_COUNT && MIN_SIZE <= size <= MAX_SIZE && size % ALIGNMENT == 0
  }

  function RingBytes(count: nat): nat {
    RING_HEADER + SLOT_STRIDE * count
  }

  /** r is the layout with rings and buffers of the given sizes, in exact integers. */
  predicate Placed(page: nat, ring: nat, buffers: nat, r: Regions)
    requires page > 0
  {
    r.ring0 == RoundUp(SUPERBLOCK, page) && r.buf0 == RoundUp(r.ring0 + ring, page) &&
    r.ring1 == RoundUp(r.buf0 + buffers, page) && r.buf1 == RoundUp(r.ring1 + ring, page) &&
    r.total == RoundUp(r.buf1 + buffers, page)
  }

  function Place(page: nat, ring: nat, buffers: nat): (r: Regions)
    requires page > 0
    ensures Placed(page, ring, buffers, r)
  {
    var ring0 := RoundUp(SUPERBLOCK, page);
    var buf0 := RoundUp(ring0 + ring, page);
    var ring1 := RoundUp(buf0 + buffers, page);
    var buf1 := RoundUp(ring1 + ring, page);
    Regions(ring0, buf0, ring1, buf1, RoundUp(buf1 + buffers, page))
  }

  /** ComputeRegions. */
  function ExactRegions(page: nat, count: nat, size: nat): (r: Regions)
    requires page > 0
    ensures Placed(page, RingBytes(count), count * size, r)
  {
    Place(page, RingBytes(count), count * size)
  }

  /** A machine: words are numbers below modulus, and int goes up to maxInt. */
  datatype Machine = Machine(exponent: nat, page: nat) {
    function Modulus(): nat {
      Pow2(exponent)
    }

    ghost predicate Valid() {
      (exponent == 32 || exponent == 64) && MIN_PAGE <= page < Pow2(exponent - 1) && IsPowerOfTwo(page)
    }

    function MaxInt(): int
      requires exponent > 0
    {
      Pow2(exponent - 1) - 1
    }
  }

  lemma {:induction false} Powers()
    ensures Pow2(31) == 0x8000_0000 && Pow2(32) == TWO_32 && Pow2(63) == TWO_63 && Pow2(64) == TWO_64
  {
    PowerAt(31);
    assert Pow2(4) == 16;
    assert Pow2(8) == 16 * Pow2(4);
    assert Pow2(12) == 16 * Pow2(8);
    assert Pow2(16) == 16 * Pow2(12);
    assert Pow2(20) == 16 * Pow2(16);
    assert Pow2(24) == 16 * Pow2(20);
    assert Pow2(28) == 16 * Pow2(24);
    assert Pow2(32) == 16 * Pow2(28);
    assert Pow2(36) == 16 * Pow2(32);
    assert Pow2(40) == 16 * Pow2(36);
    assert Pow2(44) == 16 * Pow2(40);
    assert Pow2(48) == 16 * Pow2(44);
    assert Pow2(52) == 16 * Pow2(48);
    assert Pow2(56) == 16 * Pow2(52);
    assert Pow2(60) == 16 * Pow2(56);
    assert Pow2(64) == 16 * Pow2(60);
  }

  lemma {:induction false} PowerAt(k: nat)
    ensures Pow2(k + 1) == 2 * Pow2(k)
  {
  }

  lemma {:induction false} MachineFacts(m: Machine)
    requires m.Valid()
    ensures m.Modulus() == 2 * (m.MaxInt() + 1) && m.MaxInt() >= 0x7fff_ffff && m.page <= m.MaxInt()
  {
    Powers();
  }

  /** bits.Add without carry in: the sum and the carry. */
  function Add(m: Machine, a: nat, b: nat): (nat, nat)
    requires a < m.Modulus() && b < m.Modulus()
  {
    if a + b < m.Modulus() then (a + b, 0) else (a + b - m.Modulus(), 1)
  }

  /** bits.Mul: the high and the low word of the product. */
  function Mul(m: Machine, a: nat, b: nat): (nat, nat)
    requires m.Modulus() > 0
  {
    SplitWord(a * b, m.Modulus())
  }

  function SplitWord(x: nat, n: nat): (nat, nat)
    requires n > 0
  {
    (x / n, x % n)
  }

  function AlignedSum(m: Machine, a: nat, b: nat): (r: Option<nat>)
    requires a < m.Modulus() && b < m.Modulus() && 0 < m.page <= m.Modulus()
    ensures r.Some? ==> r.value < m.Modulus()
  {
    var (s, carry) := Add(m, a, b);
    if carry != 0 then None
    else
      var (t, carry2) := Add(m, s, m.page - 1);
      if carry2 != 0 then None else Some(RoundDown(t, m.page))
  }

  /** The sum may wrap around. */
  function AlignPage(m: Machine, size: nat): (r: nat)
    requires size < m.Modulus() && 0 < m.page <= m.Modulus()
    ensures r < m.Modulus()
  {
    RoundDown(Add(m, size, m.page - 1).0, m.page)
  }

  /** SizeMPMCRing: zero for a ring too long for a machine word. */
  function RingSize(m: Machine, n: nat): nat
    requires m.Modulus() > RING_HEADER
  {
    if !IsPowerOfTwo(n) || n < 2 || n > (m.Modulus() - 1 - RING_HEADER) / SLOT_STRIDE then 0
    else RING_HEADER + SLOT_STRIDE * n
  }

  /** A ring at offset at and its buffers: the offset of the buffers and the end; None on
      overflow. */
  function Direction(m: Machine, at: nat, ring: nat, buffers: nat): (r: Option<(nat, nat)>)
    requires at < m.Modulus() && ring < m.Modulus() && buffers < m.Modulus() && 0 < m.page <= m.Modulus()
    ensures r.Some? ==> r.value.1 < m.Modulus()
  {
    var buf := AlignedSum(m, at, ring);
    if buf.None? then None
    else
      var end := AlignedSum(m, buf.value, buffers);
      if end.None? then None else Some((buf.value, end.value))
  }

  /** The offsets in machine words; None on overflow. */
  function PlaceWords(m: Machine, ring: nat, buffers: nat): Option<Regions>
    requires m.Valid() && ring < m.Modulus() && buffers < m.Modulus()
  {
    MachineFacts(m);
    var ring0 := AlignPage(m, SUPERBLOCK);
    var first := Direction(m, ring0, ring, buffers);
    if first.None? then None
    else
      var second := Direction(m, first.value.1, ring, buffers);
      if second.None? || second.value.1 > m.MaxInt() then None
      else Some(Regions(ring0, first.value.0, first.value.1, second.value.0, second.value.1))
  }

  function ComputeLayout(m: Machine, count: int, size: int): Option<Regions>
    requires m.Valid()
  {
    MachineFacts(m);
    if !ValidGeometry(count, size) then None
    else
      var ring := RingSize(m, count);
      if ring == 0 then None
      else
        var (hi, buffers) := Mul(m, count, size);
        if hi != 0 || buffers > m.MaxInt() then None else PlaceWords(m, ring, buffers)
  }

  // -------------------------------------------------------------------- results

  /** The page size divides the word range. */
  ghost predicate PageDivides(m: Machine) {
    0 < m.page <= m.Modulus() && exists q: nat :: m.Modulus() == q * m.page
  }

  lemma {:induction false} PagesDivide(m: Machine)
    requires m.Valid()
    ensures PageDivides(m)
  {
    MachineFacts(m);
    var p := Exponent(m.page);
    if p > m.exponent - 1 {
      PowerGrows(m.exponent - 1, p);
    }
    var q := PowersDivide(p, m.exponent);
  }

  /** The carries detect exactly the sums that do not fit after rounding. */
  lemma {:induction false} AlignedSumExact(m: Machine, a: nat, b: nat)
    requires PageDivides(m) && a < m.Modulus() && b < m.Modulus()
    ensures AlignedSum(m, a, b) == if RoundUp(a + b, m.page) < m.Modulus() then Some(RoundUp(a + b, m.page)) else None
  {
    UpIsDown(a + b, m.page);
    if a + b + m.page - 1 >= m.Modulus() {
      var q: nat :| m.Modulus() == q * m.page;
      RoundUpOverflows(a + b, m.page, q);
    }
  }

  /** Regions are page-aligned, in order, and long enough for what they hold. */
  lemma {:induction false} RegionsAreDisjoint(page: nat, count: nat, size: nat, r: Regions)
    requires page > 0 && Placed(page, RingBytes(count), count * size, r)
    ensures SUPERBLOCK <= r.ring0 && r.ring0 + RingBytes(count) <= r.buf0 && r.buf0 + count * size <= r.ring1
    ensures r.ring1 + RingBytes(count) <= r.buf1 && r.buf1 + count * size <= r.total
    ensures r.ring0 % page == 0 && r.buf0 % page == 0 && r.ring1 % page == 0 && r.buf1 % page == 0 && r.total % page == 0
  {
    RoundUpAligned(SUPERBLOCK, page);
    RoundUpAligned(r.ring0 + RingBytes(count), page);
    RoundUpAligned(r.buf0 + count * size, page);
    RoundUpAligned(r.ring1 + RingBytes(count), page);
    RoundUpAligned(r.buf1 + count * size, page);
  }

  lemma {:induction false} Ring0Exact(m: Machine)
    requires m.Valid()
    ensures SUPERBLOCK < m.Modulus() && m.page <= m.Modulus()
    ensures AlignPage(m, SUPERBLOCK) == RoundUp(SUPERBLOCK, m.page) < m.Modulus()
  {
    MachineFacts(m);
    UpIsDown(SUPERBLOCK, m.page);
  }

  lemma {:induction false} RingSizeExact(m: Machine, count: nat)
    requires m.Valid() && IsPowerOfTwo(count) && MIN_COUNT <= count <= MAX_COUNT
    ensures m.Modulus() > RING_HEADER && RingSize(m, count) == RingBytes(count) < m.Modulus()
  {
    Powers();
  }

  lemma {:induction false} ProductExact(m: Machine, a: nat, b: nat)
    requires m.Valid()
    ensures m.Modulus() > 0 && (Mul(m, a, b).0 == 0 <==> a * b < m.Modulus())
    ensures a * b < m.Modulus() ==> Mul(m, a, b).1 == a * b
  {
    MachineFacts(m);
    SmallDivision(a * b, m.Modulus());
  }

  lemma {:induction false} DirectionIsExact(m: Machine, at: nat, ring: nat, buffers: nat, buf: nat, end: nat)
    requires PageDivides(m) && at < m.Modulus() && ring < m.Modulus() && buffers < m.Modulus()
    requires buf == RoundUp(at + ring, m.page) && end == RoundUp(buf + buffers, m.page)
    ensures Direction(m, at, ring, buffers) == if end < m.Modulus() then Some((buf, end)) else None
  {
    AlignedSumExact(m, at, ring);
    if buf < m.Modulus() {
      AlignedSumExact(m, buf, buffers);
    }
  }

  lemma {:induction false} BothDirections(m: Machine, ring: nat, buffers: nat, r: Regions)
    requires PageDivides(m) && ring < m.Modulus() && buffers < m.Modulus() && r.ring0 < m.Modulus()
    requires r.buf0 == RoundUp(r.ring0 + ring, m.page) && r.ring1 == RoundUp(r.buf0 + buffers, m.page)
    requires r.buf1 == RoundUp(r.ring1 + ring, m.page) && r.total == RoundUp(r.buf1 + buffers, m.page)
    ensures Direction(m, r.ring0, ring, buffers) == if r.ring1 < m.Modulus() then Some((r.buf0, r.ring1)) else None
    ensures r.ring1 < m.Modulus() ==>
      Direction(m, r.ring1, ring, buffers) == if r.total < m.Modulus() then Some((r.buf1, r.total)) else None
  {
    DirectionIsExact(m, r.ring0, ring, buffers, r.buf0, r.ring1);
    if r.ring1 < m.Modulus() {
      DirectionIsExact(m, r.ring1, ring, buffers, r.buf1, r.total);
    }
  }

  lemma {:induction false} PlaceIsExact(m: Machine, ring: nat, buffers: nat, r: Regions)
    requires m.Valid() && ring < m.Modulus() && buffers < m.Modulus()
    requires r.ring0 == RoundUp(SUPERBLOCK, m.page) && r.ring1 <= r.total
    requires r.buf0 == RoundUp(r.ring0 + ring, m.page) && r.ring1 == RoundUp(r.buf0 + buffers, m.page)
    requires r.buf1 == RoundUp(r.ring1 + ring, m.page) && r.total == RoundUp(r.buf1 + buffers, m.page)
    ensures PlaceWords(m, ring, buffers) == if r.total <= m.MaxInt() then Some(r) else None
  {
    MachineFacts(m);
    PagesDivide(m);
    Ring0Exact(m);
    BothDirections(m, ring, buffers, r);
  }

  /** computeLayout succeeds exactly for a valid geometry whose exact size fits int, and then
      it is the exact layout: the overflow checks miss nothing and refuse nothing else. */
  lemma {:induction false} LayoutIsExact(m: Machine, count: int, size: int)
    requires m.Valid()
    ensures ComputeLayout(m, count, size) ==
      if ValidGeometry(count, size) && ExactRegions(m.page, count, size).total <= m.MaxInt()
      then Some(ExactRegions(m.page, count, size)) else None
  {
    MachineFacts(m);
    if ValidGeometry(count, size) {
      LayoutIs(m, count, size, ExactRegions(m.page, count, size));
    }
  }

  lemma {:induction false} PlacedOrder(page: nat, ring: nat, buffers: nat, r: Regions)
    requires page > 0 && Placed(page, ring, buffers, r)
    ensures r.ring1 <= r.total && buffers <= r.total
  {
  }

  lemma {:induction false} PlacedWords(m: Machine, ring: nat, buffers: nat, r: Regions)
    requires m.Valid() && ring < m.Modulus() && buffers < m.Modulus() && Placed(m.page, ring, buffers, r)
    ensures PlaceWords(m, ring, buffers) == if r.total <= m.MaxInt() then Some(r) else None
  {
    PlacedOrder(m.page, ring, buffers, r);
    PlaceIsExact(m, ring, buffers, r);
  }

  lemma {:induction false} LayoutIs(m: Machine, count: nat, size: nat, r: Regions)
    requires m.Valid() && ValidGeometry(count, size) && Placed(m.page, RingBytes(count), count * size, r)
    ensures ComputeLayout(m, count, size) == if r.total <= m.MaxInt() then Some(r) else None
  {
    MachineFacts(m);
    RingSizeExact(m, count);
    ProductExact(m, count, size);
    PlacedOrder(m.page, RingBytes(count), count * size, r);
    if count * size <= m.MaxInt() {
      PlacedWords(m, RingBytes(count), count * size, r);
    }
  }

  /** On a 64-bit machine every valid geometry has a layout (with pages of at most a GiB). */
  lemma {:induction false} AlwaysFits64(m: Machine, count: int, size: int)
    requires m.Valid() && m.exponent == 64 && m.page <= 0x4000_0000 && ValidGeometry(count, size)
    ensures ComputeLayout(m, count, size).Some?
  {
    LayoutIsExact(m, count, size);
    MachineFacts(m);
    Powers();
    var r := ExactRegions(m.page, count, size);
    Larger(count, MAX_COUNT, size);
    assert count * size <= MAX_COUNT * MAX_SIZE;
  }

  // ------------------------------------------------------------- slot buffers

  /** The slot buffers of a region, as [start, end) pairs. */
  method SplitBuffers(count: nat, size: nat) returns (slots: seq<(nat, nat)>)
    ensures |slots| == count
    ensures forall i :: 0 <= i < count ==> slots[i] == (i * size, (i + 1) * size)
  {
    slots := [];
    for i := 0 to count
      invariant |slots| == i && forall j :: 0 <= j < i ==> slots[j] == (j * size, (j + 1) * size)
    {
      var start := i * size;
      slots := slots + [(start, start + size)];
      assert start + size == (i + 1) * size;
    }
  }

  /** Every byte of the region is in exactly one slot buffer. */
  lemma {:induction false} SlotsPartition(count: nat, size: nat, x: nat, i: nat)
    requires size > 0 && x < count * size
    ensures x / size < count
    ensures i * size <= x < (i + 1) * size <==> i == x / size
  {
    var d := x / size;
    assert x == d * size + x % size;
    assert (d + 1) * size == d * size + size && (i + 1) * size == i * size + size;
    if count <= d {
      Larger(count, d, size);
    }
    if i < d {
      Larger(i + 1, d, size);
    } else if d < i {
      Larger(d + 1, i, size);
    }
  }
}

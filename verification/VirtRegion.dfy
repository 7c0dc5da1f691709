/**
 The allocator of virtual address regions in kernel/mmu.c.  A bitmap has one bit per
 page, and bit 0 stands for the highest page; regions are found first fit from the
 top, with more pages than asked for when an alignment is wanted, and then trimmed.
 */
module VirtRegion {

  const PAGE: nat := 4096

  datatype Option<T> = None | Some(value: T)

  /** A region of virtual addresses, in bytes. */
  datatype Region = Region(addr: nat, size: nat)

  function RoundUp(x: nat, align: nat): nat
    requires align > 0
  {
    (x + align - 1) / align * align
  }

  lemma Multiples(a: nat, b: nat, m: nat)
    requires a <= b
    ensures a * m <= b * m
  {
  }

  /** A quotient is fixed by the multiples around the dividend. */
  lemma Quotient(x: nat, m: nat, q: nat)
    requires m > 0 && q * m <= x < (q + 1) * m
    ensures x / m == q
  {
    var k := x / m;
    assert x == k * m + x % m;
    if k < q { Multiples(k + 1, q, m); }
    if k > q { Multiples(q + 1, k, m); }
  }

  lemma Remainder(q: nat, m: nat)
    requires m > 0
    ensures (q * m) % m == 0
  {
    assert q * m < (q + 1) * m;
    Quotient(q * m, m, q);
  }

  /** Rounding a page address up to a multiple of pages gives a page address. */
  lemma RoundUpPages(d: nat, b: nat) returns (k: nat)
    requires b > 0
    ensures RoundUp(PAGE * d, PAGE * b) == PAGE * k
    ensures d <= k < d + b && (PAGE * k) % (PAGE * b) == 0
  {
    var q := (d + b - 1) / b;
    k := q * b;
    assert d + b - 1 == q * b + (d + b - 1) % b;
    assert q * (PAGE * b) == PAGE * k;
    assert (q + 1) * (PAGE * b) == PAGE * k + PAGE * b by { assert (q + 1) * b == k + b; }
    Quotient(PAGE * d + PAGE * b - 1, PAGE * b, q);
    assert (q * (PAGE * b)) % (PAGE * b) == 0 by { Remainder(q, PAGE * b); }
  }

  // ----- Bits -----

  ghost predicate All(b: seq<bool>, off: nat, n: nat, v: bool)
    requires off + n <= |b|
  {
    forall i | off <= i < off + n :: b[i] == v
  }

  function Fill(b: seq<bool>, off: nat, n: nat, v: bool): (r: seq<bool>)
    requires off + n <= |b|
    ensures |r| == |b|
    ensures forall i | 0 <= i < |b| :: r[i] == if off <= i < off + n then v else b[i]
  {
    b[..off] + seq(n, _ => v) + b[off + n..]
  }

  /** Clearing both ends of a run that was just set leaves its middle set. */
  lemma Trimmed(b: seq<bool>, off: nat, high: nat, mid: nat, low: nat)
    requires off + high + mid + low <= |b| && All(b, off, high + mid + low, false)
    ensures
      var full := Fill(b, off, high + mid + low, true);
      Fill(Fill(full, off + high + mid, low, false), off, high, false) == Fill(b, off + high, mid, true)
  {
  }

  /** Virtual memory from page `start` to page `end`; mappings may use what is not below
      page `first` and not among the `reserved` last pages. */
  datatype Layout = Layout(start: nat, first: nat, reserved: nat, end: nat) {
    predicate Sound() { start <= first && first + reserved <= end && start < end }

    function Bits(): nat
      requires Sound()
    {
      end - start
    }

    /** The address of the page of a bit. */
    function AddrOf(i: nat): nat
      requires i < end
    {
      PAGE * (end - 1 - i)
    }

    /** Bits that are never given out. */
    predicate Fixed(i: nat) { i < reserved || i >= end - first }
  }

  ghost predicate Covers(l: Layout, r: Region, i: nat)
    requires i < l.end
  {
    r.addr <= l.AddrOf(i) < r.addr + r.size
  }

  ghost predicate Fits(l: Layout, r: Region) {
    && r.size > 0 && r.size % PAGE == 0 && r.addr % PAGE == 0
    && PAGE * l.first <= r.addr && r.addr + r.size <= PAGE * (l.end - l.reserved)
  }

  /** The bits of a region, as an offset and a count. */
  lemma RegionBits(l: Layout, r: Region) returns (off: nat, n: nat)
    requires l.Sound() && Fits(l, r)
    ensures off == (PAGE * l.end - r.addr - r.size) / PAGE && n == r.size / PAGE
    ensures l.reserved <= off && off + n <= l.end - l.first && n > 0
    ensures forall i | 0 <= i < l.Bits() :: Covers(l, r, i) <==> off <= i < off + n
  {
    var a, z := r.addr / PAGE, r.size / PAGE;
    assert r.addr == PAGE * a && r.size == PAGE * z;
    off, n := l.end - a - z, z;
  }

  /** A bit is set just when its page is never given out or is in a live region, and
      live regions do not overlap. */
  ghost predicate Consistent(l: Layout, b: seq<bool>, live: set<Region>) {
    && l.Sound() && |b| == l.Bits()
    && (forall r | r in live :: Fits(l, r))
    && (forall i | 0 <= i < |b| :: b[i] <==> l.Fixed(i) || exists r :: r in live && Covers(l, r, i))
    && (forall i, r, q | 0 <= i < |b| && r in live && q in live && Covers(l, r, i) && Covers(l, q, i) :: r == q)
  }

  lemma Apart(l: Layout, b: seq<bool>, live: set<Region>, q: Region, r: Region)
    requires Consistent(l, b, live) && Fits(l, r) && q in live
    requires var off, n := (PAGE * l.end - r.addr - r.size) / PAGE, r.size / PAGE; off + n <= |b| && All(b, off, n, false)
    ensures q.addr + q.size <= r.addr || r.addr + r.size <= q.addr
  {
    var off, n := RegionBits(l, r);
    var qoff, qn := RegionBits(l, q);
    var i := if off < qoff then qoff else off;
    assert qoff <= i < qoff + qn ==> Covers(l, q, i) && b[i];
    assert off <= i < off + n ==> !b[i];
  }

  /** A new region over clear bits overlaps no live one. */
  lemma Allocated(l: Layout, b: seq<bool>, live: set<Region>, r: Region)
    requires Consistent(l, b, live) && Fits(l, r)
    requires var off, n := (PAGE * l.end - r.addr - r.size) / PAGE, r.size / PAGE; off + n <= |b| && All(b, off, n, false)
    ensures
      var off, n := (PAGE * l.end - r.addr - r.size) / PAGE, r.size / PAGE;
      Consistent(l, Fill(b, off, n, true), live + {r}) && r !in live
    ensures forall q | q in live :: q.addr + q.size <= r.addr || r.addr + r.size <= q.addr
  {
    var off, n := RegionBits(l, r);
    var c := Fill(b, off, n, true);
    assert Covers(l, r, off) && !b[off];
    forall q | q in live ensures q.addr + q.size <= r.addr || r.addr + r.size <= q.addr { Apart(l, b, live, q, r); }
    forall i | 0 <= i < |c| ensures c[i] <==> l.Fixed(i) || exists q :: q in live + {r} && Covers(l, q, i) {
      if off <= i < off + n { assert r in live + {r} && Covers(l, r, i); }
      if q :| q in live && Covers(l, q, i) { assert q in live + {r}; }
    }
    assert forall i, q | 0 <= i < |c| && q in live && Covers(l, q, i) :: b[i];
  }

  lemma Released(l: Layout, b: seq<bool>, live: set<Region>, r: Region)
    requires Consistent(l, b, live) && r in live
    ensures
      var off, n := (PAGE * l.end - r.addr - r.size) / PAGE, r.size / PAGE;
      && off + n <= |b| && All(b, off, n, true) && n > 0
      && Consistent(l, Fill(b, off, n, false), live - {r})
  {
    var off, n := RegionBits(l, r);
    var c := Fill(b, off, n, false);
    forall i | 0 <= i < |c| ensures c[i] <==> l.Fixed(i) || exists q :: q in live - {r} && Covers(l, q, i) {
      if off <= i < off + n {
        assert Covers(l, r, i);
        forall q | q in live - {r} ensures !Covers(l, q, i) {}
      } else if b[i] && !l.Fixed(i) {
        var q :| q in live && Covers(l, q, i);
        assert q in live - {r};
      }
    }
  }

  /** Clear bits are those of pages that may be given out. */
  lemma InsideFree(l: Layout, b: seq<bool>, live: set<Region>, off: nat, n: nat)
    requires Consistent(l, b, live) && n > 0 && off + n <= |b| && All(b, off, n, false)
    ensures l.reserved <= off && off + n <= l.end - l.first
  {
    assert !b[off] && !b[off + n - 1];
  }

  /** What virt_region_free() makes of the bitmap. */
  ghost function FreeBits(l: Layout, b: seq<bool>, addr: nat, size: nat): (r: seq<bool>)
    requires l.Sound() && addr + size <= PAGE * l.end
    ensures |r| == |b|
  {
    var off, n := (PAGE * l.end - addr - size) / PAGE, size / PAGE;
    if PAGE * l.first <= addr && addr + size - 1 < PAGE * (l.end - l.reserved)
       && n > 0 && off + n <= |b| && All(b, off, n, true)
    then Fill(b, off, n, false) else b
  }

  /** Freeing anything, in use or not, clears a run of bits that were all set or nothing, and never
      a bit of a page that is not given out. */
  lemma FreeIsBounded(l: Layout, b: seq<bool>, addr: nat, size: nat)
    requires l.Sound() && |b| == l.Bits() && addr + size <= PAGE * l.end
    ensures
      var r, off, n := FreeBits(l, b, addr, size), (PAGE * l.end - addr - size) / PAGE, size / PAGE;
      && (forall i | 0 <= i < |b| && l.Fixed(i) :: r[i] == b[i])
      && (r == b || (off + n <= |b| && All(b, off, n, true) && r == Fill(b, off, n, false)))
  {
  }

  /** Freeing a stretch of pages clears just their bits. */
  lemma FreeBitsPages(l: Layout, b: seq<bool>, first: nat, n: nat)
    requires l.Sound() && |b| == l.Bits() && l.first <= first && first + n <= l.end - l.reserved
    requires All(b, l.end - first - n, n, true)
    ensures FreeBits(l, b, PAGE * first, PAGE * n) == Fill(b, l.end - first - n, n, false)
  {
    assert (PAGE * l.end - PAGE * first - PAGE * n) / PAGE == l.end - first - n && PAGE * n / PAGE == n;
  }

  /** A run of pages from `d`, of which `z` from `k` on are kept. */
  lemma TrimmedBits(l: Layout, b: seq<bool>, d: nat, k: nat, z: nat, n: nat)
    requires l.Sound() && |b| == l.Bits() && l.first <= d <= k && k + z <= d + n <= l.end - l.reserved
    requires All(b, l.end - d - n, n, false)
    ensures
      var full := Fill(b, l.end - d - n, n, true);
      var low := FreeBits(l, full, PAGE * d, PAGE * (k - d));
      && FreeBits(l, low, PAGE * (k + z), PAGE * (d + n - k - z)) == Fill(b, l.end - k - z, z, true)
      && (k + z == d + n ==> low == Fill(b, l.end - k - z, z, true))
      && All(b, l.end - k - z, z, false)
  {
    hide FreeBits;
    var full := Fill(b, l.end - d - n, n, true);
    FreeBitsPages(l, full, d, k - d);
    var low := Fill(full, l.end - k, k - d, false);
    FreeBitsPages(l, low, k + z, d + n - k - z);
    Trimmed(b, l.end - d - n, d + n - k - z, z, k - d);
  }

  /** The pages of a run that are kept: `z` from `k` on, which is a multiple of the alignment. */
  lemma TrimPlan(end: nat, off: nat, bits: nat, size: nat, align: nat) returns (d: nat, k: nat, z: nat)
    requires size > 0 && size % PAGE == 0 && align > 0 && align % PAGE == 0 && bits == (size + align - PAGE) / PAGE
    requires off + bits <= end
    ensures d == end - off - bits && PAGE * end - off * PAGE - bits * PAGE == PAGE * d
    ensures size == PAGE * z && z > 0 && d <= k && k + z <= d + bits && (bits == z ==> k == d)
    ensures RoundUp(PAGE * d, align) == PAGE * k && (PAGE * k) % align == 0
  {
    hide RoundUp;
    d, z := end - off - bits, size / PAGE;
    var a := align / PAGE;
    assert size == PAGE * z && align == PAGE * a && bits == z + a - 1;
    k := RoundUpPages(d, a);
  }

  /** The region of the pages that are kept, and its bits. */
  lemma KeptRegion(l: Layout, k: nat, z: nat)
    requires l.first <= k && k + z <= l.end - l.reserved && z > 0
    ensures Fits(l, Region(PAGE * k, PAGE * z))
    ensures (PAGE * l.end - PAGE * k - PAGE * z) / PAGE == l.end - k - z && PAGE * z / PAGE == z
  {
  }

  // ----- The allocator -----

  class VirtRegions {
    const layout: Layout
    const bitmap: array<bool>      // virt_region_bitmap
    var inited: bool               // virt_region_inited
    ghost var live: set<Region>    // what was given out and not taken back

    ghost predicate Valid()
      reads this, bitmap
    {
      && layout.Sound() && bitmap.Length == layout.Bits()
      && (inited ==> Consistent(layout, bitmap[..], live))
      && (!inited ==> live == {} && All(bitmap[..], 0, bitmap.Length, false))
    }

    constructor (l: Layout)
      requires l.Sound()
      ensures Valid() && layout == l && live == {} && fresh(bitmap)
    {
      layout := l;
      bitmap := new bool[l.Bits()](_ => false);
      inited, live := false, {};
    }

    /** sys_bitarray_set_region() and its counterpart that clears. */
    method SetRegion(off: nat, n: nat, v: bool)
      requires off + n <= bitmap.Length
      modifies bitmap
      ensures bitmap[..] == Fill(old(bitmap[..]), off, n, v)
    {
      forall i | off <= i < off + n { bitmap[i] := v; }
    }

    /** match_region(): `idx` if the run is clear, else the place after its last set bit. */
    method Mismatch(idx: nat, n: nat) returns (m: nat)
      requires idx + n <= bitmap.Length
      ensures idx <= m <= idx + n && (m > idx ==> bitmap[m - 1])
      ensures m == idx ==> All(bitmap[..], idx, n, false)
    {
      m := idx + n;
      while m > idx && !bitmap[m - 1]
        invariant idx <= m <= idx + n && forall i | m <= i < idx + n :: !bitmap[i]
      {
        m := m - 1;
      }
    }

    /** sys_bitarray_alloc(): the first run of `n` clear bits is set. */
    method BitarrayAlloc(n: nat) returns (offset: Option<nat>)
      modifies bitmap
      ensures offset.Some? ==>
        && n > 0 && offset.value + n <= bitmap.Length && All(old(bitmap[..]), offset.value, n, false)
        && bitmap[..] == Fill(old(bitmap[..]), offset.value, n, true)
      ensures offset.None? ==>
        && bitmap[..] == old(bitmap[..])
        && (n == 0 || forall off: nat | off + n <= bitmap.Length :: !All(old(bitmap[..]), off, n, false))
    {
      if n == 0 || n > bitmap.Length {
        return None;
      }
      var idx, found := 0, false;
      while idx + n <= bitmap.Length && !found
        invariant idx <= bitmap.Length
        invariant forall off: nat | off < idx && off + n <= bitmap.Length :: !All(bitmap[..], off, n, false)
        invariant found ==> idx + n <= bitmap.Length && All(bitmap[..], idx, n, false)
        modifies {}
        decreases bitmap.Length - idx, !found
      {
        var m := Mismatch(idx, n);
        found := m == idx;
        forall off: nat | idx <= off < m && off + n <= bitmap.Length ensures !All(bitmap[..], off, n, false) {
          assert bitmap[..][m - 1];
        }
        idx := m;
      }
      if !found {
        return None;
      }
      assert bitmap[..] == old(bitmap[..]);
      SetRegion(idx, n, true);
      return Some(idx);
    }

    /** sys_bitarray_free(): a run is cleared only if all of it is set. */
    method BitarrayFree(off: nat, n: nat)
      modifies bitmap
      ensures bitmap[..] ==
        if n > 0 && off + n <= bitmap.Length && All(old(bitmap[..]), off, n, true)
        then Fill(old(bitmap[..]), off, n, false) else old(bitmap[..])
    {
      if n == 0 || off + n > bitmap.Length {
        return;
      }
      var i := off;
      while i < off + n && bitmap[i]
        invariant off <= i <= off + n && forall k | off <= k < i :: bitmap[k]
        modifies {}
      {
        i := i + 1;
      }
      if i == off + n {
        SetRegion(off, n, false);
      }
    }

    /** virt_region_init(). */
    method VirtRegionInit()
      requires Valid() && !inited
      modifies this`inited, bitmap
      ensures Valid() && inited
    {
      SetRegion(0, layout.reserved, true);
      var bytes := PAGE * layout.first - PAGE * layout.start;
      var offset := (PAGE * layout.end - PAGE * layout.start - bytes) / PAGE;
      assert offset == layout.end - layout.first && bytes / PAGE == layout.first - layout.start;
      SetRegion(offset, bytes / PAGE, true);
      inited := true;
    }

    /** virt_region_free(), of an address range that need not be a whole region. */
    method VirtRegionFree(addr: nat, size: nat)
      requires layout.Sound() && bitmap.Length == layout.Bits() && inited && addr + size <= PAGE * layout.end
      modifies bitmap
      ensures bitmap[..] == FreeBits(layout, old(bitmap[..]), addr, size)
    {
      if !(PAGE * layout.first <= addr && addr + size - 1 < PAGE * (layout.end - layout.reserved)) {
        return;
      }
      var offset := (PAGE * layout.end - addr - size) / PAGE;
      BitarrayFree(offset, size / PAGE);
    }

    /** Giving back a live region, as the unmap calls do. */
    method Release(r: Region)
      requires Valid() && inited && r in live
      modifies this`live, bitmap
      ensures Valid() && live == old(live) - {r}
    {
      Released(layout, bitmap[..], live, r);
      VirtRegionFree(r.addr, r.size);
      live := live - {r};
    }

    /** The alignment of a run of pages that was just allocated: both ends that are
        not needed are freed again. */
    method Trim(ghost b: seq<bool>, off: nat, bits: nat, dest: nat, size: nat, align: nat) returns (addr: nat)
      requires layout.Sound() && bitmap.Length == layout.Bits() && inited
      requires size > 0 && size % PAGE == 0 && align > 0 && align % PAGE == 0 && bits == (size + align - PAGE) / PAGE
      requires layout.reserved <= off && off + bits <= layout.end - layout.first
      requires dest == PAGE * layout.end - off * PAGE - bits * PAGE
      requires |b| == bitmap.Length && All(b, off, bits, false) && bitmap[..] == Fill(b, off, bits, true)
      modifies bitmap
      ensures addr % align == 0 && Fits(layout, Region(addr, size))
      ensures
        var o, n := (PAGE * layout.end - addr - size) / PAGE, size / PAGE;
        o + n <= |b| && All(b, o, n, false) && bitmap[..] == Fill(b, o, n, true)
    {
      hide FreeBits, RoundUp, All, Fill;
      var allocSize := bits * PAGE;
      addr := dest;
      ghost var d, k, z := TrimPlan(layout.end, off, bits, size, align);
      TrimmedBits(layout, b, d, k, z, bits);
      KeptRegion(layout, k, z);
      if allocSize > size {
        var aligned := RoundUp(dest, align);
        VirtRegionFree(dest, aligned - dest);
        if dest + allocSize > aligned + size {
          VirtRegionFree(aligned + size, (dest + allocSize) - (aligned + size));
        }
        addr := aligned;
      }
    }

    /** virt_region_alloc(). */
    method VirtRegionAlloc(size: nat, align: nat) returns (addr: Option<nat>)
      requires Valid() && size > 0 && size % PAGE == 0 && align > 0 && align % PAGE == 0
      modifies this, bitmap
      ensures Valid() && inited
      ensures addr.Some? ==>
        var r := Region(addr.value, size);
        && addr.value % align == 0 && Fits(layout, r) && r !in old(live) && live == old(live) + {r}
        && forall q | q in old(live) :: q.addr + q.size <= r.addr || r.addr + r.size <= q.addr
      ensures addr.None? ==> live == old(live)
      ensures addr.None? ==>
        var bits := (size + align - PAGE) / PAGE;
        forall off: nat | off + bits <= bitmap.Length :: !All(bitmap[..], off, bits, false)
    {
      hide Fill, All, Covers, Consistent;
      if !inited {
        VirtRegionInit();
      }
      ghost var b := bitmap[..];
      var bits := (size + align - PAGE) / PAGE;
      var allocSize := bits * PAGE;
      var offset := BitarrayAlloc(bits);
      if offset.None? {
        return None;
      }
      InsideFree(layout, b, live, offset.value, bits);
      var dest := PAGE * layout.end - offset.value * PAGE - allocSize;
      dest := Trim(b, offset.value, bits, dest, size, align);
      Allocated(layout, b, live, Region(dest, size));
      live := live + {Region(dest, size)};
      if dest < PAGE * layout.first {
        assert false;  // never steps into kernel memory
      }
      return Some(dest);
    }
  }

  /** The bitmap is determined by the live regions. */
  lemma SameBits(l: Layout, b: seq<bool>, c: seq<bool>, live: set<Region>)
    requires Consistent(l, b, live) && Consistent(l, c, live)
    ensures b == c
  {
    forall i | 0 <= i < |b| ensures b[i] == c[i] {
      assert b[i] <==> l.Fixed(i) || exists r :: r in live && Covers(l, r, i);
    }
  }

  /** Allocating a region and giving it back leaves the allocator as it was. */
  method AllocateAndRelease(v: VirtRegions, size: nat, align: nat) returns (addr: Option<nat>)
    requires v.Valid() && v.inited && size > 0 && size % PAGE == 0 && align > 0 && align % PAGE == 0
    modifies v, v.bitmap
    ensures v.Valid() && v.live == old(v.live) && v.bitmap[..] == old(v.bitmap[..])
  {
    addr := v.VirtRegionAlloc(size, align);
    if addr.Some? {
      v.Release(Region(addr.value, size));
    }
    SameBits(v.layout, old(v.bitmap[..]), v.bitmap[..], v.live);
  }
}

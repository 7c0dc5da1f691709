/**
 Page frames and demand paging of kernel/mmu.c, with CONFIG_DEMAND_PAGING_ALLOW_IRQ
 off, so that every call is one atomic step.

 RAM is a cache over a backing store.  The eviction picker, the backing store and
 the dirty bits of the page tables are parameters of the steps, bound by what the
 source demands of them; all else follows the source.
 */
module Paging {

  type Page = nat
  type Frame = nat
  type Data = int

  const ZERO: Data := 0

  datatype Option<T> = None | Some(value: T)

  /** Where a page that is not loaded comes from. */
  datatype Location = AnonZero | AnonUninit | Store(slot: nat)

  /** A page table entry of a mapped page. */
  datatype Pte = Loaded(frame: Frame, dirty: bool) | Out(loc: Location)

  /** struct k_mem_page_frame: flags, and the page when mapped. */
  datatype FrameInfo = FrameInfo(free: bool, reserved: bool, pinned: bool, mapped: bool, backed: bool, va: Page)

  /** `kept` is the slot that the backing store remembers for a frame marked BACKED;
      `tracked` are the frames given to the eviction algorithm. */
  datatype Mm = Mm(ptes: map<Page, Pte>, frames: seq<FrameInfo>, ram: seq<Data>, freeList: seq<Frame>, freeCount: nat,
                   store: map<nat, Data>, kept: map<Frame, nat>, tracked: set<Frame>)

  const NO_FLAGS := FrameInfo(false, false, false, false, false, 0)

  /** What a program finds in a page; nothing certain in uninitialised memory. */
  function Contents(s: Mm, p: Page): Option<Data> {
    if p !in s.ptes then None
    else match s.ptes[p]
      case Loaded(f, _) => if f < |s.ram| then Some(s.ram[f]) else None
      case Out(AnonZero) => Some(ZERO)
      case Out(AnonUninit) => None
      case Out(Store(l)) => if l in s.store then Some(s.store[l]) else None
  }

  // ----- What holds in every state -----

  /** Free frames are on the free list, mapped ones in the page tables, and a copy
      that the store keeps is good while the page is clean. */
  ghost predicate FrameSound(s: Mm, f: Frame)
    requires f < |s.frames| == |s.ram|
  {
    var i := s.frames[f];
    && (i.free <==> f in s.freeList)
    && (i.free || i.reserved ==> !i.pinned && !i.mapped && !i.backed)
    && (i.free ==> !i.reserved)
    && (i.pinned || i.backed ==> i.mapped)
    && (f in s.tracked <==> i.mapped && !i.pinned)
    && (i.mapped ==> i.va in s.ptes && s.ptes[i.va].Loaded? && s.ptes[i.va].frame == f)
    && (i.backed ==> f in s.kept && s.kept[f] in s.store)
    && (i.backed && !s.ptes[i.va].dirty ==> s.store[s.kept[f]] == s.ram[f])
  }

  ghost predicate PageSound(s: Mm, p: Page)
    requires |s.ram| == |s.frames|
  {
    p in s.ptes ==>
      match s.ptes[p]
      case Loaded(f, _) => f < |s.frames| && s.frames[f].mapped && s.frames[f].va == p
      case Out(loc) => loc.Store? ==> loc.slot in s.store
  }

  /** The slot that holds a page which is not loaded. */
  ghost predicate Holds(s: Mm, l: nat, p: Page) { p in s.ptes && s.ptes[p] == Out(Store(l)) }

  /** The slot that keeps a copy for a frame. */
  ghost predicate Keeps(s: Mm, l: nat, f: Frame) {
    f < |s.frames| && s.frames[f].backed && f in s.kept && s.kept[f] == l
  }

  /** No slot serves two pages. */
  ghost predicate SlotSound(s: Mm, l: nat) {
    && (forall p, q :: Holds(s, l, p) && Holds(s, l, q) ==> p == q)
    && (forall f, g :: Keeps(s, l, f) && Keeps(s, l, g) ==> f == g)
    && (forall p, f :: Holds(s, l, p) ==> !Keeps(s, l, f))
  }

  ghost predicate FreeListSound(s: Mm) {
    && s.freeCount == |s.freeList|
    && (forall i, j | 0 <= i < j < |s.freeList| :: s.freeList[i] != s.freeList[j])
    && (forall f | f in s.freeList :: f < |s.frames|)
    && (forall f | f in s.tracked :: f < |s.frames|)
  }

  ghost predicate Inv(s: Mm) {
    && |s.ram| == |s.frames| && FreeListSound(s)
    && (forall f: Frame | f < |s.frames| :: FrameSound(s, f))
    && (forall p: Page :: PageSound(s, p))
    && (forall l: nat :: SlotSound(s, l))
  }

  // ----- The steps -----

  /** What the backing store may grant for the page in frame `f`: the slot that it kept
      for it, or one that holds nothing; to make room it may drop copies it keeps for
      other frames, whose BACKED bit it then clears. */
  ghost predicate Grantable(s: Mm, f: Frame, slot: nat, dropped: set<Frame>)
    requires f < |s.frames|
  {
    && f !in dropped
    && (s.frames[f].backed ==> f in s.kept && slot == s.kept[f])
    && (forall p: Page :: !Holds(s, slot, p))
    && (forall g: Frame | g != f && g !in dropped :: !Keeps(s, slot, g))
  }

  function Unbacked(frames: seq<FrameInfo>, dropped: set<Frame>): (r: seq<FrameInfo>)
    ensures |r| == |frames|
  {
    seq(|frames|, f requires 0 <= f < |frames| => if f in dropped then frames[f].(backed := false) else frames[f])
  }

  /** page_frame_prepare_locked() on a mapped frame, and the page-out if it is dirty. */
  function PagedOut(s: Mm, f: Frame, dirty: bool, slot: nat, dropped: set<Frame>): Mm
    requires f < |s.frames| == |s.ram|
  {
    s.(frames := Unbacked(s.frames, dropped),
       ptes := s.ptes[s.frames[f].va := Out(Store(slot))],
       tracked := s.tracked - {f},
       store := if dirty || !s.frames[f].backed then s.store[slot := s.ram[f]] else s.store)
  }

  /** page_frame_free_locked(). */
  function Freed(s: Mm, f: Frame): Mm
    requires f < |s.frames|
  {
    s.(frames := s.frames[f := NO_FLAGS.(free := true)], freeList := s.freeList + [f], freeCount := s.freeCount + 1)
  }

  /** free_page_frame_list_get() when there is a free frame. */
  function Gotten(s: Mm): Mm
    requires s.freeList != [] && s.freeList[0] < |s.frames| && s.freeCount > 0
  {
    s.(frames := s.frames[s.freeList[0] := NO_FLAGS], freeList := s.freeList[1..], freeCount := s.freeCount - 1)
  }

  /** do_mem_evict() and k_mem_page_frame_evict() of a loaded page. */
  function Evicted(s: Mm, f: Frame, dirty: bool, slot: nat, dropped: set<Frame>): Mm
    requires f < |s.frames| == |s.ram|
  {
    Freed(PagedOut(s, f, dirty, slot, dropped), f)
  }

  /** The choice of a frame: a free one, or a victim and a slot to page it out to. */
  datatype Choice = FromList | Victim(f: Frame, dirty: bool, slot: nat, dropped: set<Frame>)

  ghost predicate Evictable(s: Mm, f: Frame, dirty: bool) {
    && f < |s.frames| && s.frames[f].mapped && !s.frames[f].pinned
    && s.frames[f].va in s.ptes && s.ptes[s.frames[f].va].Loaded?
    && (s.ptes[s.frames[f].va].dirty ==> dirty)
  }

  /** Victims are taken only when no frame is free; the dirty bit is honest. */
  ghost predicate Allowed(s: Mm, c: Choice) {
    match c
    case FromList => s.freeList != []
    case Victim(f, dirty, slot, dropped) =>
      s.freeList == [] && Evictable(s, f, dirty) && Grantable(s, f, slot, dropped)
  }

  function Taken(c: Choice, s: Mm): Frame
    requires c.FromList? ==> s.freeList != []
  {
    if c.FromList? then s.freeList[0] else c.f
  }

  ghost function Prepared(s: Mm, c: Choice): Mm
    requires Inv(s) && Allowed(s, c)
  {
    match c
    case FromList => assert s.freeList[0] in s.freeList; Gotten(s)
    case Victim(f, dirty, slot, dropped) => PagedOut(s, f, dirty, slot, dropped)
  }

  /** map_anon_page(): the page starts with whatever the frame holds. */
  ghost function AnonMapped(s: Mm, p: Page, lock: bool, c: Choice): Mm
    requires Inv(s) && Allowed(s, c)
  {
    var f, t := Taken(c, s), Prepared(s, c);
    assert c.FromList? ==> f in s.freeList;
    t.(ptes := t.ptes[p := Loaded(f, false)],
       frames := t.frames[f := NO_FLAGS.(mapped := true, pinned := lock, va := p)],
       tracked := if lock then t.tracked else t.tracked + {f})
  }

  /** What k_mem_paging_backing_store_page_finalize() does with the slot that was read:
      keep it as a copy and set BACKED, or give it up, clearing BACKED or not
      touching it.  Of an anonymous page there is no slot to keep. */
  datatype Finalize = Keep | Clear | Ignore

  /** do_page_fault() on a page that is not loaded. */
  ghost function Faulted(s: Mm, p: Page, pin: bool, c: Choice, fin: Finalize): Mm
    requires Inv(s) && Allowed(s, c)
    requires p in s.ptes && s.ptes[p].Out?
  {
    var f, t, loc := Taken(c, s), Prepared(s, c), s.ptes[p].loc;
    assert c.FromList? ==> f in s.freeList;
    t.(ram := if loc.AnonZero? then t.ram[f := ZERO]
              else if loc.Store? && loc.slot in t.store then t.ram[f := t.store[loc.slot]] else t.ram,
       frames := t.frames[f := t.frames[f].(mapped := true, va := p, pinned := pin,
                                             backed := fin.Keep? || (fin.Ignore? && t.frames[f].backed))],
       ptes := t.ptes[p := Loaded(f, false)],
       kept := if fin.Keep? && loc.Store? then t.kept[f := loc.slot] else t.kept,
       tracked := if pin then t.tracked else t.tracked + {f})
  }

  /** do_page_fault() on a loaded page: only pins it, if that is asked for. */
  function Pinned(s: Mm, f: Frame): Mm
    requires f < |s.frames|
  {
    s.(frames := s.frames[f := s.frames[f].(pinned := true)], tracked := s.tracked - {f})
  }

  /** do_mem_unpin() on a loaded page that is pinned. */
  function Unpinned(s: Mm, f: Frame): Mm
    requires f < |s.frames|
  {
    s.(frames := s.frames[f := s.frames[f].(pinned := false)], tracked := s.tracked + {f})
  }

  /** The program writes to a loaded page, which makes it dirty. */
  function Written(s: Mm, p: Page, d: Data): Mm
    requires p in s.ptes && s.ptes[p].Loaded? && s.ptes[p].frame < |s.ram|
  {
    s.(ram := s.ram[s.ptes[p].frame := d], ptes := s.ptes[p := s.ptes[p].(dirty := true)])
  }

  /** The anonymous part of k_mem_unmap_phys_guard(), for one page. */
  function Unmapped(s: Mm, p: Page): Mm
    requires p in s.ptes && (s.ptes[p].Loaded? ==> s.ptes[p].frame < |s.frames|)
  {
    var t := s.(ptes := s.ptes - {p});
    if s.ptes[p].Out? then t else Freed(t.(tracked := t.tracked - {s.ptes[p].frame}), s.ptes[p].frame)
  }

  /** Mapping without a frame, under CONFIG_DEMAND_MAPPING. */
  function UnpagedMapped(s: Mm, p: Page, uninit: bool): Mm {
    s.(ptes := s.ptes[p := Out(if uninit then AnonUninit else AnonZero)])
  }

  // ----- Every step keeps it, and no page but the one asked for changes -----

  /** All pages of `s` but `except` are there in `t`, with the same contents. */
  ghost predicate Transparent(s: Mm, t: Mm, except: set<Page>) {
    forall p: Page | p in s.ptes && p !in except ::
      p in t.ptes && (Contents(s, p).Some? ==> Contents(t, p) == Contents(s, p))
  }

  function Zeroed(s: Mm, f: Frame): Mm
    requires f < |s.frames|
  {
    s.(frames := s.frames[f := NO_FLAGS])
  }

  lemma GottenList(s: Mm)
    requires FreeListSound(s) && s.freeList != []
    ensures s.freeList[0] in s.freeList && s.freeList[0] < |s.frames| && s.freeCount > 0 && FreeListSound(Gotten(s))
    ensures forall g :: g in s.freeList[1..] <==> g in s.freeList && g != s.freeList[0]
  {
    var f, rest := s.freeList[0], s.freeList[1..];
    assert s.freeList == [f] + rest;
    forall i | 0 <= i < |rest| ensures rest[i] != f && rest[i] in s.freeList { assert s.freeList[i + 1] == rest[i]; }
    assert forall g | g in rest :: g in s.freeList;
  }

  lemma GottenKeeps(s: Mm)
    requires Inv(s) && s.freeList != []
    ensures s.freeList[0] < |s.frames| && s.freeCount > 0 && Inv(Gotten(s)) && Transparent(s, Gotten(s), {})
    ensures Gotten(s).frames[s.freeList[0]] == NO_FLAGS
  {
    hide FreeListSound;
    GottenList(s);
    var f, t := s.freeList[0], Gotten(s);
    assert FrameSound(s, f);
    forall g: Frame | g < |t.frames| ensures FrameSound(t, g) { assert FrameSound(s, g); }
    forall p: Page ensures PageSound(t, p) { assert PageSound(s, p); }
    forall l: nat ensures SlotSound(t, l) {
      assert SlotSound(s, l);
      assert forall p: Page :: Holds(t, l, p) == Holds(s, l, p);
      assert forall g: Frame :: Keeps(t, l, g) ==> Keeps(s, l, g);
    }
  }

  lemma PagedOutFrames(s: Mm, f: Frame, dirty: bool, slot: nat, dropped: set<Frame>)
    requires Inv(s) && Evictable(s, f, dirty) && Grantable(s, f, slot, dropped)
    ensures
      var t := Zeroed(PagedOut(s, f, dirty, slot, dropped), f);
      forall g: Frame | g < |t.frames| == |t.ram| :: FrameSound(t, g)
  {
    hide PageSound, SlotSound, FreeListSound;
    var t := Zeroed(PagedOut(s, f, dirty, slot, dropped), f);
    assert FrameSound(s, f);
    forall g: Frame | g < |t.frames| ensures FrameSound(t, g) {
      assert FrameSound(s, g);
      assert g != f && g !in dropped && s.frames[g].backed ==> Keeps(s, s.kept[g], g);
    }
  }

  lemma PagedOutContents(s: Mm, f: Frame, dirty: bool, slot: nat, dropped: set<Frame>)
    requires Inv(s) && Evictable(s, f, dirty) && Grantable(s, f, slot, dropped)
    ensures Transparent(s, PagedOut(s, f, dirty, slot, dropped), {})
  {
    hide SlotSound, FreeListSound;
    var t := PagedOut(s, f, dirty, slot, dropped);
    assert FrameSound(s, f);
    forall p: Page | p in s.ptes ensures Contents(t, p) == Contents(s, p) {
      assert PageSound(s, p);
      assert s.ptes[p].Out? && s.ptes[p].loc.Store? ==> Holds(s, s.ptes[p].loc.slot, p);
    }
  }

  lemma PagedOutKeeps(s: Mm, f: Frame, dirty: bool, slot: nat, dropped: set<Frame>)
    requires Inv(s) && Evictable(s, f, dirty) && Grantable(s, f, slot, dropped)
    ensures Inv(Zeroed(PagedOut(s, f, dirty, slot, dropped), f))
    ensures Transparent(s, PagedOut(s, f, dirty, slot, dropped), {})
  {
    hide FrameSound;
    var t := Zeroed(PagedOut(s, f, dirty, slot, dropped), f);
    PagedOutFrames(s, f, dirty, slot, dropped);
    PagedOutContents(s, f, dirty, slot, dropped);
    forall p: Page ensures PageSound(t, p) { assert PageSound(s, p); }
    forall l: nat ensures SlotSound(t, l) {
      assert SlotSound(s, l);
      assert forall p: Page :: Holds(t, l, p) ==> Holds(s, l, p) || (l == slot && p == s.frames[f].va);
      assert forall g: Frame :: Keeps(t, l, g) ==> Keeps(s, l, g) && g != f && g !in dropped;
    }
  }

  lemma FreedKeeps(s: Mm, f: Frame)
    requires Inv(s) && f < |s.frames| && s.frames[f] == NO_FLAGS
    ensures Inv(Freed(s, f)) && Transparent(s, Freed(s, f), {})
  {
    var t := Freed(s, f);
    assert FrameSound(s, f);
    forall g: Frame | g < |t.frames| ensures FrameSound(t, g) { assert FrameSound(s, g); }
    forall p: Page ensures PageSound(t, p) { assert PageSound(s, p); }
    forall l: nat ensures SlotSound(t, l) {
      assert SlotSound(s, l);
      assert forall p: Page :: Holds(t, l, p) == Holds(s, l, p);
      assert forall g: Frame :: Keeps(t, l, g) ==> Keeps(s, l, g);
    }
  }

  /** Frame `f`, which is nowhere in use, is mapped at page `p`. */
  function Installed(s: Mm, p: Page, f: Frame, lock: bool): Mm
    requires f < |s.frames|
  {
    s.(ptes := s.ptes[p := Loaded(f, false)],
       frames := s.frames[f := NO_FLAGS.(mapped := true, pinned := lock, va := p)],
       tracked := if lock then s.tracked else s.tracked + {f})
  }

  ghost predicate Spare(s: Mm, f: Frame) { f < |s.frames| && s.frames[f] == NO_FLAGS }

  lemma InstalledKeeps(s: Mm, p: Page, f: Frame, lock: bool)
    requires Inv(s) && Spare(s, f) && (p in s.ptes ==> s.ptes[p].Out?)
    ensures Inv(Installed(s, p, f, lock)) && Transparent(s, Installed(s, p, f, lock), {p})
  {
    var t := Installed(s, p, f, lock);
    assert FrameSound(s, f);
    forall g: Frame | g < |t.frames| ensures FrameSound(t, g) { assert FrameSound(s, g); }
    forall q: Page ensures PageSound(t, q) { assert PageSound(s, q); }
    forall l: nat ensures SlotSound(t, l) {
      assert SlotSound(s, l);
      assert forall q: Page :: Holds(t, l, q) ==> Holds(s, l, q);
      assert forall g: Frame :: Keeps(t, l, g) ==> Keeps(s, l, g);
    }
    forall q: Page | q in s.ptes && q != p ensures Contents(t, q) == Contents(s, q) { assert PageSound(s, q); }
  }

  /** The page-in of a fault: what `p` holds is copied to frame `f`. */
  function Fetched(s: Mm, p: Page, f: Frame): Mm
    requires p in s.ptes && s.ptes[p].Out? && f < |s.ram|
  {
    var loc := s.ptes[p].loc;
    s.(ram := if loc.AnonZero? then s.ram[f := ZERO]
              else if loc.Store? && loc.slot in s.store then s.ram[f := s.store[loc.slot]] else s.ram)
  }

  lemma FetchedKeeps(s: Mm, p: Page, f: Frame)
    requires Inv(s) && Spare(s, f) && p in s.ptes && s.ptes[p].Out?
    ensures Inv(Fetched(s, p, f)) && Transparent(s, Fetched(s, p, f), {})
    ensures Contents(s, p).Some? ==> Fetched(s, p, f).ram[f] == Contents(s, p).value
  {
    var t := Fetched(s, p, f);
    assert PageSound(s, p);
    forall g: Frame | g < |t.frames| ensures FrameSound(t, g) { assert FrameSound(s, g); }
    forall q: Page ensures PageSound(t, q) { assert PageSound(s, q); }
    forall l: nat ensures SlotSound(t, l) {
      assert SlotSound(s, l);
      assert forall q: Page :: Holds(t, l, q) == Holds(s, l, q);
      assert forall g: Frame :: Keeps(t, l, g) == Keeps(s, l, g);
    }
    forall q: Page | q in s.ptes ensures Contents(t, q) == Contents(s, q) { assert PageSound(s, q); }
  }

  /** The store keeps the slot that was read as a copy for the frame. */
  lemma KeptKeeps(s: Mm, f: Frame, slot: nat)
    requires Inv(s) && f < |s.frames| && s.frames[f].mapped && !s.frames[f].backed
    requires slot in s.store && s.store[slot] == s.ram[f]
    requires forall q: Page :: !Holds(s, slot, q)
    requires forall g: Frame :: !Keeps(s, slot, g)
    ensures
      var t := s.(frames := s.frames[f := s.frames[f].(backed := true)], kept := s.kept[f := slot]);
      Inv(t) && Transparent(s, t, {})
  {
    var t := s.(frames := s.frames[f := s.frames[f].(backed := true)], kept := s.kept[f := slot]);
    forall g: Frame | g < |t.frames| ensures FrameSound(t, g) { assert FrameSound(s, g); }
    forall q: Page ensures PageSound(t, q) { assert PageSound(s, q); }
    forall l: nat ensures SlotSound(t, l) {
      assert SlotSound(s, l);
      assert forall q: Page :: Holds(t, l, q) == Holds(s, l, q);
      assert forall g: Frame :: Keeps(t, l, g) ==> Keeps(s, l, g) || (g == f && l == slot);
    }
  }

  lemma PinKeeps(s: Mm, f: Frame, pin: bool)
    requires Inv(s) && f < |s.frames| && s.frames[f].mapped
    ensures
      var t := if pin then Pinned(s, f) else Unpinned(s, f);
      Inv(t) && Transparent(s, t, {})
  {
    var t := if pin then Pinned(s, f) else Unpinned(s, f);
    forall g: Frame | g < |t.frames| ensures FrameSound(t, g) { assert FrameSound(s, g); }
    forall q: Page ensures PageSound(t, q) { assert PageSound(s, q); }
    forall l: nat ensures SlotSound(t, l) {
      assert SlotSound(s, l);
      assert forall q: Page :: Holds(t, l, q) == Holds(s, l, q);
      assert forall g: Frame :: Keeps(t, l, g) == Keeps(s, l, g);
    }
  }

  lemma WrittenKeeps(s: Mm, p: Page, d: Data)
    requires Inv(s) && p in s.ptes && s.ptes[p].Loaded?
    ensures s.ptes[p].frame < |s.ram| && Inv(Written(s, p, d))
    ensures Transparent(s, Written(s, p, d), {p}) && Contents(Written(s, p, d), p) == Some(d)
  {
    assert PageSound(s, p);
    var t := Written(s, p, d);
    forall g: Frame | g < |t.frames| ensures FrameSound(t, g) { assert FrameSound(s, g); }
    forall q: Page ensures PageSound(t, q) { assert PageSound(s, q); }
    forall l: nat ensures SlotSound(t, l) {
      assert SlotSound(s, l);
      assert forall q: Page :: Holds(t, l, q) == Holds(s, l, q);
      assert forall g: Frame :: Keeps(t, l, g) == Keeps(s, l, g);
    }
    forall q: Page | q in s.ptes && q != p ensures Contents(t, q) == Contents(s, q) { assert PageSound(s, q); }
  }

  /** Taking the entry of `p` away leaves its frame, if it has one, in no use. */
  lemma DetachedKeeps(s: Mm, p: Page)
    requires Inv(s) && p in s.ptes
    ensures s.ptes[p].Loaded? ==> s.ptes[p].frame < |s.frames|
    ensures
      var t := s.(ptes := s.ptes - {p});
      var u := if s.ptes[p].Out? then t else Zeroed(t.(tracked := t.tracked - {s.ptes[p].frame}), s.ptes[p].frame);
      Inv(u) && Transparent(s, u, {p})
  {
    assert PageSound(s, p);
    var t := s.(ptes := s.ptes - {p});
    var u := if s.ptes[p].Out? then t else Zeroed(t.(tracked := t.tracked - {s.ptes[p].frame}), s.ptes[p].frame);
    forall g: Frame | g < |u.frames| ensures FrameSound(u, g) { assert FrameSound(s, g); }
    forall q: Page ensures PageSound(u, q) { assert PageSound(s, q); }
    forall l: nat ensures SlotSound(u, l) {
      assert SlotSound(s, l);
      assert forall q: Page :: Holds(u, l, q) ==> Holds(s, l, q);
      assert forall g: Frame :: Keeps(u, l, g) ==> Keeps(s, l, g);
    }
    forall q: Page | q in s.ptes && q != p ensures Contents(u, q) == Contents(s, q) { assert PageSound(s, q); }
  }

  lemma UnpagedKeeps(s: Mm, p: Page, uninit: bool)
    requires Inv(s) && p !in s.ptes
    ensures Inv(UnpagedMapped(s, p, uninit)) && Transparent(s, UnpagedMapped(s, p, uninit), {})
  {
    var t := UnpagedMapped(s, p, uninit);
    forall g: Frame | g < |t.frames| ensures FrameSound(t, g) { assert FrameSound(s, g); }
    forall q: Page ensures PageSound(t, q) { assert PageSound(s, q); }
    forall l: nat ensures SlotSound(t, l) {
      assert SlotSound(s, l);
      assert forall q: Page :: Holds(t, l, q) == Holds(s, l, q);
      assert forall g: Frame :: Keeps(t, l, g) == Keeps(s, l, g);
    }
    forall q: Page | q in s.ptes ensures Contents(t, q) == Contents(s, q) { assert PageSound(s, q); }
  }

  // ----- The calls -----

  lemma EvictedKeeps(s: Mm, f: Frame, dirty: bool, slot: nat, dropped: set<Frame>)
    requires Inv(s) && Evictable(s, f, dirty) && Grantable(s, f, slot, dropped)
    ensures Inv(Evicted(s, f, dirty, slot, dropped)) && Transparent(s, Evicted(s, f, dirty, slot, dropped), {})
  {
    hide Grantable, FrameSound, PageSound, SlotSound;
    PagedOutKeeps(s, f, dirty, slot, dropped);
    var t := PagedOut(s, f, dirty, slot, dropped);
    FreedKeeps(Zeroed(t, f), f);
    assert Freed(t, f) == Freed(Zeroed(t, f), f);
  }

  /** The chosen frame is in no use, and nothing but the victim's place has changed. */
  lemma PreparedKeeps(s: Mm, c: Choice)
    requires Inv(s) && Allowed(s, c)
    ensures
      var t, f := Prepared(s, c), Taken(c, s);
      && f < |t.frames| && Inv(Zeroed(t, f)) && Transparent(s, t, {})
      && (forall p: Page | p in s.ptes && s.ptes[p].Out? :: p in t.ptes && t.ptes[p] == s.ptes[p])
      && (forall p: Page | p in t.ptes :: p in s.ptes)
      && !t.frames[f].free && !t.frames[f].reserved
      && (t.frames[f].backed <==> c.Victim? && s.frames[c.f].backed)
      && (t.frames[f].backed ==> f in t.kept && t.ptes[s.frames[f].va] == Out(Store(t.kept[f])))
  {
    match c
    case FromList =>
      GottenKeeps(s);
      assert Zeroed(Gotten(s), s.freeList[0]) == Gotten(s);
    case Victim(f, dirty, slot, dropped) =>
      PagedOutKeeps(s, f, dirty, slot, dropped);
      assert FrameSound(s, f);
  }

  lemma AnonMappedKeeps(s: Mm, p: Page, lock: bool, c: Choice)
    requires Inv(s) && Allowed(s, c) && p !in s.ptes
    ensures Inv(AnonMapped(s, p, lock, c)) && Transparent(s, AnonMapped(s, p, lock, c), {})
    ensures p in AnonMapped(s, p, lock, c).ptes
  {
    hide Inv, Prepared, Grantable, Evictable;
    PreparedKeeps(s, c);
    var t, f := Prepared(s, c), Taken(c, s);
    InstalledKeeps(Zeroed(t, f), p, f, lock);
    assert AnonMapped(s, p, lock, c) == Installed(Zeroed(t, f), p, f, lock);
  }

  ghost predicate Faults(s: Mm, p: Page, c: Choice) {
    Inv(s) && Allowed(s, c) && p in s.ptes && s.ptes[p].Out?
  }

  /** The slot that the store still notes for the frame is in no use and holds `d`. */
  ghost predicate NoteFits(t: Mm, f: Frame, d: Data) {
    && f in t.kept && t.kept[f] in t.store && t.store[t.kept[f]] == d
    && (forall q: Page :: !Holds(t, t.kept[f], q))
    && (forall g: Frame :: g != f ==> !Keeps(t, t.kept[f], g))
  }

  /** What a page of which the store has nothing starts with in frame `f`. */
  function Start(t: Mm, f: Frame, loc: Location): Data
    requires f < |t.ram|
  {
    if loc.AnonZero? then ZERO else t.ram[f]
  }

  /** After the fault the BACKED bit of the frame is about the page: the store has cleared it,
      or set it for a slot that it read the page from, or there was none of the evicted page
      to begin with.  If the store sets it for an anonymous page, which it has no slot of, an
      old note of it would have to fit. */
  ghost predicate FlagTold(s: Mm, p: Page, c: Choice, fin: Finalize)
    requires Faults(s, p, c)
  {
    match fin
    case Clear => true
    case Ignore => c.FromList? || !s.frames[c.f].backed
    case Keep =>
      s.ptes[p].loc.Store? ||
      (PreparedKeeps(s, c);
       var t, f := Prepared(s, c), Taken(c, s);
       NoteFits(t, f, Start(t, f, s.ptes[p].loc)))
  }

  /** A page fault up to where the store finalizes: the page is read into a frame
      that is in no other use. */
  ghost function Brought(s: Mm, p: Page, pin: bool, c: Choice): Mm
    requires Faults(s, p, c)
  {
    PreparedKeeps(s, c);
    var t, f := Prepared(s, c), Taken(c, s);
    Installed(Fetched(Zeroed(t, f), p, f), p, f, pin)
  }

  lemma FaultedAs(s: Mm, p: Page, pin: bool, c: Choice, fin: Finalize)
    requires Faults(s, p, c) && (fin.Ignore? ==> FlagTold(s, p, c, fin))
    ensures
      var v, f, loc := Brought(s, p, pin, c), Taken(c, s), s.ptes[p].loc;
      && f < |v.frames|
      && Faulted(s, p, pin, c, fin) ==
           if fin.Keep? then
             v.(frames := v.frames[f := v.frames[f].(backed := true)], kept := if loc.Store? then v.kept[f := loc.slot] else v.kept)
           else v
  {
    hide Inv, Prepared, Grantable, Evictable;
    PreparedKeeps(s, c);
  }

  lemma BroughtKeeps(s: Mm, p: Page, pin: bool, c: Choice)
    requires Faults(s, p, c)
    ensures
      var v, f := Brought(s, p, pin, c), Taken(c, s);
      && Inv(v) && Transparent(s, v, {p})
      && f < |v.frames| == |v.ram| && v.frames[f] == NO_FLAGS.(mapped := true, pinned := pin, va := p)
      && p in v.ptes && v.ptes[p] == Loaded(f, false) && (Contents(s, p).Some? ==> v.ram[f] == Contents(s, p).value)
  {
    hide Inv, Prepared, Grantable, Evictable;
    PreparedKeeps(s, c);
    var t, f := Prepared(s, c), Taken(c, s);
    FetchedKeeps(Zeroed(t, f), p, f);
    InstalledKeeps(Fetched(Zeroed(t, f), p, f), p, f, pin);
  }

  lemma SlotReleased(s: Mm, p: Page, pin: bool, c: Choice)
    requires Faults(s, p, c) && s.ptes[p].loc.Store?
    ensures
      var v, f, slot := Brought(s, p, pin, c), Taken(c, s), s.ptes[p].loc.slot;
      && slot in v.store && f < |v.ram| && v.store[slot] == v.ram[f]
      && (forall q: Page :: !Holds(v, slot, q))
      && (forall g: Frame :: !Keeps(v, slot, g))
  {
    hide Prepared, Grantable, Evictable;
    PreparedKeeps(s, c);
    var v, slot := Brought(s, p, pin, c), s.ptes[p].loc.slot;
    var u := Zeroed(Prepared(s, c), Taken(c, s));
    assert SlotSound(u, slot) && PageSound(u, p) && Holds(u, slot, p);
    forall q: Page ensures !Holds(v, slot, q) { assert Holds(v, slot, q) ==> Holds(u, slot, q) && q != p; }
    forall g: Frame ensures !Keeps(v, slot, g) { assert Keeps(v, slot, g) ==> Keeps(u, slot, g); }
  }

  /** Bringing in an anonymous page does not touch what an old note is about. */
  lemma NoteStillFits(s: Mm, p: Page, pin: bool, c: Choice)
    requires Faults(s, p, c) && !s.ptes[p].loc.Store?
    ensures
      var v, f := Brought(s, p, pin, c), Taken(c, s);
      f < |v.ram| && (FlagTold(s, p, c, Keep) <==> NoteFits(v, f, v.ram[f]))
  {
    hide Inv, Prepared, Grantable, Evictable;
    PreparedKeeps(s, c);
    var t, v, f := Prepared(s, c), Brought(s, p, pin, c), Taken(c, s);
    assert forall l: nat, q: Page :: Holds(v, l, q) <==> Holds(t, l, q);
    assert forall l: nat, g: Frame | g != f :: Keeps(v, l, g) <==> Keeps(t, l, g);
  }

  /** A page fault brings in exactly the page and leaves every other as it was. */
  lemma FaultedKeeps(s: Mm, p: Page, pin: bool, c: Choice, fin: Finalize)
    requires Faults(s, p, c) && FlagTold(s, p, c, fin)
    ensures Inv(Faulted(s, p, pin, c, fin)) && Transparent(s, Faulted(s, p, pin, c, fin), {})
    ensures Faulted(s, p, pin, c, fin).ptes[p].Loaded?
  {
    hide Inv, Brought, Faulted, Grantable, Evictable;
    FaultedAs(s, p, pin, c, fin);
    BroughtKeeps(s, p, pin, c);
    if fin.Keep? {
      var v, f := Brought(s, p, pin, c), Taken(c, s);
      if s.ptes[p].loc.Store? {
        SlotReleased(s, p, pin, c);
        KeptKeeps(v, f, s.ptes[p].loc.slot);
      } else {
        NoteStillFits(s, p, pin, c);
        KeptKeeps(v, f, v.kept[f]);
        assert v.kept[f := v.kept[f]] == v.kept;
      }
    }
  }

  lemma KeepIsToldOfASlot(s: Mm, p: Page, c: Choice)
    requires Faults(s, p, c)
    ensures s.ptes[p].loc.Store? ==> FlagTold(s, p, c, Keep)
  {
  }

  /** A frame that is marked BACKED needs a note that fits. */
  lemma MarkedUnsound(v: Mm, f: Frame)
    requires f < |v.frames| == |v.ram| && v.frames[f].mapped && !v.frames[f].backed && !NoteFits(v, f, v.ram[f])
    requires v.frames[f].va in v.ptes && v.ptes[v.frames[f].va] == Loaded(f, false)
    ensures !Inv(v.(frames := v.frames[f := v.frames[f].(backed := true)]))
  {
    var u := v.(frames := v.frames[f := v.frames[f].(backed := true)]);
    if Inv(u) {
      assert FrameSound(u, f);
      var l := u.kept[f];
      assert Keeps(u, l, f) && SlotSound(u, l);
      assert forall q: Page :: Holds(v, l, q) <==> Holds(u, l, q);
      assert forall g: Frame | g != f :: Keeps(v, l, g) <==> Keeps(u, l, g);
    }
  }

  lemma NoteUnfit(s: Mm, p: Page, pin: bool, c: Choice)
    requires Faults(s, p, c) && !FlagTold(s, p, c, Keep)
    ensures !Inv(Faulted(s, p, pin, c, Keep))
  {
    hide Inv, Brought, Faulted, Grantable, Evictable, FlagTold, Prepared;
    FaultedAs(s, p, pin, c, Keep);
    BroughtKeeps(s, p, pin, c);
    KeepIsToldOfASlot(s, p, c);
    NoteStillFits(s, p, pin, c);
    MarkedUnsound(Brought(s, p, pin, c), Taken(c, s));
  }

  /** The frame table stays sound over a page fault if and only if the BACKED bit of
      an evicted frame does not outlive the page it was about, and is not set for a page that
      the store has nothing of. */
  lemma FaultSoundIffFlagTold(s: Mm, p: Page, pin: bool, c: Choice, fin: Finalize)
    requires Faults(s, p, c)
    ensures Inv(Faulted(s, p, pin, c, fin)) <==> FlagTold(s, p, c, fin)
  {
    if FlagTold(s, p, c, fin) {
      FaultedKeeps(s, p, pin, c, fin);
    } else if fin.Keep? {
      NoteUnfit(s, p, pin, c);
    } else {
      PreparedKeeps(s, c);
      var t, u, f := Prepared(s, c), Faulted(s, p, pin, c, fin), c.f;
      var slot := t.kept[f];
      assert FrameSound(s, f);
      assert Holds(u, slot, s.frames[f].va) && Keeps(u, slot, f);
      assert !SlotSound(u, slot);
    }
  }

  /** A clean frame that is marked BACKED is evicted without being written. */
  lemma EvictedClean(t: Mm, f: Frame, slot: nat)
    requires f < |t.frames| == |t.ram| && t.frames[f].backed
    ensures Contents(Evicted(t, f, false, slot, {}), t.frames[f].va) == if slot in t.store then Some(t.store[slot]) else None
  {
  }

  lemma SeenThrough(s: Mm, t: Mm, q: Page)
    requires Transparent(s, t, {}) && q in s.ptes
    ensures Contents(s, q).Some? ==> Contents(t, q) == Contents(s, q)
  {
  }

  /** What a fault leaves if the flag outlives the page that it was about. */
  lemma StaleFlagStays(s: Mm, p: Page, pin: bool, c: Choice)
    requires Faults(s, p, c) && !FlagTold(s, p, c, Ignore)
    ensures c.Victim?
    ensures
      var t, f, q := Faulted(s, p, pin, c, Ignore), c.f, s.frames[c.f].va;
      && f < |t.frames| == |t.ram| && t.frames[f].backed && t.frames[f].va == p && t.ptes[p] == Loaded(f, false)
      && f in t.kept && q in s.ptes && Contents(s, q) == if t.kept[f] in t.store then Some(t.store[t.kept[f]]) else None
  {
    hide SlotSound, FreeListSound, Transparent;
    PreparedKeeps(s, c);
    assert FrameSound(s, c.f);
    PagedOutContents(s, c.f, c.dirty, c.slot, c.dropped);
    SeenThrough(s, Prepared(s, c), s.frames[c.f].va);
  }

  /** If the flag is not told, the page that was faulted in is lost when it is evicted clean: it then
      reads as the page that had the frame before it. */
  lemma StaleFlagLosesThePage(s: Mm, p: Page, pin: bool, c: Choice, fin: Finalize)
    requires Faults(s, p, c) && fin.Ignore? && !FlagTold(s, p, c, fin)
    ensures
      var t, f := Faulted(s, p, pin, c, fin), c.f;
      && (Contents(s, p).Some? ==> Contents(t, p) == Contents(s, p))
      && f < |t.frames| == |t.ram| && f in t.kept && !t.ptes[p].dirty
      && Contents(Evicted(t, f, false, t.kept[f], {}), p) == Contents(s, s.frames[f].va)
  {
    hide Inv, Prepared, Grantable, Evictable, Evicted, FlagTold;
    StaleFlagStays(s, p, pin, c);
    EvictedClean(Faulted(s, p, pin, c, fin), c.f, Faulted(s, p, pin, c, fin).kept[c.f]);
    PreparedKeeps(s, c);
    FetchedKeeps(Zeroed(Prepared(s, c), c.f), p, c.f);
  }

  // ----- Whole runs -----

  datatype Step =
    | Fault(p: Page, pin: bool, c: Choice, fin: Finalize)
    | Pin(p: Page)
    | Unpin(p: Page)
    | PageOut(p: Page, dirty: bool, slot: nat, dropped: set<Frame>)
    | MapAnon(p: Page, lock: bool, c: Choice)
    | MapUnpaged(p: Page, uninit: bool)
    | Unmap(p: Page)
    | Write(p: Page, d: Data)

  ghost predicate Enabled(s: Mm, step: Step) {
    match step
    case Fault(p, _, c, fin) => Faults(s, p, c) && FlagTold(s, p, c, fin)
    case Pin(p) => p in s.ptes && s.ptes[p].Loaded?
    case Unpin(p) => p in s.ptes && s.ptes[p].Loaded?
    case PageOut(p, dirty, slot, dropped) =>
      && p in s.ptes && s.ptes[p].Loaded? && Evictable(s, s.ptes[p].frame, dirty)
      && Grantable(s, s.ptes[p].frame, slot, dropped)
    case MapAnon(p, _, c) => p !in s.ptes && Allowed(s, c)
    case MapUnpaged(p, _) => p !in s.ptes
    case Unmap(p) => p in s.ptes
    case Write(p, _) => p in s.ptes && s.ptes[p].Loaded?
  }

  ghost function After(s: Mm, step: Step): Mm
    requires Inv(s) && Enabled(s, step)
  {
    match step
    case Fault(p, pin, c, fin) => Faulted(s, p, pin, c, fin)
    case Pin(p) => assert PageSound(s, p); Pinned(s, s.ptes[p].frame)
    case Unpin(p) => assert PageSound(s, p); Unpinned(s, s.ptes[p].frame)
    case PageOut(p, dirty, slot, dropped) => Evicted(s, s.ptes[p].frame, dirty, slot, dropped)
    case MapAnon(p, lock, c) => AnonMapped(s, p, lock, c)
    case MapUnpaged(p, uninit) => UnpagedMapped(s, p, uninit)
    case Unmap(p) => assert PageSound(s, p); Unmapped(s, p)
    case Write(p, d) => assert PageSound(s, p); Written(s, p, d)
  }

  /** The page whose contents a step is meant to change or to take away. */
  ghost function Meant(step: Step): set<Page> {
    match step
    case Unmap(p) => {p}
    case Write(p, _) => {p}
    case _ => {}
  }

  lemma UnmappedKeeps(s: Mm, p: Page)
    requires Inv(s) && p in s.ptes
    ensures (s.ptes[p].Loaded? ==> s.ptes[p].frame < |s.frames|)
    ensures Inv(Unmapped(s, p)) && Transparent(s, Unmapped(s, p), {p})
  {
    DetachedKeeps(s, p);
    if s.ptes[p].Loaded? {
      var f := s.ptes[p].frame;
      var t := s.(ptes := s.ptes - {p}, tracked := s.tracked - {f});
      FreedKeeps(Zeroed(t, f), f);
      assert Freed(t, f) == Freed(Zeroed(t, f), f);
    }
  }

  lemma StepKeeps(s: Mm, step: Step)
    requires Inv(s) && Enabled(s, step)
    ensures Inv(After(s, step)) && Transparent(s, After(s, step), Meant(step))
  {
    match step {
      case Fault(p, pin, c, fin) => FaultedKeeps(s, p, pin, c, fin);
      case Pin(p) => assert PageSound(s, p); PinKeeps(s, s.ptes[p].frame, true);
      case Unpin(p) => assert PageSound(s, p); PinKeeps(s, s.ptes[p].frame, false);
      case PageOut(p, dirty, slot, dropped) => EvictedKeeps(s, s.ptes[p].frame, dirty, slot, dropped);
      case MapAnon(p, lock, c) => AnonMappedKeeps(s, p, lock, c);
      case MapUnpaged(p, uninit) => UnpagedKeeps(s, p, uninit);
      case Unmap(p) => UnmappedKeeps(s, p);
      case Write(p, d) => WrittenKeeps(s, p, d);
    }
  }

  /** The page is in memory and stays there: its frame is pinned, so no candidate for eviction. */
  ghost predicate HasPinned(s: Mm, p: Page) {
    && p in s.ptes && s.ptes[p].Loaded? && s.ptes[p].frame < |s.frames|
    && s.frames[s.ptes[p].frame].pinned && s.ptes[p].frame !in s.tracked
  }

  /** The page is in memory and may be evicted. */
  ghost predicate HasUnpinned(s: Mm, p: Page) {
    && p in s.ptes && s.ptes[p].Loaded? && s.ptes[p].frame < |s.frames|
    && !s.frames[s.ptes[p].frame].pinned && s.ptes[p].frame in s.tracked
  }

  ghost predicate FrameIsFree(s: Mm, p: Page, t: Mm)
    requires p in s.ptes
  {
    s.ptes[p].Loaded? ==> s.ptes[p].frame in t.freeList && t.freeCount == s.freeCount + 1
  }

  /** What a step is for. */
  ghost predicate Does(s: Mm, step: Step, t: Mm) {
    match step
    case Fault(p, pin, _, _) => if pin then HasPinned(t, p) else HasUnpinned(t, p)
    case Pin(p) => HasPinned(t, p)
    case Unpin(p) => HasUnpinned(t, p)
    case PageOut(p, _, slot, _) => p in s.ptes && p in t.ptes && t.ptes[p] == Out(Store(slot)) && FrameIsFree(s, p, t)
    case MapAnon(p, lock, _) => if lock then HasPinned(t, p) else HasUnpinned(t, p)
    case MapUnpaged(p, uninit) => p in t.ptes && t.ptes[p].Out? && Contents(t, p) == if uninit then None else Some(ZERO)
    case Unmap(p) => p in s.ptes && p !in t.ptes && FrameIsFree(s, p, t)
    case Write(p, d) => Contents(t, p) == Some(d)
  }

  ghost function VictimPage(s: Mm, c: Choice): set<Page> {
    if c.Victim? && c.f < |s.frames| then {s.frames[c.f].va} else {}
  }

  /** The page that a step takes a frame from. */
  ghost function Robbed(s: Mm, step: Step): set<Page> {
    match step
    case Fault(_, _, c, _) => VictimPage(s, c)
    case MapAnon(_, _, c) => VictimPage(s, c)
    case _ => {}
  }

  /** Every page but the one asked for and one that is robbed has the entry that it had, in the
      same frame, pinned as before; and no page is made up. */
  ghost predicate Undisturbed(s: Mm, t: Mm, p: Page, robbed: set<Page>) {
    && |t.frames| == |s.frames|
    && (forall q: Page | q in t.ptes && q != p :: q in s.ptes)
    && (forall q: Page | q in s.ptes && q != p && q !in robbed :: q in t.ptes && t.ptes[q] == s.ptes[q])
    && (forall q: Page | q in s.ptes && q != p && q !in robbed && s.ptes[q].Loaded? && s.ptes[q].frame < |s.frames| ::
          t.frames[s.ptes[q].frame].pinned == s.frames[s.ptes[q].frame].pinned)
  }

  /** A frame that is taken holds no page but the victim's. */
  lemma TakenElsewhere(s: Mm, c: Choice, q: Page)
    requires Inv(s) && Allowed(s, c) && q in s.ptes && s.ptes[q].Loaded? && q !in VictimPage(s, c)
    ensures s.ptes[q].frame != Taken(c, s)
  {
    hide SlotSound, Grantable;
    assert PageSound(s, q);
    if c.FromList? {
      assert s.freeList[0] in s.freeList;
      assert FrameSound(s, s.freeList[0]);
    }
  }

  /** A page that is sound in memory is pinned or a candidate. */
  lemma PinnedOrNot(t: Mm, p: Page)
    requires Inv(t) && p in t.ptes && t.ptes[p].Loaded?
    ensures t.ptes[p].frame < |t.frames|
    ensures if t.frames[t.ptes[p].frame].pinned then HasPinned(t, p) else HasUnpinned(t, p)
  {
    hide SlotSound;
    assert PageSound(t, p) && FrameSound(t, t.ptes[p].frame);
  }

  /** What a page that is given a frame finds there, and what that leaves alone. */
  ghost predicate Given(s: Mm, t: Mm, p: Page, pin: bool, c: Choice) {
    && |t.frames| == |s.frames| && Taken.requires(c, s) && Taken(c, s) < |t.frames|
    && p in t.ptes && t.ptes[p] == Loaded(Taken(c, s), false) && t.frames[Taken(c, s)].pinned == pin
    && (forall q: Page | q in t.ptes && q != p :: q in s.ptes)
    && (forall q: Page | q in s.ptes && q != p && q !in VictimPage(s, c) :: q in t.ptes && t.ptes[q] == s.ptes[q])
    && (forall g: Frame | g < |s.frames| && g != Taken(c, s) :: t.frames[g].pinned == s.frames[g].pinned)
  }

  /** The part of that which finding a frame does. */
  lemma PreparedGives(s: Mm, c: Choice)
    requires Inv(s) && Allowed(s, c)
    ensures c.FromList? ==> s.freeList != []
    ensures
      var t, f := Prepared(s, c), Taken(c, s);
      && |t.frames| == |s.frames| && f < |t.frames| && (forall q: Page | q in t.ptes :: q in s.ptes)
      && (forall q: Page | q in s.ptes && q !in VictimPage(s, c) :: q in t.ptes && t.ptes[q] == s.ptes[q])
      && (forall g: Frame | g < |s.frames| && g != f :: t.frames[g].pinned == s.frames[g].pinned)
  {
    hide FrameSound, PageSound, SlotSound, Grantable;
    match c
    case FromList => assert s.freeList[0] in s.freeList;
    case Victim(_, _, _, _) =>
  }

  lemma FaultGives(s: Mm, p: Page, pin: bool, c: Choice, fin: Finalize)
    requires Faults(s, p, c)
    ensures Given(s, Faulted(s, p, pin, c, fin), p, pin, c)
  {
    hide Inv, Allowed, Prepared, VictimPage;
    PreparedGives(s, c);
  }

  lemma AnonGives(s: Mm, p: Page, lock: bool, c: Choice)
    requires Inv(s) && Allowed(s, c)
    ensures Given(s, AnonMapped(s, p, lock, c), p, lock, c)
  {
    hide Inv, Allowed, Prepared, VictimPage;
    PreparedGives(s, c);
  }

  lemma GivenDoes(s: Mm, t: Mm, p: Page, pin: bool, c: Choice)
    requires Inv(s) && Inv(t) && Allowed(s, c) && Given(s, t, p, pin, c)
    ensures (if pin then HasPinned(t, p) else HasUnpinned(t, p)) && Undisturbed(s, t, p, VictimPage(s, c))
  {
    hide Inv, Allowed, Taken, VictimPage;
    PinnedOrNot(t, p);
    forall q: Page | q in s.ptes && q != p && q !in VictimPage(s, c) && s.ptes[q].Loaded? ensures s.ptes[q].frame != Taken(c, s) {
      TakenElsewhere(s, c, q);
    }
  }

  lemma RobbedIsUnpinned(s: Mm, step: Step)
    requires Inv(s) && Enabled(s, step)
    ensures forall q | q in Robbed(s, step) :: !HasPinned(s, q)
  {
    hide SlotSound, Grantable, FlagTold;
    forall q | q in Robbed(s, step) ensures !HasPinned(s, q) {
      assert FrameSound(s, step.c.f) && PageSound(s, q);
    }
  }

  lemma FrameStepDoes(s: Mm, step: Step)
    requires Inv(s) && Enabled(s, step) && Inv(After(s, step)) && (step.Fault? || step.MapAnon?)
    ensures Does(s, step, After(s, step)) && Undisturbed(s, After(s, step), step.p, Robbed(s, step))
  {
    hide Inv, Given, Undisturbed, HasPinned, HasUnpinned, FlagTold, Faulted, AnonMapped, Allowed;
    if step.Fault? {
      FaultGives(s, step.p, step.pin, step.c, step.fin);
      GivenDoes(s, After(s, step), step.p, step.pin, step.c);
    } else {
      AnonGives(s, step.p, step.lock, step.c);
      GivenDoes(s, After(s, step), step.p, step.lock, step.c);
    }
  }

  lemma FreeStepDoes(s: Mm, step: Step)
    requires Inv(s) && Enabled(s, step) && Inv(After(s, step)) && (step.PageOut? || step.Unmap?)
    ensures Does(s, step, After(s, step)) && Undisturbed(s, After(s, step), step.p, Robbed(s, step))
  {
    hide SlotSound, Grantable;
    assert PageSound(s, step.p);
    forall q: Page | q in s.ptes && q != step.p && s.ptes[q].Loaded? && s.ptes[step.p].Loaded?
      ensures s.ptes[q].frame != s.ptes[step.p].frame
    {
      assert PageSound(s, q);
    }
  }

  lemma PinStepDoes(s: Mm, step: Step)
    requires Inv(s) && Enabled(s, step) && Inv(After(s, step)) && (step.Pin? || step.Unpin?)
    ensures Does(s, step, After(s, step)) && Undisturbed(s, After(s, step), step.p, Robbed(s, step))
  {
    hide SlotSound;
    assert PageSound(s, step.p);
    forall q: Page | q in s.ptes && q != step.p && s.ptes[q].Loaded? ensures s.ptes[q].frame != s.ptes[step.p].frame {
      assert PageSound(s, q);
    }
  }

  lemma OtherStepDoes(s: Mm, step: Step)
    requires Inv(s) && Enabled(s, step) && Inv(After(s, step)) && (step.MapUnpaged? || step.Write?)
    ensures Does(s, step, After(s, step)) && Undisturbed(s, After(s, step), step.p, Robbed(s, step))
  {
    hide SlotSound, FrameSound;
    if step.Write? { assert PageSound(s, step.p); }
  }

  /** Every step does what it is for, and disturbs nothing but the page that it is about and, if
      it needs a frame and none is free, one page that is not pinned. */
  lemma StepDoes(s: Mm, step: Step)
    requires Inv(s) && Enabled(s, step)
    ensures Inv(After(s, step)) && Does(s, step, After(s, step)) && Undisturbed(s, After(s, step), step.p, Robbed(s, step))
    ensures forall q | q in Robbed(s, step) :: !HasPinned(s, q)
  {
    hide Inv, Enabled, After, Does, Undisturbed, Robbed;
    StepKeeps(s, step);
    RobbedIsUnpinned(s, step);
    match step {
      case Fault(p, pin, c, fin) => FrameStepDoes(s, step);
      case MapAnon(p, lock, c) => FrameStepDoes(s, step);
      case PageOut(p, _, _, _) => FreeStepDoes(s, step);
      case Unmap(p) => FreeStepDoes(s, step);
      case Pin(p) => PinStepDoes(s, step);
      case Unpin(p) => PinStepDoes(s, step);
      case MapUnpaged(p, uninit) => OtherStepDoes(s, step);
      case Write(p, d) => OtherStepDoes(s, step);
    }
  }

  lemma {:induction false} OnceInList(list: seq<Frame>, f: Frame)
    requires forall i, j | 0 <= i < j < |list| :: list[i] != list[j]
    ensures multiset(list)[f] <= 1
  {
    if list != [] {
      assert list == [list[0]] + list[1..];
      OnceInList(list[1..], f);
      if list[0] == f { assert f !in list[1..]; }
    }
  }

  // ----- Boot -----

  /** What z_mem_manage_init() finds: `count` frames, some of them reserved, the pages of
      the kernel image mapped in order from `page` on to the frames from `frame` on,
      pages of on-demand sections that are in the backing store, and what is in memory
      and in the store. */
  datatype Boot = Boot(count: nat, reserved: set<Frame>, page: Page, frame: Frame, size: nat, demand: map<Page, nat>,
                       ram: seq<Data>, store: map<nat, Data>)

  predicate Image(b: Boot, f: Frame) { b.frame <= f < b.frame + b.size }

  ghost predicate BootSound(b: Boot) {
    && |b.ram| == b.count && b.frame + b.size <= b.count
    && (forall f | f in b.reserved :: !Image(b, f))
    && (forall p | p in b.demand :: !(b.page <= p < b.page + b.size) && b.demand[p] in b.store)
    && (forall p, q | p in b.demand && q in b.demand && b.demand[p] == b.demand[q] :: p == q)
  }

  function FrameAtBoot(b: Boot, f: Frame): FrameInfo {
    if Image(b, f) then NO_FLAGS.(mapped := true, pinned := true, va := b.page + (f - b.frame))
    else if f in b.reserved then NO_FLAGS.(reserved := true)
    else NO_FLAGS.(free := true)
  }

  /** `n` pages from `p` on. */
  function Region(p: Page, n: nat): (r: set<Page>)
    ensures forall q: Page :: q in r <==> p <= q < p + n
  {
    if n == 0 then {} else Region(p, n - 1) + {p + n - 1}
  }

  function PagesAtBoot(b: Boot): map<Page, Pte> {
    (map p | p in Region(b.page, b.size) :: Loaded(b.frame + (p - b.page), false))
    + (map p | p in b.demand :: Out(Store(b.demand[p])))
  }

  function FreeFrames(b: Boot, n: nat): seq<Frame> {
    if n == 0 then [] else FreeFrames(b, n - 1) + if FrameAtBoot(b, n - 1).free then [n - 1] else []
  }

  /** The state in which z_mem_manage_init() leaves the memory manager. */
  function Booted(b: Boot): Mm {
    var free := FreeFrames(b, b.count);
    Mm(PagesAtBoot(b), seq(b.count, f requires f >= 0 => FrameAtBoot(b, f)), b.ram, free, |free|, b.store, map[], {})
  }

  lemma {:induction false} FreeFramesAre(b: Boot, n: nat)
    ensures forall f: Frame :: f in FreeFrames(b, n) <==> f < n && FrameAtBoot(b, f).free
    ensures forall i, j | 0 <= i < j < |FreeFrames(b, n)| :: FreeFrames(b, n)[i] < FreeFrames(b, n)[j]
  {
    hide FrameAtBoot;
    if n > 0 {
      FreeFramesAre(b, n - 1);
      var most := FreeFrames(b, n - 1);
      forall i | 0 <= i < |most| ensures most[i] < n - 1 { assert most[i] in most; }
    }
  }

  lemma BootKeeps(b: Boot)
    requires BootSound(b)
    ensures Inv(Booted(b))
  {
    hide FreeFrames, Region;
    FreeFramesAre(b, b.count);
    var s := Booted(b);
    assert FreeListSound(s);
    forall f: Frame | f < |s.frames| ensures FrameSound(s, f) {}
    forall p: Page ensures PageSound(s, p) {}
    forall l: nat ensures SlotSound(s, l) {}
  }

  /** Memory at boot: the frames outside of the image that are not reserved are free. */
  lemma BootFrames(b: Boot, f: Frame)
    requires BootSound(b) && f < b.count
    ensures
      var s := Booted(b);
      && |s.frames| == b.count && (f in s.freeList <==> !Image(b, f) && f !in b.reserved)
      && (s.frames[f].reserved <==> f in b.reserved)
  {
    hide FreeFrames, PagesAtBoot;
    FreeFramesAre(b, b.count);
  }

  /** The pages of the image are in their frames and pinned, those of on-demand sections are in the
      backing store, and there is no other page. */
  lemma BootPages(b: Boot, p: Page)
    requires BootSound(b)
    ensures
      var s, f := Booted(b), b.frame + (p - b.page);
      && (p in s.ptes <==> p in b.demand || b.page <= p < b.page + b.size)
      && (p in b.demand ==> s.ptes[p].Out? && Contents(s, p) == Some(b.store[b.demand[p]]))
      && (b.page <= p < b.page + b.size ==>
            HasPinned(s, p) && s.ptes[p] == Loaded(f, false) && Contents(s, p) == Some(b.ram[f]))
  {
    hide FreeFrames, Region;
  }

  lemma BootBounds(b: Boot)
    requires BootSound(b)
    ensures |b.ram| == b.count >= b.frame + b.size && forall f | f in b.reserved :: !Image(b, f)
  {
  }

  // ----- What holds over every run -----

  /** The state that they lead to: nothing is assumed of it, that it is sound is proved. */
  ghost function StateAfter(b: Boot, steps: seq<Step>): (s: Mm)
    requires Possible(b, steps)
    ensures Inv(s)
    decreases |steps|, 1
  {
    if steps == [] then BootKeeps(b); Booted(b)
    else
      var before, step := StateAfter(b, steps[..|steps| - 1]), steps[|steps| - 1];
      StepKeeps(before, step);
      After(before, step)
  }

  /** The steps can be taken in turn from boot. */
  ghost predicate Possible(b: Boot, steps: seq<Step>)
    decreases |steps|, 0
  {
    && BootSound(b)
    && (steps != [] ==>
          && Possible(b, steps[..|steps| - 1])
          && Enabled(StateAfter(b, steps[..|steps| - 1]), steps[|steps| - 1]))
  }

  /**
   Demand paging is invisible: over any run of faults, evictions, pins, unpins, and
   mappings and writes of other pages, from any state that boot leads to, a page keeps
   its contents.
   */
  lemma {:induction false} PagingIsInvisible(b: Boot, start: seq<Step>, steps: seq<Step>, p: Page)
    requires Possible(b, start + steps) && Possible(b, start)
    requires p in StateAfter(b, start).ptes && Contents(StateAfter(b, start), p).Some?
    requires forall i | 0 <= i < |steps| :: p !in Meant(steps[i])
    ensures
      var s, t := StateAfter(b, start), StateAfter(b, start + steps);
      p in t.ptes && Contents(t, p) == Contents(s, p)
    decreases |steps|
  {
    hide Inv, Enabled, After, Meant, Contents;
    if steps == [] {
      assert start + steps == start;
    } else {
      var n := |steps| - 1;
      var all := start + steps;
      assert all[..|all| - 1] == start + steps[..n] && all[|all| - 1] == steps[n];
      PagingIsInvisible(b, start, steps[..n], p);
      StepKeeps(StateAfter(b, start + steps[..n]), steps[n]);
    }
  }

  /** No step begins with a reserved frame. */
  lemma TakenNotReserved(s: Mm, c: Choice)
    requires Inv(s) && Allowed(s, c)
    ensures Taken(c, s) < |s.frames| && !s.frames[Taken(c, s)].reserved
  {
    hide SlotSound, Grantable;
    assert c.FromList? ==> s.freeList[0] in s.freeList;
    assert FrameSound(s, Taken(c, s));
  }

  lemma PreparedReserves(s: Mm, c: Choice, f: Frame)
    requires Inv(s) && Allowed(s, c) && f < |s.frames|
    ensures |Prepared(s, c).frames| == |s.frames|
    ensures f != Taken(c, s) ==> Prepared(s, c).frames[f].reserved == s.frames[f].reserved
    ensures Taken(c, s) < |s.frames| && (c.Victim? ==> Prepared(s, c).frames[c.f].reserved == s.frames[c.f].reserved)
    ensures c.FromList? ==> !Prepared(s, c).frames[Taken(c, s)].reserved
  {
    hide SlotSound, Grantable, PageSound, FrameSound;
    TakenNotReserved(s, c);
  }

  lemma ReservedThroughStep(s: Mm, step: Step, f: Frame)
    requires Inv(s) && Enabled(s, step) && f < |s.frames|
    ensures |After(s, step).frames| == |s.frames| && After(s, step).frames[f].reserved == s.frames[f].reserved
  {
    hide SlotSound, FreeListSound, Prepared, Grantable, Evictable, FlagTold;
    if step.Fault? || step.MapAnon? {
      TakenNotReserved(s, step.c);
      PreparedReserves(s, step.c, f);
    } else if !step.MapUnpaged? && s.ptes[step.p].Loaded? {
      assert PageSound(s, step.p) && FrameSound(s, s.ptes[step.p].frame);
    }
  }

  /** Over every run just the frames that were reserved at boot are, so that no page is ever put in
      one, and none is lost from the rest. */
  lemma {:induction false} ReservedStays(b: Boot, steps: seq<Step>, f: Frame)
    requires Possible(b, steps) && f < b.count
    ensures
      var s := StateAfter(b, steps);
      && |s.frames| == |s.ram| == b.count && (s.frames[f].reserved <==> f in b.reserved)
      && (f in b.reserved ==> f !in s.freeList && !s.frames[f].mapped)
    decreases |steps|
  {
    hide Enabled, After, SlotSound, FreeListSound;
    if steps == [] {
      BootFrames(b, f);
    } else {
      var before := steps[..|steps| - 1];
      ReservedStays(b, before, f);
      ReservedThroughStep(StateAfter(b, before), steps[|steps| - 1], f);
    }
    assert FrameSound(StateAfter(b, steps), f);
  }

  /** A step that pins the page, and one that ends that. */
  ghost predicate Pins(step: Step, p: Page) {
    step == Pin(p) || (step.Fault? && step.p == p && step.pin) || (step.MapAnon? && step.p == p && step.lock)
  }

  ghost predicate Releases(step: Step, p: Page) { step == Unpin(p) || step == Unmap(p) }

  lemma PinnedItself(s: Mm, step: Step, p: Page)
    requires Inv(s) && Enabled(s, step) && HasPinned(s, p) && !Releases(step, p) && step.p == p
    ensures HasPinned(After(s, step), p) && After(s, step).ptes[p].frame == s.ptes[p].frame
  {
    hide SlotSound, FlagTold, Grantable;
    assert PageSound(s, p);
  }

  lemma PinnedOther(s: Mm, t: Mm, x: Page, robbed: set<Page>, p: Page)
    requires Inv(t) && HasPinned(s, p) && Undisturbed(s, t, x, robbed) && p != x && p !in robbed
    ensures HasPinned(t, p) && t.ptes[p].frame == s.ptes[p].frame
  {
    hide Inv;
    PinnedOrNot(t, p);
  }

  lemma PinnedThroughStep(s: Mm, step: Step, p: Page)
    requires Inv(s) && Enabled(s, step) && HasPinned(s, p) && !Releases(step, p)
    ensures HasPinned(After(s, step), p) && After(s, step).ptes[p].frame == s.ptes[p].frame
  {
    hide Inv, Does, Enabled, After, Undisturbed, Robbed;
    StepDoes(s, step);
    if step.p == p {
      PinnedItself(s, step, p);
    } else {
      PinnedOther(s, After(s, step), step.p, Robbed(s, step), p);
    }
  }

  /** Over every run from boot a page that was pinned, by k_mem_pin() or when it was mapped, stays
      in memory, in the same frame, until it is unpinned or unmapped. */
  lemma {:induction false} PinnedStays(b: Boot, start: seq<Step>, steps: seq<Step>, p: Page)
    requires Possible(b, start + steps) && Possible(b, start) && HasPinned(StateAfter(b, start), p)
    requires forall i | 0 <= i < |steps| :: !Releases(steps[i], p)
    ensures
      var s, t := StateAfter(b, start), StateAfter(b, start + steps);
      HasPinned(t, p) && t.ptes[p].frame == s.ptes[p].frame
    decreases |steps|
  {
    hide Inv, Enabled, After, HasPinned, Releases;
    if steps == [] {
      assert start + steps == start;
    } else {
      var n := |steps| - 1;
      var all := start + steps;
      assert all[..|all| - 1] == start + steps[..n] && all[|all| - 1] == steps[n];
      PinnedStays(b, start, steps[..n], p);
      PinnedThroughStep(StateAfter(b, start + steps[..n]), steps[n], p);
    }
  }

  lemma PinBegins(b: Boot, start: seq<Step>, step: Step, p: Page)
    requires Possible(b, start + [step]) && Pins(step, p)
    ensures HasPinned(StateAfter(b, start + [step]), p)
  {
    hide Inv, Enabled, After, HasPinned, HasUnpinned;
    var all := start + [step];
    assert all[..|all| - 1] == start && all[|all| - 1] == step;
    StepDoes(StateAfter(b, start), step);
  }

  /** In every state that a run leads to: two mapped frames never share a page, a page in
      memory has the frame that is marked for it, no frame is both free and mapped, a
      reserved one is neither, and the eviction algorithm tracks just the frames that
      may be evicted. */
  lemma FrameAccounting(b: Boot, steps: seq<Step>, f: Frame, g: Frame, p: Page)
    requires Possible(b, steps)
    ensures
      var s := StateAfter(b, steps);
      && |s.ram| == |s.frames| && s.freeCount == |s.freeList| && multiset(s.freeList)[f] <= 1
      && (f in s.freeList ==> f < |s.frames|) && (f in s.tracked ==> f < |s.frames|)
      && (p in s.ptes && s.ptes[p].Loaded? ==>
            s.ptes[p].frame < |s.frames| && s.frames[s.ptes[p].frame].mapped && s.frames[s.ptes[p].frame].va == p)
      && (f < |s.frames| ==>
            var i := s.frames[f];
            && (f in s.freeList <==> i.free) && !(i.free && i.mapped) && !(i.reserved && (i.free || i.mapped))
            && (i.mapped ==> i.va in s.ptes && s.ptes[i.va].Loaded? && s.ptes[i.va].frame == f)
            && (f in s.tracked <==> i.mapped && !i.pinned && !i.reserved)
            && (g < |s.frames| && i.mapped && s.frames[g].mapped && i.va == s.frames[g].va ==> f == g))
  {
    hide Possible, StateAfter, SlotSound;
    var s := StateAfter(b, steps);
    assert PageSound(s, p);
    if f < |s.frames| { assert FrameSound(s, f); }
    if g < |s.frames| { assert FrameSound(s, g); }
    OnceInList(s.freeList, f);
  }

  /** In every state that a run leads to: a slot of the backing store serves one page
      only, and a page that is not in memory has one if it ever was. */
  lemma SlotAccounting(b: Boot, steps: seq<Step>, p: Page, q: Page, f: Frame)
    requires Possible(b, steps)
    ensures
      var s := StateAfter(b, steps);
      p in s.ptes && s.ptes[p].Out? && s.ptes[p].loc.Store? ==>
        var l := s.ptes[p].loc.slot;
        l in s.store && (Holds(s, l, q) ==> p == q) && !Keeps(s, l, f)
  {
    hide Possible, StateAfter, FrameSound;
    var s := StateAfter(b, steps);
    assert PageSound(s, p);
    if p in s.ptes && s.ptes[p].Out? && s.ptes[p].loc.Store? {
      assert Holds(s, s.ptes[p].loc.slot, p) && SlotSound(s, s.ptes[p].loc.slot);
    }
  }

  // ----- The same, in place -----

  lemma Hidden(s: Mm, t: Mm, u: Mm, first: set<Page>, second: set<Page>)
    requires Transparent(s, t, first) && Transparent(t, u, second)
    ensures Transparent(s, u, first + second)
  {
  }

  /** The picker's choice can be evicted, and there is a slot for it if the store is not full. */
  ghost predicate CanEvict(s: Mm, victim: Choice, full: bool) {
    && victim.Victim? && Evictable(s, victim.f, victim.dirty) && victim.f !in victim.dropped
    && (!full ==> Grantable(s, victim.f, victim.slot, victim.dropped))
  }

  lemma VictimNotDropped(s: Mm, victim: Choice, full: bool)
    requires CanEvict(s, victim, full)
    ensures victim.Victim? && victim.f !in victim.dropped && victim.f < |s.frames| && s.frames[victim.f].mapped
  {
  }

  lemma Unchanged(s: Mm)
    ensures Transparent(s, s, {})
  {
  }

  class MemoryManager {
    const frames: array<FrameInfo>      // k_mem_page_frames
    const ram: array<Data>              // what the frames hold
    var ptes: map<Page, Pte>            // the page tables
    var freeList: seq<Frame>            // free_page_frame_list
    var freeCount: nat                  // z_free_page_count
    var store: map<nat, Data>           // the backing store
    var kept: map<Frame, nat>           // its notes about frames
    var tracked: set<Frame>             // the eviction algorithm's candidates

    ghost function View(): Mm
      reads this, frames, ram
    {
      Mm(ptes, frames[..], ram[..], freeList, freeCount, store, kept, tracked)
    }

    ghost predicate Valid()
      reads this, frames, ram
    {
      frames.Length == ram.Length && Inv(View())
    }

    /** The loop over the image, whose pages are pinned. */
    method MapImage(b: Boot)
      requires frames.Length == b.count >= b.frame + b.size
      requires forall f: Frame | f < b.count :: frames[f] == if f in b.reserved then NO_FLAGS.(reserved := true) else NO_FLAGS
      requires forall f | f in b.reserved :: !Image(b, f)
      modifies frames
      ensures forall f: Frame | f < b.count :: frames[f] == FrameAtBoot(b, f).(free := false)
    {
      for i := 0 to b.size
        invariant forall f: Frame | f < b.count ::
          frames[f] == if b.frame <= f < b.frame + i then FrameAtBoot(b, f)
                       else if f in b.reserved then NO_FLAGS.(reserved := true) else NO_FLAGS
      {
        frames[b.frame + i] := frames[b.frame + i].(mapped := true, va := b.page + i);
        frames[b.frame + i] := frames[b.frame + i].(pinned := true);
      }
    }

    /** page_frame_free_locked() and free_page_frame_list_put(). */
    method PageFrameFreeLocked(f: Frame)
      requires f < frames.Length
      modifies this`freeList, this`freeCount, frames
      ensures View() == Freed(old(View()), f)
      ensures frames[..] == old(frames[..])[f := NO_FLAGS.(free := true)]
    {
      frames[f] := NO_FLAGS.(free := true);
      assert frames[..] == old(frames[..])[f := NO_FLAGS.(free := true)];
      freeList := freeList + [f];
      freeCount := freeCount + 1;
    }

    /** The loop that frees what is neither reserved nor mapped. */
    method FreeTheRest(b: Boot)
      requires frames.Length == b.count && freeList == [] && freeCount == 0
      requires forall f: Frame | f < b.count :: frames[f] == FrameAtBoot(b, f).(free := false)
      modifies this`freeList, this`freeCount, frames
      ensures frames[..] == seq(b.count, f requires f >= 0 => FrameAtBoot(b, f))
      ensures freeList == FreeFrames(b, b.count) && freeCount == |freeList|
    {
      for f := 0 to b.count
        invariant freeList == FreeFrames(b, f) && freeCount == |freeList|
        invariant forall g: Frame | g < b.count ::
          frames[g] == if g < f then FrameAtBoot(b, g) else FrameAtBoot(b, g).(free := false)
      {
        if frames[f] == NO_FLAGS {
          PageFrameFreeLocked(f);
        }
      }
    }

    /** z_mem_manage_init(): the frames of the image are mapped and pinned, and all frames
        that are neither reserved nor mapped are free. */
    constructor (b: Boot)
      requires BootSound(b)
      ensures Valid() && fresh(frames) && fresh(ram) && View() == Booted(b)
    {
      frames := new FrameInfo[b.count](f => if f in b.reserved then NO_FLAGS.(reserved := true) else NO_FLAGS);
      ram := new Data[b.count](f requires 0 <= f < |b.ram| => b.ram[f]);
      ptes, freeList, freeCount, store, kept, tracked := PagesAtBoot(b), [], 0, b.store, map[], {};
      new;
      hide Inv, BootSound, PagesAtBoot, FreeFrames, FrameAtBoot;
      BootKeeps(b);
      BootBounds(b);
      MapImage(b);
      FreeTheRest(b);
      assert View() == Booted(b);
    }

    /** free_page_frame_list_get(). */
    method FreePageFrameListGet() returns (pf: Option<Frame>)
      requires Valid()
      modifies this`freeList, this`freeCount, frames
      ensures old(freeList) == [] ==> pf == None && View() == old(View())
      ensures old(freeList) != [] ==> old(freeList[0]) < frames.Length && old(freeCount) > 0
      ensures old(freeList) != [] ==> pf == Some(old(freeList)[0]) && View() == Gotten(old(View()))
    {
      if freeList == [] {
        return None;
      }
      GottenKeeps(View());
      var f := freeList[0];
      freeList := freeList[1..];
      freeCount := freeCount - 1;
      frames[f] := NO_FLAGS;
      assert frames[..] == old(frames[..])[f := NO_FLAGS];
      return Some(f);
    }

    /** page_frame_prepare_locked() on a mapped frame, and the page-out it asks for; nothing
        happens when the store is full (`slot` is None). */
    method PageOutFrame(f: Frame, reportedDirty: bool, slot: Option<nat>, dropped: set<Frame>) returns (ok: bool)
      requires f < frames.Length == ram.Length && frames[f].mapped && f !in dropped
      modifies this`ptes, this`tracked, this`store, frames
      ensures ok == slot.Some?
      ensures View() == if ok then PagedOut(old(View()), f, reportedDirty, slot.value, dropped) else old(View())
    {
      var dirty := reportedDirty || !frames[f].backed;
      if slot.None? {
        return false;
      }
      // k_mem_paging_backing_store_location_get() may give up copies of other frames
      forall g | 0 <= g < frames.Length && g in dropped {
        frames[g] := frames[g].(backed := false);
      }
      assert frames[..] == Unbacked(old(frames[..]), dropped);
      ptes := ptes[frames[f].va := Out(Store(slot.value))];
      tracked := tracked - {f};
      if dirty {
        store := store[slot.value := ram[f]];
      }
      return true;
    }

    /** do_mem_evict(); nothing changes when the store is full (`slot` is None). */
    method DoMemEvict(p: Page, slot: Option<nat>, dropped: set<Frame>) returns (ok: bool)
      requires Valid() && p in ptes
      requires ptes[p].Loaded? ==>
        var f := ptes[p].frame;
        && Evictable(View(), f, ptes[p].dirty) && f !in dropped
        && (slot.Some? ==> Grantable(View(), f, slot.value, dropped))
      modifies this, frames
      ensures Valid() && Transparent(old(View()), View(), {})
      ensures ok && old(ptes[p].Loaded?) ==>
        slot.Some? && View() == Evicted(old(View()), old(ptes[p].frame), old(ptes[p].dirty), slot.value, dropped)
      ensures !ok || old(ptes[p].Out?) ==> View() == old(View())
      ensures ok == (old(ptes[p].Out?) || slot.Some?)
    {
      hide Grantable, FrameSound, PageSound, SlotSound;
      Unchanged(View());
      if ptes[p].Out? {
        return true;
      }
      var f := ptes[p].frame;
      if slot.Some? {
        EvictedKeeps(View(), f, ptes[p].dirty, slot.value, dropped);
      }
      ok := PageOutFrame(f, ptes[p].dirty, slot, dropped);
      if ok {
        PageFrameFreeLocked(f);
      }
    }

    /** The frame that a page goes to: a free one, else the picker's victim, whose
        page is written to the store if it has to be; none when the store is full then. */
    method AcquireFrame(victim: Choice, full: bool) returns (ok: bool, f: Frame, ghost c: Choice)
      requires Valid() && (freeList == [] ==> CanEvict(View(), victim, full))
      modifies this`ptes, this`tracked, this`store, this`freeList, this`freeCount, frames
      ensures ok == (old(freeList) != [] || !full) && (!ok ==> View() == old(View()))
      ensures c == (if old(freeList) != [] then FromList else victim)
      ensures ok ==>
        && Allowed(old(View()), c) && f == Taken(c, old(View()))
        && View() == Prepared(old(View()), c) && f < frames.Length
    {
      hide Transparent, FrameSound, PageSound, SlotSound, Grantable;
      c := if freeList != [] then FromList else victim;
      var pf := FreePageFrameListGet();
      if pf == None {
        f := victim.f;
        VictimNotDropped(View(), victim, full);
        ok := PageOutFrame(f, victim.dirty, if full then None else Some(victim.slot), victim.dropped);
      } else {
        ok, f := true, pf.value;
      }
    }

    /** map_anon_page(), with the victim to use when no frame is free; false is -ENOMEM. */
    method MapAnonPage(p: Page, lock: bool, victim: Choice, full: bool) returns (ok: bool, ghost c: Choice)
      requires Valid() && p !in ptes
      requires freeList == [] ==> CanEvict(View(), victim, full)
      modifies this, frames
      ensures Valid() && Transparent(old(View()), View(), {})
      ensures ok == (old(freeList) != [] || !full) && (!ok ==> View() == old(View()))
      ensures ok ==> Allowed(old(View()), c) && View() == AnonMapped(old(View()), p, lock, c)
      ensures ok ==> if lock then HasPinned(View(), p) else HasUnpinned(View(), p)
    {
      hide Inv, Transparent, Allowed, Prepared, CanEvict, Given, HasPinned, HasUnpinned, Undisturbed;
      ghost var s := View();
      Unchanged(s);
      var f;
      ok, f, c := AcquireFrame(victim, full);
      if !ok {
        return;
      }
      AnonMappedKeeps(s, p, lock, c);
      AnonGives(s, p, lock, c);
      GivenDoes(s, AnonMapped(s, p, lock, c), p, lock, c);
      ptes := ptes[p := Loaded(f, false)];
      ghost var before := frames[..];
      frames[f] := NO_FLAGS.(mapped := true, pinned := lock, va := p);
      assert frames[..] == before[f := frames[f]];
      if !lock {
        tracked := tracked + {f};
      }
    }

    /** The pinning of a page that is already in memory. */
    method PinLoaded(f: Frame)
      requires f < frames.Length
      modifies this`tracked, frames
      ensures View() == if old(frames[f].pinned) then old(View()) else Pinned(old(View()), f)
    {
      if !frames[f].pinned {
        tracked := tracked - {f};
        frames[f] := frames[f].(pinned := true);
        assert frames[..] == old(frames[..])[f := frames[f]];
      }
    }

    /** do_backing_store_page_in() through the scratch page. */
    method ReadIn(loc: Location, f: Frame)
      requires f < ram.Length
      modifies ram
      ensures ram[..] ==
        if loc.AnonZero? then old(ram[..])[f := ZERO]
        else if loc.Store? && loc.slot in store then old(ram[..])[f := store[loc.slot]] else old(ram[..])
    {
      match loc {
        case AnonZero => ram[f] := ZERO;
        case AnonUninit =>
        case Store(l) => if l in store { ram[f] := store[l]; }
      }
    }

    /** The flags, page table entry and tracking of a page that was read in. */
    method MarkLoaded(p: Page, pin: bool, f: Frame, fin: Finalize, loc: Location)
      requires f < frames.Length
      modifies this`ptes, this`kept, this`tracked, frames
      ensures frames[..] ==
        old(frames[..])[f := old(frames[f]).(mapped := true, va := p, pinned := pin,
                                             backed := fin.Keep? || (fin.Ignore? && old(frames[f].backed)))]
      ensures ptes == old(ptes)[p := Loaded(f, false)]
      ensures kept == if fin.Keep? && loc.Store? then old(kept)[f := loc.slot] else old(kept)
      ensures tracked == if pin then old(tracked) else old(tracked) + {f}
    {
      frames[f] := frames[f].(mapped := true, va := p);
      frames[f] := frames[f].(pinned := pin);
      ptes := ptes[p := Loaded(f, false)];
      if fin.Keep? {
        frames[f] := frames[f].(backed := true);
        if loc.Store? {
          kept := kept[f := loc.slot];
        }
      } else if fin.Clear? {
        frames[f] := frames[f].(backed := false);
      }
      if !pin {
        tracked := tracked + {f};
      }
    }

    /** The rest of do_page_fault(), for a page that is not in memory. */
    method PageIn(p: Page, pin: bool, victim: Choice, fin: Finalize) returns (ghost c: Choice)
      requires Valid() && p in ptes && ptes[p].Out?
      requires freeList == [] ==> CanEvict(View(), victim, false)
      modifies this, frames, ram
      ensures Faults(old(View()), p, c) && View() == Faulted(old(View()), p, pin, c, fin)
      ensures Valid() <==> FlagTold(old(View()), p, c, fin)
      ensures Valid() ==> Transparent(old(View()), View(), {})
      ensures Valid() ==> if pin then HasPinned(View(), p) else HasUnpinned(View(), p)
    {
      hide Inv, Transparent, Prepared, CanEvict, Grantable, Given, HasPinned, HasUnpinned, Undisturbed;
      ghost var s := View();
      var loc := ptes[p].loc;
      var ok, f;
      ok, f, c := AcquireFrame(victim, false);
      FaultSoundIffFlagTold(s, p, pin, c, fin);
      if FlagTold(s, p, c, fin) {
        FaultedKeeps(s, p, pin, c, fin);
        FaultGives(s, p, pin, c, fin);
        GivenDoes(s, Faulted(s, p, pin, c, fin), p, pin, c);
      }
      ReadIn(loc, f);
      MarkLoaded(p, pin, f, fin, loc);
    }

    /** do_page_fault() with its pin request; false for a page that is not mapped.
        `fin` is what the backing store does when the page has been read in. */
    method DoPageFault(p: Page, pin: bool, victim: Choice, fin: Finalize) returns (result: bool, ghost c: Choice)
      requires Valid()
      requires p in ptes && ptes[p].Out? && freeList == [] ==> CanEvict(View(), victim, false)
      modifies this, frames, ram
      ensures result == (p in old(ptes)) && (!result ==> View() == old(View()))
      ensures result && old(ptes[p].Out?) ==>
        && Faults(old(View()), p, c) && View() == Faulted(old(View()), p, pin, c, fin)
        && (Valid() <==> FlagTold(old(View()), p, c, fin)) && (Valid() ==> Transparent(old(View()), View(), {}))
      ensures result && old(ptes[p].Loaded?) ==>
        var f := old(ptes[p].frame);
        && f < frames.Length
        && View() == (if pin && !old(frames[..])[f].pinned then Pinned(old(View()), f) else old(View()))
        && Valid() && Transparent(old(View()), View(), {})
      ensures result && Valid() ==> p in ptes && ptes[p].Loaded? && (pin ==> HasPinned(View(), p))
    {
      hide Allowed, Grantable, FrameSound, SlotSound, CanEvict;
      c := FromList;
      if p !in ptes {
        return false, c;
      }
      if ptes[p].Loaded? {
        assert PageSound(View(), p);
        PinKeeps(View(), ptes[p].frame, true);
        if pin {
          PinLoaded(ptes[p].frame);
        }
        PinnedOrNot(View(), p);
        return true, c;
      }
      c := PageIn(p, pin, victim, fin);
      return true, c;
    }

    /** do_mem_unpin() */
    method DoMemUnpin(p: Page)
      requires Valid() && p in ptes
      modifies this`tracked, frames
      ensures Valid() && Transparent(old(View()), View(), {})
      ensures View() == if old(ptes)[p].Loaded? && old(ptes)[p].frame < frames.Length && old(frames[..])[old(ptes)[p].frame].pinned
                        then Unpinned(old(View()), old(ptes)[p].frame) else old(View())
      ensures old(ptes)[p].Loaded? ==> HasUnpinned(View(), p)
    {
      hide FrameSound, SlotSound;
      assert PageSound(View(), p);
      Unchanged(View());
      if ptes[p].Loaded? {
        var f := ptes[p].frame;
        if frames[f].pinned {
          PinKeeps(View(), f, false);
          frames[f] := frames[f].(pinned := false);
          tracked := tracked + {f};
          assert frames[..] == old(frames[..])[f := frames[f]];
        }
        PinnedOrNot(View(), p);
      }
    }

    /** The unmapping of one anonymous page in k_mem_unmap_phys_guard(). */
    method UnmapAnonPage(p: Page) returns (ok: bool)
      requires Valid()
      modifies this, frames
      ensures Valid() && Transparent(old(View()), View(), {p}) && p !in ptes
      ensures ok == (p in old(ptes))
      ensures !ok ==> View() == old(View())
      ensures ok ==> (old(ptes)[p].Loaded? ==> old(ptes)[p].frame < frames.Length) && View() == Unmapped(old(View()), p)
      ensures ptes == old(ptes) - {p}
    {
      hide FrameSound, SlotSound, Inv;
      Unchanged(View());
      if p !in ptes {
        return false;
      }
      UnmappedKeeps(View(), p);
      var pte := ptes[p];
      ptes := ptes - {p};
      if pte.Loaded? {
        tracked := tracked - {pte.frame};
        PageFrameFreeLocked(pte.frame);
      }
      return true;
    }

    /** arch_page_phys_get() finds the page. */
    ghost predicate InMemory(q: Page)
      reads this
    {
      q in ptes && ptes[q].Loaded?
    }

    /** The loop of k_mem_unmap_phys_guard() over an anonymous region of `n` pages: it stops
        at the first page that is not mapped. */
    method UnmapAnonRegion(p: Page, n: nat) returns (done: nat)
      requires Valid()
      modifies this, frames
      ensures Valid() && done <= n && (done < n ==> p + done !in old(ptes))
      ensures forall q: Page :: q in ptes <==> q in old(ptes) && !(p <= q < p + done)
      ensures forall q: Page | p <= q < p + done :: q in old(ptes)
      ensures Transparent(old(View()), View(), Region(p, done)) && (done == 0 ==> View() == old(View()))
    {
      hide FrameSound, SlotSound, Inv, Transparent, Unmapped, Contents;
      done := 0;
      Unchanged(View());
      while done < n
        invariant Valid() && done <= n && (done == 0 ==> View() == old(View()))
        invariant forall q: Page :: q in ptes <==> q in old(ptes) && !(p <= q < p + done)
        invariant forall q: Page | p <= q < p + done :: q in old(ptes)
        invariant Transparent(old(View()), View(), Region(p, done))
      {
        ghost var s := View();
        var ok := UnmapAnonPage(p + done);
        if !ok {
          return;
        }
        Hidden(old(View()), s, View(), Region(p, done), {p + done});
        done := done + 1;
      }
    }

    /** k_mem_unmap_phys_guard() of an anonymous region of `n` pages from `p` on.  It is left alone
        if one of its guard pages is found in memory; `freed` tells whether the virtual region
        is given back, from the first guard page to the last. */
    method KMemUnmap(p: Page, n: nat) returns (done: nat, freed: bool)
      requires Valid() && p >= 1
      modifies this, frames
      ensures Valid() && done <= n
      ensures freed == (!old(InMemory(p - 1)) && !old(InMemory(p + n)) && forall q: Page | p <= q < p + n :: q in old(ptes))
      ensures freed ==> done == n
      ensures old(InMemory(p - 1)) || old(InMemory(p + n)) ==> done == 0
      ensures done == 0 ==> View() == old(View())
      ensures forall q: Page :: q in ptes <==> q in old(ptes) && !(p <= q < p + done)
      ensures Transparent(old(View()), View(), Region(p, done))
    {
      hide FrameSound, SlotSound, Inv, Transparent, Contents;
      done, freed := 0, false;
      Unchanged(View());
      if p - 1 in ptes && ptes[p - 1].Loaded? {
        return;
      }
      if p + n in ptes && ptes[p + n].Loaded? {
        return;
      }
      done := UnmapAnonRegion(p, n);
      freed := done == n;
    }
  }
}

/**
 The boot page tables that arch/x86/gen_mmu.py builds, for all three paging modes.  A
 radix tree of tables, linked by physical address, is shown to be a flat map from
 virtual pages to entries.
 */
module PageTables {

  import opened Bits

  datatype Option<T> = None | Some(value: T)

  // ----- Paging modes -----

  const PAGE := 0x1000

  /** The flags of a pointer to a table: present, writable, user. */
  const INT_FLAGS := 7

  /** A class of tables: an entry covers 1 << shift bytes, a table has 1 << bits entries,
      the address in an entry has `width` bits from bit 12 up, and `flags` are the
      supported flags. */
  datatype Level = Level(shift: nat, bits: nat, width: nat, flags: nat)

  const PML4 := Level(39, 9, 51, 0x7)
  const PDPT := Level(30, 9, 51, 0x97)
  const PDPT_PAE := Level(30, 2, 51, 0x97)
  const PD := Level(22, 10, 20, 0x97)
  const PD_XD := Level(21, 9, 51, 0x97)
  const PT := Level(12, 10, 20, 0x717)
  const PT_XD := Level(12, 9, 47, 0x8000_0000_0000_0F17)

  /** Paging modes, from the top level down. */
  const MODE_32BIT := [PD, PT]
  const MODE_PAE := [PDPT_PAE, PD_XD, PT_XD]
  const MODE_IA32E := [PML4, PDPT, PD_XD, PT_XD]

  function Mask(l: Level): nat { PAGE * (Pow2(l.width) - 1) }

  function Entries(l: Level): nat { Pow2(l.bits) }

  /** Addresses and flags do not share bits, and a table can be marked present. */
  ghost predicate LevelSound(l: Level) { And(Mask(l), l.flags) == 0 && Odd(l.flags) }

  /** Each level resolves the next bits of the address. */
  ghost predicate Shaped(levels: seq<Level>) {
    && |levels| >= 1
    && (forall i | 0 <= i < |levels| :: LevelSound(levels[i]))
    && (forall i | 0 < i < |levels| :: levels[i - 1].shift == levels[i].shift + levels[i].bits)
  }

  lemma {:induction false} Widths()
    ensures Pow2(20) == 0x10_0000 && Pow2(47) == 0x8000_0000_0000 && Pow2(51) == 0x8_0000_0000_0000
  {
    assert Pow2(5) == 32 && Pow2(7) == 128;
    Pow2Sum(5, 5);
    Pow2Sum(10, 10);
    Pow2Sum(20, 20);
    Pow2Sum(7, 40);
    assert Pow2(51) == 16 * Pow2(47);
  }

  lemma {:induction false} MaskValues()
    ensures Mask(PML4) == Mask(PDPT) == Mask(PDPT_PAE) == Mask(PD_XD) == 0x7FFF_FFFF_FFFF_F000
    ensures Mask(PD) == Mask(PT) == 0xFFFF_F000 && Mask(PT_XD) == 0x07FF_FFFF_FFFF_F000
  {
    hide Pow2;
    Widths();
  }

  lemma NoBits(x: nat)
    ensures And(x, 0) == 0
  {
  }

  lemma {:induction false} MasksApart()
    ensures And(0x7FFF_FFFF_FFFF_F000, 0x7) == 0 && And(0x7FFF_FFFF_FFFF_F000, 0x97) == 0
    ensures And(0xFFFF_F000, 0x97) == 0 && And(0xFFFF_F000, 0x717) == 0
    ensures And(0x07FF_FFFF_FFFF_F000, 0x8000_0000_0000_0F17) == 0
  {
    hide And, Pow2;
    AndPages(0x7_FFFF_FFFF_FFFF, 0x7);
    AndPages(0x7_FFFF_FFFF_FFFF, 0x97);
    AndPages(0xF_FFFF, 0x97);
    AndPages(0xF_FFFF, 0x717);
    AndPages(0x7FFF_FFFF_FFFF, 0x8000_0000_0000_0F17);
    NoBits(0x7_FFFF_FFFF_FFFF);
    NoBits(0xF_FFFF);
    Widths();
    AndCommutes(0x7FFF_FFFF_FFFF, 0x8_0000_0000_0000);
    LowBits(0x8_0000_0000_0000, 47);
  }

  lemma {:induction false} ModesAreShaped()
    ensures Shaped(MODE_32BIT) && Shaped(MODE_PAE) && Shaped(MODE_IA32E)
  {
    hide And, Pow2, Mask;
    MaskValues();
    MasksApart();
  }

  // ----- Entries -----

  /** The entry that MMUTable.map() writes; set_perms() writes the same of the old entry. */
  function Packed(l: Level, phys: nat, flags: nat): nat { Or(And(phys, Mask(l)), And(flags, l.flags)) }

  function AddrOf(l: Level, entry: nat): nat { And(entry, Mask(l)) }

  predicate Present(entry: nat) { And(entry, 1) != 0 }

  /** The address and the flags of an entry do not disturb each other. */
  lemma PackedParts(l: Level, phys: nat, flags: nat)
    requires LevelSound(l)
    ensures AddrOf(l, Packed(l, phys, flags)) == And(phys, Mask(l))
    ensures And(Packed(l, phys, flags), l.flags) == And(flags, l.flags)
  {
    hide And, Or, Mask, Pow2;
    Joined(phys, Mask(l), flags, l.flags);
  }

  /** The physical address `a` can be stored in an entry. */
  ghost predicate Fits(l: Level, a: nat) { a % PAGE == 0 && a / PAGE < Pow2(l.width) }

  /** A pointer to a table is present and gives the table's address back. */
  lemma PointerParts(l: Level, table: nat)
    requires LevelSound(l) && Fits(l, table)
    ensures Present(Packed(l, table, INT_FLAGS)) && AddrOf(l, Packed(l, table, INT_FLAGS)) == table
  {
    hide And, Or, Pow2;
    PackedParts(l, table, INT_FLAGS);
    PageMaskKeeps(table / PAGE, l.width);
    var a, f := And(table, Mask(l)), And(INT_FLAGS, l.flags);
    AndUnfold(INT_FLAGS, l.flags);
    OrUnfold(a, f);
    AndUnfold(Or(a, f), 1);
  }

  lemma NoEntry(l: Level)
    ensures !Present(0) && AddrOf(l, 0) == 0 && And(0, l.flags) == 0
  {
  }

  // ----- Paths -----

  /** MMUTable.entry_index() */
  function Index(l: Level, v: nat): nat { And(Shr(v, l.shift), Entries(l) - 1) }

  type Path = seq<nat>

  /** The indices that resolve `v`, from the top level down. */
  function PathOf(levels: seq<Level>, v: nat): Path {
    seq(|levels|, d requires 0 <= d < |levels| => Index(levels[d], v))
  }

  /** The path to the table that holds the entry of `v`. */
  function TablePath(levels: seq<Level>, v: nat): Path
    requires |levels| >= 1
  {
    PathOf(levels, v)[..|levels| - 1]
  }

  lemma IndexInTable(l: Level, v: nat)
    ensures Index(l, v) == Shr(v, l.shift) % Entries(l) < Entries(l)
  {
    LowBits(Shr(v, l.shift), l.bits);
  }

  // ----- The tables -----

  datatype Ref = Top | At(addr: nat)

  datatype Tables = Tables(top: seq<nat>, tables: map<nat, seq<nat>>, pagePos: nat)

  predicate Known(s: Tables, r: Ref) { r.Top? || r.addr in s.tables }

  function Node(s: Tables, r: Ref): seq<nat>
    requires Known(s, r)
  {
    if r.Top? then s.top else s.tables[r.addr]
  }

  function WithEntry(s: Tables, r: Ref, i: nat, entry: nat): Tables
    requires Known(s, r) && i < |Node(s, r)|
  {
    var node: seq<nat> := Node(s, r)[i := entry];
    if r.Top? then s.(top := node) else s.(tables := s.tables[r.addr := node])
  }

  function Empty(l: Level): seq<nat> { seq(Entries(l), _ => 0) }

  /** new_child_table(): an empty table of the next level, linked from entry `i`. */
  function WithChild(levels: seq<Level>, s: Tables, r: Ref, d: nat, i: nat): Tables
    requires d + 1 < |levels| && Known(s, r) && r != At(s.pagePos) && i < |Node(s, r)|
  {
    var t := Tables(s.top, s.tables[s.pagePos := Empty(levels[d + 1])], s.pagePos + PAGE);
    WithEntry(t, r, i, Packed(levels[d], s.pagePos, INT_FLAGS))
  }

  // ----- The tree -----

  /** Where the table with each path is. */
  type Places = map<Path, nat>

  ghost predicate Placed(at: Places, p: Path) { p == [] || p in at }

  ghost function RefAt(at: Places, p: Path): Ref
    requires Placed(at, p)
  {
    if p == [] then Top else At(at[p])
  }

  /** Every table hangs below another one. */
  ghost predicate PathSound(levels: seq<Level>, at: Places, p: Path) {
    0 < |p| < |levels| && Placed(at, p[..|p| - 1]) && p[|p| - 1] < Entries(levels[|p| - 1])
  }

  ghost predicate TableSound(levels: seq<Level>, start: nat, s: Tables, at: Places, p: Path)
    requires Placed(at, p)
  {
    && Known(s, RefAt(at, p)) && |p| < |levels| && |Node(s, RefAt(at, p))| == Entries(levels[|p|])
    && (p in at ==> start <= at[p] < s.pagePos && at[p] % PAGE == 0)
  }

  /** An entry above the last level is a pointer to the table with the longer path, or 0. */
  ghost predicate EntrySound(levels: seq<Level>, s: Tables, at: Places, p: Path, i: nat)
    requires Placed(at, p) && Known(s, RefAt(at, p)) && |p| < |levels| && i < |Node(s, RefAt(at, p))|
  {
    Node(s, RefAt(at, p))[i] == if p + [i] in at then Packed(levels[|p|], at[p + [i]], INT_FLAGS) else 0
  }

  /** All addresses below `a` can be stored at every level. */
  ghost predicate Addressable(levels: seq<Level>, a: nat) {
    forall d | 0 <= d < |levels| :: a / PAGE <= Pow2(levels[d].width)
  }

  ghost predicate Aligned(start: nat, s: Tables) {
    0 < start <= s.pagePos && start % PAGE == 0 && s.pagePos % PAGE == 0
  }

  ghost predicate Closed(levels: seq<Level>, at: Places) {
    forall p {:trigger PathSound(levels, at, p)} | p in at :: PathSound(levels, at, p)
  }

  ghost predicate Apart(at: Places) {
    forall p, q | p in at && q in at && at[p] == at[q] :: p == q
  }

  ghost predicate Sound(levels: seq<Level>, start: nat, s: Tables, at: Places) {
    && (forall p {:trigger TableSound(levels, start, s, at, p)} | Placed(at, p) :: TableSound(levels, start, s, at, p))
    && (forall a | a in s.tables :: a in at.Values)
  }

  ghost predicate Linked(levels: seq<Level>, start: nat, s: Tables, at: Places)
    requires Sound(levels, start, s, at)
  {
    forall p, i: nat {:trigger EntrySound(levels, s, at, p, i)} |
      Placed(at, p) && TableSound(levels, start, s, at, p) && |p| + 1 < |levels| && i < Entries(levels[|p|]) ::
      EntrySound(levels, s, at, p, i)
  }

  ghost predicate Inv(levels: seq<Level>, start: nat, s: Tables, at: Places) {
    && Aligned(start, s) && Addressable(levels, s.pagePos) && Closed(levels, at) && Apart(at)
    && Sound(levels, start, s, at) && Linked(levels, start, s, at)
  }

  lemma {:induction false} PrefixPlaced(levels: seq<Level>, at: Places, p: Path, k: nat)
    requires Closed(levels, at) && Placed(at, p) && k <= |p|
    ensures Placed(at, p[..k])
  {
    if k < |p| {
      assert PathSound(levels, at, p);
      PrefixPlaced(levels, at, p[..|p| - 1], k);
      assert p[..|p| - 1][..k] == p[..k];
    } else {
      assert p[..k] == p;
    }
  }

  // ----- A tree -----

  lemma PointerFits(levels: seq<Level>, start: nat, s: Tables, at: Places, p: Path, d: nat)
    requires Shaped(levels) && Inv(levels, start, s, at) && p in at && d < |levels|
    ensures Present(Packed(levels[d], at[p], INT_FLAGS))
    ensures AddrOf(levels[d], Packed(levels[d], at[p], INT_FLAGS)) == at[p]
  {
    hide And, Or, Pow2, Shr, Mask, Packed, AddrOf, Present, Index, Entries;
    assert TableSound(levels, start, s, at, p);
    PointerParts(levels[d], at[p]);
  }

  lemma EntryPresent(levels: seq<Level>, start: nat, s: Tables, at: Places, p: Path, i: nat)
    requires Shaped(levels) && Inv(levels, start, s, at) && Placed(at, p) && |p| + 1 < |levels| && i < Entries(levels[|p|])
    ensures Known(s, RefAt(at, p)) && i < |Node(s, RefAt(at, p))|
    ensures Present(Node(s, RefAt(at, p))[i]) <==> p + [i] in at
    ensures p + [i] in at ==> AddrOf(levels[|p|], Node(s, RefAt(at, p))[i]) == at[p + [i]] && at[p + [i]] in s.tables
    ensures p + [i] !in at ==> AddrOf(levels[|p|], Node(s, RefAt(at, p))[i]) !in s.tables
  {
    hide And, Or, Pow2, Shr, Mask, Packed, AddrOf, Present, Index, Entries, Addressable, Closed, Apart, Shaped;
    assert TableSound(levels, start, s, at, p);
    assert EntrySound(levels, s, at, p, i);
    if p + [i] in at {
      assert TableSound(levels, start, s, at, p + [i]);
      PointerFits(levels, start, s, at, p + [i], |p|);
    } else {
      NoEntry(levels[|p|]);
      forall q | q in at ensures at[q] != 0 {
        assert TableSound(levels, start, s, at, q);
      }
    }
  }

  /** Every table has a page of its own and is reached by an entry above the last level. */
  lemma EveryTableIsLinked(levels: seq<Level>, start: nat, s: Tables, at: Places, a: nat) returns (p: Path, i: nat)
    requires Shaped(levels) && Inv(levels, start, s, at) && a in s.tables
    ensures a % PAGE == 0 && start <= a < s.pagePos
    ensures Placed(at, p) && |p| + 1 < |levels| && Known(s, RefAt(at, p)) && i < |Node(s, RefAt(at, p))|
    ensures Present(Node(s, RefAt(at, p))[i]) && AddrOf(levels[|p|], Node(s, RefAt(at, p))[i]) == a
  {
    hide And, Or, Pow2, Shr, Mask, Packed, AddrOf, Present, Index, Entries, Addressable, Shaped;
    var q :| q in at && at[q] == a;
    assert TableSound(levels, start, s, at, q) && PathSound(levels, at, q);
    p, i := q[..|q| - 1], q[|q| - 1];
    assert q == p + [i];
    EntryPresent(levels, start, s, at, p, i);
  }

  lemma SnocIs(q: Path, j: nat, p: Path, i: nat)
    ensures q + [j] == p + [i] ==> q == p && j == i
  {
    assert (q + [j])[..|q|] == q && (p + [i])[..|p|] == p;
    assert (q + [j])[|q|] == j && (p + [i])[|p|] == i;
  }

  /** No table is reached by two entries. */
  lemma OneEntryPerTable(levels: seq<Level>, start: nat, s: Tables, at: Places, p: Path, i: nat, q: Path, j: nat)
    requires Shaped(levels) && Inv(levels, start, s, at)
    requires Placed(at, p) && |p| + 1 < |levels| && i < Entries(levels[|p|])
    requires Placed(at, q) && |q| + 1 < |levels| && j < Entries(levels[|q|])
    ensures Known(s, RefAt(at, p)) && i < |Node(s, RefAt(at, p))| && Known(s, RefAt(at, q)) && j < |Node(s, RefAt(at, q))|
    ensures
      var e, f := Node(s, RefAt(at, p))[i], Node(s, RefAt(at, q))[j];
      Present(e) && Present(f) && AddrOf(levels[|p|], e) == AddrOf(levels[|q|], f) ==> p == q && i == j
  {
    hide And, Or, Pow2, Shr, Mask, Packed, AddrOf, Present, Index, Entries, Addressable, Shaped, Sound, Linked, Closed;
    EntryPresent(levels, start, s, at, p, i);
    EntryPresent(levels, start, s, at, q, j);
    SnocIs(p, i, q, j);
  }

  // ----- Walking -----

  /** What the hardware finds for `u`: no table, or the entry. */
  function Walk(levels: seq<Level>, s: Tables, r: Ref, d: nat, u: nat): Option<nat>
    requires d < |levels|
    decreases |levels| - d
  {
    var i := Index(levels[d], u);
    if !Known(s, r) || i >= |Node(s, r)| then None
    else if d + 1 == |levels| then Some(Node(s, r)[i])
    else if !Present(Node(s, r)[i]) then None
    else Walk(levels, s, At(AddrOf(levels[d], Node(s, r)[i])), d + 1, u)
  }

  function Look(levels: seq<Level>, s: Tables, u: nat): Option<nat>
    requires |levels| >= 1
  {
    Walk(levels, s, Top, 0, u)
  }

  /** The same by the path of `u`. */
  ghost function Found(levels: seq<Level>, start: nat, s: Tables, at: Places, u: nat): Option<nat>
    requires |levels| >= 1 && Inv(levels, start, s, at)
  {
    var p := TablePath(levels, u);
    if Placed(at, p) then
      assert TableSound(levels, start, s, at, p);
      IndexInTable(levels[|p|], u);
      Some(Node(s, RefAt(at, p))[Index(levels[|p|], u)])
    else None
  }

  lemma {:induction false} WalkFollows(levels: seq<Level>, start: nat, s: Tables, at: Places, u: nat, d: nat)
    requires Shaped(levels) && Inv(levels, start, s, at)
    requires d < |levels| && Placed(at, PathOf(levels, u)[..d])
    ensures Walk(levels, s, RefAt(at, PathOf(levels, u)[..d]), d, u) == Found(levels, start, s, at, u)
    decreases |levels| - d
  {
    hide And, Or, Pow2, Shr, Mask, Packed, AddrOf, Present, Index, Entries;
    var p, i := PathOf(levels, u)[..d], Index(levels[d], u);
    IndexInTable(levels[d], u);
    assert TableSound(levels, start, s, at, p);
    if d + 1 < |levels| {
      assert EntrySound(levels, s, at, p, i);
      assert PathOf(levels, u)[..d + 1] == p + [i];
      if p + [i] in at {
        assert TableSound(levels, start, s, at, p + [i]);
        PointerFits(levels, start, s, at, p + [i], d);
        WalkFollows(levels, start, s, at, u, d + 1);
      } else {
        NoEntry(levels[d]);
        assert TablePath(levels, u)[..d + 1] == p + [i];
        if Placed(at, TablePath(levels, u)) {
          PrefixPlaced(levels, at, TablePath(levels, u), d + 1);
        }
      }
    }
  }

  lemma LookIs(levels: seq<Level>, start: nat, s: Tables, at: Places, u: nat)
    requires Shaped(levels) && Inv(levels, start, s, at)
    ensures Look(levels, s, u) == Found(levels, start, s, at, u)
  {
    WalkFollows(levels, start, s, at, u, 0);
  }

  // ----- Adding a table -----

  /** A table can be added at entry `i` of the table with path `p`. */
  ghost predicate CanGrow(levels: seq<Level>, start: nat, s: Tables, at: Places, p: Path, i: nat) {
    && Shaped(levels) && Inv(levels, start, s, at) && Placed(at, p) && |p| + 1 < |levels|
    && i < Entries(levels[|p|]) && p + [i] !in at && Addressable(levels, s.pagePos + PAGE)
  }

  ghost function Grown(levels: seq<Level>, start: nat, s: Tables, at: Places, p: Path, i: nat): Tables
    requires CanGrow(levels, start, s, at, p, i)
  {
    assert TableSound(levels, start, s, at, p);
    WithChild(levels, s, RefAt(at, p), |p|, i)
  }

  /** What the tables hold afterwards. */
  lemma GrownNodes(levels: seq<Level>, start: nat, s: Tables, at: Places, p: Path, i: nat, q: Path)
    requires CanGrow(levels, start, s, at, p, i) && Placed(at[p + [i] := s.pagePos], q)
    ensures
      var t, at' := Grown(levels, start, s, at, p, i), at[p + [i] := s.pagePos];
      && Known(t, RefAt(at', q)) && t.pagePos == s.pagePos + PAGE
      && if q == p + [i] then Node(t, RefAt(at', q)) == Empty(levels[|p| + 1])
         else
           && Placed(at, q) && TableSound(levels, start, s, at, q) && RefAt(at, q) == RefAt(at', q)
           && Node(t, RefAt(at', q)) ==
              if q == p then Node(s, RefAt(at, q))[i := Packed(levels[|p|], s.pagePos, INT_FLAGS)]
              else Node(s, RefAt(at, q))
  {
    hide And, Or, Pow2, Shr, Mask, Packed, AddrOf, Present, Index, Entries, Addressable, Linked, Closed, Shaped;
    assert TableSound(levels, start, s, at, p);
    if q != p + [i] {
      assert TableSound(levels, start, s, at, q);
    }
  }

  lemma GrownClosed(levels: seq<Level>, start: nat, s: Tables, at: Places, p: Path, i: nat)
    requires CanGrow(levels, start, s, at, p, i)
    ensures Closed(levels, at[p + [i] := s.pagePos])
  {
    hide And, Or, Pow2, Shr, Mask, Packed, AddrOf, Present, Index, Entries, Sound, Linked, Apart, Shaped, Addressable;
    var at' := at[p + [i] := s.pagePos];
    forall q | q in at' ensures PathSound(levels, at', q) {
      if q == p + [i] {
        assert q[..|q| - 1] == p;
      } else {
        assert PathSound(levels, at, q);
      }
    }
  }

  lemma GrownApart(levels: seq<Level>, start: nat, s: Tables, at: Places, p: Path, i: nat)
    requires CanGrow(levels, start, s, at, p, i)
    ensures Apart(at[p + [i] := s.pagePos])
  {
    hide And, Or, Pow2, Shr, Mask, Packed, AddrOf, Present, Index, Entries, Linked, Closed, Shaped, Addressable;
    var at' := at[p + [i] := s.pagePos];
    forall q | q in at ensures at[q] != s.pagePos {
      assert TableSound(levels, start, s, at, q);
    }
  }

  lemma GrownSound(levels: seq<Level>, start: nat, s: Tables, at: Places, p: Path, i: nat)
    requires CanGrow(levels, start, s, at, p, i)
    ensures Sound(levels, start, Grown(levels, start, s, at, p, i), at[p + [i] := s.pagePos])
  {
    hide And, Or, Pow2, Shr, Mask, Packed, AddrOf, Present, Index, Linked, Closed, Apart, Shaped, Addressable;
    var t, at' := Grown(levels, start, s, at, p, i), at[p + [i] := s.pagePos];
    forall q | Placed(at', q) ensures TableSound(levels, start, t, at', q) {
      GrownNodes(levels, start, s, at, p, i, q);
    }
    forall a | a in t.tables ensures a in at'.Values {
      if a == s.pagePos {
        assert at'[p + [i]] == a;
      } else {
        var q :| q in at && at[q] == a;
        assert at'[q] == a;
      }
    }
  }

  lemma NoChildren(levels: seq<Level>, at: Places, q: Path, j: nat)
    requires Closed(levels, at) && q != [] && q !in at
    ensures q + [j] !in at
  {
    assert (q + [j])[..|q|] == q;
    assert q + [j] in at ==> PathSound(levels, at, q + [j]);
  }

  lemma GrownEntry(levels: seq<Level>, start: nat, s: Tables, at: Places, p: Path, i: nat, q: Path, j: nat)
    requires CanGrow(levels, start, s, at, p, i)
    requires Placed(at[p + [i] := s.pagePos], q)
    requires TableSound(levels, start, Grown(levels, start, s, at, p, i), at[p + [i] := s.pagePos], q)
    requires |q| + 1 < |levels| && j < Entries(levels[|q|])
    ensures EntrySound(levels, Grown(levels, start, s, at, p, i), at[p + [i] := s.pagePos], q, j)
  {
    hide And, Or, Pow2, Shr, Mask, Packed, AddrOf, Present, Index, Apart, Shaped, Addressable, WithChild;
    GrownNodes(levels, start, s, at, p, i, q);
    SnocIs(q, j, p, i);
    if q == p + [i] {
      NoChildren(levels, at, q, j);
    } else {
      assert EntrySound(levels, s, at, q, j);
    }
  }

  lemma GrownLinked(levels: seq<Level>, start: nat, s: Tables, at: Places, p: Path, i: nat)
    requires CanGrow(levels, start, s, at, p, i)
    requires Sound(levels, start, Grown(levels, start, s, at, p, i), at[p + [i] := s.pagePos])
    ensures Linked(levels, start, Grown(levels, start, s, at, p, i), at[p + [i] := s.pagePos])
  {
    hide And, Or, Pow2, Shr, Mask, Packed, AddrOf, Present, Index, Apart, Shaped, Addressable;
    var t, at' := Grown(levels, start, s, at, p, i), at[p + [i] := s.pagePos];
    forall q, j: nat | Placed(at', q) && TableSound(levels, start, t, at', q) && |q| + 1 < |levels| && j < Entries(levels[|q|])
      ensures EntrySound(levels, t, at', q, j)
    {
      GrownEntry(levels, start, s, at, p, i, q, j);
    }
  }

  lemma GrownKeeps(levels: seq<Level>, start: nat, s: Tables, at: Places, p: Path, i: nat)
    requires CanGrow(levels, start, s, at, p, i)
    ensures Inv(levels, start, Grown(levels, start, s, at, p, i), at[p + [i] := s.pagePos])
  {
    hide And, Or, Pow2, Shr, Mask, Packed, AddrOf, Present, Index, Entries, Sound, Linked, Closed, Apart, Shaped, Addressable, Grown;
    GrownNodes(levels, start, s, at, p, i, p);
    GrownClosed(levels, start, s, at, p, i);
    GrownApart(levels, start, s, at, p, i);
    GrownSound(levels, start, s, at, p, i);
    GrownLinked(levels, start, s, at, p, i);
  }

  /** A new table only turns a missing table into an empty one. */
  lemma GrownFound(levels: seq<Level>, start: nat, s: Tables, at: Places, p: Path, i: nat, u: nat)
    requires CanGrow(levels, start, s, at, p, i)
    requires Inv(levels, start, Grown(levels, start, s, at, p, i), at[p + [i] := s.pagePos])
    ensures Found(levels, start, Grown(levels, start, s, at, p, i), at[p + [i] := s.pagePos], u) ==
            if TablePath(levels, u) == p + [i] then Some(0) else Found(levels, start, s, at, u)
    ensures TablePath(levels, u) == p + [i] ==> Found(levels, start, s, at, u) == None
  {
    hide And, Or, Pow2, Shr, Mask, Packed, AddrOf, Present, Index, Apart, Shaped, Addressable, Closed, Linked;
    var q, at' := TablePath(levels, u), at[p + [i] := s.pagePos];
    IndexInTable(levels[|q|], u);
    if Placed(at', q) {
      GrownNodes(levels, start, s, at, p, i, q);
    }
  }

  // ----- Writing an entry -----

  /** Entry `i` of the last-level table with path `p` can be written. */
  ghost predicate CanWrite(levels: seq<Level>, start: nat, s: Tables, at: Places, p: Path, i: nat) {
    && |levels| >= 1 && Inv(levels, start, s, at) && Placed(at, p) && |p| + 1 == |levels| && i < Entries(levels[|p|])
  }

  ghost function Wrote(levels: seq<Level>, start: nat, s: Tables, at: Places, p: Path, i: nat, e: nat): Tables
    requires CanWrite(levels, start, s, at, p, i)
  {
    assert TableSound(levels, start, s, at, p);
    WithEntry(s, RefAt(at, p), i, e)
  }

  lemma WroteNodes(levels: seq<Level>, start: nat, s: Tables, at: Places, p: Path, i: nat, e: nat, q: Path)
    requires CanWrite(levels, start, s, at, p, i) && Placed(at, q)
    ensures
      var t := Wrote(levels, start, s, at, p, i, e);
      && Known(t, RefAt(at, q)) && t.pagePos == s.pagePos && t.tables.Keys == s.tables.Keys
      && TableSound(levels, start, s, at, q)
      && Node(t, RefAt(at, q)) == if q == p then Node(s, RefAt(at, q))[i := e] else Node(s, RefAt(at, q))
  {
    hide And, Or, Pow2, Shr, Mask, Packed, AddrOf, Present, Index, Entries, Addressable, Linked, Closed;
    assert TableSound(levels, start, s, at, p);
    assert TableSound(levels, start, s, at, q);
  }

  lemma WroteKeeps(levels: seq<Level>, start: nat, s: Tables, at: Places, p: Path, i: nat, e: nat)
    requires CanWrite(levels, start, s, at, p, i)
    ensures Inv(levels, start, Wrote(levels, start, s, at, p, i, e), at)
  {
    hide And, Or, Pow2, Shr, Mask, Packed, AddrOf, Present, Index, Entries, Addressable, Closed, Apart, WithEntry;
    var t := Wrote(levels, start, s, at, p, i, e);
    WroteNodes(levels, start, s, at, p, i, e, p);
    forall q | Placed(at, q) ensures TableSound(levels, start, t, at, q) {
      WroteNodes(levels, start, s, at, p, i, e, q);
    }
    forall q, j: nat | Placed(at, q) && TableSound(levels, start, t, at, q) && |q| + 1 < |levels| && j < Entries(levels[|q|])
      ensures EntrySound(levels, t, at, q, j)
    {
      WroteNodes(levels, start, s, at, p, i, e, q);
      assert EntrySound(levels, s, at, q, j);
    }
  }

  /** Writing an entry changes what is found for its page and for no other. */
  lemma WroteFound(levels: seq<Level>, start: nat, s: Tables, at: Places, p: Path, i: nat, e: nat, u: nat)
    requires CanWrite(levels, start, s, at, p, i)
    requires Inv(levels, start, Wrote(levels, start, s, at, p, i, e), at)
    ensures Found(levels, start, Wrote(levels, start, s, at, p, i, e), at, u) ==
            if PathOf(levels, u) == p + [i] then Some(e) else Found(levels, start, s, at, u)
  {
    hide And, Or, Pow2, Shr, Mask, Packed, AddrOf, Present, Index, Entries, Addressable, Closed, Apart, Linked, WithEntry;
    var q := TablePath(levels, u);
    IndexInTable(levels[|q|], u);
    assert PathOf(levels, u) == q + [Index(levels[|q|], u)];
    SnocIs(q, Index(levels[|q|], u), p, i);
    if Placed(at, q) {
      WroteNodes(levels, start, s, at, p, i, e, q);
    }
  }

  // ----- The flat map -----

  ghost predicate SamePage(levels: seq<Level>, u: nat, v: nat) { PathOf(levels, u) == PathOf(levels, v) }

  ghost predicate SameTable(levels: seq<Level>, u: nat, v: nat)
    requires |levels| >= 1
  {
    TablePath(levels, u) == TablePath(levels, v)
  }

  /** The address bits that the first `d` levels resolve. */
  function BitsOf(levels: seq<Level>, d: nat): nat
    requires d <= |levels|
  {
    if d == 0 then 0 else levels[d - 1].bits + BitsOf(levels, d - 1)
  }

  /** The size of the address space. */
  function Span(levels: seq<Level>): nat
    requires |levels| >= 1
  {
    Pow2(levels[|levels| - 1].shift + BitsOf(levels, |levels|))
  }

  /** The part of the address of `u` that the first `d` levels resolve. */
  function PartOf(levels: seq<Level>, d: nat, u: nat): nat
    requires 0 < d <= |levels|
  {
    Shr(u, levels[d - 1].shift) % Pow2(BitsOf(levels, d))
  }

  lemma PartSplits(levels: seq<Level>, d: nat, u: nat)
    requires Shaped(levels) && 1 < d <= |levels|
    ensures PartOf(levels, d, u) == Entries(levels[d - 1]) * PartOf(levels, d - 1, u) + Index(levels[d - 1], u)
  {
    hide And, Or, Pow2, Shr, Mask, LevelSound, Index;
    var l, b := levels[d - 1], BitsOf(levels, d - 1);
    var x := Shr(u, l.shift);
    IndexInTable(l, u);
    ShrTwice(u, l.shift, l.bits);
    ShrDivides(x, l.bits);
    Pow2Sum(l.bits, b);
    RemainderSplit(x, Pow2(l.bits), Pow2(b));
  }

  lemma SameDigits(low: nat, h: nat, r: nat, g: nat, q: nat)
    requires r < low && q < low
    ensures low * h + r == low * g + q <==> h == g && r == q
  {
    if low * h + r == low * g + q {
      assert low * (h - g) == q - r;
      Small(low, h - g);
    }
  }

  lemma OneLevel(l: Level)
    ensures Pow2(l.bits) == Entries(l)
  {
  }

  /** The first `d` levels tell two addresses apart exactly by that part. */
  lemma {:induction false} SamePart(levels: seq<Level>, d: nat, u: nat, v: nat)
    requires Shaped(levels) && 0 < d <= |levels|
    ensures PathOf(levels, u)[..d] == PathOf(levels, v)[..d] <==> PartOf(levels, d, u) == PartOf(levels, d, v)
  {
    hide And, Or, Pow2, Shr, Mask, Entries, Index, LevelSound;
    var l := levels[d - 1];
    IndexInTable(l, u);
    IndexInTable(l, v);
    var pu, pv := PathOf(levels, u), PathOf(levels, v);
    assert pu[..d] == pu[..d - 1] + [pu[d - 1]] && pv[..d] == pv[..d - 1] + [pv[d - 1]];
    SnocIs(pu[..d - 1], pu[d - 1], pv[..d - 1], pv[d - 1]);
    if d > 1 {
      SamePart(levels, d - 1, u, v);
      PartSplits(levels, d, u);
      PartSplits(levels, d, v);
      SameDigits(Entries(l), PartOf(levels, d - 1, u), Index(l, u), PartOf(levels, d - 1, v), Index(l, v));
    } else {
      assert pu[..0] == pv[..0];
      assert BitsOf(levels, 1) == l.bits + BitsOf(levels, 0);
      OneLevel(l);
    }
  }

  /** What an entry of the last level covers: the step of map() and set_region_perms(). */
  function Scope(levels: seq<Level>): (r: nat)
    requires |levels| >= 1
    ensures r > 0
  {
    Pow2(levels[|levels| - 1].shift)
  }

  lemma Whole(q: int, b: int)
    requires 0 <= q < b
    ensures q % b == q
  {
  }

  lemma BelowProduct(u: nat, a: nat, b: nat)
    requires a > 0 && u < a * b
    ensures 0 <= u / a < b && u / a % b == u / a
  {
    var q, r := u / a, u % a;
    assert u == a * q + r;
    if q >= b {
      Grows(a, b, q);
    }
    Whole(q, b);
  }

  lemma PartInSpan(levels: seq<Level>, u: nat)
    requires Shaped(levels) && u < Span(levels)
    ensures PartOf(levels, |levels|, u) == u / Scope(levels)
  {
    hide And, Or, Pow2, Shr, Mask, LevelSound, Index, Entries, BitsOf;
    var n, l := |levels|, levels[|levels| - 1];
    ShrDivides(u, l.shift);
    Pow2Sum(l.shift, BitsOf(levels, n));
    BelowProduct(u, Pow2(l.shift), Pow2(BitsOf(levels, n)));
  }

  /** Inside the address space, pages are told apart by their number. */
  lemma SamePageIs(levels: seq<Level>, u: nat, v: nat)
    requires Shaped(levels) && u < Span(levels) && v < Span(levels)
    ensures SamePage(levels, u, v) <==> u / Scope(levels) == v / Scope(levels)
  {
    hide And, Or, Pow2, Shr, Mask, LevelSound, Index, Entries, BitsOf;
    var n := |levels|;
    assert PathOf(levels, u)[..n] == PathOf(levels, u) && PathOf(levels, v)[..n] == PathOf(levels, v);
    SamePart(levels, n, u, v);
    PartInSpan(levels, u);
    PartInSpan(levels, v);
  }

  /** What a table of the last level covers: the step of reserve(). */
  function TableScope(levels: seq<Level>): (r: nat)
    requires |levels| >= 2
    ensures r > 0
  {
    Pow2(levels[|levels| - 2].shift)
  }

  /** Addresses below the same table scope have the same table. */
  lemma SameTableIf(levels: seq<Level>, u: nat, v: nat)
    requires Shaped(levels) && |levels| >= 2 && u / TableScope(levels) == v / TableScope(levels)
    ensures SameTable(levels, u, v)
  {
    hide And, Or, Pow2, Shr, Mask, LevelSound, Index, Entries, BitsOf;
    var n := |levels| - 1;
    ShrDivides(u, levels[n - 1].shift);
    ShrDivides(v, levels[n - 1].shift);
    SamePart(levels, n, u, v);
  }

  lemma TablePartInSpan(levels: seq<Level>, u: nat)
    requires Shaped(levels) && |levels| >= 2 && u < Span(levels)
    ensures PartOf(levels, |levels| - 1, u) == u / TableScope(levels)
  {
    hide And, Or, Pow2, Shr, Mask, LevelSound, Index, Entries;
    var n, l := |levels| - 1, levels[|levels| - 2];
    ShrDivides(u, l.shift);
    assert levels[n].shift + BitsOf(levels, n + 1) == l.shift + BitsOf(levels, n);
    Pow2Sum(l.shift, BitsOf(levels, n));
    BelowProduct(u, Pow2(l.shift), Pow2(BitsOf(levels, n)));
  }

  /** Inside the address space that is the only way to have the same table. */
  lemma SameTableIs(levels: seq<Level>, u: nat, v: nat)
    requires Shaped(levels) && |levels| >= 2 && u < Span(levels) && v < Span(levels)
    ensures SameTable(levels, u, v) <==> u / TableScope(levels) == v / TableScope(levels)
  {
    hide And, Or, Pow2, Shr, Mask, LevelSound, Index, Entries, BitsOf;
    SamePart(levels, |levels| - 1, u, v);
    TablePartInSpan(levels, u);
    TablePartInSpan(levels, v);
  }

  /** What is found for `u` once the tables for `v` exist. */
  ghost function Reserved(levels: seq<Level>, c: Option<nat>, v: nat, u: nat): Option<nat>
    requires |levels| >= 1
  {
    if SameTable(levels, u, v) && c.None? then Some(0) else c
  }

  /** What is found for `u` once `v` is mapped. */
  ghost function Mapped(levels: seq<Level>, c: Option<nat>, v: nat, phys: nat, flags: nat, u: nat): Option<nat>
    requires |levels| >= 1
  {
    if SamePage(levels, u, v) then Some(Packed(levels[|levels| - 1], phys, flags)) else Reserved(levels, c, v, u)
  }

  /** What is found for `u` once the flags of `v` are changed. */
  ghost function Permitted(levels: seq<Level>, c: Option<nat>, v: nat, flags: nat, u: nat): Option<nat>
    requires |levels| >= 1
  {
    if SamePage(levels, u, v) && c.Some? then Some(Packed(levels[|levels| - 1], c.value, flags)) else c
  }

  function Step(base: nat, scope: nat, k: nat): nat {
    if k == 0 then base else Step(base, scope, k - 1) + scope
  }

  ghost function MappedRange(levels: seq<Level>, c: Option<nat>, phys: nat, virt: nat, k: nat, flags: nat, u: nat): Option<nat>
    requires |levels| >= 1
  {
    if k == 0 then c
    else
      var before := MappedRange(levels, c, phys, virt, k - 1, flags, u);
      var paddr, vaddr := Step(phys, Scope(levels), k - 1), Step(virt, Scope(levels), k - 1);
      if phys == virt && paddr == 0 then before else Mapped(levels, before, vaddr, paddr, flags, u)
  }

  ghost function ReservedRange(levels: seq<Level>, c: Option<nat>, virt: nat, k: nat, u: nat): Option<nat>
    requires |levels| >= 2
  {
    if k == 0 then c
    else Reserved(levels, ReservedRange(levels, c, virt, k - 1, u), Step(virt, TableScope(levels), k - 1), u)
  }

  ghost function PermittedRange(levels: seq<Level>, c: Option<nat>, base: nat, k: nat, flags: nat, u: nat): Option<nat>
    requires |levels| >= 1
  {
    if k == 0 then c
    else
      var before := PermittedRange(levels, c, base, k - 1, flags, u);
      var addr := Step(base, Scope(levels), k - 1);
      if addr == 0 then before else Permitted(levels, before, addr, flags, u)
  }

  lemma {:induction false} StepIs(base: nat, scope: nat, k: nat)
    ensures Step(base, scope, k) == base + k * scope
  {
    if k > 0 {
      StepIs(base, scope, k - 1);
    }
  }

  lemma StepBelow(levels: seq<Level>, virt: nat, j: nat, k: nat, u: nat)
    requires |levels| >= 1 && j < k && Step(virt, Scope(levels), k) <= Span(levels)
    requires u < Step(virt, Scope(levels), j) + Scope(levels)
    ensures u < Span(levels) && Step(virt, Scope(levels), k - 1) < Span(levels)
  {
    hide Pow2, Span, Scope;
    StepIs(virt, Scope(levels), j + 1);
    StepIs(virt, Scope(levels), k);
    Grows(Scope(levels), j + 1, k);
  }

  lemma Gathered(virt: nat, s: nat, j: nat)
    requires s > 0 && virt % s == 0
    ensures virt + j * s == s * (virt / s + j)
  {
    var q := virt / s;
    assert virt == s * q;
    assert s * (q + j) == s * q + s * j;
  }

  lemma StepNumber(virt: nat, s: nat, j: nat, u: nat)
    requires s > 0 && virt % s == 0 && Step(virt, s, j) <= u < Step(virt, s, j) + s
    ensures u / s == virt / s + j && Step(virt, s, j) == s * (virt / s + j)
  {
    hide Step;
    StepIs(virt, s, j);
    Gathered(virt, s, j);
    QuotientIs(u, s, virt / s + j, u - Step(virt, s, j));
  }

  /** `u` lies in step `j` of a range, so in no other. */
  lemma StepPage(levels: seq<Level>, virt: nat, j: nat, u: nat, i: nat)
    requires Shaped(levels) && virt % Scope(levels) == 0 && u < Span(levels) && Step(virt, Scope(levels), i) < Span(levels)
    requires Step(virt, Scope(levels), j) <= u < Step(virt, Scope(levels), j) + Scope(levels)
    ensures SamePage(levels, u, Step(virt, Scope(levels), i)) <==> i == j
  {
    hide And, Or, Pow2, Shr, Mask, LevelSound, Index, Entries, Packed, Span, SamePage, Scope;
    var s := Scope(levels);
    StepNumber(virt, s, j, u);
    StepNumber(virt, s, i, Step(virt, s, i));
    SamePageIs(levels, u, Step(virt, s, i));
  }

  /** A page of a mapped range inside the address space: the address at the same offset
      and the supported flags, whatever was there before.  The NULL page of an identity
      mapping is the exception. */
  lemma {:induction false} MappedRangeHit(levels: seq<Level>, c: Option<nat>, phys: nat, virt: nat, k: nat, flags: nat,
                                          u: nat, j: nat)
    requires Shaped(levels) && virt % Scope(levels) == 0 && Step(virt, Scope(levels), k) <= Span(levels)
    requires j < k && Step(virt, Scope(levels), j) <= u < Step(virt, Scope(levels), j) + Scope(levels)
    requires phys != virt || Step(phys, Scope(levels), j) != 0
    ensures MappedRange(levels, c, phys, virt, k, flags, u) ==
            Some(Packed(levels[|levels| - 1], Step(phys, Scope(levels), j), flags))
  {
    hide And, Or, Pow2, Shr, Mask, LevelSound, Index, Entries, Packed, Span, SamePage, Scope;
    StepBelow(levels, virt, j, k, u);
    if j == k - 1 {
      StepPage(levels, virt, j, u, j);
    } else {
      MappedRangeHit(levels, c, phys, virt, k - 1, flags, u, j);
      StepPage(levels, virt, j, u, k - 1);
    }
  }

  lemma StepOther(levels: seq<Level>, virt: nat, i: nat, u: nat)
    requires Shaped(levels) && virt % Scope(levels) == 0 && u < Span(levels)
    requires Step(virt, Scope(levels), i) + Scope(levels) <= Span(levels)
    requires !(Step(virt, Scope(levels), i) <= u < Step(virt, Scope(levels), i) + Scope(levels))
    ensures !SamePage(levels, u, Step(virt, Scope(levels), i))
  {
    hide And, Or, Pow2, Shr, Mask, LevelSound, Index, Entries, Packed, Span, SamePage, Scope;
    var s := Scope(levels);
    var v := Step(virt, s, i);
    StepNumber(virt, s, i, v);
    SamePageIs(levels, u, v);
    assert u == s * (u / s) + u % s;
  }

  /** A page outside of a mapped range keeps what it had, at most getting a table. */
  lemma {:induction false} MappedRangeMiss(levels: seq<Level>, c: Option<nat>, phys: nat, virt: nat, k: nat, flags: nat, u: nat)
    requires Shaped(levels) && virt % Scope(levels) == 0 && Step(virt, Scope(levels), k) <= Span(levels) && u < Span(levels)
    requires forall j | 0 <= j < k && Step(virt, Scope(levels), j) <= u < Step(virt, Scope(levels), j) + Scope(levels) ::
      phys == virt && Step(phys, Scope(levels), j) == 0
    ensures
      var r := MappedRange(levels, c, phys, virt, k, flags, u);
      r == c || (c.None? && r == Some(0))
  {
    hide And, Or, Pow2, Shr, Mask, LevelSound, Index, Entries, Packed, Span, SamePage, Scope;
    if k > 0 {
      MappedRangeMiss(levels, c, phys, virt, k - 1, flags, u);
      if phys != virt || Step(phys, Scope(levels), k - 1) != 0 {
        StepOther(levels, virt, k - 1, u);
      }
    }
  }

  /** Every page of a reserved range has a table; nothing else about it changes. */
  lemma {:induction false} ReservedRangeIs(levels: seq<Level>, c: Option<nat>, virt: nat, k: nat, u: nat)
    requires Shaped(levels) && |levels| >= 2 && virt % TableScope(levels) == 0
    ensures
      var r := ReservedRange(levels, c, virt, k, u);
      (r == c || (c.None? && r == Some(0))) && (virt <= u < Step(virt, TableScope(levels), k) ==> r.Some?)
  {
    hide And, Or, Pow2, Shr, Mask, LevelSound, Index, Entries, TableScope, SameTable;
    if k > 0 {
      var s := TableScope(levels);
      ReservedRangeIs(levels, c, virt, k - 1, u);
      if Step(virt, s, k - 1) <= u < Step(virt, s, k) {
        StepNumber(virt, s, k - 1, u);
        StepNumber(virt, s, k - 1, Step(virt, s, k - 1));
        SameTableIf(levels, u, Step(virt, s, k - 1));
      }
    }
  }

  lemma {:induction false} NeverBack(base: nat, scope: nat, k: nat)
    ensures base <= Step(base, scope, k)
  {
    if k > 0 {
      NeverBack(base, scope, k - 1);
    }
  }

  lemma Stretch(s: nat, u: nat)
    requires s > 0
    ensures s * (u / s) <= u < s * (u / s) + s
  {
  }

  /** And no page outside of it gets one. */
  lemma {:induction false} ReservedRangeMiss(levels: seq<Level>, virt: nat, k: nat, u: nat)
    requires Shaped(levels) && |levels| >= 2 && virt % TableScope(levels) == 0 && u < Span(levels)
    requires Step(virt, TableScope(levels), k) <= Span(levels) && !(virt <= u < Step(virt, TableScope(levels), k))
    ensures ReservedRange(levels, None, virt, k, u) == None
  {
    hide And, Or, Pow2, Shr, Mask, LevelSound, Index, Entries, TableScope, SameTable, Span;
    if k > 0 {
      var s := TableScope(levels);
      var v := Step(virt, s, k - 1);
      ReservedRangeMiss(levels, virt, k - 1, u);
      StepNumber(virt, s, k - 1, v);
      NeverBack(virt, s, k - 1);
      SameTableIs(levels, u, v);
      Stretch(s, u);
    }
  }

  /** Changing flags never changes an address, nor which pages have a table. */
  lemma {:induction false} PermittedRangeKeeps(levels: seq<Level>, c: Option<nat>, base: nat, k: nat, flags: nat, u: nat)
    requires Shaped(levels)
    ensures
      var r, l := PermittedRange(levels, c, base, k, flags, u), levels[|levels| - 1];
      r.Some? == c.Some? && (c.Some? ==> AddrOf(l, r.value) == AddrOf(l, c.value))
  {
    hide And, Or, Pow2, Shr, Mask, LevelSound, Index, Entries, Packed, SamePage, Scope;
    if k > 0 {
      PermittedRangeKeeps(levels, c, base, k - 1, flags, u);
      var before := PermittedRange(levels, c, base, k - 1, flags, u);
      if before.Some? {
        PackedParts(levels[|levels| - 1], before.value, flags);
      }
    }
  }

  /** The pages of a region get the supported ones of the new flags.  Page 0 is the exception. */
  lemma {:induction false} PermittedRangeHit(levels: seq<Level>, c: Option<nat>, base: nat, k: nat, flags: nat, u: nat, j: nat)
    requires Shaped(levels) && base % Scope(levels) == 0 && Step(base, Scope(levels), k) <= Span(levels)
    requires c.Some? && j < k && Step(base, Scope(levels), j) <= u < Step(base, Scope(levels), j) + Scope(levels)
    requires Step(base, Scope(levels), j) != 0
    ensures
      var r, l := PermittedRange(levels, c, base, k, flags, u), levels[|levels| - 1];
      r.Some? && And(r.value, l.flags) == And(flags, l.flags)
  {
    hide And, Or, Pow2, Shr, Mask, LevelSound, Index, Entries, Packed, SamePage, Scope, Span;
    StepBelow(levels, base, j, k, u);
    StepPage(levels, base, j, u, k - 1);
    if j < k - 1 {
      PermittedRangeHit(levels, c, base, k - 1, flags, u, j);
    } else {
      var before := PermittedRange(levels, c, base, k - 1, flags, u);
      PermittedRangeKeeps(levels, c, base, k - 1, flags, u);
      PackedParts(levels[|levels| - 1], before.value, flags);
    }
  }

  /** A page outside of the region keeps its entry. */
  lemma {:induction false} PermittedRangeMiss(levels: seq<Level>, c: Option<nat>, base: nat, k: nat, flags: nat, u: nat)
    requires Shaped(levels) && base % Scope(levels) == 0 && Step(base, Scope(levels), k) <= Span(levels) && u < Span(levels)
    requires forall j | 0 <= j < k && Step(base, Scope(levels), j) <= u < Step(base, Scope(levels), j) + Scope(levels) ::
      Step(base, Scope(levels), j) == 0
    ensures PermittedRange(levels, c, base, k, flags, u) == c
  {
    hide And, Or, Pow2, Shr, Mask, LevelSound, Index, Entries, Packed, Span, SamePage, Scope;
    if k > 0 {
      PermittedRangeMiss(levels, c, base, k - 1, flags, u);
      if Step(base, Scope(levels), k - 1) != 0 {
        StepOther(levels, base, k - 1, u);
      }
    }
  }

  /** Space that mapping `k` pages can need for new tables. */
  function Need(levels: seq<Level>, k: nat): nat
    requires |levels| >= 1
  {
    if k == 0 then 0 else Need(levels, k - 1) + PAGE * (|levels| - 1)
  }

  lemma {:induction false} NeedGrows(levels: seq<Level>, j: nat, k: nat)
    requires |levels| >= 1 && j <= k
    ensures Need(levels, j) <= Need(levels, k)
  {
    if j < k {
      NeedGrows(levels, j, k - 1);
    }
  }

  function Quotient(x: nat, d: nat): nat
    requires d > 0
  {
    x / d
  }

  /** How many pages a range of `size` bytes is. */
  function Pages(levels: seq<Level>, size: nat): nat
    requires |levels| >= 1
  {
    Quotient(size, Scope(levels))
  }

  function Ceil(size: nat, scope: nat): nat
    requires scope > 0
  {
    (size + scope - 1) / scope
  }

  function VirtOf(phys: nat, virt: Option<nat>): nat { if virt.None? then phys else virt.value }

  /** The alignment checks of map() and reserve(). */
  predicate MapAligned(levels: seq<Level>, phys: nat, virt: Option<nat>, size: nat)
    requires |levels| >= 1
  {
    phys % Scope(levels) == 0 && size % Scope(levels) == 0 && VirtOf(phys, virt) % Scope(levels) == 0
  }

  predicate ReserveAligned(levels: seq<Level>, virt: nat, size: nat)
    requires |levels| >= 2
  {
    virt % PAGE == 0 && size % PAGE == 0 && virt % TableScope(levels) == 0
  }

  predicate PermsAligned(levels: seq<Level>, base: nat, size: nat)
    requires |levels| >= 1
  {
    size == 0 || (base % Scope(levels) == 0 && size % Scope(levels) == 0)
  }

  datatype Outcome = Done | Unaligned | NoMapping

  /** The calls that build a set of page tables. */
  datatype Request =
    | Mapping(phys: nat, virt: Option<nat>, size: nat, flags: nat)
    | Reservation(base: nat, size: nat)
    | Permission(base: nat, size: nat, flags: nat)

  ghost function FlatStep(levels: seq<Level>, c: Option<nat>, request: Request, u: nat): Option<nat>
    requires |levels| >= 2
  {
    match request
    case Mapping(phys, virt, size, flags) => MappedRange(levels, c, phys, VirtOf(phys, virt), Pages(levels, size), flags, u)
    case Reservation(virt, size) => ReservedRange(levels, c, virt, Ceil(size, TableScope(levels)), u)
    case Permission(base, size, flags) => PermittedRange(levels, c, base, Pages(levels, size), flags, u)
  }

  /** The flat map after a sequence of calls: what each address has, with no tables. */
  ghost function Flat(levels: seq<Level>, requests: seq<Request>, u: nat): Option<nat>
    requires |levels| >= 2
  {
    if requests == [] then None
    else FlatStep(levels, Flat(levels, requests[..|requests| - 1], u), requests[|requests| - 1], u)
  }

  /** The calls that do not stop the program. */
  ghost predicate Accepted(levels: seq<Level>, requests: seq<Request>, k: nat)
    requires |levels| >= 2 && k < |requests|
  {
    match requests[k]
    case Mapping(phys, virt, size, _) => MapAligned(levels, phys, virt, size)
    case Reservation(virt, size) => ReserveAligned(levels, virt, size)
    case Permission(base, size, _) =>
      && PermsAligned(levels, base, size)
      && forall j | 0 <= j < Pages(levels, size) && Step(base, Scope(levels), j) != 0 ::
        Flat(levels, requests[..k], Step(base, Scope(levels), j)).Some?
  }

  /** Step `j` of a mapping holds `u`, and is not the NULL page of an identity mapping. */
  ghost predicate Covers(levels: seq<Level>, request: Request, j: nat, u: nat)
    requires |levels| >= 2 && request.Mapping?
  {
    var virt, scope := VirtOf(request.phys, request.virt), Scope(levels);
    && j < Pages(levels, request.size) && Step(virt, scope, j) <= u < Step(virt, scope, j) + scope
    && (request.phys != virt || Step(request.phys, scope, j) != 0)
  }

  /** A mapping is aligned and inside the address space. */
  ghost predicate InSpace(levels: seq<Level>, request: Request)
    requires |levels| >= 2 && request.Mapping?
  {
    var virt, scope := VirtOf(request.phys, request.virt), Scope(levels);
    virt % scope == 0 && Step(virt, scope, Pages(levels, request.size)) <= Span(levels)
  }

  /** Not a mapping of `u`. */
  ghost predicate Spares(levels: seq<Level>, request: Request, u: nat)
    requires |levels| >= 2
  {
    request.Mapping? ==> InSpace(levels, request) && forall j: nat :: !Covers(levels, request, j, u)
  }

  /** Step `j` of a change of flags holds `u`, and is not page 0. */
  ghost predicate PaintsAt(levels: seq<Level>, request: Request, j: nat, u: nat)
    requires |levels| >= 2 && request.Permission?
  {
    var base, scope := request.base, Scope(levels);
    j < Pages(levels, request.size) && Step(base, scope, j) <= u < Step(base, scope, j) + scope && Step(base, scope, j) != 0
  }

  ghost predicate Paints(levels: seq<Level>, request: Request, u: nat)
    requires |levels| >= 2
  {
    request.Permission? && exists j: nat :: PaintsAt(levels, request, j, u)
  }

  /** A change of flags is aligned and inside the address space. */
  ghost predicate PaintsInSpace(levels: seq<Level>, request: Request)
    requires |levels| >= 2
  {
    request.Permission? ==>
      var base, scope := request.base, Scope(levels);
      base % scope == 0 && Step(base, scope, Pages(levels, request.size)) <= Span(levels)
  }

  /** The flags asked last for the page of `u`. */
  ghost function LastFlags(levels: seq<Level>, flags: nat, after: seq<Request>, u: nat): nat
    requires |levels| >= 2
  {
    if after == [] then flags
    else
      var last := after[|after| - 1];
      if Paints(levels, last, u) then last.flags else LastFlags(levels, flags, after[..|after| - 1], u)
  }

  /** A mapping of other pages, and any reservation, leaves an entry alone. */
  lemma SparedMapping(levels: seq<Level>, c: Option<nat>, request: Request, u: nat)
    requires Shaped(levels) && |levels| >= 2 && request.Mapping? && Spares(levels, request, u) && u < Span(levels)
    ensures
      var r := FlatStep(levels, c, request, u);
      r == c || (c.None? && r == Some(0))
  {
    hide Shaped, Pow2, Scope, Span, MappedRange, Pages, Step, VirtOf;
    var base, scope := VirtOf(request.phys, request.virt), Scope(levels);
    forall j | 0 <= j < Pages(levels, request.size) && Step(base, scope, j) <= u < Step(base, scope, j) + scope
      ensures request.phys == base && Step(request.phys, scope, j) == 0
    {
      assert !Covers(levels, request, j, u);
    }
    MappedRangeMiss(levels, c, request.phys, base, Pages(levels, request.size), request.flags, u);
  }

  lemma {:induction false} ReservedKeeps(levels: seq<Level>, c: Option<nat>, virt: nat, k: nat, u: nat)
    requires |levels| >= 2
    ensures
      var r := ReservedRange(levels, c, virt, k, u);
      r == c || (c.None? && r == Some(0))
  {
    hide Pow2, SameTable, TableScope;
    if k > 0 {
      ReservedKeeps(levels, c, virt, k - 1, u);
    }
  }

  /** A change of flags keeps the address, and sets the flags of the pages it paints only. */
  lemma PaintedOrNot(levels: seq<Level>, c: Option<nat>, request: Request, u: nat)
    requires Shaped(levels) && |levels| >= 2 && request.Permission? && u < Span(levels)
    ensures
      var r, l := FlatStep(levels, c, request, u), levels[|levels| - 1];
      && r.Some? == c.Some? && (c.Some? ==> AddrOf(l, r.value) == AddrOf(l, c.value))
      && (PaintsInSpace(levels, request) && c.Some? ==>
            if Paints(levels, request, u) then And(r.value, l.flags) == And(request.flags, l.flags) else r == c)
  {
    hide Shaped, And, Pow2, Scope, Span, AddrOf, PermittedRange, Pages, Step;
    var base, scope := request.base, Scope(levels);
    PermittedRangeKeeps(levels, c, base, Pages(levels, request.size), request.flags, u);
    if PaintsInSpace(levels, request) && c.Some? {
      if Paints(levels, request, u) {
        var j: nat :| PaintsAt(levels, request, j, u);
        PermittedRangeHit(levels, c, base, Pages(levels, request.size), request.flags, u, j);
      } else {
        forall j | 0 <= j < Pages(levels, request.size) && Step(base, scope, j) <= u < Step(base, scope, j) + scope
          ensures Step(base, scope, j) == 0
        {
          assert !PaintsAt(levels, request, j, u);
        }
        PermittedRangeMiss(levels, c, base, Pages(levels, request.size), request.flags, u);
      }
    }
  }

  lemma Unpainted(levels: seq<Level>, request: Request, u: nat)
    requires |levels| >= 2 && !request.Permission?
    ensures !Paints(levels, request, u)
  {
  }

  /** A call that does not map `u` keeps the address, and the flags unless it paints `u`. */
  lemma SparedKeeps(levels: seq<Level>, c: Option<nat>, request: Request, u: nat)
    requires Shaped(levels) && |levels| >= 2 && Spares(levels, request, u) && u < Span(levels)
    ensures
      var r, l := FlatStep(levels, c, request, u), levels[|levels| - 1];
      && (c.Some? ==> r.Some? && AddrOf(l, r.value) == AddrOf(l, c.value))
      && (PaintsInSpace(levels, request) && c.Some? ==>
            And(r.value, l.flags) == And(if Paints(levels, request, u) then request.flags else c.value, l.flags))
      && (c.None? && r.Some? ==> r == Some(0))
  {
    hide Shaped, And, Pow2, Scope, TableScope, Span, AddrOf, MappedRange, ReservedRange, PermittedRange, Spares, Paints,
      PaintsInSpace;
    match request
    case Mapping(_, _, _, _) =>
      SparedMapping(levels, c, request, u);
      Unpainted(levels, request, u);
    case Reservation(base, size) =>
      ReservedKeeps(levels, c, base, Ceil(size, TableScope(levels)), u);
      Unpainted(levels, request, u);
    case Permission(_, _, _) =>
      PaintedOrNot(levels, c, request, u);
  }

  lemma MappingGives(levels: seq<Level>, c: Option<nat>, m: Request, j: nat, u: nat)
    requires Shaped(levels) && |levels| >= 2 && m.Mapping? && InSpace(levels, m) && Covers(levels, m, j, u)
    ensures
      var r, l := FlatStep(levels, c, m, u), levels[|levels| - 1];
      && r.Some? && AddrOf(l, r.value) == And(Step(m.phys, Scope(levels), j), Mask(l))
      && And(r.value, l.flags) == And(m.flags, l.flags)
  {
    hide And, Or, Pow2, Mask, LevelSound, Packed, Span, Scope, Pages, MappedRange, AddrOf;
    MappedRangeHit(levels, c, m.phys, VirtOf(m.phys, m.virt), Pages(levels, m.size), m.flags, u, j);
    PackedParts(levels[|levels| - 1], Step(m.phys, Scope(levels), j), m.flags);
  }

  /** The last mapping of an address is the one that counts: it gives the physical address
      whatever was mapped before, and reservations, changes of flags and mappings of other
      pages do not disturb it.  The flags are those of the last change of flags that
      paints the page, and those of the mapping if there is none. */
  lemma {:induction false} LastMappingCounts(levels: seq<Level>, before: seq<Request>, m: Request, after: seq<Request>, j: nat, u: nat)
    requires Shaped(levels) && |levels| >= 2 && m.Mapping? && InSpace(levels, m) && Covers(levels, m, j, u)
    requires forall r | r in after :: Spares(levels, r, u)
    ensures
      var c, l := Flat(levels, before + [m] + after, u), levels[|levels| - 1];
      && c.Some? && AddrOf(l, c.value) == And(Step(m.phys, Scope(levels), j), Mask(l))
      && ((forall r | r in after :: PaintsInSpace(levels, r)) ==>
            And(c.value, l.flags) == And(LastFlags(levels, m.flags, after, u), l.flags))
  {
    hide And, Or, Pow2, Shr, Mask, LevelSound, Index, Entries, Packed, Span, Scope, Pages, TableScope, AddrOf, Spares, FlatStep,
      Paints, PaintsInSpace;
    var all, l := before + [m] + after, levels[|levels| - 1];
    if after == [] {
      assert all[..|all| - 1] == before && all[|all| - 1] == m;
      MappingGives(levels, Flat(levels, before, u), m, j, u);
    } else {
      var most, last := after[..|after| - 1], after[|after| - 1];
      assert all[..|all| - 1] == before + [m] + most && all[|all| - 1] == last;
      LastMappingCounts(levels, before, m, most, j, u);
      var virt, scope := VirtOf(m.phys, m.virt), Scope(levels);
      StepBelow(levels, virt, j, Pages(levels, m.size), u);
      assert last in after;
      SparedKeeps(levels, Flat(levels, before + [m] + most, u), last, u);
    }
  }

  /** The flags asked last for the page of `u` once it had a table. */
  ghost function GivenFlags(levels: seq<Level>, requests: seq<Request>, u: nat): nat
    requires |levels| >= 2
  {
    if requests == [] then 0
    else
      var most, last := requests[..|requests| - 1], requests[|requests| - 1];
      if Paints(levels, last, u) && Flat(levels, most, u).Some? then last.flags else GivenFlags(levels, most, u)
  }

  /** A page that is never mapped can still become present: the flags that a change of
      flags asks for are set, over the physical address 0. */
  lemma {:induction false} NeverMapped(levels: seq<Level>, requests: seq<Request>, u: nat)
    requires Shaped(levels) && |levels| >= 2 && u < Span(levels)
    requires forall r | r in requests :: Spares(levels, r, u) && PaintsInSpace(levels, r)
    ensures
      var c, l := Flat(levels, requests, u), levels[|levels| - 1];
      c.Some? ==> AddrOf(l, c.value) == 0 && And(c.value, l.flags) == And(GivenFlags(levels, requests, u), l.flags)
    ensures Flat(levels, requests, u).None? ==> GivenFlags(levels, requests, u) == 0
  {
    hide And, Or, Pow2, Shr, Mask, LevelSound, Index, Entries, Packed, Span, Scope, Pages, TableScope, AddrOf, Spares, FlatStep,
      Paints, PaintsInSpace;
    if requests != [] {
      var most, last := requests[..|requests| - 1], requests[|requests| - 1];
      NeverMapped(levels, most, u);
      assert last in requests;
      SparedKeeps(levels, Flat(levels, most, u), last, u);
      NoEntry(levels[|levels| - 1]);
    }
  }

  /** The present bit is a supported flag of every level. */
  lemma LowestBit(x: nat, flags: nat)
    requires Odd(flags)
    ensures Present(x) <==> Odd(x)
    ensures Odd(And(x, flags)) <==> Odd(x)
  {
    AndUnfold(x, flags);
    assert And(x / 2, 0) == 0;
  }

  /** A page that is never mapped is present exactly if the flags given last to it say so. */
  lemma GivenFlagsDecide(levels: seq<Level>, requests: seq<Request>, u: nat)
    requires Shaped(levels) && |levels| >= 2 && u < Span(levels)
    requires forall r | r in requests :: Spares(levels, r, u) && PaintsInSpace(levels, r)
    ensures
      var c := Flat(levels, requests, u);
      c.Some? && Present(c.value) <==> Odd(GivenFlags(levels, requests, u))
  {
    hide And, Or, Pow2, Shr, Mask, Index, Entries, Packed, Span, Scope, Pages, TableScope, AddrOf, Spares, FlatStep, Flat, GivenFlags,
      Paints, PaintsInSpace;
    NeverMapped(levels, requests, u);
    var c, l := Flat(levels, requests, u), levels[|levels| - 1];
    assert LevelSound(l);
    if c.Some? {
      LowestBit(c.value, l.flags);
      LowestBit(GivenFlags(levels, requests, u), l.flags);
    }
  }

  /** Addresses of the same page never differ in what is found for them. */
  lemma {:induction false} RangesSame(levels: seq<Level>, c: Option<nat>, phys: nat, virt: nat, k: nat, flags: nat, u: nat, v: nat)
    requires |levels| >= 2 && SamePage(levels, u, v)
    ensures MappedRange(levels, c, phys, virt, k, flags, u) == MappedRange(levels, c, phys, virt, k, flags, v)
    ensures ReservedRange(levels, c, virt, k, u) == ReservedRange(levels, c, virt, k, v)
    ensures PermittedRange(levels, c, virt, k, flags, u) == PermittedRange(levels, c, virt, k, flags, v)
  {
    hide PathOf, Packed, Scope, TableScope, Step;
    if k > 0 {
      RangesSame(levels, c, phys, virt, k - 1, flags, u, v);
    }
  }

  lemma {:induction false} FlatSame(levels: seq<Level>, requests: seq<Request>, u: nat, v: nat)
    requires |levels| >= 2 && SamePage(levels, u, v)
    ensures Flat(levels, requests, u) == Flat(levels, requests, v)
  {
    hide SamePage, MappedRange, ReservedRange, PermittedRange, Pages, Scope, TableScope, Ceil, VirtOf;
    if requests != [] {
      var most, last := requests[..|requests| - 1], requests[|requests| - 1];
      FlatSame(levels, most, u, v);
      var c := Flat(levels, most, u);
      match last
      case Mapping(phys, virt, size, flags) =>
        RangesSame(levels, c, phys, VirtOf(phys, virt), Pages(levels, size), flags, u, v);
      case Reservation(virt, size) =>
        RangesSame(levels, c, 0, virt, Ceil(size, TableScope(levels)), 0, u, v);
      case Permission(base, size, flags) =>
        RangesSame(levels, c, 0, base, Pages(levels, size), flags, u, v);
    }
  }

  /** A change of flags is accepted only if the pages that it paints have a table. */
  lemma AcceptedHasTable(levels: seq<Level>, requests: seq<Request>, k: nat, u: nat)
    requires Shaped(levels) && |levels| >= 2 && u < Span(levels) && k < |requests| && Accepted(levels, requests, k)
    requires Paints(levels, requests[k], u) && PaintsInSpace(levels, requests[k])
    ensures Flat(levels, requests[..k], u).Some?
  {
    hide Shaped, Pow2, Scope, Span, Pages, Step, Flat, SamePage;
    var r := requests[k];
    var j: nat :| PaintsAt(levels, r, j, u);
    StepPage(levels, r.base, j, u, j);
    FlatSame(levels, requests[..k], u, Step(r.base, Scope(levels), j));
  }

  lemma AcceptedPrefix(levels: seq<Level>, requests: seq<Request>, n: nat, k: nat)
    requires |levels| >= 2 && k < n <= |requests| && Accepted(levels, requests, k)
    ensures Accepted(levels, requests[..n], k)
  {
    hide Flat, Pages, Scope, TableScope, MapAligned, ReserveAligned, PermsAligned;
    assert requests[..n][..k] == requests[..k];
  }

  /** In a build that nothing stops the flags given last are those asked last. */
  lemma {:induction false} GivenAreAsked(levels: seq<Level>, requests: seq<Request>, u: nat)
    requires Shaped(levels) && |levels| >= 2 && u < Span(levels)
    requires forall k | 0 <= k < |requests| :: Accepted(levels, requests, k) && PaintsInSpace(levels, requests[k])
    ensures GivenFlags(levels, requests, u) == LastFlags(levels, 0, requests, u)
  {
    hide Shaped, Span, Accepted, Paints, PaintsInSpace, Flat;
    if requests != [] {
      var n := |requests| - 1;
      var most := requests[..n];
      assert Accepted(levels, requests, n);
      if Paints(levels, requests[n], u) {
        AcceptedHasTable(levels, requests, n, u);
      }
      forall k | 0 <= k < n ensures Accepted(levels, most, k) && PaintsInSpace(levels, most[k]) {
        assert Accepted(levels, requests, k);
        AcceptedPrefix(levels, requests, n, k);
      }
      GivenAreAsked(levels, most, u);
    }
  }

  /** In a build that nothing stops, a page that is never mapped is present exactly if the last
      change of flags that covers it asks for that. */
  lemma NeverMappedPresentIff(levels: seq<Level>, requests: seq<Request>, u: nat)
    requires Shaped(levels) && |levels| >= 2 && u < Span(levels)
    requires forall r | r in requests :: Spares(levels, r, u) && PaintsInSpace(levels, r)
    requires forall k | 0 <= k < |requests| :: Accepted(levels, requests, k)
    ensures
      var c := Flat(levels, requests, u);
      c.Some? && Present(c.value) <==> Odd(LastFlags(levels, 0, requests, u))
  {
    hide Shaped, Span, Accepted, Spares, PaintsInSpace, Flat, GivenFlags, LastFlags, Present;
    GivenAreAsked(levels, requests, u);
    GivenFlagsDecide(levels, requests, u);
  }

  /** The last of the steps that cover `size` bytes begins among them. */
  lemma CeilIs(size: nat, scope: nat)
    requires scope > 0
    ensures size <= Ceil(size, scope) * scope < size + scope
  {
    var q := Ceil(size, scope);
    assert size + scope - 1 == q * scope + (size + scope - 1) % scope;
  }

  lemma NextMultiple(s: nat, b: nat, c: nat)
    ensures if b < c then s * b + s <= s * c else s * c <= s * b
  {
    if b < c {
      Grows(s, b + 1, c);
    } else {
      Grows(s, c, b);
    }
  }

  /** The step of `size` bytes from `virt` on in which `u` lies. */
  lemma InSteps(virt: nat, size: nat, scope: nat, u: nat)
    requires scope > 0 && virt % scope == 0
    ensures virt <= u < Step(virt, scope, Ceil(size, scope)) <==> virt <= u && scope * (u / scope) < virt + size
  {
    hide Ceil, Step;
    var k, a, b := Ceil(size, scope), virt / scope, u / scope;
    CeilIs(size, scope);
    StepIs(virt, scope, k);
    Gathered(virt, scope, k);
    Stretch(scope, u);
    NextMultiple(scope, b, a + k);
  }

  /** A reservation makes the tables that the region touches, and no other. */
  lemma ReservationGives(levels: seq<Level>, virt: nat, size: nat, u: nat)
    requires Shaped(levels) && |levels| >= 2 && virt % TableScope(levels) == 0 && u < Span(levels)
    requires Step(virt, TableScope(levels), Ceil(size, TableScope(levels))) <= Span(levels)
    ensures
      var c := Flat(levels, [Reservation(virt, size)], u);
      && c == (if c.Some? then Some(0) else None)
      && (c.Some? <==> virt <= u && TableScope(levels) * (u / TableScope(levels)) < virt + size)
  {
    hide And, Pow2, Span, TableScope, Ceil, Shaped, Step, ReservedRange;
    var s, k := TableScope(levels), Ceil(size, TableScope(levels));
    assert [Reservation(virt, size)][..0] == [] && Flat(levels, [], u) == None;
    InSteps(virt, size, s, u);
    ReservedRangeIs(levels, None, virt, k, u);
    if !(virt <= u < Step(virt, s, k)) {
      ReservedRangeMiss(levels, virt, k, u);
    }
  }

  lemma FlatLast(levels: seq<Level>, before: seq<Request>, last: Request, u: nat)
    requires |levels| >= 2
    ensures Flat(levels, before + [last], u) == FlatStep(levels, Flat(levels, before, u), last, u)
  {
    hide FlatStep;
    var all := before + [last];
    assert all[..|all| - 1] == before && all[|all| - 1] == last;
  }

  lemma Covered(levels: seq<Level>, m: Request, v: nat, u: nat) returns (j: nat)
    requires Shaped(levels) && |levels| >= 2 && m.Mapping? && (m.virt == Some(v) || (m.virt == None && v == m.phys))
    requires MapAligned(levels, m.phys, m.virt, m.size) && v + m.size <= Span(levels)
    requires v <= u < v + m.size && (v == m.phys ==> Scope(levels) <= u)
    ensures InSpace(levels, m) && Covers(levels, m, j, u) && j == Quotient(u - v, Scope(levels))
  {
    hide Pow2, Span, Scope, Shaped, Step;
    var s := Scope(levels);
    var d := u - v;
    j := d / s;
    assert d == j * s + d % s;
    var k := m.size / s;
    assert m.size == s * k;
    StepIs(v, s, j);
    StepIs(v, s, k);
    StepIs(m.phys, s, j);
    if j >= k {
      Grows(s, k, j);
    }
  }

  /** A mapping without a virtual address maps its pages to themselves, and one with a virtual
      address each page to the physical one at the same offset; only the NULL page is left
      out of a mapping of pages to themselves. */
  lemma MapsAtOffset(levels: seq<Level>, before: seq<Request>, m: Request, v: nat, u: nat)
    requires Shaped(levels) && |levels| >= 2 && m.Mapping? && (m.virt == Some(v) || (m.virt == None && v == m.phys))
    requires MapAligned(levels, m.phys, m.virt, m.size) && v + m.size <= Span(levels)
    requires v <= u < v + m.size && (v == m.phys ==> Scope(levels) <= u)
    ensures
      var c, l, s := Flat(levels, before + [m], u), levels[|levels| - 1], Scope(levels);
      && c.Some? && AddrOf(l, c.value) == And(Step(m.phys, s, Quotient(u - v, s)), Mask(l))
      && And(c.value, l.flags) == And(m.flags, l.flags)
  {
    hide And, Pow2, Mask, Span, Scope, Shaped, AddrOf, FlatStep, Flat, Step, Quotient, MapAligned, InSpace, Covers;
    var j := Covered(levels, m, v, u);
    FlatLast(levels, before, m, u);
    MappingGives(levels, Flat(levels, before, u), m, j, u);
  }

  lemma PermissionSpares(levels: seq<Level>, r: Request, u: nat)
    requires |levels| >= 2 && !r.Mapping?
    ensures Spares(levels, r, u) && (r.Reservation? ==> PaintsInSpace(levels, r))
  {
  }

  /** A page that was only reserved maps physical page 0 after a change of its flags. */
  lemma ReservedPageBecomesPresent(levels: seq<Level>, virt: nat, size: nat, p: Request, u: nat)
    requires Shaped(levels) && |levels| >= 2 && u < Span(levels) && virt % TableScope(levels) == 0
    requires virt <= u < Step(virt, TableScope(levels), Ceil(size, TableScope(levels)))
    requires p.Permission? && Paints(levels, p, u) && PaintsInSpace(levels, p) && Odd(p.flags)
    ensures
      var c, l := Flat(levels, [Reservation(virt, size), p], u), levels[|levels| - 1];
      c.Some? && Present(c.value) && AddrOf(l, c.value) == 0
  {
    hide And, Pow2, Mask, LevelSound, Span, Scope, TableScope, AddrOf, Present, Paints, PaintsInSpace, ReservedRange,
      PermittedRange, Ceil;
    var first := Reservation(virt, size);
    assert [first, p][..1] == [first] && [first][..0] == [];
    ReservedRangeIs(levels, None, virt, Ceil(size, TableScope(levels)), u);
    assert Flat(levels, [first], u).Some? by { assert Flat(levels, [], u) == None; }
    Unpainted(levels, first, u);
    forall r | r in [first, p] ensures Spares(levels, r, u) && PaintsInSpace(levels, r) {
      PermissionSpares(levels, r, u);
    }
    NeverMapped(levels, [first, p], u);
    GivenFlagsDecide(levels, [first, p], u);
    SparedKeeps(levels, Flat(levels, [first], u), p, u);
  }

  function RequestNeed(levels: seq<Level>, request: Request): nat
    requires |levels| >= 2
  {
    match request
    case Mapping(_, _, size, _) => Need(levels, Pages(levels, size))
    case Reservation(_, size) => Need(levels, Ceil(size, TableScope(levels)))
    case Permission(_, _, _) => 0
  }

  /** Space that a sequence of calls can need for new tables. */
  function TotalNeed(levels: seq<Level>, requests: seq<Request>): nat
    requires |levels| >= 2
  {
    if requests == [] then 0
    else TotalNeed(levels, requests[..|requests| - 1]) + RequestNeed(levels, requests[|requests| - 1])
  }

  lemma {:induction false} TotalNeedGrows(levels: seq<Level>, requests: seq<Request>, k: nat)
    requires |levels| >= 2 && k <= |requests|
    ensures TotalNeed(levels, requests[..k]) <= TotalNeed(levels, requests)
  {
    if k == |requests| {
      assert requests[..k] == requests;
    } else {
      var most := requests[..|requests| - 1];
      TotalNeedGrows(levels, most, k);
      assert most[..k] == requests[..k];
    }
  }

  // ----- gen_mmu.py -----

  /** Page `k` of a region is the NULL page, which is left alone, or has a table. */
  ghost predicate Mappable(levels: seq<Level>, s: Tables, base: nat, k: nat)
    requires |levels| >= 1
  {
    Step(base, Scope(levels), k) != 0 ==> Look(levels, s, Step(base, Scope(levels), k)).Some?
  }

  /** The calls that tables with this content do not stop. */
  ghost predicate Handled(levels: seq<Level>, s: Tables, request: Request)
    requires |levels| >= 2
  {
    match request
    case Mapping(phys, virt, size, _) => MapAligned(levels, phys, virt, size)
    case Reservation(virt, size) => ReserveAligned(levels, virt, size)
    case Permission(base, size, _) =>
      && PermsAligned(levels, base, size)
      && forall k | 0 <= k < Pages(levels, size) :: Mappable(levels, s, base, k)
  }

  lemma HandledIs(levels: seq<Level>, s: Tables, requests: seq<Request>, k: nat)
    requires |levels| >= 2 && k < |requests| && forall u :: Look(levels, s, u) == Flat(levels, requests[..k], u)
    ensures Handled(levels, s, requests[k]) <==> Accepted(levels, requests, k)
  {
    hide Pow2, Look, Flat, Scope, TableScope;
    if requests[k].Permission? {
      var base, scope := requests[k].base, Scope(levels);
      forall j: nat ensures Mappable(levels, s, base, j) <==>
                            (Step(base, scope, j) != 0 ==> Flat(levels, requests[..k], Step(base, scope, j)).Some?)
      {
      }
    }
  }

  lemma FoundIs(levels: seq<Level>, start: nat, s: Tables, at: Places, v: nat)
    requires Shaped(levels) && Inv(levels, start, s, at) && Placed(at, TablePath(levels, v))
    ensures
      var p, l := TablePath(levels, v), levels[|levels| - 1];
      Known(s, RefAt(at, p)) && Index(l, v) < |Node(s, RefAt(at, p))| &&
      Found(levels, start, s, at, v) == Some(Node(s, RefAt(at, p))[Index(l, v)])
  {
    hide And, Or, Pow2, Shr, Mask, Packed, AddrOf, Present, Index, Entries, Addressable, Linked, Closed;
    assert TableSound(levels, start, s, at, TablePath(levels, v));
    IndexInTable(levels[|levels| - 1], v);
  }

  lemma SamePageSame(levels: seq<Level>, start: nat, s: Tables, at: Places, u: nat, v: nat)
    requires Shaped(levels) && Inv(levels, start, s, at)
    ensures SamePage(levels, u, v) ==> Found(levels, start, s, at, u) == Found(levels, start, s, at, v)
  {
    hide And, Or, Pow2, Shr, Mask, Packed, AddrOf, Present, Index, Entries, Addressable, Linked, Closed;
    var n := |levels| - 1;
    assert SamePage(levels, u, v) ==> PathOf(levels, u)[n] == PathOf(levels, v)[n];
  }

  /** A path is not placed when a part of it is not. */
  lemma Unplaced(levels: seq<Level>, start: nat, s: Tables, at: Places, v: nat, d: nat)
    requires Inv(levels, start, s, at) && 0 < d < |levels| && !Placed(at, PathOf(levels, v)[..d])
    ensures !Placed(at, TablePath(levels, v))
  {
    hide And, Or, Pow2, Shr, Mask, Packed, AddrOf, Present, Index, Entries, Addressable, Sound, Linked, Closed;
    assert TablePath(levels, v)[..d] == PathOf(levels, v)[..d];
    if Placed(at, TablePath(levels, v)) {
      PrefixPlaced(levels, at, TablePath(levels, v), d);
    }
  }

  lemma FoundIfPlaced(levels: seq<Level>, start: nat, s: Tables, at: Places, u: nat)
    requires Shaped(levels) && Inv(levels, start, s, at)
    ensures Look(levels, s, u).Some? <==> Placed(at, TablePath(levels, u))
  {
    hide And, Or, Pow2, Shr, Mask, Packed, AddrOf, Present, Index, Entries, Addressable, Inv, Shaped, Look;
    LookIs(levels, start, s, at, u);
  }

  lemma Roomy(levels: seq<Level>, a: nat, b: nat)
    requires a <= b && Addressable(levels, b)
    ensures Addressable(levels, a)
  {
    hide Pow2;
  }

  lemma WroteFits(levels: seq<Level>, start: nat, s: Tables, at: Places, p: Path, i: nat)
    requires CanWrite(levels, start, s, at, p, i)
    ensures Known(s, RefAt(at, p)) && i < |Node(s, RefAt(at, p))|
    ensures forall e :: Wrote(levels, start, s, at, p, i, e) == WithEntry(s, RefAt(at, p), i, e)
  {
    hide And, Or, Pow2, Shr, Mask, Packed, AddrOf, Present, Index, Entries, Addressable, Linked, Closed, Apart;
    assert TableSound(levels, start, s, at, p);
  }

  lemma GrownFits(levels: seq<Level>, start: nat, s: Tables, at: Places, p: Path, i: nat)
    requires CanGrow(levels, start, s, at, p, i)
    ensures Known(s, RefAt(at, p)) && i < |Node(s, RefAt(at, p))| && RefAt(at, p) != At(s.pagePos)
    ensures Grown(levels, start, s, at, p, i) == WithChild(levels, s, RefAt(at, p), |p|, i)
  {
    hide And, Or, Pow2, Shr, Mask, Packed, AddrOf, Present, Index, Entries, Addressable, Linked, Closed, Shaped;
    assert TableSound(levels, start, s, at, p);
  }

  /** PtableSet */
  class PtableSet {
    const levels: seq<Level>
    ghost const start: nat
    var toplevel: seq<nat>
    var tables: map<nat, seq<nat>>
    var pagePos: nat
    ghost var at: Places

    ghost function State(): Tables
      reads this
    {
      Tables(toplevel, tables, pagePos)
    }

    ghost predicate Valid()
      reads this
    {
      Shaped(levels) && Inv(levels, start, State(), at)
    }

    ghost function Sees(u: nat): Option<nat>
      reads this
      requires |levels| >= 1
    {
      Look(levels, State(), u)
    }

    constructor (levels: seq<Level>, pagesStart: nat)
      requires Shaped(levels) && pagesStart > 0 && pagesStart % PAGE == 0 && Addressable(levels, pagesStart)
      ensures Valid() && this.levels == levels && pagePos == start == pagesStart
      ensures forall u :: Sees(u) == if |levels| == 1 then Some(0) else None
    {
      this.levels := levels;
      start := pagesStart;
      toplevel := Empty(levels[0]);
      tables := map[];
      pagePos := pagesStart;
      at := map[];
      new;
      forall u ensures Sees(u) == if |levels| == 1 then Some(0) else None {
        LookIs(levels, start, State(), at, u);
        IndexInTable(levels[0], u);
      }
    }

    /** MMUTable.has_entry() */
    predicate HasEntry(table: Ref, d: nat, v: nat)
      reads this
      requires d < |levels| && Known(Tables(toplevel, tables, pagePos), table)
      requires Index(levels[d], v) < |Node(Tables(toplevel, tables, pagePos), table)|
    {
      Present(Node(Tables(toplevel, tables, pagePos), table)[Index(levels[d], v)])
    }

    /** An entry write, shared by MMUTable.map() and set_perms(). */
    method SetEntry(table: Ref, i: nat, entry: nat)
      requires Known(State(), table) && i < |Node(State(), table)|
      modifies `toplevel, `tables
      ensures State() == WithEntry(old(State()), table, i, entry)
    {
      match table {
        case Top =>
          toplevel := toplevel[i := entry];
        case At(a) =>
          var node: seq<nat> := tables[a][i := entry];
          tables := tables[a := node];
      }
    }

    /** new_child_table() */
    method NewChildTable(table: Ref, v: nat, depth: nat, ghost p: Path) returns (child: Ref)
      requires Valid() && depth == |p| + 1 < |levels|
      requires CanGrow(levels, start, State(), at, p, Index(levels[|p|], v)) && table == RefAt(at, p)
      modifies this
      ensures Valid() && pagePos == old(pagePos) + PAGE && child == At(old(pagePos))
      ensures at == old(at)[p + [Index(levels[|p|], v)] := old(pagePos)]
      ensures forall u :: Sees(u) == if TablePath(levels, u) == p + [Index(levels[|p|], v)] then Some(0) else old(Sees(u))
      ensures forall u :: TablePath(levels, u) == p + [Index(levels[|p|], v)] ==> old(Sees(u)) == None
    {
      hide And, Or, Pow2, Shr, Mask, Packed, AddrOf, Present, Index, Entries, Addressable, Inv, Shaped, WithEntry, Look, Found, RefAt;
      ghost var s, a, i := State(), at, Index(levels[|p|], v);
      GrownFits(levels, start, s, a, p, i);
      GrownKeeps(levels, start, s, a, p, i);
      var addr := pagePos;
      pagePos := pagePos + PAGE;
      tables := tables[addr := Empty(levels[depth])];
      SetEntry(table, Index(levels[depth - 1], v), Packed(levels[depth - 1], addr, INT_FLAGS));
      at := at[p + [i] := addr];
      forall u
        ensures Sees(u) == if TablePath(levels, u) == p + [i] then Some(0) else Look(levels, s, u)
        ensures TablePath(levels, u) == p + [i] ==> Look(levels, s, u) == None
      {
        LookIs(levels, start, s, a, u);
        GrownFound(levels, start, s, a, p, i, u);
        LookIs(levels, start, State(), at, u);
      }
      child := At(addr);
    }

    /** The loop of map_page(): finds or makes the table that holds the entry of `v`. */
    method DescendTo(v: nat) returns (table: Ref)
      requires Valid() && Addressable(levels, pagePos + PAGE * (|levels| - 1))
      modifies this
      ensures Valid() && pagePos <= old(pagePos) + PAGE * (|levels| - 1)
      ensures Placed(at, TablePath(levels, v)) && table == RefAt(at, TablePath(levels, v))
      ensures forall u :: Sees(u) == Reserved(levels, old(Sees(u)), v, u)
    {
      hide And, Or, Pow2, Shr, Mask, Packed, AddrOf, Present, Index, Entries, Addressable, Inv, Look, Found, LevelSound;
      table := Top;
      var depth := 1;
      ghost var p: Path := [];
      while depth < |levels|
        invariant 1 <= depth <= |levels| && p == PathOf(levels, v)[..depth - 1]
        invariant Valid() && Placed(at, p) && table == RefAt(at, p)
        invariant pagePos <= old(pagePos) + PAGE * (depth - 1)
        invariant forall u :: Sees(u) == old(Sees(u)) || Sees(u) == Reserved(levels, old(Sees(u)), v, u)
      {
        ghost var i := Index(levels[depth - 1], v);
        IndexInTable(levels[depth - 1], v);
        EntryPresent(levels, start, State(), at, p, i);
        assert PathOf(levels, v)[..depth] == p + [i];
        if !HasEntry(table, depth - 1, v) {
          Roomy(levels, pagePos + PAGE, old(pagePos) + PAGE * (|levels| - 1));
          table := NewChildTable(table, v, depth, p);
        } else {
          table := At(AddrOf(levels[depth - 1], Node(Tables(toplevel, tables, pagePos), table)[Index(levels[depth - 1], v)]));
        }
        p := p + [i];
        depth := depth + 1;
      }
      forall u ensures Sees(u) == Reserved(levels, old(Sees(u)), v, u) {
        FoundIfPlaced(levels, start, State(), at, u);
      }
    }

    /** map_page() */
    method MapPage(v: nat, phys: nat, flags: nat, reserve: bool)
      requires Valid() && Addressable(levels, pagePos + PAGE * (|levels| - 1))
      modifies this
      ensures Valid() && pagePos <= old(pagePos) + PAGE * (|levels| - 1)
      ensures reserve ==> forall u :: Sees(u) == Reserved(levels, old(Sees(u)), v, u)
      ensures !reserve ==> forall u :: Sees(u) == Mapped(levels, old(Sees(u)), v, phys, flags, u)
    {
      hide And, Or, Pow2, Shr, Mask, Packed, AddrOf, Present, Index, Entries, Addressable, Inv, WithEntry, Look, Found, LevelSound;
      ghost var s := State();
      var table := DescendTo(v);
      ghost var t := State();
      assert forall u :: Look(levels, t, u) == Sees(u);
      if !reserve {
        var leaf := levels[|levels| - 1];
        ghost var p, i := TablePath(levels, v), Index(leaf, v);
        IndexInTable(leaf, v);
        WroteFits(levels, start, t, at, p, i);
        SetEntry(table, Index(leaf, v), Packed(leaf, phys, flags));
        WroteKeeps(levels, start, t, at, p, i, Packed(leaf, phys, flags));
        assert PathOf(levels, v) == p + [i];
        forall u ensures Sees(u) == Mapped(levels, Look(levels, s, u), v, phys, flags, u) {
          LookIs(levels, start, t, at, u);
          WroteFound(levels, start, t, at, p, i, Packed(leaf, phys, flags), u);
          LookIs(levels, start, State(), at, u);
        }
      }
    }

    /** map(): `virt` is None for an identity mapping. */
    method Map(phys: nat, virt: Option<nat>, size: nat, flags: nat) returns (r: Outcome)
      requires Valid() && Addressable(levels, pagePos + Need(levels, Pages(levels, size)))
      modifies this
      ensures Valid() && pagePos <= old(pagePos) + Need(levels, Pages(levels, size))
      ensures r == if MapAligned(levels, phys, virt, size) then Done else Unaligned
      ensures r.Unaligned? ==> unchanged(this)
      ensures r.Done? ==> forall u ::
        Sees(u) == MappedRange(levels, old(Sees(u)), phys, VirtOf(phys, virt), Pages(levels, size), flags, u)
    {
      hide And, Or, Pow2, Shr, Mask, Packed, AddrOf, Present, Index, Entries, Addressable, Inv, Look, Found, LevelSound, Mapped;
      var base, scope := VirtOf(phys, virt), Scope(levels);
      if phys % scope != 0 || size % scope != 0 || base % scope != 0 {
        return Unaligned;
      }
      var k, paddr, vaddr := 0, phys, base;
      while k < Pages(levels, size)
        invariant Valid() && k <= Pages(levels, size) && pagePos <= old(pagePos) + Need(levels, k)
        invariant paddr == Step(phys, scope, k) && vaddr == Step(base, scope, k)
        invariant forall u :: Sees(u) == MappedRange(levels, old(Sees(u)), phys, base, k, flags, u)
      {
        if base == phys && paddr == 0 {
          // The NULL page is never identity mapped.
        } else {
          NeedGrows(levels, k + 1, Pages(levels, size));
          Roomy(levels, pagePos + PAGE * (|levels| - 1), old(pagePos) + Need(levels, Pages(levels, size)));
          MapPage(vaddr, paddr, flags, false);
        }
        k, paddr, vaddr := k + 1, paddr + scope, vaddr + scope;
      }
      return Done;
    }

    /** reserve() */
    method Reserve(virt: nat, size: nat) returns (r: Outcome)
      requires Valid() && |levels| >= 2 && Addressable(levels, pagePos + Need(levels, Ceil(size, TableScope(levels))))
      modifies this
      ensures Valid() && pagePos <= old(pagePos) + Need(levels, Ceil(size, TableScope(levels)))
      ensures r == if ReserveAligned(levels, virt, size) then Done else Unaligned
      ensures r.Unaligned? ==> unchanged(this)
      ensures r.Done? ==> forall u ::
        Sees(u) == ReservedRange(levels, old(Sees(u)), virt, Ceil(size, TableScope(levels)), u)
    {
      hide And, Or, Pow2, Shr, Mask, Packed, AddrOf, Present, Index, Entries, Addressable, Inv, Look, Found, LevelSound, Reserved;
      var scope := TableScope(levels);
      if virt % PAGE != 0 || size % PAGE != 0 || virt % scope != 0 {
        return Unaligned;
      }
      var k, addr := 0, virt;
      while k < Ceil(size, scope)
        invariant Valid() && k <= Ceil(size, scope) && pagePos <= old(pagePos) + Need(levels, k)
        invariant addr == Step(virt, scope, k)
        invariant forall u :: Sees(u) == ReservedRange(levels, old(Sees(u)), virt, k, u)
      {
        NeedGrows(levels, k + 1, Ceil(size, scope));
        Roomy(levels, pagePos + PAGE * (|levels| - 1), old(pagePos) + Need(levels, Ceil(size, scope)));
        MapPage(addr, 0, 0, true);
        k, addr := k + 1, addr + scope;
      }
      return Done;
    }

    /** The table walk of set_region_perms(), which stops at a missing key. */
    method TableOf(v: nat) returns (table: Option<Ref>)
      requires Valid()
      ensures table.Some? <==> Placed(at, TablePath(levels, v))
      ensures table.Some? ==> table.value == RefAt(at, TablePath(levels, v))
    {
      hide And, Or, Pow2, Shr, Mask, Packed, AddrOf, Present, Index, Entries, Addressable, Inv, Look, Found, LevelSound;
      var ref := Top;
      var depth := 1;
      ghost var p: Path := [];
      while depth < |levels|
        invariant 1 <= depth <= |levels| && p == PathOf(levels, v)[..depth - 1]
        invariant Placed(at, p) && ref == RefAt(at, p)
      {
        ghost var i := Index(levels[depth - 1], v);
        IndexInTable(levels[depth - 1], v);
        EntryPresent(levels, start, State(), at, p, i);
        assert PathOf(levels, v)[..depth] == p + [i];
        var next := AddrOf(levels[depth - 1], Node(Tables(toplevel, tables, pagePos), ref)[Index(levels[depth - 1], v)]);
        if next !in tables {
          Unplaced(levels, start, State(), at, v, depth);
          return None;
        }
        ref := At(next);
        p := p + [i];
        depth := depth + 1;
      }
      return Some(ref);
    }

    /** The body of the loop of set_region_perms(). */
    method SetPagePerms(v: nat, flags: nat) returns (ok: bool)
      requires Valid()
      modifies this
      ensures Valid() && pagePos == old(pagePos) && at == old(at)
      ensures ok <==> old(Sees(v)).Some?
      ensures !ok ==> unchanged(this)
      ensures ok ==> forall u :: Sees(u) == Permitted(levels, old(Sees(u)), v, flags, u)
      ensures forall u :: Sees(u).Some? == old(Sees(u)).Some?
    {
      hide And, Or, Pow2, Shr, Mask, Packed, AddrOf, Present, Index, Entries, Addressable, Inv, WithEntry, Look, Found, LevelSound;
      ghost var s := State();
      FoundIfPlaced(levels, start, s, at, v);
      var table := TableOf(v);
      if table.None? {
        return false;
      }
      var leaf := levels[|levels| - 1];
      ghost var p, i := TablePath(levels, v), Index(leaf, v);
      IndexInTable(leaf, v);
      WroteFits(levels, start, s, at, p, i);
      LookIs(levels, start, s, at, v);
      var entry := Node(Tables(toplevel, tables, pagePos), table.value)[Index(leaf, v)];
      FoundIs(levels, start, s, at, v);
      SetEntry(table.value, Index(leaf, v), Packed(leaf, entry, flags));
      WroteKeeps(levels, start, s, at, p, i, Packed(leaf, entry, flags));
      assert PathOf(levels, v) == p + [i];
      forall u
        ensures Sees(u) == Permitted(levels, Look(levels, s, u), v, flags, u)
        ensures Sees(u).Some? == Look(levels, s, u).Some?
      {
        LookIs(levels, start, s, at, u);
        WroteFound(levels, start, s, at, p, i, Packed(leaf, entry, flags), u);
        LookIs(levels, start, State(), at, u);
        SamePageSame(levels, start, s, at, u, v);
      }
      return true;
    }

    /** set_region_perms(), for the bounds that the symbols give. */
    method SetRegionPerms(base: nat, size: nat, flags: nat) returns (r: Outcome)
      requires Valid()
      modifies this
      ensures Valid() && pagePos == old(pagePos)
      ensures r.Unaligned? <==> !PermsAligned(levels, base, size)
      ensures r.Done? <==>
        PermsAligned(levels, base, size) && forall k | 0 <= k < Pages(levels, size) :: Mappable(levels, old(State()), base, k)
      ensures r.Done? ==> forall u :: Sees(u) == PermittedRange(levels, old(Sees(u)), base, Pages(levels, size), flags, u)
    {
      hide And, Or, Pow2, Shr, Mask, Packed, AddrOf, Present, Index, Entries, Addressable, Inv, Look, Found, LevelSound, Permitted;
      var scope := Scope(levels);
      if size == 0 {
        return Done;
      }
      if base % scope != 0 || size % scope != 0 {
        return Unaligned;
      }
      var k, addr := 0, base;
      while k < Pages(levels, size)
        invariant Valid() && k <= Pages(levels, size) && pagePos == old(pagePos)
        invariant addr == Step(base, scope, k)
        invariant forall u :: Sees(u) == PermittedRange(levels, old(Sees(u)), base, k, flags, u)
        invariant forall u :: Sees(u).Some? == old(Sees(u)).Some?
        invariant forall j | 0 <= j < k :: Mappable(levels, old(State()), base, j)
      {
        if addr != 0 {
          var ok := SetPagePerms(addr, flags);
          if !ok {
            assert !Mappable(levels, old(State()), base, k);
            return NoMapping;
          }
        }
        k, addr := k + 1, addr + scope;
      }
      return Done;
    }

    /** One call. */
    method Handle(request: Request) returns (r: Outcome)
      requires Valid() && |levels| >= 2 && Addressable(levels, pagePos + RequestNeed(levels, request))
      modifies this
      ensures Valid() && pagePos <= old(pagePos) + RequestNeed(levels, request)
      ensures r.Done? <==> Handled(levels, old(State()), request)
      ensures r.Done? ==> forall u :: Sees(u) == FlatStep(levels, old(Sees(u)), request, u)
    {
      hide And, Or, Pow2, Shr, Mask, Packed, AddrOf, Present, Index, Entries, Addressable, Inv, Look, Found, LevelSound;
      match request {
        case Mapping(phys, virt, size, flags) =>
          r := Map(phys, virt, size, flags);
        case Reservation(virt, size) =>
          r := Reserve(virt, size);
        case Permission(base, size, flags) =>
          r := SetRegionPerms(base, size, flags);
      }
    }

    /** A whole build.  The walk of every address ends in what the flat map says, and the
        build is stopped exactly by a request that is not aligned or asks for the flags
        of a page without a table. */
    method Build(requests: seq<Request>) returns (r: Outcome)
      requires Valid() && |levels| >= 2 && Addressable(levels, pagePos + TotalNeed(levels, requests))
      requires forall u :: Sees(u) == None
      modifies this
      ensures Valid()
      ensures r.Done? <==> forall k | 0 <= k < |requests| :: Accepted(levels, requests, k)
      ensures r.Done? ==> forall u :: Sees(u) == Flat(levels, requests, u)
    {
      hide And, Or, Pow2, Shr, Mask, Packed, AddrOf, Present, Index, Entries, Addressable, Inv, Look, Found, LevelSound, FlatStep,
        RequestNeed;
      var k := 0;
      assert requests[..0] == [];
      while k < |requests|
        invariant k <= |requests| && Valid() && pagePos <= old(pagePos) + TotalNeed(levels, requests[..k])
        invariant forall u :: Sees(u) == Flat(levels, requests[..k], u)
        invariant forall j | 0 <= j < k :: Accepted(levels, requests, j)
      {
        ghost var next := requests[..k + 1];
        assert next[..k] == requests[..k] && next[k] == requests[k];
        TotalNeedGrows(levels, requests, k + 1);
        Roomy(levels, pagePos + RequestNeed(levels, requests[k]), old(pagePos) + TotalNeed(levels, requests));
        HandledIs(levels, State(), requests, k);
        r := Handle(requests[k]);
        if !r.Done? {
          return;
        }
        k := k + 1;
      }
      assert requests[..k] == requests;
      return Done;
    }
  }
}

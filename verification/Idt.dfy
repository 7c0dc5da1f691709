/**
 The assignment of interrupt vectors by arch/x86/gen_idt.py: explicit vectors first, then a
 free vector in the range of each entry's priority.
 */
module Idt {

  datatype Option<T> = None | Some(value: T)

  /** An entry of the interrupt list; -1 stands for no interrupt line, no priority and no
      vector. */
  datatype Entry = Entry(handler: int, irq: int, prio: int, vec: int, dpl: int, tss: int)

  datatype Gate = Gate(handler: int, tss: int, dpl: int)

  datatype Error = NoVectorOrPriority | VectorTooLarge | VectorTwice | NoFreeVector(prio: int) | IrqTooLarge | IrqTwice

  datatype Outcome = Table(vectors: seq<Gate>, irqVecMap: seq<int>) | Failed(error: Error)

  /** The exceptions with an error code. */
  const ERR_CODE_VECTORS := {8, 10, 11, 12, 13, 14, 17}

  type Slots = seq<Option<Gate>>

  function GateOf(e: Entry): Gate { Gate(e.handler, e.tss, e.dpl) }

  /** What the tool expects of its list: no numbers below the ones that stand for nothing,
      and interrupt lines only on the vectors behind the exceptions. */
  ghost predicate Sane(e: Entry) {
    e.vec >= -1 && e.irq >= -1 && e.prio >= -1 && (e.irq != -1 && e.vec != -1 ==> e.vec >= 32)
  }

  function Base(prio: int): int { 32 + prio * 16 }

  /** priority_range(), up to the size of the table. */
  ghost predicate InRange(prio: int, v: int) { Base(prio) <= v < Base(prio) + 16 }

  // ----- Counting free vectors -----

  /** Free slots from `lo` up to `hi`. */
  function Free(s: Slots, lo: nat, hi: nat): nat
    decreases hi - lo
  {
    if lo >= hi || lo >= |s| then 0 else (if s[lo].None? then 1 else 0) + Free(s, lo + 1, hi)
  }

  lemma {:induction false} FreeNone(s: Slots, lo: nat, hi: nat)
    ensures Free(s, lo, hi) == 0 <==> forall v | lo <= v < hi && v < |s| :: s[v].Some?
    decreases hi - lo
  {
    if lo < hi && lo < |s| {
      FreeNone(s, lo + 1, hi);
    }
  }

  /** Filling a free slot takes one away from the ranges around it. */
  lemma {:induction false} FreeFilled(s: Slots, lo: nat, hi: nat, v: nat, g: Gate)
    requires v < |s| && s[v].None?
    ensures Free(s, lo, hi) == Free(s[v := Some(g)], lo, hi) + if lo <= v < hi then 1 else 0
    decreases hi - lo
  {
    if lo < hi && lo < |s| {
      FreeFilled(s, lo + 1, hi, v, g);
    }
  }

  // ----- What can be assigned -----

  /** Entries of priority `prio` without a vector. */
  function Asking(es: seq<Entry>, prio: int): nat {
    if es == [] then 0 else Asking(es[..|es| - 1], prio) + if es[|es| - 1].vec == -1 && es[|es| - 1].prio == prio then 1 else 0
  }

  /** Some entry asks for vector `v`. */
  ghost predicate Claimed(es: seq<Entry>, v: int) { exists k :: 0 <= k < |es| && es[k].vec == v }

  /** Vectors from `lo` up to `hi` that nobody asks for. */
  ghost function Unclaimed(es: seq<Entry>, maxVec: nat, lo: nat, hi: nat): nat
    decreases hi - lo
  {
    if lo >= hi || lo >= maxVec then 0 else (if Claimed(es, lo) then 0 else 1) + Unclaimed(es, maxVec, lo + 1, hi)
  }

  /** Every priority has a vector for each entry that asks for one. */
  ghost predicate Fitting(es: seq<Entry>, maxVec: nat) {
    forall p: nat :: Asking(es, p) <= Unclaimed(es, maxVec, Base(p), Base(p) + 16)
  }

  /** Nothing else is wrong with the list. */
  ghost predicate WellFormed(es: seq<Entry>, maxVec: nat, maxIrq: nat) {
    && (forall k | 0 <= k < |es| :: (es[k].vec == -1 ==> es[k].prio != -1) && es[k].vec < maxVec && es[k].irq < maxIrq)
    && (forall i, j | 0 <= i < j < |es| :: es[i].vec == -1 || es[i].vec != es[j].vec)
    && (forall i, j | 0 <= i < j < |es| :: es[i].irq == -1 || es[i].irq != es[j].irq)
  }

  // ----- Assignments -----

  /** Entry `i` has vector `v`: the one it asked for or one in its priority's range, with the
      entry's gate in it and the entry's interrupt line mapped to it. */
  ghost predicate Has(es: seq<Entry>, slots: Slots, irqs: seq<int>, i: nat, v: int)
    requires i < |es|
  {
    && 0 <= v < |slots| && slots[v] == Some(GateOf(es[i]))
    && (if es[i].vec != -1 then v == es[i].vec else InRange(es[i].prio, v) && v >= 32)
    && (es[i].irq != -1 ==> 0 <= es[i].irq < |irqs| && irqs[es[i].irq] == v && v >= 32)
  }

  ghost predicate Mapped(es: seq<Entry>, at: seq<int>, q: int)
    requires |at| == |es|
  {
    exists i :: 0 <= i < |es| && es[i].irq == q && at[i] != -1
  }

  /** `at` are the vectors assigned so far, -1 for none. */
  ghost predicate Assigned(es: seq<Entry>, slots: Slots, irqs: seq<int>, at: seq<int>) {
    && |at| == |es| && (forall i | 0 <= i < |es| && at[i] != -1 :: Has(es, slots, irqs, i, at[i]))
    && (forall i, j | 0 <= i < j < |es| && at[i] != -1 && at[j] != -1 ::
          at[i] != at[j] && (es[i].irq == -1 || es[i].irq != es[j].irq))
    && (forall v | 0 <= v < |slots| && slots[v].Some? :: v in at)
    && (forall q | 0 <= q < |irqs| && irqs[q] != 0 :: Mapped(es, at, q))
  }

  /** Entry `i` gets vector `v`. */
  lemma AssignKeeps(es: seq<Entry>, slots: Slots, irqs: seq<int>, at: seq<int>, i: nat, v: nat)
    requires Assigned(es, slots, irqs, at) && i < |es| && at[i] == -1 && v < |slots| && slots[v].None?
    requires if es[i].vec != -1 then v == es[i].vec else InRange(es[i].prio, v) && v >= 32
    requires es[i].irq != -1 ==> 0 <= es[i].irq < |irqs| && irqs[es[i].irq] == 0 && v >= 32
    ensures Assigned(es, slots[v := Some(GateOf(es[i]))], if es[i].irq == -1 then irqs else irqs[es[i].irq := v], at[i := v])
  {
    var slots', at' := slots[v := Some(GateOf(es[i]))], at[i := v];
    var irqs' := if es[i].irq == -1 then irqs else irqs[es[i].irq := v];
    forall j | 0 <= j < |es| && at[j] != -1
      ensures at[j] != v && (es[i].irq == -1 || es[i].irq != es[j].irq) && Has(es, slots', irqs', j, at[j])
    {
      assert Has(es, slots, irqs, j, at[j]);
    }
    assert Has(es, slots', irqs', i, v);
    forall w | 0 <= w < |slots'| && slots'[w].Some? ensures w in at' {
      if w == v {
        assert at'[i] == v;
      } else {
        assert w in at;
        var j :| 0 <= j < |at| && at[j] == w;
        assert at'[j] == w;
      }
    }
    forall q | 0 <= q < |irqs'| && irqs'[q] != 0 ensures Mapped(es, at', q) {
      if es[i].irq == q {
        assert at'[i] != -1;
      } else {
        assert Mapped(es, at, q);
        var j :| 0 <= j < |es| && es[j].irq == q && at[j] != -1;
        assert at'[j] != -1;
      }
    }
  }

  /** After the explicit vectors are in place, the free ones are those nobody asked for. */
  lemma {:induction false} FreeIsUnclaimed(es: seq<Entry>, slots: Slots, lo: nat, hi: nat)
    requires forall v | 0 <= v < |slots| :: slots[v].None? <==> !Claimed(es, v)
    ensures Free(slots, lo, hi) == Unclaimed(es, |slots|, lo, hi)
    decreases hi - lo
  {
    if lo < hi && lo < |slots| {
      FreeIsUnclaimed(es, slots, lo + 1, hi);
    }
  }

  lemma {:induction false} AskingGrows(es: seq<Entry>, k: nat, prio: int)
    requires k <= |es|
    ensures Asking(es[..k], prio) <= Asking(es, prio)
  {
    if k == |es| {
      assert es[..k] == es;
    } else {
      var most := es[..|es| - 1];
      AskingGrows(most, k, prio);
      assert most[..k] == es[..k];
    }
  }

  lemma AskingNext(es: seq<Entry>, k: nat, prio: int)
    requires k < |es|
    ensures Asking(es[..k + 1], prio) == Asking(es[..k], prio) + if es[k].vec == -1 && es[k].prio == prio then 1 else 0
  {
    assert es[..k + 1][..k] == es[..k] && es[..k + 1][k] == es[k];
  }

  /** What is free in each priority's range while entries are served. */
  ghost predicate Balanced(es: seq<Entry>, slots: Slots, k: nat)
    requires k <= |es|
  {
    forall p: nat {:trigger Asking(es[..k], p)} ::
      Free(slots, Base(p), Base(p) + 16) + Asking(es[..k], p) == Unclaimed(es, |slots|, Base(p), Base(p) + 16)
  }

  lemma BalancedFirst(es: seq<Entry>, slots: Slots)
    requires forall v | 0 <= v < |slots| :: slots[v].None? <==> !Claimed(es, v)
    ensures Balanced(es, slots, 0)
  {
    forall p: nat ensures Free(slots, Base(p), Base(p) + 16) + Asking(es[..0], p) == Unclaimed(es, |slots|, Base(p), Base(p) + 16) {
      FreeIsUnclaimed(es, slots, Base(p), Base(p) + 16);
    }
  }

  lemma BalancedSkip(es: seq<Entry>, slots: Slots, k: nat)
    requires k < |es| && Balanced(es, slots, k) && es[k].vec != -1
    ensures Balanced(es, slots, k + 1)
  {
    hide Asking;
    forall p: nat
      ensures Free(slots, Base(p), Base(p) + 16) + Asking(es[..k + 1], p) == Unclaimed(es, |slots|, Base(p), Base(p) + 16)
    {
      AskingNext(es, k, p);
    }
  }

  lemma BalancedNext(es: seq<Entry>, slots: Slots, k: nat, v: nat, g: Gate)
    requires k < |es| && Balanced(es, slots, k) && es[k].vec == -1 && es[k].prio >= 0
    requires v < |slots| && slots[v].None? && InRange(es[k].prio, v)
    ensures Balanced(es, slots[v := Some(g)], k + 1)
  {
    hide Asking;
    var t := slots[v := Some(g)];
    forall p: nat
      ensures Free(t, Base(p), Base(p) + 16) + Asking(es[..k + 1], p) == Unclaimed(es, |t|, Base(p), Base(p) + 16)
    {
      AskingNext(es, k, p);
      FreeFilled(slots, Base(p), Base(p) + 16, v, g);
    }
  }

  // ----- arch/x86/gen_idt.py -----

  /** update_irq_vec_map() */
  method UpdateIrqVecMap(irqs: seq<int>, irq: int, vec: int) returns (error: Option<Error>, after: seq<int>)
    requires irq >= -1
    ensures error == if irq == -1 then None else if irq >= |irqs| then Some(IrqTooLarge)
                     else if irqs[irq] != 0 then Some(IrqTwice) else None
    ensures error.None? ==> after == if irq == -1 then irqs else irqs[irq := vec]
  {
    if irq == -1 {
      return None, irqs;
    }
    if irq >= |irqs| {
      return Some(IrqTooLarge), irqs;
    }
    if irqs[irq] != 0 {
      return Some(IrqTwice), irqs;
    }
    return None, irqs[irq := vec];
  }

  /** A line that is mapped already belongs to another entry. */
  lemma TakenIrq(es: seq<Entry>, slots: Slots, irqs: seq<int>, at: seq<int>, k: nat, maxVec: nat)
    requires Assigned(es, slots, irqs, at) && k < |es| && at[k] == -1 && es[k].irq >= 0
    requires es[k].irq >= |irqs| || irqs[es[k].irq] != 0
    ensures !WellFormed(es, maxVec, |irqs|)
  {
    if es[k].irq < |irqs| {
      assert Mapped(es, at, es[k].irq);
      var i :| 0 <= i < |es| && es[i].irq == es[k].irq && at[i] != -1;
    }
  }

  /** A vector that is taken belongs to another entry. */
  lemma TakenVector(es: seq<Entry>, slots: Slots, irqs: seq<int>, at: seq<int>, k: nat, maxIrq: nat)
    requires Assigned(es, slots, irqs, at) && k < |es| && at[k] == -1 && 0 <= es[k].vec < |slots| && slots[es[k].vec].Some?
    requires forall i | 0 <= i < |es| && at[i] != -1 :: at[i] == es[i].vec
    ensures !WellFormed(es, |slots|, maxIrq)
  {
    assert es[k].vec in at;
    var i :| 0 <= i < |at| && at[i] == es[k].vec;
  }

  lemma FreshAssigned(es: seq<Entry>, slots: Slots, irqs: seq<int>, at: seq<int>)
    requires |at| == |es| && (forall i | 0 <= i < |at| :: at[i] == -1)
    requires (forall v | 0 <= v < |slots| :: slots[v].None?) && forall q | 0 <= q < |irqs| :: irqs[q] == 0
    ensures Assigned(es, slots, irqs, at)
  {
  }

  lemma Refused(es: seq<Entry>, maxVec: nat, maxIrq: nat, k: nat)
    requires k < |es| && ((es[k].vec == -1 && es[k].prio == -1) || es[k].vec >= maxVec)
    ensures !WellFormed(es, maxVec, maxIrq)
  {
  }

  /** The first pass: explicit vectors. */
  method PlaceExplicit(es: seq<Entry>, maxVec: nat, maxIrq: nat)
    returns (error: Option<Error>, slots: Slots, irqs: seq<int>, ghost at: seq<int>)
    requires forall e | e in es :: Sane(e)
    ensures |slots| == maxVec && |irqs| == maxIrq
    ensures error.Some? ==> !WellFormed(es, maxVec, maxIrq) && !error.value.NoFreeVector?
    ensures error.None? ==> Assigned(es, slots, irqs, at) && forall i | 0 <= i < |es| ::
      at[i] == es[i].vec && (es[i].vec == -1 ==> es[i].prio >= 0)
  {
    hide WellFormed, Assigned;
    error, slots, irqs := None, seq(maxVec, _ => None), seq(maxIrq, _ => 0);
    at := seq(|es|, _ => -1);
    FreshAssigned(es, slots, irqs, at);
    var k := 0;
    while k < |es|
      invariant k <= |es| && |slots| == maxVec && |irqs| == maxIrq && |at| == |es| && error == None
      invariant Assigned(es, slots, irqs, at)
      invariant forall i | 0 <= i < |es| :: at[i] == if i < k then es[i].vec else -1
      invariant forall i | 0 <= i < k && es[i].vec == -1 :: es[i].prio >= 0
    {
      var e := es[k];
      assert Sane(e);
      if e.vec == -1 {
        if e.prio == -1 {
          Refused(es, maxVec, maxIrq, k);
          return Some(NoVectorOrPriority), slots, irqs, at;
        }
      } else {
        if e.vec >= maxVec {
          Refused(es, maxVec, maxIrq, k);
          return Some(VectorTooLarge), slots, irqs, at;
        }
        if slots[e.vec].Some? {
          TakenVector(es, slots, irqs, at, k, maxIrq);
          return Some(VectorTwice), slots, irqs, at;
        }
        var after;
        error, after := UpdateIrqVecMap(irqs, e.irq, e.vec);
        if error.Some? {
          TakenIrq(es, slots, irqs, at, k, maxVec);
          return;
        }
        AssignKeeps(es, slots, irqs, at, k, e.vec);
        slots, irqs, at := slots[e.vec := Some(GateOf(e))], after, at[k := e.vec];
      }
      k := k + 1;
    }
  }

  /** The search of the second pass. */
  method FindFree(slots: Slots, prio: nat) returns (vec: int)
    ensures vec == -1 <==> Free(slots, Base(prio), Base(prio) + 16) == 0
    ensures vec != -1 ==> 0 <= vec < |slots| && slots[vec].None? && InRange(prio, vec)
    ensures vec != -1 ==> forall w | Base(prio) <= w < vec :: slots[w].Some?
  {
    FreeNone(slots, Base(prio), Base(prio) + 16);
    var v := Base(prio);
    while v < Base(prio) + 16 && v < |slots|
      invariant Base(prio) <= v <= Base(prio) + 16
      invariant forall w | Base(prio) <= w < v && w < |slots| :: slots[w].Some?
    {
      if slots[v].None? {
        return v;
      }
      v := v + 1;
    }
    return -1;
  }

  /** More entries of a priority than vectors. */
  ghost predicate TooMany(es: seq<Entry>, maxVec: nat, p: nat) { Asking(es, p) > Unclaimed(es, maxVec, Base(p), Base(p) + 16) }

  lemma ExplicitBalanced(es: seq<Entry>, slots: Slots, irqs: seq<int>, at: seq<int>)
    requires Assigned(es, slots, irqs, at) && forall i | 0 <= i < |es| :: at[i] == es[i].vec
    ensures Balanced(es, slots, 0)
  {
    forall v | 0 <= v < |slots| ensures slots[v].None? <==> !Claimed(es, v) {
      if slots[v].Some? {
        var i :| 0 <= i < |at| && at[i] == v;
        assert es[i].vec == v;
      }
    }
    BalancedFirst(es, slots);
  }

  lemma Overfull(es: seq<Entry>, slots: Slots, k: nat)
    requires k < |es| && Balanced(es, slots, k) && es[k].vec == -1 && es[k].prio >= 0
    requires Free(slots, Base(es[k].prio), Base(es[k].prio) + 16) == 0
    ensures TooMany(es, |slots|, es[k].prio)
  {
    hide Asking;
    var p := es[k].prio;
    AskingNext(es, k, p);
    AskingGrows(es, k + 1, p);
    assert Free(slots, Base(p), Base(p) + 16) + Asking(es[..k], p) == Unclaimed(es, |slots|, Base(p), Base(p) + 16);
  }

  lemma BalancedFits(es: seq<Entry>, slots: Slots)
    requires Balanced(es, slots, |es|)
    ensures Fitting(es, |slots|)
  {
    hide Asking;
    assert es[..|es|] == es;
    forall p: nat ensures Asking(es, p) <= Unclaimed(es, |slots|, Base(p), Base(p) + 16) {
      assert Free(slots, Base(p), Base(p) + 16) + Asking(es[..|es|], p) == Unclaimed(es, |slots|, Base(p), Base(p) + 16);
    }
  }

  /** The second pass: vectors by priority. */
  method PlaceByPriority(es: seq<Entry>, slots0: Slots, irqs0: seq<int>, ghost at0: seq<int>)
    returns (error: Option<Error>, slots: Slots, irqs: seq<int>, ghost at: seq<int>)
    requires (forall e | e in es :: Sane(e)) && |at0| == |es| && Assigned(es, slots0, irqs0, at0)
    requires forall i | 0 <= i < |es| :: at0[i] == es[i].vec && (es[i].vec == -1 ==> es[i].prio >= 0)
    ensures |slots| == |slots0| && |irqs| == |irqs0|
    ensures error.Some? && !error.value.NoFreeVector? ==> !WellFormed(es, |slots0|, |irqs0|)
    ensures error.Some? && error.value.NoFreeVector? ==> error.value.prio >= 0 && TooMany(es, |slots0|, error.value.prio)
    ensures error.None? ==> Assigned(es, slots, irqs, at) && Fitting(es, |slots|) && forall i | 0 <= i < |es| :: at[i] != -1
  {
    hide WellFormed, Assigned, Asking, Balanced, Fitting;
    error, slots, irqs, at := None, slots0, irqs0, at0;
    ExplicitBalanced(es, slots, irqs, at);
    var k := 0;
    while k < |es|
      invariant k <= |es| && |slots| == |slots0| && |irqs| == |irqs0| && |at| == |es| && error == None
      invariant Assigned(es, slots, irqs, at) && Balanced(es, slots, k)
      invariant forall i | 0 <= i < |es| :: if i < k || es[i].vec != -1 then at[i] != -1 else at[i] == -1
    {
      var e := es[k];
      assert Sane(e);
      if e.vec == -1 {
        var vec := FindFree(slots, e.prio);
        if vec == -1 {
          Overfull(es, slots, k);
          return Some(NoFreeVector(e.prio)), slots, irqs, at;
        }
        var after;
        error, after := UpdateIrqVecMap(irqs, e.irq, vec);
        if error.Some? {
          TakenIrq(es, slots, irqs, at, k, |slots|);
          return;
        }
        AssignKeeps(es, slots, irqs, at, k, vec);
        BalancedNext(es, slots, k, vec, GateOf(e));
        slots, irqs, at := slots[vec := Some(GateOf(e))], after, at[k := vec];
      } else {
        BalancedSkip(es, slots, k);
      }
      k := k + 1;
    }
    BalancedFits(es, slots);
  }

  ghost predicate Served(e: Entry, vectors: seq<Gate>, irqs: seq<int>, v: int) {
    && 0 <= v < |vectors| && vectors[v] == GateOf(e)
    && (if e.vec != -1 then v == e.vec else InRange(e.prio, v))
    && (e.irq != -1 ==> 0 <= e.irq < |irqs| && irqs[e.irq] == v)
  }

  lemma AllWellFormed(es: seq<Entry>, slots: Slots, irqs: seq<int>, at: seq<int>)
    requires (forall e | e in es :: Sane(e)) && Assigned(es, slots, irqs, at) && forall i | 0 <= i < |es| :: at[i] != -1
    requires forall i | 0 <= i < |es| && es[i].vec == -1 :: es[i].prio >= 0
    ensures WellFormed(es, |slots|, |irqs|)
  {
    forall i | 0 <= i < |es| ensures Has(es, slots, irqs, i, at[i]) && Sane(es[i]) {
      assert es[i] in es;
    }
  }

  /** The third pass. */
  method FillSpurious(spurCode: int, spurNocode: int, slots: Slots) returns (vectors: seq<Gate>)
    ensures |vectors| == |slots|
    ensures forall v | 0 <= v < |slots| ::
      vectors[v] == if slots[v].Some? then slots[v].value else Gate(if v in ERR_CODE_VECTORS then spurCode else spurNocode, 0, 0)
  {
    vectors := [];
    var i := 0;
    while i < |slots|
      invariant i <= |slots| && |vectors| == i
      invariant forall v | 0 <= v < i ::
        vectors[v] == if slots[v].Some? then slots[v].value else Gate(if v in ERR_CODE_VECTORS then spurCode else spurNocode, 0, 0)
    {
      if slots[i].Some? {
        vectors := vectors + [slots[i].value];
      } else {
        var handler := if i in ERR_CODE_VECTORS then spurCode else spurNocode;
        vectors := vectors + [Gate(handler, 0, 0)];
      }
      i := i + 1;
    }
  }

  /** setup_idt(): it succeeds exactly on lists that are well formed and fit, and then every
      entry has a vector of its own, the one it asked for or one in its priority's range; its
      line is mapped to it; and the other vectors and lines are spurious and unmapped.  On a
      well-formed list the only error is a priority with too many entries. */
  method SetupIdt(spurCode: int, spurNocode: int, es: seq<Entry>, maxVec: nat, maxIrq: nat)
    returns (r: Outcome, ghost at: seq<int>)
    requires forall e | e in es :: Sane(e)
    ensures r.Table? <==> WellFormed(es, maxVec, maxIrq) && Fitting(es, maxVec)
    ensures r.Table? ==> |r.vectors| == maxVec && |r.irqVecMap| == maxIrq && |at| == |es|
    ensures r.Table? ==> forall i | 0 <= i < |es| :: Served(es[i], r.vectors, r.irqVecMap, at[i])
    ensures r.Table? ==> forall i, j | 0 <= i < j < |es| :: at[i] != at[j]
    ensures r.Table? ==> forall v | 0 <= v < maxVec && v !in at ::
      r.vectors[v] == Gate(if v in ERR_CODE_VECTORS then spurCode else spurNocode, 0, 0)
    ensures r.Table? ==> forall q | 0 <= q < maxIrq && r.irqVecMap[q] != 0 :: exists i :: 0 <= i < |es| && es[i].irq == q
    ensures r.Failed? && r.error.NoFreeVector? ==> r.error.prio >= 0 && TooMany(es, maxVec, r.error.prio)
    ensures r.Failed? && WellFormed(es, maxVec, maxIrq) ==> r.error.NoFreeVector?
  {
    hide WellFormed, Asking, Base;
    var error, slots, irqs;
    error, slots, irqs, at := PlaceExplicit(es, maxVec, maxIrq);
    if error.Some? {
      return Failed(error.value), at;
    }
    error, slots, irqs, at := PlaceByPriority(es, slots, irqs, at);
    if error.Some? {
      return Failed(error.value), at;
    }
    AllWellFormed(es, slots, irqs, at);
    var vectors := FillSpurious(spurCode, spurNocode, slots);
    forall i | 0 <= i < |es| ensures Served(es[i], vectors, irqs, at[i]) {
      assert Has(es, slots, irqs, i, at[i]);
    }
    forall v | 0 <= v < |slots| && v !in at ensures slots[v].None? {
    }
    forall q | 0 <= q < maxIrq && irqs[q] != 0 ensures exists i :: 0 <= i < |es| && es[i].irq == q {
      assert Mapped(es, at, q);
    }
    r := Table(vectors, irqs);
  }
}

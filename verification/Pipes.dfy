/**
 The byte pipe of kernel/pipes.c: a ring buffer with direct copies to and from
 blocked threads.

 `PipeState` is what a pipe means: the bytes in the ring, and the threads blocked
 on it.  The steps below give the meaning of the calls; class `Pipe` further down
 works on the ring indices as the source does and is proved to follow them.
 */
module Pipes {

  import opened WaitQueue

  type Byte = int

  /** A blocked thread with its pipe descriptor.  For a writer `data` is what it
      offers and the last `left` bytes of it still wait; for a reader `data` is
      what it has received and `left` what it still wants. */
  datatype Waiter = Waiter(tid: nat, prio: int, data: seq<Byte>, left: nat)

  function Min(a: nat, b: nat): nat { if a < b then a else b }

  // ----- Queues of blocked threads -----

  predicate Writers(ws: seq<Waiter>) {
    forall w | w in ws :: w.left <= |w.data|
  }

  /** The bytes blocked writers still offer, in queue order. */
  function Offered(ws: seq<Waiter>): seq<Byte>
    requires Writers(ws)
  {
    if ws == [] then [] else ws[0].data[|ws[0].data| - ws[0].left..] + Offered(ws[1..])
  }

  predicate Readers(ws: seq<Waiter>) {
    forall w | w in ws :: 0 < w.left
  }

  function Wanted(ws: seq<Waiter>): nat {
    if ws == [] then 0 else ws[0].left + Wanted(ws[1..])
  }

  /** Writers after `n` of their bytes were moved, the first ones' first. */
  function Lowered(ws: seq<Waiter>, n: nat): (r: seq<Waiter>)
    ensures |r| == |ws|
  {
    if ws == [] then []
    else
      var c := Min(ws[0].left, n);
      [ws[0].(left := ws[0].left - c)] + Lowered(ws[1..], n - c)
  }

  /** How many waiters a transfer visits: as many as it takes, and the first in any case. */
  function Visits(ws: seq<Waiter>, requested: nat): (k: nat)
    ensures k <= |ws|
  {
    if ws == [] then 0 else if ws[0].left >= requested then 1 else 1 + Visits(ws[1..], requested - ws[0].left)
  }

  /** The queue once those of the first `k` writers that have nothing left are readied. */
  function Swept(ws: seq<Waiter>, k: nat): seq<Waiter> {
    if k == 0 || ws == [] then ws
    else if ws[0].left == 0 then Swept(ws[1..], k - 1)
    else [ws[0]] + Swept(ws[1..], k - 1)
  }

  /** The writers that are readied then. */
  function SweptOut(ws: seq<Waiter>, k: nat): seq<Waiter> {
    if k == 0 || ws == [] then []
    else if ws[0].left == 0 then [ws[0]] + SweptOut(ws[1..], k - 1)
    else SweptOut(ws[1..], k - 1)
  }

  /** Readers after `bytes` were copied to them; satisfied ones are gone. */
  function Fed(ws: seq<Waiter>, bytes: seq<Byte>): seq<Waiter>
    decreases |ws|
  {
    if bytes == [] || ws == [] then ws
    else if ws[0].left <= |bytes| then Fed(ws[1..], bytes[ws[0].left..])
    else [ws[0].(data := ws[0].data + bytes, left := ws[0].left - |bytes|)] + ws[1..]
  }

  /** The readers that are satisfied then, with what they have received. */
  function FedOut(ws: seq<Waiter>, bytes: seq<Byte>): seq<Waiter>
    decreases |ws|
  {
    if bytes == [] || ws == [] || ws[0].left > |bytes| then []
    else [ws[0].(data := ws[0].data + bytes[..ws[0].left], left := 0)] + FedOut(ws[1..], bytes[ws[0].left..])
  }

  lemma {:induction false} OfferedLength(ws: seq<Waiter>)
    requires Writers(ws)
    ensures |Offered(ws)| == Wanted(ws)
  {
    if ws != [] { OfferedLength(ws[1..]); }
  }

  /** Nothing changes about the writers but what they have left. */
  lemma {:induction false} LoweredSame(ws: seq<Waiter>, n: nat, i: nat)
    requires i < |ws|
    ensures Lowered(ws, n)[i] == ws[i].(left := Lowered(ws, n)[i].left) && Lowered(ws, n)[i].left <= ws[i].left
  {
    if i > 0 { LoweredSame(ws[1..], n - Min(ws[0].left, n), i - 1); }
  }

  lemma LoweredWriters(ws: seq<Waiter>, n: nat)
    requires Writers(ws)
    ensures Writers(Lowered(ws, n))
  {
    hide Lowered;
    forall i | 0 <= i < |ws| ensures Lowered(ws, n)[i].left <= |Lowered(ws, n)[i].data| {
      LoweredSame(ws, n, i);
      assert ws[i] in ws;
    }
  }

  lemma LoweredUnfold(ws: seq<Waiter>, n: nat)
    requires ws != []
    ensures
      var c := Min(ws[0].left, n);
      Lowered(ws, n)[0] == ws[0].(left := ws[0].left - c) && Lowered(ws, n)[1..] == Lowered(ws[1..], n - c)
  {
  }

  lemma OfferedUnfold(ws: seq<Waiter>)
    requires Writers(ws) && ws != []
    ensures ws[0] in ws && Offered(ws) == ws[0].data[|ws[0].data| - ws[0].left..] + Offered(ws[1..])
  {
  }

  lemma SkipFirst(a: seq<Byte>, b: seq<Byte>, n: nat)
    requires |a| <= n <= |a| + |b|
    ensures (a + b)[n..] == b[n - |a|..]
  {
  }

  lemma SkipWithin(a: seq<Byte>, b: seq<Byte>, n: nat)
    requires n <= |a|
    ensures (a + b)[n..] == a[n..] + b
  {
  }

  lemma OfferedLowered(ws: seq<Waiter>, n: nat)
    requires Writers(ws) && ws != [] && n <= |Offered(ws)| && Writers(Lowered(ws, n))
    requires
      var rest, m := ws[1..], n - Min(ws[0].left, n);
      Writers(Lowered(rest, m)) && m <= |Offered(rest)| && Offered(Lowered(rest, m)) == Offered(rest)[m..]
    ensures Offered(Lowered(ws, n)) == Offered(ws)[n..]
  {
    hide Offered, Lowered;
    var w, rest, c := ws[0], ws[1..], Min(ws[0].left, n);
    assert w in ws;
    var own, t := w.data[|w.data| - w.left..], Lowered(ws, n);
    LoweredUnfold(ws, n);
    OfferedUnfold(ws);
    OfferedUnfold(t);
    assert w.data[|w.data| - (w.left - c)..] == own[c..];
    if w.left <= n {
      SkipFirst(own, Offered(rest), n);
      assert own[c..] == [];
    } else {
      SkipWithin(own, Offered(rest), n);
      assert Offered(rest)[0..] == Offered(rest);
    }
  }

  /** Moving `n` bytes takes them off the front of what is offered. */
  lemma {:induction false} LoweredOffers(ws: seq<Waiter>, n: nat)
    requires Writers(ws) && n <= Wanted(ws)
    ensures Writers(Lowered(ws, n)) && Wanted(Lowered(ws, n)) == Wanted(ws) - n
    ensures n <= |Offered(ws)| && Offered(Lowered(ws, n)) == Offered(ws)[n..]
  {
    LoweredWriters(ws, n);
    OfferedLength(ws);
    OfferedLength(Lowered(ws, n));
    if ws != [] {
      var c := Min(ws[0].left, n);
      OfferedLength(ws[1..]);
      LoweredOffers(ws[1..], n - c);
      OfferedLowered(ws, n);
    }
  }

  /** The bytes that the writers of a queue have already got rid of. */
  function Progress(ws: seq<Waiter>): int {
    if ws == [] then 0 else |ws[0].data| - ws[0].left + Progress(ws[1..])
  }

  lemma {:induction false} LoweredProgress(ws: seq<Waiter>, n: nat)
    requires n <= Wanted(ws)
    ensures Progress(Lowered(ws, n)) == Progress(ws) + n
  {
    if ws != [] {
      var c := Min(ws[0].left, n);
      LoweredProgress(ws[1..], n - c);
      assert Lowered(ws, n)[1..] == Lowered(ws[1..], n - c);
    }
  }

  const Priority := (w: Waiter) => w.prio

  lemma LoweredByPriority(ws: seq<Waiter>, n: nat)
    requires ByPriority(ws, Priority)
    ensures ByPriority(Lowered(ws, n), Priority)
  {
    forall i | 0 <= i < |ws| ensures Lowered(ws, n)[i].prio == ws[i].prio { LoweredSame(ws, n, i); }
  }

  lemma {:induction false} LoweredNothing(ws: seq<Waiter>)
    ensures Lowered(ws, 0) == ws
  {
    if ws != [] { LoweredNothing(ws[1..]); }
  }

  lemma {:induction false} SweptWriters(ws: seq<Waiter>, k: nat)
    ensures forall w | w in Swept(ws, k) :: w in ws
    ensures Writers(ws) ==> Writers(Swept(ws, k))
  {
    if k > 0 && ws != [] {
      SweptWriters(ws[1..], k - 1);
    }
  }

  lemma SweptUnfold(ws: seq<Waiter>, i: nat)
    ensures i == 0 || ws == [] ==> Swept(ws, i) == ws
    ensures i > 0 && ws != [] ==>
      Swept(ws, i) == (if ws[0].left == 0 then [] else [ws[0]]) + Swept(ws[1..], i - 1)
  {
  }

  /** Readying the writers with nothing left does not show in what is offered. */
  lemma {:induction false} SweptKeeps(ws: seq<Waiter>, k: nat)
    requires Writers(ws)
    ensures Writers(Swept(ws, k)) && Offered(Swept(ws, k)) == Offered(ws)
  {
    hide Swept, Offered;
    SweptWriters(ws, k);
    SweptUnfold(ws, k);
    if k > 0 && ws != [] {
      SweptKeeps(ws[1..], k - 1);
      OfferedUnfold(ws);
      if ws[0].left == 0 {
        assert Swept(ws, k) == Swept(ws[1..], k - 1);
        assert ws[0].data[|ws[0].data|..] == [];
      } else {
        OfferedUnfold(Swept(ws, k));
        assert Swept(ws, k)[1..] == Swept(ws[1..], k - 1);
      }
    }
  }

  lemma {:induction false} SweptProgress(ws: seq<Waiter>, k: nat)
    ensures Progress(Swept(ws, k)) + Progress(SweptOut(ws, k)) == Progress(ws)
  {
    if k > 0 && ws != [] {
      SweptProgress(ws[1..], k - 1);
      if ws[0].left == 0 {
        assert ([ws[0]] + SweptOut(ws[1..], k - 1))[1..] == SweptOut(ws[1..], k - 1);
      } else {
        assert ([ws[0]] + Swept(ws[1..], k - 1))[1..] == Swept(ws[1..], k - 1);
      }
    }
  }

  lemma {:induction false} SweptByPriority(ws: seq<Waiter>, k: nat)
    requires Writers(ws) && ByPriority(ws, Priority)
    ensures ByPriority(Swept(ws, k), Priority)
  {
    if k > 0 && ws != [] {
      SweptByPriority(ws[1..], k - 1);
      SweptWriters(ws[1..], k - 1);
      assert forall w | w in ws[1..] :: ws[0].prio <= w.prio;
    }
  }

  lemma {:induction false} FedWants(ws: seq<Waiter>, bytes: seq<Byte>)
    requires Readers(ws) && |bytes| <= Wanted(ws)
    ensures Readers(Fed(ws, bytes))
    ensures Wanted(Fed(ws, bytes)) == Wanted(ws) - |bytes|
    decreases |ws|
  {
    if bytes != [] && ws != [] {
      if ws[0].left <= |bytes| {
        FedWants(ws[1..], bytes[ws[0].left..]);
      } else {
        var t := [ws[0].(data := ws[0].data + bytes, left := ws[0].left - |bytes|)] + ws[1..];
        assert t[1..] == ws[1..];
      }
    }
  }

  lemma {:induction false} WantedAppend(ws: seq<Waiter>, w: Waiter)
    ensures Wanted(ws + [w]) == Wanted(ws) + w.left
  {
    if ws == [] {
      assert [] + [w] == [w];
    } else {
      assert (ws + [w])[1..] == ws[1..] + [w];
      WantedAppend(ws[1..], w);
    }
  }

  lemma {:induction false} WantedBounds(ws: seq<Waiter>, k: nat)
    requires k <= |ws|
    ensures Wanted(ws) == Wanted(ws[..k]) + Wanted(ws[k..])
  {
    if k > 0 {
      assert ws[..k][1..] == ws[1..][..k - 1];
      WantedBounds(ws[1..], k - 1);
    }
  }

  lemma WantedStep(ws: seq<Waiter>, j: nat)
    requires j < |ws|
    ensures Wanted(ws[..j + 1]) == Wanted(ws[..j]) + ws[j].left
    ensures Wanted(ws) == Wanted(ws[..j + 1]) + Wanted(ws[j + 1..])
  {
    WantedAppend(ws[..j], ws[j]);
    assert ws[..j + 1] == ws[..j] + [ws[j]];
    WantedBounds(ws, j + 1);
  }

  // ----- What a pipe means -----

  /** `sent` are the bytes that have left a writer and `taken` those that have left
      the pipe, both in order; `reported` is the total of the counts returned to
      writers.  The source keeps none of the three. */
  datatype PipeState = PipeState(size: nat, ring: seq<Byte>, readers: seq<Waiter>, writers: seq<Waiter>,
                                 sent: seq<Byte>, taken: seq<Byte>, reported: nat)

  datatype Result = Done(count: nat) | Blocks | Invalid | WouldBlock

  /** Everything that can be read: the ring, then what blocked writers offer. */
  function Stream(s: PipeState): seq<Byte>
    requires Writers(s.writers)
  {
    s.ring + Offered(s.writers)
  }

  /** Threads are blocked only where the source lets them block: readers on a pipe that has
      nothing for them, and writers that have bytes left on a full ring.  Writers with
      nothing left may be blocked on any ring. */
  ghost predicate Inv(s: PipeState) {
    && |s.ring| <= s.size
    && Writers(s.writers) && Readers(s.readers)
    && ByPriority(s.writers, Priority) && ByPriority(s.readers, Priority)
    && (s.readers != [] ==> s.ring == [] && s.writers == [])
    && (Offered(s.writers) != [] ==> |s.ring| == s.size)
    && s.sent == s.taken + s.ring
    && s.reported + Progress(s.writers) == |s.sent|
  }

  /** Copies of a writer's bytes: first to blocked readers, then to the ring. */
  function PutMoved(s: PipeState, data: seq<Byte>): PipeState {
    var k := Min(|data|, Wanted(s.readers));
    var n := k + Min(|data| - k, if |s.ring| < s.size then s.size - |s.ring| else 0);
    s.(readers := Fed(s.readers, data[..k]), ring := s.ring + data[k..n],
       sent := s.sent + data[..n], taken := s.taken + data[..k])
  }

  function PutCount(s: PipeState, data: seq<Byte>): nat {
    Min(|data|, Wanted(s.readers) + if |s.ring| < s.size then s.size - |s.ring| else 0)
  }

  /** The readers that a write readies, with what they have received. */
  function PutReadies(s: PipeState, data: seq<Byte>): seq<Waiter> {
    FedOut(s.readers, data[..Min(|data|, Wanted(s.readers))])
  }

  /** Whether a transfer of `n` out of `asked` bytes ends the call without blocking. */
  predicate Satisfied(n: nat, asked: nat, minXfer: nat, noWait: bool) {
    n == asked || noWait || (n >= minXfer && minXfer > 0)
  }

  /** z_impl_k_pipe_put() up to the point where it returns or blocks. */
  function Put(s: PipeState, tid: nat, prio: int, data: seq<Byte>, minXfer: nat, noWait: bool): (PipeState, Result) {
    var n := PutCount(s, data);
    if minXfer > |data| then (s, Invalid)
    else if n < minXfer && noWait then (s, WouldBlock)
    else if Satisfied(n, |data|, minXfer, noWait) then
      (PutMoved(s, data).(reported := s.reported + n), Done(n))
    else
      var m := PutMoved(s, data);
      (m.(writers := Pended(s.writers, Waiter(tid, prio, data, |data| - n), Priority)), Blocks)
  }

  /** `n` bytes leave the writers. */
  function WritersLowered(s: PipeState, n: nat): PipeState
    requires Writers(s.writers) && n <= |Offered(s.writers)|
  {
    s.(writers := Lowered(s.writers, n), sent := s.sent + Offered(s.writers)[..n])
  }

  lemma {:induction false} ProgressAtLeast(ws: seq<Waiter>)
    requires Writers(ws)
    ensures Progress(ws) >= 0
  {
    if ws != [] {
      assert ws[0] in ws;
      ProgressAtLeast(ws[1..]);
    }
  }

  /** Those of the first `k` writers with nothing left are readied and told so. */
  function WritersSwept(s: PipeState, k: nat): PipeState
    requires Writers(SweptOut(s.writers, k))
  {
    ProgressAtLeast(SweptOut(s.writers, k));
    s.(writers := Swept(s.writers, k), reported := s.reported + Progress(SweptOut(s.writers, k)))
  }

  /** The refill of the ring after a read.  It readies nobody. */
  function Refilled(s: PipeState): PipeState
    requires Writers(s.writers)
  {
    var n := Min(|Offered(s.writers)|, if |s.ring| < s.size then s.size - |s.ring| else 0);
    WritersLowered(s, n).(ring := s.ring + Offered(s.writers)[..n])
  }

  /** The bytes that a read copies from the ring, and those from writers. */
  function FromRing(s: PipeState, asked: nat): nat { Min(asked, |s.ring|) }

  function FromWriters(s: PipeState, asked: nat): nat
    requires Writers(s.writers)
  {
    Min(asked - FromRing(s, asked), |Offered(s.writers)|)
  }

  lemma LoweredOffersAll(ws: seq<Waiter>, n: nat)
    requires Writers(ws) && n <= |Offered(ws)|
    ensures Writers(Lowered(ws, n)) && Offered(Lowered(ws, n)) == Offered(ws)[n..]
  {
    OfferedLength(ws);
    LoweredOffers(ws, n);
  }

  lemma {:induction false} SweptOutWriters(ws: seq<Waiter>, k: nat)
    requires Writers(ws)
    ensures Writers(SweptOut(ws, k)) && forall w | w in SweptOut(ws, k) :: w.left == 0 && w in ws
  {
    if k > 0 && ws != [] {
      assert ws[0] in ws;
      SweptOutWriters(ws[1..], k - 1);
    }
  }

  /** A read of up to `asked` bytes before the refill: bytes leave the ring and then the
      writers, and of the writers that were visited those with nothing left are readied. */
  function Copied(s: PipeState, asked: nat): PipeState
    requires Writers(s.writers)
  {
    var r, d := FromRing(s, asked), FromWriters(s, asked);
    LoweredOffersAll(s.writers, d);
    SweptOutWriters(Lowered(s.writers, d), Visits(s.writers, asked));
    WritersSwept(WritersLowered(s, d), Visits(s.writers, asked)).(ring := s.ring[r..], taken := s.taken + Stream(s)[..r + d])
  }

  lemma StreamBegins(s: PipeState, first: seq<Byte>, rest: seq<Byte>, more: seq<Byte>)
    requires Writers(s.writers) && s.ring == first + rest && (rest != [] ==> more == [])
    requires |more| <= |Offered(s.writers)| && more == Offered(s.writers)[..|more|]
    ensures |first + more| <= |Stream(s)| && first + more == Stream(s)[..|first + more|] && s.ring[|first|..] == rest
  {
    hide Offered, Writers;
  }

  lemma CopiedWriters(s: PipeState, asked: nat)
    requires Writers(s.writers)
    ensures Writers(Copied(s, asked).writers)
    ensures Offered(Copied(s, asked).writers) == Offered(s.writers)[FromWriters(s, asked)..]
  {
    hide Offered, Lowered, Swept, SweptOut, Visits, Writers;
    var d := FromWriters(s, asked);
    LoweredOffersAll(s.writers, d);
    SweptKeeps(Lowered(s.writers, d), Visits(s.writers, asked));
  }

  /** A read with its refill. */
  function Taken(s: PipeState, asked: nat): PipeState
    requires Writers(s.writers)
  {
    CopiedWriters(s, asked);
    Refilled(Copied(s, asked))
  }

  /** pipe_get_internal() up to the point where it returns or blocks. */
  function Get(s: PipeState, tid: nat, prio: int, asked: nat, minXfer: nat, noWait: bool): (PipeState, Result)
    requires Writers(s.writers)
  {
    var n := Min(asked, |Stream(s)|);
    if minXfer > asked then (s, Invalid)
    else if n < minXfer && noWait then (s, WouldBlock)
    else if Satisfied(n, asked, minXfer, noWait) then (Taken(s, asked), Done(n))
    else
      (Taken(s, asked).(readers := Pended(s.readers, Waiter(tid, prio, Stream(s)[..n], asked - n), Priority)), Blocks)
  }

  /** Refilling the ring from blocked writers does not show in the stream, and leaves bytes
      with them only if the ring is then full. */
  lemma RefillIsInvisible(s: PipeState)
    requires Writers(s.writers) && |s.ring| <= s.size
    ensures Writers(Refilled(s).writers) && Stream(Refilled(s)) == Stream(s)
    ensures Offered(Refilled(s).writers) != [] ==> |Refilled(s).ring| == s.size
  {
    hide Offered, Lowered, Writers;
    var n := Min(|Offered(s.writers)|, s.size - |s.ring|);
    LoweredOffersAll(s.writers, n);
    var o := Offered(s.writers);
    assert o == o[..n] + o[n..];
    assert (s.ring + o[..n]) + o[n..] == s.ring + (o[..n] + o[n..]);
  }

  /** A read takes a prefix of the stream and leaves the rest of it. */
  lemma TakenLeavesTheRest(s: PipeState, asked: nat)
    requires Writers(s.writers) && |s.ring| <= s.size
    ensures
      var n, t := Min(asked, |Stream(s)|), Taken(s, asked);
      && Writers(t.writers) && Stream(t) == Stream(s)[n..] && t.taken == s.taken + Stream(s)[..n]
      && (Offered(t.writers) != [] ==> |t.ring| == s.size)
  {
    hide Offered, Lowered, Swept, SweptOut, Visits, Writers;
    var r, d := FromRing(s, asked), FromWriters(s, asked);
    CopiedWriters(s, asked);
    var t := Copied(s, asked);
    RefillIsInvisible(t);
    assert r + d == Min(asked, |Stream(s)|);
    if d == 0 {
      assert Offered(s.writers)[0..] == Offered(s.writers);
      SkipWithin(s.ring, Offered(s.writers), r);
    } else {
      SkipFirst(s.ring, Offered(s.writers), r + d);
      assert s.ring[r..] == [];
    }
    assert Stream(t) == Stream(s)[r + d..];
  }

  // ----- What every call keeps -----

  /** Bytes are only ever added to the two histories. */
  ghost predicate Grows(s: PipeState, t: PipeState) {
    t.size == s.size && s.sent <= t.sent && s.taken <= t.taken
  }

  /** What writers were told and what those still blocked have got rid of is what was sent. */
  ghost predicate Accounts(s: PipeState) {
    Writers(s.writers) && ByPriority(s.writers, Priority) && s.reported + Progress(s.writers) == |s.sent|
  }

  lemma LoweredAccounts(s: PipeState, n: nat)
    requires Accounts(s) && n <= |Offered(s.writers)|
    ensures Accounts(WritersLowered(s, n))
  {
    hide Offered, Lowered, Progress, ByPriority, Writers;
    OfferedLength(s.writers);
    LoweredOffers(s.writers, n);
    LoweredProgress(s.writers, n);
    LoweredByPriority(s.writers, n);
  }

  lemma SweptAccounts(s: PipeState, k: nat)
    requires Accounts(s)
    ensures Writers(SweptOut(s.writers, k)) && Accounts(WritersSwept(s, k))
  {
    hide Offered, Swept, SweptOut, Progress, ByPriority, Writers;
    SweptOutWriters(s.writers, k);
    SweptKeeps(s.writers, k);
    SweptProgress(s.writers, k);
    SweptByPriority(s.writers, k);
  }

  lemma CopiedAccounts(s: PipeState, asked: nat)
    requires Accounts(s)
    ensures Accounts(Copied(s, asked))
  {
    hide Offered, Lowered, Swept, SweptOut, Visits, Progress, ByPriority, Writers;
    LoweredAccounts(s, FromWriters(s, asked));
    SweptAccounts(WritersLowered(s, FromWriters(s, asked)), Visits(s.writers, asked));
  }

  /** A read that gets less than it asked for visits every writer and readies it. */
  lemma {:induction false} AllVisited(ws: seq<Waiter>, requested: nat)
    requires Wanted(ws) < requested
    ensures Visits(ws, requested) == |ws|
  {
    if ws != [] { AllVisited(ws[1..], requested - ws[0].left); }
  }

  lemma {:induction false} AllSwept(ws: seq<Waiter>)
    requires Wanted(ws) == 0
    ensures Swept(ws, |ws|) == []
  {
    if ws != [] { AllSwept(ws[1..]); }
  }

  lemma NothingOffered()
    ensures Offered([]) == [] && Lowered([], 0) == []
  {
  }

  lemma ShortReadReadiesAll(s: PipeState, asked: nat)
    requires Writers(s.writers) && |Stream(s)| < asked
    ensures Copied(s, asked).writers == [] && Taken(s, asked).writers == [] && Taken(s, asked).ring == []
  {
    hide Offered, Lowered, Swept, SweptOut, Visits, Writers;
    var d := FromWriters(s, asked);
    OfferedLength(s.writers);
    LoweredOffers(s.writers, d);
    AllVisited(s.writers, asked);
    AllSwept(Lowered(s.writers, d));
    NothingOffered();
  }

  lemma TakenAccounts(s: PipeState, asked: nat)
    requires Accounts(s)
    ensures Accounts(Taken(s, asked)) && Grows(s, Taken(s, asked)) && Taken(s, asked).readers == s.readers
  {
    hide Offered, Lowered, Swept, SweptOut, Visits, Progress, ByPriority, Writers;
    CopiedWriters(s, asked);
    CopiedAccounts(s, asked);
    var t := Copied(s, asked);
    LoweredAccounts(t, Min(|Offered(t.writers)|, if |t.ring| < t.size then t.size - |t.ring| else 0));
  }

  /** What was sent is what was taken and the ring, after the copies and after the refill. */
  lemma TakenHistory(s: PipeState, asked: nat)
    requires Writers(s.writers) && s.sent == s.taken + s.ring
    ensures Taken(s, asked).sent == Taken(s, asked).taken + Taken(s, asked).ring
  {
    hide Offered, Lowered, Swept, SweptOut, Visits, Writers;
    var r, d := FromRing(s, asked), FromWriters(s, asked);
    var t, o := Copied(s, asked), Offered(s.writers);
    CopiedWriters(s, asked);
    if d == 0 {
      assert Stream(s)[..r] == s.ring[..r] && s.ring == s.ring[..r] + s.ring[r..];
      assert s.taken + s.ring[..r] + s.ring[r..] == s.taken + s.ring;
      assert s.sent + o[..0] == s.sent;
    } else {
      assert Stream(s)[..r + d] == s.ring + o[..d] && s.ring[r..] == [];
    }
    assert t.sent == t.taken + t.ring;
    var n := Min(|Offered(t.writers)|, if |t.ring| < t.size then t.size - |t.ring| else 0);
    assert t.taken + t.ring + Offered(t.writers)[..n] == t.taken + (t.ring + Offered(t.writers)[..n]);
  }

  lemma TakenFits(s: PipeState, asked: nat)
    requires Writers(s.writers) && |s.ring| <= s.size
    ensures |Taken(s, asked).ring| <= s.size
  {
    hide Offered, Lowered, Swept, SweptOut, Visits, Writers;
    CopiedWriters(s, asked);
  }

  lemma NoWritersTaken(s: PipeState, asked: nat)
    requires s.writers == []
    ensures Taken(s, asked).writers == [] && (s.ring == [] ==> Taken(s, asked).ring == [])
  {
  }

  lemma TakenKeeps(s: PipeState, asked: nat)
    requires Inv(s)
    ensures Inv(Taken(s, asked)) && Grows(s, Taken(s, asked)) && Taken(s, asked).readers == s.readers
    ensures |Stream(s)| < asked ==> Taken(s, asked).ring == [] && Taken(s, asked).writers == []
  {
    hide Taken, Offered, Progress, ByPriority, Writers, Readers;
    TakenLeavesTheRest(s, asked);
    TakenAccounts(s, asked);
    TakenHistory(s, asked);
    TakenFits(s, asked);
    if |Stream(s)| < asked {
      ShortReadReadiesAll(s, asked);
    }
    if s.readers != [] {
      NoWritersTaken(s, asked);
    }
  }

  lemma ReaderPends(s: PipeState, w: Waiter)
    requires Inv(s) && s.ring == [] && s.writers == [] && 0 < w.left
    ensures Inv(s.(readers := Pended(s.readers, w, Priority)))
  {
    hide Offered, Progress, ByPriority, Writers, Pended;
    PendedByPriority(s.readers, w, Priority);
    forall y | y in Pended(s.readers, w, Priority) ensures 0 < y.left { PendedElements(s.readers, w, Priority, y); }
  }

  lemma GetKeeps(s: PipeState, tid: nat, prio: int, asked: nat, minXfer: nat, noWait: bool)
    requires Inv(s)
    ensures Inv(Get(s, tid, prio, asked, minXfer, noWait).0)
    ensures Grows(s, Get(s, tid, prio, asked, minXfer, noWait).0)
  {
    hide Taken, Stream, Offered, Progress, ByPriority, Writers, Readers, Pended;
    var n := Min(asked, |Stream(s)|);
    TakenKeeps(s, asked);
    if !Satisfied(n, asked, minXfer, noWait) {
      ReaderPends(Taken(s, asked), Waiter(tid, prio, Stream(s)[..n], asked - n));
    }
  }

  lemma {:induction false} PendedProgress(ws: seq<Waiter>, w: Waiter)
    ensures Progress(Pended(ws, w, Priority)) == Progress(ws) + |w.data| - w.left
  {
    if ws != [] && w.prio >= ws[0].prio {
      PendedProgress(ws[1..], w);
      assert Pended(ws, w, Priority)[1..] == Pended(ws[1..], w, Priority);
    } else {
      assert ([w] + ws)[1..] == ws;
    }
  }

  lemma WriterPends(s: PipeState, w: Waiter)
    requires 0 < w.left <= |w.data| && |s.ring| == s.size && s.readers == []
    requires Inv(s.(reported := s.reported + |w.data| - w.left))
    ensures Inv(s.(writers := Pended(s.writers, w, Priority)))
  {
    hide Offered, Progress, ByPriority, Readers, Pended;
    PendedByPriority(s.writers, w, Priority);
    PendedProgress(s.writers, w);
    forall y | y in Pended(s.writers, w, Priority) ensures y.left <= |y.data| { PendedElements(s.writers, w, Priority, y); }
  }

  lemma {:induction false} FedByPriority(ws: seq<Waiter>, bytes: seq<Byte>)
    requires ByPriority(ws, Priority)
    ensures ByPriority(Fed(ws, bytes), Priority)
    decreases |ws|
  {
    if bytes != [] && ws != [] && ws[0].left <= |bytes| {
      FedByPriority(ws[1..], bytes[ws[0].left..]);
    }
  }

  lemma {:induction false} WantedNothing(ws: seq<Waiter>)
    requires Readers(ws)
    ensures Wanted(ws) == 0 <==> ws == []
  {
    if ws != [] { assert ws[0] in ws; }
  }

  lemma Interchange(a: seq<Byte>, b: seq<Byte>, c: seq<Byte>, d: seq<Byte>)
    requires b == [] || c == []
    ensures (a + b) + (c + d) == (a + c) + (b + d)
  {
    if b == [] {
      assert a + b == a && b + d == d;
    } else {
      assert a + c == a && c + d == d;
    }
  }

  lemma PutHistory(s: PipeState, data: seq<Byte>)
    requires Inv(s)
    ensures PutMoved(s, data).sent == PutMoved(s, data).taken + PutMoved(s, data).ring
    ensures |PutMoved(s, data).sent| == |s.sent| + PutCount(s, data)
  {
    WantedNothing(s.readers);
    var k := Min(|data|, Wanted(s.readers));
    var n := PutCount(s, data);
    assert data[..n] == data[..k] + data[k..n];
    Interchange(s.taken, s.ring, data[..k], data[k..n]);
  }

  lemma PutMovedKeeps(s: PipeState, data: seq<Byte>)
    requires Inv(s)
    ensures
      var t, n := PutMoved(s, data), PutCount(s, data);
      && Inv(t.(reported := s.reported + n))
      && (n < |data| ==> t.readers == [] && |t.ring| == t.size)
  {
    var k := Min(|data|, Wanted(s.readers));
    var n := PutCount(s, data);
    var t := PutMoved(s, data);
    FedWants(s.readers, data[..k]);
    FedByPriority(s.readers, data[..k]);
    WantedNothing(t.readers);
    WantedNothing(s.readers);
    PutHistory(s, data);
  }

  lemma PutKeeps(s: PipeState, tid: nat, prio: int, data: seq<Byte>, minXfer: nat, noWait: bool)
    requires Inv(s)
    ensures Inv(Put(s, tid, prio, data, minXfer, noWait).0)
    ensures Grows(s, Put(s, tid, prio, data, minXfer, noWait).0)
  {
    hide Progress, ByPriority, Wanted, Fed, Writers, Readers;
    var n := PutCount(s, data);
    PutMovedKeeps(s, data);
    var t := PutMoved(s, data);
    assert t.writers == s.writers && t.reported == s.reported && Grows(s, t);
    if !Satisfied(n, |data|, minXfer, noWait) {
      WriterPends(t, Waiter(tid, prio, data, |data| - n));
    }
  }

  lemma {:induction false} ProgressWithout(ws: seq<Waiter>, i: nat)
    requires i < |ws|
    ensures Progress(ws) == Progress(ws[..i] + ws[i + 1..]) + |ws[i].data| - ws[i].left
  {
    if i == 0 {
      assert ws[..0] + ws[1..] == ws[1..];
    } else {
      assert (ws[..i] + ws[i + 1..])[1..] == ws[1..][..i - 1] + ws[1..][i..];
      ProgressWithout(ws[1..], i - 1);
    }
  }

  lemma {:induction false} OfferedWithout(ws: seq<Waiter>, i: nat)
    requires Writers(ws) && i < |ws|
    ensures Writers(ws[..i] + ws[i + 1..]) && (Offered(ws[..i] + ws[i + 1..]) != [] ==> Offered(ws) != [])
  {
    var t := ws[..i] + ws[i + 1..];
    assert forall w | w in t :: w in ws;
    if i == 0 {
      assert t == ws[1..];
    } else {
      assert t[1..] == ws[1..][..i - 1] + ws[1..][i..];
      OfferedWithout(ws[1..], i - 1);
    }
  }

  /** A blocked reader gives up; it keeps the bytes it has received. */
  function ReaderExpired(s: PipeState, i: nat): PipeState
    requires i < |s.readers|
  {
    s.(readers := s.readers[..i] + s.readers[i + 1..])
  }

  /** A blocked writer gives up and is told how many of its bytes were moved. */
  function WriterExpired(s: PipeState, i: nat): PipeState
    requires i < |s.writers| && s.writers[i].left <= |s.writers[i].data|
  {
    s.(writers := s.writers[..i] + s.writers[i + 1..],
       reported := s.reported + |s.writers[i].data| - s.writers[i].left)
  }

  lemma ExpiredKeeps(s: PipeState, i: nat)
    requires Inv(s)
    ensures i < |s.readers| ==> Inv(ReaderExpired(s, i)) && Grows(s, ReaderExpired(s, i))
    ensures i < |s.writers| ==>
      s.writers[i] in s.writers && Inv(WriterExpired(s, i)) && Grows(s, WriterExpired(s, i))
  {
    hide Progress, ByPriority, Offered;
    if i < |s.writers| {
      ProgressWithout(s.writers, i);
      RemovedByPriority(s.writers, i, Priority);
      OfferedWithout(s.writers, i);
    }
    if i < |s.readers| {
      RemovedByPriority(s.readers, i, Priority);
    }
  }

  const SIZE_MAX: nat := 0xFFFF_FFFF

  /** z_impl_k_pipe_flush(): read everything into nowhere. */
  function Flushed(s: PipeState): PipeState
    requires Writers(s.writers)
  {
    Get(s, 0, 0, SIZE_MAX, 0, true).0
  }

  /** z_impl_k_pipe_buffer_flush(): read the size of the ring into nowhere. */
  function BufferFlushed(s: PipeState): PipeState
    requires Writers(s.writers)
  {
    Get(s, 0, 0, s.size, 0, true).0
  }

  /** Flushing the buffer drops what the ring holds and no blocked writer's bytes. */
  lemma BufferFlushDropsTheRing(s: PipeState)
    requires Inv(s)
    ensures BufferFlushed(s).taken == s.taken + s.ring
    ensures Inv(BufferFlushed(s)) && Stream(BufferFlushed(s)) == Offered(s.writers)
  {
    hide Taken, Offered, Progress, ByPriority, Writers, Readers, Pended;
    TakenLeavesTheRest(s, s.size);
    GetKeeps(s, 0, 0, s.size, 0, true);
    assert Min(s.size, |Stream(s)|) == |s.ring|;
    assert Stream(s)[..|s.ring|] == s.ring && Stream(s)[|s.ring|..] == Offered(s.writers);
  }

  /** Flushing the pipe drops the ring and all blocked writers' bytes; every writer is readied
      unless the bytes come to the most that the flush can ask for. */
  lemma FlushDropsEverything(s: PipeState)
    requires Inv(s) && |Stream(s)| <= SIZE_MAX
    ensures Flushed(s).taken == s.taken + Stream(s)
    ensures Inv(Flushed(s)) && Stream(Flushed(s)) == []
    ensures |Stream(s)| < SIZE_MAX ==> Flushed(s).writers == []
  {
    hide Taken, Offered, Progress, ByPriority, Writers, Readers, Pended;
    TakenLeavesTheRest(s, SIZE_MAX);
    GetKeeps(s, 0, 0, SIZE_MAX, 0, true);
    TakenKeeps(s, SIZE_MAX);
    assert Stream(s)[..|Stream(s)|] == Stream(s);
  }

  // ----- Who is readied -----

  /** Reader `i` gets its share of the bytes: the next ones in queue order, up to what it
      still wants.  It is readied exactly when it wants no more. */
  ghost predicate GetsItsShare(ws: seq<Waiter>, bytes: seq<Byte>, i: nat)
    requires i < |ws|
  {
    var all, a, b := FedOut(ws, bytes) + Fed(ws, bytes), Min(|bytes|, Wanted(ws[..i])), Min(|bytes|, Wanted(ws[..i + 1]));
    && |all| == |ws| && a <= b && b - a <= ws[i].left
    && all[i] == ws[i].(data := ws[i].data + bytes[a..b], left := ws[i].left - (b - a))
    && (i < |FedOut(ws, bytes)| <==> all[i].left == 0)
  }

  lemma WantedFirst(ws: seq<Waiter>, i: nat)
    requires i < |ws|
    ensures Wanted(ws[..i + 1]) == ws[0].left + Wanted(ws[1..][..i])
    ensures i > 0 ==> Wanted(ws[..i]) == ws[0].left + Wanted(ws[1..][..i - 1])
    ensures i == 0 ==> Wanted(ws[..0]) == Wanted(ws[1..][..0]) == 0
  {
    assert ws[..i + 1][1..] == ws[1..][..i];
    if i > 0 { assert ws[..i][1..] == ws[1..][..i - 1]; }
  }

  /** All the bytes go to the first reader. */
  lemma FedFirst(ws: seq<Waiter>, bytes: seq<Byte>, i: nat)
    requires i < |ws| && (bytes == [] || ws[0].left > |bytes|) && 0 < ws[0].left && 0 < ws[i].left
    ensures GetsItsShare(ws, bytes, i)
  {
    assert ws[i].data + [] == ws[i].data;
    assert bytes[..|bytes|] == bytes;
    WantedFirst(ws, i);
  }

  lemma FedUnfold(ws: seq<Waiter>, bytes: seq<Byte>)
    requires ws != [] && bytes != [] && ws[0].left <= |bytes|
    ensures Fed(ws, bytes) == Fed(ws[1..], bytes[ws[0].left..])
    ensures FedOut(ws, bytes) ==
            [ws[0].(data := ws[0].data + bytes[..ws[0].left], left := 0)] + FedOut(ws[1..], bytes[ws[0].left..])
  {
  }

  lemma {:induction false} FedCount(ws: seq<Waiter>, bytes: seq<Byte>)
    ensures |FedOut(ws, bytes)| + |Fed(ws, bytes)| == |ws|
    decreases |ws|
  {
    if bytes != [] && ws != [] && ws[0].left <= |bytes| {
      FedCount(ws[1..], bytes[ws[0].left..]);
    }
  }

  lemma Behind(x: Waiter, a: seq<Waiter>, b: seq<Waiter>)
    ensures [x] + a + b == [x] + (a + b)
  {
  }

  /** The first reader is satisfied, and the others get theirs of the rest. */
  lemma FedRest(ws: seq<Waiter>, bytes: seq<Byte>, i: nat)
    requires i < |ws| && bytes != [] && 0 < ws[0].left <= |bytes|
    requires i > 0 ==> GetsItsShare(ws[1..], bytes[ws[0].left..], i - 1)
    ensures GetsItsShare(ws, bytes, i)
  {
    hide Fed, FedOut, Wanted;
    var rest := bytes[ws[0].left..];
    FedUnfold(ws, bytes);
    FedCount(ws[1..], rest);
    WantedFirst(ws, i);
    if i > 0 {
      var a, b := Min(|rest|, Wanted(ws[1..][..i - 1])), Min(|rest|, Wanted(ws[1..][..i]));
      assert rest[a..b] == bytes[ws[0].left + a..ws[0].left + b];
      Behind(ws[0].(data := ws[0].data + bytes[..ws[0].left], left := 0), FedOut(ws[1..], rest), Fed(ws[1..], rest));
    } else {
      assert bytes[0..ws[0].left] == bytes[..ws[0].left];
    }
  }

  lemma {:induction false} FedEach(ws: seq<Waiter>, bytes: seq<Byte>, i: nat)
    requires Readers(ws) && i < |ws|
    ensures GetsItsShare(ws, bytes, i)
    decreases |ws|
  {
    hide GetsItsShare, Fed, FedOut, Wanted;
    assert ws[0] in ws && ws[i] in ws;
    if bytes == [] || ws[0].left > |bytes| {
      FedFirst(ws, bytes, i);
    } else {
      if i > 0 { FedEach(ws[1..], bytes[ws[0].left..], i - 1); }
      FedRest(ws, bytes, i);
    }
  }

  /** The writers that a read readies, in queue order. */
  function Readied(s: PipeState, asked: nat): seq<Waiter>
    requires Writers(s.writers)
  {
    SweptOut(Lowered(s.writers, FromWriters(s, asked)), Visits(s.writers, asked))
  }

  /** Each of them was blocked, and all its bytes are gone. */
  lemma ReadiedAreDone(s: PipeState, asked: nat, w: Waiter)
    requires Writers(s.writers) && w in Readied(s, asked)
    ensures w.left == 0 && exists i :: 0 <= i < |s.writers| && w == s.writers[i].(left := 0)
  {
    hide Offered, Lowered, SweptOut, Visits;
    var d := FromWriters(s, asked);
    LoweredOffersAll(s.writers, d);
    SweptOutWriters(Lowered(s.writers, d), Visits(s.writers, asked));
    var i :| 0 <= i < |s.writers| && Lowered(s.writers, d)[i] == w;
    LoweredSame(s.writers, d, i);
  }

  // ----- What the callers are told -----

  /** What the pipe can take at once: what blocked readers want, and the room in the ring. */
  function CanTake(s: PipeState): nat
    requires |s.ring| <= s.size
  {
    Wanted(s.readers) + (s.size - |s.ring|)
  }

  /** `c` bytes of `data` are moved: first to blocked readers, as many as they want, and then
      behind the ring. */
  ghost predicate Accepted(s: PipeState, t: PipeState, data: seq<Byte>, c: nat) {
    && c <= |data|
    && var k := Min(c, Wanted(s.readers));
    && t.sent == s.sent + data[..c] && t.taken == s.taken + data[..k] && t.ring == s.ring + data[k..c]
    && t.readers == Fed(s.readers, data[..k]) && t.size == s.size
  }

  /** What a write tells its caller.  It is refused exactly if it asks for more than it has, and
      sent back exactly if it may not wait for the least that it asks for; nothing happens then.
      Else the pipe accepts as many bytes as it can, and the count that is told is how many:
      at least the least, and less than all only for a caller that may not wait or asked for
      a least.  Else the caller is blocked with the rest. */
  lemma PutTells(s: PipeState, tid: nat, prio: int, data: seq<Byte>, minXfer: nat, noWait: bool)
    requires Inv(s)
    ensures
      var (t, r) := Put(s, tid, prio, data, minXfer, noWait);
      var c := Min(|data|, CanTake(s));
      && (r == Invalid <==> minXfer > |data|)
      && (r == WouldBlock <==> minXfer <= |data| && noWait && CanTake(s) < minXfer)
      && (r == Invalid || r == WouldBlock ==> t == s)
      && (r == Blocks <==> minXfer <= |data| && !noWait && c < |data| && (minXfer == 0 || c < minXfer))
      && (r.Done? ==> r.count == c && c >= minXfer && (c < |data| ==> noWait || 0 < minXfer))
      && (r.Done? ==> Accepted(s, t, data, c) && t.reported == s.reported + c && t.writers == s.writers)
      && (r == Blocks ==> Accepted(s, t, data, c) && t.reported == s.reported
                          && t.writers == Pended(s.writers, Waiter(tid, prio, data, |data| - c), Priority))
  {
    hide Fed, Wanted, Progress, ByPriority, Offered, Writers, Readers, Pended;
    WantedNothing(s.readers);
  }

  /** What the threads of a queue are told when they are done. */
  function Told(ws: seq<Waiter>): nat { if ws == [] then 0 else |ws[0].data| + Told(ws[1..]) }

  lemma {:induction false} DoneProgress(ws: seq<Waiter>)
    requires forall w | w in ws :: w.left == 0
    ensures Progress(ws) == Told(ws)
  {
    if ws != [] {
      assert ws[0] in ws;
      DoneProgress(ws[1..]);
    }
  }

  lemma TakenTells(s: PipeState, asked: nat)
    requires Writers(s.writers)
    ensures Taken(s, asked).reported == s.reported + Told(Readied(s, asked))
  {
    hide Offered, Lowered, Swept, SweptOut, Visits, Progress, Writers;
    CopiedWriters(s, asked);
    forall w | w in Readied(s, asked) ensures w.left == 0 {
      ReadiedAreDone(s, asked, w);
    }
    DoneProgress(Readied(s, asked));
  }

  /** What a read tells its caller, in the same way, and what the writers are told that it
      readies: the length of their data. */
  lemma GetTells(s: PipeState, tid: nat, prio: int, asked: nat, minXfer: nat, noWait: bool)
    requires Inv(s)
    ensures
      var (t, r) := Get(s, tid, prio, asked, minXfer, noWait);
      var c := Min(asked, |Stream(s)|);
      && (r == Invalid <==> minXfer > asked)
      && (r == WouldBlock <==> minXfer <= asked && noWait && |Stream(s)| < minXfer)
      && (r == Invalid || r == WouldBlock ==> t == s)
      && (r == Blocks <==> minXfer <= asked && !noWait && c < asked && (minXfer == 0 || c < minXfer))
      && (r.Done? ==> r.count == c && c >= minXfer && (c < asked ==> noWait || 0 < minXfer) && t.readers == s.readers)
      && (r == Blocks ==> t.readers == Pended(s.readers, Waiter(tid, prio, Stream(s)[..c], asked - c), Priority))
      && (r.Done? || r == Blocks ==>
            && t.taken == s.taken + Stream(s)[..c] && Writers(t.writers) && Stream(t) == Stream(s)[c..]
            && t.reported == s.reported + Told(Readied(s, asked)) && t.size == s.size)
  {
    hide Taken, Progress, ByPriority, Offered, Writers, Readers, Pended;
    TakenKeeps(s, asked);
    TakenLeavesTheRest(s, asked);
    TakenTells(s, asked);
  }

  /** Just the thread at place `i` is gone. */
  ghost predicate Gone(ws: seq<Waiter>, i: nat, rest: seq<Waiter>) {
    |rest| + 1 == |ws| && forall k | 0 <= k < |rest| :: rest[k] == ws[if k < i then k else k + 1]
  }

  /** A thread that gives up leaves its queue, and a writer is told what was moved; no byte
      moves, and nobody else is told anything. */
  lemma ExpiredTells(s: PipeState, i: nat)
    requires Inv(s)
    ensures i < |s.readers| ==>
      var t := ReaderExpired(s, i);
      && Gone(s.readers, i, t.readers) && t.reported == s.reported && Stream(s) == t.ring + Offered(s.writers)
      && t.writers == s.writers && t.sent == s.sent && t.taken == s.taken
    ensures i < |s.writers| ==>
      && s.writers[i] in s.writers
      && var t := WriterExpired(s, i);
      && Gone(s.writers, i, t.writers) && t.reported == s.reported + (|s.writers[i].data| - s.writers[i].left)
      && t.readers == s.readers && t.ring == s.ring && t.sent == s.sent && t.taken == s.taken
  {
    hide Progress, ByPriority, Offered;
  }

  // ----- Writers that stay blocked with nothing left -----

  lemma {:induction false} VisitsAt(ws: seq<Waiter>, requested: nat, i: nat)
    requires i < |ws|
    ensures i < Visits(ws, requested) <==> i == 0 || Wanted(ws[..i]) < requested
  {
    if i > 0 {
      assert ws[..i][1..] == ws[1..][..i - 1];
      if ws[0].left < requested {
        VisitsAt(ws[1..], requested - ws[0].left, i - 1);
        if i == 1 { assert ws[1..][..0] == []; }
      }
    }
  }

  /** Of the writers, the first `k` visited, `d` bytes went directly and `m` more to the ring:
      writer `i` keeps its place with nothing left. */
  ghost predicate Forgotten(ws: seq<Waiter>, k: nat, d: nat, m: nat, i: nat)
    requires i < |ws|
  {
    var upto := Wanted(ws[..i + 1]);
    if ws[i].left == 0 then i >= k else d < upto <= d + m || (upto <= d && i >= k)
  }

  ghost predicate AnyForgotten(ws: seq<Waiter>, k: nat, d: nat, m: nat) {
    exists i :: 0 <= i < |ws| && Forgotten(ws, k, d, m, i)
  }

  ghost predicate AnySpent(ws: seq<Waiter>) { exists w :: w in ws && w.left == 0 }

  lemma NobodyForgotten(k: nat, d: nat, m: nat)
    ensures !AnySpent(Lowered(Swept(Lowered([], d), k), m)) && !AnyForgotten([], k, d, m)
  {
  }

  /** What is left of the queue, from the front. */
  lemma ForgottenFirst(ws: seq<Waiter>, k: nat, d: nat, m: nat)
    requires ws != []
    ensures
      var c := Min(ws[0].left, d);
      var l := ws[0].left - c;
      var k', m' := if k == 0 then 0 else k - 1, m - Min(l, m);
      Lowered(Swept(Lowered(ws, d), k), m) ==
        (if k > 0 && l == 0 then [] else [ws[0].(left := l - Min(l, m))]) + Lowered(Swept(Lowered(ws[1..], d - c), k'), m')
  {
    hide Lowered, Swept;
    var t := Lowered(ws, d);
    LoweredUnfold(ws, d);
    SweptUnfold(t, k);
    SweptUnfold(t[1..], 0);
    if k == 0 || t[0].left > 0 {
      var q := Swept(t, k);
      assert q[0] == t[0] && q[1..] == Swept(t[1..], if k == 0 then 0 else k - 1);
      LoweredUnfold(q, m);
      assert Lowered(q, m) == [Lowered(q, m)[0]] + Lowered(q, m)[1..];
    } else {
      assert Swept(t, k) == Swept(t[1..], k - 1);
    }
  }

  lemma ForgottenHead(ws: seq<Waiter>, k: nat, d: nat, m: nat)
    requires ws != []
    ensures
      var l := ws[0].left - Min(ws[0].left, d);
      Forgotten(ws, k, d, m, 0) <==> !(k > 0 && l == 0) && l - Min(l, m) == 0
  {
    WantedFirst(ws, 0);
  }

  lemma SpentFirst(h: Waiter, ws: seq<Waiter>)
    ensures AnySpent([h] + ws) <==> h.left == 0 || AnySpent(ws)
    ensures [] + ws == ws
  {
    assert h in [h] + ws;
    assert forall w | w in ws :: w in [h] + ws;
  }

  lemma {:induction false} LastCounts(ws: seq<Waiter>, i: nat)
    requires i < |ws|
    ensures Wanted(ws) >= ws[i].left
  {
    if i > 0 { LastCounts(ws[1..], i - 1); }
  }

  lemma ForgottenNext(ws: seq<Waiter>, k: nat, d: nat, m: nat, i: nat)
    requires 0 < i < |ws|
    ensures
      var c := Min(ws[0].left, d);
      var l := ws[0].left - c;
      Forgotten(ws, k, d, m, i) <==> Forgotten(ws[1..], if k == 0 then 0 else k - 1, d - c, m - Min(l, m), i - 1)
  {
    assert ws[..i + 1][1..] == ws[1..][..i];
    LastCounts(ws[1..][..i], i - 1);
  }

  lemma Witnesses(ws: seq<Waiter>, k: nat, d: nat, m: nat, xs: seq<Waiter>, k': nat, d': nat, m': nat)
    requires ws != [] && xs == ws[1..]
    requires forall i | 0 < i < |ws| :: Forgotten(ws, k, d, m, i) <==> Forgotten(xs, k', d', m', i - 1)
    ensures AnyForgotten(ws, k, d, m) <==> Forgotten(ws, k, d, m, 0) || AnyForgotten(xs, k', d', m')
  {
    hide Forgotten;
    if i :| 0 <= i < |xs| && Forgotten(xs, k', d', m', i) {
      assert Forgotten(ws, k, d, m, i + 1);
    }
  }

  lemma {:induction false} ForgottenIff(ws: seq<Waiter>, k: nat, d: nat, m: nat)
    ensures AnySpent(Lowered(Swept(Lowered(ws, d), k), m)) <==> AnyForgotten(ws, k, d, m)
  {
    hide AnySpent, AnyForgotten, Forgotten, Lowered, Swept;
    if ws == [] {
      NobodyForgotten(k, d, m);
    } else {
      var c := Min(ws[0].left, d);
      var l := ws[0].left - c;
      var k', m' := if k == 0 then 0 else k - 1, m - Min(l, m);
      ForgottenIff(ws[1..], k', d - c, m');
      ForgottenFirst(ws, k, d, m);
      ForgottenHead(ws, k, d, m);
      SpentFirst(ws[0].(left := l - Min(l, m)), Lowered(Swept(Lowered(ws[1..], d - c), k'), m'));
      forall i | 0 < i < |ws| ensures Forgotten(ws, k, d, m, i) <==> Forgotten(ws[1..], k', d - c, m', i - 1) {
        ForgottenNext(ws, k, d, m, i);
      }
      Witnesses(ws, k, d, m, ws[1..], k', d - c, m');
    }
  }

  /** What the refill after a read of `asked` bytes moves. */
  function ToRing(s: PipeState, asked: nat): nat
    requires Writers(s.writers) && |s.ring| <= s.size
  {
    Min(|Offered(s.writers)| - FromWriters(s, asked), s.size - (|s.ring| - FromRing(s, asked)))
  }

  /** Writer `i` has its last byte taken by the refill and not by the direct copy, or had
      nothing left and is not among those that the read visits. */
  ghost predicate StaysInVain(s: PipeState, asked: nat, i: nat)
    requires Writers(s.writers) && |s.ring| <= s.size && i < |s.writers|
  {
    var ws, d := s.writers, FromWriters(s, asked);
    if ws[i].left == 0 then i > 0 && Wanted(ws[..i]) >= asked
    else d < Wanted(ws[..i + 1]) <= d + ToRing(s, asked)
  }

  /** A read leaves a writer blocked that has nothing left to write if and only if there is
      such a writer. */
  lemma ReadForgetsIff(s: PipeState, asked: nat)
    requires Writers(s.writers) && |s.ring| <= s.size
    ensures (exists w :: w in Taken(s, asked).writers && w.left == 0)
            <==> exists i :: 0 <= i < |s.writers| && StaysInVain(s, asked, i)
  {
    hide Offered, Lowered, Swept, SweptOut, Visits, Writers;
    var ws, k, d, m := s.writers, Visits(s.writers, asked), FromWriters(s, asked), ToRing(s, asked);
    CopiedWriters(s, asked);
    ForgottenIff(ws, k, d, m);
    assert Taken(s, asked).writers == Lowered(Swept(Lowered(ws, d), k), m);
    forall i | 0 <= i < |ws| ensures Forgotten(ws, k, d, m, i) <==> StaysInVain(s, asked, i) {
      VisitsAt(ws, asked, i);
      WantedStep(ws, i);
    }
  }

  lemma OneWriter(w: Waiter, asked: nat)
    requires 0 < w.left <= |w.data|
    ensures Offered([w]) == w.data[|w.data| - w.left..] && Progress([w]) == |w.data| - w.left && Visits([w], asked) == 1
    ensures Swept([w], 1) == [w] && SweptOut([w], 1) == [] && Lowered([w], w.left) == [w.(left := 0)] && Progress([]) == 0
  {
    assert [w][1..] == [];
    assert SweptOut([w][1..], 0) == [];
    assert w.data[|w.data| - w.left..] + Offered([w][1..]) == w.data[|w.data| - w.left..];
  }

  /** A writer can stay like this: the ring is full, a writer has two bytes left, and five are read.  The
      refill takes the two, the ring is no longer full, and the writer stays. */
  lemma SatisfiedWriterStays(w: Waiter, ring: seq<Byte>)
    requires |w.data| == w.left == 2 && |ring| == 10
    ensures
      var s := PipeState(10, ring, [], [w], ring, [], 10);
      var t := Get(s, 1, 0, 5, 0, true).0;
      Inv(s) && t.writers == [w.(left := 0)] && |t.ring| == 7
  {
    hide Offered, Lowered, Swept, SweptOut, Visits, Wanted, Progress;
    var s := PipeState(10, ring, [], [w], ring, [], 10);
    OneWriter(w, 5);
    LoweredNothing([w]);
    var c := Copied(s, 5);
    assert FromRing(s, 5) == 5 && FromWriters(s, 5) == 0;
    assert c.writers == [w] && |c.ring| == 5;
  }

  /** The next read of any size readies it if it is the first. */
  lemma FirstIsReadied(s: PipeState, asked: nat)
    requires Writers(s.writers) && s.writers != [] && s.writers[0].left == 0
    ensures Readied(s, asked) != [] && Readied(s, asked)[0] == s.writers[0]
  {
  }

  // ----- Whole runs -----

  datatype Op =
    | PutOp(tid: nat, prio: int, data: seq<Byte>, minXfer: nat, noWait: bool)
    | GetOp(tid: nat, prio: int, asked: nat, minXfer: nat, noWait: bool)
    | FlushOp
    | BufferFlushOp
    | ReaderTimeout(i: nat)
    | WriterTimeout(i: nat)

  ghost function Step(s: PipeState, op: Op): PipeState
    requires Inv(s)
  {
    match op
    case PutOp(tid, prio, data, minXfer, noWait) => Put(s, tid, prio, data, minXfer, noWait).0
    case GetOp(tid, prio, asked, minXfer, noWait) => Get(s, tid, prio, asked, minXfer, noWait).0
    case FlushOp => Flushed(s)
    case BufferFlushOp => BufferFlushed(s)
    case ReaderTimeout(i) => if i < |s.readers| then ReaderExpired(s, i) else s
    case WriterTimeout(i) => ExpiredKeeps(s, i); if i < |s.writers| then WriterExpired(s, i) else s
  }

  lemma StepKeeps(s: PipeState, op: Op)
    requires Inv(s)
    ensures Inv(Step(s, op)) && Grows(s, Step(s, op))
  {
    hide Inv, Get, Put;
    match op {
      case PutOp(tid, prio, data, minXfer, noWait) => PutKeeps(s, tid, prio, data, minXfer, noWait);
      case GetOp(tid, prio, asked, minXfer, noWait) => GetKeeps(s, tid, prio, asked, minXfer, noWait);
      case FlushOp => GetKeeps(s, 0, 0, SIZE_MAX, 0, true);
      case BufferFlushOp => GetKeeps(s, 0, 0, s.size, 0, true);
      case ReaderTimeout(i) => ExpiredKeeps(s, i);
      case WriterTimeout(i) => ExpiredKeeps(s, i);
    }
  }

  ghost function Run(s: PipeState, ops: seq<Op>): PipeState
    requires Inv(s)
    decreases |ops|
  {
    if ops == [] then s
    else
      StepKeeps(s, ops[0]);
      Run(Step(s, ops[0]), ops[1..])
  }

  /** An empty pipe. */
  function Fresh(size: nat): PipeState { PipeState(size, [], [], [], [], [], 0) }

  lemma {:induction false} RunKeeps(s: PipeState, ops: seq<Op>)
    requires Inv(s)
    ensures Inv(Run(s, ops)) && Grows(s, Run(s, ops))
    decreases |ops|
  {
    if ops != [] {
      StepKeeps(s, ops[0]);
      RunKeeps(Step(s, ops[0]), ops[1..]);
    }
  }

  lemma FreshKeeps(size: nat)
    ensures Inv(Fresh(size))
  {
    assert Offered([]) == [] && Progress([]) == 0;
  }

  /** The pipe after a run. */
  ghost function Reached(size: nat, ops: seq<Op>): PipeState {
    FreshKeeps(size);
    Run(Fresh(size), ops)
  }

  lemma {:induction false} NothingLeft(ws: seq<Waiter>)
    requires Writers(ws) && Offered(ws) == []
    ensures forall w | w in ws :: w.left == 0
  {
    if ws != [] {
      assert ws[0] in ws;
      NothingLeft(ws[1..]);
    }
  }

  /**
   After any run from an empty pipe: the bytes writers got rid of are, in order, the bytes
   that were taken out followed by those in the ring; the counts told to writers and the
   progress of those still blocked come to the bytes moved; and threads that want or have
   bytes block only on an empty or a full ring, never both kinds at once.
   */
  lemma EveryRunKeepsTheStream(size: nat, ops: seq<Op>)
    ensures
      var t := Reached(size, ops);
      && t.size == size && |t.ring| <= size && t.sent == t.taken + t.ring
      && t.reported + Progress(t.writers) == |t.sent|
      && (t.readers != [] ==> t.ring == [] && t.writers == [])
      && (|t.ring| < size ==> forall w | w in t.writers :: w.left == 0)
  {
    hide ByPriority, Step, Progress, Offered, Wanted;
    FreshKeeps(size);
    RunKeeps(Fresh(size), ops);
    var t := Reached(size, ops);
    if Offered(t.writers) == [] { NothingLeft(t.writers); }
  }

  /** Two writes lead to the pipe of `SatisfiedWriterStays`. */
  lemma FullRingReached(ring: seq<Byte>, prio: int, data: seq<Byte>)
    requires |ring| == 10 && |data| == 2
    ensures Reached(10, [PutOp(0, 0, ring, 0, true), PutOp(1, prio, data, 0, false)])
            == PipeState(10, ring, [], [Waiter(1, prio, data, 2)], ring, [], 10)
  {
    hide Inv, Get, ByPriority;
    var p, q := PutOp(0, 0, ring, 0, true), PutOp(1, prio, data, 0, false);
    var w := Waiter(1, prio, data, 2);
    FreshKeeps(10);
    StepKeeps(Fresh(10), p);
    var s := PipeState(10, ring, [], [], ring, [], 10);
    assert [] + ring[..10] == ring && ring[..0] == [] && [] + ring[0..10] == ring;
    assert Step(Fresh(10), p) == s;
    StepKeeps(s, q);
    assert ring + data[0..0] == ring && ring + data[..0] == ring && data[..0] == [];
    assert Pended([], w, Priority) == [w];
    assert Step(s, q) == s.(writers := [w]);
    assert [p, q][1..] == [q] && [q][1..] == [];
    assert Run(s, [q]) == s.(writers := [w]);
  }

  // ----- The ring -----

  function Wrap(i: nat, size: nat): nat { if i >= size then i - size else i }

  /** The bytes of a ring that starts at `r` and holds `used` of them. */
  function RingOf(b: seq<Byte>, r: nat, used: nat): (s: seq<Byte>)
    requires used <= |b| && (b == [] || r < |b|)
    ensures |s| == used
  {
    seq(used, i requires 0 <= i < used => b[Wrap(r + i, |b|)])
  }

  /** Reading `n` bytes that do not wrap drops them from the front. */
  lemma RingRead(b: seq<Byte>, r: nat, used: nat, n: nat)
    requires used <= |b| && r < |b| && n <= used && r + n <= |b|
    ensures b[r..r + n] == RingOf(b, r, used)[..n]
    ensures RingOf(b, Wrap(r + n, |b|), used - n) == RingOf(b, r, used)[n..]
  {
    var now, later := RingOf(b, r, used), RingOf(b, Wrap(r + n, |b|), used - n);
    forall i | 0 <= i < n ensures b[r..r + n][i] == now[i] {
      assert Wrap(r + i, |b|) == r + i;
    }
    forall i | 0 <= i < |later| ensures later[i] == now[n..][i] {
      assert Wrap(Wrap(r + n, |b|) + i, |b|) == Wrap(r + (n + i), |b|);
    }
  }

  /** Writing bytes that do not wrap appends them. */
  lemma RingWrite(b: seq<Byte>, r: nat, used: nat, w: nat, data: seq<Byte>)
    requires used + |data| <= |b| && r < |b| && w == Wrap(r + used, |b|) && w + |data| <= |b|
    ensures RingOf(b[..w] + data + b[w + |data|..], r, used + |data|) == RingOf(b, r, used) + data
  {
    var c := b[..w] + data + b[w + |data|..];
    forall i | 0 <= i < used + |data|
      ensures c[Wrap(r + i, |b|)] == (RingOf(b, r, used) + data)[i]
    {
      if i >= used {
        assert Wrap(r + i, |b|) == w + (i - used) || w == r + used - |b|;
      }
    }
  }

  /** A stretch of the buffer: a pipe descriptor without a thread. */
  datatype Piece = Piece(off: nat, len: nat)

  /** pipe_buffer_list_populate(). */
  function Pieces(size: nat, start: nat, end: nat): seq<Piece>
    requires start < size
  {
    if start < end then [Piece(start, end - start)] else [Piece(start, size - start), Piece(0, end)]
  }

  /** A further `c` bytes of writer `i`, when everything before it has been moved. */
  lemma {:induction false} LoweredStep(ws: seq<Waiter>, i: nat, n: nat, c: nat)
    requires Writers(ws) && i < |ws| && Wanted(ws[..i]) <= n <= Wanted(ws[..i + 1])
    requires n + c <= Wanted(ws[..i + 1])
    ensures ws[i] in ws && Lowered(ws, n)[i] == ws[i].(left := Wanted(ws[..i + 1]) - n)
    ensures Lowered(ws, n + c) == Lowered(ws, n)[i := ws[i].(left := Wanted(ws[..i + 1]) - n - c)]
  {
    hide Lowered, Wanted;
    WantedFirst(ws, i);
    LoweredUnfold(ws, n);
    LoweredUnfold(ws, n + c);
    var a, b := Lowered(ws, n), Lowered(ws, n + c);
    assert a == [a[0]] + a[1..] && b == [b[0]] + b[1..];
    if i == 0 {
      LoweredNothing(ws[1..]);
    } else {
      LoweredStep(ws[1..], i - 1, n - ws[0].left, c);
      assert ws[1..][i - 1] == ws[i];
    }
  }

  lemma NextWithin(own: seq<Byte>, rest: seq<Byte>, n: nat, c: nat)
    requires n + c <= |own|
    ensures (own + rest)[..n + c] == (own + rest)[..n] + own[n..][..c]
  {
  }

  lemma NextBehind(own: seq<Byte>, rest: seq<Byte>, m: nat, c: nat)
    requires m + c <= |rest|
    ensures (own + rest)[..|own| + m + c] == own + rest[..m + c] && (own + rest)[..|own| + m] == own + rest[..m]
    ensures rest[..m + c] == rest[..m] + rest[m..m + c]
  {
  }

  /** The bytes of a step are the next ones that are offered. */
  lemma {:induction false} OfferedStep(ws: seq<Waiter>, i: nat, n: nat, c: nat)
    requires Writers(ws) && i < |ws| && Wanted(ws[..i]) <= n <= Wanted(ws[..i + 1])
    requires n + c <= Wanted(ws[..i + 1])
    ensures
      var d, l := ws[i].data, Wanted(ws[..i + 1]) - n;
      l <= |d| && n + c <= |Offered(ws)| && Offered(ws)[..n + c] == Offered(ws)[..n] + d[|d| - l..][..c]
  {
    hide Offered, Wanted;
    WantedFirst(ws, i);
    OfferedUnfold(ws);
    OfferedLength(ws);
    OfferedLength(ws[1..]);
    WantedBounds(ws, i + 1);
    var own, rest := ws[0].data[|ws[0].data| - ws[0].left..], Offered(ws[1..]);
    if i == 0 {
      assert ws[0].data[|ws[0].data| - (ws[0].left - n)..] == own[n..];
      NextWithin(own, rest, n, c);
    } else {
      OfferedStep(ws[1..], i - 1, n - ws[0].left, c);
      var m := n - ws[0].left;
      NextBehind(own, rest, m, c);
      assert own + rest[..m + c] == own + rest[..m] + rest[m..m + c];
    }
  }

  /** `n` bytes of the sources have gone to the ring, all of the first `i` of them and none of
      those behind. */
  ghost predicate Moved(sources: seq<Waiter>, after: seq<Waiter>, i: nat, n: nat, ring0: seq<Byte>, ring: seq<Byte>)
    requires Writers(sources)
  {
    && i <= |sources| && Wanted(sources[..i]) <= n && (i < |sources| ==> n <= Wanted(sources[..i + 1]))
    && n <= Wanted(sources) && n <= |Offered(sources)|
    && after == Lowered(sources, n) && ring == ring0 + Offered(sources)[..n]
  }

  lemma NothingMoved(sources: seq<Waiter>, ring: seq<Byte>)
    requires Writers(sources)
    ensures Moved(sources, sources, 0, 0, ring, ring)
  {
    LoweredNothing(sources);
    assert ring + Offered(sources)[..0] == ring;
  }

  lemma MovedAll(sources: seq<Waiter>, after: seq<Waiter>, n: nat, ring0: seq<Byte>, ring: seq<Byte>)
    requires Writers(sources) && Moved(sources, after, |sources|, n, ring0, ring)
    ensures n == |Offered(sources)|
  {
    OfferedLength(sources);
    assert sources[..|sources|] == sources;
  }

  lemma MovedStep(sources: seq<Waiter>, after: seq<Waiter>, i: nat, n: nat, ring0: seq<Byte>, ring: seq<Byte>, c: nat)
    requires Writers(sources) && i < |sources| && Moved(sources, after, i, n, ring0, ring) && c <= after[i].left
    ensures
      var w := after[i];
      && w.left <= |w.data|
      && Moved(sources, after[i := w.(left := w.left - c)], if w.left == c then i + 1 else i, n + c, ring0,
               ring + w.data[|w.data| - w.left..][..c])
  {
    hide Offered, Lowered, Wanted;
    LoweredStep(sources, i, n, 0);
    LoweredStep(sources, i, n, c);
    OfferedStep(sources, i, n, c);
    OfferedLength(sources);
    WantedBounds(sources, i + 1);
    if i + 1 < |sources| { WantedStep(sources, i + 1); }
    var chunk := after[i].data[|after[i].data| - after[i].left..][..c];
    assert ring0 + Offered(sources)[..n] + chunk == ring0 + (Offered(sources)[..n] + chunk);
  }

  // ----- Visits of a read -----

  /** Where writer `i` stands in the queue when those before it were visited. */
  function Place(ws: seq<Waiter>, i: nat): int { |Swept(ws, i)| - (|ws| - i) }

  /** `r` is `q` with its element `x` at `p` taken out if it has nothing left. */
  ghost predicate ReadiedAt(q: seq<Waiter>, p: int, x: Waiter, r: seq<Waiter>) {
    0 <= p < |q| && q[p] == x && r == if x.left == 0 then q[..p] + q[p + 1..] else q
  }

  lemma ReadiedBehind(h: seq<Waiter>, q: seq<Waiter>, p: int, x: Waiter, r: seq<Waiter>)
    requires ReadiedAt(q, p, x, r)
    ensures ReadiedAt(h + q, |h| + p, x, h + r)
  {
    if x.left == 0 {
      assert (h + q)[..|h| + p] == h + q[..p] && (h + q)[|h| + p + 1..] == q[p + 1..];
    }
  }

  lemma SweptOne(ws: seq<Waiter>)
    requires ws != []
    ensures ReadiedAt(Swept(ws, 0), 0, ws[0], Swept(ws, 1))
  {
    assert ws == [ws[0]] + ws[1..] && ws[..0] + ws[1..] == ws[1..];
    assert Swept(ws[1..], 0) == ws[1..];
  }

  lemma {:induction false} SweptStep(ws: seq<Waiter>, i: nat)
    requires i < |ws|
    ensures ReadiedAt(Swept(ws, i), Place(ws, i), ws[i], Swept(ws, i + 1))
  {
    hide Swept, ReadiedAt;
    SweptUnfold(ws, i);
    if i > 0 {
      var h := if ws[0].left == 0 then [] else [ws[0]];
      SweptUnfold(ws, i + 1);
      SweptStep(ws[1..], i - 1);
      ReadiedBehind(h, Swept(ws[1..], i - 1), Place(ws[1..], i - 1), ws[i], Swept(ws[1..], i));
    } else {
      SweptOne(ws);
    }
  }

  lemma {:induction false} SweptOutStep(ws: seq<Waiter>, i: nat)
    requires i < |ws|
    ensures SweptOut(ws, i + 1) == SweptOut(ws, i) + if ws[i].left == 0 then [ws[i]] else []
  {
    if i > 0 {
      SweptOutStep(ws[1..], i - 1);
    }
  }

  lemma {:induction false} SweptUpdate(ws: seq<Waiter>, i: nat, x: Waiter)
    requires i < |ws|
    ensures 0 <= Place(ws, i) < |Swept(ws, i)|
    ensures Swept(ws[i := x], i) == Swept(ws, i)[Place(ws, i) := x] && SweptOut(ws[i := x], i) == SweptOut(ws, i)
  {
    if i > 0 {
      SweptUpdate(ws[1..], i - 1, x);
      assert ws[i := x][1..] == ws[1..][i - 1 := x];
    }
  }

  /** A visit of writer `i` by a read that wants `want` bytes of writers in all. */
  lemma VisitOne(ws: seq<Waiter>, i: nat, want: nat, n: nat)
    requires Writers(ws) && i < |ws| && n == Min(want, Wanted(ws[..i]))
    ensures
      var low := Lowered(ws, n);
      var w := low[i];
      var c := Min(want - n, w.left);
      && w.left <= |w.data| && n + c == Min(want, Wanted(ws[..i + 1])) && n + c <= |Offered(ws)|
      && Lowered(ws, n + c) == low[i := w.(left := w.left - c)]
      && Offered(ws)[..n + c] == Offered(ws)[..n] + w.data[|w.data| - w.left..][..c]
  {
    hide Offered, Lowered, Wanted;
    WantedStep(ws, i);
    OfferedLength(ws);
    LoweredWriters(ws, n);
    var w := Lowered(ws, n)[i];
    assert w in Lowered(ws, n);
    if n < Wanted(ws[..i]) {
      assert Lowered(ws, n)[i := w] == Lowered(ws, n);
    } else {
      LoweredStep(ws, i, n, 0);
      LoweredStep(ws, i, n, Min(want - n, w.left));
      OfferedStep(ws, i, n, Min(want - n, w.left));
    }
  }

  /** A visited prefix that offers what is requested does for the whole queue. */
  lemma {:induction false} VisitsSuffice(ws: seq<Waiter>, requested: nat)
    ensures var k := Visits(ws, requested); k == |ws| || Wanted(ws[..k]) >= requested
  {
    if ws != [] && ws[0].left < requested {
      VisitsSuffice(ws[1..], requested - ws[0].left);
      var k := Visits(ws[1..], requested - ws[0].left);
      assert ws[..k + 1][1..] == ws[1..][..k];
    } else if ws != [] {
      assert ws[..1][0] == ws[0];
    }
  }

  lemma NoneVisited(ws: seq<Waiter>, requested: nat)
    ensures Wanted(ws[..0]) == 0
  {
  }

  lemma VisitsOffer(ws: seq<Waiter>, requested: nat, want: nat)
    requires Writers(ws) && want <= requested
    ensures var k := Visits(ws, requested); Min(want, Wanted(ws[..k])) == Min(want, |Offered(ws)|)
  {
    hide Offered, Visits, Wanted;
    VisitsSuffice(ws, requested);
    OfferedLength(ws);
    WantedBounds(ws, Visits(ws, requested));
    assert ws[..|ws|] == ws;
  }

  lemma {:induction false} LoweredPrefix(ws: seq<Waiter>, k: nat, n: nat)
    requires k <= |ws| && n <= Wanted(ws[..k])
    ensures Lowered(ws, n) == Lowered(ws[..k], n) + ws[k..]
  {
    if k == 0 {
      LoweredNothing(ws);
    } else {
      assert ws[..k][1..] == ws[1..][..k - 1];
      LoweredPrefix(ws[1..], k - 1, n - Min(ws[0].left, n));
    }
  }

  lemma OfferedNone()
    ensures Offered([]) == []
  {
  }

  lemma {:induction false} OfferedPrefix(ws: seq<Waiter>, k: nat)
    requires Writers(ws) && k <= |ws|
    ensures Offered(ws) == Offered(ws[..k]) + Offered(ws[k..])
  {
    hide Offered;
    if k > 0 {
      OfferedPrefix(ws[1..], k - 1);
      OfferedUnfold(ws);
      OfferedUnfold(ws[..k]);
      assert ws[..k][1..] == ws[1..][..k - 1] && ws[1..][k - 1..] == ws[k..];
    } else {
      OfferedNone();
      assert ws[..0] == [] && ws[0..] == ws;
    }
  }

  /** Bytes moved from the visited writers are moved from the queue. */
  lemma PrefixMoved(ws: seq<Waiter>, k: nat, n: nat)
    requires Writers(ws) && k <= |ws| && n <= |Offered(ws[..k])|
    ensures n <= |Offered(ws)| && Offered(ws)[..n] == Offered(ws[..k])[..n]
    ensures Lowered(ws[..k], n) + ws[k..] == Lowered(ws, n)
  {
    hide Offered, Lowered, Wanted;
    OfferedPrefix(ws, k);
    OfferedLength(ws[..k]);
    LoweredPrefix(ws, k, n);
  }

  // ----- Feeding readers -----

  lemma FedNobody(ws: seq<Waiter>, bytes: seq<Byte>)
    ensures Fed(ws, []) == ws && Fed([], bytes) == []
  {
  }

  lemma FedPart(ws: seq<Waiter>, bytes: seq<Byte>)
    requires ws != [] && bytes != [] && |bytes| < ws[0].left
    ensures Fed(ws, bytes) == [ws[0].(data := ws[0].data + bytes, left := ws[0].left - |bytes|)] + ws[1..]
  {
  }

  lemma FedPartly(ws: seq<Waiter>, a: seq<Byte>, b: seq<Byte>)
    requires ws != [] && a != [] && |a| < ws[0].left
    ensures Fed(Fed(ws, a), b) == Fed(ws, a + b)
  {
    hide Fed;
    var h := ws[0];
    var t := [h.(data := h.data + a, left := h.left - |a|)] + ws[1..];
    FedPart(ws, a);
    assert t[0] == h.(data := h.data + a, left := h.left - |a|) && t[1..] == ws[1..];
    if b == [] {
      assert a + b == a;
      FedNobody(t, b);
    } else if h.left <= |a + b| {
      FedUnfold(ws, a + b);
      FedUnfold(t, b);
      assert (a + b)[h.left..] == b[h.left - |a|..];
    } else {
      FedPart(ws, a + b);
      FedPart(t, b);
      assert h.data + a + b == h.data + (a + b);
    }
  }

  lemma {:induction false} FedTwice(ws: seq<Waiter>, a: seq<Byte>, b: seq<Byte>)
    requires Readers(ws)
    ensures Fed(Fed(ws, a), b) == Fed(ws, a + b)
    decreases |ws|
  {
    hide Fed;
    FedNobody(ws, a + b);
    FedNobody(ws, b);
    FedNobody(ws, a);
    if a == [] {
      assert a + b == b;
    } else if ws != [] {
      var h := ws[0];
      if h.left <= |a| {
        FedTwice(ws[1..], a[h.left..], b);
        FedUnfold(ws, a);
        FedUnfold(ws, a + b);
        assert (a + b)[h.left..] == a[h.left..] + b;
      } else {
        FedPartly(ws, a, b);
      }
    }
  }

  lemma FedOutPartly(ws: seq<Waiter>, a: seq<Byte>, b: seq<Byte>)
    requires ws != [] && a != [] && |a| < ws[0].left
    ensures FedOut(ws, a) + FedOut(Fed(ws, a), b) == FedOut(ws, a + b)
  {
    var h := ws[0];
    var t := [h.(data := h.data + a, left := h.left - |a|)] + ws[1..];
    assert t[1..] == ws[1..] && Fed(ws, a) == t;
    if h.left <= |a + b| {
      assert (a + b)[h.left..] == b[h.left - |a|..];
      assert (a + b)[..h.left] == a + b[..h.left - |a|];
      assert h.data + a + b[..h.left - |a|] == h.data + (a + b)[..h.left];
    }
  }

  lemma {:induction false} FedOutTwice(ws: seq<Waiter>, a: seq<Byte>, b: seq<Byte>)
    requires Readers(ws)
    ensures FedOut(ws, a) + FedOut(Fed(ws, a), b) == FedOut(ws, a + b)
    decreases |ws|
  {
    if a == [] {
      assert a + b == b;
    } else if ws != [] {
      var h := ws[0];
      if h.left <= |a| {
        FedOutTwice(ws[1..], a[h.left..], b);
        assert (a + b)[h.left..] == a[h.left..] + b && (a + b)[..h.left] == a[..h.left];
      } else {
        FedOutPartly(ws, a, b);
      }
    }
  }

  // ----- kernel/pipes.c -----

  lemma NothingFed(rs: seq<Waiter>)
    ensures Fed(rs, []) == rs && FedOut(rs, []) == [] && Wanted(rs[..0]) == 0
  {
  }

  lemma FedOne(ws: seq<Waiter>, bytes: seq<Byte>)
    requires ws != [] && 0 < |bytes| <= ws[0].left
    ensures
      var fed := ws[0].(data := ws[0].data + bytes, left := ws[0].left - |bytes|);
      && Fed(ws, bytes) == (if fed.left == 0 then ws[1..] else [fed] + ws[1..])
      && FedOut(ws, bytes) == if fed.left == 0 then [fed] else []
  {
    assert bytes[..|bytes|] == bytes && bytes[|bytes|..] == [];
  }

  lemma NothingSwept(ws: seq<Waiter>)
    ensures Swept(ws, 0) == ws && SweptOut(ws, 0) == [] && Progress([]) == 0
  {
  }

  lemma {:induction false} ProgressJoined(a: seq<Waiter>, b: seq<Waiter>)
    ensures Progress(a + b) == Progress(a) + Progress(b)
  {
    if a == [] {
      assert a + b == b;
    } else {
      assert (a + b)[1..] == a[1..] + b;
      ProgressJoined(a[1..], b);
    }
  }

  lemma MovedBounds(sources: seq<Waiter>, after: seq<Waiter>, i: nat, n: nat, ring0: seq<Byte>, ring: seq<Byte>)
    requires Writers(sources) && Moved(sources, after, i, n, ring0, ring)
    ensures i <= |after| == |sources|
  {
  }

  lemma PutMovedFrame(s: PipeState, data: seq<Byte>)
    ensures PutMoved(s, data).writers == s.writers && PutMoved(s, data).reported == s.reported
    ensures PutCount(s, data) <= |data|
  {
  }

  /** Visiting readers shows whether the least that is asked can be written. */
  lemma PutAvailable(s: PipeState, data: seq<Byte>, least: nat)
    requires |s.ring| <= s.size && least <= |data|
    ensures
      var k := Visits(s.readers, |data|);
      Wanted(s.readers[..k]) + (s.size - |s.ring|) < least <==> PutCount(s, data) < least
  {
    hide Visits, Wanted;
    VisitsSuffice(s.readers, |data|);
    WantedBounds(s.readers, Visits(s.readers, |data|));
    assert s.readers[..|s.readers|] == s.readers;
  }

  /** Visiting writers shows whether the least that is asked can be read. */
  lemma GetAvailable(s: PipeState, asked: nat, least: nat)
    requires Writers(s.writers) && least <= asked
    ensures
      var k := Visits(s.writers, asked);
      |s.ring| + Wanted(s.writers[..k]) < least <==> Min(asked, |Stream(s)|) < least
  {
    hide Visits, Wanted, Offered;
    VisitsSuffice(s.writers, asked);
    WantedBounds(s.writers, Visits(s.writers, asked));
    assert s.writers[..|s.writers|] == s.writers;
    OfferedLength(s.writers);
  }

  lemma PutMovedAs(s: PipeState, data: seq<Byte>, d: nat, m: nat)
    requires |s.ring| <= s.size && d == Min(|data|, Wanted(s.readers)) && m == Min(|data| - d, s.size - |s.ring|)
    ensures PutCount(s, data) == d + m
    ensures PutMoved(s, data) ==
      s.(readers := Fed(s.readers, data[..d]), ring := s.ring + data[d..d + m],
         sent := s.sent + data[..d + m], taken := s.taken + data[..d])
  {
  }

  lemma OneSource(w: Waiter)
    requires w.left == |w.data|
    ensures Writers([w]) && Offered([w]) == w.data
  {
    assert [w][1..] == [];
    OfferedNone();
  }

  class Pipe {
    const buffer: array<Byte>
    var bytesUsed: nat
    var readIndex: nat
    var writeIndex: nat
    var readers: seq<Waiter>
    var writers: seq<Waiter>
    ghost var sent: seq<Byte>
    ghost var taken: seq<Byte>
    ghost var reported: nat

    /** write_index = (read_index + bytes_used) mod size. */
    ghost predicate Indexed()
      reads this
    {
      && bytesUsed <= buffer.Length
      && (buffer.Length == 0 ==> readIndex == writeIndex == 0)
      && (buffer.Length != 0 ==> readIndex < buffer.Length && writeIndex == Wrap(readIndex + bytesUsed, buffer.Length))
    }

    ghost function Ring(): seq<Byte>
      requires Indexed()
      reads this, buffer
    {
      RingOf(buffer[..], readIndex, bytesUsed)
    }

    ghost function View(): PipeState
      requires Indexed()
      reads this, buffer
    {
      PipeState(buffer.Length, Ring(), readers, writers, sent, taken, reported)
    }

    ghost predicate Valid()
      reads this, buffer
    {
      Indexed() && Inv(View())
    }

    /** z_impl_k_pipe_init(). */
    constructor (size: nat)
      ensures Valid() && View() == Fresh(size) && fresh(buffer)
    {
      buffer := new Byte[size];
      bytesUsed, readIndex, writeIndex := 0, 0, 0;
      readers, writers, sent, taken, reported := [], [], [], [], 0;
    }

    /** One copy out of the ring, from a piece that starts where reading is due. */
    method ReadPiece(p: Piece, want: nat) returns (bytes: seq<Byte>)
      requires Indexed() && p.len <= bytesUsed && p.off + p.len <= buffer.Length
      requires p.len > 0 ==> p.off == readIndex
      modifies this`bytesUsed, this`readIndex
      ensures Indexed() && |bytes| == Min(want, p.len)
      ensures old(Ring()) == bytes + Ring()
      ensures bytesUsed == old(bytesUsed) - |bytes| && writeIndex == old(writeIndex)
      ensures p.len > 0 ==> readIndex == Wrap(old(readIndex) + |bytes|, buffer.Length)
    {
      hide RingOf;
      var n := Min(want, p.len);
      bytes := buffer[p.off..p.off + n];
      if n > 0 {
        RingRead(buffer[..], readIndex, bytesUsed, n);
        assert buffer[..][p.off..p.off + n] == bytes;
        bytesUsed := bytesUsed - n;
        readIndex := readIndex + n;
        if readIndex >= buffer.Length {
          readIndex := readIndex - buffer.Length;
        }
        assert old(Ring()) == old(Ring())[..n] + old(Ring())[n..];
      }
    }

    /** The part of the copy loop of pipe_get_internal() that reads the ring. */
    method ReadRing(want: nat) returns (bytes: seq<Byte>)
      requires Indexed()
      modifies this`bytesUsed, this`readIndex
      ensures Indexed() && writeIndex == old(writeIndex)
      ensures |bytes| == Min(want, |old(Ring())|)
      ensures old(Ring()) == bytes + Ring()
    {
      bytes := [];
      if bytesUsed != 0 {
        var ps := Pieces(buffer.Length, readIndex, writeIndex);
        bytes := ReadPiece(ps[0], want);
        if |ps| == 2 && |bytes| < want {
          var more := ReadPiece(ps[1], want - |bytes|);
          bytes := bytes + more;
        }
      }
    }

    /** One copy into the ring, to a place that does not wrap. */
    method WriteRing(bytes: seq<Byte>)
      requires Indexed() && bytesUsed + |bytes| <= buffer.Length && writeIndex + |bytes| <= buffer.Length
      modifies this`bytesUsed, this`writeIndex, buffer
      ensures Indexed() && Ring() == old(Ring()) + bytes
      ensures bytesUsed == old(bytesUsed) + |bytes|
      ensures bytes != [] ==> writeIndex == Wrap(old(writeIndex) + |bytes|, buffer.Length)
    {
      if bytes != [] {
        ghost var b := buffer[..];
        RingWrite(b, readIndex, bytesUsed, writeIndex, bytes);
        forall i | 0 <= i < |bytes| { buffer[writeIndex + i] := bytes[i]; }
        assert buffer[..] == b[..writeIndex] + bytes + b[writeIndex + |bytes|..];
        bytesUsed := bytesUsed + |bytes|;
        writeIndex := writeIndex + |bytes|;
        if writeIndex >= buffer.Length {
          writeIndex := writeIndex - buffer.Length;
        }
      }
    }

    /** pipe_waiter_list_populate(): how many waiters a transfer will visit. */
    method Visited(ws: seq<Waiter>, requested: nat) returns (k: nat, available: nat)
      ensures k == Visits(ws, requested) && available == Wanted(ws[..k])
    {
      hide Wanted, Visits;
      k, available := 0, 0;
      NoneVisited(ws, requested);
      while k < |ws|
        invariant k <= |ws| && available == Wanted(ws[..k]) && (k > 0 ==> available < requested)
        invariant k <= Visits(ws, requested)
      {
        VisitsAt(ws, requested, k);
        WantedStep(ws, k);
        available := available + ws[k].left;
        k := k + 1;
        if available >= requested {
          if k < |ws| { VisitsAt(ws, requested, k); }
          return;
        }
      }
    }

    /** One copy to the first blocked reader, which is readied when satisfied. */
    method FeedFirst(ghost rs: seq<Waiter>, data: seq<Byte>, n: nat, done: seq<Waiter>)
      returns (m: nat, readied: seq<Waiter>)
      requires Readers(rs) && n < |data| && readers == Fed(rs, data[..n]) && readers != [] && readers[0].left > 0
      requires done == FedOut(rs, data[..n])
      modifies this`readers
      ensures m == n + Min(|data| - n, old(readers)[0].left)
      ensures readers == Fed(rs, data[..m]) && readied == FedOut(rs, data[..m])
      ensures m < |data| ==> readers == old(readers)[1..]
    {
      hide Fed, FedOut;
      var r := readers[0];
      var c := Min(|data| - n, r.left);
      m := n + c;
      FedTwice(rs, data[..n], data[n..m]);
      FedOutTwice(rs, data[..n], data[n..m]);
      assert data[..m] == data[..n] + data[n..m];
      FedOne(readers, data[n..m]);
      var fed := r.(data := r.data + data[n..m], left := r.left - c);
      if fed.left == 0 {
        readers, readied := readers[1..], done + [fed];
      } else {
        readers, readied := [fed] + readers[1..], done;
      }
    }

    /** The part of pipe_write() that serves the visited readers. */
    method FeedReaders(data: seq<Byte>, k: nat) returns (n: nat, readied: seq<Waiter>)
      requires Readers(readers) && k == Visits(readers, |data|)
      modifies this`readers
      ensures n == Min(|data|, Wanted(old(readers)))
      ensures readers == Fed(old(readers), data[..n]) && readied == FedOut(old(readers), data[..n])
    {
      hide Fed, FedOut, Wanted, Visits;
      ghost var rs := readers;
      n, readied := 0, [];
      var j := 0;
      NothingFed(rs);
      VisitsSuffice(rs, |data|);
      WantedBounds(rs, k);
      assert rs[..|rs|] == rs && data[..0] == [];
      while j < k && n < |data|
        invariant j <= k && n <= |data| && n <= Wanted(rs)
        invariant readers == Fed(rs, data[..n]) && readied == FedOut(rs, data[..n])
        invariant n < |data| ==> readers == rs[j..] && n == Wanted(rs[..j])
        decreases k - j + |data| - n
      {
        assert rs[j] in rs;
        WantedStep(rs, j);
        n, readied := FeedFirst(rs, data, n, readied);
        j := j + 1;
      }
    }

    /** One visit: a copy, and the thread is readied if it has nothing left. */
    method Visit(ghost low: seq<Waiter>, ghost i: nat, p: nat, want: nat)
      returns (chunk: seq<Byte>, next: nat, done: seq<Waiter>)
      requires i < |low| && writers == Swept(low, i) && p == Place(low, i) && low[i].left <= |low[i].data|
      modifies this`writers, this`sent, this`reported
      ensures
        var w := low[i];
        var c := Min(want, w.left);
        var after := low[i := w.(left := w.left - c)];
        && chunk == w.data[|w.data| - w.left..][..c] && sent == old(sent) + chunk
        && writers == Swept(after, i + 1) && next == Place(after, i + 1)
        && done == (if w.left == c then [w.(left := 0)] else []) && SweptOut(after, i + 1) == SweptOut(low, i) + done
        && reported == old(reported) + Progress(done)
    {
      hide Swept, SweptOut;
      SweptStep(low, i);
      var w := writers[p];
      var c := Min(want, w.left);
      chunk := w.data[|w.data| - w.left..][..c];
      sent := sent + chunk;
      var x := w.(left := w.left - c);
      ghost var after := low[i := x];
      SweptUpdate(low, i, x);
      SweptStep(after, i);
      SweptOutStep(after, i);
      if x.left == 0 {
        writers, next, done := writers[..p] + writers[p + 1..], p, [x];
        assert writers == Swept(after, i + 1);
        reported := reported + |w.data|;
      } else {
        writers, next, done := writers[p := x], p + 1, [];
      }
    }

    /** The part of the copy loop of pipe_get_internal() that visits writers. */
    method DrainWriters(ghost asked: nat, k: nat, want: nat) returns (bytes: seq<Byte>, readied: seq<Waiter>)
      requires Writers(writers) && k == Visits(writers, asked) && want <= asked
      modifies this`writers, this`sent, this`reported
      ensures |bytes| == Min(want, |Offered(old(writers))|) && bytes == Offered(old(writers))[..|bytes|]
      ensures readied == SweptOut(Lowered(old(writers), |bytes|), k)
      ensures writers == Swept(Lowered(old(writers), |bytes|), k)
      ensures sent == old(sent) + bytes && reported == old(reported) + Progress(readied)
    {
      hide Offered, Lowered, Swept, SweptOut, Visits, Wanted, Progress;
      ghost var ws := writers;
      bytes, readied := [], [];
      VisitsOffer(ws, asked, want);
      NoneVisited(ws, 0);
      LoweredNothing(ws);
      NothingSwept(ws);
      var i, p := 0, 0;
      while i < k
        invariant i <= k && |bytes| == Min(want, Wanted(ws[..i])) && |bytes| <= |Offered(ws)|
        invariant bytes == Offered(ws)[..|bytes|]
        invariant writers == Swept(Lowered(ws, |bytes|), i) && p == Place(Lowered(ws, |bytes|), i)
        invariant readied == SweptOut(Lowered(ws, |bytes|), i)
        invariant sent == old(sent) + bytes && reported == old(reported) + Progress(readied)
      {
        VisitOne(ws, i, want, |bytes|);
        var chunk, done;
        chunk, p, done := Visit(Lowered(ws, |bytes|), i, p, want - |bytes|);
        bytes, readied := bytes + chunk, readied + done;
        ProgressJoined(readied[..|readied| - |done|], done);
        i := i + 1;
      }
    }

    /** pipe_write() into one piece of the ring, from as many sources as it takes. */
    method FillPiece(ghost sources: seq<Waiter>, from: seq<Waiter>, at: nat, n: nat, len: nat, ghost ring0: seq<Byte>)
      returns (after: seq<Waiter>, i: nat, m: nat)
      requires Indexed() && Writers(sources) && Moved(sources, from, at, n, ring0, Ring())
      requires at < |from| ==> writeIndex + len <= buffer.Length && bytesUsed + len <= buffer.Length
      modifies this`bytesUsed, this`writeIndex, buffer
      ensures Indexed() && n <= m <= n + len && bytesUsed == old(bytesUsed) + (m - n)
      ensures m > n ==> writeIndex == Wrap(old(writeIndex) + (m - n), buffer.Length)
      ensures m == n ==> writeIndex == old(writeIndex)
      ensures Moved(sources, after, i, m, ring0, Ring()) && at <= i && (i == |sources| || m == n + len)
    {
      hide Moved, RingOf, Writers;
      after, i, m := from, at, n;
      MovedBounds(sources, from, at, n, ring0, Ring());
      while i < |after| && m < n + len
        invariant n <= m <= n + len && Indexed() && bytesUsed == old(bytesUsed) + (m - n)
        invariant at <= i <= |after| == |sources|
        invariant Moved(sources, after, i, m, ring0, Ring())
        invariant m > n ==> writeIndex == Wrap(old(writeIndex) + (m - n), buffer.Length)
        invariant m == n ==> writeIndex == old(writeIndex)
        decreases |after| - i + (n + len - m)
      {
        var w := after[i];
        var c := Min(n + len - m, w.left);
        MovedStep(sources, after, i, m, ring0, Ring(), c);
        WriteRing(w.data[|w.data| - w.left..][..c]);
        after := after[i := w.(left := w.left - c)];
        m := m + c;
        if w.left == c { i := i + 1; }
      }
    }

    /** pipe_write() into all the free pieces of the ring. */
    method FillRing(sources: seq<Waiter>) returns (after: seq<Waiter>, n: nat)
      requires Indexed() && Writers(sources)
      modifies this`bytesUsed, this`writeIndex, buffer
      ensures Indexed() && n == Min(buffer.Length - old(bytesUsed), |Offered(sources)|)
      ensures after == Lowered(sources, n) && Ring() == old(Ring()) + Offered(sources)[..n]
    {
      hide RingOf, Offered, Lowered, Writers, Wanted;
      ghost var ring0 := Ring();
      var i;
      after, i, n := sources, 0, 0;
      NothingMoved(sources, Ring());
      if bytesUsed != buffer.Length {
        var ps := Pieces(buffer.Length, writeIndex, readIndex);
        after, i, n := FillPiece(sources, after, i, n, ps[0].len, ring0);
        if |ps| == 2 {
          after, i, n := FillPiece(sources, after, i, n, ps[1].len, ring0);
        }
      }
      if i == |sources| { MovedAll(sources, after, n, ring0, Ring()); }
    }

    /** The refill of the ring at the end of pipe_get_internal(). */
    method Refill()
      requires Indexed() && Writers(writers)
      modifies this`bytesUsed, this`writeIndex, this`writers, this`sent, buffer
      ensures Indexed() && View() == Refilled(old(View()))
    {
      hide RingOf, Offered, Lowered, Wanted, Visits;
      ghost var s := View();
      if bytesUsed != buffer.Length {
        var k, available := Visited(writers, buffer.Length - bytesUsed);
        VisitsOffer(writers, buffer.Length - bytesUsed, buffer.Length - bytesUsed);
        OfferedLength(writers[..k]);
        var after, n := FillRing(writers[..k]);
        PrefixMoved(writers, k, n);
        sent := sent + Offered(writers)[..n];
        writers := after + writers[k..];
      } else {
        LoweredNothing(writers);
        assert sent + Offered(writers)[..0] == sent && s.ring + Offered(writers)[..0] == s.ring;
      }
    }

    /** pipe_write() of one source into the ring. */
    method FillFrom(data: seq<Byte>) returns (n: nat)
      requires Indexed()
      modifies this`bytesUsed, this`writeIndex, buffer
      ensures Indexed() && n == Min(|data|, buffer.Length - old(bytesUsed))
      ensures Ring() == old(Ring()) + data[..n]
    {
      hide RingOf, Offered, Lowered, Writers;
      n := 0;
      if data != [] {
        var sources := [Waiter(0, 0, data, |data|)];
        OneSource(sources[0]);
        var after;
        after, n := FillRing(sources);
      }
    }

    /** pipe_write() of the caller's data: to readers first, then to the ring. */
    method MoveIn(data: seq<Byte>, k: nat) returns (n: nat, readied: seq<Waiter>)
      requires Indexed() && Readers(readers) && k == Visits(readers, |data|)
      modifies this`bytesUsed, this`writeIndex, this`readers, this`sent, this`taken, buffer
      ensures Indexed() && n == PutCount(old(View()), data) && View() == PutMoved(old(View()), data)
      ensures readied == PutReadies(old(View()), data)
    {
      hide RingOf, Fed, FedOut, Wanted, Visits;
      ghost var s := View();
      var d;
      d, readied := FeedReaders(data, k);
      var m := FillFrom(data[d..]);
      n := d + m;
      PutMovedAs(s, data, d, m);
      assert data[d..][..m] == data[d..n];
      sent := sent + data[..n];
      taken := taken + data[..d];
    }

    /** z_impl_k_pipe_put() up to where the caller returns or blocks.  The caller's
        own count is known to it later, as what it asked less what is then left. */
    method KPipePut(tid: nat, prio: int, data: seq<Byte>, minXfer: nat, noWait: bool)
      returns (result: Result, readied: seq<Waiter>)
      requires Valid()
      modifies this, buffer
      ensures Valid()
      ensures View() == Put(old(View()), tid, prio, data, minXfer, noWait).0
      ensures result == Put(old(View()), tid, prio, data, minXfer, noWait).1
      ensures readied == if result.Done? || result.Blocks? then PutReadies(old(View()), data) else []
    {
      hide PutMoved, PutCount, PutReadies, Wanted, Visits, Offered, RingOf, Pended, Progress, ByPriority, Writers;
      ghost var s := View();
      readied := [];
      PutKeeps(s, tid, prio, data, minXfer, noWait);
      PutMovedFrame(s, data);
      if minXfer > |data| {
        return Invalid, readied;
      }
      var k, available := Visited(readers, |data|);
      PutAvailable(s, data, minXfer);
      if available + (buffer.Length - bytesUsed) < minXfer && noWait {
        return WouldBlock, readied;
      }
      var n;
      n, readied := MoveIn(data, k);
      if n == |data| || noWait || (n >= minXfer && minXfer > 0) {
        reported := reported + n;
        return Done(n), readied;
      }
      writers := Pended(writers, Waiter(tid, prio, data, |data| - n), Priority);
      return Blocks, readied;
    }

    /** The copies of pipe_get_internal(): out of the ring, from writers, refill. */
    method MoveOut(asked: nat, k: nat) returns (bytes: seq<Byte>, readied: seq<Waiter>)
      requires Indexed() && Writers(writers) && k == Visits(writers, asked)
      modifies this`bytesUsed, this`readIndex, this`writeIndex, this`writers, this`sent, this`taken, this`reported, buffer
      ensures Indexed()
      ensures |bytes| == Min(asked, |Stream(old(View()))|) && bytes == Stream(old(View()))[..|bytes|]
      ensures readied == Readied(old(View()), asked) && View() == Taken(old(View()), asked)
    {
      hide RingOf, Offered, Lowered, Swept, SweptOut, Visits, Wanted, Progress, Refilled;
      ghost var s := View();
      CopiedWriters(s, asked);
      bytes := ReadRing(asked);
      ghost var r := |bytes|;
      var more;
      more, readied := DrainWriters(asked, k, asked - |bytes|);
      StreamBegins(s, bytes, Ring(), more);
      bytes := bytes + more;
      taken := taken + bytes;
      assert View() == Copied(s, asked);
      Refill();
    }

    /** pipe_get_internal() up to where the caller returns or blocks; `bytes` are
        those copied to it so far. */
    method KPipeGet(tid: nat, prio: int, asked: nat, minXfer: nat, noWait: bool)
      returns (bytes: seq<Byte>, result: Result, readied: seq<Waiter>)
      requires Valid()
      modifies this, buffer
      ensures Valid()
      ensures View() == Get(old(View()), tid, prio, asked, minXfer, noWait).0
      ensures result == Get(old(View()), tid, prio, asked, minXfer, noWait).1
      ensures result.Done? || result.Blocks? ==> |bytes| <= |Stream(old(View()))| && bytes == Stream(old(View()))[..|bytes|]
      ensures result.Done? ==> |bytes| == result.count
      ensures readied == if result.Done? || result.Blocks? then Readied(old(View()), asked) else []
    {
      hide Taken, Readied, Wanted, Visits, RingOf, Offered, Pended, Progress, ByPriority, Readers;
      ghost var s := View();
      GetKeeps(s, tid, prio, asked, minXfer, noWait);
      TakenKeeps(s, asked);
      bytes, readied := [], [];
      if minXfer > asked {
        return bytes, Invalid, readied;
      }
      var k, available := Visited(writers, asked);
      GetAvailable(s, asked, minXfer);
      if bytesUsed + available < minXfer && noWait {
        return bytes, WouldBlock, readied;
      }
      bytes, readied := MoveOut(asked, k);
      if |bytes| == asked || noWait || (|bytes| >= minXfer && minXfer > 0) {
        return bytes, Done(|bytes|), readied;
      }
      readers := Pended(readers, Waiter(tid, prio, bytes, asked - |bytes|), Priority);
      return bytes, Blocks, readied;
    }

    /** A blocked writer's timeout: the end of z_impl_k_pipe_put() after it waited. */
    method WriterTimesOut(i: nat, minXfer: nat) returns (count: nat, enough: bool)
      requires Valid() && i < |writers|
      modifies this`writers, this`reported
      ensures Valid() && View() == WriterExpired(old(View()), i)
      ensures count == |old(writers)[i].data| - old(writers)[i].left && enough == (count >= minXfer)
    {
      hide RingOf, ByPriority, Progress, Readers;
      ExpiredKeeps(View(), i);
      count := |writers[i].data| - writers[i].left;
      enough := count >= minXfer;
      reported := reported + count;
      writers := writers[..i] + writers[i + 1..];
    }

    /** A blocked reader's timeout: the end of pipe_get_internal() after it waited. */
    method ReaderTimesOut(i: nat, asked: nat, minXfer: nat) returns (count: int, enough: bool)
      requires Valid() && i < |readers|
      modifies this`readers
      ensures Valid() && View() == ReaderExpired(old(View()), i)
      ensures count == asked - old(readers)[i].left && enough == (count >= minXfer)
    {
      hide RingOf, ByPriority, Progress, Writers, Readers;
      ExpiredKeeps(View(), i);
      count := asked - readers[i].left;
      enough := count >= minXfer;
      readers := readers[..i] + readers[i + 1..];
    }

    /** z_impl_k_pipe_flush(). */
    method KPipeFlush()
      requires Valid()
      modifies this, buffer
      ensures Valid() && View() == Flushed(old(View()))
    {
      var _, _, _ := KPipeGet(0, 0, SIZE_MAX, 0, true);
    }

    /** z_impl_k_pipe_buffer_flush(). */
    method KPipeBufferFlush()
      requires Valid()
      modifies this, buffer
      ensures Valid() && View() == BufferFlushed(old(View()))
    {
      var _, _, _ := KPipeGet(0, 0, buffer.Length, 0, true);
    }

    /** z_impl_k_pipe_read_avail(). */
    method ReadAvail() returns (n: nat)
      requires Valid()
      ensures n == |View().ring|
    {
      if buffer.Length == 0 {
        n := 0;
      } else if readIndex == writeIndex {
        n := bytesUsed;
      } else if readIndex < writeIndex {
        n := writeIndex - readIndex;
      } else {
        n := buffer.Length - (readIndex - writeIndex);
      }
    }

    /** z_impl_k_pipe_write_avail(). */
    method WriteAvail() returns (n: nat)
      requires Valid()
      ensures n + |View().ring| == buffer.Length
    {
      if buffer.Length == 0 {
        n := 0;
      } else if readIndex == writeIndex {
        n := buffer.Length - bytesUsed;
      } else if writeIndex < readIndex {
        n := readIndex - writeIndex;
      } else {
        n := buffer.Length - (writeIndex - readIndex);
      }
    }
  }
}

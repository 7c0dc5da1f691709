/**
 The message queue of kernel/msg_q.c: a ring of fixed-size messages and one wait queue that
 readers and writers share.
 */
module MsgQueue {

  import opened WaitQueue

  type Byte = int
  type Msg = seq<Byte>

  datatype Option<T> = None | Some(value: T)

  /** A blocked thread: one that wants a message, or one with a message to put. */
  datatype Waiter = Getter(tid: nat, prio: int) | Putter(tid: nat, prio: int, msg: Msg)

  const Priority := (w: Waiter) => w.prio

  // ----- A bounded FIFO -----

  /** `queue` are the messages held.  `accepted` are those taken from writers except the
      ones that a purge threw away, `delivered` those given to readers, both in order; the
      source keeps neither. */
  datatype State = State(max: nat, queue: seq<Msg>, waiters: seq<Waiter>, accepted: seq<Msg>, delivered: seq<Msg>)

  /** `Handed` tells the blocked reader that a message was copied to, `Passed` the blocked
      writer whose message moved up when one was got. */
  datatype Ret = Blocks | NoMsg | Stored | Handed(msg: Msg, tid: nat) | Got(msg: Msg) | Passed(msg: Msg, tid: nat)

  ghost predicate Getters(ws: seq<Waiter>) { forall w | w in ws :: w.Getter? }

  ghost predicate Putters(ws: seq<Waiter>) { forall w | w in ws :: w.Putter? }

  ghost predicate OneKind(ws: seq<Waiter>) { Getters(ws) || Putters(ws) }

  /** Whoever waits on a queue that has room for a message waits for the same thing. */
  ghost predicate WaitersSound(s: State) {
    && ByPriority(s.waiters, Priority)
    && (s.max >= 1 ==>
          s.waiters == [] || (Getters(s.waiters) && s.queue == []) || (Putters(s.waiters) && |s.queue| == s.max))
  }

  ghost predicate Inv(s: State) {
    |s.queue| <= s.max && s.accepted == s.delivered + s.queue && WaitersSound(s)
  }

  function Fresh(max: nat): State { State(max, [], [], [], []) }

  /** k_msgq_put() */
  function Put(s: State, tid: nat, prio: int, msg: Msg, canWait: bool): (State, Ret) {
    if |s.queue| < s.max then
      if s.waiters != [] then
        (s.(waiters := s.waiters[1..], accepted := s.accepted + [msg], delivered := s.delivered + [msg]),
         Handed(msg, s.waiters[0].tid))
      else (s.(queue := s.queue + [msg], accepted := s.accepted + [msg]), Stored)
    else if !canWait then (s, NoMsg)
    else (s.(waiters := Pended(s.waiters, Putter(tid, prio, msg), Priority)), Blocks)
  }

  /** k_msgq_get(); the message of the first waiter follows into the queue. */
  function Get(s: State, tid: nat, prio: int, canWait: bool): (State, Ret)
    requires s.queue != [] && s.waiters != [] ==> s.waiters[0].Putter?
  {
    if s.queue != [] then
      var t := s.(queue := s.queue[1..], delivered := s.delivered + [s.queue[0]]);
      if s.waiters != [] then
        var w := s.waiters[0];
        (t.(queue := t.queue + [w.msg], accepted := t.accepted + [w.msg], waiters := s.waiters[1..]), Passed(s.queue[0], w.tid))
      else (t, Got(s.queue[0]))
    else if !canWait then (s, NoMsg)
    else (s.(waiters := Pended(s.waiters, Getter(tid, prio), Priority)), Blocks)
  }

  /** k_msgq_purge(): every waiter is told that there is no message. */
  function Purge(s: State): State
    requires |s.queue| <= |s.accepted|
  {
    s.(queue := [], waiters := [], accepted := s.accepted[..|s.accepted| - |s.queue|])
  }

  /** A waiter's timeout. */
  function Expire(s: State, i: nat): State
    requires i < |s.waiters|
  {
    s.(waiters := s.waiters[..i] + s.waiters[i + 1..])
  }

  datatype Event =
    | Puts(tid: nat, prio: int, msg: Msg, canWait: bool)
    | Gets(tid: nat, prio: int, canWait: bool)
    | Purges
    | Expires(index: nat)

  ghost predicate Enabled(s: State, e: Event) { e.Expires? ==> e.index < |s.waiters| }

  ghost function Next(s: State, e: Event): (State, Ret)
    requires Inv(s) && Enabled(s, e)
  {
    match e
    case Puts(tid, prio, msg, canWait) => Put(s, tid, prio, msg, canWait)
    case Gets(tid, prio, canWait) =>
      assert s.waiters != [] ==> s.waiters[0] in s.waiters;
      Get(s, tid, prio, canWait)
    case Purges => (Purge(s), Blocks)
    case Expires(i) => (Expire(s, i), Blocks)
  }

  /** A handed message goes to a reader, the one that has waited longest among those of the
      highest priority; a message is got in the order of acceptance. */
  ghost predicate Fair(s: State, e: Event, t: State, ret: Ret) {
    match ret
    case Handed(msg, tid) => s.queue == [] && s.waiters != [] && s.waiters[0].Getter? && tid == s.waiters[0].tid &&
      t.waiters == s.waiters[1..] && t.delivered == s.delivered + [msg]
    case Passed(msg, tid) => |s.queue| == s.max && s.waiters != [] && s.waiters[0].Putter? && tid == s.waiters[0].tid &&
      |s.delivered| < |s.accepted| && msg == s.accepted[|s.delivered|] && t.delivered == s.delivered + [msg]
    case Got(msg) => |s.delivered| < |s.accepted| && msg == s.accepted[|s.delivered|] && t.delivered == s.delivered + [msg]
    case _ => true
  }

  lemma RestOfWaiters(ws: seq<Waiter>)
    requires ByPriority(ws, Priority)
    ensures ws != [] ==> ws[0] in ws && ByPriority(ws[1..], Priority) && forall w | w in ws[1..] :: w in ws
  {
  }

  lemma PendKeeps(s: State, w: Waiter)
    requires Inv(s)
    ensures w.Putter? && |s.queue| == s.max ==> WaitersSound(s.(waiters := Pended(s.waiters, w, Priority)))
    ensures w.Getter? && s.queue == [] ==> WaitersSound(s.(waiters := Pended(s.waiters, w, Priority)))
  {
    hide Pended, ByPriority;
    PendedByPriority(s.waiters, w, Priority);
    forall x | x in Pended(s.waiters, w, Priority) ensures x in s.waiters || x == w {
      PendedElements(s.waiters, w, Priority, x);
    }
  }

  lemma PutKeeps(s: State, tid: nat, prio: int, msg: Msg, canWait: bool)
    requires Inv(s)
    ensures
      var (t, ret) := Put(s, tid, prio, msg, canWait);
      Inv(t) && Fair(s, Puts(tid, prio, msg, canWait), t, ret) && t.max == s.max
  {
    hide Pended, ByPriority;
    RestOfWaiters(s.waiters);
    assert s.accepted + [msg] == s.delivered + (s.queue + [msg]);
    PendKeeps(s, Putter(tid, prio, msg));
  }

  lemma GetKeeps(s: State, tid: nat, prio: int, canWait: bool)
    requires Inv(s)
    ensures s.queue != [] && s.waiters != [] ==> s.waiters[0].Putter?
    ensures
      var (t, ret) := Get(s, tid, prio, canWait);
      Inv(t) && Fair(s, Gets(tid, prio, canWait), t, ret) && t.max == s.max
  {
    hide Pended, ByPriority;
    RestOfWaiters(s.waiters);
    if s.queue != [] {
      assert s.accepted == (s.delivered + [s.queue[0]]) + s.queue[1..];
    }
    PendKeeps(s, Getter(tid, prio));
  }

  lemma Nobody()
    ensures ByPriority([], Priority)
  {
  }

  lemma NextKeeps(s: State, e: Event)
    requires Inv(s) && Enabled(s, e)
    ensures Inv(Next(s, e).0) && Fair(s, e, Next(s, e).0, Next(s, e).1)
    ensures Next(s, e).0.max == s.max
  {
    hide Pended, ByPriority;
    match e
    case Puts(tid, prio, msg, canWait) => PutKeeps(s, tid, prio, msg, canWait);
    case Gets(tid, prio, canWait) => GetKeeps(s, tid, prio, canWait);
    case Purges => Nobody();
    case Expires(i) =>
      var ws := s.waiters;
      RemovedByPriority(ws, i, Priority);
      assert forall w | w in ws[..i] + ws[i + 1..] :: w in ws;
  }

  ghost predicate IsRun(s: State, es: seq<Event>)
    requires Inv(s)
    decreases |es|
  {
    es != [] ==> Enabled(s, es[0]) && (NextKeeps(s, es[0]); IsRun(Next(s, es[0]).0, es[1..]))
  }

  ghost function After(s: State, es: seq<Event>): State
    requires Inv(s) && IsRun(s, es)
    decreases |es|
  {
    if es == [] then s else (NextKeeps(s, es[0]); After(Next(s, es[0]).0, es[1..]))
  }

  lemma {:induction false} RunKeeps(s: State, es: seq<Event>)
    requires Inv(s) && IsRun(s, es)
    ensures Inv(After(s, es)) && After(s, es).max == s.max
    decreases |es|
  {
    hide Inv, Next;
    if es != [] {
      NextKeeps(s, es[0]);
      RunKeeps(Next(s, es[0]).0, es[1..]);
    }
  }

  /** What a put tells its caller: it is stored or handed over exactly if there is room, and else
      sent back or blocked as it may not or may wait.  Stored, it is the last message held;
      handed over, it is delivered to the first reader; sent back, nothing has happened. */
  lemma PutTells(s: State, tid: nat, prio: int, msg: Msg, canWait: bool)
    requires Inv(s)
    ensures
      var (t, ret) := Put(s, tid, prio, msg, canWait);
      var room := |s.queue| < s.max;
      && (ret == Stored <==> room && s.waiters == [])
      && (ret.Handed? <==> room && s.waiters != [])
      && (ret == NoMsg <==> !room && !canWait) && (ret == Blocks <==> !room && canWait)
      && (ret == Stored ==> t.queue == s.queue + [msg] && t.delivered == s.delivered && t.waiters == s.waiters)
      && (ret.Handed? ==> ret == Handed(msg, s.waiters[0].tid) && s.waiters[0].Getter? && t.queue == s.queue == []
                          && t.delivered == s.delivered + [msg] && t.waiters == s.waiters[1..])
      && (ret == NoMsg ==> t == s)
      && (ret == Blocks ==> t.queue == s.queue && t.delivered == s.delivered
                            && t.waiters == Pended(s.waiters, Putter(tid, prio, msg), Priority))
  {
    hide ByPriority, Pended;
    if s.waiters != [] {
      assert s.waiters[0] in s.waiters;
    }
  }

  /** What a get tells its caller, in the same way: the first message held exactly if one is, and
      then the message of the first blocked writer, if any, is the last one held. */
  lemma GetTells(s: State, tid: nat, prio: int, canWait: bool)
    requires Inv(s)
    ensures s.queue != [] && s.waiters != [] ==> s.waiters[0].Putter?
    ensures
      var (t, ret) := Get(s, tid, prio, canWait);
      && (ret.Got? <==> s.queue != [] && s.waiters == []) && (ret.Passed? <==> s.queue != [] && s.waiters != [])
      && (ret == NoMsg <==> s.queue == [] && !canWait) && (ret == Blocks <==> s.queue == [] && canWait)
      && (ret.Got? ==> ret.msg == s.queue[0] && t.queue == s.queue[1..] && t.waiters == [])
      && (ret.Passed? ==> ret == Passed(s.queue[0], s.waiters[0].tid) && t.queue == s.queue[1..] + [s.waiters[0].msg]
                          && t.waiters == s.waiters[1..])
      && (ret.Got? || ret.Passed? ==> t.delivered == s.delivered + [ret.msg])
      && (ret == NoMsg ==> t == s)
      && (ret == Blocks ==> t.queue == s.queue && t.delivered == s.delivered
                            && t.waiters == Pended(s.waiters, Getter(tid, prio), Priority))
  {
    hide ByPriority, Pended;
    if s.waiters != [] {
      assert s.waiters[0] in s.waiters;
    }
  }

  /** What one can tell from the calls and what they return, without seeing the queue: who is
      blocked, which messages were taken in, and which were given out, both in order. */
  datatype Ledger = Ledger(waiters: seq<Waiter>, accepted: seq<Msg>, delivered: seq<Msg>)

  function Rest(ws: seq<Waiter>): seq<Waiter> { if ws == [] then [] else ws[1..] }

  function FirstMsg(ws: seq<Waiter>): seq<Msg> { if ws != [] && ws[0].Putter? then [ws[0].msg] else [] }

  function Booked(l: Ledger, e: Event, ret: Ret): Ledger {
    match e
    case Puts(tid, prio, msg, _) =>
      (match ret
       case Stored => l.(accepted := l.accepted + [msg])
       case Handed(_, _) => Ledger(Rest(l.waiters), l.accepted + [msg], l.delivered + [msg])
       case Blocks => l.(waiters := Pended(l.waiters, Putter(tid, prio, msg), Priority))
       case _ => l)
    case Gets(tid, prio, _) =>
      (match ret
       case Got(msg) => l.(delivered := l.delivered + [msg])
       case Passed(msg, _) => Ledger(Rest(l.waiters), l.accepted + FirstMsg(l.waiters), l.delivered + [msg])
       case Blocks => l.(waiters := Pended(l.waiters, Getter(tid, prio), Priority))
       case _ => l)
    case Purges => Ledger([], l.delivered, l.delivered)
    case Expires(i) => if i < |l.waiters| then l.(waiters := l.waiters[..i] + l.waiters[i + 1..]) else l
  }

  /** The ledger of a run. */
  ghost function Account(l: Ledger, s: State, es: seq<Event>): Ledger
    requires Inv(s) && IsRun(s, es)
    decreases |es|
  {
    if es == [] then l
    else
      NextKeeps(s, es[0]);
      Account(Booked(l, es[0], Next(s, es[0]).1), Next(s, es[0]).0, es[1..])
  }

  function LedgerOf(s: State): Ledger { Ledger(s.waiters, s.accepted, s.delivered) }

  lemma BookedIs(s: State, e: Event)
    requires Inv(s) && Enabled(s, e)
    ensures Booked(LedgerOf(s), e, Next(s, e).1) == LedgerOf(Next(s, e).0)
  {
    hide ByPriority, Pended;
    match e
    case Puts(tid, prio, msg, canWait) =>
      PutTells(s, tid, prio, msg, canWait);
      PutKeeps(s, tid, prio, msg, canWait);
      assert s.delivered + (s.queue + [msg]) == s.accepted + [msg];
    case Gets(tid, prio, canWait) =>
      GetTells(s, tid, prio, canWait);
      GetKeeps(s, tid, prio, canWait);
      if s.queue != [] {
        var t := Get(s, tid, prio, canWait).0;
        assert s.delivered + s.queue == s.delivered + [s.queue[0]] + s.queue[1..];
      }
    case Purges =>
      assert s.accepted[..|s.accepted| - |s.queue|] == s.delivered;
    case Expires(i) =>
  }

  lemma {:induction false} AccountIs(s: State, es: seq<Event>)
    requires Inv(s) && IsRun(s, es)
    ensures Account(LedgerOf(s), s, es) == LedgerOf(After(s, es))
    decreases |es|
  {
    hide Inv, Next, Booked;
    if es != [] {
      NextKeeps(s, es[0]);
      BookedIs(s, es[0]);
      AccountIs(Next(s, es[0]).0, es[1..]);
    }
  }

  /** Over every run the messages that were taken in, as told by the calls and what they returned,
      are those given out followed by those held, in order and none lost; and just those
      threads are blocked that were told so and not otherwise since. */
  lemma EveryRunBalances(max: nat, es: seq<Event>)
    requires IsRun(Fresh(max), es)
    ensures
      var t, l := After(Fresh(max), es), Account(Ledger([], [], []), Fresh(max), es);
      l.accepted == l.delivered + t.queue && l.waiters == t.waiters
  {
    hide After, Account, IsRun;
    RunKeeps(Fresh(max), es);
    AccountIs(Fresh(max), es);
  }

  /** After any calls: the messages held are the accepted ones not yet delivered, and, if the
      queue has room for a message at all, the blocked threads are all readers of an
      empty queue or all writers of a full one. */
  lemma EveryRunIsAFifo(max: nat, es: seq<Event>)
    requires IsRun(Fresh(max), es)
    ensures
      var t := After(Fresh(max), es);
      && |t.queue| <= max && t.accepted == t.delivered + t.queue
      && (max >= 1 ==>
            t.waiters == [] || (Getters(t.waiters) && t.queue == []) || (Putters(t.waiters) && |t.queue| == max))
  {
    RunKeeps(Fresh(max), es);
  }

  /** A queue for no messages mixes them: a writer and a reader wait beside each other, and
      neither call serves the other. */
  lemma ZeroCapacityMixes(writer: nat, writerPrio: int, msg: Msg, reader: nat, readerPrio: int)
    ensures
      var (s, r) := Put(Fresh(0), writer, writerPrio, msg, true);
      var (t, q) := Get(s, reader, readerPrio, true);
      var w, g := Putter(writer, writerPrio, msg), Getter(reader, readerPrio);
      r == q == Blocks && t.waiters == if writerPrio <= readerPrio then [w, g] else [g, w]
  {
    var w, g := Putter(writer, writerPrio, msg), Getter(reader, readerPrio);
    var s := Put(Fresh(0), writer, writerPrio, msg, true).0;
    assert s.waiters == [w] && s.waiters[1..] == [];
    assert Pended([], g, Priority) == [g];
  }

  lemma MixedRun()
    ensures
      var es := [Puts(0, 5, [], true), Gets(1, 5, true)];
      IsRun(Fresh(0), es) && !OneKind(After(Fresh(0), es).waiters)
  {
    hide Pended;
    var s0, put, get := Fresh(0), Puts(0, 5, [], true), Gets(1, 5, true);
    ZeroCapacityMixes(0, 5, [], 1, 5);
    Nobody();
    NextKeeps(s0, put);
    var s1 := Next(s0, put).0;
    NextKeeps(s1, get);
    var s2 := Next(s1, get).0;
    assert [put, get][1..] == [get] && [get][1..] == [];
    assert IsRun(s2, []) && After(s2, []) == s2;
    assert IsRun(s1, [get]) && After(s1, [get]) == s2;
    assert s2.waiters[0] in s2.waiters && s2.waiters[1] in s2.waiters;
  }

  /** Blocked readers and writers are kept apart over every run exactly if there is room
      for a message. */
  lemma OneKindOfWaiterIff(max: nat)
    ensures max >= 1 <==> forall es | IsRun(Fresh(max), es) :: OneKind(After(Fresh(max), es).waiters)
  {
    hide Next, Pended;
    if max >= 1 {
      forall es | IsRun(Fresh(max), es) ensures OneKind(After(Fresh(max), es).waiters) {
        EveryRunIsAFifo(max, es);
      }
    } else {
      MixedRun();
    }
  }

  // ----- The ring -----

  function Wrap(k: nat, max: nat): nat { if k >= max then k - max else k }

  /** The bytes of slot `k` lie inside the buffer. */
  lemma SlotFits(k: nat, max: nat, size: nat)
    requires k < max
    ensures 0 <= k * size && k * size + size <= max * size
    ensures k * size + size == (k + 1) * size
    ensures size > 0 && k + 1 < max ==> k * size + size < max * size
  {
    assert (k + 1) * size <= max * size;
    assert size > 0 && k + 1 < max ==> (k + 2) * size <= max * size;
  }

  /** Slots do not overlap. */
  lemma SlotsApart(j: nat, k: nat, size: nat)
    requires j != k
    ensures j < k ==> j * size + size <= k * size
    ensures k < j ==> k * size + size <= j * size
  {
    assert j < k ==> (j + 1) * size <= k * size;
    assert k < j ==> (k + 1) * size <= j * size;
  }

  function Slot(b: seq<Byte>, max: nat, size: nat, k: nat): Msg
    requires |b| == max * size && k < max
  {
    SlotFits(k, max, size);
    b[k * size..k * size + size]
  }

  /** The `used` messages from slot `r` on. */
  function Ring(b: seq<Byte>, max: nat, size: nat, r: nat, used: nat): seq<Msg>
    requires |b| == max * size && r < max && used <= max
  {
    seq(used, i requires 0 <= i < used => Slot(b, max, size, Wrap(r + i, max)))
  }

  lemma OtherSlot(b: seq<Byte>, max: nat, size: nat, w: nat, msg: Msg, k: nat)
    requires |b| == max * size && w < max && k < max && k != w && |msg| == size
    ensures 0 <= w * size && w * size + size <= |b|
    ensures Slot(b[..w * size] + msg + b[w * size + size..], max, size, k) == Slot(b, max, size, k)
  {
    SlotFits(w, max, size);
    SlotFits(k, max, size);
    SlotsApart(k, w, size);
  }

  /** A message written behind the others joins the ring. */
  lemma RingPut(b: seq<Byte>, max: nat, size: nat, r: nat, used: nat, msg: Msg)
    requires |b| == max * size && r < max && used < max && |msg| == size
    ensures
      var w := Wrap(r + used, max);
      && 0 <= w * size && w * size + size <= |b|
      && Ring(b[..w * size] + msg + b[w * size + size..], max, size, r, used + 1) == Ring(b, max, size, r, used) + [msg]
  {
    var w := Wrap(r + used, max);
    SlotFits(w, max, size);
    var c := b[..w * size] + msg + b[w * size + size..];
    assert Slot(c, max, size, w) == msg;
    var before, after := Ring(b, max, size, r, used), Ring(c, max, size, r, used + 1);
    forall i | 0 <= i < used ensures after[i] == before[i] {
      OtherSlot(b, max, size, w, msg, Wrap(r + i, max));
    }
    assert after == before + [msg];
  }

  /** The first message leaves the ring. */
  lemma RingGet(b: seq<Byte>, max: nat, size: nat, r: nat, used: nat)
    requires |b| == max * size && r < max && 0 < used <= max
    ensures Ring(b, max, size, r, used) == [Slot(b, max, size, r)] + Ring(b, max, size, Wrap(r + 1, max), used - 1)
  {
    var all, rest := Ring(b, max, size, r, used), Ring(b, max, size, Wrap(r + 1, max), used - 1);
    forall i | 0 <= i < |rest| ensures all[i + 1] == rest[i] {
      assert Wrap(r + (i + 1), max) == Wrap(Wrap(r + 1, max) + i, max);
    }
    assert Wrap(r + 0, max) == r;
    assert all[0] == Slot(b, max, size, r);
    assert all == [all[0]] + rest;
  }

  lemma RingLength(b: seq<Byte>, max: nat, size: nat, r: nat, used: nat)
    requires |b| == max * size && r < max && used <= max
    ensures |Ring(b, max, size, r, used)| == used
  {
  }

  lemma PurgeFits(s: State)
    requires Inv(s)
    ensures |s.queue| <= |s.accepted|
  {
  }

  lemma FirstPutter(s: State)
    requires Inv(s)
    ensures s.queue != [] && s.waiters != [] ==> s.waiters[0].Putter?
  {
    if s.waiters != [] {
      assert s.waiters[0] in s.waiters;
    }
  }

  lemma PendedSizes(ws: seq<Waiter>, w: Waiter, size: nat)
    requires forall x | x in ws + [w] && x.Putter? :: |x.msg| == size
    ensures forall x | x in Pended(ws, w, Priority) && x.Putter? :: |x.msg| == size
  {
    forall x | x in Pended(ws, w, Priority) ensures x in ws + [w] {
      PendedElements(ws, w, Priority, x);
    }
  }

  lemma SlotRead(b: seq<Byte>, max: nat, size: nat, k: nat)
    requires |b| == max * size && k < max
    ensures 0 <= k * size && k * size + size <= |b| && Slot(b, max, size, k) == b[k * size..][..size]
  {
    SlotFits(k, max, size);
  }

  const WORD: nat := 0x1_0000_0000

  /** Where k_msgq_peek_at() reads in a buffer of `end` bytes: its offsets are 32 bits wide. */
  function PeekPlace(end: nat, ptr: nat, off: nat): nat
    requires ptr <= end
  {
    var left, o := (end - ptr) % WORD, off % WORD;
    if left <= o then o - left else ptr + o
  }

  /** The offsets are not cut off, or are cut off alike. */
  predicate PeekFits(end: nat, ptr: nat, off: nat)
    requires ptr <= end
  {
    if end - ptr <= off then off / WORD == (end - ptr) / WORD
    else off < WORD && (off < (end - ptr) % WORD || (ptr == 0 && end % WORD == 0))
  }

  lemma Scaled(a: nat, b: nat, size: nat)
    ensures 0 <= a * size
    ensures a >= b ==> a * size >= b * size
    ensures a < b ==> a * size <= b * size && (size > 0 ==> a * size < b * size)
    ensures size == 0 ==> a * size == 0
  {
  }

  /** Wrapping around in bytes is wrapping around in slots. */
  lemma PlaceOfSlot(r: nat, idx: nat, max: nat, size: nat)
    requires r < max && idx < max
    ensures
      var end, ptr, off := max * size, r * size, idx * size;
      && 0 <= ptr <= end && 0 <= off <= end && (off == end ==> end == 0)
      && Wrap(r + idx, max) * size == if end - ptr <= off then off - (end - ptr) else ptr + off
  {
    var end, ptr, off := max * size, r * size, idx * size;
    Scaled(r, max, size);
    Scaled(idx, max, size);
    Scaled(r + idx, max, size);
    assert (r + idx) * size == ptr + off;
    if r + idx >= max {
      assert (r + idx - max) * size == ptr + off - end;
    }
  }

  lemma PeekPlaceIff(end: nat, ptr: nat, off: nat)
    requires ptr <= end && off <= end && (off == end ==> end == 0)
    ensures PeekPlace(end, ptr, off) == (if end - ptr <= off then off - (end - ptr) else ptr + off) <==> PeekFits(end, ptr, off)
  {
  }

  /** k_msgq_peek_at() reads the message it is asked for exactly if the offsets fit. */
  lemma PeekReadsTheMessageIff(r: nat, idx: nat, max: nat, size: nat)
    requires r < max && idx < max
    ensures 0 <= r * size <= max * size && 0 <= idx * size
    ensures PeekPlace(max * size, r * size, idx * size) == Wrap(r + idx, max) * size <==>
            PeekFits(max * size, r * size, idx * size)
  {
    hide PeekPlace, PeekFits, Wrap;
    PlaceOfSlot(r, idx, max, size);
    PeekPlaceIff(max * size, r * size, idx * size);
  }

  /** The offsets fit in every buffer below 4 GiB. */
  lemma SmallBufferFits(end: nat, ptr: nat, off: nat)
    requires ptr <= end < WORD && off <= end && (off == end ==> end == 0)
    ensures PeekFits(end, ptr, off)
  {
  }

  /** In a buffer of 2^20 + 1 pages the last message is taken for the first. */
  lemma PeekReadsAnother()
    ensures PeekPlace(0x10_0001 * 4096, 0, 0x10_0000 * 4096) == 0 && !PeekFits(0x10_0001 * 4096, 0, 0x10_0000 * 4096)
  {
  }

  // ----- kernel/msg_q.c -----

  /** struct k_msgq, with pointers as offsets into the buffer. */
  class MsgQ {
    const msgSize: nat
    const maxMsgs: nat
    const buffer: array<Byte>
    var readPtr: nat
    var writePtr: nat
    var usedMsgs: nat
    var waiters: seq<Waiter>
    ghost var readSlot: nat
    ghost var accepted: seq<Msg>
    ghost var delivered: seq<Msg>

    ghost predicate Indexed()
      reads this
    {
      && buffer.Length == maxMsgs * msgSize && readSlot < maxMsgs && usedMsgs <= maxMsgs
      && readPtr == readSlot * msgSize && writePtr == Wrap(readSlot + usedMsgs, maxMsgs) * msgSize
    }

    ghost function Messages(): seq<Msg>
      requires Indexed()
      reads this, buffer
    {
      Ring(buffer[..], maxMsgs, msgSize, readSlot, usedMsgs)
    }

    ghost function View(): State
      requires Indexed()
      reads this, buffer
    {
      State(maxMsgs, Messages(), waiters, accepted, delivered)
    }

    ghost predicate Valid()
      reads this, buffer
    {
      Indexed() && Inv(View()) && forall w | w in waiters && w.Putter? :: |w.msg| == msgSize
    }

    /** k_msgq_init() */
    constructor (buffer: array<Byte>, msgSize: nat, maxMsgs: nat)
      requires buffer.Length == maxMsgs * msgSize && maxMsgs >= 1
      ensures Valid() && View() == Fresh(maxMsgs) && this.buffer == buffer && this.msgSize == msgSize
    {
      this.msgSize, this.maxMsgs, this.buffer := msgSize, maxMsgs, buffer;
      readPtr, writePtr, usedMsgs, waiters := 0, 0, 0, [];
      readSlot, accepted, delivered := 0, [], [];
    }

    /** Storing a message at the write pointer. */
    method StoreMsg(msg: Msg)
      requires Indexed() && usedMsgs < maxMsgs && |msg| == msgSize
      modifies `writePtr, `usedMsgs, buffer
      ensures Indexed() && Messages() == old(Messages()) + [msg] && usedMsgs == old(usedMsgs) + 1
    {
      ghost var w := Wrap(readSlot + usedMsgs, maxMsgs);
      SlotFits(w, maxMsgs, msgSize);
      RingPut(buffer[..], maxMsgs, msgSize, readSlot, usedMsgs, msg);
      ghost var b := buffer[..];
      forall i | 0 <= i < |msg| { buffer[writePtr + i] := msg[i]; }
      assert buffer[..] == b[..writePtr] + msg + b[writePtr + msgSize..];
      writePtr := writePtr + msgSize;
      if writePtr == buffer.Length {
        writePtr := 0;
      }
      usedMsgs := usedMsgs + 1;
    }

    /** Taking the message at the read pointer. */
    method TakeMsg() returns (msg: Msg)
      requires Indexed() && usedMsgs > 0
      modifies `readPtr, `usedMsgs, `readSlot
      ensures Indexed() && old(Messages()) == [msg] + Messages() && usedMsgs == old(usedMsgs) - 1 && |msg| == msgSize
    {
      SlotFits(readSlot, maxMsgs, msgSize);
      RingGet(buffer[..], maxMsgs, msgSize, readSlot, usedMsgs);
      msg := buffer[readPtr..readPtr + msgSize];
      assert msg == Slot(buffer[..], maxMsgs, msgSize, readSlot);
      readPtr := readPtr + msgSize;
      if readPtr == buffer.Length {
        readPtr := 0;
      }
      readSlot := Wrap(readSlot + 1, maxMsgs);
      usedMsgs := usedMsgs - 1;
    }

    /** z_unpend_first_thread() */
    method UnpendFirst() returns (w: Option<Waiter>)
      modifies `waiters
      ensures w == if old(waiters) == [] then None else Some(old(waiters)[0])
      ensures waiters == if old(waiters) == [] then [] else old(waiters)[1..]
    {
      if waiters == [] {
        return None;
      }
      w := Some(waiters[0]);
      waiters := waiters[1..];
    }

    /** k_msgq_put() */
    method KMsgqPut(tid: nat, prio: int, msg: Msg, canWait: bool) returns (ret: Ret)
      requires Valid() && |msg| == msgSize
      modifies this, buffer
      ensures Valid() && (View(), ret) == Put(old(View()), tid, prio, msg, canWait)
    {
      hide ByPriority, Pended, Ring, Inv;
      ghost var s := View();
      NextKeeps(s, Puts(tid, prio, msg, canWait));
      RingLength(buffer[..], maxMsgs, msgSize, readSlot, usedMsgs);
      if usedMsgs < maxMsgs {
        var w := UnpendFirst();
        accepted := accepted + [msg];
        if w.Some? {
          delivered := delivered + [msg];
          return Handed(msg, w.value.tid);
        }
        StoreMsg(msg);
        return Stored;
      }
      if !canWait {
        return NoMsg;
      }
      waiters := Pended(waiters, Putter(tid, prio, msg), Priority);
      PendedSizes(s.waiters, Putter(tid, prio, msg), msgSize);
      return Blocks;
    }

    /** k_msgq_get() */
    method KMsgqGet(tid: nat, prio: int, canWait: bool) returns (ret: Ret)
      requires Valid()
      modifies this, buffer
      ensures Valid() && (old(Messages()) != [] && old(waiters) != [] ==> old(waiters)[0].Putter?)
      ensures (View(), ret) == Get(old(View()), tid, prio, canWait)
    {
      hide ByPriority, Pended, Ring, Inv;
      ghost var s := View();
      NextKeeps(s, Gets(tid, prio, canWait));
      FirstPutter(s);
      RingLength(buffer[..], maxMsgs, msgSize, readSlot, usedMsgs);
      if usedMsgs > 0 {
        var msg := TakeMsg();
        delivered := delivered + [msg];
        var w := UnpendFirst();
        if w.Some? {
          accepted := accepted + [w.value.msg];
          StoreMsg(w.value.msg);
          return Passed(msg, w.value.tid);
        }
        return Got(msg);
      }
      if !canWait {
        return NoMsg;
      }
      waiters := Pended(waiters, Getter(tid, prio), Priority);
      PendedSizes(s.waiters, Getter(tid, prio), msgSize);
      return Blocks;
    }

    /** k_msgq_peek() */
    method KMsgqPeek() returns (ret: Ret)
      requires Valid()
      ensures ret == if Messages() == [] then NoMsg else Got(Messages()[0])
    {
      if usedMsgs > 0 {
        SlotFits(readSlot, maxMsgs, msgSize);
        RingGet(buffer[..], maxMsgs, msgSize, readSlot, usedMsgs);
        assert buffer[readPtr..readPtr + msgSize] == Slot(buffer[..], maxMsgs, msgSize, readSlot);
        return Got(buffer[readPtr..readPtr + msgSize]);
      }
      return NoMsg;
    }

    /** The bytes of a message from `at` on. */
    method ReadAt(at: nat) returns (ret: Ret, inside: bool)
      ensures inside == (at + msgSize <= buffer.Length)
      ensures inside ==> ret == Got(buffer[at..at + msgSize])
    {
      inside := at + msgSize <= buffer.Length;
      ret := if inside then Got(buffer[at..at + msgSize]) else NoMsg;
    }

    /** k_msgq_peek_at(), whose offsets are 32 bits wide; `inside` tells whether it reads inside
        of the buffer. */
    method KMsgqPeekAt(idx: nat) returns (ret: Ret, inside: bool)
      requires Valid()
      ensures idx >= |Messages()| ==> inside && ret == NoMsg
      ensures idx < |Messages()| ==>
        && readPtr <= buffer.Length && 0 <= idx * msgSize
        && var place := PeekPlace(buffer.Length, readPtr, idx * msgSize);
        && inside == (place + msgSize <= buffer.Length) && (inside ==> ret == Got(buffer[place..place + msgSize]))
        && (PeekFits(buffer.Length, readPtr, idx * msgSize) ==> inside && ret == Got(Messages()[idx]))
    {
      hide Inv, PeekFits, Slot;
      if usedMsgs > idx {
        PeekReadsTheMessageIff(readSlot, idx, maxMsgs, msgSize);
        var off := idx * msgSize;
        var bytesToEnd := (buffer.Length - readPtr) % WORD;
        var byteOffset := off % WORD;
        var start := readPtr;
        if bytesToEnd <= byteOffset {
          byteOffset := byteOffset - bytesToEnd;
          start := 0;
        }
        assert start + byteOffset == PeekPlace(buffer.Length, readPtr, off);
        ret, inside := ReadAt(start + byteOffset);
        ghost var k := Wrap(readSlot + idx, maxMsgs);
        if start + byteOffset == k * msgSize {
          SlotRead(buffer[..], maxMsgs, msgSize, k);
          assert buffer[..][start + byteOffset..][..msgSize] == buffer[start + byteOffset..start + byteOffset + msgSize];
        }
        return;
      }
      return NoMsg, true;
    }

    /** k_msgq_purge() */
    method KMsgqPurge() returns (told: seq<nat>)
      requires Valid()
      modifies this
      ensures Valid() && |old(Messages())| <= |old(accepted)| && View() == Purge(old(View()))
      ensures |told| == |old(waiters)| && forall i | 0 <= i < |told| :: told[i] == old(waiters)[i].tid
    {
      hide ByPriority, Inv;
      ghost var s := View();
      NextKeeps(s, Purges);
      PurgeFits(s);
      told := [];
      while waiters != []
        invariant |told| <= |s.waiters| && waiters == s.waiters[|told|..]
        invariant forall i | 0 <= i < |told| :: told[i] == s.waiters[i].tid
        invariant Indexed() && View() == s.(waiters := waiters)
        decreases |waiters|
      {
        var w := UnpendFirst();
        told := told + [w.value.tid];
      }
      accepted := accepted[..|accepted| - |Messages()|];
      readSlot := Wrap(readSlot + usedMsgs, maxMsgs);
      usedMsgs := 0;
      readPtr := writePtr;
      assert Messages() == [];
    }
  }
}

/**
 k_poll(), kernel/poll.c: a thread registers its events one at a time, waits, and clears
 them one at a time, and drops the lock between any two of these.  Objects are signalled,
 waits time out and other threads poll in between.
 A lower number is a higher priority.
 */
module Poll {

  import opened WaitQueue

  type Tid = nat
  type Oid = nat

  datatype Option<T> = None | Some(value: T)

  /** What `state` of an event collects: that its object was ready, or was cancelled. */
  datatype Bit = Ready | Cancelled

  /** struct k_poll_event; `obj` is None for K_POLL_TYPE_IGNORE, and `poller` tells whether
      the poller is set, which can only be the thread whose event it is. */
  datatype Event = Event(obj: Option<Oid>, poller: bool, state: set<Bit>)

  datatype Rc = Ok | Again | Interrupted

  /** Where a thread is in k_poll(): about to look at event `next` with `registered` of them
      registered; waiting; woken but not running yet; or with `left` registrations to clear. */
  datatype Phase =
    | Idle
    | Registering(next: nat, registered: nat, noWait: bool)
    | Waiting
    | Woken(rc: Rc)
    | Clearing(left: nat, rc: Rc)

  /** `polling` is is_polling of the thread's poller. */
  datatype Thread = Thread(prio: int, phase: Phase, polling: bool, events: seq<Event>)

  /** Event `index` of thread `tid` on the list of an object. */
  datatype Reg = Reg(tid: Tid, index: nat, prio: int)

  /** `met` is is_condition_met() of the object, which others change at any time. */
  datatype Obj = Obj(met: bool, list: seq<Reg>)

  datatype Sys = Sys(threads: seq<Thread>, objects: seq<Obj>)

  const Priority := (r: Reg) => r.prio

  // ----- Steps -----

  function WithThread(s: Sys, t: Tid, th: Thread): Sys
    requires t < |s.threads|
  {
    s.(threads := s.threads[t := th])
  }

  function WithEvent(th: Thread, j: nat, e: Event): Thread
    requires j < |th.events|
  {
    th.(events := th.events[j := e])
  }

  function WithList(s: Sys, o: Oid, list: seq<Reg>): Sys
    requires o < |s.objects|
  {
    s.(objects := s.objects[o := s.objects[o].(list := list)])
  }

  /** set_event_ready() */
  function ReadyEvent(e: Event, bit: Bit): Event { e.(poller := false, state := e.state + {bit}) }

  /** The start of k_poll(). */
  function Started(s: Sys, t: Tid, objs: seq<Option<Oid>>, noWait: bool): Sys
    requires t < |s.threads|
  {
    var events := seq(|objs|, i requires 0 <= i < |objs| => Event(objs[i], false, {}));
    WithThread(s, t, Thread(s.threads[t].prio, Registering(0, 0, noWait), true, events))
  }

  predicate HasObj(s: Sys, e: Event) { e.obj.Some? && e.obj.value < |s.objects| }

  predicate Met(s: Sys, e: Event) { HasObj(s, e) && s.objects[e.obj.value].met }

  /** One turn of the loop of register_events(). */
  function RegisteredNext(s: Sys, t: Tid): Sys
    requires t < |s.threads| && s.threads[t].phase.Registering? && s.threads[t].phase.next < |s.threads[t].events|
  {
    var th := s.threads[t];
    var j, k := th.phase.next, th.phase.registered;
    var e := th.events[j];
    if Met(s, e) then
      WithThread(s, t, WithEvent(th, j, ReadyEvent(e, Ready)).(polling := false, phase := th.phase.(next := j + 1)))
    else if !th.phase.noWait && th.polling then
      var listed := if HasObj(s, e) then
                      WithList(s, e.obj.value, Pended(s.objects[e.obj.value].list, Reg(t, j, th.prio), Priority))
                    else s;
      WithThread(listed, t, WithEvent(th, j, e.(poller := true)).(phase := th.phase.(next := j + 1, registered := k + 1)))
    else WithThread(s, t, th.(phase := th.phase.(next := j + 1)))
  }

  /** k_poll() after register_events(). */
  function RegisteredAll(s: Sys, t: Tid): Sys
    requires t < |s.threads| && s.threads[t].phase.Registering?
  {
    var th := s.threads[t];
    if !th.polling then WithThread(s, t, th.(phase := Clearing(th.phase.registered, Ok)))
    else if th.phase.noWait then WithThread(s, t, th.(polling := false, phase := Clearing(0, Again)))
    else WithThread(s, t, th.(polling := false, phase := Waiting))
  }

  /** z_handle_obj_poll_events(): the first event on the list is signalled. */
  function Signalled(s: Sys, o: Oid, bit: Bit): Sys
    requires o < |s.objects|
    requires s.objects[o].list != [] ==>
      s.objects[o].list[0].tid < |s.threads| && s.objects[o].list[0].index < |s.threads[s.objects[o].list[0].tid].events|
  {
    var list := s.objects[o].list;
    if list == [] then s
    else
      var r := list[0];
      var th := s.threads[r.tid];
      var phase := if th.phase.Waiting? then Woken(if bit == Cancelled then Interrupted else Ok) else th.phase;
      WithThread(WithList(s, o, list[1..]), r.tid,
                 WithEvent(th, r.index, ReadyEvent(th.events[r.index], bit)).(polling := false, phase := phase))
  }

  function TimedOut(s: Sys, t: Tid): Sys
    requires t < |s.threads|
  {
    WithThread(s, t, s.threads[t].(phase := Woken(Again)))
  }

  function Resumed(s: Sys, t: Tid): Sys
    requires t < |s.threads| && s.threads[t].phase.Woken?
  {
    WithThread(s, t, s.threads[t].(phase := Clearing(|s.threads[t].events|, s.threads[t].phase.rc)))
  }

  /** The list without event `j` of thread `t`. */
  function Without(list: seq<Reg>, t: Tid, j: nat): seq<Reg> {
    if list == [] then [] else if list[0].tid == t && list[0].index == j then list[1..]
    else [list[0]] + Without(list[1..], t, j)
  }

  /** One turn of the loop of clear_event_registrations(). */
  function ClearedNext(s: Sys, t: Tid): Sys
    requires t < |s.threads| && s.threads[t].phase.Clearing? && 0 < s.threads[t].phase.left <= |s.threads[t].events|
  {
    var th := s.threads[t];
    var j := th.phase.left - 1;
    var e := th.events[j];
    var unlisted := if HasObj(s, e) then
                      WithList(s, e.obj.value, Without(s.objects[e.obj.value].list, t, j))
                    else s;
    WithThread(unlisted, t, WithEvent(th, j, e.(poller := false)).(phase := th.phase.(left := j)))
  }

  /** k_poll() returns `s.threads[t].phase.rc`. */
  function Returned(s: Sys, t: Tid): Sys
    requires t < |s.threads|
  {
    WithThread(s, t, s.threads[t].(phase := Idle))
  }

  function Changed(s: Sys, o: Oid, met: bool): Sys
    requires o < |s.objects|
  {
    s.(objects := s.objects[o := s.objects[o].(met := met)])
  }

  // ----- Invariant -----

  ghost predicate SomeReady(th: Thread) { exists j :: 0 <= j < |th.events| && th.events[j].state != {} }

  ghost predicate SomeCancelled(th: Thread) { exists j :: 0 <= j < |th.events| && Cancelled in th.events[j].state }

  /** A result of 0 means that an event is ready. */
  ghost predicate RcSound(th: Thread, rc: Rc) {
    (rc == Ok ==> SomeReady(th)) && (rc == Interrupted ==> SomeCancelled(th))
  }

  /** Only the first `k` events can have a poller. */
  ghost predicate Within(th: Thread, k: nat) { forall j | 0 <= j < |th.events| && th.events[j].poller :: j < k }

  /** The first `k` events have a poller. */
  ghost predicate Polled(th: Thread, k: nat) { forall j | 0 <= j < |th.events| && j < k :: th.events[j].poller }

  /** The registered events are the first ones; while the thread polls none of them has been
      signalled, and a thread that waits has all of them registered. */
  ghost predicate PhaseSound(th: Thread) {
    match th.phase
    case Idle => Within(th, 0)
    case Registering(n, k, noWait) =>
      && k <= n <= |th.events| && Within(th, k) && (!th.polling ==> SomeReady(th))
      && (th.polling ==> Polled(th, k) && k == if noWait then 0 else n)
    case Waiting => !th.polling && Polled(th, |th.events|)
    case Woken(rc) => RcSound(th, rc)
    case Clearing(left, rc) => left <= |th.events| && Within(th, left) && RcSound(th, rc)
  }

  ghost predicate RegSound(s: Sys, o: Oid, r: Reg) {
    && r.tid < |s.threads| && r.index < |s.threads[r.tid].events| && r.prio == s.threads[r.tid].prio
    && s.threads[r.tid].events[r.index].obj == Some(o) && s.threads[r.tid].events[r.index].poller
  }

  ghost predicate NoDup(list: seq<Reg>) {
    forall i, k | 0 <= i < k < |list| :: list[i].tid != list[k].tid || list[i].index != list[k].index
  }

  /** A list is ordered by priority and holds events that have a poller. */
  ghost predicate ListSound(s: Sys, o: Oid)
    requires o < |s.objects|
  {
    var list := s.objects[o].list;
    ByPriority(list, Priority) && NoDup(list) && forall r | r in list :: RegSound(s, o, r)
  }

  /** An event that has a poller is on the list of its object. */
  ghost predicate EventSound(s: Sys, t: Tid, j: nat)
    requires t < |s.threads| && j < |s.threads[t].events|
  {
    var e := s.threads[t].events[j];
    (e.obj.Some? ==> HasObj(s, e)) && (e.poller && e.obj.Some? ==> Reg(t, j, s.threads[t].prio) in s.objects[e.obj.value].list)
  }

  ghost predicate ThreadSound(s: Sys, t: Tid)
    requires t < |s.threads|
  {
    PhaseSound(s.threads[t]) && forall j: nat {:trigger EventSound(s, t, j)} | j < |s.threads[t].events| :: EventSound(s, t, j)
  }

  ghost predicate Inv(s: Sys) {
    && (forall t: Tid {:trigger ThreadSound(s, t)} | t < |s.threads| :: ThreadSound(s, t))
    && (forall o: Oid {:trigger ListSound(s, o)} | o < |s.objects| :: ListSound(s, o))
  }

  // ----- Every step keeps the invariant -----

  /** Thread `t` alone has changed, without touching which of its events have a poller. */
  ghost predicate Quiet(s: Sys, u: Sys, t: Tid) {
    && t < |s.threads| && u.objects == s.objects && |u.threads| == |s.threads|
    && u.threads == s.threads[t := u.threads[t]] && u.threads[t].prio == s.threads[t].prio
    && |u.threads[t].events| == |s.threads[t].events|
    && forall j | 0 <= j < |s.threads[t].events| ::
      u.threads[t].events[j].obj == s.threads[t].events[j].obj && u.threads[t].events[j].poller == s.threads[t].events[j].poller
  }

  lemma QuietKeeps(s: Sys, u: Sys, t: Tid)
    requires Inv(s) && Quiet(s, u, t) && PhaseSound(u.threads[t])
    ensures Inv(u)
  {
    hide ByPriority, PhaseSound, NoDup;
    forall o: Oid | o < |u.objects| ensures ListSound(u, o) {
      assert ListSound(s, o);
      forall r | r in u.objects[o].list ensures RegSound(u, o, r) {
        assert RegSound(s, o, r);
      }
    }
    forall x: Tid | x < |u.threads| ensures ThreadSound(u, x) {
      assert ThreadSound(s, x);
      forall j: nat | j < |u.threads[x].events| ensures EventSound(u, x, j) {
        assert EventSound(s, x, j);
      }
    }
  }

  lemma StartedKeeps(s: Sys, t: Tid, objs: seq<Option<Oid>>, noWait: bool)
    requires Inv(s) && t < |s.threads| && s.threads[t].phase == Idle
    requires forall i | 0 <= i < |objs| && objs[i].Some? :: objs[i].value < |s.objects|
    ensures Inv(Started(s, t, objs, noWait))
  {
    hide ByPriority, NoDup;
    var u := Started(s, t, objs, noWait);
    assert ThreadSound(s, t);
    forall o: Oid | o < |u.objects| ensures ListSound(u, o) {
      assert ListSound(s, o);
      forall r | r in u.objects[o].list ensures RegSound(u, o, r) {
        assert RegSound(s, o, r);
      }
    }
    forall x: Tid | x < |u.threads| ensures ThreadSound(u, x) {
      if x != t {
        assert ThreadSound(s, x);
        forall j: nat | j < |u.threads[x].events| ensures EventSound(u, x, j) {
          assert EventSound(s, x, j);
        }
      }
    }
  }

  ghost predicate CanRegister(s: Sys, t: Tid) {
    t < |s.threads| && s.threads[t].phase.Registering? && s.threads[t].phase.next < |s.threads[t].events|
  }

  lemma NextIsFree(s: Sys, t: Tid)
    requires Inv(s) && CanRegister(s, t) && !s.threads[t].phase.noWait && s.threads[t].polling
    requires !Met(s, s.threads[t].events[s.threads[t].phase.next])
    ensures !s.threads[t].events[s.threads[t].phase.next].poller
    ensures PhaseSound(RegisteredNext(s, t).threads[t])
  {
    hide ByPriority, NoDup, Pended;
    assert ThreadSound(s, t);
  }

  lemma PendedNoDup(list: seq<Reg>, reg: Reg)
    requires ByPriority(list, Priority) && NoDup(list) && forall r | r in list :: r.tid != reg.tid || r.index != reg.index
    ensures NoDup(Pended(list, reg, Priority))
  {
    hide ByPriority, Pended;
    var i := PendedAt(list, reg, Priority);
    var q := list[..i] + [reg] + list[i..];
    assert forall k | 0 <= k < |q| :: q[k] == if k < i then list[k] else if k == i then reg else list[k - 1];
  }

  lemma RegisteredList(s: Sys, t: Tid, o: Oid)
    requires Inv(s) && CanRegister(s, t) && !s.threads[t].phase.noWait && s.threads[t].polling
    requires !Met(s, s.threads[t].events[s.threads[t].phase.next]) && o < |s.objects|
    ensures ListSound(RegisteredNext(s, t), o)
  {
    hide ByPriority, NoDup, Pended, PhaseSound;
    var th, u := s.threads[t], RegisteredNext(s, t);
    var j, list := th.phase.next, s.objects[o].list;
    var reg := Reg(t, j, th.prio);
    NextIsFree(s, t);
    assert ListSound(s, o);
    forall r | r in list ensures RegSound(u, o, r) && (r.tid != t || r.index != j) {
      assert RegSound(s, o, r);
    }
    if th.events[j].obj == Some(o) {
      PendedByPriority(list, reg, Priority);
      PendedNoDup(list, reg);
      forall r | r in Pended(list, reg, Priority) ensures RegSound(u, o, r) {
        PendedElements(list, reg, Priority, r);
      }
    }
  }

  /** The case of RegisteredNextKeeps that registers an event. */
  lemma RegisteredOneKeeps(s: Sys, t: Tid)
    requires Inv(s) && CanRegister(s, t) && !s.threads[t].phase.noWait && s.threads[t].polling
    requires !Met(s, s.threads[t].events[s.threads[t].phase.next])
    ensures Inv(RegisteredNext(s, t))
  {
    hide ByPriority, NoDup, Pended, PhaseSound;
    var th, u := s.threads[t], RegisteredNext(s, t);
    var j := th.phase.next;
    var e := th.events[j];
    NextIsFree(s, t);
    assert ThreadSound(s, t);
    assert EventSound(s, t, j);
    forall o: Oid | o < |u.objects| ensures ListSound(u, o) {
      RegisteredList(s, t, o);
    }
    forall x: Tid | x < |u.threads| ensures ThreadSound(u, x) {
      assert ThreadSound(s, x);
      forall i: nat | i < |u.threads[x].events| ensures EventSound(u, x, i) {
        assert EventSound(s, x, i);
        if e.obj.Some? {
          PendedElements(s.objects[e.obj.value].list, Reg(t, j, th.prio), Priority, Reg(x, i, s.threads[x].prio));
        }
      }
    }
  }

  lemma RegisteredNextKeeps(s: Sys, t: Tid)
    requires Inv(s) && CanRegister(s, t)
    ensures Inv(RegisteredNext(s, t))
  {
    hide ByPriority, NoDup, Pended;
    assert ThreadSound(s, t);
    var th, u := s.threads[t], RegisteredNext(s, t);
    var j := th.phase.next;
    if Met(s, th.events[j]) {
      assert u.threads[t].events[j].state != {} by {
        assert Ready in u.threads[t].events[j].state;
      }
      QuietKeeps(s, u, t);
    } else if !th.phase.noWait && th.polling {
      RegisteredOneKeeps(s, t);
    } else {
      assert SomeReady(th) ==> SomeReady(u.threads[t]);
      QuietKeeps(s, u, t);
    }
  }

  lemma RegisteredAllKeeps(s: Sys, t: Tid)
    requires Inv(s) && t < |s.threads| && s.threads[t].phase.Registering? && s.threads[t].phase.next == |s.threads[t].events|
    ensures Inv(RegisteredAll(s, t))
    ensures RegisteredAll(s, t).threads[t].phase.Waiting? <==> s.threads[t].polling && !s.threads[t].phase.noWait
  {
    hide ByPriority, NoDup;
    assert ThreadSound(s, t);
    var th, u := s.threads[t], RegisteredAll(s, t);
    assert SomeReady(th) ==> SomeReady(u.threads[t]);
    QuietKeeps(s, u, t);
  }

  lemma TimedOutKeeps(s: Sys, t: Tid)
    requires Inv(s) && t < |s.threads| && s.threads[t].phase.Waiting?
    ensures Inv(TimedOut(s, t))
  {
    hide ByPriority, NoDup;
    assert ThreadSound(s, t);
    QuietKeeps(s, TimedOut(s, t), t);
  }

  lemma ResumedKeeps(s: Sys, t: Tid)
    requires Inv(s) && t < |s.threads| && s.threads[t].phase.Woken?
    ensures Inv(Resumed(s, t))
  {
    hide ByPriority, NoDup;
    assert ThreadSound(s, t);
    var th, u := s.threads[t], Resumed(s, t);
    assert SomeReady(th) ==> SomeReady(u.threads[t]);
    assert SomeCancelled(th) ==> SomeCancelled(u.threads[t]);
    QuietKeeps(s, u, t);
  }

  /** Nothing is left behind when k_poll() returns: no event of the thread has a poller and
      no list holds one of them, and a result of 0 means that an event is ready. */
  lemma ReturnedKeeps(s: Sys, t: Tid)
    requires Inv(s) && t < |s.threads| && s.threads[t].phase.Clearing? && s.threads[t].phase.left == 0
    ensures Inv(Returned(s, t)) && RcSound(s.threads[t], s.threads[t].phase.rc)
    ensures forall j | 0 <= j < |s.threads[t].events| :: !Returned(s, t).threads[t].events[j].poller
    ensures forall o, r | 0 <= o < |s.objects| && r in Returned(s, t).objects[o].list :: r.tid != t
  {
    hide ByPriority, NoDup;
    assert ThreadSound(s, t);
    QuietKeeps(s, Returned(s, t), t);
    forall o, r | 0 <= o < |s.objects| && r in s.objects[o].list ensures r.tid != t {
      assert ListSound(s, o) && RegSound(s, o, r);
    }
  }

  lemma ChangedKeeps(s: Sys, o: Oid, met: bool)
    requires Inv(s) && o < |s.objects|
    ensures Inv(Changed(s, o, met))
  {
    hide ByPriority, NoDup, PhaseSound;
    var u := Changed(s, o, met);
    forall i: Oid | i < |u.objects| ensures ListSound(u, i) {
      assert ListSound(s, i);
      forall r | r in u.objects[i].list ensures RegSound(u, i, r) {
        assert RegSound(s, i, r);
      }
    }
    forall x: Tid | x < |u.threads| ensures ThreadSound(u, x) {
      assert ThreadSound(s, x);
      forall j: nat | j < |u.threads[x].events| ensures EventSound(u, x, j) {
        assert EventSound(s, x, j);
      }
    }
  }

  // ----- Taking an event off a list -----

  /** Event `j` of thread `t` loses its poller and its place on the list of object `o`. */
  ghost predicate Dropped(s: Sys, u: Sys, t: Tid, j: nat, o: Oid) {
    && t < |s.threads| == |u.threads| && |u.objects| == |s.objects| && o < |s.objects|
    && j < |s.threads[t].events| == |u.threads[t].events|
    && u.threads == s.threads[t := u.threads[t]] && u.threads[t].prio == s.threads[t].prio
    && s.threads[t].events[j].obj == u.threads[t].events[j].obj == Some(o) && !u.threads[t].events[j].poller
    && (forall i | 0 <= i < |s.threads[t].events| && i != j :: u.threads[t].events[i] == s.threads[t].events[i])
    && (forall i | 0 <= i < |s.objects| && i != o :: u.objects[i] == s.objects[i])
    && u.objects[o].list == Without(s.objects[o].list, t, j)
  }

  lemma CutBehind(list: seq<Reg>, i: nat)
    requires i + 1 < |list|
    ensures list[..i + 1] + list[i + 2..] == [list[0]] + (list[1..][..i] + list[1..][i + 1..])
  {
  }

  lemma {:induction false} WithoutAt(list: seq<Reg>, t: Tid, j: nat) returns (i: nat)
    ensures i <= |list| && forall k | 0 <= k < i :: list[k].tid != t || list[k].index != j
    ensures i < |list| ==> list[i].tid == t && list[i].index == j && Without(list, t, j) == list[..i] + list[i + 1..]
    ensures i == |list| ==> Without(list, t, j) == list
  {
    if list == [] {
      i := 0;
    } else if list[0].tid == t && list[0].index == j {
      i := 0;
    } else {
      i := WithoutAt(list[1..], t, j);
      if i < |list[1..]| {
        CutBehind(list, i);
      }
      i := i + 1;
    }
  }

  lemma {:induction false} WithoutIs(list: seq<Reg>, t: Tid, j: nat)
    requires NoDup(list) && ByPriority(list, Priority)
    ensures forall r :: r in Without(list, t, j) <==> r in list && (r.tid != t || r.index != j)
    ensures NoDup(Without(list, t, j)) && ByPriority(Without(list, t, j), Priority)
  {
    hide Without;
    var i := WithoutAt(list, t, j);
    if i < |list| {
      var q := list[..i] + list[i + 1..];
      assert forall k | 0 <= k < |q| :: q[k] == list[if k < i then k else k + 1];
      RemovedByPriority(list, i, Priority);
      forall r | r in list && (r.tid != t || r.index != j) ensures r in q {
        var k :| 0 <= k < |list| && list[k] == r;
        assert q[if k < i then k else k - 1] == r;
      }
    }
  }

  lemma DroppedKeeps(s: Sys, u: Sys, t: Tid, j: nat, o: Oid)
    requires Inv(s) && Dropped(s, u, t, j, o) && PhaseSound(u.threads[t])
    ensures Inv(u)
  {
    hide ByPriority, NoDup, PhaseSound, Without;
    assert ListSound(s, o);
    WithoutIs(s.objects[o].list, t, j);
    forall i: Oid | i < |u.objects| ensures ListSound(u, i) {
      assert ListSound(s, i);
      forall r | r in u.objects[i].list ensures RegSound(u, i, r) {
        assert RegSound(s, i, r);
      }
    }
    forall x: Tid | x < |u.threads| ensures ThreadSound(u, x) {
      assert ThreadSound(s, x);
      forall i: nat | i < |u.threads[x].events| ensures EventSound(u, x, i) {
        assert EventSound(s, x, i);
      }
    }
  }

  lemma HeadSound(s: Sys, o: Oid)
    requires Inv(s) && o < |s.objects| && s.objects[o].list != []
    ensures RegSound(s, o, s.objects[o].list[0])
  {
    assert ListSound(s, o);
    assert s.objects[o].list[0] in s.objects[o].list;
  }

  /** A signal makes an event ready; a thread that was registering sees it, one that waited
      is woken. */
  lemma SignalledThread(s: Sys, o: Oid, bit: Bit)
    requires Inv(s) && o < |s.objects| && s.objects[o].list != []
    ensures RegSound(s, o, s.objects[o].list[0])
    ensures
      var t, u := s.objects[o].list[0].tid, Signalled(s, o, bit);
      && PhaseSound(u.threads[t]) && !u.threads[t].polling && SomeReady(u.threads[t])
      && (s.threads[t].phase.Waiting? ==> u.threads[t].phase == Woken(if bit == Cancelled then Interrupted else Ok))
      && (!s.threads[t].phase.Waiting? ==> u.threads[t].phase == s.threads[t].phase)
  {
    hide ByPriority, NoDup;
    HeadSound(s, o);
    var r := s.objects[o].list[0];
    assert ThreadSound(s, r.tid);
    var th := Signalled(s, o, bit).threads[r.tid];
    assert bit in th.events[r.index].state;
    if SomeCancelled(s.threads[r.tid]) {
      var j :| 0 <= j < |th.events| && Cancelled in s.threads[r.tid].events[j].state;
      assert Cancelled in th.events[j].state;
    }
  }

  lemma SignalledKeeps(s: Sys, o: Oid, bit: Bit)
    requires Inv(s) && o < |s.objects|
    ensures s.objects[o].list != [] ==> RegSound(s, o, s.objects[o].list[0])
    ensures Inv(Signalled(s, o, bit))
  {
    hide ByPriority, NoDup;
    if s.objects[o].list != [] {
      HeadSound(s, o);
      var r, u := s.objects[o].list[0], Signalled(s, o, bit);
      SignalledThread(s, o, bit);
      DroppedKeeps(s, u, r.tid, r.index, o);
    }
  }

  ghost predicate CanClear(s: Sys, t: Tid) {
    t < |s.threads| && s.threads[t].phase.Clearing? && 0 < s.threads[t].phase.left <= |s.threads[t].events|
  }

  /** Clearing an event without an object. */
  lemma IgnoredKeeps(s: Sys, u: Sys, t: Tid, j: nat)
    requires Inv(s) && t < |s.threads| && j < |s.threads[t].events| && s.threads[t].events[j].obj == None
    requires u.objects == s.objects && |u.threads| == |s.threads| && u.threads == s.threads[t := u.threads[t]]
    requires u.threads[t].prio == s.threads[t].prio && PhaseSound(u.threads[t])
    requires u.threads[t].events == s.threads[t].events[j := s.threads[t].events[j].(poller := false)]
    ensures Inv(u)
  {
    hide ByPriority, NoDup, PhaseSound;
    forall i: Oid | i < |u.objects| ensures ListSound(u, i) {
      assert ListSound(s, i);
      forall r | r in u.objects[i].list ensures RegSound(u, i, r) {
        assert RegSound(s, i, r);
      }
    }
    forall x: Tid | x < |u.threads| ensures ThreadSound(u, x) {
      assert ThreadSound(s, x);
      forall i: nat | i < |u.threads[x].events| ensures EventSound(u, x, i) {
        assert EventSound(s, x, i);
      }
    }
  }

  lemma ClearedNextKeeps(s: Sys, t: Tid)
    requires Inv(s) && CanClear(s, t)
    ensures Inv(ClearedNext(s, t))
  {
    hide ByPriority, NoDup, Without;
    assert ThreadSound(s, t);
    var th, u := s.threads[t], ClearedNext(s, t);
    var j := th.phase.left - 1;
    assert EventSound(s, t, j);
    assert SomeReady(th) ==> SomeReady(u.threads[t]) by {
      assert forall i | 0 <= i < |th.events| :: u.threads[t].events[i].state == th.events[i].state;
    }
    assert SomeCancelled(th) ==> SomeCancelled(u.threads[t]) by {
      assert forall i | 0 <= i < |th.events| :: u.threads[t].events[i].state == th.events[i].state;
    }
    if th.events[j].obj.Some? {
      DroppedKeeps(s, u, t, j, th.events[j].obj.value);
    } else {
      IgnoredKeeps(s, u, t, j);
    }
  }

  // ----- Runs -----

  datatype Action =
    | Starts(tid: Tid, objs: seq<Option<Oid>>, noWait: bool)
    | Registers(tid: Tid)
    | EndsRegistering(tid: Tid)
    | TimesOut(tid: Tid)
    | Resumes(tid: Tid)
    | Clears(tid: Tid)
    | Returns(tid: Tid)
    | Signals(obj: Oid, bit: Bit)
    | Changes(obj: Oid, met: bool)

  ghost predicate Enabled(s: Sys, a: Action) {
    match a
    case Starts(t, objs, _) =>
      && t < |s.threads| && s.threads[t].phase == Idle
      && forall i | 0 <= i < |objs| && objs[i].Some? :: objs[i].value < |s.objects|
    case Registers(t) => CanRegister(s, t)
    case EndsRegistering(t) => t < |s.threads| && s.threads[t].phase.Registering? && s.threads[t].phase.next == |s.threads[t].events|
    case TimesOut(t) => t < |s.threads| && s.threads[t].phase.Waiting?
    case Resumes(t) => t < |s.threads| && s.threads[t].phase.Woken?
    case Clears(t) => CanClear(s, t)
    case Returns(t) => t < |s.threads| && s.threads[t].phase.Clearing? && s.threads[t].phase.left == 0
    case Signals(o, _) => o < |s.objects|
    case Changes(o, _) => o < |s.objects|
  }

  ghost function Next(s: Sys, a: Action): Sys
    requires Inv(s) && Enabled(s, a)
  {
    match a
    case Starts(t, objs, noWait) => Started(s, t, objs, noWait)
    case Registers(t) => RegisteredNext(s, t)
    case EndsRegistering(t) => RegisteredAll(s, t)
    case TimesOut(t) => TimedOut(s, t)
    case Resumes(t) => Resumed(s, t)
    case Clears(t) => ClearedNext(s, t)
    case Returns(t) => Returned(s, t)
    case Signals(o, bit) => SignalledKeeps(s, o, bit); Signalled(s, o, bit)
    case Changes(o, met) => Changed(s, o, met)
  }

  lemma NextKeeps(s: Sys, a: Action)
    requires Inv(s) && Enabled(s, a)
    ensures Inv(Next(s, a)) && |Next(s, a).threads| == |s.threads| && |Next(s, a).objects| == |s.objects|
  {
    hide Inv, ThreadSound, ListSound;
    match a
    case Starts(t, objs, noWait) => StartedKeeps(s, t, objs, noWait);
    case Registers(t) => RegisteredNextKeeps(s, t);
    case EndsRegistering(t) => RegisteredAllKeeps(s, t);
    case TimesOut(t) => TimedOutKeeps(s, t);
    case Resumes(t) => ResumedKeeps(s, t);
    case Clears(t) => ClearedNextKeeps(s, t);
    case Returns(t) => ReturnedKeeps(s, t);
    case Signals(o, bit) => SignalledKeeps(s, o, bit);
    case Changes(o, met) => ChangedKeeps(s, o, met);
  }

  ghost predicate IsRun(s: Sys, acts: seq<Action>)
    requires Inv(s)
    decreases |acts|
  {
    acts != [] ==> Enabled(s, acts[0]) && (NextKeeps(s, acts[0]); IsRun(Next(s, acts[0]), acts[1..]))
  }

  ghost function After(s: Sys, acts: seq<Action>): (u: Sys)
    requires Inv(s) && IsRun(s, acts)
    ensures Inv(u)
    decreases |acts|
  {
    if acts == [] then s else (NextKeeps(s, acts[0]); After(Next(s, acts[0]), acts[1..]))
  }

  lemma {:induction false} RunKeeps(s: Sys, acts: seq<Action>)
    requires Inv(s) && IsRun(s, acts)
    ensures Inv(After(s, acts)) && |After(s, acts).threads| == |s.threads| && |After(s, acts).objects| == |s.objects|
    decreases |acts|
  {
    hide Inv, Next;
    if acts != [] {
      NextKeeps(s, acts[0]);
      RunKeeps(Next(s, acts[0]), acts[1..]);
    }
  }

  /** Threads outside of k_poll(), and objects that nobody polls. */
  function Fresh(prios: seq<int>, mets: seq<bool>): (s: Sys)
    ensures Inv(s)
  {
    Sys(seq(|prios|, i requires 0 <= i < |prios| => Thread(prios[i], Idle, false, [])),
        seq(|mets|, i requires 0 <= i < |mets| => Obj(mets[i], [])))
  }

  /** After any interleaving of calls: a thread that waits has every event of it on the list of
      its object, unsignalled; one outside of k_poll() has none on any list; and every list
      is ordered by priority. */
  lemma EveryRunIsSafe(prios: seq<int>, mets: seq<bool>, acts: seq<Action>, t: Tid, o: Oid)
    requires IsRun(Fresh(prios, mets), acts) && t < |prios| && o < |mets|
    ensures
      var u := After(Fresh(prios, mets), acts);
      && |u.threads| == |prios| && |u.objects| == |mets| && ByPriority(u.objects[o].list, Priority)
      && (u.threads[t].phase.Waiting? ==>
            forall j: nat | j < |u.threads[t].events| && u.threads[t].events[j].obj == Some(o) ::
              Reg(t, j, u.threads[t].prio) in u.objects[o].list)
      && (u.threads[t].phase.Idle? ==> forall r | r in u.objects[o].list :: r.tid != t)
  {
    hide IsRun, After, ByPriority, NoDup;
    RunKeeps(Fresh(prios, mets), acts);
    var u := After(Fresh(prios, mets), acts);
    assert ThreadSound(u, t) && ListSound(u, o);
    forall j: nat | u.threads[t].phase.Waiting? && j < |u.threads[t].events| && u.threads[t].events[j].obj == Some(o)
      ensures Reg(t, j, u.threads[t].prio) in u.objects[o].list
    {
      assert EventSound(u, t, j);
    }
    forall r | r in u.objects[o].list ensures RegSound(u, o, r) {}
  }

  /** One turn of the registration tells of event `j`: if its condition is met, it is ready and the
      call is decided; else it is registered behind those of its priority, if the call may
      wait and is not decided; else it is passed over.  Nothing else changes. */
  lemma TurnTells(s: Sys, t: Tid)
    requires Inv(s) && CanRegister(s, t)
    ensures
      var th, u := s.threads[t], RegisteredNext(s, t);
      var j := th.phase.next;
      var e := th.events[j];
      var met := e.obj.Some? && e.obj.value < |s.objects| && s.objects[e.obj.value].met;
      var registers := !met && !th.phase.noWait && th.polling;
      && |u.threads| == |s.threads| && |u.objects| == |s.objects| && |u.threads[t].events| == |th.events|
      && u.threads[t].phase == Registering(j + 1, th.phase.registered + (if registers then 1 else 0), th.phase.noWait)
      && u.threads[t].polling == (th.polling && !met) && u.threads[t].prio == th.prio
      && u.threads[t].events[j] == e.(poller := if met then false else registers || e.poller,
                                      state := if met then e.state + {Ready} else e.state)
      && (forall i | 0 <= i < |th.events| && i != j :: u.threads[t].events[i] == th.events[i])
      && (forall x: Tid | x < |s.threads| && x != t :: u.threads[x] == s.threads[x])
      && (forall o: Oid | o < |s.objects| ::
            u.objects[o] == if registers && e.obj == Some(o)
                            then s.objects[o].(list := Pended(s.objects[o].list, Reg(t, j, th.prio), Priority))
                            else s.objects[o])
  {
    hide Inv, Pended;
  }

  /** The turn of an event finds it ready, or a signal takes one that is registered. */
  ghost predicate Decides(s: Sys, a: Action, t: Tid)
    requires t < |s.threads|
  {
    || (a == Registers(t) && CanRegister(s, t) && Met(s, s.threads[t].events[s.threads[t].phase.next]))
    || (a.Signals? && a.obj < |s.objects| && s.objects[a.obj].list != [] && s.objects[a.obj].list[0].tid == t)
  }

  lemma DecidesStep(s: Sys, a: Action, t: Tid)
    requires Inv(s) && Enabled(s, a) && t < |s.threads| && s.threads[t].phase.Registering? && a != EndsRegistering(t)
    ensures
      var th, u := s.threads[t], Next(s, a);
      && |u.threads| == |s.threads| && u.threads[t].phase.Registering? && u.threads[t].phase.noWait == th.phase.noWait
      && (u.threads[t].polling <==> th.polling && !Decides(s, a, t))
  {
    hide Inv, Pended, Without;
    NextKeeps(s, a);
    if a.Signals? {
      SignalledKeeps(s, a.obj, a.bit);
    } else if a == Registers(t) {
      TurnTells(s, t);
    }
  }

  /** A thread with no registration is signalled nothing. */
  lemma NoWaitUnlisted(s: Sys, t: Tid, o: Oid)
    requires Inv(s) && t < |s.threads| && s.threads[t].phase.Registering? && s.threads[t].phase.noWait && s.threads[t].polling
    requires o < |s.objects| && s.objects[o].list != []
    ensures s.objects[o].list[0].tid != t
  {
    hide ByPriority, NoDup;
    HeadSound(s, o);
    assert ThreadSound(s, t);
  }

  ghost predicate DecidedOn(s: Sys, acts: seq<Action>, t: Tid)
    requires Inv(s) && IsRun(s, acts)
    decreases |acts|
  {
    && acts != [] && t < |s.threads|
    && (Decides(s, acts[0], t) || (NextKeeps(s, acts[0]); DecidedOn(Next(s, acts[0]), acts[1..], t)))
  }

  /** Some turn of the thread finds the condition of its event met. */
  ghost predicate FindsReady(s: Sys, acts: seq<Action>, t: Tid)
    requires Inv(s) && IsRun(s, acts)
    decreases |acts|
  {
    && acts != [] && t < |s.threads|
    && (|| (acts[0] == Registers(t) && CanRegister(s, t) && Met(s, s.threads[t].events[s.threads[t].phase.next]))
        || (NextKeeps(s, acts[0]); FindsReady(Next(s, acts[0]), acts[1..], t)))
  }

  lemma NoSignalFor(s: Sys, a: Action, t: Tid)
    requires Inv(s) && t < |s.threads| && s.threads[t].phase.Registering? && s.threads[t].phase.noWait && s.threads[t].polling
    requires a.Signals?
    ensures !Decides(s, a, t)
  {
    if a.obj < |s.objects| && s.objects[a.obj].list != [] {
      NoWaitUnlisted(s, t, a.obj);
    }
  }

  lemma {:induction false} DecidedIff(s: Sys, acts: seq<Action>, t: Tid)
    requires Inv(s) && IsRun(s, acts) && t < |s.threads| && s.threads[t].phase.Registering? && EndsRegistering(t) !in acts
    ensures
      var th, u := s.threads[t], After(s, acts);
      && |u.threads| == |s.threads| && u.threads[t].phase.Registering? && u.threads[t].phase.noWait == th.phase.noWait
      && (u.threads[t].polling <==> th.polling && !DecidedOn(s, acts, t))
      && (th.phase.noWait && th.polling ==> (DecidedOn(s, acts, t) <==> FindsReady(s, acts, t)))
    decreases |acts|
  {
    hide Inv, Next, Enabled;
    if acts != [] {
      NextKeeps(s, acts[0]);
      DecidesStep(s, acts[0], t);
      if s.threads[t].phase.noWait && s.threads[t].polling && acts[0].Signals? {
        NoSignalFor(s, acts[0], t);
      }
      DecidedIff(Next(s, acts[0]), acts[1..], t);
    }
  }

  /** What a call of k_poll() comes to, whatever happens while it registers its events: it waits
      exactly if it may and nothing decided it, comes back with -EAGAIN exactly if it may not
      wait and no turn found its condition met, and else goes on to return 0. */
  lemma PollTells(s: Sys, t: Tid, objs: seq<Option<Oid>>, noWait: bool, acts: seq<Action>)
    requires Inv(s) && Enabled(s, Starts(t, objs, noWait)) && Inv(Next(s, Starts(t, objs, noWait)))
    requires IsRun(Next(s, Starts(t, objs, noWait)), acts) && EndsRegistering(t) !in acts
    requires Enabled(After(Next(s, Starts(t, objs, noWait)), acts), EndsRegistering(t))
    ensures
      var first := Next(s, Starts(t, objs, noWait));
      var u := Next(After(first, acts), EndsRegistering(t));
      && t < |u.threads| && !u.threads[t].polling
      && (u.threads[t].phase == Waiting <==> !noWait && !DecidedOn(first, acts, t))
      && (u.threads[t].phase == Clearing(0, Again) <==> noWait && !FindsReady(first, acts, t))
      && (u.threads[t].phase.Clearing? && u.threads[t].phase.rc == Ok <==> DecidedOn(first, acts, t))
      && (noWait ==> (DecidedOn(first, acts, t) <==> FindsReady(first, acts, t)))
  {
    hide Inv, IsRun, After, DecidedOn, FindsReady;
    var first := Next(s, Starts(t, objs, noWait));
    DecidedIff(first, acts, t);
  }

  /** The events of a new call are those asked for, and nothing is known of them yet. */
  lemma StartTells(s: Sys, t: Tid, objs: seq<Option<Oid>>, noWait: bool)
    requires t < |s.threads|
    ensures
      var u := Started(s, t, objs, noWait);
      && |u.threads| == |s.threads| && u.objects == s.objects && |u.threads[t].events| == |objs| && u.threads[t].polling
      && (forall i | 0 <= i < |objs| :: u.threads[t].events[i] == Event(objs[i], false, {}))
      && (forall x: Tid | x < |s.threads| && x != t :: u.threads[x] == s.threads[x])
  {
  }

  /** The result of a call. */
  ghost predicate Comes(th: Thread, rc: Rc) {
    (th.phase.Woken? && th.phase.rc == rc) || (th.phase.Clearing? && th.phase.rc == rc)
  }

  lemma ComesStep(s: Sys, a: Action, t: Tid, rc: Rc)
    requires Inv(s) && Enabled(s, a) && t < |s.threads| && Comes(s.threads[t], rc) && a != Returns(t)
    ensures |Next(s, a).threads| == |s.threads| && Comes(Next(s, a).threads[t], rc)
  {
    hide Inv, Pended, Without;
    NextKeeps(s, a);
    if a.Signals? {
      SignalledKeeps(s, a.obj, a.bit);
    }
  }

  /** Once a call has come to a result it keeps it, whatever happens, until it returns. */
  lemma {:induction false} ResultStays(s: Sys, acts: seq<Action>, t: Tid, rc: Rc)
    requires Inv(s) && IsRun(s, acts) && t < |s.threads| && Comes(s.threads[t], rc) && Returns(t) !in acts
    ensures |After(s, acts).threads| == |s.threads| && Comes(After(s, acts).threads[t], rc)
    decreases |acts|
  {
    hide Inv, Next, Comes, Enabled;
    if acts != [] {
      NextKeeps(s, acts[0]);
      ComesStep(s, acts[0], t, rc);
      ResultStays(Next(s, acts[0]), acts[1..], t, rc);
    }
  }

  /** What a thread with a result has yet to do before it returns. */
  ghost function Clearings(t: Tid, n: nat): seq<Action> { if n == 0 then [] else [Clears(t)] + Clearings(t, n - 1) }

  ghost function Finishing(t: Tid, th: Thread): seq<Action>
    requires th.phase.Woken? || th.phase.Clearing?
  {
    if th.phase.Woken? then [Resumes(t)] + Clearings(t, |th.events|) else Clearings(t, th.phase.left)
  }

  ghost predicate SameResults(a: seq<Event>, b: seq<Event>) {
    |a| == |b| && forall i | 0 <= i < |a| :: b[i].obj == a[i].obj && b[i].state == a[i].state
  }

  lemma ClearTells(s: Sys, t: Tid)
    requires CanClear(s, t)
    ensures
      var th, u := s.threads[t], ClearedNext(s, t);
      && |u.threads| == |s.threads| && u.threads[t].phase == Clearing(th.phase.left - 1, th.phase.rc)
      && SameResults(th.events, u.threads[t].events)
  {
    hide Without;
  }

  lemma LeftInBounds(s: Sys, t: Tid)
    requires Inv(s) && t < |s.threads| && s.threads[t].phase.Clearing? && s.threads[t].phase.left > 0
    ensures CanClear(s, t)
  {
    assert ThreadSound(s, t);
  }

  lemma {:induction false} ClearsAll(s: Sys, t: Tid)
    requires Inv(s) && t < |s.threads| && s.threads[t].phase.Clearing?
    ensures IsRun(s, Clearings(t, s.threads[t].phase.left))
    ensures
      var th, u := s.threads[t], After(s, Clearings(t, s.threads[t].phase.left));
      |u.threads| == |s.threads| && u.threads[t].phase == Clearing(0, th.phase.rc) && SameResults(th.events, u.threads[t].events)
    decreases s.threads[t].phase.left
  {
    hide Inv, ClearedNext;
    var n := s.threads[t].phase.left;
    if n > 0 {
      LeftInBounds(s, t);
      ClearTells(s, t);
      NextKeeps(s, Clears(t));
      ClearsAll(ClearedNext(s, t), t);
      assert Clearings(t, n)[1..] == Clearings(t, n - 1);
    }
  }

  /** A call with a result can always finish on its own: it clears what it has registered, returns
      that result, with what was found of its events, and is out of k_poll(). */
  lemma Finishes(s: Sys, t: Tid, rc: Rc)
    requires Inv(s) && t < |s.threads| && Comes(s.threads[t], rc)
    ensures IsRun(s, Finishing(t, s.threads[t]))
    ensures
      var u := After(s, Finishing(t, s.threads[t]));
      && |u.threads| == |s.threads| && u.threads[t].phase == Clearing(0, rc)
      && SameResults(s.threads[t].events, u.threads[t].events)
      && Enabled(u, Returns(t)) && Next(u, Returns(t)).threads[t] == u.threads[t].(phase := Idle)
  {
    hide Inv, Clearings, ClearedNext;
    if s.threads[t].phase.Woken? {
      NextKeeps(s, Resumes(t));
      ClearsAll(Resumed(s, t), t);
      assert Finishing(t, s.threads[t])[1..] == Clearings(t, |s.threads[t].events|);
    } else {
      ClearsAll(s, t);
    }
  }

  /** A thread that waits comes to -EAGAIN by its timeout, and by a signal of its event to 0 or, if
      the object was cancelled, to -EINTR, with the event marked so. */
  lemma WakingTells(s: Sys, a: Action, t: Tid)
    requires Inv(s) && Enabled(s, a) && t < |s.threads| && s.threads[t].phase.Waiting?
    ensures |Next(s, a).threads| == |s.threads|
    ensures
      var th := Next(s, a).threads[t];
      && (a == TimesOut(t) ==> Comes(th, Again) && th.events == s.threads[t].events)
      && (a.Signals? && s.objects[a.obj].list != [] && s.objects[a.obj].list[0].tid == t ==>
            var j := s.objects[a.obj].list[0].index;
            && Comes(th, if a.bit == Cancelled then Interrupted else Ok)
            && j < |th.events| == |s.threads[t].events| && th.events[j].obj == Some(a.obj)
            && a.bit in th.events[j].state && !th.events[j].poller
            && (forall i | 0 <= i < |th.events| && i != j :: th.events[i] == s.threads[t].events[i]))
  {
    hide Inv, ByPriority, NoDup;
    NextKeeps(s, a);
    if a.Signals? {
      SignalledKeeps(s, a.obj, a.bit);
    }
  }

  /** The call of a thread that is registering is already decided. */
  ghost predicate Decided(th: Thread) {
    (th.phase.Registering? && !th.polling) || (th.phase.Clearing? && th.phase.rc == Ok)
  }

  lemma StaysDecided(s: Sys, a: Action, t: Tid)
    requires Inv(s) && Enabled(s, a) && t < |s.threads| && Decided(s.threads[t]) && a != Returns(t)
    ensures |Next(s, a).threads| == |s.threads| && Decided(Next(s, a).threads[t])
  {
    hide Inv, Pended, Without;
    if a.Signals? {
      SignalledKeeps(s, a.obj, a.bit);
    }
  }

  /** A signal that comes before the thread waits keeps it from waiting: whatever happens
      then, it goes on to clear its registrations and return 0. */
  lemma {:induction false} SignalledNeverWaits(s: Sys, acts: seq<Action>, t: Tid)
    requires Inv(s) && IsRun(s, acts) && t < |s.threads| && Decided(s.threads[t])
    requires Returns(t) !in acts
    ensures |After(s, acts).threads| == |s.threads| && Decided(After(s, acts).threads[t])
    decreases |acts|
  {
    hide Inv, Next;
    if acts != [] {
      NextKeeps(s, acts[0]);
      StaysDecided(s, acts[0], t);
      SignalledNeverWaits(Next(s, acts[0]), acts[1..], t);
    }
  }

  /** The signal itself: it reaches the first thread on the list, whatever that does. */
  lemma SignalDecides(s: Sys, o: Oid, bit: Bit)
    requires Inv(s) && o < |s.objects| && s.objects[o].list != []
    requires s.objects[o].list[0].tid < |s.threads| && s.threads[s.objects[o].list[0].tid].phase.Registering?
    ensures Decided(Next(s, Signals(o, bit)).threads[s.objects[o].list[0].tid])
  {
    hide Inv;
    SignalledThread(s, o, bit);
    SignalledKeeps(s, o, bit);
  }

  // ----- Threads that keep waiting -----

  ghost predicate Waits(s: Sys, t: Tid) { t < |s.threads| && s.threads[t].phase.Waiting? }

  /** The action is the thread's timeout, or a signal that finds it first on the list. */
  ghost predicate Calls(s: Sys, a: Action, t: Tid) {
    || a == TimesOut(t)
    || (a.Signals? && a.obj < |s.objects| && s.objects[a.obj].list != [] && s.objects[a.obj].list[0].tid == t)
  }

  /** A thread that waits goes on waiting over a step exactly if the step does not call it. */
  lemma WaitsOnStep(s: Sys, a: Action, t: Tid)
    requires Inv(s) && Enabled(s, a) && Waits(s, t)
    ensures Waits(Next(s, a), t) <==> !Calls(s, a, t)
    ensures !Calls(s, a, t) ==> Next(s, a).threads[t] == s.threads[t]
  {
    hide Inv, Pended, Without;
    NextKeeps(s, a);
    if a.Signals? {
      SignalledKeeps(s, a.obj, a.bit);
      if s.objects[a.obj].list != [] {
        SignalledThread(s, a.obj, a.bit);
      }
    }
  }

  /** The thread waits in every state of the run. */
  ghost predicate WaitsThroughout(s: Sys, acts: seq<Action>, t: Tid)
    requires Inv(s) && IsRun(s, acts)
    decreases |acts|
  {
    Waits(s, t) && (acts != [] ==> (NextKeeps(s, acts[0]); WaitsThroughout(Next(s, acts[0]), acts[1..], t)))
  }

  /** The thread does not time out, and every signal of the run is taken by another. */
  ghost predicate NeverCalled(s: Sys, acts: seq<Action>, t: Tid)
    requires Inv(s) && IsRun(s, acts)
    decreases |acts|
  {
    acts != [] ==> !Calls(s, acts[0], t) && (NextKeeps(s, acts[0]); NeverCalled(Next(s, acts[0]), acts[1..], t))
  }

  /** A thread keeps waiting over a run, whatever becomes ready meanwhile, if and only if it does
      not time out and every signal is taken by another thread. */
  lemma {:induction false} KeepsWaitingIff(s: Sys, acts: seq<Action>, t: Tid)
    requires Inv(s) && IsRun(s, acts) && Waits(s, t)
    ensures WaitsThroughout(s, acts, t) <==> NeverCalled(s, acts, t)
    decreases |acts|
  {
    hide Inv, Next, Calls, Waits, Enabled;
    if acts != [] {
      NextKeeps(s, acts[0]);
      WaitsOnStep(s, acts[0], t);
      if Waits(Next(s, acts[0]), t) {
        KeepsWaitingIff(Next(s, acts[0]), acts[1..], t);
      }
    }
  }

  /** How many registrations are ahead of the first one of a thread. */
  function Ahead(list: seq<Reg>, t: Tid): nat {
    if list == [] || list[0].tid == t then 0 else 1 + Ahead(list[1..], t)
  }

  ghost predicate Listed(list: seq<Reg>, t: Tid) { exists r :: r in list && r.tid == t }

  /** Event `j` of thread `x` is ahead of the first one of thread `t`. */
  ghost predicate Before(list: seq<Reg>, x: Tid, j: nat, t: Tid) {
    list != [] && list[0].tid != t && ((list[0].tid == x && list[0].index == j) || Before(list[1..], x, j, t))
  }

  /** Only a higher priority gets ahead. */
  lemma {:induction false} AheadPended(list: seq<Reg>, reg: Reg, t: Tid, prio: int)
    requires ByPriority(list, Priority) && Listed(list, t) && reg.tid != t
    requires forall r | r in list && r.tid == t :: r.prio == prio
    ensures Listed(Pended(list, reg, Priority), t)
    ensures Ahead(Pended(list, reg, Priority), t) == Ahead(list, t) + if reg.prio < prio then 1 else 0
  {
    var r :| r in list && r.tid == t;
    PendedElements(list, reg, Priority, r);
    var k :| 0 <= k < |list| && list[k] == r;
    assert k > 0 ==> Priority(list[0]) <= Priority(list[k]);
    if reg.prio < list[0].prio {
      assert ([reg] + list)[1..] == list;
    } else if list[0].tid == t {
      assert list[0] in list;
    } else {
      assert r == list[1..][k - 1];
      FirstByPriority(list, list[0], Priority);
      AheadPended(list[1..], reg, t, prio);
      assert ([list[0]] + Pended(list[1..], reg, Priority))[1..] == Pended(list[1..], reg, Priority);
    }
  }

  lemma {:induction false} AheadWithout(list: seq<Reg>, x: Tid, j: nat, t: Tid)
    requires Listed(list, t) && x != t
    ensures Listed(Without(list, x, j), t)
    ensures Ahead(Without(list, x, j), t) + (if Before(list, x, j, t) then 1 else 0) == Ahead(list, t)
  {
    var r :| r in list && r.tid == t;
    var k :| 0 <= k < |list| && list[k] == r;
    if list[0].tid == x && list[0].index == j {
      assert r == list[1..][k - 1];
    } else if list[0].tid == t {
      assert ([list[0]] + Without(list[1..], x, j))[0] == list[0];
    } else {
      assert r == list[1..][k - 1];
      AheadWithout(list[1..], x, j, t);
      var q :| q in Without(list[1..], x, j) && q.tid == t;
      assert q in [list[0]] + Without(list[1..], x, j);
      assert ([list[0]] + Without(list[1..], x, j))[1..] == Without(list[1..], x, j);
    }
  }

  lemma AheadSignalled(list: seq<Reg>, t: Tid)
    requires Listed(list, t) && list[0].tid != t
    ensures Listed(list[1..], t) && Ahead(list[1..], t) + 1 == Ahead(list, t)
  {
    var r :| r in list && r.tid == t;
    var k :| 0 <= k < |list| && list[k] == r;
    assert r == list[1..][k - 1];
  }

  /** A step puts a registration on the list of `o` ahead of thread `t`. */
  ghost predicate Joins(s: Sys, a: Action, t: Tid, o: Oid)
    requires t < |s.threads|
  {
    && a.Registers? && CanRegister(s, a.tid)
    && var th := s.threads[a.tid];
    && !Met(s, th.events[th.phase.next]) && !th.phase.noWait && th.polling
    && th.events[th.phase.next].obj == Some(o) && th.prio < s.threads[t].prio
  }

  /** A step clears a registration on the list of `o` that is ahead of thread `t`. */
  ghost predicate Leaves(s: Sys, a: Action, t: Tid, o: Oid)
    requires o < |s.objects|
  {
    && a.Clears? && CanClear(s, a.tid)
    && var th := s.threads[a.tid];
    && th.events[th.phase.left - 1].obj == Some(o) && Before(s.objects[o].list, a.tid, th.phase.left - 1, t)
  }

  /** A step signals `o`, to a thread that waits or to one that does not. */
  ghost predicate Wakes(s: Sys, a: Action, o: Oid, waiting: bool)
    requires o < |s.objects|
  {
    a.Signals? && a.obj == o && s.objects[o].list != [] && (Waits(s, s.objects[o].list[0].tid) <==> waiting)
  }

  function One(b: bool): nat { if b then 1 else 0 }

  lemma ListOf(s: Sys, t: Tid, o: Oid)
    requires Inv(s) && t < |s.threads| && o < |s.objects|
    ensures ByPriority(s.objects[o].list, Priority)
    ensures forall r | r in s.objects[o].list && r.tid == t :: r.prio == s.threads[t].prio
  {
    hide ByPriority, NoDup;
    assert ListSound(s, o);
    forall r | r in s.objects[o].list && r.tid == t ensures r.prio == s.threads[t].prio {
      assert RegSound(s, o, r);
    }
  }

  lemma NotNobody(list: seq<Reg>, t: Tid)
    requires Listed(list, t)
    ensures list != []
  {
  }

  lemma AheadStep(s: Sys, a: Action, t: Tid, o: Oid)
    requires Inv(s) && Enabled(s, a) && Waits(s, t) && !Calls(s, a, t)
    requires o < |s.objects| && Listed(s.objects[o].list, t)
    ensures
      var u := Next(s, a);
      && |u.objects| == |s.objects| && Listed(u.objects[o].list, t)
      && Ahead(u.objects[o].list, t) + One(Wakes(s, a, o, true)) + One(Wakes(s, a, o, false)) + One(Leaves(s, a, t, o))
         == Ahead(s.objects[o].list, t) + One(Joins(s, a, t, o))
  {
    hide Inv, Pended, Without, Ahead, Listed, Before, ByPriority;
    NextKeeps(s, a);
    var list := s.objects[o].list;
    match a
    case Registers(x) =>
      var th := s.threads[x];
      if th.events[th.phase.next].obj == Some(o) && !Met(s, th.events[th.phase.next]) && !th.phase.noWait && th.polling {
        ListOf(s, t, o);
        AheadPended(list, Reg(x, th.phase.next, th.prio), t, s.threads[t].prio);
      }
    case Clears(x) =>
      var th := s.threads[x];
      if th.events[th.phase.left - 1].obj == Some(o) {
        AheadWithout(list, x, th.phase.left - 1, t);
      }
    case Signals(x, bit) =>
      SignalledKeeps(s, x, bit);
      if x == o {
        NotNobody(list, t);
        AheadSignalled(list, t);
      }
    case _ =>
  }

  /** How often a step of a run does one of these. */
  ghost function SignalsTaken(s: Sys, acts: seq<Action>, o: Oid, waiting: bool): nat
    requires Inv(s) && IsRun(s, acts)
    decreases |acts|
  {
    if acts == [] || o >= |s.objects| then 0
    else
      NextKeeps(s, acts[0]);
      One(Wakes(s, acts[0], o, waiting)) + SignalsTaken(Next(s, acts[0]), acts[1..], o, waiting)
  }

  ghost function JoinedAhead(s: Sys, acts: seq<Action>, t: Tid, o: Oid): nat
    requires Inv(s) && IsRun(s, acts)
    decreases |acts|
  {
    if acts == [] || t >= |s.threads| then 0
    else
      NextKeeps(s, acts[0]);
      One(Joins(s, acts[0], t, o)) + JoinedAhead(Next(s, acts[0]), acts[1..], t, o)
  }

  ghost function LeftAhead(s: Sys, acts: seq<Action>, t: Tid, o: Oid): nat
    requires Inv(s) && IsRun(s, acts)
    decreases |acts|
  {
    if acts == [] || o >= |s.objects| then 0
    else
      NextKeeps(s, acts[0]);
      One(Leaves(s, acts[0], t, o)) + LeftAhead(Next(s, acts[0]), acts[1..], t, o)
  }

  /** While a thread waits on an object, the signals of the object are accounted for: as many as
      wake another thread, and as many as are taken in vain by threads that do not wait, have
      moved it up the list, next to registrations that were cleared ahead of it; and only
      threads of a higher priority have got ahead of it. */
  lemma {:induction false} MissedSignals(s: Sys, acts: seq<Action>, t: Tid, o: Oid)
    requires Inv(s) && IsRun(s, acts) && Waits(s, t) && WaitsThroughout(s, acts, t)
    requires o < |s.objects| && Listed(s.objects[o].list, t)
    ensures
      var u := After(s, acts);
      && |u.objects| == |s.objects| && Listed(u.objects[o].list, t)
      && Ahead(u.objects[o].list, t) + SignalsTaken(s, acts, o, true) + SignalsTaken(s, acts, o, false) + LeftAhead(s, acts, t, o)
         == Ahead(s.objects[o].list, t) + JoinedAhead(s, acts, t, o)
    decreases |acts|
  {
    hide Inv, Next, Calls, Enabled, Listed, Ahead, Wakes, Joins, Leaves;
    if acts != [] {
      NextKeeps(s, acts[0]);
      KeepsWaitingIff(s, acts, t);
      AheadStep(s, acts[0], t, o);
      MissedSignals(Next(s, acts[0]), acts[1..], t, o);
    }
  }

  lemma WaiterListed(s: Sys, t: Tid, o: Oid, j: nat)
    requires Inv(s) && Waits(s, t) && o < |s.objects| && j < |s.threads[t].events| && s.threads[t].events[j].obj == Some(o)
    ensures Listed(s.objects[o].list, t)
  {
    hide ByPriority, NoDup, ListSound;
    assert ThreadSound(s, t) && EventSound(s, t, j);
  }

  /** From any state that a run leads to: a thread that waits goes on waiting if and only if it
      does not time out and every signal is taken by another thread; and then the signals of
      each object that it waits for are accounted for. */
  lemma EveryWaiterIsServedInTurn(prios: seq<int>, mets: seq<bool>, start: seq<Action>, acts: seq<Action>, t: Tid, o: Oid, j: nat)
    requires IsRun(Fresh(prios, mets), start) && IsRun(After(Fresh(prios, mets), start), acts)
    requires
      var s := After(Fresh(prios, mets), start);
      Waits(s, t) && o < |s.objects| && j < |s.threads[t].events| && s.threads[t].events[j].obj == Some(o)
    ensures
      var s := After(Fresh(prios, mets), start);
      && (WaitsThroughout(s, acts, t) <==> NeverCalled(s, acts, t))
      && (WaitsThroughout(s, acts, t) ==>
            var u := After(s, acts);
            && o < |u.objects| && Listed(s.objects[o].list, t) && Listed(u.objects[o].list, t)
            && Ahead(u.objects[o].list, t) + SignalsTaken(s, acts, o, true) + SignalsTaken(s, acts, o, false) + LeftAhead(s, acts, t, o)
               == Ahead(s.objects[o].list, t) + JoinedAhead(s, acts, t, o))
  {
    hide Inv, IsRun, After, WaitsThroughout, NeverCalled, SignalsTaken, LeftAhead, JoinedAhead, Ahead;
    var s := After(Fresh(prios, mets), start);
    KeepsWaitingIff(s, acts, t);
    WaiterListed(s, t, o, j);
    if WaitsThroughout(s, acts, t) {
      MissedSignals(s, acts, t, o);
    }
  }

  /** A signal wakes somebody exactly when the first thread on the list waits. */
  lemma SignalWakesIff(s: Sys, o: Oid, bit: Bit)
    requires Inv(s) && o < |s.objects| && s.objects[o].list != []
    ensures s.objects[o].list[0].tid < |s.threads|
    ensures (exists t: Tid :: t < |s.threads| && s.threads[t].phase.Waiting? && !Next(s, Signals(o, bit)).threads[t].phase.Waiting?)
            <==> s.threads[s.objects[o].list[0].tid].phase.Waiting?
  {
    hide Inv;
    SignalledThread(s, o, bit);
    SignalledKeeps(s, o, bit);
    var r, u := s.objects[o].list[0], Next(s, Signals(o, bit));
    if s.threads[r.tid].phase.Waiting? {
      assert !u.threads[r.tid].phase.Waiting?;
    }
  }

  lemma NoMore(s: Sys)
    requires Inv(s)
    ensures IsRun(s, []) && After(s, []) == s
  {
  }

  lemma Onward(s: Sys, a: Action, acts: seq<Action>)
    requires Inv(s) && Enabled(s, a) && Inv(Next(s, a)) && IsRun(Next(s, a), acts)
    ensures IsRun(s, [a] + acts) && After(s, [a] + acts) == After(Next(s, a), acts)
  {
    hide Inv, Next, Enabled;
    assert ([a] + acts)[1..] == acts;
  }

  /** A run can go on where another ended. */
  lemma {:induction false} Joined(s: Sys, acts: seq<Action>, more: seq<Action>)
    requires Inv(s) && IsRun(s, acts) && Inv(After(s, acts)) && IsRun(After(s, acts), more)
    ensures IsRun(s, acts + more) && After(s, acts + more) == After(After(s, acts), more)
    decreases |acts|
  {
    hide Inv, Next, Enabled;
    if acts == [] {
      assert acts + more == more;
    } else {
      NextKeeps(s, acts[0]);
      Joined(Next(s, acts[0]), acts[1..], more);
      assert (acts + more)[0] == acts[0] && (acts + more)[1..] == acts[1..] + more;
    }
  }

  /** A thread polls one object. */
  function Polls(t: Tid, o: Oid): seq<Action> { [Starts(t, [Some(o)], false), Registers(t), EndsRegistering(t)] }

  function OnList(s: Sys, t: Tid, o: Oid): Sys
    requires t < |s.threads| && o < |s.objects|
  {
    WithThread(WithList(s, o, Pended(s.objects[o].list, Reg(t, 0, s.threads[t].prio), Priority)),
               t, Thread(s.threads[t].prio, Waiting, false, [Event(Some(o), true, {})]))
  }

  /** If the object is not ready, it ends up waiting on its list. */
  lemma PollsAndWaits(s: Sys, t: Tid, o: Oid)
    requires Inv(s) && t < |s.threads| && s.threads[t].phase == Idle && o < |s.objects| && !s.objects[o].met
    ensures IsRun(s, Polls(t, o)) && After(s, Polls(t, o)) == OnList(s, t, o)
  {
    hide Inv, IsRun, After, Pended;
    var e := Event(Some(o), false, {});
    var first, second, third := Starts(t, [Some(o)], false), Registers(t), EndsRegistering(t);
    NextKeeps(s, first);
    var s1 := Next(s, first);
    assert s1.threads[t].events == [e];
    NextKeeps(s1, second);
    var s2 := Next(s1, second);
    assert s2.threads[t].events == [e.(poller := true)];
    NextKeeps(s2, third);
    NoMore(Next(s2, third));
    Onward(s2, third, []);
    Onward(s1, second, [third] + []);
    Onward(s, first, [second] + ([third] + []));
    assert [first] + ([second] + ([third] + [])) == Polls(t, o);
    assert Next(s2, third) == OnList(s, t, o);
  }

  function TwoWait(): Sys {
    var e := Event(Some(0), true, {});
    Sys([Thread(1, Waiting, false, [e]), Thread(2, Waiting, false, [e])], [Obj(false, [Reg(0, 0, 1), Reg(1, 0, 2)])])
  }

  /** Two threads come to wait for the same object. */
  lemma TwoWaitReached()
    ensures
      var s, acts := Fresh([1, 2], [false]), Polls(0, 0) + Polls(1, 0);
      IsRun(s, acts) && After(s, acts) == TwoWait()
  {
    hide Inv, IsRun, After, Polls;
    var s := Fresh([1, 2], [false]);
    PollsAndWaits(s, 0, 0);
    RunKeeps(s, Polls(0, 0));
    var s1 := OnList(s, 0, 0);
    PollsAndWaits(s1, 1, 0);
    Joined(s, Polls(0, 0), Polls(1, 0));
    var first, second := Reg(0, 0, 1), Reg(1, 0, 2);
    assert Pended([], first, Priority) == [first] && Pended([], second, Priority) == [second];
    assert s1.objects[0].list == [first] && [first][1..] == [];
    assert Pended([first], second, Priority) == [first, second];
    assert OnList(s1, 1, 0).objects[0].list == [Reg(0, 0, 1), Reg(1, 0, 2)];
    assert OnList(s1, 1, 0).threads == TwoWait().threads;
    assert OnList(s1, 1, 0).objects == TwoWait().objects;
  }

  /** A signal can be lost: the first of two threads times out, the object becomes ready and
      is signalled before the thread has cleared its registration, and the second thread
      waits on although the object is ready. */
  lemma SignalLostOnTimeout()
    ensures
      var e := Event(Some(0), true, {});
      var s, acts := Fresh([1, 2], [false]), Polls(0, 0) + Polls(1, 0) + [TimesOut(0), Changes(0, true), Signals(0, Ready)];
      && IsRun(s, acts)
      && After(s, acts) == Sys([Thread(1, Woken(Again), false, [e.(poller := false, state := {Ready})]), Thread(2, Waiting, false, [e])],
                               [Obj(true, [Reg(1, 0, 2)])])
  {
    hide Inv, IsRun, After, Polls;
    var s := Fresh([1, 2], [false]);
    TwoWaitReached();
    RunKeeps(s, Polls(0, 0) + Polls(1, 0));
    var first, second, third := TimesOut(0), Changes(0, true), Signals(0, Ready);
    var s0 := TwoWait();
    NextKeeps(s0, first);
    var s1 := Next(s0, first);
    NextKeeps(s1, second);
    var s2 := Next(s1, second);
    assert s2.objects[0].list[0] == Reg(0, 0, 1) && s2.objects[0].list[1..] == [Reg(1, 0, 2)];
    NextKeeps(s2, third);
    var e := Event(Some(0), true, {});
    var s3 := Next(s2, third);
    assert e.state + {Ready} == {Ready};
    assert s2.threads[0].events == [e];
    assert s3.threads[0].events == [e.(poller := false, state := {Ready})];
    assert s3.threads == [Thread(1, Woken(Again), false, [e.(poller := false, state := {Ready})]), Thread(2, Waiting, false, [e])];
    assert s3.objects == [Obj(true, [Reg(1, 0, 2)])];
    NoMore(s3);
    Onward(s2, third, []);
    Onward(s1, second, [third] + []);
    Onward(s0, first, [second] + ([third] + []));
    assert [first] + ([second] + ([third] + [])) == [first, second, third];
    Joined(s, Polls(0, 0) + Polls(1, 0), [first, second, third]);
  }

  // ----- kernel/poll.c -----

  lemma Last(list: seq<Reg>, reg: Reg)
    requires ByPriority(list, Priority) && (list == [] || list[|list| - 1].prio < reg.prio)
    ensures forall i | 0 <= i < |list| :: list[i].prio < reg.prio
  {
    assert forall i | 0 <= i < |list| :: Priority(list[i]) <= Priority(list[|list| - 1]);
  }

  lemma ListOrdered(s: Sys, o: Oid)
    requires Inv(s) && o < |s.objects|
    ensures ByPriority(s.objects[o].list, Priority)
  {
    assert ListSound(s, o);
  }

  /** The threads, and the objects that they poll. */
  class PollSystem {
    var threads: seq<Thread>
    var objects: seq<Obj>

    ghost function View(): Sys
      reads this
    {
      Sys(threads, objects)
    }

    ghost predicate Valid()
      reads this
    {
      Inv(View())
    }

    constructor (prios: seq<int>, mets: seq<bool>)
      ensures Valid() && View() == Fresh(prios, mets)
    {
      threads := seq(|prios|, i requires 0 <= i < |prios| => Thread(prios[i], Idle, false, []));
      objects := seq(|mets|, i requires 0 <= i < |mets| => Obj(mets[i], []));
    }

    method SetThread(t: Tid, th: Thread)
      requires t < |threads|
      modifies `threads
      ensures View() == WithThread(old(View()), t, th)
    {
      threads := threads[t := th];
    }

    /** add_event(): the tail is tried first, then the list is searched. */
    method AddEvent(o: Oid, reg: Reg)
      requires o < |objects| && ByPriority(objects[o].list, Priority)
      modifies `objects
      ensures View() == WithList(old(View()), o, Pended(old(objects)[o].list, reg, Priority))
    {
      hide ByPriority, Pended;
      var list := objects[o].list;
      ghost var at := PendedAt(list, reg, Priority);
      var k := |list|;
      if list != [] && !(list[|list| - 1].prio < reg.prio) {
        k := 0;
        while k < |list| && !(reg.prio < list[k].prio)
          invariant k <= |list| && forall i | 0 <= i < k :: list[i].prio <= reg.prio
        {
          k := k + 1;
        }
      } else {
        Last(list, reg);
      }
      assert at < |list| ==> Priority(reg) < Priority(list[at]);
      assert k == at;
      objects := objects[o := objects[o].(list := list[..k] + [reg] + list[k..])];
    }

    /** One turn of the loop of register_events(). */
    method RegisterNext(t: Tid)
      requires Valid() && CanRegister(View(), t)
      modifies this
      ensures Valid() && View() == RegisteredNext(old(View()), t)
    {
      hide Inv, Pended, ByPriority;
      RegisteredNextKeeps(View(), t);
      var th := threads[t];
      var j := th.phase.next;
      var e := th.events[j];
      if e.obj.Some? && e.obj.value < |objects| && objects[e.obj.value].met {
        var done := ReadyEvent(e, Ready);
        SetThread(t, WithEvent(th, j, done).(polling := false, phase := th.phase.(next := j + 1)));
      } else if !th.phase.noWait && th.polling {
        if e.obj.Some? && e.obj.value < |objects| {
          ListOrdered(View(), e.obj.value);
          AddEvent(e.obj.value, Reg(t, j, th.prio));
        }
        SetThread(t, WithEvent(th, j, e.(poller := true)).(phase := th.phase.(next := j + 1, registered := th.phase.registered + 1)));
      } else {
        SetThread(t, th.(phase := th.phase.(next := j + 1)));
      }
    }

    /** k_poll() between register_events() and its wait. */
    method EndRegistering(t: Tid)
      requires Valid() && Enabled(View(), EndsRegistering(t))
      modifies this
      ensures Valid() && View() == RegisteredAll(old(View()), t)
      ensures threads[t].phase.Waiting? <==> old(threads)[t].polling && !old(threads)[t].phase.noWait
    {
      hide Inv;
      RegisteredAllKeeps(View(), t);
      var th := threads[t];
      if !th.polling {
        SetThread(t, th.(phase := Clearing(th.phase.registered, Ok)));
      } else if th.phase.noWait {
        SetThread(t, th.(polling := false, phase := Clearing(0, Again)));
      } else {
        SetThread(t, th.(polling := false, phase := Waiting));
      }
    }

    /** z_handle_obj_poll_events() with signal_poll_event() and signal_poller(). */
    method HandleObjPollEvents(o: Oid, bit: Bit) returns (found: bool)
      requires Valid() && o < |objects|
      modifies this
      ensures Valid() && found == (old(objects)[o].list != []) && View() == Next(old(View()), Signals(o, bit))
    {
      hide Inv;
      SignalledKeeps(View(), o, bit);
      var list := objects[o].list;
      if list == [] {
        return false;
      }
      var r := list[0];
      objects := objects[o := objects[o].(list := list[1..])];
      var th := threads[r.tid];
      if th.phase.Waiting? {
        th := th.(phase := Woken(if bit == Cancelled then Interrupted else Ok));
      }
      th := th.(polling := false);
      SetThread(r.tid, WithEvent(th, r.index, ReadyEvent(th.events[r.index], bit)));
      return true;
    }

    /** sys_dlist_remove() of a node that is linked. */
    method Unlink(o: Oid, t: Tid, j: nat)
      requires o < |objects|
      modifies `objects
      ensures View() == WithList(old(View()), o, Without(old(objects)[o].list, t, j))
    {
      var list := objects[o].list;
      ghost var at := WithoutAt(list, t, j);
      var i := 0;
      while i < |list| && !(list[i].tid == t && list[i].index == j)
        invariant i <= at
      {
        i := i + 1;
      }
      if i < |list| {
        objects := objects[o := objects[o].(list := list[..i] + list[i + 1..])];
      }
    }

    /** One turn of the loop of clear_event_registrations(). */
    method ClearNext(t: Tid)
      requires Valid() && CanClear(View(), t)
      modifies this
      ensures Valid() && View() == ClearedNext(old(View()), t)
    {
      hide Inv, Without;
      ClearedNextKeeps(View(), t);
      var th := threads[t];
      var j := th.phase.left - 1;
      var e := th.events[j];
      if e.obj.Some? && e.obj.value < |objects| {
        Unlink(e.obj.value, t, j);
      }
      SetThread(t, WithEvent(th, j, e.(poller := false)).(phase := th.phase.(left := j)));
    }
  }
}

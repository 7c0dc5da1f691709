/**
 Mutexes with priority inheritance, kernel/mutex.c, for any number of threads that each use
 at most one mutex at a time.  A thread that gives up waiting leaves the wait queue first
 and lowers the owner's priority in a later step; anything can happen in between.
 A lower number is a higher priority.
 */
module Mutexes {

  import opened WaitQueue

  type Tid = nat
  type Mid = nat

  datatype Option<T> = None | Some(value: T)

  /** What a thread does with mutexes.  `Expired` threads have timed out but not yet
      lowered the owner's priority. */
  datatype Role = Idle | Owns(mutex: Mid) | Waits(mutex: Mid) | Expired(mutex: Mid)

  /** `base` is the priority that the thread was given, `prio` the one it runs with. */
  datatype Thread = Thread(base: int, prio: int, role: Role)

  datatype Waiter = Waiter(tid: Tid, prio: int)

  /** struct k_mutex */
  datatype Mutex = Mutex(owner: Option<Tid>, count: nat, orig: int, waiters: seq<Waiter>)

  /** `ceiling` is CONFIG_PRIORITY_CEILING. */
  datatype Sys = Sys(ceiling: int, threads: seq<Thread>, mutexes: seq<Mutex>)

  datatype Ret = Blocks | Locked | Busy | TimedOut | Unlocked | Invalid | NotOwner

  const Priority := (w: Waiter) => w.prio

  function Min(a: int, b: int): int { if a < b then a else b }

  function Max(a: int, b: int): int { if a < b then b else a }

  /** new_prio_for_inheritance() */
  function Inheritance(ceiling: int, target: int, limit: int): int { Max(Min(target, limit), ceiling) }

  /** The priority that an owner goes back to when somebody stops waiting. */
  function Inherited(ceiling: int, mx: Mutex): int {
    if mx.waiters == [] then mx.orig else Inheritance(ceiling, mx.waiters[0].prio, mx.orig)
  }

  // ----- Invariant -----

  ghost predicate Apart(ws: seq<Waiter>) { forall i, j | 0 <= i < j < |ws| :: ws[i].tid != ws[j].tid }

  ghost predicate InQueue(ws: seq<Waiter>, t: Tid) { exists i :: 0 <= i < |ws| && ws[i].tid == t }

  ghost predicate Indebted(s: Sys, m: Mid) {
    exists t :: 0 <= t < |s.threads| && s.threads[t].role == Expired(m)
  }

  /** The owner runs with at least its own priority and that of every waiter, up to the
      ceiling; with a boost the ceiling does not stop, exactly as high as needed once
      nobody has yet to lower it. */
  ghost predicate OwnerSound(s: Sys, m: Mid)
    requires m < |s.mutexes| && s.mutexes[m].owner.Some?
  {
    var mx := s.mutexes[m];
    var o := mx.owner.value;
    && o < |s.threads| && s.threads[o].role == Owns(m) && mx.orig == s.threads[o].base
    && s.threads[o].prio <= Max(mx.orig, s.ceiling)
    && (forall w | w in mx.waiters :: s.threads[o].prio <= Max(w.prio, s.ceiling))
    && (s.threads[o].prio >= Min(mx.orig, s.ceiling))
    && (mx.orig >= s.ceiling && !Indebted(s, m) ==> s.threads[o].prio == Inherited(s.ceiling, mx))
  }

  ghost predicate QueueSound(s: Sys, m: Mid)
    requires m < |s.mutexes|
  {
    var ws := s.mutexes[m].waiters;
    && ByPriority(ws, Priority)
    && (forall w | w in ws :: w.tid < |s.threads| && s.threads[w.tid].role == Waits(m) && s.threads[w.tid].prio == w.prio)
    && Apart(ws)
  }

  ghost predicate MutexSound(s: Sys, m: Mid)
    requires m < |s.mutexes|
  {
    var mx := s.mutexes[m];
    && (mx.owner.None? <==> mx.count == 0) && (mx.owner.None? ==> mx.waiters == [])
    && QueueSound(s, m) && (mx.owner.Some? ==> OwnerSound(s, m))
  }

  ghost predicate ThreadSound(s: Sys, t: Tid)
    requires t < |s.threads|
  {
    match s.threads[t].role
    case Idle => s.threads[t].prio == s.threads[t].base
    case Owns(m) => m < |s.mutexes| && s.mutexes[m].owner == Some(t)
    case Waits(m) => m < |s.mutexes| && InQueue(s.mutexes[m].waiters, t) && s.threads[t].prio == s.threads[t].base
    case Expired(m) => m < |s.mutexes| && s.threads[t].prio == s.threads[t].base
  }

  ghost predicate Inv(s: Sys) {
    && (forall m: Mid {:trigger MutexSound(s, m)} | m < |s.mutexes| :: MutexSound(s, m))
    && (forall t: Tid {:trigger ThreadSound(s, t)} | t < |s.threads| :: ThreadSound(s, t))
  }

  // ----- Steps -----

  function WithPrio(s: Sys, t: Tid, prio: int): Sys
    requires t < |s.threads|
  {
    s.(threads := s.threads[t := s.threads[t].(prio := prio)])
  }

  function WithRole(s: Sys, t: Tid, role: Role): Sys
    requires t < |s.threads|
  {
    s.(threads := s.threads[t := s.threads[t].(role := role)])
  }

  function WithMutex(s: Sys, m: Mid, mx: Mutex): Sys
    requires m < |s.mutexes|
  {
    s.(mutexes := s.mutexes[m := mx])
  }

  /** A thread that is not blocked. */
  ghost predicate Runs(s: Sys, t: Tid) { t < |s.threads| && (s.threads[t].role.Idle? || s.threads[t].role.Owns?) }

  ghost predicate MayLock(s: Sys, t: Tid, m: Mid) {
    t < |s.threads| && m < |s.mutexes| && (s.threads[t].role == Idle || s.threads[t].role == Owns(m))
  }

  ghost predicate Contended(s: Sys, t: Tid, m: Mid)
    requires m < |s.mutexes|
  {
    s.mutexes[m].owner.Some? && s.mutexes[m].owner != Some(t)
  }

  /** k_mutex_lock() where it takes the mutex. */
  function Taken(s: Sys, t: Tid, m: Mid): Sys
    requires t < |s.threads| && m < |s.mutexes|
  {
    var mx := s.mutexes[m];
    var orig := if mx.count == 0 then s.threads[t].prio else mx.orig;
    WithRole(WithMutex(s, m, mx.(owner := Some(t), count := mx.count + 1, orig := orig)), t, Owns(m))
  }

  /** k_mutex_lock() where it lifts the owner and waits. */
  function Queued(s: Sys, t: Tid, m: Mid, o: Tid): Sys
    requires t < |s.threads| && m < |s.mutexes| && o < |s.threads|
  {
    var mx := s.mutexes[m];
    var prio := Inheritance(s.ceiling, s.threads[t].prio, s.threads[o].prio);
    var lifted := if prio < s.threads[o].prio then WithPrio(s, o, prio) else s;
    WithRole(WithMutex(lifted, m, mx.(waiters := Pended(mx.waiters, Waiter(t, s.threads[t].prio), Priority))), t, Waits(m))
  }

  /** A waiter's timeout takes it off the queue. */
  function Expire(s: Sys, m: Mid, i: nat): Sys
    requires m < |s.mutexes| && i < |s.mutexes[m].waiters| && s.mutexes[m].waiters[i].tid < |s.threads|
  {
    var ws := s.mutexes[m].waiters;
    WithRole(WithMutex(s, m, s.mutexes[m].(waiters := ws[..i] + ws[i + 1..])), ws[i].tid, Expired(m))
  }

  /** The rest of k_mutex_lock() after a timeout: the owner of now, if any, is lowered. */
  function Deboosted(s: Sys, t: Tid, m: Mid): Sys
    requires t < |s.threads| && m < |s.mutexes| && (s.mutexes[m].owner.Some? ==> s.mutexes[m].owner.value < |s.threads|)
  {
    var mx := s.mutexes[m];
    var idle := WithRole(s, t, Idle);
    if mx.owner.Some? then WithPrio(idle, mx.owner.value, Inherited(s.ceiling, mx)) else idle
  }

  /** k_mutex_unlock() by the owner, with the last count. */
  function Released(s: Sys, t: Tid, m: Mid): Sys
    requires t < |s.threads| && m < |s.mutexes|
    requires s.mutexes[m].waiters != [] ==> s.mutexes[m].waiters[0].tid < |s.threads|
  {
    var mx := s.mutexes[m];
    var idle := WithRole(WithPrio(s, t, mx.orig), t, Idle);
    if mx.waiters == [] then WithMutex(idle, m, mx.(owner := None, count := 0))
    else
      var n := mx.waiters[0].tid;
      WithRole(WithMutex(idle, m, mx.(owner := Some(n), orig := idle.threads[n].prio, waiters := mx.waiters[1..])), n, Owns(m))
  }

  // ----- Every step keeps the invariant -----

  lemma ThreadIs(s: Sys, t: Tid)
    requires Inv(s) && t < |s.threads|
    ensures ThreadSound(s, t)
  {
  }

  lemma OwnerWaitsNot(s: Sys, m: Mid, o: Tid)
    requires m < |s.mutexes| && MutexSound(s, m) && s.mutexes[m].owner == Some(o) && o < |s.threads|
    ensures s.threads[o].role == Owns(m)
  {
  }

  lemma MutexIs(s: Sys, m: Mid)
    requires Inv(s) && m < |s.mutexes|
    ensures MutexSound(s, m)
    ensures s.mutexes[m].waiters != [] ==> s.mutexes[m].waiters[0] in s.mutexes[m].waiters
  {
    assert MutexSound(s, m);
  }

  /** Thread `t` has to do with mutex `m`. */
  ghost predicate Involved(s: Sys, t: Tid, m: Mid)
    requires t < |s.threads|
  {
    !s.threads[t].role.Idle? && s.threads[t].role.mutex == m
  }

  /** Nothing that mutex `m` depends on differs. */
  ghost predicate SameFor(s: Sys, u: Sys, m: Mid) {
    && m < |s.mutexes| == |u.mutexes| && u.mutexes[m] == s.mutexes[m] && u.ceiling == s.ceiling && |u.threads| == |s.threads|
    && forall t: Tid | t < |s.threads| && (Involved(s, t, m) || Involved(u, t, m)) :: u.threads[t] == s.threads[t]
  }

  lemma MutexFrame(s: Sys, u: Sys, m: Mid)
    requires SameFor(s, u, m) && MutexSound(s, m)
    ensures MutexSound(u, m)
  {
    hide ByPriority, Inherited, Min, Max;
    var mx := s.mutexes[m];
    assert Indebted(s, m) <==> Indebted(u, m) by {
      assert forall t: Tid | t < |s.threads| :: s.threads[t].role == Expired(m) ==> Involved(s, t, m);
      assert forall t: Tid | t < |s.threads| :: u.threads[t].role == Expired(m) ==> Involved(u, t, m);
    }
    if mx.owner.Some? {
      assert Involved(s, mx.owner.value, m);
    }
    assert forall w | w in mx.waiters :: Involved(s, w.tid, m);
  }

  lemma TakenMutex(s: Sys, t: Tid, m: Mid)
    requires Inv(s) && MayLock(s, t, m) && !Contended(s, t, m)
    ensures MutexSound(Taken(s, t, m), m)
  {
    hide ByPriority;
    var u := Taken(s, t, m);
    assert ThreadSound(s, t) && MutexSound(s, m);
    assert Indebted(s, m) <==> Indebted(u, m) by {
      assert forall x: Tid | x < |s.threads| :: s.threads[x].role == Expired(m) <==> u.threads[x].role == Expired(m);
    }
  }

  lemma TakenKeeps(s: Sys, t: Tid, m: Mid)
    requires Inv(s) && MayLock(s, t, m) && !Contended(s, t, m)
    ensures Inv(Taken(s, t, m))
  {
    hide ByPriority;
    var u := Taken(s, t, m);
    assert ThreadSound(s, t) && MutexSound(s, m);
    TakenMutex(s, t, m);
    forall k: Mid | k < |u.mutexes| ensures MutexSound(u, k) {
      if k != m {
        assert MutexSound(s, k);
        MutexFrame(s, u, k);
      }
    }
    forall x: Tid | x < |u.threads| ensures ThreadSound(u, x) {
      assert ThreadSound(s, x);
    }
  }

  lemma PendedApart(ws: seq<Waiter>, w: Waiter)
    requires ByPriority(ws, Priority) && Apart(ws) && forall x | x in ws :: x.tid != w.tid
    ensures Apart(Pended(ws, w, Priority))
  {
    hide ByPriority, Pended;
    var i := PendedAt(ws, w, Priority);
    var q := ws[..i] + [w] + ws[i..];
    assert forall k | 0 <= k < |q| :: q[k] == if k < i then ws[k] else if k == i then w else ws[k - 1];
  }

  lemma QueuedQueue(s: Sys, t: Tid, m: Mid, o: Tid)
    requires Inv(s) && MayLock(s, t, m) && s.mutexes[m].owner == Some(o) && o != t && o < |s.threads|
    ensures QueueSound(Queued(s, t, m, o), m)
  {
    hide Inv, ByPriority, Pended, Inheritance, InQueue, OwnerSound, Apart;
    ThreadIs(s, t);
    MutexIs(s, m);
    OwnerWaitsNot(s, m, o);
    var ws, w := s.mutexes[m].waiters, Waiter(t, s.threads[t].prio);
    PendedApart(ws, w);
    PendedByPriority(ws, w, Priority);
    forall x | x in Pended(ws, w, Priority) ensures x in ws || x == w {
      PendedElements(ws, w, Priority, x);
    }
  }

  lemma Ordered(s: Sys, m: Mid)
    requires m < |s.mutexes| && QueueSound(s, m)
    ensures ByPriority(s.mutexes[m].waiters, Priority)
  {
  }

  /** The head of the queue has the highest priority on it. */
  lemma QueuedHead(ws: seq<Waiter>, w: Waiter, i: nat)
    requires ByPriority(ws, Priority) && i <= |ws| && Pended(ws, w, Priority) == ws[..i] + [w] + ws[i..]
    requires forall k | 0 <= k < i :: ws[k].prio <= w.prio
    requires forall k | i <= k < |ws| :: w.prio < ws[k].prio
    ensures Pended(ws, w, Priority)[0].prio == if ws == [] then w.prio else Min(ws[0].prio, w.prio)
  {
    hide Pended, ByPriority;
  }

  lemma QueuedDebts(s: Sys, t: Tid, m: Mid, o: Tid)
    requires MayLock(s, t, m) && o < |s.threads|
    ensures Indebted(s, m) <==> Indebted(Queued(s, t, m, o), m)
  {
    hide Pended, Inheritance;
    var u := Queued(s, t, m, o);
    assert forall x: Tid | x < |s.threads| :: s.threads[x].role == Expired(m) <==> u.threads[x].role == Expired(m);
  }

  /** Lifting an owner of priority `p` for a newcomer `w` on the queue `ws`. */
  lemma Lifted(ceiling: int, orig: int, p: int, ws: seq<Waiter>, w: Waiter, q: seq<Waiter>)
    requires q != [] && q[0].prio == (if ws == [] then w.prio else Min(ws[0].prio, w.prio))
    requires forall x | x in q :: x in ws || x == w
    requires p <= Max(orig, ceiling) && p >= Min(orig, ceiling) && forall x | x in ws :: p <= Max(x.prio, ceiling)
    ensures
      var r := Min(p, Inheritance(ceiling, w.prio, p));
      && r <= Max(orig, ceiling) && r >= Min(orig, ceiling) && (forall x | x in q :: r <= Max(x.prio, ceiling))
      && (orig >= ceiling && p == (if ws == [] then orig else Inheritance(ceiling, ws[0].prio, orig)) ==>
            r == Inheritance(ceiling, q[0].prio, orig))
  {
  }

  lemma QueuedOwner(s: Sys, t: Tid, m: Mid, o: Tid)
    requires Inv(s) && MayLock(s, t, m) && s.mutexes[m].owner == Some(o) && o != t && o < |s.threads|
    ensures OwnerSound(Queued(s, t, m, o), m)
  {
    hide Inv, ByPriority, Pended, QueueSound, Inheritance, Max, ThreadSound, Indebted;
    MutexIs(s, m);
    var ws, w := s.mutexes[m].waiters, Waiter(t, s.threads[t].prio);
    Ordered(s, m);
    var i := PendedAt(ws, w, Priority);
    forall x | x in Pended(ws, w, Priority) ensures x in ws || x == w {
      PendedElements(ws, w, Priority, x);
    }
    QueuedHead(ws, w, i);
    QueuedDebts(s, t, m, o);
    Lifted(s.ceiling, s.mutexes[m].orig, s.threads[o].prio, ws, w, Pended(ws, w, Priority));
  }

  lemma QueuedMutex(s: Sys, t: Tid, m: Mid, o: Tid)
    requires Inv(s) && MayLock(s, t, m) && s.mutexes[m].owner == Some(o) && o != t && o < |s.threads|
    ensures MutexSound(Queued(s, t, m, o), m)
  {
    hide ByPriority, Pended, QueueSound, OwnerSound;
    assert MutexSound(s, m);
    QueuedQueue(s, t, m, o);
    QueuedOwner(s, t, m, o);
  }

  lemma QueuedMember(ws: seq<Waiter>, w: Waiter, x: Tid)
    requires ByPriority(ws, Priority)
    ensures InQueue(Pended(ws, w, Priority), x) <==> InQueue(ws, x) || x == w.tid
  {
    hide Pended, ByPriority;
    var i := PendedAt(ws, w, Priority);
    var q := ws[..i] + [w] + ws[i..];
    if InQueue(ws, x) {
      var k :| 0 <= k < |ws| && ws[k].tid == x;
      assert q[if k < i then k else k + 1].tid == x;
    }
    assert q[i] == w;
  }

  lemma QueuedKeeps(s: Sys, t: Tid, m: Mid)
    requires Inv(s) && MayLock(s, t, m) && Contended(s, t, m)
    ensures MutexSound(s, m) && Inv(Queued(s, t, m, s.mutexes[m].owner.value))
  {
    hide ByPriority, Pended, Inherited, Min, Max;
    assert ThreadSound(s, t) && MutexSound(s, m);
    var o := s.mutexes[m].owner.value;
    assert ThreadSound(s, o);
    var u := Queued(s, t, m, o);
    QueuedMutex(s, t, m, o);
    forall k: Mid | k < |u.mutexes| ensures MutexSound(u, k) {
      if k != m {
        assert MutexSound(s, k);
        MutexFrame(s, u, k);
      }
    }
    forall x: Tid | x < |u.threads| ensures ThreadSound(u, x) {
      assert ThreadSound(s, x);
      QueuedMember(s.mutexes[m].waiters, Waiter(t, s.threads[t].prio), x);
    }
  }

  lemma ExpireQueue(s: Sys, m: Mid, i: nat)
    requires m < |s.mutexes| && QueueSound(s, m) && i < |s.mutexes[m].waiters|
    ensures s.mutexes[m].waiters[i].tid < |s.threads| && s.threads[s.mutexes[m].waiters[i].tid].role == Waits(m)
    ensures QueueSound(Expire(s, m, i), m)
    ensures forall w | w in Expire(s, m, i).mutexes[m].waiters :: w in s.mutexes[m].waiters
  {
    hide ByPriority;
    var ws := s.mutexes[m].waiters;
    assert ws[i] in ws;
    RemovedByPriority(ws, i, Priority);
    var rest := ws[..i] + ws[i + 1..];
    assert forall k | 0 <= k < |rest| :: rest[k] == ws[if k < i then k else k + 1];
    assert forall w | w in rest :: w in ws && w.tid != ws[i].tid;
  }

  lemma ExpireMutex(s: Sys, m: Mid, i: nat)
    requires Inv(s) && m < |s.mutexes| && i < |s.mutexes[m].waiters|
    ensures s.mutexes[m].waiters[i].tid < |s.threads| && s.threads[s.mutexes[m].waiters[i].tid].role == Waits(m)
    ensures MutexSound(Expire(s, m, i), m) && ThreadSound(s, s.mutexes[m].waiters[i].tid)
  {
    hide ByPriority, Inherited, Min, Max, QueueSound;
    assert MutexSound(s, m);
    ExpireQueue(s, m, i);
    var t := s.mutexes[m].waiters[i].tid;
    assert ThreadSound(s, t);
    assert Expire(s, m, i).threads[t].role == Expired(m);
  }

  lemma StillQueued(ws: seq<Waiter>, i: nat, x: Tid)
    requires i < |ws| && ws[i].tid != x
    ensures InQueue(ws, x) ==> InQueue(ws[..i] + ws[i + 1..], x)
  {
    var rest := ws[..i] + ws[i + 1..];
    if InQueue(ws, x) {
      var k :| 0 <= k < |ws| && ws[k].tid == x;
      assert rest[if k < i then k else k - 1].tid == x;
    }
  }

  lemma ExpireKeeps(s: Sys, m: Mid, i: nat)
    requires Inv(s) && m < |s.mutexes| && i < |s.mutexes[m].waiters|
    ensures s.mutexes[m].waiters[i].tid < |s.threads| && Inv(Expire(s, m, i))
  {
    hide ByPriority, Inherited, Min, Max;
    ExpireMutex(s, m, i);
    var ws := s.mutexes[m].waiters;
    var u, t := Expire(s, m, i), ws[i].tid;
    forall k: Mid | k < |u.mutexes| ensures MutexSound(u, k) {
      if k != m {
        assert MutexSound(s, k);
        MutexFrame(s, u, k);
      }
    }
    forall x: Tid | x < |u.threads| ensures ThreadSound(u, x) {
      assert ThreadSound(s, x);
      if x != t {
        StillQueued(ws, i, x);
      }
    }
  }

  lemma DeboostedMutex(s: Sys, t: Tid, m: Mid)
    requires Inv(s) && t < |s.threads| && m < |s.mutexes| && s.threads[t].role == Expired(m)
    ensures MutexSound(s, m) && MutexSound(Deboosted(s, t, m), m)
  {
    assert MutexSound(s, m);
    var u, ws := Deboosted(s, t, m), s.mutexes[m].waiters;
    assert forall w | w in ws :: ws[0].prio <= w.prio;
  }

  lemma DeboostedKeeps(s: Sys, t: Tid, m: Mid)
    requires Inv(s) && t < |s.threads| && s.threads[t].role == Expired(m)
    ensures m < |s.mutexes| && MutexSound(s, m) && Inv(Deboosted(s, t, m))
  {
    hide ByPriority;
    assert ThreadSound(s, t);
    assert MutexSound(s, m);
    var u := Deboosted(s, t, m);
    if s.mutexes[m].owner.Some? {
      assert ThreadSound(s, s.mutexes[m].owner.value);
    }
    DeboostedMutex(s, t, m);
    forall k: Mid | k < |u.mutexes| ensures MutexSound(u, k) {
      if k != m {
        assert MutexSound(s, k);
        MutexFrame(s, u, k);
      }
    }
    forall x: Tid | x < |u.threads| ensures ThreadSound(u, x) {
      assert ThreadSound(s, x);
    }
  }

  lemma RestOrdered(ws: seq<Waiter>)
    requires ws != [] && ByPriority(ws, Priority) && forall i, j | 0 <= i < j < |ws| :: ws[i].tid != ws[j].tid
    ensures ByPriority(ws[1..], Priority)
    ensures forall w | w in ws[1..] :: w in ws && ws[0].prio <= w.prio && w.tid != ws[0].tid
  {
  }

  /** The new owner comes first in the queue, so it has nothing to inherit. */
  lemma HandedOver(ceiling: int, mx: Mutex)
    requires forall w | w in mx.waiters :: mx.orig <= w.prio
    ensures mx.orig >= ceiling ==> Inherited(ceiling, mx) == mx.orig
    ensures forall w | w in mx.waiters :: mx.orig <= Max(w.prio, ceiling)
    ensures Min(mx.orig, ceiling) <= mx.orig <= Max(mx.orig, ceiling)
  {
  }

  lemma ReleasedMutex(s: Sys, t: Tid, m: Mid)
    requires Inv(s) && t < |s.threads| && m < |s.mutexes| && s.mutexes[m].owner == Some(t)
    ensures MutexSound(s, m) && (s.mutexes[m].waiters != [] ==> s.mutexes[m].waiters[0] in s.mutexes[m].waiters)
    ensures MutexSound(Released(s, t, m), m)
  {
    hide ByPriority, Inherited, Min, Max;
    assert MutexSound(s, m) && ThreadSound(s, t);
    var ws := s.mutexes[m].waiters;
    if ws != [] {
      assert ws[0] in ws;
      assert ThreadSound(s, ws[0].tid);
      RestOrdered(ws);
      HandedOver(s.ceiling, Released(s, t, m).mutexes[m]);
    }
  }

  lemma OwnerIs(s: Sys, t: Tid, m: Mid)
    requires Inv(s) && t < |s.threads| && m < |s.mutexes| && s.mutexes[m].owner == Some(t)
    ensures s.threads[t].role == Owns(m) && s.mutexes[m].orig == s.threads[t].base
  {
    hide ByPriority, Inherited, QueueSound;
    assert MutexSound(s, m);
  }

  lemma ReleasedFrame(s: Sys, t: Tid, m: Mid, k: Mid)
    requires Inv(s) && t < |s.threads| && m < |s.mutexes| && s.mutexes[m].owner == Some(t) && k < |s.mutexes| && k != m
    requires s.mutexes[m].waiters != [] ==> s.mutexes[m].waiters[0].tid < |s.threads|
    ensures SameFor(s, Released(s, t, m), k)
  {
    hide Inv, ByPriority, OwnerSound, InQueue;
    MutexIs(s, m);
    OwnerIs(s, t, m);
  }

  lemma ReleasedThread(s: Sys, t: Tid, m: Mid, x: Tid)
    requires Inv(s) && t < |s.threads| && m < |s.mutexes| && s.mutexes[m].owner == Some(t) && x < |s.threads|
    requires s.mutexes[m].waiters != [] ==> s.mutexes[m].waiters[0].tid < |s.threads|
    ensures ThreadSound(Released(s, t, m), x)
  {
    hide Inv, ByPriority, OwnerSound;
    MutexIs(s, m);
    OwnerIs(s, t, m);
    ThreadIs(s, x);
    var ws := s.mutexes[m].waiters;
    if ws != [] {
      ThreadIs(s, ws[0].tid);
      if InQueue(ws, x) && x != ws[0].tid {
        var k :| 0 <= k < |ws| && ws[k].tid == x;
        assert ws[1..][k - 1].tid == x;
      }
    }
  }

  lemma ReleasedKeeps(s: Sys, t: Tid, m: Mid)
    requires Inv(s) && t < |s.threads| && m < |s.mutexes| && s.mutexes[m].owner == Some(t)
    ensures MutexSound(s, m) && (s.mutexes[m].waiters != [] ==> s.mutexes[m].waiters[0] in s.mutexes[m].waiters)
    ensures Inv(Released(s, t, m)) && Released(s, t, m).threads[t] == Thread(s.threads[t].base, s.threads[t].base, Idle)
  {
    hide ByPriority, OwnerSound, InQueue;
    MutexIs(s, m);
    ReleasedMutex(s, t, m);
    OwnerIs(s, t, m);
    var u := Released(s, t, m);
    forall k: Mid | k < |u.mutexes| ensures MutexSound(u, k) {
      if k != m {
        MutexIs(s, k);
        ReleasedFrame(s, t, m, k);
        MutexFrame(s, u, k);
      }
    }
    forall x: Tid | x < |u.threads| ensures ThreadSound(u, x) {
      ReleasedThread(s, t, m, x);
    }
  }

  // ----- Calls -----

  /** k_mutex_lock() until it returns or waits. */
  ghost function Lock(s: Sys, t: Tid, m: Mid, canWait: bool): (Sys, Ret)
    requires Inv(s) && MayLock(s, t, m)
  {
    assert MutexSound(s, m);
    if !Contended(s, t, m) then (Taken(s, t, m), Locked)
    else if !canWait then (s, Busy)
    else (Queued(s, t, m, s.mutexes[m].owner.value), Blocks)
  }

  /** k_mutex_unlock() */
  ghost function Unlock(s: Sys, t: Tid, m: Mid): (Sys, Ret)
    requires Inv(s) && Runs(s, t) && m < |s.mutexes|
  {
    assert MutexSound(s, m);
    var mx := s.mutexes[m];
    if mx.owner.None? then (s, Invalid)
    else if mx.owner != Some(t) then (s, NotOwner)
    else if mx.count > 1 then (WithMutex(s, m, mx.(count := mx.count - 1)), Unlocked)
    else
      assert mx.waiters != [] ==> mx.waiters[0] in mx.waiters;
      (Released(s, t, m), Unlocked)
  }

  lemma CountDownKeeps(s: Sys, m: Mid)
    requires Inv(s) && m < |s.mutexes| && s.mutexes[m].count > 1
    ensures Inv(WithMutex(s, m, s.mutexes[m].(count := s.mutexes[m].count - 1)))
  {
    hide ByPriority, Min, Max;
    var u := WithMutex(s, m, s.mutexes[m].(count := s.mutexes[m].count - 1));
    forall k: Mid | k < |u.mutexes| ensures MutexSound(u, k) {
      assert MutexSound(s, k);
      assert Indebted(s, k) <==> Indebted(u, k);
    }
    forall x: Tid | x < |u.threads| ensures ThreadSound(u, x) {
      assert ThreadSound(s, x);
    }
  }

  // ----- Runs -----

  datatype Event =
    | Locks(tid: Tid, mutex: Mid, canWait: bool)
    | Expires(mutex: Mid, index: nat)
    | Deboosts(tid: Tid, mutex: Mid)
    | Unlocks(tid: Tid, mutex: Mid)

  ghost predicate Enabled(s: Sys, e: Event) {
    match e
    case Locks(t, m, _) => MayLock(s, t, m)
    case Expires(m, i) => m < |s.mutexes| && i < |s.mutexes[m].waiters|
    case Deboosts(t, m) => t < |s.threads| && s.threads[t].role == Expired(m)
    case Unlocks(t, m) => Runs(s, t) && m < |s.mutexes|
  }

  ghost function Next(s: Sys, e: Event): (Sys, Ret)
    requires Inv(s) && Enabled(s, e)
  {
    match e
    case Locks(t, m, canWait) => Lock(s, t, m, canWait)
    case Expires(m, i) => ExpireKeeps(s, m, i); (Expire(s, m, i), Blocks)
    case Deboosts(t, m) => DeboostedKeeps(s, t, m); (Deboosted(s, t, m), TimedOut)
    case Unlocks(t, m) => Unlock(s, t, m)
  }

  /** The priorities that threads were given stay, and so does the ceiling. */
  ghost predicate SameBases(s: Sys, u: Sys) {
    && u.ceiling == s.ceiling && |u.threads| == |s.threads| && |u.mutexes| == |s.mutexes|
    && forall t: Tid | t < |s.threads| :: u.threads[t].base == s.threads[t].base
  }

  lemma Bases(s: Sys, e: Event)
    requires Inv(s) && Enabled(s, e)
    ensures SameBases(s, Next(s, e).0)
    ensures e.Locks? && Next(s, e).1 == Locked ==> Next(s, e).0.mutexes[e.mutex].owner == Some(e.tid)
  {
    hide ByPriority, Inherited, Inheritance, Pended;
    if e.Deboosts? {
      assert ThreadSound(s, e.tid);
    }
    assert MutexSound(s, e.mutex);
    assert s.mutexes[e.mutex].waiters != [] ==> s.mutexes[e.mutex].waiters[0] in s.mutexes[e.mutex].waiters;
  }

  lemma NextKeeps(s: Sys, e: Event)
    requires Inv(s) && Enabled(s, e)
    ensures Inv(Next(s, e).0) && SameBases(s, Next(s, e).0)
    ensures e.Locks? && Next(s, e).1 == Locked ==> Next(s, e).0.mutexes[e.mutex].owner == Some(e.tid)
    ensures e.Unlocks? ==> (Next(s, e).1 == Unlocked <==> s.mutexes[e.mutex].owner == Some(e.tid))
  {
    hide Inv, Taken, Queued, Expire, Deboosted, Released, ByPriority, MutexSound, ThreadSound;
    match e
    case Locks(t, m, canWait) =>
      if !Contended(s, t, m) {
        TakenKeeps(s, t, m);
        Bases(s, e);
      } else if canWait {
        QueuedKeeps(s, t, m);
        Bases(s, e);
      }
    case Expires(m, i) =>
      ExpireKeeps(s, m, i);
      Bases(s, e);
    case Deboosts(t, m) =>
      DeboostedKeeps(s, t, m);
      Bases(s, e);
    case Unlocks(t, m) =>
      if s.mutexes[m].owner == Some(t) {
        if s.mutexes[m].count > 1 {
          CountDownKeeps(s, m);
        } else {
          ReleasedKeeps(s, t, m);
          Bases(s, e);
        }
      }
  }

  ghost predicate IsRun(s: Sys, es: seq<Event>)
    requires Inv(s)
    decreases |es|
  {
    es != [] ==> Enabled(s, es[0]) && (NextKeeps(s, es[0]); IsRun(Next(s, es[0]).0, es[1..]))
  }

  ghost function After(s: Sys, es: seq<Event>): Sys
    requires Inv(s) && IsRun(s, es)
    decreases |es|
  {
    if es == [] then s else (NextKeeps(s, es[0]); After(Next(s, es[0]).0, es[1..]))
  }

  lemma {:induction false} RunKeeps(s: Sys, es: seq<Event>)
    requires Inv(s) && IsRun(s, es)
    ensures Inv(After(s, es)) && SameBases(s, After(s, es))
    decreases |es|
  {
    hide Inv, Next;
    if es != [] {
      NextKeeps(s, es[0]);
      RunKeeps(Next(s, es[0]).0, es[1..]);
    }
  }

  /** Mutexes that nobody has locked, and threads that run with what they were given. */
  function Fresh(ceiling: int, bases: seq<int>, count: nat): (s: Sys)
    ensures Inv(s)
  {
    Sys(ceiling, seq(|bases|, i requires 0 <= i < |bases| => Thread(bases[i], bases[i], Idle)), seq(count, _ => Mutex(None, 0, 0, [])))
  }

  // ----- What the callers are told, and the count -----

  /** Only mutex `m` and threads `t` and `o` differ. */
  ghost predicate Others(s: Sys, u: Sys, m: Mid, t: Tid, o: Tid) {
    && |u.threads| == |s.threads| && |u.mutexes| == |s.mutexes| && u.ceiling == s.ceiling
    && (forall k: Mid | k < |s.mutexes| && k != m :: u.mutexes[k] == s.mutexes[k])
    && (forall x: Tid | x < |s.threads| && x != t && x != o :: u.threads[x] == s.threads[x])
  }

  /** What locking tells: the mutex is got exactly if nobody else has it, and then once more than
      before; else the call comes back with nothing changed, or waits in its place by
      priority, and the mutex and its count are left alone. */
  lemma LockTells(s: Sys, t: Tid, m: Mid, canWait: bool)
    requires Inv(s) && MayLock(s, t, m)
    ensures
      var (u, ret) := Lock(s, t, m, canWait);
      var mx := s.mutexes[m];
      var free := mx.owner.None? || mx.owner == Some(t);
      && (ret == Locked <==> free) && (ret == Busy <==> !free && !canWait) && (ret == Blocks <==> !free && canWait)
      && (ret == Busy ==> u == s)
      && (ret == Locked ==>
            && Others(s, u, m, t, t) && u.threads[t] == s.threads[t].(role := Owns(m))
            && u.mutexes[m].owner == Some(t) && u.mutexes[m].count == mx.count + 1 && u.mutexes[m].waiters == mx.waiters)
      && (ret == Blocks ==>
            && Others(s, u, m, t, mx.owner.value) && u.threads[t] == s.threads[t].(role := Waits(m))
            && u.mutexes[m] == mx.(waiters := Pended(mx.waiters, Waiter(t, s.threads[t].base), Priority)))
  {
    hide ByPriority, Pended, QueueSound, Inheritance, Inherited, Min, Max;
    ThreadIs(s, t);
    MutexIs(s, m);
  }

  /** What unlocking tells: it is refused without an owner and to others, with nothing changed.
      The owner keeps the mutex until the count is used up, and then it goes to the thread
      that waits first. */
  lemma UnlockTells(s: Sys, t: Tid, m: Mid)
    requires Inv(s) && Runs(s, t) && m < |s.mutexes|
    ensures
      var (u, ret) := Unlock(s, t, m);
      var mx := s.mutexes[m];
      && (ret == Invalid <==> mx.owner.None?) && (ret == NotOwner <==> mx.owner.Some? && mx.owner != Some(t))
      && (ret == Unlocked <==> mx.owner == Some(t)) && (ret != Unlocked ==> u == s)
      && (ret == Unlocked && mx.count > 1 ==> u == s.(mutexes := s.mutexes[m := mx.(count := mx.count - 1)]))
      && (ret == Unlocked && mx.count == 1 ==>
            && Others(s, u, m, t, if mx.waiters == [] then t else mx.waiters[0].tid)
            && u.threads[t] == Thread(s.threads[t].base, s.threads[t].base, Idle)
            && (mx.waiters == [] ==> u.mutexes[m].owner == None && u.mutexes[m].count == 0 && u.mutexes[m].waiters == [])
            && (mx.waiters != [] ==>
                  var n := mx.waiters[0].tid;
                  && n < |s.threads| && n != t && u.threads[n] == s.threads[n].(role := Owns(m))
                  && u.mutexes[m].owner == Some(n) && u.mutexes[m].count == 1 && u.mutexes[m].waiters == mx.waiters[1..]))
      && (ret == Unlocked ==> mx.count >= 1)
  {
    hide ByPriority, Inherited, Min, Max, Apart;
    MutexIs(s, m);
    if s.mutexes[m].owner == Some(t) {
      OwnerIs(s, t, m);
    }
  }

  /** An owner loses a mutex exactly by an unlock at count 1. */
  lemma OwnerLosesIff(s: Sys, e: Event, m: Mid, o: Tid)
    requires Inv(s) && Enabled(s, e) && m < |s.mutexes| && s.mutexes[m].owner == Some(o)
    ensures |Next(s, e).0.mutexes| == |s.mutexes|
    ensures Next(s, e).0.mutexes[m].owner != Some(o) <==> e == Unlocks(o, m) && s.mutexes[m].count == 1
  {
    hide Inv, Lock, Unlock, ByPriority, Pended;
    NextKeeps(s, e);
    MutexIs(s, m);
    match e
    case Locks(t, k, canWait) => LockTells(s, t, k, canWait);
    case Unlocks(t, k) => UnlockTells(s, t, k);
    case Expires(k, i) => ExpireKeeps(s, k, i);
    case Deboosts(t, k) => DeboostedKeeps(s, t, k);
  }

  /** What one can tell of a mutex from the calls and what they return: its owner, how many of
      the locks that its owner got it has not undone, and who waits. */
  datatype Ledger = Ledger(owner: Option<Tid>, depth: nat, waiters: seq<Waiter>)

  function Booked(l: Ledger, bases: seq<int>, m: Mid, e: Event, ret: Ret): Ledger {
    match e
    case Locks(t, k, _) =>
      if k != m then l
      else if ret == Locked then l.(owner := Some(t), depth := if l.owner == Some(t) then l.depth + 1 else 1)
      else if ret == Blocks && t < |bases| then l.(waiters := Pended(l.waiters, Waiter(t, bases[t]), Priority))
      else l
    case Unlocks(t, k) =>
      if k != m || ret != Unlocked then l
      else if l.depth > 1 then l.(depth := l.depth - 1)
      else if l.waiters == [] then Ledger(None, 0, [])
      else Ledger(Some(l.waiters[0].tid), 1, l.waiters[1..])
    case Expires(k, i) => if k == m && i < |l.waiters| then l.(waiters := l.waiters[..i] + l.waiters[i + 1..]) else l
    case Deboosts(_, _) => l
  }

  ghost function Account(l: Ledger, s: Sys, bases: seq<int>, m: Mid, es: seq<Event>): Ledger
    requires Inv(s) && IsRun(s, es)
    decreases |es|
  {
    if es == [] then l
    else
      NextKeeps(s, es[0]);
      Account(Booked(l, bases, m, es[0], Next(s, es[0]).1), Next(s, es[0]).0, bases, m, es[1..])
  }

  function LedgerOf(s: Sys, m: Mid): Ledger
    requires m < |s.mutexes|
  {
    Ledger(s.mutexes[m].owner, s.mutexes[m].count, s.mutexes[m].waiters)
  }

  ghost predicate HasBases(s: Sys, bases: seq<int>) {
    |s.threads| == |bases| && forall t: Tid | t < |bases| :: s.threads[t].base == bases[t]
  }

  lemma BookedIs(s: Sys, bases: seq<int>, m: Mid, e: Event)
    requires Inv(s) && Enabled(s, e) && m < |s.mutexes| && HasBases(s, bases)
    ensures |Next(s, e).0.mutexes| == |s.mutexes| && HasBases(Next(s, e).0, bases)
    ensures Booked(LedgerOf(s, m), bases, m, e, Next(s, e).1) == LedgerOf(Next(s, e).0, m)
  {
    hide Inv, Lock, Unlock, ByPriority, Pended;
    NextKeeps(s, e);
    MutexIs(s, m);
    match e
    case Locks(t, k, canWait) => LockTells(s, t, k, canWait);
    case Unlocks(t, k) => UnlockTells(s, t, k);
    case Expires(k, i) => ExpireKeeps(s, k, i);
    case Deboosts(t, k) => DeboostedKeeps(s, t, k);
  }

  lemma {:induction false} AccountIs(s: Sys, bases: seq<int>, m: Mid, es: seq<Event>)
    requires Inv(s) && IsRun(s, es) && m < |s.mutexes| && HasBases(s, bases)
    ensures |After(s, es).mutexes| == |s.mutexes| && Account(LedgerOf(s, m), s, bases, m, es) == LedgerOf(After(s, es), m)
    decreases |es|
  {
    hide Inv, Next, Booked, Enabled, HasBases;
    if es != [] {
      NextKeeps(s, es[0]);
      BookedIs(s, bases, m, es[0]);
      AccountIs(Next(s, es[0]).0, bases, m, es[1..]);
    }
  }

  /** After every run on fresh mutexes the count of a mutex is the number of locks that its owner
      got since it became the owner, with the hand-over, less those that it has undone; the
      owner and the waiting threads are those that the calls and what they returned tell. */
  lemma EveryRunCounts(ceiling: int, bases: seq<int>, count: nat, es: seq<Event>, m: Mid)
    requires IsRun(Fresh(ceiling, bases, count), es) && m < count
    ensures
      var u, l := After(Fresh(ceiling, bases, count), es), Account(Ledger(None, 0, []), Fresh(ceiling, bases, count), bases, m, es);
      && |u.mutexes| == count && u.mutexes[m].count == l.depth && u.mutexes[m].owner == l.owner
      && u.mutexes[m].waiters == l.waiters
  {
    hide Inv, After, Account, IsRun;
    AccountIs(Fresh(ceiling, bases, count), bases, m, es);
  }

  ghost predicate NoneAbove(s: Sys) { forall t: Tid | t < |s.threads| :: s.threads[t].base >= s.ceiling }

  ghost predicate Inherits(u: Sys, m: Mid)
    requires m < |u.mutexes| && u.mutexes[m].owner.Some?
  {
    var mx := u.mutexes[m];
    var o := mx.owner.value;
    && o < |u.threads| && mx.orig == u.threads[o].base && u.threads[o].prio <= mx.orig
    && (forall w | w in mx.waiters :: u.threads[o].prio <= w.prio)
    && (!Indebted(u, m) ==>
          u.threads[o].prio == if mx.waiters == [] then mx.orig else Min(mx.waiters[0].prio, mx.orig))
  }

  lemma InvThread(u: Sys, t: Tid)
    requires Inv(u) && t < |u.threads| && !u.threads[t].role.Owns?
    ensures u.threads[t].prio == u.threads[t].base
  {
    assert ThreadSound(u, t);
  }

  lemma InvInherits(u: Sys, m: Mid)
    requires Inv(u) && NoneAbove(u) && m < |u.mutexes|
    ensures u.mutexes[m].owner.None? <==> u.mutexes[m].count == 0
    ensures u.mutexes[m].owner.None? ==> u.mutexes[m].waiters == []
    ensures u.mutexes[m].owner.Some? ==> Inherits(u, m)
  {
    hide ByPriority;
    assert MutexSound(u, m);
    if u.mutexes[m].owner.Some? {
      forall w | w in u.mutexes[m].waiters ensures u.threads[u.mutexes[m].owner.value].prio <= w.prio && u.ceiling <= w.prio {
        assert ThreadSound(u, w.tid);
      }
      if u.mutexes[m].waiters != [] {
        assert u.mutexes[m].waiters[0] in u.mutexes[m].waiters;
      }
    }
  }

  /** With no priority above the ceiling, after any interleaving of calls on fresh mutexes: a
      mutex without an owner is free of waiters and has no count; an owner is never below
      its own priority or that of any waiter, and exactly at the best of them unless a
      thread that timed out has yet to lower it; everybody else runs with the priority
      that it was given. */
  lemma EveryRunInherits(ceiling: int, bases: seq<int>, count: nat, es: seq<Event>, m: Mid)
    requires IsRun(Fresh(ceiling, bases, count), es) && m < count && forall i | 0 <= i < |bases| :: bases[i] >= ceiling
    ensures
      var u := After(Fresh(ceiling, bases, count), es);
      && |u.mutexes| == count && |u.threads| == |bases|
      && (u.mutexes[m].owner.None? <==> u.mutexes[m].count == 0)
      && (u.mutexes[m].owner.None? ==> u.mutexes[m].waiters == [])
      && (u.mutexes[m].owner.Some? ==> Inherits(u, m))
      && forall t: Tid | t < |bases| && !u.threads[t].role.Owns? :: u.threads[t].prio == bases[t]
  {
    hide Inv, After, IsRun, Inherits;
    var s := Fresh(ceiling, bases, count);
    RunKeeps(s, es);
    var u := After(s, es);
    InvInherits(u, m);
    forall t: Tid | t < |u.threads| && !u.threads[t].role.Owns? ensures u.threads[t].prio == bases[t] {
      InvThread(u, t);
    }
  }

  /** Above the ceiling the promise fails: lowering an owner takes it below the priority it
      was given exactly when that is above the ceiling and somebody still waits. */
  lemma LoweredTooFarIff(s: Sys, t: Tid, m: Mid, o: Tid)
    requires Inv(s) && t < |s.threads| && s.threads[t].role == Expired(m)
    requires m < |s.mutexes| && s.mutexes[m].owner == Some(o)
    ensures o < |s.threads|
    ensures Deboosted(s, t, m).threads[o].prio > s.threads[o].base <==>
            s.mutexes[m].waiters != [] && s.threads[o].base < s.ceiling
  {
    hide ByPriority;
    assert MutexSound(s, m);
  }

  lemma NoMore(s: Sys)
    requires Inv(s)
    ensures IsRun(s, []) && After(s, []) == s
  {
  }

  lemma Onward(s: Sys, e: Event, es: seq<Event>, u: Sys)
    requires Inv(s) && Enabled(s, e) && Next(s, e).0 == u && Inv(u) && IsRun(u, es)
    ensures IsRun(s, [e] + es) && After(s, [e] + es) == After(u, es)
  {
    hide Inv, Next, Enabled;
    assert ([e] + es)[1..] == es;
  }

  lemma PendedOne(w: Waiter)
    ensures Pended([], w, Priority) == [w]
  {
  }

  lemma PendedTwo(v: Waiter, w: Waiter)
    requires v.prio <= w.prio
    ensures Pended([v], w, Priority) == [v, w]
  {
    assert [v][1..] == [];
    PendedOne(w);
  }

  /** A crowd on one mutex: the ceiling is -2, thread 0 was given -5 and owns the mutex, and
      threads 1 and 2 have the roles `first` and `second`. */
  function Crowd(prio: int, first: Role, second: Role, waiters: seq<Waiter>): Sys {
    Sys(-2, [Thread(-5, prio, Owns(0)), Thread(10, 10, first), Thread(12, 12, second)], [Mutex(Some(0), 1, -5, waiters)])
  }

  function Crowding(): seq<Event> { [Locks(0, 0, true), Locks(1, 0, true), Locks(2, 0, true)] }

  lemma CrowdGathers()
    ensures
      var s := Fresh(-2, [-5, 10, 12], 1);
      IsRun(s, Crowding()) && After(s, Crowding()) == Crowd(-5, Waits(0), Waits(0), [Waiter(1, 10), Waiter(2, 12)])
  {
    hide Inv, IsRun, After, Pended;
    var s0, s1 := Fresh(-2, [-5, 10, 12], 1), Crowd(-5, Idle, Idle, []);
    var s2, s3 := Crowd(-5, Waits(0), Idle, [Waiter(1, 10)]), Crowd(-5, Waits(0), Waits(0), [Waiter(1, 10), Waiter(2, 12)]);
    assert s0 == Sys(-2, [Thread(-5, -5, Idle), Thread(10, 10, Idle), Thread(12, 12, Idle)], [Mutex(None, 0, 0, [])]);
    NextKeeps(s0, Locks(0, 0, true));
    assert Next(s0, Locks(0, 0, true)).0 == s1;
    PendedOne(Waiter(1, 10));
    NextKeeps(s1, Locks(1, 0, true));
    assert Next(s1, Locks(1, 0, true)).0 == s2;
    PendedTwo(Waiter(1, 10), Waiter(2, 12));
    NextKeeps(s2, Locks(2, 0, true));
    assert Next(s2, Locks(2, 0, true)).0 == s3;
    NoMore(s3);
    Onward(s2, Locks(2, 0, true), [], s3);
    Onward(s1, Locks(1, 0, true), [Locks(2, 0, true)] + [], s2);
    Onward(s0, Locks(0, 0, true), [Locks(1, 0, true)] + ([Locks(2, 0, true)] + []), s1);
    assert [Locks(0, 0, true)] + ([Locks(1, 0, true)] + ([Locks(2, 0, true)] + [])) == Crowding();
  }

  lemma CrowdLowers()
    ensures
      var s := Crowd(-5, Waits(0), Waits(0), [Waiter(1, 10), Waiter(2, 12)]);
      Inv(s) ==>
        && IsRun(s, [Expires(0, 0), Deboosts(1, 0)])
        && After(s, [Expires(0, 0), Deboosts(1, 0)]) == Crowd(-2, Idle, Waits(0), [Waiter(2, 12)])
  {
    hide Inv, IsRun, After, Pended;
    var ws := [Waiter(1, 10), Waiter(2, 12)];
    var s3, s4 := Crowd(-5, Waits(0), Waits(0), ws), Crowd(-5, Expired(0), Waits(0), [Waiter(2, 12)]);
    var s5 := Crowd(-2, Idle, Waits(0), [Waiter(2, 12)]);
    if Inv(s3) {
      NextKeeps(s3, Expires(0, 0));
      assert ws[..0] + ws[1..] == [Waiter(2, 12)];
      assert Next(s3, Expires(0, 0)).0 == s4;
      NextKeeps(s4, Deboosts(1, 0));
      assert Next(s4, Deboosts(1, 0)).0 == s5;
      NoMore(s5);
      Onward(s4, Deboosts(1, 0), [], s5);
      Onward(s3, Expires(0, 0), [Deboosts(1, 0)] + [], s4);
      assert [Expires(0, 0)] + ([Deboosts(1, 0)] + []) == [Expires(0, 0), Deboosts(1, 0)];
    }
  }

  /** A run can go on where another ended. */
  lemma {:induction false} Joined(s: Sys, es: seq<Event>, fs: seq<Event>)
    requires Inv(s) && IsRun(s, es) && Inv(After(s, es)) && IsRun(After(s, es), fs)
    ensures IsRun(s, es + fs) && After(s, es + fs) == After(After(s, es), fs)
    decreases |es|
  {
    hide Inv, Next, Enabled;
    if es == [] {
      assert es + fs == fs;
    } else {
      NextKeeps(s, es[0]);
      Joined(Next(s, es[0]).0, es[1..], fs);
      assert (es + fs)[0] == es[0] && (es + fs)[1..] == es[1..] + fs;
    }
  }

  /** A run on which an owner is lowered too far: three threads lock the mutex, the first that waits times
      out, and the owner then runs with -2 although it was given -5. */
  lemma CeilingLowersAnOwner()
    ensures
      var s, es := Fresh(-2, [-5, 10, 12], 1), Crowding() + [Expires(0, 0), Deboosts(1, 0)];
      IsRun(s, es) && After(s, es) == Crowd(-2, Idle, Waits(0), [Waiter(2, 12)])
  {
    hide Inv, IsRun, After, Crowd, Crowding;
    CrowdGathers();
    RunKeeps(Fresh(-2, [-5, 10, 12], 1), Crowding());
    CrowdLowers();
    Joined(Fresh(-2, [-5, 10, 12], 1), Crowding(), [Expires(0, 0), Deboosts(1, 0)]);
  }

  /** A boost falls short of a waiter exactly when the waiter is above the
      ceiling and the owner is not yet as high. */
  lemma BoostFallsShortIff(s: Sys, t: Tid, m: Mid, o: Tid)
    requires Inv(s) && MayLock(s, t, m) && s.mutexes[m].owner == Some(o) && o != t
    ensures o < |s.threads|
    ensures Queued(s, t, m, o).threads[o].prio > s.threads[t].prio <==>
            s.threads[t].prio < s.ceiling && s.threads[t].prio < s.threads[o].prio
  {
    hide ByPriority, Pended;
    assert MutexSound(s, m);
    assert ThreadSound(s, o) && ThreadSound(s, t);
  }

  /** A run on which a boost falls short: the ceiling is 0, the owner was given 5, a thread with -1
      waits, and the owner runs with 0 only. */
  lemma CeilingStopsABoost()
    ensures
      var s, es := Fresh(0, [5, -1], 1), [Locks(0, 0, true), Locks(1, 0, true)];
      && IsRun(s, es)
      && After(s, es) == Sys(0, [Thread(5, 0, Owns(0)), Thread(-1, -1, Waits(0))], [Mutex(Some(0), 1, 5, [Waiter(1, -1)])])
  {
    hide Inv, IsRun, After, Pended;
    var e0, e1 := Locks(0, 0, true), Locks(1, 0, true);
    var s0 := Fresh(0, [5, -1], 1);
    var s1 := Sys(0, [Thread(5, 5, Owns(0)), Thread(-1, -1, Idle)], [Mutex(Some(0), 1, 5, [])]);
    var s2 := Sys(0, [Thread(5, 0, Owns(0)), Thread(-1, -1, Waits(0))], [Mutex(Some(0), 1, 5, [Waiter(1, -1)])]);
    assert s0 == Sys(0, [Thread(5, 5, Idle), Thread(-1, -1, Idle)], [Mutex(None, 0, 0, [])]);
    NextKeeps(s0, e0);
    assert Next(s0, e0).0 == s1;
    PendedOne(Waiter(1, -1));
    NextKeeps(s1, e1);
    assert Next(s1, e1).0 == s2;
    NoMore(s2);
    Onward(s1, e1, [], s2);
    Onward(s0, e0, [e1] + [], s1);
    assert [e0] + ([e1] + []) == [e0, e1];
  }

  // ----- kernel/mutex.c -----

  /** The threads and mutexes of a system. */
  class MutexSystem {
    const ceiling: int
    var threads: seq<Thread>
    var mutexes: seq<Mutex>

    ghost function View(): Sys
      reads this
    {
      Sys(ceiling, threads, mutexes)
    }

    ghost predicate Valid()
      reads this
    {
      Inv(View())
    }

    /** k_mutex_init() of every mutex, with threads that use none. */
    constructor (ceiling: int, bases: seq<int>, count: nat)
      ensures Valid() && View() == Fresh(ceiling, bases, count)
    {
      this.ceiling := ceiling;
      threads := seq(|bases|, i requires 0 <= i < |bases| => Thread(bases[i], bases[i], Idle));
      mutexes := seq(count, _ => Mutex(None, 0, 0, []));
    }

    /** adjust_owner_prio(); a thread's priority and its place among the ready ones. */
    method AdjustOwnerPrio(o: Tid, prio: int)
      requires o < |threads|
      modifies `threads
      ensures View() == WithPrio(old(View()), o, prio)
    {
      if threads[o].prio != prio {
        threads := threads[o := threads[o].(prio := prio)];
      }
    }

    /** k_mutex_lock() until it returns or waits. */
    method KMutexLock(t: Tid, m: Mid, canWait: bool) returns (ret: Ret)
      requires Valid() && MayLock(View(), t, m)
      modifies this
      ensures Valid() && (View(), ret) == Lock(old(View()), t, m, canWait)
    {
      hide Inv, ByPriority, Pended;
      NextKeeps(View(), Locks(t, m, canWait));
      MutexIs(View(), m);
      var mx := mutexes[m];
      if mx.count == 0 || mx.owner == Some(t) {
        var orig := if mx.count == 0 then threads[t].prio else mx.orig;
        mutexes := mutexes[m := mx.(owner := Some(t), count := mx.count + 1, orig := orig)];
        threads := threads[t := threads[t].(role := Owns(m))];
        return Locked;
      }
      if !canWait {
        return Busy;
      }
      var o := mx.owner.value;
      var waiter := Waiter(t, threads[t].prio);
      var prio := Inheritance(ceiling, threads[t].prio, threads[o].prio);
      if prio < threads[o].prio {
        AdjustOwnerPrio(o, prio);
      }
      mutexes := mutexes[m := mx.(waiters := Pended(mx.waiters, waiter, Priority))];
      threads := threads[t := threads[t].(role := Waits(m))];
      return Blocks;
    }

    /** The rest of k_mutex_lock() after a timeout. */
    method LockTimedOut(t: Tid, m: Mid) returns (ret: Ret)
      requires Valid() && t < |threads| && threads[t].role == Expired(m)
      modifies this
      ensures Valid() && (View(), ret) == Next(old(View()), Deboosts(t, m))
    {
      hide Inv, ByPriority;
      NextKeeps(View(), Deboosts(t, m));
      DeboostedKeeps(View(), t, m);
      var mx := mutexes[m];
      threads := threads[t := threads[t].(role := Idle)];
      if mx.owner.Some? {
        var prio := if mx.waiters != [] then Inheritance(ceiling, mx.waiters[0].prio, mx.orig) else mx.orig;
        AdjustOwnerPrio(mx.owner.value, prio);
      }
      return TimedOut;
    }

    /** k_mutex_unlock() */
    method KMutexUnlock(t: Tid, m: Mid) returns (ret: Ret)
      requires Valid() && Runs(View(), t) && m < |mutexes|
      modifies this
      ensures Valid() && (View(), ret) == Unlock(old(View()), t, m)
    {
      hide Inv, ByPriority;
      NextKeeps(View(), Unlocks(t, m));
      MutexIs(View(), m);
      var mx := mutexes[m];
      if mx.owner.None? {
        return Invalid;
      }
      if mx.owner != Some(t) {
        return NotOwner;
      }
      if mx.count > 1 {
        mutexes := mutexes[m := mx.(count := mx.count - 1)];
        return Unlocked;
      }
      AdjustOwnerPrio(t, mx.orig);
      threads := threads[t := threads[t].(role := Idle)];
      if mx.waiters == [] {
        mutexes := mutexes[m := mx.(owner := None, count := 0)];
      } else {
        var n := mx.waiters[0].tid;
        mutexes := mutexes[m := mx.(owner := Some(n), orig := threads[n].prio, waiters := mx.waiters[1..])];
        threads := threads[n := threads[n].(role := Owns(m))];
      }
      return Unlocked;
    }
  }
}

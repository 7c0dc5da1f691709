/**
 The kernel timeout queue of kernel/timeout.c: a list in which every timeout
 stores the ticks that separate it from its predecessor, and the announce loop
 that runs expired callbacks, which may themselves add and abort timeouts.

 The list is shown to refine a clock with a stable, sorted sequence of absolute
 expiries, and the announce loop to fire exactly the timeouts that are due.
 */
module Timeout {

  type Id = nat

  /** A linked `struct _timeout`.  `serial` numbers the call that linked it; the
      source has no such field, it is there to speak about insertion order. */
  datatype Node = Node(id: Id, dticks: int, serial: nat)

  /** The same timeout as its owner sees it, with an absolute expiry. */
  datatype Due = Due(id: Id, expiry: int, serial: nat)

  /** What the queue stands for. */
  datatype Clock = Clock(now: int, pending: seq<Due>, serial: nat)

  const FOREVER: int := -1

  /** Z_TICK_ABS: absolute expiries are packed below K_TICKS_FOREVER. */
  function AbsTick(ticks: int): int { FOREVER - 1 - ticks }

  // ----- From relative to absolute ticks -----

  function Total(list: seq<Node>): int {
    if list == [] then 0 else list[0].dticks + Total(list[1..])
  }

  function Absolute(list: seq<Node>, base: int): (due: seq<Due>)
    ensures |due| == |list|
  {
    if list == [] then []
    else
      var at := base + list[0].dticks;
      [Due(list[0].id, at, list[0].serial)] + Absolute(list[1..], at)
  }

  lemma {:induction false} AbsoluteAppend(a: seq<Node>, b: seq<Node>, base: int)
    ensures Total(a + b) == Total(a) + Total(b)
    ensures Absolute(a + b, base) == Absolute(a, base) + Absolute(b, base + Total(a))
  {
    if a == [] {
      assert a + b == b;
    } else {
      assert (a + b)[1..] == a[1..] + b;
      AbsoluteAppend(a[1..], b, base + a[0].dticks);
    }
  }

  lemma {:induction false} AbsoluteAt(list: seq<Node>, base: int, i: nat)
    requires i < |list|
    ensures Absolute(list, base)[i] == Due(list[i].id, base + Total(list[..i + 1]), list[i].serial)
  {
    assert list[..i + 1][1..] == list[1..][..i];
    if i > 0 {
      AbsoluteAt(list[1..], base + list[0].dticks, i - 1);
    }
  }

  /** Splitting a delta at position `i` shows one more expiry and moves none. */
  lemma LinkedAt(list: seq<Node>, base: int, i: nat, n: Node)
    requires i <= |list|
    ensures
      var rest := if i == |list| then [] else [list[i].(dticks := list[i].dticks - n.dticks)] + list[i + 1..];
      Absolute(list[..i] + [n] + rest, base) ==
      Absolute(list, base)[..i] + [Due(n.id, base + Total(list[..i]) + n.dticks, n.serial)] + Absolute(list, base)[i..]
  {
    var rest := if i == |list| then [] else [list[i].(dticks := list[i].dticks - n.dticks)] + list[i + 1..];
    var at := base + Total(list[..i]);
    assert list == list[..i] + list[i..];
    AbsoluteAppend(list[..i], list[i..], base);
    AbsoluteAppend(list[..i], [n] + rest, base);
    assert list[..i] + [n] + rest == list[..i] + ([n] + rest);
    assert ([n] + rest)[1..] == rest;
    if i < |list| {
      assert rest[1..] == list[i..][1..];
    }
  }

  /** Giving a removed node's delta to its successor moves no other expiry. */
  lemma UnlinkedAt(list: seq<Node>, base: int, i: nat)
    requires i < |list|
    ensures
      var rest := if i + 1 == |list| then []
                  else [list[i + 1].(dticks := list[i + 1].dticks + list[i].dticks)] + list[i + 2..];
      Absolute(list[..i] + rest, base) == Absolute(list, base)[..i] + Absolute(list, base)[i + 1..]
  {
    var rest := if i + 1 == |list| then []
                else [list[i + 1].(dticks := list[i + 1].dticks + list[i].dticks)] + list[i + 2..];
    assert list == list[..i] + list[i..];
    AbsoluteAppend(list[..i], list[i..], base);
    AbsoluteAppend(list[..i], rest, base);
    assert list[i..][1..] == list[i + 1..];
    if i + 1 < |list| {
      assert rest[1..] == list[i + 1..][1..];
    }
  }

  // ----- The clock: stable, sorted, absolute -----

  ghost predicate Before(a: Due, b: Due) {
    a.expiry < b.expiry || (a.expiry == b.expiry && a.serial < b.serial)
  }

  ghost predicate Ordered(s: seq<Due>) {
    forall i, j | 0 <= i < j < |s| :: Before(s[i], s[j])
  }

  ghost predicate DistinctIds(s: seq<Due>) {
    forall i, j | 0 <= i < j < |s| :: s[i].id != s[j].id
  }

  ghost predicate Ahead(d: Due, c: Clock) { c.now <= d.expiry && d.serial < c.serial }

  /** Expiries lie ahead, ordered by expiry and then by insertion. */
  ghost predicate WellFormed(c: Clock) {
    && Ordered(c.pending)
    && DistinctIds(c.pending)
    && forall d | d in c.pending :: Ahead(d, c)
  }

  ghost function Ids(s: seq<Due>): set<Id> { set d | d in s :: d.id }

  function Insert(s: seq<Due>, d: Due): seq<Due> {
    if s == [] || s[0].expiry > d.expiry then [d] + s else [s[0]] + Insert(s[1..], d)
  }

  function Remove(s: seq<Due>, id: Id): seq<Due> {
    if s == [] then [] else if s[0].id == id then s[1..] else [s[0]] + Remove(s[1..], id)
  }

  /** The instance of `id` that is linked, as a sequence of at most one. */
  function Instance(s: seq<Due>, id: Id): seq<Due> {
    if s == [] then [] else if s[0].id == id then [s[0]] else Instance(s[1..], id)
  }

  /** Relative timeouts count from now and the tick in progress; absolute ones
      that have passed are due on the next tick. */
  function ExpiryFor(now: int, ticks: int, elapsed: int): int {
    if AbsTick(ticks) >= 0
    then (if AbsTick(ticks) > now then AbsTick(ticks) else now + 1)
    else now + ticks + 1 + elapsed
  }

  function Added(c: Clock, id: Id, ticks: int, elapsed: int): Clock {
    if ticks == FOREVER then c
    else Clock(c.now, Insert(c.pending, Due(id, ExpiryFor(c.now, ticks, elapsed), c.serial)), c.serial + 1)
  }

  function Aborted(c: Clock, id: Id): Clock { c.(pending := Remove(c.pending, id)) }

  lemma {:induction false} InsertSplits(s: seq<Due>, d: Due, i: nat)
    requires i <= |s|
    requires forall k | 0 <= k < i :: s[k].expiry <= d.expiry
    requires i == |s| || s[i].expiry > d.expiry
    ensures Insert(s, d) == s[..i] + [d] + s[i..]
  {
    if i > 0 {
      InsertSplits(s[1..], d, i - 1);
      assert s[..i] == [s[0]] + s[1..][..i - 1];
    }
  }

  /** Every insertion splits an ordered sequence at some position. */
  lemma {:induction false} InsertPosition(s: seq<Due>, d: Due) returns (i: nat)
    requires Ordered(s)
    ensures i <= |s| && Insert(s, d) == s[..i] + [d] + s[i..]
    ensures forall k | 0 <= k < i :: s[k].expiry <= d.expiry
    ensures forall k | i <= k < |s| :: s[k].expiry > d.expiry
  {
    if s == [] || s[0].expiry > d.expiry {
      i := 0;
    } else {
      i := InsertPosition(s[1..], d);
      assert s[..i + 1] == [s[0]] + s[1..][..i];
      i := i + 1;
    }
  }

  lemma {:induction false} RemovePosition(s: seq<Due>, id: Id) returns (i: nat)
    ensures i <= |s|
    ensures i < |s| ==> s[i].id == id && Remove(s, id) == s[..i] + s[i + 1..] && Instance(s, id) == [s[i]]
    ensures i == |s| ==> id !in Ids(s) && Remove(s, id) == s && Instance(s, id) == []
  {
    if s == [] {
      i := 0;
    } else if s[0].id == id {
      i := 0;
    } else {
      i := RemovePosition(s[1..], id);
      if i < |s[1..]| {
        assert s[..i + 1] == [s[0]] + s[1..][..i];
      } else {
        assert s == [s[0]] + s[1..];
      }
      i := i + 1;
    }
  }

  lemma RemoveMiddle(s: seq<Due>, i: nat)
    requires i < |s| && DistinctIds(s)
    ensures Remove(s, s[i].id) == s[..i] + s[i + 1..]
  {
    var k := RemovePosition(s, s[i].id);
  }

  lemma SpliceOrdered(s: seq<Due>, i: nat, d: Due)
    requires i <= |s| && Ordered(s)
    requires forall k | 0 <= k < i :: Before(s[k], d)
    requires forall k | i <= k < |s| :: Before(d, s[k])
    ensures Ordered(s[..i] + [d] + s[i..])
  {
  }

  lemma SpliceElements(s: seq<Due>, i: nat, d: Due)
    requires i <= |s|
    ensures multiset(s[..i] + [d] + s[i..]) == multiset(s) + multiset{d}
    ensures forall x :: x in s[..i] + [d] + s[i..] <==> x in s || x == d
  {
    assert s == s[..i] + s[i..];
  }

  lemma SpliceDistinct(s: seq<Due>, i: nat, d: Due)
    requires i <= |s| && DistinctIds(s) && d.id !in Ids(s)
    ensures DistinctIds(s[..i] + [d] + s[i..])
  {
    assert forall k | 0 <= k < |s| :: s[k] in s && s[k].id != d.id;
  }

  lemma CutElements(s: seq<Due>, i: nat)
    requires i < |s|
    ensures multiset(s) == multiset(s[..i] + s[i + 1..]) + multiset{s[i]}
    ensures forall x | x in s[..i] + s[i + 1..] :: x in s
    ensures forall x | x in s && x != s[i] :: x in s[..i] + s[i + 1..]
  {
    assert s == s[..i] + [s[i]] + s[i + 1..];
  }

  lemma CutOrdered(s: seq<Due>, i: nat)
    requires i < |s| && Ordered(s) && DistinctIds(s)
    ensures Ordered(s[..i] + s[i + 1..]) && DistinctIds(s[..i] + s[i + 1..])
    ensures forall x | x in s[..i] + s[i + 1..] :: x.id != s[i].id
  {
    var t := s[..i] + s[i + 1..];
    assert forall k | 0 <= k < |t| :: t[k] == s[if k < i then k else k + 1];
  }

  lemma CutIds(s: seq<Due>, i: nat)
    requires i < |s| && Ordered(s) && DistinctIds(s)
    ensures Ids(s[..i] + s[i + 1..]) == Ids(s) - {s[i].id}
  {
    CutElements(s, i);
    CutOrdered(s, i);
  }

  /** Adding one timeout gives it the promised expiry and no other a new one. */
  lemma AddedKeeps(c: Clock, id: Id, ticks: int, elapsed: nat)
    requires WellFormed(c) && id !in Ids(c.pending) && ticks != FOREVER
    ensures WellFormed(Added(c, id, ticks, elapsed))
    ensures
      var d, t := Due(id, ExpiryFor(c.now, ticks, elapsed), c.serial), Added(c, id, ticks, elapsed).pending;
      && d.expiry > c.now
      && multiset(t) == multiset(c.pending) + multiset{d}
      && (forall x :: x in t <==> x in c.pending || x == d)
      && Ids(t) == Ids(c.pending) + {id}
  {
    var d := Due(id, ExpiryFor(c.now, ticks, elapsed), c.serial);
    var s := c.pending;
    var i := InsertPosition(s, d);
    SpliceOrdered(s, i, d);
    SpliceElements(s, i, d);
    SpliceDistinct(s, i, d);
    var t := s[..i] + [d] + s[i..];
    assert Ids(t) == Ids(s) + {id} by {
      assert forall x | x in s :: x in t;
      assert d in t;
    }
    forall x | x in t ensures Ahead(x, Added(c, id, ticks, elapsed)) {
      assert x in s ==> Ahead(x, c);
    }
  }

  /** Aborting one timeout removes it and leaves every other as it was. */
  lemma AbortedKeeps(c: Clock, id: Id)
    requires WellFormed(c)
    ensures WellFormed(Aborted(c, id))
    ensures multiset(c.pending) == multiset(Aborted(c, id).pending) + multiset(Instance(c.pending, id))
    ensures forall x | x in Aborted(c, id).pending :: x in c.pending
    ensures Ids(Aborted(c, id).pending) == Ids(c.pending) - {id}
  {
    var s := c.pending;
    var i := RemovePosition(s, id);
    if i < |s| {
      CutElements(s, i);
      CutOrdered(s, i);
      CutIds(s, i);
      forall x | x in s[..i] + s[i + 1..] ensures Ahead(x, Aborted(c, id)) { assert Ahead(x, c); }
      assert multiset([s[i]]) == multiset{s[i]};
    }
  }

  // ----- Callbacks -----

  /** What a timeout callback may do to the queue. */
  datatype Op = Add(id: Id, ticks: int, hwElapsed: nat) | Abort(id: Id)

  /** A callback, as a function of the instance that fired and what it sees. */
  type Callback = (Due, Clock) -> seq<Op>

  /** z_add_timeout() asserts that the timeout is not linked. */
  ghost predicate Allowed(linked: set<Id>, ops: seq<Op>)
    decreases |ops|
  {
    ops == [] ||
    match ops[0]
    case Add(id, ticks, _) =>
      if ticks == FOREVER then Allowed(linked, ops[1..])
      else id !in linked && Allowed(linked + {id}, ops[1..])
    case Abort(id) => Allowed(linked - {id}, ops[1..])
  }

  ghost predicate Compliant(cb: Callback) {
    forall d, c | WellFormed(c) :: Allowed(Ids(c.pending), cb(d, c))
  }

  datatype Effect = Effect(clock: Clock, added: seq<Due>, aborted: seq<Due>)

  /** `idle` says that announce_remaining is zero, when elapsed() asks the hardware. */
  function Applied(c: Clock, op: Op, idle: bool): Effect {
    match op
    case Add(id, ticks, hw) =>
      var elapsed := if idle then hw else 0;
      Effect(Added(c, id, ticks, elapsed),
             if ticks == FOREVER then [] else [Due(id, ExpiryFor(c.now, ticks, elapsed), c.serial)],
             [])
    case Abort(id) => Effect(Aborted(c, id), [], Instance(c.pending, id))
  }

  function AllApplied(c: Clock, ops: seq<Op>, idle: bool): Effect
    decreases |ops|
  {
    if ops == [] then Effect(c, [], [])
    else
      var e := Applied(c, ops[0], idle);
      var f := AllApplied(e.clock, ops[1..], idle);
      Effect(f.clock, e.added + f.added, e.aborted + f.aborted)
  }

  /** How many pending timeouts expire on this very tick. */
  ghost function Ties(s: seq<Due>, now: int): nat {
    if s == [] || s[0].expiry != now then 0 else 1 + Ties(s[1..], now)
  }

  lemma {:induction false} InsertTies(s: seq<Due>, d: Due, now: int)
    requires d.expiry > now
    ensures Ties(Insert(s, d), now) == Ties(s, now)
  {
    if s != [] && s[0].expiry <= d.expiry {
      InsertTies(s[1..], d, now);
    }
  }

  lemma {:induction false} RemoveTies(s: seq<Due>, id: Id, now: int)
    requires Ordered(s) && forall d | d in s :: now <= d.expiry
    ensures Ties(Remove(s, id), now) <= Ties(s, now)
  {
    if s != [] {
      if s[0].id == id {
        assert s[0] in s;
        assert s[0].expiry != now && |s| > 1 ==> Before(s[0], s[1]);
      } else {
        RemoveTies(s[1..], id, now);
      }
    }
  }

  /** Whatever is in `s` was pending on `c` or expires after its present tick. */
  ghost predicate OnlyLater(s: seq<Due>, c: Clock) {
    forall d | d in s :: d in c.pending || c.now < d.expiry
  }

  /** What any number of additions and aborts keep. */
  ghost predicate Kept(c: Clock, e: Effect) {
    && WellFormed(e.clock) && e.clock.now == c.now
    && Ties(e.clock.pending, c.now) <= Ties(c.pending, c.now)
    && OnlyLater(e.clock.pending, c)
    && multiset(c.pending) + multiset(e.added) == multiset(e.clock.pending) + multiset(e.aborted)
  }

  lemma KeptIs(c: Clock, e: Effect)
    requires Kept(c, e)
    ensures WellFormed(e.clock)
  {
  }

  lemma BalanceThen(p: multiset<Due>, q: multiset<Due>, r: multiset<Due>,
                    in1: multiset<Due>, out1: multiset<Due>, in2: multiset<Due>, out2: multiset<Due>)
    requires p + in1 == q + out1 && q + in2 == r + out2
    ensures p + (in1 + in2) == r + (out1 + out2)
  {
    forall x ensures (p + (in1 + in2))[x] == (r + (out1 + out2))[x] {
      assert (p + in1)[x] == (q + out1)[x] && (q + in2)[x] == (r + out2)[x];
    }
  }

  lemma KeptThen(c: Clock, e: Effect, f: Effect)
    requires Kept(c, e) && Kept(e.clock, f)
    ensures Kept(c, Effect(f.clock, e.added + f.added, e.aborted + f.aborted))
  {
    BalanceThen(multiset(c.pending), multiset(e.clock.pending), multiset(f.clock.pending),
                multiset(e.added), multiset(e.aborted), multiset(f.added), multiset(f.aborted));
  }

  lemma AppliedKeeps(c: Clock, op: Op, idle: bool)
    requires WellFormed(c) && Allowed(Ids(c.pending), [op])
    ensures Kept(c, Applied(c, op, idle))
    ensures Ids(Applied(c, op, idle).clock.pending) ==
      (match op
       case Add(id, ticks, _) => if ticks == FOREVER then Ids(c.pending) else Ids(c.pending) + {id}
       case Abort(id) => Ids(c.pending) - {id})
  {
    match op
    case Add(id, ticks, hw) =>
      if ticks != FOREVER {
        var elapsed := if idle then hw else 0;
        AddedKeeps(c, id, ticks, elapsed);
        InsertTies(c.pending, Due(id, ExpiryFor(c.now, ticks, elapsed), c.serial), c.now);
      }
    case Abort(id) =>
      AbortedKeeps(c, id);
      RemoveTies(c.pending, id, c.now);
  }

  lemma {:induction false} AllAppliedKeeps(c: Clock, ops: seq<Op>, idle: bool)
    requires WellFormed(c) && Allowed(Ids(c.pending), ops)
    ensures Kept(c, AllApplied(c, ops, idle))
    decreases |ops|
  {
    if ops != [] {
      var e := Applied(c, ops[0], idle);
      AppliedKeeps(c, ops[0], idle);
      AllAppliedKeeps(e.clock, ops[1..], idle);
      KeptThen(c, e, AllApplied(e.clock, ops[1..], idle));
    }
  }

  /** The last word that a callback has on a timeout: whether it leaves it pending. */
  ghost predicate LeavesPending(was: bool, ops: seq<Op>, id: Id)
    decreases |ops|
  {
    if ops == [] then was
    else
      match ops[|ops| - 1]
      case Add(x, ticks, _) => (x == id && ticks != FOREVER) || LeavesPending(was, ops[..|ops| - 1], id)
      case Abort(x) => x != id && LeavesPending(was, ops[..|ops| - 1], id)
  }

  lemma {:induction false} LeavesPendingThen(was: bool, op: Op, ops: seq<Op>, id: Id)
    ensures LeavesPending(was, [op] + ops, id) <==> LeavesPending(LeavesPending(was, [op], id), ops, id)
    decreases |ops|
  {
    if ops == [] {
      assert [op] + ops == [op];
    } else {
      var n := |ops| - 1;
      LeavesPendingThen(was, op, ops[..n], id);
      assert ([op] + ops)[..n + 1] == [op] + ops[..n];
    }
  }

  /** Of whatever a callback does, its last word on a timeout counts. */
  lemma {:induction false} LastWordCounts(c: Clock, ops: seq<Op>, idle: bool, id: Id)
    requires WellFormed(c) && Allowed(Ids(c.pending), ops)
    ensures id in Ids(AllApplied(c, ops, idle).clock.pending) <==> LeavesPending(id in Ids(c.pending), ops, id)
    decreases |ops|
  {
    hide WellFormed, Kept, Ids, Applied;
    if ops != [] {
      AppliedKeeps(c, ops[0], idle);
      KeptIs(c, Applied(c, ops[0], idle));
      LastWordCounts(Applied(c, ops[0], idle).clock, ops[1..], idle, id);
      LeavesPendingThen(id in Ids(c.pending), ops[0], ops[1..], id);
      assert [ops[0]] + ops[1..] == ops;
      assert LeavesPending(id in Ids(c.pending), [ops[0]], id) <==> id in Ids(Applied(c, ops[0], idle).clock.pending) by {
        assert [ops[0]][..0] == [];
      }
    }
  }

  // ----- Announcing ticks -----

  datatype Outcome = Outcome(clock: Clock, fired: seq<Due>, added: seq<Due>, aborted: seq<Due>)

  /** The clock on which the callback of the first pending timeout runs. */
  function FiredFirst(c: Clock): Clock
    requires c.pending != []
  {
    c.(now := c.pending[0].expiry, pending := c.pending[1..])
  }

  lemma FiredFirstKeeps(c: Clock)
    requires WellFormed(c) && c.pending != []
    ensures WellFormed(FiredFirst(c))
  {
    var s := c.pending;
    forall d | d in s[1..] ensures Ahead(d, FiredFirst(c)) {
      var i :| 0 <= i < |s[1..]| && s[1..][i] == d;
      assert Before(s[0], s[i + 1]) && Ahead(s[i + 1], c);
    }
  }

  lemma StepDecreases(c: Clock, end: int, cb: Callback)
    requires WellFormed(c) && Compliant(cb)
    requires c.pending != [] && c.pending[0].expiry <= end
    ensures
      var f := FiredFirst(c);
      var e := AllApplied(f, cb(c.pending[0], f), c.now == end);
      && WellFormed(f) && Kept(f, e)
      && c.now <= f.now <= end
      && (f.now == c.now ==> Ties(e.clock.pending, c.now) < Ties(c.pending, c.now))
  {
    assert Ahead(c.pending[0], c);
    FiredFirstKeeps(c);
    var f := FiredFirst(c);
    AllAppliedKeeps(f, cb(c.pending[0], f), c.now == end);
  }

  /** Time runs to `end`, stopping at every expiry on the way. */
  ghost function Announced(c: Clock, end: int, cb: Callback): Outcome
    requires WellFormed(c) && Compliant(cb) && c.now <= end
    decreases end - c.now, Ties(c.pending, c.now)
  {
    if c.pending == [] || c.pending[0].expiry > end then Outcome(c.(now := end), [], [], [])
    else
      StepDecreases(c, end, cb);
      var d, f := c.pending[0], FiredFirst(c);
      var e := AllApplied(f, cb(d, f), c.now == end);
      var o := Announced(e.clock, end, cb);
      Outcome(o.clock, [d] + o.fired, e.added + o.added, e.aborted + o.aborted)
  }

  ghost predicate FiresExactlyTheDue(c: Clock, end: int, o: Outcome) {
    && WellFormed(o.clock) && o.clock.now == end
    && Ordered(o.fired)
    && (forall d | d in o.fired :: c.now <= d.expiry <= end)
    && OnlyLater(o.fired, c)
    && (forall d | d in o.clock.pending :: end < d.expiry)
    && multiset(c.pending) + multiset(o.added)
       == multiset(o.fired) + multiset(o.aborted) + multiset(o.clock.pending)
  }

  lemma FirstBefore(c: Clock, x: Due)
    requires WellFormed(c) && c.pending != []
    requires x in c.pending[1..] || c.pending[0].expiry < x.expiry
    ensures Before(c.pending[0], x)
    ensures x in c.pending || c.now < x.expiry
  {
    assert Ahead(c.pending[0], c);
    if x in c.pending[1..] {
      var i :| 0 <= i < |c.pending[1..]| && c.pending[1..][i] == x;
      assert c.pending[i + 1] == x;
    }
  }

  lemma OrderedCons(d: Due, s: seq<Due>)
    requires Ordered(s) && forall x | x in s :: Before(d, x)
    ensures Ordered([d] + s)
  {
  }

  lemma BalanceFirst(d: Due, p: multiset<Due>, q: multiset<Due>, r: multiset<Due>, in1: multiset<Due>,
                     out1: multiset<Due>, in2: multiset<Due>, fired: multiset<Due>, out2: multiset<Due>)
    requires p + in1 == q + out1 && q + in2 == fired + out2 + r
    ensures multiset{d} + p + (in1 + in2) == multiset{d} + fired + (out1 + out2) + r
  {
    forall x ensures (multiset{d} + p + (in1 + in2))[x] == (multiset{d} + fired + (out1 + out2) + r)[x] {
      assert (p + in1)[x] == (q + out1)[x] && (q + in2)[x] == (fired + out2 + r)[x];
    }
  }

  lemma FirstThenRest(c: Clock, end: int, e: Effect, o: Outcome)
    requires WellFormed(c) && c.pending != [] && c.pending[0].expiry <= end
    requires Kept(FiredFirst(c), e) && FiresExactlyTheDue(e.clock, end, o)
    ensures FiresExactlyTheDue(c, end,
              Outcome(o.clock, [c.pending[0]] + o.fired, e.added + o.added, e.aborted + o.aborted))
  {
    var d, f := c.pending[0], FiredFirst(c);
    assert Ahead(d, c);
    forall x | x in o.fired ensures Before(d, x) && (x in c.pending || c.now < x.expiry) {
      FirstBefore(c, x);
    }
    OrderedCons(d, o.fired);
    assert c.pending == [d] + f.pending;
    BalanceFirst(d, multiset(f.pending), multiset(e.clock.pending), multiset(o.clock.pending), multiset(e.added),
                 multiset(e.aborted), multiset(o.added), multiset(o.fired), multiset(o.aborted));
  }

  /**
   Announcing up to `end` fires instances in the order of their expiry, and of
   their insertion where expiries tie; none of them twice, and only due ones.
   Whatever was pending or was added on the way has then been fired, has been
   aborted, or lies beyond `end`.
   */
  lemma {:induction false} AnnounceFiresExactlyTheDue(c: Clock, end: int, cb: Callback)
    requires WellFormed(c) && Compliant(cb) && c.now <= end
    ensures FiresExactlyTheDue(c, end, Announced(c, end, cb))
    decreases end - c.now, Ties(c.pending, c.now)
  {
    if c.pending == [] || c.pending[0].expiry > end {
      forall d | d in c.pending ensures end < d.expiry {
        var i :| 0 <= i < |c.pending| && c.pending[i] == d;
        assert i > 0 ==> Before(c.pending[0], c.pending[i]);
      }
    } else {
      StepDecreases(c, end, cb);
      var f := FiredFirst(c);
      var e := AllApplied(f, cb(c.pending[0], f), c.now == end);
      AnnounceFiresExactlyTheDue(e.clock, end, cb);
      FirstThenRest(c, end, e, Announced(e.clock, end, cb));
    }
  }

  /** The tick on which a timeout fires: a relative one a full tick after its ticks have passed from
      the tick in progress on, an absolute one on its tick if that lies ahead, else on the next. */
  function Promised(now: int, ticks: int, elapsed: nat): int {
    if ticks >= 0 then now + elapsed + ticks + 1
    else if -2 - ticks > now then -2 - ticks
    else now + 1
  }

  /** A timeout that is added and not aborted fires on the tick that was promised: announcing up
      to an earlier tick does not fire it, and announcing up to that or a later one does. */
  lemma FiresAsPromised(c: Clock, id: Id, ticks: int, elapsed: nat, end: int, cb: Callback)
    requires WellFormed(c) && id !in Ids(c.pending) && ticks != FOREVER && Compliant(cb) && c.now <= end
    ensures
      var d, t := Due(id, Promised(c.now, ticks, elapsed), c.serial), Added(c, id, ticks, elapsed);
      && t.now == c.now && WellFormed(t) && d in t.pending && (forall x | x in t.pending && x.id == id :: x == d)
      && var o := Announced(t, end, cb);
         d !in o.aborted ==> (d in o.fired <==> d.expiry <= end)
  {
    AddedKeeps(c, id, ticks, elapsed);
    var d, t := Due(id, Promised(c.now, ticks, elapsed), c.serial), Added(c, id, ticks, elapsed);
    forall x | x in c.pending ensures x.id != id { assert x.id in Ids(c.pending); }
    AnnounceFiresExactlyTheDue(t, end, cb);
    var o := Announced(t, end, cb);
    assert d in multiset(t.pending);
    assert d in multiset(t.pending) + multiset(o.added);
    assert d in multiset(o.fired) + multiset(o.aborted) + multiset(o.clock.pending);
  }

  /** One that waits forever is not added at all. */
  lemma ForeverNeverFires(c: Clock, id: Id, elapsed: nat)
    ensures Added(c, id, FOREVER, elapsed) == c
  {
  }

  // ----- The queue itself -----

  /** Taking `passed` ticks from the first delta as the tick count advances by
      them moves no expiry. */
  lemma FirstMoved(list: seq<Node>, base: int, passed: int)
    ensures
      var moved := if list == [] then [] else list[0 := list[0].(dticks := list[0].dticks - passed)];
      Absolute(moved, base + passed) == Absolute(list, base)
  {
    if list != [] {
      assert list[0 := list[0].(dticks := list[0].dticks - passed)][1..] == list[1..];
    }
  }

  /** Linking at the right slot adds to the clock what was asked for. */
  lemma LinkRefines(list: seq<Node>, now: int, adds: nat, i: nat, rest: int, id: Id, ticks: int, elapsed: nat)
    requires WellFormed(Clock(now, Absolute(list, now), adds))
    requires ticks != FOREVER && id !in Ids(Absolute(list, now))
    requires i <= |list| && now + Total(list[..i]) + rest == ExpiryFor(now, ticks, elapsed)
    requires forall k | 0 <= k < i :: Absolute(list, now)[k].expiry <= ExpiryFor(now, ticks, elapsed)
    requires i < |list| ==> Absolute(list, now)[i].expiry > ExpiryFor(now, ticks, elapsed)
    ensures
      var c := Clock(now, Absolute(list, now), adds);
      var tail := if i == |list| then [] else [list[i].(dticks := list[i].dticks - rest)] + list[i + 1..];
      && WellFormed(Added(c, id, ticks, elapsed))
      && Clock(now, Absolute(list[..i] + [Node(id, rest, adds)] + tail, now), adds + 1) == Added(c, id, ticks, elapsed)
  {
    hide WellFormed, Absolute, Total, Insert, Ids, ExpiryFor;
    var c := Clock(now, Absolute(list, now), adds);
    AddedKeeps(c, id, ticks, elapsed);
    LinkedAt(list, now, i, Node(id, rest, adds));
    InsertSplits(c.pending, Due(id, ExpiryFor(now, ticks, elapsed), adds), i);
  }

  /** A callback invocation: which timeout, and curr_tick when it ran. */
  datatype Firing = Firing(id: Id, tick: int)

  lemma FirstDue(list: seq<Node>, base: int)
    ensures list == [] <==> Absolute(list, base) == []
    ensures list != [] ==>
      Absolute(list, base)[0] == Due(list[0].id, base + list[0].dticks, list[0].serial)
  {
  }

  /** `log` records the first firings of `whole`, and `o` is what is to come. */
  ghost predicate Remains(whole: Outcome, log: seq<Firing>, o: Outcome) {
    && o.clock == whole.clock
    && |log| <= |whole.fired| && whole.fired[|log|..] == o.fired
    && forall i | 0 <= i < |log| :: log[i] == Firing(whole.fired[i].id, whole.fired[i].expiry)
  }

  lemma NothingFired(whole: Outcome)
    ensures Remains(whole, [], whole)
  {
  }

  lemma FiredMore(whole: Outcome, log: seq<Firing>, o: Outcome)
    requires Remains(whole, log, o) && o.fired != []
    ensures forall p: Outcome | p.clock == o.clock && p.fired == o.fired[1..] ::
              Remains(whole, log + [Firing(o.fired[0].id, o.fired[0].expiry)], p)
  {
    assert whole.fired[|log|..][0] == whole.fired[|log|];
    assert whole.fired[|log|..][1..] == whole.fired[|log| + 1..];
  }

  lemma AnnouncedStep(c: Clock, end: int, cb: Callback)
    requires WellFormed(c) && Compliant(cb)
    requires c.pending != [] && c.now <= end && c.pending[0].expiry <= end
    ensures
      var d, f := c.pending[0], FiredFirst(c);
      var e := AllApplied(f, cb(d, f), c.now == end).clock;
      && WellFormed(e) && c.now <= e.now <= end
      && (e.now == c.now ==> Ties(e.pending, c.now) < Ties(c.pending, c.now))
      && Announced(c, end, cb).fired != [] && Announced(c, end, cb).fired[0] == d
      && Announced(c, end, cb).fired[1..] == Announced(e, end, cb).fired
      && Announced(c, end, cb).clock == Announced(e, end, cb).clock
  {
    StepDecreases(c, end, cb);
  }

  lemma AnnouncedDone(c: Clock, end: int, cb: Callback, whole: Outcome, log: seq<Firing>)
    requires WellFormed(c) && Compliant(cb) && c.now <= end
    requires c.pending == [] || c.pending[0].expiry > end
    requires Remains(whole, log, Announced(c, end, cb))
    ensures whole.clock == c.(now := end) && |log| == |whole.fired|
    ensures forall i | 0 <= i < |log| :: log[i] == Firing(whole.fired[i].id, whole.fired[i].expiry)
  {
  }

  lemma DueFiringIsWellFormed(c: Clock, end: int, o: Outcome)
    requires FiresExactlyTheDue(c, end, o)
    ensures WellFormed(o.clock)
  {
  }

  class TimeoutQueue {
    var list: seq<Node>          // timeout_list
    var currTick: int            // curr_tick
    var announceRemaining: int   // announce_remaining
    var adds: nat                // calls that linked a timeout so far

    function View(): Clock
      reads this
    {
      Clock(currTick, Absolute(list, currTick), adds)
    }

    ghost predicate Valid()
      reads this
    {
      announceRemaining >= 0 && WellFormed(View())
    }

    constructor ()
      ensures Valid() && View() == Clock(0, [], 0) && announceRemaining == 0
    {
      list, currTick, announceRemaining, adds := [], 0, 0, 0;
    }

    /** Where `id` is linked, or the length of the list when it is not. */
    method Position(id: Id) returns (i: nat)
      ensures i <= |list| && (i < |list| ==> View().pending[i].id == id)
      ensures forall k | 0 <= k < i :: View().pending[k].id != id
    {
      i := 0;
      while i < |list| && list[i].id != id
        invariant i <= |list|
        invariant forall k | 0 <= k < i :: View().pending[k].id != id
      {
        AbsoluteAt(list, currTick, i);
        i := i + 1;
      }
      if i < |list| {
        AbsoluteAt(list, currTick, i);
      }
    }

    /** remove_timeout() on the node at position `i`. */
    method RemoveTimeout(i: nat)
      requires i < |list|
      modifies this`list
      ensures View() == old(View()).(pending := old(View()).pending[..i] + old(View()).pending[i + 1..])
    {
      UnlinkedAt(list, currTick, i);
      if i + 1 < |list| {
        list := list[i + 1 := list[i + 1].(dticks := list[i + 1].dticks + list[i].dticks)];
        assert list[i + 1..] == [list[i + 1]] + old(list)[i + 2..];
      }
      list := list[..i] + list[i + 1..];
    }

    lemma TotalStep(i: nat)
      requires i < |list|
      ensures Total(list[..i + 1]) == Total(list[..i]) + list[i].dticks
      ensures View().pending[i] == Due(list[i].id, currTick + Total(list[..i + 1]), list[i].serial)
    {
      AbsoluteAt(list, currTick, i);
      AbsoluteAppend(list[..i], [list[i]], 0);
      assert list[..i + 1] == list[..i] + [list[i]];
    }

    /** The walk of z_add_timeout(): where a timeout due in `dticks` is linked, and
        the ticks left to it from its predecessor there. */
    method Slot(dticks: int) returns (i: nat, rest: int)
      ensures i <= |list| && Total(list[..i]) + rest == dticks
      ensures forall k | 0 <= k < i :: Absolute(list, currTick)[k].expiry <= currTick + dticks
      ensures i < |list| ==> Absolute(list, currTick)[i].expiry > currTick + dticks
    {
      i, rest := 0, dticks;
      while i < |list| && list[i].dticks <= rest
        invariant i <= |list| && Total(list[..i]) + rest == dticks
        invariant forall k | 0 <= k < i :: Absolute(list, currTick)[k].expiry <= currTick + dticks
      {
        TotalStep(i);
        rest := rest - list[i].dticks;
        i := i + 1;
      }
      if i < |list| {
        TotalStep(i);
      }
    }

    /** z_add_timeout(); `hwElapsed` is what sys_clock_elapsed() would return. */
    method AddTimeout(id: Id, ticks: int, hwElapsed: nat)
      requires Valid() && (ticks != FOREVER ==> id !in Ids(View().pending))
      modifies this`list, this`adds
      ensures Valid()
      ensures View() == Added(old(View()), id, ticks, if announceRemaining == 0 then hwElapsed else 0)
    {
      hide WellFormed, Absolute, Total, Ids;
      if ticks == FOREVER {
        return;
      }
      var elapsed := if announceRemaining == 0 then hwElapsed else 0;
      var dticks;
      if AbsTick(ticks) >= 0 {
        dticks := if AbsTick(ticks) - currTick > 1 then AbsTick(ticks) - currTick else 1;
      } else {
        dticks := ticks + 1 + elapsed;
      }
      assert currTick + dticks == ExpiryFor(currTick, ticks, elapsed);
      var i, rest := Slot(dticks);
      LinkRefines(list, currTick, adds, i, rest, id, ticks, elapsed);
      if i < |list| {
        list := list[..i] + [Node(id, rest, adds)] + ([list[i].(dticks := list[i].dticks - rest)] + list[i + 1..]);
      } else {
        assert list + [Node(id, rest, adds)] == list[..i] + [Node(id, rest, adds)] + [];
        list := list + [Node(id, rest, adds)];
      }
      adds := adds + 1;
    }

    /** z_abort_timeout(): 0 is returned just when the timeout was linked. */
    method AbortTimeout(id: Id) returns (linked: bool)
      requires Valid()
      modifies this`list
      ensures Valid()
      ensures linked == (id in Ids(old(View()).pending))
      ensures View() == Aborted(old(View()), id)
    {
      ghost var before := View();
      AbortedKeeps(before, id);
      var i := Position(id);
      linked := i < |list|;
      if linked {
        assert before.pending[i] in before.pending;
        RemoveMiddle(before.pending, i);
        RemoveTimeout(i);
      } else {
        ghost var at := RemovePosition(before.pending, id);
      }
    }

    /** timeout_rem(): the ticks up to and including `id`, or all of them. */
    method TimeoutRem(id: Id) returns (ticks: int)
      requires Valid()
      ensures forall d | d in View().pending && d.id == id :: ticks == d.expiry - currTick
    {
      ticks := 0;
      var i := 0;
      while i < |list|
        invariant 0 <= i <= |list|
        invariant ticks == Total(list[..i])
        invariant forall k | 0 <= k < i :: View().pending[k].id != id
      {
        TotalStep(i);
        ticks := ticks + list[i].dticks;
        if list[i].id == id {
          return;
        }
        i := i + 1;
      }
    }

    /** z_timeout_expires(): the absolute expiry, or the present tick. */
    method TimeoutExpires(id: Id) returns (tick: int)
      requires Valid()
      ensures forall d | d in View().pending && d.id == id :: tick == d.expiry
      ensures id !in Ids(View().pending) ==> tick == currTick
    {
      tick := currTick;
      var i := Position(id);
      if i < |list| {
        assert View().pending[i] in View().pending;
        var rem := TimeoutRem(id);
        tick := tick + rem;
      }
    }

    /** The body of one callback: any allowed sequence of additions and aborts. */
    method RunCallback(ops: seq<Op>)
      requires Valid() && Allowed(Ids(View().pending), ops)
      modifies this`list, this`adds
      ensures Valid()
      ensures View() == AllApplied(old(View()), ops, announceRemaining == 0).clock
    {
      hide WellFormed, Absolute, Ids, Added, Aborted, Kept;
      ghost var idle := announceRemaining == 0;
      var i := 0;
      while i < |ops|
        invariant 0 <= i <= |ops|
        invariant Valid() && Allowed(Ids(View().pending), ops[i..])
        invariant AllApplied(old(View()), ops, idle).clock == AllApplied(View(), ops[i..], idle).clock
        invariant announceRemaining == old(announceRemaining) && currTick == old(currTick)
        decreases |ops| - i
      {
        assert ops[i..][0] == ops[i] && ops[i..][1..] == ops[i + 1..];
        AppliedKeeps(View(), ops[i], idle);
        match ops[i] {
          case Add(id, ticks, hwElapsed) => AddTimeout(id, ticks, hwElapsed);
          case Abort(id) => var _ := AbortTimeout(id);
        }
        i := i + 1;
      }
    }

    /** The locked part of one round of the announce loop. */
    method UnlinkFirst()
      requires Valid() && list != []
      modifies this`list, this`currTick
      ensures Valid() && View() == FiredFirst(old(View()))
      ensures currTick == old(View().pending[0].expiry) == old(currTick + list[0].dticks)
    {
      FiredFirstKeeps(View());
      currTick := currTick + list[0].dticks;
      list := list[0 := list[0].(dticks := 0)];
      assert list[1..] == old(list)[1..];
      RemoveTimeout(0);
    }

    /** One round of the announce loop: unlink the first timeout, run its callback. */
    method FireFirst(ghost end: int, cb: Callback) returns (firing: Firing)
      requires Valid() && Compliant(cb)
      requires list != [] && list[0].dticks <= announceRemaining == end - currTick
      modifies this
      ensures Valid() && announceRemaining == end - currTick
      ensures
        var c := old(View());
        && firing == Firing(c.pending[0].id, c.pending[0].expiry)
        && View() == AllApplied(FiredFirst(c), cb(c.pending[0], FiredFirst(c)), c.now == end).clock
    {
      StepDecreases(View(), end, cb);
      var due := View().pending[0];
      var dt := list[0].dticks;
      UnlinkFirst();
      firing := Firing(due.id, currTick);
      RunCallback(cb(due, View()));
      announceRemaining := announceRemaining - dt;
    }

    /** sys_clock_announce() on a uniprocessor. */
    method SysClockAnnounce(ticks: nat, cb: Callback) returns (log: seq<Firing>)
      requires Valid() && announceRemaining == 0 && Compliant(cb)
      modifies this
      ensures Valid() && announceRemaining == 0
      ensures
        var o := Announced(old(View()), old(currTick) + ticks, cb);
        && View() == o.clock
        && |log| == |o.fired|
        && forall i | 0 <= i < |log| :: log[i] == Firing(o.fired[i].id, o.fired[i].expiry)
    {
      hide WellFormed, Compliant, Absolute, Announced, AllApplied, FiresExactlyTheDue, Remains;
      announceRemaining := ticks;
      log := [];
      ghost var end := currTick + ticks;
      ghost var whole := Announced(View(), end, cb);
      AnnounceFiresExactlyTheDue(View(), end, cb);
      DueFiringIsWellFormed(View(), end, whole);
      NothingFired(whole);
      while list != [] && list[0].dticks <= announceRemaining
        invariant Valid() && announceRemaining == end - currTick >= 0
        invariant Remains(whole, log, Announced(View(), end, cb))
        decreases end - currTick, Ties(View().pending, currTick)
      {
        FirstDue(list, currTick);
        AnnouncedStep(View(), end, cb);
        FiredMore(whole, log, Announced(View(), end, cb));
        var firing := FireFirst(end, cb);
        log := log + [firing];
      }
      FirstDue(list, currTick);
      AnnouncedDone(View(), end, cb, whole, log);
      FirstMoved(list, currTick, announceRemaining);
      if list != [] {
        list := list[0 := list[0].(dticks := list[0].dticks - announceRemaining)];
      }
      currTick := currTick + announceRemaining;
      announceRemaining := 0;
    }
  }
}

/**
 Work queues of kernel/work.c as a state machine over any number of work items and
 queues.  Each function below is one section that the source runs under its lock;
 a run is any interleaving of them.
 */
module Work {

  type WorkId = nat
  type QueueId = nat

  datatype Option<T> = None | Some(value: T)

  /** An entry of a pending list.  `inst` numbers the submissions, so that one can
      tell the submissions of an item apart; a flusher remembers the one it waits for. */
  datatype Node = Work(w: WorkId, inst: nat) | Flusher(f: nat, inst: nat)

  /** The flags of a work item, and the queue it was last submitted to. */
  datatype Item = Item(queued: bool, running: bool, canceling: bool, delayed: bool, queue: Option<QueueId>)

  /** The thread of a queue: not there, asleep on notifyq, about to look for work, or
      in the handler of a node. */
  datatype Worker = Gone | Asleep | Awake | In(node: Node)

  /** Flags, pending list, thread, and number of threads waiting on drainq.  `sealed`
      says that a plugged drain has completed and was not undone. */
  datatype Queue = Queue(started: bool, drain: bool, plugged: bool, stop: bool, pending: seq<Node>,
                         worker: Worker, drainers: nat, sealed: bool)

  /** What has become of a submission. */
  datatype Fate = Waiting(q: QueueId) | Executing(q: QueueId) | Finished | Cancelled

  /** `fate` is what has become of each submission, and `item` whose it was. */
  datatype Sys = Sys(items: map<WorkId, Item>, queues: map<QueueId, Queue>, cancels: seq<WorkId>, fate: seq<Fate>,
                     item: seq<WorkId>)

  /** Nothing submitted and nothing started. */
  const NOTHING := Sys(map[], map[], [], [], [])

  const IDLE := Item(false, false, false, false, None)
  const UNSTARTED := Queue(false, false, false, false, [], Gone, 0, false)

  /** Items and queues that nothing has touched yet are as initialised. */
  function ItemOf(s: Sys, w: WorkId): Item { if w in s.items then s.items[w] else IDLE }

  function QueueOf(s: Sys, q: QueueId): Queue { if q in s.queues then s.queues[q] else UNSTARTED }

  function Update(s: Sys, w: WorkId, it: Item, q: QueueId, queue: Queue): Sys {
    s.(items := s.items[w := it], queues := s.queues[q := queue])
  }

  const EINVAL: int := -22
  const ENODEV: int := -19
  const EBUSY: int := -16
  const EALREADY: int := -120

  // ----- The locked sections -----

  /** notify_queue_locked(). */
  function Notified(queue: Queue): Queue {
    if queue.worker.Asleep? then queue.(worker := Awake) else queue
  }

  /** The tests of queue_submit_locked(); 1 when the queue takes the work. */
  function Admission(queue: Queue, chained: bool): int {
    if !queue.started then ENODEV
    else if queue.drain && !chained then EBUSY
    else if queue.plugged && !queue.drain then EBUSY
    else 1
  }

  /** Where submit_to_queue_locked() tries to put an item: a running item goes back
      to the queue that runs it. */
  function Destination(it: Item, wanted: Option<QueueId>): Option<QueueId> {
    if it.running || wanted.None? then it.queue else wanted
  }

  function Enqueued(s: Sys, w: WorkId, q: QueueId): Sys {
    var queue := QueueOf(s, q);
    Update(s, w, ItemOf(s, w).(queued := true, queue := Some(q)),
           q, Notified(queue.(pending := queue.pending + [Work(w, |s.fate|)])))
    .(fate := s.fate + [Waiting(q)], item := s.item + [w])
  }

  /** submit_to_queue_locked(), called on the thread of queue `caller` if on any. */
  function Submitted(s: Sys, w: WorkId, wanted: Option<QueueId>, caller: Option<QueueId>): (Sys, int) {
    var it := ItemOf(s, w);
    var dest := Destination(it, wanted);
    if it.canceling then (s, EBUSY)
    else if it.queued then (s, 0)
    else if dest.None? then (s, EINVAL)
    else
      var code := Admission(QueueOf(s, dest.value), caller == dest);
      if code < 0 then (s, code)
      else (Enqueued(s, w, dest.value), if it.running then 2 else 1)
  }

  predicate IsWork(n: Node, w: WorkId) { n.Work? && n.w == w }

  /** sys_slist_find_and_remove() of a work item. */
  function Without(ns: seq<Node>, w: WorkId): seq<Node> {
    if ns == [] then [] else if IsWork(ns[0], w) then ns[1..] else [ns[0]] + Without(ns[1..], w)
  }

  /** The number of the submission of `w` that is in a list. */
  function InstOf(ns: seq<Node>, w: WorkId): nat {
    if ns == [] then 0 else if IsWork(ns[0], w) then ns[0].inst else InstOf(ns[1..], w)
  }

  /** sys_slist_insert() of a node behind a work item. */
  function InsertedAfter(ns: seq<Node>, w: WorkId, n: Node): seq<Node> {
    if ns == [] then [n]
    else if IsWork(ns[0], w) then [ns[0], n] + ns[1..]
    else [ns[0]] + InsertedAfter(ns[1..], w, n)
  }

  /** work_flush_locked(): a flusher goes right behind the queued submission, or to
      the front of the queue that runs the item. */
  function Flushed(s: Sys, w: WorkId, f: nat): (Sys, bool) {
    var it := ItemOf(s, w);
    if (it.queued || it.running) && it.queue.Some? then
      var queue := QueueOf(s, it.queue.value);
      var pending :=
        if it.queued then InsertedAfter(queue.pending, w, Flusher(f, InstOf(queue.pending, w)))
        else [Flusher(f, if queue.worker.In? then queue.worker.node.inst else 0)] + queue.pending;
      (s.(queues := s.queues[it.queue.value := Notified(queue.(pending := pending))]), true)
    else (s, false)
  }

  /** Cancelling: unschedule_locked() and then cancel_async_locked(). */
  function CancelRequested(s: Sys, w: WorkId): Sys {
    var it := ItemOf(s, w).(delayed := false);
    if !it.canceling && it.queued && it.queue.Some? then
      var queue := QueueOf(s, it.queue.value);
      var inst := InstOf(queue.pending, w);
      Update(s, w, it.(queued := false, canceling := it.running),
             it.queue.value, queue.(pending := Without(queue.pending, w)))
      .(fate := if inst < |s.fate| then s.fate[inst := Cancelled] else s.fate)
    else s.(items := s.items[w := it.(canceling := it.canceling || it.running)])
  }

  /** cancel_sync_locked(): a record for the caller if the item is still busy. */
  function CancelAwaited(s: Sys, w: WorkId): Sys {
    var t := CancelRequested(s, w);
    if ItemOf(t, w).canceling then t.(cancels := t.cancels + [w]) else t
  }

  /** The first locked section of work_queue_main(), for an awake worker. */
  function WorkerLooked(s: Sys, q: QueueId): Sys {
    var queue := QueueOf(s, q);
    if queue.pending != [] then
      var n := queue.pending[0];
      var t := s.(queues := s.queues[q := queue.(pending := queue.pending[1..], worker := In(n))]);
      match n
      case Work(w, inst) =>
        t.(items := t.items[w := ItemOf(s, w).(queued := false, running := true)],
           fate := if inst < |s.fate| then s.fate[inst := Executing(q)] else s.fate)
      case Flusher(_, _) => t
    else if queue.drain then
      s.(queues := s.queues[q := queue.(drain := false, drainers := 0, worker := Asleep, sealed := queue.plugged)])
    else if queue.stop then
      s.(queues := s.queues[q := UNSTARTED])
    else
      s.(queues := s.queues[q := queue.(worker := Asleep)])
  }

  /** finalize_cancel_locked(): the first record of the item is dropped. */
  function FirstReleased(cancels: seq<WorkId>, w: WorkId): seq<WorkId> {
    if cancels == [] then [] else if cancels[0] == w then cancels[1..] else [cancels[0]] + FirstReleased(cancels[1..], w)
  }

  /** The second locked section of work_queue_main(), after the handler. */
  function WorkerFinished(s: Sys, q: QueueId): Sys
    requires QueueOf(s, q).worker.In?
  {
    var queue := QueueOf(s, q);
    var t := s.(queues := s.queues[q := queue.(worker := Awake)]);
    match queue.worker.node
    case Work(w, inst) =>
      t.(items := t.items[w := ItemOf(s, w).(running := false, canceling := false)],
         cancels := if ItemOf(s, w).canceling then FirstReleased(s.cancels, w) else s.cancels,
         fate := if inst < |s.fate| then s.fate[inst := Finished] else s.fate)
    case Flusher(_, _) => t
  }

  /** k_work_queue_drain() up to where it waits; false when it need not wait. */
  function DrainRequested(s: Sys, q: QueueId, plug: bool): (Sys, bool) {
    var queue := QueueOf(s, q);
    if queue.worker.In? || queue.drain || plug || queue.pending != [] then
      (s.(queues := s.queues[q := Notified(queue.(drain := true, plugged := queue.plugged || plug,
                                                   drainers := queue.drainers + 1))]), true)
    else (s, false)
  }

  /** k_work_queue_unplug(). */
  function Unplugged(s: Sys, q: QueueId): (Sys, int) {
    var queue := QueueOf(s, q);
    (s.(queues := s.queues[q := queue.(plugged := false, sealed := false)]), if queue.plugged then 0 else EALREADY)
  }

  /** k_work_queue_stop() up to where it joins the thread. */
  function StopRequested(s: Sys, q: QueueId): (Sys, int) {
    var queue := QueueOf(s, q);
    if !queue.started then (s, EALREADY)
    else if !queue.plugged then (s, EBUSY)
    else (s.(queues := s.queues[q := Notified(queue.(stop := true))]), 0)
  }

  /** k_work_queue_stop() giving up on the join. */
  function StopAbandoned(s: Sys, q: QueueId): Sys {
    s.(queues := s.queues[q := QueueOf(s, q).(stop := false)])
  }

  /** k_work_queue_start() on a queue that is not running. */
  function Started(s: Sys, q: QueueId): Sys {
    s.(queues := s.queues[q := UNSTARTED.(started := true, worker := Awake)])
  }

  /** Scheduling a delayable item; its timeout is a later `TimeoutFired`. */
  function Delayed(s: Sys, w: WorkId): Sys {
    s.(items := s.items[w := ItemOf(s, w).(delayed := true)])
  }

  function Undelayed(s: Sys, w: WorkId): Sys {
    s.(items := s.items[w := ItemOf(s, w).(delayed := false)])
  }

  /** work_timeout(). */
  function TimeoutFired(s: Sys, w: WorkId, wanted: Option<QueueId>): Sys {
    if ItemOf(s, w).delayed then Submitted(Undelayed(s, w), w, wanted, None).0 else s
  }

  // ----- What holds in every state -----

  ghost predicate HasWork(ns: seq<Node>, w: WorkId) { exists n :: n in ns && IsWork(n, w) }

  ghost predicate HasInst(ns: seq<Node>, inst: nat) { exists n :: n in ns && n.Work? && n.inst == inst }

  /** A list holds an item at most once, submissions in their order, and none behind a flusher
      that waits for it. */
  ghost predicate Tidy(ns: seq<Node>) {
    forall i, j | 0 <= i < j < |ns| ::
      && (ns[i].Work? && ns[j].Work? ==> ns[i].w != ns[j].w && ns[i].inst < ns[j].inst)
      && (ns[j].Work? ==> ns[i].inst != ns[j].inst)
  }

  ghost predicate Over(f: Fate) { f.Finished? || f.Cancelled? }

  /** A node that is pending on `q`: an item is QUEUED on its own queue, and a flusher
      waits where its submission waits or runs, if that is not over. */
  ghost predicate NodeSound(s: Sys, q: QueueId, n: Node) {
    && n.inst < |s.fate| == |s.item|
    && (n.Work? ==> s.item[n.inst] == n.w && ItemOf(s, n.w).queued && ItemOf(s, n.w).queue == Some(q) && s.fate[n.inst] == Waiting(q))
    && (n.Flusher? ==> Over(s.fate[n.inst]) || s.fate[n.inst].q == q)
  }

  /** The thread of `q`: an item in its handler is RUNNING on its own queue, and a
      flusher's submission is over. */
  ghost predicate WorkerSound(s: Sys, q: QueueId) {
    QueueOf(s, q).worker.In? ==>
      var n := QueueOf(s, q).worker.node;
      && n.inst < |s.fate| == |s.item|
      && (n.Work? ==> s.item[n.inst] == n.w && ItemOf(s, n.w).running && ItemOf(s, n.w).queue == Some(q) && s.fate[n.inst] == Executing(q))
      && (n.Flusher? ==> Over(s.fate[n.inst]))
  }

  predicate Executes(worker: Worker, w: WorkId) { worker.In? && IsWork(worker.node, w) }

  /** The flags of an item are true of its own queue. */
  ghost predicate ItemSound(s: Sys, w: WorkId) {
    var it := ItemOf(s, w);
    && (it.queued ==> it.queue.Some? && HasWork(QueueOf(s, it.queue.value).pending, w))
    && (it.running ==> it.queue.Some? && Executes(QueueOf(s, it.queue.value).worker, w))
    && (it.canceling ==> it.running && !it.queued)
  }

  /** A submission is where its fate says. */
  ghost predicate FateSound(s: Sys, i: nat)
    requires i < |s.fate|
  {
    && (s.fate[i].Waiting? ==> HasInst(QueueOf(s, s.fate[i].q).pending, i))
    && (s.fate[i].Executing? ==>
          var worker := QueueOf(s, s.fate[i].q).worker; worker.In? && worker.node.Work? && worker.node.inst == i)
  }

  /** What holds of each queue by itself. */
  ghost predicate QueueSound(queue: Queue) {
    && Tidy(queue.pending)
    && (queue.worker.Asleep? ==> queue.pending == [] && !queue.drain)
    && (queue.drainers > 0 ==> queue.drain)
    && (queue.sealed ==> queue.started && queue.plugged && queue.pending == [] && !queue.worker.In?)
    && (!queue.started <==> queue.worker.Gone?)
    && (!queue.started ==> queue.pending == [])
  }

  ghost predicate NodesSound(s: Sys) {
    forall q: QueueId, n {:trigger NodeSound(s, q, n)} :: n in QueueOf(s, q).pending ==> NodeSound(s, q, n)
  }

  ghost predicate Inv(s: Sys) {
    && |s.item| == |s.fate|
    && NodesSound(s)
    && (forall q: QueueId :: WorkerSound(s, q))
    && (forall w: WorkId :: ItemSound(s, w))
    && (forall i | 0 <= i < |s.fate| :: FateSound(s, i))
    && (forall q: QueueId {:trigger QueueOf(s, q)} :: QueueSound(QueueOf(s, q)))
  }

  // ----- Lists -----

  lemma {:induction false} WithoutAt(ns: seq<Node>, w: WorkId, p: nat)
    requires p < |ns| && IsWork(ns[p], w) && forall k | 0 <= k < p :: !IsWork(ns[k], w)
    ensures InstOf(ns, w) == ns[p].inst && Without(ns, w) == ns[..p] + ns[p + 1..]
  {
    if p > 0 {
      WithoutAt(ns[1..], w, p - 1);
      assert ns[..p] == [ns[0]] + ns[1..][..p - 1];
    }
  }

  lemma WorkAt(ns: seq<Node>, w: WorkId) returns (p: nat)
    requires HasWork(ns, w)
    ensures p < |ns| && IsWork(ns[p], w) && InstOf(ns, w) == ns[p].inst
    ensures Without(ns, w) == ns[..p] + ns[p + 1..]
    ensures forall k | 0 <= k < p :: !IsWork(ns[k], w)
  {
    var n :| n in ns && IsWork(n, w);
    p := 0;
    while !IsWork(ns[p], w)
      invariant p < |ns| && n in ns[p..]
      invariant forall k | 0 <= k < p :: !IsWork(ns[k], w)
      decreases |ns| - p
    {
      p := p + 1;
    }
    WithoutAt(ns, w, p);
  }

  lemma {:induction false} InsertAt(ns: seq<Node>, w: WorkId, p: nat, n: Node)
    requires p < |ns| && IsWork(ns[p], w) && forall k | 0 <= k < p :: !IsWork(ns[k], w)
    ensures InsertedAfter(ns, w, n) == ns[..p + 1] + [n] + ns[p + 1..]
  {
    if p > 0 {
      InsertAt(ns[1..], w, p - 1, n);
      assert ns[..p + 1] == [ns[0]] + ns[1..][..p];
    }
  }

  /** Taking the node at `p` out of a list leaves all others. */
  ghost predicate Cut(ns: seq<Node>, p: nat, t: seq<Node>)
    requires p < |ns|
  {
    && Tidy(t)
    && (forall n | n in t :: n in ns && n != ns[p] && (ns[p].Work? && n.Work? ==> n.w != ns[p].w && n.inst != ns[p].inst))
    && (forall w: WorkId | HasWork(ns, w) && !IsWork(ns[p], w) :: HasWork(t, w))
    && (forall i: nat | HasInst(ns, i) && !(ns[p].Work? && ns[p].inst == i) :: HasInst(t, i))
  }

  lemma CutIsTidy(ns: seq<Node>, p: nat, t: seq<Node>)
    requires p < |ns| && Cut(ns, p, t)
    ensures Tidy(t)
  {
  }

  lemma TidyCut(ns: seq<Node>, p: nat)
    requires Tidy(ns) && p < |ns| && ns[p].Work?
    ensures Cut(ns, p, ns[..p] + ns[p + 1..])
  {
    var t := ns[..p] + ns[p + 1..];
    assert forall k | 0 <= k < |t| :: t[k] == ns[if k < p then k else k + 1];
    forall n | n in ns && n != ns[p] ensures n in t {
      var k :| 0 <= k < |ns| && ns[k] == n;
      assert t[if k < p then k else k - 1] == n;
    }
  }

  /** Putting a node into a list keeps all others. */
  ghost predicate Put(ns: seq<Node>, n: Node, t: seq<Node>) {
    && (forall m :: m in t <==> m in ns || m == n)
    && (forall w: WorkId | HasWork(ns, w) :: HasWork(t, w))
    && (forall i: nat | HasInst(ns, i) :: HasInst(t, i))
  }

  lemma Inserted(ns: seq<Node>, p: nat, n: Node)
    requires p <= |ns|
    ensures Put(ns, n, ns[..p] + [n] + ns[p..])
    ensures n.Work? ==> HasWork(ns[..p] + [n] + ns[p..], n.w) && HasInst(ns[..p] + [n] + ns[p..], n.inst)
  {
    assert ns == ns[..p] + ns[p..];
    assert n in ns[..p] + [n] + ns[p..];
  }

  lemma TidyInsert(ns: seq<Node>, p: nat, n: Node)
    requires Tidy(ns) && p <= |ns|
    requires forall k | 0 <= k < |ns| && ns[k].Work? && (p <= k || n.Work?) :: ns[k].inst != n.inst
    requires n.Work? ==> p == |ns| && forall k | 0 <= k < |ns| :: ns[k].inst < n.inst && (ns[k].Work? ==> ns[k].w != n.w)
    ensures Tidy(ns[..p] + [n] + ns[p..])
  {
    var t := ns[..p] + [n] + ns[p..];
    assert forall k | 0 <= k < |t| :: t[k] == if k < p then ns[k] else if k == p then n else ns[k - 1];
  }

  /** Nothing that a flusher waits for is behind it. */
  lemma NothingBehind(ns: seq<Node>)
    requires Tidy(ns) && ns != [] && ns[0].Flusher?
    ensures !HasInst(ns, ns[0].inst)
  {
  }

  // ----- Every section keeps it -----

  /** Changing a queue's flags, or waking and putting to sleep its idle thread. */
  lemma FlagsKeep(s: Sys, q: QueueId, queue: Queue)
    requires Inv(s) && QueueSound(queue) && queue.pending == QueueOf(s, q).pending
    requires queue.worker == QueueOf(s, q).worker || (!queue.worker.In? && !QueueOf(s, q).worker.In?)
    ensures Inv(s.(queues := s.queues[q := queue]))
  {
    hide QueueSound, HasWork, HasInst;
    var t := s.(queues := s.queues[q := queue]);
    forall x: QueueId, n | n in QueueOf(t, x).pending ensures NodeSound(t, x, n) { assert NodeSound(s, x, n); }
    forall x: QueueId ensures WorkerSound(t, x) { assert WorkerSound(s, x); }
    forall x: WorkId ensures ItemSound(t, x) { assert ItemSound(s, x); }
    forall i | 0 <= i < |t.fate| ensures FateSound(t, i) { assert FateSound(s, i); }
    assert forall x: QueueId :: x != q ==> QueueOf(t, x) == QueueOf(s, x);
  }

  lemma SameKeeps(s: Sys, t: Sys)
    requires Inv(s) && t.queues == s.queues && t.fate == s.fate && t.item == s.item
    requires forall x: WorkId :: ItemOf(t, x).(delayed := false) == ItemOf(s, x).(delayed := false)
    ensures Inv(t)
  {
    hide QueueSound, HasWork, HasInst;
    forall x: QueueId, n | n in QueueOf(t, x).pending ensures NodeSound(t, x, n) { assert NodeSound(s, x, n); }
    forall x: QueueId ensures WorkerSound(t, x) { assert WorkerSound(s, x); }
    forall x: WorkId ensures ItemSound(t, x) { assert ItemSound(s, x); }
    forall i | 0 <= i < |t.fate| ensures FateSound(t, i) { assert FateSound(s, i); }
    assert forall x: QueueId :: QueueOf(t, x) == QueueOf(s, x);
  }

  /** Changing what the invariant does not speak of. */
  lemma OtherKeep(s: Sys, w: WorkId, delayed: bool, cancels: seq<WorkId>)
    requires Inv(s)
    ensures Inv(s.(items := s.items[w := ItemOf(s, w).(delayed := delayed)], cancels := cancels))
    ensures Inv(s.(cancels := cancels))
  {
    hide QueueSound, HasWork, HasInst;
    SameKeeps(s, s.(items := s.items[w := ItemOf(s, w).(delayed := delayed)], cancels := cancels));
    SameKeeps(s, s.(cancels := cancels));
  }

  ghost predicate CanEnqueue(s: Sys, w: WorkId, q: QueueId) {
    && !ItemOf(s, w).queued && !ItemOf(s, w).canceling
    && (ItemOf(s, w).running ==> ItemOf(s, w).queue == Some(q))
    && QueueOf(s, q).started && !QueueOf(s, q).sealed
  }

  lemma EnqueuedTidy(s: Sys, w: WorkId, q: QueueId)
    requires Inv(s) && CanEnqueue(s, w, q)
    ensures QueueSound(QueueOf(Enqueued(s, w, q), q))
    ensures
      var ns, n := QueueOf(s, q).pending, Work(w, |s.fate|);
      && QueueOf(Enqueued(s, w, q), q).pending == ns + [n]
      && Put(ns, n, ns + [n]) && HasWork(ns + [n], w) && HasInst(ns + [n], |s.fate|)
  {
    var ns, n := QueueOf(s, q).pending, Work(w, |s.fate|);
    assert QueueSound(QueueOf(s, q));
    assert ns[..|ns|] + [n] + ns[|ns|..] == ns + [n];
    Inserted(ns, |ns|, n);
    forall k | 0 <= k < |ns| ensures ns[k].inst < n.inst && (ns[k].Work? ==> ns[k].w != w) {
      assert NodeSound(s, q, ns[k]);
    }
    TidyInsert(ns, |ns|, n);
  }

  lemma EnqueuedKeeps(s: Sys, w: WorkId, q: QueueId)
    requires Inv(s) && CanEnqueue(s, w, q)
    ensures Inv(Enqueued(s, w, q))
  {
    hide QueueSound, HasWork, HasInst;
    var t := Enqueued(s, w, q);
    EnqueuedTidy(s, w, q);
    forall x: QueueId, n | n in QueueOf(t, x).pending ensures NodeSound(t, x, n) {
      if n in QueueOf(s, x).pending { assert NodeSound(s, x, n); }
    }
    forall x: QueueId ensures WorkerSound(t, x) { assert WorkerSound(s, x); }
    forall x: WorkId ensures ItemSound(t, x) { assert ItemSound(s, x); }
    forall i | 0 <= i < |t.fate| ensures FateSound(t, i) {
      if i < |s.fate| { assert FateSound(s, i); }
    }
    assert forall x: QueueId :: x != q ==> QueueOf(t, x) == QueueOf(s, x);
  }

  /** A submission, by the thread of queue `caller` when it runs a handler. */
  lemma SubmittedKeeps(s: Sys, w: WorkId, wanted: Option<QueueId>, caller: Option<QueueId>)
    requires Inv(s) && (caller.Some? ==> QueueOf(s, caller.value).worker.In?)
    ensures Inv(Submitted(s, w, wanted, caller).0)
  {
    var it := ItemOf(s, w);
    var dest := Destination(it, wanted);
    if !it.canceling && !it.queued && dest.Some? && Admission(QueueOf(s, dest.value), caller == dest) >= 0 {
      assert ItemSound(s, w) && QueueSound(QueueOf(s, dest.value));
      assert CanEnqueue(s, w, dest.value);
      EnqueuedKeeps(s, w, dest.value);
    }
  }

  ghost function WithFlusher(s: Sys, q: QueueId, p: nat, f: Node): Sys
    requires p <= |QueueOf(s, q).pending|
  {
    var ns := QueueOf(s, q).pending;
    s.(queues := s.queues[q := Notified(QueueOf(s, q).(pending := ns[..p] + [f] + ns[p..]))])
  }

  /** A flusher may go to any place that is not ahead of what it waits for. */
  ghost predicate CanFlush(s: Sys, q: QueueId, p: nat, f: Node) {
    var queue := QueueOf(s, q);
    && p <= |queue.pending| && f.Flusher?
    && f.inst < |s.fate| && !Over(s.fate[f.inst]) && s.fate[f.inst].q == q
    && (forall k | p <= k < |queue.pending| && queue.pending[k].Work? :: queue.pending[k].inst != f.inst)
    && queue.started && !queue.sealed
  }

  lemma WithFlusherKeeps(s: Sys, q: QueueId, p: nat, f: Node)
    requires Inv(s) && CanFlush(s, q, p, f)
    ensures Inv(WithFlusher(s, q, p, f))
  {
    var ns, t := QueueOf(s, q).pending, WithFlusher(s, q, p, f);
    assert QueueSound(QueueOf(s, q));
    TidyInsert(ns, p, f);
    Inserted(ns, p, f);
    assert QueueSound(QueueOf(t, q));
    forall x: QueueId, n | n in QueueOf(t, x).pending ensures NodeSound(t, x, n) {
      if n in QueueOf(s, x).pending { assert NodeSound(s, x, n); }
    }
    forall x: QueueId ensures WorkerSound(t, x) { assert WorkerSound(s, x); }
    forall x: WorkId ensures ItemSound(t, x) { assert ItemSound(s, x); }
    forall i | 0 <= i < |t.fate| ensures FateSound(t, i) { assert FateSound(s, i); }
    assert forall x: QueueId :: x != q ==> QueueOf(t, x) == QueueOf(s, x);
  }

  lemma FlushQueued(s: Sys, w: WorkId, f: nat)
    requires Inv(s) && ItemOf(s, w).queued
    ensures Inv(Flushed(s, w, f).0) && Flushed(s, w, f).1
  {
    assert ItemSound(s, w);
    var q := ItemOf(s, w).queue.value;
    var ns := QueueOf(s, q).pending;
    var p := WorkAt(ns, w);
    var flusher := Flusher(f, ns[p].inst);
    assert NodeSound(s, q, ns[p]) && QueueSound(QueueOf(s, q));
    assert CanFlush(s, q, p + 1, flusher);
    InsertAt(ns, w, p, flusher);
    WithFlusherKeeps(s, q, p + 1, flusher);
  }

  lemma FlushRunning(s: Sys, w: WorkId, f: nat)
    requires Inv(s) && ItemOf(s, w).running && !ItemOf(s, w).queued
    ensures Inv(Flushed(s, w, f).0) && Flushed(s, w, f).1
  {
    assert ItemSound(s, w);
    var q := ItemOf(s, w).queue.value;
    var ns := QueueOf(s, q).pending;
    var flusher := Flusher(f, QueueOf(s, q).worker.node.inst);
    assert WorkerSound(s, q) && QueueSound(QueueOf(s, q));
    forall k | 0 <= k < |ns| && ns[k].Work? ensures ns[k].inst != flusher.inst { assert NodeSound(s, q, ns[k]); }
    assert CanFlush(s, q, 0, flusher);
    assert ns[..0] + [flusher] + ns[0..] == [flusher] + ns;
    WithFlusherKeeps(s, q, 0, flusher);
  }

  lemma FlushedKeeps(s: Sys, w: WorkId, f: nat)
    requires Inv(s)
    ensures Inv(Flushed(s, w, f).0)
  {
    hide Inv;
    if ItemOf(s, w).queued {
      FlushQueued(s, w, f);
    } else if ItemOf(s, w).running {
      FlushRunning(s, w, f);
    }
  }

  /** Where a queued item is. */
  lemma PlaceOfQueued(s: Sys, w: WorkId) returns (p: nat)
    requires Inv(s) && ItemOf(s, w).queued
    ensures ItemOf(s, w).queue.Some?
    ensures
      var q := ItemOf(s, w).queue.value;
      var ns := QueueOf(s, q).pending;
      && p < |ns| && IsWork(ns[p], w) && NodeSound(s, q, ns[p])
      && (forall k | 0 <= k < p :: !IsWork(ns[k], w))
      && Without(ns, w) == ns[..p] + ns[p + 1..] && InstOf(ns, w) == ns[p].inst
      && Cut(ns, p, ns[..p] + ns[p + 1..])
  {
    assert ItemSound(s, w);
    var q := ItemOf(s, w).queue.value;
    var ns := QueueOf(s, q).pending;
    p := WorkAt(ns, w);
    assert NodeSound(s, q, ns[p]) && QueueSound(QueueOf(s, q));
    TidyCut(ns, p);
  }

  lemma CancelQueuedNodes(s: Sys, w: WorkId)
    requires Inv(s) && ItemOf(s, w).queued
    ensures NodesSound(CancelRequested(s, w)) && forall x: QueueId :: WorkerSound(CancelRequested(s, w), x)
  {
    var t := CancelRequested(s, w);
    assert ItemSound(s, w);
    var p := PlaceOfQueued(s, w);
    forall x: QueueId, m | m in QueueOf(t, x).pending ensures NodeSound(t, x, m) { assert NodeSound(s, x, m); }
    forall x: QueueId ensures WorkerSound(t, x) { assert WorkerSound(s, x); }
  }

  lemma CancelQueued(s: Sys, w: WorkId)
    requires Inv(s) && ItemOf(s, w).queued
    ensures Inv(CancelRequested(s, w))
  {
    var t, q := CancelRequested(s, w), ItemOf(s, w).queue.value;
    assert ItemSound(s, w);
    var p := PlaceOfQueued(s, w);
    CancelQueuedNodes(s, w);
    assert QueueSound(QueueOf(s, q)) && QueueSound(QueueOf(t, q));
    forall x: WorkId ensures ItemSound(t, x) { assert ItemSound(s, x); }
    forall i | 0 <= i < |t.fate| ensures FateSound(t, i) { assert FateSound(s, i); }
    assert forall x: QueueId :: x != q ==> QueueOf(t, x) == QueueOf(s, x);
  }

  lemma CancelFlagged(s: Sys, w: WorkId)
    requires Inv(s) && !ItemOf(s, w).queued
    ensures Inv(CancelRequested(s, w))
  {
    hide QueueSound, HasWork, HasInst;
    var t := CancelRequested(s, w);
    forall x: QueueId, n | n in QueueOf(t, x).pending ensures NodeSound(t, x, n) { assert NodeSound(s, x, n); }
    forall x: QueueId ensures WorkerSound(t, x) { assert WorkerSound(s, x); }
    forall x: WorkId ensures ItemSound(t, x) { assert ItemSound(s, x); }
    forall i | 0 <= i < |t.fate| ensures FateSound(t, i) { assert FateSound(s, i); }
    assert forall x: QueueId :: QueueOf(t, x) == QueueOf(s, x);
  }

  lemma CancelRequestedKeeps(s: Sys, w: WorkId)
    requires Inv(s)
    ensures Inv(CancelRequested(s, w))
  {
    if ItemOf(s, w).queued { CancelQueued(s, w); } else { CancelFlagged(s, w); }
  }

  ghost predicate TakesWork(s: Sys, q: QueueId) {
    QueueOf(s, q).worker.Awake? && QueueOf(s, q).pending != [] && QueueOf(s, q).pending[0].Work?
  }

  lemma FirstNode(s: Sys, q: QueueId)
    requires Inv(s) && QueueOf(s, q).pending != []
    ensures NodeSound(s, q, QueueOf(s, q).pending[0]) && QueueSound(QueueOf(s, q))
    ensures QueueOf(s, q).pending[0].Work? ==> ItemSound(s, QueueOf(s, q).pending[0].w)
  {
    hide NodeSound, WorkerSound, ItemSound, FateSound, QueueSound;
    assert QueueOf(s, q).pending[0] in QueueOf(s, q).pending;
    assert NodeSound(s, q, QueueOf(s, q).pending[0]);
  }

  lemma FirstCut(ns: seq<Node>)
    requires Tidy(ns) && ns != [] && ns[0].Work?
    ensures Cut(ns, 0, ns[1..]) && Tidy(ns[1..])
  {
    hide Tidy, Cut;
    TidyCut(ns, 0);
    assert ns[..0] + ns[1..] == ns[1..];
    CutIsTidy(ns, 0, ns[1..]);
  }

  lemma TakenWorkQueue(s: Sys, q: QueueId)
    requires QueueSound(QueueOf(s, q)) && TakesWork(s, q)
    ensures QueueSound(QueueOf(WorkerLooked(s, q), q))
    ensures Cut(QueueOf(s, q).pending, 0, QueueOf(s, q).pending[1..])
  {
    hide Tidy, Cut;
    var queue := QueueOf(s, q);
    FirstCut(queue.pending);
    assert QueueOf(WorkerLooked(s, q), q) == queue.(pending := queue.pending[1..], worker := In(queue.pending[0])) by {
      hide QueueSound;
    }
  }

  lemma TakenWorkFrame(s: Sys, q: QueueId)
    requires Inv(s) && TakesWork(s, q)
    ensures
      var ns, t := QueueOf(s, q).pending, WorkerLooked(s, q);
      && NodeSound(s, q, ns[0]) && QueueSound(QueueOf(t, q)) && Cut(ns, 0, ns[1..])
      && !ItemOf(s, ns[0].w).running && !ItemOf(s, ns[0].w).canceling
  {
    hide Inv, Cut, QueueSound, WorkerLooked, HasWork;
    FirstNode(s, q);
    TakenWorkQueue(s, q);
  }

  lemma TakenWorkNodes(s: Sys, q: QueueId)
    requires Inv(s) && TakesWork(s, q)
    ensures NodesSound(WorkerLooked(s, q)) && forall x: QueueId :: WorkerSound(WorkerLooked(s, q), x)
  {
    TakenWorkFrame(s, q);
    var t := WorkerLooked(s, q);
    forall x: QueueId, m | m in QueueOf(t, x).pending ensures NodeSound(t, x, m) { assert NodeSound(s, x, m); }
    forall x: QueueId ensures WorkerSound(t, x) { assert WorkerSound(s, x); }
  }

  lemma TakenWorkKeeps(s: Sys, q: QueueId)
    requires Inv(s) && TakesWork(s, q)
    ensures Inv(WorkerLooked(s, q))
  {
    TakenWorkFrame(s, q);
    TakenWorkNodes(s, q);
    var t := WorkerLooked(s, q);
    forall x: WorkId ensures ItemSound(t, x) { assert ItemSound(s, x); }
    forall i | 0 <= i < |t.fate| ensures FateSound(t, i) { assert FateSound(s, i); }
    assert forall x: QueueId :: x != q ==> QueueOf(t, x) == QueueOf(s, x);
  }

  /** When a flusher's turn comes, what it waited for is over. */
  lemma FlusherTurn(s: Sys, q: QueueId)
    requires Inv(s) && QueueOf(s, q).worker.Awake?
    requires QueueOf(s, q).pending != [] && QueueOf(s, q).pending[0].Flusher?
    ensures QueueOf(s, q).pending[0].inst < |s.fate| && Over(s.fate[QueueOf(s, q).pending[0].inst])
  {
    var ns := QueueOf(s, q).pending;
    assert NodeSound(s, q, ns[0]) && QueueSound(QueueOf(s, q)) && FateSound(s, ns[0].inst);
    NothingBehind(ns);
  }

  lemma FlusherCut(ns: seq<Node>)
    requires Tidy(ns) && ns != [] && ns[0].Flusher?
    ensures Tidy(ns[1..])
    ensures forall n | n in ns[1..] :: n in ns
    ensures forall x: WorkId | HasWork(ns, x) :: HasWork(ns[1..], x)
    ensures forall i: nat | HasInst(ns, i) :: HasInst(ns[1..], i)
  {
    forall n | n in ns && n.Work? ensures n in ns[1..] {}
  }

  lemma TakenFlusherKeeps(s: Sys, q: QueueId)
    requires Inv(s) && QueueOf(s, q).worker.Awake?
    requires QueueOf(s, q).pending != [] && QueueOf(s, q).pending[0].Flusher?
    ensures Inv(WorkerLooked(s, q))
  {
    var ns, t := QueueOf(s, q).pending, WorkerLooked(s, q);
    assert QueueSound(QueueOf(s, q));
    FlusherTurn(s, q);
    FlusherCut(ns);
    assert QueueSound(QueueOf(t, q));
    forall x: QueueId, m | m in QueueOf(t, x).pending ensures NodeSound(t, x, m) { assert NodeSound(s, x, m); }
    forall x: QueueId ensures WorkerSound(t, x) { assert WorkerSound(s, x); }
    forall x: WorkId ensures ItemSound(t, x) { assert ItemSound(s, x); }
    forall i | 0 <= i < |t.fate| ensures FateSound(t, i) { assert FateSound(s, i); }
    assert forall x: QueueId :: x != q ==> QueueOf(t, x) == QueueOf(s, x);
  }

  lemma WorkerLookedKeeps(s: Sys, q: QueueId)
    requires Inv(s) && QueueOf(s, q).worker.Awake?
    ensures Inv(WorkerLooked(s, q))
  {
    var queue := QueueOf(s, q);
    assert QueueSound(queue);
    if queue.pending != [] {
      if queue.pending[0].Work? { TakenWorkKeeps(s, q); } else { TakenFlusherKeeps(s, q); }
    } else if queue.drain {
      FlagsKeep(s, q, queue.(drain := false, drainers := 0, worker := Asleep, sealed := queue.plugged));
    } else if queue.stop {
      FlagsKeep(s, q, UNSTARTED);
    } else {
      FlagsKeep(s, q, queue.(worker := Asleep));
    }
  }

  lemma FinishedNode(s: Sys, q: QueueId, x: QueueId, m: Node)
    requires Inv(s) && QueueOf(s, q).worker.In? && m in QueueOf(WorkerFinished(s, q), x).pending
    ensures NodeSound(WorkerFinished(s, q), x, m)
  {
    hide QueueSound, ItemSound, FateSound;
    assert WorkerSound(s, q) && NodeSound(s, x, m);
  }

  lemma FinishedWorker(s: Sys, q: QueueId, x: QueueId)
    requires Inv(s) && QueueOf(s, q).worker.In?
    ensures WorkerSound(WorkerFinished(s, q), x)
  {
    hide QueueSound, ItemSound, FateSound, NodeSound;
    assert WorkerSound(s, q) && WorkerSound(s, x);
  }

  lemma FinishedNodes(s: Sys, q: QueueId)
    requires Inv(s) && QueueOf(s, q).worker.In?
    ensures NodesSound(WorkerFinished(s, q)) && forall x: QueueId :: WorkerSound(WorkerFinished(s, q), x)
  {
    hide Inv, NodeSound, WorkerSound, WorkerFinished;
    var t := WorkerFinished(s, q);
    forall x: QueueId, m | m in QueueOf(t, x).pending ensures NodeSound(t, x, m) { FinishedNode(s, q, x, m); }
    forall x: QueueId ensures WorkerSound(t, x) { FinishedWorker(s, q, x); }
  }

  lemma WorkerFinishedKeeps(s: Sys, q: QueueId)
    requires Inv(s) && QueueOf(s, q).worker.In?
    ensures Inv(WorkerFinished(s, q))
  {
    FinishedNodes(s, q);
    var t, n := WorkerFinished(s, q), QueueOf(s, q).worker.node;
    assert WorkerSound(s, q) && QueueSound(QueueOf(s, q)) && QueueSound(QueueOf(t, q));
    forall x: WorkId ensures ItemSound(t, x) { assert ItemSound(s, x); }
    forall i | 0 <= i < |t.fate| ensures FateSound(t, i) { assert FateSound(s, i); }
    assert forall x: QueueId :: x != q ==> QueueOf(t, x) == QueueOf(s, x);
  }

  // ----- Whole runs -----

  datatype Step =
    | Submit(w: WorkId, wanted: Option<QueueId>, caller: Option<QueueId>)
    | Flush(w: WorkId, f: nat)
    | Cancel(w: WorkId)
    | CancelSync(w: WorkId)
    | WorkerLooks(q: QueueId)
    | WorkerFinishes(q: QueueId)
    | Drain(q: QueueId, plug: bool)
    | Unplug(q: QueueId)
    | Stop(q: QueueId)
    | StopTimesOut(q: QueueId)
    | Start(q: QueueId)
    | Schedule(w: WorkId)
    | Unschedule(w: WorkId)
    | Timeout(w: WorkId, wanted: Option<QueueId>)

  /** What a step takes for granted: a handler submits only while it runs, a worker
      looks for work when awake, and only a queue that is not running is started. */
  ghost predicate Enabled(s: Sys, step: Step) {
    match step
    case Submit(_, _, caller) => caller.Some? ==> QueueOf(s, caller.value).worker.In?
    case WorkerLooks(q) => QueueOf(s, q).worker.Awake?
    case WorkerFinishes(q) => QueueOf(s, q).worker.In?
    case Start(q) => !QueueOf(s, q).started
    case _ => true
  }

  ghost function After(s: Sys, step: Step): Sys
    requires Enabled(s, step)
  {
    match step
    case Submit(w, wanted, caller) => Submitted(s, w, wanted, caller).0
    case Flush(w, f) => Flushed(s, w, f).0
    case Cancel(w) => CancelRequested(s, w)
    case CancelSync(w) => CancelAwaited(s, w)
    case WorkerLooks(q) => WorkerLooked(s, q)
    case WorkerFinishes(q) => WorkerFinished(s, q)
    case Drain(q, plug) => DrainRequested(s, q, plug).0
    case Unplug(q) => Unplugged(s, q).0
    case Stop(q) => StopRequested(s, q).0
    case StopTimesOut(q) => StopAbandoned(s, q)
    case Start(q) => Started(s, q)
    case Schedule(w) => Delayed(s, w)
    case Unschedule(w) => Undelayed(s, w)
    case Timeout(w, wanted) => TimeoutFired(s, w, wanted)
  }

  lemma QueueStepKeeps(s: Sys, q: QueueId, plug: bool)
    requires Inv(s)
    ensures Inv(DrainRequested(s, q, plug).0) && Inv(Unplugged(s, q).0)
    ensures Inv(StopRequested(s, q).0) && Inv(StopAbandoned(s, q))
    ensures !QueueOf(s, q).started ==> Inv(Started(s, q))
  {
    var queue := QueueOf(s, q);
    assert QueueSound(queue);
    FlagsKeep(s, q, Notified(queue.(drain := true, plugged := queue.plugged || plug, drainers := queue.drainers + 1)));
    FlagsKeep(s, q, queue.(plugged := false, sealed := false));
    FlagsKeep(s, q, Notified(queue.(stop := true)));
    FlagsKeep(s, q, queue.(stop := false));
    if !queue.started {
      FlagsKeep(s, q, UNSTARTED.(started := true, worker := Awake));
    }
  }

  lemma StepKeeps(s: Sys, step: Step)
    requires Inv(s) && Enabled(s, step)
    ensures Inv(After(s, step))
  {
    hide Inv;
    match step {
      case Submit(w, wanted, caller) => SubmittedKeeps(s, w, wanted, caller);
      case Flush(w, f) => FlushedKeeps(s, w, f);
      case Cancel(w) => CancelRequestedKeeps(s, w);
      case CancelSync(w) =>
        CancelRequestedKeeps(s, w);
        OtherKeep(CancelRequested(s, w), w, false, CancelRequested(s, w).cancels + [w]);
      case WorkerLooks(q) => WorkerLookedKeeps(s, q);
      case WorkerFinishes(q) => WorkerFinishedKeeps(s, q);
      case Drain(q, plug) => QueueStepKeeps(s, q, plug);
      case Unplug(q) => QueueStepKeeps(s, q, true);
      case Stop(q) => QueueStepKeeps(s, q, true);
      case StopTimesOut(q) => QueueStepKeeps(s, q, true);
      case Start(q) => QueueStepKeeps(s, q, true);
      case Schedule(w) => OtherKeep(s, w, true, s.cancels);
      case Unschedule(w) => OtherKeep(s, w, false, s.cancels);
      case Timeout(w, wanted) =>
        OtherKeep(s, w, false, s.cancels);
        SubmittedKeeps(Undelayed(s, w), w, wanted, None);
    }
  }

  /** `states` is a run that takes `steps` from nothing started. */
  ghost predicate IsRun(states: seq<Sys>, steps: seq<Step>) {
    && |states| == |steps| + 1
    && states[0] == NOTHING
    && forall i | 0 <= i < |steps| :: Enabled(states[i], steps[i]) && states[i + 1] == After(states[i], steps[i])
  }

  lemma {:induction false} RunKeeps(states: seq<Sys>, steps: seq<Step>, i: nat)
    requires IsRun(states, steps) && i < |states|
    ensures Inv(states[i])
  {
    if i > 0 {
      RunKeeps(states, steps, i - 1);
      StepKeeps(states[i - 1], steps[i - 1]);
    }
  }

  /** How often an item is in a list. */
  function Times(ns: seq<Node>, w: WorkId): nat {
    if ns == [] then 0 else (if IsWork(ns[0], w) then 1 else 0) + Times(ns[1..], w)
  }

  lemma {:induction false} TidyTimes(ns: seq<Node>, w: WorkId)
    requires Tidy(ns)
    ensures Times(ns, w) == if HasWork(ns, w) then 1 else 0
  {
    if ns != [] {
      TidyTimes(ns[1..], w);
      assert ns == [ns[0]] + ns[1..];
      if n :| n in ns[1..] && IsWork(n, w) {
        var k :| 0 <= k < |ns[1..]| && ns[1..][k] == n;
        assert ns[k + 1] == n;
        assert n in ns;
      }
    }
  }

  /** In every state of every run the flags of an item tell where it is.  It is in the
      pending list of a queue just once if it is QUEUED and the queue is its own, and else
      not at all; the thread of a queue is in its handler exactly if it is RUNNING and
      the queue is its own; and CANCELING comes with RUNNING and without QUEUED. */
  lemma FlagsTellWhere(states: seq<Sys>, steps: seq<Step>, i: nat, w: WorkId, q: QueueId)
    requires IsRun(states, steps) && i < |states|
    ensures
      var it, queue := ItemOf(states[i], w), QueueOf(states[i], q);
      && Times(queue.pending, w) == (if it.queued && it.queue == Some(q) then 1 else 0)
      && (Executes(queue.worker, w) <==> it.running && it.queue == Some(q))
      && (it.queued || it.running ==> it.queue.Some?)
      && (it.canceling ==> it.running && !it.queued)
  {
    hide Tidy, FateSound, IsRun;
    RunKeeps(states, steps, i);
    var s := states[i];
    var ns := QueueOf(s, q).pending;
    assert ItemSound(s, w) && WorkerSound(s, q) && QueueSound(QueueOf(s, q));
    TidyTimes(ns, w);
    if n :| n in ns && IsWork(n, w) {
      assert NodeSound(s, q, n);
    }
  }

  /** No item is ever in the handlers of two queues at once. */
  lemma NeverReentrant(states: seq<Sys>, steps: seq<Step>, i: nat, q1: QueueId, q2: QueueId, w: WorkId)
    requires IsRun(states, steps) && i < |states|
    ensures Executes(QueueOf(states[i], q1).worker, w) && Executes(QueueOf(states[i], q2).worker, w) ==> q1 == q2
  {
    hide IsRun;
    FlagsTellWhere(states, steps, i, w, q1);
    FlagsTellWhere(states, steps, i, w, q2);
  }

  /** In every state of every run no thread sleeps while its queue has work or is to be
      drained, threads wait for a drain only while one is going on, and a queue that is
      not started has no thread and nothing pending. */
  lemma NoSleepOverWork(states: seq<Sys>, steps: seq<Step>, i: nat, q: QueueId)
    requires IsRun(states, steps) && i < |states|
    ensures
      var queue := QueueOf(states[i], q);
      && (queue.worker.Asleep? ==> queue.pending == [] && !queue.drain && queue.drainers == 0)
      && (queue.drainers > 0 ==> queue.drain)
      && (!queue.started <==> queue.worker.Gone?) && (!queue.started ==> queue.pending == [])
  {
    hide IsRun, Tidy;
    RunKeeps(states, steps, i);
    assert QueueSound(QueueOf(states[i], q));
  }

  // ----- What the calls do -----

  /** Other items, and other queues than `q`, are left alone. */
  ghost predicate Elsewhere(s: Sys, t: Sys, w: WorkId, q: Option<QueueId>) {
    && (forall x: WorkId | x != w :: ItemOf(t, x) == ItemOf(s, x))
    && (forall x: QueueId | Some(x) != q :: QueueOf(t, x) == QueueOf(s, x))
  }

  lemma ItemIs(s: Sys, w: WorkId)
    requires Inv(s)
    ensures ItemSound(s, w)
  {
  }

  /** A submission goes to the queue asked for, or to the last one if none is; but a running item
      goes back to the queue that runs it.  It is queued last there and the thread is awake,
      if the item is neither being cancelled nor queued already, and the queue is started, not
      drained from outside and not plugged.  Else the return value says why, and nothing happens. */
  lemma SubmitTells(s: Sys, w: WorkId, wanted: Option<QueueId>, caller: Option<QueueId>)
    requires Inv(s)
    ensures
      var it := ItemOf(s, w);
      var (t, ret) := Submitted(s, w, wanted, caller);
      var dest := if it.running then it.queue else if wanted.Some? then wanted else it.queue;
      && (ret <= 0 ==> t == s)
      && (it.canceling ==> ret == EBUSY) && (it.queued <==> ret == 0)
      && (!it.canceling && !it.queued && dest.None? ==> ret == EINVAL)
      && (!it.canceling && !it.queued && dest.Some? ==>
            var queue := QueueOf(s, dest.value);
            && (ret == ENODEV <==> !queue.started)
            && (ret == EBUSY <==> queue.started && if queue.drain then caller != dest else queue.plugged)
            && (ret == (if it.running then 2 else 1) <==> queue.started && if queue.drain then caller == dest else !queue.plugged))
      && (ret > 0 ==>
            && dest.Some? && Elsewhere(s, t, w, dest) && ItemOf(t, w) == it.(queued := true, queue := dest)
            && QueueOf(t, dest.value).pending == QueueOf(s, dest.value).pending + [Work(w, |s.fate|)]
            && !QueueOf(t, dest.value).worker.Asleep?
            && t.fate == s.fate + [Waiting(dest.value)] && t.item == s.item + [w] && t.cancels == s.cancels)
  {
    hide Inv, Tidy;
    ItemIs(s, w);
  }

  /** The list has lost its nodes of `w` and no other. */
  ghost predicate Spared(ns: seq<Node>, w: WorkId, t: seq<Node>) {
    forall n :: n in t <==> n in ns && !IsWork(n, w)
  }

  lemma NotListed(s: Sys, w: WorkId, q: QueueId)
    requires Inv(s) && !(ItemOf(s, w).queued && ItemOf(s, w).queue == Some(q))
    ensures !HasWork(QueueOf(s, q).pending, w) && Times(QueueOf(s, q).pending, w) == 0
    ensures Spared(QueueOf(s, q).pending, w, QueueOf(s, q).pending)
  {
    hide Tidy, ItemSound, WorkerSound, FateSound;
    forall n | n in QueueOf(s, q).pending ensures !IsWork(n, w) {
      assert NodeSound(s, q, n);
    }
    assert QueueSound(QueueOf(s, q));
    TidyTimes(QueueOf(s, q).pending, w);
  }

  /** A submission that waits is in the list of its queue, under its own number. */
  lemma WaitingIsListed(s: Sys, n: nat)
    requires Inv(s) && n < |s.fate| && s.fate[n].Waiting?
    ensures
      var q := s.fate[n].q;
      && n < |s.item| && Work(s.item[n], n) in QueueOf(s, q).pending
      && ItemOf(s, s.item[n]).queued && ItemOf(s, s.item[n]).queue == Some(q)
  {
    hide Tidy, ItemSound, WorkerSound, QueueSound;
    assert FateSound(s, n);
    var q := s.fate[n].q;
    var m :| m in QueueOf(s, q).pending && m.Work? && m.inst == n;
    assert NodeSound(s, q, m);
  }

  lemma CutSpares(ns: seq<Node>, p: nat, w: WorkId)
    requires p < |ns| && IsWork(ns[p], w) && Cut(ns, p, ns[..p] + ns[p + 1..])
    ensures Spared(ns, w, ns[..p] + ns[p + 1..])
  {
    var t := ns[..p] + ns[p + 1..];
    forall n | n in ns && !IsWork(n, w) ensures n in t {
      var k :| 0 <= k < |ns| && ns[k] == n;
      assert t[if k < p then k else k - 1] == n;
    }
  }

  lemma OnlyOne(s: Sys, q: QueueId, m: Node, n: Node, w: WorkId)
    requires QueueSound(QueueOf(s, q)) && m in QueueOf(s, q).pending && n in QueueOf(s, q).pending
    requires IsWork(m, w) && IsWork(n, w)
    ensures m == n
  {
    var ns := QueueOf(s, q).pending;
    var i :| 0 <= i < |ns| && ns[i] == m;
    var j :| 0 <= j < |ns| && ns[j] == n;
    assert i != j ==> i < j || j < i;
  }

  lemma CancelledOff(s: Sys, w: WorkId)
    requires Inv(s) && ItemOf(s, w).queued
    ensures ItemOf(s, w).queue.Some? && !ItemOf(s, w).canceling
    ensures
      var t, q := CancelRequested(s, w), ItemOf(s, w).queue.value;
      && Spared(QueueOf(s, q).pending, w, QueueOf(t, q).pending)
      && |t.fate| == |s.fate| == |s.item|
      && forall n | 0 <= n < |s.fate| :: t.fate[n] == if s.fate[n].Waiting? && s.item[n] == w then Cancelled else s.fate[n]
  {
    hide Tidy, Without, InstOf, WorkerSound, FateSound, QueueSound;
    ItemIs(s, w);
    var p := PlaceOfQueued(s, w);
    var t, q := CancelRequested(s, w), ItemOf(s, w).queue.value;
    var ns := QueueOf(s, q).pending;
    CutSpares(ns, p, w);
    forall n | 0 <= n < |s.fate| && s.fate[n].Waiting? && s.item[n] == w ensures n == ns[p].inst {
      WaitingIsListed(s, n);
      assert QueueSound(QueueOf(s, q));
      OnlyOne(s, q, ns[p], Work(w, n), w);
    }
  }

  lemma SameFate(s: Sys, w: WorkId)
    requires Inv(s) && !ItemOf(s, w).queued
    ensures |s.item| == |s.fate| && forall n | 0 <= n < |s.fate| && s.fate[n].Waiting? :: s.item[n] != w
  {
    forall n | 0 <= n < |s.fate| && s.fate[n].Waiting? ensures s.item[n] != w {
      WaitingIsListed(s, n);
    }
  }

  /** A cancellation takes the item off its queue and off its timer, so that just the submission
      that waited is cancelled; if the item runs, it is being cancelled until its handler is
      done.  Nothing else changes. */
  lemma CancelTells(s: Sys, w: WorkId)
    requires Inv(s)
    ensures
      var it, t := ItemOf(s, w), CancelRequested(s, w);
      && ItemOf(t, w) == it.(queued := false, delayed := false, canceling := it.running)
      && (forall q: QueueId :: Times(QueueOf(t, q).pending, w) == 0)
      && (forall q: QueueId :: Spared(QueueOf(s, q).pending, w, QueueOf(t, q).pending))
      && (forall q: QueueId :: QueueOf(t, q) == QueueOf(s, q).(pending := QueueOf(t, q).pending))
      && (forall x: WorkId | x != w :: ItemOf(t, x) == ItemOf(s, x))
      && t.cancels == s.cancels && t.item == s.item && |t.fate| == |s.fate|
      && forall n | 0 <= n < |s.fate| :: t.fate[n] == if s.fate[n].Waiting? && s.item[n] == w then Cancelled else s.fate[n]
  {
    hide Inv, Tidy, Without, InstOf, Times, Spared, HasWork;
    var it, t := ItemOf(s, w), CancelRequested(s, w);
    ItemIs(s, w);
    CancelRequestedKeeps(s, w);
    forall q: QueueId ensures Times(QueueOf(t, q).pending, w) == 0 {
      NotListed(t, w, q);
    }
    forall q: QueueId | !(it.queued && it.queue == Some(q)) ensures Spared(QueueOf(s, q).pending, w, QueueOf(s, q).pending) {
      NotListed(s, w, q);
    }
    if it.queued {
      CancelledOff(s, w);
    } else {
      SameFate(s, w);
    }
  }

  lemma WorkerIs(s: Sys, q: QueueId)
    requires Inv(s)
    ensures WorkerSound(s, q)
  {
  }

  /** A synchronous cancellation has to wait exactly if a thread is in the handler of the item. */
  lemma CancelSyncTells(s: Sys, w: WorkId)
    requires Inv(s)
    ensures
      var t, u := CancelRequested(s, w), CancelAwaited(s, w);
      && (ItemOf(u, w).canceling <==> exists q: QueueId :: Executes(QueueOf(s, q).worker, w))
      && u == t.(cancels := if ItemOf(u, w).canceling then s.cancels + [w] else s.cancels)
  {
    hide Inv, Tidy, Without, InstOf, Times, Spared, HasWork, CancelRequested;
    CancelTells(s, w);
    ItemIs(s, w);
    forall q: QueueId | Executes(QueueOf(s, q).worker, w) ensures ItemOf(s, w).running {
      WorkerIs(s, q);
    }
  }

  /** A flusher goes right behind the queued submission, or to the front of the queue that runs
      the item; there is nothing to flush exactly if the item is neither queued nor running. */
  lemma FlushTells(s: Sys, w: WorkId, f: nat)
    requires Inv(s)
    ensures
      var it := ItemOf(s, w);
      var (t, any) := Flushed(s, w, f);
      && (any <==> it.queued || it.running) && (!any ==> t == s)
      && (any ==>
            && it.queue.Some? && Elsewhere(s, t, w, it.queue) && ItemOf(t, w) == it
            && var ns, nt := QueueOf(s, it.queue.value).pending, QueueOf(t, it.queue.value).pending;
            && !QueueOf(t, it.queue.value).worker.Asleep?
            && (it.queued ==> exists p: nat, inst: nat :: p < |ns| && ns[p] == Work(w, inst)
                                && nt == ns[..p + 1] + [Flusher(f, inst)] + ns[p + 1..])
            && (!it.queued ==> exists inst: nat :: QueueOf(s, it.queue.value).worker == In(Work(w, inst))
                                && nt == [Flusher(f, inst)] + ns))
  {
    hide Inv, Tidy, Without, InstOf, Cut, HasWork, InsertedAfter;
    ItemIs(s, w);
    if ItemOf(s, w).queued {
      var p := PlaceOfQueued(s, w);
      var ns := QueueOf(s, ItemOf(s, w).queue.value).pending;
      InsertAt(ns, w, p, Flusher(f, ns[p].inst));
      assert ns[p] == Work(w, ns[p].inst);
    }
  }

  /** When a flusher's semaphore is given, the submission that was the last one when
      the flush was asked for has finished or was cancelled off its queue. */
  lemma FlushMeansOver(states: seq<Sys>, steps: seq<Step>, i: nat)
    requires IsRun(states, steps) && i < |steps| && steps[i].WorkerFinishes?
    requires QueueOf(states[i], steps[i].q).worker.node.Flusher?
    ensures
      var inst := QueueOf(states[i], steps[i].q).worker.node.inst;
      inst < |states[i].fate| && Over(states[i].fate[inst])
  {
    RunKeeps(states, steps, i);
    assert WorkerSound(states[i], steps[i].q);
  }

  /** A flush is for the last submission of its item: the queued one, else the one
      being executed. */
  lemma FlushTargetsTheLast(s: Sys, w: WorkId, f: nat)
    requires Inv(s) && (ItemOf(s, w).queued || ItemOf(s, w).running)
    ensures Flushed(s, w, f).1 && ItemOf(s, w).queue.Some?
    ensures
      var q := ItemOf(s, w).queue.value;
      exists inst: nat ::
        && Flusher(f, inst) in QueueOf(Flushed(s, w, f).0, q).pending
        && (if ItemOf(s, w).queued then Work(w, inst) in QueueOf(s, q).pending
            else QueueOf(s, q).worker == In(Work(w, inst)))
  {
    assert ItemSound(s, w);
    var q := ItemOf(s, w).queue.value;
    var ns := QueueOf(s, q).pending;
    if ItemOf(s, w).queued {
      var p := PlaceOfQueued(s, w);
      InsertAt(ns, w, p, Flusher(f, ns[p].inst));
      assert (ns[..p + 1] + [Flusher(f, ns[p].inst)] + ns[p + 1..])[p + 1] == Flusher(f, ns[p].inst);
      assert Work(w, ns[p].inst) in ns;
    } else {
      var inst := QueueOf(s, q).worker.node.inst;
      assert ([Flusher(f, inst)] + ns)[0] == Flusher(f, inst);
    }
  }

  /** The life of a submission: it waits, and then either is cancelled or is executed
      once and finishes. */
  ghost predicate Advances(a: Fate, b: Fate) {
    b == a || (a.Waiting? && (b == Executing(a.q) || b.Cancelled?)) || (a.Executing? && b.Finished?)
  }

  lemma FateAdvances(s: Sys, step: Step, i: nat)
    requires Inv(s) && Enabled(s, step) && i < |s.fate|
    ensures i < |After(s, step).fate| && Advances(s.fate[i], After(s, step).fate[i])
  {
    hide InsertedAfter, Without, QueueSound, FateSound;
    match step {
      case Cancel(w) => if ItemOf(s, w).queued { var p := PlaceOfQueued(s, w); }
      case CancelSync(w) => if ItemOf(s, w).queued { var p := PlaceOfQueued(s, w); }
      case WorkerLooks(q) =>
        var ns := QueueOf(s, q).pending;
        assert ns != [] ==> ns[0] in ns && NodeSound(s, q, ns[0]);
      case WorkerFinishes(q) => assert WorkerSound(s, q);
      case _ =>
    }
  }

  /** Over a run: nothing that was over or has begun can begin again. */
  ghost predicate Later(a: Fate, b: Fate) {
    b == a || (a.Waiting? && !b.Waiting?) || (a.Executing? && b.Finished?)
  }

  /** Every submission is executed at most once, and not after it was cancelled. */
  lemma {:induction false} ExecutedAtMostOnce(states: seq<Sys>, steps: seq<Step>, i: nat, j: nat, n: nat)
    requires IsRun(states, steps) && i <= j < |states| && n < |states[i].fate|
    ensures n < |states[j].fate| && Later(states[i].fate[n], states[j].fate[n])
  {
    hide Inv, After;
    if i < j {
      ExecutedAtMostOnce(states, steps, i, j - 1, n);
      RunKeeps(states, steps, j - 1);
      FateAdvances(states[j - 1], steps[j - 1], n);
    }
  }

  /** What an awake thread does when it looks at its queue: it takes the first node, and an item in
      it is then running and no longer queued; with nothing there it releases whoever waits for
      a drain, or ends if it is asked to stop, and else sleeps. */
  lemma LookTells(s: Sys, q: QueueId)
    requires Inv(s) && QueueOf(s, q).worker.Awake?
    ensures
      var a, b := QueueOf(s, q), QueueOf(WorkerLooked(s, q), q);
      && (a.pending != [] ==> b == a.(pending := a.pending[1..], worker := In(a.pending[0])))
      && (a.pending != [] && a.pending[0].Work? ==>
            var w := a.pending[0].w;
            && Elsewhere(s, WorkerLooked(s, q), w, Some(q))
            && ItemOf(WorkerLooked(s, q), w) == ItemOf(s, w).(queued := false, running := true))
      && (a.pending == [] || a.pending[0].Flusher? ==>
            forall x: WorkId :: ItemOf(WorkerLooked(s, q), x) == ItemOf(s, x))
      && (a.pending == [] && a.drain ==> b == a.(drain := false, drainers := 0, worker := Asleep, sealed := a.plugged))
      && (a.pending == [] && !a.drain && a.stop ==> b == UNSTARTED)
      && (a.pending == [] && !a.drain && !a.stop ==> b == a.(worker := Asleep))
      && WorkerLooked(s, q).cancels == s.cancels
  {
    hide Inv, Tidy;
  }

  lemma FirstRecord(cancels: seq<WorkId>, w: WorkId) returns (i: nat)
    ensures i <= |cancels| && w !in cancels[..i] && (i < |cancels| ==> cancels[i] == w) && (i == |cancels| <==> w !in cancels)
  {
    i := 0;
    while i < |cancels| && cancels[i] != w
      invariant i <= |cancels| && w !in cancels[..i]
    {
      i := i + 1;
    }
    assert cancels[..|cancels|] == cancels;
  }

  lemma {:induction false} ReleasedAt(cancels: seq<WorkId>, w: WorkId, i: nat)
    requires i <= |cancels| && forall k | 0 <= k < i :: cancels[k] != w
    requires i < |cancels| ==> cancels[i] == w
    ensures FirstReleased(cancels, w) == if i < |cancels| then cancels[..i] + cancels[i + 1..] else cancels
  {
    if i > 0 {
      ReleasedAt(cancels[1..], w, i - 1);
      if i < |cancels| { assert cancels[..i] == [cancels[0]] + cancels[1..][..i - 1]; }
    }
  }

  /** When a handler is done its item is neither running nor being cancelled.  If it was being
      cancelled, the first record of a thread that waits for that is dropped, and no other. */
  lemma FinishTells(s: Sys, q: QueueId)
    requires Inv(s) && QueueOf(s, q).worker.In?
    ensures
      var n, t := QueueOf(s, q).worker.node, WorkerFinished(s, q);
      && QueueOf(t, q) == QueueOf(s, q).(worker := Awake)
      && (n.Flusher? ==> t.cancels == s.cancels && forall x: WorkId :: ItemOf(t, x) == ItemOf(s, x))
      && (n.Work? ==>
            && Elsewhere(s, t, n.w, Some(q)) && ItemOf(t, n.w) == ItemOf(s, n.w).(running := false, canceling := false)
            && (!ItemOf(s, n.w).canceling || n.w !in s.cancels ==> t.cancels == s.cancels)
            && (ItemOf(s, n.w).canceling && n.w in s.cancels ==>
                  exists i :: 0 <= i < |s.cancels| && s.cancels[i] == n.w && n.w !in s.cancels[..i]
                              && t.cancels == s.cancels[..i] + s.cancels[i + 1..]))
  {
    hide Inv, Tidy, FirstReleased;
    var n := QueueOf(s, q).worker.node;
    if n.Work? && ItemOf(s, n.w).canceling {
      var i := FirstRecord(s.cancels, n.w);
      ReleasedAt(s.cancels, n.w, i);
    }
  }

  /** Over every run: once a cancellation of an item has been asked for, no submission of it from
      before begins to execute. */
  lemma CancelStops(states: seq<Sys>, steps: seq<Step>, k: nat, j: nat, w: WorkId, n: nat)
    requires IsRun(states, steps) && k < |steps| && k < j < |states| && (steps[k] == Cancel(w) || steps[k] == CancelSync(w))
    requires n < |states[k].fate| && n < |states[k].item| && states[k].item[n] == w
    ensures n < |states[j].fate| && !states[j].fate[n].Waiting?
    ensures states[j].fate[n].Executing? ==> states[k].fate[n].Executing?
  {
    hide Inv, CancelRequested;
    RunKeeps(states, steps, k);
    CancelTells(states[k], w);
    assert Enabled(states[k], steps[k]) && states[k + 1] == After(states[k], steps[k]);
    ExecutedAtMostOnce(states, steps, k + 1, j, n);
  }

  lemma BegunIsFirst(s: Sys, step: Step, m: nat)
    requires Inv(s) && Enabled(s, step) && m < |s.fate| && s.fate[m].Waiting?
    requires m < |After(s, step).fate| && After(s, step).fate[m].Executing?
    ensures
      var ns := QueueOf(s, s.fate[m].q).pending;
      step == WorkerLooks(s.fate[m].q) && ns != [] && ns[0] == Work(s.item[m], m)
  {
    hide Tidy, HasWork, HasInst, ItemSound;
    if step.WorkerLooks? {
      var ns := QueueOf(s, step.q).pending;
      assert ns != [] ==> NodeSound(s, step.q, ns[0]);
    }
  }

  lemma FirstIsEarliest(s: Sys, q: QueueId, n: nat)
    requires Inv(s) && QueueOf(s, q).pending != [] && QueueOf(s, q).pending[0].Work?
    requires exists w: WorkId :: Work(w, n) in QueueOf(s, q).pending
    ensures QueueOf(s, q).pending[0].inst <= n
  {
    hide NodeSound, WorkerSound, ItemSound, FateSound;
    var ns := QueueOf(s, q).pending;
    assert QueueSound(QueueOf(s, q));
    var w: WorkId :| Work(w, n) in ns;
    var k :| 0 <= k < |ns| && ns[k] == Work(w, n);
    assert k > 0 ==> ns[0].inst < ns[k].inst;
  }

  /** The thread of a queue takes the first submission in the list. */
  lemma TakesTheEarlier(s: Sys, step: Step, n: nat, m: nat)
    requires Inv(s) && Enabled(s, step) && n < m < |s.fate| && s.fate[n].Waiting? && s.fate[m] == s.fate[n]
    ensures m < |After(s, step).fate| && After(s, step).fate[m].Executing? ==> !After(s, step).fate[n].Waiting?
  {
    hide Inv, After, Tidy;
    FateAdvances(s, step, m);
    FateAdvances(s, step, n);
    WaitingIsListed(s, n);
    WaitingIsListed(s, m);
    if After(s, step).fate[m].Executing? {
      BegunIsFirst(s, step, m);
      FirstIsEarliest(s, s.fate[m].q, n);
    }
  }

  /** Over every run the submissions that wait in a queue are begun in the order in which they were
      made: while the earlier of two waits, the later is not begun. */
  lemma {:induction false} BegunInOrder(states: seq<Sys>, steps: seq<Step>, i: nat, j: nat, n: nat, m: nat)
    requires IsRun(states, steps) && i <= j < |states| && n < m < |states[i].fate|
    requires states[i].fate[n].Waiting? && states[i].fate[m] == states[i].fate[n]
    ensures m < |states[j].fate|
    ensures states[j].fate[n].Waiting? ==> states[j].fate[n] == states[i].fate[n]
    ensures states[j].fate[m].Waiting? ==> states[j].fate[m] == states[i].fate[m]
    ensures states[j].fate[n].Waiting? ==> states[j].fate[m].Waiting? || states[j].fate[m].Cancelled?
  {
    hide Inv, After;
    if i < j {
      BegunInOrder(states, steps, i, j - 1, n, m);
      RunKeeps(states, steps, j - 1);
      var s, step := states[j - 1], steps[j - 1];
      FateAdvances(s, step, n);
      FateAdvances(s, step, m);
      if s.fate[n].Waiting? && s.fate[m].Waiting? {
        TakesTheEarlier(s, step, n, m);
      }
    }
  }

  lemma SoundQueue(s: Sys, q: QueueId)
    requires Inv(s)
    ensures QueueSound(QueueOf(s, q))
  {
  }

  /** The flags of the two queues are the same. */
  ghost predicate SameFlags(a: Queue, b: Queue) {
    a.started == b.started && a.drain == b.drain && a.plugged == b.plugged && a.stop == b.stop && a.drainers == b.drainers
  }

  lemma FlagsOfSubmit(s: Sys, w: WorkId, wanted: Option<QueueId>, caller: Option<QueueId>, q: QueueId)
    ensures SameFlags(QueueOf(s, q), QueueOf(Submitted(s, w, wanted, caller).0, q))
  {
  }

  lemma FlagsOfItemStep(s: Sys, w: WorkId, f: nat, q: QueueId)
    ensures SameFlags(QueueOf(s, q), QueueOf(Flushed(s, w, f).0, q))
    ensures SameFlags(QueueOf(s, q), QueueOf(CancelRequested(s, w), q)) && SameFlags(QueueOf(s, q), QueueOf(CancelAwaited(s, w), q))
  {
    hide InsertedAfter, InstOf, Without;
  }

  /** A queue stops exactly when its thread was asked to, has nothing pending and no drain to do;
      and it is started exactly by a start. */
  ghost predicate FlagsTell(a: Queue, step: Step, q: QueueId, b: Queue) {
    && (a.started && !b.started <==> step == WorkerLooks(q) && a.started && a.stop && a.pending == [] && !a.drain)
    && (!a.started && b.started <==> step == Start(q))
    && (!a.stop && b.stop <==> step == Stop(q) && a.started && a.plugged && !a.stop)
    && (a.plugged && !b.plugged ==> step == Unplug(q) || step == Start(q) || (step == WorkerLooks(q) && a.stop))
    && (!a.plugged && b.plugged <==> step == Drain(q, true) && !a.plugged)
  }

  /** A step about an item, the only ones that have one. */
  ghost predicate OfItem(step: Step) {
    step.Submit? || step.Flush? || step.Cancel? || step.CancelSync? || step.Schedule? || step.Unschedule? || step.Timeout?
  }

  lemma ItemStepFlags(s: Sys, step: Step, q: QueueId)
    requires Enabled(s, step) && OfItem(step)
    ensures FlagsTell(QueueOf(s, q), step, q, QueueOf(After(s, step), q))
  {
    hide Submitted, Flushed, CancelRequested, CancelAwaited;
    match step {
      case Submit(w, wanted, caller) => FlagsOfSubmit(s, w, wanted, caller, q);
      case Flush(w, f) => FlagsOfItemStep(s, w, f, q);
      case Cancel(w) => FlagsOfItemStep(s, w, 0, q);
      case CancelSync(w) => FlagsOfItemStep(s, w, 0, q);
      case Timeout(w, wanted) => FlagsOfSubmit(Undelayed(s, w), w, wanted, None, q);
      case Schedule(w) =>
      case Unschedule(w) =>
    }
  }

  lemma WorkerStepFlags(s: Sys, step: Step, q: QueueId)
    requires QueueSound(QueueOf(s, q)) && Enabled(s, step) && (step.WorkerLooks? || step.WorkerFinishes?)
    ensures FlagsTell(QueueOf(s, q), step, q, QueueOf(After(s, step), q))
  {
  }

  lemma QueueStepFlags(s: Sys, step: Step, q: QueueId)
    requires QueueSound(QueueOf(s, q)) && Enabled(s, step) && !OfItem(step) && !step.WorkerLooks? && !step.WorkerFinishes?
    ensures FlagsTell(QueueOf(s, q), step, q, QueueOf(After(s, step), q))
  {
  }

  lemma StoppedIff(s: Sys, step: Step, q: QueueId)
    requires Inv(s) && Enabled(s, step)
    ensures FlagsTell(QueueOf(s, q), step, q, QueueOf(After(s, step), q))
  {
    hide Inv, After, FlagsTell, QueueSound, Enabled;
    SoundQueue(s, q);
    if OfItem(step) {
      ItemStepFlags(s, step, q);
    } else if step.WorkerLooks? || step.WorkerFinishes? {
      WorkerStepFlags(s, step, q);
    } else {
      QueueStepFlags(s, step, q);
    }
  }

  /** What the calls on a queue tell.  A drain waits exactly if there is something to wait for or to
      plug, and then the thread is awake to do it; an unplug says whether the queue was plugged;
      a stop is refused unless the queue is started and plugged. */
  lemma QueueCallsTell(s: Sys, q: QueueId, plug: bool)
    requires Inv(s)
    ensures
      var a := QueueOf(s, q);
      var (d, waits) := DrainRequested(s, q, plug);
      var (u, was) := Unplugged(s, q);
      var (p, ret) := StopRequested(s, q);
      && (waits <==> a.worker.In? || a.drain || plug || a.pending != []) && (!waits ==> d == s)
      && (waits ==> QueueOf(d, q).drain && QueueOf(d, q).drainers == a.drainers + 1 && !QueueOf(d, q).worker.Asleep?
                    && QueueOf(d, q).plugged == (a.plugged || plug) && QueueOf(d, q).pending == a.pending)
      && was == (if a.plugged then 0 else EALREADY) && !QueueOf(u, q).plugged && QueueOf(u, q).pending == a.pending
      && (ret == EALREADY <==> !a.started) && (ret == EBUSY <==> a.started && !a.plugged) && (ret == 0 <==> a.started && a.plugged)
      && (ret != 0 ==> p == s) && (ret == 0 ==> QueueOf(p, q).stop && !QueueOf(p, q).worker.Asleep?)
      && !QueueOf(StopAbandoned(s, q), q).stop
  {
    hide Inv, Tidy;
    SoundQueue(s, q);
  }

  /** A scheduled item is submitted when its timer expires, as if it were then; one that was
      unscheduled or cancelled in between is not. */
  lemma TimerSubmits(s: Sys, w: WorkId, wanted: Option<QueueId>)
    requires Inv(s)
    ensures TimeoutFired(Delayed(s, w), w, wanted) == Submitted(Undelayed(s, w), w, wanted, None).0
    ensures ItemOf(Delayed(s, w), w) == ItemOf(s, w).(delayed := true) && ItemOf(Undelayed(s, w), w) == ItemOf(s, w).(delayed := false)
    ensures Elsewhere(s, Delayed(s, w), w, None) && Elsewhere(s, Undelayed(s, w), w, None)
    ensures TimeoutFired(Undelayed(s, w), w, wanted) == Undelayed(s, w)
    ensures TimeoutFired(CancelRequested(s, w), w, wanted) == CancelRequested(s, w)
  {
    hide Inv, Submitted, CancelRequested, Spared, Times;
    CancelTells(s, w);
    assert Undelayed(Delayed(s, w), w) == Undelayed(s, w);
  }

  lemma SubmitKeepsDrainers(s: Sys, w: WorkId, wanted: Option<QueueId>, caller: Option<QueueId>, q: QueueId)
    ensures QueueOf(Submitted(s, w, wanted, caller).0, q).drainers == QueueOf(s, q).drainers
  {
  }

  lemma ItemStepKeepsDrainers(s: Sys, w: WorkId, f: nat, q: QueueId)
    ensures QueueOf(Flushed(s, w, f).0, q).drainers == QueueOf(s, q).drainers
    ensures QueueOf(CancelAwaited(s, w), q).drainers == QueueOf(CancelRequested(s, w), q).drainers == QueueOf(s, q).drainers
  {
    hide InsertedAfter, InstOf, Without;
  }

  /** What makes the threads go that wait for a drain. */
  lemma DrainersGo(s: Sys, step: Step, q: QueueId)
    requires QueueSound(QueueOf(s, q)) && Enabled(s, step) && QueueOf(s, q).drainers > 0
    ensures QueueOf(After(s, step), q).drainers == 0 <==>
            step == Start(q) || (step == WorkerLooks(q) && QueueOf(s, q).pending == [])
  {
    hide Submitted, Flushed, CancelRequested, CancelAwaited, Tidy;
    match step {
      case Submit(w, wanted, caller) => SubmitKeepsDrainers(s, w, wanted, caller, q);
      case Flush(w, f) => ItemStepKeepsDrainers(s, w, f, q);
      case Cancel(w) => ItemStepKeepsDrainers(s, w, 0, q);
      case CancelSync(w) => ItemStepKeepsDrainers(s, w, 0, q);
      case Timeout(w, wanted) => SubmitKeepsDrainers(Undelayed(s, w), w, wanted, None, q);
      case _ =>
    }
  }

  /** Over every run, threads that wait for a drain are released only by a queue that is
      empty and idle.  The other way they disappear is that the queue is started under
      them, which makes its wait queue anew: they were waiting on one that is not running. */
  lemma DrainMeansEmpty(states: seq<Sys>, steps: seq<Step>, i: nat, q: QueueId)
    requires IsRun(states, steps) && i < |steps| && QueueOf(states[i], q).drainers > 0
    ensures QueueOf(states[i + 1], q).drainers == 0 <==>
            steps[i] == Start(q) || (steps[i] == WorkerLooks(q) && QueueOf(states[i], q).pending == [])
    ensures steps[i] == WorkerLooks(q) && QueueOf(states[i + 1], q).drainers == 0 ==>
      var before, after := QueueOf(states[i], q), QueueOf(states[i + 1], q);
      before.pending == after.pending == [] && after.worker.Asleep? && !after.drain && after.sealed == before.plugged
    ensures steps[i] == Start(q) ==> !QueueOf(states[i], q).started
  {
    hide Tidy, Inv, Submitted, Flushed, CancelRequested, CancelAwaited, TimeoutFired;
    RunKeeps(states, steps, i);
    SoundQueue(states[i], q);
    DrainersGo(states[i], steps[i], q);
  }

  lemma SealedRejects(s: Sys, q: QueueId, w: WorkId, wanted: Option<QueueId>, caller: Option<QueueId>)
    requires QueueSound(QueueOf(s, q)) && QueueOf(s, q).sealed
    requires caller == Some(q) ==> QueueOf(s, q).worker.In?
    ensures QueueOf(Submitted(s, w, wanted, caller).0, q) == QueueOf(s, q)
  {
  }

  lemma SealedHasNothing(s: Sys, q: QueueId, w: WorkId)
    requires Inv(s) && QueueOf(s, q).sealed && ItemOf(s, w).queue == Some(q)
    ensures !ItemOf(s, w).queued && !ItemOf(s, w).running
  {
    assert QueueSound(QueueOf(s, q)) && ItemSound(s, w);
  }

  lemma SealedIsIdle(s: Sys, q: QueueId)
    requires Inv(s) && QueueOf(s, q).sealed
    ensures QueueOf(s, q).pending == [] && !QueueOf(s, q).worker.In? && QueueOf(s, q).started && QueueOf(s, q).plugged
  {
    assert QueueSound(QueueOf(s, q));
  }

  /** After a plugged drain a queue stays empty, whatever is submitted or flushed, up
      to an unplug or the exit of its thread on a stop. */
  lemma PluggedStaysEmpty(s: Sys, step: Step, q: QueueId)
    requires Inv(s) && Enabled(s, step) && QueueOf(s, q).sealed
    requires step != Unplug(q) && !(step == WorkerLooks(q) && QueueOf(s, q).stop && !QueueOf(s, q).drain)
    ensures QueueOf(After(s, step), q).sealed && QueueOf(After(s, step), q).pending == []
  {
    SealedIsIdle(s, q);
    assert QueueSound(QueueOf(s, q));
    match step {
      case Submit(w, wanted, caller) => SealedRejects(s, q, w, wanted, caller);
      case Timeout(w, wanted) => SealedRejects(Undelayed(s, w), q, w, wanted, None);
      case Flush(w, f) => if ItemOf(s, w).queue == Some(q) { SealedHasNothing(s, q, w); }
      case Cancel(w) => if ItemOf(s, w).queue == Some(q) { SealedHasNothing(s, q, w); }
      case CancelSync(w) => if ItemOf(s, w).queue == Some(q) { SealedHasNothing(s, q, w); }
      case _ =>
    }
  }

  /** The same from state `i` to state `j` of a run. */
  lemma {:induction false} PluggedStaysEmptyOverARun(states: seq<Sys>, steps: seq<Step>, i: nat, j: nat, q: QueueId)
    requires IsRun(states, steps) && i <= j < |states| && QueueOf(states[i], q).sealed
    requires forall k | i <= k < j ::
      steps[k] != Unplug(q) && !(steps[k] == WorkerLooks(q) && QueueOf(states[k], q).stop && !QueueOf(states[k], q).drain)
    ensures QueueOf(states[j], q).sealed && QueueOf(states[j], q).pending == []
  {
    hide Inv, After;
    RunKeeps(states, steps, j);
    if i < j {
      PluggedStaysEmptyOverARun(states, steps, i, j - 1, q);
      RunKeeps(states, steps, j - 1);
      PluggedStaysEmpty(states[j - 1], steps[j - 1], q);
    } else {
      SealedIsIdle(states[i], q);
    }
  }

  lemma {:induction false} FirstReleasedCount(cancels: seq<WorkId>, w: WorkId)
    ensures
      var n := multiset(cancels)[w];
      multiset(FirstReleased(cancels, w))[w] == if n == 0 then 0 else n - 1
  {
    if cancels != [] {
      assert cancels == [cancels[0]] + cancels[1..];
      if cancels[0] != w { FirstReleasedCount(cancels[1..], w); }
    }
  }

  /** Finishing a cancelled item releases every thread that waits for it exactly when
      at most one does, although the item is then no longer being cancelled. */
  lemma CancellersReleasedIffOne(s: Sys, q: QueueId)
    requires QueueOf(s, q).worker.In? && QueueOf(s, q).worker.node.Work?
    requires ItemOf(s, QueueOf(s, q).worker.node.w).canceling
    ensures
      var w := QueueOf(s, q).worker.node.w;
      var t := WorkerFinished(s, q);
      && !ItemOf(t, w).canceling
      && (w !in t.cancels <==> multiset(s.cancels)[w] <= 1)
  {
    FirstReleasedCount(s.cancels, QueueOf(s, q).worker.node.w);
    var t := WorkerFinished(s, q);
    assert QueueOf(s, q).worker.node.w in t.cancels <==> QueueOf(s, q).worker.node.w in multiset(t.cancels);
  }

  /** Two threads cancel a running item and wait: when its handler is done the second
      still waits, although the item is no longer being cancelled. */
  lemma SecondCancellerIsForgotten(s: Sys, q: QueueId, w: WorkId)
    requires Inv(s) && QueueOf(s, q).worker.In? && IsWork(QueueOf(s, q).worker.node, w) && w !in s.cancels
    ensures
      var t := CancelAwaited(CancelAwaited(s, w), w);
      && QueueOf(t, q).worker == QueueOf(s, q).worker
      && w in WorkerFinished(t, q).cancels && !ItemOf(WorkerFinished(t, q), w).canceling
  {
    var t := CancelAwaited(CancelAwaited(s, w), w);
    assert WorkerSound(s, q) && ItemSound(s, w);
    assert ItemOf(CancelAwaited(s, w), w).canceling;
    assert t.cancels == s.cancels + [w] + [w];
    assert multiset(t.cancels)[w] >= 2;
    CancellersReleasedIffOne(t, q);
  }

  // ----- The same, in place -----

  /** All work items and queues, as the source updates them. */
  class WorkQueues {
    var items: map<WorkId, Item>
    var queues: map<QueueId, Queue>
    var cancels: seq<WorkId>       // pending_cancels
    var fate: seq<Fate>            // what became of each submission; not in the source
    var item: seq<WorkId>          // whose it was; not in the source

    function View(): Sys
      reads this
    {
      Sys(items, queues, cancels, fate, item)
    }

    ghost predicate Valid()
      reads this
    {
      Inv(View())
    }

    constructor ()
      ensures Valid() && View() == NOTHING
    {
      items, queues, cancels, fate, item := map[], map[], [], [], [];
      new;
      RunKeeps([View()], [], 0);
    }

    /** queue_submit_locked(). */
    method QueueSubmitLocked(dest: Option<QueueId>, w: WorkId, caller: Option<QueueId>) returns (ret: int)
      modifies this`queues, this`fate, this`item
      ensures ret == if dest.None? then EINVAL else Admission(QueueOf(old(View()), dest.value), caller == dest)
      ensures ret < 0 ==> View() == old(View())
      ensures ret >= 0 ==>
        var queue := QueueOf(old(View()), dest.value);
        && queues == old(queues)[dest.value := Notified(queue.(pending := queue.pending + [Work(w, |old(fate)|)]))]
        && fate == old(fate) + [Waiting(dest.value)] && item == old(item) + [w]
    {
      if dest.None? {
        return EINVAL;
      }
      var queue := QueueOf(View(), dest.value);
      var chained := caller == dest;
      if !queue.started {
        ret := ENODEV;
      } else if queue.drain && !chained {
        ret := EBUSY;
      } else if queue.plugged && !queue.drain {
        ret := EBUSY;
      } else {
        queue := queue.(pending := queue.pending + [Work(w, |fate|)]);
        fate, item := fate + [Waiting(dest.value)], item + [w];
        ret := 1;
        queues := queues[dest.value := Notified(queue)];
      }
    }

    /** submit_to_queue_locked(). */
    method SubmitToQueueLocked(w: WorkId, wanted: Option<QueueId>, caller: Option<QueueId>) returns (ret: int)
      requires Valid() && (caller.Some? ==> QueueOf(View(), caller.value).worker.In?)
      modifies this`items, this`queues, this`fate, this`item
      ensures Valid() && (View(), ret) == Submitted(old(View()), w, wanted, caller)
    {
      SubmittedKeeps(View(), w, wanted, caller);
      var it := ItemOf(View(), w);
      if it.canceling {
        ret := EBUSY;
      } else if !it.queued {
        ret := 1;
        var dest := wanted;
        if dest.None? {
          dest := it.queue;
        }
        if it.running {
          dest := it.queue;
          ret := 2;
        }
        var rc := QueueSubmitLocked(dest, w, caller);
        if rc < 0 {
          ret := rc;
        } else {
          items := items[w := it.(queued := true, queue := dest)];
        }
      } else {
        ret := 0;
      }
    }

    /** The walk along a pending list to the node of a work item. */
    method Find(ns: seq<Node>, w: WorkId) returns (p: nat)
      requires HasWork(ns, w)
      ensures p < |ns| && IsWork(ns[p], w) && forall k | 0 <= k < p :: !IsWork(ns[k], w)
    {
      ghost var n :| n in ns && IsWork(n, w);
      p := 0;
      while !IsWork(ns[p], w)
        invariant p < |ns| && n in ns[p..]
        invariant forall k | 0 <= k < p :: !IsWork(ns[k], w)
        decreases |ns| - p
      {
        p := p + 1;
      }
    }

    /** work_flush_locked(), with the search of the list for the queued item. */
    method WorkFlushLocked(w: WorkId, f: nat) returns (needFlush: bool)
      requires Valid()
      modifies this`queues
      ensures Valid() && (View(), needFlush) == Flushed(old(View()), w, f)
    {
      FlushedKeeps(View(), w, f);
      var it := ItemOf(View(), w);
      needFlush := it.queued || it.running;
      assert ItemSound(View(), w);
      if needFlush {
        var q := it.queue.value;
        var queue := QueueOf(View(), q);
        if it.queued {
          var p := Find(queue.pending, w);
          var flusher := Flusher(f, queue.pending[p].inst);
          InsertAt(queue.pending, w, p, flusher);
          WithoutAt(queue.pending, w, p);
          queue := queue.(pending := queue.pending[..p + 1] + [flusher] + queue.pending[p + 1..]);
        } else {
          queue := queue.(pending := [Flusher(f, queue.worker.node.inst)] + queue.pending);
        }
        queues := queues[q := Notified(queue)];
      }
    }

    /** unschedule_locked() and cancel_async_locked(); tells whether the item is busy. */
    method CancelAsyncLocked(w: WorkId) returns (busy: bool)
      requires Valid()
      modifies this`items, this`queues, this`fate
      ensures Valid() && View() == CancelRequested(old(View()), w)
      ensures busy == ItemOf(View(), w).running
    {
      CancelRequestedKeeps(View(), w);
      var it := ItemOf(View(), w).(delayed := false);
      assert ItemSound(View(), w);
      if it.queued {
        ghost var at := PlaceOfQueued(View(), w);
      }
      if !it.canceling && it.queued {
        var q := it.queue.value;
        var queue := QueueOf(View(), q);
        var p := Find(queue.pending, w);
        WithoutAt(queue.pending, w, p);
        fate := fate[queue.pending[p].inst := Cancelled];
        queues := queues[q := queue.(pending := queue.pending[..p] + queue.pending[p + 1..])];
        it := it.(queued := false);
      }
      busy := it.running;
      if busy {
        it := it.(canceling := true);
      }
      items := items[w := it];
    }

    /** k_work_cancel_sync() up to where it waits. */
    method CancelSync(w: WorkId) returns (needWait: bool)
      requires Valid()
      modifies this
      ensures Valid() && View() == CancelAwaited(old(View()), w)
      ensures needWait == ItemOf(View(), w).canceling
    {
      var _ := CancelAsyncLocked(w);
      OtherKeep(View(), w, false, cancels + [w]);
      needWait := ItemOf(View(), w).canceling;
      if needWait {
        cancels := cancels + [w];
      }
    }

    /** work_queue_main() up to the handler call or the end of its wait. */
    method WorkerLook(q: QueueId) returns (node: Option<Node>)
      requires Valid() && QueueOf(View(), q).worker.Awake?
      modifies this`items, this`queues, this`fate
      ensures Valid() && View() == WorkerLooked(old(View()), q)
      ensures node == if QueueOf(View(), q).worker.In? then Some(QueueOf(View(), q).worker.node) else None
    {
      WorkerLookedKeeps(View(), q);
      var queue := QueueOf(View(), q);
      if queue.pending != [] {
        assert NodeSound(View(), q, queue.pending[0]);
      }
      if queue.pending != [] {
        var n := queue.pending[0];
        node := Some(n);
        queues := queues[q := queue.(pending := queue.pending[1..], worker := In(n))];
        if n.Work? {
          items := items[n.w := ItemOf(View(), n.w).(queued := false, running := true)];
          fate := fate[n.inst := Executing(q)];
        }
      } else {
        node := None;
        if queue.drain {
          queue := queue.(drain := false, drainers := 0, worker := Asleep, sealed := queue.plugged);
        } else if queue.stop {
          queue := UNSTARTED;
        } else {
          queue := queue.(worker := Asleep);
        }
        queues := queues[q := queue];
      }
    }

    /** The search of finalize_cancel_locked(). */
    method FinalizeCancelLocked(w: WorkId)
      modifies this`cancels
      ensures cancels == FirstReleased(old(cancels), w)
    {
      var i := 0;
      while i < |cancels| && cancels[i] != w
        invariant 0 <= i <= |cancels| && forall k | 0 <= k < i :: cancels[k] != w
        modifies {}
      {
        i := i + 1;
      }
      ReleasedAt(cancels, w, i);
      if i < |cancels| {
        cancels := cancels[..i] + cancels[i + 1..];
      }
    }

    /** work_queue_main() after the handler. */
    method WorkerFinish(q: QueueId)
      requires Valid() && QueueOf(View(), q).worker.In?
      modifies this
      ensures Valid() && View() == WorkerFinished(old(View()), q)
    {
      WorkerFinishedKeeps(View(), q);
      assert WorkerSound(View(), q);
      var queue := QueueOf(View(), q);
      match queue.worker.node {
        case Work(w, inst) =>
          var it := ItemOf(View(), w).(running := false);
          if it.canceling {
            it := it.(canceling := false);
            FinalizeCancelLocked(w);
          }
          items := items[w := it];
          fate := fate[inst := Finished];
        case Flusher(_, _) =>
      }
      queues := queues[q := queue.(worker := Awake)];
    }

    /** k_work_queue_drain() up to where it waits. */
    method QueueDrain(q: QueueId, plug: bool) returns (wait: bool)
      requires Valid()
      modifies this`queues
      ensures Valid() && (View(), wait) == DrainRequested(old(View()), q, plug)
    {
      QueueStepKeeps(View(), q, plug);
      var queue := QueueOf(View(), q);
      wait := queue.worker.In? || queue.drain || plug || queue.pending != [];
      if wait {
        queue := queue.(drain := true);
        if plug {
          queue := queue.(plugged := true);
        }
        queues := queues[q := Notified(queue.(drainers := queue.drainers + 1))];
      }
    }
  }
}

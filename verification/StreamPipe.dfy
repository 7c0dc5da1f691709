/**
 The pipe of kernel/pipe.c, which drops its lock while a thread waits: a protocol whose
 steps, each under the lock, interleave in any order.
 */
module StreamPipe {

  import opened WaitQueue

  type Byte = int

  /** A byte together with the call that it belongs to. */
  datatype Tagged = Tagged(call: nat, byte: Byte)

  /** A call of k_pipe_read() with what it has received, and one of k_pipe_write() with
      how much of its data the pipe has accepted. */
  datatype Reader = Reader(call: nat, prio: int, got: seq<Byte>, len: nat)
  datatype Writer = Writer(call: nat, prio: int, bytes: seq<Byte>, written: nat)

  /** A thread that was taken off a wait queue and has not run since. */
  datatype Woken = WokenReader(reader: Reader, timedOut: bool) | WokenWriter(writer: Writer, timedOut: bool)

  /** `waiting` and the two flags are those of struct k_pipe.  `accepted` are the bytes
      taken from writers except those that a reset threw away, `delivered` those given to
      readers; `next` numbers the calls; `lost` are those that had a byte in the ring when it
      was reset.  The source keeps none of these four. */
  datatype State = State(size: nat, ring: seq<Byte>, open: bool, resetting: bool, waiting: nat,
                         data: seq<Reader>, space: seq<Writer>, woken: map<nat, Woken>,
                         accepted: seq<Tagged>, delivered: seq<Tagged>, next: nat, lost: set<nat>)

  datatype Ret = Blocks | Wrote(count: nat) | Got(bytes: seq<Byte>) | Again | Canceled | Broken

  function Min(a: nat, b: nat): nat { if a < b then a else b }

  const ReaderPriority := (r: Reader) => r.prio
  const WriterPriority := (w: Writer) => w.prio

  // ----- Histories -----

  function Bytes(log: seq<Tagged>): seq<Byte> { seq(|log|, i requires 0 <= i < |log| => log[i].byte) }

  function Tags(call: nat, bytes: seq<Byte>): seq<Tagged> {
    seq(|bytes|, i requires 0 <= i < |bytes| => Tagged(call, bytes[i]))
  }

  /** The bytes of one call. */
  function Of(log: seq<Tagged>, call: nat): seq<Byte> {
    if log == [] then [] else
      var n := |log| - 1;
      Of(log[..n], call) + if log[n].call == call then [log[n].byte] else []
  }

  lemma {:induction false} OfMore(log: seq<Tagged>, c: nat, bytes: seq<Byte>, call: nat)
    ensures Of(log + Tags(c, bytes), call) == if c == call then Of(log, call) + bytes else Of(log, call)
  {
    if bytes == [] {
      assert log + Tags(c, bytes) == log;
    } else {
      var n := |bytes| - 1;
      OfMore(log, c, bytes[..n], call);
      var all := log + Tags(c, bytes);
      assert all[..|all| - 1] == log + Tags(c, bytes[..n]);
      assert bytes == bytes[..n] + [bytes[n]];
    }
  }

  lemma {:induction false} OfNone(log: seq<Tagged>, call: nat)
    requires forall t | t in log :: t.call != call
    ensures Of(log, call) == []
  {
    if log != [] {
      OfNone(log[..|log| - 1], call);
    }
  }

  /** The calls that have a byte behind the first `n`. */
  function Dropped(log: seq<Tagged>, n: nat): set<nat>
    requires n <= |log|
  {
    set t | t in log[n..] :: t.call
  }

  /** Cutting a log takes bytes from just those calls. */
  lemma {:induction false} OfCut(log: seq<Tagged>, n: nat, call: nat)
    requires n <= |log|
    ensures
      if call in Dropped(log, n) then |Of(log[..n], call)| < |Of(log, call)| else Of(log[..n], call) == Of(log, call)
    decreases |log|
  {
    var m := |log| - 1;
    if n == |log| {
      assert log[..n] == log;
    } else {
      OfCut(log[..m], n, call);
      assert log[..m][..n] == log[..n] && log[n..] == log[..m][n..] + [log[m]];
      assert call in Dropped(log, n) <==> call in Dropped(log[..m], n) || log[m].call == call;
    }
  }

  lemma BytesMore(log: seq<Tagged>, c: nat, bytes: seq<Byte>)
    ensures Bytes(log + Tags(c, bytes)) == Bytes(log) + bytes
    ensures forall t | t in log + Tags(c, bytes) :: t in log || t.call == c
  {
  }

  // ----- Invariant -----

  ghost predicate ReaderSound(s: State, r: Reader) {
    r.call < s.next && |r.got| <= r.len && r.got == Of(s.delivered, r.call)
  }

  /** The accounts of a writer hold until a reset takes a byte from it; one that waits is then
      under the reset still, or the pipe is closed. */
  ghost predicate WriterSound(s: State, w: Writer) {
    && w.call < s.next && w.written <= |w.bytes|
    && (w.call !in s.lost ==> w.bytes[..w.written] == Of(s.accepted, w.call))
    && (w.call in s.lost ==> |Of(s.accepted, w.call)| < w.written && (s.resetting || !s.open))
  }

  ghost predicate WokenSound(s: State, call: nat)
    requires call in s.woken
  {
    match s.woken[call]
    case WokenReader(r, _) => r.call == call && ReaderSound(s, r)
    case WokenWriter(w, _) => w.call == call && WriterSound(s, w)
  }

  ghost predicate DataSound(s: State) {
    && ByPriority(s.data, ReaderPriority)
    && (forall r | r in s.data :: ReaderSound(s, r) && |r.got| < r.len && r.call !in s.woken)
    && (forall i, j | 0 <= i < j < |s.data| :: s.data[i].call != s.data[j].call)
  }

  ghost predicate SpaceSound(s: State) {
    && ByPriority(s.space, WriterPriority)
    && (forall w | w in s.space :: WriterSound(s, w) && w.written < |w.bytes| && w.call !in s.woken)
    && (forall i, j | 0 <= i < j < |s.space| :: s.space[i].call != s.space[j].call)
  }

  /** Nobody waits for what is there, and no two threads wait for each other. */
  ghost predicate WaitsSound(s: State) {
    && (s.data != [] ==> s.ring == []) && (s.space != [] ==> |s.ring| == s.size) && (s.data == [] || s.space == [])
    && s.waiting == |s.data| + |s.space| + |s.woken|
  }

  ghost predicate FlagsSound(s: State) {
    && (s.resetting ==> s.waiting > 0 && s.data == [] && s.space == [] && s.ring == [])
    && (!s.open ==> s.data == [] && s.space == [])
  }

  ghost predicate LogsSound(s: State) {
    && |s.ring| <= s.size && Bytes(s.accepted) == Bytes(s.delivered) + s.ring
    && (forall t | t in s.accepted || t in s.delivered :: t.call < s.next)
    && (forall call | call in s.lost :: call < s.next)
  }

  ghost predicate Inv(s: State) {
    && DataSound(s) && SpaceSound(s) && WaitsSound(s) && FlagsSound(s) && LogsSound(s)
    && forall call {:trigger WokenSound(s, call)} | call in s.woken :: WokenSound(s, call)
  }

  /** A call that is running, so in no queue. */
  ghost predicate Outside(s: State, call: nat) {
    call < s.next && call !in s.woken && (forall r | r in s.data :: r.call != call) && (forall w | w in s.space :: w.call != call)
  }

  // ----- Steps -----

  /** k_pipe_init() */
  function Fresh(size: nat): (s: State)
    ensures Inv(s)
  {
    State(size, [], true, false, 0, [], [], map[], [], [], 0, {})
  }

  /** One turn of the loop of copy_to_pending_readers(): the first reader gets what it can
      use, and is woken if that is all it wanted. */
  function FeedFirst(s: State, w: Writer): (State, Writer)
    requires s.data != [] && w.written <= |w.bytes| && |s.data[0].got| < s.data[0].len
  {
    var r := s.data[0];
    var n := Min(|w.bytes| - w.written, r.len - |r.got|);
    var chunk := w.bytes[w.written..w.written + n];
    var fed := r.(got := r.got + chunk);
    var t := s.(accepted := s.accepted + Tags(w.call, chunk), delivered := s.delivered + Tags(r.call, chunk));
    (if |fed.got| < fed.len then t.(data := [fed] + s.data[1..])
     else t.(data := s.data[1..], woken := s.woken[r.call := WokenReader(fed, false)]),
     w.(written := w.written + n))
  }

  /** copy_to_pending_readers(): straight from a writer to the readers that wait. */
  function Fed(s: State, w: Writer): (r: (State, Writer))
    requires w.written <= |w.bytes| && forall r | r in s.data :: |r.got| < r.len
    ensures r.0.ring == s.ring && r.0.size == s.size && r.0.lost == s.lost && r.1.written <= |r.1.bytes|
    decreases |s.data|
  {
    if s.data == [] then (s, w)
    else
      var (t, v) := FeedFirst(s, w);
      if |t.data| < |s.data| && v.written < |v.bytes| then Fed(t, v) else (t, v)
  }

  /** ring_buf_put() */
  function Put(s: State, w: Writer): (State, Writer)
    requires w.written <= |w.bytes| && |s.ring| <= s.size
  {
    var n := Min(|w.bytes| - w.written, s.size - |s.ring|);
    var chunk := w.bytes[w.written..w.written + n];
    (s.(ring := s.ring + chunk, accepted := s.accepted + Tags(w.call, chunk)), w.(written := w.written + n))
  }

  /** ring_buf_get() */
  function Get(s: State, r: Reader): (State, Reader)
    requires |r.got| <= r.len
  {
    var n := Min(r.len - |r.got|, |s.ring|);
    (s.(ring := s.ring[n..], delivered := s.delivered + Tags(r.call, s.ring[..n])), r.(got := r.got + s.ring[..n]))
  }

  function WokenWriters(ws: seq<Writer>, woken: map<nat, Woken>): map<nat, Woken> {
    if ws == [] then woken else WokenWriters(ws[1..], woken[ws[0].call := WokenWriter(ws[0], false)])
  }

  function WokenReaders(rs: seq<Reader>, woken: map<nat, Woken>): map<nat, Woken> {
    if rs == [] then woken else WokenReaders(rs[1..], woken[rs[0].call := WokenReader(rs[0], false)])
  }

  /** z_sched_wake_all() */
  function WakeWriters(s: State): State { s.(space := [], woken := WokenWriters(s.space, s.woken)) }

  function WakeReaders(s: State): State { s.(data := [], woken := WokenReaders(s.data, s.woken)) }

  function PendReader(s: State, r: Reader): State {
    s.(data := Pended(s.data, r, ReaderPriority), waiting := s.waiting + 1)
  }

  function PendWriter(s: State, w: Writer): State {
    s.(space := Pended(s.space, w, WriterPriority), waiting := s.waiting + 1)
  }

  // ----- Every step keeps the invariant -----

  /** A running writer. */
  ghost predicate Writing(s: State, w: Writer) {
    Inv(s) && Outside(s, w.call) && WriterSound(s, w) && s.open && !s.resetting
  }

  /** A running reader. */
  ghost predicate Reading(s: State, r: Reader) {
    Inv(s) && Outside(s, r.call) && ReaderSound(s, r) && !s.resetting
  }

  /** What a step of a writer leaves alone. */
  ghost predicate SameCall(w: Writer, v: Writer) {
    v.call == w.call && v.prio == w.prio && v.bytes == w.bytes && w.written <= v.written <= |v.bytes|
  }

  lemma FirstReader(s: State)
    requires DataSound(s) && s.data != []
    ensures ReaderSound(s, s.data[0]) && |s.data[0].got| < s.data[0].len && s.data[0].call !in s.woken
    ensures forall r | r in s.data[1..] :: r in s.data && r.call != s.data[0].call
  {
    hide Of;
    assert s.data[0] in s.data;
  }

  /** Both logs of a direct copy. */
  lemma FeedFirstLogs(s: State, w: Writer)
    requires Writing(s, w) && s.data != []
    ensures
      var (t, v) := FeedFirst(s, w);
      LogsSound(t) && WriterSound(t, v) && forall call ::
        && (call != w.call ==> Of(t.accepted, call) == Of(s.accepted, call))
        && (call != s.data[0].call ==> Of(t.delivered, call) == Of(s.delivered, call))
        && (call == s.data[0].call ==> Of(t.delivered, call) == Of(s.delivered, call) + w.bytes[w.written..v.written])
  {
    hide Of, Bytes, Tags, DataSound, SpaceSound;
    var r := s.data[0];
    assert ReaderSound(s, r) && |r.got| < r.len by { FirstReader(s); }
    var n := Min(|w.bytes| - w.written, r.len - |r.got|);
    var chunk := w.bytes[w.written..w.written + n];
    BytesMore(s.accepted, w.call, chunk);
    BytesMore(s.delivered, r.call, chunk);
    OfMore(s.accepted, w.call, chunk, w.call);
    assert w.bytes[..w.written + n] == w.bytes[..w.written] + chunk;
    forall call ensures
      && (call != w.call ==> Of(s.accepted + Tags(w.call, chunk), call) == Of(s.accepted, call))
      && Of(s.delivered + Tags(r.call, chunk), call) ==
         if call == r.call then Of(s.delivered, call) + chunk else Of(s.delivered, call)
    {
      OfMore(s.accepted, w.call, chunk, call);
      OfMore(s.delivered, r.call, chunk, call);
    }
  }

  /** What direct copies leave alone. */
  ghost predicate Fixed(s: State, t: State) {
    && t.ring == s.ring && t.size == s.size && t.open == s.open && t.resetting == s.resetting && t.waiting == s.waiting
    && t.lost == s.lost && t.space == s.space && t.next == s.next
  }

  lemma FedReader(s: State, w: Writer, r: Reader)
    requires Writing(s, w) && s.data != [] && r in FeedFirst(s, w).0.data
    ensures ReaderSound(FeedFirst(s, w).0, r) && |r.got| < r.len && r.call !in FeedFirst(s, w).0.woken
  {
    hide Of, Bytes, Tags, LogsSound, SpaceSound, ByPriority, WaitsSound, FlagsSound;
    FirstReader(s);
    FeedFirstLogs(s, w);
    if r in s.data[1..] {
      assert ReaderSound(s, r);
    }
  }

  lemma FeedFirstData(s: State, w: Writer)
    requires Writing(s, w) && s.data != []
    ensures DataSound(FeedFirst(s, w).0)
  {
    hide Of, Bytes, Tags, LogsSound, SpaceSound, ByPriority, WaitsSound, FlagsSound;
    FirstReader(s);
    var (t, v) := FeedFirst(s, w);
    var fed := s.data[0].(got := s.data[0].got + w.bytes[w.written..v.written]);
    FirstByPriority(s.data, fed, ReaderPriority);
    assert t.data == s.data[1..] || t.data == [fed] + s.data[1..];
    forall r | r in t.data ensures ReaderSound(t, r) && |r.got| < r.len && r.call !in t.woken {
      FedReader(s, w, r);
    }
  }

  lemma FeedFirstWoken(s: State, w: Writer)
    requires Writing(s, w) && s.data != []
    ensures
      var t := FeedFirst(s, w).0;
      forall call {:trigger WokenSound(t, call)} | call in t.woken :: WokenSound(t, call)
  {
    hide Of, Bytes, Tags, LogsSound, SpaceSound, DataSound;
    FirstReader(s);
    FeedFirstLogs(s, w);
    var (t, v) := FeedFirst(s, w);
    forall call | call in t.woken ensures WokenSound(t, call) {
      if call in s.woken {
        assert WokenSound(s, call);
      }
    }
  }

  lemma FeedFirstKeeps(s: State, w: Writer)
    requires Writing(s, w) && s.data != []
    ensures
      var (t, v) := FeedFirst(s, w);
      && Writing(t, v) && SameCall(w, v) && Fixed(s, t) && |t.data| <= |s.data|
      && (|t.data| == |s.data| ==> v.written == |v.bytes|)
  {
    hide Of, Bytes, Tags, LogsSound;
    FirstReader(s);
    FeedFirstLogs(s, w);
    FeedFirstData(s, w);
    var (t, v) := FeedFirst(s, w);
    FeedFirstWoken(s, w);
  }

  /** A writer that is not done has served every reader. */
  lemma {:induction false} FedKeeps(s: State, w: Writer)
    requires Writing(s, w)
    ensures forall r | r in s.data :: |r.got| < r.len
    ensures
      var (t, v) := Fed(s, w);
      && Writing(t, v) && SameCall(w, v) && Fixed(s, t) && (v.written < |v.bytes| ==> t.data == [])
    decreases |s.data|
  {
    hide Of, Bytes, Tags, LogsSound, SpaceSound, WaitsSound, FlagsSound, FeedFirst, ByPriority;
    if s.data != [] {
      FirstReader(s);
      FeedFirstKeeps(s, w);
      var (t, v) := FeedFirst(s, w);
      if |t.data| < |s.data| && v.written < |v.bytes| {
        FedKeeps(t, v);
      }
    }
  }

  /** What waiting readers still want. */
  function WantedBy(rs: seq<Reader>): nat
    requires forall r | r in rs :: |r.got| <= r.len
  {
    if rs == [] then 0 else
      assert rs[0] in rs;
      rs[0].len - |rs[0].got| + WantedBy(rs[1..])
  }

  function First(bytes: seq<Byte>, n: nat): seq<Byte> { bytes[..Min(|bytes|, n)] }

  function Past(bytes: seq<Byte>, n: nat): seq<Byte> { bytes[Min(|bytes|, n)..] }

  lemma PastPast(bytes: seq<Byte>, i: nat, j: nat)
    ensures Past(bytes, i + j) == Past(Past(bytes, i), j) && Past(bytes, 0) == bytes
  {
  }

  lemma NoShare(i: nat, j: nat)
    ensures First(Past([], i), j) == []
  {
  }

  /** Reader `i` with its share of the bytes: the next ones in queue order, up to what it wants. */
  function WithShare(rs: seq<Reader>, bytes: seq<Byte>, i: nat): (r: Reader)
    requires (forall r | r in rs :: |r.got| <= r.len) && i < |rs|
  {
    rs[i].(got := rs[i].got + First(Past(bytes, WantedBy(rs[..i])), rs[i].len - |rs[i].got|))
  }

  lemma ShareStep(rs: seq<Reader>, bytes: seq<Byte>, i: nat)
    requires (forall r | r in rs :: |r.got| <= r.len) && i < |rs|
    ensures rs[0] in rs && forall r | r in rs[1..] :: r in rs
    ensures WithShare(rs, [], i) == rs[i]
    ensures
      var want := rs[0].len - |rs[0].got|;
      WithShare(rs, bytes, i) ==
        if i == 0 then rs[0].(got := rs[0].got + First(bytes, want)) else WithShare(rs[1..], Past(bytes, want), i - 1)
  {
    hide First, Past;
    NoShare(WantedBy(rs[..i]), rs[i].len - |rs[i].got|);
    if i == 0 {
      PastPast(bytes, 0, 0);
    } else {
      assert rs[..i][1..] == rs[1..][..i - 1] && rs[i] == rs[1..][i - 1];
      PastPast(bytes, rs[0].len - |rs[0].got|, WantedBy(rs[1..][..i - 1]));
    }
  }

  /** A reader is woken exactly if it has all that it wants, and else goes on waiting. */
  ghost predicate Served(t: State, r: Reader) {
    if |r.got| < r.len then r in t.data && r.call !in t.woken
    else r.call in t.woken && t.woken[r.call] == WokenReader(r, false) && forall x | x in t.data :: x.call != r.call
  }

  /** The first reader is served as far as the bytes go. */
  ghost predicate FirstFed(s: State, w: Writer, t: State, v: Writer)
    requires s.data != [] && |s.data[0].got| <= s.data[0].len && w.written <= |w.bytes|
  {
    var r, bytes := s.data[0], w.bytes[w.written..];
    var fed := r.(got := r.got + First(bytes, r.len - |r.got|));
    && v == w.(written := Min(|w.bytes|, w.written + (r.len - |r.got|))) && w.bytes[v.written..] == Past(bytes, r.len - |r.got|)
    && t.accepted == s.accepted + Tags(w.call, w.bytes[w.written..v.written])
    && if |fed.got| < fed.len then v.written == |w.bytes| && t.data == [fed] + s.data[1..] && t.woken == s.woken
       else t.data == s.data[1..] && t.woken == s.woken[r.call := WokenReader(fed, false)]
  }

  lemma FeedFirstTells(s: State, w: Writer)
    requires s.data != [] && |s.data[0].got| < s.data[0].len && w.written <= |w.bytes|
    ensures FirstFed(s, w, FeedFirst(s, w).0, FeedFirst(s, w).1)
  {
    hide Tags;
    var r, v := s.data[0], FeedFirst(s, w).1;
    assert First(w.bytes[w.written..], r.len - |r.got|) == w.bytes[w.written..v.written];
  }

  ghost predicate Waiting(s: State) {
    && (forall r | r in s.data :: |r.got| < r.len && r.call !in s.woken)
    && forall i, j | 0 <= i < j < |s.data| :: s.data[i].call != s.data[j].call
  }

  lemma FeedTurn(s: State, w: Writer)
    requires Writing(s, w)
    ensures Waiting(s) && w.written <= |w.bytes|
    ensures s.data != [] ==>
      s.data[0] in s.data && var (t, v) := FeedFirst(s, w); Writing(t, v) && FirstFed(s, w, t, v)
  {
    hide Of, Bytes, Tags, LogsSound, SpaceSound, WaitsSound, FlagsSound, ByPriority, FeedFirst, FirstFed, Outside;
    if s.data != [] {
      assert s.data[0] in s.data;
      FeedFirstKeeps(s, w);
      FeedFirstTells(s, w);
    }
  }

  /** Nobody else is touched. */
  lemma {:induction false} FedSpares(s: State, w: Writer, call: nat)
    requires Writing(s, w) && forall r | r in s.data :: r.call != call
    ensures forall r | r in s.data :: |r.got| < r.len
    ensures
      var t := Fed(s, w).0;
      && (call in t.woken <==> call in s.woken) && (call in s.woken ==> t.woken[call] == s.woken[call])
      && forall r | r in t.data :: r.call != call
    decreases |s.data|
  {
    hide Writing, FeedFirst, Tags, First, Past;
    FeedTurn(s, w);
    if s.data != [] {
      var (t, v) := FeedFirst(s, w);
      if |t.data| < |s.data| && v.written < |v.bytes| {
        FedSpares(t, v, call);
      }
    }
  }

  lemma TagsJoin(call: nat, bytes: seq<Byte>, i: nat, j: nat, k: nat)
    requires i <= j <= k <= |bytes|
    ensures Tags(call, bytes[i..j]) + Tags(call, bytes[j..k]) == Tags(call, bytes[i..k])
  {
  }

  /** As many bytes go straight to waiting readers as they want. */
  lemma {:induction false} FedCount(s: State, w: Writer)
    requires Writing(s, w)
    ensures forall r | r in s.data :: |r.got| < r.len
    ensures w.written <= |w.bytes| && (s.data == [] ==> WantedBy(s.data) == 0)
    ensures
      var (t, v) := Fed(s, w);
      && v == w.(written := Min(|w.bytes|, w.written + WantedBy(s.data)))
      && t.accepted == s.accepted + Tags(w.call, w.bytes[w.written..v.written])
    decreases |s.data|
  {
    hide Writing, FeedFirst, Tags, First, Past;
    FeedTurn(s, w);
    if s.data == [] {
      TagsJoin(w.call, w.bytes, w.written, w.written, w.written);
    } else {
      var (t, v) := FeedFirst(s, w);
      if |t.data| < |s.data| && v.written < |v.bytes| {
        FedCount(t, v);
        TagsJoin(w.call, w.bytes, w.written, v.written, Fed(t, v).1.written);
      }
    }
  }

  /** And every waiting reader gets its share. */
  lemma {:induction false} FedEach(s: State, w: Writer, i: nat)
    requires Writing(s, w) && i < |s.data|
    ensures forall r | r in s.data :: |r.got| < r.len
    ensures w.written <= |w.bytes| && Served(Fed(s, w).0, WithShare(s.data, w.bytes[w.written..], i))
    decreases |s.data|
  {
    hide Writing, FeedFirst, Tags, First, Past, WithShare, WantedBy;
    FeedTurn(s, w);
    var (t, v) := FeedFirst(s, w);
    ShareStep(s.data, w.bytes[w.written..], i);
    if |t.data| < |s.data| && v.written < |v.bytes| {
      if i == 0 {
        FedSpares(t, v, s.data[0].call);
      } else {
        FedEach(t, v, i - 1);
      }
    } else if i > 0 {
      assert w.bytes[v.written..] == [];
      ShareStep(s.data[1..], [], i - 1);
      assert s.data[i] in s.data;
    }
  }

  lemma PutLogs(s: State, w: Writer)
    requires Writing(s, w)
    ensures
      var (t, v) := Put(s, w);
      LogsSound(t) && WriterSound(t, v) && forall call | call != w.call :: Of(t.accepted, call) == Of(s.accepted, call)
  {
    hide Of, Bytes, Tags, DataSound, SpaceSound;
    var (t, v) := Put(s, w);
    var chunk := w.bytes[w.written..v.written];
    BytesMore(s.accepted, w.call, chunk);
    OfMore(s.accepted, w.call, chunk, w.call);
    assert w.bytes[..v.written] == w.bytes[..w.written] + chunk;
    forall call | call != w.call ensures Of(t.accepted, call) == Of(s.accepted, call) {
      OfMore(s.accepted, w.call, chunk, call);
    }
  }

  lemma PutKeeps(s: State, w: Writer)
    requires Writing(s, w) && (s.data == [] || w.written == |w.bytes|)
    ensures
      var (t, v) := Put(s, w);
      Writing(t, v) && SameCall(w, v) && t.data == s.data && t.space == s.space && (v.written < |v.bytes| ==> |t.ring| == t.size)
  {
    hide Of, Bytes, Tags;
    var (t, v) := Put(s, w);
    var chunk := w.bytes[w.written..v.written];
    BytesMore(s.accepted, w.call, chunk);
    PutLogs(s, w);
    forall r | r in t.data ensures ReaderSound(t, r) {
      assert ReaderSound(s, r);
    }
    forall x | x in t.space ensures WriterSound(t, x) {
      assert WriterSound(s, x);
    }
    forall call | call in t.woken ensures WokenSound(t, call) {
      assert WokenSound(s, call);
    }
  }

  lemma GetLogs(s: State, r: Reader)
    requires Reading(s, r)
    ensures
      var (t, v) := Get(s, r);
      LogsSound(t) && ReaderSound(t, v) && forall call | call != r.call :: Of(t.delivered, call) == Of(s.delivered, call)
  {
    hide Of, Bytes, Tags, DataSound, SpaceSound;
    var (t, v) := Get(s, r);
    var chunk := s.ring[..|v.got| - |r.got|];
    BytesMore(s.delivered, r.call, chunk);
    assert s.ring == chunk + t.ring;
    assert Bytes(s.delivered) + s.ring == Bytes(t.delivered) + t.ring;
    OfMore(s.delivered, r.call, chunk, r.call);
    forall call | call != r.call ensures Of(t.delivered, call) == Of(s.delivered, call) {
      OfMore(s.delivered, r.call, chunk, call);
    }
  }

  lemma GetKeeps(s: State, r: Reader)
    requires Reading(s, r) && s.space == []
    ensures
      var (t, v) := Get(s, r);
      && Reading(t, v) && t.space == [] && t.data == s.data && t.open == s.open
      && v == r.(got := v.got) && (|v.got| < v.len ==> t.ring == [])
  {
    hide Of, Bytes, Tags;
    var (t, v) := Get(s, r);
    GetLogs(s, r);
    forall x | x in t.data ensures ReaderSound(t, x) {
      assert ReaderSound(s, x);
    }
    forall call | call in t.woken ensures WokenSound(t, call) {
      assert WokenSound(s, call);
    }
  }

  lemma {:induction false} WokenWritersAre(ws: seq<Writer>, woken: map<nat, Woken>)
    requires forall w | w in ws :: w.call !in woken
    requires forall i, j | 0 <= i < j < |ws| :: ws[i].call != ws[j].call
    ensures
      var m := WokenWriters(ws, woken);
      && |m| == |woken| + |ws| && (forall c | c in woken :: c in m && m[c] == woken[c])
      && (forall w | w in ws :: w.call in m && m[w.call] == WokenWriter(w, false))
      && (forall c | c in m :: c in woken || (exists w :: w in ws && w.call == c))
  {
    if ws != [] {
      WokenWritersAre(ws[1..], woken[ws[0].call := WokenWriter(ws[0], false)]);
      assert forall w | w in ws :: w == ws[0] || w in ws[1..];
    }
  }

  lemma {:induction false} WokenReadersAre(rs: seq<Reader>, woken: map<nat, Woken>)
    requires forall r | r in rs :: r.call !in woken
    requires forall i, j | 0 <= i < j < |rs| :: rs[i].call != rs[j].call
    ensures
      var m := WokenReaders(rs, woken);
      && |m| == |woken| + |rs| && (forall c | c in woken :: c in m && m[c] == woken[c])
      && (forall r | r in rs :: r.call in m && m[r.call] == WokenReader(r, false))
      && (forall c | c in m :: c in woken || (exists r :: r in rs && r.call == c))
  {
    if rs != [] {
      WokenReadersAre(rs[1..], woken[rs[0].call := WokenReader(rs[0], false)]);
      assert forall r | r in rs :: r == rs[0] || r in rs[1..];
    }
  }

  lemma NobodyOrdered()
    ensures ByPriority([], WriterPriority) && ByPriority([], ReaderPriority)
  {
  }

  lemma WokeWriter(s: State, call: nat)
    requires Inv(s) && call in WakeWriters(s).woken
    ensures WokenSound(WakeWriters(s), call)
  {
    hide Of, Bytes, WokenWriters, ByPriority, LogsSound, DataSound;
    WokenWritersAre(s.space, s.woken);
    if call in s.woken {
      assert WokenSound(s, call);
    }
  }

  lemma WakeWritersKeeps(s: State)
    requires Inv(s)
    ensures Inv(WakeWriters(s)) && forall call | Outside(s, call) :: Outside(WakeWriters(s), call)
  {
    hide Of, Bytes, WokenWriters, WokenSound, ByPriority;
    var t := WakeWriters(s);
    NobodyOrdered();
    WokenWritersAre(s.space, s.woken);
    forall r | r in t.data ensures ReaderSound(t, r) && r.call !in t.woken {
      assert r in s.data;
    }
    forall call | call in t.woken ensures WokenSound(t, call) {
      WokeWriter(s, call);
    }
  }

  lemma WokeReader(s: State, call: nat)
    requires Inv(s) && call in WakeReaders(s).woken
    ensures WokenSound(WakeReaders(s), call)
  {
    hide Of, Bytes, WokenReaders, ByPriority, LogsSound, SpaceSound;
    WokenReadersAre(s.data, s.woken);
    if call in s.woken {
      assert WokenSound(s, call);
    }
  }

  lemma WakeReadersKeeps(s: State)
    requires Inv(s)
    ensures Inv(WakeReaders(s)) && forall call | Outside(s, call) :: Outside(WakeReaders(s), call)
  {
    hide Of, Bytes, WokenReaders, WokenSound, ByPriority;
    var t := WakeReaders(s);
    NobodyOrdered();
    WokenReadersAre(s.data, s.woken);
    forall w | w in t.space ensures WriterSound(t, w) && w.call !in t.woken {
      assert w in s.space;
    }
    forall call | call in t.woken ensures WokenSound(t, call) {
      WokeReader(s, call);
    }
  }

  lemma PendReaderKeeps(s: State, r: Reader)
    requires Reading(s, r) && |r.got| < r.len && s.ring == [] && s.space == [] && s.open
    ensures Inv(PendReader(s, r))
  {
    hide Of, Bytes, Pended, ByPriority;
    var t := PendReader(s, r);
    var i := PendedAt(s.data, r, ReaderPriority);
    PendedByPriority(s.data, r, ReaderPriority);
    forall x | x in t.data ensures ReaderSound(t, x) && |x.got| < x.len && x.call !in t.woken {
      PendedElements(s.data, r, ReaderPriority, x);
      assert x != r ==> ReaderSound(s, x);
    }
    forall call | call in t.woken ensures WokenSound(t, call) {
      assert WokenSound(s, call);
    }
  }

  lemma PendWriterKeeps(s: State, w: Writer)
    requires Writing(s, w) && w.written < |w.bytes| && |s.ring| == s.size && s.data == []
    ensures Inv(PendWriter(s, w))
  {
    hide Of, Bytes, Pended, ByPriority;
    var t := PendWriter(s, w);
    var i := PendedAt(s.space, w, WriterPriority);
    PendedByPriority(s.space, w, WriterPriority);
    forall x | x in t.space ensures WriterSound(t, x) && x.written < |x.bytes| && x.call !in t.woken {
      PendedElements(s.space, w, WriterPriority, x);
      assert x != w ==> WriterSound(s, x);
    }
    forall call | call in t.woken ensures WokenSound(t, call) {
      assert WokenSound(s, call);
    }
  }

  // ----- Calls -----

  /** The part of the loop of k_pipe_write() that fills the ring. */
  function PutTurn(s: State, w: Writer, canWait: bool): (State, Ret)
    requires w.written <= |w.bytes| && |s.ring| <= s.size
  {
    var (t, v) := Put(s, w);
    if v.written == |v.bytes| then (t, Wrote(v.written))
    else if canWait then (PendWriter(t, v), Blocks)
    else (t, if v.written != 0 then Wrote(v.written) else Again)
  }

  /** The loop of k_pipe_write() up to its return or its wait; `canWait` tells whether
      there is time left. */
  function WriteTurn(s: State, w: Writer, canWait: bool): (State, Ret)
    requires w.written <= |w.bytes| && |s.ring| <= s.size && forall r | r in s.data :: |r.got| < r.len
  {
    if !s.open then (s, Broken)
    else
      var direct := s.ring == [] && s.waiting != 0;
      var (t, v) := if direct then Fed(s, w) else (s, w);
      if direct && v.written >= |v.bytes| then (t, Wrote(v.written)) else PutTurn(t, v, canWait)
  }

  /** The loop of k_pipe_read(). */
  function ReadTurn(s: State, r: Reader, canWait: bool): (State, Ret)
    requires |r.got| <= r.len
  {
    var (t, v) := Get(if |s.ring| == s.size then WakeWriters(s) else s, r);
    if |v.got| == v.len then (t, Got(v.got))
    else if !t.open then (t, if v.got != [] then Got(v.got) else Broken)
    else if canWait then (PendReader(t, v), Blocks)
    else (t, if v.got != [] then Got(v.got) else Again)
  }

  /** k_pipe_write() */
  function Write(s: State, prio: int, bytes: seq<Byte>, canWait: bool): (State, Ret)
    requires |s.ring| <= s.size && forall r | r in s.data :: |r.got| < r.len
  {
    var t := s.(next := s.next + 1);
    if s.resetting then (t, Canceled) else WriteTurn(t, Writer(s.next, prio, bytes, 0), canWait)
  }

  /** k_pipe_read() */
  function Read(s: State, prio: int, len: nat, canWait: bool): (State, Ret) {
    var t := s.(next := s.next + 1);
    if s.resetting then (t, Canceled) else ReadTurn(t, Reader(s.next, prio, [], len), canWait)
  }

  /** The rest of wait_for() once a thread runs again: one waits less, and the last one
      ends a reset. */
  function Left(s: State, call: nat): State
    requires s.waiting > 0
  {
    s.(waiting := s.waiting - 1, woken := s.woken - {call}, resetting := s.resetting && s.waiting - 1 != 0)
  }

  lemma LeftKeeps(s: State, call: nat)
    requires Inv(s) && call in s.woken
    ensures s.waiting > 0 && Inv(Left(s, call)) && Outside(Left(s, call), call)
    ensures !s.resetting ==> match s.woken[call]
                             case WokenReader(r, _) => r.call == call && ReaderSound(Left(s, call), r)
                             case WokenWriter(w, _) => w.call == call && WriterSound(Left(s, call), w)
  {
    hide Of, Bytes;
    assert WokenSound(s, call);
    assert |s.woken - {call}| == |s.woken| - 1;
    var t := Left(s, call);
    forall r | r in t.data ensures ReaderSound(t, r) && r.call !in t.woken {
      assert ReaderSound(s, r);
    }
    forall w | w in t.space ensures WriterSound(t, w) && w.call !in t.woken {
      assert WriterSound(s, w);
    }
    forall c | c in t.woken ensures WokenSound(t, c) {
      assert WokenSound(s, c);
    }
  }

  /** A woken thread runs again. */
  ghost function Resume(s: State, call: nat, canWait: bool): (State, Ret)
    requires Inv(s) && call in s.woken
  {
    LeftKeeps(s, call);
    var t := Left(s, call);
    if s.resetting then (t, Canceled)
    else
      match s.woken[call]
      case WokenReader(r, timedOut) =>
        if timedOut then (t, if r.got != [] then Got(r.got) else Again) else ReadTurn(t, r, canWait)
      case WokenWriter(w, timedOut) =>
        if timedOut then (t, if w.written != 0 then Wrote(w.written) else Again) else WriteTurn(t, w, canWait)
  }

  function ReaderTimesOut(s: State, i: nat): State
    requires i < |s.data|
  {
    s.(data := s.data[..i] + s.data[i + 1..], woken := s.woken[s.data[i].call := WokenReader(s.data[i], true)])
  }

  function WriterTimesOut(s: State, i: nat): State
    requires i < |s.space|
  {
    s.(space := s.space[..i] + s.space[i + 1..], woken := s.woken[s.space[i].call := WokenWriter(s.space[i], true)])
  }

  /** k_pipe_reset() */
  function Reset(s: State): State
    requires |s.ring| <= |s.accepted|
  {
    var n := |s.accepted| - |s.ring|;
    var t := s.(ring := [], accepted := s.accepted[..n], lost := s.lost + Dropped(s.accepted, n));
    if s.waiting != 0 then WakeWriters(WakeReaders(t.(resetting := true))) else t
  }

  /** k_pipe_close() */
  function Close(s: State): State {
    WakeWriters(WakeReaders(s.(open := false, resetting := false)))
  }

  lemma NewCallKeeps(s: State)
    requires Inv(s)
    ensures
      var t := s.(next := s.next + 1);
      Inv(t) && Outside(t, s.next) && s.next !in t.lost && Of(t.accepted, s.next) == Of(t.delivered, s.next) == []
  {
    hide Of, Bytes;
    var t := s.(next := s.next + 1);
    OfNone(s.accepted, s.next);
    OfNone(s.delivered, s.next);
    forall r | r in t.data ensures ReaderSound(t, r) {
      assert ReaderSound(s, r);
    }
    forall w | w in t.space ensures WriterSound(t, w) {
      assert WriterSound(s, w);
    }
    forall call | call in t.woken ensures WokenSound(t, call) {
      assert WokenSound(s, call);
    }
    assert s.next in s.woken ==> WokenSound(s, s.next);
  }

  /** What a write reports is what the pipe has accepted. */
  ghost predicate WriteTold(t: State, call: nat, bytes: seq<Byte>, ret: Ret) {
    match ret
    case Wrote(n) => n <= |bytes| && Of(t.accepted, call) == bytes[..n]
    case Again => Of(t.accepted, call) == []
    case _ => true
  }

  /** What a read reports is what was delivered to it. */
  ghost predicate ReadTold(t: State, call: nat, len: nat, ret: Ret) {
    match ret
    case Got(bytes) => |bytes| <= len && Of(t.delivered, call) == bytes
    case Again => Of(t.delivered, call) == []
    case Broken => !t.open && Of(t.delivered, call) == [] && t.ring == []
    case _ => true
  }

  lemma WriteTurnKeeps(s: State, w: Writer, canWait: bool)
    requires Inv(s) && Outside(s, w.call) && WriterSound(s, w) && !s.resetting
    ensures
      var (t, ret) := WriteTurn(s, w, canWait);
      && Inv(t) && WriteTold(t, w.call, w.bytes, ret) && (ret.Broken? <==> !s.open) && !ret.Got? && !ret.Canceled?
      && (ret.Wrote? ==> ret.count == |w.bytes| || !canWait)
  {
    hide Of, Bytes, Fed, Put, DataSound, SpaceSound, PendWriter;
    if s.open {
      FedKeeps(s, w);
      var direct := s.ring == [] && s.waiting != 0;
      var (t, v) := if direct then Fed(s, w) else (s, w);
      if !direct || v.written < |v.bytes| {
        PutKeeps(t, v);
        var (t2, v2) := Put(t, v);
        if v2.written < |v2.bytes| && canWait {
          PendWriterKeeps(t2, v2);
        }
      }
    }
  }

  lemma ReadTurnKeeps(s: State, r: Reader, canWait: bool)
    requires Reading(s, r)
    ensures
      var (t, ret) := ReadTurn(s, r, canWait);
      && Inv(t) && ReadTold(t, r.call, r.len, ret) && !ret.Wrote? && !ret.Canceled?
      && (ret.Got? ==> |ret.bytes| == r.len || !canWait || !s.open)
  {
    hide Of, Bytes, Get, DataSound, SpaceSound, LogsSound, PendReader, WokenWriters;
    WakeWritersKeeps(s);
    var s2 := if |s.ring| == s.size then WakeWriters(s) else s;
    GetKeeps(s2, r);
    var (t, v) := Get(s2, r);
    if |v.got| < v.len && t.open && canWait {
      PendReaderKeeps(t, v);
    }
  }

  lemma OtherReaders(q: seq<Reader>, i: nat)
    requires i < |q| && forall j, k | 0 <= j < k < |q| :: q[j].call != q[k].call
    ensures
      var t := q[..i] + q[i + 1..];
      (forall r | r in t :: r in q && r.call != q[i].call) && forall j, k | 0 <= j < k < |t| :: t[j].call != t[k].call
  {
    var t := q[..i] + q[i + 1..];
    assert forall k | 0 <= k < |t| :: t[k] == q[if k < i then k else k + 1];
  }

  lemma OtherWriters(q: seq<Writer>, i: nat)
    requires i < |q| && forall j, k | 0 <= j < k < |q| :: q[j].call != q[k].call
    ensures
      var t := q[..i] + q[i + 1..];
      (forall w | w in t :: w in q && w.call != q[i].call) && forall j, k | 0 <= j < k < |t| :: t[j].call != t[k].call
  {
    var t := q[..i] + q[i + 1..];
    assert forall k | 0 <= k < |t| :: t[k] == q[if k < i then k else k + 1];
  }

  lemma ReaderTimesOutKeeps(s: State, i: nat)
    requires Inv(s) && i < |s.data|
    ensures Inv(ReaderTimesOut(s, i))
  {
    hide Of, Bytes, ByPriority;
    var t, c := ReaderTimesOut(s, i), s.data[i].call;
    assert s.data[i] in s.data;
    RemovedByPriority(s.data, i, ReaderPriority);
    OtherReaders(s.data, i);
    forall r | r in t.data ensures ReaderSound(t, r) && |r.got| < r.len && r.call !in t.woken {
      assert r in s.data;
    }
    forall call | call in t.woken ensures WokenSound(t, call) {
      if call != c {
        assert WokenSound(s, call);
      }
    }
  }

  lemma WriterTimesOutKeeps(s: State, i: nat)
    requires Inv(s) && i < |s.space|
    ensures Inv(WriterTimesOut(s, i))
  {
    hide Of, Bytes, ByPriority;
    var t, c := WriterTimesOut(s, i), s.space[i].call;
    assert s.space[i] in s.space;
    RemovedByPriority(s.space, i, WriterPriority);
    OtherWriters(s.space, i);
    forall w | w in t.space ensures WriterSound(t, w) && w.written < |w.bytes| && w.call !in t.woken {
      assert w in s.space;
    }
    forall call | call in t.woken ensures WokenSound(t, call) {
      if call != c {
        assert WokenSound(s, call);
      }
    }
  }

  lemma CloseKeeps(s: State)
    requires Inv(s)
    ensures Inv(Close(s)) && Close(s).data == [] && Close(s).space == []
  {
    hide Of, Bytes, WokenReaders, WokenWriters;
    var t := WakeWriters(WakeReaders(s));
    WakeReadersKeeps(s);
    WakeWritersKeeps(WakeReaders(s));
    forall call | call in t.woken ensures WokenSound(Close(s), call) {
      assert WokenSound(t, call);
    }
  }

  lemma ResetLogs(s: State)
    requires Inv(s)
    ensures |s.ring| <= |s.accepted| && LogsSound(Reset(s))
  {
    hide Of, WokenReaders, WokenWriters, DataSound, SpaceSound;
    assert |Bytes(s.accepted)| == |s.accepted|;
    var a := s.accepted[..|s.accepted| - |s.ring|];
    assert Bytes(a) == Bytes(s.accepted)[..|a|];
  }

  lemma ResetWriter(s: State, w: Writer)
    requires WriterSound(s, w) && |s.ring| <= |s.accepted| && s.waiting != 0
    ensures WriterSound(Reset(s), w)
  {
    hide Of, Dropped, WokenReaders, WokenWriters;
    OfCut(s.accepted, |s.accepted| - |s.ring|, w.call);
  }

  lemma ResetKeeps(s: State)
    requires Inv(s)
    ensures |s.ring| <= |s.accepted| && Inv(Reset(s)) && Reset(s).ring == []
    ensures Reset(s).resetting <==> s.waiting != 0
  {
    hide Of, WokenReaders, WokenWriters;
    var t := WakeWriters(WakeReaders(s));
    WakeReadersKeeps(s);
    WakeWritersKeeps(WakeReaders(s));
    ResetLogs(s);
    forall call | call in t.woken && s.waiting != 0 ensures WokenSound(Reset(s), call) {
      assert WokenSound(t, call);
      if t.woken[call].WokenWriter? {
        ResetWriter(s, t.woken[call].writer);
      }
    }
  }

  // ----- What the callers are told -----

  /** How far a write gets: what waiting readers want and the ring has room for. */
  function CanTake(s: State, w: Writer): (v: Writer)
    requires w.written <= |w.bytes| && |s.ring| <= s.size && forall r | r in s.data :: |r.got| <= r.len
  {
    w.(written := Min(|w.bytes|, w.written + WantedBy(s.data) + (s.size - |s.ring|)))
  }

  /** A write that gets as far as `v`, of which waiting readers took what is before `fed`: it waits
      exactly if there is time and something is left, and returns no data only if it found no taker
      and could not wait. */
  ghost predicate Takes(s: State, w: Writer, fed: nat, v: Writer, canWait: bool, t: State, ret: Ret)
    requires w.written <= fed <= v.written <= |w.bytes|
  {
    var all := v.written == |w.bytes|;
    && (ret.Blocks? <==> canWait && !all) && (ret.Again? <==> !canWait && !all && v.written == 0)
    && (ret.Wrote? <==> all || (!canWait && v.written > 0)) && (ret.Wrote? ==> ret.count == v.written)
    && t.accepted == s.accepted + Tags(w.call, w.bytes[w.written..v.written])
    && t.ring == s.ring + w.bytes[fed..v.written]
    && t.space == if ret.Blocks? then Pended(s.space, v, WriterPriority) else s.space
  }

  /** Every waiting reader got its share of the bytes. */
  ghost predicate AllServed(s: State, bytes: seq<Byte>, t: State)
    requires forall r | r in s.data :: |r.got| <= r.len
  {
    forall i | 0 <= i < |s.data| :: Served(t, WithShare(s.data, bytes, i))
  }

  /** A write turn, which fails on a closed pipe. */
  ghost predicate WriteTells(s: State, w: Writer, canWait: bool, t: State, ret: Ret)
    requires w.written <= |w.bytes| && |s.ring| <= s.size && forall r | r in s.data :: |r.got| <= r.len
  {
    var v := CanTake(s, w);
    if !s.open then ret == Broken && t == s
    else
      && Takes(s, w, Min(v.written, w.written + WantedBy(s.data)), v, canWait, t, ret)
      && AllServed(s, w.bytes[w.written..], t)
  }

  /** A read turn.  It takes the oldest bytes, waits exactly if the pipe is open, there is time and it
      wants more, and returns no data only if there was none and it could not wait. */
  ghost predicate ReadTells(s: State, r: Reader, canWait: bool, t: State, ret: Ret)
    requires |r.got| <= r.len
  {
    var n := Min(r.len - |r.got|, |s.ring|);
    var got := r.got + s.ring[..n];
    && (ret.Got? <==> |got| == r.len || (got != [] && !(s.open && canWait))) && (ret.Got? ==> ret.bytes == got)
    && (ret.Broken? <==> !s.open && got == [] && r.len > 0) && (ret.Blocks? <==> s.open && canWait && |got| < r.len)
    && (ret.Again? <==> s.open && !canWait && got == [] && r.len > 0)
    && t.ring == s.ring[n..] && t.delivered == s.delivered + Tags(r.call, s.ring[..n])
    && t.data == (if ret.Blocks? then Pended(s.data, r.(got := got), ReaderPriority) else s.data)
    && t.space == [] && forall w | w in s.space :: w.call in t.woken && t.woken[w.call] == WokenWriter(w, false)
  }

  lemma PutTells(s: State, w: Writer, canWait: bool)
    requires Writing(s, w) && (s.data == [] || w.written == |w.bytes|)
    ensures
      var (t, ret) := PutTurn(s, w, canWait);
      var v := w.(written := Min(|w.bytes|, w.written + (s.size - |s.ring|)));
      Takes(s, w, w.written, v, canWait, t, ret) && t.data == s.data && t.woken == s.woken
  {
    hide Of, Bytes, Tags, Pended, DataSound, SpaceSound;
  }

  lemma WriteServes(s: State, w: Writer, canWait: bool)
    requires Writing(s, w)
    ensures forall r | r in s.data :: |r.got| < r.len
    ensures w.written <= |w.bytes| && |s.ring| <= s.size && AllServed(s, w.bytes[w.written..], WriteTurn(s, w, canWait).0)
  {
    hide Of, Bytes, Tags, Fed, PutTurn, DataSound, SpaceSound, WithShare, Takes;
    FedKeeps(s, w);
    if s.data != [] {
      var (t, v) := Fed(s, w);
      if v.written < |v.bytes| {
        PutTells(t, v, canWait);
      }
      forall i | 0 <= i < |s.data| ensures Served(WriteTurn(s, w, canWait).0, WithShare(s.data, w.bytes[w.written..], i)) {
        FedEach(s, w, i);
      }
    }
  }

  lemma TakesOn(s: State, w: Writer, t: State, fed: Writer, v: Writer, canWait: bool, u: State, ret: Ret)
    requires SameCall(w, fed) && SameCall(fed, v) && Fixed(s, t)
    requires t.accepted == s.accepted + Tags(w.call, w.bytes[w.written..fed.written])
    requires Takes(t, fed, fed.written, v, canWait, u, ret)
    ensures Takes(s, w, fed.written, v, canWait, u, ret)
  {
    hide Tags, Pended;
    TagsJoin(w.call, w.bytes, w.written, fed.written, v.written);
  }

  lemma TakesNoMore(s: State, w: Writer, t: State, v: Writer, canWait: bool)
    requires SameCall(w, v) && Fixed(s, t) && v.written == |w.bytes|
    requires t.accepted == s.accepted + Tags(w.call, w.bytes[w.written..v.written])
    ensures Takes(s, w, v.written, v, canWait, t, Wrote(v.written))
  {
    hide Tags, Pended;
  }

  lemma WriteTakes(s: State, w: Writer, canWait: bool)
    requires Writing(s, w)
    ensures forall r | r in s.data :: |r.got| < r.len
    ensures w.written <= |w.bytes| && |s.ring| <= s.size
    ensures
      var v, (t, ret) := CanTake(s, w), WriteTurn(s, w, canWait);
      Takes(s, w, Min(v.written, w.written + WantedBy(s.data)), v, canWait, t, ret)
  {
    hide Of, Bytes, Tags, Fed, PutTurn, Pended, DataSound, SpaceSound, WantedBy, Takes;
    FedKeeps(s, w);
    FedCount(s, w);
    if s.ring == [] && s.waiting != 0 {
      var (t, v) := Fed(s, w);
      if v.written < |v.bytes| {
        PutTells(t, v, canWait);
        var (u, ret) := PutTurn(t, v, canWait);
        TakesOn(s, w, t, v, CanTake(s, w), canWait, u, ret);
      } else {
        TakesNoMore(s, w, t, v, canWait);
      }
    } else {
      PutTells(s, w, canWait);
    }
  }

  lemma WriteTurnTells(s: State, w: Writer, canWait: bool)
    requires Inv(s) && Outside(s, w.call) && WriterSound(s, w) && !s.resetting
    ensures forall r | r in s.data :: |r.got| < r.len
    ensures w.written <= |w.bytes| && |s.ring| <= s.size
    ensures WriteTells(s, w, canWait, WriteTurn(s, w, canWait).0, WriteTurn(s, w, canWait).1)
  {
    hide Of, Bytes, Fed, PutTurn, Takes, AllServed, WantedBy, SpaceSound;
    if s.open {
      WriteServes(s, w, canWait);
      WriteTakes(s, w, canWait);
    }
  }

  lemma ReadTurnTells(s: State, r: Reader, canWait: bool)
    requires Reading(s, r)
    ensures ReadTells(s, r, canWait, ReadTurn(s, r, canWait).0, ReadTurn(s, r, canWait).1)
  {
    hide Of, Bytes, Tags, Pended, WokenWriters, DataSound, LogsSound;
    WokenWritersAre(s.space, s.woken);
  }

  // ----- Runs -----

  datatype Event =
    | Writes(prio: int, bytes: seq<Byte>, canWait: bool)
    | Reads(prio: int, len: nat, canWait: bool)
    | Resumes(call: nat, canWait: bool)
    | ReaderExpires(index: nat)
    | WriterExpires(index: nat)
    | Resets
    | Closes

  ghost predicate Enabled(s: State, e: Event) {
    match e
    case Resumes(call, _) => call in s.woken
    case ReaderExpires(i) => i < |s.data|
    case WriterExpires(i) => i < |s.space|
    case _ => true
  }

  /** What an event does, and what the call that ran returned. */
  ghost function Next(s: State, e: Event): (State, Ret)
    requires Inv(s) && Enabled(s, e)
  {
    match e
    case Writes(prio, bytes, canWait) => Write(s, prio, bytes, canWait)
    case Reads(prio, len, canWait) => Read(s, prio, len, canWait)
    case Resumes(call, canWait) => Resume(s, call, canWait)
    case ReaderExpires(i) => (ReaderTimesOut(s, i), Blocks)
    case WriterExpires(i) => (WriterTimesOut(s, i), Blocks)
    case Resets => ResetKeeps(s); (Reset(s), Blocks)
    case Closes => (Close(s), Blocks)
  }

  /** Every return value tells what happened to the bytes of the call.  For a writer that
      runs again that is so unless it has timed out, a reset took a byte from it, and the
      reset is over, as a close can end it. */
  ghost predicate Told(s: State, e: Event, t: State, ret: Ret)
    requires Enabled(s, e)
  {
    match e
    case Writes(_, bytes, _) => WriteTold(t, s.next, bytes, ret)
    case Reads(_, len, _) => ReadTold(t, s.next, len, ret)
    case Resumes(call, _) =>
      (match s.woken[call]
       case WokenReader(r, _) => ReadTold(t, call, r.len, ret)
       case WokenWriter(w, timedOut) =>
         WriteTold(t, call, w.bytes, ret) <==> !(timedOut && !s.resetting && call in s.lost))
    case _ => true
  }

  lemma NextKeeps(s: State, e: Event)
    requires Inv(s) && Enabled(s, e)
    ensures Inv(Next(s, e).0) && Told(s, e, Next(s, e).0, Next(s, e).1)
  {
    hide Inv, WriteTurn, ReadTurn, Reset, Close, ReaderTimesOut, WriterTimesOut, Of, DataSound, SpaceSound;
    match e
    case Writes(prio, bytes, canWait) =>
      NewCallKeeps(s);
      if !s.resetting {
        WriteTurnKeeps(s.(next := s.next + 1), Writer(s.next, prio, bytes, 0), canWait);
      }
    case Reads(prio, len, canWait) =>
      NewCallKeeps(s);
      if !s.resetting {
        ReadTurnKeeps(s.(next := s.next + 1), Reader(s.next, prio, [], len), canWait);
      }
    case Resumes(call, canWait) =>
      LeftKeeps(s, call);
      if !s.resetting {
        match s.woken[call]
        case WokenReader(r, timedOut) =>
          if !timedOut {
            ReadTurnKeeps(Left(s, call), r, canWait);
          }
        case WokenWriter(w, timedOut) =>
          if !timedOut {
            WriteTurnKeeps(Left(s, call), w, canWait);
          }
      }
    case ReaderExpires(i) => ReaderTimesOutKeeps(s, i);
    case WriterExpires(i) => WriterTimesOutKeeps(s, i);
    case Resets => ResetKeeps(s);
    case Closes => CloseKeeps(s);
  }

  /** Everybody who waited is woken, and told of no timeout. */
  ghost predicate AllWoken(s: State, t: State) {
    && t.data == [] && t.space == []
    && (forall r | r in s.data :: r.call in t.woken && t.woken[r.call] == WokenReader(r, false))
    && (forall w | w in s.space :: w.call in t.woken && t.woken[w.call] == WokenWriter(w, false))
    && (forall call | call in s.woken :: call in t.woken && t.woken[call] == s.woken[call])
  }

  /** What a thread that runs again is told: cancelation under a reset, what it has if it has timed
      out, and else what a further turn tells it. */
  ghost predicate ResumeTells(s: State, call: nat, canWait: bool, t: State, ret: Ret)
    requires Inv(s) && call in s.woken && s.waiting > 0
  {
    var u := Left(s, call);
    && (ret.Canceled? <==> s.resetting)
    && match s.woken[call]
       case WokenReader(r, timedOut) =>
         && (s.resetting || timedOut ==> t == u)
         && (!s.resetting && timedOut ==> if r.got == [] then ret == Again else ret == Got(r.got))
         && (!s.resetting && !timedOut ==> |r.got| <= r.len && ReadTells(u, r, canWait, t, ret))
       case WokenWriter(w, timedOut) =>
         && (s.resetting || timedOut ==> t == u)
         && (!s.resetting && timedOut ==> if w.written == 0 then ret == Again else ret == Wrote(w.written))
         && (!s.resetting && !timedOut ==>
               && w.written <= |w.bytes| && |u.ring| <= u.size && (forall r | r in u.data :: |r.got| <= r.len)
               && WriteTells(u, w, canWait, t, ret))
  }

  /** What each event does and tells. */
  ghost predicate Tells(s: State, e: Event, t: State, ret: Ret)
    requires Inv(s) && Enabled(s, e)
  {
    var u := s.(next := s.next + 1);
    match e
    case Writes(prio, bytes, canWait) =>
      && (ret.Canceled? <==> s.resetting) && (s.resetting ==> t == u)
      && (!s.resetting ==>
            && |u.ring| <= u.size && (forall r | r in u.data :: |r.got| <= r.len)
            && WriteTells(u, Writer(s.next, prio, bytes, 0), canWait, t, ret))
    case Reads(prio, len, canWait) =>
      && (ret.Canceled? <==> s.resetting) && (s.resetting ==> t == u)
      && (!s.resetting ==> ReadTells(u, Reader(s.next, prio, [], len), canWait, t, ret))
    case Resumes(call, canWait) => s.waiting > 0 && ResumeTells(s, call, canWait, t, ret)
    case ReaderExpires(i) =>
      t == s.(data := s.data[..i] + s.data[i + 1..], woken := t.woken) &&
      t.woken == s.woken[s.data[i].call := WokenReader(s.data[i], true)]
    case WriterExpires(i) =>
      t == s.(space := s.space[..i] + s.space[i + 1..], woken := t.woken) &&
      t.woken == s.woken[s.space[i].call := WokenWriter(s.space[i], true)]
    case Resets => t.ring == [] && t.open == s.open && (t.resetting <==> s.waiting > 0) && AllWoken(s, t)
    case Closes => t.ring == s.ring && !t.open && !t.resetting && AllWoken(s, t)
  }

  lemma WakesAll(s: State)
    requires Inv(s)
    ensures AllWoken(s, WakeWriters(WakeReaders(s))) && (s.waiting == 0 ==> AllWoken(s, s))
  {
    hide Of, Bytes, WokenReaders, WokenWriters, ByPriority;
    WokenReadersAre(s.data, s.woken);
    WakeReadersKeeps(s);
    WokenWritersAre(s.space, WakeReaders(s).woken);
  }

  lemma ResumeIs(s: State, call: nat, canWait: bool)
    requires Inv(s) && call in s.woken
    ensures s.waiting > 0 && ResumeTells(s, call, canWait, Resume(s, call, canWait).0, Resume(s, call, canWait).1)
  {
    hide Inv, WriteTurn, ReadTurn, WriteTells, ReadTells, Of;
    LeftKeeps(s, call);
    if !s.resetting {
      match s.woken[call]
      case WokenReader(r, timedOut) =>
        if !timedOut {
          ReadTurnTells(Left(s, call), r, canWait);
          ReadTurnKeeps(Left(s, call), r, canWait);
        }
      case WokenWriter(w, timedOut) =>
        if !timedOut {
          WriteTurnTells(Left(s, call), w, canWait);
          WriteTurnKeeps(Left(s, call), w, canWait);
        }
    }
  }

  /** Every call and every other step does and tells just that. */
  lemma NextTells(s: State, e: Event)
    requires Inv(s) && Enabled(s, e)
    ensures Tells(s, e, Next(s, e).0, Next(s, e).1)
  {
    hide Inv, WriteTurn, ReadTurn, WriteTells, ReadTells, Of, ResumeTells, WokenReaders, WokenWriters, Dropped;
    match e
    case Writes(prio, bytes, canWait) =>
      NewCallKeeps(s);
      if !s.resetting {
        var u, w := s.(next := s.next + 1), Writer(s.next, prio, bytes, 0);
        WriteTurnTells(u, w, canWait);
        WriteTurnKeeps(u, w, canWait);
      }
    case Reads(prio, len, canWait) =>
      NewCallKeeps(s);
      if !s.resetting {
        var u, r := s.(next := s.next + 1), Reader(s.next, prio, [], len);
        ReadTurnTells(u, r, canWait);
        ReadTurnKeeps(u, r, canWait);
      }
    case Resumes(call, canWait) => ResumeIs(s, call, canWait);
    case ReaderExpires(i) =>
    case WriterExpires(i) =>
    case Resets =>
      ResetKeeps(s);
      WakesAll(s);
    case Closes => WakesAll(s);
  }

  ghost predicate IsRun(s: State, es: seq<Event>)
    requires Inv(s)
    decreases |es|
  {
    es != [] ==> Enabled(s, es[0]) && (NextKeeps(s, es[0]); IsRun(Next(s, es[0]).0, es[1..]))
  }

  ghost function After(s: State, es: seq<Event>): State
    requires Inv(s) && IsRun(s, es)
    decreases |es|
  {
    if es == [] then s else (NextKeeps(s, es[0]); After(Next(s, es[0]).0, es[1..]))
  }

  lemma {:induction false} RunKeeps(s: State, es: seq<Event>)
    requires Inv(s) && IsRun(s, es)
    ensures Inv(After(s, es))
    decreases |es|
  {
    hide Inv;
    if es != [] {
      NextKeeps(s, es[0]);
      RunKeeps(Next(s, es[0]).0, es[1..]);
    }
  }

  /** No reader waits beside data, no writer beside space, no reader and writer wait at once,
      a reset is in progress only while somebody has yet to leave, and what the pipe accepted
      is what it delivered followed by the ring. */
  ghost predicate Safe(t: State) {
    && (t.data != [] ==> t.ring == [] && t.space == [])
    && (t.space != [] ==> |t.ring| == t.size && t.data == [])
    && (t.resetting ==> t.waiting > 0)
    && t.waiting == |t.data| + |t.space| + |t.woken|
    && Bytes(t.accepted) == Bytes(t.delivered) + t.ring
  }

  /** The pipe is safe under every interleaving. */
  lemma EveryRunIsSafe(size: nat, es: seq<Event>)
    requires IsRun(Fresh(size), es)
    ensures Safe(After(Fresh(size), es))
  {
    hide IsRun, After;
    RunKeeps(Fresh(size), es);
  }

  /** A byte of the call is in the ring. */
  ghost predicate InRing(s: State, call: nat) {
    |s.ring| <= |s.accepted| && call in Dropped(s.accepted, |s.accepted| - |s.ring|)
  }

  /** Some reset of the run finds a byte of the call in the ring. */
  ghost predicate ResetOver(s: State, es: seq<Event>, call: nat)
    requires Inv(s) && IsRun(s, es)
    decreases |es|
  {
    es != [] && ((es[0].Resets? && InRing(s, call)) || (NextKeeps(s, es[0]); ResetOver(Next(s, es[0]).0, es[1..], call)))
  }

  lemma ResetLoses(s: State, e: Event, call: nat)
    requires Inv(s) && Enabled(s, e)
    ensures call in Next(s, e).0.lost <==> call in s.lost || (e.Resets? && InRing(s, call))
  {
    hide Inv, Dropped, WokenReaders, WokenWriters, Pended, Of;
    if e.Resets? {
      ResetKeeps(s);
    } else if e.Resumes? {
      LeftKeeps(s, e.call);
    }
  }

  lemma {:induction false} LostIff(s: State, es: seq<Event>, call: nat)
    requires Inv(s) && IsRun(s, es)
    ensures call in After(s, es).lost <==> call in s.lost || ResetOver(s, es, call)
    decreases |es|
  {
    hide Inv, Next, InRing;
    if es != [] {
      NextKeeps(s, es[0]);
      ResetLoses(s, es[0], call);
      LostIff(Next(s, es[0]).0, es[1..], call);
    }
  }

  /** Over every run: what a writer that runs again is told is what the pipe has accepted from it
      and not thrown away, if and only if it does not come from a timeout after a reset over
      one of its bytes that somebody else has ended. */
  lemma WriterToldIff(size: nat, es: seq<Event>, call: nat, canWait: bool)
    requires IsRun(Fresh(size), es)
    requires var t := After(Fresh(size), es); call in t.woken && t.woken[call].WokenWriter?
    ensures
      var t := After(Fresh(size), es);
      && Inv(t)
      && (WriteTold(Next(t, Resumes(call, canWait)).0, call, t.woken[call].writer.bytes, Next(t, Resumes(call, canWait)).1) <==>
            !(t.woken[call].timedOut && !t.resetting && ResetOver(Fresh(size), es, call)))
  {
    hide Inv, IsRun, After, Next, WriteTold, ResetOver;
    RunKeeps(Fresh(size), es);
    LostIff(Fresh(size), es, call);
    NextKeeps(After(Fresh(size), es), Resumes(call, canWait));
  }

  /** Everybody who waited when a reset began is canceled, and so is every new call until
      the last of them has left. */
  lemma ResettingCancels(s: State, e: Event)
    requires Inv(s) && s.resetting && Enabled(s, e)
    ensures e.Writes? || e.Reads? || e.Resumes? ==> Next(s, e).1 == Canceled
    ensures e.Resumes? ==> Next(s, e).0.waiting == s.waiting - 1 && (Next(s, e).0.resetting <==> s.waiting > 1)
  {
    hide Of, DataSound, SpaceSound, LogsSound, WriteTurn, ReadTurn;
    if e.Resumes? {
      LeftKeeps(s, e.call);
    }
  }

  lemma NoMore(s: State)
    requires Inv(s)
    ensures IsRun(s, []) && After(s, []) == s
  {
  }

  lemma Onward(s: State, e: Event, es: seq<Event>)
    requires Inv(s) && Enabled(s, e) && Inv(Next(s, e).0) && IsRun(Next(s, e).0, es)
    ensures IsRun(s, [e] + es) && After(s, [e] + es) == After(Next(s, e).0, es)
  {
    hide Inv, Next, Enabled;
    assert ([e] + es)[1..] == es;
  }

  function Interrupted(): seq<Event> { [Writes(5, [7, 8], true), WriterExpires(0), Resets, Closes] }

  /** The pipe after that: closed, empty, and with a writer that has timed out yet to run. */
  function Leftover(): State {
    State(1, [], false, false, 1, [], [], map[0 := WokenWriter(Writer(0, 5, [7, 8], 1), true)], [], [], 1, {0})
  }

  /** The pipe of `Leftover` before the reset. */
  function Expired(): State {
    State(1, [7], true, false, 1, [], [], map[0 := WokenWriter(Writer(0, 5, [7, 8], 1), true)], [Tagged(0, 7)], [], 1, {})
  }

  lemma FirstPended(w: Writer)
    ensures Pended([], w, WriterPriority) == [w]
  {
  }

  lemma OneWritten()
    ensures
      var s := Fresh(1);
      Write(s, 5, [7, 8], true).0 == State(1, [7], true, false, 1, [], [Writer(0, 5, [7, 8], 1)], map[], [Tagged(0, 7)], [], 1, {})
  {
    hide Of, Pended;
    FirstPended(Writer(0, 5, [7, 8], 1));
    assert [7, 8][0..1] == [7] && Tags(0, [7]) == [Tagged(0, 7)];
  }

  lemma ExpiredReached()
    ensures
      var es := [Writes(5, [7, 8], true), WriterExpires(0)];
      Inv(Expired()) && IsRun(Fresh(1), es) && After(Fresh(1), es) == Expired()
  {
    hide Inv, IsRun, After, Pended, Of, Write;
    var e0, e1 := Writes(5, [7, 8], true), WriterExpires(0);
    var s0 := Fresh(1);
    NextKeeps(s0, e0);
    OneWritten();
    var s1 := Next(s0, e0).0;
    NextKeeps(s1, e1);
    assert Next(s1, e1).0 == Expired();
    NoMore(Expired());
    Onward(s1, e1, []);
    Onward(s0, e0, [e1] + []);
    assert [e0] + ([e1] + []) == [e0, e1];
  }

  lemma NobodyWoken(woken: map<nat, Woken>)
    ensures WokenWriters([], woken) == WokenReaders([], woken) == woken
  {
  }

  /** A run can go on where another ended. */
  lemma {:induction false} Joined(s: State, es: seq<Event>, fs: seq<Event>)
    requires Inv(s) && IsRun(s, es) && Inv(After(s, es)) && IsRun(After(s, es), fs)
    ensures IsRun(s, es + fs) && After(s, es + fs) == After(After(s, es), fs)
    decreases |es|
  {
    hide Inv, Next, Enabled;
    if es == [] {
      assert es + fs == fs;
    } else {
      NextKeeps(s, es[0]);
      Joined(Next(s, es[0]).0, es[1..], fs);
      assert (es + fs)[0] == es[0] && (es + fs)[1..] == es[1..] + fs;
    }
  }

  lemma LeftoverReached()
    ensures Inv(Leftover())
    ensures IsRun(Fresh(1), Interrupted()) && After(Fresh(1), Interrupted()) == Leftover()
  {
    hide Inv, IsRun, After, Of, Write, WokenReaders, WokenWriters;
    ExpiredReached();
    var s2, e2, e3 := Expired(), Resets, Closes;
    NextKeeps(s2, e2);
    var s3 := Next(s2, e2).0;
    NextKeeps(s3, e3);
    NobodyWoken(s2.woken);
    assert Next(s3, e3).0 == Leftover();
    NoMore(Leftover());
    Onward(s3, e3, []);
    Onward(s2, e2, [e3] + []);
    Joined(Fresh(1), [Writes(5, [7, 8], true), WriterExpires(0)], [e2] + ([e3] + []));
    assert [Writes(5, [7, 8], true), WriterExpires(0)] + ([e2] + ([e3] + [])) == Interrupted();
  }

  /** A run on which a writer is told wrongly: it hears that one byte was written, a reset has
      thrown it away, and a close has ended the reset. */
  lemma CloseHidesAReset()
    ensures
      var es := Interrupted();
      && IsRun(Fresh(1), es) && After(Fresh(1), es) == Leftover()
      && Inv(Leftover()) && 0 in Leftover().woken
      && Next(Leftover(), Resumes(0, true)).1 == Wrote(1)
      && Of(Next(Leftover(), Resumes(0, true)).0.accepted, 0) == []
  {
    hide IsRun, After, Inv, Interrupted;
    LeftoverReached();
    LeftKeeps(Leftover(), 0);
  }

  // ----- kernel/pipe.c -----

  /** struct k_pipe, with the calls that wait on it. */
  class KPipe {
    const size: nat
    var ring: seq<Byte>
    var open: bool
    var resetting: bool
    var waiting: nat
    var data: seq<Reader>
    var space: seq<Writer>
    var woken: map<nat, Woken>
    var next: nat
    ghost var accepted: seq<Tagged>
    ghost var delivered: seq<Tagged>
    ghost var lost: set<nat>

    ghost function View(): State
      reads this
    {
      State(size, ring, open, resetting, waiting, data, space, woken, accepted, delivered, next, lost)
    }

    ghost predicate Valid()
      reads this
    {
      Inv(View())
    }

    /** k_pipe_init() */
    constructor (size: nat)
      ensures Valid() && View() == Fresh(size)
    {
      this.size := size;
      ring, open, resetting, waiting, data, space, woken, next := [], true, false, 0, [], [], map[], 0;
      accepted, delivered, lost := [], [], {};
    }

    /** z_sched_wake_all() on the writers. */
    method WakeSpace()
      modifies `space, `woken
      ensures View() == WakeWriters(old(View()))
    {
      while space != []
        invariant WokenWriters(space, woken) == WokenWriters(old(space), old(woken))
        decreases |space|
      {
        woken := woken[space[0].call := WokenWriter(space[0], false)];
        space := space[1..];
      }
    }

    /** z_sched_wake_all() on the readers. */
    method WakeData()
      modifies `data, `woken
      ensures View() == WakeReaders(old(View()))
    {
      while data != []
        invariant WokenReaders(data, woken) == WokenReaders(old(data), old(woken))
        decreases |data|
      {
        woken := woken[data[0].call := WokenReader(data[0], false)];
        data := data[1..];
      }
    }

    /** The body of its loop, under the scheduler lock. */
    method CopyToFirst(w: Writer) returns (v: Writer, satisfied: bool)
      requires data != [] && w.written <= |w.bytes| && |data[0].got| < data[0].len
      modifies `data, `woken, `accepted, `delivered
      ensures (View(), v) == FeedFirst(old(View()), w) && (satisfied <==> |data| < |old(data)|)
    {
      var r := data[0];
      var n := Min(|w.bytes| - w.written, r.len - |r.got|);
      var chunk := w.bytes[w.written..w.written + n];
      var fed := r.(got := r.got + chunk);
      v := w.(written := w.written + n);
      accepted, delivered := accepted + Tags(w.call, chunk), delivered + Tags(r.call, chunk);
      satisfied := |fed.got| >= fed.len;
      if satisfied {
        data := data[1..];
        woken := woken[r.call := WokenReader(fed, false)];
      } else {
        data := [fed] + data[1..];
      }
    }

    /** copy_to_pending_readers() */
    method CopyToPendingReaders(w: Writer) returns (v: Writer)
      requires Writing(View(), w)
      modifies `data, `woken, `accepted, `delivered
      ensures forall r | r in old(data) :: |r.got| < r.len
      ensures (View(), v) == Fed(old(View()), w)
    {
      hide Of, Bytes, Tags, LogsSound, SpaceSound, WaitsSound, FlagsSound, ByPriority, FeedFirst;
      FedKeeps(View(), w);
      v := w;
      var more := data != [];
      while more
        invariant Writing(View(), v) && forall r | r in data :: |r.got| < r.len
        invariant if more then data != [] && Fed(View(), v) == Fed(old(View()), w) else (View(), v) == Fed(old(View()), w)
        decreases more, |data|
      {
        ghost var s, u := View(), v;
        FirstReader(s);
        FeedFirstKeeps(s, u);
        var satisfied;
        v, satisfied := CopyToFirst(v);
        FedKeeps(View(), v);
        more := satisfied && v.written < |v.bytes| && data != [];
      }
    }

    /** The part of the write loop that fills the ring. */
    method FillRing(w: Writer, canWait: bool) returns (ret: Ret)
      requires Writing(View(), w)
      modifies this
      ensures (View(), ret) == PutTurn(old(View()), w, canWait)
    {
      hide Of, Bytes, Tags, DataSound, SpaceSound, ByPriority;
      var n := Min(|w.bytes| - w.written, size - |ring|);
      var chunk := w.bytes[w.written..w.written + n];
      ring := ring + chunk;
      accepted := accepted + Tags(w.call, chunk);
      var v := w.(written := w.written + n);
      if v.written == |v.bytes| {
        return Wrote(v.written);
      }
      if !canWait {
        return if v.written != 0 then Wrote(v.written) else Again;
      }
      waiting := waiting + 1;
      space := Pended(space, v, WriterPriority);
      return Blocks;
    }

    /** The loop of k_pipe_write() until it returns or waits. */
    method WriteLoop(w: Writer, canWait: bool) returns (ret: Ret)
      requires Valid() && Outside(View(), w.call) && WriterSound(View(), w) && !resetting
      modifies this
      ensures Valid() && (View(), ret) == WriteTurn(old(View()), w, canWait)
    {
      hide Of, Bytes, Tags, DataSound, SpaceSound, Inv, Fed, PutTurn, ByPriority;
      WriteTurnKeeps(View(), w, canWait);
      if !open {
        return Broken;
      }
      var v := w;
      FedKeeps(View(), w);
      if ring == [] && waiting != 0 {
        v := CopyToPendingReaders(w);
        if v.written >= |v.bytes| {
          return Wrote(v.written);
        }
      }
      ret := FillRing(v, canWait);
    }

    /** The loop of k_pipe_read() until it returns or waits. */
    method ReadLoop(r: Reader, canWait: bool) returns (ret: Ret)
      requires Valid() && Reading(View(), r)
      modifies this
      ensures Valid() && (View(), ret) == ReadTurn(old(View()), r, canWait)
    {
      hide Of, Bytes, Tags, DataSound, SpaceSound, Inv, WokenWriters, ByPriority;
      ReadTurnKeeps(View(), r, canWait);
      if |ring| == size {
        WakeSpace();
      }
      var n := Min(r.len - |r.got|, |ring|);
      var v := r.(got := r.got + ring[..n]);
      delivered := delivered + Tags(r.call, ring[..n]);
      ring := ring[n..];
      if |v.got| == v.len {
        return Got(v.got);
      }
      if !open {
        return if v.got != [] then Got(v.got) else Broken;
      }
      if !canWait {
        return if v.got != [] then Got(v.got) else Again;
      }
      waiting := waiting + 1;
      data := Pended(data, v, ReaderPriority);
      return Blocks;
    }

    /** k_pipe_write() */
    method KPipeWrite(prio: int, bytes: seq<Byte>, canWait: bool) returns (ret: Ret)
      requires Valid()
      modifies this
      ensures Valid() && (View(), ret) == Write(old(View()), prio, bytes, canWait)
    {
      hide Of, Bytes, Tags, DataSound, SpaceSound, Inv, WriteTurn, ByPriority;
      NewCallKeeps(View());
      var w := Writer(next, prio, bytes, 0);
      next := next + 1;
      if resetting {
        return Canceled;
      }
      ret := WriteLoop(w, canWait);
    }

    /** k_pipe_read() */
    method KPipeRead(prio: int, len: nat, canWait: bool) returns (ret: Ret)
      requires Valid()
      modifies this
      ensures Valid() && (View(), ret) == Read(old(View()), prio, len, canWait)
    {
      hide Of, Bytes, Tags, DataSound, SpaceSound, Inv, ReadTurn, ByPriority;
      NewCallKeeps(View());
      var r := Reader(next, prio, [], len);
      next := next + 1;
      if resetting {
        return Canceled;
      }
      ret := ReadLoop(r, canWait);
    }

    /** The rest of wait_for() and of the loop around it. */
    method ResumeCall(call: nat, canWait: bool) returns (ret: Ret)
      requires Valid() && call in woken
      modifies this
      ensures Valid() && (View(), ret) == Resume(old(View()), call, canWait)
    {
      hide Of, Bytes, Tags, DataSound, SpaceSound, Inv, WriteTurn, ReadTurn, ByPriority;
      ghost var s := View();
      LeftKeeps(s, call);
      var me := woken[call];
      woken := woken - {call};
      waiting := waiting - 1;
      if resetting {
        if waiting == 0 {
          resetting := false;
        }
        assert View() == Left(s, call);
        return Canceled;
      }
      assert View() == Left(s, call);
      match me {
        case WokenReader(r, timedOut) =>
          if timedOut {
            ret := if r.got != [] then Got(r.got) else Again;
          } else {
            ret := ReadLoop(r, canWait);
          }
        case WokenWriter(w, timedOut) =>
          if timedOut {
            ret := if w.written != 0 then Wrote(w.written) else Again;
          } else {
            ret := WriteLoop(w, canWait);
          }
      }
    }

    /** k_pipe_reset() */
    method KPipeReset()
      requires Valid()
      modifies this
      ensures Valid() && |old(ring)| <= |old(accepted)| && View() == Reset(old(View()))
    {
      hide Of, Bytes, Tags, DataSound, SpaceSound, Inv, WokenReaders, WokenWriters, ByPriority;
      ResetKeeps(View());
      lost := lost + Dropped(accepted, |accepted| - |ring|);
      accepted := accepted[..|accepted| - |ring|];
      ring := [];
      if waiting != 0 {
        resetting := true;
        WakeData();
        WakeSpace();
      }
    }

    /** k_pipe_close() */
    method KPipeClose()
      requires Valid()
      modifies this
      ensures Valid() && View() == Close(old(View()))
    {
      hide Of, Bytes, Tags, DataSound, SpaceSound, Inv, WokenReaders, WokenWriters, ByPriority;
      CloseKeeps(View());
      open, resetting := false, false;
      WakeData();
      WakeSpace();
    }
  }
}

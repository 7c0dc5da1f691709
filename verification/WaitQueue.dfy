/**
 Wait queues of the scheduler: threads ordered by priority (a lower number is the
 higher priority), and by arrival among equals.
 */
module WaitQueue {

  ghost predicate ByPriority<T>(q: seq<T>, prio: T -> int) {
    forall i, j | 0 <= i < j < |q| :: prio(q[i]) <= prio(q[j])
  }

  /** The queue with `x` pended on it. */
  function Pended<T>(q: seq<T>, x: T, prio: T -> int): seq<T> {
    if q == [] || prio(x) < prio(q[0]) then [x] + q else [q[0]] + Pended(q[1..], x, prio)
  }

  /** Pending puts the newcomer behind everything of its priority or higher. */
  lemma {:induction false} PendedAt<T>(q: seq<T>, x: T, prio: T -> int) returns (i: nat)
    requires ByPriority(q, prio)
    ensures i <= |q| && Pended(q, x, prio) == q[..i] + [x] + q[i..]
    ensures forall k | 0 <= k < i :: prio(q[k]) <= prio(x)
    ensures forall k | i <= k < |q| :: prio(x) < prio(q[k])
  {
    if q == [] || prio(x) < prio(q[0]) {
      i := 0;
    } else {
      i := PendedAt(q[1..], x, prio);
      assert q[..i + 1] == [q[0]] + q[1..][..i];
      i := i + 1;
    }
  }

  /** The queue stays ordered. */
  lemma PendedByPriority<T>(q: seq<T>, x: T, prio: T -> int)
    requires ByPriority(q, prio)
    ensures ByPriority(Pended(q, x, prio), prio)
  {
    var i := PendedAt(q, x, prio);
    var t := q[..i] + [x] + q[i..];
    assert forall k | 0 <= k < |t| :: t[k] == if k < i then q[k] else if k == i then x else q[k - 1];
  }

  /** The queue gains nothing but the newcomer. */
  lemma {:induction false} PendedElements<T>(q: seq<T>, x: T, prio: T -> int, y: T)
    ensures y in Pended(q, x, prio) <==> y in q || y == x
  {
    if q != [] && prio(x) >= prio(q[0]) {
      PendedElements(q[1..], x, prio, y);
      assert q == [q[0]] + q[1..];
    }
  }

  /** Taking a thread off the queue keeps the order of the others. */
  lemma RemovedByPriority<T>(q: seq<T>, i: nat, prio: T -> int)
    requires i < |q| && ByPriority(q, prio)
    ensures ByPriority(q[..i] + q[i + 1..], prio)
  {
    var t := q[..i] + q[i + 1..];
    assert forall k | 0 <= k < |t| :: t[k] == q[if k < i then k else k + 1];
  }

  /** Unpending the first thread keeps the order of the others, and so does replacing it by
      one of the same priority. */
  lemma FirstByPriority<T>(q: seq<T>, x: T, prio: T -> int)
    requires q != [] && ByPriority(q, prio) && prio(x) == prio(q[0])
    ensures ByPriority(q[1..], prio) && ByPriority([x] + q[1..], prio)
  {
    var t := [x] + q[1..];
    assert forall i | 0 < i < |t| :: t[i] == q[i];
  }
}

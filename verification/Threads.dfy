/** The user-level threads of user/threads.c: a circular doubly linked list of the live
    threads. Seen from the running thread it is a first-in first-out queue, and
    threads take turns. */
module Threads {
  import opened Common

  // ---- The queue ----

  datatype Op<T> = Add(t: T) | Yield | Exit

  /** The running thread is at the front. */
  function Next<T>(q: seq<T>, op: Op<T>): seq<T> {
    match op
    case Add(t) => q + [t]
    case Yield => if q == [] then q else q[1..] + [q[0]]
    case Exit => if q == [] then q else q[1..]
  }

  function Runs<T>(q: seq<T>, ops: seq<Op<T>>): seq<T>
    decreases |ops|
  {
    if ops == [] then q else Runs(Next(q, ops[0]), ops[1..])
  }

  /** The threads dispatched, in order: whoever is at the front after a yield or an exit. */
  function Dispatched<T>(q: seq<T>, ops: seq<Op<T>>): seq<T>
    decreases |ops|
  {
    if ops == [] then []
    else
      var q' := Next(q, ops[0]);
      (if ops[0].Add? || q' == [] then [] else [q'[0]]) + Dispatched(q', ops[1..])
  }

  /** Only threads that are not in the queue are added. */
  ghost predicate Legal<T>(q: seq<T>, ops: seq<Op<T>>)
    decreases |ops|
  {
    ops == [] || ((ops[0].Add? ==> ops[0].t !in q) && Legal(Next(q, ops[0]), ops[1..]))
  }

  /** The thread does not exit while the operations run. */
  ghost predicate Stays<T>(q: seq<T>, ops: seq<Op<T>>, u: T)
    decreases |ops|
  {
    ops == [] || ((ops[0].Exit? && q != [] ==> q[0] != u) && Stays(Next(q, ops[0]), ops[1..], u))
  }

  function Times<T(==)>(s: seq<T>, u: T): nat {
    multiset(s)[u]
  }

  lemma TimesJoin<T>(a: seq<T>, b: seq<T>, u: T)
    ensures Times(a + b, u) == Times(a, u) + Times(b, u)
  {
  }

  lemma NextDistinct<T>(q: seq<T>, op: Op<T>)
    requires Distinct(q) && (op.Add? ==> op.t !in q)
    ensures Distinct(Next(q, op))
  {
  }

  /** How often the thread at i will be dispatched before the one at j is: once if it
      is ahead of that one and is not the running thread, otherwise not at all. */
  function Turns(i: nat, j: nat): nat {
    if 0 < i < j then 1 else 0
  }

  /** t is dispatched at the end, and not before. */
  ghost predicate FirstAtEnd<T>(d: seq<T>, t: T) {
    d != [] && d[|d| - 1] == t && forall k | 0 <= k < |d| - 1 :: d[k] != t
  }

  lemma EndsLater<T>(x: T, d: seq<T>, t: T)
    requires FirstAtEnd([x] + d, t)
    ensures x == t ==> d == []
    ensures x != t ==> FirstAtEnd(d, t)
  {
    var e := [x] + d;
    if d != [] { assert e[0] == x && e[|e| - 1] == d[|d| - 1]; }
    forall k | 0 <= k < |d| - 1 ensures d[k] != t { assert e[k + 1] == d[k]; }
  }

  lemma {:induction false} TurnsTaken<T>(q: seq<T>, ops: seq<Op<T>>, i: nat, j: nat)
    requires Distinct(q) && Legal(q, ops) && i < |q| && 0 < j < |q| && i != j && Stays(q, ops, q[i])
    requires FirstAtEnd(Dispatched(q, ops), q[j])
    ensures Times(Dispatched(q, ops), q[i]) == Turns(i, j)
    decreases |ops|
  {
    hide FirstAtEnd, Times, Distinct;
    assert ops != [] by { NotEmpty(Dispatched(q, ops), q[j]); }
    var op, q' := ops[0], Next(q, ops[0]);
    var d' := Dispatched(q', ops[1..]);
    NextDistinct(q, op);
    Apart(q, i, j);
    if op.Add? {
      assert Dispatched(q, ops) == d';
      TurnsTaken(q', ops[1..], i, j);
    } else {
      Front(q, op, i, j);
      assert Dispatched(q, ops) == [q'[0]] + d';
      TimesJoin([q'[0]], d', q[i]);
      TimesOne(q'[0], q[i]);
      EndsLater(q'[0], d', q[j]);
      var i' := if i == 0 then |q| - 1 else i - 1;
      if j == 1 {
        TimesNone(q[i]);
      } else {
        Apart(q', 0, j - 1);
        TurnsTaken(q', ops[1..], i', j - 1);
        Apart(q', 0, i');
      }
    }
  }

  lemma Apart<T>(q: seq<T>, i: nat, j: nat)
    requires Distinct(q) && i < |q| && j < |q|
    ensures q[i] == q[j] <==> i == j
  {
  }

  lemma TimesOne<T>(x: T, u: T)
    ensures Times([x], u) == if x == u then 1 else 0
  {
  }

  lemma TimesNone<T>(u: T)
    ensures Times([], u) == 0
  {
  }

  /** Where two threads are after a yield or an exit. */
  lemma Front<T>(q: seq<T>, op: Op<T>, i: nat, j: nat)
    requires !op.Add? && i < |q| && 0 < j < |q| && (op.Exit? ==> i > 0)
    ensures var q' := Next(q, op);
            q' != [] && q'[j - 1] == q[j] && (if i == 0 then |q'| == |q| && q'[|q| - 1] == q[0] else q'[i - 1] == q[i])
  {
  }

  /** Round robin: between two dispatches of a thread, every other thread that lives
      throughout is dispatched exactly once. */
  lemma {:induction false} RoundRobin<T>(q: seq<T>, ops: seq<Op<T>>, i: nat)
    requires Distinct(q) && Legal(q, ops) && 0 < i < |q| && Stays(q, ops, q[i]) && Stays(q, ops, q[0])
    requires FirstAtEnd(Dispatched(q, ops), q[0])
    ensures Times(Dispatched(q, ops), q[i]) == 1
    decreases |ops|
  {
    hide FirstAtEnd, Times, Distinct;
    assert ops != [] by { NotEmpty(Dispatched(q, ops), q[0]); }
    var op, q' := ops[0], Next(q, ops[0]);
    NextDistinct(q, op);
    var d' := Dispatched(q', ops[1..]);
    if op.Add? {
      assert Dispatched(q, ops) == d';
      RoundRobin(q', ops[1..], i);
    } else {
      Front(q, op, 0, i);
      assert Dispatched(q, ops) == [q'[0]] + d';
      TimesJoin([q'[0]], d', q[i]);
      TimesOne(q'[0], q[i]);
      Apart(q', 0, |q| - 1);
      Apart(q', 0, i - 1);
      EndsLater(q'[0], d', q[0]);
      TurnsTaken(q', ops[1..], i - 1, |q| - 1);
    }
  }

  lemma NotEmpty<T>(d: seq<T>, t: T)
    requires FirstAtEnd(d, t)
    ensures d != []
  {
  }

  // ---- The linked list ----

  class Thread {
    var next: Thread?
    var previous: Thread?
  }

  class RunQueue {
    var current: Thread?
    ghost var ring: seq<Thread>

    /** The threads of the ring, from the running one on. */
    ghost predicate Valid()
      reads this, ring
    {
      && Distinct(ring)
      && (current == null <==> ring == [])
      && (ring != [] ==> ring[0] == current)
      && (forall k: nat | k < |ring| :: LinkOk(k))
    }

    /** next and previous of the kth thread, around the ring. */
    ghost predicate LinkOk(k: nat)
      requires k < |ring|
      reads this, ring
    {
      && ring[k].next == ring[if k + 1 == |ring| then 0 else k + 1]
      && ring[k].previous == ring[if k == 0 then |ring| - 1 else k - 1]
    }

    constructor ()
      ensures Valid() && ring == []
    {
      current, ring := null, [];
    }

    /** thread_add_runqueue: the new thread goes behind all others. */
    method AddRunqueue(t: Thread)
      requires Valid() && t !in ring
      modifies this, ring, t
      ensures Valid() && ring == Next(old(ring), Add(t))
      ensures |ring| == |old(ring)| + 1 && ring[|old(ring)|] == t
      ensures forall k | 0 <= k < |old(ring)| :: ring[k] == old(ring)[k]
    {
      if current == null {
        current := t;
        current.previous := t;
        current.next := t;
        ring := [t];
      } else {
        ghost var n := |ring|;
        assert LinkOk(0) && LinkOk(n - 1);
        current.previous.next := t;
        t.previous := current.previous;
        current.previous := t;
        t.next := current;
        ring := ring + [t];
        forall k: nat | k < n + 1 ensures LinkOk(k) { if k < n { assert old(LinkOk(k)); } }
      }
    }

    /** schedule: the next thread. */
    method Schedule()
      requires Valid() && ring != []
      modifies this
      ensures Valid() && ring == Next(old(ring), Yield)
      ensures |ring| == |old(ring)| && ring[|ring| - 1] == old(ring)[0] == old(current)
      ensures forall k | 1 <= k < |ring| :: ring[k - 1] == old(ring)[k]
    {
      ghost var n := |ring|;
      assert LinkOk(0);
      current := current.next;
      ring := ring[1..] + [ring[0]];
      forall k: nat | k < n ensures LinkOk(k) { assert old(LinkOk(if k + 1 == n then 0 else k + 1)); }
    }

    /** thread_exit, up to the dispatch of the next thread. */
    method ThreadExit()
      requires Valid() && ring != []
      modifies this, ring
      ensures Valid() && ring == Next(old(ring), Exit)
      ensures |ring| == |old(ring)| - 1 && old(current) !in ring
      ensures forall k | 1 <= k < |old(ring)| :: ring[k - 1] == old(ring)[k]
    {
      ghost var n := |ring|;
      assert LinkOk(0);
      if current.next != current {
        assert n > 1;
        assert LinkOk(1) && LinkOk(n - 1);
        current.next.previous := current.previous;
        current.previous.next := current.next;
        var nextThread := current.next;
        current := nextThread;
        ring := ring[1..];
        forall k: nat | k < n - 1 ensures LinkOk(k) { assert old(LinkOk(k + 1)); }
      } else {
        assert n == 1;
        current := null;
        ring := [];
      }
    }
  }
}

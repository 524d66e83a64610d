/** Who sleeps in virtio_disk_rw, and why (kernel/virtio_disk.c): the machine of Virtio in
    which a sleeping thread goes on only after a wakeup on its channel, or a kill. */
module VirtioWakeups {
  import opened Common
  import opened VirtioRing
  import opened Virtio

  /** woken[t]: thread t, asleep in virtio_disk_rw, has been woken and waits for the lock. */
  datatype Scene = Scene(s: State, woken: seq<bool>)

  datatype Move = Step(a: Action) | Kill(t: nat)

  predicate CanMove(w: Scene, m: Move) {
    && |w.woken| == |w.s.threads|
    && match m
       case Step(a) => Virtio.Enabled(w.s, a) && (a.Wake? ==> w.woken[a.t])
       case Kill(t) => t < |w.woken|
  }

  /** The step calls wakeup(&disk.free[0]): it frees a descriptor, be it one that
      alloc3_desc took in vain. */
  predicate WakesAllocators(s: State, a: Action)
    requires Virtio.Enabled(s, a)
  {
    a.Run? && (s.threads[a.t].Finish? ||
               (s.threads[a.t].Alloc? && Alloc3(s.free) == None && FirstFree(s.free, 0) < NUM))
  }

  /** The step calls wakeup on the buffer of block b. */
  predicate WakesBuffer(s: State, a: Action, b: nat)
    requires Virtio.Enabled(s, a)
  {
    a.IntrRun? && s.intr.Got? && s.info[s.intr.id].b == Some(b)
  }

  function AfterStep(s: State, woken: bool, t: nat, a: Action): bool
    requires Virtio.Enabled(s, a) && t < |s.threads|
  {
    if a.Run? && a.t == t then false
    else
      || woken
      || (s.threads[t].AllocSleep? && WakesAllocators(s, a))
      || (s.threads[t].Sleep? && WakesBuffer(s, a, s.threads[t].req.b))
  }

  function Moved(w: Scene, m: Move): (w': Scene)
    requires CanMove(w, m)
    ensures |w'.woken| == |w'.s.threads| == |w.s.threads|
  {
    match m
    case Step(a) =>
      Scene(Virtio.Effect(w.s, a),
            seq(|w.woken|, t requires 0 <= t < |w.woken| => AfterStep(w.s, w.woken[t], t, a)))
    case Kill(t) => w.(woken := w.woken[t := true])
  }

  ghost predicate Played(w: Scene, moves: seq<Move>, w': Scene)
    decreases |moves|
  {
    if moves == [] then w == w'
    else CanMove(w, moves[0]) && Played(Moved(w, moves[0]), moves[1..], w')
  }

  /** Thread t, if it sleeps and was not woken, has a reason. */
  predicate Reasoned(w: Scene, t: nat)
    requires t < |w.s.threads| == |w.woken| && Sized(w.s)
  {
    var pc := w.s.threads[t];
    && (pc.AllocSleep? && !w.woken[t] ==> Alloc3(w.s.free) == None)
    && (pc.Sleep? && !w.woken[t] ==> pc.req.b < |w.s.bufs| && w.s.bufs[pc.req.b].disk)
  }

  ghost predicate AllReasoned(w: Scene) {
    |w.woken| == |w.s.threads| && Sized(w.s) && forall t: nat | t < |w.s.threads| :: Reasoned(w, t)
  }

  // ---- Three free descriptors ----

  lemma {:induction false} Skipped(free: seq<bool>, i: nat, k: nat)
    requires i <= k < |free| && k < FirstFree(free, i)
    ensures !free[k]
    decreases |free| - i
  {
    if i < k { Skipped(free, i + 1, k); }
  }

  /** alloc3_desc fails exactly if no three descriptors are free. */
  lemma Alloc3Fails(free: seq<bool>)
    requires |free| == NUM
    ensures Alloc3(free) == None <==>
            !exists i: nat, j: nat, k: nat | i < j < k < NUM :: free[i] && free[j] && free[k]
  {
    if Alloc3(free) == None {
      forall i: nat, j: nat, k: nat | i < j < k < NUM ensures !(free[i] && free[j] && free[k]) {
        if free[i] && free[j] && free[k] { ThreeFree(free, i, j, k); }
      }
    } else {
      var c := Alloc3(free).value;
      assert free[c.i0] && free[c.i1] && free[c.i2];
    }
  }

  lemma ThreeFree(free: seq<bool>, i: nat, j: nat, k: nat)
    requires |free| == NUM && i < j < k < NUM && free[i] && free[j] && free[k]
    ensures Alloc3(free).Some?
  {
    hide FirstFree;
    var i0 := FirstFree(free, 0);
    if i0 > i { Skipped(free, 0, i); }
    var i1 := FirstFree(free, i0 + 1);
    if i1 > j { Skipped(free, i0 + 1, j); }
    var i2 := FirstFree(free, i1 + 1);
    if i2 > k { Skipped(free, i1 + 1, k); }
  }

  /** Taking descriptors frees none. */
  lemma FewerFree(free: seq<bool>, free': seq<bool>)
    requires |free| == |free'| == NUM && forall i | 0 <= i < NUM && free'[i] :: free[i]
    ensures Alloc3(free) == None ==> Alloc3(free') == None
  {
    Alloc3Fails(free);
    Alloc3Fails(free');
  }

  // ---- Every move keeps the reasons ----

  lemma OwnStep(w: Scene, a: Action, t: nat)
    requires AllReasoned(w) && CanMove(w, Step(a)) && t < |w.s.threads| && (a.Run? || a.Start? || a.Wake?) && a.t == t
    ensures Reasoned(Moved(w, Step(a)), t)
  {
    hide Alloc3, FirstFree;
  }

  lemma OtherStep(w: Scene, a: Action, t: nat)
    requires AllReasoned(w) && CanMove(w, Step(a)) && t < |w.s.threads| && (a.Run? || a.Start? || a.Wake? ==> a.t != t)
    ensures Reasoned(Moved(w, Step(a)), t)
  {
    hide Alloc3, FirstFree;
    assert Reasoned(w, t);
    var s, s' := w.s, Virtio.Effect(w.s, a);
    assert s'.threads[t] == s.threads[t];
    if s.threads[t].AllocSleep? && !AfterStep(s, w.woken[t], t, a) {
      FreeShrinks(s, a);
      FewerFree(s.free, s'.free);
    }
  }

  lemma FreeShrinks(s: State, a: Action)
    requires Virtio.Enabled(s, a) && !WakesAllocators(s, a)
    ensures forall i | 0 <= i < NUM && Virtio.Effect(s, a).free[i] :: s.free[i]
  {
    hide FirstFree;
  }

  lemma MoveKept(w: Scene, m: Move)
    requires AllReasoned(w) && CanMove(w, m)
    ensures AllReasoned(Moved(w, m))
  {
    hide Reasoned;
    var w' := Moved(w, m);
    forall t: nat | t < |w'.s.threads| ensures Reasoned(w', t) {
      if m.Kill? {
        Killed(w, m.t, t);
      } else if (m.a.Run? || m.a.Start? || m.a.Wake?) && m.a.t == t {
        OwnStep(w, m.a, t);
      } else {
        OtherStep(w, m.a, t);
      }
    }
  }

  lemma Killed(w: Scene, k: nat, t: nat)
    requires AllReasoned(w) && CanMove(w, Kill(k)) && t < |w.s.threads|
    ensures Reasoned(Moved(w, Kill(k)), t)
  {
    hide Alloc3;
    assert Reasoned(w, t);
  }

  lemma {:induction false} PlayedKept(w: Scene, moves: seq<Move>, w': Scene)
    requires AllReasoned(w) && Played(w, moves, w')
    ensures AllReasoned(w')
    decreases |moves|
  {
    hide AllReasoned, CanMove, Moved;
    if moves != [] {
      MoveKept(w, moves[0]);
      PlayedKept(Moved(w, moves[0]), moves[1..], w');
    }
  }

  /** In every run, with or without the lock free: a thread sleeps on its buffer only
      while b->disk is set, and for descriptors only while no three are free, unless it
      has been woken and waits for the lock. */
  lemma SleepersHaveReason(w0: Scene, moves: seq<Move>, w: Scene, t: nat)
    requires Virtio.Init(w0.s) && |w0.woken| == |w0.s.threads| && Played(w0, moves, w)
    requires t < |w.s.threads| && t < |w.woken| && !w.woken[t]
    ensures w.s.threads[t].Sleep? ==> w.s.threads[t].req.b < |w.s.bufs| && w.s.bufs[w.s.threads[t].req.b].disk
    ensures |w.s.free| == NUM
    ensures w.s.threads[t].AllocSleep? ==>
              !exists i: nat, j: nat, k: nat | i < j < k < NUM :: w.s.free[i] && w.s.free[j] && w.s.free[k]
  {
    hide Alloc3;
    assert AllReasoned(w0);
    PlayedKept(w0, moves, w);
    assert Reasoned(w, t);
    Alloc3Fails(w.s.free);
  }

  /** Such a run is one of the machine of Virtio, so that all its results hold of it. */
  lemma {:induction false} PlayedIsPath(w: Scene, moves: seq<Move>, w': Scene) returns (actions: seq<Action>)
    requires Played(w, moves, w')
    ensures Path(w.s, actions, w'.s)
    decreases |moves|
  {
    hide Virtio.Enabled, Virtio.Effect;
    if moves == [] {
      actions := [];
    } else {
      var rest := PlayedIsPath(Moved(w, moves[0]), moves[1..], w');
      if moves[0].Kill? {
        actions := rest;
      } else {
        actions := [moves[0].a] + rest;
        assert actions[1..] == rest;
      }
    }
  }

  // ---- Waiting for descriptors ----

  /** A thread that does not get three descriptors gives the lock up and sleeps; no
      descriptor changes hands. */
  lemma WaitsForDescriptors(w: Scene, t: nat)
    requires t < |w.woken| == |w.s.threads| && CanRun(w.s, t) && w.s.threads[t].Alloc? && Alloc3(w.s.free) == None
    ensures CanMove(w, Step(Run(t)))
    ensures var w' := Moved(w, Step(Run(t)));
            w'.s == Goto(w.s.(lock := Nobody), t, AllocSleep(w.s.threads[t].req)) && !w'.woken[t]
  {
    hide Alloc3, FirstFree;
  }

  /** When another thread has freed its chain and returned, the waiting one goes on with
      three descriptors. */
  lemma FreeingLetsIn(w: Scene, t: nat, u: nat) returns (w': Scene)
    requires t < |w.s.threads| && t < |w.woken| == |w.s.threads| && w.s.threads[t].AllocSleep?
    requires PcSized(w.s, w.s.threads[t]) && CanRun(w.s, u) && w.s.threads[u].Finish? && u != t
    ensures Played(w, [Step(Run(u)), Step(Run(u)), Step(Wake(t)), Step(Run(t))], w')
    ensures Sized(w'.s) && |w'.s.threads| == |w.s.threads|
    ensures w'.s.threads[t].Format? && w'.s.threads[t].req == w.s.threads[t].req
    ensures w'.s.lock == By(t) && w'.s.threads[u] == Idle
    ensures var c := w'.s.threads[t].c; ChainOk(c) && !w'.s.free[c.i0] && !w'.s.free[c.i1] && !w'.s.free[c.i2]
  {
    hide Alloc3, FirstFree, Played, Moved, CanMove;
    var w1, w2 := FreesAndLeaves(w, t, u);
    var w3;
    w3, w' := GoesOn(w2, t, w.s.threads[u].c);
    FourMoves(w, w1, w2, w3, w', Step(Run(u)), Step(Run(u)), Step(Wake(t)), Step(Run(t)));
  }

  lemma FreesAndLeaves(w: Scene, t: nat, u: nat) returns (w1: Scene, w2: Scene)
    requires t < |w.s.threads| && t < |w.woken| == |w.s.threads| && w.s.threads[t].AllocSleep?
    requires PcSized(w.s, w.s.threads[t]) && CanRun(w.s, u) && w.s.threads[u].Finish? && u != t
    ensures CanMove(w, Step(Run(u))) && w1 == Moved(w, Step(Run(u)))
    ensures CanMove(w1, Step(Run(u))) && w2 == Moved(w1, Step(Run(u)))
    ensures |w2.s.threads| == |w2.woken| == |w.s.threads| && Sized(w2.s) && w2.s.lock == Nobody && w2.woken[t]
    ensures w2.s.threads[t] == w.s.threads[t] && PcSized(w2.s, w2.s.threads[t]) && w2.s.threads[u] == Idle
    ensures var c := w.s.threads[u].c; ChainOk(c) && w2.s.free[c.i0] && w2.s.free[c.i1] && w2.s.free[c.i2]
  {
    hide Alloc3, FirstFree;
    w1 := Moved(w, Step(Run(u)));
    assert w1.woken[t];
    w2 := Moved(w1, Step(Run(u)));
  }

  lemma GoesOn(w2: Scene, t: nat, c: Chain) returns (w3: Scene, w4: Scene)
    requires t < |w2.s.threads| == |w2.woken| && Sized(w2.s) && w2.s.lock == Nobody && w2.woken[t]
    requires w2.s.threads[t].AllocSleep? && PcSized(w2.s, w2.s.threads[t])
    requires ChainOk(c) && w2.s.free[c.i0] && w2.s.free[c.i1] && w2.s.free[c.i2]
    ensures CanMove(w2, Step(Wake(t))) && w3 == Moved(w2, Step(Wake(t)))
    ensures CanMove(w3, Step(Run(t))) && w4 == Moved(w3, Step(Run(t)))
    ensures Sized(w4.s) && |w4.s.threads| == |w2.s.threads| && w4.s.lock == By(t)
    ensures w4.s.threads[t].Format? && w4.s.threads[t].req == w2.s.threads[t].req
    ensures forall v | 0 <= v < |w2.s.threads| && v != t :: w4.s.threads[v] == w2.s.threads[v]
    ensures var d := w4.s.threads[t].c; ChainOk(d) && !w4.s.free[d.i0] && !w4.s.free[d.i1] && !w4.s.free[d.i2]
  {
    hide Alloc3, FirstFree;
    w3 := Moved(w2, Step(Wake(t)));
    assert Alloc3(w3.s.free).Some? by { SomeThree(w3.s.free, c); }
    w4 := Moved(w3, Step(Run(t)));
  }

  lemma SomeThree(free: seq<bool>, c: Chain)
    requires |free| == NUM && ChainOk(c) && free[c.i0] && free[c.i1] && free[c.i2]
    ensures Alloc3(free).Some?
  {
    hide Alloc3;
    var a, b, d := c.i0, c.i1, c.i2;
    if a < b < d { ThreeFree(free, a, b, d); }
    else if a < d < b { ThreeFree(free, a, d, b); }
    else if b < a < d { ThreeFree(free, b, a, d); }
    else if b < d < a { ThreeFree(free, b, d, a); }
    else if d < a < b { ThreeFree(free, d, a, b); }
    else { ThreeFree(free, d, b, a); }
  }

  lemma FourMoves(w: Scene, w1: Scene, w2: Scene, w3: Scene, w4: Scene, a: Move, b: Move, c: Move, d: Move)
    requires CanMove(w, a) && w1 == Moved(w, a) && CanMove(w1, b) && w2 == Moved(w1, b)
    requires CanMove(w2, c) && w3 == Moved(w2, c) && CanMove(w3, d) && w4 == Moved(w3, d)
    ensures Played(w, [a, b, c, d], w4)
  {
    hide CanMove, Moved;
    assert Played(w3, [d], w4);
    assert [c, d][1..] == [d];
    assert Played(w2, [c, d], w4);
    assert [b, c, d][1..] == [c, d];
    assert Played(w1, [b, c, d], w4);
    assert [a, b, c, d][1..] == [b, c, d];
  }
}

/** The exit that initproc misses (kernel/proc.c), step by step: a process reads its
    parent, the parent gives it to initproc and exits, initproc finds nothing and
    goes to sleep, and the process then wakes the parent that it read. */
module MissedExit {
  import opened Common
  import opened ExitWait

  lemma {:induction false} PathAppend(s: State, actions: seq<Action>, t: State, a: Action)
    requires Path(s, actions, t) && Enabled(t, a)
    ensures Path(s, actions + [a], Effect(t, a))
    decreases |actions|
  {
    hide Enabled, Effect;
    if actions == [] {
      assert [a][1..] == [];
    } else {
      PathAppend(Effect(s, actions[0]), actions[1..], t, a);
      assert (actions + [a])[1..] == actions[1..] + [a];
    }
  }

  lemma ReachableStep(s: State, a: Action)
    requires Reachable(s) && Enabled(s, a)
    ensures Reachable(Effect(s, a))
  {
    hide Init, Enabled, Effect, Path;
    var s0, actions :| Init(s0) && Path(s0, actions, s);
    PathAppend(s0, actions, s, a);
  }

  /** The first three slots of the process table are a, b and c, the others are vacant. */
  ghost predicate At(s: State, a: Proc, b: Proc, c: Proc) {
    && |s.procs| >= 3 && Behind(s)
    && s.procs[0] == a && s.procs[1] == b && s.procs[2] == c
  }

  ghost predicate Behind(s: State) {
    Reachable(s) && forall k | 3 <= k < |s.procs| :: s.procs[k] == VACANT
  }

  /** The statement at pc writes to no slot behind the third. */
  predicate Near(pc: Pc, p: nat) {
    && (Wants(pc, p).Some? ==> Wants(pc, p).value < 3)
    && (Drops(pc, p).Some? ==> Drops(pc, p).value < 3)
    && (pc.ForkParent? || pc.ForkState? || pc.WaitCheck? || pc.ExitGive? ==> pc.i < 3)
  }

  lemma VacantStays(pc: Pc, p: nat, k: nat)
    requires Near(pc, p) && k >= 3
    ensures Moved(pc, p, k, VACANT) == VACANT
  {
  }

  /** A statement of p. */
  lemma Go(s: State, p: nat) returns (s': State)
    requires |s.procs| >= 3 && Behind(s) && p < 3 && CanRun(s, p) && Near(s.procs[p].pc, p)
    ensures |s'.procs| == |s.procs| && Behind(s')
    ensures s'.procs[0] == if p == 0 then Acted(s, p) else Moved(s.procs[p].pc, p, 0, s.procs[0])
    ensures s'.procs[1] == if p == 1 then Acted(s, p) else Moved(s.procs[p].pc, p, 1, s.procs[1])
    ensures s'.procs[2] == if p == 2 then Acted(s, p) else Moved(s.procs[p].pc, p, 2, s.procs[2])
  {
    hide Reachable, Moved, Acted, Near;
    ReachableStep(s, Run(p));
    s' := Statement(s, p);
    forall k | 3 <= k < |s.procs| ensures s'.procs[k] == VACANT {
      VacantStays(s.procs[p].pc, p, k);
    }
  }

  /** A step of the scheduler, or p's call of fork, wait or exit. */
  lemma Do(s: State, act: Action) returns (s': State)
    requires |s.procs| >= 3 && Behind(s) && Enabled(s, act) && !act.Run? && act.p < 3 && (act.Fork? ==> act.i < 3)
    ensures s' == Effect(s, act) && |s'.procs| == |s.procs| && Behind(s')
  {
    hide Reachable;
    ReachableStep(s, act);
    s' := Effect(s, act);
  }

  /** A running process. */
  function On(pc: Pc, parent: Option<nat>, read: Option<nat>, plock: Holder): Proc {
    Proc(pc, Running, NoChan, parent, read, plock)
  }

  /** A running process that is outside of the code modelled. */
  function Free(parent: Option<nat>): Proc {
    On(Idle, parent, None, Nobody)
  }

  /** initproc, asleep in wait. */
  function Asleep(pc: Pc, plock: Holder): Proc {
    Proc(pc, Sleeping, Self, None, None, plock)
  }

  /** A zombie. */
  function Dead(pc: Pc, parent: Option<nat>, read: Option<nat>, plock: Holder): Proc {
    Proc(pc, Zombie, NoChan, parent, read, plock)
  }

  /** A child that has not run yet. */
  function Unborn(parent: nat, plock: Holder): Proc {
    Proc(Born, Runnable, NoChan, Some(parent), None, plock)
  }

  /** initproc fills in slot 1 ... */
  lemma FirstForked(s: State) returns (s': State)
    requires At(s, Free(None), VACANT, VACANT)
    ensures |s'.procs| == |s.procs|
    ensures At(s', On(ForkRel(1), None, None, Nobody), Unborn(0, By(0)), VACANT)
  {
    hide Behind, Reachable;
    s' := Do(s, Fork(0, 1)); assert At(s', On(ForkCheck(1), None, None, Nobody), VACANT.(plock := By(0)), VACANT);
    s' := Go(s', 0); assert At(s', On(ForkParent(1), None, None, Nobody), VACANT.(plock := By(0)), VACANT);
    s' := Go(s', 0); assert At(s', On(ForkState(1), None, None, Nobody), VACANT.(plock := By(0), parent := Some(0)),
      VACANT);
    s' := Go(s', 0);
  }

  /** ... process 1 runs, and looks at slot 2 in fork ... */
  lemma FirstRuns(s: State) returns (s': State)
    requires At(s, On(ForkRel(1), None, None, Nobody), Unborn(0, By(0)), VACANT)
    ensures |s'.procs| == |s.procs|
    ensures At(s', Free(None), On(ForkCheck(2), Some(0), None, Nobody), VACANT.(plock := By(1)))
  {
    hide Behind, Reachable;
    s' := Go(s, 0); assert At(s', Free(None), Unborn(0, Nobody), VACANT);
    s' := Do(s', SchedTake(1)); assert At(s', Free(None), Unborn(0, Scheduler), VACANT);
    s' := Do(s', SchedRun(1)); assert At(s', Free(None), On(BornBack, Some(0), None, By(1)), VACANT);
    s' := Go(s', 1); assert At(s', Free(None), Free(Some(0)), VACANT);
    s' := Do(s', Fork(1, 2));
  }

  /** ... which it fills in ... */
  lemma SecondForked(s: State) returns (s': State)
    requires At(s, Free(None), On(ForkCheck(2), Some(0), None, Nobody), VACANT.(plock := By(1)))
    ensures |s'.procs| == |s.procs|
    ensures At(s', Free(None), On(ForkState(2), Some(0), None, Nobody), VACANT.(plock := By(1), parent := Some(1)))
  {
    hide Behind, Reachable;
    var a := Free(None);
    s' := Go(s, 1); assert At(s', a, On(ForkParent(2), Some(0), None, Nobody), VACANT.(plock := By(1)));
    s' := Go(s', 1);
  }

  /** ... and process 2 runs. */
  lemma SecondRuns(s: State) returns (s': State)
    requires At(s, Free(None), On(ForkState(2), Some(0), None, Nobody), VACANT.(plock := By(1), parent := Some(1)))
    ensures |s'.procs| == |s.procs|
    ensures At(s', Free(None), Free(Some(0)), Free(Some(1)))
  {
    hide Behind, Reachable;
    var a, b := Free(None), Free(Some(0));
    s' := Go(s, 1); assert At(s', a, On(ForkRel(2), Some(0), None, Nobody), Unborn(1, By(1)));
    s' := Go(s', 1); assert At(s', a, b, Unborn(1, Nobody));
    s' := Do(s', SchedTake(2)); assert At(s', a, b, Unborn(1, Scheduler));
    s' := Do(s', SchedRun(2)); assert At(s', a, b, On(BornBack, Some(1), None, By(2)));
    s' := Go(s', 2);
  }

  /** Process 2 exits; it wakes initproc, which does not sleep ... */
  lemma SecondExits(s: State) returns (s': State)
    requires At(s, Free(None), Free(Some(0)), Free(Some(1)))
    ensures |s'.procs| == |s.procs|
    ensures At(s', Free(None), Free(Some(0)), On(ExitLook, Some(1), None, Nobody))
  {
    hide Behind, Reachable;
    var b := Free(Some(0));
    s' := Do(s, Exit(2)); assert At(s', Free(None), b, On(ExitInit, Some(1), None, Nobody));
    s' := Go(s', 2); assert At(s', On(Idle, None, None, By(2)), b, On(ExitInitWake, Some(1), None, Nobody));
    s' := Go(s', 2); assert At(s', On(Idle, None, None, By(2)), b, On(ExitInitRel, Some(1), None, Nobody));
    s' := Go(s', 2);
  }

  /** ... and reads its parent, process 1. */
  lemma SecondReads(s: State) returns (s': State)
    requires At(s, Free(None), Free(Some(0)), On(ExitLook, Some(1), None, Nobody))
    ensures |s'.procs| == |s.procs|
    ensures At(s', Free(None), Free(Some(0)), On(ExitLockParent(1), Some(1), Some(1), Nobody))
  {
    hide Behind, Reachable;
    var a, b := Free(None), Free(Some(0));
    s' := Go(s, 2); assert At(s', a, b, On(ExitRead, Some(1), None, By(2)));
    s' := Go(s', 2); assert At(s', a, b, On(ExitLookRel(1), Some(1), Some(1), By(2)));
    s' := Go(s', 2);
  }

  /** Process 1 exits; it wakes initproc, which does not sleep ... */
  lemma FirstExits(s: State) returns (s': State)
    requires At(s, Free(None), Free(Some(0)), On(ExitLockParent(1), Some(1), Some(1), Nobody))
    ensures |s'.procs| == |s.procs|
    ensures At(s', Free(None), On(ExitLook, Some(0), None, Nobody), On(ExitLockParent(1), Some(1), Some(1), Nobody))
  {
    hide Behind, Reachable;
    var c := On(ExitLockParent(1), Some(1), Some(1), Nobody);
    s' := Do(s, Exit(1)); assert At(s', Free(None), On(ExitInit, Some(0), None, Nobody), c);
    s' := Go(s', 1); assert At(s', On(Idle, None, None, By(1)), On(ExitInitWake, Some(0), None, Nobody), c);
    s' := Go(s', 1); assert At(s', On(Idle, None, None, By(1)), On(ExitInitRel, Some(0), None, Nobody), c);
    s' := Go(s', 1);
  }

  /** ... and reads its parent, initproc. */
  lemma FirstReads(s: State) returns (s': State)
    requires At(s, Free(None), On(ExitLook, Some(0), None, Nobody), On(ExitLockParent(1), Some(1), Some(1), Nobody))
    ensures |s'.procs| == |s.procs|
    ensures At(s', Free(None), On(ExitLockParent(0), Some(0), Some(0), Nobody),
      On(ExitLockParent(1), Some(1), Some(1), Nobody))
  {
    hide Behind, Reachable;
    var c := On(ExitLockParent(1), Some(1), Some(1), Nobody);
    s' := Go(s, 1); assert At(s', Free(None), On(ExitRead, Some(0), None, By(1)), c);
    s' := Go(s', 1); assert At(s', Free(None), On(ExitLookRel(0), Some(0), Some(0), By(1)), c);
    s' := Go(s', 1);
  }

  /** Process 1 finds its child 2 ... */
  lemma FirstScans(s: State) returns (s': State)
    requires At(s, Free(None), On(ExitLockParent(0), Some(0), Some(0), Nobody),
      On(ExitLockParent(1), Some(1), Some(1), Nobody))
    ensures |s'.procs| == |s.procs|
    ensures At(s', On(Idle, None, None, By(1)), On(ExitScan(0, 2), Some(0), Some(0), By(1)),
      On(ExitLockParent(1), Some(1), Some(1), Nobody))
  {
    hide Behind, Reachable;
    var a, c := On(Idle, None, None, By(1)), On(ExitLockParent(1), Some(1), Some(1), Nobody);
    s' := Go(s, 1); assert At(s', a, On(ExitLockSelf(0), Some(0), Some(0), Nobody), c);
    s' := Go(s', 1); assert At(s', a, On(ExitScan(0, 0), Some(0), Some(0), By(1)), c);
    s' := Go(s', 1); assert At(s', a, On(ExitScan(0, 1), Some(0), Some(0), By(1)), c);
    s' := Go(s', 1);
  }

  /** ... and gives it to initproc. */
  lemma FirstGives(s: State) returns (s': State)
    requires At(s, On(Idle, None, None, By(1)), On(ExitScan(0, 2), Some(0), Some(0), By(1)),
      On(ExitLockParent(1), Some(1), Some(1), Nobody))
    ensures |s'.procs| == |s.procs|
    ensures At(s', On(Idle, None, None, By(1)), On(ExitScan(0, 3), Some(0), Some(0), By(1)),
      On(ExitLockParent(1), Some(0), Some(1), Nobody))
  {
    hide Behind, Reachable;
    var a, c := On(Idle, None, None, By(1)), On(ExitLockParent(1), Some(1), Some(1), Nobody);
    s' := Go(s, 1); assert At(s', a, On(ExitLockChild(0, 2), Some(0), Some(0), By(1)), c);
    s' := Go(s', 1); assert At(s', a, On(ExitGive(0, 2), Some(0), Some(0), By(1)), c.(plock := By(1)));
    s' := Go(s', 1); assert At(s', a, On(ExitNext(0, 2), Some(0), Some(0), By(1)),
      On(ExitLockParent(1), Some(0), Some(1), Nobody).(plock := By(1)));
    s' := Go(s', 1);
  }

  /** reparent finds no child from slot i on. */
  lemma {:induction false} ScansOn(s: State, p: nat, i: nat) returns (s': State)
    requires |s.procs| >= 3 && Behind(s) && 1 <= p < 3 && i <= |s.procs| && s.procs[p].pc == ExitScan(p - 1, i)
    requires forall k | i <= k < 3 :: s.procs[k].parent != Some(p)
    ensures |s'.procs| == |s.procs| && Behind(s') && s'.procs[0] == s.procs[0]
    ensures s'.procs[1] == if p == 1 then s.procs[1].(pc := ExitWake(0)) else s.procs[1]
    ensures s'.procs[2] == if p == 2 then s.procs[2].(pc := ExitWake(1)) else s.procs[2]
    decreases |s.procs| - i
  {
    hide Reachable;
    s' := Go(s, p);
    if i < |s.procs| { s' := ScansOn(s', p, i + 1); }
  }

  /** Process 1 wakes initproc, which does not sleep, and becomes a zombie. */
  lemma FirstEnds(s: State) returns (s': State)
    requires At(s, On(Idle, None, None, By(1)), On(ExitWake(0), Some(0), Some(0), By(1)),
      On(ExitLockParent(1), Some(0), Some(1), Nobody))
    ensures |s'.procs| == |s.procs|
    ensures At(s', Free(None), Dead(Off, Some(0), Some(0), Nobody), On(ExitLockParent(1), Some(0), Some(1), Nobody))
  {
    hide Behind, Reachable;
    var c := On(ExitLockParent(1), Some(0), Some(1), Nobody);
    s' := Go(s, 1); assert At(s', On(Idle, None, None, By(1)), On(ExitZombie(0), Some(0), Some(0), By(1)), c);
    s' := Go(s', 1); assert At(s', On(Idle, None, None, By(1)), Dead(ExitRel(0), Some(0), Some(0), By(1)), c);
    s' := Go(s', 1); assert At(s', Free(None), Dead(ExitSwitch, Some(0), Some(0), By(1)), c);
    s' := Go(s', 1); assert At(s', Free(None), Dead(Off, Some(0), Some(0), Scheduler), c);
    s' := Do(s', SchedDrop(1));
  }

  /** initproc waits, finds process 1 ... */
  lemma InitWaits(s: State) returns (s': State)
    requires At(s, Free(None), Dead(Off, Some(0), Some(0), Nobody), On(ExitLockParent(1), Some(0), Some(1), Nobody))
    ensures |s'.procs| == |s.procs|
    ensures At(s', On(WaitLock(1), None, None, By(0)), Dead(Off, Some(0), Some(0), Nobody),
      On(ExitLockParent(1), Some(0), Some(1), Nobody))
  {
    hide Behind, Reachable;
    var b, c := Dead(Off, Some(0), Some(0), Nobody), On(ExitLockParent(1), Some(0), Some(1), Nobody);
    s' := Do(s, Wait(0)); assert At(s', On(WaitAcq, None, None, Nobody), b, c);
    s' := Go(s', 0); assert At(s', On(WaitScan(0, false), None, None, By(0)), b, c);
    s' := Go(s', 0); assert At(s', On(WaitScan(1, false), None, None, By(0)), b, c);
    s' := Go(s', 0);
  }

  /** ... and frees it. */
  lemma InitReaps(s: State) returns (s': State)
    requires At(s, On(WaitLock(1), None, None, By(0)), Dead(Off, Some(0), Some(0), Nobody),
      On(ExitLockParent(1), Some(0), Some(1), Nobody))
    ensures |s'.procs| == |s.procs|
    ensures At(s', Free(None), VACANT, On(ExitLockParent(1), Some(0), Some(1), Nobody))
  {
    hide Behind, Reachable;
    var b, c := Dead(Off, Some(0), Some(0), Nobody), On(ExitLockParent(1), Some(0), Some(1), Nobody);
    s' := Go(s, 0); assert At(s', On(WaitCheck(1), None, None, By(0)), b.(plock := By(0)), c);
    s' := Go(s', 0); assert At(s', On(WaitReap(1), None, None, By(0)), VACANT.(plock := By(0)), c);
    s' := Go(s', 0); assert At(s', On(WaitDone, None, None, By(0)), VACANT, c);
    s' := Go(s', 0);
  }

  /** initproc waits again ... */
  lemma InitWaitsAgain(s: State) returns (s': State)
    requires At(s, Free(None), VACANT, On(ExitLockParent(1), Some(0), Some(1), Nobody))
    ensures |s'.procs| == |s.procs|
    ensures At(s', On(WaitScan(2, false), None, None, By(0)), VACANT, On(ExitLockParent(1), Some(0), Some(1), Nobody))
  {
    hide Behind, Reachable;
    var c := On(ExitLockParent(1), Some(0), Some(1), Nobody);
    s' := Do(s, Wait(0)); assert At(s', On(WaitAcq, None, None, Nobody), VACANT, c);
    s' := Go(s', 0); assert At(s', On(WaitScan(0, false), None, None, By(0)), VACANT, c);
    s' := Go(s', 0); assert At(s', On(WaitScan(1, false), None, None, By(0)), VACANT, c);
    s' := Go(s', 0);
  }

  /** ... and finds that its child 2 is no zombie. */
  lemma InitChecks(s: State) returns (s': State)
    requires At(s, On(WaitScan(2, false), None, None, By(0)), VACANT, On(ExitLockParent(1), Some(0), Some(1), Nobody))
    ensures |s'.procs| == |s.procs|
    ensures At(s', On(WaitScan(3, true), None, None, By(0)), VACANT, On(ExitLockParent(1), Some(0), Some(1), Nobody))
  {
    hide Behind, Reachable;
    var c := On(ExitLockParent(1), Some(0), Some(1), Nobody);
    s' := Go(s, 0); assert At(s', On(WaitLock(2), None, None, By(0)), VACANT, c);
    s' := Go(s', 0); assert At(s', On(WaitCheck(2), None, None, By(0)), VACANT, c.(plock := By(0)));
    s' := Go(s', 0); assert At(s', On(WaitNext(2), None, None, By(0)), VACANT, c.(plock := By(0)));
    s' := Go(s', 0);
  }

  /** wait finds no child in the vacant slots. */
  lemma {:induction false} WaitsOn(s: State, i: nat) returns (s': State)
    requires |s.procs| >= 3 && Behind(s) && 3 <= i <= |s.procs| && s.procs[0].pc == WaitScan(i, true)
    ensures |s'.procs| == |s.procs| && Behind(s')
    ensures s'.procs[0] == s.procs[0].(pc := WaitMark) && s'.procs[1] == s.procs[1] && s'.procs[2] == s.procs[2]
    decreases |s.procs| - i
  {
    hide Reachable;
    s' := Go(s, 0);
    if i < |s.procs| { s' := WaitsOn(s', i + 1); }
  }

  /** initproc goes to sleep. */
  lemma InitSleeps(s: State) returns (s': State)
    requires At(s, On(WaitMark, None, None, By(0)), VACANT, On(ExitLockParent(1), Some(0), Some(1), Nobody))
    ensures |s'.procs| == |s.procs|
    ensures At(s', Asleep(WaitAsleep, Nobody), VACANT, On(ExitLockParent(1), Some(0), Some(1), Nobody))
  {
    hide Behind, Reachable;
    var c := On(ExitLockParent(1), Some(0), Some(1), Nobody);
    s' := Go(s, 0); assert At(s', Asleep(WaitSwitch, By(0)), VACANT, c);
    s' := Go(s', 0); assert At(s', Asleep(WaitAsleep, Scheduler), VACANT, c);
    s' := Do(s', SchedDrop(0));
  }

  /** Process 2 takes the lock of the parent it read, then its own. */
  lemma SecondLocks(s: State) returns (s': State)
    requires At(s, Asleep(WaitAsleep, Nobody), VACANT, On(ExitLockParent(1), Some(0), Some(1), Nobody))
    ensures |s'.procs| == |s.procs|
    ensures At(s', Asleep(WaitAsleep, Nobody), VACANT.(plock := By(2)), On(ExitScan(1, 0), Some(0), Some(1), By(2)))
  {
    hide Behind, Reachable;
    var a, b := Asleep(WaitAsleep, Nobody), VACANT.(plock := By(2));
    s' := Go(s, 2); assert At(s', a, b, On(ExitLockSelf(1), Some(0), Some(1), Nobody));
    s' := Go(s', 2);
  }

  /** Process 2 wakes whoever is in the slot of the parent it read, and becomes a zombie. */
  lemma SecondEnds(s: State) returns (s': State)
    requires At(s, Asleep(WaitAsleep, Nobody), VACANT.(plock := By(2)), On(ExitWake(1), Some(0), Some(1), By(2)))
    ensures |s'.procs| == |s.procs|
    ensures At(s', Asleep(WaitAsleep, Nobody), VACANT, Dead(Off, Some(0), Some(1), Nobody))
  {
    hide Behind, Reachable;
    var a, b := Asleep(WaitAsleep, Nobody), VACANT.(plock := By(2));
    s' := Go(s, 2); assert At(s', a, b, On(ExitZombie(1), Some(0), Some(1), By(2)));
    s' := Go(s', 2); assert At(s', a, b, Dead(ExitRel(1), Some(0), Some(1), By(2)));
    s' := Go(s', 2); assert At(s', a, VACANT, Dead(ExitSwitch, Some(0), Some(1), By(2)));
    s' := Go(s', 2); assert At(s', a, VACANT, Dead(Off, Some(0), Some(1), Scheduler));
    s' := Do(s', SchedDrop(2));
  }

  lemma PoweredOn(n: nat) returns (s: State)
    requires n >= 3
    ensures |s.procs| == n && At(s, Free(None), VACANT, VACANT)
  {
    s := State(seq(n, i => if i == INIT then Free(None) else VACANT));
    assert Init(s) && Path(s, [], s);
  }

  lemma FirstHalf(n: nat) returns (s: State)
    requires n >= 3
    ensures |s.procs| == n && At(s, Free(None), Dead(Off, Some(0), Some(0), Nobody),
      On(ExitLockParent(1), Some(0), Some(1), Nobody))
  {
    hide Reachable, Behind;
    s := PoweredOn(n);
    s := FirstForked(s); s := FirstRuns(s); s := SecondForked(s); s := SecondRuns(s);
    s := SecondExits(s); s := SecondReads(s); s := FirstExits(s); s := FirstReads(s);
    s := FirstScans(s); s := FirstGives(s); s := ScansOn(s, 1, 3); s := FirstEnds(s);
  }

  /** In a table of three or more slots initproc can miss an exit for good: it
      sleeps in wait, its child is a zombie, and nobody is left to wake it. */
  lemma InitMissesExit(n: nat) returns (s: State)
    requires n >= 3
    ensures Reachable(s) && |s.procs| == n && SleepsInWait(s.procs[INIT])
    ensures s.procs[2].parent == Some(INIT) && s.procs[2].state == Zombie
    ensures forall p | 1 <= p < n :: s.procs[p].pc == Off
  {
    hide Reachable;
    s := FirstHalf(n);
    s := InitWaits(s); s := InitReaps(s); s := InitWaitsAgain(s); s := InitChecks(s); s := WaitsOn(s, 3);
    s := InitSleeps(s); s := SecondLocks(s); s := ScansOn(s, 2, 0); s := SecondEnds(s);
  }

  /** A process sleeps in wait and has a zombie child. */
  ghost predicate Misses(s: State, p: nat, q: nat) {
    && p < |s.procs| && q < |s.procs|
    && SleepsInWait(s.procs[p]) && s.procs[q].parent == Some(p) && s.procs[q].state == Zombie
  }

  /** No exit is missed, by any process and in any run, exactly when the table has
      at most two slots; NPROC is 64. */
  lemma NoExitMissedExact(n: nat)
    ensures (forall s, p, q | Reachable(s) && |s.procs| == n :: !Misses(s, p, q)) <==> n <= 2
  {
    hide Reachable;
    if n <= 2 {
      forall s, p, q | Reachable(s) && |s.procs| == n ensures !Misses(s, p, q) {
        if Misses(s, p, q) { MissedOnlyIfGivenAway(s, p, q); }
      }
    } else {
      var s := InitMissesExit(n);
      assert Misses(s, INIT, 2);
    }
  }
}

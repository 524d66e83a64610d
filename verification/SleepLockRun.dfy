/** Two processes and one sleep lock (kernel/sleeplock.c), step by step: one takes the
    lock, the other goes to sleep on it, the first gives it up and wakes the other,
    which takes it. */
module SleepLockRun {
  import opened Common
  import opened SleepLock

  /** A run leads from s0 to s. */
  ghost predicate Leads(s0: State, s: State) {
    exists actions :: Path(s0, actions, s)
  }

  lemma {:induction false} PathAppend(s: State, actions: seq<Action>, t: State, a: Action)
    requires Path(s, actions, t) && Enabled(t, a)
    ensures Path(s, actions + [a], Effect(t, a))
    decreases |actions|
  {
    hide Enabled, Effect;
    if actions == [] {
      assert [a][1..] == [];
    } else {
      PathAppend(Effect(s, actions[0]), actions[1..], t, a);
      assert (actions + [a])[1..] == actions[1..] + [a];
    }
  }

  lemma LeadsOn(s0: State, s: State, a: Action)
    requires Leads(s0, s) && Enabled(s, a)
    ensures Leads(s0, Effect(s, a))
  {
    hide Enabled, Effect, Path;
    var actions :| Path(s0, actions, s);
    PathAppend(s0, actions, s, a);
  }

  /** The two processes and the lock, in a run from s0. */
  ghost predicate At(s0: State, s: State, a: Proc, b: Proc, k: Lock) {
    Leads(s0, s) && s.procs == [a, b] && s.locks == [k]
  }

  lemma Go(s0: State, s: State, a: Action) returns (s': State)
    requires Leads(s0, s) && Enabled(s, a)
    ensures Leads(s0, s') && s' == Effect(s, a)
  {
    hide Enabled, Effect;
    LeadsOn(s0, s, a);
    s' := Effect(s, a);
  }

  /** A process that runs, and is not in a call. */
  function Free(held: set<nat>): Proc {
    On(Idle, Nobody, held)
  }

  function On(pc: Pc, plock: Holder, held: set<nat>): Proc {
    Proc(pc, Running, None, plock, held)
  }

  /** The second process, asleep or woken. */
  function Waits(pc: Pc, state: RunState, plock: Holder): Proc {
    Proc(pc, state, Some(0), plock, {})
  }

  /** The first process takes the lock ... */
  lemma FirstTakes(s0: State, s: State) returns (s': State)
    requires At(s0, s, Free({}), Free({}), Lock(None, false, None))
    ensures At(s0, s', Free({0}), Free({}), Lock(None, true, Some(0)))
  {
    hide Leads;
    var b := Free({});
    var none: set<nat> := {};
    assert none + {0} == {0};
    s' := Go(s0, s, Acquire(0, 0)); assert At(s0, s', On(AcqInner(0), Nobody, {}), b, Lock(None, false, None));
    s' := Go(s0, s', Run(0)); assert At(s0, s', On(Test(0), Nobody, {}), b, Lock(Some(0), false, None));
    s' := Go(s0, s', Run(0)); assert At(s0, s', On(Take(0), Nobody, {}), b, Lock(Some(0), false, None));
    s' := Go(s0, s', Run(0)); assert At(s0, s', On(AcqDone(0), Nobody, {0}), b, Lock(Some(0), true, Some(0)));
    s' := Go(s0, s', Run(0)); assert At(s0, s', Free({0}), b, Lock(None, true, Some(0)));
  }

  /** ... the second finds it taken ... */
  lemma SecondFindsItTaken(s0: State, s: State) returns (s': State)
    requires At(s0, s, Free({0}), Free({}), Lock(None, true, Some(0)))
    ensures At(s0, s', Free({0}), On(DropInner(0), By(1), {}), Lock(Some(1), true, Some(0)))
  {
    hide Leads;
    var a := Free({0});
    s' := Go(s0, s, Acquire(1, 0)); assert At(s0, s', a, On(AcqInner(0), Nobody, {}), Lock(None, true, Some(0)));
    s' := Go(s0, s', Run(1)); assert At(s0, s', a, On(Test(0), Nobody, {}), Lock(Some(1), true, Some(0)));
    s' := Go(s0, s', Run(1)); assert At(s0, s', a, On(LockSelf(0), Nobody, {}), Lock(Some(1), true, Some(0)));
    s' := Go(s0, s', Run(1)); assert At(s0, s', a, On(DropInner(0), By(1), {}), Lock(Some(1), true, Some(0)));
  }

  /** ... and goes to sleep. */
  lemma SecondSleeps(s0: State, s: State) returns (s': State)
    requires At(s0, s, Free({0}), On(DropInner(0), By(1), {}), Lock(Some(1), true, Some(0)))
    ensures At(s0, s', Free({0}), Waits(Asleep(0), Sleeping, Nobody), Lock(None, true, Some(0)))
  {
    hide Leads;
    var a, k := Free({0}), Lock(None, true, Some(0));
    s' := Go(s0, s, Run(1)); assert At(s0, s', a, On(Mark(0), By(1), {}), k);
    s' := Go(s0, s', Run(1)); assert At(s0, s', a, Waits(Switch(0), Sleeping, By(1)), k);
    s' := Go(s0, s', Run(1)); assert At(s0, s', a, Waits(Asleep(0), Sleeping, Scheduler), k);
    s' := Go(s0, s', SchedDrop(1)); assert At(s0, s', a, Waits(Asleep(0), Sleeping, Nobody), k);
  }

  /** The first process gives the lock up ... */
  lemma FirstGivesUp(s0: State, s: State) returns (s': State)
    requires At(s0, s, Free({0}), Waits(Asleep(0), Sleeping, Nobody), Lock(None, true, Some(0)))
    ensures At(s0, s', On(Scan(0, 0), Nobody, {}), Waits(Asleep(0), Sleeping, Nobody), Lock(Some(0), false, None))
  {
    hide Leads;
    var b := Waits(Asleep(0), Sleeping, Nobody);
    var one: set<nat> := {0};
    assert one - {0} == {};
    s' := Go(s0, s, Release(0, 0)); assert At(s0, s', On(RelInner(0), Nobody, {0}), b, Lock(None, true, Some(0)));
    s' := Go(s0, s', Run(0)); assert At(s0, s', On(Clear(0), Nobody, {0}), b, Lock(Some(0), true, Some(0)));
    s' := Go(s0, s', Run(0)); assert At(s0, s', On(Scan(0, 0), Nobody, {}), b, Lock(Some(0), false, None));
  }

  /** ... looks at itself ... */
  lemma FirstScansItself(s0: State, s: State) returns (s': State)
    requires At(s0, s, On(Scan(0, 0), Nobody, {}), Waits(Asleep(0), Sleeping, Nobody), Lock(Some(0), false, None))
    ensures At(s0, s', On(Scan(0, 1), Nobody, {}), Waits(Asleep(0), Sleeping, Nobody), Lock(Some(0), false, None))
  {
    hide Leads;
    var b, k := Waits(Asleep(0), Sleeping, Nobody), Lock(Some(0), false, None);
    s' := Go(s0, s, Run(0)); assert At(s0, s', On(Check(0, 0), By(0), {}), b, k);
    s' := Go(s0, s', Run(0)); assert At(s0, s', On(Next(0, 0), By(0), {}), b, k);
    s' := Go(s0, s', Run(0)); assert At(s0, s', On(Scan(0, 1), Nobody, {}), b, k);
  }

  /** ... wakes the second ... */
  lemma FirstWakes(s0: State, s: State) returns (s': State)
    requires At(s0, s, On(Scan(0, 1), Nobody, {}), Waits(Asleep(0), Sleeping, Nobody), Lock(Some(0), false, None))
    ensures At(s0, s', On(Scan(0, 2), Nobody, {}), Waits(Asleep(0), Runnable, Nobody), Lock(Some(0), false, None))
  {
    hide Leads;
    var k := Lock(Some(0), false, None);
    s' := Go(s0, s, Run(0)); assert At(s0, s', On(Check(0, 1), Nobody, {}), Waits(Asleep(0), Sleeping, By(0)), k);
    s' := Go(s0, s', Run(0)); assert At(s0, s', On(Next(0, 1), Nobody, {}), Waits(Asleep(0), Runnable, By(0)), k);
    s' := Go(s0, s', Run(0)); assert At(s0, s', On(Scan(0, 2), Nobody, {}), Waits(Asleep(0), Runnable, Nobody), k);
  }

  /** ... and returns. */
  lemma FirstReturns(s0: State, s: State) returns (s': State)
    requires At(s0, s, On(Scan(0, 2), Nobody, {}), Waits(Asleep(0), Runnable, Nobody), Lock(Some(0), false, None))
    ensures At(s0, s', Free({}), Waits(Asleep(0), Runnable, Nobody), Lock(None, false, None))
  {
    hide Leads;
    var b := Waits(Asleep(0), Runnable, Nobody);
    s' := Go(s0, s, Run(0)); assert At(s0, s', On(RelDone(0), Nobody, {}), b, Lock(Some(0), false, None));
    s' := Go(s0, s', Run(0)); assert At(s0, s', Free({}), b, Lock(None, false, None));
  }

  /** The second process runs again ... */
  lemma SecondRuns(s0: State, s: State) returns (s': State)
    requires At(s0, s, Free({}), Waits(Asleep(0), Runnable, Nobody), Lock(None, false, None))
    ensures At(s0, s', Free({}), On(AcqInner(0), Nobody, {}), Lock(None, false, None))
  {
    hide Leads;
    var a := Free({});
    s' := Go(s0, s, SchedTake(1)); assert At(s0, s', a, Waits(Asleep(0), Runnable, Scheduler), Lock(None, false, None));
    s' := Go(s0, s', SchedRun(1)); assert At(s0, s', a, Waits(Woken(0), Running, By(1)), Lock(None, false, None));
    s' := Go(s0, s', Run(1)); assert At(s0, s', a, On(DropSelf(0), By(1), {}), Lock(None, false, None));
    s' := Go(s0, s', Run(1)); assert At(s0, s', a, On(AcqInner(0), Nobody, {}), Lock(None, false, None));
  }

  /** ... and takes the lock. */
  lemma SecondTakes(s0: State, s: State) returns (s': State)
    requires At(s0, s, Free({}), On(AcqInner(0), Nobody, {}), Lock(None, false, None))
    ensures At(s0, s', Free({}), Free({0}), Lock(None, true, Some(1)))
  {
    hide Leads;
    var a := Free({});
    var none: set<nat> := {};
    assert none + {0} == {0};
    s' := Go(s0, s, Run(1)); assert At(s0, s', a, On(Test(0), Nobody, {}), Lock(Some(1), false, None));
    s' := Go(s0, s', Run(1)); assert At(s0, s', a, On(Take(0), Nobody, {}), Lock(Some(1), false, None));
    s' := Go(s0, s', Run(1)); assert At(s0, s', a, On(AcqDone(0), Nobody, {0}), Lock(Some(1), true, Some(1)));
    s' := Go(s0, s', Run(1)); assert At(s0, s', a, Free({0}), Lock(None, true, Some(1)));
  }

  /** A run in which two processes hold one lock one after the other, the second having
      slept on it meanwhile: s1 is when the first holds it and the other sleeps, s2 when
      the other holds it. */
  lemma HandedOver() returns (s1: State, s2: State)
    ensures Reachable(s1) && Leads(s1, s2) && |s1.procs| == |s2.procs| == 2 && |s1.locks| == |s2.locks| == 1
    ensures 0 in s1.procs[0].held && s1.procs[1].state == Sleeping && s1.procs[1].chan == Some(0)
    ensures 0 !in s2.procs[0].held && 0 in s2.procs[1].held && s2.locks[0] == Lock(None, true, Some(1))
    ensures s2.procs[0].pc == s2.procs[1].pc == Idle
  {
    hide Leads, Path;
    var s0 := State([Free({}), Free({})], [Lock(None, false, None)]);
    assert Leads(s0, s0) by { Stays(s0); }
    s1 := FirstTakes(s0, s0); s1 := SecondFindsItTaken(s0, s1); s1 := SecondSleeps(s0, s1);
    assert Reachable(s1) by { FromStart(s0, s1); }
    assert Leads(s1, s1) by { Stays(s1); }
    s2 := FirstGivesUp(s1, s1); s2 := FirstScansItself(s1, s2); s2 := FirstWakes(s1, s2); s2 := FirstReturns(s1, s2);
    s2 := SecondRuns(s1, s2); s2 := SecondTakes(s1, s2);
  }

  lemma Stays(s: State)
    ensures Leads(s, s)
  {
    assert Path(s, [], s);
  }

  lemma FromStart(s0: State, s: State)
    requires Init(s0) && Leads(s0, s)
    ensures Reachable(s)
  {
  }
}

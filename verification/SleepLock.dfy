/** Sleep locks over sleep and wakeup (kernel/sleeplock.c, kernel/proc.c) as a
    state machine. Any number of processes and sleep locks interleave at the
    granularity of single statements; spin locks are what makes a process wait.
    The scheduler takes a process's lock, may switch to the process, which then
    holds that lock, and gets it back when the process calls sched. */
module SleepLock {
  import opened Common

  datatype RunState = Running | Sleeping | Runnable

  /** Where a process is. The argument l is the sleep lock in question. */
  datatype Pc =
    | Idle
    // acquiresleep
    | AcqInner(l: nat)          // takes the inner spin lock, also at the end of sleep
    | Test(l: nat)              // is the sleep lock taken?
    | Take(l: nat)              // takes the sleep lock
    | AcqDone(l: nat)           // gives up the inner spin lock
    // sleep
    | LockSelf(l: nat)          // sleep: takes its own process lock
    | DropInner(l: nat)         // gives up the inner spin lock
    | Mark(l: nat)              // sets its channel and becomes SLEEPING
    | Switch(l: nat)            // switches to the scheduler
    | Asleep(l: nat)            // not on a cpu
    | Woken(l: nat)             // back: clears its channel
    | DropSelf(l: nat)          // gives up its own process lock
    // releasesleep, with wakeup inside
    | RelInner(l: nat)          // takes the inner spin lock
    | Clear(l: nat)             // gives up the sleep lock
    | Scan(l: nat, i: nat)      // wakeup: takes the lock of process i, or is past the table
    | Check(l: nat, i: nat)     // wake proc[i] if it sleeps on the channel
    | Next(l: nat, i: nat)      // gives up the lock of process i
    | RelDone(l: nat)           // gives up the inner spin lock

  /** Who holds a process's lock. */
  datatype Holder = Nobody | Scheduler | By(p: nat)

  datatype Proc = Proc(pc: Pc, state: RunState, chan: Option<nat>, plock: Holder, held: set<nat>)

  /** inner is lk->lk's holder; owner is the process lk->pid stands for. */
  datatype Lock = Lock(inner: Option<nat>, locked: bool, owner: Option<nat>)

  datatype State = State(procs: seq<Proc>, locks: seq<Lock>)

  datatype Action =
    | Acquire(p: nat, l: nat)   // p calls acquiresleep
    | Release(p: nat, l: nat)   // p calls releasesleep on a lock it holds
    | Run(p: nat)               // p executes its next statement
    | SchedTake(p: nat)         // the scheduler acquires p->lock
    | SchedRun(p: nat)          // ... and switches to p, if p is RUNNABLE
    | SchedDrop(p: nat)         // ... or releases p->lock
    | Kill(p: nat)              // kill, or a wakeup on another channel: p may wake for no reason

  predicate Init(s: State) {
    && (forall p | 0 <= p < |s.procs| :: s.procs[p] == Proc(Idle, Running, None, Nobody, {}))
    && (forall l | 0 <= l < |s.locks| :: s.locks[l] == Lock(None, false, None))
  }

  // ---- One statement of a process ----

  predicate CanRun(s: State, p: nat) {
    && p < |s.procs| && s.procs[p].state != Runnable && !s.procs[p].pc.Idle? && !s.procs[p].pc.Asleep?
    && s.procs[p].pc.l < |s.locks|
    && Ready(s, p, s.procs[p].pc)
  }

  /** The spin lock that the statement acquires is free. */
  predicate Ready(s: State, p: nat, pc: Pc)
    requires p < |s.procs| && !pc.Idle? && pc.l < |s.locks|
  {
    if pc.AcqInner? || pc.RelInner? then s.locks[pc.l].inner == None
    else if pc.LockSelf? then s.procs[p].plock == Nobody
    else if pc.Scan? then pc.i >= |s.procs| || s.procs[pc.i].plock == Nobody
    else if pc.Check? || pc.Next? then pc.i < |s.procs|
    else true
  }

  function SetPc(s: State, p: nat, pc: Pc): State
    requires p < |s.procs|
  {
    s.(procs := s.procs[p := s.procs[p].(pc := pc)])
  }

  function SetPlock(s: State, i: nat, h: Holder): State
    requires i < |s.procs|
  {
    s.(procs := s.procs[i := s.procs[i].(plock := h)])
  }

  function SetInner(s: State, l: nat, h: Option<nat>): State
    requires l < |s.locks|
  {
    s.(locks := s.locks[l := s.locks[l].(inner := h)])
  }

  function Statement(s: State, p: nat): State
    requires CanRun(s, p)
  {
    match s.procs[p].pc
    case AcqInner(l) => SetPc(SetInner(s, l, Some(p)), p, Test(l))
    case Test(l) => SetPc(s, p, if s.locks[l].locked then LockSelf(l) else Take(l))
    case Take(l) =>
      s.(locks := s.locks[l := s.locks[l].(locked := true, owner := Some(p))],
         procs := s.procs[p := s.procs[p].(pc := AcqDone(l), held := s.procs[p].held + {l})])
    case AcqDone(l) => SetPc(SetInner(s, l, None), p, Idle)
    case LockSelf(l) => SetPc(SetPlock(s, p, By(p)), p, DropInner(l))
    case DropInner(l) => SetPc(SetInner(s, l, None), p, Mark(l))
    case Mark(l) => s.(procs := s.procs[p := s.procs[p].(pc := Switch(l), chan := Some(l), state := Sleeping)])
    case Switch(l) => SetPc(SetPlock(s, p, Scheduler), p, Asleep(l))
    case Woken(l) => s.(procs := s.procs[p := s.procs[p].(pc := DropSelf(l), chan := None)])
    case DropSelf(l) => SetPc(SetPlock(s, p, Nobody), p, AcqInner(l))
    case RelInner(l) => SetPc(SetInner(s, l, Some(p)), p, Clear(l))
    case Clear(l) =>
      s.(locks := s.locks[l := s.locks[l].(locked := false, owner := None)],
         procs := s.procs[p := s.procs[p].(pc := Scan(l, 0), held := s.procs[p].held - {l})])
    case Scan(l, i) =>
      if i >= |s.procs| then SetPc(s, p, RelDone(l)) else SetPc(SetPlock(s, i, By(p)), p, Check(l, i))
    case Check(l, i) =>
      SetPc(if s.procs[i].state == Sleeping && s.procs[i].chan == Some(l)
            then s.(procs := s.procs[i := s.procs[i].(state := Runnable)]) else s, p, Next(l, i))
    case Next(l, i) => SetPc(SetPlock(s, i, Nobody), p, Scan(l, i + 1))
    case RelDone(l) => SetPc(SetInner(s, l, None), p, Idle)
    case _ => s
  }

  predicate Enabled(s: State, a: Action) {
    match a
    case Acquire(p, l) => p < |s.procs| && l < |s.locks| && s.procs[p].pc == Idle
    case Release(p, l) => p < |s.procs| && l < |s.locks| && s.procs[p].pc == Idle && l in s.procs[p].held
    case Run(p) => CanRun(s, p)
    case SchedTake(p) => p < |s.procs| && s.procs[p].plock == Nobody
    case SchedRun(p) =>
      p < |s.procs| && s.procs[p].plock == Scheduler && s.procs[p].state == Runnable && s.procs[p].pc.Asleep?
    case SchedDrop(p) => p < |s.procs| && s.procs[p].plock == Scheduler
    case Kill(p) => p < |s.procs| && s.procs[p].plock == Nobody && s.procs[p].state == Sleeping
  }

  function Effect(s: State, a: Action): State
    requires Enabled(s, a)
  {
    match a
    case Acquire(p, l) => SetPc(s, p, AcqInner(l))
    case Release(p, l) => SetPc(s, p, RelInner(l))
    case Run(p) => Statement(s, p)
    case SchedTake(p) => SetPlock(s, p, Scheduler)
    case SchedRun(p) =>
      s.(procs := s.procs[p := s.procs[p].(state := Running, plock := By(p), pc := Woken(s.procs[p].pc.l))])
    case SchedDrop(p) => SetPlock(s, p, Nobody)
    case Kill(p) => s.(procs := s.procs[p := s.procs[p].(state := Runnable)])
  }

  ghost predicate Path(s: State, actions: seq<Action>, s': State)
    decreases |actions|
  {
    if actions == [] then s == s'
    else Enabled(s, actions[0]) && Path(Effect(s, actions[0]), actions[1..], s')
  }

  ghost predicate Reachable(s: State) {
    exists s0, actions :: Init(s0) && Path(s0, actions, s)
  }

  // ---- The invariant ----

  /** The process at pc holds the inner spin lock of pc.l. */
  predicate HoldsInner(pc: Pc) {
    || pc.Test? || pc.Take? || pc.AcqDone? || pc.LockSelf? || pc.DropInner?
    || pc.Clear? || pc.Scan? || pc.Check? || pc.Next? || pc.RelDone?
  }

  /** The process whose lock process p holds at pc, if any. */
  function PlockHeld(pc: Pc, p: nat): Option<nat> {
    if pc.Check? || pc.Next? then Some(pc.i)
    else if pc.DropInner? || pc.Mark? || pc.Switch? || pc.Woken? || pc.DropSelf? then Some(p)
    else None
  }

  /** The process is asleep on pc.l, or sure to go to sleep on it. */
  predicate Sleeps(r: Proc) {
    r.pc.Mark? || r.pc.Switch? || (r.pc.Asleep? && r.state == Sleeping)
  }

  /** The wakeup scan for l that is at pc has not passed process p. */
  predicate ScansFor(pc: Pc, l: nat, p: nat) {
    || (pc.Scan? && pc.l == l && pc.i <= p)
    || (pc.Check? && pc.l == l && pc.i <= p)
    || (pc.Next? && pc.l == l && pc.i < p)
  }

  /** Process p's own fields. */
  predicate FieldsOk(s: State, p: nat)
    requires p < |s.procs|
  {
    var r := s.procs[p];
    && (!r.pc.Idle? ==> r.pc.l < |s.locks|)
    && (r.state == Running <==> !r.pc.Switch? && !r.pc.Asleep?)
    && (r.pc.Switch? ==> r.state == Sleeping)
    && (r.pc.Switch? || r.pc.Asleep? || r.pc.Woken? ==> r.chan == Some(r.pc.l))
    && (r.pc.Check? || r.pc.Next? ==> r.pc.i < |s.procs|)
    && (r.pc.Clear? || r.pc.RelInner? ==> r.pc.l in r.held)
  }

  /** Process locks are held exactly by the processes whose pc says so. */
  predicate PlocksOk(s: State, p: nat)
    requires p < |s.procs|
  {
    var r := s.procs[p];
    && (PlockHeld(r.pc, p).Some? ==>
          PlockHeld(r.pc, p).value < |s.procs| && s.procs[PlockHeld(r.pc, p).value].plock == By(p))
    && (r.plock.By? ==> r.plock.p < |s.procs| && PlockHeld(s.procs[r.plock.p].pc, r.plock.p) == Some(p))
  }

  /** What p knows of the sleep lock it is at. */
  predicate KnowsLock(s: State, p: nat)
    requires p < |s.procs|
  {
    var r := s.procs[p];
    !r.pc.Idle? ==>
      && r.pc.l < |s.locks|
      && (HoldsInner(r.pc) ==> s.locks[r.pc.l].inner == Some(p))
      && (r.pc.Take? || Waking(r.pc) || r.pc.RelDone? ==> !s.locks[r.pc.l].locked)
      && (r.pc.LockSelf? || r.pc.DropInner? ==> s.locks[r.pc.l].locked)
      && (Sleeps(r) ==> Watched(s, p, r.pc.l))
  }

  /** Somebody is going to wake p from sleeping on l: the lock is taken, or the
      process inside releasesleep has yet to scan p. */
  predicate Watched(s: State, p: nat, l: nat)
    requires l < |s.locks|
  {
    || s.locks[l].locked
    || (s.locks[l].inner.Some? && s.locks[l].inner.value < |s.procs|
      && ScansFor(s.procs[s.locks[l].inner.value].pc, l, p))
  }

  ghost predicate HeldOk(s: State, p: nat)
    requires p < |s.procs|
  {
    forall l: nat | l in s.procs[p].held :: l < |s.locks| && s.locks[l].owner == Some(p)
  }

  predicate LockOk(s: State, l: nat)
    requires l < |s.locks|
  {
    var k := s.locks[l];
    && (k.inner.Some? ==>
        k.inner.value < |s.procs| && HoldsInner(s.procs[k.inner.value].pc) && s.procs[k.inner.value].pc.l == l)
    && (k.locked <==> k.owner.Some?)
    && (k.owner.Some? ==> k.owner.value < |s.procs| && l in s.procs[k.owner.value].held)
  }

  ghost predicate ProcOk(s: State, p: nat)
    requires p < |s.procs|
  {
    FieldsOk(s, p) && PlocksOk(s, p) && KnowsLock(s, p) && HeldOk(s, p)
  }

  ghost predicate Inv(s: State) {
    && (forall p: nat | p < |s.procs| :: ProcOk(s, p))
    && (forall l: nat | l < |s.locks| :: LockOk(s, l))
  }

  // ---- Every step keeps the invariant ----

  /** acquiresleep, where it does not sleep. */
  predicate Taking(pc: Pc) {
    pc.AcqInner? || pc.Test? || pc.Take? || pc.AcqDone?
  }

  /** The part of acquiresleep that is inside sleep. */
  predicate GoingToSleep(pc: Pc) {
    pc.LockSelf? || pc.DropInner? || pc.Mark? || pc.Switch? || pc.Woken? || pc.DropSelf?
  }

  /** releasesleep, outside of wakeup. */
  predicate Giving(pc: Pc) {
    pc.RelInner? || pc.Clear? || pc.RelDone?
  }

  /** wakeup's scan over the process table. */
  predicate Waking(pc: Pc) {
    pc.Scan? || pc.Check? || pc.Next?
  }

  lemma TakingPlace(s: State, p: nat, q: nat)
    requires CanRun(s, p) && q < |s.procs| && s.procs[p].pc.l < |s.locks| && ProcOk(s, p) && ProcOk(s, q)
      && LockOk(s, s.procs[p].pc.l)
    requires !s.procs[q].pc.Idle? ==> s.procs[q].pc.l < |s.locks| && LockOk(s, s.procs[q].pc.l)
    requires Taking(s.procs[p].pc)
    ensures FieldsOk(Statement(s, p), q) && PlocksOk(Statement(s, p), q)
  {
    hide KnowsLock, HeldOk;
  }

  lemma TakingKnows(s: State, p: nat, q: nat)
    requires CanRun(s, p) && q < |s.procs| && s.procs[p].pc.l < |s.locks| && ProcOk(s, p) && ProcOk(s, q)
      && LockOk(s, s.procs[p].pc.l)
    requires !s.procs[q].pc.Idle? ==> s.procs[q].pc.l < |s.locks| && LockOk(s, s.procs[q].pc.l)
    requires Taking(s.procs[p].pc)
    ensures KnowsLock(Statement(s, p), q)
  {
    hide PlocksOk, HeldOk;
  }

  lemma TakingLock(s: State, p: nat, k: nat)
    requires CanRun(s, p) && k < |s.locks| && ProcOk(s, p) && LockOk(s, k) && s.procs[p].pc.l < |s.locks|
      && LockOk(s, s.procs[p].pc.l)
    requires Taking(s.procs[p].pc)
    ensures k < |Statement(s, p).locks| && LockOk(Statement(s, p), k)
  {
    hide PlocksOk;
  }

  lemma SleepingPlace(s: State, p: nat, q: nat)
    requires CanRun(s, p) && q < |s.procs| && s.procs[p].pc.l < |s.locks| && ProcOk(s, p) && ProcOk(s, q)
      && LockOk(s, s.procs[p].pc.l)
    requires !s.procs[q].pc.Idle? ==> s.procs[q].pc.l < |s.locks| && LockOk(s, s.procs[q].pc.l)
    requires GoingToSleep(s.procs[p].pc)
    ensures FieldsOk(Statement(s, p), q) && PlocksOk(Statement(s, p), q)
  {
    hide KnowsLock, HeldOk;
  }

  lemma SleepingKnows(s: State, p: nat, q: nat)
    requires CanRun(s, p) && q < |s.procs| && s.procs[p].pc.l < |s.locks| && ProcOk(s, p) && ProcOk(s, q)
      && LockOk(s, s.procs[p].pc.l)
    requires !s.procs[q].pc.Idle? ==> s.procs[q].pc.l < |s.locks| && LockOk(s, s.procs[q].pc.l)
    requires GoingToSleep(s.procs[p].pc)
    ensures KnowsLock(Statement(s, p), q)
  {
    hide PlocksOk, HeldOk;
  }

  lemma SleepingLock(s: State, p: nat, k: nat)
    requires CanRun(s, p) && k < |s.locks| && ProcOk(s, p) && LockOk(s, k) && s.procs[p].pc.l < |s.locks|
      && LockOk(s, s.procs[p].pc.l)
    requires GoingToSleep(s.procs[p].pc)
    ensures k < |Statement(s, p).locks| && LockOk(Statement(s, p), k)
  {
    hide PlocksOk;
  }

  lemma GivingFields(s: State, p: nat, q: nat)
    requires CanRun(s, p) && q < |s.procs| && s.procs[p].pc.l < |s.locks| && ProcOk(s, p) && ProcOk(s, q)
      && LockOk(s, s.procs[p].pc.l)
    requires !s.procs[q].pc.Idle? ==> s.procs[q].pc.l < |s.locks| && LockOk(s, s.procs[q].pc.l)
    requires Giving(s.procs[p].pc)
    ensures FieldsOk(Statement(s, p), q)
  {
    hide KnowsLock, HeldOk, PlocksOk;
  }

  lemma GivingPlocks(s: State, p: nat, q: nat)
    requires CanRun(s, p) && q < |s.procs| && s.procs[p].pc.l < |s.locks| && ProcOk(s, p) && ProcOk(s, q)
      && LockOk(s, s.procs[p].pc.l)
    requires !s.procs[q].pc.Idle? ==> s.procs[q].pc.l < |s.locks| && LockOk(s, s.procs[q].pc.l)
    requires Giving(s.procs[p].pc)
    ensures PlocksOk(Statement(s, p), q)
  {
    hide KnowsLock, HeldOk;
  }

  lemma GivingKnows(s: State, p: nat, q: nat)
    requires CanRun(s, p) && q < |s.procs| && s.procs[p].pc.l < |s.locks| && ProcOk(s, p) && ProcOk(s, q)
      && LockOk(s, s.procs[p].pc.l)
    requires !s.procs[q].pc.Idle? ==> s.procs[q].pc.l < |s.locks| && LockOk(s, s.procs[q].pc.l)
    requires Giving(s.procs[p].pc)
    ensures KnowsLock(Statement(s, p), q)
  {
    hide HeldOk, PlocksOk;
  }

  lemma WakingFields(s: State, p: nat, q: nat)
    requires CanRun(s, p) && q < |s.procs| && s.procs[p].pc.l < |s.locks| && ProcOk(s, p) && ProcOk(s, q)
      && LockOk(s, s.procs[p].pc.l)
    requires !s.procs[q].pc.Idle? ==> s.procs[q].pc.l < |s.locks| && LockOk(s, s.procs[q].pc.l)
    requires Waking(s.procs[p].pc)
    ensures FieldsOk(Statement(s, p), q)
  {
    hide KnowsLock, HeldOk;
  }

  lemma ScanPlocks(s: State, p: nat, q: nat)
    requires CanRun(s, p) && q < |s.procs| && s.procs[p].pc.l < |s.locks| && ProcOk(s, p) && ProcOk(s, q)
      && LockOk(s, s.procs[p].pc.l)
    requires !s.procs[q].pc.Idle? ==> s.procs[q].pc.l < |s.locks| && LockOk(s, s.procs[q].pc.l)
    requires s.procs[p].pc.Scan? && (s.procs[p].pc.i < |s.procs| ==> ProcOk(s, s.procs[p].pc.i))
    ensures PlocksOk(Statement(s, p), q)
  {
    hide KnowsLock, HeldOk, FieldsOk;
  }

  lemma WakingPlocks(s: State, p: nat, q: nat)
    requires CanRun(s, p) && q < |s.procs| && s.procs[p].pc.l < |s.locks| && ProcOk(s, p) && ProcOk(s, q)
      && LockOk(s, s.procs[p].pc.l)
    requires !s.procs[q].pc.Idle? ==> s.procs[q].pc.l < |s.locks| && LockOk(s, s.procs[q].pc.l)
    requires s.procs[p].pc.Check? || s.procs[p].pc.Next?
    ensures PlocksOk(Statement(s, p), q)
  {
    hide KnowsLock, HeldOk;
  }

  lemma WakingKnows(s: State, p: nat, q: nat)
    requires CanRun(s, p) && q < |s.procs| && s.procs[p].pc.l < |s.locks| && ProcOk(s, p) && ProcOk(s, q)
      && LockOk(s, s.procs[p].pc.l)
    requires !s.procs[q].pc.Idle? ==> s.procs[q].pc.l < |s.locks| && LockOk(s, s.procs[q].pc.l)
    requires Waking(s.procs[p].pc)
    ensures KnowsLock(Statement(s, p), q)
  {
    hide HeldOk;
  }

  lemma GivingLock(s: State, p: nat, k: nat)
    requires CanRun(s, p) && k < |s.locks| && ProcOk(s, p) && LockOk(s, k) && s.procs[p].pc.l < |s.locks|
      && LockOk(s, s.procs[p].pc.l)
    requires !Taking(s.procs[p].pc) && !GoingToSleep(s.procs[p].pc)
    ensures k < |Statement(s, p).locks| && LockOk(Statement(s, p), k)
  {
    hide PlocksOk;
  }

  lemma ChangesHeld(s: State, p: nat, q: nat)
    requires CanRun(s, p) && q < |s.procs| && s.procs[p].pc.l < |s.locks| && ProcOk(s, p) && ProcOk(s, q)
      && LockOk(s, s.procs[p].pc.l)
    requires !s.procs[q].pc.Idle? ==> s.procs[q].pc.l < |s.locks| && LockOk(s, s.procs[q].pc.l)
    requires s.procs[p].pc.Take? || s.procs[p].pc.Clear?
    ensures HeldOk(Statement(s, p), q)
  {
    hide PlocksOk;
  }

  lemma KeepsHeld(s: State, p: nat, q: nat)
    requires CanRun(s, p) && q < |s.procs| && HeldOk(s, q) && !s.procs[p].pc.Take? && !s.procs[p].pc.Clear?
    ensures q < |Statement(s, p).procs| && HeldOk(Statement(s, p), q)
  {
    hide Statement;
    SameHeld(s, p, q);
    forall l: nat | l in s.procs[q].held
      ensures l < |Statement(s, p).locks| && Statement(s, p).locks[l].owner == Some(q)
    {
      SameOwner(s, p, l);
    }
  }

  lemma SameHeld(s: State, p: nat, q: nat)
    requires CanRun(s, p) && q < |s.procs| && !s.procs[p].pc.Take? && !s.procs[p].pc.Clear?
    ensures |Statement(s, p).procs| == |s.procs| && Statement(s, p).procs[q].held == s.procs[q].held
  {
    hide Statement;
    var pc := s.procs[p].pc;
    if Taking(pc) { TakingSameHeld(s, p, q); }
    else if GoingToSleep(pc) { SleepingSameHeld(s, p, q); }
    else { OtherSameHeld(s, p, q); }
  }

  lemma TakingSameHeld(s: State, p: nat, q: nat)
    requires CanRun(s, p) && q < |s.procs| && Taking(s.procs[p].pc) && !s.procs[p].pc.Take?
    ensures |Statement(s, p).procs| == |s.procs| && Statement(s, p).procs[q].held == s.procs[q].held
  {
  }

  lemma SleepingSameHeld(s: State, p: nat, q: nat)
    requires CanRun(s, p) && q < |s.procs| && GoingToSleep(s.procs[p].pc)
    ensures |Statement(s, p).procs| == |s.procs| && Statement(s, p).procs[q].held == s.procs[q].held
  {
  }

  lemma OtherSameHeld(s: State, p: nat, q: nat)
    requires CanRun(s, p) && q < |s.procs| && !Taking(s.procs[p].pc) && !GoingToSleep(s.procs[p].pc)
    requires !s.procs[p].pc.Clear?
    ensures |Statement(s, p).procs| == |s.procs| && Statement(s, p).procs[q].held == s.procs[q].held
  {
  }

  lemma SameOwner(s: State, p: nat, l: nat)
    requires CanRun(s, p) && l < |s.locks| && !s.procs[p].pc.Take? && !s.procs[p].pc.Clear?
    ensures |Statement(s, p).locks| == |s.locks| && Statement(s, p).locks[l].owner == s.locks[l].owner
  {
  }

  lemma RunProc(s: State, p: nat, q: nat)
    requires Inv(s) && CanRun(s, p) && q < |s.procs|
    ensures ProcOk(Statement(s, p), q)
  {
    hide Statement, FieldsOk, PlocksOk, KnowsLock, HeldOk;
    var pc := s.procs[p].pc;
    InRange(s, q);
    assert ProcOk(s, p) && ProcOk(s, q) && LockOk(s, pc.l);
    assert !s.procs[q].pc.Idle? ==> LockOk(s, s.procs[q].pc.l);
    if pc.Take? || pc.Clear? { ChangesHeld(s, p, q); } else { KeepsHeld(s, p, q); }
    if Taking(pc) { TakingPlace(s, p, q); TakingKnows(s, p, q); }
    else if GoingToSleep(pc) { SleepingPlace(s, p, q); SleepingKnows(s, p, q); }
    else if Giving(pc) { GivingFields(s, p, q); GivingPlocks(s, p, q); GivingKnows(s, p, q); }
    else {
      assert pc.i < |s.procs| ==> ProcOk(s, pc.i);
      WakingFields(s, p, q);
      if pc.Scan? { ScanPlocks(s, p, q); } else { WakingPlocks(s, p, q); }
      WakingKnows(s, p, q);
    }
  }

  lemma InRange(s: State, p: nat)
    requires Inv(s) && p < |s.procs|
    ensures !s.procs[p].pc.Idle? ==> s.procs[p].pc.l < |s.locks|
  {
    assert ProcOk(s, p);
  }

  lemma RunKept(s: State, p: nat)
    requires Inv(s) && CanRun(s, p)
    ensures Inv(Statement(s, p))
  {
    hide ProcOk, LockOk;
    var s' := Statement(s, p);
    forall q: nat | q < |s'.procs| ensures ProcOk(s', q) { RunProc(s, p, q); }
    forall k: nat | k < |s'.locks| ensures LockOk(s', k) {
      assert LockOk(s, k) && LockOk(s, s.procs[p].pc.l) && ProcOk(s, p);
      var pc := s.procs[p].pc;
      if Taking(pc) {
        TakingLock(s, p, k);
      } else if GoingToSleep(pc) {
        SleepingLock(s, p, k);
      } else {
        GivingLock(s, p, k);
      }
    }
  }

  lemma CallProc(s: State, a: Action, q: nat)
    requires Enabled(s, a) && (a.Acquire? || a.Release?) && q < |s.procs| && ProcOk(s, a.p) && ProcOk(s, q)
    requires !s.procs[q].pc.Idle? ==> s.procs[q].pc.l < |s.locks| && LockOk(s, s.procs[q].pc.l)
    ensures ProcOk(Effect(s, a), q)
  {
  }

  lemma SchedulerProc(s: State, a: Action, q: nat)
    requires Enabled(s, a) && (a.SchedTake? || a.SchedDrop? || a.Kill?) && q < |s.procs| && ProcOk(s, a.p)
      && ProcOk(s, q)
    requires !s.procs[q].pc.Idle? ==> s.procs[q].pc.l < |s.locks| && LockOk(s, s.procs[q].pc.l)
    ensures ProcOk(Effect(s, a), q)
  {
  }

  lemma SchedRunProc(s: State, p: nat, q: nat)
    requires Enabled(s, SchedRun(p)) && q < |s.procs| && ProcOk(s, p) && ProcOk(s, q)
    requires !s.procs[q].pc.Idle? ==> s.procs[q].pc.l < |s.locks| && LockOk(s, s.procs[q].pc.l)
    ensures ProcOk(Effect(s, SchedRun(p)), q)
  {
  }

  /** A call, the scheduler, or a spurious wakeup: no sleep lock changes. */
  lemma OtherKept(s: State, a: Action)
    requires Inv(s) && Enabled(s, a) && !a.Run?
    ensures Inv(Effect(s, a))
  {
    hide FieldsOk;
    hide PlocksOk;
    hide HeldOk;
    var s' := Effect(s, a);
    forall q: nat | q < |s'.procs| ensures ProcOk(s', q) {
      assert ProcOk(s, q) && ProcOk(s, a.p);
      assert !s.procs[q].pc.Idle? ==> LockOk(s, s.procs[q].pc.l);
      if a.Acquire? || a.Release? { CallProc(s, a, q); }
      else if a.SchedRun? { SchedRunProc(s, a.p, q); }
      else { SchedulerProc(s, a, q); }
    }
    forall k: nat | k < |s'.locks| ensures LockOk(s', k) {
      assert LockOk(s, k);
    }
  }

  lemma {:induction false} PathKept(s: State, actions: seq<Action>, s': State)
    requires Inv(s) && Path(s, actions, s')
    ensures Inv(s')
    decreases |actions|
  {
    hide Inv;
    if actions != [] {
      if actions[0].Run? { RunKept(s, actions[0].p); } else { OtherKept(s, actions[0]); }
      PathKept(Effect(s, actions[0]), actions[1..], s');
    }
  }

  lemma ReachableInv(s: State)
    requires Reachable(s)
    ensures Inv(s)
  {
    var s0, actions :| Init(s0) && Path(s0, actions, s);
    assert Inv(s0);
    PathKept(s0, actions, s);
  }

  // ---- The results ----

  /** No lost wakeup: whenever a sleep lock is not taken and its inner spin lock is
      free, no process sleeps on it. */
  lemma NoLostWakeup(s: State, p: nat, l: nat)
    requires Reachable(s) && p < |s.procs| && l < |s.locks|
    requires s.locks[l].inner == None && !s.locks[l].locked
    ensures !(s.procs[p].state == Sleeping && s.procs[p].chan == Some(l))
  {
    ReachableInv(s);
    assert ProcOk(s, p);
  }

  /** A process between giving up the inner lock and being SLEEPING is always ahead
      of the wakeup of whoever releases the sleep lock; and nobody can scan it
      meanwhile, since it holds its own lock. */
  lemma WindowIsSafe(s: State, p: nat, l: nat)
    requires Reachable(s) && p < |s.procs| && s.procs[p].pc == Mark(l)
    ensures l < |s.locks| && Watched(s, p, l)
    ensures forall q: nat | q < |s.procs| && q != p :: PlockHeld(s.procs[q].pc, q) != Some(p)
  {
    ReachableInv(s);
    assert ProcOk(s, p);
    forall q: nat | q < |s.procs| && q != p ensures PlockHeld(s.procs[q].pc, q) != Some(p) {
      assert ProcOk(s, q);
    }
  }

  /** At most one process holds a sleep lock, and only while it is marked locked. */
  lemma MutualExclusion(s: State, p: nat, q: nat, l: nat)
    requires Reachable(s) && p < |s.procs| && q < |s.procs| && l in s.procs[p].held && l in s.procs[q].held
    ensures p == q && l < |s.locks| && s.locks[l].locked && s.locks[l].owner == Some(p)
  {
    ReachableInv(s);
    assert ProcOk(s, p) && ProcOk(s, q);
    assert LockOk(s, l);
  }

  /** A sleeping process can always be woken by the process that the lock names. */
  lemma SleeperHasWaker(s: State, p: nat, l: nat)
    requires Reachable(s) && p < |s.procs| && s.procs[p].state == Sleeping && s.procs[p].chan == Some(l)
    ensures l < |s.locks|
    ensures (exists q: nat :: q < |s.procs| && l in s.procs[q].held)
            || (exists q: nat :: q < |s.procs| && s.locks[l].inner == Some(q) && ScansFor(s.procs[q].pc, l, p))
  {
    ReachableInv(s);
    assert ProcOk(s, p);
    assert LockOk(s, l);
    if s.locks[l].locked {
      assert l in s.procs[s.locks[l].owner.value].held;
    }
  }

  // ---- What the calls do ----

  /** acquiresleep, about to return, has the lock; releasesleep does not have it any
      more from where it gives it up on. */
  predicate HeldFits(r: Proc) {
    && (r.pc.AcqDone? ==> r.pc.l in r.held)
    && (Waking(r.pc) || r.pc.RelDone? ==> r.pc.l !in r.held)
  }

  lemma HeldFitsRun(s: State, p: nat, q: nat)
    requires CanRun(s, p) && q < |s.procs| && HeldFits(s.procs[q]) && HeldFits(s.procs[p])
    ensures |Statement(s, p).procs| == |s.procs| && HeldFits(Statement(s, p).procs[q])
  {
  }

  lemma HeldFitsStep(s: State, a: Action, q: nat)
    requires Enabled(s, a) && q < |s.procs| && (forall p: nat | p < |s.procs| :: HeldFits(s.procs[p]))
    ensures |Effect(s, a).procs| == |s.procs| && HeldFits(Effect(s, a).procs[q])
  {
    hide Statement;
    if a.Run? { HeldFitsRun(s, a.p, q); }
  }

  lemma {:induction false} HeldFitsPath(s: State, actions: seq<Action>, s': State)
    requires Path(s, actions, s') && forall p: nat | p < |s.procs| :: HeldFits(s.procs[p])
    ensures forall p: nat | p < |s'.procs| :: HeldFits(s'.procs[p])
    decreases |actions|
  {
    hide Enabled, Effect, HeldFits;
    if actions != [] {
      var s1 := Effect(s, actions[0]);
      forall p: nat | p < |s1.procs| ensures HeldFits(s1.procs[p]) {
        HeldFitsSame(s, actions[0]);
        HeldFitsStep(s, actions[0], p);
      }
      HeldFitsPath(s1, actions[1..], s');
    }
  }

  lemma HeldFitsSame(s: State, a: Action)
    requires Enabled(s, a)
    ensures |Effect(s, a).procs| == |s.procs| && |Effect(s, a).locks| == |s.locks|
  {
  }

  lemma ReachableFits(s: State, p: nat)
    requires Reachable(s) && p < |s.procs|
    ensures HeldFits(s.procs[p])
  {
    hide Path;
    var s0, actions :| Init(s0) && Path(s0, actions, s);
    HeldFitsPath(s0, actions, s);
  }

  /** acquiresleep returns with the lock: marked locked, in the caller's name, and with
      the inner spin lock free. */
  lemma AcquireReturns(s: State, p: nat, l: nat)
    requires Reachable(s) && CanRun(s, p) && s.procs[p].pc == AcqDone(l)
    ensures var s' := Statement(s, p);
            && p < |s'.procs| && s'.procs[p].pc == Idle && l in s'.procs[p].held
            && l < |s'.locks| && s'.locks[l] == Lock(None, true, Some(p))
  {
    hide Reachable;
    ReachableFits(s, p);
    ReachableInv(s);
    assert ProcOk(s, p) && LockOk(s, l);
  }

  /** From where releasesleep has given the lock up, nobody has it until that call
      gives up the inner spin lock. */
  lemma FreeWhileWaking(s: State, p: nat, l: nat)
    requires Reachable(s) && p < |s.procs| && (Waking(s.procs[p].pc) || s.procs[p].pc.RelDone?) && s.procs[p].pc.l == l
    ensures l < |s.locks| && s.locks[l] == Lock(Some(p), false, None)
    ensures forall q: nat | q < |s.procs| :: l !in s.procs[q].held
  {
    hide Reachable;
    ReachableInv(s);
    assert ProcOk(s, p) && LockOk(s, l);
    forall q: nat | q < |s.procs| ensures l !in s.procs[q].held {
      assert ProcOk(s, q);
    }
  }

  /** releasesleep returns with the lock free, and with nobody asleep on it. */
  lemma ReleaseReturns(s: State, p: nat, l: nat)
    requires Reachable(s) && CanRun(s, p) && s.procs[p].pc == RelDone(l)
    ensures var s' := Statement(s, p);
            && p < |s'.procs| && s'.procs[p].pc == Idle && l < |s'.locks| && s'.locks[l] == Lock(None, false, None)
            && forall q: nat | q < |s'.procs| ::
                 l !in s'.procs[q].held && !(s'.procs[q].state == Sleeping && s'.procs[q].chan == Some(l))
  {
    hide Reachable;
    FreeWhileWaking(s, p, l);
    ReachableInv(s);
    var s' := Statement(s, p);
    forall q: nat | q < |s'.procs|
      ensures l !in s'.procs[q].held && !(s'.procs[q].state == Sleeping && s'.procs[q].chan == Some(l))
    {
      assert ProcOk(s, q);
    }
  }

  /** A sleeper that is killed comes back to where it takes the inner spin lock and tests
      the sleep lock again; nothing else changes. */
  lemma KilledSleeper(s: State, p: nat, l: nat) returns (s': State)
    requires p < |s.procs| && l < |s.locks|
    requires s.procs[p] == Proc(Asleep(l), Sleeping, Some(l), Nobody, s.procs[p].held)
    ensures Path(s, [Kill(p), SchedTake(p), SchedRun(p), Run(p), Run(p)], s')
    ensures s' == s.(procs := s.procs[p := s.procs[p].(pc := AcqInner(l), state := Running, chan := None)])
  {
    hide Path;
    var s1 := Effect(s, Kill(p));
    var s2 := Effect(s1, SchedTake(p));
    var s3 := Effect(s2, SchedRun(p));
    var s4 := Effect(s3, Run(p));
    s' := Effect(s4, Run(p));
    FiveSteps(s, s1, s2, s3, s4, s', Kill(p), SchedTake(p), SchedRun(p), Run(p), Run(p));
  }

  lemma FiveSteps(s: State, s1: State, s2: State, s3: State, s4: State, s5: State, a: Action, b: Action, c: Action,
    d: Action, e: Action)
    requires Enabled(s, a) && s1 == Effect(s, a) && Enabled(s1, b) && s2 == Effect(s1, b)
    requires Enabled(s2, c) && s3 == Effect(s2, c) && Enabled(s3, d) && s4 == Effect(s3, d)
    requires Enabled(s4, e) && s5 == Effect(s4, e)
    ensures Path(s, [a, b, c, d, e], s5)
  {
    hide Enabled, Effect;
    assert Path(s4, [e], s5);
    assert [d, e][1..] == [e];
    assert Path(s3, [d, e], s5);
    assert [c, d, e][1..] == [d, e];
    assert Path(s2, [c, d, e], s5);
    assert [b, c, d, e][1..] == [c, d, e];
    assert Path(s1, [b, c, d, e], s5);
    assert [a, b, c, d, e][1..] == [b, c, d, e];
  }
}

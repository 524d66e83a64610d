/** fork, exit, wait and reparenting (kernel/proc.c) as a state machine over the
    process table. Processes interleave at the granularity of single statements;
    each process's spin lock makes others wait. Process 0 is initproc. */
module ExitWait {
  import opened Common

  const INIT: nat := 0

  datatype RunState = Unused | Runnable | Running | Sleeping | Zombie

  /** Nothing, the process itself (as in wait), or some other channel. */
  datatype Chan = NoChan | Self | Elsewhere

  /** Where a process is. i walks the process table; c is the parent that exit
      read before it started to take locks. */
  datatype Pc =
    | Off                          // no process in this slot, or one that has exited
    | Idle                         // outside of the code modelled here
    | Born                         // fork's child, not run yet
    | BornBack                     // its first statement: gives up its own lock
    | Dozing                       // in some other sleep
    | DozeBack                     // back from it
    // fork
    | ForkCheck(i: nat)            // holds the lock of slot i: is it unused?
    | ForkParent(i: nat)           // makes itself the parent of slot i
    | ForkState(i: nat)            // makes the child runnable
    | ForkRel(i: nat)              // gives up the lock of slot i
    // wait
    | WaitAcq                      // takes its own lock
    | WaitScan(i: nat, kids: bool) // is slot i a child?
    | WaitLock(i: nat)             // takes the lock of child i
    | WaitCheck(i: nat)            // is child i a zombie?
    | WaitNext(i: nat)             // gives up the lock of child i
    | WaitReap(i: nat)             // gives up the lock of slot i on the way out
    | WaitDone                     // gives up its own lock on the way out
    | WaitMark                     // sleeps on itself: sets channel and state
    | WaitSwitch                   // switches to the scheduler
    | WaitAsleep
    | WaitWoken                    // back: clears its channel
    // exit
    | ExitInit                     // takes the lock of initproc
    | ExitInitWake                 // wakes initproc if it is in wait
    | ExitInitRel                  // gives up the lock of initproc
    | ExitLook                     // takes its own lock
    | ExitRead                     // reads its parent
    | ExitLookRel(c: nat)          // gives up its own lock
    | ExitLockParent(c: nat)       // takes the lock of that parent
    | ExitLockSelf(c: nat)         // takes its own lock
    | ExitScan(c: nat, i: nat)     // reparent: is slot i a child?
    | ExitLockChild(c: nat, i: nat)// takes the lock of child i
    | ExitGive(c: nat, i: nat)     // gives child i to initproc
    | ExitNext(c: nat, i: nat)     // gives up the lock of child i
    | ExitWake(c: nat)             // wakes the parent it read if it is in wait
    | ExitZombie(c: nat)           // becomes a zombie
    | ExitRel(c: nat)              // gives up the lock of the parent it read
    | ExitSwitch                   // switches to the scheduler for good

  datatype Holder = Nobody | Scheduler | By(p: nat)

  /** A slot of the process table; read is the parent that exit found when it looked. */
  datatype Proc = Proc(pc: Pc, state: RunState, chan: Chan, parent: Option<nat>, read: Option<nat>, plock: Holder)

  /** A slot without a process. */
  const VACANT := Proc(Off, Unused, NoChan, None, None, Nobody)

  datatype State = State(procs: seq<Proc>)

  datatype Action =
    | Fork(p: nat, i: nat)     // p calls fork and gets hold of proc[i].lock in allocproc
    | Wait(p: nat)
    | Exit(p: nat)
    | Doze(p: nat)             // p goes to sleep on some other channel
    | Run(p: nat)              // p executes its next statement
    | CopyFails(p: nat)        // wait's copyout fails: it returns without freeing the zombie
    | Killed(p: nat)           // wait returns since p->killed is set
    | SchedTake(p: nat) | SchedRun(p: nat) | SchedDrop(p: nat)
    | Kill(p: nat)             // kill, or a wakeup elsewhere: p wakes for no reason

  predicate Init(s: State) {
    && |s.procs| > 0 && s.procs[INIT] == Proc(Idle, Running, NoChan, None, None, Nobody)
    && forall p | 1 <= p < |s.procs| :: s.procs[p] == VACANT
  }

  // ---- One statement of a process ----

  /** The process whose lock the statement at pc acquires. */
  function Wants(pc: Pc, p: nat): Option<nat> {
    match pc
    case WaitAcq => Some(p)
    case WaitLock(i) => Some(i)
    case ExitInit => Some(INIT)
    case ExitLook => Some(p)
    case ExitLockParent(c) => Some(c)
    case ExitLockSelf(_) => Some(p)
    case ExitLockChild(_, i) => Some(i)
    case _ => None
  }

  /** pc's references lie in the table. */
  predicate InTable(pc: Pc, n: nat) {
    match pc
    case ForkCheck(i) => i < n
    case ForkParent(i) => i < n
    case ForkState(i) => i < n
    case ForkRel(i) => i < n
    case WaitScan(i, _) => i <= n
    case WaitLock(i) => i < n
    case WaitCheck(i) => i < n
    case WaitNext(i) => i < n
    case WaitReap(i) => i < n
    case ExitLookRel(c) => c < n
    case ExitLockParent(c) => c < n
    case ExitLockSelf(c) => c < n
    case ExitScan(c, i) => c < n && i <= n
    case ExitLockChild(c, i) => c < n && i < n
    case ExitGive(c, i) => c < n && i < n
    case ExitNext(c, i) => c < n && i < n
    case ExitWake(c) => c < n
    case ExitZombie(c) => c < n
    case ExitRel(c) => c < n
    case _ => true
  }

  predicate Active(pc: Pc) {
    !pc.Off? && !pc.Idle? && !pc.Born? && !pc.Dozing? && !pc.WaitAsleep?
  }

  predicate CanRun(s: State, p: nat) {
    && p < |s.procs| && Active(s.procs[p].pc) && InTable(s.procs[p].pc, |s.procs|) && INIT < |s.procs|
    && (Wants(s.procs[p].pc, p).Some? ==>
          Wants(s.procs[p].pc, p).value < |s.procs| && s.procs[Wants(s.procs[p].pc, p).value].plock == Nobody)
    && (s.procs[p].pc == ExitRead ==> s.procs[p].parent.Some? && s.procs[p].parent.value < |s.procs|)
  }

  function Set(s: State, p: nat, r: Proc): State
    requires p < |s.procs|
  {
    State(s.procs[p := r])
  }

  function Goto(s: State, p: nat, pc: Pc): State
    requires p < |s.procs|
  {
    Set(s, p, s.procs[p].(pc := pc))
  }

  /** The process whose lock the statement at pc releases. */
  function Drops(pc: Pc, p: nat): Option<nat> {
    match pc
    case BornBack => Some(p)
    case DozeBack => Some(p)
    case ForkRel(i) => Some(i)
    case WaitNext(i) => Some(i)
    case WaitReap(i) => Some(i)
    case WaitDone => Some(p)
    case ExitInitRel => Some(INIT)
    case ExitLookRel(_) => Some(p)
    case ExitNext(_, i) => Some(i)
    case ExitRel(c) => Some(c)
    case _ => None
  }

  /** What p's statement at pc writes to its own record r. */
  function Own(pc: Pc, r: Proc): Proc {
    match pc
    case DozeBack => r.(chan := NoChan)
    case WaitMark => r.(chan := Self, state := Sleeping)
    case WaitSwitch => r.(plock := Scheduler)
    case WaitWoken => r.(chan := NoChan)
    case ExitRead => r.(read := r.parent)
    case ExitZombie(_) => r.(state := Zombie)
    case ExitSwitch => r.(plock := Scheduler)
    case _ => r
  }

  /** The record o in slot i after p's statement at pc: locks taken and released,
      the child that fork fills in, wait frees or reparent gives away, and
      wakeup1, which wakes the process only if it sleeps in wait. */
  function Moved(pc: Pc, p: nat, i: nat, o: Proc): Proc {
    if Wants(pc, p) == Some(i) then o.(plock := By(p))
    else if Drops(pc, p) == Some(i) then o.(plock := Nobody)
    else if pc == ForkParent(i) then o.(parent := Some(p))
    else if pc == ForkState(i) then o.(state := Runnable, pc := Born)
    else if pc == WaitCheck(i) && o.state == Zombie
    then o.(state := Unused, parent := None, read := None, chan := NoChan)
    else if pc.ExitGive? && pc.i == i then o.(parent := Some(INIT))
    else if (pc == ExitWake(i) || (pc == ExitInitWake && i == INIT)) && SleepsInWait(o) then o.(state := Runnable)
    else o
  }

  /** Where p goes from its statement. */
  function Next(s: State, p: nat): Pc
    requires CanRun(s, p)
  {
    match s.procs[p].pc
    case BornBack => Idle
    case DozeBack => Idle
    case ForkCheck(i) => if s.procs[i].state == Unused then ForkParent(i) else ForkRel(i)
    case ForkParent(i) => ForkState(i)
    case ForkState(i) => ForkRel(i)
    case ForkRel(_) => Idle
    case WaitAcq => WaitScan(0, false)
    case WaitScan(i, kids) =>
      if i == |s.procs| then if kids then WaitMark else WaitDone
      else if s.procs[i].parent == Some(p) then WaitLock(i) else WaitScan(i + 1, kids)
    case WaitLock(i) => WaitCheck(i)
    case WaitCheck(i) => if s.procs[i].state == Zombie then WaitReap(i) else WaitNext(i)
    case WaitNext(i) => WaitScan(i + 1, true)
    case WaitReap(_) => WaitDone
    case WaitDone => Idle
    case WaitMark => WaitSwitch
    case WaitSwitch => WaitAsleep
    case WaitWoken => WaitScan(0, false)
    case ExitInit => ExitInitWake
    case ExitInitWake => ExitInitRel
    case ExitInitRel => ExitLook
    case ExitLook => ExitRead
    case ExitRead => ExitLookRel(s.procs[p].parent.value)
    case ExitLookRel(c) => ExitLockParent(c)
    case ExitLockParent(c) => ExitLockSelf(c)
    case ExitLockSelf(c) => ExitScan(c, 0)
    case ExitScan(c, i) =>
      if i == |s.procs| then ExitWake(c)
      else if s.procs[i].parent == Some(p) then ExitLockChild(c, i) else ExitScan(c, i + 1)
    case ExitLockChild(c, i) => ExitGive(c, i)
    case ExitGive(c, i) => ExitNext(c, i)
    case ExitNext(c, i) => ExitScan(c, i + 1)
    case ExitWake(c) => ExitZombie(c)
    case ExitZombie(c) => ExitRel(c)
    case ExitRel(_) => ExitSwitch
    case ExitSwitch => Off
    case pc => pc
  }

  /** p's own record after its statement. */
  function Acted(s: State, p: nat): (r: Proc)
    requires CanRun(s, p)
    ensures r.pc == Next(s, p)
  {
    var pc := s.procs[p].pc;
    Own(pc, Moved(pc, p, p, s.procs[p])).(pc := Next(s, p))
  }

  function Statement(s: State, p: nat): (s': State)
    requires CanRun(s, p)
    ensures p < |s.procs| == |s'.procs|
  {
    State(seq(|s.procs|, i requires 0 <= i < |s.procs| =>
      if i == p then Acted(s, p) else Moved(s.procs[p].pc, p, i, s.procs[i])))
  }

  predicate Enabled(s: State, a: Action) {
    && a.p < |s.procs|
    && match a
       case Fork(p, i) => i < |s.procs| && s.procs[p].pc == Idle && s.procs[i].plock == Nobody
       case Wait(p) => s.procs[p].pc == Idle
       case Exit(p) => s.procs[p].pc == Idle && p != INIT
       case Doze(p) => s.procs[p].pc == Idle && s.procs[p].plock == Nobody
       case Run(p) => CanRun(s, p)
       case CopyFails(p) => s.procs[p].pc.WaitCheck? && s.procs[p].pc.i < |s.procs|
         && s.procs[s.procs[p].pc.i].state == Zombie
       case Killed(p) => s.procs[p].pc == WaitMark
       case SchedTake(p) => s.procs[p].plock == Nobody
       case SchedRun(p) =>
         && s.procs[p].plock == Scheduler && s.procs[p].state == Runnable
         && (s.procs[p].pc.WaitAsleep? || s.procs[p].pc.Dozing? || s.procs[p].pc.Born?)
       case SchedDrop(p) => s.procs[p].plock == Scheduler
       case Kill(p) => s.procs[p].plock == Nobody && s.procs[p].state == Sleeping
  }

  function Effect(s: State, a: Action): State
    requires Enabled(s, a)
  {
    var r := s.procs[a.p];
    match a
    case Fork(p, i) => Goto(Set(s, i, s.procs[i].(plock := By(p))), p, ForkCheck(i))
    case Wait(p) => Goto(s, p, WaitAcq)
    case Exit(p) => Goto(s, p, ExitInit)
    case Doze(p) => Set(s, p, r.(pc := Dozing, chan := Elsewhere, state := Sleeping, plock := Scheduler))
    case Run(p) => Statement(s, p)
    case CopyFails(p) => Goto(s, p, WaitReap(r.pc.i))
    case Killed(p) => Goto(s, p, WaitDone)
    case SchedTake(p) => Set(s, p, r.(plock := Scheduler))
    case SchedRun(p) =>
      Set(s, p, r.(state := Running, plock := By(p),
                   pc := if r.pc.WaitAsleep? then WaitWoken else if r.pc.Dozing? then DozeBack else BornBack))
    case SchedDrop(p) => Set(s, p, r.(plock := Nobody))
    case Kill(p) => Set(s, p, r.(state := Runnable))
  }

  ghost predicate Path(s: State, actions: seq<Action>, s': State)
    decreases |actions|
  {
    if actions == [] then s == s'
    else Enabled(s, actions[0]) && Path(Effect(s, actions[0]), actions[1..], s')
  }

  ghost predicate Reachable(s: State) {
    exists s0, actions :: Init(s0) && Path(s0, actions, s)
  }

  // ---- The invariant ----

  /** Process p, at pc, holds the lock of process i. */
  predicate Holds(pc: Pc, p: nat, i: nat) {
    match pc
    case BornBack => i == p
    case DozeBack => i == p
    case ForkCheck(j) => i == j
    case ForkParent(j) => i == j
    case ForkState(j) => i == j
    case ForkRel(j) => i == j
    case WaitScan(_, _) => i == p
    case WaitLock(_) => i == p
    case WaitCheck(j) => i == p || i == j
    case WaitNext(j) => i == p || i == j
    case WaitReap(j) => i == p || i == j
    case WaitDone => i == p
    case WaitMark => i == p
    case WaitSwitch => i == p
    case WaitWoken => i == p
    case ExitInitWake => i == INIT
    case ExitInitRel => i == INIT
    case ExitRead => i == p
    case ExitLookRel(_) => i == p
    case ExitLockSelf(c) => i == c
    case ExitScan(c, _) => i == p || i == c
    case ExitLockChild(c, _) => i == p || i == c
    case ExitGive(c, j) => i == p || i == c || i == j
    case ExitNext(c, j) => i == p || i == c || i == j
    case ExitWake(c) => i == p || i == c
    case ExitZombie(c) => i == p || i == c
    case ExitRel(c) => i == p || i == c
    case ExitSwitch => i == p
    case _ => false
  }

  /** The locks that p holds at pc besides its own are not its own. */
  predicate Apart(pc: Pc, p: nat) {
    match pc
    case WaitCheck(j) => j != p
    case WaitNext(j) => j != p
    case WaitReap(j) => j != p
    case ExitLookRel(c) => c != p
    case ExitLockParent(c) => c != p
    case ExitLockSelf(c) => c != p
    case ExitScan(c, _) => c != p
    case ExitLockChild(c, _) => c != p
    case ExitGive(c, j) => c != p && j != p && j != c
    case ExitNext(c, j) => c != p && j != p && j != c
    case ExitWake(c) => c != p
    case ExitZombie(c) => c != p
    case ExitRel(c) => c != p
    case _ => true
  }

  /** The scheduling state that goes with a pc. */
  predicate StateFits(pc: Pc, state: RunState) {
    match pc
    case Off => state == Unused || state == Zombie
    case Born => state == Runnable
    case Dozing => state == Sleeping || state == Runnable
    case WaitAsleep => state == Sleeping || state == Runnable
    case WaitSwitch => state == Sleeping
    case ExitRel(_) => state == Zombie
    case ExitSwitch => state == Zombie
    case _ => state == Running
  }

  predicate InExit(pc: Pc) {
    || pc.ExitInit? || pc.ExitInitWake? || pc.ExitInitRel? || pc.ExitLook? || pc.ExitRead? || pc.ExitSwitch?
    || HasParent(pc)
  }

  /** exit has read the parent. */
  predicate HasParent(pc: Pc) {
    || pc.ExitLookRel? || pc.ExitLockParent? || pc.ExitLockSelf? || pc.ExitScan? || pc.ExitLockChild?
    || pc.ExitGive? || pc.ExitNext? || pc.ExitWake? || pc.ExitZombie? || pc.ExitRel?
  }

  predicate SleepsInWait(r: Proc) {
    r.state == Sleeping && r.chan == Self
  }

  /** p has seen, since it last took its own lock, that its child in slot q is not a zombie. */
  predicate Cleared(r: Proc, q: nat) {
    match r.pc
    case WaitScan(i, _) => q < i
    case WaitLock(i) => q < i
    case WaitCheck(i) => q < i
    case WaitNext(i) => q <= i
    case WaitMark => true
    case WaitSwitch => true
    case WaitAsleep => r.state == Sleeping
    case _ => false
  }

  /** exit has given the process in slot i, if it was p's child, to initproc. */
  predicate GivenAway(pc: Pc, i: nat) {
    match pc
    case Off => true
    case Born => true
    case ExitScan(_, k) => i < k
    case ExitLockChild(_, k) => i < k
    case ExitGive(_, k) => i < k
    case ExitNext(_, k) => i <= k
    case ExitWake(_) => true
    case ExitZombie(_) => true
    case ExitRel(_) => true
    case ExitSwitch => true
    case _ => false
  }

  /** p has found itself to be the parent of the process in slot i. */
  predicate ParentOf(pc: Pc, i: nat) {
    match pc
    case ForkState(j) => i == j
    case WaitLock(j) => i == j
    case WaitCheck(j) => i == j
    case ExitLockChild(_, j) => i == j
    case ExitGive(_, j) => i == j
    case _ => false
  }

  /** Process p's own place and state. */
  predicate PlaceOk(s: State, p: nat)
    requires p < |s.procs|
  {
    var r := s.procs[p];
    && InTable(r.pc, |s.procs|) && Apart(r.pc, p)
    && StateFits(r.pc, r.state)
    && (r.chan == Self <==> r.pc.WaitSwitch? || r.pc.WaitAsleep? || r.pc.WaitWoken?)
    && (p == INIT ==> !r.pc.Off? && !r.pc.Born? && !InExit(r.pc))
    && (r.plock.By? ==> r.plock.p < |s.procs|)
  }

  /** Process p and its parent. */
  predicate ParentOk(s: State, p: nat)
    requires p < |s.procs|
  {
    var r := s.procs[p];
    && (p == INIT ==> r.parent == None)
    && (r.state != Unused && p != INIT ==> r.parent.Some?)
    && (r.parent.Some? ==> r.parent.value < |s.procs| && r.parent.value != p)
    && ReadOk(r, p, |s.procs|)
  }

  /** exit keeps the parent it read, and reparent can only have changed that parent into initproc. */
  predicate ReadOk(r: Proc, p: nat, n: nat) {
    && (r.state == Unused ==> r.read == None)
    && (HasParent(r.pc) ==> r.read == Some(r.pc.c))
    && (r.state == Zombie ==> r.read.Some?)
    && (r.read.Some? ==> r.read.value < n && r.read.value != p)
    && (r.read.Some? ==> r.parent == r.read || r.parent == Some(INIT))
  }

  /** The lock of the process in slot i, and whether p holds it. */
  predicate LockPair(s: State, p: nat, i: nat)
    requires p < |s.procs| && i < |s.procs|
  {
    s.procs[i].plock == By(p) <==> Holds(s.procs[p].pc, p, i)
  }

  /** What p knows of the process in slot i from being its parent. */
  predicate ChildPair(s: State, p: nat, i: nat)
    requires p < |s.procs| && i < |s.procs|
  {
    var r, o := s.procs[p], s.procs[i];
    && (r.pc == ForkParent(i) || r.pc == ForkState(i) ==> o.state == Unused)
    && (o.state == Unused && o.parent == Some(p) ==> r.pc == ForkState(i))
    && (ParentOf(r.pc, i) ==> o.parent == Some(p))
  }

  /** p, about to become a zombie, has woken i. */
  predicate WokenPair(s: State, p: nat, i: nat)
    requires p < |s.procs| && i < |s.procs|
  {
    s.procs[p].pc == ExitZombie(i) ==> !SleepsInWait(s.procs[i])
  }

  /** A child i that p has passed in its scan is no zombie, if p is the parent it read. */
  predicate ZombiePair(s: State, p: nat, i: nat)
    requires p < |s.procs| && i < |s.procs|
  {
    s.procs[i].parent == s.procs[i].read == Some(p) && Cleared(s.procs[p], i) ==> s.procs[i].state != Zombie
  }

  /** Once p has given its children away it has none. */
  predicate OrphanPair(s: State, p: nat, i: nat)
    requires p < |s.procs| && i < |s.procs|
  {
    GivenAway(s.procs[p].pc, i) ==> s.procs[i].parent != Some(p)
  }

  predicate FieldsOk(s: State, p: nat)
    requires p < |s.procs|
  {
    PlaceOk(s, p) && ParentOk(s, p)
  }

  predicate PairOk(s: State, p: nat, i: nat)
    requires p < |s.procs| && i < |s.procs|
  {
    LockPair(s, p, i) && ChildPair(s, p, i) && WokenPair(s, p, i) && ZombiePair(s, p, i) && OrphanPair(s, p, i)
  }

  ghost predicate Inv(s: State) {
    && INIT < |s.procs|
    && (forall p: nat | p < |s.procs| :: FieldsOk(s, p))
    && (forall p: nat, i: nat | p < |s.procs| && i < |s.procs| :: PairOk(s, p, i))
  }

  // ---- Every statement keeps the invariant ----

  /** What a statement of p can do to the fields of another process. */
  lemma MovedFields(pc: Pc, p: nat, i: nat, o: Proc)
    ensures var o' := Moved(pc, p, i, o);
            && o'.pc == (if pc == ForkState(i) then Born else o.pc)
            && o'.plock == (if Wants(pc, p) == Some(i) then By(p) else if Drops(pc, p) == Some(i) then Nobody
              else o.plock)
            && o'.parent == (if pc == ForkParent(i) then Some(p) else if pc.ExitGive? && pc.i == i then Some(INIT)
                             else if pc == WaitCheck(i) && o.state == Zombie then None else o.parent)
            && (o'.state == o.state || pc == ForkState(i) || pc == WaitCheck(i) || SleepsInWait(o))
            && (o'.state != Unused || o.state == Unused || (pc == WaitCheck(i) && o.state == Zombie))
  {
  }

  lemma OthersLock(s: State, s': State, p: nat, q: nat, i: nat)
    requires CanRun(s, p) && q < |s.procs| && i < |s.procs| && p != q && p != i && |s'.procs| == |s.procs|
    requires s'.procs[q] == Moved(s.procs[p].pc, p, q, s.procs[q])
    requires s'.procs[i] == Moved(s.procs[p].pc, p, i, s.procs[i])
    requires LockPair(s, q, i) && LockPair(s, p, i) && ChildPair(s, p, q) && PlaceOk(s, q)
    ensures LockPair(s', q, i)
  {
    hide Statement, ZombiePair, ParentOk;
  }

  lemma OthersChild(s: State, s': State, p: nat, q: nat, i: nat)
    requires CanRun(s, p) && q < |s.procs| && i < |s.procs| && p != q && p != i && |s'.procs| == |s.procs|
    requires s'.procs[q] == Moved(s.procs[p].pc, p, q, s.procs[q])
    requires s'.procs[i] == Moved(s.procs[p].pc, p, i, s.procs[i])
    requires LockPair(s, q, i) && LockPair(s, p, i) && ChildPair(s, q, i) && ChildPair(s, p, i) && ChildPair(s, p, q)
    requires PlaceOk(s, q)
    ensures ChildPair(s', q, i)
  {
    hide Moved, Statement, ZombiePair, ParentOk;
    MovedFields(s.procs[p].pc, p, q, s.procs[q]);
    MovedFields(s.procs[p].pc, p, i, s.procs[i]);
  }

  lemma OthersWoken(s: State, s': State, p: nat, q: nat, i: nat)
    requires CanRun(s, p) && q < |s.procs| && i < |s.procs| && p != q && p != i && |s'.procs| == |s.procs|
    requires s'.procs[q] == Moved(s.procs[p].pc, p, q, s.procs[q])
    requires s'.procs[i] == Moved(s.procs[p].pc, p, i, s.procs[i])
    requires WokenPair(s, q, i)
    ensures WokenPair(s', q, i)
  {
    hide Statement, ParentOk, PlaceOk, ZombiePair, ChildPair, OrphanPair, LockPair;
  }

  lemma OthersZombie(s: State, s': State, p: nat, q: nat, i: nat)
    requires CanRun(s, p) && q < |s.procs| && i < |s.procs| && p != q && p != i && |s'.procs| == |s.procs|
    requires s'.procs[q] == Moved(s.procs[p].pc, p, q, s.procs[q])
    requires s'.procs[i] == Moved(s.procs[p].pc, p, i, s.procs[i])
    requires LockPair(s, p, q) && ChildPair(s, p, q) && ChildPair(s, p, i) && ZombiePair(s, q, i)
    requires PlaceOk(s, p) && PlaceOk(s, q) && ParentOk(s, i)
    ensures ZombiePair(s', q, i)
  {
    hide Statement, WokenPair, OrphanPair;
  }

  lemma OthersOrphan(s: State, s': State, p: nat, q: nat, i: nat)
    requires CanRun(s, p) && q < |s.procs| && i < |s.procs| && p != q && p != i && |s'.procs| == |s.procs|
    requires s'.procs[q] == Moved(s.procs[p].pc, p, q, s.procs[q])
    requires s'.procs[i] == Moved(s.procs[p].pc, p, i, s.procs[i])
    requires ChildPair(s, p, q) && OrphanPair(s, q, i) && PlaceOk(s, q)
    ensures OrphanPair(s', q, i)
  {
    hide Statement, ParentOk, ZombiePair, LockPair;
  }

  /** No statement of p on another process hits p itself: what becomes of its own fields. */
  lemma ActedFields(s: State, p: nat)
    requires CanRun(s, p) && PlaceOk(s, p) && ChildPair(s, p, p)
    ensures var r, r' := s.procs[p], Acted(s, p);
            && r'.pc == Next(s, p) && r'.parent == r.parent
            && r'.read == (if r.pc.ExitRead? then r.parent else r.read)
            && r'.state == (if r.pc.WaitMark? then Sleeping else if r.pc.ExitZombie? then Zombie else r.state)
            && r'.chan == (if r.pc.DozeBack? || r.pc.WaitWoken? then NoChan else if r.pc.WaitMark? then Self
              else r.chan)
            && r'.plock == (if Wants(r.pc, p) == Some(p) then By(p) else if Drops(r.pc, p) == Some(p) then Nobody
                            else if r.pc.WaitSwitch? || r.pc.ExitSwitch? then Scheduler else r.plock)
  {
    hide Next;
  }

  /** The locks p holds after its statement: those it held, with the one it takes, without the one it gives up. */
  lemma HoldsNext(s: State, p: nat, i: nat)
    requires CanRun(s, p) && Apart(s.procs[p].pc, p)
    ensures var pc := s.procs[p].pc;
            Holds(Next(s, p), p, i) <==>
            || Wants(pc, p) == Some(i)
            || (Holds(pc, p, i) && Drops(pc, p) != Some(i) && (i == p ==> !pc.WaitSwitch? && !pc.ExitSwitch?))
  {
    hide Moved, Acted, Statement, Own;
  }

  lemma ActorLock(s: State, s': State, p: nat, i: nat)
    requires CanRun(s, p) && PlaceOk(s, p) && i < |s.procs| && i != p && |s'.procs| == |s.procs|
    requires s'.procs[p].pc == Next(s, p) && s'.procs[i] == Moved(s.procs[p].pc, p, i, s.procs[i])
    requires LockPair(s, p, i)
    ensures LockPair(s', p, i)
  {
    hide Moved, Statement, Acted, Own, Next, Holds, Wants, Drops;
    HoldsNext(s, p, i);
    MovedFields(s.procs[p].pc, p, i, s.procs[i]);
  }

  lemma ActorChild(s: State, s': State, p: nat, i: nat)
    requires CanRun(s, p) && PlaceOk(s, p) && i < |s.procs| && i != p && |s'.procs| == |s.procs|
    requires s'.procs[p].pc == Next(s, p) && s'.procs[i] == Moved(s.procs[p].pc, p, i, s.procs[i])
    requires ChildPair(s, p, i)
    ensures ChildPair(s', p, i)
  {
    hide Statement, Acted, Own, LockPair, ZombiePair, ParentOk;
  }

  lemma ActorWoken(s: State, s': State, p: nat, i: nat)
    requires CanRun(s, p) && PlaceOk(s, p) && i < |s.procs| && i != p && |s'.procs| == |s.procs|
    requires s'.procs[p].pc == Next(s, p) && s'.procs[i] == Moved(s.procs[p].pc, p, i, s.procs[i])
    ensures WokenPair(s', p, i)
  {
    hide Statement, Acted, Own, LockPair, ChildPair, ParentOk, PlaceOk, ZombiePair, OrphanPair;
  }

  lemma ActorZombie(s: State, s': State, p: nat, i: nat)
    requires CanRun(s, p) && PlaceOk(s, p) && i < |s.procs| && i != p && |s'.procs| == |s.procs|
    requires s'.procs[p].pc == Next(s, p) && s'.procs[i] == Moved(s.procs[p].pc, p, i, s.procs[i])
    requires ZombiePair(s, p, i)
    ensures ZombiePair(s', p, i)
  {
    hide Statement, Acted, Own, LockPair, ChildPair, ParentOk, WokenPair, OrphanPair;
  }

  lemma TowardsLock(s: State, s': State, p: nat, q: nat)
    requires CanRun(s, p) && PlaceOk(s, p) && ChildPair(s, p, p) && q < |s.procs| && q != p && |s'.procs| == |s.procs|
    requires s'.procs[p] == Acted(s, p) && s'.procs[q] == Moved(s.procs[p].pc, p, q, s.procs[q])
    requires LockPair(s, q, p) && LockPair(s, p, p) && ChildPair(s, p, q) && PlaceOk(s, q)
    ensures LockPair(s', q, p)
  {
    hide Statement, Acted, Own, ZombiePair, ParentOk;
    ActedFields(s, p);
  }

  lemma TowardsChild(s: State, s': State, p: nat, q: nat)
    requires CanRun(s, p) && PlaceOk(s, p) && ChildPair(s, p, p) && q < |s.procs| && q != p && |s'.procs| == |s.procs|
    requires s'.procs[p] == Acted(s, p) && s'.procs[q] == Moved(s.procs[p].pc, p, q, s.procs[q])
    requires ChildPair(s, q, p) && ChildPair(s, p, q) && PlaceOk(s, p) && PlaceOk(s, q)
    ensures ChildPair(s', q, p)
  {
    hide Statement, Acted, Own, ZombiePair, LockPair, ParentOk;
    ActedFields(s, p);
  }

  lemma TowardsWoken(s: State, s': State, p: nat, q: nat)
    requires CanRun(s, p) && PlaceOk(s, p) && ChildPair(s, p, p) && q < |s.procs| && q != p && |s'.procs| == |s.procs|
    requires s'.procs[p] == Acted(s, p) && s'.procs[q] == Moved(s.procs[p].pc, p, q, s.procs[q])
    requires WokenPair(s, q, p) && LockPair(s, q, p) && LockPair(s, p, p)
    ensures WokenPair(s', q, p)
  {
    hide Statement, Acted, Own, ParentOk, ZombiePair, OrphanPair, ChildPair;
    ActedFields(s, p);
  }

  /** No statement of another process lets q's scan pass a slot. */
  lemma StaysCleared(pc: Pc, p: nat, q: nat, o: Proc, i: nat)
    requires Cleared(Moved(pc, p, q, o), i)
    ensures Cleared(o, i)
  {
  }

  /** A process p about to become a zombie holds the lock of q, so q is not in a
      scan; and p has woken q, so q does not sleep. */
  lemma NotCleared(s: State, p: nat, q: nat)
    requires p < |s.procs| && q < |s.procs| && q != p && s.procs[p].pc == ExitZombie(q)
    requires WokenPair(s, p, q) && LockPair(s, p, q) && LockPair(s, q, q) && PlaceOk(s, q)
    ensures !Cleared(s.procs[q], p)
  {
    hide Statement;
  }

  lemma ReaderLives(s: State, p: nat)
    requires p < |s.procs| && PlaceOk(s, p) && s.procs[p].pc.ExitRead?
    ensures s.procs[p].state != Zombie
  {
  }

  /** The heart of the matter: a process becomes a zombie only while it holds the
      lock of the parent it read, and after it has woken that parent. */
  lemma TowardsZombie(s: State, s': State, p: nat, q: nat)
    requires CanRun(s, p) && PlaceOk(s, p) && ChildPair(s, p, p) && q < |s.procs| && q != p && |s'.procs| == |s.procs|
    requires s'.procs[p] == Acted(s, p) && s'.procs[q] == Moved(s.procs[p].pc, p, q, s.procs[q])
    requires ZombiePair(s, q, p) && WokenPair(s, p, q) && LockPair(s, p, q) && LockPair(s, q, q)
    requires PlaceOk(s, q) && ParentOk(s, p)
    ensures ZombiePair(s', q, p)
  {
    hide Statement, Acted, Own, PlaceOk, OrphanPair, ChildPair, LockPair, WokenPair, Cleared, Moved;
    ActedFields(s, p);
    if Cleared(s'.procs[q], p) { StaysCleared(s.procs[p].pc, p, q, s.procs[q], p); }
    if s.procs[p].pc == ExitZombie(q) { NotCleared(s, p, q); }
    if s.procs[p].pc.ExitRead? { ReaderLives(s, p); }
  }

  lemma ActorOrphan(s: State, s': State, p: nat, i: nat)
    requires CanRun(s, p) && PlaceOk(s, p) && i < |s.procs| && i != p && |s'.procs| == |s.procs|
    requires s'.procs[p].pc == Next(s, p) && s'.procs[i] == Moved(s.procs[p].pc, p, i, s.procs[i])
    requires OrphanPair(s, p, i)
    ensures OrphanPair(s', p, i)
  {
    hide Statement, Acted, Own, LockPair, ChildPair, ZombiePair, ParentOk;
  }

  lemma TowardsOrphan(s: State, s': State, p: nat, q: nat)
    requires CanRun(s, p) && PlaceOk(s, p) && ChildPair(s, p, p) && q < |s.procs| && q != p && |s'.procs| == |s.procs|
    requires s'.procs[p] == Acted(s, p) && s'.procs[q] == Moved(s.procs[p].pc, p, q, s.procs[q])
    requires OrphanPair(s, q, p) && ChildPair(s, p, q) && PlaceOk(s, q)
    ensures OrphanPair(s', q, p)
  {
    hide Statement, Acted, Own, LockPair, ZombiePair, ParentOk;
    ActedFields(s, p);
  }

  lemma SelfLock(s: State, s': State, p: nat)
    requires CanRun(s, p) && PlaceOk(s, p) && ChildPair(s, p, p) && LockPair(s, p, p) && |s'.procs| == |s.procs|
    requires s'.procs[p] == Acted(s, p)
    ensures LockPair(s', p, p)
  {
    hide Moved, Statement, Acted, Own, Next, Holds, Wants, Drops, ChildPair;
    HoldsNext(s, p, p);
    ActedFields(s, p);
  }

  lemma SelfKin(s: State, s': State, p: nat)
    requires CanRun(s, p) && FieldsOk(s, p) && ChildPair(s, p, p) && LockPair(s, p, p) && |s'.procs| == |s.procs|
    requires s'.procs[p] == Acted(s, p)
    ensures ChildPair(s', p, p) && WokenPair(s', p, p) && ZombiePair(s', p, p) && OrphanPair(s', p, p)
  {
    hide Statement, Acted, Own, Moved, ChildPair, LockPair, Next;
    SelfChild(s, s', p);
    ActedFields(s, p);
    NotOwnParent(s, p);
  }

  lemma NotOwnParent(s: State, p: nat)
    requires CanRun(s, p) && FieldsOk(s, p)
    ensures s.procs[p].parent != Some(p) && Next(s, p) != ExitZombie(p)
  {
    hide Statement, Acted, Own, Moved;
  }

  lemma SelfChild(s: State, s': State, p: nat)
    requires CanRun(s, p) && FieldsOk(s, p) && ChildPair(s, p, p) && LockPair(s, p, p) && |s'.procs| == |s.procs|
    requires s'.procs[p] == Acted(s, p)
    ensures ChildPair(s', p, p)
  {
    hide Statement, Acted, Own, Moved;
    ActedFields(s, p);
  }

  lemma NextInTable(s: State, p: nat)
    requires CanRun(s, p) && FieldsOk(s, p) && LockPair(s, p, p)
    requires HasParent(s.procs[p].pc) ==> LockPair(s, p, s.procs[p].pc.c)
    ensures InTable(Next(s, p), |s.procs|) && Apart(Next(s, p), p)
  {
    hide Statement, Acted, Own, Moved;
  }

  lemma NextState(s: State, p: nat)
    requires CanRun(s, p) && PlaceOk(s, p) && ChildPair(s, p, p)
    ensures StateFits(Next(s, p), Acted(s, p).state)
  {
    hide Statement, Acted, Own, Moved, ChildPair, InTable, Apart;
    ActedFields(s, p);
  }

  lemma SelfPlace(s: State, s': State, p: nat)
    requires CanRun(s, p) && FieldsOk(s, p) && ChildPair(s, p, p) && LockPair(s, p, p) && |s'.procs| == |s.procs|
    requires HasParent(s.procs[p].pc) ==> LockPair(s, p, s.procs[p].pc.c)
    requires s'.procs[p] == Acted(s, p)
    ensures PlaceOk(s', p)
  {
    hide Statement, Acted, Own, Moved, ParentOk, ChildPair, LockPair, InTable, Apart, StateFits;
    ActedFields(s, p);
    NextInTable(s, p);
    NextState(s, p);
  }

  lemma SelfParent(s: State, s': State, p: nat)
    requires CanRun(s, p) && PlaceOk(s, p) && ChildPair(s, p, p) && FieldsOk(s, p) && |s'.procs| == |s.procs|
    requires s'.procs[p] == Acted(s, p)
    ensures ParentOk(s', p)
  {
    hide Statement, Acted, Own;
    ActedFields(s, p);
  }

  lemma OtherPlace(s: State, s': State, p: nat, i: nat)
    requires INIT < |s.procs| && p < |s.procs| && i < |s.procs| && i != p && |s'.procs| == |s.procs|
    requires PlaceOk(s, i) && LockPair(s, p, i) && LockPair(s, i, i) && ChildPair(s, p, i)
    requires s'.procs[i] == Moved(s.procs[p].pc, p, i, s.procs[i])
    ensures PlaceOk(s', i)
  {
    hide Statement;
  }

  lemma OtherParent(s: State, s': State, p: nat, i: nat)
    requires INIT < |s.procs| && p < |s.procs| && i < |s.procs| && i != p && |s'.procs| == |s.procs|
    requires PlaceOk(s, p) && FieldsOk(s, i) && LockPair(s, p, i) && LockPair(s, i, i) && ChildPair(s, p, i)
    requires s'.procs[i] == Moved(s.procs[p].pc, p, i, s.procs[i])
    ensures ParentOk(s', i)
  {
    hide Statement;
  }

  /** The pair (q, i) after a statement of p. */
  lemma RunPair(s: State, p: nat, q: nat, i: nat)
    requires CanRun(s, p) && Inv(s) && q < |s.procs| && i < |s.procs|
    ensures PairOk(Statement(s, p), q, i)
  {
    hide Statement, Moved, Acted, PlaceOk, ParentOk, LockPair, ChildPair, WokenPair, ZombiePair, OrphanPair, CanRun;
    var s' := Statement(s, p);
    Rows(s, p, p); Rows(s, p, q); Rows(s, p, i);
    assert FieldsOk(s, p) && FieldsOk(s, q) && FieldsOk(s, i);
    assert PairOk(s, p, p) && PairOk(s, p, q) && PairOk(s, p, i) && PairOk(s, q, p) && PairOk(s, q, i)
      && PairOk(s, q, q);
    if q == p && i == p {
      SelfLock(s, s', p); SelfKin(s, s', p);
    } else if q == p {
      ActorLock(s, s', p, i); ActorChild(s, s', p, i); ActorWoken(s, s', p, i); ActorZombie(s, s', p, i);
      ActorOrphan(s, s', p, i);
    } else if i == p {
      TowardsLock(s, s', p, q); TowardsChild(s, s', p, q); TowardsWoken(s, s', p, q); TowardsZombie(s, s', p, q);
      TowardsOrphan(s, s', p, q);
    } else {
      OthersLock(s, s', p, q, i); OthersChild(s, s', p, q, i); OthersWoken(s, s', p, q, i);
      OthersZombie(s, s', p, q, i); OthersOrphan(s, s', p, q, i);
    }
  }

  lemma Rows(s: State, p: nat, i: nat)
    requires CanRun(s, p) && i < |s.procs|
    ensures Statement(s, p).procs[i] == if i == p then Acted(s, p) else Moved(s.procs[p].pc, p, i, s.procs[i])
    ensures HasParent(s.procs[p].pc) ==> s.procs[p].pc.c < |s.procs|
  {
    hide Moved, Acted;
  }

  lemma RunFields(s: State, p: nat, q: nat)
    requires CanRun(s, p) && Inv(s) && q < |s.procs|
    ensures FieldsOk(Statement(s, p), q)
  {
    hide Statement, Moved, Acted, PlaceOk, ParentOk, LockPair, ChildPair, WokenPair, ZombiePair, OrphanPair, CanRun;
    var s' := Statement(s, p);
    Rows(s, p, p); Rows(s, p, q);
    assert FieldsOk(s, p) && FieldsOk(s, q);
    assert PairOk(s, p, p) && PairOk(s, p, q) && PairOk(s, q, q);
    if q == p {
      if HasParent(s.procs[p].pc) { assert PairOk(s, p, s.procs[p].pc.c); }
      SelfPlace(s, s', p); SelfParent(s, s', p);
    } else {
      OtherPlace(s, s', p, q); OtherParent(s, s', p, q);
    }
  }

  lemma RunKept(s: State, p: nat)
    requires CanRun(s, p) && Inv(s)
    ensures Inv(Statement(s, p))
  {
    hide Statement, FieldsOk, PairOk, CanRun;
    var s' := Statement(s, p);
    forall q: nat | q < |s'.procs| ensures FieldsOk(s', q) { RunFields(s, p, q); }
    forall q: nat, i: nat | q < |s'.procs| && i < |s'.procs| ensures PairOk(s', q, i) { RunPair(s, p, q, i); }
  }

  // ---- The other steps ----

  lemma ForkPair(s: State, p: nat, j: nat, q: nat, i: nat)
    requires Enabled(s, Fork(p, j)) && q < |s.procs| && i < |s.procs|
    requires PlaceOk(s, p) && PairOk(s, q, i)
    ensures PairOk(Effect(s, Fork(p, j)), q, i)
  {
    hide Statement, ParentOk;
  }

  lemma StepLock(s: State, a: Action, q: nat, i: nat)
    requires Enabled(s, a) && !a.Run? && !a.Fork? && q < |s.procs| && i < |s.procs|
    requires PlaceOk(s, a.p) && LockPair(s, q, i) && LockPair(s, a.p, i) && LockPair(s, q, a.p)
    ensures LockPair(Effect(s, a), q, i)
  {
    hide Statement, ParentOk, ChildPair, ZombiePair, OrphanPair;
  }

  lemma StepChild(s: State, a: Action, q: nat, i: nat)
    requires Enabled(s, a) && !a.Run? && !a.Fork? && q < |s.procs| && i < |s.procs| && PlaceOk(s, a.p)
    requires ChildPair(s, q, i)
    ensures ChildPair(Effect(s, a), q, i)
  {
    hide Statement, ParentOk, LockPair, WokenPair, ZombiePair, OrphanPair;
  }

  lemma StepZombie(s: State, a: Action, q: nat, i: nat)
    requires Enabled(s, a) && !a.Run? && !a.Fork? && q < |s.procs| && i < |s.procs| && PlaceOk(s, a.p)
    requires WokenPair(s, q, i) && ZombiePair(s, q, i) && OrphanPair(s, q, i)
    ensures var s' := Effect(s, a); WokenPair(s', q, i) && ZombiePair(s', q, i) && OrphanPair(s', q, i)
  {
    hide Statement, ParentOk, LockPair, ChildPair;
  }

  lemma StepPlace(s: State, a: Action, q: nat)
    requires Enabled(s, a) && !a.Run? && INIT < |s.procs| && q < |s.procs|
    requires PlaceOk(s, q) && PlaceOk(s, a.p) && LockPair(s, a.p, a.p)
    ensures PlaceOk(Effect(s, a), q)
  {
    hide Statement, ParentOk;
  }

  lemma StepParent(s: State, a: Action, q: nat)
    requires Enabled(s, a) && !a.Run? && INIT < |s.procs| && q < |s.procs| && FieldsOk(s, q)
    ensures ParentOk(Effect(s, a), q)
  {
    hide Statement;
  }

  lemma StepKept(s: State, a: Action)
    requires Inv(s) && Enabled(s, a)
    ensures Inv(Effect(s, a))
  {
    if a.Run? {
      RunKept(s, a.p);
    } else {
      OtherStepKept(s, a);
    }
  }

  lemma OtherStepKept(s: State, a: Action)
    requires Inv(s) && Enabled(s, a) && !a.Run?
    ensures Inv(Effect(s, a))
  {
    hide Statement, PlaceOk, ParentOk, LockPair, ChildPair, WokenPair, ZombiePair, OrphanPair;
    var s' := Effect(s, a);
    assert |s'.procs| == |s.procs|;
    forall q: nat | q < |s'.procs| ensures FieldsOk(s', q) {
      assert FieldsOk(s, q) && FieldsOk(s, a.p) && PairOk(s, a.p, a.p);
      StepPlace(s, a, q); StepParent(s, a, q);
    }
    forall q: nat, i: nat | q < |s'.procs| && i < |s'.procs| ensures PairOk(s', q, i) {
      assert FieldsOk(s, a.p) && PairOk(s, q, i) && PairOk(s, a.p, i) && PairOk(s, q, a.p);
      if a.Fork? {
        ForkPair(s, a.p, a.i, q, i);
      } else {
        StepLock(s, a, q, i); StepChild(s, a, q, i); StepZombie(s, a, q, i);
      }
    }
  }

  lemma {:induction false} PathKept(s: State, actions: seq<Action>, s': State)
    requires Inv(s) && Path(s, actions, s')
    ensures Inv(s')
    decreases |actions|
  {
    hide Effect, Inv, Enabled;
    if actions != [] {
      StepKept(s, actions[0]);
      PathKept(Effect(s, actions[0]), actions[1..], s');
    }
  }

  lemma InitInv(s: State)
    requires Init(s)
    ensures Inv(s)
  {
    forall p: nat | p < |s.procs| ensures FieldsOk(s, p) { InitRow(s, p); }
    forall p: nat, i: nat | p < |s.procs| && i < |s.procs| ensures PairOk(s, p, i) { InitRow(s, p); InitRow(s, i); }
  }

  lemma InitRow(s: State, p: nat)
    requires Init(s) && p < |s.procs|
    ensures s.procs[p] == if p == INIT then Proc(Idle, Running, NoChan, None, None, Nobody) else VACANT
  {
  }

  lemma ReachableInv(s: State)
    requires Reachable(s)
    ensures Inv(s)
  {
    hide Init, Path, Inv;
    var s0, actions :| Init(s0) && Path(s0, actions, s);
    InitInv(s0);
    PathKept(s0, actions, s);
  }

  // ---- What follows in every reachable state ----

  /** An exit is missed only if its parent gave the process to initproc after exit
      had read the parent: a process, initproc included, that sleeps in wait has
      no other zombie child. */
  lemma MissedOnlyIfGivenAway(s: State, p: nat, q: nat)
    requires Reachable(s) && p < |s.procs| && q < |s.procs|
    requires SleepsInWait(s.procs[p]) && s.procs[q].parent == Some(p) && s.procs[q].state == Zombie
    ensures p == INIT && s.procs[q].read.Some? && s.procs[q].read.value !in {INIT, q}
      && s.procs[q].read.value < |s.procs|
  {
    hide Reachable, Inv;
    ReachableInv(s);
    assert FieldsOk(s, p) && FieldsOk(s, q) && PairOk(s, p, q) by { InvAt(s, p, q); }
  }

  lemma InvAt(s: State, p: nat, q: nat)
    requires Inv(s) && p < |s.procs| && q < |s.procs|
    ensures FieldsOk(s, p) && FieldsOk(s, q) && PairOk(s, p, q) && PairOk(s, q, p) && PairOk(s, p, p) && PairOk(s, q, q)
  {
  }

  /** A process other than initproc that sleeps in wait has no zombie child: no exit is missed. */
  lemma NoMissedExit(s: State, p: nat, q: nat)
    requires Reachable(s) && p < |s.procs| && q < |s.procs| && p != INIT
    requires SleepsInWait(s.procs[p]) && s.procs[q].parent == Some(p)
    ensures s.procs[q].state != Zombie
  {
    hide Reachable;
    if s.procs[q].state == Zombie { MissedOnlyIfGivenAway(s, p, q); }
  }

  /** Between the unlocked test of np->parent and the use of np, in wait and in
      reparent, the parent does not change; np is in use, and is not p itself. */
  lemma ParentCannotChange(s: State, p: nat, i: nat)
    requires Reachable(s) && p < |s.procs| && i < |s.procs| && ParentOf(s.procs[p].pc, i)
    ensures s.procs[i].parent == Some(p) && i != p && i != INIT
    ensures s.procs[i].state == Unused ==> s.procs[p].pc == ForkState(i)
  {
    ReachableInv(s);
    assert PairOk(s, p, i) && FieldsOk(s, i);
  }

  /** The zombie that wait frees has left its kernel stack. */
  lemma FreedHasStopped(s: State, p: nat, i: nat)
    requires Reachable(s) && p < |s.procs| && s.procs[p].pc == WaitCheck(i) && i < |s.procs|
      && s.procs[i].state == Zombie
    ensures s.procs[i].pc == Off && s.procs[i].plock == By(p)
  {
    ReachableInv(s);
    assert PairOk(s, p, i) && PairOk(s, i, i) && FieldsOk(s, i) && FieldsOk(s, p);
  }

  /** Every process but initproc always has a parent, and that parent has neither
      exited nor been freed: exit leaves no child behind. */
  lemma ParentIsAlive(s: State, q: nat)
    requires Reachable(s) && q < |s.procs| && q != INIT && s.procs[q].state != Unused
    ensures var r := s.procs[q]; r.parent.Some? && r.parent.value < |s.procs|
    ensures s.procs[s.procs[q].parent.value].state !in {Unused, Zombie}
  {
    ReachableInv(s);
    assert FieldsOk(s, q);
    var p := s.procs[q].parent.value;
    assert FieldsOk(s, p) && PairOk(s, p, q);
  }

  /** Each process's lock has at most one holder, and only that holder's place says it is held. */
  lemma LockHasOneHolder(s: State, p: nat, q: nat, i: nat)
    requires Reachable(s) && p < |s.procs| && q < |s.procs| && i < |s.procs|
    requires Holds(s.procs[p].pc, p, i) && Holds(s.procs[q].pc, q, i)
    ensures p == q
  {
    ReachableInv(s);
    assert PairOk(s, p, i) && PairOk(s, q, i);
  }

  // ---- Ways in and out of the calls ----

  /** p goes to sleep somewhere else ... */
  lemma Dozes(s: State, p: nat)
    requires p < |s.procs| && s.procs[p].pc == Idle && s.procs[p].plock == Nobody
    ensures Enabled(s, Doze(p)) && Enabled(Effect(s, Doze(p)), SchedDrop(p))
    ensures Effect(Effect(s, Doze(p)), SchedDrop(p)) ==
            Set(s, p, s.procs[p].(pc := Dozing, chan := Elsewhere, state := Sleeping))
  {
    hide Statement;
  }

  /** ... is woken and scheduled ... */
  lemma Wakes(s: State, p: nat)
    requires p < |s.procs| && s.procs[p].plock == Nobody && s.procs[p].state == Sleeping
    requires s.procs[p].pc == Dozing || s.procs[p].pc == WaitAsleep
    ensures Enabled(s, Kill(p)) && Enabled(Effect(s, Kill(p)), SchedTake(p))
    ensures var s2 := Effect(Effect(s, Kill(p)), SchedTake(p));
            Enabled(s2, SchedRun(p)) && Effect(s2, SchedRun(p)) ==
            Set(s, p, s.procs[p].(pc := if s.procs[p].pc == Dozing then DozeBack else WaitWoken,
                                  state := Running, plock := By(p)))
  {
    hide Statement;
  }

  /** ... and comes back: the whole way changes nothing. */
  lemma ComesBack(s: State, p: nat)
    requires p < |s.procs| && INIT < |s.procs| && s.procs[p].pc == DozeBack
    ensures Enabled(s, Run(p))
    ensures Effect(s, Run(p)) == Set(s, p, s.procs[p].(pc := Idle, chan := NoChan, plock := Nobody))
  {
    assert Effect(s, Run(p)).procs == s.procs[p := s.procs[p].(pc := Idle, chan := NoChan, plock := Nobody)];
  }

  /** wait gives up where it would sleep, if the caller was killed: it returns without its
      lock, and no other process has changed. */
  lemma KilledWaiterReturns(s: State, p: nat)
    requires p < |s.procs| && INIT < |s.procs| && s.procs[p].pc == WaitMark
    ensures Enabled(s, Killed(p)) && Enabled(Effect(s, Killed(p)), Run(p))
    ensures Effect(Effect(s, Killed(p)), Run(p)) == Set(s, p, s.procs[p].(pc := Idle, plock := Nobody))
  {
    var s2 := Effect(Effect(s, Killed(p)), Run(p));
    assert s2.procs == s.procs[p := s.procs[p].(pc := Idle, plock := Nobody)];
  }

  /** wait returns without freeing the zombie if it cannot copy the exit status out: the
      zombie stays as it was. */
  lemma FailedCopyKeepsZombie(s: State, p: nat, i: nat)
    requires p < |s.procs| && i < |s.procs| && i != p && s.procs[p].pc == WaitCheck(i) && s.procs[i].state == Zombie
    ensures Enabled(s, CopyFails(p)) && Enabled(Effect(s, CopyFails(p)), Run(p))
    ensures var s2 := Effect(Effect(s, CopyFails(p)), Run(p));
            Enabled(s2, Run(p)) && Effect(s2, Run(p)) ==
            Set(Set(s, i, s.procs[i].(plock := Nobody)), p, s.procs[p].(pc := Idle, plock := Nobody))
  {
    var s1 := Effect(s, CopyFails(p));
    var s2 := Effect(s1, Run(p));
    assert s2.procs == s.procs[i := s.procs[i].(plock := Nobody)][p := s.procs[p].(pc := WaitDone)];
    var s3 := Effect(s2, Run(p));
    assert s3.procs == s.procs[i := s.procs[i].(plock := Nobody)][p := s.procs[p].(pc := Idle, plock := Nobody)];
  }

  /** fork passes over a slot that is in use: it has changed nothing. */
  lemma ForkPassesOver(s: State, p: nat, i: nat)
    requires Enabled(s, Fork(p, i)) && INIT < |s.procs| && s.procs[i].state != Unused
    ensures var s1 := Effect(s, Fork(p, i));
            && Enabled(s1, Run(p)) && Enabled(Effect(s1, Run(p)), Run(p))
            && Effect(Effect(s1, Run(p)), Run(p)) == s
  {
    var s1 := Effect(s, Fork(p, i));
    var s2 := Effect(s1, Run(p));
    assert s2.procs == s1.procs[p := s1.procs[p].(pc := ForkRel(i))];
    var s3 := Effect(s2, Run(p));
    assert s3.procs == s.procs;
  }

  /** A run leads from s to s'. */
  ghost predicate Leads(s: State, s': State) {
    exists actions :: Path(s, actions, s')
  }

  lemma LeadsStep(s: State, a: Action, s': State)
    requires Enabled(s, a) && Leads(Effect(s, a), s')
    ensures Leads(s, s')
  {
    hide Enabled, Effect;
    var actions :| Path(Effect(s, a), actions, s');
    assert ([a] + actions)[1..] == actions;
    assert Path(s, [a] + actions, s');
  }

  /** wait, called by a process without children, returns and has changed nothing. */
  lemma {:induction false} NoChildrenReturns(s: State, p: nat, i: nat)
    requires p < |s.procs| && i <= |s.procs| && INIT < |s.procs| && s.procs[p].pc == WaitScan(i, false)
    requires forall q | i <= q < |s.procs| :: s.procs[q].parent != Some(p)
    ensures Leads(s, Set(s, p, s.procs[p].(pc := Idle, plock := Nobody)))
    decreases |s.procs| - i
  {
    hide Leads, Path;
    var s' := Set(s, p, s.procs[p].(pc := Idle, plock := Nobody));
    var s1 := Effect(s, Run(p));
    if i < |s.procs| {
      assert s1.procs == s.procs[p := s.procs[p].(pc := WaitScan(i + 1, false))];
      NoChildrenReturns(s1, p, i + 1);
      assert Set(s1, p, s1.procs[p].(pc := Idle, plock := Nobody)) == s';
    } else {
      assert s1.procs == s.procs[p := s.procs[p].(pc := WaitDone)];
      var s2 := Effect(s1, Run(p));
      assert s2.procs == s'.procs;
      assert Leads(s2, s2) by { StaysHere(s2); }
      LeadsStep(s1, Run(p), s');
    }
    LeadsStep(s, Run(p), s');
  }

  lemma StaysHere(s: State)
    ensures Leads(s, s)
  {
    assert Path(s, [], s);
  }
}

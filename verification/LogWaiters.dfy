/** Who sleeps in begin_op, and why (kernel/log.c): callers, and the wakeups of end_op
    and of the end of a commit, over the bookkeeping of LogSpace. Each step is one
    critical section under log.lock; sleep gives that lock up and marks the caller as
    sleeping in one step (SleepLock is about that). */
module LogWaiters {
  import opened Common
  import opened LogSpace

  /** A process: outside, in begin_op's loop, asleep there, or in its file system call. */
  datatype Caller = Away | Asking | Asleep | Inside

  datatype State = State(log: Log, callers: seq<Caller>)

  datatype Action =
    | Call(t: nat)             // a process calls begin_op
    | Try(t: nat)              // one turn of begin_op's loop
    | Wake(t: nat)             // kill
    | Write(step: Step)        // log_write: its guard, or its critical section
    | Leave(t: nat)            // end_op
    | Clear | Finished         // the commit erases the log; it is over

  /** begin_op's two reasons to sleep. */
  predicate MustWait(g: Params, l: Log) {
    l.committing || |l.blocks| + (|l.ops| + 1) * g.opMax > g.logMax
  }

  predicate Init(s: State) {
    s.log == Start && forall t | 0 <= t < |s.callers| :: s.callers[t] == Away
  }

  predicate CanDo(g: Params, s: State, a: Action) {
    match a
    case Call(t) => t < |s.callers| && s.callers[t] == Away
    case Try(t) => t < |s.callers| && s.callers[t] == Asking && t !in s.log.ops
    case Wake(t) => t < |s.callers| && s.callers[t] == Asleep
    case Write(step) => (step.CheckRoom? || step.Record?) && LogSpace.Enabled(g, s.log, step)
    case Leave(t) => t < |s.callers| && s.callers[t] == Inside && LogSpace.Enabled(g, s.log, End(t))
    case Clear => LogSpace.Enabled(g, s.log, Erase)
    case Finished => LogSpace.Enabled(g, s.log, Finish)
  }

  /** wakeup(&log) */
  function Woken(callers: seq<Caller>): (r: seq<Caller>)
    ensures |r| == |callers|
  {
    seq(|callers|, t requires 0 <= t < |callers| => if callers[t] == Asleep then Asking else callers[t])
  }

  function Does(g: Params, s: State, a: Action): State
    requires CanDo(g, s, a)
  {
    match a
    case Call(t) => s.(callers := s.callers[t := Asking])
    case Try(t) =>
      if MustWait(g, s.log) then s.(callers := s.callers[t := Asleep])
      else State(LogSpace.Effect(g, s.log, Begin(t)), s.callers[t := Inside])
    case Wake(t) => s.(callers := s.callers[t := Asking])
    case Write(step) => s.(log := LogSpace.Effect(g, s.log, step))
    case Leave(t) =>
      var l := LogSpace.Effect(g, s.log, End(t));
      var callers := s.callers[t := Away];
      State(l, if l.committing then callers else Woken(callers))
    case Clear => s.(log := LogSpace.Effect(g, s.log, Erase))
    case Finished => State(LogSpace.Effect(g, s.log, Finish), Woken(s.callers))
  }

  ghost predicate Run(g: Params, s: State, actions: seq<Action>, s': State)
    decreases |actions|
  {
    if actions == [] then s == s'
    else CanDo(g, s, actions[0]) && Run(g, Does(g, s, actions[0]), actions[1..], s')
  }

  /** Whoever sleeps has a reason to, and the calls in progress are the counted ones. */
  ghost predicate Ok(g: Params, s: State) {
    && LogSpace.Inv(g, s.log)
    && (forall t | 0 <= t < |s.callers| && s.callers[t] == Asleep :: MustWait(g, s.log))
    && (forall t | t in s.log.ops :: t < |s.callers| && s.callers[t] == Inside)
  }

  /** Steps of calls in progress never make room. */
  lemma NoNewRoom(g: Params, l: Log, step: Step)
    requires LogSpace.Enabled(g, l, step) && (step.Begin? || step.CheckRoom? || step.Record?) && MustWait(g, l)
    ensures MustWait(g, LogSpace.Effect(g, l, step))
  {
    var l' := LogSpace.Effect(g, l, step);
    SameCount(l.ops, step.id, l'.ops[step.id]);
    assert |l'.ops| >= |l.ops| && |l'.blocks| >= |l.blocks|;
    assert (|l'.ops| + 1) * g.opMax >= (|l.ops| + 1) * g.opMax;
  }

  lemma SameCount(ops: map<nat, Op>, id: nat, op: Op)
    ensures |ops[id := op]| == if id in ops then |ops| else |ops| + 1
  {
    assert ops[id := op].Keys == ops.Keys + {id};
    assert |ops.Keys| == |ops| && |ops[id := op].Keys| == |ops[id := op]|;
  }

  /** A process asks, or is woken. */
  lemma AskOk(g: Params, s: State, a: Action)
    requires Ok(g, s) && CanDo(g, s, a) && (a.Call? || a.Try? || a.Wake?)
    ensures Ok(g, Does(g, s, a))
  {
    hide LogSpace.Inv;
    if a.Try? && !MustWait(g, s.log) { StepKeepsInv(g, s.log, Begin(a.t)); }
  }

  lemma WriteOk(g: Params, s: State, step: Step)
    requires Ok(g, s) && CanDo(g, s, Write(step))
    ensures Ok(g, Does(g, s, Write(step)))
  {
    hide LogSpace.Inv, MustWait;
    StepKeepsInv(g, s.log, step);
    if MustWait(g, s.log) { NoNewRoom(g, s.log, step); }
  }

  /** end_op, and the end of a commit, wake all sleepers or leave them a reason. */
  lemma LeaveOk(g: Params, s: State, a: Action)
    requires Ok(g, s) && CanDo(g, s, a) && (a.Leave? || a.Clear? || a.Finished?)
    ensures Ok(g, Does(g, s, a))
  {
    hide LogSpace.Inv;
    StepKeepsInv(g, s.log, if a.Leave? then End(a.t) else if a.Clear? then Erase else Finish);
  }

  lemma StepOk(g: Params, s: State, a: Action)
    requires Ok(g, s) && CanDo(g, s, a)
    ensures Ok(g, Does(g, s, a))
  {
    hide Ok;
    match a
    case Write(step) => WriteOk(g, s, step);
    case Leave(_) => LeaveOk(g, s, a);
    case Clear => LeaveOk(g, s, a);
    case Finished => LeaveOk(g, s, a);
    case _ => AskOk(g, s, a);
  }

  lemma {:induction false} RunOk(g: Params, s: State, actions: seq<Action>, s': State)
    requires Ok(g, s) && Run(g, s, actions, s')
    ensures Ok(g, s')
    decreases |actions|
  {
    hide Ok, CanDo, Does;
    if actions != [] {
      StepOk(g, s, actions[0]);
      RunOk(g, Does(g, s, actions[0]), actions[1..], s');
    }
  }

  /** In every run, a process sleeps in begin_op only while a commit runs or the log has
      no room for one more call; and then, if one call fits into the log at all, there is
      a commit or a call in progress whose end will wake it. */
  lemma SleepersHaveReason(g: Params, s0: State, actions: seq<Action>, s: State, t: nat)
    requires Init(s0) && Run(g, s0, actions, s) && t < |s.callers| && s.callers[t] == Asleep
    ensures MustWait(g, s.log)
    ensures g.opMax <= g.logMax ==> s.log.committing || exists u | 0 <= u < |s.callers| :: s.callers[u] == Inside
  {
    assert Start.ops == map[];
    RunOk(g, s0, actions, s);
    if g.opMax <= g.logMax && !s.log.committing {
      assert s.log.ops != map[];
      var u :| u in s.log.ops;
    }
  }

  // ---- Every sleeper can get in ----

  /** A run leads from s to s'. */
  ghost predicate Leads(g: Params, s: State, s': State) {
    exists actions :: Run(g, s, actions, s')
  }

  lemma {:induction false} RunAppend(g: Params, s: State, actions: seq<Action>, t: State, a: Action)
    requires Run(g, s, actions, t) && CanDo(g, t, a)
    ensures Run(g, s, actions + [a], Does(g, t, a))
    decreases |actions|
  {
    hide CanDo, Does;
    if actions == [] {
      assert [a][1..] == [];
    } else {
      RunAppend(g, Does(g, s, actions[0]), actions[1..], t, a);
      assert (actions + [a])[1..] == actions[1..] + [a];
    }
  }

  lemma Go(g: Params, s0: State, s: State, a: Action) returns (s': State)
    requires Leads(g, s0, s) && Ok(g, s) && CanDo(g, s, a)
    ensures Leads(g, s0, s') && Ok(g, s') && s' == Does(g, s, a)
  {
    hide CanDo, Does, Run, Ok;
    var actions :| Run(g, s0, actions, s);
    RunAppend(g, s0, actions, s, a);
    StepOk(g, s, a);
    s' := Does(g, s, a);
  }

  /** No call is in the middle of log_write. */
  predicate Calm(l: Log) {
    forall id | id in l.ops :: !l.ops[id].cleared
  }

  /** The calls in progress end one after the other; the last one starts a commit. */
  lemma {:induction false} AllLeave(g: Params, s0: State, s: State, t: nat) returns (s': State)
    requires Leads(g, s0, s) && Ok(g, s) && Calm(s.log) && t < |s.callers| && t !in s.log.ops
    requires s.callers[t] == Asleep || s.callers[t] == Asking
    ensures Leads(g, s0, s') && Ok(g, s') && |s'.callers| == |s.callers| && s'.log.ops == map[]
    ensures s'.callers[t] == Asleep || s'.callers[t] == Asking
    decreases |s.log.ops|
  {
    hide LogSpace.Inv, Leads;
    if s.log.ops == map[] {
      s' := s;
    } else {
      var u :| u in s.log.ops;
      assert !s.log.committing by { NoCommit(g, s.log); }
      var s1 := Go(g, s0, s, Leave(u));
      s' := AllLeave(g, s0, s1, t);
    }
  }

  lemma NoCommit(g: Params, l: Log)
    requires LogSpace.Inv(g, l) && l.ops != map[]
    ensures !l.committing
  {
  }

  /** The commit, if one is due, runs to its end and leaves an empty log. */
  lemma CommitRuns(g: Params, s0: State, s: State, t: nat) returns (s': State)
    requires Leads(g, s0, s) && Ok(g, s) && s.log.ops == map[] && t < |s.callers|
    requires s.callers[t] == Asleep || s.callers[t] == Asking
    requires g.opMax <= g.logMax
    ensures Leads(g, s0, s') && Ok(g, s') && |s'.callers| == |s.callers| && s'.log == Start && s'.callers[t] == Asking
  {
    hide Leads;
    if s.log.committing {
      var s1 := Go(g, s0, s, Clear);
      s' := Go(g, s0, s1, Finished);
    } else {
      s' := s;
    }
  }

  /** From any point of any run with no call in the middle of log_write, the run can go
      on so that a process asleep in begin_op is woken and gets in. */
  lemma SleeperGetsIn(g: Params, s: State, t: nat) returns (s': State)
    requires Ok(g, s) && Calm(s.log) && t < |s.callers| && s.callers[t] == Asleep && g.opMax <= g.logMax
    ensures Leads(g, s, s') && t < |s'.callers| && s'.callers[t] == Inside && t in s'.log.ops
  {
    hide Leads, LogSpace.Inv;
    assert Leads(g, s, s) by { StaysHere(g, s); }
    var s1 := AllLeave(g, s, s, t);
    var s2 := CommitRuns(g, s, s1, t);
    s' := Go(g, s, s2, Try(t));
  }

  lemma StaysHere(g: Params, s: State)
    ensures Leads(g, s, s)
  {
    assert Run(g, s, [], s);
  }

  /** A call that finds room comes in at once, can log a block, and leaves; one that finds
      none sleeps; and a killed sleeper asks again. */
  lemma CallComesAndGoes(g: Params, s: State, t: nat)
    requires Ok(g, s) && t < |s.callers| && s.callers[t] == Away && t !in s.log.ops
    ensures var s1 := Does(g, s, Call(t));
            && CanDo(g, s1, Try(t))
            && (MustWait(g, s.log) ==>
                  var s2 := Does(g, s1, Try(t));
                  s2.log == s.log && s2.callers == s.callers[t := Asleep] && CanDo(g, s2, Wake(t))
                  && Does(g, s2, Wake(t)) == s1)
            && (!MustWait(g, s.log) ==>
                  var s2 := Does(g, s1, Try(t));
                  t in s2.log.ops && s2.callers == s.callers[t := Inside] && CanDo(g, s2, Leave(t))
                  && t !in Does(g, s2, Leave(t)).log.ops && Does(g, s2, Leave(t)).callers[t] == Away
                  && (RoomGuard(g, s2.log) ==> Does(g, s2, Write(CheckRoom(t))).log.ops[t].cleared))
  {
  }
}

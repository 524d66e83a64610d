/** Space accounting of the redo log (kernel/log.c): how begin_op, log_write
    and end_op share the log between concurrent file system calls.

    Each step is one critical section under log.lock, except `CheckRoom`, which
    is the guard at the top of log_write: the code evaluates it before taking
    the lock, so other steps may run between a guard and the append it allowed. */
module LogSpace {
  import opened Common

  /** opMax is MAXOPBLOCKS, logMax is LOGSIZE, size is log.size (the superblock's nlog). */
  datatype Params = Params(opMax: nat, logMax: nat, size: nat)

  /** One running system call: the blocks it has appended, and whether it is
      between log_write's guard and log_write's critical section. */
  datatype Op = Op(used: nat, cleared: bool)

  /** blocks is log.lh.block[..log.lh.n]; log.outstanding is |ops|. */
  datatype Log = Log(blocks: seq<nat>, ops: map<nat, Op>, committing: bool)

  datatype Step =
    | Begin(id: nat)
    | CheckRoom(id: nat)
    | Record(id: nat, b: nat)
    | End(id: nat)
    | Erase
    | Finish

  const Start := Log([], map[], false)

  /** log_write's guard: neither of its two panics fires. */
  predicate RoomGuard(g: Params, l: Log) {
    |l.blocks| < g.logMax && |l.blocks| < g.size - 1 && |l.ops| >= 1
  }

  predicate Enabled(g: Params, l: Log, step: Step) {
    match step
    case Begin(id) =>
      id !in l.ops && !l.committing && |l.blocks| + (|l.ops| + 1) * g.opMax <= g.logMax
    case CheckRoom(id) =>
      id in l.ops && RoomGuard(g, l)
    case Record(id, b) =>
      id in l.ops && l.ops[id].cleared && (b in l.blocks || l.ops[id].used < g.opMax)
    case End(id) =>
      id in l.ops && !l.ops[id].cleared && !l.committing
    case Erase => l.committing
    case Finish => l.committing && l.blocks == []
  }

  function Effect(g: Params, l: Log, step: Step): Log
    requires Enabled(g, l, step)
  {
    match step
    case Begin(id) => l.(ops := l.ops[id := Op(0, false)])
    case CheckRoom(id) => l.(ops := l.ops[id := l.ops[id].(cleared := true)])
    case Record(id, b) =>
      if b in l.blocks then l.(ops := l.ops[id := l.ops[id].(cleared := false)])
      else l.(blocks := l.blocks + [b], ops := l.ops[id := Op(l.ops[id].used + 1, false)])
    case End(id) => l.(ops := l.ops - {id}, committing := l.ops.Keys == {id})
    case Erase => l.(blocks := [])
    case Finish => l.(committing := false)
  }

  /** `steps` can be taken from l, in order, and leads to l'. */
  ghost predicate Path(g: Params, l: Log, steps: seq<Step>, l': Log)
    decreases |steps|
  {
    if steps == [] then l == l'
    else Enabled(g, l, steps[0]) && Path(g, Effect(g, l, steps[0]), steps[1..], l')
  }

  ghost predicate Reachable(g: Params, l: Log) {
    exists steps :: Path(g, Start, steps, l)
  }

  /** Appends that the running calls may still make: MAXOPBLOCKS each, less what each has used. */
  ghost function Unused(opMax: int, ops: map<nat, Op>): (n: int)
    decreases |ops|
  {
    if |ops| == 0 then 0
    else var id :| id in ops; opMax - ops[id].used + Unused(opMax, ops - {id})
  }

  lemma {:induction false} UnusedSplit(opMax: int, ops: map<nat, Op>, id: nat)
    requires id in ops
    ensures Unused(opMax, ops) == opMax - ops[id].used + Unused(opMax, ops - {id})
    decreases |ops|
  {
    var first: nat :| first in ops && Unused(opMax, ops) == opMax - ops[first].used + Unused(opMax, ops - {first});
    hide Unused;
    if first != id {
      UnusedSplit(opMax, ops - {first}, id);
      UnusedSplit(opMax, ops - {id}, first);
      assert ops - {first} - {id} == ops - {id} - {first};
    }
  }

  lemma UnusedUpdate(opMax: int, ops: map<nat, Op>, id: nat, op: Op)
    ensures Unused(opMax, ops[id := op]) == opMax - op.used + Unused(opMax, ops - {id})
  {
    UnusedSplit(opMax, ops[id := op], id);
    assert ops[id := op] - {id} == ops - {id};
  }

  lemma {:induction false} UnusedBounds(opMax: int, ops: map<nat, Op>)
    requires forall id | id in ops :: ops[id].used <= opMax
    ensures 0 <= Unused(opMax, ops) <= |ops| * opMax
    decreases |ops|
  {
    if |ops| != 0 {
      var id :| id in ops;
      UnusedSplit(opMax, ops, id);
      UnusedBounds(opMax, ops - {id});
      assert (|ops| - 1) * opMax == |ops| * opMax - opMax;
    }
  }

  /** The reservation invariant of log.c. */
  ghost predicate Inv(g: Params, l: Log) {
    && Distinct(l.blocks)
    && (forall id | id in l.ops :: l.ops[id].used <= g.opMax)
    && |l.blocks| + Unused(g.opMax, l.ops) <= g.logMax
    && (l.committing ==> l.ops == map[])
    && (l.ops == map[] && !l.committing ==> l.blocks == [])
  }

  lemma OneMore(n: int, k: int)
    ensures (n + 1) * k == n * k + k
  {
  }

  lemma BeginKeepsInv(g: Params, l: Log, id: nat)
    requires Inv(g, l) && Enabled(g, l, Begin(id))
    ensures Inv(g, Effect(g, l, Begin(id)))
  {
    OneMore(|l.ops|, g.opMax);
    UnusedBounds(g.opMax, l.ops);
    UnusedUpdate(g.opMax, l.ops, id, Op(0, false));
    assert l.ops - {id} == l.ops;
    assert id in l.ops[id := Op(0, false)];
  }

  lemma UpdateKeepsInv(g: Params, l: Log, id: nat, op: Op, blocks: seq<nat>)
    requires Inv(g, l) && id in l.ops && op.used <= g.opMax
    requires Distinct(blocks) && |blocks| - |l.blocks| == op.used - l.ops[id].used
    ensures Inv(g, l.(blocks := blocks, ops := l.ops[id := op]))
  {
    UnusedSplit(g.opMax, l.ops, id);
    UnusedUpdate(g.opMax, l.ops, id, op);
    assert id in l.ops[id := op];
  }

  lemma EndKeepsInv(g: Params, l: Log, id: nat)
    requires Inv(g, l) && Enabled(g, l, End(id))
    ensures Inv(g, Effect(g, l, End(id)))
  {
    UnusedSplit(g.opMax, l.ops, id);
    var rest := l.ops - {id};
    if l.ops.Keys == {id} {
      assert rest == map[];
    } else {
      var other :| other in l.ops.Keys && other != id;
      assert other in rest;
    }
  }

  lemma StepKeepsInv(g: Params, l: Log, step: Step)
    requires Inv(g, l) && Enabled(g, l, step)
    ensures Inv(g, Effect(g, l, step))
  {
    match step
    case Begin(id) => BeginKeepsInv(g, l, id);
    case CheckRoom(id) => UpdateKeepsInv(g, l, id, l.ops[id].(cleared := true), l.blocks);
    case Record(id, b) =>
      var l' := Effect(g, l, step);
      UpdateKeepsInv(g, l, id, l'.ops[id], l'.blocks);
    case End(id) => EndKeepsInv(g, l, id);
    case Erase =>
    case Finish =>
  }

  lemma {:induction false} PathKeepsInv(g: Params, l: Log, steps: seq<Step>, l': Log)
    requires Inv(g, l) && Path(g, l, steps, l')
    ensures Inv(g, l')
    decreases |steps|
  {
    if steps != [] {
      StepKeepsInv(g, l, steps[0]);
      PathKeepsInv(g, Effect(g, l, steps[0]), steps[1..], l');
    }
  }

  /** In every interleaving: the log never exceeds LOGSIZE even counting what the
      running calls may still append, logged block numbers are distinct, and a
      commit starts only when no call is running. */
  lemma ReservationBound(g: Params, l: Log)
    requires Reachable(g, l)
    ensures Distinct(l.blocks)
    ensures |l.blocks| + Unused(g.opMax, l.ops) <= g.logMax
    ensures forall id | id in l.ops && l.ops[id].used < g.opMax :: |l.blocks| < g.logMax
    ensures l.committing ==> |l.ops| == 0
    ensures l.ops == map[] && !l.committing ==> l.blocks == []
  {
    var steps :| Path(g, Start, steps, l);
    PathKeepsInv(g, Start, steps, l);
    forall id | id in l.ops && l.ops[id].used < g.opMax
      ensures |l.blocks| < g.logMax
    {
      UnusedSplit(g.opMax, l.ops, id);
      UnusedBounds(g.opMax, l.ops - {id});
    }
  }

  // ---- The log area: nlog blocks, one of them the header ----

  lemma {:induction false} PathAppend(g: Params, l: Log, steps: seq<Step>, m: Log, step: Step)
    requires Path(g, l, steps, m) && Enabled(g, m, step)
    ensures Path(g, l, steps + [step], Effect(g, m, step))
    decreases |steps|
  {
    if steps == [] {
      assert [step][1..] == [];
    } else {
      PathAppend(g, Effect(g, l, steps[0]), steps[1..], m, step);
      assert (steps + [step])[1..] == steps[1..] + [step];
    }
  }

  /** A step of a call, before any commit, that writes to one of log.size blocks from first on. */
  predicate Filling(g: Params, first: nat, step: Step) {
    step.Begin? || step.CheckRoom? || (step.Record? && first <= step.b < first + g.size)
  }

  /** The log is reached by such steps alone. */
  ghost predicate FilledTo(g: Params, first: nat, l: Log) {
    exists steps :: Path(g, Start, steps, l) && forall k | 0 <= k < |steps| :: Filling(g, first, steps[k])
  }

  lemma FillStep(g: Params, first: nat, l: Log, step: Step)
    requires FilledTo(g, first, l) && Enabled(g, l, step) && Filling(g, first, step)
    ensures FilledTo(g, first, Effect(g, l, step))
  {
    var steps :| Path(g, Start, steps, l) && forall k | 0 <= k < |steps| :: Filling(g, first, steps[k]);
    PathAppend(g, Start, steps, l, step);
  }

  /** Three calls that together have appended n blocks, from first on, with at least one append left to call 1. */
  function Filled(g: Params, first: nat, n: nat): Log
    requires g.opMax >= 1
  {
    var a := if n < g.opMax then n else g.opMax;
    var b := if n - a < g.opMax - 1 then n - a else g.opMax - 1;
    Log(seq(n, i requires 0 <= i => first + i), map[0 := Op(a, false), 1 := Op(b, false), 2 := Op(n - a - b, false)],
      false)
  }

  lemma OneCallMore(g: Params, first: nat, l: Log, id: nat)
    requires FilledTo(g, first, l) && id !in l.ops && l.blocks == [] && !l.committing
    requires |l.ops| < 3 && g.logMax == 3 * g.opMax
    ensures FilledTo(g, first, l.(ops := l.ops[id := Op(0, false)]))
  {
    assert (|l.ops| + 1) * g.opMax <= 3 * g.opMax;
    FillStep(g, first, l, Begin(id));
  }

  lemma ThreeCalls(g: Params, first: nat)
    requires g.opMax >= 1 && g.logMax == 3 * g.opMax
    ensures FilledTo(g, first, Filled(g, first, 0))
  {
    assert Path(g, Start, [], Start);
    OneCallMore(g, first, Start, 0);
    OneCallMore(g, first, Start.(ops := map[0 := Op(0, false)]), 1);
    OneCallMore(g, first, Start.(ops := map[0 := Op(0, false), 1 := Op(0, false)]), 2);
    assert Filled(g, first, 0).blocks == [];
  }

  /** The call that makes the n-th append. */
  function Filler(g: Params, n: nat): nat {
    if n < g.opMax then 0 else if n < 2 * g.opMax - 1 then 1 else 2
  }

  lemma FilledNext(g: Params, first: nat, n: nat)
    requires g.opMax >= 1
    ensures var id, l, m := Filler(g, n), Filled(g, first, n), Filled(g, first, n + 1);
            && |l.blocks| == n && first + n !in l.blocks && m.blocks == l.blocks + [first + n]
            && l.committing == m.committing && id in l.ops
            && m.ops == l.ops[id := Op(l.ops[id].used + 1, false)]
            && (n + 1 < 3 * g.opMax ==> l.ops[id].used < g.opMax)
  {
  }

  lemma {:induction false} FillReachable(g: Params, first: nat, n: nat)
    requires g.opMax >= 1 && g.logMax == 3 * g.opMax
    requires n < g.logMax && n < g.size
    ensures FilledTo(g, first, Filled(g, first, n))
  {
    hide FilledTo, Filled;
    if n == 0 {
      ThreeCalls(g, first);
    } else {
      var l := Filled(g, first, n - 1);
      FillReachable(g, first, n - 1);
      FilledNext(g, first, n - 1);
      assert RoomGuard(g, l);
      var m := Append(g, first, l, Filler(g, n - 1), first + n - 1);
      assert m == Filled(g, first, n);
    }
  }

  /** log_write of a new block by call id, guard and append with nothing between them. */
  lemma Append(g: Params, first: nat, l: Log, id: nat, b: nat) returns (m: Log)
    requires FilledTo(g, first, l) && id in l.ops && RoomGuard(g, l)
    requires l.ops[id].used < g.opMax && b !in l.blocks && first <= b < first + g.size
    ensures FilledTo(g, first, m)
    ensures m == l.(blocks := l.blocks + [b], ops := l.ops[id := Op(l.ops[id].used + 1, false)])
  {
    FillStep(g, first, l, CheckRoom(id));
    var c := Effect(g, l, CheckRoom(id));
    FillStep(g, first, c, Record(id, b));
    m := Effect(g, c, Record(id, b));
    assert c.ops[id := Op(l.ops[id].used + 1, false)] == l.ops[id := Op(l.ops[id].used + 1, false)];
  }

  /** Two calls pass the guard before either appends: the log overruns its area by one block. */
  lemma GuardRace(g: Params, first: nat) returns (l: Log)
    requires g.opMax >= 1 && g.logMax == 3 * g.opMax && 2 <= g.size <= g.logMax
    ensures Reachable(g, l) && FilledTo(g, first, l) && |l.blocks| == g.size && !l.committing
    ensures l.ops.Keys == {0, 1, 2} && forall id | id in l.ops :: !l.ops[id].cleared
  {
    var n := g.size - 2;
    var l0 := Filled(g, first, n);
    FillReachable(g, first, n);
    FillStep(g, first, l0, CheckRoom(1));
    var l1 := Effect(g, l0, CheckRoom(1));
    FillStep(g, first, l1, CheckRoom(2));
    var l2 := Effect(g, l1, CheckRoom(2));
    FillStep(g, first, l2, Record(1, first + n));
    var l3 := Effect(g, l2, Record(1, first + n));
    FillStep(g, first, l3, Record(2, first + n + 1));
    l := Effect(g, l3, Record(2, first + n + 1));
  }

  /** The committed blocks stay inside the log area in every interleaving exactly
      when log.size exceeds LOGSIZE; mkfs makes it equal to LOGSIZE. */
  lemma LogAreaSuffices(g: Params)
    requires g.opMax >= 1 && g.logMax == 3 * g.opMax && g.size >= 2
    ensures (forall l | Reachable(g, l) :: |l.blocks| <= g.size - 1) <==> g.size >= g.logMax + 1
  {
    if g.size >= g.logMax + 1 {
      forall l | Reachable(g, l) ensures |l.blocks| <= g.size - 1 {
        var steps :| Path(g, Start, steps, l);
        PathKeepsInv(g, Start, steps, l);
        UnusedBounds(g.opMax, l.ops);
      }
    } else {
      var l := GuardRace(g, 0);
    }
  }

  /** A call that keeps within MAXOPBLOCKS can always pass log_write's guard
      exactly when log.size exceeds LOGSIZE. */
  lemma GuardAdmitsBudgetedAppends(g: Params)
    requires g.opMax >= 1 && g.logMax == 3 * g.opMax && g.size >= 2
    ensures (forall l, id | Reachable(g, l) && id in l.ops && l.ops[id].used < g.opMax :: RoomGuard(g, l))
            <==> g.size >= g.logMax + 1
  {
    if g.size >= g.logMax + 1 {
      forall l, id | Reachable(g, l) && id in l.ops && l.ops[id].used < g.opMax
        ensures RoomGuard(g, l)
      {
        ReservationBound(g, l);
        assert l.ops.Keys != {};
      }
    } else {
      FillReachable(g, 0, g.size - 1);
      assert 1 in Filled(g, 0, g.size - 1).ops;
    }
  }

  // ---- Writing a logged block again ----

  /** Three calls fill the log to LOGSIZE; all have used up their budget. */
  lemma FullLog(g: Params) returns (l: Log)
    requires g.opMax >= 1 && g.logMax == 3 * g.opMax && g.size >= g.logMax + 1
    ensures Reachable(g, l) && |l.blocks| == g.logMax && l.ops.Keys == {0, 1, 2}
    ensures forall id | id in l.ops :: l.ops[id] == Op(g.opMax, false)
  {
    var n := g.logMax - 1;
    FillReachable(g, 0, n);
    var f := Filled(g, 0, n);
    l := Append(g, 0, f, 1, n);
  }

  /** In a log area that is large enough, log_write's guard refuses a running call
      exactly when the log is full. The call has then used up its budget, so what is
      refused can only be a block that is logged already. */
  lemma GuardRefusesWhenFull(g: Params, l: Log, id: nat)
    requires g.size >= g.logMax + 1 && Reachable(g, l) && id in l.ops
    ensures !RoomGuard(g, l) <==> |l.blocks| == g.logMax
    ensures !RoomGuard(g, l) ==> l.ops[id].used == g.opMax
  {
    ReservationBound(g, l);
    var steps :| Path(g, Start, steps, l);
    PathKeepsInv(g, Start, steps, l);
    UnusedBounds(g.opMax, l.ops);
    assert l.ops.Keys != {};
  }

  /** Such a refusal does happen: on a full log a call that only writes a block again,
      which needs no room, is turned down. */
  lemma AbsorbedWriteRefused(g: Params) returns (l: Log, id: nat, b: nat)
    requires g.opMax >= 1 && g.logMax == 3 * g.opMax && g.size >= g.logMax + 1
    ensures Reachable(g, l) && id in l.ops && l.ops[id].used <= g.opMax && b in l.blocks && !RoomGuard(g, l)
  {
    l := FullLog(g);
    id, b := 0, l.blocks[0];
  }
}

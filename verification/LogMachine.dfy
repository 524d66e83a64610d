/** One entry of the buffer cache (kernel/buf.h), and the ways its fields change (kernel/bio.c). */
module CacheEntry {
  import opened LogFormat

  const ROOTDEV := 1

  datatype Buf = Buf(dev: nat, blockno: nat, valid: bool, refcnt: nat, data: Block)

  /** A buffer at boot: keyed (0, 0), unused. */
  const FreshBuf := Buf(0, 0, false, 0, [])

  predicate Keyed(b: Buf, dev: nat, blockno: nat) {
    b.dev == dev && b.blockno == blockno
  }

  /** bget took the buffer over for another block. */
  function Recycle(b: Buf, dev: nat, blockno: nat): Buf {
    b.(dev := dev, blockno := blockno, valid := false, refcnt := 1)
  }

  function Ref(b: Buf): Buf {
    b.(refcnt := b.refcnt + 1)
  }

  function Unref(b: Buf): Buf
    requires b.refcnt > 0
  {
    b.(refcnt := b.refcnt - 1)
  }
}

/** The redo log running over the buffer cache (kernel/log.c, kernel/bio.c) as a
    state machine. Any number of file system calls, readers and one committing
    process interleave; each step is one critical section, or one disk transfer
    together with the memory copy that feeds it. A crash can happen between any
    two steps: it keeps the disk and loses everything else. */
module LogMachine {
  import opened Common
  import opened LogFormat
  import opened LogSpace
  import opened CacheEntry

  /** Who holds a buffer's sleep lock: a file system call, the process in
      commit() or recovery, or a process that only reads. */
  datatype Agent = Call(id: nat) | Logger | Reader

  /** How a buffer is in use: the sleep lock's holder, processes that bget has
      counted but that do not have the lock yet, processes in brelse that have
      dropped the lock but not yet the count, and whether the holder changed the
      data without having called log_write since. For the specification, whether
      the buffer was last changed by a call that released it with contents other
      than the latest logged ones, as writei does when its copy fails. */
  datatype Use = Use(holder: Option<Agent>, waiting: nat, leaving: nat, unlogged: bool, stray: bool)

  const Idle := Use(None, 0, 0, false, false)

  /** Where the committing process, or recovery, is. */
  datatype Phase =
    | Booting
    | Recovering(tail: nat)
    | Running
    | Logging(tail: nat)
    | Installing(tail: nat)
    | Erased

  /** The kernel's state; and for the specification, for the blocks logged since
      the last commit what was last passed to log_write (current) and what the
      cache holds (cached), the home blocks at first boot, and the groups
      committed so far. */
  datatype State = State(
    disk: Disk,
    bufs: seq<Buf>,
    uses: seq<Use>,
    log: Log,
    phase: Phase,
    current: map<nat, Block>,
    cached: map<nat, Block>,
    origin: Disk,
    groups: seq<map<nat, Block>>)

  datatype Action =
    // bget, acquiresleep, bread's disk read, and the two halves of brelse
    | Hit(i: nat, b: nat) | Miss(i: nat, b: nat) | Lock(i: nat, who: Agent) | Fill(i: nat)
    | Unlock(i: nat) | Drop(i: nat)
    // file system calls
    | BeginOp(id: nat) | Modify(i: nat, id: nat, data: Block) | Guard(id: nat)
    | LogWrite(i: nat, id: nat) | EndOp(id: nat)
    // commit
    | CopyToLog(to: nat, from: nat) | Commit(i: nat) | CopyHome(from: nat, to: nat) | Clear(i: nat) | FinishCommit
    // crash and recovery
    | Crash | ReadHead(i: nat)

  /** Home blocks after applying groups in order. */
  function Durable(origin: Disk, groups: seq<map<nat, Block>>): (d: Disk)
    ensures |d| == |origin|
  {
    if groups == [] then origin
    else
      var last := groups[|groups| - 1];
      var d := Durable(origin, groups[..|groups| - 1]);
      seq(|d|, b requires 0 <= b < |d| => if b in last then last[b] else d[b])
  }

  /** The plain block store that the cache and the log implement. */
  function Latest(s: State, b: nat): Block
    requires b < |s.origin|
  {
    if b in s.current then s.current[b] else Durable(s.origin, s.groups)[b]
  }

  /** What the block will hold once the running group is committed. */
  function Stored(s: State, b: nat): Block
    requires b < |s.origin|
  {
    if b in s.cached then s.cached[b] else Durable(s.origin, s.groups)[b]
  }

  predicate Holds(s: State, i: nat, who: Agent, b: int) {
    && i < |s.bufs| == |s.uses|
    && s.bufs[i].dev == ROOTDEV && s.bufs[i].blockno == b && s.bufs[i].valid
    && s.uses[i].holder == Some(who)
  }

  predicate Enabled(g: Geometry, s: State, a: Action)
    requires ValidGeometry(g)
  {
    match a
    case Hit(i, b) => i < |s.bufs| == |s.uses| && Keyed(s.bufs[i], ROOTDEV, b)
    case Miss(i, b) =>
      && i < |s.bufs| == |s.uses| && b < g.nblocks && s.bufs[i].refcnt == 0
      && forall k | 0 <= k < |s.bufs| :: !Keyed(s.bufs[k], ROOTDEV, b)
    case Lock(i, who) =>
      && i < |s.uses| && s.uses[i].holder == None && s.uses[i].waiting > 0
      && (who.Call? ==> who.id in s.log.ops)
    case Fill(i) =>
      && i < |s.bufs| == |s.uses| && s.uses[i].holder.Some? && !s.bufs[i].valid
      && s.bufs[i].blockno < |s.disk|
    case Unlock(i) => i < |s.uses| && s.uses[i].holder.Some?
    case Drop(i) => i < |s.bufs| == |s.uses| && s.uses[i].leaving > 0 && s.bufs[i].refcnt > 0
    case BeginOp(id) => s.phase == Running && LogSpace.Enabled(g.space, s.log, Begin(id))
    case Modify(i, id, data) =>
      && id in s.log.ops && i < |s.bufs| && Holds(s, i, Call(id), s.bufs[i].blockno)
      && Home(g, s.bufs[i].blockno) && |data| == g.words
    case Guard(id) => LogSpace.Enabled(g.space, s.log, CheckRoom(id))
    case LogWrite(i, id) =>
      && i < |s.bufs| && Holds(s, i, Call(id), s.bufs[i].blockno) && Home(g, s.bufs[i].blockno)
      && LogSpace.Enabled(g.space, s.log, Record(id, s.bufs[i].blockno))
    case EndOp(id) =>
      && LogSpace.Enabled(g.space, s.log, End(id))
      && forall i | 0 <= i < |s.uses| :: s.uses[i].holder != Some(Call(id))
    case CopyToLog(to, from) =>
      && s.phase.Logging? && s.phase.tail < |s.log.blocks|
      && Holds(s, to, Logger, g.start + 1 + s.phase.tail)
      && Holds(s, from, Logger, s.log.blocks[s.phase.tail])
      && g.start + 1 + s.phase.tail < |s.disk|
    case Commit(i) =>
      && s.phase.Logging? && s.phase.tail == |s.log.blocks| && Holds(s, i, Logger, g.start)
      && |s.log.blocks| < |s.bufs[i].data| && g.start < |s.disk|
    case CopyHome(from, to) =>
      && (s.phase.Installing? || s.phase.Recovering?) && s.phase.tail < |s.log.blocks|
      && Holds(s, from, Logger, g.start + 1 + s.phase.tail)
      && Holds(s, to, Logger, s.log.blocks[s.phase.tail])
      && s.log.blocks[s.phase.tail] < |s.disk|
      && (s.phase.Installing? ==> s.bufs[to].refcnt > 0)
    case Clear(i) =>
      && (s.phase.Installing? || s.phase.Recovering?) && s.phase.tail == |s.log.blocks|
      && Holds(s, i, Logger, g.start) && 1 <= |s.bufs[i].data| && g.start < |s.disk|
      && (s.phase.Installing? ==> LogSpace.Enabled(g.space, s.log, Erase))
    case FinishCommit => s.phase == Erased && LogSpace.Enabled(g.space, s.log, Finish)
    case Crash => true
    case ReadHead(i) => s.phase == Booting && Holds(s, i, Logger, g.start) && Counted(s.bufs[i].data)
  }

  /** The buffer's data went to its disk block. */
  function WriteBack(s: State, i: nat, data: Block): State
    requires i < |s.bufs| && s.bufs[i].blockno < |s.disk|
  {
    s.(bufs := s.bufs[i := s.bufs[i].(data := data)], disk := s.disk[s.bufs[i].blockno := data])
  }

  /** brelse's first half; changes that were not logged stay in the buffer. */
  function AfterUnlock(s: State, i: nat): Use
    requires i < |s.uses|
  {
    var u := s.uses[i];
    u.(holder := None, leaving := u.leaving + 1, unlogged := false,
       stray := if u.unlogged && i < |s.bufs| && s.bufs[i].blockno < |s.origin|
                then s.bufs[i].data != Latest(s, s.bufs[i].blockno) else u.stray)
  }

  /** The call changed its buffer. */
  function AfterModify(s: State, i: nat, data: Block): State
    requires i < |s.bufs| == |s.uses|
  {
    var b := s.bufs[i].blockno;
    s.(bufs := s.bufs[i := s.bufs[i].(data := data)], uses := s.uses[i := s.uses[i].(unlogged := true)],
       cached := if b in s.log.blocks then s.cached[b := data] else s.cached)
  }

  /** The commit takes in what the buffers of logged blocks hold. */
  function Taken(s: State): (uses: seq<Use>)
    requires |s.bufs| == |s.uses|
    ensures |uses| == |s.uses|
  {
    seq(|s.uses|, k requires 0 <= k < |s.uses| =>
      if s.bufs[k].dev == ROOTDEV && s.bufs[k].blockno in s.log.blocks then s.uses[k].(stray := false) else s.uses[k])
  }

  function LogStep(g: Geometry, s: State, step: Step): State
    requires LogSpace.Enabled(g.space, s.log, step)
  {
    s.(log := LogSpace.Effect(g.space, s.log, step))
  }

  function AfterEnd(g: Geometry, s: State, id: nat): State
    requires LogSpace.Enabled(g.space, s.log, End(id))
  {
    var s' := LogStep(g, s, End(id));
    if !s'.log.committing then s'
    else s'.(phase := if s'.log.blocks == [] then Erased else Logging(0))
  }

  function AfterLogWrite(g: Geometry, s: State, i: nat, id: nat): State
    requires i < |s.bufs| == |s.uses|
    requires LogSpace.Enabled(g.space, s.log, Record(id, s.bufs[i].blockno))
  {
    var b := s.bufs[i];
    LogStep(g, s, Record(id, b.blockno)).(
      bufs := if b.blockno in s.log.blocks then s.bufs else s.bufs[i := Ref(b)],
      uses := s.uses[i := s.uses[i].(unlogged := false, stray := false)],
      current := s.current[b.blockno := b.data],
      cached := s.cached[b.blockno := b.data])
  }

  function AfterCopyHome(s: State, from: nat, to: nat): State
    requires from < |s.bufs| && to < |s.bufs| && s.bufs[to].blockno < |s.disk|
    requires s.phase.Installing? || s.phase.Recovering?
    requires s.phase.Installing? ==> s.bufs[to].refcnt > 0
  {
    var s' := WriteBack(s, to, s.bufs[from].data);
    if s.phase.Recovering? then s'.(phase := Recovering(s.phase.tail + 1))
    else s'.(bufs := s'.bufs[to := Unref(s'.bufs[to])], phase := Installing(s.phase.tail + 1))
  }

  function Rebooted(s: State): State {
    s.(bufs := seq(|s.bufs|, _ => FreshBuf), uses := seq(|s.bufs|, _ => Idle), log := Start,
       phase := Booting, current := map[], cached := map[])
  }

  function Effect(g: Geometry, s: State, a: Action): State
    requires ValidGeometry(g) && Enabled(g, s, a)
  {
    match a
    case Hit(i, b) =>
      s.(bufs := s.bufs[i := Ref(s.bufs[i])], uses := s.uses[i := s.uses[i].(waiting := s.uses[i].waiting + 1)])
    case Miss(i, b) =>
      s.(bufs := s.bufs[i := Recycle(s.bufs[i], ROOTDEV, b)],
         uses := s.uses[i := s.uses[i].(waiting := s.uses[i].waiting + 1, stray := false)])
    case Lock(i, who) =>
      s.(uses := s.uses[i := s.uses[i].(holder := Some(who), waiting := s.uses[i].waiting - 1)])
    case Fill(i) =>
      s.(bufs := s.bufs[i := s.bufs[i].(data := s.disk[s.bufs[i].blockno], valid := true)])
    case Unlock(i) => s.(uses := s.uses[i := AfterUnlock(s, i)])
    case Drop(i) =>
      s.(bufs := s.bufs[i := Unref(s.bufs[i])], uses := s.uses[i := s.uses[i].(leaving := s.uses[i].leaving - 1)])
    case BeginOp(id) => LogStep(g, s, Begin(id))
    case Modify(i, id, data) => AfterModify(s, i, data)
    case Guard(id) => LogStep(g, s, CheckRoom(id))
    case LogWrite(i, id) => AfterLogWrite(g, s, i, id)
    case EndOp(id) => AfterEnd(g, s, id)
    case CopyToLog(to, from) => WriteBack(s, to, s.bufs[from].data).(phase := Logging(s.phase.tail + 1))
    case Commit(i) =>
      WriteBack(s, i, EncodeHeader(s.bufs[i].data, s.log.blocks)).(
        phase := Installing(0), uses := Taken(s), current := map[], cached := map[], groups := s.groups + [s.cached])
    case CopyHome(from, to) => AfterCopyHome(s, from, to)
    case Clear(i) =>
      WriteBack(s, i, EncodeHeader(s.bufs[i].data, [])).(
        log := s.log.(blocks := []), phase := if s.phase.Installing? then Erased else Running)
    case FinishCommit => LogStep(g, s, Finish).(phase := Running)
    case Crash => Rebooted(s)
    case ReadHead(i) => s.(log := s.log.(blocks := DecodeHeader(s.bufs[i].data)), phase := Recovering(0))
  }

  /** First boot: any disk that recovery can read. */
  predicate Init(g: Geometry, s: State)
    requires ValidGeometry(g)
  {
    && ValidDisk(g, s.disk) && ValidHeader(g, s.disk[g.start])
    && s.origin == Recovered(g, s.disk) && s.groups == []
    && s == Rebooted(s)
  }

  /** The actions can be taken in order from s and lead to s'. */
  ghost predicate Path(g: Geometry, s: State, actions: seq<Action>, s': State)
    requires ValidGeometry(g)
    decreases |actions|
  {
    if actions == [] then s == s'
    else Enabled(g, s, actions[0]) && Path(g, Effect(g, s, actions[0]), actions[1..], s')
  }

  ghost predicate Reachable(g: Geometry, s: State)
    requires ValidGeometry(g)
  {
    exists s0, actions :: Init(g, s0) && Path(g, s0, actions, s)
  }

  /** write_log has stayed inside the log area. */
  predicate Fits(g: Geometry, s: State) {
    s.phase.Logging? ==> s.phase.tail <= g.space.size - 1
  }

  /** A path on which write_log never leaves the log area. */
  ghost predicate FittingPath(g: Geometry, s: State, actions: seq<Action>, s': State)
    requires ValidGeometry(g)
    decreases |actions|
  {
    if actions == [] then s == s'
    else
      && Enabled(g, s, actions[0])
      && Fits(g, Effect(g, s, actions[0]))
      && FittingPath(g, Effect(g, s, actions[0]), actions[1..], s')
  }

  /** Reachable by a run on which write_log never left the log area
      (CrashSafety.EveryRunFits says when that is every run). */
  ghost predicate FittingReachable(g: Geometry, s: State)
    requires ValidGeometry(g)
  {
    exists s0, actions :: Init(g, s0) && FittingPath(g, s0, actions, s)
  }
}

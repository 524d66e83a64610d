/** The main results about the redo log over the buffer cache, for every
    interleaving of calls, commits, crashes and recoveries. */
module CrashSafety {
  import opened Common
  import opened LogFormat
  import LogSpace
  import opened CacheEntry
  import opened LogMachine
  import opened LogInvariant
  import opened StrayData

  lemma StepKept(g: Geometry, s: State, a: Action)
    requires ValidGeometry(g) && Inv(g, s) && Enabled(g, s, a) && Fits(g, Effect(g, s, a))
    ensures Inv(g, Effect(g, s, a))
  {
    hide Inv;
    match a
    case Hit(i, b) => HitKept(g, s, i, b);
    case Miss(i, b) => MissKept(g, s, i, b);
    case Lock(i, who) => LockKept(g, s, i, who);
    case Fill(i) => FillKept(g, s, i);
    case Unlock(i) => UnlockKept(g, s, i);
    case Drop(i) => DropKept(g, s, i);
    case BeginOp(id) => BeginOpKept(g, s, id);
    case Modify(i, id, data) => ModifyKept(g, s, i, id, data);
    case Guard(id) => GuardKept(g, s, id);
    case LogWrite(i, id) => LogWriteKept(g, s, i, id);
    case EndOp(id) => EndOpKept(g, s, id);
    case CopyToLog(to, from) => CopyToLogKept(g, s, to, from);
    case Commit(i) => CommitKept(g, s, i);
    case CopyHome(from, to) => CopyHomeKept(g, s, from, to);
    case Clear(i) => ClearKept(g, s, i);
    case FinishCommit => FinishCommitKept(g, s);
    case Crash => CrashKept(g, s);
    case ReadHead(i) => ReadHeadKept(g, s, i);
  }

  lemma {:induction false} PathKept(g: Geometry, s: State, actions: seq<Action>, s': State)
    requires ValidGeometry(g) && Inv(g, s) && AllTold(g, s) && FittingPath(g, s, actions, s')
    ensures Inv(g, s') && AllTold(g, s')
    decreases |actions|
  {
    hide Inv, AllTold, Enabled, Effect, Fits;
    if actions != [] {
      StepKept(g, s, actions[0]);
      StepTold(g, s, actions[0]);
      PathKept(g, Effect(g, s, actions[0]), actions[1..], s');
    }
  }

  lemma InitInv(g: Geometry, s: State)
    requires ValidGeometry(g) && Init(g, s)
    ensures Inv(g, s) && AllTold(g, s)
  {
    assert Durable(s.origin, s.groups) == s.origin;
    RebootedOk(g, s);
  }

  lemma ReachableInv(g: Geometry, s: State)
    requires ValidGeometry(g) && FittingReachable(g, s)
    ensures Inv(g, s) && AllTold(g, s)
  {
    hide Inv, AllTold, Init, FittingPath;
    var s0, actions :| Init(g, s0) && FittingPath(g, s0, actions, s);
    InitInv(g, s0);
    PathKept(g, s0, actions, s);
  }

  /** Recovery of the disk as it stands gives every home block its contents after
      exactly the committed groups. */
  ghost predicate CrashSafe(g: Geometry, s: State)
    requires ValidGeometry(g)
  {
    && ValidDisk(g, s.disk) && ValidHeader(g, s.disk[g.start])
    && SameHome(g, Recovered(g, s.disk), Durable(s.origin, s.groups))
  }

  /** Crash atomicity. Whatever calls, commits, crashes and recoveries came
      before, and wherever the machine is now, no group is ever half applied, as
      long as write_log has stayed in its area. LogOverrun.CrashAtomicityExact
      says for which logs and caches that covers every run. A group is what the
      cache holds for the logged blocks when the last call ends; CommitIsWhole
      says when that is what was logged. */
  lemma CrashAtomicity(g: Geometry, s: State)
    requires ValidGeometry(g) && FittingReachable(g, s)
    ensures CrashSafe(g, s)
  {
    ReachableInv(g, s);
    DiskRecovers(g, s);
  }

  /** When recovery or a commit has finished, the home blocks themselves are up to date. */
  lemma HomeUpToDate(g: Geometry, s: State)
    requires ValidGeometry(g) && FittingReachable(g, s)
    requires s.phase.Running? || s.phase.Erased?
    ensures SameHome(g, s.disk, Durable(s.origin, s.groups))
  {
    ReachableInv(g, s);
  }

  /** Buffer k caches a logged block. */
  predicate Logged(s: State, k: int) {
    0 <= k < |s.bufs| && s.bufs[k].dev == ROOTDEV && s.bufs[k].blockno in s.log.blocks
  }

  /** A commit takes in every call that contributed to it: all have ended, none is
      changing a buffer, and for each logged block the group has what the block's
      buffer holds. That is what was last passed to log_write, for all of them, if
      and only if no call has released one of them changed since. */
  lemma CommitIsWhole(g: Geometry, s: State, i: nat)
    requires ValidGeometry(g) && FittingReachable(g, s) && Enabled(g, s, Commit(i))
    ensures s.log.ops == map[] && Lists(s.current, s.log.blocks) && Lists(s.cached, s.log.blocks)
    ensures |s.uses| == |s.bufs| && forall k | 0 <= k < |s.uses| :: !s.uses[k].unlogged
    ensures forall b | b in s.log.blocks :: Cached(s.bufs, b)
    ensures forall k | Logged(s, k) :: s.bufs[k].data == s.cached[s.bufs[k].blockno]
    ensures Effect(g, s, Commit(i)).groups == s.groups + [s.cached]
    ensures s.cached == s.current <==> forall k | Logged(s, k) :: !s.uses[k].stray
  {
    hide Inv, AllTold, FittingReachable, Enabled;
    ReachableInv(g, s);
    CommitPoint(g, s, i);
    forall k | 0 <= k < |s.uses| ensures !s.uses[k].unlogged {
      AtCommit(g, s, k);
    }
    forall k | Logged(s, k) ensures s.bufs[k].data == s.cached[s.bufs[k].blockno] {
      AtCommit(g, s, k);
    }
    if forall k | Logged(s, k) :: !s.uses[k].stray {
      forall b | b in s.cached ensures s.cached[b] == s.current[b] {
        var k :| 0 <= k < |s.bufs| && Keyed(s.bufs[k], ROOTDEV, b);
        AtCommit(g, s, k);
      }
    } else {
      var k :| Logged(s, k) && s.uses[k].stray;
      AtCommit(g, s, k);
    }
  }

  lemma CommitPoint(g: Geometry, s: State, i: nat)
    requires ValidGeometry(g) && Inv(g, s) && Enabled(g, s, Commit(i))
    ensures s.phase.Logging? && s.log.ops == map[] && |s.uses| == |s.bufs|
    ensures Lists(s.current, s.log.blocks) && Lists(s.cached, s.log.blocks)
    ensures forall b | b in s.log.blocks :: Cached(s.bufs, b)
    ensures Effect(g, s, Commit(i)).groups == s.groups + [s.cached]
  {
    hide DiskOk, LogSpace.Inv, Durable, BufOk;
    NoCalls(g, s);
    assert forall b | b in s.log.blocks :: b in Pins(s);
  }

  lemma AtCommit(g: Geometry, s: State, k: nat)
    requires ValidGeometry(g) && Inv(g, s) && AllTold(g, s) && s.phase.Logging? && k < |s.bufs|
    ensures !s.uses[k].unlogged
    ensures Logged(s, k) ==> s.bufs[k].blockno in s.cached && s.bufs[k].blockno in s.current
    ensures Logged(s, k) ==> s.bufs[k].data == s.cached[s.bufs[k].blockno]
    ensures Logged(s, k) ==> (s.uses[k].stray <==> s.bufs[k].data != s.current[s.bufs[k].blockno])
  {
    hide DiskOk, LogSpace.Inv, Durable, CacheOk, Common.Distinct;
    BufAt(g, s, k);
    NoCalls(g, s);
    assert Told(g, s, s.bufs[k], s.uses[k]);
  }

  /** After the commit, the group's blocks have the group's contents. */
  lemma GroupIsDurable(g: Geometry, s: State, i: nat, b: nat)
    requires ValidGeometry(g) && Enabled(g, s, Commit(i)) && b < |s.origin| && b in s.cached
    ensures var s' := Effect(g, s, Commit(i)); Durable(s'.origin, s'.groups)[b] == s.cached[b]
  {
    DurableNext(s.origin, s.groups, s.cached);
  }

  /** What a call or a reader finds in a locked, valid buffer of a home block is the
      contents last logged for that block, or else the committed ones, if and only if
      no call has released the buffer changed since. */
  lemma BreadReturnsLatest(g: Geometry, s: State, i: nat)
    requires ValidGeometry(g) && FittingReachable(g, s)
    requires i < |s.bufs| && s.bufs[i].dev == ROOTDEV && s.bufs[i].valid && Home(g, s.bufs[i].blockno)
    requires i < |s.uses| && !s.uses[i].unlogged
    requires !s.phase.Booting? && !s.phase.Recovering?
    ensures s.bufs[i].blockno < |s.origin|
    ensures s.bufs[i].data == Latest(s, s.bufs[i].blockno) <==> !s.uses[i].stray
  {
    hide Inv, Durable, FittingReachable;
    ReachableInv(g, s);
    assert Told(g, s, s.bufs[i], s.uses[i]);
  }

  /** At most one buffer caches a given disk block. */
  lemma OneBufferPerBlock(g: Geometry, s: State, i: nat, j: nat)
    requires ValidGeometry(g) && FittingReachable(g, s)
    requires i < |s.bufs| && j < |s.bufs| && i != j && s.bufs[i].dev == s.bufs[j].dev == ROOTDEV
    ensures s.bufs[i].blockno != s.bufs[j].blockno
  {
    ReachableInv(g, s);
  }

  /** A buffer that bget may recycle is not pinned, and it holds what is on disk if and
      only if no call has released it changed since it was last logged or read. */
  lemma RecycledIsClean(g: Geometry, s: State, i: nat, b: nat)
    requires ValidGeometry(g) && FittingReachable(g, s) && Enabled(g, s, Miss(i, b))
    ensures !s.uses[i].unlogged && s.uses[i].holder == None
    ensures s.bufs[i].dev == ROOTDEV && s.bufs[i].valid ==>
              s.bufs[i].blockno < |s.disk| && (s.bufs[i].data == s.disk[s.bufs[i].blockno] <==> !s.uses[i].stray)
    ensures s.bufs[i].dev == ROOTDEV && (s.phase.Running? || s.phase.Logging?) ==> s.bufs[i].blockno !in s.log.blocks
  {
    hide LogOk, DiskOk, Durable, FittingReachable;
    ReachableInv(g, s);
    BufAt(g, s, i);
    assert Told(g, s, s.bufs[i], s.uses[i]);
    if s.uses[i].stray { DiskIsLatest(g, s, s.bufs[i].blockno); }
  }

  /** The plain store changes only by log_write, in the block logged and to the
      data logged; a commit makes it what the cache holds for the logged blocks, and
      a crash takes it back to the committed groups. */
  lemma LatestChanges(g: Geometry, s: State, a: Action, b: nat)
    requires ValidGeometry(g) && Enabled(g, s, a) && b < |s.origin|
    ensures var s' := Effect(g, s, a);
            && s'.origin == s.origin
            && Latest(s', b) ==
                 if a.LogWrite? && b == s.bufs[a.i].blockno then s.bufs[a.i].data
                 else if a.Commit? then Stored(s, b)
                 else if a.Crash? then Durable(s.origin, s.groups)[b]
                 else Latest(s, b)
  {
    if a.Commit? {
      DurableNext(s.origin, s.groups, s.cached);
    } else {
      hide Durable;
    }
  }

  // ---- Changes that are not logged ----

  /** The step releases a buffer that its holder has changed, with contents other
      than the latest logged ones, as writei does when its copy fails. */
  ghost predicate Strays(s: State, a: Action) {
    && a.Unlock? && a.i < |s.bufs| && a.i < |s.uses| && s.uses[a.i].unlogged
    && s.bufs[a.i].blockno < |s.origin| && s.bufs[a.i].data != Latest(s, s.bufs[a.i].blockno)
  }

  ghost predicate NoStrays(s: State) {
    forall i | 0 <= i < |s.uses| :: !s.uses[i].stray
  }

  /** Exactly such a release ends the laws above: a step keeps every buffer free of
      stray contents if and only if it is not one. */
  lemma StrayStep(g: Geometry, s: State, a: Action)
    requires ValidGeometry(g) && Inv(g, s) && Enabled(g, s, a) && NoStrays(s)
    ensures NoStrays(Effect(g, s, a)) <==> !Strays(s, a)
  {
    hide Durable, Latest, DiskOk, LogOk;
    if a.Unlock? {
      BufAt(g, s, a.i);
      assert Effect(g, s, a).uses[a.i] == AfterUnlock(s, a.i);
    }
  }

  /** No step of the run is such a release. */
  ghost predicate Careful(g: Geometry, s: State, actions: seq<Action>)
    requires ValidGeometry(g)
    decreases |actions|
  {
    actions == [] ||
    (Enabled(g, s, actions[0]) && !Strays(s, actions[0]) && Careful(g, Effect(g, s, actions[0]), actions[1..]))
  }

  lemma {:induction false} CarefulPath(g: Geometry, s: State, actions: seq<Action>, s': State)
    requires ValidGeometry(g) && Inv(g, s) && FittingPath(g, s, actions, s') && Careful(g, s, actions) && NoStrays(s)
    ensures NoStrays(s')
    decreases |actions|
  {
    hide Inv, Enabled, Effect, Strays, NoStrays, Fits;
    if actions != [] {
      StepKept(g, s, actions[0]);
      StrayStep(g, s, actions[0]);
      CarefulPath(g, Effect(g, s, actions[0]), actions[1..], s');
    }
  }

  /** In a run without such a release, commits store exactly what was last passed to
      log_write, and a locked buffer always has the latest contents. */
  lemma CarefulRun(g: Geometry, s0: State, actions: seq<Action>, s: State)
    requires ValidGeometry(g) && Init(g, s0) && FittingPath(g, s0, actions, s) && Careful(g, s0, actions)
    ensures forall i | Enabled(g, s, Commit(i)) :: Effect(g, s, Commit(i)).groups == s.groups + [s.current]
    ensures forall i: nat | i < |s.bufs| && i < |s.uses| && s.bufs[i].dev == ROOTDEV && s.bufs[i].valid ::
              Home(g, s.bufs[i].blockno) && !s.uses[i].unlogged && !Starting(s) ==>
              s.bufs[i].blockno < |s.origin| && s.bufs[i].data == Latest(s, s.bufs[i].blockno)
  {
    hide Inv, AllTold, FittingPath, Effect, Enabled, Latest, Init;
    InitInv(g, s0);
    assert NoStrays(s0) by { FreshUses(g, s0); }
    CarefulPath(g, s0, actions, s);
    assert FittingReachable(g, s);
    forall i | Enabled(g, s, Commit(i)) ensures Effect(g, s, Commit(i)).groups == s.groups + [s.current] {
      CommitIsWhole(g, s, i);
    }
    forall i: nat | i < |s.bufs| && i < |s.uses| && s.bufs[i].dev == ROOTDEV && s.bufs[i].valid
                    && Home(g, s.bufs[i].blockno) && !s.uses[i].unlogged && !Starting(s)
      ensures s.bufs[i].blockno < |s.origin| && s.bufs[i].data == Latest(s, s.bufs[i].blockno)
    {
      BreadReturnsLatest(g, s, i);
    }
  }

  lemma FreshUses(g: Geometry, s: State)
    requires ValidGeometry(g) && Init(g, s)
    ensures NoStrays(s)
  {
    assert s.uses == Rebooted(s).uses;
  }

  // ---- When write_log stays inside the log area ----

  /** What keeps write_log inside the log area: room for LOGSIZE blocks, or too few
      buffers for an overfull log and one block of the log area, or no room at all,
      so that log_write refuses every block. */
  predicate Confined(g: Geometry, nbuf: nat) {
    g.space.size >= g.space.logMax + 1 || nbuf <= g.space.size || g.space.size == 1
  }

  /** With few buffers an overfull log is never copied; without room none comes about. */
  ghost predicate Tight(g: Geometry, s: State) {
    && (|s.bufs| <= g.space.size && s.phase.Logging? && s.phase.tail >= 1 ==> |s.log.blocks| <= g.space.size - 1)
    && (g.space.size == 1 ==> s.log.blocks == [] && forall id | id in s.log.ops :: !s.log.ops[id].cleared)
  }

  /** Pairwise different blocks that are all cached take as many buffers. */
  lemma {:induction false} BuffersTaken(bufs: seq<Buf>, blocks: seq<nat>) returns (at: set<nat>)
    requires Distinct(blocks) && forall p | p in blocks :: Cached(bufs, p)
    ensures |at| == |blocks|
    ensures forall i | i in at :: i < |bufs| && bufs[i].dev == ROOTDEV && bufs[i].blockno in blocks
    decreases |blocks|
  {
    if blocks == [] {
      at := {};
    } else {
      var p, rest := blocks[0], blocks[1..];
      assert p in blocks && forall q | q in rest :: q in blocks;
      var at0 := BuffersTaken(bufs, rest);
      var i: nat :| i < |bufs| && Keyed(bufs[i], ROOTDEV, p);
      assert p !in rest;
      at := at0 + {i};
    }
  }

  lemma {:induction false} Below(at: set<nat>, n: nat)
    requires forall i | i in at :: i < n
    ensures |at| <= n
    decreases n
  {
    if n == 0 {
      assert at == {};
    } else {
      Below(at - {n - 1}, n - 1);
    }
  }

  /** An overfull log and a block of the log area need more than log.size buffers. */
  lemma NoRoomToCopy(g: Geometry, s: State, to: nat, from: nat)
    requires ValidGeometry(g) && Inv(g, s) && Enabled(g, s, CopyToLog(to, from)) && s.phase.tail == 0
    requires |s.bufs| <= g.space.size && g.space.size >= 2
    ensures |s.log.blocks| <= g.space.size - 1
  {
    hide DiskOk, LogSpace.Inv, Durable, BufOk;
    assert forall p | p in s.log.blocks :: p in Pins(s);
    var at := BuffersTaken(s.bufs, s.log.blocks);
    assert to !in at;
    Below(at + {to}, |s.bufs|);
  }

  lemma StepFits(g: Geometry, s: State, a: Action)
    requires ValidGeometry(g) && Inv(g, s) && Enabled(g, s, a) && Confined(g, |s.bufs|) && Tight(g, s)
    requires a.CopyToLog?
    ensures Fits(g, Effect(g, s, a)) && Tight(g, Effect(g, s, a))
  {
    hide CacheOk, DiskOk, LogSpace.Inv, Durable, Common.Distinct;
    if |s.bufs| <= g.space.size && s.phase.tail == 0 && g.space.size >= 2 { NoRoomToCopy(g, s, a.to, a.from); }
  }

  lemma HeadFits(g: Geometry, s: State, i: nat)
    requires ValidGeometry(g) && Inv(g, s) && Enabled(g, s, ReadHead(i))
    ensures |Effect(g, s, ReadHead(i)).log.blocks| <= g.space.size - 1
  {
    hide CacheOk, DiskOk, LogSpace.Inv, Durable, Common.Distinct;
    ReadHeadKept(g, s, i);
  }

  lemma StepTight(g: Geometry, s: State, a: Action)
    requires ValidGeometry(g) && Inv(g, s) && Enabled(g, s, a) && Confined(g, |s.bufs|) && Tight(g, s) && Fits(g, s)
    ensures Fits(g, Effect(g, s, a)) && Tight(g, Effect(g, s, a)) && |Effect(g, s, a).bufs| == |s.bufs|
  {
    hide Inv, Durable;
    BuffersKept(g, s, a);
    if a.CopyToLog? {
      StepFits(g, s, a);
    } else if a.ReadHead? {
      HeadFits(g, s, a.i);
    } else if a.LogWrite? {
      CallsRun(g, s, a.id);
    }
  }

  lemma {:induction false} PathFits(g: Geometry, s: State, actions: seq<Action>, s': State)
    requires ValidGeometry(g) && Inv(g, s) && Path(g, s, actions, s') && Confined(g, |s.bufs|) && Tight(g, s)
      && Fits(g, s)
    ensures FittingPath(g, s, actions, s')
    decreases |actions|
  {
    hide Inv, Enabled, Effect, Fits, Tight, Confined;
    if actions != [] {
      StepTight(g, s, actions[0]);
      StepKept(g, s, actions[0]);
      PathFits(g, Effect(g, s, actions[0]), actions[1..], s');
    }
  }

  lemma {:induction false} FittingIsPath(g: Geometry, s: State, actions: seq<Action>, s': State)
    requires ValidGeometry(g) && FittingPath(g, s, actions, s')
    ensures Path(g, s, actions, s')
    decreases |actions|
  {
    hide Enabled, Effect, Fits;
    if actions != [] {
      FittingIsPath(g, Effect(g, s, actions[0]), actions[1..], s');
    }
  }

  lemma BuffersKept(g: Geometry, s: State, a: Action)
    requires ValidGeometry(g) && Enabled(g, s, a)
    ensures |Effect(g, s, a).bufs| == |s.bufs|
  {
    hide Durable;
  }

  lemma {:induction false} BuffersStay(g: Geometry, s: State, actions: seq<Action>, s': State)
    requires ValidGeometry(g) && Path(g, s, actions, s')
    ensures |s'.bufs| == |s.bufs|
    decreases |actions|
  {
    hide Enabled, Effect;
    if actions != [] {
      BuffersKept(g, s, actions[0]);
      BuffersStay(g, Effect(g, s, actions[0]), actions[1..], s');
    }
  }

  lemma InitTight(g: Geometry, s: State)
    requires ValidGeometry(g) && Init(g, s)
    ensures Tight(g, s) && Fits(g, s)
  {
    assert s.log == Rebooted(s).log;
  }

  /** With such a log, or so few buffers, write_log stays inside the log area in every
      run: the results above then hold of every run. */
  lemma EveryRunFits(g: Geometry, s: State)
    requires ValidGeometry(g) && Confined(g, |s.bufs|)
    ensures Reachable(g, s) <==> FittingReachable(g, s)
  {
    hide Inv, Path, FittingPath, Init, Confined, Tight, AllTold;
    if Reachable(g, s) {
      var s0, actions :| Init(g, s0) && Path(g, s0, actions, s);
      InitInv(g, s0);
      InitTight(g, s0);
      BuffersStay(g, s0, actions, s);
      PathFits(g, s0, actions, s);
    }
    if FittingReachable(g, s) {
      var s0, actions :| Init(g, s0) && FittingPath(g, s0, actions, s);
      FittingIsPath(g, s0, actions, s);
    }
  }

  /** With log.size above LOGSIZE the log itself stays in its area in every run. */
  lemma NeverOverruns(g: Geometry, s: State)
    requires ValidGeometry(g) && Reachable(g, s) && g.space.size >= g.space.logMax + 1
    ensures |s.log.blocks| <= g.space.size - 1
  {
    hide Reachable, FittingReachable, CacheOk, DiskOk, LogSpace.Inv, AllTold;
    EveryRunFits(g, s);
    ReachableInv(g, s);
  }

  // ---- Recovery on its own ----

  /** A crash after any number of recovery's own writes loses nothing:
      recovering again gives the same disk. */
  lemma RecoveryRestarts(g: Geometry, d: Disk, k: nat)
    requires ValidGeometry(g) && ValidDisk(g, d) && ValidHeader(g, d[g.start])
    requires k <= |DecodeHeader(d[g.start])|
    ensures var e := Installed(g, d, DecodeHeader(d[g.start]), k);
            e[g.start] == d[g.start] && Recovered(g, e) == Recovered(g, d)
  {
    var list := DecodeHeader(d[g.start]);
    var e := Installed(g, d, list, k);
    InstalledAt(g, d, list, k, g.start);
    assert g.start !in list[..k];
    forall b: nat | b < g.nblocks
      ensures Installed(g, e, list, |list|)[b] == Installed(g, d, list, |list|)[b]
    {
      InstallAgain(g, d, list, k, b);
    }
    assert Installed(g, e, list, |list|) == Installed(g, d, list, |list|);
  }

  lemma InstallAgain(g: Geometry, d: Disk, list: seq<nat>, k: nat, b: nat)
    requires ValidGeometry(g) && ValidDisk(g, d) && ValidList(g, list) && k <= |list| && b < g.nblocks
    ensures Installed(g, Installed(g, d, list, k), list, |list|)[b] == Installed(g, d, list, |list|)[b]
  {
    var e := Installed(g, d, list, k);
    assert list[..|list|] == list;
    InstalledAt(g, d, list, |list|, b);
    InstalledAt(g, e, list, |list|, b);
    InstalledAt(g, d, list, k, b);
    if b in list {
      var j :| 0 <= j < |list| && list[j] == b;
      InstalledAt(g, d, list, k, g.start + 1 + j);
      assert g.start + 1 + j !in list[..k];
    } else {
      assert b !in list[..k];
    }
  }

  /** Recovering a recovered disk changes nothing. */
  lemma RecoveryIdempotent(g: Geometry, d: Disk)
    requires ValidGeometry(g) && ValidDisk(g, d) && ValidHeader(g, d[g.start])
    ensures ValidHeader(g, Recovered(g, d)[g.start])
    ensures Recovered(g, Recovered(g, d)) == Recovered(g, d)
  {
    var list := DecodeHeader(d[g.start]);
    var e := Installed(g, d, list, |list|);
    InstalledAt(g, d, list, |list|, g.start);
    assert g.start !in list[..|list|];
    HeaderRoundTrip(e[g.start], []);
    var r := Recovered(g, d);
    assert DecodeHeader(r[g.start]) == [];
    assert EncodeHeader(r[g.start], []) == r[g.start];
  }
}

/** That the log gets somewhere (kernel/log.c): a commit ends with the log open for new
    calls, commits can follow each other for ever, and recovery from any crash comes to
    its end. The runs are written down step by step. */
module LogProgress {
  import opened Common
  import opened LogFormat
  import LogSpace
  import opened CacheEntry
  import opened LogMachine
  import opened LogInvariant
  import opened CrashSafety
  import opened LogRuns

  /** The last step of a commit leaves an empty log with no call in it, and any call can
      begin if one reservation fits an empty log. */
  lemma CommitEnds(g: Geometry, s: State, id: nat)
    requires ValidGeometry(g) && FittingReachable(g, s) && Enabled(g, s, FinishCommit)
    ensures var s' := Effect(g, s, FinishCommit);
            && s'.phase == Running && s'.log == LogSpace.Start
            && (g.space.opMax <= g.space.logMax ==> Enabled(g, s', BeginOp(id)))
            && s' == s.(phase := Running, log := LogSpace.Start)
  {
    hide FittingReachable, CacheOk, DiskOk, LogSpace.Inv, Durable;
    ReachableInv(g, s);
    NoCalls(g, s);
  }

  // ---- One commit after the other ----

  /** Buffer k is unused and caches block b, or nothing. */
  predicate Spare(s: State, k: nat, b: nat) {
    && k < |s.bufs| == |s.uses| && s.uses[k] == Idle && s.bufs[k].refcnt == 0
    && (s.bufs[k] == FreshBuf || (Keyed(s.bufs[k], ROOTDEV, b) && s.bufs[k].valid))
  }

  /** Between two commits, with buffer 0 on block b of the log area. */
  predicate Between(g: Geometry, s: State, b: nat) {
    && |s.bufs| == |s.uses| >= 2 && Spare(s, 0, b) && Spare(s, 1, First(g)) && g.start <= b <= g.start + 1
    && (forall k | 2 <= k < |s.bufs| :: s.bufs[k] == FreshBuf && s.uses[k] == Idle)
    && ValidDisk(g, s.disk) && |s.origin| == g.nblocks
  }

  predicate Rested(g: Geometry, s: State) {
    Between(g, s, g.start) && s.phase == Running && s.log == LogSpace.Start && s.current == map[] && s.cached == map[]
  }

  /** The disk, the block and the buffers are big enough for one block in the log. */
  predicate Roomy(g: Geometry, nbuf: nat) {
    && ValidGeometry(g) && First(g) < g.nblocks && nbuf >= 2
    && 1 <= g.space.opMax <= g.space.logMax && g.space.size >= 2
  }

  /** The group of each commit here. */
  function Group(g: Geometry): map<nat, Block> {
    map[First(g) := Ones(g)]
  }

  /** Buffer 1 holds the logged block, pinned. */
  predicate Pending(g: Geometry, s: State, b: nat) {
    && |s.bufs| == |s.uses| >= 2 && Spare(s, 0, b) && g.start <= b <= g.start + 1
    && s.uses[1] == Idle && s.bufs[1] == Buf(ROOTDEV, First(g), true, 1, Ones(g))
    && (forall k | 2 <= k < |s.bufs| :: s.bufs[k] == FreshBuf && s.uses[k] == Idle)
    && ValidDisk(g, s.disk) && |s.origin| == g.nblocks
    && s.log == LogSpace.Log([First(g)], map[], true)
  }

  /** bread into a spare buffer. */
  lemma Obtain(g: Geometry, s: State, i: nat, b: nat, who: Agent) returns (t: State)
    requires ValidGeometry(g) && Reachable(g, s) && Spare(s, i, b) && b < g.nblocks == |s.disk|
    requires forall k | 0 <= k < |s.bufs| && k != i :: !Keyed(s.bufs[k], ROOTDEV, b)
    requires who.Call? ==> who.id in s.log.ops
    ensures Reachable(g, t) && |t.bufs| == |s.bufs|
    ensures t == s.(bufs := s.bufs[i := t.bufs[i]], uses := s.uses[i := Use(Some(who), 0, 0, false, false)])
    ensures Keyed(t.bufs[i], ROOTDEV, b) && t.bufs[i].valid && t.bufs[i].refcnt == 1
    ensures s.bufs[i] == FreshBuf ==> t.bufs[i].data == s.disk[b]
    ensures s.bufs[i] != FreshBuf ==> t.bufs[i].data == s.bufs[i].data
  {
    hide Reachable, Durable;
    if s.bufs[i] == FreshBuf {
      Fetch(g, s, i, b, who);
      t := Fetched(s, i, b, who);
    } else {
      Bread(g, s, i, who);
      t := Held(s, i, who);
    }
  }

  /** begin_op, and log_write's guard. */
  lemma CallBegins(g: Geometry, s: State) returns (t: State)
    requires Roomy(g, |s.bufs|) && Reachable(g, s) && Rested(g, s)
    ensures Reachable(g, t) && t == s.(log := LogSpace.Log([], map[0 := LogSpace.Op(0, true)], false))
  {
    hide Reachable, Durable;
    ReachableStep(g, s, BeginOp(0));
    var s1 := Effect(g, s, BeginOp(0));
    ReachableStep(g, s1, Guard(0));
    t := Effect(g, s1, Guard(0));
  }

  /** bread, a change, log_write, brelse. */
  lemma CallLogs(g: Geometry, s: State) returns (t: State)
    requires Roomy(g, |s.bufs|) && Reachable(g, s) && Between(g, s, g.start) && s.cached == map[]
    requires s.log == LogSpace.Log([], map[0 := LogSpace.Op(0, true)], false)
    ensures Reachable(g, t) && |t.bufs| == |s.bufs| && t.phase == s.phase && t.groups == s.groups
    ensures Pending(g, t.(log := LogSpace.Log([First(g)], map[], true)), g.start) && t.cached == Group(g)
    ensures t.log == LogSpace.Log([First(g)], map[0 := LogSpace.Op(1, false)], false)
  {
    hide Reachable, Durable;
    var s3 := Obtain(g, s, 1, First(g), Call(0));
    ReachableStep(g, s3, Modify(1, 0, Ones(g)));
    var s4 := Effect(g, s3, Modify(1, 0, Ones(g)));
    ReachableStep(g, s4, LogWrite(1, 0));
    var s5 := Effect(g, s4, LogWrite(1, 0));
    Brelse(g, s5, 1);
    t := Released(s5, 1);
  }

  /** begin_op, a logged change, end_op. */
  lemma CallWrites(g: Geometry, s: State) returns (t: State)
    requires Roomy(g, |s.bufs|) && Reachable(g, s) && Rested(g, s)
    ensures Reachable(g, t) && |t.bufs| == |s.bufs| && Pending(g, t, g.start) && t.phase == Logging(0)
    ensures t.cached == Group(g) && t.groups == s.groups
  {
    hide Reachable, Durable;
    var s1 := CallBegins(g, s);
    var s2 := CallLogs(g, s1);
    ReachableStep(g, s2, EndOp(0));
    t := Effect(g, s2, EndOp(0));
    assert t.log.ops == map[];
  }

  /** write_log. */
  lemma CopiesToLog(g: Geometry, s: State) returns (t: State)
    requires Roomy(g, |s.bufs|) && Reachable(g, s) && Pending(g, s, g.start) && s.phase == Logging(0)
    ensures Reachable(g, t) && |t.bufs| == |s.bufs| && Pending(g, t, g.start + 1) && t.phase == Logging(1)
    ensures t.cached == s.cached && t.groups == s.groups && t.bufs[0] != FreshBuf
    ensures t.disk[g.start + 1] == Ones(g)
  {
    hide Reachable, Durable;
    Fetch(g, s, 0, g.start + 1, Logger);
    var s1 := Fetched(s, 0, g.start + 1, Logger);
    Bread(g, s1, 1, Logger);
    var s2 := Held(s1, 1, Logger);
    ReachableStep(g, s2, CopyToLog(0, 1));
    var s3 := Effect(g, s2, CopyToLog(0, 1));
    Brelse(g, s3, 1);
    var s4 := Released(s3, 1);
    Brelse(g, s4, 0);
    t := Released(s4, 0);
  }

  /** write_head: the commit. */
  lemma Commits(g: Geometry, s: State) returns (t: State)
    requires Roomy(g, |s.bufs|) && Reachable(g, s) && Pending(g, s, g.start + 1) && s.phase == Logging(1)
    requires s.bufs[0] != FreshBuf
    ensures Reachable(g, t) && |t.bufs| == |s.bufs| && Pending(g, t, g.start) && t.phase == Installing(0)
    ensures t.current == t.cached == map[] && t.groups == s.groups + [s.cached] && t.bufs[0] != FreshBuf
  {
    hide Reachable, Durable;
    Fetch(g, s, 0, g.start, Logger);
    var s1 := Fetched(s, 0, g.start, Logger);
    ReachableStep(g, s1, Commit(0));
    var s2 := Effect(g, s1, Commit(0));
    assert s2.uses == s1.uses;
    HeaderRoundTrip(s1.bufs[0].data, s1.log.blocks);
    Brelse(g, s2, 0);
    t := Released(s2, 0);
  }

  /** install_trans. */
  lemma Installs(g: Geometry, s: State) returns (t: State)
    requires Roomy(g, |s.bufs|) && Reachable(g, s) && Pending(g, s, g.start) && s.phase == Installing(0)
    requires s.current == s.cached == map[] && s.bufs[0] != FreshBuf
    ensures Reachable(g, t) && |t.bufs| == |s.bufs| && Between(g, t, g.start + 1) && t.phase == Installing(1)
    ensures t.log == LogSpace.Log([First(g)], map[], true) && t.current == t.cached == map[]
    ensures t.groups == s.groups && t.bufs[0] != FreshBuf
  {
    hide Reachable, Durable;
    Fetch(g, s, 0, g.start + 1, Logger);
    var s1 := Fetched(s, 0, g.start + 1, Logger);
    Bread(g, s1, 1, Logger);
    var s2 := Held(s1, 1, Logger);
    ReachableStep(g, s2, CopyHome(0, 1));
    var s3 := Effect(g, s2, CopyHome(0, 1));
    Brelse(g, s3, 0);
    var s4 := Released(s3, 0);
    Brelse(g, s4, 1);
    t := Released(s4, 1);
  }

  /** write_head again, and the end of the commit. */
  lemma Erases(g: Geometry, s: State) returns (t: State)
    requires Roomy(g, |s.bufs|) && Reachable(g, s) && Between(g, s, g.start + 1) && s.phase == Installing(1)
    requires s.log == LogSpace.Log([First(g)], map[], true) && s.current == s.cached == map[] && s.bufs[0] != FreshBuf
    ensures Reachable(g, t) && |t.bufs| == |s.bufs| && Between(g, t, g.start) && t.phase == Erased
    ensures t.log == LogSpace.Log([], map[], true) && t.current == t.cached == map[] && t.groups == s.groups
  {
    hide Reachable, Durable;
    Fetch(g, s, 0, g.start, Logger);
    var s1 := Fetched(s, 0, g.start, Logger);
    ReachableStep(g, s1, Clear(0));
    var s2 := Effect(g, s1, Clear(0));
    Brelse(g, s2, 0);
    t := Released(s2, 0);
  }

  lemma Finishes(g: Geometry, s: State) returns (t: State)
    requires Roomy(g, |s.bufs|) && Reachable(g, s) && Between(g, s, g.start + 1) && s.phase == Installing(1)
    requires s.log == LogSpace.Log([First(g)], map[], true) && s.current == s.cached == map[] && s.bufs[0] != FreshBuf
    ensures Reachable(g, t) && |t.bufs| == |s.bufs| && Rested(g, t) && t.groups == s.groups
  {
    hide Reachable, Durable;
    var s1 := Erases(g, s);
    ReachableStep(g, s1, FinishCommit);
    t := Effect(g, s1, FinishCommit);
  }

  lemma Cycle(g: Geometry, s: State) returns (t: State)
    requires Roomy(g, |s.bufs|) && Reachable(g, s) && Rested(g, s)
    ensures Reachable(g, t) && |t.bufs| == |s.bufs| && Rested(g, t) && t.groups == s.groups + [Group(g)]
  {
    hide Reachable, Rested, Pending, Between;
    t := CallWrites(g, s);
    t := CopiesToLog(g, t);
    t := Commits(g, t);
    t := Installs(g, t);
    t := Finishes(g, t);
  }

  /** For every k there is a run with k commits, after which the log is open for more. */
  lemma {:induction false} EveryNumberOfCommits(g: Geometry, nbuf: nat, k: nat) returns (s: State)
    requires Roomy(g, nbuf)
    ensures Reachable(g, s) && |s.bufs| == nbuf && Rested(g, s) && |s.groups| == k && Enabled(g, s, BeginOp(0))
    ensures forall i | 0 <= i < k :: s.groups[i] == Group(g)
  {
    hide Reachable;
    if k == 0 {
      Boot(g, nbuf);
      s := Booted(g, nbuf);
    } else {
      var s0 := EveryNumberOfCommits(g, nbuf, k - 1);
      s := Cycle(g, s0);
    }
  }

  /** A call that logs nothing commits nothing: once it has ended, all is as before. */
  lemma EmptyCall(g: Geometry, s: State, id: nat)
    requires ValidGeometry(g) && g.space.opMax <= g.space.logMax && s.phase == Running && s.log == LogSpace.Start
    requires forall i | 0 <= i < |s.uses| :: s.uses[i].holder != Some(Call(id))
    ensures Enabled(g, s, BeginOp(id)) && Enabled(g, Effect(g, s, BeginOp(id)), EndOp(id))
    ensures var s2 := Effect(g, Effect(g, s, BeginOp(id)), EndOp(id));
            Enabled(g, s2, FinishCommit) && Effect(g, s2, FinishCommit) == s
  {
    hide Durable;
    assert Effect(g, s, BeginOp(id)) == InCall(s, id) by { EmptyBegin(g, s, id); }
    EmptyEnd(g, s, id);
  }

  function InCall(s: State, id: nat): State {
    s.(log := LogSpace.Log([], map[id := LogSpace.Op(0, false)], false))
  }

  lemma EmptyBegin(g: Geometry, s: State, id: nat)
    requires ValidGeometry(g) && g.space.opMax <= g.space.logMax && s.phase == Running && s.log == LogSpace.Start
    ensures Enabled(g, s, BeginOp(id)) && Effect(g, s, BeginOp(id)) == InCall(s, id)
  {
    hide Durable;
  }

  lemma EmptyEnd(g: Geometry, s: State, id: nat)
    requires ValidGeometry(g) && s.phase == Running && s.log == LogSpace.Start
    requires forall i | 0 <= i < |s.uses| :: s.uses[i].holder != Some(Call(id))
    ensures Enabled(g, InCall(s, id), EndOp(id))
    ensures var s2 := Effect(g, InCall(s, id), EndOp(id));
            Enabled(g, s2, FinishCommit) && Effect(g, s2, FinishCommit) == s
  {
    hide Durable;
    var s1, s2 := InCall(s, id), s.(log := LogSpace.Log([], map[], true), phase := Erased);
    assert Effect(g, s1, EndOp(id)) == s2 by { assert s1.log.ops - {id} == map[]; }
  }

  // ---- Recovery comes to its end ----

  /** Recovery has installed the first t blocks of the list. */
  predicate Restored(g: Geometry, s: State, d: Disk, t: nat)
    requires ValidGeometry(g) && ValidDisk(g, d) && ValidHeader(g, d[g.start])
  {
    var list := DecodeHeader(d[g.start]);
    && t <= |list| && s.phase == Recovering(t) && s.log == LogSpace.Start.(blocks := list)
    && s.disk == Installed(g, d, list, t) && s.current == map[] && s.cached == map[]
    && |s.bufs| == |s.uses| >= 2 && s.uses[0] == Idle && s.uses[1] == Idle
    && s.bufs[0] == Buf(ROOTDEV, g.start + t, true, 0, s.disk[g.start + t])
    && s.bufs[1].refcnt == 0 && (s.bufs[1] == FreshBuf || (t >= 1 && Keyed(s.bufs[1], ROOTDEV, list[t - 1])))
    && (forall k | 2 <= k < |s.bufs| :: s.bufs[k] == FreshBuf && s.uses[k] == Idle)
  }

  lemma Restarts(g: Geometry, s: State) returns (t: State)
    requires ValidGeometry(g) && Reachable(g, s) && |s.bufs| >= 2 && ValidDisk(g, s.disk)
      && ValidHeader(g, s.disk[g.start])
    ensures Reachable(g, t) && |t.bufs| == |s.bufs| && Restored(g, t, s.disk, 0)
    ensures t.origin == s.origin && t.groups == s.groups
  {
    hide Reachable, Durable;
    ReachableStep(g, s, Crash);
    var s1 := Effect(g, s, Crash);
    Fetch(g, s1, 0, g.start, Logger);
    var s2 := Fetched(s1, 0, g.start, Logger);
    ReachableStep(g, s2, ReadHead(0));
    var s3 := Effect(g, s2, ReadHead(0));
    Brelse(g, s3, 0);
    t := Released(s3, 0);
  }

  lemma RestoresOne(g: Geometry, s: State, d: Disk, k: nat) returns (t: State)
    requires ValidGeometry(g) && ValidDisk(g, d) && ValidHeader(g, d[g.start]) && Reachable(g, s)
    requires Restored(g, s, d, k) && k < |DecodeHeader(d[g.start])|
    ensures Reachable(g, t) && |t.bufs| == |s.bufs| && Restored(g, t, d, k + 1)
    ensures t.origin == s.origin && t.groups == s.groups
  {
    hide Reachable, Durable, DecodeHeader;
    var list := DecodeHeader(d[g.start]);
    assert Home(g, list[k]) && (k >= 1 ==> list[k] != list[k - 1] && Home(g, list[k - 1]));
    Fetch(g, s, 0, g.start + 1 + k, Logger);
    var s1 := Fetched(s, 0, g.start + 1 + k, Logger);
    Fetch(g, s1, 1, list[k], Logger);
    var s2 := Fetched(s1, 1, list[k], Logger);
    ReachableStep(g, s2, CopyHome(0, 1));
    var s3 := Effect(g, s2, CopyHome(0, 1));
    InstalledAt(g, d, list, k, g.start + 1 + k);
    assert g.start + 1 + k !in list[..k];
    Brelse(g, s3, 0);
    var s4 := Released(s3, 0);
    Brelse(g, s4, 1);
    t := Released(s4, 1);
  }

  lemma {:induction false} RestoresAll(g: Geometry, s: State, d: Disk, k: nat) returns (t: State)
    requires ValidGeometry(g) && ValidDisk(g, d) && ValidHeader(g, d[g.start]) && Reachable(g, s)
    requires Restored(g, s, d, 0) && k <= |DecodeHeader(d[g.start])|
    ensures Reachable(g, t) && |t.bufs| == |s.bufs| && Restored(g, t, d, k)
    ensures t.origin == s.origin && t.groups == s.groups
  {
    hide Reachable, Restored;
    if k == 0 {
      t := s;
    } else {
      t := RestoresAll(g, s, d, k - 1);
      t := RestoresOne(g, t, d, k - 1);
    }
  }

  lemma Opens(g: Geometry, s: State, d: Disk) returns (t: State)
    requires ValidGeometry(g) && ValidDisk(g, d) && ValidHeader(g, d[g.start]) && Reachable(g, s)
    requires Restored(g, s, d, |DecodeHeader(d[g.start])|)
    ensures Reachable(g, t) && |t.bufs| == |s.bufs| && t.phase == Running && t.log == LogSpace.Start
    ensures t.disk == Recovered(g, d) && t.origin == s.origin && t.groups == s.groups
  {
    hide Reachable, Durable;
    var list := DecodeHeader(d[g.start]);
    var s1 := s;
    if list == [] {
      Bread(g, s, 0, Logger);
      s1 := Held(s, 0, Logger);
    } else {
      assert Home(g, list[|list| - 1]);
      Fetch(g, s, 0, g.start, Logger);
      s1 := Fetched(s, 0, g.start, Logger);
    }
    ReachableStep(g, s1, Clear(0));
    var s2 := Effect(g, s1, Clear(0));
    Brelse(g, s2, 0);
    t := Released(s2, 0);
  }

  /** From every state, whatever was going on there, a crash and a recovery lead to a
      running system with an empty log, and to exactly the recovered disk; two buffers
      are enough. */
  lemma RecoveryCompletes(g: Geometry, s: State) returns (t: State)
    requires ValidGeometry(g) && FittingReachable(g, s) && |s.bufs| >= 2
    ensures Reachable(g, t) && |t.bufs| == |s.bufs| && t.phase == Running && t.log == LogSpace.Start
    ensures t.origin == s.origin && t.groups == s.groups
    ensures ValidDisk(g, s.disk) && ValidHeader(g, s.disk[g.start]) && t.disk == Recovered(g, s.disk)
    ensures SameHome(g, t.disk, Durable(t.origin, t.groups))
  {
    hide Reachable, FittingReachable, Restored, Recovered, Durable;
    CrashAtomicity(g, s);
    FittingIsReachable(g, s);
    var s1 := Restarts(g, s);
    var s2 := RestoresAll(g, s1, s.disk, |DecodeHeader(s.disk[g.start])|);
    t := Opens(g, s2, s.disk);
  }

  lemma FittingIsReachable(g: Geometry, s: State)
    requires ValidGeometry(g) && FittingReachable(g, s)
    ensures Reachable(g, s)
  {
    hide Path, FittingPath, Init;
    var s0, actions :| Init(g, s0) && FittingPath(g, s0, actions, s);
    FittingIsPath(g, s0, actions, s);
  }
}

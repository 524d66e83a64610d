/** What every step of the log machine keeps. */
module LogInvariant {
  import opened Common
  import opened LogFormat
  import LogSpace
  import opened CacheEntry
  import opened LogMachine

  /** Blocks that the log keeps pinned in the cache. */
  function Pins(s: State): seq<nat> {
    match s.phase
    case Booting => []
    case Recovering(_) => []
    case Installing(t) => if t <= |s.log.blocks| then s.log.blocks[t..] else []
    case _ => s.log.blocks
  }

  ghost predicate Pinned(s: State, b: Buf) {
    b.dev == ROOTDEV && b.blockno in Pins(s)
  }

  function Holders(u: Use): nat {
    u.waiting + u.leaving + if u.holder.Some? then 1 else 0
  }

  predicate Starting(s: State) {
    s.phase.Booting? || s.phase.Recovering?
  }

  /** A buffer: every reference is accounted for; only running calls change it, and
      only home blocks; if it is pinned it holds what the commit will store, and
      otherwise what the disk holds, unless a call has left changes in it. */
  ghost predicate BufOk(g: Geometry, s: State, b: Buf, u: Use)
    requires |s.disk| == |s.origin| == g.nblocks
  {
    && (b.dev == ROOTDEV || b == b.(dev := 0, valid := false, refcnt := 0))
    && b.blockno < g.nblocks
    && b.refcnt == Holders(u) + (if Pinned(s, b) then 1 else 0)
    && (b.valid ==> |b.data| == g.words)
    && (Pinned(s, b) ==> b.valid)
    && (u.unlogged ==>
          && b.dev == ROOTDEV && b.valid && Home(g, b.blockno)
          && u.holder.Some? && u.holder.value.Call? && u.holder.value.id in s.log.ops)
    && (u.stray ==> b.dev == ROOTDEV && b.valid && Home(g, b.blockno) && !Starting(s))
    && (Pinned(s, b) ==> b.data == Stored(s, b.blockno))
    && (b.valid && !Pinned(s, b) && !u.unlogged && !u.stray ==> b.data == s.disk[b.blockno])
  }

  ghost predicate Covered(s: State) {
    forall p | p in Pins(s) :: Cached(s.bufs, p)
  }

  /** At most one buffer holds a given block of the disk. */
  ghost predicate Unique(s: State) {
    forall i, j | 0 <= i < j < |s.bufs| :: s.bufs[i].dev == ROOTDEV ==> !Keyed(s.bufs[j], ROOTDEV, s.bufs[i].blockno)
  }

  ghost predicate CacheOk(g: Geometry, s: State)
    requires |s.disk| == |s.origin| == g.nblocks
  {
    && |s.bufs| == |s.uses|
    && Unique(s)
    && Covered(s)
    && forall i | 0 <= i < |s.bufs| :: BufOk(g, s, s.bufs[i], s.uses[i])
  }

  /** The group has contents for exactly the blocks of the list. */
  ghost predicate Lists(group: map<nat, Block>, list: seq<nat>) {
    forall b :: b in group <==> b in list
  }

  ghost predicate LogOk(g: Geometry, s: State) {
    && HomeList(g, s.log.blocks)
    && (s.phase.Recovering? || s.phase.Installing? ==> ValidList(g, s.log.blocks))
    && (Starting(s) ==> s.log.ops == map[] && !s.log.committing)
    && (!Starting(s) ==> LogSpace.Inv(g.space, s.log) && (s.log.committing <==> !s.phase.Running?))
    && (s.phase.Booting? || s.phase == Erased ==> s.log.blocks == [])
    && (s.phase.Recovering? || s.phase.Logging? || s.phase.Installing? ==> s.phase.tail <= |s.log.blocks|)
    && (s.phase.Running? || s.phase.Logging? ==> Lists(s.current, s.log.blocks) && Lists(s.cached, s.log.blocks))
    && (!s.phase.Running? && !s.phase.Logging? ==> s.current == map[] && s.cached == map[])
  }

  /** The header is empty and every home block is up to date. */
  ghost predicate Settled(g: Geometry, disk: Disk, durable: Disk)
    requires ValidGeometry(g) && ValidDisk(g, disk)
  {
    IsHeader(disk[g.start], []) && SameHome(g, disk, durable)
  }

  /** The log area holds the group's contents of the first t blocks of the list. */
  ghost predicate LogHolds(g: Geometry, disk: Disk, list: seq<nat>, group: map<nat, Block>, t: nat)
    requires ValidGeometry(g) && ValidDisk(g, disk)
  {
    && t <= |list| && t < g.space.size
    && forall k | 0 <= k < t :: list[k] in group && disk[g.start + 1 + k] == group[list[k]]
  }

  /** The header commits `list`; the log area holds its contents; the home blocks
      from position t on may still be old. */
  ghost predicate Committed(g: Geometry, disk: Disk, durable: Disk, list: seq<nat>, t: nat)
    requires ValidGeometry(g) && ValidDisk(g, disk) && |durable| == g.nblocks
  {
    && ValidList(g, list) && t <= |list|
    && IsHeader(disk[g.start], list)
    && (forall k | 0 <= k < |list| :: disk[g.start + 1 + k] == durable[list[k]])
    && (forall b | Home(g, b) && b !in list[t..] :: disk[b] == durable[b])
  }

  ghost predicate DiskOk(g: Geometry, s: State)
    requires ValidGeometry(g) && ValidDisk(g, s.disk) && ValidDisk(g, s.origin)
  {
    var durable := Durable(s.origin, s.groups);
    match s.phase
    case Booting => ValidHeader(g, s.disk[g.start]) && SameHome(g, Recovered(g, s.disk), durable)
    case Recovering(t) => Committed(g, s.disk, durable, s.log.blocks, t)
    case Installing(t) => Committed(g, s.disk, durable, s.log.blocks, t)
    case Logging(t) =>
      && Settled(g, s.disk, durable)
      && LogHolds(g, s.disk, s.log.blocks, s.cached, t)
    case _ => Settled(g, s.disk, durable)
  }

  ghost predicate Inv(g: Geometry, s: State)
    requires ValidGeometry(g)
  {
    && ValidDisk(g, s.disk) && ValidDisk(g, s.origin)
    && DiskOk(g, s) && LogOk(g, s) && CacheOk(g, s)
  }

  // ---- What keeps a buffer, or the cover of the pinned blocks, in order ----

  lemma BufStable(g: Geometry, s: State, s': State, b: Buf, u: Use)
    requires |s.disk| == |s.origin| == |s'.disk| == |s'.origin| == g.nblocks
    requires BufOk(g, s, b, u)
    requires s'.disk[b.blockno] == s.disk[b.blockno]
    requires Pinned(s', b) <==> Pinned(s, b)
    requires Pinned(s, b) ==> Stored(s', b.blockno) == Stored(s, b.blockno)
    requires Starting(s') ==> Starting(s)
    requires u.holder.Some? && u.holder.value.Call? && u.holder.value.id in s.log.ops
      ==> u.holder.value.id in s'.log.ops
    ensures BufOk(g, s', b, u)
  {
  }

  /** Only the cache changed. */
  lemma SameLogKept(g: Geometry, s: State, s': State)
    requires ValidGeometry(g) && Inv(g, s)
    requires s' == s.(bufs := s'.bufs, uses := s'.uses)
    ensures DiskOk(g, s') && LogOk(g, s')
  {
  }

  ghost predicate Cached(bufs: seq<Buf>, p: nat) {
    exists i :: 0 <= i < |bufs| && Keyed(bufs[i], ROOTDEV, p)
  }

  lemma CachedStable(bufs: seq<Buf>, i: nat, b: Buf, p: nat)
    requires i < |bufs| && Cached(bufs, p)
    requires Keyed(b, bufs[i].dev, bufs[i].blockno) || !Keyed(bufs[i], ROOTDEV, p)
    ensures Cached(bufs[i := b], p)
  {
    var k :| 0 <= k < |bufs| && Keyed(bufs[k], ROOTDEV, p);
    assert Keyed(bufs[i := b][k], ROOTDEV, p);
  }

  lemma BufAt(g: Geometry, s: State, i: nat)
    requires ValidGeometry(g) && Inv(g, s) && i < |s.bufs|
    ensures |s.bufs| == |s.uses| && BufOk(g, s, s.bufs[i], s.uses[i])
  {
  }

  /** Outside the running phase no call is running. */
  lemma NoCalls(g: Geometry, s: State)
    requires ValidGeometry(g) && Inv(g, s) && !s.phase.Running?
    ensures s.log.ops == map[] && HomeList(g, s.log.blocks)
  {
  }

  // ---- Steps that touch one buffer only ----

  /** s' differs from s in buffer i and its use only, and the buffer keeps its key. */
  lemma OneBufferKept(g: Geometry, s: State, i: nat, b: Buf, u: Use)
    requires ValidGeometry(g) && Inv(g, s) && i < |s.bufs|
    requires Keyed(b, s.bufs[i].dev, s.bufs[i].blockno) && BufOk(g, s, b, u)
    ensures Inv(g, s.(bufs := s.bufs[i := b], uses := s.uses[i := u]))
  {
    var s' := s.(bufs := s.bufs[i := b], uses := s.uses[i := u]);
    assert CacheOk(g, s') by {
      forall p | p in Pins(s') ensures Cached(s'.bufs, p) {
        assert p in Pins(s);
        CachedStable(s.bufs, i, b, p);
      }
      forall k | 0 <= k < |s'.bufs| ensures BufOk(g, s', s'.bufs[k], s'.uses[k]) {
        assert BufOk(g, s, s'.bufs[k], s'.uses[k]);
      }
    }
  }

  lemma HitKept(g: Geometry, s: State, i: nat, b: nat)
    requires ValidGeometry(g) && Inv(g, s) && Enabled(g, s, Hit(i, b))
    ensures Inv(g, Effect(g, s, Hit(i, b)))
  {
    hide LogOk;
    hide DiskOk;
    OneBufferKept(g, s, i, Ref(s.bufs[i]), s.uses[i].(waiting := s.uses[i].waiting + 1));
  }

  lemma LockKept(g: Geometry, s: State, i: nat, who: Agent)
    requires ValidGeometry(g) && Inv(g, s) && Enabled(g, s, Lock(i, who))
    ensures Inv(g, Effect(g, s, Lock(i, who)))
  {
    hide LogOk;
    hide DiskOk;
    assert s.bufs[i := s.bufs[i]] == s.bufs;
    OneBufferKept(g, s, i, s.bufs[i], s.uses[i].(holder := Some(who), waiting := s.uses[i].waiting - 1));
  }

  lemma FillKept(g: Geometry, s: State, i: nat)
    requires ValidGeometry(g) && Inv(g, s) && Enabled(g, s, Fill(i))
    ensures Inv(g, Effect(g, s, Fill(i)))
  {
    hide LogOk;
    hide DiskOk;
    assert s.uses[i := s.uses[i]] == s.uses;
    OneBufferKept(g, s, i, s.bufs[i].(data := s.disk[s.bufs[i].blockno], valid := true), s.uses[i]);
  }

  lemma UnlockKept(g: Geometry, s: State, i: nat)
    requires ValidGeometry(g) && Inv(g, s) && Enabled(g, s, Unlock(i))
    ensures Inv(g, Effect(g, s, Unlock(i)))
  {
    hide LogOk, DiskOk;
    assert s.bufs[i := s.bufs[i]] == s.bufs;
    var b, u := s.bufs[i], AfterUnlock(s, i);
    assert Holders(u) == Holders(s.uses[i]);
    assert BufOk(g, s, b, s.uses[i]);
    if s.uses[i].unlogged {
      CallsRun(g, s, s.uses[i].holder.value.id);
      if !Pinned(s, b) { DiskIsLatest(g, s, b.blockno); }
    }
    OneBufferKept(g, s, i, b, u);
  }

  lemma CallsRun(g: Geometry, s: State, id: nat)
    requires ValidGeometry(g) && Inv(g, s) && id in s.log.ops
    ensures s.phase == Running
  {
  }

  /** Once recovery is over, the disk has the latest contents of a block that is not pinned. */
  lemma DiskIsLatest(g: Geometry, s: State, b: nat)
    requires ValidGeometry(g) && Inv(g, s) && !Starting(s) && Home(g, b) && b !in Pins(s)
    ensures b < |s.origin| && s.disk[b] == Latest(s, b) == Stored(s, b)
  {
    hide CacheOk, LogSpace.Inv, Durable, Common.Distinct;
  }

  lemma DropKept(g: Geometry, s: State, i: nat)
    requires ValidGeometry(g) && Inv(g, s) && Enabled(g, s, Drop(i))
    ensures Inv(g, Effect(g, s, Drop(i)))
  {
    hide LogOk;
    hide DiskOk;
    OneBufferKept(g, s, i, Unref(s.bufs[i]), s.uses[i].(leaving := s.uses[i].leaving - 1));
  }

  lemma ModifyKept(g: Geometry, s: State, i: nat, id: nat, data: Block)
    requires ValidGeometry(g) && Inv(g, s) && Enabled(g, s, Modify(i, id, data))
    ensures Inv(g, Effect(g, s, Modify(i, id, data)))
  {
    hide LogOk, DiskOk;
    CallsRun(g, s, id);
    ModifyLog(g, s, i, data);
    ModifyCache(g, s, i, id, data);
  }

  lemma ModifyLog(g: Geometry, s: State, i: nat, data: Block)
    requires ValidGeometry(g) && Inv(g, s) && s.phase == Running && i < |s.bufs| == |s.uses|
    ensures var s' := AfterModify(s, i, data); DiskOk(g, s') && LogOk(g, s')
  {
    hide CacheOk, LogSpace.Inv, Durable, Common.Distinct;
  }

  lemma ModifyCache(g: Geometry, s: State, i: nat, id: nat, data: Block)
    requires ValidGeometry(g) && Inv(g, s) && Enabled(g, s, Modify(i, id, data)) && s.phase == Running
    ensures CacheOk(g, AfterModify(s, i, data))
  {
    hide LogOk, DiskOk, Durable;
    var s' := AfterModify(s, i, data);
    forall p | p in Pins(s') ensures Cached(s'.bufs, p) {
      assert p in Pins(s);
      CachedStable(s.bufs, i, s'.bufs[i], p);
    }
    forall k | 0 <= k < |s'.bufs| ensures BufOk(g, s', s'.bufs[k], s'.uses[k]) {
      assert BufOk(g, s, s.bufs[k], s.uses[k]);
      if k != i {
        assert s.bufs[k].dev == ROOTDEV ==> s.bufs[k].blockno != s.bufs[i].blockno;
        hide BufOk;
        BufStable(g, s, s', s.bufs[k], s.uses[k]);
      }
    }
  }

  /** bget recycles a buffer nobody refers to, so never one with uncommitted changes. */
  lemma MissKept(g: Geometry, s: State, i: nat, b: nat)
    requires ValidGeometry(g) && Inv(g, s) && Enabled(g, s, Miss(i, b))
    ensures Inv(g, Effect(g, s, Miss(i, b)))
  {
    hide LogOk;
    hide DiskOk;
    var s' := Effect(g, s, Miss(i, b));
    SameLogKept(g, s, s');
    assert BufOk(g, s, s.bufs[i], s.uses[i]);
    assert !Pinned(s, s.bufs[i]);
    forall p | p in Pins(s') ensures p != b && Cached(s'.bufs, p) {
      assert p in Pins(s);
      CachedStable(s.bufs, i, s'.bufs[i], p);
    }
    forall k | 0 <= k < |s'.bufs| ensures BufOk(g, s', s'.bufs[k], s'.uses[k]) {
      if k != i {
        BufStable(g, s, s', s.bufs[k], s.uses[k]);
      }
    }
  }

  // ---- File system calls ----

  /** The log changed but neither the buffers nor what is pinned. */
  lemma SameCacheKept(g: Geometry, s: State, s': State)
    requires ValidGeometry(g) && Inv(g, s)
    requires s'.bufs == s.bufs && s'.uses == s.uses && s'.disk == s.disk
    requires s'.cached == s.cached && s'.origin == s.origin && s'.groups == s.groups
    requires Pins(s') == Pins(s) && (Starting(s') ==> Starting(s))
    requires forall k | 0 <= k < |s.uses| && s.uses[k].unlogged && s.uses[k].holder.Some?
      && s.uses[k].holder.value.Call? ::
               s.uses[k].holder.value.id in s.log.ops ==> s.uses[k].holder.value.id in s'.log.ops
    ensures CacheOk(g, s')
  {
    forall k | 0 <= k < |s'.bufs| ensures BufOk(g, s', s'.bufs[k], s'.uses[k]) {
      assert BufOk(g, s, s.bufs[k], s.uses[k]);
    }
  }

  lemma BeginOpKept(g: Geometry, s: State, id: nat)
    requires ValidGeometry(g) && Inv(g, s) && Enabled(g, s, BeginOp(id))
    ensures Inv(g, Effect(g, s, BeginOp(id)))
  {
    LogSpace.StepKeepsInv(g.space, s.log, LogSpace.Begin(id));
    SameCacheKept(g, s, Effect(g, s, BeginOp(id)));
  }

  lemma GuardKept(g: Geometry, s: State, id: nat)
    requires ValidGeometry(g) && Inv(g, s) && Enabled(g, s, Guard(id))
    ensures Inv(g, Effect(g, s, Guard(id)))
  {
    LogSpace.StepKeepsInv(g.space, s.log, LogSpace.CheckRoom(id));
    assert s.phase.Running?;
    SameCacheKept(g, s, Effect(g, s, Guard(id)));
  }

  lemma EndOpLog(g: Geometry, s: State, id: nat)
    requires ValidGeometry(g) && Inv(g, s) && Enabled(g, s, EndOp(id))
    ensures LogOk(g, Effect(g, s, EndOp(id))) && DiskOk(g, Effect(g, s, EndOp(id)))
  {
    hide CacheOk, Durable, Common.Distinct;
    LogSpace.StepKeepsInv(g.space, s.log, LogSpace.End(id));
  }

  lemma EndOpCache(g: Geometry, s: State, id: nat)
    requires ValidGeometry(g) && Inv(g, s) && Enabled(g, s, EndOp(id))
    ensures CacheOk(g, Effect(g, s, EndOp(id)))
  {
    hide CacheOk, LogOk, DiskOk;
    CallsRun(g, s, id);
    SameCacheKept(g, s, Effect(g, s, EndOp(id)));
  }

  lemma EndOpKept(g: Geometry, s: State, id: nat)
    requires ValidGeometry(g) && Inv(g, s) && Enabled(g, s, EndOp(id))
    ensures Inv(g, Effect(g, s, EndOp(id)))
  {
    hide CacheOk, LogOk, DiskOk;
    EndOpLog(g, s, id);
    EndOpCache(g, s, id);
  }

  lemma FinishCommitKept(g: Geometry, s: State)
    requires ValidGeometry(g) && Inv(g, s) && Enabled(g, s, FinishCommit)
    ensures Inv(g, Effect(g, s, FinishCommit))
  {
    LogSpace.StepKeepsInv(g.space, s.log, LogSpace.Finish);
    SameCacheKept(g, s, Effect(g, s, FinishCommit));
  }

  lemma LogWriteKept(g: Geometry, s: State, i: nat, id: nat)
    requires ValidGeometry(g) && Inv(g, s) && Enabled(g, s, LogWrite(i, id))
    ensures Inv(g, Effect(g, s, LogWrite(i, id)))
  {
    assert s.phase.Running?;
    LogWriteLogKept(g, s, i, id);
    LogWriteCacheKept(g, s, i, id);
  }

  lemma LogWriteLogKept(g: Geometry, s: State, i: nat, id: nat)
    requires ValidGeometry(g) && LogOk(g, s) && Enabled(g, s, LogWrite(i, id)) && s.phase.Running?
    ensures LogOk(g, Effect(g, s, LogWrite(i, id)))
  {
    var l' := Effect(g, s, LogWrite(i, id)).log;
    LogSpace.StepKeepsInv(g.space, s.log, LogSpace.Record(id, s.bufs[i].blockno));
    LogSpace.UnusedBounds(g.space.opMax, l'.ops);
    assert forall p :: p in l'.blocks <==> p in s.log.blocks || p == s.bufs[i].blockno;
  }

  lemma LogWriteCacheKept(g: Geometry, s: State, i: nat, id: nat)
    requires ValidGeometry(g) && ValidDisk(g, s.disk) && ValidDisk(g, s.origin) && CacheOk(g, s)
    requires Enabled(g, s, LogWrite(i, id)) && s.phase.Running?
    ensures CacheOk(g, AfterLogWrite(g, s, i, id))
  {
    var s' := AfterLogWrite(g, s, i, id);
    var b := s.bufs[i].blockno;
    assert forall p :: p in Pins(s') <==> p in Pins(s) || p == b;
    forall p | p in Pins(s') ensures Cached(s'.bufs, p) {
      if p == b {
        assert Keyed(s.bufs[i], ROOTDEV, p);
      }
      CachedStable(s.bufs, i, s'.bufs[i], p);
      assert s'.bufs == s.bufs[i := s'.bufs[i]];
    }
    forall k | 0 <= k < |s'.bufs| ensures BufOk(g, s', s'.bufs[k], s'.uses[k]) {
      assert BufOk(g, s, s.bufs[k], s.uses[k]);
      if k != i {
        assert s.bufs[k].dev == ROOTDEV ==> s.bufs[k].blockno != b;
        hide BufOk;
        BufStable(g, s, s', s.bufs[k], s.uses[k]);
      } else {
        LoggedBufOk(g, s, i, id);
      }
    }
  }

  lemma LoggedBufOk(g: Geometry, s: State, i: nat, id: nat)
    requires ValidGeometry(g) && ValidDisk(g, s.disk) && ValidDisk(g, s.origin)
    requires Enabled(g, s, LogWrite(i, id)) && s.phase.Running? && BufOk(g, s, s.bufs[i], s.uses[i])
    ensures var s' := AfterLogWrite(g, s, i, id); BufOk(g, s', s'.bufs[i], s'.uses[i])
  {
    var b := s.bufs[i].blockno;
    assert b in s.log.blocks + [b];
  }

  // ---- Commit and recovery ----

  /** A buffer that is not pinned was written back: only its own block and data changed. */
  lemma WriteBackKept(g: Geometry, s: State, s': State, i: nat)
    requires ValidGeometry(g) && Inv(g, s) && i < |s.bufs| && s.log.ops == map[]
    requires |s'.bufs| == |s.bufs| && s'.bufs == s.bufs[i := s'.bufs[i]]
      && Keyed(s'.bufs[i], ROOTDEV, s.bufs[i].blockno)
    requires |s'.bufs[i].data| == g.words
    requires s'.disk == s.disk[s.bufs[i].blockno := s'.bufs[i].data]
    requires s'.uses == s.uses && s'.origin == s.origin && s'.log.ops == map[]
    requires forall p :: p in Pins(s') <==> p in Pins(s) && (p != s.bufs[i].blockno || Pinned(s', s'.bufs[i]))
    requires forall p | p in Pins(s') :: p < |s.origin| && Stored(s', p) == Stored(s, p)
    requires Starting(s') ==> Starting(s)
    requires BufOk(g, s', s'.bufs[i], s.uses[i])
    requires s.bufs[i].dev == ROOTDEV
    ensures CacheOk(g, s')
  {
    hide LogOk;
    hide DiskOk;
    hide Stored;
    forall p | p in Pins(s') ensures Cached(s'.bufs, p) {
      CachedStable(s.bufs, i, s'.bufs[i], p);
    }
    forall k | 0 <= k < |s'.bufs| ensures BufOk(g, s', s'.bufs[k], s'.uses[k]) {
      if k != i {
        assert BufOk(g, s, s.bufs[k], s.uses[k]);
        assert s.bufs[k].dev == ROOTDEV ==> s.bufs[k].blockno != s.bufs[i].blockno;
        if s.bufs[k].dev == ROOTDEV {
          BufStable(g, s, s', s.bufs[k], s.uses[k]);
        }
      }
    }
  }

  /** write_log copies the cached contents of a logged block into the log area. */
  lemma CopyToLogKept(g: Geometry, s: State, to: nat, from: nat)
    requires ValidGeometry(g) && Inv(g, s) && Enabled(g, s, CopyToLog(to, from))
    requires Fits(g, Effect(g, s, CopyToLog(to, from)))
    ensures Inv(g, Effect(g, s, CopyToLog(to, from)))
  {
    hide CacheOk, DiskOk, LogOk;
    CopyToLogDisk(g, s, to, from);
    CopyToLogLog(g, s, to, from);
    CopyToLogCache(g, s, to, from);
  }

  lemma CopyToLogLog(g: Geometry, s: State, to: nat, from: nat)
    requires ValidGeometry(g) && Inv(g, s) && Enabled(g, s, CopyToLog(to, from))
    ensures LogOk(g, Effect(g, s, CopyToLog(to, from)))
  {
    hide CacheOk, DiskOk, LogSpace.Inv, Durable, Common.Distinct;
  }

  lemma CopyToLogDisk(g: Geometry, s: State, to: nat, from: nat)
    requires ValidGeometry(g) && Inv(g, s) && Enabled(g, s, CopyToLog(to, from))
    requires Fits(g, Effect(g, s, CopyToLog(to, from)))
    ensures var s' := Effect(g, s, CopyToLog(to, from)); ValidDisk(g, s'.disk) && DiskOk(g, s')
  {
    hide CacheOk, LogSpace.Inv, Durable, Common.Distinct;
    var p := s.log.blocks[s.phase.tail];
    NoCalls(g, s);
    LoggedData(g, s, from, p);
    assert p in s.cached;
  }

  /** A cached block that the commit is about to read holds the group's contents. */
  lemma LoggedData(g: Geometry, s: State, i: nat, p: nat)
    requires ValidGeometry(g) && Inv(g, s) && s.log.ops == map[]
    requires Holds(s, i, Logger, p) && p in Pins(s)
    ensures p < |s.origin| && s.bufs[i].data == Stored(s, p) && |s.bufs[i].data| == g.words
  {
    hide LogOk;
    hide DiskOk;
    assert BufOk(g, s, s.bufs[i], s.uses[i]);
  }

  /** A cached block of the log area is what the disk holds. */
  lemma CleanData(g: Geometry, s: State, i: nat, p: nat)
    requires ValidGeometry(g) && Inv(g, s) && s.log.ops == map[]
    requires Holds(s, i, Logger, p) && !Home(g, p) && p !in Pins(s)
    ensures p < |s.disk| && s.bufs[i].data == s.disk[p] && |s.bufs[i].data| == g.words
  {
    hide LogOk;
    hide DiskOk;
    assert BufOk(g, s, s.bufs[i], s.uses[i]);
  }

  lemma CopyToLogCache(g: Geometry, s: State, to: nat, from: nat)
    requires ValidGeometry(g) && Inv(g, s) && Enabled(g, s, CopyToLog(to, from))
    requires Fits(g, Effect(g, s, CopyToLog(to, from)))
    ensures CacheOk(g, Effect(g, s, CopyToLog(to, from)))
  {
    hide DiskOk;
    hide LogOk;
    hide CacheOk;
    var s' := Effect(g, s, CopyToLog(to, from));
    NoCalls(g, s);
    LoggedData(g, s, from, s.log.blocks[s.phase.tail]);
    BufAt(g, s, to);
    assert s.bufs[to].blockno !in s.log.blocks;
    WriteBackKept(g, s, s', to);
  }

  lemma DurableNext(origin: Disk, groups: seq<map<nat, Block>>, group: map<nat, Block>)
    ensures forall b: nat | b < |origin| ::
              Durable(origin, groups + [group])[b] == if b in group then group[b] else Durable(origin, groups)[b]
  {
    assert (groups + [group])[..|groups|] == groups;
  }

  /** Writing the header commits the group: from now on recovery installs it. */
  lemma CommitKept(g: Geometry, s: State, i: nat)
    requires ValidGeometry(g) && Inv(g, s) && Enabled(g, s, Commit(i))
    ensures Inv(g, Effect(g, s, Commit(i)))
  {
    hide CacheOk, DiskOk, Durable;
    CommitDisk(g, s, i);
    CommitCache(g, s, i);
    CommitFits(g, s);
    assert LogOk(g, Effect(g, s, Commit(i)));
  }

  /** What the commit writes has been copied into the log area, so it fits there. */
  lemma CommitFits(g: Geometry, s: State)
    requires ValidGeometry(g) && Inv(g, s) && s.phase == Logging(|s.log.blocks|)
    ensures ValidList(g, s.log.blocks)
  {
    hide CacheOk, LogSpace.Inv, Durable, Common.Distinct;
  }

  lemma CommitDisk(g: Geometry, s: State, i: nat)
    requires ValidGeometry(g) && Inv(g, s) && Enabled(g, s, Commit(i))
    ensures var s' := Effect(g, s, Commit(i)); ValidDisk(g, s'.disk) && DiskOk(g, s')
  {
    var s' := Effect(g, s, Commit(i));
    CleanData(g, s, i, g.start);
    hide CacheOk;
    hide Common.Distinct;
    hide LogSpace.Inv;
    hide Durable;
    hide Committed;
    HeaderRoundTrip(s.bufs[i].data, s.log.blocks);
    DurableNext(s.origin, s.groups, s.cached);
    var hb := EncodeHeader(s.bufs[i].data, s.log.blocks);
    var before, after := Durable(s.origin, s.groups), Durable(s.origin, s.groups + [s.cached]);
    assert Settled(g, s.disk, before);
    assert Lists(s.cached, s.log.blocks);
    hide Settled;
    hide LogHolds;
    HeaderCommits(g, s.disk, before, after, s.log.blocks, s.cached, hb);
    assert s'.disk == s.disk[g.start := hb] && s'.phase == Installing(0) && s'.log == s.log;
  }

  lemma HeaderCommits(g: Geometry, disk: Disk, before: Disk, after: Disk, list: seq<nat>, group: map<nat, Block>,
    hb: Block)
    requires ValidGeometry(g) && ValidDisk(g, disk) && Settled(g, disk, before) && |after| == g.nblocks
    requires ValidList(g, list) && IsHeader(hb, list) && |hb| == g.words
    requires Lists(group, list)
    requires LogHolds(g, disk, list, group, |list|)
    requires forall b: nat | b < g.nblocks :: after[b] == if b in group then group[b] else before[b]
    ensures ValidDisk(g, disk[g.start := hb]) && Committed(g, disk[g.start := hb], after, list, 0)
  {
    assert list[0..] == list;
  }

  lemma CommitCache(g: Geometry, s: State, i: nat)
    requires ValidGeometry(g) && Inv(g, s) && Enabled(g, s, Commit(i))
    ensures CacheOk(g, Effect(g, s, Commit(i)))
  {
    hide DiskOk, Durable, LogSpace.Inv;
    var s1, s' := s.(uses := Taken(s)), Effect(g, s, Commit(i));
    NoCalls(g, s);
    TakenOk(g, s);
    assert s.log.blocks[0..] == s.log.blocks;
    assert g.start !in s.log.blocks;
    DurableNext(s.origin, s.groups, s.cached);
    BufAt(g, s1, i);
    hide CacheOk;
    WriteBackKept(g, s1, s', i);
  }

  /** A pinned buffer's contents are stored whether or not they were logged. */
  lemma TakenOk(g: Geometry, s: State)
    requires ValidGeometry(g) && Inv(g, s) && |s.bufs| == |s.uses| && s.phase.Logging?
    ensures Inv(g, s.(uses := Taken(s)))
  {
    hide DiskOk, LogOk;
    var s' := s.(uses := Taken(s));
    SameLogKept(g, s, s');
    forall k | 0 <= k < |s'.bufs| ensures BufOk(g, s', s'.bufs[k], s'.uses[k]) {
      assert BufOk(g, s, s.bufs[k], s.uses[k]);
    }
    assert forall p | p in Pins(s') :: p in Pins(s);
  }

  /** install_trans copies one block home; in commit it also unpins the block. */
  lemma CopyHomeKept(g: Geometry, s: State, from: nat, to: nat)
    requires ValidGeometry(g) && Inv(g, s) && Enabled(g, s, CopyHome(from, to))
    ensures Inv(g, Effect(g, s, CopyHome(from, to)))
  {
    hide CacheOk;
    hide Durable;
    hide Committed;
    CopyHomeCache(g, s, from, to);
    CopyHomeDisk(g, s, from, to);
  }

  lemma CopyHomeDisk(g: Geometry, s: State, from: nat, to: nat)
    requires ValidGeometry(g) && Inv(g, s) && Enabled(g, s, CopyHome(from, to))
    ensures var s' := Effect(g, s, CopyHome(from, to)); ValidDisk(g, s'.disk) && DiskOk(g, s')
  {
    hide CacheOk;
    hide Durable;
    var t, s' := s.phase.tail, Effect(g, s, CopyHome(from, to));
    LogBlockClean(g, s, from, t);
    hide LogOk;
    assert s'.disk == s.disk[s.log.blocks[t] := s.disk[g.start + 1 + t]];
    assert Committed(g, s.disk, Durable(s.origin, s.groups), s.log.blocks, t);
    hide Committed;
    InstallOne(g, s.disk, Durable(s.origin, s.groups), s.log.blocks, t);
  }

  lemma LogBlockClean(g: Geometry, s: State, i: nat, t: nat)
    requires ValidGeometry(g) && Inv(g, s) && s.log.ops == map[]
    requires ValidList(g, s.log.blocks) && t < |s.log.blocks| && Holds(s, i, Logger, g.start + 1 + t)
    ensures g.start + 1 + t < |s.disk| && s.bufs[i].data == s.disk[g.start + 1 + t] && |s.bufs[i].data| == g.words
  {
    hide CacheOk;
    hide DiskOk;
    hide LogSpace.Inv;
    assert !Home(g, g.start + 1 + t);
    assert g.start + 1 + t !in s.log.blocks;
    CleanData(g, s, i, g.start + 1 + t);
  }

  lemma InstallOne(g: Geometry, disk: Disk, durable: Disk, list: seq<nat>, t: nat)
    requires ValidGeometry(g) && ValidDisk(g, disk) && |durable| == g.nblocks
    requires t < |list| && Committed(g, disk, durable, list, t)
    ensures var disk' := disk[list[t] := disk[g.start + 1 + t]];
            ValidDisk(g, disk') && Committed(g, disk', durable, list, t + 1)
  {
    var disk' := disk[list[t] := disk[g.start + 1 + t]];
    assert list[t..] == [list[t]] + list[t + 1..];
  }

  lemma CopyHomeCache(g: Geometry, s: State, from: nat, to: nat)
    requires ValidGeometry(g) && Inv(g, s) && Enabled(g, s, CopyHome(from, to))
    ensures CacheOk(g, Effect(g, s, CopyHome(from, to)))
  {
    hide CacheOk;
    hide DiskOk;
    LogBlockClean(g, s, from, s.phase.tail);
    if s.phase.Installing? {
      InstallCache(g, s, to, s.bufs[from].data);
    } else {
      RecoverCache(g, s, to, s.bufs[from].data);
    }
  }

  lemma InstallCache(g: Geometry, s: State, to: nat, data: Block)
    requires ValidGeometry(g) && Inv(g, s) && |data| == g.words
    requires s.phase.Installing? && s.phase.tail < |s.log.blocks| && to < |s.bufs|
    requires Holds(s, to, Logger, s.log.blocks[s.phase.tail]) && s.bufs[to].refcnt > 0
    ensures var s' := WriteBack(s, to, data);
            CacheOk(g, s'.(bufs := s'.bufs[to := Unref(s'.bufs[to])], phase := Installing(s.phase.tail + 1)))
  {
    hide DiskOk;
    hide LogOk;
    hide CacheOk;
    var list, t := s.log.blocks, s.phase.tail;
    NoCalls(g, s);
    TailWithout(g, list, t);
    BufAt(g, s, to);
    var s1 := WriteBack(s, to, data);
    var s' := s1.(bufs := s1.bufs[to := Unref(s1.bufs[to])], phase := Installing(t + 1));
    WriteBackKept(g, s, s', to);
  }

  lemma TailWithout(g: Geometry, list: seq<nat>, t: nat)
    requires HomeList(g, list) && t < |list|
    ensures forall p :: p in list[t + 1..] <==> p in list[t..] && p != list[t]
  {
    assert list[t..] == [list[t]] + list[t + 1..];
  }

  lemma RecoverCache(g: Geometry, s: State, to: nat, data: Block)
    requires ValidGeometry(g) && Inv(g, s) && |data| == g.words
    requires s.phase.Recovering? && s.phase.tail < |s.log.blocks| && to < |s.bufs|
    requires Holds(s, to, Logger, s.log.blocks[s.phase.tail])
    ensures CacheOk(g, WriteBack(s, to, data).(phase := Recovering(s.phase.tail + 1)))
  {
    hide DiskOk;
    hide LogOk;
    hide CacheOk;
    NoCalls(g, s);
    BufAt(g, s, to);
    var s' := WriteBack(s, to, data).(phase := Recovering(s.phase.tail + 1));
    WriteBackKept(g, s, s', to);
  }

  lemma ClearDisk(g: Geometry, s: State, i: nat)
    requires ValidGeometry(g) && Inv(g, s) && Enabled(g, s, Clear(i))
    ensures var s' := Effect(g, s, Clear(i)); ValidDisk(g, s'.disk) && Settled(g, s'.disk, Durable(s.origin, s.groups))
  {
    hide CacheOk, Durable, Common.Distinct;
    CleanData(g, s, i, g.start);
    HeaderRoundTrip(s.bufs[i].data, []);
    assert s.log.blocks[s.phase.tail..] == [];
  }

  lemma ClearLog(g: Geometry, s: State, i: nat)
    requires ValidGeometry(g) && Inv(g, s) && Enabled(g, s, Clear(i))
    ensures LogOk(g, Effect(g, s, Clear(i)))
  {
    hide CacheOk, DiskOk, Durable;
    if s.phase.Installing? { LogSpace.StepKeepsInv(g.space, s.log, LogSpace.Erase); }
    assert LogSpace.Start.ops == map[];
    LogSpace.UnusedBounds(g.space.opMax, map[]);
  }

  /** Clearing the header ends the transaction: all of it is home. */
  lemma ClearKept(g: Geometry, s: State, i: nat)
    requires ValidGeometry(g) && Inv(g, s) && Enabled(g, s, Clear(i))
    ensures Inv(g, Effect(g, s, Clear(i)))
  {
    hide CacheOk, LogOk, Settled, Durable, Committed, LogHolds;
    ClearCache(g, s, i);
    ClearDisk(g, s, i);
    ClearLog(g, s, i);
  }

  lemma ClearCache(g: Geometry, s: State, i: nat)
    requires ValidGeometry(g) && Inv(g, s) && Enabled(g, s, Clear(i))
    ensures CacheOk(g, Effect(g, s, Clear(i)))
  {
    var s' := Effect(g, s, Clear(i));
    CleanData(g, s, i, g.start);
    assert BufOk(g, s, s.bufs[i], s.uses[i]);
    hide DiskOk;
    hide LogSpace.Inv;
    assert s.log.blocks[s.phase.tail..] == [];
    assert Pins(s) == [] && Pins(s') == [];
    WriteBackKept(g, s, s', i);
  }

  /** Whatever the machine was doing, the disk can be recovered to the durable state. */
  lemma DiskRecovers(g: Geometry, s: State)
    requires ValidGeometry(g) && Inv(g, s)
    ensures ValidHeader(g, s.disk[g.start])
    ensures SameHome(g, Recovered(g, s.disk), Durable(s.origin, s.groups))
  {
    hide CacheOk;
    hide LogSpace.Inv;
    var durable := Durable(s.origin, s.groups);
    hide Durable;
    match s.phase
    case Booting =>
    case Recovering(t) => CommittedRecovers(g, s.disk, durable, s.log.blocks, t);
    case Installing(t) => CommittedRecovers(g, s.disk, durable, s.log.blocks, t);
    case _ => SettledRecovers(g, s.disk, durable);
  }

  lemma CommittedRecovers(g: Geometry, disk: Disk, durable: Disk, list: seq<nat>, t: nat)
    requires ValidGeometry(g) && ValidDisk(g, disk) && |durable| == g.nblocks && Committed(g, disk, durable, list, t)
    ensures ValidHeader(g, disk[g.start]) && SameHome(g, Recovered(g, disk), durable)
  {
    HeaderUnique(disk[g.start], list);
    forall b | Home(g, b) ensures Recovered(g, disk)[b] == durable[b] {
      RecoveredAt(g, disk, list, b);
      if b in list {
        var k :| 0 <= k < |list| && list[k] == b;
      } else {
        assert b !in list[t..];
      }
    }
  }

  lemma SettledRecovers(g: Geometry, disk: Disk, durable: Disk)
    requires ValidGeometry(g) && ValidDisk(g, disk) && Settled(g, disk, durable)
    ensures ValidHeader(g, disk[g.start]) && SameHome(g, Recovered(g, disk), durable)
  {
    HeaderUnique(disk[g.start], []);
    forall b | Home(g, b) ensures Recovered(g, disk)[b] == durable[b] {
      RecoveredAt(g, disk, [], b);
    }
  }

  lemma CrashKept(g: Geometry, s: State)
    requires ValidGeometry(g) && Inv(g, s)
    ensures Inv(g, Rebooted(s))
  {
    DiskRecovers(g, s);
    RebootedOk(g, s);
  }

  lemma RebootedOk(g: Geometry, s: State)
    requires ValidGeometry(g) && ValidDisk(g, s.disk) && ValidDisk(g, s.origin)
    requires ValidHeader(g, s.disk[g.start])
    requires SameHome(g, Recovered(g, s.disk), Durable(s.origin, s.groups))
    ensures Inv(g, Rebooted(s))
  {
    hide Recovered;
    hide Durable;
    var s' := Rebooted(s);
    forall k | 0 <= k < |s'.bufs| ensures BufOk(g, s', s'.bufs[k], s'.uses[k]) {
    }
  }

  lemma ReadHeadCache(g: Geometry, s: State, i: nat)
    requires ValidGeometry(g) && Inv(g, s) && Enabled(g, s, ReadHead(i))
    ensures var s' := Effect(g, s, ReadHead(i)); CacheOk(g, s') && s.bufs[i].data == s.disk[g.start]
  {
    hide DiskOk, Durable, Common.Distinct;
    CleanData(g, s, i, g.start);
    SameCacheKept(g, s, Effect(g, s, ReadHead(i)));
  }

  /** read_head: the list on disk is the one recovery has to install. */
  lemma ReadHeadKept(g: Geometry, s: State, i: nat)
    requires ValidGeometry(g) && Inv(g, s) && Enabled(g, s, ReadHead(i))
    ensures Inv(g, Effect(g, s, ReadHead(i)))
  {
    hide CacheOk, Durable, Recovered, Committed, Common.Distinct, LogSpace.Inv;
    ReadHeadCache(g, s, i);
    HeaderNames(g, s.disk, Durable(s.origin, s.groups));
  }

  lemma HeaderNames(g: Geometry, disk: Disk, durable: Disk)
    requires ValidGeometry(g) && ValidDisk(g, disk)
    requires ValidHeader(g, disk[g.start]) && SameHome(g, Recovered(g, disk), durable)
    ensures Committed(g, disk, durable, DecodeHeader(disk[g.start]), 0)
  {
    var list := DecodeHeader(disk[g.start]);
    assert list[0..] == list;
    forall b | Home(g, b) && b !in list ensures disk[b] == durable[b] {
      RecoveredAt(g, disk, list, b);
    }
    forall k | 0 <= k < |list| ensures disk[g.start + 1 + k] == durable[list[k]] {
      RecoveredAt(g, disk, list, list[k]);
    }
  }
}

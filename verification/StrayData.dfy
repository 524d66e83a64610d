/** Contents that a call has changed but not logged, and then released: what becomes
    of them, in every run of the log machine. */
module StrayData {
  import opened Common
  import opened LogFormat
  import LogSpace
  import opened CacheEntry
  import opened LogMachine
  import opened LogInvariant

  /** Unless its holder is changing it, the buffer of a home block differs from the
      latest contents exactly if it was released that way. */
  ghost predicate Told(g: Geometry, s: State, b: Buf, u: Use) {
    !Starting(s) && b.dev == ROOTDEV && b.valid && Home(g, b.blockno) && !u.unlogged ==>
    b.blockno < |s.origin| && (u.stray <==> b.data != Latest(s, b.blockno))
  }

  ghost predicate AllTold(g: Geometry, s: State) {
    |s.bufs| == |s.uses| && forall i | 0 <= i < |s.bufs| :: Told(g, s, s.bufs[i], s.uses[i])
  }

  /** The step changes neither buffer k nor the latest contents of its block. */
  lemma ToldStable(g: Geometry, s: State, s': State, b: Buf, u: Use)
    requires Told(g, s, b, u) && (Starting(s) ==> Starting(s')) && s'.origin == s.origin
    requires b.blockno < |s.origin| && b.dev == ROOTDEV && Home(g, b.blockno) ==>
               Latest(s', b.blockno) == Latest(s, b.blockno)
    ensures Told(g, s', b, u)
  {
  }

  /** Only buffer i changed. */
  lemma OneTold(g: Geometry, s: State, s': State, i: nat)
    requires AllTold(g, s) && i < |s.bufs| && |s'.bufs| == |s'.uses| == |s.bufs|
    requires forall k | 0 <= k < |s.bufs| && k != i :: s'.bufs[k] == s.bufs[k] && s'.uses[k] == s.uses[k]
    requires s'.origin == s.origin && s'.groups == s.groups && s'.current == s.current && Starting(s) == Starting(s')
    requires Told(g, s', s'.bufs[i], s'.uses[i])
    ensures AllTold(g, s')
  {
    hide Durable;
    forall k | 0 <= k < |s'.bufs| ensures Told(g, s', s'.bufs[k], s'.uses[k]) {
      if k != i { assert Told(g, s, s.bufs[k], s.uses[k]); }
    }
  }

  /** No buffer changed. */
  lemma SameTold(g: Geometry, s: State, s': State)
    requires AllTold(g, s) && s'.bufs == s.bufs && s'.uses == s.uses
    requires s'.origin == s.origin && s'.groups == s.groups && s'.current == s.current
    requires Starting(s) ==> Starting(s')
    ensures AllTold(g, s')
  {
    hide Durable;
    forall k | 0 <= k < |s'.bufs| ensures Told(g, s', s'.bufs[k], s'.uses[k]) {
      assert Told(g, s, s.bufs[k], s.uses[k]);
    }
  }

  lemma UnlockTold(g: Geometry, s: State, i: nat)
    requires ValidGeometry(g) && Inv(g, s) && AllTold(g, s) && Enabled(g, s, Unlock(i))
    ensures AllTold(g, Effect(g, s, Unlock(i)))
  {
    hide LogOk, DiskOk, Durable;
    BufAt(g, s, i);
    assert Told(g, s, s.bufs[i], s.uses[i]);
    OneTold(g, s, Effect(g, s, Unlock(i)), i);
  }

  lemma FillTold(g: Geometry, s: State, i: nat)
    requires ValidGeometry(g) && Inv(g, s) && AllTold(g, s) && Enabled(g, s, Fill(i))
    ensures AllTold(g, Effect(g, s, Fill(i)))
  {
    hide LogOk, DiskOk, Durable;
    var b := s.bufs[i].blockno;
    BufAt(g, s, i);
    if !Starting(s) && s.bufs[i].dev == ROOTDEV && Home(g, b) { DiskIsLatest(g, s, b); }
    OneTold(g, s, Effect(g, s, Fill(i)), i);
  }

  lemma LogWriteTold(g: Geometry, s: State, i: nat, id: nat)
    requires ValidGeometry(g) && Inv(g, s) && AllTold(g, s) && Enabled(g, s, LogWrite(i, id))
    ensures AllTold(g, Effect(g, s, LogWrite(i, id)))
  {
    hide LogOk, DiskOk, Durable;
    var s' := AfterLogWrite(g, s, i, id);
    forall k | 0 <= k < |s'.bufs| ensures Told(g, s', s'.bufs[k], s'.uses[k]) {
      assert Told(g, s, s.bufs[k], s.uses[k]);
      if k != i { assert s.bufs[k].dev == ROOTDEV ==> s.bufs[k].blockno != s.bufs[i].blockno; }
    }
  }

  lemma CopyToLogTold(g: Geometry, s: State, to: nat, from: nat)
    requires ValidGeometry(g) && Inv(g, s) && AllTold(g, s) && Enabled(g, s, CopyToLog(to, from))
    requires Fits(g, Effect(g, s, CopyToLog(to, from)))
    ensures AllTold(g, Effect(g, s, CopyToLog(to, from)))
  {
    hide Inv, Durable;
    assert !Home(g, g.start + 1 + s.phase.tail);
    OneTold(g, s, Effect(g, s, CopyToLog(to, from)), to);
  }

  /** The commit takes in what the pinned buffers hold, and with it becomes the latest. */
  lemma CommitTold(g: Geometry, s: State, i: nat)
    requires ValidGeometry(g) && Inv(g, s) && AllTold(g, s) && Enabled(g, s, Commit(i))
    ensures AllTold(g, Effect(g, s, Commit(i)))
  {
    hide DiskOk, Durable, LogSpace.Inv;
    var s' := Effect(g, s, Commit(i));
    DurableNext(s.origin, s.groups, s.cached);
    NoCalls(g, s);
    forall k | 0 <= k < |s'.bufs| ensures Told(g, s', s'.bufs[k], s'.uses[k]) {
      assert Told(g, s, s.bufs[k], s.uses[k]);
      BufAt(g, s, k);
    }
  }

  lemma CopyHomeTold(g: Geometry, s: State, from: nat, to: nat)
    requires ValidGeometry(g) && Inv(g, s) && AllTold(g, s) && Enabled(g, s, CopyHome(from, to))
    ensures AllTold(g, Effect(g, s, CopyHome(from, to)))
  {
    hide Inv, Durable;
    var s' := Effect(g, s, CopyHome(from, to));
    if s.phase.Installing? { InstalledTold(g, s, from, to); }
    OneTold(g, s, s', to);
  }

  lemma InstalledTold(g: Geometry, s: State, from: nat, to: nat)
    requires ValidGeometry(g) && Inv(g, s) && AllTold(g, s) && Enabled(g, s, CopyHome(from, to)) && s.phase.Installing?
    ensures s.bufs[to].blockno < |s.origin|
    ensures !s.uses[to].stray && s.bufs[from].data == Latest(s, s.bufs[to].blockno)
  {
    hide Durable, LogSpace.Inv, CacheOk;
    NoCalls(g, s);
    LogBlockClean(g, s, from, s.phase.tail);
    BufAt(g, s, to);
    assert Told(g, s, s.bufs[to], s.uses[to]);
    assert s.log.blocks[s.phase.tail] in Pins(s);
  }

  /** Recovery is over, or the commit: the disk has the latest contents. */
  lemma ClearTold(g: Geometry, s: State, i: nat)
    requires ValidGeometry(g) && Inv(g, s) && AllTold(g, s) && Enabled(g, s, Clear(i))
    ensures AllTold(g, Effect(g, s, Clear(i)))
  {
    hide DiskOk, LogOk, Durable;
    var s' := Effect(g, s, Clear(i));
    if s.phase.Installing? {
      OneTold(g, s, s', i);
    } else {
      ClearKept(g, s, i);
      assert Pins(s') == [];
      forall k | 0 <= k < |s'.bufs| ensures Told(g, s', s'.bufs[k], s'.uses[k]) {
        BufAt(g, s', k);
        BufAt(g, s, k);
        if Home(g, s'.bufs[k].blockno) { DiskIsLatest(g, s', s'.bufs[k].blockno); }
      }
    }
  }

  lemma CacheTold(g: Geometry, s: State, a: Action)
    requires ValidGeometry(g) && AllTold(g, s) && Enabled(g, s, a)
    requires a.Hit? || a.Miss? || a.Lock? || a.Drop? || a.Modify?
    ensures AllTold(g, Effect(g, s, a))
  {
    hide Durable;
    assert Told(g, s, s.bufs[a.i], s.uses[a.i]);
    OneTold(g, s, Effect(g, s, a), a.i);
  }

  lemma LogTold(g: Geometry, s: State, a: Action)
    requires ValidGeometry(g) && Inv(g, s) && AllTold(g, s) && Enabled(g, s, a)
    requires a.BeginOp? || a.Guard? || a.EndOp? || a.FinishCommit? || a.ReadHead? || a.Crash?
    ensures AllTold(g, Effect(g, s, a))
  {
    hide Inv, Durable;
    if a.EndOp? { CallsRun(g, s, a.id); }
    if !a.Crash? { SameTold(g, s, Effect(g, s, a)); }
  }

  lemma StepTold(g: Geometry, s: State, a: Action)
    requires ValidGeometry(g) && Inv(g, s) && AllTold(g, s) && Enabled(g, s, a) && Fits(g, Effect(g, s, a))
    ensures AllTold(g, Effect(g, s, a))
  {
    hide Inv, AllTold, Effect, Enabled;
    match a
    case Fill(i) => FillTold(g, s, i);
    case Unlock(i) => UnlockTold(g, s, i);
    case LogWrite(i, id) => LogWriteTold(g, s, i, id);
    case CopyToLog(to, from) => CopyToLogTold(g, s, to, from);
    case Commit(i) => CommitTold(g, s, i);
    case CopyHome(from, to) => CopyHomeTold(g, s, from, to);
    case Clear(i) => ClearTold(g, s, i);
    case Hit(_, _) => CacheTold(g, s, a);
    case Miss(_, _) => CacheTold(g, s, a);
    case Lock(_, _) => CacheTold(g, s, a);
    case Drop(_) => CacheTold(g, s, a);
    case Modify(_, _, _) => CacheTold(g, s, a);
    case _ => LogTold(g, s, a);
  }
}

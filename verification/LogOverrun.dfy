/** What happens on a log area of at most LOGSIZE blocks (kernel/log.c, mkfs/mkfs.c) if
    there are more than log.size buffers: one run, step by step, in which two calls pass
    log_write's guard together, the commit copies one block too many, and the block
    behind the log area is lost. */
module LogOverrun {
  import opened Common
  import opened LogFormat
  import LogSpace
  import opened CacheEntry
  import opened LogMachine
  import opened LogRuns
  import opened CrashSafety

  /** The machine follows any run of the log's bookkeeping that only fills the log. */
  lemma {:induction false} Follow(g: Geometry, s: State, steps: seq<LogSpace.Step>, l: LogSpace.Log) returns (t: State)
    requires ValidGeometry(g) && Reachable(g, s) && Calm(g, s) && s.phase == Running
    requires First(g) + g.space.size <= g.nblocks && |s.bufs| > g.space.size
    requires LogSpace.Path(g.space, s.log, steps, l)
    requires forall k | 0 <= k < |steps| :: LogSpace.Filling(g.space, First(g), steps[k])
    ensures Reachable(g, t) && Calm(g, t) && t.phase == Running && t.log == l && |t.bufs| == |s.bufs|
    decreases |steps|
  {
    hide Reachable, Calm, LogSpace.Enabled, LogSpace.Effect, LogSpace.Filling;
    if steps == [] {
      t := s;
    } else {
      var s1 := FillOne(g, s, steps[0]);
      t := Follow(g, s1, steps[1..], l);
    }
  }

  lemma LogOverfull(g: Geometry, nbuf: nat) returns (s: State)
    requires ValidGeometry(g) && First(g) + g.space.size <= g.nblocks && nbuf > g.space.size
    requires g.space.opMax >= 1 && g.space.logMax == 3 * g.space.opMax && 2 <= g.space.size <= g.space.logMax
    ensures Reachable(g, s) && Calm(g, s) && s.phase == Running && |s.bufs| == nbuf
    ensures |s.log.blocks| == g.space.size && !s.log.committing
    ensures s.log.ops.Keys == {0, 1, 2} && forall id | id in s.log.ops :: !s.log.ops[id].cleared
  {
    hide Reachable, LogSpace.Enabled, LogSpace.Effect, LogSpace.Filling;
    Boot(g, nbuf);
    BootCalm(g, nbuf);
    var l := LogSpace.GuardRace(g.space, First(g));
    var steps :| LogSpace.Path(g.space, LogSpace.Start, steps, l)
              && forall k | 0 <= k < |steps| :: LogSpace.Filling(g.space, First(g), steps[k]);
    s := Follow(g, Booted(g, nbuf), steps, l);
  }

  // ---- The last call commits ----

  lemma EndAll(g: Geometry, s: State) returns (t: State)
    requires ValidGeometry(g) && Reachable(g, s) && Calm(g, s)
    requires s.phase == Running && s.log.blocks != [] && !s.log.committing
    requires s.log.ops.Keys == {0, 1, 2} && forall id | id in s.log.ops :: !s.log.ops[id].cleared
    ensures Reachable(g, t) && Calm(g, t) && t.phase == Logging(0)
    ensures t.log.blocks == s.log.blocks && |t.bufs| == |s.bufs|
  {
    hide Reachable, Calm;
    var s1 := EndOne(g, s, 0);
    assert s1.log.ops.Keys == {1, 2};
    var s2 := EndOne(g, s1, 1);
    assert s2.log.ops.Keys == {2};
    t := EndOne(g, s2, 2);
  }

  // ---- write_log copies one block too many ----

  /** The first t logged blocks have been copied, one after the other through buffer 0. */
  ghost predicate Copied(g: Geometry, s: State, t: nat) {
    && |s.bufs| == |s.uses| >= 1
    && s.uses[0] == Idle && s.bufs[0].dev == ROOTDEV && s.bufs[0].refcnt == 0 && s.bufs[0].blockno == g.start + t
    && (forall k | 1 <= k < |s.bufs| :: Ready(g, s, k))
    && s.phase == Logging(t) && t <= |s.log.blocks| == g.space.size
    && s.origin == Blank(g) && s.groups == []
    && (forall j | 0 <= j < |s.log.blocks| :: Marked(g, s, s.log.blocks[j]))
    && |s.disk| == g.nblocks
    && forall b | 0 <= b < g.nblocks :: s.disk[b] == if g.start < b <= g.start + t then Ones(g) else Zeros(g)
  }

  lemma CopyOne(g: Geometry, s: State, k: nat) returns (t: State)
    requires ValidGeometry(g) && Reachable(g, s) && Copied(g, s, k) && k < g.space.size
    requires First(g) + g.space.size <= g.nblocks
    ensures Reachable(g, t) && Copied(g, t, k + 1) && |t.bufs| == |s.bufs|
  {
    hide Reachable, Durable;
    var to, b := g.start + 1 + k, s.log.blocks[k];
    assert Marked(g, s, b);
    var i := b - First(g) + 1;
    assert Ready(g, s, i);
    forall j | 0 <= j < |s.bufs| ensures !Keyed(s.bufs[j], ROOTDEV, to) {
      if j >= 1 { assert Ready(g, s, j); }
    }
    Fetch(g, s, 0, to, Logger);
    var s1 := Fetched(s, 0, to, Logger);
    Bread(g, s1, i, Logger);
    var s2 := Held(s1, i, Logger);
    ReachableStep(g, s2, CopyToLog(0, i));
    var s3 := Effect(g, s2, CopyToLog(0, i));
    Brelse(g, s3, i);
    var s4 := Released(s3, i);
    Brelse(g, s4, 0);
    t := Released(s4, 0);
    assert t.uses == s.uses;
    CopiedNext(g, s, t, k);
  }

  lemma CopiedNext(g: Geometry, s: State, t: State, k: nat)
    requires Copied(g, s, k) && k < g.space.size && First(g) + g.space.size <= g.nblocks && |t.bufs| == |s.bufs|
    requires t == s.(bufs := t.bufs, disk := s.disk[g.start + 1 + k := Ones(g)], phase := Logging(k + 1))
    requires forall j | 1 <= j < |s.bufs| :: t.bufs[j] == s.bufs[j]
    requires Keyed(t.bufs[0], ROOTDEV, g.start + 1 + k) && t.bufs[0].refcnt == 0
    ensures Copied(g, t, k + 1)
  {
    forall j | 1 <= j < |t.bufs| ensures Ready(g, t, j) {
      assert Ready(g, s, j);
    }
    forall j | 0 <= j < |t.log.blocks| ensures Marked(g, t, t.log.blocks[j]) {
      assert Marked(g, s, s.log.blocks[j]);
    }
  }

  lemma {:induction false} CopyAll(g: Geometry, s: State, k: nat) returns (t: State)
    requires ValidGeometry(g) && Reachable(g, s) && Copied(g, s, 0) && k <= g.space.size
    requires First(g) + g.space.size <= g.nblocks
    ensures Reachable(g, t) && Copied(g, t, k) && |t.bufs| == |s.bufs|
  {
    hide Reachable, Copied;
    if k == 0 {
      t := s;
    } else {
      var s1 := CopyAll(g, s, k - 1);
      t := CopyOne(g, s1, k - 1);
    }
  }

  /** The copy has overwritten the block behind the log area, so recovery does not
      give it back, although nothing was ever committed. */
  lemma BlockLost(g: Geometry, s: State)
    requires ValidGeometry(g) && Copied(g, s, g.space.size) && First(g) + g.space.size <= g.nblocks
    ensures ValidDisk(g, s.disk) && ValidHeader(g, s.disk[g.start])
    ensures Home(g, g.start + g.space.size) && s.groups == []
    ensures Recovered(g, s.disk)[g.start + g.space.size] != Durable(s.origin, s.groups)[g.start + g.space.size]
  {
    var b := g.start + g.space.size;
    assert s.disk[g.start] == Zeros(g);
    assert DecodeHeader(s.disk[g.start]) == [];
    assert Recovered(g, s.disk)[b] == Ones(g);
    assert Ones(g)[0] != Zeros(g)[0];
  }

  /** On a log area of at most LOGSIZE blocks, and with more buffers than that, crash
      atomicity fails. */
  lemma OverrunLosesBlock(g: Geometry, nbuf: nat) returns (s: State)
    requires ValidGeometry(g) && First(g) + g.space.size <= g.nblocks && nbuf > g.space.size
    requires g.space.opMax >= 1 && g.space.logMax == 3 * g.space.opMax && 2 <= g.space.size <= g.space.logMax
    ensures Reachable(g, s) && |s.bufs| == nbuf && !CrashSafe(g, s)
  {
    hide Reachable, Recovered, Durable, Copied;
    var s0 := LogOverfull(g, nbuf);
    var s1 := EndAll(g, s0);
    assert Copied(g, s1, 0) by { StartsCopying(g, s1); }
    s := CopyAll(g, s1, g.space.size);
    BlockLost(g, s);
    assert Home(g, g.start + g.space.size);
  }

  lemma StartsCopying(g: Geometry, s: State)
    requires Calm(g, s) && s.phase == Logging(0) && |s.log.blocks| == g.space.size
    ensures Copied(g, s, 0)
  {
  }

  /** Crash atomicity holds in every run exactly when log.size exceeds LOGSIZE, or there
      are no more than log.size buffers, or the log area is only its header; on any disk
      with room behind the log area for what the calls write. (mkfs makes log.size equal
      to LOGSIZE, and NBUF is LOGSIZE too.) */
  lemma CrashAtomicityExact(g: Geometry, nbuf: nat)
    requires ValidGeometry(g) && First(g) + g.space.size <= g.nblocks
    requires g.space.opMax >= 1 && g.space.logMax == 3 * g.space.opMax
    ensures (forall s | Reachable(g, s) && |s.bufs| == nbuf :: CrashSafe(g, s)) <==>
            g.space.size >= g.space.logMax + 1 || nbuf <= g.space.size || g.space.size == 1
  {
    hide Reachable, FittingReachable, CrashSafe;
    if Confined(g, nbuf) {
      forall s | Reachable(g, s) && |s.bufs| == nbuf ensures CrashSafe(g, s) {
        EveryRunFits(g, s);
        CrashAtomicity(g, s);
      }
    } else {
      var s := OverrunLosesBlock(g, nbuf);
    }
  }
}

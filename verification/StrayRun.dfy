/** A write that fails half-way (kernel/fs.c, writei): it has logged a block, changes it
    again, fails to copy the rest, and releases the buffer without log_write. One run,
    step by step, after which the commit stores contents that were never logged. */
module StrayRun {
  import opened Common
  import opened LogFormat
  import LogSpace
  import opened CacheEntry
  import opened LogMachine
  import opened LogRuns
  import opened CrashSafety

  function Twos(g: Geometry): Block {
    seq(g.words, _ => 2)
  }

  lemma Different(g: Geometry)
    requires ValidGeometry(g)
    ensures Ones(g) != Twos(g)
  {
    assert Ones(g)[0] != Twos(g)[0];
  }

  /** Disk, block and buffers big enough for the run. */
  predicate Roomy(g: Geometry, nbuf: nat) {
    && ValidGeometry(g) && First(g) + g.space.size <= g.nblocks && nbuf >= 2
    && 1 <= g.space.opMax <= g.space.logMax && g.space.size >= 2
  }

  /** The only call has logged one block full of ones. */
  predicate OneLogged(g: Geometry, s: State) {
    && Calm(g, s) && s.phase == Running && s.log.blocks == [First(g)] && !s.log.committing
    && s.log.ops == map[0 := LogSpace.Op(1, false)] && s.current == s.cached == map[First(g) := Ones(g)]
  }

  lemma LogsOne(g: Geometry, nbuf: nat) returns (s: State)
    requires Roomy(g, nbuf)
    ensures Reachable(g, s) && |s.bufs| == nbuf && OneLogged(g, s)
  {
    hide Reachable;
    Boot(g, nbuf);
    BootCalm(g, nbuf);
    var s0 := Booted(g, nbuf);
    ReachableStep(g, s0, BeginOp(0));
    var s1 := Effect(g, s0, BeginOp(0));
    CalmKept(g, s0, s1);
    ReachableStep(g, s1, Guard(0));
    var s2 := Effect(g, s1, Guard(0));
    CalmKept(g, s1, s2);
    s := WriteOne(g, s2, 0, First(g));
    assert s.log.blocks == [First(g)];
  }

  /** The call has changed the block again and released it. */
  predicate OneStray(g: Geometry, s: State) {
    && |s.bufs| == |s.uses| >= 2
    && s.uses[0] == Idle && Keyed(s.bufs[0], ROOTDEV, g.start) && s.bufs[0].refcnt == 0
    && Keyed(s.bufs[1], ROOTDEV, First(g)) && s.bufs[1].valid && s.bufs[1].data == Twos(g)
    && s.uses[1] == Use(None, 0, 0, false, true)
    && (forall k | 2 <= k < |s.bufs| :: !Keyed(s.bufs[k], ROOTDEV, g.start + 1) && !Keyed(s.bufs[k], ROOTDEV, g.start))
    && (forall k | 2 <= k < |s.uses| :: s.uses[k].holder == None)
    && s.disk == s.origin == Blank(g) && s.groups == [] && s.log.blocks == [First(g)] && !s.log.committing
    && s.current == map[First(g) := Ones(g)] && s.cached == map[First(g) := Twos(g)]
  }

  lemma Strayed(g: Geometry, s: State) returns (t: State)
    requires Roomy(g, |s.bufs|) && Reachable(g, s) && OneLogged(g, s)
    ensures Reachable(g, t) && |t.bufs| == |s.bufs| && OneStray(g, t)
    ensures t.phase == Running && t.log == s.log
  {
    hide Reachable, Durable;
    var s1 := BreadOne(g, s, 0, First(g));
    ReachableStep(g, s1, Modify(1, 0, Twos(g)));
    var s2 := Effect(g, s1, Modify(1, 0, Twos(g)));
    Brelse(g, s2, 1);
    t := Released(s2, 1);
    Different(g);
    assert t.uses[1] == Use(None, 0, 0, false, true);
    forall k | 2 <= k < |t.bufs|
      ensures !Keyed(t.bufs[k], ROOTDEV, g.start + 1) && !Keyed(t.bufs[k], ROOTDEV, g.start) && t.uses[k].holder == None
    {
      assert Ready(g, s, k);
    }
  }

  lemma Ended(g: Geometry, s: State) returns (t: State)
    requires Roomy(g, |s.bufs|) && Reachable(g, s) && OneStray(g, s) && s.phase == Running
    requires s.log.ops == map[0 := LogSpace.Op(1, false)]
    ensures Reachable(g, t) && |t.bufs| == |s.bufs| && OneStray(g, t.(log := s.log)) && t.phase == Logging(0)
    ensures t.log.blocks == s.log.blocks
  {
    hide Reachable;
    ReachableStep(g, s, EndOp(0));
    t := Effect(g, s, EndOp(0));
  }

  /** write_log copies what the buffer holds. */
  lemma StrayCopied(g: Geometry, s: State) returns (t: State)
    requires Roomy(g, |s.bufs|) && Reachable(g, s) && s.phase == Logging(0) && s.log.blocks == [First(g)]
    requires OneStray(g, s.(log := s.log.(committing := false)))
    ensures Reachable(g, t) && |t.bufs| == |t.uses| == |s.bufs| && t.phase == Logging(1) && t.log == s.log
    ensures t.current == s.current && t.cached == s.cached && t.groups == [] && t.origin == s.origin
    ensures t.uses[0] == Idle && t.bufs[0].refcnt == 0 && |t.disk| == g.nblocks && |t.disk[g.start]| == g.words
    ensures forall k | 0 <= k < |t.bufs| :: !Keyed(t.bufs[k], ROOTDEV, g.start)
  {
    hide Reachable, Durable;
    Fetch(g, s, 0, g.start + 1, Logger);
    var s1 := Fetched(s, 0, g.start + 1, Logger);
    Bread(g, s1, 1, Logger);
    var s2 := Held(s1, 1, Logger);
    ReachableStep(g, s2, CopyToLog(0, 1));
    var s3 := Effect(g, s2, CopyToLog(0, 1));
    Brelse(g, s3, 1);
    var s4 := Released(s3, 1);
    Brelse(g, s4, 0);
    t := Released(s4, 0);
  }

  /** The commit is about to make contents durable that were never passed to log_write. */
  lemma StrayCommitted(g: Geometry, nbuf: nat) returns (s: State, i: nat, b: nat)
    requires Roomy(g, nbuf)
    ensures Reachable(g, s) && |s.bufs| == nbuf && Enabled(g, s, Commit(i)) && b < |s.origin|
    ensures b in s.current && b in s.cached && s.cached[b] != s.current[b]
    ensures var s' := Effect(g, s, Commit(i)); Durable(s'.origin, s'.groups)[b] == s.cached[b] == Twos(g)
  {
    hide Reachable, Durable;
    i, b := 0, First(g);
    var s0 := LogsOne(g, nbuf);
    var s1 := Strayed(g, s0);
    var s2 := Ended(g, s1);
    var s3 := StrayCopied(g, s2);
    Fetch(g, s3, 0, g.start, Logger);
    s := Fetched(s3, 0, g.start, Logger);
    Different(g);
    GroupIsDurable(g, s, 0, b);
  }

  /** A reader finds contents that were never passed to log_write. */
  lemma StrayRead(g: Geometry, nbuf: nat) returns (s: State, i: nat)
    requires Roomy(g, nbuf)
    ensures Reachable(g, s) && |s.bufs| == nbuf && i < |s.uses| && s.uses[i].holder == Some(Reader)
    ensures i < nbuf && s.bufs[i].blockno < |s.origin| && Holds(s, i, Reader, s.bufs[i].blockno)
    ensures s.phase == Running && s.bufs[i].data != Latest(s, s.bufs[i].blockno)
  {
    hide Reachable, Durable;
    i := 1;
    var s0 := LogsOne(g, nbuf);
    var s1 := Strayed(g, s0);
    Bread(g, s1, 1, Reader);
    s := Held(s1, 1, Reader);
    Different(g);
  }

  /** Or they are lost: bget recycles a buffer whose contents are not on disk. */
  lemma StrayRecycled(g: Geometry, nbuf: nat) returns (s: State, i: nat, b: nat)
    requires Roomy(g, nbuf)
    ensures Reachable(g, s) && |s.bufs| == nbuf && Enabled(g, s, Miss(i, b))
    ensures s.bufs[i].valid && s.bufs[i].blockno < |s.disk| && s.bufs[i].data != s.disk[s.bufs[i].blockno]
  {
    hide Reachable;
    i, b := 1, First(g) + 1;
    Boot(g, nbuf);
    BootCalm(g, nbuf);
    var s0 := Booted(g, nbuf);
    ReachableStep(g, s0, BeginOp(0));
    var s1 := Effect(g, s0, BeginOp(0));
    CalmKept(g, s0, s1);
    Fetch(g, s1, 1, First(g), Call(0));
    var s2 := Fetched(s1, 1, First(g), Call(0));
    ReachableStep(g, s2, Modify(1, 0, Twos(g)));
    var s3 := Effect(g, s2, Modify(1, 0, Twos(g)));
    Brelse(g, s3, 1);
    s := Released(s3, 1);
    assert Twos(g)[0] != Zeros(g)[0];
  }
}

/** Steps of the log machine for writing down single runs: bread and brelse with nobody
    else about, first boot on an empty disk, and a call that writes one block. */
module LogRuns {
  import opened Common
  import opened LogFormat
  import LogSpace
  import opened CacheEntry
  import opened LogMachine

  lemma {:induction false} PathAppend(g: Geometry, s: State, actions: seq<Action>, t: State, a: Action)
    requires ValidGeometry(g) && Path(g, s, actions, t) && Enabled(g, t, a)
    ensures Path(g, s, actions + [a], Effect(g, t, a))
    decreases |actions|
  {
    hide Enabled, Effect;
    if actions == [] {
      assert [a][1..] == [];
    } else {
      PathAppend(g, Effect(g, s, actions[0]), actions[1..], t, a);
      assert (actions + [a])[1..] == actions[1..] + [a];
    }
  }

  lemma ReachableStep(g: Geometry, s: State, a: Action)
    requires ValidGeometry(g) && Reachable(g, s) && Enabled(g, s, a)
    ensures Reachable(g, Effect(g, s, a))
  {
    hide Init, Enabled, Effect, Path;
    var s0, actions :| Init(g, s0) && Path(g, s0, actions, s);
    PathAppend(g, s0, actions, s, a);
  }

  // ---- bread and brelse ----

  /** Nobody uses buffer i. */
  predicate Unused(s: State, i: nat) {
    i < |s.bufs| == |s.uses| && s.uses[i] == Use(None, 0, 0, false, s.uses[i].stray)
  }

  function Held(s: State, i: nat, who: Agent): State
    requires i < |s.bufs| == |s.uses|
  {
    s.(bufs := s.bufs[i := Ref(s.bufs[i])], uses := s.uses[i := s.uses[i].(holder := Some(who))])
  }

  /** bread of a cached block. */
  lemma Bread(g: Geometry, s: State, i: nat, who: Agent)
    requires ValidGeometry(g) && Reachable(g, s) && Unused(s, i) && s.bufs[i].dev == ROOTDEV
    requires who.Call? ==> who.id in s.log.ops
    ensures Reachable(g, Held(s, i, who))
  {
    hide Reachable;
    ReachableStep(g, s, Hit(i, s.bufs[i].blockno));
    var t := Effect(g, s, Hit(i, s.bufs[i].blockno));
    ReachableStep(g, t, Lock(i, who));
    assert Effect(g, t, Lock(i, who)).uses == Held(s, i, who).uses;
  }

  function Fetched(s: State, i: nat, b: nat, who: Agent): State
    requires i < |s.bufs| == |s.uses| && b < |s.disk|
  {
    s.(bufs := s.bufs[i := Buf(ROOTDEV, b, true, 1, s.disk[b])],
      uses := s.uses[i := Use(Some(who), 0, 0, false, false)])
  }

  /** bread of a block that is not cached, into buffer i. */
  lemma Fetch(g: Geometry, s: State, i: nat, b: nat, who: Agent)
    requires ValidGeometry(g) && Reachable(g, s) && Unused(s, i) && s.bufs[i].refcnt == 0 && b < g.nblocks == |s.disk|
    requires forall k | 0 <= k < |s.bufs| :: !Keyed(s.bufs[k], ROOTDEV, b)
    requires who.Call? ==> who.id in s.log.ops
    ensures Reachable(g, Fetched(s, i, b, who))
  {
    hide Reachable;
    ReachableStep(g, s, Miss(i, b));
    var s1 := Effect(g, s, Miss(i, b));
    ReachableStep(g, s1, Lock(i, who));
    var s2 := Effect(g, s1, Lock(i, who));
    ReachableStep(g, s2, Fill(i));
    var s3 := Effect(g, s2, Fill(i));
    assert s3.bufs == Fetched(s, i, b, who).bufs && s3.uses == Fetched(s, i, b, who).uses;
  }

  function Released(s: State, i: nat): State
    requires i < |s.bufs| == |s.uses| && s.bufs[i].refcnt > 0
  {
    s.(bufs := s.bufs[i := Unref(s.bufs[i])], uses := s.uses[i := AfterUnlock(s, i).(leaving := 0)])
  }

  lemma Brelse(g: Geometry, s: State, i: nat)
    requires ValidGeometry(g) && Reachable(g, s)
    requires i < |s.bufs| == |s.uses| && s.bufs[i].refcnt > 0 && s.uses[i].holder.Some? && s.uses[i].leaving == 0
    ensures Reachable(g, Released(s, i))
  {
    hide Reachable;
    ReachableStep(g, s, Unlock(i));
    var t := Effect(g, s, Unlock(i));
    ReachableStep(g, t, Drop(i));
    assert Effect(g, t, Drop(i)).uses == Released(s, i).uses;
  }

  // ---- First boot ----

  function Zeros(g: Geometry): Block {
    seq(g.words, _ => 0)
  }

  function Ones(g: Geometry): Block {
    seq(g.words, _ => 1)
  }

  function Blank(g: Geometry): Disk {
    seq(g.nblocks, _ => Zeros(g))
  }

  function PoweredOn(g: Geometry, nbuf: nat): State {
    State(Blank(g), seq(nbuf, _ => FreshBuf), seq(nbuf, _ => Idle), LogSpace.Start, Booting, map[], map[], Blank(g), [])
  }

  lemma PowerOn(g: Geometry, nbuf: nat)
    requires ValidGeometry(g)
    ensures Reachable(g, PoweredOn(g, nbuf))
  {
    var s := PoweredOn(g, nbuf);
    assert ValidHeader(g, Zeros(g));
    assert EncodeHeader(Zeros(g), []) == Zeros(g);
    assert Recovered(g, Blank(g)) == Blank(g);
    assert s.bufs == Rebooted(s).bufs && s.uses == Rebooted(s).uses;
    assert Init(g, s) && Path(g, s, [], s);
  }

  /** Recovery has read the empty header into buffer 0; the other buffers are fresh. */
  function Booted(g: Geometry, nbuf: nat): State
    requires nbuf >= 1
  {
    var s := PoweredOn(g, nbuf);
    s.(bufs := s.bufs[0 := Buf(ROOTDEV, g.start, true, 0, Zeros(g))], phase := Running)
  }

  lemma Boot(g: Geometry, nbuf: nat)
    requires ValidGeometry(g) && nbuf >= 1
    ensures Reachable(g, Booted(g, nbuf))
  {
    hide Reachable;
    var s := PoweredOn(g, nbuf);
    PowerOn(g, nbuf);
    Fetch(g, s, 0, g.start, Logger);
    var s1 := Fetched(s, 0, g.start, Logger);
    ReachableStep(g, s1, ReadHead(0));
    var s2 := Effect(g, s1, ReadHead(0));
    assert s2.log.blocks == [];
    ReachableStep(g, s2, Clear(0));
    var s3 := Effect(g, s2, Clear(0));
    assert EncodeHeader(Zeros(g), []) == Zeros(g);
    Brelse(g, s3, 0);
    var s4 := Released(s3, 0);
    assert s4.bufs == Booted(g, nbuf).bufs && s4.uses == s.uses && s4.disk == s.disk;
  }

  // ---- Calls ----

  /** The first block that calls write here: not the one right behind the log area. */
  function First(g: Geometry): nat {
    g.start + g.space.size + 1
  }

  /** Buffer k is free: fresh, or it caches the k-th block from there. */
  predicate Ready(g: Geometry, s: State, k: nat) {
    && Unused(s, k) && !s.uses[k].stray
    && (s.bufs[k] == FreshBuf || (k >= 1 && Keyed(s.bufs[k], ROOTDEV, First(g) + k - 1) && s.bufs[k].valid))
  }

  predicate Marked(g: Geometry, s: State, b: nat) {
    && First(g) <= b < First(g) + g.space.size && b - First(g) + 1 < |s.bufs|
    && Keyed(s.bufs[b - First(g) + 1], ROOTDEV, b) && s.bufs[b - First(g) + 1].data == Ones(g)
  }

  /** Every buffer is free, buffer 0 for blocks of the log area; the disk is as at
      boot, and the logged blocks are full of ones. */
  predicate Calm(g: Geometry, s: State) {
    && |s.bufs| == |s.uses| >= 1
    && s.uses[0] == Idle && s.bufs[0].dev == ROOTDEV && s.bufs[0].refcnt == 0 && g.start == s.bufs[0].blockno
    && (forall k | 1 <= k < |s.bufs| :: Ready(g, s, k))
    && s.disk == s.origin == Blank(g) && s.groups == []
    && (forall j | 0 <= j < |s.log.blocks| :: Marked(g, s, s.log.blocks[j]))
  }

  lemma BootCalm(g: Geometry, nbuf: nat)
    requires ValidGeometry(g) && nbuf >= 1
    ensures Calm(g, Booted(g, nbuf))
  {
  }

  /** A call has read its block. */
  lemma BreadOne(g: Geometry, s: State, id: nat, b: nat) returns (t: State)
    requires ValidGeometry(g) && Reachable(g, s) && Calm(g, s) && id in s.log.ops
    requires First(g) <= b < g.nblocks && b - First(g) + 1 < |s.bufs|
    ensures Reachable(g, t)
    ensures var i := b - First(g) + 1;
            && |t.bufs| == |s.bufs|
            && t == s.(bufs := s.bufs[i := t.bufs[i]], uses := s.uses[i := Use(Some(Call(id)), 0, 0, false, false)])
            && Keyed(t.bufs[i], ROOTDEV, b) && t.bufs[i].valid && t.bufs[i].refcnt > 0
  {
    hide Reachable;
    var i := b - First(g) + 1;
    assert Ready(g, s, i);
    if s.bufs[i] == FreshBuf {
      forall k | 0 <= k < |s.bufs| ensures !Keyed(s.bufs[k], ROOTDEV, b) {
        if k >= 1 { assert Ready(g, s, k); }
      }
      Fetch(g, s, i, b, Call(id));
      t := Fetched(s, i, b, Call(id));
    } else {
      Bread(g, s, i, Call(id));
      t := Held(s, i, Call(id));
    }
  }

  /** bread, change, log_write, brelse, the guard having been passed. */
  lemma WriteOne(g: Geometry, s: State, id: nat, b: nat) returns (t: State)
    requires ValidGeometry(g) && Reachable(g, s) && Calm(g, s)
    requires First(g) <= b < First(g) + g.space.size <= g.nblocks && b - First(g) + 1 < |s.bufs|
    requires LogSpace.Enabled(g.space, s.log, LogSpace.Record(id, b))
    ensures Reachable(g, t) && Calm(g, t) && t.phase == s.phase && |t.bufs| == |s.bufs|
    ensures t.log == LogSpace.Effect(g.space, s.log, LogSpace.Record(id, b))
    ensures t.current == s.current[b := Ones(g)] && t.cached == s.cached[b := Ones(g)]
  {
    hide Reachable, Durable;
    var i := b - First(g) + 1;
    var s1 := BreadOne(g, s, id, b);
    ReachableStep(g, s1, Modify(i, id, Ones(g)));
    var s2 := Effect(g, s1, Modify(i, id, Ones(g)));
    ReachableStep(g, s2, LogWrite(i, id));
    var s3 := Effect(g, s2, LogWrite(i, id));
    Brelse(g, s3, i);
    t := Released(s3, i);
    assert t.uses[i] == Idle && Keyed(t.bufs[i], ROOTDEV, b) && t.bufs[i].valid && t.bufs[i].data == Ones(g);
    WroteCalm(g, s, t, b);
  }

  lemma WroteCalm(g: Geometry, s: State, t: State, b: nat)
    requires Calm(g, s) && First(g) <= b < First(g) + g.space.size && b - First(g) + 1 < |s.bufs|
    requires t.disk == s.disk && t.origin == s.origin && t.groups == s.groups
    requires |t.bufs| == |t.uses| == |s.bufs|
    requires forall k | 0 <= k < |s.bufs| && k != b - First(g) + 1 :: t.bufs[k] == s.bufs[k] && t.uses[k] == s.uses[k]
    requires var i := b - First(g) + 1;
      t.uses[i] == Idle && Keyed(t.bufs[i], ROOTDEV, b) && t.bufs[i].valid && t.bufs[i].data == Ones(g)
    requires t.log.blocks == s.log.blocks || t.log.blocks == s.log.blocks + [b]
    ensures Calm(g, t)
  {
    forall k | 1 <= k < |t.bufs| ensures Ready(g, t, k) {
      assert Ready(g, s, k);
    }
    forall j | 0 <= j < |t.log.blocks| ensures Marked(g, t, t.log.blocks[j]) {
      if j < |s.log.blocks| { assert Marked(g, s, s.log.blocks[j]); }
    }
  }

  /** Only the bookkeeping changed. */
  lemma CalmKept(g: Geometry, s: State, t: State)
    requires Calm(g, s)
    requires t == s.(log := t.log, phase := t.phase) && t.log.blocks == s.log.blocks
    ensures Calm(g, t)
  {
    forall k | 1 <= k < |t.bufs| ensures Ready(g, t, k) {
      assert Ready(g, s, k);
    }
    forall j | 0 <= j < |t.log.blocks| ensures Marked(g, t, t.log.blocks[j]) {
      assert Marked(g, s, s.log.blocks[j]);
    }
  }

  /** One step of the bookkeeping that fills the log. */
  lemma FillOne(g: Geometry, s: State, step: LogSpace.Step) returns (t: State)
    requires ValidGeometry(g) && Reachable(g, s) && Calm(g, s) && s.phase == Running
    requires First(g) + g.space.size <= g.nblocks && |s.bufs| > g.space.size
    requires LogSpace.Enabled(g.space, s.log, step) && LogSpace.Filling(g.space, First(g), step)
    ensures Reachable(g, t) && Calm(g, t) && t.phase == Running && |t.bufs| == |s.bufs|
    ensures t.log == LogSpace.Effect(g.space, s.log, step)
  {
    hide Reachable;
    match step
    case Begin(id) =>
      ReachableStep(g, s, BeginOp(id));
      t := Effect(g, s, BeginOp(id));
      CalmKept(g, s, t);
    case CheckRoom(id) =>
      ReachableStep(g, s, Guard(id));
      t := Effect(g, s, Guard(id));
      CalmKept(g, s, t);
    case Record(id, b) =>
      t := WriteOne(g, s, id, b);
  }

  lemma EndOne(g: Geometry, s: State, id: nat) returns (t: State)
    requires ValidGeometry(g) && Reachable(g, s) && Calm(g, s)
    requires id in s.log.ops && !s.log.ops[id].cleared && !s.log.committing
    ensures Reachable(g, t) && Calm(g, t) && t == AfterEnd(g, s, id)
  {
    hide Reachable;
    forall i | 0 <= i < |s.uses| ensures s.uses[i].holder != Some(Call(id)) {
      if i >= 1 { assert Ready(g, s, i); }
    }
    ReachableStep(g, s, EndOp(id));
    t := Effect(g, s, EndOp(id));
    CalmKept(g, s, t);
  }
}

/** Any amount of data through a pipe (kernel/pipe.c): one write call, one read call after
    the other, the writer sleeping whenever the pipe is full, until the last byte has
    come out. */
module PipeRun {
  import opened Common
  import opened Pipe

  ghost predicate AllBy(h: seq<Entry>, t: nat) {
    forall k | 0 <= k < |h| :: h[k].t == t
  }

  lemma {:induction false} AllMine(h: seq<Entry>, t: nat)
    requires AllBy(h, t)
    ensures Mine(h, t) == Bytes(h)
    decreases |h|
  {
    if h != [] {
      AllMine(h[..|h| - 1], t);
      assert Bytes(h) == Bytes(h[..|h| - 1]) + [h[|h| - 1].byte];
    }
  }

  /** Thread 0 writes, thread 1 reads, and nobody else is there. */
  ghost predicate Two(s: State, w: Pc, r: Pc) {
    && Reachable(s) && s.threads == [w, r] && s.readopen && s.writeopen && |s.data| == PIPESIZE
    && AllBy(s.put, 0) && AllBy(s.got, 1)
  }

  lemma Step(s: State, a: Action) returns (s': State)
    requires Reachable(s) && Enabled(s, a)
    ensures Reachable(s') && s' == Effect(s, a)
  {
    hide Reachable, Enabled, Effect;
    ReachableStep(s, a);
    s' := Effect(s, a);
  }

  /** The writer puts bytes until it has no more or the pipe is full. */
  lemma {:induction false} Fills(s: State, src: seq<Byte>, i: nat, news: bool) returns (s': State, j: nat, news': bool)
    requires Two(s, Write(src, i, [], news), Idle) && i <= |src| && s.lock == Some(0)
    ensures i <= j <= |src| && Two(s', Write(src, j, [], news'), Idle) && s'.lock == Some(0) && (j == |src| || Full(s'))
    ensures Empty(s) && i < |src| ==> j > i
    decreases |src| - i
  {
    hide Reachable, Mine;
    ReachableInv(s);
    FullOrEmpty(s);
    if i == |src| || Full(s) {
      s', j, news' := s, i, news;
    } else {
      var s1 := Step(s, Run(0));
      assert s1.threads == [Write(src, i + 1, [], true), Idle];
      s', j, news' := Fills(s1, src, i + 1, true);
    }
  }

  /** The reader takes all there is. */
  lemma {:induction false} Drains(s: State, w: Pc, out: seq<Byte>, before: seq<Byte>) returns (s': State,
    out': seq<Byte>)
    requires Two(s, w, Read(PIPESIZE, out, before)) && s.lock == Some(1) && |out| + Count(s) <= PIPESIZE
    ensures Two(s', w, Read(PIPESIZE, out', before)) && s'.lock == Some(1) && Empty(s') && s'.put == s.put
    decreases Count(s)
  {
    hide Reachable, Mine;
    ReachableInv(s);
    FullOrEmpty(s);
    if Empty(s) {
      s', out' := s, out;
    } else {
      var s1 := Step(s, Run(1));
      GotCount(s);
      assert s1.threads == [w, Read(PIPESIZE, out + [s.data[s.nread % PIPESIZE]], before)];
      s', out' := Drains(s1, w, s1.threads[1].out, before);
    }
  }

  /** A read call, from its start to its return; it wakes the writer. */
  lemma ReadCall(s: State, w: Pc) returns (s': State)
    requires Two(s, w, Idle) && s.lock == None && !Empty(s) && (w.Idle? || w.WriteSleep?)
    ensures Two(s', Woken(w, false), Idle) && s'.lock == None && Empty(s') && s'.put == s.put
  {
    hide Reachable, Mine;
    ReachableInv(s);
    var before := Mine(s.got, 1);
    var s1 := Step(s, StartRead(1, PIPESIZE));
    assert s1.threads == [w, ReadEnter(PIPESIZE, [], before)];
    var s2 := Step(s1, Run(1));
    assert s2.threads == [w, ReadWait(PIPESIZE, [], before)];
    var s3 := Step(s2, Run(1));
    assert s3.threads == [w, Read(PIPESIZE, [], before)];
    var s4, out := Drains(s3, w, [], before);
    var s5 := Step(s4, Run(1));
    assert s5.threads == [Woken(w, false), ReadLeave(PIPESIZE, out, [], before, |out|)];
    s' := Step(s5, Run(1));
    assert s'.threads == [Woken(w, false), Idle];
  }

  /** The writer is inside its loop; it and the readers carry on until all is through. */
  lemma {:induction false} CarriesOn(s: State, src: seq<Byte>, i: nat, news: bool) returns (s': State)
    requires Two(s, Write(src, i, [], news), Idle) && i <= |src| && s.lock == Some(0) && Empty(s)
    ensures Two(s', Idle, Idle) && s'.lock == None && Empty(s') && Mine(s'.put, 0) == src
    decreases |src| - i
  {
    hide Reachable, Mine;
    var s1, j, news1 := Fills(s, src, i, news);
    if j == |src| {
      s' := WriterReturns(s1, src, news1);
      if !Empty(s') { s' := ReadCall(s', Idle); }
    } else {
      FullIsNotEmpty(s1);
      var s2 := Step(s1, Run(0));
      assert s2.threads == [WriteSleep(src, j, [], false), Idle];
      var s3 := ReadCall(s2, WriteSleep(src, j, [], false));
      var s4 := Step(s3, Wake(0));
      assert s4.threads == [Write(src, j, [], false), Idle];
      s' := CarriesOn(s4, src, j, false);
    }
  }

  lemma FullIsNotEmpty(s: State)
    requires Reachable(s) && Full(s)
    ensures !Empty(s)
  {
    hide Reachable;
    ReachableInv(s);
    FullOrEmpty(s);
  }

  lemma WriterReturns(s: State, src: seq<Byte>, news: bool) returns (s': State)
    requires Two(s, Write(src, |src|, [], news), Idle) && s.lock == Some(0)
    ensures Two(s', Idle, Idle) && s'.lock == None && Mine(s'.put, 0) == src
  {
    hide Reachable, Mine;
    var s1 := Step(s, Run(0));
    assert s1.threads == [WriteLeave(src, |src|, [], false, |src|), Idle];
    CallsMoveTheirBytes(s1, 0);
    assert [] + src[..|src|] == src;
    s' := Step(s1, Run(0));
    assert s'.threads == [Idle, Idle];
  }

  /** For every text there is a run in which one write call puts it into the pipe, read
      calls take it out, and exactly the text arrives. */
  lemma AllGetsThrough(src: seq<Byte>) returns (s: State)
    ensures Reachable(s) && s.threads == [Idle, Idle] && s.lock == None && Empty(s)
    ensures Mine(s.put, 0) == src && Mine(s.got, 1) == src
  {
    hide Reachable, Mine;
    var s0 := State(seq(PIPESIZE, _ => 0), 0, 0, true, true, None, [Idle, Idle], [], []);
    assert Reachable(s0) by { Started(s0); }
    assert Mine([], 0) == [] by { NothingYet(); }
    var s1 := Step(s0, StartWrite(0, src));
    assert s1.threads == [WriteEnter(src, 0, []), Idle];
    var s2 := Step(s1, Run(0));
    assert s2.threads == [Write(src, 0, [], false), Idle];
    s := CarriesOn(s2, src, 0, false);
    AllMine(s.put, 0);
    AllMine(s.got, 1);
    assert Bytes(s.got) == Bytes(s.put) by { Drained(s); }
  }

  lemma NothingYet()
    ensures Mine([], 0) == []
  {
  }

  lemma Started(s: State)
    requires Init(s)
    ensures Reachable(s)
  {
    assert Path(s, [], s);
  }

  lemma Drained(s: State)
    requires Reachable(s) && Empty(s)
    ensures Bytes(s.got) == Bytes(s.put)
  {
    hide Reachable;
    ReachableInv(s);
    FullOrEmpty(s);
  }
}

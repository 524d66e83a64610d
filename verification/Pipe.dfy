/** Pipes (kernel/pipe.c) as a state machine: any number of readers and writers, which
    may sleep in the middle of a call. The lock is held from one sleep to the next, and
    the counters are 32 bits wide and wrap around. A sleeping thread stays asleep until
    a wakeup on its channel, or a kill, reaches it. */
module Pipe {
  import opened Common

  const PIPESIZE: nat := 512
  const WRAP: nat := 0x1_0000_0000

  type Byte = x: int | 0 <= x < 256

  /** A byte and the thread that put it into the pipe, or took it out. */
  datatype Entry = Entry(t: nat, byte: Byte)

  /** A thread's place. src is what it writes, and i how much of it is written; news
      means that it has put bytes since it last took the lock. n is how much it wants to
      read, and out what has reached its memory. before is what it had written, or read,
      before this call. */
  datatype Pc =
    | Idle
    | WriteEnter(src: seq<Byte>, i: nat, before: seq<Byte>)
    | Write(src: seq<Byte>, i: nat, before: seq<Byte>, news: bool)
    | WriteSleep(src: seq<Byte>, i: nat, before: seq<Byte>, woken: bool)
    | WriteLeave(src: seq<Byte>, i: nat, before: seq<Byte>, failed: bool, r: int) // failed: copyin did
    | ReadEnter(n: nat, out: seq<Byte>, before: seq<Byte>)
    | ReadWait(n: nat, out: seq<Byte>, before: seq<Byte>)
    | ReadSleep(n: nat, out: seq<Byte>, before: seq<Byte>, woken: bool)
    | Read(n: nat, out: seq<Byte>, before: seq<Byte>)
    | ReadLeave(n: nat, out: seq<Byte>, lost: seq<Byte>, before: seq<Byte>, r: int) // lost was taken but not copied

  /** put and got record every byte that went in and came out. */
  datatype State = State(
    data: seq<Byte>, nread: nat, nwrite: nat, readopen: bool, writeopen: bool,
    lock: Option<nat>, threads: seq<Pc>, put: seq<Entry>, got: seq<Entry>)

  datatype Action =
    | StartWrite(t: nat, src: seq<Byte>)
    | StartRead(t: nat, n: nat)
    | Run(t: nat)
    | Wake(t: nat)            // a woken thread takes the lock again
    | Kill(t: nat)            // kill wakes a sleeping thread
    | Killed(t: nat)          // the thread finds itself killed where it would sleep
    | CopyFails(t: nat)       // copyin or copyout fails
    | Close(writable: bool)   // the last descriptor for one end is closed

  predicate Init(s: State) {
    && |s.data| == PIPESIZE && s.nread == 0 && s.nwrite == 0 && s.lock == None && s.readopen && s.writeopen
    && (forall t: nat | t < |s.threads| :: s.threads[t] == Idle) && s.put == [] && s.got == []
  }

  // ---- The code ----

  function Inc(n: nat): nat {
    (n + 1) % WRAP
  }

  predicate Full(s: State) {
    s.nwrite == (s.nread + PIPESIZE) % WRAP
  }

  predicate Empty(s: State) {
    s.nread == s.nwrite
  }

  /** One byte goes into the ring. */
  function Put(s: State, t: nat, ch: Byte): State
    requires |s.data| == PIPESIZE
  {
    s.(data := s.data[s.nwrite % PIPESIZE := ch], nwrite := Inc(s.nwrite), put := s.put + [Entry(t, ch)])
  }

  /** The oldest byte comes out of the ring. */
  function Got(s: State, t: nat): State
    requires |s.data| == PIPESIZE
  {
    s.(nread := Inc(s.nread), got := s.got + [Entry(t, s.data[s.nread % PIPESIZE])])
  }

  /** wakeup on the channel of the sleeping readers, or of the sleeping writers. */
  function Woken(pc: Pc, readers: bool): Pc {
    match pc
    case ReadSleep(n, out, before, woken) => ReadSleep(n, out, before, woken || readers)
    case WriteSleep(src, i, before, woken) => WriteSleep(src, i, before, woken || !readers)
    case _ => pc
  }

  function Wakeup(s: State, readers: bool): (s': State)
    ensures |s'.threads| == |s.threads|
  {
    s.(threads := seq(|s.threads|, t requires 0 <= t < |s.threads| => Woken(s.threads[t], readers)))
  }

  function Goto(s: State, t: nat, pc: Pc): State
    requires t < |s.threads|
  {
    s.(threads := s.threads[t := pc])
  }

  predicate Sleeps(pc: Pc) {
    pc.WriteSleep? || pc.ReadSleep?
  }

  predicate Locks(pc: Pc) {
    pc.Write? || pc.WriteLeave? || pc.ReadWait? || pc.Read? || pc.ReadLeave?
  }

  predicate Reading(pc: Pc) {
    pc.ReadEnter? || pc.ReadWait? || pc.ReadSleep? || pc.Read? || pc.ReadLeave?
  }

  predicate Writing(pc: Pc) {
    pc.WriteEnter? || pc.Write? || pc.WriteSleep? || pc.WriteLeave?
  }

  predicate CanRun(s: State, t: nat) {
    && |s.data| == PIPESIZE && t < |s.threads| && !s.threads[t].Idle? && !Sleeps(s.threads[t])
    && (s.threads[t].WriteEnter? || s.threads[t].ReadEnter? ==> s.lock == None)
    && (s.threads[t].Write? ==> s.threads[t].i <= |s.threads[t].src|)
  }

  function Statement(s: State, t: nat): (s': State)
    requires CanRun(s, t)
    ensures |s'.threads| == |s.threads|
  {
    match s.threads[t]
    case WriteEnter(src, i, before) => Goto(s.(lock := Some(t)), t, Write(src, i, before, false))
    case Write(src, i, before, _) =>
      if i == |src| then Goto(Wakeup(s, true), t, WriteLeave(src, i, before, false, i))
      else if Full(s) then
        if !s.readopen then Goto(s, t, WriteLeave(src, i, before, false, -1))
        else Goto(Wakeup(s, true).(lock := None), t, WriteSleep(src, i, before, false))
      else Goto(Put(s, t, src[i]), t, Write(src, i + 1, before, true))
    case ReadEnter(n, out, before) => Goto(s.(lock := Some(t)), t, ReadWait(n, out, before))
    case ReadWait(n, out, before) =>
      if Empty(s) && s.writeopen then Goto(s.(lock := None), t, ReadSleep(n, out, before, false))
        else Goto(s, t, Read(n, out, before))
    case Read(n, out, before) =>
      if |out| >= n || Empty(s) then Goto(Wakeup(s, false), t, ReadLeave(n, out, [], before, |out|))
      else Goto(Got(s, t), t, Read(n, out + [s.data[s.nread % PIPESIZE]], before))
    case WriteLeave(_, _, _, _, _) => Goto(s.(lock := None), t, Idle)
    case ReadLeave(_, _, _, _, _) => Goto(s.(lock := None), t, Idle)
    case _ => s
  }

  predicate Enabled(s: State, a: Action) {
    match a
    case StartWrite(t, src) => t < |s.threads| && s.threads[t] == Idle && s.writeopen
    case StartRead(t, n) => t < |s.threads| && s.threads[t] == Idle && s.readopen
    case Run(t) => CanRun(s, t)
    case Wake(t) => t < |s.threads| && Sleeps(s.threads[t]) && s.threads[t].woken && s.lock == None
    case Kill(t) => t < |s.threads| && Sleeps(s.threads[t])
    case Killed(t) =>
      && t < |s.threads|
      && ((s.threads[t].Write? && s.threads[t].i < |s.threads[t].src| && Full(s))
        || (s.threads[t].ReadWait? && Empty(s) && s.writeopen))
    case CopyFails(t) =>
      && t < |s.threads| && |s.data| == PIPESIZE
      && ((s.threads[t].Write? && s.threads[t].i < |s.threads[t].src| && !Full(s))
        || (s.threads[t].Read? && |s.threads[t].out| < s.threads[t].n && !Empty(s)))
    case Close(writable) =>
      s.lock == None && forall t: nat | t < |s.threads| ::
        if writable then !Writing(s.threads[t]) else !Reading(s.threads[t])
  }

  function Effect(s: State, a: Action): (s': State)
    requires Enabled(s, a)
    ensures |s'.threads| == |s.threads|
  {
    match a
    case StartWrite(t, src) => Goto(s, t, WriteEnter(src, 0, Mine(s.put, t)))
    case StartRead(t, n) => Goto(s, t, ReadEnter(n, [], Mine(s.got, t)))
    case Run(t) => Statement(s, t)
    case Wake(t) =>
      var pc := s.threads[t];
      Goto(s.(lock := Some(t)), t, if pc.WriteSleep? then Write(pc.src, pc.i, pc.before, false)
        else ReadWait(pc.n, pc.out, pc.before))
    case Kill(t) => Goto(s, t, s.threads[t].(woken := true))
    case Killed(t) =>
      var pc := s.threads[t];
      Goto(s, t, if pc.Write? then WriteLeave(pc.src, pc.i, pc.before, false, -1)
                 else ReadLeave(pc.n, pc.out, [], pc.before, -1))
    case CopyFails(t) =>
      // a failing copyin loses nothing; a failing copyout has taken the byte
      var pc := s.threads[t];
      if pc.Write? then Goto(Wakeup(s, true), t, WriteLeave(pc.src, pc.i, pc.before, true, pc.i))
      else
        Goto(Wakeup(Got(s, t), false), t,
          ReadLeave(pc.n, pc.out, [s.data[s.nread % PIPESIZE]], pc.before, |pc.out|))
    case Close(writable) =>
      if writable then Wakeup(s, true).(writeopen := false) else Wakeup(s, false).(readopen := false)
  }

  /** The bytes of thread t, in order. */
  function Mine(h: seq<Entry>, t: nat): seq<Byte> {
    if h == [] then []
    else Mine(h[..|h| - 1], t) + (if h[|h| - 1].t == t then [h[|h| - 1].byte] else [])
  }

  function Bytes(h: seq<Entry>): (b: seq<Byte>)
    ensures |b| == |h|
  {
    seq(|h|, k requires 0 <= k < |h| => h[k].byte)
  }

  ghost predicate Path(s: State, actions: seq<Action>, s': State)
    decreases |actions|
  {
    if actions == [] then s == s'
    else Enabled(s, actions[0]) && Path(Effect(s, actions[0]), actions[1..], s')
  }

  ghost predicate Reachable(s: State) {
    exists s0, actions :: Init(s0) && Path(s0, actions, s)
  }

  // ---- The buffer ----

  /** The number of bytes in the pipe, nwrite - nread modulo 2^32. */
  function Count(s: State): nat {
    (s.nwrite + WRAP - s.nread % WRAP) % WRAP
  }

  /** The kth byte in the pipe is the kth that was put in and not yet taken out. */
  predicate ByteOk(s: State, k: nat)
    requires |s.data| == PIPESIZE && k < Count(s) && |s.got| + Count(s) == |s.put|
  {
    s.data[(s.nread + k) % PIPESIZE] == s.put[|s.got| + k].byte
  }

  ghost predicate BufferOk(s: State) {
    && |s.data| == PIPESIZE && s.nread < WRAP && s.nwrite < WRAP && Count(s) <= PIPESIZE
    && |s.got| + Count(s) == |s.put|
    && (forall k: nat | k < Count(s) :: ByteOk(s, k))
    && (forall k: nat | k < |s.got| :: s.got[k].byte == s.put[k].byte)
  }

  lemma FullOrEmpty(s: State)
    requires s.nread < WRAP && s.nwrite < WRAP && Count(s) <= PIPESIZE
    ensures Full(s) <==> Count(s) == PIPESIZE
    ensures Empty(s) <==> Count(s) == 0
  {
  }

  lemma CountIs(s: State)
    requires s.nread < WRAP && s.nwrite < WRAP
    ensures Count(s) == if s.nread <= s.nwrite then s.nwrite - s.nread else s.nwrite + WRAP - s.nread
  {
  }

  lemma PutCount(s: State)
    requires s.nread < WRAP && s.nwrite < WRAP && Count(s) < PIPESIZE
    ensures Count(s.(nwrite := Inc(s.nwrite))) == Count(s) + 1
  {
    CountIs(s);
    CountIs(s.(nwrite := Inc(s.nwrite)));
  }

  lemma PutSlot(s: State)
    requires s.nread < WRAP && s.nwrite < WRAP
    ensures (s.nread + Count(s)) % PIPESIZE == s.nwrite % PIPESIZE
  {
    CountIs(s);
  }

  lemma OtherSlot(s: State, k: nat)
    requires s.nread < WRAP && s.nwrite < WRAP && k < Count(s) < PIPESIZE
    ensures (s.nread + k) % PIPESIZE != s.nwrite % PIPESIZE
  {
    CountIs(s);
  }

  lemma GotCount(s: State)
    requires s.nread < WRAP && s.nwrite < WRAP && 0 < Count(s) <= PIPESIZE
    ensures Count(s.(nread := Inc(s.nread))) == Count(s) - 1
  {
    CountIs(s);
    CountIs(s.(nread := Inc(s.nread)));
  }

  lemma GotSlot(n: nat, k: nat)
    requires n < WRAP
    ensures (Inc(n) + k) % PIPESIZE == (n + (k + 1)) % PIPESIZE
  {
  }

  lemma PutKept(s: State, t: nat, ch: Byte)
    requires BufferOk(s) && !Full(s)
    ensures BufferOk(Put(s, t, ch))
  {
    FullOrEmpty(s);
    PutCount(s);
    PutSlot(s);
    var s' := Put(s, t, ch);
    forall k: nat | k < Count(s') ensures ByteOk(s', k) {
      if k < Count(s) { OtherSlot(s, k); assert ByteOk(s, k); }
    }
  }

  lemma GotKept(s: State, t: nat)
    requires BufferOk(s) && !Empty(s)
    ensures BufferOk(Got(s, t))
  {
    FullOrEmpty(s);
    GotCount(s);
    var s' := Got(s, t);
    assert ByteOk(s, 0) && Count(s') == Count(s) - 1;
    forall k: nat | k < Count(s') ensures ByteOk(s', k) { GotSlot(s.nread, k); assert ByteOk(s, k + 1); }
  }

  // ---- Each thread's own bytes ----

  /** What thread t has written and read is what its place says. */
  predicate ThreadOk(s: State, t: nat)
    requires t < |s.threads|
  {
    var pc := s.threads[t];
    && (s.lock == Some(t) <==> Locks(pc))
    && (Writing(pc) ==> s.writeopen && pc.i <= |pc.src| && Mine(s.put, t) == pc.before + pc.src[..pc.i])
    && (pc.WriteLeave? ==> pc.r == -1 || pc.r == pc.i)
    && (Reading(pc) ==> s.readopen)
    && (Reading(pc) && !pc.ReadLeave? ==> Mine(s.got, t) == pc.before + pc.out)
    && (pc.ReadLeave? ==>
        Mine(s.got, t) == pc.before + pc.out + pc.lost && |pc.lost| <= 1 && (pc.r == -1 || pc.r == |pc.out|))
    && (pc.ReadLeave? && pc.r == -1 ==> pc.lost == [])
    && (pc.ReadEnter? || pc.ReadWait? || pc.ReadSleep? ==> pc.out == [])
    && (pc.ReadLeave? && pc.r == -1 ==> pc.out == [])
  }

  lemma MineMore(h: seq<Entry>, t: nat, ch: Byte, u: nat)
    ensures Mine(h + [Entry(t, ch)], u) == if u == t then Mine(h, u) + [ch] else Mine(h, u)
  {
    assert (h + [Entry(t, ch)])[..|h|] == h;
  }

  lemma WriteSelf(s: State, t: nat)
    requires CanRun(s, t) && ThreadOk(s, t) && s.threads[t].Write?
    ensures ThreadOk(Statement(s, t), t)
  {
    hide Mine, Full, Empty, Woken;
    var src, i := s.threads[t].src, s.threads[t].i;
    if i < |src| {
      MineMore(s.put, t, src[i], t);
      assert src[..i + 1] == src[..i] + [src[i]];
    }
  }

  lemma RunSelf(s: State, t: nat)
    requires CanRun(s, t) && ThreadOk(s, t) && !s.threads[t].Write?
    ensures ThreadOk(Statement(s, t), t)
  {
    hide Mine, Full, Empty, Woken;
    match s.threads[t]
    case Read(n, out, before) =>
      MineMore(s.got, t, s.data[s.nread % PIPESIZE], t);
      assert before + out + [] == before + out;
    case _ =>
  }

  lemma RunOther(s: State, t: nat, q: nat)
    requires CanRun(s, t) && q < |s.threads| && q != t && ThreadOk(s, t) && ThreadOk(s, q)
    ensures ThreadOk(Statement(s, t), q)
  {
    hide Mine, Full, Empty;
    match s.threads[t]
    case Write(src, i, before, _) => if i < |src| { MineMore(s.put, t, src[i], q); }
    case Read(n, out, before) => MineMore(s.got, t, s.data[s.nread % PIPESIZE], q);
    case _ =>
  }

  lemma OtherSelf(s: State, a: Action)
    requires Enabled(s, a) && !a.Run? && !a.Close? && a.t < |s.threads| && ThreadOk(s, a.t)
    ensures ThreadOk(Effect(s, a), a.t)
  {
    hide Mine, Full, Empty;
    match a
    case CopyFails(t) => if s.threads[t].Read? { MineMore(s.got, t, s.data[s.nread % PIPESIZE], t); }
    case StartWrite(t, src) => assert Mine(s.put, t) + src[..0] == Mine(s.put, t);
    case StartRead(t, n) => assert Mine(s.got, t) + [] == Mine(s.got, t);
    case Killed(t) =>
      var pc := s.threads[t];
      if pc.ReadWait? { assert pc.before + pc.out + [] == pc.before + pc.out; }
    case _ =>
  }

  lemma OtherThread(s: State, a: Action, q: nat)
    requires Enabled(s, a) && !a.Run? && !a.Close? && q < |s.threads| && a.t < |s.threads| && q != a.t
      && ThreadOk(s, a.t) && ThreadOk(s, q)
    ensures ThreadOk(Effect(s, a), q)
  {
    hide Mine, Full, Empty;
    match a
    case CopyFails(t) => if s.threads[t].Read? { MineMore(s.got, t, s.data[s.nread % PIPESIZE], q); }
    case _ =>
  }

  ghost predicate Inv(s: State) {
    BufferOk(s) && (s.lock.Some? ==> s.lock.value < |s.threads|) && forall t: nat | t < |s.threads| :: ThreadOk(s, t)
  }

  lemma SameBuffer(s: State, s': State)
    requires BufferOk(s) && s'.data == s.data && s'.nread == s.nread && s'.nwrite == s.nwrite && s'.put == s.put
      && s'.got == s.got
    ensures BufferOk(s')
  {
    forall k: nat | k < Count(s') ensures ByteOk(s', k) { assert ByteOk(s, k); }
  }

  /** The step puts a byte, or takes one. */
  predicate Puts(s: State, a: Action)
    requires Enabled(s, a)
  {
    a.Run? && s.threads[a.t].Write? && s.threads[a.t].i < |s.threads[a.t].src| && !Full(s)
  }

  predicate Takes(s: State, a: Action)
    requires Enabled(s, a)
  {
    || (a.Run? && s.threads[a.t].Read? && |s.threads[a.t].out| < s.threads[a.t].n && !Empty(s))
    || (a.CopyFails? && s.threads[a.t].Read?)
  }

  lemma StepBuffer(s: State, a: Action)
    requires Enabled(s, a) && BufferOk(s)
    ensures BufferOk(Effect(s, a))
  {
    hide BufferOk, Mine, Full, Empty, Wakeup;
    var s' := Effect(s, a);
    if Puts(s, a) {
      var ch := s.threads[a.t].src[s.threads[a.t].i];
      PutKept(s, a.t, ch);
      SameBuffer(Put(s, a.t, ch), s');
    } else if Takes(s, a) {
      GotKept(s, a.t);
      WakeupBuffer(Got(s, a.t));
      SameBuffer(Got(s, a.t), s');
    } else {
      WakeupBuffer(s);
      SameBuffer(s, s');
    }
  }

  lemma WakeupBuffer(s: State)
    ensures forall readers :: var s' := Wakeup(s, readers); s' == s.(threads := s'.threads)
  {
  }

  lemma StepKept(s: State, a: Action)
    requires Inv(s) && Enabled(s, a)
    ensures Inv(Effect(s, a))
  {
    hide BufferOk, ThreadOk, Full, Empty, Mine, Woken;
    StepBuffer(s, a);
    var s' := Effect(s, a);
    LockInRange(s, a);
    forall q: nat | q < |s'.threads| ensures ThreadOk(s', q) {
      assert ThreadOk(s, q);
      if a.Close? { CloseThread(s, a, q); }
      else if a.Run? && q == a.t { if s.threads[q].Write? { WriteSelf(s, q); } else { RunSelf(s, q); } }
      else if a.Run? { RunOther(s, a.t, q); }
      else if q == a.t { OtherSelf(s, a); }
      else { OtherThread(s, a, q); }
    }
  }

  lemma LockInRange(s: State, a: Action)
    requires Enabled(s, a) && (s.lock.Some? ==> s.lock.value < |s.threads|)
    ensures var s' := Effect(s, a); s'.lock.Some? ==> s'.lock.value < |s'.threads|
  {
    hide Full, Empty, Mine, Woken;
  }

  lemma CloseThread(s: State, a: Action, q: nat)
    requires Enabled(s, a) && a.Close? && q < |s.threads| && ThreadOk(s, q)
    ensures ThreadOk(Effect(s, a), q)
  {
    hide Mine;
  }

  lemma {:induction false} PathKept(s: State, actions: seq<Action>, s': State)
    requires Inv(s) && Path(s, actions, s')
    ensures Inv(s')
    decreases |actions|
  {
    hide Effect, Inv, Enabled;
    if actions != [] {
      StepKept(s, actions[0]);
      PathKept(Effect(s, actions[0]), actions[1..], s');
    }
  }

  lemma InitInv(s: State)
    requires Init(s)
    ensures Inv(s)
  {
  }

  lemma ReachableInv(s: State)
    requires Reachable(s)
    ensures Inv(s)
  {
    hide Inv, Init;
    var s0, actions :| Init(s0) && Path(s0, actions, s);
    InitInv(s0);
    PathKept(s0, actions, s);
  }

  /** First in, first out, through every interleaving and wrap-around: what has come
      out is a prefix of what has gone in, and the rest, at most PIPESIZE bytes, is in
      the buffer. */
  lemma FirstInFirstOut(s: State)
    requires Reachable(s)
    ensures Bytes(s.got) <= Bytes(s.put) && |s.put| - |s.got| == Count(s) <= PIPESIZE
  {
    hide ThreadOk;
    ReachableInv(s);
    var g, p := Bytes(s.got), Bytes(s.put);
    forall k: nat | k < |g| ensures g[k] == p[k] { assert s.got[k].byte == s.put[k].byte; }
    assert g == p[..|g|];
  }

  /** At any time, and when it returns, a write has put exactly the first i bytes of what
      it was given, in order; it returns i, or -1. A read that returns r has copied r
      bytes, the first r of those it took; it took one more only if copyout failed, and
      none if it returns -1. */
  lemma CallsMoveTheirBytes(s: State, t: nat)
    requires Reachable(s) && t < |s.threads|
    ensures var pc := s.threads[t]; Writing(pc) ==> pc.i <= |pc.src| && Mine(s.put, t) == pc.before + pc.src[..pc.i]
    ensures var pc := s.threads[t]; pc.WriteLeave? ==> pc.r == -1 || pc.r == pc.i
    ensures var pc := s.threads[t];
      pc.ReadLeave? && pc.r >= 0 ==>
        |pc.out| == pc.r && |pc.lost| <= 1 && Mine(s.got, t) == pc.before + pc.out + pc.lost
    ensures var pc := s.threads[t];
      pc.ReadLeave? && pc.r < 0 ==> pc.r == -1 && pc.out == [] && Mine(s.got, t) == pc.before
  {
    hide BufferOk;
    ReachableInv(s);
    assert ThreadOk(s, t);
    var pc := s.threads[t];
    if pc.ReadLeave? && pc.r < 0 { assert pc.before + pc.out + pc.lost == pc.before; }
  }

  // ---- When calls are over ----

  /** A read takes no more than it was asked for, and less only if the pipe is empty or
      copyout failed; a write puts all it was given, or copyin failed. */
  predicate Satisfied(s: State, t: nat)
    requires t < |s.threads|
  {
    var pc := s.threads[t];
    && (pc.Read? ==> |pc.out| <= pc.n)
    && (pc.ReadLeave? && pc.r >= 0 ==> |pc.out| <= pc.n && (|pc.out| < pc.n ==> pc.lost != [] || Empty(s)))
    && (pc.WriteLeave? && pc.r >= 0 ==> pc.i == |pc.src| || pc.failed)
    && (pc.WriteLeave? && pc.r < 0 ==> Full(s) && pc.i < |pc.src|)
  }

  ghost predicate AllSatisfied(s: State) {
    forall t: nat | t < |s.threads| :: Satisfied(s, t)
  }

  lemma SatisfiedSelf(s: State, a: Action, t: nat)
    requires Inv(s) && AllSatisfied(s) && Enabled(s, a) && !a.Close? && a.t == t && t < |s.threads|
    ensures Satisfied(Effect(s, a), t)
  {
    hide BufferOk, Mine;
    assert ThreadOk(s, t) && Satisfied(s, t);
  }

  /** Only the holder of the lock moves bytes. */
  lemma SatisfiedOther(s: State, a: Action, q: nat)
    requires Inv(s) && AllSatisfied(s) && Enabled(s, a) && q < |s.threads| && !a.Close? && a.t != q
    ensures Satisfied(Effect(s, a), q)
  {
    hide BufferOk, Mine;
    assert ThreadOk(s, q) && Satisfied(s, q) && ThreadOk(s, a.t);
  }

  lemma SatisfiedClose(s: State, a: Action, q: nat)
    requires Inv(s) && AllSatisfied(s) && Enabled(s, a) && q < |s.threads| && a.Close?
    ensures Satisfied(Effect(s, a), q)
  {
    hide BufferOk, Mine;
    assert ThreadOk(s, q) && Satisfied(s, q);
  }

  lemma SatisfiedStep(s: State, a: Action)
    requires Inv(s) && AllSatisfied(s) && Enabled(s, a)
    ensures AllSatisfied(Effect(s, a))
  {
    hide Inv, Satisfied, Enabled;
    forall q: nat | q < |Effect(s, a).threads| ensures Satisfied(Effect(s, a), q) {
      if a.Close? { SatisfiedClose(s, a, q); }
      else if a.t == q { SatisfiedSelf(s, a, q); }
      else { SatisfiedOther(s, a, q); }
    }
  }

  lemma {:induction false} SatisfiedPath(s: State, actions: seq<Action>, s': State)
    requires Inv(s) && AllSatisfied(s) && Path(s, actions, s')
    ensures AllSatisfied(s')
    decreases |actions|
  {
    hide Inv, AllSatisfied, Enabled, Effect;
    if actions != [] {
      StepKept(s, actions[0]);
      SatisfiedStep(s, actions[0]);
      SatisfiedPath(Effect(s, actions[0]), actions[1..], s');
    }
  }

  /** A read that returns r >= 0 has r <= n bytes, and if r < n then the pipe was empty when
      it gave up the lock, or copyout failed. A write that returns r >= 0 has put all its
      bytes, or copyin failed; it returns -1 only from a full pipe. */
  lemma CallsDoAllTheyCan(s: State, t: nat)
    requires Reachable(s) && t < |s.threads|
    ensures var pc := s.threads[t]; pc.ReadLeave? && pc.r >= 0 ==> pc.r <= pc.n && |pc.out| == pc.r
    ensures var pc := s.threads[t]; pc.ReadLeave? && 0 <= pc.r < pc.n ==> pc.lost != [] || Empty(s)
    ensures var pc := s.threads[t]; pc.WriteLeave? && pc.r >= 0 ==> pc.r == |pc.src| || pc.failed
    ensures var pc := s.threads[t]; pc.WriteLeave? && pc.r < 0 ==> Full(s)
  {
    hide Inv, AllSatisfied, Path;
    ReachableInv(s);
    var s0, actions :| Init(s0) && Path(s0, actions, s);
    InitInv(s0);
    assert AllSatisfied(s0) by { InitSatisfied(s0); }
    SatisfiedPath(s0, actions, s);
    assert ThreadOk(s, t) && Satisfied(s, t) by { At(s, t); }
  }

  lemma At(s: State, t: nat)
    requires Inv(s) && AllSatisfied(s) && t < |s.threads|
    ensures ThreadOk(s, t) && Satisfied(s, t)
  {
  }

  lemma InitSatisfied(s: State)
    requires Init(s)
    ensures AllSatisfied(s)
  {
  }

  // ---- Who sleeps, and why ----

  predicate AsleepReader(pc: Pc) {
    pc.ReadSleep? && !pc.woken
  }

  predicate AsleepWriter(pc: Pc) {
    pc.WriteSleep? && !pc.woken
  }

  /** A reader may sleep on: there is nothing to read and there may be more to come,
      or a writer that has put something is about to say so. */
  predicate ReaderMaySleep(s: State) {
    || (Empty(s) && s.writeopen)
    || (s.lock.Some? && s.lock.value < |s.threads| && s.threads[s.lock.value].Write? && s.threads[s.lock.value].news)
  }

  predicate WriterMaySleep(s: State) {
    || (Full(s) && s.readopen)
    || (s.lock.Some? && s.lock.value < |s.threads| && s.threads[s.lock.value].Read?)
  }

  ghost predicate ReadersOk(s: State) {
    (exists t: nat :: t < |s.threads| && AsleepReader(s.threads[t])) ==> ReaderMaySleep(s)
  }

  ghost predicate WritersOk(s: State) {
    (exists t: nat :: t < |s.threads| && AsleepWriter(s.threads[t])) ==> WriterMaySleep(s)
  }

  /** The step at which a wakeup is lost: a writer that has put bytes since it took the
      lock finds the pipe full and itself killed, and leaves while a reader sleeps. */
  ghost predicate LosesNews(s: State, a: Action) {
    && a.Killed? && a.t < |s.threads| && s.threads[a.t].Write? && s.threads[a.t].news
    && exists t: nat :: t < |s.threads| && AsleepReader(s.threads[t])
  }

  predicate WakesReaders(s: State, a: Action)
    requires Enabled(s, a)
  {
    || (a.Run? && s.threads[a.t].Write? && (s.threads[a.t].i == |s.threads[a.t].src| || (Full(s) && s.readopen)))
    || (a.CopyFails? && s.threads[a.t].Write?)
    || a == Close(true)
  }

  predicate WakesWriters(s: State, a: Action)
    requires Enabled(s, a)
  {
    || (a.Run? && s.threads[a.t].Read? && (|s.threads[a.t].out| >= s.threads[a.t].n || Empty(s)))
    || (a.CopyFails? && s.threads[a.t].Read?)
    || a == Close(false)
  }

  /** Thread t, which takes no part in the step. */
  lemma Bystander(s: State, a: Action, t: nat)
    requires Enabled(s, a) && t < |s.threads| && (a.Close? || a.t != t)
    ensures Effect(s, a).threads[t] ==
              if WakesReaders(s, a) then Woken(s.threads[t], true)
              else if WakesWriters(s, a) then Woken(s.threads[t], false) else s.threads[t]
  {
    hide Mine, Full, Empty, Woken;
    if a.Run? { RunBystander(s, a.t, t); }
  }

  lemma RunBystander(s: State, u: nat, t: nat)
    requires CanRun(s, u) && t < |s.threads| && u != t
    ensures Statement(s, u).threads[t] ==
              if WakesReaders(s, Run(u)) then Woken(s.threads[t], true)
              else if WakesWriters(s, Run(u)) then Woken(s.threads[t], false) else s.threads[t]
  {
    hide Mine, Full, Empty, Woken;
  }

  lemma ReaderAsleep(s: State, a: Action, t: nat)
    requires Enabled(s, a) && t < |s.threads| && AsleepReader(Effect(s, a).threads[t])
    ensures (AsleepReader(s.threads[t]) && !WakesReaders(s, a))
      || (a == Run(t) && s.threads[t].ReadWait? && Empty(s) && s.writeopen)
  {
    hide Mine, Full, Empty;
    if a.Close? || a.t != t { Bystander(s, a, t); }
  }

  lemma WriterAsleep(s: State, a: Action, t: nat)
    requires Enabled(s, a) && t < |s.threads| && AsleepWriter(Effect(s, a).threads[t])
    ensures (AsleepWriter(s.threads[t]) && !WakesWriters(s, a))
      || (a == Run(t) && s.threads[t].Write? && Full(s) && s.readopen)
  {
    hide Mine, Full, Empty;
    if a.Close? || a.t != t { Bystander(s, a, t); }
  }

  lemma SameCounters(s: State, a: Action)
    requires Enabled(s, a) && !Puts(s, a) && !Takes(s, a)
    ensures var s' := Effect(s, a); s'.nread == s.nread && s'.nwrite == s.nwrite
  {
    hide Mine, Full, Empty, Woken;
  }

  /** A step after which a reader sleeps on leaves it a reason to, unless it loses news. */
  lemma ReaderReason(s: State, a: Action, t: nat)
    requires Inv(s) && Enabled(s, a) && t < |s.threads| && AsleepReader(s.threads[t]) && !WakesReaders(s, a)
    requires ReaderMaySleep(s) && !LosesNews(s, a)
    ensures ReaderMaySleep(Effect(s, a))
  {
    hide Mine, BufferOk, Woken;
    assert ThreadOk(s, t);
    if !a.Close? && a.t < |s.threads| { assert ThreadOk(s, a.t); }
    if s.lock.Some? { assert ThreadOk(s, s.lock.value); }
  }

  lemma WriterReason(s: State, a: Action, t: nat)
    requires Inv(s) && Enabled(s, a) && t < |s.threads| && AsleepWriter(s.threads[t]) && !WakesWriters(s, a)
      && WriterMaySleep(s)
    ensures WriterMaySleep(Effect(s, a))
  {
    hide Mine, BufferOk, Woken;
    assert ThreadOk(s, t);
    if !a.Close? && a.t < |s.threads| { assert ThreadOk(s, a.t); }
    if s.lock.Some? { assert ThreadOk(s, s.lock.value); }
  }

  lemma WritersStep(s: State, a: Action)
    requires Inv(s) && Enabled(s, a) && WritersOk(s)
    ensures WritersOk(Effect(s, a))
  {
    hide Inv, Effect, WriterMaySleep, WakesWriters, AsleepWriter, Enabled;
    var s' := Effect(s, a);
    if t: nat :| t < |s'.threads| && AsleepWriter(s'.threads[t]) {
      WriterAsleep(s, a, t);
      if AsleepWriter(s.threads[t]) && !WakesWriters(s, a) { WriterReason(s, a, t); } else { NewWriter(s, t); }
    }
  }

  lemma NewWriter(s: State, t: nat)
    requires Inv(s) && Enabled(s, Run(t)) && s.threads[t].Write? && Full(s) && s.readopen
    ensures t < |Effect(s, Run(t)).threads|
      && (AsleepWriter(Effect(s, Run(t)).threads[t]) ==> WriterMaySleep(Effect(s, Run(t))))
  {
    hide Mine, BufferOk, Woken;
  }

  lemma NewReader(s: State, t: nat)
    requires Inv(s) && Enabled(s, Run(t)) && s.threads[t].ReadWait? && Empty(s) && s.writeopen
    ensures t < |Effect(s, Run(t)).threads| && ReaderMaySleep(Effect(s, Run(t)))
  {
    hide Mine, BufferOk, Woken;
  }

  /** When news is lost, a reader sleeps on before a full pipe. */
  lemma NewsLost(s: State, a: Action)
    requires Inv(s) && Enabled(s, a) && LosesNews(s, a)
    ensures !ReadersOk(Effect(s, a)) && Full(Effect(s, a))
  {
    hide Mine, Woken;
    var t: nat :| t < |s.threads| && AsleepReader(s.threads[t]);
    assert AsleepReader(Effect(s, a).threads[t]);
    assert ThreadOk(s, a.t) && ThreadOk(s, t);
    FullOrEmpty(s);
  }

  /** The law of sleeping readers, exactly: a step keeps it if and only if it is not
      the return of a killed writer that has put bytes and told no one. */
  lemma ReadersStep(s: State, a: Action)
    requires Inv(s) && Enabled(s, a) && ReadersOk(s)
    ensures ReadersOk(Effect(s, a)) <==> !LosesNews(s, a)
  {
    hide Inv, Effect, ReaderMaySleep, WakesReaders, AsleepReader, Enabled;
    var s' := Effect(s, a);
    if LosesNews(s, a) {
      NewsLost(s, a);
    } else if t: nat :| t < |s'.threads| && AsleepReader(s'.threads[t]) {
      ReaderAsleep(s, a, t);
      if AsleepReader(s.threads[t]) && !WakesReaders(s, a) { ReaderReason(s, a, t); } else { NewReader(s, t); }
    }
  }

  lemma {:induction false} WritersPath(s: State, actions: seq<Action>, s': State)
    requires Inv(s) && WritersOk(s) && Path(s, actions, s')
    ensures WritersOk(s')
    decreases |actions|
  {
    hide Inv, Effect, WritersOk, Enabled;
    if actions != [] {
      StepKept(s, actions[0]);
      WritersStep(s, actions[0]);
      WritersPath(Effect(s, actions[0]), actions[1..], s');
    }
  }

  /** In every interleaving: when the lock is free, a writer sleeps only while the pipe
      is full and there may be readers. */
  lemma WritersAreWoken(s: State, t: nat)
    requires Reachable(s) && t < |s.threads| && AsleepWriter(s.threads[t]) && s.lock == None
    ensures Full(s) && s.readopen
  {
    hide Inv;
    var s0, actions :| Init(s0) && Path(s0, actions, s);
    InitInv(s0);
    WritersPath(s0, actions, s);
  }

  /** No step of the run loses news. */
  ghost predicate Careful(s: State, actions: seq<Action>)
    decreases |actions|
  {
    actions == [] || (Enabled(s, actions[0]) && !LosesNews(s, actions[0])
      && Careful(Effect(s, actions[0]), actions[1..]))
  }

  lemma {:induction false} ReadersPath(s: State, actions: seq<Action>, s': State)
    requires Inv(s) && ReadersOk(s) && Path(s, actions, s') && Careful(s, actions)
    ensures ReadersOk(s')
    decreases |actions|
  {
    hide Inv, Effect, ReadersOk, Enabled, LosesNews;
    if actions != [] {
      StepKept(s, actions[0]);
      ReadersStep(s, actions[0]);
      ReadersPath(Effect(s, actions[0]), actions[1..], s');
    }
  }

  /** In every run that loses no news: when the lock is free, a reader sleeps only while
      the pipe is empty and there may be writers. */
  lemma ReadersAreWoken(s0: State, actions: seq<Action>, s: State, t: nat)
    requires Init(s0) && Path(s0, actions, s) && Careful(s0, actions)
    requires t < |s.threads| && AsleepReader(s.threads[t]) && s.lock == None
    ensures Empty(s) && s.writeopen
  {
    hide Inv;
    InitInv(s0);
    ReadersPath(s0, actions, s);
  }

  /** A killed sleeper goes on where it slept, with the lock, and nothing else changes. */
  lemma SleeperGoesOn(s: State, t: nat)
    requires t < |s.threads| && Sleeps(s.threads[t]) && s.lock == None
    ensures Enabled(s, Kill(t)) && Enabled(Effect(s, Kill(t)), Wake(t))
    ensures var pc := s.threads[t];
            Effect(Effect(s, Kill(t)), Wake(t)) ==
            Goto(s.(lock := Some(t)), t, if pc.WriteSleep? then Write(pc.src, pc.i, pc.before, false)
                                         else ReadWait(pc.n, pc.out, pc.before))
  {
  }

  /** A writer that finds the pipe full and its read end closed returns -1, without sleeping. */
  lemma BrokenPipe(s: State, t: nat)
    requires CanRun(s, t) && s.threads[t].Write? && s.threads[t].i < |s.threads[t].src| && Full(s) && !s.readopen
    ensures var s1 := Effect(s, Run(t));
            && s1.threads[t].WriteLeave? && s1.threads[t].r == -1
            && Enabled(s1, Run(t)) && Effect(s1, Run(t)) == Goto(s.(lock := None), t, Idle)
  {
  }

  /** A reader that finds the pipe empty and its write end closed returns 0, without sleeping. */
  lemma EndOfFile(s: State, t: nat)
    requires CanRun(s, t) && s.threads[t].ReadWait? && s.threads[t].out == [] && Empty(s) && !s.writeopen
    ensures var s1 := Effect(s, Run(t));
            && Enabled(s1, Run(t))
            && var s2 := Effect(s1, Run(t));
               && s2.threads[t].ReadLeave? && s2.threads[t].r == 0
               && Enabled(s2, Run(t)) && Effect(s2, Run(t)) == Wakeup(Goto(s.(lock := None), t, Idle), false)
  {
    var s1 := Effect(s, Run(t));
    var s2 := Effect(s1, Run(t));
    var s3 := Effect(s2, Run(t));
    assert s3.threads == Wakeup(Goto(s.(lock := None), t, Idle), false).threads;
  }

  // ---- A reader that is not woken ----

  lemma {:induction false} PathMore(s: State, actions: seq<Action>, s': State, a: Action)
    requires Path(s, actions, s') && Enabled(s', a)
    ensures Path(s, actions + [a], Effect(s', a))
    decreases |actions|
  {
    hide Enabled, Effect;
    if actions == [] {
      assert [a][1..] == [];
    } else {
      PathMore(Effect(s, actions[0]), actions[1..], s', a);
      assert (actions + [a])[1..] == actions[1..] + [a];
    }
  }

  lemma ReachableStep(s: State, a: Action)
    requires Reachable(s) && Enabled(s, a)
    ensures Reachable(Effect(s, a))
  {
    hide Enabled, Effect;
    var s0, actions :| Init(s0) && Path(s0, actions, s);
    PathMore(s0, actions, s, a);
  }

  /** One byte more than the pipe holds. */
  function TooLong(): (src: seq<Byte>)
    ensures |src| == PIPESIZE + 1
  {
    seq(PIPESIZE + 1, _ => 0)
  }

  /** Thread 0 sleeps in a read, and thread 1 has written k bytes. */
  predicate Filling(s: State, k: nat) {
    && |s.data| == PIPESIZE && s.nread == 0 && s.nwrite == k && s.readopen && s.writeopen && s.lock == Some(1)
    && s.threads == [ReadSleep(1, [], [], false), Write(TooLong(), k, [], k > 0)]
  }

  lemma {:induction false} Fill(k: nat) returns (s: State)
    requires k <= PIPESIZE
    ensures Reachable(s) && Filling(s, k)
  {
    hide Reachable;
    if k == 0 {
      s := ReaderSleeps();
    } else {
      var s1 := Fill(k - 1);
      ReachableStep(s1, Run(1));
      s := Effect(s1, Run(1));
    }
  }

  lemma ReaderSleeps() returns (s: State)
    ensures Reachable(s) && Filling(s, 0)
  {
    var s0 := State(seq(PIPESIZE, _ => 0), 0, 0, true, true, None, [Idle, Idle], [], []);
    assert Path(s0, [], s0);
    assert Reachable(s0);
    hide Reachable;
    ReachableStep(s0, StartRead(0, 1));
    var s1 := Effect(s0, StartRead(0, 1));
    ReachableStep(s1, Run(0));
    var s2 := Effect(s1, Run(0));
    ReachableStep(s2, Run(0));
    var s3 := Effect(s2, Run(0));
    ReachableStep(s3, StartWrite(1, TooLong()));
    var s4 := Effect(s3, StartWrite(1, TooLong()));
    ReachableStep(s4, Run(1));
    s := Effect(s4, Run(1));
  }

  /** The run: a reader sleeps before the empty pipe, a writer fills the pipe, is
      killed and returns. The lock is free, the pipe is full and the reader sleeps on. */
  lemma ReaderSleepsOn() returns (s: State)
    ensures Reachable(s) && s.lock == None && |s.threads| > 0 && AsleepReader(s.threads[0]) && Full(s) && !Empty(s)
  {
    hide Reachable;
    var s1 := Fill(PIPESIZE);
    ReachableStep(s1, Killed(1));
    var s2 := Effect(s1, Killed(1));
    ReachableStep(s2, Run(1));
    s := Effect(s2, Run(1));
  }
}

/** Transfers from beginning to end (kernel/virtio_disk.c), one after the other: each
    virtio_disk_rw is submitted, sleeps, is served by the device, finished by the
    interrupt handler, and returns. */
module VirtioRun {
  import opened Common
  import opened VirtioRing
  import opened Virtio
  import opened VirtioWakeups

  /** A run leads from w0 to w. */
  ghost predicate Leads(w0: Scene, w: Scene) {
    exists moves :: Played(w0, moves, w)
  }

  lemma {:induction false} PlayedAppend(w: Scene, moves: seq<Move>, v: Scene, m: Move)
    requires Played(w, moves, v) && CanMove(v, m)
    ensures Played(w, moves + [m], Moved(v, m))
    decreases |moves|
  {
    hide CanMove, Moved;
    if moves == [] {
      assert [m][1..] == [];
    } else {
      PlayedAppend(Moved(w, moves[0]), moves[1..], v, m);
      assert (moves + [m])[1..] == moves[1..] + [m];
    }
  }

  lemma Go(w0: Scene, w: Scene, m: Move) returns (w': Scene)
    requires Leads(w0, w) && CanMove(w, m)
    ensures Leads(w0, w') && w' == Moved(w, m)
  {
    hide CanMove, Moved, Played;
    var moves :| Played(w0, moves, w);
    PlayedAppend(w0, moves, w, m);
    w' := Moved(w, m);
  }

  // ---- One transfer ----

  /** Nothing is going on: every thread is outside, every descriptor free, both rings
      empty, wherever their indices stand, and no buffer in use. */
  predicate Quiet(s: State) {
    && Sized(s) && s.intr == Off && s.lock == Nobody && s.posting == None
    && (forall t: nat | t < |s.threads| :: s.threads[t] == Idle)
    && (forall i: nat | i < NUM :: s.free[i] && s.desc[i] == NODESC && s.stage[i] == Unsent && s.owner[i] == None)
    && s.avail.tail == s.avail.head < WRAP && s.used.tail == s.used.head < WRAP
    && (forall b: nat | b < |s.bufs| :: s.bufs[b].holder == None && !s.bufs[b].disk)
  }

  const CHAIN := Chain(0, 1, 2)

  function ReqOf(q: State, b: nat, write: bool): Req
    requires Sized(q) && b < |q.bufs|
  {
    Req(b, write, q.bufs[b].data, q.media[b])
  }

  /** The descriptors are filled in. */
  function Prepared(q: State, t: nat, b: nat, write: bool): State
    requires Sized(q) && t < |q.threads| && b < |q.bufs|
  {
    Formatted(q, ReqOf(q, b, write), CHAIN).(
      threads := q.threads[t := Slot(ReqOf(q, b, write), CHAIN)], lock := By(t),
      free := q.free[0 := false][1 := false][2 := false],
      owner := q.owner[0 := Some(t)][1 := Some(t)][2 := Some(t)],
      bufs := q.bufs[b := q.bufs[b].(holder := Some(t), disk := true)])
  }

  lemma Prepares(w0: Scene, w: Scene, t: nat, b: nat, write: bool) returns (v: Scene)
    requires Leads(w0, w) && Quiet(w.s) && |w.woken| == |w.s.threads| && t < |w.s.threads| && b < |w.s.bufs|
    ensures Leads(w0, v) && |v.woken| == |w.woken| && v.s == Prepared(w.s, t, b, write)
  {
    hide Leads, AfterStep;
    var v1 := Go(w0, w, Step(Start(t, b, write)));
    var v2 := Go(w0, v1, Step(Run(t)));
    assert Alloc3(v2.s.free) == Some(CHAIN) by { FirstThree(v2.s.free); }
    var v3 := Go(w0, v2, Step(Run(t)));
    v := Go(w0, v3, Step(Run(t)));
  }

  lemma FirstThree(free: seq<bool>)
    requires |free| == NUM && free[0] && free[1] && free[2]
    ensures Alloc3(free) == Some(CHAIN)
  {
  }

  /** The request is in the ring, and the caller asleep. */
  function Sent(q: State, t: nat, b: nat, write: bool): State
    requires Sized(q) && t < |q.threads| && b < |q.bufs|
  {
    Prepared(q, t, b, write).(
      threads := q.threads[t := Sleep(ReqOf(q, b, write), CHAIN)], lock := Nobody,
      avail := Advance(WriteSlot(q.avail, 0)), stage := q.stage[0 := InAvail])
  }

  lemma Sends(w0: Scene, w: Scene, q: State, t: nat, b: nat, write: bool) returns (v: Scene)
    requires Quiet(q) && t < |q.threads| && b < |q.bufs|
    requires Leads(w0, w) && |w.woken| == |q.threads| && w.s == Prepared(q, t, b, write)
    ensures Leads(w0, v) && |v.woken| == |w.woken| && v.s == Sent(q, t, b, write)
  {
    hide Leads, AfterStep;
    var v1 := Go(w0, w, Step(Run(t)));
    var v2 := Go(w0, v1, Step(Run(t)));
    v := Go(w0, v2, Step(Run(t)));
    assert v.s.threads == Sent(q, t, b, write).threads;
  }

  /** Killed in its sleep, the caller finds its request unfinished and sleeps again. */
  lemma SleepsAgain(w0: Scene, w: Scene, q: State, t: nat, b: nat, write: bool) returns (v: Scene)
    requires Quiet(q) && t < |q.threads| && b < |q.bufs|
    requires Leads(w0, w) && |w.woken| == |q.threads| && w.s == Sent(q, t, b, write)
    ensures Leads(w0, v) && |v.woken| == |w.woken| && v.s == w.s
  {
    hide Leads, AfterStep;
    var v1 := Go(w0, w, Kill(t));
    assert v1.woken[t];
    var v2 := Go(w0, v1, Step(Wake(t)));
    v := Go(w0, v2, Step(Run(t)));
    assert v.s.threads == w.s.threads;
  }

  /** The device has the request. */
  function AtDisk(q: State, t: nat, b: nat, write: bool): State
    requires Sized(q) && t < |q.threads| && b < |q.bufs|
  {
    var s := Sent(q, t, b, write);
    s.(avail := Take(s.avail), stage := q.stage[0 := InDevice])
  }

  lemma Takes(w0: Scene, w: Scene, q: State, t: nat, b: nat, write: bool) returns (v: Scene)
    requires Quiet(q) && t < |q.threads| && b < |q.bufs|
    requires Leads(w0, w) && |w.woken| == |q.threads| && w.s == Sent(q, t, b, write)
    ensures Leads(w0, v) && |v.woken| == |w.woken| && v.s == AtDisk(q, t, b, write)
  {
    hide Leads, AfterStep;
    assert w.s.avail.slots[w.s.avail.tail % NUM] == 0 && w.s.avail.tail != w.s.avail.head;
    v := Go(w0, w, Step(DevTake));
    assert v.s.stage == AtDisk(q, t, b, write).stage;
  }

  /** The data has been transferred. */
  function Copied(q: State, t: nat, b: nat, write: bool): State
    requires Sized(q) && t < |q.threads| && b < |q.bufs|
  {
    var s := AtDisk(q, t, b, write);
    s.(stage := q.stage[0 := Stage.Served], info := s.info[0 := s.info[0].(status := 0)],
       media := if write then q.media[b := q.bufs[b].data] else q.media,
       bufs := if write then s.bufs else s.bufs[b := s.bufs[b].(data := q.media[b])])
  }

  lemma Copies(w0: Scene, w: Scene, q: State, t: nat, b: nat, write: bool) returns (v: Scene)
    requires Quiet(q) && t < |q.threads| && b < |q.bufs|
    requires Leads(w0, w) && |w.woken| == |q.threads| && w.s == AtDisk(q, t, b, write)
    ensures Leads(w0, v) && |v.woken| == |w.woken| && v.s == Copied(q, t, b, write)
  {
    hide Leads, AfterStep;
    v := Go(w0, w, Step(DevServe(0)));
    assert v.s.stage == Copied(q, t, b, write).stage;
  }

  /** The device has served the request and said so. */
  function Answered(q: State, t: nat, b: nat, write: bool): State
    requires Sized(q) && t < |q.threads| && b < |q.bufs|
  {
    Copied(q, t, b, write).(used := Advance(WriteSlot(q.used, 0)), stage := q.stage[0 := InUsed])
  }

  lemma Answers(w0: Scene, w: Scene, q: State, t: nat, b: nat, write: bool) returns (v: Scene)
    requires Quiet(q) && t < |q.threads| && b < |q.bufs|
    requires Leads(w0, w) && |w.woken| == |q.threads| && w.s == Copied(q, t, b, write)
    ensures Leads(w0, v) && |v.woken| == |w.woken| && v.s == Answered(q, t, b, write)
  {
    hide Leads, AfterStep;
    var v1 := Go(w0, w, Step(DevSlot(0)));
    v := Go(w0, v1, Step(DevBump));
    assert v.s.stage == Answered(q, t, b, write).stage;
  }

  /** The interrupt handler has been. */
  function Handled(q: State, t: nat, b: nat, write: bool): State
    requires Sized(q) && t < |q.threads| && b < |q.bufs|
  {
    var s := Answered(q, t, b, write);
    s.(used := Take(s.used), stage := q.stage[0 := Cleared], bufs := s.bufs[b := s.bufs[b].(disk := false)])
  }

  /** The handler has found the entry. */
  function Found(q: State, t: nat, b: nat, write: bool): State
    requires Sized(q) && t < |q.threads| && b < |q.bufs|
  {
    Answered(q, t, b, write).(intr := Got(0), lock := Handler)
  }

  lemma Finds(w0: Scene, w: Scene, q: State, t: nat, b: nat, write: bool) returns (v: Scene)
    requires Quiet(q) && t < |q.threads| && b < |q.bufs|
    requires Leads(w0, w) && |w.woken| == |q.threads| && w.s == Answered(q, t, b, write)
    ensures Leads(w0, v) && |v.woken| == |w.woken| && v.s == Found(q, t, b, write)
  {
    hide Leads, AfterStep;
    assert w.s.used.slots[w.s.used.tail % NUM] == 0 && w.s.used.tail != w.s.used.head;
    var v1 := Go(w0, w, Step(IntrEnter));
    v := Go(w0, v1, Step(IntrRun));
  }

  lemma Handles(w0: Scene, w: Scene, q: State, t: nat, b: nat, write: bool) returns (v: Scene)
    requires Quiet(q) && t < |q.threads| && b < |q.bufs|
    requires Leads(w0, w) && |w.woken| == |q.threads| && w.s == Found(q, t, b, write)
    ensures Leads(w0, v) && |v.woken| == |w.woken| && v.s == Handled(q, t, b, write) && v.woken[t]
  {
    hide Leads;
    var v3 := Go(w0, w, Step(IntrRun));
    assert v3.woken[t];
    v := Go(w0, v3, Step(IntrRun));
    assert v.s.stage == Handled(q, t, b, write).stage;
  }

  /** The transfer is over: the block or the buffer has the other's contents. */
  function Transferred(q: State, t: nat, b: nat, write: bool): State
    requires Sized(q) && t < |q.threads| && b < |q.bufs|
  {
    var s := Handled(q, t, b, write);
    q.(avail := s.avail, used := s.used, ops := s.ops, info := s.info[0 := s.info[0].(b := None)],
       media := if write then q.media[b := q.bufs[b].data] else q.media,
       bufs := if write then q.bufs else q.bufs[b := q.bufs[b].(data := q.media[b])])
  }

  /** The caller is about to free its descriptors. */
  function Returning(q: State, t: nat, b: nat, write: bool): State
    requires Sized(q) && t < |q.threads| && b < |q.bufs|
  {
    Handled(q, t, b, write).(threads := q.threads[t := Finish(ReqOf(q, b, write), CHAIN)], lock := By(t))
  }

  lemma Returns(w0: Scene, w: Scene, q: State, t: nat, b: nat, write: bool) returns (v: Scene)
    requires Quiet(q) && t < |q.threads| && b < |q.bufs|
    requires Leads(w0, w) && |w.woken| == |q.threads| && w.s == Handled(q, t, b, write) && w.woken[t]
    ensures Leads(w0, v) && |v.woken| == |w.woken| && v.s == Returning(q, t, b, write)
  {
    hide Leads, AfterStep;
    var v1 := Go(w0, w, Step(Wake(t)));
    v := Go(w0, v1, Step(Run(t)));
    assert v.s.threads == Returning(q, t, b, write).threads;
  }

  /** Its descriptors are free again. */
  function Leaving(q: State, t: nat, b: nat, write: bool): State
    requires Sized(q) && t < |q.threads| && b < |q.bufs|
  {
    var s := Returning(q, t, b, write);
    s.(threads := q.threads[t := Leave(ReqOf(q, b, write))], free := q.free, owner := q.owner, desc := q.desc,
       info := s.info[0 := s.info[0].(b := None)], stage := q.stage)
  }

  lemma Frees(w0: Scene, w: Scene, q: State, t: nat, b: nat, write: bool) returns (v: Scene)
    requires Quiet(q) && t < |q.threads| && b < |q.bufs|
    requires Leads(w0, w) && |w.woken| == |q.threads| && w.s == Returning(q, t, b, write)
    ensures Leads(w0, v) && |v.woken| == |w.woken| && v.s == Leaving(q, t, b, write)
  {
    hide Leads, AfterStep;
    v := Go(w0, w, Step(Run(t)));
    var s := Leaving(q, t, b, write);
    assert v.s.threads == s.threads && v.s.stage == s.stage && v.s.free == s.free && v.s.owner == s.owner;
    assert v.s.desc == s.desc;
  }

  lemma Finishes(w0: Scene, w: Scene, q: State, t: nat, b: nat, write: bool) returns (v: Scene)
    requires Quiet(q) && t < |q.threads| && b < |q.bufs|
    requires Leads(w0, w) && |w.woken| == |q.threads| && w.s == Leaving(q, t, b, write)
    ensures Leads(w0, v) && |v.woken| == |w.woken| && v.s == Transferred(q, t, b, write)
  {
    hide Leads, AfterStep;
    v := Go(w0, w, Step(Run(t)));
    var s := Transferred(q, t, b, write);
    assert v.s.threads == s.threads && v.s.bufs == s.bufs;
  }

  lemma QuietAgain(q: State, t: nat, b: nat, write: bool)
    requires Quiet(q) && t < |q.threads| && b < |q.bufs|
    ensures Quiet(Transferred(q, t, b, write))
  {
  }

  /** virtio_disk_rw by thread t on block b, from beginning to end. */
  lemma Transfers(w0: Scene, w: Scene, t: nat, b: nat, write: bool) returns (v: Scene)
    requires Leads(w0, w) && Quiet(w.s) && |w.woken| == |w.s.threads| && t < |w.s.threads| && b < |w.s.bufs|
    ensures Leads(w0, v) && Quiet(v.s) && |v.woken| == |v.s.threads| == |w.s.threads|
    ensures v.s.media == (if write then w.s.media[b := w.s.bufs[b].data] else w.s.media)
    ensures v.s.bufs == (if write then w.s.bufs else w.s.bufs[b := w.s.bufs[b].(data := w.s.media[b])])
  {
    hide Leads, Sent, Prepared, AtDisk, Copied, Answered, Found, Handled, Returning, Leaving, Quiet;
    var q := w.s;
    v := Prepares(w0, w, t, b, write);
    v := Sends(w0, v, q, t, b, write);
    v := SleepsAgain(w0, v, q, t, b, write);
    v := Takes(w0, v, q, t, b, write);
    v := Copies(w0, v, q, t, b, write);
    v := Answers(w0, v, q, t, b, write);
    v := Finds(w0, v, q, t, b, write);
    v := Handles(w0, v, q, t, b, write);
    v := Returns(w0, v, q, t, b, write);
    v := Frees(w0, v, q, t, b, write);
    v := Finishes(w0, v, q, t, b, write);
    QuietAgain(q, t, b, write);
  }

  // ---- Any number of transfers ----

  /** What a client does: it changes a buffer, or has it read or written. */
  datatype Request = Change(b: nat, data: int) | ReadIt(t: nat, b: nat) | WriteIt(t: nat, b: nat)

  /** A disk and buffers for its blocks. */
  datatype Plain = Plain(media: seq<int>, data: seq<int>)

  /** What the requests do to a plain disk. */
  function Answer(p: Plain, rs: seq<Request>): Plain
    requires |p.media| == |p.data| && forall k | 0 <= k < |rs| :: rs[k].b < |p.data|
    decreases |rs|
  {
    if rs == [] then p
    else
      var r := rs[0];
      Answer(
        match r
        case Change(b, x) => p.(data := p.data[b := x])
        case ReadIt(_, b) => p.(data := p.data[b := p.media[b]])
        case WriteIt(_, b) => p.(media := p.media[b := p.data[b]]),
        rs[1..])
  }

  function PlainOf(s: State): (p: Plain)
    requires Sized(s)
    ensures |p.media| == |p.data| == |s.bufs|
  {
    Plain(s.media, seq(|s.bufs|, b requires 0 <= b < |s.bufs| => s.bufs[b].data))
  }

  /** Driver, handler and device carry out any sequence of requests, however often the
      ring indices wrap around, as a plain disk would. */
  lemma {:induction false} AsAPlainDisk(w0: Scene, w: Scene, rs: seq<Request>) returns (v: Scene)
    requires Leads(w0, w) && Quiet(w.s) && |w.woken| == |w.s.threads|
    requires forall k | 0 <= k < |rs| :: rs[k].b < |w.s.bufs| && (rs[k].Change? || rs[k].t < |w.s.threads|)
    ensures Leads(w0, v) && Quiet(v.s) && |v.s.threads| == |w.s.threads| && |v.s.bufs| == |w.s.bufs|
    ensures PlainOf(v.s) == Answer(PlainOf(w.s), rs)
    decreases |rs|
  {
    hide Leads;
    if rs == [] {
      v := w;
    } else {
      var u := OneRequest(w0, w, rs[0]);
      v := AsAPlainDisk(w0, u, rs[1..]);
    }
  }

  lemma OneRequest(w0: Scene, w: Scene, r: Request) returns (v: Scene)
    requires Leads(w0, w) && Quiet(w.s) && |w.woken| == |w.s.threads|
    requires r.b < |w.s.bufs| && (r.Change? || r.t < |w.s.threads|)
    ensures Leads(w0, v) && Quiet(v.s) && |v.woken| == |v.s.threads| == |w.s.threads| && |v.s.bufs| == |w.s.bufs|
    ensures PlainOf(v.s) == Answer(PlainOf(w.s), [r])
  {
    hide Leads, Transferred;
    match r
    case Change(b, x) =>
      v := Go(w0, w, Step(Modify(b, x)));
    case ReadIt(t, b) =>
      v := Transfers(w0, w, t, b, false);
    case WriteIt(t, b) =>
      v := Transfers(w0, w, t, b, true);
    var p := PlainOf(v.s);
    assert [r][1..] == [];
    assert p.data == Answer(PlainOf(w.s), [r]).data;
  }

  /** From the start: the driver's set-up leaves nothing going on. */
  lemma FromTheStart(w0: Scene, rs: seq<Request>) returns (v: Scene)
    requires Virtio.Init(w0.s) && |w0.woken| == |w0.s.threads|
    requires forall k | 0 <= k < |rs| :: rs[k].b < |w0.s.bufs| && (rs[k].Change? || rs[k].t < |w0.s.threads|)
    ensures Leads(w0, v) && Quiet(v.s) && PlainOf(v.s) == Answer(PlainOf(w0.s), rs)
  {
    hide Leads;
    assert Leads(w0, w0) by { StillLeads(w0); }
    v := AsAPlainDisk(w0, w0, rs);
  }

  lemma StillLeads(w: Scene)
    ensures Leads(w, w)
  {
    assert Played(w, [], w);
  }
}

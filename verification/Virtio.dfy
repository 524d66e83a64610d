/** The virtio disk driver (kernel/virtio_disk.c) and its device as a state machine.
    Any number of threads call virtio_disk_rw, the interrupt handler runs when it can
    take the lock, and the device takes, serves and posts requests at any time and in
    any order. The buffer of block b is buffer number b: the buffer cache keeps one
    buffer per block. */
module Virtio {
  import opened Common
  import opened VirtioRing

  /** Where a descriptor points. */
  datatype Address = Nowhere | Request(i: nat) | Buffer(b: nat) | Status(i: nat)

  datatype Desc = Desc(addr: Address, deviceWrites: bool, more: bool, next: nat)

  /** The command header: struct virtio_blk_req. */
  datatype Op = Op(write: bool, sector: nat)

  datatype Info = Info(b: Option<nat>, status: nat)

  datatype Buf = Buf(data: int, disk: bool, holder: Option<nat>)

  /** A call of virtio_disk_rw, with what buffer and disk held at its start. */
  datatype Req = Req(b: nat, write: bool, data: int, media: int)

  datatype Chain = Chain(i0: nat, i1: nat, i2: nat)

  /** A thread's place in virtio_disk_rw. */
  datatype Pc =
    | Idle
    | Enter(req: Req)                 // about to take the driver's lock
    | Alloc(req: Req)                 // about to allocate three descriptors
    | AllocSleep(req: Req)            // asleep until descriptors are freed
    | Format(req: Req, c: Chain)      // fill in the descriptors and info
    | Slot(req: Req, c: Chain)        // write the head into the avail ring
    | Bump(req: Req, c: Chain)        // advance the avail index
    | Check(req: Req, c: Chain)       // is the buffer still the disk's?
    | Sleep(req: Req, c: Chain)       // asleep until the request is done
    | Finish(req: Req, c: Chain)      // free the chain
    | Leave(req: Req)                 // release the lock and return

  /** The interrupt handler's place. */
  datatype Intr = Off | Look | Got(id: nat)

  /** What has become of the request with that head descriptor. */
  datatype Stage = Unsent | InAvail | InDevice | Served | InUsed | Cleared

  datatype Holder = Nobody | Handler | By(t: nat)

  datatype State = State(
    threads: seq<Pc>, intr: Intr, lock: Holder,
    free: seq<bool>, desc: seq<Desc>, ops: seq<Op>, info: seq<Info>,
    avail: Ring, used: Ring,
    posting: Option<nat>,             // the device has written this head to a used slot
    stage: seq<Stage>,
    owner: seq<Option<nat>>,          // whose chain a descriptor is in
    bufs: seq<Buf>, media: seq<int>)

  datatype Action =
    | Start(t: nat, b: nat, write: bool)
    | Modify(b: nat, data: int)       // a client changes a buffer that is not being transferred
    | Run(t: nat)
    | Wake(t: nat)
    | IntrEnter
    | IntrRun
    | DevTake
    | DevServe(h: nat)
    | DevSlot(h: nat)
    | DevBump

  predicate Init(s: State) {
    && (forall t: nat | t < |s.threads| :: s.threads[t] == Idle)
    && s.intr == Off && s.lock == Nobody
    && |s.free| == NUM && |s.desc| == NUM && |s.ops| == NUM && |s.info| == NUM && |s.stage| == NUM && |s.owner| == NUM
    && (forall i: nat | i < NUM :: s.free[i] && s.desc[i] == NODESC && s.stage[i] == Unsent && s.owner[i] == None)
    && |s.avail.slots| == NUM && s.avail.tail == 0 && s.avail.head == 0
    && |s.used.slots| == NUM && s.used.tail == 0 && s.used.head == 0
    && s.posting == None
    && |s.media| == |s.bufs|
    && (forall b: nat | b < |s.bufs| :: s.bufs[b].holder == None && !s.bufs[b].disk)
  }

  // ---- The driver ----

  /** alloc_desc: the first free descriptor. */
  function FirstFree(free: seq<bool>, i: nat): (j: nat)
    requires i <= |free|
    ensures i <= j <= |free| && (j < |free| ==> free[j])
    decreases |free| - i
  {
    if i == |free| || free[i] then i else FirstFree(free, i + 1)
  }

  /** alloc3_desc: three free descriptors, or none. */
  function Alloc3(free: seq<bool>): (c: Option<Chain>)
    requires |free| == NUM
    ensures c.Some? ==>
      c.value.i0 < c.value.i1 < c.value.i2 < NUM && free[c.value.i0] && free[c.value.i1] && free[c.value.i2]
  {
    var i := FirstFree(free, 0);
    if i == NUM then None
    else
      var j := FirstFree(free, i + 1);
      if j == NUM then None
      else
        var k := FirstFree(free, j + 1);
        if k == NUM then None else Some(Chain(i, j, k))
  }

  predicate ChainOk(c: Chain) {
    c.i0 < NUM && c.i1 < NUM && c.i2 < NUM && c.i0 != c.i1 && c.i1 != c.i2 && c.i0 != c.i2
  }

  predicate In(c: Chain, i: nat) {
    i == c.i0 || i == c.i1 || i == c.i2
  }

  function Goto(s: State, t: nat, pc: Pc): State
    requires t < |s.threads|
  {
    s.(threads := s.threads[t := pc])
  }

  predicate Sized(s: State) {
    && |s.free| == NUM && |s.desc| == NUM && |s.ops| == NUM && |s.info| == NUM && |s.stage| == NUM && |s.owner| == NUM
    && |s.avail.slots| == NUM && |s.used.slots| == NUM && |s.media| == |s.bufs|
  }

  predicate PcSized(s: State, pc: Pc) {
    && (!pc.Idle? ==> pc.req.b < |s.bufs|)
    && (HasChain(pc) ==> ChainOk(pc.c))
  }

  predicate HasChain(pc: Pc) {
    pc.Format? || pc.Slot? || pc.Bump? || pc.Check? || pc.Sleep? || pc.Finish?
  }

  predicate Locks(pc: Pc) {
    pc.Alloc? || pc.Format? || pc.Slot? || pc.Bump? || pc.Check? || pc.Finish? || pc.Leave?
  }

  predicate CanRun(s: State, t: nat) {
    && Sized(s) && t < |s.threads| && PcSized(s, s.threads[t])
    && !s.threads[t].Idle? && !s.threads[t].AllocSleep? && !s.threads[t].Sleep?
    && (s.threads[t].Enter? ==> s.lock == Nobody)
  }

  /** The three descriptors, the header and the info entry of a request. */
  function Formatted(s: State, req: Req, c: Chain): State
    requires Sized(s) && ChainOk(c)
  {
    s.(ops := s.ops[c.i0 := Op(req.write, 2 * req.b)],
       desc := s.desc[c.i0 := Desc(Request(c.i0), false, true, c.i1)]
                     [c.i1 := Desc(Buffer(req.b), !req.write, true, c.i2)]
                     [c.i2 := Desc(Status(c.i0), true, false, 0)],
       info := s.info[c.i0 := Info(Some(req.b), 255)])
  }

  const NODESC: Desc := Desc(Nowhere, false, false, 0)

  /** free_chain on a chain of three. */
  function Freed(s: State, c: Chain): State
    requires Sized(s) && ChainOk(c)
  {
    s.(desc := s.desc[c.i0 := NODESC][c.i1 := NODESC][c.i2 := NODESC],
       free := s.free[c.i0 := true][c.i1 := true][c.i2 := true],
       owner := s.owner[c.i0 := None][c.i1 := None][c.i2 := None])
  }

  function Statement(s: State, t: nat): (s': State)
    requires CanRun(s, t)
    ensures Sized(s') && |s'.threads| == |s.threads|
  {
    match s.threads[t]
    case Enter(req) => Goto(s.(lock := By(t)), t, Alloc(req))
    case Alloc(req) =>
      var c := Alloc3(s.free);
      if c.None? then Goto(s.(lock := Nobody), t, AllocSleep(req))
      else Goto(s.(free := s.free[c.value.i0 := false][c.value.i1 := false][c.value.i2 := false],
                   owner := s.owner[c.value.i0 := Some(t)][c.value.i1 := Some(t)][c.value.i2 := Some(t)]), t,
                     Format(req, c.value))
    case Format(req, c) =>
      Goto(Formatted(s, req, c).(bufs := s.bufs[req.b := s.bufs[req.b].(disk := true)]), t, Slot(req, c))
    case Slot(req, c) => Goto(s.(avail := WriteSlot(s.avail, c.i0)), t, Bump(req, c))
    case Bump(req, c) => Goto(s.(avail := Advance(s.avail), stage := s.stage[c.i0 := InAvail]), t, Check(req, c))
    case Check(req, c) =>
      if s.bufs[req.b].disk then Goto(s.(lock := Nobody), t, Sleep(req, c)) else Goto(s, t, Finish(req, c))
    case Finish(req, c) =>
      Goto(Freed(s, c).(info := s.info[c.i0 := s.info[c.i0].(b := None)], stage := s.stage[c.i0 := Unsent]), t,
        Leave(req))
    case Leave(req) =>
      Goto(s.(lock := Nobody, bufs := s.bufs[req.b := s.bufs[req.b].(holder := None)]), t, Idle)
    case _ => s
  }

  // ---- The interrupt handler and the device ----

  /** The handler finds an entry that names a request with a buffer and status 0. */
  predicate HandlerFits(s: State, id: nat)
    requires Sized(s)
  {
    id < NUM && s.info[id].status == 0 && s.info[id].b.Some? && s.info[id].b.value < |s.bufs|
  }

  /** The device can follow the chain that starts at h. */
  predicate DeviceFits(s: State, h: nat)
    requires Sized(s)
  {
    && h < NUM && s.desc[h].more && s.desc[h].next < NUM && s.desc[h].addr.Request? && s.desc[h].addr.i < NUM
    && var d1 := s.desc[s.desc[h].next];
       && d1.more && d1.next < NUM && d1.addr.Buffer? && d1.addr.b < |s.bufs|
         && s.ops[s.desc[h].addr.i].sector / 2 < |s.media|
       && d1.deviceWrites != s.ops[s.desc[h].addr.i].write
       && s.desc[d1.next].addr.Status? && s.desc[d1.next].addr.i < NUM && s.desc[d1.next].deviceWrites
         && !s.desc[d1.next].more
  }

  predicate Enabled(s: State, a: Action) {
    && Sized(s)
    && match a
       case Start(t, b, _) => t < |s.threads| && s.threads[t] == Idle && b < |s.bufs| && s.bufs[b].holder == None
       case Modify(b, _) => b < |s.bufs| && s.bufs[b].holder == None
       case Run(t) => CanRun(s, t)
       case Wake(t) => t < |s.threads| && (s.threads[t].AllocSleep? || s.threads[t].Sleep?) && s.lock == Nobody
       case IntrEnter => s.intr == Off && s.lock == Nobody
       case IntrRun => !s.intr.Off? && (s.intr.Got? ==> HandlerFits(s, s.intr.id))
       case DevTake => s.avail.tail != s.avail.head && s.avail.slots[s.avail.tail % NUM] < NUM
       case DevServe(h) => h < NUM && s.stage[h] == InDevice && DeviceFits(s, h)
       case DevSlot(h) => h < NUM && s.stage[h] == Served && s.posting == None
       case DevBump => s.posting.Some? && s.posting.value < NUM
  }

  function Effect(s: State, a: Action): (s': State)
    requires Enabled(s, a)
    ensures Sized(s') && |s'.threads| == |s.threads|
  {
    match a
    case Start(t, b, write) =>
      Goto(s.(bufs := s.bufs[b := s.bufs[b].(holder := Some(t))]), t, Enter(Req(b, write, s.bufs[b].data, s.media[b])))
    case Modify(b, data) => s.(bufs := s.bufs[b := s.bufs[b].(data := data)])
    case Run(t) => Statement(s, t)
    case Wake(t) =>
      var pc := s.threads[t];
      Goto(s.(lock := By(t)), t, if pc.AllocSleep? then Alloc(pc.req) else Check(pc.req, pc.c))
    case IntrEnter => s.(intr := Look, lock := Handler)
    case IntrRun =>
      (match s.intr
       case Look =>
         if s.used.tail != s.used.head then s.(intr := Got(s.used.slots[s.used.tail % NUM]))
         else s.(intr := Off, lock := Nobody)
       case Got(id) =>
         var b := s.info[id].b.value;
         s.(bufs := s.bufs[b := s.bufs[b].(disk := false)], used := Take(s.used), stage := s.stage[id := Cleared],
           intr := Look)
       case Off => s)
    case DevTake =>
      var h := s.avail.slots[s.avail.tail % NUM];
      s.(avail := Take(s.avail), stage := s.stage[h := InDevice])
    case DevServe(h) =>
      var d1 := s.desc[s.desc[h].next];
      var op, b, k := s.ops[s.desc[h].addr.i], d1.addr.b, s.desc[d1.next].addr.i;
      s.(media := if op.write then s.media[op.sector / 2 := s.bufs[b].data] else s.media,
         bufs := if op.write then s.bufs else s.bufs[b := s.bufs[b].(data := s.media[op.sector / 2])],
         info := s.info[k := s.info[k].(status := 0)],
         stage := s.stage[h := Served])
    case DevSlot(h) => s.(used := WriteSlot(s.used, h), posting := Some(h))
    case DevBump => s.(used := Advance(s.used), stage := s.stage[s.posting.value := InUsed], posting := None)
  }

  ghost predicate Path(s: State, actions: seq<Action>, s': State)
    decreases |actions|
  {
    if actions == [] then s == s'
    else Enabled(s, actions[0]) && Path(Effect(s, actions[0]), actions[1..], s')
  }

  ghost predicate Reachable(s: State) {
    exists s0, actions :: Init(s0) && Path(s0, actions, s)
  }

  // ---- The invariant ----

  /** The request is the device's or the handler's business. */
  predicate Sent(pc: Pc) {
    pc.Check? || pc.Sleep?
  }

  /** The lock is held by whoever's place says so. */
  predicate LockOk(s: State, t: nat)
    requires t < |s.threads|
  {
    s.lock == By(t) <==> Locks(s.threads[t])
  }

  /** The thread's chain is its own, and so is its buffer. */
  predicate HoldsOk(s: State, t: nat)
    requires Sized(s) && t < |s.threads|
  {
    var pc := s.threads[t];
    && PcSized(s, pc)
    && (!pc.Idle? ==> s.bufs[pc.req.b].holder == Some(t))
    && (HasChain(pc) ==> s.owner[pc.c.i0] == Some(t) && s.owner[pc.c.i1] == Some(t) && s.owner[pc.c.i2] == Some(t))
  }

  /** A descriptor is free, or in the chain of the thread that owns it. */
  predicate DescOk(s: State, i: nat)
    requires Sized(s) && i < NUM
  {
    && (s.free[i] <==> s.owner[i] == None)
    && (s.free[i] ==> s.desc[i] == NODESC)
    && (s.owner[i].Some? ==>
          && s.owner[i].value < |s.threads|
          && HasChain(s.threads[s.owner[i].value]) && In(s.threads[s.owner[i].value].c, i))
  }

  /** A head that was sent belongs to a thread that waits for it. */
  predicate HeadOk(s: State, h: nat)
    requires Sized(s) && h < NUM
  {
    s.stage[h] != Unsent ==>
      && s.owner[h].Some? && s.owner[h].value < |s.threads|
      && var pc := s.threads[s.owner[h].value];
         HasChain(pc) && pc.c.i0 == h && (Sent(pc) || (pc.Finish? && s.stage[h] == Cleared))
  }

  /** The descriptors of the request, as the device finds them. */
  predicate DescsFormatted(s: State, req: Req, c: Chain)
    requires Sized(s) && ChainOk(c)
  {
    && s.ops[c.i0] == Op(req.write, 2 * req.b)
    && s.desc[c.i0] == Desc(Request(c.i0), false, true, c.i1)
    && s.desc[c.i1] == Desc(Buffer(req.b), !req.write, true, c.i2)
    && s.desc[c.i2] == Desc(Status(c.i0), true, false, 0)
    && s.info[c.i0].b == Some(req.b)
  }

  predicate AtDevice(stage: Stage) {
    stage == Unsent || stage == InAvail || stage == InDevice
  }

  /** Buffer and disk, as the request has left them so far. */
  predicate DataOk(s: State, req: Req, served: bool)
    requires Sized(s) && req.b < |s.bufs|
  {
    if !served then s.bufs[req.b].data == req.data && s.media[req.b] == req.media
    else if req.write then s.bufs[req.b].data == req.data && s.media[req.b] == req.data
    else s.bufs[req.b].data == req.media && s.media[req.b] == req.media
  }

  /** How far the thread's request has come. */
  predicate FlightOk(s: State, t: nat)
    requires Sized(s) && t < |s.threads|
  {
    var pc := s.threads[t];
    PcSized(s, pc) &&
    match pc
    case Idle => true
    case Enter(req) => DataOk(s, req, false)
    case Alloc(req) => DataOk(s, req, false)
    case AllocSleep(req) => DataOk(s, req, false)
    case Format(req, c) => DataOk(s, req, false) && s.stage[c.i0] == Unsent
    case Slot(req, c) => DataOk(s, req, false) && s.stage[c.i0] == Unsent && Waiting(s, req, c)
    case Bump(req, c) =>
      DataOk(s, req, false) && s.stage[c.i0] == Unsent && Waiting(s, req, c)
        && s.avail.slots[s.avail.head % NUM] == c.i0
    case Check(req, c) => InFlight(s, req, c)
    case Sleep(req, c) => InFlight(s, req, c)
    case Finish(req, c) => InFlight(s, req, c) && s.stage[c.i0] == Cleared
    case Leave(req) => DataOk(s, req, true)
  }

  predicate Waiting(s: State, req: Req, c: Chain)
    requires Sized(s) && req.b < |s.bufs| && ChainOk(c)
  {
    DescsFormatted(s, req, c) && s.info[c.i0].status == 255 && s.bufs[req.b].disk
  }

  predicate InFlight(s: State, req: Req, c: Chain)
    requires Sized(s) && req.b < |s.bufs| && ChainOk(c)
  {
    && DescsFormatted(s, req, c) && s.stage[c.i0] != Unsent
    && (s.bufs[req.b].disk <==> s.stage[c.i0] != Cleared)
    && s.info[c.i0].status == (if AtDevice(s.stage[c.i0]) then 255 else 0)
    && DataOk(s, req, !AtDevice(s.stage[c.i0]))
  }

  /** The ring's entries are distinct heads, exactly those at the stage. */
  ghost predicate QueueOk(r: Ring, stages: seq<Stage>, stage: Stage)
    requires |stages| == NUM
  {
    RingOk(r) && Below(Entries(r), NUM) && Distinct(Entries(r)) && forall h: nat | h < NUM ::
      h in Entries(r) <==> stages[h] == stage
  }

  predicate DeviceOk(s: State)
    requires Sized(s)
  {
    s.posting.Some? ==>
      s.posting.value < NUM && s.stage[s.posting.value] == Served
      && s.used.slots[s.used.head % NUM] == s.posting.value
  }

  predicate HandlerOk(s: State)
    requires Sized(s)
  {
    && (s.lock == Handler <==> !s.intr.Off?)
    && (s.intr.Got? ==> s.used.tail != s.used.head && s.intr.id == s.used.slots[s.used.tail % NUM])
    && (s.lock.By? ==> s.lock.t < |s.threads|)
  }

  ghost predicate Inv(s: State) {
    && Sized(s)
    && (forall t: nat | t < |s.threads| :: LockOk(s, t))
    && (forall t: nat | t < |s.threads| :: HoldsOk(s, t))
    && (forall t: nat | t < |s.threads| :: FlightOk(s, t))
    && (forall i: nat | i < NUM :: DescOk(s, i))
    && (forall h: nat | h < NUM :: HeadOk(s, h))
    && QueueOk(s.avail, s.stage, InAvail) && QueueOk(s.used, s.stage, InUsed)
    && DeviceOk(s) && HandlerOk(s)
  }

  // ---- Steps of a thread ----

  /** Everything the invariant says about thread q. */
  predicate ThreadOk(s: State, q: nat)
    requires Sized(s) && q < |s.threads|
  {
    LockOk(s, q) && HoldsOk(s, q) && FlightOk(s, q)
  }

  /** Everything the invariant says about descriptor i. */
  predicate SlotOk(s: State, i: nat)
    requires Sized(s) && i < NUM
  {
    DescOk(s, i) && HeadOk(s, i)
  }

  /** Enter, Check and Leave, and Alloc when descriptors are short: only the thread's
      place, the lock and the buffer's holder change. */
  predicate Quiet(s: State, t: nat)
    requires CanRun(s, t)
  {
    var pc := s.threads[t];
    pc.Enter? || pc.Check? || pc.Leave? || (pc.Alloc? && Alloc3(s.free).None?)
  }

  lemma QuietThread(s: State, t: nat, q: nat)
    requires CanRun(s, t) && Quiet(s, t) && q < |s.threads| && ThreadOk(s, t) && ThreadOk(s, q)
    ensures ThreadOk(Statement(s, t), q)
  {
    hide Alloc3, FirstFree;
  }

  lemma QuietSlot(s: State, t: nat, i: nat)
    requires CanRun(s, t) && Quiet(s, t) && i < NUM && ThreadOk(s, t) && SlotOk(s, i)
    ensures SlotOk(Statement(s, t), i)
  {
    hide Alloc3, FirstFree;
  }

  lemma AllocThread(s: State, t: nat, q: nat)
    requires CanRun(s, t) && s.threads[t].Alloc? && Alloc3(s.free).Some? && q < |s.threads| && ThreadOk(s, t)
      && ThreadOk(s, q)
    requires var c := Alloc3(s.free).value; SlotOk(s, c.i0) && SlotOk(s, c.i1) && SlotOk(s, c.i2)
    requires HasChain(s.threads[q]) ==>
      SlotOk(s, s.threads[q].c.i0) && SlotOk(s, s.threads[q].c.i1) && SlotOk(s, s.threads[q].c.i2)
    ensures ThreadOk(Statement(s, t), q)
  {
    hide Alloc3, FirstFree;
  }

  lemma AllocSlot(s: State, t: nat, i: nat)
    requires CanRun(s, t) && s.threads[t].Alloc? && Alloc3(s.free).Some? && i < NUM && ThreadOk(s, t) && SlotOk(s, i)
    ensures SlotOk(Statement(s, t), i)
  {
    hide Alloc3, FirstFree;
  }

  lemma FormatThread(s: State, t: nat, q: nat)
    requires CanRun(s, t) && s.threads[t].Format? && q < |s.threads| && ThreadOk(s, t) && ThreadOk(s, q)
    ensures ThreadOk(Statement(s, t), q)
  {
    hide Alloc3, FirstFree;
  }

  lemma FormatSlot(s: State, t: nat, i: nat)
    requires CanRun(s, t) && s.threads[t].Format? && i < NUM && ThreadOk(s, t) && SlotOk(s, i)
    ensures SlotOk(Statement(s, t), i)
  {
    hide Alloc3, FirstFree;
  }

  lemma FinishThread(s: State, t: nat, q: nat)
    requires CanRun(s, t) && s.threads[t].Finish? && q < |s.threads| && ThreadOk(s, t) && ThreadOk(s, q)
    ensures ThreadOk(Statement(s, t), q)
  {
    hide Alloc3, FirstFree;
  }

  lemma FinishSlot(s: State, t: nat, i: nat)
    requires CanRun(s, t) && s.threads[t].Finish? && i < NUM && ThreadOk(s, t) && SlotOk(s, i)
    ensures SlotOk(Statement(s, t), i)
  {
    hide Alloc3, FirstFree;
  }

  lemma SendThread(s: State, t: nat, q: nat)
    requires CanRun(s, t) && (s.threads[t].Slot? || s.threads[t].Bump?) && q < |s.threads| && ThreadOk(s, t)
      && ThreadOk(s, q)
    ensures ThreadOk(Statement(s, t), q)
  {
    hide Alloc3, FirstFree;
  }

  lemma SendSlot(s: State, t: nat, i: nat)
    requires CanRun(s, t) && (s.threads[t].Slot? || s.threads[t].Bump?) && i < NUM && ThreadOk(s, t) && SlotOk(s, i)
    ensures SlotOk(Statement(s, t), i)
  {
    hide Alloc3, FirstFree;
  }

  // ---- The queues ----

  /** A head that is not in the queue leaves a slot for it. */
  lemma QueueSlot(r: Ring, stages: seq<Stage>, stage: Stage, h: nat)
    requires |stages| == NUM && QueueOk(r, stages, stage) && h < NUM && stages[h] != stage
    ensures Count(r) < NUM && Entries(WriteSlot(r, h)) == Entries(r) && QueueOk(WriteSlot(r, h), stages, stage)
  {
    RoomForOne(Entries(r), h, NUM);
    SlotIsFree(r, h);
  }

  lemma QueuePush(r: Ring, stages: seq<Stage>, stage: Stage, h: nat)
    requires |stages| == NUM && QueueOk(r, stages, stage) && h < NUM && stages[h] != stage && r.slots[r.head % NUM] == h
    ensures QueueOk(Advance(r), stages[h := stage], stage)
  {
    var e := Entries(r);
    RoomForOne(e, h, NUM);
    Appended(r);
    var e', stages' := Entries(Advance(r)), stages[h := stage];
    forall i, j | 0 <= i < j < |e'| ensures e'[i] != e'[j] { if j == |e| { assert e[i] in e; } }
    forall k: nat | k < NUM ensures k in e' <==> stages'[k] == stage { assert k in e' <==> k in e || k == h; }
  }

  lemma QueuePop(r: Ring, stages: seq<Stage>, stage: Stage, next: Stage)
    requires |stages| == NUM && QueueOk(r, stages, stage) && r.tail != r.head && next != stage
    ensures var h := r.slots[r.tail % NUM]; h < NUM && stages[h] == stage && QueueOk(Take(r), stages[h := next], stage)
  {
    var e, h := Entries(r), r.slots[r.tail % NUM];
    Taken(r);
    assert e[0] == h && h in e;
    var e', stages' := Entries(Take(r)), stages[h := next];
    forall k: nat | k < NUM ensures k in e' <==> stages'[k] == stage {
      assert e == [h] + e';
      if k == h { forall i | 0 <= i < |e'| ensures e'[i] != h { assert e[i + 1] == e'[i]; } }
    }
  }

  lemma QueueStays(r: Ring, stages: seq<Stage>, stage: Stage, h: nat, next: Stage)
    requires |stages| == NUM && QueueOk(r, stages, stage) && h < NUM && stages[h] != stage && next != stage
    ensures QueueOk(r, stages[h := next], stage)
  {
  }

  ghost predicate QueuesOk(s: State)
    requires Sized(s)
  {
    QueueOk(s.avail, s.stage, InAvail) && QueueOk(s.used, s.stage, InUsed)
  }

  lemma RunQueues(s: State, t: nat)
    requires CanRun(s, t) && QueuesOk(s) && ThreadOk(s, t) && DeviceOk(s) && HandlerOk(s)
    ensures var s' := Statement(s, t); Sized(s') && QueuesOk(s') && DeviceOk(s') && HandlerOk(s')
  {
    hide QueueOk, DescsFormatted, DataOk, Alloc3;
    match s.threads[t]
    case Slot(req, c) => QueueSlot(s.avail, s.stage, InAvail, c.i0);
    case Bump(req, c) =>
      QueuePush(s.avail, s.stage, InAvail, c.i0);
      QueueStays(s.used, s.stage, InUsed, c.i0, InAvail);
    case Finish(req, c) =>
      QueueStays(s.avail, s.stage, InAvail, c.i0, Unsent);
      QueueStays(s.used, s.stage, InUsed, c.i0, Unsent);
    case _ =>
  }

  lemma RunThread(s: State, t: nat, q: nat)
    requires CanRun(s, t) && Inv(s) && q < |s.threads|
    ensures var s' := Statement(s, t); Sized(s') && |s'.threads| == |s.threads| && ThreadOk(s', q)
  {
    hide Statement, LockOk, HoldsOk, FlightOk, DescOk, HeadOk, QueueOk, DeviceOk, HandlerOk, Alloc3;
    assert LockOk(s, t) && HoldsOk(s, t) && FlightOk(s, t) && LockOk(s, q) && HoldsOk(s, q) && FlightOk(s, q);
    if Quiet(s, t) { QuietThread(s, t, q); }
    else {
      match s.threads[t]
      case Alloc(_) => AllocSlots(s, t, q); AllocThread(s, t, q);
      case Format(_, _) => FormatThread(s, t, q);
      case Slot(_, _) => SendThread(s, t, q);
      case Bump(_, _) => SendThread(s, t, q);
      case Finish(_, _) => FinishThread(s, t, q);
    }
  }

  lemma AllocSlots(s: State, t: nat, q: nat)
    requires CanRun(s, t) && Inv(s) && s.threads[t].Alloc? && Alloc3(s.free).Some? && q < |s.threads|
    ensures var c := Alloc3(s.free).value; SlotOk(s, c.i0) && SlotOk(s, c.i1) && SlotOk(s, c.i2)
    ensures HasChain(s.threads[q]) ==>
      ChainOk(s.threads[q].c) && SlotOk(s, s.threads[q].c.i0) && SlotOk(s, s.threads[q].c.i1)
      && SlotOk(s, s.threads[q].c.i2)
  {
    hide FlightOk, LockOk, QueueOk, DeviceOk, HandlerOk;
    assert HoldsOk(s, q);
    forall i: nat | i < NUM ensures SlotOk(s, i) { assert DescOk(s, i) && HeadOk(s, i); }
  }

  lemma RunSlot(s: State, t: nat, i: nat)
    requires CanRun(s, t) && Inv(s) && i < NUM
    ensures var s' := Statement(s, t); Sized(s') && SlotOk(s', i)
  {
    hide Statement, LockOk, HoldsOk, FlightOk, DescOk, HeadOk, QueueOk, DeviceOk, HandlerOk, Alloc3;
    assert LockOk(s, t) && HoldsOk(s, t) && FlightOk(s, t) && DescOk(s, i) && HeadOk(s, i);
    if Quiet(s, t) { QuietSlot(s, t, i); }
    else {
      match s.threads[t]
      case Alloc(_) => AllocSlot(s, t, i);
      case Format(_, _) => FormatSlot(s, t, i);
      case Slot(_, _) => SendSlot(s, t, i);
      case Bump(_, _) => SendSlot(s, t, i);
      case Finish(_, _) => FinishSlot(s, t, i);
    }
  }

  lemma RunKept(s: State, t: nat)
    requires CanRun(s, t) && Inv(s)
    ensures Inv(Statement(s, t))
  {
    hide Statement, QueueOk, DeviceOk, HandlerOk, LockOk, HoldsOk, FlightOk, DescOk, HeadOk;
    var s' := Statement(s, t);
    assert LockOk(s, t) && HoldsOk(s, t) && FlightOk(s, t);
    RunQueues(s, t);
    forall q: nat | q < |s'.threads| ensures LockOk(s', q) && HoldsOk(s', q) && FlightOk(s', q) { RunThread(s, t, q); }
    forall i: nat | i < NUM ensures DescOk(s', i) && HeadOk(s', i) { RunSlot(s, t, i); }
  }

  // ---- The other steps ----

  /** The steps that change no request's stage: Start, Modify and Wake, the handler's
      first, and the device's write to a used slot. */
  predicate Calm(a: Action) {
    a.Start? || a.Modify? || a.Wake? || a.IntrEnter? || a.DevSlot?
  }

  lemma CalmThread(s: State, a: Action, q: nat)
    requires Enabled(s, a) && Calm(a) && q < |s.threads| && ThreadOk(s, q) && HandlerOk(s)
    requires (a.Start? || a.Wake?) ==> ThreadOk(s, a.t)
    ensures ThreadOk(Effect(s, a), q)
  {
    hide Statement;
  }

  lemma CalmSlot(s: State, a: Action, i: nat)
    requires Enabled(s, a) && Calm(a) && i < NUM && SlotOk(s, i)
    ensures SlotOk(Effect(s, a), i)
  {
    hide Statement;
  }

  lemma FirstSlotKept(r: Ring, stages: seq<Stage>)
    requires |stages| == NUM && QueueOk(r, stages, InUsed) && Count(r) < NUM && r.tail != r.head
    ensures r.tail % NUM != r.head % NUM
  {
    EmptyWhenMet(r);
    SlotNumber(r, 0);
  }

  lemma CalmQueues(s: State, a: Action)
    requires Enabled(s, a) && Calm(a) && QueuesOk(s) && DeviceOk(s) && HandlerOk(s)
    ensures var s' := Effect(s, a); Sized(s') && QueuesOk(s') && DeviceOk(s') && HandlerOk(s')
  {
    hide Statement, QueueOk, Count, Entries;
    if a.DevSlot? {
      QueueSlot(s.used, s.stage, InUsed, a.h);
      if s.intr.Got? { FirstSlotKept(s.used, s.stage); }
    }
  }

  /** The device takes a request from the queue. */
  lemma TakeThread(s: State, q: nat)
    requires Enabled(s, DevTake) && q < |s.threads| && ThreadOk(s, q)
    requires var h := s.avail.slots[s.avail.tail % NUM]; s.stage[h] == InAvail
    ensures ThreadOk(Effect(s, DevTake), q)
  {
    hide Statement;
  }

  lemma TakeSlot(s: State, i: nat)
    requires Enabled(s, DevTake) && i < NUM && SlotOk(s, i)
    requires var h := s.avail.slots[s.avail.tail % NUM]; s.stage[h] == InAvail
    ensures SlotOk(Effect(s, DevTake), i)
  {
    hide Statement;
  }

  /** The request that the device serves is the one the thread sent: it follows the
      chain to the thread's header, buffer and status byte. */
  lemma DeviceFinds(s: State, h: nat, t: nat)
    requires Sized(s) && h < NUM && s.stage[h] == InDevice && SlotOk(s, h) && s.owner[h] == Some(t) && t < |s.threads|
      && ThreadOk(s, t)
    ensures var pc := s.threads[t];
            && Sent(pc) && ChainOk(pc.c) && pc.c.i0 == h && DeviceFits(s, h)
            && s.ops[s.desc[h].addr.i] == Op(pc.req.write, 2 * pc.req.b)
            && s.desc[s.desc[h].next].addr == Buffer(pc.req.b) && s.desc[s.desc[s.desc[h].next].next].addr == Status(h)
  {
  }

  lemma ServeThread(s: State, h: nat, t: nat, q: nat)
    requires Enabled(s, DevServe(h)) && SlotOk(s, h) && s.owner[h] == Some(t) && t < |s.threads| && q < |s.threads|
    requires ThreadOk(s, t) && ThreadOk(s, q)
    ensures ThreadOk(Effect(s, DevServe(h)), q)
  {
    hide Statement;
    DeviceFinds(s, h, t);
  }

  lemma ServeSlot(s: State, h: nat, i: nat)
    requires Enabled(s, DevServe(h)) && i < NUM && SlotOk(s, i)
    ensures SlotOk(Effect(s, DevServe(h)), i)
  {
    hide Statement;
  }

  lemma PostThread(s: State, q: nat)
    requires Enabled(s, DevBump) && DeviceOk(s) && q < |s.threads| && ThreadOk(s, q)
    ensures ThreadOk(Effect(s, DevBump), q)
  {
    hide Statement;
  }

  lemma PostSlot(s: State, i: nat)
    requires Enabled(s, DevBump) && DeviceOk(s) && i < NUM && SlotOk(s, i)
    ensures SlotOk(Effect(s, DevBump), i)
  {
    hide Statement;
  }

  lemma DeviceQueues(s: State, a: Action)
    requires Enabled(s, a) && (a.DevTake? || a.DevServe? || a.DevBump?) && QueuesOk(s) && DeviceOk(s) && HandlerOk(s)
    ensures var s' := Effect(s, a); Sized(s') && QueuesOk(s') && DeviceOk(s') && HandlerOk(s')
  {
    hide Statement, QueueOk, Count, Entries;
    match a
    case DevTake =>
      QueuePop(s.avail, s.stage, InAvail, InDevice);
      QueueStays(s.used, s.stage, InUsed, s.avail.slots[s.avail.tail % NUM], InDevice);
    case DevServe(h) =>
      QueueStays(s.avail, s.stage, InAvail, h, Served);
      QueueStays(s.used, s.stage, InUsed, h, Served);
    case DevBump =>
      QueueStays(s.avail, s.stage, InAvail, s.posting.value, InUsed);
      QueuePush(s.used, s.stage, InUsed, s.posting.value);
      AdvanceApart(s.used, s.stage, s.posting.value);
  }

  lemma AdvanceApart(r: Ring, stages: seq<Stage>, h: nat)
    requires |stages| == NUM && QueueOk(r, stages, InUsed) && h < NUM && stages[h] != InUsed
    ensures Advance(r).tail != Advance(r).head
  {
    RoomForOne(Entries(r), h, NUM);
    Appended(r);
    EmptyWhenMet(Advance(r));
  }

  /** The handler finds the head of a request that waits, with its buffer and status 0. */
  lemma HandlerFinds(s: State, t: nat)
    requires Sized(s) && s.intr.Got? && s.intr.id < NUM && s.stage[s.intr.id] == InUsed && SlotOk(s, s.intr.id)
    requires s.owner[s.intr.id] == Some(t) && t < |s.threads| && ThreadOk(s, t)
    ensures var pc := s.threads[t];
            && Sent(pc) && ChainOk(pc.c) && pc.c.i0 == s.intr.id && HandlerFits(s, s.intr.id)
            && s.info[s.intr.id].b == Some(pc.req.b) && pc.req.b < |s.bufs| && s.bufs[pc.req.b].disk
  {
  }

  lemma ClearThread(s: State, t: nat, q: nat)
    requires Enabled(s, IntrRun) && s.intr.Got? && s.intr.id < NUM && s.stage[s.intr.id] == InUsed
      && SlotOk(s, s.intr.id)
    requires s.owner[s.intr.id] == Some(t) && t < |s.threads| && q < |s.threads| && ThreadOk(s, t) && ThreadOk(s, q)
    ensures ThreadOk(Effect(s, IntrRun), q)
  {
    hide Statement;
    HandlerFinds(s, t);
  }

  lemma ClearSlot(s: State, i: nat)
    requires Enabled(s, IntrRun) && s.intr.Got? && s.stage[s.intr.id] == InUsed && i < NUM && SlotOk(s, i)
    ensures SlotOk(Effect(s, IntrRun), i)
  {
    hide Statement;
  }

  lemma LookThread(s: State, q: nat)
    requires Enabled(s, IntrRun) && s.intr.Look? && q < |s.threads| && ThreadOk(s, q) && HandlerOk(s)
    ensures ThreadOk(Effect(s, IntrRun), q)
  {
    hide Statement;
  }

  lemma LookSlot(s: State, i: nat)
    requires Enabled(s, IntrRun) && s.intr.Look? && i < NUM && SlotOk(s, i)
    ensures SlotOk(Effect(s, IntrRun), i)
  {
    hide Statement;
  }

  lemma HandlerQueues(s: State)
    requires Enabled(s, IntrRun) && QueuesOk(s) && DeviceOk(s) && HandlerOk(s)
    ensures var s' := Effect(s, IntrRun); QueuesOk(s') && DeviceOk(s') && HandlerOk(s')
  {
    hide Statement, QueueOk, Count, Entries;
    if s.intr.Got? {
      QueuePop(s.used, s.stage, InUsed, Cleared);
      QueueStays(s.avail, s.stage, InAvail, s.intr.id, Cleared);
    }
  }

  /** The thread that owns a head. */
  lemma OwnerOf(s: State, h: nat) returns (t: nat)
    requires Inv(s) && h < NUM && s.stage[h] != Unsent
    ensures s.owner[h] == Some(t) && t < |s.threads| && ThreadOk(s, t) && SlotOk(s, h)
  {
    hide QueueOk, FlightOk, HoldsOk, LockOk;
    assert HeadOk(s, h) && DescOk(s, h);
    t := s.owner[h].value;
    assert LockOk(s, t) && HoldsOk(s, t) && FlightOk(s, t);
  }

  /** The entry the handler has read is one that was posted. */
  lemma GotIsUsed(s: State)
    requires Inv(s) && s.intr.Got?
    ensures s.intr.id < NUM && s.stage[s.intr.id] == InUsed
  {
    hide FlightOk, HoldsOk, LockOk, DescOk, HeadOk, QueueOk;
    QueuePop(s.used, s.stage, InUsed, Cleared);
  }

  lemma OtherThread(s: State, a: Action, q: nat)
    requires Inv(s) && Enabled(s, a) && !a.Run? && q < |s.threads|
    ensures ThreadOk(Effect(s, a), q)
  {
    hide Effect, Statement, LockOk, HoldsOk, FlightOk, DescOk, HeadOk, QueueOk, DeviceFits, HandlerFits;
    assert LockOk(s, q) && HoldsOk(s, q) && FlightOk(s, q);
    if Calm(a) {
      if a.Start? || a.Wake? { assert LockOk(s, a.t) && HoldsOk(s, a.t) && FlightOk(s, a.t); }
      CalmThread(s, a, q);
    } else {
      match a
      case DevTake => QueuePop(s.avail, s.stage, InAvail, InDevice); TakeThread(s, q);
      case DevServe(h) => var t := OwnerOf(s, h); ServeThread(s, h, t, q);
      case DevBump => PostThread(s, q);
      case IntrRun =>
        if s.intr.Look? {
          LookThread(s, q);
        } else {
          GotIsUsed(s);
          var t := OwnerOf(s, s.intr.id);
          ClearThread(s, t, q);
        }
    }
  }

  lemma OtherSlot(s: State, a: Action, i: nat)
    requires Inv(s) && Enabled(s, a) && !a.Run? && i < NUM
    ensures SlotOk(Effect(s, a), i)
  {
    hide Effect, Statement, LockOk, HoldsOk, FlightOk, DescOk, HeadOk, QueueOk, DeviceFits, HandlerFits;
    assert DescOk(s, i) && HeadOk(s, i);
    if Calm(a) {
      CalmSlot(s, a, i);
    } else {
      match a
      case DevTake => QueuePop(s.avail, s.stage, InAvail, InDevice); TakeSlot(s, i);
      case DevServe(h) => ServeSlot(s, h, i);
      case DevBump => PostSlot(s, i);
      case IntrRun => if s.intr.Look? { LookSlot(s, i); } else { GotIsUsed(s); ClearSlot(s, i); }
    }
  }

  lemma StepKept(s: State, a: Action)
    requires Inv(s) && Enabled(s, a)
    ensures Inv(Effect(s, a))
  {
    if a.Run? {
      RunKept(s, a.t);
    } else {
      OtherKept(s, a);
    }
  }

  lemma OtherKept(s: State, a: Action)
    requires Inv(s) && Enabled(s, a) && !a.Run?
    ensures Inv(Effect(s, a))
  {
    hide Effect, Statement, LockOk, HoldsOk, FlightOk, DescOk, HeadOk, QueueOk, DeviceOk, HandlerOk, Enabled;
    var s' := Effect(s, a);
    if Calm(a) { CalmQueues(s, a); } else if a.IntrRun? { HandlerQueues(s); } else { DeviceQueues(s, a); }
    forall q: nat | q < |s'.threads| ensures LockOk(s', q) && HoldsOk(s', q) && FlightOk(s', q) {
      OtherThread(s, a, q);
    }
    forall i: nat | i < NUM ensures DescOk(s', i) && HeadOk(s', i) { OtherSlot(s, a, i); }
  }

  lemma {:induction false} PathKept(s: State, actions: seq<Action>, s': State)
    requires Inv(s) && Path(s, actions, s')
    ensures Inv(s')
    decreases |actions|
  {
    hide Effect, Inv, Enabled;
    if actions != [] {
      StepKept(s, actions[0]);
      PathKept(Effect(s, actions[0]), actions[1..], s');
    }
  }

  lemma InitInv(s: State)
    requires Init(s)
    ensures Inv(s)
  {
  }

  lemma ReachableInv(s: State)
    requires Reachable(s)
    ensures Inv(s)
  {
    hide Inv, Init;
    var s0, actions :| Init(s0) && Path(s0, actions, s);
    InitInv(s0);
    PathKept(s0, actions, s);
  }
}

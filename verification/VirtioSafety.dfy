/** What holds in every reachable state of the virtio driver and its device, and the
    driver's descriptor code. */
module VirtioSafety {
  import opened Common
  import opened VirtioRing
  import opened Virtio

  /** Thread t's request uses descriptor i. */
  predicate Uses(s: State, t: nat, i: nat)
    requires t < |s.threads|
  {
    HasChain(s.threads[t]) && In(s.threads[t].c, i)
  }

  /** Every descriptor is free or in exactly one chain, and chains have three descriptors. */
  lemma DescriptorsSplit(s: State, i: nat)
    requires Reachable(s) && i < NUM
    ensures Sized(s)
    ensures s.free[i] <==> !exists t: nat :: t < |s.threads| && Uses(s, t, i)
    ensures forall t: nat, u: nat | t < |s.threads| && u < |s.threads| && Uses(s, t, i) && Uses(s, u, i) :: t == u
    ensures forall t: nat | t < |s.threads| && HasChain(s.threads[t]) :: ChainOk(s.threads[t].c)
  {
    hide QueueOk, FlightOk, LockOk;
    ReachableInv(s);
    assert DescOk(s, i);
    forall t: nat | t < |s.threads|
      ensures (Uses(s, t, i) ==> s.owner[i] == Some(t)) && (HasChain(s.threads[t]) ==> ChainOk(s.threads[t].c))
    {
      assert HoldsOk(s, t);
    }
    if s.owner[i].Some? { assert Uses(s, s.owner[i].value, i); }
  }

  /** An entry of the used ring is the head of one thread's request, which waits for it. */
  ghost predicate Completes(s: State, h: nat, t: nat)
    requires Sized(s)
  {
    && h < NUM && t < |s.threads| && Sent(s.threads[t]) && s.threads[t].c.i0 == h
    && s.info[h] == Info(Some(s.threads[t].req.b), 0)
    && s.threads[t].req.b < |s.bufs| && s.bufs[s.threads[t].req.b].disk
  }

  lemma UsedEntriesComplete(s: State, k: nat)
    requires Reachable(s) && RingOk(s.used) && k < |Entries(s.used)|
    ensures Sized(s) && exists t: nat :: Completes(s, Entries(s.used)[k], t)
  {
    ReachableInv(s);
    var h := Entries(s.used)[k];
    assert h in Entries(s.used) && h < NUM && s.stage[h] == InUsed;
    Complete(s, h);
  }

  lemma Complete(s: State, h: nat)
    requires Inv(s) && h < NUM && s.stage[h] == InUsed
    ensures exists t: nat :: Completes(s, h, t)
  {
    hide QueueOk;
    var t := OwnerOf(s, h);
    assert Completes(s, h, t);
  }

  /** Neither ring ever loses an entry to a write: there is always a slot to spare,
      whatever the 16-bit indices are. */
  lemma NoSlotOverwritten(s: State, t: nat, h: nat)
    requires Reachable(s)
    ensures Sized(s) && RingOk(s.avail) && RingOk(s.used)
    ensures t < |s.threads| && s.threads[t].Slot? ==> var r := WriteSlot(s.avail, s.threads[t].c.i0);
      RingOk(r) && Entries(r) == Entries(s.avail)
    ensures h < NUM && s.stage[h] == Served ==> var r := WriteSlot(s.used, h);
      RingOk(r) && Entries(r) == Entries(s.used)
  {
    ReachableInv(s);
    hide Inv, FlightOk, HoldsOk, LockOk, DescOk, HeadOk;
    InvParts(s, t);
    if t < |s.threads| && s.threads[t].Slot? {
      SlotUnsent(s, t);
      QueueSlot(s.avail, s.stage, InAvail, s.threads[t].c.i0);
    }
    if h < NUM && s.stage[h] == Served { QueueSlot(s.used, s.stage, InUsed, h); }
  }

  lemma InvParts(s: State, t: nat)
    requires Inv(s)
    ensures Sized(s) && QueueOk(s.avail, s.stage, InAvail) && QueueOk(s.used, s.stage, InUsed)
    ensures t < |s.threads| ==> FlightOk(s, t)
  {
  }

  lemma SlotUnsent(s: State, t: nat)
    requires Sized(s) && t < |s.threads| && s.threads[t].Slot? && FlightOk(s, t)
    ensures s.threads[t].c.i0 < NUM && s.stage[s.threads[t].c.i0] == Unsent
  {
  }

  /** b->disk is cleared by the handler only, for a request whose entry it has just
      read; that request's entry is then gone, so it is cleared exactly once. */
  lemma ClearedOnce(s: State, a: Action, b: nat)
    requires Reachable(s) && Enabled(s, a) && b < |s.bufs| && s.bufs[b].disk && !Effect(s, a).bufs[b].disk
    ensures a == IntrRun && s.intr.Got? && s.intr.id < NUM && s.info[s.intr.id].b == Some(b)
    ensures s.stage[s.intr.id] == InUsed && Effect(s, a).stage[s.intr.id] == Cleared
    ensures RingOk(Effect(s, a).used) && s.intr.id !in Entries(Effect(s, a).used)
  {
    ReachableInv(s);
    hide Inv, Effect, Enabled, Entries;
    OnlyHandlerClears(s, a, b);
    HandlerTakes(s);
  }

  lemma HandlerTakes(s: State)
    requires Inv(s) && Enabled(s, IntrRun) && s.intr.Got?
    ensures s.intr.id < NUM && s.stage[s.intr.id] == InUsed && Effect(s, IntrRun).stage[s.intr.id] == Cleared
    ensures RingOk(Effect(s, IntrRun).used) && s.intr.id !in Entries(Effect(s, IntrRun).used)
  {
    hide FlightOk, HoldsOk, LockOk, DescOk, HeadOk, QueueOk, Statement;
    GotIsUsed(s);
    QueuePop(s.used, s.stage, InUsed, Cleared);
    NotAmong(Effect(s, IntrRun), s.intr.id);
  }

  lemma OnlyHandlerClears(s: State, a: Action, b: nat)
    requires Enabled(s, a) && b < |s.bufs| && s.bufs[b].disk && b < |Effect(s, a).bufs| && !Effect(s, a).bufs[b].disk
    ensures a == IntrRun && s.intr.Got? && s.intr.id < NUM && s.info[s.intr.id].b == Some(b)
  {
    hide Alloc3, FirstFree;
  }

  lemma NotAmong(s: State, h: nat)
    requires Sized(s) && QueueOk(s.used, s.stage, InUsed) && h < NUM && s.stage[h] != InUsed
    ensures RingOk(s.used) && h !in Entries(s.used)
  {
  }

  /** When virtio_disk_rw returns, the block has been read or written, and nothing else was done to it. */
  lemma TransferDone(s: State, t: nat)
    requires Reachable(s) && t < |s.threads| && s.threads[t].Leave?
    ensures Sized(s) && var req := s.threads[t].req;
            && req.b < |s.bufs|
            && (req.write ==> s.media[req.b] == req.data && s.bufs[req.b].data == req.data)
            && (!req.write ==> s.media[req.b] == req.media && s.bufs[req.b].data == req.media)
  {
    ReachableInv(s);
    assert FlightOk(s, t);
  }

  /** The handler never meets an entry without a buffer or with a bad status, and the
      device never meets a chain that it cannot follow. */
  lemma NoPanicNoGarbage(s: State, h: nat)
    requires Reachable(s)
    ensures Sized(s) && (s.intr.Got? ==> HandlerFits(s, s.intr.id))
    ensures h < NUM && s.stage[h] == InDevice ==> DeviceFits(s, h)
    ensures s.avail.tail != s.avail.head ==> s.avail.slots[s.avail.tail % NUM] < NUM
  {
    ReachableInv(s);
    hide FlightOk, HoldsOk, LockOk, DescOk, HeadOk, QueueOk, HandlerFits, DeviceFits;
    if s.intr.Got? {
      GotIsUsed(s);
      var t := OwnerOf(s, s.intr.id);
      HandlerFinds(s, t);
    }
    if h < NUM && s.stage[h] == InDevice {
      var t := OwnerOf(s, h);
      DeviceFinds(s, h, t);
    }
    if s.avail.tail != s.avail.head { QueuePop(s.avail, s.stage, InAvail, InDevice); }
  }

  /** free_chain's walk from idx[0] is over exactly the thread's three descriptors, none of them free. */
  lemma ChainToFree(s: State, t: nat)
    requires Reachable(s) && t < |s.threads| && s.threads[t].Finish?
    ensures Sized(s) && var c := s.threads[t].c; ChainOk(c) && Linked(s.desc, s.free, c)
  {
    ReachableInv(s);
    hide QueueOk;
    assert FlightOk(s, t) && HoldsOk(s, t);
    var c := s.threads[t].c;
    assert DescOk(s, c.i0) && DescOk(s, c.i1) && DescOk(s, c.i2);
  }

  // ---- The descriptor code ----

  /** desc links i0 to i1 to i2, and none of them is free. */
  predicate Linked(desc: seq<Desc>, free: seq<bool>, c: Chain)
    requires |desc| == NUM && |free| == NUM && ChainOk(c)
  {
    && desc[c.i0].more && desc[c.i0].next == c.i1 && desc[c.i1].more && desc[c.i1].next == c.i2 && !desc[c.i2].more
    && !free[c.i0] && !free[c.i1] && !free[c.i2]
  }

  class Descriptors {
    const free: array<bool>
    const desc: array<Desc>

    ghost predicate Valid()
      reads this
    {
      free.Length == NUM && desc.Length == NUM
    }

    /** virtio_disk_init: all descriptors start out unused. */
    constructor ()
      ensures Valid() && fresh(free) && fresh(desc)
      ensures forall i | 0 <= i < NUM :: free[i] && desc[i] == NODESC
    {
      free := new bool[NUM](i => true);
      desc := new Desc[NUM](i => NODESC);
    }

    /** Find a free descriptor and mark it in use; NUM if there is none. */
    method AllocDesc() returns (i: nat)
      requires Valid()
      modifies free
      ensures i == FirstFree(old(free[..]), 0)
      ensures free[..] == if i < NUM then old(free[..])[i := false] else old(free[..])
    {
      i := 0;
      while i < NUM
        invariant i <= NUM && free[..] == old(free[..]) && FirstFree(old(free[..]), 0) == FirstFree(old(free[..]), i)
      {
        assert free[i] == free[..][i];
        if free[i] {
          free[i] := false;
          return;
        }
        i := i + 1;
      }
    }

    /** Freeing a free descriptor panics. */
    method FreeDesc(i: nat)
      requires Valid() && i < NUM && !free[i]
      modifies free, desc
      ensures free[..] == old(free[..])[i := true] && desc[..] == old(desc[..])[i := NODESC]
    {
      desc[i] := NODESC;
      free[i] := true;
    }

    /** Three descriptors, or none; then those it found are given back. */
    method Alloc3Desc() returns (c: Option<Chain>)
      requires Valid() && forall k | 0 <= k < NUM && free[k] :: desc[k] == NODESC
      modifies free, desc
      ensures c == Alloc3(old(free[..])) && desc[..] == old(desc[..])
      ensures c.None? ==> free[..] == old(free[..])
      ensures c.Some? ==> free[..] == old(free[..])[c.value.i0 := false][c.value.i1 := false][c.value.i2 := false]
    {
      hide FirstFree;
      ghost var f := free[..];
      var idx: seq<nat> := [];
      while |idx| < 3
        invariant |idx| <= 3 && Picked(f, free[..], idx) && desc[..] == old(desc[..])
        decreases 3 - |idx|
      {
        PickedNext(f, free[..], idx);
        var d := AllocDesc();
        if d == NUM {
          GiveBack(idx, f);
          return None;
        }
        idx := idx + [d];
      }
      return Some(Chain(idx[0], idx[1], idx[2]));
    }

    /** alloc3_desc's way out: frees what it had allocated. */
    method GiveBack(idx: seq<nat>, ghost f: seq<bool>)
      requires Valid() && |idx| < 3 && Picked(f, free[..], idx) && |f| == NUM
      requires forall k | 0 <= k < NUM && f[k] :: desc[k] == NODESC
      modifies free, desc
      ensures free[..] == f && desc[..] == old(desc[..])
    {
      hide FirstFree;
      var j := 0;
      while j < |idx|
        invariant j <= |idx| && desc[..] == old(desc[..])
        invariant forall k | 0 <= k < NUM :: free[k] == (f[k] && k !in idx[j..])
      {
        assert idx[j] in idx[j..] && f[idx[j]] && desc[..][idx[j]] == NODESC;
        ghost var was := free[..];
        FreeDesc(idx[j]);
        forall k | 0 <= k < NUM ensures free[k] == (f[k] && k !in idx[j + 1..]) {
          assert free[k] == free[..][k] && was[k] == (f[k] && k !in idx[j..]);
          assert idx[j..] == [idx[j]] + idx[j + 1..];
          if k == idx[j] { Ascending(idx, j); }
        }
        j := j + 1;
      }
    }

    /** Free a chain of descriptors, following the links. */
    method FreeChain(head: nat, ghost c: Chain)
      requires Valid() && ChainOk(c) && head == c.i0 && Linked(desc[..], free[..], c)
      modifies free, desc
      ensures free[..] == old(free[..])[c.i0 := true][c.i1 := true][c.i2 := true]
      ensures desc[..] == old(desc[..])[c.i0 := NODESC][c.i1 := NODESC][c.i2 := NODESC]
    {
      var i, more := head, true;
      ghost var n := 0;
      while more
        invariant 0 <= n <= 3 && (more <==> n < 3)
        invariant n < 3 ==> i == Nth(c, n)
        invariant free[..] == FreedUpTo(old(free[..]), c, n)
        invariant desc[..] == ClearedUpTo(old(desc[..]), c, n)
        decreases 3 - n
      {
        var flag, nxt := desc[i].more, desc[i].next;
        assert desc[i] == desc[..][i] && free[i] == free[..][i];
        FreeDesc(i);
        more := flag;
        i := nxt;
        n := n + 1;
      }
    }
  }

  function Nth(c: Chain, n: nat): nat {
    if n == 0 then c.i0 else if n == 1 then c.i1 else c.i2
  }

  function FreedUpTo(free: seq<bool>, c: Chain, n: nat): seq<bool>
    requires |free| == NUM && ChainOk(c)
  {
    if n == 0 then free
    else if n == 1 then free[c.i0 := true]
    else if n == 2 then free[c.i0 := true][c.i1 := true]
    else free[c.i0 := true][c.i1 := true][c.i2 := true]
  }

  function ClearedUpTo(desc: seq<Desc>, c: Chain, n: nat): seq<Desc>
    requires |desc| == NUM && ChainOk(c)
  {
    if n == 0 then desc
    else if n == 1 then desc[c.i0 := NODESC]
    else if n == 2 then desc[c.i0 := NODESC][c.i1 := NODESC]
    else desc[c.i0 := NODESC][c.i1 := NODESC][c.i2 := NODESC]
  }

  /** idx are the first free descriptors of f, in order, and now is f without them. */
  predicate Picked(f: seq<bool>, now: seq<bool>, idx: seq<nat>) {
    && |f| == NUM && |now| == NUM && |idx| <= 3
    && (|idx| > 0 ==> idx[0] == FirstFree(f, 0) < NUM)
    && (|idx| > 1 ==> idx[0] < NUM && idx[1] == FirstFree(f, idx[0] + 1) < NUM)
    && (|idx| > 2 ==> idx[1] < NUM && idx[2] == FirstFree(f, idx[1] + 1) < NUM)
    && (forall k | 0 <= k < NUM :: now[k] == (f[k] && k !in idx))
  }

  function After(idx: seq<nat>): nat {
    if idx == [] then 0 else idx[|idx| - 1] + 1
  }

  lemma {:induction false} FirstFreeSkips(f: seq<bool>, now: seq<bool>, i: nat, n: nat)
    requires |f| == |now| && i <= n <= |f| && (forall k | i <= k < n :: !now[k])
      && (forall k | n <= k < |f| :: now[k] == f[k])
    ensures FirstFree(now, i) == FirstFree(f, n)
    decreases |f| - i
  {
    if i < n { FirstFreeSkips(f, now, i + 1, n); }
    else if i < |f| && !f[i] { FirstFreeSkips(f, now, i + 1, i + 1); }
  }

  lemma {:induction false} NoneBetween(f: seq<bool>, i: nat)
    requires i <= |f|
    ensures forall k | i <= k < FirstFree(f, i) :: !f[k]
    decreases |f| - i
  {
    if i < |f| && !f[i] { NoneBetween(f, i + 1); }
  }

  /** The next descriptor that alloc_desc finds. */
  lemma PickedNext(f: seq<bool>, now: seq<bool>, idx: seq<nat>)
    requires Picked(f, now, idx)
    ensures After(idx) <= NUM && FirstFree(now, 0) == FirstFree(f, After(idx))
  {
    NoneBetween(f, 0);
    if |idx| > 0 { NoneBetween(f, idx[0] + 1); }
    if |idx| > 1 { NoneBetween(f, idx[1] + 1); }
    FirstFreeSkips(f, now, 0, After(idx));
  }

  lemma Ascending(idx: seq<nat>, j: nat)
    requires j < |idx| <= 3 && (|idx| > 1 ==> idx[0] < idx[1]) && (|idx| > 2 ==> idx[1] < idx[2])
    ensures idx[j] !in idx[j + 1..]
  {
  }
}

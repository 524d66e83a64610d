/** A virtio ring (kernel/virtio.h, kernel/virtio_disk.c): a producer writes a slot and
    then advances its index, a consumer reads slots up to it. The indices are 16 bits
    wide and run on past the ring's size; slot number index % NUM. */
module VirtioRing {
  import opened Common

  const NUM: nat := 8
  const WRAP: nat := 0x1_0000

  /** tail is the consumer's index, head the producer's. */
  datatype Ring = Ring(slots: seq<nat>, tail: nat, head: nat)

  /** The number of entries between two indices, across the wrap-around. */
  function Count(r: Ring): nat {
    (r.head + WRAP - r.tail % WRAP) % WRAP
  }

  predicate RingOk(r: Ring) {
    |r.slots| == NUM && r.tail < WRAP && r.head < WRAP && Count(r) <= NUM
  }

  /** The entries the consumer has yet to take, oldest first. */
  function Entries(r: Ring): (e: seq<nat>)
    requires RingOk(r)
    ensures |e| == Count(r)
  {
    seq(Count(r), k requires 0 <= k < Count(r) => r.slots[(r.tail + k) % NUM])
  }

  function WriteSlot(r: Ring, x: nat): Ring
    requires |r.slots| == NUM
  {
    r.(slots := r.slots[r.head % NUM := x])
  }

  function Advance(r: Ring): Ring {
    r.(head := (r.head + 1) % WRAP)
  }

  function Take(r: Ring): Ring {
    r.(tail := (r.tail + 1) % WRAP)
  }

  lemma SlotNumber(r: Ring, k: nat)
    requires r.tail < WRAP && r.head < WRAP && k < Count(r) < NUM
    ensures (r.tail + k) % NUM != r.head % NUM
  {
    var n := Count(r);
    assert r.head == r.tail + n || r.head + WRAP == r.tail + n;
  }

  lemma TailSlot(r: Ring)
    requires r.tail < WRAP && r.head < WRAP
    ensures (r.tail + Count(r)) % NUM == r.head % NUM
  {
    var n := Count(r);
    assert r.head == r.tail + n || r.head + WRAP == r.tail + n;
  }

  /** Writing the next slot of a ring that is not full overwrites no entry. */
  lemma SlotIsFree(r: Ring, x: nat)
    requires RingOk(r) && Count(r) < NUM
    ensures RingOk(WriteSlot(r, x)) && Entries(WriteSlot(r, x)) == Entries(r)
  {
    forall k: nat | k < Count(r) ensures Entries(WriteSlot(r, x))[k] == Entries(r)[k] { SlotNumber(r, k); }
  }

  /** Advancing the index appends what the slot holds, also when the index wraps around. */
  lemma Appended(r: Ring)
    requires RingOk(r) && Count(r) < NUM
    ensures RingOk(Advance(r)) && Entries(Advance(r)) == Entries(r) + [r.slots[r.head % NUM]]
  {
    var n := Count(r);
    assert Count(Advance(r)) == n + 1;
    TailSlot(r);
  }

  /** Taking the oldest entry removes that entry, also when the index wraps around. */
  lemma Taken(r: Ring)
    requires RingOk(r) && r.tail != r.head
    ensures RingOk(Take(r)) && Count(r) > 0 && Entries(r)[0] == r.slots[r.tail % NUM]
      && Entries(Take(r)) == Entries(r)[1..]
  {
    var n, r' := Count(r), Take(r);
    assert n > 0 && Count(r') == n - 1;
    forall k: nat | k < n - 1 ensures Entries(r')[k] == Entries(r)[1..][k] { NextSlot(r.tail, k); }
  }

  lemma NextSlot(tail: nat, k: nat)
    requires tail < WRAP
    ensures ((tail + 1) % WRAP + k) % NUM == (tail + (k + 1)) % NUM
  {
  }

  lemma EmptyWhenMet(r: Ring)
    requires RingOk(r)
    ensures r.tail == r.head <==> Count(r) == 0
  {
  }

  // ---- Distinct small numbers ----

  ghost predicate Below(e: seq<nat>, n: nat) {
    forall i | 0 <= i < |e| :: e[i] < n
  }

  /** At most n distinct numbers below n. */
  lemma {:induction false} Pigeonhole(e: seq<nat>, n: nat)
    requires Distinct(e) && Below(e, n)
    ensures |e| <= n
    decreases n
  {
    if n == 0 {
    } else if n - 1 in e {
      var i :| 0 <= i < |e| && e[i] == n - 1;
      var rest := e[..i] + e[i + 1..];
      forall k | 0 <= k < |rest| ensures rest[k] < n - 1 {
        var m := if k < i then k else k + 1;
        assert rest[k] == e[m];
      }
      Pigeonhole(rest, n - 1);
    } else {
      forall k | 0 <= k < |e| ensures e[k] < n - 1 { assert e[k] in e; }
      Pigeonhole(e, n - 1);
    }
  }

  /** A number not among them leaves room for one more. */
  lemma RoomForOne(e: seq<nat>, x: nat, n: nat)
    requires Distinct(e) && Below(e, n) && x < n && x !in e
    ensures |e| < n
  {
    var f := e + [x];
    forall i, j | 0 <= i < j < |f| ensures f[i] != f[j] { if j == |e| { assert e[i] in e; } }
    Pigeonhole(f, n);
  }
}

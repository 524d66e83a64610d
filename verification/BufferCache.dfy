/** The buffer cache of kernel/bio.c: a fixed set of buffers on a doubly linked
    list ordered by last use. Sleep locks and the cache's spin lock are not part
    of this class: each method is one process running alone; the interleavings
    are the log machine's. */
module BufferCache {
  import opened Common
  import opened LogFormat
  import opened CacheEntry

  /** The k-th node of the ring head, order[0], order[1], ..., head. */
  function At(order: seq<nat>, head: nat, k: int): nat {
    if 1 <= k <= |order| then order[k - 1] else head
  }

  /** next and prev link the buffers of `order` into a ring through the head node. */
  ghost predicate Linked(next: seq<nat>, prev: seq<nat>, order: seq<nat>, head: nat) {
    && |next| == |prev| == head + 1
    && (forall k | 0 <= k < |order| :: order[k] < head)
    && (forall j, k | 0 <= j < k < |order| :: order[j] != order[k])
    && (forall k | 0 <= k <= |order| :: next[At(order, head, k)] == At(order, head, k + 1))
    && (forall k | 1 <= k <= |order| + 1 :: prev[At(order, head, k)] == At(order, head, k - 1))
  }

  /** `order` without its p-th element. */
  function Without(order: seq<nat>, p: nat): seq<nat>
    requires p < |order|
  {
    order[..p] + order[p + 1..]
  }

  /** Taking a node out of the ring. */
  lemma Unlink(next: seq<nat>, prev: seq<nat>, order: seq<nat>, head: nat, p: nat)
    requires Linked(next, prev, order, head) && p < |order|
    ensures var b := order[p];
            next[b] <= head && prev[b] <= head &&
            Linked(next[prev[b] := next[b]], prev[next[b] := prev[b]], Without(order, p), head)
  {
    var b, rest := order[p], Without(order, p);
    assert b == At(order, head, p + 1);
    assert next[b] == At(order, head, p + 2) && prev[b] == At(order, head, p);
    forall k | 0 <= k <= |rest| + 1
      ensures At(rest, head, k) == if k <= p then At(order, head, k) else At(order, head, k + 1)
    {
    }
    UnlinkNext(next, prev, order, head, p);
    UnlinkPrev(next, prev, order, head, p);
  }

  lemma AtDistinct(order: seq<nat>, head: nat, j: int, k: int)
    requires forall k | 0 <= k < |order| :: order[k] < head
    requires forall j, k | 0 <= j < k < |order| :: order[j] != order[k]
    requires 0 <= j < k <= |order| || 1 <= j < k <= |order| + 1
    ensures At(order, head, j) != At(order, head, k)
  {
  }

  lemma UnlinkNext(next: seq<nat>, prev: seq<nat>, order: seq<nat>, head: nat, p: nat)
    requires Linked(next, prev, order, head) && p < |order|
    ensures var b, rest := order[p], Without(order, p);
            next[b] <= head && prev[b] <= head &&
            forall k | 0 <= k <= |rest| :: next[prev[b] := next[b]][At(rest, head, k)] == At(rest, head, k + 1)
  {
    var b, rest := order[p], Without(order, p);
    assert b == At(order, head, p + 1);
    assert next[b] == At(order, head, p + 2) && prev[b] == At(order, head, p);
    forall k | 0 <= k <= |rest|
      ensures next[prev[b] := next[b]][At(rest, head, k)] == At(rest, head, k + 1)
    {
      var j := if k <= p then k else k + 1;
      assert At(rest, head, k) == At(order, head, j);
      if j != p {
        if j < p { AtDistinct(order, head, j, p); } else { AtDistinct(order, head, p, j); }
        assert next[At(order, head, j)] == At(order, head, j + 1);
        assert At(rest, head, k + 1) == At(order, head, j + 1);
      }
    }
  }

  lemma UnlinkPrev(next: seq<nat>, prev: seq<nat>, order: seq<nat>, head: nat, p: nat)
    requires Linked(next, prev, order, head) && p < |order|
    ensures var b, rest := order[p], Without(order, p);
            next[b] <= head && prev[b] <= head &&
            forall k | 1 <= k <= |rest| + 1 :: prev[next[b] := prev[b]][At(rest, head, k)] == At(rest, head, k - 1)
  {
    var b, rest := order[p], Without(order, p);
    assert b == At(order, head, p + 1);
    assert next[b] == At(order, head, p + 2) && prev[b] == At(order, head, p);
    forall k | 1 <= k <= |rest| + 1
      ensures prev[next[b] := prev[b]][At(rest, head, k)] == At(rest, head, k - 1)
    {
      var j := if k <= p then k else k + 1;
      assert At(rest, head, k) == At(order, head, j);
      if j != p + 2 {
        if j < p + 2 { AtDistinct(order, head, j, p + 2); } else { AtDistinct(order, head, p + 2, j); }
        assert prev[At(order, head, j)] == At(order, head, j - 1);
        assert At(rest, head, k - 1) == At(order, head, j - 1);
      }
    }
  }

  /** Putting a node behind the head. */
  lemma PushFront(next: seq<nat>, prev: seq<nat>, order: seq<nat>, head: nat, b: nat)
    requires Linked(next, prev, order, head) && b < head && b !in order
    ensures next[head] <= head
    ensures Linked(next[b := next[head]][head := b], prev[b := head][next[head] := b], [b] + order, head)
  {
    var order' := [b] + order;
    assert next[At(order, head, 0)] == At(order, head, 1);
    var next' := next[b := next[head]][head := b];
    var prev' := prev[b := head][next[head] := b];
    forall k | 0 <= k <= |order'| ensures next'[At(order', head, k)] == At(order', head, k + 1) {
      if k >= 2 {
        assert At(order', head, k) == At(order, head, k - 1);
        assert next[At(order, head, k - 1)] == At(order, head, k);
      }
    }
    forall k | 1 <= k <= |order'| + 1 ensures prev'[At(order', head, k)] == At(order', head, k - 1) {
      if k >= 3 {
        assert At(order', head, k) == At(order, head, k - 1);
        assert prev[At(order, head, k - 1)] == At(order, head, k - 2);
        AtDistinct(order, head, 1, k - 1);
      }
    }
  }

  /** brelse's six pointer updates move the p-th buffer to the front. */
  lemma Moved(next: seq<nat>, prev: seq<nat>, order: seq<nat>, head: nat, p: nat)
    requires Linked(next, prev, order, head) && p < |order|
    ensures var b, rest := order[p], Without(order, p);
            && |next| == |prev| == head + 1 && b < head && next[b] <= head && prev[b] <= head && next[b] != b
            && var next1, prev1 := next[prev[b] := next[b]], prev[next[b] := prev[b]];
            && next1[head] <= head
            && Linked(next1[b := next1[head]][head := b], prev1[b := head][next1[head] := b], [b] + rest, head)
  {
    var b, rest := order[p], Without(order, p);
    assert next[At(order, head, p + 1)] == At(order, head, p + 2);
    Unlink(next, prev, order, head, p);
    PushFront(next[prev[b] := next[b]], prev[next[b] := prev[b]], rest, head, b);
  }

  lemma MovedSame(order: seq<nat>, p: nat, i: nat)
    requires p < |order| && i in order
    ensures i in [order[p]] + Without(order, p)
  {
    var rest := Without(order, p);
    var q :| 0 <= q < |order| && order[q] == i;
    if q < p { assert rest[q] == i; } else if q > p { assert rest[q - 1] == i; }
  }

  // ---- What the cache stands for ----

  /** At most one buffer holds a given block of a real device. */
  ghost predicate UniqueKeys(bufs: seq<Buf>) {
    forall i, j | 0 <= i < j < |bufs| :: bufs[i].dev != 0 ==> !Keyed(bufs[j], bufs[i].dev, bufs[i].blockno)
  }

  /** A buffer nobody refers to holds nothing that is not on disk. */
  ghost predicate Clean(bufs: seq<Buf>, disk: Disk) {
    forall i | 0 <= i < |bufs| && bufs[i].refcnt == 0 && bufs[i].valid ::
      bufs[i].blockno < |disk| && bufs[i].data == disk[bufs[i].blockno]
  }

  /** Dropping a reference to buffer i leaves nothing that is not on disk. */
  ghost predicate Droppable(bufs: seq<Buf>, disk: Disk, i: int) {
    0 <= i < |bufs| && (bufs[i].refcnt == 1 && bufs[i].valid ==>
                          bufs[i].blockno < |disk| && bufs[i].data == disk[bufs[i].blockno])
  }

  lemma DropKeepsClean(bufs: seq<Buf>, disk: Disk, i: nat)
    requires i < |bufs| && bufs[i].refcnt > 0
    ensures Clean(bufs[i := Unref(bufs[i])], disk) <==> Clean(bufs, disk) && Droppable(bufs, disk, i)
  {
    var after := bufs[i := Unref(bufs[i])];
    if Clean(after, disk) {
      forall k | 0 <= k < |bufs| && bufs[k].refcnt == 0 && bufs[k].valid
        ensures bufs[k].blockno < |disk| && bufs[k].data == disk[bufs[k].blockno]
      {
        assert after[k] == bufs[k];
      }
      assert after[i].data == bufs[i].data;
    }
  }

  ghost predicate Holds(bufs: seq<Buf>, i: int, dev: nat, b: nat) {
    0 <= i < |bufs| && Keyed(bufs[i], dev, b) && bufs[i].valid
  }

  /** The latest contents of a block: cached if some buffer holds them, on disk otherwise. */
  ghost function View(bufs: seq<Buf>, disk: Disk, dev: nat, b: nat): Block
    requires b < |disk|
  {
    if exists i :: Holds(bufs, i, dev, b) then var i :| Holds(bufs, i, dev, b); bufs[i].data else disk[b]
  }

  lemma ViewAt(bufs: seq<Buf>, disk: Disk, i: nat)
    requires UniqueKeys(bufs) && i < |bufs| && bufs[i].dev != 0 && bufs[i].blockno < |disk|
    ensures View(bufs, disk, bufs[i].dev, bufs[i].blockno) == if bufs[i].valid then bufs[i].data
      else disk[bufs[i].blockno]
  {
    var dev, b := bufs[i].dev, bufs[i].blockno;
    if j :| Holds(bufs, j, dev, b) {
      assert i == j;
    }
    if bufs[i].valid {
      assert Holds(bufs, i, dev, b);
    }
  }

  lemma ViewOf(bufs: seq<Buf>, disk: Disk, dev: nat, b: nat)
    requires UniqueKeys(bufs) && dev != 0 && b < |disk|
    ensures forall k | 0 <= k < |bufs| && Keyed(bufs[k], dev, b) ::
              View(bufs, disk, dev, b) == if bufs[k].valid then bufs[k].data else disk[b]
    ensures (forall k | 0 <= k < |bufs| :: !Keyed(bufs[k], dev, b)) ==> View(bufs, disk, dev, b) == disk[b]
  {
    if k :| 0 <= k < |bufs| && Keyed(bufs[k], dev, b) {
      ViewAt(bufs, disk, k);
    }
  }

  /** One buffer changed; the view of every block stays if that buffer's old and new
      contents agree with the view. */
  lemma ViewKept(bufs: seq<Buf>, disk: Disk, i: nat, buf: Buf, dev: nat, b: nat)
    requires i < |bufs| && UniqueKeys(bufs) && UniqueKeys(bufs[i := buf]) && dev != 0 && b < |disk|
    requires Keyed(bufs[i], dev, b) && bufs[i].valid ==>
               bufs[i].data == if Keyed(buf, dev, b) && buf.valid then buf.data else disk[b]
    requires Keyed(buf, dev, b) && buf.valid && !(Keyed(bufs[i], dev, b) && bufs[i].valid) ==> buf.data == disk[b]
    requires Keyed(buf, dev, b) ==> forall j | 0 <= j < |bufs| && j != i :: !Keyed(bufs[j], dev, b)
    ensures View(bufs[i := buf], disk, dev, b) == View(bufs, disk, dev, b)
  {
    var after := bufs[i := buf];
    if j :| 0 <= j < |bufs| && j != i && Keyed(bufs[j], dev, b) {
      ViewAt(bufs, disk, j);
      ViewAt(after, disk, j);
    } else {
      if Keyed(bufs[i], dev, b) { ViewAt(bufs, disk, i); }
      if Keyed(buf, dev, b) { ViewAt(after, disk, i); }
    }
  }

  /** The view of every block of every real device is the same. */
  ghost predicate SameView(bufs: seq<Buf>, disk: Disk, bufs': seq<Buf>, disk': Disk) {
    && |disk| == |disk'|
    && forall dev: nat, b: nat | dev != 0 && b < |disk| :: View(bufs, disk, dev, b) == View(bufs', disk', dev, b)
  }

  /** A step on buffer i that keeps its key, and its data unless it was not valid. */
  lemma StepKeepsView(bufs: seq<Buf>, disk: Disk, i: nat, buf: Buf)
    requires i < |bufs| && UniqueKeys(bufs) && UniqueKeys(bufs[i := buf])
    requires Keyed(buf, bufs[i].dev, bufs[i].blockno)
    requires if buf.valid && !bufs[i].valid then buf.blockno < |disk| && buf.data == disk[buf.blockno]
             else buf.valid == bufs[i].valid && buf.data == bufs[i].data
    ensures SameView(bufs, disk, bufs[i := buf], disk)
  {
    forall dev: nat, b: nat | dev != 0 && b < |disk|
      ensures View(bufs, disk, dev, b) == View(bufs[i := buf], disk, dev, b)
    {
      ViewKept(bufs, disk, i, buf, dev, b);
    }
  }

  /** The disk's contents are read into a referenced buffer. */
  lemma LoadKeepsView(bufs: seq<Buf>, disk: Disk, i: nat)
    requires i < |bufs| && UniqueKeys(bufs) && !bufs[i].valid && bufs[i].refcnt > 0 && bufs[i].blockno < |disk|
    ensures var after := bufs[i := bufs[i].(data := disk[bufs[i].blockno], valid := true)];
            UniqueKeys(after) && SameView(bufs, disk, after, disk) && (Clean(bufs, disk) ==> Clean(after, disk))
  {
    StepKeepsView(bufs, disk, i, bufs[i].(data := disk[bufs[i].blockno], valid := true));
  }

  lemma SameViewTrans(a: seq<Buf>, b: seq<Buf>, c: seq<Buf>, disk: Disk)
    requires SameView(a, disk, b, disk) && SameView(b, disk, c, disk)
    ensures SameView(a, disk, c, disk)
  {
    hide View;
  }

  lemma RecycleKeepsView(bufs: seq<Buf>, disk: Disk, i: nat, dev: nat, blockno: nat)
    requires i < |bufs| && UniqueKeys(bufs) && Clean(bufs, disk) && bufs[i].refcnt == 0
    requires forall k | 0 <= k < |bufs| :: !Keyed(bufs[k], dev, blockno)
    ensures UniqueKeys(bufs[i := Recycle(bufs[i], dev, blockno)])
    ensures SameView(bufs, disk, bufs[i := Recycle(bufs[i], dev, blockno)], disk)
  {
    var buf := Recycle(bufs[i], dev, blockno);
    forall d: nat, b: nat | d != 0 && b < |disk|
      ensures View(bufs, disk, d, b) == View(bufs[i := buf], disk, d, b)
    {
      ViewKept(bufs, disk, i, buf, d, b);
    }
  }

  /** Position p is the last one on the list whose buffer is unused. */
  predicate LeastRecentUnused(bufs: seq<Buf>, order: seq<nat>, p: int) {
    && 0 <= p < |order| && order[p] < |bufs| && bufs[order[p]].refcnt == 0
    && forall k | p < k < |order| :: order[k] < |bufs| && bufs[order[k]].refcnt > 0
  }

  /** Position p is the first one on the list whose buffer has that key. */
  predicate FirstKeyed(bufs: seq<Buf>, order: seq<nat>, p: int, dev: nat, blockno: nat) {
    && 0 <= p < |order| && order[p] < |bufs| && Keyed(bufs[order[p]], dev, blockno)
    && forall k | 0 <= k < p :: order[k] < |bufs| && !Keyed(bufs[order[k]], dev, blockno)
  }

  class Cache {
    const nbuf: nat
    var bufs: seq<Buf>
    var next: seq<nat>
    var prev: seq<nat>
    var disk: Disk
    /** The buffers from most to least recently used. */
    ghost var order: seq<nat>

    ghost predicate Valid()
      reads this
    {
      && |bufs| == |order| == nbuf
      && Linked(next, prev, order, nbuf)
      && (forall i | 0 <= i < nbuf :: i in order)
      && UniqueKeys(bufs)
      && (forall i | 0 <= i < nbuf && (bufs[i].dev != 0 || bufs[i].valid) :: bufs[i].blockno < |disk|)
    }

    /** binit: every buffer unused and keyed (0, 0), the last one at the front of the list. */
    constructor (n: nat, disk: Disk)
      ensures Valid() && nbuf == n && this.disk == disk && Clean(bufs, disk)
      ensures forall i | 0 <= i < n :: bufs[i] == FreshBuf && order[i] == n - 1 - i
    {
      nbuf := n;
      bufs := seq(n, _ => FreshBuf);
      next := seq(n + 1, _ => n);
      prev := seq(n + 1, _ => n);
      this.disk := disk;
      order := [];
      new;
      var b := 0;
      while b < n
        invariant 0 <= b <= n && nbuf == n && this.disk == disk && bufs == seq(n, _ => FreshBuf)
        invariant |order| == b && Linked(next, prev, order, n)
        invariant forall k | 0 <= k < b :: order[k] == b - 1 - k
      {
        PushFront(next, prev, order, n, b);
        next := next[b := next[n]];
        prev := prev[b := n];
        prev := prev[next[n] := b];
        next := next[n := b];
        order := [b] + order;
        b := b + 1;
      }
      forall i | 0 <= i < n ensures i in order {
        assert order[n - 1 - i] == i;
      }
    }

    /** bget: the buffer that holds the block, or else the least recently used one
        that nobody refers to, taken over for the block; None where the code panics. */
    method Bget(dev: nat, blockno: nat) returns (r: Option<nat>)
      requires Valid() && blockno < |disk|
      modifies this`bufs
      ensures Valid()
      ensures r.Some? ==> r.value < nbuf && Keyed(bufs[r.value], dev, blockno) && bufs[r.value].refcnt > 0
      ensures (exists i | 0 <= i < nbuf :: Keyed(old(bufs)[i], dev, blockno)) ==>
                && r.Some? && r.value < nbuf && bufs == old(bufs)[r.value := Ref(old(bufs)[r.value])]
                && exists p :: FirstKeyed(old(bufs), order, p, dev, blockno) && order[p] == r.value
      ensures (forall i | 0 <= i < nbuf :: !Keyed(old(bufs)[i], dev, blockno)) ==>
                match r
                case None => bufs == old(bufs) && forall i | 0 <= i < nbuf :: bufs[i].refcnt > 0
                case Some(i) =>
                  && bufs == old(bufs)[i := Recycle(old(bufs)[i], dev, blockno)]
                  && exists p :: LeastRecentUnused(old(bufs), order, p) && order[p] == i
      ensures Clean(old(bufs), disk) ==> Clean(bufs, disk) && SameView(old(bufs), disk, bufs, disk)
    {
      var b := next[nbuf];
      ghost var k := 1;
      assert next[At(order, nbuf, 0)] == At(order, nbuf, 1);
      while b != nbuf
        invariant 1 <= k <= nbuf + 1 && b == At(order, nbuf, k)
        invariant forall j | 0 <= j < k - 1 :: !Keyed(bufs[order[j]], dev, blockno)
        decreases nbuf + 1 - k
      {
        if Keyed(bufs[b], dev, blockno) {
          assert FirstKeyed(bufs, order, k - 1, dev, blockno);
          StepKeepsView(bufs, disk, b, Ref(bufs[b]));
          bufs := bufs[b := Ref(bufs[b])];
          return Some(b);
        }
        assert next[At(order, nbuf, k)] == At(order, nbuf, k + 1);
        b := next[b];
        k := k + 1;
      }
      assert k == nbuf + 1;
      forall i | 0 <= i < nbuf ensures !Keyed(bufs[i], dev, blockno) {
        assert i in order;
      }
      r := Reuse(dev, blockno);
    }

    /** The second half of bget: from the tail of the list, the first unused buffer. */
    method Reuse(dev: nat, blockno: nat) returns (r: Option<nat>)
      requires Valid() && blockno < |disk|
      requires forall i | 0 <= i < nbuf :: !Keyed(bufs[i], dev, blockno)
      modifies this`bufs
      ensures Valid()
      ensures match r
              case None => bufs == old(bufs) && forall i | 0 <= i < nbuf :: bufs[i].refcnt > 0
              case Some(i) =>
                && i < nbuf
                && bufs == old(bufs)[i := Recycle(old(bufs)[i], dev, blockno)]
                && exists p :: LeastRecentUnused(old(bufs), order, p) && order[p] == i
      ensures Clean(old(bufs), disk) ==> Clean(bufs, disk) && SameView(old(bufs), disk, bufs, disk)
    {
      var b := prev[nbuf];
      ghost var k := nbuf;
      assert prev[At(order, nbuf, nbuf + 1)] == At(order, nbuf, nbuf);
      while b != nbuf
        invariant 0 <= k <= nbuf && b == At(order, nbuf, k)
        invariant forall j | k <= j < nbuf :: bufs[order[j]].refcnt > 0
        decreases k
      {
        if bufs[b].refcnt == 0 {
          if Clean(bufs, disk) { RecycleKeepsView(bufs, disk, b, dev, blockno); }
          assert LeastRecentUnused(bufs, order, k - 1);
          bufs := bufs[b := Recycle(bufs[b], dev, blockno)];
          return Some(b);
        }
        assert prev[At(order, nbuf, k)] == At(order, nbuf, k - 1);
        b := prev[b];
        k := k - 1;
      }
      assert k == 0;
      forall i | 0 <= i < nbuf ensures bufs[i].refcnt > 0 {
        assert i in order;
      }
      r := None;
    }

    /** bread: the buffer with the block's latest contents. */
    method Bread(dev: nat, blockno: nat) returns (r: Option<nat>)
      requires Valid() && blockno < |disk|
      modifies this`bufs
      ensures Valid() && (Clean(old(bufs), disk) ==> Clean(bufs, disk) && SameView(old(bufs), disk, bufs, disk))
      ensures r.Some? ==>
                && r.value < nbuf && Keyed(bufs[r.value], dev, blockno) && bufs[r.value].valid
                  && bufs[r.value].refcnt > 0
                && bufs[r.value].data == (if Keyed(old(bufs)[r.value], dev, blockno) && old(bufs)[r.value].valid
                                          then old(bufs)[r.value].data else disk[blockno])
                && (dev != 0 ==> bufs[r.value].data == View(old(bufs), disk, dev, blockno))
      ensures r == None <==> (forall i | 0 <= i < nbuf :: !Keyed(old(bufs)[i], dev, blockno) && old(bufs)[i].refcnt > 0)
    {
      hide Linked, View, UniqueKeys, Clean, SameView;
      ghost var before := bufs;
      if dev != 0 { ViewOf(bufs, disk, dev, blockno); }
      r := Bget(dev, blockno);
      if r.Some? {
        var b := r.value;
        if !bufs[b].valid {
          LoadKeepsView(bufs, disk, b);
          ghost var got := bufs;
          bufs := bufs[b := bufs[b].(data := disk[blockno], valid := true)];
          if Clean(before, disk) { SameViewTrans(before, got, bufs, disk); }
        }
      }
    }

    /** bwrite: the disk gets the buffer's data. The view stays, but for what other
        devices have at that block number and not in the cache: the driver knows
        one disk only. */
    method Bwrite(b: nat)
      requires Valid() && b < nbuf && bufs[b].valid && bufs[b].refcnt > 0
      modifies this`disk
      ensures Valid() && disk == old(disk)[bufs[b].blockno := bufs[b].data]
      ensures forall dev: nat, n: nat | dev != 0 && n < |disk| ::
                dev == bufs[b].dev || n != bufs[b].blockno || (exists i :: Holds(bufs, i, dev, n)) ==>
                View(bufs, disk, dev, n) == View(bufs, old(disk), dev, n)
      ensures Clean(bufs, old(disk)) && bufs[b].dev != 0
              && (forall i | 0 <= i < nbuf && bufs[i].valid :: bufs[i].dev == bufs[b].dev) ==>
                Clean(bufs, disk)
    {
      var n := bufs[b].blockno;
      ghost var before := disk;
      disk := disk[n := bufs[b].data];
      forall dev: nat, m: nat | dev != 0 && m < |disk|
        && (dev == bufs[b].dev || m != n || exists i :: Holds(bufs, i, dev, m))
        ensures View(bufs, disk, dev, m) == View(bufs, before, dev, m)
      {
        if bufs[b].dev != 0 {
          ViewAt(bufs, disk, b);
          ViewAt(bufs, before, b);
        }
      }
    }

    /** brelse: drops a reference; the last one moves the buffer to the front. */
    method Brelse(b: nat)
      requires Valid() && b < nbuf && bufs[b].refcnt > 0
      modifies this`bufs, this`next, this`prev, this`order
      ensures Valid() && bufs == old(bufs)[b := Unref(old(bufs)[b])]
      ensures old(bufs)[b].refcnt > 1 ==> order == old(order)
      ensures old(bufs)[b].refcnt == 1 ==>
                exists p :: 0 <= p < nbuf && old(order)[p] == b && order == [b] + Without(old(order), p)
      ensures SameView(old(bufs), disk, bufs, disk)
      ensures Clean(bufs, disk) <==> Clean(old(bufs), disk) && Droppable(old(bufs), disk, b)
    {
      StepKeepsView(bufs, disk, b, Unref(bufs[b]));
      DropKeepsClean(bufs, disk, b);
      bufs := bufs[b := Unref(bufs[b])];
      if bufs[b].refcnt == 0 {
        MoveToFront(b);
      }
    }

    method MoveToFront(b: nat)
      requires Valid() && b < nbuf
      modifies this`next, this`prev, this`order
      ensures Valid()
      ensures exists p :: 0 <= p < nbuf && old(order)[p] == b && order == [b] + Without(old(order), p)
    {
      hide Linked;
      hide UniqueKeys;
      hide Clean;
      assert b in order;
      ghost var p :| 0 <= p < nbuf && order[p] == b;
      Moved(next, prev, order, nbuf, p);
      prev := prev[next[b] := prev[b]];
      next := next[prev[b] := next[b]];
      next := next[b := next[nbuf]];
      prev := prev[b := nbuf];
      prev := prev[next[nbuf] := b];
      next := next[nbuf := b];
      forall i | 0 <= i < nbuf ensures i in [b] + Without(order, p) {
        MovedSame(order, p, i);
      }
      order := [b] + Without(order, p);
    }

    /** bpin and bunpin. */
    method Bpin(b: nat)
      requires Valid() && b < nbuf
      modifies this`bufs
      ensures Valid() && bufs == old(bufs)[b := Ref(old(bufs)[b])]
      ensures SameView(old(bufs), disk, bufs, disk) && (Clean(old(bufs), disk) ==> Clean(bufs, disk))
    {
      StepKeepsView(bufs, disk, b, Ref(bufs[b]));
      bufs := bufs[b := Ref(bufs[b])];
    }

    method Bunpin(b: nat)
      requires Valid() && b < nbuf && bufs[b].refcnt > 0
      modifies this`bufs
      ensures Valid() && bufs == old(bufs)[b := Unref(old(bufs)[b])] && SameView(old(bufs), disk, bufs, disk)
      ensures Clean(bufs, disk) <==> Clean(old(bufs), disk) && Droppable(old(bufs), disk, b)
    {
      StepKeepsView(bufs, disk, b, Unref(bufs[b]));
      DropKeepsClean(bufs, disk, b);
      bufs := bufs[b := Unref(bufs[b])];
    }
  }
}

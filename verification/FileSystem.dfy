/** The code of kernel/fs.c that allocates, frees, reads and writes file blocks, and
    the loop of filewrite in kernel/file.c. */
module FileSystem {
  import opened Common
  import opened BlockBytes
  import opened FileBlocks

  function Min(a: nat, b: nat): nat { if a < b then a else b }

  function Max(a: nat, b: nat): nat { if a < b then b else a }

  function Max0(n: int): nat { if n < 0 then 0 else n }

  /** Unsigned 32-bit addition. */
  function Add32(a: Uint, b: Uint): Uint {
    var x: int, y: int := a, b;
    (x + y) % 0x1_0000_0000
  }

  /** The block numbers lo, lo + 1, ..., lo + n - 1. */
  function Span(lo: nat, n: nat): set<nat> {
    if n == 0 then {} else Span(lo, n - 1) + {lo + n - 1}
  }

  lemma {:induction false} SpanSize(lo: nat, n: nat)
    ensures |Span(lo, n)| <= n
  {
    if n > 0 { SpanSize(lo, n - 1); }
  }

  lemma {:induction false} InSpan(lo: nat, n: nat, x: nat)
    requires lo <= x < lo + n
    ensures x in Span(lo, n)
  {
    if x < lo + n - 1 { InSpan(lo, n - 1, x); }
  }

  /** The blocks of the free map. */
  function MapBlocks(g: Layout): set<nat> {
    Span(g.bmapstart, g.size / BPB + 1)
  }

  lemma MapBlockIn(g: Layout, b: nat)
    requires LayoutOk(g) && b < g.size
    ensures MapBlock(g, b) in MapBlocks(g)
  {
    assert b / BPB <= g.size / BPB;
    InSpan(g.bmapstart, g.size / BPB + 1, MapBlock(g, b));
  }

  /** The block balloc picks, marked and zeroed. */
  function Zeroed(g: Layout, d: Disk, b: nat): Disk
    requires Shape(g, d) && b < g.size
  {
    MapBlockBound(g, b);
    WithBlock(Marked(g, d, b, true), b, Zeros())
  }

  lemma ZeroedTaken(g: Layout, d: Disk, b: nat)
    requires Shape(g, d) && g.data <= b < g.size && !Used(g, d, b)
    ensures Taken(g, d, Zeroed(g, d, b), b)
  {
    var d1 := Marked(g, d, b, true);
    MarkedShape(g, d, b, true);
    MapBlockBound(g, b);
    WithBlockShape(g, d1, b, Zeros());
    forall x: nat | x < g.size ensures Used(g, Zeroed(g, d, b), x) == (x == b || Used(g, d, x)) {
      MarkedUsed(g, d, b, true, x);
    }
    forall x: nat | g.data <= x < g.size && x != b ensures SameBlock(d, Zeroed(g, d, b), x) {}
  }

  ghost predicate AddrStays(d: Disk, d': Disk, i: nat, k: nat) {
    Addr(d', i, k) == Addr(d, i, k)
  }

  ghost predicate TableStays(d: Disk, d': Disk, i: nat) {
    TableOf(d, i) != 0 ==> TableOf(d', i) == TableOf(d, i)
  }

  /** No file has changed in size or in any byte, or lost its indirect block. */
  ghost predicate SameFiles(d: Disk, d': Disk) {
    && |d'.inodes| == |d.inodes|
    && (forall i: nat :: TableStays(d, d', i))
    && (forall i: nat :: SizeOf(d', i) == SizeOf(d, i))
    && (forall i: nat, k: nat :: ByteSame(d, d', i, k))
  }

  /** Nor has any block moved. */
  ghost predicate Steady(d: Disk, d': Disk) {
    SameFiles(d, d') && forall i: nat, k: nat :: AddrStays(d, d', i, k)
  }

  /** No inode but inum's has changed. */
  ghost predicate OnlyInode(d: Disk, d': Disk, inum: nat) {
    inum < |d.inodes| == |d'.inodes| && d'.inodes == d.inodes[inum := d'.inodes[inum]]
  }

  function Tables(d: Disk, inum: nat): set<nat> {
    if TableOf(d, inum) == 0 then {} else {TableOf(d, inum)}
  }

  /** What bmap does: block bn of file inum is there, and nothing else has moved. */
  ghost predicate Mapped(d: Disk, d': Disk, inum: nat, bn: nat) {
    && SameFiles(d, d') && OnlyInode(d, d', inum) && Addr(d', inum, bn) != 0
    && (forall i: nat, k: nat | i != inum || k != bn :: AddrStays(d, d', i, k))
  }

  /** What balloc and the store after it leave alone. */
  ghost predicate Calm(d: Disk, d': Disk, owner: map<nat, Place>) {
    && |d'.inodes| == |d.inodes|
    && (forall i: nat :: SizeOf(d', i) == SizeOf(d, i))
    && (forall x: nat | x in owner && owner[x].Data? :: SameBlock(d, d', x))
  }

  lemma GrewMapped(g: Layout, d: Disk, d': Disk, owner: map<nat, Place>, inum: nat, bn: nat, b: nat)
    requires Owned(g, d, owner) && Grew(g, d, d', Data(inum, bn), b) && Calm(d, d', owner) && OnlyInode(d, d', inum)
      && d'.blocks[b] == Zeros()
    ensures Mapped(d, d', inum, bn) && Addr(d', inum, bn) == b && Owned(g, d', owner[b := Data(inum, bn)])
      && b !in owner
  {
    hide Addr, TableOf, Used, ByteAt, Taken;
    GrewOwned(g, d, d', owner, Data(inum, bn), b);
    forall i: nat, k: nat ensures ByteSame(d, d', i, k) { GrewBytes(g, d, d', owner, Data(inum, bn), b, i, k); }
    forall i: nat, k: nat | i != inum || k != bn
      ensures AddrStays(d, d', i, k) { assert AddrGrew(d, d', Data(inum, bn), b, i, k); }
    assert AddrGrew(d, d', Data(inum, bn), b, inum, bn);
    forall i: nat ensures TableStays(d, d', i) { assert TableGrew(d, d', Data(inum, bn), b, i); }
  }

  lemma TakenCalm(g: Layout, d: Disk, d1: Disk, owner: map<nat, Place>, b: nat, inum: nat, slot: nat)
    requires Owned(g, d, owner) && Taken(g, d, d1, b) && inum < |d.inodes| && slot <= NDIRECT && InodeOk(d, inum)
    ensures Calm(d, WithAddr(d1, inum, slot, b), owner)
  {
    hide Used, Addr, TableOf;
    FreeIsUnowned(g, d, owner, b);
    forall x: nat | x in owner && owner[x].Data? ensures SameBlock(d, WithAddr(d1, inum, slot, b), x) {
      assert PlaceOk(g, d, owner, x) && SameBlock(d, d1, x);
    }
  }

  /** bmap's direct case, from balloc to the store into the inode. */
  lemma DirectMapped(g: Layout, d: Disk, owner: map<nat, Place>, inum: nat, bn: nat, b: nat)
    requires Owned(g, d, owner) && b < g.size && !Used(g, d, b)
    requires inum < |d.inodes| && InodeOk(d, inum) && bn < NDIRECT && d.inodes[inum].addrs[bn] == 0
    ensures b !in owner && MapBlock(g, b) in MapBlocks(g)
    ensures var d' := WithAddr(Zeroed(g, d, b), inum, bn, b);
            Mapped(d, d', inum, bn) && Addr(d', inum, bn) == b && Owned(g, d', owner[b := Data(inum, bn)])
  {
    hide Used, Addr, TableOf, ByteAt;
    FreeIsUnowned(g, d, owner, b);
    ZeroedTaken(g, d, b);
    var d1 := Zeroed(g, d, b);
    TakenCalm(g, d, d1, owner, b, inum, bn);
    GrowDirect(g, d, d1, owner, inum, bn, b);
    GrewMapped(g, d, WithAddr(d1, inum, bn, b), owner, inum, bn, b);
    MapBlockIn(g, b);
  }

  /** bmap allocates the indirect block. */
  lemma TableSteady(g: Layout, d: Disk, owner: map<nat, Place>, inum: nat, b: nat)
    requires Owned(g, d, owner) && b < g.size && !Used(g, d, b)
    requires inum < |d.inodes| && InodeOk(d, inum) && d.inodes[inum].addrs[NDIRECT] == 0
    ensures b !in owner && 0 < b && MapBlock(g, b) in MapBlocks(g)
    ensures var d' := WithAddr(Zeroed(g, d, b), inum, NDIRECT, b);
            Steady(d, d') && OnlyInode(d, d', inum) && TableOf(d', inum) == b && Owned(g, d', owner[b := Table(inum)])
  {
    hide Used, Addr, TableOf, ByteAt;
    FreeIsUnowned(g, d, owner, b);
    ZeroedTaken(g, d, b);
    var d1 := Zeroed(g, d, b);
    var d' := WithAddr(d1, inum, NDIRECT, b);
    TakenCalm(g, d, d1, owner, b, inum, NDIRECT);
    GrowTable(g, d, d1, owner, inum, b);
    GrewOwned(g, d, d', owner, Table(inum), b);
    forall i: nat, k: nat ensures ByteSame(d, d', i, k) { GrewBytes(g, d, d', owner, Table(inum), b, i, k); }
    forall i: nat, k: nat ensures AddrStays(d, d', i, k) { assert AddrGrew(d, d', Table(inum), b, i, k); }
    assert TableGrew(d, d', Table(inum), b, inum);
    forall i: nat ensures TableStays(d, d', i) { assert TableGrew(d, d', Table(inum), b, i); }
    MapBlockIn(g, b);
  }

  /** bmap's indirect case, from balloc to the store into the indirect block t. */
  lemma IndirectMapped(g: Layout, d: Disk, owner: map<nat, Place>, inum: nat, j: nat, b: nat)
    requires Owned(g, d, owner) && b < g.size && !Used(g, d, b)
    requires inum < |d.inodes| && j < NINDIRECT && TableOf(d, inum) != 0 && Addr(d, inum, NDIRECT + j) == 0
    ensures b !in owner && MapBlock(g, b) in MapBlocks(g)
    ensures var t, d1, n := TableOf(d, inum), Zeroed(g, d, b), NDIRECT + j;
            && t < |d1.blocks| && |d1.blocks[t]| == BSIZE && b < 0x1_0000_0000
            && var d' := WithEntry(d1, t, j, b);
               Mapped(d, d', inum, n) && Addr(d', inum, n) == b && TableOf(d', inum) == t
                 && Owned(g, d', owner[b := Data(inum, n)])
  {
    hide Used, Addr, ByteAt;
    FreeIsUnowned(g, d, owner, b);
    ZeroedTaken(g, d, b);
    var t, d1 := TableOf(d, inum), Zeroed(g, d, b);
    GrowIndirect(g, d, d1, owner, inum, j, b);
    var d' := WithEntry(d1, t, j, b);
    assert TableOwned(d, owner, inum);
    forall x: nat | x in owner && owner[x].Data? ensures SameBlock(d, d', x) {
      assert PlaceOk(g, d, owner, x) && SameBlock(d, d1, x);
    }
    GrewMapped(g, d, d', owner, inum, NDIRECT + j, b);
    MapBlockIn(g, b);
  }

  lemma SteadyThenMapped(d: Disk, d1: Disk, d': Disk, inum: nat, bn: nat)
    requires Steady(d, d1) && OnlyInode(d, d1, inum) && Mapped(d1, d', inum, bn)
    ensures Mapped(d, d', inum, bn)
  {
    hide Addr, ByteAt, SizeOf, TableOf;
    forall i: nat ensures TableStays(d, d', i) { assert TableStays(d, d1, i) && TableStays(d1, d', i); }
    forall i: nat, k: nat ensures ByteSame(d, d', i, k) { assert ByteSame(d, d1, i, k) && ByteSame(d1, d', i, k); }
    forall i: nat, k: nat | i != inum || k != bn
      ensures AddrStays(d, d', i, k) { assert AddrStays(d, d1, i, k) && AddrStays(d1, d', i, k); }
  }

  // ---- itrunc ----

  /** Block x is one of the file's first n blocks. */
  ghost predicate Among(owner: map<nat, Place>, inum: nat, n: nat, x: nat) {
    x in owner && owner[x].Data? && owner[x].inum == inum && owner[x].bn < n
  }

  /** d' is d after itrunc has freed the first n blocks of the file, and cleared the first m addresses. */
  ghost predicate Freeing(g: Layout, d: Disk, d': Disk, owner: map<nat, Place>, inum: nat, n: nat, m: nat) {
    && Shape(g, d) && Shape(g, d') && inum < |d.inodes| == |d'.inodes| && InodeOk(d, inum) && InodeOk(d', inum)
    && d'.inodes == d.inodes[inum := d'.inodes[inum]] && d'.inodes[inum].size == d.inodes[inum].size
    && (forall k: nat | k <= NDIRECT :: d'.inodes[inum].addrs[k] == if k < m then 0 else d.inodes[inum].addrs[k])
    && (forall x: nat | g.data <= x < g.size :: SameBlock(d, d', x))
    && (forall x: nat | x < g.size :: FreedBit(g, d, d', owner, inum, n, x))
  }

  ghost predicate FreedBit(g: Layout, d: Disk, d': Disk, owner: map<nat, Place>, inum: nat, n: nat, x: nat)
    requires Shape(g, d) && Shape(g, d') && x < g.size
  {
    Used(g, d', x) == (Used(g, d, x) && !Among(owner, inum, n, x))
  }

  lemma FreeingStart(g: Layout, d: Disk, owner: map<nat, Place>, inum: nat)
    requires Owned(g, d, owner) && inum < |d.inodes|
    ensures Freeing(g, d, d, owner, inum, 0, 0)
  {
    assert InodeOk(d, inum);
  }

  /** The next block of the file is still marked: freeing it cannot panic. */
  lemma NextIsUsed(g: Layout, d: Disk, d': Disk, owner: map<nat, Place>, inum: nat, n: nat, m: nat)
    requires Owned(g, d, owner) && Freeing(g, d, d', owner, inum, n, m) && Addr(d, inum, n) != 0
    ensures Addr(d, inum, n) < g.size && Used(g, d', Addr(d, inum, n))
  {
    hide Addr, Used;
    var b := Addr(d, inum, n);
    assert AddrOwned(d, owner, inum, n) && PlaceOk(g, d, owner, b) && BitOk(g, d, owner, b)
      && FreedBit(g, d, d', owner, inum, n, b);
  }

  /** One more block of the file is freed, if it is there. */
  lemma FreeingOne(g: Layout, d: Disk, d1: Disk, d': Disk, owner: map<nat, Place>, inum: nat, n: nat, m: nat)
    requires Owned(g, d, owner) && Freeing(g, d, d1, owner, inum, n, m) && Addr(d, inum, n) < g.size
    requires d' == if Addr(d, inum, n) == 0 then d1 else Marked(g, d1, Addr(d, inum, n), false)
    ensures Freeing(g, d, d', owner, inum, n + 1, m)
  {
    hide Addr, Used;
    var b, n1 := Addr(d, inum, n), n + 1;
    assert AddrOwned(d, owner, inum, n);
    if b != 0 { MarkedShape(g, d1, b, false); MapBlockBound(g, b); }
    forall x: nat | g.data <= x < g.size ensures SameBlock(d, d', x) { assert SameBlock(d, d1, x); }
    forall x: nat | x < g.size ensures FreedBit(g, d, d', owner, inum, n1, x) {
      assert FreedBit(g, d, d1, owner, inum, n, x) && PlaceOk(g, d, owner, x);
      if b != 0 { MarkedUsed(g, d1, b, false, x); }
    }
    assert InodeOk(d', inum);
  }

  /** Clearing an address. */
  lemma FreeingClear(g: Layout, d: Disk, d': Disk, owner: map<nat, Place>, inum: nat, n: nat, m: nat)
    requires Freeing(g, d, d', owner, inum, n, m) && m <= NDIRECT
    ensures Freeing(g, d, WithAddr(d', inum, m, 0), owner, inum, n, m + 1)
  {
    hide Used;
    WithAddrShape(g, d', inum, m, 0);
    var d2, m1 := WithAddr(d', inum, m, 0), m + 1;
    assert InodeOk(d2, inum);
    forall x: nat | g.data <= x < g.size ensures SameBlock(d, d2, x) { assert SameBlock(d, d', x); }
    forall x: nat | x < g.size
      ensures FreedBit(g, d, d2, owner, inum, n, x) { assert FreedBit(g, d, d', owner, inum, n, x); }
  }

  lemma SkipClear(g: Layout, d: Disk, d': Disk, owner: map<nat, Place>, inum: nat, n: nat, m: nat)
    requires Freeing(g, d, d', owner, inum, n, m) && m <= NDIRECT && d.inodes[inum].addrs[m] == 0
    ensures Freeing(g, d, d', owner, inum, n, m + 1)
  {
  }

  /** All blocks of the file are freed, and all its addresses cleared. */
  ghost predicate Emptied(g: Layout, d: Disk, d': Disk, owner: map<nat, Place>, inum: nat) {
    && Shape(g, d) && Shape(g, d') && inum < |d.inodes| == |d'.inodes| && InodeOk(d', inum)
    && d'.inodes == d.inodes[inum := d'.inodes[inum]]
    && (forall k: nat | k <= NDIRECT :: d'.inodes[inum].addrs[k] == 0)
    && (forall x: nat | g.data <= x < g.size :: SameBlock(d, d', x))
    && (forall x: nat | x < g.size :: EmptiedBit(g, d, d', owner, inum, x))
  }

  ghost predicate EmptiedBit(g: Layout, d: Disk, d': Disk, owner: map<nat, Place>, inum: nat, x: nat)
    requires Shape(g, d) && Shape(g, d') && x < g.size
  {
    Used(g, d', x) == (Used(g, d, x) && !(x in owner && owner[x].inum == inum))
  }

  /** A file without an indirect block has no more than its direct blocks. */
  lemma NoTable(g: Layout, d: Disk, d': Disk, owner: map<nat, Place>, inum: nat)
    requires Owned(g, d, owner) && Freeing(g, d, d', owner, inum, NDIRECT, NDIRECT) && TableOf(d, inum) == 0
    ensures Emptied(g, d, d', owner, inum)
  {
    hide Used;
    forall x: nat | x < g.size ensures EmptiedBit(g, d, d', owner, inum, x) {
      assert FreedBit(g, d, d', owner, inum, NDIRECT, x) && PlaceOk(g, d, owner, x);
    }
    forall k: nat | k <= NDIRECT ensures d'.inodes[inum].addrs[k] == 0 {}
  }

  lemma TableIsUsed(g: Layout, d: Disk, d': Disk, owner: map<nat, Place>, inum: nat)
    requires Owned(g, d, owner) && Freeing(g, d, d', owner, inum, MAXFILE, NDIRECT) && TableOf(d, inum) != 0
    ensures TableOf(d, inum) < g.size && Used(g, d', TableOf(d, inum))
  {
    hide Used, TableOf;
    var t := TableOf(d, inum);
    assert TableOwned(d, owner, inum) && PlaceOk(g, d, owner, t) && BitOk(g, d, owner, t)
      && FreedBit(g, d, d', owner, inum, MAXFILE, t);
  }

  /** The indirect block is freed last. */
  lemma TableFreed(g: Layout, d: Disk, d': Disk, owner: map<nat, Place>, inum: nat)
    requires Owned(g, d, owner) && Freeing(g, d, d', owner, inum, MAXFILE, NDIRECT)
    requires 0 < TableOf(d, inum) < g.size
    ensures var d2 := Marked(g, d', TableOf(d, inum), false);
            && |d2.inodes| == |d.inodes| && |d2.inodes[inum].addrs| == NDIRECT + 1
            && Emptied(g, d, WithAddr(d2, inum, NDIRECT, 0), owner, inum)
  {
    hide Used, TableOf, Addr;
    var t := TableOf(d, inum);
    MarkedShape(g, d', t, false);
    MapBlockBound(g, t);
    var d2 := Marked(g, d', t, false);
    WithAddrShape(g, d2, inum, NDIRECT, 0);
    var d3 := WithAddr(d2, inum, NDIRECT, 0);
    assert TableOwned(d, owner, inum) && InodeOk(d3, inum);
    forall x: nat | g.data <= x < g.size ensures SameBlock(d, d3, x) { assert SameBlock(d, d', x); }
    forall x: nat | x < g.size ensures EmptiedBit(g, d, d3, owner, inum, x) {
      assert FreedBit(g, d, d', owner, inum, MAXFILE, x) && PlaceOk(g, d, owner, x);
      MarkedUsed(g, d', t, false, x);
    }
  }

  lemma EmptiedTruncates(g: Layout, d: Disk, d': Disk, owner: map<nat, Place>, inum: nat)
    requires Emptied(g, d, d', owner, inum)
    ensures Truncated(g, d, d'.(inodes := d'.inodes[inum := d'.inodes[inum].(size := 0)]), owner, inum)
  {
    var d2 := d'.(inodes := d'.inodes[inum := d'.inodes[inum].(size := 0)]);
    forall x: nat | x < g.size ensures BlockOk(d2, x) { assert BlockOk(d', x); }
    forall i: nat | i < |d2.inodes| ensures InodeOk(d2, i) { assert InodeOk(d', i); }
    assert d2.inodes[inum].addrs == Cleared().addrs;
    forall x: nat | g.data <= x < g.size ensures SameBlock(d, d2, x) { assert SameBlock(d, d', x); }
    forall x: nat | x < g.size ensures Used(g, d2, x) == (Used(g, d, x) && !(x in owner && owner[x].inum == inum)) {
      assert EmptiedBit(g, d, d', owner, inum, x);
    }
  }

  // ---- readi and writei ----

  /** c with the bytes from off on replaced by src, and extended if src goes beyond its end. */
  function Patched(c: seq<Byte>, off: nat, src: seq<Byte>): (r: seq<Byte>)
    requires off <= |c|
    ensures |r| == Max(|c|, off + |src|)
    ensures forall k | 0 <= k < |r| :: r[k] == if off <= k < off + |src| then src[k - off] else c[k]
  {
    c[..off] + src + (if off + |src| < |c| then c[off + |src|..] else [])
  }

  /** File inum's byte k, in d', after src has been written from off on in d. */
  ghost predicate ByteWritten(d: Disk, d': Disk, inum: nat, off: nat, src: seq<Byte>, i: nat, k: nat) {
    ByteAt(d', i, k) == if i == inum && off <= k < off + |src| then src[k - off] else ByteAt(d, i, k)
  }

  /** The addresses of n blocks of file inum, from block lo on. */
  function Addrs(d: Disk, inum: nat, lo: nat, n: nat): set<nat> {
    if n == 0 then {} else Addrs(d, inum, lo, n - 1) + {Addr(d, inum, lo + n - 1)}
  }

  lemma {:induction false} AddrsSize(d: Disk, inum: nat, lo: nat, n: nat)
    ensures |Addrs(d, inum, lo, n)| <= n
  {
    if n > 0 { AddrsSize(d, inum, lo, n - 1); }
  }

  /** Blocks that are there do not move, so the set of their addresses stays. */
  lemma {:induction false} AddrsStay(d: Disk, d': Disk, inum: nat, lo: nat, n: nat)
    requires forall k: nat | lo <= k < lo + n :: AddrStays(d, d', inum, k)
    ensures Addrs(d', inum, lo, n) == Addrs(d, inum, lo, n)
  {
    if n > 0 {
      AddrsStay(d, d', inum, lo, n - 1);
      assert AddrStays(d, d', inum, lo + n - 1);
    }
  }

  /** d' is d after src has been written to file inum from off on, before the size is
      adjusted; the first tot bytes of src are in blocks that are there. */
  ghost predicate Writing(d: Disk, d': Disk, inum: nat, off: nat, src: seq<Byte>, tot: nat) {
    && OnlyInode(d, d', inum)
    && (forall i: nat :: SizeOf(d', i) == SizeOf(d, i))
    && (forall i: nat :: TableStays(d, d', i))
    && (forall i: nat, k: nat :: ByteWritten(d, d', inum, off, src, i, k))
    && (forall i: nat, k: nat :: AddrFixed(d, d', inum, i, k))
    && (forall k: nat | off <= k < off + tot :: Addr(d', inum, k / BSIZE) != 0)
  }

  ghost predicate AddrFixed(d: Disk, d': Disk, inum: nat, i: nat, k: nat) {
    i != inum || Addr(d, i, k) != 0 ==> Addr(d', i, k) == Addr(d, i, k)
  }

  /** One more piece. */
  lemma WritingMore(d: Disk, d1: Disk, d': Disk, inum: nat, off: nat, src: seq<Byte>, tot: nat, bytes: seq<Byte>,
    m: nat)
    requires Writing(d, d1, inum, off, src, tot) && |src| == tot
    requires Writing(d1, d', inum, off + tot, bytes, m)
    ensures Writing(d, d', inum, off, src + bytes, tot + m)
  {
    hide Addr, ByteAt, TableOf;
    var o := off + tot;
    forall i: nat ensures TableStays(d, d', i) { assert TableStays(d, d1, i) && TableStays(d1, d', i); }
    forall i: nat, k: nat ensures ByteWritten(d, d', inum, off, src + bytes, i, k) {
      assert ByteWritten(d, d1, inum, off, src, i, k) && ByteWritten(d1, d', inum, o, bytes, i, k);
    }
    forall i: nat, k: nat ensures AddrFixed(d, d', inum, i, k) {
      assert AddrFixed(d, d1, inum, i, k) && AddrFixed(d1, d', inum, i, k);
    }
    forall k: nat | off <= k < off + (tot + m) ensures Addr(d', inum, k / BSIZE) != 0 {
      assert AddrFixed(d1, d', inum, inum, k / BSIZE);
      if k < o { assert Addr(d1, inum, k / BSIZE) != 0; }
    }
  }

  lemma WritingNothing(d: Disk, inum: nat, off: nat)
    requires inum < |d.inodes|
    ensures Writing(d, d, inum, off, [], 0)
  {
  }

  /** One call of bmap and one copy into the block. */
  lemma PieceWritten(g: Layout, d: Disk, d1: Disk, owner: map<nat, Place>, inum: nat, o: nat, bytes: seq<Byte>, m: nat)
    requires Owned(g, d1, owner) && Mapped(d, d1, inum, o / BSIZE) && |bytes| <= m && o % BSIZE + m <= BSIZE
    requires Addr(d, inum, o / BSIZE) != 0 ==> d1 == d
    ensures var b := Addr(d1, inum, o / BSIZE); b < |d1.blocks| && |d1.blocks[b]| == BSIZE
    ensures var b := Addr(d1, inum, o / BSIZE);
            var d' := WithBlock(d1, b, PutBytes(d1.blocks[b], o % BSIZE, bytes));
            Owned(g, d', owner) && Writing(d, d', inum, o, bytes, m) && Addr(d', inum, o / BSIZE) == b
              && TableOf(d', inum) == TableOf(d1, inum)
  {
    hide Addr, ByteAt, TableOf, Used;
    var bn := o / BSIZE;
    var b := Addr(d1, inum, bn);
    ReadableBlock(g, d1, owner, inum, bn);
    var block := PutBytes(d1.blocks[b], o % BSIZE, bytes);
    var d' := WithBlock(d1, b, block);
    DataOwned(g, d1, owner, inum, bn, block);
    forall i: nat ensures TableStays(d, d', i) {
      DataIsNoTable(g, d1, owner, inum, bn, block, i, 0);
      assert TableStays(d, d1, i);
    }
    forall i: nat, k: nat ensures ByteWritten(d, d', inum, o, bytes, i, k) {
      BytesPut(g, d1, owner, inum, o, bytes, i, k);
      assert ByteSame(d, d1, i, k);
    }
    forall i: nat, k: nat ensures AddrFixed(d, d', inum, i, k) {
      DataIsNoTable(g, d1, owner, inum, bn, block, i, k);
      if i != inum || k != bn { assert AddrStays(d, d1, i, k); }
    }
    forall k: nat | o <= k < o + m ensures Addr(d', inum, k / BSIZE) != 0 {
      WithinBlock(o, m, k);
      DataIsNoTable(g, d1, owner, inum, bn, block, inum, bn);
    }
    DataIsNoTable(g, d1, owner, inum, bn, block, inum, bn);
  }

  /** The number of blocks that the bytes off, ..., off + n - 1 touch. */
  function Touched(off: nat, n: nat): nat {
    if n == 0 then 0 else (off + n - 1) / BSIZE - off / BSIZE + 1
  }

  lemma {:induction false} AddrsGrow(d: Disk, inum: nat, lo: nat, n: nat, n': nat)
    requires n <= n'
    ensures Addrs(d, inum, lo, n) <= Addrs(d, inum, lo, n')
    ensures forall k: nat | lo + n <= k < lo + n' :: Addr(d, inum, k) in Addrs(d, inum, lo, n')
  {
    if n < n' { AddrsGrow(d, inum, lo, n, n' - 1); }
  }

  /** Every block that the first tot bytes touch is there. */
  lemma TouchedThere(d: Disk, d': Disk, inum: nat, off: nat, src: seq<Byte>, tot: nat, bn: nat)
    requires Writing(d, d', inum, off, src, tot) && off / BSIZE <= bn < off / BSIZE + Touched(off, tot)
    ensures Addr(d', inum, bn) != 0
  {
    hide Addr, ByteWritten;
    var k := if bn == off / BSIZE then off else bn * BSIZE;
    assert off <= k < off + tot && k / BSIZE == bn by { assert (off + tot - 1) / BSIZE * BSIZE <= off + tot - 1; }
  }

  lemma TouchedMore(off: nat, tot: nat, m: nat)
    requires 0 < m && (off + tot) % BSIZE + m <= BSIZE
    ensures Touched(off, tot) <= Touched(off, tot + m) == (off + tot) / BSIZE - off / BSIZE + 1
  {
    WithinBlock(off + tot, m, off + tot + m - 1);
  }

  /** The blocks logged by one more piece of a write. */
  lemma LoggedMore(d: Disk, d1: Disk, d': Disk, inum: nat, off: nat, src: seq<Byte>, tot: nat, bytes: seq<Byte>, m: nat)
    requires Writing(d, d1, inum, off, src, tot) && Writing(d1, d', inum, off + tot, bytes, m)
    requires 0 < m && (off + tot) % BSIZE + m <= BSIZE
    ensures Addrs(d1, inum, off / BSIZE, Touched(off, tot)) <= Addrs(d', inum, off / BSIZE, Touched(off, tot + m))
    ensures Addr(d', inum, (off + tot) / BSIZE) in Addrs(d', inum, off / BSIZE, Touched(off, tot + m))
    ensures Tables(d1, inum) <= Tables(d', inum)
  {
    hide Addr, ByteWritten, TableOf;
    var lo, n, n' := off / BSIZE, Touched(off, tot), Touched(off, tot + m);
    TouchedMore(off, tot, m);
    assert TableStays(d1, d', inum);
    forall k: nat | lo <= k < lo + n ensures AddrStays(d1, d', inum, k) {
      TouchedThere(d, d1, inum, off, src, tot, k);
      assert AddrFixed(d1, d', inum, inum, k);
    }
    AddrsStay(d1, d', inum, lo, n);
    AddrsGrow(d', inum, lo, n, n');
    AddrsGrow(d', inum, lo, n' - 1, n');
  }

  /** The file after a write: its new size is somewhere between its old one and the end of src. */
  lemma WrittenContents(d: Disk, d': Disk, inum: nat, off: nat, src: seq<Byte>, tot: nat, size: nat)
    requires Writing(d, d', inum, off, src, tot) && inum < |d.inodes| && off <= SizeOf(d, inum)
    requires size == Max(SizeOf(d, inum), off + tot) <= MAXFILE * BSIZE && tot <= |src| && Whole(d, inum)
    ensures var d2 := Resized(d', inum, size);
            && Contents(d2, inum) == Patched(Contents(d, inum), off, src)[..size] && Whole(d2, inum)
  {
    hide Addr;
    var d2 := Resized(d', inum, size);
    var c, c' := Patched(Contents(d, inum), off, src), Contents(d2, inum);
    forall k: nat | k < size ensures c'[k] == c[k] {
      ResizedByte(d', inum, size, inum, k);
      assert ByteWritten(d, d', inum, off, src, inum, k);
    }
    forall k: nat | k < size ensures Addr(d2, inum, k / BSIZE) != 0 {
      ResizedByte(d', inum, size, inum, k);
      assert AddrFixed(d, d', inum, inum, k / BSIZE);
      if k < SizeOf(d, inum) { assert Addr(d, inum, k / BSIZE) != 0; }
    }
  }

  lemma OtherContents(d: Disk, d': Disk, inum: nat, off: nat, src: seq<Byte>, tot: nat, size: nat, i: nat)
    requires Writing(d, d', inum, off, src, tot) && inum < |d.inodes| && i != inum && Whole(d, i)
    ensures var d2 := Resized(d', inum, size); Contents(d2, i) == Contents(d, i) && Whole(d2, i)
  {
    hide Addr;
    var d2 := Resized(d', inum, size);
    assert SizeOf(d2, i) == SizeOf(d', i) == SizeOf(d, i);
    forall k: nat | k < SizeOf(d, i) ensures Contents(d2, i)[k] == Contents(d, i)[k] && Addr(d2, i, k / BSIZE) != 0 {
      ResizedByte(d', inum, size, i, k);
      assert ByteWritten(d, d', inum, off, src, i, k) && AddrFixed(d, d', inum, i, k / BSIZE);
      assert Addr(d, i, k / BSIZE) != 0;
    }
  }

  function Resized(d: Disk, inum: nat, size: nat): Disk
    requires inum < |d.inodes|
  {
    d.(inodes := d.inodes[inum := d.inodes[inum].(size := size)])
  }

  lemma ResizedByte(d: Disk, inum: nat, size: nat, i: nat, k: nat)
    requires inum < |d.inodes|
    ensures var d' := Resized(d, inum, size);
            ByteAt(d', i, k) == ByteAt(d, i, k) && Addr(d', i, k / BSIZE) == Addr(d, i, k / BSIZE)
              && TableOf(d', i) == TableOf(d, i)
  {
  }

  lemma ResizedAddr(d: Disk, inum: nat, size: nat, i: nat, k: nat)
    requires inum < |d.inodes|
    ensures var d' := Resized(d, inum, size); Addr(d', i, k) == Addr(d, i, k) && TableOf(d', i) == TableOf(d, i)
  {
  }

  lemma ResizedOwned(g: Layout, d: Disk, owner: map<nat, Place>, inum: nat, size: nat)
    requires Owned(g, d, owner) && inum < |d.inodes|
    ensures Owned(g, Resized(d, inum, size), owner)
  {
    hide Addr, TableOf;
    var d' := Resized(d, inum, size);
    forall x: nat | x < g.size ensures BlockOk(d', x) { assert BlockOk(d, x); }
    forall i: nat | i < |d'.inodes| ensures InodeOk(d', i) { assert InodeOk(d, i); }
    forall i: nat, k: nat ensures AddrOwned(d', owner, i, k) {
      ResizedAddr(d, inum, size, i, k);
      assert AddrOwned(d, owner, i, k);
    }
    forall i: nat ensures TableOwned(d', owner, i) { ResizedAddr(d, inum, size, i, 0); assert TableOwned(d, owner, i); }
    forall x: nat ensures PlaceOk(g, d', owner, x) {
      assert PlaceOk(g, d, owner, x);
      if x in owner {
        match owner[x]
        case Data(i, k) => ResizedAddr(d, inum, size, i, k);
        case Table(i) => ResizedAddr(d, inum, size, i, 0);
      }
    }
    forall x: nat | x < g.size ensures BitOk(g, d', owner, x) { assert BitOk(g, d, owner, x); }
  }

  lemma {:induction false} ResizedAddrs(d: Disk, inum: nat, size: nat, lo: nat, n: nat)
    requires inum < |d.inodes|
    ensures Addrs(Resized(d, inum, size), inum, lo, n) == Addrs(d, inum, lo, n)
  {
    hide Addr;
    if n > 0 {
      ResizedAddrs(d, inum, size, lo, n - 1);
      ResizedAddr(d, inum, size, inum, lo + n - 1);
    }
  }

  lemma WritingSize(d: Disk, d': Disk, inum: nat, off: nat, src: seq<Byte>, tot: nat)
    requires Writing(d, d', inum, off, src, tot)
    ensures OnlyInode(d, d', inum) && SizeOf(d', inum) == SizeOf(d, inum)
  {
  }

  lemma WritingLess(d: Disk, d': Disk, inum: nat, off: nat, src: seq<Byte>, tot: nat, tot': nat)
    requires Writing(d, d', inum, off, src, tot') && tot <= tot'
    ensures Writing(d, d', inum, off, src, tot)
  {
  }

  lemma WholeSize(d: Disk, inum: nat)
    requires Whole(d, inum)
    ensures SizeOf(d, inum) <= MAXFILE * BSIZE
  {
  }

  /** The whole of writei, once its loop is done. */
  lemma WriteDone(g: Layout, d: Disk, d': Disk, owner: map<nat, Place>, inum: nat, off: nat, src: seq<Byte>, tot: nat,
    size: nat, n: nat)
    requires Owned(g, d', owner) && Writing(d, d', inum, off, src, tot) && inum < |d.inodes| && off <= SizeOf(d, inum)
    requires size == Max(SizeOf(d, inum), off + tot) && off + tot <= MAXFILE * BSIZE && tot <= |src|
    requires forall i: nat :: Whole(d, i)
    ensures |d'.inodes| == |d.inodes| && SizeOf(d', inum) == SizeOf(d, inum)
    ensures var d2 := Resized(d', inum, size);
            && Owned(g, d2, owner) && (forall i: nat :: Whole(d2, i))
            && Contents(d2, inum) == Patched(Contents(d, inum), off, src)[..size]
            && (forall i: nat | i != inum :: Contents(d2, i) == Contents(d, i))
            && DataSet(g, d2, inum, off, n) == DataSet(g, d', inum, off, n)
  {
    hide Addr, Owned, Whole, Writing, Contents, ByteAt, Touched;
    WritingSize(d, d', inum, off, src, tot);
    assert SizeOf(d, inum) <= MAXFILE * BSIZE by { WholeSize(d, inum); }
    var d2 := Resized(d', inum, size);
    ResizedOwned(g, d', owner, inum, size);
    forall i: nat ensures Whole(d2, i) && (i != inum ==> Contents(d2, i) == Contents(d, i)) {
      assert Whole(d, i) && Whole(d, inum);
      if i == inum {
        WrittenContents(d, d', inum, off, src, tot, size);
      } else {
        OtherContents(d, d', inum, off, src, tot, size, i);
      }
    }
    assert Whole(d, inum);
    WrittenContents(d, d', inum, off, src, tot, size);
    ResizedAddrs(d', inum, size, off / BSIZE, Touched(off, n));
    ResizedAddr(d', inum, size, inum, 0);
  }

  lemma TruncatedFiles(g: Layout, d: Disk, d': Disk, owner: map<nat, Place>, inum: nat)
    requires Owned(g, d, owner) && Truncated(g, d, d', owner, inum) && forall i: nat :: Whole(d, i)
    ensures (forall i: nat :: Whole(d', i)) && Contents(d', inum) == []
    ensures forall i: nat | i != inum :: Contents(d', i) == Contents(d, i)
  {
    hide Used, Addr, Owned, ByteAt;
    forall i: nat ensures Whole(d', i) && (i != inum ==> Contents(d', i) == Contents(d, i)) {
      assert Whole(d, i);
      if i != inum {
        forall k: nat | k < SizeOf(d, i) ensures Contents(d', i)[k] == Contents(d, i)[k]
          && Addr(d', i, k / BSIZE) != 0 {
          TruncatedBytes(g, d, d', owner, inum, i, k);
          TruncatedAddr(g, d, d', owner, inum, i, k / BSIZE);
        }
      }
    }
  }

  /** IBLOCK(inum, sb), with 16 inodes of 64 bytes in a block */
  function InodeBlock(inodestart: nat, inum: nat): nat {
    inum / 16 + inodestart
  }

  /** The blocks that writing n bytes may log besides the inode's. */
  function DataSet(g: Layout, d: Disk, inum: nat, off: nat, n: nat): set<nat> {
    Addrs(d, inum, off / BSIZE, Touched(off, n)) + Tables(d, inum) + MapBlocks(g)
  }

  lemma DataSetGrows(g: Layout, d: Disk, inum: nat, off: nat, n: nat, n': nat)
    requires n <= n'
    ensures DataSet(g, d, inum, off, n) <= DataSet(g, d, inum, off, n')
  {
    hide Addr;
    assert n > 0 ==> (off + n - 1) / BSIZE <= (off + n' - 1) / BSIZE;
    assert n' > 0 ==> off / BSIZE <= (off + n' - 1) / BSIZE;
    AddrsGrow(d, inum, off / BSIZE, Touched(off, n), Touched(off, n'));
  }

  /** One more piece, and the blocks it logs. */
  lemma PieceDone(g: Layout, d: Disk, d1: Disk, d': Disk, inum: nat, off: nat, src: seq<Byte>, tot: nat,
    bytes: seq<Byte>, m: nat)
    requires Writing(d, d1, inum, off, src, tot) && |src| == tot && Writing(d1, d', inum, off + tot, bytes, m)
    requires 0 < m && (off + tot) % BSIZE + m <= BSIZE
    ensures Writing(d, d', inum, off, src + bytes, tot + m)
    ensures DataSet(g, d1, inum, off, tot) + {Addr(d', inum, (off + tot) / BSIZE)}
      + Tables(d', inum) + MapBlocks(g) <= DataSet(g, d', inum, off, tot + m)
  {
    hide Writing, Addrs, Tables, MapBlocks, Touched, Addr;
    WritingMore(d, d1, d', inum, off, src, tot, bytes, m);
    LoggedMore(d, d1, d', inum, off, src, tot, bytes, m);
  }

  // ---- The write budget ----

  const MAXOPBLOCKS: nat := 10
  const CHUNK: nat := (MAXOPBLOCKS - 1 - 1 - 2) / 2 * BSIZE

  /** The blocks one writei may pass to log_write: data, indirect, free map and inode. */
  function WriteSet(g: Layout, d: Disk, inum: nat, off: nat, n: nat, inodestart: nat): set<nat> {
    DataSet(g, d, inum, off, n) + {InodeBlock(inodestart, inum)}
  }

  lemma TouchedAtMost(off: nat, n: nat)
    requires n <= CHUNK
    ensures Touched(off, n) <= 4
  {
  }

  lemma UnionSize<T>(a: set<T>, b: set<T>)
    ensures |a + b| <= |a| + |b|
  {
    assert a + b == a + (b - a);
    assert |b - a| <= |b| by { assert (b - a) + (a * b) == b; }
  }

  /** A write of one chunk logs at most 4 data blocks, the indirect block, the inode's
      block and the free map: 7 blocks when the free map is one block. */
  lemma WriteBudget(g: Layout, d: Disk, inum: nat, off: nat, n: nat, inodestart: nat, logged: set<nat>)
    requires n <= CHUNK && logged <= WriteSet(g, d, inum, off, n, inodestart)
    ensures |logged| <= 7 + g.size / BPB
    ensures g.size < BPB ==> |logged| <= 7 <= MAXOPBLOCKS
  {
    var a, t, m, i := Addrs(d, inum, off / BSIZE, Touched(off, n)), Tables(d, inum), MapBlocks(g),
      {InodeBlock(inodestart, inum)};
    TouchedAtMost(off, n);
    AddrsSize(d, inum, off / BSIZE, Touched(off, n));
    SpanSize(g.bmapstart, g.size / BPB + 1);
    UnionSize(a, t);
    UnionSize(a + t, m);
    UnionSize(a + t + m, i);
    SubsetSize(logged, a + t + m + i);
  }

  lemma SubsetSize<T>(a: set<T>, b: set<T>)
    requires a <= b
    ensures |a| <= |b|
  {
    assert b == a + (b - a);
  }

  /** A write that was cut short: some first part of src is in the file. */
  ghost predicate CutShort(c: seq<Byte>, c': seq<Byte>, off: nat, src: seq<Byte>, t: nat) {
    t <= |src| && |c| <= |c'| && if off <= |c| then c' <= Patched(c, off, src[..t]) else c' == c
  }

  /** The first i bytes of src have been written. */
  ghost predicate Progress(c: seq<Byte>, c': seq<Byte>, off: nat, src: seq<Byte>, i: nat) {
    i <= |src| && if i == 0 then c' == c else off <= |c| && c' == Patched(c, off, src[..i])
  }

  /** One more operation of filewrite, of n1 bytes, out of part. */
  lemma ChunkDone(c: seq<Byte>, c1: seq<Byte>, off: nat, src: seq<Byte>, i: nat, n1: nat, part: seq<Byte>)
    requires Progress(c, c1, off, src, i) && part == src[i..Min(i + n1, |src|)] && off + i <= |c1|
    ensures off <= |c| && Patched(c1, off + i, part) == Patched(c, off, src[..Min(i + n1, |src|)])
  {
    var a := src[..i];
    assert Patched(c, off, []) == c;
    assert c1 == Patched(c, off, a);
    PatchedTwice(c, off, a, part);
    assert a + part == src[..Min(i + n1, |src|)];
  }

  lemma ProgressStart(c: seq<Byte>, off: nat, src: seq<Byte>)
    ensures Progress(c, c, off, src, 0)
  {
  }

  lemma ProgressMore(c: seq<Byte>, c': seq<Byte>, off: nat, src: seq<Byte>, i: nat)
    requires 0 < i <= |src| && off <= |c| && c' == Patched(c, off, src[..i])
    ensures Progress(c, c', off, src, i)
  {
  }

  lemma ProgressEnd(c: seq<Byte>, c': seq<Byte>, off: nat, src: seq<Byte>, i: nat)
    requires Progress(c, c', off, src, i)
    ensures i == |src| && i > 0 ==> c' == Patched(c, off, src)
    ensures i > 0 ==> off + i <= |c'|
  {
    assert src[..|src|] == src;
  }

  /** An operation that fails ends the write. */
  lemma ChunkFailed(c: seq<Byte>, c1: seq<Byte>, c2: seq<Byte>, off: nat, src: seq<Byte>, i: nat, n1: nat,
    part: seq<Byte>)
    requires Progress(c, c1, off, src, i) && part == src[i..Min(i + n1, |src|)]
    requires c2 == c1 || (off + i <= |c1| && |c1| <= |c2| && c2 <= Patched(c1, off + i, part))
    ensures exists t: nat :: CutShort(c, c2, off, src, t)
  {
    if c2 == c1 {
      assert off <= |c| ==> Patched(c, off, []) == c;
      assert src[..0] == [];
      assert CutShort(c, c2, off, src, i);
    } else {
      ChunkDone(c, c1, off, src, i, n1, part);
      assert CutShort(c, c2, off, src, Min(i + n1, |src|));
    }
  }

  /** Every operation in ops fits its share of the log. */
  ghost predicate WithinBudget(g: Layout, ops: seq<set<nat>>) {
    forall k: nat | k < |ops| :: |ops[k]| <= 7 + g.size / BPB
  }

  lemma NoOps(g: Layout)
    ensures WithinBudget(g, [])
  {
  }

  lemma OneMoreOp(g: Layout, ops: seq<set<nat>>, n: nat, op: set<nat>)
    requires n <= |ops| && WithinBudget(g, ops[n..]) && |op| <= 7 + g.size / BPB
    ensures WithinBudget(g, (ops + [op])[n..])
  {
    assert (ops + [op])[n..] == ops[n..] + [op];
  }

  /** Writing a and then b right behind it is writing a + b. */
  lemma PatchedTwice(c: seq<Byte>, off: nat, a: seq<Byte>, b: seq<Byte>)
    requires off <= |c|
    ensures off + |a| <= |Patched(c, off, a)|
    ensures Patched(Patched(c, off, a), off + |a|, b) == Patched(c, off, a + b)
  {
  }

  class Files {
    const g: Layout
    const inodestart: nat

    var disk: Disk
    var dinodes: seq<Inode>           // the inodes as iupdate last stored them
    ghost var owner: map<nat, Place>
    ghost var logged: set<nat>        // the blocks passed to log_write in this operation
    ghost var ops: seq<set<nat>>      // the same for the operations that have ended

    ghost predicate Own()
      reads this
    {
      Owned(g, disk, owner)
    }

    /** A file system as it is found on disk. */
    constructor (g: Layout, inodestart: nat, disk: Disk, ghost owner: map<nat, Place>)
      requires Owned(g, disk, owner) && forall i: nat :: Whole(disk, i)
      ensures Valid() && this.disk == disk && this.owner == owner && this.g == g && this.inodestart == inodestart
    {
      this.g, this.inodestart, this.disk, this.dinodes := g, inodestart, disk, disk.inodes;
      this.owner, this.logged, this.ops := owner, {}, [];
    }

    /** Every file has the blocks its size needs, and the stored inodes are up to date. */
    ghost predicate Valid()
      reads this
    {
      Own() && dinodes == disk.inodes && forall i: nat :: Whole(disk, i)
    }

    /** Allocate a zeroed disk block: the first free one. None when there is no free
        block, where the kernel panics. */
    method Balloc() returns (r: Option<nat>)
      requires Shape(g, disk)
      modifies `disk, `logged
      ensures r.None? ==> disk == old(disk) && logged == old(logged) && forall b: nat | b < g.size :: Used(g, disk, b)
      ensures r.Some? ==> r.value < g.size && !Used(g, old(disk), r.value) && disk == Zeroed(g, old(disk), r.value)
      ensures r.Some? ==> forall x: nat | x < r.value :: Used(g, old(disk), x)
      ensures r.Some? ==> logged == old(logged) + {MapBlock(g, r.value), r.value}
    {
      var b := 0;
      while b < g.size
        invariant b % BPB == 0 && disk == old(disk) && logged == old(logged)
        invariant forall x: nat | x < b && x < g.size :: Used(g, disk, x)
        decreases g.size - b
      {
        MapBlockBound(g, b);
        var bno := MapBlock(g, b);
        var bp := disk.blocks[bno];
        assert BlockOk(disk, bno);
        var bi := 0;
        while bi < BPB && b + bi < g.size
          invariant bi <= BPB && disk == old(disk) && logged == old(logged)
          invariant forall x: nat | x < b + bi && x < g.size :: Used(g, disk, x)
        {
          InGroup(b, bi);
          if !BitAt(bp, bi) {
            disk := disk.(blocks := disk.blocks[bno := WithBitAt(bp, bi, true)]);
            logged := logged + {bno};
            assert disk == Marked(g, old(disk), b + bi, true);
            disk := WithBlock(disk, b + bi, Zeros());
            logged := logged + {b + bi};
            return Some(b + bi);
          }
          bi := bi + 1;
        }
        b := b + BPB;
      }
      return None;
    }

    /** Free a disk block. The caller must own it: freeing a free block panics. */
    method Bfree(b: nat)
      requires Shape(g, disk) && b < g.size && Used(g, disk, b)
      modifies `disk, `logged
      ensures disk == Marked(g, old(disk), b, false) && logged == old(logged) + {MapBlock(g, b)}
    {
      MapBlockBound(g, b);
      var bno := MapBlock(g, b);
      assert BlockOk(disk, bno);
      disk := disk.(blocks := disk.blocks[bno := WithBitAt(disk.blocks[bno], b % BPB, false)]);
      logged := logged + {bno};
    }

    /** The indirect block of file inum, allocated if it is missing. */
    method IndirectBlock(inum: nat) returns (r: Option<nat>)
      requires Own() && inum < |disk.inodes|
      modifies `disk, `owner, `logged
      ensures Own()
      ensures r.None? ==> forall b: nat | b < g.size :: Used(g, disk, b)
      ensures r.Some? ==>
        Steady(old(disk), disk) && OnlyInode(old(disk), disk, inum) && r.value == TableOf(disk, inum) != 0
      ensures TableOf(old(disk), inum) != 0 ==>
        r.Some? && disk == old(disk) && owner == old(owner) && logged == old(logged)
      ensures r.Some? ==> old(owner).Keys <= owner.Keys
      ensures r.Some? ==> logged <= old(logged) + {r.value} + MapBlocks(g)
    {
      assert InodeOk(disk, inum);
      var t := disk.inodes[inum].addrs[NDIRECT];
      if t == 0 {
        ghost var d := disk;
        var b := Balloc();
        if b.None? { return None; }
        t := b.value;
        TableSteady(g, d, owner, inum, t);
        disk := WithAddr(disk, inum, NDIRECT, t);
        owner := owner[t := Table(inum)];
      }
      return Some(t);
    }

    method DirectBlock(inum: nat, bn: nat) returns (r: Option<nat>)
      requires Own() && inum < |disk.inodes| && bn < NDIRECT
      modifies `disk, `owner, `logged
      ensures Own()
      ensures r.None? ==> forall b: nat | b < g.size :: Used(g, disk, b)
      ensures r.Some? ==> Mapped(old(disk), disk, inum, bn) && r.value == Addr(disk, inum, bn)
      ensures r.Some? && Addr(old(disk), inum, bn) == 0 ==> r.value !in old(owner)
      ensures Addr(old(disk), inum, bn) != 0 ==>
        r.Some? && disk == old(disk) && owner == old(owner) && logged == old(logged)
      ensures r.Some? ==> logged <= old(logged) + {r.value} + Tables(disk, inum) + MapBlocks(g)
    {
      hide Used, ByteAt;
      assert InodeOk(disk, inum);
      var addr := disk.inodes[inum].addrs[bn];
      if addr == 0 {
        ghost var d := disk;
        var b := Balloc();
        if b.None? { return None; }
        addr := b.value;
        DirectMapped(g, d, owner, inum, bn, addr);
        disk := WithAddr(disk, inum, bn, addr);
        owner := owner[addr := Data(inum, bn)];
      }
      return Some(addr);
    }

    method ListedBlock(inum: nat, bn: nat) returns (r: Option<nat>)
      requires Own() && inum < |disk.inodes| && NDIRECT <= bn < MAXFILE
      modifies `disk, `owner, `logged
      ensures Own()
      ensures r.None? ==> forall b: nat | b < g.size :: Used(g, disk, b)
      ensures r.Some? ==> Mapped(old(disk), disk, inum, bn) && r.value == Addr(disk, inum, bn)
      ensures r.Some? && Addr(old(disk), inum, bn) == 0 ==> r.value !in old(owner)
      ensures Addr(old(disk), inum, bn) != 0 ==>
        r.Some? && disk == old(disk) && owner == old(owner) && logged == old(logged)
      ensures r.Some? ==> logged <= old(logged) + {r.value} + Tables(disk, inum) + MapBlocks(g)
    {
      hide Used, ByteAt, Zeroed;
      var j := bn - NDIRECT;
      var t := IndirectBlock(inum);
      if t.None? { return None; }
      ghost var d := disk;
      assert TableOwned(disk, owner, inum) && PlaceOk(g, disk, owner, t.value) && BlockOk(disk, t.value);
      var addr := Word(disk.blocks[t.value], j);
      assert addr == Addr(disk, inum, bn) == Addr(old(disk), inum, bn) by {
        assert AddrStays(old(disk), disk, inum, bn);
      }
      if addr == 0 {
        var b := Balloc();
        if b.None? { return None; }
        IndirectMapped(g, d, owner, inum, j, b.value);
        addr := b.value;
        disk := WithEntry(disk, t.value, j, addr);
        logged := logged + {t.value};
        owner := owner[addr := Data(inum, bn)];
        SteadyThenMapped(old(disk), d, disk, inum, bn);
      }
      return Some(addr);
    }

    /** The address of block bn of file inum, allocated if it is missing. None when
        there is no free block left, where the kernel panics. */
    method Bmap(inum: nat, bn: nat) returns (r: Option<nat>)
      requires Own() && inum < |disk.inodes| && bn < MAXFILE
      modifies `disk, `owner, `logged
      ensures Own()
      ensures r.None? ==> forall b: nat | b < g.size :: Used(g, disk, b)
      ensures r.Some? ==> Mapped(old(disk), disk, inum, bn) && r.value == Addr(disk, inum, bn)
      ensures r.Some? && Addr(old(disk), inum, bn) == 0 ==> r.value !in old(owner)
      ensures Addr(old(disk), inum, bn) != 0 ==>
        r.Some? && disk == old(disk) && owner == old(owner) && logged == old(logged)
      ensures r.Some? ==> logged <= old(logged) + {r.value} + Tables(disk, inum) + MapBlocks(g)
    {
      if bn < NDIRECT {
        r := DirectBlock(inum, bn);
      } else {
        r := ListedBlock(inum, bn);
      }
    }

    /** The second half of itrunc: free what the indirect block lists, then the block itself. */
    method FreeIndirect(inum: nat, ghost d: Disk)
      requires Owned(g, d, owner) && Freeing(g, d, disk, owner, inum, NDIRECT, NDIRECT) && TableOf(d, inum) != 0
      modifies `disk, `logged
      ensures Emptied(g, d, disk, owner, inum)
    {
      hide Used;
      var t := disk.inodes[inum].addrs[NDIRECT];
      assert t == TableOf(d, inum);
      assert TableOwned(d, owner, inum) && PlaceOk(g, d, owner, t) && SameBlock(d, disk, t) && BlockOk(d, t);
      var a := disk.blocks[t];
      var j := 0;
      while j < NINDIRECT
        invariant j <= NINDIRECT && Freeing(g, d, disk, owner, inum, NDIRECT + j, NDIRECT)
      {
        ghost var d1 := disk;
        var b := Word(a, j);
        assert b == Addr(d, inum, NDIRECT + j);
        if b != 0 {
          NextIsUsed(g, d, disk, owner, inum, NDIRECT + j, NDIRECT);
          Bfree(b);
        }
        FreeingOne(g, d, d1, disk, owner, inum, NDIRECT + j, NDIRECT);
        j := j + 1;
      }
      TableIsUsed(g, d, disk, owner, inum);
      TableFreed(g, d, disk, owner, inum);
      Bfree(t);
      disk := WithAddr(disk, inum, NDIRECT, 0);
    }

    /** Discard the contents of file inum: exactly its blocks become free. */
    method Itrunc(inum: nat)
      requires Valid() && inum < |disk.inodes|
      modifies `disk, `dinodes, `owner, `logged
      ensures Valid() && owner == Without(old(owner), inum)
      ensures Truncated(g, old(disk), disk, old(owner), inum)
      ensures Contents(disk, inum) == [] && forall i: nat | i != inum :: Contents(disk, i) == Contents(old(disk), i)
    {
      hide Used;
      ghost var d := disk;
      FreeingStart(g, d, owner, inum);
      var i := 0;
      while i < NDIRECT
        invariant i <= NDIRECT && owner == old(owner) && dinodes == old(dinodes)
        invariant Freeing(g, d, disk, owner, inum, i, i)
      {
        var addr := disk.inodes[inum].addrs[i];
        assert addr == Addr(d, inum, i);
        ghost var d1 := disk;
        if addr != 0 {
          NextIsUsed(g, d, disk, owner, inum, i, i);
          Bfree(addr);
          FreeingOne(g, d, d1, disk, owner, inum, i, i);
          FreeingClear(g, d, disk, owner, inum, i + 1, i);
          disk := WithAddr(disk, inum, i, 0);
        } else {
          FreeingOne(g, d, d1, disk, owner, inum, i, i);
          SkipClear(g, d, disk, owner, inum, i + 1, i);
        }
        i := i + 1;
      }
      if disk.inodes[inum].addrs[NDIRECT] != 0 {
        FreeIndirect(inum, d);
      } else {
        NoTable(g, d, disk, owner, inum);
      }
      EmptiedTruncates(g, d, disk, owner, inum);
      disk := disk.(inodes := disk.inodes[inum := disk.inodes[inum].(size := 0)]);
      TruncatedOwned(g, d, disk, owner, inum);
      TruncatedFiles(g, d, disk, owner, inum);
      owner := Without(owner, inum);
      Iupdate(inum);
    }

    /** The next piece of a read: from o on, up to the end of the block, at most left bytes. */
    method ReadPiece(inum: nat, o: nat, left: nat) returns (bytes: seq<Byte>)
      requires Own() && inum < |disk.inodes| && Whole(disk, inum) && 0 < left && o + left <= SizeOf(disk, inum)
      modifies `disk, `owner, `logged
      ensures disk == old(disk) && owner == old(owner) && logged == old(logged)
      ensures 0 < |bytes| <= left && bytes == Contents(disk, inum)[o..o + |bytes|]
    {
      hide Used, Addr, Owned, Mapped;
      assert Addr(disk, inum, o / BSIZE) != 0;
      var b := Bmap(inum, o / BSIZE);
      ReadableBlock(g, disk, owner, inum, o / BSIZE);
      var m := Min(left, BSIZE - o % BSIZE);
      ReadChunk(disk, inum, o, m);
      bytes := disk.blocks[b.value][o % BSIZE..o % BSIZE + m];
    }

    /** Read n bytes of file inum from off on, to memory that has room for so many bytes:
        nothing if off lies beyond the end or off + n wraps around, else what there is of
        them, and -1 if the memory runs out on the way. */
    method Readi(inum: nat, off: Uint, n: Uint, room: nat) returns (r: int, out: seq<Byte>)
      requires Own() && inum < |disk.inodes| && Whole(disk, inum)
      modifies `disk, `owner, `logged
      ensures disk == old(disk) && owner == old(owner) && logged == old(logged)
      ensures var c := Contents(disk, inum);
              if off > |c| || off + n >= 0x1_0000_0000 then r == 0 && out == []
              else
                var m := Min(n, |c| - off);
                && (if m <= room then r == m && |out| == m else r == -1 && |out| <= room)
                && |out| <= m && forall k | 0 <= k < |out| :: out[k] == c[off + k]
    {
      hide Used, Addr, Owned, ByteAt, Whole;
      out := [];
      var size := disk.inodes[inum].size;
      if off > size || Add32(off, n) < off { return 0, []; }
      var wanted: nat := n;
      if off + wanted > size { wanted := size - off; }
      ghost var c := Contents(disk, inum);
      var tot: nat := 0;
      while tot < wanted
        invariant tot <= wanted && tot <= room && out == c[off..off + tot]
        invariant disk == old(disk) && owner == old(owner) && logged == old(logged)
      {
        var bytes := ReadPiece(inum, off + tot, wanted - tot);
        if tot + |bytes| > room { return -1, out; }
        assert c[off..off + tot + |bytes|] == c[off..off + tot] + c[off + tot..off + tot + |bytes|];
        out := out + bytes;
        tot := tot + |bytes|;
      }
      return tot, out;
    }

    /** The next piece of a write: from o on, up to the end of the block, at most left
        bytes, out of memory that holds only the bytes src. ok is false if those run out. */
    method WritePiece(inum: nat, o: nat, left: nat, src: seq<Byte>) returns (m: nat, r: Option<bool>)
      requires Own() && inum < |disk.inodes| && 0 < left && o + left <= MAXFILE * BSIZE
      modifies `disk, `owner, `logged
      ensures Own() && 0 < m <= left && m == Min(left, BSIZE - o % BSIZE)
      ensures r.None? ==> forall b: nat | b < g.size :: Used(g, disk, b)
      ensures r.Some? ==> r.value == (m <= |src|)
      ensures r.Some? ==> Writing(old(disk), disk, inum, o, if r.value then src[..m] else src, m)
      ensures r.Some? ==> logged <= old(logged) + {Addr(disk, inum, o / BSIZE)} + Tables(disk, inum) + MapBlocks(g)
    {
      hide Used, Addr, Owned, Mapped, Writing, TableOf;
      m := Min(left, BSIZE - o % BSIZE);
      var b := Bmap(inum, o / BSIZE);
      if b.None? { return m, None; }
      var bytes := if m <= |src| then src[..m] else src;
      PieceWritten(g, old(disk), disk, owner, inum, o, bytes, m);
      disk := WithBlock(disk, b.value, PutBytes(disk.blocks[b.value], o % BSIZE, bytes));
      if |src| < m { return m, Some(false); }
      logged := logged + {b.value};
      return m, Some(true);
    }

    /** writei's loop: it stops early, with ok false, when src runs out. */
    method WriteLoop(inum: nat, off: nat, n: nat, src: seq<Byte>) returns (tot: nat, r: Option<bool>)
      requires Own() && inum < |disk.inodes| && |src| <= n && off + n <= MAXFILE * BSIZE
      modifies `disk, `owner, `logged
      ensures Own()
      ensures r.None? ==> forall b: nat | b < g.size :: Used(g, disk, b)
      ensures r.Some? ==> r.value == (|src| == n) && tot <= |src| && (r.value ==> tot == n)
      ensures r.Some? ==> Writing(old(disk), disk, inum, off, src, tot)
      ensures n == 0 ==> r.Some? && disk == old(disk) && owner == old(owner)
      ensures r.Some? ==> logged <= old(logged) + DataSet(g, disk, inum, off, n)
    {
      hide Used, Addr, Owned, Writing, DataSet, Tables, MapBlocks, TableOf;
      ghost var d := disk;
      tot := 0;
      WritingNothing(d, inum, off);
      while tot < n
        invariant tot <= n && tot <= |src| && Own() && inum < |disk.inodes|
        invariant Writing(d, disk, inum, off, src[..tot], tot)
        invariant tot == 0 ==> disk == old(disk) && owner == old(owner)
        invariant logged <= old(logged) + DataSet(g, disk, inum, off, tot)
      {
        ghost var d1 := disk;
        var m, ok := WritePiece(inum, off + tot, n - tot, src[tot..]);
        if ok.None? { return tot, None; }
        ghost var bytes := if ok.value then src[tot..][..m] else src[tot..];
        PieceDone(g, d, d1, disk, inum, off, src[..tot], tot, bytes, m);
        if !ok.value {
          assert src[..tot] + bytes == src;
          DataSetGrows(g, disk, inum, off, tot + m, n);
          WritingLess(d, disk, inum, off, src, tot, tot + m);
          return tot, Some(false);
        }
        assert src[..tot] + bytes == src[..tot + m];
        WritingSize(d, disk, inum, off, src[..tot + m], tot + m);
        tot := tot + m;
      }
      assert src[..tot] == src;
      return tot, Some(true);
    }

    /** Write n bytes to file inum from off on, out of memory that holds only the bytes
        src. -1 if off lies beyond the end, the file would become too long, or src runs
        out. None when the disk is full, where the kernel panics. */
    method Writei(inum: nat, off: Uint, n: Uint, src: seq<Byte>) returns (r: Option<int>)
      requires Valid() && inum < |disk.inodes| && |src| <= n
      modifies `disk, `dinodes, `owner, `logged
      ensures r.None? ==> Own() && forall b: nat | b < g.size :: Used(g, disk, b)
      ensures r.Some? ==> Valid() && |disk.inodes| == |old(disk.inodes)|
      ensures r.Some? ==> forall i: nat | i != inum :: Contents(disk, i) == Contents(old(disk), i)
      ensures r.Some? ==>
                var c, c' := Contents(old(disk), inum), Contents(disk, inum);
                if off > |c| || off + n > MAXFILE * BSIZE then r.value == -1 && disk == old(disk)
                  && logged == old(logged)
                else if |src| == n then r.value == n && c' == Patched(c, off, src)
                else r.value == -1 && |c| <= |c'| && c' <= Patched(c, off, src)
      ensures r.Some? ==> logged <= old(logged) + WriteSet(g, disk, inum, off, n, inodestart)
    {
      hide Used, Addr, Owned, Writing, DataSet, Whole, ByteAt;
      var size := disk.inodes[inum].size;
      if off > size || Add32(off, n) < off { return Some(-1); }
      if Add32(off, n) > MAXFILE * BSIZE { return Some(-1); }
      ghost var d := disk;
      var tot, ok := WriteLoop(inum, off, n, src);
      if ok.None? { return None; }
      WritingSize(d, disk, inum, off, src, tot);
      if n > 0 {
        var size' := Max(size, off + tot);
        WriteDone(g, d, disk, owner, inum, off, src, tot, size', n);
        disk := Resized(disk, inum, size');
        Iupdate(inum);
      } else {
        assert Patched(Contents(d, inum), off, src) == Contents(d, inum);
      }
      return Some(if ok.value then n else -1);
    }

    /** A read behind a write of n bytes that succeeded gives them back, also when it asks
        for more than is there. */
    method WriteThenRead(inum: nat, off: Uint, src: seq<Byte>, m: Uint) returns (w: Option<int>, out: seq<Byte>)
      requires Valid() && inum < |disk.inodes| && |src| <= m && off + m < 0x1_0000_0000
      modifies `disk, `dinodes, `owner, `logged
      ensures w.Some? && w.value >= 0 ==> w.value == |src| && |out| >= |src| && out[..|src|] == src
      ensures w.Some? && w.value >= 0 && off + |src| >= |Contents(old(disk), inum)| ==> out == src
      ensures w.Some? && off <= |Contents(old(disk), inum)| && off + |src| <= MAXFILE * BSIZE ==> w.value >= 0
    {
      hide Used, Addr, Owned, ByteAt, Whole, Contents, WriteSet;
      out := [];
      w := Writei(inum, off, |src|, src);
      if w.Some? && w.value >= 0 {
        assert Whole(disk, inum);
        var r, bytes := Readi(inum, off, m, m);
        out := bytes;
      }
    }

    /** filewrite on a file: n bytes, in operations of at most CHUNK bytes each, from the
        file offset off on, out of memory that holds only the bytes src. */
    method Filewrite(inum: nat, off: nat, n: int, src: seq<Byte>) returns (ret: Option<int>, off': nat)
      requires Valid() && inum < |disk.inodes| && n < 0x8000_0000 && |src| <= Max0(n) && off < 0x1_0000_0000
      modifies `disk, `dinodes, `owner, `logged, `ops
      ensures ret.None? ==> Own() && forall b: nat | b < g.size :: Used(g, disk, b)
      ensures ret.Some? ==> Valid() && |disk.inodes| == |old(disk.inodes)|
      ensures ret.Some? ==> forall i: nat | i != inum :: Contents(disk, i) == Contents(old(disk), i)
      ensures ret.Some? ==>
                var c, c' := Contents(old(disk), inum), Contents(disk, inum);
                if n <= 0 then ret.value == (if n == 0 then 0 else -1) && disk == old(disk)
                else if off <= |c| && off + n <= MAXFILE * BSIZE && |src| == n then ret.value == n
                  && c' == Patched(c, off, src) && off' == off + n
                else ret.value == -1 && exists t: nat :: CutShort(c, c', off, src, t)
      ensures ret.Some? ==> old(ops) <= ops && WithinBudget(g, ops[|old(ops)|..])
    {
      hide Used, Addr, Owned, DataSet, ByteAt, Contents, Patched, Progress, CutShort, WriteSet, WithinBudget;
      NoOps(g);
      assert ops[|old(ops)|..] == [];
      ghost var d, c := disk, Contents(disk, inum);
      var i := 0;
      off' := off;
      ProgressStart(c, off, src);
      while i < n
        invariant 0 <= i <= Max0(n) && Valid() && |disk.inodes| == |d.inodes| && off' == off + i && i <= |src|
        invariant forall k: nat | k != inum :: Contents(disk, k) == Contents(d, k)
        invariant i == 0 ==> disk == d
        invariant i > 0 ==> off <= |c| && off + i <= MAXFILE * BSIZE
        invariant Progress(c, Contents(disk, inum), off, src, i)
        invariant old(ops) <= ops && WithinBudget(g, ops[|old(ops)|..])
      {
        var n1 := Min(n - i, CHUNK);
        logged := {};
        var part := src[i..Min(i + n1, |src|)];
        ghost var c1 := Contents(disk, inum);
        var r := Writei(inum, off', n1, part);
        if r.None? { return None, off'; }
        ghost var c2 := Contents(disk, inum);
        WriteBudget(g, disk, inum, off', n1, inodestart, logged);
        OneMoreOp(g, ops, |old(ops)|, logged);
        ops := ops + [logged];
        if r.value < 0 {
          ChunkFailed(c, c1, c2, off, src, i, n1, part);
          ProgressEnd(c, c1, off, src, i);
          return Some(-1), off';
        }
        ChunkDone(c, c1, off, src, i, n1, part);
        ProgressMore(c, c2, off, src, i + n1);
        off' := off' + r.value;
        i := i + r.value;
      }
      ProgressEnd(c, Contents(disk, inum), off, src, i);
      ret := Some(if i == n then n else -1);
    }

    /** Store the inode on disk. */
    method Iupdate(inum: nat)
      requires inum < |disk.inodes| && |dinodes| == |disk.inodes|
      modifies `dinodes, `logged
      ensures dinodes == old(dinodes)[inum := disk.inodes[inum]]
      ensures logged == old(logged) + {InodeBlock(inodestart, inum)}
    {
      dinodes := dinodes[inum := disk.inodes[inum]];
      logged := logged + {InodeBlock(inodestart, inum)};
    }
  }

  lemma InGroup(b: nat, bi: nat)
    requires b % BPB == 0 && bi < BPB
    ensures (b + bi) / BPB == b / BPB && (b + bi) % BPB == bi
  {
  }

  lemma ReadableBlock(g: Layout, d: Disk, owner: map<nat, Place>, inum: nat, bn: nat)
    requires Owned(g, d, owner) && Addr(d, inum, bn) != 0
    ensures 0 < Addr(d, inum, bn) < |d.blocks| && |d.blocks[Addr(d, inum, bn)]| == BSIZE
  {
    OnePlace(g, d, owner, inum, bn, inum, bn);
    assert BlockOk(d, Addr(d, inum, bn));
  }

  /** A piece of one block is a piece of the file. */
  lemma ReadChunk(d: Disk, inum: nat, o: nat, m: nat)
    requires var b := Addr(d, inum, o / BSIZE); 0 < b < |d.blocks| && |d.blocks[b]| == BSIZE
    requires o % BSIZE + m <= BSIZE && o + m <= SizeOf(d, inum)
    ensures d.blocks[Addr(d, inum, o / BSIZE)][o % BSIZE..o % BSIZE + m] == Contents(d, inum)[o..o + m]
  {
    hide Addr;
    var b := Addr(d, inum, o / BSIZE);
    var s, t := d.blocks[b][o % BSIZE..o % BSIZE + m], Contents(d, inum)[o..o + m];
    forall k: nat | k < m ensures s[k] == t[k] {
      WithinBlock(o, m, o + k);
      assert t[k] == ByteAt(d, inum, o + k);
    }
  }
}

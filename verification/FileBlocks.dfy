/** The blocks of files (kernel/fs.c): the free map, each inode's direct blocks, its
    indirect block and the blocks that lists, and who owns every block. */
module FileBlocks {
  import opened BlockBytes

  const NDIRECT: nat := 12
  const MAXFILE: nat := 268

  /** From the super block: the file system's size in blocks, the first block of the
      free map, and the first data block, which follows the free map. */
  datatype Layout = Layout(size: nat, bmapstart: nat, data: nat)

  /** addrs[..NDIRECT] are data blocks, addrs[NDIRECT] is the indirect block; 0 is none. */
  datatype Inode = Inode(addrs: seq<nat>, size: nat)

  /** What bread returns for every block, and the inodes. */
  datatype Disk = Disk(blocks: seq<seq<Byte>>, inodes: seq<Inode>)

  /** The one place that a block in use belongs to. */
  datatype Place = Data(inum: nat, bn: nat) | Table(inum: nat)

  predicate LayoutOk(g: Layout) {
    && 0 < g.bmapstart && g.bmapstart + g.size / BPB + 1 <= g.data
    && g.data <= g.size < 0x1_0000_0000
  }

  predicate BlockOk(d: Disk, b: nat)
    requires b < |d.blocks|
  {
    |d.blocks[b]| == BSIZE
  }

  predicate InodeOk(d: Disk, inum: nat)
    requires inum < |d.inodes|
  {
    |d.inodes[inum].addrs| == NDIRECT + 1
  }

  predicate Shape(g: Layout, d: Disk) {
    && LayoutOk(g) && |d.blocks| == g.size
    && (forall b: nat | b < g.size :: BlockOk(d, b))
    && (forall inum: nat | inum < |d.inodes| :: InodeOk(d, inum))
  }

  // ---- The free map ----

  predicate BitAt(block: seq<Byte>, bi: nat)
    requires |block| == BSIZE && bi < BPB
  {
    Bit(block[bi / 8], bi % 8)
  }

  function WithBitAt(block: seq<Byte>, bi: nat, v: bool): (r: seq<Byte>)
    requires |block| == BSIZE && bi < BPB
    ensures |r| == BSIZE
  {
    block[bi / 8 := WithBit(block[bi / 8], bi % 8, v)]
  }

  lemma BitAtStored(block: seq<Byte>, bi: nat, v: bool, bj: nat)
    requires |block| == BSIZE && bi < BPB && bj < BPB
    ensures BitAt(WithBitAt(block, bi, v), bj) == if bj == bi then v else BitAt(block, bj)
  {
    BitStored(block[bi / 8], bi % 8, v, bj % 8);
    assert bi / 8 == bj / 8 && bi % 8 == bj % 8 ==> bi == bj;
  }

  /** BBLOCK(b, sb) */
  function MapBlock(g: Layout, b: nat): nat {
    b / BPB + g.bmapstart
  }

  lemma MapBlockBound(g: Layout, b: nat)
    requires LayoutOk(g) && b < g.size
    ensures 0 < g.bmapstart <= MapBlock(g, b) < g.data <= g.size
  {
    assert b / BPB <= g.size / BPB;
  }

  /** The free map says that block b is in use. */
  predicate Used(g: Layout, d: Disk, b: nat)
    requires Shape(g, d) && b < g.size
  {
    MapBlockBound(g, b);
    assert BlockOk(d, MapBlock(g, b));
    BitAt(d.blocks[MapBlock(g, b)], b % BPB)
  }

  /** The disk after the bit of block b is set to v. */
  function Marked(g: Layout, d: Disk, b: nat, v: bool): Disk
    requires Shape(g, d) && b < g.size
  {
    MapBlockBound(g, b);
    assert BlockOk(d, MapBlock(g, b));
    d.(blocks := d.blocks[MapBlock(g, b) := WithBitAt(d.blocks[MapBlock(g, b)], b % BPB, v)])
  }

  lemma MarkedShape(g: Layout, d: Disk, b: nat, v: bool)
    requires Shape(g, d) && b < g.size
    ensures Shape(g, Marked(g, d, b, v))
  {
    var d' := Marked(g, d, b, v);
    MapBlockBound(g, b);
    forall x: nat | x < g.size ensures BlockOk(d', x) { assert BlockOk(d, x); }
    forall i: nat | i < |d'.inodes| ensures InodeOk(d', i) { assert InodeOk(d, i); }
  }

  lemma MarkedUsed(g: Layout, d: Disk, b: nat, v: bool, x: nat)
    requires Shape(g, d) && b < g.size && x < g.size
    ensures Shape(g, Marked(g, d, b, v))
    ensures Used(g, Marked(g, d, b, v), x) == if x == b then v else Used(g, d, x)
  {
    MarkedShape(g, d, b, v);
    MapBlockBound(g, b);
    MapBlockBound(g, x);
    assert BlockOk(d, MapBlock(g, b)) && BlockOk(d, MapBlock(g, x));
    BitAtStored(d.blocks[MapBlock(g, b)], b % BPB, v, x % BPB);
    assert b / BPB == x / BPB && b % BPB == x % BPB ==> b == x;
  }

  // ---- Files as lists of blocks ----

  /** The block that holds the nth block of the file, or 0. */
  function Addr(d: Disk, inum: nat, bn: nat): nat {
    if inum >= |d.inodes| || |d.inodes[inum].addrs| != NDIRECT + 1 then 0
    else if bn < NDIRECT then d.inodes[inum].addrs[bn]
    else TableEntry(d, d.inodes[inum].addrs[NDIRECT], bn - NDIRECT)
  }

  function TableOf(d: Disk, inum: nat): nat {
    if inum < |d.inodes| && |d.inodes[inum].addrs| == NDIRECT + 1 then d.inodes[inum].addrs[NDIRECT] else 0
  }

  function TableEntry(d: Disk, t: nat, j: nat): nat {
    if 0 < t < |d.blocks| && |d.blocks[t]| == BSIZE && j < NINDIRECT then Word(d.blocks[t], j) else 0
  }

  // ---- Ownership ----

  ghost predicate Owns(owner: map<nat, Place>, b: nat, place: Place) {
    b in owner && owner[b] == place
  }

  ghost predicate AddrOwned(d: Disk, owner: map<nat, Place>, inum: nat, bn: nat) {
    Addr(d, inum, bn) != 0 ==> Owns(owner, Addr(d, inum, bn), Data(inum, bn))
  }

  ghost predicate TableOwned(d: Disk, owner: map<nat, Place>, inum: nat) {
    TableOf(d, inum) != 0 ==> Owns(owner, TableOf(d, inum), Table(inum))
  }

  /** The place that owns b does point to b. */
  ghost predicate PlaceOk(g: Layout, d: Disk, owner: map<nat, Place>, b: nat) {
    b in owner ==>
      && g.data <= b < g.size
      && match owner[b]
         case Data(inum, bn) => inum < |d.inodes| && bn < MAXFILE && Addr(d, inum, bn) == b
         case Table(inum) => inum < |d.inodes| && TableOf(d, inum) == b
  }

  /** Exactly the blocks before the data blocks and the owned blocks are marked in the free map. */
  ghost predicate BitOk(g: Layout, d: Disk, owner: map<nat, Place>, b: nat)
    requires Shape(g, d) && b < g.size
  {
    Used(g, d, b) <==> b < g.data || b in owner
  }

  ghost predicate Owned(g: Layout, d: Disk, owner: map<nat, Place>) {
    && Shape(g, d)
    && (forall inum: nat, bn: nat :: AddrOwned(d, owner, inum, bn))
    && (forall inum: nat :: TableOwned(d, owner, inum))
    && (forall b: nat :: PlaceOk(g, d, owner, b))
    && (forall b: nat | b < g.size :: BitOk(g, d, owner, b))
  }

  /** Each block belongs to at most one place of one file. */
  lemma OnePlace(g: Layout, d: Disk, owner: map<nat, Place>, i: nat, k: nat, i': nat, k': nat)
    requires Owned(g, d, owner) && Addr(d, i, k) != 0
    ensures Addr(d, i, k) == Addr(d, i', k') ==> i == i' && k == k'
    ensures Addr(d, i, k) != TableOf(d, i')
    ensures g.data <= Addr(d, i, k) < g.size && Used(g, d, Addr(d, i, k))
    ensures TableOf(d, i) != 0 && TableOf(d, i) == TableOf(d, i') ==> i == i'
  {
    var b := Addr(d, i, k);
    assert AddrOwned(d, owner, i, k) && AddrOwned(d, owner, i', k') && TableOwned(d, owner, i')
      && TableOwned(d, owner, i);
    assert PlaceOk(g, d, owner, b) && BitOk(g, d, owner, b);
  }

  // ---- A block is given to a place ----

  ghost predicate SameBlock(d: Disk, d': Disk, x: nat) {
    x < |d.blocks| && x < |d'.blocks| && d'.blocks[x] == d.blocks[x]
  }

  /** d1 is d after balloc has marked block b, which was free, and zeroed it. */
  ghost predicate Taken(g: Layout, d: Disk, d1: Disk, b: nat) {
    && Shape(g, d) && Shape(g, d1) && g.data <= b < g.size && d1.inodes == d.inodes
    && !Used(g, d, b) && d1.blocks[b] == Zeros()
    && (forall x: nat | g.data <= x < g.size && x != b :: SameBlock(d, d1, x))
    && (forall x: nat | x < g.size :: Used(g, d1, x) == (x == b || Used(g, d, x)))
  }

  /** Where the files' blocks are in d', given where they are in d, when b is put at the place. */
  ghost predicate AddrGrew(d: Disk, d': Disk, place: Place, b: nat, i: nat, k: nat) {
    Addr(d', i, k) == if place == Data(i, k) then b else Addr(d, i, k)
  }

  ghost predicate TableGrew(d: Disk, d': Disk, place: Place, b: nat, i: nat) {
    TableOf(d', i) == if place == Table(i) then b else TableOf(d, i)
  }

  ghost predicate Vacant(d: Disk, place: Place) {
    match place
    case Data(i, k) => i < |d.inodes| && k < MAXFILE && Addr(d, i, k) == 0
    case Table(i) => i < |d.inodes| && TableOf(d, i) == 0
  }

  ghost predicate Grew(g: Layout, d: Disk, d': Disk, place: Place, b: nat) {
    && Shape(g, d) && Shape(g, d') && g.data <= b < g.size && |d'.inodes| == |d.inodes| && Vacant(d, place)
    && (forall i: nat, k: nat :: AddrGrew(d, d', place, b, i, k))
    && (forall i: nat :: TableGrew(d, d', place, b, i))
    && (forall x: nat | x < g.size :: Used(g, d', x) == (x == b || Used(g, d, x)))
    && !Used(g, d, b)
  }

  lemma FreeIsUnowned(g: Layout, d: Disk, owner: map<nat, Place>, b: nat)
    requires Owned(g, d, owner) && b < g.size && !Used(g, d, b)
    ensures b !in owner && b >= g.data
  {
    assert BitOk(g, d, owner, b);
  }

  lemma GrewOwned(g: Layout, d: Disk, d': Disk, owner: map<nat, Place>, place: Place, b: nat)
    requires Owned(g, d, owner) && Grew(g, d, d', place, b)
    ensures b !in owner && Owned(g, d', owner[b := place])
  {
    hide Addr, TableOf, Used;
    FreeIsUnowned(g, d, owner, b);
    var owner' := owner[b := place];
    forall i: nat, k: nat ensures AddrOwned(d', owner', i, k) {
      assert AddrOwned(d, owner, i, k) && AddrGrew(d, d', place, b, i, k);
    }
    forall i: nat ensures TableOwned(d', owner', i) {
      assert TableOwned(d, owner, i) && TableGrew(d, d', place, b, i);
    }
    forall x: nat ensures PlaceOk(g, d', owner', x) {
      assert PlaceOk(g, d, owner, x);
      if x in owner' {
        match owner'[x]
        case Data(i, k) => assert AddrGrew(d, d', place, b, i, k);
        case Table(i) => assert TableGrew(d, d', place, b, i);
      }
    }
    forall x: nat | x < g.size ensures BitOk(g, d', owner', x) {
      assert BitOk(g, d, owner, x);
    }
  }

  function WithAddr(d: Disk, inum: nat, slot: nat, b: nat): Disk
    requires inum < |d.inodes| && slot < |d.inodes[inum].addrs|
  {
    d.(inodes := d.inodes[inum := d.inodes[inum].(addrs := d.inodes[inum].addrs[slot := b])])
  }

  lemma WithAddrShape(g: Layout, d: Disk, inum: nat, slot: nat, b: nat)
    requires Shape(g, d) && inum < |d.inodes| && slot <= NDIRECT && InodeOk(d, inum)
    ensures var d' := WithAddr(d, inum, slot, b);
      Shape(g, d') && forall x: nat | x < g.size :: Used(g, d', x) == Used(g, d, x)
  {
    var d' := WithAddr(d, inum, slot, b);
    forall x: nat | x < g.size ensures BlockOk(d', x) { assert BlockOk(d, x); }
    forall i: nat | i < |d'.inodes| ensures InodeOk(d', i) { assert InodeOk(d, i); }
  }

  /** Only the tables that inodes point to matter for where blocks are. */
  lemma TakenAddr(g: Layout, d: Disk, d1: Disk, owner: map<nat, Place>, b: nat, i: nat, k: nat)
    requires Owned(g, d, owner) && Taken(g, d, d1, b)
    ensures Addr(d1, i, k) == Addr(d, i, k) && TableOf(d1, i) == TableOf(d, i)
  {
    hide Used;
    FreeIsUnowned(g, d, owner, b);
    var t := TableOf(d, i);
    assert TableOwned(d, owner, i) && PlaceOk(g, d, owner, t);
    if t != 0 { assert SameBlock(d, d1, t); }
  }

  /** bmap's direct case. */
  lemma GrowDirect(g: Layout, d: Disk, d1: Disk, owner: map<nat, Place>, inum: nat, bn: nat, b: nat)
    requires Owned(g, d, owner) && Taken(g, d, d1, b)
    requires inum < |d.inodes| && InodeOk(d, inum) && bn < NDIRECT && d.inodes[inum].addrs[bn] == 0
    ensures Grew(g, d, WithAddr(d1, inum, bn, b), Data(inum, bn), b)
  {
    var d' := WithAddr(d1, inum, bn, b);
    WithAddrShape(g, d1, inum, bn, b);
    forall i: nat, k: nat ensures AddrGrew(d, d', Data(inum, bn), b, i, k) {
      TakenAddr(g, d, d1, owner, b, i, k);
    }
    forall i: nat ensures TableGrew(d, d', Data(inum, bn), b, i) {
      TakenAddr(g, d, d1, owner, b, i, 0);
    }
  }

  /** bmap allocates the indirect block: it lists nothing yet. */
  lemma GrowTable(g: Layout, d: Disk, d1: Disk, owner: map<nat, Place>, inum: nat, b: nat)
    requires Owned(g, d, owner) && Taken(g, d, d1, b)
    requires inum < |d.inodes| && InodeOk(d, inum) && d.inodes[inum].addrs[NDIRECT] == 0
    ensures Grew(g, d, WithAddr(d1, inum, NDIRECT, b), Table(inum), b)
  {
    var d' := WithAddr(d1, inum, NDIRECT, b);
    WithAddrShape(g, d1, inum, NDIRECT, b);
    forall i: nat, k: nat ensures AddrGrew(d, d', Table(inum), b, i, k) {
      TakenAddr(g, d, d1, owner, b, i, k);
      if NDIRECT <= k < MAXFILE { ZeroWord(k - NDIRECT); }
    }
    forall i: nat ensures TableGrew(d, d', Table(inum), b, i) {
      TakenAddr(g, d, d1, owner, b, i, 0);
    }
  }

  /** Storing into the indirect block t of one file. */
  function WithEntry(d: Disk, t: nat, j: nat, b: Uint): Disk
    requires t < |d.blocks| && |d.blocks[t]| == BSIZE && j < NINDIRECT
  {
    d.(blocks := d.blocks[t := WithWord(d.blocks[t], j, b)])
  }

  lemma WithBlockShape(g: Layout, d: Disk, t: nat, block: seq<Byte>)
    requires Shape(g, d) && g.data <= t < g.size && |block| == BSIZE
    ensures var d' := d.(blocks := d.blocks[t := block]);
      Shape(g, d') && forall x: nat | x < g.size :: Used(g, d', x) == Used(g, d, x)
  {
    var d' := d.(blocks := d.blocks[t := block]);
    forall x: nat | x < g.size ensures BlockOk(d', x) { assert BlockOk(d, x); }
    forall i: nat | i < |d'.inodes| ensures InodeOk(d', i) { assert InodeOk(d, i); }
    forall x: nat | x < g.size ensures Used(g, d', x) == Used(g, d, x) { MapBlockBound(g, x); }
  }

  /** bmap's indirect case, once the file has an indirect block. */
  lemma GrowIndirect(g: Layout, d: Disk, d1: Disk, owner: map<nat, Place>, inum: nat, j: nat, b: nat)
    requires Owned(g, d, owner) && Taken(g, d, d1, b)
    requires inum < |d.inodes| && j < NINDIRECT && TableOf(d, inum) != 0 && Addr(d, inum, NDIRECT + j) == 0
    ensures var t := TableOf(d, inum); t < |d1.blocks| && |d1.blocks[t]| == BSIZE && t != b && b < 0x1_0000_0000
    ensures Grew(g, d, WithEntry(d1, TableOf(d, inum), j, b), Data(inum, NDIRECT + j), b)
  {
    hide Used;
    var t := TableOf(d, inum);
    FreeIsUnowned(g, d, owner, b);
    assert TableOwned(d, owner, inum) && PlaceOk(g, d, owner, t) && BlockOk(d1, t);
    var d', place := WithEntry(d1, t, j, b), Data(inum, NDIRECT + j);
    WithBlockShape(g, d1, t, WithWord(d1.blocks[t], j, b));
    forall i: nat, k: nat ensures AddrGrew(d, d', place, b, i, k) {
      TakenAddr(g, d, d1, owner, b, i, k);
      assert TableOwned(d, owner, i) && InodeOk(d, inum);
      if NDIRECT <= k < MAXFILE { WordStored(d1.blocks[t], j, b, k - NDIRECT); }
    }
    forall i: nat ensures TableGrew(d, d', place, b, i) {
      TakenAddr(g, d, d1, owner, b, i, 0);
    }
  }

  // ---- The bytes of files ----

  /** Byte k of the file, whatever its size; a block that is missing reads as zeros. */
  function ByteAt(d: Disk, inum: nat, k: nat): Byte {
    var b := Addr(d, inum, k / BSIZE);
    if 0 < b < |d.blocks| && |d.blocks[b]| == BSIZE then d.blocks[b][k % BSIZE] else 0
  }

  function SizeOf(d: Disk, inum: nat): nat {
    if inum < |d.inodes| then d.inodes[inum].size else 0
  }

  /** The file as a sequence of bytes. */
  function Contents(d: Disk, inum: nat): (c: seq<Byte>) {
    seq(SizeOf(d, inum), k requires k >= 0 => ByteAt(d, inum, k))
  }

  /** Every block below the file's size is there. */
  ghost predicate Whole(d: Disk, inum: nat) {
    && SizeOf(d, inum) <= MAXFILE * BSIZE
    && (forall k: nat | k < SizeOf(d, inum) :: Addr(d, inum, k / BSIZE) != 0)
  }

  ghost predicate ByteSame(d: Disk, d': Disk, i: nat, k: nat) {
    ByteAt(d', i, k) == ByteAt(d, i, k)
  }

  /** A data block b that was given to a file holds zeros: no file's bytes change. */
  lemma GrewBytes(g: Layout, d: Disk, d': Disk, owner: map<nat, Place>, place: Place, b: nat, i: nat, k: nat)
    requires Owned(g, d, owner) && Grew(g, d, d', place, b)
    requires place.Data? ==> d'.blocks[b] == Zeros()
    requires forall x: nat | x in owner && owner[x].Data? :: SameBlock(d, d', x)
    ensures ByteSame(d, d', i, k)
  {
    hide Used, Addr, TableOf;
    var n := k / BSIZE;
    assert AddrGrew(d, d', place, b, i, n) && AddrOwned(d, owner, i, n) && PlaceOk(g, d, owner, Addr(d, i, n));
    if Addr(d, i, n) != 0 { assert SameBlock(d, d', Addr(d, i, n)); }
  }

  // ---- A data block is written ----

  function PutBytes(block: seq<Byte>, at: nat, bytes: seq<Byte>): (r: seq<Byte>)
    requires |block| == BSIZE && at + |bytes| <= BSIZE
    ensures |r| == BSIZE
  {
    block[..at] + bytes + block[at + |bytes|..]
  }

  function WithBlock(d: Disk, b: nat, block: seq<Byte>): Disk
    requires b < |d.blocks|
  {
    d.(blocks := d.blocks[b := block])
  }

  lemma WithinBlock(o: nat, m: nat, k: nat)
    requires o % BSIZE + m <= BSIZE
    ensures o <= k < o + m ==> k / BSIZE == o / BSIZE && k % BSIZE == o % BSIZE + (k - o)
    ensures k / BSIZE == o / BSIZE ==> k - o == k % BSIZE - o % BSIZE
  {
    assert o == BSIZE * (o / BSIZE) + o % BSIZE && k == BSIZE * (k / BSIZE) + k % BSIZE;
  }

  lemma DataIsNoTable(g: Layout, d: Disk, owner: map<nat, Place>, inum: nat, bn: nat, block: seq<Byte>, i: nat, k: nat)
    requires Owned(g, d, owner) && Addr(d, inum, bn) != 0 && |block| == BSIZE
    ensures g.data <= Addr(d, inum, bn) < g.size == |d.blocks|
    ensures var d' := WithBlock(d, Addr(d, inum, bn), block);
      Addr(d', i, k) == Addr(d, i, k) && TableOf(d', i) == TableOf(d, i)
  {
    OnePlace(g, d, owner, inum, bn, i, k);
  }

  /** Writing a data block leaves the ownership of every block as it is. */
  lemma DataOwned(g: Layout, d: Disk, owner: map<nat, Place>, inum: nat, bn: nat, block: seq<Byte>)
    requires Owned(g, d, owner) && Addr(d, inum, bn) != 0 && |block| == BSIZE
    ensures g.data <= Addr(d, inum, bn) < g.size == |d.blocks|
    ensures Owned(g, WithBlock(d, Addr(d, inum, bn), block), owner)
  {
    hide Addr, TableOf, Used;
    var b := Addr(d, inum, bn);
    DataIsNoTable(g, d, owner, inum, bn, block, inum, bn);
    var d' := WithBlock(d, b, block);
    WithBlockShape(g, d, b, block);
    forall i: nat, k: nat ensures AddrOwned(d', owner, i, k) {
      DataIsNoTable(g, d, owner, inum, bn, block, i, k);
      assert AddrOwned(d, owner, i, k);
    }
    forall i: nat ensures TableOwned(d', owner, i) {
      DataIsNoTable(g, d, owner, inum, bn, block, i, 0);
      assert TableOwned(d, owner, i);
    }
    forall x: nat ensures PlaceOk(g, d', owner, x) {
      assert PlaceOk(g, d, owner, x);
      if x in owner {
        match owner[x]
        case Data(i, k) => DataIsNoTable(g, d, owner, inum, bn, block, i, k);
        case Table(i) => DataIsNoTable(g, d, owner, inum, bn, block, i, 0);
      }
    }
    forall x: nat | x < g.size ensures BitOk(g, d', owner, x) { assert BitOk(g, d, owner, x); }
  }

  /** Writing bytes into one block of a file changes those bytes of that file only. */
  lemma BytesPut(g: Layout, d: Disk, owner: map<nat, Place>, inum: nat, o: nat, bytes: seq<Byte>, i: nat, k: nat)
    requires Owned(g, d, owner) && Addr(d, inum, o / BSIZE) != 0 && o % BSIZE + |bytes| <= BSIZE
    ensures var b := Addr(d, inum, o / BSIZE); b < |d.blocks| && |d.blocks[b]| == BSIZE
    ensures var b := Addr(d, inum, o / BSIZE);
            ByteAt(WithBlock(d, b, PutBytes(d.blocks[b], o % BSIZE, bytes)), i, k) ==
              if i == inum && o <= k < o + |bytes| then bytes[k - o] else ByteAt(d, i, k)
  {
    hide Used, Addr, TableOf;
    var bn := o / BSIZE;
    var b := Addr(d, inum, bn);
    OnePlace(g, d, owner, inum, bn, i, k / BSIZE);
    assert BlockOk(d, b);
    var block := PutBytes(d.blocks[b], o % BSIZE, bytes);
    DataIsNoTable(g, d, owner, inum, bn, block, i, k / BSIZE);
    WithinBlock(o, |bytes|, k);
  }

  // ---- A file loses all its blocks ----

  function Without(owner: map<nat, Place>, inum: nat): map<nat, Place> {
    map x | x in owner && owner[x].inum != inum :: owner[x]
  }

  function Cleared(): (r: Inode)
    ensures |r.addrs| == NDIRECT + 1 && forall k | 0 <= k <= NDIRECT :: r.addrs[k] == 0
  {
    Inode(seq(NDIRECT + 1, k => 0), 0)
  }

  /** d' is d after itrunc on inum: its inode is empty, and exactly the bits of its blocks are cleared. */
  ghost predicate Truncated(g: Layout, d: Disk, d': Disk, owner: map<nat, Place>, inum: nat) {
    && Shape(g, d) && Shape(g, d') && inum < |d.inodes| && d'.inodes == d.inodes[inum := Cleared()]
    && (forall x: nat | g.data <= x < g.size :: SameBlock(d, d', x))
    && (forall x: nat | x < g.size :: Used(g, d', x) == (Used(g, d, x) && !(x in owner && owner[x].inum == inum)))
  }

  lemma TruncatedAddr(g: Layout, d: Disk, d': Disk, owner: map<nat, Place>, inum: nat, i: nat, k: nat)
    requires Owned(g, d, owner) && Truncated(g, d, d', owner, inum)
    ensures Addr(d', i, k) == if i == inum then 0 else Addr(d, i, k)
    ensures TableOf(d', i) == if i == inum then 0 else TableOf(d, i)
  {
    hide Used;
    var t := TableOf(d, i);
    assert TableOwned(d, owner, i) && PlaceOk(g, d, owner, t);
    if t != 0 { assert SameBlock(d, d', t); }
  }

  lemma TruncatedOwned(g: Layout, d: Disk, d': Disk, owner: map<nat, Place>, inum: nat)
    requires Owned(g, d, owner) && Truncated(g, d, d', owner, inum)
    ensures Owned(g, d', Without(owner, inum))
  {
    hide Addr, TableOf, Used;
    var owner' := Without(owner, inum);
    forall i: nat, k: nat ensures AddrOwned(d', owner', i, k) {
      TruncatedAddr(g, d, d', owner, inum, i, k);
      assert AddrOwned(d, owner, i, k);
    }
    forall i: nat ensures TableOwned(d', owner', i) {
      TruncatedAddr(g, d, d', owner, inum, i, 0);
      assert TableOwned(d, owner, i);
    }
    forall x: nat ensures PlaceOk(g, d', owner', x) {
      assert PlaceOk(g, d, owner, x);
      if x in owner' {
        match owner'[x]
        case Data(i, k) => TruncatedAddr(g, d, d', owner, inum, i, k);
        case Table(i) => TruncatedAddr(g, d, d', owner, inum, i, 0);
      }
    }
    forall x: nat | x < g.size ensures BitOk(g, d', owner', x) {
      assert BitOk(g, d, owner, x) && PlaceOk(g, d, owner, x);
    }
  }

  /** Truncating one file changes no byte of another. */
  lemma TruncatedBytes(g: Layout, d: Disk, d': Disk, owner: map<nat, Place>, inum: nat, i: nat, k: nat)
    requires Owned(g, d, owner) && Truncated(g, d, d', owner, inum) && i != inum
    ensures ByteSame(d, d', i, k)
  {
    hide Addr, TableOf, Used;
    var n := k / BSIZE;
    TruncatedAddr(g, d, d', owner, inum, i, n);
    assert AddrOwned(d, owner, i, n) && PlaceOk(g, d, owner, Addr(d, i, n));
    if Addr(d, i, n) != 0 { assert SameBlock(d, d', Addr(d, i, n)); }
  }
}

/** On-disk layout of the redo log (kernel/log.c) and what recovery makes of a disk.

    A block is its sequence of 32-bit words. The header block holds the count
    in word 0 and the home block numbers after it; words beyond the count are
    stale and stay as they were. */
module LogFormat {
  import opened Common
  import opened LogSpace

  type Block = seq<int>
  type Disk = seq<Block>

  /** words is BSIZE / 4, start is log.start, nblocks the size of the file system image. */
  datatype Geometry = Geometry(words: nat, start: nat, nblocks: nat, space: Params)

  /** initlog's check on the header's size, and a log area that lies on the disk. */
  predicate ValidGeometry(g: Geometry) {
    && g.space.logMax + 1 < g.words
    && 1 <= g.space.size
    && g.start + g.space.size <= g.nblocks
  }

  /** A block outside the log area: the home of some file system data. */
  predicate Home(g: Geometry, b: int) {
    0 <= b < g.nblocks && !(g.start <= b < g.start + g.space.size)
  }

  predicate ValidDisk(g: Geometry, d: Disk) {
    |d| == g.nblocks && forall b | 0 <= b < |d| :: |d[b]| == g.words
  }

  /** A list of home blocks that fits into the header. */
  predicate HomeList(g: Geometry, list: seq<nat>) {
    && |list| <= g.space.logMax
    && Distinct(list)
    && forall k | 0 <= k < |list| :: Home(g, list[k])
  }

  /** A list of home blocks that fits into the log area. */
  predicate ValidList(g: Geometry, list: seq<nat>) {
    HomeList(g, list) && |list| <= g.space.size - 1
  }

  /** write_head: the count and the list go in, the rest of the block stays. */
  function EncodeHeader(hb: Block, list: seq<nat>): (r: Block)
    requires |list| + 1 <= |hb|
    ensures |r| == |hb|
  {
    [|list|] + list + hb[|list| + 1..]
  }

  predicate IsHeader(hb: Block, list: seq<nat>) {
    |list| < |hb| && hb[0] == |list| && forall k | 1 <= k <= |list| :: hb[k] == list[k - 1]
  }

  /** The count lies in the block and delimits block numbers. */
  predicate Counted(hb: Block) {
    1 <= |hb| && 0 <= hb[0] < |hb| && forall k | 1 <= k <= hb[0] :: 0 <= hb[k]
  }

  /** The header block names a list that recovery can install. */
  predicate ValidHeader(g: Geometry, hb: Block) {
    Counted(hb) && ValidList(g, DecodeHeader(hb))
  }

  /** read_head: the list that the header block's count delimits. */
  function DecodeHeader(hb: Block): (list: seq<nat>)
    requires Counted(hb)
    ensures IsHeader(hb, list)
  {
    hb[1..hb[0] + 1]
  }

  lemma HeaderUnique(hb: Block, list: seq<nat>)
    requires IsHeader(hb, list)
    ensures Counted(hb) && DecodeHeader(hb) == list
  {
  }

  /** read_head gives back what write_head put in. */
  lemma HeaderRoundTrip(hb: Block, list: seq<nat>)
    requires |list| < |hb|
    ensures IsHeader(EncodeHeader(hb, list), list)
    ensures Counted(EncodeHeader(hb, list)) && DecodeHeader(EncodeHeader(hb, list)) == list
  {
    HeaderUnique(EncodeHeader(hb, list), list);
  }

  /** install_trans: the first k logged blocks copied from the log area to their homes. */
  function Installed(g: Geometry, d: Disk, list: seq<nat>, k: nat): (r: Disk)
    requires ValidGeometry(g) && ValidDisk(g, d) && ValidList(g, list) && k <= |list|
    ensures ValidDisk(g, r)
  {
    if k == 0 then d
    else Installed(g, d, list, k - 1)[list[k - 1] := d[g.start + k]]
  }

  /** What recover_from_log turns the disk into. */
  function Recovered(g: Geometry, d: Disk): (r: Disk)
    requires ValidGeometry(g) && ValidDisk(g, d) && ValidHeader(g, d[g.start])
    ensures ValidDisk(g, r)
  {
    var list := DecodeHeader(d[g.start]);
    var r := Installed(g, d, list, |list|);
    r[g.start := EncodeHeader(r[g.start], [])]
  }

  lemma {:induction false} InstalledAt(g: Geometry, d: Disk, list: seq<nat>, k: nat, b: nat)
    requires ValidGeometry(g) && ValidDisk(g, d) && ValidList(g, list) && k <= |list| && b < g.nblocks
    ensures b !in list[..k] ==> Installed(g, d, list, k)[b] == d[b]
    ensures forall j | 0 <= j < k && list[j] == b :: Installed(g, d, list, k)[b] == d[g.start + 1 + j]
  {
    if k != 0 {
      InstalledAt(g, d, list, k - 1, b);
      assert list[..k] == list[..k - 1] + [list[k - 1]];
    }
  }

  /** Recovery block by block: a logged block gets its logged contents, any other home block keeps its own. */
  lemma RecoveredAt(g: Geometry, d: Disk, list: seq<nat>, b: nat)
    requires ValidGeometry(g) && ValidDisk(g, d) && ValidList(g, list) && IsHeader(d[g.start], list)
    requires Home(g, b)
    ensures ValidHeader(g, d[g.start])
    ensures b !in list ==> Recovered(g, d)[b] == d[b]
    ensures forall j | 0 <= j < |list| && list[j] == b :: Recovered(g, d)[b] == d[g.start + 1 + j]
  {
    HeaderUnique(d[g.start], list);
    InstalledAt(g, d, list, |list|, b);
    assert list[..|list|] == list;
  }

  /** The home blocks agree. */
  ghost predicate SameHome(g: Geometry, d: Disk, e: Disk) {
    && |d| == |e| == g.nblocks
    && forall b | Home(g, b) :: d[b] == e[b]
  }
}

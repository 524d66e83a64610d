/** The Kernighan and Ritchie allocator of user/umalloc.c. Addresses count
    header-sized units; a block starts with its header, and malloc hands out the
    unit after it. */
module Malloc {
  import opened Common

  datatype Header = Header(ptr: nat, size: nat)

  type Memory = map<nat, Header>

  /** The successor of the k-th free block on the ring. */
  function Next(ring: seq<nat>, k: nat): nat
    requires k < |ring|
  {
    if k + 1 < |ring| then ring[k + 1] else ring[0]
  }

  /** Each block on the ring points to the next, and the last one back to the first. */
  ghost predicate Links(mem: Memory, ring: seq<nat>) {
    forall k {:trigger Next(ring, k)} | 0 <= k < |ring| :: ring[k] in mem && mem[ring[k]].ptr == Next(ring, k)
  }

  ghost predicate Ascending(ring: seq<nat>) {
    forall j, k | 0 <= j < k < |ring| :: ring[j] < ring[k]
  }

  /** A block on the ring ends before the next one starts. */
  ghost predicate Apart(mem: Memory, ring: seq<nat>) {
    forall k {:trigger Next(ring, k)} | 0 <= k < |ring| ::
      ring[k] in mem && (k + 1 < |ring| ==> ring[k] + mem[ring[k]].size <= Next(ring, k))
  }

  /** The ring starts at `base`, which is empty; every other block is not. */
  ghost predicate Sizes(base: nat, mem: Memory, ring: seq<nat>) {
    && |ring| >= 1 && ring[0] == base && base in mem && mem[base].size == 0
    && forall k | 1 <= k < |ring| :: ring[k] in mem && mem[ring[k]].size >= 1
  }

  /** The free ring: from `base` through the free blocks in address order and back. */
  ghost predicate RingOk(base: nat, mem: Memory, ring: seq<nat>) {
    Links(mem, ring) && Ascending(ring) && Apart(mem, ring) && Sizes(base, mem, ring)
  }

  /** The free block at position k ends where the next one starts. */
  predicate Touching(mem: Memory, ring: seq<nat>, k: nat) {
    && 1 <= k && k + 1 < |ring| && ring[k] in mem && ring[k + 1] in mem
    && ring[k] + mem[ring[k]].size == ring[k + 1]
  }

  /** No two free blocks are adjacent: neighbours have been merged. */
  ghost predicate Merged(mem: Memory, ring: seq<nat>) {
    forall k: nat :: !Touching(mem, ring, k)
  }

  /** The units of block h are exactly those that the owner map gives to h. */
  ghost predicate Extent(mem: Memory, owner: map<nat, nat>, h: nat) {
    h in mem && forall c: nat :: Owns(owner, c, h) <==> h <= c < h + mem[h].size
  }

  ghost predicate Owns(owner: map<nat, nat>, c: nat, h: nat) {
    c in owner && owner[c] == h
  }

  ghost predicate IsBlock(base: nat, ring: seq<nat>, used: set<nat>, h: nat) {
    h in used || (h in ring && h != base)
  }

  /** Every unit obtained from the system belongs to exactly one block, free or
      allocated, and the blocks have no other units. */
  ghost predicate BlocksOk(base: nat, mem: Memory, ring: seq<nat>, used: set<nat>, owner: map<nat, nat>) {
    && (forall u | u in used :: u in mem && u !in ring && u > base && mem[u].size >= 1)
    && (forall h | IsBlock(base, ring, used, h) :: Extent(mem, owner, h))
    && (forall c | c in owner :: IsBlock(base, ring, used, owner[c]))
  }

  ghost predicate Ok(base: nat, mem: Memory, ring: seq<nat>, used: set<nat>, owner: map<nat, nat>) {
    RingOk(base, mem, ring) && BlocksOk(base, mem, ring, used, owner)
  }

  // ---- The four changes to the ring ----

  /** The ring with bp after position j. */
  function Insert(ring: seq<nat>, j: nat, bp: nat): seq<nat>
    requires j < |ring|
  {
    ring[..j + 1] + [bp] + ring[j + 1..]
  }

  function Remove(ring: seq<nat>, k: nat): seq<nat>
    requires k < |ring|
  {
    ring[..k] + ring[k + 1..]
  }

  /** Position j is where bp belongs on the ring. */
  predicate Between(ring: seq<nat>, j: int, bp: nat) {
    0 <= j < |ring| && ring[j] < bp && (j + 1 < |ring| ==> bp < ring[j + 1])
  }

  /** bp's units lie strictly between those of its neighbours. */
  predicate Clear(mem: Memory, ring: seq<nat>, j: nat, bp: nat) {
    && Between(ring, j, bp) && ring[j] in mem && bp in mem && bp !in ring && mem[bp].size >= 1
    && ring[j] + mem[ring[j]].size <= bp
    && (j + 1 < |ring| ==> bp + mem[bp].size <= ring[j + 1])
  }

  /** An allocated block lies between its neighbours on the ring without touching their units. */
  lemma FitsBetween(base: nat, mem: Memory, ring: seq<nat>, used: set<nat>, owner: map<nat, nat>, j: nat, bp: nat)
    requires Ok(base, mem, ring, used, owner) && bp in used && Between(ring, j, bp)
    ensures Clear(mem, ring, j, bp)
  {
    assert Extent(mem, owner, bp) by { assert IsBlock(base, ring, used, bp); }
    assert Owns(owner, bp, bp);
    if j > 0 {
      assert Extent(mem, owner, ring[j]) by { assert IsBlock(base, ring, used, ring[j]); }
      assert !Owns(owner, bp, ring[j]);
    }
    if j + 1 < |ring| {
      var q := ring[j + 1];
      assert Extent(mem, owner, q) by { assert IsBlock(base, ring, used, q); }
      assert Owns(owner, q, q) && !Owns(owner, q, bp);
    }
  }

  /** Memory after bp is linked in behind position j. */
  function Linked(mem: Memory, ring: seq<nat>, j: nat, bp: nat): Memory
    requires j < |ring| && ring[j] in mem && bp in mem
  {
    mem[bp := mem[bp].(ptr := Next(ring, j))][ring[j] := mem[ring[j]].(ptr := bp)]
  }

  lemma InsertLinks(mem: Memory, ring: seq<nat>, j: nat, bp: nat)
    requires Links(mem, ring) && Ascending(ring) && Clear(mem, ring, j, bp)
    ensures Links(Linked(mem, ring, j, bp), Insert(ring, j, bp))
  {
    var ring', mem' := Insert(ring, j, bp), Linked(mem, ring, j, bp);
    forall k | 0 <= k < |ring'| ensures ring'[k] in mem' && mem'[ring'[k]].ptr == Next(ring', k) {
      if k < j {
        assert ring'[k] == ring[k] && ring[k] != ring[j] && Next(ring', k) == Next(ring, k);
      } else if k > j + 1 {
        assert ring'[k] == ring[k - 1] && ring[k - 1] != ring[j];
        assert Next(ring', k) == Next(ring, k - 1);
      }
    }
  }

  lemma InsertAscending(mem: Memory, ring: seq<nat>, j: nat, bp: nat)
    requires Ascending(ring) && Clear(mem, ring, j, bp)
    ensures Ascending(Insert(ring, j, bp))
  {
    var ring' := Insert(ring, j, bp);
    forall a, b | 0 <= a < b < |ring'| ensures ring'[a] < ring'[b] {
      var a0 := if a <= j then a else a - 1;
      var b0 := if b <= j then b else b - 1;
      assert a != j + 1 ==> ring'[a] == ring[a0] && (a < j ==> ring[a] < ring[j]);
      assert b != j + 1 ==> ring'[b] == ring[b0] && (b > j + 2 ==> ring[j + 1] < ring[b - 1]);
    }
  }

  lemma InsertApart(base: nat, mem: Memory, ring: seq<nat>, j: nat, bp: nat)
    requires Apart(mem, ring) && Sizes(base, mem, ring) && Clear(mem, ring, j, bp)
    ensures Apart(Linked(mem, ring, j, bp), Insert(ring, j, bp))
    ensures Sizes(base, Linked(mem, ring, j, bp), Insert(ring, j, bp))
  {
    var ring', mem' := Insert(ring, j, bp), Linked(mem, ring, j, bp);
    forall k | 0 <= k < |ring'|
      ensures ring'[k] in mem' && (k + 1 < |ring'| ==> ring'[k] + mem'[ring'[k]].size <= Next(ring', k))
      ensures k >= 1 ==> mem'[ring'[k]].size >= 1
    {
      if k < j {
        assert ring'[k] == ring[k] && Next(ring', k) == Next(ring, k);
      } else if k > j + 1 {
        assert ring'[k] == ring[k - 1] && Next(ring', k) == Next(ring, k - 1);
      }
    }
  }

  lemma InsertRing(base: nat, mem: Memory, ring: seq<nat>, j: nat, bp: nat)
    requires RingOk(base, mem, ring) && Clear(mem, ring, j, bp)
    ensures RingOk(base, Linked(mem, ring, j, bp), Insert(ring, j, bp))
  {
    hide Links;
    hide Ascending;
    hide Apart;
    hide Sizes;
    InsertLinks(mem, ring, j, bp);
    InsertAscending(mem, ring, j, bp);
    InsertApart(base, mem, ring, j, bp);
  }

  /** free without merging: the block moves from the allocated ones to the ring. */
  lemma InsertOk(base: nat, mem: Memory, ring: seq<nat>, used: set<nat>, owner: map<nat, nat>, j: nat, bp: nat)
    requires Ok(base, mem, ring, used, owner) && bp in used && Between(ring, j, bp)
    ensures Clear(mem, ring, j, bp)
    ensures Ok(base, Linked(mem, ring, j, bp), Insert(ring, j, bp), used - {bp}, owner)
  {
    hide Links;
    hide Ascending;
    hide Apart;
    FitsBetween(base, mem, ring, used, owner, j, bp);
    InsertRing(base, mem, ring, j, bp);
    var ring', mem' := Insert(ring, j, bp), Linked(mem, ring, j, bp);
    assert forall h :: h in ring' <==> h in ring || h == bp;
    SameBlocks(base, mem, ring, used, owner, mem', ring', used - {bp});
  }

  /** The same blocks with the same sizes, distributed differently over ring and allocated ones. */
  lemma SameBlocks(base: nat, mem: Memory, ring: seq<nat>, used: set<nat>, owner: map<nat, nat>,
                   mem': Memory, ring': seq<nat>, used': set<nat>)
    requires BlocksOk(base, mem, ring, used, owner)
    requires forall h :: IsBlock(base, ring', used', h) <==> IsBlock(base, ring, used, h)
    requires forall h | h in mem :: h in mem' && mem'[h].size == mem[h].size
    requires forall u | u in used' :: u in mem && u !in ring' && u > base && mem[u].size >= 1
    ensures BlocksOk(base, mem', ring', used', owner)
  {
    forall h | IsBlock(base, ring', used', h) ensures Extent(mem', owner, h) {
      assert Extent(mem, owner, h);
    }
  }

  // ---- Merging two neighbours ----

  /** Units of block `from` go to block `to`. */
  function Relabel(owner: map<nat, nat>, from: nat, to: nat): map<nat, nat> {
    map c | c in owner :: if owner[c] == from then to else owner[c]
  }

  /** Memory after the block behind position k was merged into the one at k. */
  function Joined(mem: Memory, ring: seq<nat>, k: nat): Memory
    requires Touching(mem, ring, k)
  {
    var q := mem[ring[k + 1]];
    mem[ring[k] := Header(q.ptr, mem[ring[k]].size + q.size)]
  }

  lemma RemoveAscending(ring: seq<nat>, k: nat)
    requires Ascending(ring) && k < |ring|
    ensures Ascending(Remove(ring, k))
    ensures forall h :: h in Remove(ring, k) <==> h in ring && h != ring[k]
  {
    var ring' := Remove(ring, k);
    forall h | h in ring && h != ring[k] ensures h in ring' {
      var i :| 0 <= i < |ring| && ring[i] == h;
      assert if i < k then ring'[i] == h else ring'[i - 1] == h;
    }
    forall h | h in ring' ensures h in ring && h != ring[k] {
      var i :| 0 <= i < |ring'| && ring'[i] == h;
      assert if i < k then ring[i] == h else ring[i + 1] == h;
    }
  }

  lemma MergeLinks(mem: Memory, ring: seq<nat>, k: nat)
    requires Links(mem, ring) && Ascending(ring) && Touching(mem, ring, k)
    ensures Links(Joined(mem, ring, k), Remove(ring, k + 1))
  {
    var ring', mem' := Remove(ring, k + 1), Joined(mem, ring, k);
    forall i | 0 <= i < |ring'| ensures ring'[i] in mem' && mem'[ring'[i]].ptr == Next(ring', i) {
      var i0 := if i <= k then i else i + 1;
      assert ring'[i] == ring[i0];
      if i == k {
        assert mem[ring[k + 1]].ptr == Next(ring, k + 1) == Next(ring', k);
      } else {
        assert ring[i0] != ring[k] && Next(ring', i) == Next(ring, i0);
      }
    }
  }

  lemma MergeApart(base: nat, mem: Memory, ring: seq<nat>, k: nat)
    requires Apart(mem, ring) && Sizes(base, mem, ring) && Touching(mem, ring, k)
    requires forall i | 0 <= i < |ring| && i != k :: ring[i] != ring[k]
    ensures Apart(Joined(mem, ring, k), Remove(ring, k + 1)) && Sizes(base, Joined(mem, ring, k), Remove(ring, k + 1))
  {
    var ring', mem' := Remove(ring, k + 1), Joined(mem, ring, k);
    forall i | 0 <= i < |ring'|
      ensures ring'[i] in mem' && (i + 1 < |ring'| ==> ring'[i] + mem'[ring'[i]].size <= Next(ring', i))
      ensures i >= 1 ==> mem'[ring'[i]].size >= 1
    {
      var i0 := if i <= k then i else i + 1;
      assert ring'[i] == ring[i0];
      if i == k {
        assert k + 2 < |ring| ==> ring[k + 1] + mem[ring[k + 1]].size <= Next(ring, k + 1) == Next(ring', k);
      } else {
        assert Next(ring', i) == Next(ring, i0);
      }
    }
    assert ring[0] != ring[k];
  }

  lemma MergeRing(base: nat, mem: Memory, ring: seq<nat>, k: nat)
    requires RingOk(base, mem, ring) && Touching(mem, ring, k)
    ensures RingOk(base, Joined(mem, ring, k), Remove(ring, k + 1))
  {
    hide Links;
    hide Apart;
    hide Sizes;
    RemoveAscending(ring, k + 1);
    MergeLinks(mem, ring, k);
    MergeApart(base, mem, ring, k);
  }

  /** The merged block has the units of both, and every other block its own. */
  lemma MergeExtent(mem: Memory, ring: seq<nat>, owner: map<nat, nat>, k: nat, h: nat)
    requires Touching(mem, ring, k) && ring[k] != ring[k + 1] && h != ring[k + 1]
    requires Extent(mem, owner, ring[k]) && Extent(mem, owner, ring[k + 1]) && Extent(mem, owner, h)
    ensures Extent(Joined(mem, ring, k), Relabel(owner, ring[k + 1], ring[k]), h)
  {
    var p, q := ring[k], ring[k + 1];
    var mem', owner' := Joined(mem, ring, k), Relabel(owner, q, p);
    forall c: nat ensures Owns(owner', c, h) <==> h <= c < h + mem'[h].size {
      assert Owns(owner', c, h) <==> Owns(owner, c, h) || (h == p && Owns(owner, c, q));
    }
  }

  lemma MergeBlocks(base: nat, mem: Memory, ring: seq<nat>, used: set<nat>, owner: map<nat, nat>, k: nat)
    requires Ok(base, mem, ring, used, owner) && Touching(mem, ring, k)
    ensures BlocksOk(base, Joined(mem, ring, k), Remove(ring, k + 1), used, Relabel(owner, ring[k + 1], ring[k]))
  {
    hide Links;
    hide Apart;
    hide Extent;
    var p, q, ring', mem', owner' := ring[k], ring[k + 1], Remove(ring, k + 1), Joined(mem, ring, k),
      Relabel(owner, ring[k + 1], ring[k]);
    assert p != q && p != base && q != base by { assert ring[0] < p < q; }
    RemoveAscending(ring, k + 1);
    assert IsBlock(base, ring, used, p) && IsBlock(base, ring, used, q);
    forall h: nat | IsBlock(base, ring', used, h) ensures Extent(mem', owner', h) {
      assert IsBlock(base, ring, used, h) && h != q;
      MergeExtent(mem, ring, owner, k, h);
    }
    forall c | c in owner' ensures IsBlock(base, ring', used, owner'[c]) {
      assert IsBlock(base, ring, used, owner[c]);
    }
  }

  lemma MergeOk(base: nat, mem: Memory, ring: seq<nat>, used: set<nat>, owner: map<nat, nat>, k: nat)
    requires Ok(base, mem, ring, used, owner) && Touching(mem, ring, k)
    ensures Ok(base, Joined(mem, ring, k), Remove(ring, k + 1), used, Relabel(owner, ring[k + 1], ring[k]))
  {
    MergeRing(base, mem, ring, k);
    MergeBlocks(base, mem, ring, used, owner, k);
  }

  // ---- malloc's two ways to take a block ----

  /** Memory after the whole block at position k left the ring. */
  function Unlinked(mem: Memory, ring: seq<nat>, k: nat): Memory
    requires 1 <= k < |ring| && ring[k - 1] in mem && ring[k] in mem
  {
    mem[ring[k - 1] := mem[ring[k - 1]].(ptr := mem[ring[k]].ptr)]
  }

  lemma UnlinkLinks(mem: Memory, ring: seq<nat>, k: nat)
    requires Links(mem, ring) && Ascending(ring) && 1 <= k < |ring|
    ensures ring[k - 1] in mem && ring[k] in mem && Links(Unlinked(mem, ring, k), Remove(ring, k))
  {
    var before, after := Next(ring, k - 1), Next(ring, k);
    var ring', mem' := Remove(ring, k), Unlinked(mem, ring, k);
    forall i | 0 <= i < |ring'| ensures ring'[i] in mem' && mem'[ring'[i]].ptr == Next(ring', i) {
      var i0 := if i < k then i else i + 1;
      assert ring'[i] == ring[i0];
      if i == k - 1 {
        assert mem[ring[k]].ptr == Next(ring, k) == Next(ring', i);
      } else {
        assert ring[i0] != ring[k - 1] && Next(ring', i) == Next(ring, i0);
      }
    }
  }

  lemma UnlinkApart(base: nat, mem: Memory, ring: seq<nat>, k: nat)
    requires Apart(mem, ring) && Sizes(base, mem, ring) && 1 <= k < |ring|
    ensures ring[k - 1] in mem && ring[k] in mem
    ensures Apart(Unlinked(mem, ring, k), Remove(ring, k)) && Sizes(base, Unlinked(mem, ring, k), Remove(ring, k))
  {
    var ring', mem' := Remove(ring, k), Unlinked(mem, ring, k);
    forall i | 0 <= i < |ring'|
      ensures ring'[i] in mem' && (i + 1 < |ring'| ==> ring'[i] + mem'[ring'[i]].size <= Next(ring', i))
      ensures i >= 1 ==> mem'[ring'[i]].size >= 1
    {
      var i0 := if i < k then i else i + 1;
      assert ring'[i] == ring[i0];
      if i == k - 1 {
        assert ring[k - 1] + mem[ring[k - 1]].size <= Next(ring, k - 1) == ring[k];
        assert k + 1 < |ring| ==> ring[k] + mem[ring[k]].size <= Next(ring, k) == Next(ring', i);
      } else {
        assert Next(ring', i) == Next(ring, i0);
      }
    }
  }

  lemma UnlinkRing(base: nat, mem: Memory, ring: seq<nat>, k: nat)
    requires RingOk(base, mem, ring) && 1 <= k < |ring|
    ensures ring[k - 1] in mem && ring[k] in mem && RingOk(base, Unlinked(mem, ring, k), Remove(ring, k))
  {
    hide Links;
    hide Apart;
    hide Sizes;
    RemoveAscending(ring, k);
    UnlinkLinks(mem, ring, k);
    UnlinkApart(base, mem, ring, k);
  }

  lemma UnlinkOk(base: nat, mem: Memory, ring: seq<nat>, used: set<nat>, owner: map<nat, nat>, k: nat)
    requires Ok(base, mem, ring, used, owner) && 1 <= k < |ring|
    ensures ring[k - 1] in mem && ring[k] in mem
    ensures Ok(base, Unlinked(mem, ring, k), Remove(ring, k), used + {ring[k]}, owner)
  {
    UnlinkRing(base, mem, ring, k);
    RemoveAscending(ring, k);
    assert ring[0] < ring[k];
    SameBlocks(base, mem, ring, used, owner, Unlinked(mem, ring, k), Remove(ring, k), used + {ring[k]});
  }

  /** Memory after the last n units of the block at position k became a block of their own. */
  function Carved(mem: Memory, ring: seq<nat>, k: nat, n: nat): Memory
    requires k < |ring| && ring[k] in mem && n < mem[ring[k]].size
  {
    var p := mem[ring[k]];
    var h := ring[k] + p.size - n;
    mem[ring[k] := p.(size := p.size - n)][h := if h in mem then mem[h].(size := n) else Header(0, n)]
  }

  function CarvedOwner(owner: map<nat, nat>, p: nat, h: nat): map<nat, nat> {
    map c | c in owner :: if owner[c] == p && c >= h then h else owner[c]
  }

  lemma CarveOk(base: nat, mem: Memory, ring: seq<nat>, used: set<nat>, owner: map<nat, nat>, k: nat, n: nat)
    requires Ok(base, mem, ring, used, owner) && 1 <= k < |ring|
    requires ring[k] in mem && 1 <= n < mem[ring[k]].size
    ensures var h := ring[k] + mem[ring[k]].size - n;
            && h !in used && !IsBlock(base, ring, used, h) && h > base
            && Ok(base, Carved(mem, ring, k, n), ring, used + {h}, CarvedOwner(owner, ring[k], h))
  {
    var p := ring[k];
    var h := p + mem[p].size - n;
    CarveFresh(base, mem, ring, used, owner, k, h);
    CarveRing(base, mem, ring, k, n);
    CarveBlocks(base, mem, ring, used, owner, k, n);
  }

  lemma CarveFresh(base: nat, mem: Memory, ring: seq<nat>, used: set<nat>, owner: map<nat, nat>, k: nat, h: nat)
    requires Ok(base, mem, ring, used, owner) && 1 <= k < |ring|
    requires ring[k] in mem && ring[k] < h < ring[k] + mem[ring[k]].size
    ensures !IsBlock(base, ring, used, h) && h > base && h !in ring
  {
    assert ring[0] < ring[k];
    assert Extent(mem, owner, ring[k]) by { assert IsBlock(base, ring, used, ring[k]); }
    assert Owns(owner, h, ring[k]);
    assert !Owns(owner, h, h);
    if IsBlock(base, ring, used, h) {
      assert false;
    }
  }

  lemma CarveRing(base: nat, mem: Memory, ring: seq<nat>, k: nat, n: nat)
    requires RingOk(base, mem, ring) && 1 <= k < |ring|
    requires ring[k] in mem && 1 <= n < mem[ring[k]].size && ring[k] + mem[ring[k]].size - n !in ring
    ensures RingOk(base, Carved(mem, ring, k, n), ring)
  {
    var mem' := Carved(mem, ring, k, n);
    forall i | 0 <= i < |ring|
      ensures ring[i] in mem' && mem'[ring[i]].ptr == mem[ring[i]].ptr
      ensures mem'[ring[i]].size == if i == k then mem[ring[i]].size - n else mem[ring[i]].size
    {
      assert ring[i] in ring;
    }
  }

  lemma CarveExtent(base: nat, mem: Memory, ring: seq<nat>, owner: map<nat, nat>, k: nat, n: nat, b: nat)
    requires k < |ring| && ring[k] in mem && 1 <= n < mem[ring[k]].size && Extent(mem, owner, ring[k])
    requires var h := ring[k] + mem[ring[k]].size - n; h !in owner.Values && (b == h || Extent(mem, owner, b))
    ensures var h := ring[k] + mem[ring[k]].size - n; Extent(Carved(mem, ring, k, n), CarvedOwner(owner, ring[k], h), b)
  {
    var p := ring[k];
    var h := p + mem[p].size - n;
    var mem', owner' := Carved(mem, ring, k, n), CarvedOwner(owner, p, h);
    forall c: nat ensures Owns(owner', c, b) <==> b <= c < b + mem'[b].size {
      assert Owns(owner', c, b) <==>
        if b == h then Owns(owner, c, p) && c >= h else Owns(owner, c, b) && !(b == p && c >= h);
    }
  }

  lemma CarveBlocks(base: nat, mem: Memory, ring: seq<nat>, used: set<nat>, owner: map<nat, nat>, k: nat, n: nat)
    requires Ok(base, mem, ring, used, owner) && 1 <= k < |ring|
    requires ring[k] in mem && 1 <= n < mem[ring[k]].size
    requires var h := ring[k] + mem[ring[k]].size - n; !IsBlock(base, ring, used, h) && h > base && h !in ring
    ensures var h := ring[k] + mem[ring[k]].size - n;
            BlocksOk(base, Carved(mem, ring, k, n), ring, used + {h}, CarvedOwner(owner, ring[k], h))
  {
    hide Links;
    hide Ascending;
    hide Apart;
    hide Extent;
    var p := ring[k];
    var h := p + mem[p].size - n;
    var mem', owner' := Carved(mem, ring, k, n), CarvedOwner(owner, p, h);
    NotBase(base, mem, ring, k);
    assert IsBlock(base, ring, used, p);
    assert h !in owner.Values;
    forall b: nat | IsBlock(base, ring, used + {h}, b) ensures Extent(mem', owner', b) {
      assert b == h || IsBlock(base, ring, used, b);
      CarveExtent(base, mem, ring, owner, k, n, b);
    }
    forall c | c in owner' ensures IsBlock(base, ring, used + {h}, owner'[c]) {
      assert IsBlock(base, ring, used, owner[c]);
    }
  }

  lemma NotBase(base: nat, mem: Memory, ring: seq<nat>, k: nat)
    requires RingOk(base, mem, ring) && 1 <= k < |ring|
    ensures ring[k] > base
  {
    assert ring[0] < ring[k];
  }

  // ---- Which neighbours touch afterwards ----

  lemma InsertTouching(base: nat, mem: Memory, ring: seq<nat>, j: nat, bp: nat, i: nat)
    requires RingOk(base, mem, ring) && Clear(mem, ring, j, bp) && i != j && i != j + 1
    requires Touching(Linked(mem, ring, j, bp), Insert(ring, j, bp), i)
    ensures Touching(mem, ring, if i < j then i else i - 1)
  {
    var ring' := Insert(ring, j, bp);
    if i < j {
      assert ring'[i] == ring[i] && ring'[i + 1] == ring[i + 1];
    } else {
      assert ring'[i] == ring[i - 1] && ring'[i + 1] == ring[i];
    }
  }

  lemma MergeTouching(base: nat, mem: Memory, ring: seq<nat>, k: nat, i: nat)
    requires RingOk(base, mem, ring) && Touching(mem, ring, k)
    requires Touching(Joined(mem, ring, k), Remove(ring, k + 1), i)
    ensures Touching(mem, ring, if i < k then i else i + 1)
  {
    var ring' := Remove(ring, k + 1);
    if i < k {
      assert ring'[i] == ring[i] && ring'[i + 1] == ring[i + 1] && ring[i] != ring[k];
    } else if i == k {
      assert ring'[i] == ring[k] && ring'[i + 1] == ring[k + 2];
    } else {
      assert ring'[i] == ring[i + 1] && ring'[i + 1] == ring[i + 2] && ring[i + 1] != ring[k];
    }
  }

  lemma UnlinkTouching(base: nat, mem: Memory, ring: seq<nat>, k: nat, i: nat)
    requires RingOk(base, mem, ring) && 1 <= k < |ring| && ring[k - 1] in mem && ring[k] in mem
    requires Touching(Unlinked(mem, ring, k), Remove(ring, k), i)
    ensures Touching(mem, ring, if i < k then i else i + 1)
  {
    var ring' := Remove(ring, k);
    assert ring[k - 1] + mem[ring[k - 1]].size <= Next(ring, k - 1);
    assert i < k - 1 ==> ring'[i] == ring[i] && ring'[i + 1] == ring[i + 1];
    assert i >= k ==> ring'[i] == ring[i + 1] && ring'[i + 1] == ring[i + 2];
  }

  lemma CarveTouching(base: nat, mem: Memory, ring: seq<nat>, k: nat, n: nat, i: nat)
    requires RingOk(base, mem, ring) && 1 <= k < |ring|
    requires ring[k] in mem && 1 <= n < mem[ring[k]].size && ring[k] + mem[ring[k]].size - n !in ring
    requires Touching(Carved(mem, ring, k, n), ring, i)
    ensures Touching(mem, ring, i)
  {
    assert k + 1 < |ring| ==> ring[k] + mem[ring[k]].size <= Next(ring, k);
    assert ring[i] in ring;
  }

  /** Every address above the base belongs after exactly one position of the ring. */
  lemma PlaceFor(ring: seq<nat>, bp: nat) returns (j: nat)
    requires |ring| >= 1 && ring[0] < bp && bp !in ring && Ascending(ring)
    ensures Between(ring, j, bp)
  {
    j := 0;
    while j + 1 < |ring| && ring[j + 1] < bp
      invariant j < |ring| && ring[j] < bp
    {
      j := j + 1;
    }
  }

  // ---- free ----

  datatype Heap = Heap(mem: Memory, ring: seq<nat>, used: set<nat>, owner: map<nat, nat>)

  ghost predicate HeapOk(base: nat, h: Heap) {
    Ok(base, h.mem, h.ring, h.used, h.owner)
  }

  /** The two neighbours at position k become one block if they touch. */
  ghost function JoinAt(h: Heap, k: nat): Heap {
    if Touching(h.mem, h.ring, k) then
      Heap(Joined(h.mem, h.ring, k), Remove(h.ring, k + 1), h.used, Relabel(h.owner, h.ring[k + 1], h.ring[k]))
    else h
  }

  ghost function InsertAt(h: Heap, j: nat, bp: nat): Heap
    requires j < |h.ring| && h.ring[j] in h.mem && bp in h.mem
  {
    Heap(Linked(h.mem, h.ring, j, bp), Insert(h.ring, j, bp), h.used - {bp}, h.owner)
  }

  /** What free leaves: the block on the ring, merged with the neighbours it touches. */
  ghost function Freed(h: Heap, j: nat, bp: nat): Heap
    requires j < |h.ring| && h.ring[j] in h.mem && bp in h.mem
  {
    JoinAt(JoinAt(InsertAt(h, j, bp), j + 1), j)
  }

  /** Where position i of a ring without its element k + 1 was before. */
  function Shift(i: nat, k: nat): nat {
    if i < k then i else i + 1
  }

  lemma JoinAtOk(base: nat, h: Heap, k: nat)
    requires HeapOk(base, h)
    ensures HeapOk(base, JoinAt(h, k)) && JoinAt(h, k).used == h.used && JoinAt(h, k).owner.Keys == h.owner.Keys
    ensures forall i: nat | Touching(JoinAt(h, k).mem, JoinAt(h, k).ring, i) ::
              if Touching(h.mem, h.ring, k) then Touching(h.mem, h.ring, Shift(i, k))
              else i != k && Touching(h.mem, h.ring, i)
  {
    if Touching(h.mem, h.ring, k) {
      MergeOk(base, h.mem, h.ring, h.used, h.owner, k);
      forall i: nat | Touching(JoinAt(h, k).mem, JoinAt(h, k).ring, i)
        ensures Touching(h.mem, h.ring, Shift(i, k))
      {
        MergeTouching(base, h.mem, h.ring, k, i);
      }
    }
  }

  lemma FreedOk(base: nat, h: Heap, j: nat, bp: nat)
    requires HeapOk(base, h) && Merged(h.mem, h.ring) && bp in h.used && Between(h.ring, j, bp)
    ensures h.ring[j] in h.mem && bp in h.mem && HeapOk(base, Freed(h, j, bp))
    ensures Freed(h, j, bp).used == h.used - {bp} && Freed(h, j, bp).owner.Keys == h.owner.Keys
  {
    InsertOk(base, h.mem, h.ring, h.used, h.owner, j, bp);
    var h1 := InsertAt(h, j, bp);
    JoinAtOk(base, h1, j + 1);
    JoinAtOk(base, JoinAt(h1, j + 1), j);
  }

  lemma InsertAtTouching(base: nat, h: Heap, j: nat, bp: nat)
    requires HeapOk(base, h) && Merged(h.mem, h.ring) && bp in h.used && Between(h.ring, j, bp)
    ensures h.ring[j] in h.mem && bp in h.mem && HeapOk(base, InsertAt(h, j, bp))
    ensures forall i: nat | Touching(InsertAt(h, j, bp).mem, InsertAt(h, j, bp).ring, i) :: i == j || i == j + 1
  {
    hide RingOk;
    hide BlocksOk;
    InsertOk(base, h.mem, h.ring, h.used, h.owner, j, bp);
    forall i: nat | Touching(InsertAt(h, j, bp).mem, InsertAt(h, j, bp).ring, i) ensures i == j || i == j + 1 {
      if i != j && i != j + 1 {
        InsertTouching(base, h.mem, h.ring, j, bp, i);
        assert false;
      }
    }
  }

  lemma FreedMerged(base: nat, h: Heap, j: nat, bp: nat)
    requires HeapOk(base, h) && Merged(h.mem, h.ring) && bp in h.used && Between(h.ring, j, bp)
    ensures h.ring[j] in h.mem && bp in h.mem && Merged(Freed(h, j, bp).mem, Freed(h, j, bp).ring)
  {
    hide Ok;
    hide Touching;
    hide JoinAt;
    hide InsertAt;
    InsertAtTouching(base, h, j, bp);
    var h1 := InsertAt(h, j, bp);
    var h2 := JoinAt(h1, j + 1);
    JoinAtOk(base, h1, j + 1);
    forall i: nat | Touching(h2.mem, h2.ring, i) ensures i == j {
      if Touching(h1.mem, h1.ring, j + 1) {
        assert Touching(h1.mem, h1.ring, Shift(i, j + 1));
      }
    }
    var h3 := JoinAt(h2, j);
    JoinAtOk(base, h2, j);
    forall i: nat ensures !Touching(h3.mem, h3.ring, i) {
      assert Touching(h3.mem, h3.ring, i) ==>
        Touching(h2.mem, h2.ring, Shift(i, j)) || (i != j && Touching(h2.mem, h2.ring, i));
    }
  }

  /** The assignments of free after its search, as they leave the headers. */
  function FreeCode(mem: Memory, p: nat, bp: nat): Memory
    requires p in mem && bp in mem && mem[p].ptr in mem && p != bp
  {
    var q := mem[p].ptr;
    var m := if bp + mem[bp].size == q then mem[bp := Header(mem[q].ptr, mem[bp].size + mem[q].size)]
             else mem[bp := mem[bp].(ptr := q)];
    if p + m[p].size == bp then m[p := Header(m[bp].ptr, m[p].size + m[bp].size)]
    else m[p := m[p].(ptr := bp)]
  }

  /** The headers after the insertion and the merge with the block above. */
  lemma UpperMerge(h: Heap, j: nat, bp: nat)
    requires Clear(h.mem, h.ring, j, bp) && h.ring[0] <= h.ring[j] && Next(h.ring, j) in h.mem
    ensures var p, q, h2 := h.ring[j], Next(h.ring, j), JoinAt(InsertAt(h, j, bp), j + 1);
            && j + 1 < |h2.ring| && h2.ring[j] == p && h2.ring[j + 1] == bp
            && h2.mem == (if bp + h.mem[bp].size == q
              then h.mem[bp := Header(h.mem[q].ptr, h.mem[bp].size + h.mem[q].size)]
                          else h.mem[bp := h.mem[bp].(ptr := q)])[p := h.mem[p].(ptr := bp)]
  {
    var p, q, h1 := h.ring[j], Next(h.ring, j), InsertAt(h, j, bp);
    assert h1.ring[j] == p && h1.ring[j + 1] == bp && (j + 1 < |h.ring| ==> h1.ring[j + 2] == q);
    assert Touching(h1.mem, h1.ring, j + 1) <==> bp + h.mem[bp].size == q;
  }

  /** Those assignments are exactly the insertion followed by the two merges. */
  lemma FreeCodeCorrect(base: nat, h: Heap, j: nat, bp: nat)
    requires HeapOk(base, h) && bp in h.used && Between(h.ring, j, bp)
    ensures h.ring[j] in h.mem && bp in h.mem && h.mem[h.ring[j]].ptr in h.mem && h.ring[j] != bp
    ensures FreeCode(h.mem, h.ring[j], bp) == Freed(h, j, bp).mem
    ensures j < |Freed(h, j, bp).ring| && Freed(h, j, bp).ring[j] == h.ring[j]
  {
    hide BlocksOk;
    hide JoinAt;
    hide InsertAt;
    FitsBetween(base, h.mem, h.ring, h.used, h.owner, j, bp);
    assert j + 1 < |h.ring| ==> h.ring[j] < h.ring[j + 1];
    assert |h.ring| > 1 && j + 1 == |h.ring| ==> h.ring[0] < h.ring[j];
    UpperMerge(h, j, bp);
    LowerMerge(JoinAt(InsertAt(h, j, bp), j + 1), j, bp);
  }

  lemma LowerMerge(h2: Heap, j: nat, bp: nat)
    requires j + 1 < |h2.ring| && h2.ring[j] in h2.mem && h2.ring[j + 1] == bp && bp in h2.mem
    requires j == 0 ==> h2.ring[0] + h2.mem[h2.ring[0]].size != bp
    ensures var p, h3 := h2.ring[j], JoinAt(h2, j);
            && j < |h3.ring| && h3.ring[j] == p
            && h3.mem == if p + h2.mem[p].size == bp
              then h2.mem[p := Header(h2.mem[bp].ptr, h2.mem[p].size + h2.mem[bp].size)]
                         else h2.mem
  {
    assert Touching(h2.mem, h2.ring, j) <==> h2.ring[j] + h2.mem[h2.ring[j]].size == bp;
  }

  /** free gives back all of the block. */
  lemma FreedCovers(base: nat, h: Heap, j: nat, bp: nat)
    requires HeapOk(base, h) && Merged(h.mem, h.ring) && bp in h.used && Between(h.ring, j, bp)
    ensures h.ring[j] in h.mem && bp in h.mem && HeapOk(base, Freed(h, j, bp))
    ensures exists k | 1 <= k < |Freed(h, j, bp).ring| ::
              var r := Freed(h, j, bp);
              r.ring[k] in r.mem && r.ring[k] <= bp && bp + h.mem[bp].size <= r.ring[k] + r.mem[r.ring[k]].size
  {
    FreedOk(base, h, j, bp);
    FreeCodeCorrect(base, h, j, bp);
    var r, p := Freed(h, j, bp), h.ring[j];
    var k := if p + h.mem[p].size == bp && j >= 1 then j else j + 1;
    FreedAt(base, h, j, bp);
    assert r.ring[k] in r.mem;
  }

  lemma FreedAt(base: nat, h: Heap, j: nat, bp: nat)
    requires HeapOk(base, h) && bp in h.used && Between(h.ring, j, bp)
    ensures h.ring[j] in h.mem && bp in h.mem
    ensures var r, p := Freed(h, j, bp), h.ring[j];
            if j >= 1 && p + h.mem[p].size == bp then p in r.mem && r.mem[p].size >= h.mem[p].size + h.mem[bp].size
            else j + 1 < |r.ring| && r.ring[j + 1] == bp && bp in r.mem && r.mem[bp].size >= h.mem[bp].size
  {
    FitsBetween(base, h.mem, h.ring, h.used, h.owner, j, bp);
    hide BlocksOk;
    var p, q := h.ring[j], Next(h.ring, j);
    var h1 := InsertAt(h, j, bp);
    assert h1.ring[j] == p && h1.ring[j + 1] == bp && (j + 1 < |h.ring| ==> h1.ring[j + 2] == q);
    var h2 := JoinAt(h1, j + 1);
    assert h2.ring[j] == p && h2.ring[j + 1] == bp && h2.mem[bp].size >= h.mem[bp].size
      && h2.mem[p].size == h.mem[p].size;
  }

  // ---- morecore ----

  /** n units starting at a have never been handed to the allocator. */
  ghost predicate Fresh(base: nat, owner: map<nat, nat>, a: nat, n: nat) {
    a > base && forall c: nat | Within(c, a, n) :: c !in owner
  }

  function Grown(mem: Memory, a: nat, n: nat): Memory {
    mem[a := if a in mem then mem[a].(size := n) else Header(0, n)]
  }

  predicate Within(c: nat, a: nat, n: nat) {
    a <= c < a + n
  }

  /** The n units starting at a. */
  ghost function Region(a: nat, n: nat): set<nat> {
    set c: nat | a <= c < a + n && Within(c, a, n)
  }

  function GrownOwner(owner: map<nat, nat>, a: nat, n: nat): map<nat, nat> {
    owner + map c: nat | a <= c < a + n && Within(c, a, n) :: a
  }

  lemma GrowOk(base: nat, h: Heap, a: nat, n: nat)
    requires HeapOk(base, h) && Merged(h.mem, h.ring) && Fresh(base, h.owner, a, n) && n >= 1
    ensures a !in h.used && a !in h.ring
    ensures var g := Heap(Grown(h.mem, a, n), h.ring, h.used + {a}, GrownOwner(h.owner, a, n));
            HeapOk(base, g) && Merged(g.mem, g.ring)
  {
    var g := Heap(Grown(h.mem, a, n), h.ring, h.used + {a}, GrownOwner(h.owner, a, n));
    NotABlock(base, h, a);
    assert forall i | 0 <= i < |h.ring| :: h.ring[i] in h.ring && g.mem[h.ring[i]] == h.mem[h.ring[i]];
    assert RingOk(base, g.mem, g.ring);
    forall i: nat ensures Touching(g.mem, g.ring, i) ==> Touching(h.mem, h.ring, i) {
    }
    GrowBlocks(base, h, a, n);
  }

  lemma GrownKept(base: nat, h: Heap, a: nat, n: nat)
    requires HeapOk(base, h) && Fresh(base, h.owner, a, n) && n >= 1
    ensures Kept(h.used, h.mem, Grown(h.mem, a, n))
  {
    KeptStart(base, h);
    assert Within(a, a, n);
    KeptWrite(base, h, h.used, h.mem, a, Grown(h.mem, a, n)[a]);
  }

  lemma NotABlock(base: nat, h: Heap, a: nat)
    requires HeapOk(base, h) && a > base && a !in h.owner
    ensures !IsBlock(base, h.ring, h.used, a) && a !in h.ring
  {
    assert !Owns(h.owner, a, a);
    if IsBlock(base, h.ring, h.used, a) {
      assert false;
    }
  }

  lemma GrowBlocks(base: nat, h: Heap, a: nat, n: nat)
    requires HeapOk(base, h) && Fresh(base, h.owner, a, n) && n >= 1
    requires !IsBlock(base, h.ring, h.used, a) && a !in h.ring
    ensures BlocksOk(base, Grown(h.mem, a, n), h.ring, h.used + {a}, GrownOwner(h.owner, a, n))
  {
    hide RingOk;
    var mem', owner' := Grown(h.mem, a, n), GrownOwner(h.owner, a, n);
    forall b: nat | IsBlock(base, h.ring, h.used + {a}, b) ensures Extent(mem', owner', b) {
      if b != a { assert Extent(h.mem, h.owner, b) by { assert IsBlock(base, h.ring, h.used, b); } }
      forall c: nat ensures Owns(owner', c, b) <==> b <= c < b + mem'[b].size {
        assert c in h.owner ==> IsBlock(base, h.ring, h.used, h.owner[c]);
        assert Owns(owner', c, b) <==> if b == a then a <= c < a + n else Owns(h.owner, c, b);
      }
    }
    forall c | c in owner' ensures IsBlock(base, h.ring, h.used + {a}, owner'[c]) {
      assert c in h.owner ==> IsBlock(base, h.ring, h.used, h.owner[c]);
    }
  }

  // ---- The allocator ----

  /** Unit c was not written. */
  predicate Untouched(mem: Memory, mem': Memory, c: nat) {
    (c in mem' <==> c in mem) && (c in mem ==> mem'[c] == mem[c])
  }

  /** No unit of these blocks was written, neither the header nor what the caller got. */
  ghost predicate Kept(blocks: set<nat>, mem: Memory, mem': Memory) {
    forall u | u in blocks :: BlockKept(mem, mem', u)
  }

  ghost predicate BlockKept(mem: Memory, mem': Memory, u: nat) {
    u in mem && mem[u].size >= 1 && forall c: nat | u <= c < u + mem[u].size :: Untouched(mem, mem', c)
  }

  /** A write to a unit of no such block keeps them. */
  lemma KeptWrite(base: nat, h: Heap, blocks: set<nat>, mem: Memory, c: nat, v: Header)
    requires HeapOk(base, h) && blocks <= h.used && Kept(blocks, h.mem, mem)
    requires forall u | u in blocks :: !Owns(h.owner, c, u)
    ensures Kept(blocks, h.mem, mem[c := v])
  {
    hide RingOk;
    var mem' := mem[c := v];
    forall u | u in blocks ensures BlockKept(h.mem, mem', u) {
      assert BlockKept(h.mem, mem, u) && IsBlock(base, h.ring, h.used, u) && Extent(h.mem, h.owner, u);
      forall d: nat | u <= d < u + h.mem[u].size ensures Untouched(h.mem, mem', d) {
        assert Untouched(h.mem, mem, d) && Owns(h.owner, d, u);
      }
    }
  }

  /** No allocated block has a unit of a free one, nor the empty block at the base. */
  lemma FreeUnit(base: nat, h: Heap, k: nat, c: nat)
    requires HeapOk(base, h) && k < |h.ring| && h.ring[k] in h.mem
    requires c == h.ring[k] || h.ring[k] <= c < h.ring[k] + h.mem[h.ring[k]].size
    ensures forall u | u in h.used :: !Owns(h.owner, c, u)
  {
    forall u | u in h.used ensures !Owns(h.owner, c, u) {
      assert IsBlock(base, h.ring, h.used, u) && Extent(h.mem, h.owner, u);
      var b := h.ring[k];
      if b != base {
        assert b in h.ring && IsBlock(base, h.ring, h.used, b) && Extent(h.mem, h.owner, b);
        NonEmpty(base, h, b);
        assert Owns(h.owner, c, b);
      }
    }
  }

  const HEADER_BYTES := 16
  const MIN_GROWTH := 4096

  /** malloc's unit count: the bytes rounded up, plus one unit for the header. */
  function Units(nbytes: nat): nat {
    (nbytes + HEADER_BYTES - 1) / HEADER_BYTES + 1
  }

  /** The units after the header hold the bytes asked for, with less than one unit to spare. */
  lemma UnitsSuffice(nbytes: nat)
    ensures Units(nbytes) >= 1 && nbytes <= (Units(nbytes) - 1) * HEADER_BYTES < nbytes + HEADER_BYTES
  {
  }

  /** Two different blocks, free or allocated, have no unit in common, and every
      unit obtained from the system lies in some block. */
  lemma BlocksPartition(base: nat, h: Heap, x: nat, y: nat, c: nat)
    requires HeapOk(base, h) && IsBlock(base, h.ring, h.used, x) && IsBlock(base, h.ring, h.used, y) && x != y
    ensures x in h.mem && y in h.mem && (x + h.mem[x].size <= y || y + h.mem[y].size <= x)
    ensures c in h.owner <==> exists b: nat ::
      IsBlock(base, h.ring, h.used, b) && b in h.mem && b <= c < b + h.mem[b].size
  {
    hide RingOk;
    assert Extent(h.mem, h.owner, x) && Extent(h.mem, h.owner, y);
    assert Owns(h.owner, y, x) ==> !Owns(h.owner, y, y);
    assert Owns(h.owner, x, y) ==> !Owns(h.owner, x, x);
    NonEmpty(base, h, x);
    NonEmpty(base, h, y);
    if c in h.owner {
      var b := h.owner[c];
      assert IsBlock(base, h.ring, h.used, b) && Owns(h.owner, c, b);
    }
    forall b: nat | IsBlock(base, h.ring, h.used, b) && b in h.mem && b <= c < b + h.mem[b].size ensures c in h.owner {
      assert Extent(h.mem, h.owner, b);
      assert Owns(h.owner, c, b);
    }
  }

  lemma NonEmpty(base: nat, h: Heap, x: nat)
    requires HeapOk(base, h) && IsBlock(base, h.ring, h.used, x)
    ensures x in h.mem && h.mem[x].size >= 1
  {
    if x !in h.used {
      var k :| 0 <= k < |h.ring| && h.ring[k] == x;
    }
  }

  /** What morecore asks for: what is needed, and at least 4096 units. */
  function Growth(n: nat): (r: nat)
    ensures r >= n && r >= 4096 && (n >= 4096 ==> r == n)
  {
    if n < MIN_GROWTH then MIN_GROWTH else n
  }

  /** The position after m on a ring of n. */
  function After(m: nat, n: nat): nat {
    if m + 1 < n then m + 1 else 0
  }

  /** From position m to position f going around the ring. */
  function Distance(m: nat, f: nat, n: nat): int {
    if m <= f then f - m else f - m + n
  }

  class Allocator {
    const base: nat
    var mem: Memory
    /** Zero until the first malloc. */
    var freep: nat
    ghost var ring: seq<nat>
    ghost var used: set<nat>
    ghost var owner: map<nat, nat>

    ghost function Shape(): Heap
      reads this
    {
      Heap(mem, ring, used, owner)
    }

    ghost predicate Valid()
      reads this
    {
      && base > 0
      && if freep == 0 then ring == [] && used == {} && owner == map[]
         else freep in ring && HeapOk(base, Shape()) && Merged(mem, ring)
    }

    constructor (base: nat)
      requires base > 0
      ensures Valid() && this.base == base && used == {} && owner == map[]
    {
      this.base := base;
      mem, freep, ring, used, owner := map[], 0, [], {}, map[];
    }

    /** The part of malloc that takes n units from the block after position i. */
    method Take(prevp: nat, p: nat, n: nat, ghost i: nat) returns (r: nat)
      requires Valid() && freep != 0 && i < |ring| && ring[i] == prevp && n >= 1
      requires p == Next(ring, i) && p in mem && mem[p].size >= n
      modifies this
      ensures Valid() && freep != 0 && r > 0 && r - 1 !in old(used) && used == old(used) + {r - 1}
      ensures r - 1 in mem && mem[r - 1].size == n && owner.Keys == old(owner).Keys
      ensures Kept(old(used), old(mem), mem)
    {
      hide Ok;
      hide Merged;
      BaseTooSmall(base, Shape(), i, n);
      if mem[p].size == n {
        r := TakeAll(prevp, p, i);
      } else {
        r := TakeTail(prevp, p, n, i);
      }
    }

    method TakeAll(prevp: nat, p: nat, ghost i: nat) returns (r: nat)
      requires Valid() && freep != 0 && i + 1 < |ring| && ring[i] == prevp && p == ring[i + 1] && p in mem
      modifies this
      ensures Valid() && freep != 0 && r == p + 1 && p !in old(used) && used == old(used) + {p}
      ensures p in mem && mem[p] == old(mem)[p] && owner == old(owner)
      ensures Kept(old(used), old(mem), mem)
    {
      hide Ok;
      hide Merged;
      RingFacts(base, Shape());
      UnlinkHeap(base, Shape(), i + 1);
      assert prevp in ring;
      KeptStart(base, Shape());
      FreeUnit(base, Shape(), i, prevp);
      KeptWrite(base, Shape(), used, mem, prevp, mem[prevp].(ptr := mem[p].ptr));
      mem := mem[prevp := mem[prevp].(ptr := mem[p].ptr)];
      ring, used := Remove(ring, i + 1), used + {p};
      freep := prevp;
      r := p + 1;
    }

    method TakeTail(prevp: nat, p: nat, n: nat, ghost i: nat) returns (r: nat)
      requires Valid() && freep != 0 && i + 1 < |ring| && ring[i] == prevp && p == ring[i + 1] && p in mem
      requires 1 <= n < mem[p].size
      modifies this
      ensures Valid() && freep != 0 && r > 0 && r - 1 !in old(used) && used == old(used) + {r - 1}
      ensures r - 1 in mem && mem[r - 1].size == n && owner.Keys == old(owner).Keys
      ensures Kept(old(used), old(mem), mem)
    {
      hide Ok;
      hide Merged;
      RingFacts(base, Shape());
      CarveHeap(base, Shape(), i + 1, n);
      assert p in ring;
      var q := p + mem[p].size - n;
      CarveKept(base, Shape(), i + 1, n);
      mem := mem[p := mem[p].(size := mem[p].size - n)];
      mem := mem[q := if q in mem then mem[q].(size := n) else Header(0, n)];
      used, owner := used + {q}, CarvedOwner(owner, p, q);
      freep := prevp;
      r := q + 1;
    }

    /** morecore: at least 4096 fresh units join the free blocks. */
    method Morecore(nu: nat, a: nat)
      requires Valid() && freep != 0 && nu >= 1 && Fresh(base, owner, a, Growth(nu))
      modifies this
      ensures Valid() && freep != 0 && used == old(used)
      ensures owner.Keys == old(owner).Keys + Region(a, Growth(nu))
      ensures Kept(used, old(mem), mem)
      ensures SomeFits(Shape(), nu)
    {
      hide Ok;
      hide Merged;
      ghost var h := Shape();
      var n := Growth(nu);
      GrowOk(base, h, a, n);
      RingFacts(base, h);
      GrownKept(base, h, a, n);
      mem := Grown(mem, a, n);
      used, owner := used + {a}, GrownOwner(owner, a, n);
      Free(a + 1);
      assert used == h.used;
      KeptTrans(used, h.mem, Grown(h.mem, a, n), mem);
    }

    /** malloc. `brk` is what sbrk would return: None for failure, else fresh units.
        The search asks for more memory at most once, and only if no free block
        fits; it fails only if sbrk does. */
    method Malloc(nbytes: nat, brk: Option<nat>) returns (r: nat, grew: bool)
      requires Valid() && (nbytes + 31) < 0x8000_0000
      requires brk.Some? ==> Fresh(base, owner, brk.value, Growth(Units(nbytes)))
      modifies this
      ensures Valid()
      ensures r != 0 ==>
                && r - 1 !in old(used) && used == old(used) + {r - 1}
                && r - 1 in mem && mem[r - 1].size == Units(nbytes)
      ensures r == 0 ==> brk.None? && used == old(used)
      ensures Kept(old(used), old(mem), mem)
      ensures grew ==> brk.Some?
      ensures owner.Keys == old(owner).Keys +
                if grew then Region(brk.value, Growth(Units(nbytes))) else {}
      ensures SomeFits(old(Shape()), Units(nbytes)) ==> r != 0 && !grew
    {
      hide Ok;
      hide Merged;
      hide AllSmall;
      hide SomeFits;
      hide Kept;
      hide Region;
      hide Distance;
      hide After;
      hide Next;
      hide Units;
      hide Fresh;
      hide Progress;
      UnitsSuffice(nbytes);
      var n := Units(nbytes);
      ghost var h0 := Shape();
      Start(n, brk);
      ghost var f :| 0 <= f < |ring| && ring[f] == freep;
      RingAt(base, Shape(), f);
      AllSmallStart(Shape(), n, f);
      var prevp := freep;
      var p := mem[prevp].ptr;
      ghost var i, m := f, After(f, |ring|);
      grew := false;
      while true
        invariant Valid() && freep != 0
        invariant 0 <= f < |ring| && ring[f] == freep && 0 <= i < |ring| && ring[i] == prevp
        invariant 0 <= m < |ring| && m == After(i, |ring|) && p == ring[m] == Next(ring, i)
        invariant AllSmall(Shape(), n, m, f)
        invariant Progress(h0, Shape(), n, brk, grew)
        decreases !grew, if m == f then 0 else Distance(m, f, |ring|)
      {
        ghost var h := Shape();
        RingAt(base, h, m);
        if mem[p].size >= n {
          r := Take(prevp, p, n, i);
          ProgressTaken(h0, h, n, brk, grew, mem);
          return;
        }
        if p == freep {
          IndexUnique(base, h, m, f);
          AllSmallDone(h, n, f);
          if brk.None? {
            ProgressFailed(h0, h, n, brk, grew);
            return 0, false;
          }
          ProgressUngrown(h0, h, n, brk, grew);
          Morecore(n, brk.value);
          ProgressGrown(h0, h, Shape(), n, brk, grew);
          grew := true;
          p := freep;
          f :| 0 <= f < |ring| && ring[f] == freep;
          m := f;
          RingAt(base, Shape(), f);
          AllSmallStart(Shape(), n, f);
        } else {
          AllSmallStep(h, n, m, f);
          DistanceStep(m, f, |ring|);
        }
        prevp, i := p, m;
        p := mem[p].ptr;
        m := After(i, |ring|);
      }
    }

    /** malloc's first lines. */
    method Start(ghost n: nat, ghost brk: Option<nat>)
      requires Valid()
      modifies this
      ensures Valid() && freep != 0 && Progress(old(Shape()), Shape(), n, brk, false)
    {
      hide Ok;
      hide Merged;
      KeptStart(base, Shape());
      if freep == 0 {
        Initialize();
      }
    }

    /** The first malloc's set-up: a ring of the empty base block alone. */
    method Initialize()
      requires Valid() && freep == 0
      modifies this
      ensures Valid() && freep == base && used == old(used) && owner == old(owner) && ring == [base]
      ensures Kept(used, old(mem), mem)
    {
      mem := mem[base := Header(base, 0)];
      freep := base;
      ring := [base];
    }

    /** free: the block leaves the allocated ones; its units, and no others, become
        part of a free block; no unit of another allocated block is written. */
    method Free(ap: nat)
      requires Valid() && ap > 0 && ap - 1 in used
      modifies this
      ensures Valid() && freep != 0 && used == old(used) - {ap - 1} && owner.Keys == old(owner).Keys
      ensures Kept(used, old(mem), mem)
      ensures old(freep) != 0 && ap - 1 in old(mem)
      ensures exists k | 1 <= k < |ring| ::
                ring[k] in mem && ring[k] <= ap - 1 && ap - 1 + old(mem)[ap - 1].size <= ring[k] + mem[ring[k]].size
    {
      hide Ok;
      hide Merged;
      hide Freed;
      var bp := ap - 1;
      ghost var h := Shape();
      var p := FindPlace(bp);
      ghost var k: nat :| Between(ring, k, bp) && ring[k] == p;
      FreedOk(base, h, k, bp);
      FreedMerged(base, h, k, bp);
      FreeCodeCorrect(base, h, k, bp);
      FreedCovers(base, h, k, bp);
      RingFacts(base, h);
      FreeKept(base, h, k, bp);
      Splice(p, bp);
      ring, used, owner := Freed(h, k, bp).ring, Freed(h, k, bp).used, Freed(h, k, bp).owner;
      freep := p;
      RingFacts(base, Freed(h, k, bp));
    }

    /** free's search: from freep around the ring to the block that bp belongs after. */
    method FindPlace(bp: nat) returns (p: nat)
      requires Valid() && bp in used
      ensures freep != 0 && exists k: nat :: Between(ring, k, bp) && ring[k] == p
    {
      hide Ok;
      hide Merged;
      ghost var h := Shape();
      RingFacts(base, h);
      p := freep;
      ghost var k: nat :| k < |ring| && ring[k] == p;
      ghost var j := PlaceFor(ring, bp);
      while !(bp > p && bp < mem[p].ptr)
        invariant k < |ring| && p == ring[k] && mem[p].ptr == Next(ring, k)
        decreases Distance(k, j, |ring|)
      {
        if p >= mem[p].ptr && (bp > p || bp < mem[p].ptr) {
          break;
        }
        assert k != j;
        k := After(k, |ring|);
        p := mem[p].ptr;
      }
    }

    /** free after its search. */
    method Splice(p: nat, bp: nat)
      requires p in mem && bp in mem && mem[p].ptr in mem && p != bp
      modifies this`mem
      ensures mem == FreeCode(old(mem), p, bp)
    {
      var q := mem[p].ptr;
      if bp + mem[bp].size == q {
        mem := mem[bp := Header(mem[q].ptr, mem[bp].size + mem[q].size)];
      } else {
        mem := mem[bp := mem[bp].(ptr := q)];
      }
      if p + mem[p].size == bp {
        mem := mem[p := Header(mem[bp].ptr, mem[p].size + mem[bp].size)];
      } else {
        mem := mem[p := mem[p].(ptr := bp)];
      }
    }
  }

  /** Position x lies between f (exclusive) and m (exclusive) going around the ring. */
  predicate Passed(x: int, m: int, f: int) {
    if m <= f then x < m || x > f else f < x < m
  }

  /** Every block that the search has passed is too small. */
  ghost predicate AllSmall(h: Heap, n: nat, m: int, f: int) {
    forall x | 0 <= x < |h.ring| && Passed(x, m, f) :: h.ring[x] in h.mem && h.mem[h.ring[x]].size < n
  }

  ghost predicate SomeFits(h: Heap, n: nat) {
    exists k :: 0 <= k < |h.ring| && h.ring[k] in h.mem && h.mem[h.ring[k]].size >= n
  }

  lemma BaseTooSmall(base: nat, h: Heap, i: nat, n: nat)
    requires HeapOk(base, h) && i < |h.ring| && n >= 1
    requires Next(h.ring, i) in h.mem && h.mem[Next(h.ring, i)].size >= n
    ensures i + 1 < |h.ring|
  {
    assert h.mem[base].size == 0;
  }

  lemma FreeKept(base: nat, h: Heap, k: nat, bp: nat)
    requires HeapOk(base, h) && k < |h.ring| && bp in h.used && bp in h.mem
    requires h.ring[k] in h.mem && h.mem[h.ring[k]].ptr in h.mem && h.ring[k] != bp
    ensures Kept(h.used - {bp}, h.mem, FreeCode(h.mem, h.ring[k], bp))
  {
    hide RingOk;
    var p, blocks := h.ring[k], h.used - {bp};
    var mem' := FreeCode(h.mem, p, bp);
    KeptStart(base, h);
    assert Extent(h.mem, h.owner, bp) by { assert IsBlock(base, h.ring, h.used, bp); }
    NonEmpty(base, h, bp);
    assert Owns(h.owner, bp, bp);
    FreeUnit(base, h, k, p);
    KeptWrite(base, h, blocks, h.mem, bp, mem'[bp]);
    KeptWrite(base, h, blocks, h.mem[bp := mem'[bp]], p, mem'[p]);
    assert mem' == h.mem[bp := mem'[bp]][p := mem'[p]];
  }

  lemma UnlinkHeap(base: nat, h: Heap, k: nat)
    requires HeapOk(base, h) && Merged(h.mem, h.ring) && 1 <= k < |h.ring|
    ensures h.ring[k - 1] in h.mem && h.ring[k] in h.mem && h.ring[k] !in h.used && h.ring[k] > base
    ensures var g := Heap(Unlinked(h.mem, h.ring, k), Remove(h.ring, k), h.used + {h.ring[k]}, h.owner);
            HeapOk(base, g) && Merged(g.mem, g.ring) && g.ring[k - 1] == h.ring[k - 1]
              && g.mem[h.ring[k]] == h.mem[h.ring[k]]
  {
    UnlinkOk(base, h.mem, h.ring, h.used, h.owner, k);
    NotBase(base, h.mem, h.ring, k);
    assert h.ring[k] in h.ring && h.ring[k - 1] != h.ring[k];
    var mem', ring' := Unlinked(h.mem, h.ring, k), Remove(h.ring, k);
    hide Ok;
    forall i: nat | Touching(mem', ring', i) ensures Touching(h.mem, h.ring, Shift(i, k)) {
      UnlinkTouching(base, h.mem, h.ring, k, i);
    }
  }

  lemma CarveKept(base: nat, h: Heap, k: nat, n: nat)
    requires HeapOk(base, h) && k < |h.ring| && h.ring[k] in h.mem && 1 <= n < h.mem[h.ring[k]].size
    ensures Kept(h.used, h.mem, Carved(h.mem, h.ring, k, n))
  {
    hide Ok;
    var p := h.ring[k];
    var q := p + h.mem[p].size - n;
    var mem := h.mem[p := h.mem[p].(size := h.mem[p].size - n)];
    KeptStart(base, h);
    FreeUnit(base, h, k, p);
    KeptWrite(base, h, h.used, h.mem, p, mem[p]);
    FreeUnit(base, h, k, q);
    KeptWrite(base, h, h.used, mem, q, if q in mem then mem[q].(size := n) else Header(0, n));
  }

  lemma CarveHeap(base: nat, h: Heap, k: nat, n: nat)
    requires HeapOk(base, h) && Merged(h.mem, h.ring) && 1 <= k < |h.ring|
    requires h.ring[k] in h.mem && 1 <= n < h.mem[h.ring[k]].size
    ensures var b := h.ring[k] + h.mem[h.ring[k]].size - n;
            && b !in h.used && b > base
            && var g := Heap(Carved(h.mem, h.ring, k, n), h.ring, h.used + {b}, CarvedOwner(h.owner, h.ring[k], b));
            && HeapOk(base, g) && Merged(g.mem, g.ring) && g.mem[b].size == n && g.owner.Keys == h.owner.Keys
  {
    hide RingOk;
    hide BlocksOk;
    CarveOk(base, h.mem, h.ring, h.used, h.owner, k, n);
    var b := h.ring[k] + h.mem[h.ring[k]].size - n;
    CarveFresh(base, h.mem, h.ring, h.used, h.owner, k, b);
    var mem' := Carved(h.mem, h.ring, k, n);
    forall i: nat | Touching(mem', h.ring, i) ensures Touching(h.mem, h.ring, i) {
      CarveTouching(base, h.mem, h.ring, k, n, i);
    }
  }

  lemma AllSmallStep(h: Heap, n: nat, m: nat, f: nat)
    requires AllSmall(h, n, m, f) && m < |h.ring| && f < |h.ring| && m != f
    requires h.ring[m] in h.mem && h.mem[h.ring[m]].size < n
    ensures AllSmall(h, n, After(m, |h.ring|), f)
  {
  }

  lemma AllSmallDone(h: Heap, n: nat, f: nat)
    requires AllSmall(h, n, f, f) && f < |h.ring| && h.ring[f] in h.mem && h.mem[h.ring[f]].size < n
    ensures !SomeFits(h, n)
  {
  }

  lemma AllSmallStart(h: Heap, n: nat, f: nat)
    requires f < |h.ring|
    ensures AllSmall(h, n, After(f, |h.ring|), f)
  {
  }

  lemma RingAt(base: nat, h: Heap, k: nat)
    requires HeapOk(base, h) && k < |h.ring|
    ensures h.ring[k] in h.mem && h.mem[h.ring[k]].ptr == Next(h.ring, k)
    ensures After(k, |h.ring|) < |h.ring| && h.ring[After(k, |h.ring|)] == Next(h.ring, k)
  {
    var next := Next(h.ring, k);
  }

  lemma DistanceStep(m: nat, f: nat, n: nat)
    requires m < n && f < n && m != f
    ensures 0 <= Distance(After(m, n), f, n) < Distance(m, f, n)
  {
  }

  lemma KeptStart(base: nat, h: Heap)
    requires HeapOk(base, h) || h.used == {}
    ensures Kept(h.used, h.mem, h.mem)
  {
  }

  /** How far malloc's search has come from heap h0: it has asked for more memory
      only if nothing fitted, and then something fits. */
  ghost predicate Progress(h0: Heap, h: Heap, n: nat, brk: Option<nat>, grew: bool) {
    && h.used == h0.used && Kept(h0.used, h0.mem, h.mem)
    && if grew then
         && brk.Some? && h.owner.Keys == h0.owner.Keys + Region(brk.value, Growth(n))
         && !SomeFits(h0, n) && SomeFits(h, n)
       else h.owner == h0.owner && (SomeFits(h0, n) ==> SomeFits(h, n))
  }

  lemma ProgressGrown(h0: Heap, h1: Heap, h2: Heap, n: nat, brk: Option<nat>, grew: bool)
    requires Progress(h0, h1, n, brk, grew) && !SomeFits(h1, n) && brk.Some?
    requires h2.used == h1.used && Kept(h1.used, h1.mem, h2.mem)
    requires h2.owner.Keys == h1.owner.Keys + Region(brk.value, Growth(n)) && SomeFits(h2, n)
    ensures !grew && Progress(h0, h2, n, brk, true)
  {
    hide Kept;
    KeptTrans(h0.used, h0.mem, h1.mem, h2.mem);
  }

  lemma ProgressUngrown(h0: Heap, h: Heap, n: nat, brk: Option<nat>, grew: bool)
    requires Progress(h0, h, n, brk, grew) && !SomeFits(h, n)
    ensures !grew && h.owner == h0.owner && h.used == h0.used
  {
  }

  lemma ProgressFailed(h0: Heap, h: Heap, n: nat, brk: Option<nat>, grew: bool)
    requires Progress(h0, h, n, brk, grew) && !SomeFits(h, n)
    ensures h.owner.Keys == h0.owner.Keys + {} && h.used == h0.used && Kept(h0.used, h0.mem, h.mem) && !SomeFits(h0, n)
  {
  }

  lemma ProgressTaken(h0: Heap, h: Heap, n: nat, brk: Option<nat>, grew: bool, mem: Memory)
    requires Progress(h0, h, n, brk, grew) && Kept(h.used, h.mem, mem)
    ensures h.used == h0.used && Kept(h0.used, h0.mem, mem)
    ensures grew ==> brk.Some? && !SomeFits(h0, n)
    ensures h.owner.Keys == h0.owner.Keys + if grew then Region(brk.value, Growth(n)) else {}
  {
    hide Kept;
    KeptTrans(h0.used, h0.mem, h.mem, mem);
  }

  lemma KeptTrans(blocks: set<nat>, m0: Memory, m1: Memory, m2: Memory)
    requires Kept(blocks, m0, m1) && Kept(blocks, m1, m2)
    ensures Kept(blocks, m0, m2)
  {
    forall u | u in blocks ensures BlockKept(m0, m2, u) {
      assert BlockKept(m0, m1, u) && BlockKept(m1, m2, u) && Untouched(m0, m1, u);
      forall c: nat | u <= c < u + m0[u].size ensures Untouched(m0, m2, c) {
        assert Untouched(m0, m1, c) && Untouched(m1, m2, c);
      }
    }
  }

  lemma IndexUnique(base: nat, h: Heap, m: nat, f: nat)
    requires HeapOk(base, h) && m < |h.ring| && f < |h.ring| && h.ring[m] == h.ring[f]
    ensures m == f
  {
  }

  lemma RingFacts(base: nat, h: Heap)
    requires HeapOk(base, h)
    ensures |h.ring| >= 1 && h.ring[0] == base
    ensures forall k | 0 <= k < |h.ring| :: h.ring[k] in h.mem && base <= h.ring[k]
    ensures forall k {:trigger Next(h.ring, k)} | 0 <= k < |h.ring| ::
      h.mem[h.ring[k]].ptr == Next(h.ring, k) && Next(h.ring, k) in h.mem
    ensures Ascending(h.ring)
    ensures forall u | u in h.used :: u > base && u !in h.ring && u in h.mem
  {
  }
}

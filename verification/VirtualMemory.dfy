/** The operations of kernel/vm.c and kernel/kalloc.c on physical memory, proved
    against the page-table trees of PageTable. */
module VirtualMemory {
  import opened PageTable
  import opened FreeTree

  // ---- How operations change memory ----

  predicate KeepsData(o: Owner) {
    o.Held? || o.Leaf? || o.Shared?
  }

  predicate OwnerGrew(o: Owner, o': Owner, r: nat, a: nat, b: nat) {
    || o' == o
    || (o.Free? && o'.Table? && o'.root == r)
    || (o.Free? && o'.Leaf? && o'.root == r && a <= o'.vpn < b)
  }

  /** Pages came off the free list to be tables of the tree at r, or its user pages
      from a to b; nothing else changed, and no page in use lost its contents. */
  ghost predicate Grew(m: Mem, m': Mem, r: nat, a: nat, b: nat) {
    && m'.owner.Keys == m.owner.Keys
    && (forall p | p in m.owner :: OwnerGrew(m.owner[p], m'.owner[p], r, a, b))
    && (forall p | p in m.owner && KeepsData(m.owner[p]) :: p in m.pages && p in m'.pages && m'.pages[p] == m.pages[p])
  }

  lemma GrewTrans(m: Mem, m1: Mem, m2: Mem, r: nat, a: nat, b: nat)
    requires Grew(m, m1, r, a, b) && Grew(m1, m2, r, a, b)
    ensures Grew(m, m2, r, a, b)
  {
  }

  lemma SameMapTrans(m: Mem, m1: Mem, m2: Mem)
    requires SameMap(m, m1) && SameMap(m1, m2)
    ensures SameMap(m, m2)
  {
    forall r: nat, vpn: nat | IsRoot(m, r) && vpn < MAXVPN ensures SameAt(m, m2, r, vpn) {
      assert SameAt(m, m1, r, vpn) && SameAt(m1, m2, r, vpn);
    }
  }

  /** walk's new table: a page off the free list, zeroed, hung into entry i of table t. */
  function TableAdded(m: Mem, t: nat, i: nat): Mem
    requires m.free != [] && IsTable(m, t) && m.owner[t].level > 0 && t in m.pages && i < |m.pages[t]| && t != m.free[0]
  {
    Linked(Stored(Allocated(m), m.free[0], Filled(0)), t, i, m.free[0])
  }

  /** A page off the free list, zeroed. */
  lemma ZeroedPage(m: Mem)
    requires Inv(m) && m.free != []
    ensures var q, m2 := m.free[0], Stored(Allocated(m), m.free[0], Filled(0));
            && q != 0 && Is(m, q, Free) && Is(m2, q, Held) && (forall j: nat :: Word(m2, q, j) == 0)
            && q in m.pages && q in Allocated(m).pages
            && Inv(m2) && SameMap(m, m2)
            && (forall t: nat, i: nat | IsTable(m, t) :: Word(m2, t, i) == Word(m, t, i))
  {
    hide Translate;
    var q := m.free[0];
    AllocatedOk(m);
    var m1 := Allocated(m);
    StoredOk(m1, q, Filled(0));
    SameMapTrans(m, m1, Stored(m1, q, Filled(0)));
  }

  lemma HeldBecomesTable(m: Mem, m2: Mem, m3: Mem, q: nat, r: nat, t: nat)
    requires PagesOk(m) && m.free != [] && q == m.free[0] && Is(m, q, Free) && m2 == Stored(Allocated(m), q, Filled(0))
    requires m3.owner.Keys == m2.owner.Keys && q in m3.owner && m3.owner[q].Table? && m3.owner[q].root == r
    requires forall p | p in m2.owner && p != q :: m3.owner[p] == m2.owner[p]
    requires t == q || IsTable(m, t)
    requires m3.pages.Keys == m2.pages.Keys && forall p | p in m2.pages && p != t :: m3.pages[p] == m2.pages[p]
    ensures Grew(m, m3, r, 0, 0)
  {
    forall p | p in m.owner ensures OwnerGrew(m.owner[p], m3.owner[p], r, 0, 0) {
      assert p in m2.owner;
    }
    forall p | p in m.owner && KeepsData(m.owner[p]) ensures p in m.pages && p in m3.pages
      && m3.pages[p] == m.pages[p] {
      assert p != q && p != t;
    }
  }

  lemma TableAddedOk(m: Mem, t: nat, i: nat)
    requires Inv(m) && m.free != [] && IsTable(m, t) && m.owner[t].level > 0 && i < ENTRIES && Word(m, t, i) == 0
    requires InSpace(m.owner[t].level - 1, m.owner[t].prefix * 512 + i)
    ensures t in m.pages && i < |m.pages[t]| && t != m.free[0]
    ensures Inv(TableAdded(m, t, i)) && SameMap(m, TableAdded(m, t, i))
      && Grew(m, TableAdded(m, t, i), m.owner[t].root, 0, 0)
  {
    hide Translate;
    hide FreeOk;
    hide TablesOk;
    hide LeavesOk;
    hide SameMap;
    hide Grew;
    var q := m.free[0];
    ZeroedPage(m);
    var m2 := Stored(Allocated(m), q, Filled(0));
    assert Linkable(m2, t, i, q);
    LinkedOk(m2, t, i, q);
    SameMapTrans(m, m2, TableAdded(m, t, i));
    HeldBecomesTable(m, m2, TableAdded(m, t, i), q, m.owner[t].root, t);
  }

  // ---- Ranges of mappings ----

  /** The n virtual pages from a on in the tree at r map to the physical pages from
      p on; every other translation is as in m. */
  ghost predicate MapsRange(m: Mem, m': Mem, r: nat, a: nat, n: nat, p: nat, perm: nat)
    requires perm < 1024
  {
    forall s: nat, v: nat | IsRoot(m, s) && v < MAXVPN :: MapsAt(m, m', r, a, n, p, perm, s, v)
  }

  ghost predicate MapsAt(m: Mem, m': Mem, r: nat, a: nat, n: nat, p: nat, perm: nat, s: nat, v: nat)
    requires perm < 1024
  {
    && IsRoot(m', s)
    && Translate(m', s, v) == if s == r && a <= v < a + n then LeafEntry(p + (v - a), perm) else Translate(m, s, v)
  }

  /** If `own`, the n held pages from p on became the user pages from a on of the
      tree at r; apart from that only tables were added. */
  ghost predicate Claimed(m: Mem, m': Mem, r: nat, a: nat, n: nat, p: nat, own: bool) {
    && m'.owner.Keys == m.owner.Keys
    && (forall q | q in m.owner :: if own && p <= q < p + n then m'.owner[q] == Leaf(r, a + (q - p))
                                   else OwnerGrew(m.owner[q], m'.owner[q], r, 0, 0))
    && (forall q | q in m.owner && KeepsData(m.owner[q]) :: q in m.pages && q in m'.pages && m'.pages[q] == m.pages[q])
  }

  /** What mappages demands of the physical pages: held ones to be owned, or pages outside the pool. */
  ghost predicate Mappable(m: Mem, p: nat, n: nat, own: bool) {
    forall q: nat | p <= q < p + n :: if own then Is(m, q, Held) else q !in m.owner || Is(m, q, Shared)
  }

  ghost predicate Unmapped(m: Mem, r: nat, a: nat, n: nat) {
    forall v: nat | a <= v < a + n :: Translate(m, r, v) == 0
  }

  lemma MapStart(m: Mem, r: nat, a: nat, p: nat, perm: nat, own: bool)
    requires perm < 1024 && PagesOk(m)
    ensures MapsRange(m, m, r, a, 0, p, perm) && Claimed(m, m, r, a, 0, p, own)
  {
    forall s: nat, v: nat | IsRoot(m, s) && v < MAXVPN ensures MapsAt(m, m, r, a, 0, p, perm, s, v) {
    }
  }

  /** One more page mapped after a walk. */
  lemma MapStep(m: Mem, m1: Mem, m2: Mem, m3: Mem, r: nat, a: nat, k: nat, p: nat, perm: nat)
    requires perm < 1024 && MapsRange(m, m1, r, a, k, p, perm) && SameMap(m1, m2)
    requires MapChanged(m2, m3, r, a + k, LeafEntry(p + k, perm))
    ensures MapsRange(m, m3, r, a, k + 1, p, perm)
  {
    var n := k + 1;
    forall s: nat, v: nat | IsRoot(m, s) && v < MAXVPN ensures MapsAt(m, m3, r, a, n, p, perm, s, v) {
      assert MapsAt(m, m1, r, a, k, p, perm, s, v);
      assert SameAt(m1, m2, s, v);
      assert ChangedAt(m2, m3, r, a + k, LeafEntry(p + k, perm), s, v);
    }
  }

  lemma ClaimStep(m: Mem, m1: Mem, m2: Mem, m3: Mem, r: nat, a: nat, k: nat, p: nat, own: bool)
    requires Claimed(m, m1, r, a, k, p, own) && Grew(m1, m2, r, 0, 0) && Mappable(m, p, k + 1, own)
    requires LeafAdded(m2, m3, r, a + k, p + k, own)
    ensures Claimed(m, m3, r, a, k + 1, p, own)
  {
    hide OwnerGrew;
    hide Mappable;
    forall q | q in m.owner
      ensures if own && p <= q < p + (k + 1) then m3.owner[q] == Leaf(r, a + (q - p))
              else OwnerGrew(m.owner[q], m3.owner[q], r, 0, 0)
    {
      ClaimOwner(m, m1, m2, m3, r, a, k, p, own, q);
    }
    ClaimData(m, m1, m2, m3, r, a, k, p, own);
  }

  lemma ClaimOwner(m: Mem, m1: Mem, m2: Mem, m3: Mem, r: nat, a: nat, k: nat, p: nat, own: bool, q: nat)
    requires Claimed(m, m1, r, a, k, p, own) && Grew(m1, m2, r, 0, 0) && Mappable(m, p, k + 1, own)
    requires LeafAdded(m2, m3, r, a + k, p + k, own) && q in m.owner
    ensures q in m3.owner
    ensures if own && p <= q < p + (k + 1) then m3.owner[q] == Leaf(r, a + (q - p))
            else OwnerGrew(m.owner[q], m3.owner[q], r, 0, 0)
  {
    assert own && p <= q < p + (k + 1) ==> Is(m, q, Held);
    assert q in m1.owner && q in m2.owner && OwnerGrew(m1.owner[q], m2.owner[q], r, 0, 0);
  }

  lemma ClaimData(m: Mem, m1: Mem, m2: Mem, m3: Mem, r: nat, a: nat, k: nat, p: nat, own: bool)
    requires Claimed(m, m1, r, a, k, p, own) && Grew(m1, m2, r, 0, 0) && LeafAdded(m2, m3, r, a + k, p + k, own)
    ensures forall q | q in m.owner && KeepsData(m.owner[q]) ::
      q in m.pages && q in m3.pages && m3.pages[q] == m.pages[q]
  {
    forall q | q in m.owner && KeepsData(m.owner[q])
      ensures q in m.pages && q in m3.pages && m3.pages[q] == m.pages[q]
    {
      assert KeepsData(m1.owner[q]);
      assert OwnerGrew(m1.owner[q], m2.owner[q], r, 0, 0);
    }
  }

  /** With `own`, held page p became the user page at v; nothing else changed hands. */
  ghost predicate LeafAdded(m: Mem, m': Mem, r: nat, v: nat, p: nat, own: bool) {
    && m'.owner.Keys == m.owner.Keys
    && (forall q | q in m.owner :: m'.owner[q] == if own && q == p then Leaf(r, v) else m.owner[q])
    && (forall q | q in m.owner && KeepsData(m.owner[q]) :: q in m.pages && q in m'.pages && m'.pages[q] == m.pages[q])
  }

  /** The n virtual pages from a on in the tree at r are not mapped any more; every
      other translation is as in m. */
  ghost predicate ClearsRange(m: Mem, m': Mem, r: nat, a: nat, n: nat) {
    forall s: nat, v: nat | IsRoot(m, s) && v < MAXVPN :: ClearsAt(m, m', r, a, n, s, v)
  }

  ghost predicate ClearsAt(m: Mem, m': Mem, r: nat, a: nat, n: nat, s: nat, v: nat) {
    IsRoot(m', s) && Translate(m', s, v) == if s == r && a <= v < a + n then 0 else Translate(m, s, v)
  }

  predicate InRange(o: Owner, r: nat, a: nat, n: nat) {
    o.Leaf? && o.root == r && a <= o.vpn < a + n
  }

  /** If `freed`, exactly the user pages from a on of the tree at r went back to the
      free list; no other page changed hands or lost its contents. */
  ghost predicate Returned(m: Mem, m': Mem, r: nat, a: nat, n: nat, freed: bool) {
    && m'.owner.Keys == m.owner.Keys
    && (forall q | q in m.owner :: m'.owner[q] == if freed && InRange(m.owner[q], r, a, n) then Free else m.owner[q])
    && (forall q | q in m.owner && KeepsData(m'.owner[q]) :: q in m.pages && q in m'.pages && m'.pages[q] == m.pages[q])
  }

  /** The n virtual pages from a on are mapped: to user pages that the tree owns, or
      (not `own`) to pages outside the pool. */
  ghost predicate MappedRange(m: Mem, r: nat, a: nat, n: nat, own: bool) {
    forall v: nat | a <= v < a + n :: MappedAt(m, r, v, own)
  }

  ghost predicate MappedAt(m: Mem, r: nat, v: nat, own: bool) {
    && Translate(m, r, v) != 0
    && if own then Is(m, Ppn(Translate(m, r, v)), Leaf(r, v))
       else Ppn(Translate(m, r, v)) !in m.owner || Is(m, Ppn(Translate(m, r, v)), Shared)
  }

  /** uvmunmap on one entry of the level-0 table t, kfree and all. */
  function Unmapping(m: Mem, t: nat, i: nat, p: nat, freed: bool): Mem
    requires t in m.pages && i < |m.pages[t]| && t != p
  {
    if freed then SetWord(Released(m, p), t, i, 0) else SetWord(m, t, i, 0)
  }

  lemma UnmappingOk(m: Mem, t: nat, i: nat, p: nat, freed: bool, r: nat, vpn: nat)
    requires Inv(m) && Is(m, t, Table(r, 0, Prefix(vpn, 0))) && vpn == Prefix(vpn, 0) * 512 + i && i < ENTRIES
      && vpn < MAXVPN
    requires Word(m, t, i) != 0 && Ppn(Word(m, t, i)) == p
    requires if freed then Is(m, p, Leaf(r, vpn)) else p !in m.owner || Is(m, p, Shared)
    ensures t in m.pages && i < |m.pages[t]| && t != p
    ensures Inv(Unmapping(m, t, i, p, freed)) && MapChanged(m, Unmapping(m, t, i, p, freed), r, vpn, 0)
  {
    hide Prefix;
    hide FreeOk;
    hide TablesOk;
    hide LeavesOk;
    hide MapChanged;
    hide SameMap;
    var m1 := SetWord(m, t, i, 0).(owner := if freed then m.owner[p := Held] else m.owner);
    assert LeafWrite(m, m1, t, i, 0, p, if freed then Held else Shared);
    UnmapOk(m, m1, t, i, p, if freed then Held else Shared);
    if freed {
      ReleasedOk(m1, p);
      SameUnmapping(m, t, i, p);
      ChangedThenSame(m, m1, Released(m1, p), r, vpn, 0);
    }
  }

  /** Freeing the page and clearing the entry can be done in either order. */
  lemma SameUnmapping(m: Mem, t: nat, i: nat, p: nat)
    requires t in m.pages && i < |m.pages[t]| && t != p
    ensures Released(SetWord(m, t, i, 0).(owner := m.owner[p := Held]), p) == Unmapping(m, t, i, p, true)
  {
    var x, y := Released(SetWord(m, t, i, 0).(owner := m.owner[p := Held]), p), Unmapping(m, t, i, p, true);
    assert x.pages == y.pages && x.owner == y.owner;
  }

  lemma ChangedThenSame(m: Mem, m1: Mem, m2: Mem, r: nat, vpn: nat, e: nat)
    requires MapChanged(m, m1, r, vpn, e) && SameMap(m1, m2)
    ensures MapChanged(m, m2, r, vpn, e)
  {
    forall s: nat, n: nat | IsRoot(m, s) && n < MAXVPN ensures ChangedAt(m, m2, r, vpn, e, s, n) {
      assert ChangedAt(m, m1, r, vpn, e, s, n);
      assert SameAt(m1, m2, s, n);
    }
  }

  lemma ClearStart(m: Mem, r: nat, a: nat, freed: bool)
    requires Inv(m)
    ensures ClearsRange(m, m, r, a, 0) && Returned(m, m, r, a, 0, freed)
  {
    forall s: nat, v: nat | IsRoot(m, s) && v < MAXVPN ensures ClearsAt(m, m, r, a, 0, s, v) {
    }
  }

  lemma ClearStep(m: Mem, m1: Mem, m2: Mem, r: nat, a: nat, k: nat)
    requires ClearsRange(m, m1, r, a, k) && MapChanged(m1, m2, r, a + k, 0)
    ensures ClearsRange(m, m2, r, a, k + 1)
  {
    var n := k + 1;
    forall s: nat, v: nat | IsRoot(m, s) && v < MAXVPN ensures ClearsAt(m, m2, r, a, n, s, v) {
      assert ClearsAt(m, m1, r, a, k, s, v);
      assert ChangedAt(m1, m2, r, a + k, 0, s, v);
    }
  }

  /** The page freed is the only one that the tree owned at that address. */
  lemma ReturnStep(m: Mem, m1: Mem, t: nat, i: nat, p: nat, freed: bool, r: nat, a: nat, k: nat)
    requires Inv(m1) && Returned(m, m1, r, a, k, freed) && IsTable(m1, t) && a + k < MAXVPN && IsRoot(m1, r)
    requires t in m1.pages && i < |m1.pages[t]| && t != p && Translate(m1, r, a + k) != 0
      && Ppn(Translate(m1, r, a + k)) == p
    requires if freed then Is(m1, p, Leaf(r, a + k)) else p !in m1.owner || Is(m1, p, Shared)
    ensures Returned(m, Unmapping(m1, t, i, p, freed), r, a, k + 1, freed)
  {
    var m2 := Unmapping(m1, t, i, p, freed);
    assert m2.owner.Keys == m1.owner.Keys;
    forall q | q in m.owner ensures m2.owner[q] == if freed && InRange(m.owner[q], r, a, k + 1) then Free
      else m.owner[q] {
      if freed && m.owner[q] == Leaf(r, a + k) {
        assert m1.owner[q] == Leaf(r, a + k);
      }
    }
  }

  lemma StillMapped(m: Mem, m1: Mem, r: nat, a: nat, k: nat, n: nat, own: bool)
    requires MappedRange(m, r, a, n, own) && ClearsRange(m, m1, r, a, k) && Returned(m, m1, r, a, k, own)
    requires k < n && IsRoot(m, r) && a + k < MAXVPN
    ensures IsRoot(m1, r) && MappedAt(m1, r, a + k, own)
  {
    assert ClearsAt(m, m1, r, a, k, r, a + k);
    assert MappedAt(m, r, a + k, own);
  }

  // ---- New user pages ----

  /** Pages that a size in bytes takes: PGROUNDUP(sz) / PGSIZE. */
  function Pages(sz: nat): nat {
    (sz + 4095) / 4096
  }

  const USER_RWX := 30

  /** What new user pages are to contain: zeroes, readable, writable and executable
      by the user; or copies, flags included, of a tree's pages in a memory. */
  datatype Contents = Zeroed | CopyOf(mem: Mem, tree: nat)

  function WantedFlags(c: Contents, v: nat): nat {
    match c
    case Zeroed => USER_RWX + 1
    case CopyOf(mem, tree) => Flags(Translate(mem, tree, v))
  }

  function WantedPage(c: Contents, v: nat): Page {
    match c
    case Zeroed => Filled(0)
    case CopyOf(mem, tree) =>
      if Ppn(Translate(mem, tree, v)) in mem.pages then mem.pages[Ppn(Translate(mem, tree, v))] else Filled(0)
  }

  /** In the tree at r, v maps to a page that the tree owns, with these flags and contents. */
  ghost predicate HoldsAt(m: Mem, r: nat, v: nat, flags: nat, page: Page) {
    && Translate(m, r, v) != 0 && Flags(Translate(m, r, v)) == flags
    && Is(m, Ppn(Translate(m, r, v)), Leaf(r, v))
    && Ppn(Translate(m, r, v)) in m.pages && m.pages[Ppn(Translate(m, r, v))] == page
  }

  /** The n virtual pages from a on in the tree at r have the flags and contents
      wanted; every other translation is as in m. */
  ghost predicate Extended(m: Mem, m': Mem, r: nat, a: nat, n: nat, want: Contents) {
    forall s: nat, v: nat | IsRoot(m, s) && v < MAXVPN :: ExtendedAt(m, m', r, a, n, want, s, v)
  }

  ghost predicate ExtendedAt(m: Mem, m': Mem, r: nat, a: nat, n: nat, want: Contents, s: nat, v: nat) {
    && IsRoot(m', s)
    && if s == r && a <= v < a + n then HoldsAt(m', r, v, WantedFlags(want, v), WantedPage(want, v))
       else Translate(m', s, v) == Translate(m, s, v)
  }

  lemma ExtendStart(m: Mem, r: nat, a: nat, want: Contents)
    requires Inv(m)
    ensures Extended(m, m, r, a, 0, want) && Grew(m, m, r, a, a)
  {
    forall s: nat, v: nat | IsRoot(m, s) && v < MAXVPN ensures ExtendedAt(m, m, r, a, 0, want, s, v) {
    }
  }

  /** A new page at v: what one round of uvmalloc or uvmcopy adds. */
  ghost predicate Added(m: Mem, m': Mem, r: nat, v: nat, flags: nat, page: Page) {
    && Grew(m, m', r, v, v + 1)
    && HoldsAt(m', r, v, flags, page)
    && MapChanged(m, m', r, v, Translate(m', r, v))
  }

  lemma ExtendStep(m: Mem, m1: Mem, m2: Mem, r: nat, a: nat, k: nat, want: Contents)
    requires PagesOk(m1) && Extended(m, m1, r, a, k, want)
    requires Added(m1, m2, r, a + k, WantedFlags(want, a + k), WantedPage(want, a + k))
    ensures Extended(m, m2, r, a, k + 1, want)
  {
    var n := k + 1;
    forall s: nat, v: nat | IsRoot(m, s) && v < MAXVPN ensures ExtendedAt(m, m2, r, a, n, want, s, v) {
      assert ExtendedAt(m, m1, r, a, k, want, s, v);
      assert ChangedAt(m1, m2, r, a + k, Translate(m2, r, a + k), s, v);
      if s == r && a <= v < a + k {
        var q := Ppn(Translate(m1, r, v));
        assert m1.owner[q] == Leaf(r, v) && KeepsData(m1.owner[q]);
      }
    }
  }

  lemma GrewWider(m: Mem, m1: Mem, m2: Mem, r: nat, a: nat, k: nat)
    requires Grew(m, m1, r, a, a + k) && Grew(m1, m2, r, a + k, a + k + 1)
    ensures Grew(m, m2, r, a, a + k + 1)
  {
  }

  lemma NotOwned(m: Mem, r: nat, a: nat, k: nat, q: nat)
    requires Inv(m) && Unmapped(m, r, a, k) && q in m.owner
    ensures !InRange(m.owner[q], r, a, k)
  {
    assert m.owner[q].Leaf? ==> Translate(m, m.owner[q].root, m.owner[q].vpn) != 0;
  }

  /** Giving back exactly what was taken: the tree maps what it mapped before, and
      the only pages not back on the free list are tables. */
  lemma UndoExtension(m: Mem, m1: Mem, m2: Mem, r: nat, a: nat, k: nat, want: Contents)
    requires Inv(m) && IsRoot(m, r) && Unmapped(m, r, a, k) && a + k <= MAXVPN
    requires Extended(m, m1, r, a, k, want) && Grew(m, m1, r, a, a + k)
    requires ClearsRange(m1, m2, r, a, k) && Returned(m1, m2, r, a, k, true)
    ensures SameMap(m, m2) && Grew(m, m2, r, 0, 0)
  {
    forall s: nat, v: nat | IsRoot(m, s) && v < MAXVPN ensures SameAt(m, m2, s, v) {
      assert ExtendedAt(m, m1, r, a, k, want, s, v);
      assert ClearsAt(m1, m2, r, a, k, s, v);
    }
    forall q | q in m.owner ensures OwnerGrew(m.owner[q], m2.owner[q], r, 0, 0)
      && (KeepsData(m.owner[q]) ==> m2.owner[q] == m.owner[q]) {
      assert OwnerGrew(m.owner[q], m1.owner[q], r, a, a + k);
      NotOwned(m, r, a, k, q);
    }
  }

  lemma ExtendedIsMapped(m: Mem, m1: Mem, r: nat, a: nat, k: nat, want: Contents)
    requires Extended(m, m1, r, a, k, want) && IsRoot(m, r) && a + k <= MAXVPN
    ensures IsRoot(m1, r) && MappedRange(m1, r, a, k, true)
  {
    assert ExtendedAt(m, m1, r, a, k, want, r, 0);
    forall v: nat | a <= v < a + k ensures MappedAt(m1, r, v, true) {
      assert ExtendedAt(m, m1, r, a, k, want, r, v);
    }
  }

  lemma StillFree(m: Mem, m1: Mem, r: nat, a: nat, k: nat, n: nat, want: Contents)
    requires Extended(m, m1, r, a, k, want) && Unmapped(m, r, a, n) && k < n && IsRoot(m, r) && a + k < MAXVPN
    ensures IsRoot(m1, r) && Translate(m1, r, a + k) == 0
  {
    assert ExtendedAt(m, m1, r, a, k, want, r, a + k);
  }

  lemma ShorterUnmapped(m: Mem, r: nat, a: nat, k: nat, n: nat)
    requires Unmapped(m, r, a, n) && k <= n
    ensures Unmapped(m, r, a, k)
  {
  }

  /** A round that failed has at most added tables. */
  lemma FailedExtend(m: Mem, m1: Mem, m2: Mem, r: nat, a: nat, k: nat, want: Contents)
    requires Extended(m, m1, r, a, k, want) && Grew(m, m1, r, a, a + k)
    requires SameMap(m1, m2) && Grew(m1, m2, r, 0, 0)
    ensures Extended(m, m2, r, a, k, want) && Grew(m, m2, r, a, a + k)
  {
    forall s: nat, v: nat | IsRoot(m, s) && v < MAXVPN ensures ExtendedAt(m, m2, r, a, k, want, s, v) {
      assert ExtendedAt(m, m1, r, a, k, want, s, v);
      assert SameAt(m1, m2, s, v);
      if s == r && a <= v < a + k {
        var q := Ppn(Translate(m1, r, v));
        assert m1.owner[q] == Leaf(r, v) && KeepsData(m1.owner[q]);
      }
    }
  }

  lemma ExtendStep2(m: Mem, m1: Mem, m2: Mem, r: nat, a: nat, k: nat, want: Contents)
    requires Inv(m1) && Extended(m, m1, r, a, k, want) && Grew(m, m1, r, a, a + k) && IsRoot(m, r)
    requires Added(m1, m2, r, a + k, WantedFlags(want, a + k), WantedPage(want, a + k))
    ensures Extended(m, m2, r, a, k + 1, want) && Grew(m, m2, r, a, a + k + 1) && IsRoot(m2, r)
  {
    ExtendStep(m, m1, m2, r, a, k, want);
    GrewWider(m, m1, m2, r, a, k);
    var n := k + 1;
    assert ExtendedAt(m, m2, r, a, n, want, r, 0);
  }

  lemma ParentKept(m: Mem, m': Mem, r: nat, a: nat, n: nat, want: Contents, s: nat)
    requires Extended(m, m', r, a, n, want) && IsRoot(m, s)
    ensures IsRoot(m', s)
  {
    assert ExtendedAt(m, m', r, a, n, want, s, 0);
  }

  lemma FlagBits(e: nat)
    requires V(e) && RWX(e)
    ensures Flags(e) < 1024 && Flags(e) % 2 == 1 && RWX(Flags(e))
  {
    FlagOdd(e / 1024, e % 1024);
    FlagRWX(e / 1024, e % 1024);
  }

  lemma FlagOdd(q: nat, f: nat)
    requires (q * 1024 + f) % 2 == 1
    ensures f % 2 == 1
  {
    var half := q * 512;
    assert q * 1024 + f == 2 * half + f;
  }

  lemma FlagRWX(q: nat, f: nat)
    requires RWX(q * 1024 + f)
    ensures RWX(f)
  {
    var x, y := q * 64, f / 2;
    assert (q * 1024 + f) / 2 == 8 * x + y;
  }

  /** While uvmcopy runs, the parent's mappings and pages are what they were. */
  lemma SourcePage(m: Mem, m1: Mem, parent: nat, child: nat, v: nat, n: nat)
    requires Inv(m) && Inv(m1) && IsRoot(m, parent) && parent != child && v < n <= MAXVPN
      && MappedRange(m, parent, 0, n, true)
    requires Extended(m, m1, child, 0, v, CopyOf(m, parent)) && Grew(m, m1, child, 0, v)
    ensures var e := Translate(m1, parent, v);
            && e != 0 && Ppn(e) in m1.pages && |m1.pages[Ppn(e)]| == ENTRIES
            && Flags(e) == WantedFlags(CopyOf(m, parent), v) && m1.pages[Ppn(e)] == WantedPage(CopyOf(m, parent), v)
            && Flags(e) < 1024 && Flags(e) % 2 == 1 && RWX(Flags(e))
  {
    assert ExtendedAt(m, m1, child, 0, v, CopyOf(m, parent), parent, v);
    assert MappedAt(m, parent, v, true);
    var e := Translate(m, parent, v);
    assert KeepsData(m.owner[Ppn(e)]);
    EntryBits(m, parent, v);
    FlagBits(e);
  }

  lemma EntryBits(m: Mem, r: nat, v: nat)
    requires Inv(m) && IsRoot(m, r) && v < MAXVPN && Translate(m, r, v) != 0
    ensures V(Translate(m, r, v)) && RWX(Translate(m, r, v))
  {
    DescendOk(m, r, v, 2, r);
    PrefixStep(v, 0);
    var t := Descend(m, r, v, 2);
    assert TableOk(m, t) && EntryOk(m, m.owner[t], Index(v, 0), Word(m, t, Index(v, 0)));
  }

  // ---- Taking a tree apart ----

  predicate OwnedBy(o: Owner, r: nat) {
    (o.Table? || o.Leaf?) && o.root == r
  }

  lemma TopTable(m: Mem, t: nat, r: nat, level: nat, prefix: nat)
    requires SubTree(m, t, r, level, prefix) && PagesOk(m)
    ensures Is(m, t, Table(r, level, prefix)) && t in m.pages
  {
  }

  /** The entry whose turn it is: empty, or for the table below. */
  lemma EntryKept(m: Mem, m1: Mem, t: nat, r: nat, level: nat, prefix: nat, i: nat)
    requires SubTree(m, t, r, level, prefix) && FreedFirst(m, m1, t, r, level, prefix, i) && i < ENTRIES
    requires PagesOk(m1) && t in m1.pages
    ensures |m1.pages[t]| == ENTRIES && m1.pages[t][i] == Word(m, t, i)
    ensures if V(Word(m, t, i)) then !RWX(Word(m, t, i)) && Word(m, t, i) != 0 && level >= 1 else Word(m, t, i) == 0
  {
    var e := Word(m, t, i);
    assert Under(m.owner[t], r, level, prefix) && SubTable(m, t, level, t);
    assert NoLeafAt(m, m.owner[t], i, e);
    assert Word(m1, t, i) == e;
    PointerNotLeaf(Ppn(e));
  }

  lemma AllCleared(m: Mem, m1: Mem, r: nat, n: nat)
    requires IsRoot(m, r) && ClearsRange(m, m1, r, 0, n) && forall v: nat | n <= v < MAXVPN :: Translate(m, r, v) == 0
    ensures IsRoot(m1, r) && NothingMapped(m1, r)
  {
    assert ClearsAt(m, m1, r, 0, n, r, 0);
    forall v: nat | v < MAXVPN ensures Translate(m1, r, v) == 0 {
      assert ClearsAt(m, m1, r, 0, n, r, v);
    }
  }

  lemma OthersChain(m: Mem, m1: Mem, m2: Mem, r: nat, n: nat)
    requires ClearsRange(m, m1, r, 0, n) && OthersSame(m1, m2, r)
    ensures OthersSame(m, m2, r)
  {
    forall s: nat, v: nat | IsRoot(m, s) && s != r && v < MAXVPN ensures SameAt(m, m2, s, v) {
      assert ClearsAt(m, m1, r, 0, n, s, v);
      assert SameAt(m1, m2, s, v);
    }
  }

  lemma NoLeavesLeft(m: Mem, r: nat, n: nat)
    requires Inv(m) && forall v: nat | n <= v < MAXVPN :: Translate(m, r, v) == 0
    ensures forall p | p in m.owner && m.owner[p].Leaf? && m.owner[p].root == r :: InRange(m.owner[p], r, 0, n)
  {
    forall p | p in m.owner && m.owner[p].Leaf? && m.owner[p].root == r ensures InRange(m.owner[p], r, 0, n) {
      assert Translate(m, r, m.owner[p].vpn) != 0;
    }
  }

  // ---- The first free list ----

  /** The pages from a on, below b, the last one first. */
  function Downward(a: nat, b: nat): seq<nat> {
    if b <= a then [] else [b - 1] + Downward(a, b - 1)
  }

  /** freerange has got as far as page b: the pages before it are free, the others
      belong to nobody yet. */
  ghost predicate Ranged(m: Mem, frames: set<nat>, a: nat, b: nat) {
    m.owner.Keys == frames && m.free == Downward(a, b) && forall q | q in frames ::
      m.owner[q] == if q < b then Free else Held
  }

  lemma RangedStart(ram: map<nat, Page>, a: nat)
    requires 0 !in ram && (forall p | p in ram :: |ram[p]| == ENTRIES && p >= a)
    ensures var m := Mem(ram, 0, [], map p | p in ram :: Held); Inv(m) && Ranged(m, ram.Keys, a, a)
  {
  }

  lemma RangedStep(m: Mem, frames: set<nat>, a: nat, b: nat)
    requires Inv(m) && Ranged(m, frames, a, b) && a <= b && b in frames
    ensures b in m.pages && Inv(Released(m, b)) && Ranged(Released(m, b), frames, a, b + 1)
  {
    ReleasedOk(m, b);
  }

  lemma RangedEnd(m: Mem, frames: set<nat>, a: nat, b: nat, e: nat)
    requires Inv(m) && Ranged(m, frames, a, b) && (forall p: nat :: p in frames <==> a <= p < e)
      && (if a <= e then b == e else b == a)
    ensures m.pages.Keys == frames && m.free == Downward(a, e) && forall p | p in frames :: Is(m, p, Free)
  {
  }

  class Memory {
    var pages: map<nat, Page>
    var head: nat
    ghost var free: seq<nat>
    ghost var owner: map<nat, Owner>

    ghost function State(): Mem
      reads this
    {
      Mem(pages, head, free, owner)
    }

    ghost predicate Valid()
      reads this
    {
      Inv(State())
    }

    /** kinit: all pages between the addresses are free, whatever they contain. */
    constructor (start: nat, end: nat, ram: map<nat, Page>)
      requires start > 0 && (forall p | p in ram :: |ram[p]| == ENTRIES)
      requires forall p: nat :: p in ram <==> Pages(start) <= p < end / 4096
      ensures Valid() && pages.Keys == ram.Keys && free == Downward(Pages(start), end / 4096)
      ensures forall p | p in ram :: Is(State(), p, Free)
    {
      pages, head := ram, 0;
      free, owner := [], map p | p in ram :: Held;
      new;
      RangedStart(ram, Pages(start));
      Freerange(start, end);
    }

    /** freerange: the whole pages between the addresses start and end go on the free
        list one after the other. */
    method Freerange(start: nat, end: nat)
      requires Valid() && Ranged(State(), owner.Keys, Pages(start), Pages(start))
      requires forall p: nat :: p in owner <==> Pages(start) <= p < end / 4096
      modifies this
      ensures Valid() && pages.Keys == old(owner).Keys && free == Downward(Pages(start), end / 4096)
      ensures forall p | p in old(owner) :: Is(State(), p, Free)
    {
      hide Inv, Downward, Ranged, Released, Is;
      ghost var frames := owner.Keys;
      var p := Pages(start);
      while (p + 1) * 4096 <= end
        invariant p >= Pages(start) && Inv(State()) && Ranged(State(), frames, Pages(start), p)
        invariant p <= end / 4096 || p == Pages(start)
        decreases end - p * 4096
      {
        RangedStep(State(), frames, Pages(start), p);
        Kfree(p);
        p := p + 1;
      }
      RangedEnd(State(), frames, Pages(start), p, end / 4096);
    }

    /** kalloc: the first free page, or zero if there is none. */
    method Kalloc() returns (p: nat)
      requires Valid()
      modifies this
      ensures Valid() && SameMap(old(State()), State())
      ensures p == 0 <==> old(free) == []
      ensures p == 0 ==> State() == old(State())
      ensures p != 0 ==> p == old(free)[0] && State() == Allocated(old(State())) && |free| == |old(free)| - 1
    {
      ghost var m := State();
      assert m.free != [] ==> Is(m, m.free[0], Free);
      p := head;
      if p != 0 {
        AllocatedOk(m);
        head := Word0(p);
        pages := pages[p := Filled(0x0505_0505_0505_0505)];
        free, owner := free[1..], owner[p := Held];
      }
    }

    /** r->next: the link stored in a free page. */
    method Word0(p: nat) returns (w: nat)
      requires p in pages && |pages[p]| == ENTRIES
      ensures w == Word(State(), p, 0)
    {
      w := pages[p][0];
    }

    /** kfree: the page goes to the front of the free list. */
    method Kfree(p: nat)
      requires p in pages
      modifies this
      ensures State() == Released(old(State()), p)
    {
      pages := pages[p := Updated(Filled(0x0101_0101_0101_0101), 0, head)];
      head := p;
      free, owner := [p] + free, owner[p := Free];
    }

    /** walk: where the entry for vpn is. With alloc it creates missing tables, which
        changes no translation, and fails only when the free list is empty; without
        alloc it changes nothing and fails exactly when a table is missing. */
    method Walk(r: nat, vpn: nat, alloc: bool) returns (t: nat, i: nat)
      requires Valid() && IsRoot(State(), r) && vpn < MAXVPN
      modifies this
      ensures Valid() && SameMap(old(State()), State()) && Grew(old(State()), State(), r, 0, 0)
      ensures t != 0 ==>
                && i < ENTRIES && Is(State(), t, Table(r, 0, Prefix(vpn, 0))) && vpn == Prefix(vpn, 0) * 512 + i
                && Word(State(), t, i) == Translate(old(State()), r, vpn)
      ensures t == 0 ==> Translate(old(State()), r, vpn) == 0 && (alloc ==> free == [] && |old(free)| < 2)
      ensures |free| <= |old(free)| <= |free| + 2
      ensures !alloc ==> State() == old(State())
    {
      hide Inv;
      hide SameMap;
      hide Grew;
      hide Prefix;
      hide Index;
      ghost var m := State();
      StartWalk(m, r, vpn);
      t := r;
      var level := 2;
      while level > 0
        invariant 0 <= level <= 2 && Valid() && SameMap(m, State()) && Grew(m, State(), r, 0, 0)
        invariant Is(State(), t, Table(r, level, Prefix(vpn, level)))
        invariant !alloc ==> State() == m
        invariant |free| <= |m.free| <= |free| + 2 - level
      {
        WalkFacts(State(), r, t, vpn, level);
        var e := pages[t][Index(vpn, level)];
        if V(e) {
          t := Ppn(e);
        } else {
          if !alloc {
            WalkFails(m, State(), r, t, vpn, level);
            return 0, 0;
          }
          ghost var m1 := State();
          var q := Kalloc();
          if q == 0 {
            WalkFails(m, m1, r, t, vpn, level);
            return 0, 0;
          }
          PrefixStep(vpn, level);
          TableAddedOk(m1, t, Index(vpn, level));
          SameMapTrans(m, m1, TableAdded(m1, t, Index(vpn, level)));
          GrewTrans(m, m1, TableAdded(m1, t, Index(vpn, level)), r, 0, 0);
          pages := pages[q := Filled(0)];
          pages := pages[t := Updated(pages[t], Index(vpn, level), Pointer(q))];
          owner := owner[q := Table(r, level - 1, owner[t].prefix * 512 + Index(vpn, level))];
          t := q;
        }
        level := level - 1;
      }
      i := Index(vpn, 0);
      WalkEnds(m, State(), r, t, vpn);
    }

    /** uvmcreate: a new tree without mappings; zero if there is no page for it. */
    method Uvmcreate() returns (r: nat)
      requires Valid()
      modifies this
      ensures Valid() && SameMap(old(State()), State())
      ensures r == 0 ==> State() == old(State()) && free == []
      ensures r != 0 ==>
                && IsRoot(State(), r) && !IsRoot(old(State()), r)
                  && (forall vpn: nat | vpn < MAXVPN :: Translate(State(), r, vpn) == 0)
                && Grew(old(State()), State(), r, 0, 0)
    {
      hide Translate;
      hide FreeOk;
      hide TablesOk;
      hide LeavesOk;
      hide SameMap;
      hide Grew;
      ghost var m := State();
      r := Kalloc();
      if r != 0 {
        ZeroedPage(m);
        pages := pages[r := Filled(0)];
        ghost var m2 := State();
        RootedOk(m2, r);
        owner := owner[r := Table(r, 2, 0)];
        SameMapTrans(m, m2, State());
        HeldBecomesTable(m, m2, State(), r, r, r);
      }
    }

    /** uvmdealloc: the user pages between the two sizes are unmapped and freed. */
    method Uvmdealloc(r: nat, oldsz: nat, newsz: nat) returns (sz: nat)
      requires Valid() && IsRoot(State(), r) && Pages(oldsz) <= MAXVPN
      requires newsz < oldsz ==> MappedRange(State(), r, Pages(newsz), Pages(oldsz) - Pages(newsz), true)
      modifies this
      ensures Valid() && sz == if newsz >= oldsz then oldsz else newsz
      ensures var n := if newsz < oldsz then Pages(oldsz) - Pages(newsz) else 0;
              ClearsRange(old(State()), State(), r, Pages(newsz), n)
                && Returned(old(State()), State(), r, Pages(newsz), n, true)
    {
      hide Inv;
      hide ClearsRange;
      hide Returned;
      hide MappedRange;
      ClearStart(State(), r, Pages(newsz), true);
      if newsz >= oldsz {
        return oldsz;
      }
      if Pages(newsz) < Pages(oldsz) {
        Uvmunmap(r, Pages(newsz), Pages(oldsz) - Pages(newsz), true);
      }
      return newsz;
    }

    /** uvmalloc: zeroed user pages between the two sizes. If it runs out of pages
        it maps what it mapped before and keeps no user page; zero then. Three free pages
        for each new page are enough, and one is needed. */
    method Uvmalloc(r: nat, oldsz: nat, newsz: nat) returns (sz: nat, ghost ok: bool)
      requires Valid() && IsRoot(State(), r) && Pages(newsz) <= MAXVPN
      requires newsz >= oldsz ==> Unmapped(State(), r, Pages(oldsz), Pages(newsz) - Pages(oldsz))
      modifies this
      ensures Valid()
      ensures newsz < oldsz ==> ok && sz == oldsz && State() == old(State())
      ensures newsz >= oldsz && ok ==>
                && sz == newsz && Grew(old(State()), State(), r, Pages(oldsz), Pages(newsz))
                && Extended(old(State()), State(), r, Pages(oldsz), Pages(newsz) - Pages(oldsz), Zeroed)
      ensures !ok ==> sz == 0 && SameMap(old(State()), State()) && Grew(old(State()), State(), r, 0, 0)
      ensures newsz >= oldsz && |old(free)| >= 3 * (Pages(newsz) - Pages(oldsz)) ==> ok
      ensures newsz >= oldsz && |old(free)| < Pages(newsz) - Pages(oldsz) ==> !ok
    {
      hide Inv;
      hide SameMap;
      hide Grew;
      hide Extended;
      hide Added;
      hide ClearsRange;
      hide Returned;
      hide MappedRange;
      hide Unmapped;
      if newsz < oldsz {
        return oldsz, true;
      }
      ghost var m := State();
      var a0 := Pages(oldsz);
      ExtendStart(m, r, a0, Zeroed);
      var a := a0;
      while a * 4096 < newsz
        invariant a0 <= a <= Pages(newsz) && Valid() && IsRoot(State(), r)
        invariant Extended(m, State(), r, a0, a - a0, Zeroed) && Grew(m, State(), r, a0, a)
        invariant |free| + (a - a0) <= |m.free| <= |free| + 3 * (a - a0)
      {
        ghost var m1 := State();
        StillFree(m, m1, r, a0, a - a0, Pages(newsz) - a0, Zeroed);
        var added := AddPage(r, a, Filled(0), USER_RWX);
        ghost var m2 := State();
        if !added {
          FailedExtend(m, m1, m2, r, a0, a - a0, Zeroed);
          ExtendedIsMapped(m, m2, r, a0, a - a0, Zeroed);
          var _ := Uvmdealloc(r, a * 4096, a0 * 4096);
          ShorterUnmapped(m, r, a0, a - a0, Pages(newsz) - a0);
          UndoExtension(m, m2, State(), r, a0, a - a0, Zeroed);
          return 0, false;
        }
        ExtendStep2(m, m1, m2, r, a0, a - a0, Zeroed);
        a := a + 1;
      }
      return newsz, true;
    }

    /** uvmcopy: the child gets its own copy of each of the parent's pages, with the
        same flags. If it runs out of pages the child maps what it mapped before and
        keeps no user page. That does not happen if there are three free pages, for the
        copy and two tables, for each page of the parent; it does if there is not one. */
    method Uvmcopy(parent: nat, child: nat, sz: nat) returns (ok: bool)
      requires Valid() && IsRoot(State(), parent) && IsRoot(State(), child) && parent != child && Pages(sz) <= MAXVPN
      requires MappedRange(State(), parent, 0, Pages(sz), true) && Unmapped(State(), child, 0, Pages(sz))
      modifies this
      ensures Valid()
      ensures ok ==>
                && Extended(old(State()), State(), child, 0, Pages(sz), CopyOf(old(State()), parent))
                && Grew(old(State()), State(), child, 0, Pages(sz))
      ensures !ok ==> SameMap(old(State()), State()) && Grew(old(State()), State(), child, 0, 0)
      ensures |old(free)| >= 3 * Pages(sz) ==> ok
      ensures |old(free)| < Pages(sz) ==> !ok
    {
      hide Inv;
      hide SameMap;
      hide Grew;
      hide Extended;
      hide Added;
      hide ClearsRange;
      hide Returned;
      hide MappedRange;
      hide Unmapped;
      hide WantedFlags;
      hide WantedPage;
      ghost var m := State();
      ghost var want := CopyOf(m, parent);
      ExtendStart(m, child, 0, want);
      var i := 0;
      while i * 4096 < sz
        invariant 0 <= i <= Pages(sz) && Valid() && IsRoot(State(), child) && IsRoot(State(), parent)
        invariant Extended(m, State(), child, 0, i, want) && Grew(m, State(), child, 0, i)
        invariant |free| + i <= |m.free| <= |free| + 3 * i
      {
        ghost var m1 := State();
        SourcePage(m, m1, parent, child, i, Pages(sz));
        var t, j := Walk(parent, i, false);
        var e := pages[t][j];
        StillFree(m, m1, child, 0, i, Pages(sz), want);
        var added := AddPage(child, i, pages[Ppn(e)], Flags(e));
        ghost var m2 := State();
        if !added {
          FailedExtend(m, m1, m2, child, 0, i, want);
          ExtendedIsMapped(m, m2, child, 0, i, want);
          Uvmunmap(child, 0, i, true);
          ShorterUnmapped(m, child, 0, i, Pages(sz));
          UndoExtension(m, m2, State(), child, 0, i, want);
          return false;
        }
        ExtendStep2(m, m1, m2, child, 0, i, want);
        ParentKept(m, m2, child, 0, i + 1, want, parent);
        i := i + 1;
      }
      return true;
    }

    /** freewalk: every table under t goes to the free list, each exactly once, and
        nothing else does. Its panic, for a leaf, is not reached. */
    method FreeWalk(t: nat, ghost r: nat, ghost level: nat, ghost prefix: nat)
      requires PagesOk(State()) && FreeOk(State()) && SubTree(State(), t, r, level, prefix)
      modifies this
      ensures PagesOk(State()) && FreeOk(State()) && FreedUnder(old(State()), State(), r, level, prefix)
      decreases level
    {
      hide FreeOk;
      hide SubTree;
      hide FreedUnder;
      hide FreedFirst;
      ghost var m := State();
      FirstStart(m, t, r, level, prefix);
      TopTable(m, t, r, level, prefix);
      var i := 0;
      while i < ENTRIES
        invariant 0 <= i <= ENTRIES && PagesOk(State()) && FreeOk(State())
        invariant t in pages && FreedFirst(m, State(), t, r, level, prefix, i)
      {
        ghost var m1 := State();
        EntryKept(m, m1, t, r, level, prefix, i);
        var pte := pages[t][i];
        if V(pte) && !RWX(pte) {
          var child := Ppn(pte);
          ChildIntact(m, m1, t, r, level, prefix, i);
          FreeWalk(child, r, level - 1, prefix * 512 + i);
          ChildFreed(m, m1, State(), t, r, level, prefix, i);
          pages := pages[t := Updated(pages[t], i, 0)];
        } else {
          assert !V(pte);
          SkipEntry(m, m1, t, r, level, prefix, i);
        }
        i := i + 1;
      }
      TopFreed(m, State(), t, r, level, prefix);
      Kfree(t);
    }

    /** uvmfree: every page that the tree at r owned, tables and user pages, is on the
        free list; no other page changed hands, and no other tree changed. */
    method Uvmfree(r: nat, sz: nat)
      requires Valid() && IsRoot(State(), r) && Pages(sz) <= MAXVPN && MappedRange(State(), r, 0, Pages(sz), true)
      requires forall v: nat | Pages(sz) <= v < MAXVPN :: Translate(State(), r, v) == 0
      modifies this
      ensures Valid() && OthersSame(old(State()), State(), r)
      ensures forall p | p in old(owner) ::
                p in owner && owner[p] == if OwnedBy(old(owner)[p], r) then Free else old(owner)[p]
    {
      hide FreeOk;
      hide TablesOk;
      hide LeavesOk;
      hide SubTree;
      hide ClearsRange;
      hide MappedRange;
      ghost var m := State();
      ClearStart(m, r, 0, true);
      if sz > 0 {
        Uvmunmap(r, 0, Pages(sz), true);
      }
      ghost var m1 := State();
      AllCleared(m, m1, r, Pages(sz));
      EmptyTree(m1, r);
      FreeWalk(r, r, 2, 0);
      TreeFreed(m1, State(), r);
      OthersChain(m, m1, State(), r, Pages(sz));
      NoLeavesLeft(m, r, Pages(sz));
    }

    /** The round that uvmalloc and uvmcopy repeat: a page off the free list, its
        contents, its mapping; it undoes itself if a table cannot be had. */
    method AddPage(r: nat, v: nat, page: Page, perm: nat) returns (ok: bool)
      requires Valid() && IsRoot(State(), r) && v < MAXVPN && Translate(State(), r, v) == 0
      requires perm < 1024 && RWX(perm) && |page| == ENTRIES
      modifies this
      ensures Valid()
      ensures ok ==> Added(old(State()), State(), r, v, if perm % 2 == 1 then perm else perm + 1, page)
      ensures !ok ==> SameMap(old(State()), State()) && Grew(old(State()), State(), r, 0, 0) && |old(free)| < 3
      ensures ok ==> |free| < |old(free)| <= |free| + 3
    {
      hide Inv;
      hide SameMap;
      hide Grew;
      hide MapsRange;
      hide Claimed;
      hide MapChanged;
      hide Allocated;
      hide Stored;
      ghost var m := State();
      StartWalk(m, r, v);
      var p := Kalloc();
      if p == 0 {
        return false;
      }
      ghost var m1 := State();
      FillHeld(m, p, page, r, v);
      pages := pages[p := page];
      ghost var m2 := State();
      OnePage(v);
      OnePage(p);
      ghost var done;
      ok, done := Mappages(r, v * 4096, 4096, p * 4096, perm, true);
      if ok {
        AddedOk(m, m1, m2, State(), r, v, p, perm, page);
      } else {
        FailedAdd(m, m1, m2, State(), r, v, p, perm, page);
        Kfree(p);
      }
    }

    /** uvmunmap: the mappings of the range go, and with doFree their pages are freed. */
    method Uvmunmap(r: nat, vpn: nat, npages: nat, doFree: bool)
      requires Valid() && IsRoot(State(), r) && vpn + npages <= MAXVPN && MappedRange(State(), r, vpn, npages, doFree)
      modifies this
      ensures Valid() && ClearsRange(old(State()), State(), r, vpn, npages)
      ensures Returned(old(State()), State(), r, vpn, npages, doFree)
    {
      hide Inv;
      hide ClearsRange;
      hide Returned;
      hide MappedRange;
      hide Prefix;
      ghost var m := State();
      ClearStart(m, r, vpn, doFree);
      var a := vpn;
      while a < vpn + npages
        invariant vpn <= a <= vpn + npages && Valid()
        invariant ClearsRange(m, State(), r, vpn, a - vpn) && Returned(m, State(), r, vpn, a - vpn, doFree)
      {
        StillMapped(m, State(), r, vpn, a - vpn, npages, doFree);
        UnmapOne(r, a, doFree, m, vpn);
        a := a + 1;
      }
    }

    /** The body of uvmunmap's loop. */
    method UnmapOne(r: nat, a: nat, doFree: bool, ghost m: Mem, ghost a0: nat)
      requires Valid() && IsRoot(State(), r) && a0 <= a < MAXVPN && MappedAt(State(), r, a, doFree)
      requires ClearsRange(m, State(), r, a0, a - a0) && Returned(m, State(), r, a0, a - a0, doFree)
      modifies this
      ensures Valid() && ClearsRange(m, State(), r, a0, a - a0 + 1) && Returned(m, State(), r, a0, a - a0 + 1, doFree)
    {
      hide Inv;
      hide ClearsRange;
      hide Returned;
      hide Prefix;
      hide MapChanged;
      var t, i := Walk(r, a, false);
      ghost var m1 := State();
      LeafFacts(m1, t, i);
      var e := pages[t][i];
      var p := Ppn(e);
      UnmappingOk(m1, t, i, p, doFree, r, a);
      ReturnStep(m, m1, t, i, p, doFree, r, a0, a - a0);
      ClearStep(m, m1, Unmapping(m1, t, i, p, doFree), r, a0, a - a0);
      if doFree {
        Kfree(p);
      }
      pages := pages[t := Updated(pages[t], i, 0)];
    }

    /** One step of mappages: the entry that walk found gets the mapping. */
    method WriteLeaf(r: nat, vpn: nat, t: nat, i: nat, p: nat, perm: nat, ghost own: bool)
      requires Valid() && perm < 1024 && RWX(perm) && vpn < MAXVPN && i < ENTRIES
      requires Is(State(), t, Table(r, 0, Prefix(vpn, 0))) && vpn == Prefix(vpn, 0) * 512 + i
        && Word(State(), t, i) == 0
      requires if own then Is(State(), p, Held) else p !in owner || Is(State(), p, Shared)
      modifies this
      ensures Valid() && MapChanged(old(State()), State(), r, vpn, LeafEntry(p, perm))
      ensures LeafAdded(old(State()), State(), r, vpn, p, own) && free == old(free)
    {
      hide Inv;
      hide Prefix;
      hide LeafEntry;
      hide MapChanged;
      WriteLeafOk(State(), r, vpn, t, i, p, perm, own);
      pages := pages[t := Updated(pages[t], i, LeafEntry(p, perm))];
      owner := if own then owner[p := Leaf(r, vpn)] else owner;
    }

    /** mappages, for the pages that the size bytes from va on touch. It fails only
        when no page is left for a table, and then has mapped the first `done` pages. */
    method Mappages(r: nat, va: nat, size: nat, pa: nat, perm: nat, ghost own: bool) returns (ok: bool, ghost done: nat)
      requires Valid() && IsRoot(State(), r) && perm < 1024 && RWX(perm) && size >= 1 && (va + size - 1) / 4096 < MAXVPN
      requires var n := (va + size - 1) / 4096 - va / 4096 + 1;
               Mappable(State(), pa / 4096, n, own) && Unmapped(State(), r, va / 4096, n)
      modifies this
      ensures Valid()
      ensures var n := (va + size - 1) / 4096 - va / 4096 + 1;
        if ok then done == n else done < n && free == [] && |old(free)| < 2 * n
      ensures |free| <= |old(free)| <= |free| + 2 * done + 1 && (ok ==> |old(free)| <= |free| + 2 * done)
      ensures MapsRange(old(State()), State(), r, va / 4096, done, pa / 4096, perm)
      ensures Claimed(old(State()), State(), r, va / 4096, done, pa / 4096, own)
    {
      hide Inv;
      hide MapsRange;
      hide Claimed;
      hide Mappable;
      hide Unmapped;
      hide Prefix;
      hide SameMap;
      hide Grew;
      hide MapChanged;
      hide LeafAdded;
      var a := va / 4096;
      var last := (va + size - 1) / 4096;
      var p := pa / 4096;
      ghost var m, a0, p0, n := State(), a, p, last - a + 1;
      done := 0;
      MapStart2(m, r, a, p, perm, own);
      while true
        invariant Valid() && a == a0 + done && p == p0 + done && done < n && a <= last && IsRoot(State(), r)
        invariant MapsRange(m, State(), r, a0, done, p0, perm) && Claimed(m, State(), r, a0, done, p0, own)
        invariant |free| <= |m.free| <= |free| + 2 * done
        decreases last - a
      {
        ghost var m1 := State();
        StillUnmapped(m, m1, r, a0, done, n, p0, perm);
        var t, i := Walk(r, a, true);
        ghost var m2 := State();
        if t == 0 {
          FailedStep(m, m1, m2, r, a0, done, p0, perm, own);
          return false, done;
        }
        StillMappable(m, m1, m2, r, a0, done, n, p0, own);
        WriteLeaf(r, a, t, i, p, perm, own);
        MapStep(m, m1, m2, State(), r, a0, done, p0, perm);
        ShorterMappable(m, p0, done + 1, n, own);
        ClaimStep(m, m1, m2, State(), r, a0, done, p0, own);
        done := done + 1;
        if a == last {
          return true, done;
        }
        RootKept(m, State(), r, a0, done, p0, perm);
        a := a + 1;
        p := p + 1;
      }
    }
  }

  lemma WriteLeafOk(m: Mem, r: nat, vpn: nat, t: nat, i: nat, p: nat, perm: nat, own: bool)
    requires Inv(m) && perm < 1024 && RWX(perm) && vpn < MAXVPN && i < ENTRIES
    requires Is(m, t, Table(r, 0, Prefix(vpn, 0))) && vpn == Prefix(vpn, 0) * 512 + i && Word(m, t, i) == 0
    requires if own then Is(m, p, Held) else p !in m.owner || Is(m, p, Shared)
    ensures t in m.pages && i < |m.pages[t]| && IsTable(m, t) && t != p
    ensures var m' := SetWord(m, t, i, LeafEntry(p, perm)).(owner := if own then m.owner[p := Leaf(r, vpn)]
      else m.owner);
            Inv(m') && MapChanged(m, m', r, vpn, LeafEntry(p, perm)) && LeafAdded(m, m', r, vpn, p, own)
  {
    hide Prefix;
    hide LeafEntry;
    hide FreeOk;
    hide TablesOk;
    hide LeavesOk;
    hide MapChanged;
    LeafEntryPpn(p, perm);
    LeafEntryValid(p, perm);
    LeafEntryRWX(p, perm);
    var o := if own then Leaf(r, vpn) else Shared;
    var m' := SetWord(m, t, i, LeafEntry(p, perm)).(owner := if own then m.owner[p := Leaf(r, vpn)] else m.owner);
    assert LeafWrite(m, m', t, i, LeafEntry(p, perm), p, o);
    MapOk(m, m', t, i, LeafEntry(p, perm), p, o);
  }

  lemma OnePage(v: nat)
    ensures v * 4096 / 4096 == v && (v * 4096 + 4096 - 1) / 4096 == v
  {
  }

  lemma FillHeld(m: Mem, p: nat, page: Page, r: nat, v: nat)
    requires Inv(m) && m.free != [] && p == m.free[0] && |page| == ENTRIES && IsRoot(m, r) && Translate(m, r, v) == 0
      && v < MAXVPN
    ensures var m2 := Stored(Allocated(m), p, page);
            && m2 == Allocated(m).(pages := Allocated(m).pages[p := page])
            && Inv(m2) && SameMap(Allocated(m), m2) && IsRoot(m2, r)
            && Mappable(m2, p, 1, true) && Unmapped(m2, r, v, 1)
            && p in Allocated(m).pages && p in m2.pages
  {
    AllocatedOk(m);
    var m1 := Allocated(m);
    StoredOk(m1, p, page);
    assert SameAt(m, m1, r, v) && SameAt(m1, Stored(m1, p, page), r, v);
  }

  lemma LeafEntryFlags(p: nat, perm: nat)
    requires perm < 1024
    ensures Flags(LeafEntry(p, perm)) == if perm % 2 == 1 then perm else perm + 1
  {
  }

  /** kalloc, fill, mappages: the page is off the free list, filled, and mapped at v. */
  lemma AddedOk(m: Mem, m1: Mem, m2: Mem, m3: Mem, r: nat, v: nat, p: nat, perm: nat, page: Page)
    requires Inv(m) && IsRoot(m, r) && v < MAXVPN && perm < 1024 && |page| == ENTRIES && m.free != [] && p == m.free[0]
    requires m1 == Allocated(m) && SameMap(m, m1) && m2 == Stored(m1, p, page) && SameMap(m1, m2)
    requires MapsRange(m2, m3, r, v, 1, p, perm) && Claimed(m2, m3, r, v, 1, p, true)
    ensures Added(m, m3, r, v, if perm % 2 == 1 then perm else perm + 1, page)
  {
    LeafEntryPpn(p, perm);
    LeafEntryFlags(p, perm);
    assert Is(m, p, Free);
    assert SameAt(m, m1, r, v) && SameAt(m1, m2, r, v);
    assert MapsAt(m2, m3, r, v, 1, p, perm, r, v);
    hide LeafEntry;
    LeafEntryNonzero(p, perm);
    assert m2.owner[p] == Held;
    AddedMap(m, m1, m2, m3, r, v, p, perm);
    AddedGrew(m, m1, m2, m3, r, v, p, page);
  }

  lemma LeafEntryNonzero(p: nat, perm: nat)
    requires perm < 1024
    ensures LeafEntry(p, perm) != 0
  {
  }

  lemma AddedMap(m: Mem, m1: Mem, m2: Mem, m3: Mem, r: nat, v: nat, p: nat, perm: nat)
    requires perm < 1024 && SameMap(m, m1) && SameMap(m1, m2) && MapsRange(m2, m3, r, v, 1, p, perm)
    ensures MapChanged(m, m3, r, v, LeafEntry(p, perm))
  {
    var e := LeafEntry(p, perm);
    forall s: nat, n: nat | IsRoot(m, s) && n < MAXVPN ensures ChangedAt(m, m3, r, v, e, s, n) {
      assert SameAt(m, m1, s, n) && SameAt(m1, m2, s, n);
      assert MapsAt(m2, m3, r, v, 1, p, perm, s, n);
    }
  }

  lemma AddedGrew(m: Mem, m1: Mem, m2: Mem, m3: Mem, r: nat, v: nat, p: nat, page: Page)
    requires PagesOk(m) && m.free != [] && p == m.free[0] && Is(m, p, Free)
    requires m1 == Allocated(m) && m2 == Stored(m1, p, page) && Claimed(m2, m3, r, v, 1, p, true)
    ensures Grew(m, m3, r, v, v + 1) && Is(m3, p, Leaf(r, v)) && p in m3.pages && m3.pages[p] == page
  {
    forall q | q in m.owner ensures OwnerGrew(m.owner[q], m3.owner[q], r, v, v + 1) {
      assert q in m2.owner;
    }
    forall q | q in m.owner && KeepsData(m.owner[q]) ensures q in m.pages && q in m3.pages
      && m3.pages[q] == m.pages[q] {
      assert q != p && KeepsData(m2.owner[q]);
    }
    assert KeepsData(m2.owner[p]);
  }

  /** kalloc and kfree around a mapping that failed: at most tables were added. */
  lemma FailedAdd(m: Mem, m1: Mem, m2: Mem, m3: Mem, r: nat, v: nat, p: nat, perm: nat, page: Page)
    requires Inv(m) && perm < 1024 && m.free != [] && p == m.free[0] && |page| == ENTRIES
    requires m1 == Allocated(m) && SameMap(m, m1) && m2 == Stored(m1, p, page) && SameMap(m1, m2)
    requires Inv(m3) && MapsRange(m2, m3, r, v, 0, p, perm) && Claimed(m2, m3, r, v, 0, p, true)
    ensures p in m3.pages && Is(m3, p, Held) && Inv(Released(m3, p)) && SameMap(m, Released(m3, p))
      && Grew(m, Released(m3, p), r, 0, 0)
  {
    assert Is(m, p, Free) && Is(m2, p, Held);
    ReleasedOk(m3, p);
    var m4 := Released(m3, p);
    forall s: nat, n: nat | IsRoot(m, s) && n < MAXVPN ensures SameAt(m, m4, s, n) {
      assert SameAt(m, m1, s, n) && SameAt(m1, m2, s, n);
      assert MapsAt(m2, m3, r, v, 0, p, perm, s, n);
      assert SameAt(m3, m4, s, n);
    }
    FailedGrew(m, m2, m3, r, v, p, page);
  }

  lemma FailedGrew(m: Mem, m2: Mem, m3: Mem, r: nat, v: nat, p: nat, page: Page)
    requires PagesOk(m) && m.free != [] && p == m.free[0] && Is(m, p, Free)
    requires m2 == Stored(Allocated(m), p, page) && Claimed(m2, m3, r, v, 0, p, true)
    ensures Grew(m, Released(m3, p), r, 0, 0)
  {
    var m4 := Released(m3, p);
    assert m4.owner.Keys == m.owner.Keys;
    forall q | q in m.owner ensures OwnerGrew(m.owner[q], m4.owner[q], r, 0, 0) {
      assert q in m2.owner;
    }
    forall q | q in m.owner && KeepsData(m.owner[q]) ensures q in m.pages && q in m4.pages
      && m4.pages[q] == m.pages[q] {
      assert q != p && KeepsData(m2.owner[q]);
    }
  }

  lemma LeafFacts(m: Mem, t: nat, i: nat)
    requires Inv(m) && IsTable(m, t) && i < ENTRIES
    ensures t in m.pages && |m.pages[t]| == ENTRIES && IsRoot(m, m.owner[t].root)
    ensures m.owner[t].level == 0 && Word(m, t, i) != 0 ==> V(Word(m, t, i)) && RWX(Word(m, t, i))
  {
    assert TableOk(m, t) && EntryOk(m, m.owner[t], i, Word(m, t, i));
  }

  lemma MapStart2(m: Mem, r: nat, a: nat, p: nat, perm: nat, own: bool)
    requires perm < 1024 && Inv(m)
    ensures MapsRange(m, m, r, a, 0, p, perm) && Claimed(m, m, r, a, 0, p, own)
  {
    MapStart(m, r, a, p, perm, own);
  }

  lemma ShorterMappable(m: Mem, p: nat, k: nat, n: nat, own: bool)
    requires Mappable(m, p, n, own) && k <= n
    ensures Mappable(m, p, k, own)
  {
  }

  lemma RootKept(m: Mem, m': Mem, r: nat, a: nat, n: nat, p: nat, perm: nat)
    requires perm < 1024 && IsRoot(m, r) && MapsRange(m, m', r, a, n, p, perm)
    ensures IsRoot(m', r)
  {
    assert MapsAt(m, m', r, a, n, p, perm, r, 0);
  }

  /** A walk that failed has at most added tables. */
  lemma FailedStep(m: Mem, m1: Mem, m2: Mem, r: nat, a: nat, k: nat, p: nat, perm: nat, own: bool)
    requires perm < 1024 && MapsRange(m, m1, r, a, k, p, perm) && SameMap(m1, m2)
    requires Claimed(m, m1, r, a, k, p, own) && Grew(m1, m2, r, 0, 0)
    ensures MapsRange(m, m2, r, a, k, p, perm) && Claimed(m, m2, r, a, k, p, own)
  {
    forall s: nat, v: nat | IsRoot(m, s) && v < MAXVPN ensures MapsAt(m, m2, r, a, k, p, perm, s, v) {
      assert MapsAt(m, m1, r, a, k, p, perm, s, v);
      assert SameAt(m1, m2, s, v);
    }
    forall q | q in m.owner && KeepsData(m.owner[q])
      ensures q in m.pages && q in m2.pages && m2.pages[q] == m.pages[q]
    {
      assert KeepsData(m1.owner[q]);
    }
  }

  lemma StillMappable(m: Mem, m1: Mem, m2: Mem, r: nat, a: nat, k: nat, n: nat, p: nat, own: bool)
    requires Mappable(m, p, n, own) && Claimed(m, m1, r, a, k, p, own) && Grew(m1, m2, r, 0, 0) && k < n
    ensures if own then Is(m2, p + k, Held) else p + k !in m2.owner || Is(m2, p + k, Shared)
  {
    assert p <= p + k < p + n;
  }

  lemma StillUnmapped(m: Mem, m1: Mem, r: nat, a: nat, k: nat, n: nat, p: nat, perm: nat)
    requires perm < 1024 && Unmapped(m, r, a, n) && MapsRange(m, m1, r, a, k, p, perm) && k < n && IsRoot(m, r)
      && a + k < MAXVPN
    ensures IsRoot(m1, r) && Translate(m1, r, a + k) == 0
  {
    assert MapsAt(m, m1, r, a, k, p, perm, r, a + k);
  }

  lemma StartWalk(m: Mem, r: nat, vpn: nat)
    requires Inv(m) && IsRoot(m, r)
    ensures SameMap(m, m) && Grew(m, m, r, 0, 0) && Is(m, r, Table(r, 2, Prefix(vpn, 2)))
  {
    forall s: nat, n: nat | IsRoot(m, s) && n < MAXVPN ensures SameAt(m, m, s, n) {
    }
  }

  lemma WalkFacts(m: Mem, r: nat, t: nat, vpn: nat, level: nat)
    requires Inv(m) && vpn < MAXVPN && 1 <= level <= 2 && Is(m, t, Table(r, level, Prefix(vpn, level)))
    ensures t in m.pages && t != 0 && Index(vpn, level) < |m.pages[t]| == ENTRIES
    ensures var e := Word(m, t, Index(vpn, level));
            if V(e) then Is(m, Ppn(e), Table(r, level - 1, Prefix(vpn, level - 1))) else e == 0
  {
    PrefixStep(vpn, level);
    assert TableOk(m, t);
    assert EntryOk(m, m.owner[t], Index(vpn, level), Word(m, t, Index(vpn, level)));
    PointerFacts(Ppn(Word(m, t, Index(vpn, level))));
  }

  lemma WalkFails(m: Mem, m': Mem, r: nat, t: nat, vpn: nat, level: nat)
    requires Inv(m') && SameMap(m, m') && IsRoot(m, r) && vpn < MAXVPN && 1 <= level <= 2
    requires Is(m', t, Table(r, level, Prefix(vpn, level))) && !V(Word(m', t, Index(vpn, level)))
    ensures Translate(m, r, vpn) == 0
  {
    Reached(m', t, vpn);
    assert SameAt(m, m', r, vpn);
  }

  lemma WalkEnds(m: Mem, m': Mem, r: nat, t: nat, vpn: nat)
    requires Inv(m') && SameMap(m, m') && IsRoot(m, r) && vpn < MAXVPN
    requires Is(m', t, Table(r, 0, Prefix(vpn, 0)))
    ensures t != 0 && Index(vpn, 0) < ENTRIES && vpn == Prefix(vpn, 0) * 512 + Index(vpn, 0)
    ensures Word(m', t, Index(vpn, 0)) == Translate(m, r, vpn)
  {
    Reached(m', t, vpn);
    PrefixStep(vpn, 0);
    assert SameAt(m, m', r, vpn);
  }
}

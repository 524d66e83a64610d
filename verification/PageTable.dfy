/** Sv39 page tables (kernel/vm.c) over physical pages and their free list
    (kernel/kalloc.c). A page is its 512 words; pages and virtual pages are
    named by page number, so word w holds a table entry with physical page
    number w / 1024 and flags w % 1024. */
module PageTable {

  type Page = seq<nat>

  const ENTRIES := 512
  /** Virtual pages below MAXVA: one bit less than Sv39 allows. */
  const MAXVPN := 0x400_0000

  // ---- Table entries ----

  function Ppn(e: nat): nat { e / 1024 }
  function Flags(e: nat): nat { e % 1024 }
  predicate V(e: nat) { e % 2 == 1 }
  /** Some of the bits R, W, X is set: the entry maps a page. */
  predicate RWX(e: nat) { e / 2 % 8 != 0 }
  /** An entry for a lower-level table: the V bit alone. */
  function Pointer(t: nat): nat { t * 1024 + 1 }
  /** PA2PTE(pa) | perm | PTE_V */
  function LeafEntry(p: nat, perm: nat): nat
    requires perm < 1024
  {
    p * 1024 + if perm % 2 == 1 then perm else perm + 1
  }

  lemma LeafEntryPpn(p: nat, perm: nat)
    requires perm < 1024
    ensures Ppn(LeafEntry(p, perm)) == p
  {
  }

  lemma LeafEntryValid(p: nat, perm: nat)
    requires perm < 1024
    ensures V(LeafEntry(p, perm))
  {
    var low := if perm % 2 == 1 then perm else perm + 1;
    var half := p * 512 + low / 2;
    assert LeafEntry(p, perm) == 2 * half + 1;
  }

  lemma LeafEntryRWX(p: nat, perm: nat)
    requires perm < 1024 && RWX(perm)
    ensures RWX(LeafEntry(p, perm))
  {
    var low := if perm % 2 == 1 then perm else perm + 1;
    var half := p * 512 + low / 2;
    assert LeafEntry(p, perm) == 2 * half + 1;
    assert LeafEntry(p, perm) / 2 == half;
    assert low / 2 == perm / 2;
    var eighth := p * 64 + perm / 2 / 8;
    assert half == eighth * 8 + perm / 2 % 8;
  }

  /** PX(level, va): the index into the table at the given level. */
  function Index(vpn: nat, level: nat): nat {
    if level == 2 then vpn / 0x4_0000 else if level == 1 then vpn / 512 % 512 else vpn % 512
  }

  /** The indices above the given level, as one number. */
  function Prefix(vpn: nat, level: nat): nat {
    if level == 2 then 0 else if level == 1 then vpn / 0x4_0000 else vpn / 512
  }

  lemma PrefixStep(vpn: nat, level: nat)
    requires vpn < MAXVPN && level <= 2
    ensures Index(vpn, level) < ENTRIES && InSpace(level, Prefix(vpn, level))
    ensures level >= 1 ==> InSpace(level - 1, Prefix(vpn, level - 1))
    ensures level >= 1 ==> Prefix(vpn, level - 1) == Prefix(vpn, level) * 512 + Index(vpn, level)
    ensures level == 0 ==> vpn == Prefix(vpn, 0) * 512 + Index(vpn, 0)
  {
  }

  lemma SplitPrefix(prefix: nat, upper: nat, i: nat)
    requires prefix == upper * 512 + i && i < 512
    ensures prefix / 512 == upper && prefix % 512 == i
  {
  }

  // ---- Memory and who owns its pages ----

  /** What a page is used for: it is on the free list; allocated but not mapped
      by any tree; the page table of the tree at root for the given level and
      prefix; the user page that the tree at root maps at vpn and owns; or a
      kernel page that any tree may map. */
  datatype Owner =
    | Free
    | Held
    | Table(root: nat, level: nat, prefix: nat)
    | Leaf(root: nat, vpn: nat)
    | Shared

  /** kmem.freelist is `head`, zero for null; `free` lists the pages on it. */
  datatype Mem = Mem(pages: map<nat, Page>, head: nat, free: seq<nat>, owner: map<nat, Owner>)

  predicate Is(m: Mem, p: nat, o: Owner) {
    p in m.owner && m.owner[p] == o
  }

  predicate IsTable(m: Mem, t: nat) {
    t in m.owner && m.owner[t].Table?
  }

  predicate IsRoot(m: Mem, r: nat) {
    Is(m, r, Table(r, 2, 0))
  }

  function Word(m: Mem, t: nat, i: nat): nat {
    if t in m.pages && i < |m.pages[t]| then m.pages[t][i] else 0
  }

  /** The hardware's and walk's descent from level `level` of the tree, where t
      is the table reached so far: the level-0 table for vpn, if there is one. */
  function Descend(m: Mem, t: nat, vpn: nat, level: nat): (r: nat)
    decreases level
  {
    if level == 0 then t
    else
      var e := Word(m, t, Index(vpn, level));
      if V(e) then Descend(m, Ppn(e), vpn, level - 1) else 0
  }

  /** The entry that translates vpn in the tree at r; zero if there is none. */
  function Translate(m: Mem, r: nat, vpn: nat): nat {
    Word(m, Descend(m, r, vpn, 2), Index(vpn, 0))
  }

  // ---- The invariant ----

  ghost predicate PagesOk(m: Mem) {
    && m.pages.Keys == m.owner.Keys && 0 !in m.pages
    && forall p | p in m.pages :: |m.pages[p]| == ENTRIES
  }

  function NextFree(free: seq<nat>, k: nat): nat
    requires k < |free|
  {
    if k + 1 < |free| then free[k + 1] else 0
  }

  /** The free list runs through exactly the free pages, linked by their first word. */
  ghost predicate FreeOk(m: Mem) {
    && m.head == (if m.free == [] then 0 else m.free[0])
    && (forall k {:trigger NextFree(m.free, k)} | 0 <= k < |m.free| :: Word(m, m.free[k], 0) == NextFree(m.free, k))
    && (forall k | 0 <= k < |m.free| :: Is(m, m.free[k], Free))
    && (forall j, k | 0 <= j < k < |m.free| :: m.free[j] != m.free[k])
    && (forall p | Is(m, p, Free) :: p in m.free)
  }

  /** An entry of a table: empty, or for a table one level down, or for a page. */
  ghost predicate EntryOk(m: Mem, o: Owner, i: nat, e: nat)
    requires o.Table?
  {
    || e == 0
    || (o.level > 0 && e == Pointer(Ppn(e)) && Is(m, Ppn(e), Table(o.root, o.level - 1, o.prefix * 512 + i)))
    || (o.level == 0 && V(e) && RWX(e) &&
        (Ppn(e) in m.owner ==> m.owner[Ppn(e)] == Leaf(o.root, o.prefix * 512 + i) || m.owner[Ppn(e)] == Shared))
  }

  /** Virtual pages with this prefix lie below MAXVPN. */
  predicate InSpace(level: nat, prefix: nat) {
    if level == 2 then prefix == 0 else if level == 1 then prefix < 0x100 else prefix < 0x2_0000
  }

  ghost predicate TableOk(m: Mem, t: nat)
    requires IsTable(m, t)
  {
    && IsRoot(m, m.owner[t].root) && m.owner[t].level <= 2
    && (m.owner[t].level == 2 ==> t == m.owner[t].root && m.owner[t].prefix == 0)
    && InSpace(m.owner[t].level, m.owner[t].prefix)
    && (m.owner[t].level < 2 ==> exists u: nat :: ParentOf(m, u, t))
    && (forall i: nat | i < ENTRIES :: EntryOk(m, m.owner[t], i, Word(m, t, i)))
  }

  ghost predicate ParentOf(m: Mem, u: nat, t: nat)
    requires IsTable(m, t)
  {
    var o := m.owner[t];
    Is(m, u, Table(o.root, o.level + 1, o.prefix / 512)) && Word(m, u, o.prefix % 512) == Pointer(t)
  }

  ghost predicate TablesOk(m: Mem) {
    forall t | IsTable(m, t) :: TableOk(m, t)
  }

  /** An owned user page is what its tree translates its virtual page to. */
  ghost predicate LeavesOk(m: Mem) {
    forall p | p in m.owner && m.owner[p].Leaf? ::
      && IsRoot(m, m.owner[p].root) && m.owner[p].vpn < MAXVPN
      && Translate(m, m.owner[p].root, m.owner[p].vpn) != 0 && Ppn(Translate(m, m.owner[p].root, m.owner[p].vpn)) == p
  }

  ghost predicate Inv(m: Mem) {
    PagesOk(m) && FreeOk(m) && TablesOk(m) && LeavesOk(m)
  }

  // ---- walk finds the entry, and only that page's ----

  lemma {:induction false} DescendOk(m: Mem, t: nat, vpn: nat, level: nat, r: nat)
    requires TablesOk(m) && PagesOk(m) && vpn < MAXVPN && level <= 2
    requires Is(m, t, Table(r, level, Prefix(vpn, level)))
    decreases level
    ensures var z := Descend(m, t, vpn, level); z == 0 || Is(m, z, Table(r, 0, Prefix(vpn, 0)))
  {
    if level > 0 {
      PrefixStep(vpn, level);
      assert TableOk(m, t);
      var e := Word(m, t, Index(vpn, level));
      assert EntryOk(m, m.owner[t], Index(vpn, level), e);
      if V(e) {
        DescendOk(m, Ppn(e), vpn, level - 1, r);
      }
    }
  }

  /** Both memories have the same trees, and every tree translates alike in both. */
  ghost predicate SameMap(m: Mem, m': Mem) {
    forall r: nat, vpn: nat | IsRoot(m, r) && vpn < MAXVPN :: SameAt(m, m', r, vpn)
  }

  ghost predicate SameAt(m: Mem, m': Mem, r: nat, vpn: nat) {
    IsRoot(m', r) && Translate(m', r, vpn) == Translate(m, r, vpn)
  }

  /** Tables above level 0 are the same tables with the same words. */
  ghost predicate SameUpper(m: Mem, m': Mem) {
    forall t: nat, i: nat | IsTable(m, t) && m.owner[t].level > 0 :: Word(m', t, i) == Word(m, t, i)
  }

  lemma {:induction false} DescendSame(m: Mem, m': Mem, t: nat, vpn: nat, level: nat, r: nat)
    requires TablesOk(m) && PagesOk(m) && vpn < MAXVPN && level <= 2 && SameUpper(m, m')
    requires Is(m, t, Table(r, level, Prefix(vpn, level)))
    ensures Descend(m', t, vpn, level) == Descend(m, t, vpn, level)
    decreases level
  {
    if level > 0 {
      PrefixStep(vpn, level);
      assert TableOk(m, t);
      var e := Word(m, t, Index(vpn, level));
      assert EntryOk(m, m.owner[t], Index(vpn, level), e);
      if V(e) {
        DescendSame(m, m', Ppn(e), vpn, level - 1, r);
      }
    }
  }

  // ---- Changes outside the trees ----

  /** The same tables with the same words, and the same mapped pages. */
  ghost predicate SameTrees(m: Mem, m': Mem) {
    && m'.owner.Keys == m.owner.Keys
    && (forall p | p in m.owner :: m.owner[p].Table? || m.owner[p].Leaf? || m.owner[p].Shared?
                                   || m'.owner[p].Table? || m'.owner[p].Leaf? || m'.owner[p].Shared?
                                   ==> m'.owner[p] == m.owner[p])
    && (forall t: nat, i: nat | IsTable(m, t) :: Word(m', t, i) == Word(m, t, i))
  }

  lemma SameTreesTranslate(m: Mem, m': Mem, r: nat, vpn: nat)
    requires PagesOk(m) && PagesOk(m') && TablesOk(m) && SameTrees(m, m') && IsRoot(m, r) && vpn < MAXVPN
    ensures SameAt(m, m', r, vpn)
  {
    DescendSame(m, m', r, vpn, 2, r);
    DescendOk(m, r, vpn, 2, r);
    var z := Descend(m, r, vpn, 2);
    if z == 0 {
      assert 0 !in m.owner && 0 !in m'.owner;
    }
  }

  lemma SameTreesOk(m: Mem, m': Mem)
    requires PagesOk(m) && PagesOk(m') && TablesOk(m) && LeavesOk(m) && SameTrees(m, m')
    ensures TablesOk(m') && LeavesOk(m') && SameMap(m, m')
  {
    forall t | IsTable(m', t) ensures TableOk(m', t) {
      SameTableOk(m, m', t);
    }
    forall r: nat, vpn: nat | IsRoot(m, r) && vpn < MAXVPN ensures SameAt(m, m', r, vpn) {
      SameTreesTranslate(m, m', r, vpn);
    }
    forall p | p in m'.owner && m'.owner[p].Leaf? ensures SameAt(m, m', m.owner[p].root, m.owner[p].vpn) {
    }
  }

  lemma SameTableOk(m: Mem, m': Mem, t: nat)
    requires TablesOk(m) && SameTrees(m, m') && IsTable(m', t)
    ensures TableOk(m', t)
  {
    assert IsTable(m, t) && TableOk(m, t);
    var o := m.owner[t];
    forall i | 0 <= i < ENTRIES ensures EntryOk(m', o, i, Word(m', t, i)) {
      assert EntryOk(m, o, i, Word(m, t, i));
    }
    if o.level < 2 {
      var u :| ParentOf(m, u, t);
      assert ParentOf(m', u, t);
    }
  }

  // ---- kalloc and kfree ----

  /** memset: every word is w. */
  function Filled(w: nat): Page {
    seq(ENTRIES, _ => w)
  }

  function Updated(page: Page, i: nat, w: nat): (r: Page)
    requires i < |page|
    ensures r == page[i := w]
  {
    page[..i] + [w] + page[i + 1..]
  }

  /** kalloc takes the first page off the list and fills it with junk. */
  function Allocated(m: Mem): Mem
    requires m.free != []
  {
    Mem(m.pages[m.free[0] := Filled(0x0505_0505_0505_0505)], NextFree(m.free, 0), m.free[1..],
      m.owner[m.free[0] := Held])
  }

  /** kfree fills the page with junk and puts it at the front of the list. */
  function Released(m: Mem, p: nat): Mem {
    Mem(m.pages[p := Updated(Filled(0x0101_0101_0101_0101), 0, m.head)], p, [p] + m.free, m.owner[p := Free])
  }

  lemma AllocatedOk(m: Mem)
    requires Inv(m) && m.free != []
    ensures Is(m, m.free[0], Free) && m.head == m.free[0] && Word(m, m.head, 0) == NextFree(m.free, 0)
    ensures Inv(Allocated(m)) && SameMap(m, Allocated(m))
  {
    var m' := Allocated(m);
    var next := NextFree(m.free, 0);
    assert m'.owner.Keys == m.owner.Keys && m'.pages.Keys == m.pages.Keys;
    AllocatedFree(m);
    SameTreesOk(m, m');
  }

  lemma AllocatedFree(m: Mem)
    requires PagesOk(m) && FreeOk(m) && m.free != []
    ensures FreeOk(Allocated(m))
  {
    var m' := Allocated(m);
    forall k | 0 <= k < |m'.free| ensures Word(m', m'.free[k], 0) == NextFree(m'.free, k) && Is(m', m'.free[k], Free) {
      assert m'.free[k] == m.free[k + 1] && NextFree(m'.free, k) == NextFree(m.free, k + 1);
      assert m.free[0] != m.free[k + 1];
    }
    forall p | Is(m', p, Free) ensures p in m'.free {
      assert Is(m, p, Free) && p != m.free[0];
      var k :| 0 <= k < |m.free| && m.free[k] == p;
      assert m'.free[k - 1] == p;
    }
  }

  lemma ReleasedOk(m: Mem, p: nat)
    requires Inv(m) && Is(m, p, Held)
    ensures Inv(Released(m, p)) && SameMap(m, Released(m, p))
  {
    var m' := Released(m, p);
    assert m'.owner.Keys == m.owner.Keys && m'.pages.Keys == m.pages.Keys;
    ReleasedFree(m, p);
    SameTreesOk(m, m');
  }

  lemma ReleasedFree(m: Mem, p: nat)
    requires PagesOk(m) && FreeOk(m) && p in m.owner && !m.owner[p].Free?
    ensures FreeOk(Released(m, p))
  {
    var m' := Released(m, p);
    forall k | 0 <= k < |m'.free|
      ensures Word(m', m'.free[k], 0) == NextFree(m'.free, k) && Is(m', m'.free[k], Free) && (k > 0 ==> m'.free[k] != p)
    {
      ReleasedLink(m, p, k);
    }
    forall q | Is(m', q, Free) ensures q in m'.free {
      assert q == p || Is(m, q, Free);
    }
    forall j, k | 0 <= j < k < |m'.free| ensures m'.free[j] != m'.free[k] {
      if j > 0 {
        assert m'.free[j] == m.free[j - 1] && m'.free[k] == m.free[k - 1];
      }
    }
  }

  lemma ReleasedLink(m: Mem, p: nat, k: nat)
    requires PagesOk(m) && FreeOk(m) && p in m.owner && !m.owner[p].Free? && k <= |m.free|
    ensures var m' := Released(m, p);
            Word(m', m'.free[k], 0) == NextFree(m'.free, k) && Is(m', m'.free[k], Free) && (k > 0 ==> m'.free[k] != p)
  {
    var m' := Released(m, p);
    if k > 0 {
      assert Is(m, m.free[k - 1], Free);
      assert Word(m, m.free[k - 1], 0) == NextFree(m.free, k - 1) == NextFree(m'.free, k);
    } else {
      assert NextFree(m'.free, 0) == m.head;
    }
  }

  /** New contents for a page that is neither a table nor free. */
  function Stored(m: Mem, p: nat, page: Page): Mem {
    m.(pages := m.pages[p := page])
  }

  lemma StoredOk(m: Mem, p: nat, page: Page)
    requires Inv(m) && p in m.owner && !m.owner[p].Free? && !m.owner[p].Table? && |page| == ENTRIES
    ensures Inv(Stored(m, p, page)) && SameMap(m, Stored(m, p, page))
  {
    var m' := Stored(m, p, page);
    assert m'.pages.Keys == m.pages.Keys;
    forall k | 0 <= k < |m.free| ensures Word(m', m.free[k], 0) == Word(m, m.free[k], 0) && Is(m', m.free[k], Free) {
      assert Is(m, m.free[k], Free);
    }
    SameTreesOk(m, m');
  }

  // ---- A new table ----

  /** There is only one table for a place in a tree. */
  lemma {:induction false} TableUnique(m: Mem, t: nat, t': nat)
    requires PagesOk(m) && TablesOk(m) && IsTable(m, t) && IsTable(m, t') && m.owner[t] == m.owner[t']
    ensures t == t'
    decreases 2 - m.owner[t].level
  {
    assert TableOk(m, t) && TableOk(m, t');
    if m.owner[t].level < 2 {
      var u, u' :| ParentOf(m, u, t) && ParentOf(m, u', t');
      assert IsTable(m, u) && TableOk(m, u);
      TableUnique(m, u, u');
    }
  }

  /** Word i of page t replaced. */
  function SetWord(m: Mem, t: nat, i: nat, e: nat): Mem
    requires t in m.pages && i < |m.pages[t]|
  {
    m.(pages := m.pages[t := Updated(m.pages[t], i, e)])
  }

  /** walk hangs the zeroed page q into entry i of table t. */
  function Linked(m: Mem, t: nat, i: nat, q: nat): Mem
    requires IsTable(m, t) && m.owner[t].level > 0 && t in m.pages && i < |m.pages[t]|
  {
    var o := m.owner[t];
    SetWord(m, t, i, Pointer(q)).(owner := m.owner[q := Table(o.root, o.level - 1, o.prefix * 512 + i)])
  }

  ghost predicate Linkable(m: Mem, t: nat, i: nat, q: nat) {
    && IsTable(m, t) && m.owner[t].level > 0 && i < ENTRIES && Word(m, t, i) == 0
    && InSpace(m.owner[t].level - 1, m.owner[t].prefix * 512 + i)
    && Is(m, q, Held) && (forall j: nat :: Word(m, q, j) == 0)
  }

  lemma LinkedTables(m: Mem, t: nat, i: nat, q: nat)
    requires PagesOk(m) && TablesOk(m) && Linkable(m, t, i, q)
    ensures TablesOk(Linked(m, t, i, q))
  {
    var m' := Linked(m, t, i, q);
    forall s | IsTable(m', s) ensures TableOk(m', s) {
      if s == q {
        NewTableOk(m, t, i, q);
      } else {
        OldTableOk(m, t, i, q, s);
      }
    }
  }

  lemma NewTableOk(m: Mem, t: nat, i: nat, q: nat)
    requires PagesOk(m) && TablesOk(m) && Linkable(m, t, i, q)
    ensures TableOk(Linked(m, t, i, q), q)
  {
    var m' := Linked(m, t, i, q);
    assert TableOk(m, t);
    assert ParentOf(m', t, q);
    assert forall j | 0 <= j < ENTRIES :: Word(m', q, j) == Word(m, q, j) == 0;
  }

  lemma OldTableOk(m: Mem, t: nat, i: nat, q: nat, s: nat)
    requires PagesOk(m) && TablesOk(m) && Linkable(m, t, i, q) && IsTable(m, s) && s != q
    ensures TableOk(Linked(m, t, i, q), s)
  {
    var m' := Linked(m, t, i, q);
    var o := m.owner[s];
    assert TableOk(m, s);
    forall j | 0 <= j < ENTRIES ensures EntryOk(m', o, j, Word(m', s, j)) {
      assert EntryOk(m, o, j, Word(m, s, j));
    }
    if o.level < 2 {
      var u :| ParentOf(m, u, s);
      assert Word(m', u, o.prefix % 512) == Pointer(s);
      assert ParentOf(m', u, s);
    }
  }

  /** The new table is empty, so no translation changes on the way through it. */
  lemma {:induction false} LinkedDescend(m: Mem, t: nat, i: nat, q: nat, s: nat, vpn: nat, level: nat, r: nat)
    requires PagesOk(m) && TablesOk(m) && Linkable(m, t, i, q) && vpn < MAXVPN && level <= 2
    requires Is(m, s, Table(r, level, Prefix(vpn, level)))
    ensures var m' := Linked(m, t, i, q);
            Word(m', Descend(m', s, vpn, level), Index(vpn, 0)) == Word(m, Descend(m, s, vpn, level), Index(vpn, 0))
    decreases level
  {
    var m' := Linked(m, t, i, q);
    PrefixStep(vpn, level);
    if level == 0 {
      assert s != t;
    } else {
      assert TableOk(m, s);
      var e := Word(m, s, Index(vpn, level));
      assert EntryOk(m, m.owner[s], Index(vpn, level), e);
      if s == t && Index(vpn, level) == i {
        assert forall j: nat :: Word(m', q, j) == Word(m, q, j);
        EmptyDescend(m', q, vpn, level - 1);
      } else {
        assert Word(m', s, Index(vpn, level)) == e;
        if V(e) {
          LinkedDescend(m, t, i, q, Ppn(e), vpn, level - 1, r);
        }
      }
    }
  }

  lemma EmptyDescend(m: Mem, q: nat, vpn: nat, level: nat)
    requires 0 !in m.pages && level <= 1 && forall j: nat :: Word(m, q, j) == 0
    ensures Word(m, Descend(m, q, vpn, level), Index(vpn, 0)) == 0
  {
  }

  /** Creating an intermediate table keeps the invariant and changes no translation. */
  lemma LinkedOk(m: Mem, t: nat, i: nat, q: nat)
    requires Inv(m) && Linkable(m, t, i, q)
    ensures Inv(Linked(m, t, i, q)) && SameMap(m, Linked(m, t, i, q))
  {
    var m' := Linked(m, t, i, q);
    LinkedTables(m, t, i, q);
    forall r: nat, vpn: nat | IsRoot(m, r) && vpn < MAXVPN ensures SameAt(m, m', r, vpn) {
      LinkedDescend(m, t, i, q, r, vpn, 2, r);
    }
    forall p | p in m'.owner && m'.owner[p].Leaf? ensures SameAt(m, m', m.owner[p].root, m.owner[p].vpn) {
    }
    assert FreeOk(m') by {
      forall k | 0 <= k < |m.free| ensures Word(m', m.free[k], 0) == Word(m, m.free[k], 0) && Is(m', m.free[k], Free) {
        assert Is(m, m.free[k], Free);
      }
    }
  }

  // ---- Mapping and unmapping a page ----

  /** m' is m with entry i of the level-0 table t replaced by e, and page p's owner by o. */
  ghost predicate LeafWrite(m: Mem, m': Mem, t: nat, i: nat, e: nat, p: nat, o: Owner) {
    && IsTable(m, t) && m.owner[t].level == 0 && t in m.pages && i < |m.pages[t]|
    && m' == SetWord(m, t, i, e).(owner := if p in m.owner then m.owner[p := o] else m.owner)
    && (p in m.owner ==> !m.owner[p].Table? && !m.owner[p].Free? && !o.Table? && !o.Free?)
  }

  function VpnOf(o: Owner, i: nat): nat
    requires o.Table?
  {
    o.prefix * 512 + i
  }

  lemma LeafWriteTranslate(m: Mem, m': Mem, t: nat, i: nat, e: nat, p: nat, o: Owner, r: nat, vpn: nat)
    requires PagesOk(m) && TablesOk(m) && LeafWrite(m, m', t, i, e, p, o) && IsRoot(m, r) && vpn < MAXVPN && i < ENTRIES
    ensures IsRoot(m', r)
    ensures Translate(m', r, vpn) ==
              if r == m.owner[t].root && vpn == VpnOf(m.owner[t], i) && Descend(m, r, vpn, 2) == t then e
                else Translate(m, r, vpn)
  {
    DescendSame(m, m', r, vpn, 2, r);
    DescendOk(m, r, vpn, 2, r);
    PrefixStep(vpn, 0);
    assert TableOk(m, t);
  }

  lemma DescendStep(m: Mem, u: nat, t: nat, vpn: nat, level: nat)
    requires level > 0 && Word(m, u, Index(vpn, level)) == Pointer(t)
    ensures Descend(m, u, vpn, level) == Descend(m, t, vpn, level - 1)
  {
    hide Index;
    PointerFacts(t);
    hide V;
    hide Ppn;
    hide Pointer;
  }

  lemma PointerFacts(t: nat)
    ensures V(Pointer(t)) && !RWX(Pointer(t)) && Ppn(Pointer(t)) == t
  {
    hide V, RWX, Ppn;
    PointerNotLeaf(t);
    PointerPpn(t);
  }

  lemma PointerNotLeaf(t: nat)
    ensures V(Pointer(t)) && !RWX(Pointer(t))
  {
    PointerValid(t);
    var half := t * 512;
    assert Pointer(t) == 2 * half + 1;
    assert half == 8 * (t * 64);
  }

  lemma PointerValid(t: nat)
    ensures V(Pointer(t))
  {
    var half := t * 512;
    assert Pointer(t) == 2 * half + 1;
  }

  lemma PointerPpn(t: nat)
    ensures Ppn(Pointer(t)) == t
  {
  }

  /** Every table is reached by walking to a virtual page below it. */
  lemma {:induction false} Reached(m: Mem, t: nat, vpn: nat)
    requires PagesOk(m) && TablesOk(m) && IsTable(m, t) && vpn < MAXVPN
    requires m.owner[t].level <= 2 && Prefix(vpn, m.owner[t].level) == m.owner[t].prefix
    ensures IsRoot(m, m.owner[t].root)
    ensures Descend(m, m.owner[t].root, vpn, 2) == Descend(m, t, vpn, m.owner[t].level)
    decreases 2 - m.owner[t].level
  {
    hide Prefix;
    hide Index;
    var o := m.owner[t];
    assert TableOk(m, t);
    if o.level < 2 {
      var u :| ParentOf(m, u, t);
      PrefixStep(vpn, o.level + 1);
      SplitPrefix(o.prefix, Prefix(vpn, o.level + 1), Index(vpn, o.level + 1));
      assert IsTable(m, u) && m.owner[u].level == o.level + 1;
      Reached(m, u, vpn);
      DescendStep(m, u, t, vpn, o.level + 1);
    }
  }

  /** Entries other than the written one are unaffected. */
  lemma LeafWriteTable(m: Mem, m': Mem, t: nat, i: nat, e: nat, p: nat, o: Owner, s: nat)
    requires PagesOk(m) && TablesOk(m) && LeafWrite(m, m', t, i, e, p, o) && IsTable(m', s)
    requires EntryOk(m', m.owner[t], i, e)
    requires forall u: nat, j: nat | IsTable(m, u) && j < ENTRIES && !(u == t && j == i) && m.owner[u].level == 0
      && Word(m, u, j) != 0 ::
               Ppn(Word(m, u, j)) != p || (p in m.owner ==> m.owner[p] == o)
    ensures TableOk(m', s)
  {
    assert IsTable(m, s) && m'.owner[s] == m.owner[s] && TableOk(m, s);
    var w := m.owner[s];
    forall j | 0 <= j < ENTRIES ensures EntryOk(m', w, j, Word(m', s, j)) {
      assert EntryOk(m, w, j, Word(m, s, j));
      if !(s == t && j == i) {
        assert Word(m', s, j) == Word(m, s, j);
      }
    }
    if w.level < 2 {
      var u :| ParentOf(m, u, s);
      assert Word(m', u, w.prefix % 512) == Word(m, u, w.prefix % 512);
      assert ParentOf(m', u, s);
    }
  }

  /** Only the entry for (r, vpn) changes, to e. */
  ghost predicate MapChanged(m: Mem, m': Mem, r: nat, vpn: nat, e: nat) {
    forall s: nat, n: nat | IsRoot(m, s) && n < MAXVPN :: ChangedAt(m, m', r, vpn, e, s, n)
  }

  ghost predicate ChangedAt(m: Mem, m': Mem, r: nat, vpn: nat, e: nat, s: nat, n: nat) {
    IsRoot(m', s) && Translate(m', s, n) == if s == r && n == vpn then e else Translate(m, s, n)
  }

  lemma LeafWriteMap(m: Mem, m': Mem, t: nat, i: nat, e: nat, p: nat, o: Owner)
    requires PagesOk(m) && TablesOk(m) && LeafWrite(m, m', t, i, e, p, o) && i < ENTRIES
      && VpnOf(m.owner[t], i) < MAXVPN
    ensures MapChanged(m, m', m.owner[t].root, VpnOf(m.owner[t], i), e)
    ensures Translate(m, m.owner[t].root, VpnOf(m.owner[t], i)) == Word(m, t, i)
  {
    var r, vpn := m.owner[t].root, VpnOf(m.owner[t], i);
    SplitPrefix(vpn, m.owner[t].prefix, i);
    Reached(m, t, vpn);
    forall s: nat, n: nat | IsRoot(m, s) && n < MAXVPN ensures ChangedAt(m, m', r, vpn, e, s, n) {
      LeafWriteTranslate(m, m', t, i, e, p, o, s, n);
    }
  }

  lemma LeafWriteFree(m: Mem, m': Mem, t: nat, i: nat, e: nat, p: nat, o: Owner)
    requires PagesOk(m) && FreeOk(m) && LeafWrite(m, m', t, i, e, p, o)
    ensures PagesOk(m') && FreeOk(m')
  {
    forall k | 0 <= k < |m.free| ensures Word(m', m.free[k], 0) == Word(m, m.free[k], 0) && Is(m', m.free[k], Free) {
      assert Is(m, m.free[k], Free);
    }
  }

  lemma LeafWriteLeaves(m: Mem, m': Mem, t: nat, i: nat, e: nat, p: nat, o: Owner)
    requires PagesOk(m) && TablesOk(m) && LeavesOk(m) && LeafWrite(m, m', t, i, e, p, o)
    requires i < ENTRIES && VpnOf(m.owner[t], i) < MAXVPN
    requires var r, vpn := m.owner[t].root, VpnOf(m.owner[t], i);
             && (o.Leaf? ==> o == Leaf(r, vpn) && e != 0 && Ppn(e) == p)
             && (forall q | q != p && q in m.owner :: m.owner[q] != Leaf(r, vpn))
             && (o.Leaf? || p !in m.owner || m.owner[p] == Leaf(r, vpn) || !m.owner[p].Leaf?)
    ensures LeavesOk(m')
  {
    var r, vpn := m.owner[t].root, VpnOf(m.owner[t], i);
    LeafWriteMap(m, m', t, i, e, p, o);
    assert TableOk(m, t);
    forall q | q in m'.owner && m'.owner[q].Leaf?
      ensures ChangedAt(m, m', r, vpn, e, m'.owner[q].root, m'.owner[q].vpn)
      ensures q == p ==> m'.owner[q] == Leaf(r, vpn)
    {
      if q != p {
        assert m.owner[q] == m'.owner[q];
      }
    }
  }

  /** mappages writes one entry: the translation of that page, and of no other, becomes e. */
  lemma MapOk(m: Mem, m': Mem, t: nat, i: nat, e: nat, p: nat, o: Owner)
    requires Inv(m) && LeafWrite(m, m', t, i, e, p, o) && i < ENTRIES && VpnOf(m.owner[t], i) < MAXVPN
    requires Word(m, t, i) == 0 && V(e) && RWX(e) && Ppn(e) == p
    requires p in m.owner ==> if m.owner[p].Held? then o == Leaf(m.owner[t].root, VpnOf(m.owner[t], i))
      else m.owner[p] == o == Shared
    requires p !in m.owner ==> o.Shared?
    ensures Inv(m') && MapChanged(m, m', m.owner[t].root, VpnOf(m.owner[t], i), e)
  {
    var r, vpn := m.owner[t].root, VpnOf(m.owner[t], i);
    LeafWriteMap(m, m', t, i, e, p, o);
    LeafWriteFree(m, m', t, i, e, p, o);
    assert TableOk(m, t);
    forall q | q in m.owner && q != p ensures m.owner[q] != Leaf(r, vpn) {
    }
    LeafWriteLeaves(m, m', t, i, e, p, o);
    forall s | IsTable(m', s) ensures TableOk(m', s) {
      forall u: nat, j: nat | IsTable(m, u) && j < ENTRIES && !(u == t && j == i) && m.owner[u].level == 0
        && Word(m, u, j) != 0
        ensures Ppn(Word(m, u, j)) != p || (p in m.owner ==> m.owner[p] == o)
      {
        assert TableOk(m, u);
        assert EntryOk(m, m.owner[u], j, Word(m, u, j));
      }
      LeafWriteTable(m, m', t, i, e, p, o, s);
    }
  }

  /** One entry serves a virtual page of a tree. */
  lemma OneEntry(m: Mem, t: nat, i: nat, u: nat, j: nat)
    requires PagesOk(m) && TablesOk(m) && IsTable(m, t) && IsTable(m, u) && i < ENTRIES && j < ENTRIES
    requires m.owner[t].level == m.owner[u].level == 0
    requires m.owner[t].root == m.owner[u].root && VpnOf(m.owner[t], i) == VpnOf(m.owner[u], j)
    ensures t == u && i == j
  {
    SplitPrefix(VpnOf(m.owner[t], i), m.owner[t].prefix, i);
    SplitPrefix(VpnOf(m.owner[u], j), m.owner[u].prefix, j);
    TableUnique(m, t, u);
  }

  /** A page that a tree owns is mapped at one address only, in no other tree. */
  lemma OneMapping(m: Mem, p: nat, r: nat, v: nat, s: nat, n: nat)
    requires Inv(m) && Is(m, p, Leaf(r, v)) && IsRoot(m, s) && n < MAXVPN
    requires Translate(m, s, n) != 0 && Ppn(Translate(m, s, n)) == p
    ensures s == r && n == v
  {
    var t := Descend(m, s, n, 2);
    DescendOk(m, s, n, 2, s);
    PrefixStep(n, 0);
    assert TableOk(m, t) && EntryOk(m, m.owner[t], Index(n, 0), Word(m, t, Index(n, 0)));
  }

  /** uvmunmap clears one entry: an owned page is then held, to be freed. */
  lemma UnmapOk(m: Mem, m': Mem, t: nat, i: nat, p: nat, o: Owner)
    requires Inv(m) && LeafWrite(m, m', t, i, 0, p, o) && i < ENTRIES && VpnOf(m.owner[t], i) < MAXVPN
    requires Word(m, t, i) != 0 && Ppn(Word(m, t, i)) == p
    requires o == if p in m.owner && m.owner[p] == Leaf(m.owner[t].root, VpnOf(m.owner[t], i)) then Held else Shared
    ensures Inv(m') && MapChanged(m, m', m.owner[t].root, VpnOf(m.owner[t], i), 0)
  {
    var r, vpn := m.owner[t].root, VpnOf(m.owner[t], i);
    LeafWriteMap(m, m', t, i, 0, p, o);
    LeafWriteFree(m, m', t, i, 0, p, o);
    assert TableOk(m, t) && EntryOk(m, m.owner[t], i, Word(m, t, i));
    forall q | q in m.owner && q != p ensures m.owner[q] != Leaf(r, vpn) {
    }
    LeafWriteLeaves(m, m', t, i, 0, p, o);
    forall s | IsTable(m', s) ensures TableOk(m', s) {
      forall u: nat, j: nat | IsTable(m, u) && j < ENTRIES && !(u == t && j == i) && m.owner[u].level == 0
        && Word(m, u, j) != 0
        ensures Ppn(Word(m, u, j)) != p || (p in m.owner ==> m.owner[p] == o)
      {
        assert TableOk(m, u) && EntryOk(m, m.owner[u], j, Word(m, u, j));
        if Ppn(Word(m, u, j)) == p && p in m.owner && m.owner[p] == Leaf(r, vpn) {
          OneEntry(m, t, i, u, j);
        }
      }
      LeafWriteTable(m, m', t, i, 0, p, o, s);
    }
  }

  // ---- An empty tree ----

  function Rooted(m: Mem, p: nat): Mem {
    m.(owner := m.owner[p := Table(p, 2, 0)])
  }

  lemma RootedOk(m: Mem, p: nat)
    requires Inv(m) && Is(m, p, Held) && (forall j: nat :: Word(m, p, j) == 0)
    ensures Inv(Rooted(m, p)) && SameMap(m, Rooted(m, p)) && IsRoot(Rooted(m, p), p)
    ensures forall vpn: nat | vpn < MAXVPN :: Translate(Rooted(m, p), p, vpn) == 0
  {
    var m' := Rooted(m, p);
    assert forall j: nat :: Word(m', p, j) == Word(m, p, j);
    forall vpn: nat | vpn < MAXVPN ensures Translate(m', p, vpn) == 0 {
      assert Word(m', p, Index(vpn, 2)) == 0;
      assert Descend(m', p, vpn, 2) == 0;
    }
    forall t | IsTable(m', t) ensures TableOk(m', t) {
      if t == p {
        assert forall i | 0 <= i < ENTRIES :: Word(m', p, i) == 0;
      } else {
        assert TableOk(m, t);
        forall i | 0 <= i < ENTRIES ensures EntryOk(m', m.owner[t], i, Word(m', t, i)) {
          assert EntryOk(m, m.owner[t], i, Word(m, t, i));
        }
        if m.owner[t].level < 2 {
          var u :| ParentOf(m, u, t);
          assert ParentOf(m', u, t);
        }
      }
    }
    forall r: nat, vpn: nat | IsRoot(m, r) && vpn < MAXVPN ensures SameAt(m, m', r, vpn) {
      DescendSame(m, m', r, vpn, 2, r);
    }
    forall q | q in m'.owner && m'.owner[q].Leaf? ensures SameAt(m, m', m.owner[q].root, m.owner[q].vpn) {
    }
    assert FreeOk(m') by {
      forall k | 0 <= k < |m.free| ensures Word(m', m.free[k], 0) == Word(m, m.free[k], 0) && Is(m', m.free[k], Free) {
        assert Is(m, m.free[k], Free);
      }
    }
  }
}

/** freewalk and uvmfree of kernel/vm.c: taking a whole page-table tree apart. */
module FreeTree {
  import opened PageTable

  /** The prefix k levels up. */
  function Up(prefix: nat, k: nat): nat {
    if k == 0 then prefix else Up(prefix / 512, k - 1)
  }

  lemma {:induction false} UpStep(prefix: nat, k: nat)
    ensures Up(prefix, k + 1) == Up(prefix, k) / 512
    decreases k
  {
    if k > 0 {
      UpStep(prefix / 512, k - 1);
    }
  }

  /** A table of the tree at r at or below the place (level, prefix). */
  predicate Under(o: Owner, r: nat, level: nat, prefix: nat) {
    o.Table? && o.root == r && o.level <= level && Up(o.prefix, level - o.level) == prefix
  }

  /** A table below (level, prefix), by way of one of its first i entries. */
  predicate UnderFirst(o: Owner, r: nat, level: nat, prefix: nat, i: nat) {
    && o.Table? && o.root == r && o.level < level
    && prefix * 512 <= Up(o.prefix, level - 1 - o.level) < prefix * 512 + i
  }

  lemma UnderNext(o: Owner, r: nat, level: nat, prefix: nat, i: nat)
    requires level >= 1
    ensures UnderFirst(o, r, level, prefix, i + 1) <==>
      UnderFirst(o, r, level, prefix, i) || Under(o, r, level - 1, prefix * 512 + i)
  {
  }

  lemma UnderAll(o: Owner, r: nat, level: nat, prefix: nat)
    ensures UnderFirst(o, r, level, prefix, ENTRIES) <==> Under(o, r, level, prefix) && o.level < level
  {
    if o.Table? && o.level < level {
      UpStep(o.prefix, level - 1 - o.level);
    }
  }

  /** Every entry of u is empty, or, above level 0, points to the table below. */
  ghost predicate NoLeaves(m: Mem, u: nat)
    requires IsTable(m, u)
  {
    forall i: nat | i < ENTRIES :: NoLeafAt(m, m.owner[u], i, Word(m, u, i))
  }

  ghost predicate NoLeafAt(m: Mem, o: Owner, i: nat, e: nat)
    requires o.Table?
  {
    e == 0 || (o.level > 0 && e == Pointer(Ppn(e)) && Is(m, Ppn(e), Table(o.root, o.level - 1, o.prefix * 512 + i)))
  }

  /** u belongs to the subtree whose topmost table is t at the given level. */
  ghost predicate SubTable(m: Mem, t: nat, level: nat, u: nat)
    requires IsTable(m, u)
  {
    && NoLeaves(m, u)
    && (m.owner[u].level == level ==> u == t)
    && (m.owner[u].level < level ==> exists w: nat :: ParentOf(m, w, u))
  }

  /** t is the top of a tree of tables without leaves, and of all tables under its place. */
  ghost predicate SubTree(m: Mem, t: nat, r: nat, level: nat, prefix: nat) {
    && Is(m, t, Table(r, level, prefix))
    && forall u | u in m.owner && Under(m.owner[u], r, level, prefix) :: SubTable(m, t, level, u)
  }

  /** The subtree hanging off entry i. */
  lemma SubTreeChild(m: Mem, t: nat, r: nat, level: nat, prefix: nat, i: nat)
    requires SubTree(m, t, r, level, prefix) && level >= 1 && i < ENTRIES && Word(m, t, i) != 0
    ensures SubTree(m, Ppn(Word(m, t, i)), r, level - 1, prefix * 512 + i)
  {
    var c, place := Ppn(Word(m, t, i)), prefix * 512 + i;
    assert Under(m.owner[t], r, level, prefix) && SubTable(m, t, level, t);
    assert NoLeafAt(m, m.owner[t], i, Word(m, t, i));
    SplitPrefix(place, prefix, i);
    forall u | u in m.owner && Under(m.owner[u], r, level - 1, place) ensures SubTable(m, c, level - 1, u) {
      UpStep(m.owner[u].prefix, level - 1 - m.owner[u].level);
      assert Under(m.owner[u], r, level, prefix);
      assert SubTable(m, t, level, u);
      if m.owner[u].level == level - 1 {
        var w :| ParentOf(m, w, u);
        assert Under(m.owner[w], r, level, prefix) && SubTable(m, t, level, w);
        PointerPpn(u);
      }
    }
  }

  /** A table below entry i means that entry i is not empty. */
  lemma {:induction false} EntryAbove(m: Mem, t: nat, r: nat, level: nat, prefix: nat, i: nat, u: nat)
    requires SubTree(m, t, r, level, prefix) && level >= 1 && i < ENTRIES
    requires u in m.owner && Under(m.owner[u], r, level - 1, prefix * 512 + i)
    ensures Word(m, t, i) != 0
    decreases level - m.owner[u].level
  {
    SplitPrefix(prefix * 512 + i, prefix, i);
    UpStep(m.owner[u].prefix, level - 1 - m.owner[u].level);
    assert Under(m.owner[u], r, level, prefix);
    assert SubTable(m, t, level, u);
    var w :| ParentOf(m, w, u);
    if m.owner[u].level == level - 1 {
      assert Under(m.owner[w], r, level, prefix);
      assert SubTable(m, t, level, w);
    } else {
      EntryAbove(m, t, r, level, prefix, i, w);
    }
  }

  // ---- freewalk ----

  /** The tables under (level, prefix) went to the free list; nothing else changed. */
  ghost predicate FreedUnder(m: Mem, m': Mem, r: nat, level: nat, prefix: nat) {
    && m'.owner.Keys == m.owner.Keys
    && (forall p | p in m.owner :: m'.owner[p] == if Under(m.owner[p], r, level, prefix) then Free else m.owner[p])
    && (forall p | p in m.owner && !Under(m.owner[p], r, level, prefix) && !m.owner[p].Free? :: SamePage(m, m', p))
  }

  predicate SamePage(m: Mem, m': Mem, p: nat) {
    p in m.pages && p in m'.pages && m'.pages[p] == m.pages[p]
  }

  /** freewalk has dealt with the first i entries of table t. */
  ghost predicate FreedFirst(m: Mem, m': Mem, t: nat, r: nat, level: nat, prefix: nat, i: nat) {
    && m'.owner.Keys == m.owner.Keys
    && (forall p | p in m.owner ::
      m'.owner[p] == if UnderFirst(m.owner[p], r, level, prefix, i) then Free else m.owner[p])
    && (forall p | p in m.owner && p != t && !UnderFirst(m.owner[p], r, level, prefix, i) && !m.owner[p].Free? ::
      SamePage(m, m', p))
    && (forall j: nat | i <= j < ENTRIES :: Word(m', t, j) == Word(m, t, j))
  }

  lemma FirstStart(m: Mem, t: nat, r: nat, level: nat, prefix: nat)
    requires PagesOk(m)
    ensures FreedFirst(m, m, t, r, level, prefix, 0)
  {
  }

  /** An empty entry leaves nothing to free. */
  lemma SkipEntry(m: Mem, m1: Mem, t: nat, r: nat, level: nat, prefix: nat, i: nat)
    requires SubTree(m, t, r, level, prefix) && FreedFirst(m, m1, t, r, level, prefix, i) && i < ENTRIES
      && Word(m, t, i) == 0
    ensures FreedFirst(m, m1, t, r, level, prefix, i + 1)
  {
    forall p | p in m.owner
      ensures UnderFirst(m.owner[p], r, level, prefix, i + 1) <==> UnderFirst(m.owner[p], r, level, prefix, i)
    {
      if level >= 1 {
        UnderNext(m.owner[p], r, level, prefix, i);
        if Under(m.owner[p], r, level - 1, prefix * 512 + i) {
          EntryAbove(m, t, r, level, prefix, i, p);
          assert false;
        }
      }
    }
  }

  /** The subtree at entry i is still untouched when its turn comes. */
  lemma ChildIntact(m: Mem, m1: Mem, t: nat, r: nat, level: nat, prefix: nat, i: nat)
    requires SubTree(m, t, r, level, prefix) && PagesOk(m) && PagesOk(m1) && FreedFirst(m, m1, t, r, level, prefix, i)
    requires level >= 1 && i < ENTRIES && Word(m, t, i) != 0
    ensures Word(m1, t, i) == Word(m, t, i) && SubTree(m1, Ppn(Word(m, t, i)), r, level - 1, prefix * 512 + i)
  {
    var c, place := Ppn(Word(m, t, i)), prefix * 512 + i;
    SubTreeChild(m, t, r, level, prefix, i);
    forall u | u in m.owner && Under(m.owner[u], r, level - 1, place)
      ensures m1.owner[u] == m.owner[u] && SamePage(m, m1, u)
    {
      assert u != t;
      assert !UnderFirst(m.owner[u], r, level, prefix, i);
    }
    forall u | u in m1.owner && Under(m1.owner[u], r, level - 1, place) ensures SubTable(m1, c, level - 1, u) {
      assert m.owner[u] == m1.owner[u];
      assert SubTable(m, c, level - 1, u);
      forall j: nat | j < ENTRIES ensures NoLeafAt(m1, m1.owner[u], j, Word(m1, u, j)) {
        assert NoLeafAt(m, m.owner[u], j, Word(m, u, j));
        if Word(m, u, j) != 0 {
          BelowUnder(m.owner[u], r, level - 1, place, j);
        }
      }
      if m1.owner[u].level < level - 1 {
        var w :| ParentOf(m, w, u);
        UpStep(m.owner[u].prefix, level - 2 - m.owner[u].level);
        assert Under(m.owner[w], r, level - 1, place);
        assert ParentOf(m1, w, u);
      }
    }
  }

  lemma BelowUnder(o: Owner, r: nat, level: nat, prefix: nat, j: nat)
    requires Under(o, r, level, prefix) && o.level > 0 && j < ENTRIES
    ensures Under(Table(o.root, o.level - 1, o.prefix * 512 + j), r, level, prefix)
  {
    SplitPrefix(o.prefix * 512 + j, o.prefix, j);
  }

  /** The subtree at entry i is freed, then the entry cleared. */
  lemma ChildFreed(m: Mem, m1: Mem, m2: Mem, t: nat, r: nat, level: nat, prefix: nat, i: nat)
    requires PagesOk(m) && PagesOk(m1) && PagesOk(m2) && FreeOk(m2) && Is(m, t, Table(r, level, prefix))
    requires FreedFirst(m, m1, t, r, level, prefix, i) && level >= 1 && i < ENTRIES
    requires FreedUnder(m1, m2, r, level - 1, prefix * 512 + i)
    ensures t in m2.pages && |m2.pages[t]| == ENTRIES
    ensures PagesOk(SetWord(m2, t, i, 0)) && FreeOk(SetWord(m2, t, i, 0))
    ensures FreedFirst(m, SetWord(m2, t, i, 0), t, r, level, prefix, i + 1)
  {
    var place := prefix * 512 + i;
    assert m1.owner[t] == m.owner[t] && !Under(m1.owner[t], r, level - 1, place);
    var m3 := SetWord(m2, t, i, 0);
    SetWordFree(m2, t, i);
    forall p | p in m.owner
      ensures m3.owner[p] == if UnderFirst(m.owner[p], r, level, prefix, i + 1) then Free else m.owner[p]
      ensures p != t && !UnderFirst(m.owner[p], r, level, prefix, i + 1) && !m.owner[p].Free? ==> SamePage(m, m3, p)
    {
      UnderNext(m.owner[p], r, level, prefix, i);
    }
  }

  lemma SetWordFree(m: Mem, t: nat, i: nat)
    requires PagesOk(m) && FreeOk(m) && IsTable(m, t) && i < ENTRIES
    ensures t in m.pages && PagesOk(SetWord(m, t, i, 0)) && FreeOk(SetWord(m, t, i, 0))
  {
    var m' := SetWord(m, t, i, 0);
    forall k | 0 <= k < |m.free| ensures Word(m', m.free[k], 0) == Word(m, m.free[k], 0) && Is(m', m.free[k], Free) {
      assert Is(m, m.free[k], Free);
    }
  }

  /** The table at the top is the only one under its place that no entry leads to. */
  lemma TopIsUnder(m: Mem, t: nat, r: nat, level: nat, prefix: nat, p: nat)
    requires SubTree(m, t, r, level, prefix) && p in m.owner
    ensures Under(m.owner[p], r, level, prefix) <==> UnderFirst(m.owner[p], r, level, prefix, ENTRIES) || p == t
  {
    assert Under(m.owner[t], r, level, prefix);
    UnderAll(m.owner[p], r, level, prefix);
    if Under(m.owner[p], r, level, prefix) { assert SubTable(m, t, level, p); }
  }

  /** When all entries are done the table itself goes. */
  lemma TopFreed(m: Mem, m1: Mem, t: nat, r: nat, level: nat, prefix: nat)
    requires SubTree(m, t, r, level, prefix) && PagesOk(m) && PagesOk(m1) && FreeOk(m1)
    requires FreedFirst(m, m1, t, r, level, prefix, ENTRIES)
    ensures t in m1.pages && PagesOk(Released(m1, t)) && FreeOk(Released(m1, t))
    ensures FreedUnder(m, Released(m1, t), r, level, prefix)
  {
    hide FreeOk, Under, UnderFirst, SubTable;
    TopIsUnder(m, t, r, level, prefix, t);
    assert m1.owner[t] == m.owner[t] by { UnderAll(m.owner[t], r, level, prefix); }
    ReleasedFree(m1, t);
    forall p | p in m.owner
      ensures Under(m.owner[p], r, level, prefix) <==> UnderFirst(m.owner[p], r, level, prefix, ENTRIES) || p == t
    {
      TopIsUnder(m, t, r, level, prefix, p);
    }
    assert Released(m1, t).owner.Keys == m.owner.Keys;
  }

  // ---- A tree without mappings ----

  lemma SpaceUnder(o: Owner)
    requires o.Table? && o.level <= 2 && InSpace(o.level, o.prefix)
    ensures Under(o, o.root, 2, 0)
  {
    if o.level == 0 {
      assert Up(o.prefix, 2) == Up(o.prefix / 512, 1) == Up(o.prefix / 512 / 512, 0);
    } else if o.level == 1 {
      assert Up(o.prefix, 1) == Up(o.prefix / 512, 0);
    }
  }

  ghost predicate NothingMapped(m: Mem, r: nat) {
    forall vpn: nat | vpn < MAXVPN :: Translate(m, r, vpn) == 0
  }

  lemma EmptyTree(m: Mem, r: nat)
    requires Inv(m) && IsRoot(m, r) && NothingMapped(m, r)
    ensures SubTree(m, r, r, 2, 0)
  {
    forall u | u in m.owner && Under(m.owner[u], r, 2, 0) ensures SubTable(m, r, 2, u) {
      var o := m.owner[u];
      assert TableOk(m, u);
      forall i: nat | i < ENTRIES ensures NoLeafAt(m, o, i, Word(m, u, i)) {
        assert EntryOk(m, o, i, Word(m, u, i));
        if o.level == 0 {
          var vpn := VpnOf(o, i);
          SplitPrefix(vpn, o.prefix, i);
          Reached(m, u, vpn);
          assert Index(vpn, 0) == i && Translate(m, r, vpn) == Word(m, u, i);
        }
      }
    }
  }

  /** All tables of the tree at r are gone; the other trees are untouched. */
  lemma TreeFreed(m: Mem, m': Mem, r: nat)
    requires Inv(m) && IsRoot(m, r) && NothingMapped(m, r)
    requires PagesOk(m') && FreeOk(m') && FreedUnder(m, m', r, 2, 0)
    ensures Inv(m') && OthersSame(m, m', r)
    ensures forall p | p in m.owner ::
      p in m'.owner && m'.owner[p] == if m.owner[p].Table? && m.owner[p].root == r then Free else m.owner[p]
  {
    forall p | p in m.owner ensures m'.owner[p] == if m.owner[p].Table? && m.owner[p].root == r then Free
      else m.owner[p] {
      if m.owner[p].Table? && m.owner[p].root == r {
        assert TableOk(m, p);
        SpaceUnder(m.owner[p]);
      }
    }
    forall t | IsTable(m', t) ensures TableOk(m', t) {
      OtherTableOk(m, m', r, t);
    }
    forall s: nat, vpn: nat | IsRoot(m, s) && s != r && vpn < MAXVPN ensures SameAt(m, m', s, vpn) {
      OtherTranslate(m, m', r, s, vpn);
    }
    forall p | p in m'.owner && m'.owner[p].Leaf? ensures SameAt(m, m', m.owner[p].root, m.owner[p].vpn)
      && m.owner[p].root != r {
      assert Translate(m, m.owner[p].root, m.owner[p].vpn) != 0;
    }
  }

  /** Every tree but the one at r translates as before. */
  ghost predicate OthersSame(m: Mem, m': Mem, r: nat) {
    forall s: nat, vpn: nat | IsRoot(m, s) && s != r && vpn < MAXVPN :: SameAt(m, m', s, vpn)
  }

  ghost predicate OnlyTreeGone(m: Mem, m': Mem, r: nat) {
    && m'.owner.Keys == m.owner.Keys
    && (forall p | p in m.owner ::
      m'.owner[p] == if m.owner[p].Table? && m.owner[p].root == r then Free else m.owner[p])
    && (forall p | p in m.owner && !m'.owner[p].Free? :: SamePage(m, m', p))
  }

  lemma OtherTableOk(m: Mem, m': Mem, r: nat, t: nat)
    requires Inv(m) && PagesOk(m') && OnlyTreeGone(m, m', r) && IsTable(m', t)
    ensures TableOk(m', t)
  {
    assert IsTable(m, t) && m'.owner[t] == m.owner[t] && TableOk(m, t);
    var o := m.owner[t];
    forall i: nat | i < ENTRIES ensures EntryOk(m', o, i, Word(m', t, i)) {
      assert EntryOk(m, o, i, Word(m, t, i));
    }
    if o.level < 2 {
      var u: nat :| ParentOf(m, u, t);
      assert ParentOf(m', u, t);
    }
  }

  lemma {:induction false} OtherDescend(m: Mem, m': Mem, r: nat, s: nat, t: nat, vpn: nat, level: nat)
    requires Inv(m) && OnlyTreeGone(m, m', r) && s != r && vpn < MAXVPN && level <= 2
    requires Is(m, t, Table(s, level, Prefix(vpn, level)))
    ensures Descend(m', t, vpn, level) == Descend(m, t, vpn, level)
    decreases level
  {
    if level > 0 {
      PrefixStep(vpn, level);
      assert TableOk(m, t);
      var e := Word(m, t, Index(vpn, level));
      assert EntryOk(m, m.owner[t], Index(vpn, level), e);
      if V(e) {
        OtherDescend(m, m', r, s, Ppn(e), vpn, level - 1);
      }
    }
  }

  lemma OtherTranslate(m: Mem, m': Mem, r: nat, s: nat, vpn: nat)
    requires Inv(m) && PagesOk(m') && OnlyTreeGone(m, m', r) && IsRoot(m, s) && s != r && vpn < MAXVPN
    ensures SameAt(m, m', s, vpn)
  {
    OtherDescend(m, m', r, s, s, vpn, 2);
    DescendOk(m, s, vpn, 2, s);
  }
}

/** The loops of kernel/log.c that write the disk, as one process runs them. The
    history records the disk after every single block write: these are the
    disks that a crash can leave behind. */
module LogDevice {
  import opened LogFormat
  import opened LogInvariant

  /** A crash that leaves d is harmless: recovery reaches the target's home blocks. */
  ghost predicate RecoversTo(g: Geometry, d: Disk, target: Disk) {
    && ValidGeometry(g) && ValidDisk(g, d) && ValidHeader(g, d[g.start])
    && SameHome(g, Recovered(g, d), target)
  }

  /** `before` with the group's blocks replaced. */
  function Overlay(before: Disk, group: map<nat, Block>): (after: Disk)
    ensures |after| == |before|
    ensures forall b: nat | b < |before| :: after[b] == if b in group then group[b] else before[b]
  {
    seq(|before|, b requires 0 <= b < |before| => if b in group then group[b] else before[b])
  }

  class Device {
    const g: Geometry
    var disk: Disk
    /** log.lh.block[..log.lh.n] */
    var lh: seq<nat>
    ghost var history: seq<Disk>

    ghost predicate Valid()
      reads this
    {
      ValidGeometry(g) && ValidDisk(g, disk) && ValidList(g, lh)
    }

    constructor (g: Geometry, disk: Disk)
      requires ValidGeometry(g) && ValidDisk(g, disk)
      ensures Valid() && this.g == g && this.disk == disk && lh == [] && history == [disk]
    {
      this.g := g;
      this.disk := disk;
      lh := [];
      history := [disk];
    }

    /** One block reaches the disk. */
    method Write(b: nat, data: Block)
      requires Valid() && b < g.nblocks && |data| == g.words
      modifies this`disk, this`history
      ensures Valid() && disk == old(disk)[b := data] && history == old(history) + [disk]
    {
      disk := disk[b := data];
      history := history + [disk];
    }

    /** write_log: the cached contents of each logged block go to the log area. */
    method WriteLog(group: map<nat, Block>)
      requires Valid() && Settled(g, disk, disk)
      requires forall b | b in lh :: b in group && |group[b]| == g.words
      modifies this`disk, this`history
      ensures Valid() && Settled(g, disk, old(disk)) && LogHolds(g, disk, lh, group, |lh|)
      ensures |history| == |old(history)| + |lh| && old(history) <= history
      ensures forall k | |old(history)| <= k < |history| ::
        ValidDisk(g, history[k]) && Settled(g, history[k], old(disk))
    {
      var tail := 0;
      while tail < |lh|
        invariant 0 <= tail <= |lh| && Valid()
        invariant Settled(g, disk, old(disk)) && LogHolds(g, disk, lh, group, tail)
        invariant |history| == |old(history)| + tail && old(history) <= history
        invariant forall k | |old(history)| <= k < |history| ::
          ValidDisk(g, history[k]) && Settled(g, history[k], old(disk))
      {
        assert lh[tail] in lh;
        Write(g.start + tail + 1, group[lh[tail]]);
        tail := tail + 1;
      }
    }

    /** write_head: the in-memory list goes into the header block. */
    method WriteHead()
      requires Valid()
      modifies this`disk, this`history
      ensures Valid() && disk == old(disk)[g.start := EncodeHeader(old(disk)[g.start], lh)]
      ensures history == old(history) + [disk]
    {
      var hb := disk[g.start];
      var n := |lh|;
      hb := hb[0 := n];
      var i := 0;
      while i < n
        invariant 0 <= i <= n && |hb| == g.words && hb[0] == n
        invariant forall k | 1 <= k <= i :: hb[k] == lh[k - 1]
        invariant forall k | i < k < g.words :: k == 0 || hb[k] == disk[g.start][k]
      {
        hb := hb[i + 1 := lh[i]];
        i := i + 1;
      }
      assert hb == EncodeHeader(disk[g.start], lh);
      Write(g.start, hb);
    }

    /** read_head: the list on disk becomes the in-memory list. */
    method ReadHead()
      requires ValidGeometry(g) && ValidDisk(g, disk) && ValidHeader(g, disk[g.start])
      modifies this`lh
      ensures Valid() && lh == DecodeHeader(disk[g.start])
    {
      var hb := disk[g.start];
      var blocks := [];
      var i := 0;
      while i < hb[0]
        invariant 0 <= i <= hb[0] && blocks == hb[1..i + 1]
      {
        blocks := blocks + [hb[i + 1]];
        i := i + 1;
      }
      lh := blocks;
    }

    /** install_trans: each logged block goes home. */
    method InstallTrans()
      requires Valid()
      modifies this`disk, this`history
      ensures Valid() && disk == Installed(g, old(disk), lh, |lh|)
      ensures |history| == |old(history)| + |lh| && old(history) <= history
      ensures forall k | 1 <= k <= |lh| :: history[|old(history)| + k - 1] == Installed(g, old(disk), lh, k)
    {
      var tail := 0;
      ghost var before := disk;
      while tail < |lh|
        invariant 0 <= tail <= |lh| && Valid() && disk == Installed(g, before, lh, tail)
        invariant |history| == |old(history)| + tail && old(history) <= history
        invariant forall k | 1 <= k <= tail :: history[|old(history)| + k - 1] == Installed(g, before, lh, k)
      {
        InstalledAt(g, before, lh, tail, g.start + tail + 1);
        assert g.start + tail + 1 !in lh[..tail];
        var data := disk[g.start + tail + 1];
        Write(lh[tail], data);
        tail := tail + 1;
      }
    }

    /** recover_from_log: the disk becomes the recovered one, and a crash during
        recovery leaves a disk from which recovery reaches the same. */
    method RecoverFromLog()
      requires ValidGeometry(g) && ValidDisk(g, disk) && ValidHeader(g, disk[g.start])
      modifies this
      ensures Valid() && lh == [] && disk == Recovered(g, old(disk))
      ensures old(history) <= history
      ensures forall k | |old(history)| <= k < |history| :: RecoversTo(g, history[k], Recovered(g, old(disk)))
    {
      hide Installed;
      hide RecoversTo;
      hide SameHome;
      ghost var before, start := disk, |history|;
      ReadHead();
      InstallTrans();
      ghost var list := lh;
      forall k | start <= k < |history| ensures RecoversTo(g, history[k], Recovered(g, before)) {
        PartialRecovers(g, before, k - start + 1);
        assert history[k] == Installed(g, before, list, k - start + 1);
      }
      lh := [];
      WriteHead();
      RecoveredSettled(g, before);
    }

    /** commit: log, header, home, header. A crash before the header write leaves a
        disk that recovers to the old home blocks; a crash after it, one that recovers
        to the old home blocks with the whole group installed. */
    method Commit(group: map<nat, Block>)
      requires Valid() && Settled(g, disk, disk)
      requires forall b :: b in group <==> b in lh
      requires forall b | b in group :: |group[b]| == g.words
      modifies this
      ensures Valid() && lh == [] && Settled(g, disk, Overlay(old(disk), group))
      ensures old(history) <= history
      ensures forall k | |old(history)| <= k < |history| ::
                RecoversTo(g, history[k], if k < |old(history)| + |old(lh)| then old(disk)
                  else Overlay(old(disk), group))
    {
      hide RecoversTo;
      hide Committed;
      hide SameHome;
      hide LogHolds;
      ghost var before, after, start := disk, Overlay(disk, group), |history|;
      if |lh| > 0 {
        WriteLog(group);
        forall k | start <= k < |history| ensures RecoversTo(g, history[k], before) {
          SettledDisk(g, history[k], before);
        }
        ghost var logged := disk;
        HeaderRoundTrip(disk[g.start], lh);
        WriteHead();
        HeaderCommits(g, logged, before, after, lh, group, disk[g.start]);
        Finish(after);
      } else {
        assert after == before;
      }
    }

    /** The part of commit after its commit point. */
    method Finish(ghost after: Disk)
      requires Valid() && |after| == g.nblocks && Committed(g, disk, after, lh, 0)
      requires |history| > 0 && history[|history| - 1] == disk
      modifies this
      ensures Valid() && lh == [] && Settled(g, disk, after)
      ensures old(history) <= history
      ensures forall k | |old(history)| - 1 <= k < |history| :: RecoversTo(g, history[k], after)
    {
      hide RecoversTo;
      hide Committed;
      hide Settled;
      hide Installed;
      ghost var committed, start := disk, |history|;
      CommittedDisk(g, disk, after, lh, 0);
      InstallTrans();
      forall k | start <= k < |history| ensures RecoversTo(g, history[k], after) {
        InstallsCommitted(g, committed, after, lh, k - start + 1);
        CommittedDisk(g, history[k], after, lh, k - start + 1);
      }
      InstallsCommitted(g, committed, after, lh, |lh|);
      ClearSettles(g, disk, after, lh);
      lh := [];
      WriteHead();
      SettledDisk(g, disk, after);
    }
  }

  lemma CommittedDisk(g: Geometry, d: Disk, target: Disk, list: seq<nat>, t: nat)
    requires ValidGeometry(g) && ValidDisk(g, d) && |target| == g.nblocks && Committed(g, d, target, list, t)
    ensures RecoversTo(g, d, target)
  {
    CommittedRecovers(g, d, target, list, t);
  }

  lemma SettledDisk(g: Geometry, d: Disk, target: Disk)
    requires ValidGeometry(g) && ValidDisk(g, d) && Settled(g, d, target)
    ensures RecoversTo(g, d, target)
  {
    SettledRecovers(g, d, target);
  }

  lemma ClearSettles(g: Geometry, d: Disk, target: Disk, list: seq<nat>)
    requires ValidGeometry(g) && ValidDisk(g, d) && |target| == g.nblocks && Committed(g, d, target, list, |list|)
    ensures Settled(g, d[g.start := EncodeHeader(d[g.start], [])], target)
  {
    HeaderRoundTrip(d[g.start], []);
    assert list[|list|..] == [];
  }

  lemma {:induction false} InstallsCommitted(g: Geometry, disk: Disk, durable: Disk, list: seq<nat>, k: nat)
    requires ValidGeometry(g) && ValidDisk(g, disk) && |durable| == g.nblocks
    requires Committed(g, disk, durable, list, 0) && k <= |list|
    ensures Committed(g, Installed(g, disk, list, k), durable, list, k)
  {
    if k > 0 {
      InstallsCommitted(g, disk, durable, list, k - 1);
      var d := Installed(g, disk, list, k - 1);
      InstalledAt(g, disk, list, k - 1, g.start + k);
      assert g.start + k !in list[..k - 1];
      InstallOne(g, d, durable, list, k - 1);
    }
  }

  lemma PartialRecovers(g: Geometry, d: Disk, k: nat)
    requires ValidGeometry(g) && ValidDisk(g, d) && ValidHeader(g, d[g.start])
    requires k <= |DecodeHeader(d[g.start])|
    ensures RecoversTo(g, Installed(g, d, DecodeHeader(d[g.start]), k), Recovered(g, d))
  {
    var list := DecodeHeader(d[g.start]);
    HeaderNames(g, d, Recovered(g, d));
    InstallsCommitted(g, d, Recovered(g, d), list, k);
    CommittedRecovers(g, Installed(g, d, list, k), Recovered(g, d), list, k);
  }

  lemma RecoveredSettled(g: Geometry, d: Disk)
    requires ValidGeometry(g) && ValidDisk(g, d) && ValidHeader(g, d[g.start])
    ensures RecoversTo(g, Recovered(g, d), Recovered(g, d))
  {
    var list := DecodeHeader(d[g.start]);
    HeaderRoundTrip(Installed(g, d, list, |list|)[g.start], []);
    SettledRecovers(g, Recovered(g, d), Recovered(g, d));
  }
}

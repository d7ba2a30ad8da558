/**
  The bodies of kernel/log.c as they are written: in-place header list, loops over `tail` and `i`,
  one disk write at a time. `trail` records the disk after every write, so a crash after any write
  of any method is one of its entries.
 */
module LogDriver {
  import opened LogSpec

  type Cache = map<nat, Block>

  // ---------------------------------------------------------------- facts about single writes

  function Seen(d: Disk, c: Cache, b: nat): Block
    requires b < |d|
  {
    if b in c then c[b] else d[b]
  }

  /** The home blocks as readers see them. */
  ghost function Image(g: Geometry, d: Disk, c: Cache): map<nat, Block> {
    map b: nat | b < |d| && !InLog(g, b) :: Seen(d, c, b)
  }

  ghost predicate Synced(d: Disk, c: Cache, b: nat) {
    b in c && b < |d| ==> c[b] == d[b]
  }

  /** Only listed blocks may differ between cache and disk. */
  ghost predicate Consistent(g: Geometry, d: Disk, c: Cache, lh: seq<nat>) {
    && HeaderOk(g, d) && Loggable(g, |d|, lh)
    && forall b: nat {:trigger Synced(d, c, b)} :: b !in lh ==> Synced(d, c, b)
  }

  ghost predicate Resident(c: Cache, lh: seq<nat>) {
    forall i :: 0 <= i < |lh| ==> lh[i] in c
  }

  ghost predicate LogCopy(g: Geometry, d: Disk, c: Cache, lh: seq<nat>, i: nat)
    requires i < |lh|
  {
    lh[i] in c && g.start + 1 + i < |d| && d[g.start + 1 + i] == c[lh[i]]
  }

  /** Slots lo..hi of the log hold the cached contents of the blocks they stand for. */
  ghost predicate Copied(g: Geometry, d: Disk, c: Cache, lh: seq<nat>, lo: nat, hi: nat)
    requires hi <= |lh|
  {
    forall i: nat {:trigger LogCopy(g, d, c, lh, i)} :: lo <= i < hi ==> LogCopy(g, d, c, lh, i)
  }

  ghost predicate AtHome(g: Geometry, d: Disk, c: Cache, lh: seq<nat>, i: nat)
    requires i < |lh|
  {
    LogCopy(g, d, c, lh, i) && lh[i] < |d| && d[lh[i]] == c[lh[i]]
  }

  ghost predicate Installed(g: Geometry, d: Disk, c: Cache, lh: seq<nat>, k: nat)
    requires k <= |lh|
  {
    forall i: nat {:trigger AtHome(g, d, c, lh, i)} :: i < k ==> AtHome(g, d, c, lh, i)
  }

  /** One pass of write_log. */
  lemma CopyStep(g: Geometry, d: Disk, c: Cache, lh: seq<nat>, k: nat)
    requires Consistent(g, d, c, lh) && Resident(c, lh) && Listed(d[g.start]) == []
    requires k < |lh| && Copied(g, d, c, lh, 0, k)
    ensures var to := g.start + 1 + k;
            var d', c' := d[to := c[lh[k]]], c[to := c[lh[k]]];
            && Consistent(g, d', c', lh) && Resident(c', lh) && Listed(d'[g.start]) == []
            && Copied(g, d', c', lh, 0, k + 1)
            && Image(g, d', c') == Image(g, d, c) && Recovered(g, d') == Recovered(g, d)
  {
    var to := g.start + 1 + k;
    var d', c' := d[to := c[lh[k]]], c[to := c[lh[k]]];
    LogFillKeepsRecovered(g, d, to, c[lh[k]]);
    forall b: nat | b !in lh ensures Synced(d', c', b) { assert Synced(d, c, b); }
    forall i: nat | i < k + 1 ensures LogCopy(g, d', c', lh, i) {
      if i < k { assert LogCopy(g, d, c, lh, i); }
    }
  }

  /** The header write that commits. */
  lemma CommitStep(g: Geometry, d: Disk, c: Cache, lh: seq<nat>, hdr: Block)
    requires Consistent(g, d, c, lh) && Copied(g, d, c, lh, 0, |lh|)
    requires HeaderShape(hdr) && Listed(hdr) == lh
    ensures var d', c' := d[g.start := hdr], c[g.start := hdr];
            && Consistent(g, d', c', lh) && Copied(g, d', c', lh, 0, |lh|)
            && Image(g, d', c') == Image(g, d, c) && Recovered(g, d') == Image(g, d, c)
  {
    var d', c' := d[g.start := hdr], c[g.start := hdr];
    var view := Image(g, d, c);
    forall b: nat | b < |d| && !InLog(g, b) ensures OverlayAt(g, d, lh, view, b) {
      if b in lh { assert LogCopy(g, d, c, lh, IndexOf(lh, b)); } else { assert Synced(d, c, b); }
    }
    HeaderWriteCommits(g, d, hdr, view);
    forall b: nat | b !in lh ensures Synced(d', c', b) { assert Synced(d, c, b); }
    forall i: nat | i < |lh| ensures LogCopy(g, d', c', lh, i) { assert LogCopy(g, d, c, lh, i); }
  }

  /** One pass of install_trans, in a commit (the block is resident) or in recovery (it need not be). */
  lemma InstallStep(g: Geometry, d: Disk, c: Cache, lh: seq<nat>, k: nat, c': Cache)
    requires Consistent(g, d, c, lh) && Listed(d[g.start]) == lh
    requires k < |lh| && Installed(g, d, c, lh, k)
    requires var data := d[g.start + 1 + k]; c' == c[g.start + 1 + k := data][lh[k] := data]
    ensures var d' := d[lh[k] := d[g.start + 1 + k]];
            && Consistent(g, d', c', lh) && Listed(d'[g.start]) == lh && Installed(g, d', c', lh, k + 1)
            && Recovered(g, d') == Recovered(g, d)
  {
    var d' := d[lh[k] := d[g.start + 1 + k]];
    InstallKeepsRecovered(g, d, k);
    forall b: nat | b !in lh ensures Synced(d', c', b) { assert Synced(d, c, b); }
    forall i: nat | i < k + 1 ensures AtHome(g, d', c', lh, i) {
      if i < k { assert AtHome(g, d, c, lh, i); }
    }
  }

  /** The same pass as install_trans does it: bread the log block, bread the home block, bwrite it. */
  lemma InstallPass(g: Geometry, d: Disk, c: Cache, lh: seq<nat>, k: nat, d': Disk, c': Cache)
    requires Consistent(g, d, c, lh) && Listed(d[g.start]) == lh
    requires k < |lh| && Installed(g, d, c, lh, k)
    requires var l := g.start + 1 + k;
             var data := Seen(d, c, l);
             && d' == d[lh[k] := data]
             && c' == c[l := data][lh[k] := Seen(d, c[l := data], lh[k])][lh[k] := data]
    ensures Consistent(g, d', c', lh) && Listed(d'[g.start]) == lh && Installed(g, d', c', lh, k + 1)
    ensures Recovered(g, d') == Recovered(g, d)
  {
    var l := g.start + 1 + k;
    assert Synced(d, c, l);
    assert c' == c[l := d[l]][lh[k] := d[l]];
    InstallStep(g, d, c, lh, k, c');
  }

  /** The header write that empties the log. */
  lemma EraseStep(g: Geometry, d: Disk, c: Cache, lh: seq<nat>, hdr: Block)
    requires Consistent(g, d, c, lh) && Listed(d[g.start]) == lh && Installed(g, d, c, lh, |lh|)
    requires HeaderShape(hdr) && Listed(hdr) == []
    ensures var d', c' := d[g.start := hdr], c[g.start := hdr];
            && Consistent(g, d', c', [])
            && Recovered(g, d') == Recovered(g, d) && Home(g, d') == Recovered(g, d) && Image(g, d', c') == Home(g, d')
  {
    var d', c' := d[g.start := hdr], c[g.start := hdr];
    forall i: nat | i < |lh| ensures IsHome(g, d, i) { assert AtHome(g, d, c, lh, i); }
    EraseKeepsRecovered(g, d, hdr);
    forall b: nat ensures Synced(d', c', b) {
      if b in lh { assert AtHome(g, d, c, lh, IndexOf(lh, b)); } else { assert Synced(d, c, b); }
    }
    forall b: nat | b < |d| && !InLog(g, b) ensures Seen(d', c', b) == d'[b] { assert Synced(d', c', b); }
  }

  // ---------------------------------------------------------------- the code

  /** Every disk image in trail[lo..] recovers to `home`. */
  ghost predicate RecoverTo(g: Geometry, trail: seq<Disk>, lo: nat, home: map<nat, Block>) {
    forall i :: lo <= i < |trail| ==> HeaderOk(g, trail[i]) && Recovered(g, trail[i]) == home
  }

  /** t extends t0 by disk images that all recover to `home`. */
  ghost predicate OnTrail(g: Geometry, t0: seq<Disk>, t: seq<Disk>, home: map<nat, Block>) {
    t0 <= t && RecoverTo(g, t, |t0|, home)
  }

  lemma TrailMore(g: Geometry, t0: seq<Disk>, t: seq<Disk>, home: map<nat, Block>, d: Disk)
    requires OnTrail(g, t0, t, home) && HeaderOk(g, d) && Recovered(g, d) == home
    ensures OnTrail(g, t0, t + [d], home)
  {
  }

  lemma TrailJoin(g: Geometry, t0: seq<Disk>, t1: seq<Disk>, t2: seq<Disk>, home: map<nat, Block>)
    requires OnTrail(g, t0, t1, home) && OnTrail(g, t1, t2, home)
    ensures OnTrail(g, t0, t2, home)
  {
  }

  type Pins = map<nat, int>

  function PinsOf(pins: Pins, b: nat): int {
    if b in pins then pins[b] else 0
  }

  /** One pin less for each of the first k blocks of lh. */
  ghost predicate Dropped(p: Pins, p': Pins, lh: seq<nat>, k: nat)
    requires k <= |lh|
  {
    forall b {:trigger PinsOf(p', b)} :: PinsOf(p', b) == PinsOf(p, b) - if b in lh[..k] then 1 else 0
  }

  lemma DroppedMore(p: Pins, p1: Pins, p2: Pins, lh: seq<nat>, k: nat)
    requires Distinct(lh) && k < |lh| && Dropped(p, p1, lh, k) && p2 == p1[lh[k] := PinsOf(p1, lh[k]) - 1]
    ensures Dropped(p, p2, lh, k + 1)
  {
    assert lh[..k + 1] == lh[..k] + [lh[k]];
    forall b ensures PinsOf(p2, b) == PinsOf(p, b) - if b in lh[..k + 1] then 1 else 0 {
      assert b != lh[k] ==> PinsOf(p2, b) == PinsOf(p1, b);
    }
  }

  /** What install_trans has done to the pins after k blocks. */
  ghost predicate Unpinned(p: Pins, p': Pins, lh: seq<nat>, k: nat, recovering: bool)
    requires k <= |lh|
  {
    if recovering then p' == p else Dropped(p, p', lh, k)
  }

  lemma UnpinnedMore(p: Pins, p1: Pins, p2: Pins, lh: seq<nat>, k: nat, recovering: bool)
    requires Distinct(lh) && k < |lh| && Unpinned(p, p1, lh, k, recovering)
    requires p2 == if recovering then p1 else p1[lh[k] := PinsOf(p1, lh[k]) - 1]
    ensures Unpinned(p, p2, lh, k + 1, recovering)
  {
    if !recovering { DroppedMore(p, p1, p2, lh, k); }
  }

  /** Each listed block is pinned once, and no other block is. */
  ghost predicate Balanced(pins: Pins, lh: seq<nat>) {
    forall b {:trigger PinsOf(pins, b)} :: PinsOf(pins, b) == if b in lh then 1 else 0
  }

  lemma PinnedMore(pins: Pins, lh: seq<nat>, b: nat)
    requires Balanced(pins, lh) && b !in lh
    ensures Balanced(pins[b := PinsOf(pins, b) + 1], lh + [b])
  {
    var p' := pins[b := PinsOf(pins, b) + 1];
    forall c ensures PinsOf(p', c) == if c in lh + [b] then 1 else 0 {
      assert c != b ==> PinsOf(p', c) == PinsOf(pins, c);
    }
  }

  /** A commit unpins what log_write pinned. */
  lemma DroppedAll(p: Pins, p': Pins, lh: seq<nat>)
    requires Balanced(p, lh) && Dropped(p, p', lh, |lh|)
    ensures Balanced(p', [])
  {
    assert lh[..|lh|] == lh;
  }

  class Log {
    const g: Geometry
    var disk: Disk
    var cached: Cache  // the valid buffers
    var n: nat
    var block: array<nat>
    var pins: Pins  // for each block, the references that bpin took and bunpin has not given back
    ghost var trail: seq<Disk>

    ghost predicate Valid()
      reads `disk, `cached, `n, `block, block
    {
      block.Length == LOGSIZE && n <= LOGSIZE && Consistent(g, disk, cached, block[..n])
    }

    /** initlog, on a disk left by any crash: its home blocks become the recovered image and the log is empty. A crash
        on the way recovers to the same image. */
    constructor (g: Geometry, disk: Disk)
      requires HeaderOk(g, disk)
      ensures Valid() && this.g == g && n == 0 && pins == map[] && Listed(this.disk[g.start]) == []
      ensures Home(g, this.disk) == Recovered(g, disk) == Image(g, this.disk, cached)
      ensures OnTrail(g, [], trail, Recovered(g, disk))
    {
      this.g, this.disk, cached, n, pins, trail := g, disk, map[], 0, map[], [];
      block := new nat[LOGSIZE];
      new;
      RecoverFromLog();
    }

    method Bread(b: nat) returns (data: Block)
      requires b < |disk|
      modifies this`cached
      ensures data == Seen(disk, old(cached), b) && cached == old(cached)[b := data]
    {
      data := Seen(disk, cached, b);
      cached := cached[b := data];
    }

    method Bwrite(b: nat, data: Block)
      requires b < |disk|
      modifies this`cached, this`disk, this`trail
      ensures disk == old(disk)[b := data] && cached == old(cached)[b := data]
      ensures trail == old(trail) + [disk]
    {
      disk := disk[b := data];
      cached := cached[b := data];
      trail := trail + [disk];
    }

    /** read_head: the in-memory list becomes the one on the disk. */
    method ReadHead()
      requires block.Length == LOGSIZE && Consistent(g, disk, cached, [])
      modifies this`cached, this`n, block
      ensures Valid() && block[..n] == Listed(disk[g.start])
    {
      assert Synced(disk, cached, g.start);
      var hdr := Bread(g.start);
      ghost var was := Listed(hdr);
      n := hdr.w[0];
      var i := 0;
      while i < n
        modifies block
        invariant 0 <= i <= n == |was|
        invariant forall j :: 0 <= j < i ==> block[j] == was[j]
      {
        block[i] := hdr.w[1 + i];
        i := i + 1;
      }
      assert block[..n] == was;
      forall b: nat ensures Synced(disk, cached, b) { assert Synced(disk, old(cached), b); }
    }

    /** write_head: afterwards the disk lists exactly the in-memory blocks. */
    method WriteHead() returns (hdr: Block)
      requires block.Length == LOGSIZE && n <= LOGSIZE && HeaderOk(g, disk) && Synced(disk, cached, g.start)
      modifies this`cached, this`disk, this`trail
      ensures HeaderShape(hdr) && Listed(hdr) == block[..n]
      ensures disk == old(disk)[g.start := hdr] && cached == old(cached)[g.start := hdr]
      ensures trail == old(trail) + [disk]
    {
      var buf := Bread(g.start);
      var w := buf.w[0 := n];
      var i := 0;
      while i < n
        invariant 0 <= i <= n && |w| == BWORDS && w[0] == n
        invariant forall j :: 0 <= j < i ==> w[1 + j] == block[j]
      {
        w := w[1 + i := block[i]];
        i := i + 1;
      }
      assert w[1..1 + n] == block[..n];
      hdr := Block(w);
      Bwrite(g.start, hdr);
    }

    /** One pass of the loop of write_log. */
    method CopyOne(tail: nat, ghost lh: seq<nat>)
      requires Valid() && lh == block[..n] && tail < n && Resident(cached, lh) && Listed(disk[g.start]) == []
      requires Copied(g, disk, cached, lh, 0, tail)
      modifies this`cached, this`disk, this`trail
      ensures Valid() && Resident(cached, lh) && Listed(disk[g.start]) == [] && Copied(g, disk, cached, lh, 0, tail + 1)
      ensures Image(g, disk, cached) == Image(g, old(disk), old(cached))
      ensures Recovered(g, disk) == Recovered(g, old(disk)) && trail == old(trail) + [disk]
    {
      var to := Bread(g.start + 1 + tail);
      var from := Bread(block[tail]);
      Bwrite(g.start + 1 + tail, from);
      CopyStep(g, old(disk), old(cached), lh, tail);
      assert cached == old(cached)[g.start + 1 + tail := old(cached)[lh[tail]]];
    }

    /** write_log: each listed block's latest contents go to its log slot; no image changes. */
    method WriteLog()
      requires Valid() && Resident(cached, block[..n]) && Listed(disk[g.start]) == []
      modifies this`cached, this`disk, this`trail
      ensures Valid() && Listed(disk[g.start]) == [] && Copied(g, disk, cached, block[..n], 0, n)
      ensures Image(g, disk, cached) == Image(g, old(disk), old(cached))
      ensures OnTrail(g, old(trail), trail, Recovered(g, old(disk)))
      ensures Recovered(g, disk) == Recovered(g, old(disk))
    {
      var tail := 0;
      ghost var lh := block[..n];
      while tail < n
        invariant 0 <= tail <= n && block[..n] == lh
        invariant Valid() && Resident(cached, lh) && Listed(disk[g.start]) == []
        invariant Copied(g, disk, cached, lh, 0, tail)
        invariant Image(g, disk, cached) == Image(g, old(disk), old(cached))
        invariant Recovered(g, disk) == Recovered(g, old(disk))
        invariant OnTrail(g, old(trail), trail, Recovered(g, old(disk)))
      {
        ghost var t1 := trail;
        CopyOne(tail, lh);
        TrailMore(g, old(trail), t1, Recovered(g, old(disk)), disk);
        tail := tail + 1;
      }
    }

    /** Copy log block `tail` home, as one pass of install_trans does. */
    method CopyHome(tail: nat, ghost lh: seq<nat>)
      requires Valid() && lh == block[..n] && tail < n && Listed(disk[g.start]) == lh
               && Installed(g, disk, cached, lh, tail)
      modifies this`cached, this`disk, this`trail
      ensures Valid() && Listed(disk[g.start]) == lh && Installed(g, disk, cached, lh, tail + 1)
      ensures Recovered(g, disk) == Recovered(g, old(disk)) && trail == old(trail) + [disk] && HeaderOk(g, disk)
    {
      var lbuf := Bread(g.start + 1 + tail);
      var dbuf := Bread(block[tail]);
      Bwrite(block[tail], lbuf);
      InstallPass(g, old(disk), old(cached), lh, tail, disk, cached);
    }

    /** One pass of the loop of install_trans, which began with the trail t0 and the pins p0. */
    method InstallOne(tail: nat, recovering: bool, ghost lh: seq<nat>, ghost t0: seq<Disk>, ghost p0: Pins)
      requires Valid() && lh == block[..n] && tail < n && Listed(disk[g.start]) == lh
               && Installed(g, disk, cached, lh, tail)
      requires OnTrail(g, t0, trail, Recovered(g, disk)) && Unpinned(p0, pins, lh, tail, recovering)
      modifies this`cached, this`disk, this`trail, this`pins
      ensures Valid() && Listed(disk[g.start]) == lh && Installed(g, disk, cached, lh, tail + 1)
      ensures Recovered(g, disk) == Recovered(g, old(disk)) && OnTrail(g, t0, trail, Recovered(g, disk))
      ensures Unpinned(p0, pins, lh, tail + 1, recovering)
    {
      CopyHome(tail, lh);
      TrailMore(g, t0, old(trail), Recovered(g, disk), disk);
      if !recovering {
        pins := pins[block[tail] := PinsOf(pins, block[tail]) - 1];
      }
      UnpinnedMore(p0, old(pins), pins, lh, tail, recovering);
    }

    /** install_trans: every listed block goes home and, in a commit, is unpinned; each disk image on
        the way recovers the same. */
    method InstallTrans(recovering: bool)
      requires Valid() && Listed(disk[g.start]) == block[..n]
      modifies this`cached, this`disk, this`trail, this`pins
      ensures Valid() && Listed(disk[g.start]) == block[..n] && Installed(g, disk, cached, block[..n], n)
      ensures OnTrail(g, old(trail), trail, Recovered(g, old(disk)))
      ensures Recovered(g, disk) == Recovered(g, old(disk))
      ensures Unpinned(old(pins), pins, block[..n], n, recovering)
    {
      var tail := 0;
      ghost var lh := block[..n];
      while tail < n
        invariant 0 <= tail <= n && block[..n] == lh
        invariant Valid() && Listed(disk[g.start]) == lh && Installed(g, disk, cached, lh, tail)
        invariant Recovered(g, disk) == Recovered(g, old(disk))
        invariant OnTrail(g, old(trail), trail, Recovered(g, old(disk)))
        invariant Unpinned(old(pins), pins, lh, tail, recovering)
      {
        InstallOne(tail, recovering, lh, old(trail), old(pins));
        tail := tail + 1;
      }
    }

    /** The erasure of the header, after install_trans: the home blocks are what the disk recovered to. */
    method Erase(ghost lh: seq<nat>)
      requires block.Length == LOGSIZE && Consistent(g, disk, cached, lh) && Listed(disk[g.start]) == lh
      requires Installed(g, disk, cached, lh, |lh|)
      modifies this`cached, this`disk, this`trail, this`n
      ensures Valid() && n == 0 && Listed(disk[g.start]) == []
      ensures Home(g, disk) == Recovered(g, old(disk)) == Image(g, disk, cached)
      ensures OnTrail(g, old(trail), trail, Recovered(g, old(disk)))
    {
      n := 0;
      assert Synced(disk, cached, g.start);
      var hdr := WriteHead();
      EraseStep(g, old(disk), old(cached), lh, hdr);
      TrailMore(g, old(trail), old(trail), Recovered(g, old(disk)), disk);
    }

    /** The header write that commits: from here on the group is on the disk. */
    method CommitHead(ghost lh: seq<nat>)
      requires Valid() && lh == block[..n] && Copied(g, disk, cached, lh, 0, n)
      modifies this`cached, this`disk, this`trail
      ensures Valid() && Listed(disk[g.start]) == lh && Image(g, disk, cached) == Image(g, old(disk), old(cached))
      ensures Recovered(g, disk) == Image(g, old(disk), old(cached))
      ensures OnTrail(g, old(trail), trail, Image(g, old(disk), old(cached)))
    {
      assert Synced(disk, cached, g.start);
      var hdr := WriteHead();
      CommitStep(g, old(disk), old(cached), lh, hdr);
      TrailMore(g, old(trail), old(trail), Image(g, old(disk), old(cached)), disk);
    }

    /** commit after write_log. */
    method CommitGroup()
      requires Valid() && Copied(g, disk, cached, block[..n], 0, n)
      modifies this`cached, this`disk, this`trail, this`n, this`pins
      ensures Valid() && n == 0 && Listed(disk[g.start]) == [] && Dropped(old(pins), pins, old(block[..n]), old(n))
      ensures Home(g, disk) == Image(g, old(disk), old(cached)) == Image(g, disk, cached)
      ensures OnTrail(g, old(trail), trail, Image(g, old(disk), old(cached)))
    {
      ghost var lh, home := block[..n], Image(g, disk, cached);
      CommitHead(lh);
      ghost var t1 := trail;
      InstallTrans(false);
      TrailJoin(g, old(trail), t1, trail, home);
      ghost var t2 := trail;
      Erase(lh);
      TrailJoin(g, old(trail), t2, trail, home);
    }

    /** commit: on return the home blocks are what readers saw and the log is empty. A crash after
        any write recovers either everything before the group or everything after it, and once the
        header is written always the latter. Each block of the group is unpinned. */
    method Commit()
      requires Valid() && Resident(cached, block[..n]) && Listed(disk[g.start]) == []
      modifies this`cached, this`disk, this`trail, this`n, this`pins
      ensures Valid() && n == 0 && Listed(disk[g.start]) == [] && Dropped(old(pins), pins, old(block[..n]), old(n))
      ensures Balanced(old(pins), old(block[..n])) ==> Balanced(pins, [])
      ensures Home(g, disk) == Image(g, old(disk), old(cached)) == Image(g, disk, cached)
      ensures exists mid :: OnTrail(g, old(trail), mid, Recovered(g, old(disk)))
                            && OnTrail(g, mid, trail, Image(g, old(disk), old(cached)))
    {
      if n > 0 {
        WriteLog();
        ghost var mid := trail;
        CommitGroup();
        assert OnTrail(g, old(trail), mid, Recovered(g, old(disk)));
      } else {
        forall b: nat | b < |disk| ensures Seen(disk, cached, b) == disk[b] { assert Synced(disk, cached, b); }
        assert OnTrail(g, trail, trail, Recovered(g, disk)) && OnTrail(g, trail, trail, Image(g, disk, cached));
      }
      if Balanced(old(pins), old(block[..n])) { DroppedAll(old(pins), pins, old(block[..n])); }
    }

    /** recover_from_log: the home blocks become the recovered image, the log is emptied, and a crash
        after any write of the recovery itself recovers to the same image. */
    method RecoverFromLog()
      requires block.Length == LOGSIZE && Consistent(g, disk, cached, [])
      modifies this`cached, this`disk, this`trail, this`pins, this`n, block
      ensures Valid() && n == 0 && Listed(disk[g.start]) == [] && pins == old(pins)
      ensures Home(g, disk) == Recovered(g, old(disk)) == Image(g, disk, cached)
      ensures OnTrail(g, old(trail), trail, Recovered(g, old(disk)))
    {
      ReadHead();
      ghost var lh := block[..n];
      InstallTrans(true);
      ghost var mid := trail;
      Erase(lh);
      TrailJoin(g, old(trail), mid, trail, Recovered(g, old(disk)));
    }

    /** log_write of a block whose new contents are in the cache: it ends up in the list, once, and is
        pinned when it enters. So the pins stay exactly the listed blocks, as they are after a commit. */
    method LogWrite(b: nat, outstanding: int) returns (panic: bool)
      requires Valid() && b < |disk| && !InLog(g, b) && b in cached
      modifies this`n, this`pins, block
      ensures panic <==> old(n) >= LOGSIZE || old(n) >= g.size - 1 || outstanding < 1
      ensures panic ==> n == old(n) && block[..] == old(block[..]) && pins == old(pins)
      ensures !panic ==> Valid()
      ensures !panic ==> block[..n] == if b in old(block[..n]) then old(block[..n]) else old(block[..n]) + [b]
      ensures !panic ==> pins == if b in old(block[..n]) then old(pins) else old(pins)[b := PinsOf(old(pins), b) + 1]
      ensures Balanced(old(pins), old(block[..n])) ==> Balanced(pins, block[..n])
    {
      if n >= LOGSIZE || n >= g.size - 1 || outstanding < 1 { return true; }
      ghost var lh := block[..n];
      var i := 0;
      while i < n && block[i] != b
        invariant 0 <= i <= n && b !in block[..i]
      {
        i := i + 1;
      }
      block[i] := b;
      if i == n {
        pins := pins[b := PinsOf(pins, b) + 1];
        n := n + 1;
        assert block[..n] == lh + [b];
        if Balanced(old(pins), lh) { PinnedMore(old(pins), lh, b); }
      } else {
        assert block[..n] == lh;
      }
      forall c: nat | c !in block[..n] ensures Synced(disk, cached, c) { assert c !in lh; }
      panic := false;
    }
  }
}

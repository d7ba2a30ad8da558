/**
  kernel/fs.c: block allocation, block maps, reading, writing and truncating files, updated in place.
  Each bread/log_write pair acts on the block as the cache sees it; `logged` is the set of blocks that
  the current operation has passed to log_write.
  A clause `P(..) == true` says P(..) and keeps it one fact, which the verifier does not take apart.
 */
module FileSystem {
  import opened Inodes
  import opened Sets

  class Files {
    var d: Disk
    var dino: seq<Inode>              // the inodes as last written by iupdate
    var logged: set<nat>
    ghost var own: map<nat, Owner>
    ghost var base: Disk              // the disk when the operation began
    ghost var dbase: seq<Inode>       // the inodes on it then
    ghost var torn: set<nat>          // blocks it wrote to without passing them to log_write
    ghost var history: seq<Tx>        // the operations that have ended
    const bmapstart: nat
    const inodestart: nat

    constructor (disk: Disk, bmapstart: nat, inodestart: nat, ghost own: map<nat, Owner>)
      requires Owned(disk, own) && NoHoles(disk)
      ensures Valid() && d == disk && dino == disk.ino && logged == {} && history == []
      ensures this.bmapstart == bmapstart && this.inodestart == inodestart
    {
      d, dino, logged := disk, disk.ino, {};
      this.own, base, dbase, torn, history := own, disk, disk.ino, {}, [];
      this.bmapstart, this.inodestart := bmapstart, inodestart;
    }

    ghost predicate Valid()
      reads this`d, this`dino, this`logged, this`own, this`base, this`torn
    {
      Owned(d, own) == true && NoHoles(d) && |dino| == |d.ino| && Logs()
    }

    /** Every block changed since the operation began has been passed to log_write, or is torn. */
    ghost predicate Logs()
      reads this`d, this`logged, this`base, this`torn
    {
      AllLogged(base, d, logged + torn, bmapstart) == true
    }

    /** begin_op, as far as the blocks are concerned. */
    method BeginOp()
      requires Valid()
      modifies this`logged, this`base, this`dbase, this`torn
      ensures Valid() && logged == {} && torn == {} && base == d && dbase == dino
    {
      logged, base, dbase, torn := {}, d, dino, {};
    }

    /** end_op: the operation joins the history. */
    ghost method EndOp()
      modifies this`history
      ensures history == old(history) + [Tx(base, d, dbase, dino, logged, torn)]
    {
      history := history + [Tx(base, d, dbase, dino, logged, torn)];
    }

    /** BBLOCK */
    function BitmapBlock(b: nat): nat {
      b / BPB + bmapstart
    }

    /** IBLOCK */
    function InodeBlock(i: nat): nat {
      i / IPB + inodestart
    }

    /** balloc: the lowest free block, marked and zeroed. */
    method Balloc() returns (b: nat)
      requires Shape(d) && forall c :: 0 <= c < d.data ==> d.used[c]
      modifies this`d, this`logged
      ensures b == 0 ==> d == old(d) && logged == old(logged) && forall c :: 0 <= c < |d.used| ==> d.used[c]
      ensures b != 0 ==>
                && old(d).data <= b < |old(d).used| == |old(d).blk| && !old(d).used[b]
                && (forall c :: 0 <= c < b ==> old(d).used[c])
                && d == Take(old(d), b) && logged == old(logged) + {BitmapBlock(b), b}
      ensures old(Logs()) ==> Logs()
    {
      var b0 := 0;
      while b0 < |d.used|
        invariant 0 <= b0 && d == old(d) && logged == old(logged)
        invariant forall c :: 0 <= c < b0 && c < |d.used| ==> d.used[c]
      {
        var bi := 0;
        while bi < BPB && b0 + bi < |d.used|
          invariant 0 <= bi <= BPB && d == old(d) && logged == old(logged)
          invariant forall c :: 0 <= c < b0 + bi && c < |d.used| ==> d.used[c]
        {
          if !d.used[b0 + bi] {
            b := b0 + bi;
            d := Take(d, b);
            logged := logged + {BitmapBlock(b), b};
            if old(Logs()) { LogStep(base, old(d), d, old(logged) + torn, logged + torn, bmapstart); }
            return;
          }
          bi := bi + 1;
        }
        b0 := b0 + BPB;
      }
      return 0;
    }

    /** The three places of bmap that allocate: fill an empty slot, or leave a full one. */
    method EnsureSlot(i: nat, s: Slot) returns (addr: nat)
      requires Valid() && i < |d.ino| && ValidSlot(s) && (s.Entry? ==> Addr(d, i, Indirect) != 0)
      modifies this`d, this`logged, this`own
      ensures Valid() && AllocOnly(old(d), d) && addr == Addr(d, i, s)
      ensures addr == 0 ==> d == old(d) && logged == old(logged) && Full(d)
      ensures Addr(old(d), i, s) != 0 ==> d == old(d) && logged == old(logged)
      ensures addr != 0 && Addr(old(d), i, s) == 0 ==>
                logged == old(logged) + {BitmapBlock(addr), addr} + (if s.Entry? then {Addr(d, i, Indirect)} else {})
    {
      assert InodeOk(d, i) && SlotOk(d, own, i, Indirect);
      addr := Addr(d, i, s);
      if addr != 0 {
        AllocRefl(d);
        return;
      }
      UsedBelow(d, own);
      addr := Balloc();
      if addr == 0 {
        AllocRefl(d);
        return;
      }
      assert UsedOk(old(d), own, addr);
      if s.Entry? { assert OwnOk(old(d), own, Addr(old(d), i, Indirect)); }
      AttachFacts(old(d), own, i, s, addr);
      ghost var d1, l1 := d, logged;
      d := SetSlot(d, i, s, addr);
      own := own[addr := Owner(i, s)];
      if s.Entry? {
        logged := logged + {d.ino[i].addrs[NDIRECT]};
      }
      LogStep(base, d1, d, l1 + torn, logged + torn, bmapstart);
    }

    /** bmap: the number of block bn of file i, allocated if need be; 0 when the disk is full. */
    method Bmap(i: nat, bn: nat) returns (addr: nat, ghost bits: set<nat>)
      requires Valid() && i < |d.ino| && bn < MAXFILE
      modifies this`d, this`logged, this`own
      ensures Valid() && AllocOnly(old(d), d) && addr == Addr(d, i, DataSlot(bn))
      ensures addr == 0 ==> Full(d)
      ensures Addr(old(d), i, DataSlot(bn)) != 0 ==> d == old(d) && bits == {} && logged == old(logged)
      ensures |bits| <= 1 && LogBound(old(logged), logged, Named(addr), bits, IndirectLog(d, i, bmapstart))
    {
      if bn < NDIRECT {
        bits := {};
        addr := EnsureSlot(i, Direct(bn));
        if addr != 0 && Addr(old(d), i, Direct(bn)) == 0 {
          bits := {BitmapBlock(addr)};
        }
        assert LogBound(old(logged), logged, Named(addr), bits, IndirectLog(d, i, bmapstart));
      } else {
        addr, bits := BmapIndirect(i, bn - NDIRECT);
      }
    }

    /** The same for a block that the indirect block lists. */
    method BmapIndirect(i: nat, k: nat) returns (addr: nat, ghost bits: set<nat>)
      requires Valid() && i < |d.ino| && k < NINDIRECT
      modifies this`d, this`logged, this`own
      ensures Valid() && AllocOnly(old(d), d) && addr == Addr(d, i, Entry(k))
      ensures addr == 0 ==> Full(d)
      ensures Addr(old(d), i, Entry(k)) != 0 ==> d == old(d) && bits == {} && logged == old(logged)
      ensures |bits| <= 1 && LogBound(old(logged), logged, Named(addr), bits, IndirectLog(d, i, bmapstart))
    {
      bits := {};
      var ind := EnsureSlot(i, Indirect);
      assert LogBound(old(logged), logged, {}, {}, IndirectLog(d, i, bmapstart));
      if ind == 0 {
        NoEntries(d, i, k);
        return 0, {};
      }
      ghost var d1, l1 := d, logged;
      addr := EnsureSlot(i, Entry(k));
      assert AddrKept(d1, d, i, Indirect);
      if addr != 0 && Addr(d1, i, Entry(k)) == 0 {
        bits := {BitmapBlock(addr)};
      }
      assert LogBound(l1, logged, Named(addr), bits, IndirectLog(d, i, bmapstart));
      LogMore(old(logged), l1, logged, {}, Named(addr), {}, bits, IndirectLog(d1, i, bmapstart),
              IndirectLog(d, i, bmapstart));
      assert {} + Named(addr) == Named(addr) && {} + bits == bits;
      AllocTrans(old(d), d1, d);
      if Addr(old(d), i, Entry(k)) != 0 { HasIndirect(old(d), i, k); }
    }

    /** iupdate */
    method Iupdate(i: nat)
      requires i < |d.ino| == |dino|
      modifies this`dino, this`logged
      ensures dino == old(dino)[i := d.ino[i]] && logged == old(logged) + {InodeBlock(i)}
    {
      dino := dino[i := d.ino[i]];
      logged := logged + {InodeBlock(i)};
    }

    /** One iteration of readi. */
    method ReadPiece(i: nat, pos: nat, m: nat) returns (addr: nat, piece: seq<nat>)
      requires Valid() && i < |d.ino| && pos < d.ino[i].size && pos % BSIZE + m <= BSIZE
      modifies this`d, this`logged, this`own
      ensures d == old(d) && logged == old(logged) && Valid() && addr != 0
      ensures |piece| == m && forall k :: 0 <= k < m ==> piece[k] == ByteAt(d, i, pos + k)
    {
      assert HoleOk(d, i, pos / BSIZE) && InodeOk(d, i);
      ghost var bits;
      addr, bits := Bmap(i, pos / BSIZE);
      piece := BlockPart(d, own, i, pos, m);
    }

    /** The loop of readi; `room` bytes of the destination can be written. */
    method ReadLoop(i: nat, off: nat, len: nat, room: nat) returns (out: seq<nat>, fault: bool)
      requires Valid() && i < |d.ino| && off + len <= d.ino[i].size
      modifies this`d, this`logged, this`own
      ensures d == old(d) && logged == old(logged) && Valid()
      ensures fault <==> room < len
      ensures |out| == Min(len, room) && forall k :: 0 <= k < |out| ==> out[k] == ByteAt(d, i, off + k)
    {
      out, fault := [], false;
      while |out| < len
        invariant |out| <= len && |out| <= room && d == old(d) && logged == old(logged) && Valid()
        invariant forall k :: 0 <= k < |out| ==> out[k] == ByteAt(d, i, off + k)
        decreases len - |out|
      {
        var m := Min(len - |out|, BSIZE - (off + |out|) % BSIZE);
        var addr, piece := ReadPiece(i, off + |out|, m);
        if addr == 0 {
          break;
        }
        fault := room < |out| + m;
        out := out + piece[..Min(m, room - |out|)];
        if fault {
          return;
        }
      }
    }

    /** readi: exactly the bytes of the file from off on, clipped to its size, reach the destination, and
        their number is returned; or as many as it has room for, and -1. */
    method Readi(i: nat, off: nat, n: nat, room: nat) returns (r: int, out: seq<nat>)
      requires Valid() && i < |d.ino| && off < UINT && n < UINT
      modifies this`d, this`logged, this`own
      ensures d == old(d) && logged == old(logged) && Valid()
      ensures off > d.ino[i].size || off + n >= UINT ==> r == 0 && out == []
      ensures off <= d.ino[i].size && off + n < UINT ==>
                var want := Content(d, i)[off..Min(off + n, d.ino[i].size)];
                if |want| <= room then r == |want| && out == want else r == -1 && out == want[..room]
    {
      Wraps(off, n);
      if off > d.ino[i].size || (off + n) % UINT < off {
        return 0, [];
      }
      var len := if off + n > d.ino[i].size then d.ino[i].size - off else n;
      var fault;
      out, fault := ReadLoop(i, off, len, room);
      ContentPart(d, i, off, out);
      ReadPart(Content(d, i), off, len, out);
      r := if fault then -1 else len;
    }

    /** The m bytes that copyin delivers after k go into the block. */
    method CopyIn(i: nat, addr: nat, off: nat, src: seq<nat>, at: nat, k: nat, m: nat, ghost d0: Disk)
      requires Valid() && i < |d.ino| && at + k + m <= |src| && (off + k) % BSIZE + m <= BSIZE
      requires addr == Addr(d, i, DataSlot((off + k) / BSIZE)) != 0 && Wrote(d0, d, i, off, src, at, k)
      modifies this`d
      ensures Owned(d, own) && NoHoles(d) && |d.ino| == |old(d).ino| && d.used == old(d).used
      ensures Wrote(d0, d, i, off, src, at, k + m) && (m == 0 ==> d == old(d))
      ensures AllLogged(base, d, logged + torn + {addr}, bmapstart)
      ensures Addr(d, i, Indirect) == Addr(old(d), i, Indirect) && Addr(d, i, DataSlot((off + k) / BSIZE)) == addr
    {
      assert SlotOk(d, own, i, DataSlot((off + k) / BSIZE)) && OwnOk(d, own, addr);
      if m > 0 {
        var bn, lo, bytes := (off + k) / BSIZE, (off + k) % BSIZE, src[at + k..at + k + m];
        WroteMore(d0, d, own, i, off, src, at, k, m);
        PatchKeeps(d, own, i, bn, lo, bytes);
        PatchAddr(d, own, i, bn, lo, bytes, i, Indirect);
        PatchAddr(d, own, i, bn, lo, bytes, i, DataSlot(bn));
        d := Patch(d, i, bn, lo, bytes);
      }
      LogStep(base, old(d), d, logged + torn, logged + torn + {addr}, bmapstart);
    }

    /** One iteration of writei: store the m bytes after k, inside one block. The first `good` of them can be
        copied from the caller; a copy that stops short leaves those in the block without a log_write. */
    method WritePiece(i: nat, off: nat, src: seq<nat>, at: nat, k: nat, m: nat, good: nat, ghost d0: Disk)
      returns (stop: Stop, ghost data: set<nat>, ghost bits: set<nat>)
      requires Valid() && i < |d.ino| && at + k + m <= |src| && off + k < MAXFILE * BSIZE
               && (off + k) % BSIZE + m <= BSIZE && good <= m
      requires Wrote(d0, d, i, off, src, at, k) && NoHoles(d0)
      modifies this`d, this`logged, this`own, this`torn
      ensures Valid() && (stop.Fault? ==> good < m) && (stop.Done? ==> good == m)
      ensures stop.DiskFull? ==> NoRoom(d, i, off + k)
      ensures Wrote(d0, d, i, off, src, at, if stop.DiskFull? then k else k + good)
      ensures TornOk(old(torn), torn, d, i, off + k, if stop.Fault? then good else 0, logged) == true
      ensures |data| <= 1 && |bits| <= 1 && (Addr(old(d), i, DataSlot((off + k) / BSIZE)) != 0 ==> bits == {})
      ensures LogBound(old(logged), logged, data, bits, IndirectLog(d, i, bmapstart)) == true
      ensures IndirectGrows(old(d), d, i)
    {
      var addr;
      addr, bits := Bmap(i, (off + k) / BSIZE);
      WroteAlloc(d0, old(d), d, i, off, src, at, k);
      assert AddrKept(old(d), d, i, Indirect);
      if addr == 0 {
        return DiskFull, {}, bits;
      }
      CopyIn(i, addr, off, src, at, k, good, d0);
      data := {addr};
      stop := if good < m then Fault else Done;
      CloseBlock(addr, stop.Done?, good);
    }

    /** log_write and brelse, or only brelse after a copy that failed with n bytes done. */
    method CloseBlock(addr: nat, done: bool, ghost n: nat)
      requires AllLogged(base, d, logged + torn + {addr}, bmapstart) && (!done && n == 0 ==> Logs())
      modifies this`logged, this`torn
      ensures Logs() && logged == if done then old(logged) + {addr} else old(logged)
      ensures torn == if done || n == 0 || addr in logged then old(torn) else old(torn) + {addr}
    {
      if done {
        logged := logged + {addr};
      } else if n > 0 && addr !in logged {
        torn := torn + {addr};
      }
      if done || n > 0 {
        LogStep(base, d, d, old(logged) + old(torn) + {addr}, logged + torn, bmapstart);
      }
    }

    /** The same with the bookkeeping of the loop of writei: tot of n bytes are done, and the caller's memory can be
        read up to `avail`. */
    method WriteStep(i: nat, off: nat, src: seq<nat>, at: nat, n: nat, avail: nat, tot: nat,
                     ghost data: set<nat>, ghost bits: set<nat>, ghost d0: Disk, ghost l0: set<nat>)
      returns (stop: Stop, m: nat, ghost data': set<nat>, ghost bits': set<nat>)
      requires Valid() && i < |d.ino| && at + n <= |src| && tot < n && off + n <= MAXFILE * BSIZE && NoHoles(d0)
      requires at + tot <= avail && Wrote(d0, d, i, off, src, at, tot) && AtEdge(off, tot)
      requires Counted(off, tot, data, bits) && LogBound(l0, logged, data, bits, IndirectLog(d, i, bmapstart))
      modifies this`d, this`logged, this`own, this`torn
      ensures Valid() && LogBound(l0, logged, data', bits', IndirectLog(d, i, bmapstart))
      ensures 0 < m <= n - tot && (tot + m < n ==> AtEdge(off, tot + m))
      ensures Counted(off, if stop.Done? then tot + m else n, data', bits')
      ensures stop.Done? ==> at + tot + m <= avail && Wrote(d0, d, i, off, src, at, tot + m)
      ensures !stop.Done? ==>
                && Stopped(d, i, off, at, n, avail, tot, stop) == true
                && Wrote(d0, d, i, off, src, at, Copied(stop, tot, avail - at))
      ensures TornOk(old(torn), torn, d, i, off + tot, Torn(stop, tot, avail - at), logged) == true
    {
      m := Min(n - tot, BSIZE - (off + tot) % BSIZE);
      ghost var data1, bits1;
      var good := Min(m, avail - at - tot);
      stop, data1, bits1 := WritePiece(i, off, src, at, tot, m, good, d0);
      assert Torn(stop, tot, avail - at) == (if stop.Fault? then good else 0)
             && Copied(stop, tot, avail - at) == (if stop.Fault? then tot + good else tot);
      LogMore(l0, old(logged), logged, data, data1, bits, bits1, IndirectLog(old(d), i, bmapstart),
              IndirectLog(d, i, bmapstart));
      CountedMore(old(d), i, off, n, tot, m, data, data1, bits, bits1);
      data', bits' := data + data1, bits + bits1;
    }

    /** The loop of writei. */
    method WriteLoop(i: nat, off: nat, src: seq<nat>, at: nat, n: nat, avail: nat)
      returns (tot: nat, stop: Stop, ghost data: set<nat>, ghost bits: set<nat>)
      requires Valid() && i < |d.ino| && off <= d.ino[i].size && at + n <= |src| && off + n <= MAXFILE * BSIZE
               && at <= avail
      modifies this`d, this`logged, this`own, this`torn
      ensures Valid() && tot <= n && at + tot <= avail && Stopped(d, i, off, at, n, avail, tot, stop)
      ensures Wrote(old(d), d, i, off, src, at, Copied(stop, tot, avail - at))
      ensures TornOk(old(torn), torn, d, i, off + tot, Torn(stop, tot, avail - at), logged)
      ensures Counted(off, n, data, bits)
      ensures LogBound(old(logged), logged, data, bits, IndirectLog(d, i, bmapstart))
    {
      data, bits, tot, stop := {}, {}, 0, Done;
      WroteNothing(d, i, off, src, at);
      while tot < n
        invariant tot <= n && at + tot <= avail && Valid() && torn == old(torn) && stop.Done?
        invariant Wrote(old(d), d, i, off, src, at, tot) == true && Counted(off, tot, data, bits)
        invariant tot < n ==> AtEdge(off, tot)
        invariant LogBound(old(logged), logged, data, bits, IndirectLog(d, i, bmapstart)) == true
        decreases n - tot
      {
        var m;
        stop, m, data, bits := WriteStep(i, off, src, at, n, avail, tot, data, bits, old(d), old(logged));
        if !stop.Done? {
          return;
        }
        tot := tot + m;
      }
    }

    /** What writei refuses: a start past the end, a range that wraps, a file too long. */
    method Refuses(i: nat, off: nat, n: nat) returns (no: bool)
      requires i < |d.ino| && off < UINT && n < UINT
      ensures no == Refused(d, i, off, n)
    {
      Wraps(off, n);
      if off > d.ino[i].size || (off + n) % UINT < off {
        return true;
      }
      return off + n > MAXFILE * BSIZE;
    }

    /** writei of the n bytes src[at..] at off, where the caller's memory can be read up to `avail`. It stops
        short exactly at a missing block on a full disk or at a failed copy, and r counts whole pieces; the bytes
        of a failed copy are in the file as far as it reaches, in the one block that may be torn. */
    method Writei(i: nat, off: nat, src: seq<nat>, at: nat, n: nat, avail: nat)
      returns (r: int, ghost stop: Stop, ghost data: set<nat>, ghost bits: set<nat>)
      requires Valid() && i < |d.ino| && off < UINT && n < UINT && at + n <= |src| && at <= avail
      modifies this`d, this`logged, this`own, this`dino, this`torn
      ensures Valid() && |d.ino| == |old(d).ino|
      ensures r == -1 <==> Refused(old(d), i, off, n)
      ensures r == -1 ==> d == old(d) && dino == old(dino) && logged == old(logged) && torn == old(torn)
      ensures r != -1 ==>
                && 0 <= r <= n && at + r <= avail && dino == old(dino)[i := d.ino[i]]
                && Stopped(d, i, off, at, n, avail, r, stop)
                && Held(old(d), d, i, off, src, at, r, Copied(stop, r, avail - at)) == true
                && TornOk(old(torn), torn, d, i, off + r, Torn(stop, r, avail - at), logged)
      ensures r != -1 ==>
                && InodeBlock(i) in logged && Counted(off, n, data, bits)
                && LogBound(old(logged), logged, data, bits, IndirectLog(d, i, bmapstart) + {InodeBlock(i)})
    {
      var no := Refuses(i, off, n);
      if no {
        return -1, Done, {}, {};
      }
      r, stop, data, bits := WriteAll(i, off, src, at, n, avail);
    }

    /** writei past its checks. */
    method WriteAll(i: nat, off: nat, src: seq<nat>, at: nat, n: nat, avail: nat)
      returns (tot: nat, ghost stop: Stop, ghost data: set<nat>, ghost bits: set<nat>)
      requires Valid() && i < |d.ino| && off <= d.ino[i].size && at + n <= |src| && off + n <= MAXFILE * BSIZE
               && at <= avail
      modifies this`d, this`logged, this`own, this`dino, this`torn
      ensures Valid() && |d.ino| == |old(d).ino| && dino == old(dino)[i := d.ino[i]] && InodeBlock(i) in logged
      ensures tot <= n && at + tot <= avail && Stopped(d, i, off, at, n, avail, tot, stop)
      ensures Held(old(d), d, i, off, src, at, tot, Copied(stop, tot, avail - at))
              && Counted(off, n, data, bits)
      ensures TornOk(old(torn), torn, d, i, off + tot, Torn(stop, tot, avail - at), logged)
      ensures LogBound(old(logged), logged, data, bits, IndirectLog(d, i, bmapstart) + {InodeBlock(i)})
    {
      tot, stop, data, bits := WriteLoop(i, off, src, at, n, avail);
      LogInode(old(logged), logged, data, bits, IndirectLog(d, i, bmapstart), InodeBlock(i));
      WriteEnd(i, off, src, at, tot, Copied(stop, tot, avail - at), old(d));
    }

    /** The end of writei. */
    method WriteEnd(i: nat, off: nat, ghost src: seq<nat>, ghost at: nat, tot: nat, ghost got: nat, ghost d0: Disk)
      requires Valid() && tot <= got && Wrote(d0, d, i, off, src, at, got) && NoHoles(d0) && i < |d0.ino|
      requires off <= d0.ino[i].size && off + got <= MAXFILE * BSIZE
      modifies this`d, this`logged, this`dino
      ensures Valid() && |d.ino| == |d0.ino| && dino == old(dino)[i := d.ino[i]]
              && logged == old(logged) + {InodeBlock(i)}
      ensures Held(d0, d, i, off, src, at, tot, got)
              && IndirectLog(d, i, bmapstart) == IndirectLog(old(d), i, bmapstart)
      ensures d.used == old(d).used
              && Addr(d, i, DataSlot((off + tot) / BSIZE)) == Addr(old(d), i, DataSlot((off + tot) / BSIZE))
    {
      WroteEnd(d0, d, own, i, off, src, at, tot, got);
      ghost var r, ind := Extended(d, i, off + tot), IndirectLog(d, i, bmapstart);
      assert IndirectLog(r, i, bmapstart) == ind;
      SetSize(i, off + tot);
      assert d == r;
    }

    /** The end of writei: a larger size, and the inode goes to disk. */
    method SetSize(i: nat, end: nat)
      requires i < |d.ino| == |dino|
      modifies this`d, this`dino, this`logged
      ensures d == Extended(old(d), i, end)
      ensures dino == old(dino)[i := d.ino[i]] && logged == old(logged) + {InodeBlock(i)} && (old(Logs()) ==> Logs())
    {
      if end > d.ino[i].size {
        d := Resized(d, i, end);
      }
      Iupdate(i);
      if old(Logs()) { LogStep(base, old(d), d, old(logged) + torn, logged + torn, bmapstart); }
    }

    /** bfree; the block is marked used, so "freeing free block" is not reached. */
    method Bfree(b: nat)
      requires b < |d.used| && d.used[b]
      modifies this`d, this`logged
      ensures d == old(d).(used := old(d).used[b := false]) && logged == old(logged) + {BitmapBlock(b)}
      ensures old(Logs()) ==> Logs()
    {
      d := d.(used := d.used[b := false]);
      logged := logged + {BitmapBlock(b)};
      if old(Logs()) { LogStep(base, old(d), d, old(logged) + torn, logged + torn, bmapstart); }
    }

    /** A block number of the in-memory inode is cleared. */
    method ClearAddr(i: nat, k: nat)
      requires i < |d.ino| && k < |d.ino[i].addrs| && Logs()
      modifies this`d
      ensures d == old(d).(ino := old(d).ino[i := old(d).ino[i].(addrs := old(d).ino[i].addrs[k := 0])]) && Logs()
    {
      d := d.(ino := d.ino[i := d.ino[i].(addrs := d.ino[i].addrs[k := 0])]);
      LogStep(base, old(d), d, logged + torn, logged + torn, bmapstart);
    }

    /** The first loop of itrunc: the direct blocks. */
    method FreeDirect(i: nat)
      requires Valid() && i < |d.ino|
      modifies this`d, this`logged
      ensures d.blk == old(d).blk && d.data == old(d).data && UsedIs(old(d), d.used, own, i, NDIRECT, 0)
      ensures InodeOk(old(d), i)
              && d.ino == old(d).ino[i := old(d).ino[i].(addrs := Zeroed(old(d).ino[i].addrs, NDIRECT))] && Logs()
      ensures logged == old(logged) + FreedBits(old(d).used, d.used, bmapstart)
    {
      ghost var d0 := d;
      assert InodeOk(d, i);
      ZeroedNone(d0.ino[i].addrs);
      FreedNone(d0.used, bmapstart);
      for k := 0 to NDIRECT
        invariant d.blk == d0.blk && d.data == d0.data && UsedIs(d0, d.used, own, i, k, 0)
        invariant d.ino == d0.ino[i := d0.ino[i].(addrs := Zeroed(d0.ino[i].addrs, k))] && Logs()
        invariant logged == old(logged) + FreedBits(d0.used, d.used, bmapstart)
      {
        var a := d.ino[i].addrs[k];
        ZeroedAt(d0.ino[i].addrs, k, k);
        UsedNext(d0, d.used, own, i, Direct(k), k, 0);
        if a != 0 {
          FreedMore(d0.used, d.used, a, bmapstart);
          Bfree(a);
          ClearAddr(i, k);
        }
        ZeroedMore(d0.ino[i].addrs, k);
      }
    }

    /** The loop of itrunc over the entries of the indirect block. */
    method FreeEntries(i: nat, ghost d0: Disk, ghost l0: set<nat>)
      requires Owned(d0, own) && i < |d0.ino| && InodeOk(d0, i) && d.blk == d0.blk && d.data == d0.data
               && UsedIs(d0, d.used, own, i, NDIRECT, 0)
      requires d.ino == d0.ino[i := d0.ino[i].(addrs := Zeroed(d0.ino[i].addrs, NDIRECT))] && Addr(d0, i, Indirect) != 0
               && Logs() && logged == l0 + FreedBits(d0.used, d.used, bmapstart)
      modifies this`d, this`logged
      ensures d == old(d).(used := d.used) && UsedIs(d0, d.used, own, i, NDIRECT, NINDIRECT) && Logs()
      ensures logged == l0 + FreedBits(d0.used, d.used, bmapstart)
    {
      assert SlotOk(d0, own, i, Indirect) && OwnOk(d0, own, Addr(d0, i, Indirect));
      ZeroedAt(d0.ino[i].addrs, NDIRECT, NDIRECT);
      var a := d.blk[d.ino[i].addrs[NDIRECT]];
      for j := 0 to NINDIRECT
        invariant d == old(d).(used := d.used) && UsedIs(d0, d.used, own, i, NDIRECT, j) && Logs()
        invariant logged == l0 + FreedBits(d0.used, d.used, bmapstart)
      {
        UsedNext(d0, d.used, own, i, Entry(j), NDIRECT, j);
        var b := WordAt(a, j);
        if b != 0 {
          FreedMore(d0.used, d.used, b, bmapstart);
          Bfree(b);
        }
      }
    }

    /** itrunc up to the new size: all blocks of the inode go. */
    method FreeAll(i: nat)
      requires Valid() && i < |d.ino|
      modifies this`d, this`logged
      ensures d.blk == old(d).blk && d.data == old(d).data && UsedEnd(old(d), d.used, own, i) && Logs()
      ensures d.ino == old(d).ino[i := old(d).ino[i].(addrs := seq(NDIRECT + 1, _ => 0))]
      ensures logged == old(logged) + FreedBits(old(d).used, d.used, bmapstart)
    {
      ghost var d0 := d;
      FreeDirect(i);
      ZeroedAt(d0.ino[i].addrs, NDIRECT, NDIRECT);
      if d.ino[i].addrs[NDIRECT] != 0 {
        FreeEntries(i, d0, old(logged));
        PointerLast(d0, d.used, own, i);
        FreedMore(d0.used, d.used, d.ino[i].addrs[NDIRECT], bmapstart);
        Bfree(d.ino[i].addrs[NDIRECT]);
        ClearAddr(i, NDIRECT);
      } else {
        NoIndirect(d0, d.used, own, i);
      }
      AllZero(d0.ino[i].addrs);
    }

    /** itrunc: frees exactly the blocks of inode i; no other file changes. It logs their bitmap blocks and the block
        of the inode. */
    method Itrunc(i: nat)
      requires Valid() && i < |d.ino|
      modifies this`d, this`logged, this`own, this`dino
      ensures Valid() && |d.ino| == |old(d).ino| && |d.used| == |old(d).used| && dino == old(dino)[i := d.ino[i]]
      ensures Content(d, i) == [] && forall s :: Addr(d, i, s) == 0
      ensures forall j :: 0 <= j < |d.ino| && j != i ==>
                d.ino[j] == old(d).ino[j] && Content(d, j) == Content(old(d), j)
      ensures forall b: nat :: b < |d.used| ==> (d.used[b] <==> old(d).used[b] && !OwnedBy(old(own), b, i))
      ensures logged == old(logged) + BitsOf(old(own), i, bmapstart) + {InodeBlock(i)}
    {
      ghost var d0 := d;
      FreeAll(i);
      FreedAll(d0, d.used, own, i, bmapstart);
      ghost var d1, l1 := d, logged;
      d := Resized(d, i, 0);
      Truncated(d0, d, own, i);
      own := Without(own, i);
      Iupdate(i);
      LogStep(base, d1, d, l1 + torn, logged + torn, bmapstart);
    }
  }

  /** Block b, or its bit in the bitmap, has changed only if the block that holds it is in the log. */
  predicate LoggedOk(base: Disk, d: Disk, logged: set<nat>, bmapstart: nat, b: nat)
    requires b < |base.blk| == |d.blk| == |base.used| == |d.used|
  {
    && (d.blk[b] != base.blk[b] ==> b in logged)
    && (d.used[b] != base.used[b] ==> b / BPB + bmapstart in logged)
  }

  ghost predicate AllLogged(base: Disk, d: Disk, logged: set<nat>, bmapstart: nat) {
    && |base.blk| == |d.blk| == |base.used| == |d.used|
    && forall b: nat {:trigger LoggedOk(base, d, logged, bmapstart, b)} :: b < |d.blk| ==>
         LoggedOk(base, d, logged, bmapstart, b)
  }

  predicate InodeLogged(was: seq<Inode>, now: seq<Inode>, logged: set<nat>, inodestart: nat, j: nat)
    requires j < |was| == |now|
  {
    now[j] != was[j] ==> j / IPB + inodestart in logged
  }

  /** An inode on the disk has changed only if its block is in the log. */
  ghost predicate InodesLogged(was: seq<Inode>, now: seq<Inode>, logged: set<nat>, inodestart: nat) {
    && |was| == |now|
    && forall j: nat {:trigger InodeLogged(was, now, logged, inodestart, j)} :: j < |now| ==>
         InodeLogged(was, now, logged, inodestart, j)
  }

  /** One inode is written, and its block is in the log. */
  lemma InodeStep(was: seq<Inode>, i: nat, x: Inode, logged: set<nat>, inodestart: nat)
    requires i < |was| && i / IPB + inodestart in logged
    ensures InodesLogged(was, was[i := x], logged, inodestart)
  {
    var now := was[i := x];
    assert forall j: nat {:trigger InodeLogged(was, now, logged, inodestart, j)} :: j < |now| ==>
        InodeLogged(was, now, logged, inodestart, j);
  }

  lemma LogStep(base: Disk, d: Disk, d': Disk, l: set<nat>, l': set<nat>, bmapstart: nat)
    requires AllLogged(base, d, l, bmapstart) && l <= l' && |d'.blk| == |d.blk| && |d'.used| == |d.used|
    requires forall b: nat :: b < |d.blk| && d'.blk[b] != d.blk[b] ==> b in l'
    requires forall b: nat :: b < |d.used| && d'.used[b] != d.used[b] ==> b / BPB + bmapstart in l'
    ensures AllLogged(base, d', l', bmapstart)
  {
    forall b: nat | b < |d'.blk| ensures LoggedOk(base, d', l', bmapstart, b) {
      assert LoggedOk(base, d, l, bmapstart, b);
    }
  }

  /** The blocks logged on behalf of an inode's indirect block. */
  function IndirectLog(d: Disk, i: nat, bmapstart: nat): set<nat> {
    var a := Addr(d, i, Indirect);
    if a == 0 then {} else {a, a / BPB + bmapstart}
  }

  function Named(addr: nat): set<nat> {
    if addr == 0 then {} else {addr}
  }

  /** Why writei stops: all is written, no block is left, or the caller's memory cannot be read. */
  datatype Stop = Done | DiskFull | Fault

  /** How many bytes have reached the blocks. */
  function Copied(stop: Stop, tot: nat, avail: nat): nat {
    if stop.Fault? then avail else tot
  }

  /** How many bytes a failed copy left behind. */
  function Torn(stop: Stop, tot: nat, avail: nat): nat {
    if stop.Fault? && tot <= avail then avail - tot else 0
  }

  /** How many bytes the iteration of writei after tot bytes stores. */
  function PieceSize(off: nat, n: nat, tot: nat): nat
    requires tot <= n
  {
    Min(n - tot, BSIZE - (off + tot) % BSIZE)
  }

  predicate Refused(d: Disk, i: nat, off: nat, n: nat)
    requires i < |d.ino|
  {
    off > d.ino[i].size || off + n >= UINT || off + n > MAXFILE * BSIZE
  }

  /** Why a write of the n bytes src[at..] at off stopped after r, if the caller's memory ends at `avail`. */
  ghost predicate Stopped(d: Disk, i: nat, off: nat, at: nat, n: nat, avail: nat, r: nat, stop: Stop) {
    match stop
    case Done => r == n
    case DiskFull => r < n && NoRoom(d, i, off + r)
    case Fault => r < n && avail < at + r + PieceSize(off, n, r)
  }

  /** A copy that failed after n bytes may have torn the block at pos, unless that is logged anyway. */
  ghost predicate TornOk(t: set<nat>, t': set<nat>, d: Disk, i: nat, pos: nat, n: nat, logged: set<nat>) {
    var a := Addr(d, i, DataSlot(pos / BSIZE));
    if n == 0 then t' == t else t <= t' <= t + {a} && (a in t' || a in logged)
  }

  /** What a copy into a caller's memory that stops short leaves there. */
  lemma ReadPart(c: seq<nat>, off: nat, len: nat, out: seq<nat>)
    requires off + len <= |c| && |out| <= len && out == c[off..off + |out|]
    ensures out == c[off..off + len][..|out|]
  {
  }

  /** The disk has no free block. */
  ghost predicate Full(d: Disk) {
    forall b :: 0 <= b < |d.used| ==> d.used[b]
  }

  /** The file has no block for position pos, and there is none to be had. */
  ghost predicate NoRoom(d: Disk, i: nat, pos: nat) {
    Full(d) && Addr(d, i, DataSlot(pos / BSIZE)) == 0
  }

  lemma AllocRefl(d: Disk)
    ensures AllocOnly(d, d)
  {
  }

  lemma UsedBelow(d: Disk, own: map<nat, Owner>)
    requires Owned(d, own)
    ensures forall c :: 0 <= c < d.data ==> d.used[c]
  {
    forall c | 0 <= c < d.data ensures d.used[c] { assert UsedOk(d, own, c); }
  }

  lemma AttachFacts(d: Disk, own: map<nat, Owner>, i: nat, s: Slot, b: nat)
    requires Owned(d, own) && NoHoles(d) && CanAttach(d, own, i, s, b)
    ensures var d' := Attach(d, own, i, s, b);
            && Owned(d', own[b := Owner(i, s)]) && NoHoles(d') && AllocOnly(d, d') && Addr(d', i, s) == b
            && (s.Entry? ==> Addr(d', i, Indirect) == Addr(d, i, Indirect))
  {
    AttachKeeps(d, own, i, s, b);
    AttachOnly(d, own, i, s, b);
    AllocNoHoles(d, Attach(d, own, i, s, b));
    AttachAddr(d, own, i, s, b, i, s);
    AttachAddr(d, own, i, s, b, i, Indirect);
  }

  /** Without an indirect block there are no entries. */
  lemma NoEntries(d: Disk, i: nat, k: nat)
    requires Addr(d, i, Indirect) == 0
    ensures Addr(d, i, Entry(k)) == 0
  {
  }

  lemma HasIndirect(d: Disk, i: nat, k: nat)
    requires Addr(d, i, Entry(k)) != 0
    ensures Addr(d, i, Indirect) != 0
  {
  }

  function Min(a: nat, b: nat): nat {
    if a < b then a else b
  }

  /** m bytes of a file's block. */
  method BlockPart(d: Disk, ghost own: map<nat, Owner>, i: nat, pos: nat, m: nat) returns (r: seq<nat>)
    requires Owned(d, own) && Addr(d, i, DataSlot(pos / BSIZE)) != 0 && pos % BSIZE + m <= BSIZE
    ensures |r| == m && forall k :: 0 <= k < m ==> r[k] == ByteAt(d, i, pos + k)
  {
    assert SlotOk(d, own, i, DataSlot(pos / BSIZE)) && OwnOk(d, own, Addr(d, i, DataSlot(pos / BSIZE)));
    var a := Addr(d, i, DataSlot(pos / BSIZE));
    r := d.blk[a].b[pos % BSIZE..pos % BSIZE + m];
    forall k | 0 <= k < m ensures r[k] == ByteAt(d, i, pos + k) {
      assert (pos + k) / BSIZE == pos / BSIZE && (pos + k) % BSIZE == pos % BSIZE + k;
    }
  }

  /** The blocks that n bytes at off touch. */
  function Blocks(off: nat, n: nat): nat {
    if n == 0 then 0 else (off + n - 1) / BSIZE - off / BSIZE + 1
  }

  /** Those of them that may have to be allocated, given off is not past the end: not an unaligned first one. */
  function FreshBlocks(off: nat, n: nat): nat {
    if n > 0 && off % BSIZE != 0 then Blocks(off, n) - 1 else Blocks(off, n)
  }

  predicate IndirectGrows(d: Disk, d': Disk, i: nat) {
    Addr(d, i, Indirect) != 0 ==> Addr(d', i, Indirect) == Addr(d, i, Indirect)
  }

  /** The size is raised to `end` if it was smaller. */
  function Extended(d: Disk, i: nat, end: nat): Disk
    requires i < |d.ino|
  {
    if end > d.ino[i].size then Resized(d, i, end) else d
  }

  /** The end of writei: the new size, and what all files then hold. */
  lemma WroteEnd(d: Disk, d': Disk, own: map<nat, Owner>, i: nat, off: nat, src: seq<nat>, at: nat, tot: nat, got: nat)
    requires tot <= got && Wrote(d, d', i, off, src, at, got) && Owned(d', own) && NoHoles(d') && NoHoles(d)
             && i < |d.ino|
    requires off <= d.ino[i].size && off + got <= MAXFILE * BSIZE
    ensures d'.ino[i].size == d.ino[i].size
    ensures var r := Extended(d', i, off + tot);
            && Owned(r, own) && NoHoles(r) && Held(d, r, i, off, src, at, tot, got)
            && forall s :: Addr(r, i, s) == Addr(d', i, s)
  {
    assert SizeKept(d, d', i);
    var size := Max(d.ino[i].size, off + tot);
    assert InodeOk(d', i);
    forall bn: nat | bn * BSIZE < size ensures HasBlock(d', i, bn) { assert HoleOk(d', i, bn); }
    ResizedKeeps(d', own, i, size);
    forall s ensures Addr(Resized(d', i, size), i, s) == Addr(d', i, s) { ResizedAddr(d', i, size, i, s); }
    WroteHeld(d, d', i, off, src, at, tot, got);
    if size == d'.ino[i].size { assert Resized(d', i, size) == d'; }
  }

  lemma WroteHeld(d: Disk, d': Disk, i: nat, off: nat, src: seq<nat>, at: nat, tot: nat, got: nat)
    requires tot <= got && Wrote(d, d', i, off, src, at, got) && i < |d.ino| && off <= d.ino[i].size
    ensures Held(d, Resized(d', i, Max(d.ino[i].size, off + tot)), i, off, src, at, tot, got)
  {
    var r := Resized(d', i, Max(d.ino[i].size, off + tot));
    WroteContent(d, d', i, off, src, at, tot, got, i);
    forall j: nat | j < |r.ino| && j != i ensures SameFile(d, r, j) {
      WroteContent(d, d', i, off, src, at, tot, got, j);
    }
  }

  /** The loop of writei, before its end, is at its start or at the start of a block. */
  predicate AtEdge(off: nat, tot: nat) {
    tot == 0 || (off + tot) % BSIZE == 0
  }

  /** The next piece is in one more block. */
  lemma NextBlock(off: nat, tot: nat, n: nat, m: nat)
    requires tot < n && AtEdge(off, tot) && m == Min(n - tot, BSIZE - (off + tot) % BSIZE)
    ensures 0 < m && Blocks(off, tot + m) == Blocks(off, tot) + 1 && (tot + m < n ==> AtEdge(off, tot + m))
  {
  }

  lemma BlocksGrow(off: nat, k: nat, n: nat)
    requires k <= n
    ensures Blocks(off, k) <= Blocks(off, n) && FreshBlocks(off, k) <= FreshBlocks(off, n)
  {
    if k > 0 { assert (off + k - 1) / BSIZE <= (off + n - 1) / BSIZE; }
  }

  ghost predicate LogBound(before: set<nat>, now: set<nat>, data: set<nat>, bits: set<nat>, rest: set<nat>) {
    now <= before + data + bits + rest
  }

  lemma LogMore(l0: set<nat>, l1: set<nat>, l2: set<nat>, data: set<nat>, data1: set<nat>, bits: set<nat>,
                bits1: set<nat>, ind: set<nat>, ind': set<nat>)
    requires LogBound(l0, l1, data, bits, ind) && LogBound(l1, l2, data1, bits1, ind') && ind <= ind'
    ensures LogBound(l0, l2, data + data1, bits + bits1, ind')
  {
  }

  lemma Wraps(off: nat, n: nat)
    requires off < UINT && n < UINT
    ensures (off + n) % UINT < off <==> off + n >= UINT
  {
  }

  lemma ContentPart(d: Disk, i: nat, off: nat, out: seq<nat>)
    requires i < |d.ino| && off + |out| <= d.ino[i].size
             && forall k :: 0 <= k < |out| ==> out[k] == ByteAt(d, i, off + k)
    ensures out == Content(d, i)[off..off + |out|]
  {
    forall k | 0 <= k < |out| ensures out[k] == Content(d, i)[off + k] { PrefixAt(d, i, d.ino[i].size, off + k); }
  }

  /** The data blocks and the bitmap blocks that a write of n bytes at off may log. */
  ghost predicate Counted(off: nat, n: nat, data: set<nat>, bits: set<nat>) {
    |data| <= Blocks(off, n) && |bits| <= FreshBlocks(off, n)
  }

  lemma CountedMore(d: Disk, i: nat, off: nat, n: nat, tot: nat, m: nat, data: set<nat>, data1: set<nat>,
                    bits: set<nat>, bits1: set<nat>)
    requires Counted(off, tot, data, bits) && |data1| <= 1 && |bits1| <= 1
    requires tot < n && AtEdge(off, tot) && m == Min(n - tot, BSIZE - (off + tot) % BSIZE)
    requires Reaches(d, i, off + tot) && (Addr(d, i, DataSlot((off + tot) / BSIZE)) != 0 ==> bits1 == {})
    ensures 0 < m && Counted(off, tot + m, data + data1, bits + bits1) && Counted(off, n, data + data1, bits + bits1)
    ensures tot + m < n ==> AtEdge(off, tot + m)
  {
    NextBlock(off, tot, n, m);
    BlocksGrow(off, tot + m, n);
    assert |data + data1| <= |data| + |data1| && |bits + bits1| <= |bits| + |bits1|;
    if tot == 0 && off % BSIZE != 0 { assert HasBlock(d, i, off / BSIZE); }
  }

  // ---------------------------------------------------------------- truncation

  /** The first nd direct blocks and the first ni entries of inode i have been freed. */
  predicate Gone(own: map<nat, Owner>, b: nat, i: nat, nd: nat, ni: nat) {
    b in own && own[b].i == i && ((own[b].s.Direct? && own[b].s.k < nd) || (own[b].s.Entry? && own[b].s.k < ni))
  }

  ghost predicate UsedIs(d: Disk, used: seq<bool>, own: map<nat, Owner>, i: nat, nd: nat, ni: nat) {
    |used| == |d.used| && forall b: nat :: b < |used| ==> (used[b] <==> d.used[b] && !Gone(own, b, i, nd, ni))
  }

  /** addrs with the first k numbers cleared. */
  function Zeroed(a: seq<nat>, k: nat): (r: seq<nat>)
    requires k <= |a|
    ensures |r| == |a|
  {
    if k == 0 then a else Zeroed(a, k - 1)[k - 1 := 0]
  }

  lemma ZeroedNone(a: seq<nat>)
    ensures Zeroed(a, 0) == a
  {
  }

  lemma {:induction false} ZeroedAt(a: seq<nat>, k: nat, j: nat)
    requires k <= |a| && j < |a|
    ensures Zeroed(a, k)[j] == if j < k then 0 else a[j]
  {
    if k > 0 { ZeroedAt(a, k - 1, j); }
  }

  lemma ZeroedMore(a: seq<nat>, k: nat)
    requires k < |a|
    ensures Zeroed(a, k + 1) == Zeroed(a, k)[k := 0] && (a[k] == 0 ==> Zeroed(a, k + 1) == Zeroed(a, k))
  {
    ZeroedAt(a, k, k);
  }

  /** The next slot to free: its block is still marked used, and clearing that mark is the next stage. */
  lemma UsedNext(d: Disk, used: seq<bool>, own: map<nat, Owner>, i: nat, s: Slot, nd: nat, ni: nat)
    requires Owned(d, own) && UsedIs(d, used, own, i, nd, ni) && (s == Direct(nd) || s == Entry(ni)) && ValidSlot(s)
    ensures var a, nd', ni' := Addr(d, i, s), if s.Direct? then nd + 1 else nd, if s.Entry? then ni + 1 else ni;
            if a == 0 then UsedIs(d, used, own, i, nd', ni')
            else a < |used| && used[a] && UsedIs(d, used[a := false], own, i, nd', ni')
  {
    var a := Addr(d, i, s);
    assert SlotOk(d, own, i, s);
    if a != 0 { assert OwnOk(d, own, a) && UsedOk(d, own, a); }
    forall b | b in own ensures Addr(d, own[b].i, own[b].s) == b && b > 0 { assert OwnOk(d, own, b); }
  }

  predicate OwnedBy(own: map<nat, Owner>, b: nat, i: nat) {
    b in own && own[b].i == i
  }

  function Without(own: map<nat, Owner>, i: nat): map<nat, Owner> {
    map b | b in own && own[b].i != i :: own[b]
  }

  /** All blocks of inode i are free again. */
  ghost predicate UsedEnd(d: Disk, used: seq<bool>, own: map<nat, Owner>, i: nat) {
    |used| == |d.used| && forall b: nat :: b < |used| ==> (used[b] <==> d.used[b] && !OwnedBy(own, b, i))
  }

  /** The bitmap blocks of the blocks freed so far. */
  function FreedBits(was: seq<bool>, used: seq<bool>, bmapstart: nat): set<nat> {
    set b: nat | b < |was| && b < |used| && was[b] && !used[b] :: b / BPB + bmapstart
  }

  /** The bitmap blocks of the blocks of inode i. */
  function BitsOf(own: map<nat, Owner>, i: nat, bmapstart: nat): set<nat> {
    set b | b in own && OwnedBy(own, b, i) :: b / BPB + bmapstart
  }

  lemma FreedNone(used: seq<bool>, bmapstart: nat)
    ensures FreedBits(used, used, bmapstart) == {}
  {
  }

  lemma FreedMore(was: seq<bool>, used: seq<bool>, b: nat, bmapstart: nat)
    requires b < |was| == |used| && was[b]
    ensures FreedBits(was, used[b := false], bmapstart) == FreedBits(was, used, bmapstart) + {b / BPB + bmapstart}
  {
    var l, r := FreedBits(was, used[b := false], bmapstart), FreedBits(was, used, bmapstart) + {b / BPB + bmapstart};
    forall x | x in r ensures x in l {
      if x != b / BPB + bmapstart {
        var c: nat :| c < |was| && was[c] && !used[c] && x == c / BPB + bmapstart;
        assert !used[b := false][c];
      } else {
        assert !used[b := false][b];
      }
    }
  }

  lemma FreedAll(d: Disk, used: seq<bool>, own: map<nat, Owner>, i: nat, bmapstart: nat)
    requires Owned(d, own) && UsedEnd(d, used, own, i)
    ensures FreedBits(d.used, used, bmapstart) == BitsOf(own, i, bmapstart)
  {
    forall b | b in own ensures b < |d.used| && d.used[b] { assert OwnOk(d, own, b) && UsedOk(d, own, b); }
  }

  /** After the direct blocks and all entries only the indirect block itself is left. */
  lemma PointerLast(d: Disk, used: seq<bool>, own: map<nat, Owner>, i: nat)
    requires Owned(d, own) && UsedIs(d, used, own, i, NDIRECT, NINDIRECT) && Addr(d, i, Indirect) != 0
    ensures var a := Addr(d, i, Indirect); a < |used| && used[a] && UsedEnd(d, used[a := false], own, i)
  {
    var a := Addr(d, i, Indirect);
    assert SlotOk(d, own, i, Indirect) && OwnOk(d, own, a) && UsedOk(d, own, a);
    forall b | b in own ensures Addr(d, own[b].i, own[b].s) == b && b > 0 { assert OwnOk(d, own, b); }
  }

  lemma NoIndirect(d: Disk, used: seq<bool>, own: map<nat, Owner>, i: nat)
    requires Owned(d, own) && UsedIs(d, used, own, i, NDIRECT, 0) && Addr(d, i, Indirect) == 0
    ensures UsedEnd(d, used, own, i)
  {
    forall b | b in own ensures Addr(d, own[b].i, own[b].s) == b && b > 0 { assert OwnOk(d, own, b); }
  }

  lemma AllZero(a: seq<nat>)
    requires |a| == NDIRECT + 1
    ensures Zeroed(a, NDIRECT)[NDIRECT := 0] == seq(NDIRECT + 1, _ => 0)
            && (a[NDIRECT] == 0 ==> Zeroed(a, NDIRECT) == seq(NDIRECT + 1, _ => 0))
  {
    forall j: nat | j < NDIRECT + 1 ensures Zeroed(a, NDIRECT)[j] == if j < NDIRECT then 0 else a[j] {
      ZeroedAt(a, NDIRECT, j);
    }
  }

  lemma Truncated(d: Disk, d': Disk, own: map<nat, Owner>, i: nat)
    requires Owned(d, own) && NoHoles(d) && i < |d.ino| && d'.blk == d.blk && d'.data == d.data
    requires UsedEnd(d, d'.used, own, i) && d'.ino == d.ino[i := Inode(0, seq(NDIRECT + 1, _ => 0))]
    ensures Owned(d', Without(own, i)) && NoHoles(d') && forall s :: Addr(d', i, s) == 0
    ensures forall j :: 0 <= j < |d.ino| && j != i ==> Content(d', j) == Content(d, j)
  {
    var own' := Without(own, i);
    forall j: nat | j < |d'.ino| ensures InodeOk(d', j) { assert InodeOk(d, j); }
    forall j: nat, s ensures SlotOk(d', own', j, s) { assert SlotOk(d, own, j, s); }
    forall c | c in own' ensures OwnOk(d', own', c) { assert OwnOk(d, own, c); }
    forall c: nat | c < |d'.blk| ensures UsedOk(d', own', c) {
      assert UsedOk(d, own, c);
      if c in own { assert OwnOk(d, own, c); }
    }
    forall j: nat, bn: nat | j < |d'.ino| ensures HoleOk(d', j, bn) { assert HoleOk(d, j, bn); }
    forall j: nat | j < |d.ino| && j != i ensures Content(d', j) == Content(d, j) {
      forall pos: nat | pos < d.ino[j].size ensures ByteAt(d', j, pos) == ByteAt(d, j, pos) {}
      SamePrefix(d, d', j, d.ino[j].size);
    }
  }

  lemma LogInode(l0: set<nat>, l1: set<nat>, data: set<nat>, bits: set<nat>, rest: set<nat>, x: nat)
    requires LogBound(l0, l1, data, bits, rest)
    ensures LogBound(l0, l1 + {x}, data, bits, rest + {x})
  {
  }

  // ---------------------------------------------------------------- filewrite

  const MAXOPBLOCKS: nat := 10
  const CHUNK: nat := 3072        // ((MAXOPBLOCKS - 1 - 1 - 2) / 2) * BSIZE

  /** Data blocks, bitmap blocks, the indirect block with its bitmap block, and the inode block: a chunk
      at any offset fits the log reservation. */
  lemma ChunkFits(off: nat, n: nat)
    requires n <= CHUNK
    ensures Blocks(off, n) + FreshBlocks(off, n) + 3 <= MAXOPBLOCKS
  {
    if n > 0 {
      assert (off + n - 1) / BSIZE <= (off + CHUNK - 1) / BSIZE;
      if off % BSIZE == 0 {
        assert (off + CHUNK - 1) / BSIZE == off / BSIZE + 2;
      } else {
        assert (off + CHUNK - 1) / BSIZE <= off / BSIZE + 3;
      }
    }
  }

  lemma LogSize(now: set<nat>, data: set<nat>, bits: set<nat>, ind: set<nat>, x: nat)
    requires LogBound({}, now, data, bits, ind + {x}) && |ind| <= 2
    ensures |now| <= |data| + |bits| + 3
  {
    var all := data + bits + (ind + {x});
    assert now <= all;
    SubsetSize(now, all);
    assert |all| <= |data + bits| + |ind + {x}| && |data + bits| <= |data| + |bits| && |ind + {x}| <= |ind| + 1;
  }

  lemma IndirectTwo(d: Disk, i: nat, bmapstart: nat)
    ensures |IndirectLog(d, i, bmapstart)| <= 2
  {
    var a := Addr(d, i, Indirect);
    if a != 0 { assert |{a, a / BPB + bmapstart}| <= 2; }
  }

  /** How many bitmap blocks describe the data area [data..size). */
  function Span(data: nat, size: nat): nat {
    if data < size then (size - 1) / BPB - data / BPB + 1 else 0
  }

  function Range(lo: nat, hi: nat): (r: set<nat>)
    requires lo <= hi
    ensures |r| == hi - lo && forall x :: x in r <==> lo <= x < hi
  {
    if lo == hi then {} else Range(lo, hi - 1) + {hi - 1}
  }

  lemma BitsWithin(d: Disk, own: map<nat, Owner>, i: nat, bmapstart: nat)
    requires Owned(d, own)
    ensures |BitsOf(own, i, bmapstart)| <= Span(d.data, |d.used|)
  {
    forall b | b in own ensures d.data <= b < |d.used| { assert OwnOk(d, own, b); }
    if d.data < |d.used| {
      var lo, hi := d.data / BPB + bmapstart, (|d.used| - 1) / BPB + bmapstart + 1;
      SubsetSize(BitsOf(own, i, bmapstart), Range(lo, hi));
    } else {
      assert BitsOf(own, i, bmapstart) == {};
    }
  }

  /** The first data block, and blocks at the start of the following bitmap blocks' ranges. */
  function Scattered(data: nat, k: nat): (b: nat)
    ensures data <= b && b / BPB == data / BPB + k && (k > 0 ==> data < b)
  {
    if k == 0 then data else (data / BPB + k) * BPB
  }

  lemma ScatteredApart(data: nat)
    ensures forall j: nat, k: nat | j < k :: Scattered(data, j) != Scattered(data, k)
  {
  }

  function ScatteredOwn(data: nat): map<nat, Owner> {
    ScatteredApart(data);
    map k: nat | k < MAXOPBLOCKS :: Scattered(data, k) := Owner(0, Direct(k))
  }

  /** A disk with one file, of ten blocks with a bitmap block each. */
  ghost function ScatteredDisk(data: nat, size: nat): Disk {
    Disk(seq(size, b requires 0 <= b => b < data || b in ScatteredOwn(data)), seq(size, _ => Zero()),
         [Inode(MAXOPBLOCKS * BSIZE,
                seq(NDIRECT + 1, k requires 0 <= k => if k < MAXOPBLOCKS then Scattered(data, k) else 0))],
         data)
  }

  lemma ScatteredValid(data: nat, size: nat)
    requires 0 < data <= size <= UINT && Span(data, size) >= MAXOPBLOCKS
    ensures Owned(ScatteredDisk(data, size), ScatteredOwn(data)) && NoHoles(ScatteredDisk(data, size))
  {
    var d, own := ScatteredDisk(data, size), ScatteredOwn(data);
    forall k: nat | k < MAXOPBLOCKS ensures Scattered(data, k) < size {
      assert (data / BPB + k) * BPB <= (size - 1) / BPB * BPB <= size - 1;
    }
    forall i: nat, s ensures SlotOk(d, own, i, s) {}
    forall b | b in own ensures OwnOk(d, own, b) {}
    forall i: nat, bn: nat | i < |d.ino| ensures HoleOk(d, i, bn) {}
  }

  lemma BitIn(own: map<nat, Owner>, b: nat, i: nat, bmapstart: nat)
    requires OwnedBy(own, b, i)
    ensures b / BPB + bmapstart in BitsOf(own, i, bmapstart)
  {
  }

  lemma ScatteredIn(data: nat, k: nat, bmapstart: nat)
    requires k < MAXOPBLOCKS
    ensures data / BPB + k + bmapstart in BitsOf(ScatteredOwn(data), 0, bmapstart)
  {
    BitIn(ScatteredOwn(data), Scattered(data, k), 0, bmapstart);
  }

  lemma RangeWithin(lo: nat, n: nat, bits: set<nat>)
    requires forall x: nat :: lo <= x < lo + n ==> x in bits
    ensures |bits| >= n
  {
    SubsetSize(Range(lo, lo + n), bits);
  }

  lemma ScatteredBits(data: nat, bmapstart: nat)
    ensures |BitsOf(ScatteredOwn(data), 0, bmapstart)| >= MAXOPBLOCKS
  {
    var lo, bits := data / BPB + bmapstart, BitsOf(ScatteredOwn(data), 0, bmapstart);
    forall x: nat | lo <= x < lo + MAXOPBLOCKS ensures x in bits { ScatteredIn(data, x - lo, bmapstart); }
    RangeWithin(lo, MAXOPBLOCKS, bits);
  }

  /** Truncating a file of the disk may log no more than an operation has reserved. */
  ghost predicate TruncFits(d: Disk, own: map<nat, Owner>, i: nat, bmapstart: nat) {
    Owned(d, own) && NoHoles(d) ==> |BitsOf(own, i, bmapstart)| + 1 <= MAXOPBLOCKS
  }

  /** itrunc stays within the reservation of an operation, on every disk of the layout, exactly if the bitmap of the
      data area takes less than MAXOPBLOCKS blocks. */
  lemma TruncReservation(data: nat, size: nat, bmapstart: nat)
    requires 0 < data <= size <= UINT
    ensures (forall d: Disk, own, i :: d.data == data && |d.used| == size ==> TruncFits(d, own, i, bmapstart))
       <==> Span(data, size) + 1 <= MAXOPBLOCKS
  {
    forall d: Disk, own, i | d.data == data && |d.used| == size && Span(data, size) + 1 <= MAXOPBLOCKS
      ensures TruncFits(d, own, i, bmapstart)
    {
      if Owned(d, own) { BitsWithin(d, own, i, bmapstart); }
    }
    if Span(data, size) >= MAXOPBLOCKS {
      ScatteredValid(data, size);
      ScatteredBits(data, bmapstart);
      assert !TruncFits(ScatteredDisk(data, size), ScatteredOwn(data), 0, bmapstart);
    }
  }

  /** A transaction: the disk and the inodes on it before and after, and the blocks it logged and tore. */
  datatype Tx = Tx(before: Disk, after: Disk, was: seq<Inode>, now: seq<Inode>, logged: set<nat>, torn: set<nat>)

  /** The transaction changed only blocks that it logged, at most MAXOPBLOCKS of them, or tore. */
  ghost predicate TxOk(tx: Tx, bmapstart: nat, inodestart: nat) {
    && AllLogged(tx.before, tx.after, tx.logged + tx.torn, bmapstart)
    && InodesLogged(tx.was, tx.now, tx.logged, inodestart) && |tx.logged| <= MAXOPBLOCKS
  }

  /** The transactions lead from d0 and the inodes was to d and now; only the last may have torn a block. */
  ghost predicate Chain(d0: Disk, was: seq<Inode>, trail: seq<Tx>, d: Disk, now: seq<Inode>, bmapstart: nat,
                        inodestart: nat)
  {
    if trail == [] then d == d0 && now == was
    else
      var n := |trail| - 1;
      var tx := trail[n];
      && tx.after == d && tx.now == now && TxOk(tx, bmapstart, inodestart) && Untorn(trail[..n])
      && Chain(d0, was, trail[..n], tx.before, tx.was, bmapstart, inodestart)
  }

  predicate Untorn(trail: seq<Tx>) {
    forall c :: 0 <= c < |trail| ==> trail[c].torn == {}
  }

  lemma ChainMore(d0: Disk, was: seq<Inode>, trail: seq<Tx>, tx: Tx, bmapstart: nat, inodestart: nat)
    requires Chain(d0, was, trail, tx.before, tx.was, bmapstart, inodestart) && TxOk(tx, bmapstart, inodestart)
    requires Untorn(trail)
    ensures Chain(d0, was, trail + [tx], tx.after, tx.now, bmapstart, inodestart)
    ensures tx.torn == {} ==> Untorn(trail + [tx])
  {
    assert (trail + [tx])[..|trail|] == trail;
  }

  lemma ChunkOk(tx: Tx, bmapstart: nat, inodestart: nat, i: nat, off: nat, n: nat, data: set<nat>, bits: set<nat>)
    requires AllLogged(tx.before, tx.after, tx.logged + tx.torn, bmapstart) && n <= CHUNK && Counted(off, n, data, bits)
    requires i < |tx.was| && i < |tx.after.ino| && tx.now == tx.was[i := tx.after.ino[i]]
    requires var x := i / IPB + inodestart;
             x in tx.logged && LogBound({}, tx.logged, data, bits, IndirectLog(tx.after, i, bmapstart) + {x})
    ensures TxOk(tx, bmapstart, inodestart)
  {
    ChunkFits(off, n);
    InodeStep(tx.was, i, tx.after.ino[i], tx.logged, inodestart);
    IndirectTwo(tx.after, i, bmapstart);
    LogSize(tx.logged, data, bits, IndirectLog(tx.after, i, bmapstart), i / IPB + inodestart);
  }

  lemma RefusedOk(tx: Tx, bmapstart: nat, inodestart: nat)
    requires AllLogged(tx.before, tx.after, tx.logged + tx.torn, bmapstart) && tx.was == tx.now && tx.logged == {}
    ensures TxOk(tx, bmapstart, inodestart)
  {
    assert forall j: nat {:trigger InodeLogged(tx.was, tx.now, tx.logged, inodestart, j)} :: j < |tx.now| ==>
        InodeLogged(tx.was, tx.now, tx.logged, inodestart, j);
  }

  /** One chunk of filewrite: a transaction of its own. */
  method WriteChunk(fs: Files, i: nat, off: nat, src: seq<nat>, at: nat, n: nat, avail: nat)
    returns (r: int, ghost stop: Stop, ghost tx: Tx)
    requires fs.Valid() && i < |fs.d.ino| && off < UINT && n <= CHUNK && at + n <= |src| && at <= avail
    modifies fs
    ensures fs.Valid() && |fs.d.ino| == |old(fs.d).ino| && -1 <= r <= n
    ensures TxOk(tx, fs.bmapstart, fs.inodestart) && fs.history == old(fs.history) + [tx]
    ensures tx == Tx(old(fs.d), fs.d, old(fs.dino), fs.dino, fs.logged, fs.torn)
    ensures r == -1 <==> Refused(old(fs.d), i, off, n)
    ensures r == -1 ==> fs.d == old(fs.d) && fs.dino == old(fs.dino)
    ensures r >= 0 ==>
              && at + r <= avail && Stopped(fs.d, i, off, at, n, avail, r, stop)
              && Held(old(fs.d), fs.d, i, off, src, at, r, Copied(stop, r, avail - at))
              && fs.dino == old(fs.dino)[i := fs.d.ino[i]] && fs.InodeBlock(i) in fs.logged
    ensures r == -1 || !stop.Fault? || at + r == avail ==> tx.torn == {}
  {
    fs.BeginOp();
    ghost var data, bits;
    r, stop, data, bits := fs.Writei(i, off, src, at, n, avail);
    tx := Tx(old(fs.d), fs.d, old(fs.dino), fs.dino, fs.logged, fs.torn);
    if r == -1 {
      RefusedOk(tx, fs.bmapstart, fs.inodestart);
    } else {
      ChunkOk(tx, fs.bmapstart, fs.inodestart, i, off, n, data, bits);
    }
    fs.EndOp();
  }

  /** How filewrite of src at off ended: the size accounts for k bytes and `got` are in the blocks. It stops short
      only at a missing block on a full disk, for unreadable memory in the next piece, or because the next chunk
      is refused. */
  ghost predicate Ended(d: Disk, i: nat, off: nat, n: nat, avail: nat, k: nat, got: nat)
    requires i < |d.ino|
  {
    && k <= got <= n && (got > k ==> got == avail)
    && (k < n ==>
          || NoRoom(d, i, off + k) || avail < k + PieceSize(off, n, k)
          || Refused(d, i, off + k, Min(n - k, CHUNK)))
  }

  /** filewrite counts what writei returns unless it is an error. */
  function After(k: nat, r: int): nat {
    if r > 0 then k + r else k
  }

  /** The next n1 bytes, after k of src. */
  method NextChunk(fs: Files, i: nat, off: nat, src: seq<nat>, avail: nat, k: nat, n1: nat, ghost d0: Disk)
    returns (r: int, ghost got: nat, ghost tx: Tx)
    requires fs.Valid() && i < |fs.d.ino| && off + k < UINT && k <= avail <= |src|
    requires n1 == Min(|src| - k, CHUNK) > 0 && Held(d0, fs.d, i, off, src, 0, k, k)
    modifies fs
    ensures fs.Valid() && |fs.d.ino| == |old(fs.d).ino| && -1 <= r <= n1
    ensures TxOk(tx, fs.bmapstart, fs.inodestart) && fs.history == old(fs.history) + [tx]
    ensures tx == Tx(old(fs.d), fs.d, old(fs.dino), fs.dino, fs.logged, fs.torn)
    ensures r == -1 <==> Refused(old(fs.d), i, off + k, n1)
    ensures Inoded(old(fs.d), old(fs.dino), fs.d, fs.dino, i, off + k, n1)
    ensures r >= 0 ==> fs.InodeBlock(i) in tx.logged
    ensures After(k, r) <= got <= |src| && After(k, r) <= avail
            && Held(d0, fs.d, i, off, src, 0, After(k, r), got)
    ensures r == n1 ==> got == k + r && tx.torn == {}
    ensures r < n1 ==> Ended(fs.d, i, off, |src|, avail, After(k, r), got)
    ensures r > 0 ==> off + k + r <= MAXFILE * BSIZE
  {
    ghost var stop;
    r, stop, tx := WriteChunk(fs, i, off + k, src, k, n1, avail);
    got := Reached(k, r, stop, avail);
    ChunkDone(d0, old(fs.d), fs.d, i, off, src, avail, k, n1, r, stop);
  }

  /** How far the bytes of src are in the blocks after that chunk. */
  function Reached(k: nat, r: int, stop: Stop, avail: nat): nat
    requires k <= avail
  {
    if r < 0 then k else k + Copied(stop, r, avail - k)
  }

  lemma ChunkDone(d0: Disk, d1: Disk, d2: Disk, i: nat, off: nat, src: seq<nat>, avail: nat, k: nat, n1: nat, r: int,
                  stop: Stop)
    requires i < |d0.ino| == |d1.ino| == |d2.ino| && k <= avail <= |src| && n1 == Min(|src| - k, CHUNK) && -1 <= r <= n1
    requires Held(d0, d1, i, off, src, 0, k, k) && (r == -1 <==> Refused(d1, i, off + k, n1)) && (r == -1 ==> d2 == d1)
    requires r >= 0 ==>
               && k + r <= avail && Stopped(d2, i, off + k, k, n1, avail, r, stop)
               && Held(d1, d2, i, off + k, src, k, r, Copied(stop, r, avail - k))
    ensures var got := Reached(k, r, stop, avail);
            && After(k, r) <= got <= |src| && After(k, r) <= avail
            && Held(d0, d2, i, off, src, 0, After(k, r), got) == true
            && (r == n1 ==> got == k + r && (n1 > 0 ==> !stop.Fault?))
            && (r < n1 ==> Ended(d2, i, off, |src|, avail, After(k, r), got) == true)
    ensures r > 0 ==> off + k + r <= MAXFILE * BSIZE
  {
    if r == -1 {
      assert After(k, r) == k;
      RefusedEnd(d2, i, off, |src|, avail, k);
    } else {
      assert After(k, r) == k + r;
      ChunkHeld(d0, d1, d2, i, off, src, k, n1, r, Copied(stop, r, avail - k));
      ChunkEnd(d2, i, off, |src|, avail, k, n1, r, stop);
    }
  }

  lemma RefusedEnd(d: Disk, i: nat, off: nat, n: nat, avail: nat, k: nat)
    requires i < |d.ino| && k <= n && Refused(d, i, off + k, Min(n - k, CHUNK))
    ensures Ended(d, i, off, n, avail, k, k)
  {
  }

  lemma ChunkHeld(d0: Disk, d1: Disk, d2: Disk, i: nat, off: nat, src: seq<nat>, k: nat, n1: nat, r: nat, got: nat)
    requires Held(d0, d1, i, off, src, 0, k, k) && Held(d1, d2, i, off + k, src, k, r, got) && i < |d0.ino| && r <= n1
    requires !Refused(d1, i, off + k, n1)
    ensures Held(d0, d2, i, off, src, 0, k + r, k + got) && off + k + r <= MAXFILE * BSIZE
  {
    if k == 0 { HeldSize(d0, d1, i, off, src); }
    HeldMore(d0, d1, d2, i, off, src, k, r, got);
  }

  lemma ChunkEnd(d: Disk, i: nat, off: nat, n: nat, avail: nat, k: nat, n1: nat, r: nat, stop: Stop)
    requires i < |d.ino| && k <= avail <= n && n1 == Min(n - k, CHUNK) && r <= n1 && k + r <= avail
    requires Stopped(d, i, off + k, k, n1, avail, r, stop)
    ensures r == n1 ==> Copied(stop, r, avail - k) == r
    ensures r < n1 ==> Ended(d, i, off, n, avail, k + r, k + Copied(stop, r, avail - k))
  {
  }

  /** The inode after a chunk: as it was on a disk that stays the same, or written. */
  ghost predicate Inoded(d: Disk, was: seq<Inode>, d': Disk, now: seq<Inode>, i: nat, off: nat, n: nat)
    requires i < |d.ino|
  {
    if Refused(d, i, off, n) then d' == d && now == was
    else i < |was| && i < |d'.ino| && now == was[i := d'.ino[i]]
  }

  /** filewrite comes to write the inode. */
  predicate Writes(d: Disk, i: nat, off: nat, n: nat)
    requires i < |d.ino|
  {
    n > 0 && !Refused(d, i, off, Min(n, CHUNK))
  }

  /** The inodes on disk after filewrite of n bytes at off. */
  ghost predicate Saved(d0: Disk, was: seq<Inode>, d: Disk, now: seq<Inode>, i: nat, off: nat, n: nat) {
    && i < |d0.ino| == |d.ino| == |was|
    && now == if Writes(d0, i, off, n) then was[i := d.ino[i]] else was
  }

  /** The same while it goes on, after k bytes. */
  ghost predicate Saving(d0: Disk, was: seq<Inode>, d: Disk, now: seq<Inode>, i: nat, off: nat, n: nat, k: nat) {
    && i < |d0.ino| == |d.ino| == |was|
    && if k == 0 then d == d0 && now == was else Writes(d0, i, off, n) && now == was[i := d.ino[i]]
  }

  lemma SavingMore(d0: Disk, was: seq<Inode>, d1: Disk, now1: seq<Inode>, d2: Disk, now2: seq<Inode>, i: nat, off: nat,
                   n: nat, k: nat, n1: nat)
    requires Saving(d0, was, d1, now1, i, off, n, k) && k < n && n1 == Min(n - k, CHUNK) && |d2.ino| == |d1.ino|
    requires Inoded(d1, now1, d2, now2, i, off + k, n1)
    ensures Saved(d0, was, d2, now2, i, off, n)
    ensures !Refused(d1, i, off + k, n1) ==> Saving(d0, was, d2, now2, i, off, n, k + n1)
  {
  }

  /** The trail has been added to the history, and the last operation is the current one. */
  ghost predicate Recorded(h0: seq<Tx>, h: seq<Tx>, trail: seq<Tx>, logged: set<nat>) {
    h == h0 + trail && (trail != [] ==> trail[|trail| - 1].logged == logged)
  }

  lemma RecordedMore(h0: seq<Tx>, h: seq<Tx>, trail: seq<Tx>, logged: set<nat>, tx: Tx)
    requires Recorded(h0, h, trail, logged)
    ensures Recorded(h0, h + [tx], trail + [tx], tx.logged)
  {
    assert h0 + trail + [tx] == h0 + (trail + [tx]);
  }

  /** filewrite on an inode, of src at the file offset, where the caller's memory can be read up to `avail`: k bytes
      are written and the offset moves by k. It reports failure exactly when k falls short, which has its
      reasons (Ended). The transactions it adds to the history lead from the old disk to the new one, each within
      its log reservation, and the inode on disk is the new one unless the first chunk was refused. */
  method FileWrite(fs: Files, i: nat, off: nat, src: seq<nat>, avail: nat)
    returns (ret: int, off': nat, ghost k: nat, ghost got: nat, ghost trail: seq<Tx>)
    requires fs.Valid() && i < |fs.d.ino| && off < UINT && |src| < 0x8000_0000 && avail <= |src|
    modifies fs
    ensures fs.Valid() && |fs.d.ino| == |old(fs.d).ino| && k <= avail && k <= got <= |src| && off' == off + k
    ensures ret == (if k == |src| then |src| else -1) && Ended(fs.d, i, off, |src|, avail, k, got)
    ensures Held(old(fs.d), fs.d, i, off, src, 0, k, got)
    ensures Recorded(old(fs.history), fs.history, trail, fs.logged)
    ensures Chain(old(fs.d), old(fs.dino), trail, fs.d, fs.dino, fs.bmapstart, fs.inodestart)
    ensures Saved(old(fs.d), old(fs.dino), fs.d, fs.dino, i, off, |src|)
  {
    var done := 0;
    off', k, got, trail := off, 0, 0, [];
    HeldNone(fs.d, i, off, src);
    assert Recorded(old(fs.history), fs.history, trail, fs.logged);
    assert Saving(old(fs.d), old(fs.dino), fs.d, fs.dino, i, off, |src|, 0);
    while done < |src|
      invariant 0 <= done <= avail && k == done && got == done && off' == off + done && fs.Valid()
      invariant |fs.d.ino| == |old(fs.d).ino| && off + done < UINT
      invariant Held(old(fs.d), fs.d, i, off, src, 0, done, done)
      invariant Recorded(old(fs.history), fs.history, trail, fs.logged) && Untorn(trail)
      invariant Chain(old(fs.d), old(fs.dino), trail, fs.d, fs.dino, fs.bmapstart, fs.inodestart)
      invariant Saving(old(fs.d), old(fs.dino), fs.d, fs.dino, i, off, |src|, done)
    {
      ghost var d1, now1, h1, l1 := fs.d, fs.dino, fs.history, fs.logged;
      var n1 := if |src| - done > CHUNK then CHUNK else |src| - done;
      var r; ghost var tx;
      r, got, tx := NextChunk(fs, i, off, src, avail, done, n1, old(fs.d));
      ChainMore(old(fs.d), old(fs.dino), trail, tx, fs.bmapstart, fs.inodestart);
      RecordedMore(old(fs.history), h1, trail, l1, tx);
      SavingMore(old(fs.d), old(fs.dino), d1, now1, fs.d, fs.dino, i, off, |src|, done, n1);
      trail, k := trail + [tx], After(done, r);
      if r > 0 {
        off' := off' + r;
      }
      if r != n1 {
        return -1, off', k, got, trail;
      }
      assert k == done + r;
      done := done + r;
    }
    ret := |src|;
    assert Ended(fs.d, i, off, |src|, avail, done, done);
  }

  predicate SameFile(d0: Disk, d: Disk, j: nat) {
    Content(d, j) == Content(d0, j)
  }

  /** What the files hold after `got` bytes of src[at..] have reached the blocks of file i from off on, and the size
      of file i accounts for the first k of them; no byte lies past the end of the old file i. */
  ghost predicate Held(d0: Disk, d: Disk, i: nat, off: nat, src: seq<nat>, at: nat, k: nat, got: nat) {
    && k <= got && at + got <= |src| && |d.ino| == |d0.ino| && (got > 0 ==> i < |d0.ino| && off <= d0.ino[i].size)
    && (i < |d.ino| ==> Content(d, i) == Stored(Content(d0, i), off, src, at, k, got))
    && forall j: nat {:trigger SameFile(d0, d, j)} :: j < |d.ino| && j != i ==> SameFile(d0, d, j)
  }

  lemma HeldNone(d: Disk, i: nat, off: nat, src: seq<nat>)
    ensures Held(d, d, i, off, src, 0, 0, 0)
  {
  }

  lemma HeldMore(d0: Disk, d1: Disk, d2: Disk, i: nat, off: nat, src: seq<nat>, k: nat, r: nat, got: nat)
    requires Held(d0, d1, i, off, src, 0, k, k) && Held(d1, d2, i, off + k, src, k, r, got) && i < |d0.ino|
    requires k + got > 0 ==> off <= d0.ino[i].size
    ensures Held(d0, d2, i, off, src, 0, k + r, k + got)
  {
    MoreStored(Content(d0, i), Content(d1, i), Content(d2, i), off, src, k, r, got);
    forall j: nat | j < |d2.ino| && j != i ensures SameFile(d0, d2, j) {
      assert SameFile(d0, d1, j) && SameFile(d1, d2, j);
    }
  }

  lemma MoreStored(c0: seq<nat>, c1: seq<nat>, c2: seq<nat>, off: nat, src: seq<nat>, k: nat, r: nat, got: nat)
    requires r <= got && k + got <= |src|
    requires c1 == Stored(c0, off, src, 0, k, k) && c2 == Stored(c1, off + k, src, k, r, got)
    ensures c2 == Stored(c0, off, src, 0, k + r, k + got)
  {
    StoredAll(c0, off, src, 0, k);
    StoredTwice(c0, off, src, 0, k, r, got);
  }

  /** While nothing is written the file keeps its size. */
  lemma HeldSize(d0: Disk, d1: Disk, i: nat, off: nat, src: seq<nat>)
    requires Held(d0, d1, i, off, src, 0, 0, 0) && i < |d0.ino|
    ensures d1.ino[i].size == d0.ino[i].size
  {
  }
}

/**
  The on-disk structures of kernel/fs.c as values: blocks of bytes, the block bitmap, and inodes with
  direct and indirect block numbers. The meaning of an inode is a flat byte string.
 */
module Inodes {

  const BSIZE: nat := 1024
  const NDIRECT: nat := 12
  const NINDIRECT: nat := 256       // block numbers in an indirect block
  const MAXFILE: nat := 268         // blocks in a file
  const BPB: nat := 8192            // bits in a bitmap block
  const IPB: nat := 16              // inodes in a block
  const UINT: nat := 0x1_0000_0000

  datatype Block = Block(b: seq<nat>)
  datatype Inode = Inode(size: nat, addrs: seq<nat>)

  /** The places that hold block numbers. */
  datatype Slot = Direct(k: nat) | Indirect | Entry(k: nat)
  datatype Owner = Owner(i: nat, s: Slot)

  /** `data` is the first block of the data area. */
  datatype Disk = Disk(used: seq<bool>, blk: seq<Block>, ino: seq<Inode>, data: nat)

  // ---------------------------------------------------------------- blocks

  function Zero(): Block {
    Block(seq(BSIZE, _ => 0))
  }

  predicate IsBlock(b: Block) {
    |b.b| == BSIZE
  }

  /** The k-th 32-bit word of a block, little-endian. */
  function WordAt(b: Block, k: nat): nat
    requires IsBlock(b) && k < NINDIRECT
  {
    b.b[4 * k] + 256 * b.b[4 * k + 1] + 65536 * b.b[4 * k + 2] + 16777216 * b.b[4 * k + 3]
  }

  function PutWord(b: Block, k: nat, x: nat): Block
    requires IsBlock(b) && k < NINDIRECT
  {
    Block(b.b[4 * k := x % 256][4 * k + 1 := x / 256 % 256]
             [4 * k + 2 := x / 65536 % 256][4 * k + 3 := x / 16777216 % 256])
  }

  /** The four bytes of a 32-bit number make it up again. */
  lemma BytesOf(x: nat)
    requires x < UINT
    ensures x % 256 + 256 * (x / 256 % 256) + 65536 * (x / 65536 % 256) + 16777216 * (x / 16777216 % 256) == x
  {
    var a := x / 256;
    var b := a / 256;
    assert x / 65536 == b && x / 16777216 == b / 256;
    assert x == 256 * a + x % 256 && a == 256 * b + a % 256 && b == 256 * (b / 256) + b % 256;
  }

  /** Words are stored without disturbing their neighbours. */
  lemma WordPut(b: Block, k: nat, x: nat, j: nat)
    requires IsBlock(b) && k < NINDIRECT && j < NINDIRECT && x < UINT
    ensures WordAt(PutWord(b, k, x), j) == if j == k then x else WordAt(b, j)
  {
    if j == k { BytesOf(x); }
  }

  lemma ZeroWord(k: nat)
    requires k < NINDIRECT
    ensures WordAt(Zero(), k) == 0
  {
  }

  // ---------------------------------------------------------------- block numbers of an inode

  predicate ValidSlot(s: Slot) {
    match s
    case Direct(k) => k < NDIRECT
    case Indirect => true
    case Entry(k) => k < NINDIRECT
  }

  function Addr(d: Disk, i: nat, s: Slot): nat {
    if i >= |d.ino| || |d.ino[i].addrs| != NDIRECT + 1 || !ValidSlot(s) then 0
    else
      var a := d.ino[i].addrs;
      match s
      case Direct(k) => a[k]
      case Indirect => a[NDIRECT]
      case Entry(k) =>
        if a[NDIRECT] == 0 || a[NDIRECT] >= |d.blk| || !IsBlock(d.blk[a[NDIRECT]]) then 0
        else WordAt(d.blk[a[NDIRECT]], k)
  }

  /** Where the number of the bn-th block of a file is kept. */
  function DataSlot(bn: nat): Slot {
    if bn < NDIRECT then Direct(bn) else Entry(bn - NDIRECT)
  }

  function ByteAt(d: Disk, i: nat, pos: nat): nat {
    var a := Addr(d, i, DataSlot(pos / BSIZE));
    if 0 < a < |d.blk| && IsBlock(d.blk[a]) then d.blk[a].b[pos % BSIZE] else 0
  }

  /** The first n bytes of a file. */
  function Prefix(d: Disk, i: nat, n: nat): (r: seq<nat>)
    ensures |r| == n
  {
    if n == 0 then [] else Prefix(d, i, n - 1) + [ByteAt(d, i, n - 1)]
  }

  /** The file as a flat byte string. */
  function Content(d: Disk, i: nat): (r: seq<nat>)
    ensures |r| == if i < |d.ino| then d.ino[i].size else 0
  {
    if i < |d.ino| then Prefix(d, i, d.ino[i].size) else []
  }

  lemma {:induction false} PrefixAt(d: Disk, i: nat, n: nat, pos: nat)
    requires pos < n
    ensures Prefix(d, i, n)[pos] == ByteAt(d, i, pos)
  {
    if pos < n - 1 { PrefixAt(d, i, n - 1, pos); }
  }

  lemma {:induction false} SamePrefix(d: Disk, d': Disk, i: nat, n: nat)
    requires forall pos: nat :: pos < n ==> ByteAt(d', i, pos) == ByteAt(d, i, pos)
    ensures Prefix(d', i, n) == Prefix(d, i, n)
  {
    if n > 0 { SamePrefix(d, d', i, n - 1); }
  }

  // ---------------------------------------------------------------- invariant

  predicate InodeOk(d: Disk, i: nat)
    requires i < |d.ino|
  {
    |d.ino[i].addrs| == NDIRECT + 1 && d.ino[i].size <= MAXFILE * BSIZE
  }

  predicate SlotOk(d: Disk, own: map<nat, Owner>, i: nat, s: Slot) {
    Addr(d, i, s) != 0 ==> Addr(d, i, s) in own && own[Addr(d, i, s)] == Owner(i, s)
  }

  predicate OwnOk(d: Disk, own: map<nat, Owner>, b: nat)
    requires b in own
  {
    Addr(d, own[b].i, own[b].s) == b && d.data <= b < |d.blk|
  }

  /** Exactly the owned blocks and those below the data area are marked used. */
  predicate UsedOk(d: Disk, own: map<nat, Owner>, b: nat)
    requires |d.used| == |d.blk| && b < |d.blk|
  {
    d.used[b] <==> b < d.data || b in own
  }

  /** Every block below the size is allocated. */
  predicate HoleOk(d: Disk, i: nat, bn: nat)
    requires i < |d.ino|
  {
    bn * BSIZE < d.ino[i].size ==> Addr(d, i, DataSlot(bn)) != 0
  }

  predicate Shape(d: Disk) {
    0 < d.data <= |d.blk| == |d.used| <= UINT && forall b :: 0 <= b < |d.blk| ==> IsBlock(d.blk[b])
  }

  /** Block ownership: every block number in use is in the data area, marked used, and in one slot only. */
  ghost predicate Owned(d: Disk, own: map<nat, Owner>) {
    && Shape(d)
    && (forall i: nat {:trigger InodeOk(d, i)} :: i < |d.ino| ==> InodeOk(d, i))
    && (forall i: nat, s {:trigger SlotOk(d, own, i, s)} :: SlotOk(d, own, i, s))
    && (forall b {:trigger OwnOk(d, own, b)} :: b in own ==> OwnOk(d, own, b))
    && (forall b: nat {:trigger UsedOk(d, own, b)} :: b < |d.blk| ==> UsedOk(d, own, b))
  }

  ghost predicate NoHoles(d: Disk) {
    forall i: nat, bn: nat {:trigger HoleOk(d, i, bn)} :: i < |d.ino| ==> HoleOk(d, i, bn)
  }

  /** No block number occurs in two slots. */
  lemma Distinct(d: Disk, own: map<nat, Owner>, i: nat, s: Slot, j: nat, r: Slot)
    requires Owned(d, own) && Addr(d, i, s) != 0 && (i != j || s != r)
    ensures Addr(d, i, s) != Addr(d, j, r)
    ensures d.data <= Addr(d, i, s) < |d.blk| && d.used[Addr(d, i, s)]
  {
    assert SlotOk(d, own, i, s) && SlotOk(d, own, j, r) && OwnOk(d, own, Addr(d, i, s))
           && UsedOk(d, own, Addr(d, i, s));
  }

  // ---------------------------------------------------------------- allocation into a slot

  /** A free block is marked, zeroed and entered in a slot of inode i. */
  function SetSlot(d: Disk, i: nat, s: Slot, b: nat): Disk
    requires i < |d.ino| && InodeOk(d, i) && ValidSlot(s)
    requires s.Entry? ==> 0 < d.ino[i].addrs[NDIRECT] < |d.blk| && IsBlock(d.blk[d.ino[i].addrs[NDIRECT]])
  {
    var node := d.ino[i];
    match s
    case Direct(k) => d.(ino := d.ino[i := node.(addrs := node.addrs[k := b])])
    case Indirect => d.(ino := d.ino[i := node.(addrs := node.addrs[NDIRECT := b])])
    case Entry(k) => d.(blk := d.blk[node.addrs[NDIRECT] := PutWord(d.blk[node.addrs[NDIRECT]], k, b)])
  }

  function Take(d: Disk, b: nat): Disk
    requires |d.used| == |d.blk| && b < |d.blk|
  {
    d.(used := d.used[b := true], blk := d.blk[b := Zero()])
  }

  predicate CanAttach(d: Disk, own: map<nat, Owner>, i: nat, s: Slot, b: nat) {
    && |d.used| == |d.blk| && i < |d.ino| && InodeOk(d, i) && ValidSlot(s) && Addr(d, i, s) == 0
    && d.data <= b < |d.blk| && !d.used[b] && 0 < b < UINT
    && (s.Entry? ==>
          0 < d.ino[i].addrs[NDIRECT] < |d.blk| && d.ino[i].addrs[NDIRECT] != b
          && IsBlock(d.blk[d.ino[i].addrs[NDIRECT]]))
  }

  function Attach(d: Disk, own: map<nat, Owner>, i: nat, s: Slot, b: nat): Disk
    requires CanAttach(d, own, i, s, b)
  {
    SetSlot(Take(d, b), i, s, b)
  }

  lemma AttachAddr(d: Disk, own: map<nat, Owner>, i: nat, s: Slot, b: nat, j: nat, r: Slot)
    requires Owned(d, own) && CanAttach(d, own, i, s, b)
    ensures Addr(Attach(d, own, i, s, b), j, r) == if j == i && r == s then b else Addr(d, j, r)
  {
    assert UsedOk(d, own, b) && SlotOk(d, own, i, Indirect) && SlotOk(d, own, j, Indirect);
    if Addr(d, j, Indirect) != 0 { assert OwnOk(d, own, Addr(d, j, Indirect)); }
    if j < |d.ino| { assert InodeOk(d, j); }
    if r.Entry? && ValidSlot(r) {
      ZeroWord(r.k);
      if s.Entry? && j == i { WordPut(d.blk[d.ino[i].addrs[NDIRECT]], s.k, b, r.k); }
    }
  }

  lemma AttachKeeps(d: Disk, own: map<nat, Owner>, i: nat, s: Slot, b: nat)
    requires Owned(d, own) && CanAttach(d, own, i, s, b)
    ensures Owned(Attach(d, own, i, s, b), own[b := Owner(i, s)])
  {
    var d', own' := Attach(d, own, i, s, b), own[b := Owner(i, s)];
    assert UsedOk(d, own, b);
    forall j: nat | j < |d'.ino| ensures InodeOk(d', j) { assert InodeOk(d, j); }
    forall j: nat, r ensures SlotOk(d', own', j, r) { AttachAddr(d, own, i, s, b, j, r); assert SlotOk(d, own, j, r); }
    forall c | c in own' ensures OwnOk(d', own', c) {
      AttachAddr(d, own, i, s, b, own'[c].i, own'[c].s);
      if c != b { assert OwnOk(d, own, c); }
    }
    forall c: nat | c < |d'.blk| ensures UsedOk(d', own', c) { assert UsedOk(d, own, c); }
  }

  lemma AttachByte(d: Disk, own: map<nat, Owner>, i: nat, s: Slot, b: nat, j: nat, pos: nat)
    requires Owned(d, own) && CanAttach(d, own, i, s, b) && (j != i || DataSlot(pos / BSIZE) != s)
    ensures ByteAt(Attach(d, own, i, s, b), j, pos) == ByteAt(d, j, pos)
  {
    var r := DataSlot(pos / BSIZE);
    AttachAddr(d, own, i, s, b, j, r);
    assert UsedOk(d, own, b) && SlotOk(d, own, j, r) && SlotOk(d, own, i, Indirect);
    if Addr(d, j, r) != 0 { assert OwnOk(d, own, Addr(d, j, r)); }
  }

  // ---------------------------------------------------------------- what allocation leaves alone

  predicate AddrKept(d: Disk, d': Disk, j: nat, s: Slot) {
    Addr(d, j, s) != 0 ==> Addr(d', j, s) == Addr(d, j, s)
  }

  predicate ByteKept(d: Disk, d': Disk, j: nat, pos: nat) {
    Addr(d, j, DataSlot(pos / BSIZE)) != 0 ==> ByteAt(d', j, pos) == ByteAt(d, j, pos)
  }

  predicate SizeKept(d: Disk, d': Disk, j: nat)
    requires j < |d.ino| == |d'.ino|
  {
    d'.ino[j].size == d.ino[j].size
  }

  /** Only free blocks were taken and empty slots filled. */
  ghost predicate AllocOnly(d: Disk, d': Disk) {
    && |d'.ino| == |d.ino| && |d'.blk| == |d.blk| && d'.data == d.data
    && (forall j: nat {:trigger SizeKept(d, d', j)} :: j < |d.ino| ==> SizeKept(d, d', j))
    && (forall j: nat, s {:trigger AddrKept(d, d', j, s)} :: AddrKept(d, d', j, s))
    && (forall j: nat, pos: nat {:trigger ByteKept(d, d', j, pos)} :: ByteKept(d, d', j, pos))
  }

  lemma AttachOnly(d: Disk, own: map<nat, Owner>, i: nat, s: Slot, b: nat)
    requires Owned(d, own) && CanAttach(d, own, i, s, b)
    ensures AllocOnly(d, Attach(d, own, i, s, b))
  {
    var d' := Attach(d, own, i, s, b);
    forall j: nat, r ensures AddrKept(d, d', j, r) { AttachAddr(d, own, i, s, b, j, r); }
    forall j: nat, pos: nat ensures ByteKept(d, d', j, pos) {
      if j != i || DataSlot(pos / BSIZE) != s { AttachByte(d, own, i, s, b, j, pos); }
    }
  }

  lemma AllocTrans(d: Disk, d1: Disk, d2: Disk)
    requires AllocOnly(d, d1) && AllocOnly(d1, d2)
    ensures AllocOnly(d, d2)
  {
    forall j: nat | j < |d.ino| ensures SizeKept(d, d2, j) { assert SizeKept(d, d1, j) && SizeKept(d1, d2, j); }
    forall j: nat, r ensures AddrKept(d, d2, j, r) { assert AddrKept(d, d1, j, r) && AddrKept(d1, d2, j, r); }
    forall j: nat, pos: nat ensures ByteKept(d, d2, j, pos) {
      assert ByteKept(d, d1, j, pos) && ByteKept(d1, d2, j, pos) && AddrKept(d, d1, j, DataSlot(pos / BSIZE));
    }
  }

  lemma AllocNoHoles(d: Disk, d': Disk)
    requires NoHoles(d) && AllocOnly(d, d')
    ensures NoHoles(d')
  {
    forall i: nat, bn: nat | i < |d'.ino| ensures HoleOk(d', i, bn) {
      assert HoleOk(d, i, bn) && AddrKept(d, d', i, DataSlot(bn)) && SizeKept(d, d', i);
    }
  }

  /** Allocation changes the content of no file. */
  lemma AllocContent(d: Disk, d': Disk, j: nat)
    requires NoHoles(d) && AllocOnly(d, d') && j < |d.ino|
    ensures Content(d', j) == Content(d, j)
  {
    assert SizeKept(d, d', j);
    forall pos: nat | pos < d.ino[j].size ensures ByteAt(d', j, pos) == ByteAt(d, j, pos) {
      assert HoleOk(d, j, pos / BSIZE) && ByteKept(d, d', j, pos);
    }
    SamePrefix(d, d', j, d.ino[j].size);
  }

  // ---------------------------------------------------------------- storing into a data block

  function Patched(b: Block, lo: nat, src: seq<nat>): Block
    requires IsBlock(b) && lo + |src| <= BSIZE
  {
    Block(b.b[..lo] + src + b.b[lo + |src|..])
  }

  predicate CanPatch(d: Disk, i: nat, bn: nat, lo: nat, src: seq<nat>) {
    var a := Addr(d, i, DataSlot(bn));
    0 < a < |d.blk| && IsBlock(d.blk[a]) && lo + |src| <= BSIZE
  }

  function Patch(d: Disk, i: nat, bn: nat, lo: nat, src: seq<nat>): Disk
    requires CanPatch(d, i, bn, lo, src)
  {
    var a := Addr(d, i, DataSlot(bn));
    d.(blk := d.blk[a := Patched(d.blk[a], lo, src)])
  }

  lemma PatchAddr(d: Disk, own: map<nat, Owner>, i: nat, bn: nat, lo: nat, src: seq<nat>, j: nat, r: Slot)
    requires Owned(d, own) && CanPatch(d, i, bn, lo, src)
    ensures Addr(Patch(d, i, bn, lo, src), j, r) == Addr(d, j, r)
  {
    assert SlotOk(d, own, i, DataSlot(bn)) && SlotOk(d, own, j, Indirect);
  }

  lemma PatchByte(d: Disk, own: map<nat, Owner>, i: nat, bn: nat, lo: nat, src: seq<nat>, j: nat, pos: nat)
    requires Owned(d, own) && CanPatch(d, i, bn, lo, src)
    ensures ByteAt(Patch(d, i, bn, lo, src), j, pos) ==
            if j == i && bn * BSIZE + lo <= pos < bn * BSIZE + lo + |src| then src[pos - bn * BSIZE - lo]
            else ByteAt(d, j, pos)
  {
    PatchAddr(d, own, i, bn, lo, src, j, DataSlot(pos / BSIZE));
    assert SlotOk(d, own, i, DataSlot(bn)) && SlotOk(d, own, j, DataSlot(pos / BSIZE));
  }

  lemma PatchKeeps(d: Disk, own: map<nat, Owner>, i: nat, bn: nat, lo: nat, src: seq<nat>)
    requires Owned(d, own) && CanPatch(d, i, bn, lo, src)
    ensures Owned(Patch(d, i, bn, lo, src), own) && (NoHoles(d) ==> NoHoles(Patch(d, i, bn, lo, src)))
  {
    var d' := Patch(d, i, bn, lo, src);
    forall j: nat | j < |d'.ino| ensures InodeOk(d', j) { assert InodeOk(d, j); }
    forall j: nat, r ensures SlotOk(d', own, j, r) {
      PatchAddr(d, own, i, bn, lo, src, j, r);
      assert SlotOk(d, own, j, r);
    }
    forall c | c in own ensures OwnOk(d', own, c) {
      PatchAddr(d, own, i, bn, lo, src, own[c].i, own[c].s);
      assert OwnOk(d, own, c);
    }
    forall c: nat | c < |d'.blk| ensures UsedOk(d', own, c) { assert UsedOk(d, own, c); }
    if NoHoles(d) {
      forall j: nat, n: nat | j < |d'.ino| ensures HoleOk(d', j, n) {
        PatchAddr(d, own, i, bn, lo, src, j, DataSlot(n));
        assert HoleOk(d, j, n);
      }
    }
  }

  // ---------------------------------------------------------------- a write, piece by piece

  /** The k bytes src[at..] have been stored from off on in file i; every other byte of every file is as in d. */
  predicate WroteByte(d: Disk, d': Disk, i: nat, off: nat, src: seq<nat>, at: nat, k: nat, j: nat, pos: nat)
    requires j < |d.ino| && at + k <= |src|
  {
    if j == i && off <= pos < off + k then ByteAt(d', j, pos) == src[at + (pos - off)]
    else pos < d.ino[j].size ==> ByteAt(d', j, pos) == ByteAt(d, j, pos)
  }

  predicate HasBlock(d: Disk, i: nat, bn: nat) {
    Addr(d, i, DataSlot(bn)) != 0
  }

  ghost predicate Reaches(d: Disk, i: nat, end: nat) {
    forall bn: nat {:trigger HasBlock(d, i, bn)} :: bn * BSIZE < end ==> HasBlock(d, i, bn)
  }

  ghost predicate Wrote(d: Disk, d': Disk, i: nat, off: nat, src: seq<nat>, at: nat, k: nat) {
    && at + k <= |src| && |d'.ino| == |d.ino| && |d'.blk| == |d.blk| && d'.data == d.data && Reaches(d', i, off + k)
    && (forall j: nat {:trigger SizeKept(d, d', j)} :: j < |d.ino| ==> SizeKept(d, d', j))
    && (forall j: nat, s {:trigger AddrKept(d, d', j, s)} :: AddrKept(d, d', j, s))
    && (forall j: nat, pos: nat {:trigger WroteByte(d, d', i, off, src, at, k, j, pos)} ::
          j < |d.ino| ==> WroteByte(d, d', i, off, src, at, k, j, pos))
  }

  lemma WroteNothing(d: Disk, i: nat, off: nat, src: seq<nat>, at: nat)
    requires NoHoles(d) && i < |d.ino| && off <= d.ino[i].size && at <= |src|
    ensures Wrote(d, d, i, off, src, at, 0)
  {
    forall bn: nat | bn * BSIZE < off ensures HasBlock(d, i, bn) { assert HoleOk(d, i, bn); }
  }

  /** Allocation in between does no harm. */
  lemma WroteAlloc(d: Disk, d1: Disk, d2: Disk, i: nat, off: nat, src: seq<nat>, at: nat, k: nat)
    requires Wrote(d, d1, i, off, src, at, k) && AllocOnly(d1, d2) && NoHoles(d)
    ensures Wrote(d, d2, i, off, src, at, k)
  {
    var end := off + k;
    forall bn: nat | bn * BSIZE < end ensures HasBlock(d2, i, bn) {
      assert HasBlock(d1, i, bn) && AddrKept(d1, d2, i, DataSlot(bn));
    }
    forall j: nat | j < |d.ino| ensures SizeKept(d, d2, j) { assert SizeKept(d, d1, j) && SizeKept(d1, d2, j); }
    forall j: nat, s ensures AddrKept(d, d2, j, s) { assert AddrKept(d, d1, j, s) && AddrKept(d1, d2, j, s); }
    forall j: nat, pos: nat | j < |d.ino| ensures WroteByte(d, d2, i, off, src, at, k, j, pos) {
      assert WroteByte(d, d1, i, off, src, at, k, j, pos) && ByteKept(d1, d2, j, pos);
      if j == i && off <= pos < end {
        assert HasBlock(d1, i, pos / BSIZE);
      } else {
        assert HoleOk(d, j, pos / BSIZE) && AddrKept(d, d1, j, DataSlot(pos / BSIZE));
      }
    }
  }

  /** The next m bytes, up to the end of their block. */
  lemma WroteMore(d: Disk, d1: Disk, own: map<nat, Owner>, i: nat, off: nat, src: seq<nat>, at: nat, k: nat, m: nat)
    requires Wrote(d, d1, i, off, src, at, k) && Owned(d1, own) && at + k + m <= |src|
    requires CanPatch(d1, i, (off + k) / BSIZE, (off + k) % BSIZE, src[at + k..at + k + m])
    ensures Wrote(d, Patch(d1, i, (off + k) / BSIZE, (off + k) % BSIZE, src[at + k..at + k + m]), i, off, src, at,
                  k + m)
  {
    var bn, lo, piece := (off + k) / BSIZE, (off + k) % BSIZE, src[at + k..at + k + m];
    var d2 := Patch(d1, i, bn, lo, piece);
    var k2 := k + m;
    var end := off + k2;
    forall n: nat | n * BSIZE < end ensures HasBlock(d2, i, n) {
      PatchAddr(d1, own, i, bn, lo, piece, i, DataSlot(n));
      if n != bn { assert HasBlock(d1, i, n); }
    }
    forall j: nat | j < |d.ino| ensures SizeKept(d, d2, j) { assert SizeKept(d, d1, j); }
    forall j: nat, s ensures AddrKept(d, d2, j, s) {
      assert AddrKept(d, d1, j, s);
      PatchAddr(d1, own, i, bn, lo, piece, j, s);
    }
    forall j: nat, pos: nat | j < |d.ino| ensures WroteByte(d, d2, i, off, src, at, k2, j, pos) {
      assert WroteByte(d, d1, i, off, src, at, k, j, pos);
      PatchByte(d1, own, i, bn, lo, piece, j, pos);
    }
  }

  function Resized(d: Disk, i: nat, size: nat): Disk
    requires i < |d.ino|
  {
    d.(ino := d.ino[i := d.ino[i].(size := size)])
  }

  lemma ResizedAddr(d: Disk, i: nat, size: nat, j: nat, s: Slot)
    requires i < |d.ino|
    ensures Addr(Resized(d, i, size), j, s) == Addr(d, j, s)
  {
  }

  lemma ResizedKeeps(d: Disk, own: map<nat, Owner>, i: nat, size: nat)
    requires Owned(d, own) && NoHoles(d) && i < |d.ino| && size <= MAXFILE * BSIZE && Reaches(d, i, size)
    ensures Owned(Resized(d, i, size), own) && NoHoles(Resized(d, i, size))
  {
    var d' := Resized(d, i, size);
    forall j: nat | j < |d'.ino| ensures InodeOk(d', j) { assert InodeOk(d, j); }
    forall j: nat, s ensures SlotOk(d', own, j, s) { ResizedAddr(d, i, size, j, s); assert SlotOk(d, own, j, s); }
    forall c | c in own ensures OwnOk(d', own, c) {
      ResizedAddr(d, i, size, own[c].i, own[c].s);
      assert OwnOk(d, own, c);
    }
    forall c: nat | c < |d'.blk| ensures UsedOk(d', own, c) { assert UsedOk(d, own, c); }
    forall j: nat, bn: nat | j < |d'.ino| ensures HoleOk(d', j, bn) {
      ResizedAddr(d, i, size, j, DataSlot(bn));
      assert HoleOk(d, j, bn) && HasBlock(d, i, bn) == (Addr(d, i, DataSlot(bn)) != 0);
    }
  }

  /** A byte replaced, or appended at the end. */
  function Put(c: seq<nat>, pos: nat, x: nat): seq<nat> {
    if pos < |c| then c[pos := x] else c + [x]
  }

  /** The specification of a write: the k bytes src[at..] one after the other from off on. */
  function Written(c: seq<nat>, off: nat, src: seq<nat>, at: nat, k: nat): seq<nat>
    requires at + k <= |src|
  {
    if k == 0 then c else Put(Written(c, off, src, at, k - 1), off + k - 1, src[at + k - 1])
  }

  function Max(a: nat, b: nat): nat {
    if a < b then b else a
  }

  lemma {:induction false} WrittenLength(c: seq<nat>, off: nat, src: seq<nat>, at: nat, k: nat)
    requires off <= |c| && at + k <= |src|
    ensures |Written(c, off, src, at, k)| == Max(|c|, off + k)
  {
    if k > 0 { WrittenLength(c, off, src, at, k - 1); }
  }

  /** Bytes off.. are those of src, all others are kept. */
  lemma {:induction false} WrittenAt(c: seq<nat>, off: nat, src: seq<nat>, at: nat, k: nat, pos: nat)
    requires off <= |c| && at + k <= |src| && pos < Max(|c|, off + k)
    ensures |Written(c, off, src, at, k)| == Max(|c|, off + k)
    ensures Written(c, off, src, at, k)[pos] == if off <= pos < off + k then src[at + (pos - off)] else c[pos]
  {
    WrittenLength(c, off, src, at, k);
    if k > 0 {
      WrittenLength(c, off, src, at, k - 1);
      if pos < Max(|c|, off + k - 1) { WrittenAt(c, off, src, at, k - 1, pos); }
    }
  }

  /** Two writes in a row are one. */
  lemma {:induction false} WrittenTwice(c: seq<nat>, off: nat, src: seq<nat>, at: nat, k: nat, r: nat)
    requires at + k + r <= |src|
    ensures Written(Written(c, off, src, at, k), off + k, src, at + k, r) == Written(c, off, src, at, k + r)
  {
    if r > 0 { WrittenTwice(c, off, src, at, k, r - 1); }
  }

  /** Reading back what was written gives it, and gives the old bytes everywhere else. */
  lemma WriteThenRead(c: seq<nat>, off: nat, src: seq<nat>, at: nat, k: nat)
    requires off <= |c| && at + k <= |src|
    ensures var w := Written(c, off, src, at, k);
            && |w| == Max(|c|, off + k) && w[off..off + k] == src[at..at + k] && w[..off] == c[..off]
            && (off + k <= |c| ==> w[off + k..] == c[off + k..])
  {
    var w := Written(c, off, src, at, k);
    WrittenLength(c, off, src, at, k);
    forall pos: nat | pos < |w| ensures w[pos] == if off <= pos < off + k then src[at + (pos - off)] else c[pos] {
      WrittenAt(c, off, src, at, k, pos);
    }
  }

  /** Bytes lo..hi-1 of src[at..] replace those at off, as far as these exist; the string does not grow. */
  function Overlaid(c: seq<nat>, off: nat, src: seq<nat>, at: nat, lo: nat, hi: nat): (r: seq<nat>)
    requires at + hi <= |src|
    ensures |r| == |c|
    decreases hi
  {
    if hi <= lo then c
    else
      var r := Overlaid(c, off, src, at, lo, hi - 1);
      if off + hi - 1 < |c| then r[off + hi - 1 := src[at + hi - 1]] else r
  }

  lemma {:induction false} OverlaidAt(c: seq<nat>, off: nat, src: seq<nat>, at: nat, lo: nat, hi: nat, pos: nat)
    requires at + hi <= |src| && pos < |c|
    ensures Overlaid(c, off, src, at, lo, hi)[pos] ==
            if off + lo <= pos < off + hi then src[at + (pos - off)] else c[pos]
    decreases hi
  {
    if lo < hi { OverlaidAt(c, off, src, at, lo, hi - 1, pos); }
  }

  lemma {:induction false} OverlaidShift(c: seq<nat>, off: nat, src: seq<nat>, at: nat, k: nat, lo: nat, hi: nat)
    requires at + k + hi <= |src|
    ensures Overlaid(c, off + k, src, at + k, lo, hi) == Overlaid(c, off, src, at, k + lo, k + hi)
    decreases hi
  {
    if lo < hi { OverlaidShift(c, off, src, at, k, lo, hi - 1); }
  }

  /** The file as it is when `got` bytes of src[at..] are in its blocks from off on, and its size accounts for
      the first k of them. */
  function Stored(c: seq<nat>, off: nat, src: seq<nat>, at: nat, k: nat, got: nat): seq<nat>
    requires k <= got && at + got <= |src|
  {
    Overlaid(Written(c, off, src, at, k), off, src, at, k, got)
  }

  lemma StoredAt(c: seq<nat>, off: nat, src: seq<nat>, at: nat, k: nat, got: nat, pos: nat)
    requires off <= |c| && k <= got && at + got <= |src| && pos < Max(|c|, off + k)
    ensures |Stored(c, off, src, at, k, got)| == Max(|c|, off + k)
    ensures Stored(c, off, src, at, k, got)[pos] == if off <= pos < off + got then src[at + (pos - off)] else c[pos]
  {
    WrittenAt(c, off, src, at, k, pos);
    OverlaidAt(Written(c, off, src, at, k), off, src, at, k, got, pos);
  }

  /** Two writes in a row are one, also when the second one stops inside a block. */
  lemma StoredTwice(c: seq<nat>, off: nat, src: seq<nat>, at: nat, k: nat, r: nat, got: nat)
    requires r <= got && at + k + got <= |src|
    ensures Stored(Written(c, off, src, at, k), off + k, src, at + k, r, got) == Stored(c, off, src, at, k + r, k + got)
  {
    WrittenTwice(c, off, src, at, k, r);
    OverlaidShift(Written(c, off, src, at, k + r), off, src, at, k, r, got);
  }

  /** When all of it is accounted for, that is the specification of a write. */
  lemma StoredAll(c: seq<nat>, off: nat, src: seq<nat>, at: nat, k: nat)
    requires at + k <= |src|
    ensures Stored(c, off, src, at, k, k) == Written(c, off, src, at, k)
  {
  }

  lemma ResizedByte(d: Disk, i: nat, size: nat, j: nat, pos: nat)
    requires i < |d.ino|
    ensures ByteAt(Resized(d, i, size), j, pos) == ByteAt(d, j, pos)
  {
  }

  lemma WroteContentAt(d: Disk, d': Disk, i: nat, off: nat, src: seq<nat>, at: nat, k: nat, got: nat, j: nat, pos: nat)
    requires Wrote(d, d', i, off, src, at, got) && i < |d.ino| && j < |d.ino| && off <= d.ino[i].size && k <= got
    requires pos < if j == i then Max(d.ino[i].size, off + k) else d.ino[j].size
    ensures ByteAt(Resized(d', i, Max(d.ino[i].size, off + k)), j, pos) ==
            if j == i && off <= pos < off + got then src[at + (pos - off)] else ByteAt(d, j, pos)
  {
    assert WroteByte(d, d', i, off, src, at, got, j, pos);
    ResizedByte(d', i, Max(d.ino[i].size, off + k), j, pos);
  }

  lemma WroteContent(d: Disk, d': Disk, i: nat, off: nat, src: seq<nat>, at: nat, k: nat, got: nat, j: nat)
    requires Wrote(d, d', i, off, src, at, got) && i < |d.ino| && j < |d.ino| && off <= d.ino[i].size && k <= got
    ensures var r := Resized(d', i, Max(d.ino[i].size, off + k));
            Content(r, j) == if j == i then Stored(Content(d, i), off, src, at, k, got) else Content(d, j)
  {
    var r := Resized(d', i, Max(d.ino[i].size, off + k));
    assert SizeKept(d, d', j);
    var want := if j == i then Stored(Content(d, i), off, src, at, k, got) else Content(d, j);
    if j == i { WrittenLength(Content(d, i), off, src, at, k); }
    forall pos: nat | pos < |want| ensures Content(r, j)[pos] == want[pos] {
      WroteContentAt(d, d', i, off, src, at, k, got, j, pos);
      PrefixAt(r, j, |want|, pos);
      if j == i { StoredAt(Content(d, i), off, src, at, k, got, pos); }
      if pos < d.ino[j].size { PrefixAt(d, j, d.ino[j].size, pos); }
    }
  }
}

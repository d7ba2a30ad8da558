/**
  On-disk format of the redo log (kernel/log.c) and the meaning of a disk image:
  what the home blocks hold once recovery has run on it.
 */
module LogSpec {

  const BWORDS: nat := 256       // BSIZE / sizeof(int)
  const MAXOPBLOCKS: nat := 10
  const LOGSIZE: nat := 30       // MAXOPBLOCKS * 3

  /** A disk block, seen as 32-bit words. */
  datatype Block = Block(w: seq<nat>)
  type Disk = seq<Block>

  /** Where the log lives: log.start and log.size of the superblock. */
  datatype Geometry = Geometry(start: nat, size: nat)

  predicate InLog(g: Geometry, b: nat) {
    g.start <= b < g.start + g.size
  }

  predicate Fits(g: Geometry, d: Disk) {
    1 <= g.size && g.start + g.size <= |d|
  }

  predicate Distinct(s: seq<nat>) {
    forall i, j :: 0 <= i < j < |s| ==> s[i] != s[j]
  }

  /** The block numbers a header block lists: word 0 is n, words 1..n the list. */
  function Listed(hdr: Block): seq<nat> {
    if 0 < |hdr.w| && hdr.w[0] < |hdr.w| then hdr.w[1..1 + hdr.w[0]] else []
  }

  predicate HeaderShape(hdr: Block) {
    |hdr.w| == BWORDS && hdr.w[0] < BWORDS
  }

  /** A list of home blocks that the log has room for. */
  predicate Loggable(g: Geometry, limit: nat, s: seq<nat>) {
    && Distinct(s)
    && |s| <= LOGSIZE
    && |s| <= g.size - 1
    && forall i :: 0 <= i < |s| ==> s[i] < limit && !InLog(g, s[i])
  }

  predicate HeaderOk(g: Geometry, d: Disk) {
    && Fits(g, d)
    && HeaderShape(d[g.start])
    && Loggable(g, |d|, Listed(d[g.start]))
  }

  /** Position of b in s. */
  ghost function IndexOf(s: seq<nat>, b: nat): (i: nat)
    requires b in s
    ensures i < |s| && s[i] == b
  {
    var i: nat :| i < |s| && s[i] == b;
    i
  }

  /** What home block b holds after recovery. */
  ghost function RecoveredBlock(g: Geometry, d: Disk, b: nat): Block
    requires HeaderOk(g, d) && b < |d|
  {
    var s := Listed(d[g.start]);
    if b in s then d[g.start + 1 + IndexOf(s, b)] else d[b]
  }

  /** The home blocks: everything outside the log region. */
  function Home(g: Geometry, d: Disk): map<nat, Block> {
    map b: nat | b < |d| && !InLog(g, b) :: d[b]
  }

  /** The home blocks as recovery would leave them. */
  ghost function Recovered(g: Geometry, d: Disk): map<nat, Block>
    requires HeaderOk(g, d)
  {
    map b: nat | b < |d| && !InLog(g, b) :: RecoveredBlock(g, d, b)
  }

  /** The header block after write_head: n and the first n entries are set,
      the words beyond keep what the cached buffer held. */
  function HeaderUpdate(hdr: Block, s: seq<nat>): (h: Block)
    ensures |h.w| == |hdr.w|
    ensures |s| < |hdr.w| ==> h.w[0] == |s| && Listed(h) == s
  {
    if |s| < |hdr.w| then
      var w := [|s|] + s + hdr.w[1 + |s|..];
      assert w[1..1 + |s|] == s;
      Block(w)
    else hdr
  }

  /** With an empty header recovery changes nothing. */
  lemma EmptyHeaderRecoversHome(g: Geometry, d: Disk)
    requires HeaderOk(g, d) && Listed(d[g.start]) == []
    ensures Recovered(g, d) == Home(g, d)
  {}

  lemma InstalledBlock(g: Geometry, d: Disk, i: nat, c: nat)
    requires HeaderOk(g, d) && i < |Listed(d[g.start])|
    requires c < |d| && !InLog(g, c)
    ensures var b := Listed(d[g.start])[i];
            var d' := d[b := d[g.start + 1 + i]];
            HeaderOk(g, d') && RecoveredBlock(g, d', c) == RecoveredBlock(g, d, c)
  {
  }

  /** Copying one listed block from the log to its home leaves the recovered state alone. */
  lemma InstallKeepsRecovered(g: Geometry, d: Disk, i: nat)
    requires HeaderOk(g, d) && i < |Listed(d[g.start])|
    ensures var b := Listed(d[g.start])[i];
            var d' := d[b := d[g.start + 1 + i]];
            HeaderOk(g, d') && d'[g.start] == d[g.start] && Recovered(g, d') == Recovered(g, d)
  {
    forall c: nat | c < |d| && !InLog(g, c) { InstalledBlock(g, d, i, c); }
  }

  lemma RecoveredIs(g: Geometry, d: Disk, view: map<nat, Block>)
    requires HeaderOk(g, d)
    requires forall b: nat :: b in view <==> b < |d| && !InLog(g, b)
    requires forall b: nat :: b in view ==> RecoveredBlock(g, d, b) == view[b]
    ensures Recovered(g, d) == view
  {}

  ghost predicate IsHome(g: Geometry, d: Disk, i: nat)
    requires HeaderOk(g, d) && i < |Listed(d[g.start])|
  {
    d[Listed(d[g.start])[i]] == d[g.start + 1 + i]
  }

  /** Every listed block has been copied to its home. */
  ghost predicate AllHome(g: Geometry, d: Disk)
    requires HeaderOk(g, d)
  {
    forall i: nat {:trigger IsHome(g, d, i)} :: i < |Listed(d[g.start])| ==> IsHome(g, d, i)
  }

  lemma ErasedBlock(g: Geometry, d: Disk, b: nat)
    requires HeaderOk(g, d) && b < |d|
    requires AllHome(g, d)
    ensures RecoveredBlock(g, d, b) == d[b]
  {
    var s := Listed(d[g.start]);
    if b in s { assert IsHome(g, d, IndexOf(s, b)); }
  }

  /** Once every listed block is home, the header can be erased. */
  lemma EraseKeepsRecovered(g: Geometry, d: Disk, hdr: Block)
    requires HeaderOk(g, d) && HeaderShape(hdr) && Listed(hdr) == []
    requires AllHome(g, d)
    ensures var d' := d[g.start := hdr];
            HeaderOk(g, d') && Recovered(g, d') == Recovered(g, d) && Home(g, d') == Recovered(g, d)
  {
    var d' := d[g.start := hdr];
    forall b: nat | b < |d| { ErasedBlock(g, d, b); }
    RecoveredIs(g, d, Home(g, d));
    RecoveredIs(g, d', Home(g, d));
  }

  /** Writing inside the log region while the header is empty is invisible. */
  lemma LogFillKeepsRecovered(g: Geometry, d: Disk, t: nat, data: Block)
    requires HeaderOk(g, d) && Listed(d[g.start]) == []
    requires g.start < t < g.start + g.size
    ensures var d' := d[t := data];
            HeaderOk(g, d') && Listed(d'[g.start]) == [] && Recovered(g, d') == Recovered(g, d)
  {}

  ghost predicate OverlayAt(g: Geometry, d: Disk, s: seq<nat>, view: map<nat, Block>, b: nat)
    requires Fits(g, d) && |s| <= g.size - 1
  {
    b in view && b < |d| && view[b] == if b in s then d[g.start + 1 + IndexOf(s, b)] else d[b]
  }

  /** A view of the home blocks that agrees with the log copies on s and with the disk elsewhere. */
  ghost predicate Overlay(g: Geometry, d: Disk, s: seq<nat>, view: map<nat, Block>)
    requires Fits(g, d) && |s| <= g.size - 1
  {
    && (forall b: nat :: b in view <==> b < |d| && !InLog(g, b))
    && (forall b: nat {:trigger OverlayAt(g, d, s, view, b)} :: b < |d| && !InLog(g, b) ==> OverlayAt(g, d, s, view, b))
  }

  lemma HeaderSet(g: Geometry, d: Disk, hdr: Block)
    requires Fits(g, d) && HeaderShape(hdr) && Loggable(g, |d|, Listed(hdr))
    ensures HeaderOk(g, d[g.start := hdr])
  {}

  lemma HeaderWriteBlock(g: Geometry, d: Disk, hdr: Block, view: map<nat, Block>, c: nat)
    requires Fits(g, d) && HeaderShape(hdr) && Loggable(g, |d|, Listed(hdr))
    requires OverlayAt(g, d, Listed(hdr), view, c)
    requires !InLog(g, c) && HeaderOk(g, d[g.start := hdr])
    ensures RecoveredBlock(g, d[g.start := hdr], c) == view[c]
  {
  }

  /** The header write: the recovered state becomes the home blocks overlaid with the logged copies. */
  lemma HeaderWriteCommits(g: Geometry, d: Disk, hdr: Block, view: map<nat, Block>)
    requires Fits(g, d) && HeaderShape(hdr) && Loggable(g, |d|, Listed(hdr))
    requires Overlay(g, d, Listed(hdr), view)
    ensures var d' := d[g.start := hdr];
            HeaderOk(g, d') && Recovered(g, d') == view
  {
    var d' := d[g.start := hdr];
    HeaderSet(g, d, hdr);
    forall c: nat | c in view ensures RecoveredBlock(g, d', c) == view[c] {
      assert OverlayAt(g, d, Listed(hdr), view, c);
      HeaderWriteBlock(g, d, hdr, view, c);
    }
    RecoveredIs(g, d', view);
  }
}

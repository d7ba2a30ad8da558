/**
  Crash atomicity of the redo log over whole runs, residency of pinned buffers, and the exclusion
  of commits and operations.
  A clause `P(..) == true` says P(..) and keeps it one fact, which the verifier does not take apart.
 */
module LogCrash {
  import opened LogSpec
  import opened LogProtocol

  // ---------------------------------------------------------------- the specification

  /** What the file system layer may rely on: an in-memory image of the home blocks and the image a
      crash falls back to. `logged` are the blocks of the group that commits next, `loose` the blocks
      that were changed and are in no group. Nothing here mentions the log, the cache or the disk. */
  datatype Spec = Spec(durable: map<nat, Block>, volatile: map<nat, Block>, loose: set<nat>, logged: set<nat>)

  /** A commit makes everything durable but the loose changes. */
  function Settled(sp: Spec): map<nat, Block> {
    map b | b in sp.volatile :: if b in sp.loose && b in sp.durable then sp.durable[b] else sp.volatile[b]
  }

  function SpecStep(sp: Spec, st: Step): Spec {
    match st
    case Modify(t, b, data) =>
      sp.(volatile := sp.volatile[b := data], loose := if b in sp.logged then sp.loose else sp.loose + {b})
    case LogWrite(t, b) => sp.(loose := sp.loose - {b}, logged := sp.logged + {b})
    case Evict(b) =>
      if b in sp.loose && b in sp.durable
      then sp.(volatile := sp.volatile[b := sp.durable[b]], loose := sp.loose - {b})
      else sp
    case WriteHeader => sp.(durable := Settled(sp), logged := {})
    case Crash(_) => Spec(sp.durable, sp.durable, {}, {})
    case _ => sp
  }

  function SpecRun(home: map<nat, Block>, steps: seq<Step>): Spec {
    if steps == [] then Spec(home, home, {}, {})
    else SpecStep(SpecRun(home, steps[..|steps| - 1]), steps[|steps| - 1])
  }

  /** A run from a freshly made file system. */
  ghost predicate Init(g: Geometry, s: State) {
    && HeaderOk(g, s.disk) && Listed(s.disk[g.start]) == []
    && s == State(s.disk, map[], [], 0, false, map[], s.worker, BootRead, false)
  }

  ghost predicate IsRun(g: Geometry, ss: seq<State>, steps: seq<Step>) {
    && |ss| == |steps| + 1
    && Init(g, ss[0])
    && forall i :: 0 <= i < |steps| ==>
         Fits(g, ss[i].disk) && Enabled(g, ss[i], steps[i]) && ss[i + 1] == Apply(g, ss[i], steps[i])
  }

  /** The contents a thread that calls bread(b) ends up with. */
  function View(s: State, b: nat): Block
    requires b < |s.disk|
  {
    if b in s.cache && s.cache[b].valid then s.cache[b].data else s.disk[b]
  }

  ghost function Image(g: Geometry, s: State): map<nat, Block> {
    map b: nat | b < |s.disk| && !InLog(g, b) :: View(s, b)
  }

  ghost function DirtyBlocks(s: State): set<nat> {
    set b | b in s.cache && s.cache[b].dirty
  }

  /** The blocks listed for the next commit. */
  function Group(s: State): set<nat> {
    if s.pc.Idle? || s.pc.CommitStart? || s.pc.CopyLog? then set b | b in s.lh else {}
  }

  ghost predicate SetsAgree(s: State, sp: Spec) {
    s.panicked || (sp.loose == DirtyBlocks(s) && sp.logged == Group(s))
  }

  ghost predicate ImagesAgree(g: Geometry, s: State, sp: Spec) {
    && HeaderOk(g, s.disk)
    && sp.durable == Recovered(g, s.disk)
    && sp.volatile == (if Booting(s) then sp.durable else Image(g, s))
  }

  ghost predicate Agrees(g: Geometry, s: State, sp: Spec) {
    ImagesAgree(g, s, sp) && SetsAgree(s, sp)
  }

  // ---------------------------------------------------------------- preservation, step by step

  /** s' differs from s, in the cache and on the disk, at most at block b. */
  ghost predicate OnlyAt(s: State, s': State, b: nat) {
    && |s'.disk| == |s.disk|
    && (forall c: nat :: c < |s.disk| && c != b ==> s'.disk[c] == s.disk[c])
    && (forall c :: c != b ==> (c in s'.cache <==> c in s.cache))
    && (forall c :: c != b && c in s.cache ==> s'.cache[c] == s.cache[c])
  }

  /** A pinned slot of s for another block than b is the same pinned slot in s'. */
  ghost predicate SlotsAgree(s: State, s': State, b: nat) {
    forall i: nat :: i < |s.lh| && s.lh[i] != b && PinStart(s) <= i ==>
      PinStart(s') <= i < |s'.lh| && s'.lh[i] == s.lh[i]
  }

  lemma LocalChange(g: Geometry, s: State, s': State, b: nat)
    requires CacheInv(g, s) && PinInv(s)
    requires OnlyAt(s, s', b) && SlotsAgree(s, s', b) && SlotsAgree(s', s, b)
    requires Booting(s') ==> Booting(s)
    requires forall i: nat :: i < |s'.lh| && s'.lh[i] != b ==> s'.lh[i] in s.lh
    requires b in s'.cache ==> BufOk(g, s', b)
    requires forall i: nat :: i < |s'.lh| && s'.lh[i] == b && PinStart(s') <= i ==> SlotPinned(s', i)
    ensures CacheInv(g, s') && PinInv(s')
  {
    forall c | c in s'.cache ensures BufOk(g, s', c) {
      if c != b { assert BufOk(g, s, c); }
    }
    forall i: nat | PinStart(s') <= i < |s'.lh| ensures SlotPinned(s', i) {
      if s'.lh[i] != b { assert SlotPinned(s, i); }
    }
  }

  predicate CacheStep(st: Step) {
    st.Get? || st.Lock? || st.Fill? || st.Unlock? || st.Unref?
  }

  /** Replacing one buffer keeps the invariant if the new one is fine and pinned contents stay. */
  lemma BufferChange(g: Geometry, s: State, b: nat, f: Buf)
    requires Inv(g, s)
    requires BufOk(g, SetBuf(s, b, f), b)
    requires if b in s.cache then f.pin == s.cache[b].pin && (f.pin.Some? ==> f.data == s.cache[b].data)
             else f.pin.None?
    ensures Inv(g, SetBuf(s, b, f))
  {
    var s' := SetBuf(s, b, f);
    forall i: nat | i < |s.lh| && PinStart(s) <= i
      ensures SlotPinned(s', i) && (g.start + 1 + i < |s.disk| && SlotCopied(g, s, i) ==> SlotCopied(g, s', i))
    {
      assert SlotPinned(s, i);
    }
    LocalChange(g, s, s', b);
  }

  lemma CacheStepKeeps(g: Geometry, s: State, st: Step)
    requires Inv(g, s) && Enabled(g, s, st) && CacheStep(st)
    ensures Inv(g, Apply(g, s, st))
  {
    assert st.b in s.cache ==> BufOk(g, s, st.b);
    BufferChange(g, s, st.b, Apply(g, s, st).cache[st.b]);
  }

  lemma EvictKeeps(g: Geometry, s: State, b: nat)
    requires Inv(g, s) && Enabled(g, s, Evict(b))
    ensures Inv(g, Apply(g, s, Evict(b)))
  {
    var s' := Apply(g, s, Evict(b));
    assert BufOk(g, s, b);
    forall i: nat | i < |s.lh| && PinStart(s) <= i
      ensures s.lh[i] != b && (g.start + 1 + i < |s.disk| && SlotCopied(g, s, i) ==> SlotCopied(g, s', i))
    {
      assert SlotPinned(s, i);
    }
    LocalChange(g, s, s', b);
  }

  lemma OpStepKeeps(g: Geometry, s: State, st: Step)
    requires Inv(g, s) && Enabled(g, s, st) && (st.BeginOp? || st.EndOp?)
    ensures Inv(g, Apply(g, s, st))
  {
    var s' := Apply(g, s, st);
    forall c | c in s'.cache ensures BufOk(g, s', c) { assert BufOk(g, s, c); }
    forall i: nat | PinStart(s') <= i < |s'.lh| ensures SlotPinned(s', i) { assert SlotPinned(s, i); }
  }

  lemma ModifyKeeps(g: Geometry, s: State, t: Tid, b: nat, data: Block)
    requires Inv(g, s) && Enabled(g, s, Modify(t, b, data))
    ensures Inv(g, Apply(g, s, Modify(t, b, data)))
  {
    var s' := Apply(g, s, Modify(t, b, data));
    assert BufOk(g, s, b);
    forall i: nat | i < |s.lh| ensures SlotPinned(s', i) && (s'.cache[b].dirty ==> s.lh[i] != b) {
      assert SlotPinned(s, i);
    }
    LocalChange(g, s, s', b);
  }

  lemma AppendKeeps(g: Geometry, s: State, t: Tid, b: nat)
    requires Inv(g, s) && Enabled(g, s, LogWrite(t, b))
    requires !LogFull(g, s) && s.outstanding >= 1 && b !in s.lh
    ensures Inv(g, DoLogWrite(g, s, t, b))
  {
    var s' := DoLogWrite(g, s, t, b);
    assert BufOk(g, s, b);
    assert SlotPinned(s', |s.lh|);
    LocalChange(g, s, s', b);
  }

  lemma LogWriteKeeps(g: Geometry, s: State, t: Tid, b: nat)
    requires Inv(g, s) && Enabled(g, s, LogWrite(t, b))
    ensures Inv(g, Apply(g, s, LogWrite(t, b)))
  {
    var s' := Apply(g, s, LogWrite(t, b));
    assert BufOk(g, s, b);
    if LogFull(g, s) || s.outstanding < 1 {
      forall c | c in s'.cache ensures BufOk(g, s', c) { assert BufOk(g, s, c); }
      forall i: nat | PinStart(s') <= i < |s'.lh| ensures SlotPinned(s', i) { assert SlotPinned(s, i); }
    } else if b in s.lh {
      assert SlotPinned(s, IndexOf(s.lh, b));
      BufferChange(g, s, b, s.cache[b].(dirty := false));
    } else {
      AppendKeeps(g, s, t, b);
    }
  }

  lemma ControlStepKeeps(g: Geometry, s: State, st: Step)
    requires Inv(g, s) && Enabled(g, s, st) && (st.CommitCheck? || st.CommitEnd? || st.Crash? || st.ReadHeader?)
    ensures Inv(g, Apply(g, s, st))
  {
    var s' := Apply(g, s, st);
    assert st.ReadHeader? ==> BufOk(g, s, g.start);
    forall c | c in s'.cache ensures BufOk(g, s', c) { assert BufOk(g, s, c); }
    forall i: nat | PinStart(s') <= i < |s'.lh| ensures SlotPinned(s', i) { assert SlotPinned(s, i); }
  }

  lemma CopyKeepsCache(g: Geometry, s: State)
    requires Inv(g, s) && Enabled(g, s, CopyToLog)
    ensures CacheInv(g, Apply(g, s, CopyToLog)) && PinInv(Apply(g, s, CopyToLog))
  {
    var to := g.start + 1 + s.pc.tail;
    assert BufOk(g, s, to);
    LocalChange(g, s, Apply(g, s, CopyToLog), to);
  }

  lemma CopyToLogKeeps(g: Geometry, s: State)
    requires Inv(g, s) && Enabled(g, s, CopyToLog)
    ensures Inv(g, Apply(g, s, CopyToLog))
  {
    var to := g.start + 1 + s.pc.tail;
    var s' := Apply(g, s, CopyToLog);
    CopyKeepsCache(g, s);
    LogFillKeepsRecovered(g, s.disk, to, s'.disk[to]);
    forall i: nat | i < s.pc.tail + 1 ensures SlotCopied(g, s', i) {
      if i < s.pc.tail { assert SlotCopied(g, s, i); }
    }
  }

  lemma WriteHeaderKeepsCache(g: Geometry, s: State)
    requires Inv(g, s) && Enabled(g, s, WriteHeader)
    ensures CacheInv(g, Apply(g, s, WriteHeader)) && PinInv(Apply(g, s, WriteHeader))
  {
    assert BufOk(g, s, g.start);
    LocalChange(g, s, Apply(g, s, WriteHeader), g.start);
  }

  lemma WriteHeaderKeeps(g: Geometry, s: State)
    requires Inv(g, s) && Enabled(g, s, WriteHeader)
    ensures Inv(g, Apply(g, s, WriteHeader))
  {
    var s' := Apply(g, s, WriteHeader);
    assert BufOk(g, s, g.start);
    WriteHeaderKeepsCache(g, s);
    forall i: nat | i < |s.lh| ensures SlotCopied(g, s', i) { assert SlotCopied(g, s, i); }
  }

  /** After block k has been copied home, the first k + 1 are. */
  lemma InstallOneMore(g: Geometry, d: Disk, lh: seq<nat>, k: nat)
    requires Fits(g, d) && Loggable(g, |d|, lh) && k < |lh| && Installed(g, d, lh, k)
    ensures Installed(g, d[lh[k] := d[g.start + 1 + k]], lh, k + 1)
  {
    var d' := d[lh[k] := d[g.start + 1 + k]];
    forall i: nat | i < k + 1 ensures AtHome(g, d', lh, i) {
      if i < k { assert AtHome(g, d, lh, i); }
    }
  }

  lemma InstallKeepsLog(g: Geometry, s: State, st: Step)
    requires Inv(g, s) && Enabled(g, s, st) && (st.InstallBlock? || st.ReplayBlock?)
    ensures LogInv(g, Apply(g, s, st))
    ensures Recovered(g, Apply(g, s, st).disk) == Recovered(g, s.disk)
  {
    var k := s.pc.tail;
    var s' := Apply(g, s, st);
    assert BufOk(g, s, g.start + 1 + k);
    assert s'.disk == s.disk[s.lh[k] := s.disk[g.start + 1 + k]];
    InstallKeepsRecovered(g, s.disk, k);
    InstallOneMore(g, s.disk, s.lh, k);
    if st.InstallBlock? {
      forall i: nat | k + 1 <= i < |s.lh| ensures SlotCopied(g, s', i) { assert SlotCopied(g, s, i); }
    }
  }

  lemma InstallKeepsCache(g: Geometry, s: State)
    requires Inv(g, s) && Enabled(g, s, InstallBlock)
    ensures CacheInv(g, Apply(g, s, InstallBlock)) && PinInv(Apply(g, s, InstallBlock))
  {
    var k := s.pc.tail;
    var s' := Apply(g, s, InstallBlock);
    assert SlotPinned(s, k) && BufOk(g, s, s.lh[k]);
    assert SlotsAgree(s, s', s.lh[k]) && SlotsAgree(s', s, s.lh[k]);
    LocalChange(g, s, s', s.lh[k]);
  }

  lemma InstallKeeps(g: Geometry, s: State)
    requires Inv(g, s) && Enabled(g, s, InstallBlock)
    ensures Inv(g, Apply(g, s, InstallBlock))
  {
    InstallKeepsLog(g, s, InstallBlock);
    InstallKeepsCache(g, s);
  }

  lemma ReplayKeeps(g: Geometry, s: State)
    requires Inv(g, s) && Enabled(g, s, ReplayBlock)
    ensures Inv(g, Apply(g, s, ReplayBlock))
  {
    var s' := Apply(g, s, ReplayBlock);
    InstallKeepsLog(g, s, ReplayBlock);
    assert CacheInv(g, s') && PinInv(s') by {
      assert BufOk(g, s, s.lh[s.pc.tail]);
      LocalChange(g, s, s', s.lh[s.pc.tail]);
    }
  }

  lemma EraseKeeps(g: Geometry, s: State, st: Step)
    requires Inv(g, s) && Enabled(g, s, st) && (st.EraseHeader? || st.FinishRecovery?)
    ensures Inv(g, Apply(g, s, st))
  {
    assert BufOk(g, s, g.start);
    LocalChange(g, s, Apply(g, s, st), g.start);
  }

  lemma Keeps(g: Geometry, s: State, st: Step)
    requires Inv(g, s) && Enabled(g, s, st)
    ensures Inv(g, Apply(g, s, st)) == true
  {
    if CacheStep(st) {
      CacheStepKeeps(g, s, st);
    } else if st.CommitCheck? || st.CommitEnd? || st.Crash? || st.ReadHeader? {
      ControlStepKeeps(g, s, st);
    } else if st.BeginOp? || st.EndOp? {
      OpStepKeeps(g, s, st);
    } else if st.EraseHeader? || st.FinishRecovery? {
      EraseKeeps(g, s, st);
    } else {
      match st
      case Evict(b) => EvictKeeps(g, s, b);
      case Modify(t, b, data) => ModifyKeeps(g, s, t, b, data);
      case LogWrite(t, b) => LogWriteKeeps(g, s, t, b);
      case CopyToLog => CopyToLogKeeps(g, s);
      case WriteHeader => WriteHeaderKeeps(g, s);
      case InstallBlock => InstallKeeps(g, s);
      case ReplayBlock => ReplayKeeps(g, s);
    }
  }

  // ---------------------------------------------------------------- refinement of the specification

  /** A block that is neither pinned nor changed reads as the disk has it. */
  lemma UnpinnedView(g: Geometry, s: State, b: nat)
    requires CacheInv(g, s) && b < |s.disk|
    requires b in s.cache ==> s.cache[b].pin.None? && !s.cache[b].dirty
    ensures View(s, b) == s.disk[b]
  {
    if b in s.cache { assert BufOk(g, s, b); }
  }

  /** A pinned block reads as its own buffer; write_log never goes back to the disk for it. */
  lemma PinnedView(g: Geometry, s: State, i: nat)
    requires CacheInv(g, s) && PinInv(s) && PinStart(s) <= i < |s.lh| && s.lh[i] < |s.disk|
    ensures s.lh[i] in s.cache && s.cache[s.lh[i]].valid && View(s, s.lh[i]) == s.cache[s.lh[i]].data
  {
    assert SlotPinned(s, i) && BufOk(g, s, s.lh[i]);
  }

  lemma ImageChange(g: Geometry, s: State, s': State, b: nat)
    requires OnlyAt(s, s', b)
    ensures b < |s.disk| && !InLog(g, b) ==> Image(g, s') == Image(g, s)[b := View(s', b)]
    ensures b >= |s.disk| || InLog(g, b) || View(s', b) == View(s, b) ==> Image(g, s') == Image(g, s)
  {}

  // The sets of loose and of logged blocks.

  lemma CacheSets(g: Geometry, s: State, st: Step, sp: Spec)
    requires Inv(g, s) && Enabled(g, s, st) && CacheStep(st) && SetsAgree(s, sp)
    ensures SetsAgree(Apply(g, s, st), SpecStep(sp, st))
  {
    assert st.b in s.cache ==> BufOk(g, s, st.b);
    assert DirtyBlocks(Apply(g, s, st)) == DirtyBlocks(s);
  }

  lemma EvictSets(g: Geometry, s: State, b: nat, sp: Spec)
    requires Inv(g, s) && Enabled(g, s, Evict(b)) && SetsAgree(s, sp) && sp.durable == Recovered(g, s.disk)
    ensures SetsAgree(Apply(g, s, Evict(b)), SpecStep(sp, Evict(b)))
  {
    assert BufOk(g, s, b);
    assert DirtyBlocks(Apply(g, s, Evict(b))) == DirtyBlocks(s) - {b};
  }

  lemma ModifySets(g: Geometry, s: State, st: Step, sp: Spec)
    requires Inv(g, s) && Enabled(g, s, st) && st.Modify? && SetsAgree(s, sp)
    ensures SetsAgree(Apply(g, s, st), SpecStep(sp, st))
  {
    var b := st.b;
    assert BufOk(g, s, b);
    if b in s.lh { assert SlotPinned(s, IndexOf(s.lh, b)); }
    assert DirtyBlocks(Apply(g, s, st)) == if b in s.lh then DirtyBlocks(s) else DirtyBlocks(s) + {b};
  }

  lemma LogWriteSets(g: Geometry, s: State, st: Step, sp: Spec)
    requires Inv(g, s) && Enabled(g, s, st) && st.LogWrite? && SetsAgree(s, sp)
    ensures SetsAgree(Apply(g, s, st), SpecStep(sp, st))
  {
    var s', b := Apply(g, s, st), st.b;
    if !s'.panicked {
      assert DirtyBlocks(s') == DirtyBlocks(s) - {b};
      assert Group(s') == Group(s) + {b};
    }
  }

  /** The log writes blocks through the cache. */
  predicate WritesDisk(st: Step) {
    st.CopyToLog? || st.WriteHeader? || st.InstallBlock? || st.EraseHeader? || st.ReplayBlock? || st.FinishRecovery?
  }

  lemma DiskSets(g: Geometry, s: State, st: Step, sp: Spec)
    requires Inv(g, s) && Enabled(g, s, st) && WritesDisk(st) && SetsAgree(s, sp)
    ensures SetsAgree(Apply(g, s, st), SpecStep(sp, st))
  {
    var s' := Apply(g, s, st);
    if st.InstallBlock? { assert SlotPinned(s, s.pc.tail) && BufOk(g, s, s.lh[s.pc.tail]); }
    assert DirtyBlocks(s') == DirtyBlocks(s);
    assert Group(s') == if st.WriteHeader? then {} else Group(s);
  }

  lemma ControlSets(g: Geometry, s: State, st: Step, sp: Spec)
    requires Inv(g, s) && Enabled(g, s, st) && SetsAgree(s, sp)
    requires st.BeginOp? || st.EndOp? || st.CommitCheck? || st.CommitEnd? || st.Crash? || st.ReadHeader?
    ensures SetsAgree(Apply(g, s, st), SpecStep(sp, st))
  {
    var s' := Apply(g, s, st);
    assert DirtyBlocks(s') == if st.Crash? then {} else DirtyBlocks(s);
    if !s'.panicked { assert Group(s') == if st.Crash? then {} else Group(s); }
  }

  lemma StepSets(g: Geometry, s: State, st: Step, sp: Spec)
    requires Inv(g, s) && Enabled(g, s, st) && Agrees(g, s, sp)
    ensures SetsAgree(Apply(g, s, st), SpecStep(sp, st)) == true
  {
    if CacheStep(st) {
      CacheSets(g, s, st, sp);
    } else if st.Evict? {
      EvictSets(g, s, st.b, sp);
    } else if st.Modify? {
      ModifySets(g, s, st, sp);
    } else if st.LogWrite? {
      LogWriteSets(g, s, st, sp);
    } else if WritesDisk(st) {
      DiskSets(g, s, st, sp);
    } else {
      ControlSets(g, s, st, sp);
    }
  }

  // The images.

  predicate QuietStep(st: Step) {
    CacheStep(st) || st.BeginOp? || st.LogWrite? || st.EndOp? || st.CommitCheck? || st.CommitEnd?
  }

  lemma QuietView(g: Geometry, s: State, st: Step, b: nat)
    requires CacheInv(g, s) && Fits(g, s.disk) && Enabled(g, s, st) && QuietStep(st) && b < |s.disk|
    ensures Apply(g, s, st).disk == s.disk && View(Apply(g, s, st), b) == View(s, b)
  {
    assert b in s.cache ==> BufOk(g, s, b);
  }

  lemma QuietImage(g: Geometry, s: State, st: Step)
    requires CacheInv(g, s) && Fits(g, s.disk) && Enabled(g, s, st) && QuietStep(st)
    ensures Apply(g, s, st).disk == s.disk && Image(g, Apply(g, s, st)) == Image(g, s)
  {
    forall b: nat | b < |s.disk| { QuietView(g, s, st, b); }
  }

  lemma QuietAgrees(g: Geometry, s: State, st: Step, sp: Spec)
    requires Inv(g, s) && Enabled(g, s, st) && QuietStep(st) && ImagesAgree(g, s, sp)
    ensures ImagesAgree(g, Apply(g, s, st), SpecStep(sp, st))
  {
    QuietImage(g, s, st);
    assert Booting(Apply(g, s, st)) == Booting(s);
    assert SpecStep(sp, st).durable == sp.durable && SpecStep(sp, st).volatile == sp.volatile;
  }

  /** A block that is evicted with a loose change falls back to what is durable. */
  lemma EvictAgrees(g: Geometry, s: State, b: nat, sp: Spec)
    requires Inv(g, s) && Enabled(g, s, Evict(b)) && Agrees(g, s, sp)
    ensures ImagesAgree(g, Apply(g, s, Evict(b)), SpecStep(sp, Evict(b)))
  {
    var s' := Apply(g, s, Evict(b));
    assert BufOk(g, s, b);
    ImageChange(g, s, s', b);
    assert b in sp.loose <==> s.cache[b].dirty;
  }

  lemma CopyAgrees(g: Geometry, s: State, sp: Spec)
    requires Inv(g, s) && Enabled(g, s, CopyToLog) && ImagesAgree(g, s, sp)
    ensures ImagesAgree(g, Apply(g, s, CopyToLog), sp)
  {
    var to := g.start + 1 + s.pc.tail;
    var s' := Apply(g, s, CopyToLog);
    LogFillKeepsRecovered(g, s.disk, to, s'.disk[to]);
    ImageChange(g, s, s', to);
  }

  /** When write_log is done, the log copies and the disk together make up the in-memory image, loose
      changes apart. */
  lemma CopiedOverlay(g: Geometry, s: State, sp: Spec)
    requires Inv(g, s) && s.pc == CopyLog(|s.lh|) && !s.panicked && Agrees(g, s, sp)
    ensures Overlay(g, s.disk, s.lh, Settled(sp))
  {
    var view := Settled(sp);
    forall b: nat | b < |s.disk| && !InLog(g, b) ensures OverlayAt(g, s.disk, s.lh, view, b) {
      assert b in s.cache ==> BufOk(g, s, b);
      if b in s.lh {
        var i := IndexOf(s.lh, b);
        PinnedView(g, s, i);
        assert SlotCopied(g, s, i);
      } else if b !in sp.loose {
        UnpinnedView(g, s, b);
      }
    }
  }

  lemma HeaderAgrees(g: Geometry, s: State, sp: Spec)
    requires Inv(g, s) && Enabled(g, s, WriteHeader) && Agrees(g, s, sp)
    ensures ImagesAgree(g, Apply(g, s, WriteHeader), SpecStep(sp, WriteHeader))
  {
    var s' := Apply(g, s, WriteHeader);
    assert BufOk(g, s, g.start);
    CopiedOverlay(g, s, sp);
    HeaderWriteCommits(g, s.disk, s'.disk[g.start], Settled(sp));
    ImageChange(g, s, s', g.start);
  }

  /** install_trans rewrites each home block with what readers already see. */
  lemma InstallImage(g: Geometry, s: State)
    requires Inv(g, s) && Enabled(g, s, InstallBlock)
    ensures Image(g, Apply(g, s, InstallBlock)) == Image(g, s)
  {
    var k := s.pc.tail;
    var s' := Apply(g, s, InstallBlock);
    assert View(s', s.lh[k]) == View(s, s.lh[k]) by {
      PinnedView(g, s, k);
      assert SlotCopied(g, s, k) && BufOk(g, s, g.start + 1 + k);
    }
    ImageChange(g, s, s', s.lh[k]);
  }

  lemma InstallAgrees(g: Geometry, s: State, st: Step, sp: Spec)
    requires Inv(g, s) && Enabled(g, s, st) && (st.InstallBlock? || st.ReplayBlock?) && ImagesAgree(g, s, sp)
    ensures ImagesAgree(g, Apply(g, s, st), sp)
  {
    InstallKeepsLog(g, s, st);
    if st.InstallBlock? { InstallImage(g, s); }
  }

  /** After recovery readers see the disk. */
  lemma EraseImage(g: Geometry, s: State, st: Step)
    requires Inv(g, s) && Enabled(g, s, st) && st.FinishRecovery?
    ensures Image(g, Apply(g, s, st)) == Home(g, Apply(g, s, st).disk)
  {
    var s' := Apply(g, s, st);
    EraseKeeps(g, s, st);
    forall b: nat | b < |s'.disk| ensures View(s', b) == s'.disk[b] {
      assert b in s'.cache ==> BufOk(g, s', b) && BufOk(g, s, b);
      UnpinnedView(g, s', b);
    }
  }

  lemma EraseRecovers(g: Geometry, s: State, st: Step)
    requires Inv(g, s) && Enabled(g, s, st) && (st.EraseHeader? || st.FinishRecovery?)
    ensures var d := Apply(g, s, st).disk;
            HeaderOk(g, d) && Recovered(g, d) == Recovered(g, s.disk) == Home(g, d)
  {
    var s' := Apply(g, s, st);
    assert BufOk(g, s, g.start);
    forall i: nat | i < |s.lh| ensures IsHome(g, s.disk, i) { assert AtHome(g, s.disk, s.lh, i); }
    EraseKeepsRecovered(g, s.disk, s'.disk[g.start]);
  }

  lemma EraseAgrees(g: Geometry, s: State, st: Step, sp: Spec)
    requires Inv(g, s) && Enabled(g, s, st) && (st.EraseHeader? || st.FinishRecovery?) && ImagesAgree(g, s, sp)
    ensures ImagesAgree(g, Apply(g, s, st), sp)
  {
    EraseRecovers(g, s, st);
    if st.EraseHeader? { ImageChange(g, s, Apply(g, s, st), g.start); } else { EraseImage(g, s, st); }
  }

  lemma ModifyAgrees(g: Geometry, s: State, st: Step, sp: Spec)
    requires Inv(g, s) && Enabled(g, s, st) && st.Modify? && ImagesAgree(g, s, sp)
    ensures ImagesAgree(g, Apply(g, s, st), SpecStep(sp, st))
  {
    assert BufOk(g, s, st.b);
    ImageChange(g, s, Apply(g, s, st), st.b);
  }

  lemma BootAgrees(g: Geometry, s: State, st: Step, sp: Spec)
    requires Inv(g, s) && Enabled(g, s, st) && (st.Crash? || st.ReadHeader?) && ImagesAgree(g, s, sp)
    ensures ImagesAgree(g, Apply(g, s, st), SpecStep(sp, st))
  {
  }

  lemma StepImages(g: Geometry, s: State, st: Step, sp: Spec)
    requires Inv(g, s) && Enabled(g, s, st) && Agrees(g, s, sp)
    ensures ImagesAgree(g, Apply(g, s, st), SpecStep(sp, st)) == true
  {
    if QuietStep(st) {
      QuietAgrees(g, s, st, sp);
    } else if st.Evict? {
      EvictAgrees(g, s, st.b, sp);
    } else if st.Modify? {
      ModifyAgrees(g, s, st, sp);
    } else if st.CopyToLog? {
      CopyAgrees(g, s, sp);
    } else if st.WriteHeader? {
      HeaderAgrees(g, s, sp);
    } else if st.InstallBlock? || st.ReplayBlock? {
      InstallAgrees(g, s, st, sp);
    } else if st.EraseHeader? || st.FinishRecovery? {
      EraseAgrees(g, s, st, sp);
    } else {
      BootAgrees(g, s, st, sp);
    }
  }

  /** One step of the kernel is one step of the specification. */
  lemma StepRefines(g: Geometry, s: State, st: Step, sp: Spec)
    requires Inv(g, s) && Enabled(g, s, st) && Agrees(g, s, sp)
    ensures Agrees(g, Apply(g, s, st), SpecStep(sp, st))
  {
    StepImages(g, s, st, sp);
    StepSets(g, s, st, sp);
  }

  // ---------------------------------------------------------------- whole runs

  lemma InitHolds(g: Geometry, s: State)
    requires Init(g, s)
    ensures Inv(g, s) && Agrees(g, s, SpecRun(Home(g, s.disk), []))
  {
  }

  lemma {:induction false} RunHolds(g: Geometry, ss: seq<State>, steps: seq<Step>, i: nat)
    requires IsRun(g, ss, steps) && i <= |steps|
    ensures Inv(g, ss[i]) && Agrees(g, ss[i], SpecRun(Home(g, ss[0].disk), steps[..i]))
  {
    if i == 0 {
      InitHolds(g, ss[0]);
    } else {
      RunHolds(g, ss, steps, i - 1);
      var st := steps[i - 1];
      assert ss[i - 1 + 1] == Apply(g, ss[i - 1], st);
      assert steps[..i][..i - 1] == steps[..i - 1];
      Keeps(g, ss[i - 1], st);
      StepRefines(g, ss[i - 1], st, SpecRun(Home(g, ss[0].disk), steps[..i - 1]));
    }
  }

  lemma RecoveryFinishes(g: Geometry, s: State, sp: Spec)
    requires Inv(g, s) && Enabled(g, s, FinishRecovery) && Agrees(g, s, sp)
    ensures var s' := Apply(g, s, FinishRecovery);
            Fits(g, s'.disk) && Home(g, s'.disk) == sp.durable && Listed(s'.disk[g.start]) == []
  {
    EraseKeeps(g, s, FinishRecovery);
    EraseAgrees(g, s, FinishRecovery, sp);
    EmptyHeaderRecoversHome(g, Apply(g, s, FinishRecovery).disk);
  }

  lemma AgreedImages(g: Geometry, s: State, sp: Spec)
    requires Agrees(g, s, sp)
    ensures HeaderOk(g, s.disk) && Recovered(g, s.disk) == sp.durable && (!Booting(s) ==> Image(g, s) == sp.volatile)
  {
  }

  lemma CommitsAlone(g: Geometry, s: State)
    requires CtlInv(s) && Fits(g, s.disk) && Enabled(g, s, WriteHeader)
    ensures s.ops == map[]
  {
  }

  /** Crash atomicity. At every point of every run, with crashes anywhere and repeatedly, the disk recovers
      to exactly the specification's durable image: a header write adds to it all changes but the loose
      ones. Readers see the volatile image: all changes since the last crash but loose ones that were
      evicted. Header writes happen only with no operation active. */
  lemma CrashAtomicity(g: Geometry, ss: seq<State>, steps: seq<Step>, i: nat)
    requires IsRun(g, ss, steps) && i <= |steps|
    ensures HeaderOk(g, ss[i].disk)
    ensures var sp := SpecRun(Home(g, ss[0].disk), steps[..i]);
            && Recovered(g, ss[i].disk) == sp.durable
            && (!Booting(ss[i]) ==> Image(g, ss[i]) == sp.volatile)
    ensures i < |steps| && steps[i].WriteHeader? ==> ss[i].ops == map[]
  {
    RunHolds(g, ss, steps, i);
    AgreedImages(g, ss[i], SpecRun(Home(g, ss[0].disk), steps[..i]));
    if i < |steps| && steps[i].WriteHeader? { CommitsAlone(g, ss[i]); }
  }

  /** When recovery returns, the home blocks on the disk are that image and the log is empty. */
  lemma RecoveryInstalls(g: Geometry, ss: seq<State>, steps: seq<Step>, i: nat)
    requires IsRun(g, ss, steps) && i < |steps| && steps[i].FinishRecovery?
    ensures Home(g, ss[i + 1].disk) == SpecRun(Home(g, ss[0].disk), steps[..i]).durable
    ensures Fits(g, ss[i + 1].disk) && Listed(ss[i + 1].disk[g.start]) == []
  {
    RunHolds(g, ss, steps, i);
    assert ss[i + 1] == Apply(g, ss[i], steps[i]);
    RecoveryFinishes(g, ss[i], SpecRun(Home(g, ss[0].disk), steps[..i]));
  }

  /** From the log_write that appends a block until install_trans unpins it, the block stays cached,
      valid and referenced, and each log copy holds what readers see; with no block logged every
      reference belongs to a thread. */
  lemma PinnedResident(g: Geometry, ss: seq<State>, steps: seq<Step>, i: nat)
    requires IsRun(g, ss, steps) && i <= |steps|
    ensures forall k: nat :: PinStart(ss[i]) <= k < |ss[i].lh| ==>
              var b := ss[i].lh[k];
              b in ss[i].cache && ss[i].cache[b].valid && ss[i].cache[b].refcnt >= 1
    ensures i < |steps| && steps[i].CopyToLog? ==>
              var k := ss[i].pc.tail;
              && ss[i].lh[k] < |ss[i].disk| && g.start + 1 + k < |ss[i + 1].disk|
              && ss[i + 1].disk[g.start + 1 + k] == View(ss[i], ss[i].lh[k])
    ensures ss[i].lh == [] ==>
              forall b :: b in ss[i].cache ==> ss[i].cache[b].refcnt == |ss[i].cache[b].users|
  {
    RunHolds(g, ss, steps, i);
    var s := ss[i];
    forall k: nat | PinStart(s) <= k < |s.lh|
      ensures s.lh[k] in s.cache && s.cache[s.lh[k]].valid && s.cache[s.lh[k]].refcnt >= 1
    {
      assert SlotPinned(s, k) && BufOk(g, s, s.lh[k]);
    }
    forall b | b in s.cache && s.lh == [] ensures s.cache[b].refcnt == |s.cache[b].users| {
      assert BufOk(g, s, b);
    }
    if i < |steps| && steps[i].CopyToLog? {
      assert ss[i + 1] == Apply(g, s, steps[i]);
      PinnedView(g, s, s.pc.tail);
    }
  }

  /** The control flags: commits exclude operations, and end_op never finds a commit under way. */
  lemma CommitExclusion(g: Geometry, ss: seq<State>, steps: seq<Step>, i: nat)
    requires IsRun(g, ss, steps) && i <= |steps|
    ensures ss[i].committing && !ss[i].panicked ==> ss[i].outstanding == 0
    ensures i < |steps| && steps[i].EndOp? ==> !ss[i + 1].panicked
    ensures i < |steps| && steps[i].LogWrite? ==> (ss[i + 1].panicked <==> LogFull(g, ss[i]))
  {
    RunHolds(g, ss, steps, i);
    if i < |steps| {
      assert ss[i + 1] == Apply(g, ss[i], steps[i]);
      if steps[i].LogWrite? { assert |ss[i].ops - {steps[i].t}| == |ss[i].ops| - 1; }
    }
  }
}

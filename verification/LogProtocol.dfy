/**
  The redo log as the kernel runs it (kernel/log.c over kernel/bio.c): any number of threads
  inside file system operations, readers that only use the buffer cache, one committing thread,
  a crash between any two steps and recovery after it. Every disk write is one step. A thread may
  release a block that it has changed without a log_write, as writei does after a failed copy.
 */
module LogProtocol {
  import opened LogSpec

  type Tid = nat
  datatype Option<T> = None | Some(value: T)

  /** A cached block. `users` are the threads between bget and the end of brelse,
      `dirty` says that the data has been changed and the block is not in the log's list,
      `pin` names the log slot for which log_write took a reference that bunpin has not dropped. */
  datatype Buf = Buf(valid: bool, data: Block, refcnt: int, lock: Option<Tid>, users: set<Tid>, dirty: bool,
                     pin: Option<nat>)

  /** Where the thread that runs commit() or recover_from_log() is. */
  datatype Pc =
    | Idle
    | CommitStart | CopyLog(tail: nat) | Install(tail: nat) | CommitDone
    | BootRead | Replay(tail: nat)

  /** `lh` is log.lh.block[0..log.lh.n]; `ops` maps each thread inside an operation to the number
      of blocks it has appended; `worker` is the thread that commits or recovers. */
  datatype State = State(disk: Disk, cache: map<nat, Buf>, lh: seq<nat>, outstanding: int, committing: bool,
                         ops: map<Tid, nat>, worker: Tid, pc: Pc, panicked: bool)

  datatype Step =
    | Get(t: Tid, b: nat) | Evict(b: nat) | Lock(t: Tid, b: nat) | Fill(t: Tid, b: nat)
    | Unlock(t: Tid, b: nat) | Unref(t: Tid, b: nat)
    | BeginOp(t: Tid) | Modify(t: Tid, b: nat, data: Block) | LogWrite(t: Tid, b: nat) | EndOp(t: Tid)
    | CommitCheck | CopyToLog | WriteHeader | InstallBlock | EraseHeader | CommitEnd
    | Crash(boot: Tid) | ReadHeader | ReplayBlock | FinishRecovery

  predicate Booting(s: State) { s.pc.BootRead? || s.pc.Replay? }

  /** t holds b's sleep lock on valid contents, as after bread. */
  predicate Holds(s: State, t: Tid, b: nat) {
    b in s.cache && s.cache[b].valid && s.cache[b].lock == Some(t)
  }

  predicate LogFull(g: Geometry, s: State) {
    |s.lh| >= LOGSIZE || |s.lh| >= g.size - 1
  }

  predicate Enabled(g: Geometry, s: State, st: Step)
    requires Fits(g, s.disk)
  {
    (s.panicked ==> st.Crash?) &&
    match st
    case Get(t, b) => b < |s.disk| && (b in s.cache ==> t !in s.cache[b].users)
    case Evict(b) => b in s.cache && s.cache[b].refcnt == 0
    case Lock(t, b) => b in s.cache && t in s.cache[b].users && s.cache[b].lock == None
    case Fill(t, b) => b in s.cache && b < |s.disk| && s.cache[b].lock == Some(t) && !s.cache[b].valid
    case Unlock(t, b) => b in s.cache && s.cache[b].lock == Some(t)
    case Unref(t, b) => b in s.cache && t in s.cache[b].users && s.cache[b].lock != Some(t)
    case BeginOp(t) =>
      && !Booting(s) && t !in s.ops && !s.committing
      && |s.lh| + (s.outstanding + 1) * MAXOPBLOCKS <= LOGSIZE
    case Modify(t, b, data) => t in s.ops && Holds(s, t, b) && !InLog(g, b)
    case LogWrite(t, b) => t in s.ops && Holds(s, t, b) && !InLog(g, b)
    case EndOp(t) => t in s.ops
    case CommitCheck => s.pc.CommitStart?
    case CopyToLog =>
      && s.pc.CopyLog? && s.pc.tail < |s.lh|
      && Holds(s, s.worker, g.start + 1 + s.pc.tail) && Holds(s, s.worker, s.lh[s.pc.tail])
    case WriteHeader =>
      s.pc.CopyLog? && s.pc.tail == |s.lh| && Holds(s, s.worker, g.start)
    case InstallBlock =>
      && s.pc.Install? && s.pc.tail < |s.lh|
      && Holds(s, s.worker, g.start + 1 + s.pc.tail) && Holds(s, s.worker, s.lh[s.pc.tail])
    case EraseHeader =>
      s.pc.Install? && s.pc.tail == |s.lh| && Holds(s, s.worker, g.start)
    case CommitEnd => s.pc.CommitDone?
    case Crash(_) => true
    case ReadHeader => s.pc.BootRead? && Holds(s, s.worker, g.start)
    case ReplayBlock =>
      && s.pc.Replay? && s.pc.tail < |s.lh|
      && Holds(s, s.worker, g.start + 1 + s.pc.tail) && Holds(s, s.worker, s.lh[s.pc.tail])
    case FinishRecovery =>
      s.pc.Replay? && s.pc.tail == |s.lh| && Holds(s, s.worker, g.start)
  }

  function SetBuf(s: State, b: nat, f: Buf): State {
    s.(cache := s.cache[b := f])
  }

  /** bwrite of block b with new contents: buffer and disk take the data together. */
  function WriteThrough(s: State, b: nat, data: Block): State
    requires b in s.cache
  {
    s.(cache := s.cache[b := s.cache[b].(data := data)], disk := if b < |s.disk| then s.disk[b := data] else s.disk)
  }

  function DoGet(s: State, t: Tid, b: nat): State {
    if b in s.cache then
      var f := s.cache[b];
      SetBuf(s, b, f.(refcnt := f.refcnt + 1, users := f.users + {t}))
    else
      SetBuf(s, b, Buf(false, Block([]), 1, None, {t}, false, None))
  }

  function DoLogWrite(g: Geometry, s: State, t: Tid, b: nat): State
    requires b in s.cache && t in s.ops
  {
    var f := s.cache[b];
    if LogFull(g, s) || s.outstanding < 1 then s.(panicked := true)
    else if b in s.lh then SetBuf(s, b, f.(dirty := false))
    else
      SetBuf(s, b, f.(dirty := false, refcnt := f.refcnt + 1, pin := Some(|s.lh|)))
        .(lh := s.lh + [b], ops := s.ops[t := s.ops[t] + 1])
  }

  function DoEndOp(s: State, t: Tid): State {
    var s1 := s.(outstanding := s.outstanding - 1, ops := s.ops - {t});
    if s.committing then s1.(panicked := true)
    else if s1.outstanding == 0 then s1.(committing := true, worker := t, pc := CommitStart)
    else s1
  }

  /** Copy log block `tail` over home block lh[tail] and write it. */
  function DoInstall(g: Geometry, s: State, tail: nat): State
    requires tail < |s.lh| && s.lh[tail] in s.cache && g.start + 1 + tail in s.cache
  {
    WriteThrough(s, s.lh[tail], s.cache[g.start + 1 + tail].data)
  }

  /** bunpin after the install of block b. */
  function Unpin(s: State, b: nat): State
    requires b in s.cache
  {
    SetBuf(s, b, s.cache[b].(refcnt := s.cache[b].refcnt - 1, pin := None))
  }

  function DoWriteHeader(g: Geometry, s: State): State
    requires g.start in s.cache
  {
    WriteThrough(s, g.start, HeaderUpdate(s.cache[g.start].data, s.lh))
  }

  function Apply(g: Geometry, s: State, st: Step): State
    requires Fits(g, s.disk) && Enabled(g, s, st)
  {
    match st
    case Get(t, b) => DoGet(s, t, b)
    case Evict(b) => s.(cache := s.cache - {b})
    case Lock(t, b) => SetBuf(s, b, s.cache[b].(lock := Some(t)))
    case Fill(t, b) => SetBuf(s, b, s.cache[b].(valid := true, data := s.disk[b]))
    case Unlock(t, b) => SetBuf(s, b, s.cache[b].(lock := None))
    case Unref(t, b) => SetBuf(s, b, s.cache[b].(users := s.cache[b].users - {t}, refcnt := s.cache[b].refcnt - 1))
    case BeginOp(t) => s.(outstanding := s.outstanding + 1, ops := s.ops[t := 0])
    case Modify(t, b, data) => SetBuf(s, b, s.cache[b].(data := data, dirty := s.cache[b].pin.None?))
    case LogWrite(t, b) => DoLogWrite(g, s, t, b)
    case EndOp(t) => DoEndOp(s, t)
    case CommitCheck => s.(pc := if |s.lh| > 0 then CopyLog(0) else CommitDone)
    case CopyToLog =>
      WriteThrough(s, g.start + 1 + s.pc.tail, s.cache[s.lh[s.pc.tail]].data).(pc := CopyLog(s.pc.tail + 1))
    case WriteHeader => DoWriteHeader(g, s).(pc := Install(0))
    case InstallBlock => Unpin(DoInstall(g, s, s.pc.tail), s.lh[s.pc.tail]).(pc := Install(s.pc.tail + 1))
    case EraseHeader => DoWriteHeader(g, s.(lh := [])).(pc := CommitDone)
    case CommitEnd => s.(committing := false, pc := Idle)
    case Crash(boot) => State(s.disk, map[], [], 0, false, map[], boot, BootRead, false)
    case ReadHeader => s.(lh := Listed(s.cache[g.start].data), pc := Replay(0))
    case ReplayBlock => DoInstall(g, s, s.pc.tail).(pc := Replay(s.pc.tail + 1))
    case FinishRecovery => DoWriteHeader(g, s.(lh := [])).(pc := Idle)
  }

  // ---------------------------------------------------------------- invariant

  /** Slots from here on are pinned: logged by log_write and not yet unpinned by install_trans. */
  function PinStart(s: State): nat {
    match s.pc
    case Idle => 0
    case CommitStart => 0
    case CopyLog(_) => 0
    case Install(tail) => tail
    case _ => |s.lh|
  }

  ghost predicate BufOk(g: Geometry, s: State, b: nat)
    requires b in s.cache
  {
    var f := s.cache[b];
    && b < |s.disk|
    && f.refcnt == |f.users| + (if f.pin.Some? then 1 else 0)
    && (f.lock.Some? ==> f.lock.value in f.users)
    && (f.dirty ==> f.valid && f.pin.None? && b !in s.lh && !InLog(g, b) && !Booting(s))
    && (f.pin.Some? ==> PinStart(s) <= f.pin.value < |s.lh| && s.lh[f.pin.value] == b && f.valid)
    && (f.valid && !f.dirty && f.pin.None? ==> f.data == s.disk[b])
  }

  ghost predicate CacheInv(g: Geometry, s: State) {
    forall b {:trigger BufOk(g, s, b)} :: b in s.cache ==> BufOk(g, s, b)
  }

  ghost predicate SlotPinned(s: State, i: nat)
    requires i < |s.lh|
  {
    s.lh[i] in s.cache && s.cache[s.lh[i]].pin == Some(i)
  }

  /** Every pinned slot has its block resident, under its own identity. */
  ghost predicate PinInv(s: State) {
    forall i: nat {:trigger SlotPinned(s, i)} :: PinStart(s) <= i < |s.lh| ==> SlotPinned(s, i)
  }

  ghost predicate SlotCopied(g: Geometry, s: State, i: nat)
    requires i < |s.lh| && g.start + 1 + i < |s.disk|
  {
    s.lh[i] in s.cache && s.disk[g.start + 1 + i] == s.cache[s.lh[i]].data
  }

  /** Log blocks lo..hi are copies of the cached blocks they stand for. */
  ghost predicate Copied(g: Geometry, s: State, lo: nat, hi: nat)
    requires hi <= |s.lh| && Loggable(g, |s.disk|, s.lh) && Fits(g, s.disk)
  {
    forall i: nat {:trigger SlotCopied(g, s, i)} :: lo <= i < hi ==> SlotCopied(g, s, i)
  }

  ghost predicate AtHome(g: Geometry, d: Disk, lh: seq<nat>, i: nat)
    requires i < |lh| && lh[i] < |d| && g.start + 1 + i < |d|
  {
    d[lh[i]] == d[g.start + 1 + i]
  }

  ghost predicate Installed(g: Geometry, d: Disk, lh: seq<nat>, k: nat)
    requires k <= |lh| && Loggable(g, |d|, lh) && Fits(g, d)
  {
    forall i: nat {:trigger AtHome(g, d, lh, i)} :: i < k ==> AtHome(g, d, lh, i)
  }

  ghost predicate PcInv(g: Geometry, s: State)
    requires Loggable(g, |s.disk|, s.lh) && HeaderOk(g, s.disk)
  {
    var listed := Listed(s.disk[g.start]);
    match s.pc
    case Idle => listed == []
    case CommitStart => listed == []
    case CopyLog(tail) => listed == [] && tail <= |s.lh| && Copied(g, s, 0, tail)
    case Install(tail) =>
      listed == s.lh && tail <= |s.lh| && Installed(g, s.disk, s.lh, tail) && Copied(g, s, tail, |s.lh|)
    case CommitDone => listed == [] && s.lh == []
    case BootRead => s.lh == []
    case Replay(tail) => listed == s.lh && tail <= |s.lh| && Installed(g, s.disk, s.lh, tail)
  }

  ghost predicate CtlInv(s: State) {
    && (!s.panicked ==> s.outstanding == |s.ops|)
    && (s.committing <==> s.pc.CommitStart? || s.pc.CopyLog? || s.pc.Install? || s.pc.CommitDone?)
    && (!s.pc.Idle? ==> s.ops == map[])
  }

  ghost predicate LogInv(g: Geometry, s: State) {
    && Loggable(g, |s.disk|, s.lh)
    && HeaderOk(g, s.disk)
    && PcInv(g, s)
  }

  ghost predicate Inv(g: Geometry, s: State) {
    LogInv(g, s) && CtlInv(s) && CacheInv(g, s) && PinInv(s)
  }
}

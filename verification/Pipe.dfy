/**
  kernel/pipe.c as a transition system: readers, writers and closers that interleave at the pipe
  lock, sleep and wakeup, with 32-bit counters that wrap.
 */
module Pipe {

  const PIPESIZE: nat := 512
  const WRAP: nat := 0x1_0000_0000

  type Tid = nat
  type Byte = int
  datatype Option<T> = None | Some(value: T)

  /** Where a thread is. The states Writing, Checking, Reading and Closing hold the pipe lock; `moved`
      says that a byte went in (or out) since the lock was taken. */
  datatype Thread =
    | WantWrite(todo: seq<Byte>) | Writing(todo: seq<Byte>, moved: bool) | WriteSleep(todo: seq<Byte>)
    | WantRead(n: nat) | Checking(n: nat) | Reading(n: nat, moved: bool) | ReadSleep(n: nat)
    | WantClose(writable: bool) | Closing(writable: bool)

  /** `sent` and `got` record every byte ever enqueued and dequeued. */
  datatype State = State(data: seq<Byte>, nread: nat, nwrite: nat, readopen: bool, writeopen: bool, freed: bool,
                         lock: Option<Tid>, threads: map<Tid, Thread>, killed: set<Tid>,
                         sent: seq<Byte>, got: seq<Byte>)

  datatype Step =
    | CallWrite(t: Tid, bytes: seq<Byte>) | CallRead(t: Tid, count: nat) | CallClose(t: Tid, writable: bool)
    | Acquire(t: Tid)
    | WriteByte(t: Tid) | WriteBlock(t: Tid) | WriteAbort(t: Tid) | WriteExit(t: Tid)
    | ReadBlock(t: Tid) | ReadAbort(t: Tid) | ReadGo(t: Tid) | ReadByte(t: Tid, fault: bool) | ReadExit(t: Tid)
    | Close(t: Tid)
    | Kill(t: Tid)

  predicate Empty(s: State) { s.nread == s.nwrite }

  predicate Full(s: State) { s.nwrite == (s.nread + PIPESIZE) % WRAP }

  predicate At(s: State, t: Tid) { t in s.threads && s.lock == Some(t) }

  predicate Enabled(s: State, st: Step) {
    !s.freed &&
    match st
    case CallWrite(t, _) => t !in s.threads
    case CallRead(t, _) => t !in s.threads
    case CallClose(t, _) => t !in s.threads
    case Acquire(t) =>
      t in s.threads && s.lock == None && (s.threads[t].WantWrite? || s.threads[t].WantRead? || s.threads[t].WantClose?)
    case WriteByte(t) =>
      At(s, t) && s.threads[t].Writing? && s.threads[t].todo != [] && s.readopen && t !in s.killed && !Full(s)
    case WriteBlock(t) =>
      At(s, t) && s.threads[t].Writing? && s.threads[t].todo != [] && s.readopen && t !in s.killed && Full(s)
    case WriteAbort(t) =>
      At(s, t) && s.threads[t].Writing? && s.threads[t].todo != [] && (!s.readopen || t in s.killed)
    case WriteExit(t) =>   // the loop is done, or copyin failed
      At(s, t) && s.threads[t].Writing? && (s.threads[t].todo == [] || (s.readopen && t !in s.killed && !Full(s)))
    case ReadBlock(t) => At(s, t) && s.threads[t].Checking? && Empty(s) && s.writeopen && t !in s.killed
    case ReadAbort(t) => At(s, t) && s.threads[t].Checking? && Empty(s) && s.writeopen && t in s.killed
    case ReadGo(t) => At(s, t) && s.threads[t].Checking? && !(Empty(s) && s.writeopen)
    case ReadByte(t, _) => At(s, t) && s.threads[t].Reading? && s.threads[t].n > 0 && !Empty(s)
    case ReadExit(t) => At(s, t) && s.threads[t].Reading? && (s.threads[t].n == 0 || Empty(s))
    case Close(t) => At(s, t) && s.threads[t].Closing?
    case Kill(t) => t in s.threads
  }

  /** wakeup(&pi->nread) */
  function WakeReaders(th: map<Tid, Thread>): map<Tid, Thread> {
    map t | t in th :: if th[t].ReadSleep? then WantRead(th[t].n) else th[t]
  }

  /** wakeup(&pi->nwrite) */
  function WakeWriters(th: map<Tid, Thread>): map<Tid, Thread> {
    map t | t in th :: if th[t].WriteSleep? then WantWrite(th[t].todo) else th[t]
  }

  function Begin(th: Thread): Thread {
    match th
    case WantWrite(todo) => Writing(todo, false)
    case WantRead(n) => Checking(n)
    case WantClose(w) => Closing(w)
    case _ => th
  }

  function Apply(s: State, st: Step): State
    requires Enabled(s, st)
  {
    match st
    case CallWrite(t, bytes) => s.(threads := s.threads[t := WantWrite(bytes)])
    case CallRead(t, count) => s.(threads := s.threads[t := WantRead(count)])
    case CallClose(t, w) => s.(threads := s.threads[t := WantClose(w)])
    case Acquire(t) => s.(lock := Some(t), threads := s.threads[t := Begin(s.threads[t])])
    case WriteByte(t) =>
      var th := s.threads[t];
      s.(data := Store(s.data, s.nwrite, th.todo[0]), nwrite := (s.nwrite + 1) % WRAP, sent := s.sent + [th.todo[0]],
         threads := s.threads[t := Writing(th.todo[1..], true)])
    case WriteBlock(t) =>
      s.(lock := None, threads := WakeReaders(s.threads)[t := WriteSleep(s.threads[t].todo)])
    case WriteAbort(t) => s.(lock := None, threads := s.threads - {t})
    case WriteExit(t) => s.(lock := None, threads := WakeReaders(s.threads) - {t})
    case ReadBlock(t) => s.(lock := None, threads := s.threads[t := ReadSleep(s.threads[t].n)])
    case ReadAbort(t) => s.(lock := None, threads := s.threads - {t})
    case ReadGo(t) => s.(threads := s.threads[t := Reading(s.threads[t].n, false)])
    case ReadByte(t, fault) =>
      var n := if fault then 0 else s.threads[t].n - 1;
      s.(nread := (s.nread + 1) % WRAP, got := s.got + [Fetch(s.data, s.nread)],
         threads := s.threads[t := Reading(n, true)])
    case ReadExit(t) => s.(lock := None, threads := WakeWriters(s.threads) - {t})
    case Close(t) =>
      var w := s.threads[t].writable;
      s.(lock := None, threads := (if w then WakeReaders(s.threads) else WakeWriters(s.threads)) - {t},
         readopen := s.readopen && w, writeopen := s.writeopen && !w,
         freed := if w then !s.readopen else !s.writeopen)
    case Kill(t) =>
      var th := s.threads[t];
      var woken := if th.ReadSleep? then WantRead(th.n) else if th.WriteSleep? then WantWrite(th.todo) else th;
      s.(killed := s.killed + {t}, threads := s.threads[t := woken])
  }

  /** pi->data[i % PIPESIZE] = b */
  function Store(data: seq<Byte>, i: nat, b: Byte): seq<Byte> {
    if |data| == PIPESIZE then data[i % PIPESIZE := b] else data
  }

  function Fetch(data: seq<Byte>, i: nat): Byte {
    if |data| == PIPESIZE then data[i % PIPESIZE] else 0
  }

  // ---------------------------------------------------------------- invariants

  /** The ring holds exactly the bytes sent and not yet got; the counters are the totals modulo 2^32. */
  ghost predicate DataInv(s: State) {
    && |s.data| == PIPESIZE
    && s.got <= s.sent
    && |s.sent| - |s.got| <= PIPESIZE
    && s.nread == |s.got| % WRAP && s.nwrite == |s.sent| % WRAP
    && forall k {:trigger s.sent[k]} :: |s.got| <= k < |s.sent| ==> s.data[k % PIPESIZE] == s.sent[k]
  }

  predicate HoldsLock(th: Thread) {
    th.Writing? || th.Checking? || th.Reading? || th.Closing?
  }

  ghost predicate LockInv(s: State) {
    && (forall t :: t in s.threads ==> (HoldsLock(s.threads[t]) <==> s.lock == Some(t)))
    && (s.lock.Some? ==> s.lock.value in s.threads)
    && (forall t :: t in s.threads && s.threads[t].Writing? && s.threads[t].moved ==> s.readopen && !Empty(s))
  }

  /** A reader may sleep next to data, or a closed write end, only while a writer that will wake it
      holds the lock; likewise for writers. */
  ghost predicate SleepInv(s: State) {
    && (forall t :: t in s.threads && s.threads[t].ReadSleep? && (!Empty(s) || !s.writeopen) ==>
          s.lock.Some? && s.lock.value in s.threads && s.threads[s.lock.value].Writing?
            && s.threads[s.lock.value].moved)
    && (forall t :: t in s.threads && s.threads[t].WriteSleep? && (!Full(s) || !s.readopen) ==>
          s.lock.Some? && s.lock.value in s.threads && s.threads[s.lock.value].Reading?
            && s.threads[s.lock.value].moved)
  }

  ghost predicate Inv(s: State) {
    DataInv(s) && LockInv(s)
  }

  ghost predicate Init(s: State) {
    && |s.data| == PIPESIZE
    && s == State(s.data, 0, 0, true, true, false, None, map[], {}, [], [])
  }

  lemma RingIndex(x: nat)
    ensures x % WRAP % PIPESIZE == x % PIPESIZE
  {}

  lemma EmptyFull(s: State)
    requires DataInv(s)
    ensures Empty(s) <==> |s.sent| == |s.got|
    ensures Full(s) <==> |s.sent| - |s.got| == PIPESIZE
  {}

  lemma NextIndex(x: nat)
    ensures (x % WRAP + 1) % WRAP == (x + 1) % WRAP
  {}

  lemma SlotsDiffer(i: nat, j: nat)
    requires i < j < i + PIPESIZE
    ensures i % PIPESIZE != j % PIPESIZE
  {}

  lemma WriteKeepsData(s: State, t: Tid)
    requires DataInv(s) && Enabled(s, WriteByte(t))
    ensures DataInv(Apply(s, WriteByte(t)))
  {
    var s' := Apply(s, WriteByte(t));
    var n := |s.sent|;
    EmptyFull(s);
    RingIndex(n);
    NextIndex(n);
    forall k | |s'.got| <= k < |s'.sent| ensures s'.data[k % PIPESIZE] == s'.sent[k] {
      if k < n {
        SlotsDiffer(k, n);
        assert s.data[k % PIPESIZE] == s.sent[k];
      }
    }
  }

  lemma ReadKeepsData(s: State, t: Tid, fault: bool)
    requires DataInv(s) && Enabled(s, ReadByte(t, fault))
    ensures DataInv(Apply(s, ReadByte(t, fault)))
  {
    var n := |s.got|;
    EmptyFull(s);
    RingIndex(n);
    NextIndex(n);
    assert s.data[n % PIPESIZE] == s.sent[n];
    assert s.sent[..n + 1] == s.sent[..n] + [s.sent[n]];
  }

  /** The step moves no byte. */
  predicate MovesNothing(st: Step) {
    !st.WriteByte? && !st.ReadByte?
  }

  predicate Calls(st: Step) {
    st.CallWrite? || st.CallRead? || st.CallClose? || st.Acquire? || st.Kill?
  }

  predicate SameRing(s: State, s': State) {
    s'.data == s.data && s'.nread == s.nread && s'.nwrite == s.nwrite && s'.sent == s.sent && s'.got == s.got
  }

  lemma QuietRing(s: State, st: Step)
    requires Enabled(s, st) && MovesNothing(st)
    ensures SameRing(s, Apply(s, st))
  {
  }

  lemma SameData(s: State, s': State)
    requires DataInv(s) && SameRing(s, s')
    ensures DataInv(s')
  {
  }

  lemma KeepsData(s: State, st: Step)
    requires DataInv(s) && Enabled(s, st)
    ensures DataInv(Apply(s, st))
  {
    match st
    case WriteByte(t) => WriteKeepsData(s, t);
    case ReadByte(t, fault) => ReadKeepsData(s, t, fault);
    case _ => QuietRing(s, st); SameData(s, Apply(s, st));
  }

  lemma WriteKeepsLock(s: State, t: Tid)
    requires DataInv(s) && LockInv(s) && Enabled(s, WriteByte(t))
    ensures LockInv(Apply(s, WriteByte(t)))
  {
    EmptyFull(s);
    WriteKeepsData(s, t);
    EmptyFull(Apply(s, WriteByte(t)));
  }

  lemma CallKeepsLock(s: State, st: Step)
    requires LockInv(s) && Enabled(s, st) && Calls(st)
    ensures LockInv(Apply(s, st))
  {
  }

  lemma OtherKeepsLock(s: State, st: Step)
    requires LockInv(s) && Enabled(s, st) && !Calls(st) && !st.WriteByte?
    ensures LockInv(Apply(s, st))
  {
  }

  lemma KeepsLock(s: State, st: Step)
    requires DataInv(s) && LockInv(s) && Enabled(s, st)
    ensures LockInv(Apply(s, st))
  {
    if st.WriteByte? {
      WriteKeepsLock(s, st.t);
    } else if Calls(st) {
      CallKeepsLock(s, st);
    } else {
      OtherKeepsLock(s, st);
    }
  }

  /** A killed writer leaves after enqueuing bytes and before waking a reader that sleeps. */
  ghost predicate Strands(s: State, st: Step) {
    && st.WriteAbort? && st.t in s.threads && s.threads[st.t].Writing? && s.threads[st.t].moved
    && exists r :: r in s.threads && s.threads[r].ReadSleep?
  }

  /** While one end moves a byte, nobody sleeps at that end. */
  lemma ByteKeepsSleep(s: State, st: Step)
    requires SleepInv(s) && Enabled(s, st) && !MovesNothing(st)
    ensures SleepInv(Apply(s, st))
  {
  }

  lemma CallKeepsSleep(s: State, st: Step)
    requires LockInv(s) && SleepInv(s) && Enabled(s, st) && Calls(st)
    ensures SleepInv(Apply(s, st))
  {
  }

  predicate Writes(st: Step) {
    st.WriteBlock? || st.WriteAbort? || st.WriteExit?
  }

  lemma WriterKeepsSleep(s: State, st: Step)
    requires LockInv(s) && SleepInv(s) && Enabled(s, st) && Writes(st) && !Strands(s, st)
    ensures SleepInv(Apply(s, st))
  {
  }

  lemma ReaderKeepsSleep(s: State, st: Step)
    requires LockInv(s) && SleepInv(s) && Enabled(s, st) && MovesNothing(st) && !Calls(st) && !Writes(st)
    ensures SleepInv(Apply(s, st))
  {
  }

  lemma KeepsSleep(s: State, st: Step)
    requires LockInv(s) && SleepInv(s) && Enabled(s, st) && !Strands(s, st)
    ensures SleepInv(Apply(s, st))
  {
    if !MovesNothing(st) {
      ByteKeepsSleep(s, st);
    } else if Calls(st) {
      CallKeepsSleep(s, st);
    } else if Writes(st) {
      WriterKeepsSleep(s, st);
    } else {
      ReaderKeepsSleep(s, st);
    }
  }

  // ---------------------------------------------------------------- whole runs

  ghost predicate IsRun(ss: seq<State>, steps: seq<Step>) {
    && |ss| == |steps| + 1 && Init(ss[0])
    && forall i :: 0 <= i < |steps| ==> Enabled(ss[i], steps[i]) && ss[i + 1] == Apply(ss[i], steps[i])
  }

  lemma {:induction false} RunHolds(ss: seq<State>, steps: seq<Step>, i: nat)
    requires IsRun(ss, steps) && i <= |steps|
    ensures Inv(ss[i])
    ensures (forall j :: 0 <= j < i ==> !Strands(ss[j], steps[j])) ==> SleepInv(ss[i])
  {
    if i > 0 {
      RunHolds(ss, steps, i - 1);
      assert ss[i - 1 + 1] == Apply(ss[i - 1], steps[i - 1]);
      KeepsData(ss[i - 1], steps[i - 1]);
      KeepsLock(ss[i - 1], steps[i - 1]);
      if forall j :: 0 <= j < i ==> !Strands(ss[j], steps[j]) { KeepsSleep(ss[i - 1], steps[i - 1]); }
    }
  }

  /** First in, first out, never more than PIPESIZE bytes inside, however far the counters have wrapped. */
  lemma Fifo(ss: seq<State>, steps: seq<Step>, i: nat)
    requires IsRun(ss, steps) && i <= |steps|
    ensures ss[i].got <= ss[i].sent && |ss[i].sent| - |ss[i].got| <= PIPESIZE
    ensures Empty(ss[i]) <==> ss[i].sent == ss[i].got
    ensures Full(ss[i]) <==> |ss[i].sent| - |ss[i].got| == PIPESIZE
  {
    RunHolds(ss, steps, i);
    EmptyFull(ss[i]);
  }

  /** No thread sleeps although it could go on. */
  ghost predicate NobodyStranded(s: State) {
    && (forall t :: t in s.threads && s.threads[t].ReadSleep? ==> Empty(s) && s.writeopen)
    && (forall t :: t in s.threads && s.threads[t].WriteSleep? ==> Full(s) && s.readopen)
  }

  /** No lost wakeup: as long as no killed writer has walked away between enqueuing and waking,
      nobody is stranded whenever the pipe lock is free. */
  lemma NoLostWakeup(ss: seq<State>, steps: seq<Step>, i: nat)
    requires IsRun(ss, steps) && i <= |steps| && ss[i].lock == None
    requires forall j :: 0 <= j < i ==> !Strands(ss[j], steps[j])
    ensures NobodyStranded(ss[i])
  {
    RunHolds(ss, steps, i);
  }

  /** And that is exact: such a step leaves the lock free and a reader asleep next to data. */
  lemma StrandedReader(ss: seq<State>, steps: seq<Step>, i: nat)
    requires IsRun(ss, steps) && i < |steps| && Strands(ss[i], steps[i])
    ensures ss[i + 1].lock == None && !NobodyStranded(ss[i + 1])
  {
    RunHolds(ss, steps, i);
    assert ss[i + 1] == Apply(ss[i], steps[i]);
    var r :| r in ss[i].threads && ss[i].threads[r].ReadSleep?;
    assert r in ss[i + 1].threads && ss[i + 1].threads[r].ReadSleep?;
  }

  /** Without kill no writer ever aborts after enqueuing. */
  lemma UnkilledNeverStrands(ss: seq<State>, steps: seq<Step>, i: nat)
    requires IsRun(ss, steps) && i < |steps| && ss[i].killed == {}
    ensures !Strands(ss[i], steps[i])
  {
    RunHolds(ss, steps, i);
    assert Enabled(ss[i], steps[i]);
  }

  lemma Extend(ss: seq<State>, steps: seq<Step>, st: Step, s': State)
    requires IsRun(ss, steps) && Enabled(ss[|steps|], st) && s' == Apply(ss[|steps|], st)
    ensures IsRun(ss + [s'], steps + [st])
  {
  }

  function Sample(lock: Option<Tid>, threads: map<Tid, Thread>): State {
    State(seq(PIPESIZE, _ => 0), 0, 0, true, true, false, lock, threads, {}, [], [])
  }

  /** A reader asleep on an empty pipe. */
  lemma SleepingReader() returns (ss: seq<State>, steps: seq<Step>)
    ensures IsRun(ss, steps) && ss[|steps|] == Sample(None, map[0 := ReadSleep(1)])
  {
    ss, steps := [Sample(None, map[])], [];
    Extend(ss, steps, CallRead(0, 1), Sample(None, map[0 := WantRead(1)]));
    ss, steps := ss + [Sample(None, map[0 := WantRead(1)])], steps + [CallRead(0, 1)];
    Extend(ss, steps, Acquire(0), Sample(Some(0), map[0 := Checking(1)]));
    ss, steps := ss + [Sample(Some(0), map[0 := Checking(1)])], steps + [Acquire(0)];
    Extend(ss, steps, ReadBlock(0), Sample(None, map[0 := ReadSleep(1)]));
    ss, steps := ss + [Sample(None, map[0 := ReadSleep(1)])], steps + [ReadBlock(0)];
  }

  /** A writer has the lock and two bytes to write. */
  lemma WriterEnters() returns (ss: seq<State>, steps: seq<Step>)
    ensures IsRun(ss, steps) && ss[|steps|] == Sample(Some(1), map[0 := ReadSleep(1), 1 := Writing([7, 8], false)])
  {
    ss, steps := SleepingReader();
    var s1 := Sample(None, map[0 := ReadSleep(1), 1 := WantWrite([7, 8])]);
    Extend(ss, steps, CallWrite(1, [7, 8]), s1);
    ss, steps := ss + [s1], steps + [CallWrite(1, [7, 8])];
    var s2 := Sample(Some(1), map[0 := ReadSleep(1), 1 := Writing([7, 8], false)]);
    Extend(ss, steps, Acquire(1), s2);
    ss, steps := ss + [s2], steps + [Acquire(1)];
  }

  /** The stranding run exists: a reader sleeps, a writer puts in one byte of two, is killed and leaves. */
  lemma KillStrandsReader() returns (ss: seq<State>, steps: seq<Step>)
    ensures IsRun(ss, steps) && |steps| > 0 && Strands(ss[|steps| - 1], steps[|steps| - 1])
  {
    ss, steps := WriterEnters();
    var s1 := Apply(ss[|steps|], WriteByte(1));
    Extend(ss, steps, WriteByte(1), s1);
    ss, steps := ss + [s1], steps + [WriteByte(1)];
    var s2 := Apply(s1, Kill(1));
    Extend(ss, steps, Kill(1), s2);
    ss, steps := ss + [s2], steps + [Kill(1)];
    var s3 := Apply(s2, WriteAbort(1));
    Extend(ss, steps, WriteAbort(1), s3);
    assert s2.threads[0] == ReadSleep(1) && Strands(s2, WriteAbort(1));
    ss, steps := ss + [s3], steps + [WriteAbort(1)];
  }
}

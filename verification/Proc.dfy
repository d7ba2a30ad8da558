/**
  kernel/proc.c: process life cycle and sleep/wakeup as a lock-level transition system. A CPU is in its
  scheduler or runs the kernel thread of one process; swtch moves control between the two and hands
  p->lock, which the CPU holds, from one to the other. Interrupts and other CPUs may act between any
  two steps. A section that holds a single p->lock and calls nothing that can block is one step,
  possible only while that lock is free.
 */
module Proc {

  const NPROC: nat := 64
  const NCPU: nat := 8
  const INIT: nat := 0      // the slot of initproc

  datatype Option<T> = None | Some(value: T)

  datatype ProcState = UNUSED | USED | SLEEPING | RUNNABLE | RUNNING | ZOMBIE

  /** What a process sleeps on: a process (as wait does), or anything else. */
  datatype Chan = ProcChan(i: nat) | Other(x: int)

  /** Where a kernel thread is. Kernel is any code outside fork, exit and wait. */
  datatype Pc =
    | Kernel
    | ForkNew(np: nat) | ForkLinked(np: nat)
    | WaitAcq | WaitScan(k: nat, kids: bool) | WaitChild(k: nat) | WaitSleep0 | WaitSleep1 | WaitSleep2
    | Reparent(k: nat) | ReparentWake(k: nat, w: nat) | ExitWake(w: nat) | ExitLock | ExitLocked | Dead

  /** Entering: switched to and not yet past sched. Switching: in sched, before swtch. */
  datatype Phase = Active | Entering | Switching | Parked

  /** `on` is the CPU whose c->proc this is; `maker` the process that is creating it. */
  datatype Slot = Slot(
    state: ProcState, chan: Option<Chan>, parent: Option<nat>, killed: bool, pid: nat,
    lock: Option<nat>, pc: Pc, ph: Phase, on: Option<nat>, maker: Option<nat>)

  datatype State = State(
    p: seq<Slot>, cpu: seq<Option<nat>>, waitLock: Option<nat>, nextpid: nat,
    exited: set<nat>, reaped: seq<nat>)

  datatype Step =
    | SchedRun(c: nat, i: nat) | Enter(c: nat) | Swtch(c: nat) | SchedRelease(c: nat)
    | Yield(c: nat) | SleepOther(c: nat, x: int) | WakeOther(k: nat) | Kill(k: nat)
    | ForkAlloc(c: nat, np: nat) | ForkFail(c: nat) | ForkLink(c: nat) | ForkReady(c: nat)
    | WaitCall(c: nat) | WaitAcquire(c: nat) | WaitStep(c: nat) | WaitReap(c: nat) | WaitFault(c: nat)
    | WaitNext(c: nat) | WaitEnd(c: nat) | WaitSleepLock(c: nat) | WaitSleepFree(c: nat) | WaitSleepSet(c: nat)
    | ExitAcquire(c: nat) | ReparentStep(c: nat) | ReparentWakeStep(c: nat) | ExitWakeStep(c: nat)
    | ExitZombie(c: nat) | ExitRelease(c: nat)

  predicate IsSched(st: Step) {
    || st.SchedRun? || st.Enter? || st.Swtch? || st.SchedRelease?
    || st.Yield? || st.SleepOther? || st.WakeOther? || st.Kill?
  }

  predicate IsFork(st: Step) {
    st.ForkAlloc? || st.ForkFail? || st.ForkLink? || st.ForkReady?
  }

  predicate IsWait(st: Step) {
    || st.WaitCall? || st.WaitAcquire? || st.WaitStep? || st.WaitReap? || st.WaitFault? || st.WaitNext?
    || st.WaitEnd? || st.WaitSleepLock? || st.WaitSleepFree? || st.WaitSleepSet?
  }

  // ---------------------------------------------------------------- steps

  predicate Shape(s: State) {
    |s.p| == NPROC && |s.cpu| == NCPU
  }

  /** CPU c is executing process `s.cpu[c].value`. */
  predicate On(s: State, c: nat) {
    Shape(s) && c < NCPU && s.cpu[c].Some? && s.cpu[c].value < NPROC
  }

  function Cur(s: State, c: nat): Slot
    requires On(s, c)
  {
    s.p[s.cpu[c].value]
  }

  predicate At(s: State, c: nat) {
    On(s, c) && Cur(s, c).ph == Active
  }

  predicate Unlocked(s: State, k: nat) {
    Shape(s) && k < NPROC && s.p[k].lock == None
  }

  /** The places at which a thread holds no lock at all, so that an interrupt may make it yield. */
  predicate LockFree(pc: Pc) {
    pc.Kernel? || pc.ForkNew? || pc.ForkLinked? || pc.WaitAcq?
  }

  predicate HoldsWait(pc: Pc) {
    pc.WaitScan? || pc.WaitChild? || pc.WaitSleep0? || pc.WaitSleep1? || Exiting(pc) || pc.ExitLocked?
  }

  predicate Exiting(pc: Pc) {
    pc.Reparent? || pc.ReparentWake? || pc.ExitWake? || pc.ExitLock?
  }

  predicate HoldsOwn(pc: Pc) {
    pc.WaitSleep1? || pc.WaitSleep2? || pc.ExitLocked?
  }

  predicate Enabled(s: State, st: Step) {
    Shape(s) &&
    match st
    case SchedRun(c, i) => c < NCPU && s.cpu[c] == None && Unlocked(s, i) && s.p[i].state == RUNNABLE
    case Enter(c) => On(s, c) && Cur(s, c).ph == Entering
    case Swtch(c) => On(s, c) && Cur(s, c).ph == Switching
    case SchedRelease(c) => On(s, c) && Cur(s, c).ph == Parked
    case Yield(c) => At(s, c) && LockFree(Cur(s, c).pc) && Cur(s, c).lock == None
    case SleepOther(c, x) => At(s, c) && Cur(s, c).pc.Kernel? && Cur(s, c).lock == None
    case WakeOther(k) => Unlocked(s, k) && s.p[k].state == SLEEPING && s.p[k].chan.Some? && s.p[k].chan.value.Other?
    case Kill(k) => Unlocked(s, k)
    case ForkAlloc(c, np) => At(s, c) && Cur(s, c).pc.Kernel? && Unlocked(s, np) && s.p[np].state == UNUSED
    case ForkFail(c) => At(s, c) && Cur(s, c).pc.Kernel?
    case ForkLink(c) => At(s, c) && Cur(s, c).pc.ForkNew? && Cur(s, c).pc.np < NPROC && s.waitLock == None
    case ForkReady(c) => At(s, c) && Cur(s, c).pc.ForkLinked? && Unlocked(s, Cur(s, c).pc.np)
    case WaitCall(c) => At(s, c) && Cur(s, c).pc.Kernel?
    case WaitAcquire(c) => At(s, c) && Cur(s, c).pc.WaitAcq? && s.waitLock == None
    case WaitStep(c) =>
      && At(s, c) && Cur(s, c).pc.WaitScan? && Cur(s, c).pc.k < NPROC
      && (s.p[Cur(s, c).pc.k].parent == s.cpu[c] ==> Unlocked(s, Cur(s, c).pc.k))
    case WaitReap(c) =>
      At(s, c) && Cur(s, c).pc.WaitChild? && Cur(s, c).pc.k < NPROC && s.p[Cur(s, c).pc.k].state == ZOMBIE
    case WaitFault(c) =>
      At(s, c) && Cur(s, c).pc.WaitChild? && Cur(s, c).pc.k < NPROC && s.p[Cur(s, c).pc.k].state == ZOMBIE
    case WaitNext(c) =>
      At(s, c) && Cur(s, c).pc.WaitChild? && Cur(s, c).pc.k < NPROC && s.p[Cur(s, c).pc.k].state != ZOMBIE
    case WaitEnd(c) =>
      At(s, c) && Cur(s, c).pc.WaitScan? && Cur(s, c).pc.k >= NPROC && (Cur(s, c).pc.kids ==> Cur(s, c).lock == None)
    case WaitSleepLock(c) => At(s, c) && Cur(s, c).pc.WaitSleep0? && Cur(s, c).lock == None
    case WaitSleepFree(c) => At(s, c) && Cur(s, c).pc.WaitSleep1?
    case WaitSleepSet(c) => At(s, c) && Cur(s, c).pc.WaitSleep2?
    case ExitAcquire(c) => At(s, c) && Cur(s, c).pc.Kernel? && s.cpu[c] != Some(INIT) && s.waitLock == None
    case ReparentStep(c) => At(s, c) && Cur(s, c).pc.Reparent?
    case ReparentWakeStep(c) => At(s, c) && Cur(s, c).pc.ReparentWake? && CanWake(s, s.cpu[c].value, Cur(s, c).pc.w)
    case ExitWakeStep(c) => At(s, c) && Cur(s, c).pc.ExitWake? && CanWake(s, s.cpu[c].value, Cur(s, c).pc.w)
    case ExitZombie(c) => At(s, c) && Cur(s, c).pc.ExitLock? && Cur(s, c).lock == None
    case ExitRelease(c) => At(s, c) && Cur(s, c).pc.ExitLocked?
  }

  /** One iteration of wakeup by process i can run: slot w is i itself, or its lock is free. */
  predicate CanWake(s: State, i: nat, w: nat) {
    w < NPROC && w != i ==> Unlocked(s, w)
  }

  function Woken(t: Slot): Slot {
    t.(state := if t.state == SLEEPING then RUNNABLE else t.state)
  }

  /** One iteration of wakeup(chan) by process i. */
  function WakeAt(p: seq<Slot>, i: nat, w: nat, chan: Option<Chan>): (r: seq<Slot>)
    ensures |r| == |p|
  {
    if w < |p| && w != i && p[w].chan == chan then p[w := Woken(p[w])] else p
  }

  function SetPc(s: State, c: nat, pc: Pc): State
    requires On(s, c)
  {
    s.(p := s.p[s.cpu[c].value := Cur(s, c).(pc := pc)])
  }

  function Freed(t: Slot): Slot {
    t.(state := UNUSED, chan := None, parent := None, killed := false, pid := 0, lock := None)
  }

  function SchedStep(s: State, st: Step): State
    requires Enabled(s, st) && IsSched(st)
  {
    match st
    case SchedRun(c, i) =>
      s.(p := s.p[i := s.p[i].(state := RUNNING, lock := Some(c), on := Some(c), ph := Entering)],
         cpu := s.cpu[c := Some(i)])
    case Enter(c) => s.(p := s.p[s.cpu[c].value := Cur(s, c).(lock := None, chan := None, ph := Active)])
    case Swtch(c) => s.(p := s.p[s.cpu[c].value := Cur(s, c).(ph := Parked)])
    case SchedRelease(c) => s.(p := s.p[s.cpu[c].value := Cur(s, c).(lock := None, on := None)],
                               cpu := s.cpu[c := None])
    case Yield(c) => s.(p := s.p[s.cpu[c].value := Cur(s, c).(lock := Some(c), state := RUNNABLE, ph := Switching)])
    case SleepOther(c, x) =>
      s.(p := s.p[s.cpu[c].value := Cur(s, c).(lock := Some(c), state := SLEEPING, chan := Some(Other(x)),
                                               ph := Switching)])
    case WakeOther(k) => s.(p := s.p[k := Woken(s.p[k])])
    case Kill(k) => s.(p := s.p[k := Woken(s.p[k]).(killed := true)])
  }

  function ForkStep(s: State, st: Step): State
    requires Enabled(s, st) && IsFork(st)
  {
    match st
    case ForkAlloc(c, np) =>
      s.(p := s.p[s.cpu[c].value := Cur(s, c).(pc := ForkNew(np))]
             [np := s.p[np].(state := USED, pid := s.nextpid, maker := s.cpu[c], pc := Kernel, ph := Parked)],
         nextpid := s.nextpid + 1)
    case ForkFail(c) => s.(nextpid := s.nextpid + 1)
    case ForkLink(c) =>
      var np := Cur(s, c).pc.np;
      s.(p := s.p[s.cpu[c].value := Cur(s, c).(pc := ForkLinked(np))][np := s.p[np].(parent := s.cpu[c])])
    case ForkReady(c) =>
      var np := Cur(s, c).pc.np;
      s.(p := s.p[s.cpu[c].value := Cur(s, c).(pc := Kernel)][np := s.p[np].(state := RUNNABLE, maker := None)])
  }

  function WaitSteps(s: State, st: Step): State
    requires Enabled(s, st) && IsWait(st)
  {
    var i := s.cpu[st.c].value;
    var me := s.p[i];
    match st
    case WaitCall(c) => SetPc(s, c, WaitAcq)
    case WaitAcquire(c) => SetPc(s, c, WaitScan(0, false)).(waitLock := Some(c))
    case WaitStep(c) =>
      var k := me.pc.k;
      if s.p[k].parent == s.cpu[c]
      then s.(p := s.p[i := me.(pc := WaitChild(k))][k := s.p[k].(lock := Some(c))])
      else SetPc(s, c, WaitScan(k + 1, me.pc.kids))
    case WaitReap(c) =>
      var k := me.pc.k;
      s.(p := s.p[i := me.(pc := Kernel)][k := Freed(s.p[k])], waitLock := None, reaped := s.reaped + [s.p[k].pid])
    case WaitFault(c) =>
      var k := me.pc.k;
      s.(p := s.p[i := me.(pc := Kernel)][k := s.p[k].(lock := None)], waitLock := None)
    case WaitNext(c) =>
      var k := me.pc.k;
      s.(p := s.p[i := me.(pc := WaitScan(k + 1, true))][k := s.p[k].(lock := None)])
    case WaitEnd(c) =>
      if !me.pc.kids || me.killed then SetPc(s, c, Kernel).(waitLock := None) else SetPc(s, c, WaitSleep0)
    case WaitSleepLock(c) => s.(p := s.p[i := me.(pc := WaitSleep1, lock := Some(c))])
    case WaitSleepFree(c) => SetPc(s, c, WaitSleep2).(waitLock := None)
    case WaitSleepSet(c) =>
      s.(p := s.p[i := me.(pc := WaitAcq, chan := Some(ProcChan(i)), state := SLEEPING, ph := Switching)])
  }

  function ExitSteps(s: State, st: Step): State
    requires Enabled(s, st) && !IsSched(st) && !IsFork(st) && !IsWait(st)
  {
    var i := s.cpu[st.c].value;
    var me := s.p[i];
    match st
    case ExitAcquire(c) => SetPc(s, c, Reparent(0)).(waitLock := Some(c))
    case ReparentStep(c) =>
      var k := me.pc.k;
      if k >= NPROC then SetPc(s, c, ExitWake(0))
      else if s.p[k].parent == s.cpu[c]
      then
        var s1 := SetPc(s, c, ReparentWake(k, 0));
        s1.(p := s1.p[k := s1.p[k].(parent := Some(INIT))])
      else SetPc(s, c, Reparent(k + 1))
    case ReparentWakeStep(c) =>
      if me.pc.w >= NPROC then SetPc(s, c, Reparent(me.pc.k + 1))
      else
        var s1 := SetPc(s, c, ReparentWake(me.pc.k, me.pc.w + 1));
        s1.(p := WakeAt(s1.p, i, me.pc.w, Some(ProcChan(INIT))))
    case ExitWakeStep(c) =>
      if me.pc.w >= NPROC then SetPc(s, c, ExitLock)
      else
        var s1 := SetPc(s, c, ExitWake(me.pc.w + 1));
        s1.(p := WakeAt(s1.p, i, me.pc.w, if me.parent.Some? then Some(ProcChan(me.parent.value)) else None))
    case ExitZombie(c) =>
      s.(p := s.p[i := me.(pc := ExitLocked, lock := Some(c), state := ZOMBIE)], exited := s.exited + {me.pid})
    case ExitRelease(c) => s.(p := s.p[i := me.(pc := Dead, ph := Switching)], waitLock := None)
  }

  function Apply(s: State, st: Step): State
    requires Enabled(s, st)
  {
    if IsSched(st) then SchedStep(s, st) else if IsFork(st) then ForkStep(s, st)
    else if IsWait(st) then WaitSteps(s, st) else ExitSteps(s, st)
  }

  // ---------------------------------------------------------------- invariant: CPUs, locks, phases

  predicate CpuOk(s: State, c: nat)
    requires Shape(s) && c < NCPU
  {
    s.cpu[c].Some? ==> s.cpu[c].value < NPROC && s.p[s.cpu[c].value].on == Some(c)
  }

  /** What state, phase, place, CPU and own lock of one process allow together. */
  predicate SlotOk(t: Slot, i: nat) {
    && (t.on.Some? && t.ph != Active ==> t.lock == t.on)
    && (t.on.Some? && HoldsOwn(t.pc) ==> t.lock == t.on)
    && (t.on == None ==> t.ph == Parked)
    && (t.ph != Active ==> LockFree(t.pc) || t.pc.Dead?)
    && (t.maker.Some? <==> t.state == USED)
    && (Exiting(t.pc) && t.on.Some? ==> i != INIT)
    && match t.state
       case UNUSED => t.on == None && t.parent == None
       case USED => t.on == None && t.pc.Kernel?
       case RUNNABLE => (t.ph == Parked || t.ph == Switching) && LockFree(t.pc)
       case SLEEPING =>
         && (t.ph == Parked || t.ph == Switching)
         && t.chan.Some?
         && (if t.chan.value.Other? then t.pc.Kernel? else t.pc.WaitAcq? && t.chan.value.i == i)
       case RUNNING => t.on.Some? && (t.ph == Active || t.ph == Entering) && !t.pc.Dead? && !t.pc.ExitLocked?
       case ZOMBIE => i != INIT && if t.ph == Active then t.pc.ExitLocked? else t.pc.Dead? && t.ph != Entering
  }

  predicate ProcOk(s: State, i: nat)
    requires Shape(s) && i < NPROC
  {
    SlotOk(s.p[i], i) && Related(s, i)
  }

  /** How a process is tied to its CPU, to wait_lock, to a slot it creates and to a child it inspects. */
  predicate Related(s: State, i: nat)
    requires Shape(s) && i < NPROC
  {
    var t := s.p[i];
    && (t.on.Some? ==> t.on.value < NCPU && s.cpu[t.on.value] == Some(i))
    && (HoldsWait(t.pc) && t.on.Some? ==> s.waitLock == t.on)
    && (t.maker.Some? ==> t.maker.value < NPROC && Making(s.p[t.maker.value], i))
    && (t.pc.ForkNew? && Live(t) ==> t.pc.np < NPROC && s.p[t.pc.np].maker == Some(i) && s.p[t.pc.np].parent == None)
    && (t.pc.ForkLinked? && Live(t) ==>
          t.pc.np < NPROC && s.p[t.pc.np].maker == Some(i) && s.p[t.pc.np].parent == Some(i))
    && (t.pc.WaitChild? && t.on.Some? ==>
          t.pc.k < NPROC && t.pc.k != i && s.p[t.pc.k].parent == Some(i) && s.p[t.pc.k].lock == t.on)
  }

  predicate Making(t: Slot, k: nat) {
    Live(t) && (t.pc == ForkNew(k) || t.pc == ForkLinked(k))
  }

  predicate Live(t: Slot) {
    t.state == RUNNABLE || t.state == RUNNING || t.state == SLEEPING
  }

  /** Whoever holds a process's lock: its own CPU at a switch, or a parent looking at its child. */
  predicate LockOk(s: State, i: nat)
    requires Shape(s) && i < NPROC
  {
    var t := s.p[i];
    t.lock.Some? ==>
      var c := t.lock.value;
      && c < NCPU && On(s, c)
      && ((t.on == Some(c) && (t.ph != Active || HoldsOwn(t.pc))) || (At(s, c) && Cur(s, c).pc == WaitChild(i)))
  }

  predicate WaitLockOk(s: State)
    requires Shape(s)
  {
    s.waitLock.Some? ==> At(s, s.waitLock.value) && HoldsWait(Cur(s, s.waitLock.value).pc)
  }

  ghost predicate Structure(s: State) {
    && Shape(s) && WaitLockOk(s)
    && (forall c: nat {:trigger CpuOk(s, c)} :: c < NCPU ==> CpuOk(s, c))
    && (forall i: nat {:trigger ProcOk(s, i)} :: i < NPROC ==> ProcOk(s, i))
    && (forall i: nat {:trigger LockOk(s, i)} :: i < NPROC ==> LockOk(s, i))
  }

  // ---------------------------------------------------------------- structure is kept

  /** Slot i changes without moving between CPUs, being created or holding a child's lock. */
  predicate OwnStep(s: State, i: nat, u: Slot, wl: Option<nat>)
    requires Shape(s) && i < NPROC
  {
    var t := s.p[i];
    && t.on.Some? && u.on == t.on && u.maker == t.maker && u.parent == t.parent && SlotOk(u, i)
    && (u.lock == t.on ==> u.ph != Active || HoldsOwn(u.pc))
    && (u.lock != t.lock ==> (t.lock == None || t.lock == t.on) && (u.lock == None || u.lock == t.on))
    && !t.pc.WaitChild? && !u.pc.WaitChild?
    && ((t.pc.ForkNew? || t.pc.ForkLinked? || u.pc.ForkNew? || u.pc.ForkLinked?) ==> u.pc == t.pc)
    && (HoldsWait(u.pc) ==> wl == t.on && u.ph == Active)
    && (wl != s.waitLock ==> (s.waitLock == None || HoldsWait(t.pc)) && (wl.Some? ==> HoldsWait(u.pc)))
    && (HoldsWait(t.pc) && !HoldsWait(u.pc) ==> wl == None)
  }

  function Own(s: State, i: nat, u: Slot, wl: Option<nat>): State
    requires Shape(s) && i < NPROC
  {
    s.(p := s.p[i := u], waitLock := wl)
  }

  lemma OwnProc(s: State, i: nat, u: Slot, wl: Option<nat>, j: nat)
    requires Structure(s) && i < NPROC && OwnStep(s, i, u, wl) && j < NPROC
    ensures ProcOk(Own(s, i, u, wl), j)
  {
    assert ProcOk(s, j) && ProcOk(s, i) && LockOk(s, i);
    if HoldsWait(s.p[j].pc) && s.p[j].on.Some? && j != i {
      assert s.waitLock == s.p[j].on;
    }
  }

  lemma OwnLock(s: State, i: nat, u: Slot, wl: Option<nat>, j: nat)
    requires Structure(s) && i < NPROC && OwnStep(s, i, u, wl) && j < NPROC
    ensures LockOk(Own(s, i, u, wl), j)
  {
    assert ProcOk(s, i) && LockOk(s, j);
  }

  lemma OwnStructure(s: State, i: nat, u: Slot, wl: Option<nat>)
    requires Structure(s) && i < NPROC && OwnStep(s, i, u, wl)
    ensures Structure(Own(s, i, u, wl))
  {
    var s' := Own(s, i, u, wl);
    assert ProcOk(s, i);
    assert WaitLockOk(s');
    forall d: nat | d < NCPU ensures CpuOk(s', d) { assert CpuOk(s, d); }
    forall j: nat | j < NPROC ensures ProcOk(s', j) { OwnProc(s, i, u, wl, j); }
    forall j: nat | j < NPROC ensures LockOk(s', j) { OwnLock(s, i, u, wl, j); }
  }

  /** A sleeper is made runnable, or marked killed. */
  predicate WokenTo(t: Slot, u: Slot) {
    u == Woken(t) || u == Woken(t).(killed := true)
  }

  lemma WokenProc(s: State, k: nat, u: Slot, j: nat)
    requires Structure(s) && k < NPROC && WokenTo(s.p[k], u) && j < NPROC
    ensures ProcOk(s.(p := s.p[k := u]), j)
  {
    assert ProcOk(s, j) && ProcOk(s, k);
  }

  lemma WokenStructure(s: State, k: nat, u: Slot)
    requires Structure(s) && k < NPROC && WokenTo(s.p[k], u)
    ensures Structure(s.(p := s.p[k := u]))
  {
    var s' := s.(p := s.p[k := u]);
    forall d: nat | d < NCPU ensures CpuOk(s', d) { assert CpuOk(s, d); }
    forall j: nat | j < NPROC ensures ProcOk(s', j) { WokenProc(s, k, u, j); }
    forall j: nat | j < NPROC ensures LockOk(s', j) { assert LockOk(s, j); }
  }

  lemma SchedRunProc(s: State, c: nat, i: nat, j: nat)
    requires Enabled(s, SchedRun(c, i)) && j < NPROC && ProcOk(s, i) && ProcOk(s, j) && CpuOk(s, c)
    ensures ProcOk(Apply(s, SchedRun(c, i)), j)
  {
  }

  lemma SchedRunStructure(s: State, c: nat, i: nat)
    requires Structure(s) && Enabled(s, SchedRun(c, i))
    ensures Structure(Apply(s, SchedRun(c, i)))
  {
    var s' := Apply(s, SchedRun(c, i));
    assert ProcOk(s, i) && LockOk(s, i) && CpuOk(s, c);
    forall d: nat | d < NCPU ensures CpuOk(s', d) { assert CpuOk(s, d); }
    forall j: nat | j < NPROC ensures ProcOk(s', j) { assert ProcOk(s, j); SchedRunProc(s, c, i, j); }
    forall j: nat | j < NPROC ensures LockOk(s', j) { assert LockOk(s, j); }
  }

  lemma SchedReleaseProc(s: State, c: nat, j: nat)
    requires Enabled(s, SchedRelease(c)) && j < NPROC && ProcOk(s, s.cpu[c].value) && ProcOk(s, j) && CpuOk(s, c)
    ensures ProcOk(Apply(s, SchedRelease(c)), j)
  {
  }

  lemma SchedReleaseStructure(s: State, c: nat)
    requires Structure(s) && Enabled(s, SchedRelease(c))
    ensures Structure(Apply(s, SchedRelease(c)))
  {
    var s' := Apply(s, SchedRelease(c));
    var i := s.cpu[c].value;
    assert ProcOk(s, i) && LockOk(s, i) && CpuOk(s, c);
    forall d: nat | d < NCPU ensures CpuOk(s', d) { assert CpuOk(s, d); }
    forall j: nat | j < NPROC ensures ProcOk(s', j) { assert ProcOk(s, j); SchedReleaseProc(s, c, j); }
    forall j: nat | j < NPROC ensures LockOk(s', j) { assert LockOk(s, j) && ProcOk(s, j); }
  }

  lemma SwitchStructure(s: State, st: Step)
    requires Structure(s) && Enabled(s, st) && (st.Enter? || st.Swtch? || st.Yield? || st.SleepOther?)
    ensures Structure(Apply(s, st))
  {
    var i := s.cpu[st.c].value;
    assert CpuOk(s, st.c) && ProcOk(s, i) && LockOk(s, i);
    var s' := Apply(s, st);
    assert s' == Own(s, i, s'.p[i], s.waitLock);
    OwnStructure(s, i, s'.p[i], s.waitLock);
  }

  lemma WaitCallStructure(s: State, c: nat)
    requires Structure(s) && Enabled(s, WaitCall(c))
    ensures Structure(Apply(s, WaitCall(c)))
  {
    var i := s.cpu[c].value;
    assert CpuOk(s, c) && ProcOk(s, i) && LockOk(s, i);
    var s' := Apply(s, WaitCall(c));
    assert s' == Own(s, i, s'.p[i], s'.waitLock);
    OwnStructure(s, i, s'.p[i], s'.waitLock);
  }

  lemma WaitAcquireStructure(s: State, c: nat)
    requires Structure(s) && Enabled(s, WaitAcquire(c))
    ensures Structure(Apply(s, WaitAcquire(c)))
  {
    var i := s.cpu[c].value;
    assert CpuOk(s, c) && ProcOk(s, i) && LockOk(s, i);
    var s' := Apply(s, WaitAcquire(c));
    assert s' == Own(s, i, s'.p[i], s'.waitLock);
    OwnStructure(s, i, s'.p[i], s'.waitLock);
  }

  lemma WaitEndOwn(s: State, c: nat)
    requires Shape(s) && Enabled(s, WaitEnd(c)) && CpuOk(s, c) && ProcOk(s, s.cpu[c].value) && LockOk(s, s.cpu[c].value)
    ensures var i, s' := s.cpu[c].value, Apply(s, WaitEnd(c));
            Shape(s') && OwnStep(s, i, s'.p[i], s'.waitLock) && s' == Own(s, i, s'.p[i], s'.waitLock)
  {
  }

  lemma WaitEndStructure(s: State, c: nat)
    requires Structure(s) && Enabled(s, WaitEnd(c))
    ensures Structure(Apply(s, WaitEnd(c)))
  {
    var i := s.cpu[c].value;
    assert CpuOk(s, c) && ProcOk(s, i) && LockOk(s, i);
    WaitEndOwn(s, c);
    OwnStructure(s, i, Apply(s, WaitEnd(c)).p[i], Apply(s, WaitEnd(c)).waitLock);
  }

  lemma WaitSleepLockStructure(s: State, c: nat)
    requires Structure(s) && Enabled(s, WaitSleepLock(c))
    ensures Structure(Apply(s, WaitSleepLock(c)))
  {
    var i := s.cpu[c].value;
    assert CpuOk(s, c) && ProcOk(s, i) && LockOk(s, i);
    var s' := Apply(s, WaitSleepLock(c));
    assert s' == Own(s, i, s'.p[i], s'.waitLock);
    OwnStructure(s, i, s'.p[i], s'.waitLock);
  }

  lemma WaitSleepFreeStructure(s: State, c: nat)
    requires Structure(s) && Enabled(s, WaitSleepFree(c))
    ensures Structure(Apply(s, WaitSleepFree(c)))
  {
    var i := s.cpu[c].value;
    assert CpuOk(s, c) && ProcOk(s, i) && LockOk(s, i);
    var s' := Apply(s, WaitSleepFree(c));
    assert s' == Own(s, i, s'.p[i], s'.waitLock);
    OwnStructure(s, i, s'.p[i], s'.waitLock);
  }

  lemma WaitSleepSetStructure(s: State, c: nat)
    requires Structure(s) && Enabled(s, WaitSleepSet(c))
    ensures Structure(Apply(s, WaitSleepSet(c)))
  {
    var i := s.cpu[c].value;
    assert CpuOk(s, c) && ProcOk(s, i) && LockOk(s, i);
    var s' := Apply(s, WaitSleepSet(c));
    assert s' == Own(s, i, s'.p[i], s'.waitLock);
    OwnStructure(s, i, s'.p[i], s'.waitLock);
  }

  lemma ExitAcquireStructure(s: State, c: nat)
    requires Structure(s) && Enabled(s, ExitAcquire(c))
    ensures Structure(Apply(s, ExitAcquire(c)))
  {
    var i := s.cpu[c].value;
    assert CpuOk(s, c) && ProcOk(s, i) && LockOk(s, i);
    var s' := Apply(s, ExitAcquire(c));
    assert s' == Own(s, i, s'.p[i], s'.waitLock);
    OwnStructure(s, i, s'.p[i], s'.waitLock);
  }

  lemma ExitZombieStructure(s: State, c: nat)
    requires Structure(s) && Enabled(s, ExitZombie(c))
    ensures Structure(Apply(s, ExitZombie(c)))
  {
    var i := s.cpu[c].value;
    assert CpuOk(s, c) && ProcOk(s, i) && LockOk(s, i);
    var s' := Apply(s, ExitZombie(c));
    var s1 := Own(s, i, s'.p[i], s'.waitLock);
    OwnStructure(s, i, s'.p[i], s'.waitLock);
    SameStructure(s1, s');
  }

  lemma ExitReleaseStructure(s: State, c: nat)
    requires Structure(s) && Enabled(s, ExitRelease(c))
    ensures Structure(Apply(s, ExitRelease(c)))
  {
    var i := s.cpu[c].value;
    assert CpuOk(s, c) && ProcOk(s, i) && LockOk(s, i);
    var s' := Apply(s, ExitRelease(c));
    assert s' == Own(s, i, s'.p[i], s'.waitLock);
    OwnStructure(s, i, s'.p[i], s'.waitLock);
  }

  lemma PcStructure(s: State, c: nat, pc: Pc)
    requires Structure(s) && At(s, c) && Cur(s, c).state == RUNNING
    requires || (Cur(s, c).pc.WaitScan? && pc.WaitScan?) || (Exiting(Cur(s, c).pc) && Exiting(pc))
    ensures Structure(SetPc(s, c, pc))
  {
    var i := s.cpu[c].value;
    assert CpuOk(s, c) && ProcOk(s, i) && LockOk(s, i);
    OwnStructure(s, i, s.p[i].(pc := pc), s.waitLock);
  }

  /** The counters are not part of the structure. */
  lemma SameStructure(s: State, s': State)
    requires Structure(s) && s'.p == s.p && s'.cpu == s.cpu && s'.waitLock == s.waitLock
    ensures Structure(s')
  {
    forall d: nat | d < NCPU ensures CpuOk(s', d) { assert CpuOk(s, d); }
    forall j: nat | j < NPROC ensures ProcOk(s', j) { assert ProcOk(s, j); }
    forall j: nat | j < NPROC ensures LockOk(s', j) { assert LockOk(s, j); }
  }

  function Two(s: State, i: nat, u: Slot, k: nat, v: Slot, wl: Option<nat>): State
    requires Shape(s) && i < NPROC && k < NPROC
  {
    s.(p := s.p[i := u][k := v], waitLock := wl)
  }

  /** wait lets go of the child it has been looking at. */
  predicate ChildDone(s: State, i: nat, u: Slot, k: nat, v: Slot, wl: Option<nat>)
    requires Shape(s) && i < NPROC && k < NPROC
  {
    var t := s.p[i];
    && t.on.Some? && t.ph == Active && t.pc == WaitChild(k) && u == t.(pc := u.pc)
    && (v == s.p[k].(lock := None) || (v == Freed(s.p[k]) && s.p[k].state == ZOMBIE))
    && ((u.pc.Kernel? && wl == None) || (u.pc.WaitScan? && wl == s.waitLock))
  }

  lemma ChildDoneProc(s: State, i: nat, u: Slot, k: nat, v: Slot, wl: Option<nat>, j: nat)
    requires Structure(s) && i < NPROC && k < NPROC && ChildDone(s, i, u, k, v, wl) && j < NPROC
    ensures ProcOk(Two(s, i, u, k, v, wl), j)
  {
    assert ProcOk(s, j) && ProcOk(s, i) && ProcOk(s, k);
    if j == i {
    } else if j == k {
      ChildDoneChild(s, i, u, k, v, wl);
    } else {
      ChildDoneOther(s, i, u, k, v, wl, j);
    }
  }

  lemma ChildDoneChild(s: State, i: nat, u: Slot, k: nat, v: Slot, wl: Option<nat>)
    requires Shape(s) && i < NPROC && k < NPROC && i != k && ChildDone(s, i, u, k, v, wl)
    requires ProcOk(s, i) && ProcOk(s, k) && LockOk(s, k)
    ensures ProcOk(Two(s, i, u, k, v, wl), k)
  {
  }

  lemma ChildDoneOther(s: State, i: nat, u: Slot, k: nat, v: Slot, wl: Option<nat>, j: nat)
    requires Shape(s) && i < NPROC && k < NPROC && i != k && ChildDone(s, i, u, k, v, wl) && j < NPROC && j != i
             && j != k
    requires ProcOk(s, i) && ProcOk(s, k) && ProcOk(s, j)
    ensures ProcOk(Two(s, i, u, k, v, wl), j)
  {
  }

  lemma ChildDoneLock(s: State, i: nat, u: Slot, k: nat, v: Slot, wl: Option<nat>, j: nat)
    requires Structure(s) && i < NPROC && k < NPROC && ChildDone(s, i, u, k, v, wl) && j < NPROC
    ensures LockOk(Two(s, i, u, k, v, wl), j)
  {
    assert LockOk(s, j) && ProcOk(s, i) && ProcOk(s, j);
  }

  lemma ChildDoneStructure(s: State, i: nat, u: Slot, k: nat, v: Slot, wl: Option<nat>)
    requires Structure(s) && i < NPROC && k < NPROC && ChildDone(s, i, u, k, v, wl)
    ensures Structure(Two(s, i, u, k, v, wl))
  {
    var s' := Two(s, i, u, k, v, wl);
    assert ProcOk(s, i) && ProcOk(s, k);
    assert WaitLockOk(s');
    forall d: nat | d < NCPU ensures CpuOk(s', d) { assert CpuOk(s, d); }
    forall j: nat | j < NPROC ensures ProcOk(s', j) { ChildDoneProc(s, i, u, k, v, wl, j); }
    forall j: nat | j < NPROC ensures LockOk(s', j) { ChildDoneLock(s, i, u, k, v, wl, j); }
  }

  lemma WaitReapStructure(s: State, c: nat)
    requires Structure(s) && Enabled(s, WaitReap(c))
    ensures Structure(Apply(s, WaitReap(c)))
  {
    var i, k := s.cpu[c].value, Cur(s, c).pc.k;
    assert CpuOk(s, c) && ProcOk(s, i);
    var s' := Apply(s, WaitReap(c));
    ChildDoneStructure(s, i, s'.p[i], k, s'.p[k], s'.waitLock);
    SameStructure(Two(s, i, s'.p[i], k, s'.p[k], s'.waitLock), s');
  }

  lemma WaitFaultStructure(s: State, c: nat)
    requires Structure(s) && Enabled(s, WaitFault(c))
    ensures Structure(Apply(s, WaitFault(c)))
  {
    var i, k := s.cpu[c].value, Cur(s, c).pc.k;
    assert CpuOk(s, c) && ProcOk(s, i);
    var s' := Apply(s, WaitFault(c));
    ChildDoneStructure(s, i, s'.p[i], k, s'.p[k], s'.waitLock);
    SameStructure(Two(s, i, s'.p[i], k, s'.p[k], s'.waitLock), s');
  }

  lemma WaitNextStructure(s: State, c: nat)
    requires Structure(s) && Enabled(s, WaitNext(c))
    ensures Structure(Apply(s, WaitNext(c)))
  {
    var i, k := s.cpu[c].value, Cur(s, c).pc.k;
    assert CpuOk(s, c) && ProcOk(s, i);
    var s' := Apply(s, WaitNext(c));
    ChildDoneStructure(s, i, s'.p[i], k, s'.p[k], s'.waitLock);
    SameStructure(Two(s, i, s'.p[i], k, s'.p[k], s'.waitLock), s');
  }

  /** wait takes the lock of a child. */
  lemma WaitStepStructure(s: State, c: nat)
    requires Structure(s) && Enabled(s, WaitStep(c))
    requires s.p[Cur(s, c).pc.k].parent == s.cpu[c] ==> Cur(s, c).pc.k != s.cpu[c].value
    ensures Structure(Apply(s, WaitStep(c)))
  {
    var i, k := s.cpu[c].value, Cur(s, c).pc.k;
    assert CpuOk(s, c) && ProcOk(s, i);
    if s.p[k].parent == s.cpu[c] {
      TakeChildStructure(s, i, k);
      assert Apply(s, WaitStep(c)) == Two(s, i, s.p[i].(pc := WaitChild(k)), k, s.p[k].(lock := s.p[i].on), s.waitLock);
    } else {
      PcStructure(s, c, WaitScan(k + 1, s.p[i].pc.kids));
    }
  }

  lemma TakeChildProc(s: State, i: nat, k: nat, j: nat)
    requires Shape(s) && i < NPROC && k < NPROC && i != k && j < NPROC && ProcOk(s, j) && ProcOk(s, i) && ProcOk(s, k)
    requires s.p[i].on.Some? && s.p[i].ph == Active && s.p[i].pc.WaitScan? && s.p[k].lock == None
             && s.p[k].parent == Some(i)
    ensures ProcOk(Two(s, i, s.p[i].(pc := WaitChild(k)), k, s.p[k].(lock := s.p[i].on), s.waitLock), j)
  {
  }

  lemma TakeChildStructure(s: State, i: nat, k: nat)
    requires Structure(s) && i < NPROC && k < NPROC && i != k
    requires s.p[i].on.Some? && s.p[i].ph == Active && s.p[i].pc.WaitScan? && s.p[k].lock == None
             && s.p[k].parent == Some(i)
    ensures Structure(Two(s, i, s.p[i].(pc := WaitChild(k)), k, s.p[k].(lock := s.p[i].on), s.waitLock))
  {
    var s' := Two(s, i, s.p[i].(pc := WaitChild(k)), k, s.p[k].(lock := s.p[i].on), s.waitLock);
    assert ProcOk(s, i) && ProcOk(s, k);
    assert WaitLockOk(s');
    forall d: nat | d < NCPU ensures CpuOk(s', d) { assert CpuOk(s, d); }
    forall j: nat | j < NPROC ensures ProcOk(s', j) { assert ProcOk(s, j); TakeChildProc(s, i, k, j); }
    forall j: nat | j < NPROC ensures LockOk(s', j) { assert LockOk(s, j); }
  }

  /** A step of fork at process i that creates, links or releases the slot k. */
  predicate Makes(s: State, i: nat, u: Slot, k: nat, v: Slot)
    requires Shape(s) && i < NPROC && k < NPROC
  {
    var t, w := s.p[i], s.p[k];
    && i != k && t.on.Some? && t.ph == Active && t.state == RUNNING && u == t.(pc := u.pc)
    && ( || (t.pc.Kernel? && u.pc == ForkNew(k) && w.state == UNUSED && w.lock == None
             && v == w.(state := USED, pid := v.pid, maker := Some(i), pc := Kernel, ph := Parked))
         || (t.pc == ForkNew(k) && u.pc == ForkLinked(k) && v == w.(parent := Some(i)))
         || (t.pc == ForkLinked(k) && u.pc == Kernel && w.lock == None && v == w.(state := RUNNABLE, maker := None)))
  }

  lemma MakesOwn(s: State, i: nat, u: Slot, k: nat, v: Slot)
    requires Shape(s) && i < NPROC && k < NPROC && Makes(s, i, u, k, v)
    requires ProcOk(s, i) && ProcOk(s, k)
    ensures ProcOk(Two(s, i, u, k, v, s.waitLock), i) && ProcOk(Two(s, i, u, k, v, s.waitLock), k)
  {
  }

  lemma MakesOther(s: State, i: nat, u: Slot, k: nat, v: Slot, j: nat)
    requires Shape(s) && i < NPROC && k < NPROC && Makes(s, i, u, k, v) && j < NPROC && j != i && j != k
    requires ProcOk(s, i) && ProcOk(s, k) && ProcOk(s, j)
    ensures ProcOk(Two(s, i, u, k, v, s.waitLock), j)
  {
  }

  lemma MakesLock(s: State, i: nat, u: Slot, k: nat, v: Slot, j: nat)
    requires Shape(s) && i < NPROC && k < NPROC && Makes(s, i, u, k, v) && j < NPROC
    requires ProcOk(s, i) && ProcOk(s, k) && ProcOk(s, j) && LockOk(s, j)
    ensures LockOk(Two(s, i, u, k, v, s.waitLock), j)
  {
  }

  lemma MakesStructure(s: State, i: nat, u: Slot, k: nat, v: Slot)
    requires Structure(s) && i < NPROC && k < NPROC && Makes(s, i, u, k, v)
    ensures Structure(Two(s, i, u, k, v, s.waitLock))
  {
    var s' := Two(s, i, u, k, v, s.waitLock);
    assert ProcOk(s, i) && ProcOk(s, k);
    assert WaitLockOk(s');
    forall d: nat | d < NCPU ensures CpuOk(s', d) { assert CpuOk(s, d); }
    forall j: nat | j < NPROC ensures ProcOk(s', j) {
      assert ProcOk(s, j);
      if j == i || j == k { MakesOwn(s, i, u, k, v); } else { MakesOther(s, i, u, k, v, j); }
    }
    forall j: nat | j < NPROC ensures LockOk(s', j) {
      assert LockOk(s, j) && ProcOk(s, j);
      MakesLock(s, i, u, k, v, j);
    }
  }

  lemma ForkAllocStructure(s: State, c: nat, np: nat)
    requires Structure(s) && Enabled(s, ForkAlloc(c, np))
    ensures Structure(Apply(s, ForkAlloc(c, np)))
  {
    var i := s.cpu[c].value;
    assert CpuOk(s, c) && ProcOk(s, i) && ProcOk(s, np);
    var s' := Apply(s, ForkAlloc(c, np));
    MakesStructure(s, i, s'.p[i], np, s'.p[np]);
    SameStructure(Two(s, i, s'.p[i], np, s'.p[np], s.waitLock), s');
  }

  lemma ForkLinkStructure(s: State, c: nat)
    requires Structure(s) && Enabled(s, ForkLink(c))
    ensures Structure(Apply(s, ForkLink(c)))
  {
    var i := s.cpu[c].value;
    var np := s.p[i].pc.np;
    assert CpuOk(s, c) && ProcOk(s, i) && ProcOk(s, np);
    var s' := Apply(s, ForkLink(c));
    MakesStructure(s, i, s'.p[i], np, s'.p[np]);
    SameStructure(Two(s, i, s'.p[i], np, s'.p[np], s.waitLock), s');
  }

  lemma ForkReadyStructure(s: State, c: nat)
    requires Structure(s) && Enabled(s, ForkReady(c))
    ensures Structure(Apply(s, ForkReady(c)))
  {
    var i := s.cpu[c].value;
    var np := s.p[i].pc.np;
    assert CpuOk(s, c) && ProcOk(s, i) && ProcOk(s, np);
    var s' := Apply(s, ForkReady(c));
    MakesStructure(s, i, s'.p[i], np, s'.p[np]);
    SameStructure(Two(s, i, s'.p[i], np, s'.p[np], s.waitLock), s');
  }

  lemma AdoptProc(s: State, x: nat, k: nat, j: nat)
    requires Shape(s) && x < NPROC && k < NPROC && s.p[x].on.Some? && Exiting(s.p[x].pc) && s.p[k].parent == Some(x)
             && j < NPROC
    requires ProcOk(s, x) && ProcOk(s, k) && ProcOk(s, j)
    ensures ProcOk(s.(p := s.p[k := s.p[k].(parent := Some(INIT))]), j)
  {
  }

  lemma AdoptStructure(s: State, x: nat, k: nat)
    requires Structure(s) && x < NPROC && k < NPROC && s.p[x].on.Some? && Exiting(s.p[x].pc) && s.p[k].parent == Some(x)
    ensures Structure(s.(p := s.p[k := s.p[k].(parent := Some(INIT))]))
  {
    var s' := s.(p := s.p[k := s.p[k].(parent := Some(INIT))]);
    assert ProcOk(s, x) && ProcOk(s, k);
    forall d: nat | d < NCPU ensures CpuOk(s', d) { assert CpuOk(s, d); }
    forall j: nat | j < NPROC ensures ProcOk(s', j) { assert ProcOk(s, j); AdoptProc(s, x, k, j); }
    forall j: nat | j < NPROC ensures LockOk(s', j) { assert LockOk(s, j); }
  }

  lemma ReparentStructure(s: State, c: nat)
    requires Structure(s) && Enabled(s, ReparentStep(c))
    ensures Structure(Apply(s, ReparentStep(c)))
  {
    var i, k := s.cpu[c].value, Cur(s, c).pc.k;
    assert CpuOk(s, c) && ProcOk(s, i);
    if k >= NPROC {
      PcStructure(s, c, ExitWake(0));
    } else if s.p[k].parent == Some(i) {
      PcStructure(s, c, ReparentWake(k, 0));
      AdoptStructure(SetPc(s, c, ReparentWake(k, 0)), i, k);
    } else {
      PcStructure(s, c, Reparent(k + 1));
    }
  }

  lemma WakeStructure(s: State, c: nat, pc: Pc, w: nat, chan: Option<Chan>)
    requires Structure(s) && At(s, c) && Cur(s, c).state == RUNNING && Exiting(Cur(s, c).pc) && Exiting(pc)
    ensures Structure(SetPc(s, c, pc).(p := WakeAt(SetPc(s, c, pc).p, s.cpu[c].value, w, chan)))
  {
    PcStructure(s, c, pc);
    var s1 := SetPc(s, c, pc);
    if w < NPROC {
      WokenStructure(s1, w, Woken(s1.p[w]));
      assert s1.(p := s1.p) == s1;
    }
  }

  lemma ReparentWakeStructure(s: State, c: nat)
    requires Structure(s) && Enabled(s, ReparentWakeStep(c))
    ensures Structure(Apply(s, ReparentWakeStep(c)))
  {
    var pc := Cur(s, c).pc;
    assert CpuOk(s, c) && ProcOk(s, s.cpu[c].value);
    if pc.w >= NPROC {
      PcStructure(s, c, Reparent(pc.k + 1));
    } else {
      WakeStructure(s, c, ReparentWake(pc.k, pc.w + 1), pc.w, Some(ProcChan(INIT)));
    }
  }

  lemma ExitWakeStructure(s: State, c: nat)
    requires Structure(s) && Enabled(s, ExitWakeStep(c))
    ensures Structure(Apply(s, ExitWakeStep(c)))
  {
    var me := Cur(s, c);
    assert CpuOk(s, c) && ProcOk(s, s.cpu[c].value);
    if me.pc.w >= NPROC {
      PcStructure(s, c, ExitLock);
    } else {
      WakeStructure(s, c, ExitWake(me.pc.w + 1), me.pc.w,
                    if me.parent.Some? then Some(ProcChan(me.parent.value)) else None);
    }
  }
}

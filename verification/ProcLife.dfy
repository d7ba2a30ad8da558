/**
  kernel/proc.c over whole runs: who is whose parent, who may sleep in wait, who is reaped.
 */
module ProcLife {
  import opened Proc

  // ---------------------------------------------------------------- parents

  /** Where a thread that is on a CPU stands. */
  function Place(t: Slot): Pc {
    if t.on.Some? then t.pc else Kernel
  }

  predicate ParentOk(s: State, i: nat)
    requires Shape(s) && i < NPROC
  {
    var t := s.p[i];
    && (t.parent.Some? ==> t.parent.value < NPROC && t.parent.value != i && i != INIT && Live(s.p[t.parent.value]))
    && (i != INIT && (Live(t) || t.state == ZOMBIE) ==> t.parent.Some?)
    && (i == INIT ==> Live(t))
  }

  predicate NotChild(s: State, i: nat, k: nat)
    requires Shape(s) && k < NPROC
  {
    s.p[k].parent != Some(i)
  }

  ghost predicate Childless(s: State, i: nat, n: nat)
    requires Shape(s)
  {
    forall k: nat {:trigger NotChild(s, i, k)} :: k < n && k < NPROC ==> NotChild(s, i, k)
  }

  /** How far exit has got with giving its children away. */
  ghost predicate ExitOk(s: State, i: nat)
    requires Shape(s) && i < NPROC
  {
    match Place(s.p[i])
    case Reparent(k) => Childless(s, i, k)
    case ReparentWake(k, w) => Childless(s, i, k + 1)
    case ExitWake(_) => Childless(s, i, NPROC)
    case ExitLock => Childless(s, i, NPROC)
    case _ => true
  }

  ghost predicate Family(s: State) {
    && Shape(s)
    && (forall i: nat {:trigger ParentOk(s, i)} :: i < NPROC ==> ParentOk(s, i))
    && (forall i: nat {:trigger ExitOk(s, i)} :: i < NPROC ==> ExitOk(s, i))
  }

  // ---------------------------------------------------------------- sleeping in wait

  predicate InWaitSleep(s: State, q: nat)
    requires Shape(s) && q < NPROC
  {
    Place(s.p[q]) == WaitSleep2 || (s.p[q].state == SLEEPING && s.p[q].chan == Some(ProcChan(q)))
  }

  /** An exiting process has handed a child to init and not yet woken init. */
  predicate Handing(s: State)
    requires Shape(s)
  {
    && s.waitLock.Some? && At(s, s.waitLock.value)
    && var pc := Cur(s, s.waitLock.value).pc;
       pc.ReparentWake? && pc.w <= INIT
  }

  predicate PairOk(s: State, k: nat)
    requires Shape(s) && k < NPROC
  {
    var t := s.p[k];
    t.state == ZOMBIE && t.parent.Some? && t.parent.value < NPROC && InWaitSleep(s, t.parent.value) ==>
      t.parent.value == INIT && Handing(s)
  }

  predicate WakeOk(s: State, x: nat)
    requires Shape(s) && x < NPROC
  {
    var t := s.p[x];
    match Place(t)
    case ExitWake(w) => t.parent.Some? && t.parent.value < w && t.parent.value < NPROC ==>
        !InWaitSleep(s, t.parent.value)
    case ExitLock => t.parent.Some? && t.parent.value < NPROC ==> !InWaitSleep(s, t.parent.value)
    case ReparentWake(_, w) => w > INIT ==> !InWaitSleep(s, INIT)
    case _ => true
  }

  predicate Looked(s: State, i: nat, k: nat, kids: bool)
    requires Shape(s) && k < NPROC
  {
    s.p[k].parent == Some(i) ==> s.p[k].state != ZOMBIE && kids
  }

  /** wait has looked at the slots below n: `kids` tells of a child among them, and none is a zombie. */
  ghost predicate Scanned(s: State, i: nat, n: nat, kids: bool)
    requires Shape(s)
  {
    forall k: nat {:trigger Looked(s, i, k, kids)} :: k < n && k < NPROC ==> Looked(s, i, k, kids)
  }

  ghost predicate ScanOk(s: State, i: nat)
    requires Shape(s) && i < NPROC
  {
    match Place(s.p[i])
    case WaitScan(k, kids) => Scanned(s, i, k, kids)
    case WaitChild(k) => Scanned(s, i, k, true)
    case WaitSleep0 => Scanned(s, i, NPROC, true)
    case WaitSleep1 => Scanned(s, i, NPROC, true)
    case _ => true
  }

  ghost predicate Sleep(s: State) {
    && Shape(s)
    && (forall k: nat {:trigger PairOk(s, k)} :: k < NPROC ==> PairOk(s, k))
    && (forall x: nat {:trigger WakeOk(s, x)} :: x < NPROC ==> WakeOk(s, x))
    && (forall i: nat {:trigger ScanOk(s, i)} :: i < NPROC ==> ScanOk(s, i))
  }

  // ---------------------------------------------------------------- pids

  predicate PidOk(s: State, i: nat)
    requires Shape(s) && i < NPROC
  {
    s.p[i].state != UNUSED ==>
      s.p[i].pid < s.nextpid && s.p[i].pid !in s.reaped && (s.p[i].state == ZOMBIE ==> s.p[i].pid in s.exited)
  }

  predicate PidsDiffer(s: State, i: nat, j: nat)
    requires Shape(s) && i < NPROC && j < NPROC
  {
    i != j && s.p[i].state != UNUSED && s.p[j].state != UNUSED ==> s.p[i].pid != s.p[j].pid
  }

  predicate ReapedOk(s: State, m: nat)
    requires m < |s.reaped|
  {
    s.reaped[m] < s.nextpid && s.reaped[m] in s.exited && forall n :: m < n < |s.reaped| ==> s.reaped[n] != s.reaped[m]
  }

  ghost predicate Pids(s: State) {
    && Shape(s)
    && (forall i: nat {:trigger PidOk(s, i)} :: i < NPROC ==> PidOk(s, i))
    && (forall i: nat, j: nat {:trigger PidsDiffer(s, i, j)} :: i < NPROC && j < NPROC ==> PidsDiffer(s, i, j))
    && (forall m: nat {:trigger ReapedOk(s, m)} :: m < |s.reaped| ==> ReapedOk(s, m))
  }

  ghost predicate Life(s: State) {
    Family(s) && Sleep(s) && Pids(s)
  }

  ghost predicate Inv(s: State) {
    Structure(s) && Life(s)
  }

  // ---------------------------------------------------------------- frames

  /** Slot j keeps its family ties. */
  predicate SameKin(s: State, s': State, j: nat)
    requires Shape(s) && Shape(s') && j < NPROC
  {
    s'.p[j].parent == s.p[j].parent && (s'.p[j].state == ZOMBIE <==> s.p[j].state == ZOMBIE)
  }

  predicate StillLive(s: State, s': State, j: nat)
    requires Shape(s) && Shape(s') && j < NPROC
  {
    (Live(s.p[j]) ==> Live(s'.p[j])) && (Live(s'.p[j]) ==> Live(s.p[j]) || s.p[j].parent.Some?)
  }

  predicate SamePlace(s: State, s': State, j: nat)
    requires Shape(s) && Shape(s') && j < NPROC
  {
    Place(s'.p[j]) == Place(s.p[j])
  }

  /** Only process i may move, and no ties change. */
  ghost predicate Quiet(s: State, s': State, i: nat)
    requires Shape(s) && Shape(s')
  {
    && (forall j: nat {:trigger SameKin(s, s', j)} :: j < NPROC ==> SameKin(s, s', j))
    && (forall j: nat {:trigger SamePlace(s, s', j)} :: j < NPROC && j != i ==> SamePlace(s, s', j))
  }

  lemma ChildlessFrame(s: State, s': State, i: nat, n: nat)
    requires Shape(s) && Shape(s') && Childless(s, i, n)
    requires forall j: nat {:trigger SameKin(s, s', j)} :: j < NPROC ==> SameKin(s, s', j)
    ensures Childless(s', i, n)
  {
    forall k: nat | k < n && k < NPROC ensures NotChild(s', i, k) { assert SameKin(s, s', k) && NotChild(s, i, k); }
  }

  lemma ScannedFrame(s: State, s': State, i: nat, n: nat, kids: bool)
    requires Shape(s) && Shape(s') && Scanned(s, i, n, kids)
    requires forall j: nat {:trigger SameKin(s, s', j)} :: j < NPROC ==> SameKin(s, s', j)
    ensures Scanned(s', i, n, kids)
  {
    forall k: nat | k < n && k < NPROC ensures Looked(s', i, k, kids) {
      assert SameKin(s, s', k) && Looked(s, i, k, kids);
    }
  }

  lemma ExitFrame(s: State, s': State, j: nat)
    requires Shape(s) && Shape(s') && j < NPROC && ExitOk(s, j) && SamePlace(s, s', j)
    requires forall j: nat {:trigger SameKin(s, s', j)} :: j < NPROC ==> SameKin(s, s', j)
    ensures ExitOk(s', j)
  {
    match Place(s.p[j])
    case Reparent(k) => ChildlessFrame(s, s', j, k);
    case ReparentWake(k, w) => ChildlessFrame(s, s', j, k + 1);
    case ExitWake(_) => ChildlessFrame(s, s', j, NPROC);
    case ExitLock => ChildlessFrame(s, s', j, NPROC);
    case _ =>
  }

  lemma ScanFrame(s: State, s': State, j: nat)
    requires Shape(s) && Shape(s') && j < NPROC && ScanOk(s, j) && SamePlace(s, s', j)
    requires forall j: nat {:trigger SameKin(s, s', j)} :: j < NPROC ==> SameKin(s, s', j)
    ensures ScanOk(s', j)
  {
    match Place(s.p[j])
    case WaitScan(k, kids) => ScannedFrame(s, s', j, k, kids);
    case WaitChild(k) => ScannedFrame(s, s', j, k, true);
    case WaitSleep0 => ScannedFrame(s, s', j, NPROC, true);
    case WaitSleep1 => ScannedFrame(s, s', j, NPROC, true);
    case _ =>
  }

  lemma FamilyFrame(s: State, s': State, i: nat)
    requires Family(s) && Shape(s') && i < NPROC && Quiet(s, s', i) && ExitOk(s', i)
    requires forall j: nat {:trigger StillLive(s, s', j)} :: j < NPROC ==> StillLive(s, s', j)
    ensures Family(s')
  {
    forall j: nat | j < NPROC ensures ParentOk(s', j) {
      assert ParentOk(s, j) && SameKin(s, s', j) && StillLive(s, s', j);
      if s.p[j].parent.Some? { assert StillLive(s, s', s.p[j].parent.value); }
    }
    forall j: nat | j < NPROC ensures ExitOk(s', j) {
      assert ExitOk(s, j);
      if j != i { assert SamePlace(s, s', j); ExitFrame(s, s', j); }
    }
  }

  predicate NoNewSleep(s: State, s': State, j: nat)
    requires Shape(s) && Shape(s') && j < NPROC
  {
    InWaitSleep(s', j) ==> InWaitSleep(s, j)
  }

  lemma SleepFrame(s: State, s': State, i: nat)
    requires Family(s) && Sleep(s) && Shape(s') && i < NPROC && Quiet(s, s', i) && WakeOk(s', i) && ScanOk(s', i)
    requires forall j: nat {:trigger NoNewSleep(s, s', j)} :: j < NPROC ==> NoNewSleep(s, s', j)
    requires Handing(s) && InWaitSleep(s', INIT) ==> Handing(s')
    ensures Sleep(s')
  {
    forall k: nat | k < NPROC ensures PairOk(s', k) {
      assert PairOk(s, k) && ParentOk(s, k) && SameKin(s, s', k);
      if s.p[k].parent.Some? { assert NoNewSleep(s, s', s.p[k].parent.value); }
    }
    forall x: nat | x < NPROC ensures WakeOk(s', x) {
      assert WakeOk(s, x) && ParentOk(s, x) && SameKin(s, s', x);
      if x != i {
        assert SamePlace(s, s', x) && NoNewSleep(s, s', INIT);
        if s.p[x].parent.Some? { assert NoNewSleep(s, s', s.p[x].parent.value); }
      }
    }
    forall j: nat | j < NPROC ensures ScanOk(s', j) {
      assert ScanOk(s, j);
      if j != i { assert SamePlace(s, s', j); ScanFrame(s, s', j); }
    }
  }

  lemma PidsFrame(s: State, s': State)
    requires Pids(s) && Shape(s') && s'.nextpid >= s.nextpid && s'.exited == s.exited && s'.reaped == s.reaped
    requires forall j: nat {:trigger SamePid(s, s', j)} :: j < NPROC ==> SamePid(s, s', j)
    ensures Pids(s')
  {
    forall i: nat | i < NPROC ensures PidOk(s', i) { assert SamePid(s, s', i) && PidOk(s, i); }
    forall i: nat, j: nat | i < NPROC && j < NPROC ensures PidsDiffer(s', i, j) {
      assert SamePid(s, s', i) && SamePid(s, s', j) && PidsDiffer(s, i, j);
    }
    forall m: nat | m < |s'.reaped| ensures ReapedOk(s', m) { assert ReapedOk(s, m); }
  }

  predicate SamePid(s: State, s': State, j: nat)
    requires Shape(s) && Shape(s') && j < NPROC
  {
    && s'.p[j].pid == s.p[j].pid && (s'.p[j].state == UNUSED <==> s.p[j].state == UNUSED)
    && (s'.p[j].state == ZOMBIE <==> s.p[j].state == ZOMBIE)
  }

  // ---------------------------------------------------------------- steps that change no ties

  predicate Tame(t: Slot, u: Slot) {
    && u.parent == t.parent && u.pid == t.pid && Live(u) == Live(t)
    && (u.state == ZOMBIE <==> t.state == ZOMBIE) && (u.state == UNUSED <==> t.state == UNUSED)
  }

  /** Process i moves and slot k changes inside; nobody falls asleep in wait. */
  predicate Moves(s: State, s': State, i: nat, k: nat) {
    && Shape(s) && Shape(s') && i < NPROC && k < NPROC
    && s'.p == s.p[i := s'.p[i]][k := s'.p[k]]
    && Tame(s.p[i], s'.p[i]) && Tame(s.p[k], s'.p[k]) && (i != k ==> SamePlace(s, s', k))
    && NoNewSleep(s, s', i) && NoNewSleep(s, s', k)
    && s'.nextpid >= s.nextpid && s'.exited == s.exited && s'.reaped == s.reaped
  }

  lemma MovesLife(s: State, s': State, i: nat, k: nat)
    requires Life(s) && Moves(s, s', i, k) && (Handing(s) && InWaitSleep(s', INIT) ==> Handing(s'))
    requires ExitOk(s', i) && WakeOk(s', i) && ScanOk(s', i)
    ensures Life(s')
  {
    forall j: nat | j < NPROC ensures SameKin(s, s', j) && StillLive(s, s', j) && SamePid(s, s', j)
      && NoNewSleep(s, s', j) && (j != i ==> SamePlace(s, s', j)) {}
    FamilyFrame(s, s', i);
    SleepFrame(s, s', i);
    PidsFrame(s, s');
  }

  /** Places about which the family and sleep invariants say nothing. */
  predicate Plain(pc: Pc) {
    !Exiting(pc) && !pc.WaitScan? && !pc.WaitChild? && !pc.WaitSleep0? && !pc.WaitSleep1?
  }

  lemma PlainLife(s: State, s': State, i: nat, k: nat)
    requires Life(s) && Moves(s, s', i, k) && Plain(Place(s'.p[i])) && (Handing(s) ==> Handing(s'))
    ensures Life(s')
  {
    MovesLife(s, s', i, k);
  }

  lemma SchedRunLife(s: State, c: nat, i: nat)
    requires Inv(s) && Enabled(s, SchedRun(c, i))
    ensures Life(Apply(s, SchedRun(c, i)))
  {
    var s' := Apply(s, SchedRun(c, i));
    assert ProcOk(s, i) && LockOk(s, i);
    PlainLife(s, s', i, i);
  }

  lemma SwitchLife(s: State, st: Step)
    requires Inv(s) && Enabled(s, st) && (st.Enter? || st.Swtch? || st.SchedRelease? || st.Yield? || st.SleepOther?)
    ensures Life(Apply(s, st))
  {
    var s' := Apply(s, st);
    var i := s.cpu[st.c].value;
    assert ProcOk(s, i) && LockOk(s, i) && CpuOk(s, st.c);
    PlainLife(s, s', i, i);
  }

  lemma WokenLife(s: State, k: nat, u: Slot)
    requires Life(s) && k < NPROC && WokenTo(s.p[k], u)
    ensures Life(s.(p := s.p[k := u]))
  {
    var s' := s.(p := s.p[k := u]);
    assert ExitOk(s, k) && WakeOk(s, k) && ScanOk(s, k) && ParentOk(s, k);
    forall j: nat | j < NPROC ensures SameKin(s, s', j) {}
    ExitFrame(s, s', k);
    ScanFrame(s, s', k);
    MovesLife(s, s', k, k);
  }

  lemma WaitCallLife(s: State, c: nat)
    requires Inv(s) && Enabled(s, WaitCall(c))
    ensures Life(Apply(s, WaitCall(c)))
  {
    var s' := Apply(s, WaitCall(c));
    var i := s.cpu[c].value;
    assert ProcOk(s, i) && LockOk(s, i) && CpuOk(s, c);
    PlainLife(s, s', i, i);
  }

  lemma WaitFaultLife(s: State, c: nat)
    requires Inv(s) && Enabled(s, WaitFault(c))
    ensures Life(Apply(s, WaitFault(c)))
  {
    var s' := Apply(s, WaitFault(c));
    var i := s.cpu[c].value;
    assert ProcOk(s, i) && LockOk(s, i) && CpuOk(s, c) && ProcOk(s, s.p[i].pc.k);
    PlainLife(s, s', i, s.p[i].pc.k);
  }

  lemma WaitSleepSetLife(s: State, c: nat)
    requires Inv(s) && Enabled(s, WaitSleepSet(c))
    ensures Life(Apply(s, WaitSleepSet(c)))
  {
    var s' := Apply(s, WaitSleepSet(c));
    var i := s.cpu[c].value;
    assert ProcOk(s, i) && LockOk(s, i) && CpuOk(s, c);
    PlainLife(s, s', i, i);
  }

  lemma ExitReleaseLife(s: State, c: nat)
    requires Inv(s) && Enabled(s, ExitRelease(c))
    ensures Life(Apply(s, ExitRelease(c)))
  {
    var s' := Apply(s, ExitRelease(c));
    var i := s.cpu[c].value;
    assert ProcOk(s, i) && LockOk(s, i) && CpuOk(s, c);
    PlainLife(s, s', i, i);
  }

  lemma WaitAcquireLife(s: State, c: nat)
    requires Inv(s) && Enabled(s, WaitAcquire(c))
    ensures Life(Apply(s, WaitAcquire(c)))
  {
    var s' := Apply(s, WaitAcquire(c));
    var i := s.cpu[c].value;
    assert ProcOk(s, i) && LockOk(s, i) && CpuOk(s, c) && ExitOk(s, i) && ScanOk(s, i);
    MovesLife(s, s', i, i);
  }

  lemma WaitStepLife(s: State, c: nat)
    requires Inv(s) && Enabled(s, WaitStep(c))
    ensures Life(Apply(s, WaitStep(c)))
  {
    var s' := Apply(s, WaitStep(c));
    var i := s.cpu[c].value;
    assert ProcOk(s, i) && LockOk(s, i) && CpuOk(s, c) && ExitOk(s, i) && ScanOk(s, i);
    forall j: nat | j < NPROC ensures SameKin(s, s', j) {}
    var k := s.p[i].pc.k;
    ScannedFrame(s, s', i, k, s.p[i].pc.kids);
    assert ParentOk(s, k);
    if s.p[k].parent == Some(i) {
      forall j: nat | j < k ensures Looked(s', i, j, true) { assert Looked(s', i, j, s.p[i].pc.kids); }
    } else {
      forall j: nat | j < k + 1 && j < NPROC ensures Looked(s', i, j, s.p[i].pc.kids) {}
    }
    MovesLife(s, s', i, k);
  }

  lemma WaitNextLife(s: State, c: nat)
    requires Inv(s) && Enabled(s, WaitNext(c))
    ensures Life(Apply(s, WaitNext(c)))
  {
    var s' := Apply(s, WaitNext(c));
    var i := s.cpu[c].value;
    assert ProcOk(s, i) && LockOk(s, i) && CpuOk(s, c) && ExitOk(s, i) && ScanOk(s, i);
    forall j: nat | j < NPROC ensures SameKin(s, s', j) {}
    var k := s.p[i].pc.k;
    ScannedFrame(s, s', i, k, true);
    forall j: nat | j < k + 1 && j < NPROC ensures Looked(s', i, j, true) {}
    MovesLife(s, s', i, k);
  }

  lemma WaitEndLife(s: State, c: nat)
    requires Inv(s) && Enabled(s, WaitEnd(c))
    ensures Life(Apply(s, WaitEnd(c)))
  {
    var s' := Apply(s, WaitEnd(c));
    var i := s.cpu[c].value;
    assert ProcOk(s, i) && LockOk(s, i) && CpuOk(s, c) && ExitOk(s, i) && ScanOk(s, i);
    forall j: nat | j < NPROC ensures SameKin(s, s', j) {}
    ScannedFrame(s, s', i, NPROC, s.p[i].pc.kids);
    MovesLife(s, s', i, i);
  }

  lemma WaitSleepLockLife(s: State, c: nat)
    requires Inv(s) && Enabled(s, WaitSleepLock(c))
    ensures Life(Apply(s, WaitSleepLock(c)))
  {
    var s' := Apply(s, WaitSleepLock(c));
    var i := s.cpu[c].value;
    assert ProcOk(s, i) && LockOk(s, i) && CpuOk(s, c) && ExitOk(s, i) && ScanOk(s, i);
    forall j: nat | j < NPROC ensures SameKin(s, s', j) {}
    ScannedFrame(s, s', i, NPROC, true);
    MovesLife(s, s', i, i);
  }

  lemma ExitAcquireLife(s: State, c: nat)
    requires Inv(s) && Enabled(s, ExitAcquire(c))
    ensures Life(Apply(s, ExitAcquire(c)))
  {
    var s' := Apply(s, ExitAcquire(c));
    var i := s.cpu[c].value;
    assert ProcOk(s, i) && LockOk(s, i) && CpuOk(s, c) && ExitOk(s, i) && ScanOk(s, i);
    MovesLife(s, s', i, i);
  }

  lemma ForkFailLife(s: State, c: nat)
    requires Inv(s) && Enabled(s, ForkFail(c))
    ensures Life(Apply(s, ForkFail(c)))
  {
    var s' := Apply(s, ForkFail(c));
    var i := s.cpu[c].value;
    assert ProcOk(s, i) && CpuOk(s, c);
    assert s.p == s.p[i := s.p[i]][i := s.p[i]];
    PlainLife(s, s', i, i);
  }

  // ---------------------------------------------------------------- steps that change ties

  lemma SoleHolder(s: State, i: nat, x: nat)
    requires Structure(s) && i < NPROC && x < NPROC && HoldsWait(Place(s.p[i])) && HoldsWait(Place(s.p[x]))
    ensures x == i
  {
    assert ProcOk(s, i) && ProcOk(s, x);
  }

  /** Nobody but i holds wait_lock, so the loops of exit and wait of the others promise nothing. */
  lemma OthersIdle(s: State, s': State, i: nat, x: nat)
    requires Structure(s) && Shape(s') && i < NPROC && x < NPROC && x != i && SamePlace(s, s', x)
    requires HoldsWait(Place(s.p[i])) || s.waitLock == None
    ensures ExitOk(s', x) && WakeOk(s', x) && ScanOk(s', x)
  {
    assert ProcOk(s, x);
    if HoldsWait(Place(s.p[i])) && HoldsWait(Place(s.p[x])) { SoleHolder(s, i, x); }
  }

  lemma WaitSleepFreeLife(s: State, c: nat)
    requires Inv(s) && Enabled(s, WaitSleepFree(c))
    ensures Life(Apply(s, WaitSleepFree(c)))
  {
    var s' := Apply(s, WaitSleepFree(c));
    var i := s.cpu[c].value;
    assert ProcOk(s, i) && LockOk(s, i) && CpuOk(s, c) && ExitOk(s, i) && ScanOk(s, i) && WakeOk(s, i)
           && ParentOk(s, i);
    forall j: nat | j < NPROC ensures SameKin(s, s', j) && StillLive(s, s', j) && SamePid(s, s', j)
      && (j != i ==> SamePlace(s, s', j)) {}
    FamilyFrame(s, s', i);
    PidsFrame(s, s');
    forall k: nat | k < NPROC ensures PairOk(s', k) {
      assert PairOk(s, k) && ParentOk(s, k) && Looked(s, i, k, true);
    }
    forall x: nat | x < NPROC ensures WakeOk(s', x) && ScanOk(s', x) {
      if x != i { OthersIdle(s, s', i, x); }
    }
  }

  lemma ExitZombieLife(s: State, c: nat)
    requires Inv(s) && Enabled(s, ExitZombie(c))
    ensures Life(Apply(s, ExitZombie(c)))
  {
    var s' := Apply(s, ExitZombie(c));
    var i := s.cpu[c].value;
    assert ProcOk(s, i) && LockOk(s, i) && CpuOk(s, c) && ExitOk(s, i) && ScanOk(s, i) && WakeOk(s, i)
           && ParentOk(s, i);
    forall j: nat | j < NPROC ensures ParentOk(s', j) && PairOk(s', j) {
      assert ParentOk(s, j) && PairOk(s, j) && NotChild(s, i, j);
    }
    forall x: nat | x < NPROC ensures ExitOk(s', x) && WakeOk(s', x) && ScanOk(s', x) {
      if x != i { OthersIdle(s, s', i, x); }
    }
    ExitZombiePids(s, c);
  }

  lemma ExitZombiePids(s: State, c: nat)
    requires Inv(s) && Enabled(s, ExitZombie(c))
    ensures Pids(Apply(s, ExitZombie(c)))
  {
    var s' := Apply(s, ExitZombie(c));
    var i := s.cpu[c].value;
    assert ProcOk(s, i) && PidOk(s, i);
    forall j: nat | j < NPROC ensures PidOk(s', j) { assert PidOk(s, j); }
    forall j: nat, k: nat | j < NPROC && k < NPROC ensures PidsDiffer(s', j, k) { assert PidsDiffer(s, j, k); }
    forall m: nat | m < |s'.reaped| ensures ReapedOk(s', m) { assert ReapedOk(s, m); }
  }

  lemma WaitReapLife(s: State, c: nat)
    requires Inv(s) && Enabled(s, WaitReap(c))
    ensures Life(Apply(s, WaitReap(c)))
  {
    var s' := Apply(s, WaitReap(c));
    var i := s.cpu[c].value;
    assert ProcOk(s, i) && CpuOk(s, c) && ProcOk(s, s.p[i].pc.k);
    forall j: nat | j < NPROC ensures ParentOk(s', j) && PairOk(s', j) { WaitReapKin(s, c, j); }
    forall x: nat | x < NPROC ensures ExitOk(s', x) && WakeOk(s', x) && ScanOk(s', x) {
      if x != i { OthersIdle(s, s', i, x); }
    }
    WaitReapPids(s, c);
  }

  lemma WaitReapKin(s: State, c: nat, j: nat)
    requires Inv(s) && Enabled(s, WaitReap(c)) && j < NPROC
    ensures ParentOk(Apply(s, WaitReap(c)), j) && PairOk(Apply(s, WaitReap(c)), j)
  {
    var k := Cur(s, c).pc.k;
    assert ProcOk(s, s.cpu[c].value) && CpuOk(s, c) && ParentOk(s, k) && ParentOk(s, j) && PairOk(s, j);
  }

  lemma WaitReapPids(s: State, c: nat)
    requires Inv(s) && Enabled(s, WaitReap(c))
    ensures Pids(Apply(s, WaitReap(c)))
  {
    var s' := Apply(s, WaitReap(c));
    var k := Cur(s, c).pc.k;
    assert ProcOk(s, s.cpu[c].value) && CpuOk(s, c) && PidOk(s, k);
    forall j: nat | j < NPROC ensures PidOk(s', j) { assert PidOk(s, j) && PidsDiffer(s, j, k); }
    forall j: nat, l: nat | j < NPROC && l < NPROC ensures PidsDiffer(s', j, l) { assert PidsDiffer(s, j, l); }
    forall m: nat | m < |s'.reaped| ensures ReapedOk(s', m) { if m < |s.reaped| { assert ReapedOk(s, m); } }
  }

  lemma ForkAllocPids(s: State, c: nat, np: nat)
    requires Structure(s) && Pids(s) && Enabled(s, ForkAlloc(c, np))
    ensures Pids(Apply(s, ForkAlloc(c, np)))
  {
    var s' := Apply(s, ForkAlloc(c, np));
    forall j: nat | j < NPROC ensures PidOk(s', j) { assert PidOk(s, j); if s.nextpid in s.reaped { PidFresh(s); } }
    forall j: nat, l: nat | j < NPROC && l < NPROC ensures PidsDiffer(s', j, l) {
      assert PidsDiffer(s, j, l) && PidOk(s, j) && PidOk(s, l);
    }
    forall m: nat | m < |s'.reaped| ensures ReapedOk(s', m) { assert ReapedOk(s, m); }
  }

  lemma ForkAllocLife(s: State, c: nat, np: nat)
    requires Inv(s) && Enabled(s, ForkAlloc(c, np))
    ensures Life(Apply(s, ForkAlloc(c, np)))
  {
    var s' := Apply(s, ForkAlloc(c, np));
    var i := s.cpu[c].value;
    assert ProcOk(s, i) && LockOk(s, i) && CpuOk(s, c) && ExitOk(s, i) && ScanOk(s, i) && WakeOk(s, i)
           && ParentOk(s, i);
    assert ProcOk(s, np);
    forall j: nat | j < NPROC ensures SameKin(s, s', j) && StillLive(s, s', j) && NoNewSleep(s, s', j)
      && (j != i ==> SamePlace(s, s', j)) {}
    FamilyFrame(s, s', i);
    SleepFrame(s, s', i);
    ForkAllocPids(s, c, np);
  }

  lemma PidFresh(s: State)
    requires Pids(s)
    ensures s.nextpid !in s.reaped
  {
    forall m: nat | m < |s.reaped| ensures s.reaped[m] != s.nextpid { assert ReapedOk(s, m); }
  }

  lemma ForkLinkLife(s: State, c: nat)
    requires Inv(s) && Enabled(s, ForkLink(c))
    ensures Life(Apply(s, ForkLink(c)))
  {
    var s' := Apply(s, ForkLink(c));
    var i := s.cpu[c].value;
    assert ProcOk(s, i) && LockOk(s, i) && CpuOk(s, c) && ExitOk(s, i) && ScanOk(s, i) && WakeOk(s, i)
           && ParentOk(s, i);
    var np := s.p[i].pc.np;
    assert ProcOk(s, np) && ParentOk(s, np);
    forall j: nat | j < NPROC ensures ParentOk(s', j) && PairOk(s', j) && SamePid(s, s', j) {
      assert ParentOk(s, j) && PairOk(s, j);
    }
    forall x: nat | x < NPROC ensures ExitOk(s', x) && WakeOk(s', x) && ScanOk(s', x) {
      if x != i { OthersIdle(s, s', i, x); }
    }
    PidsFrame(s, s');
  }

  lemma ForkReadyLife(s: State, c: nat)
    requires Inv(s) && Enabled(s, ForkReady(c))
    ensures Life(Apply(s, ForkReady(c)))
  {
    var s' := Apply(s, ForkReady(c));
    var i := s.cpu[c].value;
    assert ProcOk(s, i) && LockOk(s, i) && CpuOk(s, c) && ExitOk(s, i) && ScanOk(s, i) && WakeOk(s, i)
           && ParentOk(s, i);
    assert ProcOk(s, s.p[i].pc.np);
    forall j: nat | j < NPROC ensures SameKin(s, s', j) && StillLive(s, s', j) && SamePid(s, s', j)
      && NoNewSleep(s, s', j) && (j != i ==> SamePlace(s, s', j)) {}
    FamilyFrame(s, s', i);
    SleepFrame(s, s', i);
    PidsFrame(s, s');
  }

  /** An exiting process moves on to another place of exit; slot w may be woken. */
  lemma ExitMoveLife(s: State, s': State, i: nat, w: nat)
    requires Inv(s) && Moves(s, s', i, w) && HoldsWait(Place(s.p[i])) && Exiting(Place(s'.p[i]))
    requires WakeOk(s', i) && ExitOk(s', i) && (Handing(s) && InWaitSleep(s', INIT) ==> Handing(s'))
    ensures Life(s')
  {
    MovesLife(s, s', i, w);
  }

  lemma AdoptKin(s: State, c: nat, j: nat)
    requires Enabled(s, ReparentStep(c)) && Cur(s, c).pc.k < NPROC && s.p[Cur(s, c).pc.k].parent == s.cpu[c]
             && j < NPROC
    requires CpuOk(s, c) && ProcOk(s, s.cpu[c].value) && ParentOk(s, j) && PairOk(s, j) && ParentOk(s, INIT)
    ensures var s' := Apply(s, ReparentStep(c)); Shape(s') && ParentOk(s', j) && PairOk(s', j) && SamePid(s, s', j)
  {
  }

  lemma AdoptLife(s: State, c: nat)
    requires Inv(s) && Enabled(s, ReparentStep(c)) && Cur(s, c).pc.k < NPROC && s.p[Cur(s, c).pc.k].parent == s.cpu[c]
    ensures Life(Apply(s, ReparentStep(c)))
  {
    var s' := Apply(s, ReparentStep(c));
    var i := s.cpu[c].value;
    assert ProcOk(s, i) && LockOk(s, i) && CpuOk(s, c) && ExitOk(s, i) && ScanOk(s, i) && WakeOk(s, i)
           && ParentOk(s, i);
    var k := s.p[i].pc.k;
    forall j: nat | j < NPROC ensures ParentOk(s', j) && PairOk(s', j) && SamePid(s, s', j) {
      assert ParentOk(s, j) && PairOk(s, j) && ParentOk(s, INIT);
      AdoptKin(s, c, j);
    }
    forall j: nat | j < k + 1 && j < NPROC ensures NotChild(s', i, j) { if j < k { assert NotChild(s, i, j); } }
    forall x: nat | x < NPROC ensures ExitOk(s', x) && WakeOk(s', x) && ScanOk(s', x) {
      if x != i { OthersIdle(s, s', i, x); }
    }
    PidsFrame(s, s');
  }

  lemma ReparentLife(s: State, c: nat)
    requires Inv(s) && Enabled(s, ReparentStep(c))
    ensures Life(Apply(s, ReparentStep(c)))
  {
    var s' := Apply(s, ReparentStep(c));
    var i := s.cpu[c].value;
    assert ProcOk(s, i) && LockOk(s, i) && CpuOk(s, c) && ExitOk(s, i) && ScanOk(s, i) && WakeOk(s, i)
           && ParentOk(s, i);
    var k := s.p[i].pc.k;
    if k < NPROC && s.p[k].parent == Some(i) {
      AdoptLife(s, c);
    } else {
      forall j: nat | j < NPROC ensures SameKin(s, s', j) {}
      ChildlessFrame(s, s', i, k);
      forall j: nat | j < k + 1 && j < NPROC ensures NotChild(s', i, j) {}
      ExitMoveLife(s, s', i, i);
    }
  }

  /** After wakeup has passed slot q with q's channel, q does not sleep in wait. */
  lemma WokenUp(s: State, i: nat, q: nat, p: seq<Slot>, pc: Pc)
    requires Structure(s) && i < NPROC && q < NPROC && q != i && Unlocked(s, q)
    requires p == WakeAt(s.p[i := s.p[i].(pc := pc)], i, q, Some(ProcChan(q)))
    ensures !InWaitSleep(s.(p := p), q)
  {
    assert ProcOk(s, q);
  }

  lemma ReparentWakeOk(s: State, c: nat)
    requires Inv(s) && Enabled(s, ReparentWakeStep(c))
    ensures var s', i := Apply(s, ReparentWakeStep(c)), s.cpu[c].value;
            WakeOk(s', i) && ExitOk(s', i) && (Handing(s) ==> !InWaitSleep(s', INIT))
  {
    var s' := Apply(s, ReparentWakeStep(c));
    var i := s.cpu[c].value;
    assert ProcOk(s, i) && CpuOk(s, c) && ExitOk(s, i) && WakeOk(s, i) && ParentOk(s, i);
    var w, k := s.p[i].pc.w, s.p[i].pc.k;
    forall j: nat | j < k + 1 && j < NPROC ensures NotChild(s', i, j) { assert NotChild(s, i, j); }
    if w == INIT { WokenUp(s, i, INIT, s'.p, ReparentWake(k, w + 1)); }
  }

  lemma ReparentWakeLife(s: State, c: nat)
    requires Inv(s) && Enabled(s, ReparentWakeStep(c))
    ensures Life(Apply(s, ReparentWakeStep(c)))
  {
    var i := s.cpu[c].value;
    assert ProcOk(s, i) && CpuOk(s, c);
    ReparentWakeOk(s, c);
    ExitMoveLife(s, Apply(s, ReparentWakeStep(c)), i, if s.p[i].pc.w < NPROC then s.p[i].pc.w else i);
  }

  lemma ExitWakeOk(s: State, c: nat)
    requires Inv(s) && Enabled(s, ExitWakeStep(c))
    ensures var s', i := Apply(s, ExitWakeStep(c)), s.cpu[c].value; WakeOk(s', i) && ExitOk(s', i)
  {
    var s' := Apply(s, ExitWakeStep(c));
    var i := s.cpu[c].value;
    assert ProcOk(s, i) && CpuOk(s, c) && ExitOk(s, i) && WakeOk(s, i) && ParentOk(s, i);
    var w := s.p[i].pc.w;
    forall j: nat | j < NPROC ensures NotChild(s', i, j) { assert NotChild(s, i, j); }
    if s.p[i].parent == Some(w) { WokenUp(s, i, w, s'.p, ExitWake(w + 1)); }
  }

  lemma ExitWakeLife(s: State, c: nat)
    requires Inv(s) && Enabled(s, ExitWakeStep(c))
    ensures Life(Apply(s, ExitWakeStep(c)))
  {
    var i := s.cpu[c].value;
    assert ProcOk(s, i) && CpuOk(s, c);
    ExitWakeOk(s, c);
    ExitMoveLife(s, Apply(s, ExitWakeStep(c)), i, if s.p[i].pc.w < NPROC then s.p[i].pc.w else i);
  }

  // ---------------------------------------------------------------- whole runs

  lemma WakeOtherKeeps(s: State, k: nat)
    requires Inv(s) && Enabled(s, WakeOther(k))
    ensures Inv(Apply(s, WakeOther(k)))
  {
    WokenStructure(s, k, Woken(s.p[k]));
    WokenLife(s, k, Woken(s.p[k]));
  }

  lemma KillKeeps(s: State, k: nat)
    requires Inv(s) && Enabled(s, Kill(k))
    ensures Inv(Apply(s, Kill(k)))
  {
    WokenStructure(s, k, Woken(s.p[k]).(killed := true));
    WokenLife(s, k, Woken(s.p[k]).(killed := true));
  }

  lemma ForkKeepsStructure(s: State, st: Step)
    requires Inv(s) && Enabled(s, st) && IsFork(st)
    ensures Structure(Apply(s, st))
  {
    match st
    case ForkAlloc(c, np) => ForkAllocStructure(s, c, np);
    case ForkFail(c) => SameStructure(s, Apply(s, st));
    case ForkLink(c) => ForkLinkStructure(s, c);
    case ForkReady(c) => ForkReadyStructure(s, c);
  }

  lemma WaitKeepsStructure(s: State, st: Step)
    requires Inv(s) && Enabled(s, st) && IsWait(st)
    ensures Structure(Apply(s, st))
  {
    match st
    case WaitCall(c) => WaitCallStructure(s, c);
    case WaitAcquire(c) => WaitAcquireStructure(s, c);
    case WaitStep(c) =>
      assert ParentOk(s, Cur(s, c).pc.k);
      WaitStepStructure(s, c);
    case WaitReap(c) => WaitReapStructure(s, c);
    case WaitFault(c) => WaitFaultStructure(s, c);
    case WaitNext(c) => WaitNextStructure(s, c);
    case WaitEnd(c) => WaitEndStructure(s, c);
    case WaitSleepLock(c) => WaitSleepLockStructure(s, c);
    case WaitSleepFree(c) => WaitSleepFreeStructure(s, c);
    case WaitSleepSet(c) => WaitSleepSetStructure(s, c);
  }

  lemma ExitKeepsStructure(s: State, st: Step)
    requires Inv(s) && Enabled(s, st) && !IsSched(st) && !IsFork(st) && !IsWait(st)
    ensures Structure(Apply(s, st))
  {
    match st
    case ExitAcquire(c) => ExitAcquireStructure(s, c);
    case ReparentStep(c) => ReparentStructure(s, c);
    case ReparentWakeStep(c) => ReparentWakeStructure(s, c);
    case ExitWakeStep(c) => ExitWakeStructure(s, c);
    case ExitZombie(c) => ExitZombieStructure(s, c);
    case ExitRelease(c) => ExitReleaseStructure(s, c);
  }

  lemma ForkKeepsLife(s: State, st: Step)
    requires Inv(s) && Enabled(s, st) && IsFork(st)
    ensures Life(Apply(s, st))
  {
    match st
    case ForkAlloc(c, np) => ForkAllocLife(s, c, np);
    case ForkFail(c) => ForkFailLife(s, c);
    case ForkLink(c) => ForkLinkLife(s, c);
    case ForkReady(c) => ForkReadyLife(s, c);
  }

  lemma WaitKeepsLife(s: State, st: Step)
    requires Inv(s) && Enabled(s, st) && IsWait(st)
    ensures Life(Apply(s, st))
  {
    match st
    case WaitCall(c) => WaitCallLife(s, c);
    case WaitAcquire(c) => WaitAcquireLife(s, c);
    case WaitStep(c) => WaitStepLife(s, c);
    case WaitReap(c) => WaitReapLife(s, c);
    case WaitFault(c) => WaitFaultLife(s, c);
    case WaitNext(c) => WaitNextLife(s, c);
    case WaitEnd(c) => WaitEndLife(s, c);
    case WaitSleepLock(c) => WaitSleepLockLife(s, c);
    case WaitSleepFree(c) => WaitSleepFreeLife(s, c);
    case WaitSleepSet(c) => WaitSleepSetLife(s, c);
  }

  lemma ExitKeepsLife(s: State, st: Step)
    requires Inv(s) && Enabled(s, st) && !IsSched(st) && !IsFork(st) && !IsWait(st)
    ensures Life(Apply(s, st))
  {
    match st
    case ExitAcquire(c) => ExitAcquireLife(s, c);
    case ReparentStep(c) => ReparentLife(s, c);
    case ReparentWakeStep(c) => ReparentWakeLife(s, c);
    case ExitWakeStep(c) => ExitWakeLife(s, c);
    case ExitZombie(c) => ExitZombieLife(s, c);
    case ExitRelease(c) => ExitReleaseLife(s, c);
  }

  lemma SchedKeeps(s: State, st: Step)
    requires Inv(s) && Enabled(s, st) && (st.SchedRun? || st.WakeOther? || st.Kill?)
    ensures Inv(Apply(s, st))
  {
    match st
    case SchedRun(c, i) => SchedRunStructure(s, c, i); SchedRunLife(s, c, i);
    case WakeOther(k) => WakeOtherKeeps(s, k);
    case Kill(k) => KillKeeps(s, k);
  }

  lemma Keeps(s: State, st: Step)
    requires Inv(s) && Enabled(s, st)
    ensures Inv(Apply(s, st))
  {
    if st.SchedRun? || st.WakeOther? || st.Kill? {
      SchedKeeps(s, st);
    } else if IsSched(st) {
      if st.SchedRelease? { SchedReleaseStructure(s, st.c); } else { SwitchStructure(s, st); }
      SwitchLife(s, st);
    } else if IsFork(st) {
      ForkKeepsStructure(s, st);
      ForkKeepsLife(s, st);
    } else if IsWait(st) {
      WaitKeepsStructure(s, st);
      WaitKeepsLife(s, st);
    } else {
      ExitKeepsStructure(s, st);
      ExitKeepsLife(s, st);
    }
  }

  const EMPTY: Slot := Slot(UNUSED, None, None, false, 0, None, Kernel, Parked, None, None)

  /** After userinit: initproc is runnable, every other slot is free, every CPU is in its scheduler. */
  ghost predicate Init(s: State) {
    && s.p == seq(NPROC, i => if i == INIT then EMPTY.(state := RUNNABLE, pid := 1) else EMPTY)
    && s.cpu == seq(NCPU, c => None) && s.waitLock == None && s.nextpid == 2 && s.exited == {} && s.reaped == []
  }

  ghost predicate IsRun(ss: seq<State>, steps: seq<Step>) {
    && |ss| == |steps| + 1 && Init(ss[0])
    && forall n :: 0 <= n < |steps| ==> Enabled(ss[n], steps[n]) && ss[n + 1] == Apply(ss[n], steps[n])
  }

  lemma InitHolds(s: State)
    requires Init(s)
    ensures Inv(s)
  {
  }

  lemma {:induction false} RunHolds(ss: seq<State>, steps: seq<Step>, n: nat)
    requires IsRun(ss, steps) && n <= |steps|
    ensures Inv(ss[n])
  {
    if n == 0 {
      InitHolds(ss[0]);
    } else {
      RunHolds(ss, steps, n - 1);
      assert ss[n - 1 + 1] == Apply(ss[n - 1], steps[n - 1]);
      Keeps(ss[n - 1], steps[n - 1]);
    }
  }

  /** Whenever wait frees a slot, that slot is a zombie child of the caller, it is on no CPU, and its
      pid has never been reaped before. */
  lemma ReapIsSafe(ss: seq<State>, steps: seq<Step>, n: nat)
    requires IsRun(ss, steps) && n < |steps| && steps[n].WaitReap?
    ensures At(ss[n], steps[n].c) && Cur(ss[n], steps[n].c).pc.WaitChild?
    ensures var s, k := ss[n], Cur(ss[n], steps[n].c).pc.k;
            && k < NPROC && s.p[k].state == ZOMBIE && s.p[k].parent == s.cpu[steps[n].c]
            && (forall d :: 0 <= d < NCPU ==> s.cpu[d] != Some(k))
            && s.p[k].pid in s.exited && s.p[k].pid !in s.reaped && ss[n + 1].reaped == s.reaped + [s.p[k].pid]
  {
    RunHolds(ss, steps, n);
    var s, c := ss[n], steps[n].c;
    assert Enabled(s, steps[n]) && ss[n + 1] == Apply(s, steps[n]);
    var i, k := s.cpu[c].value, Cur(s, c).pc.k;
    assert CpuOk(s, c) && ProcOk(s, i) && ProcOk(s, k) && LockOk(s, k) && PidOk(s, k);
    forall d: nat | d < NCPU ensures s.cpu[d] != Some(k) { assert CpuOk(s, d); }
  }

  /** No pid is reaped twice, and only pids that exited are reaped. */
  lemma ReapedOnce(ss: seq<State>, steps: seq<Step>, n: nat, m: nat, l: nat)
    requires IsRun(ss, steps) && n <= |steps| && m < l < |ss[n].reaped|
    ensures ss[n].reaped[m] != ss[n].reaped[l] && ss[n].reaped[m] in ss[n].exited
  {
    RunHolds(ss, steps, n);
    assert ReapedOk(ss[n], m);
  }

  /** At every point, also inside exit, a recorded parent is a live process, and every process but
      init that is alive or a zombie has one. */
  lemma ParentsLive(ss: seq<State>, steps: seq<Step>, n: nat, i: nat)
    requires IsRun(ss, steps) && n <= |steps| && i < NPROC
    ensures |ss[n].p| == NPROC
    ensures var t := ss[n].p[i];
            && (t.parent.Some? ==> t.parent.value < NPROC && var q := ss[n].p[t.parent.value];
                                   q.state == RUNNABLE || q.state == RUNNING || q.state == SLEEPING)
            && (i != INIT && t.state != UNUSED && t.state != USED ==> t.parent.Some?)
  {
    RunHolds(ss, steps, n);
    assert ParentOk(ss[n], i);
  }

  /** While wait_lock is free, nobody sleeps in wait with a zombie child. */
  lemma NoMissedExit(ss: seq<State>, steps: seq<Step>, n: nat, q: nat, k: nat)
    requires IsRun(ss, steps) && n <= |steps| && q < NPROC && k < NPROC && ss[n].waitLock == None
    ensures |ss[n].p| == NPROC
    ensures ss[n].p[q].state == SLEEPING && ss[n].p[q].chan == Some(ProcChan(q)) && ss[n].p[k].parent == Some(q) ==>
              ss[n].p[k].state != ZOMBIE
  {
    RunHolds(ss, steps, n);
    assert PairOk(ss[n], k);
  }

  /** None of the panics of sched can happen: a thread about to switch holds its own lock, no other
      process's lock and not wait_lock, and is no longer RUNNING. */
  lemma SchedIsSafe(ss: seq<State>, steps: seq<Step>, n: nat, c: nat, k: nat)
    requires IsRun(ss, steps) && n <= |steps| && k < NPROC && On(ss[n], c) && Cur(ss[n], c).ph == Switching
    ensures Cur(ss[n], c).lock == Some(c) && Cur(ss[n], c).state != RUNNING && ss[n].waitLock != Some(c)
    ensures ss[n].p[k].lock == Some(c) ==> ss[n].cpu[c] == Some(k)
  {
    RunHolds(ss, steps, n);
    var s := ss[n];
    assert CpuOk(s, c) && ProcOk(s, s.cpu[c].value) && LockOk(s, k) && ProcOk(s, k);
  }

  /** No process is on two CPUs, and a RUNNING one is on one. */
  lemma OneCpu(ss: seq<State>, steps: seq<Step>, n: nat, i: nat, c: nat, d: nat)
    requires IsRun(ss, steps) && n <= |steps| && i < NPROC && c < NCPU && d < NCPU
    ensures |ss[n].p| == NPROC && |ss[n].cpu| == NCPU
    ensures ss[n].cpu[c] == ss[n].cpu[d] == Some(i) ==> c == d
    ensures ss[n].p[i].state == RUNNING ==> exists e :: 0 <= e < NCPU && ss[n].cpu[e] == Some(i)
  {
    RunHolds(ss, steps, n);
    assert CpuOk(ss[n], c) && CpuOk(ss[n], d) && ProcOk(ss[n], i);
  }
}

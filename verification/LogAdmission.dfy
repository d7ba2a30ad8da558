/**
  Log space reservation (begin_op, log_write): when an operation that keeps to its
  MAXOPBLOCKS budget is certain to find room in the log, and when it is not.
 */
module LogAdmission {
  import opened LogSpec
  import opened LogProtocol
  import opened LogCrash

  /** The reserved and not yet used log slots of all operations in progress. */
  ghost function Unspent(ops: map<Tid, nat>): int
    decreases |ops|
  {
    if ops == map[] then 0
    else var t :| t in ops; MAXOPBLOCKS - ops[t] + Unspent(ops - {t})
  }

  lemma {:induction false} UnspentWithout(ops: map<Tid, nat>, t: Tid)
    requires t in ops
    ensures Unspent(ops) == MAXOPBLOCKS - ops[t] + Unspent(ops - {t})
    decreases |ops|
  {
    var u :| u in ops && Unspent(ops) == MAXOPBLOCKS - ops[u] + Unspent(ops - {u});
    if u != t {
      UnspentWithout(ops - {u}, t);
      UnspentWithout(ops - {t}, u);
      assert ops - {u} - {t} == ops - {t} - {u};
    }
  }

  lemma UnspentBound(ops: map<Tid, nat>)
    requires forall t :: t in ops ==> ops[t] <= MAXOPBLOCKS
    ensures 0 <= Unspent(ops) <= |ops| * MAXOPBLOCKS
    decreases |ops|
  {
  }

  /** No operation appends more than MAXOPBLOCKS blocks. */
  predicate WithinBudget(s: State, st: Step) {
    st.LogWrite? && st.t in s.ops ==> st.b in s.lh || s.ops[st.t] < MAXOPBLOCKS
  }

  ghost predicate IsBudgetedRun(g: Geometry, ss: seq<State>, steps: seq<Step>) {
    IsRun(g, ss, steps) && forall i :: 0 <= i < |steps| ==> WithinBudget(ss[i], steps[i])
  }

  ghost predicate Reserved(s: State) {
    && (forall t :: t in s.ops ==> s.ops[t] <= MAXOPBLOCKS)
    && |s.lh| + Unspent(s.ops) <= LOGSIZE
  }

  lemma BeginReserves(s: State, s': State, t: Tid)
    requires Reserved(s) && t !in s.ops && s'.ops == s.ops[t := 0] && s'.lh == s.lh
    requires |s.lh| + (|s.ops| + 1) * MAXOPBLOCKS <= LOGSIZE
    ensures Reserved(s')
  {
    UnspentBound(s.ops);
    assert |s.ops| * MAXOPBLOCKS + MAXOPBLOCKS == (|s.ops| + 1) * MAXOPBLOCKS;
    UnspentWithout(s'.ops, t);
    assert s'.ops - {t} == s.ops;
  }

  lemma AppendSpends(s: State, s': State, t: Tid)
    requires Reserved(s) && t in s.ops && s.ops[t] < MAXOPBLOCKS
    requires s'.ops == s.ops[t := s.ops[t] + 1] && |s'.lh| == |s.lh| + 1
    ensures Reserved(s')
  {
    UnspentWithout(s.ops, t);
    UnspentWithout(s'.ops, t);
    assert s'.ops - {t} == s.ops - {t};
  }

  lemma EndReturns(s: State, s': State, t: Tid)
    requires Reserved(s) && t in s.ops && s'.ops == s.ops - {t} && s'.lh == s.lh
    ensures Reserved(s')
  {
    UnspentWithout(s.ops, t);
  }

  lemma ReservedKept(g: Geometry, s: State, st: Step)
    requires Fits(g, s.disk) && CtlInv(s) && Enabled(g, s, st) && WithinBudget(s, st) && Reserved(s)
    requires !s.panicked
    ensures var s' := Apply(g, s, st);
            Reserved(s') || s'.ops == map[]
  {
    var s' := Apply(g, s, st);
    match st
    case BeginOp(t) => BeginReserves(s, s', t);
    case LogWrite(t, b) =>
      if s'.lh == s.lh { assert s'.ops == s.ops; } else { AppendSpends(s, s', t); }
    case EndOp(t) => EndReturns(s, s', t);
    case Crash(_) =>
    case _ => assert s'.ops == map[] || (s'.ops == s.ops && s'.lh == s.lh);
  }

  lemma {:induction false} RunReserved(g: Geometry, ss: seq<State>, steps: seq<Step>, i: nat)
    requires IsBudgetedRun(g, ss, steps) && i <= |steps|
    ensures Reserved(ss[i])
  {
    RunHolds(g, ss, steps, i);
    if i > 0 {
      RunReserved(g, ss, steps, i - 1);
      RunHolds(g, ss, steps, i - 1);
      var s, st := ss[i - 1], steps[i - 1];
      assert WithinBudget(s, st) && Enabled(g, s, st) && ss[i - 1 + 1] == Apply(g, s, st);
      if !s.panicked { ReservedKept(g, s, st); }
    }
  }

  /** A log_write by an operation with reservation left. */
  predicate HasReservation(s: State, st: Step) {
    st.LogWrite? && st.t in s.ops && s.ops[st.t] < MAXOPBLOCKS
  }

  /** With more than LOGSIZE log blocks, n plus the unspent reservations never exceeds LOGSIZE,
      so log_write panics only when the log holds LOGSIZE blocks, never for an operation with
      reservation left. */
  lemma AdmissionSound(g: Geometry, ss: seq<State>, steps: seq<Step>, i: nat)
    requires IsBudgetedRun(g, ss, steps) && i < |steps| && g.size > LOGSIZE
    ensures |ss[i].lh| + Unspent(ss[i].ops) <= LOGSIZE
    ensures HasReservation(ss[i], steps[i]) ==> !ss[i + 1].panicked
    ensures steps[i].LogWrite? ==> (ss[i + 1].panicked <==> |ss[i].lh| == LOGSIZE)
  {
    RunReserved(g, ss, steps, i);
    CommitExclusion(g, ss, steps, i);
    RunHolds(g, ss, steps, i);
    if steps[i].LogWrite? {
      var t := steps[i].t;
      assert Enabled(g, ss[i], steps[i]);
      UnspentWithout(ss[i].ops, t);
      UnspentBound(ss[i].ops - {t});
    }
  }

  // ---------------------------------------------------------------- the other direction

  ghost predicate Reaches(g: Geometry, s: State) {
    exists ss, steps :: IsBudgetedRun(g, ss, steps) && ss[|steps|] == s
  }

  lemma ExtendRun(g: Geometry, ss: seq<State>, steps: seq<Step>, st: Step, s': State)
    requires IsBudgetedRun(g, ss, steps)
    requires var s := ss[|steps|];
             Fits(g, s.disk) && Enabled(g, s, st) && WithinBudget(s, st) && s' == Apply(g, s, st)
    ensures IsBudgetedRun(g, ss + [s'], steps + [st])
  {
    var ss', steps' := ss + [s'], steps + [st];
    forall i | 0 <= i < |steps'|
      ensures Fits(g, ss'[i].disk) && Enabled(g, ss'[i], steps'[i]) && ss'[i + 1] == Apply(g, ss'[i], steps'[i])
              && WithinBudget(ss'[i], steps'[i])
    {
      if i < |steps| { assert ss'[i] == ss[i] && steps'[i] == steps[i] && ss'[i + 1] == ss[i + 1]; }
    }
  }

  lemma Extend(g: Geometry, s: State, st: Step, s': State)
    requires Reaches(g, s) && Fits(g, s.disk) && Enabled(g, s, st) && WithinBudget(s, st)
    requires s' == Apply(g, s, st)
    ensures Reaches(g, s')
  {
    var ss, steps :| IsBudgetedRun(g, ss, steps) && ss[|steps|] == s;
    ExtendRun(g, ss, steps, st, s');
    assert (ss + [s'])[|steps + [st]|] == s';
  }

  /** A disk with an empty log and LOGSIZE + 1 home blocks behind it. */
  function SampleDisk(g: Geometry): Disk {
    seq(g.start + g.size + LOGSIZE + 1, _ => Zeroed())
  }

  /** How many of the first k appends operation t makes: three operations of ten each. */
  function Share(k: nat, t: nat): nat {
    if k <= 10 * t then 0 else if k >= 10 * t + 10 then 10 else k - 10 * t
  }

  function Zeroed(): Block { Block(seq(BWORDS, _ => 0)) }

  function SampleLog(h: nat, k: nat): (s: seq<nat>)
    ensures |s| == k && forall b :: b in s <==> h <= b < h + k
  {
    if k == 0 then [] else SampleLog(h, k - 1) + [h + k - 1]
  }

  function SampleCache(h: nat, k: nat): (c: map<nat, Buf>)
    ensures forall b :: b in c <==> h <= b < h + k
  {
    if k == 0 then map[] else SampleCache(h, k - 1)[h + k - 1 := Buf(true, Zeroed(), 1, None, {}, false, Some(k - 1))]
  }

  /** Three operations are in progress and have logged the k blocks behind the log. */
  function Sample(g: Geometry, k: nat): State {
    var h := g.start + g.size;
    State(SampleDisk(g), SampleCache(h, k), SampleLog(h, k), 3, false,
          map[0 := Share(k, 0), 1 := Share(k, 1), 2 := Share(k, 2)], 0, Idle, false)
  }

  /** bread of an uncached block. */
  function Fetched(s: State, t: Tid, b: nat): State
    requires b < |s.disk|
  {
    SetBuf(s, b, Buf(true, s.disk[b], 1, Some(t), {t}, false, None))
  }

  lemma ReachLocked(g: Geometry, s: State, t: Tid, b: nat)
    requires Reaches(g, s) && Fits(g, s.disk) && !s.panicked && b < |s.disk| && b !in s.cache
    ensures Reaches(g, SetBuf(s, b, Buf(false, Block([]), 1, Some(t), {t}, false, None)))
  {
    var s1 := SetBuf(s, b, Buf(false, Block([]), 1, None, {t}, false, None));
    Extend(g, s, Get(t, b), s1);
    Extend(g, s1, Lock(t, b), SetBuf(s, b, Buf(false, Block([]), 1, Some(t), {t}, false, None)));
  }

  lemma ReachFetched(g: Geometry, s: State, t: Tid, b: nat)
    requires Reaches(g, s) && Fits(g, s.disk) && !s.panicked && b < |s.disk| && b !in s.cache
    ensures Reaches(g, Fetched(s, t, b))
  {
    ReachLocked(g, s, t, b);
    Extend(g, SetBuf(s, b, Buf(false, Block([]), 1, Some(t), {t}, false, None)), Fill(t, b), Fetched(s, t, b));
  }

  /** brelse by the only user. */
  function Released(s: State, b: nat): State
    requires b in s.cache
  {
    SetBuf(s, b, s.cache[b].(lock := None, users := {}, refcnt := s.cache[b].refcnt - 1))
  }

  lemma ReachReleased(g: Geometry, s: State, t: Tid, b: nat)
    requires Reaches(g, s) && Fits(g, s.disk) && !s.panicked && b in s.cache
    requires s.cache[b].lock == Some(t) && s.cache[b].users == {t}
    ensures Reaches(g, Released(s, b))
  {
    var s1 := SetBuf(s, b, s.cache[b].(lock := None));
    Extend(g, s, Unlock(t, b), s1);
    assert {t} - {t} == {};
    Extend(g, s1, Unref(t, b), Released(s, b));
  }

  /** The k-th append, from bread to brelse. */
  function AfterAppend(g: Geometry, k: nat): State
    requires 1 <= g.size && k < LOGSIZE
  {
    var t, b := k / 10, g.start + g.size + k;
    DoLogWrite(g, Fetched(Sample(g, k), t, b), t, b)
  }

  lemma ShareGrows(k: nat, t: nat)
    requires k < LOGSIZE && t < 3
    ensures Share(k + 1, t) == Share(k, t) + if k / 10 == t then 1 else 0
  {
  }

  lemma AppendMakesSample(g: Geometry, k: nat)
    requires 1 <= g.size && k < LOGSIZE && k < g.size - 1
    ensures var b := g.start + g.size + k;
            b in AfterAppend(g, k).cache && Released(AfterAppend(g, k), b) == Sample(g, k + 1)
  {
    var b := g.start + g.size + k;
    var s' := Released(AfterAppend(g, k), b);
    assert s'.cache == SampleCache(g.start + g.size, k + 1);
    assert s'.lh == SampleLog(g.start + g.size, k + 1);
    ShareGrows(k, 0);
    ShareGrows(k, 1);
    ShareGrows(k, 2);
    assert s'.ops == Sample(g, k + 1).ops;
  }

  lemma AppendStep(g: Geometry, k: nat)
    requires 1 <= g.size && k < LOGSIZE
    ensures var t, b := k / 10, g.start + g.size + k;
            var s := Fetched(Sample(g, k), t, b);
            && Fits(g, s.disk) && Enabled(g, s, LogWrite(t, b)) && HasReservation(s, LogWrite(t, b))
            && AfterAppend(g, k) == Apply(g, s, LogWrite(t, b))
  {}

  lemma ReachAppended(g: Geometry, k: nat)
    requires 1 <= g.size && k < LOGSIZE && k < g.size - 1 && Reaches(g, Sample(g, k))
    ensures Reaches(g, AfterAppend(g, k))
  {
    var t, b := k / 10, g.start + g.size + k;
    ReachFetched(g, Sample(g, k), t, b);
    AppendStep(g, k);
    Extend(g, Fetched(Sample(g, k), t, b), LogWrite(t, b), AfterAppend(g, k));
  }

  lemma ReachNext(g: Geometry, k: nat)
    requires 1 <= g.size && k < LOGSIZE && k < g.size - 1 && Reaches(g, Sample(g, k))
    ensures Reaches(g, Sample(g, k + 1))
  {
    ReachAppended(g, k);
    AppendMakesSample(g, k);
    ReachReleased(g, AfterAppend(g, k), k / 10, g.start + g.size + k);
  }

  function Booted(g: Geometry): State {
    State(SampleDisk(g), map[], [], 0, false, map[], 0, Idle, false)
  }

  function HeaderHeld(g: Geometry, pc: Pc): State {
    State(SampleDisk(g), map[g.start := Buf(true, Zeroed(), 1, Some(0), {0}, false, None)], [], 0, false, map[], 0, pc,
          false)
  }

  lemma ReachHeaderHeld(g: Geometry)
    requires 1 <= g.size
    ensures Reaches(g, HeaderHeld(g, BootRead))
  {
    var s := Booted(g).(pc := BootRead);
    var none: seq<Step> := [];
    assert IsBudgetedRun(g, [s], none) && [s][|none|] == s;
    ReachFetched(g, s, 0, g.start);
    assert Fetched(s, 0, g.start) == HeaderHeld(g, BootRead);
  }

  lemma EmptyHeaderRewrite()
    ensures HeaderUpdate(Zeroed(), []) == Zeroed()
  {}

  lemma ReachRecovered(g: Geometry)
    requires 1 <= g.size
    ensures Reaches(g, HeaderHeld(g, Idle))
  {
    ReachHeaderHeld(g);
    Extend(g, HeaderHeld(g, BootRead), ReadHeader, HeaderHeld(g, Replay(0)));
    EmptyHeaderRewrite();
    assert SampleDisk(g)[g.start := Zeroed()] == SampleDisk(g);
    Extend(g, HeaderHeld(g, Replay(0)), FinishRecovery, HeaderHeld(g, Idle));
  }

  lemma ReachBooted(g: Geometry)
    requires 1 <= g.size
    ensures Reaches(g, Booted(g))
  {
    ReachRecovered(g);
    ReachReleased(g, HeaderHeld(g, Idle), 0, g.start);
    Extend(g, Released(HeaderHeld(g, Idle), g.start), Evict(g.start), Booted(g));
  }

  lemma ReachStart(g: Geometry)
    requires 1 <= g.size
    ensures Reaches(g, Sample(g, 0))
  {
    ReachBooted(g);
    var s1 := Booted(g).(outstanding := 1, ops := map[0 := 0]);
    var s2 := Booted(g).(outstanding := 2, ops := map[0 := 0, 1 := 0]);
    Extend(g, Booted(g), BeginOp(0), s1);
    Extend(g, s1, BeginOp(1), s2);
    Extend(g, s2, BeginOp(2), Sample(g, 0));
  }

  lemma {:induction false} ReachSample(g: Geometry, k: nat)
    requires 1 <= g.size && k <= LOGSIZE && k <= g.size - 1
    ensures Reaches(g, Sample(g, k))
  {
    if k == 0 { ReachStart(g); } else { ReachSample(g, k - 1); ReachNext(g, k - 1); }
  }

  /** A reachable state in which an operation with reservation left makes log_write panic. */
  ghost predicate Overruns(g: Geometry, s: State, st: Step) {
    && Reaches(g, s) && Fits(g, s.disk) && Enabled(g, s, st) && HasReservation(s, st)
    && !s.panicked && Apply(g, s, st).panicked
  }

  lemma SmallLogOverruns(g: Geometry)
    requires 1 <= g.size <= LOGSIZE
    ensures exists s, st :: Overruns(g, s, st)
  {
    var k := g.size - 1;
    var t, b := k / 10, g.start + g.size + k;
    ReachSample(g, k);
    ReachFetched(g, Sample(g, k), t, b);
    AppendStep(g, k);
    assert Overruns(g, Fetched(Sample(g, k), t, b), LogWrite(t, b));
  }

  lemma LargeLogNeverOverruns(g: Geometry, s: State, st: Step)
    requires g.size > LOGSIZE
    ensures !Overruns(g, s, st)
  {
    if Overruns(g, s, st) {
      var ss, steps :| IsBudgetedRun(g, ss, steps) && ss[|steps|] == s;
      ExtendRun(g, ss, steps, st, Apply(g, s, st));
      AdmissionSound(g, ss + [Apply(g, s, st)], steps + [st], |steps|);
    }
  }

  /** Reservations are honoured exactly by logs of more than LOGSIZE blocks. mkfs makes the log
      LOGSIZE blocks long, so there the thirtieth append of three full operations panics. */
  lemma AdmissionExact(g: Geometry)
    requires 1 <= g.size
    ensures (forall s, st :: !Overruns(g, s, st)) <==> g.size > LOGSIZE
  {
    if g.size <= LOGSIZE {
      SmallLogOverruns(g);
    } else {
      forall s, st { LargeLogNeverOverruns(g, s, st); }
    }
  }

  lemma {:induction false} SampleFirst(h: nat, k: nat)
    requires k > 0
    ensures SampleCache(h, k)[h] == Buf(true, Zeroed(), 1, None, {}, false, Some(0))
  {
    if k > 1 { SampleFirst(h, k - 1); }
  }

  /** How many blocks fill the log. */
  function Capacity(g: Geometry): nat
    requires 1 <= g.size
  {
    if g.size > LOGSIZE then LOGSIZE else g.size - 1
  }

  /** A block that is logged already, fetched again by operation 0 while the log is full. */
  function Refetched(g: Geometry): State
    requires 1 <= g.size
  {
    SetBuf(Sample(g, Capacity(g)), g.start + g.size, Buf(true, Zeroed(), 2, Some(0), {0}, false, Some(0)))
  }

  lemma ReachRefetched(g: Geometry)
    requires g.size > 1
    ensures Reaches(g, Refetched(g))
  {
    var n := Capacity(g);
    var s, b := Sample(g, n), g.start + g.size;
    ReachSample(g, n);
    SampleFirst(b, n);
    assert {} + {0} == {0};
    var s1 := SetBuf(s, b, Buf(true, Zeroed(), 2, None, {0}, false, Some(0)));
    Extend(g, s, Get(0, b), s1);
    Extend(g, s1, Lock(0, b), Refetched(g));
  }

  /** A reachable state in which log_write panics over a block that the log holds already. */
  ghost predicate AbsorptionPanics(g: Geometry, s: State, st: Step) {
    && Reaches(g, s) && Fits(g, s.disk) && Enabled(g, s, st) && WithinBudget(s, st)
    && st.LogWrite? && st.b in s.lh && !s.panicked && Apply(g, s, st).panicked
  }

  lemma AbsorptionCanPanic(g: Geometry)
    requires g.size > 1
    ensures exists s, st :: AbsorptionPanics(g, s, st)
  {
    ReachRefetched(g);
    assert AbsorptionPanics(g, Refetched(g), LogWrite(0, g.start + g.size));
  }

  /** A log of one block is only a header and never holds anything. */
  lemma NothingLogged(g: Geometry, s: State)
    requires g.size == 1 && Reaches(g, s)
    ensures s.lh == []
  {
    var ss, steps :| IsBudgetedRun(g, ss, steps) && ss[|steps|] == s;
    RunHolds(g, ss, steps, |steps|);
  }

  /** The full-log test comes before absorption, so re-logging a block that is already in a full log
      panics even though nothing would be appended; in every log that can hold a block at all. */
  lemma AbsorptionExact(g: Geometry)
    requires 1 <= g.size
    ensures (exists s, st :: AbsorptionPanics(g, s, st)) <==> g.size > 1
  {
    if g.size > 1 {
      AbsorptionCanPanic(g);
    } else {
      forall s, st ensures !AbsorptionPanics(g, s, st) { if Reaches(g, s) { NothingLogged(g, s); } }
    }
  }
}

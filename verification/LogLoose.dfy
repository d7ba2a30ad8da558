/**
  What log_write is for. writei, after a failed copy, releases a block that it has changed and not
  logged (kernel/fs.c). For every block to which that never happens the log keeps the plain promise:
  a commit makes all changes durable, a crash drops the others, and readers see all changes since.
  A block released in that way can lose its change without any crash.
 */
module LogLoose {
  import opened LogSpec
  import opened LogProtocol
  import opened LogCrash
  import LogAdmission

  datatype Plain = Plain(durable: map<nat, Block>, volatile: map<nat, Block>)

  function PlainStep(pl: Plain, st: Step): Plain {
    match st
    case Modify(t, b, data) => pl.(volatile := pl.volatile[b := data])
    case WriteHeader => pl.(durable := pl.volatile)
    case Crash(_) => pl.(volatile := pl.durable)
    case _ => pl
  }

  function PlainRun(home: map<nat, Block>, steps: seq<Step>): Plain {
    if steps == [] then Plain(home, home)
    else PlainStep(PlainRun(home, steps[..|steps| - 1]), steps[|steps| - 1])
  }

  /** The step lets go of block b, changed and not logged: by brelse, or by the end of the operation. */
  predicate LetsGo(s: State, st: Step, b: nat) {
    && b in s.cache && s.cache[b].dirty
    && match st
       case Unlock(_, c) => c == b
       case EndOp(t) => s.cache[b].lock == Some(t)
       case _ => false
  }

  /** A change that is not logged is still in the hands of the operation that made it. */
  predicate InHand(s: State, b: nat) {
    b in s.cache && s.cache[b].dirty ==> s.cache[b].lock.Some? && s.cache[b].lock.value in s.ops
  }

  /** The step is about one cached block. */
  predicate BlockStep(st: Step) {
    CacheStep(st) || st.Evict? || st.Modify? || st.LogWrite?
  }

  lemma BlockInHand(g: Geometry, s: State, st: Step, b: nat)
    requires Inv(g, s) && Enabled(g, s, st) && BlockStep(st) && InHand(s, b) && !LetsGo(s, st, b)
    ensures InHand(Apply(g, s, st), b)
  {
    if b in s.cache { assert BufOk(g, s, b); }
  }

  lemma OtherInHand(g: Geometry, s: State, st: Step, b: nat)
    requires Inv(g, s) && Enabled(g, s, st) && !BlockStep(st) && InHand(s, b) && !LetsGo(s, st, b)
    ensures InHand(Apply(g, s, st), b)
  {
    if st.InstallBlock? { assert SlotPinned(s, s.pc.tail) && BufOk(g, s, s.lh[s.pc.tail]); }
  }

  lemma InHandKept(g: Geometry, s: State, st: Step, b: nat)
    requires Inv(g, s) && Enabled(g, s, st) && InHand(s, b) && !LetsGo(s, st, b)
    ensures InHand(Apply(g, s, st), b)
  {
    if BlockStep(st) { BlockInHand(g, s, st, b); } else { OtherInHand(g, s, st, b); }
  }

  /** Both specifications say the same about block b. */
  predicate SameAt(sp: Spec, pl: Plain, b: nat) {
    && b in sp.durable && b in pl.durable && sp.durable[b] == pl.durable[b]
    && b in sp.volatile && b in pl.volatile && sp.volatile[b] == pl.volatile[b]
  }

  /** A change in hand is not there when blocks are evicted or headers written. */
  lemma SameKept(g: Geometry, s: State, st: Step, sp: Spec, pl: Plain, b: nat)
    requires Inv(g, s) && Enabled(g, s, st) && Agrees(g, s, sp) && InHand(s, b) && SameAt(sp, pl, b)
    ensures SameAt(SpecStep(sp, st), PlainStep(pl, st), b)
  {
    if b in s.cache { assert BufOk(g, s, b); }
    if !s.panicked { assert b in sp.loose <==> b in s.cache && s.cache[b].dirty; }
  }

  lemma {:induction false} RunSame(g: Geometry, ss: seq<State>, steps: seq<Step>, i: nat, b: nat)
    requires IsRun(g, ss, steps) && i <= |steps| && b < |ss[0].disk| && !InLog(g, b)
    requires forall j :: 0 <= j < i ==> !LetsGo(ss[j], steps[j], b)
    ensures InHand(ss[i], b)
    ensures SameAt(SpecRun(Home(g, ss[0].disk), steps[..i]), PlainRun(Home(g, ss[0].disk), steps[..i]), b)
  {
    if i > 0 {
      RunSame(g, ss, steps, i - 1, b);
      RunHolds(g, ss, steps, i - 1);
      var s, st := ss[i - 1], steps[i - 1];
      assert Enabled(g, s, st) && ss[i - 1 + 1] == Apply(g, s, st);
      assert steps[..i][..i - 1] == steps[..i - 1];
      InHandKept(g, s, st, b);
      var home := Home(g, ss[0].disk);
      SameKept(g, s, st, SpecRun(home, steps[..i - 1]), PlainRun(home, steps[..i - 1]), b);
    }
  }

  /** At every point of every run, for every block that nobody has let go of changed and unlogged: the
      disk recovers it as of the last header write, and readers see its last change since the crash. */
  lemma PlainAtomicity(g: Geometry, ss: seq<State>, steps: seq<Step>, i: nat, b: nat)
    requires IsRun(g, ss, steps) && i <= |steps| && b < |ss[0].disk| && !InLog(g, b)
    requires forall j :: 0 <= j < i ==> !LetsGo(ss[j], steps[j], b)
    ensures HeaderOk(g, ss[i].disk)
    ensures var pl := PlainRun(Home(g, ss[0].disk), steps[..i]);
            && b in pl.durable && b in pl.volatile && b in Recovered(g, ss[i].disk)
            && Recovered(g, ss[i].disk)[b] == pl.durable[b]
            && (!Booting(ss[i]) ==> b in Image(g, ss[i]) && Image(g, ss[i])[b] == pl.volatile[b])
  {
    RunSame(g, ss, steps, i, b);
    CrashAtomicity(g, ss, steps, i);
  }

  // ---------------------------------------------------------------- a change that is lost

  function Ones(): Block {
    Block(seq(BWORDS, _ => 1))
  }

  /** One operation is in progress and nothing is cached. */
  function InOperation(g: Geometry): State {
    LogAdmission.Booted(g).(outstanding := 1, ops := map[0 := 0])
  }

  lemma ReachInOperation(g: Geometry)
    requires 1 <= g.size
    ensures LogAdmission.Reaches(g, InOperation(g))
  {
    LogAdmission.ReachBooted(g);
    LogAdmission.Extend(g, LogAdmission.Booted(g), BeginOp(0), InOperation(g));
  }

  /** The first block behind the log is in the cache. */
  function Cached(g: Geometry, data: Block, refcnt: nat, lock: Option<Tid>, users: set<Tid>, dirty: bool): State {
    SetBuf(InOperation(g), g.start + g.size, Buf(true, data, refcnt, lock, users, dirty, None))
  }

  /** The operation fetches the block, changes it, releases it without log_write, and it is evicted. */
  function CarelessSteps(b: nat): seq<Step> {
    [Modify(0, b, Ones()), Unlock(0, b), Unref(0, b), Evict(b)]
  }

  function Careless(g: Geometry, n: nat): State {
    if n == 0 then Cached(g, LogAdmission.Zeroed(), 1, Some(0), {0}, false)
    else if n == 1 then Cached(g, Ones(), 1, Some(0), {0}, true)
    else if n == 2 then Cached(g, Ones(), 1, None, {0}, true)
    else if n == 3 then Cached(g, Ones(), 0, None, {}, true)
    else InOperation(g)
  }

  lemma ReachCareless(g: Geometry)
    requires 1 <= g.size
    ensures LogAdmission.Reaches(g, Careless(g, 0))
  {
    ReachInOperation(g);
    LogAdmission.ReachFetched(g, InOperation(g), 0, g.start + g.size);
    assert LogAdmission.Fetched(InOperation(g), 0, g.start + g.size) == Careless(g, 0);
  }

  lemma CarelessStep(g: Geometry, n: nat)
    requires 1 <= g.size && n < 4
    ensures var s, st := Careless(g, n), CarelessSteps(g.start + g.size)[n];
            Fits(g, s.disk) && Enabled(g, s, st) && Careless(g, n + 1) == Apply(g, s, st)
  {
    assert {0} - {0} == {};
  }

  lemma {:induction false} CarelessRun(g: Geometry, n: nat)
    returns (ss: seq<State>, steps: seq<Step>, first: seq<Step>)
    requires 1 <= g.size && n <= 4
    ensures LogAdmission.IsBudgetedRun(g, ss, steps) && ss[|steps|] == Careless(g, n)
    ensures steps == first + CarelessSteps(g.start + g.size)[..n]
  {
    var all := CarelessSteps(g.start + g.size);
    if n == 0 {
      ReachCareless(g);
      ss, steps :| LogAdmission.IsBudgetedRun(g, ss, steps) && ss[|steps|] == Careless(g, 0);
      first := steps;
    } else {
      ss, steps, first := CarelessRun(g, n - 1);
      CarelessStep(g, n - 1);
      LogAdmission.ExtendRun(g, ss, steps, all[n - 1], Careless(g, n));
      ss, steps := ss + [Careless(g, n)], steps + [all[n - 1]];
      assert all[..n] == all[..n - 1] + [all[n - 1]];
    }
  }

  lemma PlainMore(home: map<nat, Block>, steps: seq<Step>, st: Step)
    ensures PlainRun(home, steps + [st]) == PlainStep(PlainRun(home, steps), st)
  {
    assert (steps + [st])[..|steps|] == steps;
  }

  /** The plain promise keeps the change. */
  lemma PlainKeeps(home: map<nat, Block>, first: seq<Step>, b: nat)
    ensures var pl := PlainRun(home, first + CarelessSteps(b)); b in pl.volatile && pl.volatile[b] == Ones()
  {
    var m, u, r, e := Modify(0, b, Ones()), Unlock(0, b), Unref(0, b), Evict(b);
    PlainMore(home, first, m);
    PlainMore(home, first + [m], u);
    PlainMore(home, first + [m] + [u], r);
    PlainMore(home, first + [m] + [u] + [r], e);
    assert first + CarelessSteps(b) == first + [m] + [u] + [r] + [e];
  }

  predicate Differ(m: map<nat, Block>, m': map<nat, Block>, b: nat) {
    b in m && b in m' && m[b] != m'[b]
  }

  /** Four steps without a crash undo a change for all readers, in every geometry. */
  lemma ChangeLost(g: Geometry) returns (ss: seq<State>, steps: seq<Step>)
    requires 1 <= g.size
    ensures IsRun(g, ss, steps) && |steps| >= 4 && steps[|steps| - 4..] == CarelessSteps(g.start + g.size)
    ensures !Booting(ss[|steps|])
    ensures Differ(Image(g, ss[|steps|]), PlainRun(Home(g, ss[0].disk), steps).volatile, g.start + g.size)
  {
    var first;
    ss, steps, first := CarelessRun(g, 4);
    var b := g.start + g.size;
    assert CarelessSteps(b)[..4] == CarelessSteps(b);
    PlainKeeps(Home(g, ss[0].disk), first, b);
    assert Ones().w[0] != LogAdmission.Zeroed().w[0];
  }
}

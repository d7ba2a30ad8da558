/**
  kernel/proc.c and kernel/kalloc.c: the memory of all processes together. Every page that the
  allocator was given at boot is on the free list or is held by exactly one process, whatever the
  processes do; no process changes a page of another; and when all are gone every page is back.
  A clause `P(..) == true` says P(..) and keeps it one fact, which the verifier does not take apart.
 */
module Spaces {
  import opened PageTable
  import opened Vm
  import opened AddressSpace

  const NPROC: nat := 64

  ghost function Owned(procs: map<nat, Proc>, trees: map<nat, Tree>, i: nat): set<nat> {
    if i in procs && i in trees then Holds(procs[i], trees[i]) else {}
  }

  ghost function AllOwned(procs: map<nat, Proc>, trees: map<nat, Tree>): set<nat> {
    set i, q | i in procs && q in Owned(procs, trees, i) :: q
  }

  ghost predicate Apart(procs: map<nat, Proc>, trees: map<nat, Tree>, i: nat, j: nat) {
    i in procs && j in procs && i != j ==> Owned(procs, trees, i) !! Owned(procs, trees, j)
  }

  ghost predicate FitsAt(m: Mem, pool: set<nat>, procs: map<nat, Proc>, trees: map<nat, Tree>, i: nat) {
    i in procs ==> i < NPROC && i in trees && Fits(m, pool, procs[i], trees[i])
  }

  /** The pages of `all` are divided between the pool and the processes, and memory holds them all. */
  ghost predicate World(m: Mem, pool: set<nat>, procs: map<nat, Proc>, trees: map<nat, Tree>, all: set<nat>) {
    && trees.Keys == procs.Keys && pool + AllOwned(procs, trees) == all
    && (forall i {:trigger FitsAt(m, pool, procs, trees, i)} :: FitsAt(m, pool, procs, trees, i))
    && (forall i, j {:trigger Apart(procs, trees, i, j)} :: Apart(procs, trees, i, j))
  }

  /** Only process i is different, comes or goes. */
  ghost predicate OnlyAt<T>(a: map<nat, T>, b: map<nat, T>, i: nat) {
    forall j {:trigger j in a} {:trigger j in b} :: j != i ==> (j in b <==> j in a) && (j in a ==> b[j] == a[j])
  }

  /** No other process has lost a page or had one changed. */
  ghost predicate OthersKeep(m: Mem, m': Mem, procs: map<nat, Proc>, trees: map<nat, Tree>, i: nat) {
    forall j {:trigger Owned(procs, trees, j)} :: j in procs && j != i ==> Same(m, m', Owned(procs, trees, j))
  }

  lemma OneMoved(m: Mem, m': Mem, pool: set<nat>, pool': set<nat>, procs: map<nat, Proc>, procs': map<nat, Proc>,
                 trees: map<nat, Tree>, trees': map<nat, Tree>, all: set<nat>, i: nat, j: nat)
    requires World(m, pool, procs, trees, all) && OnlyAt(procs, procs', i) && OnlyAt(trees, trees', i) && j != i
             && j in procs
    requires Kept(m, m', Owned(procs, trees, i) + pool) && forall q :: q in m' ==> |m'[q].w| == ENTRIES
    requires Owned(procs', trees', i) + pool' == Owned(procs, trees, i) + pool
    ensures FitsAt(m', pool', procs', trees', j) && Same(m, m', Owned(procs, trees, j))
    ensures Owned(procs', trees', j) == Owned(procs, trees, j) && Owned(procs', trees', i) !! Owned(procs', trees', j)
  {
    assert FitsAt(m, pool, procs, trees, j) && Apart(procs, trees, i, j);
    Bystander(m, m', pool, pool', procs[j], trees[j], Owned(procs, trees, i));
  }

  /** Pages that move between one process and the pool leave the world in order. */
  lemma WorldKept(m: Mem, m': Mem, pool: set<nat>, pool': set<nat>, procs: map<nat, Proc>, procs': map<nat, Proc>,
                  trees: map<nat, Tree>, trees': map<nat, Tree>, all: set<nat>, i: nat)
    requires World(m, pool, procs, trees, all) && OnlyAt(procs, procs', i) && OnlyAt(trees, trees', i)
    requires Kept(m, m', Owned(procs, trees, i) + pool) && forall q :: q in m' ==> |m'[q].w| == ENTRIES
    requires Owned(procs', trees', i) + pool' == Owned(procs, trees, i) + pool
    requires trees'.Keys == procs'.Keys && FitsAt(m', pool', procs', trees', i)
    ensures World(m', pool', procs', trees', all) && OthersKeep(m, m', procs, trees, i)
  {
    forall j ensures FitsAt(m', pool', procs', trees', j) {
      if j != i && j in procs' { OneMoved(m, m', pool, pool', procs, procs', trees, trees', all, i, j); }
    }
    forall a, b ensures Apart(procs', trees', a, b) {
      if a in procs' && b in procs' && a != b {
        assert Apart(procs, trees, a, b);
        if a != i { OneMoved(m, m', pool, pool', procs, procs', trees, trees', all, i, a); }
        if b != i { OneMoved(m, m', pool, pool', procs, procs', trees, trees', all, i, b); }
      }
    }
    forall j | j in procs && j != i ensures Same(m, m', Owned(procs, trees, j)) {
      OneMoved(m, m', pool, pool', procs, procs', trees, trees', all, i, j);
    }
    SameTotal(pool, pool', procs, procs', trees, trees', i);
  }

  lemma SameTotal(pool: set<nat>, pool': set<nat>, procs: map<nat, Proc>, procs': map<nat, Proc>,
                  trees: map<nat, Tree>, trees': map<nat, Tree>, i: nat)
    requires OnlyAt(procs, procs', i) && OnlyAt(trees, trees', i)
    requires Owned(procs', trees', i) + pool' == Owned(procs, trees, i) + pool
    ensures pool' + AllOwned(procs', trees') == pool + AllOwned(procs, trees)
  {
    Included(pool, pool', procs, procs', trees, trees', i);
    Included(pool', pool, procs', procs, trees', trees, i);
  }

  lemma Included(pool: set<nat>, pool': set<nat>, procs: map<nat, Proc>, procs': map<nat, Proc>,
                 trees: map<nat, Tree>, trees': map<nat, Tree>, i: nat)
    requires OnlyAt(procs, procs', i) && OnlyAt(trees, trees', i)
    requires Owned(procs, trees, i) + pool <= Owned(procs', trees', i) + pool'
    ensures pool + AllOwned(procs, trees) <= pool' + AllOwned(procs', trees')
  {
    forall q | q in pool + AllOwned(procs, trees) ensures q in pool' + AllOwned(procs', trees') {
      if q in Owned(procs, trees, i) + pool {
        assert q in Owned(procs', trees', i) + pool';
        if q in Owned(procs', trees', i) { assert i in procs'; }
      } else {
        var j :| j in procs && q in Owned(procs, trees, j);
        assert j in procs' && Owned(procs', trees', j) == Owned(procs, trees, j);
      }
    }
  }

  /** A new process. */
  lemma WorldMore(m: Mem, m': Mem, pool: set<nat>, pool': set<nat>, procs: map<nat, Proc>, trees: map<nat, Tree>,
                  all: set<nat>, c: nat, p: Proc, t: Tree)
    requires World(m, pool, procs, trees, all) && c !in procs && c < NPROC && Fits(m', pool', p, t)
    requires Kept(m, m', pool) && Holds(p, t) + pool' == pool && forall q :: q in m' ==> |m'[q].w| == ENTRIES
    ensures World(m', pool', procs[c := p], trees[c := t], all) && OthersKeep(m, m', procs, trees, c)
  {
    WorldKept(m, m', pool, pool', procs, procs[c := p], trees, trees[c := t], all, c);
  }

  /** An attempt that failed. */
  lemma WorldSame(m: Mem, m': Mem, pool: set<nat>, procs: map<nat, Proc>, trees: map<nat, Tree>, all: set<nat>, c: nat)
    requires World(m, pool, procs, trees, all) && c !in procs
    requires Kept(m, m', pool) && forall q :: q in m' ==> |m'[q].w| == ENTRIES
    ensures World(m', pool, procs, trees, all) && OthersKeep(m, m', procs, trees, c)
  {
    WorldKept(m, m', pool, pool, procs, procs, trees, trees, all, c);
  }

  lemma Emptied(m: Mem, pool: set<nat>, procs: map<nat, Proc>, trees: map<nat, Tree>, all: set<nat>)
    requires World(m, pool, procs, trees, all) && forall j :: 0 <= j < NPROC ==> j !in procs
    ensures procs == map[] && pool == all
  {
    forall j ensures j !in procs { assert FitsAt(m, pool, procs, trees, j); }
    assert AllOwned(procs, trees) == {};
  }

  /** What there is at one time; `denied` counts the failed calls of kalloc. */
  datatype State = State(mem: Mem, pool: set<nat>, procs: map<nat, Proc>, trees: map<nat, Tree>, denied: nat)

  /** The scan of allocproc ended at c, and process c was made or nothing was taken. No other process changed. */
  ghost predicate Made(s: State, s': State, ok: bool, c: nat) {
    && c !in s.procs && c <= NPROC && (forall j :: 0 <= j < c ==> j in s.procs)
    && OthersKeep(s.mem, s'.mem, s.procs, s.trees, c)
    && (!ok <==> c == NPROC || s'.denied != s.denied)
    && (!ok ==> s'.procs == s.procs && s'.trees == s.trees && s'.pool == s.pool)
    && (ok ==> c in s'.procs && s'.procs == s.procs[c := s'.procs[c]])
    && (ok ==> c in s'.trees && s'.trees == s.trees[c := s'.trees[c]])
  }

  /** The new process has no user memory. */
  ghost predicate Spawned(s: State, s': State, ok: bool, c: nat) {
    Made(s, s', ok, c) && (ok ==> s'.procs[c].sz == 0 && s'.trees[c].held == map[])
  }

  /** The new process has the memory and the registers of process i. */
  ghost predicate Cloned(s: State, s': State, i: nat, ok: bool, c: nat) {
    && Made(s, s', ok, c) && i in s.procs && i in s.trees
    && (ok ==> Forked(s.mem, s'.mem, s.procs[i], s.trees[i], s'.procs[c], s'.trees[c]))
  }

  /** sbrk of n bytes by process i: r is the old size, or -1 exactly if memory ran out. No other process changed. */
  ghost predicate Sized(s: State, s': State, i: nat, n: int, r: int) {
    && i in s.procs && i in s.trees && i in s'.procs && i in s'.trees
    && s'.procs == s.procs[i := s'.procs[i]] && s'.trees == s.trees[i := s'.trees[i]]
    && Regrown(s.mem, s'.mem, s.procs[i], s.trees[i], s'.procs[i], s'.trees[i], n, r != -1)
    && (r != -1 ==> r == s.procs[i].sz) && (r == -1 <==> s'.denied != s.denied) && (n <= 0 ==> r != -1)
    && OthersKeep(s.mem, s'.mem, s.procs, s.trees, i)
  }

  /** Process i is gone, and its pages are in the pool. */
  ghost predicate Gone(s: State, s': State, i: nat) {
    && s'.procs == s.procs - {i} && s'.trees == s.trees - {i} && s'.pool == s.pool + Owned(s.procs, s.trees, i)
    && OthersKeep(s.mem, s'.mem, s.procs, s.trees, i)
  }

  /** What processes do to memory. A slot that is not in use does nothing. */
  datatype Op = Spawn | Sbrk(i: nat, n: int) | Fork(i: nat) | Reap(i: nat)

  predicate Acts(procs: map<nat, Proc>, op: Op) {
    match op
    case Spawn => true
    case Sbrk(i, n) => i in procs && -0x80000000 <= n < 0x80000000
    case Fork(i) => i in procs
    case Reap(i) => i in procs
  }

  /** The operation takes s to s'. */
  ghost predicate Does(op: Op, s: State, s': State) {
    if !Acts(s.procs, op) then s' == s
    else
      match op
      case Spawn => exists ok, c :: Spawned(s, s', ok, c)
      case Sbrk(i, n) => exists r :: Sized(s, s', i, n, r)
      case Fork(i) => exists ok, c :: Cloned(s, s', i, ok, c)
      case Reap(i) => Gone(s, s', i)
  }

  ghost predicate StateOk(s: State, all: set<nat>) {
    World(s.mem, s.pool, s.procs, s.trees, all)
  }

  /** The states that a run of ops goes through: each in order, and each operation takes one to the next. */
  ghost predicate Trail(ops: seq<Op>, trail: seq<State>, all: set<nat>) {
    && |trail| == |ops| + 1 && (forall j :: 0 <= j < |trail| ==> StateOk(trail[j], all))
    && forall j :: 0 <= j < |ops| ==> Does(ops[j], trail[j], trail[j + 1])
  }

  lemma TrailMore(ops: seq<Op>, trail: seq<State>, all: set<nat>, op: Op, s: State)
    requires Trail(ops, trail, all) && Does(op, trail[|ops|], s) && StateOk(s, all)
    ensures Trail(ops + [op], trail + [s], all)
  {
  }

  class System {
    const k: Kernel
    const trampoline: nat
    ghost const all: set<nat>
    ghost const ram: set<nat>
    var procs: map<nat, Proc>
    ghost var trees: map<nat, Tree>

    ghost predicate Valid()
      reads this, k
    {
      && k.Pool() == true && World(k.mem, k.pool, procs, trees, all) == true
      && k.mem.Keys == ram && |ram| <= RAM
    }

    ghost function Now(): State
      reads this, k
    {
      State(k.mem, k.pool, procs, trees, k.denied)
    }

    constructor (k: Kernel, trampoline: nat)
      requires k.Pool() && |k.mem.Keys| <= RAM
      ensures Valid() && this.k == k && all == k.pool && procs == map[]
    {
      this.k, this.trampoline := k, trampoline;
      all, ram, procs, trees := k.pool, k.mem.Keys, map[], map[];
    }

    /** The scan of allocproc: the first slot that is not in use, or NPROC. */
    method FindSlot() returns (i: nat)
      ensures i <= NPROC && (forall j :: 0 <= j < i ==> j in procs) && (i < NPROC ==> i !in procs)
    {
      i := 0;
      while i < NPROC
        invariant i <= NPROC && forall j :: 0 <= j < i ==> j in procs
      {
        if i !in procs {
          return;
        }
        i := i + 1;
      }
    }

    /** The end of an attempt to make process c, which began with memory m0 and the pool p0. */
    method Enter(ok: bool, c: nat, p: Proc, ghost t: Tree, ghost m0: Mem, ghost p0: set<nat>)
      requires k.Pool() && World(m0, p0, procs, trees, all) && c !in procs && c < NPROC && Kept(m0, k.mem, p0)
      requires if ok then Fits(k.mem, k.pool, p, t) && Holds(p, t) + k.pool == p0 else k.pool == p0
      requires m0.Keys == ram && |ram| <= RAM
      modifies this
      ensures Valid() && OthersKeep(m0, k.mem, old(procs), old(trees), c)
      ensures procs == if ok then old(procs)[c := p] else old(procs)
      ensures trees == if ok then old(trees)[c := t] else old(trees)
    {
      if ok {
        WorldMore(m0, k.mem, p0, k.pool, procs, trees, all, c, p, t);
        procs, trees := procs[c := p], trees[c := t];
      } else {
        WorldSame(m0, k.mem, p0, procs, trees, all, c);
      }
    }

    /** allocproc, as userinit calls it: a process without user memory, or nothing taken. */
    method Spawn() returns (ok: bool, c: nat)
      requires Valid()
      modifies this, k
      ensures Valid() && Spawned(old(Now()), Now(), ok, c)
    {
      c := FindSlot();
      if c == NPROC {
        assert FitsAt(k.mem, k.pool, procs, trees, c);
        return false, c;
      }
      var p; ghost var t;
      ok, p, t := AllocProc(k, trampoline);
      Enter(ok, c, p, t, old(k.mem), old(k.pool));
    }

    /** fork: the child has the parent's memory and registers on pages of its own; nobody else changes. */
    method Fork(i: nat) returns (ok: bool, c: nat)
      requires Valid() && i in procs
      modifies this, k
      ensures Valid() && Cloned(old(Now()), Now(), i, ok, c)
    {
      c := FindSlot();
      assert FitsAt(k.mem, k.pool, procs, trees, i);
      if c == NPROC {
        assert FitsAt(k.mem, k.pool, procs, trees, c);
        return false, c;
      }
      var p; ghost var t;
      ok, p, t := ForkProc(k, procs[i], trampoline, trees[i]);
      Enter(ok, c, p, t, old(k.mem), old(k.pool));
    }

    /** sys_sbrk: -1, or the old size. */
    method Sbrk(i: nat, n: int) returns (r: int)
      requires Valid() && i in procs && -0x80000000 <= n < 0x80000000
      modifies this, k
      ensures Valid() && Sized(old(Now()), Now(), i, n, r)
    {
      r := procs[i].sz;
      assert FitsAt(k.mem, k.pool, procs, trees, i);
      var ok, p, t := ResizeProc(k, procs[i], n, trees[i]);
      procs, trees := procs[i := p], trees[i := t];
      WorldKept(old(k.mem), k.mem, old(k.pool), k.pool, old(procs), procs, old(trees), trees, all, i);
      r := if ok then r else -1;
    }

    /** freeproc, as wait calls it: the slot is free again and its pages are back in the pool. */
    method Reap(i: nat)
      requires Valid() && i in procs
      modifies this, k
      ensures Valid() && Gone(old(Now()), Now(), i)
    {
      assert FitsAt(k.mem, k.pool, procs, trees, i);
      FreeProc(k, procs[i], trees[i]);
      procs, trees := procs - {i}, trees - {i};
      WorldKept(old(k.mem), k.mem, old(k.pool), k.pool, old(procs), procs, old(trees), trees, all, i);
    }

    method Clear(i: nat)
      requires Valid()
      modifies this, k
      ensures Valid() && i !in procs && procs.Keys <= old(procs).Keys
    {
      if i in procs {
        Reap(i);
      }
    }

    method Step(op: Op)
      requires Valid()
      modifies this, k
      ensures Valid() == true && Does(op, old(Now()), Now()) == true
    {
      if !Acts(procs, op) {
        return;
      }
      match op
      case Spawn => var ok, c := Spawn();
      case Sbrk(i, n) => var r := Sbrk(i, n);
      case Fork(i) => var ok, c := Fork(i);
      case Reap(i) => Reap(i);
    }

    /** The pages of processes that are all gone are all back. */
    method ReapAll()
      requires Valid()
      modifies this, k
      ensures Valid() && procs == map[] && k.pool == all
    {
      for i := 0 to NPROC
        invariant Valid() == true && forall j :: 0 <= j < i ==> j !in procs
      {
        Clear(i);
      }
      Emptied(k.mem, k.pool, procs, trees, all);
    }

    /** Conservation: whatever the processes do and wherever an allocation fails, in every state of the run the pool
        and the processes together hold the pages that the allocator started with, each once; and after every
        process has been reaped the pool is what it was. */
    method Run(ops: seq<Op>) returns (ghost trail: seq<State>)
      requires Valid()
      modifies this, k
      ensures Trail(ops, trail, all) && trail[0] == old(Now())
      ensures Valid() && procs == map[] && k.pool == all
    {
      trail := [Now()];
      for j := 0 to |ops|
        invariant Valid() == true && Trail(ops[..j], trail, all) == true && trail[0] == old(Now()) && trail[j] == Now()
      {
        Step(ops[j]);
        TrailMore(ops[..j], trail, all, ops[j], Now());
        trail := trail + [Now()];
        assert ops[..j] + [ops[j]] == ops[..j + 1];
      }
      assert ops[..|ops|] == ops;
      ReapAll();
    }
  }
}

/**
  kernel/proc.c and kernel/vm.c: user address spaces. One is created with the trampoline and the
  trapframe, grows and shrinks, is copied by fork, and is freed.
  A clause `P(..) == true` says P(..) and keeps it one fact, which the verifier does not take apart.
 */
module AddressSpace {
  import opened PageTable
  import opened Vm
  import opened FreeWalk
  import opened Sets

  const TRAMPOLINE: nat := MAXVPN - 1
  const TRAPFRAME: nat := MAXVPN - 2
  const PTE_W: nat := 4
  const RX: nat := 10           // PTE_R | PTE_X
  const RW: nat := 6            // PTE_R | PTE_W
  const A0: nat := 14           // the word of the trapframe that holds a0
  const REGISTERS: nat := 36    // the words of struct trapframe
  const RAM: nat := 32768       // pages between KERNBASE and PHYSTOP

  lemma AllUnderRoot(m: Mem, t: Tree)
    requires TableOk(m, t)
    ensures SubTree(t, ROOT) == t.own.Keys
  {
    forall p | p in t.own ensures Under(t.own[p], ROOT) {
      assert OwnOk(t, p);
      var k := t.own[p];
      assert NodeOk(m, t, k);
      if k.level < 2 {
        var k1 := Key(k.level + 1, k.prefix / ENTRIES);
        assert NodeOk(m, t, k1);
        if k1.level < 2 { assert NodeOk(m, t, Key(2, k1.prefix / ENTRIES)); }
      }
    }
  }

  /** A table without leaves is ready for freewalk. */
  lemma Bare(m: Mem, t: Tree)
    requires TableOk(m, t) && t.leaf == map[]
    ensures Skeleton(t) && SubMem(m, t, ROOT) && t.held == map[] && ROOT in t.tab && SubTree(t, ROOT) == t.own.Keys
  {
    AllUnderRoot(m, t);
    forall key | key in t.tab ensures KeyOk(t, key) { assert NodeOk(m, t, key); }
    forall k | k in t.tab && Under(k, ROOT) ensures NodeIn(m, t, k) { assert NodeOk(m, t, k) && Entries(m, t, k); }
    forall f ensures f !in t.held { if f in t.held { NoLeaf(m, t, f); } }
  }

  lemma NoLeaf(m: Mem, t: Tree, f: nat)
    requires TableOk(m, t) && f in t.held
    ensures t.leaf != map[]
  {
    assert HeldOk(m, t, f);
  }

  method UvmCreate(k: Kernel) returns (root: nat, ghost t: Tree)
    requires k.Pool()
    modifies k
    ensures root == 0 <==> k.denied != old(k.denied)
    ensures k.Pool() && (root == 0 ==> k.pool == old(k.pool)) && Kept(old(k.mem), k.mem, old(k.pool))
    ensures root != 0 ==>
              k.Ok(t) && IsRoot(t, root) && t.leaf == map[] && t.held == map[] && t.own.Keys + k.pool == old(k.pool)
  {
    root := k.Kalloc();
    t := Tree(map[], map[], map[], map[]);
    if root == 0 {
      return;
    }
    k.mem := k.mem[root := Zeros()];
    t := Tree(map[ROOT := root], map[root := ROOT], map[], map[]);
    assert NodeOk(k.mem, t, ROOT);
    assert Entries(k.mem, t, ROOT);
    assert OwnOk(t, root);
  }

  /** The first half of uvmfree. */
  method UnmapUser(k: Kernel, root: nat, sz: nat, ghost t: Tree) returns (ghost t1: Tree)
    requires k.Ok(t) && IsRoot(t, root) && RoundUp(sz) <= MAXVPN && AllBacked(t, RoundUp(sz))
    requires forall v :: v in t.leaf ==> v < RoundUp(sz)
    modifies k
    ensures k.denied == old(k.denied)
    ensures k.Ok(t1) && t1.leaf == map[] && t1.tab == t.tab && Shed(t, t1, old(k.mem), k.mem, old(k.pool), k.pool)
  {
    t1 := t;
    if sz > 0 {
      t1 := k.UvmUnmap(root, 0, RoundUp(sz), true, t);
      forall v ensures v !in t1.leaf { CutAt(t, 0, RoundUp(sz), v); }
    }
  }

  /** uvmfree: the user pages and then the table go back to the pool. */
  method UvmFree(k: Kernel, root: nat, sz: nat, ghost t: Tree)
    requires k.Ok(t) && IsRoot(t, root) && RoundUp(sz) <= MAXVPN && AllBacked(t, RoundUp(sz))
    requires forall v :: v in t.leaf ==> v < RoundUp(sz)
    modifies k
    ensures k.denied == old(k.denied)
    ensures k.Pool() && k.pool == old(k.pool) + Pages(t) && Kept(old(k.mem), k.mem, Pages(t))
  {
    ghost var t1 := UnmapUser(k, root, sz, t);
    Bare(k.mem, t1);
    ghost var m1, p1 := k.mem, k.pool;
    Freewalk(k, root, ROOT, t1);
    AllBack(t, t1, old(k.mem), m1, k.mem, old(k.pool), p1, k.pool);
  }

  lemma AllBack(t: Tree, t1: Tree, m: Mem, m1: Mem, m2: Mem, p: set<nat>, p1: set<nat>, p2: set<nat>)
    requires Shed(t, t1, m, m1, p, p1) && t1.held == map[] && Kept(m1, m2, t1.own.Keys) && p2 == p1 + t1.own.Keys
    ensures p2 == p + Pages(t) && Kept(m, m2, Pages(t))
  {
    assert Pages(t1) == t1.own.Keys;
  }

  // ---------------------------------------------------------------- a process's address space

  predicate Legal(v: nat, n: nat) {
    v < n || v == TRAMPOLINE || v == TRAPFRAME
  }

  /** Pages 0..n-1 backed by own frames, the two system pages, and nothing else. */
  ghost predicate SpaceOk(t: Tree, n: nat) {
    && n <= TRAPFRAME && AllBacked(t, n)
    && Removable(t, TRAMPOLINE, false) && Removable(t, TRAPFRAME, false)
    && forall v :: v in t.leaf ==> Legal(v, n)
  }

  lemma SpaceGrown(m: Mem, t: Tree, t': Tree, lo: nat, img: seq<Frame>)
    requires SpaceOk(t, lo) && Extends(t, t', lo, lo + |img|) && AllLoaded(m, t', lo, img) && lo + |img| <= TRAPFRAME
    ensures SpaceOk(t', lo + |img|)
  {
    var hi := lo + |img|;
    LoadedRemovable(m, t', lo, img);
    forall v: nat | v < hi ensures Removable(t', v, true) {
      if v < lo {
        assert Removable(t, v, true) && LeafExt(t, t', lo, hi, v) && HeldExt(t, t', lo, hi, t.leaf[v] / FLAGS);
      }
    }
    forall v: nat | v in t'.leaf ensures Legal(v, hi) { assert LeafExt(t, t', lo, hi, v); }
    assert LeafExt(t, t', lo, hi, TRAMPOLINE) && LeafExt(t, t', lo, hi, TRAPFRAME);
    forall f | f in t'.held ensures t'.held[f] != TRAMPOLINE && t'.held[f] != TRAPFRAME {
      assert HeldExt(t, t', lo, hi, f);
    }
  }

  lemma SpaceShrunk(m: Mem, t: Tree, lo: nat, n: nat)
    requires SpaceOk(t, lo + n) && TableOk(m, t)
    ensures SpaceOk(Cut(t, lo, n), lo)
  {
    var c := Cut(t, lo, n);
    forall v: nat | v < lo ensures Removable(c, v, true) { assert Removable(t, v, true); CutAt(t, lo, n, v); }
    forall v: nat | v in c.leaf ensures Legal(v, lo) { CutAt(t, lo, n, v); }
    CutAt(t, lo, n, TRAMPOLINE);
    CutAt(t, lo, n, TRAPFRAME);
    RangeOf(t, lo, n);
    forall f | f in c.held ensures c.held[f] != TRAMPOLINE && c.held[f] != TRAPFRAME {
      if f in t.held { assert HeldOk(m, t, f); }
      CutHeld(t, lo, n, f);
    }
  }

  lemma RangeOf(t: Tree, lo: nat, n: nat)
    requires AllBacked(t, lo + n)
    ensures RangeRemovable(t, lo, lo + n, true)
  {
  }

  /** Both system pages, or neither. */
  method MapSystemPages(k: Kernel, root: nat, trampoline: nat, trapframe: nat, ghost t: Tree)
    returns (ok: bool, ghost t': Tree)
    requires k.Ok(t) && IsRoot(t, root) && t.leaf == map[] && t.held == map[]
    modifies k
    ensures ok <==> k.denied == old(k.denied)
    ensures k.Ok(t') && IsRoot(t', root) && Grew(t, t', old(k.mem), k.mem, old(k.pool), k.pool)
    ensures t'.leaf == if ok then map[TRAMPOLINE := Pte(trampoline, RX), TRAPFRAME := Pte(trapframe, RW)] else map[]
  {
    ok, t' := k.MapPage(root, TRAMPOLINE, trampoline, RX, t);
    if !ok {
      return;
    }
    ghost var t1, m1, p1 := t', k.mem, k.pool;
    ok, t' := k.MapPage(root, TRAPFRAME, trapframe, RW, t');
    GrewTrans(t, t1, t', old(k.mem), m1, k.mem, old(k.pool), p1, k.pool);
    if !ok {
      ghost var t2, m2, p2 := t', k.mem, k.pool;
      t' := k.UvmUnmap(root, TRAMPOLINE, 1, false, t');
      ShedGrew(t, t2, t', old(k.mem), m2, k.mem, old(k.pool), p2, k.pool);
      forall v ensures v !in t'.leaf { CutAt(t2, TRAMPOLINE, 1, v); }
      return;
    }
  }

  lemma ShedGrew(t: Tree, t2: Tree, t3: Tree, m: Mem, m2: Mem, m3: Mem, p: set<nat>, p2: set<nat>, p3: set<nat>)
    requires Grew(t, t2, m, m2, p, p2) && Shed(t2, t3, m2, m3, p2, p3) && t.held == map[]
    ensures Grew(t, t3, m, m3, p, p3)
  {
    assert t3.held.Keys == {};
    assert Pages(t3) == t3.own.Keys && Pages(t2) == t2.own.Keys;
    assert t3.held == map[];
  }

  /** proc_pagetable: a table with the two system pages, or nothing taken. */
  method ProcPagetable(k: Kernel, trampoline: nat, trapframe: nat) returns (root: nat, ghost t: Tree)
    requires k.Pool()
    modifies k
    ensures root == 0 <==> k.denied != old(k.denied)
    ensures k.Pool() && (root == 0 ==> k.pool == old(k.pool)) && Kept(old(k.mem), k.mem, old(k.pool))
    ensures root != 0 ==> k.Ok(t) && IsRoot(t, root) && t.held == map[] && t.own.Keys + k.pool == old(k.pool)
    ensures root != 0 ==> t.leaf == map[TRAMPOLINE := Pte(trampoline, RX), TRAPFRAME := Pte(trapframe, RW)]
  {
    root, t := UvmCreate(k);
    if root == 0 {
      return;
    }
    var ok;
    ok, t := MapSystemPages(k, root, trampoline, trapframe, t);
    if !ok {
      assert Pages(t) == t.own.Keys;
      UvmFree(k, root, 0, t);
      return 0, t;
    }
  }

  /** proc_freepagetable: every table page and every user frame goes back; nothing else changes. */
  method ProcFreepagetable(k: Kernel, root: nat, sz: nat, ghost t: Tree)
    requires k.Ok(t) && IsRoot(t, root) && SpaceOk(t, RoundUp(sz))
    modifies k
    ensures k.denied == old(k.denied)
    ensures k.Pool() && k.pool == old(k.pool) + Pages(t) && Kept(old(k.mem), k.mem, Pages(t))
  {
    ghost var n := RoundUp(sz);
    ghost var t1 := k.UvmUnmap(root, TRAMPOLINE, 1, false, t);
    SystemPageGone(t, TRAMPOLINE, n);
    ghost var t2 := k.UvmUnmap(root, TRAPFRAME, 1, false, t1);
    SystemPageGone(t1, TRAPFRAME, n);
    UvmFree(k, root, sz, t2);
  }

  /** Unmapping a system page leaves the user pages and all frames. */
  lemma SystemPageGone(t: Tree, v: nat, n: nat)
    requires n <= v && AllBacked(t, n) && NotHeld(t, v) && v in t.leaf
    ensures AllBacked(Cut(t, v, 1), n) && Cut(t, v, 1).held == t.held && Cut(t, v, 1).leaf == t.leaf - {v}
  {
    assert Cut(t, v, 1) == Drop(Cut(t, v, 0), v);
    forall u: nat | u < n ensures Removable(Cut(t, v, 1), u, true) { assert Removable(t, u, true); }
  }

  // ---------------------------------------------------------------- growing and shrinking

  /** The user pages below n and the system pages keep their translation. */
  ghost predicate KeepsPages(t: Tree, t': Tree, n: nat) {
    forall v: nat {:trigger v in t'.leaf} :: Legal(v, n) ==> v in t.leaf && v in t'.leaf && t'.leaf[v] == t.leaf[v]
  }

  lemma GrownKeeps(t: Tree, t': Tree, lo: nat, hi: nat)
    requires SpaceOk(t, lo) && Extends(t, t', lo, hi)
    ensures KeepsPages(t, t', lo)
  {
    forall v: nat | Legal(v, lo) ensures v in t.leaf && v in t'.leaf && t'.leaf[v] == t.leaf[v] {
      assert v < lo ==> Removable(t, v, true);
      assert LeafExt(t, t', lo, hi, v);
    }
  }

  lemma ShrunkKeeps(t: Tree, lo: nat, n: nat)
    requires SpaceOk(t, lo + n)
    ensures KeepsPages(t, Cut(t, lo, n), lo)
  {
    forall v: nat | Legal(v, lo) ensures v in t.leaf && v in Cut(t, lo, n).leaf && Cut(t, lo, n).leaf[v] == t.leaf[v] {
      assert v < lo ==> Removable(t, v, true);
      CutAt(t, lo, n, v);
    }
  }

  lemma SameSpace(t: Tree, t': Tree, n: nat)
    requires SpaceOk(t, n) && t'.leaf == t.leaf && t'.held == t.held
    ensures SpaceOk(t', n) && KeepsPages(t, t', n)
  {
    SameRemovable(t, t', 0, n);
    forall v: nat | v < n ensures v in t.leaf { assert Removable(t, v, true); }
  }

  /** The frames that back the first n pages of t have not changed. */
  ghost predicate KeepsFrames(m: Mem, m': Mem, t: Tree, n: nat) {
    m'.Keys == m.Keys && forall f :: f in t.held && t.held[f] < n && f in m ==> m'[f] == m[f]
  }

  /** Pages that keep their translation and their frame keep their contents. */
  lemma {:induction false} ImageKept(m: Mem, m': Mem, t: Tree, t': Tree, k: nat, n: nat)
    requires k <= n && AllBacked(t, n) && KeepsPages(t, t', n) && KeepsFrames(m, m', t, n)
    ensures Image(m', t', k) == Image(m, t, k)
  {
    if k > 0 {
      ImageKept(m, m', t, t', k - 1, n);
      assert Removable(t, k - 1, true) && k - 1 in t'.leaf;
    }
  }

  lemma HeldKept(m: Mem, m': Mem, t: Tree, p: set<nat>, n: nat)
    requires TableOk(m, t) && Kept(m, m', t.own.Keys + p) && p !! t.held.Keys
    ensures KeepsFrames(m, m', t, n)
  {
    forall f | f in t.held ensures f !in t.own { assert HeldOk(m, t, f); }
  }

  lemma CutKept(m: Mem, m': Mem, t: Tree, lo: nat, n: nat, p: set<nat>, p': set<nat>)
    requires TableOk(m, t) && SpaceOk(t, lo + n) && Shed(t, Cut(t, lo, n), m, m', p, p')
    ensures KeepsFrames(m, m', t, lo)
  {
    RangeOf(t, lo, n);
    forall f | f in t.held && t.held[f] < lo ensures f !in t.own && f in Cut(t, lo, n).held {
      assert HeldOk(m, t, f);
      CutHeld(t, lo, n, f);
    }
  }

  /** Pages were moved between the tree and the pool, and only they have changed. */
  ghost predicate Moved(t: Tree, t': Tree, m: Mem, m': Mem, pool: set<nat>, pool': set<nat>) {
    Pages(t') + pool' == Pages(t) + pool && Kept(m, m', Pages(t) + pool)
  }

  method Grow(k: Kernel, root: nat, sz: nat, n: nat, ghost t: Tree) returns (ok: bool, sz': nat, ghost t': Tree)
    requires k.Ok(t) && IsRoot(t, root) && SpaceOk(t, RoundUp(sz)) && 0 < n && sz + n <= TRAPFRAME * PGSIZE
    modifies k
    ensures ok <==> k.denied == old(k.denied)
    ensures k.Ok(t') && IsRoot(t', root) && SpaceOk(t', RoundUp(sz')) && sz' == (if ok then sz + n else sz)
    ensures Moved(t, t', old(k.mem), k.mem, old(k.pool), k.pool) && KeepsPages(t, t', RoundUp(sz))
    ensures KeepsFrames(old(k.mem), k.mem, t, RoundUp(sz))
    ensures AllLoaded(k.mem, t', RoundUp(sz), Blank(RoundUp(sz') - RoundUp(sz), UserPerm(PTE_W)))
  {
    forall v | RoundUp(sz) <= v < RoundUp(sz + n) ensures v !in t.leaf { assert !Legal(v, RoundUp(sz)); }
    var r;
    r, ok, t' := k.UvmAlloc(root, sz, sz + n, PTE_W, t);
    ghost var lo, hi := RoundUp(sz), RoundUp(sz + n);
    HeldKept(old(k.mem), k.mem, t, old(k.pool), lo);
    if r == 0 {
      SameSpace(t, t', lo);
      return false, sz, t';
    }
    SpaceGrown(k.mem, t, t', lo, Blank(hi - lo, UserPerm(PTE_W)));
    GrownKeeps(t, t', lo, hi);
    return true, r, t';
  }

  /** uvmdealloc as growproc calls it; 64-bit sizes wrap, so asking for less than nothing changes nothing. */
  method Shrink(k: Kernel, root: nat, sz: nat, n: nat, ghost t: Tree) returns (sz': nat, ghost t': Tree)
    requires k.Ok(t) && IsRoot(t, root) && SpaceOk(t, RoundUp(sz)) && n <= 0x80000000
    modifies k
    ensures k.denied == old(k.denied)
    ensures k.Ok(t') && IsRoot(t', root) && SpaceOk(t', RoundUp(sz')) && sz' == if n <= sz then sz - n else sz
    ensures Moved(t, t', old(k.mem), k.mem, old(k.pool), k.pool) && KeepsPages(t, t', RoundUp(sz'))
    ensures KeepsFrames(old(k.mem), k.mem, t, RoundUp(sz'))
  {
    var newsz := if n <= sz then sz - n else 0x1_0000_0000_0000_0000 + sz - n;
    if newsz < sz {
      ghost var lo, gone := RoundUp(newsz), RoundUp(sz) - RoundUp(newsz);
      RangeOf(t, lo, gone);
      sz', t' := k.UvmDealloc(root, sz, newsz, t);
      SpaceShrunk(old(k.mem), t, lo, gone);
      ShrunkKeeps(t, lo, gone);
      CutKept(old(k.mem), k.mem, t, lo, gone, old(k.pool), k.pool);
    } else {
      sz', t' := sz, t;
      SameSpace(t, t, RoundUp(sz));
    }
  }

  /** The size after sbrk(n) that succeeds. */
  function Resized(sz: nat, n: int): nat {
    if sz + n >= 0 then sz + n else sz
  }

  ghost function FramesBelow(t: Tree, n: nat): set<nat> {
    set f | f in t.held && t.held[f] < n
  }

  /** Each page has a frame of its own. */
  lemma {:induction false} FramesCount(m: Mem, t: Tree, k: nat, n: nat)
    requires TableOk(m, t) && AllBacked(t, n) && k <= n
    ensures |FramesBelow(t, k)| == k
  {
    forall f | f in t.held ensures t.held[f] in t.leaf && t.leaf[t.held[f]] / FLAGS == f { assert HeldOk(m, t, f); }
    if k == 0 {
      assert FramesBelow(t, 0) == {};
    } else {
      FramesCount(m, t, k - 1, n);
      assert Removable(t, k - 1, true);
      assert FramesBelow(t, k) == FramesBelow(t, k - 1) + {t.leaf[k - 1] / FLAGS};
    }
  }

  /** A process has no more pages than the machine. */
  lemma Crowded(m: Mem, t: Tree, n: nat)
    requires TableOk(m, t) && AllBacked(t, n)
    ensures n <= |m.Keys|
  {
    FramesCount(m, t, n, n);
    forall f | f in t.held ensures f in m { assert HeldOk(m, t, f); }
    SubsetSize(FramesBelow(t, n), m.Keys);
  }

  /** The size up to which growproc maps pages when it is asked for n more bytes: no further than the trapframe. */
  function Reach(sz: nat, n: nat): nat {
    if sz + n <= TRAPFRAME * PGSIZE then sz + n else TRAPFRAME * PGSIZE
  }

  /** growproc. The pages below the smaller of the two sizes keep contents and flags; new ones are zero. It fails
      exactly when memory runs out, which is before the growth can reach the trapframe. */
  method GrowProc(k: Kernel, root: nat, sz: nat, n: int, ghost t: Tree) returns (ok: bool, sz': nat, ghost t': Tree)
    requires k.Ok(t) && IsRoot(t, root) && SpaceOk(t, RoundUp(sz)) && -0x80000000 <= n < 0x80000000
    requires |k.mem.Keys| <= RAM
    modifies k
    ensures k.Ok(t') && IsRoot(t', root) && SpaceOk(t', RoundUp(sz')) && sz' == (if ok then Resized(sz, n) else sz)
    ensures !ok <==> k.denied != old(k.denied)
    ensures n <= 0 ==> ok
    ensures Moved(t, t', old(k.mem), k.mem, old(k.pool), k.pool)
            && KeepsPages(t, t', RoundUp(if n < 0 then sz' else sz))
    ensures KeepsFrames(old(k.mem), k.mem, t, RoundUp(if n < 0 then sz' else sz))
    ensures n >= 0 ==> AllLoaded(k.mem, t', RoundUp(sz), Blank(RoundUp(sz') - RoundUp(sz), UserPerm(PTE_W)))
  {
    ok, sz', t' := true, sz, t;
    SameSpace(t, t, RoundUp(sz));
    Crowded(k.mem, t, RoundUp(sz));
    if n > 0 {
      ok, sz', t' := Grow(k, root, sz, Reach(sz, n) - sz, t);
      Crowded(k.mem, t', RoundUp(sz'));
    } else if n < 0 {
      sz', t' := Shrink(k, root, sz, -n, t);
    }
  }

  // ---------------------------------------------------------------- processes

  lemma {:induction false} ImageLoaded(m: Mem, t: Tree, m0: Mem, s: Tree, n: nat, k: nat)
    requires k <= n && AllLoaded(m, t, 0, Image(m0, s, n))
    ensures Image(m, t, k) == Image(m0, s, n)[..k]
  {
    if k > 0 {
      ImageLoaded(m, t, m0, s, n, k - 1);
      var img := Image(m0, s, n);
      assert Loaded(m, t, 0 + (k - 1), img[k - 1]);
      assert img[..k] == img[..k - 1] + [img[k - 1]];
    }
  }

  /** What allocproc fills in and freeproc gives back: the page table, its size and the trapframe page. */
  datatype Proc = Proc(root: nat, sz: nat, trapframe: nat)

  ghost function Holds(p: Proc, t: Tree): set<nat> {
    Pages(t) + {p.trapframe}
  }

  /** Memory holds the process p, whose table is the tree t. */
  ghost predicate Fits(m: Mem, pool: set<nat>, p: Proc, t: Tree) {
    && TableOk(m, t) && IsRoot(t, p.root) && SpaceOk(t, RoundUp(p.sz)) && Holds(p, t) !! pool
    && p.trapframe in m && p.trapframe != 0 && p.trapframe !in Pages(t)
    && t.leaf[TRAPFRAME] == Pte(p.trapframe, RW)
  }

  /** A process is not affected by what happens to the pages of others and of the pool. */
  lemma Bystander(m: Mem, m': Mem, pool: set<nat>, pool': set<nat>, p: Proc, t: Tree, theirs: set<nat>)
    requires Fits(m, pool, p, t) && Holds(p, t) !! theirs && Kept(m, m', theirs + pool) && pool' <= theirs + pool
    requires forall q :: q in m' ==> |m'[q].w| == ENTRIES
    ensures Fits(m', pool', p, t) && Same(m, m', Holds(p, t))
  {
    forall f | f in t.held ensures IsPage(m', f) { assert HeldOk(m, t, f); }
    TableFrame(m, m', t);
  }

  /** A process whose user memory has been resized. */
  lemma Refitted(m: Mem, m': Mem, pool: set<nat>, pool': set<nat>, p: Proc, sz: nat, t: Tree, t': Tree, n: nat)
    requires Fits(m, pool, p, t) && Moved(t, t', m, m', pool, pool') && KeepsPages(t, t', n)
    requires TableOk(m', t') && pool' !! t'.own.Keys && pool' !! t'.held.Keys && IsRoot(t', p.root)
             && SpaceOk(t', RoundUp(sz))
    ensures Fits(m', pool', p.(sz := sz), t')
    ensures Holds(p.(sz := sz), t') + pool' == Holds(p, t) + pool && Kept(m, m', Holds(p, t) + pool)
  {
    assert Legal(TRAPFRAME, n) && TRAPFRAME in t'.leaf;
    assert p.trapframe !in Pages(t) + pool;
  }

  /** p' is p after sbrk(n), which did or did not succeed: pages that stay keep contents and flags, and new ones are
      zero. */
  ghost predicate Regrown(m: Mem, m': Mem, p: Proc, t: Tree, p': Proc, t': Tree, n: int, ok: bool) {
    && p' == p.(sz := if ok then Resized(p.sz, n) else p.sz)
    && (var b := RoundUp(if n < 0 then p'.sz else p.sz); Image(m', t', b) == Image(m, t, b))
    && (n >= 0 ==> AllLoaded(m', t', RoundUp(p.sz), Blank(RoundUp(p'.sz) - RoundUp(p.sz), UserPerm(PTE_W))))
  }

  /** growproc on a process. */
  method ResizeProc(k: Kernel, p: Proc, n: int, ghost t: Tree) returns (ok: bool, p': Proc, ghost t': Tree)
    requires k.Pool() && Fits(k.mem, k.pool, p, t) && -0x80000000 <= n < 0x80000000 && |k.mem.Keys| <= RAM
    modifies k
    ensures k.Pool() && Fits(k.mem, k.pool, p', t') == true && Kept(old(k.mem), k.mem, Holds(p, t) + old(k.pool))
    ensures Holds(p', t') + k.pool == Holds(p, t) + old(k.pool)
    ensures (!ok <==> k.denied != old(k.denied)) && (n <= 0 ==> ok)
    ensures Regrown(old(k.mem), k.mem, p, t, p', t', n, ok) == true
  {
    var sz';
    ok, sz', t' := GrowProc(k, p.root, p.sz, n, t);
    p' := p.(sz := sz');
    ghost var b := RoundUp(if n < 0 then sz' else p.sz);
    Refitted(old(k.mem), k.mem, old(k.pool), k.pool, p, sz', t, t', b);
    ImageKept(old(k.mem), k.mem, t, t', b, b);
  }

  /** allocproc once it has a slot: all of a process's kernel memory, or nothing. */
  method AllocProc(k: Kernel, trampoline: nat) returns (ok: bool, p: Proc, ghost t: Tree)
    requires k.Pool()
    modifies k
    ensures ok <==> k.denied == old(k.denied)
    ensures k.Pool() && Kept(old(k.mem), k.mem, old(k.pool)) && (!ok ==> k.pool == old(k.pool))
    ensures ok ==> Fits(k.mem, k.pool, p, t) && p.sz == 0 && t.held == map[] && Holds(p, t) + k.pool == old(k.pool)
    ensures ok ==> k.mem[p.trapframe] == Fill(5)
  {
    var trapframe := k.Kalloc();
    p, t := Proc(0, 0, trapframe), Tree(map[], map[], map[], map[]);
    if trapframe == 0 {
      return false, p, t;
    }
    var root;
    root, t := ProcPagetable(k, trampoline, trapframe);
    if root == 0 {
      k.Kfree(trapframe);
      return false, p, t;
    }
    return true, Proc(root, 0, trapframe), t;
  }

  /** freeproc: everything that the process holds goes back, and nothing else changes. */
  method FreeProc(k: Kernel, p: Proc, ghost t: Tree)
    requires k.Pool() && Fits(k.mem, k.pool, p, t)
    modifies k
    ensures k.denied == old(k.denied)
    ensures k.Pool() && k.pool == old(k.pool) + Holds(p, t) && Kept(old(k.mem), k.mem, Holds(p, t))
  {
    k.GiveBack(p.trapframe, t);
    ProcFreepagetable(k, p.root, p.sz, t);
  }

  /** The trapframe page that fork gives the child: the parent's registers, with 0 in a0, and what kalloc left. */
  function ChildFrame(f: Page): (r: Page)
    requires |f.w| == ENTRIES
    ensures |r.w| == ENTRIES && r.w[A0] == 0 && r.w[REGISTERS..] == Fill(5).w[REGISTERS..]
    ensures forall j :: 0 <= j < REGISTERS && j != A0 ==> r.w[j] == f.w[j]
  {
    Page(f.w[..REGISTERS][A0 := 0] + Fill(5).w[REGISTERS..])
  }

  /** The child c has the parent's memory and registers. */
  ghost predicate Forked(m0: Mem, m: Mem, p: Proc, s: Tree, c: Proc, t: Tree) {
    && c.sz == p.sz && Image(m, t, RoundUp(p.sz)) == Image(m0, s, RoundUp(p.sz))
    && IsPage(m0, p.trapframe) && c.trapframe in m && m[c.trapframe] == ChildFrame(m0[p.trapframe])
  }

  /** Copying the trapframe leaves both address spaces alone. */
  lemma FrameCopied(m0: Mem, m: Mem, pool: set<nat>, p: Proc, s: Tree, c: Proc, t: Tree)
    requires Fits(m, pool, c, t) && IsPage(m, p.trapframe)
    requires IsPage(m0, p.trapframe) && m[p.trapframe] == m0[p.trapframe] && c.sz == p.sz
    requires Image(m, t, RoundUp(p.sz)) == Image(m0, s, RoundUp(p.sz))
    ensures var m' := m[c.trapframe := ChildFrame(m[p.trapframe])]; Fits(m', pool, c, t) && Forked(m0, m', p, s, c, t)
  {
    var m' := m[c.trapframe := ChildFrame(m[p.trapframe])];
    PoolWrite(m, m', t, c.trapframe);
    SameSpace(t, t, RoundUp(c.sz));
    ImageKept(m, m', t, t, RoundUp(c.sz), RoundUp(c.sz));
  }

  /** uvmcopy into the fresh process c. */
  method CopyInto(k: Kernel, p: Proc, c: Proc, ghost s: Tree, ghost t0: Tree) returns (ok: bool, ghost t: Tree)
    requires k.Pool() && Fits(k.mem, k.pool, p, s) && Fits(k.mem, k.pool, c, t0) && c.sz == 0 && t0.held == map[]
    requires Holds(p, s) !! Holds(c, t0)
    modifies k
    ensures ok <==> k.denied == old(k.denied)
    ensures k.Pool() && Kept(old(k.mem), k.mem, Pages(t0) + old(k.pool)) && Pages(t) + k.pool == Pages(t0) + old(k.pool)
    ensures !ok ==> Fits(k.mem, k.pool, c, t)
    ensures ok ==>
              Fits(k.mem, k.pool, c.(sz := p.sz), t) && k.mem[c.trapframe] == old(k.mem[c.trapframe])
              && Image(k.mem, t, RoundUp(p.sz)) == Image(old(k.mem), s, RoundUp(p.sz))
  {
    ghost var n := RoundUp(p.sz);
    forall v | 0 <= v < n ensures v !in t0.leaf { assert !Legal(v, 0); }
    ok, t := k.UvmCopy(p.root, c.root, p.sz, s, t0);
    if ok {
      SpaceGrown(k.mem, t0, t, 0, Image(old(k.mem), s, n));
      assert LeafExt(t0, t, 0, n, TRAPFRAME);
      ImageLoaded(k.mem, t, old(k.mem), s, n, n);
    } else {
      SameSpace(t0, t, 0);
    }
  }

  lemma ParentImage(m0: Mem, m: Mem, p: Proc, s: Tree, p0: set<nat>)
    requires Fits(m0, p0, p, s) && Kept(m0, m, p0)
    ensures Image(m, s, RoundUp(p.sz)) == Image(m0, s, RoundUp(p.sz))
  {
    SameSpace(s, s, RoundUp(p.sz));
    ImageKept(m0, m, s, s, RoundUp(p.sz), RoundUp(p.sz));
  }

  lemma ChildKept(m0: Mem, m1: Mem, m2: Mem, p0: set<nat>, p1: set<nat>, p2: set<nat>, c: Proc, t0: Tree, t: Tree)
    requires Kept(m0, m1, p0) && Kept(m1, m2, Pages(t0) + p1) && Holds(c, t0) + p1 == p0
             && Pages(t) + p2 == Pages(t0) + p1
    ensures Kept(m0, m2, p0) && Holds(c, t) + p2 == p0
  {
    assert Holds(c, t) + p2 == Holds(c, t0) + p1;
  }

  /** The child's trapframe is filled in. */
  method CopyFrame(k: Kernel, p: Proc, c: Proc, ghost s: Tree, ghost t: Tree, ghost m0: Mem)
    requires k.Pool() && Fits(k.mem, k.pool, c, t) && c.sz == p.sz
             && Image(k.mem, t, RoundUp(p.sz)) == Image(m0, s, RoundUp(p.sz))
    requires IsPage(k.mem, p.trapframe) && IsPage(m0, p.trapframe) && k.mem[p.trapframe] == m0[p.trapframe]
    requires k.mem[c.trapframe] == Fill(5)
    modifies k
    ensures k.denied == old(k.denied)
    ensures k.Pool() && k.pool == old(k.pool) && Kept(old(k.mem), k.mem, {c.trapframe})
    ensures Fits(k.mem, k.pool, c, t) && Forked(m0, k.mem, p, s, c, t)
  {
    FrameCopied(m0, k.mem, k.pool, p, s, c, t);
    var from, to := k.mem[p.trapframe].w, k.mem[c.trapframe].w;
    to := from[..REGISTERS] + to[REGISTERS..];
    to := to[A0 := 0];
    assert Page(to) == ChildFrame(k.mem[p.trapframe]);
    k.mem := k.mem[c.trapframe := Page(to)];
  }

  /** fork after allocproc has made c: memory was m0 and the pool p0 before that. */
  method FillChild(k: Kernel, p: Proc, made: Proc, ghost s: Tree, ghost t0: Tree, ghost m0: Mem, ghost p0: set<nat>)
    returns (ok: bool, c: Proc, ghost t: Tree)
    requires k.Pool() && Fits(k.mem, k.pool, p, s) && Fits(m0, p0, p, s) && Kept(m0, k.mem, p0)
    requires Fits(k.mem, k.pool, made, t0) && made.sz == 0 && t0.held == map[] && Holds(made, t0) + k.pool == p0
    requires IsPage(m0, p.trapframe) && k.mem[made.trapframe] == Fill(5)
    modifies k
    ensures ok <==> k.denied == old(k.denied)
    ensures k.Pool() && Kept(m0, k.mem, p0) && (!ok ==> k.pool == p0)
    ensures ok ==>
              Fits(k.mem, k.pool, c, t) == true && Holds(c, t) + k.pool == p0 && Forked(m0, k.mem, p, s, c, t) == true
  {
    ok, t := CopyInto(k, p, made, s, t0);
    ChildKept(m0, old(k.mem), k.mem, p0, old(k.pool), k.pool, made, t0, t);
    if !ok {
      FreeProc(k, made, t);
      return false, made, t;
    }
    c := made.(sz := p.sz);
    ParentImage(m0, old(k.mem), p, s, p0);
    CopyFrame(k, p, c, s, t, m0);
  }

  /** fork: a child with the parent's contents and flags on pages of its own, or nothing taken. */
  method ForkProc(k: Kernel, p: Proc, trampoline: nat, ghost s: Tree) returns (ok: bool, c: Proc, ghost t: Tree)
    requires k.Pool() && Fits(k.mem, k.pool, p, s)
    modifies k
    ensures ok <==> k.denied == old(k.denied)
    ensures k.Pool() && Kept(old(k.mem), k.mem, old(k.pool)) && (!ok ==> k.pool == old(k.pool))
    ensures ok ==> Fits(k.mem, k.pool, c, t) && Holds(c, t) + k.pool == old(k.pool)
    ensures ok ==> Forked(old(k.mem), k.mem, p, s, c, t)
  {
    ok, c, t := AllocProc(k, trampoline);
    if !ok {
      return;
    }
    Bystander(old(k.mem), k.mem, old(k.pool), k.pool, p, s, {});
    ok, c, t := FillChild(k, p, c, s, t, old(k.mem), old(k.pool));
  }
}

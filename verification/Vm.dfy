/**
  kernel/vm.c and kernel/kalloc.c: page tables and frames in physical memory, updated in place. Each
  method is given the tree that memory holds and returns the tree it leaves; `pool` is the set of
  pages on the free list.
  A clause `P(..) == true` says P(..) and keeps it one fact, which the verifier does not take apart.
 */
module Vm {
  import opened PageTable

  /** The free list visits each page of the pool once. */
  ghost predicate FreeOk(free: seq<nat>, pool: set<nat>) {
    if free == [] then pool == {} else free[0] in pool && FreeOk(free[1..], pool - {free[0]})
  }

  lemma {:induction false} FreeSize(free: seq<nat>, pool: set<nat>)
    requires FreeOk(free, pool)
    ensures |free| == |pool|
  {
    if free != [] { FreeSize(free[1..], pool - {free[0]}); }
  }

  /** A page in front of the free list leaves every page on it once exactly if it was not on it. */
  lemma FreedOnce(free: seq<nat>, pool: set<nat>, pa: nat)
    requires FreeOk(free, pool)
    ensures FreeOk([pa] + free, pool + {pa}) <==> pa !in pool
  {
    var more := [pa] + free;
    assert more[1..] == free;
    if pa in pool {
      FreeSize(free, pool);
      if FreeOk(free, pool - {pa}) { FreeSize(free, pool - {pa}); }
      assert pool + {pa} - {pa} == pool - {pa};
    } else {
      assert pool + {pa} - {pa} == pool;
    }
  }

  /** Only pages of `may` have changed. */
  ghost predicate Kept(m: Mem, m': Mem, may: set<nat>) {
    m'.Keys == m.Keys && forall p :: p in m && p !in may ==> m'[p] == m[p]
  }

  ghost function Pages(t: Tree): set<nat> {
    t.own.Keys + t.held.Keys
  }

  lemma ShiftUp(v: nat, level: nat)
    requires v < MAXVPN && level <= 2
    ensures Shift(v, level + 1) == Shift(v, level) / ENTRIES
    ensures Shift(v, level + 1) * ENTRIES + Shift(v, level) % ENTRIES == Shift(v, level)
  {
  }

  /** t' has more table pages than t and the same translation. */
  ghost predicate Grown(t: Tree, t': Tree) {
    && t'.leaf == t.leaf && t'.held == t.held && t.own.Keys <= t'.own.Keys
    && forall key :: key in t.tab ==> key in t'.tab && t'.tab[key] == t.tab[key]
  }

  /** The effect of walk's allocation: the child page comes from the pool, is zeroed and is hung in. */
  lemma HangOk(m: Mem, t: Tree, pool: set<nat>, key: Key, child: nat)
    requires TableOk(m, t) && child in pool && pool !! t.own.Keys && pool !! t.held.Keys && child != 0 && child in m
    requires key.level < 2 && key !in t.tab && Key(key.level + 1, key.prefix / ENTRIES) in t.tab
    requires IsPage(m, t.tab[Key(key.level + 1, key.prefix / ENTRIES)])
    ensures var m1, t' := m[child := Zeros()], AddTable(t, key, child);
            CanAdd(m1, t, key, child) && TableOk(Hung(m1, t, key, child), t')
              && Kept(m, Hung(m1, t, key, child), t.own.Keys + pool)
    ensures var t' := AddTable(t, key, child);
            && Grown(t, t') && t'.own.Keys + (pool - {child}) == t.own.Keys + pool
            && (pool - {child}) !! t'.own.Keys && (pool - {child}) !! t'.held.Keys
  {
    var m1 := m[child := Zeros()];
    assert NodeOk(m, t, Key(key.level + 1, key.prefix / ENTRIES));
    forall f | f in t.held ensures IsPage(m1, f) { assert HeldOk(m, t, f); }
    TableFrame(m, m1, t);
    AddTableOk(m1, t, key, child);
  }

  /** An entry of a table page above level 0 names the child there, or is empty. */
  lemma EntryNames(m: Mem, t: Tree, key: Key, k: nat)
    requires TableOk(m, t) && key in t.tab && key.level > 0 && k < ENTRIES
    ensures IsPage(m, t.tab[key])
    ensures var down, pte := Key(key.level - 1, key.prefix * ENTRIES + k), m[t.tab[key]].w[k];
            && (pte % 2 == 1 <==> down in t.tab)
            && (down in t.tab ==> pte / FLAGS == t.tab[down] && t.tab[down] != 0)
  {
    assert NodeOk(m, t, key) && Entries(m, t, key) && EntryOk(m, t, key, k);
    var down := Key(key.level - 1, key.prefix * ENTRIES + k);
    if down in t.tab {
      assert NodeOk(m, t, down);
      PteParts(t.tab[down]);
    }
  }

  lemma PteParts(p: nat)
    ensures (p * FLAGS + PTE_V) % 2 == 1 && (p * FLAGS + PTE_V) / FLAGS == p
  {
    PteOdd(p);
    PteFrame(p);
    assert p * FLAGS + PTE_V == p * 1024 + 1;
  }

  lemma PteOdd(p: nat)
    ensures (p * 1024 + 1) % 2 == 1
  {
    assert p * 1024 + 1 == 2 * (p * 512) + 1;
    Odd(p * 512);
  }

  lemma Odd(n: nat)
    ensures (2 * n + 1) % 2 == 1
  {
  }

  lemma PteFrame(p: nat)
    ensures (p * 1024 + 1) / 1024 == p
  {
  }

  /** The entry that the walk for v reads on its way down. */
  lemma EntryLeads(m: Mem, t: Tree, v: nat, level: nat)
    requires TableOk(m, t) && 1 <= level <= 2 && v < MAXVPN && Key(level, Shift(v, level + 1)) in t.tab
    ensures IsPage(m, t.tab[Key(level, Shift(v, level + 1))])
    ensures var down := Key(level - 1, Shift(v, level));
            var pte := m[t.tab[Key(level, Shift(v, level + 1))]].w[Shift(v, level) % ENTRIES];
            && (pte % 2 == 1 <==> down in t.tab)
            && (down in t.tab ==> pte / FLAGS == t.tab[down] && t.tab[down] != 0)
  {
    ShiftUp(v, level);
    EntryNames(m, t, Key(level, Shift(v, level + 1)), Shift(v, level) % ENTRIES);
  }

  /** Table pages may have come from the pool; no frame is taken, no page lost, nothing else changed. */
  ghost predicate Grew(t: Tree, t': Tree, m: Mem, m': Mem, pool: set<nat>, pool': set<nat>) {
    && t'.held == t.held && t.own.Keys <= t'.own.Keys && t'.own.Keys + pool' == t.own.Keys + pool
    && Kept(m, m', t.own.Keys + pool)
  }

  lemma GrewTrans(t: Tree, t1: Tree, t2: Tree, m: Mem, m1: Mem, m2: Mem, p: set<nat>, p1: set<nat>, p2: set<nat>)
    requires Grew(t, t1, m, m1, p, p1) && Grew(t1, t2, m1, m2, p1, p2)
    ensures Grew(t, t2, m, m2, p, p2)
  {
  }

  predicate IsRoot(t: Tree, root: nat) {
    ROOT in t.tab && t.tab[ROOT] == root && root != 0
  }

  /** PA2PTE(pa) | perm | PTE_V */
  function Pte(ppn: nat, perm: nat): nat {
    ppn * FLAGS + perm + (1 - perm % 2)
  }

  /** Every entry that mappages writes is valid. */
  lemma PteValid(ppn: nat, perm: nat)
    ensures Pte(ppn, perm) % 2 == 1
  {
    var half := ppn * 512 + perm / 2;
    assert Pte(ppn, perm) == 2 * half + 1;
    Odd(half);
  }

  /** The frame of page v belongs to the address space. */
  predicate Backed(t: Tree, v: nat) {
    v in t.leaf && t.leaf[v] / FLAGS in t.held && t.held[t.leaf[v] / FLAGS] == v
  }

  ghost predicate NotHeld(t: Tree, v: nat) {
    forall f :: f in t.held ==> t.held[f] != v
  }

  /** The translation with n pages from a on mapped to consecutive frames. */
  function Mapped(leaf: map<nat, nat>, a: nat, n: nat, ppn: nat, perm: nat): map<nat, nat> {
    if n == 0 then leaf else Mapped(leaf, a, n - 1, ppn, perm)[a + n - 1 := Pte(ppn + n - 1, perm)]
  }

  /** The tree without page v and without the frame that backs it. */
  function Drop(t: Tree, v: nat): Tree {
    t.(leaf := t.leaf - {v}, held := if Backed(t, v) then t.held - {t.leaf[v] / FLAGS} else t.held)
  }

  /** The tree without the n pages from lo on. */
  function Cut(t: Tree, lo: nat, n: nat): Tree {
    if n == 0 then t else Drop(Cut(t, lo, n - 1), lo + n - 1)
  }

  /** Mapped changes exactly the pages of the range. */
  lemma {:induction false} MappedAt(leaf: map<nat, nat>, a: nat, n: nat, ppn: nat, perm: nat, v: nat)
    ensures v in Mapped(leaf, a, n, ppn, perm) <==> v in leaf || a <= v < a + n
    ensures v in Mapped(leaf, a, n, ppn, perm) ==>
              Mapped(leaf, a, n, ppn, perm)[v] == if a <= v < a + n then Pte(ppn + (v - a), perm) else leaf[v]
  {
    if n > 0 { MappedAt(leaf, a, n - 1, ppn, perm, v); }
  }

  /** Cut removes exactly the pages of the range, and no frame that backs another page. */
  lemma {:induction false} CutAt(t: Tree, lo: nat, n: nat, v: nat)
    ensures v in Cut(t, lo, n).leaf <==> v in t.leaf && !(lo <= v < lo + n)
    ensures v in Cut(t, lo, n).leaf ==> Cut(t, lo, n).leaf[v] == t.leaf[v]
    ensures !(lo <= v < lo + n) && Backed(t, v) ==> Backed(Cut(t, lo, n), v)
  {
    if n > 0 { CutAt(t, lo, n - 1, v); CutAt(t, lo, n - 1, lo + n - 1); }
  }

  /** Erasing an entry, after its frame has gone back if the address space owned it. */
  lemma EraseOk(m: Mem, t: Tree, v: nat)
    requires TableOk(m, t) && v in t.leaf && Key(0, v / ENTRIES) in t.tab && IsPage(m, t.tab[Key(0, v / ENTRIES)])
    requires Backed(t, v) || NotHeld(t, v)
    ensures TableOk(Store(m, t.tab[Key(0, v / ENTRIES)], v % ENTRIES, 0), Drop(t, v))
  {
    var t1 := t.(held := Drop(t, v).held);
    assert TableOk(m, t1) by {
      forall key | key in t1.tab ensures NodeOk(m, t1, key) { assert NodeOk(m, t, key); }
      forall key | key in t1.tab ensures Entries(m, t1, key) {
        assert NodeOk(m, t, key) && Entries(m, t, key) && NodeOk(m, t1, key);
        forall k: nat | k < ENTRIES ensures EntryOk(m, t1, key, k) { assert EntryOk(m, t, key, k); }
      }
      forall u | u in t1.leaf ensures LeafOk(t1, u) { assert LeafOk(t, u); }
      forall p | p in t1.own ensures OwnOk(t1, p) { assert OwnOk(t, p); }
      forall f | f in t1.held ensures HeldOk(m, t1, f) { assert HeldOk(m, t, f); }
    }
    if Backed(t, v) {
      forall g | g in t.held && t.held[g] == v ensures g == t.leaf[v] / FLAGS { assert HeldOk(m, t, g); }
    }
    SetLeafOk(m, t1, v, 0);
  }

  /** A mapped page has its entry in a table page. */
  lemma EntryOfLeaf(m: Mem, t: Tree, v: nat)
    requires TableOk(m, t) && v in t.leaf
    ensures Key(0, v / ENTRIES) in t.tab && IsPage(m, t.tab[Key(0, v / ENTRIES)]) && t.tab[Key(0, v / ENTRIES)] in t.own
    ensures m[t.tab[Key(0, v / ENTRIES)]].w[v % ENTRIES] == t.leaf[v] && t.leaf[v] % 2 == 1
  {
    var key := Key(0, v / ENTRIES);
    assert LeafOk(t, v) && NodeOk(m, t, key) && Entries(m, t, key) && EntryOk(m, t, key, v % ENTRIES);
  }

  lemma HeldFrame(m: Mem, t: Tree, v: nat)
    requires TableOk(m, t) && Backed(t, v)
    ensures var f := t.leaf[v] / FLAGS; f in t.held && f != 0 && f in m && f !in t.own
  {
    var f := t.leaf[v] / FLAGS;
    assert HeldOk(m, t, f);
  }

  lemma TableKept(m: Mem, m': Mem, t: Tree, f: nat, p: Page)
    requires TableOk(m, t) && f in t.held && m' == m[f := p] && |p.w| == ENTRIES && f in m
    ensures TableOk(m', t)
  {
    assert HeldOk(m, t, f);
    forall g | g in t.held ensures IsPage(m', g) { assert HeldOk(m, t, g); }
    TableFrame(m, m', t);
  }

  /** uvmunmap may take page v out: it is mapped, by an entry that has more than the valid bit. */
  ghost predicate Removable(t: Tree, v: nat, doFree: bool) {
    v in t.leaf && t.leaf[v] % FLAGS != PTE_V && if doFree then Backed(t, v) else NotHeld(t, v)
  }

  ghost predicate RangeRemovable(t: Tree, lo: nat, hi: nat, doFree: bool) {
    forall v: nat {:trigger Removable(t, v, doFree)} :: lo <= v < hi ==> Removable(t, v, doFree)
  }

  lemma {:induction false} CutRemovable(t: Tree, lo: nat, n: nat, v: nat, doFree: bool)
    requires Removable(t, v, doFree) && lo + n <= v
    ensures Removable(Cut(t, lo, n), v, doFree)
  {
    if n > 0 { CutRemovable(t, lo, n - 1, v, doFree); }
  }

  /** Frames that left the tree went to the pool; nothing but tables and those frames changed. */
  ghost predicate Shed(t: Tree, t': Tree, m: Mem, m': Mem, pool: set<nat>, pool': set<nat>) {
    && t'.own == t.own && t'.tab == t.tab && t'.held.Keys <= t.held.Keys && Pages(t') + pool' == Pages(t) + pool
    && Kept(m, m', t.own.Keys + (t.held.Keys - t'.held.Keys))
  }

  lemma ShedTrans(t: Tree, t1: Tree, t2: Tree, m: Mem, m1: Mem, m2: Mem, p: set<nat>, p1: set<nat>, p2: set<nat>)
    requires Shed(t, t1, m, m1, p, p1) && Shed(t1, t2, m1, m2, p1, p2)
    ensures Shed(t, t2, m, m2, p, p2)
  {
  }

  function RoundUp(n: nat): nat {
    (n + PGSIZE - 1) / PGSIZE
  }

  // ---------------------------------------------------------------- adding frames

  function Hold(t: Tree, f: nat, v: nat): Tree {
    t.(held := t.held[f := v])
  }

  lemma HoldOk(m: Mem, t: Tree, f: nat, v: nat)
    requires TableOk(m, t) && v in t.leaf && t.leaf[v] / FLAGS == f && f !in t.own && f != 0 && IsPage(m, f)
    ensures TableOk(m, Hold(t, f, v))
  {
    var t' := Hold(t, f, v);
    forall key | key in t'.tab ensures NodeOk(m, t', key) { assert NodeOk(m, t, key); }
    forall key | key in t'.tab ensures Entries(m, t', key) {
      assert NodeOk(m, t, key) && Entries(m, t, key) && NodeOk(m, t', key);
      forall k: nat | k < ENTRIES ensures EntryOk(m, t', key, k) { assert EntryOk(m, t, key, k); }
    }
    forall u | u in t'.leaf ensures LeafOk(t', u) { assert LeafOk(t, u); }
    forall p | p in t'.own ensures OwnOk(t', p) { assert OwnOk(t, p); }
    forall g | g in t'.held ensures HeldOk(m, t', g) { if g != f { assert HeldOk(m, t, g); } }
  }

  /** Table pages and frames may have come from the pool; none is lost and nothing else changed. */
  ghost predicate Took(t: Tree, t': Tree, m: Mem, m': Mem, pool: set<nat>, pool': set<nat>) {
    && t.own.Keys <= t'.own.Keys && t'.own.Keys + pool' <= t.own.Keys + pool && Pages(t') + pool' == Pages(t) + pool
    && Kept(m, m', t.own.Keys + pool)
  }

  lemma TookTrans(t: Tree, t1: Tree, t2: Tree, m: Mem, m1: Mem, m2: Mem, p: set<nat>, p1: set<nat>, p2: set<nat>)
    requires Took(t, t1, m, m1, p, p1) && Took(t1, t2, m1, m2, p1, p2)
    ensures Took(t, t2, m, m2, p, p2)
  {
  }

  /** Writing a page of the pool does not touch the tree. */
  lemma PoolWrite(m: Mem, m': Mem, t: Tree, f: nat)
    requires TableOk(m, t) && f in m && f !in t.own && f !in t.held && m'.Keys == m.Keys
    requires forall p :: p in m && p != f ==> m'[p] == m[p]
    ensures TableOk(m', t)
  {
    forall g | g in t.held ensures IsPage(m', g) { assert HeldOk(m, t, g); }
    TableFrame(m, m', t);
  }

  lemma AddFailed(t: Tree, t': Tree, m: Mem, m1: Mem, m2: Mem, pool: set<nat>, pool2: set<nat>, pa: nat, fill: Page)
    requires pa in pool && pa in m && m1 == m[pa := fill] && Grew(t, t', m1, m2, pool - {pa}, pool2)
    ensures Took(t, t', m, m2[pa := Fill(1)], pool, pool2 + {pa})
  {
    forall x ensures x in t'.own.Keys + (pool2 + {pa}) <==> x in t.own.Keys + pool {
      assert x in t'.own.Keys + pool2 <==> x in t.own.Keys + (pool - {pa});
    }
    assert t'.own.Keys + (pool2 + {pa}) == t.own.Keys + pool;
    assert Pages(t') + (pool2 + {pa}) == t.held.Keys + (t'.own.Keys + (pool2 + {pa}));
  }

  lemma AddDone(t: Tree, t': Tree, m: Mem, m1: Mem, m2: Mem, pool: set<nat>, pool2: set<nat>, pa: nat, v: nat,
                fill: Page)
    requires pa in pool && pa in m && m1 == m[pa := fill] && Grew(t, t', m1, m2, pool - {pa}, pool2) && pa !in t.own
             && pa !in t.held
    requires TableOk(m2, t') && v in t'.leaf && t'.leaf[v] / FLAGS == pa && pa != 0 && |fill.w| == ENTRIES
    ensures TableOk(m2, Hold(t', pa, v)) && Took(t, Hold(t', pa, v), m, m2, pool, pool2) && m2[pa] == fill
    ensures pa !in pool2
  {
    HoldOk(m2, t', pa, v);
    forall x ensures x in Pages(Hold(t', pa, v)) + pool2 <==> x in Pages(t) + pool {
      assert x in t'.own.Keys + pool2 <==> x in t.own.Keys + (pool - {pa});
    }
    assert Pages(Hold(t', pa, v)) + pool2 == Pages(t) + pool;
  }

  // ---------------------------------------------------------------- a range of fresh pages

  /** What a page is to hold, and with which flags. */
  datatype Frame = Frame(page: Page, flags: nat)

  ghost predicate LeafExt(t: Tree, t': Tree, lo: nat, hi: nat, v: nat) {
    && (v in t'.leaf <==> v in t.leaf || lo <= v < hi)
    && (v in t.leaf ==> !(lo <= v < hi) && t'.leaf[v] == t.leaf[v])
  }

  ghost predicate HeldExt(t: Tree, t': Tree, lo: nat, hi: nat, f: nat) {
    && (f in t.held ==> f in t'.held && t'.held[f] == t.held[f])
    && (f in t'.held ==> f in t.held || lo <= t'.held[f] < hi)
  }

  /** t' is t with the pages lo..hi-1 added, each backed by a frame of its own. */
  ghost predicate Extends(t: Tree, t': Tree, lo: nat, hi: nat) {
    && (forall v: nat {:trigger LeafExt(t, t', lo, hi, v)} :: LeafExt(t, t', lo, hi, v))
    && (forall f: nat {:trigger HeldExt(t, t', lo, hi, f)} :: HeldExt(t, t', lo, hi, f))
  }

  ghost predicate Loaded(m: Mem, t: Tree, v: nat, fr: Frame) {
    Backed(t, v) && t.leaf[v] % FLAGS == fr.flags != PTE_V && t.leaf[v] / FLAGS in m && m[t.leaf[v] / FLAGS] == fr.page
  }

  ghost predicate AllLoaded(m: Mem, t: Tree, lo: nat, img: seq<Frame>) {
    forall i: nat {:trigger img[i]} :: i < |img| ==> Loaded(m, t, lo + i, img[i])
  }

  lemma ExtendsNone(t: Tree, lo: nat)
    ensures Extends(t, t, lo, lo)
  {
  }

  lemma ExtendsMore(t: Tree, t1: Tree, t2: Tree, lo: nat, hi: nat, f: nat, pte: nat)
    requires Extends(t, t1, lo, hi) && lo <= hi && hi !in t1.leaf && f !in t1.held
    requires t2.leaf == t1.leaf[hi := pte] && t2.held == t1.held[f := hi]
    ensures Extends(t, t2, lo, hi + 1)
  {
    var end := hi + 1;
    forall v: nat ensures LeafExt(t, t2, lo, end, v) { assert LeafExt(t, t1, lo, hi, v); }
    forall g: nat ensures HeldExt(t, t2, lo, end, g) { assert HeldExt(t, t1, lo, hi, g) && HeldExt(t, t1, lo, hi, f); }
  }

  /** The pages loaded so far survive the next one. */
  lemma LoadedMore(m1: Mem, m2: Mem, t1: Tree, t2: Tree, p1: set<nat>, lo: nat, img: seq<Frame>, f: nat, perm: nat,
                   fill: Page)
    requires AllLoaded(m1, t1, lo, img) && TableOk(m1, t1) && p1 !! t1.held.Keys && Kept(m1, m2, t1.own.Keys + p1)
    requires f in p1 && f in m2 && m2[f] == fill && 1 < perm < FLAGS && lo + |img| !in t1.leaf
    requires t2.leaf == t1.leaf[lo + |img| := Pte(f, perm)] && t2.held == t1.held[f := lo + |img|]
    ensures AllLoaded(m2, t2, lo, img + [Frame(fill, perm + (1 - perm % 2))])
  {
    var img' := img + [Frame(fill, perm + (1 - perm % 2))];
    forall i: nat | i < |img'| ensures Loaded(m2, t2, lo + i, img'[i]) {
      if i < |img| {
        assert img'[i] == img[i] && Loaded(m1, t1, lo + i, img[i]);
        assert HeldOk(m1, t1, t1.leaf[lo + i] / FLAGS);
      }
    }
  }

  lemma {:induction false} CutHeld(t: Tree, lo: nat, n: nat, f: nat)
    requires RangeRemovable(t, lo, lo + n, true)
    requires f in t.held ==> t.held[f] in t.leaf && t.leaf[t.held[f]] / FLAGS == f
    ensures f in Cut(t, lo, n).held <==> f in t.held && !(lo <= t.held[f] < lo + n)
    ensures f in Cut(t, lo, n).held ==> Cut(t, lo, n).held[f] == t.held[f]
  {
    if n > 0 {
      CutHeld(t, lo, n - 1, f);
      assert Removable(t, lo + n - 1, true);
      CutAt(t, lo, n - 1, lo + n - 1);
    }
  }

  /** Taking a fresh range out again restores translation and frames. */
  lemma CutBack(m: Mem, t: Tree, t': Tree, lo: nat, hi: nat)
    requires Extends(t, t', lo, hi) && lo <= hi && TableOk(m, t') && RangeRemovable(t', lo, hi, true)
    requires forall f :: f in t.held ==> t.held[f] in t.leaf
    ensures Cut(t', lo, hi - lo).leaf == t.leaf && Cut(t', lo, hi - lo).held == t.held
  {
    var c := Cut(t', lo, hi - lo);
    forall v: nat ensures v in c.leaf <==> v in t.leaf
      ensures v in c.leaf ==> c.leaf[v] == t.leaf[v]
    {
      CutAt(t', lo, hi - lo, v);
      assert LeafExt(t, t', lo, hi, v);
    }
    forall f: nat ensures f in c.held <==> f in t.held
      ensures f in c.held ==> c.held[f] == t.held[f]
    {
      if f in t'.held { assert HeldOk(m, t', f); }
      CutHeld(t', lo, hi - lo, f);
      assert HeldExt(t, t', lo, hi, f);
      if f in t.held { assert LeafExt(t, t', lo, hi, t.held[f]); }
    }
  }

  lemma LoadedRemovable(m: Mem, t: Tree, lo: nat, img: seq<Frame>)
    requires AllLoaded(m, t, lo, img)
    ensures RangeRemovable(t, lo, lo + |img|, true)
  {
    forall v: nat | lo <= v < lo + |img| ensures Removable(t, v, true) {
      assert Loaded(m, t, lo + (v - lo), img[v - lo]);
    }
  }

  /** t' is t with `img` loaded from lo on, out of the pool. */
  ghost predicate Building(t: Tree, t': Tree, m: Mem, m': Mem, p: set<nat>, p': set<nat>, lo: nat, img: seq<Frame>) {
    Took(t, t', m, m', p, p') && Extends(t, t', lo, lo + |img|) && AllLoaded(m', t', lo, img)
  }

  /** The same after an allocation failed, with the pages lo..hi-1 to be unmapped again. */
  ghost predicate Broken(t: Tree, t': Tree, m: Mem, m': Mem, p: set<nat>, p': set<nat>, lo: nat, hi: nat) {
    Took(t, t', m, m', p, p') && Extends(t, t', lo, hi) && RangeRemovable(t', lo, hi, true)
  }

  function Max(a: nat, b: nat): nat {
    if a < b then b else a
  }

  /** PTE_R | PTE_U | xperm, with the valid bit that mappages adds. */
  function UserPerm(xperm: nat): nat {
    xperm + (1 - xperm % 2) + (if xperm / 2 % 2 == 0 then 2 else 0) + (if xperm / 16 % 2 == 0 then 16 else 0)
  }

  lemma PermOk(xperm: nat)
    requires xperm < FLAGS
    ensures 1 < UserPerm(xperm) < FLAGS && UserPerm(xperm) % 2 == 1
  {
  }

  function Blank(n: nat, flags: nat): seq<Frame> {
    seq(n, _ => Frame(Zeros(), flags))
  }

  lemma BlankMore(n: nat, flags: nat)
    ensures Blank(n, flags) + [Frame(Zeros(), flags)] == Blank(n + 1, flags)
  {
  }

  lemma SameRemovable(t: Tree, t': Tree, lo: nat, hi: nat)
    requires RangeRemovable(t, lo, hi, true) && t'.leaf == t.leaf && t'.held == t.held
    ensures RangeRemovable(t', lo, hi, true)
  {
    forall v: nat | lo <= v < hi ensures Removable(t', v, true) { assert Removable(t, v, true); }
  }

  lemma SameExtends(t: Tree, t1: Tree, t2: Tree, lo: nat, hi: nat)
    requires Extends(t, t1, lo, hi) && t2.leaf == t1.leaf && t2.held == t1.held
    ensures Extends(t, t2, lo, hi)
  {
    forall v: nat ensures LeafExt(t, t2, lo, hi, v) { assert LeafExt(t, t1, lo, hi, v); }
    forall f: nat ensures HeldExt(t, t2, lo, hi, f) { assert HeldExt(t, t1, lo, hi, f); }
  }

  /** A failed range that has been unmapped again leaves the tree as it was, but for table pages. */
  lemma Undone(t: Tree, t2: Tree, t3: Tree, m: Mem, m2: Mem, m3: Mem, p: set<nat>, p2: set<nat>, p3: set<nat>, lo: nat,
               hi: nat)
    requires Broken(t, t2, m, m2, p, p2, lo, hi) && Shed(t2, t3, m2, m3, p2, p3) && lo <= hi
             && t3 == Cut(t2, lo, hi - lo)
    requires TableOk(m2, t2) && TableOk(m, t)
    requires p3 !! t3.held.Keys
    ensures t3.leaf == t.leaf && t3.held == t.held && Took(t, t3, m, m3, p, p3)
  {
    forall f | f in t.held ensures t.held[f] in t.leaf { assert HeldOk(m, t, f); }
    CutBack(m2, t, t2, lo, hi);
    forall f | f in t2.held ensures f !in t2.own { assert HeldOk(m2, t2, f); }
    UndoneTook(t, t2, t3, m, m2, m3, p, p2, p3);
  }

  lemma UndoneTook(t: Tree, t2: Tree, t3: Tree, m: Mem, m2: Mem, m3: Mem, p: set<nat>, p2: set<nat>, p3: set<nat>)
    requires Took(t, t2, m, m2, p, p2) && Shed(t2, t3, m2, m3, p2, p3) && t3.held == t.held && p3 !! t3.held.Keys
    requires forall f :: f in t2.held ==> f !in t2.own
    ensures Took(t, t3, m, m3, p, p3)
  {
    assert Pages(t3) + p3 == Pages(t) + p;
    forall x | x in t2.held && x !in t.held ensures x in p { assert x in Pages(t2) + p2; }
    forall x | x in t3.own.Keys + p3 ensures x in t.own.Keys + p { assert x in Pages(t3) + p3; }
  }

  // ---------------------------------------------------------------- copying an address space

  ghost predicate Same(m: Mem, m': Mem, ps: set<nat>) {
    m'.Keys == m.Keys && forall p :: p in ps && p in m ==> m'[p] == m[p]
  }

  ghost predicate AllBacked(t: Tree, n: nat) {
    RangeRemovable(t, 0, n, true)
  }

  predicate FrameIn(m: Mem, s: Tree, v: nat) {
    v in s.leaf && s.leaf[v] / FLAGS in m
  }

  ghost predicate Readable(m: Mem, s: Tree, n: nat) {
    forall v: nat {:trigger FrameIn(m, s, v)} :: v < n ==> FrameIn(m, s, v)
  }

  /** The first n pages of an address space: contents and flags. */
  ghost function Image(m: Mem, s: Tree, n: nat): (r: seq<Frame>)
    ensures |r| == n
  {
    if n == 0 then [] else
    Image(m, s, n - 1) + [if FrameIn(m, s, n - 1) then Frame(m[s.leaf[n - 1] / FLAGS], s.leaf[n - 1] % FLAGS)
        else Frame(Zeros(), 0)]
  }

  lemma ImageMore(m: Mem, s: Tree, v: nat)
    requires FrameIn(m, s, v)
    ensures Image(m, s, v + 1) == Image(m, s, v) + [Frame(m[s.leaf[v] / FLAGS], s.leaf[v] % FLAGS)]
  {
  }

  lemma BackedReadable(m: Mem, s: Tree, n: nat)
    requires TableOk(m, s) && AllBacked(s, n)
    ensures Readable(m, s, n)
  {
    forall v: nat | v < n ensures FrameIn(m, s, v) { assert Removable(s, v, true); HeldFrame(m, s, v); }
  }

  lemma CopyReady(m: Mem, s: Tree, k: nat, n: nat)
    requires k <= n && AllBacked(s, n) && Readable(m, s, n)
    ensures AllBacked(s, k) && Readable(m, s, k)
  {
  }

  /** An address space that shares no page with t is not affected by what is done to t. */
  lemma Untouched(m: Mem, m': Mem, s: Tree, t: Tree, t': Tree, p: set<nat>, p': set<nat>)
    requires TableOk(m, s) && Took(t, t', m, m', p, p') && Pages(s) !! Pages(t) && p !! Pages(s)
    requires forall q :: q in m' ==> |m'[q].w| == ENTRIES
    ensures TableOk(m', s) && p' !! Pages(s) && Pages(s) !! Pages(t') && Same(m, m', Pages(s))
  {
    forall f | f in s.held ensures IsPage(m', f) { assert HeldOk(m, s, f); }
    TableFrame(m, m', s);
    forall x | x in Pages(s) ensures x !in p' && x !in Pages(t') { assert x !in Pages(t) + p; }
  }

  const PTE_U: nat := 16

  /** The physical page that user code may reach at va, or 0. */
  function UserAddr(t: Tree, va: nat): nat {
    var v := va / PGSIZE;
    if v < MAXVPN && v in t.leaf && t.leaf[v] / PTE_U % 2 == 1 then t.leaf[v] / FLAGS * PGSIZE else 0
  }

  /** What the entry for v says is the translation of v. */
  lemma LookUp(m: Mem, t: Tree, v: nat)
    requires TableOk(m, t)
    ensures v in t.leaf ==> Key(0, v / ENTRIES) in t.tab
    ensures Key(0, v / ENTRIES) in t.tab ==>
              && IsPage(m, t.tab[Key(0, v / ENTRIES)]) && t.tab[Key(0, v / ENTRIES)] != 0
              && m[t.tab[Key(0, v / ENTRIES)]].w[v % ENTRIES] == (if v in t.leaf then t.leaf[v] else 0)
              && (v in t.leaf ==> t.leaf[v] % 2 == 1)
  {
    if v in t.leaf { EntryOfLeaf(m, t, v); }
    var key := Key(0, v / ENTRIES);
    if key in t.tab {
      assert NodeOk(m, t, key) && Entries(m, t, key) && EntryOk(m, t, key, v % ENTRIES);
    }
  }

  /** The page lies within the addresses [start..end). */
  predicate InRange(p: nat, start: nat, end: nat) {
    start <= p * PGSIZE && (p + 1) * PGSIZE <= end
  }

  class Kernel {
    var mem: Mem
    var free: seq<nat>
    ghost var pool: set<nat>
    ghost var denied: nat          // how often kalloc had no page to give

    ghost predicate Pool()
      reads this
    {
      FreeOk(free, pool) && 0 !in pool && (forall p :: p in mem ==> |mem[p].w| == ENTRIES) && pool <= mem.Keys
    }

    ghost predicate Ok(t: Tree)
      reads this
    {
      Pool() == true && TableOk(mem, t) == true && pool !! t.own.Keys && pool !! t.held.Keys
    }

    /** kinit: freerange puts exactly the pages that lie within the addresses [start..end) on the free list. */
    constructor (m: Mem, start: nat, end: nat)
      requires 0 < start && (forall p :: p in m ==> |m[p].w| == ENTRIES)
      requires forall p: nat :: InRange(p, start, end) ==> p in m
      ensures Pool() && denied == 0 && mem.Keys == m.Keys && forall p: nat :: p in pool <==> InRange(p, start, end)
      ensures forall p: nat :: p in m ==> mem[p] == if InRange(p, start, end) then Fill(1) else m[p]
    {
      mem, free, pool, denied := m, [], {}, 0;
      new;
      var p := RoundUp(start);
      while (p + 1) * PGSIZE <= end
        invariant RoundUp(start) <= p && (RoundUp(start) < p ==> p * PGSIZE <= end)
        invariant Pool() && denied == 0 && mem.Keys == m.Keys && forall q: nat :: q in pool <==> RoundUp(start) <= q < p
        invariant forall q: nat :: q in m ==> mem[q] == if q in pool then Fill(1) else m[q]
      {
        assert InRange(p, start, end);
        Kfree(p);
        p := p + 1;
      }
    }

    method Kalloc() returns (pa: nat)
      requires Pool()
      modifies this
      ensures pa == 0 <==> denied != old(denied)
      ensures Pool() && mem.Keys == old(mem).Keys
      ensures old(free) == [] <==> pa == 0
      ensures pa == 0 ==> free == old(free) && pool == old(pool) && mem == old(mem)
      ensures pa != 0 ==>
                pa in old(pool) && pool == old(pool) - {pa} && free == old(free)[1..] && mem == old(mem)[pa := Fill(5)]
    {
      if free == [] {
        denied := denied + 1;
        return 0;
      }
      pa := free[0];
      free, pool := free[1..], pool - {pa};
      mem := mem[pa := Fill(5)];
    }

    /** kfree: the free list stays in order exactly if the page was not free already, which nothing tests. */
    method Kfree(pa: nat)
      requires Pool() && pa in mem && pa != 0
      modifies this
      ensures denied == old(denied)
      ensures Pool() <==> pa !in old(pool)
      ensures free == [pa] + old(free) && pool == old(pool) + {pa} && mem == old(mem)[pa := Fill(1)]
    {
      FreedOnce(free, pool, pa);
      mem := mem[pa := Fill(1)];
      free, pool := [pa] + free, pool + {pa};
    }

    /** One level of walk: follow the entry for v, or hang a new table page there. */
    method Descend(page: nat, level: nat, v: nat, alloc: bool, ghost t: Tree) returns (child: nat, ghost t': Tree)
      requires Ok(t) && 1 <= level <= 2 && v < MAXVPN
      requires Key(level, Shift(v, level + 1)) in t.tab && page == t.tab[Key(level, Shift(v, level + 1))]
      modifies this
      ensures alloc && child == 0 <==> denied != old(denied)
      ensures Ok(t') && Grown(t, t') && Kept(old(mem), mem, t.own.Keys + old(pool))
      ensures t'.own.Keys + pool == t.own.Keys + old(pool)
      ensures child != 0 ==>
                Key(level - 1, Shift(v, level)) in t'.tab && child == t'.tab[Key(level - 1, Shift(v, level))]
      ensures !alloc || child == 0 ==> t' == t && mem == old(mem) && free == old(free) && pool == old(pool)
      ensures child == 0 ==> Key(level - 1, Shift(v, level)) !in t.tab && (alloc ==> free == [])
    {
      ShiftUp(v, level);
      EntryLeads(mem, t, v, level);
      t' := t;
      ghost var down := Key(level - 1, Shift(v, level));
      var k := Shift(v, level) % ENTRIES;
      if mem[page].w[k] % 2 == 1 {
        return mem[page].w[k] / FLAGS, t;
      }
      if !alloc {
        return 0, t;
      }
      child := Kalloc();
      if child == 0 {
        return;
      }
      HangOk(old(mem), t, old(pool), down, child);
      mem := mem[child := Zeros()];
      assert mem == old(mem)[child := Zeros()];
      mem := Store(mem, page, k, child * FLAGS + PTE_V);
      t' := AddTable(t, down, child);
    }

    /** The table page that holds the entry for v, or 0. */
    method Walk(root: nat, v: nat, alloc: bool, ghost t: Tree) returns (page: nat, ghost t': Tree)
      requires Ok(t) && IsRoot(t, root) && v < MAXVPN
      modifies this
      ensures alloc && page == 0 <==> denied != old(denied)
      ensures Ok(t') && Grown(t, t') && Kept(old(mem), mem, t.own.Keys + old(pool))
      ensures t'.own.Keys + pool == t.own.Keys + old(pool)
      ensures page != 0 ==> Key(0, v / ENTRIES) in t'.tab && page == t'.tab[Key(0, v / ENTRIES)]
      ensures !alloc ==> t' == t && mem == old(mem) && free == old(free) && pool == old(pool)
      ensures !alloc && page == 0 ==> Key(0, v / ENTRIES) !in t.tab
      ensures alloc && page == 0 ==> free == []
    {
      page, t' := root, t;
      var level := 2;
      ShiftUp(v, 2);
      while level > 0
        invariant 0 <= level <= 2 && Ok(t') && Grown(t, t') && Kept(old(mem), mem, t.own.Keys + old(pool))
        invariant t'.own.Keys + pool == t.own.Keys + old(pool)
        invariant Key(level, Shift(v, level + 1)) in t'.tab && page == t'.tab[Key(level, Shift(v, level + 1))]
                  && page != 0
        invariant !alloc ==> t' == t && mem == old(mem) && free == old(free) && pool == old(pool)
        invariant denied == old(denied)
      {
        page, t' := Descend(page, level, v, alloc, t');
        if page == 0 {
          if Key(0, v / ENTRIES) in t'.tab { TableParent(mem, t', Key(0, v / ENTRIES)); }
          return;
        }
        level := level - 1;
      }
    }

    /** Fill the empty entry for v, which is in `page`. */
    method SetEntry(page: nat, v: nat, pte: nat, ghost t: Tree)
      requires Ok(t) && v !in t.leaf && Key(0, v / ENTRIES) in t.tab && page == t.tab[Key(0, v / ENTRIES)]
               && pte % 2 == 1
      modifies this
      ensures denied == old(denied)
      ensures Ok(SetLeaf(t, v, pte)) && Kept(old(mem), mem, t.own.Keys) && free == old(free) && pool == old(pool)
    {
      assert NodeOk(mem, t, Key(0, v / ENTRIES));
      forall f | f in t.held ensures t.held[f] != v { assert HeldOk(mem, t, f); }
      SetLeafOk(mem, t, v, pte);
      mem := Store(mem, page, v % ENTRIES, pte);
    }

    /** One iteration of mappages. */
    method MapOne(root: nat, v: nat, ppn: nat, perm: nat, ghost t: Tree) returns (ok: bool, ghost t': Tree)
      requires Ok(t) && IsRoot(t, root) && v < MAXVPN && v !in t.leaf && perm < FLAGS
      modifies this
      ensures ok <==> denied == old(denied)
      ensures Ok(t') && IsRoot(t', root) && Grew(t, t', old(mem), mem, old(pool), pool)
      ensures t'.leaf == if ok then t.leaf[v := Pte(ppn, perm)] else t.leaf
      ensures !ok ==> free == []
    {
      var page;
      page, t' := Walk(root, v, true, t);
      if page == 0 {
        return false, t';
      }
      PteValid(ppn, perm);
      SetEntry(page, v, Pte(ppn, perm), t');
      return true, SetLeaf(t', v, Pte(ppn, perm));
    }

    /** The same for page first + done, when `done` pages have been mapped since the tree was t. */
    method MapNext(root: nat, first: nat, ghost done: nat, v: nat, ppn: nat, perm: nat, ghost t: Tree, ghost t1: Tree,
                   ghost m0: Mem, ghost p0: set<nat>)
      returns (ok: bool, ghost t': Tree)
      requires Ok(t1) && IsRoot(t1, root) && v == first + done < MAXVPN && v !in t.leaf && done <= ppn && perm < FLAGS
      requires Grew(t, t1, m0, mem, p0, pool) && t1.leaf == Mapped(t.leaf, first, done, ppn - done, perm)
      modifies this
      ensures ok <==> denied == old(denied)
      ensures Ok(t') && IsRoot(t', root) && Grew(t, t', m0, mem, p0, pool)
      ensures t'.leaf == Mapped(t.leaf, first, if ok then done + 1 else done, ppn - done, perm)
      ensures !ok ==> free == []
    {
      MappedAt(t.leaf, first, done, ppn - done, perm, v);
      ok, t' := MapOne(root, v, ppn, perm, t1);
      GrewTrans(t, t1, t', m0, old(mem), mem, p0, old(pool), pool);
    }

    /** The loop of mappages over the pages first..last. */
    method MapRange(root: nat, first: nat, last: nat, ppn: nat, perm: nat, ghost t: Tree)
      returns (ok: bool, ghost t': Tree, ghost done: nat)
      requires Ok(t) && IsRoot(t, root) && first <= last < MAXVPN && perm < FLAGS
      requires forall v :: first <= v <= last ==> v !in t.leaf
      modifies this
      ensures ok <==> denied == old(denied)
      ensures Ok(t') && IsRoot(t', root) && Grew(t, t', old(mem), mem, old(pool), pool)
      ensures t'.leaf == Mapped(t.leaf, first, done, ppn, perm)
      ensures if ok then done == last - first + 1 else done < last - first + 1 && free == []
    {
      var a, pa := first, ppn;
      t', done := t, 0;
      while true
        invariant a == first + done <= last && pa == ppn + done
        invariant Ok(t') == true && IsRoot(t', root) && Grew(t, t', old(mem), mem, old(pool), pool) == true
        invariant t'.leaf == Mapped(t.leaf, first, done, ppn, perm) && denied == old(denied)
        decreases last - a
      {
        ok, t' := MapNext(root, first, done, a, pa, perm, t, t', old(mem), old(pool));
        if !ok {
          return;
        }
        done := done + 1;
        if a == last {
          return;
        }
        a, pa := a + 1, pa + 1;
      }
    }

    /** mappages: on failure the first `done` pages stay mapped. */
    method MapPages(root: nat, va: nat, size: nat, pa: nat, perm: nat, ghost t: Tree)
      returns (ok: bool, ghost t': Tree, ghost done: nat)
      requires Ok(t) && IsRoot(t, root) && 0 < size && va + size <= MAXVPN * PGSIZE && perm < FLAGS
      requires forall v :: va / PGSIZE <= v <= (va + size - 1) / PGSIZE ==> v !in t.leaf
      modifies this
      ensures ok <==> denied == old(denied)
      ensures Ok(t') && IsRoot(t', root) && Grew(t, t', old(mem), mem, old(pool), pool)
      ensures t'.leaf == Mapped(t.leaf, va / PGSIZE, done, pa / PGSIZE, perm)
      ensures var n := (va + size - 1) / PGSIZE - va / PGSIZE + 1; if ok then done == n else done < n && free == []
    {
      ok, t', done := MapRange(root, va / PGSIZE, (va + size - 1) / PGSIZE, pa / PGSIZE, perm, t);
    }

    /** mappages of a single page, as all user mappings are made. */
    method MapPage(root: nat, v: nat, ppn: nat, perm: nat, ghost t: Tree) returns (ok: bool, ghost t': Tree)
      requires Ok(t) && IsRoot(t, root) && v < MAXVPN && v !in t.leaf && perm < FLAGS
      modifies this
      ensures ok <==> denied == old(denied)
      ensures Ok(t') && IsRoot(t', root) && Grew(t, t', old(mem), mem, old(pool), pool)
      ensures t'.leaf == if ok then t.leaf[v := Pte(ppn, perm)] else t.leaf
    {
      ghost var n;
      ok, t', n := MapPages(root, v * PGSIZE, PGSIZE, ppn * PGSIZE, perm, t);
    }

    /** One iteration of uvmunmap. */
    method UnmapOne(root: nat, v: nat, doFree: bool, ghost t: Tree) returns (ghost t': Tree)
      requires Ok(t) && IsRoot(t, root) && v < MAXVPN && Removable(t, v, doFree)
      modifies this
      ensures denied == old(denied)
      ensures t' == Drop(t, v) && Ok(t') && Shed(t, t', old(mem), mem, old(pool), pool)
    {
      var page;
      page, t' := Walk(root, v, false, t);
      EntryOfLeaf(mem, t, v);
      if doFree {
        HeldFrame(mem, t, v);
        Kfree(mem[page].w[v % ENTRIES] / FLAGS);
        TableKept(old(mem), mem, t, t.leaf[v] / FLAGS, Fill(1));
      }
      EraseOk(mem, t, v);
      mem := Store(mem, page, v % ENTRIES, 0);
      t' := Drop(t, v);
    }

    /** uvmunmap; `lo` is the page number of the aligned start address. */
    method UvmUnmap(root: nat, lo: nat, npages: nat, doFree: bool, ghost t: Tree) returns (ghost t': Tree)
      requires Ok(t) && IsRoot(t, root) && lo + npages <= MAXVPN && RangeRemovable(t, lo, lo + npages, doFree)
      modifies this
      ensures denied == old(denied)
      ensures t' == Cut(t, lo, npages) && Ok(t') && Shed(t, t', old(mem), mem, old(pool), pool)
    {
      t' := t;
      for i := 0 to npages
        invariant denied == old(denied)
        invariant t' == Cut(t, lo, i) && Ok(t') == true && Shed(t, t', old(mem), mem, old(pool), pool) == true
      {
        assert Removable(t, lo + i, doFree);
        CutRemovable(t, lo, i, lo + i, doFree);
        ghost var t1, m1, p1 := t', mem, pool;
        t' := UnmapOne(root, lo + i, doFree, t');
        ShedTrans(t, t1, t', old(mem), m1, mem, old(pool), p1, pool);
      }
    }

    method UvmDealloc(root: nat, oldsz: nat, newsz: nat, ghost t: Tree) returns (r: nat, ghost t': Tree)
      requires Ok(t) && IsRoot(t, root) && RoundUp(oldsz) <= MAXVPN
               && RangeRemovable(t, RoundUp(newsz), RoundUp(oldsz), true)
      modifies this
      ensures denied == old(denied)
      ensures r == if newsz >= oldsz then oldsz else newsz
      ensures Ok(t') && Shed(t, t', old(mem), mem, old(pool), pool)
      ensures t' == if newsz < oldsz then Cut(t, RoundUp(newsz), RoundUp(oldsz) - RoundUp(newsz)) else t
    {
      t' := t;
      if newsz >= oldsz {
        return oldsz, t;
      }
      if RoundUp(newsz) < RoundUp(oldsz) {
        t' := UvmUnmap(root, RoundUp(newsz), RoundUp(oldsz) - RoundUp(newsz), true, t);
      }
      return newsz, t';
    }

    /** A page from the pool, filled. */
    method TakeFrame(fill: Page, ghost t: Tree) returns (pa: nat)
      requires Ok(t) && |fill.w| == ENTRIES
      modifies this
      ensures pa == 0 <==> denied != old(denied)
      ensures Ok(t)
      ensures pa == 0 ==> mem == old(mem) && pool == old(pool)
      ensures pa != 0 ==> pa in old(pool) && pa in old(mem) && mem == old(mem)[pa := fill] && pool == old(pool) - {pa}
    {
      pa := Kalloc();
      if pa != 0 {
        mem := mem[pa := fill];
        assert mem == old(mem)[pa := fill];
        PoolWrite(old(mem), mem, t, pa);
      }
    }

    method GiveBack(pa: nat, ghost t: Tree)
      requires Ok(t) && pa in mem && pa != 0 && pa !in pool && pa !in t.own && pa !in t.held
      modifies this
      ensures denied == old(denied)
      ensures Ok(t) && pool == old(pool) + {pa} && mem == old(mem)[pa := Fill(1)]
    {
      Kfree(pa);
      PoolWrite(old(mem), mem, t, pa);
    }

    /** Back page v with a fresh frame that holds `fill`, as the loops of uvmalloc and uvmcopy do. */
    method AddFrame(root: nat, v: nat, fill: Page, perm: nat, ghost t: Tree)
      returns (ok: bool, ghost t': Tree, ghost f: nat)
      requires Ok(t) && IsRoot(t, root) && v < MAXVPN && v !in t.leaf && 1 < perm < FLAGS && |fill.w| == ENTRIES
      modifies this
      ensures ok <==> denied == old(denied)
      ensures Ok(t') && IsRoot(t', root) && Took(t, t', old(mem), mem, old(pool), pool)
      ensures !ok ==> t'.leaf == t.leaf && t'.held == t.held
      ensures ok ==>
                f in old(pool) && t'.leaf == t.leaf[v := Pte(f, perm)] && t'.held == t.held[f := v] && f in mem
                && mem[f] == fill
    {
      var pa := TakeFrame(fill, t);
      t', f := t, pa;
      if pa == 0 {
        return false, t, pa;
      }
      ghost var m1, p1 := mem, pool;
      ok, t' := MapPage(root, v, pa, perm, t);
      ghost var m2, p2 := mem, pool;
      if !ok {
        GiveBack(pa, t');
        AddFailed(t, t', old(mem), m1, m2, old(pool), p2, pa, fill);
        return;
      }
      AddDone(t, t', old(mem), m1, mem, old(pool), pool, pa, v, fill);
      t' := Hold(t', pa, v);
    }

    /** One iteration of the loops of uvmalloc and uvmcopy: t1 is t with `img` loaded from lo on. */
    method AddNext(root: nat, v: nat, fill: Page, perm: nat, ghost lo: nat, ghost img: seq<Frame>,
                   ghost t: Tree, ghost t1: Tree, ghost m0: Mem, ghost p0: set<nat>) returns (ok: bool, ghost t': Tree)
      requires Ok(t1) && IsRoot(t1, root) && Building(t, t1, m0, mem, p0, pool, lo, img)
      requires v == lo + |img| < MAXVPN && v !in t.leaf && 1 < perm < FLAGS && |fill.w| == ENTRIES
      modifies this
      ensures ok <==> denied == old(denied)
      ensures Ok(t') && IsRoot(t', root)
      ensures ok ==> Building(t, t', m0, mem, p0, pool, lo, img + [Frame(fill, perm + (1 - perm % 2))])
      ensures !ok ==> Broken(t, t', m0, mem, p0, pool, lo, lo + |img|)
    {
      assert LeafExt(t, t1, lo, lo + |img|, v);
      ghost var f;
      ok, t', f := AddFrame(root, v, fill, perm, t1);
      TookTrans(t, t1, t', m0, old(mem), mem, p0, old(pool), pool);
      if ok {
        ExtendsMore(t, t1, t', lo, v, f, Pte(f, perm));
        LoadedMore(old(mem), mem, t1, t', old(pool), lo, img, f, perm, fill);
      } else {
        LoadedRemovable(old(mem), t1, lo, img);
        SameRemovable(t1, t', lo, v);
        SameExtends(t, t1, t', lo, v);
      }
    }

    /** The error path of uvmalloc. */
    method Retreat(root: nat, lo: nat, a: nat, ghost t: Tree, ghost t2: Tree, ghost m0: Mem, ghost p0: set<nat>)
      returns (ghost t': Tree)
      requires Ok(t2) && IsRoot(t2, root) && lo <= a <= MAXVPN && TableOk(m0, t)
               && Broken(t, t2, m0, mem, p0, pool, lo, a)
      modifies this
      ensures denied == old(denied)
      ensures Ok(t') && IsRoot(t', root) && t'.leaf == t.leaf && t'.held == t.held && Took(t, t', m0, mem, p0, pool)
    {
      var r;
      r, t' := UvmDealloc(root, a * PGSIZE, lo * PGSIZE, t2);
      Undone(t, t2, t', m0, old(mem), mem, p0, old(pool), pool, lo, a);
    }

    /** The loop of uvmalloc, from page lo to the last page below newsz. */
    method GrowLoop(root: nat, lo: nat, newsz: nat, perm: nat, ghost t: Tree) returns (ok: bool, ghost t': Tree)
      requires Ok(t) && IsRoot(t, root) && RoundUp(newsz) <= MAXVPN && 1 < perm < FLAGS && perm % 2 == 1
      requires forall v :: lo <= v < RoundUp(newsz) ==> v !in t.leaf
      modifies this
      ensures ok <==> denied == old(denied)
      ensures Ok(t') && IsRoot(t', root)
      ensures ok ==> Building(t, t', old(mem), mem, old(pool), pool, lo, Blank(Max(lo, RoundUp(newsz)) - lo, perm))
      ensures !ok ==> t'.leaf == t.leaf && t'.held == t.held && Took(t, t', old(mem), mem, old(pool), pool)
    {
      var a := lo;
      t' := t;
      ExtendsNone(t, lo);
      while a * PGSIZE < newsz
        invariant lo <= a && (a == lo || a <= RoundUp(newsz)) && denied == old(denied)
        invariant Ok(t') == true && IsRoot(t', root)
                  && Building(t, t', old(mem), mem, old(pool), pool, lo, Blank(a - lo, perm)) == true
      {
        ok, t' := AddNext(root, a, Zeros(), perm, lo, Blank(a - lo, perm), t, t', old(mem), old(pool));
        if !ok {
          t' := Retreat(root, lo, a, t, t', old(mem), old(pool));
          return;
        }
        BlankMore(a - lo, perm);
        a := a + 1;
      }
      ok := true;
    }

    /** uvmalloc. `ok` tells a failure from a success that returns 0. */
    method UvmAlloc(root: nat, oldsz: nat, newsz: nat, xperm: nat, ghost t: Tree)
      returns (r: nat, ok: bool, ghost t': Tree)
      requires Ok(t) && IsRoot(t, root) && RoundUp(newsz) <= MAXVPN && xperm < FLAGS
      requires forall v :: RoundUp(oldsz) <= v < RoundUp(newsz) ==> v !in t.leaf
      modifies this
      ensures ok <==> denied == old(denied)
      ensures Ok(t') && IsRoot(t', root) && Took(t, t', old(mem), mem, old(pool), pool)
      ensures r == if !ok then 0 else if newsz < oldsz then oldsz else newsz
      ensures !ok || newsz < oldsz ==> t'.leaf == t.leaf && t'.held == t.held
      ensures ok && newsz >= oldsz ==>
                Building(t, t', old(mem), mem, old(pool), pool, RoundUp(oldsz),
                         Blank(Max(RoundUp(oldsz), RoundUp(newsz)) - RoundUp(oldsz), UserPerm(xperm)))
    {
      if newsz < oldsz {
        return oldsz, true, t;
      }
      PermOk(xperm);
      ok, t' := GrowLoop(root, RoundUp(oldsz), newsz, UserPerm(xperm), t);
      r := if ok then newsz else 0;
    }

    /** The error path of uvmcopy. */
    method DropCopies(root: nat, n: nat, ghost s: Tree, ghost t: Tree, ghost t2: Tree, ghost m0: Mem,
                      ghost p0: set<nat>) returns (ghost t': Tree)
      requires Ok(t2) && IsRoot(t2, root) && n <= MAXVPN && TableOk(m0, t) && Broken(t, t2, m0, mem, p0, pool, 0, n)
      requires TableOk(m0, s) && Pages(s) !! Pages(t) && p0 !! Pages(s)
      modifies this
      ensures denied == old(denied)
      ensures Ok(t') && IsRoot(t', root) && t'.leaf == t.leaf && t'.held == t.held && Took(t, t', m0, mem, p0, pool)
      ensures Ok(s) && Same(m0, mem, Pages(s)) && Pages(s) !! Pages(t')
    {
      t' := UvmUnmap(root, 0, n, true, t2);
      Undone(t, t2, t', m0, old(mem), mem, p0, old(pool), pool, 0, n);
      Untouched(m0, mem, s, t, t', p0, pool);
    }

    /** The entry that maps page v. */
    method ReadEntry(root: nat, v: nat, ghost t: Tree) returns (pte: nat)
      requires Ok(t) && IsRoot(t, root) && v < MAXVPN && v in t.leaf
      modifies this
      ensures denied == old(denied)
      ensures mem == old(mem) && free == old(free) && pool == old(pool) && pte == t.leaf[v]
    {
      var page, _ := Walk(root, v, false, t);
      EntryOfLeaf(mem, t, v);
      return mem[page].w[v % ENTRIES];
    }

    /** One iteration of uvmcopy: copy page v of the parent s. */
    method CopyNext(oldRoot: nat, newRoot: nat, v: nat, ghost s: Tree, ghost t: Tree, ghost t1: Tree, ghost m0: Mem,
                    ghost p0: set<nat>)
      returns (ok: bool, ghost t': Tree)
      requires Ok(s) && IsRoot(s, oldRoot) && Ok(t1) && IsRoot(t1, newRoot) && v < MAXVPN && AllBacked(s, v + 1)
               && v !in t.leaf
      requires Same(m0, mem, Pages(s)) && Readable(m0, s, v + 1)
               && Building(t, t1, m0, mem, p0, pool, 0, Image(m0, s, v))
      modifies this
      ensures ok <==> denied == old(denied)
      ensures Ok(t') && IsRoot(t', newRoot)
      ensures ok ==> Building(t, t', m0, mem, p0, pool, 0, Image(m0, s, v + 1))
      ensures !ok ==> Broken(t, t', m0, mem, p0, pool, 0, v)
    {
      assert Removable(s, v, true) && FrameIn(m0, s, v) && LeafOk(s, v);
      var pte := ReadEntry(oldRoot, v, s);
      HeldFrame(mem, s, v);
      ok, t' := AddNext(newRoot, v, mem[pte / FLAGS], pte % FLAGS, 0, Image(m0, s, v), t, t1, m0, p0);
      ImageMore(m0, s, v);
    }

    /** CopyNext, which leaves the parent alone. */
    method CopyStep(oldRoot: nat, newRoot: nat, v: nat, ghost s: Tree, ghost t: Tree, ghost t1: Tree, ghost m0: Mem,
                    ghost p0: set<nat>)
      returns (ok: bool, ghost t': Tree)
      requires Ok(s) && IsRoot(s, oldRoot) && Ok(t1) && IsRoot(t1, newRoot) && v < MAXVPN && AllBacked(s, v + 1)
               && v !in t.leaf
      requires Same(m0, mem, Pages(s)) && Readable(m0, s, v + 1)
               && Building(t, t1, m0, mem, p0, pool, 0, Image(m0, s, v))
      requires TableOk(m0, s) && Pages(s) !! Pages(t) && p0 !! Pages(s)
      modifies this
      ensures ok <==> denied == old(denied)
      ensures Ok(t') && IsRoot(t', newRoot) && Ok(s) && Same(m0, mem, Pages(s)) && Pages(s) !! Pages(t')
      ensures ok ==> Building(t, t', m0, mem, p0, pool, 0, Image(m0, s, v + 1))
      ensures !ok ==> Broken(t, t', m0, mem, p0, pool, 0, v)
    {
      ok, t' := CopyNext(oldRoot, newRoot, v, s, t, t1, m0, p0);
      Untouched(m0, mem, s, t, t', p0, pool);
    }

    /** uvmcopy: the child gets the parent's pages, contents and flags, on frames of its own; or no page
        at all. The parent does not change. */
    method UvmCopy(oldRoot: nat, newRoot: nat, sz: nat, ghost s: Tree, ghost t: Tree) returns (ok: bool, ghost t': Tree)
      requires Ok(s) && IsRoot(s, oldRoot) && Ok(t) && IsRoot(t, newRoot) && Pages(s) !! Pages(t)
      requires RoundUp(sz) <= MAXVPN && AllBacked(s, RoundUp(sz)) && forall v :: 0 <= v < RoundUp(sz) ==> v !in t.leaf
      modifies this
      ensures ok <==> denied == old(denied)
      ensures Ok(s) && Ok(t') && IsRoot(t', newRoot) && Same(old(mem), mem, Pages(s)) && Pages(s) !! Pages(t')
      ensures ok ==> Building(t, t', old(mem), mem, old(pool), pool, 0, Image(old(mem), s, RoundUp(sz)))
      ensures !ok ==> t'.leaf == t.leaf && t'.held == t.held && Took(t, t', old(mem), mem, old(pool), pool)
    {
      var v := 0;
      t' := t;
      ExtendsNone(t, 0);
      BackedReadable(mem, s, RoundUp(sz));
      while v * PGSIZE < sz
        invariant 0 <= v <= RoundUp(sz) && Ok(s) == true && Ok(t') == true && IsRoot(t', newRoot)
        invariant Same(old(mem), mem, Pages(s)) == true && Pages(s) !! Pages(t') && denied == old(denied)
        invariant Building(t, t', old(mem), mem, old(pool), pool, 0, Image(old(mem), s, v)) == true
      {
        CopyReady(old(mem), s, v + 1, RoundUp(sz));
        ok, t' := CopyStep(oldRoot, newRoot, v, s, t, t', old(mem), old(pool));
        if !ok {
          t' := DropCopies(newRoot, v, s, t, t', old(mem), old(pool));
          return;
        }
        v := v + 1;
      }
      ok := true;
    }

    /** walkaddr: exactly the user part of the translation. */
    method WalkAddr(root: nat, va: nat, ghost t: Tree) returns (pa: nat)
      requires Ok(t) && IsRoot(t, root)
      modifies this
      ensures denied == old(denied)
      ensures mem == old(mem) && free == old(free) && pool == old(pool)
      ensures pa == UserAddr(t, va)
    {
      var v := va / PGSIZE;
      if v >= MAXVPN {
        return 0;
      }
      var page, t' := Walk(root, v, false, t);
      LookUp(mem, t, v);
      if page == 0 {
        return 0;
      }
      var pte := mem[page].w[v % ENTRIES];
      if pte % 2 == 0 || pte / PTE_U % 2 == 0 {
        return 0;
      }
      return pte / FLAGS * PGSIZE;
    }
  }
}

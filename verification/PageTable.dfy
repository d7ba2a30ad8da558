/**
  Sv39 page tables (section 4.4 of the RISC-V privileged architecture, version 20211203) as a tree of
  512-word pages in physical memory. Pages are named by their physical page number; a page table entry
  is page number times 1024 plus ten flag bits (kernel/riscv.h).
 */
module PageTable {

  const PTE_V: nat := 1
  const ENTRIES: nat := 512
  const FLAGS: nat := 1024
  const PGSIZE: nat := 4096
  const MAXVPN: nat := 0x4000000        // MAXVA / PGSIZE

  datatype Page = Page(w: seq<nat>)
  type Mem = map<nat, Page>

  /** A table page: its level (2 is the root) and the virtual page bits that lead to it. */
  datatype Key = Key(level: nat, prefix: nat)

  /** The tree that memory holds. `tab` places the table pages and `own` is its inverse, `leaf` is the
      translation, and `held` gives, for each frame that the address space owns, the page it backs. */
  datatype Tree = Tree(tab: map<Key, nat>, own: map<nat, Key>, leaf: map<nat, nat>, held: map<nat, nat>)

  const ROOT := Key(2, 0)

  /** The entry k of a table page, as the tree says. */
  function EntryAt(t: Tree, key: Key, k: nat): nat {
    if key.level == 0 then
      if key.prefix * ENTRIES + k in t.leaf then t.leaf[key.prefix * ENTRIES + k] else 0
    else
      var child := Key(key.level - 1, key.prefix * ENTRIES + k);
      if child in t.tab then t.tab[child] * FLAGS + PTE_V else 0
  }

  predicate IsPage(m: Mem, p: nat) {
    p in m && |m[p].w| == ENTRIES
  }

  predicate NodeOk(m: Mem, t: Tree, key: Key)
    requires key in t.tab
  {
    && key.level <= 2 && (key.level == 2 ==> key == ROOT)
    && (key.level < 2 ==> Key(key.level + 1, key.prefix / ENTRIES) in t.tab)
    && IsPage(m, t.tab[key]) && t.tab[key] != 0 && t.tab[key] in t.own && t.own[t.tab[key]] == key
  }

  predicate EntryOk(m: Mem, t: Tree, key: Key, k: nat)
    requires key in t.tab && IsPage(m, t.tab[key]) && k < ENTRIES
  {
    m[t.tab[key]].w[k] == EntryAt(t, key, k)
  }

  ghost predicate Entries(m: Mem, t: Tree, key: Key)
    requires key in t.tab && IsPage(m, t.tab[key])
  {
    forall k: nat {:trigger EntryOk(m, t, key, k)} :: k < ENTRIES ==> EntryOk(m, t, key, k)
  }

  predicate LeafOk(t: Tree, v: nat)
    requires v in t.leaf
  {
    Key(0, v / ENTRIES) in t.tab && t.leaf[v] % 2 == 1
  }

  predicate OwnOk(t: Tree, p: nat)
    requires p in t.own
  {
    t.own[p] in t.tab && t.tab[t.own[p]] == p
  }

  predicate HeldOk(m: Mem, t: Tree, f: nat)
    requires f in t.held
  {
    t.held[f] in t.leaf && t.leaf[t.held[f]] / FLAGS == f && f !in t.own && f != 0 && IsPage(m, f)
  }

  /** Memory holds exactly the tree t. */
  ghost predicate TableOk(m: Mem, t: Tree) {
    && ROOT in t.tab
    && (forall key {:trigger NodeOk(m, t, key)} :: key in t.tab ==> NodeOk(m, t, key))
    && (forall key {:trigger Entries(m, t, key)} :: key in t.tab && NodeOk(m, t, key) ==> Entries(m, t, key))
    && (forall v {:trigger LeafOk(t, v)} :: v in t.leaf ==> LeafOk(t, v))
    && (forall p {:trigger OwnOk(t, p)} :: p in t.own ==> OwnOk(t, p))
    && (forall f {:trigger HeldOk(m, t, f)} :: f in t.held ==> HeldOk(m, t, f))
  }

  /** The page at which the walk for v arrives on level `level`. */
  function Shift(v: nat, level: nat): nat {
    if level == 0 then v else if level == 1 then v / ENTRIES else if level == 2 then v / ENTRIES / ENTRIES else 0
  }

  // ---------------------------------------------------------------- updates

  function Store(m: Mem, p: nat, k: nat, x: nat): Mem
    requires IsPage(m, p) && k < ENTRIES
  {
    m[p := Page(m[p].w[k := x])]
  }

  function Zeros(): Page {
    Page(seq(ENTRIES, _ => 0))
  }

  function Fill(b: nat): Page {
    Page(seq(ENTRIES, _ => b * 0x0101010101010101))
  }

  /** Memory outside the table pages does not matter. */
  lemma TableFrame(m: Mem, m': Mem, t: Tree)
    requires TableOk(m, t) && m'.Keys == m.Keys
    requires forall p :: p in t.own && p in m ==> m'[p] == m[p]
    requires forall f :: f in t.held ==> IsPage(m', f)
    ensures TableOk(m', t)
  {
    forall key | key in t.tab ensures NodeOk(m', t, key) { assert NodeOk(m, t, key); }
    forall key | key in t.tab ensures Entries(m', t, key) {
      assert NodeOk(m, t, key) && Entries(m, t, key) && NodeOk(m', t, key);
      forall k: nat | k < ENTRIES ensures EntryOk(m', t, key, k) { assert EntryOk(m, t, key, k); }
    }
    forall f | f in t.held ensures HeldOk(m', t, f) { assert HeldOk(m, t, f); }
  }

  /** Writing a leaf entry changes that translation and nothing else. */
  function SetLeaf(t: Tree, v: nat, pte: nat): Tree {
    t.(leaf := if pte == 0 then t.leaf - {v} else t.leaf[v := pte])
  }

  lemma SetLeafEntries(m: Mem, t: Tree, v: nat, pte: nat, key: Key)
    requires TableOk(m, t) && Key(0, v / ENTRIES) in t.tab && IsPage(m, t.tab[Key(0, v / ENTRIES)]) && key in t.tab
    ensures NodeOk(Store(m, t.tab[Key(0, v / ENTRIES)], v % ENTRIES, pte), SetLeaf(t, v, pte), key)
    ensures Entries(Store(m, t.tab[Key(0, v / ENTRIES)], v % ENTRIES, pte), SetLeaf(t, v, pte), key)
  {
    var at := Key(0, v / ENTRIES);
    var m', t' := Store(m, t.tab[at], v % ENTRIES, pte), SetLeaf(t, v, pte);
    assert NodeOk(m, t, key) && NodeOk(m, t, at) && Entries(m, t, key);
    assert NodeOk(m', t', key);
    forall k: nat | k < ENTRIES ensures EntryOk(m', t', key, k) { assert EntryOk(m, t, key, k); }
  }

  lemma SetLeafOk(m: Mem, t: Tree, v: nat, pte: nat)
    requires TableOk(m, t) && Key(0, v / ENTRIES) in t.tab && IsPage(m, t.tab[Key(0, v / ENTRIES)])
    requires pte == 0 || pte % 2 == 1
    requires forall f :: f in t.held ==> t.held[f] != v
    ensures TableOk(Store(m, t.tab[Key(0, v / ENTRIES)], v % ENTRIES, pte), SetLeaf(t, v, pte))
  {
    var at := Key(0, v / ENTRIES);
    var m', t' := Store(m, t.tab[at], v % ENTRIES, pte), SetLeaf(t, v, pte);
    forall key | key in t'.tab ensures NodeOk(m', t', key) && Entries(m', t', key) {
      SetLeafEntries(m, t, v, pte, key);
    }
    forall u | u in t'.leaf ensures LeafOk(t', u) { if u != v { assert LeafOk(t, u); } }
    forall p | p in t'.own ensures OwnOk(t', p) { assert OwnOk(t, p); }
    forall f | f in t'.held ensures HeldOk(m', t', f) { assert HeldOk(m, t, f) && NodeOk(m, t, at); }
  }

  /** Hanging a zeroed page into an empty entry changes no translation. */
  function AddTable(t: Tree, key: Key, p: nat): Tree {
    t.(tab := t.tab[key := p], own := t.own[p := key])
  }

  predicate CanAdd(m: Mem, t: Tree, key: Key, p: nat) {
    && key.level < 2 && key !in t.tab && Key(key.level + 1, key.prefix / ENTRIES) in t.tab
    && IsPage(m, t.tab[Key(key.level + 1, key.prefix / ENTRIES)])
    && p !in t.own && p !in t.held && p != 0 && p in m && m[p] == Zeros()
  }

  function Hung(m: Mem, t: Tree, key: Key, p: nat): Mem
    requires CanAdd(m, t, key, p)
  {
    Store(m, t.tab[Key(key.level + 1, key.prefix / ENTRIES)], key.prefix % ENTRIES, p * FLAGS + PTE_V)
  }

  lemma AddTableOld(m: Mem, t: Tree, key: Key, p: nat, k2: Key)
    requires TableOk(m, t) && CanAdd(m, t, key, p) && k2 in t.tab
    ensures NodeOk(Hung(m, t, key, p), AddTable(t, key, p), k2) && Entries(Hung(m, t, key, p), AddTable(t, key, p), k2)
  {
    var m', t' := Hung(m, t, key, p), AddTable(t, key, p);
    var up := Key(key.level + 1, key.prefix / ENTRIES);
    assert NodeOk(m, t, k2) && NodeOk(m, t, up) && Entries(m, t, k2);
    assert NodeOk(m', t', k2);
    forall k: nat | k < ENTRIES ensures EntryOk(m', t', k2, k) { assert EntryOk(m, t, k2, k); }
  }

  lemma LeafParent(m: Mem, t: Tree, v: nat)
    requires TableOk(m, t) && v in t.leaf
    ensures Key(0, v / ENTRIES) in t.tab
  {
    assert LeafOk(t, v);
  }

  lemma TableParent(m: Mem, t: Tree, key: Key)
    requires TableOk(m, t) && key in t.tab && key.level < 2
    ensures Key(key.level + 1, key.prefix / ENTRIES) in t.tab
  {
    assert NodeOk(m, t, key);
  }

  /** Nothing hangs below a table page that does not exist. */
  lemma EmptyEntry(m: Mem, t: Tree, key: Key, k: nat)
    requires TableOk(m, t) && key !in t.tab && key.level < 2 && k < ENTRIES
    ensures EntryAt(t, key, k) == 0
  {
    var c := key.prefix * ENTRIES + k;
    if key.level == 0 && c in t.leaf {
      LeafParent(m, t, c);
    } else if key.level > 0 && Key(key.level - 1, c) in t.tab {
      TableParent(m, t, Key(key.level - 1, c));
    }
  }

  lemma AddTableNew(m: Mem, t: Tree, key: Key, p: nat)
    requires TableOk(m, t) && CanAdd(m, t, key, p)
    ensures NodeOk(Hung(m, t, key, p), AddTable(t, key, p), key)
            && Entries(Hung(m, t, key, p), AddTable(t, key, p), key)
  {
    var m', t' := Hung(m, t, key, p), AddTable(t, key, p);
    assert NodeOk(m, t, Key(key.level + 1, key.prefix / ENTRIES));
    assert NodeOk(m', t', key);
    forall k: nat | k < ENTRIES ensures EntryOk(m', t', key, k) { EmptyEntry(m, t, key, k); }
  }

  lemma AddTableOk(m: Mem, t: Tree, key: Key, p: nat)
    requires TableOk(m, t) && CanAdd(m, t, key, p)
    ensures TableOk(Hung(m, t, key, p), AddTable(t, key, p))
  {
    var m', t' := Hung(m, t, key, p), AddTable(t, key, p);
    assert NodeOk(m, t, Key(key.level + 1, key.prefix / ENTRIES));
    forall k2 | k2 in t'.tab ensures NodeOk(m', t', k2) && Entries(m', t', k2) {
      if k2 == key { AddTableNew(m, t, key, p); } else { AddTableOld(m, t, key, p, k2); }
    }
    forall v | v in t'.leaf ensures LeafOk(t', v) { assert LeafOk(t, v); }
    forall q | q in t'.own ensures OwnOk(t', q) { if q != p { assert OwnOk(t, q); } }
    forall f | f in t'.held ensures HeldOk(m', t', f) { assert HeldOk(m, t, f); }
  }
}

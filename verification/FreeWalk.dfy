/**
  kernel/vm.c: freewalk gives every page of a page table without leaves back, and nothing else.
 */
module FreeWalk {
  import opened PageTable
  import opened Vm

  /** The table page k lies in the subtree of key. */
  predicate Under(k: Key, key: Key) {
    k.level <= key.level && Shift(k.prefix, key.level - k.level) == key.prefix
  }

  /** It lies below one of the first i entries of key. */
  predicate Within(k: Key, key: Key, i: nat) {
    Under(k, key) && k.level < key.level && Shift(k.prefix, key.level - 1 - k.level) < key.prefix * ENTRIES + i
  }

  /** The table page that entry i of key would name. */
  function Child(key: Key, i: nat): Key {
    Key(if key.level == 0 then 0 else key.level - 1, key.prefix * ENTRIES + i)
  }

  predicate KeyOk(t: Tree, key: Key)
    requires key in t.tab
  {
    && key.level <= 2 && (key.level < 2 ==> Key(key.level + 1, key.prefix / ENTRIES) in t.tab)
    && t.tab[key] != 0 && t.tab[key] in t.own && t.own[t.tab[key]] == key
  }

  /** A tree without leaves, apart from what memory holds. */
  ghost predicate Skeleton(t: Tree) {
    && t.leaf == map[]
    && (forall key {:trigger KeyOk(t, key)} :: key in t.tab ==> KeyOk(t, key))
    && (forall p {:trigger OwnOk(t, p)} :: p in t.own ==> OwnOk(t, p))
  }

  ghost function SubTree(t: Tree, key: Key): set<nat> {
    set p | p in t.own && Under(t.own[p], key)
  }

  ghost function Part(t: Tree, key: Key, i: nat): set<nat> {
    set p | p in t.own && Within(t.own[p], key, i)
  }

  ghost predicate NodeIn(m: Mem, t: Tree, k: Key)
    requires k in t.tab
  {
    IsPage(m, t.tab[k]) && Entries(m, t, k)
  }

  ghost predicate SubMem(m: Mem, t: Tree, key: Key) {
    forall k {:trigger NodeIn(m, t, k)} :: k in t.tab && Under(k, key) ==> NodeIn(m, t, k)
  }

  lemma PartNone(t: Tree, key: Key)
    ensures Part(t, key, 0) == {}
  {
  }

  lemma PartAll(t: Tree, key: Key)
    requires Skeleton(t) && key in t.tab
    ensures SubTree(t, key) == Part(t, key, ENTRIES) + {t.tab[key]} && t.tab[key] !in Part(t, key, ENTRIES)
  {
    assert KeyOk(t, key);
    forall p | p in t.own ensures Under(t.own[p], key) <==> Within(t.own[p], key, ENTRIES) || p == t.tab[key] {
      assert OwnOk(t, p) && KeyOk(t, t.own[p]);
    }
  }

  /** The pages below entry i are those of the child there, if there is one. */
  lemma PartMore(t: Tree, key: Key, i: nat)
    requires Skeleton(t) && key in t.tab && i < ENTRIES && key.level > 0
    ensures var c := Child(key, i);
            && Part(t, key, i + 1) == Part(t, key, i) + (if c in t.tab then SubTree(t, c) else {})
            && SubTree(t, c) !! Part(t, key, i) && t.tab[key] !in SubTree(t, c)
  {
    var c := Child(key, i);
    assert KeyOk(t, key);
    forall p | p in t.own
      ensures Within(t.own[p], key, i + 1) <==> Within(t.own[p], key, i) || Under(t.own[p], c)
      ensures Under(t.own[p], c) ==> c in t.tab && !Within(t.own[p], key, i)
    {
      assert OwnOk(t, p) && KeyOk(t, t.own[p]);
    }
  }

  /** Memory while freewalk is at entry i of a table page: what is left below is still in place. */
  ghost predicate Halfway(m: Mem, m': Mem, t: Tree, key: Key, i: nat)
    requires key in t.tab
  {
    && IsPage(m, t.tab[key]) && IsPage(m', t.tab[key]) && Kept(m, m', Part(t, key, i) + {t.tab[key]})
    && forall j :: i <= j < ENTRIES ==> m'[t.tab[key]].w[j] == m[t.tab[key]].w[j]
  }

  /** The entry for a table page is valid and has no permission bit. */
  predicate TableEntry(pte: nat, p: nat) {
    pte % 2 == 1 && pte / 2 % 8 == 0 && pte / FLAGS == p
  }

  lemma EntryBits(p: nat)
    ensures TableEntry(p * FLAGS + PTE_V, p)
  {
    PteParts(p);
    var pte := p * FLAGS + PTE_V;
    assert pte == 2 * (p * 512) + 1;
    Halved(p * 512);
    assert p * 512 == 8 * (p * 64);
    Eighth(p * 64);
  }

  lemma Halved(n: nat)
    ensures (2 * n + 1) / 2 == n
  {
  }

  lemma Eighth(n: nat)
    ensures 8 * n % 8 == 0
  {
  }

  /** The entry that freewalk reads next names the child, or is empty. */
  lemma NextEntry(m: Mem, m': Mem, t: Tree, key: Key, i: nat)
    requires Skeleton(t) && key in t.tab && SubMem(m, t, key) && i < ENTRIES && Halfway(m, m', t, key, i)
    ensures var pte, c := m'[t.tab[key]].w[i], Child(key, i);
            if key.level > 0 && c in t.tab then TableEntry(pte, t.tab[c]) && SubMem(m', t, c) else pte == 0
  {
    assert KeyOk(t, key) && NodeIn(m, t, key) && EntryOk(m, t, key, i);
    var c := Child(key, i);
    if key.level > 0 && c in t.tab {
      EntryBits(t.tab[c]);
      PartMore(t, key, i);
      forall k | k in t.tab && Under(k, c) ensures NodeIn(m', t, k) {
        assert KeyOk(t, k) && Under(k, key) && NodeIn(m, t, k) && t.tab[k] in SubTree(t, c);
        forall n: nat | n < ENTRIES ensures EntryOk(m', t, k, n) { assert EntryOk(m, t, k, n); }
      }
    }
  }

  lemma NextHalfway(m: Mem, m1: Mem, m2: Mem, t: Tree, key: Key, i: nat)
    requires Skeleton(t) && key in t.tab && key.level > 0 && i < ENTRIES && Halfway(m, m1, t, key, i)
    requires Child(key, i) in t.tab
    requires Kept(m1, m2, SubTree(t, Child(key, i)))
    ensures IsPage(m2, t.tab[key]) && Halfway(m, Store(m2, t.tab[key], i, 0), t, key, i + 1)
  {
    PartMore(t, key, i);
    assert KeyOk(t, key);
  }

  lemma SkipHalfway(m: Mem, m': Mem, t: Tree, key: Key, i: nat)
    requires Skeleton(t) && key in t.tab && i < ENTRIES && Halfway(m, m', t, key, i)
    requires key.level == 0 || Child(key, i) !in t.tab
    ensures Halfway(m, m', t, key, i + 1) && Part(t, key, i + 1) == Part(t, key, i)
  {
    if key.level > 0 { PartMore(t, key, i); }
  }

  lemma ChildReady(t: Tree, key: Key, i: nat, p0: set<nat>)
    requires Skeleton(t) && key in t.tab && key.level > 0 && i < ENTRIES && p0 !! SubTree(t, key)
             && Child(key, i) in t.tab
    ensures (p0 + Part(t, key, i)) !! SubTree(t, Child(key, i))
    ensures p0 + Part(t, key, i) + SubTree(t, Child(key, i)) == p0 + Part(t, key, i + 1)
  {
    PartMore(t, key, i);
    forall p | p in SubTree(t, Child(key, i)) ensures p in SubTree(t, key) {
      assert OwnOk(t, p) && KeyOk(t, t.own[p]) && KeyOk(t, key);
    }
  }

  /** One iteration of freewalk's loop, with the recursive call. */
  method FreeEntry(k: Kernel, page: nat, i: nat, ghost key: Key, ghost t: Tree, ghost m0: Mem, ghost p0: set<nat>)
    requires k.Pool() && Skeleton(t) && key in t.tab && page == t.tab[key] && SubMem(m0, t, key)
             && p0 !! SubTree(t, key)
    requires i < ENTRIES && Halfway(m0, k.mem, t, key, i) && k.pool == p0 + Part(t, key, i)
    modifies k
    ensures k.denied == old(k.denied)
    ensures k.Pool() && Halfway(m0, k.mem, t, key, i + 1) && k.pool == p0 + Part(t, key, i + 1)
    decreases key.level, 0
  {
    NextEntry(m0, k.mem, t, key, i);
    assert KeyOk(t, key);
    var pte := k.mem[page].w[i];
    if pte % 2 == 1 && pte / 2 % 8 == 0 {
      ChildReady(t, key, i, p0);
      Freewalk(k, pte / FLAGS, Child(key, i), t);
      NextHalfway(m0, old(k.mem), k.mem, t, key, i);
      k.mem := Store(k.mem, page, i, 0);
    } else {
      assert pte % 2 == 0;   // no leaf is met
      SkipHalfway(m0, k.mem, t, key, i);
    }
  }

  method Freewalk(k: Kernel, page: nat, ghost key: Key, ghost t: Tree)
    requires k.Pool() && Skeleton(t) && key in t.tab && page == t.tab[key] && SubMem(k.mem, t, key)
             && k.pool !! SubTree(t, key)
    modifies k
    ensures k.denied == old(k.denied)
    ensures k.Pool() && k.pool == old(k.pool) + SubTree(t, key) && Kept(old(k.mem), k.mem, SubTree(t, key))
    decreases key.level, 1
  {
    assert KeyOk(t, key) && NodeIn(k.mem, t, key);
    PartNone(t, key);
    for i := 0 to ENTRIES
      invariant k.denied == old(k.denied)
      invariant k.Pool() && k.pool == old(k.pool) + Part(t, key, i) && Halfway(old(k.mem), k.mem, t, key, i)
    {
      FreeEntry(k, page, i, key, t, old(k.mem), old(k.pool));
    }
    PartAll(t, key);
    k.Kfree(page);
  }
}

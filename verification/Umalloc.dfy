/**
  user/umalloc.c: the Kernighan and Ritchie allocator on a memory of headers. `ptr` and `size` are
  the header fields, indexed by header address in units of sizeof(Header).
  A clause `P(..) == true` says P(..) and keeps it one fact, which the verifier does not take apart.
 */
module Umalloc {
  import opened FreeList

  type Mem = map<nat, nat>

  ghost predicate NodeOk(free: seq<Blk>, ptr: Mem, size: Mem, i: nat)
    requires i < |free|
  {
    && free[i].addr in ptr && free[i].addr in size
    && size[free[i].addr] == free[i].size
    && ptr[free[i].addr] == free[if i + 1 == |free| then 0 else i + 1].addr
  }

  /** The headers form the circular list `free`. */
  ghost predicate Linked(free: seq<Blk>, ptr: Mem, size: Mem) {
    forall i: nat {:trigger NodeOk(free, ptr, size, i)} :: i < |free| ==> NodeOk(free, ptr, size, i)
  }

  // ---------------------------------------------------------------- pointer surgery

  /** Addresses of a separated list grow strictly. */
  lemma Ascending(free: seq<Blk>, i: nat, j: nat)
    requires Separated(free) && i < j < |free|
    ensures free[i].addr < free[j].addr
  {
  }

  /** Where the blocks of Insert(free, t, b) come from: the new or merged block is at k, those before it
      keep their positions, those behind it move by d. */
  lemma InsertParts(free: seq<Blk>, t: nat, b: Blk)
    requires t < |free|
    ensures var (g, (b1, rest)) := (Insert(free, t, b), Upper(free, t, b));
            var low := free[t].addr + free[t].size == b.addr;
            var k, d := if low then t else t + 1, |g| - |free|;
            && k < |g| && |g| == k + 1 + |rest|
            && g[k] == (if low then Blk(free[t].addr, free[t].size + b1.size) else b1)
            && (forall i :: 0 <= i < k ==> g[i] == free[i])
            && (forall i :: k < i < |g| ==> t < i - d < |free| && g[i] == free[i - d])
            && (rest != [] ==> g[k + 1] == rest[0])
  {
  }

  /** The next block after a block before k, or after one behind k, is the one it was in the old list. */
  lemma NodeBefore(free: seq<Blk>, g: seq<Blk>, ptr: Mem, size: Mem, ptr': Mem, size': Mem, i: nat)
    requires i + 1 < |free| && i + 1 < |g| && NodeOk(free, ptr, size, i) && g[i] == free[i]
             && g[i + 1].addr == free[i + 1].addr
    requires free[i].addr in ptr' && ptr'[free[i].addr] == ptr[free[i].addr]
    requires free[i].addr in size' && size'[free[i].addr] == size[free[i].addr]
    ensures NodeOk(g, ptr', size', i)
  {
  }

  lemma NodeBehind(free: seq<Blk>, g: seq<Blk>, ptr: Mem, size: Mem, ptr': Mem, size': Mem, i: nat, j: nat)
    requires j < |free| && i < |g| && NodeOk(free, ptr, size, j) && g[i] == free[j] && g[0].addr == free[0].addr
    requires if j + 1 == |free| then i + 1 == |g| else i + 1 < |g| && g[i + 1] == free[j + 1]
    requires free[j].addr in ptr' && ptr'[free[j].addr] == ptr[free[j].addr]
    requires free[j].addr in size' && size'[free[j].addr] == size[free[j].addr]
    ensures NodeOk(g, ptr', size', i)
  {
  }

  /** The stores of free() when the block below is not adjacent. */
  lemma LinkNew(free: seq<Blk>, ptr: Mem, size: Mem, t: nat, b: Blk, ptr': Mem, size': Mem)
    requires Separated(free) && Linked(free, ptr, size) && Apart(free, b) && Fits(free, t, b) && b.size > 0
    requires free[t].addr + free[t].size != b.addr
    requires var (b1, rest) := Upper(free, t, b);
             var next := if rest == [] then free[0].addr else rest[0].addr;
             ptr' == ptr[b.addr := next][free[t].addr := b.addr] && size' == size[b.addr := b1.size]
    ensures Linked(Insert(free, t, b), ptr', size')
  {
    FitsAll(free, t, b);
    InsertParts(free, t, b);
    var g := Insert(free, t, b);
    forall i: nat | i < |g| ensures NodeOk(g, ptr', size', i) {
      if i < t {
        assert NodeOk(free, ptr, size, i);
        Ascending(free, i, t);
        NodeBefore(free, g, ptr, size, ptr', size', i);
      } else if i == t {
        assert NodeOk(free, ptr, size, t);
      } else if i > t + 1 {
        var j := i - (|g| - |free|);
        assert NodeOk(free, ptr, size, j);
        Ascending(free, t, j);
        NodeBehind(free, g, ptr, size, ptr', size', i, j);
      }
    }
  }

  /** The stores of free() when the block below is adjacent and takes b over. */
  lemma LinkLow(free: seq<Blk>, ptr: Mem, size: Mem, t: nat, b: Blk, ptr': Mem, size': Mem)
    requires Separated(free) && Linked(free, ptr, size) && Apart(free, b) && Fits(free, t, b) && b.size > 0
    requires free[t].addr + free[t].size == b.addr
    requires var (b1, rest) := Upper(free, t, b);
             var next := if rest == [] then free[0].addr else rest[0].addr;
             ptr' == ptr[b.addr := next][free[t].addr := next]
             && size' == size[b.addr := b1.size][free[t].addr := free[t].size + b1.size]
    ensures Linked(Insert(free, t, b), ptr', size')
  {
    FitsAll(free, t, b);
    InsertParts(free, t, b);
    var g := Insert(free, t, b);
    forall i: nat | i < |g| ensures NodeOk(g, ptr', size', i) {
      if i < t {
        assert NodeOk(free, ptr, size, i);
        Ascending(free, i, t);
        NodeBefore(free, g, ptr, size, ptr', size', i);
      } else if i > t {
        var j := i - (|g| - |free|);
        assert NodeOk(free, ptr, size, j);
        Ascending(free, t, j);
        NodeBehind(free, g, ptr, size, ptr', size', i, j);
      }
    }
  }

  /** The store of malloc() that unlinks block i. */
  lemma LinkUnlink(base: nat, free: seq<Blk>, ptr: Mem, size: Mem, i: nat, ptr': Mem)
    requires FreeOk(base, free) && Linked(free, ptr, size) && 1 <= i < |free|
    requires ptr' == ptr[free[i - 1].addr := free[if i + 1 == |free| then 0 else i + 1].addr]
    ensures Linked(Take(free, i, free[i].size), ptr', size)
  {
    var g := Take(free, i, free[i].size);
    forall k: nat | k < |g| ensures NodeOk(g, ptr', size, k) {
      if k < i {
        assert NodeOk(free, ptr, size, k);
        if k < i - 1 { Ascending(free, k, i - 1); }
      } else {
        assert NodeOk(free, ptr, size, k + 1);
        Ascending(free, i - 1, k + 1);
      }
    }
  }

  /** The stores of malloc() that cut n units off block i. */
  lemma LinkCut(base: nat, free: seq<Blk>, ptr: Mem, size: Mem, i: nat, n: nat, size': Mem)
    requires FreeOk(base, free) && Linked(free, ptr, size) && 1 <= i < |free| && 0 < n < free[i].size
    requires size' == size[free[i].addr := free[i].size - n][free[i].addr + free[i].size - n := n]
    ensures Linked(Take(free, i, n), ptr, size')
  {
    var g := Take(free, i, n);
    forall k: nat | k < |g| ensures NodeOk(g, ptr, size', k) {
      assert NodeOk(free, ptr, size, k);
      if k < i { Ascending(free, k, i); } else if i < k { assert Before(free[i], free[k]); }
    }
  }

  // ---------------------------------------------------------------- blocks handed out

  ghost predicate LiveAt(base: nat, brk: nat, free: seq<Blk>, size: Mem, live: Mem, a: nat)
    requires a in live
  {
    && base < a && live[a] > 0 && a + live[a] <= brk
    && a in size && size[a] == live[a]
    && Apart(free, Blk(a, live[a]))
  }

  /** Every live block has its header intact and lies apart from all free and all other live blocks. */
  ghost predicate LiveOk(base: nat, brk: nat, free: seq<Blk>, size: Mem, live: Mem) {
    && (forall a {:trigger LiveAt(base, brk, free, size, live, a)} :: a in live ==>
          LiveAt(base, brk, free, size, live, a))
    && (forall a, c :: a in live && c in live && a < c ==> a + live[a] <= c)
  }

  ghost predicate InLive(live: Mem, u: nat) {
    exists a :: a in live && Inside(Blk(a, live[a]), u)
  }

  ghost function LiveUnits(live: Mem): iset<nat> {
    iset u: nat | InLive(live, u)
  }

  ghost predicate Below(free: seq<Blk>, brk: nat) {
    forall i :: 0 <= i < |free| ==> free[i].addr + free[i].size <= brk
  }

  lemma LiveUnitsAdd(live: Mem, a: nat, n: nat)
    requires a !in live
    ensures LiveUnits(live[a := n]) == LiveUnits(live) + Range(Blk(a, n))
  {
    var live' := live[a := n];
    forall u | u in LiveUnits(live) ensures u in LiveUnits(live') {
      var c :| c in live && Inside(Blk(c, live[c]), u);
      assert c in live' && Inside(Blk(c, live'[c]), u);
    }
    forall u | u in Range(Blk(a, n)) ensures u in LiveUnits(live') {
      assert a in live' && Inside(Blk(a, live'[a]), u);
    }
    forall u | u in LiveUnits(live') ensures u in LiveUnits(live) + Range(Blk(a, n)) {
      var c :| c in live' && Inside(Blk(c, live'[c]), u);
      if c != a { assert c in live && Inside(Blk(c, live[c]), u); }
    }
  }

  /** A live block becomes free: the blocks that stay live are not disturbed. */
  lemma FreeKeepsLive(base: nat, brk: nat, free: seq<Blk>, size: Mem, live: Mem, t: nat, a: nat, size': Mem)
    requires FreeOk(base, free) && Below(free, brk) && LiveOk(base, brk, free, size, live)
    requires a in live && Fits(free, t, Blk(a, live[a]))
    requires forall c :: c in size && c != a && c != free[t].addr ==> c in size' && size'[c] == size[c]
    ensures LiveOk(base, brk, Insert(free, t, Blk(a, live[a])), size', live - {a})
    ensures Below(Insert(free, t, Blk(a, live[a])), brk)
  {
    var b := Blk(a, live[a]);
    var g := Insert(free, t, b);
    assert LiveAt(base, brk, free, size, live, a);
    FitsAll(free, t, b);
    InsertParts(free, t, b);
    forall c | c in live - {a} ensures LiveAt(base, brk, g, size', live - {a}, c) {
      assert LiveAt(base, brk, free, size, live, c);
      assert c != free[t].addr by { assert free[t].addr + free[t].size <= c || c + live[c] <= free[t].addr; }
      InsertApart(free, t, b, Blk(c, live[c]));
    }
  }

  /** Units taken from a free block become a live block. */
  lemma TakeKeepsLive(base: nat, brk: nat, free: seq<Blk>, size: Mem, live: Mem, i: nat, n: nat, size': Mem)
    requires FreeOk(base, free) && Below(free, brk) && LiveOk(base, brk, free, size, live)
    requires 1 <= i < |free| && 0 < n <= free[i].size
    requires var a := free[i].addr + free[i].size - n;
             && a in size' && size'[a] == n
             && forall c :: c in size && c != a && c != free[i].addr ==> c in size' && size'[c] == size[c]
    ensures var a := free[i].addr + free[i].size - n;
            && a !in live
            && LiveOk(base, brk, Take(free, i, n), size', live[a := n]) && Below(Take(free, i, n), brk)
  {
    var a := free[i].addr + free[i].size - n;
    var g, live' := Take(free, i, n), live[a := n];
    TakeOk(base, free, i, n);
    assert Before(free[0], free[i]);
    forall c | c in live
      ensures c != a && (c + live[c] <= free[i].addr || free[i].addr + free[i].size <= c)
    {
      assert LiveAt(base, brk, free, size, live, c);
    }
    forall c | c in live' ensures LiveAt(base, brk, g, size', live', c) {
      if c != a { assert LiveAt(base, brk, free, size, live, c); }
    }
    forall c, d | c in live' && d in live' && c < d ensures c + live'[c] <= d {
      if c != a && d != a { assert c in live && d in live; }
    }
  }

  // ---------------------------------------------------------------- the heap as a whole

  /** Free and live blocks partition the units obtained from sbrk (`arena`); the free list is
      circular, address-ordered and fully coalesced; no live block is touched by any free one. */
  ghost predicate HeapOk(base: nat, brk: nat, free: seq<Blk>, ptr: Mem, size: Mem, live: Mem, arena: iset<nat>) {
    && FreeOk(base, free) && Linked(free, ptr, size) && Below(free, brk)
    && LiveOk(base, brk, free, size, live)
    && arena == Units(free) + LiveUnits(live)
  }

  /** The stores of free() once the place p has been found. */
  function FreeStores(ptr: Mem, size: Mem, p: nat, bp: nat): (Mem, Mem)
    requires p in ptr && p in size && bp in size && ptr[p] in ptr && ptr[p] in size
  {
    var up := bp + size[bp] == ptr[p];
    var size1 := if up then size[bp := size[bp] + size[ptr[p]]] else size;
    var ptr1 := ptr[bp := if up then ptr[ptr[p]] else ptr[p]];
    if p + size1[p] == bp then (ptr1[p := ptr1[bp]], size1[p := size1[p] + size1[bp]])
    else (ptr1[p := bp], size1)
  }

  ghost predicate CanStore(free: seq<Blk>, ptr: Mem, size: Mem, t: nat, b: Blk) {
    && Separated(free) && Linked(free, ptr, size) && Apart(free, b) && Fits(free, t, b) && b.size > 0
    && b.addr in size && size[b.addr] == b.size && free[0].addr < b.addr
  }

  lemma StoreReady(free: seq<Blk>, ptr: Mem, size: Mem, t: nat, b: Blk)
    requires CanStore(free, ptr, size, t, b)
    ensures var p := free[t].addr;
            p in ptr && p in size && ptr[p] in ptr && ptr[p] in size
  {
    assert NodeOk(free, ptr, size, t) && NodeOk(free, ptr, size, if t + 1 == |free| then 0 else t + 1);
  }

  lemma StoresLinked(free: seq<Blk>, ptr: Mem, size: Mem, t: nat, b: Blk, ptr': Mem, size': Mem)
    requires CanStore(free, ptr, size, t, b)
    requires var p := free[t].addr;
             p in ptr && p in size && ptr[p] in ptr && ptr[p] in size
               && (ptr', size') == FreeStores(ptr, size, p, b.addr)
    ensures Linked(Insert(free, t, b), ptr', size')
    ensures forall c :: c in size && c != b.addr && c != free[t].addr ==> c in size' && size'[c] == size[c]
  {
    var (b1, rest) := Upper(free, t, b);
    assert NodeOk(free, ptr, size, t);
    if t + 1 < |free| { assert NodeOk(free, ptr, size, t + 1); }
    if free[t].addr + free[t].size == b.addr {
      LinkLow(free, ptr, size, t, b, ptr', size');
    } else {
      LinkNew(free, ptr, size, t, b, ptr', size');
    }
  }

  /** free() of a live block. */
  lemma FreeStep(base: nat, brk: nat, free: seq<Blk>, ptr: Mem, size: Mem, live: Mem, arena: iset<nat>, t: nat, a: nat,
                 ptr': Mem, size': Mem)
    requires HeapOk(base, brk, free, ptr, size, live, arena)
    requires a in live && Fits(free, t, Blk(a, live[a]))
    requires var p := free[t].addr;
             a in size && p in ptr && p in size && ptr[p] in ptr && ptr[p] in size
               && (ptr', size') == FreeStores(ptr, size, p, a)
    ensures HeapOk(base, brk, Insert(free, t, Blk(a, live[a])), ptr', size', live - {a}, arena)
    ensures Units(Insert(free, t, Blk(a, live[a]))) == Units(free) + Range(Blk(a, live[a]))
  {
    var b := Blk(a, live[a]);
    assert LiveAt(base, brk, free, size, live, a);
    StoresLinked(free, ptr, size, t, b, ptr', size');
    FreeKeepsLive(base, brk, free, size, live, t, a, size');
    InsertOk(base, free, t, b);
    LiveUnitsAdd(live - {a}, a, live[a]);
    assert (live - {a})[a := live[a]] == live;
  }

  ghost predicate SomeBig(free: seq<Blk>, n: nat) {
    exists i :: 0 <= i < |free| && free[i].size >= n
  }

  ghost predicate AllSmall(free: seq<Blk>, n: nat) {
    forall i :: 0 <= i < |free| ==> free[i].size < n
  }

  lemma InsertRoom(free: seq<Blk>, t: nat, b: Blk)
    requires t < |free|
    ensures SomeBig(Insert(free, t, b), b.size)
  {
    assert Insert(free, t, b)[if free[t].addr + free[t].size == b.addr then t else t + 1].size >= b.size;
  }

  /** malloc() of n units from block i, by unlinking the whole block. */
  lemma UnlinkStep(base: nat, brk: nat, free: seq<Blk>, ptr: Mem, size: Mem, live: Mem, arena: iset<nat>, i: nat,
                   ptr': Mem)
    requires HeapOk(base, brk, free, ptr, size, live, arena) && 1 <= i < |free|
    requires ptr' == ptr[free[i - 1].addr := free[if i + 1 == |free| then 0 else i + 1].addr]
    ensures var n := free[i].size;
            free[i].addr !in live && HeapOk(base, brk, Take(free, i, n), ptr', size, live[free[i].addr := n], arena)
  {
    var n := free[i].size;
    assert NodeOk(free, ptr, size, i);
    LinkUnlink(base, free, ptr, size, i, ptr');
    TakeKeepsLive(base, brk, free, size, live, i, n, size);
    TakeOk(base, free, i, n);
    LiveUnitsAdd(live, free[i].addr, n);
  }

  /** malloc() of n units from block i, by cutting them off its end. */
  lemma CutStep(base: nat, brk: nat, free: seq<Blk>, ptr: Mem, size: Mem, live: Mem, arena: iset<nat>, i: nat, n: nat,
                size': Mem)
    requires HeapOk(base, brk, free, ptr, size, live, arena) && 1 <= i < |free| && 0 < n < free[i].size
    requires size' == size[free[i].addr := free[i].size - n][free[i].addr + free[i].size - n := n]
    ensures var a := free[i].addr + free[i].size - n;
            a !in live && HeapOk(base, brk, Take(free, i, n), ptr, size', live[a := n], arena) == true
  {
    var a := free[i].addr + free[i].size - n;
    LinkCut(base, free, ptr, size, i, n, size');
    TakeKeepsLive(base, brk, free, size, live, i, n, size');
    TakeOk(base, free, i, n);
    LiveUnitsAdd(live, a, n);
  }

  /** sbrk hands out a region beyond everything in use: it can be taken for a live block. */
  lemma GrowStep(base: nat, brk: nat, free: seq<Blk>, ptr: Mem, size: Mem, live: Mem, arena: iset<nat>, p: nat, n: nat)
    requires HeapOk(base, brk, free, ptr, size, live, arena) && base < brk <= p && n > 0
    ensures p !in live
    ensures HeapOk(base, p + n, free, ptr, size[p := n], live[p := n], arena + Range(Blk(p, n)))
  {
    var size', live' := size[p := n], live[p := n];
    forall a | a in live ensures a != p && a + live[a] <= p && LiveAt(base, p + n, free, size', live', a) {
      assert LiveAt(base, brk, free, size, live, a);
    }
    assert LiveAt(base, p + n, free, size', live', p);
    forall i: nat | i < |free| ensures NodeOk(free, ptr, size', i) {
      assert NodeOk(free, ptr, size, i);
      if i > 0 { assert free[i].size > 0; }
    }
    LiveUnitsAdd(live, p, n);
  }

  // ---------------------------------------------------------------- the allocator

  /** (nbytes + sizeof(Header) - 1) / sizeof(Header) + 1 */
  function UnitsFor(nbytes: nat): (n: nat)
    ensures (n - 1) * 16 >= nbytes && (n - 1) * 16 < nbytes + 16
  {
    (nbytes + 15) / 16 + 1
  }

  /** How many links lie between positions j and t of a circular list of n. */
  function Distance(j: nat, t: nat, n: nat): nat
    requires j < n && t < n
  {
    if j <= t then t - j else n - j + t
  }

  /** The position after k on the circle. */
  function After(k: nat, n: nat): (j: nat)
    requires k < n
    ensures j < n
  {
    if k + 1 == n then 0 else k + 1
  }

  /** A search that started behind position f and stands at j has passed position i. */
  predicate Passed(f: nat, i: nat, j: nat) {
    if f < j then f < i < j else i > f || i < j
  }

  ghost predicate SmallPassed(free: seq<Blk>, f: nat, j: nat, n: nat) {
    forall i :: 0 <= i < |free| && Passed(f, i, j) ==> free[i].size < n
  }

  /** A search that comes back to where it started has seen every block. */
  lemma AllPassed(free: seq<Blk>, f: nat, n: nat)
    requires f < |free| && SmallPassed(free, f, f, n) && free[f].size < n
    ensures AllSmall(free, n) && !SomeBig(free, n)
  {}

  lemma AtCur(free: seq<Blk>, j: nat, cur: nat)
    requires Separated(free) && j < |free| && cur < |free| && free[j].addr == free[cur].addr
    ensures j == cur
  {
  }

  lemma {:induction false} FindGoal(base: nat, free: seq<Blk>, b: Blk, k: nat) returns (t: nat)
    requires FreeOk(base, free) && base < b.addr && k < |free|
    requires forall i :: 0 <= i < |free| ==> free[i].addr != b.addr
    requires k + 1 < |free| ==> b.addr < free[k + 1].addr
    ensures Fits(free, t, b)
  {
    if free[k].addr < b.addr { t := k; } else { t := FindGoal(base, free, b, k - 1); }
  }

  /** The two stopping tests of the search in free() succeed exactly where b belongs. */
  lemma SearchStep(base: nat, free: seq<Blk>, b: Blk, j: nat, goal: nat)
    requires FreeOk(base, free) && j < |free| && Fits(free, goal, b)
    ensures var p, np := free[j].addr, free[if j + 1 == |free| then 0 else j + 1].addr;
            if (b.addr > p && b.addr < np) || (p >= np && (b.addr > p || b.addr < np))
            then Fits(free, j, b)
            else j != goal
  {
  }

  /** A call of sbrk for n units, and where the region it returned starts; 0 when it failed. */
  datatype Call = Call(n: nat, p: nat)

  ghost function Region(c: Call): iset<nat> {
    if c.p == 0 then iset{} else Range(Blk(c.p, c.n))
  }

  /** All units obtained from sbrk. */
  ghost function Given(asked: seq<Call>): iset<nat> {
    if asked == [] then iset{} else Given(asked[..|asked| - 1]) + Region(asked[|asked| - 1])
  }

  /** Each region lies above all earlier ones and below the break. */
  ghost predicate Rising(asked: seq<Call>, brk: nat) {
    asked == [] ||
    var c := asked[|asked| - 1];
    if c.p == 0 then Rising(asked[..|asked| - 1], brk) else Rising(asked[..|asked| - 1], c.p) && c.p + c.n <= brk
  }

  lemma {:induction false} RisingUp(asked: seq<Call>, lo: nat, hi: nat)
    requires Rising(asked, lo) && lo <= hi
    ensures Rising(asked, hi)
  {
    if asked != [] && asked[|asked| - 1].p == 0 { RisingUp(asked[..|asked| - 1], lo, hi); }
  }

  /** Regions of different calls have no unit in common. */
  lemma {:induction false} RegionsApart(asked: seq<Call>, brk: nat, i: nat, j: nat)
    requires Rising(asked, brk) && i < j < |asked|
    ensures Region(asked[i]) !! Region(asked[j])
  {
    var n := |asked| - 1;
    var bound := if asked[n].p == 0 then brk else asked[n].p;
    if j < n {
      RegionsApart(asked[..n], bound, i, j);
    } else {
      RegionBelow(asked[..n], bound, i);
    }
  }

  lemma {:induction false} RegionBelow(asked: seq<Call>, brk: nat, i: nat)
    requires Rising(asked, brk) && i < |asked|
    ensures forall u :: u in Region(asked[i]) ==> u < brk
  {
    var n := |asked| - 1;
    if i < n { RegionBelow(asked[..n], if asked[n].p == 0 then brk else asked[n].p, i); }
  }

  lemma AskedMore(asked: seq<Call>, c: Call, lo: nat, hi: nat)
    requires Rising(asked, lo) && lo <= hi && (c.p != 0 ==> lo <= c.p && c.p + c.n <= hi)
    ensures Rising(asked + [c], hi)
    ensures Given(asked + [c]) == if c.p == 0 then Given(asked) else Given(asked) + Range(Blk(c.p, c.n))
  {
    assert (asked + [c])[..|asked|] == asked;
    RisingUp(asked, lo, if c.p == 0 then hi else c.p);
  }

  /** What morecore asks sbrk for. */
  function Enough(nu: nat): nat {
    if nu < 4096 then 4096 else nu
  }

  /** The int that sbrk receives for n units: the low 32 bits of the product. */
  function IntArg(n: nat): int {
    var x := n * 16 % 0x1_0000_0000;
    if x < 0x8000_0000 then x else x - 0x1_0000_0000
  }

  /** sbrk would be asked for something else than the units needed. */
  predicate Garbled(nbytes: nat) {
    var n := Enough(UnitsFor(nbytes));
    IntArg(n) != n * 16
  }

  lemma GarbledExactly(nbytes: nat)
    requires nbytes < 0x1_0000_0000
    ensures Garbled(nbytes) <==> nbytes > 0x7FFF_FFE0
  {
    var n := UnitsFor(nbytes);
    if nbytes <= 0x7FFF_FFE0 {
      assert n <= 0x7FF_FFFF;
    } else {
      assert n >= 0x800_0000;
    }
  }

  /** Such requests: one that would shrink the heap, and one that would leave it as it is. */
  lemma GarbledRequests()
    ensures IntArg(Enough(UnitsFor(0x7FFF_FFE1))) == -0x8000_0000 && IntArg(Enough(UnitsFor(0xFFFF_FFF0))) == 0
  {
    assert UnitsFor(0x7FFF_FFE1) == 0x800_0000 && UnitsFor(0xFFFF_FFF0) == 0x1000_0000;
  }

  class Allocator {
    const base: nat
    var freep: nat      // 0 before the first malloc
    var ptr: Mem
    var size: Mem
    var brk: nat        // the program break

    ghost var free: seq<Blk>
    ghost var cur: nat            // freep == free[cur].addr
    ghost var live: Mem           // blocks handed out, with their sizes
    ghost var asked: seq<Call>    // the calls of sbrk so far

    constructor (base: nat, brk: nat)
      requires 0 < base < brk
      ensures Valid() && this.base == base && live == map[] && asked == []
    {
      this.base, this.brk, freep := base, brk, 0;
      ptr, size := map[], map[];
      free, live, asked := [], map[], [];
    }

    ghost predicate Valid()
      reads this
    {
      && 0 < base < brk && Rising(asked, brk) == true
      && (freep == 0 ==> free == [] && live == map[] && asked == [])
      && (freep != 0 ==>
            HeapOk(base, brk, free, ptr, size, live, Given(asked)) == true && cur < |free| && freep == free[cur].addr)
    }

    /** The search of free(): the node after which bp belongs. */
    method FindPlace(bp: nat) returns (p: nat, ghost t: nat)
      requires Valid() && bp in live
      ensures t < |free| && p == free[t].addr && Fits(free, t, Blk(bp, live[bp]))
    {
      ghost var b, n := Blk(bp, live[bp]), |free|;
      assert LiveAt(base, brk, free, size, live, bp);
      ghost var goal := FindGoal(base, free, b, n - 1);
      p := freep;
      ghost var j: nat := cur;
      assert NodeOk(free, ptr, size, j);
      while !(bp > p && bp < ptr[p])
        invariant freep != 0 && n == |free| && j < n && p == free[j].addr && p in ptr
        invariant NodeOk(free, ptr, size, j)
        decreases Distance(j, goal, n)
      {
        SearchStep(base, free, b, j, goal);
        if p >= ptr[p] && (bp > p || bp < ptr[p]) { break; }
        p := ptr[p];
        j := if j + 1 == n then 0 else j + 1;
        assert NodeOk(free, ptr, size, j);
      }
      SearchStep(base, free, b, j, goal);
      t := j;
    }

    /** The stores of free(). */
    method Store(p: nat, bp: nat)
      requires p in ptr && p in size && bp in size && ptr[p] in ptr && ptr[p] in size
      modifies this`ptr, this`size
      ensures (ptr, size) == FreeStores(old(ptr), old(size), p, bp)
    {
      if bp + size[bp] == ptr[p] {
        size := size[bp := size[bp] + size[ptr[p]]];
        ptr := ptr[bp := ptr[ptr[p]]];
      } else {
        ptr := ptr[bp := ptr[p]];
      }
      if p + size[p] == bp {
        size := size[p := size[p] + size[bp]];
        ptr := ptr[p := ptr[bp]];
      } else {
        ptr := ptr[p := bp];
      }
    }

    /** Link bp in after node p. */
    method Splice(p: nat, bp: nat, ghost t: nat)
      requires Valid() && freep != 0 && bp in live && t < |free| && p == free[t].addr
               && Fits(free, t, Blk(bp, live[bp]))
      modifies this`ptr, this`size, this`free, this`live
      ensures HeapOk(base, brk, free, ptr, size, live, Given(asked))
      ensures live == old(live) - {bp} && t < |free| && free[t].addr == p
      ensures Units(free) == old(Units(free)) + Range(Blk(bp, old(live)[bp]))
      ensures SomeBig(free, old(live)[bp])
    {
      ghost var b := Blk(bp, live[bp]);
      assert LiveAt(base, brk, free, size, live, bp);
      StoreReady(free, ptr, size, t, b);
      Store(p, bp);
      FreeStep(base, brk, free, old(ptr), old(size), live, Given(asked), t, bp, ptr, size);
      InsertRoom(free, t, b);
      free, live := Insert(free, t, b), live - {bp};
    }

    /** free(): the block leaves the live set and its units join the free list. */
    method Free(ap: nat)
      requires Valid() && ap >= 1 && ap - 1 in live
      modifies this`freep, this`ptr, this`size, this`free, this`cur, this`live
      ensures Valid() && freep != 0
      ensures live == old(live) - {ap - 1}
      ensures Units(free) == old(Units(free)) + Range(Blk(ap - 1, old(live)[ap - 1]))
      ensures SomeBig(free, old(live)[ap - 1])
    {
      var p; ghost var t;
      p, t := FindPlace(ap - 1);
      Splice(p, ap - 1, t);
      assert base <= p by { if t > 0 { Ascending(free, 0, t); } }
      freep, cur := p, t;
    }

    /** sbrk: fails, or returns the start of n fresh units at or above the old break. */
    method Sbrk(n: nat) returns (p: nat)
      modifies this`brk, this`asked
      ensures asked == old(asked) + [Call(n, p)]
      ensures p == 0 ==> brk == old(brk)
      ensures p != 0 ==> p >= old(brk) && brk == p + n
    {
      var fails: bool := *;
      var gap: nat :| gap >= 0;
      p := if fails || brk == 0 then 0 else brk + gap;
      asked := asked + [Call(n, p)];
      if p != 0 {
        brk := p + n;
      }
    }

    /** sbrk's region enters the heap as a block in use. */
    method Grow(n: nat) returns (hp: nat)
      requires Valid() && freep != 0 && n > 0
      modifies this`brk, this`size, this`live, this`asked
      ensures Valid() && asked == old(asked) + [Call(n, hp)]
      ensures hp == 0 ==> live == old(live)
      ensures hp != 0 ==> hp >= old(brk) && hp !in old(live) && live == old(live)[hp := n]
    {
      hp := Sbrk(n);
      AskedMore(old(asked), Call(n, hp), old(brk), brk);
      if hp != 0 {
        GrowStep(base, old(brk), free, ptr, size, live, Given(old(asked)), hp, n);
        size := size[hp := n];
        live := live[hp := n];
      }
    }

    /** morecore(): asks sbrk once; on success the region it gave is free and some free block has at
        least nu units. */
    method Morecore(nu: nat) returns (p: nat)
      requires Valid() && freep != 0 && nu > 0
      modifies this
      ensures Valid() && freep != 0 && live == old(live)
      ensures |asked| == |old(asked)| + 1 && asked == old(asked) + [Call(Enough(nu), asked[|old(asked)|].p)]
      ensures p == 0 <==> asked[|old(asked)|].p == 0
      ensures p != 0 ==> p == freep && SomeBig(free, nu) && asked[|old(asked)|].p >= old(brk)
      ensures Units(free) == old(Units(free)) + Region(asked[|old(asked)|])
    {
      var n := if nu < 4096 then 4096 else nu;
      var hp := Grow(n);
      if hp == 0 { return 0; }
      Free(hp + 1);
      assert live == old(live);
      p := freep;
    }

    /** malloc(): hands out a block of exactly the needed units that was not in use, extending the
        heap at most once and only when no free block is large enough; it fails only if sbrk did. `stray` tells
        that it comes to a call of sbrk with a garbled argument, where the model stops. */
    method Malloc(nbytes: nat) returns (ap: nat, calls: nat, stray: bool)
      requires Valid() && nbytes < 0x1_0000_0000
      modifies this
      ensures Valid()
      ensures stray <==> Garbled(nbytes) && AllSmall(old(free), UnitsFor(nbytes))
      ensures stray ==> ap == 0 && calls == 0
      ensures ap == 0 ==> live == old(live)
      ensures ap != 0 ==> ap - 1 !in old(live) && live == old(live)[ap - 1 := UnitsFor(nbytes)]
      ensures calls <= 1 && |asked| == |old(asked)| + calls
      ensures calls == 0 ==> asked == old(asked)
      ensures calls == 1 ==>
                && asked == old(asked) + [Call(Enough(UnitsFor(nbytes)), asked[|old(asked)|].p)]
                && AllSmall(old(free), UnitsFor(nbytes))
      ensures ap == 0 <==> stray || (calls == 1 && asked[|old(asked)|].p == 0)
    {
      var nunits := UnitsFor(nbytes);
      calls, stray := 0, false;
      ghost var small := AllSmall(free, nunits);
      if freep == 0 { Initialize(); }
      assert AllSmall(free, nunits) <==> small;
      while true
        invariant Valid() == true && freep != 0 && live == old(live) && calls <= 1 && |asked| == |old(asked)| + calls
        invariant calls == 0 ==> asked == old(asked) && (AllSmall(free, nunits) <==> small)
        invariant !stray && (calls == 1 ==> !Garbled(nbytes))
        invariant calls == 1 ==> small && SomeBig(free, nunits) && asked[|old(asked)|].p != 0
        invariant calls == 1 ==> asked == old(asked) + [Call(Enough(nunits), asked[|old(asked)|].p)]
        decreases 1 - calls
      {
        var prevp, p, found; ghost var k;
        prevp, p, found, k := Search(nunits);
        if found {
          p := TakeBlock(prevp, p, nunits, k);
          return p + 1, calls, false;
        }
        if Garbled(nbytes) { return 0, calls, true; }
        p := Morecore(nunits);
        calls := calls + 1;
        if p == 0 { return 0, calls, false; }
      }
    }

    /** One turn of malloc()'s loop around the circle: from the block after freep to freep itself. */
    method Search(nunits: nat) returns (prevp: nat, p: nat, found: bool, ghost k: nat)
      requires Valid() && freep != 0 && nunits > 0
      ensures found ==> k + 1 < |free| && prevp == free[k].addr && p == free[k + 1].addr && free[k + 1].size >= nunits
      ensures !found ==> AllSmall(free, nunits) && !SomeBig(free, nunits)
    {
      prevp, k := freep, cur;
      assert NodeOk(free, ptr, size, k);
      p := ptr[prevp];
      while true
        invariant k < |free| && NodeOk(free, ptr, size, k) && prevp == free[k].addr && p == ptr[prevp]
        invariant SmallPassed(free, cur, After(k, |free|), nunits)
        decreases Distance(After(k, |free|), cur, |free|)
      {
        ghost var j := After(k, |free|);
        assert NodeOk(free, ptr, size, j);
        if size[p] >= nunits { found := true; return; }
        if p == freep {
          AtCur(free, j, cur);
          AllPassed(free, cur, nunits);
          found := false;
          return;
        }
        k, prevp, p := j, p, ptr[p];
      }
    }

    method Initialize()
      requires Valid() && freep == 0
      modifies this`freep, this`ptr, this`size, this`free, this`cur
      ensures Valid() && freep != 0 && free == [Blk(base, 0)]
    {
      ptr := ptr[base := base];
      size := size[base := 0];
      freep := base;
      free, cur := [Blk(base, 0)], 0;
      assert NodeOk(free, ptr, size, 0);
      assert Units(free) == iset{};
    }

    /** Hand out n units of block p, which follows prevp: all of it, or its tail. */
    method TakeBlock(prevp: nat, p: nat, n: nat, ghost k: nat) returns (q: nat)
      requires Valid() && freep != 0 && k + 1 < |free| && 0 < n <= free[k + 1].size
      requires prevp == free[k].addr && p == free[k + 1].addr
      modifies this`freep, this`ptr, this`size, this`free, this`cur, this`live
      ensures Valid() && freep != 0 && q !in old(live) && live == old(live)[q := n]
    {
      assert NodeOk(free, ptr, size, k) && NodeOk(free, ptr, size, k + 1);
      if size[p] == n { Unlink(prevp, p, k); q := p; } else { q := Cut(p, n, k + 1); }
      freep, cur := prevp, k;
    }

    method Unlink(prevp: nat, p: nat, ghost k: nat)
      requires Valid() && freep != 0 && k + 1 < |free|
      requires prevp == free[k].addr && p == free[k + 1].addr && p in ptr
      modifies this`ptr, this`free, this`live
      ensures p !in old(live) && live == old(live)[p := old(free)[k + 1].size]
      ensures HeapOk(base, brk, free, ptr, size, live, Given(asked))
              && free == Take(old(free), k + 1, old(free)[k + 1].size)
    {
      assert NodeOk(free, ptr, size, k + 1);
      UnlinkStep(base, brk, free, ptr, size, live, Given(asked), k + 1, ptr[prevp := ptr[p]]);
      ptr := ptr[prevp := ptr[p]];
      live := live[p := free[k + 1].size];
      free := Take(free, k + 1, free[k + 1].size);
    }

    method Cut(p: nat, n: nat, ghost j: nat) returns (q: nat)
      requires Valid() && freep != 0 && 1 <= j < |free| && p == free[j].addr && 0 < n < free[j].size && p in size
      modifies this`size, this`free, this`live
      ensures q !in old(live) && live == old(live)[q := n]
      ensures HeapOk(base, brk, free, ptr, size, live, Given(asked)) && free == Take(old(free), j, n)
    {
      assert NodeOk(free, ptr, size, j);
      ghost var rest := size[p] - n;
      CutStep(base, brk, free, ptr, size, live, Given(asked), j, n, size[p := rest][p + rest := n]);
      size := size[p := size[p] - n];
      q := p + size[p];
      size := size[q := n];
      free, live := Take(free, j, n), live[q := n];
    }
  }
}

/**
  The free list of user/umalloc.c as a value: address-ordered blocks that never touch, headed by
  the zero-sized `base`. Addresses and sizes are in units of sizeof(Header).
 */
module FreeList {

  datatype Blk = Blk(addr: nat, size: nat)

  predicate Before(a: Blk, b: Blk) {
    a.addr + a.size < b.addr
  }

  /** Address-ordered and fully coalesced: between any two blocks lies at least one foreign unit. */
  ghost predicate Separated(free: seq<Blk>) {
    forall i, j :: 0 <= i < j < |free| ==> Before(free[i], free[j])
  }

  /** The list starts with `base`, which owns no units; every other block owns some. */
  ghost predicate FreeOk(base: nat, free: seq<Blk>) {
    && |free| > 0 && free[0] == Blk(base, 0)
    && (forall i :: 1 <= i < |free| ==> free[i].size > 0)
    && Separated(free)
  }

  predicate Inside(b: Blk, u: nat) {
    b.addr <= u < b.addr + b.size
  }

  ghost function Range(b: Blk): iset<nat> {
    iset u: nat | Inside(b, u)
  }

  /** All the units of a list of blocks. */
  ghost function Units(free: seq<Blk>): iset<nat> {
    if free == [] then iset{} else Range(free[0]) + Units(free[1..])
  }

  lemma {:induction false} UnitsConcat(a: seq<Blk>, b: seq<Blk>)
    ensures Units(a + b) == Units(a) + Units(b)
  {
    if a == [] {
      assert a + b == b;
    } else {
      assert (a + b)[0] == a[0] && (a + b)[1..] == a[1..] + b;
      UnitsConcat(a[1..], b);
    }
  }

  lemma UnitsSplit(free: seq<Blk>, i: nat)
    requires i < |free|
    ensures Units(free) == Units(free[..i]) + Range(free[i]) + Units(free[i + 1..])
  {
    assert free == free[..i] + free[i..];
    UnitsConcat(free[..i], free[i..]);
    assert free[i..][0] == free[i] && free[i..][1..] == free[i + 1..];
  }

  lemma {:induction false} UnitOwner(free: seq<Blk>, u: nat) returns (i: nat)
    requires u in Units(free)
    ensures i < |free| && u in Range(free[i])
  {
    if u in Range(free[0]) { i := 0; } else { i := UnitOwner(free[1..], u); i := i + 1; }
  }

  /** b lies apart from every block of the list. */
  ghost predicate Apart(free: seq<Blk>, b: Blk) {
    forall i :: 0 <= i < |free| ==> free[i].addr + free[i].size <= b.addr || b.addr + b.size <= free[i].addr
  }

  /** Position t is where b belongs: after t and before t + 1. */
  predicate Fits(free: seq<Blk>, t: nat, b: Blk) {
    t < |free| && free[t].addr < b.addr && (t + 1 < |free| ==> b.addr < free[t + 1].addr)
  }

  /** The upper merge: b, with the block right behind it swallowed, and what follows. */
  function Upper(free: seq<Blk>, t: nat, b: Blk): (Blk, seq<Blk>)
    requires t < |free|
  {
    if t + 1 < |free| && b.addr + b.size == free[t + 1].addr
    then (Blk(b.addr, b.size + free[t + 1].size), free[t + 2..])
    else (b, free[t + 1..])
  }

  /** free(): put b in after position t, merging with either neighbour it touches. */
  function Insert(free: seq<Blk>, t: nat, b: Blk): seq<Blk>
    requires t < |free|
  {
    var (b1, rest) := Upper(free, t, b);
    if free[t].addr + free[t].size == b.addr then
      free[..t] + [Blk(free[t].addr, free[t].size + b1.size)] + rest
    else
      free[..t + 1] + [b1] + rest
  }

  /** malloc(): cut n units off the end of block i, or take all of it. */
  function Take(free: seq<Blk>, i: nat, n: nat): seq<Blk>
    requires i < |free| && n <= free[i].size
  {
    if free[i].size == n then free[..i] + free[i + 1..]
    else free[i := Blk(free[i].addr, free[i].size - n)]
  }

  lemma FitsAll(free: seq<Blk>, t: nat, b: Blk)
    requires Separated(free) && Apart(free, b) && Fits(free, t, b) && b.size > 0
    ensures forall i :: 0 <= i <= t ==> free[i].addr + free[i].size <= b.addr
    ensures forall i :: t < i < |free| ==> b.addr + b.size <= free[i].addr
  {
  }

  /** A block between a head and a tail of the list that it touches on neither side. */
  lemma SeparatedAround(a: seq<Blk>, x: Blk, b: seq<Blk>)
    requires Separated(a) && Separated(b)
    requires forall i :: 0 <= i < |a| ==> Before(a[i], x)
    requires forall j :: 0 <= j < |b| ==> Before(x, b[j])
    ensures Separated(a + [x] + b)
  {
  }

  lemma UnitsAround(a: seq<Blk>, x: Blk, b: seq<Blk>)
    ensures Units(a + [x] + b) == Units(a) + Range(x) + Units(b)
  {
    UnitsConcat(a + [x], b);
    UnitsConcat(a, [x]);
    assert Units([x]) == Range(x);
  }

  lemma UpperOk(free: seq<Blk>, t: nat, b: Blk)
    requires Separated(free) && Apart(free, b) && Fits(free, t, b) && b.size > 0
    ensures var (b1, rest) := Upper(free, t, b);
            && b1.addr == b.addr && b1.size >= b.size && Separated(rest)
            && (forall j :: 0 <= j < |rest| ==> Before(b1, rest[j]))
            && Range(b1) + Units(rest) == Range(b) + Units(free[t + 1..])
  {
  }

  lemma InsertSeparated(free: seq<Blk>, t: nat, b: Blk)
    requires Separated(free) && Apart(free, b) && Fits(free, t, b) && b.size > 0
    ensures Separated(Insert(free, t, b))
  {
    FitsAll(free, t, b);
    UpperOk(free, t, b);
    var (b1, rest) := Upper(free, t, b);
    if free[t].addr + free[t].size == b.addr {
      var a, x := free[..t], Blk(free[t].addr, free[t].size + b1.size);
      forall i | 0 <= i < |a| ensures Before(a[i], x) { assert Before(free[i], free[t]); }
      SeparatedAround(a, x, rest);
    } else {
      var a := free[..t + 1];
      forall i | 0 <= i < |a| ensures Before(a[i], b1) {
        if i < t { assert Before(free[i], free[t]); }
      }
      SeparatedAround(a, b1, rest);
    }
  }

  lemma JoinNew(a: seq<Blk>, b1: Blk, rest: seq<Blk>, b: Blk, tail: seq<Blk>)
    requires Range(b1) + Units(rest) == Range(b) + Units(tail)
    ensures Units(a + [b1] + rest) == Units(a + tail) + Range(b)
  {
    UnitsAround(a, b1, rest);
    UnitsConcat(a, tail);
    assert Units(a) + Range(b1) + Units(rest) == Units(a) + (Range(b1) + Units(rest));
  }

  lemma JoinLow(a: seq<Blk>, f: Blk, b1: Blk, rest: seq<Blk>, b: Blk, tail: seq<Blk>)
    requires Range(b1) + Units(rest) == Range(b) + Units(tail) && f.addr + f.size == b1.addr
    ensures Units(a + [Blk(f.addr, f.size + b1.size)] + rest) == Units(a + [f] + tail) + Range(b)
  {
    var x := Blk(f.addr, f.size + b1.size);
    UnitsAround(a, x, rest);
    UnitsAround(a, f, tail);
    assert Range(x) == Range(f) + Range(b1);
    assert Units(a) + Range(x) + Units(rest) == Units(a) + Range(f) + (Range(b1) + Units(rest));
  }

  lemma InsertUnits(free: seq<Blk>, t: nat, b: Blk)
    requires Separated(free) && Apart(free, b) && Fits(free, t, b) && b.size > 0
    ensures Units(Insert(free, t, b)) == Units(free) + Range(b)
  {
    UpperOk(free, t, b);
    var (b1, rest) := Upper(free, t, b);
    if free[t].addr + free[t].size == b.addr {
      assert free == free[..t] + [free[t]] + free[t + 1..];
      JoinLow(free[..t], free[t], b1, rest, b, free[t + 1..]);
    } else {
      assert free == free[..t + 1] + free[t + 1..];
      JoinNew(free[..t + 1], b1, rest, b, free[t + 1..]);
    }
  }

  /** Freeing keeps the list ordered and fully coalesced and adds exactly the units of b. */
  lemma InsertOk(base: nat, free: seq<Blk>, t: nat, b: Blk)
    requires FreeOk(base, free) && Apart(free, b) && Fits(free, t, b) && b.size > 0
    ensures FreeOk(base, Insert(free, t, b))
    ensures Units(Insert(free, t, b)) == Units(free) + Range(b)
  {
    FitsAll(free, t, b);
    InsertSeparated(free, t, b);
    InsertUnits(free, t, b);
    var g := Insert(free, t, b);
    forall i | 0 < i < |g| ensures g[i].size > 0 { InsertSizes(free, t, b, i); }
  }

  lemma InsertSizes(free: seq<Blk>, t: nat, b: Blk, i: nat)
    requires t < |free| && b.size > 0 && (forall j :: 0 < j < |free| ==> free[j].size > 0)
             && 0 < i < |Insert(free, t, b)|
    ensures Insert(free, t, b)[i].size > 0
  {
  }

  /** What is apart from the list and from b is apart from the list with b in it. */
  lemma InsertApart(free: seq<Blk>, t: nat, b: Blk, x: Blk)
    requires t < |free| && Apart(free, x) && (x.addr + x.size <= b.addr || b.addr + b.size <= x.addr) && b.size > 0
             && x.size > 0
    requires free[t].addr + free[t].size <= b.addr
    ensures Apart(Insert(free, t, b), x)
  {
    var g := Insert(free, t, b);
    var (b1, rest) := Upper(free, t, b);
    assert b1.addr + b1.size <= x.addr || x.addr + x.size <= b1.addr;
    if free[t].addr + free[t].size == b.addr {
      assert g == free[..t] + [Blk(free[t].addr, free[t].size + b1.size)] + rest;
    } else {
      assert g == free[..t + 1] + [b1] + rest;
    }
  }

  lemma UnitsApart(free: seq<Blk>, b: Blk)
    requires Apart(free, b)
    ensures Units(free) !! Range(b)
  {
  }

  lemma TakeSeparated(free: seq<Blk>, i: nat, n: nat)
    requires Separated(free) && i < |free| && 0 < n <= free[i].size
    ensures Separated(Take(free, i, n))
    ensures Apart(Take(free, i, n), Blk(free[i].addr + free[i].size - n, n))
  {
  }

  lemma TakeUnits(free: seq<Blk>, i: nat, n: nat)
    requires i < |free| && 0 < n <= free[i].size
    ensures Units(free) == Units(Take(free, i, n)) + Range(Blk(free[i].addr + free[i].size - n, n))
  {
    var b := Blk(free[i].addr + free[i].size - n, n);
    var g := Take(free, i, n);
    UnitsSplit(free, i);
    if free[i].size == n {
      UnitsConcat(free[..i], free[i + 1..]);
    } else {
      UnitsSplit(g, i);
      assert g[..i] == free[..i] && g[i + 1..] == free[i + 1..];
      assert Range(free[i]) == Range(g[i]) + Range(b);
    }
  }

  /** Allocating keeps the list ordered and coalesced and removes exactly the last n units of block i. */
  lemma TakeOk(base: nat, free: seq<Blk>, i: nat, n: nat)
    requires FreeOk(base, free) && i < |free| && 0 < n <= free[i].size
    ensures FreeOk(base, Take(free, i, n))
    ensures var b := Blk(free[i].addr + free[i].size - n, n);
            && Apart(Take(free, i, n), b)
            && Units(free) == Units(Take(free, i, n)) + Range(b)
            && Units(Take(free, i, n)) !! Range(b)
  {
    TakeSeparated(free, i, n);
    UnitsApart(Take(free, i, n), Blk(free[i].addr + free[i].size - n, n));
    TakeUnits(free, i, n);
  }

  // ---------------------------------------------------------------- the list is determined by its units

  lemma StartOutside(f: seq<Blk>, k: nat)
    requires Separated(f) && k < |f|
    ensures forall m :: 0 <= m < |f| && m != k ==> !Inside(f[m], f[k].addr) && !Inside(f[m], f[k].addr + f[k].size)
  {
  }

  lemma {:induction false} OwnedUnit(f: seq<Blk>, k: nat, u: nat)
    requires k < |f| && Inside(f[k], u)
    ensures u in Units(f)
  {
    if k > 0 { OwnedUnit(f[1..], k - 1, u); }
  }

  lemma NotOwned(f: seq<Blk>, k: nat, u: nat)
    requires k < |f| && u !in Units(f)
    ensures !Inside(f[k], u)
  {
    if Inside(f[k], u) { OwnedUnit(f, k, u); }
  }

  /** The unit right behind a block is not free. */
  lemma EndFree(f: seq<Blk>, k: nat)
    requires Separated(f) && k < |f|
    ensures f[k].addr + f[k].size !in Units(f)
  {
    StartOutside(f, k);
    if f[k].addr + f[k].size in Units(f) { var n := UnitOwner(f, f[k].addr + f[k].size); }
  }

  /** If f and g own the same units and agree before k, block k of g starts and ends no later than that of f. */
  lemma NoLater(f: seq<Blk>, g: seq<Blk>, k: nat)
    requires Separated(f) && Separated(g) && Units(f) == Units(g)
    requires k < |f| && f[k].size > 0 && f[..k] == g[..if k <= |g| then k else |g|]
    ensures k < |g| && g[k].addr <= f[k].addr
    ensures g[k].addr == f[k].addr ==> g[k].size <= f[k].size
  {
    StartOutside(f, k);
    forall m | 0 <= m < k && m < |g| ensures !Inside(g[m], f[k].addr) {
      assert f[m] == f[..k][m] == g[m];
    }
    OwnedUnit(f, k, f[k].addr);
    var m := UnitOwner(g, f[k].addr);
    if k < m { assert Before(g[k], g[m]); }
    EndFree(f, k);
    NotOwned(g, k, f[k].addr + f[k].size);
  }

  lemma {:induction false} AgreeTo(base: nat, f: seq<Blk>, g: seq<Blk>, k: nat)
    requires FreeOk(base, f) && FreeOk(base, g) && Units(f) == Units(g) && k <= |f|
    ensures k <= |g| && f[..k] == g[..k]
  {
    if k > 0 {
      AgreeTo(base, f, g, k - 1);
      if k > 1 {
        NoLater(f, g, k - 1);
        NoLater(g, f, k - 1);
      }
      assert f[..k] == f[..k - 1] + [f[k - 1]] && g[..k] == g[..k - 1] + [g[k - 1]];
    }
  }

  /** A fully coalesced address-ordered list is determined by the units it owns. */
  lemma Canonical(base: nat, f: seq<Blk>, g: seq<Blk>)
    requires FreeOk(base, f) && FreeOk(base, g) && Units(f) == Units(g)
    ensures f == g
  {
    AgreeTo(base, f, g, |f|);
    AgreeTo(base, g, f, |g|);
  }
}

/**
  kernel/bio.c: the buffer cache as a circular doubly linked list in recency order. Buffers are
  array positions 0..NBUF; position NBUF is bcache.head.
  A clause `P(..) == true` says P(..) and keeps it one fact, which the verifier does not take apart.
 */
module BufferCache {

  const NBUF: nat := 30
  const HEAD: nat := 30
  const UINT: nat := 0x1_0000_0000

  /** refcnt++ and refcnt-- on a 32-bit unsigned count. */
  function Inc(n: nat): nat {
    (n + 1) % UINT
  }

  function Dec(n: nat): nat {
    (n + UINT - 1) % UINT
  }

  // ---------------------------------------------------------------- rings

  ghost predicate Distinct(s: seq<nat>) {
    forall i, j :: 0 <= i < j < |s| ==> s[i] != s[j]
  }

  ghost predicate LinkAt(ring: seq<nat>, next: seq<nat>, prev: seq<nat>, i: nat)
    requires i < |ring|
  {
    var succ := if i + 1 == |ring| then ring[0] else ring[i + 1];
    var pred := if i == 0 then ring[|ring| - 1] else ring[i - 1];
    ring[i] < |next| && ring[i] < |prev| && next[ring[i]] == succ && prev[ring[i]] == pred
  }

  /** next and prev form one cycle through the positions of `ring`, in that order. */
  ghost predicate IsRing(ring: seq<nat>, next: seq<nat>, prev: seq<nat>) {
    && Distinct(ring)
    && forall i: nat {:trigger LinkAt(ring, next, prev, i)} :: i < |ring| ==> LinkAt(ring, next, prev, i)
  }

  function Without(ring: seq<nat>, k: nat): seq<nat>
    requires k < |ring|
  {
    ring[..k] + ring[k + 1..]
  }

  /** Unlinking position k. */
  lemma Unlinked(ring: seq<nat>, next: seq<nat>, prev: seq<nat>, k: nat)
    requires IsRing(ring, next, prev) && 1 <= k < |ring|
    requires |prev| == |next| && forall i :: 0 <= i < |ring| ==> ring[i] < |next|
    ensures var b := ring[k];
            && prev[b] < |next| && next[b] < |prev|
            && IsRing(Without(ring, k), next[prev[b] := next[b]], prev[next[b] := prev[b]])
  {
    var b := ring[k];
    assert LinkAt(ring, next, prev, k);
    var next', prev' := next[prev[b] := next[b]], prev[next[b] := prev[b]];
    var r := Without(ring, k);
    forall i: nat | i < |r| ensures LinkAt(r, next', prev', i) {
      assert LinkAt(ring, next, prev, if i < k then i else i + 1);
    }
  }

  /** Linking a position in right behind the head. */
  lemma Pushed(ring: seq<nat>, next: seq<nat>, prev: seq<nat>, b: nat)
    requires IsRing(ring, next, prev) && |ring| > 0 && b !in ring && b < |next| == |prev|
    requires forall i :: 0 <= i < |ring| ==> ring[i] < |next|
    ensures var h := ring[0];
            && next[h] < |prev|
            && IsRing([h, b] + ring[1..], next[b := next[h]][h := b], prev[b := h][next[h] := b])
  {
    var h := ring[0];
    assert LinkAt(ring, next, prev, 0);
    var next', prev' := next[b := next[h]][h := b], prev[b := h][next[h] := b];
    var r := [h, b] + ring[1..];
    forall i: nat | i < |r| ensures LinkAt(r, next', prev', i) {
      if i > 1 { assert r[i] == ring[i - 1] && LinkAt(ring, next, prev, i - 1); }
      if i == 0 { assert LinkAt(ring, next, prev, |ring| - 1); }
    }
  }

  lemma DistinctTail(h: nat, s: seq<nat>)
    requires Distinct([h] + s)
    ensures Distinct(s)
  {
    var r := [h] + s;
    forall i, j | 0 <= i < j < |s| ensures s[i] != s[j] { assert r[i + 1] == s[i] && r[j + 1] == s[j]; }
  }

  ghost predicate Permutes(s: seq<nat>, r: seq<nat>) {
    multiset(r) == multiset(s)
  }

  /** Moving a member to the front permutes the list. */
  lemma MovedPermutes(s: seq<nat>, k: nat)
    requires k < |s|
    ensures Permutes(s, [s[k]] + Without(s, k))
    ensures forall c :: c in s <==> c in [s[k]] + Without(s, k)
  {
    assert s == s[..k] + [s[k]] + s[k + 1..];
  }

  /** The list holds every buffer exactly once. */
  ghost predicate HoldsAll(order: seq<nat>) {
    |order| == NBUF && (forall i :: 0 <= i < NBUF ==> order[i] < NBUF) && (forall b: nat :: b < NBUF ==> b in order)
  }

  lemma MovedHoldsAll(order: seq<nat>, k: nat)
    requires HoldsAll(order) && k < |order|
    ensures HoldsAll([order[k]] + Without(order, k)) && Permutes(order, [order[k]] + Without(order, k))
  {
    MovedPermutes(order, k);
  }

  lemma MovedRing(order: seq<nat>, k: nat)
    requires k < |order|
    ensures [HEAD, order[k]] + Without([HEAD] + order, k + 1)[1..] == [HEAD] + ([order[k]] + Without(order, k))
  {
  }

  /** order lists the buffers from the latest release to the earliest. */
  ghost predicate ByRelease(order: seq<nat>, released: seq<nat>, clock: nat) {
    && (forall i :: 0 <= i < |order| ==> order[i] < |released|)
    && (forall b :: 0 <= b < |released| ==> released[b] < clock)
    && (forall i, j :: 0 <= i < j < |order| ==> released[order[j]] < released[order[i]])
  }

  lemma MovedByRelease(order: seq<nat>, released: seq<nat>, clock: nat, k: nat)
    requires ByRelease(order, released, clock) && Distinct(order) && k < |order|
    ensures ByRelease([order[k]] + Without(order, k), released[order[k] := clock], clock + 1)
  {
  }

  // ---------------------------------------------------------------- the cache

  class Cache {
    var next: array<nat>
    var prev: array<nat>
    var dev: array<nat>
    var blockno: array<nat>
    var valid: array<bool>
    var refcnt: array<nat>

    ghost var order: seq<nat>      // most recently released first
    ghost var released: seq<nat>   // when each buffer was last released (moved to the front)
    ghost var clock: nat

    /** binit: all buffers linked, the last one in front, none referenced, none on a real device. */
    constructor ()
      ensures Valid() && fresh(next) && fresh(prev) && fresh(dev) && fresh(blockno) && fresh(valid) && fresh(refcnt)
      ensures forall b :: 0 <= b < NBUF ==> refcnt[b] == 0 && dev[b] == 0 && blockno[b] == 0 && !valid[b]
    {
      next, prev := new nat[NBUF + 1](_ => 0), new nat[NBUF + 1](_ => 0);
      dev, blockno := new nat[NBUF](_ => 0), new nat[NBUF](_ => 0);
      valid, refcnt := new bool[NBUF](_ => false), new nat[NBUF](_ => 0);
      order, released, clock := [], seq(NBUF, i => i), NBUF;
      new;
      LinkAll();
    }

    /** The loop of binit. */
    method LinkAll()
      requires Arrays()
      modifies next, prev, this`order
      ensures ListOk() && forall i :: 0 <= i < NBUF ==> order[i] == NBUF - 1 - i
    {
      prev[HEAD], next[HEAD] := HEAD, HEAD;
      order := [];
      assert LinkAt([HEAD], next[..], prev[..], 0);
      var b := 0;
      while b < NBUF
        invariant 0 <= b <= NBUF && |order| == b && Arrays()
        invariant IsRing([HEAD] + order, next[..], prev[..])
        invariant forall i :: 0 <= i < b ==> order[i] == b - 1 - i
      {
        PushFront(b, [HEAD] + order);
        assert [HEAD, b] + ([HEAD] + order)[1..] == [HEAD] + ([b] + order);
        order := [b] + order;
        b := b + 1;
      }
      forall c: nat | c < NBUF ensures c in order { assert order[NBUF - 1 - c] == c; }
    }

    /** Link b in behind the head. */
    method PushFront(b: nat, ghost ring: seq<nat>)
      requires Arrays() && IsRing(ring, next[..], prev[..]) && |ring| > 0 && ring[0] == HEAD && b !in ring && b < NBUF
      requires forall i :: 0 <= i < |ring| ==> ring[i] <= HEAD
      modifies next, prev
      ensures IsRing([HEAD, b] + ring[1..], next[..], prev[..])
    {
      ghost var n0: seq<nat>, p0: seq<nat> := next[..], prev[..];
      Pushed(ring, n0, p0, b);
      assert LinkAt(ring, n0, p0, 0);
      next[b] := next[HEAD];
      prev[b] := HEAD;
      prev[next[HEAD]] := b;
      next[HEAD] := b;
      assert next[..] == n0[b := n0[HEAD]][HEAD := b] && prev[..] == p0[b := HEAD][n0[HEAD] := b];
    }

    ghost predicate Arrays()
      reads this
    {
      && next.Length == prev.Length == NBUF + 1
      && dev.Length == blockno.Length == valid.Length == refcnt.Length == NBUF
      && next != prev && next != dev && next != blockno && prev != dev && prev != blockno && dev != blockno
      && refcnt != next && refcnt != prev && refcnt != dev && refcnt != blockno
    }

    ghost predicate ListOk()
      requires Arrays()
      reads this, next, prev
    {
      IsRing([HEAD] + order, next[..], prev[..]) && HoldsAll(order)
    }

    /** At most one buffer caches a given block, block 0 of device 0 apart: that is what binit leaves. */
    ghost predicate Unique()
      requires Arrays()
      reads this, dev, blockno
    {
      forall b, c :: 0 <= b < c < NBUF && dev[b] == dev[c] && blockno[b] == blockno[c] ==>
          dev[b] == 0 && blockno[b] == 0
    }

    ghost predicate Valid()
      reads this, next, prev, dev, blockno, refcnt
    {
      && Arrays() && ListOk() && |released| == NBUF && ByRelease(order, released, clock) && Unique()
      && (forall b :: 0 <= b < NBUF ==> refcnt[b] < UINT)
    }

    lemma EveryBuffer(c: nat) returns (k: nat)
      requires Arrays() && ListOk() && c < NBUF
      ensures k < NBUF && order[k] == c
    {
      assert c in order;
      k :| 0 <= k < NBUF && order[k] == c;
    }

    /** First loop of bget, from the most recently released buffer on. */
    method FindCached(d: nat, n: nat) returns (b: nat, found: bool)
      requires Valid()
      ensures found ==> b < NBUF && dev[b] == d && blockno[b] == n
      ensures !found ==> forall c: nat :: c < NBUF ==> !(dev[c] == d && blockno[c] == n)
    {
      b, found := next[HEAD], true;
      ghost var ring := [HEAD] + order;
      ghost var i := 1;
      assert LinkAt(ring, next[..], prev[..], 0);
      while b != HEAD
        invariant 1 <= i <= NBUF + 1 && b == (if i == NBUF + 1 then HEAD else order[i - 1])
        invariant forall k :: 0 <= k < i - 1 ==> !(dev[order[k]] == d && blockno[order[k]] == n)
        decreases NBUF + 1 - i
      {
        if dev[b] == d && blockno[b] == n { return; }
        assert LinkAt(ring, next[..], prev[..], i);
        b, i := next[b], i + 1;
      }
      found := false;
      forall c: nat | c < NBUF ensures !(dev[c] == d && blockno[c] == n) { var k := EveryBuffer(c); }
    }

    /** Second loop of bget, from the least recently released buffer on. */
    method FindUnused() returns (b: nat, found: bool)
      requires Valid()
      ensures found ==> b < NBUF && refcnt[b] == 0
      ensures found ==> forall c: nat :: c < NBUF && refcnt[c] == 0 ==> released[b] <= released[c]
      ensures !found ==> forall c: nat :: c < NBUF ==> refcnt[c] > 0
    {
      b, found := prev[HEAD], true;
      ghost var ring := [HEAD] + order;
      ghost var i := NBUF;
      assert LinkAt(ring, next[..], prev[..], 0);
      while b != HEAD
        invariant 0 <= i <= NBUF && b == (if i == 0 then HEAD else order[i - 1])
        invariant forall k :: i <= k < NBUF ==> refcnt[order[k]] > 0
        decreases i
      {
        if refcnt[b] == 0 {
          forall c: nat | c < NBUF && refcnt[c] == 0 ensures released[b] <= released[c] { var k := EveryBuffer(c); }
          return;
        }
        assert LinkAt(ring, next[..], prev[..], i);
        b, i := prev[b], i - 1;
      }
      found := false;
      forall c: nat | c < NBUF ensures refcnt[c] > 0 { var k := EveryBuffer(c); }
    }

    /** bget: a cached block is found; otherwise the unreferenced buffer released longest ago is
        recycled; a referenced buffer never changes its identity. */
    method Bget(d: nat, n: nat) returns (b: nat, panic: bool)
      requires Valid()
      modifies dev, blockno, valid, refcnt
      ensures Valid()
      ensures panic <==> forall c: nat :: c < NBUF ==> !(old(dev[c]) == d && old(blockno[c]) == n) && old(refcnt[c]) > 0
      ensures panic ==> dev[..] == old(dev[..]) && blockno[..] == old(blockno[..])
      ensures panic ==> valid[..] == old(valid[..]) && refcnt[..] == old(refcnt[..])
      ensures !panic ==> b < NBUF && dev[..] == old(dev[..])[b := d] && blockno[..] == old(blockno[..])[b := n]
      ensures !panic ==>
                valid[..] == old(valid[..])[b := valid[b]] && refcnt[..] == old(refcnt[..])[b := Inc(old(refcnt[b]))]
      ensures !panic && old(dev[b]) == d && old(blockno[b]) == n ==> valid[b] == old(valid[b])
      ensures !panic && !(old(dev[b]) == d && old(blockno[b]) == n) ==>
                && !valid[b] && old(refcnt[b]) == 0
                && (forall c: nat :: c < NBUF ==> !(old(dev[c]) == d && old(blockno[c]) == n))
                && (forall c: nat :: c < NBUF && old(refcnt[c]) == 0 ==> released[b] <= released[c])
    {
      var found;
      b, found := FindCached(d, n);
      panic := false;
      if found {
        refcnt[b] := Inc(refcnt[b]);
        return;
      }
      b, found := FindUnused();
      if found {
        dev[b], blockno[b], valid[b], refcnt[b] := d, n, false, 1;
        return;
      }
      panic := true;
    }

    /** The pointer stores of brelse: unlink b, then link it in behind the head. */
    method Relink(b: nat, ghost ring: seq<nat>, ghost k: nat)
      requires Arrays() && IsRing(ring, next[..], prev[..]) && 1 <= k < |ring| && ring[0] == HEAD && ring[k] == b
               && b < NBUF
      requires forall i :: 0 <= i < |ring| ==> ring[i] <= HEAD
      modifies next, prev
      ensures IsRing([HEAD, b] + Without(ring, k)[1..], next[..], prev[..])
    {
      ghost var n0: seq<nat>, p0: seq<nat> := next[..], prev[..];
      assert LinkAt(ring, n0, p0, k);
      Unlinked(ring, n0, p0, k);
      prev[next[b]] := prev[b];
      next[prev[b]] := next[b];
      assert next[..] == n0[p0[b] := n0[b]] && prev[..] == p0[n0[b] := p0[b]];
      PushFront(b, Without(ring, k));
    }

    /** Move b to the front of the list. */
    method MoveToFront(b: nat)
      requires Valid() && b < NBUF
      modifies next, prev, this`order, this`released, this`clock
      ensures Arrays() && ListOk() && |released| == NBUF && ByRelease(order, released, clock)
      ensures order[0] == b && released == old(released)[b := old(clock)] && Permutes(old(order), order) == true
    {
      ghost var ring := [HEAD] + order;
      ghost var k := EveryBuffer(b);
      DistinctTail(HEAD, order);
      Relink(b, ring, k + 1);
      MovedByRelease(order, released, clock, k);
      MovedHoldsAll(order, k);
      MovedRing(order, k);
      order := [b] + Without(order, k);
      released, clock := released[b := clock], clock + 1;
    }

    /** brelse: drop a reference; the last one makes b the most recently released buffer. */
    method Brelse(b: nat)
      requires Valid() && b < NBUF
      modifies next, prev, refcnt, this`order, this`released, this`clock
      ensures Valid()
      ensures refcnt[..] == old(refcnt[..])[b := Dec(old(refcnt[b]))]
      ensures refcnt[b] > 0 ==> order == old(order) && released == old(released)
      ensures refcnt[b] == 0 ==>
                order[0] == b && released == old(released)[b := old(clock)] && Permutes(old(order), order) == true
    {
      refcnt[b] := Dec(refcnt[b]);
      if refcnt[b] == 0 { MoveToFront(b); }
    }

    method Bpin(b: nat)
      requires Valid() && b < NBUF
      modifies refcnt
      ensures Valid() && refcnt[..] == old(refcnt[..])[b := Inc(old(refcnt[b]))]
    {
      refcnt[b] := Inc(refcnt[b]);
    }

    method Bunpin(b: nat)
      requires Valid() && b < NBUF
      modifies refcnt
      ensures Valid() && refcnt[..] == old(refcnt[..])[b := Dec(old(refcnt[b]))]
    {
      refcnt[b] := Dec(refcnt[b]);
    }
  }
}

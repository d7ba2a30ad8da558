/**
  kernel/bio.c under kernel/log.c: the linked-list cache does to the blocks of one device what the
  cache of the log protocol does. A hit is a Get, recycling is an Evict of a block without references
  and then a Get, brelse is an Unref, and the reference of bpin is the one that log_write takes.
 */
module CacheRefinement {
  import opened BufferCache
  import opened LogSpec
  import LP = LogProtocol

  /** Unused buffers pass for block 0 of device 0, as binit leaves them; all others stand for a block. */
  predicate Real(d: nat, b: nat) {
    d != 0 || b != 0
  }

  /** Buffer i of the lists is the cached block m[blockno[i]], and holds its reference count modulo 2^32. */
  ghost predicate Backs(dev: seq<nat>, blockno: seq<nat>, valid: seq<bool>, refcnt: seq<nat>, d: nat,
                        m: map<nat, LP.Buf>, i: nat)
    requires i < |dev| == |blockno| == |valid| == |refcnt|
  {
    dev[i] == d && Real(d, blockno[i]) ==>
      blockno[i] in m && m[blockno[i]].valid == valid[i] && m[blockno[i]].refcnt % UINT == refcnt[i]
  }

  ghost predicate Held(dev: seq<nat>, blockno: seq<nat>, d: nat, b: nat)
    requires |dev| == |blockno|
  {
    exists i :: 0 <= i < |dev| && dev[i] == d && blockno[i] == b
  }

  /** The buffers of device d are exactly the cached blocks m, with their flags and reference counts. */
  ghost predicate Shows(dev: seq<nat>, blockno: seq<nat>, valid: seq<bool>, refcnt: seq<nat>, d: nat,
                        m: map<nat, LP.Buf>) {
    && |dev| == |blockno| == |valid| == |refcnt|
    && (forall i: nat {:trigger Backs(dev, blockno, valid, refcnt, d, m, i)} :: i < |dev| ==>
          Backs(dev, blockno, valid, refcnt, d, m, i))
    && (forall b {:trigger Held(dev, blockno, d, b)} :: b in m ==> Real(d, b) && Held(dev, blockno, d, b))
  }

  /** What m becomes when buffer i is given to block b as f. */
  function Given(dev: seq<nat>, blockno: seq<nat>, d: nat, m: map<nat, LP.Buf>, i: nat, b: nat,
                 f: LP.Buf): map<nat, LP.Buf>
    requires i < |dev| == |blockno|
  {
    (if dev[i] == d && Real(d, blockno[i]) then m - {blockno[i]} else m)[b := f]
  }

  lemma Regiven(dev: seq<nat>, blockno: seq<nat>, valid: seq<bool>, refcnt: seq<nat>, d: nat, m: map<nat, LP.Buf>,
                i: nat, b: nat, f: LP.Buf)
    requires Shows(dev, blockno, valid, refcnt, d, m) && i < |dev| && Real(d, b)
    requires forall j :: 0 <= j < |dev| && j != i && dev[j] == d ==>
               blockno[j] != b && (dev[i] == d && Real(d, blockno[i]) ==> blockno[j] != blockno[i])
    ensures Shows(dev[i := d], blockno[i := b], valid[i := f.valid], refcnt[i := f.refcnt % UINT], d,
                  Given(dev, blockno, d, m, i, b, f))
  {
    var dev', blockno' := dev[i := d], blockno[i := b];
    var valid', refcnt' := valid[i := f.valid], refcnt[i := f.refcnt % UINT];
    var m' := Given(dev, blockno, d, m, i, b, f);
    forall j: nat | j < |dev| ensures Backs(dev', blockno', valid', refcnt', d, m', j) {
      assert Backs(dev, blockno, valid, refcnt, d, m, j);
    }
    forall c | c in m' ensures Real(d, c) && Held(dev', blockno', d, c) {
      if c == b {
        assert dev'[i] == d && blockno'[i] == b;
      } else {
        assert Held(dev, blockno, d, c);
        var j :| 0 <= j < |dev| && dev[j] == d && blockno[j] == c;
        assert dev'[j] == d && blockno'[j] == c;
      }
    }
  }

  ghost predicate Shown(c: Cache, d: nat, m: map<nat, LP.Buf>)
    reads c, c.dev, c.blockno, c.valid, c.refcnt
  {
    c.Arrays() && Shows(c.dev[..], c.blockno[..], c.valid[..], c.refcnt[..], d, m)
  }

  /** The buffer that bget recycles, if it is one of device d, has no references and goes first. */
  ghost predicate MayEvict(g: Geometry, s: LP.State, s1: LP.State)
    requires Fits(g, s.disk)
  {
    s1 == s || exists x :: LP.Enabled(g, s, LP.Evict(x)) && s1 == LP.Apply(g, s, LP.Evict(x))
  }

  lemma Counts(x: int)
    ensures (x + 1) % UINT == Inc(x % UINT) && (x - 1) % UINT == Dec(x % UINT)
  {
  }

  /** No two buffers stand for the same block. */
  ghost predicate Apart(dev: seq<nat>, blockno: seq<nat>, d: nat)
    requires |dev| == |blockno|
  {
    forall i, j :: 0 <= i < j < |dev| && dev[i] == dev[j] == d && blockno[i] == blockno[j] ==> !Real(d, blockno[i])
  }

  /** Buffer i is the one for block n, or block n has none and buffer i has no references. */
  ghost predicate Chosen(dev: seq<nat>, blockno: seq<nat>, refcnt: seq<nat>, d: nat, n: nat, i: nat)
    requires i < |dev| == |blockno| == |refcnt|
  {
    (dev[i] == d && blockno[i] == n) || (refcnt[i] == 0 && !Held(dev, blockno, d, n))
  }

  /** The protocol's side of bget. */
  lemma GetSteps(dev: seq<nat>, blockno: seq<nat>, valid: seq<bool>, refcnt: seq<nat>, d: nat, n: nat, i: nat,
                 g: Geometry, s: LP.State, t: LP.Tid) returns (s1: LP.State, s2: LP.State)
    requires Shows(dev, blockno, valid, refcnt, d, s.cache) && Apart(dev, blockno, d) && Real(d, n)
    requires i < |dev| && Chosen(dev, blockno, refcnt, d, n, i) && Fits(g, s.disk) && LP.Enabled(g, s, LP.Get(t, n))
    requires forall b :: b in s.cache ==> 0 <= s.cache[b].refcnt < UINT
    ensures Fits(g, s1.disk) && MayEvict(g, s, s1)
    ensures LP.Enabled(g, s1, LP.Get(t, n)) && s2 == LP.Apply(g, s1, LP.Get(t, n))
    ensures Shows(dev[i := d], blockno[i := n], valid[i := valid[i] && dev[i] == d && blockno[i] == n],
                  refcnt[i := Inc(refcnt[i])], d, s2.cache)
  {
    assert Backs(dev, blockno, valid, refcnt, d, s.cache, i);
    s1 := s;
    if n in s.cache {
      assert Held(dev, blockno, d, n);
      Counts(s.cache[n].refcnt);
    } else if dev[i] == d && Real(d, blockno[i]) {
      assert LP.Enabled(g, s, LP.Evict(blockno[i]));
      s1 := LP.Apply(g, s, LP.Evict(blockno[i]));
    }
    s2 := LP.Apply(g, s1, LP.Get(t, n));
    Regiven(dev, blockno, valid, refcnt, d, s.cache, i, n, s2.cache[n]);
    assert s2.cache == Given(dev, blockno, d, s.cache, i, n, s2.cache[n]);
  }

  /** When bget panics. */
  lemma AllReferenced(dev: seq<nat>, blockno: seq<nat>, valid: seq<bool>, refcnt: seq<nat>, d: nat, n: nat,
                      m: map<nat, LP.Buf>)
    requires Shows(dev, blockno, valid, refcnt, d, m)
    requires forall i :: 0 <= i < |dev| ==> !(dev[i] == d && blockno[i] == n) && refcnt[i] > 0
    requires forall b :: b in m ==> 0 <= m[b].refcnt
    ensures forall b :: b in m ==> b != n && m[b].refcnt > 0
  {
    forall b | b in m ensures b != n && m[b].refcnt > 0 {
      assert Held(dev, blockno, d, b);
      var j: nat :| j < |dev| && dev[j] == d && blockno[j] == b;
      assert Backs(dev, blockno, valid, refcnt, d, m, j);
    }
  }

  /** bget is a Get, after an Evict where it has to make room. */
  method Get(c: Cache, d: nat, n: nat, ghost g: Geometry, ghost s: LP.State, ghost t: LP.Tid)
    returns (i: nat, panic: bool, ghost s1: LP.State, ghost s2: LP.State)
    requires c.Valid() && Real(d, n) && Shown(c, d, s.cache)
    requires Fits(g, s.disk) && LP.Enabled(g, s, LP.Get(t, n))
    requires forall b :: b in s.cache ==> 0 <= s.cache[b].refcnt < UINT
    modifies c.dev, c.blockno, c.valid, c.refcnt
    ensures c.Valid()
    ensures panic ==> n !in s.cache && forall b :: b in s.cache ==> s.cache[b].refcnt > 0
    ensures !panic ==> i < NBUF && c.dev[i] == d && c.blockno[i] == n && Shown(c, d, s2.cache)
    ensures !panic ==>
              Fits(g, s1.disk) && MayEvict(g, s, s1) && LP.Enabled(g, s1, LP.Get(t, n))
              && s2 == LP.Apply(g, s1, LP.Get(t, n))
  {
    ghost var dev: seq<nat>, blockno: seq<nat> := c.dev[..], c.blockno[..];
    ghost var valid: seq<bool>, refcnt: seq<nat> := c.valid[..], c.refcnt[..];
    i, panic := c.Bget(d, n);
    s1, s2 := s, s;
    if panic {
      AllReferenced(dev, blockno, valid, refcnt, d, n, s.cache);
      return;
    }
    s1, s2 := GetSteps(dev, blockno, valid, refcnt, d, n, i, g, s, t);
  }

  /** A change of one reference count is the same change of the cached block. */
  lemma Recounted(dev: seq<nat>, blockno: seq<nat>, valid: seq<bool>, refcnt: seq<nat>, d: nat, m: map<nat, LP.Buf>,
                  i: nat, f: LP.Buf)
    requires Shows(dev, blockno, valid, refcnt, d, m) && i < |dev| && dev[i] == d
             && f.valid == valid[i] && Real(d, blockno[i])
    requires forall j :: 0 <= j < |dev| && j != i && dev[j] == d ==> blockno[j] != blockno[i]
    ensures Shows(dev, blockno, valid, refcnt[i := f.refcnt % UINT], d, m[blockno[i] := f])
  {
    Regiven(dev, blockno, valid, refcnt, d, m, i, blockno[i], f);
    assert dev[i := d] == dev && blockno[i := blockno[i]] == blockno && valid[i := f.valid] == valid;
    assert Given(dev, blockno, d, m, i, blockno[i], f) == m[blockno[i] := f];
  }

  /** brelse is an Unref. */
  method Unref(c: Cache, d: nat, i: nat, ghost g: Geometry, ghost s: LP.State, ghost t: LP.Tid)
    returns (ghost s': LP.State)
    requires c.Valid() && Shown(c, d, s.cache) && i < NBUF && c.dev[i] == d && Real(d, c.blockno[i])
    requires Fits(g, s.disk) && LP.Enabled(g, s, LP.Unref(t, c.blockno[i]))
    modifies c.next, c.prev, c.refcnt, c`order, c`released, c`clock
    ensures c.Valid() && s' == LP.Apply(g, s, LP.Unref(t, c.blockno[i])) && Shown(c, d, s'.cache)
  {
    ghost var b := c.blockno[i];
    s' := LP.Apply(g, s, LP.Unref(t, b));
    assert Backs(c.dev[..], c.blockno[..], c.valid[..], c.refcnt[..], d, s.cache, i);
    Recounted(c.dev[..], c.blockno[..], c.valid[..], c.refcnt[..], d, s.cache, i, s'.cache[b]);
    Counts(s.cache[b].refcnt);
    c.Brelse(i);
  }

  /** bpin is the reference that log_write takes when it appends the block. */
  method Pin(c: Cache, d: nat, i: nat, ghost g: Geometry, ghost s: LP.State, ghost t: LP.Tid)
    returns (ghost s': LP.State)
    requires c.Valid() && Shown(c, d, s.cache) && i < NBUF && c.dev[i] == d && Real(d, c.blockno[i])
    requires Fits(g, s.disk) && LP.Enabled(g, s, LP.LogWrite(t, c.blockno[i])) && c.blockno[i] !in s.lh
    requires !LP.LogFull(g, s) && s.outstanding >= 1
    modifies c.refcnt
    ensures c.Valid() && s' == LP.Apply(g, s, LP.LogWrite(t, c.blockno[i])) && Shown(c, d, s'.cache)
  {
    ghost var b := c.blockno[i];
    s' := LP.Apply(g, s, LP.LogWrite(t, b));
    assert Backs(c.dev[..], c.blockno[..], c.valid[..], c.refcnt[..], d, s.cache, i);
    Recounted(c.dev[..], c.blockno[..], c.valid[..], c.refcnt[..], d, s.cache, i, s'.cache[b]);
    Counts(s.cache[b].refcnt);
    c.Bpin(i);
  }

  /** bunpin is the reference that install_trans gives back. */
  method Unpin(c: Cache, d: nat, i: nat, ghost s: LP.State) returns (ghost s': LP.State)
    requires c.Valid() && Shown(c, d, s.cache) && i < NBUF && c.dev[i] == d && Real(d, c.blockno[i])
    modifies c.refcnt
    ensures c.Valid() && c.blockno[i] in s.cache && s' == LP.Unpin(s, c.blockno[i]) && Shown(c, d, s'.cache)
  {
    ghost var b := c.blockno[i];
    assert Backs(c.dev[..], c.blockno[..], c.valid[..], c.refcnt[..], d, s.cache, i);
    s' := LP.Unpin(s, b);
    assert Backs(c.dev[..], c.blockno[..], c.valid[..], c.refcnt[..], d, s.cache, i);
    Recounted(c.dev[..], c.blockno[..], c.valid[..], c.refcnt[..], d, s.cache, i, s'.cache[b]);
    Counts(s.cache[b].refcnt);
    c.Bunpin(i);
  }
}

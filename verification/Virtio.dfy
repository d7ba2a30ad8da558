/**
  kernel/virtio_disk.c: drivers, the interrupt handler and an out-of-order device sharing one
  virtqueue (sections 2.6 and 5.2 of VIRTIO 1.1). The device is any behaviour that takes published
  chains and returns each of them once, in any order, with any status.
 */
module Virtio {

  const NUM: nat := 8
  const WRAP: nat := 65536

  type BufId = nat
  datatype Option<T> = None | Some(value: T)

  /** What a descriptor points at: a command header, a buffer's data, or a status byte. */
  datatype Addr = Null | Op(i: nat) | Data(b: BufId) | Status(i: nat)
  datatype Desc = Desc(addr: Addr, more: bool, devWrites: bool, next: nat)
  datatype Table = Table(free: seq<bool>, desc: seq<Desc>, panicked: bool)

  const ZERO := Desc(Null, false, false, 0)

  // ---------------------------------------------------------------- descriptor table

  /** alloc_desc: the lowest free descriptor. */
  function FirstFree(free: seq<bool>, i: nat): (r: Option<nat>)
    requires i <= |free|
    ensures r.Some? ==> i <= r.value < |free| && free[r.value] && forall k :: i <= k < r.value ==> !free[k]
    ensures r.None? ==> forall k :: i <= k < |free| ==> !free[k]
    decreases |free| - i
  {
    if i == |free| then None else if free[i] then Some(i) else FirstFree(free, i + 1)
  }

  /** alloc3_desc: the three lowest free descriptors; it fails exactly if no three are free. */
  function Alloc3(free: seq<bool>): (r: Option<(nat, nat, nat)>)
    ensures r.Some? ==>
              && r.value.0 < r.value.1 < r.value.2 < |free|
              && free[r.value.0] && free[r.value.1] && free[r.value.2]
              && forall k :: 0 <= k < r.value.2 && free[k] ==> k == r.value.0 || k == r.value.1
    ensures r.None? ==> forall i, j, k :: 0 <= i < j < k < |free| ==> !(free[i] && free[j] && free[k])
  {
    var a := FirstFree(free, 0);
    if a.None? then None else
    var f1 := free[a.value := false];
    assert forall k {:trigger free[k]} :: 0 <= k < |free| ==> (f1[k] <==> free[k] && k != a.value);
    var b := FirstFree(f1, 0);
    if b.None? then None else
    var f2 := f1[b.value := false];
    assert forall k {:trigger free[k]} :: 0 <= k < |free| ==> (f2[k] <==> f1[k] && k != b.value);
    var c := FirstFree(f2, 0);
    if c.None? then None else Some((a.value, b.value, c.value))
  }

  /** free_desc */
  function DescFree(t: Table, i: nat): Table {
    if i >= |t.free| || i >= |t.desc| || t.free[i] then t.(panicked := true)
    else t.(free := t.free[i := true], desc := t.desc[i := ZERO])
  }

  /** The table after the descriptors of `idx` are taken. */
  function Marked(free: seq<bool>, idx: seq<nat>): (r: seq<bool>)
    ensures |r| == |free|
  {
    if idx == [] then free else Set(Marked(free, idx[..|idx| - 1]), idx[|idx| - 1], false)
  }

  /** `idx` was picked one by one, always the lowest descriptor still free. */
  predicate Picks(free: seq<bool>, idx: seq<nat>) {
    idx == [] || var n := |idx| - 1; Picks(free, idx[..n]) && FirstFree(Marked(free, idx[..n]), 0) == Some(idx[n])
  }

  predicate Blank(free: seq<bool>, desc: seq<Desc>)
    requires |free| == |desc|
  {
    forall i :: 0 <= i < |free| && free[i] ==> desc[i] == ZERO
  }

  lemma {:induction false} MarkedAt(free: seq<bool>, idx: seq<nat>)
    requires Picks(free, idx)
    ensures forall k :: 0 <= k < |free| ==>
              (Marked(free, idx)[k] <==> free[k] && forall m :: 0 <= m < |idx| ==> idx[m] != k)
    ensures forall m :: 0 <= m < |idx| ==> idx[m] < |free| && free[idx[m]]
    ensures forall m, n :: 0 <= m < n < |idx| ==> idx[m] != idx[n]
  {
    if idx != [] {
      var n := |idx| - 1;
      MarkedAt(free, idx[..n]);
      assert idx == idx[..n] + [idx[n]];
    }
  }

  /** The first j descriptors of idx have been given back. */
  predicate Restored(now: seq<bool>, free: seq<bool>, idx: seq<nat>, j: nat) {
    |now| == |free| && forall k :: 0 <= k < |free| ==>
        (now[k] <==> free[k] && forall m :: j <= m < |idx| ==> idx[m] != k)
  }

  lemma RestoredMore(now: seq<bool>, free: seq<bool>, idx: seq<nat>, j: nat)
    requires Restored(now, free, idx, j) && j < |idx| && idx[j] < |free| && free[idx[j]]
    requires forall m, n :: 0 <= m < n < |idx| ==> idx[m] != idx[n]
    ensures !now[idx[j]] && Restored(now[idx[j] := true], free, idx, j + 1)
  {
  }

  lemma PicksAre(free: seq<bool>, idx: seq<nat>)
    requires Picks(free, idx) && |idx| <= 3
    ensures |idx| == 3 ==> Alloc3(free) == Some((idx[0], idx[1], idx[2]))
    ensures |idx| < 3 && FirstFree(Marked(free, idx), 0).None? ==> Alloc3(free).None?
  {
    if |idx| >= 1 {
      assert idx[..1] == [idx[0]];
      assert idx[..1][..0] == [];
    }
    if |idx| >= 2 {
      assert idx[..2] == [idx[0], idx[1]] && idx[..2][..1] == idx[..1];
      assert Picks(free, idx[..2]) && Picks(free, idx[..1]);
    }
  }

  ghost function InUse(free: seq<bool>): set<nat> {
    set k: nat | k < |free| && !free[k]
  }

  /** free_chain: follow the next links. It ends, since freeing a descriptor twice panics. */
  ghost function ChainFree(t: Table, i: nat): Table
    decreases InUse(t.free)
  {
    if i >= |t.desc| then t.(panicked := true)
    else
      var d := t.desc[i];
      var t1 := DescFree(t, i);
      if t1.panicked || !d.more then t1
      else
        assert i in InUse(t.free) && i !in InUse(t1.free);
        ChainFree(t1, d.next)
  }

  /** The descriptor table as the driver updates it in place. */
  class Disk {
    const free: array<bool>
    const desc: array<Desc>

    ghost predicate Valid()
      reads this
    {
      free.Length == desc.Length == NUM
    }

    /** virtio_disk_init: every descriptor is free and blank. */
    constructor ()
      ensures Valid() && fresh(free) && fresh(desc)
      ensures Contents(false) == Table(seq(NUM, _ => true), seq(NUM, _ => ZERO), false)
    {
      free := new bool[NUM](_ => true);
      desc := new Desc[NUM](_ => ZERO);
    }

    ghost function Contents(panicked: bool): Table
      reads this, free, desc
    {
      Table(free[..], desc[..], panicked)
    }

    method AllocDesc() returns (r: int)
      requires Valid()
      modifies free
      ensures -1 <= r < NUM && (r >= 0 <==> FirstFree(old(free[..]), 0).Some?)
      ensures r >= 0 ==> FirstFree(old(free[..]), 0) == Some(r)
      ensures free[..] == if r >= 0 then old(free[..])[r := false] else old(free[..])
    {
      ghost var was: seq<bool> := free[..];
      for i := 0 to NUM
        invariant free[..] == was && FirstFree(was, 0) == FirstFree(was, i)
      {
        if free[i] {
          free[i] := false;
          return i;
        }
      }
      return -1;
    }

    method FreeDesc(i: nat) returns (panicked: bool)
      requires Valid()
      modifies free, desc
      ensures Contents(panicked) == DescFree(old(Contents(false)), i)
    {
      if i >= NUM || free[i] {
        return true;
      }
      desc[i] := ZERO;
      free[i] := true;
      return false;
    }

    method FreeChain(head: nat) returns (panicked: bool)
      requires Valid()
      modifies free, desc
      ensures Contents(panicked) == ChainFree(old(Contents(false)), head)
    {
      var i: nat := head;
      ghost var was := Contents(false);
      while true
        invariant ChainFree(Contents(false), i) == ChainFree(was, head)
        decreases InUse(free[..])
      {
        if i >= NUM {
          return true;
        }
        var d := desc[i];
        ghost var now := Contents(false);
        panicked := FreeDesc(i);
        if panicked || !d.more {
          return;
        }
        assert i in InUse(now.free) && i !in InUse(free[..]);
        i := d.next;
      }
    }

    /** Takes three descriptors, or gives back what it took. */
    method Alloc3Desc() returns (ok: bool, idx: seq<nat>)
      requires Valid()
      modifies free, desc
      ensures ok <==> Alloc3(old(free[..])).Some?
      ensures ok ==> |idx| == 3 && Alloc3(old(free[..])) == Some((idx[0], idx[1], idx[2]))
      ensures ok ==> free[..] == Marked(old(free[..]), idx) && desc[..] == old(desc[..])
      ensures !ok ==> free[..] == old(free[..])
      ensures !ok && Blank(old(free[..]), old(desc[..])) ==> desc[..] == old(desc[..])
    {
      ghost var was := Contents(false);
      idx := [];
      for i := 0 to 3
        invariant |idx| == i && desc[..] == was.desc && Picks(was.free, idx)
        invariant free[..] == Marked(was.free, idx)
      {
        var d := AllocDesc();
        if d < 0 {
          PicksAre(was.free, idx);
          Rollback(was, idx);
          return false, [];
        }
        idx := idx + [d];
        assert idx[..i] + [idx[i]] == idx;
      }
      PicksAre(was.free, idx);
      return true, idx;
    }

    method Rollback(ghost was: Table, idx: seq<nat>)
      requires Valid() && |was.free| == |was.desc| == NUM
      requires free[..] == Marked(was.free, idx) && desc[..] == was.desc && Picks(was.free, idx)
      modifies free, desc
      ensures free[..] == was.free && (Blank(was.free, was.desc) ==> desc[..] == was.desc)
    {
      MarkedAt(was.free, idx);
      for j := 0 to |idx|
        invariant Restored(free[..], was.free, idx, j)
        invariant Blank(was.free, was.desc) ==> desc[..] == was.desc
      {
        RestoredMore(free[..], was.free, idx, j);
        var panicked := FreeDesc(idx[j]);
      }
    }
  }

  // ---------------------------------------------------------------- the transition system

  datatype Stage = Prepared | Queued(k: nat) | InFlight | Done(k: nat) | Drained

  /** A request of virtio_disk_rw, kept under its head descriptor; `id` numbers the submissions. */
  datatype Req = Req(b: BufId, i1: nat, i2: nat, write: bool, id: nat, stage: Stage)

  datatype Holder = Driver(h: nat) | Intr

  datatype State = State(
    tbl: Table, info: seq<Option<BufId>>, status: seq<nat>, busy: set<BufId>, lock: Option<Holder>,
    ring: seq<nat>, availIdx: nat,            // avail ring
    uring: seq<nat>, usedIdx: nat,            // used ring, written by the device
    seen: nat,                                // disk.used_idx
    devIdx: nat, inflight: set<nat>,          // the device: how far it has read, what it works on
    reqs: map<nat, Req>, heads: map<BufId, nat>, own: seq<Option<nat>>,
    sub: seq<nat>, taken: nat, comp: seq<nat>, compIds: seq<nat>, codes: seq<nat>, drained: nat,
    panicked: bool)

  datatype Step =
    | Prepare(b: BufId, write: bool) | Publish | DevTake | DevComplete(h: nat, code: nat)
    | IntrBegin | IntrOne | IntrEnd | Finish(h: nat)

  predicate Enabled(s: State, st: Step) {
    !s.panicked &&
    match st
    case Prepare(b, _) => s.lock == None && b !in s.heads && Alloc3(s.tbl.free).Some?
    case Publish => s.lock.Some? && s.lock.value.Driver? && s.lock.value.h in s.reqs
    case DevTake => s.devIdx != s.availIdx
    case DevComplete(h, _) => h in s.inflight && h in s.reqs
    case IntrBegin => s.lock == None
    case IntrOne => s.lock == Some(Intr) && s.seen != s.usedIdx
    case IntrEnd => s.lock == Some(Intr) && s.seen == s.usedIdx
    case Finish(h) => s.lock == None && h in s.reqs && s.reqs[h].b !in s.busy
  }

  function Set<T>(q: seq<T>, i: nat, x: T): seq<T> {
    if i < |q| then q[i := x] else q
  }

  function Get(q: seq<nat>, i: nat): nat {
    if i < |q| then q[i] else 0
  }

  function DoPrepare(s: State, b: BufId, write: bool): State
    requires Alloc3(s.tbl.free).Some?
  {
    var (i0, i1, i2) := Alloc3(s.tbl.free).value;
    var free := s.tbl.free[i0 := false][i1 := false][i2 := false];
    var desc := Set(Set(Set(s.tbl.desc, i0, Desc(Op(i0), true, false, i1)),
                        i1, Desc(Data(b), true, !write, i2)),
                    i2, Desc(Status(i0), false, true, 0));
    s.(tbl := s.tbl.(free := free, desc := desc), status := Set(s.status, i0, 255), busy := s.busy + {b},
       info := Set(s.info, i0, Some(b)), ring := Set(s.ring, s.availIdx % NUM, i0), lock := Some(Driver(i0)),
       reqs := s.reqs[i0 := Req(b, i1, i2, write, 0, Prepared)], heads := s.heads[b := i0],
       own := Set(Set(Set(s.own, i0, Some(i0)), i1, Some(i0)), i2, Some(i0)))
  }

  function DoPublish(s: State, h: nat): State
    requires h in s.reqs
  {
    s.(availIdx := (s.availIdx + 1) % WRAP, lock := None, sub := s.sub + [h],
       reqs := s.reqs[h := s.reqs[h].(stage := Queued(|s.sub|), id := |s.sub|)])
  }

  function DoTake(s: State): State {
    var h := Get(s.ring, s.devIdx % NUM);
    s.(devIdx := (s.devIdx + 1) % WRAP, inflight := s.inflight + {h}, taken := s.taken + 1,
       reqs := if h in s.reqs then s.reqs[h := s.reqs[h].(stage := InFlight)] else s.reqs)
  }

  /** The device walks the chain to its third descriptor, stores the status (0 for success) where that
      points, and reports the head in the used ring. */
  function DoComplete(s: State, h: nat, code: nat): State
    requires h in s.reqs
  {
    var d0 := if h < |s.tbl.desc| then s.tbl.desc[h] else ZERO;
    var d1 := if d0.more && d0.next < |s.tbl.desc| then s.tbl.desc[d0.next] else ZERO;
    var d2 := if d1.more && d1.next < |s.tbl.desc| then s.tbl.desc[d1.next] else ZERO;
    s.(status := if d2.addr.Status? then Set(s.status, d2.addr.i, code) else s.status,
       uring := Set(s.uring, s.usedIdx % NUM, h), usedIdx := (s.usedIdx + 1) % WRAP,
       inflight := s.inflight - {h}, comp := s.comp + [h], compIds := s.compIds + [s.reqs[h].id],
       codes := s.codes + [code],
       reqs := s.reqs[h := s.reqs[h].(stage := Done(|s.comp|))])
  }

  function DoIntr(s: State): State {
    var id := Get(s.uring, s.seen % NUM);
    if Get(s.status, id) != 0 || id >= |s.info| || s.info[id] == None then s.(panicked := true)
    else
      s.(busy := s.busy - {s.info[id].value}, seen := (s.seen + 1) % WRAP, drained := s.drained + 1,
         reqs := if id in s.reqs then s.reqs[id := s.reqs[id].(stage := Drained)] else s.reqs)
  }

  ghost function DoFinish(s: State, h: nat): State
    requires h in s.reqs
  {
    var t := ChainFree(s.tbl, h);
    var r := s.reqs[h];
    s.(info := Set(s.info, h, None), tbl := t.(panicked := false), panicked := t.panicked,
       reqs := s.reqs - {h}, heads := s.heads - {r.b},
       own := Set(Set(Set(s.own, h, None), r.i1, None), r.i2, None))
  }

  ghost function Apply(s: State, st: Step): State
    requires Enabled(s, st)
  {
    match st
    case Prepare(b, write) => DoPrepare(s, b, write)
    case Publish => DoPublish(s, s.lock.value.h)
    case DevTake => DoTake(s)
    case DevComplete(h, code) => DoComplete(s, h, code)
    case IntrBegin => s.(lock := Some(Intr))
    case IntrOne => DoIntr(s)
    case IntrEnd => s.(lock := None)
    case Finish(h) => DoFinish(s, h)
  }

  // ---------------------------------------------------------------- invariant

  ghost predicate Shape(s: State) {
    && |s.tbl.free| == |s.tbl.desc| == |s.info| == |s.status| == |s.ring| == |s.uring| == |s.own| == NUM
    && !s.panicked && !s.tbl.panicked
    && s.taken <= |s.sub| && s.drained <= |s.comp| == |s.compIds| == |s.codes|
    && s.availIdx == |s.sub| % WRAP && s.devIdx == s.taken % WRAP
    && s.usedIdx == |s.comp| % WRAP && s.seen == s.drained % WRAP
    && (s.lock.Some? && s.lock.value.Driver? ==> s.lock.value.h in s.reqs && s.reqs[s.lock.value.h].stage.Prepared?)
  }

  /** The three descriptors of a request form its chain and belong to it. */
  ghost predicate ChainOk(s: State, h: nat)
    requires Shape(s) && h in s.reqs
  {
    var r := s.reqs[h];
    && h < NUM && r.i1 < NUM && r.i2 < NUM && h != r.i1 && h != r.i2 && r.i1 != r.i2
    && s.own[h] == s.own[r.i1] == s.own[r.i2] == Some(h)
    && s.tbl.desc[h] == Desc(Op(h), true, false, r.i1)
    && s.tbl.desc[r.i1] == Desc(Data(r.b), true, !r.write, r.i2)
    && s.tbl.desc[r.i2] == Desc(Status(h), false, true, 0)
  }

  ghost predicate StageOk(s: State, h: nat)
    requires Shape(s) && h in s.reqs && h < NUM
  {
    var r := s.reqs[h];
    && s.info[h] == Some(r.b) && r.b in s.heads && s.heads[r.b] == h
    && (r.b in s.busy <==> !r.stage.Drained?)
    && (r.stage.InFlight? <==> h in s.inflight)
    && match r.stage
       case Prepared => s.lock == Some(Driver(h)) && s.ring[|s.sub| % NUM] == h
       case Queued(k) => s.taken <= k < |s.sub| && s.sub[k] == h && r.id == k
       case InFlight => r.id < s.taken && s.sub[r.id] == h && r.id !in s.compIds
       case Done(k) => s.drained <= k < |s.comp| && s.comp[k] == h && s.status[h] == s.codes[k] && s.compIds[k] == r.id
       case Drained => true
  }

  ghost predicate ReqOk(s: State, h: nat)
    requires Shape(s) && h in s.reqs
  {
    ChainOk(s, h) && StageOk(s, h)
  }

  /** A descriptor is free and blank, or in exactly the chain that owns it. */
  ghost predicate DescOk(s: State, i: nat)
    requires Shape(s) && i < NUM
  {
    match s.own[i]
    case None => s.tbl.free[i] && s.tbl.desc[i] == ZERO
    case Some(h) => !s.tbl.free[i] && h in s.reqs && (i == h || i == s.reqs[h].i1 || i == s.reqs[h].i2)
  }

  ghost predicate QueueOk(s: State, k: nat)
    requires Shape(s) && s.taken <= k < |s.sub|
  {
    s.sub[k] in s.reqs && s.reqs[s.sub[k]].stage == Queued(k) && s.ring[k % NUM] == s.sub[k]
  }

  ghost predicate DoneOk(s: State, k: nat)
    requires Shape(s) && s.drained <= k < |s.comp|
  {
    s.comp[k] in s.reqs && s.reqs[s.comp[k]].stage == Done(k) && s.uring[k % NUM] == s.comp[k]
  }

  ghost predicate BufOk(s: State, b: BufId)
    requires b in s.heads
  {
    s.heads[b] in s.reqs && s.reqs[s.heads[b]].b == b
  }

  /** The parts of the invariant that are not about single requests. */
  ghost predicate Rest(s: State)
    requires Shape(s)
  {
    && (forall i: nat {:trigger DescOk(s, i)} :: i < NUM ==> DescOk(s, i))
    && (forall k: nat {:trigger QueueOk(s, k)} :: s.taken <= k < |s.sub| ==> QueueOk(s, k))
    && (forall k: nat {:trigger DoneOk(s, k)} :: s.drained <= k < |s.comp| ==> DoneOk(s, k))
    && (forall b {:trigger BufOk(s, b)} :: b in s.heads ==> BufOk(s, b))
    && (forall h :: h in s.inflight ==> h in s.reqs)
    && (forall k :: 0 <= k < |s.compIds| ==> s.compIds[k] < s.taken)
    && (forall i, j :: 0 <= i < j < |s.compIds| ==> s.compIds[i] != s.compIds[j])
  }

  ghost predicate Inv(s: State) {
    && Shape(s)
    && (forall h {:trigger ReqOk(s, h)} :: h in s.reqs ==> ReqOk(s, h))
    && Rest(s)
  }

  // ---------------------------------------------------------------- ring occupancy

  lemma {:induction false} Pigeonhole(q: seq<nat>, room: set<nat>)
    requires forall i :: 0 <= i < |q| ==> q[i] in room
    requires forall i, j :: 0 <= i < j < |q| ==> q[i] != q[j]
    ensures |q| <= |room|
  {
    if q != [] {
      var n := |q| - 1;
      Pigeonhole(q[..n], room - {q[n]});
    }
  }

  ghost const ALL: set<nat> := {0, 1, 2, 3, 4, 5, 6, 7}

  /** The chains waiting in the avail ring have distinct heads outside `except`. */
  lemma QueueBound(s: State, except: set<nat>)
    requires Inv(s) && except <= ALL
    requires forall k: nat :: s.taken <= k < |s.sub| ==> s.sub[k] !in except
    ensures |s.sub| - s.taken <= NUM - |except|
  {
    var q := s.sub[s.taken..];
    forall i | 0 <= i < |q| ensures q[i] in ALL - except {
      assert QueueOk(s, s.taken + i) && ReqOk(s, q[i]);
    }
    forall i, j | 0 <= i < j < |q| ensures q[i] != q[j] {
      assert QueueOk(s, s.taken + i) && QueueOk(s, s.taken + j);
    }
    Pigeonhole(q, ALL - except);
    assert |ALL - except| == |ALL| - |except|;
  }

  lemma DoneBound(s: State, except: set<nat>)
    requires Inv(s) && except <= ALL
    requires forall k: nat :: s.drained <= k < |s.comp| ==> s.comp[k] !in except
    ensures |s.comp| - s.drained <= NUM - |except|
  {
    var q := s.comp[s.drained..];
    forall i | 0 <= i < |q| ensures q[i] in ALL - except {
      assert DoneOk(s, s.drained + i) && ReqOk(s, q[i]);
    }
    forall i, j | 0 <= i < j < |q| ensures q[i] != q[j] {
      assert DoneOk(s, s.drained + i) && DoneOk(s, s.drained + j);
    }
    Pigeonhole(q, ALL - except);
    assert |ALL - except| == |ALL| - |except|;
  }

  lemma SlotIndex(x: nat)
    ensures x % WRAP % NUM == x % NUM && (x % WRAP + 1) % WRAP == (x + 1) % WRAP
  {}

  lemma SlotsDiffer(i: nat, j: nat)
    requires i < j < i + NUM
    ensures i % NUM != j % NUM
  {}

  // ---------------------------------------------------------------- preservation

  /** Requests other than h are untouched in every respect that matters to them. */
  lemma OtherReq(s: State, s': State, h: nat)
    requires Shape(s) && Shape(s') && h in s.reqs && h in s'.reqs && s'.reqs[h] == s.reqs[h] && ReqOk(s, h)
    requires var r := s.reqs[h];
             && s'.own[h] == s.own[h] && s'.own[r.i1] == s.own[r.i1] && s'.own[r.i2] == s.own[r.i2]
             && s'.tbl.desc[h] == s.tbl.desc[h] && s'.tbl.desc[r.i1] == s.tbl.desc[r.i1]
             && s'.tbl.desc[r.i2] == s.tbl.desc[r.i2]
             && s'.info[h] == s.info[h] && s'.status[h] == s.status[h]
             && r.b in s'.heads && s'.heads[r.b] == s.heads[r.b]
             && (r.b in s'.busy <==> r.b in s.busy) && (h in s'.inflight <==> h in s.inflight)
    requires s.sub <= s'.sub && s.comp <= s'.comp && s.compIds <= s'.compIds && s.codes <= s'.codes
    requires s.taken <= s'.taken && s.drained <= s'.drained
    requires s.reqs[h].stage.Prepared? ==> s'.lock == s.lock && s'.ring == s.ring && s'.sub == s.sub
    requires s.reqs[h].stage.Queued? ==> s'.taken <= s.reqs[h].stage.k
    requires s.reqs[h].stage.InFlight? ==> s.reqs[h].id !in s'.compIds
    requires s.reqs[h].stage.Done? ==> s'.drained <= s.reqs[h].stage.k
    ensures ReqOk(s', h)
  {}

  lemma TakeHead(s: State)
    requires Inv(s) && Enabled(s, DevTake)
    ensures s.taken < |s.sub| && s.ring[s.devIdx % NUM] == s.sub[s.taken]
    ensures QueueOk(s, s.taken) && ReqOk(s, s.sub[s.taken]) && Shape(Apply(s, DevTake))
  {
    QueueBound(s, {});
    SlotIndex(s.taken);
    assert QueueOk(s, s.taken) && ReqOk(s, s.sub[s.taken]);
  }

  lemma TakeKeepsReqs(s: State, g: nat)
    requires Inv(s) && Enabled(s, DevTake) && Shape(Apply(s, DevTake)) && g in s.reqs
    requires s.taken < |s.sub| && s.ring[s.devIdx % NUM] == s.sub[s.taken] && QueueOk(s, s.taken)
    ensures ReqOk(Apply(s, DevTake), g)
  {
    assert ReqOk(s, g);
    if g != s.sub[s.taken] { OtherReq(s, Apply(s, DevTake), g); }
  }

  lemma TakeKeepsRest(s: State)
    requires Inv(s) && Enabled(s, DevTake) && Shape(Apply(s, DevTake))
    requires s.taken < |s.sub| && s.ring[s.devIdx % NUM] == s.sub[s.taken] && QueueOk(s, s.taken)
             && ReqOk(s, s.sub[s.taken])
    ensures Rest(Apply(s, DevTake))
  {
    var s' := Apply(s, DevTake);
    forall i: nat | i < NUM ensures DescOk(s', i) { assert DescOk(s, i); }
    forall k: nat | s'.taken <= k < |s'.sub| ensures QueueOk(s', k) { assert QueueOk(s, k); }
    forall k: nat | s'.drained <= k < |s'.comp| ensures DoneOk(s', k) { assert DoneOk(s, k); }
    forall b | b in s'.heads ensures BufOk(s', b) { assert BufOk(s, b); }
  }

  lemma TakeKeeps(s: State)
    requires Inv(s) && Enabled(s, DevTake)
    ensures Inv(Apply(s, DevTake))
  {
    var s' := Apply(s, DevTake);
    TakeHead(s);
    forall g | g in s'.reqs ensures ReqOk(s', g) { TakeKeepsReqs(s, g); }
    TakeKeepsRest(s);
  }

  lemma PrepareFacts(s: State, b: BufId, write: bool)
    requires Inv(s) && Enabled(s, Prepare(b, write))
    ensures Shape(Apply(s, Prepare(b, write)))
    ensures var (i0, i1, i2) := Alloc3(s.tbl.free).value;
            && s.own[i0] == s.own[i1] == s.own[i2] == None && i0 !in s.reqs
            && |s.sub| - s.taken <= NUM - 3
  {
    var (i0, i1, i2) := Alloc3(s.tbl.free).value;
    assert DescOk(s, i0) && DescOk(s, i1) && DescOk(s, i2);
    assert i0 in s.reqs ==> ReqOk(s, i0);
    forall k: nat | s.taken <= k < |s.sub| ensures s.sub[k] !in {i0, i1, i2} {
      assert QueueOk(s, k) && ReqOk(s, s.sub[k]);
    }
    QueueBound(s, {i0, i1, i2});
  }

  lemma PrepareKeepsReqs(s: State, b: BufId, write: bool, g: nat)
    requires Inv(s) && Enabled(s, Prepare(b, write)) && Shape(Apply(s, Prepare(b, write)))
    requires var (i0, i1, i2) := Alloc3(s.tbl.free).value;
             s.own[i0] == s.own[i1] == s.own[i2] == None && i0 !in s.reqs
    requires g in Apply(s, Prepare(b, write)).reqs
    ensures ReqOk(Apply(s, Prepare(b, write)), g)
  {
    var s' := Apply(s, Prepare(b, write));
    SlotIndex(|s.sub|);
    if g in s.reqs {
      assert ReqOk(s, g) && BufOk(s, s.reqs[g].b);
      OtherReq(s, s', g);
    } else {
      assert g < NUM && g !in s.inflight;
    }
  }

  lemma PrepareKeepsRest(s: State, b: BufId, write: bool)
    requires Inv(s) && Enabled(s, Prepare(b, write)) && Shape(Apply(s, Prepare(b, write)))
    requires var (i0, i1, i2) := Alloc3(s.tbl.free).value;
             && s.own[i0] == s.own[i1] == s.own[i2] == None && i0 !in s.reqs
             && |s.sub| - s.taken <= NUM - 3 && s.availIdx % NUM == |s.sub| % NUM
    ensures Rest(Apply(s, Prepare(b, write)))
  {
    var s' := Apply(s, Prepare(b, write));
    forall i: nat | i < NUM ensures DescOk(s', i) { assert DescOk(s, i); }
    forall k: nat | s'.taken <= k < |s'.sub| ensures QueueOk(s', k) {
      assert QueueOk(s, k);
      SlotsDiffer(k, |s.sub|);
    }
    forall k: nat | s'.drained <= k < |s'.comp| ensures DoneOk(s', k) { assert DoneOk(s, k); }
    forall c | c in s'.heads ensures BufOk(s', c) { if c != b { assert BufOk(s, c); } }
  }

  lemma PrepareKeeps(s: State, b: BufId, write: bool)
    requires Inv(s) && Enabled(s, Prepare(b, write))
    ensures Inv(Apply(s, Prepare(b, write)))
  {
    var s' := Apply(s, Prepare(b, write));
    PrepareFacts(s, b, write);
    forall g | g in s'.reqs ensures ReqOk(s', g) { PrepareKeepsReqs(s, b, write, g); }
    SlotIndex(|s.sub|);
    PrepareKeepsRest(s, b, write);
  }

  lemma PublishKeepsRest(s: State)
    requires Inv(s) && Enabled(s, Publish) && ReqOk(s, s.lock.value.h) && Shape(Apply(s, Publish))
             && s.availIdx % NUM == |s.sub| % NUM
    ensures Rest(Apply(s, Publish))
  {
    var s' := Apply(s, Publish);
    forall i: nat | i < NUM ensures DescOk(s', i) { assert DescOk(s, i); }
    forall k: nat | s'.taken <= k < |s'.sub| ensures QueueOk(s', k) {
      if k < |s.sub| { assert QueueOk(s, k); }
    }
    forall k: nat | s'.drained <= k < |s'.comp| ensures DoneOk(s', k) { assert DoneOk(s, k); }
    forall b | b in s'.heads ensures BufOk(s', b) { assert BufOk(s, b); }
  }

  lemma PublishKeeps(s: State)
    requires Inv(s) && Enabled(s, Publish)
    ensures Inv(Apply(s, Publish))
  {
    var s', h := Apply(s, Publish), s.lock.value.h;
    SlotIndex(|s.sub|);
    assert ReqOk(s, h);
    forall g | g in s'.reqs ensures ReqOk(s', g) {
      assert ReqOk(s, g);
      if g != h { OtherReq(s, s', g); }
    }
    PublishKeepsRest(s);
  }

  lemma CompleteFacts(s: State, h: nat, code: nat)
    requires Inv(s) && Enabled(s, DevComplete(h, code))
    ensures ReqOk(s, h) && s.reqs[h].stage.InFlight? && Shape(Apply(s, DevComplete(h, code)))
    ensures |s.comp| - s.drained <= NUM - 1
    ensures var s' := Apply(s, DevComplete(h, code)); s'.status == s.status[h := code]
  {
    assert ReqOk(s, h);
    forall k: nat | s.drained <= k < |s.comp| ensures s.comp[k] !in {h} { assert DoneOk(s, k); }
    DoneBound(s, {h});
    SlotIndex(|s.comp|);
  }

  lemma CompleteKeepsReqs(s: State, h: nat, code: nat, g: nat)
    requires Inv(s) && Enabled(s, DevComplete(h, code)) && Shape(Apply(s, DevComplete(h, code))) && g in s.reqs
    requires ReqOk(s, h) && s.reqs[h].stage.InFlight? && Apply(s, DevComplete(h, code)).status == s.status[h := code]
    ensures ReqOk(Apply(s, DevComplete(h, code)), g)
  {
    assert ReqOk(s, g);
    if g != h { OtherReq(s, Apply(s, DevComplete(h, code)), g); }
  }

  lemma CompleteKeepsRest(s: State, h: nat, code: nat)
    requires Inv(s) && Enabled(s, DevComplete(h, code)) && Shape(Apply(s, DevComplete(h, code)))
    requires ReqOk(s, h) && s.reqs[h].stage.InFlight? && |s.comp| - s.drained <= NUM - 1
             && s.usedIdx % NUM == |s.comp| % NUM
    ensures Rest(Apply(s, DevComplete(h, code)))
  {
    var s' := Apply(s, DevComplete(h, code));
    forall i: nat | i < NUM ensures DescOk(s', i) { assert DescOk(s, i); }
    forall k: nat | s'.taken <= k < |s'.sub| ensures QueueOk(s', k) { assert QueueOk(s, k); }
    forall k: nat | s'.drained <= k < |s'.comp| ensures DoneOk(s', k) {
      if k < |s.comp| { assert DoneOk(s, k); SlotsDiffer(k, |s.comp|); }
    }
    forall b | b in s'.heads ensures BufOk(s', b) { assert BufOk(s, b); }
  }

  lemma CompleteKeeps(s: State, h: nat, code: nat)
    requires Inv(s) && Enabled(s, DevComplete(h, code))
    ensures Inv(Apply(s, DevComplete(h, code)))
  {
    var s' := Apply(s, DevComplete(h, code));
    CompleteFacts(s, h, code);
    forall g | g in s'.reqs ensures ReqOk(s', g) { CompleteKeepsReqs(s, h, code, g); }
    SlotIndex(|s.comp|);
    CompleteKeepsRest(s, h, code);
  }

  /** The handler is about to see a failure. */
  predicate Fails(s: State, st: Step) {
    st.IntrOne? && s.drained < |s.codes| && s.codes[s.drained] != 0
  }

  /** The entry the handler looks at is the oldest completion, and its buffer is known. */
  lemma IntrFacts(s: State)
    requires Inv(s) && Enabled(s, IntrOne)
    ensures s.drained < |s.comp| && s.uring[s.seen % NUM] == s.comp[s.drained] && DoneOk(s, s.drained)
    ensures ReqOk(s, s.comp[s.drained]) && (Apply(s, IntrOne).panicked <==> Fails(s, IntrOne))
    ensures !Fails(s, IntrOne) ==> Shape(Apply(s, IntrOne))
  {
    DoneBound(s, {});
    SlotIndex(s.drained);
    assert DoneOk(s, s.drained) && ReqOk(s, s.comp[s.drained]);
  }

  lemma IntrKeepsReqs(s: State, g: nat)
    requires Inv(s) && Enabled(s, IntrOne) && Shape(Apply(s, IntrOne)) && g in s.reqs
    requires s.drained < |s.comp| && s.uring[s.seen % NUM] == s.comp[s.drained] && DoneOk(s, s.drained)
    requires ReqOk(s, s.comp[s.drained])
    ensures ReqOk(Apply(s, IntrOne), g)
  {
    assert ReqOk(s, g);
    if g != s.comp[s.drained] { OtherReq(s, Apply(s, IntrOne), g); }
  }

  lemma IntrKeepsRest(s: State)
    requires Inv(s) && Enabled(s, IntrOne) && Shape(Apply(s, IntrOne))
    requires s.drained < |s.comp| && s.uring[s.seen % NUM] == s.comp[s.drained] && DoneOk(s, s.drained)
    requires ReqOk(s, s.comp[s.drained])
    ensures Rest(Apply(s, IntrOne))
  {
    var s' := Apply(s, IntrOne);
    forall i: nat | i < NUM ensures DescOk(s', i) { assert DescOk(s, i); }
    forall k: nat | s'.taken <= k < |s'.sub| ensures QueueOk(s', k) { assert QueueOk(s, k); }
    forall k: nat | s'.drained <= k < |s'.comp| ensures DoneOk(s', k) { assert DoneOk(s, k); }
    forall b | b in s'.heads ensures BufOk(s', b) { assert BufOk(s, b); }
  }

  lemma IntrKeeps(s: State)
    requires Inv(s) && Enabled(s, IntrOne) && !Fails(s, IntrOne)
    ensures Inv(Apply(s, IntrOne))
  {
    var s' := Apply(s, IntrOne);
    IntrFacts(s);
    forall g | g in s'.reqs ensures ReqOk(s', g) { IntrKeepsReqs(s, g); }
    IntrKeepsRest(s);
  }

  /** free_chain releases exactly the three descriptors of the request. */
  lemma ChainFreed(s: State, h: nat)
    requires Inv(s) && h in s.reqs
    ensures ReqOk(s, h)
    ensures var r := s.reqs[h];
            ChainFree(s.tbl, h) == Table(s.tbl.free[h := true][r.i1 := true][r.i2 := true],
                                              s.tbl.desc[h := ZERO][r.i1 := ZERO][r.i2 := ZERO], false)
  {
    var r := s.reqs[h];
    assert ReqOk(s, h) && DescOk(s, h) && DescOk(s, r.i1) && DescOk(s, r.i2);
    var t1 := DescFree(s.tbl, h);
    var t2 := DescFree(t1, r.i1);
    assert ChainFree(s.tbl, h) == ChainFree(t1, r.i1);
    assert ChainFree(t1, r.i1) == ChainFree(t2, r.i2);
  }

  lemma FinishKeepsReqs(s: State, h: nat, g: nat)
    requires Inv(s) && Enabled(s, Finish(h)) && Shape(Apply(s, Finish(h))) && g in s.reqs && g != h
    ensures ReqOk(Apply(s, Finish(h)), g)
  {
    ChainFreed(s, h);
    assert ReqOk(s, g);
    OtherReq(s, Apply(s, Finish(h)), g);
  }

  lemma FinishKeepsRest(s: State, h: nat)
    requires Inv(s) && Enabled(s, Finish(h)) && Shape(Apply(s, Finish(h)))
    ensures Rest(Apply(s, Finish(h)))
  {
    var s' := Apply(s, Finish(h));
    ChainFreed(s, h);
    forall i: nat | i < NUM ensures DescOk(s', i) { assert DescOk(s, i); }
    forall k: nat | s'.taken <= k < |s'.sub| ensures QueueOk(s', k) { assert QueueOk(s, k); }
    forall k: nat | s'.drained <= k < |s'.comp| ensures DoneOk(s', k) { assert DoneOk(s, k); }
    forall b | b in s'.heads ensures BufOk(s', b) { assert BufOk(s, b); }
    forall g | g in s'.inflight ensures g in s'.reqs { assert ReqOk(s, g); }
  }

  lemma FinishKeeps(s: State, h: nat)
    requires Inv(s) && Enabled(s, Finish(h))
    ensures Inv(Apply(s, Finish(h)))
  {
    var s' := Apply(s, Finish(h));
    ChainFreed(s, h);
    assert Shape(s');
    forall g | g in s'.reqs ensures ReqOk(s', g) { FinishKeepsReqs(s, h, g); }
    FinishKeepsRest(s, h);
  }

  lemma LockStepKeeps(s: State, st: Step)
    requires Inv(s) && Enabled(s, st) && (st.IntrBegin? || st.IntrEnd?)
    ensures Inv(Apply(s, st))
  {
    var s' := Apply(s, st);
    forall g | g in s'.reqs ensures ReqOk(s', g) { assert ReqOk(s, g); OtherReq(s, s', g); }
    assert Rest(s') by {
      forall i: nat | i < NUM ensures DescOk(s', i) { assert DescOk(s, i); }
      forall k: nat | s'.taken <= k < |s'.sub| ensures QueueOk(s', k) { assert QueueOk(s, k); }
      forall k: nat | s'.drained <= k < |s'.comp| ensures DoneOk(s', k) { assert DoneOk(s, k); }
      forall b | b in s'.heads ensures BufOk(s', b) { assert BufOk(s, b); }
    }
  }

  /** The driver panics exactly at a reported failure; otherwise the invariant is kept. */
  lemma Keeps(s: State, st: Step)
    requires Inv(s) && Enabled(s, st)
    ensures Apply(s, st).panicked <==> Fails(s, st)
    ensures Fails(s, st) ==> Apply(s, st) == s.(panicked := true)
    ensures !Fails(s, st) ==> Inv(Apply(s, st))
  {
    match st
    case Prepare(b, write) => PrepareKeeps(s, b, write);
    case Publish => PublishKeeps(s);
    case DevTake => TakeKeeps(s);
    case DevComplete(h, code) => CompleteKeeps(s, h, code);
    case IntrOne => IntrFacts(s); if !Fails(s, st) { IntrKeeps(s); }
    case Finish(h) => FinishKeeps(s, h);
    case IntrBegin => LockStepKeeps(s, st);
    case IntrEnd => LockStepKeeps(s, st);
  }

  // ---------------------------------------------------------------- no submission is lost

  /** Submission id has completed, or its request is still queued or with the device. */
  ghost predicate IdOk(s: State, id: nat)
    requires id < |s.sub|
  {
    id in s.compIds
      || (s.sub[id] in s.reqs && s.reqs[s.sub[id]].id == id
          && (s.reqs[s.sub[id]].stage.Queued? || s.reqs[s.sub[id]].stage.InFlight?))
  }

  ghost predicate NoneLost(s: State) {
    forall id: nat {:trigger IdOk(s, id)} :: id < |s.sub| ==> IdOk(s, id)
  }

  lemma KeepsIds(s: State, st: Step)
    requires Inv(s) && NoneLost(s) && Enabled(s, st)
    ensures NoneLost(Apply(s, st))
  {
    var s' := Apply(s, st);
    forall id: nat | id < |s'.sub| ensures IdOk(s', id) {
      if id < |s.sub| {
        assert IdOk(s, id);
        KeepsId(s, st, id);
      }
    }
  }

  lemma PrepareKeepsId(s: State, b: BufId, write: bool, id: nat)
    requires Inv(s) && Enabled(s, Prepare(b, write)) && id < |s.sub| && IdOk(s, id)
    ensures id < |Apply(s, Prepare(b, write)).sub| && IdOk(Apply(s, Prepare(b, write)), id)
  {
    PrepareFacts(s, b, write);
  }

  /** The request of another submission is left alone. */
  lemma SameId(s: State, s': State, id: nat)
    requires id < |s.sub| && IdOk(s, id) && s.sub <= s'.sub && s.compIds <= s'.compIds
    requires id in s'.compIds || (s.sub[id] in s'.reqs && s'.reqs[s.sub[id]] == s.reqs[s.sub[id]])
    ensures IdOk(s', id)
  {
  }

  lemma IntrKeepsId(s: State, id: nat)
    requires Inv(s) && Enabled(s, IntrOne) && id < |s.sub| && IdOk(s, id)
    ensures id < |Apply(s, IntrOne).sub| && IdOk(Apply(s, IntrOne), id)
  {
    IntrFacts(s);
    if id !in s.compIds { SameId(s, Apply(s, IntrOne), id); }
  }

  lemma FinishKeepsId(s: State, h: nat, id: nat)
    requires Inv(s) && Enabled(s, Finish(h)) && id < |s.sub| && IdOk(s, id)
    ensures id < |Apply(s, Finish(h)).sub| && IdOk(Apply(s, Finish(h)), id)
  {
    assert ReqOk(s, h);
    if id !in s.compIds { SameId(s, Apply(s, Finish(h)), id); }
  }

  lemma KeepsId(s: State, st: Step, id: nat)
    requires Inv(s) && Enabled(s, st) && id < |s.sub| && IdOk(s, id)
    ensures id < |Apply(s, st).sub| && IdOk(Apply(s, st), id)
  {
    match st
    case Prepare(b, write) => PrepareKeepsId(s, b, write, id);
    case Publish => assert ReqOk(s, s.lock.value.h);
    case DevTake =>
    case DevComplete(h, _) => assert ReqOk(s, h);
    case IntrOne => IntrKeepsId(s, id);
    case Finish(h) => FinishKeepsId(s, h, id);
    case IntrBegin =>
    case IntrEnd =>
  }

  // ---------------------------------------------------------------- whole runs

  ghost predicate Init(s: State) {
    s == State(Table(seq(NUM, _ => true), seq(NUM, _ => ZERO), false), seq(NUM, _ => None), seq(NUM, _ => 0), {}, None,
               seq(NUM, _ => 0), 0, seq(NUM, _ => 0), 0, 0, 0, {}, map[], map[], seq(NUM, _ => None),
               [], 0, [], [], [], 0, false)
  }

  ghost predicate IsRun(ss: seq<State>, steps: seq<Step>) {
    && |ss| == |steps| + 1 && Init(ss[0])
    && forall i :: 0 <= i < |steps| ==> Enabled(ss[i], steps[i]) && ss[i + 1] == Apply(ss[i], steps[i])
  }

  /** The flag aside, the invariant holds even where the driver has panicked. */
  lemma {:induction false} RunHolds(ss: seq<State>, steps: seq<Step>, i: nat)
    requires IsRun(ss, steps) && i <= |steps|
    ensures Inv(ss[i].(panicked := false)) && (i < |steps| ==> Inv(ss[i]))
  {
    if i == 0 {
      forall k: nat | k < NUM ensures DescOk(ss[0], k) {}
      assert ss[0].(panicked := false) == ss[0];
    } else {
      RunHolds(ss, steps, i - 1);
      var s := ss[i - 1];
      assert Enabled(s, steps[i - 1]) && ss[i - 1 + 1] == Apply(s, steps[i - 1]);
      Keeps(s, steps[i - 1]);
      assert ss[i].(panicked := false) == if Fails(s, steps[i - 1]) then s else ss[i];
      if i < |steps| { assert Enabled(ss[i], steps[i]); }
    }
  }

  /** No panic but one: the driver stops exactly when the oldest completion that it has not seen
      reports a failure. */
  lemma PanicsExactly(ss: seq<State>, steps: seq<Step>, i: nat)
    requires IsRun(ss, steps) && i < |steps|
    ensures ss[i + 1].panicked <==> Fails(ss[i], steps[i])
    ensures steps[i].IntrOne? ==> ss[i].drained < |ss[i].codes|
  {
    RunHolds(ss, steps, i);
    assert Enabled(ss[i], steps[i]) && ss[i + 1] == Apply(ss[i], steps[i]);
    Keeps(ss[i], steps[i]);
    if steps[i].IntrOne? { IntrFacts(ss[i]); }
  }

  /** Descriptor ownership: at every point of every run each descriptor is free or in the chain of
      exactly one request. */
  lemma DescriptorOwnership(ss: seq<State>, steps: seq<Step>, i: nat, d: nat)
    requires IsRun(ss, steps) && i <= |steps| && d < NUM
    ensures |ss[i].tbl.free| == NUM
    ensures ss[i].tbl.free[d] ==> forall h :: h in ss[i].reqs ==> !InChain(ss[i].reqs[h], h, d)
    ensures !ss[i].tbl.free[d] ==> exists h :: h in ss[i].reqs && InChain(ss[i].reqs[h], h, d)
    ensures forall h, g ::
              h in ss[i].reqs && g in ss[i].reqs && InChain(ss[i].reqs[h], h, d) && InChain(ss[i].reqs[g], g, d) ==>
                h == g
  {
    RunHolds(ss, steps, i);
    var s := ss[i].(panicked := false);
    assert DescOk(s, d);
    forall h | h in s.reqs && InChain(s.reqs[h], h, d) ensures s.own[d] == Some(h) { assert ReqOk(s, h); }
    if s.own[d].Some? { assert InChain(s.reqs[s.own[d].value], s.own[d].value, d); }
  }

  predicate InChain(r: Req, h: nat, d: nat) {
    d == h || d == r.i1 || d == r.i2
  }

  lemma {:induction false} RunLosesNone(ss: seq<State>, steps: seq<Step>, i: nat)
    requires IsRun(ss, steps) && i <= |steps|
    ensures NoneLost(ss[i])
  {
    if i > 0 {
      RunLosesNone(ss, steps, i - 1);
      RunHolds(ss, steps, i - 1);
      assert ss[i - 1 + 1] == Apply(ss[i - 1], steps[i - 1]);
      KeepsIds(ss[i - 1], steps[i - 1]);
    }
  }

  /** Nothing is lost: at every point each submission has completed or is still queued or with the device. */
  lemma NeverLost(ss: seq<State>, steps: seq<Step>, i: nat, id: nat)
    requires IsRun(ss, steps) && i <= |steps| && id < |ss[i].sub|
    ensures id in ss[i].compIds || (ss[i].sub[id] in ss[i].reqs && ss[i].reqs[ss[i].sub[id]].id == id
                                    && (ss[i].reqs[ss[i].sub[id]].stage.Queued?
                                        || ss[i].reqs[ss[i].sub[id]].stage.InFlight?))
  {
    RunLosesNone(ss, steps, i);
    assert IdOk(ss[i], id);
  }

  /** Exactly once: each interrupt iteration retires the oldest unseen completion, clears the buffer of
      that very request and of no other, and no submission is ever completed twice. */
  lemma CompletesOnce(ss: seq<State>, steps: seq<Step>, i: nat)
    requires IsRun(ss, steps) && i < |steps|
    ensures forall j, k :: 0 <= j < k < |ss[i].compIds| ==> ss[i].compIds[j] != ss[i].compIds[k]
    ensures steps[i].IntrOne? ==>
              && ss[i].drained < |ss[i].comp| && ss[i].comp[ss[i].drained] in ss[i].reqs
              && var r := ss[i].reqs[ss[i].comp[ss[i].drained]];
                 && r.stage == Done(ss[i].drained) && r.b in ss[i].busy
                 && (!ss[i + 1].panicked ==> ss[i + 1].busy == ss[i].busy - {r.b})
    ensures steps[i].Finish? ==> steps[i].h in ss[i].reqs && ss[i].reqs[steps[i].h].stage.Drained?
  {
    RunHolds(ss, steps, i);
    assert Enabled(ss[i], steps[i]) && ss[i + 1] == Apply(ss[i], steps[i]);
    if steps[i].IntrOne? { IntrFacts(ss[i]); }
    if steps[i].Finish? { assert ReqOk(ss[i], steps[i].h); }
  }

  /** Index wrap loses nothing: comparing the 16-bit indices tells exactly whether work is pending. */
  lemma WrapIsHarmless(ss: seq<State>, steps: seq<Step>, i: nat)
    requires IsRun(ss, steps) && i <= |steps|
    ensures ss[i].seen != ss[i].usedIdx <==> ss[i].drained < |ss[i].comp|
    ensures ss[i].devIdx != ss[i].availIdx <==> ss[i].taken < |ss[i].sub|
    ensures |ss[i].comp| - ss[i].drained <= NUM && |ss[i].sub| - ss[i].taken <= NUM
  {
    RunHolds(ss, steps, i);
    QueueBound(ss[i].(panicked := false), {});
    DoneBound(ss[i].(panicked := false), {});
  }
}

/**
  kernel/sysfile.c: link counts under create, mkdir, link and unlink. An operation is the whole system
  call, with each of its failure exits; whether a directory can grow and whether a path resolves are
  parameters. Names are already cut to DIRSIZ characters.
 */
module Links {

  const ROOT: nat := 1

  datatype Kind = Free | Dir | File | Device
  datatype Ent = Ent(inum: nat, name: string)

  /** `refs` counts the references that open files and current directories hold. */
  datatype Node = Node(kind: Kind, nlink: int, ents: seq<Ent>, refs: nat)
  type Nodes = seq<Node>

  datatype Result = Done(ns: Nodes) | Failed(ns: Nodes) | Panic

  const BLANK := Node(Free, 0, [], 0)

  // ---------------------------------------------------------------- directories

  /** dirlookup: the first used entry with the name, from k on. */
  function Find(ents: seq<Ent>, name: string, k: nat): (r: nat)
    requires k <= |ents|
    ensures k <= r <= |ents| && (r < |ents| ==> ents[r].inum != 0 && ents[r].name == name)
    ensures forall j :: k <= j < r ==> ents[j].inum == 0 || ents[j].name != name
    decreases |ents| - k
  {
    if k == |ents| || (ents[k].inum != 0 && ents[k].name == name) then k else Find(ents, name, k + 1)
  }

  /** The first unused entry from k on. */
  function Gap(ents: seq<Ent>, k: nat): (r: nat)
    requires k <= |ents|
    ensures k <= r <= |ents| && (r < |ents| ==> ents[r].inum == 0)
    ensures forall j :: k <= j < r ==> ents[j].inum != 0
    decreases |ents| - k
  {
    if k == |ents| || ents[k].inum == 0 then k else Gap(ents, k + 1)
  }

  /** dirlink succeeds: the name is new, and there is a gap or room to grow. */
  predicate CanLink(ents: seq<Ent>, name: string, room: bool) {
    Find(ents, name, 0) == |ents| && (Gap(ents, 0) < |ents| || room)
  }

  function Linked(ents: seq<Ent>, name: string, inum: nat): seq<Ent> {
    var k := Gap(ents, 0);
    if k < |ents| then ents[k := Ent(inum, name)] else ents + [Ent(inum, name)]
  }

  /** isdirempty */
  predicate IsEmpty(ents: seq<Ent>) {
    forall k :: 2 <= k < |ents| ==> ents[k].inum == 0
  }

  // ---------------------------------------------------------------- operations

  predicate Live(n: Node) {
    n.kind == Dir && n.nlink > 0
  }

  /** iput of the last reference to an inode without links frees it. */
  function Put(ns: Nodes, i: nat): Nodes {
    if i < |ns| && ns[i].refs == 0 && ns[i].nlink == 0 then ns[i := BLANK] else ns
  }

  function AddLinks(ns: Nodes, i: nat, n: int): Nodes
    requires i < |ns|
  {
    ns[i := ns[i].(nlink := ns[i].nlink + n)]
  }

  function SetEnts(ns: Nodes, i: nat, ents: seq<Ent>): Nodes
    requires i < |ns|
  {
    ns[i := ns[i].(ents := ents)]
  }

  /** sys_link, once the old path has led to ip; `found` tells whether the new path has a parent dp.
      Locking an inode that is free panics. */
  function DoLink(ns: Nodes, ip: nat, dp: nat, name: string, found: bool, room: bool): Result
    requires ip < |ns| && dp < |ns|
  {
    if ns[ip].kind == Free then Panic
    else if ns[ip].kind == Dir then Failed(Put(ns, ip))
    else
      var n1 := AddLinks(ns, ip, 1);
      if !found then Failed(Put(AddLinks(n1, ip, -1), ip))
      else if !CanLink(n1[dp].ents, name, room) then Failed(Put(AddLinks(Put(n1, dp), ip, -1), ip))
      else Done(Put(Put(SetEnts(n1, dp, Linked(n1[dp].ents, name, ip)), dp), ip))
  }

  /** sys_unlink, once the path has led to the directory dp. */
  function DoUnlink(ns: Nodes, dp: nat, name: string): Result
    requires dp < |ns|
  {
    if name == "." || name == ".." then Failed(Put(ns, dp))
    else
      var k := Find(ns[dp].ents, name, 0);
      if k == |ns[dp].ents| || ns[dp].ents[k].inum >= |ns| then Failed(Put(ns, dp))
      else
        var ip := ns[dp].ents[k].inum;
        if ns[ip].nlink < 1 then Panic
        else if ns[ip].kind == Dir && !IsEmpty(ns[ip].ents) then Failed(Put(Put(ns, ip), dp))
        else
          var n1 := SetEnts(ns, dp, ns[dp].ents[k := Ent(0, "")]);
          var n2 := if n1[ip].kind == Dir then AddLinks(n1, dp, -1) else n1;
          Done(Put(AddLinks(Put(n2, dp), ip, -1), ip))
  }

  /** ialloc: the first free inode from i on. */
  function FirstFree(ns: Nodes, i: nat): (r: nat)
    requires i <= |ns|
    ensures i <= r <= |ns| && (r < |ns| ==> ns[r].kind == Free)
    decreases |ns| - i
  {
    if i == |ns| || ns[i].kind == Free then i else FirstFree(ns, i + 1)
  }

  /** create, once the path has led to the directory dp. room tells of room for ".", "..", and the name. */
  function DoCreate(ns: Nodes, dp: nat, name: string, kind: Kind, room: (bool, bool, bool)): Result
    requires dp < |ns| && 1 <= |ns|
  {
    var k := Find(ns[dp].ents, name, 0);
    if k < |ns[dp].ents| then
      var ip := ns[dp].ents[k].inum;
      if ip < |ns| && ns[ip].kind == Free then Panic
      else if kind == File && ip < |ns| && (ns[ip].kind == File || ns[ip].kind == Device) then Done(Put(ns, dp))
      else Failed(Put(Put(ns, dp), ip))
    else
      var ip := FirstFree(ns, 1);
      if ip == |ns| then Failed(Put(ns, dp)) else DoEnter(ns[ip := Node(kind, 1, [], 0)], dp, ip, name, kind, room)
  }

  /** create after ialloc has given ip one link. */
  function DoEnter(ns: Nodes, dp: nat, ip: nat, name: string, kind: Kind, room: (bool, bool, bool)): Result
    requires dp < |ns| && ip < |ns|
  {
    var made := if kind == Dir && room.0 then [Ent(ip, ".")] else [];
    var full := if kind == Dir && room.0 && room.1 then made + [Ent(dp, "..")] else made;
    var n1 := SetEnts(ns, ip, full);
    if (kind == Dir && !(room.0 && room.1)) || !CanLink(n1[dp].ents, name, room.2) then
      Failed(Put(Put(AddLinks(n1, ip, -1), ip), dp))
    else
      var n2 := SetEnts(n1, dp, Linked(n1[dp].ents, name, ip));
      var n3 := if kind == Dir then AddLinks(n2, dp, 1) else n2;
      Done(Put(n3, dp))
  }

  // ---------------------------------------------------------------- counting entries

  function CountIn(ents: seq<Ent>, x: nat): nat {
    if ents == [] then 0
    else
      var e := ents[|ents| - 1];
      CountIn(ents[..|ents| - 1], x) + if e.inum == x && e.name != "." then 1 else 0
  }

  /** What a directory contributes to the links of x: nothing once it is dead. */
  function Share(n: Node, x: nat): nat {
    if Live(n) then CountIn(n.ents, x) else 0
  }

  function Sum(ns: Nodes, x: nat, n: nat): nat
    requires n <= |ns|
  {
    if n == 0 then 0 else Sum(ns, x, n - 1) + Share(ns[n - 1], x)
  }

  /** The number of entries, other than ".", that name x in live directories. */
  function Count(ns: Nodes, x: nat): nat {
    Sum(ns, x, |ns|)
  }

  lemma {:induction false} SumSet(ns: Nodes, i: nat, u: Node, x: nat, n: nat)
    requires i < |ns| && n <= |ns|
    ensures Sum(ns[i := u], x, n) == Sum(ns, x, n) + (if i < n then Share(u, x) - Share(ns[i], x) else 0)
  {
    if n > 0 { SumSet(ns, i, u, x, n - 1); }
  }

  lemma {:induction false} CountSet(ents: seq<Ent>, k: nat, e: Ent, x: nat)
    requires k < |ents|
    ensures CountIn(ents[k := e], x) ==
            CountIn(ents, x) + (if e.inum == x && e.name != "." then 1 else 0)
            - (if ents[k].inum == x && ents[k].name != "." then 1 else 0)
  {
    var n := |ents| - 1;
    if k == n {
      assert ents[k := e][..n] == ents[..n];
    } else {
      CountSet(ents[..n], k, e, x);
      assert ents[k := e][..n] == ents[..n][k := e];
    }
  }

  lemma LinkedCount(ents: seq<Ent>, name: string, inum: nat, x: nat)
    requires x != 0 && name != "."
    ensures CountIn(Linked(ents, name, inum), x) == CountIn(ents, x) + if inum == x then 1 else 0
  {
    var k := Gap(ents, 0);
    if k < |ents| {
      CountSet(ents, k, Ent(inum, name), x);
    } else {
      assert (ents + [Ent(inum, name)])[..|ents|] == ents;
    }
  }

  /** An entry counts for x. */
  predicate Names(e: Ent, x: nat) {
    e.inum == x && e.name != "."
  }

  lemma {:induction false} CountNone(ents: seq<Ent>, x: nat)
    requires forall k :: 0 <= k < |ents| ==> !Names(ents[k], x)
    ensures CountIn(ents, x) == 0
  {
    if ents != [] {
      assert !Names(ents[|ents| - 1], x);
      CountNone(ents[..|ents| - 1], x);
    }
  }

  lemma {:induction false} CountOne(ents: seq<Ent>, k: nat, x: nat)
    requires k < |ents| && Names(ents[k], x) && forall j :: 0 <= j < |ents| && j != k ==> !Names(ents[j], x)
    ensures CountIn(ents, x) == 1
  {
    var n := |ents| - 1;
    if k == n {
      CountNone(ents[..n], x);
    } else {
      assert !Names(ents[n], x);
      CountOne(ents[..n], k, x);
    }
  }

  lemma {:induction false} CountSome(ents: seq<Ent>, k: nat, x: nat)
    requires k < |ents| && Names(ents[k], x)
    ensures CountIn(ents, x) >= 1
  {
    if k < |ents| - 1 { CountSome(ents[..|ents| - 1], k, x); }
  }

  lemma {:induction false} SumSome(ns: Nodes, p: nat, x: nat, n: nat)
    requires p < n <= |ns| && Share(ns[p], x) >= 1
    ensures Sum(ns, x, n) >= 1
  {
    if p < n - 1 { SumSome(ns, p, x, n - 1); }
  }

  lemma {:induction false} SumOnly(ns: Nodes, p: nat, x: nat, n: nat)
    requires n <= |ns| && p < |ns| && forall i :: 0 <= i < |ns| && i != p ==> Share(ns[i], x) == 0
    ensures Sum(ns, x, n) == if p < n then Share(ns[p], x) else 0
  {
    if n > 0 { SumOnly(ns, p, x, n - 1); }
  }

  // ---------------------------------------------------------------- invariant

  /** Where the one entry for each directory but the root is: directory and index. */
  type Places = map<nat, (nat, nat)>

  predicate NodeOk(ns: Nodes, x: nat)
    requires x < |ns|
  {
    && (ns[x].kind != Dir ==> ns[x].ents == []) && (ns[x].kind == Free ==> ns[x] == BLANK)
    && (ns[x].kind == Dir ==>
          |ns[x].ents| >= 2 && ns[x].ents[0] == Ent(x, ".") && ns[x].ents[1].name == ".."
          && 0 < ns[x].ents[1].inum < |ns|)
  }

  /** The link count is the number of entries. */
  predicate LinkOk(ns: Nodes, x: nat)
    requires x < |ns|
  {
    ns[x].nlink == Count(ns, x)
  }

  predicate EntOk(ns: Nodes, at: Places, d: nat, k: nat)
    requires d < |ns| && k < |ns[d].ents|
  {
    var e := ns[d].ents[k];
    && (Live(ns[d]) && k >= 2 && e.inum != 0 ==>
          && e.inum < |ns| && e.name != "." && e.name != ".."
          && (ns[e.inum].kind == Dir ==> e.inum in at && at[e.inum] == (d, k)))
    && (!Live(ns[d]) && e.inum != 0 ==> e.name == "." || e.name == "..")
  }

  predicate PlaceOk(ns: Nodes, at: Places, d: nat)
    requires d < |ns|
  {
    Live(ns[d]) && d != ROOT ==>
      && d in at && at[d].0 < |ns| && Live(ns[at[d].0]) && 2 <= at[d].1 < |ns[at[d].0].ents|
      && ns[at[d].0].ents[at[d].1].inum == d && |ns[d].ents| >= 2 && ns[d].ents[1].inum == at[d].0
  }

  ghost predicate CountsOk(ns: Nodes) {
    forall x: nat {:trigger LinkOk(ns, x)} :: 1 <= x < |ns| ==> LinkOk(ns, x)
  }

  ghost predicate Tree(ns: Nodes, at: Places) {
    && |ns| > 1 && ns[0] == BLANK && Live(ns[ROOT]) && ROOT !in at && |ns[ROOT].ents| >= 2
    && ns[ROOT].ents[1].inum == ROOT
    && (forall x: nat {:trigger NodeOk(ns, x)} :: x < |ns| ==> NodeOk(ns, x))
    && (forall d: nat, k: nat {:trigger EntOk(ns, at, d, k)} :: d < |ns| && k < |ns[d].ents| ==> EntOk(ns, at, d, k))
    && (forall d: nat {:trigger PlaceOk(ns, at, d)} :: d < |ns| ==> PlaceOk(ns, at, d))
  }

  ghost predicate Inv(ns: Nodes, at: Places) {
    Tree(ns, at) && CountsOk(ns)
  }

  /** iput never disturbs the counts. */
  lemma PutKeeps(ns: Nodes, at: Places, i: nat)
    requires Inv(ns, at)
    ensures Inv(Put(ns, i), at)
  {
    if i < |ns| && ns[i].refs == 0 && ns[i].nlink == 0 {
      var ns' := Put(ns, i);
      forall x: nat | x < |ns'| ensures NodeOk(ns', x) { assert NodeOk(ns, x); }
      forall d: nat, k: nat | d < |ns'| && k < |ns'[d].ents| ensures EntOk(ns', at, d, k) {
        assert EntOk(ns, at, d, k);
      }
      forall d: nat | d < |ns'| ensures PlaceOk(ns', at, d) { assert PlaceOk(ns, at, d); }
      forall x: nat | 1 <= x < |ns'| ensures LinkOk(ns', x) { assert LinkOk(ns, x); SumSet(ns, i, BLANK, x, |ns|); }
    }
  }

  // ---------------------------------------------------------------- link

  lemma Update2(ns: Nodes, i: nat, u: Node, j: nat, w: Node, x: nat)
    requires i < |ns| && j < |ns| && i != j
    ensures Count(ns[i := u][j := w], x) == Count(ns, x) + Share(u, x) - Share(ns[i], x) + Share(w, x) - Share(ns[j], x)
  {
    SumSet(ns, i, u, x, |ns|);
    SumSet(ns[i := u], j, w, x, |ns|);
  }

  /** A live directory's first gap is past "." and "..", and neither name can be linked again. */
  lemma GapPast(ns: Nodes, at: Places, dp: nat, name: string, room: bool)
    requires Tree(ns, at) && dp < |ns| && Live(ns[dp]) && CanLink(ns[dp].ents, name, room)
    ensures Gap(ns[dp].ents, 0) >= 2 && name != "." && name != ".." && dp != 0
  {
    assert NodeOk(ns, dp);
  }

  lemma LinkCore(ns: Nodes, at: Places, ip: nat, dp: nat, name: string, room: bool)
    requires Inv(ns, at) && 1 <= ip < |ns| && dp < |ns| && Live(ns[dp]) && CanLink(ns[dp].ents, name, room)
    requires ns[ip].kind == File || ns[ip].kind == Device
    ensures Inv(SetEnts(AddLinks(ns, ip, 1), dp, Linked(ns[dp].ents, name, ip)), at)
  {
    var ns' := SetEnts(AddLinks(ns, ip, 1), dp, Linked(ns[dp].ents, name, ip));
    GapPast(ns, at, dp, name, room);
    forall x: nat | x < |ns'| ensures NodeOk(ns', x) { assert NodeOk(ns, x); }
    forall d: nat, k: nat | d < |ns'| && k < |ns'[d].ents| ensures EntOk(ns', at, d, k) {
      if k < |ns[d].ents| { assert EntOk(ns, at, d, k); }
    }
    forall d: nat | d < |ns'| ensures PlaceOk(ns', at, d) { assert PlaceOk(ns, at, d); }
    forall x: nat | 1 <= x < |ns'| ensures LinkOk(ns', x) {
      assert LinkOk(ns, x);
      Update2(ns, ip, ns'[ip], dp, ns'[dp], x);
      LinkedCount(ns[dp].ents, name, ip, x);
    }
  }

  // ---------------------------------------------------------------- unlink

  /** What a live directory names has a link. */
  lemma NamedHasLink(ns: Nodes, at: Places, d: nat, k: nat)
    requires Inv(ns, at) && d < |ns| && Live(ns[d]) && k < |ns[d].ents| && 0 < ns[d].ents[k].inum < |ns|
             && ns[d].ents[k].name != "."
    ensures ns[ns[d].ents[k].inum].nlink >= 1
  {
    var x := ns[d].ents[k].inum;
    CountSome(ns[d].ents, k, x);
    SumSome(ns, d, x, |ns|);
    assert LinkOk(ns, x);
  }

  lemma {:induction false} SumTwo(ns: Nodes, p: nat, q: nat, x: nat, n: nat)
    requires p < q < n <= |ns| && Share(ns[p], x) >= 1 && Share(ns[q], x) >= 1
    ensures Sum(ns, x, n) >= 2
  {
    if q < n - 1 { SumTwo(ns, p, q, x, n - 1); } else { SumSome(ns, p, x, n - 1); }
  }

  /** An empty directory contributes its ".." and nothing else. */
  lemma EmptyShare(ns: Nodes, at: Places, ip: nat, x: nat)
    requires Tree(ns, at) && ip < |ns| && Live(ns[ip]) && IsEmpty(ns[ip].ents) && x != 0
    ensures |ns[ip].ents| >= 2 && Share(ns[ip], x) == if ns[ip].ents[1].inum == x then 1 else 0
  {
    assert NodeOk(ns, ip);
    if ns[ip].ents[1].inum == x { CountOne(ns[ip].ents, 1, x); } else { CountNone(ns[ip].ents, x); }
  }

  /** Which entry of directory d could name an empty directory ip: only the one in its place. */
  lemma OnlyPlace(ns: Nodes, at: Places, ip: nat, d: nat, j: nat)
    requires Tree(ns, at) && ip < |ns| && Live(ns[ip]) && ip != ROOT && ip != 0 && IsEmpty(ns[ip].ents)
    requires d < |ns| && Live(ns[d]) && j < |ns[d].ents|
    ensures ip in at && (Names(ns[d].ents[j], ip) ==> at[ip] == (d, j))
  {
    assert PlaceOk(ns, at, ip) && NodeOk(ns, d) && EntOk(ns, at, d, j);
    if j == 1 && ns[d].ents[1].inum == ip { ParentNotEmpty(ns, at, d); }
  }

  lemma ParentNotEmpty(ns: Nodes, at: Places, d: nat)
    requires Tree(ns, at) && d < |ns| && Live(ns[d]) && d != ROOT && d != 0
    ensures |ns[d].ents| >= 2 && ns[d].ents[1].inum < |ns| && !IsEmpty(ns[ns[d].ents[1].inum].ents)
  {
    assert PlaceOk(ns, at, d) && NodeOk(ns, d);
  }

  /** An empty directory has exactly one link. */
  lemma EmptyHasOne(ns: Nodes, at: Places, ip: nat)
    requires Inv(ns, at) && 1 <= ip < |ns| && Live(ns[ip]) && ip != ROOT && IsEmpty(ns[ip].ents)
    ensures ns[ip].nlink == 1
  {
    assert PlaceOk(ns, at, ip) && LinkOk(ns, ip);
    var (p, k) := at[ip];
    assert EntOk(ns, at, p, k);
    forall d: nat | d < |ns| && d != p ensures Share(ns[d], ip) == 0 {
      if Live(ns[d]) {
        forall j: nat | j < |ns[d].ents| ensures !Names(ns[d].ents[j], ip) { OnlyPlace(ns, at, ip, d, j); }
        CountNone(ns[d].ents, ip);
      }
    }
    forall j: nat | j < |ns[p].ents| && j != k ensures !Names(ns[p].ents[j], ip) { OnlyPlace(ns, at, ip, p, j); }
    CountOne(ns[p].ents, k, ip);
    SumOnly(ns, p, ip, |ns|);
  }

  /** The parent of an empty directory has two links or more. */
  lemma ParentHasTwo(ns: Nodes, at: Places, ip: nat, dp: nat)
    requires Inv(ns, at) && ip < |ns| && 1 <= dp < |ns| && Live(ns[ip]) && Live(ns[dp]) && IsEmpty(ns[ip].ents)
             && |ns[ip].ents| >= 2
    requires ns[ip].ents[1].inum == dp && ip != ROOT
    ensures ns[dp].nlink >= 2
  {
    EmptyShare(ns, at, ip, dp);
    assert NodeOk(ns, dp) && PlaceOk(ns, at, dp) && LinkOk(ns, dp);
    var p, k := dp, 1;
    if dp != ROOT {
      p, k := at[dp].0, at[dp].1;
      assert EntOk(ns, at, p, k);
    }
    CountSome(ns[p].ents, k, dp);
    if p < ip { SumTwo(ns, p, ip, dp, |ns|); } else { SumTwo(ns, ip, p, dp, |ns|); }
  }

  lemma UnlinkFileCore(ns: Nodes, at: Places, dp: nat, k: nat, ip: nat)
    requires Inv(ns, at) && dp < |ns| && Live(ns[dp]) && 2 <= k < |ns[dp].ents| && ns[dp].ents[k].inum == ip
    requires 1 <= ip < |ns| && ns[ip].kind != Dir && ns[dp].ents[k].name != "."
    ensures Inv(AddLinks(SetEnts(ns, dp, ns[dp].ents[k := Ent(0, "")]), ip, -1), at)
  {
    var ns' := AddLinks(SetEnts(ns, dp, ns[dp].ents[k := Ent(0, "")]), ip, -1);
    NamedHasLink(ns, at, dp, k);
    forall x: nat | x < |ns'| ensures NodeOk(ns', x) { assert NodeOk(ns, x); }
    forall d: nat, j: nat | d < |ns'| && j < |ns'[d].ents| ensures EntOk(ns', at, d, j) { assert EntOk(ns, at, d, j); }
    forall d: nat | d < |ns'| ensures PlaceOk(ns', at, d) { assert PlaceOk(ns, at, d); }
    forall x: nat | 1 <= x < |ns'| ensures LinkOk(ns', x) {
      assert LinkOk(ns, x);
      Update2(ns, dp, ns'[dp], ip, ns'[ip], x);
      CountSet(ns[dp].ents, k, Ent(0, ""), x);
    }
  }

  function RemovedDir(ns: Nodes, dp: nat, k: nat, ip: nat): Nodes
    requires dp < |ns| && k < |ns[dp].ents| && ip < |ns|
  {
    AddLinks(AddLinks(SetEnts(ns, dp, ns[dp].ents[k := Ent(0, "")]), dp, -1), ip, -1)
  }

  lemma UnlinkDirCounts(ns: Nodes, at: Places, dp: nat, k: nat, ip: nat, x: nat)
    requires Inv(ns, at) && dp < |ns| && Live(ns[dp]) && 2 <= k < |ns[dp].ents| && ns[dp].ents[k].inum == ip && ip != dp
    requires 1 <= ip < |ns| && Live(ns[ip]) && ns[ip].nlink == 1 && ns[dp].nlink >= 2 && IsEmpty(ns[ip].ents)
             && ns[dp].ents[k].name != "."
    requires |ns[ip].ents| >= 2 && ns[ip].ents[1].inum == dp && 1 <= x < |ns|
    ensures LinkOk(RemovedDir(ns, dp, k, ip), x)
  {
    var ns' := RemovedDir(ns, dp, k, ip);
    assert LinkOk(ns, x);
    assert ns' == ns[dp := ns'[dp]][ip := ns'[ip]];
    Update2(ns, dp, ns'[dp], ip, ns'[ip], x);
    CountSet(ns[dp].ents, k, Ent(0, ""), x);
    EmptyShare(ns, at, ip, x);
  }

  lemma UnlinkDirCore(ns: Nodes, at: Places, dp: nat, k: nat, ip: nat)
    requires Inv(ns, at) && 1 <= dp < |ns| && Live(ns[dp]) && 2 <= k < |ns[dp].ents| && ns[dp].ents[k].inum == ip
    requires 1 <= ip < |ns| && ns[ip].kind == Dir && IsEmpty(ns[ip].ents)
    ensures Inv(RemovedDir(ns, dp, k, ip), at - {ip})
  {
    var ns', at' := RemovedDir(ns, dp, k, ip), at - {ip};
    assert EntOk(ns, at, dp, k);
    NamedHasLink(ns, at, dp, k);
    assert PlaceOk(ns, at, ip) && NodeOk(ns, ip);
    EmptyHasOne(ns, at, ip);
    ParentHasTwo(ns, at, ip, dp);
    assert ip != dp;
    forall x: nat | x < |ns'| ensures NodeOk(ns', x) { assert NodeOk(ns, x); }
    forall d: nat, j: nat | d < |ns'| && j < |ns'[d].ents| ensures EntOk(ns', at', d, j) { assert EntOk(ns, at, d, j); }
    forall d: nat | d < |ns'| ensures PlaceOk(ns', at', d) {
      assert PlaceOk(ns, at, d);
    }
    forall x: nat | 1 <= x < |ns'| ensures LinkOk(ns', x) { UnlinkDirCounts(ns, at, dp, k, ip, x); }
  }

  // ---------------------------------------------------------------- create

  function NewNode(kind: Kind, ip: nat, dp: nat): Node {
    Node(kind, 1, if kind == Dir then [Ent(ip, "."), Ent(dp, "..")] else [], 0)
  }

  /** The effect of a create that succeeds. */
  function Created(ns: Nodes, dp: nat, name: string, kind: Kind, ip: nat): Nodes
    requires dp < |ns| && ip < |ns|
  {
    ns[ip := NewNode(kind, ip, dp)]
      [dp := ns[dp].(ents := Linked(ns[dp].ents, name, ip),
                     nlink := if kind == Dir then ns[dp].nlink + 1 else ns[dp].nlink)]
  }

  lemma NewShare(kind: Kind, ip: nat, dp: nat, x: nat)
    requires x != 0
    ensures Share(NewNode(kind, ip, dp), x) == if kind == Dir && x == dp then 1 else 0
  {
    if kind == Dir {
      var ents := [Ent(ip, "."), Ent(dp, "..")];
      if x == dp { CountOne(ents, 1, x); } else { CountNone(ents, x); }
    }
  }

  lemma CreatedCounts(ns: Nodes, at: Places, dp: nat, name: string, room: bool, kind: Kind, ip: nat, x: nat)
    requires Inv(ns, at) && 1 <= ip < |ns| && ns[ip].kind == Free && dp < |ns| && Live(ns[dp])
             && CanLink(ns[dp].ents, name, room) && kind != Free
    requires 1 <= x < |ns|
    ensures LinkOk(Created(ns, dp, name, kind, ip), x)
  {
    var ns' := Created(ns, dp, name, kind, ip);
    GapPast(ns, at, dp, name, room);
    assert LinkOk(ns, x) && NodeOk(ns, ip);
    Update2(ns, ip, ns'[ip], dp, ns'[dp], x);
    LinkedCount(ns[dp].ents, name, ip, x);
    NewShare(kind, ip, dp, x);
  }

  lemma CreateEnts(ns: Nodes, at: Places, dp: nat, name: string, room: bool, kind: Kind, ip: nat, d: nat, k: nat)
    requires Inv(ns, at) && 1 <= ip < |ns| && ns[ip].kind == Free && dp < |ns| && Live(ns[dp])
             && CanLink(ns[dp].ents, name, room) && kind != Free
    requires var ns' := Created(ns, dp, name, kind, ip); d < |ns'| && k < |ns'[d].ents|
    ensures EntOk(Created(ns, dp, name, kind, ip), at[ip := (dp, Gap(ns[dp].ents, 0))], d, k)
  {
    GapPast(ns, at, dp, name, room);
    assert NodeOk(ns, ip) && NodeOk(ns, dp);
    if d != ip && k < |ns[d].ents| {
      assert EntOk(ns, at, d, k);
      if Live(ns[d]) && k >= 2 && ns[d].ents[k].inum != 0 { NamedHasLink(ns, at, d, k); }
    }
  }

  lemma CreateCore(ns: Nodes, at: Places, dp: nat, name: string, room: bool, kind: Kind, ip: nat)
    requires Inv(ns, at) && 1 <= ip < |ns| && ns[ip].kind == Free && dp < |ns| && Live(ns[dp])
             && CanLink(ns[dp].ents, name, room) && kind != Free
    ensures Inv(Created(ns, dp, name, kind, ip), at[ip := (dp, Gap(ns[dp].ents, 0))])
  {
    var ns', at' := Created(ns, dp, name, kind, ip), at[ip := (dp, Gap(ns[dp].ents, 0))];
    GapPast(ns, at, dp, name, room);
    assert NodeOk(ns, ip);
    forall x: nat | x < |ns'| ensures NodeOk(ns', x) { assert NodeOk(ns, x); }
    forall d: nat, k: nat | d < |ns'| && k < |ns'[d].ents| ensures EntOk(ns', at', d, k) {
      CreateEnts(ns, at, dp, name, room, kind, ip, d, k);
    }
    forall d: nat | d < |ns'| ensures PlaceOk(ns', at', d) { assert PlaceOk(ns, at, d); }
    forall x: nat | 1 <= x < |ns'| ensures LinkOk(ns', x) { CreatedCounts(ns, at, dp, name, room, kind, ip, x); }
  }

  // ---------------------------------------------------------------- whole operations

  datatype Op =
    | Link(ip: nat, dp: nat, name: string, found: bool, room: bool)
    | Unlink(dp: nat, name: string)
    | Create(dp: nat, name: string, kind: Kind, rooms: (bool, bool, bool))
    | Open(i: nat)
    | Close(i: nat)

  /** Paths lead to inodes, parents are directories, and only held references are dropped. */
  predicate Enabled(ns: Nodes, op: Op) {
    |ns| > 1 &&
    match op
    case Link(ip, dp, _, _, _) => 1 <= ip < |ns| && 1 <= dp < |ns| && ns[dp].kind == Dir
    case Unlink(dp, _) => 1 <= dp < |ns| && ns[dp].kind == Dir
    case Create(dp, _, kind, _) => 1 <= dp < |ns| && ns[dp].kind == Dir && kind != Free
    case Open(i) => 1 <= i < |ns|
    case Close(i) => 1 <= i < |ns| && ns[i].refs > 0
  }

  function Apply(ns: Nodes, op: Op): Result
    requires Enabled(ns, op)
  {
    match op
    case Link(ip, dp, name, found, room) => DoLink(ns, ip, dp, name, found, room)
    case Unlink(dp, name) => DoUnlink(ns, dp, name)
    case Create(dp, name, kind, rooms) => DoCreate(ns, dp, name, kind, rooms)
    case Open(i) => if ns[i].kind == Free then Panic else Done(ns[i := ns[i].(refs := ns[i].refs + 1)])
    case Close(i) => Done(Put(ns[i := ns[i].(refs := ns[i].refs - 1)], i))
  }

  /** The operation enters a new name in a directory that has no links itself. */
  predicate AddsToDead(ns: Nodes, op: Op)
    requires Enabled(ns, op)
  {
    match op
    case Link(ip, dp, name, found, room) =>
      ns[dp].nlink == 0 && ns[ip].kind != Dir && found && CanLink(ns[dp].ents, name, room)
    case Create(dp, name, kind, rooms) =>
      && ns[dp].nlink == 0 && FirstFree(ns, 1) < |ns| && CanLink(ns[dp].ents, name, rooms.2)
      && (kind == Dir ==> rooms.0 && rooms.1)
    case _ => false
  }

  /** The operation locks an inode that has been freed. */
  predicate MeetsFreed(ns: Nodes, op: Op)
    requires Enabled(ns, op)
  {
    match op
    case Link(ip, _, _, _, _) => ns[ip].kind == Free
    case Create(dp, name, _, _) => name == ".." && Orphan(ns, dp)
    case Open(i) => ns[i].kind == Free
    case _ => false
  }

  /** A directory without links whose parent has been freed: it lives on while someone is in it. */
  predicate Orphan(ns: Nodes, d: nat) {
    && d < |ns| && ns[d].kind == Dir && ns[d].nlink == 0 && |ns[d].ents| >= 2
    && ns[d].ents[1].inum < |ns| && ns[ns[d].ents[1].inum].kind == Free
  }

  lemma RefsKeep(ns: Nodes, at: Places, i: nat, refs: nat)
    requires Inv(ns, at) && 1 <= i < |ns| && ns[i].kind != Free
    ensures Inv(ns[i := ns[i].(refs := refs)], at)
  {
    var ns' := ns[i := ns[i].(refs := refs)];
    forall x: nat | x < |ns'| ensures NodeOk(ns', x) { assert NodeOk(ns, x); }
    forall d: nat, k: nat | d < |ns'| && k < |ns'[d].ents| ensures EntOk(ns', at, d, k) { assert EntOk(ns, at, d, k); }
    forall d: nat | d < |ns'| ensures PlaceOk(ns', at, d) { assert PlaceOk(ns, at, d); }
    forall x: nat | 1 <= x < |ns'| ensures LinkOk(ns', x) { assert LinkOk(ns, x); SumSet(ns, i, ns'[i], x, |ns|); }
  }

  lemma NonNegative(ns: Nodes, at: Places, x: nat)
    requires Inv(ns, at) && 1 <= x < |ns|
    ensures ns[x].nlink >= 0
  {
    assert LinkOk(ns, x);
  }

  lemma LinkKeeps(ns: Nodes, at: Places, op: Op)
    requires Inv(ns, at) && op.Link? && Enabled(ns, op) && !AddsToDead(ns, op) && !MeetsFreed(ns, op)
    ensures !Apply(ns, op).Panic? && Inv(Apply(ns, op).ns, at)
  {
    var ip, dp := op.ip, op.dp;
    NonNegative(ns, at, dp);
    if ns[ip].kind == Dir {
      PutKeeps(ns, at, ip);
    } else {
      assert AddLinks(AddLinks(ns, ip, 1), ip, -1) == ns;
      var n1 := AddLinks(ns, ip, 1);
      if !op.found {
        PutKeeps(ns, at, ip);
      } else if !CanLink(n1[dp].ents, op.name, op.room) {
        assert AddLinks(Put(n1, dp), ip, -1) == Put(ns, dp);
        PutKeeps(ns, at, dp);
        PutKeeps(Put(ns, dp), at, ip);
      } else {
        LinkCore(ns, at, ip, dp, op.name, op.room);
        var n2 := SetEnts(n1, dp, Linked(n1[dp].ents, op.name, ip));
        PutKeeps(n2, at, dp);
        PutKeeps(Put(n2, dp), at, ip);
      }
    }
  }

  /** Names can be found only in live directories. */
  lemma FoundIsLive(ns: Nodes, at: Places, dp: nat, name: string)
    requires Inv(ns, at) && 1 <= dp < |ns| && ns[dp].kind == Dir && name != "." && name != ".."
    ensures var k := Find(ns[dp].ents, name, 0);
            k < |ns[dp].ents| ==>
              Live(ns[dp]) && k >= 2 && 0 < ns[dp].ents[k].inum < |ns| && ns[ns[dp].ents[k].inum].nlink >= 1
  {
    var k := Find(ns[dp].ents, name, 0);
    if k < |ns[dp].ents| {
      assert NodeOk(ns, dp) && EntOk(ns, at, dp, k);
      NamedHasLink(ns, at, dp, k);
    }
  }

  lemma UnlinkKeeps(ns: Nodes, at: Places, op: Op) returns (at': Places)
    requires Inv(ns, at) && op.Unlink? && Enabled(ns, op)
    ensures !Apply(ns, op).Panic? && Inv(Apply(ns, op).ns, at')
  {
    var dp, name := op.dp, op.name;
    at' := at;
    if name == "." || name == ".." {
      PutKeeps(ns, at, dp);
      return;
    }
    FoundIsLive(ns, at, dp, name);
    var k := Find(ns[dp].ents, name, 0);
    if k == |ns[dp].ents| {
      PutKeeps(ns, at, dp);
      return;
    }
    var ip := ns[dp].ents[k].inum;
    if ns[ip].kind == Dir && !IsEmpty(ns[ip].ents) {
      PutKeeps(ns, at, ip);
      PutKeeps(Put(ns, ip), at, dp);
    } else if ns[ip].kind == Dir {
      UnlinkDirCore(ns, at, dp, k, ip);
      assert EntOk(ns, at, dp, k) && PlaceOk(ns, at, ip);
      ParentHasTwo(ns, at, ip, dp);
      at' := at - {ip};
      PutKeeps(RemovedDir(ns, dp, k, ip), at', ip);
    } else {
      UnlinkFileCore(ns, at, dp, k, ip);
      PutKeeps(AddLinks(SetEnts(ns, dp, ns[dp].ents[k := Ent(0, "")]), ip, -1), at, ip);
    }
  }

  /** A create that fails after ialloc leaves no trace but what iput does. */
  lemma CreateFails(ns: Nodes, at: Places, ip: nat, kind: Kind, ents: seq<Ent>)
    requires Inv(ns, at) && 1 <= ip < |ns| && ns[ip].kind == Free
    ensures Put(AddLinks(SetEnts(ns[ip := Node(kind, 1, [], 0)], ip, ents), ip, -1), ip) == ns
  {
    assert NodeOk(ns, ip);
  }

  /** A create that gets through has the effect Created, and then lets go of dp. */
  lemma CreateIs(ns: Nodes, dp: nat, name: string, kind: Kind, rooms: (bool, bool, bool))
    requires 1 <= dp < |ns| && ns[dp].kind == Dir && FirstFree(ns, 1) < |ns| && CanLink(ns[dp].ents, name, rooms.2)
    requires kind == Dir ==> rooms.0 && rooms.1
    ensures DoCreate(ns, dp, name, kind, rooms) == Done(Put(Created(ns, dp, name, kind, FirstFree(ns, 1)), dp))
  {
    var ip := FirstFree(ns, 1);
    EnterIs(ns, dp, ip, name, kind, rooms);
  }

  lemma EnterIs(ns: Nodes, dp: nat, ip: nat, name: string, kind: Kind, rooms: (bool, bool, bool))
    requires dp < |ns| && ip < |ns| && ip != dp && CanLink(ns[dp].ents, name, rooms.2)
             && (kind == Dir ==> rooms.0 && rooms.1)
    ensures DoEnter(ns[ip := Node(kind, 1, [], 0)], dp, ip, name, kind, rooms) ==
            Done(Put(Created(ns, dp, name, kind, ip), dp))
  {
    var n0 := ns[ip := Node(kind, 1, [], 0)];
    if kind == Dir {
      assert [Ent(ip, ".")] + [Ent(dp, "..")] == [Ent(ip, "."), Ent(dp, "..")];
      var n1 := SetEnts(n0, ip, [Ent(ip, "."), Ent(dp, "..")]);
      assert n1 == ns[ip := NewNode(kind, ip, dp)];
      assert AddLinks(SetEnts(n1, dp, Linked(ns[dp].ents, name, ip)), dp, 1) == Created(ns, dp, name, kind, ip);
    } else {
      assert SetEnts(n0, ip, []) == ns[ip := NewNode(kind, ip, dp)];
      assert SetEnts(n0, dp, Linked(ns[dp].ents, name, ip)) == Created(ns, dp, name, kind, ip);
    }
  }

  /** An entry leads from a directory to a free inode only if it is the ".." of an orphan. */
  lemma EntryToFree(ns: Nodes, at: Places, d: nat, name: string)
    requires Inv(ns, at) && 1 <= d < |ns| && ns[d].kind == Dir
    ensures var k := Find(ns[d].ents, name, 0);
            k < |ns[d].ents| && ns[d].ents[k].inum < |ns| && ns[ns[d].ents[k].inum].kind == Free <==>
            name == ".." && Orphan(ns, d)
  {
    var k := Find(ns[d].ents, name, 0);
    assert NodeOk(ns, d);
    NonNegative(ns, at, d);
    if k < |ns[d].ents| {
      assert EntOk(ns, at, d, k);
      if Live(ns[d]) && 0 < k && ns[d].ents[k].inum < |ns| {
        NamedHasLink(ns, at, d, k);
        assert NodeOk(ns, ns[d].ents[k].inum);
      }
    }
  }

  lemma CreateMeets(ns: Nodes, at: Places, op: Op)
    requires Inv(ns, at) && op.Create? && Enabled(ns, op)
    ensures Apply(ns, op).Panic? <==> MeetsFreed(ns, op)
  {
    EntryToFree(ns, at, op.dp, op.name);
  }

  lemma CreateKeeps(ns: Nodes, at: Places, op: Op) returns (at': Places)
    requires Inv(ns, at) && op.Create? && Enabled(ns, op) && !AddsToDead(ns, op) && !MeetsFreed(ns, op)
    ensures !Apply(ns, op).Panic? && Inv(Apply(ns, op).ns, at')
  {
    var dp, kind := op.dp, op.kind;
    at' := at;
    PutKeeps(ns, at, dp);
    NonNegative(ns, at, dp);
    CreateMeets(ns, at, op);
    var k := Find(ns[dp].ents, op.name, 0);
    if k < |ns[dp].ents| {
      PutKeeps(Put(ns, dp), at, ns[dp].ents[k].inum);
      return;
    }
    var ip := FirstFree(ns, 1);
    if ip == |ns| {
      return;
    }
    if kind == Dir && !(op.rooms.0 && op.rooms.1) {
      CreateFails(ns, at, ip, kind, if op.rooms.0 then [Ent(ip, ".")] else []);
    } else {
      var full := if kind == Dir then [Ent(ip, ".")] + [Ent(dp, "..")] else [];
      if !CanLink(ns[dp].ents, op.name, op.rooms.2) {
        CreateFails(ns, at, ip, kind, full);
      } else {
        CreateCore(ns, at, dp, op.name, op.rooms.2, kind, ip);
        at' := at[ip := (dp, Gap(ns[dp].ents, 0))];
        CreateIs(ns, dp, op.name, kind, op.rooms);
      }
    }
  }

  // ---------------------------------------------------------------- directories without links

  lemma LinkBreaks(ns: Nodes, at: Places, op: Op)
    requires Inv(ns, at) && op.Link? && Enabled(ns, op) && AddsToDead(ns, op) && !MeetsFreed(ns, op)
    ensures Apply(ns, op).Done? && !CountsOk(Apply(ns, op).ns)
  {
    var ip, dp := op.ip, op.dp;
    var ns' := Apply(ns, op).ns;
    assert LinkOk(ns, ip);
    Update2(ns, ip, ns'[ip], dp, ns'[dp], ip);
    assert ns' == ns[ip := ns'[ip]][dp := ns'[dp]];
    assert !LinkOk(ns', ip);
  }

  lemma CreateFileBreaks(ns: Nodes, at: Places, op: Op)
    requires Inv(ns, at) && op.Create? && op.kind != Dir && Enabled(ns, op) && AddsToDead(ns, op)
    ensures Apply(ns, op).Done? && !CountsOk(Apply(ns, op).ns)
  {
    var ip, dp := FirstFree(ns, 1), op.dp;
    CreateIs(ns, dp, op.name, op.kind, op.rooms);
    var ns' := Apply(ns, op).ns;
    assert LinkOk(ns, ip) && NodeOk(ns, ip);
    Update2(ns, ip, ns'[ip], dp, ns'[dp], ip);
    assert ns' == ns[ip := ns'[ip]][dp := ns'[dp]];
    assert !LinkOk(ns', ip);
  }

  /** mkdir brings a dead directory back to life, and with it an uncounted "..". */
  lemma CreateDirBreaks(ns: Nodes, at: Places, op: Op)
    requires Inv(ns, at) && op.Create? && op.kind == Dir && Enabled(ns, op) && AddsToDead(ns, op)
    ensures Apply(ns, op).Done? && !CountsOk(Apply(ns, op).ns)
  {
    var ip, dp := FirstFree(ns, 1), op.dp;
    CreateIs(ns, dp, op.name, op.kind, op.rooms);
    var ns' := Apply(ns, op).ns;
    assert NodeOk(ns, dp) && NodeOk(ns, ip);
    var x := ns[dp].ents[1].inum;
    assert LinkOk(ns, x);
    Update2(ns, ip, ns'[ip], dp, ns'[dp], x);
    assert ns' == ns[ip := ns'[ip]][dp := ns'[dp]];
    NewShare(Dir, ip, dp, x);
    LinkedCount(ns[dp].ents, op.name, ip, x);
    CountSome(ns[dp].ents, 1, x);
    assert !LinkOk(ns', x);
  }

  /** Exactly the operations that meet a freed inode panic, and of the others exactly those that enter a
      name in a directory without links upset the counts. */
  lemma KeepsExactly(ns: Nodes, at: Places, op: Op) returns (at': Places)
    requires Inv(ns, at) && Enabled(ns, op)
    ensures Apply(ns, op).Panic? <==> MeetsFreed(ns, op)
    ensures !MeetsFreed(ns, op) ==> (CountsOk(Apply(ns, op).ns) <==> !AddsToDead(ns, op))
    ensures !MeetsFreed(ns, op) && !AddsToDead(ns, op) ==> Inv(Apply(ns, op).ns, at')
  {
    at' := at;
    if MeetsFreed(ns, op) {
      if op.Create? { CreateMeets(ns, at, op); }
    } else if AddsToDead(ns, op) {
      if op.Link? {
        LinkBreaks(ns, at, op);
      } else if op.kind == Dir {
        CreateDirBreaks(ns, at, op);
      } else {
        CreateFileBreaks(ns, at, op);
      }
    } else {
      match op
      case Link(_, _, _, _, _) => LinkKeeps(ns, at, op);
      case Unlink(_, _) => at' := UnlinkKeeps(ns, at, op);
      case Create(_, _, _, _) => at' := CreateKeeps(ns, at, op);
      case Open(i) => RefsKeep(ns, at, i, ns[i].refs + 1);
      case Close(i) => CloseKeeps(ns, at, i);
    }
  }

  lemma CloseKeeps(ns: Nodes, at: Places, i: nat)
    requires Inv(ns, at) && 1 <= i < |ns| && ns[i].refs > 0
    ensures Inv(Put(ns[i := ns[i].(refs := ns[i].refs - 1)], i), at)
  {
    assert NodeOk(ns, i);
    RefsKeep(ns, at, i, ns[i].refs - 1);
    PutKeeps(ns[i := ns[i].(refs := ns[i].refs - 1)], at, i);
  }

  // ---------------------------------------------------------------- whole runs

  /** After mkfs: n inodes, all free but the root directory. */
  ghost predicate Init(ns: Nodes) {
    && |ns| > 1 && ns[ROOT] == Node(Dir, 1, [Ent(ROOT, "."), Ent(ROOT, "..")], 0)
    && forall i :: 0 <= i < |ns| && i != ROOT ==> ns[i] == BLANK
  }

  lemma InitHolds(ns: Nodes)
    requires Init(ns)
    ensures Inv(ns, map[])
  {
    var at: Places := map[];
    forall x: nat | x < |ns| ensures NodeOk(ns, x) {}
    forall d: nat, k: nat | d < |ns| && k < |ns[d].ents| ensures EntOk(ns, at, d, k) {}
    forall d: nat | d < |ns| ensures PlaceOk(ns, at, d) {}
    forall x: nat | 1 <= x < |ns| ensures LinkOk(ns, x) {
      SumOnly(ns, ROOT, x, |ns|);
      if x == ROOT { CountOne(ns[ROOT].ents, 1, x); } else { CountNone(ns[ROOT].ents, x); }
    }
  }

  ghost predicate IsRun(ss: seq<Nodes>, ops: seq<Op>) {
    && |ss| == |ops| + 1 && Init(ss[0])
    && forall n :: 0 <= n < |ops| ==>
         Enabled(ss[n], ops[n]) && !Apply(ss[n], ops[n]).Panic? && ss[n + 1] == Apply(ss[n], ops[n]).ns
  }

  lemma {:induction false} RunHolds(ss: seq<Nodes>, ops: seq<Op>, n: nat) returns (at: Places)
    requires IsRun(ss, ops) && n <= |ops| && forall m :: 0 <= m < n ==> !AddsToDead(ss[m], ops[m])
    ensures Inv(ss[n], at)
  {
    if n == 0 {
      InitHolds(ss[0]);
      at := map[];
    } else {
      var at0 := RunHolds(ss, ops, n - 1);
      at := KeepsExactly(ss[n - 1], at0, ops[n - 1]);
      assert ss[n - 1 + 1] == Apply(ss[n - 1], ops[n - 1]).ns;
    }
  }

  /** In every run, up to the first name entered in a directory without links, each link count is the
      number of entries in live directories; that operation upsets a count; and no operation panics but
      the ones that meet a freed inode. */
  lemma LinkCounts(ss: seq<Nodes>, ops: seq<Op>, n: nat)
    requires IsRun(ss, ops) && n <= |ops| && forall m :: 0 <= m < n ==> !AddsToDead(ss[m], ops[m])
    ensures CountsOk(ss[n])
    ensures n < |ops| ==> (CountsOk(ss[n + 1]) <==> !AddsToDead(ss[n], ops[n]))
    ensures forall op :: Enabled(ss[n], op) ==> (Apply(ss[n], op).Panic? <==> MeetsFreed(ss[n], op))
  {
    var at := RunHolds(ss, ops, n);
    if n < |ops| {
      var at' := KeepsExactly(ss[n], at, ops[n]);
      assert ss[n + 1] == Apply(ss[n], ops[n]).ns;
    }
    forall op | Enabled(ss[n], op) ensures Apply(ss[n], op).Panic? <==> MeetsFreed(ss[n], op) {
      var at' := KeepsExactly(ss[n], at, op);
    }
  }

  // ---------------------------------------------------------------- paths

  datatype Walked = At(i: nat) | Missing | Trapped

  /** namex from inode i: with `parent`, to the directory that the last name is in. Locking a free inode
      panics. */
  function Walk(ns: Nodes, i: nat, path: seq<string>, parent: bool): Walked
    requires i < |ns|
    decreases |path|
  {
    if path == [] then if parent then Missing else At(i)
    else if ns[i].kind == Free then Trapped
    else if ns[i].kind != Dir then Missing
    else if parent && |path| == 1 then At(i)
    else
      var k := Find(ns[i].ents, path[0], 0);
      if k == |ns[i].ents| || ns[i].ents[k].inum >= |ns| then Missing
      else Walk(ns, ns[i].ents[k].inum, path[1..], parent)
  }

  /** The path traps the kernel, or leads to an inode that will trap whoever locks it. */
  predicate LeadsToFreed(ns: Nodes, w: Walked) {
    w.Trapped? || (w.At? && w.i < |ns| && ns[w.i].kind == Free)
  }

  /** The path goes up from an orphan at its name n. */
  predicate LeavesOrphan(ns: Nodes, i: nat, path: seq<string>, n: nat)
    requires i < |ns| && n < |path|
  {
    path[n] == ".." && Walk(ns, i, path[..n], false).At? && Orphan(ns, Walk(ns, i, path[..n], false).i)
  }

  /** Resolving a path meets a freed inode exactly if somewhere it goes up from an orphan. */
  lemma {:induction false} WalkMeets(ns: Nodes, at: Places, i: nat, path: seq<string>, parent: bool)
    requires Inv(ns, at) && 1 <= i < |ns| && ns[i].kind != Free
    ensures LeadsToFreed(ns, Walk(ns, i, path, parent)) <==>
            exists n {:trigger LeavesOrphan(ns, i, path, n)} ::
              0 <= n < |path| && (parent ==> n < |path| - 1) && LeavesOrphan(ns, i, path, n)
    decreases |path|
  {
    if path == [] || ns[i].kind != Dir || (parent && |path| == 1) {
      return;
    }
    EntryToFree(ns, at, i, path[0]);
    var k := Find(ns[i].ents, path[0], 0);
    if k == |ns[i].ents| || ns[i].ents[k].inum >= |ns| {
      return;
    }
    var j := ns[i].ents[k].inum;
    assert LeavesOrphan(ns, i, path, 0) <==> ns[j].kind == Free;
    forall n | 1 <= n < |path| ensures LeavesOrphan(ns, i, path, n) <==> LeavesOrphan(ns, j, path[1..], n - 1) {
      assert path[..n][1..] == path[1..][..n - 1];
    }
    forall m | 0 <= m < |path| - 1 ensures LeavesOrphan(ns, j, path[1..], m) ==> LeavesOrphan(ns, i, path, m + 1) {
      assert LeavesOrphan(ns, i, path, m + 1) <==> LeavesOrphan(ns, j, path[1..], m + 1 - 1);
    }
    if ns[j].kind != Free { WalkMeets(ns, at, j, path[1..], parent); }
  }

  /** In every run, up to the first name entered in a directory without links. */
  lemma RunWalks(ss: seq<Nodes>, ops: seq<Op>, n: nat, i: nat, path: seq<string>, parent: bool)
    requires IsRun(ss, ops) && n <= |ops| && forall m :: 0 <= m < n ==> !AddsToDead(ss[m], ops[m])
    requires 1 <= i < |ss[n]| && ss[n][i].kind != Free
    ensures LeadsToFreed(ss[n], Walk(ss[n], i, path, parent)) <==>
            exists k {:trigger LeavesOrphan(ss[n], i, path, k)} ::
              0 <= k < |path| && (parent ==> k < |path| - 1) && LeavesOrphan(ss[n], i, path, k)
  {
    var at := RunHolds(ss, ops, n);
    WalkMeets(ss[n], at, i, path, parent);
  }

  // ---------------------------------------------------------------- runs that go wrong

  const ROOTNODE := Node(Dir, 1, [Ent(1, "."), Ent(1, "..")], 0)
  const ALL := (true, true, true)

  /** mkdir a; mkdir a/b; chdir a/b; then, from outside, rmdir a/b and rmdir a. */
  const STORY: seq<Op> := [Create(1, "a", Dir, ALL), Create(2, "b", Dir, ALL), Open(3), Unlink(2, "b"), Unlink(1, "a")]

  function Story(n: nat): Nodes {
    var root := [Ent(1, "."), Ent(1, ".."), Ent(2, "a")];
    var a, b := [Ent(2, "."), Ent(1, "..")], [Ent(3, "."), Ent(2, "..")];
    if n == 0 then [BLANK, ROOTNODE, BLANK, BLANK, BLANK]
    else if n == 1 then [BLANK, Node(Dir, 2, root, 0), Node(Dir, 1, a, 0), BLANK, BLANK]
    else if n == 2 then [BLANK, Node(Dir, 2, root, 0), Node(Dir, 2, a + [Ent(3, "b")], 0), Node(Dir, 1, b, 0), BLANK]
    else if n == 3 then [BLANK, Node(Dir, 2, root, 0), Node(Dir, 2, a + [Ent(3, "b")], 0), Node(Dir, 1, b, 1), BLANK]
    else if n == 4 then [BLANK, Node(Dir, 2, root, 0), Node(Dir, 1, a + [Ent(0, "")], 0), Node(Dir, 0, b, 1), BLANK]
    else [BLANK, Node(Dir, 1, [Ent(1, "."), Ent(1, ".."), Ent(0, "")], 0), BLANK, Node(Dir, 0, b, 1), BLANK]
  }

  /** A directory with two entries gets a third. */
  lemma MakeStep(ns: Nodes, d: nat, name: string, ip: nat)
    requires 1 <= d < |ns| && ns[d].kind == Dir && |ns[d].ents| == 2 && FirstFree(ns, 1) == ip < |ns|
    requires forall k :: 0 <= k < 2 ==> ns[d].ents[k].inum != 0 && ns[d].ents[k].name != name
    ensures Linked(ns[d].ents, name, ip) == ns[d].ents + [Ent(ip, name)] && CanLink(ns[d].ents, name, true)
    ensures DoCreate(ns, d, name, Dir, ALL) == Done(Put(Created(ns, d, name, Dir, ip), d))
  {
    CreateIs(ns, d, name, Dir, ALL);
  }

  lemma Mkdirs(n: nat)
    requires n < 2
    ensures Apply(Story(n), STORY[n]) == Done(Story(n + 1))
  {
    var ns := Story(n);
    if n == 0 {
      MakeStep(ns, 1, "a", 2);
      assert Linked(ns[1].ents, "a", 2) == Story(1)[1].ents;
      assert Created(ns, 1, "a", Dir, 2) == Story(1);
    } else {
      assert FirstFree(ns, 3) == 3;
      MakeStep(ns, 2, "b", 3);
      assert Linked(ns[2].ents, "b", 3) == Story(2)[2].ents;
      assert Created(ns, 2, "b", Dir, 3) == Story(2);
    }
  }

  /** Removing the empty directory ip, which is the third entry of d. */
  lemma RemoveStep(ns: Nodes, d: nat, name: string, ip: nat)
    requires 1 <= d < |ns| && |ns[d].ents| == 3 && ns[d].ents[2] == Ent(ip, name) && 1 <= ip < |ns| && ip != d
    requires ns[d].ents[0].name != name && ns[d].ents[1].name != name && name != "." && name != ".."
    requires ns[ip].kind == Dir && |ns[ip].ents| <= 3 && IsEmpty(ns[ip].ents) && ns[ip].nlink == 1 && ns[d].nlink == 2
    ensures DoUnlink(ns, d, name) == Done(Put(RemovedDir(ns, d, 2, ip), ip))
  {
    assert Find(ns[d].ents, name, 2) == 2;
  }

  lemma Rmdirs(n: nat)
    requires 3 <= n < 5
    ensures Apply(Story(n), STORY[n]) == Done(Story(n + 1))
  {
    var ns := Story(n);
    if n == 3 {
      RemoveStep(ns, 2, "b", 3);
      assert ns[2].ents[2 := Ent(0, "")] == Story(4)[2].ents;
      assert Put(RemovedDir(ns, 2, 2, 3), 3) == Story(4);
    } else {
      RemoveStep(ns, 1, "a", 2);
      assert ns[1].ents[2 := Ent(0, "")] == Story(5)[1].ents;
      assert Put(RemovedDir(ns, 1, 2, 2), 2) == Story(5);
    }
  }

  lemma StoryStep(n: nat)
    requires n < 5
    ensures Enabled(Story(n), STORY[n]) && Apply(Story(n), STORY[n]) == Done(Story(n + 1))
  {
    if n < 2 {
      Mkdirs(n);
    } else if n == 2 {
      assert Story(2)[3 := Story(2)[3].(refs := 1)] == Story(3);
    } else {
      Rmdirs(n);
    }
  }

  /** Every prefix of the story is a run in which all is well. */
  lemma {:induction false} StoryRun(n: nat) returns (ss: seq<Nodes>, at: Places)
    requires n <= 5
    ensures IsRun(ss, STORY[..n]) && ss[n] == Story(n) && Inv(Story(n), at)
  {
    if n == 0 {
      InitHolds(Story(0));
      ss, at := [Story(0)], map[];
    } else {
      ss, at := StoryRun(n - 1);
      StoryStep(n - 1);
      MoreRun(ss, STORY[..n - 1], STORY[n - 1]);
      assert STORY[..n] == STORY[..n - 1] + [STORY[n - 1]];
      ss := ss + [Story(n)];
      at := KeepsExactly(Story(n - 1), at, STORY[n - 1]);
    }
  }

  lemma MoreRun(ss: seq<Nodes>, ops: seq<Op>, op: Op)
    requires IsRun(ss, ops) && Enabled(ss[|ops|], op) && !Apply(ss[|ops|], op).Panic?
    ensures IsRun(ss + [Apply(ss[|ops|], op).ns], ops + [op])
  {
  }

  /** The counts do go wrong: after ordinary calls, a file made in the removed directory that a process
      is still in has a link count that no entry accounts for. */
  lemma DeadDirectoryRun() returns (ss: seq<Nodes>, ops: seq<Op>)
    ensures IsRun(ss, ops) && |ops| == 5 && CountsOk(ss[4]) && !CountsOk(ss[5])
  {
    var at;
    ss, at := StoryRun(4);
    var op, ns := Create(3, "f", File, ALL), Story(4);
    assert Find(ns[3].ents, "f", 0) == 2 && Gap(ns[3].ents, 0) == 2 && FirstFree(ns, 1) == 4;
    var _ := KeepsExactly(ns, at, op);
    MoreRun(ss, STORY[..4], op);
    ss, ops := ss + [Apply(ns, op).ns], STORY[..4] + [op];
  }

  /** And the kernel can panic: after ordinary calls, open("..", O_CREATE) in the removed directory locks
      its parent, which has been freed. */
  lemma FreedParentRun() returns (ss: seq<Nodes>, ops: seq<Op>, op: Op)
    ensures IsRun(ss, ops) && CountsOk(ss[|ops|]) && Enabled(ss[|ops|], op) && Apply(ss[|ops|], op).Panic?
  {
    var at;
    ss, at := StoryRun(5);
    ops, op := STORY[..5], Create(3, "..", File, ALL);
    var _ := KeepsExactly(Story(5), at, op);
  }

  // ---------------------------------------------------------------- the system calls, step by step

  class Namespace {
    var ns: Nodes

    constructor (ns: Nodes)
      ensures this.ns == ns
    {
      this.ns := ns;
    }

    method Dirlookup(dp: nat, name: string) returns (k: nat)
      requires dp < |ns|
      ensures k == Find(ns[dp].ents, name, 0)
    {
      k := 0;
      while k < |ns[dp].ents|
        invariant k <= |ns[dp].ents| && Find(ns[dp].ents, name, 0) == Find(ns[dp].ents, name, k)
      {
        if ns[dp].ents[k].inum != 0 && ns[dp].ents[k].name == name {
          return;
        }
        k := k + 1;
      }
    }

    method Dirlink(dp: nat, name: string, inum: nat, room: bool) returns (ok: bool)
      requires dp < |ns|
      modifies this
      ensures ok == CanLink(old(ns)[dp].ents, name, room)
      ensures ns == if ok then SetEnts(old(ns), dp, Linked(old(ns)[dp].ents, name, inum)) else old(ns)
    {
      var at := Dirlookup(dp, name);
      if at < |ns[dp].ents| {
        return false;
      }
      var k: nat := 0;
      while k < |ns[dp].ents|
        invariant k <= |ns[dp].ents| && ns == old(ns) && Gap(ns[dp].ents, 0) == Gap(ns[dp].ents, k)
      {
        if ns[dp].ents[k].inum == 0 {
          break;
        }
        k := k + 1;
      }
      if k < |ns[dp].ents| {
        ns := SetEnts(ns, dp, ns[dp].ents[k := Ent(inum, name)]);
      } else if room {
        ns := SetEnts(ns, dp, ns[dp].ents + [Ent(inum, name)]);
      } else {
        return false;
      }
      return true;
    }

    method IsDirEmpty(dp: nat) returns (empty: bool)
      requires dp < |ns|
      ensures empty == IsEmpty(ns[dp].ents)
    {
      var k := 2;
      while k < |ns[dp].ents|
        invariant 2 <= k && forall j :: 2 <= j < k && j < |ns[dp].ents| ==> ns[dp].ents[j].inum == 0
      {
        if ns[dp].ents[k].inum != 0 {
          return false;
        }
        k := k + 1;
      }
      return true;
    }

    method Iput(i: nat)
      requires i < |ns|
      modifies this
      ensures ns == Put(old(ns), i)
    {
      if ns[i].refs == 0 && ns[i].nlink == 0 {
        ns := ns[i := BLANK];
      }
    }

    /** namex from the inode `start`. */
    method Namex(start: nat, path: seq<string>, parent: bool) returns (w: Walked)
      requires start < |ns|
      ensures w == Walk(ns, start, path, parent)
    {
      var i: nat, p := start, path;
      while p != []
        invariant i < |ns| && Walk(ns, start, path, parent) == Walk(ns, i, p, parent)
        decreases |p|
      {
        if ns[i].kind == Free {
          return Trapped;
        }
        if ns[i].kind != Dir {
          return Missing;
        }
        if parent && |p| == 1 {
          return At(i);
        }
        var k := Dirlookup(i, p[0]);
        if k == |ns[i].ents| || ns[i].ents[k].inum >= |ns| {
          return Missing;
        }
        i, p := ns[i].ents[k].inum, p[1..];
      }
      return if parent then Missing else At(i);
    }

    method SysLink(ip: nat, dp: nat, name: string, found: bool, room: bool) returns (r: int, panicked: bool)
      requires ip < |ns| && dp < |ns|
      modifies this
      ensures var want := DoLink(old(ns), ip, dp, name, found, room);
              panicked == want.Panic? && (!panicked ==> ns == want.ns && r == if want.Done? then 0 else -1)
    {
      r, panicked := -1, false;
      if ns[ip].kind == Free {
        panicked := true;
        return;
      }
      if ns[ip].kind == Dir {
        Iput(ip);
        return;
      }
      ns := AddLinks(ns, ip, 1);
      if found {
        var ok := Dirlink(dp, name, ip, room);
        Iput(dp);
        if ok {
          Iput(ip);
          r := 0;
          return;
        }
      }
      ns := AddLinks(ns, ip, -1);
      Iput(ip);
    }

    method SysUnlink(dp: nat, name: string) returns (r: int, panicked: bool)
      requires dp < |ns|
      modifies this
      ensures var want := DoUnlink(old(ns), dp, name);
              panicked == want.Panic? && (!panicked ==> ns == want.ns && r == if want.Done? then 0 else -1)
    {
      r, panicked := -1, false;
      if name == "." || name == ".." {
        Iput(dp);
        return;
      }
      var k := Dirlookup(dp, name);
      if k == |ns[dp].ents| || ns[dp].ents[k].inum >= |ns| {
        Iput(dp);
        return;
      }
      var ip := ns[dp].ents[k].inum;
      if ns[ip].nlink < 1 {
        panicked := true;
        return;
      }
      if ns[ip].kind == Dir {
        var empty := IsDirEmpty(ip);
        if !empty {
          Iput(ip);
          Iput(dp);
          return;
        }
      }
      ns := SetEnts(ns, dp, ns[dp].ents[k := Ent(0, "")]);
      if ns[ip].kind == Dir {
        ns := AddLinks(ns, dp, -1);
      }
      Iput(dp);
      ns := AddLinks(ns, ip, -1);
      Iput(ip);
      r := 0;
    }

    method Ialloc(kind: Kind) returns (i: nat)
      requires |ns| > 0
      modifies this
      ensures i == FirstFree(old(ns), 1) && ns == if i < |old(ns)| then old(ns)[i := Node(kind, 0, [], 0)] else old(ns)
    {
      i := 1;
      while i < |ns|
        invariant 1 <= i <= |ns| && ns == old(ns) && FirstFree(ns, 1) == FirstFree(ns, i)
      {
        if ns[i].kind == Free {
          ns := ns[i := Node(kind, 0, [], 0)];
          return;
        }
        i := i + 1;
      }
    }

    /** The part of create that makes "." and "..". */
    method DotEntries(ip: nat, dp: nat, room: (bool, bool, bool)) returns (ok: bool)
      requires 0 < ip < |ns| && ns[ip].ents == []
      modifies this
      ensures ok == (room.0 && room.1)
      ensures var made := if room.0 then [Ent(ip, ".")] else [];
              ns == SetEnts(old(ns), ip, if room.0 && room.1 then made + [Ent(dp, "..")] else made)
    {
      ok := Dirlink(ip, ".", ip, room.0);
      if !ok {
        assert SetEnts(ns, ip, []) == ns;
        return;
      }
      assert ns[ip].ents == [Ent(ip, ".")];
      ok := Dirlink(ip, "..", dp, room.1);
    }

    method Create(dp: nat, name: string, kind: Kind, room: (bool, bool, bool)) returns (ok: bool, panicked: bool)
      requires dp < |ns| && ns[dp].kind == Dir
      modifies this
      ensures var want := DoCreate(old(ns), dp, name, kind, room);
              panicked == want.Panic? && (!panicked ==> ns == want.ns && ok == want.Done?)
    {
      ok, panicked := false, false;
      var k := Dirlookup(dp, name);
      if k < |ns[dp].ents| {
        var ip := ns[dp].ents[k].inum;
        if ip < |ns| && ns[ip].kind == Free {
          panicked := true;
          return;
        }
        ok := kind == File && ip < |ns| && (ns[ip].kind == File || ns[ip].kind == Device);
        Iput(dp);
        if !ok && ip < |ns| {
          Iput(ip);
        }
        return;
      }
      var ip := Ialloc(kind);
      if ip == |ns| {
        Iput(dp);
        return;
      }
      ns := ns[ip := ns[ip].(nlink := 1)];
      assert ns == old(ns)[ip := Node(kind, 1, [], 0)];
      ok := Enter(dp, ip, name, kind, room);
    }

    /** create after ialloc. */
    method Enter(dp: nat, ip: nat, name: string, kind: Kind, room: (bool, bool, bool)) returns (ok: bool)
      requires dp < |ns| && 0 < ip < |ns| && ip != dp && ns[ip] == Node(kind, 1, [], 0)
      modifies this
      ensures var want := DoEnter(old(ns), dp, ip, name, kind, room); !want.Panic? && ns == want.ns && ok == want.Done?
    {
      ok := true;
      if kind == Dir {
        ok := DotEntries(ip, dp, room);
      } else {
        assert SetEnts(ns, ip, []) == ns;
      }
      if ok {
        ok := Dirlink(dp, name, ip, room.2);
      }
      if !ok {
        ns := ns[ip := ns[ip].(nlink := 0)];
        Iput(ip);
        Iput(dp);
        return;
      }
      if kind == Dir {
        ns := AddLinks(ns, dp, 1);
      }
      Iput(dp);
    }
  }
}

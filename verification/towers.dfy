/**
 The shape of a PID skip list: which nodes exist, how tall each tower is, where every forward
 pointer leads, and at which levels a node is currently linked.

 The shape is the common ground of three views of the same list: the heap objects of
 PidSkipList and RbSkipList, and the step machine of ConcurrentList in which lock-free
 readers run between two pointer writes of the one writer.  Each function below that changes
 a shape is one shared write of the writer.
 */
module Towers {
  import opened Options

  const PID_SL_MAX_LEVEL: int := 16
  const INT_MIN: int := -0x8000_0000
  const INT_MAX: int := 0x7FFF_FFFF

  /** A struct pid, known by its identity. */
  type Pid = nat

  /** Numbers and what they stand for; None is a reservation. */
  type Entries = map<int, Option<Pid>>

  /**
   One node.  `fwd` is the array of forward pointers, its length the height of the tower.
   `lo` and `hi` are bookkeeping: the node is linked exactly at the levels lo <= i < hi, so
   both linking and unlinking, which go from level 0 upwards, move one of them by one.
   */
  datatype Tower<Id> = Tower(key: int, pid: Option<Pid>, fwd: seq<Option<Id>>, lo: nat, hi: nat)

  datatype Shape<Id> = Shape(header: Id, level: int, nodes: map<Id, Tower<Id>>)

  /** The key of the header, the least there is. */
  ghost function Least<Id>(s: Shape<Id>): int
    requires s.header in s.nodes
  {
    s.nodes[s.header].key
  }

  /** The largest key there is room for: numbers are ints, and Ranks gives each of them two keys. */
  const KEY_MAX: int := 2 * INT_MAX + 1

  /** Position in the list order; the header comes before every key, its own included. */
  ghost function Pos<Id>(s: Shape<Id>, n: Id): int
    requires n in s.nodes
  {
    if n == s.header then s.nodes[n].key - 1 else s.nodes[n].key
  }

  ghost predicate Linked<Id>(s: Shape<Id>, n: Id, i: int) {
    n in s.nodes && s.nodes[n].lo <= i < s.nodes[n].hi
  }

  /** Still reachable at some level. */
  ghost predicate Active<Id>(s: Shape<Id>, n: Id) {
    n in s.nodes && s.nodes[n].lo < s.nodes[n].hi
  }

  /** `r` is the first node after position `p` in the chain of level `i`. */
  ghost predicate IsSucc<Id>(s: Shape<Id>, p: int, i: int, r: Option<Id>) {
    match r
    case None => forall m | m in s.nodes && Linked(s, m, i) :: Pos(s, m) <= p
    case Some(y) =>
      && Linked(s, y, i) && p < Pos(s, y)
      && forall m | m in s.nodes && Linked(s, m, i) :: p < Pos(s, m) ==> Pos(s, y) <= Pos(s, m)
  }

  /** `p` is the last node before `key` in the chain of level `i`. */
  ghost predicate IsPred<Id>(s: Shape<Id>, key: int, i: int, p: Id) {
    && Linked(s, p, i) && Pos(s, p) < key
    && forall m | m in s.nodes && Linked(s, m, i) :: Pos(s, m) < key ==> Pos(s, m) <= Pos(s, p)
  }

  ghost predicate WellSized<Id>(s: Shape<Id>) {
    && s.header in s.nodes
    && s.nodes[s.header].lo == 0
    && s.nodes[s.header].hi == |s.nodes[s.header].fwd| == PID_SL_MAX_LEVEL
    && s.nodes[s.header].pid == None
    && 1 <= s.level <= PID_SL_MAX_LEVEL
    && forall n | n in s.nodes ::
         && s.nodes[n].lo <= s.nodes[n].hi <= |s.nodes[n].fwd| <= PID_SL_MAX_LEVEL
         && 1 <= |s.nodes[n].fwd| && Least(s) <= s.nodes[n].key <= KEY_MAX
  }

  /** No two linked nodes share a key. */
  ghost predicate UniqueKeys<Id>(s: Shape<Id>) {
    forall n, m | n in s.nodes && m in s.nodes && Active(s, n) && Active(s, m) ::
      Pos(s, n) == Pos(s, m) ==> n == m
  }

  /** Every pointer of a node not yet fully unlinked leads to the next node of that level. */
  ghost predicate Chained<Id>(s: Shape<Id>)
    requires WellSized(s)
  {
    forall n, i | n in s.nodes && Active(s, n) && 0 <= i < s.nodes[n].hi ::
      IsSucc(s, Pos(s, n), i, s.nodes[n].fwd[i])
  }

  /** Nothing but the header is linked at or above the current level. */
  ghost predicate Capped<Id>(s: Shape<Id>) {
    forall n | n in s.nodes && Active(s, n) && n != s.header :: s.nodes[n].hi <= s.level
  }

  ghost predicate Inv<Id>(s: Shape<Id>) {
    WellSized(s) && UniqueKeys(s) && Chained(s) && Capped(s)
  }

  /** Every linked node other than `x` is linked at all of its levels. */
  ghost predicate Settled<Id>(s: Shape<Id>, x: Option<Id>) {
    forall n | n in s.nodes && Active(s, n) && Some(n) != x ::
      s.nodes[n].lo == 0 && s.nodes[n].hi == |s.nodes[n].fwd|
  }

  /** No insertion and no removal is half done. */
  ghost predicate Quiet<Id>(s: Shape<Id>) {
    Settled(s, None)
  }

  /** The number-to-pid map the list stands for; a reserved number maps to None, that is NULL. */
  ghost function Contents<Id>(s: Shape<Id>): (m: map<int, Option<Pid>>)
    requires UniqueKeys(s)
  {
    map n | n in s.nodes && Linked(s, n, 0) && n != s.header :: s.nodes[n].key := s.nodes[n].pid
  }

  /** What a lookup is meant to return: an absent and a reserved number both give NULL. */
  ghost function ValueAt(m: map<int, Option<Pid>>, key: int): Option<Pid> {
    if key in m then m[key] else None
  }

  // ---------------------------------------------------------------- the writer's shared writes

  ghost function SetPid<Id>(s: Shape<Id>, n: Id, pid: Option<Pid>): Shape<Id>
    requires n in s.nodes
  {
    s.(nodes := s.nodes[n := s.nodes[n].(pid := pid)])
  }

  ghost function SetLevel<Id>(s: Shape<Id>, level: int): Shape<Id> {
    s.(level := level)
  }

  /** A freshly allocated node: all pointers NULL, linked nowhere. */
  ghost function AddTower<Id>(s: Shape<Id>, x: Id, key: int, pid: Option<Pid>, height: nat): Shape<Id> {
    s.(nodes := s.nodes[x := Tower(key, pid, seq(height, _ => None), 0, 0)])
  }

  /** x takes over the pointer of its predecessor at level i, where it is not linked yet. */
  ghost function CopyForward<Id>(s: Shape<Id>, p: Id, x: Id, i: nat): Shape<Id>
    requires p in s.nodes && x in s.nodes && i < |s.nodes[p].fwd| && i < |s.nodes[x].fwd|
  {
    s.(nodes := s.nodes[x := s.nodes[x].(fwd := s.nodes[x].fwd[i := s.nodes[p].fwd[i]])])
  }

  /** The predecessor points to x: from here on x is linked at level i. */
  ghost function Link<Id>(s: Shape<Id>, p: Id, x: Id, i: nat): Shape<Id>
    requires p in s.nodes && x in s.nodes && p != x && i < |s.nodes[p].fwd|
  {
    s.(nodes := s.nodes[p := s.nodes[p].(fwd := s.nodes[p].fwd[i := Some(x)])]
                       [x := s.nodes[x].(hi := i + 1)])
  }

  /** The predecessor points past x: from here on x is unlinked at level i. */
  ghost function Unlink<Id>(s: Shape<Id>, p: Id, x: Id, i: nat): Shape<Id>
    requires p in s.nodes && x in s.nodes && p != x && i < |s.nodes[p].fwd| && i < |s.nodes[x].fwd|
  {
    s.(nodes := s.nodes[p := s.nodes[p].(fwd := s.nodes[p].fwd[i := s.nodes[x].fwd[i]])]
                       [x := s.nodes[x].(lo := i + 1)])
  }

  // ---------------------------------------------------------------- every write keeps the invariant

  /** The two shapes have the same nodes at the same places, linked at the same levels. */
  ghost predicate SameLinks<Id>(s: Shape<Id>, t: Shape<Id>) {
    && s.header == t.header && s.nodes.Keys == t.nodes.Keys
    && forall n | n in s.nodes ::
         && s.nodes[n].key == t.nodes[n].key
         && s.nodes[n].lo == t.nodes[n].lo && s.nodes[n].hi == t.nodes[n].hi
  }

  lemma SameSucc<Id>(s: Shape<Id>, t: Shape<Id>, p: int, i: int, r: Option<Id>)
    requires SameLinks(s, t) && IsSucc(s, p, i, r)
    ensures IsSucc(t, p, i, r)
  {
    assert forall m | m in t.nodes :: Linked(t, m, i) == Linked(s, m, i) && Pos(t, m) == Pos(s, m);
  }

  lemma SetPidInv<Id>(s: Shape<Id>, n: Id, pid: Option<Pid>)
    requires Inv(s) && n in s.nodes && n != s.header
    ensures Inv(SetPid(s, n, pid))
  {
    var t := SetPid(s, n, pid);
    assert forall m | m in t.nodes && Active(t, m) :: Active(s, m) && Pos(t, m) == Pos(s, m);
    forall m, i | m in t.nodes && Active(t, m) && 0 <= i < t.nodes[m].hi
      ensures IsSucc(t, Pos(t, m), i, t.nodes[m].fwd[i])
    {
      SameSucc(s, t, Pos(s, m), i, s.nodes[m].fwd[i]);
    }
  }

  /** Node `n` is an entry of the list under key `k`. */
  ghost predicate Holds<Id>(s: Shape<Id>, n: Id, k: int) {
    n in s.nodes && Linked(s, n, 0) && n != s.header && s.nodes[n].key == k
  }

  lemma ContentsAt<Id>(s: Shape<Id>, n: Id)
    requires UniqueKeys(s) && n in s.nodes && Linked(s, n, 0) && n != s.header
    ensures s.nodes[n].key in Contents(s) && Contents(s)[s.nodes[n].key] == s.nodes[n].pid
  {
  }

  lemma ContentsHolder<Id>(s: Shape<Id>, k: int) returns (n: Id)
    requires UniqueKeys(s) && k in Contents(s)
    ensures Holds(s, n, k) && Contents(s)[k] == s.nodes[n].pid
  {
    n :| n in s.nodes && Linked(s, n, 0) && n != s.header && s.nodes[n].key == k;
  }

  /** A map that lists exactly the entries is the contents. */
  lemma ContentsIs<Id>(s: Shape<Id>, c: map<int, Option<Pid>>)
    requires UniqueKeys(s)
    requires forall n | n in s.nodes && Linked(s, n, 0) && n != s.header ::
               s.nodes[n].key in c && c[s.nodes[n].key] == s.nodes[n].pid
    requires forall k | k in c :: exists n | n in s.nodes :: Holds(s, n, k)
    ensures Contents(s) == c
  {
    forall k | k in Contents(s)
      ensures k in c && c[k] == Contents(s)[k]
    {
      var n := ContentsHolder(s, k);
    }
    forall k | k in c
      ensures k in Contents(s)
    {
      var n :| n in s.nodes && Holds(s, n, k);
      ContentsAt(s, n);
    }
  }

  lemma SetPidContents<Id>(s: Shape<Id>, n: Id, pid: Option<Pid>)
    requires Inv(s) && n in s.nodes && n != s.header && Inv(SetPid(s, n, pid))
    ensures Contents(SetPid(s, n, pid)) ==
            if Linked(s, n, 0) then Contents(s)[s.nodes[n].key := pid] else Contents(s)
  {
    var t := SetPid(s, n, pid);
    var c := if Linked(s, n, 0) then Contents(s)[s.nodes[n].key := pid] else Contents(s);
    forall m | m in t.nodes && Linked(t, m, 0) && m != t.header
      ensures t.nodes[m].key in c && c[t.nodes[m].key] == t.nodes[m].pid
    {
      assert Linked(s, m, 0) && (Linked(s, n, 0) ==> Active(s, n)) && Active(s, m);
      ContentsAt(s, m);
    }
    forall k | k in c
      ensures exists m | m in t.nodes :: Holds(t, m, k)
    {
      var m := n;
      if k in Contents(s) { m := ContentsHolder(s, k); }
      assert Holds(t, m, k);
    }
    ContentsIs(t, c);
  }

  lemma SetLevelInv<Id>(s: Shape<Id>, level: int)
    requires Inv(s) && 1 <= level <= PID_SL_MAX_LEVEL
    requires forall n | n in s.nodes && Active(s, n) && n != s.header :: s.nodes[n].hi <= level
    ensures Inv(SetLevel(s, level)) && Contents(SetLevel(s, level)) == Contents(s)
  {
    var t := SetLevel(s, level);
    assert forall m, i | m in t.nodes :: Linked(t, m, i) == Linked(s, m, i);
    assert forall m | m in t.nodes && Active(t, m) :: Active(s, m) && Pos(t, m) == Pos(s, m);
    forall m, i | m in t.nodes && Active(t, m) && 0 <= i < t.nodes[m].hi
      ensures IsSucc(t, Pos(t, m), i, t.nodes[m].fwd[i])
    {
      SameSucc(s, t, Pos(s, m), i, s.nodes[m].fwd[i]);
    }
    assert Contents(t) == Contents(s);
  }

  /** The pointers of a node that is linked nowhere are nobody's business yet. */
  lemma IdleTowerInv<Id>(s: Shape<Id>, x: Id, r: Tower<Id>)
    requires Inv(s) && x != s.header && !Active(s, x)
    requires r.lo == r.hi <= |r.fwd| && 1 <= |r.fwd| <= PID_SL_MAX_LEVEL && Least(s) <= r.key <= KEY_MAX
    ensures var t := s.(nodes := s.nodes[x := r]); Inv(t) && Contents(t) == Contents(s)
  {
    var t := s.(nodes := s.nodes[x := r]);
    assert forall m, i | m in t.nodes :: Linked(t, m, i) == Linked(s, m, i);
    assert forall m | m in t.nodes && Active(t, m) :: Active(s, m) && Pos(t, m) == Pos(s, m);
    forall m, i | m in t.nodes && Active(t, m) && 0 <= i < t.nodes[m].hi
      ensures IsSucc(t, Pos(t, m), i, t.nodes[m].fwd[i])
    {
      OthersSucc(s, x, r, Pos(s, m), i, s.nodes[m].fwd[i]);
    }
    forall m | m in t.nodes && Linked(t, m, 0) && m != t.header
      ensures t.nodes[m].key in Contents(s) && Contents(s)[t.nodes[m].key] == t.nodes[m].pid
    {
      ContentsAt(s, m);
    }
    forall k | k in Contents(s)
      ensures exists m | m in t.nodes :: Holds(t, m, k)
    {
      var m := ContentsHolder(s, k);
      assert Holds(t, m, k);
    }
    ContentsIs(t, Contents(s));
  }

  lemma OthersSucc<Id>(s: Shape<Id>, x: Id, r: Tower<Id>, p: int, i: int, y: Option<Id>)
    requires x != s.header && !Active(s, x) && r.lo == r.hi && IsSucc(s, p, i, y)
    ensures IsSucc(s.(nodes := s.nodes[x := r]), p, i, y)
  {
    var t := s.(nodes := s.nodes[x := r]);
    assert forall m | m in t.nodes && Linked(t, m, i) :: Linked(s, m, i) && Pos(t, m) == Pos(s, m);
  }

  /** What holds just before the write that links x at level i. */
  ghost predicate CanLink<Id>(s: Shape<Id>, p: Id, x: Id, i: nat) {
    && Inv(s) && Settled(s, Some(x))
    && x in s.nodes && x != s.header && s.nodes[x].lo == 0
    && s.nodes[x].hi == i < |s.nodes[x].fwd| && i < s.level
    && IsPred(s, s.nodes[x].key, i, p) && s.nodes[x].fwd[i] == s.nodes[p].fwd[i]
    && (i == 0 ==> forall m | m in s.nodes && Active(s, m) :: Pos(s, m) != s.nodes[x].key)
  }

  /** Chains are unaffected where neither places nor links change. */
  ghost predicate SameChain<Id>(s: Shape<Id>, t: Shape<Id>, i: int) {
    && s.nodes.Keys == t.nodes.Keys
    && forall m | m in t.nodes :: Pos(t, m) == Pos(s, m) && Linked(t, m, i) == Linked(s, m, i)
  }

  lemma SameChainSucc<Id>(s: Shape<Id>, t: Shape<Id>, p: int, i: int, r: Option<Id>)
    requires SameChain(s, t, i) && IsSucc(s, p, i, r)
    ensures IsSucc(t, p, i, r)
  {
    match r
    case None =>
    case Some(y) => assert y in t.nodes;
  }

  /** The chain of level i gains exactly node x. */
  ghost predicate Gains<Id>(s: Shape<Id>, t: Shape<Id>, i: int, x: Id) {
    && s.nodes.Keys == t.nodes.Keys && x in t.nodes
    && forall m | m in t.nodes ::
         Pos(t, m) == Pos(s, m) && Linked(t, m, i) == (Linked(s, m, i) || m == x)
  }

  /** The node that x was put behind now leads to x, and x to the old successor. */
  lemma GainSucc<Id>(s: Shape<Id>, t: Shape<Id>, i: int, x: Id, p: Id, r: Option<Id>)
    requires Gains(s, t, i, x) && p in s.nodes && IsPred(s, Pos(s, x), i, p) && IsSucc(s, Pos(s, p), i, r)
    requires forall m | m in s.nodes && Linked(s, m, i) :: Pos(s, m) != Pos(s, x)
    ensures IsSucc(t, Pos(t, p), i, Some(x)) && IsSucc(t, Pos(t, x), i, r)
  {
  }

  /** Every other node keeps its successor. */
  lemma GainOthers<Id>(s: Shape<Id>, t: Shape<Id>, i: int, x: Id, p: Id, n: Id, r: Option<Id>)
    requires Gains(s, t, i, x) && p in s.nodes && IsPred(s, Pos(s, x), i, p)
    requires n in s.nodes && Linked(s, n, i) && Pos(s, n) != Pos(s, p) && IsSucc(s, Pos(s, n), i, r)
    ensures IsSucc(t, Pos(t, n), i, r)
  {
  }

  /** The chain of level i loses exactly node x. */
  ghost predicate Loses<Id>(s: Shape<Id>, t: Shape<Id>, i: int, x: Id) {
    && s.nodes.Keys == t.nodes.Keys && x in t.nodes
    && forall m | m in t.nodes ::
         Pos(t, m) == Pos(s, m) && Linked(t, m, i) == (Linked(s, m, i) && m != x)
  }

  /** The predecessor of x, and x itself, lead to what followed x. */
  lemma LossSucc<Id>(s: Shape<Id>, t: Shape<Id>, i: int, x: Id, p: Id, r: Option<Id>)
    requires Loses(s, t, i, x) && Linked(s, x, i) && p in s.nodes && IsPred(s, Pos(s, x), i, p)
    requires forall m | m in s.nodes && Linked(s, m, i) :: Pos(s, m) == Pos(s, x) ==> m == x
    requires IsSucc(s, Pos(s, x), i, r)
    ensures IsSucc(t, Pos(t, p), i, r) && IsSucc(t, Pos(t, x), i, r)
  {
  }

  lemma LossOthers<Id>(s: Shape<Id>, t: Shape<Id>, i: int, x: Id, p: Id, n: Id, r: Option<Id>)
    requires Loses(s, t, i, x) && Linked(s, x, i) && p in s.nodes && IsPred(s, Pos(s, x), i, p)
    requires n in s.nodes && n != x && Linked(s, n, i) && Pos(s, n) != Pos(s, p) && Pos(s, n) != Pos(s, x)
    requires IsSucc(s, Pos(s, n), i, r)
    ensures IsSucc(t, Pos(t, n), i, r)
  {
  }

  lemma LinkEffect<Id>(s: Shape<Id>, p: Id, x: Id, i: nat, j: nat)
    requires p in s.nodes && x in s.nodes && p != x && i < |s.nodes[p].fwd|
    requires s.nodes[x].lo == 0 && s.nodes[x].hi == i
    ensures var t := Link(s, p, x, i);
            if j == i then Gains(s, t, i, x) else SameChain(s, t, j)
  {
  }

  lemma UniqueAt<Id>(s: Shape<Id>, n: Id, m: Id)
    requires UniqueKeys(s) && Active(s, n) && Active(s, m) && Pos(s, n) == Pos(s, m)
    ensures n == m
  {
  }

  lemma SuccAt<Id>(s: Shape<Id>, n: Id, i: nat)
    requires WellSized(s) && Chained(s) && Active(s, n) && i < s.nodes[n].hi
    ensures IsSucc(s, Pos(s, n), i, s.nodes[n].fwd[i])
  {
  }

  lemma NoTwin<Id>(s: Shape<Id>, p: Id, x: Id, i: nat, m: Id)
    requires CanLink(s, p, x, i) && m in s.nodes && Linked(s, m, i)
    ensures Pos(s, m) != Pos(s, x)
  {
    assert Active(s, m);
    if i > 0 && Pos(s, m) == Pos(s, x) {
      UniqueAt(s, m, x);
    }
  }

  lemma LinkSucc<Id>(s: Shape<Id>, p: Id, x: Id, i: nat, n: Id, j: nat)
    requires CanLink(s, p, x, i) && p != x && n in s.nodes && (Active(s, n) || n == x)
    requires j < s.nodes[n].hi || (n == x && j == i)
    ensures var t := Link(s, p, x, i);
            j < |t.nodes[n].fwd| && IsSucc(t, Pos(t, n), j, t.nodes[n].fwd[j])
  {
    var t := Link(s, p, x, i);
    LinkEffect(s, p, x, i, j);
    if j != i {
      SuccAt(s, n, j);
      SameChainSucc(s, t, Pos(s, n), j, s.nodes[n].fwd[j]);
    } else if n == p || n == x {
      SuccAt(s, p, i);
      forall m | m in s.nodes && Linked(s, m, i)
        ensures Pos(s, m) != Pos(s, x)
      {
        NoTwin(s, p, x, i, m);
      }
      GainSucc(s, t, i, x, p, s.nodes[p].fwd[i]);
    } else {
      SuccAt(s, n, i);
      if Pos(s, n) == Pos(s, p) {
        UniqueAt(s, n, p);
      }
      GainOthers(s, t, i, x, p, n, s.nodes[n].fwd[i]);
    }
  }

  lemma LinkUnique<Id>(s: Shape<Id>, p: Id, x: Id, i: nat)
    requires CanLink(s, p, x, i) && p != x
    ensures var t := Link(s, p, x, i);
            WellSized(t) && UniqueKeys(t) && Capped(t) && Settled(t, Some(x))
  {
    hide Chained, IsSucc;
    var t := Link(s, p, x, i);
    assert forall m | m in t.nodes :: Pos(t, m) == Pos(s, m);
    assert forall m | m in t.nodes :: Active(t, m) == (Active(s, m) || m == x);
  }

  lemma LinkChained<Id>(s: Shape<Id>, p: Id, x: Id, i: nat)
    requires CanLink(s, p, x, i) && p != x
    ensures WellSized(Link(s, p, x, i)) && Chained(Link(s, p, x, i))
  {
    hide IsSucc;
    LinkUnique(s, p, x, i);
    var t := Link(s, p, x, i);
    forall m, j | m in t.nodes && Active(t, m) && 0 <= j < t.nodes[m].hi
      ensures IsSucc(t, Pos(t, m), j, t.nodes[m].fwd[j])
    {
      hide CanLink;
      assert Active(s, m) || m == x;
      assert j < s.nodes[m].hi || (m == x && j == i);
      LinkSucc(s, p, x, i, m, j);
    }
  }

  lemma LinkInv<Id>(s: Shape<Id>, p: Id, x: Id, i: nat)
    requires CanLink(s, p, x, i)
    ensures p != x && Inv(Link(s, p, x, i)) && Settled(Link(s, p, x, i), Some(x))
  {
    hide IsSucc, Chained, UniqueKeys, Capped, Settled;
    assert p != x;
    LinkUnique(s, p, x, i);
    LinkChained(s, p, x, i);
  }

  /** The first link, at level 0, is the instant at which the entry comes into being. */
  lemma FirstLinkContents<Id>(s: Shape<Id>, t: Shape<Id>, x: Id)
    requires UniqueKeys(s) && UniqueKeys(t) && s.header == t.header && Gains(s, t, 0, x)
    requires x != s.header && s.nodes[x].key == t.nodes[x].key && s.nodes[x].pid == t.nodes[x].pid
    requires forall m | m in s.nodes :: s.nodes[m].key == t.nodes[m].key && s.nodes[m].pid == t.nodes[m].pid
    requires forall m | m in s.nodes && Linked(s, m, 0) :: Pos(s, m) != s.nodes[x].key
    ensures s.nodes[x].key !in Contents(s)
    ensures Contents(t) == Contents(s)[s.nodes[x].key := s.nodes[x].pid]
  {
    if s.nodes[x].key in Contents(s) {
      var m := ContentsHolder(s, s.nodes[x].key);
    }
    var c := Contents(s)[s.nodes[x].key := s.nodes[x].pid];
    forall m | m in t.nodes && Linked(t, m, 0) && m != t.header
      ensures t.nodes[m].key in c && c[t.nodes[m].key] == t.nodes[m].pid
    {
      if m != x { ContentsAt(s, m); }
    }
    forall k | k in c
      ensures exists m | m in t.nodes :: Holds(t, m, k)
    {
      var m := x;
      if k in Contents(s) { m := ContentsHolder(s, k); }
      assert Holds(t, m, k);
    }
    ContentsIs(t, c);
  }

  lemma SameChainContents<Id>(s: Shape<Id>, t: Shape<Id>)
    requires UniqueKeys(s) && UniqueKeys(t) && s.header == t.header && SameChain(s, t, 0)
    requires forall m | m in s.nodes :: s.nodes[m].key == t.nodes[m].key && s.nodes[m].pid == t.nodes[m].pid
    ensures Contents(t) == Contents(s)
  {
    forall m | m in t.nodes && Linked(t, m, 0) && m != t.header
      ensures t.nodes[m].key in Contents(s) && Contents(s)[t.nodes[m].key] == t.nodes[m].pid
    {
      ContentsAt(s, m);
    }
    forall k | k in Contents(s)
      ensures exists m | m in t.nodes :: Holds(t, m, k)
    {
      var m := ContentsHolder(s, k);
      assert Holds(t, m, k);
    }
    ContentsIs(t, Contents(s));
  }

  lemma LinkContents<Id>(s: Shape<Id>, p: Id, x: Id, i: nat)
    requires CanLink(s, p, x, i) && p != x && Inv(Link(s, p, x, i))
    ensures Contents(Link(s, p, x, i)) ==
            if i == 0 then Contents(s)[s.nodes[x].key := s.nodes[x].pid] else Contents(s)
    ensures i == 0 ==> s.nodes[x].key !in Contents(s)
  {
    LinkEffect(s, p, x, i, 0);
    if i == 0 {
      forall m | m in s.nodes && Linked(s, m, 0)
        ensures Pos(s, m) != s.nodes[x].key
      {
        NoTwin(s, p, x, 0, m);
      }
      FirstLinkContents(s, Link(s, p, x, i), x);
    } else {
      SameChainContents(s, Link(s, p, x, i));
    }
  }

  /** What holds just before the write that unlinks x at level i. */
  ghost predicate CanUnlink<Id>(s: Shape<Id>, p: Id, x: Id, i: nat) {
    && Inv(s) && Settled(s, Some(x))
    && x in s.nodes && x != s.header && s.nodes[x].lo == i < s.nodes[x].hi
    && IsPred(s, s.nodes[x].key, i, p)
  }

  lemma PredPointsTo<Id>(s: Shape<Id>, p: Id, x: Id, i: nat)
    requires Inv(s) && x in s.nodes && x != s.header && Linked(s, x, i) && IsPred(s, s.nodes[x].key, i, p)
    ensures s.nodes[p].fwd[i] == Some(x)
  {
    assert Active(s, p) && Active(s, x);
    assert IsSucc(s, Pos(s, p), i, s.nodes[p].fwd[i]);
    match s.nodes[p].fwd[i]
    case None =>
    case Some(y) => assert Linked(s, y, i) && Active(s, y);
  }

  lemma UnlinkEffect<Id>(s: Shape<Id>, p: Id, x: Id, i: nat, j: nat)
    requires p in s.nodes && x in s.nodes && p != x && i < |s.nodes[p].fwd| && i < |s.nodes[x].fwd|
    requires s.nodes[x].lo == i
    ensures var t := Unlink(s, p, x, i);
            if j == i then Loses(s, t, i, x) else SameChain(s, t, j)
  {
  }

  lemma UnlinkSucc<Id>(s: Shape<Id>, p: Id, x: Id, i: nat, n: Id, j: nat)
    requires CanUnlink(s, p, x, i) && p != x && n in s.nodes && Active(s, n) && j < s.nodes[n].hi
    ensures var t := Unlink(s, p, x, i);
            j < |t.nodes[n].fwd| && IsSucc(t, Pos(t, n), j, t.nodes[n].fwd[j])
  {
    var t := Unlink(s, p, x, i);
    UnlinkEffect(s, p, x, i, j);
    SuccAt(s, n, j);
    if j != i {
      SameChainSucc(s, t, Pos(s, n), j, s.nodes[n].fwd[j]);
    } else if n == p || n == x {
      SuccAt(s, x, i);
      forall m | m in s.nodes && Linked(s, m, i) && Pos(s, m) == Pos(s, x)
        ensures m == x
      {
        UniqueAt(s, m, x);
      }
      LossSucc(s, t, i, x, p, s.nodes[x].fwd[i]);
    } else {
      assert Linked(s, n, i);
      if Pos(s, n) == Pos(s, p) { UniqueAt(s, n, p); }
      if Pos(s, n) == Pos(s, x) { UniqueAt(s, n, x); }
      LossOthers(s, t, i, x, p, n, s.nodes[n].fwd[i]);
    }
  }

  lemma UnlinkUnique<Id>(s: Shape<Id>, p: Id, x: Id, i: nat)
    requires CanUnlink(s, p, x, i) && p != x
    ensures var t := Unlink(s, p, x, i);
            WellSized(t) && UniqueKeys(t) && Capped(t) && Settled(t, Some(x))
  {
    hide Chained, IsSucc;
    var t := Unlink(s, p, x, i);
    assert forall m | m in t.nodes :: Pos(t, m) == Pos(s, m);
    assert forall m | m in t.nodes && Active(t, m) :: Active(s, m);
  }

  lemma UnlinkChained<Id>(s: Shape<Id>, p: Id, x: Id, i: nat)
    requires CanUnlink(s, p, x, i) && p != x
    ensures WellSized(Unlink(s, p, x, i)) && Chained(Unlink(s, p, x, i))
  {
    hide IsSucc;
    UnlinkUnique(s, p, x, i);
    var t := Unlink(s, p, x, i);
    forall m, j | m in t.nodes && Active(t, m) && 0 <= j < t.nodes[m].hi
      ensures IsSucc(t, Pos(t, m), j, t.nodes[m].fwd[j])
    {
      hide CanUnlink;
      assert Active(s, m) && j < s.nodes[m].hi;
      UnlinkSucc(s, p, x, i, m, j);
    }
  }

  lemma UnlinkInv<Id>(s: Shape<Id>, p: Id, x: Id, i: nat)
    requires CanUnlink(s, p, x, i)
    ensures p != x && Inv(Unlink(s, p, x, i)) && Settled(Unlink(s, p, x, i), Some(x))
  {
    hide IsSucc, Chained, UniqueKeys, Capped, Settled;
    assert p != x;
    UnlinkUnique(s, p, x, i);
    UnlinkChained(s, p, x, i);
  }

  /** Unlinking at level 0 is the instant at which the entry disappears. */
  lemma FirstUnlinkContents<Id>(s: Shape<Id>, t: Shape<Id>, x: Id)
    requires UniqueKeys(s) && UniqueKeys(t) && s.header == t.header && Loses(s, t, 0, x)
    requires x != s.header && Linked(s, x, 0)
    requires forall m | m in s.nodes :: s.nodes[m].key == t.nodes[m].key && s.nodes[m].pid == t.nodes[m].pid
    ensures Contents(t) == Contents(s) - {s.nodes[x].key}
  {
    var c := Contents(s) - {s.nodes[x].key};
    forall m | m in t.nodes && Linked(t, m, 0) && m != t.header
      ensures t.nodes[m].key in c && c[t.nodes[m].key] == t.nodes[m].pid
    {
      ContentsAt(s, m);
      if s.nodes[m].key == s.nodes[x].key {
        UniqueAt(s, m, x);
      }
    }
    forall k | k in c
      ensures exists m | m in t.nodes :: Holds(t, m, k)
    {
      var m := ContentsHolder(s, k);
      assert Holds(t, m, k);
    }
    ContentsIs(t, c);
  }

  lemma UnlinkContents<Id>(s: Shape<Id>, p: Id, x: Id, i: nat)
    requires CanUnlink(s, p, x, i) && p != x && Inv(Unlink(s, p, x, i))
    ensures Contents(Unlink(s, p, x, i)) ==
            if i == 0 then Contents(s) - {s.nodes[x].key} else Contents(s)
    ensures i > 0 ==> s.nodes[x].key !in Contents(s)
  {
    UnlinkEffect(s, p, x, i, 0);
    if i == 0 {
      FirstUnlinkContents(s, Unlink(s, p, x, i), x);
    } else {
      SameChainContents(s, Unlink(s, p, x, i));
      if s.nodes[x].key in Contents(s) {
        var m := ContentsHolder(s, s.nodes[x].key);
        assert Active(s, m);
        UniqueAt(s, m, x);
      }
    }
  }

  lemma HeaderPresent<Id>(s: Shape<Id>)
    requires Inv(s)
    ensures s.header in s.nodes
  {
  }

  lemma KeyInRange<Id>(s: Shape<Id>, n: Id)
    requires Inv(s) && n in s.nodes
    ensures Least(s) <= s.nodes[n].key <= KEY_MAX
  {
  }

  lemma LevelBounds<Id>(s: Shape<Id>)
    requires Inv(s)
    ensures 1 <= s.level <= PID_SL_MAX_LEVEL
  {
  }

  lemma HeaderFirst<Id>(s: Shape<Id>, n: Id)
    requires WellSized(s) && n in s.nodes
    ensures Pos(s, s.header) <= Pos(s, n)
  {
  }

  // ---------------------------------------------------------------- searching

  /** The walk along level `i`, starting at `x`, that stops before the first key not below `key`. */
  ghost function WalkLevel<Id>(s: Shape<Id>, x: Id, i: nat, key: int): (p: Id)
    requires WellSized(s) && UniqueKeys(s) && Chained(s) && Linked(s, x, i) && Pos(s, x) <= key
    ensures Linked(s, p, i)
    ensures Pos(s, x) < key ==> IsPred(s, key, i, p)
    ensures Pos(s, x) == key ==> p == x
    decreases key - Pos(s, x)
  {
    SuccAt(s, x, i);
    match s.nodes[x].fwd[i]
    case None => x
    case Some(y) =>
      if Pos(s, y) < key then WalkLevel(s, y, i, key) else x
  }

  /** The update[] array of a search that starts at `x` on level `i` and comes down to level 0. */
  ghost function Descend<Id>(s: Shape<Id>, x: Id, i: nat, key: int): (upd: seq<Id>)
    requires Inv(s) && Quiet(s) && Linked(s, x, i) && Pos(s, x) <= key
    ensures |upd| == i + 1
    ensures forall j | 0 <= j <= i :: Linked(s, upd[j], j)
    ensures Pos(s, x) < key ==> forall j | 0 <= j <= i :: IsPred(s, key, j, upd[j])
    ensures Pos(s, x) == key ==> forall j | 0 <= j <= i :: upd[j] == x
  {
    var p := WalkLevel(s, x, i, key);
    if i == 0 then [p] else
      assert Active(s, p);
      Descend(s, p, i - 1, key) + [p]
  }

  lemma PredUnique<Id>(s: Shape<Id>, key: int, i: int, p: Id, q: Id)
    requires UniqueKeys(s) && IsPred(s, key, i, p) && IsPred(s, key, i, q)
    ensures p == q
  {
    assert Active(s, p) && Active(s, q);
  }

  /** Wherever a search starts below its target, it finds the same predecessors. */
  lemma DescendSame<Id>(s: Shape<Id>, x: Id, y: Id, i: nat, key: int)
    requires Inv(s) && Quiet(s) && Linked(s, x, i) && Linked(s, y, i) && Pos(s, x) < key && Pos(s, y) < key
    ensures Descend(s, x, i, key) == Descend(s, y, i, key)
  {
    var a, b := Descend(s, x, i, key), Descend(s, y, i, key);
    forall j | 0 <= j <= i
      ensures a[j] == b[j]
    {
      PredUnique(s, key, j, a[j], b[j]);
    }
  }

  /** What the predecessor at level 0 leads to: the entry for `key`, if there is one. */
  lemma PredFinds<Id>(s: Shape<Id>, key: int, p: Id)
    requires Inv(s) && Quiet(s) && IsPred(s, key, 0, p) && Least(s) <= key
    ensures var r := s.nodes[p].fwd[0];
            && IsSucc(s, key - 1, 0, r)
            && (key in Contents(s) <==> r.Some? && s.nodes[r.value].key == key)
            && (r.Some? ==> r.value != s.header && Holds(s, r.value, s.nodes[r.value].key)
                            && s.nodes[r.value].key in Contents(s)
                            && Contents(s)[s.nodes[r.value].key] == s.nodes[r.value].pid)
  {
    assert Active(s, p) && Linked(s, s.header, 0);
    SuccAt(s, p, 0);
    var r := s.nodes[p].fwd[0];
    if key in Contents(s) {
      var n := ContentsHolder(s, key);
      assert Active(s, n);
      if r.Some? { assert Active(s, r.value); }
      assert r.Some? && Pos(s, r.value) <= key;
      assert key <= Pos(s, r.value);
      UniqueAt(s, n, r.value);
    }
    if r.Some? {
      ContentsAt(s, r.value);
    }
  }

  lemma KeyAbsent<Id>(s: Shape<Id>, key: int)
    requires Inv(s) && Quiet(s) && key !in Contents(s) && Least(s) <= key
    ensures forall m | m in s.nodes && Active(s, m) :: Pos(s, m) != key
  {
    forall m | m in s.nodes && Active(s, m)
      ensures Pos(s, m) != key
    {
      assert Linked(s, m, 0);
      if m != s.header { ContentsAt(s, m); }
    }
  }

  // ---------------------------------------------------------------- insertion and removal, level by level

  /** Node x is being linked, bottom-up, behind upd[0], upd[1], ...; levels below `i` are done. */
  ghost predicate Inserting<Id>(s: Shape<Id>, x: Id, upd: seq<Id>, i: nat) {
    && Inv(s) && Settled(s, Some(x))
    && x in s.nodes && x != s.header && s.nodes[x].lo == 0
    && s.nodes[x].hi == i <= |s.nodes[x].fwd| <= s.level && |s.nodes[x].fwd| <= |upd|
    && (forall j | i <= j < |s.nodes[x].fwd| :: IsPred(s, s.nodes[x].key, j, upd[j]))
    && (i == 0 ==> forall m | m in s.nodes && Active(s, m) :: Pos(s, m) != s.nodes[x].key)
  }

  lemma SameChainPred<Id>(s: Shape<Id>, t: Shape<Id>, key: int, i: int, p: Id)
    requires SameChain(s, t, i) && IsPred(s, key, i, p)
    ensures IsPred(t, key, i, p)
  {
    assert p in t.nodes;
  }

  /** The level and the update[] array once a tower of height `height` has been drawn. */
  ghost function Raised<Id>(s: Shape<Id>, height: int): Shape<Id> {
    SetLevel(s, Max(s.level, height))
  }

  ghost function Padded<Id>(s: Shape<Id>, upd: seq<Id>, height: int): seq<Id> {
    upd + seq(Max(s.level, height) - s.level, _ => s.header)
  }

  lemma RaiseKeeps<Id>(s: Shape<Id>, height: int)
    requires Inv(s) && Quiet(s) && 1 <= height <= PID_SL_MAX_LEVEL
    ensures Inv(Raised(s, height)) && Quiet(Raised(s, height)) && Contents(Raised(s, height)) == Contents(s)
    ensures forall i :: SameChain(s, Raised(s, height), i)
  {
    hide Chained, IsSucc, UniqueKeys;
    SetLevelInv(s, Max(s.level, height));
  }

  /** Above the old level the header is the predecessor of everything. */
  lemma PaddedPred<Id>(s: Shape<Id>, key: int, upd: seq<Id>, height: int, j: nat)
    requires Inv(s) && Quiet(s) && 1 <= height <= PID_SL_MAX_LEVEL && Least(s) <= key
    requires |upd| == s.level && forall i | 0 <= i < s.level :: IsPred(s, key, i, upd[i])
    requires j < Max(s.level, height)
    ensures IsPred(s, key, j, Padded(s, upd, height)[j])
  {
    hide Chained;
    if j >= s.level {
      assert forall m | m in s.nodes && Linked(s, m, j) :: Active(s, m);
      assert Linked(s, s.header, j);
    }
  }

  /** A new tower is allocated and filled in; nothing is linked yet. */
  lemma AddTowerKeeps<Id>(s: Shape<Id>, x: Id, key: int, pid: Option<Pid>, height: nat)
    requires Inv(s) && Quiet(s) && x !in s.nodes
    requires 1 <= height <= PID_SL_MAX_LEVEL && Least(s) <= key <= KEY_MAX
    ensures var t := AddTower(s, x, key, pid, height);
            && Inv(t) && Quiet(t) && Contents(t) == Contents(s)
            && (forall m | m in t.nodes && Active(t, m) :: Active(s, m) && Pos(t, m) == Pos(s, m))
  {
    hide Chained, IsSucc, UniqueKeys, Capped;
    IdleTowerInv(s, x, Tower(key, pid, seq(height, _ => None), 0, 0));
  }

  lemma AddTowerPred<Id>(s: Shape<Id>, x: Id, key: int, pid: Option<Pid>, height: nat, i: int, p: Id)
    requires s.header in s.nodes && x !in s.nodes && IsPred(s, key, i, p)
    ensures IsPred(AddTower(s, x, key, pid, height), key, i, p)
  {
    var t := AddTower(s, x, key, pid, height);
    assert forall m | m in t.nodes && Linked(t, m, i) :: Linked(s, m, i) && Pos(t, m) == Pos(s, m);
  }

  lemma InsertingStart<Id>(s: Shape<Id>, r: Shape<Id>, t: Shape<Id>, x: Id, upd: seq<Id>)
    requires Inv(t) && Quiet(t) && x in t.nodes && x != t.header && t.nodes[x].lo == t.nodes[x].hi == 0
    requires |t.nodes[x].fwd| <= t.level && |t.nodes[x].fwd| <= |upd|
    requires forall j | 0 <= j < |t.nodes[x].fwd| :: IsPred(t, t.nodes[x].key, j, upd[j])
    requires forall m | m in t.nodes && Active(t, m) :: m in r.nodes && Active(r, m) && Pos(t, m) == Pos(r, m)
    requires SameChain(s, r, 0) && Quiet(r) && Inv(r)
    requires forall m | m in s.nodes && Active(s, m) :: Pos(s, m) != t.nodes[x].key
    ensures Inserting(t, x, upd, 0)
  {
    hide Inv, IsPred;
    forall m | m in t.nodes && Active(t, m)
      ensures Pos(t, m) != t.nodes[x].key
    {
      assert Linked(r, m, 0) && Linked(s, m, 0) && Active(s, m);
    }
  }

  /** Everything is in place for the first link. */
  lemma ReadyToInsert<Id>(s: Shape<Id>, x: Id, key: int, pid: Option<Pid>, height: nat, upd: seq<Id>)
    requires Inv(s) && Quiet(s) && x !in s.nodes && key !in Contents(s)
    requires 1 <= height <= PID_SL_MAX_LEVEL && Least(s) <= key <= KEY_MAX
    requires |upd| == s.level && forall i | 0 <= i < s.level :: IsPred(s, key, i, upd[i])
    ensures Inv(Raised(s, height)) && Quiet(Raised(s, height))
    ensures var t := AddTower(Raised(s, height), x, key, pid, height);
            Inserting(t, x, Padded(s, upd, height), 0) && Contents(t) == Contents(s)
  {
    hide Inv, Quiet, UniqueKeys, IsPred, Contents;
    KeyAbsent(s, key);
    RaiseKeeps(s, height);
    var r := Raised(s, height);
    AddTowerKeeps(r, x, key, pid, height);
    var t := AddTower(r, x, key, pid, height);
    forall j | 0 <= j < height
      ensures IsPred(t, key, j, Padded(s, upd, height)[j])
    {
      PaddedPred(s, key, upd, height, j);
      SameChainPred(s, r, key, j, Padded(s, upd, height)[j]);
      HeaderPresent(r);
      AddTowerPred(r, x, key, pid, height, j, Padded(s, upd, height)[j]);
    }
    HeaderPresent(s);
    InsertingStart(s, r, t, x, Padded(s, upd, height));
  }

  /** The pointer taken over changes nothing a reader could see. */
  lemma CopyStep<Id>(s: Shape<Id>, x: Id, upd: seq<Id>, i: nat)
    requires Inserting(s, x, upd, i) && i < |s.nodes[x].fwd|
    ensures upd[i] in s.nodes && upd[i] != x && i < |s.nodes[upd[i]].fwd|
    ensures var t := CopyForward(s, upd[i], x, i);
            Inserting(t, x, upd, i) && CanLink(t, upd[i], x, i) && Contents(t) == Contents(s)
  {
    var p := upd[i];
    assert IsPred(s, s.nodes[x].key, i, p);
    var t := CopyForward(s, p, x, i);
    CopyInv(s, p, x, i);
    forall j | i <= j < |t.nodes[x].fwd|
      ensures IsPred(t, t.nodes[x].key, j, upd[j])
    {
      SameChainPred(s, t, s.nodes[x].key, j, upd[j]);
    }
    assert forall m | m in t.nodes && Active(t, m) :: Active(s, m) && Pos(s, m) == Pos(t, m);
  }

  lemma CopyChain<Id>(s: Shape<Id>, p: Id, x: Id, i: nat)
    requires p in s.nodes && x in s.nodes && i < |s.nodes[x].fwd| && i < |s.nodes[p].fwd|
    ensures var t := CopyForward(s, p, x, i); forall j :: SameChain(s, t, j)
  {
  }

  lemma CopyInv<Id>(s: Shape<Id>, p: Id, x: Id, i: nat)
    requires Inv(s) && p in s.nodes && x in s.nodes && p != x && x != s.header
    requires s.nodes[x].lo == 0 && s.nodes[x].hi == i < |s.nodes[x].fwd| && i < |s.nodes[p].fwd|
    ensures var t := CopyForward(s, p, x, i);
            && Inv(t) && Contents(t) == Contents(s) && forall j :: SameChain(s, t, j)
  {
    var t := CopyForward(s, p, x, i);
    CopyChain(s, p, x, i);
    assert SameChain(s, t, 0);
    assert forall m | m in t.nodes && Active(t, m) :: Active(s, m) && Pos(t, m) == Pos(s, m);
    forall m, j | m in t.nodes && Active(t, m) && 0 <= j < t.nodes[m].hi
      ensures IsSucc(t, Pos(t, m), j, t.nodes[m].fwd[j])
    {
      SuccAt(s, m, j);
      SameChainSucc(s, t, Pos(s, m), j, s.nodes[m].fwd[j]);
    }
    SameChainContents(s, t);
  }

  /** The write that links x at level i. */
  lemma LinkStep<Id>(s: Shape<Id>, x: Id, upd: seq<Id>, i: nat)
    requires Inserting(s, x, upd, i) && i < |s.nodes[x].fwd| && CanLink(s, upd[i], x, i)
    ensures upd[i] != x
    ensures var t := Link(s, upd[i], x, i);
            && Inserting(t, x, upd, i + 1)
            && Contents(t) == if i == 0 then Contents(s)[s.nodes[x].key := s.nodes[x].pid] else Contents(s)
  {
    var p := upd[i];
    LinkInv(s, p, x, i);
    LinkContents(s, p, x, i);
    var t := Link(s, p, x, i);
    forall j | i + 1 <= j < |t.nodes[x].fwd|
      ensures IsPred(t, t.nodes[x].key, j, upd[j])
    {
      LinkEffect(s, p, x, i, j);
      SameChainPred(s, t, s.nodes[x].key, j, upd[j]);
    }
  }

  lemma InsertingDone<Id>(s: Shape<Id>, x: Id, upd: seq<Id>, i: nat)
    requires Inserting(s, x, upd, i) && i == |s.nodes[x].fwd|
    ensures Inv(s) && Quiet(s) && Linked(s, x, 0)
  {
  }

  /** Node x is being unlinked, bottom-up, from behind upd[0], upd[1], ...; levels below `i` are done. */
  ghost predicate Removing<Id>(s: Shape<Id>, x: Id, upd: seq<Id>, i: nat) {
    && Inv(s) && Settled(s, Some(x))
    && x in s.nodes && x != s.header && s.nodes[x].lo == i <= s.nodes[x].hi == |s.nodes[x].fwd| <= s.level
    && |upd| == s.level
    && forall j | i <= j < |upd| :: IsPred(s, s.nodes[x].key, j, upd[j])
  }

  /** The predecessor still leads to x exactly on the levels of x. */
  lemma StillPointedTo<Id>(s: Shape<Id>, x: Id, upd: seq<Id>, i: nat)
    requires Removing(s, x, upd, i) && i < s.level
    ensures upd[i] in s.nodes && i < |s.nodes[upd[i]].fwd|
    ensures s.nodes[upd[i]].fwd[i] == Some(x) <==> i < s.nodes[x].hi
  {
    assert IsPred(s, s.nodes[x].key, i, upd[i]);
    assert Active(s, upd[i]);
    SuccAt(s, upd[i], i);
    if i < s.nodes[x].hi {
      PredPointsTo(s, upd[i], x, i);
    }
  }

  lemma UnlinkStep<Id>(s: Shape<Id>, x: Id, upd: seq<Id>, i: nat)
    requires Removing(s, x, upd, i) && i < s.nodes[x].hi
    ensures upd[i] in s.nodes && upd[i] != x && i < |s.nodes[upd[i]].fwd|
    ensures var t := Unlink(s, upd[i], x, i);
            && Removing(t, x, upd, i + 1)
            && Contents(t) == if i == 0 then Contents(s) - {s.nodes[x].key} else Contents(s)
  {
    var p := upd[i];
    assert IsPred(s, s.nodes[x].key, i, p);
    UnlinkInv(s, p, x, i);
    UnlinkContents(s, p, x, i);
    var t := Unlink(s, p, x, i);
    forall j | i + 1 <= j < |upd|
      ensures IsPred(t, t.nodes[x].key, j, upd[j])
    {
      UnlinkEffect(s, p, x, i, j);
      SameChainPred(s, t, s.nodes[x].key, j, upd[j]);
    }
  }

  /** Only pointers changed, and only x gained or lost links. */
  ghost predicate SameBut<Id>(s: Shape<Id>, t: Shape<Id>, x: Id) {
    && t.header == s.header && t.level == s.level && t.nodes.Keys == s.nodes.Keys
    && forall n | n in s.nodes ::
         && t.nodes[n].key == s.nodes[n].key && t.nodes[n].pid == s.nodes[n].pid
         && |t.nodes[n].fwd| == |s.nodes[n].fwd|
         && (n != x ==> t.nodes[n].lo == s.nodes[n].lo && t.nodes[n].hi == s.nodes[n].hi)
  }

  /** No old node moved, and nothing but `x` was added. */
  ghost predicate Extends<Id>(s: Shape<Id>, t: Shape<Id>, x: Option<Id>) {
    && t.header == s.header
    && t.nodes.Keys == s.nodes.Keys + (if x.Some? then {x.value} else {})
    && forall n | n in s.nodes ::
         && n in t.nodes && t.nodes[n].key == s.nodes[n].key && |t.nodes[n].fwd| == |s.nodes[n].fwd|
         && t.nodes[n].lo == s.nodes[n].lo && t.nodes[n].hi == s.nodes[n].hi
  }

  /** Levels at which the header leads nowhere are empty and may be given up. */
  lemma LowerKeeps<Id>(s: Shape<Id>, level: int)
    requires Inv(s) && Quiet(s) && 1 <= level <= s.level
    requires forall j | level <= j < s.level :: s.nodes[s.header].fwd[j] == None
    ensures Inv(SetLevel(s, level)) && Quiet(SetLevel(s, level)) && Contents(SetLevel(s, level)) == Contents(s)
  {
    hide UniqueKeys;
    forall n | n in s.nodes && Active(s, n) && n != s.header
      ensures s.nodes[n].hi <= level
    {
      var j := s.nodes[n].hi - 1;
      if j >= level {
        assert Active(s, s.header);
        SuccAt(s, s.header, j);
      }
    }
    SetLevelInv(s, level);
  }

  /** The level is the height of the tallest linked tower, or 1. */
  ghost predicate Tight<Id>(s: Shape<Id>)
    requires WellSized(s)
  {
    s.level > 1 ==> s.nodes[s.header].fwd[s.level - 1] != None
  }

  /** A removal starts once the search is over. */
  lemma RemovingStart<Id>(s: Shape<Id>, x: Id, upd: seq<Id>)
    requires Inv(s) && Quiet(s) && x in s.nodes && x != s.header && Linked(s, x, 0)
    requires |upd| == s.level && forall i | 0 <= i < s.level :: IsPred(s, s.nodes[x].key, i, upd[i])
    ensures Removing(s, x, upd, 0)
  {
    hide Chained, UniqueKeys, IsPred;
    assert Active(s, x);
  }

  lemma RemovingDone<Id>(s: Shape<Id>, x: Id, upd: seq<Id>, i: nat)
    requires Removing(s, x, upd, i) && i == s.nodes[x].hi
    ensures Inv(s) && Quiet(s) && !Active(s, x) && i > 0
  {
    hide Chained, UniqueKeys, IsPred;
  }

  // ---------------------------------------------------------------- a node changes its key

  /** No write at all: node x is said to stand at another key. */
  ghost function Rekey<Id>(s: Shape<Id>, x: Id, key: int): Shape<Id>
    requires x in s.nodes
  {
    s.(nodes := s.nodes[x := s.nodes[x].(key := key)])
  }

  /** x may move down to `key`: no other node stands between. */
  ghost predicate CanRekey<Id>(s: Shape<Id>, x: Id, key: int) {
    && s.header in s.nodes && Linked(s, x, 0) && x != s.header && Least(s) <= key <= s.nodes[x].key
    && forall m | m in s.nodes && Active(s, m) && m != x :: Pos(s, m) < key || s.nodes[x].key < Pos(s, m)
  }

  lemma RekeySucc<Id>(s: Shape<Id>, x: Id, key: int, n: Id, i: int, r: Option<Id>)
    requires CanRekey(s, x, key) && n in s.nodes && Active(s, n) && IsSucc(s, Pos(s, n), i, r)
    ensures var t := Rekey(s, x, key); n in t.nodes && IsSucc(t, Pos(t, n), i, r)
  {
    var t := Rekey(s, x, key);
    forall m
      ensures Linked(t, m, i) <==> Linked(s, m, i)
      ensures Linked(s, m, i) ==> Active(s, m)
    {
    }
  }

  lemma RekeyInv<Id>(s: Shape<Id>, x: Id, key: int)
    requires Inv(s) && Quiet(s) && CanRekey(s, x, key)
    ensures Inv(Rekey(s, x, key)) && Quiet(Rekey(s, x, key)) && Least(Rekey(s, x, key)) == Least(s)
  {
    var t := Rekey(s, x, key);
    assert WellSized(t) && Capped(t) && Quiet(t) by {
      hide UniqueKeys, Chained, IsSucc;
    }
    assert UniqueKeys(t) by {
      hide Chained, IsSucc, WellSized, Capped, Quiet;
      forall n, m | n in t.nodes && m in t.nodes && Active(t, n) && Active(t, m) && Pos(t, n) == Pos(t, m)
        ensures n == m
      {
        assert Active(s, n) && Active(s, m);
      }
    }
    hide WellSized, UniqueKeys, Capped, Quiet, IsSucc, CanRekey;
    forall n, i | n in t.nodes && Active(t, n) && 0 <= i < t.nodes[n].hi
      ensures IsSucc(t, Pos(t, n), i, t.nodes[n].fwd[i])
    {
      assert Active(s, n);
      RekeySucc(s, x, key, n, i, s.nodes[n].fwd[i]);
    }
  }

  lemma RekeyContents<Id>(s: Shape<Id>, x: Id, key: int)
    requires Inv(s) && Quiet(s) && CanRekey(s, x, key) && Inv(Rekey(s, x, key))
    ensures Contents(Rekey(s, x, key)) == (Contents(s) - {s.nodes[x].key})[key := s.nodes[x].pid]
  {
    var t := Rekey(s, x, key);
    hide Chained, WellSized, Capped, Contents;
    var c := (Contents(s) - {s.nodes[x].key})[key := s.nodes[x].pid];
    forall n | n in t.nodes && Linked(t, n, 0) && n != t.header
      ensures t.nodes[n].key in c && c[t.nodes[n].key] == t.nodes[n].pid
    {
      ContentsAt(s, n);
      assert Active(s, n) && Active(s, x);
    }
    forall k | k in c
      ensures exists n :: Holds(t, n, k)
    {
      if k == key {
        assert Holds(t, x, k);
      } else {
        var n := ContentsHolder(s, k);
        assert Holds(t, n, k);
      }
    }
    ContentsIs(t, c);
  }

  // ---------------------------------------------------------------- the order of the entries

  /** `r` is the smallest number not below `from` in the map, reserved or not. */
  ghost predicate IsLeastFrom(m: map<int, Option<Pid>>, from: int, r: Option<int>) {
    match r
    case None => forall k | k in m :: k < from
    case Some(y) => y in m && from <= y && forall k | k in m :: from <= k ==> y <= k
  }

  /** What find_ge and the iterator report: the value at the smallest such number. */
  ghost predicate IsFirstValue(m: map<int, Option<Pid>>, from: int, v: Option<Pid>) {
    exists r :: IsLeastFrom(m, from, r) && v == if r.None? then None else ValueAt(m, r.value)
  }

  ghost function KeyOf<Id>(s: Shape<Id>, r: Option<Id>): Option<int>
    requires r.Some? ==> r.value in s.nodes
  {
    if r.None? then None else Some(s.nodes[r.value].key)
  }

  lemma SuccIsLeast<Id>(s: Shape<Id>, from: int, r: Option<Id>)
    requires Inv(s) && Quiet(s) && Least(s) <= from && IsSucc(s, from - 1, 0, r)
    ensures r.Some? ==> r.value in s.nodes && r.value != s.header
    ensures IsLeastFrom(Contents(s), from, KeyOf(s, r))
  {
    hide Chained;
    if r.Some? { ContentsAt(s, r.value); }
    forall k | k in Contents(s) && from <= k
      ensures r.Some? && s.nodes[r.value].key <= k
    {
      var n := ContentsHolder(s, k);
    }
  }

  /** A tree node is its own predecessor once the target is moved one up. */
  lemma PredOfSelf<Id>(s: Shape<Id>, p: Id)
    requires Linked(s, p, 0)
    ensures IsPred(s, Pos(s, p) + 1, 0, p)
  {
  }

  // ---------------------------------------------------------------- enumerating the entries

  /** `n` is among the numbers from `start` on that come before the first reserved one. */
  ghost predicate BeforeGap(m: map<int, Option<Pid>>, start: int, n: int) {
    && n in m && start <= n
    && forall b | b in m :: start <= b <= n ==> m[b] != None
  }

  /** `keys` lists, in increasing order, exactly the entries up to the first reserved number. */
  ghost predicate Visits(m: map<int, Option<Pid>>, start: int, keys: seq<int>, pids: seq<Pid>) {
    && |pids| == |keys|
    && (forall i, j | 0 <= i < j < |keys| :: keys[i] < keys[j])
    && (forall n :: n in keys <==> BeforeGap(m, start, n))
    && (forall i | 0 <= i < |keys| :: keys[i] in m && m[keys[i]] == Some(pids[i]))
  }

  /** The same for the entries below `from`, none of which is reserved. */
  ghost predicate VisitsBelow(m: map<int, Option<Pid>>, start: int, from: int, keys: seq<int>, pids: seq<Pid>) {
    && start <= from && |pids| == |keys|
    && (forall i, j | 0 <= i < j < |keys| :: keys[i] < keys[j])
    && (forall i | 0 <= i < |keys| :: start <= keys[i] < from && keys[i] in m && m[keys[i]] == Some(pids[i]))
    && (forall n | n in m && start <= n < from :: n in keys)
  }

  /** Nothing follows, or what follows first is reserved. */
  ghost predicate StopsAt(m: map<int, Option<Pid>>, from: int) {
    exists r :: IsLeastFrom(m, from, r) && (r.Some? ==> m[r.value] == None)
  }

  lemma VisitOne(m: map<int, Option<Pid>>, start: int, from: int, keys: seq<int>, pids: seq<Pid>, key: int, pid: Pid)
    requires VisitsBelow(m, start, from, keys, pids)
    requires IsLeastFrom(m, from, Some(key)) && m[key] == Some(pid)
    ensures VisitsBelow(m, start, key + 1, keys + [key], pids + [pid])
  {
    forall n | n in m && start <= n < key + 1
      ensures n in keys + [key]
    {
      if n < from { assert n in keys; } else { assert n == key; assert (keys + [key])[|keys|] == key; }
    }
  }

  lemma VisitsAll(m: map<int, Option<Pid>>, start: int, from: int, keys: seq<int>, pids: seq<Pid>)
    requires VisitsBelow(m, start, from, keys, pids) && StopsAt(m, from)
    ensures Visits(m, start, keys, pids)
  {
    var r :| IsLeastFrom(m, from, r) && (r.Some? ==> m[r.value] == None);
    forall n
      ensures n in keys <==> BeforeGap(m, start, n)
    {
      if n in keys {
        forall b | b in m && start <= b <= n
          ensures m[b] != None
        {
          assert b in keys;
        }
      }
    }
  }

  /** A strictly rising sequence is determined by its elements; one with an initial part of them is a prefix. */
  lemma {:induction false} RisingPrefix(a: seq<int>, b: seq<int>)
    requires forall i, j | 0 <= i < j < |a| :: a[i] < a[j]
    requires forall i, j | 0 <= i < j < |b| :: b[i] < b[j]
    requires forall x | x in a :: x in b
    requires forall x, y | x in b && y in a && x <= y :: x in a
    ensures a <= b
  {
    if a != [] {
      assert a[0] in a && a[0] in b && b[0] in b;
      assert b[0] <= a[0];
      assert a[0] == b[0];
      var c, d := a[1..], b[1..];
      forall x | x in c
        ensures x in d
      {
        var i :| 0 <= i < |c| && c[i] == x;
        assert a[i + 1] == x && a[0] < a[i + 1];
        assert a[i + 1] in a;
        var j :| 0 <= j < |b| && b[j] == x;
        assert d[j - 1] == x;
      }
      forall x, y | x in d && y in c && x <= y
        ensures x in c
      {
        var j :| 0 <= j < |d| && d[j] == x;
        assert b[j + 1] == x && b[0] < b[j + 1];
        var l :| 0 <= l < |c| && c[l] == y;
        assert a[l + 1] == y && y in a && x in b;
        var i :| 0 <= i < |a| && a[i] == x;
        assert c[i - 1] == x;
      }
      RisingPrefix(c, d);
    }
  }

  /** There is only one enumeration of the entries from a number on. */
  lemma VisitsUnique(m: map<int, Option<Pid>>, start: int, keys: seq<int>, pids: seq<Pid>, keys': seq<int>,
                     pids': seq<Pid>)
    requires Visits(m, start, keys, pids) && Visits(m, start, keys', pids')
    ensures keys == keys' && pids == pids'
  {
    RisingPrefix(keys, keys');
    RisingPrefix(keys', keys);
  }

  /** The iteration meets every entry from `start` on if and only if none of them is reserved. */
  lemma VisitsEverything(m: map<int, Option<Pid>>, start: int, keys: seq<int>, pids: seq<Pid>)
    requires Visits(m, start, keys, pids)
    ensures (forall n | n in m && start <= n :: n in keys) <==> (forall n | n in m && start <= n :: m[n] != None)
  {
    if forall n | n in m && start <= n :: m[n] != None {
      assert forall n | n in m && start <= n :: BeforeGap(m, start, n);
    }
    if forall n | n in m && start <= n :: n in keys {
      assert forall n | n in m && start <= n :: BeforeGap(m, start, n);
    }
  }

  /** What is visited first is what find_ge reports. */
  lemma FirstVisited(m: map<int, Option<Pid>>, start: int, keys: seq<int>, pids: seq<Pid>, v: Option<Pid>)
    requires Visits(m, start, keys, pids) && IsFirstValue(m, start, v)
    ensures v == if |pids| > 0 then Some(pids[0]) else None
  {
    var r :| IsLeastFrom(m, start, r) && v == if r.None? then None else ValueAt(m, r.value);
    if |keys| > 0 {
      assert keys[0] in keys && BeforeGap(m, start, keys[0]);
      assert r.Some?;
      assert BeforeGap(m, start, r.value);
    } else if r.Some? && m[r.value] != None {
      assert BeforeGap(m, start, r.value);
    }
  }

  /** A header of full height alone is an empty list. */
  lemma EmptyShape<Id>(s: Shape<Id>, first: int)
    requires first <= INT_MIN && s.level == 1
    requires s.nodes.Keys == {s.header} && |s.nodes[s.header].fwd| == PID_SL_MAX_LEVEL
    requires forall i | 0 <= i < PID_SL_MAX_LEVEL :: s.nodes[s.header].fwd[i] == None
    requires s.nodes[s.header] == Tower(first, None, s.nodes[s.header].fwd, 0, PID_SL_MAX_LEVEL)
    ensures Inv(s) && Quiet(s) && Least(s) == first && Contents(s) == map[]
  {
  }
}

/** The two lists side by side, over whole runs of operations. */
module Variants {
  import opened Options
  import opened Towers
  import opened Ranks
  import opened RandomLevel
  import opened PidSkiplist
  import opened RbSkiplist

  /** `Enumerate` is the loop of zap_pid_ns_processes over the iterator. */
  datatype Op =
    | Insert(key: int, pid: Option<Pid>, draw: Draw, oom: bool)
    | Remove(key: int)
    | Lookup(key: int)
    | FindGe(key: int)
    | Enumerate(key: int)

  datatype Reply = Status(ok: bool) | Value(pid: Option<Pid>) | Pids(pids: seq<Pid>) | Nothing

  predicate InRange(op: Op) {
    INT_MIN <= op.key <= INT_MAX
  }

  // ---------------------------------------------------------------- the plain list as a map

  ghost function PlainNext(p: Entries, op: Op): Entries {
    match op
    case Insert(k, pid, _, oom) => if k in p || !oom then p[k := pid] else p
    case Remove(k) => p - {k}
    case _ => p
  }

  ghost predicate PlainReply(p: Entries, op: Op, r: Reply) {
    match op
    case Insert(k, _, _, oom) => r == Status(k in p || !oom)
    case Remove(_) => r == Nothing
    case Lookup(k) => r == Value(ValueAt(p, k))
    case FindGe(k) => r.Value? && IsFirstValue(p, k, r.pid)
    case Enumerate(k) => r.Pids? && exists keys :: Visits(p, k, keys, r.pids)
  }

  // ---------------------------------------------------------------- the seeded list as a map by rank

  ghost function RbNext(m: Entries, op: Op): Entries {
    match op
    case Insert(k, pid, draw, oom) => Inserted(m, k, pid, draw, oom)
    case Remove(k) => m - {Late(k)}
    case _ => m
  }

  ghost predicate RbReply(m: Entries, op: Op, r: Reply) {
    match op
    case Insert(k, _, _, oom) => r == Status(Late(k) in m || !oom)
    case Remove(_) => r == Nothing
    case Lookup(k) => r == Value(ValueAt(m, Late(k)))
    case FindGe(k) => r.Value? && IsFirstValue(m, Late(k), r.pid)
    case Enumerate(k) => r.Pids? && exists ranks :: Visits(m, Late(k), ranks, r.pids)
  }

  ghost function RbAfter(ops: seq<Op>, m: Entries): Entries {
    if ops == [] then m else RbAfter(ops[1..], RbNext(m, ops[0]))
  }

  // ---------------------------------------------------------------- two disciplines under which the lists agree

  /**
   How the lists are used.  Keeping off the tree: no operation names a number that is a tree key
   by then.  Reserving first, as the allocator does: a pid is stored only under a number in use,
   and storing there does not run out of memory.
   */
  datatype Discipline = KeepOffTree | ReserveFirst

  ghost predicate Admits(d: Discipline, op: Op, p: Entries, m: Entries) {
    match d
    case KeepOffTree => Early(op.key) !in m
    case ReserveFirst =>
      match op
      case Insert(k, pid, _, oom) => (pid.Some? ==> k in p) && (k in p ==> !oom)
      case FindGe(_) => false
      case Enumerate(_) => false
      case _ => true
  }

  ghost predicate Follows(d: Discipline, ops: seq<Op>, p: Entries, m: Entries) {
    ops != [] ==>
      InRange(ops[0]) && Admits(d, ops[0], p, m) && Follows(d, ops[1..], PlainNext(p, ops[0]), RbNext(m, ops[0]))
  }

  /** A number in use has one node, in the tree or not. */
  ghost predicate MergedAt(p: Entries, m: Entries, k: int) {
    && (k in p <==> Late(k) in m || Early(k) in m)
    && (Late(k) in m ==> Early(k) !in m && p[k] == m[Late(k)])
    && (Early(k) in m ==> p[k] == m[Early(k)])
  }

  ghost predicate Merged(p: Entries, m: Entries) {
    forall k :: MergedAt(p, m, k)
  }

  /** A tree node is a left-over reservation; a number in use has its other node, or is reserved. */
  ghost predicate ShadowedAt(p: Entries, m: Entries, k: int) {
    && (Late(k) in m ==> k in p && p[k] == m[Late(k)])
    && (k in p && Late(k) !in m ==> Early(k) in m && p[k] == None)
    && (Early(k) in m ==> m[Early(k)] == None)
  }

  ghost predicate Shadowed(p: Entries, m: Entries) {
    forall k :: ShadowedAt(p, m, k)
  }

  ghost predicate Related(d: Discipline, p: Entries, m: Entries) {
    match d
    case KeepOffTree => Merged(p, m)
    case ReserveFirst => Shadowed(p, m)
  }

  lemma EmptyRelated(d: Discipline)
    ensures Related(d, map[], map[])
  {
  }

  /** An operation that follows the discipline keeps the relation between the two lists. */
  lemma RelatedNext(d: Discipline, op: Op, p: Entries, m: Entries)
    requires Related(d, p, m) && Admits(d, op, p, m)
    ensures Related(d, PlainNext(p, op), RbNext(m, op))
  {
    hide MergedAt, ShadowedAt, Admits, PlainNext, RbNext;
    forall k
      ensures d.KeepOffTree? ==> MergedAt(PlainNext(p, op), RbNext(m, op), k)
      ensures d.ReserveFirst? ==> ShadowedAt(PlainNext(p, op), RbNext(m, op), k)
    {
      if d.KeepOffTree? {
        assert MergedAt(p, m, k);
        MergedNext(op, p, m, k);
      } else {
        assert ShadowedAt(p, m, k);
        ShadowedNext(op, p, m, k);
      }
    }
  }

  lemma MergedNext(op: Op, p: Entries, m: Entries, k: int)
    requires MergedAt(p, m, k) && Admits(KeepOffTree, op, p, m)
    ensures MergedAt(PlainNext(p, op), RbNext(m, op), k)
  {
    hide Late, Early;
    RanksApart(k, op.key);
    RanksApart(op.key, k);
  }

  lemma ShadowedNext(op: Op, p: Entries, m: Entries, k: int)
    requires ShadowedAt(p, m, k) && ShadowedAt(p, m, op.key) && Admits(ReserveFirst, op, p, m)
    ensures ShadowedAt(PlainNext(p, op), RbNext(m, op), k)
  {
    hide Late, Early;
    RanksApart(k, op.key);
    RanksApart(op.key, k);
  }

  lemma FirstValueUnique(m: Entries, from: int, v: Option<Pid>, w: Option<Pid>)
    requires IsFirstValue(m, from, v) && IsFirstValue(m, from, w)
    ensures v == w
  {
    var r :| IsLeastFrom(m, from, r) && v == if r.None? then None else ValueAt(m, r.value);
    var q :| IsLeastFrom(m, from, q) && w == if q.None? then None else ValueAt(m, q.value);
    assert r == q;
  }

  /** Off the tree the first entry by rank is the first by number. */
  lemma MergedFirst(p: Entries, m: Entries, k: int, v: Option<Pid>)
    requires Merged(p, m) && Early(k) !in m && IsFirstValue(m, Late(k), v)
    ensures IsFirstValue(p, k, v)
  {
    hide Merged;
    var r :| IsLeastFrom(m, Late(k), r) && v == if r.None? then None else ValueAt(m, r.value);
    var n := if r.None? then None else Some(Number(r.value));
    forall j | j in p && k <= j
      ensures n.Some? && n.value <= j
    {
      MergedRank(p, m, j);
    }
    if r.Some? {
      MergedNumber(p, m, r.value);
    }
    assert IsLeastFrom(p, k, n);
  }

  lemma MergedRank(p: Entries, m: Entries, j: int)
    requires Merged(p, m) && j in p
    ensures Late(j) in m || Early(j) in m
  {
    assert MergedAt(p, m, j);
  }

  lemma MergedNumber(p: Entries, m: Entries, r: int)
    requires Merged(p, m) && r in m
    ensures Number(r) in p && p[Number(r)] == m[r]
    ensures r == (if Late(Number(r)) in m then Late(Number(r)) else Early(Number(r)))
  {
    assert MergedAt(p, m, Number(r));
  }

  function Numbers(ranks: seq<int>): seq<int> {
    seq(|ranks|, i requires 0 <= i < |ranks| => Number(ranks[i]))
  }

  /** Off the tree the enumeration by rank is one by number. */
  lemma MergedVisits(p: Entries, m: Entries, start: int, ranks: seq<int>, pids: seq<Pid>)
    requires Merged(p, m) && Early(start) !in m && Visits(m, Late(start), ranks, pids)
    ensures Visits(p, start, Numbers(ranks), pids)
  {
    hide Merged, BeforeGap;
    var keys := Numbers(ranks);
    forall i | 0 <= i < |keys|
      ensures keys[i] in p && p[keys[i]] == Some(pids[i])
    {
      MergedNumber(p, m, ranks[i]);
    }
    forall i, j | 0 <= i < j < |keys|
      ensures keys[i] < keys[j]
    {
      MergedNumber(p, m, ranks[i]);
      MergedNumber(p, m, ranks[j]);
    }
    forall n
      ensures n in keys <==> BeforeGap(p, start, n)
    {
      if n in keys {
        var i :| 0 <= i < |keys| && keys[i] == n;
        assert ranks[i] in ranks;
        MergedGap(p, m, start, ranks[i]);
      }
      if BeforeGap(p, start, n) {
        GapEntry(p, start, n);
        var r := if Late(n) in m then Late(n) else Early(n);
        MergedRank(p, m, n);
        MergedGap(p, m, start, r);
        var i :| 0 <= i < |ranks| && ranks[i] == r;
        assert keys[i] == n;
      }
    }
  }

  lemma GapEntry(m: Entries, start: int, n: int)
    requires BeforeGap(m, start, n)
    ensures n in m && start <= n
  {
  }

  lemma MergedGap(p: Entries, m: Entries, start: int, r: int)
    requires Merged(p, m) && Early(start) !in m && r in m
    ensures BeforeGap(m, Late(start), r) <==> BeforeGap(p, start, Number(r))
  {
    hide Merged;
    MergedNumber(p, m, r);
    if BeforeGap(p, start, Number(r)) {
      forall b | b in m && Late(start) <= b <= r
        ensures m[b] != None
      {
        MergedNumber(p, m, b);
      }
    }
    if BeforeGap(m, Late(start), r) {
      forall b | b in p && start <= b <= Number(r)
        ensures p[b] != None
      {
        MergedRank(p, m, b);
        MergedNumber(p, m, if Late(b) in m then Late(b) else Early(b));
      }
    }
  }

  /** Equal replies of two lists that are related, to an operation that follows the discipline. */
  lemma SameReply(d: Discipline, p: Entries, m: Entries, op: Op, r: Reply, q: Reply)
    requires Related(d, p, m) && Admits(d, op, p, m) && PlainReply(p, op, r) && RbReply(m, op, q)
    ensures r == q
  {
    hide Merged, Shadowed, Visits, IsFirstValue;
    if d.ReserveFirst? {
      ShadowedReply(p, m, op, r, q);
    } else if op.FindGe? {
      MergedFirst(p, m, op.key, q.pid);
      FirstValueUnique(p, op.key, r.pid, q.pid);
    } else if op.Enumerate? {
      var keys :| Visits(p, op.key, keys, r.pids);
      var ranks :| Visits(m, Late(op.key), ranks, q.pids);
      MergedVisits(p, m, op.key, ranks, q.pids);
      VisitsUnique(p, op.key, keys, r.pids, Numbers(ranks), q.pids);
    } else {
      MergedReply(p, m, op, r, q);
    }
  }

  lemma MergedReply(p: Entries, m: Entries, op: Op, r: Reply, q: Reply)
    requires Merged(p, m) && Early(op.key) !in m && !op.FindGe? && !op.Enumerate?
    requires PlainReply(p, op, r) && RbReply(m, op, q)
    ensures r == q
  {
    assert MergedAt(p, m, op.key);
  }

  lemma ShadowedReply(p: Entries, m: Entries, op: Op, r: Reply, q: Reply)
    requires Shadowed(p, m) && Admits(ReserveFirst, op, p, m) && PlainReply(p, op, r) && RbReply(m, op, q)
    ensures r == q
  {
    assert ShadowedAt(p, m, op.key);
  }

  // ---------------------------------------------------------------- the two lists on the heap

  method StepPlain(list: SkipList, op: Op) returns (r: Reply)
    requires list.Plain() && InRange(op)
    modifies list.Repr()
    ensures list.Plain() && fresh(list.Repr() - old(list.Repr()))
    ensures PlainReply(old(list.Entries()), op, r) && list.Entries() == PlainNext(old(list.Entries()), op)
  {
    hide SkipList.Mirrored, WellSized, Chained, Capped, Quiet, UniqueKeys, Contents, Ordinary, IsFirstValue, Visits;
    match op
    case Insert(k, pid, draw, oom) =>
      var ok := list.Insert(k, pid, draw, oom);
      r := Status(ok);
    case Remove(k) =>
      list.Remove(k);
      r := Nothing;
    case Lookup(k) =>
      var pid := list.Lookup(k);
      r := Value(pid);
    case FindGe(k) =>
      var pid := list.FindGe(k);
      r := Value(pid);
    case Enumerate(k) =>
      var pids := list.Enumerate(k);
      r := Pids(pids);
  }

  method StepRb(rb: RbSkipList, op: Op) returns (r: Reply)
    requires rb.Valid() && InRange(op)
    modifies rb.Repr()
    ensures rb.Valid() && fresh(rb.Repr() - old(rb.Repr()))
    ensures RbReply(old(Contents(rb.list.st)), op, r) && Contents(rb.list.st) == RbNext(old(Contents(rb.list.st)), op)
  {
    hide SkipList.Mirrored, WellSized, Chained, Capped, Quiet, UniqueKeys, Contents, Ordinary, IsFirstValue, Visits;
    hide Indexed, Ordered, Nodes, Keys, Inserted;
    OrdinaryAt(Contents(rb.list.st), op.key);
    match op
    case Insert(k, pid, draw, oom) =>
      var ok := rb.Insert(k, pid, draw, oom);
      r := Status(ok);
    case Remove(k) =>
      rb.Remove(k);
      r := Nothing;
    case Lookup(k) =>
      var pid := rb.Lookup(k);
      r := Value(pid);
    case FindGe(k) =>
      var pid := rb.FindGe(k);
      r := Value(pid);
    case Enumerate(k) =>
      var pids := rb.Enumerate(k);
      r := Pids(pids);
  }

  ghost function Both(list: SkipList, rb: RbSkipList): set<object>
    reads list, rb, rb.list
  {
    list.Repr() + rb.Repr()
  }

  /** Two separate lists. */
  ghost predicate Apart(list: SkipList, rb: RbSkipList)
    reads list, list.st.nodes.Keys, set n: PidNode | n in list.st.nodes.Keys :: n.forward
    reads rb, rb.list, rb.list.st.nodes.Keys, set n: PidNode | n in rb.list.st.nodes.Keys :: n.forward
  {
    list.Plain() && rb.Valid() && list.Repr() !! rb.Repr()
  }

  /** What the two lists hold. */
  ghost function PlainState(list: SkipList): Entries
    reads list
  {
    if UniqueKeys(list.st) then list.Entries() else map[]
  }

  ghost function RbState(rb: RbSkipList): Entries
    reads rb, rb.list
  {
    if UniqueKeys(rb.list.st) then Contents(rb.list.st) else map[]
  }

  method PlainHalf(list: SkipList, rb: RbSkipList, op: Op) returns (r: Reply)
    requires Apart(list, rb) && InRange(op)
    modifies list.Repr()
    ensures Apart(list, rb) && fresh(list.Repr() - old(list.Repr()))
    ensures rb.Repr() == old(rb.Repr()) && RbState(rb) == old(RbState(rb))
    ensures PlainReply(old(PlainState(list)), op, r) && PlainState(list) == PlainNext(old(PlainState(list)), op)
  {
    hide SkipList.Mirrored, WellSized, Chained, Capped, Quiet, UniqueKeys, Contents, Ordinary, Indexed, Ordered, Nodes,
         Keys;
    hide PlainReply, PlainNext;
    r := StepPlain(list, op);
  }

  method SeededHalf(list: SkipList, rb: RbSkipList, op: Op) returns (r: Reply)
    requires Apart(list, rb) && InRange(op)
    modifies rb.Repr()
    ensures Apart(list, rb) && fresh(rb.Repr() - old(rb.Repr()))
    ensures list.Repr() == old(list.Repr()) && PlainState(list) == old(PlainState(list))
    ensures RbReply(old(RbState(rb)), op, r) && RbState(rb) == RbNext(old(RbState(rb)), op)
  {
    hide SkipList.Mirrored, WellSized, Chained, Capped, Quiet, UniqueKeys, Contents, Ordinary, Indexed, Ordered, Nodes,
         Keys;
    hide RbReply, RbNext;
    r := StepRb(rb, op);
  }

  method StepBoth(ghost d: Discipline, list: SkipList, rb: RbSkipList, op: Op) returns (r: Reply, q: Reply)
    requires Apart(list, rb) && Related(d, PlainState(list), RbState(rb))
    requires InRange(op) && Admits(d, op, PlainState(list), RbState(rb))
    modifies Both(list, rb)
    ensures Apart(list, rb) && Related(d, PlainState(list), RbState(rb))
    ensures fresh(Both(list, rb) - old(Both(list, rb))) && r == q
    ensures PlainState(list) == PlainNext(old(PlainState(list)), op) && RbState(rb) == RbNext(old(RbState(rb)), op)
  {
    hide SkipList.Plain, RbSkipList.Valid, PlainState, RbState, Related, Admits, InRange;
    hide PlainReply, RbReply, PlainNext, RbNext;
    ghost var p, m := PlainState(list), RbState(rb);
    r := PlainHalf(list, rb, op);
    q := SeededHalf(list, rb, op);
    SameReply(d, p, m, op, r, q);
    RelatedNext(d, op, p, m);
  }

  /**
   Any run that follows one of the disciplines, on the two lists at once: the same replies,
   step for step.
   */
  method RunBoth(ghost d: Discipline, list: SkipList, rb: RbSkipList, ops: seq<Op>)
    returns (plain: seq<Reply>, seeded: seq<Reply>)
    requires Apart(list, rb) && Related(d, PlainState(list), RbState(rb))
    requires Follows(d, ops, PlainState(list), RbState(rb))
    modifies Both(list, rb)
    ensures Apart(list, rb) && Related(d, PlainState(list), RbState(rb))
    ensures |plain| == |ops| && plain == seeded && RbState(rb) == RbAfter(ops, old(RbState(rb)))
    decreases |ops|
  {
    hide Apart, PlainState, RbState, Related, Admits, InRange, PlainNext, RbNext;
    plain, seeded := [], [];
    if ops != [] {
      var r, q := StepBoth(d, list, rb, ops[0]);
      plain, seeded := RunBoth(d, list, rb, ops[1..]);
      plain, seeded := [r] + plain, [q] + seeded;
    }
  }

  // ---------------------------------------------------------------- runs from the creation of the lists on

  lemma {:induction false} NoZeroDrawFollows(ops: seq<Op>, p: Entries, m: Entries)
    requires AllLate(m) && forall op | op in ops :: InRange(op) && (op.Insert? ==> op.draw != 0)
    ensures Follows(KeepOffTree, ops, p, m) && AllLate(RbAfter(ops, m))
  {
    if ops != [] {
      assert ops[0] in ops;
      NoZeroDrawFollows(ops[1..], PlainNext(p, ops[0]), RbNext(m, ops[0]));
    }
  }

  /**
   Without a draw of 0 the tree stays empty and the seeded list is the plain list, whatever the
   operations, their numbers, the draws and the failing allocations are.
   */
  method RunWithoutZeroDraw(ops: seq<Op>) returns (plain: seq<Reply>, seeded: seq<Reply>)
    requires forall op | op in ops :: InRange(op) && (op.Insert? ==> op.draw != 0)
    ensures |plain| == |ops| && plain == seeded
  {
    NoZeroDrawFollows(ops, map[], map[]);
    plain, seeded := RunFromStart(KeepOffTree, ops);
  }

  method RunFromStart(ghost d: Discipline, ops: seq<Op>) returns (plain: seq<Reply>, seeded: seq<Reply>)
    requires Follows(d, ops, map[], map[])
    ensures |plain| == |ops| && plain == seeded
  {
    hide SkipList.Mirrored, WellSized, Chained, Capped, Quiet, UniqueKeys, Contents, Ordinary, Indexed, Ordered, Nodes,
         Keys;
    hide Follows, RbAfter, InRange, Related;
    var list := new SkipList();
    var rb := new RbSkipList();
    EmptyRelated(d);
    plain, seeded := RunBoth(d, list, rb, ops);
  }

  /** Numbers are reserved before they are published, and publication does not run out of memory. */
  ghost predicate ReservesFirst(ops: seq<Op>, p: Entries) {
    ops != [] ==>
      && InRange(ops[0]) && !ops[0].FindGe? && !ops[0].Enumerate?
      && (ops[0].Insert? ==> (ops[0].pid.Some? ==> ops[0].key in p) && (ops[0].key in p ==> !ops[0].oom))
      && ReservesFirst(ops[1..], PlainNext(p, ops[0]))
  }

  lemma {:induction false} ReservesFirstFollows(ops: seq<Op>, p: Entries, m: Entries)
    requires ReservesFirst(ops, p)
    ensures Follows(ReserveFirst, ops, p, m)
  {
    if ops != [] {
      ReservesFirstFollows(ops[1..], PlainNext(p, ops[0]), RbNext(m, ops[0]));
    }
  }

  /**
   The allocator's insertions, removals and lookups have the same replies from both lists,
   whatever the draws are.
   */
  method RunReservingFirst(ops: seq<Op>) returns (plain: seq<Reply>, seeded: seq<Reply>)
    requires ReservesFirst(ops, map[])
    ensures |plain| == |ops| && plain == seeded
  {
    ReservesFirstFollows(ops, map[], map[]);
    plain, seeded := RunFromStart(ReserveFirst, ops);
  }

  /** In related lists the lookups of a number agree unless its only node is a tree node with a pid. */
  lemma LookupsAgree(d: Discipline, p: Entries, m: Entries, k: int)
    requires Related(d, p, m)
    ensures (forall r :: PlainReply(p, Lookup(k), r) <==> RbReply(m, Lookup(k), r))
       <==> (Early(k) in m && Late(k) !in m ==> m[Early(k)] == None)
  {
    if d.KeepOffTree? {
      assert MergedAt(p, m, k);
    } else {
      assert ShadowedAt(p, m, k);
    }
    assert PlainReply(p, Lookup(k), Value(ValueAt(p, k)));
    assert RbReply(m, Lookup(k), Value(ValueAt(m, Late(k))));
  }

  /**
   Publishing a reserved number needs no memory in the plain list.  In the seeded list it is a
   second insertion if the reservation is in the tree, and then fails without memory, leaving the
   number reserved and the pid nowhere.
   */
  lemma PublicationsAgree(p: Entries, m: Entries, k: int, pid: Pid, draw: Draw, oom: bool)
    requires Shadowed(p, m) && k in p
    ensures var op := Insert(k, Some(pid), draw, oom);
            && ((forall r :: PlainReply(p, op, r) <==> RbReply(m, op, r)) <==> (oom ==> Late(k) in m))
            && PlainNext(p, op)[k] == Some(pid)
            && (ValueAt(RbNext(m, op), Late(k)) == Some(pid) <==> (oom ==> Late(k) in m))
  {
    hide Late, Early;
    assert ShadowedAt(p, m, k);
    RanksApart(k, k);
    assert PlainReply(p, Insert(k, Some(pid), draw, oom), Status(true));
  }

  // ---------------------------------------------------------------- what becomes of a tree entry

  /** A tree entry is there for good: no operation removes it or changes its value. */
  lemma {:induction false} TreeEntryStays(ops: seq<Op>, m: Entries, k: int)
    requires Early(k) in m
    ensures Early(k) in RbAfter(ops, m) && RbAfter(ops, m)[Early(k)] == m[Early(k)]
  {
    if ops != [] {
      RanksApart(k, ops[0].key);
      TreeEntryStays(ops[1..], RbNext(m, ops[0]), k);
    }
  }

  /**
   If the reservation of a number became a tree entry, every later enumeration from below that
   number stops there, whatever the operations in between.
   */
  lemma IterationCut(ops: seq<Op>, m: Entries, k: int, start: int, pids: seq<Pid>)
    requires Early(k) in m && m[Early(k)] == None && start < k
    requires RbReply(RbAfter(ops, m), Enumerate(start), Pids(pids))
    ensures exists ranks ::
              Visits(RbAfter(ops, m), Late(start), ranks, pids) && forall r | r in ranks :: start <= Number(r) < k
  {
    var m' := RbAfter(ops, m);
    TreeEntryStays(ops, m, k);
    SeedsAt(m', k);
    var ranks :| Visits(m', Late(start), ranks, pids);
    CutAtSeed(m', k, start, ranks, pids);
  }

  lemma ShadowedRank(p: Entries, m: Entries, r: int)
    requires Shadowed(p, m) && r in m && m[r] != None
    ensures r == Late(Number(r)) && Number(r) in p && p[Number(r)] == m[r]
  {
    assert ShadowedAt(p, m, Number(r));
    assert r == Late(Number(r)) || r == Early(Number(r));
  }

  /** The tree keys beyond the start are all beyond `x`. */
  ghost predicate TreeBeyond(m: Entries, start: int, x: int) {
    forall k | Early(k) in m && start < k :: x < k
  }

  /** A start that is reserved in the tree, and not published, is stepped past. */
  ghost function Onset(p: Entries, m: Entries, start: int): int {
    if start in p && Late(start) !in m then start + 1 else start
  }

  lemma ShadowedGap(p: Entries, m: Entries, start: int, x: int)
    requires Shadowed(p, m)
    ensures BeforeGap(m, Late(start), Late(x)) <==> BeforeGap(p, Onset(p, m, start), x) && TreeBeyond(m, start, x)
    ensures BeforeGap(p, Onset(p, m, start), x) ==> x in p
  {
    hide Shadowed;
    var from := Onset(p, m, start);
    if BeforeGap(m, Late(start), Late(x)) {
      ShadowedRank(p, m, Late(x));
      forall b | b in p && from <= b <= x
        ensures p[b] != None
      {
        ShadowedNumber(p, m, b);
      }
      forall k | Early(k) in m && start < k
        ensures x < k
      {
        ShadowedSeed(p, m, k);
      }
    }
    if BeforeGap(p, from, x) && TreeBeyond(m, start, x) {
      ShadowedNumber(p, m, x);
      forall b | b in m && Late(start) <= b <= Late(x)
        ensures m[b] != None
      {
        if b != Early(Number(b)) {
          assert b == Late(Number(b));
          ShadowedLate(p, m, Number(b));
        }
      }
    }
  }

  lemma ShadowedNumber(p: Entries, m: Entries, b: int)
    requires Shadowed(p, m) && b in p
    ensures if Late(b) in m then p[b] == m[Late(b)] else p[b] == None && Early(b) in m && m[Early(b)] == None
  {
    assert ShadowedAt(p, m, b);
  }

  lemma ShadowedLate(p: Entries, m: Entries, b: int)
    requires Shadowed(p, m) && Late(b) in m
    ensures b in p && p[b] == m[Late(b)]
  {
    assert ShadowedAt(p, m, b);
  }

  lemma ShadowedSeed(p: Entries, m: Entries, k: int)
    requires Shadowed(p, m) && Early(k) in m
    ensures m[Early(k)] == None
  {
    assert ShadowedAt(p, m, k);
  }

  /**
   Under the allocator's discipline the enumeration of the seeded list is the initial part of that
   of the plain list, and the whole of it exactly if no tree key beyond the start comes before a
   number enumerated there.  If the start itself is stepped past, the plain list is to be taken
   from the next number on.
   */
  lemma EnumerationCut(p: Entries, m: Entries, start: int, keys: seq<int>, pids: seq<Pid>, ranks: seq<int>,
                       cut: seq<Pid>)
    requires Shadowed(p, m)
    requires Visits(p, Onset(p, m, start), keys, pids) && Visits(m, Late(start), ranks, cut)
    ensures cut <= pids
    ensures cut == pids <==> forall k, i | Early(k) in m && start < k && 0 <= i < |keys| :: keys[i] < k
  {
    hide Onset;
    hide Shadowed, BeforeGap, Late, Early;
    var numbers := Numbers(ranks);
    NumbersVisited(p, m, start, ranks, cut);
    forall x | x in numbers
      ensures x in keys
    {
      ShadowedGap(p, m, start, x);
    }
    forall x, y | x in keys && y in numbers && x <= y
      ensures x in numbers
    {
      ShadowedGap(p, m, start, y);
      ShadowedGap(p, m, start, x);
    }
    RisingPrefix(numbers, keys);
    if forall k, i | Early(k) in m && start < k && 0 <= i < |keys| :: keys[i] < k {
      forall x | x in keys
        ensures x in numbers
      {
        ShadowedGap(p, m, start, x);
      }
      RisingPrefix(keys, numbers);
    }
    if cut == pids {
      assert numbers == keys;
      forall i | 0 <= i < |keys|
        ensures TreeBeyond(m, start, keys[i])
      {
        assert keys[i] in numbers;
        ShadowedGap(p, m, start, keys[i]);
      }
    }
  }

  /** The plain list gives nothing from a start that the seeded list steps past. */
  lemma EnumerationPassed(p: Entries, m: Entries, start: int, keys: seq<int>, pids: seq<Pid>)
    requires Shadowed(p, m) && Onset(p, m, start) != start && Visits(p, start, keys, pids)
    ensures pids == []
  {
    hide Visits;
    ShadowedNumber(p, m, start);
    NoneVisited(p, start, start);
    VisitsUnique(p, start, keys, pids, [], []);
  }

  /**
   find_ge under the allocator's discipline.  The seeded list gives the first value from the
   onset, or NULL if a tree key beyond the number asked for comes before it; the two replies agree
   exactly if the plain one is NULL or no such key comes first, and, where the number asked for
   is stepped past, exactly if the seeded one is NULL.
   */
  lemma FindGeAgrees(p: Entries, m: Entries, k: int, v: Option<Pid>, w: Option<Pid>, first: Option<int>)
    requires Shadowed(p, m) && IsLeastFrom(p, Onset(p, m, k), first)
    requires PlainReply(p, FindGe(k), Value(v)) && RbReply(m, FindGe(k), Value(w))
    ensures w == if first.Some? && TreeBeyond(m, k, first.value) then p[first.value] else None
    ensures v == w <==> if Onset(p, m, k) != k then w == None
                        else v == None || (first.Some? && TreeBeyond(m, k, first.value))
  {
    hide Shadowed, Late, Early, TreeBeyond, Onset;
    var q :| IsLeastFrom(p, k, q) && v == if q.None? then None else ValueAt(p, q.value);
    var r :| IsLeastFrom(m, Late(k), r) && w == if r.None? then None else ValueAt(m, r.value);
    SeededFirst(p, m, k, r, first);
    PlainFirst(p, m, k, q, first);
  }

  lemma PlainFirst(p: Entries, m: Entries, k: int, q: Option<int>, first: Option<int>)
    requires Shadowed(p, m) && IsLeastFrom(p, k, q) && IsLeastFrom(p, Onset(p, m, k), first)
    ensures if Onset(p, m, k) != k then q == Some(k) && p[k] == None else q == first
  {
    hide Shadowed;
    if k in p {
      ShadowedNumber(p, m, k);
    }
  }

  lemma SeededFirst(p: Entries, m: Entries, k: int, r: Option<int>, first: Option<int>)
    requires Shadowed(p, m) && IsLeastFrom(m, Late(k), r) && IsLeastFrom(p, Onset(p, m, k), first)
    ensures (if r.None? then None else m[r.value])
         == if first.Some? && TreeBeyond(m, k, first.value) then p[first.value] else None
  {
    hide Shadowed;
    if r.Some? {
      var j := Number(r.value);
      if r.value == Early(j) {
        ShadowedSeed(p, m, j);
      } else {
        assert r.value == Late(j);
        ShadowedLate(p, m, j);
      }
    }
    if first.Some? {
      ShadowedNumber(p, m, first.value);
    }
  }

  /** What the seeded list enumerates, by number. */
  lemma NumbersVisited(p: Entries, m: Entries, start: int, ranks: seq<int>, cut: seq<Pid>)
    requires Shadowed(p, m) && Visits(m, Late(start), ranks, cut)
    ensures var numbers := Numbers(ranks);
            && |numbers| == |cut|
            && (forall i | 0 <= i < |numbers| :: numbers[i] in p && p[numbers[i]] == Some(cut[i]))
            && (forall i, j | 0 <= i < j < |numbers| :: numbers[i] < numbers[j])
            && forall x :: x in numbers <==> BeforeGap(m, Late(start), Late(x))
  {
    hide Shadowed, BeforeGap;
    var numbers := Numbers(ranks);
    forall i | 0 <= i < |ranks|
      ensures numbers[i] in p && ranks[i] == Late(numbers[i]) && p[numbers[i]] == Some(cut[i])
    {
      ShadowedRank(p, m, ranks[i]);
    }
    forall x
      ensures x in numbers <==> BeforeGap(m, Late(start), Late(x))
    {
      if x in numbers {
        var i :| 0 <= i < |numbers| && numbers[i] == x;
        assert ranks[i] in ranks;
      }
      if BeforeGap(m, Late(start), Late(x)) {
        var i :| 0 <= i < |ranks| && ranks[i] == Late(x);
        assert numbers[i] == x;
      }
    }
  }

  /**
   A run that shows it: number 5 is reserved with the draw 0, then published, and the loop of
   zap_pid_ns_processes, started at 2, never comes to it in the seeded list.
   */
  method CutShort(p: Pid) returns (plain: seq<Pid>, seeded: seq<Pid>)
    ensures plain == [p] && seeded == []
  {
    hide SkipList.Mirrored, WellSized, Chained, Capped, Quiet, UniqueKeys, Contents, Ordinary, Indexed, Ordered, Nodes,
         Keys;
    hide Visits;
    var list := new SkipList();
    var r := StepPlain(list, Insert(5, None, 0, false));
    r := StepPlain(list, Insert(5, Some(p), 1, false));
    plain := list.Enumerate(2);
    ghost var keys :| Visits(list.Entries(), 2, keys, plain);
    OneVisited(list.Entries(), 5, p, 2);
    VisitsUnique(list.Entries(), 2, keys, plain, [5], [p]);
    seeded := CutShortSeeded(p);
  }

  method CutShortSeeded(p: Pid) returns (seeded: seq<Pid>)
    ensures seeded == []
  {
    hide SkipList.Mirrored, WellSized, Chained, Capped, Quiet, UniqueKeys, Contents, Ordinary, Indexed, Ordered, Nodes,
         Keys;
    hide Visits;
    var rb := new RbSkipList();
    var found := rb.InsertAndLookup(5, None, 0);
    found := rb.InsertAndLookup(5, Some(p), 1);
    seeded := rb.Enumerate(2);
    ghost var ranks :| Visits(Contents(rb.list.st), Late(2), ranks, seeded);
    NoneVisited(Contents(rb.list.st), Early(5), Late(2));
    VisitsUnique(Contents(rb.list.st), Late(2), ranks, seeded, [], []);
  }

  /**
   The other way to differ: number 2 is reserved with the draw 0 and not published yet, and 5 is.
   From 2, the loop is given nothing in the plain list and the pid of 5 in the seeded one, and
   so are the two calls of find_ge.
   */
  method PassedOver(p: Pid) returns (plain: seq<Pid>, seeded: seq<Pid>, first: Option<Pid>, seededFirst: Option<Pid>)
    ensures plain == [] && seeded == [p] && first == None && seededFirst == Some(p)
  {
    hide SkipList.Mirrored, WellSized, Chained, Capped, Quiet, UniqueKeys, Contents, Ordinary, Indexed, Ordered, Nodes,
         Keys;
    hide Visits;
    var list := new SkipList();
    var r := StepPlain(list, Insert(2, None, 0, false));
    r := StepPlain(list, Insert(5, Some(p), 1, false));
    plain := list.Enumerate(2);
    ghost var keys :| Visits(list.Entries(), 2, keys, plain);
    NoneVisited(list.Entries(), 2, 2);
    VisitsUnique(list.Entries(), 2, keys, plain, [], []);
    first := list.FindGe(2);
    FirstVisited(list.Entries(), 2, keys, plain, first);
    seeded, seededFirst := PassedOverSeeded(p);
  }

  method PassedOverSeeded(p: Pid) returns (seeded: seq<Pid>, first: Option<Pid>)
    ensures seeded == [p] && first == Some(p)
  {
    hide SkipList.Mirrored, WellSized, Chained, Capped, Quiet, UniqueKeys, Contents, Ordinary, Indexed, Ordered, Nodes,
         Keys;
    hide Visits;
    var rb := new RbSkipList();
    var found := rb.InsertAndLookup(2, None, 0);
    found := rb.InsertAndLookup(5, Some(p), 1);
    seeded := rb.Enumerate(2);
    ghost var ranks :| Visits(Contents(rb.list.st), Late(2), ranks, seeded);
    OneVisited(Contents(rb.list.st), Late(5), p, Late(2));
    VisitsUnique(Contents(rb.list.st), Late(2), ranks, seeded, [Late(5)], [p]);
    first := rb.FindGe(2);
    FirstVisited(Contents(rb.list.st), Late(2), ranks, seeded, first);
  }

  /**
   Publication without memory: number 5 is reserved with the draw 0, and storing its pid fails and
   leaves no trace.
   */
  method PublicationFails(p: Pid) returns (ok: bool, found: Option<Pid>)
    ensures !ok && found == None
  {
    hide SkipList.Mirrored, WellSized, Chained, Capped, Quiet, UniqueKeys, Contents, Ordinary, Indexed, Ordered, Nodes,
         Keys;
    var rb := new RbSkipList();
    found := rb.InsertAndLookup(5, None, 0);
    var r := StepRb(rb, Insert(5, Some(p), 1, true));
    ok := r.ok;
    OrdinaryAt(Contents(rb.list.st), 5);
    found := rb.Lookup(5);
  }

  lemma OneVisited(m: Entries, k: int, p: Pid, start: int)
    requires start <= k && k in m && m[k] == Some(p) && forall j | j in m :: j == k || j < start
    ensures Visits(m, start, [k], [p])
  {
  }

  lemma NoneVisited(m: Entries, r: int, start: int)
    requires r in m && m[r] == None && forall q | q in m && start <= q :: r <= q
    requires start <= r
    ensures Visits(m, start, [], [])
  {
    forall n
      ensures !BeforeGap(m, start, n)
    {
    }
  }
}

/**
 Two places in the order for every number.  An ordinary node of number k stands at rank 2k + 1;
 a node that the seeded list has put into its search tree stands at rank 2k, just before an
 ordinary node of the same number.  The plain list has ordinary nodes only.
 */
module Ranks {
  import opened Options
  import opened Towers

  function Late(k: int): int {
    2 * k + 1
  }

  function Early(k: int): int {
    2 * k
  }

  /** The number whose node stands at rank r. */
  function Number(r: int): int {
    r / 2
  }

  predicate IsLate(r: int) {
    r % 2 == 1
  }

  /** The rank of the header, before all others. */
  const FIRST: int := 2 * INT_MIN

  /** The entries of ordinary nodes, by number. */
  ghost function Ordinary(m: Entries): Entries {
    map r | r in m && IsLate(r) :: Number(r) := m[r]
  }

  /** The entries of tree nodes, by number. */
  ghost function Seeds(m: Entries): Entries {
    map r | r in m && !IsLate(r) :: Number(r) := m[r]
  }

  /** There are ordinary entries only. */
  ghost predicate AllLate(m: Entries) {
    forall r | r in m :: IsLate(r)
  }

  lemma OrdinaryAt(m: Entries, k: int)
    ensures k in Ordinary(m) <==> Late(k) in m
    ensures k in Ordinary(m) ==> Ordinary(m)[k] == m[Late(k)]
    ensures ValueAt(Ordinary(m), k) == ValueAt(m, Late(k))
  {
    if Late(k) in m {
      assert IsLate(Late(k)) && Number(Late(k)) == k;
    }
    if k in Ordinary(m) {
      var r :| r in m && IsLate(r) && Number(r) == k;
      assert r == Late(k);
    }
  }

  lemma OrdinaryOfNone()
    ensures Ordinary(map[]) == map[]
  {
  }

  lemma SeedsAt(m: Entries, k: int)
    ensures k in Seeds(m) <==> Early(k) in m
    ensures k in Seeds(m) ==> Seeds(m)[k] == m[Early(k)]
  {
    if Early(k) in m {
      assert !IsLate(Early(k)) && Number(Early(k)) == k;
    }
    if k in Seeds(m) {
      var r :| r in m && !IsLate(r) && Number(r) == k;
      assert r == Early(k);
    }
  }

  /** A change at an ordinary rank is one of the ordinary entries, and of no other. */
  lemma LateChange(m: Entries, k: int, v: Option<Pid>)
    ensures Ordinary(m[Late(k) := v]) == Ordinary(m)[k := v] && Seeds(m[Late(k) := v]) == Seeds(m)
    ensures Ordinary(m - {Late(k)}) == Ordinary(m) - {k} && Seeds(m - {Late(k)}) == Seeds(m)
  {
    hide Ordinary, Seeds, Late, Early;
    var u, d := m[Late(k) := v], m - {Late(k)};
    forall j
      ensures j in Ordinary(u) <==> j in Ordinary(m)[k := v]
      ensures j in Ordinary(u) ==> Ordinary(u)[j] == Ordinary(m)[k := v][j]
      ensures j in Ordinary(d) <==> j in Ordinary(m) - {k}
      ensures j in Ordinary(d) ==> Ordinary(d)[j] == Ordinary(m)[j]
      ensures j in Seeds(u) <==> j in Seeds(m)
      ensures j in Seeds(u) ==> Seeds(u)[j] == Seeds(m)[j]
      ensures j in Seeds(d) <==> j in Seeds(m)
      ensures j in Seeds(d) ==> Seeds(d)[j] == Seeds(m)[j]
    {
      OrdinaryAt(m, j);
      OrdinaryAt(u, j);
      OrdinaryAt(d, j);
      SeedsAt(m, j);
      SeedsAt(u, j);
      SeedsAt(d, j);
      RanksApart(j, k);
    }
    assert Ordinary(u) == Ordinary(m)[k := v];
    assert Ordinary(d) == Ordinary(m) - {k};
    assert Seeds(u) == Seeds(m);
    assert Seeds(d) == Seeds(m);
  }

  lemma RanksApart(j: int, k: int)
    ensures Late(j) == Late(k) <==> j == k
    ensures Early(j) == Early(k) <==> j == k
    ensures Early(j) != Late(k)
  {
  }

  /** Among ordinary entries, the order of ranks is the order of numbers. */
  lemma LeastOrdinary(m: Entries, k: int, r: Option<int>)
    requires AllLate(m) && IsLeastFrom(m, Late(k), r)
    ensures IsLeastFrom(Ordinary(m), k, if r.None? then None else Some(Number(r.value)))
    ensures r.Some? ==> r.value == Late(Number(r.value)) && ValueAt(Ordinary(m), Number(r.value)) == ValueAt(m, r.value)
  {
    hide Ordinary;
    if r.Some? {
      assert r.value == Late(Number(r.value));
      OrdinaryAt(m, Number(r.value));
    }
    forall j | j in Ordinary(m) && k <= j
      ensures r.Some? && Number(r.value) <= j
    {
      OrdinaryAt(m, j);
      assert Late(k) <= Late(j);
    }
  }

  lemma FirstOrdinary(m: Entries, k: int, v: Option<Pid>)
    requires AllLate(m) && IsFirstValue(m, Late(k), v)
    ensures IsFirstValue(Ordinary(m), k, v)
  {
    var r :| IsLeastFrom(m, Late(k), r) && v == if r.None? then None else ValueAt(m, r.value);
    LeastOrdinary(m, k, r);
  }

  lemma FirstIsLeast(m: Entries, from: int, r: Option<int>)
    requires IsLeastFrom(m, from, r)
    ensures IsFirstValue(m, from, if r.None? then None else ValueAt(m, r.value))
  {
  }

  /** The ranks beyond that of number k among ordinary entries are those from number k + 1 on. */
  lemma NextRank(m: Entries, k: int, r: Option<int>)
    requires AllLate(m)
    ensures IsLeastFrom(m, Late(k) + 1, r) <==> IsLeastFrom(m, Late(k + 1), r)
  {
    forall j | j in m
      ensures Late(k) + 1 <= j <==> Late(k + 1) <= j
    {
      assert IsLate(j);
    }
  }

  /** Iteration stops at a tree entry that is reserved: nothing from its number on is met. */
  lemma CutAtSeed(m: Entries, k: int, start: int, keys: seq<int>, pids: seq<Pid>)
    requires k in Seeds(m) && Seeds(m)[k] == None && start < k && Visits(m, Late(start), keys, pids)
    ensures forall r | r in keys :: start <= Number(r) < k
  {
    SeedsAt(m, k);
    forall r | r in keys
      ensures start <= Number(r) < k
    {
      assert BeforeGap(m, Late(start), r);
      assert r < Early(k);
    }
  }
}

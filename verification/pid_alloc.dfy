/**
 Allocating and releasing a pid keep every index, counter and reference right, and cancel.
 */
module PidAlloc {
  import opened Options
  import opened PidModel
  import opened PidSteps
  import opened Counting

  // ---------------------------------------------------------------- shape

  /** Same namespaces at the same places in the forest. */
  ghost predicate SameShape(s: Spaces, t: Spaces) {
    t.Keys == s.Keys && forall n | n in s :: t[n].level == s[n].level && t[n].parent == s[n].parent
  }

  lemma ShapeKeeps(s: Spaces, u: Spaces, t: PidTable)
    requires SameShape(s, u) && Forest(s) && OnChains(s, t)
    ensures Forest(u) && OnChains(u, t)
    ensures forall n :: Children(u, n) == Children(s, n)
  {
    forall p | p in t
      ensures OnChain(u, t[p])
    {
      assert OnChain(s, t[p]);
    }
    forall n
      ensures Children(u, n) == Children(s, n)
    {
    }
  }

  // ---------------------------------------------------------------- allocation

  lemma ChosenFresh(s: Spaces, t: PidTable, ns: NsId, numbers: seq<Upid>, i: nat, nomem: set<(NsId, int)>, max: int)
    requires Forest(s) && ns in s && Exact(s, t) && max <= PID_MAX_LIMIT && Chosen(s, ns, numbers, i, nomem, max)
    ensures Fresh(s, ns, numbers, i)
  {
    forall l | i <= l < |numbers|
      ensures numbers[l].nr !in s[numbers[l].ns].index && 1 <= numbers[l].nr < PID_MAX_LIMIT
    {
      hide Exact, Forest, Ancestor;
      var u := numbers[l];
      if u.nr in s[u.ns].index {
        NothingReserved(s, t, u.ns, u.nr);
      }
    }
  }

  lemma NothingReserved(s: Spaces, t: PidTable, n: NsId, k: int)
    requires Exact(s, t) && n in s && k in s[n].index
    ensures s[n].index[k].Some? && Owned(s, t, n, k) && 1 <= k < PID_MAX_LIMIT
  {
    assert Owned(s, t, n, k);
  }

  /** What an allocation does to one namespace. */
  ghost predicate AllocAt(a: Namespace, n: NsId, ns: NsId, numbers: seq<Upid>, p: Pid, b: Namespace) {
    && b.level == a.level && b.parent == a.parent
    && b.kref == a.kref + (if n == ns && n != INIT_PID_NS then 1 else 0)
    && if a.level < |numbers| && numbers[a.level].ns == n then
         var nr := numbers[a.level].nr;
         && b.index == a.index[nr := Some(p)] && nr !in a.index && 1 <= nr < PID_MAX_LIMIT
         && b.pidAllocated == (a.pidAllocated + 1) % U32
       else b.index == a.index && b.pidAllocated == a.pidAllocated
  }

  ghost predicate AllocEffect(s: Spaces, ns: NsId, numbers: seq<Upid>, p: Pid, u: Spaces) {
    u.Keys == s.Keys && forall n | n in s :: AllocAt(s[n], n, ns, numbers, p, u[n])
  }

  lemma AllocHasEffect(s: Spaces, ns: NsId, numbers: seq<Upid>, p: Pid)
    requires Forest(s) && ns in s && Fresh(s, ns, numbers, 0)
    ensures AllocEffect(s, ns, numbers, p, Get(Stage(s, numbers, 0, 0, 0, p), ns))
  {
    hide Forest, Ancestor, AllocAt, StageOf;
    var t := Stage(s, numbers, 0, 0, 0, p);
    var u := Get(t, ns);
    assert u.Keys == s.Keys;
    forall n | n in s
      ensures AllocAt(s[n], n, ns, numbers, p, u[n])
    {
      assert t[n] == StageOf(s[n], n, numbers, 0, 0, 0, p);
      StageAt(s[n], n, ns, numbers, p);
    }
  }

  lemma StageAt(a: Namespace, n: NsId, ns: NsId, numbers: seq<Upid>, p: Pid)
    requires a.level < |numbers| && numbers[a.level].ns == n ==>
               numbers[a.level].nr !in a.index && 1 <= numbers[a.level].nr < PID_MAX_LIMIT
    ensures var b := StageOf(a, n, numbers, 0, 0, 0, p);
            AllocAt(a, n, ns, numbers, p, if n == ns && n != INIT_PID_NS then b.(kref := b.kref + 1) else b)
  {
  }

  lemma AllocOnChain(s: Spaces, ns: NsId, numbers: seq<Upid>)
    requires Forest(s) && ns in s && Fresh(s, ns, numbers, 0)
    ensures OnChain(s, PidRec(numbers, 1, Published)) && Leaf(PidRec(numbers, 1, Published)) == ns
  {
    forall l | 0 < l < |numbers|
      ensures s[numbers[l].ns].parent == numbers[l - 1].ns
    {
      AncestorParent(s, ns, l);
    }
  }

  lemma AllocIndexes(s: Spaces, t: PidTable, ns: NsId, numbers: seq<Upid>, p: Pid, u: Spaces)
    requires OnChains(s, t) && Hashed(s, t) && Exact(s, t) && AllocEffect(s, ns, numbers, p, u)
    requires OnChain(s, PidRec(numbers, 1, Published)) && p !in t
    ensures var t' := t[p := PidRec(numbers, 1, Published)]; OnChains(u, t') && Hashed(u, t') && Exact(u, t')
  {
    hide OnChains, Hashed, Exact, AllocEffect, OnChain;
    AllocChains(s, t, ns, numbers, p, u);
    AllocHashed(s, t, ns, numbers, p, u, t[p := PidRec(numbers, 1, Published)]);
    AllocExact(s, t, ns, numbers, p, u);
  }

  lemma AllocChains(s: Spaces, t: PidTable, ns: NsId, numbers: seq<Upid>, p: Pid, u: Spaces)
    requires OnChains(s, t) && AllocEffect(s, ns, numbers, p, u) && OnChain(s, PidRec(numbers, 1, Published))
    ensures OnChains(u, t[p := PidRec(numbers, 1, Published)])
  {
    var t' := t[p := PidRec(numbers, 1, Published)];
    forall n | n in s
      ensures u[n].level == s[n].level && u[n].parent == s[n].parent
    {
      assert AllocAt(s[n], n, ns, numbers, p, u[n]);
    }
    hide AllocEffect, AllocAt;
    forall q | q in t'
      ensures OnChain(u, t'[q])
    {
      assert OnChain(s, t'[q]);
    }
  }

  lemma AllocExact(s: Spaces, t: PidTable, ns: NsId, numbers: seq<Upid>, p: Pid, u: Spaces)
    requires Exact(s, t) && AllocEffect(s, ns, numbers, p, u) && p !in t
    ensures Exact(u, t[p := PidRec(numbers, 1, Published)])
  {
    var t' := t[p := PidRec(numbers, 1, Published)];
    forall n, k | n in u && k in u[n].index
      ensures 1 <= k < PID_MAX_LIMIT && Owned(u, t', n, k)
    {
      assert AllocAt(s[n], n, ns, numbers, p, u[n]);
      if k in s[n].index {
        assert Owned(s, t, n, k);
      }
    }
  }

  lemma AllocHashed(s: Spaces, t: PidTable, ns: NsId, numbers: seq<Upid>, p: Pid, u: Spaces, t': PidTable)
    requires OnChains(s, t) && Hashed(s, t) && AllocEffect(s, ns, numbers, p, u)
    requires OnChain(s, PidRec(numbers, 1, Published)) && p !in t && t' == t[p := PidRec(numbers, 1, Published)]
    requires OnChains(u, t')
    ensures Hashed(u, t')
  {
    forall q, l | q in t' && t'[q].phase == Published && 0 <= l < |t'[q].numbers|
      ensures var v := t'[q].numbers[l]; v.nr in u[v.ns].index && u[v.ns].index[v.nr] == Some(q)
    {
      var v := t'[q].numbers[l];
      assert OnChain(s, t'[q]);
      if q != p {
        assert v.nr in s[v.ns].index;
      }
    }
  }

  lemma IndexBound(s: Spaces, t: PidTable, n: NsId)
    requires Exact(s, t) && n in s
    ensures |s[n].index| < PID_MAX_LIMIT
  {
    hide Owned;
    forall k | k in s[n].index.Keys
      ensures 1 <= k < PID_MAX_LIMIT
    {
    }
    KeysBound(s[n].index.Keys, PID_MAX_LIMIT);
  }

  lemma AllocCounted(s: Spaces, t: PidTable, ns: NsId, numbers: seq<Upid>, p: Pid, u: Spaces)
    requires Exact(s, t) && Counted(s) && AllocEffect(s, ns, numbers, p, u)
    ensures Counted(u)
  {
    hide AllocAt, Exact;
    forall n | n in u
      ensures u[n].pidAllocated == |u[n].index| || u[n].pidAllocated == |u[n].index| + PIDNS_ADDING
    {
      IndexBound(s, t, n);
      AllocCountsOne(s[n], n, ns, numbers, p, u[n]);
    }
  }

  lemma AllocCountsOne(a: Namespace, n: NsId, ns: NsId, numbers: seq<Upid>, p: Pid, b: Namespace)
    requires AllocAt(a, n, ns, numbers, p, b) && |a.index| < PID_MAX_LIMIT
    requires a.pidAllocated == |a.index| || a.pidAllocated == |a.index| + PIDNS_ADDING
    ensures b.pidAllocated == |b.index| || b.pidAllocated == |b.index| + PIDNS_ADDING
  {
    if a.level < |numbers| && numbers[a.level].ns == n {
      assert b.index.Keys == a.index.Keys + {numbers[a.level].nr};
    }
  }

  lemma AllocReferenced(s: Spaces, t: PidTable, h: map<NsId, nat>, ns: NsId, numbers: seq<Upid>, p: Pid, u: Spaces)
    requires Referenced(s, t, h) && AllocEffect(s, ns, numbers, p, u) && p !in t
    requires 0 < |numbers| && numbers[|numbers| - 1].ns == ns
    ensures Referenced(u, t[p := PidRec(numbers, 1, Published)], h)
  {
    var t' := t[p := PidRec(numbers, 1, Published)];
    forall n | n in u && n != INIT_PID_NS
      ensures u[n].kref == Refs(u, t', h, n) && u[n].kref > 0
    {
      assert AllocAt(s[n], n, ns, numbers, p, u[n]);
      assert s[n].kref == Refs(s, t, h, n) && s[n].kref > 0;
      SameChildren(s, ns, numbers, p, u, n);
      AllocLeaf(t, ns, numbers, p, n);
      hide Referenced, AllocEffect, AllocAt, Children, LeafPids;
    }
  }

  lemma SameChildren(s: Spaces, ns: NsId, numbers: seq<Upid>, p: Pid, u: Spaces, n: NsId)
    requires AllocEffect(s, ns, numbers, p, u)
    ensures Children(u, n) == Children(s, n)
  {
    forall m | m in s
      ensures u[m].parent == s[m].parent
    {
      assert AllocAt(s[m], m, ns, numbers, p, u[m]);
    }
  }

  lemma AllocLeaf(t: PidTable, ns: NsId, numbers: seq<Upid>, p: Pid, n: NsId)
    requires p !in t && 0 < |numbers| && numbers[|numbers| - 1].ns == ns
    ensures |LeafPids(t[p := PidRec(numbers, 1, Published)], n)| == |LeafPids(t, n)| + if n == ns then 1 else 0
  {
    var r := PidRec(numbers, 1, Published);
    assert Leaf(r) == ns;
    hide Leaf;
    AddedLeaf(t, p, r, n);
  }

  lemma AddedLeaf(t: PidTable, p: Pid, r: PidRec, n: NsId)
    requires p !in t && 0 < |r.numbers|
    ensures LeafPids(t[p := r], n) == LeafPids(t, n) + if Leaf(r) == n then {p} else {}
    ensures |LeafPids(t[p := r], n)| == |LeafPids(t, n)| + if Leaf(r) == n then 1 else 0
  {
    hide Leaf;
    var added: set<Pid> := if Leaf(r) == n then {p} else {};
    forall q
      ensures q in LeafPids(t[p := r], n) <==> q in LeafPids(t, n) + added
    {
      if q != p && q in t {
        assert t[p := r][q] == t[q];
      }
    }
    assert LeafPids(t[p := r], n) == LeafPids(t, n) + added;
  }

  lemma AllocKeeps(a: State, ns: NsId, numbers: seq<Upid>, nomem: set<(NsId, int)>, b: State)
    requires Sound(a) && Allocates(a, ns, numbers, nomem, b)
    ensures Sound(b)
  {
    assert Forest(a.spaces);
    hide Consistent, Ranged, Forest;
    AllocConsistent(a, ns, numbers, nomem, b);
    AllocRanged(a, ns, numbers, nomem, b);
    hide Allocates;
  }

  lemma AllocConsistent(a: State, ns: NsId, numbers: seq<Upid>, nomem: set<(NsId, int)>, b: State)
    requires Consistent(a.spaces, a.pids, a.holders) && Ranged(a) && Allocates(a, ns, numbers, nomem, b)
    ensures Consistent(b.spaces, b.pids, b.holders)
  {
    var s, t, p := a.spaces, a.pids, a.nextPid;
    assert p !in t;
    ChosenFresh(s, t, ns, numbers, 0, nomem, a.pidMax);
    AllocHasEffect(s, ns, numbers, p);
    hide Consistent, Chosen, Stage, Get, Fresh, OnChains, Forest, AllocEffect, Ranged;
    AllocSteady(s, t, a.holders, ns, numbers, p, b.spaces);
  }

  lemma AllocRanged(a: State, ns: NsId, numbers: seq<Upid>, nomem: set<(NsId, int)>, b: State)
    requires Forest(a.spaces) && Ranged(a) && Allocates(a, ns, numbers, nomem, b)
    ensures Ranged(b)
  {
    hide Forest, Chosen;
  }

  lemma AllocSteady(s: Spaces, t: PidTable, h: map<NsId, nat>, ns: NsId, numbers: seq<Upid>, p: Pid, u: Spaces)
    requires Consistent(s, t, h) && ns in s && Fresh(s, ns, numbers, 0) && p !in t && AllocEffect(s, ns, numbers, p, u)
    ensures Consistent(u, t[p := PidRec(numbers, 1, Published)], h)
  {
    hide Fresh, OnChain, Leaf, Owned, Refs, AllocAt;
    hide Forest, Hashed, Exact, Counted, Referenced, OnChains, AllocEffect;
    AllocOnChain(s, ns, numbers);
    LastIsLeaf(PidRec(numbers, 1, Published));
    AllocIndexes(s, t, ns, numbers, p, u);
    AllocCounted(s, t, ns, numbers, p, u);
    AllocReferenced(s, t, h, ns, numbers, p, u);
    AllocForest(s, ns, numbers, p, u);
  }

  lemma LastIsLeaf(r: PidRec)
    requires 0 < |r.numbers|
    ensures Leaf(r) == r.numbers[|r.numbers| - 1].ns
  {
  }

  lemma AllocForest(s: Spaces, ns: NsId, numbers: seq<Upid>, p: Pid, u: Spaces)
    requires Forest(s) && AllocEffect(s, ns, numbers, p, u)
    ensures Forest(u)
  {
    forall n | n in s
      ensures u[n].level == s[n].level && u[n].parent == s[n].parent
    {
      assert AllocAt(s[n], n, ns, numbers, p, u[n]);
    }
  }

  // ---------------------------------------------------------------- release

  /** What the release of a published pid does to one namespace. */
  ghost predicate FreeAt(a: Namespace, n: NsId, numbers: seq<Upid>, b: Namespace) {
    && b.level == a.level && b.parent == a.parent && b.kref == a.kref && b.lastPid == a.lastPid
    && if a.level < |numbers| && numbers[a.level].ns == n then
         var nr := numbers[a.level].nr;
         && nr in a.index && b.index == a.index - {nr} && b.pidAllocated == Decremented(a.pidAllocated)
       else b.index == a.index && b.pidAllocated == a.pidAllocated
  }

  ghost predicate FreeEffect(s: Spaces, numbers: seq<Upid>, u: Spaces) {
    u.Keys == s.Keys && forall n | n in s :: FreeAt(s[n], n, numbers, u[n])
  }

  lemma FreeHasEffect(s: Spaces, t: PidTable, p: Pid)
    requires OnChains(s, t) && Hashed(s, t) && p in t && t[p].phase == Published
    ensures FreeEffect(s, t[p].numbers, Released(s, t[p].numbers, |t[p].numbers|))
  {
    var numbers := t[p].numbers;
    var u := Released(s, numbers, |numbers|);
    hide FreeAt, ReleasedOf;
    assert u.Keys == s.Keys;
    forall n | n in s
      ensures FreeAt(s[n], n, numbers, u[n])
    {
      assert u[n] == ReleasedOf(s[n], n, numbers, |numbers|);
      ReleasedAt(s[n], n, numbers);
    }
  }

  lemma ReleasedAt(a: Namespace, n: NsId, numbers: seq<Upid>)
    requires a.level < |numbers| && numbers[a.level].ns == n ==> numbers[a.level].nr in a.index
    ensures FreeAt(a, n, numbers, ReleasedOf(a, n, numbers, |numbers|))
  {
  }

  lemma FreeSameShape(s: Spaces, numbers: seq<Upid>, u: Spaces)
    requires FreeEffect(s, numbers, u)
    ensures SameShape(s, u) && forall n | n in s :: u[n].kref == s[n].kref
  {
    forall n | n in s
      ensures u[n].level == s[n].level && u[n].parent == s[n].parent && u[n].kref == s[n].kref
    {
      assert FreeAt(s[n], n, numbers, u[n]);
    }
  }

  lemma FreeHashed(s: Spaces, t: PidTable, p: Pid, u: Spaces)
    requires OnChains(s, t) && Hashed(s, t) && p in t && t[p].phase == Published && FreeEffect(s, t[p].numbers, u)
    requires OnChains(u, t[p := t[p].(phase := Unhashed)])
    ensures Hashed(u, t[p := t[p].(phase := Unhashed)])
  {
    var t' := t[p := t[p].(phase := Unhashed)];
    forall q, l | q in t' && t'[q].phase == Published && 0 <= l < |t'[q].numbers|
      ensures var v := t'[q].numbers[l]; v.nr in u[v.ns].index && u[v.ns].index[v.nr] == Some(q)
    {
      var v := t'[q].numbers[l];
      assert OnChain(s, t[q]) && OnChain(s, t[p]);
      assert v.nr in s[v.ns].index && s[v.ns].index[v.nr] == Some(q);
      assert FreeAt(s[v.ns], v.ns, t[p].numbers, u[v.ns]);
      if l < |t[p].numbers| && t[p].numbers[l].ns == v.ns {
        assert t[p].numbers[l].nr in s[v.ns].index && s[v.ns].index[t[p].numbers[l].nr] == Some(p);
      }
    }
  }

  lemma FreeExact(s: Spaces, t: PidTable, p: Pid, u: Spaces)
    requires Exact(s, t) && p in t && FreeEffect(s, t[p].numbers, u)
    ensures Exact(u, t[p := t[p].(phase := Unhashed)])
  {
    forall n, k | n in u && k in u[n].index
      ensures 1 <= k < PID_MAX_LIMIT && Owned(u, t[p := t[p].(phase := Unhashed)], n, k)
    {
      assert FreeAt(s[n], n, t[p].numbers, u[n]);
      assert Owned(s, t, n, k);
    }
  }

  lemma FreeCounted(s: Spaces, t: PidTable, numbers: seq<Upid>, u: Spaces)
    requires Exact(s, t) && Counted(s) && FreeEffect(s, numbers, u)
    ensures Counted(u)
  {
    hide FreeAt, Exact;
    forall n | n in u
      ensures u[n].pidAllocated == |u[n].index| || u[n].pidAllocated == |u[n].index| + PIDNS_ADDING
    {
      IndexBound(s, t, n);
      FreeCountsOne(s[n], n, numbers, u[n]);
    }
  }

  lemma FreeCountsOne(a: Namespace, n: NsId, numbers: seq<Upid>, b: Namespace)
    requires FreeAt(a, n, numbers, b) && |a.index| < PID_MAX_LIMIT
    requires a.pidAllocated == |a.index| || a.pidAllocated == |a.index| + PIDNS_ADDING
    ensures b.pidAllocated == |b.index| || b.pidAllocated == |b.index| + PIDNS_ADDING
    ensures Adding(b) ==> Adding(a)
  {
    if a.level < |numbers| && numbers[a.level].ns == n {
      var nr := numbers[a.level].nr;
      assert a.index.Keys == b.index.Keys + {nr};
      assert |a.index.Keys| == |b.index.Keys| + 1;
    }
  }

  /** Nothing a namespace's references depend on has changed. */
  lemma SameReferenced(s: Spaces, t: PidTable, h: map<NsId, nat>, u: Spaces, t': PidTable)
    requires Referenced(s, t, h) && SameShape(s, u) && forall n | n in s :: u[n].kref == s[n].kref
    requires t'.Keys == t.Keys && forall p | p in t :: t'[p].numbers == t[p].numbers
    ensures Referenced(u, t', h)
  {
    forall n | n in u && n != INIT_PID_NS
      ensures u[n].kref == Refs(u, t', h, n) && u[n].kref > 0
    {
      assert s[n].kref == Refs(s, t, h, n) && s[n].kref > 0;
      assert Children(u, n) == Children(s, n);
      SameLeaves(t, t', n);
    }
  }

  lemma SameLeaves(t: PidTable, t': PidTable, n: NsId)
    requires t'.Keys == t.Keys && forall p | p in t :: t'[p].numbers == t[p].numbers
    ensures LeafPids(t', n) == LeafPids(t, n)
  {
    forall q
      ensures q in LeafPids(t', n) <==> q in LeafPids(t, n)
    {
    }
  }

  lemma SamePlaces(s: Spaces, t: PidTable, u: Spaces, t': PidTable)
    requires Forest(s) && OnChains(s, t) && SameShape(s, u)
    requires t'.Keys == t.Keys && forall p | p in t :: t'[p].numbers == t[p].numbers
    ensures Forest(u) && OnChains(u, t')
  {
    forall p | p in t'
      ensures OnChain(u, t'[p])
    {
      assert OnChain(s, t[p]);
    }
  }

  lemma FreeKeeps(a: State, p: Pid, b: State)
    requires Sound(a) && Frees(a, p, b)
    ensures Sound(b)
  {
    FreeHasEffect(a.spaces, a.pids, p);
    FreeSteady(a.spaces, a.pids, a.holders, p, b.spaces);
    FreeSameShape(a.spaces, a.pids[p].numbers, b.spaces);
    hide Consistent, OnChains, Forest, Released, FreeAt;
  }

  lemma FreeSteady(s: Spaces, t: PidTable, h: map<NsId, nat>, p: Pid, u: Spaces)
    requires Consistent(s, t, h) && p in t && t[p].phase == Published && FreeEffect(s, t[p].numbers, u)
    ensures Consistent(u, t[p := t[p].(phase := Unhashed)], h)
  {
    hide Forest, OnChains, OnChain, Hashed, Exact, Counted, Referenced, FreeEffect, SameShape, FreeAt, PidRefs;
    FreePlaces(s, t, h, p, u);
    FreeHashed(s, t, p, u);
    FreeExact(s, t, p, u);
    FreeCounted(s, t, t[p].numbers, u);
  }

  lemma FreePlaces(s: Spaces, t: PidTable, h: map<NsId, nat>, p: Pid, u: Spaces)
    requires Forest(s) && OnChains(s, t) && Referenced(s, t, h) && PidRefs(t)
    requires p in t && t[p].phase == Published && FreeEffect(s, t[p].numbers, u)
    ensures var t' := t[p := t[p].(phase := Unhashed)];
            Forest(u) && OnChains(u, t') && Referenced(u, t', h) && PidRefs(t')
  {
    hide Forest, OnChains, OnChain, Referenced, FreeEffect, FreeAt, SameShape;
    var t' := t[p := t[p].(phase := Unhashed)];
    FreeSameShape(s, t[p].numbers, u);
    SamePlaces(s, t, u, t');
    SameReferenced(s, t, h, u, t');
  }

  /**
   Releasing a pid undoes its allocation: every index is as it was, and so is every counter,
   except that a namespace of the pid that was open and empty is closed.
   */
  lemma FreeUndoesAlloc(a: State, ns: NsId, numbers: seq<Upid>, nomem: set<(NsId, int)>, b: State, c: State, n: NsId)
    requires Sound(a) && Allocates(a, ns, numbers, nomem, b) && Sound(b) && Frees(b, a.nextPid, c)
    requires n in a.spaces
    ensures n in c.spaces && c.spaces[n].index == a.spaces[n].index
    ensures c.spaces[n].pidAllocated ==
              if a.spaces[n].pidAllocated == PIDNS_ADDING && (exists u :: u in numbers && u.ns == n) then 0
              else a.spaces[n].pidAllocated
  {
    var s, p := a.spaces, a.nextPid;
    ChosenFresh(s, a.pids, ns, numbers, 0, nomem, a.pidMax);
    AllocHasEffect(s, ns, numbers, p);
    FreeHasEffect(b.spaces, b.pids, p);
    AllocOnChain(s, ns, numbers);
    EffectsCancel(s, a.pids, ns, numbers, p, b.spaces, c.spaces, n);
    hide Sound, Chosen, Stage, Get, Released, AllocAt, FreeAt, OnChains, Forest, Fresh;
  }

  lemma EffectsCancel(s: Spaces, t: PidTable, ns: NsId, numbers: seq<Upid>, p: Pid, u: Spaces, v: Spaces, n: NsId)
    requires Exact(s, t) && Counted(s) && OnChain(s, PidRec(numbers, 1, Published)) && n in s
    requires AllocEffect(s, ns, numbers, p, u) && FreeEffect(u, numbers, v)
    ensures n in v && v[n].index == s[n].index
    ensures v[n].pidAllocated ==
              if s[n].pidAllocated == PIDNS_ADDING && (exists u :: u in numbers && u.ns == n) then 0
              else s[n].pidAllocated
  {
    IndexBound(s, t, n);
    OnChainAt(s, numbers, n);
    assert AllocAt(s[n], n, ns, numbers, p, u[n]) && FreeAt(u[n], n, numbers, v[n]);
    assert s[n].pidAllocated == |s[n].index| || s[n].pidAllocated == |s[n].index| + PIDNS_ADDING;
    hide AllocAt, FreeAt, AllocEffect, FreeEffect, OnChain, Exact, Counted;
    AllocFreeAt(s[n], n, ns, numbers, p, u[n], v[n]);
  }

  lemma OnChainAt(s: Spaces, numbers: seq<Upid>, n: NsId)
    requires OnChain(s, PidRec(numbers, 1, Published)) && n in s
    ensures (exists u :: u in numbers && u.ns == n) <==> s[n].level < |numbers| && numbers[s[n].level].ns == n
  {
    if u :| u in numbers && u.ns == n {
      var l :| 0 <= l < |numbers| && numbers[l] == u;
      assert s[numbers[l].ns].level == l;
    }
  }

  lemma AllocFreeAt(a: Namespace, n: NsId, ns: NsId, numbers: seq<Upid>, p: Pid, b: Namespace, c: Namespace)
    requires AllocAt(a, n, ns, numbers, p, b) && FreeAt(b, n, numbers, c)
    requires |a.index| < PID_MAX_LIMIT
    requires a.pidAllocated == |a.index| || a.pidAllocated == |a.index| + PIDNS_ADDING
    ensures c.index == a.index
    ensures c.pidAllocated ==
              if a.pidAllocated == PIDNS_ADDING && a.level < |numbers| && numbers[a.level].ns == n then 0
              else a.pidAllocated
  {
    CountBack(a.pidAllocated, |a.index|);
    hide Decremented;
    if a.level < |numbers| && numbers[a.level].ns == n {
      var nr := numbers[a.level].nr;
      assert a.index[nr := Some(p)] - {nr} == a.index;
    }
  }

  lemma CountBack(c: int, n: nat)
    requires n < PID_MAX_LIMIT && (c == n || c == n + PIDNS_ADDING)
    ensures Decremented((c + 1) % U32) == if c == PIDNS_ADDING then 0 else c
  {
  }
}

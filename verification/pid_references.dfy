/**
 Dropping references: what put_pid_ns destroys, and that every step but allocation and release
 keeps the rest right.
 */
module PidReferences {
  import opened Options
  import opened PidModel
  import opened PidSteps
  import opened PidAlloc

  // ---------------------------------------------------------------- references

  /** Everything that does not speak of reference counts. */
  ghost predicate Filed(s: Spaces, t: PidTable) {
    Forest(s) && OnChains(s, t) && Hashed(s, t) && Exact(s, t) && Counted(s)
  }

  /** The reference counts are right, but for one reference on n that is to be dropped. */
  ghost predicate Owing(s: Spaces, t: PidTable, h: map<NsId, nat>, n: NsId) {
    && h.Keys == s.Keys && n in s
    && forall m | m in s && m != INIT_PID_NS ::
         s[m].kref == Refs(s, t, h, m) + (if m == n then 1 else 0) && s[m].kref > 0
  }

  /** No pid has a number in namespace n. */
  ghost predicate Vacant(t: PidTable, n: NsId) {
    forall p, l | p in t && 0 <= l < |t[p].numbers| :: t[p].numbers[l].ns != n
  }

  /** Nothing is left of a namespace whose last reference is dropped. */
  lemma Unreferenced(s: Spaces, t: PidTable, h: map<NsId, nat>, n: NsId)
    requires Forest(s) && OnChains(s, t) && Exact(s, t) && Owing(s, t, h, n) && n != INIT_PID_NS && s[n].kref == 1
    ensures h[n] == 0 && Children(s, n) == {} && Vacant(t, n) && s[n].index == map[]
  {
    assert s[n].kref == Refs(s, t, h, n) + 1;
    assert |Children(s, n)| == 0 && |LeafPids(t, n)| == 0;
    hide Owing, Exact, Refs;
    forall p, l | p in t && 0 <= l < |t[p].numbers|
      ensures t[p].numbers[l].ns != n
    {
      assert OnChain(s, t[p]);
      if l + 1 < |t[p].numbers| {
        assert s[t[p].numbers[l + 1].ns].parent == t[p].numbers[l].ns;
        assert t[p].numbers[l + 1].ns !in Children(s, n);
      } else {
        assert p !in LeafPids(t, n);
        assert Leaf(t[p]) != n;
      }
    }
    NothingThere(s, t, n);
  }

  lemma OwnerThere(s: Spaces, t: PidTable, n: NsId, k: int)
    requires Exact(s, t) && n in s && k in s[n].index
    ensures !Vacant(t, n)
  {
    assert Owned(s, t, n, k);
    var p := s[n].index[k].value;
    assert t[p].numbers[s[n].level].ns == n;
  }

  lemma NothingThere(s: Spaces, t: PidTable, n: NsId)
    requires Exact(s, t) && n in s && Vacant(t, n)
    ensures s[n].index == map[]
  {
    hide Exact, Vacant;
    forall k
      ensures k !in s[n].index
    {
      if k in s[n].index {
        OwnerThere(s, t, n, k);
      }
    }
  }

  lemma DestroyForest(s: Spaces, n: NsId)
    requires Forest(s) && n in s && n != INIT_PID_NS && Children(s, n) == {}
    ensures Forest(s - {n})
  {
    forall m | m in s && m != INIT_PID_NS
      ensures s[m].parent != n
    {
      assert m !in Children(s, n);
    }
  }

  lemma DestroyChains(s: Spaces, t: PidTable, n: NsId)
    requires OnChains(s, t) && n in s && Vacant(t, n)
    ensures OnChains(s - {n}, t)
  {
    forall p | p in t
      ensures OnChain(s - {n}, t[p])
    {
      assert OnChain(s, t[p]);
    }
  }

  lemma DestroyExact(s: Spaces, t: PidTable, n: NsId)
    requires Exact(s, t) && n in s
    ensures Exact(s - {n}, t)
  {
    forall m, k | m in s - {n} && k in s[m].index
      ensures 1 <= k < PID_MAX_LIMIT && Owned(s - {n}, t, m, k)
    {
      assert Owned(s, t, m, k);
    }
  }

  lemma DestroyHashed(s: Spaces, t: PidTable, n: NsId)
    requires OnChains(s, t) && Hashed(s, t) && n in s && OnChains(s - {n}, t)
    ensures Hashed(s - {n}, t)
  {
    forall p, l | p in t && t[p].phase == Published && 0 <= l < |t[p].numbers|
      ensures var u := t[p].numbers[l]; u.nr in (s - {n})[u.ns].index && (s - {n})[u.ns].index[u.nr] == Some(p)
    {
      assert OnChain(s - {n}, t[p]);
      assert t[p].numbers[l].nr in s[t[p].numbers[l].ns].index;
    }
  }

  lemma DestroyFiled(s: Spaces, t: PidTable, n: NsId)
    requires Filed(s, t) && n in s && n != INIT_PID_NS && Children(s, n) == {} && Vacant(t, n)
    ensures Filed(s - {n}, t)
  {
    hide Forest, OnChains, Hashed, Exact, Vacant, Children;
    DestroyForest(s, n);
    DestroyChains(s, t, n);
    DestroyHashed(s, t, n);
    DestroyExact(s, t, n);
  }

  lemma ChildrenLess(s: Spaces, n: NsId, m: NsId)
    requires n in s && n != INIT_PID_NS
    ensures |Children(s, m)| == |Children(s - {n}, m)| + if s[n].parent == m then 1 else 0
  {
    var gone: set<NsId> := if s[n].parent == m then {n} else {};
    forall c
      ensures c in Children(s, m) <==> c in Children(s - {n}, m) + gone
    {
    }
    assert Children(s, m) == Children(s - {n}, m) + gone;
  }

  lemma DestroyOwing(s: Spaces, t: PidTable, h: map<NsId, nat>, n: NsId)
    requires Forest(s) && Owing(s, t, h, n) && n != INIT_PID_NS
    ensures Owing(s - {n}, t, h - {n}, s[n].parent)
  {
    var u, q, h' := s - {n}, s[n].parent, h - {n};
    assert q in u;
    hide Forest, Children, LeafPids;
    forall m | m in u && m != INIT_PID_NS
      ensures u[m].kref == Refs(u, t, h', m) + (if m == q then 1 else 0) && u[m].kref > 0
    {
      assert s[m].kref == Refs(s, t, h, m) && s[m].kref > 0;
      hide Owing;
      ChildrenLess(s, n, m);
    }
  }

  lemma PayOne(s: Spaces, t: PidTable, h: map<NsId, nat>, n: NsId)
    requires Filed(s, t) && Owing(s, t, h, n) && n != INIT_PID_NS && s[n].kref > 1
    ensures var u := s[n := s[n].(kref := s[n].kref - 1)];
            Filed(u, t) && Referenced(u, t, h)
  {
    hide Forest, OnChains, Hashed, Exact, Counted, Referenced;
    SameIndexes(s, t, s[n := s[n].(kref := s[n].kref - 1)]);
    PayOneReferenced(s, t, h, n);
  }

  lemma PayOneReferenced(s: Spaces, t: PidTable, h: map<NsId, nat>, n: NsId)
    requires Owing(s, t, h, n) && n != INIT_PID_NS && s[n].kref > 1
    ensures Referenced(s[n := s[n].(kref := s[n].kref - 1)], t, h)
  {
    var u := s[n := s[n].(kref := s[n].kref - 1)];
    hide LeafPids;
    forall m | m in u && m != INIT_PID_NS
      ensures u[m].kref == Refs(u, t, h, m) && u[m].kref > 0
    {
      assert s[m].kref == Refs(s, t, h, m) + (if m == n then 1 else 0) && s[m].kref > 0;
      hide Owing;
      assert Children(u, m) == Children(s, m);
    }
  }

  ghost predicate SameIndex(s: Spaces, u: Spaces) {
    SameShape(s, u) && forall n | n in s :: u[n].index == s[n].index
  }

  lemma SameHashed(s: Spaces, t: PidTable, u: Spaces)
    requires OnChains(s, t) && OnChains(u, t) && Hashed(s, t) && SameIndex(s, u)
    ensures Hashed(u, t)
  {
    forall p, l | p in t && t[p].phase == Published && 0 <= l < |t[p].numbers|
      ensures var v := t[p].numbers[l]; v.nr in u[v.ns].index && u[v.ns].index[v.nr] == Some(p)
    {
      assert OnChain(s, t[p]);
      assert t[p].numbers[l].nr in s[t[p].numbers[l].ns].index;
    }
  }

  lemma SameExact(s: Spaces, t: PidTable, u: Spaces)
    requires Exact(s, t) && SameIndex(s, u)
    ensures Exact(u, t)
  {
    forall n, k | n in u && k in u[n].index
      ensures 1 <= k < PID_MAX_LIMIT && Owned(u, t, n, k)
    {
      assert Owned(s, t, n, k);
    }
  }

  /** Indexes as before, and counters too but for their top bit. */
  lemma SameIndexes(s: Spaces, t: PidTable, u: Spaces)
    requires Filed(s, t) && SameIndex(s, u)
    requires forall n | n in s :: u[n].pidAllocated == s[n].pidAllocated || u[n].pidAllocated == |u[n].index|
    ensures Filed(u, t)
  {
    assert Counted(u) by {
      hide Forest, OnChains, Hashed, Exact;
    }
    hide Counted, Forest, OnChains, Hashed, Exact;
    ShapeKeeps(s, u, t);
    SameHashed(s, t, u);
    SameExact(s, t, u);
  }

  /** u is what is left of s once the debt is paid. */
  ghost predicate Repaid(s: Spaces, t: PidTable, h: map<NsId, nat>, u: Spaces) {
    u.Keys <= s.Keys && Filed(u, t) && Referenced(u, t, Restrict(h, u.Keys))
  }

  /** put_pid_ns makes the reference counts right again, whatever it destroys on the way. */
  lemma {:induction false} PutKeeps(s: Spaces, t: PidTable, h: map<NsId, nat>, n: NsId)
    requires Filed(s, t) && Owing(s, t, h, n)
    ensures Repaid(s, t, h, Put(s, n))
    decreases s[n].level
  {
    if n == INIT_PID_NS || s[n].kref > 1 {
      hide Hashed, Exact, Counted, OnChains;
      if n != INIT_PID_NS {
        PayOne(s, t, h, n);
      }
      assert Restrict(h, s.Keys) == h;
    } else {
      PayLast(s, t, h, n);
      PutKeeps(s - {n}, t, h - {n}, s[n].parent);
      hide Filed, Referenced, Owing, Forest;
      assert Restrict(h - {n}, Put(s, n).Keys) == Restrict(h, Put(s, n).Keys);
    }
  }

  lemma PayLast(s: Spaces, t: PidTable, h: map<NsId, nat>, n: NsId)
    requires Filed(s, t) && Owing(s, t, h, n) && n != INIT_PID_NS && s[n].kref <= 1
    ensures Filed(s - {n}, t) && Owing(s - {n}, t, h - {n}, s[n].parent)
    ensures s[n].kref == 1 && s[n].index == map[]
  {
    assert s[n].kref > 0;
    hide Owing, Vacant, OnChains, Forest, Exact, Hashed, Counted, Children;
    Unreferenced(s, t, h, n);
    DestroyFiled(s, t, n);
    DestroyOwing(s, t, h, n);
  }

  /** m is n or an ancestor of n, and it and all namespaces between hold their last reference. */
  ghost predicate Falls(s: Spaces, n: NsId, m: NsId)
    requires Forest(s) && n in s && m in s
  {
    && s[m].level <= s[n].level && Ancestor(s, n, s[m].level) == m
    && forall l | s[m].level <= l <= s[n].level ::
         Ancestor(s, n, l) != INIT_PID_NS && s[Ancestor(s, n, l)].kref == 1
  }

  /** m is the first, going up from n, that has references left. */
  ghost predicate Stops(s: Spaces, n: NsId, m: NsId)
    requires Forest(s) && n in s && m in s
  {
    && m != INIT_PID_NS && s[m].level <= s[n].level && Ancestor(s, n, s[m].level) == m && s[m].kref != 1
    && forall l | s[m].level < l <= s[n].level ::
         Ancestor(s, n, l) != INIT_PID_NS && s[Ancestor(s, n, l)].kref == 1
  }

  lemma {:induction false} AncestorStays(s: Spaces, n: NsId, q: NsId, l: nat)
    requires Forest(s) && Forest(s - {n}) && q in s - {n} && l <= s[q].level
    ensures Ancestor(s - {n}, q, l) == Ancestor(s, q, l)
    decreases s[q].level
  {
    if l < s[q].level {
      AncestorStays(s, n, s[q].parent, l);
    }
  }

  /**
   put_pid_ns destroys exactly the longest chain of ancestors that each hold their last
   reference, and takes one reference from the namespace above it.
   */
  lemma {:induction false} PutDestroys(s: Spaces, t: PidTable, h: map<NsId, nat>, n: NsId, m: NsId)
    requires Filed(s, t) && Owing(s, t, h, n) && m in s
    ensures m !in Put(s, n) <==> Falls(s, n, m)
    ensures m in Put(s, n) ==> Put(s, n)[m] == s[m].(kref := s[m].kref - if Stops(s, n, m) then 1 else 0)
    decreases s[n].level
  {
    hide Hashed, Exact, Counted, OnChains;
    if n != INIT_PID_NS && s[n].kref <= 1 {
      var u, q := s - {n}, s[n].parent;
      PayLast(s, t, h, n);
      PutOnly(u, q);
      assert Put(s, n) == Put(u, q);
      hide Owing;
      if m != n {
        PutDestroys(u, t, h - {n}, q, m);
        hide Filed, Put;
        FallsBelow(s, n, m);
      } else {
        hide Filed;
        assert Ancestor(s, n, s[n].level) == n;
      }
    } else {
      hide Filed, Owing;
      assert Ancestor(s, n, s[n].level) == n;
    }
  }

  lemma FallsBelow(s: Spaces, n: NsId, m: NsId)
    requires Forest(s) && Forest(s - {n}) && n in s && n != INIT_PID_NS && s[n].kref == 1 && m in s && m != n
    requires s[n].parent != n
    ensures Falls(s, n, m) <==> Falls(s - {n}, s[n].parent, m)
    ensures Stops(s, n, m) <==> Stops(s - {n}, s[n].parent, m)
  {
    var u, q := s - {n}, s[n].parent;
    forall l: nat | l <= s[q].level
      ensures Ancestor(u, q, l) == Ancestor(s, n, l)
    {
      AncestorStays(s, n, q, l);
    }
    assert Ancestor(s, n, s[n].level) == n;
    hide Forest, Ancestor;
  }

  lemma {:induction false} PutOnly(s: Spaces, n: NsId)
    ensures Put(s, n).Keys <= s.Keys
    decreases if n in s then s[n].level else 0
  {
    if n in s && n != INIT_PID_NS && s[n].kref <= 1 && s[n].parent in s && s[s[n].parent].level < s[n].level {
      PutOnly(s - {n}, s[n].parent);
    }
  }

  // ---------------------------------------------------------------- the other steps

  /** Changes of last_pid and of the adding bit keep the rest. */
  lemma SameButKeeps(s: Spaces, t: PidTable, h: map<NsId, nat>, u: Spaces)
    requires Filed(s, t) && Referenced(s, t, h) && SameIndex(s, u)
    requires forall n | n in s ::
               && u[n].kref == s[n].kref
               && (u[n].pidAllocated == s[n].pidAllocated || u[n].pidAllocated == |u[n].index|)
    ensures Filed(u, t) && Referenced(u, t, h)
  {
    hide Filed, Referenced;
    SameIndexes(s, t, u);
    SameReferenced(s, t, h, u, t);
  }

  /** Last numbers are no part of what is kept. */
  lemma LastKeeps(a: State, b: State)
    requires Sound(a) && SameButLast(a.spaces, b.spaces) && b == a.(spaces := b.spaces)
    ensures Sound(b)
  {
    hide Forest, OnChains, Hashed, Exact, Counted, Referenced;
    SameButKeeps(a.spaces, a.pids, a.holders, b.spaces);
  }

  lemma DisableKeeps(a: State, n: NsId, b: State)
    requires Sound(a) && Disables(a, n, b)
    ensures Sound(b) && n in b.spaces && !Adding(b.spaces[n])
  {
    hide Forest, OnChains, Hashed, Exact, Counted, Referenced;
    IndexBound(a.spaces, a.pids, n);
    AllocatedIs(a.spaces, n);
    SameButKeeps(a.spaces, a.pids, a.holders, b.spaces);
  }

  lemma GetPidKeeps(a: State, p: Pid, b: State)
    requires Sound(a) && GetsPid(a, p, b)
    ensures Sound(b)
  {
    hide Forest, OnChains, Hashed, Exact, Counted, Referenced;
    RecountKeeps(a.spaces, a.pids, a.holders, p, a.pids[p].(count := a.pids[p].count + 1));
  }

  /** A change in the count of a pid, or in the phase of one that is not published. */
  lemma RecountKeeps(s: Spaces, t: PidTable, h: map<NsId, nat>, p: Pid, r: PidRec)
    requires Filed(s, t) && Referenced(s, t, h) && p in t && r.numbers == t[p].numbers
    requires (r.phase == Published) == (t[p].phase == Published)
    ensures Filed(s, t[p := r]) && Referenced(s, t[p := r], h)
    ensures PidRefs(t) && r.count >= Base(r) && r.count > 0 ==> PidRefs(t[p := r])
  {
    var t' := t[p := r];
    SameReferenced(s, t, h, s, t');
    SamePlaces(s, t, s, t');
    hide Referenced, Forest, OnChains;
    assert Hashed(s, t') by {
      hide Exact, Counted;
      forall q, l | q in t' && t'[q].phase == Published && 0 <= l < |t'[q].numbers|
        ensures var u := t'[q].numbers[l]; u.nr in s[u.ns].index && s[u.ns].index[u.nr] == Some(q)
      {
        assert t[q].numbers[l].nr in s[t[q].numbers[l].ns].index;
      }
    }
    hide Hashed;
    forall n, k | n in s && k in s[n].index
      ensures 1 <= k < PID_MAX_LIMIT && Owned(s, t', n, k)
    {
      assert Owned(s, t, n, k);
    }
  }

  /** Without a pid that is not published, its leaf has one reference too many. */
  lemma ForgetPid(s: Spaces, t: PidTable, h: map<NsId, nat>, p: Pid)
    requires Filed(s, t) && Referenced(s, t, h) && p in t && t[p].phase != Published && 0 < |t[p].numbers|
    ensures Filed(s, t - {p}) && Leaf(t[p]) in s && Owing(s, t - {p}, h, Leaf(t[p]))
  {
    assert Leaf(t[p]) in s by {
      assert OnChain(s, t[p]);
    }
    ForgetFiled(s, t, p);
    hide Filed;
    ForgetOwing(s, t, h, p);
  }

  lemma ForgetOwing(s: Spaces, t: PidTable, h: map<NsId, nat>, p: Pid)
    requires Referenced(s, t, h) && p in t && 0 < |t[p].numbers| && Leaf(t[p]) in s
    ensures Owing(s, t - {p}, h, Leaf(t[p]))
  {
    var n, t' := Leaf(t[p]), t - {p};
    assert t'[p := t[p]] == t;
    hide Leaf, Children, LeafPids;
    forall m | m in s && m != INIT_PID_NS
      ensures s[m].kref == Refs(s, t', h, m) + (if m == n then 1 else 0) && s[m].kref > 0
    {
      assert s[m].kref == Refs(s, t, h, m) && s[m].kref > 0;
      AddedLeaf(t', p, t[p], m);
      hide Referenced;
    }
  }

  lemma ForgetFiled(s: Spaces, t: PidTable, p: Pid)
    requires Filed(s, t) && p in t && t[p].phase != Published
    ensures Filed(s, t - {p})
  {
    var t' := t - {p};
    assert OnChains(s, t');
    assert Hashed(s, t') by {
      hide Exact, Counted, Forest;
      forall q, l | q in t' && t'[q].phase == Published && 0 <= l < |t'[q].numbers|
        ensures var u := t'[q].numbers[l]; u.nr in s[u.ns].index && s[u.ns].index[u.nr] == Some(q)
      {
        assert t[q].numbers[l].nr in s[t[q].numbers[l].ns].index;
      }
    }
    hide Hashed, OnChains, Forest;
    forall n, k | n in s && k in s[n].index
      ensures 1 <= k < PID_MAX_LIMIT && Owned(s, t', n, k)
    {
      assert Owned(s, t, n, k);
    }
  }

  /** Dropping a reference to a pid that is there to be dropped. */
  lemma DropKeeps(a: State, p: Pid)
    requires Filed(a.spaces, a.pids) && Referenced(a.spaces, a.pids, a.holders) && p in a.pids
             && 0 < |a.pids[p].numbers|
    requires a.pids[p].count > Base(a.pids[p])
    requires forall q | q in a.pids && q != p :: a.pids[q].count >= Base(a.pids[q]) && a.pids[q].count > 0
    ensures var b := Dropped(a, p);
            && Consistent(b.spaces, b.pids, b.holders) && b.spaces.Keys <= a.spaces.Keys && b.pids.Keys <= a.pids.Keys
            && b.pidMax == a.pidMax && b.nextPid == a.nextPid && b.nextNs == a.nextNs
  {
    var s, t, h, r := a.spaces, a.pids, a.holders, a.pids[p];
    var b := Dropped(a, p);
    if r.count > 1 {
      hide Forest, OnChains, Hashed, Exact, Counted, Referenced;
      RecountKeeps(s, t, h, p, r.(count := r.count - 1));
      assert PidRefs(b.pids);
    } else {
      ForgetPid(s, t, h, p);
      PutKeeps(s, t - {p}, h, Leaf(r));
      assert PidRefs(b.pids);
      hide Forest, OnChains, Hashed, Exact, Counted, Referenced, Owing, Put, Leaf;
    }
  }

  lemma PutPidKeeps(a: State, p: Pid, b: State)
    requires Sound(a) && PutsPid(a, p, b)
    ensures Sound(b)
  {
    DropKeeps(a, p);
    hide Consistent, Dropped;
  }

  lemma DelayedPutKeeps(a: State, p: Pid, b: State)
    requires Sound(a) && PutsDelayed(a, p, b)
    ensures Sound(b)
  {
    var c := a.(pids := a.pids[p := a.pids[p].(phase := Detached)]);
    RecountKeeps(a.spaces, a.pids, a.holders, p, a.pids[p].(phase := Detached));
    DropKeeps(c, p);
    hide Consistent, Dropped;
  }

  lemma GetReferenced(s: Spaces, t: PidTable, h: map<NsId, nat>, n: NsId)
    requires Filed(s, t) && Referenced(s, t, h) && n in s
    ensures Filed(Get(s, n), t) && Owing(Get(s, n), t, h, n)
    ensures Referenced(Get(s, n), t, h[n := h[n] + 1])
  {
    hide Forest, OnChains, Hashed, Exact, Counted;
    assert Filed(Get(s, n), t) by {
      hide Referenced;
      SameIndexes(s, t, Get(s, n));
    }
    hide Filed;
    GetOwing(s, t, h, n);
    OwnedReference(Get(s, n), t, h, n);
  }

  lemma GetOwing(s: Spaces, t: PidTable, h: map<NsId, nat>, n: NsId)
    requires Referenced(s, t, h) && n in s
    ensures Owing(Get(s, n), t, h, n)
  {
    var u := Get(s, n);
    assert SameShape(s, u);
    hide LeafPids;
    forall m | m in u && m != INIT_PID_NS
      ensures u[m].kref == Refs(u, t, h, m) + (if m == n then 1 else 0) && u[m].kref > 0
    {
      assert s[m].kref == Refs(s, t, h, m) && s[m].kref > 0;
      hide Referenced;
      assert Children(u, m) == Children(s, m);
    }
  }

  lemma OwnedReference(s: Spaces, t: PidTable, h: map<NsId, nat>, n: NsId)
    requires Owing(s, t, h, n)
    ensures Referenced(s, t, h[n := h[n] + 1])
  {
    hide LeafPids, Children;
    forall m | m in s && m != INIT_PID_NS
      ensures s[m].kref == Refs(s, t, h[n := h[n] + 1], m)
    {
      assert s[m].kref == Refs(s, t, h, m) + (if m == n then 1 else 0);
    }
  }

  lemma GetNsKeeps(a: State, n: NsId, b: State)
    requires Sound(a) && GetsNs(a, n, b)
    ensures Sound(b)
  {
    hide Consistent, Ranged;
    GetNsConsistent(a, n, b);
    GetNsRanged(a, n, b);
    hide GetsNs;
  }

  lemma GetNsConsistent(a: State, n: NsId, b: State)
    requires Consistent(a.spaces, a.pids, a.holders) && GetsNs(a, n, b)
    ensures Consistent(b.spaces, b.pids, b.holders)
  {
    hide Forest, OnChains, Hashed, Exact, Counted, Owing, Referenced, Get;
    GetReferenced(a.spaces, a.pids, a.holders, n);
  }

  lemma GetNsRanged(a: State, n: NsId, b: State)
    requires Ranged(a) && GetsNs(a, n, b)
    ensures Ranged(b)
  {
  }

  lemma PutNsKeeps(a: State, n: NsId, b: State)
    requires Sound(a) && PutsNs(a, n, b)
    ensures Sound(b)
  {
    hide Forest, OnChains, Hashed, Exact, Counted, Put;
    DueReference(a.spaces, a.pids, a.holders, n);
    hide Owing, Referenced;
    PutKeeps(a.spaces, a.pids, a.holders[n := a.holders[n] - 1], n);
  }

  lemma DueReference(s: Spaces, t: PidTable, h: map<NsId, nat>, n: NsId)
    requires Referenced(s, t, h) && n in s && h[n] > 0
    ensures Owing(s, t, h[n := h[n] - 1], n)
  {
    hide Children, LeafPids;
    forall m | m in s && m != INIT_PID_NS
      ensures s[m].kref == Refs(s, t, h[n := h[n] - 1], m) + (if m == n then 1 else 0) && s[m].kref > 0
    {
      assert s[m].kref == Refs(s, t, h, m) && s[m].kref > 0;
    }
  }

  lemma CreateKeeps(a: State, q: NsId, b: State)
    requires Sound(a) && CreatesNs(a, q, b)
    ensures Sound(b)
  {
    hide Consistent, Ranged;
    CreateConsistent(a, q, b);
    CreateRanged(a, q, b);
    hide CreatesNs;
  }

  lemma CreateRanged(a: State, q: NsId, b: State)
    requires Ranged(a) && CreatesNs(a, q, b)
    ensures Ranged(b)
  {
  }

  lemma CreateConsistent(a: State, q: NsId, b: State)
    requires Consistent(a.spaces, a.pids, a.holders) && Ranged(a) && CreatesNs(a, q, b)
    ensures Consistent(b.spaces, b.pids, b.holders)
  {
    var s, t, h, n := a.spaces, a.pids, a.holders, a.nextNs;
    var u := Get(s, q);
    assert n != INIT_PID_NS && u.Keys == s.Keys && n !in s && NewNs(u, q) == NewNs(s, q);
    hide Forest, OnChains, Hashed, Exact, Counted, Owing, Referenced, Ranged;
    GetReferenced(s, t, h, q);
    hide Get, NewNs;
    NewFiled(u, t, q, n);
    NewReferenced(u, t, h, q, n);
  }

  lemma NewFiled(s: Spaces, t: PidTable, q: NsId, n: NsId)
    requires Filed(s, t) && q in s && n !in s && s[q].level + 1 <= MAX_PID_NS_LEVEL
    ensures Filed(s[n := NewNs(s, q)], t)
  {
    hide OnChains, Hashed, Exact;
    NewChains(s, t, n, NewNs(s, q));
    NewHashed(s, t, n, NewNs(s, q));
    NewExact(s, t, n, NewNs(s, q));
  }

  lemma NewChains(s: Spaces, t: PidTable, n: NsId, x: Namespace)
    requires OnChains(s, t) && n !in s
    ensures OnChains(s[n := x], t)
  {
    forall p | p in t
      ensures OnChain(s[n := x], t[p])
    {
      assert OnChain(s, t[p]);
    }
  }

  lemma NewHashed(s: Spaces, t: PidTable, n: NsId, x: Namespace)
    requires OnChains(s, t) && Hashed(s, t) && n !in s && OnChains(s[n := x], t)
    ensures Hashed(s[n := x], t)
  {
    forall p, l | p in t && t[p].phase == Published && 0 <= l < |t[p].numbers|
      ensures var v := t[p].numbers[l]; v.nr in s[n := x][v.ns].index && s[n := x][v.ns].index[v.nr] == Some(p)
    {
      assert OnChain(s, t[p]);
      assert t[p].numbers[l].nr in s[t[p].numbers[l].ns].index;
    }
  }

  lemma NewExact(s: Spaces, t: PidTable, n: NsId, x: Namespace)
    requires Exact(s, t) && n !in s && x.index == map[]
    ensures Exact(s[n := x], t)
  {
    var u := s[n := x];
    forall m, k | m in u && k in u[m].index
      ensures 1 <= k < PID_MAX_LIMIT && Owned(u, t, m, k)
    {
      assert Owned(s, t, m, k);
    }
  }

  lemma NewUnused(s: Spaces, t: PidTable, n: NsId, x: Namespace)
    requires Forest(s) && OnChains(s, t) && n !in s && x.parent in s && n != INIT_PID_NS
    ensures Children(s[n := x], n) == {} && LeafPids(t, n) == {}
  {
    forall p | p in t
      ensures p !in LeafPids(t, n)
    {
      assert OnChain(s, t[p]);
    }
  }

  lemma NewReferenced(s: Spaces, t: PidTable, h: map<NsId, nat>, q: NsId, n: NsId)
    requires Filed(s, t) && Owing(s, t, h, q) && n !in s && n != INIT_PID_NS
    ensures Referenced(s[n := NewNs(s, q)], t, h[n := 1])
  {
    NewUnused(s, t, n, NewNs(s, q));
    hide Filed;
    NewCounted(s, t, h, q, n);
  }

  lemma NewCounted(s: Spaces, t: PidTable, h: map<NsId, nat>, q: NsId, n: NsId)
    requires Owing(s, t, h, q) && n !in s && n != INIT_PID_NS
    requires Children(s[n := NewNs(s, q)], n) == {} && LeafPids(t, n) == {}
    ensures Referenced(s[n := NewNs(s, q)], t, h[n := 1])
  {
    var u, h' := s[n := NewNs(s, q)], h[n := 1];
    assert u - {n} == s;
    hide LeafPids, Children;
    forall m | m in u && m != INIT_PID_NS
      ensures u[m].kref == Refs(u, t, h', m) && u[m].kref > 0
    {
      if m != n {
        assert s[m].kref == Refs(s, t, h, m) + (if m == q then 1 else 0) && s[m].kref > 0;
        hide Owing;
        ChildrenLess(u, n, m);
      }
    }
  }
}

/**
 The run queue of the SPU scheduler: one list per priority, a bitmap of the lists in use, and the
 number of contexts waiting, with the timer that ticks while there are any.
 */
module SpuRunqueue {
  import opened Options

  type CtxId = nat

  /** Priorities of the kernel; the header that defines them is not part of the repository. */
  const MAX_PRIO := 140

  type Queues = seq<seq<CtxId>>

  function Total(q: Queues): nat {
    if q == [] then 0 else |q[0]| + Total(q[1..])
  }

  lemma {:induction false} TotalUpdate(q: Queues, p: nat, l: seq<CtxId>)
    requires p < |q|
    ensures Total(q[p := l]) == Total(q) - |q[p]| + |l|
  {
    if p == 0 {
      assert q[p := l][1..] == q[1..];
    } else {
      TotalUpdate(q[1..], p - 1, l);
      assert q[p := l][1..] == q[1..][p - 1 := l];
    }
  }

  /** No context waits twice. */
  ghost predicate Distinct(q: Queues) {
    forall p, i, p', i' | 0 <= p < |q| && 0 <= i < |q[p]| && 0 <= p' < |q| && 0 <= i' < |q[p']| && q[p][i] == q[p'][i'] ::
      p == p' && i == i'
  }

  ghost predicate Waits(q: Queues, c: CtxId) {
    exists p :: 0 <= p < |q| && c in q[p]
  }

  /** list_del */
  function Without(l: seq<CtxId>, c: CtxId): seq<CtxId> {
    if l == [] then [] else if l[0] == c then l[1..] else [l[0]] + Without(l[1..], c)
  }

  /** Unlinking takes out one element, and leaves the order of the others. */
  lemma {:induction false} WithoutAt(l: seq<CtxId>, i: nat)
    requires i < |l| && forall j, k | 0 <= j < k < |l| :: l[j] != l[k]
    ensures Without(l, l[i]) == l[..i] + l[i + 1..]
  {
    if i == 0 {
    } else {
      assert l[0] != l[i];
      WithoutAt(l[1..], i - 1);
      assert [l[0]] + (l[1..][..i - 1] + l[1..][i..]) == l[..i] + l[i + 1..];
    }
  }

  /**
   c, at place i of the list of priority p, is the one to run next on a node where exactly the
   contexts of `fit` may run: no better priority and no earlier place has one of these.
   */
  ghost predicate Best(q: Queues, fit: set<CtxId>, bound: int, c: CtxId, p: int, i: int) {
    && 0 <= p < bound <= |q| && 0 <= i < |q[p]| && q[p][i] == c && c in fit
    && (forall p', c' | 0 <= p' < p && c' in q[p'] :: c' !in fit)
    && (forall i' | 0 <= i' < i :: q[p][i'] !in fit)
  }

  ghost predicate NoneFits(q: Queues, fit: set<CtxId>, bound: int)
    requires bound <= |q|
  {
    forall p, c | 0 <= p < bound && c in q[p] :: c !in fit
  }

  /** There is at most one such context. */
  lemma BestIsUnique(q: Queues, fit: set<CtxId>, bound: int, c: CtxId, p: int, i: int, c': CtxId, p': int, i': int)
    requires Best(q, fit, bound, c, p, i) && Best(q, fit, bound, c', p', i')
    ensures c == c' && p == p' && i == i' && !NoneFits(q, fit, bound)
  {
    assert q[p][i] in q[p] && q[p'][i'] in q[p'];
  }

  class RunQueue {
    var runq: Queues
    var bitmap: seq<bool>
    var nrWaiting: int
    /** The contexts whose list node is linked into some list. */
    var linked: set<CtxId>
    /** The tick timer is pending. */
    var armed: bool

    ghost predicate Valid()
      reads this
    {
      && |runq| == |bitmap| == MAX_PRIO
      && (forall p | 0 <= p < MAX_PRIO :: bitmap[p] <==> runq[p] != [])
      && nrWaiting == Total(runq) && Distinct(runq)
      && (forall c :: c in linked <==> Waits(runq, c))
      && (armed <==> nrWaiting > 0)
    }

    /** The run queue part of spu_sched_init. */
    constructor ()
      ensures Valid() && runq == seq(MAX_PRIO, _ => []) && linked == {}
    {
      var none: Queues := seq(MAX_PRIO, _ => []);
      runq, bitmap, nrWaiting, linked, armed := none, seq(MAX_PRIO, _ => false), 0, {}, false;
      new;
      EmptyTotal(none);
    }

    /** __spu_add_to_rq: at the end of its list, unless it waits already. */
    method Add(c: CtxId, prio: int)
      requires Valid() && 0 <= prio < MAX_PRIO
      modifies this
      ensures Valid() && linked == old(linked) + {c}
      ensures runq == if c in old(linked) then old(runq) else old(runq)[prio := old(runq)[prio] + [c]]
    {
      if c !in linked {
        TotalUpdate(runq, prio, runq[prio] + [c]);
        AddDistinct(runq, prio, c);
        runq := runq[prio := runq[prio] + [c]];
        linked := linked + {c};
        bitmap := bitmap[prio := true];
        if nrWaiting == 0 {
          armed := true;
        }
        nrWaiting := nrWaiting + 1;
      }
    }

    /** __spu_del_from_rq */
    method Del(c: CtxId, prio: int)
      requires Valid() && 0 <= prio < MAX_PRIO && (c in linked ==> c in runq[prio])
      modifies this
      ensures Valid() && linked == old(linked) - {c}
      ensures runq == if c in old(linked) then old(runq)[prio := Without(old(runq)[prio], c)] else old(runq)
    {
      if c in linked {
        DelFacts(runq, prio, c);
        hide Distinct, Waits, Total, Without;
        nrWaiting := nrWaiting - 1;
        if nrWaiting == 0 {
          armed := false;
        }
        var rest := Without(runq[prio], c);
        runq := runq[prio := rest];
        linked := linked - {c};
        bitmap := if rest == [] then bitmap[prio := false] else bitmap;
      }
    }

    /** find_first_bit */
    method FindFirstBit(size: int) returns (b: int)
      requires 0 <= size <= |bitmap|
      ensures 0 <= b <= size && (b < size ==> bitmap[b]) && forall p | 0 <= p < b :: !bitmap[p]
    {
      b := 0;
      while b < size && !bitmap[b]
        invariant 0 <= b <= size && forall p | 0 <= p < b :: !bitmap[p]
      {
        b := b + 1;
      }
    }

    /**
     grab_runnable_context: the next context to run among those of `fit`, of a priority better
     than `prio`; it is taken out of the queue.  `prios` are the priorities of the contexts.
     */
    method Grab(prio: int, fit: set<CtxId>, prios: map<CtxId, int>) returns (r: Option<CtxId>)
      requires Valid() && 0 <= prio <= MAX_PRIO
      requires forall p, c | 0 <= p < MAX_PRIO && c in runq[p] :: c in prios && prios[c] == p
      modifies this
      ensures Valid()
      ensures match r
              case None => NoneFits(old(runq), fit, prio) && runq == old(runq) && linked == old(linked)
              case Some(c) =>
                && c in old(linked) && c in prios && 0 <= prios[c] < prio && linked == old(linked) - {c}
                && (exists i :: Best(old(runq), fit, prio, c, prios[c], i))
                && runq == old(runq)[prios[c] := Without(old(runq)[prios[c]], c)]
    {
      var best := FindFirstBit(prio);
      while best < prio
        invariant 0 <= best <= prio && runq == old(runq) && linked == old(linked) && Valid()
        invariant NoneFits(runq, fit, best)
      {
        var i := 0;
        while i < |runq[best]|
          invariant 0 <= i <= |runq[best]| && runq == old(runq) && linked == old(linked) && Valid()
          invariant forall j | 0 <= j < i :: runq[best][j] !in fit
        {
          var c := runq[best][i];
          if c in fit {
            assert Best(runq, fit, prio, c, best, i);
            assert c in runq[best];
            Del(c, prios[c]);
            return Some(c);
          }
          i := i + 1;
        }
        best := best + 1;
      }
      return None;
    }
  }

  lemma {:induction false} EmptyTotal(q: Queues)
    requires forall p | 0 <= p < |q| :: q[p] == []
    ensures Total(q) == 0
  {
    if q != [] {
      EmptyTotal(q[1..]);
    }
  }

  lemma AddDistinct(q: Queues, p: nat, c: CtxId)
    requires p < |q| && Distinct(q) && !Waits(q, c)
    ensures Distinct(q[p := q[p] + [c]])
    ensures forall d :: Waits(q[p := q[p] + [c]], d) <==> Waits(q, d) || d == c
  {
    var r := q[p := q[p] + [c]];
    forall d
      ensures Waits(r, d) <==> Waits(q, d) || d == c
    {
      if k :| 0 <= k < |q| && d in q[k] {
        assert d in r[k];
      }
      if d == c {
        assert c in r[p];
      }
      if k :| 0 <= k < |r| && d in r[k] {
        assert d in q[k] || d == c;
      }
    }
    forall p', i' | 0 <= p' < |q| && 0 <= i' < |q[p']|
      ensures q[p'][i'] != c
    {
      assert q[p'][i'] in q[p'];
    }
  }

  lemma DelFacts(q: Queues, p: nat, c: CtxId)
    requires p < |q| && c in q[p] && Distinct(q)
    ensures var r := q[p := Without(q[p], c)];
            && Distinct(r) && Total(r) == Total(q) - 1 && q[p] != []
            && forall d :: Waits(r, d) <==> Waits(q, d) && d != c
  {
    var i :| 0 <= i < |q[p]| && q[p][i] == c;
    WithoutAt(q[p], i);
    TotalUpdate(q, p, Without(q[p], c));
    hide Without, Total;
    DelWaits(q, p, i);
    DelDistinct(q, p, i);
    hide Distinct, Waits;
  }

  lemma DelWaits(q: Queues, p: nat, i: nat)
    requires p < |q| && i < |q[p]| && Distinct(q)
    ensures forall d :: Waits(q[p := q[p][..i] + q[p][i + 1..]], d) <==> Waits(q, d) && d != q[p][i]
  {
    var r := q[p := q[p][..i] + q[p][i + 1..]];
    forall d
      ensures Waits(r, d) <==> Waits(q, d) && d != q[p][i]
    {
      if Waits(q, d) && d != q[p][i] {
        var k :| 0 <= k < |q| && d in q[k];
        assert d in r[k];
      }
      if k :| 0 <= k < |r| && d in r[k] {
        var j :| 0 <= j < |r[k]| && r[k][j] == d;
        var m := if k == p && j >= i then j + 1 else j;
        assert q[k][m] == d;
      }
    }
  }

  lemma DelDistinct(q: Queues, p: nat, i: nat)
    requires p < |q| && i < |q[p]| && Distinct(q)
    ensures Distinct(q[p := q[p][..i] + q[p][i + 1..]])
  {
    var r := q[p := q[p][..i] + q[p][i + 1..]];
    forall a, b, a', b' | 0 <= a < |r| && 0 <= b < |r[a]| && 0 <= a' < |r| && 0 <= b' < |r[a']| && r[a][b] == r[a'][b']
      ensures a == a' && b == b'
    {
      var m, m' := if a == p && b >= i then b + 1 else b, if a' == p && b' >= i then b' + 1 else b';
      assert q[a][m] == r[a][b] && q[a'][m'] == r[a'][b'];
    }
  }
}

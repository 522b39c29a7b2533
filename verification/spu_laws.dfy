/**
 What the operations of the SPU scheduler come to, said of single contexts, SPUs and nodes: who
 gets an SPU, who leaves one, who waits afterwards, and in which order.
 */
module SpuLaws {
  import opened Options
  import opened SpuRunqueue
  import opened SpuModel
  import opened SpuScheduler
  import opened SpuRuns

  // ---------------------------------------------------------------- getting and leaving an SPU

  /** c runs on SPU s now, and has a whole slice. */
  ghost predicate Gets(p: Pool, p': Pool, c: CtxId, s: SpuId, hz: nat) {
    && c in p.ctxs && c in p'.ctxs && s in p'.spus && p'.spus[s].ctx == Some(c) && p'.spus[s].used
    && p'.ctxs[c] == p.ctxs[c].(spu := Some(s), runnable := true, util := User, slice := p'.ctxs[c].slice)
    && IsSlice(p'.ctxs[c].slice, p.ctxs[c].prio, hz)
  }

  /** c has been saved, and is on no SPU. */
  ghost predicate Leaves(p: Pool, p': Pool, c: CtxId, slice: int) {
    && c in p.ctxs && c in p'.ctxs
    && p'.ctxs[c] == p.ctxs[c].(spu := None, runnable := false, util := IdleLoaded, slice := slice)
  }

  /** SPU s runs nothing. */
  ghost predicate Empty(p': Pool, s: SpuId, used: bool) {
    s in p'.spus && p'.spus[s].ctx == None && p'.spus[s].used == used
  }

  /** Contexts and SPUs other than these are as before. */
  ghost predicate OthersKept(p: Pool, p': Pool, cs: set<CtxId>, s: SpuId) {
    && p'.ctxs.Keys == p.ctxs.Keys && (forall d | d in p.ctxs && d !in cs :: p'.ctxs[d] == p.ctxs[d])
    && p'.spus.Keys == p.spus.Keys && (forall t | t in p.spus && t != s :: p'.spus[t] == p.spus[t])
    && (s in p.spus ==> p'.spus[s].node == p.spus[s].node)
  }

  lemma PlacedGets(p: Pool, s: SpuId, c: CtxId, hz: nat)
    requires s in p.spus && c in p.ctxs && p.spus[s].node in p.infos
    ensures var q := Placed(p, s, c, TimeSlice(p.ctxs[c].prio, hz)); Gets(p, q, c, s, hz) && OthersKept(p, q, {c}, s)
  {
    hide IsSlice, TimeSlice;
    SliceIs(p.ctxs[c].prio, hz);
  }

  lemma RemovedLeaves(p: Pool, s: SpuId, c: CtxId, free: bool)
    requires s in p.spus && c in p.ctxs && p.spus[s].node in p.infos
    ensures var q := Removed(p, s, c, free);
            && Leaves(p, q, c, p.ctxs[c].slice) && OthersKept(p, q, {c}, s) && Empty(q, s, p.spus[s].used && !free)
            && q.spus[s].node in q.infos
  {
  }

  // ---------------------------------------------------------------- the lists

  /** d stands before e in list k. */
  ghost predicate Before(q: Queues, k: int, d: CtxId, e: CtxId) {
    0 <= k < |q| && exists i, j :: 0 <= i < j < |q[k]| && q[k][i] == d && q[k][j] == e
  }

  /** The same contexts wait, but for those of `gone` and those of `come`. */
  ghost predicate WaitSame(q: Queues, q': Queues, gone: set<CtxId>, come: set<CtxId>) {
    forall e :: Waits(q', e) <==> (Waits(q, e) && e !in gone) || e in come
  }

  /** Those who have waited and are not gone wait in the same order. */
  ghost predicate InTurn(q: Queues, q': Queues, gone: set<CtxId>) {
    forall k, d, e | Waits(q, d) && Waits(q, e) && d !in gone && e !in gone ::
      Before(q, k, d, e) <==> Before(q', k, d, e)
  }

  /** c waits behind everybody else of its priority. */
  ghost predicate IsLast(q: Queues, p: Pool, c: CtxId) {
    c in p.ctxs && 0 <= p.ctxs[c].prio < |q| && var l := q[p.ctxs[c].prio]; l != [] && l[|l| - 1] == c
  }

  /** What became of the lists: d taken out, and then c put at the end of its own, unless it waited. */
  ghost predicate ListsAfter(q: Queues, p: Pool, q': Queues, gone: set<CtxId>, come: set<CtxId>) {
    && WaitSame(q, q', gone, come) && InTurn(q, q', gone)
    && forall c | c in come && (!Waits(q, c) || c in gone) :: IsLast(q', p, c)
  }

  lemma TakenOrder(q: Queues, p: Pool, c: CtxId)
    requires Queued(q, p) && Orderly(q) && c in p.ctxs && 0 <= p.ctxs[c].prio < MAX_PRIO
    ensures ListsAfter(q, p, Taken(q, p, Some(c)), {c}, {})
  {
    var k := p.ctxs[c].prio;
    if Waits(q, c) {
      DelQueued(q, p, c);
      DelFacts(q, k, c);
      var i :| 0 <= i < |q[k]| && q[k][i] == c;
      WithoutAt(q[k], i);
      hide Queued, Distinct, Without, Waits;
      CutOrder(q, k, i);
    } else {
      NotThere(q, c, k);
    }
  }

  /** Cutting one place out of a list moves nobody else. */
  lemma CutOrder(q: Queues, k: nat, i: nat)
    requires k < |q| && i < |q[k]|
    ensures InTurn(q, q[k := q[k][..i] + q[k][i + 1..]], {q[k][i]})
  {
    hide Before, Waits;
    var r := q[k := q[k][..i] + q[k][i + 1..]];
    forall m, d, e | d != q[k][i] && e != q[k][i]
      ensures Before(q, m, d, e) <==> Before(r, m, d, e)
    {
      if m == k {
        CutBefore(q, k, i, d, e);
      } else {
        SameList(q, r, m, d, e);
      }
    }
  }

  lemma SameList(q: Queues, r: Queues, k: int, d: CtxId, e: CtxId)
    requires |q| == |r| && (0 <= k < |q| ==> q[k] == r[k])
    ensures Before(q, k, d, e) <==> Before(r, k, d, e)
  {
  }

  lemma CutBefore(q: Queues, k: nat, i: nat, d: CtxId, e: CtxId)
    requires k < |q| && i < |q[k]| && d != q[k][i] && e != q[k][i]
    ensures Before(q, k, d, e) <==> Before(q[k := q[k][..i] + q[k][i + 1..]], k, d, e)
  {
    var l := q[k];
    var r := q[k := l[..i] + l[i + 1..]];
    if Before(q, k, d, e) {
      var a, b :| 0 <= a < b < |l| && l[a] == d && l[b] == e;
      var a', b' := if a < i then a else a - 1, if b < i then b else b - 1;
      assert r[k][a'] == d && r[k][b'] == e;
    }
    if Before(r, k, d, e) {
      var a, b :| 0 <= a < b < |r[k]| && r[k][a] == d && r[k][b] == e;
      var a', b' := if a < i then a else a + 1, if b < i then b else b + 1;
      assert l[a'] == d && l[b'] == e;
    }
  }

  lemma AppendedOrder(q: Queues, p: Pool, c: CtxId)
    requires Orderly(q) && c in p.ctxs && 0 <= p.ctxs[c].prio < MAX_PRIO
    ensures ListsAfter(q, p, Appended(q, p, c), {}, {c})
  {
    if !Waits(q, c) {
      AddDistinct(q, p.ctxs[c].prio, c);
      hide Distinct, Waits, Before;
      EndOrder(q, p.ctxs[c].prio, c);
    }
  }

  lemma EndOrder(q: Queues, k: nat, c: CtxId)
    requires k < |q| && !Waits(q, c)
    ensures InTurn(q, q[k := q[k] + [c]], {})
  {
    var r := q[k := q[k] + [c]];
    forall m, d, e | d != c && e != c
      ensures Before(q, m, d, e) <==> Before(r, m, d, e)
    {
      if m == k && Before(q, m, d, e) {
        var a, b :| 0 <= a < b < |q[m]| && q[m][a] == d && q[m][b] == e;
        assert r[m][a] == d && r[m][b] == e;
      }
      if m == k && Before(r, m, d, e) {
        var a, b :| 0 <= a < b < |r[m]| && r[m][a] == d && r[m][b] == e;
        assert q[m][a] == d && q[m][b] == e;
      }
    }
  }

  /** One after the other. */
  lemma ListsCompose(q: Queues, p: Pool, q': Queues, q'': Queues, d: CtxId, c: CtxId)
    requires ListsAfter(q, p, q', {d}, {}) && ListsAfter(q', p, q'', {}, {c})
    ensures ListsAfter(q, p, q'', {d}, {c})
  {
    hide Before, Waits, IsLast;
    assert Waits(q', c) <==> Waits(q, c) && c != d;
  }

  lemma ListsSame(q: Queues, p: Pool)
    ensures ListsAfter(q, p, q, {}, {})
  {
    hide Before, Waits;
  }

  // ---------------------------------------------------------------- deactivation

  /**
   An unbound context is left alone.  The next waiting context d that may run on the node of the
   SPU gets it, if d is scheduled by others and not bound elsewhere; if nobody may, c leaves only
   if it is forced to, and the SPU is free then.
   */
  ghost predicate DeactivateMeans(p: Pool, q: Queues, p': Pool, q': Queues, c: CtxId, force: bool, bound: int, hz: nat,
                                  r: Option<CtxId>) {
    c in p.ctxs &&
    match p.ctxs[c].spu
    case None => p' == p && q' == q && r == None
    case Some(s) =>
      && s in p.spus && NextOn(q, p, bound, p.spus[s].node, r)
      && match r
         case None =>
           && q' == q
           && if force then Leaves(p, p', c, p.ctxs[c].slice) && Empty(p', s, false) && OthersKept(p, p', {c}, s)
              else p' == p
         case Some(d) =>
           && d in p.ctxs && OthersKept(p, p', {c, d}, s) && ListsAfter(q, p, q', {d}, {})
           && (d != c ==> Leaves(p, p', c, p.ctxs[c].slice))
           && if p.ctxs[d].nosched then Empty(p', s, true) && (d == c ==> Leaves(p, p', c, p.ctxs[c].slice))
                                        && (d != c ==> p'.ctxs[d] == p.ctxs[d])
              else if d != c && p.ctxs[d].runnable then Empty(p', s, true) && p'.ctxs[d] == p.ctxs[d]
              else Gets(p, p', d, s, hz)
  }

  /** c leaves SPU s, and d gets it, or is bound elsewhere and left alone. */
  ghost predicate HandsOver(p: Pool, p': Pool, c: CtxId, d: CtxId, s: SpuId, slice: int, hz: nat) {
    && d in p.ctxs && OthersKept(p, p', {c, d}, s) && (d != c ==> Leaves(p, p', c, slice))
    && if d != c && p.ctxs[d].runnable then Empty(p', s, true) && p'.ctxs[d] == p.ctxs[d] else Gets(p, p', d, s, hz)
  }

  lemma HandedOver(p: Pool, m: Pool, s: SpuId, c: CtxId, d: CtxId, slice: int, hz: nat)
    requires d in p.ctxs && Leaves(p, m, c, slice) && OthersKept(p, m, {c}, s) && Empty(m, s, true)
             && m.spus[s].node in m.infos
    ensures d in m.ctxs && s in m.spus && HandsOver(p, Handed(m, s, d, hz), c, d, s, slice, hz)
  {
    hide IsSlice, TimeSlice, Placed;
    PlacedGets(m, s, d, hz);
  }

  lemma DeactivateLaw(p: Pool, q: Queues, p': Pool, q': Queues, c: CtxId, force: bool, bound: int, hz: nat,
                      r: Option<CtxId>)
    requires Sane(p) && Queued(q, p) && Orderly(q) && Deactivated(p, q, p', q', c, force, bound, hz, r)
    ensures DeactivateMeans(p, q, p', q', c, force, bound, hz, r)
  {
    hide Sane, Queued, Orderly, Grabbed, NextOn, SomeWaits, Removed, Handed, Taken, ListsAfter, Gets;
    if p.ctxs[c].spu.Some? {
      var s := p.ctxs[c].spu.value;
      BoundSomewhere(p, c);
      UsedIfBound(p, s);
      GrabbedIsNext(q, p, bound, p.spus[s].node, r);
      RemovedLeaves(p, s, c, r == None);
      match r
      case None => TakenNone(q, p);
      case Some(d) =>
        GrabbedIn(q, p, bound, p.spus[s].node, r);
        PrioRange(p, d);
        TakenOrder(q, p, d);
        HandedOver(p, Removed(p, s, c, false), s, c, d, p.ctxs[c].slice, hz);
    }
  }

  // ---------------------------------------------------------------- the tick

  /**
   A tick takes one from the slice of a timesliced context, and no more while there is some left.
   At the end of the slice the next waiting context of its priority or a better one takes its
   place, and the context waits if it is still to run; if there is no such context, it stays.
   */
  ghost predicate TickMeans(p: Pool, q: Queues, p': Pool, q': Queues, c: CtxId, hz: nat, r: Option<CtxId>) {
    && c in p.ctxs
    && var x := p.ctxs[c];
       if !x.runnable || x.nosched || x.fifo then p' == p && q' == q && r == None
       else
         && x.spu.Some? && x.spu.value in p.spus
         && var s := x.spu.value;
            if x.slice > 1 && x.run then p' == p.(ctxs := p.ctxs[c := x.(slice := x.slice - 1)]) && q' == q && r == None
            else
              && NextOn(q, p, x.prio + 1, p.spus[s].node, r)
              && match r
                 case None =>
                   p' == p.(ctxs := p.ctxs[c := x.(slice := if x.slice > 1 then x.slice - 1 else 1)]) && q' == q
                 case Some(d) =>
                   HandsOver(p, p', c, d, s, x.slice - 1, hz) && ListsAfter(q, p, q', {d}, if x.run then {c} else {})
  }

  lemma TickLaw(p: Pool, q: Queues, p': Pool, q': Queues, c: CtxId, hz: nat, r: Option<CtxId>)
    requires Sane(p) && Queued(q, p) && Orderly(q) && Ticked(p, q, p', q', c, hz, r)
    ensures TickMeans(p, q, p', q', c, hz, r)
  {
    hide Sane, Queued, Orderly, Grabbed, NextOn, SomeWaits, Removed, Handed, Taken, Appended, ListsAfter, HandsOver;
    TickFacts(p, c);
    var x := p.ctxs[c];
    if x.runnable && !x.nosched && !x.fifo {
      BoundFacts(p, c);
      if x.slice <= 1 || !x.run {
        GrabbedIsNext(q, p, x.prio + 1, p.spus[x.spu.value].node, r);
        if r.Some? {
          GrabbedIn(q, p, x.prio + 1, p.spus[x.spu.value].node, r);
          SpentOver(p, c, r.value, hz);
          DisplacedLists(p, q, c, r.value);
        }
      }
    }
  }

  lemma SpentOver(p: Pool, c: CtxId, d: CtxId, hz: nat)
    requires Sane(p) && c in p.ctxs && p.ctxs[c].spu.Some? && d in p.ctxs
    ensures OnSpu(p, c)
    ensures var s, slice := p.ctxs[c].spu.value, p.ctxs[c].slice - 1;
            && s in Sliced(p, c, slice).spus && c in Sliced(p, c, slice).ctxs
            && Sliced(p, c, slice).spus[s].node in Sliced(p, c, slice).infos
            && var m := Removed(Sliced(p, c, slice), s, c, false);
               && d in m.ctxs && s in m.spus && m.spus[s].node in m.infos
               && HandsOver(p, Handed(m, s, d, hz), c, d, s, slice, hz)
  {
    hide Sane, Removed, Handed, HandsOver;
    var s, slice := p.ctxs[c].spu.value, p.ctxs[c].slice - 1;
    BoundFacts(p, c);
    UsedIfBound(p, s);
    RemovedLeaves(Sliced(p, c, slice), s, c, false);
    HandedOver(p, Removed(Sliced(p, c, slice), s, c, false), s, c, d, slice, hz);
  }

  lemma DisplacedLists(p: Pool, q: Queues, c: CtxId, d: CtxId)
    requires Sane(p) && Queued(q, p) && Orderly(q) && c in p.ctxs && d in p.ctxs
    ensures var g := Taken(q, p, Some(d));
            ListsAfter(q, p, if p.ctxs[c].run then Appended(g, p, c) else g, {d}, if p.ctxs[c].run then {c} else {})
  {
    hide Sane, Queued, Taken, Appended, ListsAfter;
    PrioRange(p, c);
    PrioRange(p, d);
    TakenOrder(q, p, d);
    var g := Taken(q, p, Some(d));
    TakenOrderly(q, p, d);
    AppendedOrder(g, p, c);
    if p.ctxs[c].run {
      ListsCompose(q, p, g, Appended(g, p, c), d, c);
    }
  }

  lemma TakenOrderly(q: Queues, p: Pool, d: CtxId)
    requires Queued(q, p) && Orderly(q) && d in p.ctxs && 0 <= p.ctxs[d].prio < MAX_PRIO
    ensures Orderly(Taken(q, p, Some(d)))
  {
    if Waits(q, d) {
      DelQueued(q, p, d);
      hide Queued, Distinct;
      DelFacts(q, p.ctxs[d].prio, d);
    } else {
      NotThere(q, d, p.ctxs[d].prio);
    }
  }

  // ---------------------------------------------------------------- finding an SPU

  /** How many nodes are looked at before node n, from the local one on. */
  function Rounds(local: Node, n: Node, nodes: nat): int
    requires local < nodes && n < nodes
  {
    if n >= local then n - local else n + nodes - local
  }

  ghost predicate MayRun(p: Pool, nodes: nat, c: CtxId, n: Node) {
    c in p.ctxs && n < nodes && n in p.ctxs[c].allowed
  }

  /** SPU s is free, on a node where c may run. */
  ghost predicate FreeFor(p: Pool, nodes: nat, c: CtxId, s: SpuId) {
    s in p.spus && !p.spus[s].used && MayRun(p, nodes, c, p.spus[s].node)
  }

  /** c may run on the node of SPU s, and has a better priority than the context there, which is scheduled by others. */
  ghost predicate Preempts(p: Pool, nodes: nat, c: CtxId, s: SpuId) {
    && s in p.spus && p.spus[s].ctx.Some? && p.spus[s].ctx.value in p.ctxs && MayRun(p, nodes, c, p.spus[s].node)
    && p.ctxs[c].prio < p.ctxs[p.spus[s].ctx.value].prio && !p.ctxs[p.spus[s].ctx.value].nosched
  }

  /** No free SPU is on a node looked at before. */
  ghost predicate NearestFree(p: Pool, nodes: nat, c: CtxId, local: Node, s: SpuId)
    requires local < nodes
  {
    && FreeFor(p, nodes, c, s)
    && forall t | FreeFor(p, nodes, c, t) ::
         Rounds(local, p.spus[s].node, nodes) <= Rounds(local, p.spus[t].node, nodes)
  }

  /** No context to preempt is on a node looked at before, and none on this node has a worse priority. */
  ghost predicate NearestVictim(p: Pool, nodes: nat, c: CtxId, local: Node, s: SpuId)
    requires local < nodes
  {
    && Preempts(p, nodes, c, s)
    && forall t | Preempts(p, nodes, c, t) ::
         || Rounds(local, p.spus[s].node, nodes) < Rounds(local, p.spus[t].node, nodes)
         || (p.spus[t].node == p.spus[s].node && p.ctxs[p.spus[t].ctx.value].prio <= p.ctxs[p.spus[s].ctx.value].prio)
  }

  /**
   The place that affinity gives, if it is free; without affinity the nearest free SPU; for a
   realtime context the nearest victim, if there is neither; and otherwise none.
   */
  ghost predicate FoundHow(p: Pool, nodes: nat, c: CtxId, local: Node, place: Placement, got: Option<SpuId>) {
    && c in p.ctxs && local < nodes
    && if place.At? && place.spu.Some? && place.spu.value in p.spus && !p.spus[place.spu.value].used then
         got == place.spu
       else if place.Anywhere? && exists s :: FreeFor(p, nodes, c, s) then
         got.Some? && NearestFree(p, nodes, c, local, got.value)
       else if p.ctxs[c].prio < 100 && exists s :: Preempts(p, nodes, c, s) then
         got.Some? && NearestVictim(p, nodes, c, local, got.value)
       else got == None
  }

  lemma RoundsRotated(local: Node, i: nat, n: Node, nodes: nat)
    requires local < nodes && i < nodes && n < nodes
    ensures 0 <= Rounds(local, n, nodes) < nodes && Rotated(local, Rounds(local, n, nodes), nodes) == n
    ensures Rotated(local, i, nodes) < nodes && Rounds(local, Rotated(local, i, nodes), nodes) == i
  {
  }

  lemma FoundLaw(p: Pool, nodes: nat, c: CtxId, local: Node, place: Placement, got: Option<SpuId>)
    requires SpuFound(p, nodes, c, local, place, got)
    ensures FoundHow(p, nodes, c, local, place, got)
  {
    IdleWithin(p, nodes, c, local, place);
    hide IdleFound, VictimFound, FreeFor, Preempts, NearestFree, NearestVictim;
    if got.Some? && IdleFound(p, nodes, c, local, place, got) {
      IdleLaw(p, nodes, c, local, place, got);
    } else {
      IdleLaw(p, nodes, c, local, place, None);
      if p.ctxs[c].prio < MAX_RT_PRIO {
        VictimLaw(p, nodes, c, local, got);
      }
    }
  }

  lemma IdleWithin(p: Pool, nodes: nat, c: CtxId, local: Node, place: Placement)
    ensures forall r :: IdleFound(p, nodes, c, local, place, r) ==> c in p.ctxs && local < nodes
  {
  }

  lemma IdleLaw(p: Pool, nodes: nat, c: CtxId, local: Node, place: Placement, r: Option<SpuId>)
    requires local < nodes && IdleFound(p, nodes, c, local, place, r)
    ensures match place
            case At(x) => r == if x.Some? && x.value in p.spus && !p.spus[x.value].used then x else None
            case Anywhere =>
              if r.Some? then NearestFree(p, nodes, c, local, r.value) && FreeFor(p, nodes, c, r.value)
              else forall s :: !FreeFor(p, nodes, c, s)
  {
    hide Rounds, Rotated, AllTakenBefore;
    if r.Some? && place.Anywhere? {
      var s := r.value;
      var i :| 0 <= i < nodes && Rotated(local, i, nodes) == p.spus[s].node && AllTakenBefore(p, c, local, i, nodes);
      RoundsRotated(local, i, local, nodes);
      forall t | FreeFor(p, nodes, c, t)
        ensures Rounds(local, p.spus[s].node, nodes) <= Rounds(local, p.spus[t].node, nodes)
      {
        RoundsRotated(local, i, p.spus[t].node, nodes);
        TakenBefore(p, c, local, i, nodes, Rounds(local, p.spus[t].node, nodes));
      }
    }
  }

  lemma TakenBefore(p: Pool, c: CtxId, local: Node, i: int, n: nat, k: int)
    requires c in p.ctxs && local < n && 0 <= i <= n && AllTakenBefore(p, c, local, i, n) && 0 <= k < n
    ensures k < i && Rotated(local, k, n) in p.ctxs[c].allowed ==> AllTaken(p, Rotated(local, k, n))
  {
  }

  lemma VictimLaw(p: Pool, nodes: nat, c: CtxId, local: Node, r: Option<SpuId>)
    requires local < nodes && VictimFound(p, nodes, c, local, r)
    ensures if r.Some? then NearestVictim(p, nodes, c, local, r.value) && Preempts(p, nodes, c, r.value)
            else forall s :: !Preempts(p, nodes, c, s)
  {
    hide Rounds, Rotated, NoVictimBefore;
    forall t | Preempts(p, nodes, c, t)
      ensures IsVictim(p, p.spus[t].node, c, t)
    {
    }
    if r.Some? {
      var s := r.value;
      var i :| 0 <= i < nodes && Rotated(local, i, nodes) == p.spus[s].node && NoVictimBefore(p, c, local, i, nodes);
      RoundsRotated(local, i, local, nodes);
      forall t | Preempts(p, nodes, c, t)
        ensures Rounds(local, p.spus[s].node, nodes) < Rounds(local, p.spus[t].node, nodes)
             || (p.spus[t].node == p.spus[s].node && Worse(p, s, t))
      {
        RoundsRotated(local, i, p.spus[t].node, nodes);
        NoneBefore(p, c, local, i, nodes, Rounds(local, p.spus[t].node, nodes));
      }
    }
  }

  lemma NoneBefore(p: Pool, c: CtxId, local: Node, i: int, n: nat, k: int)
    requires c in p.ctxs && local < n && 0 <= i <= n && NoVictimBefore(p, c, local, i, n) && 0 <= k < n
    ensures k < i && Rotated(local, k, n) in p.ctxs[c].allowed ==> NoVictim(p, Rotated(local, k, n), c)
  {
  }

  // ---------------------------------------------------------------- activation

  /**
   Unless a signal is pending, c gets the SPU found, and the context that ran there, if any, is
   saved, and waits if it is still to run; c waits if no SPU is found.
   */
  ghost predicate ActivateMeans(p: Pool, q: Queues, p': Pool, q': Queues, nodes: nat, c: CtxId, local: Node,
                                place: Placement, signal: bool, hz: nat, o: Outcome, got: Option<SpuId>) {
    && c in p.ctxs
    && if signal then p' == p && q' == q && o == Interrupted && got == None
       else
         && FoundHow(p, nodes, c, local, place, got)
         && match got
            case None =>
              p' == p && ListsAfter(q, p, q', {}, {c}) && o == if p.ctxs[c].nosched then Waiting else Done
            case Some(s) =>
              && s in p.spus && o == Done && Gets(p, p', c, s, hz)
              && match p.spus[s].ctx
                 case None => OthersKept(p, p', {c}, s) && q' == q
                 case Some(v) =>
                   && v in p.ctxs && v != c && OthersKept(p, p', {c, v}, s) && Leaves(p, p', v, p.ctxs[v].slice)
                   && ListsAfter(q, p, q', {}, if p.ctxs[v].run then {v} else {})
  }

  lemma ActivateLaw(p: Pool, q: Queues, p': Pool, q': Queues, nodes: nat, c: CtxId, local: Node, place: Placement,
                    signal: bool, runnable: bool, hz: nat, o: Outcome, got: Option<SpuId>)
    requires Sane(p) && Queued(q, p) && Orderly(q)
    requires ActivateDone(p, q, p', q', nodes, c, local, place, signal, runnable, hz, o, got)
    ensures ActivateMeans(p, q, p', q', nodes, c, local, place, signal, hz, o, got)
  {
    hide Sane, Queued, Orderly, SpuFound, FoundHow, Claimed, Cleared, Requeued, Appended, ListsAfter, Gets;
    if !signal {
      FoundLaw(p, nodes, c, local, place, got);
      PrioRange(p, c);
      match got
      case None => AppendedOrder(q, p, c);
      case Some(s) =>
        ClearedSame(p, nodes, c, local, place, s);
        AtSpu(p, s);
        NotItself(p, nodes, c, local, place, s);
        if p.spus[s].ctx.Some? {
          PrioRange(p, p.spus[s].ctx.value);
        }
        RequeuedOrder(q, p, s);
        ClearedLeaves(p, s);
        ClaimedGets(p, Cleared(p, s), s, c, hz, runnable);
    }
  }

  /** Nobody preempts himself. */
  lemma NotItself(p: Pool, nodes: nat, c: CtxId, local: Node, place: Placement, s: SpuId)
    requires Sane(p) && SpuFound(p, nodes, c, local, place, Some(s))
    ensures s in p.spus && p.spus[s].ctx != Some(c) && (!p.spus[s].used ==> p.spus[s].ctx == None)
    ensures p.spus[s].ctx.Some? ==> p.spus[s].used
  {
    hide AllTaken, AllTakenBefore, NoVictim, NoVictimBefore, Worse, Coupled, Tallied;
  }

  lemma RequeuedOrder(q: Queues, p: Pool, s: SpuId)
    requires Orderly(q) && s in p.spus
    requires p.spus[s].ctx.Some? ==> p.spus[s].ctx.value in p.ctxs && 0 <= p.ctxs[p.spus[s].ctx.value].prio < MAX_PRIO
    ensures match p.spus[s].ctx
            case None => Requeued(q, p, s) == q
            case Some(v) => ListsAfter(q, p, Requeued(q, p, s), {}, if p.ctxs[v].run then {v} else {})
  {
    hide Orderly, ListsAfter, Appended;
    ListsSame(q, p);
    if p.spus[s].ctx.Some? {
      AppendedOrder(q, p, p.spus[s].ctx.value);
    }
  }

  lemma ClearedLeaves(p: Pool, s: SpuId)
    requires s in p.spus && p.spus[s].node in p.infos
    requires p.spus[s].ctx.Some? ==> p.spus[s].ctx.value in p.ctxs && p.spus[s].used
    ensures var m := Cleared(p, s);
            && Empty(m, s, true) && m.spus[s].node in m.infos && m.spus[s].node == p.spus[s].node
            && match p.spus[s].ctx
               case None => OthersKept(p, m, {}, s)
               case Some(v) => OthersKept(p, m, {v}, s) && Leaves(p, m, v, p.ctxs[v].slice)
  {
    if p.spus[s].ctx.Some? {
      RemovedLeaves(p, s, p.spus[s].ctx.value, false);
    }
    hide Removed;
  }

  lemma ClaimedGets(p: Pool, m: Pool, s: SpuId, c: CtxId, hz: nat, runnable: bool)
    requires Empty(m, s, true) && m.spus[s].node in m.infos && s in p.spus && m.spus[s].node == p.spus[s].node
    requires c in p.ctxs && c in m.ctxs && m.ctxs[c] == p.ctxs[c]
    ensures var t := Claimed(m, s, c, hz, runnable); Gets(p, t, c, s, hz) && OthersKept(m, t, {c}, s)
  {
    hide IsSlice, TimeSlice, Placed, Switched;
    PlacedGets(m, s, c, hz);
    SwitchedWhat(Placed(m, s, c, TimeSlice(m.ctxs[c].prio, hz)), c, User);
  }

  // ---------------------------------------------------------------- every operation

  /** What operation op means for contexts, SPUs and lists. */
  ghost predicate Means(a: Sched, op: Op, b: Sched, nodes: nat, hz: nat) {
    && op.c in a.pool.ctxs
    && match op
       case Deactivate(c, force, bound) =>
         exists r :: DeactivateMeans(a.pool, a.queues, b.pool, b.queues, c, force, bound, hz, r)
       case Yield(c) =>
         if a.pool.ctxs[c].nosched then b == a
         else exists r :: DeactivateMeans(a.pool, a.queues, b.pool, b.queues, c, false, MAX_PRIO, hz, r)
       case Tick(c) => exists r :: TickMeans(a.pool, a.queues, b.pool, b.queues, c, hz, r)
       case Activate(c, local, place, signal, _) =>
         if a.pool.ctxs[c].spu.Some? then b == a
         else exists o, got ::
                ActivateMeans(a.pool, a.queues, b.pool, b.queues, nodes, c, local, place, signal, hz, o, got)
       case Reactivate(c, local, place, signal, _) =>
         exists g, o, got ::
           && ListsAfter(a.queues, a.pool, g, {c}, {})
           && ActivateMeans(a.pool, g, b.pool, b.queues, nodes, c, local, place, signal, hz, o, got)
       case Update(c, prio, fifo, allowed) =>
         && !Waits(a.queues, c) && 0 <= prio < MAX_PRIO
         && b.pool == a.pool.(ctxs := a.pool.ctxs[c := a.pool.ctxs[c].(prio := prio, fifo := fifo, allowed := allowed)])
         && b.queues == a.queues
       case Switch(c, u) =>
         && b.pool.ctxs == a.pool.ctxs[c := a.pool.ctxs[c].(util := u)] && b.pool.spus == a.pool.spus
         && b.queues == a.queues
  }

  lemma WholeParts(lists: seq<seq<SpuId>>, a: Sched)
    requires Whole(lists, a)
    ensures Sane(a.pool) && Queued(a.queues, a.pool) && Orderly(a.queues)
  {
  }

  lemma StepLaw(lists: seq<seq<SpuId>>, a: Sched, op: Op, b: Sched, hz: nat)
    requires Whole(lists, a) && Does(a, op, b, |lists|, hz)
    ensures Means(a, op, b, |lists|, hz)
  {
    hide Whole, Sane, Queued, Orderly, Deactivated, Ticked, ActivateDone, Taken, Switched, DeactivateMeans, TickMeans,
         ActivateMeans, ListsAfter;
    WholeParts(lists, a);
    match op
    case Deactivate(c, force, bound) =>
      var r :| Deactivated(a.pool, a.queues, b.pool, b.queues, c, force, bound, hz, r);
      DeactivateLaw(a.pool, a.queues, b.pool, b.queues, c, force, bound, hz, r);
    case Yield(c) =>
      if !a.pool.ctxs[c].nosched {
        var r :| Deactivated(a.pool, a.queues, b.pool, b.queues, c, false, MAX_PRIO, hz, r);
        DeactivateLaw(a.pool, a.queues, b.pool, b.queues, c, false, MAX_PRIO, hz, r);
      }
    case Tick(c) =>
      var r :| Ticked(a.pool, a.queues, b.pool, b.queues, c, hz, r);
      TickLaw(a.pool, a.queues, b.pool, b.queues, c, hz, r);
    case Activate(c, local, place, signal, runnable) =>
      if a.pool.ctxs[c].spu == None {
        var o, got :| ActivateDone(a.pool, a.queues, b.pool, b.queues, |lists|, c, local, place, signal, runnable, hz,
                                   o, got);
        ActivateLaw(a.pool, a.queues, b.pool, b.queues, |lists|, c, local, place, signal, runnable, hz, o, got);
      }
    case Reactivate(c, local, place, signal, runnable) =>
      var g := Taken(a.queues, a.pool, Some(c));
      var o, got :| ActivateDone(a.pool, g, b.pool, b.queues, |lists|, c, local, place, signal, runnable, hz, o, got);
      PrioRange(a.pool, c);
      TakenOrder(a.queues, a.pool, c);
      TakenWhole(lists, a.pool, a.queues, Some(c));
      WholeParts(lists, Sched(a.pool, g));
      ActivateLaw(a.pool, g, b.pool, b.queues, |lists|, c, local, place, signal, runnable, hz, o, got);
    case Update(c, prio, fifo, allowed) =>
    case Switch(c, u) => SwitchedWhat(a.pool, c, u);
  }

  /**
   A context that gets an SPU may run on its node, or is put there by affinity; it has a whole
   slice, and one that did not ask for it had been waiting.
   */
  lemma BoundWhereAllowed(lists: seq<seq<SpuId>>, a: Sched, op: Op, b: Sched, hz: nat, d: CtxId, s: SpuId)
    requires Whole(lists, a) && Does(a, op, b, |lists|, hz) && d in a.pool.ctxs && d in b.pool.ctxs
    requires a.pool.ctxs[d].spu != Some(s) && b.pool.ctxs[d].spu == Some(s)
    ensures s in a.pool.spus && Gets(a.pool, b.pool, d, s, hz)
    ensures
      || a.pool.spus[s].node in a.pool.ctxs[d].allowed
      || ((op.Activate? || op.Reactivate?) && op.c == d && op.place == At(Some(s)))
    ensures op.Deactivate? || op.Yield? || op.Tick? ==> Waits(a.queues, d)
  {
    hide Whole, Does, ListsAfter, DeactivateMeans, TickMeans, ActivateMeans, Gets, Waits;
    StepLaw(lists, a, op, b, hz);
    match op
    case Deactivate(c, force, bound) =>
      var r :| DeactivateMeans(a.pool, a.queues, b.pool, b.queues, c, force, bound, hz, r);
      DeactivateBinds(a.pool, a.queues, b.pool, b.queues, c, force, bound, hz, r, d, s);
    case Yield(c) =>
      if !a.pool.ctxs[c].nosched {
        var r :| DeactivateMeans(a.pool, a.queues, b.pool, b.queues, c, false, MAX_PRIO, hz, r);
        DeactivateBinds(a.pool, a.queues, b.pool, b.queues, c, false, MAX_PRIO, hz, r, d, s);
      }
    case Tick(c) =>
      var r :| TickMeans(a.pool, a.queues, b.pool, b.queues, c, hz, r);
      TickBinds(a.pool, a.queues, b.pool, b.queues, c, hz, r, d, s);
    case Activate(c, local, place, signal, _) =>
      if a.pool.ctxs[c].spu == None {
        var o, got :| ActivateMeans(a.pool, a.queues, b.pool, b.queues, |lists|, c, local, place, signal, hz, o, got);
        ActivateBinds(a.pool, a.queues, b.pool, b.queues, |lists|, c, local, place, signal, hz, o, got, d, s);
      }
    case Reactivate(c, local, place, signal, _) =>
      var g, o, got :|
        && ListsAfter(a.queues, a.pool, g, {c}, {})
        && ActivateMeans(a.pool, g, b.pool, b.queues, |lists|, c, local, place, signal, hz, o, got);
      ActivateBinds(a.pool, g, b.pool, b.queues, |lists|, c, local, place, signal, hz, o, got, d, s);
    case Update(c, prio, fifo, allowed) =>
    case Switch(c, u) =>
  }

  /** d is bound to s now, and was not before. */
  ghost predicate NewOn(p: Pool, p': Pool, d: CtxId, s: SpuId) {
    d in p.ctxs && d in p'.ctxs && p.ctxs[d].spu != Some(s) && p'.ctxs[d].spu == Some(s)
  }

  lemma DeactivateBinds(p: Pool, q: Queues, p': Pool, q': Queues, c: CtxId, force: bool, bound: int, hz: nat,
                        r: Option<CtxId>, d: CtxId, s: SpuId)
    requires DeactivateMeans(p, q, p', q', c, force, bound, hz, r) && NewOn(p, p', d, s)
    ensures s in p.spus && Gets(p, p', d, s, hz) && p.spus[s].node in p.ctxs[d].allowed && Waits(q, d)
  {
    hide IsSlice, NextOn, ListsAfter, Waits;
    NextWhere(q, p);
  }

  lemma TickBinds(p: Pool, q: Queues, p': Pool, q': Queues, c: CtxId, hz: nat, r: Option<CtxId>, d: CtxId, s: SpuId)
    requires TickMeans(p, q, p', q', c, hz, r) && NewOn(p, p', d, s)
    ensures s in p.spus && Gets(p, p', d, s, hz) && p.spus[s].node in p.ctxs[d].allowed && Waits(q, d)
  {
    hide IsSlice, NextOn, ListsAfter, Waits;
    NextWhere(q, p);
  }

  lemma ActivateBinds(p: Pool, q: Queues, p': Pool, q': Queues, nodes: nat, c: CtxId, local: Node, place: Placement,
                      signal: bool, hz: nat, o: Outcome, got: Option<SpuId>, d: CtxId, s: SpuId)
    requires ActivateMeans(p, q, p', q', nodes, c, local, place, signal, hz, o, got) && NewOn(p, p', d, s)
    ensures d == c && s in p.spus && Gets(p, p', d, s, hz)
    ensures p.spus[s].node in p.ctxs[d].allowed || place == At(Some(s))
  {
    hide IsSlice, ListsAfter, Rounds;
  }

  lemma NextWhere(q: Queues, p: Pool)
    ensures forall bound, n, r | NextOn(q, p, bound, n, r) && r.Some? ::
              r.value in p.ctxs && n in p.ctxs[r.value].allowed && Waits(q, r.value)
  {
    forall bound, n, r | NextOn(q, p, bound, n, r) && r.Some?
      ensures r.value in p.ctxs && n in p.ctxs[r.value].allowed && Waits(q, r.value)
    {
      var l := q[p.ctxs[r.value].prio];
      var i :| 0 <= i < |l| && l[i] == r.value;
      assert l[i] in l;
    }
  }

  // ---------------------------------------------------------------- losing an SPU

  /** d was bound, and is on no SPU now. */
  ghost predicate NewOff(p: Pool, p': Pool, d: CtxId) {
    d in p.ctxs && d in p'.ctxs && p.ctxs[d].spu.Some? && p'.ctxs[d].spu == None
  }

  /**
   A context loses its SPU only by its own deactivation or yield, at the end of its slice, or to
   a realtime context of a better priority, and neither of the latter two if others do not schedule
   it.  It is saved, and, unless it has given the SPU up itself, waits if it is still to run.
   */
  lemma LosesWhy(lists: seq<seq<SpuId>>, a: Sched, op: Op, b: Sched, hz: nat, d: CtxId)
    requires Whole(lists, a) && Does(a, op, b, |lists|, hz) && NewOff(a.pool, b.pool, d)
    ensures Leaves(a.pool, b.pool, d, b.pool.ctxs[d].slice) && op.c in a.pool.ctxs
    ensures op.Deactivate? || op.Yield? ==> op.c == d
    ensures op.Tick? ==> op.c == d && !a.pool.ctxs[d].nosched && !a.pool.ctxs[d].fifo
    ensures op.Activate? || op.Reactivate? ==>
              op.c != d && a.pool.ctxs[op.c].prio < a.pool.ctxs[d].prio && a.pool.ctxs[op.c].prio < 100
                && !a.pool.ctxs[d].nosched
    ensures !op.Update? && !op.Switch?
    ensures a.pool.ctxs[d].run && !op.Deactivate? && !op.Yield? ==> Waits(b.queues, d)
  {
    hide Whole, Does, ListsAfter, DeactivateMeans, TickMeans, ActivateMeans, Leaves, Waits;
    StepLaw(lists, a, op, b, hz);
    match op
    case Deactivate(c, force, bound) =>
      var r :| DeactivateMeans(a.pool, a.queues, b.pool, b.queues, c, force, bound, hz, r);
      DeactivateFrees(a.pool, a.queues, b.pool, b.queues, c, force, bound, hz, r, d);
    case Yield(c) =>
      if !a.pool.ctxs[c].nosched {
        var r :| DeactivateMeans(a.pool, a.queues, b.pool, b.queues, c, false, MAX_PRIO, hz, r);
        DeactivateFrees(a.pool, a.queues, b.pool, b.queues, c, false, MAX_PRIO, hz, r, d);
      }
    case Tick(c) =>
      var r :| TickMeans(a.pool, a.queues, b.pool, b.queues, c, hz, r);
      TickFrees(a.pool, a.queues, b.pool, b.queues, c, hz, r, d);
    case Activate(c, local, place, signal, _) =>
      if a.pool.ctxs[c].spu == None {
        var o, got :| ActivateMeans(a.pool, a.queues, b.pool, b.queues, |lists|, c, local, place, signal, hz, o, got);
        WholeParts(lists, a);
        ActivateFrees(a.pool, a.queues, b.pool, b.queues, |lists|, c, local, place, signal, hz, o, got, d);
      }
    case Reactivate(c, local, place, signal, _) =>
      var g, o, got :|
        && ListsAfter(a.queues, a.pool, g, {c}, {})
        && ActivateMeans(a.pool, g, b.pool, b.queues, |lists|, c, local, place, signal, hz, o, got);
      WholeParts(lists, a);
      ActivateFrees(a.pool, g, b.pool, b.queues, |lists|, c, local, place, signal, hz, o, got, d);
    case Update(c, prio, fifo, allowed) =>
    case Switch(c, u) =>
  }

  lemma DeactivateFrees(p: Pool, q: Queues, p': Pool, q': Queues, c: CtxId, force: bool, bound: int, hz: nat,
                        r: Option<CtxId>, d: CtxId)
    requires DeactivateMeans(p, q, p', q', c, force, bound, hz, r) && NewOff(p, p', d)
    ensures d == c && Leaves(p, p', d, p'.ctxs[d].slice)
  {
    hide IsSlice, NextOn, ListsAfter;
  }

  lemma TickFrees(p: Pool, q: Queues, p': Pool, q': Queues, c: CtxId, hz: nat, r: Option<CtxId>, d: CtxId)
    requires TickMeans(p, q, p', q', c, hz, r) && NewOff(p, p', d)
    ensures d == c && Leaves(p, p', d, p'.ctxs[d].slice) && !p.ctxs[d].nosched && !p.ctxs[d].fifo
    ensures p.ctxs[d].run ==> Waits(q', d)
  {
    hide IsSlice, NextOn, InTurn, IsLast, Waits;
  }

  lemma ActivateFrees(p: Pool, q: Queues, p': Pool, q': Queues, nodes: nat, c: CtxId, local: Node, place: Placement,
                      signal: bool, hz: nat, o: Outcome, got: Option<SpuId>, d: CtxId)
    requires ActivateMeans(p, q, p', q', nodes, c, local, place, signal, hz, o, got) && NewOff(p, p', d) && Sane(p)
    ensures d != c && Leaves(p, p', d, p'.ctxs[d].slice) && p.ctxs[c].prio < p.ctxs[d].prio && p.ctxs[c].prio < 100
    ensures !p.ctxs[d].nosched && (p.ctxs[d].run ==> Waits(q', d))
  {
    hide IsSlice, InTurn, IsLast, Waits, Rounds, Sane;
    FreeRunsNothing(p);
  }

  lemma FreeRunsNothing(p: Pool)
    requires Sane(p)
    ensures forall s | s in p.spus && !p.spus[s].used :: p.spus[s].ctx == None
  {
  }

  // ---------------------------------------------------------------- giving way

  /**
   A yield, or a deactivation that is not forced, changes something exactly if the context is
   bound, scheduled by others in case of a yield, and somebody waits who may run in its place.
   */
  lemma GivesWayWhen(lists: seq<seq<SpuId>>, a: Sched, op: Op, b: Sched, hz: nat)
    requires Whole(lists, a) && Does(a, op, b, |lists|, hz) && (op.Yield? || (op.Deactivate? && !op.force))
    ensures op.c in a.pool.ctxs && (a.pool.ctxs[op.c].spu.Some? ==> a.pool.ctxs[op.c].spu.value in a.pool.spus)
    ensures
      var x := a.pool.ctxs[op.c];
      b != a
      <==> x.spu.Some? && (op.Yield? ==> !x.nosched)
             && exists k, e ::
               && 0 <= k < (if op.Yield? then 140 else op.maxPrio) && k < |a.queues| && e in a.queues[k]
               && e in a.pool.ctxs
               && a.pool.spus[x.spu.value].node in a.pool.ctxs[e].allowed
  {
    hide Whole, Does, ListsAfter, DeactivateMeans, Waits;
    StepLaw(lists, a, op, b, hz);
    if op.Deactivate? {
      var r :| DeactivateMeans(a.pool, a.queues, b.pool, b.queues, op.c, false, op.maxPrio, hz, r);
      DeactivateChanges(a.pool, a.queues, b.pool, b.queues, op.c, op.maxPrio, hz, r);
    } else if !a.pool.ctxs[op.c].nosched {
      var r :| DeactivateMeans(a.pool, a.queues, b.pool, b.queues, op.c, false, MAX_PRIO, hz, r);
      DeactivateChanges(a.pool, a.queues, b.pool, b.queues, op.c, MAX_PRIO, hz, r);
    }
    AtSpuOf(lists, a, op.c);
  }

  lemma AtSpuOf(lists: seq<seq<SpuId>>, a: Sched, c: CtxId)
    requires Whole(lists, a) && c in a.pool.ctxs
    ensures a.pool.ctxs[c].spu.Some? ==> a.pool.ctxs[c].spu.value in a.pool.spus
  {
  }

  lemma DeactivateChanges(p: Pool, q: Queues, p': Pool, q': Queues, c: CtxId, bound: int, hz: nat, r: Option<CtxId>)
    requires DeactivateMeans(p, q, p', q', c, false, bound, hz, r)
    ensures p.ctxs[c].spu.Some? ==> p.ctxs[c].spu.value in p.spus
    ensures (p' == p && q' == q)
       <==> !(p.ctxs[c].spu.Some? && SomeWaits(q, p, bound, p.spus[p.ctxs[c].spu.value].node))
  {
    hide IsSlice, InTurn, IsLast, NextOn, SomeWaits, Waits;
    NextWhere(q, p);
    if p.ctxs[c].spu.Some? {
      NextSome(q, p, bound, p.spus[p.ctxs[c].spu.value].node, r);
    }
  }

  lemma NextSome(q: Queues, p: Pool, bound: int, n: Node, r: Option<CtxId>)
    requires NextOn(q, p, bound, n, r)
    ensures r.Some? <==> SomeWaits(q, p, bound, n)
  {
    if r.Some? {
      var l := q[p.ctxs[r.value].prio];
      var i :| 0 <= i < |l| && l[i] == r.value;
      assert l[i] in l;
    }
  }

  // ---------------------------------------------------------------- waiting in turn

  /**
   Nobody is passed while he waits: those who wait before and after an operation on another
   context do so in the same order, and whoever begins to wait stands behind all of his priority.
   */
  lemma WaitsInTurn(lists: seq<seq<SpuId>>, a: Sched, op: Op, b: Sched, hz: nat)
    requires Whole(lists, a) && Does(a, op, b, |lists|, hz)
    ensures KeepsOrder(a.queues, a.pool, b.queues, op.c)
  {
    hide Whole, Does, DeactivateMeans, TickMeans, ActivateMeans, KeepsOrder, ListsAfter;
    StepLaw(lists, a, op, b, hz);
    OrderSame(a.queues, a.pool, op.c);
    match op
    case Deactivate(c, force, bound) =>
      var r :| DeactivateMeans(a.pool, a.queues, b.pool, b.queues, c, force, bound, hz, r);
      DeactivateLists(a.pool, a.queues, b.pool, b.queues, c, force, bound, hz, r);
    case Yield(c) =>
      if !a.pool.ctxs[c].nosched {
        var r :| DeactivateMeans(a.pool, a.queues, b.pool, b.queues, c, false, MAX_PRIO, hz, r);
        DeactivateLists(a.pool, a.queues, b.pool, b.queues, c, false, MAX_PRIO, hz, r);
      }
    case Tick(c) =>
      var r :| TickMeans(a.pool, a.queues, b.pool, b.queues, c, hz, r);
      TickLists(a.pool, a.queues, b.pool, b.queues, c, hz, r);
    case Activate(c, local, place, signal, _) =>
      if a.pool.ctxs[c].spu == None {
        var o, got :| ActivateMeans(a.pool, a.queues, b.pool, b.queues, |lists|, c, local, place, signal, hz, o, got);
        ActivateLists(a.pool, a.queues, b.pool, b.queues, |lists|, c, local, place, signal, hz, o, got);
      }
    case Reactivate(c, local, place, signal, _) =>
      var g, o, got :|
        && ListsAfter(a.queues, a.pool, g, {c}, {})
        && ActivateMeans(a.pool, g, b.pool, b.queues, |lists|, c, local, place, signal, hz, o, got);
      ActivateLists(a.pool, g, b.pool, b.queues, |lists|, c, local, place, signal, hz, o, got);
      OrderThen(a.queues, a.pool, g, b.queues, c);
    case Update(c, prio, fifo, allowed) =>
    case Switch(c, u) =>
  }

  /** Contexts other than c that go on waiting keep their order, and new ones stand behind. */
  ghost predicate KeepsOrder(q: Queues, p: Pool, q': Queues, c: CtxId) {
    && (forall k, d, e | Waits(q, d) && Waits(q', d) && Waits(q, e) && Waits(q', e) && d != c && e != c ::
          Before(q, k, d, e) <==> Before(q', k, d, e))
    && forall e | !Waits(q, e) && Waits(q', e) :: IsLast(q', p, e)
  }

  lemma OrderSame(q: Queues, p: Pool, c: CtxId)
    ensures KeepsOrder(q, p, q, c)
  {
    hide Before, Waits;
  }

  lemma OrderAfter(q: Queues, p: Pool, q': Queues, gone: set<CtxId>, come: set<CtxId>, c: CtxId)
    requires ListsAfter(q, p, q', gone, come) && come * gone <= {c}
    ensures KeepsOrder(q, p, q', c)
  {
    hide Before, Waits, IsLast;
    forall d | d in gone && d != c
      ensures d !in come
    {
      assert d in come ==> d in come * gone;
    }
  }

  lemma OrderThen(q: Queues, p: Pool, g: Queues, q': Queues, c: CtxId)
    requires ListsAfter(q, p, g, {c}, {}) && KeepsOrder(g, p, q', c)
    ensures KeepsOrder(q, p, q', c)
  {
    hide Before, Waits, IsLast;
  }

  lemma DeactivateLists(p: Pool, q: Queues, p': Pool, q': Queues, c: CtxId, force: bool, bound: int, hz: nat,
                        r: Option<CtxId>)
    requires DeactivateMeans(p, q, p', q', c, force, bound, hz, r)
    ensures KeepsOrder(q, p, q', c)
  {
    hide KeepsOrder, ListsAfter, OthersKept, Leaves, Gets, NextOn;
    OrderSame(q, p, c);
    if p.ctxs[c].spu.Some? && r.Some? {
      OrderAfter(q, p, q', {r.value}, {}, c);
    }
  }

  lemma TickLists(p: Pool, q: Queues, p': Pool, q': Queues, c: CtxId, hz: nat, r: Option<CtxId>)
    requires TickMeans(p, q, p', q', c, hz, r)
    ensures KeepsOrder(q, p, q', c)
  {
    hide KeepsOrder, ListsAfter, HandsOver, NextOn;
    OrderSame(q, p, c);
    if r.Some? {
      OrderAfter(q, p, q', {r.value}, if p.ctxs[c].run then {c} else {}, c);
    }
  }

  lemma ActivateLists(p: Pool, q: Queues, p': Pool, q': Queues, nodes: nat, c: CtxId, local: Node, place: Placement,
                      signal: bool, hz: nat, o: Outcome, got: Option<SpuId>)
    requires ActivateMeans(p, q, p', q', nodes, c, local, place, signal, hz, o, got)
    ensures KeepsOrder(q, p, q', c)
  {
    hide KeepsOrder, ListsAfter, OthersKept, Leaves, Gets, FoundHow;
    OrderSame(q, p, c);
    if !signal {
      match got
      case None => OrderAfter(q, p, q', {}, {c}, c);
      case Some(s) =>
        if p.spus[s].ctx.Some? {
          var v := p.spus[s].ctx.value;
          OrderAfter(q, p, q', {}, if p.ctxs[v].run then {v} else {}, c);
        }
    }
  }

  /**
   A context stops waiting only because it runs, because it has been told that an SPU may be had,
   if others do not schedule it, or because it looks for one itself.
   */
  lemma NobodyForgotten(lists: seq<seq<SpuId>>, a: Sched, op: Op, b: Sched, hz: nat, d: CtxId)
    requires Whole(lists, a) && Does(a, op, b, |lists|, hz) && Waits(a.queues, d) && !Waits(b.queues, d)
    ensures d in a.pool.ctxs && d in b.pool.ctxs
    ensures
      || b.pool.ctxs[d].spu.Some? || (op.Reactivate? && op.c == d)
      || ((op.Deactivate? || op.Yield?) && a.pool.ctxs[d].nosched)
  {
    hide Does, DeactivateMeans, TickMeans, ActivateMeans, ListsAfter, Orderly, Listed, Sane;
    StepLaw(lists, a, op, b, hz);
    RunnableBound(lists, a, d);
    match op
    case Deactivate(c, force, bound) =>
      var r :| DeactivateMeans(a.pool, a.queues, b.pool, b.queues, c, force, bound, hz, r);
      DeactivateServes(a.pool, a.queues, b.pool, b.queues, c, force, bound, hz, r, d);
    case Yield(c) =>
      if !a.pool.ctxs[c].nosched {
        var r :| DeactivateMeans(a.pool, a.queues, b.pool, b.queues, c, false, MAX_PRIO, hz, r);
        DeactivateServes(a.pool, a.queues, b.pool, b.queues, c, false, MAX_PRIO, hz, r, d);
      }
    case Tick(c) =>
      var r :| TickMeans(a.pool, a.queues, b.pool, b.queues, c, hz, r);
      TickServes(a.pool, a.queues, b.pool, b.queues, c, hz, r, d);
    case Activate(c, local, place, signal, _) =>
      if a.pool.ctxs[c].spu == None {
        var o, got :| ActivateMeans(a.pool, a.queues, b.pool, b.queues, |lists|, c, local, place, signal, hz, o, got);
        ActivateServes(a.pool, a.queues, b.pool, b.queues, |lists|, c, local, place, signal, hz, o, got, d);
      }
    case Reactivate(c, local, place, signal, _) =>
      var g, o, got :|
        && ListsAfter(a.queues, a.pool, g, {c}, {})
        && ActivateMeans(a.pool, g, b.pool, b.queues, |lists|, c, local, place, signal, hz, o, got);
      if d != c {
        TakenServes(a.queues, a.pool, g, c, d);
        ActivateServes(a.pool, g, b.pool, b.queues, |lists|, c, local, place, signal, hz, o, got, d);
      } else {
        ActivateStays(a.pool, g, b.pool, b.queues, |lists|, c, local, place, signal, hz, o, got, d);
      }
    case Update(c, prio, fifo, allowed) =>
    case Switch(c, u) =>
  }

  lemma RunnableBound(lists: seq<seq<SpuId>>, a: Sched, d: CtxId)
    requires Whole(lists, a) && Waits(a.queues, d)
    ensures d in a.pool.ctxs && (a.pool.ctxs[d].runnable <==> a.pool.ctxs[d].spu.Some?)
  {
    hide Listed, Orderly, Coupled, Tallied;
  }

  lemma DeactivateServes(p: Pool, q: Queues, p': Pool, q': Queues, c: CtxId, force: bool, bound: int, hz: nat,
                         r: Option<CtxId>, d: CtxId)
    requires DeactivateMeans(p, q, p', q', c, force, bound, hz, r) && Waits(q, d) && !Waits(q', d)
    requires d in p.ctxs && (p.ctxs[d].runnable <==> p.ctxs[d].spu.Some?)
    ensures d in p'.ctxs && (p'.ctxs[d].spu.Some? || p.ctxs[d].nosched)
  {
    hide IsSlice, InTurn, IsLast, Waits, NextOn;
  }

  lemma TickServes(p: Pool, q: Queues, p': Pool, q': Queues, c: CtxId, hz: nat, r: Option<CtxId>, d: CtxId)
    requires TickMeans(p, q, p', q', c, hz, r) && Waits(q, d) && !Waits(q', d)
    requires d in p.ctxs && (p.ctxs[d].runnable <==> p.ctxs[d].spu.Some?)
    ensures d in p'.ctxs && p'.ctxs[d].spu.Some?
  {
    hide IsSlice, InTurn, IsLast, Waits, NextOn;
  }

  lemma ActivateServes(p: Pool, q: Queues, p': Pool, q': Queues, nodes: nat, c: CtxId, local: Node, place: Placement,
                       signal: bool, hz: nat, o: Outcome, got: Option<SpuId>, d: CtxId)
    requires ActivateMeans(p, q, p', q', nodes, c, local, place, signal, hz, o, got) && Waits(q, d)
    ensures Waits(q', d)
  {
    hide IsSlice, InTurn, IsLast, Waits, FoundHow;
  }

  lemma ActivateStays(p: Pool, q: Queues, p': Pool, q': Queues, nodes: nat, c: CtxId, local: Node, place: Placement,
                      signal: bool, hz: nat, o: Outcome, got: Option<SpuId>, d: CtxId)
    requires ActivateMeans(p, q, p', q', nodes, c, local, place, signal, hz, o, got)
    ensures p'.ctxs.Keys == p.ctxs.Keys && (!signal ==> p'.ctxs[c].spu.Some? || Waits(q', c))
  {
    hide IsSlice, InTurn, IsLast, Waits, FoundHow;
  }

  lemma TakenServes(q: Queues, p: Pool, g: Queues, c: CtxId, d: CtxId)
    requires ListsAfter(q, p, g, {c}, {}) && Waits(q, d) && d != c
    ensures Waits(g, d)
  {
    hide InTurn, IsLast, Waits;
  }

  /** A context that asks for an SPU runs or waits afterwards, unless a signal stops it. */
  lemma RunsOrWaits(lists: seq<seq<SpuId>>, a: Sched, op: Op, b: Sched, hz: nat)
    requires Whole(lists, a) && Does(a, op, b, |lists|, hz) && (op.Activate? || op.Reactivate?) && !op.signal
    ensures op.c in b.pool.ctxs && (b.pool.ctxs[op.c].spu.Some? || Waits(b.queues, op.c))
  {
    hide Whole, Does, ActivateMeans, ListsAfter, Waits;
    StepLaw(lists, a, op, b, hz);
    match op
    case Activate(c, local, place, signal, _) =>
      if a.pool.ctxs[c].spu == None {
        var o, got :| ActivateMeans(a.pool, a.queues, b.pool, b.queues, |lists|, c, local, place, signal, hz, o, got);
        ActivateStays(a.pool, a.queues, b.pool, b.queues, |lists|, c, local, place, signal, hz, o, got, c);
      }
    case Reactivate(c, local, place, signal, _) =>
      var g, o, got :|
        && ListsAfter(a.queues, a.pool, g, {c}, {})
        && ActivateMeans(a.pool, g, b.pool, b.queues, |lists|, c, local, place, signal, hz, o, got);
      ActivateStays(a.pool, g, b.pool, b.queues, |lists|, c, local, place, signal, hz, o, got, c);
  }

  // ---------------------------------------------------------------- how long a slice lasts

  /** c is bound and to run, and shares its SPU by time slices. */
  ghost predicate Shares(a: Sched, c: CtxId) {
    c in a.pool.ctxs && var x := a.pool.ctxs[c]; x.runnable && x.run && !x.nosched && !x.fifo
  }

  /** A context keeps its SPU for as many ticks, less one, as its slice has, whoever waits. */
  lemma {:induction false} SliceLasts(lists: seq<seq<SpuId>>, run: seq<Sched>, ops: seq<Op>, hz: nat, c: CtxId, k: nat)
    requires IsRun(run, ops, |lists|, hz) && Whole(lists, run[0]) && Shares(run[0], c) && k <= |ops|
    requires k < run[0].pool.ctxs[c].slice && forall i | 0 <= i < k :: ops[i] == Tick(c)
    ensures Whole(lists, run[k]) && run[k].queues == run[0].queues
    ensures var p := run[0].pool; run[k].pool == p.(ctxs := p.ctxs[c := p.ctxs[c].(slice := p.ctxs[c].slice - k)])
  {
    hide Whole, Does;
    var p := run[0].pool;
    if k > 0 {
      SliceLasts(lists, run, ops, hz, c, k - 1);
      StepKeeps(lists, run[k - 1], ops[k - 1], run[k], hz);
      StepLaw(lists, run[k - 1], ops[k - 1], run[k], hz);
      assert p.ctxs[c := p.ctxs[c].(slice := p.ctxs[c].slice - (k - 1))][c := p.ctxs[c].(slice := p.ctxs[c].slice - k)]
          == p.ctxs[c := p.ctxs[c].(slice := p.ctxs[c].slice - k)];
    } else {
      assert p.ctxs[c := p.ctxs[c].(slice := p.ctxs[c].slice - 0)] == p.ctxs;
    }
  }

  /**
   With the last tick of its slice it loses the SPU exactly if somebody else waits of its priority
   or a better one who may run there; otherwise it goes on with one tick.
   */
  lemma SliceEnds(lists: seq<seq<SpuId>>, run: seq<Sched>, ops: seq<Op>, hz: nat, c: CtxId)
    requires IsRun(run, ops, |lists|, hz) && Whole(lists, run[0]) && Shares(run[0], c) && !Waits(run[0].queues, c)
    requires run[0].pool.ctxs[c].slice == |ops| && forall i | 0 <= i < |ops| :: ops[i] == Tick(c)
    ensures c in run[|ops|].pool.ctxs && run[0].pool.ctxs[c].spu.Some?
            && run[0].pool.ctxs[c].spu.value in run[0].pool.spus && |ops| > 0
    ensures var p, s := run[0].pool, run[0].pool.ctxs[c].spu.value;
            var others := exists k, e ::
              && 0 <= k <= p.ctxs[c].prio && k < |run[0].queues| && e in run[0].queues[k] && e in p.ctxs
              && p.spus[s].node in p.ctxs[e].allowed;
            if others then NewOff(p, run[|ops|].pool, c) && Waits(run[|ops|].queues, c)
            else run[|ops|].pool == p.(ctxs := p.ctxs[c := p.ctxs[c].(slice := 1)])
  {
    hide Whole, Does;
    SlicePositive(lists, run[0], c);
    var p := run[0].pool;
    var k := |ops| - 1;
    SliceLasts(lists, run, ops, hz, c, k);
    StepLaw(lists, run[k], ops[k], run[k + 1], hz);
    var r :| TickMeans(run[k].pool, run[k].queues, run[k + 1].pool, run[k + 1].queues, c, hz, r);
    TickEnds(p, run[0].queues, run[k].pool, run[k + 1].pool, run[k + 1].queues, c, hz, r);
  }

  lemma SlicePositive(lists: seq<seq<SpuId>>, a: Sched, c: CtxId)
    requires Whole(lists, a) && Shares(a, c)
    ensures a.pool.ctxs[c].slice >= 1 && a.pool.ctxs[c].spu.Some? && a.pool.ctxs[c].spu.value in a.pool.spus
  {
  }

  lemma TickEnds(p: Pool, q: Queues, m: Pool, p': Pool, q': Queues, c: CtxId, hz: nat, r: Option<CtxId>)
    requires c in p.ctxs && m == p.(ctxs := p.ctxs[c := p.ctxs[c].(slice := 1)]) && !Waits(q, c)
    requires p.ctxs[c].runnable && p.ctxs[c].run && !p.ctxs[c].nosched && !p.ctxs[c].fifo
    requires TickMeans(m, q, p', q', c, hz, r)
    ensures p.ctxs[c].spu.Some? && p.ctxs[c].spu.value in p.spus && c in p'.ctxs
    ensures if SomeWaits(q, p, p.ctxs[c].prio + 1, p.spus[p.ctxs[c].spu.value].node)
            then NewOff(p, p', c) && Waits(q', c) else p' == m
  {
    hide IsSlice, InTurn, IsLast, NextOn, Waits, SomeWaits;
    var n := p.spus[p.ctxs[c].spu.value].node;
    NextSome(q, m, p.ctxs[c].prio + 1, n, r);
    NextWhere(q, m);
    SomeSame(q, p, m, p.ctxs[c].prio + 1, n, c);
    assert p.ctxs[c := p.ctxs[c].(slice := 1)][c := m.ctxs[c].(slice := 1)] == m.ctxs;
  }

  lemma SomeSame(q: Queues, p: Pool, m: Pool, bound: int, n: Node, c: CtxId)
    requires c in p.ctxs && m == p.(ctxs := p.ctxs[c := p.ctxs[c].(slice := 1)])
    ensures SomeWaits(q, p, bound, n) <==> SomeWaits(q, m, bound, n)
  {
    if SomeWaits(q, p, bound, n) {
      var k, d :| 0 <= k < bound && k < |q| && d in q[k] && d in p.ctxs && n in p.ctxs[d].allowed;
      assert d in q[k] && d in m.ctxs && n in m.ctxs[d].allowed;
    }
  }
}

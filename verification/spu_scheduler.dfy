/**
 The SPU scheduler.  Every method is one atomic operation of the scheduler: the locks that the
 original drops and retakes inside an operation are not modelled.  Where the affinity of a gang
 wants a context is a parameter.
 */
module SpuScheduler {
  import opened Options
  import opened SpuRunqueue
  import opened SpuModel

  /** A waiting context waits in the list of its priority. */
  ghost predicate Queued(q: Queues, p: Pool) {
    forall k, c | 0 <= k < |q| && c in q[k] :: c in p.ctxs && p.ctxs[c].prio == k
  }

  /** The SPUs of every node, in the order of its list. */
  ghost predicate Listed(lists: seq<seq<SpuId>>, p: Pool) {
    && (forall n, s | 0 <= n < |lists| && s in lists[n] :: s in p.spus && p.spus[s].node == n)
    && (forall s | s in p.spus :: p.spus[s].node < |lists| && s in lists[p.spus[s].node])
  }

  /** Nothing about priorities and nodes has changed. */
  ghost predicate SameLabels(p: Pool, q: Pool) {
    && q.spus.Keys == p.spus.Keys && (forall s | s in p.spus :: q.spus[s].node == p.spus[s].node)
    && q.ctxs.Keys == p.ctxs.Keys && (forall c | c in p.ctxs :: q.ctxs[c].prio == p.ctxs[c].prio)
  }

  lemma LabelsKeep(r: Queues, lists: seq<seq<SpuId>>, p: Pool, q: Pool)
    requires Queued(r, p) && Listed(lists, p) && SameLabels(p, q)
    ensures Queued(r, q) && Listed(lists, q)
  {
  }

  lemma PlacedLabels(p: Pool, s: SpuId, c: CtxId, slice: int)
    requires s in p.spus && c in p.ctxs && p.spus[s].node in p.infos
    ensures SameLabels(p, Placed(p, s, c, slice))
  {
  }

  lemma RemovedLabels(p: Pool, s: SpuId, c: CtxId, free: bool)
    requires s in p.spus && c in p.ctxs && p.spus[s].node in p.infos
    ensures SameLabels(p, Removed(p, s, c, free))
  {
  }

  lemma IdleSane(p: Pool)
    requires forall s | s in p.spus :: p.spus[s].ctx == None && p.spus[s].node in p.infos
    requires forall c | c in p.ctxs :: p.ctxs[c].spu == None && !p.ctxs[c].runnable && 0 <= p.ctxs[c].prio < MAX_PRIO
    requires forall n | n in p.infos :: p.infos[n] == Info(0, 0, 0)
    ensures Sane(p)
  {
    forall n | n in p.infos
      ensures Tally(p, n) == Info(0, 0, 0)
    {
      assert Occupied(p, n) == {} && Reserved(p, n) == {} && Busy(p, n) == {};
    }
  }

  /** The contexts that may run on node n. */
  function Fit(p: Pool, n: Node): set<CtxId> {
    set c | c in p.ctxs && n in p.ctxs[c].allowed
  }

  class Scheduler {
    var spus: map<SpuId, Spu>
    var ctxs: map<CtxId, Ctx>
    var infos: map<Node, Info>
    const rq: RunQueue
    /** The SPUs of each node, node by node. */
    const lists: seq<seq<SpuId>>
    const hz: nat

    function P(): Pool
      reads this
    {
      Pool(spus, ctxs, infos)
    }

    ghost predicate Valid()
      reads this, rq
    {
      Sane(P()) && rq.Valid() && Queued(rq.runq, P()) && Listed(lists, P())
    }

    /** Boot: every SPU is free, every context saved, nobody waits. */
    constructor (spus: map<SpuId, Spu>, ctxs: map<CtxId, Ctx>, lists: seq<seq<SpuId>>, hz: nat)
      requires forall s | s in spus :: spus[s].ctx == None && !spus[s].used
      requires forall c | c in ctxs :: ctxs[c].spu == None && !ctxs[c].runnable && 0 <= ctxs[c].prio < MAX_PRIO
      requires forall n, s | 0 <= n < |lists| && s in lists[n] :: s in spus && spus[s].node == n
      requires forall s | s in spus :: spus[s].node < |lists| && s in lists[spus[s].node]
      ensures Valid() && fresh(rq) && this.spus == spus && this.ctxs == ctxs && this.lists == lists && this.hz == hz
      ensures rq.runq == seq(MAX_PRIO, _ => [])
    {
      this.spus, this.ctxs, this.lists, this.hz := spus, ctxs, lists, hz;
      this.infos := map[];
      this.rq := new RunQueue();
      new;
      var n := 0;
      while n < |lists|
        invariant 0 <= n <= |lists| && rq.Valid() && fresh(rq) && rq.runq == seq(MAX_PRIO, _ => [])
        invariant this.spus == spus && this.ctxs == ctxs && this.lists == lists && this.hz == hz
        invariant forall k :: k in infos <==> 0 <= k < n
        invariant forall k | k in infos :: infos[k] == Info(0, 0, 0)
      {
        infos := infos[n := Info(0, 0, 0)];
        n := n + 1;
      }
      IdleSane(P());
    }

    /** spuctx_switch_state */
    method SwitchState(c: CtxId, u: Util)
      requires c in ctxs && (ctxs[c].spu.Some? ==> ctxs[c].spu.value in spus && spus[ctxs[c].spu.value].node in infos)
      modifies this`ctxs, this`infos
      ensures P() == Switched(old(P()), c, u)
    {
      var x := ctxs[c];
      ctxs := ctxs[c := x.(util := u)];
      if x.spu.Some? {
        var n := spus[x.spu.value].node;
        if x.util == User {
          infos := infos[n := infos[n].(busy := infos[n].busy - 1)];
        }
        if u == User {
          infos := infos[n := infos[n].(busy := infos[n].busy + 1)];
        }
      }
    }

    /**
     spu_bind_context: all of a binding but the count of active contexts and the mark of the SPU,
     which are left to the caller.
     */
    method Bind(s: SpuId, c: CtxId)
      requires s in spus && c in ctxs && spus[s].node in infos
      requires ctxs[c].spu.Some? ==> ctxs[c].spu.value in spus && spus[ctxs[c].spu.value].node in infos
      modifies this`spus, this`ctxs, this`infos
      ensures s in spus && spus[s].used == old(spus)[s].used && old(spus)[s].node in infos
      ensures WithSpu(Recounted(P(), old(spus)[s].node, 1, 0), s, spus[s].(used := true))
           == Placed(old(P()), s, c, old(ctxs)[c].slice)
    {
      hide Switched, Placed;
      BindMeans(P(), s, c);
      SwitchedWhat(P(), c, System);
      SwitchState(c, System);
      var n := spus[s].node;
      if ctxs[c].nosched {
        infos := infos[n := infos[n].(reserved := infos[n].reserved + 1)];
      } else {
        assert infos[n := infos[n]] == infos;
      }
      spus := spus[s := spus[s].(ctx := Some(c))];
      ctxs := ctxs[c := ctxs[c].(spu := Some(s), runnable := true)];
      SwitchState(c, User);
    }

    /** spu_unbind_context: all of an unbinding but the count of active contexts, already lowered. */
    method Unbind(s: SpuId, c: CtxId)
      requires s in spus && c in ctxs && spus[s].node in infos && spus[s].ctx == Some(c) && ctxs[c].spu == Some(s)
      modifies this`spus, this`ctxs, this`infos
      ensures P() == Removed(Recounted(old(P()), old(spus)[s].node, 1, 0), s, c, false)
    {
      hide Switched, Removed;
      UnbindMeans(P(), s, c);
      SwitchedWhat(P(), c, System);
      SwitchState(c, System);
      var n := spus[s].node;
      if ctxs[c].nosched {
        infos := infos[n := infos[n].(reserved := infos[n].reserved - 1)];
      } else {
        assert infos[n := infos[n]] == infos;
      }
      ctxs := ctxs[c := ctxs[c].(runnable := false)];
      spus := spus[s := spus[s].(ctx := None)];
      SwitchedWhat(P(), c, IdleLoaded);
      SwitchState(c, IdleLoaded);
      ctxs := ctxs[c := ctxs[c].(spu := None)];
    }

    /** spu_set_timeslice: at least the least slice, at most 800 ms unless the priority is a realtime one. */
    method SetTimeslice(c: CtxId)
      requires c in ctxs
      modifies this`ctxs
      ensures P() == Sliced(old(P()), c, TimeSlice(old(ctxs)[c].prio, hz))
      ensures c in ctxs && ctxs[c].slice >= MinSlice(hz) >= 1 && (Sane(old(P())) ==> Sane(P()))
      ensures MAX_PRIO - MAX_USER_PRIO <= ctxs[c].prio < MAX_PRIO ==> ctxs[c].slice <= Max(8 * DefSlice(hz), MinSlice(hz))
      ensures IsSlice(ctxs[c].slice, ctxs[c].prio, hz)
    {
      var prio := ctxs[c].prio;
      SliceIs(prio, hz);
      SliceSane(P(), c, hz);
      hide Sane, IsSlice;
      var slice := if prio < NORMAL_PRIO then ScalePrio(DefSlice(hz) * 4, prio, hz) else ScalePrio(DefSlice(hz), prio, hz);
      ctxs := ctxs[c := ctxs[c].(slice := slice)];
    }

    method AddActive(n: Node, k: int)
      requires n in infos
      modifies this`infos
      ensures P() == Recounted(old(P()), n, k, 0)
    {
      infos := infos[n := infos[n].(nrActive := infos[n].nrActive + k)];
    }

    method SetUsed(s: SpuId, used: bool)
      requires s in spus
      modifies this`spus
      ensures P() == WithSpu(old(P()), s, old(spus)[s].(used := used))
    {
      spus := spus[s := spus[s].(used := used)];
    }

    /** The binding part of __spu_schedule. */
    method Occupy(s: SpuId, c: CtxId)
      requires Sane(P()) && s in spus && c in ctxs && spus[s].ctx == None
      modifies this`spus, this`ctxs, this`infos
      ensures old(spus)[s].node in old(infos)
      ensures P() == Placed(old(P()), s, c, TimeSlice(old(ctxs)[c].prio, hz))
    {
      hide Sane, Placed, TimeSlice, Recounted, WithSpu;
      AtHome(P(), s, c);
      SlicedPlaced(P(), s, c, TimeSlice(ctxs[c].prio, hz));
      var n := spus[s].node;
      SetTimeslice(c);
      Bind(s, c);
      AddActive(n, 1);
      SetUsed(s, true);
    }

    /** spu_unschedule */
    method Unschedule(s: SpuId, c: CtxId, free: bool)
      requires s in spus && c in ctxs && spus[s].ctx == Some(c) && ctxs[c].spu == Some(s) && spus[s].node in infos
      modifies this`spus, this`ctxs, this`infos
      ensures P() == Removed(old(P()), s, c, free)
    {
      hide Removed;
      RemovedAfter(P(), s, c, free);
      AddActive(spus[s].node, -1);
      SetUsed(s, spus[s].used && !free);
      Unbind(s, c);
    }

    // -------------------------------------------------------------- the run queue

    /** spu_add_to_rq */
    method AddToRq(c: CtxId)
      requires Valid() && c in ctxs
      modifies rq
      ensures Valid() && rq.linked == old(rq.linked) + {c}
      ensures rq.runq == if c in old(rq.linked) then old(rq.runq)
                         else old(rq.runq)[ctxs[c].prio := old(rq.runq)[ctxs[c].prio] + [c]]
    {
      hide Coupled, Tallied, Listed, Distinct, Total;
      AddQueued(rq.runq, P(), c);
      rq.Add(c, ctxs[c].prio);
    }

    /** The same, by what it does to the lists. */
    method Requeue(c: CtxId)
      requires Valid() && c in ctxs
      modifies rq
      ensures Valid() && rq.runq == Appended(old(rq.runq), P(), c) && rq.linked == old(rq.linked) + {c}
    {
      assert 0 <= ctxs[c].prio < MAX_PRIO && (c in rq.linked <==> Waits(rq.runq, c)) && |rq.runq| == MAX_PRIO;
      hide Sane, Queued, Listed, Waits, RunQueue.Valid;
      AddToRq(c);
    }

    /** spu_del_from_rq */
    method DelFromRq(c: CtxId)
      requires Valid() && c in ctxs
      modifies rq
      ensures Valid() && rq.linked == old(rq.linked) - {c} && rq.runq == Taken(old(rq.runq), P(), Some(c))
    {
      hide Coupled, Tallied, Listed, Distinct, Total;
      DelQueued(rq.runq, P(), c);
      if !Waits(rq.runq, c) {
        WithoutAbsent(rq.runq[ctxs[c].prio], c);
      }
      rq.Del(c, ctxs[c].prio);
    }

    /** grab_runnable_context: the next context to run on node n, of a priority better than prio. */
    method GrabRunnable(prio: int, n: Node) returns (r: Option<CtxId>)
      requires rq.Valid() && Queued(rq.runq, P()) && 0 <= prio <= MAX_PRIO
      modifies rq
      ensures rq.Valid() && Queued(rq.runq, P())
      ensures Grabbed(old(rq.runq), P(), prio, n, r) && rq.runq == Taken(old(rq.runq), P(), r)
      ensures rq.linked == if r.Some? then old(rq.linked) - {r.value} else old(rq.linked)
      ensures NextOn(old(rq.runq), P(), prio, n, r) && (r.Some? <==> SomeWaits(old(rq.runq), P(), prio, n))
    {
      hide Coupled, Tallied, Listed, Distinct, Total, NextOn, SomeWaits;
      ghost var q := rq.runq;
      r := rq.Grab(prio, Fit(P(), n), map c | c in ctxs :: ctxs[c].prio);
      if r.Some? {
        DelQueued(q, P(), r.value);
      }
      GrabbedIsNext(q, P(), prio, n, r);
    }

    // -------------------------------------------------------------- handing an SPU over

    /** __spu_schedule */
    method Schedule(s: SpuId, c: CtxId)
      requires Valid() && s in spus && c in ctxs
      modifies this`spus, this`ctxs, this`infos, rq
      ensures old(spus)[s].node in old(infos)
      ensures old(spus)[s].ctx == None ==>
                && P() == Placed(old(P()), s, c, TimeSlice(old(ctxs)[c].prio, hz))
                && rq.runq == old(rq.runq) && rq.linked == old(rq.linked)
                && if old(ctxs)[c].spu == None then Valid() else !Coupled(P())
      ensures old(spus)[s].ctx != None ==>
                && Valid() && P() == Sliced(old(P()), c, TimeSlice(old(ctxs)[c].prio, hz))
                && rq.linked == old(rq.linked) + {c}
    {
      hide Sane, Placed, Sliced, Coupled, Queued, Listed, TimeSlice, RunQueue.Valid;
      ghost var p := P();
      SaneParts(p, s, c);
      if spus[s].ctx == None {
        PlacedWhole(rq.runq, lists, p, s, c, hz);
      } else {
        SlicedWhole(rq.runq, lists, p, c, hz);
      }
      if spus[s].ctx == None {
        Occupy(s, c);
      } else {
        SlicedIs(p, c, TimeSlice(ctxs[c].prio, hz));
        SetTimeslice(c);
        AddToRq(c);
      }
    }

    /** spu_schedule: only a saved context is bound. */
    method HandOver(s: SpuId, d: CtxId)
      requires Valid() && s in spus && d in ctxs && spus[s].ctx == None
      modifies this`spus, this`ctxs, this`infos, rq
      ensures Valid() && old(spus)[s].node in old(infos) && P() == Handed(old(P()), s, d, hz)
      ensures rq.runq == old(rq.runq) && rq.linked == old(rq.linked)
    {
      hide Sane, Placed, Coupled, Queued, Listed, TimeSlice, RunQueue.Valid;
      SaneParts(P(), s, d);
      SavedIsFree(P(), d);
      if !ctxs[d].runnable {
        Schedule(s, d);
      }
    }

    /** spu_unschedule, with what it keeps. */
    method Vacate(s: SpuId, c: CtxId, free: bool)
      requires Valid() && s in spus && c in ctxs && spus[s].ctx == Some(c)
      modifies this`spus, this`ctxs, this`infos
      ensures Valid() && old(spus)[s].node in old(infos) && P() == Removed(old(P()), s, c, free)
    {
      hide Sane, Removed, Coupled, Queued, Listed, RunQueue.Valid;
      SaneParts(P(), s, c);
      BoundHere(P(), s, c);
      RemovedWhole(rq.runq, lists, P(), s, c, free);
      Unschedule(s, c, free);
    }

    /** __spu_deactivate; r is the context that was found waiting. */
    method Deactivate(c: CtxId, force: bool, maxPrio: int) returns (r: Option<CtxId>)
      requires Valid() && c in ctxs && 0 <= maxPrio <= MAX_PRIO
      modifies this`spus, this`ctxs, this`infos, rq
      ensures Valid() && Deactivated(old(P()), old(rq.runq), P(), rq.runq, c, force, maxPrio, hz, r)
    {
      hide Sane, Removed, Handed, Coupled, Queued, Listed, Grabbed, RunQueue.Valid;
      if ctxs[c].spu.Some? {
        BoundSomewhere(P(), c);
      }
      r := None;
      if ctxs[c].spu.Some? {
        var s := ctxs[c].spu.value;
        r := GrabRunnable(maxPrio, spus[s].node);
        GrabbedIn(old(rq.runq), P(), maxPrio, spus[s].node, r);
        if r.Some? || force {
          VacatedIn(P(), s, c, r == None);
          Vacate(s, c, r == None);
          if r.Some? && !ctxs[r.value].nosched {
            HandOver(s, r.value);
          }
        }
      }
    }

    /** spusched_tick; r is the context that takes the SPU over. */
    method Tick(c: CtxId) returns (r: Option<CtxId>)
      requires Valid() && c in ctxs
      modifies this`spus, this`ctxs, this`infos, rq
      ensures Valid() && Ticked(old(P()), old(rq.runq), P(), rq.runq, c, hz, r)
    {
      hide Sane, Coupled, Queued, Listed, Sliced, Preempted, RunQueue.Valid;
      ghost var p := P();
      TickFacts(p, c);
      r := None;
      var x := ctxs[c];
      if x.runnable && !x.nosched && !x.fifo {
        SpendSlice(c);
        if x.slice == 1 || !x.run {
          r := Preempt(c, p);
        }
      }
    }

    method SetSlice(c: CtxId, slice: int)
      requires c in ctxs
      modifies this`ctxs
      ensures P() == Sliced(old(P()), c, slice)
    {
      ctxs := ctxs[c := ctxs[c].(slice := slice)];
    }

    /** The time slice is decremented. */
    method SpendSlice(c: CtxId)
      requires Valid() && c in ctxs && ctxs[c].spu.Some?
      modifies this`ctxs
      ensures P() == Sliced(old(P()), c, old(ctxs)[c].slice - 1)
      ensures rq.Valid() && Queued(rq.runq, P()) && Listed(lists, P()) && (old(ctxs)[c].slice > 1 ==> Sane(P()))
    {
      hide Sane, Coupled, Queued, Listed, Sliced, RunQueue.Valid;
      SpentSane(rq.runq, lists, P(), c);
      SetSlice(c, ctxs[c].slice - 1);
    }

    /** The slice is over: a waiting context of equal or better priority gets the SPU, or a new
        slice of one tick begins. */
    method Preempt(c: CtxId, ghost p: Pool) returns (r: Option<CtxId>)
      requires Sane(p) && rq.Valid() && Queued(rq.runq, P()) && Listed(lists, P()) && c in p.ctxs && p.ctxs[c].spu.Some?
      requires P() == Sliced(p, c, p.ctxs[c].slice - 1)
      modifies this`spus, this`ctxs, this`infos, rq
      ensures Valid() && Preempted(p, old(rq.runq), P(), rq.runq, c, hz, r)
    {
      hide Sane, Coupled, Queued, Listed, Grabbed, Taken, Sliced, Preempted, RunQueue.Valid;
      BoundFacts(p, c);
      SlicedIs(p, c, p.ctxs[c].slice - 1);
      var x := ctxs[c];
      var n := spus[x.spu.value].node;
      r := GrabRunnable(x.prio + 1, n);
      GrabbedSliced(old(rq.runq), p, c, x.slice, x.prio + 1, n, r);
      if r == None {
        KeepSpu(c, p, old(rq.runq));
      } else {
        Displace(c, r.value, p, old(rq.runq));
      }
    }

    /** Nobody else is to run: a slice used up becomes one of a single tick. */
    method KeepSpu(c: CtxId, ghost p: Pool, ghost q: Queues)
      requires Sane(p) && rq.Valid() && Queued(rq.runq, P()) && Listed(lists, P()) && OnSpu(p, c)
      requires P() == Sliced(p, c, p.ctxs[c].slice - 1) && rq.runq == q
      requires Grabbed(q, p, p.ctxs[c].prio + 1, p.spus[p.ctxs[c].spu.value].node, None)
      modifies this`ctxs
      ensures Valid() && Preempted(p, q, P(), rq.runq, c, hz, None)
    {
      hide Sane, Queued, Listed, Grabbed, Sliced, Preempted, RunQueue.Valid;
      KeptWhole(rq.runq, lists, p, c, hz);
      SlicedIs(p, c, p.ctxs[c].slice - 1);
      if ctxs[c].slice == 0 {
        SetSlice(c, 1);
      }
    }

    /** d takes the SPU over from c, which waits again if it is still to run. */
    method Displace(c: CtxId, d: CtxId, ghost p: Pool, ghost q: Queues)
      requires Sane(p) && rq.Valid() && Queued(rq.runq, P()) && Listed(lists, P()) && OnSpu(p, c) && d in p.ctxs
      requires P() == Sliced(p, c, p.ctxs[c].slice - 1) && rq.runq == Taken(q, p, Some(d))
      requires Grabbed(q, p, p.ctxs[c].prio + 1, p.spus[p.ctxs[c].spu.value].node, Some(d))
      modifies this`spus, this`ctxs, this`infos, rq
      ensures Valid() && Preempted(p, q, P(), rq.runq, c, hz, Some(d))
    {
      hide Sane, Queued, Listed, Grabbed, Taken, Sliced, Removed, Handed, Appended, Preempted, RunQueue.Valid;
      SlicedIs(p, c, p.ctxs[c].slice - 1);
      var s, run := ctxs[c].spu.value, ctxs[c].run;
      ReplacedWhole(rq.runq, lists, p, q, c, d, hz);
      Leave(s, c, run, p);
      HandOver(s, d);
    }

    method Leave(s: SpuId, c: CtxId, run: bool, ghost p: Pool)
      requires s in spus && c in ctxs && spus[s].ctx == Some(c) && ctxs[c].spu == Some(s) && spus[s].node in infos
      requires c in p.ctxs && SameLabels(p, Removed(P(), s, c, false))
      requires var m := Removed(P(), s, c, false); Sane(m) && rq.Valid() && Queued(rq.runq, m) && Listed(lists, m)
      modifies this`spus, this`ctxs, this`infos, rq
      ensures Valid() && P() == Removed(old(P()), s, c, false)
      ensures rq.runq == if run then Appended(old(rq.runq), p, c) else old(rq.runq)
    {
      hide Sane, Queued, Listed, Removed, Appended, SameLabels, RunQueue.Valid;
      ghost var m := Removed(P(), s, c, false);
      AppendedSame(rq.runq, p, m, c);
      Unschedule(s, c, false);
      if run {
        Requeue(c);
      }
    }

    /** spu_yield */
    method Yield(c: CtxId)
      requires Valid() && c in ctxs
      modifies this`spus, this`ctxs, this`infos, rq
      ensures Valid()
      ensures if old(ctxs)[c].nosched then P() == old(P()) && rq.runq == old(rq.runq)
              else exists r :: Deactivated(old(P()), old(rq.runq), P(), rq.runq, c, false, MAX_PRIO, hz, r)
    {
      hide Sane, Coupled, Queued, Listed, Deactivated, RunQueue.Valid;
      if !ctxs[c].nosched {
        var r := Deactivate(c, false, MAX_PRIO);
      }
    }

    // -------------------------------------------------------------- finding an SPU

    /** The first free SPU of node n. */
    method FreeSpuOf(n: Node) returns (r: Option<SpuId>)
      requires Listed(lists, P()) && 0 <= n < |lists|
      ensures match r
              case None => AllTaken(P(), n)
              case Some(s) =>
                && s in spus && spus[s].node == n && !spus[s].used
                && exists i :: 0 <= i < |lists[n]| && lists[n][i] == s && AllUsed(P(), lists[n][..i])
    {
      var i := 0;
      while i < |lists[n]|
        invariant 0 <= i <= |lists[n]|
        invariant forall j | 0 <= j < i :: lists[n][j] in spus && spus[lists[n][j]].used
      {
        var s := lists[n][i];
        assert s in lists[n];
        if !spus[s].used {
          assert AllUsed(P(), lists[n][..i]);
          return Some(s);
        }
        i := i + 1;
      }
      return None;
    }

    /**
     spu_get_idle: the place that the affinity of a gang gives the context, if that is free, and
     otherwise, without affinity, the first free SPU from the local node on.  It is marked as used.
     */
    method GetIdle(c: CtxId, local: Node, place: Placement) returns (r: Option<SpuId>)
      requires Valid() && c in ctxs && 0 <= local < |lists| && Exists(P(), place)
      modifies this`spus
      ensures Valid() && IdleFound(old(P()), |lists|, c, local, place, r)
      ensures place.Anywhere? && r.Some? ==> FirstFree(old(P()), lists, r.value)
      ensures match r
              case None => P() == old(P())
              case Some(s) => s in old(spus) && P() == WithSpu(old(P()), s, old(spus)[s].(used := true))
    {
      hide Sane, Queued, Listed, WithSpu, AllTaken, AllTakenBefore, FirstFree, RunQueue.Valid;
      match place
      case Anywhere =>
        r := SearchNodes(c, local);
      case At(spu) =>
        r := None;
        if spu.Some? && !spus[spu.value].used {
          UsedWhole(rq.runq, lists, P(), spu.value);
          r := spu;
          SetUsed(spu.value, true);
        }
    }

    /** The search of the nodes where the context may run. */
    method SearchNodes(c: CtxId, local: Node) returns (r: Option<SpuId>)
      requires Valid() && c in ctxs && 0 <= local < |lists|
      modifies this`spus
      ensures Valid() && IdleFound(old(P()), |lists|, c, local, Anywhere, r)
      ensures r.Some? ==> FirstFree(old(P()), lists, r.value)
      ensures match r
              case None => P() == old(P())
              case Some(s) => s in old(spus) && P() == WithSpu(old(P()), s, old(spus)[s].(used := true))
    {
      hide Sane, Queued, Listed, WithSpu, AllTaken, AllTakenBefore, RunQueue.Valid;
      ghost var p := P();
      var node, n := local, 0;
      NoneBeforeFirst(p, c, local, |lists|);
      while n < |lists|
        invariant 0 <= n <= |lists| && P() == p && Valid()
        invariant node == if local + n < |lists| || n == 0 then local + n
                          else if local + n == |lists| then |lists| else local + n - |lists|
        invariant AllTakenBefore(p, c, local, n, |lists|)
      {
        node := if node < |lists| then node else 0;
        assert node == Rotated(local, n, |lists|);
        if node in ctxs[c].allowed {
          r := FreeSpuOf(node);
          if r.Some? {
            UsedWhole(rq.runq, lists, p, r.value);
            SetUsed(r.value, true);
            return;
          }
        }
        NoneBeforeNext(p, c, local, n, |lists|);
        n, node := n + 1, node + 1;
      }
      RotatedCovers(p, c, local, |lists|);
      return None;
    }

    /** The context of node n to preempt for c: the worst priority, the first of these. */
    method VictimOf(n: Node, c: CtxId) returns (r: Option<SpuId>)
      requires Coupled(P()) && Listed(lists, P()) && 0 <= n < |lists| && c in ctxs
      ensures match r
              case None => NoVictim(P(), n, c)
              case Some(s) =>
                && IsVictim(P(), n, c, s) && (forall t | IsVictim(P(), n, c, t) :: Worse(P(), s, t))
                && exists i :: 0 <= i < |lists[n]| && lists[n][i] == s && NoneAsBad(P(), n, c, lists[n][..i], s)
    {
      hide Coupled;
      SaneLinks(P());
      r := None;
      var i := 0;
      ghost var at := 0;
      while i < |lists[n]|
        invariant 0 <= i <= |lists[n]|
        invariant match r
                  case None => forall j | 0 <= j < i :: !IsVictim(P(), n, c, lists[n][j])
                  case Some(s) =>
                    && IsVictim(P(), n, c, s)
                    && (forall j | 0 <= j < i && IsVictim(P(), n, c, lists[n][j]) :: Worse(P(), s, lists[n][j]))
                    && 0 <= at < i && lists[n][at] == s && NoneAsBad(P(), n, c, lists[n][..at], s)
      {
        var s := lists[n][i];
        assert s in lists[n];
        var tmp := spus[s].ctx;
        if tmp.Some? && ctxs[tmp.value].prio > ctxs[c].prio && !ctxs[tmp.value].nosched &&
           (r == None || ctxs[tmp.value].prio > ctxs[spus[r.value].ctx.value].prio) {
          r, at := Some(s), i;
        }
        i := i + 1;
      }
      forall t | IsVictim(P(), n, c, t)
        ensures exists j :: 0 <= j < |lists[n]| && lists[n][j] == t
      {
        assert t in lists[n];
      }
    }

    /**
     find_victim: the SPU of a context to be preempted for c.  The context is unbound, and waits
     again if it is still to run; the SPU stays marked as used.
     */
    method FindVictim(c: CtxId, local: Node) returns (r: Option<SpuId>)
      requires Valid() && c in ctxs && 0 <= local < |lists|
      modifies this`spus, this`ctxs, this`infos, rq
      ensures Valid() && VictimFound(old(P()), |lists|, c, local, r)
      ensures Evicted(old(P()), old(rq.runq), P(), rq.runq, r) && (r == None ==> rq.linked == old(rq.linked))
      ensures r.Some? ==> FirstVictim(old(P()), lists, c, r.value)
    {
      hide Sane, Queued, Listed, NoVictim, NoVictimBefore, IsVictim, Worse, Evicted, Coupled, FirstVictim,
           RunQueue.Valid;
      ghost var p := P();
      var node, n := local, 0;
      NoVictimFirst(p, c, local, |lists|);
      while n < |lists|
        invariant 0 <= n <= |lists| && P() == p && Valid() && rq.runq == old(rq.runq) && rq.linked == old(rq.linked)
        invariant node == if local + n < |lists| || n == 0 then local + n
                          else if local + n == |lists| then |lists| else local + n - |lists|
        invariant NoVictimBefore(p, c, local, n, |lists|)
      {
        node := if node < |lists| then node else 0;
        assert node == Rotated(local, n, |lists|);
        if node in ctxs[c].allowed {
          SaneCoupled(p);
          r := VictimOf(node, c);
          if r.Some? {
            VictimIs(p, node, c, r.value);
            VictimFirst(p, lists, node, c, r.value);
            Evict(r.value, spus[r.value].ctx.value);
            return;
          }
        }
        NoVictimNext(p, c, local, n, |lists|);
        n, node := n + 1, node + 1;
      }
      RotatedVictims(p, c, local, |lists|);
      NobodyEvicted(p, rq.runq);
      return None;
    }

    method Evict(s: SpuId, v: CtxId)
      requires Valid() && s in spus && v in ctxs && spus[s].ctx == Some(v)
      modifies this`spus, this`ctxs, this`infos, rq
      ensures Valid() && Evicted(old(P()), old(rq.runq), P(), rq.runq, Some(s))
    {
      hide Sane, Queued, Listed, Removed, Appended, SameLabels, RunQueue.Valid;
      BoundHere(P(), s, v);
      RemovedWhole(rq.runq, lists, P(), s, v, false);
      RemovedLabels(P(), s, v, false);
      Leave(s, v, ctxs[v].run, P());
    }

    // -------------------------------------------------------------- spu_activate

    /** c gets SPU s, which is held for it. */
    method TakeOver(s: SpuId, c: CtxId, runnable: bool)
      requires Valid() && s in spus && c in ctxs && spus[s].ctx == None
      modifies this`spus, this`ctxs, this`infos, rq
      ensures P() == Claimed(old(P()), s, c, hz, runnable)
      ensures if old(ctxs)[c].spu == None then Valid() else !Coupled(P())
      ensures c in ctxs && s in spus && ctxs[c].spu == Some(s) && spus[s].ctx == Some(c)
      ensures rq.linked == old(rq.linked) && rq.runq == old(rq.runq)
    {
      hide Sane, Coupled, Queued, Listed, Placed, Switched, SameLabels, TimeSlice, RunQueue.Valid;
      ghost var p := P();
      SaneParts(p, s, c);
      PlacedIs(p, s, c, TimeSlice(ctxs[c].prio, hz));
      Schedule(s, c);
      ghost var q := P();
      if runnable {
        SwitchedWhole(rq.runq, lists, q, c, User);
        SwitchState(c, User);
      }
    }

    /**
     spu_activate from its label spu_activate_top on.  It does not look whether the context has
     been bound meanwhile; if it has, and there is an SPU to be had, the context ends up on two.
     */
    method ActivateTop(c: CtxId, local: Node, place: Placement, signal: bool, runnable: bool) returns (o: Outcome,
                       got: Option<SpuId>)
      requires Valid() && c in ctxs && 0 <= local < |lists| && Exists(P(), place)
      modifies this`spus, this`ctxs, this`infos, rq
      ensures ActivateDone(old(P()), old(rq.runq), P(), rq.runq, |lists|, c, local, place, signal, runnable, hz, o, got)
      ensures if old(ctxs)[c].spu == None || signal || NothingFor(old(P()), |lists|, c, place) then Valid()
              else !Coupled(P())
      ensures c in ctxs && (got.Some? ==> ctxs[c].spu == got)
    {
      hide Sane, Coupled, Queued, Listed, IdleFound, VictimFound, Claimed, Cleared, Requeued, Appended, RunQueue.Valid;
      hide SpuFound, NothingFor;
      ghost var p := P();
      o, got := Done, None;
      if signal {
        o := Interrupted;
      } else {
        got := FindSpu(c, local, place);
        FoundExactly(p, |lists|, c, local, place, got);
        if got.Some? {
          TakeOver(got.value, c, runnable);
        } else {
          Requeue(c);
          o := if ctxs[c].nosched then Waiting else Done;
        }
      }
    }

    /** spu_activate: a context that is bound already is left alone. */
    method Activate(c: CtxId, local: Node, place: Placement, signal: bool, runnable: bool) returns (o: Outcome,
                    got: Option<SpuId>)
      requires Valid() && c in ctxs && 0 <= local < |lists| && Exists(P(), place)
      modifies this`spus, this`ctxs, this`infos, rq
      ensures Valid() && c in ctxs
      ensures if old(ctxs)[c].spu.Some? then o == Done && got == None && P() == old(P()) && rq.runq == old(rq.runq)
              else ActivateDone(old(P()), old(rq.runq), P(), rq.runq, |lists|, c, local, place, signal, runnable, hz,
                                o, got)
      ensures got.Some? ==> ctxs[c].spu == got
    {
      hide Sane, Coupled, Queued, Listed, ActivateDone, RunQueue.Valid;
      if ctxs[c].spu.Some? {
        return Done, None;
      }
      o, got := ActivateTop(c, local, place, signal, runnable);
    }

    /**
     spu_prio_wait comes back: the context leaves the run queue and spu_activate starts over.
     Everything is kept exactly if the context has not been bound while it waited, or a signal
     is pending, or there is no SPU to be had for it.
     */
    method Reactivate(c: CtxId, local: Node, place: Placement, signal: bool, runnable: bool) returns (o: Outcome,
                      got: Option<SpuId>)
      requires Valid() && c in ctxs && 0 <= local < |lists| && Exists(P(), place)
      modifies this`spus, this`ctxs, this`infos, rq
      ensures ActivateDone(old(P()), Taken(old(rq.runq), old(P()), Some(c)), P(), rq.runq, |lists|, c, local, place,
                           signal, runnable, hz, o, got)
      ensures Sane(P()) <==> old(ctxs)[c].spu == None || signal || NothingFor(old(P()), |lists|, c, place)
      ensures Sane(P()) ==> Valid()
      ensures c in ctxs && (got.Some? ==> ctxs[c].spu == got)
    {
      hide Sane, Coupled, Queued, Listed, ActivateDone, Taken, NothingFor, RunQueue.Valid;
      DelFromRq(c);
      o, got := ActivateTop(c, local, place, signal, runnable);
      UncoupledIsInsane(P());
    }

    /** spu_update_sched_info, of a context that does not wait. */
    method UpdateSchedInfo(c: CtxId, prio: int, fifo: bool, allowed: set<Node>)
      requires Valid() && c in ctxs && 0 <= prio < MAX_PRIO && c !in rq.linked
      modifies this`ctxs
      ensures Valid() && spus == old(spus) && infos == old(infos)
      ensures ctxs == old(ctxs)[c := old(ctxs)[c].(prio := prio, fifo := fifo, allowed := allowed)]
    {
      hide Sane, Coupled, Queued, Listed;
      assert rq.Valid() && !Waits(rq.runq, c);
      hide Waits, RunQueue.Valid;
      UpdatedWhole(rq.runq, lists, P(), c, prio, fifo, allowed);
      ctxs := ctxs[c := ctxs[c].(prio := prio, fifo := fifo, allowed := allowed)];
    }

    /** A free SPU, or for a realtime context one that is taken from another context. */
    method FindSpu(c: CtxId, local: Node, place: Placement) returns (got: Option<SpuId>)
      requires Valid() && c in ctxs && 0 <= local < |lists| && Exists(P(), place)
      modifies this`spus, this`ctxs, this`infos, rq
      ensures Valid() && SpuFound(old(P()), |lists|, c, local, place, got)
      ensures c in ctxs && ctxs[c].spu == old(ctxs)[c].spu
      ensures if got == None then P() == old(P()) && rq.runq == old(rq.runq) && rq.linked == old(rq.linked)
              else got.value in spus && spus[got.value].ctx == None && got.value in old(spus)
                   && P() == Cleared(old(P()), got.value) && rq.runq == Requeued(old(rq.runq), old(P()), got.value)
    {
      hide Sane, Coupled, Queued, Listed, IdleFound, VictimFound, Evicted, Cleared, Requeued, RunQueue.Valid;
      ghost var p := P();
      got := GetIdle(c, local, place);
      if got.Some? {
        IdleIs(p, |lists|, c, local, place, got.value);
        FreeIsEmpty(p, rq.runq, got.value);
      } else if ctxs[c].prio < MAX_RT_PRIO {
        ghost var q := rq.runq;
        got := FindVictim(c, local);
        EvictedFrom(p, q, P(), rq.runq, got, |lists|, c, local);
      }
    }
  }

  /** spu_schedule on an SPU without context. */
  ghost function Handed(p: Pool, s: SpuId, d: CtxId, hz: nat): Pool
    requires s in p.spus && d in p.ctxs && p.spus[s].node in p.infos
  {
    if p.ctxs[d].runnable then p else Placed(p, s, d, TimeSlice(p.ctxs[d].prio, hz))
  }

  /**
   What __spu_deactivate does.  The best waiting context that fits takes the SPU over; one that
   is not scheduled by others is only told, and one that is bound already is left alone.
   */
  ghost predicate Deactivated(p: Pool, q: Queues, p': Pool, q': Queues, c: CtxId, force: bool, maxPrio: int, hz: nat,
                              r: Option<CtxId>) {
    c in p.ctxs &&
    match p.ctxs[c].spu
    case None => p' == p && q' == q && r == None
    case Some(s) =>
      && s in p.spus && p.spus[s].node in p.infos && Grabbed(q, p, maxPrio, p.spus[s].node, r) && q' == Taken(q, p, r)
      && match r
         case None => p' == if force then Removed(p, s, c, true) else p
         case Some(d) =>
           var m := Removed(p, s, c, false);
           && d in m.ctxs && s in m.spus && m.spus[s].node in m.infos
           && p' == if m.ctxs[d].nosched then m else Handed(m, s, d, hz)
  }

  /**
   The end of the slice of c: the best waiting context of equal or better priority that fits
   takes the SPU over, and c waits again if it is still to run; or c keeps the SPU.
   */
  ghost predicate Preempted(p: Pool, q: Queues, p': Pool, q': Queues, c: CtxId, hz: nat, r: Option<CtxId>) {
    && OnSpu(p, c)
    && var x := p.ctxs[c]; var s := x.spu.value; var g := Taken(q, p, r);
       && Grabbed(q, p, x.prio + 1, p.spus[s].node, r)
       && match r
          case None => p' == Sliced(p, c, Max(x.slice - 1, 1)) && q' == q
          case Some(d) =>
            var m := Removed(Sliced(p, c, x.slice - 1), s, c, false);
            && d in m.ctxs && s in m.spus && m.spus[s].node in m.infos
            && p' == Handed(m, s, d, hz) && q' == if x.run then Appended(g, p, c) else g
  }

  /** c is bound, to an SPU of a known node. */
  ghost predicate OnSpu(p: Pool, c: CtxId) {
    && c in p.ctxs && p.ctxs[c].spu.Some? && p.ctxs[c].spu.value in p.spus
    && p.spus[p.ctxs[c].spu.value].ctx == Some(c) && p.spus[p.ctxs[c].spu.value].node in p.infos
  }

  /** What spusched_tick does. */
  ghost predicate Ticked(p: Pool, q: Queues, p': Pool, q': Queues, c: CtxId, hz: nat, r: Option<CtxId>) {
    && c in p.ctxs
    && var x := p.ctxs[c];
       if !x.runnable || x.nosched || x.fifo then p' == p && q' == q && r == None
       else if x.slice > 1 && x.run then p' == Sliced(p, c, x.slice - 1) && q' == q && r == None
       else Preempted(p, q, p', q', c, hz, r)
  }

  lemma TickFacts(p: Pool, c: CtxId)
    requires Sane(p) && c in p.ctxs
    ensures p.ctxs[c].runnable ==> p.ctxs[c].spu.Some? && p.ctxs[c].slice >= 1
  {
  }

  lemma SpentSane(r: Queues, lists: seq<seq<SpuId>>, p: Pool, c: CtxId)
    requires Sane(p) && Queued(r, p) && Listed(lists, p) && c in p.ctxs && p.ctxs[c].spu.Some?
    ensures p.ctxs[c].slice >= 1
    ensures var q := Sliced(p, c, p.ctxs[c].slice - 1);
            Queued(r, q) && Listed(lists, q) && (p.ctxs[c].slice > 1 ==> Sane(q))
  {
    hide Queued, Listed, Sane, Sliced;
    BoundFacts(p, c);
    if p.ctxs[c].slice > 1 {
      SlicedSane(p, c, p.ctxs[c].slice - 1);
    }
    SlicedLabels(p, c, p.ctxs[c].slice - 1);
    LabelsKeep(r, lists, p, Sliced(p, c, p.ctxs[c].slice - 1));
  }

  lemma SlicedLabels(p: Pool, c: CtxId, slice: int)
    requires c in p.ctxs
    ensures SameLabels(p, Sliced(p, c, slice))
  {
  }

  /** What is true of a bound context. */
  lemma BoundFacts(p: Pool, c: CtxId)
    requires Sane(p) && c in p.ctxs && p.ctxs[c].spu.Some?
    ensures OnSpu(p, c) && p.ctxs[c].slice >= 1 && 0 <= p.ctxs[c].prio < MAX_PRIO
  {
    hide Coupled, Tallied;
    BoundSomewhere(p, c);
  }

  lemma SlicedIs(p: Pool, c: CtxId, slice: int)
    requires c in p.ctxs
    ensures var u := Sliced(p, c, slice);
            && u.spus == p.spus && u.infos == p.infos && u.ctxs.Keys == p.ctxs.Keys
            && u.ctxs[c] == p.ctxs[c].(slice := slice) && Sliced(u, c, 1) == Sliced(p, c, 1)
  {
  }

  lemma SlicedRemoved(p: Pool, s: SpuId, c: CtxId, slice: int)
    requires s in p.spus && c in p.ctxs && p.spus[s].node in p.infos && 0 <= p.ctxs[c].prio < MAX_PRIO
    ensures var m, q := Removed(Sliced(p, c, slice), s, c, false), Removed(p, s, c, false);
            && m.spus == q.spus && m.infos == q.infos && c in q.ctxs && c in m.ctxs && m.ctxs == q.ctxs[c := m.ctxs[c]]
            && m.ctxs[c] == q.ctxs[c].(slice := slice) && q.ctxs[c].spu == None && q.ctxs[c].prio == p.ctxs[c].prio
            && m.ctxs.Keys == p.ctxs.Keys && s in m.spus && m.spus[s].ctx == None && m.spus[s].node in m.infos
  {
  }

  /** The state after c has used its slice up and left its SPU. */
  lemma SpentAway(p: Pool, c: CtxId)
    requires Sane(p) && c in p.ctxs && p.ctxs[c].spu.Some?
    ensures OnSpu(p, c)
    ensures var s := p.ctxs[c].spu.value; var m := Removed(Sliced(p, c, p.ctxs[c].slice - 1), s, c, false);
            Sane(m) && m.ctxs.Keys == p.ctxs.Keys && s in m.spus && m.spus[s].ctx == None && m.spus[s].node in m.infos
  {
    hide Sane, Sliced, Removed;
    BoundFacts(p, c);
    var s := p.ctxs[c].spu.value;
    RemovedSane(p, s, c, false);
    SlicedIs(p, c, p.ctxs[c].slice - 1);
    SlicedRemoved(p, s, c, p.ctxs[c].slice - 1);
    RelabelledSane(Removed(p, s, c, false), Removed(Sliced(p, c, p.ctxs[c].slice - 1), s, c, false), c);
  }

  lemma SameFit(p: Pool, c: CtxId, slice: int, n: Node)
    requires c in p.ctxs
    ensures Fit(Sliced(p, c, slice), n) == Fit(p, n)
    ensures forall d | d in p.ctxs ::
              d in Sliced(p, c, slice).ctxs && Sliced(p, c, slice).ctxs[d].prio == p.ctxs[d].prio
    ensures Sliced(p, c, slice).ctxs.Keys == p.ctxs.Keys
  {
  }

  /** The search of the lists sees nothing of the slices. */
  lemma GrabbedSliced(q: Queues, p: Pool, c: CtxId, slice: int, prio: int, n: Node, r: Option<CtxId>)
    requires c in p.ctxs && Grabbed(q, Sliced(p, c, slice), prio, n, r)
    ensures Grabbed(q, p, prio, n, r) && Taken(q, Sliced(p, c, slice), r) == Taken(q, p, r) && Taken(q, p, None) == q
    ensures r.Some? ==> r.value in p.ctxs
  {
    hide Fit, Best, NoneFits, Sliced;
    SameFit(p, c, slice, n);
  }

  /** The lists with c at the end of its own, unless it waits already. */
  ghost function Appended(q: Queues, p: Pool, c: CtxId): Queues
    requires c in p.ctxs
  {
    if Waits(q, c) || !(0 <= p.ctxs[c].prio < |q|) then q else q[p.ctxs[c].prio := q[p.ctxs[c].prio] + [c]]
  }

  lemma AppendedSame(q: Queues, p: Pool, p': Pool, c: CtxId)
    requires c in p.ctxs && SameLabels(p, p')
    ensures c in p'.ctxs && Appended(q, p', c) == Appended(q, p, c)
  {
  }

  lemma SameLabelsTrans(p: Pool, q: Pool, r: Pool)
    requires SameLabels(p, q) && SameLabels(q, r)
    ensures SameLabels(p, r)
  {
  }

  lemma KeptWhole(r: Queues, lists: seq<seq<SpuId>>, p: Pool, c: CtxId, hz: nat)
    requires Sane(p) && OnSpu(p, c) && Grabbed(r, p, p.ctxs[c].prio + 1, p.spus[p.ctxs[c].spu.value].node, None)
    requires var u := Sliced(p, c, p.ctxs[c].slice - 1); Queued(r, u) && Listed(lists, u)
    ensures p.ctxs[c].slice >= 1
    ensures var v := Sliced(p, c, Max(p.ctxs[c].slice - 1, 1));
            Sane(v) && Queued(r, v) && Listed(lists, v) && Preempted(p, r, v, r, c, hz, None)
  {
    hide Sane, Queued, Listed, Grabbed, Sliced;
    BoundFacts(p, c);
    var slice := p.ctxs[c].slice - 1;
    SlicedSane(p, c, Max(slice, 1));
    SlicedTwice(p, c, slice, Max(slice, 1));
    SlicedLabels(Sliced(p, c, slice), c, Max(slice, 1));
    LabelsKeep(r, lists, Sliced(p, c, slice), Sliced(p, c, Max(slice, 1)));
  }

  lemma SlicedTwice(p: Pool, c: CtxId, k: int, l: int)
    requires c in p.ctxs
    ensures c in Sliced(p, c, k).ctxs && Sliced(Sliced(p, c, k), c, l) == Sliced(p, c, l)
  {
  }

  lemma ReplacedWhole(r: Queues, lists: seq<seq<SpuId>>, p: Pool, q: Queues, c: CtxId, d: CtxId, hz: nat)
    requires Sane(p) && OnSpu(p, c) && d in p.ctxs && r == Taken(q, p, Some(d))
    requires Grabbed(q, p, p.ctxs[c].prio + 1, p.spus[p.ctxs[c].spu.value].node, Some(d))
    requires var u := Sliced(p, c, p.ctxs[c].slice - 1); Queued(r, u) && Listed(lists, u)
    ensures var s := p.ctxs[c].spu.value; var m := Removed(Sliced(p, c, p.ctxs[c].slice - 1), s, c, false);
            && s in p.spus && p.spus[s].ctx == Some(c) && p.spus[s].node in p.infos
            && Sane(m) && Queued(r, m) && Listed(lists, m) && SameLabels(p, m)
            && d in m.ctxs && s in m.spus && m.spus[s].ctx == None && m.spus[s].node in m.infos
            && Preempted(p, q, Handed(m, s, d, hz), if p.ctxs[c].run then Appended(r, p, c) else r, c, hz, Some(d))
  {
    hide Sane, Queued, Listed, Grabbed, Taken, Handed, Appended, Sliced, Removed, SameLabels;
    var s, slice := p.ctxs[c].spu.value, p.ctxs[c].slice - 1;
    var u := Sliced(p, c, slice);
    SlicedIs(p, c, slice);
    SpentAway(p, c);
    SlicedLabels(p, c, slice);
    RemovedLabels(u, s, c, false);
    SameLabelsTrans(p, u, Removed(u, s, c, false));
    LabelsKeep(r, lists, u, Removed(u, s, c, false));
  }

  lemma AtHome(p: Pool, s: SpuId, c: CtxId)
    requires Sane(p) && s in p.spus && c in p.ctxs
    ensures p.spus[s].node in p.infos
    ensures p.ctxs[c].spu.Some? ==> p.ctxs[c].spu.value in p.spus && p.spus[p.ctxs[c].spu.value].node in p.infos
  {
    Home(p, c);
  }

  lemma SaneCoupled(p: Pool)
    requires Sane(p)
    ensures Coupled(p)
  {
  }

  lemma PrioRange(p: Pool, c: CtxId)
    requires Sane(p) && c in p.ctxs
    ensures 0 <= p.ctxs[c].prio < MAX_PRIO
  {
  }

  /** The node looked at in round i of n, from the local one on. */
  function Rotated(local: Node, i: nat, n: nat): Node
    requires local < n && i < n
  {
    if local + i < n then local + i else local + i - n
  }

  /** No node of the first i rounds where c may run has a free SPU. */
  ghost predicate AllTakenBefore(p: Pool, c: CtxId, local: Node, i: int, n: nat)
    requires c in p.ctxs && local < n && i <= n
  {
    forall k | 0 <= k < i && Rotated(local, k, n) in p.ctxs[c].allowed :: AllTaken(p, Rotated(local, k, n))
  }

  lemma NoneBeforeFirst(p: Pool, c: CtxId, local: Node, n: nat)
    requires c in p.ctxs && local < n
    ensures AllTakenBefore(p, c, local, 0, n)
  {
  }

  lemma NoneBeforeNext(p: Pool, c: CtxId, local: Node, i: nat, n: nat)
    requires c in p.ctxs && local < n && i < n && AllTakenBefore(p, c, local, i, n)
    requires Rotated(local, i, n) in p.ctxs[c].allowed ==> AllTaken(p, Rotated(local, i, n))
    ensures AllTakenBefore(p, c, local, i + 1, n)
  {
  }

  /** Every node has its round. */
  lemma RotatedCovers(p: Pool, c: CtxId, local: Node, n: nat)
    requires c in p.ctxs && local < n && AllTakenBefore(p, c, local, n, n)
    ensures forall k: Node | k in p.ctxs[c].allowed && k < n :: AllTaken(p, k)
  {
    hide AllTaken;
    forall k: Node | k in p.ctxs[c].allowed && k < n
      ensures AllTaken(p, k)
    {
      var i := if k >= local then k - local else k + n - local;
      assert Rotated(local, i, n) == k;
    }
  }

  ghost predicate AllUsed(p: Pool, l: seq<SpuId>) {
    forall s | s in l :: s in p.spus && p.spus[s].used
  }

  ghost predicate AllTaken(p: Pool, n: Node) {
    forall s | s in p.spus && p.spus[s].node == n :: p.spus[s].used
  }

  /** s is the first free SPU in the list of its node. */
  ghost predicate FirstFree(p: Pool, lists: seq<seq<SpuId>>, s: SpuId) {
    && s in p.spus && p.spus[s].node < |lists|
    && exists i :: 0 <= i < |lists[p.spus[s].node]| && lists[p.spus[s].node][i] == s
         && AllUsed(p, lists[p.spus[s].node][..i])
  }

  /** s is the first in the list of its node of the worst contexts to preempt for c. */
  ghost predicate FirstVictim(p: Pool, lists: seq<seq<SpuId>>, c: CtxId, s: SpuId) {
    && s in p.spus && p.spus[s].node < |lists|
    && exists i :: 0 <= i < |lists[p.spus[s].node]| && lists[p.spus[s].node][i] == s
         && NoneAsBad(p, p.spus[s].node, c, lists[p.spus[s].node][..i], s)
  }

  lemma VictimFirst(p: Pool, lists: seq<seq<SpuId>>, n: Node, c: CtxId, s: SpuId)
    requires s in p.spus && p.spus[s].node == n && n < |lists|
    requires exists i :: 0 <= i < |lists[n]| && lists[n][i] == s && NoneAsBad(p, n, c, lists[n][..i], s)
    ensures FirstVictim(p, lists, c, s)
  {
  }

  /**
   r is the place wanted, and free, or, without one, a free SPU on a node where c may run, none
   being free on such a node looked at before; or there is none.
   */
  ghost predicate IdleFound(p: Pool, nodes: nat, c: CtxId, local: Node, place: Placement, r: Option<SpuId>) {
    && c in p.ctxs && local < nodes
    && match r
       case None => NothingFree(p, nodes, c, place)
       case Some(s) =>
         && s in p.spus && !p.spus[s].used
         && match place
            case At(spu) => spu == Some(s)
            case Anywhere =>
              && p.spus[s].node in p.ctxs[c].allowed
              && exists i :: 0 <= i < nodes && Rotated(local, i, nodes) == p.spus[s].node
                   && AllTakenBefore(p, c, local, i, nodes)
  }

  /** Where the affinity of its gang wants a context: it has no say, or gives an SPU, or none. */
  datatype Placement = Anywhere | At(spu: Option<SpuId>)

  ghost predicate Exists(p: Pool, place: Placement) {
    place.At? && place.spu.Some? ==> place.spu.value in p.spus
  }

  /** The place wanted is not free, or, without one, no SPU is on a node where c may run. */
  ghost predicate NothingFree(p: Pool, nodes: nat, c: CtxId, place: Placement) {
    && c in p.ctxs
    && match place
       case Anywhere => forall n | n in p.ctxs[c].allowed && 0 <= n < nodes :: AllTaken(p, n)
       case At(spu) => spu.Some? && spu.value in p.spus ==> p.spus[spu.value].used
  }

  /** SPU s of node n runs a context of a worse priority than c, one that may be preempted. */
  ghost predicate IsVictim(p: Pool, n: Node, c: CtxId, s: SpuId) {
    && s in p.spus && p.spus[s].node == n && p.spus[s].ctx.Some? && p.spus[s].ctx.value in p.ctxs && c in p.ctxs
    && var v := p.ctxs[p.spus[s].ctx.value]; v.prio > p.ctxs[c].prio && !v.nosched
  }

  ghost predicate NoVictim(p: Pool, n: Node, c: CtxId) {
    forall s :: !IsVictim(p, n, c, s)
  }

  /** The context on s has a priority no better than that of the context on t. */
  ghost predicate Worse(p: Pool, s: SpuId, t: SpuId) {
    && s in p.spus && t in p.spus && p.spus[s].ctx.Some? && p.spus[t].ctx.Some?
    && p.spus[s].ctx.value in p.ctxs && p.spus[t].ctx.value in p.ctxs
    && p.ctxs[p.spus[s].ctx.value].prio >= p.ctxs[p.spus[t].ctx.value].prio
  }

  /** No node of the first i rounds where c may run has a context to preempt. */
  ghost predicate NoVictimBefore(p: Pool, c: CtxId, local: Node, i: int, n: nat)
    requires c in p.ctxs && local < n && i <= n
  {
    forall k | 0 <= k < i && Rotated(local, k, n) in p.ctxs[c].allowed :: NoVictim(p, Rotated(local, k, n), c)
  }

  lemma NoVictimFirst(p: Pool, c: CtxId, local: Node, n: nat)
    requires c in p.ctxs && local < n
    ensures NoVictimBefore(p, c, local, 0, n)
  {
  }

  lemma NoVictimNext(p: Pool, c: CtxId, local: Node, i: nat, n: nat)
    requires c in p.ctxs && local < n && i < n && NoVictimBefore(p, c, local, i, n)
    requires Rotated(local, i, n) in p.ctxs[c].allowed ==> NoVictim(p, Rotated(local, i, n), c)
    ensures NoVictimBefore(p, c, local, i + 1, n)
  {
  }

  lemma RotatedVictims(p: Pool, c: CtxId, local: Node, n: nat)
    requires c in p.ctxs && local < n && NoVictimBefore(p, c, local, n, n)
    ensures forall k: Node | k in p.ctxs[c].allowed && k < n :: NoVictim(p, k, c)
  {
    hide NoVictim;
    forall k: Node | k in p.ctxs[c].allowed && k < n
      ensures NoVictim(p, k, c)
    {
      var i := if k >= local then k - local else k + n - local;
      assert Rotated(local, i, n) == k;
    }
  }

  /**
   r runs the worst context to preempt for c on the first node, from the local one on, where c
   may run and there is one; or there is none on any such node.
   */
  ghost predicate VictimFound(p: Pool, nodes: nat, c: CtxId, local: Node, r: Option<SpuId>) {
    && c in p.ctxs && local < nodes
    && match r
       case None => forall n | n in p.ctxs[c].allowed && 0 <= n < nodes :: NoVictim(p, n, c)
       case Some(s) =>
         && s in p.spus && p.spus[s].node in p.ctxs[c].allowed && IsVictim(p, p.spus[s].node, c, s)
         && (forall t | IsVictim(p, p.spus[s].node, c, t) :: Worse(p, s, t))
         && exists i :: 0 <= i < nodes && Rotated(local, i, nodes) == p.spus[s].node
              && NoVictimBefore(p, c, local, i, nodes)
  }

  /** The context of the SPU found has been unbound, and waits again if it is still to run. */
  ghost predicate Evicted(p: Pool, q: Queues, p': Pool, q': Queues, r: Option<SpuId>) {
    match r
    case None => p' == p && q' == q
    case Some(s) =>
      && s in p.spus && p.spus[s].ctx.Some? && p.spus[s].ctx.value in p.ctxs && p.spus[s].node in p.infos
      && var v := p.spus[s].ctx.value;
         p' == Removed(p, s, v, false) && q' == if p.ctxs[v].run then Appended(q, p, v) else q
  }

  lemma NobodyEvicted(p: Pool, q: Queues)
    ensures Evicted(p, q, p, q, None)
  {
  }

  lemma VictimIs(p: Pool, n: Node, c: CtxId, s: SpuId)
    requires IsVictim(p, n, c, s)
    ensures s in p.spus && p.spus[s].node == n && p.spus[s].ctx.Some? && p.spus[s].ctx.value in p.ctxs
  {
  }

  /** Priorities below this one are realtime priorities. */
  const MAX_RT_PRIO := 100

  datatype Outcome = Done | Interrupted | Waiting

  /** got is a free SPU, or, there being none and c being realtime, one taken from a victim. */
  ghost predicate SpuFound(p: Pool, nodes: nat, c: CtxId, local: Node, place: Placement, got: Option<SpuId>) {
    && c in p.ctxs
    && if got.Some? && IdleFound(p, nodes, c, local, place, got) then true
       else IdleFound(p, nodes, c, local, place, None)
            && if p.ctxs[c].prio < MAX_RT_PRIO then VictimFound(p, nodes, c, local, got) else got == None
  }

  ghost predicate ActivateResult(p: Pool, nodes: nat, c: CtxId, local: Node, place: Placement, signal: bool, o: Outcome,
                                 got: Option<SpuId>) {
    && c in p.ctxs
    && if signal then o == Interrupted && got == None
       else SpuFound(p, nodes, c, local, place, got) && o == if got == None && p.ctxs[c].nosched then Waiting else Done
  }

  /** There is no SPU to be had for c: none is free for it, nor is there one to take from another context. */
  ghost predicate NothingFor(p: Pool, nodes: nat, c: CtxId, place: Placement) {
    && c in p.ctxs
    && NothingFree(p, nodes, c, place)
    && (p.ctxs[c].prio < MAX_RT_PRIO ==> forall n | n in p.ctxs[c].allowed && 0 <= n < nodes :: NoVictim(p, n, c))
  }

  /** The search fails exactly when there is nothing to be had. */
  lemma FoundExactly(p: Pool, nodes: nat, c: CtxId, local: Node, place: Placement, got: Option<SpuId>)
    requires SpuFound(p, nodes, c, local, place, got)
    ensures got == None <==> NothingFor(p, nodes, c, place)
  {
    hide AllTakenBefore, NoVictimBefore, Worse;
    if got.Some? && !IdleFound(p, nodes, c, local, place, got) {
      assert IsVictim(p, p.spus[got.value].node, c, got.value);
    }
  }

  /** What an activation does: c gets the SPU found, or waits, unless a signal stops it. */
  ghost predicate ActivateDone(p: Pool, q: Queues, p': Pool, q': Queues, nodes: nat, c: CtxId, local: Node,
                               place: Placement,
                               signal: bool,
                               runnable: bool, hz: nat, o: Outcome, got: Option<SpuId>) {
    && ActivateResult(p, nodes, c, local, place, signal, o, got)
    && match got
       case None => p' == p && q' == if signal then q else Appended(q, p, c)
       case Some(s) => s in p.spus && p' == Claimed(Cleared(p, s), s, c, hz, runnable) && q' == Requeued(q, p, s)
  }

  lemma IdleIs(p: Pool, nodes: nat, c: CtxId, local: Node, place: Placement, s: SpuId)
    requires IdleFound(p, nodes, c, local, place, Some(s))
    ensures s in p.spus && !p.spus[s].used
  {
  }

  /** The SPU found, without the context that it may have run, and marked as used. */
  ghost function Cleared(p: Pool, s: SpuId): Pool
    requires s in p.spus
  {
    match p.spus[s].ctx
    case None => WithSpu(p, s, p.spus[s].(used := true))
    case Some(v) => if v in p.ctxs && p.spus[s].node in p.infos then Removed(p, s, v, false) else p
  }

  /** The lists after the context of the SPU found, if it is still to run, has been put back. */
  ghost function Requeued(q: Queues, p: Pool, s: SpuId): Queues
    requires s in p.spus
  {
    match p.spus[s].ctx
    case None => q
    case Some(v) => if v in p.ctxs && p.ctxs[v].run then Appended(q, p, v) else q
  }

  /** c bound to the empty SPU s. */
  ghost function Claimed(p: Pool, s: SpuId, c: CtxId, hz: nat, runnable: bool): Pool
  {
    if s in p.spus && c in p.ctxs && p.spus[s].node in p.infos then
      var q := Placed(p, s, c, TimeSlice(p.ctxs[c].prio, hz));
      if runnable then Switched(q, c, User) else q
    else p
  }

  /** An SPU that is not in use runs nothing. */
  lemma FreeIsEmpty(p: Pool, q: Queues, s: SpuId)
    requires Sane(p) && s in p.spus && !p.spus[s].used
    ensures p.spus[s].ctx == None && Cleared(p, s) == WithSpu(p, s, p.spus[s].(used := true)) && Requeued(q, p, s) == q
  {
  }

  /** The victim is another context than c, and its SPU is empty afterwards. */
  lemma EvictedFrom(p: Pool, q: Queues, p': Pool, q': Queues, r: Option<SpuId>, nodes: nat, c: CtxId, local: Node)
    requires Evicted(p, q, p', q', r) && VictimFound(p, nodes, c, local, r) && c in p.ctxs
    ensures c in p'.ctxs && p'.ctxs[c].spu == p.ctxs[c].spu
    ensures r.Some? ==>
              && r.value in p'.spus && p'.spus[r.value].ctx == None
              && r.value in p.spus && p' == Cleared(p, r.value) && q' == Requeued(q, p, r.value)
    ensures r == None ==> p' == p && q' == q
  {
    hide NoVictim, NoVictimBefore, Worse, Appended;
  }

  lemma PlacedIs(p: Pool, s: SpuId, c: CtxId, slice: int)
    requires s in p.spus && c in p.ctxs && p.spus[s].node in p.infos
    ensures var q := Placed(p, s, c, slice);
            && c in q.ctxs && s in q.spus && q.ctxs[c].spu == Some(s) && q.spus[s].ctx == Some(c)
            && q.spus[s].node in q.infos
  {
  }

  /** A change of utilization state, with the lists and the nodes. */
  lemma SwitchedWhole(r: Queues, lists: seq<seq<SpuId>>, p: Pool, c: CtxId, u: Util)
    requires c in p.ctxs
    ensures var q := Switched(p, c, u);
            && (Sane(p) && Queued(r, p) && Listed(lists, p) ==> Sane(q) && Queued(r, q) && Listed(lists, q))
            && (!Coupled(p) ==> !Coupled(q)) && c in q.ctxs && q.ctxs[c].spu == p.ctxs[c].spu && q.spus == p.spus
  {
    hide Sane, Coupled, Queued, Listed, Switched, SameLabels;
    var q := Switched(p, c, u);
    SwitchedWhat(p, c, u);
    SwitchedLabels(p, q, c, u);
    if Sane(p) {
      SwitchedSane(p, c, u);
    }
    if Queued(r, p) && Listed(lists, p) {
      LabelsKeep(r, lists, p, q);
    }
    if Coupled(q) {
      RelabelledCoupled(q, p);
    }
  }

  lemma SwitchedLabels(p: Pool, q: Pool, c: CtxId, u: Util)
    requires c in p.ctxs && q.spus == p.spus && q.ctxs == p.ctxs[c := p.ctxs[c].(util := u)]
    ensures SameLabels(p, q) && q.ctxs.Keys == p.ctxs.Keys && forall d | d in p.ctxs :: q.ctxs[d].spu == p.ctxs[d].spu
  {
  }

  lemma UncoupledIsInsane(p: Pool)
    ensures !Coupled(p) ==> !Sane(p)
  {
  }

  lemma UpdatedWhole(r: Queues, lists: seq<seq<SpuId>>, p: Pool, c: CtxId, prio: int, fifo: bool, allowed: set<Node>)
    requires Sane(p) && Queued(r, p) && Listed(lists, p) && c in p.ctxs && 0 <= prio < MAX_PRIO && !Waits(r, c)
    ensures var q := WithCtx(p, c, p.ctxs[c].(prio := prio, fifo := fifo, allowed := allowed));
            Sane(q) && Queued(r, q) && Listed(lists, q)
  {
    var q := WithCtx(p, c, p.ctxs[c].(prio := prio, fifo := fifo, allowed := allowed));
    assert Sane(q) by {
      hide Sane, Queued, Listed;
      UpdatedSlice(p, c);
      RelabelledSane(p, q, c);
    }
    hide Sane;
  }

  lemma UpdatedSlice(p: Pool, c: CtxId)
    requires Sane(p) && c in p.ctxs
    ensures p.ctxs[c].spu.Some? ==> p.ctxs[c].slice >= 1
  {
  }

  // ---------------------------------------------------------------- consequences

  /** SPU s is marked as used but runs nothing: no search finds it. */
  ghost predicate Lost(p: Pool, s: SpuId) {
    s in p.spus && p.spus[s].used && p.spus[s].ctx == None
  }

  /**
   When a context is found for the SPU of another one, the SPU goes to it, unless it is one that
   others do not schedule, or that is bound elsewhere: exactly then the SPU is lost.
   */
  lemma DeactivateLoses(p: Pool, q: Queues, p': Pool, q': Queues, c: CtxId, force: bool, maxPrio: int, hz: nat,
                        d: CtxId)
    requires Sane(p) && Deactivated(p, q, p', q', c, force, maxPrio, hz, Some(d)) && c in p.ctxs
    ensures p.ctxs[c].spu.Some? && d in p.ctxs
    ensures var s := p.ctxs[c].spu.value;
            && (Lost(p', s) <==> p.ctxs[d].nosched || (d != c && p.ctxs[d].runnable))
            && (!Lost(p', s) ==> d in p'.ctxs && p'.ctxs[d].spu == Some(s) && s in p'.spus && p'.spus[s].ctx == Some(d))
  {
    hide Grabbed, Taken, Sane, TimeSlice;
    var s := p.ctxs[c].spu.value;
    BoundFacts(p, c);
    UsedIfBound(p, s);
    hide Placed;
    var m := Removed(p, s, c, false);
    PlacedIs(m, s, d, TimeSlice(m.ctxs[d].prio, hz));
  }

  /**
   The same, by the state before the call: the SPU is lost exactly if the best waiting context that
   fits is one that others do not schedule, or another one that is bound already.
   */
  lemma DeactivateLosesWhen(p: Pool, q: Queues, p': Pool, q': Queues, c: CtxId, force: bool, maxPrio: int, hz: nat,
                            r: Option<CtxId>)
    requires Sane(p) && Deactivated(p, q, p', q', c, force, maxPrio, hz, r) && p.ctxs[c].spu.Some?
    ensures Lost(p', p.ctxs[c].spu.value) <==>
            exists d, i ::
              && d in p.ctxs && Best(q, Fit(p, p.spus[p.ctxs[c].spu.value].node), maxPrio, d, p.ctxs[d].prio, i)
              && (p.ctxs[d].nosched || (d != c && p.ctxs[d].runnable))
  {
    hide Sane, Best, NoneFits, Fit, Placed, Taken, TimeSlice, Lost;
    var s := p.ctxs[c].spu.value;
    if r.Some? {
      DeactivateLoses(p, q, p', q', c, force, maxPrio, hz, r.value);
    } else {
      StaysBound(p, p', c, force);
    }
    forall d, i | d in p.ctxs && Best(q, Fit(p, p.spus[s].node), maxPrio, d, p.ctxs[d].prio, i)
      ensures r == Some(d)
    {
      GrabbedBest(q, p, maxPrio, p.spus[s].node, r, d, i);
    }
  }

  /** Whoever is found is the best one. */
  lemma GrabbedBest(q: Queues, p: Pool, prio: int, n: Node, r: Option<CtxId>, d: CtxId, i: int)
    requires Grabbed(q, p, prio, n, r) && d in p.ctxs && Best(q, Fit(p, n), prio, d, p.ctxs[d].prio, i)
    ensures r == Some(d)
  {
    BestIsUnique(q, Fit(p, n), prio, d, p.ctxs[d].prio, i, d, p.ctxs[d].prio, i);
    hide Best, Fit, NoneFits;
    if r.Some? {
      var j :| Best(q, Fit(p, n), prio, r.value, p.ctxs[r.value].prio, j);
      BestIsUnique(q, Fit(p, n), prio, d, p.ctxs[d].prio, i, r.value, p.ctxs[r.value].prio, j);
    }
  }

  /** With nobody found the context stays, or leaves a free SPU. */
  lemma StaysBound(p: Pool, p': Pool, c: CtxId, force: bool)
    requires Sane(p) && c in p.ctxs && p.ctxs[c].spu.Some? && p.ctxs[c].spu.value in p.spus
    requires p.spus[p.ctxs[c].spu.value].node in p.infos
    requires p' == if force then Removed(p, p.ctxs[c].spu.value, c, true) else p
    ensures !Lost(p', p.ctxs[c].spu.value)
  {
    BoundFacts(p, c);
    hide Sane;
  }

  lemma UsedIfBound(p: Pool, s: SpuId)
    requires Sane(p) && s in p.spus && p.spus[s].ctx.Some?
    ensures p.spus[s].used
  {
  }

  /** A lost SPU stays lost through every search: it is neither idle nor run by a victim. */
  lemma LostIsNotFound(p: Pool, nodes: nat, c: CtxId, local: Node, place: Placement, s: SpuId)
    requires Lost(p, s)
    ensures !SpuFound(p, nodes, c, local, place, Some(s))
  {
    hide AllTaken, AllTakenBefore, NoVictim, NoVictimBefore, Worse;
  }

  /**
   A tick takes the SPU from a context only for one of equal or better priority, and binds that
   one, NOSCHED or not, unless it is bound elsewhere: exactly then the SPU is lost.
   */
  lemma TickIsFair(p: Pool, q: Queues, p': Pool, q': Queues, c: CtxId, hz: nat, d: CtxId)
    requires Sane(p) && Ticked(p, q, p', q', c, hz, Some(d))
    ensures c in p.ctxs && d in p.ctxs && p.ctxs[d].prio <= p.ctxs[c].prio
    ensures !p.ctxs[c].nosched && !p.ctxs[c].fifo && p.ctxs[c].spu.Some?
    ensures var s := p.ctxs[c].spu.value;
            && (Lost(p', s) <==> d != c && p.ctxs[d].runnable)
            && (!Lost(p', s) ==> d in p'.ctxs && p'.ctxs[d].spu == Some(s))
  {
    hide Sane, Sliced, Removed, Placed, TimeSlice, Taken, Appended;
    var s := p.ctxs[c].spu.value;
    BoundFacts(p, c);
    UsedIfBound(p, s);
    SlicedIs(p, c, p.ctxs[c].slice - 1);
    var u := Sliced(p, c, p.ctxs[c].slice - 1);
    TickRemoved(p, u, s, c, d);
    var m := Removed(u, s, c, false);
    PlacedIs(m, s, d, TimeSlice(m.ctxs[d].prio, hz));
  }

  lemma TickRemoved(p: Pool, u: Pool, s: SpuId, c: CtxId, d: CtxId)
    requires s in u.spus && c in u.ctxs && u.spus[s].node in u.infos && d in p.ctxs && c in p.ctxs
    requires u == Sliced(p, c, p.ctxs[c].slice - 1) && u.spus[s].used
    ensures var m := Removed(u, s, c, false);
            && d in m.ctxs && s in m.spus && m.spus[s].ctx == None && m.spus[s].used && m.spus[s].node in m.infos
            && m.ctxs[d].runnable == (d != c && p.ctxs[d].runnable)
  {
  }

  /** No context to preempt on these SPUs has as bad a priority as the one on s. */
  ghost predicate NoneAsBad(p: Pool, n: Node, c: CtxId, l: seq<SpuId>, s: SpuId) {
    forall t | t in l && IsVictim(p, n, c, t) :: !Worse(p, t, s)
  }

  lemma SaneLinks(p: Pool)
    requires Coupled(p)
    ensures forall s | s in p.spus && p.spus[s].ctx.Some? :: p.spus[s].ctx.value in p.ctxs
  {
  }

  lemma UsedWhole(r: Queues, lists: seq<seq<SpuId>>, p: Pool, s: SpuId)
    requires Sane(p) && Queued(r, p) && Listed(lists, p) && s in p.spus
    ensures var q := WithSpu(p, s, p.spus[s].(used := true)); Sane(q) && Queued(r, q) && Listed(lists, q)
  {
    hide Queued, Listed, Tallied;
    var q := WithSpu(p, s, p.spus[s].(used := true));
    UsedTallied(p, s);
    LabelsKeep(r, lists, p, q);
  }

  lemma UsedTallied(p: Pool, s: SpuId)
    requires Tallied(p) && s in p.spus
    ensures Tallied(WithSpu(p, s, p.spus[s].(used := true)))
  {
    var q := WithSpu(p, s, p.spus[s].(used := true));
    forall n
      ensures Tally(q, n) == Tally(p, n)
    {
      forall t
        ensures Bound(p, n, t) <==> Bound(q, n, t)
        ensures IsReserved(p, n, t) <==> IsReserved(q, n, t)
        ensures IsBusy(p, n, t) <==> IsBusy(q, n, t)
      {
      }
      hide Bound, IsReserved, IsBusy;
      assert Occupied(p, n) == Occupied(q, n) && Reserved(p, n) == Reserved(q, n) && Busy(p, n) == Busy(q, n);
    }
    hide Tally;
  }

  lemma SavedIsFree(p: Pool, d: CtxId)
    requires Sane(p) && d in p.ctxs
    ensures p.ctxs[d].runnable <==> p.ctxs[d].spu.Some?
  {
  }

  lemma BoundHere(p: Pool, s: SpuId, c: CtxId)
    requires Sane(p) && s in p.spus && c in p.ctxs && p.spus[s].ctx == Some(c)
    ensures p.ctxs[c].spu == Some(s)
  {
  }

  lemma BoundSomewhere(p: Pool, c: CtxId)
    requires Sane(p) && c in p.ctxs && p.ctxs[c].spu.Some?
    ensures var s := p.ctxs[c].spu.value; s in p.spus && p.spus[s].ctx == Some(c) && p.spus[s].node in p.infos
  {
  }

  lemma GrabbedIn(q: Queues, p: Pool, prio: int, n: Node, r: Option<CtxId>)
    requires Grabbed(q, p, prio, n, r)
    ensures r.Some? ==> r.value in p.ctxs
  {
  }

  lemma VacatedIn(p: Pool, s: SpuId, c: CtxId, free: bool)
    requires s in p.spus && c in p.ctxs && p.spus[s].node in p.infos
    ensures var m := Removed(p, s, c, free);
            && m.ctxs.Keys == p.ctxs.Keys && s in m.spus && m.spus[s].ctx == None
            && m.spus[s].node == p.spus[s].node && m.spus[s].node in m.infos
  {
  }

  lemma SaneParts(p: Pool, s: SpuId, c: CtxId)
    requires Sane(p) && s in p.spus && c in p.ctxs
    ensures p.spus[s].node in p.infos && 0 <= p.ctxs[c].prio < MAX_PRIO
  {
  }

  /** Binding, with the lists and the nodes. */
  lemma PlacedWhole(r: Queues, lists: seq<seq<SpuId>>, p: Pool, s: SpuId, c: CtxId, hz: nat)
    requires Sane(p) && Queued(r, p) && Listed(lists, p) && s in p.spus && c in p.ctxs && p.spus[s].ctx == None
    ensures p.spus[s].node in p.infos
    ensures var q := Placed(p, s, c, TimeSlice(p.ctxs[c].prio, hz));
            if p.ctxs[c].spu == None then Sane(q) && Queued(r, q) && Listed(lists, q) else !Coupled(q)
  {
    hide Sane, Coupled, TimeSlice, Queued, Listed, Placed, SameLabels;
    var slice := TimeSlice(p.ctxs[c].prio, hz);
    SaneParts(p, s, c);
    BetterIsLonger(p.ctxs[c].prio, p.ctxs[c].prio, hz);
    PlacedSane(p, s, c, slice);
    SaneCoupled(p);
    PlacedCoupled(p, s, c, slice);
    PlacedLabels(p, s, c, slice);
    LabelsKeep(r, lists, p, Placed(p, s, c, slice));
  }

  lemma SlicedWhole(r: Queues, lists: seq<seq<SpuId>>, p: Pool, c: CtxId, hz: nat)
    requires Sane(p) && Queued(r, p) && Listed(lists, p) && c in p.ctxs
    ensures var q := Sliced(p, c, TimeSlice(p.ctxs[c].prio, hz)); Sane(q) && Queued(r, q) && Listed(lists, q)
  {
    hide Sane, TimeSlice, Queued, Listed, Sliced, SameLabels;
    var slice := TimeSlice(p.ctxs[c].prio, hz);
    PrioRange(p, c);
    BetterIsLonger(p.ctxs[c].prio, p.ctxs[c].prio, hz);
    SlicedSane(p, c, slice);
    SlicedLabels(p, c, slice);
    LabelsKeep(r, lists, p, Sliced(p, c, slice));
  }

  lemma RemovedWhole(r: Queues, lists: seq<seq<SpuId>>, p: Pool, s: SpuId, c: CtxId, free: bool)
    requires Sane(p) && Queued(r, p) && Listed(lists, p) && s in p.spus && c in p.ctxs && p.spus[s].ctx == Some(c)
    ensures p.spus[s].node in p.infos
    ensures var q := Removed(p, s, c, free); Sane(q) && Queued(r, q) && Listed(lists, q)
  {
    hide Sane, Queued, Listed, Removed, SameLabels;
    RemovedSane(p, s, c, free);
    RemovedLabels(p, s, c, free);
    LabelsKeep(r, lists, p, Removed(p, s, c, free));
  }

  lemma AddQueued(q: Queues, p: Pool, c: CtxId)
    requires Queued(q, p) && c in p.ctxs && 0 <= p.ctxs[c].prio < |q|
    ensures Queued(q[p.ctxs[c].prio := q[p.ctxs[c].prio] + [c]], p)
  {
  }

  lemma {:induction false} WithoutSubset(l: seq<CtxId>, c: CtxId, d: CtxId)
    requires d in Without(l, c)
    ensures d in l
  {
    if l != [] && l[0] != c && d != l[0] {
      WithoutSubset(l[1..], c, d);
    }
  }

  lemma {:induction false} WithoutAbsent(l: seq<CtxId>, c: CtxId)
    requires c !in l
    ensures Without(l, c) == l
  {
    if l != [] {
      WithoutAbsent(l[1..], c);
    }
  }

  lemma DelQueued(q: Queues, p: Pool, c: CtxId)
    requires Queued(q, p) && c in p.ctxs && 0 <= p.ctxs[c].prio < |q|
    ensures Queued(q[p.ctxs[c].prio := Without(q[p.ctxs[c].prio], c)], p)
    ensures Waits(q, c) ==> c in q[p.ctxs[c].prio]
  {
    var r := q[p.ctxs[c].prio := Without(q[p.ctxs[c].prio], c)];
    forall k, d | 0 <= k < |r| && d in r[k]
      ensures d in p.ctxs && p.ctxs[d].prio == k
    {
      if k == p.ctxs[c].prio {
        WithoutSubset(q[k], c, d);
      }
    }
  }

  /** r is what grab_runnable_context finds in the lists q. */
  ghost predicate Grabbed(q: Queues, p: Pool, prio: int, n: Node, r: Option<CtxId>) {
    match r
    case None => prio <= |q| && NoneFits(q, Fit(p, n), prio)
    case Some(c) =>
      && c in p.ctxs && 0 <= p.ctxs[c].prio < prio && p.ctxs[c].prio < |q|
      && exists i :: Best(q, Fit(p, n), prio, c, p.ctxs[c].prio, i)
  }

  /**
   r is the first waiting context that may run on node n, in the order of the lists below the
   bound; nobody below the bound may run there if there is none.
   */
  ghost predicate NextOn(q: Queues, p: Pool, bound: int, n: Node, r: Option<CtxId>) {
    match r
    case None => forall k, d | 0 <= k < bound && k < |q| && d in q[k] :: d in p.ctxs && n !in p.ctxs[d].allowed
    case Some(c) =>
      && c in p.ctxs && n in p.ctxs[c].allowed && 0 <= p.ctxs[c].prio < bound && p.ctxs[c].prio < |q|
      && var l := q[p.ctxs[c].prio];
         && (exists i :: 0 <= i < |l| && l[i] == c && forall d | d in l[..i] :: d in p.ctxs && n !in p.ctxs[d].allowed)
         && forall k, d | 0 <= k < p.ctxs[c].prio && d in q[k] :: d in p.ctxs && n !in p.ctxs[d].allowed
  }

  /** Somebody waits below the bound who may run on node n. */
  ghost predicate SomeWaits(q: Queues, p: Pool, bound: int, n: Node) {
    exists k, d :: 0 <= k < bound && k < |q| && d in q[k] && d in p.ctxs && n in p.ctxs[d].allowed
  }

  /** The context found may run on the node, and nobody before it may. */
  lemma GrabbedIsNext(q: Queues, p: Pool, bound: int, n: Node, r: Option<CtxId>)
    requires Grabbed(q, p, bound, n, r) && Queued(q, p)
    ensures NextOn(q, p, bound, n, r) && (r.Some? <==> SomeWaits(q, p, bound, n))
  {
    forall k, d | 0 <= k < |q| && d in q[k]
      ensures d in p.ctxs && p.ctxs[d].prio == k && (d in Fit(p, n) <==> n in p.ctxs[d].allowed)
    {
    }
    hide Queued, Fit;
    match r
    case None =>
      forall k, d | 0 <= k < bound && k < |q| && d in q[k]
        ensures n !in p.ctxs[d].allowed
      {
        assert d !in Fit(p, n);
      }
    case Some(c) =>
      var l := q[p.ctxs[c].prio];
      var i :| Best(q, Fit(p, n), bound, c, p.ctxs[c].prio, i);
      assert l[i] in l;
      forall k, d | 0 <= k < p.ctxs[c].prio && d in q[k]
        ensures n !in p.ctxs[d].allowed
      {
        assert d !in Fit(p, n);
      }
      forall d | d in l[..i]
        ensures d in p.ctxs && n !in p.ctxs[d].allowed
      {
        var j :| 0 <= j < i && l[j] == d;
        assert l[j] in l;
      }
  }

  /** The lists without what was found. */
  ghost function Taken(q: Queues, p: Pool, r: Option<CtxId>): Queues {
    match r
    case None => q
    case Some(c) =>
      if c in p.ctxs && 0 <= p.ctxs[c].prio < |q| then q[p.ctxs[c].prio := Without(q[p.ctxs[c].prio], c)] else q
  }
}

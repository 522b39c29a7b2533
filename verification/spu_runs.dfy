/** Runs of the scheduler: what holds in every state, where it breaks, and what becomes of a lost SPU. */
module SpuRuns {
  import opened Options
  import opened SpuRunqueue
  import opened SpuModel
  import opened SpuScheduler

  datatype Op =
    | Deactivate(c: CtxId, force: bool, maxPrio: int)
    | Yield(c: CtxId)
    | Tick(c: CtxId)
    | Activate(c: CtxId, local: Node, place: Placement, signal: bool, runnable: bool)
    | Reactivate(c: CtxId, local: Node, place: Placement, signal: bool, runnable: bool)
    | Update(c: CtxId, prio: int, fifo: bool, allowed: set<Node>)
    | Switch(c: CtxId, u: Util)

  /** The SPUs and contexts, and the lists of the run queue. */
  datatype Sched = Sched(pool: Pool, queues: Queues)

  /** Operation op takes a to b; there are `nodes` nodes and `hz` clock ticks a second. */
  ghost predicate Does(a: Sched, op: Op, b: Sched, nodes: nat, hz: nat) {
    && op.c in a.pool.ctxs
    && match op
       case Deactivate(c, force, maxPrio) =>
         exists r :: Deactivated(a.pool, a.queues, b.pool, b.queues, c, force, maxPrio, hz, r)
       case Yield(c) =>
         if a.pool.ctxs[c].nosched then b == a
         else exists r :: Deactivated(a.pool, a.queues, b.pool, b.queues, c, false, MAX_PRIO, hz, r)
       case Tick(c) => exists r :: Ticked(a.pool, a.queues, b.pool, b.queues, c, hz, r)
       case Activate(c, local, place, signal, runnable) =>
         if a.pool.ctxs[c].spu.Some? then b == a
         else exists o, got ::
                ActivateDone(a.pool, a.queues, b.pool, b.queues, nodes, c, local, place, signal, runnable, hz, o, got)
       case Reactivate(c, local, place, signal, runnable) =>
         exists o, got ::
           ActivateDone(a.pool, Taken(a.queues, a.pool, Some(c)), b.pool, b.queues, nodes, c, local, place, signal,
                        runnable, hz, o, got)
       case Update(c, prio, fifo, allowed) =>
         && 0 <= prio < MAX_PRIO && !Waits(a.queues, c)
         && b == Sched(WithCtx(a.pool, c, a.pool.ctxs[c].(prio := prio, fifo := fifo, allowed := allowed)), a.queues)
       case Switch(c, u) => b == Sched(Switched(a.pool, c, u), a.queues)
  }

  /** The lists of the run queue: one for each priority, nobody waiting twice. */
  ghost predicate Orderly(q: Queues) {
    |q| == MAX_PRIO && Distinct(q)
  }

  /** Links, marks, counters, run queue and node lists are right. */
  ghost predicate Whole(lists: seq<seq<SpuId>>, a: Sched) {
    Sane(a.pool) && Queued(a.queues, a.pool) && Listed(lists, a.pool) && Orderly(a.queues)
  }

  /** The context that comes back from waiting is not bound meanwhile, or will not be bound again. */
  ghost predicate Safe(a: Sched, op: Op, nodes: nat) {
    op.Reactivate? ==>
      && op.c in a.pool.ctxs
      && (a.pool.ctxs[op.c].spu == None || op.signal || NothingFor(a.pool, nodes, op.c, op.place))
  }

  // ---------------------------------------------------------------- changes of the run queue

  lemma TakenWhole(lists: seq<seq<SpuId>>, p: Pool, q: Queues, r: Option<CtxId>)
    requires Whole(lists, Sched(p, q))
    ensures Whole(lists, Sched(p, Taken(q, p, r)))
  {
    if r.Some? && r.value in p.ctxs {
      var c := r.value;
      PrioRange(p, c);
      hide Sane, Listed, Distinct;
      DelQueued(q, p, c);
      if Waits(q, c) {
        DelFacts(q, p.ctxs[c].prio, c);
      } else {
        NotThere(q, c, p.ctxs[c].prio);
      }
    }
  }

  lemma NotThere(q: Queues, c: CtxId, k: nat)
    requires k < |q| && !Waits(q, c)
    ensures q[k := Without(q[k], c)] == q
  {
    WithoutAbsent(q[k], c);
  }

  lemma AppendedWhole(lists: seq<seq<SpuId>>, p: Pool, q: Queues, c: CtxId, u: Pool)
    requires Whole(lists, Sched(p, q)) && c in u.ctxs && SameLabels(u, p)
    ensures Whole(lists, Sched(p, Appended(q, u, c)))
  {
    PrioRange(p, c);
    hide Sane, Listed, Distinct;
    if !Waits(q, c) {
      AddQueued(q, p, c);
      AddDistinct(q, p.ctxs[c].prio, c);
    }
  }

  // ---------------------------------------------------------------- every operation

  lemma HandedWhole(lists: seq<seq<SpuId>>, p: Pool, q: Queues, s: SpuId, d: CtxId, hz: nat)
    requires Whole(lists, Sched(p, q)) && s in p.spus && d in p.ctxs && p.spus[s].ctx == None
             && p.spus[s].node in p.infos
    ensures Whole(lists, Sched(Handed(p, s, d, hz), q))
  {
    hide Sane, Queued, Listed, Orderly, Placed, TimeSlice;
    SavedIsFree(p, d);
    PlacedWhole(q, lists, p, s, d, hz);
  }

  lemma DeactivatedWhole(lists: seq<seq<SpuId>>, p: Pool, q: Queues, p': Pool, q': Queues, c: CtxId, force: bool,
                         maxPrio: int,
                         hz: nat, r: Option<CtxId>)
    requires Whole(lists, Sched(p, q)) && Deactivated(p, q, p', q', c, force, maxPrio, hz, r)
    ensures Whole(lists, Sched(p', q'))
  {
    hide Sane, Queued, Listed, Orderly, Grabbed, Taken, Removed, Handed;
    if p.ctxs[c].spu.Some? {
      var s := p.ctxs[c].spu.value;
      TakenWhole(lists, p, q, r);
      BoundSomewhere(p, c);
      RemovedWhole(q', lists, p, s, c, r == None);
      if r.Some? {
        var m := Removed(p, s, c, false);
        VacatedIn(p, s, c, false);
        if !m.ctxs[r.value].nosched {
          HandedWhole(lists, m, q', s, r.value, hz);
        }
      }
    }
  }

  lemma TickedWhole(lists: seq<seq<SpuId>>, p: Pool, q: Queues, p': Pool, q': Queues, c: CtxId, hz: nat,
                    r: Option<CtxId>)
    requires Whole(lists, Sched(p, q)) && Ticked(p, q, p', q', c, hz, r)
    ensures Whole(lists, Sched(p', q'))
  {
    hide Sane, Queued, Listed, Orderly, Sliced, Preempted;
    TickFacts(p, c);
    var x := p.ctxs[c];
    if x.runnable && !x.nosched && !x.fifo {
      if x.slice > 1 && x.run {
        SpentSane(q, lists, p, c);
      } else {
        PreemptedWhole(lists, p, q, p', q', c, hz, r);
      }
    }
  }

  lemma PreemptedWhole(lists: seq<seq<SpuId>>, p: Pool, q: Queues, p': Pool, q': Queues, c: CtxId, hz: nat,
                       r: Option<CtxId>)
    requires Whole(lists, Sched(p, q)) && Preempted(p, q, p', q', c, hz, r)
    ensures Whole(lists, Sched(p', q'))
  {
    hide Sane, Queued, Listed, Orderly, Grabbed, Taken, Sliced, Removed, Handed, Appended, SameLabels;
    SpentSane(q, lists, p, c);
    TakenWhole(lists, p, q, r);
    var slice := p.ctxs[c].slice - 1;
    SlicedIs(p, c, slice);
    if r == None {
      TakenNone(q, p);
      KeptWhole(q, lists, p, c, hz);
    } else {
      var g, m := Taken(q, p, r), Removed(Sliced(p, c, slice), p.ctxs[c].spu.value, c, false);
      GrabbedIn(q, p, p.ctxs[c].prio + 1, p.spus[p.ctxs[c].spu.value].node, r);
      SlicedLabels(p, c, slice);
      LabelsKeep(g, lists, p, Sliced(p, c, slice));
      ReplacedWhole(g, lists, p, q, c, r.value, hz);
      if p.ctxs[c].run {
        AppendedWhole(lists, m, g, c, p);
      }
      HandedWhole(lists, m, q', p.ctxs[c].spu.value, r.value, hz);
    }
  }

  lemma TakenNone(q: Queues, p: Pool)
    ensures Taken(q, p, None) == q
  {
  }

  /** What is found, emptied and marked. */
  lemma ClearedWhole(lists: seq<seq<SpuId>>, p: Pool, q: Queues, s: SpuId)
    requires Whole(lists, Sched(p, q)) && s in p.spus
    ensures Whole(lists, Sched(Cleared(p, s), Requeued(q, p, s)))
    ensures s in Cleared(p, s).spus && Cleared(p, s).spus[s].ctx == None
            && Cleared(p, s).spus[s].node in Cleared(p, s).infos
    ensures SameLabels(p, Cleared(p, s))
  {
    hide Sane, Queued, Listed, Orderly, Removed, Appended, SameLabels, WithSpu;
    AtSpu(p, s);
    match p.spus[s].ctx
    case None =>
      UsedWhole(q, lists, p, s);
      UsedLabels(p, s);
    case Some(v) =>
      RemovedWhole(q, lists, p, s, v, false);
      RemovedLabels(p, s, v, false);
      VacatedIn(p, s, v, false);
      AppendedWhole(lists, Removed(p, s, v, false), q, v, p);
  }

  lemma AtSpu(p: Pool, s: SpuId)
    requires Sane(p) && s in p.spus
    ensures p.spus[s].node in p.infos && (p.spus[s].ctx.Some? ==> p.spus[s].ctx.value in p.ctxs)
  {
  }

  lemma UsedLabels(p: Pool, s: SpuId)
    requires s in p.spus
    ensures var u := WithSpu(p, s, p.spus[s].(used := true));
            SameLabels(p, u) && s in u.spus && u.spus[s].ctx == p.spus[s].ctx && u.spus[s].node == p.spus[s].node
              && u.infos == p.infos
  {
  }

  /** The SPU found is another than that of c. */
  lemma ClearedSame(p: Pool, nodes: nat, c: CtxId, local: Node, place: Placement, s: SpuId)
    requires Sane(p) && SpuFound(p, nodes, c, local, place, Some(s))
    ensures s in p.spus && c in Cleared(p, s).ctxs && Cleared(p, s).ctxs[c].spu == p.ctxs[c].spu
    ensures !Lost(p, s)
  {
    hide AllTaken, AllTakenBefore, NoVictim, NoVictimBefore, Worse;
    AtSpu(p, s);
    if IdleFound(p, nodes, c, local, place, Some(s)) {
      FreeIsEmpty(p, [], s);
    }
    hide Sane;
  }

  lemma ClaimedWhole(lists: seq<seq<SpuId>>, p: Pool, q: Queues, s: SpuId, c: CtxId, hz: nat, runnable: bool)
    requires Whole(lists, Sched(p, q)) && s in p.spus && c in p.ctxs && p.spus[s].ctx == None
             && p.spus[s].node in p.infos
    ensures var u := Claimed(p, s, c, hz, runnable);
            if p.ctxs[c].spu == None then Whole(lists, Sched(u, q)) else !Coupled(u)
  {
    hide Sane, Coupled, Queued, Listed, Orderly, Placed, Switched, TimeSlice;
    PlacedWhole(q, lists, p, s, c, hz);
    PlacedIs(p, s, c, TimeSlice(p.ctxs[c].prio, hz));
    SwitchedWhole(q, lists, Placed(p, s, c, TimeSlice(p.ctxs[c].prio, hz)), c, User);
  }

  lemma ActivatedWhole(lists: seq<seq<SpuId>>, p: Pool, q: Queues, p': Pool, q': Queues, c: CtxId, local: Node,
                       place: Placement,
                       signal: bool,
                       runnable: bool, hz: nat, o: Outcome, got: Option<SpuId>)
    requires Whole(lists, Sched(p, q))
             && ActivateDone(p, q, p', q', |lists|, c, local, place, signal, runnable, hz, o, got)
    ensures c in p.ctxs
    ensures if p.ctxs[c].spu == None || signal || NothingFor(p, |lists|, c, place) then Whole(lists, Sched(p', q'))
            else !Coupled(p')
  {
    hide Whole, Coupled, Appended, SpuFound, Cleared, Claimed, Requeued, NothingFor, SameLabels;
    if !signal {
      FoundExactly(p, |lists|, c, local, place, got);
    }
    match got
    case None =>
      SameLabelsSelf(p);
      AppendedWhole(lists, p, q, c, p);
    case Some(s) =>
      WholeSane(lists, p, q);
      ClearedSame(p, |lists|, c, local, place, s);
      ClearedWhole(lists, p, q, s);
      ClaimedWhole(lists, Cleared(p, s), q', s, c, hz, runnable);
  }

  lemma SameLabelsSelf(p: Pool)
    ensures SameLabels(p, p)
  {
  }

  lemma WholeSane(lists: seq<seq<SpuId>>, p: Pool, q: Queues)
    requires Whole(lists, Sched(p, q))
    ensures Sane(p)
  {
  }

  lemma UpdateWhole(lists: seq<seq<SpuId>>, p: Pool, q: Queues, c: CtxId, prio: int, fifo: bool, allowed: set<Node>)
    requires Whole(lists, Sched(p, q)) && c in p.ctxs && 0 <= prio < MAX_PRIO && !Waits(q, c)
    ensures Whole(lists, Sched(WithCtx(p, c, p.ctxs[c].(prio := prio, fifo := fifo, allowed := allowed)), q))
  {
    hide Sane, Queued, Listed, Orderly, WithCtx;
    UpdatedWhole(q, lists, p, c, prio, fifo, allowed);
  }

  lemma SwitchWhole(lists: seq<seq<SpuId>>, p: Pool, q: Queues, c: CtxId, u: Util)
    requires Whole(lists, Sched(p, q)) && c in p.ctxs
    ensures Whole(lists, Sched(Switched(p, c, u), q))
  {
    hide Sane, Queued, Listed, Orderly, Switched;
    SwitchedWhole(q, lists, p, c, u);
  }

  /**
   Every operation keeps everything, but for the return from waiting: that one does exactly if the
   context has not been bound meanwhile, or a signal is pending, or there is no SPU to be had.
   */
  lemma StepKeeps(lists: seq<seq<SpuId>>, a: Sched, op: Op, b: Sched, hz: nat)
    requires Whole(lists, a) && Does(a, op, b, |lists|, hz)
    ensures Whole(lists, b) <==> Safe(a, op, |lists|)
  {
    hide Whole, Deactivated, Ticked, ActivateDone, Taken, NothingFor, WithCtx, Switched;
    match op
    case Deactivate(c, force, maxPrio) =>
      var r :| Deactivated(a.pool, a.queues, b.pool, b.queues, c, force, maxPrio, hz, r);
      DeactivatedWhole(lists, a.pool, a.queues, b.pool, b.queues, c, force, maxPrio, hz, r);
    case Yield(c) =>
      if !a.pool.ctxs[c].nosched {
        var r :| Deactivated(a.pool, a.queues, b.pool, b.queues, c, false, MAX_PRIO, hz, r);
        DeactivatedWhole(lists, a.pool, a.queues, b.pool, b.queues, c, false, MAX_PRIO, hz, r);
      }
    case Tick(c) =>
      var r :| Ticked(a.pool, a.queues, b.pool, b.queues, c, hz, r);
      TickedWhole(lists, a.pool, a.queues, b.pool, b.queues, c, hz, r);
    case Activate(c, local, place, signal, runnable) =>
      if a.pool.ctxs[c].spu == None {
        var o, got :| ActivateDone(a.pool, a.queues, b.pool, b.queues, |lists|, c, local, place, signal, runnable, hz,
                                   o, got);
        ActivatedWhole(lists, a.pool, a.queues, b.pool, b.queues, c, local, place, signal, runnable, hz, o, got);
      }
    case Reactivate(c, local, place, signal, runnable) =>
      var q := Taken(a.queues, a.pool, Some(c));
      var o, got :| ActivateDone(a.pool, q, b.pool, b.queues, |lists|, c, local, place, signal, runnable, hz, o, got);
      TakenWhole(lists, a.pool, a.queues, Some(c));
      ActivatedWhole(lists, a.pool, q, b.pool, b.queues, c, local, place, signal, runnable, hz, o, got);
      UncoupledIsNotWhole(lists, b);
    case Update(c, prio, fifo, allowed) => UpdateWhole(lists, a.pool, a.queues, c, prio, fifo, allowed);
    case Switch(c, u) => SwitchWhole(lists, a.pool, a.queues, c, u);
  }

  lemma UncoupledIsNotWhole(lists: seq<seq<SpuId>>, a: Sched)
    ensures !Coupled(a.pool) ==> !Whole(lists, a)
  {
  }

  // ---------------------------------------------------------------- lost SPUs

  lemma DeactivatedLost(p: Pool, q: Queues, p': Pool, q': Queues, c: CtxId, force: bool, maxPrio: int, hz: nat,
                        r: Option<CtxId>, s: SpuId)
    requires Sane(p) && Deactivated(p, q, p', q', c, force, maxPrio, hz, r) && Lost(p, s)
    ensures Lost(p', s)
  {
    hide Grabbed, Taken, TimeSlice, Sane;
    if p.ctxs[c].spu.Some? {
      BoundSomewhere(p, c);
    }
  }

  lemma TickedLost(p: Pool, q: Queues, p': Pool, q': Queues, c: CtxId, hz: nat, r: Option<CtxId>, s: SpuId)
    requires Ticked(p, q, p', q', c, hz, r) && Lost(p, s)
    ensures Lost(p', s)
  {
    hide Grabbed, Taken, TimeSlice, Appended;
  }

  lemma ActivatedLost(p: Pool, q: Queues, p': Pool, q': Queues, nodes: nat, c: CtxId, local: Node, place: Placement,
                      signal: bool,
                      runnable: bool, hz: nat,
                      o: Outcome, got: Option<SpuId>, s: SpuId)
    requires Sane(p) && ActivateDone(p, q, p', q', nodes, c, local, place, signal, runnable, hz, o, got) && Lost(p, s)
    ensures Lost(p', s) && got != Some(s)
  {
    hide SpuFound, TimeSlice, Appended, Requeued, Sane;
    if got.Some? {
      ClearedSame(p, nodes, c, local, place, got.value);
    }
  }

  lemma UpdateLost(p: Pool, c: CtxId, x: Ctx, s: SpuId)
    requires Lost(p, s)
    ensures Lost(WithCtx(p, c, x), s)
  {
  }

  lemma SwitchedLost(p: Pool, c: CtxId, u: Util, s: SpuId)
    requires Lost(p, s) && c in p.ctxs
    ensures Lost(Switched(p, c, u), s)
  {
    SwitchedWhat(p, c, u);
    hide Switched;
  }

  /** A lost SPU stays lost, whatever is done. */
  lemma LostStays(lists: seq<seq<SpuId>>, a: Sched, op: Op, b: Sched, hz: nat, s: SpuId)
    requires Whole(lists, a) && Does(a, op, b, |lists|, hz) && Lost(a.pool, s)
    ensures Lost(b.pool, s)
  {
    hide Whole, Sane, Lost, Deactivated, Ticked, ActivateDone, Taken, WithCtx, Switched;
    WholeSane(lists, a.pool, a.queues);
    match op
    case Deactivate(c, force, maxPrio) =>
      var r :| Deactivated(a.pool, a.queues, b.pool, b.queues, c, force, maxPrio, hz, r);
      DeactivatedLost(a.pool, a.queues, b.pool, b.queues, c, force, maxPrio, hz, r, s);
    case Yield(c) =>
      if !a.pool.ctxs[c].nosched {
        var r :| Deactivated(a.pool, a.queues, b.pool, b.queues, c, false, MAX_PRIO, hz, r);
        DeactivatedLost(a.pool, a.queues, b.pool, b.queues, c, false, MAX_PRIO, hz, r, s);
      }
    case Tick(c) =>
      var r :| Ticked(a.pool, a.queues, b.pool, b.queues, c, hz, r);
      TickedLost(a.pool, a.queues, b.pool, b.queues, c, hz, r, s);
    case Activate(c, local, place, signal, runnable) =>
      if a.pool.ctxs[c].spu == None {
        var o, got :| ActivateDone(a.pool, a.queues, b.pool, b.queues, |lists|, c, local, place, signal, runnable, hz,
                                   o, got);
        ActivatedLost(a.pool, a.queues, b.pool, b.queues, |lists|, c, local, place, signal, runnable, hz, o, got, s);
      }
    case Reactivate(c, local, place, signal, runnable) =>
      var q := Taken(a.queues, a.pool, Some(c));
      var o, got :| ActivateDone(a.pool, q, b.pool, b.queues, |lists|, c, local, place, signal, runnable, hz, o, got);
      ActivatedLost(a.pool, q, b.pool, b.queues, |lists|, c, local, place, signal, runnable, hz, o, got, s);
    case Update(c, prio, fifo, allowed) =>
      UpdateLost(a.pool, c, a.pool.ctxs[c].(prio := prio, fifo := fifo, allowed := allowed), s);
    case Switch(c, u) => SwitchedLost(a.pool, c, u, s);
  }

  // ---------------------------------------------------------------- whole runs

  ghost predicate IsRun(run: seq<Sched>, ops: seq<Op>, nodes: nat, hz: nat) {
    |run| == |ops| + 1 && forall i | 0 <= i < |ops| :: Does(run[i], ops[i], run[i + 1], nodes, hz)
  }

  /**
   Along any run everything is right up to a state if and only if no return from waiting before
   it was one that binds a context a second time.
   */
  lemma {:induction false} RunKeeps(lists: seq<seq<SpuId>>, run: seq<Sched>, ops: seq<Op>, hz: nat, i: nat)
    requires IsRun(run, ops, |lists|, hz) && Whole(lists, run[0]) && i < |run|
    ensures (forall j | 0 <= j <= i :: Whole(lists, run[j]))
       <==> (forall j | 0 <= j < i :: Safe(run[j], ops[j], |lists|))
  {
    hide Whole, Safe, Does;
    if i > 0 {
      RunKeeps(lists, run, ops, hz, i - 1);
      if Whole(lists, run[i - 1]) {
        StepKeeps(lists, run[i - 1], ops[i - 1], run[i], hz);
      }
    }
  }

  /** Along such a run a lost SPU stays lost, and no search in a later state finds it. */
  lemma {:induction false} LostForever(lists: seq<seq<SpuId>>, run: seq<Sched>, ops: seq<Op>, hz: nat, i: nat, j: nat,
                                       s: SpuId)
    requires IsRun(run, ops, |lists|, hz) && Whole(lists, run[0]) && i <= j < |run| && Lost(run[i].pool, s)
    requires forall k | 0 <= k < j :: Safe(run[k], ops[k], |lists|)
    ensures Lost(run[j].pool, s)
    ensures forall c, local, place :: !SpuFound(run[j].pool, |lists|, c, local, place, Some(s))
    decreases j
  {
    hide Whole, Safe, Does, Lost, SpuFound;
    if i < j {
      LostForever(lists, run, ops, hz, i, j - 1, s);
      RunKeeps(lists, run, ops, hz, j - 1);
      LostStays(lists, run[j - 1], ops[j - 1], run[j], hz, s);
    }
    forall c, local, place
      ensures !SpuFound(run[j].pool, |lists|, c, local, place, Some(s))
    {
      LostIsNotFound(run[j].pool, |lists|, c, local, place, s);
    }
  }

  /** An operation of the machine on the scheduler itself. */
  method Perform(sched: Scheduler, op: Op)
    requires sched.Valid() && op.c in sched.ctxs
    requires op.Deactivate? ==> 0 <= op.maxPrio <= MAX_PRIO
    requires op.Activate? || op.Reactivate? ==> 0 <= op.local < |sched.lists| && Exists(sched.P(), op.place)
    requires op.Update? ==> 0 <= op.prio < MAX_PRIO && !Waits(sched.rq.runq, op.c)
    modifies sched`spus, sched`ctxs, sched`infos, sched.rq
    ensures Does(old(Now(sched)), op, Now(sched), |sched.lists|, sched.hz)
    ensures Safe(old(Now(sched)), op, |sched.lists|) ==> sched.Valid()
  {
    hide Sane, Coupled, Queued, Listed, Deactivated, Ticked, ActivateDone, Taken, NothingFor, Switched, RunQueue.Valid;
    match op
    case Deactivate(c, force, maxPrio) => var r := sched.Deactivate(c, force, maxPrio);
    case Yield(c) => sched.Yield(c);
    case Tick(c) => var r := sched.Tick(c);
    case Activate(c, local, place, signal, runnable) => var o, got := sched.Activate(c, local, place, signal, runnable);
    case Reactivate(c, local, place, signal, runnable) =>
      var o, got := sched.Reactivate(c, local, place, signal, runnable);
    case Update(c, prio, fifo, allowed) =>
      NotLinked(sched, c);
      sched.UpdateSchedInfo(c, prio, fifo, allowed);
    case Switch(c, u) =>
      AtHomeIn(sched, c);
      SwitchedWhole(sched.rq.runq, sched.lists, sched.P(), c, u);
      sched.SwitchState(c, u);
  }

  lemma NotLinked(sched: Scheduler, c: CtxId)
    requires sched.Valid() && !Waits(sched.rq.runq, c)
    ensures c !in sched.rq.linked
  {
  }

  lemma AtHomeIn(sched: Scheduler, c: CtxId)
    requires sched.Valid() && c in sched.ctxs
    ensures sched.ctxs[c].spu.Some? ==>
              && sched.ctxs[c].spu.value in sched.spus
              && sched.spus[sched.ctxs[c].spu.value].node in sched.infos
  {
    Home(sched.P(), c);
  }

  ghost function Now(sched: Scheduler): Sched
    reads sched, sched.rq
  {
    Sched(sched.P(), sched.rq.runq)
  }

  // ---------------------------------------------------------------- two runs from boot

  /** Context c is as in p, but for being bound to s. */
  ghost predicate NowOn(p: Pool, p': Pool, s: SpuId, c: CtxId) {
    && s in p.spus && p'.spus == p.spus[s := p.spus[s].(ctx := Some(c), used := true)]
    && p'.ctxs.Keys == p.ctxs.Keys && c in p.ctxs && (forall d | d in p.ctxs && d != c :: p'.ctxs[d] == p.ctxs[d])
    && p'.ctxs[c].spu == Some(s) && p'.ctxs[c].runnable
    && p'.ctxs[c].prio == p.ctxs[c].prio && p'.ctxs[c].fifo == p.ctxs[c].fifo && p'.ctxs[c].nosched == p.ctxs[c].nosched
    && p'.ctxs[c].run == p.ctxs[c].run && p'.ctxs[c].allowed == p.ctxs[c].allowed
  }

  lemma PlacedNowOn(p: Pool, s: SpuId, c: CtxId, slice: int)
    requires s in p.spus && c in p.ctxs && p.spus[s].node in p.infos
    ensures NowOn(p, Placed(p, s, c, slice), s, c)
  {
  }

  lemma ClaimedNowOn(p: Pool, s: SpuId, c: CtxId, hz: nat, runnable: bool)
    requires Sane(p) && s in p.spus && c in p.ctxs && !p.spus[s].used
    ensures NowOn(p, Claimed(Cleared(p, s), s, c, hz, runnable), s, c)
  {
    hide Placed, TimeSlice;
    FreeIsEmpty(p, [], s);
    AtSpu(p, s);
    hide Sane;
    var u := Cleared(p, s);
    PlacedNowOn(u, s, c, TimeSlice(u.ctxs[c].prio, hz));
    SwitchedWhat(Placed(u, s, c, TimeSlice(u.ctxs[c].prio, hz)), c, User);
    hide Switched;
  }

  /** Only s is free where c, no realtime context, may run: c gets it. */
  lemma GetsTheFree(p: Pool, q: Queues, p': Pool, q': Queues, nodes: nat, c: CtxId, local: Node, runnable: bool,
                    hz: nat,
                    o: Outcome, got: Option<SpuId>, s: SpuId)
    requires Sane(p) && ActivateDone(p, q, p', q', nodes, c, local, Anywhere, false, runnable, hz, o, got)
    requires p.ctxs[c].prio >= MAX_RT_PRIO && s in p.spus && p.spus[s].node < nodes
    requires forall t | t in p.spus && p.spus[t].node in p.ctxs[c].allowed :: p.spus[t].used <==> t != s
    requires p.spus[s].node in p.ctxs[c].allowed
    ensures got == Some(s) && NowOn(p, p', s, c) && q' == q
  {
    hide AllTakenBefore, Claimed, Cleared, Requeued, Sane, NowOn;
    FoundExactly(p, nodes, c, local, Anywhere, got);
    assert !AllTaken(p, p.spus[s].node);
    FreeIsEmpty(p, q, s);
    ClaimedNowOn(p, s, c, hz, runnable);
  }

  /** No SPU is free where c, no realtime context, may run: it waits. */
  lemma HasToWait(p: Pool, q: Queues, p': Pool, q': Queues, nodes: nat, c: CtxId, local: Node, runnable: bool, hz: nat,
                  o: Outcome, got: Option<SpuId>)
    requires ActivateDone(p, q, p', q', nodes, c, local, Anywhere, false, runnable, hz, o, got)
    requires p.ctxs[c].prio >= MAX_RT_PRIO
    requires forall t | t in p.spus && p.spus[t].node in p.ctxs[c].allowed :: p.spus[t].used
    ensures p' == p && q' == Appended(q, p, c)
  {
    hide AllTakenBefore, Claimed, Cleared, Requeued;
    FoundExactly(p, nodes, c, local, Anywhere, got);
  }

  /** Lists in which only c waits, with priority k. */
  ghost predicate OnlyWaits(q: Queues, c: CtxId, k: nat) {
    |q| == MAX_PRIO && k < MAX_PRIO && q[k] == [c] && forall j | 0 <= j < MAX_PRIO && j != k :: q[j] == []
  }

  ghost predicate NobodyWaits(q: Queues) {
    |q| == MAX_PRIO && forall j | 0 <= j < MAX_PRIO :: q[j] == []
  }

  lemma FirstToWait(q: Queues, p: Pool, c: CtxId)
    requires NobodyWaits(q) && c in p.ctxs && 0 <= p.ctxs[c].prio < MAX_PRIO
    ensures OnlyWaits(Appended(q, p, c), c, p.ctxs[c].prio)
  {
  }

  lemma OnlyGrabbed(q: Queues, p: Pool, prio: int, n: Node, r: Option<CtxId>, c: CtxId)
    requires c in p.ctxs && 0 <= p.ctxs[c].prio < prio && OnlyWaits(q, c, p.ctxs[c].prio) && n in p.ctxs[c].allowed
    requires Grabbed(q, p, prio, n, r)
    ensures r == Some(c) && NobodyWaits(Taken(q, p, r))
  {
    var k := p.ctxs[c].prio;
    assert c in q[k] && c in Fit(p, n);
    if r.Some? {
      var m := p.ctxs[r.value].prio;
      var i :| Best(q, Fit(p, n), prio, r.value, m, i);
      assert q[m] != [] && m == k;
      assert Without([c], c) == [];
    }
  }

  lemma NobodyGrabbed(q: Queues, p: Pool, prio: int, n: Node, r: Option<CtxId>)
    requires NobodyWaits(q) && Grabbed(q, p, prio, n, r)
    ensures r == None
  {
  }

  lemma DeactivatedGrabs(p: Pool, q: Queues, p': Pool, q': Queues, c: CtxId, force: bool, maxPrio: int, hz: nat,
                         r: Option<CtxId>, d: CtxId)
    requires Deactivated(p, q, p', q', c, force, maxPrio, hz, r) && p.ctxs[c].spu.Some? && p.ctxs[c].spu.value in p.spus
    requires d in p.ctxs && 0 <= p.ctxs[d].prio < maxPrio && OnlyWaits(q, d, p.ctxs[d].prio)
    requires p.spus[p.ctxs[c].spu.value].node in p.ctxs[d].allowed
    ensures r == Some(d)
  {
    hide Grabbed, Taken, Removed, Handed, OnlyWaits;
    OnlyGrabbed(q, p, maxPrio, p.spus[p.ctxs[c].spu.value].node, r, d);
  }

  lemma NobodyYet(q: Queues)
    requires q == seq(MAX_PRIO, _ => [])
    ensures NobodyWaits(q)
  {
  }

  /** A tick in which c has not to run any more, while only d waits: d gets the SPU. */
  lemma TickBinds(p: Pool, q: Queues, p': Pool, q': Queues, c: CtxId, hz: nat, r: Option<CtxId>, d: CtxId)
    requires Sane(p) && Ticked(p, q, p', q', c, hz, r) && d in p.ctxs && d != c && p.ctxs[c].spu.Some?
             && p.ctxs[d].spu == None
    requires !p.ctxs[c].nosched && !p.ctxs[c].fifo && !p.ctxs[c].run && p.ctxs[d].prio <= p.ctxs[c].prio
    requires p.ctxs[d].prio >= 0 && OnlyWaits(q, d, p.ctxs[d].prio)
    requires p.ctxs[c].spu.value in p.spus && p.spus[p.ctxs[c].spu.value].node in p.ctxs[d].allowed
    ensures NobodyWaits(q') && c in p'.ctxs
    ensures NowOn(WithCtx(p, c, p'.ctxs[c]), p', p.ctxs[c].spu.value, d)
  {
    hide Sane, OnlyWaits, NobodyWaits, Grabbed, Taken, Placed, Removed, Sliced, Preempted, NowOn, TimeSlice;
    SavedIsFree(p, c);
    SavedIsFree(p, d);
    var s := p.ctxs[c].spu.value;
    LeftBehind(p, s, c, p.ctxs[c].slice - 1);
    SlicedIs(p, c, p.ctxs[c].slice - 1);
    var m := Removed(Sliced(p, c, p.ctxs[c].slice - 1), s, c, false);
    PreemptedBy(p, q, p', q', c, hz, r, d);
    PlacedNowOn(m, s, d, TimeSlice(m.ctxs[d].prio, hz));
    NowOnAfter(p, m, p', s, c, d);
  }

  /** The state after c has left its SPU. */
  lemma LeftBehind(p: Pool, s: SpuId, c: CtxId, slice: int)
    requires Sane(p) && c in p.ctxs && p.ctxs[c].spu == Some(s)
    ensures s in p.spus && p.spus[s].used && p.spus[s].node in p.infos
    ensures var m := Removed(Sliced(p, c, slice), s, c, false);
            && m.spus == p.spus[s := p.spus[s].(ctx := None)] && m.spus[s].node in m.infos
            && c in m.ctxs && m.ctxs == p.ctxs[c := m.ctxs[c]]
  {
    BoundFacts(p, c);
    UsedIfBound(p, s);
    hide Sane;
  }

  lemma PreemptedBy(p: Pool, q: Queues, p': Pool, q': Queues, c: CtxId, hz: nat, r: Option<CtxId>, d: CtxId)
    requires Preempted(p, q, p', q', c, hz, r) && d in p.ctxs && d != c && !p.ctxs[d].runnable && !p.ctxs[c].run
    requires 0 <= p.ctxs[d].prio <= p.ctxs[c].prio && OnlyWaits(q, d, p.ctxs[d].prio)
    requires p.ctxs[c].spu.value in p.spus && p.spus[p.ctxs[c].spu.value].node in p.ctxs[d].allowed
    requires var m := Removed(Sliced(p, c, p.ctxs[c].slice - 1), p.ctxs[c].spu.value, c, false);
             c in m.ctxs && m.ctxs == p.ctxs[c := m.ctxs[c]]
    ensures var m := Removed(Sliced(p, c, p.ctxs[c].slice - 1), p.ctxs[c].spu.value, c, false); var s := p.ctxs[c].spu.value;
            && NobodyWaits(q') && s in m.spus && m.spus[s].node in m.infos
            && p' == Placed(m, s, d, TimeSlice(m.ctxs[d].prio, hz))
  {
    hide OnlyWaits, NobodyWaits, Grabbed, Taken, Placed, Removed, Sliced, TimeSlice;
    OnlyGrabbed(q, p, p.ctxs[c].prio + 1, p.spus[p.ctxs[c].spu.value].node, r, d);
  }

  lemma NowOnAfter(p: Pool, m: Pool, p': Pool, s: SpuId, c: CtxId, d: CtxId)
    requires NowOn(m, p', s, d) && s in p.spus && p.spus[s].used && m.spus == p.spus[s := p.spus[s].(ctx := None)]
    requires c in p.ctxs && c in m.ctxs && m.ctxs == p.ctxs[c := m.ctxs[c]] && d in p.ctxs && d != c
    ensures c in p'.ctxs && NowOn(WithCtx(p, c, p'.ctxs[c]), p', s, d)
  {
  }

  /** A forced deactivation while nobody waits: the SPU is free. */
  lemma DeactivatedFrees(p: Pool, q: Queues, p': Pool, q': Queues, c: CtxId, maxPrio: int, hz: nat, r: Option<CtxId>)
    requires Deactivated(p, q, p', q', c, true, maxPrio, hz, r) && NobodyWaits(q) && p.ctxs[c].spu.Some?
    ensures var s := p.ctxs[c].spu.value;
            && s in p.spus && p'.spus == p.spus[s := p.spus[s].(ctx := None, used := false)]
            && p'.ctxs.Keys == p.ctxs.Keys && (forall d | d in p.ctxs && d != c :: p'.ctxs[d] == p.ctxs[d])
  {
    hide NobodyWaits, Grabbed, Taken;
    NobodyGrabbed(q, p, maxPrio, p.spus[p.ctxs[c].spu.value].node, r);
  }

  /** A context that does not run and may run on these nodes. */
  function Saved(nosched: bool, run: bool, allowed: set<Node>): Ctx {
    Ctx(120, false, nosched, run, allowed, None, false, IdleLoaded, 1)
  }

  method TakesFree(sched: Scheduler, c: CtxId, s: SpuId)
    requires sched.Valid() && c in sched.ctxs && sched.ctxs[c].spu == None && sched.ctxs[c].prio >= MAX_RT_PRIO
    requires s in sched.spus && sched.spus[s].node < |sched.lists| && sched.spus[s].node in sched.ctxs[c].allowed
    requires forall t | t in sched.spus && sched.spus[t].node in sched.ctxs[c].allowed :: sched.spus[t].used <==> t != s
    modifies sched`spus, sched`ctxs, sched`infos, sched.rq
    ensures sched.Valid() && NowOn(old(sched.P()), sched.P(), s, c) && sched.rq.runq == old(sched.rq.runq)
  {
    hide Sane, Coupled, Queued, Listed, ActivateDone, NowOn, RunQueue.Valid;
    ghost var a := Now(sched);
    var o, got := sched.Activate(c, 0, Anywhere, false, true);
    GetsTheFree(a.pool, a.queues, sched.P(), sched.rq.runq, |sched.lists|, c, 0, true, sched.hz, o, got, s);
  }

  method Enqueues(sched: Scheduler, c: CtxId)
    requires sched.Valid() && c in sched.ctxs && sched.ctxs[c].spu == None
             && MAX_RT_PRIO <= sched.ctxs[c].prio < MAX_PRIO
    requires forall t | t in sched.spus && sched.spus[t].node in sched.ctxs[c].allowed :: sched.spus[t].used
    requires NobodyWaits(sched.rq.runq) && |sched.lists| > 0
    modifies sched`spus, sched`ctxs, sched`infos, sched.rq
    ensures sched.Valid() && sched.P() == old(sched.P()) && OnlyWaits(sched.rq.runq, c, sched.ctxs[c].prio)
  {
    hide Sane, Coupled, Queued, Listed, ActivateDone, Appended, OnlyWaits, NobodyWaits, RunQueue.Valid;
    ghost var a := Now(sched);
    var o, got := sched.Activate(c, 0, Anywhere, false, true);
    HasToWait(a.pool, a.queues, sched.P(), sched.rq.runq, |sched.lists|, c, 0, true, sched.hz, o, got);
    FirstToWait(a.queues, a.pool, c);
  }

  /**
   A context that is not scheduled by others waits for the only SPU; the context on it is
   deactivated, and the SPU, handed to nobody, is lost.
   */
  method LosesSpu() returns (sched: Scheduler)
    ensures sched.Valid() && Lost(sched.P(), 0)
  {
    hide Sane, Coupled, Queued, Listed, Deactivated, OnlyWaits, NobodyWaits, RunQueue.Valid;
    sched := new Scheduler(map[0 := Spu(0, None, false)],
                           map[1 := Saved(false, true, {0}), 2 := Saved(true, true, {0})], [[0]], 1000);
    NobodyYet(sched.rq.runq);
    TakesFree(sched, 1, 0);
    Enqueues(sched, 2);
    ghost var d := Now(sched);
    var r := sched.Deactivate(1, true, MAX_PRIO);
    DeactivatedGrabs(d.pool, d.queues, sched.P(), sched.rq.runq, 1, true, MAX_PRIO, 1000, r, 2);
    DeactivateLoses(d.pool, d.queues, sched.P(), sched.rq.runq, 1, true, MAX_PRIO, 1000, 2);
  }

  /** Context 1 runs on the only SPU it may run on. */
  method FirstTaken() returns (sched: Scheduler)
    ensures fresh(sched) && fresh(sched.rq) && sched.Valid() && sched.lists == [[0], [1]] && sched.hz == 1000
    ensures NobodyWaits(sched.rq.runq) && sched.spus.Keys == {0, 1} && sched.ctxs.Keys == {1, 2, 3}
    ensures sched.spus[0] == Spu(0, Some(1), true) && sched.spus[1] == Spu(1, None, false)
    ensures var x := sched.ctxs[1]; !x.nosched && !x.fifo && !x.run && x.prio == 120 && x.spu == Some(0)
    ensures sched.ctxs[2] == Saved(true, true, {0, 1}) && sched.ctxs[3] == Saved(false, true, {1})
  {
    hide Sane, Coupled, Queued, Listed, NobodyWaits, RunQueue.Valid;
    sched := new Scheduler(map[0 := Spu(0, None, false), 1 := Spu(1, None, false)],
                           map[1 := Saved(false, false, {0}), 2 := Saved(true, true, {0, 1}), 3 := Saved(false, true, {1})],
                           [[0], [1]], 1000);
    NobodyYet(sched.rq.runq);
    TakesFree(sched, 1, 0);
  }

  /** So does context 3; context 2 waits for either. */
  method BothTaken() returns (sched: Scheduler)
    ensures fresh(sched) && fresh(sched.rq) && sched.Valid() && sched.lists == [[0], [1]] && sched.hz == 1000
    ensures OnlyWaits(sched.rq.runq, 2, 120) && sched.spus.Keys == {0, 1} && sched.ctxs.Keys == {1, 2, 3}
    ensures sched.spus[0] == Spu(0, Some(1), true) && sched.spus[1] == Spu(1, Some(3), true)
    ensures var x := sched.ctxs[1]; !x.nosched && !x.fifo && !x.run && x.prio == 120 && x.spu == Some(0)
    ensures sched.ctxs[2] == Saved(true, true, {0, 1}) && sched.ctxs[3].spu == Some(1)
  {
    hide Sane, Coupled, Queued, Listed, OnlyWaits, NobodyWaits, RunQueue.Valid;
    sched := FirstTaken();
    TakesFree(sched, 3, 1);
    Enqueues(sched, 2);
  }

  /** A tick binds context 2 to the first SPU, and the second becomes free. */
  method BoundByTick() returns (sched: Scheduler)
    ensures fresh(sched) && fresh(sched.rq) && sched.Valid() && sched.lists == [[0], [1]] && sched.hz == 1000
    ensures sched.spus.Keys == {0, 1} && sched.spus[0] == Spu(0, Some(2), true) && sched.spus[1] == Spu(1, None, false)
    ensures 2 in sched.ctxs && sched.ctxs[2].allowed == {0, 1} && sched.ctxs[2].prio == 120
  {
    hide Sane, Coupled, Queued, Listed, Deactivated, Ticked, OnlyWaits, NobodyWaits, RunQueue.Valid;
    sched := BothTaken();
    ghost var e := Now(sched);
    var r := sched.Tick(1);
    ghost var f := Now(sched);
    TickBinds(e.pool, e.queues, f.pool, f.queues, 1, 1000, r, 2);
    r := sched.Deactivate(3, true, MAX_PRIO);
    DeactivatedFrees(f.pool, f.queues, sched.P(), sched.rq.runq, 3, MAX_PRIO, 1000, r);
  }

  /** Back from its wait, the context takes the second SPU, too. */
  method BindsTwice() returns (sched: Scheduler)
    ensures 0 in sched.spus && 1 in sched.spus && sched.spus[0].ctx == Some(2) == sched.spus[1].ctx
  {
    hide Sane, Coupled, Queued, Listed, ActivateDone, Taken, NothingFor, RunQueue.Valid;
    sched := BoundByTick();
    ghost var g := Now(sched);
    var o, got := sched.Reactivate(2, 0, Anywhere, false, true);
    GetsTheFree(g.pool, Taken(g.queues, g.pool, Some(2)), sched.P(), sched.rq.runq, 2, 2, 0, true, 1000, o, got, 1);
  }
}

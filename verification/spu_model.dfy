/**
 Physical SPUs and the contexts bound to them: what the scheduler keeps true, and what binding
 and unbinding do to it.  Also the time slice of a priority.
 */
module SpuModel {
  import opened Options
  import opened SpuRunqueue

  type SpuId = nat
  type Node = nat

  datatype Util = User | System | IdleLoaded

  datatype Spu = Spu(node: Node, ctx: Option<CtxId>, used: bool)

  /** `run`: SPU_SCHED_SPU_RUN; `allowed`: the nodes with a processor of cpus_allowed;
      `runnable`: state is SPU_STATE_RUNNABLE, not SPU_STATE_SAVED. */
  datatype Ctx = Ctx(prio: int, fifo: bool, nosched: bool, run: bool, allowed: set<Node>,
                     spu: Option<SpuId>, runnable: bool, util: Util, slice: int)

  /** The counters of a node. */
  datatype Info = Info(nrActive: int, reserved: int, busy: int)

  datatype Pool = Pool(spus: map<SpuId, Spu>, ctxs: map<CtxId, Ctx>, infos: map<Node, Info>)

  // ---------------------------------------------------------------- invariants

  /** An SPU runs a context exactly if the context is bound to that SPU. */
  ghost predicate Coupled(p: Pool) {
    && (forall s | s in p.spus && p.spus[s].ctx.Some? :: p.spus[s].ctx.value in p.ctxs)
    && (forall c | c in p.ctxs && p.ctxs[c].spu.Some? :: p.ctxs[c].spu.value in p.spus)
    && (forall s, c | s in p.spus && c in p.ctxs :: p.spus[s].ctx == Some(c) <==> p.ctxs[c].spu == Some(s))
  }

  /** A bound SPU is taken, a context is runnable exactly if bound, and then has time left. */
  ghost predicate Marked(p: Pool) {
    && (forall s | s in p.spus && p.spus[s].ctx.Some? :: p.spus[s].used)
    && (forall c | c in p.ctxs :: 0 <= p.ctxs[c].prio < MAX_PRIO && (p.ctxs[c].runnable <==> p.ctxs[c].spu.Some?))
    && (forall c | c in p.ctxs && p.ctxs[c].spu.Some? :: p.ctxs[c].slice >= 1)
  }

  ghost predicate Bound(p: Pool, n: Node, s: SpuId) {
    s in p.spus && p.spus[s].node == n && p.spus[s].ctx.Some? && p.spus[s].ctx.value in p.ctxs
  }

  ghost function Occupied(p: Pool, n: Node): set<SpuId> {
    set s | s in p.spus && Bound(p, n, s)
  }

  ghost predicate IsReserved(p: Pool, n: Node, s: SpuId) {
    Bound(p, n, s) && p.ctxs[p.spus[s].ctx.value].nosched
  }

  ghost function Reserved(p: Pool, n: Node): set<SpuId> {
    set s | s in p.spus && IsReserved(p, n, s)
  }

  ghost predicate IsBusy(p: Pool, n: Node, s: SpuId) {
    Bound(p, n, s) && p.ctxs[p.spus[s].ctx.value].util == User
  }

  ghost function Busy(p: Pool, n: Node): set<SpuId> {
    set s | s in p.spus && IsBusy(p, n, s)
  }

  /** The counters a node should have. */
  ghost function Tally(p: Pool, n: Node): Info {
    Info(|Occupied(p, n)|, |Reserved(p, n)|, |Busy(p, n)|)
  }

  /** The counters of every node count its bound, its reserved and its busy SPUs. */
  ghost predicate Tallied(p: Pool) {
    && (forall s | s in p.spus :: p.spus[s].node in p.infos)
    && (forall n | n in p.infos :: p.infos[n] == Tally(p, n))
  }

  ghost predicate Sane(p: Pool) {
    Coupled(p) && Marked(p) && Tallied(p)
  }

  // ---------------------------------------------------------------- changes of state

  function Flag(b: bool): int {
    if b then 1 else 0
  }

  /** spuctx_switch_state */
  function Switched(p: Pool, c: CtxId, u: Util): Pool
    requires c in p.ctxs
  {
    var x := p.ctxs[c];
    var q := p.(ctxs := p.ctxs[c := x.(util := u)]);
    if x.spu.Some? && x.spu.value in p.spus && p.spus[x.spu.value].node in p.infos then
      var n := p.spus[x.spu.value].node;
      q.(infos := p.infos[n := p.infos[n].(busy := p.infos[n].busy - Flag(x.util == User) + Flag(u == User))])
    else q
  }

  /** spu_set_timeslice */
  function Sliced(p: Pool, c: CtxId, slice: int): Pool
    requires c in p.ctxs
  {
    p.(ctxs := p.ctxs[c := p.ctxs[c].(slice := slice)])
  }

  /** spu_bind_context, with the bookkeeping of __spu_schedule */
  function Placed(p: Pool, s: SpuId, c: CtxId, slice: int): Pool
    requires s in p.spus && c in p.ctxs && p.spus[s].node in p.infos
  {
    var q := Switched(p, c, System);
    var n := p.spus[s].node;
    var x := p.ctxs[c];
    var i := q.infos[n];
    Pool(p.spus[s := p.spus[s].(ctx := Some(c), used := true)],
         p.ctxs[c := x.(spu := Some(s), runnable := true, util := User, slice := slice)],
         q.infos[n := Info(i.nrActive + 1, i.reserved + Flag(x.nosched), i.busy + 1)])
  }

  /** spu_unbind_context, with the bookkeeping of spu_unschedule */
  function Removed(p: Pool, s: SpuId, c: CtxId, free: bool): Pool
    requires s in p.spus && c in p.ctxs && p.spus[s].node in p.infos
  {
    var n := p.spus[s].node;
    var x := p.ctxs[c];
    var i := p.infos[n];
    Pool(p.spus[s := p.spus[s].(ctx := None, used := p.spus[s].used && !free)],
         p.ctxs[c := x.(spu := None, runnable := false, util := IdleLoaded)],
         p.infos[n := Info(i.nrActive - 1, i.reserved - Flag(x.nosched), i.busy - Flag(x.util == User))])
  }

  // ---------------------------------------------------------------- the steps of binding and unbinding

  function Recounted(p: Pool, n: Node, active: int, reserved: int): Pool
    requires n in p.infos
  {
    p.(infos := p.infos[n := p.infos[n].(nrActive := p.infos[n].nrActive + active, reserved := p.infos[n].reserved + reserved)])
  }

  function WithSpu(p: Pool, s: SpuId, x: Spu): Pool {
    p.(spus := p.spus[s := x])
  }

  function WithCtx(p: Pool, c: CtxId, x: Ctx): Pool {
    p.(ctxs := p.ctxs[c := x])
  }

  /** spu_bind_context, step by step. */
  function BindSteps(p: Pool, s: SpuId, c: CtxId): Pool
    requires s in p.spus && c in p.ctxs && p.spus[s].node in p.infos
  {
    var a := Switched(p, c, System);
    var b := Recounted(a, p.spus[s].node, 0, Flag(p.ctxs[c].nosched));
    var d := WithSpu(b, s, p.spus[s].(ctx := Some(c)));
    Switched(WithCtx(d, c, a.ctxs[c].(spu := Some(s), runnable := true)), c, User)
  }

  /** spu_unbind_context, step by step. */
  function UnbindSteps(p: Pool, s: SpuId, c: CtxId): Pool
    requires s in p.spus && c in p.ctxs && p.spus[s].node in p.infos
  {
    var a := Switched(p, c, System);
    var b := Recounted(a, p.spus[s].node, 0, -Flag(p.ctxs[c].nosched));
    var d := WithCtx(b, c, a.ctxs[c].(runnable := false));
    var e := Switched(WithSpu(d, s, p.spus[s].(ctx := None)), c, IdleLoaded);
    WithCtx(e, c, e.ctxs[c].(spu := None))
  }

  lemma SwitchedWhat(p: Pool, c: CtxId, u: Util)
    requires c in p.ctxs
    ensures var q := Switched(p, c, u);
            q.spus == p.spus && q.infos.Keys == p.infos.Keys && q.ctxs == p.ctxs[c := p.ctxs[c].(util := u)]
  {
  }

  lemma BindIsPlaced(p: Pool, s: SpuId, c: CtxId, slice: int)
    requires s in p.spus && c in p.ctxs && p.spus[s].node in p.infos
    ensures var q := BindSteps(Sliced(p, c, slice), s, c); var n := p.spus[s].node;
            && n in q.infos && s in q.spus
            && WithSpu(Recounted(q, n, 1, 0), s, q.spus[s].(used := true)) == Placed(p, s, c, slice)
  {
    BindMaps(p, s, c, slice);
    BindInfos(p, s, c, slice);
    hide BindSteps, Placed, Sliced;
  }

  lemma BindMaps(p: Pool, s: SpuId, c: CtxId, slice: int)
    requires s in p.spus && c in p.ctxs && p.spus[s].node in p.infos
    ensures var q := BindSteps(Sliced(p, c, slice), s, c); var t := Placed(p, s, c, slice);
            s in q.spus && q.spus[s := q.spus[s].(used := true)] == t.spus && q.ctxs == t.ctxs
  {
    var a := Switched(Sliced(p, c, slice), c, System);
    SwitchedWhat(Sliced(p, c, slice), c, System);
    var b := Recounted(a, p.spus[s].node, 0, Flag(p.ctxs[c].nosched));
    var d := WithSpu(b, s, p.spus[s].(ctx := Some(c)));
    SwitchedWhat(WithCtx(d, c, a.ctxs[c].(spu := Some(s), runnable := true)), c, User);
    hide Switched;
  }

  lemma BindInfos(p: Pool, s: SpuId, c: CtxId, slice: int)
    requires s in p.spus && c in p.ctxs && p.spus[s].node in p.infos
    ensures var q := BindSteps(Sliced(p, c, slice), s, c); var n := p.spus[s].node;
            n in q.infos && Recounted(q, n, 1, 0).infos == Placed(p, s, c, slice).infos
  {
  }

  lemma UnbindInfos(p: Pool, s: SpuId, c: CtxId, free: bool)
    requires s in p.spus && c in p.ctxs && p.spus[s].node in p.infos && p.ctxs[c].spu == Some(s)
    ensures var n := p.spus[s].node;
            UnbindSteps(WithSpu(Recounted(p, n, -1, 0), s, p.spus[s].(used := p.spus[s].used && !free)), s, c).infos
              == Removed(p, s, c, free).infos
  {
  }

  lemma UnbindIsRemoved(p: Pool, s: SpuId, c: CtxId, free: bool)
    requires s in p.spus && c in p.ctxs && p.spus[s].node in p.infos && p.ctxs[c].spu == Some(s)
    ensures var n := p.spus[s].node;
            UnbindSteps(WithSpu(Recounted(p, n, -1, 0), s, p.spus[s].(used := p.spus[s].used && !free)), s, c)
              == Removed(p, s, c, free)
  {
    UnbindMaps(p, s, c, free);
    UnbindInfos(p, s, c, free);
    hide UnbindSteps, Removed, Recounted, WithSpu;
  }

  lemma UnbindMaps(p: Pool, s: SpuId, c: CtxId, free: bool)
    requires s in p.spus && c in p.ctxs && p.spus[s].node in p.infos && p.ctxs[c].spu == Some(s)
    ensures var n := p.spus[s].node;
            var r := UnbindSteps(WithSpu(Recounted(p, n, -1, 0), s, p.spus[s].(used := p.spus[s].used && !free)), s, c);
            r.spus == Removed(p, s, c, free).spus && r.ctxs == Removed(p, s, c, free).ctxs
  {
  }

  lemma SlicedPlaced(p: Pool, s: SpuId, c: CtxId, slice: int)
    requires s in p.spus && c in p.ctxs && p.spus[s].node in p.infos
    ensures var u := Sliced(p, c, slice);
            && u.spus == p.spus && u.infos == p.infos && u.ctxs.Keys == p.ctxs.Keys
            && u.ctxs[c] == p.ctxs[c].(slice := slice)
            && Placed(u, s, c, slice) == Placed(p, s, c, slice)
  {
  }

  /** The steps of spu_bind_context leave the count of active contexts and the mark of the SPU. */
  lemma BindMeans(p: Pool, s: SpuId, c: CtxId)
    requires s in p.spus && c in p.ctxs && p.spus[s].node in p.infos
    ensures var q := BindSteps(p, s, c); var n := p.spus[s].node;
            && n in q.infos && s in q.spus && q.spus[s].used == p.spus[s].used
            && WithSpu(Recounted(q, n, 1, 0), s, q.spus[s].(used := true)) == Placed(p, s, c, p.ctxs[c].slice)
  {
    assert Sliced(p, c, p.ctxs[c].slice) == p;
    BindIsPlaced(p, s, c, p.ctxs[c].slice);
    hide Placed, Sliced, Recounted, Switched;
    SwitchedWhat(p, c, System);
  }

  /** The steps of spu_unbind_context expect that count to have been lowered. */
  lemma UnbindMeans(p: Pool, s: SpuId, c: CtxId)
    requires s in p.spus && c in p.ctxs && p.spus[s].node in p.infos && p.ctxs[c].spu == Some(s)
    ensures UnbindSteps(p, s, c) == Removed(Recounted(p, p.spus[s].node, 1, 0), s, c, false)
  {
    var n := p.spus[s].node;
    var q := Recounted(p, n, 1, 0);
    var i := p.infos[n];
    assert q.infos[n] == Info(i.nrActive + 1, i.reserved, i.busy);
    assert Recounted(q, n, -1, 0).infos == p.infos;
    assert WithSpu(Recounted(q, n, -1, 0), s, q.spus[s]) == p;
    hide Recounted, UnbindSteps, Removed, WithSpu;
    assert q.spus[s].(used := q.spus[s].used && !false) == q.spus[s];
    UnbindIsRemoved(q, s, c, false);
  }

  /** Lowering the count and the mark first comes to the same. */
  lemma RemovedAfter(p: Pool, s: SpuId, c: CtxId, free: bool)
    requires s in p.spus && c in p.ctxs && p.spus[s].node in p.infos
    ensures var n := p.spus[s].node; var q := WithSpu(Recounted(p, n, -1, 0), s, p.spus[s].(used := p.spus[s].used && !free));
            Removed(Recounted(q, n, 1, 0), s, c, false) == Removed(p, s, c, free)
  {
    var n := p.spus[s].node;
    var q := WithSpu(Recounted(p, n, -1, 0), s, p.spus[s].(used := p.spus[s].used && !free));
    assert Recounted(q, n, 1, 0).infos == p.infos;
  }

  // ---------------------------------------------------------------- binding keeps everything

  /** s is not bound to c in p and is in q; no other SPU runs c in either, and nothing else differs. */
  ghost predicate OneMore(p: Pool, q: Pool, s: SpuId, c: CtxId) {
    && s in p.spus && q.spus.Keys == p.spus.Keys && p.spus[s].ctx == None
    && q.spus[s].node == p.spus[s].node && q.spus[s].ctx == Some(c)
    && (forall t | t in p.spus && t != s ::
          q.spus[t].node == p.spus[t].node && q.spus[t].ctx == p.spus[t].ctx && p.spus[t].ctx != Some(c))
    && c in p.ctxs && q.ctxs.Keys == p.ctxs.Keys && (forall d | d in p.ctxs && d != c :: q.ctxs[d] == p.ctxs[d])
  }

  /** Two sets of SPUs that agree except at s. */
  lemma SetsDiffer(a: set<SpuId>, b: set<SpuId>, s: SpuId)
    requires forall t | t != s :: t in a <==> t in b
    ensures |a| - Flag(s in a) == |b| - Flag(s in b)
  {
    var rest := a - {s};
    assert a == rest + (if s in a then {s} else {});
    assert b == rest + (if s in b then {s} else {});
  }

  lemma MoreActive(p: Pool, q: Pool, s: SpuId, c: CtxId, n: Node)
    requires OneMore(p, q, s, c)
    ensures |Occupied(q, n)| == |Occupied(p, n)| + Flag(p.spus[s].node == n)
  {
    forall t | t != s
      ensures t in Occupied(q, n) <==> t in Occupied(p, n)
    {
    }
    SetsDiffer(Occupied(q, n), Occupied(p, n), s);
  }

  lemma MoreReserved(p: Pool, q: Pool, s: SpuId, c: CtxId, n: Node)
    requires OneMore(p, q, s, c)
    ensures |Reserved(q, n)| == |Reserved(p, n)| + Flag(p.spus[s].node == n && q.ctxs[c].nosched)
  {
    forall t | t != s
      ensures t in Reserved(q, n) <==> t in Reserved(p, n)
    {
    }
    SetsDiffer(Reserved(q, n), Reserved(p, n), s);
  }

  lemma MoreBusy(p: Pool, q: Pool, s: SpuId, c: CtxId, n: Node)
    requires OneMore(p, q, s, c)
    ensures |Busy(q, n)| == |Busy(p, n)| + Flag(p.spus[s].node == n && q.ctxs[c].util == User)
  {
    forall t | t != s
      ensures t in Busy(q, n) <==> t in Busy(p, n)
    {
    }
    SetsDiffer(Busy(q, n), Busy(p, n), s);
  }

  lemma MoreTally(p: Pool, q: Pool, s: SpuId, c: CtxId, n: Node)
    requires OneMore(p, q, s, c)
    ensures var here := p.spus[s].node == n; var i := Tally(p, n);
            Tally(q, n) == Info(i.nrActive + Flag(here), i.reserved + Flag(here && q.ctxs[c].nosched),
                                i.busy + Flag(here && q.ctxs[c].util == User))
  {
    MoreActive(p, q, s, c, n);
    MoreReserved(p, q, s, c, n);
    MoreBusy(p, q, s, c, n);
    hide OneMore, Occupied, Reserved, Busy;
  }

  lemma PlacedOneMore(p: Pool, s: SpuId, c: CtxId, slice: int)
    requires Coupled(p) && s in p.spus && c in p.ctxs && p.spus[s].node in p.infos
    requires p.spus[s].ctx == None && p.ctxs[c].spu == None
    ensures OneMore(p, Placed(p, s, c, slice), s, c)
  {
  }

  lemma PlacedInfo(p: Pool, s: SpuId, c: CtxId, slice: int, n: Node)
    requires s in p.spus && c in p.ctxs && p.spus[s].node in p.infos && p.ctxs[c].spu == None && n in p.infos
    ensures var q := Placed(p, s, c, slice); var here := p.spus[s].node == n; var i := p.infos[n];
            && q.infos.Keys == p.infos.Keys && c in q.ctxs
            && q.ctxs[c].nosched == p.ctxs[c].nosched && q.ctxs[c].util == User
            && q.infos[n] == Info(i.nrActive + Flag(here), i.reserved + Flag(here && p.ctxs[c].nosched), i.busy + Flag(here))
  {
  }

  lemma PlacedTallied(p: Pool, s: SpuId, c: CtxId, slice: int)
    requires Coupled(p) && Tallied(p) && s in p.spus && c in p.ctxs && p.spus[s].ctx == None && p.ctxs[c].spu == None
    ensures Tallied(Placed(p, s, c, slice))
  {
    var q := Placed(p, s, c, slice);
    PlacedOneMore(p, s, c, slice);
    assert q.infos.Keys == p.infos.Keys;
    assert forall t | t in q.spus :: q.spus[t].node == p.spus[t].node;
    hide Placed, Coupled, OneMore, Occupied, Reserved, Busy, Tally;
    forall n | n in q.infos
      ensures q.infos[n] == Tally(q, n)
    {
      assert p.infos[n] == Tally(p, n);
      hide Tallied;
      PlacedTally(p, s, c, slice, n);
    }
  }

  lemma PlacedTally(p: Pool, s: SpuId, c: CtxId, slice: int, n: Node)
    requires s in p.spus && c in p.ctxs && p.spus[s].node in p.infos && n in p.infos && p.infos[n] == Tally(p, n)
    requires p.ctxs[c].spu == None && OneMore(p, Placed(p, s, c, slice), s, c)
    ensures var q := Placed(p, s, c, slice); n in q.infos && q.infos[n] == Tally(q, n)
  {
    PlacedInfo(p, s, c, slice, n);
    hide Placed, Tally;
    MoreTally(p, Placed(p, s, c, slice), s, c, n);
    hide OneMore;
  }

  lemma PlacedCoupled(p: Pool, s: SpuId, c: CtxId, slice: int)
    requires Coupled(p) && s in p.spus && c in p.ctxs && p.spus[s].node in p.infos && p.spus[s].ctx == None
    ensures Coupled(Placed(p, s, c, slice)) <==> p.ctxs[c].spu == None
  {
    var q := Placed(p, s, c, slice);
    assert q.spus == p.spus[s := p.spus[s].(ctx := Some(c), used := true)];
    assert q.ctxs.Keys == p.ctxs.Keys && q.ctxs[c].spu == Some(s) && forall d | d in p.ctxs && d != c :: q.ctxs[d] == p.ctxs[d];
    hide Placed;
    if p.ctxs[c].spu.Some? {
      var t := p.ctxs[c].spu.value;
      assert t != s && q.spus[t].ctx == Some(c);
      assert !Coupled(q);
    }
  }

  lemma PlacedMarked(p: Pool, s: SpuId, c: CtxId, slice: int)
    requires Marked(p) && s in p.spus && c in p.ctxs && p.spus[s].node in p.infos && slice >= 1
    ensures Marked(Placed(p, s, c, slice))
  {
    var q := Placed(p, s, c, slice);
    assert q.spus == p.spus[s := p.spus[s].(ctx := Some(c), used := true)];
    assert q.ctxs == p.ctxs[c := p.ctxs[c].(spu := Some(s), runnable := true, util := User, slice := slice)];
    hide Placed;
  }

  /**
   Binding a context to a free SPU keeps everything, and does so only for a context that is not
   bound yet: one that is would be left on two SPUs.
   */
  lemma PlacedSane(p: Pool, s: SpuId, c: CtxId, slice: int)
    requires Sane(p) && s in p.spus && c in p.ctxs && p.spus[s].ctx == None && slice >= 1
    ensures p.spus[s].node in p.infos && (Sane(Placed(p, s, c, slice)) <==> p.ctxs[c].spu == None)
  {
    assert p.spus[s].node in p.infos;
    PlacedCoupled(p, s, c, slice);
    PlacedMarked(p, s, c, slice);
    hide Coupled, Marked, Tallied, Placed;
    if p.ctxs[c].spu == None {
      PlacedTallied(p, s, c, slice);
    }
  }

  lemma RemovedOneMore(p: Pool, s: SpuId, c: CtxId, free: bool)
    requires Coupled(p) && s in p.spus && c in p.ctxs && p.spus[s].node in p.infos && p.spus[s].ctx == Some(c)
    ensures OneMore(Removed(p, s, c, free), p, s, c)
  {
  }

  lemma RemovedInfo(p: Pool, s: SpuId, c: CtxId, free: bool, n: Node)
    requires s in p.spus && c in p.ctxs && p.spus[s].node in p.infos && n in p.infos
    ensures var q := Removed(p, s, c, free); var here := p.spus[s].node == n; var i := p.infos[n];
            && q.infos.Keys == p.infos.Keys && s in q.spus && q.spus[s].node == p.spus[s].node
            && q.infos[n] == Info(i.nrActive - Flag(here), i.reserved - Flag(here && p.ctxs[c].nosched),
                                  i.busy - Flag(here && p.ctxs[c].util == User))
  {
  }

  lemma RemovedTallied(p: Pool, s: SpuId, c: CtxId, free: bool)
    requires Coupled(p) && Tallied(p) && s in p.spus && c in p.ctxs && p.spus[s].ctx == Some(c)
    ensures Tallied(Removed(p, s, c, free))
  {
    var q := Removed(p, s, c, free);
    RemovedOneMore(p, s, c, free);
    assert q.infos.Keys == p.infos.Keys;
    assert forall t | t in q.spus :: q.spus[t].node == p.spus[t].node;
    hide Removed, Coupled, Flag, OneMore, Occupied, Reserved, Busy, Tally;
    forall n | n in q.infos
      ensures q.infos[n] == Tally(q, n)
    {
      assert p.infos[n] == Tally(p, n);
      hide Tallied;
      RemovedTally(p, s, c, free, n);
    }
  }

  lemma RemovedTally(p: Pool, s: SpuId, c: CtxId, free: bool, n: Node)
    requires s in p.spus && c in p.ctxs && p.spus[s].node in p.infos && n in p.infos && p.infos[n] == Tally(p, n)
    requires OneMore(Removed(p, s, c, free), p, s, c)
    ensures var q := Removed(p, s, c, free); n in q.infos && q.infos[n] == Tally(q, n)
  {
    RemovedInfo(p, s, c, free, n);
    hide Removed, Tally;
    MoreTally(Removed(p, s, c, free), p, s, c, n);
    hide OneMore;
  }

  /** Unbinding a context from its SPU keeps everything. */
  lemma RemovedSane(p: Pool, s: SpuId, c: CtxId, free: bool)
    requires Sane(p) && s in p.spus && c in p.ctxs && p.spus[s].ctx == Some(c)
    ensures p.spus[s].node in p.infos && Sane(Removed(p, s, c, free))
  {
    RemovedTallied(p, s, c, free);
    hide Tallied;
    RemovedCoupled(p, s, c, free);
    hide Coupled, Removed;
  }

  lemma RemovedCoupled(p: Pool, s: SpuId, c: CtxId, free: bool)
    requires Coupled(p) && Marked(p) && s in p.spus && c in p.ctxs && p.spus[s].ctx == Some(c)
             && p.spus[s].node in p.infos
    ensures Coupled(Removed(p, s, c, free)) && Marked(Removed(p, s, c, free))
  {
    var q := Removed(p, s, c, free);
    assert q.spus == p.spus[s := p.spus[s].(ctx := None, used := p.spus[s].used && !free)];
    assert q.ctxs == p.ctxs[c := p.ctxs[c].(spu := None, runnable := false, util := IdleLoaded)];
    hide Removed;
  }

  /** The counters after a change of utilization state. */
  lemma SwitchedTally(p: Pool, c: CtxId, u: Util, n: Node)
    requires Coupled(p) && c in p.ctxs && n in p.infos && p.infos[n] == Tally(p, n)
    requires p.ctxs[c].spu.Some? ==> p.ctxs[c].spu.value in p.spus && p.spus[p.ctxs[c].spu.value].node in p.infos
    ensures var q := Switched(p, c, u); n in q.infos && q.infos[n] == Tally(q, n)
  {
    var q := Switched(p, c, u);
    assert q.spus == p.spus && q.ctxs == p.ctxs[c := p.ctxs[c].(util := u)];
    SwitchedInfo(p, c, u, n);
    hide Switched;
    SwitchedOthers(p, q, c, u, n);
    SwitchedBusy(p, q, c, u, n);
    hide Occupied, Reserved, Busy, Coupled;
  }

  lemma SwitchedOthers(p: Pool, q: Pool, c: CtxId, u: Util, n: Node)
    requires c in p.ctxs && q.spus == p.spus && q.ctxs == p.ctxs[c := p.ctxs[c].(util := u)]
    ensures Occupied(q, n) == Occupied(p, n) && Reserved(q, n) == Reserved(p, n)
  {
    forall t
      ensures Bound(p, n, t) <==> Bound(q, n, t)
      ensures IsReserved(p, n, t) <==> IsReserved(q, n, t)
    {
    }
    hide Bound, IsReserved;
  }

  lemma SwitchedInfo(p: Pool, c: CtxId, u: Util, n: Node)
    requires c in p.ctxs && n in p.infos
    requires p.ctxs[c].spu.Some? ==> p.ctxs[c].spu.value in p.spus && p.spus[p.ctxs[c].spu.value].node in p.infos
    ensures var q := Switched(p, c, u); var x := p.ctxs[c];
            var here := x.spu.Some? && p.spus[x.spu.value].node == n;
            && q.infos.Keys == p.infos.Keys
            && q.infos[n] == p.infos[n].(busy := p.infos[n].busy - Flag(here && x.util == User) + Flag(here && u == User))
  {
  }

  lemma SwitchedBusy(p: Pool, q: Pool, c: CtxId, u: Util, n: Node)
    requires Coupled(p) && c in p.ctxs && q.spus == p.spus && q.ctxs == p.ctxs[c := p.ctxs[c].(util := u)]
    requires p.ctxs[c].spu.Some? ==> p.ctxs[c].spu.value in p.spus
    ensures var x := p.ctxs[c]; var here := x.spu.Some? && p.spus[x.spu.value].node == n;
            |Busy(q, n)| == |Busy(p, n)| - Flag(here && x.util == User) + Flag(here && u == User)
  {
    var x := p.ctxs[c];
    forall t | Some(t) != x.spu
      ensures t in Busy(q, n) <==> t in Busy(p, n)
    {
    }
    if x.spu.Some? {
      SetsDiffer(Busy(q, n), Busy(p, n), x.spu.value);
    } else {
      assert Busy(q, n) == Busy(p, n);
    }
  }

  /** A change of the utilization state keeps everything, bound or not. */
  lemma SwitchedSane(p: Pool, c: CtxId, u: Util)
    requires Sane(p) && c in p.ctxs
    ensures Sane(Switched(p, c, u))
  {
    hide Coupled, Marked, Tallied, Switched;
    SwitchedTallied(p, c, u);
    SwitchedCoupled(p, c, u);
  }

  lemma SwitchedCoupled(p: Pool, c: CtxId, u: Util)
    requires Coupled(p) && Marked(p) && c in p.ctxs
    ensures Coupled(Switched(p, c, u)) && Marked(Switched(p, c, u))
  {
    var q := Switched(p, c, u);
    assert q.spus == p.spus && q.ctxs == p.ctxs[c := p.ctxs[c].(util := u)];
    hide Switched, Coupled;
    RelabelledCoupled(p, q);
    RelabelledMarked(p, q, c);
  }

  /** A bound context is on an SPU of a known node. */
  lemma Home(p: Pool, c: CtxId)
    requires Coupled(p) && Tallied(p) && c in p.ctxs
    ensures p.ctxs[c].spu.Some? ==> p.ctxs[c].spu.value in p.spus && p.spus[p.ctxs[c].spu.value].node in p.infos
  {
  }

  lemma SwitchedTallied(p: Pool, c: CtxId, u: Util)
    requires Coupled(p) && Tallied(p) && c in p.ctxs
    ensures Tallied(Switched(p, c, u))
  {
    var q := Switched(p, c, u);
    hide Coupled, Tally;
    Home(p, c);
    assert q.spus == p.spus && q.infos.Keys == p.infos.Keys;
    hide Switched;
    forall n | n in q.infos
      ensures q.infos[n] == Tally(q, n)
    {
      assert p.infos[n] == Tally(p, n);
      hide Tallied;
      SwitchedTally(p, c, u, n);
    }
  }

  lemma SlicedSane(p: Pool, c: CtxId, slice: int)
    requires Sane(p) && c in p.ctxs && slice >= 1
    ensures Sane(Sliced(p, c, slice))
  {
    var q := Sliced(p, c, slice);
    assert q.spus == p.spus && q.infos == p.infos && q.ctxs == p.ctxs[c := p.ctxs[c].(slice := slice)];
    hide Sliced;
    RelabelledSane(p, q, c);
  }

  /** Changes of a context that none of the invariants but its own marks depend on. */
  lemma RelabelledSane(p: Pool, q: Pool, c: CtxId)
    requires Sane(p) && c in p.ctxs && q.spus == p.spus && q.infos == p.infos
    requires c in q.ctxs && q.ctxs == p.ctxs[c := q.ctxs[c]]
    requires q.ctxs[c].spu == p.ctxs[c].spu && q.ctxs[c].nosched == p.ctxs[c].nosched
    requires q.ctxs[c].util == p.ctxs[c].util && q.ctxs[c].runnable == p.ctxs[c].runnable
    requires 0 <= q.ctxs[c].prio < MAX_PRIO && (q.ctxs[c].spu.Some? ==> q.ctxs[c].slice >= 1)
    ensures Sane(q)
  {
    hide Coupled, Marked, Tallied;
    RelabelledTallied(p, q, c);
    RelabelledCoupled(p, q);
    RelabelledMarked(p, q, c);
  }

  lemma RelabelledCoupled(p: Pool, q: Pool)
    requires Coupled(p) && q.spus == p.spus && q.ctxs.Keys == p.ctxs.Keys
    requires forall d | d in p.ctxs :: q.ctxs[d].spu == p.ctxs[d].spu
    ensures Coupled(q)
  {
    forall s, d | s in q.spus && d in q.ctxs
      ensures q.spus[s].ctx == Some(d) <==> q.ctxs[d].spu == Some(s)
    {
      assert d in p.ctxs && s in p.spus;
    }
  }

  lemma RelabelledMarked(p: Pool, q: Pool, c: CtxId)
    requires Marked(p) && c in p.ctxs && q.spus == p.spus && c in q.ctxs && q.ctxs == p.ctxs[c := q.ctxs[c]]
    requires q.ctxs[c].spu == p.ctxs[c].spu && q.ctxs[c].runnable == p.ctxs[c].runnable
    requires 0 <= q.ctxs[c].prio < MAX_PRIO && (q.ctxs[c].spu.Some? ==> q.ctxs[c].slice >= 1)
    ensures Marked(q)
  {
  }

  lemma RelabelledTallied(p: Pool, q: Pool, c: CtxId)
    requires Tallied(p) && c in p.ctxs && q.spus == p.spus && q.infos == p.infos
    requires c in q.ctxs && q.ctxs == p.ctxs[c := q.ctxs[c]]
    requires q.ctxs[c].nosched == p.ctxs[c].nosched && q.ctxs[c].util == p.ctxs[c].util
    ensures Tallied(q)
  {
    forall n | n in q.infos
      ensures Tally(q, n) == Tally(p, n)
    {
      RelabelledSets(p, q, c, n);
      hide Occupied, Reserved, Busy;
    }
    hide Tally;
  }

  lemma RelabelledSets(p: Pool, q: Pool, c: CtxId, n: Node)
    requires c in p.ctxs && q.spus == p.spus && c in q.ctxs && q.ctxs == p.ctxs[c := q.ctxs[c]]
    requires q.ctxs[c].nosched == p.ctxs[c].nosched && q.ctxs[c].util == p.ctxs[c].util
    ensures Occupied(q, n) == Occupied(p, n) && Reserved(q, n) == Reserved(p, n) && Busy(q, n) == Busy(p, n)
  {
    forall t
      ensures Bound(p, n, t) <==> Bound(q, n, t)
      ensures IsReserved(p, n, t) <==> IsReserved(q, n, t)
      ensures IsBusy(p, n, t) <==> IsBusy(q, n, t)
    {
    }
    hide Bound, IsReserved, IsBusy;
  }

  // ---------------------------------------------------------------- time slices

  const NORMAL_PRIO := 120
  /** MAX_USER_PRIO and the clock rate come from kernel headers. */
  const MAX_USER_PRIO := 40
  const SPUSCHED_TICK := 10

  function MinSlice(hz: nat): int {
    Max(5 * hz / (1000 * SPUSCHED_TICK), 1)
  }

  function DefSlice(hz: nat): int {
    100 * hz / (1000 * SPUSCHED_TICK)
  }

  function ScalePrio(x: int, prio: int, hz: nat): int {
    Max(x * (MAX_PRIO - prio) / (MAX_USER_PRIO / 2), MinSlice(hz))
  }

  /** The slice that spu_set_timeslice gives. */
  function TimeSlice(prio: int, hz: nat): int {
    if prio < NORMAL_PRIO then ScalePrio(DefSlice(hz) * 4, prio, hz) else ScalePrio(DefSlice(hz), prio, hz)
  }

  lemma MulMono(x: int, y: int, a: int, b: int)
    requires 0 <= x <= y && 0 <= a <= b
    ensures x * a <= y * b
  {
    assert x * a <= x * b;
    assert x * b <= y * b;
  }

  /** A better priority never has a shorter slice, and every slice is at least the minimum. */
  lemma BetterIsLonger(better: int, worse: int, hz: nat)
    requires 0 <= better <= worse < MAX_PRIO
    ensures TimeSlice(better, hz) >= TimeSlice(worse, hz) >= MinSlice(hz) >= 1
  {
    var d := DefSlice(hz);
    assert d >= 0 && MinSlice(hz) >= 1;
    hide DefSlice, MinSlice;
    var x, y := if worse < NORMAL_PRIO then d * 4 else d, if better < NORMAL_PRIO then d * 4 else d;
    MulMono(x, y, MAX_PRIO - worse, MAX_PRIO - better);
  }

  /**
   A slice is at most eight times the default one (800 ms), or the minimum, exactly for the
   priorities of the ordinary range and for realtime priorities so near to it that the excess
   rounds to nothing.  Priority 0 at 1000 Hz gets 28 default slices.
   */
  lemma SliceBound(prio: int, hz: nat)
    requires 0 <= prio < MAX_PRIO
    ensures TimeSlice(prio, hz) <= Max(8 * DefSlice(hz), MinSlice(hz))
       <==> prio >= MAX_PRIO - MAX_USER_PRIO || DefSlice(hz) * (MAX_PRIO - MAX_USER_PRIO - prio) < 5
    ensures TimeSlice(0, 1000) == 28 * DefSlice(1000) == 280 > Max(8 * DefSlice(1000), MinSlice(1000)) == 80
  {
    var d := DefSlice(hz);
    assert d >= 0 && (d > 0 ==> MinSlice(hz) <= d);
    hide DefSlice, MinSlice;
    if prio >= NORMAL_PRIO {
      MulMono(d, d, MAX_PRIO - prio, 20);
    } else if prio >= MAX_PRIO - MAX_USER_PRIO {
      MulMono(d * 4, d * 4, MAX_PRIO - prio, 40);
    } else {
      RealtimeSlice(d, MAX_PRIO - MAX_USER_PRIO - prio);
    }
  }

  /**
   The slice of every priority in ticks of ten clock ticks: the default one of 100 ms for each
   twentieth of the way from priority 140 to 120, four of these to the better side of 120, and
   the least one of 5 ms, or one tick, if that is longer.
   */
  ghost predicate IsSlice(slice: int, prio: int, hz: nat) {
    var def, least := hz / 100, Max(hz / 2000, 1);
    && slice == Max(if prio < 120 then 4 * def * (140 - prio) / 20 else def * (140 - prio) / 20, least)
    && (prio == 120 ==> slice == Max(def, least)) && (prio == 100 ==> slice == Max(8 * def, least))
    && (prio == 139 ==> slice == Max(def / 20, least))
    && (prio >= 120 && slice > least ==> slice == def * (140 - prio) / 20)
  }

  lemma SliceIs(prio: int, hz: nat)
    ensures IsSlice(TimeSlice(prio, hz), prio, hz) && DefSlice(hz) == hz / 100 && MinSlice(hz) == Max(hz / 2000, 1)
  {
    KnobsAre(hz);
    hide DefSlice, MinSlice;
    var def := hz / 100;
    ProductsAre(def, prio);
    if prio == 120 {
      assert def * 20 / 20 == def;
    }
  }

  lemma KnobsAre(hz: nat)
    ensures DefSlice(hz) == hz / 100 && MinSlice(hz) == Max(hz / 2000, 1)
  {
  }

  lemma ProductsAre(def: nat, prio: int)
    ensures def * 4 * (MAX_PRIO - prio) == 4 * def * (140 - prio) && def * 20 / 20 == def
            && 4 * def * 40 / 20 == 8 * def
  {
  }

  /** A realtime slice exceeds eight default slices by a fifth of the default one for each step of priority. */
  lemma RealtimeSlice(d: nat, above: nat)
    ensures d * 4 * (MAX_USER_PRIO + above) / (MAX_USER_PRIO / 2) == 8 * d + d * above / 5
    ensures d * above >= 5 ==> d > 0
  {
    var e := d * above;
    assert d * 4 * (40 + above) == 160 * d + 4 * e;
    assert (160 * d + 4 * e) / 20 == 8 * d + e / 5;
  }

  /** What a new slice of a context keeps, and its bounds. */
  lemma SliceSane(p: Pool, c: CtxId, hz: nat)
    requires c in p.ctxs
    ensures var slice := TimeSlice(p.ctxs[c].prio, hz);
            && slice >= MinSlice(hz) >= 1 && (Sane(p) ==> Sane(Sliced(p, c, slice)))
            && (MAX_PRIO - MAX_USER_PRIO <= p.ctxs[c].prio < MAX_PRIO ==> slice <= Max(8 * DefSlice(hz), MinSlice(hz)))
  {
    hide Sane, Sliced;
    if Sane(p) {
      SlicedSane(p, c, TimeSlice(p.ctxs[c].prio, hz));
    }
    if MAX_PRIO - MAX_USER_PRIO <= p.ctxs[c].prio < MAX_PRIO {
      SliceBound(p.ctxs[c].prio, hz);
    }
  }
}

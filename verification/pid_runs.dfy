/**
 Whole runs: what every step keeps, holds throughout.
 */
module PidRuns {
  import opened Options
  import opened PidModel
  import opened PidSteps
  import opened PidAlloc
  import opened PidReferences

  // ---------------------------------------------------------------- runs

  /** Every step keeps everything. */
  lemma StepKeeps(a: State, op: Op, b: State)
    requires Sound(a) && Does(a, op, b)
    ensures Sound(b)
  {
    hide Sound, Forest, OnChains, Allocates, FailsToAlloc, Frees, GetsPid, PutsPid, PutsDelayed;
    hide CreatesNs, GetsNs, PutsNs, Disables, SetsLast, SetsMax;
    match op
    case Alloc(ns, numbers, nomem) => AllocKeeps(a, ns, numbers, nomem, b);
    case AllocFail(ns) => AllocFailKeeps(a, ns, b);
    case Free(p) => FreeKeeps(a, p, b);
    case GetPid(p) => GetPidKeeps(a, p, b);
    case PutPid(p) => PutPidKeeps(a, p, b);
    case DelayedPut(p) => DelayedPutKeeps(a, p, b);
    case CreateNs(q) => CreateKeeps(a, q, b);
    case GetNs(n) => GetNsKeeps(a, n, b);
    case PutNs(n) => PutNsKeeps(a, n, b);
    case Disable(n) => DisableKeeps(a, n, b);
    case SetLast(n, last) => SetLastKeeps(a, n, last, b);
    case SetMax(max) => SetMaxKeeps(a, max, b);
  }

  lemma AllocFailKeeps(a: State, ns: NsId, b: State)
    requires Sound(a) && FailsToAlloc(a, ns, b)
    ensures Sound(b)
  {
    hide Sound, LastAbove;
    LastKeeps(a, b);
  }

  lemma SetLastKeeps(a: State, n: NsId, last: int, b: State)
    requires Sound(a) && SetsLast(a, n, last, b)
    ensures Sound(b)
  {
    hide Sound;
    LastKeeps(a, b);
  }

  lemma SetMaxKeeps(a: State, max: int, b: State)
    requires Sound(a) && SetsMax(a, max, b)
    ensures Sound(b)
  {
    hide Consistent;
  }

  /** The state after boot: the first namespace, open and empty. */
  function Boot(pidMax: int): State {
    State(map[INIT_PID_NS := Namespace(0, 0, map[], 0, PIDNS_ADDING, 2)], map[], map[INIT_PID_NS := 2], pidMax, 0, 1)
  }

  lemma BootSound(pidMax: int)
    requires RESERVED_PIDS < pidMax <= PID_MAX_LIMIT
    ensures Sound(Boot(pidMax))
  {
  }

  /** The first allocation after boot can be made, and gives number 1. */
  lemma FirstAllocation(pidMax: int)
    requires RESERVED_PIDS < pidMax <= PID_MAX_LIMIT
    ensures CanAlloc(Boot(pidMax).spaces, INIT_PID_NS, {}, pidMax, false, false)
    ensures exists b :: Does(Boot(pidMax), Alloc(INIT_PID_NS, [Upid(1, INIT_PID_NS)], {}), b) && Sound(b)
  {
    var a, numbers := Boot(pidMax), [Upid(1, INIT_PID_NS)];
    var s := a.spaces;
    NearestAncestor(s, INIT_PID_NS);
    assert Takes(s[INIT_PID_NS].index, INIT_PID_NS, {}, 1);
    assert Chosen(s, INIT_PID_NS, numbers, 0, {}, pidMax);
    ChosenCan(s, INIT_PID_NS, numbers, {}, pidMax, false);
    BootSound(pidMax);
    StageKeys(s, numbers, 0, 0, 0, a.nextPid);
    var b := a.(spaces := Get(Stage(s, numbers, 0, 0, 0, a.nextPid), INIT_PID_NS),
                pids := a.pids[a.nextPid := PidRec(numbers, 1, Published)], nextPid := a.nextPid + 1);
    assert Does(a, Alloc(INIT_PID_NS, numbers, {}), b);
    hide Sound, Does;
    StepKeeps(a, Alloc(INIT_PID_NS, numbers, {}), b);
  }

  /** A run: every operation does its step. */
  ghost predicate IsRun(run: seq<State>, ops: seq<Op>) {
    && |run| == |ops| + 1 && Sound(run[0])
    && forall i | 0 <= i < |ops| :: Sound(run[i]) ==> Does(run[i], ops[i], run[i + 1])
  }

  lemma {:induction false} RunSound(run: seq<State>, ops: seq<Op>, k: nat)
    requires IsRun(run, ops) && k < |run|
    ensures Sound(run[k]) && (k < |ops| ==> Does(run[k], ops[k], run[k + 1]))
  {
    hide Sound, Does;
    if k > 0 {
      RunSound(run, ops, k - 1);
      StepKeeps(run[k - 1], ops[k - 1], run[k]);
    }
  }

  /** The number of a published pid in an ancestor of its namespace finds the pid there. */
  ghost predicate FoundByNumber(a: State, p: Pid, l: nat)
    requires Forest(a.spaces) && OnChains(a.spaces, a.pids)
  {
    p in a.pids && a.pids[p].phase == Published && l < |a.pids[p].numbers| ==>
      var s, r := a.spaces, a.pids[p];
      && Leaf(r) in s && l <= s[Leaf(r)].level
      && var n := Ancestor(s, Leaf(r), l);
         PidNrNs(s, r, n) >= 1 && FindPidNs(s, PidNrNs(s, r, n), n) == Some(p)
  }

  /** A number in use is not reserved, and is the number there of the one pid that it finds. */
  ghost predicate NumberOfFound(a: State, n: NsId, nr: int) {
    n in a.spaces && nr in a.spaces[n].index ==>
      && a.spaces[n].index[nr].Some?
      && var p := a.spaces[n].index[nr].value;
         && p in a.pids && a.pids[p].phase == Published && PidNrNs(a.spaces, a.pids[p], n) == nr >= 1
         && forall q | q in a.pids && a.pids[q].phase == Published && q != p :: PidNrNs(a.spaces, a.pids[q], n) != nr
  }

  lemma SoundFound(a: State, p: Pid, l: nat)
    requires Sound(a)
    ensures Forest(a.spaces) && OnChains(a.spaces, a.pids) && FoundByNumber(a, p, l)
  {
    hide Hashed, Exact, Counted, Referenced;
    if p in a.pids && a.pids[p].phase == Published && l < |a.pids[p].numbers| {
      assert OnChain(a.spaces, a.pids[p]);
      FindAfterNr(a.spaces, a.pids, a.holders, p, l);
    }
  }

  lemma SoundNumbers(a: State, n: NsId, nr: int)
    requires Sound(a)
    ensures NumberOfFound(a, n, nr)
  {
    hide Forest, OnChains, Hashed, Counted, Referenced;
    if n in a.spaces && nr in a.spaces[n].index {
      NothingReserved(a.spaces, a.pids, n, nr);
      NrAfterFind(a.spaces, a.pids, a.holders, n, nr);
    }
  }

  /** Both hold in every state of a run: pids and numbers are found from each other. */
  lemma IdentityInRuns(run: seq<State>, ops: seq<Op>, k: nat)
    requires IsRun(run, ops) && k < |run|
    ensures Forest(run[k].spaces) && OnChains(run[k].spaces, run[k].pids)
    ensures forall p, l: nat :: FoundByNumber(run[k], p, l)
    ensures forall n, nr :: NumberOfFound(run[k], n, nr)
  {
    hide Sound, Does, Forest, OnChains, FoundByNumber, NumberOfFound;
    RunSound(run, ops, k);
    SoundParts(run[k]);
    forall p, l: nat
      ensures FoundByNumber(run[k], p, l)
    {
      SoundFound(run[k], p, l);
    }
    forall n, nr
      ensures NumberOfFound(run[k], n, nr)
    {
      SoundNumbers(run[k], n, nr);
    }
  }

  /** Namespace n has come into being, and takes no new pids: it is closed, or gone. */
  ghost predicate Closed(a: State, n: NsId) {
    n < a.nextNs && (n in a.spaces ==> !Adding(a.spaces[n]))
  }

  lemma ClosedAfterAlloc(a: State, ns: NsId, numbers: seq<Upid>, nomem: set<(NsId, int)>, b: State, n: NsId)
    requires Sound(a) && Allocates(a, ns, numbers, nomem, b) && Closed(a, n)
    ensures Closed(b, n) && ns != n
  {
    ChosenFresh(a.spaces, a.pids, ns, numbers, 0, nomem, a.pidMax);
    AllocHasEffect(a.spaces, ns, numbers, a.nextPid);
    if n in a.spaces {
      EffectCloses(a.spaces, a.pids, ns, numbers, a.nextPid, b.spaces, n);
    }
    hide Consistent, Chosen, Forest, OnChains, Fresh, Stage, Get, AllocAt;
  }

  lemma EffectCloses(s: Spaces, t: PidTable, ns: NsId, numbers: seq<Upid>, p: Pid, u: Spaces, n: NsId)
    requires Exact(s, t) && Counted(s) && AllocEffect(s, ns, numbers, p, u) && n in s && !Adding(s[n])
    ensures !Adding(u[n])
  {
    hide Exact, AllocAt;
    IndexBound(s, t, n);
    AllocatedIs(s, n);
    AllocAtCloses(s[n], n, ns, numbers, p, u[n]);
  }

  lemma AllocAtCloses(a: Namespace, n: NsId, ns: NsId, numbers: seq<Upid>, p: Pid, b: Namespace)
    requires AllocAt(a, n, ns, numbers, p, b) && a.pidAllocated == |a.index| < PID_MAX_LIMIT
    ensures !Adding(b)
  {
  }

  lemma ClosedAfterFree(a: State, p: Pid, b: State, n: NsId)
    requires Sound(a) && Frees(a, p, b) && Closed(a, n)
    ensures Closed(b, n)
  {
    FreeHasEffect(a.spaces, a.pids, p);
    hide Forest, OnChains, Hashed, Released, Referenced;
    if n in a.spaces {
      IndexBound(a.spaces, a.pids, n);
      assert FreeAt(a.spaces[n], n, a.pids[p].numbers, b.spaces[n]);
      FreeCountsOne(a.spaces[n], n, a.pids[p].numbers, b.spaces[n]);
    }
  }

  lemma {:induction false} PutCloses(s: Spaces, q: NsId, n: NsId)
    requires n in Put(s, q)
    ensures n in s && Put(s, q)[n].pidAllocated == s[n].pidAllocated
    decreases if q in s then s[q].level else 0
  {
    if q in s && q != INIT_PID_NS && s[q].kref <= 1 && s[q].parent in s && s[s[q].parent].level < s[q].level {
      PutCloses(s - {q}, s[q].parent, n);
    }
  }

  lemma ClosedAfterDrop(a: State, p: Pid, n: NsId)
    requires p in a.pids && 0 < |a.pids[p].numbers| && Closed(a, n)
    ensures Closed(Dropped(a, p), n)
  {
    hide Put, Leaf, Restrict;
    if n in Put(a.spaces, Leaf(a.pids[p])) {
      PutCloses(a.spaces, Leaf(a.pids[p]), n);
    }
  }

  lemma ClosedAfterPut(a: State, q: NsId, b: State, n: NsId)
    requires PutsNs(a, q, b) && Closed(a, n)
    ensures Closed(b, n)
  {
    hide Put, Restrict;
    if n in Put(a.spaces, q) {
      PutCloses(a.spaces, q, n);
    }
  }

  lemma ClosedAfterDisable(a: State, q: NsId, b: State, n: NsId)
    requires Sound(a) && Disables(a, q, b) && Closed(a, n)
    ensures Closed(b, n)
  {
    DisableKeeps(a, q, b);
    hide Sound;
  }

  lemma ClosedStays(a: State, op: Op, b: State, n: NsId)
    requires Sound(a) && Does(a, op, b) && Closed(a, n)
    ensures Closed(b, n) && !(op.Alloc? && op.ns == n)
  {
    hide Sound, Forest, OnChains, Allocates, Frees, PutsPid, PutsDelayed, PutsNs, Disables;
    hide FailsToAlloc, GetsPid, CreatesNs, GetsNs, SetsLast, SetsMax, Closed;
    match op
    case Alloc(ns, numbers, nomem) => ClosedAfterAlloc(a, ns, numbers, nomem, b, n);
    case Free(p) => ClosedAfterFree(a, p, b, n);
    case PutPid(p) => ClosedAfterDrops(a, p, b, n);
    case DelayedPut(p) => ClosedAfterDrops(a, p, b, n);
    case PutNs(q) => ClosedAfterPut(a, q, b, n);
    case Disable(q) => ClosedAfterDisable(a, q, b, n);
    case _ => ClosedAfterOther(a, op, b, n);
  }

  lemma ClosedAfterDrops(a: State, p: Pid, b: State, n: NsId)
    requires Closed(a, n) && (PutsPid(a, p, b) || PutsDelayed(a, p, b))
    ensures Closed(b, n)
  {
    hide Dropped;
    if PutsPid(a, p, b) {
      ClosedAfterDrop(a, p, n);
    } else {
      ClosedAfterDrop(a.(pids := a.pids[p := a.pids[p].(phase := Detached)]), p, n);
    }
  }

  lemma ClosedAfterOther(a: State, op: Op, b: State, n: NsId)
    requires Does(a, op, b) && Closed(a, n)
    requires op.AllocFail? || op.GetPid? || op.CreateNs? || op.GetNs? || op.SetLast? || op.SetMax?
    ensures Closed(b, n)
  {
    hide Forest, OnChains, Allocates, Frees, PutsPid, PutsDelayed, PutsNs, Disables;
  }

  /**
   Once a namespace no longer accepts pids it never does again: no later state has it open, and
   no later allocation in it succeeds.
   */
  lemma {:induction false} ClosedForever(run: seq<State>, ops: seq<Op>, i: nat, j: nat, n: NsId)
    requires IsRun(run, ops) && i <= j < |run| && Closed(run[i], n)
    ensures Closed(run[j], n) && (j < |ops| ==> !(ops[j].Alloc? && ops[j].ns == n))
    decreases j
  {
    hide Sound, Does, Closed;
    if i < j {
      ClosedForever(run, ops, i, j - 1, n);
      RunSound(run, ops, j - 1);
      ClosedStays(run[j - 1], ops[j - 1], run[j], n);
    }
    if j < |ops| {
      RunSound(run, ops, j);
      ClosedStays(run[j], ops[j], run[j + 1], n);
    }
  }

  /** Pid p is published, with these numbers. */
  ghost predicate Lives(a: State, p: Pid, numbers: seq<Upid>) {
    p in a.pids && a.pids[p].phase == Published && a.pids[p].numbers == numbers
  }

  lemma LivesOn(a: State, op: Op, b: State, p: Pid, numbers: seq<Upid>)
    requires Sound(a) && Does(a, op, b) && Lives(a, p, numbers) && op != Free(p)
    ensures Lives(b, p, numbers)
  {
    SoundParts(a);
    hide Sound, Forest, OnChains, Allocates, FailsToAlloc, Frees, GetsPid, PutsPid, PutsDelayed;
    hide CreatesNs, GetsNs, PutsNs, Disables, SetsLast, SetsMax, Lives;
    match op
    case PutPid(q) => LivesOnPut(a, q, b, p, numbers);
    case DelayedPut(q) => LivesOnDelayed(a, q, b, p, numbers);
    case Alloc(ns, chosen, nomem) => LivesOnAlloc(a, ns, chosen, nomem, b, p, numbers);
    case _ => LivesOnOther(a, op, b, p, numbers);
  }

  lemma LivesOnPut(a: State, q: Pid, b: State, p: Pid, numbers: seq<Upid>)
    requires PidRefs(a.pids) && PutsPid(a, q, b) && Lives(a, p, numbers)
    ensures Lives(b, p, numbers)
  {
    hide Put, Restrict;
  }

  lemma LivesOnDelayed(a: State, q: Pid, b: State, p: Pid, numbers: seq<Upid>)
    requires PutsDelayed(a, q, b) && Lives(a, p, numbers)
    ensures Lives(b, p, numbers)
  {
    hide Put, Restrict;
  }

  lemma LivesOnAlloc(a: State, ns: NsId, chosen: seq<Upid>, nomem: set<(NsId, int)>, b: State, p: Pid,
                     numbers: seq<Upid>)
    requires Sound(a) && Allocates(a, ns, chosen, nomem, b) && Lives(a, p, numbers)
    ensures Lives(b, p, numbers)
  {
    hide Consistent, Chosen, Stage, Get, Forest;
  }

  lemma LivesOnOther(a: State, op: Op, b: State, p: Pid, numbers: seq<Upid>)
    requires Does(a, op, b) && Lives(a, p, numbers) && op != Free(p)
    requires !op.PutPid? && !op.DelayedPut? && !op.Alloc?
    ensures Lives(b, p, numbers)
  {
    hide Forest, OnChains, Allocates, PutsPid, PutsDelayed, SameButLast, Released, Put, Get, Restrict;
  }

  /**
   A pid keeps its numbers from its publication to its release: as long as no step of a run
   frees it, each of its numbers finds it.
   */
  lemma {:induction false} FoundUntilFreed(run: seq<State>, ops: seq<Op>, i: nat, j: nat, p: Pid, numbers: seq<Upid>,
          l: nat)
    requires IsRun(run, ops) && i <= j < |run| && Lives(run[i], p, numbers) && l < |numbers|
    requires forall k | i <= k < j :: ops[k] != Free(p)
    ensures Lives(run[j], p, numbers)
    ensures numbers[l].ns in run[j].spaces && FindPidNs(run[j].spaces, numbers[l].nr, numbers[l].ns) == Some(p)
    decreases j
  {
    hide Sound, Does, Lives;
    RunSound(run, ops, j);
    if i < j {
      RunSound(run, ops, j - 1);
      FoundUntilFreed(run, ops, i, j - 1, p, numbers, l);
      LivesOn(run[j - 1], ops[j - 1], run[j], p, numbers);
    }
    LivesFound(run[j], p, numbers, l);
  }

  lemma LivesFound(a: State, p: Pid, numbers: seq<Upid>, l: nat)
    requires Sound(a) && Lives(a, p, numbers) && l < |numbers|
    ensures numbers[l].ns in a.spaces && FindPidNs(a.spaces, numbers[l].nr, numbers[l].ns) == Some(p)
  {
    hide Forest, Exact, Counted, Referenced;
    assert OnChain(a.spaces, a.pids[p]);
    assert a.pids[p].numbers[l].nr in a.spaces[numbers[l].ns].index;
  }

  // ---------------------------------------------------------------- single steps, for callers

  /**
   What a call of alloc_pid comes to.  It succeeds exactly when it can; a failure changes
   nothing but last numbers given out, and starts over the numbers of an open, empty ns.
   */
  ghost predicate AllocResult(a: State, ns: NsId, noStruct: bool, nomem: set<(NsId, int)>, procFails: bool,
                              r: Option<Pid>, b: State) {
    && r.Some? == CanAlloc(a.spaces, ns, nomem, a.pidMax, noStruct, procFails)
    && match r
       case Some(p) => p == a.nextPid && p in b.pids && Does(a, Alloc(ns, b.pids[p].numbers, nomem), b)
       case None =>
         && Does(a, AllocFail(ns), b)
         && (!noStruct && ns in a.spaces && a.spaces[ns].pidAllocated == PIDNS_ADDING ==>
               ns in b.spaces && b.spaces[ns].lastPid == 0)
  }

  lemma FailResult(a: State, ns: NsId, noStruct: bool, nomem: set<(NsId, int)>, procFails: bool, u: Spaces)
    requires Sound(a) && ns in a.spaces && SameButLast(a.spaces, u) && LastAbove(a.spaces, ns, u) && ns in u
    requires !noStruct && a.spaces[ns].pidAllocated == PIDNS_ADDING ==> u[ns].lastPid == 0
    requires !CanAlloc(a.spaces, ns, nomem, a.pidMax, noStruct, procFails)
    ensures Sound(a.(spaces := u)) && AllocResult(a, ns, noStruct, nomem, procFails, None, a.(spaces := u))
  {
    var b := a.(spaces := u);
    assert FailsToAlloc(a, ns, b);
    hide Sound, Forest, OnChains, Exact, PidRefs, FailsToAlloc, CanAlloc, SameButLast, LastAbove;
    SoundParts(a);
    AllocFailKeeps(a, ns, b);
    assert Does(a, AllocFail(ns), b);
  }

  lemma NoMemory(a: State, ns: NsId, nomem: set<(NsId, int)>, procFails: bool)
    requires Sound(a) && ns in a.spaces
    ensures AllocResult(a, ns, true, nomem, procFails, None, a)
  {
    hide Hashed, Exact, Counted, Referenced;
  }

  lemma HasReferences(a: State, n: NsId)
    requires Sound(a) && n in a.spaces
    ensures n != INIT_PID_NS ==> a.spaces[n].kref > 0
  {
  }

  lemma NothingFree(s: Spaces, ns: NsId, i: nat, nomem: set<(NsId, int)>, max: int, noStruct: bool, procFails: bool)
    requires Forest(s) && ns in s && i <= s[ns].level && NoneFree(s, Ancestor(s, ns, i), nomem, max)
    ensures !CanAlloc(s, ns, nomem, max, noStruct, procFails)
  {
    hide NoneFree, Forest, CyclicFirst;
  }

  lemma DoneResult(a: State, ns: NsId, numbers: seq<Upid>, nomem: set<(NsId, int)>, procFails: bool, b: State)
    requires Sound(a) && Allocates(a, ns, numbers, nomem, b)
    requires CanAlloc(a.spaces, ns, nomem, a.pidMax, false, procFails)
    ensures Sound(b) && AllocResult(a, ns, false, nomem, procFails, Some(a.nextPid), b)
  {
    SoundParts(a);
    AllocKeeps(a, ns, numbers, nomem, b);
    AllocatesThese(a, ns, numbers, nomem, b);
    hide Sound, Forest, OnChains, CanAlloc, Allocates;
    assert Does(a, Alloc(ns, numbers, nomem), b);
  }

  lemma AllocatesThese(a: State, ns: NsId, numbers: seq<Upid>, nomem: set<(NsId, int)>, b: State)
    requires Forest(a.spaces) && Allocates(a, ns, numbers, nomem, b)
    ensures a.nextPid in b.pids && b.pids[a.nextPid].numbers == numbers
  {
    hide Forest, Stage, Get, Chosen;
  }

  /** The namespaces of these numbers whose counter now has one of these values. */
  function Those(s: Spaces, numbers: seq<Upid>, counts: set<int>): set<NsId> {
    set u | u in numbers && u.ns in s && s[u.ns].pidAllocated in counts :: u.ns
  }

  lemma ReleasedNothing(s: Spaces, numbers: seq<Upid>)
    ensures Released(s, numbers, 0) == s
    ensures forall counts :: Those(s, [], counts) == {}
  {
    assert Released(s, numbers, 0).Keys == s.Keys;
  }

  /** One more level of a release. */
  lemma ReleaseOne(s: Spaces, numbers: seq<Upid>, i: nat)
    requires OnChain(s, PidRec(numbers, 1, Published)) && i < |numbers|
    ensures var a := numbers[i].ns; var t := Released(s, numbers, i);
            && a in t
            && t[a := t[a].(index := t[a].index - {numbers[i].nr}, pidAllocated := Decremented(t[a].pidAllocated))]
               == Released(s, numbers, i + 1)
  {
    var a, t := numbers[i].ns, Released(s, numbers, i);
    var u := t[a := t[a].(index := t[a].index - {numbers[i].nr}, pidAllocated := Decremented(t[a].pidAllocated))];
    var v := Released(s, numbers, i + 1);
    hide Decremented;
    assert u.Keys == v.Keys;
    forall n | n in s
      ensures u[n] == v[n]
    {
    }
  }

  /** Releasing the next level touches no counter of the levels before. */
  lemma ThoseNext(s: Spaces, numbers: seq<Upid>, i: nat, counts: set<int>)
    requires OnChain(s, PidRec(numbers, 1, Published)) && i < |numbers|
    ensures numbers[i].ns in Released(s, numbers, i + 1)
    ensures Those(Released(s, numbers, i + 1), numbers[..i + 1], counts)
              == Those(Released(s, numbers, i), numbers[..i], counts)
                 + if Released(s, numbers, i + 1)[numbers[i].ns].pidAllocated in counts then {numbers[i].ns} else {}
  {
    var t, u, a := Released(s, numbers, i), Released(s, numbers, i + 1), numbers[i].ns;
    assert t.Keys == u.Keys == s.Keys && a in u;
    forall l | 0 <= l < i
      ensures numbers[l].ns in u && t[numbers[l].ns] == u[numbers[l].ns]
    {
      hide Decremented;
      assert s[numbers[l].ns].level == l;
    }
    hide Released, OnChain;
    ThoseGrow(t, u, numbers, i, counts);
  }

  lemma ThoseGrow(t: Spaces, u: Spaces, numbers: seq<Upid>, i: nat, counts: set<int>)
    requires i < |numbers| && numbers[i].ns in u
    requires forall l | 0 <= l < i :: numbers[l].ns in u && numbers[l].ns in t && t[numbers[l].ns] == u[numbers[l].ns]
    ensures Those(u, numbers[..i + 1], counts)
              == Those(t, numbers[..i], counts) + if u[numbers[i].ns].pidAllocated in counts then {numbers[i].ns} else {}
  {
    var added: set<NsId> := if u[numbers[i].ns].pidAllocated in counts then {numbers[i].ns} else {};
    forall n
      ensures n in Those(u, numbers[..i + 1], counts) <==> n in Those(t, numbers[..i], counts) + added
    {
      if x :| x in numbers[..i + 1] && x.ns == n && n in u && u[n].pidAllocated in counts {
        var l :| 0 <= l <= i && numbers[l] == x;
        if l < i {
          assert x in numbers[..i];
        }
      }
      if x :| x in numbers[..i] && x.ns == n && n in t && t[n].pidAllocated in counts {
        var l :| 0 <= l < i && numbers[l] == x;
        assert x in numbers[..i + 1];
      }
      assert numbers[i] in numbers[..i + 1];
    }
  }

  lemma SoundParts(a: State)
    requires Sound(a)
    ensures Forest(a.spaces) && OnChains(a.spaces, a.pids) && Exact(a.spaces, a.pids) && 1 < a.pidMax <= PID_MAX_LIMIT
    ensures PidRefs(a.pids) && a.holders.Keys == a.spaces.Keys && a.nextNs !in a.spaces
    ensures forall n | n in a.spaces :: n < a.nextNs
  {
  }
}

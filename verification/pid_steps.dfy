/**
 The operations on process identifiers as steps of a state machine.  Each operation is one step:
 no other allocation runs between the reservations of an allocation and its publication.
 */
module PidSteps {
  import opened Options
  import opened PidModel

  /** Number k of namespace n would be taken: its lookup gives NULL and its insertion succeeds. */
  predicate Takes(index: Entries, n: NsId, nomem: set<(NsId, int)>, k: int) {
    (k in index ==> index[k] == None) && (k in index || (n, k) !in nomem)
  }

  /** k comes before m in the cyclic order start, start + 1, ..., max - 1, 1, ..., start - 1. */
  predicate Earlier(start: int, k: int, m: int) {
    if start <= k then m < start || k < m else m < start && k < m
  }

  /** The first number in cyclic order that would be taken, if any. */
  ghost predicate CyclicFirst(index: Entries, n: NsId, nomem: set<(NsId, int)>, start: int, max: int, r: Option<int>) {
    match r
    case None => forall k | 1 <= k < max :: !Takes(index, n, nomem, k)
    case Some(m) =>
      && 1 <= m < max && Takes(index, n, nomem, m)
      && forall k | 1 <= k < max && Earlier(start, k, m) :: !Takes(index, n, nomem, k)
  }

  /** Where the scan starts: after the last number given out, or at 1. */
  function ScanStart(lastPid: int, max: int): int {
    if lastPid + 1 < 1 || lastPid + 1 >= max then 1 else lastPid + 1
  }

  /**
   The namespaces while pid `p` with these numbers is being allocated: from level i on the
   last number is noted, from level j on the number is reserved, from level k on it is
   published and counted.
   */
  ghost function Stage(s: Spaces, numbers: seq<Upid>, i: int, j: int, k: int, p: Pid): Spaces {
    map n | n in s :: StageOf(s[n], n, numbers, i, j, k, p)
  }

  ghost function StageOf(a: Namespace, n: NsId, numbers: seq<Upid>, i: int, j: int, k: int, p: Pid): Namespace {
    if i <= a.level < |numbers| && numbers[a.level].ns == n then
      var nr := numbers[a.level].nr;
      a.(lastPid := nr,
         index := if k <= a.level then a.index[nr := Some(p)] else if j <= a.level then a.index[nr := None] else a.index,
         pidAllocated := if k <= a.level then (a.pidAllocated + 1) % U32 else a.pidAllocated)
    else a
  }

  /** The numbers from level i on are the first free ones of the ancestors of ns. */
  ghost predicate Chosen(s: Spaces, ns: NsId, numbers: seq<Upid>, i: int, nomem: set<(NsId, int)>, max: int)
    requires Forest(s) && ns in s
  {
    && |numbers| == s[ns].level + 1
    && forall l | 0 <= i <= l < |numbers| ::
         && numbers[l].ns == Ancestor(s, ns, l)
         && CyclicFirst(s[numbers[l].ns].index, numbers[l].ns, nomem,
                        ScanStart(s[numbers[l].ns].lastPid, max), max, Some(numbers[l].nr))
  }

  lemma {:induction false} AncestorParent(s: Spaces, n: NsId, l: nat)
    requires Forest(s) && n in s && 0 < l <= s[n].level
    ensures s[Ancestor(s, n, l)].parent == Ancestor(s, n, l - 1)
    decreases s[n].level
  {
    if s[n].level > l {
      AncestorParent(s, s[n].parent, l);
    } else {
      assert s[n].level == l;
      assert Ancestor(s, s[n].parent, l - 1) == s[n].parent;
    }
  }

  /** The chain of ns from level i on, with numbers not in use there. */
  ghost predicate Fresh(s: Spaces, ns: NsId, numbers: seq<Upid>, i: int)
    requires Forest(s) && ns in s
  {
    && |numbers| == s[ns].level + 1
    && forall l | 0 <= i <= l < |numbers| ::
         && numbers[l].ns == Ancestor(s, ns, l) && numbers[l].nr !in s[numbers[l].ns].index
         && 1 <= numbers[l].nr < PID_MAX_LIMIT
  }

  /** Two stages that differ at one namespace only. */
  lemma StagesDiffer(s: Spaces, numbers: seq<Upid>, i: int, j: int, k: int,
                     numbers': seq<Upid>, i': int, j': int, k': int, p: Pid, a: NsId)
    requires a in s
    requires forall n | n in s && n != a :: StageOf(s[n], n, numbers, i, j, k, p) == StageOf(s[n], n, numbers', i', j', k', p)
    ensures Stage(s, numbers, i, j, k, p)[a := StageOf(s[a], a, numbers', i', j', k', p)] == Stage(s, numbers', i', j', k', p)
  {
    hide StageOf;
    var u := Stage(s, numbers, i, j, k, p)[a := StageOf(s[a], a, numbers', i', j', k', p)];
    var v := Stage(s, numbers', i', j', k', p);
    assert u.Keys == v.Keys;
    forall n | n in s
      ensures u[n] == v[n]
    {
    }
  }

  lemma StageReserve(s: Spaces, a: NsId, numbers: seq<Upid>, i: nat, nr: int, p: Pid)
    requires a in s && s[a].level == i < |numbers|
    ensures var t := Stage(s, numbers, i + 1, i + 1, |numbers|, p);
            && t[a] == s[a]
            && t[a := s[a].(index := s[a].index[nr := None], lastPid := nr)]
               == Stage(s, numbers[i := Upid(nr, a)], i, i, |numbers|, p)
  {
    StagesDiffer(s, numbers, i + 1, i + 1, |numbers|, numbers[i := Upid(nr, a)], i, i, |numbers|, p, a);
  }

  /** The numbers from level i on are chosen and reserved; i is next, in namespace tmp. */
  ghost predicate Reserving(s: Spaces, ns: NsId, numbers: seq<Upid>, i: int, tmp: NsId, nomem: set<(NsId, int)>,
                            max: int)
    requires Forest(s) && ns in s
  {
    Chosen(s, ns, numbers, i + 1, nomem, max) && (0 <= i <= s[ns].level ==> tmp == Ancestor(s, ns, i))
  }

  lemma ReservedOne(s: Spaces, ns: NsId, numbers: seq<Upid>, i: nat, tmp: NsId, nr: int,
                    nomem: set<(NsId, int)>, max: int, p: Pid)
    requires Forest(s) && ns in s && i <= s[ns].level && Reserving(s, ns, numbers, i, tmp, nomem, max)
    requires CyclicFirst(s[tmp].index, tmp, nomem, ScanStart(s[tmp].lastPid, max), max, Some(nr))
    ensures |numbers| == s[ns].level + 1
    ensures Reserving(s, ns, numbers[i := Upid(nr, tmp)], i - 1, s[tmp].parent, nomem, max)
  {
    hide CyclicFirst, ScanStart;
    if i > 0 {
      AncestorParent(s, ns, i);
    }
    hide Forest, Ancestor;
    var chosen := numbers[i := Upid(nr, tmp)];
    forall l | i <= l < |chosen|
      ensures chosen[l].ns == Ancestor(s, ns, l)
      ensures CyclicFirst(s[chosen[l].ns].index, chosen[l].ns, nomem,
                          ScanStart(s[chosen[l].ns].lastPid, max), max, Some(chosen[l].nr))
    {
      assert l > i ==> chosen[l] == numbers[l];
    }
  }

  lemma NearestAncestor(s: Spaces, n: NsId)
    requires Forest(s) && n in s
    ensures Ancestor(s, n, s[n].level) == n
  {
  }

  lemma FirstOfNone(s: Spaces, n: NsId, nomem: set<(NsId, int)>, start: int, max: int)
    requires n in s && CyclicFirst(s[n].index, n, nomem, start, max, None)
    ensures NoneFree(s, n, nomem, max)
  {
  }

  /** No stage moves a namespace. */
  lemma StageKeys(s: Spaces, numbers: seq<Upid>, i: int, j: int, k: int, p: Pid)
    ensures var t := Stage(s, numbers, i, j, k, p);
            t.Keys == s.Keys && forall n | n in s :: t[n].level == s[n].level
  {
  }

  /** Reserving numbers moves no namespace. */
  lemma StageParent(s: Spaces, numbers: seq<Upid>, i: nat, p: Pid, a: NsId)
    requires a in s
    ensures var t := Stage(s, numbers, i, i, |numbers|, p); a in t && t[a].parent == s[a].parent
  {
  }

  /** No number of namespace n would be taken. */
  ghost predicate NoneFree(s: Spaces, n: NsId, nomem: set<(NsId, int)>, max: int)
    requires n in s
  {
    forall k | 1 <= k < max :: !Takes(s[n].index, n, nomem, k)
  }

  lemma StageRemove(s: Spaces, a: NsId, numbers: seq<Upid>, i: nat, j: nat, p: Pid)
    requires a in s && s[a].level == j && i <= j < |numbers| && numbers[j].ns == a && numbers[j].nr !in s[a].index
    ensures var t := Stage(s, numbers, i, j, |numbers|, p);
            && a in t && t[a := t[a].(index := t[a].index - {numbers[j].nr})] == Stage(s, numbers, i, j + 1, |numbers|, p)
  {
    StagesDiffer(s, numbers, i, j, |numbers|, numbers, i, j + 1, |numbers|, p, a);
    assert s[a].index[numbers[j].nr := None] - {numbers[j].nr} == s[a].index;
  }

  lemma StagePublish(s: Spaces, a: NsId, numbers: seq<Upid>, k: nat, p: Pid)
    requires a in s && s[a].level == k < |numbers| && numbers[k].ns == a
    ensures var t := Stage(s, numbers, 0, 0, k + 1, p);
            && a in t
            && t[a := t[a].(index := t[a].index[numbers[k].nr := Some(p)], pidAllocated := (t[a].pidAllocated + 1) % U32)]
               == Stage(s, numbers, 0, 0, k, p)
  {
    StagesDiffer(s, numbers, 0, 0, k + 1, numbers, 0, 0, k, p, a);
    assert s[a].index[numbers[k].nr := None][numbers[k].nr := Some(p)] == s[a].index[numbers[k].nr := Some(p)];
  }

  /** Every namespace as before, but for the last number given out. */
  ghost predicate SameButLast(s: Spaces, t: Spaces) {
    t.Keys == s.Keys && forall n | n in s :: t[n] == s[n].(lastPid := t[n].lastPid)
  }

  /** Only ns and its ancestors have another last number. */
  ghost predicate LastAbove(s: Spaces, ns: NsId, t: Spaces)
    requires Forest(s) && ns in s
  {
    forall n | n in s && n in t && t[n].lastPid != s[n].lastPid :: s[n].level <= s[ns].level
      && n == Ancestor(s, ns, s[n].level)
  }

  lemma StageAbove(s: Spaces, ns: NsId, numbers: seq<Upid>, i: nat, p: Pid)
    requires Forest(s) && ns in s && Fresh(s, ns, numbers, i)
    ensures LastAbove(s, ns, Stage(s, numbers, i, |numbers|, |numbers|, p))
  {
    hide Forest, Ancestor;
  }

  lemma RestartAbove(s: Spaces, ns: NsId, t: Spaces, last: int)
    requires Forest(s) && ns in s && LastAbove(s, ns, t) && ns in t
    ensures LastAbove(s, ns, t[ns := t[ns].(lastPid := last)])
  {
    NearestAncestor(s, ns);
    hide Forest, Ancestor;
  }

  lemma StageUndone(s: Spaces, numbers: seq<Upid>, i: nat, p: Pid)
    ensures SameButLast(s, Stage(s, numbers, i, |numbers|, |numbers|, p))
  {
  }

  lemma StageNothing(s: Spaces, numbers: seq<Upid>, p: Pid)
    ensures Stage(s, numbers, |numbers|, |numbers|, |numbers|, p) == s
  {
    assert Stage(s, numbers, |numbers|, |numbers|, |numbers|, p).Keys == s.Keys;
  }

  /** put_pid_ns: drops one reference, and with the last one also that on the parent. */
  function Put(s: Spaces, n: NsId): Spaces
    decreases if n in s then s[n].level else 0
  {
    if n !in s || n == INIT_PID_NS then s
    else if s[n].kref > 1 then s[n := s[n].(kref := s[n].kref - 1)]
    else if s[n].parent in s && s[s[n].parent].level < s[n].level then Put(s - {n}, s[n].parent)
    else s - {n}
  }

  /** The forest, as far as level l. */
  ghost predicate ForestTo(s: Spaces, l: int) {
    forall n | n in s && n != INIT_PID_NS && s[n].level <= l ::
      s[n].parent in s && s[s[n].parent].level < s[n].level
  }

  function Get(s: Spaces, n: NsId): Spaces
    requires n in s
  {
    if n == INIT_PID_NS then s else s[n := s[n].(kref := s[n].kref + 1)]
  }

  // ---------------------------------------------------------------- the state machine

  /** `holders` counts, for every namespace, the references held by tasks, files and mounts. */
  datatype State = State(spaces: Spaces, pids: PidTable, holders: map<NsId, nat>, pidMax: int,
                         nextPid: Pid, nextNs: NsId)

  ghost predicate Sound(a: State) {
    Consistent(a.spaces, a.pids, a.holders) && Ranged(a)
  }

  /** New identities are new. */
  ghost predicate Ranged(a: State) {
    && RESERVED_PIDS < a.pidMax <= PID_MAX_LIMIT
    && (forall p | p in a.pids :: p < a.nextPid) && (forall n | n in a.spaces :: n < a.nextNs)
  }

  /** pid_allocated after a decrement; the last pid of a namespace still open closes it. */
  function Decremented(c: int): int {
    var d := (c - 1) % U32; if d == PIDNS_ADDING then 0 else d
  }

  /** The namespaces when the pid with these numbers is removed from the levels below k. */
  ghost function Released(s: Spaces, numbers: seq<Upid>, k: int): Spaces {
    map n | n in s :: ReleasedOf(s[n], n, numbers, k)
  }

  ghost function ReleasedOf(a: Namespace, n: NsId, numbers: seq<Upid>, k: int): Namespace {
    if a.level < k && a.level < |numbers| && numbers[a.level].ns == n then
      a.(index := a.index - {numbers[a.level].nr}, pidAllocated := Decremented(a.pidAllocated))
    else a
  }

  function Restrict(h: map<NsId, nat>, keys: set<NsId>): map<NsId, nat> {
    map n | n in h && n in keys :: h[n]
  }

  /** put_pid: one reference less; with the last one the pid goes, and its hold on its leaf. */
  ghost function Dropped(a: State, p: Pid): State
    requires p in a.pids && 0 < |a.pids[p].numbers|
  {
    var r := a.pids[p];
    if r.count > 1 then a.(pids := a.pids[p := r.(count := r.count - 1)])
    else
      var s := Put(a.spaces, Leaf(r));
      a.(pids := a.pids - {p}, spaces := s, holders := Restrict(a.holders, s.Keys))
  }

  /** create_pid_namespace: open, empty, and held once by its creator. */
  function NewNs(s: Spaces, q: NsId): Namespace
    requires q in s
  {
    Namespace(s[q].level + 1, q, map[], 0, PIDNS_ADDING, 1)
  }

  datatype Op =
    | Alloc(ns: NsId, numbers: seq<Upid>, nomem: set<(NsId, int)>)
    | AllocFail(ns: NsId)
    | Free(p: Pid)
    | GetPid(p: Pid)
    | PutPid(p: Pid)
    | DelayedPut(p: Pid)
    | CreateNs(parent: NsId)
    | GetNs(n: NsId)
    | PutNs(n: NsId)
    | Disable(n: NsId)
    | SetLast(n: NsId, last: int)
    | SetMax(max: int)

  ghost predicate Allocates(a: State, ns: NsId, numbers: seq<Upid>, nomem: set<(NsId, int)>, b: State)
    requires Forest(a.spaces)
  {
    && ns in a.spaces && Adding(a.spaces[ns]) && Chosen(a.spaces, ns, numbers, 0, nomem, a.pidMax)
    && b == a.(spaces := Get(Stage(a.spaces, numbers, 0, 0, 0, a.nextPid), ns),
               pids := a.pids[a.nextPid := PidRec(numbers, 1, Published)], nextPid := a.nextPid + 1)
  }

  /** A failed allocation in ns leaves no trace but in the last numbers of ns and its ancestors. */
  ghost predicate FailsToAlloc(a: State, ns: NsId, b: State)
    requires Forest(a.spaces)
  {
    ns in a.spaces && SameButLast(a.spaces, b.spaces) && LastAbove(a.spaces, ns, b.spaces)
      && b == a.(spaces := b.spaces)
  }

  ghost predicate Frees(a: State, p: Pid, b: State) {
    && p in a.pids && a.pids[p].phase == Published
    && b == a.(spaces := Released(a.spaces, a.pids[p].numbers, |a.pids[p].numbers|),
               pids := a.pids[p := a.pids[p].(phase := Unhashed)])
  }

  ghost predicate GetsPid(a: State, p: Pid, b: State) {
    p in a.pids && b == a.(pids := a.pids[p := a.pids[p].(count := a.pids[p].count + 1)])
  }

  ghost predicate PutsPid(a: State, p: Pid, b: State) {
    p in a.pids && a.pids[p].count > Base(a.pids[p]) && 0 < |a.pids[p].numbers| && b == Dropped(a, p)
  }

  ghost predicate PutsDelayed(a: State, p: Pid, b: State) {
    && p in a.pids && a.pids[p].phase == Unhashed && 0 < |a.pids[p].numbers|
    && b == Dropped(a.(pids := a.pids[p := a.pids[p].(phase := Detached)]), p)
  }

  ghost predicate CreatesNs(a: State, q: NsId, b: State) {
    && q in a.spaces && a.spaces[q].level + 1 <= MAX_PID_NS_LEVEL
    && b == a.(spaces := Get(a.spaces, q)[a.nextNs := NewNs(a.spaces, q)],
               holders := a.holders[a.nextNs := 1], nextNs := a.nextNs + 1)
  }

  ghost predicate GetsNs(a: State, n: NsId, b: State) {
    n in a.spaces && n in a.holders && b == a.(spaces := Get(a.spaces, n), holders := a.holders[n := a.holders[n] + 1])
  }

  ghost predicate PutsNs(a: State, n: NsId, b: State) {
    && n in a.spaces && n in a.holders && a.holders[n] > 0
    && b == a.(spaces := Put(a.spaces, n), holders := Restrict(a.holders[n := a.holders[n] - 1], Put(a.spaces, n).Keys))
  }

  ghost predicate Disables(a: State, n: NsId, b: State) {
    n in a.spaces && b == a.(spaces := a.spaces[n := a.spaces[n].(pidAllocated := Disabled(a.spaces[n].pidAllocated))])
  }

  ghost predicate SetsLast(a: State, n: NsId, last: int, b: State) {
    n in a.spaces && 0 <= last <= a.pidMax && b == a.(spaces := a.spaces[n := a.spaces[n].(lastPid := last)])
  }

  ghost predicate SetsMax(a: State, max: int, b: State) {
    RESERVED_PIDS < max <= PID_MAX_LIMIT && b == a.(pidMax := max)
  }

  /** Operation op takes state a to state b. */
  ghost predicate Does(a: State, op: Op, b: State) {
    && Forest(a.spaces) && OnChains(a.spaces, a.pids)
    && match op
       case Alloc(ns, numbers, nomem) => Allocates(a, ns, numbers, nomem, b)
       case AllocFail(ns) => FailsToAlloc(a, ns, b)
       case Free(p) => Frees(a, p, b)
       case GetPid(p) => GetsPid(a, p, b)
       case PutPid(p) => PutsPid(a, p, b)
       case DelayedPut(p) => PutsDelayed(a, p, b)
       case CreateNs(q) => CreatesNs(a, q, b)
       case GetNs(n) => GetsNs(a, n, b)
       case PutNs(n) => PutsNs(a, n, b)
       case Disable(n) => Disables(a, n, b)
       case SetLast(n, last) => SetsLast(a, n, last, b)
       case SetMax(max) => SetsMax(a, max, b)
  }

  /** The counter with the bit that allows adding cleared. */
  function Disabled(c: int): int {
    if c >= PIDNS_ADDING then c - PIDNS_ADDING else c
  }

  /**
   When an allocation in ns succeeds: there is memory, ns accepts pids, every namespace up to
   the first has a number left, and proc is ready if the pid is to be number 1 of ns.
   */
  ghost predicate CanAlloc(s: Spaces, ns: NsId, nomem: set<(NsId, int)>, max: int, noStruct: bool, procFails: bool) {
    && Forest(s) && ns in s && !noStruct && Adding(s[ns])
    && (forall l | 0 <= l <= s[ns].level :: !NoneFree(s, Ancestor(s, ns, l), nomem, max))
    && !(procFails && CyclicFirst(s[ns].index, ns, nomem, ScanStart(s[ns].lastPid, max), max, Some(1)))
  }

  /** There is only one first number in cyclic order. */
  lemma FirstIsUnique(index: Entries, n: NsId, nomem: set<(NsId, int)>, start: int, max: int, r: Option<int>,
                      r': Option<int>)
    requires CyclicFirst(index, n, nomem, start, max, r) && CyclicFirst(index, n, nomem, start, max, r')
    ensures r == r'
  {
  }

  /** Numbers chosen at every level are all an allocation needs, apart from memory and proc. */
  lemma ChosenCan(s: Spaces, ns: NsId, numbers: seq<Upid>, nomem: set<(NsId, int)>, max: int, procFails: bool)
    requires Forest(s) && ns in s && Chosen(s, ns, numbers, 0, nomem, max)
    ensures |numbers| == s[ns].level + 1
    ensures CanAlloc(s, ns, nomem, max, false, procFails)
       <==> Adding(s[ns]) && !(procFails && numbers[s[ns].level].nr == 1)
  {
    NearestAncestor(s, ns);
    var top := numbers[s[ns].level];
    var start := ScanStart(s[ns].lastPid, max);
    assert CyclicFirst(s[ns].index, ns, nomem, start, max, Some(top.nr));
    forall l | 0 <= l <= s[ns].level
      ensures !NoneFree(s, Ancestor(s, ns, l), nomem, max)
    {
      hide Ancestor, Forest, Takes;
      assert numbers[l].ns == Ancestor(s, ns, l);
      assert Takes(s[numbers[l].ns].index, numbers[l].ns, nomem, numbers[l].nr);
    }
    if CyclicFirst(s[ns].index, ns, nomem, start, max, Some(1)) {
      FirstIsUnique(s[ns].index, ns, nomem, start, max, Some(top.nr), Some(1));
    }
  }

  /** Taking a reference and reserving numbers do not disturb each other. */
  lemma StageGet(s: Spaces, ns: NsId, numbers: seq<Upid>, i: int, j: int, k: int, p: Pid)
    requires ns in s
    ensures ns in Stage(s, numbers, i, j, k, p)
    ensures Get(Stage(s, numbers, i, j, k, p), ns) == Stage(Get(s, ns), numbers, i, j, k, p)
  {
    var t := Stage(s, numbers, i, j, k, p);
    var u, v := Get(t, ns), Stage(Get(s, ns), numbers, i, j, k, p);
    assert u.Keys == v.Keys;
    forall n | n in s
      ensures u[n] == v[n]
    {
      assert t[n] == StageOf(s[n], n, numbers, i, j, k, p);
    }
  }

  lemma GetLevel(s: Spaces, n: NsId)
    requires n in s
    ensures n in Get(s, n) && Get(s, n)[n].pidAllocated == s[n].pidAllocated
  {
  }

  /** Reserving counts nothing, and takes no reference. */
  lemma StageSame(s: Spaces, numbers: seq<Upid>, i: nat, p: Pid, n: NsId)
    requires n in s
    ensures var t := Stage(s, numbers, i, i, |numbers|, p);
            n in t && t[n].pidAllocated == s[n].pidAllocated && t[n].kref == s[n].kref
  {
  }

  lemma StageForest(s: Spaces, ns: NsId, numbers: seq<Upid>, p: Pid)
    requires Forest(s) && ns in s
    ensures ns in Stage(s, numbers, 0, 0, |numbers|, p)
    ensures var u := Get(Stage(s, numbers, 0, 0, |numbers|, p), ns); ns in u && Forest(u)
  {
    var u := Get(Stage(s, numbers, 0, 0, |numbers|, p), ns);
    forall n | n in s
      ensures n in u && u[n].level == s[n].level && u[n].parent == s[n].parent
    {
    }
  }

  lemma PutUndoesGet(s: Spaces, n: NsId)
    requires n in s && (n != INIT_PID_NS ==> s[n].kref > 0)
    ensures n in Get(s, n) && Put(Get(s, n), n) == s
  {
    if n != INIT_PID_NS {
      var u := Get(s, n);
      assert Put(u, n) == u[n := u[n].(kref := u[n].kref - 1)];
      assert Put(u, n) == s;
    }
  }

  lemma GetOnChain(s: Spaces, ns: NsId, r: PidRec)
    requires ns in s && OnChain(s, r)
    ensures OnChain(Get(s, ns), r)
  {
  }
}

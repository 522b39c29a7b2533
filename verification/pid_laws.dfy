/**
 What the operations on pids and namespaces come to, said in terms of the numbers in use, the
 pids that are seen and the references that are held, for every sound state.
 */
module PidLaws {
  import opened Options
  import opened PidModel
  import opened PidSteps
  import opened PidAlloc
  import opened PidReferences
  import opened PidRuns

  // ---------------------------------------------------------------- which number is given out

  /**
   r is the least number of [lo, hi) that can be had: it stands for nothing yet, and if it is not
   reserved already, there is memory for it.
   */
  ghost predicate LeastFree(index: Entries, n: NsId, nomem: set<(NsId, int)>, lo: int, hi: int, r: Option<int>) {
    match r
    case None => forall k | lo <= k < hi :: (k in index && index[k] != None) || (k !in index && (n, k) in nomem)
    case Some(m) =>
      && lo <= m < hi && (m in index ==> index[m] == None) && (m !in index ==> (n, m) !in nomem)
      && forall k | lo <= k < m :: (k in index && index[k] != None) || (k !in index && (n, k) in nomem)
  }

  /**
   The number after the last one given out: the least one above it, if there is one, and otherwise
   the least one up to it; all from 1 on if the last number is the largest, or no number at all.
   */
  ghost predicate NextAfter(index: Entries, n: NsId, nomem: set<(NsId, int)>, last: int, max: int, r: Option<int>) {
    if 0 <= last < max - 1 then
      if LeastFree(index, n, nomem, last + 1, max, None) then LeastFree(index, n, nomem, 1, last + 1, r)
      else LeastFree(index, n, nomem, last + 1, max, r)
    else LeastFree(index, n, nomem, 1, max, r)
  }

  /** Cyclic first fit gives the next number after the last one. */
  lemma FirstFitIsNext(index: Entries, n: NsId, nomem: set<(NsId, int)>, last: int, max: int, r: Option<int>)
    requires CyclicFirst(index, n, nomem, ScanStart(last, max), max, r)
    ensures NextAfter(index, n, nomem, last, max, r)
  {
    hide Takes;
    forall k
      ensures Takes(index, n, nomem, k) <==> !((k in index && index[k] != None) || (k !in index && (n, k) in nomem))
    {
      TakesWhat(index, n, nomem, k);
    }
  }

  lemma TakesWhat(index: Entries, n: NsId, nomem: set<(NsId, int)>, k: int)
    ensures Takes(index, n, nomem, k) <==> (k in index ==> index[k] == None) && (k !in index ==> (n, k) !in nomem)
  {
  }

  // ---------------------------------------------------------------- an allocation, namespace by namespace

  /**
   The new pid has, in every namespace from the first down to its own, the next number after the
   last one given out there; that number finds it and is the last one now, and is counted.
   */
  ghost predicate TakesNextNumbers(a: State, ns: NsId, nomem: set<(NsId, int)>, b: State)
    requires Forest(a.spaces) && ns in a.spaces
  {
    && a.nextPid in b.pids && b.nextPid == a.nextPid + 1
    && var numbers := b.pids[a.nextPid].numbers;
       && b.pids == a.pids[a.nextPid := PidRec(numbers, 1, Published)]
       && |numbers| == a.spaces[ns].level + 1 && b.spaces.Keys == a.spaces.Keys
       && (forall l | 0 <= l < |numbers| ::
             numbers[l].ns == Ancestor(a.spaces, ns, l) && NumberTaken(a, numbers[l], nomem, b))
       && (forall n | n in a.spaces && (forall l | 0 <= l < |numbers| :: numbers[l].ns != n) ::
             b.spaces[n] == a.spaces[n])
       && (forall n | n in a.spaces ::
             b.spaces[n].kref == a.spaces[n].kref + if n == ns && n != INIT_PID_NS then 1 else 0)
  }

  /** The same in one namespace. */
  ghost predicate NumberTaken(a: State, u: Upid, nomem: set<(NsId, int)>, b: State) {
    && u.ns in a.spaces && u.ns in b.spaces
    && var was, now := a.spaces[u.ns], b.spaces[u.ns];
       && NextAfter(was.index, u.ns, nomem, was.lastPid, a.pidMax, Some(u.nr)) && u.nr !in was.index
       && now.index == was.index[u.nr := Some(a.nextPid)] && now.lastPid == u.nr
       && now.pidAllocated == was.pidAllocated + 1 && now.level == was.level && now.parent == was.parent
  }

  /** One namespace before and after. */
  lemma AllocatedAt(s: Spaces, ns: NsId, numbers: seq<Upid>, p: Pid, n: NsId)
    requires ns in s && n in s
    ensures ns in Stage(s, numbers, 0, 0, 0, p)
    ensures var u := Get(Stage(s, numbers, 0, 0, 0, p), ns);
            && u.Keys == s.Keys && u[n].level == s[n].level && u[n].parent == s[n].parent
            && u[n].kref == s[n].kref + (if n == ns && n != INIT_PID_NS then 1 else 0)
            && if s[n].level < |numbers| && numbers[s[n].level].ns == n then
                 var nr := numbers[s[n].level].nr;
                 && u[n].index == s[n].index[nr := Some(p)] && u[n].lastPid == nr
                 && u[n].pidAllocated == (s[n].pidAllocated + 1) % U32
               else n != ns ==> u[n] == s[n]
  {
    assert Stage(s, numbers, 0, 0, 0, p).Keys == s.Keys;
  }

  lemma ChosenAt(s: Spaces, ns: NsId, numbers: seq<Upid>, nomem: set<(NsId, int)>, max: int, l: nat)
    requires Forest(s) && ns in s && Chosen(s, ns, numbers, 0, nomem, max) && Fresh(s, ns, numbers, 0) && l < |numbers|
    ensures |numbers| == s[ns].level + 1
    ensures var n := numbers[l].ns;
            && n == Ancestor(s, ns, l) && n in s && s[n].level == l && numbers[l].nr !in s[n].index
            && CyclicFirst(s[n].index, n, nomem, ScanStart(s[n].lastPid, max), max, Some(numbers[l].nr))
  {
    hide Forest, CyclicFirst, ScanStart;
  }

  lemma AllocNumber(a: State, ns: NsId, numbers: seq<Upid>, nomem: set<(NsId, int)>, b: State, l: nat)
    requires Sound(a) && Allocates(a, ns, numbers, nomem, b) && Fresh(a.spaces, ns, numbers, 0) && l < |numbers|
    ensures |numbers| == a.spaces[ns].level + 1
    ensures numbers[l].ns == Ancestor(a.spaces, ns, l) && NumberTaken(a, numbers[l], nomem, b)
  {
    hide Sound, Forest, OnChains, Exact, PidRefs, Ancestor, Chosen, Fresh, CyclicFirst, ScanStart, Stage, Get, NumberTaken;
    SoundParts(a);
    ChosenAt(a.spaces, ns, numbers, nomem, a.pidMax, l);
    StageKeys(a.spaces, numbers, 0, 0, 0, a.nextPid);
    NumberIs(a, ns, numbers, nomem, b, l);
  }

  lemma NumberIs(a: State, ns: NsId, numbers: seq<Upid>, nomem: set<(NsId, int)>, b: State, l: nat)
    requires Sound(a) && ns in a.spaces && l < |numbers| && numbers[l].ns in a.spaces
    requires ns in Stage(a.spaces, numbers, 0, 0, 0, a.nextPid)
    requires b.spaces == Get(Stage(a.spaces, numbers, 0, 0, 0, a.nextPid), ns)
    requires var n := a.spaces[numbers[l].ns];
             && n.level == l && numbers[l].nr !in n.index
             && CyclicFirst(n.index, numbers[l].ns, nomem, ScanStart(n.lastPid, a.pidMax), a.pidMax, Some(numbers[l].nr))
    ensures NumberTaken(a, numbers[l], nomem, b)
  {
    hide Sound, CyclicFirst, ScanStart, NextAfter, Stage, Get;
    var n := numbers[l].ns;
    AllocatedAt(a.spaces, ns, numbers, a.nextPid, n);
    FirstFitIsNext(a.spaces[n].index, n, nomem, a.spaces[n].lastPid, a.pidMax, Some(numbers[l].nr));
    CountBelow(a, n);
  }

  lemma AllocTakesNext(a: State, ns: NsId, numbers: seq<Upid>, nomem: set<(NsId, int)>, b: State)
    requires Sound(a) && Allocates(a, ns, numbers, nomem, b)
    ensures ns in a.spaces && TakesNextNumbers(a, ns, nomem, b)
  {
    hide Sound, Forest, OnChains, Exact, PidRefs, Ancestor, Chosen, Fresh, Stage, Get, NumberTaken;
    SoundParts(a);
    ChosenFresh(a.spaces, a.pids, ns, numbers, 0, nomem, a.pidMax);
    LeafChosen(a.spaces, ns, numbers);
    forall l | 0 <= l < |numbers|
      ensures numbers[l].ns == Ancestor(a.spaces, ns, l) && NumberTaken(a, numbers[l], nomem, b)
    {
      AllocNumber(a, ns, numbers, nomem, b, l);
    }
    forall n | n in a.spaces
      ensures n in b.spaces && b.spaces[n].kref == a.spaces[n].kref + if n == ns && n != INIT_PID_NS then 1 else 0
      ensures (forall l | 0 <= l < |numbers| :: numbers[l].ns != n) ==> b.spaces[n] == a.spaces[n]
      ensures b.spaces.Keys == a.spaces.Keys
    {
      AllocatedAt(a.spaces, ns, numbers, a.nextPid, n);
    }
    AllocatedAt(a.spaces, ns, numbers, a.nextPid, ns);
  }

  lemma LeafChosen(s: Spaces, ns: NsId, numbers: seq<Upid>)
    requires Forest(s) && ns in s && Fresh(s, ns, numbers, 0)
    ensures |numbers| == s[ns].level + 1 && numbers[s[ns].level].ns == ns
  {
    NearestAncestor(s, ns);
    hide Forest, Ancestor;
  }

  lemma CountBelow(a: State, n: NsId)
    requires Sound(a) && n in a.spaces
    ensures 0 <= a.spaces[n].pidAllocated < U32 - 1
  {
    hide Forest, OnChains, Hashed, Referenced;
    IndexBound(a.spaces, a.pids, n);
    AllocatedIs(a.spaces, n);
  }

  // ---------------------------------------------------------------- an allocation that fails

  /** The last number of namespace n after numbers were taken above level i, and given back. */
  function LastGiven(a: State, ns: NsId, i: int, numbers: seq<Upid>, n: NsId): int
    requires ns in a.spaces && n in a.spaces
  {
    var l := a.spaces[n].level;
    if n == ns && a.spaces[ns].pidAllocated == PIDNS_ADDING then 0
    else if i < l < |numbers| && numbers[l].ns == n then numbers[l].nr
    else a.spaces[n].lastPid
  }

  /**
   Above level i the next numbers were taken, and given back; at level i there was none to be had.
   They are the last numbers now, but for an open and empty ns, which starts over.
   */
  ghost predicate GivenBack(a: State, ns: NsId, nomem: set<(NsId, int)>, i: int, numbers: seq<Upid>, b: State)
    requires Forest(a.spaces) && ns in a.spaces
  {
    && -1 <= i <= a.spaces[ns].level && |numbers| == a.spaces[ns].level + 1
    && b == a.(spaces := b.spaces) && b.spaces.Keys == a.spaces.Keys
    && (i >= 0 ==> var n := Ancestor(a.spaces, ns, i); LeastFree(a.spaces[n].index, n, nomem, 1, a.pidMax, None))
    && (forall l | i < l < |numbers| ::
          && numbers[l].ns == Ancestor(a.spaces, ns, l)
          && var n := a.spaces[numbers[l].ns];
             NextAfter(n.index, numbers[l].ns, nomem, n.lastPid, a.pidMax, Some(numbers[l].nr)))
    && (forall n | n in a.spaces :: b.spaces[n] == a.spaces[n].(lastPid := LastGiven(a, ns, i, numbers, n)))
  }

  /** What a failed allocation leaves behind. */
  ghost predicate HandsBack(a: State, ns: NsId, nomem: set<(NsId, int)>, b: State)
    requires Forest(a.spaces) && ns in a.spaces
  {
    exists i, numbers :: GivenBack(a, ns, nomem, i, numbers, b)
  }

  lemma BackAt(a: State, ns: NsId, numbers: seq<Upid>, i: int, n: NsId, p: Pid)
    requires ns in a.spaces && n in a.spaces && -1 <= i < |numbers| == a.spaces[ns].level + 1
    ensures var t := Stage(a.spaces, numbers, i + 1, |numbers|, |numbers|, p);
            && t.Keys == a.spaces.Keys
            && var u := if a.spaces[ns].pidAllocated == PIDNS_ADDING then t[ns := t[ns].(lastPid := 0)] else t;
               u.Keys == a.spaces.Keys && u[n] == a.spaces[n].(lastPid := LastGiven(a, ns, i, numbers, n))
  {
    assert Stage(a.spaces, numbers, i + 1, |numbers|, |numbers|, p).Keys == a.spaces.Keys;
  }

  lemma NoneIsNone(s: Spaces, n: NsId, nomem: set<(NsId, int)>, max: int)
    requires n in s
    ensures NoneFree(s, n, nomem, max) <==> LeastFree(s[n].index, n, nomem, 1, max, None)
  {
    forall k
      ensures Takes(s[n].index, n, nomem, k)
         <==> !((k in s[n].index && s[n].index[k] != None) || (k !in s[n].index && (n, k) in nomem))
    {
      TakesWhat(s[n].index, n, nomem, k);
    }
    hide Takes;
  }

  /** Rolling back leaves the next numbers as the last ones. */
  lemma FailGivesBack(a: State, ns: NsId, nomem: set<(NsId, int)>, i: int, numbers: seq<Upid>, p: Pid, u: Spaces)
    requires Sound(a) && ns in a.spaces && -1 <= i <= a.spaces[ns].level
    requires Chosen(a.spaces, ns, numbers, i + 1, nomem, a.pidMax)
    requires i >= 0 ==> NoneFree(a.spaces, Ancestor(a.spaces, ns, i), nomem, a.pidMax)
    requires var t := Stage(a.spaces, numbers, i + 1, |numbers|, |numbers|, p);
             ns in t && u == if a.spaces[ns].pidAllocated == PIDNS_ADDING then t[ns := t[ns].(lastPid := 0)] else t
    ensures GivenBack(a, ns, nomem, i, numbers, a.(spaces := u)) && HandsBack(a, ns, nomem, a.(spaces := u))
  {
    hide Sound, Forest, OnChains, Exact, PidRefs, Ancestor, CyclicFirst, ScanStart, NextAfter, LeastFree, NoneFree,
         Stage, LastGiven;
    SoundParts(a);
    if i >= 0 {
      NoneIsNone(a.spaces, Ancestor(a.spaces, ns, i), nomem, a.pidMax);
    }
    forall l | i < l < |numbers|
      ensures var n := a.spaces[numbers[l].ns];
              NextAfter(n.index, numbers[l].ns, nomem, n.lastPid, a.pidMax, Some(numbers[l].nr))
    {
      var n := a.spaces[numbers[l].ns];
      FirstFitIsNext(n.index, numbers[l].ns, nomem, n.lastPid, a.pidMax, Some(numbers[l].nr));
    }
    forall n | n in a.spaces
      ensures n in u && u[n] == a.spaces[n].(lastPid := LastGiven(a, ns, i, numbers, n)) && u.Keys == a.spaces.Keys
    {
      BackAt(a, ns, numbers, i, n, p);
    }
  }

  /** Numbers are chosen from level i + 1 on, and level i has none; the allocation cannot be made. */
  ghost predicate Fails(a: State, ns: NsId, i: int, numbers: seq<Upid>, nomem: set<(NsId, int)>, procFails: bool) {
    && Sound(a) && ns in a.spaces && -1 <= i <= a.spaces[ns].level && |numbers| == a.spaces[ns].level + 1
    && !CanAlloc(a.spaces, ns, nomem, a.pidMax, false, procFails)
    && Chosen(a.spaces, ns, numbers, i + 1, nomem, a.pidMax) && Fresh(a.spaces, ns, numbers, i + 1)
    && (i >= 0 ==> NoneFree(a.spaces, Ancestor(a.spaces, ns, i), nomem, a.pidMax))
  }

  lemma FailsWith(a: State, ns: NsId, i: int, numbers: seq<Upid>, nomem: set<(NsId, int)>, procFails: bool)
    requires Fails(a, ns, i, numbers, nomem, procFails)
    ensures Forest(a.spaces) && ns in a.spaces && -1 <= i <= a.spaces[ns].level && |numbers| == a.spaces[ns].level + 1
    ensures Fresh(a.spaces, ns, numbers, i + 1)
  {
    hide CanAlloc, Chosen, NoneFree, Fresh, Ancestor;
  }

  /** A failure in full: everything is right, and the last numbers are those handed back. */
  lemma FailEnds(a: State, ns: NsId, nomem: set<(NsId, int)>, procFails: bool, i: int, numbers: seq<Upid>, p: Pid,
                 u: Spaces)
    requires Fails(a, ns, i, numbers, nomem, procFails)
    requires Forest(a.spaces) && SameButLast(a.spaces, u) && LastAbove(a.spaces, ns, u)
    requires var t := Stage(a.spaces, numbers, i + 1, |numbers|, |numbers|, p);
             ns in t && u == if a.spaces[ns].pidAllocated == PIDNS_ADDING then t[ns := t[ns].(lastPid := 0)] else t
    ensures Sound(a.(spaces := u)) && AllocResult(a, ns, false, nomem, procFails, None, a.(spaces := u))
    ensures HandsBack(a, ns, nomem, a.(spaces := u))
  {
    hide Sound, Forest, Ancestor, CanAlloc, Chosen, NoneFree, SameButLast, LastAbove, Stage, AllocResult, HandsBack,
         GivenBack;
    FailGivesBack(a, ns, nomem, i, numbers, p, u);
    FailResult(a, ns, false, nomem, procFails, u);
  }

  /** Every level has its number. */
  ghost predicate Ready(a: State, ns: NsId, numbers: seq<Upid>, nomem: set<(NsId, int)>) {
    && Sound(a) && ns in a.spaces && |numbers| == a.spaces[ns].level + 1
    && Chosen(a.spaces, ns, numbers, 0, nomem, a.pidMax) && Fresh(a.spaces, ns, numbers, 0)
  }

  lemma ReadyParts(a: State, ns: NsId, numbers: seq<Upid>, nomem: set<(NsId, int)>)
    requires Ready(a, ns, numbers, nomem)
    ensures Forest(a.spaces) && ns in a.spaces && Fresh(a.spaces, ns, numbers, 0) && 0 < |numbers|
    ensures ns != INIT_PID_NS ==> a.spaces[ns].kref > 0
  {
    HasReferences(a, ns);
    hide Chosen, Fresh, Ancestor, OnChains, Hashed, Exact, Counted, Referenced;
  }

  lemma ReadyButFails(a: State, ns: NsId, numbers: seq<Upid>, nomem: set<(NsId, int)>, procFails: bool)
    requires Ready(a, ns, numbers, nomem) && 0 < |numbers| && Forest(a.spaces)
    requires !Adding(a.spaces[ns]) || (procFails && numbers[|numbers| - 1].nr == 1)
    ensures Fails(a, ns, -1, numbers, nomem, procFails)
  {
    hide Sound, Forest, Ancestor, Chosen, Fresh, CanAlloc;
    ChosenCan(a.spaces, ns, numbers, nomem, a.pidMax, procFails);
  }

  /** After the reservation loop there is a number everywhere, or level i has none. */
  lemma ReservedOrNot(a: State, ns: NsId, i: int, numbers: seq<Upid>, nomem: set<(NsId, int)>, procFails: bool)
    requires Sound(a) && Forest(a.spaces) && ns in a.spaces && -1 <= i <= a.spaces[ns].level
    requires Chosen(a.spaces, ns, numbers, i + 1, nomem, a.pidMax)
    requires i >= 0 ==> NoneFree(a.spaces, Ancestor(a.spaces, ns, i), nomem, a.pidMax)
    ensures if i >= 0 then Fails(a, ns, i, numbers, nomem, procFails) else Ready(a, ns, numbers, nomem)
  {
    hide Sound, Forest, Exact, OnChains, PidRefs, Ancestor, Fresh, CanAlloc, NoneFree, CyclicFirst;
    SoundParts(a);
    ChosenFresh(a.spaces, a.pids, ns, numbers, i + 1, nomem, a.pidMax);
    if i >= 0 {
      NothingFree(a.spaces, ns, i, nomem, a.pidMax, false, procFails);
    }
  }

  /** A success in full. */
  lemma SuccessEnds(a: State, ns: NsId, numbers: seq<Upid>, nomem: set<(NsId, int)>, procFails: bool, b: State)
    requires Ready(a, ns, numbers, nomem) && 0 < |numbers| && Forest(a.spaces)
    requires Adding(a.spaces[ns]) && !(procFails && numbers[|numbers| - 1].nr == 1)
    requires ns in Stage(a.spaces, numbers, 0, 0, 0, a.nextPid)
    requires b == a.(spaces := Get(Stage(a.spaces, numbers, 0, 0, 0, a.nextPid), ns),
                     pids := a.pids[a.nextPid := PidRec(numbers, 1, Published)], nextPid := a.nextPid + 1)
    ensures Sound(b) && AllocResult(a, ns, false, nomem, procFails, Some(a.nextPid), b)
    ensures TakesNextNumbers(a, ns, nomem, b)
  {
    hide Sound, Forest, Ancestor, CanAlloc, Chosen, Fresh, AllocResult, TakesNextNumbers, Stage, Get;
    ChosenCan(a.spaces, ns, numbers, nomem, a.pidMax, procFails);
    assert Allocates(a, ns, numbers, nomem, b);
    hide Allocates;
    DoneResult(a, ns, numbers, nomem, procFails, b);
    AllocTakesNext(a, ns, numbers, nomem, b);
  }

  // ---------------------------------------------------------------- a new namespace

  /** A new namespace is open and empty, one level down, and held by its creator only. */
  lemma NewIsOpen(a: State, q: NsId, b: State)
    requires Sound(a) && CreatesNs(a, q, b)
    ensures q in a.spaces && q in b.spaces && a.nextNs !in a.spaces && a.nextNs in b.spaces && b.nextNs == a.nextNs + 1
    ensures var n := b.spaces[a.nextNs];
            && n.level == a.spaces[q].level + 1 <= MAX_PID_NS_LEVEL && n.parent == q && n.index == map[] && n.kref == 1
            && Adding(n) && Visible(b.spaces, b.pids, a.nextNs) == {}
    ensures b.pids == a.pids && b.pidMax == a.pidMax && b.holders == a.holders[a.nextNs := 1]
    ensures b.spaces.Keys == a.spaces.Keys + {a.nextNs}
    ensures forall n | n in a.spaces ::
              b.spaces[n] == a.spaces[n].(kref := a.spaces[n].kref + if n == q && n != INIT_PID_NS then 1 else 0)
  {
    hide Hashed, Exact, Counted, Referenced, PidRefs;
    forall p | p in a.pids
      ensures p !in Visible(b.spaces, b.pids, a.nextNs)
    {
      ChainLives(a.spaces, a.pids, p);
    }
  }

  lemma ChainLives(s: Spaces, t: PidTable, p: Pid)
    requires OnChains(s, t) && p in t
    ensures forall l | 0 <= l < |t[p].numbers| :: t[p].numbers[l].ns in s && s[t[p].numbers[l].ns].level == l
  {
    assert OnChain(s, t[p]);
  }

  /** Its first pid gets number 1 there, whoever asks. */
  lemma FirstIsOne(a: State, q: NsId, b: State, numbers: seq<Upid>, nomem: set<(NsId, int)>, c: State)
    requires Sound(a) && CreatesNs(a, q, b) && (a.nextNs, 1) !in nomem
    requires Forest(b.spaces) && Allocates(b, a.nextNs, numbers, nomem, c)
    ensures q in a.spaces && |numbers| == a.spaces[q].level + 2 && numbers[|numbers| - 1] == Upid(1, a.nextNs)
  {
    hide Sound, Forest, OnChains, Exact, PidRefs, CyclicFirst, ScanStart, CreatesNs, Allocates, Chosen;
    CreateKeeps(a, q, b);
    SoundParts(b);
    NewIsEmpty(a, q, b);
    AllocatesChosen(b, a.nextNs, numbers, nomem, c);
    LeafNumber(b.spaces, a.nextNs, numbers, nomem, b.pidMax);
    OneIsFirst(a.nextNs, nomem, b.pidMax, Some(numbers[|numbers| - 1].nr));
  }

  lemma NewIsEmpty(a: State, q: NsId, b: State)
    requires CreatesNs(a, q, b)
    ensures a.nextNs in b.spaces && b.spaces[a.nextNs].index == map[] && b.spaces[a.nextNs].lastPid == 0
    ensures q in a.spaces && b.spaces[a.nextNs].level == a.spaces[q].level + 1
  {
  }

  lemma AllocatesChosen(a: State, ns: NsId, numbers: seq<Upid>, nomem: set<(NsId, int)>, b: State)
    requires Forest(a.spaces) && Allocates(a, ns, numbers, nomem, b)
    ensures ns in a.spaces && Adding(a.spaces[ns]) && Chosen(a.spaces, ns, numbers, 0, nomem, a.pidMax)
  {
    hide Forest, Chosen;
  }

  lemma LeafNumber(s: Spaces, ns: NsId, numbers: seq<Upid>, nomem: set<(NsId, int)>, max: int)
    requires Forest(s) && ns in s && Chosen(s, ns, numbers, 0, nomem, max)
    ensures |numbers| == s[ns].level + 1 && numbers[s[ns].level].ns == ns
    ensures CyclicFirst(s[ns].index, ns, nomem, ScanStart(s[ns].lastPid, max), max, Some(numbers[s[ns].level].nr))
  {
    NearestAncestor(s, ns);
    hide Forest, Ancestor;
  }

  lemma OneIsFirst(n: NsId, nomem: set<(NsId, int)>, max: int, r: Option<int>)
    requires max > 1 && (n, 1) !in nomem && CyclicFirst(map[], n, nomem, ScanStart(0, max), max, r)
    ensures r == Some(1)
  {
    assert Takes(map[], n, nomem, 1);
  }

  /** It can be allocated if number 1 has memory there, and every ancestor has a number left. */
  lemma FirstCanBe(a: State, q: NsId, b: State, nomem: set<(NsId, int)>)
    requires Sound(a) && CreatesNs(a, q, b) && (a.nextNs, 1) !in nomem
    requires Forest(a.spaces) && forall l: nat | l <= a.spaces[q].level ::
               var n := Ancestor(a.spaces, q, l); !LeastFree(a.spaces[n].index, n, nomem, 1, a.pidMax, None)
    ensures CanAlloc(b.spaces, a.nextNs, nomem, b.pidMax, false, false)
  {
    hide Sound, OnChains, Exact, PidRefs, NoneFree, LeastFree, CyclicFirst;
    SoundParts(a);
    CreateKeeps(a, q, b);
    SoundParts(b);
    NewIsOpen(a, q, b);
    hide CreatesNs;
    forall l: nat | l <= b.spaces[a.nextNs].level
      ensures !NoneFree(b.spaces, Ancestor(b.spaces, a.nextNs, l), nomem, b.pidMax)
    {
      if l == b.spaces[a.nextNs].level {
        NearestAncestor(b.spaces, a.nextNs);
        OneLeft(b.spaces, a.nextNs, nomem, b.pidMax);
      } else {
        SameAncestor(a, q, b, l);
        NoneIsNone(b.spaces, Ancestor(b.spaces, a.nextNs, l), nomem, b.pidMax);
      }
    }
  }

  lemma OneLeft(s: Spaces, n: NsId, nomem: set<(NsId, int)>, max: int)
    requires n in s && s[n].index == map[] && (n, 1) !in nomem && 1 < max
    ensures !NoneFree(s, n, nomem, max)
  {
    assert Takes(s[n].index, n, nomem, 1);
  }

  /** The ancestors of the new namespace are those of its parent, and nothing in them has changed. */
  lemma SameAncestor(a: State, q: NsId, b: State, l: nat)
    requires Forest(a.spaces) && Forest(b.spaces) && q in a.spaces && l <= a.spaces[q].level && a.nextNs !in a.spaces
    requires a.nextNs in b.spaces && b.spaces[a.nextNs].parent == q && b.spaces[a.nextNs].level == a.spaces[q].level + 1
    requires forall n | n in a.spaces :: n in b.spaces && b.spaces[n].parent == a.spaces[n].parent
                                         && b.spaces[n].level == a.spaces[n].level
                                         && b.spaces[n].index == a.spaces[n].index
    requires a.nextNs != INIT_PID_NS
    ensures Ancestor(b.spaces, a.nextNs, l) == Ancestor(a.spaces, q, l)
    ensures var n := Ancestor(a.spaces, q, l); n in b.spaces && b.spaces[n].index == a.spaces[n].index
  {
    assert Ancestor(b.spaces, a.nextNs, l) == Ancestor(b.spaces, q, l);
    AncestorSame(a.spaces, b.spaces, q, l);
  }

  lemma {:induction false} AncestorSame(s: Spaces, t: Spaces, n: NsId, l: nat)
    requires Forest(s) && Forest(t) && n in s && l <= s[n].level
    requires forall m | m in s :: m in t && t[m].parent == s[m].parent && t[m].level == s[m].level
    ensures n in t && Ancestor(t, n, l) == Ancestor(s, n, l)
    decreases s[n].level
  {
    if l < s[n].level {
      AncestorSame(s, t, s[n].parent, l);
    }
  }

  // ---------------------------------------------------------------- a release, namespace by namespace

  /**
   The pid is seen no more; where it was, its number is free and the counter is that of the pids
   still seen, without the bit that allows adding if there is none.  Told are the reapers of closed
   namespaces with one or two pids left, and proc where none is.
   */
  ghost predicate ForgetsPid(a: State, p: Pid, b: State, wake: set<NsId>, work: set<NsId>) {
    && p in a.pids && p in b.pids && b == a.(spaces := b.spaces, pids := a.pids[p := b.pids[p]])
    && b.pids[p] == a.pids[p].(phase := Unhashed) && b.spaces.Keys == a.spaces.Keys
    && forall n | n in a.spaces :: ForgottenAt(a, p, b, wake, work, n)
  }

  ghost predicate ForgottenAt(a: State, p: Pid, b: State, wake: set<NsId>, work: set<NsId>, n: NsId)
    requires p in a.pids && n in a.spaces && n in b.spaces
  {
    var left := |Visible(b.spaces, b.pids, n)|;
    && Visible(b.spaces, b.pids, n) == Visible(a.spaces, a.pids, n) - {p}
    && if p in Visible(a.spaces, a.pids, n) then
         && b.spaces[n] == a.spaces[n].(
              index := a.spaces[n].index - {PidNrNs(a.spaces, a.pids[p], n)},
              pidAllocated := left + if Adding(a.spaces[n]) && left > 0 then PIDNS_ADDING else 0)
         && (n in wake <==> !Adding(a.spaces[n]) && (left == 1 || left == 2)) && (n in work <==> left == 0)
       else b.spaces[n] == a.spaces[n] && n !in wake && n !in work
  }

  lemma FreeForgets(a: State, p: Pid, b: State)
    requires Sound(a) && Frees(a, p, b)
    ensures ForgetsPid(a, p, b, Those(b.spaces, a.pids[p].numbers, {1, 2}), Those(b.spaces, a.pids[p].numbers, {0}))
  {
    hide Sound, Visible, Those, ForgottenAt, Released;
    forall n | n in a.spaces
      ensures n in b.spaces
           && ForgottenAt(a, p, b, Those(b.spaces, a.pids[p].numbers, {1, 2}), Those(b.spaces, a.pids[p].numbers, {0}),
                          n)
    {
      ForgetsAt(a, p, b, n);
    }
    ReleasedKeys(a, p, b);
  }

  lemma ReleasedKeys(a: State, p: Pid, b: State)
    requires Frees(a, p, b)
    ensures b.spaces.Keys == a.spaces.Keys
  {
  }

  lemma ForgetsAt(a: State, p: Pid, b: State, n: NsId)
    requires Sound(a) && Frees(a, p, b) && n in a.spaces
    ensures n in b.spaces
    ensures ForgottenAt(a, p, b, Those(b.spaces, a.pids[p].numbers, {1, 2}), Those(b.spaces, a.pids[p].numbers, {0}), n)
  {
    hide Sound, Forest, OnChains, Exact, PidRefs, Those, Visible, Frees, PidNrNs, Decremented;
    SoundParts(a);
    FreeOne(a, p, b, n);
    SeenLess(a, p, b, n);
    ToldAt(a, p, b, n, {1, 2});
    ToldAt(a, p, b, n, {0});
    CountSeen(a, n);
    LeftOver(a.spaces[n].pidAllocated, |Visible(a.spaces, a.pids, n)|);
  }

  lemma CountSeen(a: State, n: NsId)
    requires Sound(a) && n in a.spaces
    ensures |Visible(a.spaces, a.pids, n)| < PID_MAX_LIMIT
    ensures a.spaces[n].pidAllocated == |Visible(a.spaces, a.pids, n)| + if Adding(a.spaces[n]) then PIDNS_ADDING else 0
  {
    hide Consistent, Visible, Adding;
    CountIsVisible(a.spaces, a.pids, a.holders, n);
  }

  /** The counter without one of its pids. */
  lemma LeftOver(c: int, seen: int)
    requires 0 <= seen < PID_MAX_LIMIT && c == seen + if c >= PIDNS_ADDING then PIDNS_ADDING else 0
    ensures seen > 0 ==> Decremented(c) == seen - 1 + if c >= PIDNS_ADDING && seen > 1 then PIDNS_ADDING else 0
  {
  }

  lemma FreeOne(a: State, p: Pid, b: State, n: NsId)
    requires Frees(a, p, b) && n in a.spaces
    ensures p in a.pids && a.pids[p].phase == Published && n in b.spaces
    ensures b == a.(spaces := b.spaces, pids := a.pids[p := a.pids[p].(phase := Unhashed)])
    ensures b.spaces[n] ==
              if p in Visible(a.spaces, a.pids, n) then
                a.spaces[n].(index := a.spaces[n].index - {PidNrNs(a.spaces, a.pids[p], n)},
                             pidAllocated := Decremented(a.spaces[n].pidAllocated))
              else a.spaces[n]
  {
    hide Decremented;
  }

  lemma SeenLess(a: State, p: Pid, b: State, n: NsId)
    requires p in a.pids && n in a.spaces && n in b.spaces && b.spaces[n].level == a.spaces[n].level
    requires b.pids == a.pids[p := a.pids[p].(phase := Unhashed)]
    ensures Visible(b.spaces, b.pids, n) == Visible(a.spaces, a.pids, n) - {p}
    ensures p in Visible(a.spaces, a.pids, n) ==> |Visible(b.spaces, b.pids, n)| == |Visible(a.spaces, a.pids, n)| - 1
  {
  }

  lemma ToldAt(a: State, p: Pid, b: State, n: NsId, counts: set<int>)
    requires OnChains(a.spaces, a.pids) && p in a.pids && a.pids[p].phase == Published && n in a.spaces && n in b.spaces
    ensures n in Those(b.spaces, a.pids[p].numbers, counts)
       <==> p in Visible(a.spaces, a.pids, n) && b.spaces[n].pidAllocated in counts
  {
    assert OnChain(a.spaces, a.pids[p]);
    var numbers, l := a.pids[p].numbers, a.spaces[n].level;
    if p in Visible(a.spaces, a.pids, n) {
      assert numbers[l] in numbers && numbers[l].ns == n;
    }
    if u :| u in numbers && u.ns == n {
      var k :| 0 <= k < |numbers| && numbers[k] == u;
    }
  }

  // ---------------------------------------------------------------- who sees a pid

  /**
   A published pid has a number in its namespace and the ancestors of that, and no others: seen
   from anywhere else, its number is 0.
   */
  lemma NumberWhereSeen(a: State, p: Pid, n: NsId)
    requires Sound(a) && p in a.pids && n in a.spaces
    ensures Forest(a.spaces) && 0 < |a.pids[p].numbers|
    ensures var s, r := a.spaces, a.pids[p];
            && Leaf(r) in s
            && var seen := s[n].level <= s[Leaf(r)].level && Ancestor(s, Leaf(r), s[n].level) == n;
               && (!seen ==> PidNrNs(s, r, n) == 0)
               && (seen ==> s[n].level < |r.numbers| && r.numbers[s[n].level] == Upid(PidNrNs(s, r, n), n))
               && (seen && r.phase == Published ==> PidNrNs(s, r, n) > 0)
  {
    hide Hashed, Exact, Counted, Referenced, PidRefs, Ranged;
    var s, r := a.spaces, a.pids[p];
    assert OnChain(s, r);
    var leaf := |r.numbers| - 1;
    ChainIsAncestors(s, r, leaf, leaf);
    if s[n].level <= leaf {
      ChainIsAncestors(s, r, leaf, s[n].level);
      if r.phase == Published {
        PublishedNumber(a, p, s[n].level);
      }
    }
  }

  lemma PublishedNumber(a: State, p: Pid, l: nat)
    requires Sound(a) && p in a.pids && a.pids[p].phase == Published && l < |a.pids[p].numbers|
    ensures a.pids[p].numbers[l].nr > 0
  {
    hide Forest, OnChains, Hashed, Exact, Counted, Referenced, PidRefs, Ranged;
    PublishedAt(a.spaces, a.pids, p, l);
  }

  // ---------------------------------------------------------------- what a count counts

  /** The references to a pid, none if it is gone or yet to come. */
  function Count(a: State, p: Pid): int {
    if p in a.pids then a.pids[p].count else 0
  }

  /** The references to p that one operation takes or drops. */
  function Change(a: State, op: Op, p: Pid): int {
    match op
    case Alloc(_, _, _) => if p == a.nextPid then 1 else 0
    case GetPid(q) => if q == p then 1 else 0
    case PutPid(q) => if q == p then -1 else 0
    case DelayedPut(q) => if q == p then -1 else 0
    case _ => 0
  }

  /** A pid is there exactly as long as references to it are, and counts them. */
  ghost predicate CountsRefs(a: State, op: Op, b: State, p: Pid) {
    && Count(b, p) == Count(a, p) + Change(a, op, p) && (p in b.pids <==> Count(b, p) > 0)
    && (p in b.pids ==>
          && b.pids[p].phase == (if op == Free(p) then Unhashed else if op == DelayedPut(p) then Detached
                                 else if p in a.pids then a.pids[p].phase else Published)
          && (p in a.pids ==> b.pids[p].numbers == a.pids[p].numbers))
  }

  lemma CountStep(a: State, op: Op, b: State, p: Pid)
    requires Sound(a) && Does(a, op, b)
    ensures CountsRefs(a, op, b, p)
  {
    hide Sound, Forest, OnChains, Exact, PidRefs, Allocates, PutsPid, PutsDelayed, FailsToAlloc, Frees, GetsPid,
         CreatesNs,
         GetsNs, PutsNs, Disables, SetsLast, SetsMax;
    SoundParts(a);
    PidsBelow(a);
    match op
    case Alloc(ns, numbers, nomem) => CountAlloc(a, ns, numbers, nomem, b, p);
    case PutPid(q) => CountPut(a, q, b, p);
    case DelayedPut(q) => CountDelayed(a, q, b, p);
    case _ => CountOther(a, op, b, p);
  }

  lemma PidsBelow(a: State)
    requires Sound(a)
    ensures forall p | p in a.pids :: p < a.nextPid
  {
  }

  lemma CountAlloc(a: State, ns: NsId, numbers: seq<Upid>, nomem: set<(NsId, int)>, b: State, p: Pid)
    requires Forest(a.spaces) && PidRefs(a.pids) && Allocates(a, ns, numbers, nomem, b) && a.nextPid !in a.pids
    ensures CountsRefs(a, Alloc(ns, numbers, nomem), b, p)
  {
    hide Forest, Chosen, Stage, Get;
  }

  lemma CountPut(a: State, q: Pid, b: State, p: Pid)
    requires PidRefs(a.pids) && PutsPid(a, q, b)
    ensures CountsRefs(a, PutPid(q), b, p)
  {
    hide Put, Restrict, Leaf;
  }

  lemma CountDelayed(a: State, q: Pid, b: State, p: Pid)
    requires PidRefs(a.pids) && PutsDelayed(a, q, b)
    ensures CountsRefs(a, DelayedPut(q), b, p)
  {
    hide Put, Restrict, Leaf;
  }

  lemma CountOther(a: State, op: Op, b: State, p: Pid)
    requires PidRefs(a.pids) && Does(a, op, b) && !op.Alloc? && !op.PutPid? && !op.DelayedPut?
    ensures CountsRefs(a, op, b, p)
  {
    hide Forest, OnChains, SameButLast, LastAbove, Released, Put, Get, Restrict, NewNs, Disabled;
  }

  /** Taken less dropped, from step i to step j. */
  ghost function Changes(run: seq<State>, ops: seq<Op>, i: nat, j: nat, p: Pid): int
    requires i <= j < |run| == |ops| + 1
  {
    if i == j then 0 else Changes(run, ops, i, j - 1, p) + Change(run[j - 1], ops[j - 1], p)
  }

  /** Along a whole run, the references to a pid are those taken less those dropped. */
  lemma {:induction false} CountInRuns(run: seq<State>, ops: seq<Op>, i: nat, j: nat, p: Pid)
    requires IsRun(run, ops) && i <= j < |run|
    ensures Count(run[j], p) == Count(run[i], p) + Changes(run, ops, i, j, p)
    ensures p in run[j].pids <==> Count(run[i], p) + Changes(run, ops, i, j, p) > 0
    decreases j
  {
    hide Sound, Does, Change, Count;
    RunSound(run, ops, j);
    Counts(run[j], p);
    if i < j {
      CountInRuns(run, ops, i, j - 1, p);
      RunSound(run, ops, j - 1);
      CountStep(run[j - 1], ops[j - 1], run[j], p);
    }
  }

  lemma Counts(a: State, p: Pid)
    requires Sound(a)
    ensures p in a.pids <==> Count(a, p) > 0
  {
    hide Forest, OnChains, Hashed, Exact, Counted, Referenced, Ranged;
  }

  /** The references to namespace n that tasks, files and mounts hold. */
  function Held(a: State, n: NsId): int {
    if n in a.holders then a.holders[n] else 0
  }

  /** Those that one operation takes or drops. */
  function HeldChange(a: State, op: Op, n: NsId): int {
    match op
    case CreateNs(_) => if n == a.nextNs then 1 else 0
    case GetNs(m) => if n == m then 1 else 0
    case PutNs(m) => if n == m then -1 else 0
    case _ => 0
  }

  /** A namespace that is there was there before, or has just been created, and is held as often as taken. */
  lemma HeldStep(a: State, op: Op, b: State, n: NsId)
    requires Sound(a) && Does(a, op, b) && n in b.spaces
    ensures Held(b, n) == Held(a, n) + HeldChange(a, op, n)
    ensures n in a.spaces || (op.CreateNs? && n == a.nextNs)
  {
    hide Sound, Forest, OnChains, Exact, PidRefs, Allocates, PutsPid, PutsDelayed, FailsToAlloc, Frees, GetsPid,
         CreatesNs,
         GetsNs, PutsNs, Disables, SetsLast, SetsMax;
    SoundParts(a);
    match op
    case Alloc(ns, numbers, nomem) => HeldAlloc(a, ns, numbers, nomem, b, n);
    case PutPid(p) => HeldPut(a, p, b, n);
    case DelayedPut(p) => HeldDelayed(a, p, b, n);
    case CreateNs(q) => HeldCreate(a, q, b, n);
    case GetNs(m) => HeldGet(a, m, b, n);
    case PutNs(m) => HeldDrop(a, m, b, n);
    case _ => HeldOther(a, op, b, n);
  }

  lemma HeldAlloc(a: State, ns: NsId, numbers: seq<Upid>, nomem: set<(NsId, int)>, b: State, n: NsId)
    requires Forest(a.spaces) && Allocates(a, ns, numbers, nomem, b) && n in b.spaces
    ensures Held(b, n) == Held(a, n) && n in a.spaces
  {
    StageKeys(a.spaces, numbers, 0, 0, 0, a.nextPid);
    hide Forest, Chosen, Stage;
  }

  lemma HeldPut(a: State, p: Pid, b: State, n: NsId)
    requires PutsPid(a, p, b) && n in b.spaces && a.holders.Keys == a.spaces.Keys
    ensures Held(b, n) == Held(a, n) && n in a.spaces
  {
    hide Put, Leaf;
    if n in Put(a.spaces, Leaf(a.pids[p])) {
      PutCloses(a.spaces, Leaf(a.pids[p]), n);
    }
  }

  lemma HeldDelayed(a: State, p: Pid, b: State, n: NsId)
    requires PutsDelayed(a, p, b) && n in b.spaces && a.holders.Keys == a.spaces.Keys
    ensures Held(b, n) == Held(a, n) && n in a.spaces
  {
    hide Put, Leaf;
    var r := a.pids[p].(phase := Detached);
    if n in Put(a.spaces, Leaf(r)) {
      PutCloses(a.spaces, Leaf(r), n);
    }
  }

  lemma HeldCreate(a: State, q: NsId, b: State, n: NsId)
    requires CreatesNs(a, q, b) && n in b.spaces && a.nextNs !in a.spaces && a.holders.Keys == a.spaces.Keys
    ensures Held(b, n) == Held(a, n) + HeldChange(a, CreateNs(q), n) && (n in a.spaces || n == a.nextNs)
  {
    hide NewNs;
  }

  lemma HeldGet(a: State, m: NsId, b: State, n: NsId)
    requires GetsNs(a, m, b) && n in b.spaces
    ensures Held(b, n) == Held(a, n) + HeldChange(a, GetNs(m), n) && n in a.spaces
  {
  }

  lemma HeldDrop(a: State, m: NsId, b: State, n: NsId)
    requires PutsNs(a, m, b) && n in b.spaces && a.holders.Keys == a.spaces.Keys
    ensures Held(b, n) == Held(a, n) + HeldChange(a, PutNs(m), n) && n in a.spaces
  {
    hide Put;
    PutCloses(a.spaces, m, n);
  }

  lemma HeldOther(a: State, op: Op, b: State, n: NsId)
    requires Does(a, op, b) && n in b.spaces
    requires op.AllocFail? || op.Free? || op.GetPid? || op.Disable? || op.SetLast? || op.SetMax?
    ensures Held(b, n) == Held(a, n) && n in a.spaces
  {
    hide Forest, OnChains, LastAbove, Disabled, ReleasedOf;
  }

  ghost function HeldChanges(run: seq<State>, ops: seq<Op>, i: nat, j: nat, n: NsId): int
    requires i <= j < |run| == |ops| + 1
  {
    if i == j then 0 else HeldChanges(run, ops, i, j - 1, n) + HeldChange(run[j - 1], ops[j - 1], n)
  }

  /** Along a whole run, a namespace still there is held as often as it was, and taken less dropped since. */
  lemma {:induction false} HeldInRuns(run: seq<State>, ops: seq<Op>, i: nat, j: nat, n: NsId)
    requires IsRun(run, ops) && i <= j < |run| && n in run[j].spaces && n in run[i].spaces
    ensures Held(run[j], n) == Held(run[i], n) + HeldChanges(run, ops, i, j, n)
    decreases j
  {
    hide Sound, Does, HeldChange, Held;
    if i < j {
      RunSound(run, ops, j - 1);
      HeldStep(run[j - 1], ops[j - 1], run[j], n);
      NumbersGrow(run, ops, i, j - 1, n);
      HeldInRuns(run, ops, i, j - 1, n);
    }
  }

  /** A namespace that has been there is older than any yet to come. */
  lemma {:induction false} NumbersGrow(run: seq<State>, ops: seq<Op>, i: nat, j: nat, n: NsId)
    requires IsRun(run, ops) && i <= j < |run| && n in run[i].spaces
    ensures n < run[j].nextNs
    decreases j
  {
    hide Sound, Does;
    RunSound(run, ops, i);
    SoundParts(run[i]);
    if i < j {
      NumbersGrow(run, ops, i, j - 1, n);
      RunSound(run, ops, j - 1);
      NumbersStep(run[j - 1], ops[j - 1], run[j]);
    }
  }

  lemma NumbersStep(a: State, op: Op, b: State)
    requires Does(a, op, b)
    ensures b.nextNs >= a.nextNs
  {
    hide Forest, OnChains, Chosen, Stage, Get, SameButLast, LastAbove, Released, Put, Restrict, NewNs, Disabled, Leaf;
  }
}

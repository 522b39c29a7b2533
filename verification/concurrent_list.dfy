/**
 One lock-holding writer and one lock-free reader on the same PID skip list, interleaved.

 The writer makes one shared write per step; its searches read only what it wrote itself, so
 a search is one step.  The reader, a lookup of a fixed number `k`, makes one pointer read per
 step.  Reads and writes are sequentially consistent, and removed nodes stay readable.  Since
 a reader writes nothing, what is proved of one reader holds of any number of them.
 */
module ConcurrentList {
  import opened Options
  import opened Towers

  datatype Writer =
    | Idle
    | Allocating(key: int, pid: Option<Pid>, height: nat, upd: seq<nat>)
    | Copying(x: nat, upd: seq<nat>, i: nat)
    | Linking(x: nat, upd: seq<nat>, i: nat)
    | Unlinking(x: nat, upd: seq<nat>, i: nat)
    | Lowering

  /** Where the lookup is: before reading sl->level, in the loops, at the second read of
      forward[0], at the read of the pid, or done. */
  datatype Reader =
    | Waiting
    | Walking(x: nat, i: nat)
    | Rereading(x: nat)
    | Fetching(z: nat)
    | Returned(v: Option<Pid>)

  /**
   `reach` and `seen` record, from the first step of the lookup to its last, which nodes were
   linked at some level and which values the number `k` stood for.  `squeezed` says whether
   the last write to the first pointer of the reader's node, between the two reads of that
   pointer, put a node below `k` there.
   */
  datatype World = World(s: Shape<nat>, w: Writer, r: Reader,
                         reach: set<nat>, seen: set<Option<Pid>>, squeezed: bool)

  datatype Step =
    | Replace(p: nat, n: nat, pid: Option<Pid>)
    | BeginInsert(key: int, pid: Option<Pid>, height: nat, upd: seq<nat>)
    | AllocFails
    | Alloc(x: nat)
    | Copy
    | LinkOne
    | BeginRemove(n: nat, upd: seq<nat>)
    | UnlinkOne
    | EndUnlink
    | Lower(level: int)
    | Read

  // ---------------------------------------------------------------- the two programs

  /** The outcome of the search for `key` on every level in use. */
  ghost predicate Searched(s: Shape<nat>, key: int, upd: seq<nat>) {
    |upd| == s.level && forall j | 0 <= j < |upd| :: IsPred(s, key, j, upd[j])
  }

  /** What stands at forward[0] of the level-0 predecessor. */
  ghost predicate Behind(s: Shape<nat>, p: nat, r: Option<nat>) {
    p in s.nodes && |s.nodes[p].fwd| > 0 && s.nodes[p].fwd[0] == r
  }

  ghost predicate WriterNext(s: Shape<nat>, w: Writer, st: Step, t: Shape<nat>, v: Writer) {
    match st
    case Replace(p, n, pid) =>
      && w.Idle? && n in s.nodes && IsPred(s, s.nodes[n].key, 0, p) && Behind(s, p, Some(n)) && n != s.header
      && t == SetPid(s, n, pid) && v == Idle
    case BeginInsert(key, pid, height, upd) =>
      && w.Idle? && INT_MIN <= key <= INT_MAX && 1 <= height <= PID_SL_MAX_LEVEL
      && Searched(s, key, upd) && 0 < |upd|
      && (forall n | n in s.nodes && Behind(s, upd[0], Some(n)) :: s.nodes[n].key != key)
      && t == Raised(s, height) && v == Allocating(key, pid, height, Padded(s, upd, height))
    case AllocFails =>
      w.Allocating? && t == s && v == Idle
    case Alloc(x) =>
      && w.Allocating? && x !in s.nodes
      && t == AddTower(s, x, w.key, w.pid, w.height) && v == Copying(x, w.upd, 0)
    case Copy =>
      && w.Copying? && w.i < |w.upd| && w.upd[w.i] in s.nodes && w.x in s.nodes
      && w.i < |s.nodes[w.upd[w.i]].fwd| && w.i < |s.nodes[w.x].fwd|
      && t == CopyForward(s, w.upd[w.i], w.x, w.i) && v == Linking(w.x, w.upd, w.i)
    case LinkOne =>
      && w.Linking? && w.i < |w.upd| && w.upd[w.i] in s.nodes && w.x in s.nodes
      && w.upd[w.i] != w.x && w.i < |s.nodes[w.upd[w.i]].fwd|
      && t == Link(s, w.upd[w.i], w.x, w.i)
      && v == if w.i + 1 < |s.nodes[w.x].fwd| then Copying(w.x, w.upd, w.i + 1) else Idle
    case BeginRemove(n, upd) =>
      && w.Idle? && n in s.nodes && n != s.header && Searched(s, s.nodes[n].key, upd) && 0 < |upd|
      && Behind(s, upd[0], Some(n))
      && t == s && v == Unlinking(n, upd, 0)
    case UnlinkOne =>
      && w.Unlinking? && w.i < s.level && w.i < |w.upd| && w.upd[w.i] in s.nodes && w.x in s.nodes
      && w.upd[w.i] != w.x && w.i < |s.nodes[w.upd[w.i]].fwd| && w.i < |s.nodes[w.x].fwd|
      && s.nodes[w.upd[w.i]].fwd[w.i] == Some(w.x)
      && t == Unlink(s, w.upd[w.i], w.x, w.i) && v == Unlinking(w.x, w.upd, w.i + 1)
    case EndUnlink =>
      && w.Unlinking? && t == s && v == Lowering
      && (w.i < s.level ==>
            && w.i < |w.upd| && w.upd[w.i] in s.nodes && w.i < |s.nodes[w.upd[w.i]].fwd|
            && s.nodes[w.upd[w.i]].fwd[w.i] != Some(w.x))
    case Lower(level) =>
      && w.Lowering? && 1 <= level <= s.level && s.header in s.nodes && |s.nodes[s.header].fwd| >= s.level
      && (forall j | level <= j < s.level :: s.nodes[s.header].fwd[j] == None)
      && (level > 1 ==> s.nodes[s.header].fwd[level - 1] != None)
      && t == SetLevel(s, level) && v == Idle
    case Read => false
  }

  /** One read of the lookup of `k`; `q` is its next position. */
  ghost predicate ReaderNext(k: int, s: Shape<nat>, r: Reader, q: Reader) {
    match r
    case Waiting => 1 <= s.level && q == Walking(s.header, s.level - 1)
    case Walking(x, i) =>
      && x in s.nodes && i < |s.nodes[x].fwd|
      && (match s.nodes[x].fwd[i]
          case Some(y) =>
            y in s.nodes && q == (if s.nodes[y].key < k then Walking(y, i) else Down(x, i))
          case None => q == Down(x, i))
    case Rereading(x) =>
      && x in s.nodes && 0 < |s.nodes[x].fwd|
      && (match s.nodes[x].fwd[0]
          case Some(y) => y in s.nodes && q == (if s.nodes[y].key == k then Fetching(y) else Returned(None))
          case None => q == Returned(None))
    case Fetching(z) => z in s.nodes && q == Returned(s.nodes[z].pid)
    case Returned(_) => false
  }

  function Down(x: nat, i: nat): Reader {
    if i == 0 then Rereading(x) else Walking(x, i - 1)
  }

  // ---------------------------------------------------------------- what is recorded

  ghost function Linkage(s: Shape<nat>): set<nat> {
    set n | n in s.nodes && Active(s, n)
  }

  /** The value of `k` in the abstract map at this instant. */
  ghost function ValueOf(s: Shape<nat>, k: int): Option<Pid> {
    if UniqueKeys(s) then ValueAt(Contents(s), k) else None
  }

  predicate Running(r: Reader) {
    r.Walking? || r.Rereading? || r.Fetching?
  }

  /** The write of this step puts something new behind the node the reader stands on. */
  ghost predicate HitsReader(a: World, st: Step) {
    && a.r.Rereading?
    && ((st.LinkOne? && a.w.Linking? && a.w.i == 0 && |a.w.upd| > 0 && a.w.upd[0] == a.r.x)
        || (st.UnlinkOne? && a.w.Unlinking? && a.w.i == 0 && |a.w.upd| > 0 && a.w.upd[0] == a.r.x))
  }

  /** The first pointer of node x leads to a number below `k`. */
  ghost predicate LeadsBelow(s: Shape<nat>, x: nat, k: int) {
    && x in s.nodes && |s.nodes[x].fwd| > 0 && s.nodes[x].fwd[0].Some?
    && s.nodes[x].fwd[0].value in s.nodes && s.nodes[s.nodes[x].fwd[0].value].key < k
  }

  ghost predicate Next(k: int, a: World, st: Step, b: World) {
    if st.Read? then
      && ReaderNext(k, a.s, a.r, b.r) && b.s == a.s && b.w == a.w
      && (if a.r.Waiting?
          then b.reach == Linkage(a.s) && b.seen == {ValueOf(a.s, k)} && b.squeezed == false
          else b.reach == a.reach && b.seen == a.seen && b.squeezed == a.squeezed)
    else
      && WriterNext(a.s, a.w, st, b.s, b.w) && b.r == a.r
      && (if Running(a.r)
          then && b.reach == a.reach + Linkage(b.s) && b.seen == a.seen + {ValueOf(b.s, k)}
               && b.squeezed == if HitsReader(a, st) then LeadsBelow(b.s, a.r.x, k) else a.squeezed
          else b.reach == a.reach && b.seen == a.seen && b.squeezed == a.squeezed)
  }

  /** An initialised list, an idle writer, and a lookup about to begin. */
  ghost predicate Init(a: World) {
    && a.s == Shape(0, 1, map[0 := Tower(INT_MIN, None, seq(PID_SL_MAX_LEVEL, _ => None), 0, PID_SL_MAX_LEVEL)])
    && a.w == Idle && a.r == Waiting
  }

  ghost predicate IsRun(k: int, run: seq<World>, steps: seq<Step>) {
    && |run| == |steps| + 1 && Init(run[0])
    && forall i | 0 <= i < |steps| :: Next(k, run[i], steps[i], run[i + 1])
  }

  // ---------------------------------------------------------------- the writer keeps the list in shape

  ghost predicate WriterInv(s: Shape<nat>, w: Writer) {
    && Inv(s) && Least(s) == INT_MIN
    && match w
       case Idle => Quiet(s)
       case Allocating(key, pid, height, upd) =>
         && Quiet(s) && key !in Contents(s) && INT_MIN <= key <= INT_MAX
         && 1 <= height <= s.level && |upd| == s.level && Searched(s, key, upd)
       case Copying(x, upd, i) => Inserting(s, x, upd, i) && i < |s.nodes[x].fwd|
       case Linking(x, upd, i) =>
         Inserting(s, x, upd, i) && i < |s.nodes[x].fwd| && CanLink(s, upd[i], x, i)
       case Unlinking(x, upd, i) => Removing(s, x, upd, i)
       case Lowering => Quiet(s)
  }

  /** What one write may do to the nodes a reader might hold. */
  ghost predicate Evolves(s: Shape<nat>, t: Shape<nat>) {
    && t.header == s.header && s.nodes.Keys <= t.nodes.Keys
    && forall n | n in s.nodes ::
         && t.nodes[n].key == s.nodes[n].key && s.nodes[n].hi <= t.nodes[n].hi
         && (t.nodes[n].pid == s.nodes[n].pid || Linked(t, n, 0))
         && (Active(t, n) || s.nodes[n].hi == 0
             || (t.nodes[n].fwd == s.nodes[n].fwd && t.nodes[n].hi == s.nodes[n].hi))
  }

  /** How one write changes the abstract map: only the writes at level 0 and of a pid count. */
  ghost function Effect(m: map<int, Option<Pid>>, s: Shape<nat>, w: Writer, st: Step): map<int, Option<Pid>> {
    if st.Replace? && st.n in s.nodes then m[s.nodes[st.n].key := st.pid]
    else if st.LinkOne? && w.Linking? && w.i == 0 && w.x in s.nodes then m[s.nodes[w.x].key := s.nodes[w.x].pid]
    else if st.UnlinkOne? && w.Unlinking? && w.i == 0 && w.x in s.nodes then m - {s.nodes[w.x].key}
    else m
  }

  ghost predicate StepGood(s: Shape<nat>, w: Writer, st: Step, t: Shape<nat>, v: Writer)
    requires Inv(s)
  {
    WriterInv(t, v) && Evolves(s, t) && Contents(t) == Effect(Contents(s), s, w, st)
  }

  lemma ReplaceStep(s: Shape<nat>, w: Writer, st: Step, t: Shape<nat>, v: Writer)
    requires WriterInv(s, w) && st.Replace? && WriterNext(s, w, st, t, v)
    ensures StepGood(s, w, st, t, v)
  {
    hide Contents, IsSucc, Chained, UniqueKeys;
    assert Active(s, st.p);
    SuccAt(s, st.p, 0);
    BehindLinked(s, Pos(s, st.p), st.n);
    SetPidInv(s, st.n, st.pid);
    SetPidContents(s, st.n, st.pid);
  }

  lemma BehindLinked(s: Shape<nat>, p: int, n: nat)
    requires IsSucc(s, p, 0, Some(n))
    ensures Linked(s, n, 0)
  {
  }

  lemma BeginInsertStep(s: Shape<nat>, w: Writer, st: Step, t: Shape<nat>, v: Writer)
    requires WriterInv(s, w) && st.BeginInsert? && WriterNext(s, w, st, t, v)
    ensures StepGood(s, w, st, t, v)
  {
    hide Contents, IsSucc, Chained, UniqueKeys, IsPred;
    RaiseKeeps(s, st.height);
    PredFinds(s, st.key, st.upd[0]);
    PredInside(s, st.key, st.upd[0]);
    var q := Padded(s, st.upd, st.height);
    forall j | 0 <= j < |q|
      ensures IsPred(t, st.key, j, q[j])
    {
      PaddedPred(s, st.key, st.upd, st.height, j);
      SameChainPred(s, t, st.key, j, q[j]);
    }
  }

  lemma PredInside(s: Shape<nat>, key: int, p: nat)
    requires Inv(s) && IsPred(s, key, 0, p)
    ensures p in s.nodes && |s.nodes[p].fwd| > 0 && Behind(s, p, s.nodes[p].fwd[0])
    ensures forall n :: Some(n) == s.nodes[p].fwd[0] ==> Behind(s, p, Some(n))
  {
  }

  lemma AllocStep(s: Shape<nat>, w: Writer, st: Step, t: Shape<nat>, v: Writer)
    requires WriterInv(s, w) && st.Alloc? && WriterNext(s, w, st, t, v)
    ensures StepGood(s, w, st, t, v)
  {
    hide Contents, IsSucc, Chained, UniqueKeys, IsPred, Inserting, Capped;
    assert Raised(s, w.height) == s && Padded(s, w.upd, w.height) == w.upd;
    ReadyToInsert(s, st.x, w.key, w.pid, w.height, w.upd);
    InsertingInv(t, st.x, w.upd, 0);
  }

  lemma InsertingInv(s: Shape<nat>, x: nat, upd: seq<nat>, i: nat)
    requires Inserting(s, x, upd, i)
    ensures Inv(s) && x in s.nodes && s.nodes[x].hi == i <= |s.nodes[x].fwd| && s.nodes[x].lo == 0
    ensures i < |s.nodes[x].fwd| ==> i < |upd|
    ensures i == |s.nodes[x].fwd| ==> Quiet(s)
  {
  }

  lemma CopyingStep(s: Shape<nat>, w: Writer, st: Step, t: Shape<nat>, v: Writer)
    requires WriterInv(s, w) && st.Copy? && WriterNext(s, w, st, t, v)
    ensures StepGood(s, w, st, t, v)
  {
    hide Contents, IsSucc, WellSized, Chained, UniqueKeys, Capped, IsPred, Inserting, CanLink;
    InsertingInv(s, w.x, w.upd, w.i);
    CopyStep(s, w.x, w.upd, w.i);
    InsertingInv(t, w.x, w.upd, w.i);
  }

  lemma LinkingStep(s: Shape<nat>, w: Writer, st: Step, t: Shape<nat>, v: Writer)
    requires WriterInv(s, w) && st.LinkOne? && WriterNext(s, w, st, t, v)
    ensures StepGood(s, w, st, t, v)
  {
    hide Contents, IsSucc, WellSized, Chained, UniqueKeys, Capped, IsPred, Inserting, CanLink;
    InsertingInv(s, w.x, w.upd, w.i);
    PredActive(s, w.upd[w.i], w.x, w.i);
    LinkStep(s, w.x, w.upd, w.i);
    InsertingInv(t, w.x, w.upd, w.i + 1);
  }

  lemma PredActive(s: Shape<nat>, p: nat, x: nat, i: nat)
    requires CanLink(s, p, x, i)
    ensures Active(s, p) && p in s.nodes && x in s.nodes && s.header in s.nodes && s.nodes[x].key >= Least(s)
  {
  }

  lemma BeginRemoveStep(s: Shape<nat>, w: Writer, st: Step, t: Shape<nat>, v: Writer)
    requires WriterInv(s, w) && st.BeginRemove? && WriterNext(s, w, st, t, v)
    ensures StepGood(s, w, st, t, v)
  {
    hide Contents, IsSucc, Chained, UniqueKeys;
    assert IsPred(s, s.nodes[st.n].key, 0, st.upd[0]);
    assert Active(s, st.upd[0]);
    SuccAt(s, st.upd[0], 0);
    BehindLinked(s, Pos(s, st.upd[0]), st.n);
    RemovingStart(s, st.n, st.upd);
  }

  lemma UnlinkingStep(s: Shape<nat>, w: Writer, st: Step, t: Shape<nat>, v: Writer)
    requires WriterInv(s, w) && st.UnlinkOne? && WriterNext(s, w, st, t, v)
    ensures StepGood(s, w, st, t, v)
  {
    hide Contents, IsSucc, Chained, UniqueKeys, Capped, IsPred;
    StillPointedTo(s, w.x, w.upd, w.i);
    UnlinkStep(s, w.x, w.upd, w.i);
    RemovingPred(s, w.x, w.upd, w.i);
  }

  lemma RemovingPred(s: Shape<nat>, x: nat, upd: seq<nat>, i: nat)
    requires Removing(s, x, upd, i) && i < s.level
    ensures Active(s, upd[i])
  {
    assert IsPred(s, s.nodes[x].key, i, upd[i]);
  }

  lemma EndUnlinkStep(s: Shape<nat>, w: Writer, st: Step, t: Shape<nat>, v: Writer)
    requires WriterInv(s, w) && st.EndUnlink? && WriterNext(s, w, st, t, v)
    ensures StepGood(s, w, st, t, v)
  {
    hide Contents, IsSucc, Chained, UniqueKeys, Capped, IsPred;
    if w.i < s.level { StillPointedTo(s, w.x, w.upd, w.i); }
    RemovingDone(s, w.x, w.upd, w.i);
  }

  lemma LowerStep(s: Shape<nat>, w: Writer, st: Step, t: Shape<nat>, v: Writer)
    requires WriterInv(s, w) && st.Lower? && WriterNext(s, w, st, t, v)
    ensures StepGood(s, w, st, t, v)
  {
    hide Contents, IsSucc, Chained, UniqueKeys, Capped;
    LowerKeeps(s, st.level);
  }

  /**
   Every write keeps the chains sorted and complete, and the abstract map changes at exactly
   three writes: the first link of a new node, the first unlink of a removed one, and the
   replacement of a pid.
   */
  lemma WriterStep(s: Shape<nat>, w: Writer, st: Step, t: Shape<nat>, v: Writer)
    requires WriterInv(s, w) && WriterNext(s, w, st, t, v)
    ensures WriterInv(t, v) && Evolves(s, t) && Contents(t) == Effect(Contents(s), s, w, st)
  {
    hide WriterInv, Evolves, Effect;
    match st
    case Replace(_, _, _) => ReplaceStep(s, w, st, t, v);
    case BeginInsert(_, _, _, _) => BeginInsertStep(s, w, st, t, v);
    case AllocFails => AllocFailsStep(s, w, st, t, v);
    case Alloc(_) => AllocStep(s, w, st, t, v);
    case Copy => CopyingStep(s, w, st, t, v);
    case LinkOne => LinkingStep(s, w, st, t, v);
    case BeginRemove(_, _) => BeginRemoveStep(s, w, st, t, v);
    case UnlinkOne => UnlinkingStep(s, w, st, t, v);
    case EndUnlink => EndUnlinkStep(s, w, st, t, v);
    case Lower(_) => LowerStep(s, w, st, t, v);
    case Read =>
  }

  lemma AllocFailsStep(s: Shape<nat>, w: Writer, st: Step, t: Shape<nat>, v: Writer)
    requires WriterInv(s, w) && st.AllocFails? && WriterNext(s, w, st, t, v)
    ensures StepGood(s, w, st, t, v)
  {
    hide Contents, IsSucc, Chained, UniqueKeys, IsPred;
  }

  // ---------------------------------------------------------------- what the reader may rely on

  /** From a node that was linked during the lookup, every pointer leads on, to another such node. */
  ghost predicate LeadsOn(s: Shape<nat>, reach: set<nat>, n: nat, i: nat)
    requires n in s.nodes && i < |s.nodes[n].fwd|
  {
    match s.nodes[n].fwd[i]
    case None => true
    case Some(y) => y in s.nodes && y in reach && Pos(s, n) < Pos(s, y) && i < s.nodes[y].hi
  }

  ghost predicate ReachInv(s: Shape<nat>, reach: set<nat>) {
    && WellSized(s) && s.header in reach
    && (forall n | n in reach :: n in s.nodes && 0 < s.nodes[n].hi)
    && (forall n | n in s.nodes && Active(s, n) :: n in reach)
    && (forall n, i | n in reach && 0 <= i < s.nodes[n].hi :: LeadsOn(s, reach, n, i))
  }

  /** The first pointer of node n leads to a node not past `k`. */
  ghost predicate StopsShort(s: Shape<nat>, n: nat, k: int) {
    && n in s.nodes && |s.nodes[n].fwd| > 0 && s.nodes[n].fwd[0].Some?
    && s.nodes[n].fwd[0].value in s.nodes && Pos(s, s.nodes[n].fwd[0].value) <= k
  }

  /** If the first pointer of node n leads to a node of key `k`, the pid there is on record. */
  ghost predicate OnRecord(s: Shape<nat>, n: nat, k: int, seen: set<Option<Pid>>) {
    forall y | y in s.nodes && Behind(s, n, Some(y)) && y != s.header && s.nodes[y].key == k ::
      s.nodes[y].pid in seen
  }

  /** While `k` stands for a pid, no node before `k` leads past it, not even a removed one. */
  ghost predicate NeverPast(s: Shape<nat>, reach: set<nat>, k: int) {
    forall n | n in reach && n in s.nodes && Pos(s, n) < k :: StopsShort(s, n, k)
  }

  /** Whoever still leads to a node of key `k` leads to a value that `k` stood for. */
  ghost predicate OnlySeen(s: Shape<nat>, reach: set<nat>, k: int, seen: set<Option<Pid>>) {
    forall n | n in reach && n in s.nodes :: OnRecord(s, n, k, seen)
  }

  ghost predicate HistoryInv(k: int, s: Shape<nat>, reach: set<nat>, seen: set<Option<Pid>>) {
    && ReachInv(s, reach) && OnlySeen(s, reach, k, seen)
    && (None !in seen ==> NeverPast(s, reach, k))
  }

  /** The reader stands on a node before `k` at a level at which that node has been linked. */
  ghost predicate Standing(k: int, s: Shape<nat>, reach: set<nat>, x: nat, i: nat) {
    x in reach && x in s.nodes && Pos(s, x) < k && i < s.nodes[x].hi
  }

  ghost predicate ReaderInv(k: int, a: World) {
    match a.r
    case Waiting => true
    case Walking(x, i) => HistoryInv(k, a.s, a.reach, a.seen) && Standing(k, a.s, a.reach, x, i) && !a.squeezed
    case Rereading(x) =>
      && HistoryInv(k, a.s, a.reach, a.seen) && Standing(k, a.s, a.reach, x, 0)
      && (a.squeezed <==> LeadsBelow(a.s, x, k))
    case Fetching(z) =>
      && HistoryInv(k, a.s, a.reach, a.seen) && !a.squeezed
      && z in a.s.nodes && z != a.s.header && a.s.nodes[z].key == k && a.s.nodes[z].pid in a.seen
    case Returned(v) => if a.squeezed then v == None else v in a.seen
  }

  ghost predicate WorldInv(k: int, a: World) {
    WriterInv(a.s, a.w) && ReaderInv(k, a)
  }

  // ---------------------------------------------------------------- the record stays good

  /** Linked nodes lead on because the chains are right. */
  lemma ActiveLeadsOn(t: Shape<nat>, reach: set<nat>, n: nat, i: nat)
    requires Inv(t) && Linkage(t) <= reach && Active(t, n) && i < t.nodes[n].hi
    ensures LeadsOn(t, reach, n, i)
  {
    hide UniqueKeys;
    SuccAt(t, n, i);
    match t.nodes[n].fwd[i]
    case None =>
    case Some(y) =>
      assert Linked(t, y, i) && Active(t, y);
      assert y in Linkage(t);
  }

  lemma ReachKeeps(s: Shape<nat>, t: Shape<nat>, reach: set<nat>)
    requires Inv(t) && Evolves(s, t) && ReachInv(s, reach)
    ensures ReachInv(t, reach + Linkage(t))
  {
    hide Chained, UniqueKeys, Capped;
    var g := reach + Linkage(t);
    HeaderActive(t);
    forall n, i | n in g && 0 <= i < t.nodes[n].hi
      ensures LeadsOn(t, g, n, i)
    {
      if Active(t, n) {
        ActiveLeadsOn(t, g, n, i);
      } else {
        assert LeadsOn(s, reach, n, i);
      }
    }
  }

  lemma HeaderActive(t: Shape<nat>)
    requires Inv(t)
    ensures Active(t, t.header) && t.header in Linkage(t)
  {
  }

  lemma NeverPastKeeps(k: int, s: Shape<nat>, t: Shape<nat>, reach: set<nat>)
    requires Inv(t) && Evolves(s, t) && ReachInv(s, reach)
    requires NeverPast(s, reach, k) && ValueOf(t, k) != None
    ensures NeverPast(t, reach + Linkage(t), k)
  {
    hide Chained, UniqueKeys, Capped, Contents;
    var g := reach + Linkage(t);
    forall n | n in g && n in t.nodes && Pos(t, n) < k
      ensures StopsShort(t, n, k)
    {
      if Active(t, n) {
        NotPast(t, n, k);
      } else {
        assert LeadsOn(s, reach, n, 0) && StopsShort(s, n, k);
      }
    }
  }

  lemma NotPast(t: Shape<nat>, n: nat, k: int)
    requires Inv(t) && Active(t, n) && Pos(t, n) < k && ValueOf(t, k) != None
    ensures StopsShort(t, n, k)
  {
    var z := ContentsHolder(t, k);
    SuccAt(t, n, 0);
  }

  lemma OnlySeenKeeps(k: int, s: Shape<nat>, t: Shape<nat>, reach: set<nat>, seen: set<Option<Pid>>)
    requires Inv(t) && Evolves(s, t) && ReachInv(s, reach) && OnlySeen(s, reach, k, seen)
    ensures OnlySeen(t, reach + Linkage(t), k, seen + {ValueOf(t, k)})
  {
    hide Chained, UniqueKeys, Capped, Contents;
    var g := reach + Linkage(t);
    forall n, y | n in g && n in t.nodes && y in t.nodes && Behind(t, n, Some(y)) && y != t.header
      && t.nodes[y].key == k
      ensures t.nodes[y].pid in seen + {ValueOf(t, k)}
    {
      if Active(t, n) {
        LedToLinked(t, n, y);
        CurrentValue(t, y, k);
      } else if Linked(t, y, 0) {
        CurrentValue(t, y, k);
      } else {
        assert LeadsOn(s, reach, n, 0) && OnRecord(s, n, k, seen) && Behind(s, n, Some(y));
      }
    }
  }

  lemma LedToLinked(t: Shape<nat>, n: nat, y: nat)
    requires Inv(t) && Active(t, n) && Behind(t, n, Some(y))
    ensures Linked(t, y, 0)
  {
    SuccAt(t, n, 0);
  }

  lemma CurrentValue(t: Shape<nat>, y: nat, k: int)
    requires Inv(t) && Linked(t, y, 0) && y != t.header && t.nodes[y].key == k
    ensures ValueOf(t, k) == t.nodes[y].pid
  {
    ContentsAt(t, y);
  }

  lemma HistoryKeeps(k: int, s: Shape<nat>, t: Shape<nat>, reach: set<nat>, seen: set<Option<Pid>>)
    requires Inv(t) && Evolves(s, t) && HistoryInv(k, s, reach, seen)
    ensures HistoryInv(k, t, reach + Linkage(t), seen + {ValueOf(t, k)})
  {
    hide Inv, ReachInv, NeverPast, OnlySeen;
    ReachKeeps(s, t, reach);
    OnlySeenKeeps(k, s, t, reach, seen);
    if None !in seen + {ValueOf(t, k)} {
      NeverPastKeeps(k, s, t, reach);
    }
  }

  /** At its first step the lookup sees the list as it is. */
  lemma HistoryStarts(k: int, s: Shape<nat>)
    requires Inv(s)
    ensures HistoryInv(k, s, Linkage(s), {ValueOf(s, k)})
  {
    hide Chained, UniqueKeys, Capped, Contents;
    var g := Linkage(s);
    HeaderActive(s);
    forall n, i | n in g && 0 <= i < s.nodes[n].hi
      ensures LeadsOn(s, g, n, i)
    {
      ActiveLeadsOn(s, g, n, i);
    }
    forall n, y | n in g && n in s.nodes && y in s.nodes && Behind(s, n, Some(y)) && y != s.header
      && s.nodes[y].key == k
      ensures s.nodes[y].pid in {ValueOf(s, k)}
    {
      LedToLinked(s, n, y);
      CurrentValue(s, y, k);
    }
    if ValueOf(s, k) != None {
      forall n | n in g && n in s.nodes && Pos(s, n) < k
        ensures StopsShort(s, n, k)
      {
        NotPast(s, n, k);
      }
    }
  }

  // ---------------------------------------------------------------- every step keeps the invariant

  /** Only a level-0 write behind the reader's own node changes what the reader reads there. */
  lemma FirstPointerKept(a: World, st: Step, t: Shape<nat>, v: Writer, x: nat)
    requires WriterInv(a.s, a.w) && WriterNext(a.s, a.w, st, t, v)
    requires a.r == Rereading(x) && x in a.s.nodes && 0 < a.s.nodes[x].hi <= |a.s.nodes[x].fwd|
    requires !HitsReader(a, st)
    ensures x in t.nodes && |t.nodes[x].fwd| > 0 && t.nodes[x].fwd[0] == a.s.nodes[x].fwd[0]
  {
    hide Inv, Contents, IsPred, Quiet, CanLink;
  }

  lemma BelowKept(s: Shape<nat>, t: Shape<nat>, reach: set<nat>, x: nat, k: int)
    requires ReachInv(s, reach) && Evolves(s, t) && x in reach
    requires x in t.nodes && |t.nodes[x].fwd| > 0 && t.nodes[x].fwd[0] == s.nodes[x].fwd[0]
    ensures LeadsBelow(s, x, k) <==> LeadsBelow(t, x, k)
  {
    assert LeadsOn(s, reach, x, 0);
  }

  lemma ReaderUndisturbed(k: int, a: World, st: Step, b: World)
    requires WorldInv(k, a) && Next(k, a, st, b) && !st.Read?
    ensures ReaderInv(k, b)
  {
    hide Inv, HistoryInv, ReachInv, WriterInv, WriterNext, Evolves, HitsReader;
    WriterStep(a.s, a.w, st, b.s, b.w);
    ShapeInv(a.s, a.w);
    ShapeInv(b.s, b.w);
    if Running(a.r) {
      HistoryKeeps(k, a.s, b.s, a.reach, a.seen);
      match a.r
      case Walking(x, i) =>
        StandingKept(k, a.s, b.s, a.reach, b.reach, x, i);
        NotHit(a, st);
      case Rereading(x) =>
        StandingKept(k, a.s, b.s, a.reach, b.reach, x, 0);
        if !HitsReader(a, st) {
          HistoryParts(k, a.s, a.reach, a.seen);
          FirstPointerKept(a, st, b.s, b.w, x);
          BelowKept(a.s, b.s, a.reach, x, k);
        }
      case Fetching(z) =>
        FetchKept(a.s, b.s, z, k);
        NotHit(a, st);
    }
  }

  lemma ShapeInv(s: Shape<nat>, w: Writer)
    requires WriterInv(s, w)
    ensures Inv(s) && Least(s) == INT_MIN
  {
  }

  lemma HistoryParts(k: int, s: Shape<nat>, reach: set<nat>, seen: set<Option<Pid>>)
    requires HistoryInv(k, s, reach, seen)
    ensures ReachInv(s, reach) && forall n | n in reach :: n in s.nodes && 0 < s.nodes[n].hi <= |s.nodes[n].fwd|
  {
  }

  lemma NotHit(a: World, st: Step)
    requires !a.r.Rereading?
    ensures !HitsReader(a, st)
  {
  }

  lemma StandingKept(k: int, s: Shape<nat>, t: Shape<nat>, reach: set<nat>, g: set<nat>, x: nat, i: nat)
    requires Standing(k, s, reach, x, i) && Evolves(s, t) && reach <= g
    ensures Standing(k, t, g, x, i)
  {
  }

  lemma FetchKept(s: Shape<nat>, t: Shape<nat>, z: nat, k: int)
    requires Inv(t) && Evolves(s, t) && z in s.nodes && z != s.header && s.nodes[z].key == k
    ensures z in t.nodes && z != t.header && t.nodes[z].key == k
    ensures t.nodes[z].pid == s.nodes[z].pid || t.nodes[z].pid == ValueOf(t, k)
  {
    hide Inv;
    if Linked(t, z, 0) { CurrentValue(t, z, k); }
  }

  /** Following a pointer leads to a node, not the header, that lies further on. */
  lemma PointerGood(k: int, s: Shape<nat>, reach: set<nat>, seen: set<Option<Pid>>, x: nat, i: nat)
    requires HistoryInv(k, s, reach, seen) && x in reach && i < s.nodes[x].hi
    ensures i < |s.nodes[x].fwd|
    ensures s.nodes[x].fwd[i].Some? ==>
              var y := s.nodes[x].fwd[i].value;
              y in reach && y in s.nodes && y != s.header && Pos(s, x) < Pos(s, y) == s.nodes[y].key
                && i < s.nodes[y].hi
  {
    assert LeadsOn(s, reach, x, i);
    HeaderFirst(s, x);
  }

  lemma ReadKeeps(k: int, a: World, b: World)
    requires INT_MIN <= k && WorldInv(k, a) && Next(k, a, Read, b)
    ensures ReaderInv(k, b)
  {
    hide Inv, HistoryInv, WriterInv;
    match a.r
    case Waiting =>
      ShapeInv(a.s, a.w);
      HistoryStarts(k, a.s);
      StartsStanding(k, a);
    case Walking(x, i) => PointerGood(k, a.s, a.reach, a.seen, x, i);
    case Rereading(x) =>
      PointerGood(k, a.s, a.reach, a.seen, x, 0);
      RereadKeeps(k, a, b, x);
    case Fetching(z) =>
    case Returned(_) =>
  }

  lemma StartsStanding(k: int, a: World)
    requires Inv(a.s) && Least(a.s) <= k
    ensures 1 <= a.s.level <= PID_SL_MAX_LEVEL
    ensures Standing(k, a.s, Linkage(a.s), a.s.header, a.s.level - 1)
  {
  }

  lemma RereadKeeps(k: int, a: World, b: World, x: nat)
    requires ReaderInv(k, a) && a.r == Rereading(x) && ReaderNext(k, a.s, a.r, b.r)
    requires b.s == a.s && b.reach == a.reach && b.seen == a.seen && b.squeezed == a.squeezed
    ensures ReaderInv(k, b)
  {
    PointerGood(k, a.s, a.reach, a.seen, x, 0);
    assert None !in a.seen ==> StopsShort(a.s, x, k);
    if b.r.Fetching? {
      assert OnRecord(a.s, x, k, a.seen) && Behind(a.s, x, Some(b.r.z));
    }
  }

  lemma StepKeeps(k: int, a: World, st: Step, b: World)
    requires INT_MIN <= k && WorldInv(k, a) && Next(k, a, st, b)
    ensures WorldInv(k, b)
  {
    hide WriterInv, ReaderInv;
    if st.Read? {
      ReadKeeps(k, a, b);
    } else {
      WriterStep(a.s, a.w, st, b.s, b.w);
      ReaderUndisturbed(k, a, st, b);
    }
  }

  lemma InitInv(k: int, a: World)
    requires Init(a)
    ensures WorldInv(k, a)
  {
  }

  lemma {:induction false} RunInv(k: int, run: seq<World>, steps: seq<Step>, i: nat)
    requires INT_MIN <= k && IsRun(k, run, steps) && i < |run|
    ensures WorldInv(k, run[i])
  {
    hide WorldInv, Next, Init;
    if i == 0 {
      InitInv(k, run[0]);
    } else {
      RunInv(k, run, steps, i - 1);
      StepKeeps(k, run[i - 1], steps[i - 1], run[i]);
    }
  }

  // ---------------------------------------------------------------- what a lookup returns

  /** `v` is what `k` stood for at some instant while the lookup was under way. */
  ghost predicate StoodFor(k: int, run: seq<World>, i: nat, v: Option<Pid>)
    requires i < |run|
  {
    exists j :: 0 <= j <= i && Running(run[j].r) && ValueOf(run[j].s, k) == v
  }

  lemma {:induction false} SeenIsHistory(k: int, run: seq<World>, steps: seq<Step>, i: nat, v: Option<Pid>)
    requires INT_MIN <= k && IsRun(k, run, steps) && i < |run|
    ensures run[i].r.Waiting? ==> !StoodFor(k, run, i, v)
    ensures !run[i].r.Waiting? ==> (v in run[i].seen <==> StoodFor(k, run, i, v))
  {
    hide ValueOf, WriterNext, ReaderNext, Linkage, HitsReader, LeadsBelow;
    if i > 0 {
      SeenIsHistory(k, run, steps, i - 1, v);
      var a, b := run[i - 1], run[i];
      assert Next(k, a, steps[i - 1], b);
      ReaderMoves(k, a, steps[i - 1], b);
      assert StoodFor(k, run, i, v) <==>
             StoodFor(k, run, i - 1, v) || (Running(b.r) && ValueOf(b.s, k) == v);
      if steps[i - 1].Read? && !a.r.Waiting? && ValueOf(a.s, k) == v {
        assert StoodFor(k, run, i - 1, v);
      }
    }
  }

  lemma ReaderMoves(k: int, a: World, st: Step, b: World)
    requires Next(k, a, st, b)
    ensures a.r.Returned? ==> b.r == a.r && !st.Read?
    ensures b.r.Waiting? ==> a.r.Waiting?
    ensures a.r.Waiting? && !b.r.Waiting? ==> st.Read? && Running(b.r)
    ensures st.Read? && !a.r.Waiting? ==> Running(a.r)
  {
  }

  /** A step that links a node below `k` right behind the node at which the reader has stopped. */
  ghost predicate Squeezes(k: int, a: World, st: Step) {
    && st.LinkOne? && HitsReader(a, st)
    && a.w.x in a.s.nodes && a.s.nodes[a.w.x].key < k
  }

  /** Only such a step makes the first pointer of the reader's node lead to a number below `k`. */
  lemma SqueezedBy(k: int, a: World, st: Step, t: Shape<nat>, v: Writer)
    requires WriterInv(a.s, a.w) && WriterNext(a.s, a.w, st, t, v)
    requires a.r.Rereading? && ReachInv(a.s, a.reach) && a.r.x in a.reach
    requires LeadsBelow(t, a.r.x, k) && !LeadsBelow(a.s, a.r.x, k)
    ensures Squeezes(k, a, st)
  {
    hide Inv, WriterInv, ReachInv, Evolves, Contents, LeadsBelow;
    ReachTall(a.s, a.reach, a.r.x);
    if HitsReader(a, st) {
      HitHow(k, a, st, t, v);
    } else {
      WriterStep(a.s, a.w, st, t, v);
      FirstPointerKept(a, st, t, v, a.r.x);
      BelowKept(a.s, t, a.reach, a.r.x, k);
    }
  }

  lemma ReachTall(s: Shape<nat>, reach: set<nat>, x: nat)
    requires ReachInv(s, reach) && x in reach
    ensures x in s.nodes && 0 < s.nodes[x].hi <= |s.nodes[x].fwd|
  {
  }

  lemma HitHow(k: int, a: World, st: Step, t: Shape<nat>, v: Writer)
    requires WriterInv(a.s, a.w) && WriterNext(a.s, a.w, st, t, v) && HitsReader(a, st)
    requires LeadsBelow(t, a.r.x, k) && !LeadsBelow(a.s, a.r.x, k)
    ensures Squeezes(k, a, st)
  {
    hide WriterInv;
    if st.UnlinkOne? {
      UnlinkNeverSqueezes(k, a.s, a.w, a.r.x);
    }
  }

  lemma SqueezeStarts(k: int, a: World, st: Step, b: World)
    requires INT_MIN <= k && WorldInv(k, a) && Next(k, a, st, b) && !a.r.Waiting? && !a.squeezed && b.squeezed
    ensures Squeezes(k, a, st)
  {
    hide Inv, IsPred, Quiet, CanLink, HistoryInv, Contents, Removing;
    assert !st.Read? && HitsReader(a, st) && LeadsBelow(b.s, a.r.x, k);
    if st.UnlinkOne? {
      UnlinkNeverSqueezes(k, a.s, a.w, a.r.x);
    }
  }

  lemma UnlinkNeverSqueezes(k: int, s: Shape<nat>, w: Writer, x: nat)
    requires WriterInv(s, w) && w.Unlinking? && w.i == 0 && |w.upd| > 0 && w.upd[0] == x && x in s.nodes
    requires w.x in s.nodes && w.x != x && |s.nodes[x].fwd| > 0 && |s.nodes[w.x].fwd| > 0
    requires s.nodes[x].fwd[0] == Some(w.x) && !LeadsBelow(s, x, k)
    ensures !LeadsBelow(Unlink(s, x, w.x, 0), x, k)
  {
    hide UniqueKeys, Capped, IsPred, Settled;
    SuccAt(s, w.x, 0);
    match s.nodes[w.x].fwd[0]
    case None =>
    case Some(y) => assert Linked(s, y, 0); HeaderFirst(s, w.x);
  }

  lemma {:induction false} SqueezedHow(k: int, run: seq<World>, steps: seq<Step>, i: nat)
    requires INT_MIN <= k && IsRun(k, run, steps) && i < |run| && !run[i].r.Waiting? && run[i].squeezed
    ensures exists j :: 0 <= j < i && Squeezes(k, run[j], steps[j])
  {
    hide WorldInv, Squeezes, WriterNext, ReaderNext, HitsReader;
    if i > 0 {
      var a, b := run[i - 1], run[i];
      assert Next(k, a, steps[i - 1], b);
      ReaderMoves(k, a, steps[i - 1], b);
      RunInv(k, run, steps, i - 1);
      if !a.r.Waiting? {
        if a.squeezed {
          SqueezedHow(k, run, steps, i - 1);
        } else {
          SqueezeStarts(k, a, steps[i - 1], b);
        }
      }
    } else {
      InitWaits(run[0]);
    }
  }

  lemma InitWaits(a: World)
    requires Init(a)
    ensures a.r.Waiting?
  {
  }

  /**
   The lookup against every interleaving.  Its result is what the number stood for at some
   instant of the lookup, except in exactly one case: the last level-0 write behind the
   reader's node before the second read of forward[0] put a smaller number there, and the
   number looked for stood for a pid all along.  Then the lookup gives NULL.
   */
  lemma LookupLinearizes(k: int, run: seq<World>, steps: seq<Step>, i: nat)
    requires INT_MIN <= k && IsRun(k, run, steps) && i < |run| && run[i].r.Returned?
    ensures StoodFor(k, run, i, run[i].r.v) <==> !(run[i].squeezed && !StoodFor(k, run, i, None))
    ensures run[i].squeezed ==> run[i].r.v == None
    ensures run[i].squeezed ==> exists j :: 0 <= j < i && Squeezes(k, run[j], steps[j])
  {
    hide WriterInv, StoodFor;
    RunInv(k, run, steps, i);
    SeenIsHistory(k, run, steps, i, run[i].r.v);
    SeenIsHistory(k, run, steps, i, None);
    if run[i].squeezed { SqueezedHow(k, run, steps, i); }
  }

  ghost predicate LinksBelow(k: int, a: World, st: Step) {
    st.LinkOne? && a.w.Linking? && a.w.x in a.s.nodes && a.s.nodes[a.w.x].key < k
  }

  /**
   What a caller can arrange: if no number below `k` is inserted while the lookup is under
   way, a lookup of a number that stood for a pid all along returns one of its pids, and a
   lookup of a number that was never there returns NULL.
   */
  lemma LookupWithoutSmallerInserts(k: int, run: seq<World>, steps: seq<Step>, i: nat)
    requires INT_MIN <= k && IsRun(k, run, steps) && i < |run| && run[i].r.Returned?
    requires forall j | 0 <= j < i && Running(run[j].r) :: !LinksBelow(k, run[j], steps[j])
    ensures StoodFor(k, run, i, run[i].r.v)
    ensures (forall j | 0 <= j <= i && Running(run[j].r) :: ValueOf(run[j].s, k) != None) ==> run[i].r.v != None
    ensures (forall j | 0 <= j <= i && Running(run[j].r) :: ValueOf(run[j].s, k) == None) ==> run[i].r.v == None
  {
    hide WriterNext, ReaderNext, Next, Init, ValueOf;
    LookupLinearizes(k, run, steps, i);
  }

  // ---------------------------------------------------------------- the reader finishes

  const SPAN: int := INT_MAX - INT_MIN + 2

  /** How many more reads the lookup can make, whatever the writer does. */
  ghost function Rank(k: int, s: Shape<nat>, r: Reader): int {
    match r
    case Waiting => 3 + PID_SL_MAX_LEVEL * SPAN
    case Walking(x, i) => if x in s.nodes then 2 + i * SPAN + (k - Pos(s, x)) else 0
    case Rereading(_) => 2
    case Fetching(_) => 1
    case Returned(_) => 0
  }

  /** Until it has returned, the reader can always take its next read: no tower is indexed past its height. */
  lemma ReaderNeverStuck(k: int, a: World) returns (q: Reader)
    requires INT_MIN <= k && WorldInv(k, a) && !a.r.Returned?
    ensures ReaderNext(k, a.s, a.r, q)
  {
    hide HistoryInv, IsSucc, Chained, UniqueKeys, Capped;
    ShapeInv(a.s, a.w);
    match a.r
    case Waiting => q := Walking(a.s.header, a.s.level - 1);
    case Walking(x, i) =>
      PointerGood(k, a.s, a.reach, a.seen, x, i);
      q := if a.s.nodes[x].fwd[i].Some? && a.s.nodes[a.s.nodes[x].fwd[i].value].key < k
           then Walking(a.s.nodes[x].fwd[i].value, i) else Down(x, i);
    case Rereading(x) =>
      PointerGood(k, a.s, a.reach, a.seen, x, 0);
      q := if a.s.nodes[x].fwd[0].Some? && a.s.nodes[a.s.nodes[x].fwd[0].value].key == k
           then Fetching(a.s.nodes[x].fwd[0].value) else Returned(None);
    case Fetching(z) => q := Returned(a.s.nodes[z].pid);
  }

  /** A write leaves the rank alone and a read lowers it, so interference cannot keep the reader going. */
  lemma RankFalls(k: int, a: World, st: Step, b: World)
    requires INT_MIN <= k <= INT_MAX && WorldInv(k, a) && Next(k, a, st, b)
    ensures 0 <= Rank(k, a.s, a.r)
    ensures Rank(k, b.s, b.r) <= Rank(k, a.s, a.r) - (if st.Read? then 1 else 0)
  {
    hide WriterInv, ReaderInv, WriterNext, ReaderNext, Rank;
    RankPositive(k, a);
    if st.Read? {
      ReadLowers(k, a, b);
    } else {
      WriteKeepsRank(k, a, st, b);
    }
  }

  lemma ReadLowers(k: int, a: World, b: World)
    requires INT_MIN <= k <= INT_MAX && WorldInv(k, a) && Next(k, a, Read, b)
    ensures Rank(k, b.s, b.r) < Rank(k, a.s, a.r)
  {
    hide HistoryInv, WriterInv, Inv;
    ShapeInv(a.s, a.w);
    match a.r
    case Walking(x, i) => PointerGood(k, a.s, a.reach, a.seen, x, i); PosBounds(a.s, x);
    case Waiting => HeaderPresent(a.s); PosBounds(a.s, a.s.header); LevelBounds(a.s);
    case _ =>
  }

  lemma WriteKeepsRank(k: int, a: World, st: Step, b: World)
    requires WorldInv(k, a) && Next(k, a, st, b) && !st.Read?
    ensures Rank(k, b.s, b.r) <= Rank(k, a.s, a.r)
  {
    hide HistoryInv, WriterInv, WriterNext, Inv, WellSized;
    WriterStep(a.s, a.w, st, b.s, b.w);
  }

  lemma PosBounds(s: Shape<nat>, x: nat)
    requires Inv(s) && Least(s) == INT_MIN && x in s.nodes
    ensures INT_MIN - 1 <= Pos(s, x)
  {
  }

  ghost function Reads(steps: seq<Step>): nat {
    if steps == [] then 0 else Reads(steps[..|steps| - 1]) + if steps[|steps| - 1].Read? then 1 else 0
  }

  /** No interleaving makes a lookup take more than this many reads. */
  lemma {:induction false} ReadsBounded(k: int, run: seq<World>, steps: seq<Step>)
    requires INT_MIN <= k <= INT_MAX && IsRun(k, run, steps)
    ensures Reads(steps) + Rank(k, run[|steps|].s, run[|steps|].r) <= 3 + PID_SL_MAX_LEVEL * SPAN
    ensures Reads(steps) <= 3 + PID_SL_MAX_LEVEL * SPAN
  {
    hide WorldInv, Next, Init;
    RunInv(k, run, steps, |steps|);
    if steps == [] {
      InitWaits(run[0]);
    } else {
      var n := |steps| - 1;
      assert forall i | 0 <= i < n :: Next(k, run[..n + 1][i], steps[..n][i], run[..n + 1][i + 1]);
      ReadsBounded(k, run[..n + 1], steps[..n]);
      RunInv(k, run, steps, n);
      assert Next(k, run[n], steps[n], run[n + 1]);
      RankFalls(k, run[n], steps[n], run[n + 1]);
    }
    RankPositive(k, run[|steps|]);
  }

  lemma RankPositive(k: int, a: World)
    requires INT_MIN <= k && WorldInv(k, a)
    ensures 0 <= Rank(k, a.s, a.r)
  {
  }

  // ---------------------------------------------------------------- the missed lookup

  /** The world after a step, with the record kept. */
  ghost function Act(k: int, a: World, st: Step, t: Shape<nat>, v: Writer, q: Reader): World {
    if st.Read? then
      if a.r.Waiting? then World(t, v, q, Linkage(a.s), {ValueOf(a.s, k)}, false)
      else World(t, v, q, a.reach, a.seen, a.squeezed)
    else if Running(a.r) then
      World(t, v, q, a.reach + Linkage(t), a.seen + {ValueOf(t, k)},
            if HitsReader(a, st) then LeadsBelow(t, a.r.x, k) else a.squeezed)
    else World(t, v, q, a.reach, a.seen, a.squeezed)
  }

  lemma WriteActs(k: int, a: World, st: Step, t: Shape<nat>, v: Writer)
    requires !st.Read? && WriterNext(a.s, a.w, st, t, v)
    ensures Next(k, a, st, Act(k, a, st, t, v, a.r))
  {
    hide WriterNext, HitsReader, LeadsBelow;
  }

  lemma NeverBehindItself(s: Shape<nat>)
    requires Inv(s)
    ensures !Behind(s, s.header, Some(s.header))
  {
    assert Active(s, s.header);
    SuccAt(s, s.header, 0);
  }

  /** The shapes that such an insertion goes through. */
  lemma FirstShapes(s: Shape<nat>, key: int, pid: Option<Pid>, x: nat)
    requires s.header in s.nodes && |s.nodes[s.header].fwd| > 0 && x !in s.nodes
    ensures var h := s.header; var t1 := AddTower(s, x, key, pid, 1);
            && |t1.nodes[h].fwd| > 0 && h != x && h in t1.nodes && x in t1.nodes && |t1.nodes[x].fwd| > 0
            && var t2 := CopyForward(t1, h, x, 0);
               && h in t2.nodes && x in t2.nodes && |t2.nodes[h].fwd| > 0
               && var t3 := Link(t2, h, x, 0);
                  && t3.level == s.level && t3.header == h && t3.nodes.Keys == s.nodes.Keys + {x}
                  && Behind(t3, h, Some(x))
                  && t3.nodes[x] == Tower(key, pid, [s.nodes[h].fwd[0]], 0, 1)
                  && (forall n | n in s.nodes && n != h :: t3.nodes[n] == s.nodes[n])
                  && forall n | n in s.nodes && Linked(s, n, 0) :: Kept(s, t1, n) && Kept(s, t2, n) && Kept(s, t3, n)
  {
  }

  /** Inserting a number behind the header of a list without smaller numbers, with height 1. */
  lemma InsertFirst(k: int, a: World, key: int, pid: Option<Pid>, x: nat)
    returns (run: seq<World>, steps: seq<Step>)
    requires WriterInv(a.s, a.w) && a.w == Idle && x !in a.s.nodes && INT_MIN <= key <= INT_MAX && a.s.level == 1
    requires forall m | m in a.s.nodes && m != a.s.header :: key < a.s.nodes[m].key
    ensures |run| == 5 && |steps| == 4 && run[0] == a
    ensures forall i | 0 <= i < 4 :: Next(k, run[i], steps[i], run[i + 1])
    ensures steps[3] == LinkOne && run[3].w == Linking(x, [a.s.header], 0)
    ensures forall i | 0 <= i <= 4 :: run[i].r == a.r
    ensures forall i, n | 0 <= i <= 4 && n in a.s.nodes :: Linked(a.s, n, 0) ==> Kept(a.s, run[i].s, n)
    ensures run[4].w == Idle && run[4].s.level == 1 && run[4].s.header == a.s.header
    ensures run[4].s.nodes.Keys == a.s.nodes.Keys + {x} && Behind(run[4].s, a.s.header, Some(x))
    ensures run[4].s.nodes[x] == Tower(key, pid, [a.s.nodes[a.s.header].fwd[0]], 0, 1)
    ensures forall n | n in a.s.nodes && n != a.s.header :: run[4].s.nodes[n] == a.s.nodes[n]
  {
    hide WriterInv, WriterNext, Next, AddTower, CopyForward, Link, Kept, Behind;
    WriterHeader(a.s, a.w);
    FirstShapes(a.s, key, pid, x);
    run, steps := FirstSteps(k, a, key, pid, x);
    forall i, n | 0 <= i <= 4 && n in a.s.nodes && Linked(a.s, n, 0)
      ensures Kept(a.s, run[i].s, n)
    {
      KeptSelf(a.s, n);
    }
  }

  lemma WriterHeader(s: Shape<nat>, w: Writer)
    requires WriterInv(s, w)
    ensures s.header in s.nodes && |s.nodes[s.header].fwd| > 0
  {
  }

  lemma KeptSelf(s: Shape<nat>, n: nat)
    requires n in s.nodes && Linked(s, n, 0)
    ensures Kept(s, s, n)
  {
  }

  /** Its four writes, as steps of the machine. */
  lemma FirstSteps(k: int, a: World, key: int, pid: Option<Pid>, x: nat) returns (run: seq<World>, steps: seq<Step>)
    requires WriterInv(a.s, a.w) && a.w == Idle && x !in a.s.nodes && INT_MIN <= key <= INT_MAX && a.s.level == 1
    requires forall m | m in a.s.nodes && m != a.s.header :: key < a.s.nodes[m].key
    ensures |run| == 5 && |steps| == 4 && run[0] == a && steps[3] == LinkOne
    ensures forall i | 0 <= i < 4 :: Next(k, run[i], steps[i], run[i + 1])
    ensures forall i | 0 <= i <= 4 :: run[i].r == a.r
    ensures run[3].w == Linking(x, [a.s.header], 0) && run[4].w == Idle
    ensures var h := a.s.header; var t1 := AddTower(a.s, x, key, pid, 1);
            && h in t1.nodes && x in t1.nodes && |t1.nodes[h].fwd| > 0 && |t1.nodes[x].fwd| > 0
            && var t2 := CopyForward(t1, h, x, 0);
               && h in t2.nodes && x in t2.nodes && |t2.nodes[h].fwd| > 0
               && run[1].s == a.s && run[2].s == t1 && run[3].s == t2 && run[4].s == Link(t2, h, x, 0)
  {
    hide Contents, IsSucc, UniqueKeys, Chained, Capped, Quiet;
    var s, h := a.s, a.s.header;
    assert Active(s, h) && IsPred(s, key, 0, h);
    NeverBehindItself(s);
    var t1 := AddTower(s, x, key, pid, 1);
    var t2 := CopyForward(t1, h, x, 0);
    var t3 := Link(t2, h, x, 0);
    var w1, w2, w3 := Allocating(key, pid, 1, [h]), Copying(x, [h], 0), Linking(x, [h], 0);
    steps := [BeginInsert(key, pid, 1, [h]), Alloc(x), Copy, LinkOne];
    assert Raised(s, 1) == s && Padded(s, [h], 1) == [h];
    var b1 := Act(k, a, steps[0], s, w1, a.r);
    WriteActs(k, a, steps[0], s, w1);
    var b2 := Act(k, b1, steps[1], t1, w2, a.r);
    WriteActs(k, b1, steps[1], t1, w2);
    var b3 := Act(k, b2, steps[2], t2, w3, a.r);
    WriteActs(k, b2, steps[2], t2, w3);
    var b4 := Act(k, b3, steps[3], t3, Idle, a.r);
    WriteActs(k, b3, steps[3], t3, Idle);
    run := [a, b1, b2, b3, b4];
  }

  /** Node n is linked at level 0 in both shapes, under the same number and pid. */
  ghost predicate Kept(s: Shape<nat>, t: Shape<nat>, n: nat) {
    && t.header == s.header && n in s.nodes && n in t.nodes && Linked(t, n, 0)
    && t.nodes[n].key == s.nodes[n].key && t.nodes[n].pid == s.nodes[n].pid
  }

  lemma ReadActs(k: int, a: World, q: Reader)
    requires ReaderNext(k, a.s, a.r, q)
    ensures Next(k, a, Read, Act(k, a, Read, a.s, a.w, q))
  {
  }

  lemma KeptValue(k: int, a: World, n: nat, v: Option<Pid>)
    requires Inv(a.s) && n in a.s.nodes && Linked(a.s, n, 0) && n != a.s.header
    requires a.s.nodes[n].key == k && a.s.nodes[n].pid == v
    ensures ValueOf(a.s, k) == v
  {
    CurrentValue(a.s, n, k);
  }

  lemma RunOf(k: int, run: seq<World>, steps: seq<Step>, a: World)
    requires |run| == |steps| + 1 && run[0] == a && Init(a)
    requires forall i | 0 <= i < |steps| :: Next(k, run[i], steps[i], run[i + 1])
    ensures IsRun(k, run, steps)
  {
  }

  /** Two runs, the second continuing the first. */
  lemma Continue(k: int, run1: seq<World>, steps1: seq<Step>, run2: seq<World>, steps2: seq<Step>)
    requires IsRun(k, run1, steps1) && |run2| == |steps2| + 1 && run2[0] == run1[|steps1|]
    requires forall i | 0 <= i < |steps2| :: Next(k, run2[i], steps2[i], run2[i + 1])
    ensures IsRun(k, run1 + run2[1..], steps1 + steps2)
  {
    hide Next, Init;
    var run, steps := run1 + run2[1..], steps1 + steps2;
    forall i | 0 <= i < |steps|
      ensures Next(k, run[i], steps[i], run[i + 1])
    {
      if i >= |steps1| {
        assert Next(k, run2[i - |steps1|], steps2[i - |steps1|], run2[i - |steps1| + 1]);
      }
    }
  }

  /** 5 has been inserted and stands for pid 1; the lookup has not begun. */
  lemma FiveInserted() returns (run: seq<World>, steps: seq<Step>)
    ensures IsRun(5, run, steps) && |run| == 5
    ensures run[4].r == Waiting && run[4].w == Idle && run[4].s.level == 1 && run[4].s.header == 0
    ensures run[4].s.nodes.Keys == {0, 1} && run[4].s.nodes[1] == Tower(5, Some(1), [None], 0, 1)
    ensures Behind(run[4].s, 0, Some(1))
  {
    var s0 := Shape(0, 1, map[0 := Tower(INT_MIN, None, seq(PID_SL_MAX_LEVEL, _ => None), 0, PID_SL_MAX_LEVEL)]);
    var a := World(s0, Idle, Waiting, {}, {}, false);
    InitInv(5, a);
    run, steps := InsertFirst(5, a, 5, Some(1), 1);
    RunOf(5, run, steps, a);
  }

  /** The lookup of 5 walks to the header and stops there, having seen 5 behind it. */
  lemma LookupStops(a: World) returns (run: seq<World>)
    requires a.r == Waiting && a.s.level == 1 && a.s.header == 0
    requires Behind(a.s, 0, Some(1)) && 1 in a.s.nodes && a.s.nodes[1].key == 5
    ensures |run| == 3 && run[0] == a && Next(5, run[0], Read, run[1]) && Next(5, run[1], Read, run[2])
    ensures run[1].s == run[2].s == a.s && run[2].w == a.w && run[1].r == Walking(0, 0) && run[2].r == Rereading(0)
  {
    var b := Act(5, a, Read, a.s, a.w, Walking(0, 0));
    ReadActs(5, a, Walking(0, 0));
    var c := Act(5, b, Read, a.s, a.w, Rereading(0));
    ReadActs(5, b, Rereading(0));
    run := [a, b, c];
  }

  lemma StoppedRun() returns (run: seq<World>, steps: seq<Step>)
    ensures IsRun(5, run, steps) && |run| == 7
    ensures run[4].r == Waiting && run[4].w == Idle && run[5].r == Walking(0, 0) && run[6].r == Rereading(0)
            && run[6].w == Idle
    ensures run[4].s == run[5].s == run[6].s && run[6].s.level == 1 && run[6].s.header == 0
    ensures run[6].s.nodes.Keys == {0, 1} && run[6].s.nodes[1] == Tower(5, Some(1), [None], 0, 1)
    ensures Kept(run[6].s, run[6].s, 1)
  {
    hide Next, Init;
    run, steps := FiveInserted();
    var run2 := LookupStops(run[4]);
    Continue(5, run, steps, run2, [Read, Read]);
    run, steps := run + run2[1..], steps + [Read, Read];
  }

  lemma MissedRun() returns (run: seq<World>, steps: seq<Step>)
    ensures IsRun(5, run, steps) && |run| == 12
    ensures run[4].r == Waiting && run[11].r == Returned(None)
    ensures forall j | 4 <= j < 12 :: Kept(run[4].s, run[j].s, 1)
    ensures 1 in run[4].s.nodes && run[4].s.nodes[1] == Tower(5, Some(1), [None], 0, 1) && run[4].s.header == 0
    ensures run[4].w == Idle && LeadsBelow(run[10].s, 0, 5)
    ensures Behind(run[10].s, 0, Some(2)) && 2 in run[10].s.nodes
    ensures run[10].s.nodes[2].key == 3 && run[10].s.nodes[2].pid == Some(2)
    ensures run[5].r == Walking(0, 0) && forall j | 6 <= j <= 10 :: run[j].r == Rereading(0)
  {
    hide Next, Init, WriterNext;
    run, steps := StoppedRun();
    RunInv(5, run, steps, 6);
    var run3, steps3 := InsertFirst(5, run[6], 3, Some(2), 2);
    Continue(5, run, steps, run3, steps3);
    run, steps := run + run3[1..], steps + steps3;
    var c := run[10];
    ReadActs(5, c, Returned(None));
    var last := [c, Act(5, c, Read, c.s, c.w, Returned(None))];
    Continue(5, run, steps, last, [Read]);
    run, steps := run + last[1..], steps + [Read];
  }

  /**
   The code as it stands can miss a number: 5 is in the list, and stands for pid 1, from before
   the lookup of 5 begins until after it ends, yet the lookup returns NULL, because 3 was
   inserted between its two reads of the header's first pointer.
   */
  lemma MissedLookup() returns (run: seq<World>, steps: seq<Step>)
    ensures IsRun(5, run, steps) && |run| == 12
    ensures run[4].r == Waiting && run[11].r == Returned(None)
    ensures run[4].w == Idle && LeadsBelow(run[10].s, 0, 5)
    ensures Behind(run[10].s, 0, Some(2)) && 2 in run[10].s.nodes
    ensures run[10].s.nodes[2].key == 3 && run[10].s.nodes[2].pid == Some(2)
    ensures run[5].r == Walking(0, 0) && forall j | 6 <= j <= 10 :: run[j].r == Rereading(0)
    ensures forall j | 4 <= j < 12 :: ValueOf(run[j].s, 5) == Some(1)
  {
    hide Next, Init, ValueOf;
    run, steps := MissedRun();
    forall j | 4 <= j < 12
      ensures ValueOf(run[j].s, 5) == Some(1)
    {
      RunInv(5, run, steps, j);
      ShapeInv(run[j].s, run[j].w);
      KeptValue(5, run[j], 1, Some(1));
    }
  }

  lemma WriterSound(k: int, a: World)
    requires WorldInv(k, a)
    ensures WriterInv(a.s, a.w)
  {
  }

  /** A read before the search has stopped or after it leads elsewhere. */
  lemma ReadLeaves(k: int, a: World, st: Step, b: World)
    requires Next(k, a, st, b)
    ensures st.Read? && a.r.Rereading? ==> !b.r.Rereading?
    ensures a.r.Waiting? && !b.r.Waiting? ==> st.Read?
  {
  }

  /** A list of two: 5, which stands for pid 1, and before it 3, which is reserved. */
  lemma ReservedBefore() returns (a: World)
    ensures WriterInv(a.s, a.w) && a.w == Idle && a.s.level == 1 && a.s.header == 0
    ensures 0 in a.s.nodes && Behind(a.s, 0, Some(2)) && 2 in a.s.nodes && |a.s.nodes[2].fwd| > 0
    ensures a.s.nodes[2].key == 3 && a.s.nodes[2].pid == None && ValueOf(a.s, 5) == Some(1)
  {
    hide Next, Init, WriterNext, ValueOf;
    var run, steps := FiveInserted();
    RunInv(5, run, steps, 4);
    var run2, steps2 := InsertFirst(5, run[4], 3, None, 2);
    Continue(5, run, steps, run2, steps2);
    run, steps := run + run2[1..], steps + steps2;
    a := run[8];
    assert a == run2[4];
    RunInv(5, run, steps, 8);
    WriterSound(5, a);
    ShapeInv(a.s, a.w);
    KeptValue(5, a, 1, Some(1));
  }
}

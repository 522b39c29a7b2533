/**
 What the writer of ConcurrentList is asked to do, and what becomes of it: each insertion and
 removal takes effect at its first write on level 0, with the number, the pid and the height
 that it was begun with, whatever is read in between.
 */
module ConcurrentWriter {
  import opened Options
  import opened Towers
  import opened ConcurrentList

  /** The entries of the list at this instant. */
  ghost function EntriesOf(s: Shape<nat>): Entries {
    if UniqueKeys(s) then Contents(s) else map[]
  }

  /** Node x is of this number, pid and height. */
  ghost predicate IsNode(s: Shape<nat>, x: nat, key: int, pid: Option<Pid>, height: nat) {
    x in s.nodes && s.nodes[x].key == key && s.nodes[x].pid == pid && |s.nodes[x].fwd| == height
  }

  /** An insertion has begun and nothing of it can be seen yet. */
  ghost predicate Pending(m: Entries, key: int, pid: Option<Pid>, height: nat, s: Shape<nat>, w: Writer) {
    && WriterInv(s, w) && EntriesOf(s) == m
    && match w
       case Allocating(k, v, h, _) => k == key && v == pid && h == height
       case Copying(x, _, i) => i == 0 && IsNode(s, x, key, pid, height)
       case Linking(x, _, i) => i == 0 && IsNode(s, x, key, pid, height)
       case _ => false
  }

  /** It has taken effect and goes on at higher levels. */
  ghost predicate Climbing(m: Entries, key: int, pid: Option<Pid>, height: nat, x: nat, s: Shape<nat>, w: Writer) {
    && WriterInv(s, w) && EntriesOf(s) == m && IsNode(s, x, key, pid, height)
    && match w
       case Copying(y, _, i) => y == x && i > 0
       case Linking(y, _, i) => y == x && i > 0
       case _ => false
  }

  /** It is over, and the node is linked on each of its levels. */
  ghost predicate Complete(m: Entries, key: int, pid: Option<Pid>, height: nat, x: nat, s: Shape<nat>, w: Writer) {
    && WriterInv(s, w) && EntriesOf(s) == m && IsNode(s, x, key, pid, height)
    && w == Idle && s.nodes[x].lo == 0 && s.nodes[x].hi == height
  }

  lemma StepEntries(s: Shape<nat>, w: Writer, st: Step, t: Shape<nat>, v: Writer)
    requires WriterInv(s, w) && WriterNext(s, w, st, t, v)
    ensures WriterInv(t, v) && EntriesOf(t) == Effect(EntriesOf(s), s, w, st)
  {
    hide WriterInv, WriterNext, Evolves, Contents, Effect;
    WriterStep(s, w, st, t, v);
    ShapeInv(s, w);
    ShapeInv(t, v);
  }

  lemma InsertionBegins(s: Shape<nat>, w: Writer, st: Step, t: Shape<nat>, v: Writer)
    requires WriterInv(s, w) && st.BeginInsert? && WriterNext(s, w, st, t, v)
    ensures Pending(EntriesOf(s), st.key, st.pid, st.height, t, v)
  {
    hide WriterInv, EntriesOf;
    StepEntries(s, w, st, t, v);
  }

  lemma InsertionPends(m: Entries, key: int, pid: Option<Pid>, height: nat,
                       s: Shape<nat>, w: Writer, st: Step, t: Shape<nat>, v: Writer)
    requires Pending(m, key, pid, height, s, w) && WriterNext(s, w, st, t, v) && !st.LinkOne? && !st.AllocFails?
    ensures Pending(m, key, pid, height, t, v)
  {
    hide WriterInv, EntriesOf;
    StepEntries(s, w, st, t, v);
  }

  /** The first link: the entry appears; a tower of height 1 is complete. */
  lemma InsertionLinks(m: Entries, key: int, pid: Option<Pid>, height: nat,
                       s: Shape<nat>, w: Writer, st: Step, t: Shape<nat>, v: Writer)
    requires Pending(m, key, pid, height, s, w) && WriterNext(s, w, st, t, v) && st.LinkOne?
    ensures w.Linking? && EntriesOf(t) == m[key := pid]
    ensures Climbing(m[key := pid], key, pid, height, w.x, t, v) || Complete(m[key := pid], key, pid, height, w.x, t, v)
  {
    hide EntriesOf, Inv, Contents, Settled, IsPred;
    StepEntries(s, w, st, t, v);
  }

  lemma InsertionRises(m: Entries, key: int, pid: Option<Pid>, height: nat, x: nat,
                       s: Shape<nat>, w: Writer, st: Step, t: Shape<nat>, v: Writer)
    requires Climbing(m, key, pid, height, x, s, w) && WriterNext(s, w, st, t, v)
    ensures Climbing(m, key, pid, height, x, t, v) || Complete(m, key, pid, height, x, t, v)
  {
    hide EntriesOf, Inv, Contents, Settled, IsPred;
    StepEntries(s, w, st, t, v);
  }

  // ---------------------------------------------------------------- removal

  /** The removal of node n has begun and nothing of it can be seen yet. */
  ghost predicate Doomed(m: Entries, key: int, n: nat, s: Shape<nat>, w: Writer) {
    && WriterInv(s, w) && EntriesOf(s) == m && w.Unlinking? && w.x == n && w.i == 0
    && Linked(s, n, 0) && s.nodes[n].key == key
  }

  /** It has taken effect, and nobody is led to the node at level 0. */
  ghost predicate Leaving(m: Entries, n: nat, s: Shape<nat>, w: Writer) {
    && WriterInv(s, w) && EntriesOf(s) == m && n in s.nodes && !Linked(s, n, 0)
    && ((w.Unlinking? && w.x == n && w.i > 0) || w == Lowering)
  }

  lemma RemovalBegins(s: Shape<nat>, w: Writer, st: Step, t: Shape<nat>, v: Writer)
    requires WriterInv(s, w) && st.BeginRemove? && WriterNext(s, w, st, t, v)
    ensures st.n in s.nodes && s.nodes[st.n].key in EntriesOf(s)
    ensures Doomed(EntriesOf(s), s.nodes[st.n].key, st.n, t, v)
  {
    hide WriterInv, EntriesOf;
    StepEntries(s, w, st, t, v);
    FoundIsEntry(s, w, st, t, v);
  }

  /** What a removal finds is an entry. */
  lemma FoundIsEntry(s: Shape<nat>, w: Writer, st: Step, t: Shape<nat>, v: Writer)
    requires WriterInv(s, w) && st.BeginRemove? && WriterNext(s, w, st, t, v)
    ensures s.nodes[st.n].key in EntriesOf(s) && Linked(s, st.n, 0)
  {
    hide Chained, UniqueKeys, Capped, Contents;
    ShapeInv(s, w);
    assert IsPred(s, s.nodes[st.n].key, 0, st.upd[0]) && Active(s, st.upd[0]);
    LedToLinked(s, st.upd[0], st.n);
    ContentsAt(s, st.n);
    UniqueIn(s);
  }

  lemma UniqueIn(s: Shape<nat>)
    requires Inv(s)
    ensures UniqueKeys(s)
  {
  }

  /** Until its first unlink nothing is seen of it, and it does not end before. */
  lemma RemovalPends(m: Entries, key: int, n: nat, s: Shape<nat>, w: Writer, st: Step, t: Shape<nat>, v: Writer)
    requires Doomed(m, key, n, s, w) && WriterNext(s, w, st, t, v)
    ensures st.UnlinkOne? && EntriesOf(t) == m - {key} && Leaving(m - {key}, n, t, v)
  {
    hide EntriesOf, Inv, Contents, Settled, IsPred;
    LevelIn(s, w);
    StillPointedTo(s, n, w.upd, 0);
    StepEntries(s, w, st, t, v);
  }

  lemma LevelIn(s: Shape<nat>, w: Writer)
    requires WriterInv(s, w)
    ensures 1 <= s.level
  {
    ShapeInv(s, w);
    LevelBounds(s);
  }

  /** No level in use is empty but the first. */
  ghost predicate IsTight(s: Shape<nat>) {
    s.level > 1 ==>
      && s.header in s.nodes && s.level <= |s.nodes[s.header].fwd|
      && s.nodes[s.header].fwd[s.level - 1] != None
  }

  lemma RemovalGoesOn(m: Entries, n: nat, s: Shape<nat>, w: Writer, st: Step, t: Shape<nat>, v: Writer)
    requires Leaving(m, n, s, w) && WriterNext(s, w, st, t, v)
    ensures Leaving(m, n, t, v) || (v == Idle && EntriesOf(t) == m && !Linked(t, n, 0) && IsTight(t))
  {
    hide EntriesOf, Inv, Contents, Settled, IsPred, Quiet;
    StepEntries(s, w, st, t, v);
  }

  // ---------------------------------------------------------------- in every interleaving

  ghost function EntriesAt(run: seq<World>, i: nat): Entries
    requires i < |run|
  {
    EntriesOf(run[i].s)
  }

  lemma WriterAt(k: int, run: seq<World>, steps: seq<Step>, i: nat)
    requires INT_MIN <= k && IsRun(k, run, steps) && i < |run|
    ensures WriterInv(run[i].s, run[i].w)
    ensures i < |steps| ==> if steps[i].Read? then run[i + 1].s == run[i].s && run[i + 1].w == run[i].w
                            else WriterNext(run[i].s, run[i].w, steps[i], run[i + 1].s, run[i + 1].w)
  {
    hide WriterInv, WriterNext, ReaderInv, ReaderNext, Init;
    RunInv(k, run, steps, i);
    if i < |steps| {
      assert Next(k, run[i], steps[i], run[i + 1]);
    }
  }

  lemma {:induction false} StillPending(k: int, run: seq<World>, steps: seq<Step>, i: nat, j: nat)
    requires INT_MIN <= k && IsRun(k, run, steps) && i < j < |run| && steps[i].BeginInsert?
    requires forall m | i < m < j :: !steps[m].LinkOne? && !steps[m].AllocFails?
    ensures Pending(EntriesAt(run, i), steps[i].key, steps[i].pid, steps[i].height, run[j].s, run[j].w)
    decreases j
  {
    hide Next, Init, WriterInv, WriterNext, EntriesOf, Pending;
    var b := steps[i];
    WriterAt(k, run, steps, j - 1);
    if j == i + 1 {
      InsertionBegins(run[i].s, run[i].w, b, run[j].s, run[j].w);
    } else {
      StillPending(k, run, steps, i, j - 1);
      if !steps[j - 1].Read? {
        InsertionPends(EntriesAt(run, i), b.key, b.pid, b.height,
                       run[j - 1].s, run[j - 1].w, steps[j - 1], run[j].s, run[j].w);
      }
    }
  }

  /**
   An insertion takes effect at its first link, whatever its height is, and with the number and
   the pid that it was begun with; until then, and if no memory is left, nothing is seen of it.
   */
  lemma InsertionTakesEffect(k: int, run: seq<World>, steps: seq<Step>, i: nat, j: nat)
    requires INT_MIN <= k && IsRun(k, run, steps) && i < j < |steps| && steps[i].BeginInsert?
    requires forall m | i < m < j :: !steps[m].LinkOne? && !steps[m].AllocFails?
    ensures EntriesAt(run, j) == EntriesAt(run, i)
    ensures EntriesAt(run, j + 1)
         == if steps[j].LinkOne? then EntriesAt(run, i)[steps[i].key := steps[i].pid] else EntriesAt(run, i)
  {
    hide Next, Init, WriterInv, WriterNext, EntriesOf;
    var b := steps[i];
    StillPending(k, run, steps, i, j);
    WriterAt(k, run, steps, j);
    if steps[j].LinkOne? {
      InsertionLinks(EntriesAt(run, i), b.key, b.pid, b.height,
                     run[j].s, run[j].w, steps[j], run[j + 1].s, run[j + 1].w);
    } else if !steps[j].Read? {
      PendingSame(EntriesAt(run, i), b.key, b.pid, b.height, run[j].s, run[j].w, steps[j], run[j + 1].s, run[j + 1].w);
    }
  }

  lemma PendingSame(m: Entries, key: int, pid: Option<Pid>, height: nat,
                    s: Shape<nat>, w: Writer, st: Step, t: Shape<nat>, v: Writer)
    requires Pending(m, key, pid, height, s, w) && WriterNext(s, w, st, t, v) && !st.LinkOne?
    ensures EntriesOf(t) == m
  {
    hide WriterInv, EntriesOf;
    StepEntries(s, w, st, t, v);
  }

  /**
   From its first link until the writer is idle again the entries stay as they are then; the new
   node ends up linked on each of the levels that were asked for.
   */
  lemma {:induction false} InsertionEnds(k: int, run: seq<World>, steps: seq<Step>, i: nat, j: nat, e: nat)
    requires INT_MIN <= k && IsRun(k, run, steps) && i < j < e < |run| && steps[i].BeginInsert? && steps[j].LinkOne?
    requires forall m | i < m < j :: !steps[m].LinkOne? && !steps[m].AllocFails?
    requires forall m | j < m < e :: run[m].w != Idle
    ensures run[j].w.Linking?
    ensures var b := steps[i]; var m, x := EntriesAt(run, i)[b.key := b.pid], run[j].w.x;
            if run[e].w == Idle then Complete(m, b.key, b.pid, b.height, x, run[e].s, run[e].w)
            else Climbing(m, b.key, b.pid, b.height, x, run[e].s, run[e].w)
    decreases e
  {
    hide Next, Init, WriterInv, WriterNext, EntriesOf, IsNode, Pending;
    var b := steps[i];
    var m := EntriesAt(run, i);
    StillPending(k, run, steps, i, j);
    WriterAt(k, run, steps, e - 1);
    if e == j + 1 {
      InsertionLinks(m, b.key, b.pid, b.height, run[j].s, run[j].w, steps[j], run[e].s, run[e].w);
    } else {
      InsertionEnds(k, run, steps, i, j, e - 1);
      if !steps[e - 1].Read? {
        InsertionRises(m[b.key := b.pid], b.key, b.pid, b.height, run[j].w.x,
                       run[e - 1].s, run[e - 1].w, steps[e - 1], run[e].s, run[e].w);
      }
    }
  }

  lemma {:induction false} StillDoomed(k: int, run: seq<World>, steps: seq<Step>, i: nat, j: nat)
    requires INT_MIN <= k && IsRun(k, run, steps) && i < j < |run| && steps[i].BeginRemove?
    requires forall m | i < m < j :: steps[m].Read?
    ensures steps[i].n in run[i].s.nodes && run[i].s.nodes[steps[i].n].key in EntriesAt(run, i)
    ensures Doomed(EntriesAt(run, i), run[i].s.nodes[steps[i].n].key, steps[i].n, run[j].s, run[j].w)
    decreases j
  {
    hide Next, Init, WriterInv, WriterNext, EntriesOf, Doomed;
    WriterAt(k, run, steps, j - 1);
    if j == i + 1 {
      RemovalBegins(run[i].s, run[i].w, steps[i], run[j].s, run[j].w);
    } else {
      StillDoomed(k, run, steps, i, j - 1);
    }
  }

  /**
   A removal is of a number in use.  Its first write is an unlink on level 0, and leaves the
   entries without that number.
   */
  lemma RemovalTakesEffect(k: int, run: seq<World>, steps: seq<Step>, i: nat, j: nat)
    requires INT_MIN <= k && IsRun(k, run, steps) && i < j < |steps| && steps[i].BeginRemove?
    requires forall m | i < m < j :: steps[m].Read?
    ensures steps[i].n in run[i].s.nodes && run[i].s.nodes[steps[i].n].key in EntriesAt(run, i)
    ensures EntriesAt(run, j) == EntriesAt(run, i) && (steps[j].Read? || steps[j].UnlinkOne?)
    ensures EntriesAt(run, j + 1)
         == if steps[j].Read? then EntriesAt(run, i) else EntriesAt(run, i) - {run[i].s.nodes[steps[i].n].key}
  {
    hide Next, Init, WriterInv, WriterNext, EntriesOf;
    StillDoomed(k, run, steps, i, j);
    WriterAt(k, run, steps, j);
    if !steps[j].Read? {
      RemovalPends(EntriesAt(run, i), run[i].s.nodes[steps[i].n].key, steps[i].n,
                   run[j].s, run[j].w, steps[j], run[j + 1].s, run[j + 1].w);
    }
  }

  /** The rest of a removal changes no entry, and gives up the levels that have become empty. */
  lemma {:induction false} RemovalEnds(k: int, run: seq<World>, steps: seq<Step>, i: nat, j: nat, e: nat)
    requires INT_MIN <= k && IsRun(k, run, steps) && i < j < e < |run| && steps[i].BeginRemove? && steps[j].UnlinkOne?
    requires forall m | i < m < j :: steps[m].Read?
    requires forall m | j < m < e :: run[m].w != Idle
    ensures steps[i].n in run[i].s.nodes
    ensures EntriesAt(run, e) == EntriesAt(run, i) - {run[i].s.nodes[steps[i].n].key}
    ensures steps[i].n in run[e].s.nodes && !Linked(run[e].s, steps[i].n, 0)
    ensures if run[e].w == Idle then IsTight(run[e].s)
            else Leaving(EntriesAt(run, e), steps[i].n, run[e].s, run[e].w)
    decreases e
  {
    hide Next, Init, WriterInv, WriterNext, EntriesOf, Doomed;
    StillDoomed(k, run, steps, i, j);
    WriterAt(k, run, steps, e - 1);
    if e == j + 1 {
      RemovalPends(EntriesAt(run, i), run[i].s.nodes[steps[i].n].key, steps[i].n,
                   run[j].s, run[j].w, steps[j], run[e].s, run[e].w);
    } else {
      RemovalEnds(k, run, steps, i, j, e - 1);
      if !steps[e - 1].Read? {
        RemovalGoesOn(EntriesAt(run, e - 1), steps[i].n, run[e - 1].s, run[e - 1].w, steps[e - 1], run[e].s, run[e].w);
        StillHere(run[e - 1].s, run[e - 1].w, steps[e - 1], run[e].s, run[e].w);
      }
    }
  }

  lemma StillHere(s: Shape<nat>, w: Writer, st: Step, t: Shape<nat>, v: Writer)
    requires WriterInv(s, w) && WriterNext(s, w, st, t, v)
    ensures s.nodes.Keys <= t.nodes.Keys
  {
    hide WriterInv, WriterNext;
    WriterStep(s, w, st, t, v);
  }

  /** A value replaced is that of the number of the node found, and takes effect at once. */
  lemma ReplacementTakesEffect(k: int, run: seq<World>, steps: seq<Step>, i: nat)
    requires INT_MIN <= k && IsRun(k, run, steps) && i < |steps| && steps[i].Replace?
    ensures steps[i].n in run[i].s.nodes
    ensures EntriesAt(run, i + 1) == EntriesAt(run, i)[run[i].s.nodes[steps[i].n].key := steps[i].pid]
  {
    hide Next, Init, WriterInv, EntriesOf;
    WriterAt(k, run, steps, i);
    StepEntries(run[i].s, run[i].w, steps[i], run[i + 1].s, run[i + 1].w);
  }

  // ---------------------------------------------------------------- the writer can always go on

  /** A number that is not in use can be inserted, with any pid and any height. */
  lemma CanInsert(s: Shape<nat>, key: int, pid: Option<Pid>, height: nat)
    returns (upd: seq<nat>, t: Shape<nat>, v: Writer)
    requires WriterInv(s, Idle) && INT_MIN <= key <= INT_MAX && 1 <= height <= PID_SL_MAX_LEVEL && key !in EntriesOf(s)
    ensures WriterNext(s, Idle, BeginInsert(key, pid, height, upd), t, v)
  {
    hide Contents, IsSucc, Chained, Capped;
    upd := SearchFor(s, key);
    PredFinds(s, key, upd[0]);
    t, v := Raised(s, height), Allocating(key, pid, height, Padded(s, upd, height));
  }

  lemma SearchFor(s: Shape<nat>, key: int) returns (upd: seq<nat>)
    requires WriterInv(s, Idle) && INT_MIN <= key
    ensures Searched(s, key, upd) && 0 < |upd|
  {
    hide Contents, IsSucc, Chained, UniqueKeys, Capped, IsPred;
    upd := Descend(s, s.header, s.level - 1, key);
  }

  /** A number in use can be removed, and its value replaced. */
  lemma CanRemove(s: Shape<nat>, key: int, pid: Option<Pid>) returns (n: nat, p: nat, upd: seq<nat>)
    requires WriterInv(s, Idle) && INT_MIN <= key && key in EntriesOf(s)
    ensures n in s.nodes && s.nodes[n].key == key
    ensures WriterNext(s, Idle, BeginRemove(n, upd), s, Unlinking(n, upd, 0))
    ensures WriterNext(s, Idle, Replace(p, n, pid), SetPid(s, n, pid), Idle)
  {
    hide Contents, IsSucc, Chained, Capped;
    upd := SearchFor(s, key);
    PredFinds(s, key, upd[0]);
    PredInside(s, key, upd[0]);
    n, p := s.nodes[upd[0]].fwd[0].value, upd[0];
  }

  /** A number above all of these. */
  lemma {:induction false} Above(a: set<nat>) returns (x: nat)
    ensures x !in a && forall y | y in a :: y <= x
  {
    x := 0;
    if y :| y in a {
      var z := Above(a - {y});
      x := if z <= y then y + 1 else z;
      assert a == a - {y} + {y};
    }
  }

  /** The highest level, 1 at least, below which the header leads somewhere. */
  lemma {:induction false} TightLevel(s: Shape<nat>, top: int) returns (level: int)
    requires s.header in s.nodes && 1 <= top <= s.level <= |s.nodes[s.header].fwd|
    requires forall j | top <= j < s.level :: s.nodes[s.header].fwd[j] == None
    ensures 1 <= level <= s.level && forall j | level <= j < s.level :: s.nodes[s.header].fwd[j] == None
    ensures level > 1 ==> s.nodes[s.header].fwd[level - 1] != None
    decreases top
  {
    if top > 1 && s.nodes[s.header].fwd[top - 1] == None {
      level := TightLevel(s, top - 1);
    } else {
      level := top;
    }
  }

  /** Whatever has been begun, its next write can be made. */
  lemma WriterNeverStuck(s: Shape<nat>, w: Writer) returns (st: Step, t: Shape<nat>, v: Writer)
    requires WriterInv(s, w) && w != Idle
    ensures WriterNext(s, w, st, t, v) && !st.AllocFails? && !st.Read?
  {
    hide Inv, Contents, Settled, Inserting, Removing, CanLink, IsPred;
    match w
    case Allocating(key, pid, height, upd) =>
      var x := Above(s.nodes.Keys);
      st, t, v := Alloc(x), AddTower(s, x, key, pid, height), Copying(x, upd, 0);
    case Copying(x, upd, i) =>
      InsertsHere(s, x, upd, i);
      st, t, v := Copy, CopyForward(s, upd[i], x, i), Linking(x, upd, i);
    case Linking(x, upd, i) =>
      InsertsHere(s, x, upd, i);
      st, t, v := LinkOne, Link(s, upd[i], x, i), if i + 1 < |s.nodes[x].fwd| then Copying(x, upd, i + 1) else Idle;
    case Unlinking(x, upd, i) =>
      RemovesHere(s, x, upd, i);
      if i < s.level && s.nodes[upd[i]].fwd[i] == Some(x) {
        st, t, v := UnlinkOne, Unlink(s, upd[i], x, i), Unlinking(x, upd, i + 1);
      } else {
        st, t, v := EndUnlink, s, Lowering;
      }
    case Lowering =>
      LevelIn(s, w);
      HeaderHere(s, w);
      var level := TightLevel(s, s.level);
      st, t, v := Lower(level), SetLevel(s, level), Idle;
  }

  lemma InsertsHere(s: Shape<nat>, x: nat, upd: seq<nat>, i: nat)
    requires Inserting(s, x, upd, i) && i < |s.nodes[x].fwd|
    ensures x in s.nodes && i < |upd| && upd[i] in s.nodes && upd[i] != x && i < |s.nodes[upd[i]].fwd|
  {
    hide Contents, IsSucc, Chained, UniqueKeys, Capped, IsPred, Settled;
    PredHere(s, s.nodes[x].key, i, upd[i]);
  }

  lemma RemovesHere(s: Shape<nat>, x: nat, upd: seq<nat>, i: nat)
    requires Removing(s, x, upd, i)
    ensures x in s.nodes && |upd| == s.level
    ensures i < s.level ==>
              && upd[i] in s.nodes && upd[i] != x && i < |s.nodes[upd[i]].fwd|
              && (s.nodes[upd[i]].fwd[i] == Some(x) ==> i < |s.nodes[x].fwd|)
  {
    hide Contents, IsSucc, Chained, UniqueKeys, Capped, IsPred, Settled;
    if i < s.level {
      PredHere(s, s.nodes[x].key, i, upd[i]);
      StillPointedTo(s, x, upd, i);
    }
  }

  lemma HeaderHere(s: Shape<nat>, w: Writer)
    requires WriterInv(s, w)
    ensures s.header in s.nodes && s.level <= |s.nodes[s.header].fwd|
  {
    ShapeInv(s, w);
  }

  lemma PredHere(s: Shape<nat>, key: int, i: nat, p: nat)
    requires Inv(s) && IsPred(s, key, i, p)
    ensures p in s.nodes && i < |s.nodes[p].fwd| && Pos(s, p) < key
  {
  }

  /** How many writes an operation has still to make, at most. */
  ghost function Writes(s: Shape<nat>, w: Writer): int {
    match w
    case Idle => 0
    case Allocating(_, _, height, _) => 2 * height + 1
    case Copying(x, _, i) => if x in s.nodes then 2 * (|s.nodes[x].fwd| - i) else 0
    case Linking(x, _, i) => if x in s.nodes then 2 * (|s.nodes[x].fwd| - i) - 1 else 0
    case Unlinking(_, _, i) => s.level - i + 2
    case Lowering => 1
  }

  /** Each write brings the operation nearer to its end. */
  lemma WritesFall(s: Shape<nat>, w: Writer, st: Step, t: Shape<nat>, v: Writer)
    requires WriterInv(s, w) && w != Idle && WriterNext(s, w, st, t, v)
    ensures 0 <= Writes(t, v) < Writes(s, w)
  {
    hide Contents, IsSucc, Chained, UniqueKeys, Capped, IsPred, Settled;
    LevelIn(s, w);
  }
}

/**
 The loop of zap_pid_ns_processes over the lock-free iterator, interleaved with the writer of
 ConcurrentList access by access.  The first call searches for the start number; every further
 call follows the first pointer of the node the cursor stands on, removed or not.
 */
module ConcurrentIteration {
  import opened Options
  import opened Towers
  import opened ConcurrentList

  /** Why the loop ended: no node further on; a node below the start number behind the one the
      search had stopped at; or a reserved number. */
  datatype End = AtEnd | BelowStart | Reserved(n: int)

  /** Before the first read; in the search; at its last read; about to read a pid; between two
      calls; or done. */
  datatype Cursor =
    | Outset
    | Descending(x: nat, i: nat)
    | Arriving(x: nat)
    | Taking(z: nat)
    | Between(z: nat)
    | Ended(why: End)

  /** `reach` and `seen` record the linked nodes and the values of a number k, as for a lookup, and
      `held` the numbers that were reserved; `visited` and `pids` are what the loop has been given. */
  datatype Scene = Scene(s: Shape<nat>, w: Writer, r: Cursor, reach: set<nat>, seen: set<Option<Pid>>,
                         held: set<int>, visited: seq<int>, pids: seq<Pid>)

  /** The numbers that are reserved at this instant. */
  ghost function Reservations(s: Shape<nat>): set<int> {
    if UniqueKeys(s) then set n | n in Contents(s) && Contents(s)[n] == None else {}
  }

  function Lower(x: nat, i: nat): Cursor {
    if i == 0 then Arriving(x) else Descending(x, i - 1)
  }

  /** One read of the loop. */
  ghost predicate CursorNext(start: int, a: Scene, b: Scene) {
    var s := a.s;
    match a.r
    case Outset => 1 <= s.level && b.r == Descending(s.header, s.level - 1) && Unmoved(a, b)
    case Descending(x, i) =>
      && x in s.nodes && i < |s.nodes[x].fwd| && Unmoved(a, b)
      && (match s.nodes[x].fwd[i]
          case Some(y) => y in s.nodes && b.r == (if s.nodes[y].key < start then Descending(y, i) else Lower(x, i))
          case None => b.r == Lower(x, i))
    case Arriving(x) =>
      && x in s.nodes && 0 < |s.nodes[x].fwd| && Unmoved(a, b)
      && (match s.nodes[x].fwd[0]
          case Some(y) => y in s.nodes && b.r == (if s.nodes[y].key < start then Ended(BelowStart) else Taking(y))
          case None => b.r == Ended(AtEnd))
    case Taking(z) =>
      && z in s.nodes
      && (match s.nodes[z].pid
          case Some(p) => b.r == Between(z) && b.visited == a.visited + [s.nodes[z].key] && b.pids == a.pids + [p]
          case None => b.r == Ended(Reserved(s.nodes[z].key)) && Unmoved(a, b))
    case Between(z) =>
      && z in s.nodes && 0 < |s.nodes[z].fwd| && Unmoved(a, b)
      && (match s.nodes[z].fwd[0]
          case Some(y) => y in s.nodes && b.r == Taking(y)
          case None => b.r == Ended(AtEnd))
    case Ended(_) => false
  }

  ghost predicate Unmoved(a: Scene, b: Scene) {
    b.visited == a.visited && b.pids == a.pids
  }

  predicate UnderWay(r: Cursor) {
    !r.Outset? && !r.Ended?
  }

  ghost predicate Moves(k: int, start: int, a: Scene, st: Step, b: Scene) {
    if st.Read? then
      && CursorNext(start, a, b) && b.s == a.s && b.w == a.w
      && (if a.r.Outset? then b.reach == Linkage(a.s) && b.seen == {ValueOf(a.s, k)} && b.held == Reservations(a.s)
          else b.reach == a.reach && b.seen == a.seen && b.held == a.held)
    else
      && WriterNext(a.s, a.w, st, b.s, b.w) && b.r == a.r && Unmoved(a, b)
      && (if UnderWay(a.r)
          then && b.reach == a.reach + Linkage(b.s) && b.seen == a.seen + {ValueOf(b.s, k)}
               && b.held == a.held + Reservations(b.s)
          else b.reach == a.reach && b.seen == a.seen && b.held == a.held)
  }

  /** A list in good order, an idle writer, and a loop about to begin. */
  ghost predicate Begins(a: Scene) {
    WriterInv(a.s, a.w) && a.r == Outset && a.visited == [] && a.pids == []
  }

  ghost predicate IsIteration(k: int, start: int, run: seq<Scene>, steps: seq<Step>) {
    && |run| == |steps| + 1 && Begins(run[0])
    && forall i | 0 <= i < |steps| :: Moves(k, start, run[i], steps[i], run[i + 1])
  }

  // ---------------------------------------------------------------- the invariant

  ghost predicate Rising(l: seq<int>) {
    forall i, j | 0 <= i < j < |l| :: l[i] < l[j]
  }

  /** What has been visited: rising numbers from the start on, each with a value it stood for. */
  ghost predicate Log(k: int, start: int, a: Scene) {
    && |a.pids| == |a.visited| && Rising(a.visited)
    && (forall i | 0 <= i < |a.visited| :: start <= a.visited[i])
    && (forall i | 0 <= i < |a.visited| && a.visited[i] == k :: Some(a.pids[i]) in a.seen)
  }

  /** k has stood for a pid all along, and has not been visited. */
  ghost predicate Due(k: int, start: int, a: Scene) {
    start <= k && None !in a.seen && k !in a.visited
  }

  ghost predicate AllBelow(l: seq<int>, n: int) {
    forall i | 0 <= i < |l| :: l[i] < n
  }

  /** Whoever still leads to a node without a pid leads to a number that was reserved. */
  ghost predicate OnlyHeld(s: Shape<nat>, reach: set<nat>, held: set<int>) {
    forall n, y | n in reach && n in s.nodes && y in s.nodes && Behind(s, n, Some(y)) && y != s.header
                  && s.nodes[y].pid == None ::
      s.nodes[y].key in held
  }

  ghost predicate CursorInv(k: int, start: int, a: Scene) {
    match a.r
    case Outset => a.visited == []
    case Descending(x, i) => a.visited == [] && Standing(start, a.s, a.reach, x, i)
    case Arriving(x) => a.visited == [] && Standing(start, a.s, a.reach, x, 0)
    case Taking(z) =>
      && z in a.reach && z in a.s.nodes && z != a.s.header && start <= a.s.nodes[z].key
      && AllBelow(a.visited, a.s.nodes[z].key)
      && (a.s.nodes[z].key == k ==> a.s.nodes[z].pid in a.seen)
      && (a.s.nodes[z].pid == None ==> a.s.nodes[z].key in a.held)
      && (Due(k, start, a) ==> a.s.nodes[z].key <= k)
    case Between(z) =>
      && z in a.reach && z in a.s.nodes && z != a.s.header && AllBelow(a.visited, a.s.nodes[z].key + 1)
      && start <= a.s.nodes[z].key
      && (Due(k, start, a) ==> a.s.nodes[z].key < k)
    case Ended(why) =>
      && (why.BelowStart? ==> a.visited == [])
      && (why.Reserved? ==> AllBelow(a.visited, why.n) && start <= why.n && why.n in a.held)
      && (Due(k, start, a) ==> why.BelowStart? || (why.Reserved? && why.n < k))
  }

  ghost predicate SceneInv(k: int, start: int, a: Scene) {
    && WriterInv(a.s, a.w) && Log(k, start, a) && CursorInv(k, start, a)
    && (UnderWay(a.r) ==> HistoryInv(k, a.s, a.reach, a.seen) && OnlyHeld(a.s, a.reach, a.held))
  }

  // ---------------------------------------------------------------- every step keeps it

  /** A write disturbs neither what has been visited nor where the cursor is. */
  lemma WriteKeeps(k: int, start: int, a: Scene, st: Step, b: Scene)
    requires SceneInv(k, start, a) && Moves(k, start, a, st, b) && !st.Read?
    ensures SceneInv(k, start, b)
  {
    hide Inv, HistoryInv, OnlyHeld, WriterInv, WriterNext, Evolves, Contents, ValueOf, Linkage, Reservations;
    WriterStep(a.s, a.w, st, b.s, b.w);
    ShapeInv(b.s, b.w);
    if UnderWay(a.r) {
      HistoryKeeps(k, a.s, b.s, a.reach, a.seen);
      HistoryParts(k, a.s, a.reach, a.seen);
      OnlyHeldKeeps(a.s, b.s, a.reach, a.held);
      CursorKept(k, start, a, b);
    }
  }

  lemma CursorKept(k: int, start: int, a: Scene, b: Scene)
    requires Inv(b.s) && Evolves(a.s, b.s) && CursorInv(k, start, a) && UnderWay(a.r)
    requires b.r == a.r && Unmoved(a, b) && b.reach == a.reach + Linkage(b.s) && b.seen == a.seen + {ValueOf(b.s, k)}
    requires b.held == a.held + Reservations(b.s)
    ensures CursorInv(k, start, b)
  {
    hide Inv, Linkage, ValueOf, Reservations;
    match a.r
    case Descending(x, i) => StandingKept(start, a.s, b.s, a.reach, b.reach, x, i);
    case Arriving(x) => StandingKept(start, a.s, b.s, a.reach, b.reach, x, 0);
    case Taking(z) =>
      if a.s.nodes[z].key == k {
        FetchKept(a.s, b.s, z, k);
      }
      HeldKept(a.s, b.s, z);
    case Between(z) =>
  }

  /** A node that loses its pid is one of the list, and so its number is reserved then. */
  lemma HeldKept(s: Shape<nat>, t: Shape<nat>, z: nat)
    requires Inv(t) && Evolves(s, t) && z in s.nodes && z != s.header
    ensures z in t.nodes && t.nodes[z].key == s.nodes[z].key
    ensures t.nodes[z].pid == None ==> s.nodes[z].pid == None || t.nodes[z].key in Reservations(t)
  {
    if Linked(t, z, 0) {
      ReservedHere(t, z);
    }
  }

  lemma ReservedHere(t: Shape<nat>, z: nat)
    requires Inv(t) && Linked(t, z, 0) && z != t.header
    ensures t.nodes[z].pid == None ==> t.nodes[z].key in Reservations(t)
  {
    ContentsAt(t, z);
  }

  lemma OnlyHeldKeeps(s: Shape<nat>, t: Shape<nat>, reach: set<nat>, held: set<int>)
    requires Inv(t) && Evolves(s, t) && ReachInv(s, reach) && OnlyHeld(s, reach, held)
    ensures OnlyHeld(t, reach + Linkage(t), held + Reservations(t))
  {
    hide Chained, UniqueKeys, Capped, Contents, Reservations;
    forall n, y | n in reach + Linkage(t) && n in t.nodes && y in t.nodes && Behind(t, n, Some(y)) && y != t.header
                  && t.nodes[y].pid == None
      ensures t.nodes[y].key in held + Reservations(t)
    {
      if Active(t, n) {
        LedToLinked(t, n, y);
        ReservedHere(t, y);
      } else {
        assert LeadsOn(s, reach, n, 0) && Behind(s, n, Some(y));
        HeldKept(s, t, y);
      }
    }
  }

  lemma OnlyHeldStarts(s: Shape<nat>)
    requires Inv(s)
    ensures OnlyHeld(s, Linkage(s), Reservations(s))
  {
    hide Chained, UniqueKeys, Capped, Contents, Reservations;
    forall n, y | n in Linkage(s) && n in s.nodes && y in s.nodes && Behind(s, n, Some(y)) && y != s.header
                  && s.nodes[y].pid == None
      ensures s.nodes[y].key in Reservations(s)
    {
      LedToLinked(s, n, y);
      ReservedHere(s, y);
    }
  }

  /** A pointer followed: further on, not past a number still due, and with a value on record. */
  lemma Followed(k: int, start: int, a: Scene, x: nat, y: nat)
    requires HistoryInv(k, a.s, a.reach, a.seen) && x in a.reach && Behind(a.s, x, Some(y))
    ensures y in a.reach && y in a.s.nodes && y != a.s.header && Pos(a.s, x) < a.s.nodes[y].key
    ensures a.s.nodes[y].key == k ==> a.s.nodes[y].pid in a.seen
    ensures None !in a.seen && Pos(a.s, x) < k ==> a.s.nodes[y].key <= k
  {
    ReachHeight(k, a.s, a.reach, a.seen, x);
    PointerGood(k, a.s, a.reach, a.seen, x, 0);
    if None !in a.seen && Pos(a.s, x) < k {
      assert StopsShort(a.s, x, k);
    }
    if a.s.nodes[y].key == k {
      assert OnRecord(a.s, x, k, a.seen);
    }
  }

  lemma ReachHeight(k: int, s: Shape<nat>, reach: set<nat>, seen: set<Option<Pid>>, x: nat)
    requires HistoryInv(k, s, reach, seen) && x in reach
    ensures x in s.nodes && 0 < s.nodes[x].hi <= |s.nodes[x].fwd|
  {
  }

  /** Where nothing follows, nothing is due any more. */
  lemma NothingFollows(k: int, a: Scene, x: nat)
    requires HistoryInv(k, a.s, a.reach, a.seen) && x in a.reach && Behind(a.s, x, None)
    ensures None !in a.seen ==> k <= Pos(a.s, x)
  {
    ReachHeight(k, a.s, a.reach, a.seen, x);
  }

  lemma OutsetStanding(start: int, s: Shape<nat>)
    requires Inv(s) && Least(s) == INT_MIN && INT_MIN <= start
    ensures 1 <= s.level <= PID_SL_MAX_LEVEL && Standing(start, s, Linkage(s), s.header, s.level - 1)
  {
  }

  lemma ReadKeepsScene(k: int, start: int, a: Scene, b: Scene)
    requires INT_MIN <= start && SceneInv(k, start, a) && Moves(k, start, a, Read, b)
    ensures SceneInv(k, start, b)
  {
    hide WriterInv, HistoryInv, OnlyHeld, Linkage, ValueOf, Reservations, Inv, WellSized;
    match a.r
    case Outset =>
      ShapeInv(a.s, a.w);
      HistoryStarts(k, a.s);
      OnlyHeldStarts(a.s);
      OutsetStanding(start, a.s);
    case Descending(x, i) => PointerGood(k, a.s, a.reach, a.seen, x, i);
    case Arriving(x) => FollowedOrNot(k, start, a, x);
    case Taking(z) => TakingKeeps(k, start, a, b, z);
    case Between(z) => FollowedOrNot(k, start, a, z);
    case Ended(_) =>
  }

  lemma FollowedOrNot(k: int, start: int, a: Scene, x: nat)
    requires HistoryInv(k, a.s, a.reach, a.seen) && OnlyHeld(a.s, a.reach, a.held) && x in a.reach
    ensures x in a.s.nodes && 0 < |a.s.nodes[x].fwd|
    ensures match a.s.nodes[x].fwd[0]
            case None => None !in a.seen ==> k <= Pos(a.s, x)
            case Some(y) =>
              && y in a.reach && y in a.s.nodes && y != a.s.header && Pos(a.s, x) < a.s.nodes[y].key
              && (a.s.nodes[y].key == k ==> a.s.nodes[y].pid in a.seen)
              && (a.s.nodes[y].pid == None ==> a.s.nodes[y].key in a.held)
              && (None !in a.seen && Pos(a.s, x) < k ==> a.s.nodes[y].key <= k)
  {
    hide HistoryInv;
    ReachHeight(k, a.s, a.reach, a.seen, x);
    match a.s.nodes[x].fwd[0]
    case None => NothingFollows(k, a, x);
    case Some(y) =>
      Followed(k, start, a, x, y);
      assert Behind(a.s, x, Some(y));
  }

  lemma TakingKeeps(k: int, start: int, a: Scene, b: Scene, z: nat)
    requires a.r == Taking(z) && SceneInv(k, start, a) && CursorNext(start, a, b)
    requires b.s == a.s && b.w == a.w && b.reach == a.reach && b.seen == a.seen && b.held == a.held
    ensures SceneInv(k, start, b)
  {
    hide WriterInv, HistoryInv, OnlyHeld;
    if a.s.nodes[z].pid.Some? {
      var n := |a.visited|;
      assert b.visited[n] == a.s.nodes[z].key && b.visited[..n] == a.visited;
      assert k in b.visited <==> k in a.visited || k == a.s.nodes[z].key;
    }
  }

  lemma SceneKeeps(k: int, start: int, a: Scene, st: Step, b: Scene)
    requires INT_MIN <= start && SceneInv(k, start, a) && Moves(k, start, a, st, b)
    ensures SceneInv(k, start, b)
  {
    hide SceneInv, Moves;
    if st.Read? {
      ReadKeepsScene(k, start, a, b);
    } else {
      WriteKeeps(k, start, a, st, b);
    }
  }

  lemma BeginsInv(k: int, start: int, a: Scene)
    requires Begins(a)
    ensures SceneInv(k, start, a)
  {
    hide WriterInv;
  }

  lemma {:induction false} IterationInv(k: int, start: int, run: seq<Scene>, steps: seq<Step>, i: nat)
    requires INT_MIN <= start && IsIteration(k, start, run, steps) && i < |run|
    ensures SceneInv(k, start, run[i])
  {
    hide SceneInv, Moves, Begins;
    if i == 0 {
      BeginsInv(k, start, run[0]);
    } else {
      IterationInv(k, start, run, steps, i - 1);
      SceneKeeps(k, start, run[i - 1], steps[i - 1], run[i]);
    }
  }

  // ---------------------------------------------------------------- what the loop is given

  /** `v` is what `k` stood for at some instant while the loop was under way. */
  ghost predicate Stood(k: int, run: seq<Scene>, i: nat, v: Option<Pid>)
    requires i < |run|
  {
    exists j :: 0 <= j <= i && UnderWay(run[j].r) && ValueOf(run[j].s, k) == v
  }

  lemma CursorMoves(k: int, start: int, a: Scene, st: Step, b: Scene)
    requires Moves(k, start, a, st, b)
    ensures a.r.Ended? ==> b.r == a.r && !st.Read?
    ensures b.r.Outset? ==> a.r.Outset?
    ensures a.r.Outset? && !b.r.Outset? ==> st.Read? && UnderWay(b.r)
    ensures st.Read? && !a.r.Outset? ==> UnderWay(a.r)
  {
  }

  lemma {:induction false} SeenIsRecord(k: int, start: int, run: seq<Scene>, steps: seq<Step>, i: nat, v: Option<Pid>)
    requires IsIteration(k, start, run, steps) && i < |run|
    ensures run[i].r.Outset? ==> !Stood(k, run, i, v)
    ensures !run[i].r.Outset? ==> (v in run[i].seen <==> Stood(k, run, i, v))
  {
    hide ValueOf, WriterNext, CursorNext, Linkage, Begins;
    if i > 0 {
      SeenIsRecord(k, start, run, steps, i - 1, v);
      var a, b := run[i - 1], run[i];
      assert Moves(k, start, a, steps[i - 1], b);
      CursorMoves(k, start, a, steps[i - 1], b);
      assert Stood(k, run, i, v) <==> Stood(k, run, i - 1, v) || (UnderWay(b.r) && ValueOf(b.s, k) == v);
      if steps[i - 1].Read? && !a.r.Outset? && ValueOf(a.s, k) == v {
        assert Stood(k, run, i - 1, v);
      }
    } else {
      BeginsAtOutset(run[0]);
    }
  }

  lemma BeginsAtOutset(a: Scene)
    requires Begins(a)
    ensures a.r.Outset?
  {
  }

  /** Number n was reserved at some instant while the loop was under way. */
  ghost predicate WasReserved(run: seq<Scene>, i: nat, n: int)
    requires i < |run|
  {
    exists j :: 0 <= j <= i && UnderWay(run[j].r) && n in Reservations(run[j].s)
  }

  lemma {:induction false} HeldIsRecord(k: int, start: int, run: seq<Scene>, steps: seq<Step>, i: nat, n: int)
    requires IsIteration(k, start, run, steps) && i < |run|
    ensures run[i].r.Outset? ==> !WasReserved(run, i, n)
    ensures !run[i].r.Outset? ==> (n in run[i].held <==> WasReserved(run, i, n))
  {
    hide ValueOf, Reservations, WriterNext, CursorNext, Linkage, Begins;
    if i > 0 {
      HeldIsRecord(k, start, run, steps, i - 1, n);
      var a, b := run[i - 1], run[i];
      assert Moves(k, start, a, steps[i - 1], b);
      CursorMoves(k, start, a, steps[i - 1], b);
      assert WasReserved(run, i, n) <==>
             WasReserved(run, i - 1, n) || (UnderWay(b.r) && n in Reservations(b.s));
      if steps[i - 1].Read? && !a.r.Outset? && n in Reservations(a.s) {
        assert WasReserved(run, i - 1, n);
      }
    } else {
      BeginsAtOutset(run[0]);
    }
  }

  /**
   The loop against every interleaving.  It meets numbers in rising order, so none twice, and
   with each a value that the number had meanwhile.  A number that stands for a pid all along
   is met, exactly unless the loop ends before it: at a number that was reserved meanwhile, or
   at once, behind a node below the start number.
   */
  lemma IterationComplete(k: int, start: int, run: seq<Scene>, steps: seq<Step>, i: nat)
    requires INT_MIN <= start && IsIteration(k, start, run, steps) && i < |run| && run[i].r.Ended?
    ensures Rising(run[i].visited) && |run[i].pids| == |run[i].visited|
    ensures forall j | 0 <= j < |run[i].visited| ::
              && start <= run[i].visited[j]
              && (run[i].visited[j] == k ==> Stood(k, run, i, Some(run[i].pids[j])))
    ensures start <= k && !Stood(k, run, i, None) ==>
              (k in run[i].visited <==> !run[i].r.why.BelowStart? && !(run[i].r.why.Reserved? && run[i].r.why.n < k))
    ensures run[i].r.why.Reserved? ==> start <= run[i].r.why.n && WasReserved(run, i, run[i].r.why.n)
  {
    hide WriterInv, Stood, WasReserved, HistoryInv;
    IterationInv(k, start, run, steps, i);
    if run[i].r.why.Reserved? {
      HeldIsRecord(k, start, run, steps, i, run[i].r.why.n);
    }
    SeenIsRecord(k, start, run, steps, i, None);
    forall j | 0 <= j < |run[i].visited| && run[i].visited[j] == k
      ensures Stood(k, run, i, Some(run[i].pids[j]))
    {
      SeenIsRecord(k, start, run, steps, i, Some(run[i].pids[j]));
    }
  }

  // ---------------------------------------------------------------- why the loop may end at once

  /** The step links a node below the start number right behind the node the search has stopped at. */
  ghost predicate Undercuts(start: int, a: Scene, st: Step) {
    a.r.Arriving? && Squeezes(start, AsLookup(a), st)
  }

  /** The search before its last read, seen as that of a lookup. */
  ghost function AsLookup(a: Scene): World {
    World(a.s, a.w, if a.r.Arriving? then Rereading(a.r.x) else Waiting, a.reach, a.seen, false)
  }

  lemma UndercutStarts(k: int, start: int, a: Scene, st: Step, b: Scene)
    requires SceneInv(k, start, a) && Moves(k, start, a, st, b) && !st.Read? && a.r.Arriving?
    requires LeadsBelow(b.s, a.r.x, start) && !LeadsBelow(a.s, a.r.x, start)
    ensures Undercuts(start, a, st)
  {
    hide Inv, WriterInv, HistoryInv, OnlyHeld, ReachInv, LeadsBelow, Squeezes;
    HistoryParts(k, a.s, a.reach, a.seen);
    SqueezedBy(start, AsLookup(a), st, b.s, b.w);
  }

  lemma {:induction false} ArrivingHow(k: int, start: int, run: seq<Scene>, steps: seq<Step>, i: nat)
    requires INT_MIN <= start && IsIteration(k, start, run, steps) && i < |run|
    requires run[i].r.Arriving? && LeadsBelow(run[i].s, run[i].r.x, start)
    ensures exists j :: 0 <= j < i && Undercuts(start, run[j], steps[j])
  {
    hide SceneInv, Undercuts, WriterNext, Linkage, ValueOf;
    if i > 0 {
      var a, b := run[i - 1], run[i];
      assert Moves(k, start, a, steps[i - 1], b);
      if a.r.Arriving? {
        IterationInv(k, start, run, steps, i - 1);
        if LeadsBelow(a.s, a.r.x, start) {
          ArrivingHow(k, start, run, steps, i - 1);
        } else {
          UndercutStarts(k, start, a, steps[i - 1], b);
        }
      }
    }
  }

  /** The loop ends at once only because of such a link: never if no smaller number is inserted. */
  lemma {:induction false} BelowStartHow(k: int, start: int, run: seq<Scene>, steps: seq<Step>, i: nat)
    requires INT_MIN <= start && IsIteration(k, start, run, steps) && i < |run| && run[i].r == Ended(BelowStart)
    ensures exists j :: 0 <= j < i && Undercuts(start, run[j], steps[j])
  {
    hide SceneInv, Undercuts, WriterNext, Linkage, ValueOf;
    if i > 0 {
      var a, b := run[i - 1], run[i];
      assert Moves(k, start, a, steps[i - 1], b);
      if a.r.Arriving? {
        ArrivingHow(k, start, run, steps, i - 1);
      } else {
        BelowStartHow(k, start, run, steps, i - 1);
      }
    }
  }

  /**
   What a caller can arrange: if nothing smaller than the start is linked behind the node the
   search has stopped at, a number that stands for a pid all along is met unless the loop ends at
   a smaller one that was reserved; if none from the start on was, at any instant, it is met.
   */
  lemma IterationWithoutSmallerInserts(k: int, start: int, run: seq<Scene>, steps: seq<Step>, i: nat)
    requires INT_MIN <= start <= k && IsIteration(k, start, run, steps) && i < |run| && run[i].r.Ended?
    requires forall j | 0 <= j < i :: !Undercuts(start, run[j], steps[j])
    requires !Stood(k, run, i, None)
    ensures k in run[i].visited <==> !(run[i].r.why.Reserved? && run[i].r.why.n < k)
    ensures k !in run[i].visited ==> exists n | start <= n < k :: WasReserved(run, i, n)
  {
    hide Stood, WasReserved, Undercuts, Moves, Begins;
    IterationComplete(k, start, run, steps, i);
    if run[i].r.why.BelowStart? {
      BelowStartHow(k, start, run, steps, i);
    }
  }

  /** Until it has ended, the loop can always take its next read. */
  lemma CursorNeverStuck(k: int, start: int, a: Scene) returns (b: Scene)
    requires INT_MIN <= start && SceneInv(k, start, a) && !a.r.Ended?
    ensures Moves(k, start, a, Read, b)
  {
    hide HistoryInv, WriterInv, Linkage, ValueOf, Inv;
    ShapeInv(a.s, a.w);
    var r := a.r;
    match a.r {
      case Outset =>
        LevelBounds(a.s);
        r := Descending(a.s.header, a.s.level - 1);
      case Descending(x, i) =>
        PointerGood(k, a.s, a.reach, a.seen, x, i);
        var y := a.s.nodes[x].fwd[i];
        r := if y.Some? && a.s.nodes[y.value].key < start then Descending(y.value, i) else Lower(x, i);
      case Arriving(x) =>
        FollowedOrNot(k, start, a, x);
        var y := a.s.nodes[x].fwd[0];
        r := if y == None then Ended(AtEnd)
             else if a.s.nodes[y.value].key < start then Ended(BelowStart) else Taking(y.value);
      case Taking(z) =>
        r := if a.s.nodes[z].pid == None then Ended(Reserved(a.s.nodes[z].key)) else Between(z);
      case Between(z) =>
        FollowedOrNot(k, start, a, z);
        var y := a.s.nodes[z].fwd[0];
        r := if y == None then Ended(AtEnd) else Taking(y.value);
    }
    b := if a.r.Outset?
         then a.(r := r, reach := Linkage(a.s), seen := {ValueOf(a.s, k)}, held := Reservations(a.s))
         else a.(r := r);
    if a.r.Taking? && r.Between? {
      b := b.(visited := a.visited + [a.s.nodes[r.z].key], pids := a.pids + [a.s.nodes[r.z].pid.value]);
    }
  }

  /** A lookup that misses its number, seen as a loop that starts there. */
  ghost function AsLoop(a: World, held: set<int>): Scene {
    var r := match a.r
             case Waiting => Outset
             case Walking(x, i) => Descending(x, i)
             case Rereading(x) => Arriving(x)
             case Fetching(z) => Taking(z)
             case Returned(_) => Ended(BelowStart);
    Scene(a.s, a.w, r, a.reach, a.seen, held, [], [])
  }

  /** The reservations on record after j steps of the worlds. */
  ghost function HeldAfter(worlds: seq<World>, steps: seq<Step>, j: nat): set<int>
    requires j < |worlds| && j <= |steps|
  {
    if j == 0 then {}
    else if worlds[j - 1].r.Waiting? then Reservations(worlds[j - 1].s)
    else if steps[j - 1].Read? then HeldAfter(worlds, steps, j - 1)
    else HeldAfter(worlds, steps, j - 1) + Reservations(worlds[j].s)
  }

  lemma MovesAlike(k: int, worlds: seq<World>, steps: seq<Step>, j: nat)
    requires j + 1 < |worlds| && j < |steps| && Next(k, worlds[j], steps[j], worlds[j + 1])
    requires !worlds[j].r.Fetching? && !worlds[j + 1].r.Fetching? && !worlds[j].r.Returned?
    requires worlds[j].r.Waiting? ==> steps[j].Read?
    requires steps[j].Read? && worlds[j].r.Rereading? ==> LeadsBelow(worlds[j].s, worlds[j].r.x, k)
    ensures Moves(k, k, AsLoop(worlds[j], HeldAfter(worlds, steps, j)), steps[j],
                  AsLoop(worlds[j + 1], HeldAfter(worlds, steps, j + 1)))
  {
    hide WriterNext, Linkage, ValueOf, Reservations, HitsReader;
  }

  /**
   Such a loop can end at once: it starts at 5, which stands for pid 1 all along, and is given
   nothing, because 3 is inserted between its two reads of the header's first pointer.
   */
  lemma CutOff() returns (run: seq<Scene>, steps: seq<Step>)
    ensures IsIteration(5, 5, run, steps) && |run| == 8 && run[7].r == Ended(BelowStart) && run[7].visited == []
    ensures forall j | 0 <= j < 8 :: ValueOf(run[j].s, 5) == Some(1)
  {
    hide Init, Next, Moves, ValueOf, LeadsBelow, WriterInv, WorldInv;
    var all, allSteps := MissedLookup();
    var worlds := all[4..];
    steps := allSteps[4..];
    run := seq(8, j requires 0 <= j < 8 => AsLoop(worlds[j], HeldAfter(worlds, steps, j)));
    RunInv(5, all, allSteps, 4);
    WriterSound(5, worlds[0]);
    forall j | 0 <= j < 7
      ensures Moves(5, 5, run[j], steps[j], run[j + 1])
    {
      assert Next(5, all[4 + j], allSteps[4 + j], all[5 + j]);
      ReadLeaves(5, worlds[j], steps[j], worlds[j + 1]);
      MovesAlike(5, worlds, steps, j);
    }
  }

  /**
   It can also end early at a reservation: started at 2, it is given nothing, because 3 is
   reserved, though 5 stands for pid 1 all along.
   */
  lemma CutAtReserved() returns (run: seq<Scene>, steps: seq<Step>)
    ensures IsIteration(5, 2, run, steps) && |run| == 5 && run[4].r == Ended(Reserved(3)) && run[4].visited == []
    ensures forall j | 0 <= j < 5 :: ValueOf(run[j].s, 5) == Some(1)
  {
    hide ValueOf, WriterInv, Linkage, Reservations;
    var e := ReservedBefore();
    var a := Scene(e.s, Idle, Outset, {}, {}, {}, [], []);
    var b := a.(r := Descending(0, 0), reach := Linkage(e.s), seen := {ValueOf(e.s, 5)}, held := Reservations(e.s));
    run := [a, b, b.(r := Arriving(0)), b.(r := Taking(2)), b.(r := Ended(Reserved(3)))];
    steps := [Read, Read, Read, Read];
  }
}

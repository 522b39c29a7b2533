/**
 The search for the first pid from a number on, lock-free against the writer of ConcurrentList,
 access by access.  It walks like a lookup, but takes whatever node it finds at its last read of
 a pointer, without comparing the number again.
 */
module ConcurrentFind {
  import opened Counting
  import opened Options
  import opened Towers
  import opened ConcurrentList

  /** `reach` and `seen` record linked nodes and the values of a number k, as for a lookup, and `firsts`
      which numbers came first from the one asked for on; `number` is that of the node taken. */
  datatype Probe = Probe(s: Shape<nat>, w: Writer, r: Reader, reach: set<nat>, seen: set<Option<Pid>>,
                         firsts: set<Option<int>>, number: Option<int>)

  /** The first number in use from `from` on, at this instant. */
  ghost function FirstFrom(s: Shape<nat>, from: int): Option<int> {
    if UniqueKeys(s) && exists n :: IsLeastFrom(Contents(s), from, Some(n)) then
      var n :| IsLeastFrom(Contents(s), from, Some(n));
      Some(n)
    else None
  }

  /** One read of the search. */
  ghost predicate FinderNext(from: int, s: Shape<nat>, a: Probe, b: Probe) {
    match a.r
    case Rereading(x) =>
      && x in s.nodes && 0 < |s.nodes[x].fwd|
      && (match s.nodes[x].fwd[0]
          case Some(y) => y in s.nodes && b.r == Fetching(y) && b.number == Some(s.nodes[y].key)
          case None => b.r == Returned(None) && b.number == None)
    case _ => ReaderNext(from, s, a.r, b.r) && b.number == a.number
  }

  ghost predicate Probes(k: int, from: int, a: Probe, st: Step, b: Probe) {
    if st.Read? then
      && FinderNext(from, a.s, a, b) && b.s == a.s && b.w == a.w
      && (if a.r.Waiting?
          then b.reach == Linkage(a.s) && b.seen == {ValueOf(a.s, k)} && b.firsts == {FirstFrom(a.s, from)}
          else b.reach == a.reach && b.seen == a.seen && b.firsts == a.firsts)
    else
      && WriterNext(a.s, a.w, st, b.s, b.w) && b.r == a.r && b.number == a.number
      && (if Running(a.r)
          then && b.reach == a.reach + Linkage(b.s) && b.seen == a.seen + {ValueOf(b.s, k)}
               && b.firsts == a.firsts + {FirstFrom(b.s, from)}
          else b.reach == a.reach && b.seen == a.seen && b.firsts == a.firsts)
  }

  /** A list in good order, an idle or busy writer, and a search about to begin. */
  ghost predicate AtStart(a: Probe) {
    WriterInv(a.s, a.w) && a.r == Waiting && a.number == None
  }

  ghost predicate IsSearch(k: int, from: int, run: seq<Probe>, steps: seq<Step>) {
    && |run| == |steps| + 1 && AtStart(run[0])
    && forall i | 0 <= i < |steps| :: Probes(k, from, run[i], steps[i], run[i + 1])
  }

  // ---------------------------------------------------------------- the first number from one on

  lemma {:induction false} LeastOf(ks: set<int>) returns (k: int)
    requires ks != {}
    ensures k in ks && forall j | j in ks :: k <= j
  {
    var m := Pick(ks);
    k := m;
    var rest := set j | j in ks && j < m;
    if rest != {} {
      assert m !in rest && rest < ks;
      k := LeastOf(rest);
    }
    forall j | j in ks
      ensures k <= j
    {
      if j < m {
        assert j in rest;
      }
    }
  }

  lemma FirstIs(s: Shape<nat>, from: int, r: Option<int>)
    requires UniqueKeys(s)
    ensures FirstFrom(s, from) == r <==> IsLeastFrom(Contents(s), from, r)
  {
    hide Contents;
    var later := set n | n in Contents(s) && from <= n;
    if later != {} {
      var k := LeastOf(later);
      forall j | j in Contents(s) && from <= j
        ensures k <= j
      {
        assert j in later;
      }
      assert IsLeastFrom(Contents(s), from, Some(k));
    } else {
      assert forall n | n in Contents(s) && from <= n :: n in later;
    }
  }

  /** A linked node before `from` leads to the first number from there on, or to one before it. */
  lemma FirstBehind(t: Shape<nat>, from: int, n: nat)
    requires Inv(t) && Active(t, n) && Pos(t, n) < from
    ensures |t.nodes[n].fwd| > 0
    ensures match t.nodes[n].fwd[0]
            case None => FirstFrom(t, from) == None
            case Some(y) => y in t.nodes && (from <= t.nodes[y].key ==> FirstFrom(t, from) == Some(t.nodes[y].key))
  {
    hide Chained, WellSized, Capped, UniqueKeys, Contents, FirstFrom;
    ShapeParts(t, n);
    SuccAt(t, n, 0);
    HeaderFirst(t, n);
    var r := t.nodes[n].fwd[0];
    if r == None || (r.value in t.nodes && from <= t.nodes[r.value].key) {
      LeastBehind(t, from, n, r);
      FirstIs(t, from, if r == None then None else Some(t.nodes[r.value].key));
    }
  }

  lemma ShapeParts(t: Shape<nat>, n: nat)
    requires Inv(t) && Active(t, n)
    ensures |t.nodes[n].fwd| > 0 && UniqueKeys(t)
  {
  }

  lemma LeastBehind(t: Shape<nat>, from: int, n: nat, r: Option<nat>)
    requires Inv(t) && n in t.nodes && Pos(t, n) < from && IsSucc(t, Pos(t, n), 0, r)
    requires r.Some? ==>
               && r.value in t.nodes && from <= t.nodes[r.value].key && Linked(t, r.value, 0) && r.value != t.header
    ensures IsLeastFrom(Contents(t), from, if r == None then None else Some(t.nodes[r.value].key))
  {
    hide Chained;
    if r.Some? {
      ContentsAt(t, r.value);
    }
    forall j | j in Contents(t) && from <= j
      ensures r.Some? && t.nodes[r.value].key <= j
    {
      var m := ContentsHolder(t, j);
    }
  }

  // ---------------------------------------------------------------- the invariant

  /** What a node before `from` leads to at level 0, from there on, was the first number at some instant. */
  ghost predicate FirstKnown(s: Shape<nat>, n: nat, from: int, firsts: set<Option<int>>) {
    && n in s.nodes && |s.nodes[n].fwd| > 0
    && match s.nodes[n].fwd[0]
       case None => None in firsts
       case Some(y) => y in s.nodes && (from <= s.nodes[y].key ==> Some(s.nodes[y].key) in firsts)
  }

  ghost predicate OnlyFirsts(s: Shape<nat>, reach: set<nat>, from: int, firsts: set<Option<int>>) {
    forall n | n in reach && n in s.nodes && Pos(s, n) < from :: FirstKnown(s, n, from, firsts)
  }

  ghost predicate ProbeInv(k: int, from: int, a: Probe) {
    && WriterInv(a.s, a.w)
    && (Running(a.r) ==> HistoryInv(k, a.s, a.reach, a.seen) && OnlyFirsts(a.s, a.reach, from, a.firsts))
    && match a.r
       case Waiting => a.number == None
       case Walking(x, i) => a.number == None && Standing(from, a.s, a.reach, x, i)
       case Rereading(x) => a.number == None && Standing(from, a.s, a.reach, x, 0)
       case Fetching(z) =>
         && z in a.s.nodes && z != a.s.header && a.number == Some(a.s.nodes[z].key)
         && (a.s.nodes[z].key == k ==> a.s.nodes[z].pid in a.seen)
         && (from <= a.s.nodes[z].key ==> a.number in a.firsts)
       case Returned(v) =>
         match a.number
         case None => v == None && None in a.firsts
         case Some(n) => (n == k ==> v in a.seen) && (from <= n ==> a.number in a.firsts)
  }

  lemma FirstsKeep(from: int, s: Shape<nat>, t: Shape<nat>, reach: set<nat>, firsts: set<Option<int>>)
    requires Inv(t) && Evolves(s, t) && ReachInv(s, reach) && OnlyFirsts(s, reach, from, firsts)
    ensures OnlyFirsts(t, reach + Linkage(t), from, firsts + {FirstFrom(t, from)})
  {
    hide Chained, UniqueKeys, Capped, FirstFrom;
    forall n | n in reach + Linkage(t) && n in t.nodes && Pos(t, n) < from
      ensures FirstKnown(t, n, from, firsts + {FirstFrom(t, from)})
    {
      if Active(t, n) {
        FirstBehind(t, from, n);
      } else {
        assert LeadsOn(s, reach, n, 0) && FirstKnown(s, n, from, firsts);
      }
    }
  }

  lemma FirstsStart(from: int, s: Shape<nat>)
    requires Inv(s)
    ensures OnlyFirsts(s, Linkage(s), from, {FirstFrom(s, from)})
  {
    hide Chained, UniqueKeys, Capped, FirstFrom;
    forall n | n in Linkage(s) && n in s.nodes && Pos(s, n) < from
      ensures FirstKnown(s, n, from, {FirstFrom(s, from)})
    {
      FirstBehind(s, from, n);
    }
  }

  lemma WriteKeepsProbe(k: int, from: int, a: Probe, st: Step, b: Probe)
    requires ProbeInv(k, from, a) && Probes(k, from, a, st, b) && !st.Read?
    ensures ProbeInv(k, from, b)
  {
    hide Inv, HistoryInv, OnlyFirsts, WriterInv, WriterNext, Evolves, Contents, ValueOf, FirstFrom, Linkage;
    WriterStep(a.s, a.w, st, b.s, b.w);
    ShapeInv(b.s, b.w);
    if Running(a.r) {
      HistoryKeeps(k, a.s, b.s, a.reach, a.seen);
      HistoryParts(k, a.s, a.reach, a.seen);
      FirstsKeep(from, a.s, b.s, a.reach, a.firsts);
      match a.r
      case Walking(x, i) => StandingKept(from, a.s, b.s, a.reach, b.reach, x, i);
      case Rereading(x) => StandingKept(from, a.s, b.s, a.reach, b.reach, x, 0);
      case Fetching(z) =>
        KeyKept(a.s, b.s, z);
        if a.s.nodes[z].key == k {
          FetchKept(a.s, b.s, z, k);
        }
    }
  }

  lemma KeyKept(s: Shape<nat>, t: Shape<nat>, z: nat)
    requires Evolves(s, t) && z in s.nodes
    ensures z in t.nodes && t.nodes[z].key == s.nodes[z].key && t.header == s.header
  {
  }

  lemma ReadKeepsProbe(k: int, from: int, a: Probe, b: Probe)
    requires INT_MIN <= from && ProbeInv(k, from, a) && Probes(k, from, a, Read, b)
    ensures ProbeInv(k, from, b)
  {
    hide Inv, WellSized, HistoryInv, OnlyFirsts, WriterInv, ValueOf, FirstFrom, Linkage;
    match a.r
    case Waiting =>
      ShapeInv(a.s, a.w);
      HistoryStarts(k, a.s);
      FirstsStart(from, a.s);
      SearchStanding(from, a.s);
    case Walking(x, i) => PointerGood(k, a.s, a.reach, a.seen, x, i);
    case Rereading(x) =>
      PointerGood(k, a.s, a.reach, a.seen, x, 0);
      ArrivalKnown(k, from, a, x);
    case Fetching(_) =>
    case Returned(_) =>
  }

  lemma SearchStanding(from: int, s: Shape<nat>)
    requires Inv(s) && Least(s) == INT_MIN && INT_MIN <= from
    ensures 1 <= s.level <= PID_SL_MAX_LEVEL && Standing(from, s, Linkage(s), s.header, s.level - 1)
  {
  }

  lemma ArrivalKnown(k: int, from: int, a: Probe, x: nat)
    requires HistoryInv(k, a.s, a.reach, a.seen) && OnlyFirsts(a.s, a.reach, from, a.firsts)
             && Standing(from, a.s, a.reach, x, 0)
    ensures FirstKnown(a.s, x, from, a.firsts)
    ensures a.s.nodes[x].fwd[0].Some? ==>
              var y := a.s.nodes[x].fwd[0].value;
              y != a.s.header && a.s.nodes[y].key == k ==> a.s.nodes[y].pid in a.seen
  {
    if a.s.nodes[x].fwd[0].Some? {
      assert OnRecord(a.s, x, k, a.seen) && Behind(a.s, x, a.s.nodes[x].fwd[0]);
    }
  }

  lemma ProbeKeeps(k: int, from: int, a: Probe, st: Step, b: Probe)
    requires INT_MIN <= from && ProbeInv(k, from, a) && Probes(k, from, a, st, b)
    ensures ProbeInv(k, from, b)
  {
    hide ProbeInv, Probes;
    if st.Read? {
      ReadKeepsProbe(k, from, a, b);
    } else {
      WriteKeepsProbe(k, from, a, st, b);
    }
  }

  lemma StartInv(k: int, from: int, a: Probe)
    requires AtStart(a)
    ensures ProbeInv(k, from, a)
  {
    hide WriterInv;
  }

  lemma {:induction false} SearchInv(k: int, from: int, run: seq<Probe>, steps: seq<Step>, i: nat)
    requires INT_MIN <= from && IsSearch(k, from, run, steps) && i < |run|
    ensures ProbeInv(k, from, run[i])
  {
    hide ProbeInv, Probes, AtStart;
    if i == 0 {
      StartInv(k, from, run[0]);
    } else {
      SearchInv(k, from, run, steps, i - 1);
      ProbeKeeps(k, from, run[i - 1], steps[i - 1], run[i]);
    }
  }

  // ---------------------------------------------------------------- what the search gives

  /** `v` is what `k` stood for at some instant of the search. */
  ghost predicate Meant(k: int, run: seq<Probe>, i: nat, v: Option<Pid>)
    requires i < |run|
  {
    exists j :: 0 <= j <= i && Running(run[j].r) && ValueOf(run[j].s, k) == v
  }

  /** r was the first number in use from `from` on at some instant of the search. */
  ghost predicate CameFirst(from: int, run: seq<Probe>, i: nat, r: Option<int>)
    requires i < |run|
  {
    exists j :: 0 <= j <= i && Running(run[j].r) && UniqueKeys(run[j].s) && IsLeastFrom(Contents(run[j].s), from, r)
  }

  lemma FinderMoves(k: int, from: int, a: Probe, st: Step, b: Probe)
    requires Probes(k, from, a, st, b)
    ensures a.r.Returned? ==> b.r == a.r && !st.Read?
    ensures b.r.Waiting? ==> a.r.Waiting?
    ensures a.r.Waiting? && !b.r.Waiting? ==> st.Read? && Running(b.r)
    ensures st.Read? && !a.r.Waiting? ==> Running(a.r)
  {
  }

  /** What is on record, and was so at some instant. */
  ghost predicate Recorded(k: int, from: int, run: seq<Probe>, i: nat, v: Option<Pid>, r: Option<int>)
    requires i < |run|
  {
    && (v in run[i].seen ==> exists j :: 0 <= j <= i && Running(run[j].r) && ValueOf(run[j].s, k) == v)
    && (r in run[i].firsts ==> exists j :: 0 <= j <= i && Running(run[j].r) && FirstFrom(run[j].s, from) == r)
  }

  lemma {:induction false} RecordIsPast(k: int, from: int, run: seq<Probe>, steps: seq<Step>, i: nat, v: Option<Pid>,
                                        r: Option<int>)
    requires IsSearch(k, from, run, steps) && i < |run| && !run[i].r.Waiting?
    ensures Recorded(k, from, run, i, v, r)
  {
    hide ValueOf, FirstFrom, WriterNext, FinderNext, Linkage, AtStart;
    if i > 0 {
      var a, b := run[i - 1], run[i];
      assert Probes(k, from, a, steps[i - 1], b);
      FinderMoves(k, from, a, steps[i - 1], b);
      if a.r.Waiting? {
        assert Running(run[i].r) && ValueOf(run[i].s, k) in b.seen && FirstFrom(run[i].s, from) in b.firsts;
      } else {
        RecordIsPast(k, from, run, steps, i - 1, v, r);
      }
    } else {
      StartWaits(run[0]);
    }
  }

  lemma StartWaits(a: Probe)
    requires AtStart(a)
    ensures a.r.Waiting?
  {
  }

  /** The step links a node below `from` right behind the node the search has stopped at. */
  ghost predicate Undermines(from: int, a: Probe, st: Step) {
    a.r.Rereading? && Squeezes(from, AsLookup(a), st)
  }

  /** The search seen as that of a lookup. */
  ghost function AsLookup(a: Probe): World {
    World(a.s, a.w, a.r, a.reach, a.seen, false)
  }

  lemma {:induction false} StoppedHow(k: int, from: int, run: seq<Probe>, steps: seq<Step>, i: nat)
    requires INT_MIN <= from && IsSearch(k, from, run, steps) && i < |run|
    requires run[i].r.Rereading? && LeadsBelow(run[i].s, run[i].r.x, from)
    ensures exists j :: 0 <= j < i && Undermines(from, run[j], steps[j])
  {
    hide WriterInv, HistoryInv, ReachInv, OnlyFirsts, Squeezes, WriterNext, Linkage, ValueOf, FirstFrom;
    if i > 0 {
      var a, b := run[i - 1], run[i];
      assert Probes(k, from, a, steps[i - 1], b);
      if a.r.Rereading? {
        SearchInv(k, from, run, steps, i - 1);
        if LeadsBelow(a.s, a.r.x, from) {
          StoppedHow(k, from, run, steps, i - 1);
        } else {
          HistoryParts(k, a.s, a.reach, a.seen);
          SqueezedBy(from, AsLookup(a), steps[i - 1], b.s, b.w);
          assert Undermines(from, a, steps[i - 1]);
        }
      }
    }
  }

  /** A number below the one asked for is taken only because of such a link. */
  lemma {:induction false} SmallerHow(k: int, from: int, run: seq<Probe>, steps: seq<Step>, i: nat)
    requires INT_MIN <= from && IsSearch(k, from, run, steps) && i < |run|
    requires run[i].number.Some? && run[i].number.value < from
    ensures exists j :: 0 <= j < i && Undermines(from, run[j], steps[j])
  {
    hide Undermines, WriterNext, Linkage, ValueOf, FirstFrom;
    if i > 0 {
      var a, b := run[i - 1], run[i];
      assert Probes(k, from, a, steps[i - 1], b);
      if a.r.Rereading? && steps[i - 1].Read? {
        StoppedHow(k, from, run, steps, i - 1);
      } else {
        SmallerHow(k, from, run, steps, i - 1);
      }
    }
  }

  /**
   find_ge against every interleaving.  The node it takes carries a number below the one asked
   for, which only a squeeze can bring about, or else the first number in use from there on at
   some instant of the search; and the pid it gives is what that number stood for at some
   instant.  Without a node it gives NULL, and at some instant there was no such number.
   */
  lemma FindGeResult(k: int, from: int, run: seq<Probe>, steps: seq<Step>, i: nat)
    requires INT_MIN <= from && IsSearch(k, from, run, steps) && i < |run| && run[i].r.Returned?
    ensures CameFirst(from, run, i, run[i].number) <==> !(run[i].number.Some? && run[i].number.value < from)
    ensures run[i].number.Some? && run[i].number.value < from ==>
              exists j :: 0 <= j < i && Undermines(from, run[j], steps[j])
    ensures run[i].number == None ==> run[i].r.v == None
    ensures run[i].number == Some(k) ==> Meant(k, run, i, run[i].r.v)
  {
    hide WriterInv, HistoryInv, OnlyFirsts, IsSearch, Undermines, FirstFrom, ValueOf;
    SearchInv(k, from, run, steps, i);
    RecordIsPast(k, from, run, steps, i, run[i].r.v, run[i].number);
    if run[i].number.Some? && run[i].number.value < from {
      SmallerHow(k, from, run, steps, i);
    } else {
      var j :| 0 <= j <= i && Running(run[j].r) && FirstFrom(run[j].s, from) == run[i].number;
      SearchInv(k, from, run, steps, j);
      ShapeInv(run[j].s, run[j].w);
      FirstIs(run[j].s, from, run[i].number);
      assert CameFirst(from, run, i, run[i].number);
    }
  }

  /** Until it has returned, the search can always take its next read. */
  lemma FinderNeverStuck(k: int, from: int, a: Probe) returns (b: Probe)
    requires INT_MIN <= from && ProbeInv(k, from, a) && !a.r.Returned?
    ensures Probes(k, from, a, Read, b)
  {
    hide HistoryInv, OnlyFirsts, WriterInv, Linkage, ValueOf, FirstFrom, Inv;
    ShapeInv(a.s, a.w);
    b := a;
    match a.r
    case Waiting =>
      LevelBounds(a.s);
      b := a.(r := Walking(a.s.header, a.s.level - 1), reach := Linkage(a.s), seen := {ValueOf(a.s, k)},
              firsts := {FirstFrom(a.s, from)});
    case Walking(x, i) =>
      PointerGood(k, a.s, a.reach, a.seen, x, i);
      var y := a.s.nodes[x].fwd[i];
      b := a.(r := if y.Some? && a.s.nodes[y.value].key < from then Walking(y.value, i) else Down(x, i));
    case Rereading(x) =>
      PointerGood(k, a.s, a.reach, a.seen, x, 0);
      var y := a.s.nodes[x].fwd[0];
      b := if y == None then a.(r := Returned(None), number := None)
           else a.(r := Fetching(y.value), number := Some(a.s.nodes[y.value].key));
    case Fetching(z) =>
      b := a.(r := Returned(a.s.nodes[z].pid));
  }

  // ---------------------------------------------------------------- a smaller number found

  ghost function AsProbe(a: World, firsts: set<Option<int>>): Probe {
    Probe(a.s, a.w, a.r, a.reach, a.seen, firsts, None)
  }

  /** The first numbers on record after j steps of a lookup of k. */
  ghost function FirstsAfter(k: int, worlds: seq<World>, steps: seq<Step>, j: nat): set<Option<int>>
    requires j < |worlds| && j <= |steps|
  {
    if j == 0 then {}
    else if worlds[j - 1].r.Waiting? then {FirstFrom(worlds[j - 1].s, k)}
    else if steps[j - 1].Read? then FirstsAfter(k, worlds, steps, j - 1)
    else FirstsAfter(k, worlds, steps, j - 1) + {FirstFrom(worlds[j].s, k)}
  }

  lemma ProbesAlike(k: int, worlds: seq<World>, steps: seq<Step>, j: nat)
    requires j + 1 < |worlds| && j < |steps| && Next(k, worlds[j], steps[j], worlds[j + 1])
    requires !worlds[j].r.Fetching? && !worlds[j].r.Returned? && (steps[j].Read? ==> !worlds[j].r.Rereading?)
    requires worlds[j].r.Waiting? ==> steps[j].Read?
    ensures Probes(k, k, AsProbe(worlds[j], FirstsAfter(k, worlds, steps, j)), steps[j],
                   AsProbe(worlds[j + 1], FirstsAfter(k, worlds, steps, j + 1)))
  {
    hide WriterNext, Linkage, ValueOf, FirstFrom, HitsReader;
  }

  /** What the two last reads come to on a node numbered 3 with pid 2. */
  lemma TakesSmaller(a: Probe) returns (b: Probe, d: Probe)
    requires a.r == Rereading(0) && Behind(a.s, 0, Some(2)) && 2 in a.s.nodes
    requires a.s.nodes[2].key == 3 && a.s.nodes[2].pid == Some(2)
    ensures Probes(5, 5, a, Read, b) && Probes(5, 5, b, Read, d) && d.r == Returned(Some(2)) && d.number == Some(3)
    ensures d.s == b.s == a.s
  {
    b := a.(r := Fetching(2), number := Some(3));
    d := b.(r := Returned(Some(2)));
  }

  /**
   The code as it stands can give a pid below the number asked for: find_ge of 5, which stands
   for pid 1 all along, gives the pid of 3, which is inserted between its two reads of the
   header's first pointer.
   */
  lemma FoundSmaller() returns (run: seq<Probe>, steps: seq<Step>)
    ensures IsSearch(5, 5, run, steps) && |run| == 9 && run[8].r == Returned(Some(2)) && run[8].number == Some(3)
    ensures forall j | 0 <= j < 9 :: ValueOf(run[j].s, 5) == Some(1)
  {
    hide Init, Next, Probes, ValueOf, LeadsBelow, WriterInv, WorldInv;
    var all, allSteps := MissedLookup();
    var worlds, first := all[4..], allSteps[4..];
    var start := seq(7, j requires 0 <= j < 7 => AsProbe(worlds[j], FirstsAfter(5, worlds, first, j)));
    RunInv(5, all, allSteps, 4);
    WriterSound(5, worlds[0]);
    var b, d := TakesSmaller(start[6]);
    run, steps := start + [b, d], first[..6] + [Read, Read];
    forall j | 0 <= j < 8
      ensures Probes(5, 5, run[j], steps[j], run[j + 1])
    {
      if j < 6 {
        assert Next(5, all[4 + j], allSteps[4 + j], all[5 + j]);
        ReadLeaves(5, worlds[j], first[j], worlds[j + 1]);
        ProbesAlike(5, worlds, first, j);
      }
    }
  }
}

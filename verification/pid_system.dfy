/**
 The identifier allocator: the system state as fields, and every operation as a method proved
 to do one step of the state machine.  Outcomes that the kernel decides elsewhere (memory, proc
 mounts, user namespaces) are parameters.
 */
module PidSystem {
  import opened Options
  import opened PidModel
  import opened PidSteps
  import opened PidAlloc
  import opened PidReferences
  import opened PidRuns
  import opened PidLaws

  class PidAllocator {
    var spaces: Spaces
    var pids: PidTable
    var pidMax: int
    var nextPid: Pid
    var nextNs: NsId
    /** For every namespace, the references held from outside: tasks, files, mounts. */
    ghost var holders: map<NsId, nat>

    ghost function St(): State
      reads this
    {
      State(spaces, pids, holders, pidMax, nextPid, nextNs)
    }

    ghost predicate Valid()
      reads this
    {
      Sound(St())
    }

    /** init_pid_ns and pid_idr_init */
    constructor (max: int)
      requires RESERVED_PIDS < max <= PID_MAX_LIMIT
      ensures Valid() && St() == Boot(max)
    {
      spaces := map[INIT_PID_NS := Namespace(0, 0, map[], 0, PIDNS_ADDING, 2)];
      pids, pidMax, nextPid, nextNs, holders := map[], max, 0, 1, map[INIT_PID_NS := 2];
      new;
      BootSound(max);
    }

    // -------------------------------------------------------------- alloc_pid

    /** The loop over the numbers lo <= scan < hi of one namespace. */
    method Scan(tmp: NsId, lo: int, hi: int, nomem: set<(NsId, int)>) returns (nr: Option<int>)
      requires tmp in spaces
      modifies this`spaces
      ensures nr.None? ==> spaces == old(spaces)
      ensures nr.None? ==> forall k | lo <= k < hi :: !Takes(old(spaces)[tmp].index, tmp, nomem, k)
      ensures nr.Some? ==>
                && lo <= nr.value < hi && Takes(old(spaces)[tmp].index, tmp, nomem, nr.value)
                && (forall k | lo <= k < nr.value :: !Takes(old(spaces)[tmp].index, tmp, nomem, k))
                && spaces == old(spaces)[tmp := old(spaces)[tmp].(index := old(spaces)[tmp].index[nr.value := None],
                                                                  lastPid := nr.value)]
    {
      var scan := lo;
      while scan < hi
        invariant scan >= lo && spaces == old(spaces) && tmp in spaces
        invariant forall k | lo <= k < scan && k < hi :: !Takes(spaces[tmp].index, tmp, nomem, k)
      {
        var existing := FindPidNs(spaces, scan, tmp);
        if existing == None {
          var index := spaces[tmp].index;
          if scan in index || (tmp, scan) !in nomem {
            spaces := spaces[tmp := spaces[tmp].(index := index[scan := None], lastPid := scan)];
            return Some(scan);
          }
        }
        scan := scan + 1;
      }
      return None;
    }

    /** One level of the reservation: from the last number on, then from 1. */
    method Reserve(tmp: NsId, nomem: set<(NsId, int)>) returns (nr: Option<int>)
      requires tmp in spaces && pidMax > 1
      modifies this`spaces
      ensures CyclicFirst(old(spaces)[tmp].index, tmp, nomem, ScanStart(old(spaces)[tmp].lastPid, pidMax), pidMax, nr)
      ensures NextAfter(old(spaces)[tmp].index, tmp, nomem, old(spaces)[tmp].lastPid, pidMax, nr)
      ensures nr.None? ==> spaces == old(spaces)
      ensures nr.Some? ==>
                spaces == old(spaces)[tmp := old(spaces)[tmp].(index := old(spaces)[tmp].index[nr.value := None],
                                                               lastPid := nr.value)]
    {
      var startPid := spaces[tmp].lastPid + 1;
      if startPid < 1 || startPid >= pidMax {
        startPid := 1;
      }
      nr := Scan(tmp, startPid, pidMax, nomem);
      if nr == None {
        nr := Scan(tmp, 1, startPid, nomem);
      }
      FirstFitIsNext(old(spaces)[tmp].index, tmp, nomem, old(spaces)[tmp].lastPid, pidMax, nr);
    }

    /**
     A number at every level from the leaf up; i is the level that had none, -1 if all had.
     Level l of `numbers` is meaningful for l > i.
     */
    method ReserveAll(ns: NsId, nomem: set<(NsId, int)>) returns (i: int, numbers: seq<Upid>)
      requires Forest(spaces) && ns in spaces && pidMax > 1
      modifies this`spaces
      ensures -1 <= i <= old(spaces)[ns].level && |numbers| == old(spaces)[ns].level + 1
      ensures Chosen(old(spaces), ns, numbers, i + 1, nomem, pidMax)
      ensures spaces == Stage(old(spaces), numbers, i + 1, i + 1, |numbers|, nextPid)
      ensures i >= 0 ==> NoneFree(old(spaces), Ancestor(old(spaces), ns, i), nomem, pidMax)
    {
      hide CyclicFirst, Stage, StageOf, Forest, Ancestor, ScanStart, Takes;
      ghost var s := spaces;
      var tmp := ns;
      i := spaces[ns].level;
      numbers := seq(i + 1, _ => Upid(0, INIT_PID_NS));
      StageNothing(s, numbers, nextPid);
      assert Reserving(s, ns, numbers, i, tmp, nomem, pidMax) by {
        NearestAncestor(s, ns);
      }
      while i >= 0
        invariant -1 <= i <= s[ns].level && |numbers| == s[ns].level + 1
        invariant Reserving(s, ns, numbers, i, tmp, nomem, pidMax)
        invariant spaces == Stage(s, numbers, i + 1, i + 1, |numbers|, nextPid)
      {
        StageParent(s, numbers, i + 1, nextPid, tmp);
        StageReserve(s, tmp, numbers, i, 0, nextPid);
        var nr := Reserve(tmp, nomem);
        if nr == None {
          FirstOfNone(s, tmp, nomem, ScanStart(s[tmp].lastPid, pidMax), pidMax);
          return;
        }
        StageReserve(s, tmp, numbers, i, nr.value, nextPid);
        ReservedOne(s, ns, numbers, i, tmp, nr.value, nomem, pidMax, nextPid);
        hide Reserving;
        numbers := numbers[i := Upid(nr.value, tmp)];
        StageParent(s, numbers, i, nextPid, tmp);
        tmp := spaces[tmp].parent;
        i := i - 1;
      }
    }

    /** out_free: every reserved number is given back, in order of rising level. */
    method RollBack(ns: NsId, failed: int, numbers: seq<Upid>, ghost s: Spaces)
      requires Forest(s) && ns in s && -1 <= failed <= s[ns].level && |numbers| == s[ns].level + 1
      requires Fresh(s, ns, numbers, failed + 1)
      requires spaces == Stage(s, numbers, failed + 1, failed + 1, |numbers|, nextPid)
      modifies this`spaces
      ensures spaces == Stage(s, numbers, failed + 1, |numbers|, |numbers|, nextPid)
    {
      hide Stage, Forest, Ancestor;
      StageKeys(s, numbers, failed + 1, failed + 1, |numbers|, nextPid);
      var i := failed + 1;
      while i <= spaces[ns].level
        invariant failed + 1 <= i <= |numbers|
        invariant spaces == Stage(s, numbers, failed + 1, i, |numbers|, nextPid)
        invariant ns in spaces && spaces[ns].level == s[ns].level
      {
        var upid := numbers[i];
        StageRemove(s, upid.ns, numbers, failed + 1, i, nextPid);
        StageKeys(s, numbers, failed + 1, i + 1, |numbers|, nextPid);
        spaces := spaces[upid.ns := spaces[upid.ns].(index := spaces[upid.ns].index - {upid.nr})];
        i := i + 1;
      }
    }

    /** Back to the state before the call, but for the last numbers given out. */
    method Unwind(ns: NsId, failed: int, numbers: seq<Upid>, ghost s: Spaces)
      requires Forest(s) && ns in s && -1 <= failed <= s[ns].level && |numbers| == s[ns].level + 1
      requires Fresh(s, ns, numbers, failed + 1)
      requires spaces == Stage(s, numbers, failed + 1, failed + 1, |numbers|, nextPid)
      modifies this`spaces
      ensures SameButLast(s, spaces) && ns in spaces && LastAbove(s, ns, spaces)
      ensures var t := Stage(s, numbers, failed + 1, |numbers|, |numbers|, nextPid);
              && ns in t
              && spaces == if s[ns].pidAllocated == PIDNS_ADDING then t[ns := t[ns].(lastPid := 0)] else t
    {
      hide Stage, Forest, Fresh, Ancestor, LastAbove;
      RollBack(ns, failed, numbers, s);
      StageUndone(s, numbers, failed + 1, nextPid);
      StageAbove(s, ns, numbers, failed + 1, nextPid);
      RestartAbove(s, ns, spaces, 0);
      if spaces[ns].pidAllocated == PIDNS_ADDING {
        spaces := spaces[ns := spaces[ns].(lastPid := 0)];
      }
    }

    /** The reserved numbers are replaced by the pid, and counted, from the leaf up. */
    method Publish(p: Pid, numbers: seq<Upid>, ghost s: Spaces)
      requires OnChain(s, PidRec(numbers, 1, Published)) && spaces == Stage(s, numbers, 0, 0, |numbers|, p)
      modifies this`spaces
      ensures spaces == Stage(s, numbers, 0, 0, 0, p)
    {
      hide Stage;
      var k := |numbers|;
      while k > 0
        invariant 0 <= k <= |numbers|
        invariant spaces == Stage(s, numbers, 0, 0, k, p)
      {
        k := k - 1;
        var upid := numbers[k];
        StagePublish(s, upid.ns, numbers, k, p);
        var n := spaces[upid.ns];
        spaces := spaces[upid.ns := n.(index := n.index[upid.nr := Some(p)], pidAllocated := (n.pidAllocated + 1) % U32)];
      }
    }

    /** put_pid_ns: up the chain of parents for as long as the last reference goes. */
    method PutPidNs(start: NsId)
      requires Forest(spaces) && start in spaces
      modifies this`spaces
      ensures spaces == Put(old(spaces), start)
    {
      var ns := start;
      while ns != INIT_PID_NS
        invariant Put(spaces, ns) == Put(old(spaces), start)
        invariant ns in spaces && ForestTo(spaces, spaces[ns].level)
        decreases if ns in spaces then spaces[ns].level else 0
      {
        var parent := spaces[ns].parent;
        if spaces[ns].kref > 1 {
          spaces := spaces[ns := spaces[ns].(kref := spaces[ns].kref - 1)];
          return;
        }
        spaces := spaces - {ns};
        ns := parent;
      }
    }

    /** get_pid_ns */
    method GetPidNs(n: NsId)
      requires n in spaces
      modifies this`spaces
      ensures spaces == Get(old(spaces), n)
    {
      if n != INIT_PID_NS {
        spaces := spaces[n := spaces[n].(kref := spaces[n].kref + 1)];
      }
    }

    /** After the reservation: the pid is published, unless ns no longer accepts pids. */
    method Commit(ns: NsId, numbers: seq<Upid>, ghost s: Spaces) returns (ok: bool)
      requires Forest(s) && ns in s && Fresh(s, ns, numbers, 0) && (ns != INIT_PID_NS ==> s[ns].kref > 0)
      requires spaces == Stage(s, numbers, 0, 0, |numbers|, nextPid)
      modifies this`spaces
      ensures ok == Adding(s[ns]) && ns in Stage(s, numbers, 0, 0, 0, nextPid)
      ensures spaces == if ok then Get(Stage(s, numbers, 0, 0, 0, nextPid), ns) else old(spaces)
    {
      AllocOnChain(s, ns, numbers);
      hide Forest, Fresh, OnChain, Stage, Put, Get;
      StageKeys(s, numbers, 0, 0, |numbers|, nextPid);
      StageSame(s, numbers, 0, nextPid, ns);
      StageGet(s, ns, numbers, 0, 0, |numbers|, nextPid);
      StageGet(s, ns, numbers, 0, 0, 0, nextPid);
      GetPidNs(ns);
      GetLevel(old(spaces), ns);
      if spaces[ns].pidAllocated >= PIDNS_ADDING {
        GetOnChain(s, ns, PidRec(numbers, 1, Published));
        Publish(nextPid, numbers, Get(s, ns));
        ok := true;
      } else {
        StageForest(s, ns, numbers, nextPid);
        PutUndoesGet(old(spaces), ns);
        PutPidNs(ns);
        ok := false;
      }
    }

    /**
     alloc_pid: a new pid with, at every level, the next free number after the last one given out;
     or no change but to those last numbers.
     */
    method AllocPid(ns: NsId, noStruct: bool, nomem: set<(NsId, int)>, procFails: bool) returns (r: Option<Pid>)
      requires Valid() && ns in spaces
      modifies this
      ensures Valid() && AllocResult(old(St()), ns, noStruct, nomem, procFails, r, St())
      ensures r.Some? ==> Forest(old(spaces)) && TakesNextNumbers(old(St()), ns, nomem, St())
      ensures r.None? ==> if noStruct then St() == old(St()) else HandsBack(old(St()), ns, nomem, St())
    {
      if noStruct {
        NoMemory(St(), ns, nomem, procFails);
        return None;
      }
      ghost var a := St();
      SoundParts(a);
      hide Sound, Forest, OnChains, Exact, PidRefs, Stage, NoneFree, Ancestor, Chosen, Fails, Ready, AllocResult,
           HandsBack, TakesNextNumbers;
      var i, numbers := ReserveAll(ns, nomem);
      ReservedOrNot(a, ns, i, numbers, nomem, procFails);
      if i >= 0 {
        Abandon(ns, i, numbers, nomem, procFails, a);
        r := None;
      } else {
        r := Complete(ns, numbers, nomem, procFails, a);
      }
    }

    /** out_free: the allocation has failed. */
    method Abandon(ns: NsId, failed: int, numbers: seq<Upid>, ghost nomem: set<(NsId, int)>, ghost procFails: bool,
                   ghost a: State)
      requires Fails(a, ns, failed, numbers, nomem, procFails) && Forest(a.spaces) && ns in a.spaces
      requires St() == a.(spaces := spaces)
      requires spaces == Stage(a.spaces, numbers, failed + 1, failed + 1, |numbers|, nextPid)
      modifies this`spaces
      ensures Valid() && AllocResult(a, ns, false, nomem, procFails, None, St()) && HandsBack(a, ns, nomem, St())
    {
      hide Fails, Sound, Forest, Stage, Fresh, SameButLast, LastAbove, AllocResult, HandsBack;
      FailsWith(a, ns, failed, numbers, nomem, procFails);
      Unwind(ns, failed, numbers, a.spaces);
      FailEnds(a, ns, nomem, procFails, failed, numbers, nextPid, spaces);
    }

    /** The part of alloc_pid after the reservation. */
    method Complete(ns: NsId, numbers: seq<Upid>, ghost nomem: set<(NsId, int)>, procFails: bool, ghost a: State)
      returns (r: Option<Pid>)
      requires Ready(a, ns, numbers, nomem) && Forest(a.spaces) && ns in a.spaces && St() == a.(spaces := spaces)
      requires spaces == Stage(a.spaces, numbers, 0, 0, |numbers|, nextPid)
      modifies this
      ensures Valid() && AllocResult(a, ns, false, nomem, procFails, r, St())
      ensures if r.Some? then TakesNextNumbers(a, ns, nomem, St()) else HandsBack(a, ns, nomem, St())
    {
      hide Ready, Fails, Sound, Forest, Stage, Get, Fresh, AllocResult, HandsBack, TakesNextNumbers;
      ReadyParts(a, ns, numbers, nomem);
      var ok := false;
      if numbers[|numbers| - 1].nr != 1 || !procFails {
        ok := Commit(ns, numbers, a.spaces);
      }
      if ok {
        r := Finish(ns, numbers, nomem, procFails, a);
      } else {
        ReadyButFails(a, ns, numbers, nomem, procFails);
        Abandon(ns, -1, numbers, nomem, procFails, a);
        r := None;
      }
    }

    method Finish(ns: NsId, numbers: seq<Upid>, ghost nomem: set<(NsId, int)>, ghost procFails: bool, ghost a: State)
      returns (r: Option<Pid>)
      requires Ready(a, ns, numbers, nomem) && 0 < |numbers| && Forest(a.spaces) && ns in a.spaces
      requires Adding(a.spaces[ns]) && !(procFails && numbers[|numbers| - 1].nr == 1) && St() == a.(spaces := spaces)
      requires ns in Stage(a.spaces, numbers, 0, 0, 0, nextPid)
      requires spaces == Get(Stage(a.spaces, numbers, 0, 0, 0, nextPid), ns)
      modifies this
      ensures Valid() && AllocResult(a, ns, false, nomem, procFails, r, St())
      ensures r.Some? && TakesNextNumbers(a, ns, nomem, St())
    {
      hide Ready, Sound, Forest, Stage, Get, AllocResult, TakesNextNumbers;
      var p := nextPid;
      pids := pids[p := PidRec(numbers, 1, Published)];
      nextPid := nextPid + 1;
      SuccessEnds(a, ns, numbers, nomem, procFails, St());
      return Some(p);
    }

    // -------------------------------------------------------------- free_pid and put_pid

    /** One level of free_pid: the counter goes down, and what it comes to decides who is told. */
    method ReleaseLevel(upid: Upid) returns (wakes: bool, works: bool)
      requires upid.ns in spaces
      modifies this`spaces
      ensures var n := old(spaces)[upid.ns];
              spaces == old(spaces)[upid.ns := n.(index := n.index - {upid.nr}, pidAllocated := Decremented(n.pidAllocated))]
      ensures wakes == (spaces[upid.ns].pidAllocated in {1, 2}) && works == (spaces[upid.ns].pidAllocated in {0})
    {
      var n := spaces[upid.ns];
      var d := (n.pidAllocated - 1) % U32;
      wakes, works := false, false;
      if d == 2 || d == 1 {
        wakes := true;
      } else if d == PIDNS_ADDING {
        d := 0;
        works := true;
      } else if d == 0 {
        works := true;
      }
      spaces := spaces[upid.ns := n.(index := n.index - {upid.nr}, pidAllocated := d)];
    }

    /** free_pid: wake holds the namespaces whose reaper is woken, work those whose proc is released. */
    method FreePid(p: Pid) returns (wake: set<NsId>, work: set<NsId>)
      requires Valid() && p in pids && pids[p].phase == Published
      modifies this
      ensures Valid() && Frees(old(St()), p, St())
      ensures wake == Those(spaces, old(pids)[p].numbers, {1, 2})
      ensures work == Those(spaces, old(pids)[p].numbers, {0})
      ensures ForgetsPid(old(St()), p, St(), wake, work)
    {
      ghost var a := St();
      assert OnChain(spaces, pids[p]);
      hide Sound, OnChain, Does, ForgetsPid;
      wake, work := ReleaseAll(pids[p].numbers);
      pids := pids[p := pids[p].(phase := Unhashed)];
      FreeKeeps(a, p, St());
      FreeForgets(a, p, St());
    }

    method ReleaseAll(numbers: seq<Upid>) returns (wake: set<NsId>, work: set<NsId>)
      requires OnChain(spaces, PidRec(numbers, 1, Published))
      modifies this`spaces
      ensures spaces == Released(old(spaces), numbers, |numbers|)
      ensures wake == Those(spaces, numbers, {1, 2}) && work == Those(spaces, numbers, {0})
    {
      ghost var s := spaces;
      wake, work := {}, {};
      ReleasedNothing(s, numbers);
      hide Released, Those, OnChain, Decremented;
      var i := 0;
      while i < |numbers|
        invariant 0 <= i <= |numbers| && spaces == Released(s, numbers, i)
        invariant wake == Those(spaces, numbers[..i], {1, 2}) && work == Those(spaces, numbers[..i], {0})
      {
        var upid := numbers[i];
        ReleaseOne(s, numbers, i);
        ThoseNext(s, numbers, i, {1, 2});
        ThoseNext(s, numbers, i, {0});
        var wakes, works := ReleaseLevel(upid);
        wake := wake + if wakes then {upid.ns} else {};
        work := work + if works then {upid.ns} else {};
        i := i + 1;
      }
      assert numbers[..i] == numbers;
    }

    /** put_pid, by somebody who holds a reference of his own. */
    method PutPid(p: Pid)
      requires Valid() && p in pids && pids[p].count > Base(pids[p])
      modifies this
      ensures Valid() && PutsPid(old(St()), p, St())
    {
      ghost var a := St();
      SoundParts(a);
      assert OnChain(spaces, pids[p]);
      hide Sound, Forest, OnChains, PidRefs, Closed, Put;
      hide Dropped;
      DropPid(p);
      PutPidKeeps(a, p, St());
    }

    /** delayed_put_pid: after the grace period, the reference of the table itself is dropped. */
    method DelayedPutPid(p: Pid)
      requires Valid() && p in pids && pids[p].phase == Unhashed
      modifies this
      ensures Valid() && PutsDelayed(old(St()), p, St())
    {
      ghost var a := St();
      SoundParts(a);
      assert OnChain(spaces, pids[p]);
      hide Sound, Forest, OnChains, PidRefs, Closed, Put;
      pids := pids[p := pids[p].(phase := Detached)];
      hide Dropped;
      DropPid(p);
      DelayedPutKeeps(a, p, St());
    }

    method DropPid(p: Pid)
      requires Forest(spaces) && p in pids && 0 < |pids[p].numbers| && Leaf(pids[p]) in spaces && pids[p].count > 0
      modifies this
      ensures St() == Dropped(old(St()), p)
    {
      hide Forest, Put, Leaf;
      var r := pids[p];
      var ns := Leaf(r);
      if r.count == 1 {
        pids := pids - {p};
        PutPidNs(ns);
        holders := Restrict(holders, spaces.Keys);
      } else {
        pids := pids[p := r.(count := r.count - 1)];
      }
    }

    /** get_pid */
    method GetPid(p: Pid)
      requires Valid() && p in pids
      modifies this
      ensures Valid() && GetsPid(old(St()), p, St())
    {
      ghost var a := St();
      SoundParts(a);
      hide Sound, Forest, OnChains, PidRefs, Closed;
      pids := pids[p := pids[p].(count := pids[p].count + 1)];
      GetPidKeeps(a, p, St());
    }

    // -------------------------------------------------------------- namespaces

    /** create_pid_namespace */
    method CreatePidNamespace(parent: NsId, denied: bool, noMemory: bool) returns (r: Option<NsId>)
      requires Valid() && parent in spaces
      modifies this
      ensures Valid()
      ensures r.Some? <==> !denied && !noMemory && old(spaces)[parent].level < MAX_PID_NS_LEVEL
      ensures r.Some? ==> r == Some(old(nextNs)) && CreatesNs(old(St()), parent, St())
      ensures r.Some? ==>
                && r.value !in old(spaces) && r.value in spaces && Adding(spaces[r.value])
                && spaces[r.value].index == map[] && spaces[r.value].level == old(spaces)[parent].level + 1
                && Visible(spaces, pids, r.value) == {}
      ensures r.None? ==> St() == old(St())
    {
      ghost var a := St();
      SoundParts(a);
      hide Sound, Forest, OnChains, CreatesNs, Visible, Adding;
      if denied || spaces[parent].level + 1 > MAX_PID_NS_LEVEL || noMemory {
        return None;
      }
      var ns := NewNamespace(parent);
      CreateKeeps(a, parent, St());
      NewIsOpen(a, parent, St());
      return Some(ns);
    }

    method NewNamespace(parent: NsId) returns (ns: NsId)
      requires parent in spaces && spaces[parent].level < MAX_PID_NS_LEVEL && holders.Keys == spaces.Keys
      modifies this
      ensures ns == old(nextNs) && CreatesNs(old(St()), parent, St())
    {
      hide Get;
      ns := nextNs;
      var level := spaces[parent].level + 1;
      GetPidNs(parent);
      spaces := spaces[ns := Namespace(level, parent, map[], 0, PIDNS_ADDING, 1)];
      nextNs := ns + 1;
      holders := holders[ns := 1];
    }

    /** A task, a file or a mount takes a reference. */
    method HoldNs(n: NsId)
      requires Valid() && n in spaces
      modifies this
      ensures Valid() && GetsNs(old(St()), n, St())
    {
      ghost var a := St();
      SoundParts(a);
      hide Sound, Forest, OnChains, GetsNs;
      TakeRef(n);
      GetNsKeeps(a, n, St());
    }

    method TakeRef(n: NsId)
      requires n in spaces && n in holders
      modifies this
      ensures GetsNs(old(St()), n, St())
    {
      hide Get;
      GetPidNs(n);
      holders := holders[n := holders[n] + 1];
    }

    /** A task, a file or a mount drops its reference. */
    method ReleaseNs(n: NsId)
      requires Valid() && n in spaces && n in holders && holders[n] > 0
      modifies this
      ensures Valid() && PutsNs(old(St()), n, St())
    {
      ghost var a := St();
      SoundParts(a);
      hide Sound, Forest, OnChains, PutsNs;
      DropRef(n);
      PutNsKeeps(a, n, St());
    }

    method DropRef(n: NsId)
      requires Forest(spaces) && n in spaces && n in holders && holders[n] > 0
      modifies this
      ensures PutsNs(old(St()), n, St())
    {
      hide Forest, Put, Restrict;
      PutPidNs(n);
      holders := Restrict(holders[n := holders[n] - 1], spaces.Keys);
    }

    /** disable_pid_allocation */
    method DisablePidAllocation(n: NsId)
      requires Valid() && n in spaces
      modifies this
      ensures Valid() && Disables(old(St()), n, St()) && Closed(St(), n)
      ensures spaces == old(spaces)[n := old(spaces)[n].(pidAllocated := |Visible(old(spaces), old(pids), n)|)]
    {
      ghost var a := St();
      SoundParts(a);
      hide Sound, Forest, OnChains, Visible, Disables;
      CountSeen(a, n);
      ClearAdding(n);
      DisableKeeps(a, n, St());
    }

    method ClearAdding(n: NsId)
      requires n in spaces && n < nextNs
      modifies this`spaces
      ensures Disables(old(St()), n, St()) && nextNs == old(nextNs)
      ensures spaces == old(spaces)[n := old(spaces)[n].(
                pidAllocated := old(spaces)[n].pidAllocated - if Adding(old(spaces)[n]) then PIDNS_ADDING else 0)]
    {
      var c := spaces[n].pidAllocated;
      spaces := spaces[n := spaces[n].(pidAllocated := if c >= PIDNS_ADDING then c - PIDNS_ADDING else c)];
    }

    /** pid_ns_ctl_handler: ns_last_pid is written, between 0 and pid_max. */
    method SetLastPid(n: NsId, last: int) returns (ok: bool)
      requires Valid() && n in spaces
      modifies this
      ensures Valid() && ok == (0 <= last <= pidMax)
      ensures if ok then SetsLast(old(St()), n, last, St()) else St() == old(St())
      ensures ok ==> spaces == old(spaces)[n := old(spaces)[n].(lastPid := last)]
    {
      ghost var a := St();
      SoundParts(a);
      hide Sound, Forest, OnChains, PidRefs, Closed;
      ok := 0 <= last <= pidMax;
      if ok {
        spaces := spaces[n := spaces[n].(lastPid := last)];
        SetLastKeeps(a, n, last, St());
      }
    }
  }
}

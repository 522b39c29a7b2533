/**
 The allocator's use of a namespace's index, on the skip list itself: the scan for a number, its
 publication and its cancellation do to the list what PidSteps says they do to the index.
 */
module Reservation {
  import opened Options
  import Towers
  import Ranks
  import opened RandomLevel
  import opened PidModel
  import opened PidSteps
  import opened PidLaws
  import opened PidSkiplist

  /**
   The loop over lo <= scan < hi.  Inserting number k fails if (n, k) is in nomem, and has random
   draw draws(k); a failed insertion leaves the list's contents alone.
   */
  method ScanList(list: SkipList, n: NsId, lo: int, hi: int, nomem: set<(NsId, int)>, draws: int -> Draw)
    returns (nr: Option<int>)
    requires list.Plain() && Towers.INT_MIN <= lo && hi <= Towers.INT_MAX
    modifies list.Repr()
    ensures list.Plain() && fresh(list.Repr() - old(list.Repr()))
    ensures nr.None? ==>
              && list.Entries() == old(list.Entries())
              && forall k | lo <= k < hi :: !Takes(old(list.Entries()), n, nomem, k)
    ensures nr.Some? ==>
              && lo <= nr.value < hi && Takes(old(list.Entries()), n, nomem, nr.value)
              && (forall k | lo <= k < nr.value :: !Takes(old(list.Entries()), n, nomem, k))
              && list.Entries() == old(list.Entries())[nr.value := None]
  {
    hide Towers.WellSized, Towers.Chained, Towers.Capped, Towers.Quiet, Towers.UniqueKeys, Towers.Contents,
         SkipList.Mirrored, Ranks.Ordinary;
    ghost var m := list.Entries();
    var scan := lo;
    nr := None;
    while scan < hi && nr == None
      invariant list.Plain() && fresh(list.Repr() - old(list.Repr())) && scan >= lo
      invariant nr.None? ==> list.Entries() == m && forall k | lo <= k < scan && k < hi :: !Takes(m, n, nomem, k)
      invariant nr.Some? ==>
                  && lo <= nr.value < hi && Takes(m, n, nomem, nr.value)
                  && (forall k | lo <= k < nr.value :: !Takes(m, n, nomem, k))
                  && list.Entries() == m[nr.value := None]
      decreases hi - scan, nr == None
    {
      var existing := list.Lookup(scan);
      if existing == None {
        InRepr(list);
        var ok := list.Insert(scan, None, draws(scan), (n, scan) in nomem);
        if ok {
          nr := Some(scan);
        }
      }
      scan := scan + 1;
    }
  }

  lemma InRepr(list: SkipList)
    requires list.Plain()
    ensures list in list.Repr()
    ensures forall x: PidNode | x in list.st.nodes.Keys :: x in list.Repr() && x.forward in list.Repr()
  {
  }

  /** One level of alloc_pid on the list: the first number in cyclic order that can be taken. */
  method ReserveIn(list: SkipList, n: NsId, lastPid: int, max: int, nomem: set<(NsId, int)>, draws: int -> Draw)
    returns (nr: Option<int>)
    requires list.Plain() && 1 < max <= Towers.INT_MAX
    modifies list.Repr()
    ensures list.Plain() && fresh(list.Repr() - old(list.Repr()))
    ensures CyclicFirst(old(list.Entries()), n, nomem, ScanStart(lastPid, max), max, nr)
    ensures NextAfter(old(list.Entries()), n, nomem, lastPid, max, nr)
    ensures list.Entries() == match nr
                                        case None => old(list.Entries())
                                        case Some(k) => old(list.Entries())[k := None]
  {
    hide Towers.WellSized, Towers.Chained, Towers.Capped, Towers.Quiet, Towers.UniqueKeys, Towers.Contents,
         SkipList.Mirrored, Ranks.Ordinary;
    var startPid := lastPid + 1;
    if startPid < 1 || startPid >= max {
      startPid := 1;
    }
    nr := ScanList(list, n, startPid, max, nomem, draws);
    if nr == None {
      nr := ScanList(list, n, 1, startPid, nomem, draws);
    }
    FirstFitIsNext(old(list.Entries()), n, nomem, lastPid, max, nr);
  }

  /** Publishing a reserved number allocates nothing, and so cannot fail. */
  method PublishIn(list: SkipList, nr: int, p: Pid, draw: Draw, oom: bool)
    requires list.Plain() && Towers.INT_MIN <= nr <= Towers.INT_MAX && nr in list.Entries()
    modifies list.Repr()
    ensures list.Plain() && fresh(list.Repr() - old(list.Repr()))
    ensures list.Entries() == old(list.Entries())[nr := Some(p)]
  {
    hide Towers.WellSized, Towers.Chained, Towers.Capped, Towers.Quiet, Towers.UniqueKeys, Towers.Contents,
         SkipList.Mirrored, Ranks.Ordinary;
    InRepr(list);
    var ok := list.Insert(nr, Some(p), draw, oom);
  }

  /**
   An enumeration of the index of a namespace, in a consistent state: every published pid seen
   from there under a number from the start on, once, in rising order of those numbers.
   */
  ghost predicate ListsVisible(a: State, n: NsId, start: int, pids: seq<Pid>)
    requires n in a.spaces
  {
    && (forall p :: p in pids <==> p in Visible(a.spaces, a.pids, n) && PidNrNs(a.spaces, a.pids[p], n) >= start)
    && (forall i, j | 0 <= i < j < |pids| :: pids[i] != pids[j])
    && (forall i, j | 0 <= i < j < |pids| ::
          pids[i] in a.pids && pids[j] in a.pids
            && PidNrNs(a.spaces, a.pids[pids[i]], n) < PidNrNs(a.spaces, a.pids[pids[j]], n))
  }

  lemma VisitsVisible(a: State, n: NsId, start: int, keys: seq<int>, pids: seq<Pid>)
    requires Sound(a) && n in a.spaces && Towers.Visits(a.spaces[n].index, start, keys, pids)
    ensures ListsVisible(a, n, start, pids)
  {
    hide Sound, Visible, Towers.Visits, PidNrNs;
    SoundVisible(a, n);
    var nrs := map p | p in Visible(a.spaces, a.pids, n) :: PidNrNs(a.spaces, a.pids[p], n);
    VisitsOwners(a.spaces[n].index, nrs, start, keys, pids);
  }

  /** Entries and their owners, one to one: the enumeration meets the owners. */
  lemma VisitsOwners(index: Entries, nrs: map<Pid, int>, start: int, keys: seq<int>, pids: seq<Pid>)
    requires forall k | k in index :: index[k].Some? && index[k].value in nrs && nrs[index[k].value] == k
    requires forall p | p in nrs :: nrs[p] in index && index[nrs[p]] == Some(p)
    requires Towers.Visits(index, start, keys, pids)
    ensures forall p :: p in pids <==> p in nrs && nrs[p] >= start
    ensures forall i | 0 <= i < |pids| :: pids[i] in nrs
    ensures forall i, j | 0 <= i < j < |pids| :: nrs[pids[i]] < nrs[pids[j]]
  {
    hide Towers.BeforeGap;
    forall i | 0 <= i < |keys|
      ensures pids[i] in nrs && nrs[pids[i]] == keys[i] >= start
    {
      assert keys[i] in keys;
      assert index[keys[i]] == Some(pids[i]);
      GapFrom(index, start, keys[i]);
    }
    forall p | p in nrs && nrs[p] >= start
      ensures p in pids
    {
      NoGap(index, start, nrs[p]);
      var i :| 0 <= i < |keys| && keys[i] == nrs[p];
      assert pids[i] == p;
    }
  }

  lemma GapFrom(index: Entries, start: int, k: int)
    requires Towers.BeforeGap(index, start, k)
    ensures start <= k
  {
  }

  lemma NoGap(index: Entries, start: int, k: int)
    requires start <= k && k in index && forall b | b in index :: index[b] != None
    ensures Towers.BeforeGap(index, start, k)
  {
  }

  /** In a consistent state nothing is reserved, and entries and visible pids stand for one another. */
  lemma SoundVisible(a: State, n: NsId)
    requires Sound(a) && n in a.spaces
    ensures forall k | k in a.spaces[n].index ::
              var v := a.spaces[n].index[k];
              v.Some? && v.value in Visible(a.spaces, a.pids, n) && v.value in a.pids
                && PidNrNs(a.spaces, a.pids[v.value], n) == k
    ensures forall p | p in Visible(a.spaces, a.pids, n) ::
              && p in a.pids && PidNrNs(a.spaces, a.pids[p], n) in a.spaces[n].index
              && a.spaces[n].index[PidNrNs(a.spaces, a.pids[p], n)] == Some(p)
  {
    hide Forest, Counted, Referenced, PidRefs, Ranged, Hashed, Exact, OnChains;
    VisibleNumbers(a.spaces, a.pids, n);
  }

  /** The loop of zap_pid_ns_processes on the list of a namespace. */
  method ZapLoop(list: SkipList, ghost a: State, ghost n: NsId, start: int) returns (pids: seq<Pid>)
    requires list.Plain() && Sound(a) && n in a.spaces && list.Entries() == a.spaces[n].index
    requires Towers.INT_MIN <= start <= Towers.INT_MAX
    ensures ListsVisible(a, n, start, pids)
  {
    hide Towers.WellSized, Towers.Chained, Towers.Capped, Towers.Quiet, Towers.UniqueKeys, Towers.Contents,
         SkipList.Mirrored, Ranks.Ordinary;
    hide Sound, ListsVisible, Towers.Visits;
    pids := list.Enumerate(start);
    ghost var keys :| Towers.Visits(list.Entries(), start, keys, pids);
    VisitsVisible(a, n, start, keys, pids);
  }
}

/**
 Process identifiers and namespaces: the data, what every complete operation keeps true of
 them, and what follows from that.  Pointers are modelled as identities: a namespace pointer
 is a NsId and a struct pid pointer a Pid; a freed object is one that is no longer in its map.
 */
module PidModel {
  import opened Options
  import Towers
  import opened Counting

  type Pid = Towers.Pid
  type NsId = nat
  type Entries = Towers.Entries

  const INIT_PID_NS: NsId := 0
  const PIDNS_ADDING: int := 0x8000_0000
  const U32: int := 0x1_0000_0000
  const RESERVED_PIDS: int := 300
  /** The largest pid_max (4M); its header is not part of the repository. */
  const PID_MAX_LIMIT: int := 0x40_0000
  const MAX_PID_NS_LEVEL: int := 32

  datatype Upid = Upid(nr: int, ns: NsId)

  /** Published: found in the indexes.  Unhashed: freed, its last own reference still to be
      dropped after the grace period.  Detached: kept only by references of others. */
  datatype Phase = Published | Unhashed | Detached

  datatype PidRec = PidRec(numbers: seq<Upid>, count: nat, phase: Phase) {
    function Level(): int { |numbers| - 1 }
  }

  /** `index` is the PID skip list of the namespace, by its contents. */
  datatype Namespace = Namespace(level: nat, parent: NsId, index: Entries, lastPid: int,
                                 pidAllocated: int, kref: nat)

  type Spaces = map<NsId, Namespace>
  type PidTable = map<Pid, PidRec>

  predicate Adding(n: Namespace) {
    n.pidAllocated >= PIDNS_ADDING
  }

  // ---------------------------------------------------------------- the forest

  /** Every namespace but the first has a live parent one level up. */
  ghost predicate Forest(s: Spaces) {
    && INIT_PID_NS in s && s[INIT_PID_NS].level == 0
    && forall n | n in s && n != INIT_PID_NS ::
         && s[n].parent in s && s[n].level == s[s[n].parent].level + 1
         && s[n].level <= MAX_PID_NS_LEVEL
  }

  /** The ancestor of `n` at level `l`, `n` itself included. */
  ghost function Ancestor(s: Spaces, n: NsId, l: nat): (a: NsId)
    requires Forest(s) && n in s && l <= s[n].level
    ensures a in s && s[a].level == l
    decreases s[n].level - l
  {
    if s[n].level == l then n else Ancestor(s, s[n].parent, l)
  }

  ghost function Children(s: Spaces, n: NsId): set<NsId> {
    set m | m in s && m != INIT_PID_NS && s[m].parent == n
  }

  // ---------------------------------------------------------------- pids and indexes

  /** The numbers of a pid stand in the namespaces from the first down to its leaf. */
  ghost predicate OnChain(s: Spaces, r: PidRec) {
    && 0 < |r.numbers|
    && (forall l | 0 <= l < |r.numbers| :: r.numbers[l].ns in s && s[r.numbers[l].ns].level == l)
    && (forall l | 0 < l < |r.numbers| :: s[r.numbers[l].ns].parent == r.numbers[l - 1].ns)
  }

  function Leaf(r: PidRec): NsId
    requires 0 < |r.numbers|
  {
    r.numbers[|r.numbers| - 1].ns
  }

  ghost predicate OnChains(s: Spaces, t: PidTable) {
    forall p | p in t :: OnChain(s, t[p])
  }

  /** A published pid is found under its number in every namespace of its chain. */
  ghost predicate Hashed(s: Spaces, t: PidTable)
    requires OnChains(s, t)
  {
    forall p, l | p in t && t[p].phase == Published && 0 <= l < |t[p].numbers| ::
      var u := t[p].numbers[l]; u.nr in s[u.ns].index && s[u.ns].index[u.nr] == Some(p)
  }

  /** Number k of namespace n belongs to a published pid that has number k there. */
  ghost predicate Owned(s: Spaces, t: PidTable, n: NsId, k: int)
    requires n in s && k in s[n].index
  {
    match s[n].index[k]
    case None => false
    case Some(p) =>
      p in t && t[p].phase == Published && s[n].level < |t[p].numbers| && t[p].numbers[s[n].level] == Upid(k, n)
  }

  /** Nothing is reserved, and every entry has an owner. */
  ghost predicate Exact(s: Spaces, t: PidTable) {
    forall n, k | n in s && k in s[n].index :: 1 <= k < PID_MAX_LIMIT && Owned(s, t, n, k)
  }

  // ---------------------------------------------------------------- counters

  /** pid_allocated is the number of entries, with or without the bit that allows adding. */
  ghost predicate Counted(s: Spaces) {
    forall n | n in s ::
      s[n].pidAllocated == |s[n].index| || s[n].pidAllocated == |s[n].index| + PIDNS_ADDING
  }

  /** The pids, freed or not, whose leaf is `n`. */
  ghost function LeafPids(t: PidTable, n: NsId): set<Pid>
  {
    set p | p in t && 0 < |t[p].numbers| && Leaf(t[p]) == n
  }

  /** Everything that keeps namespace `n` alive. */
  ghost function Refs(s: Spaces, t: PidTable, holders: map<NsId, nat>, n: NsId): nat {
    (if n in holders then holders[n] else 0) + |Children(s, n)| + |LeafPids(t, n)|
  }

  ghost predicate Referenced(s: Spaces, t: PidTable, holders: map<NsId, nat>) {
    && holders.Keys == s.Keys
    && forall n | n in s && n != INIT_PID_NS :: s[n].kref == Refs(s, t, holders, n) && s[n].kref > 0
  }

  /** The reference a pid owns from its allocation until the grace period after its release. */
  function Base(r: PidRec): nat {
    if r.phase == Detached then 0 else 1
  }

  ghost predicate PidRefs(t: PidTable) {
    forall p | p in t :: t[p].count >= Base(t[p]) && t[p].count > 0
  }

  ghost predicate Consistent(s: Spaces, t: PidTable, holders: map<NsId, nat>) {
    && Forest(s) && OnChains(s, t) && Hashed(s, t) && Exact(s, t) && Counted(s)
    && Referenced(s, t, holders) && PidRefs(t)
  }

  // ---------------------------------------------------------------- the accessors

  /** find_pid_ns */
  function FindPidNs(s: Spaces, nr: int, n: NsId): Option<Pid>
    requires n in s
  {
    if nr in s[n].index then s[n].index[nr] else None
  }

  /** pid_nr_ns: 0 if the pid is not seen from the namespace. */
  function PidNrNs(s: Spaces, r: PidRec, n: NsId): int
    requires n in s
  {
    if s[n].level <= r.Level() && r.numbers[s[n].level].ns == n then r.numbers[s[n].level].nr else 0
  }

  lemma {:induction false} ChainIsAncestors(s: Spaces, r: PidRec, k: nat, l: nat)
    requires Forest(s) && OnChain(s, r) && l <= k < |r.numbers|
    ensures s[r.numbers[k].ns].level == k && Ancestor(s, r.numbers[k].ns, l) == r.numbers[l].ns
  {
    if l < k {
      ChainIsAncestors(s, r, k - 1, l);
      assert s[r.numbers[k].ns].parent == r.numbers[k - 1].ns;
    }
  }

  /**
   Looking a pid up under the number it has in a namespace gives that pid back, for every
   published pid and every ancestor of its namespace.
   */
  lemma FindAfterNr(s: Spaces, t: PidTable, holders: map<NsId, nat>, p: Pid, l: nat)
    requires Consistent(s, t, holders) && p in t && t[p].phase == Published && l <= s[Leaf(t[p])].level
    ensures var a := Ancestor(s, Leaf(t[p]), l);
            && PidNrNs(s, t[p], a) >= 1 && FindPidNs(s, PidNrNs(s, t[p], a), a) == Some(p)
  {
    hide Referenced, Counted, Hashed, Exact, OnChains, PidRefs, Forest, Ancestor;
    PublishedAt(s, t, p, |t[p].numbers| - 1);
    ChainIsAncestors(s, t[p], |t[p].numbers| - 1, l);
    PublishedAt(s, t, p, l);
  }

  /** The entry of a published pid at one level. */
  lemma PublishedAt(s: Spaces, t: PidTable, p: Pid, l: int)
    requires OnChains(s, t) && Hashed(s, t) && Exact(s, t) && p in t && t[p].phase == Published
    ensures OnChain(s, t[p]) && |t[p].numbers| > 0
    ensures 0 <= l < |t[p].numbers| ==>
              var u := t[p].numbers[l];
              u.ns in s && s[u.ns].level == l && u.nr in s[u.ns].index && s[u.ns].index[u.nr] == Some(p) && u.nr >= 1
  {
    assert OnChain(s, t[p]);
    if 0 <= l < |t[p].numbers| {
      var u := t[p].numbers[l];
      assert u.nr in s[u.ns].index && Owned(s, t, u.ns, u.nr);
    }
  }

  /** A number found in a namespace belongs to one published pid only, and is its number there. */
  lemma NrAfterFind(s: Spaces, t: PidTable, holders: map<NsId, nat>, n: NsId, nr: int)
    requires Consistent(s, t, holders) && n in s
    ensures nr in s[n].index <==> FindPidNs(s, nr, n) != None
    ensures FindPidNs(s, nr, n).Some? ==>
              var p := FindPidNs(s, nr, n).value;
              && p in t && t[p].phase == Published && PidNrNs(s, t[p], n) == nr && nr >= 1
              && forall q | q in t && t[q].phase == Published && q != p :: PidNrNs(s, t[q], n) != nr
  {
    hide Referenced, Counted;
    if nr in s[n].index {
      assert Owned(s, t, n, nr);
      var p := s[n].index[nr].value;
      forall q | q in t && t[q].phase == Published && q != p
        ensures PidNrNs(s, t[q], n) != nr
      {
        var l := s[n].level;
        if l <= t[q].Level() && t[q].numbers[l].ns == n {
          var u := t[q].numbers[l];
          assert u.nr in s[u.ns].index && s[u.ns].index[u.nr] == Some(q);
        }
      }
    }
  }

  /** The published pids seen from a namespace. */
  ghost function Visible(s: Spaces, t: PidTable, n: NsId): set<Pid>
    requires n in s
  {
    set p | p in t && t[p].phase == Published && s[n].level < |t[p].numbers| && t[p].numbers[s[n].level].ns == n
  }

  /**
   pid_allocated without its top bit is the number of published pids seen from the namespace,
   and stays below the top bit, so that counting never disturbs it.
   */
  lemma CountIsVisible(s: Spaces, t: PidTable, holders: map<NsId, nat>, n: NsId)
    requires Consistent(s, t, holders) && n in s
    ensures s[n].pidAllocated % PIDNS_ADDING == |Visible(s, t, n)| < PID_MAX_LIMIT
    ensures s[n].pidAllocated == |Visible(s, t, n)| + if Adding(s[n]) then PIDNS_ADDING else 0
  {
    hide Referenced, Forest, PidRefs, Counted;
    var m, v, l := s[n].index, Visible(s, t, n), s[n].level;
    VisibleNumbers(s, t, n);
    hide Hashed, Exact, OnChains, Visible;
    var f := map k | k in m :: m[k].value;
    var g := map p | p in v :: t[p].numbers[l].nr;
    SameSize(m.Keys, v, f, g);
    KeysBound(m.Keys, PID_MAX_LIMIT);
    assert |m.Keys| == |m|;
    AllocatedIs(s, n);
  }

  /** The entries of an index and the published pids seen from it correspond one to one. */
  lemma VisibleNumbers(s: Spaces, t: PidTable, n: NsId)
    requires OnChains(s, t) && Hashed(s, t) && Exact(s, t) && n in s
    ensures forall k | k in s[n].index ::
              && 1 <= k < PID_MAX_LIMIT && s[n].index[k].Some? && s[n].index[k].value in Visible(s, t, n)
              && t[s[n].index[k].value].numbers[s[n].level].nr == k
    ensures forall p | p in Visible(s, t, n) ::
              && p in t && s[n].level < |t[p].numbers| && t[p].numbers[s[n].level].nr in s[n].index
              && s[n].index[t[p].numbers[s[n].level].nr] == Some(p)
  {
    forall k | k in s[n].index
      ensures 1 <= k < PID_MAX_LIMIT && Owned(s, t, n, k)
    {
    }
  }

  lemma AllocatedIs(s: Spaces, n: NsId)
    requires Counted(s) && n in s && |s[n].index| < PIDNS_ADDING
    ensures |s[n].index.Keys| == |s[n].index|
    ensures s[n].pidAllocated == |s[n].index| + if Adding(s[n]) then PIDNS_ADDING else 0
    ensures s[n].pidAllocated % PIDNS_ADDING == |s[n].index|
  {
  }
}

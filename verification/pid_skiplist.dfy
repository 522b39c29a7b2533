/**
 The PID skip list on the heap.  Every write of a shared word is one call of StoreForward,
 StorePid or StoreLevel, and the ghost field `st` follows it with the matching function of
 Towers, where a node stands at its rank.  The operations with a starting point are those that
 both variants share; the interface at the end is that of the plain list, whose searches all
 start at the header.
 */
module PidSkiplist {
  import opened Options
  import opened Towers
  import opened Ranks
  import opened RandomLevel

  class PidNode {
    const key: int
    const level: nat
    const forward: array<PidNode?>
    var pid: Option<Pid>

    /** A node straight from the allocator: every forward pointer is NULL. */
    constructor (level: nat, key: int, pid: Option<Pid>)
      ensures this.key == key && this.level == level && this.pid == pid
      ensures fresh(forward) && forward.Length == level
      ensures forall i | 0 <= i < level :: forward[i] == null
    {
      this.key := key;
      this.level := level;
      this.pid := pid;
      this.forward := new PidNode?[level](_ => null);
    }
  }

  function Pointer(n: PidNode?): Option<PidNode> {
    if n == null then None else Some(n)
  }

  class SkipList {
    var level: int
    const header: PidNode
    ghost var st: Shape<PidNode>

    ghost function Repr(): set<object>
      reads this
    {
      {this} + (set n: PidNode | n in st.nodes.Keys :: n) + (set n: PidNode | n in st.nodes.Keys :: n.forward)
    }

    /** The heap agrees with the shape `st`, word for word. */
    ghost predicate Mirrored()
      reads this, st.nodes.Keys, set n: PidNode | n in st.nodes.Keys :: n.forward
    {
      && header == st.header && level == st.level && header in st.nodes
      && (forall n: PidNode | n in st.nodes ::
            && n.key == Number(st.nodes[n].key) && n.pid == st.nodes[n].pid
            && n.level == n.forward.Length == |st.nodes[n].fwd|)
      && (forall n: PidNode, i | n in st.nodes && 0 <= i < n.forward.Length ::
            Pointer(n.forward[i]) == st.nodes[n].fwd[i])
      && (forall n: PidNode, m: PidNode | n in st.nodes && m in st.nodes && n != m :: n.forward != m.forward)
    }

    ghost predicate Valid()
      reads this, st.nodes.Keys, set n: PidNode | n in st.nodes.Keys :: n.forward
    {
      Mirrored() && Inv(st) && Quiet(st) && Least(st) == FIRST
    }

    /** The plain list: no node is in any search tree. */
    ghost predicate Plain()
      reads this, st.nodes.Keys, set n: PidNode | n in st.nodes.Keys :: n.forward
    {
      Valid() && AllLate(Contents(st))
    }

    /** What the plain list holds, by number. */
    ghost function Entries(): Entries
      reads this
      requires UniqueKeys(st)
    {
      Ordinary(Contents(st))
    }

    /** pid_skiplist_init: an empty list of level 1 behind a header of full height. */
    constructor ()
      ensures Plain() && fresh(Repr()) && level == 1 && Contents(st) == map[] && Entries() == map[]
    {
      hide WellSized, Chained, Capped, Quiet, UniqueKeys, Contents, Ordinary;
      var h := new PidNode(PID_SL_MAX_LEVEL, INT_MIN, None);
      level := 1;
      header := h;
      st := Shape(h, 1, map[h := Tower(FIRST, None, seq(PID_SL_MAX_LEVEL, _ => None), 0, PID_SL_MAX_LEVEL)]);
      new;
      EmptyShape(st, FIRST);
      assert Ordinary(map[]) == map[] by { OrdinaryOfNone(); }
    }

    // -------------------------------------------------------------- single writes

    /** A node's pointer at one level is written. */
    method StoreForward(p: PidNode, i: int, y: PidNode?, ghost t: Shape<PidNode>)
      requires Mirrored() && p in st.nodes && 0 <= i < p.forward.Length
      requires t.header == st.header && t.level == st.level && t.nodes.Keys == st.nodes.Keys
      requires forall n | n in st.nodes :: t.nodes[n].key == st.nodes[n].key && t.nodes[n].pid == st.nodes[n].pid
      requires forall n | n in st.nodes ::
                 t.nodes[n].fwd == if n == p then st.nodes[n].fwd[i := Pointer(y)] else st.nodes[n].fwd
      modifies p.forward, this`st
      ensures Mirrored() && st == t
    {
      p.forward[i] := y;
      st := t;
    }

    /** A node's pid is written. */
    method StorePid(x: PidNode, pid: Option<Pid>)
      requires Mirrored() && x in st.nodes
      modifies x`pid, this`st
      ensures Mirrored() && st == SetPid(old(st), x, pid)
    {
      x.pid := pid;
      st := SetPid(st, x, pid);
    }

    /** The level of the list is written. */
    method StoreLevel(newLevel: int)
      requires Mirrored()
      modifies this`level, this`st
      ensures Mirrored() && st == SetLevel(old(st), newLevel)
    {
      level := newLevel;
      st := SetLevel(st, newLevel);
    }

    // -------------------------------------------------------------- the search shared by the writers

    /** A search for `key` may start here: below its ordinary node, and not below a tree node of that number. */
    ghost predicate Past(start: PidNode, key: int)
      reads this
      requires UniqueKeys(st) && start in st.nodes
    {
      Pos(st, start) < Late(key) && (Early(key) in Contents(st) ==> Early(key) <= Pos(st, start))
    }

    /** Moves along level i to the last node with a smaller number. */
    method WalkForward(start: PidNode, i: nat, key: int) returns (x: PidNode)
      requires Valid() && Linked(st, start, i) && Past(start, key)
      ensures x == WalkLevel(st, start, i, Late(key))
    {
      hide Mirrored, WellSized, Chained, Capped, Quiet, UniqueKeys, Contents, IsPred, Late, Early, Past, WalkLevel;
      x := start;
      WalkStep(x, i, key);
      while x.forward[i] != null && x.forward[i].key < key
        invariant Linked(st, x, i) && Past(x, key) && i < x.forward.Length && Pos(st, x) < Late(key)
        invariant WalkLevel(st, x, i, Late(key)) == WalkLevel(st, start, i, Late(key))
        decreases Late(key) - Pos(st, x)
      {
        WalkStep(x, i, key);
        x := x.forward[i];
        WalkStep(x, i, key);
      }
      WalkStep(x, i, key);
    }

    /** Comparing numbers takes the walk as far as comparing ranks does. */
    lemma WalkStep(x: PidNode, i: nat, key: int)
      requires Valid() && Linked(st, x, i) && Past(x, key)
      ensures i < x.forward.Length && Pos(st, x) < Late(key)
      ensures var y := x.forward[i];
              if y != null && y.key < key then
                && Linked(st, y, i) && Past(y, key) && Pos(st, x) < Pos(st, y)
                && WalkLevel(st, x, i, Late(key)) == WalkLevel(st, y, i, Late(key))
              else WalkLevel(st, x, i, Late(key)) == x
    {
      FollowLive(x, i);
      var y := x.forward[i];
      if y != null {
        assert Active(st, y);
        ContentsAt(st, y);
        assert Pointer(y) == st.nodes[x].fwd[i];
      } else {
        assert Pointer(y) == st.nodes[x].fwd[i];
      }
    }

    /**
     Walks from `start` down to level 0 and notes at every level where the walk stopped.  The
     entries of update[] are written from the top level down, each in front of the others.
     */
    method Search(start: PidNode, key: int) returns (update: seq<PidNode>)
      requires Valid() && Linked(st, start, level - 1) && Past(start, key)
      ensures update == Descend(st, start, level - 1, Late(key))
      ensures |update| == st.level && forall j | 0 <= j < st.level :: IsPred(st, Late(key), j, update[j])
    {
      hide Mirrored, WellSized, Chained, Capped, Quiet, UniqueKeys, Contents, IsPred, WalkLevel, Descend, Past;
      update := [];
      var x := start;
      var i := level - 1;
      PastBelow(start, key);
      ghost var upd := Descend(st, start, i, Late(key));
      while i >= 0
        invariant i >= -1
        invariant i >= 0 ==> Linked(st, x, i) && Past(x, key) && Pos(st, x) < Late(key)
                             && upd == Descend(st, x, i, Late(key)) + update
        invariant i < 0 ==> upd == update
      {
        LevelDown(x, i, key);
        x := WalkForward(x, i, key);
        update := [x] + update;
        i := i - 1;
      }
      LevelAgrees();
    }

    lemma PastBelow(x: PidNode, key: int)
      requires UniqueKeys(st) && x in st.nodes && Past(x, key)
      ensures Pos(st, x) < Late(key)
    {
    }

    lemma LevelDown(x: PidNode, i: nat, key: int)
      requires Inv(st) && Quiet(st) && Linked(st, x, i) && Past(x, key)
      ensures Pos(st, x) < Late(key)
      ensures var p := WalkLevel(st, x, i, Late(key));
              && Linked(st, p, i) && Past(p, key) && Pos(st, p) < Late(key)
              && (i == 0 ==> Descend(st, x, i, Late(key)) == [p])
              && (i > 0 ==> Linked(st, p, i - 1) && Descend(st, x, i, Late(key)) == Descend(st, p, i - 1, Late(key)) + [p])
    {
      assert Active(st, WalkLevel(st, x, i, Late(key)));
    }

    /** A pointer of a linked node leads to a linked node further on. */
    lemma FollowLive(x: PidNode, i: nat)
      requires Valid() && Linked(st, x, i)
      ensures i < x.forward.Length
      ensures x.forward[i] != null ==>
                && Linked(st, x.forward[i], i) && Linked(st, x.forward[i], 0) && x.forward[i] != header
                && Pos(st, x) < Pos(st, x.forward[i]) == st.nodes[x.forward[i]].key
    {
      assert Active(st, x);
      SuccAt(st, x, i);
      assert Active(st, header) && Linked(st, header, 0);
      assert Pointer(x.forward[i]) == st.nodes[x].fwd[i];
      HeaderFirst(st, x);
      if x.forward[i] != null {
        assert Active(st, x.forward[i]);
      }
    }

    /** What a writer or reader finds behind the level-0 predecessor of an ordinary node of `key`. */
    lemma Found(p: PidNode, key: int)
      requires Valid() && IsPred(st, Late(key), 0, p) && INT_MIN <= key
      ensures p.forward.Length > 0
      ensures var x := p.forward[0];
              && IsSucc(st, Late(key) - 1, 0, Pointer(x))
              && (Late(key) in Contents(st) <==> x != null && x.key == key)
              && (x != null ==> x in st.nodes && x != header && Linked(st, x, 0) && Late(key) <= st.nodes[x].key
                                && (x.key == key <==> st.nodes[x].key == Late(key))
                                && st.nodes[x].key in Contents(st) && Contents(st)[st.nodes[x].key] == x.pid)
    {
      FollowLive(p, 0);
      PredFinds(st, Late(key), p);
    }

    // -------------------------------------------------------------- linking and unlinking

    /** Links the new node behind its predecessors, from level 0 up to its height. */
    method Splice(x: PidNode, update: seq<PidNode>)
      requires Mirrored() && Inserting(st, x, update, 0)
      modifies this`st, set n: PidNode | n in st.nodes.Keys :: n.forward
      ensures Mirrored() && Inserting(st, x, update, x.level) && SameBut(old(st), st, x)
      ensures Contents(st) == old(Contents(st))[old(st).nodes[x].key := x.pid]
    {
      var i := 0;
      while i < x.level
        invariant 0 <= i <= x.level && Mirrored() && Inserting(st, x, update, i) && SameBut(old(st), st, x)
        invariant Contents(st) == if i == 0 then old(Contents(st)) else old(Contents(st))[old(st).nodes[x].key := x.pid]
      {
        SpliceAt(x, update[i], i, update);
        i := i + 1;
      }
    }

    /** The first of the two writes that link x at one level: x takes over the pointer of p. */
    method CopyAt(x: PidNode, p: PidNode, i: nat, ghost update: seq<PidNode>)
      requires Mirrored() && x in st.nodes && Inserting(st, x, update, i) && i < x.level && p == update[i]
      modifies this`st, x.forward
      ensures Mirrored() && p in st.nodes && p != x && i < |st.nodes[p].fwd| && st == CopyForward(old(st), p, x, i)
      ensures Inserting(st, x, update, i) && CanLink(st, p, x, i) && Contents(st) == old(Contents(st))
    {
      hide Inv, Settled, IsPred, Contents, Inserting, CanLink;
      CopyStep(st, x, update, i);
      StoreForward(x, i, p.forward[i], CopyForward(st, p, x, i));
    }

    /** Both writes. */
    method SpliceAt(x: PidNode, p: PidNode, i: nat, ghost update: seq<PidNode>)
      requires Mirrored() && x in st.nodes && Inserting(st, x, update, i) && i < x.level && p == update[i]
      modifies this`st, set n: PidNode | n in st.nodes.Keys :: n.forward
      ensures Mirrored() && Inserting(st, x, update, i + 1) && SameBut(old(st), st, x)
      ensures Contents(st) == if i == 0 then old(Contents(st))[old(st).nodes[x].key := x.pid] else old(Contents(st))
    {
      hide Mirrored, Inv, Settled, IsPred, Contents, Inserting, CanLink;
      KeyAgrees(x);
      ghost var s := st;
      CopyAt(x, p, i, update);
      ghost var t := st;
      LinkAt(x, p, i, update);
      CopiedAndLinked(s, t, st, p, x, i);
    }

    /** The second: p points to x. */
    method LinkAt(x: PidNode, p: PidNode, i: nat, ghost update: seq<PidNode>)
      requires Mirrored() && x in st.nodes && Inserting(st, x, update, i) && i < x.level && p == update[i]
      requires p in st.nodes && p != x && i < |st.nodes[p].fwd| && CanLink(st, p, x, i)
      modifies this`st, p.forward
      ensures Mirrored() && Inserting(st, x, update, i + 1) && st == Link(old(st), p, x, i)
      ensures Contents(st) == if i == 0 then old(Contents(st))[old(st).nodes[x].key := x.pid] else old(Contents(st))
    {
      hide Inv, Settled, IsPred, Contents, Inserting, CanLink;
      LinkStep(st, x, update, i);
      StoreForward(p, i, x, Link(st, p, x, i));
    }

    /** pid_skiplist_insert with the search starting at `start`; `oom` says whether the allocation fails. */
    method InsertFrom(start: PidNode, key: int, pid: Option<Pid>, draw: Draw, oom: bool)
      returns (ok: bool, added: PidNode?)
      requires Valid() && INT_MIN <= key <= INT_MAX
      requires Linked(st, start, level - 1) && Past(start, key)
      modifies this`level, this`st
      modifies (set n: PidNode | n in st.nodes.Keys :: n)`pid, set n: PidNode | n in st.nodes.Keys :: n.forward
      ensures Valid() && fresh(Repr() - old(Repr()))
      ensures ok == (Late(key) in old(Contents(st)) || !oom)
      ensures Contents(st) == if ok then old(Contents(st))[Late(key) := pid] else old(Contents(st))
      ensures level == if Late(key) in old(Contents(st)) then old(level) else Max(old(level), LevelOf(draw))
      ensures added != null <==> ok && Late(key) !in old(Contents(st))
      ensures Extends(old(st), st, Pointer(added))
      ensures added != null ==>
                && fresh(added) && added.key == key && added.level == LevelOf(draw)
                && Linked(st, added, 0) && added != header && st.nodes[added].key == Late(key) && added.pid == pid
    {
      hide Mirrored, Inv, Quiet, UniqueKeys, IsPred, Contents, IsSucc, Linked, Descend, WalkLevel, Past;
      hide Extends, LevelOf, Late, Early;
      var update := Search(start, key);
      LevelAgrees();
      LevelBounds(st);
      Found(update[0], key);
      var x := update[0].forward[0];
      if x != null && x.key == key {
        ghost var s := st;
        Replace(x, pid);
        ExtendedKeys(s, st, None);
        return true, null;
      }
      ghost var s := st;
      ok, added := InsertAbsent(key, pid, draw, oom, update);
      ExtendedKeys(s, st, Pointer(added));
    }

    /** The rest of the insertion once the search has not met the number. */
    method InsertAbsent(key: int, pid: Option<Pid>, draw: Draw, oom: bool, update: seq<PidNode>)
      returns (ok: bool, added: PidNode?)
      requires Valid() && Late(key) !in Contents(st) && INT_MIN <= key <= INT_MAX
      requires |update| == st.level && forall i | 0 <= i < st.level :: IsPred(st, Late(key), i, update[i])
      modifies this`level, this`st, set n: PidNode | n in st.nodes.Keys :: n.forward
      ensures Valid() && ok == !oom && (added != null <==> ok)
      ensures added != null ==>
                && fresh(added) && fresh(added.forward) && added.key == key && added.level == LevelOf(draw)
                && Linked(st, added, 0) && added != header && st.nodes[added].key == Late(key) && added.pid == pid
      ensures Contents(st) == if ok then old(Contents(st))[Late(key) := pid] else old(Contents(st))
      ensures level == Max(old(level), LevelOf(draw)) && Extends(old(st), st, Pointer(added))
    {
      hide Mirrored, Inv, Quiet, UniqueKeys, IsPred, Contents;
      var lvl := PidSlRandomLevel(draw);
      LevelRange(draw);
      LevelAgrees();
      if oom {
        ok, added := false, null;
        HeaderPresent(st);
        RaiseKeeps(st, lvl);
        if lvl > level {
          StoreLevel(lvl);
        }
        LevelAgrees();
      } else {
        ok := true;
        added := InsertNew(key, pid, lvl, update);
      }
    }

    method Replace(x: PidNode, pid: Option<Pid>)
      requires Valid() && x in st.nodes && x != header && Linked(st, x, 0)
      modifies this`st, x`pid
      ensures Valid() && Contents(st) == old(Contents(st))[old(st).nodes[x].key := pid] && Extends(old(st), st, None)
    {
      hide Inv, Contents;
      HeaderPresent(st);
      SetPidInv(st, x, pid);
      SetPidContents(st, x, pid);
      StorePid(x, pid);
    }

    method InsertNew(key: int, pid: Option<Pid>, lvl: int, upd: seq<PidNode>) returns (x: PidNode)
      requires Valid() && Late(key) !in Contents(st) && INT_MIN <= key <= INT_MAX && 1 <= lvl <= PID_SL_MAX_LEVEL
      requires |upd| == st.level && forall i | 0 <= i < st.level :: IsPred(st, Late(key), i, upd[i])
      modifies this`level, this`st, set n: PidNode | n in st.nodes.Keys :: n.forward
      ensures Valid() && fresh(x) && fresh(x.forward) && Extends(old(st), st, Some(x)) && Linked(st, x, 0)
      ensures Contents(st) == old(Contents(st))[Late(key) := pid]
      ensures level == Max(old(level), lvl) && x.key == key && x.level == lvl && x != header
              && st.nodes[x].key == Late(key)
      ensures x.pid == pid
    {
      hide Mirrored, Inv, Quiet, Settled, UniqueKeys, IsPred, Contents, Inserting, Late;
      ghost var s := st;
      var update: seq<PidNode>;
      x, update := Prepare(key, pid, lvl, upd);
      ghost var t := st;
      Splice(x, update);
      LevelAgrees();
      InsertingDone(st, x, update, lvl);
      SplicedOnto(s, t, st, x, lvl, key, pid);
      KeyAgrees(x);
    }

    /** The level is raised if need be, and the new node allocated; nothing is linked yet. */
    method Prepare(key: int, pid: Option<Pid>, lvl: int, upd: seq<PidNode>) returns (x: PidNode, update: seq<PidNode>)
      requires Valid() && Late(key) !in Contents(st) && INT_MIN <= key <= INT_MAX && 1 <= lvl <= PID_SL_MAX_LEVEL
      requires |upd| == st.level && forall i | 0 <= i < st.level :: IsPred(st, Late(key), i, upd[i])
      modifies this`level, this`st
      ensures Mirrored() && Inserting(st, x, update, 0) && Contents(st) == old(Contents(st))
      ensures fresh(x) && fresh(x.forward) && x !in old(st).nodes && x.key == key && x.level == lvl && x.pid == pid
      ensures st == AddTower(Raised(old(st), lvl), x, Late(key), pid, lvl) && level == Max(old(level), lvl)
      ensures old(st).header in old(st).nodes && Least(old(st)) == FIRST
    {
      hide Mirrored, Inv, Quiet, Settled, UniqueKeys, IsPred, Contents, Inserting;
      update := upd;
      ghost var s := st;
      LevelAgrees();
      HeaderPresent(st);
      if lvl > level {
        update := update + seq(lvl - level, _ => header);
        StoreLevel(lvl);
      }
      x := new PidNode(lvl, key, pid);
      ReadyToInsert(s, x, Late(key), pid, lvl, upd);
      assert st == Raised(s, lvl) && update == Padded(s, upd, lvl);
      Adopt(x, Late(key));
      LevelAgrees();
    }

    lemma LevelAgrees()
      requires Mirrored()
      ensures level == st.level && header == st.header
    {
    }

    /** A node fresh from the allocator enters the shape, linked nowhere. */
    ghost method Adopt(x: PidNode, rank: int)
      requires Mirrored() && x !in st.nodes && x.forward.Length == x.level && Number(rank) == x.key
      requires forall i | 0 <= i < x.level :: x.forward[i] == null
      requires forall n: PidNode | n in st.nodes :: n.forward != x.forward
      modifies this`st
      ensures Mirrored() && st == AddTower(old(st), x, rank, x.pid, x.level)
    {
      st := AddTower(st, x, rank, x.pid, x.level);
    }

    /** A node taken into a search tree is said to stand at the early rank of its number. */
    ghost method Reseat(x: PidNode, rank: int)
      requires Mirrored() && x in st.nodes && Number(rank) == x.key
      modifies this`st
      ensures Mirrored() && st == Rekey(old(st), x, rank)
    {
      st := Rekey(st, x, rank);
    }

    /** pid_skiplist_remove with the search starting at `start`; gives back the node handed to RCU. */
    method RemoveFrom(start: PidNode, key: int) returns (gone: PidNode?)
      requires Valid() && INT_MIN <= key && Linked(st, start, level - 1) && Past(start, key)
      modifies this`level, this`st, set n: PidNode | n in st.nodes.Keys :: n.forward
      ensures Valid() && Repr() == old(Repr()) && old(st).nodes.Keys == st.nodes.Keys
      ensures Contents(st) == old(Contents(st)) - {Late(key)}
      ensures gone != null <==> Late(key) in old(Contents(st))
      ensures gone == null ==> st == old(st)
      ensures gone != null ==>
                && gone in st.nodes && gone != header && old(st).nodes[gone].key == Late(key)
                && Linked(old(st), gone, 0) && !Active(st, gone)
                && SameBut(SetLevel(old(st), level), st, gone) && level <= old(level) && Tight(st)
    {
      hide Mirrored, WellSized, Chained, Capped, Quiet, UniqueKeys, IsPred, Contents, IsSucc, Descend, WalkLevel, Past;
      var update := Search(start, key);
      LevelAgrees();
      LevelBounds(st);
      Found(update[0], key);
      gone := update[0].forward[0];
      if gone == null || gone.key != key {
        gone := null;
        LateAbsent(key);
        return;
      }
      RemovingStart(st, gone, update);
      HeaderPresent(st);
      Unsplice(gone, update);
      LowerLevel();
      LevelAgrees();
    }

    lemma LateAbsent(key: int)
      requires UniqueKeys(st)
      ensures Late(key) !in Contents(st) ==> Contents(st) - {Late(key)} == Contents(st)
    {
    }

    lemma NumbersAgree()
      requires Valid()
      ensures forall n: PidNode | n in st.nodes :: n.key == Number(st.nodes[n].key)
      ensures header == st.header && header in st.nodes && level == st.level && Least(st) == FIRST
    {
    }

    lemma KeyAgrees(x: PidNode)
      requires Mirrored() && x in st.nodes
      ensures x.key == Number(st.nodes[x].key) && x.forward.Length == x.level == |st.nodes[x].fwd|
      ensures x.pid == st.nodes[x].pid
    {
    }

    /** Unlinks the node from level 0 up, and stops at the first level where its predecessor does not lead to it. */
    method Unsplice(x: PidNode, update: seq<PidNode>)
      requires Mirrored() && x in st.nodes && Removing(st, x, update, 0)
      requires st.header in st.nodes && Least(st) == FIRST
      modifies this`st, set n: PidNode | n in st.nodes.Keys :: n.forward
      ensures Valid() && SameBut(old(st), st, x) && !Active(st, x)
      ensures Contents(st) == old(Contents(st)) - {old(st).nodes[x].key}
    {
      hide Mirrored, WellSized, Chained, Capped, Quiet, Settled, UniqueKeys, IsPred, Contents, Active;
      KeyAgrees(x);
      LevelBounds(st);
      LevelAgrees();
      var i := 0;
      while i < level
        invariant 0 <= i <= level == st.level && Mirrored() && SameBut(old(st), st, x)
        invariant Removing(st, x, update, i) && i <= x.level && st.nodes[x].key == old(st).nodes[x].key
        invariant Contents(st) == if i == 0 then old(Contents(st)) else old(Contents(st)) - {old(st).nodes[x].key}
        invariant level == old(level)
      {
        StillPointedTo(st, x, update, i);
        ForwardAgrees(update[i], i);
        if update[i].forward[i] != x {
          break;
        }
        UnspliceAt(x, update[i], i, update);
        LevelAgrees();
        i := i + 1;
      }
      KeyAgrees(x);
      RemovingDone(st, x, update, i);
      SameLeast(old(st), st, x);
    }

    lemma ForwardAgrees(n: PidNode, i: nat)
      requires Mirrored() && n in st.nodes && i < |st.nodes[n].fwd|
      ensures i < n.forward.Length && Pointer(n.forward[i]) == st.nodes[n].fwd[i]
    {
    }

    method UnspliceAt(x: PidNode, p: PidNode, i: nat, ghost update: seq<PidNode>)
      requires Mirrored() && x in st.nodes && Removing(st, x, update, i) && i < st.nodes[x].hi && p == update[i]
      modifies this`st, set n: PidNode | n in st.nodes.Keys :: n.forward
      ensures Mirrored() && Removing(st, x, update, i + 1) && SameBut(old(st), st, x)
      ensures Contents(st) == if i == 0 then old(Contents(st)) - {old(st).nodes[x].key} else old(Contents(st))
    {
      hide Inv, Settled, IsPred, Contents;
      UnlinkStep(st, x, update, i);
      hide Removing;
      StoreForward(p, i, x.forward[i], Unlink(st, p, x, i));
    }

    /** Gives up the top levels on which the header leads nowhere, all but the lowest. */
    method LowerLevel()
      requires Valid()
      modifies this`level, this`st
      ensures Valid() && Contents(st) == old(Contents(st)) && level <= old(level)
      ensures st == SetLevel(old(st), level) && Tight(st)
    {
      hide Quiet, UniqueKeys, Chained, Capped, Contents;
      var newLevel := level;
      while newLevel > 1 && header.forward[newLevel - 1] == null
        invariant 1 <= newLevel <= level
        invariant forall j | newLevel <= j < level :: header.forward[j] == null
      {
        newLevel := newLevel - 1;
      }
      assert forall j | newLevel <= j < level :: st.nodes[header].fwd[j] == Pointer(header.forward[j]);
      LowerKeeps(st, newLevel);
      if newLevel != level {
        StoreLevel(newLevel);
      }
    }

    // -------------------------------------------------------------- reading

    /** The readers' descent to level 0. */
    method WalkDown(start: PidNode, key: int) returns (x: PidNode)
      requires Valid() && Linked(st, start, level - 1) && Past(start, key) && INT_MIN <= key
      ensures IsPred(st, Late(key), 0, x)
    {
      hide Mirrored, WellSized, Chained, Capped, Quiet, UniqueKeys, IsPred, WalkLevel, Descend, Past;
      LevelAgrees();
      LevelBounds(st);
      PastBelow(start, key);
      x := start;
      var i := level - 1;
      ghost var upd := Descend(st, start, i, Late(key));
      while i >= 0
        invariant i >= -1
        invariant i >= 0 ==> Linked(st, x, i) && Past(x, key) && Pos(st, x) < Late(key)
                             && upd[0] == Descend(st, x, i, Late(key))[0]
        invariant i < 0 ==> upd[0] == x
      {
        LevelDown(x, i, key);
        x := WalkForward(x, i, key);
        i := i - 1;
      }
    }

    /** pid_skiplist_lookup_rcu with the search starting at `start`. */
    method LookupFrom(start: PidNode, key: int) returns (pid: Option<Pid>)
      requires Valid() && Linked(st, start, level - 1) && Past(start, key) && INT_MIN <= key
      ensures pid == ValueAt(Contents(st), Late(key))
    {
      hide Mirrored, WellSized, Chained, Capped, Quiet, UniqueKeys, IsPred, Contents, Past;
      var x := WalkDown(start, key);
      Found(x, key);
      var next := x.forward[0];
      if next != null && next.key == key {
        return next.pid;
      }
      return None;
    }

    /** pid_skiplist_find_ge_rcu with the search starting at `start`. */
    method FindGeFrom(start: PidNode, key: int) returns (pid: Option<Pid>)
      requires Valid() && Linked(st, start, level - 1) && Past(start, key) && INT_MIN <= key
      ensures IsFirstValue(Contents(st), Late(key), pid)
    {
      var node: PidNode?;
      node, pid := FirstFrom(start, key);
    }

    method FirstFrom(start: PidNode, key: int) returns (node: PidNode?, pid: Option<Pid>)
      requires Valid() && Linked(st, start, level - 1) && Past(start, key) && INT_MIN <= key
      ensures IsEntry(node) && pid == (if node == null then None else ValueAt(Contents(st), st.nodes[node].key))
      ensures IsLeastFrom(Contents(st), Late(key), if node == null then None else Some(st.nodes[node].key))
      ensures IsFirstValue(Contents(st), Late(key), pid)
    {
      hide Mirrored, WellSized, Chained, Capped, Quiet, UniqueKeys, IsPred, IsSucc, Contents, Past;
      var x := WalkDown(start, key);
      Found(x, key);
      node := x.forward[0];
      SuccIsLeast(st, Late(key), Pointer(node));
      if node == null {
        return null, None;
      }
      assert IsLeastFrom(Contents(st), Late(key), Some(st.nodes[node].key));
      return node, node.pid;
    }

    /** A cursor: NULL, or an entry of the list. */
    ghost predicate IsEntry(node: PidNode?)
      reads this`st
    {
      node != null ==> node in st.nodes && node != header && Linked(st, node, 0)
    }

    /** One call of pid_skiplist_iter_next_rcu with the first search starting at `start`. */
    method IterNextFrom(start: PidNode, cursor: PidNode?, startKey: int) returns (next: PidNode?, pid: Option<Pid>)
      requires Valid() && Linked(st, start, level - 1) && Past(start, startKey) && INT_MIN <= startKey
      requires IsEntry(cursor)
      ensures IsEntry(next) && (cursor != null ==> next != null)
      ensures var from := if cursor == null then Late(startKey) else st.nodes[cursor].key + 1;
              && IsFirstValue(Contents(st), from, pid)
              && IsLeastFrom(Contents(st), from, if next == cursor then None else Some(st.nodes[next].key))
              && pid == if next == cursor then None else ValueAt(Contents(st), st.nodes[next].key)
    {
      hide Mirrored, WellSized, Chained, Capped, Quiet, UniqueKeys, IsPred, IsSucc, Contents, Past;
      if cursor == null {
        next, pid := FirstFrom(start, startKey);
        return;
      }
      LevelAgrees();
      KeyInRange(st, cursor);
      ghost var from := st.nodes[cursor].key + 1;
      NextBehind(cursor);
      var node := cursor.forward[0];
      SuccIsLeast(st, from, Pointer(node));
      if node == null {
        assert IsLeastFrom(Contents(st), from, None);
        return cursor, None;
      }
      assert IsLeastFrom(Contents(st), from, Some(st.nodes[node].key));
      return node, node.pid;
    }

    /** What stands behind an entry: the next one in the order of ranks. */
    lemma NextBehind(p: PidNode)
      requires Valid() && p != header && Linked(st, p, 0)
      ensures p.forward.Length > 0
      ensures var x := p.forward[0];
              && IsSucc(st, st.nodes[p].key, 0, Pointer(x)) && x != p
              && (x != null ==> x in st.nodes && x != header && Linked(st, x, 0)
                                && st.nodes[x].key in Contents(st) && Contents(st)[st.nodes[x].key] == x.pid)
    {
      FollowLive(p, 0);
      PredOfSelf(st, p);
      HeaderFirst(st, p);
      PredFinds(st, st.nodes[p].key + 1, p);
    }

    // -------------------------------------------------------------- the interface of the plain list

    /** The header stands before every number and is as tall as any tower. */
    lemma HeaderStart(key: int)
      requires Plain() && INT_MIN <= key
      ensures Linked(st, header, level - 1) && Past(header, key)
    {
    }

    method Insert(key: int, pid: Option<Pid>, draw: Draw, oom: bool) returns (ok: bool)
      requires Plain() && INT_MIN <= key <= INT_MAX
      modifies this`level, this`st
      modifies (set n: PidNode | n in st.nodes.Keys :: n)`pid, set n: PidNode | n in st.nodes.Keys :: n.forward
      ensures Plain() && fresh(Repr() - old(Repr()))
      ensures ok == (key in old(Entries()) || !oom)
      ensures Entries() == if ok then old(Entries())[key := pid] else old(Entries())
      ensures level == if key in old(Entries()) then old(level) else Max(old(level), LevelOf(draw))
    {
      hide Mirrored, WellSized, Chained, Capped, Quiet, UniqueKeys, Contents, Ordinary, Past;
      HeaderStart(key);
      OrdinaryAt(Contents(st), key);
      LateChange(Contents(st), key, pid);
      var added: PidNode?;
      ok, added := InsertFrom(header, key, pid, draw, oom);
    }

    method Remove(key: int)
      requires Plain() && INT_MIN <= key <= INT_MAX
      modifies this`level, this`st, set n: PidNode | n in st.nodes.Keys :: n.forward
      ensures Plain() && Repr() == old(Repr())
      ensures Entries() == old(Entries()) - {key}
      ensures key in old(Entries()) ==> Tight(st)
      ensures key !in old(Entries()) ==> level == old(level)
    {
      hide Mirrored, WellSized, Chained, Capped, Quiet, UniqueKeys, Contents, Ordinary, Past;
      HeaderStart(key);
      OrdinaryAt(Contents(st), key);
      LateChange(Contents(st), key, None);
      LevelAgrees();
      var gone := RemoveFrom(header, key);
      LevelAgrees();
    }

    method Lookup(key: int) returns (pid: Option<Pid>)
      requires Plain() && INT_MIN <= key <= INT_MAX
      ensures pid == ValueAt(Entries(), key)
    {
      hide Mirrored, WellSized, Chained, Capped, Quiet, UniqueKeys, Contents, Ordinary, Past;
      HeaderStart(key);
      OrdinaryAt(Contents(st), key);
      pid := LookupFrom(header, key);
    }

    method FindGe(key: int) returns (pid: Option<Pid>)
      requires Plain() && INT_MIN <= key <= INT_MAX
      ensures IsFirstValue(Entries(), key, pid)
    {
      hide Mirrored, WellSized, Chained, Capped, Quiet, UniqueKeys, Contents, Ordinary, Past, IsFirstValue;
      HeaderStart(key);
      pid := FindGeFrom(header, key);
      FirstOrdinary(Contents(st), key, pid);
    }

    method IterNext(cursor: PidNode?, startKey: int) returns (next: PidNode?, pid: Option<Pid>)
      requires Plain() && INT_MIN <= startKey <= INT_MAX && IsEntry(cursor)
      ensures IsEntry(next) && (cursor != null ==> next != null)
      ensures var from := if cursor == null then startKey else cursor.key + 1;
              && IsFirstValue(Entries(), from, pid)
              && IsLeastFrom(Entries(), from, if next == cursor then None else Some(next.key))
              && pid == if next == cursor then None else ValueAt(Entries(), next.key)
    {
      hide Mirrored, WellSized, Chained, Capped, Quiet, UniqueKeys, Contents, Ordinary, Past, IsFirstValue, IsLeastFrom;
      HeaderStart(startKey);
      next, pid := IterNextFrom(header, cursor, startKey);
      var from := if cursor == null then startKey else cursor.key + 1;
      var r := if next == cursor then None else Some(st.nodes[next].key);
      if cursor != null {
        EntryRank(cursor);
        NextRank(Contents(st), cursor.key, r);
      }
      if next != cursor {
        EntryRank(next);
      }
      LeastOrdinary(Contents(st), from, r);
      FirstIsLeast(Entries(), from, if next == cursor then None else Some(next.key));
    }

    /** An entry of the plain list is an ordinary one. */
    lemma EntryRank(n: PidNode)
      requires Plain() && IsEntry(n)
      ensures n.key == Number(st.nodes[n].key) && st.nodes[n].key == Late(n.key) && INT_MIN <= n.key <= INT_MAX
      ensures st.nodes[n].key in Contents(st)
    {
      ContentsAt(st, n);
    }

    /**
     The loop of zap_pid_ns_processes: repeats IterNext from a NULL cursor until it gives NULL,
     and gives back the pids it met.
     */
    method Enumerate(startKey: int) returns (pids: seq<Pid>)
      requires Plain() && INT_MIN <= startKey <= INT_MAX
      ensures exists keys :: Visits(Entries(), startKey, keys, pids)
    {
      hide Mirrored, WellSized, Chained, Capped, Quiet, UniqueKeys, Contents, Ordinary, IsFirstValue;
      pids := [];
      ghost var keys: seq<int> := [];
      var cursor, pid := IterNext(null, startKey);
      ghost var from := startKey;
      while pid != None
        invariant IsEntry(cursor) && (pid != None ==> cursor != null)
        invariant VisitsBelow(Entries(), startKey, from, keys, pids)
        invariant pid != None ==> IsLeastFrom(Entries(), from, Some(cursor.key))
                                  && Entries()[cursor.key] == pid
        invariant pid == None ==> StopsAt(Entries(), from)
        decreases INT_MAX - from
      {
        EntryRank(cursor);
        VisitOne(Entries(), startKey, from, keys, pids, cursor.key, pid.value);
        pids, keys := pids + [pid.value], keys + [cursor.key];
        from := cursor.key + 1;
        var next;
        next, pid := IterNext(cursor, startKey);
        cursor := next;
      }
      VisitsAll(Entries(), startKey, from, keys, pids);
    }
  }

  lemma ExtendedKeys(s: Shape<PidNode>, t: Shape<PidNode>, x: Option<PidNode>)
    requires Extends(s, t, x)
    ensures t.nodes.Keys == s.nodes.Keys + if x.Some? then {x.value} else {}
  {
  }

  lemma CopiedAndLinked(s: Shape<PidNode>, t: Shape<PidNode>, u: Shape<PidNode>, p: PidNode, x: PidNode, i: nat)
    requires p in s.nodes && x in s.nodes && p != x && i < |s.nodes[p].fwd| && i < |s.nodes[x].fwd|
    requires t == CopyForward(s, p, x, i) && u == Link(t, p, x, i)
    ensures SameBut(s, u, x) && t.nodes[x].key == s.nodes[x].key
  {
  }

  lemma SameLeast(s: Shape<PidNode>, t: Shape<PidNode>, x: PidNode)
    requires s.header in s.nodes && SameBut(s, t, x)
    ensures t.header in t.nodes && Least(t) == Least(s)
  {
  }

  /** The new node and its links are all that is new. */
  lemma SplicedOnto(s: Shape<PidNode>, t: Shape<PidNode>, u: Shape<PidNode>, x: PidNode, lvl: int, key: int,
                    pid: Option<Pid>)
    requires lvl >= 0 && t == AddTower(Raised(s, lvl), x, Late(key), pid, lvl) && SameBut(t, u, x) && x !in s.nodes
    requires s.header in s.nodes
    ensures Extends(s, u, Some(x)) && u.nodes[x].key == Late(key) && u.nodes[x].pid == pid && x != u.header
    ensures u.header in u.nodes && Least(u) == Least(s)
  {
  }
}

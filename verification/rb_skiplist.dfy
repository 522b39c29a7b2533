/**
 The RB-seeded PID skip list: the plain list plus a search tree over its tallest towers, from
 which every search takes its starting point.  Colours and rotations of the red-black tree
 are not modelled; everything below holds of any search tree over the same nodes.

 The tree is searched with <=, the list with <.  A search for the number of a tree node starts on
 that node, and so finds only what stands behind it: a second node of the same number, if there
 is one.  A tree node therefore stands at the early rank of its number and is never reached by an
 operation on it; all others stand at late ranks, which is where every operation works.
 */
module RbSkiplist {
  import opened Options
  import opened Towers
  import opened Ranks
  import opened RandomLevel
  import opened PidSkiplist

  datatype Tree = Leaf | Branch(left: Tree, node: PidNode, right: Tree)

  function Nodes(t: Tree): set<PidNode> {
    match t
    case Leaf => {}
    case Branch(l, n, r) => Nodes(l) + {n} + Nodes(r)
  }

  ghost predicate Ordered(t: Tree) {
    match t
    case Leaf => true
    case Branch(l, n, r) =>
      && Ordered(l) && Ordered(r)
      && (forall m: PidNode | m in Nodes(l) :: m.key < n.key)
      && (forall m: PidNode | m in Nodes(r) :: n.key < m.key)
  }

  /** rb_link_node at the leaf the search ends in. */
  function Attach(t: Tree, x: PidNode): Tree {
    match t
    case Leaf => Branch(Leaf, x, Leaf)
    case Branch(l, n, r) =>
      if x.key < n.key then Branch(Attach(l, x), n, r)
      else if x.key > n.key then Branch(l, n, Attach(r, x))
      else t
  }

  lemma {:induction false} AttachKeeps(t: Tree, x: PidNode)
    requires Ordered(t) && forall m: PidNode | m in Nodes(t) :: m.key != x.key
    ensures Nodes(Attach(t, x)) == Nodes(t) + {x} && Ordered(Attach(t, x))
  {
    match t
    case Leaf =>
    case Branch(l, n, r) =>
      assert n in Nodes(t);
      if x.key < n.key { AttachKeeps(l, x); } else { AttachKeeps(r, x); }
  }

  /** The tree keys: the numbers a search steps past. */
  function Keys(t: Tree): set<int> {
    set n: PidNode | n in Nodes(t) :: n.key
  }

  /** `r` is the tree node of greatest key not above `key`, or the header if there is none. */
  ghost predicate IsGreatestLe(t: Tree, header: PidNode, key: int, r: PidNode) {
    if r in Nodes(t) then r.key <= key && forall m: PidNode | m in Nodes(t) && m.key <= key :: m.key <= r.key
    else r == header && forall m: PidNode | m in Nodes(t) :: key < m.key
  }

  /** The nodes of the level-15 chain behind the header. */
  ghost function Top(s: Shape<PidNode>): set<PidNode> {
    set n: PidNode | n in s.nodes && n != s.header && Linked(s, n, PID_SL_MAX_LEVEL - 1)
  }

  /** The linked nodes at early ranks. */
  ghost function SeedNodes(s: Shape<PidNode>): set<PidNode> {
    set n: PidNode | n in s.nodes && n != s.header && Active(s, n) && !IsLate(s.nodes[n].key)
  }

  /** The tree holds the nodes at early ranks, all of full height, and the number of every other node of full height. */
  ghost predicate Indexed(t: Tree, s: Shape<PidNode>) {
    && Nodes(t) == SeedNodes(s) && Nodes(t) <= Top(s)
    && forall n: PidNode | n in Top(s) :: n.key in Keys(t)
  }

  lemma TreeKey(t: Tree, n: PidNode)
    requires n in Nodes(t)
    ensures n.key in Keys(t)
  {
  }

  lemma KeyNode(t: Tree, k: int) returns (n: PidNode)
    requires k in Keys(t)
    ensures n in Nodes(t) && n.key == k
  {
    n :| n in Nodes(t) && n.key == k;
  }

  /** The tree keys are exactly the numbers of the level-15 chain. */
  lemma TreeKeysAreTop(t: Tree, s: Shape<PidNode>)
    requires Indexed(t, s)
    ensures Keys(t) == set n: PidNode | n in Top(s) :: n.key
  {
  }

  /** An insertion leaves the early ranks alone; among the new nodes only one of full height joins the top chain. */
  lemma IndexedExtends(t: Tree, s: Shape<PidNode>, u: Shape<PidNode>, x: Option<PidNode>)
    requires Indexed(t, s) && Extends(s, u, x) && Inv(u) && Quiet(u) && s.header in s.nodes
    requires x.Some? ==>
               x.value !in s.nodes && x.value != u.header && Linked(u, x.value, 0) && IsLate(u.nodes[x.value].key)
    ensures SeedNodes(u) == SeedNodes(s)
    ensures Top(u) == Top(s) + if x.Some? && |u.nodes[x.value].fwd| == PID_SL_MAX_LEVEL then {x.value} else {}
  {
    hide Chained, UniqueKeys, Capped, Indexed;
  }

  /** So does the removal of an ordinary node. */
  lemma IndexedShrinks(t: Tree, s: Shape<PidNode>, u: Shape<PidNode>, x: PidNode)
    requires Indexed(t, s) && SameBut(SetLevel(s, u.level), u, x) && Quiet(s) && Quiet(u)
    requires x in s.nodes && x != s.header && IsLate(s.nodes[x].key) && Linked(s, x, 0) && !Active(u, x)
    ensures Indexed(t, u) && x !in Nodes(t)
  {
    assert SeedNodes(u) == SeedNodes(s);
    assert Top(u) == Top(s) - {x};
  }

  /** A node taken into the tree changes its rank, and nothing else. */
  lemma IndexedRekeys(t: Tree, u: Tree, s: Shape<PidNode>, x: PidNode, key: int)
    requires IndexedBut(t, s, x) && Nodes(u) == Nodes(t) + {x} && x.key == key
    requires x in s.nodes && Linked(s, x, 0) && x != s.header
    ensures Indexed(u, Rekey(s, x, Early(key)))
  {
    var v := Rekey(s, x, Early(key));
    RekeySeeds(s, x, key);
    forall n: PidNode | n in Top(v)
      ensures n.key in Keys(u)
    {
      if n == x {
        TreeKey(u, x);
      } else {
        assert n.key in Keys(t);
      }
    }
  }

  lemma RekeySeeds(s: Shape<PidNode>, x: PidNode, key: int)
    requires x in s.nodes && Linked(s, x, 0) && x != s.header
    ensures var v := Rekey(s, x, Early(key)); SeedNodes(v) == SeedNodes(s) + {x} && Top(v) == Top(s)
  {
    var v := Rekey(s, x, Early(key));
    assert !IsLate(v.nodes[x].key);
    forall n
      ensures Active(v, n) <==> Active(s, n)
      ensures Linked(v, n, PID_SL_MAX_LEVEL - 1) <==> Linked(s, n, PID_SL_MAX_LEVEL - 1)
    {
    }
    assert SeedNodes(v) == SeedNodes(s) + {x};
    assert Top(v) == Top(s);
  }

  class RbSkipList {
    const list: SkipList
    var tree: Tree
    /** The nodes whose in_rb_tree flag is set. */
    var inRbTree: set<PidNode>

    ghost function Repr(): set<object>
      reads this, list
    {
      {this} + list.Repr()
    }

    ghost predicate Valid()
      reads this, list, list.st.nodes.Keys, set n: PidNode | n in list.st.nodes.Keys :: n.forward
    {
      list.Valid() && Ordered(tree) && Indexed(tree, list.st) && inRbTree == Nodes(tree)
    }

    /** The entries of the nodes in the tree, and of the others, by number. */
    ghost function TreeEntries(): Entries
      reads list
      requires UniqueKeys(list.st)
    {
      Seeds(Contents(list.st))
    }

    ghost function Ordinaries(): Entries
      reads list
      requires UniqueKeys(list.st)
    {
      Ordinary(Contents(list.st))
    }

    /** pid_rb_skiplist_init */
    constructor ()
      ensures Valid() && fresh(Repr()) && tree == Leaf && Contents(list.st) == map[] && list.level == 1
    {
      hide SkipList.Mirrored, WellSized, Chained, Capped, Quiet, UniqueKeys, Contents, Indexed, AllLate, Ordinary;
      list := new SkipList();
      tree := Leaf;
      inRbTree := {};
      new;
      NothingIndexed();
    }

    lemma NothingIndexed()
      requires list.Valid() && Contents(list.st) == map[]
      ensures Indexed(Leaf, list.st)
    {
      forall n: PidNode | n in list.st.nodes && n != list.st.header
        ensures !Active(list.st, n)
      {
        if Active(list.st, n) {
          ContentsAt(list.st, n);
        }
      }
    }

    /** rb_find_le: the starting point of a search. */
    method FindLe(key: int) returns (result: PidNode)
      requires Ordered(tree) && list.header !in Nodes(tree)
      ensures IsGreatestLe(tree, list.header, key, result)
    {
      result := list.header;
      var t := tree;
      ghost var found := false;
      while t.Branch?
        invariant Ordered(t) && Nodes(t) <= Nodes(tree)
        invariant if found then result in Nodes(tree) && result.key <= key else result == list.header
        invariant forall m: PidNode | m in Nodes(tree) && m.key <= key :: m in Nodes(t) || (found && m.key <= result.key)
        invariant found ==> forall m: PidNode | m in Nodes(t) :: result.key < m.key
        decreases t
      {
        if t.node.key <= key {
          assert t.node in Nodes(t);
          result, found := t.node, true;
          t := t.right;
        } else {
          t := t.left;
        }
      }
    }

    /** rb_insert_node: a node whose key is already there is not added. */
    method RbInsertNode(x: PidNode)
      requires Ordered(tree) && inRbTree == Nodes(tree)
      modifies this`tree, this`inRbTree
      ensures Ordered(tree) && inRbTree == Nodes(tree)
      ensures Nodes(tree) == old(Nodes(tree)) + if x.key in old(Keys(tree)) then {} else {x}
    {
      var t := tree;
      while t.Branch?
        invariant Nodes(t) <= Nodes(tree) && Ordered(t)
        invariant forall m: PidNode | m in Nodes(tree) && m.key == x.key :: m in Nodes(t)
        decreases t
      {
        if x.key < t.node.key {
          t := t.left;
        } else if x.key > t.node.key {
          t := t.right;
        } else {
          assert t.node in Nodes(tree);
          return;
        }
      }
      AttachKeeps(tree, x);
      tree := Attach(tree, x);
      inRbTree := inRbTree + {x};
    }

    /** A search may start at what rb_find_le gives; a non-empty tree means that the top level is in use. */
    lemma StartGood(start: PidNode, key: int)
      requires Valid() && INT_MIN <= key && IsGreatestLe(tree, list.header, key, start)
      ensures Linked(list.st, start, list.level - 1) && list.Past(start, key)
      ensures Pos(list.st, start) == Early(key) <==> key in Keys(tree)
      ensures Nodes(tree) != {} ==> list.level == PID_SL_MAX_LEVEL
    {
      hide SkipList.Mirrored, Inv, Quiet, Contents, Indexed, Ordered;
      list.NumbersAgree();
      KeysAreSeeds(key);
      HeaderOutside();
      TopHeader(key);
      if start in Nodes(tree) {
        SeedFacts(start);
      }
      if n: PidNode :| n in Nodes(tree) {
        SeedFacts(n);
      }
      if key in Keys(tree) {
        var m: PidNode :| m in Nodes(tree) && m.key == key;
        SeedFacts(m);
        assert start in Nodes(tree) && start.key == key;
      }
    }

    lemma TopHeader(key: int)
      requires Valid() && INT_MIN <= key
      ensures Linked(list.st, list.header, list.level - 1) && Pos(list.st, list.header) < Early(key)
    {
    }

    /** A node of the tree is linked on all sixteen levels, at the early rank of its number. */
    lemma SeedFacts(n: PidNode)
      requires Valid() && n in Nodes(tree)
      ensures Active(list.st, n) && list.st.nodes[n].hi == PID_SL_MAX_LEVEL == list.level && n != list.st.header
      ensures Linked(list.st, n, list.level - 1) && Linked(list.st, n, 0)
      ensures list.st.nodes[n].key == Early(n.key) && Pos(list.st, n) == Early(n.key)
    {
      hide Chained, UniqueKeys;
      assert n in Top(list.st) && n in SeedNodes(list.st);
    }

    lemma HeaderOutside()
      requires Valid()
      ensures list.header !in Nodes(tree) && list.header in list.st.nodes
      ensures list.header.level == PID_SL_MAX_LEVEL && list.header == list.st.header
    {
    }

    /** The tree entries are those of the tree keys. */
    lemma KeysAreSeeds(k: int)
      requires Valid()
      ensures k in Keys(tree) <==> k in TreeEntries()
      ensures k in Keys(tree) <==> Early(k) in Contents(list.st)
    {
      hide SkipList.Mirrored, WellSized, Chained, Capped, Quiet, UniqueKeys, Contents, Seeds, Indexed, Ordered, Nodes,
           Keys;
      SeedsAt(Contents(list.st), k);
      list.NumbersAgree();
      if Early(k) in Contents(list.st) {
        var n := ContentsHolder(list.st, Early(k));
        HolderInTree(n, k);
      }
      if k in Keys(tree) {
        var n := KeyNode(tree, k);
        SeedFacts(n);
        ContentsAt(list.st, n);
      }
    }

    lemma HolderInTree(n: PidNode, k: int)
      requires Valid() && Holds(list.st, n, Early(k))
      ensures k in Keys(tree)
    {
      hide Inv, Quiet;
      assert Active(list.st, n) && n in SeedNodes(list.st);
      TreeKey(tree, n);
    }

    /**
     pid_rb_skiplist_insert, for any number.  A new number that draws the full height becomes a
     tree entry, once; everything else is an insertion among the ordinary entries, even if the
     number is a tree key.
     */
    method Insert(key: int, pid: Option<Pid>, draw: Draw, oom: bool) returns (ok: bool)
      requires Valid() && INT_MIN <= key <= INT_MAX
      modifies this`tree, this`inRbTree, list`level, list`st
      modifies (set n: PidNode | n in list.st.nodes.Keys :: n)`pid,
               set n: PidNode | n in list.st.nodes.Keys :: n.forward
      ensures Valid() && fresh(list.Repr() - old(list.Repr()))
      ensures ok == (key in old(Ordinaries()) || !oom)
      ensures Contents(list.st) == Inserted(old(Contents(list.st)), key, pid, draw, oom)
      ensures list.level == if key in old(Ordinaries()) then old(list.level) else Max(old(list.level), LevelOf(draw))
    {
      hide SkipList.Mirrored, WellSized, Chained, Capped, Quiet, UniqueKeys, Contents, Indexed, Ordered, Nodes, Keys;
      hide Extends, LevelOf, Ordinary, SkipList.Past, Late, Early, Inserted;
      ghost var s, m := list.st, Contents(list.st);
      OrdinaryAt(m, key);
      KeysAreSeeds(key);
      InsertedIs(m, key, pid, draw, oom);
      var added;
      ok, added := InsertIntoList(key, pid, draw, oom);
      IndexIfTop(s, added, draw, key);
    }

    /** The insertion up to the node's entry into the tree. */
    method InsertIntoList(key: int, pid: Option<Pid>, draw: Draw, oom: bool) returns (ok: bool, added: PidNode?)
      requires Valid() && INT_MIN <= key <= INT_MAX
      modifies list`level, list`st
      modifies (set n: PidNode | n in list.st.nodes.Keys :: n)`pid,
               set n: PidNode | n in list.st.nodes.Keys :: n.forward
      ensures list.Valid() && Ordered(tree) && Indexed(tree, old(list.st)) && inRbTree == Nodes(tree)
      ensures fresh(list.Repr() - old(list.Repr())) && old(list.st).header in old(list.st).nodes
      ensures ok == (Late(key) in old(Contents(list.st)) || !oom)
      ensures Contents(list.st) == if ok then old(Contents(list.st))[Late(key) := pid] else old(Contents(list.st))
      ensures list.level == if Late(key) in old(Contents(list.st)) then old(list.level) else Max(old(list.level), LevelOf(draw))
      ensures added != null <==> ok && Late(key) !in old(Contents(list.st))
      ensures Extends(old(list.st), list.st, Pointer(added))
              && (added != null ==> NewNode(old(list.st), added, key, draw) && added.pid == pid)
    {
      hide SkipList.Mirrored, WellSized, Chained, Capped, Quiet, UniqueKeys, Contents, Indexed, Ordered, Nodes, Keys;
      hide Extends, LevelOf, SkipList.Past, Late, Early;
      HeaderOutside();
      var start := InsertStart(key);
      ok, added := list.InsertFrom(start, key, pid, draw, oom);
    }

    /** A node that an insertion of `key` has just linked. */
    ghost predicate NewNode(s: Shape<PidNode>, x: PidNode, key: int, draw: Draw)
      reads list
    {
      && x !in s.nodes && x != list.header && x.key == key && x.level == LevelOf(draw)
      && Linked(list.st, x, 0) && list.st.nodes[x].key == Late(key)
    }

    /** A new node as tall as the list and its header is offered to the tree. */
    method IndexIfTop(ghost s: Shape<PidNode>, added: PidNode?, draw: Draw, key: int)
      requires list.Valid() && Ordered(tree) && Indexed(tree, s) && inRbTree == Nodes(tree) && s.header in s.nodes
               && INT_MIN <= key
      requires Extends(s, list.st, Pointer(added))
      requires added != null ==> NewNode(s, added, key, draw)
      modifies this`tree, this`inRbTree, list`st
      ensures Valid() && list.Repr() == old(list.Repr())
      ensures Contents(list.st) ==
                if added != null && draw == 0 && key !in old(Keys(tree)) then
                  (old(Contents(list.st)) - {Late(key)})[Early(key) := added.pid]
                else old(Contents(list.st))
    {
      hide SkipList.Mirrored, WellSized, Chained, Capped, Quiet, UniqueKeys, Contents, Indexed, Ordered, Nodes, Keys;
      hide Extends, LevelOf, SeedNodes, Top;
      list.LevelAgrees();
      HeightAgrees(added, draw);
      IndexedExtends(tree, s, list.st, Pointer(added));
      IndexedAfter(tree, s, list.st, Pointer(added));
      if added != null && added.level == list.level && added.level == list.header.level {
        IndexNode(added, key);
      }
    }

    /** rb_insert_node, on a new node of full height. */
    method IndexNode(x: PidNode, key: int)
      requires list.Valid() && Ordered(tree) && inRbTree == Nodes(tree) && x != list.header && Linked(list.st, x, 0)
      requires x.key == key && list.st.nodes[x].key == Late(key) && IndexedBut(tree, list.st, x) && INT_MIN <= key
      modifies this`tree, this`inRbTree, list`st
      ensures Valid() && list.Repr() == old(list.Repr())
      ensures Contents(list.st) ==
                if key !in old(Keys(tree)) then (old(Contents(list.st)) - {Late(key)})[Early(key) := x.pid]
                else old(Contents(list.st))
    {
      hide SkipList.Mirrored, WellSized, Chained, Capped, Quiet, UniqueKeys, Contents, Indexed, IndexedBut, Ordered;
      hide Nodes, Keys, SeedNodes, Top, CanRekey;
      ghost var t := tree;
      list.KeyAgrees(x);
      RbInsertNode(x);
      if key in Keys(t) {
        SameIndexed(t, tree, list.st, x);
      } else {
        list.NumbersAgree();
        Reseatable(t, list.st, x, key);
        RekeyInv(list.st, x, Early(key));
        RekeyContents(list.st, x, Early(key));
        IndexedRekeys(t, tree, list.st, x, key);
        list.Reseat(x, Early(key));
      }
    }

    /** The search of an insertion consults the tree only when the top level is in use. */
    method InsertStart(key: int) returns (start: PidNode)
      requires Valid() && INT_MIN <= key
      ensures Linked(list.st, start, list.level - 1) && list.Past(start, key)
    {
      hide Inv, Quiet, UniqueKeys, Contents, SkipList.Past;
      HeaderOutside();
      start := list.header;
      if list.level == list.header.level {
        start := FindLe(key);
        StartGood(start, key);
      } else {
        EmptyTree(key);
      }
    }

    /** Below the top level the tree is empty, and the header as good a start as any. */
    lemma EmptyTree(key: int)
      requires Valid() && INT_MIN <= key && list.level != PID_SL_MAX_LEVEL
      ensures Linked(list.st, list.header, list.level - 1) && list.Past(list.header, key)
    {
      if n: PidNode :| n in Nodes(tree) {
        SeedFacts(n);
      }
      HeaderIsStart(key);
    }

    lemma HeaderIsStart(key: int)
      requires Valid() && INT_MIN <= key && Nodes(tree) == {}
      ensures Linked(list.st, list.header, list.level - 1) && list.Past(list.header, key)
    {
      KeysAreSeeds(key);
    }

    lemma HeightAgrees(x: PidNode?, draw: Draw)
      requires list.Valid()
      requires x != null ==> Linked(list.st, x, 0) && x != list.header && x.level == LevelOf(draw)
      ensures x != null ==> (x.level == list.level && x.level == list.header.level <==> draw == 0)
      ensures x != null ==> (|list.st.nodes[x].fwd| == PID_SL_MAX_LEVEL <==> draw == 0)
    {
      LevelRange(draw);
      if x != null {
        assert Active(list.st, x);
      }
    }

    /** pid_rb_skiplist_lookup_rcu: a tree node is stepped past. */
    method Lookup(key: int) returns (pid: Option<Pid>)
      requires Valid() && INT_MIN <= key <= INT_MAX
      ensures pid == ValueAt(Ordinaries(), key)
    {
      hide SkipList.Mirrored, WellSized, Chained, Capped, Quiet, UniqueKeys, Contents, Indexed, Ordered, Nodes,
           Ordinary;
      hide SkipList.Past;
      HeaderOutside();
      OrdinaryAt(Contents(list.st), key);
      var start := FindLe(key);
      StartGood(start, key);
      pid := list.LookupFrom(start, key);
    }

    /** pid_rb_skiplist_remove: only an ordinary entry is ever found, and so removed. */
    method Remove(key: int)
      requires Valid() && INT_MIN <= key <= INT_MAX
      modifies list`level, list`st, set n: PidNode | n in list.st.nodes.Keys :: n.forward
      ensures Valid() && list.Repr() == old(list.Repr())
      ensures Contents(list.st) == old(Contents(list.st)) - {Late(key)}
    {
      hide SkipList.Mirrored, WellSized, Chained, Capped, Quiet, UniqueKeys, Contents, Indexed, Ordered, Nodes;
      hide SkipList.Past, SameBut;
      HeaderOutside();
      var start := FindLe(key);
      StartGood(start, key);
      ghost var s := list.st;
      var gone := list.RemoveFrom(start, key);
      list.NumbersAgree();
      if gone != null {
        IndexedShrinks(tree, s, list.st, gone);
        // a node of the tree would be erased there; it never is one
        assert gone !in inRbTree;
      }
    }

    /** pid_rb_skiplist_find_ge_rcu: the first entry from the ordinary one of the number on. */
    method FindGe(key: int) returns (pid: Option<Pid>)
      requires Valid() && INT_MIN <= key <= INT_MAX
      ensures IsFirstValue(Contents(list.st), Late(key), pid)
    {
      hide SkipList.Mirrored, WellSized, Chained, Capped, Quiet, UniqueKeys, Contents, Indexed, Ordered, Nodes,
           IsFirstValue;
      hide SkipList.Past;
      HeaderOutside();
      var start := FindLe(key);
      StartGood(start, key);
      pid := list.FindGeFrom(start, key);
    }

    /** pid_rb_skiplist_iter_next_rcu. */
    method IterNext(cursor: PidNode?, startKey: int) returns (next: PidNode?, pid: Option<Pid>)
      requires Valid() && INT_MIN <= startKey <= INT_MAX && list.IsEntry(cursor)
      ensures list.IsEntry(next) && (cursor != null ==> next != null)
      ensures var from := if cursor == null then Late(startKey) else list.st.nodes[cursor].key + 1;
              && IsFirstValue(Contents(list.st), from, pid)
              && IsLeastFrom(Contents(list.st), from, if next == cursor then None else Some(list.st.nodes[next].key))
              && pid == if next == cursor then None else ValueAt(Contents(list.st), list.st.nodes[next].key)
    {
      hide SkipList.Mirrored, WellSized, Chained, Capped, Quiet, UniqueKeys, Contents, Indexed, Ordered, Nodes;
      hide IsFirstValue, IsLeastFrom, SkipList.Past;
      HeaderOutside();
      var start := FindLe(startKey);
      StartGood(start, startKey);
      next, pid := list.IterNextFrom(start, cursor, startKey);
    }

    /**
     The loop of zap_pid_ns_processes over this list: the pids of the entries in the order of
     ranks, up to the first reserved one.
     */
    method Enumerate(startKey: int) returns (pids: seq<Pid>)
      requires Valid() && INT_MIN <= startKey <= INT_MAX
      ensures exists ranks :: Visits(Contents(list.st), Late(startKey), ranks, pids)
    {
      hide SkipList.Mirrored, WellSized, Chained, Capped, Quiet, UniqueKeys, Contents, Indexed, Ordered, Nodes;
      hide IsFirstValue;
      pids := [];
      ghost var ranks: seq<int> := [];
      var cursor, pid := IterNext(null, startKey);
      ghost var from := Late(startKey);
      while pid != None
        invariant list.IsEntry(cursor) && (pid != None ==> cursor != null)
        invariant VisitsBelow(Contents(list.st), Late(startKey), from, ranks, pids)
        invariant pid != None ==> IsLeastFrom(Contents(list.st), from, Some(list.st.nodes[cursor].key))
                                  && Contents(list.st)[list.st.nodes[cursor].key] == pid
        invariant pid == None ==> StopsAt(Contents(list.st), from)
        decreases KEY_MAX - from
      {
        KeyInRange(list.st, cursor);
        ghost var rank := list.st.nodes[cursor].key;
        VisitOne(Contents(list.st), Late(startKey), from, ranks, pids, rank, pid.value);
        pids, ranks := pids + [pid.value], ranks + [rank];
        from := rank + 1;
        var next;
        next, pid := IterNext(cursor, startKey);
        cursor := next;
      }
      VisitsAll(Contents(list.st), Late(startKey), from, ranks, pids);
    }

    /**
     A walk by numbers from the header stops before the first node not below the target, tree
     node or not: it is the search for the early rank.  The search seeded by the tree finds the
     very update[] array of that walk, if and only if its target is not a tree key.
     */
    lemma SeededSearch(start: PidNode, key: int)
      requires Valid() && INT_MIN <= key && IsGreatestLe(tree, list.header, key, start)
      ensures Linked(list.st, start, list.level - 1) && Pos(list.st, start) < Late(key)
      ensures Linked(list.st, list.header, list.level - 1) && Pos(list.st, list.header) < Early(key)
      ensures forall r :: Number(r) < key <==> r < Early(key)
      ensures key !in Keys(tree) <==>
              Descend(list.st, start, list.level - 1, Late(key)) == Descend(list.st, list.header, list.level - 1, Early(key))
    {
      hide SkipList.Mirrored, Quiet, UniqueKeys, Chained, Descend, Indexed, Ordered, IsPred;
      StartGood(start, key);
      HeaderOutside();
      LevelBounds(list.st);
      list.LevelAgrees();
      var i := list.level - 1;
      var a, b := Descend(list.st, start, i, Late(key)), Descend(list.st, list.header, i, Early(key));
      KeysAreSeeds(key);
      if key in Keys(tree) {
        SeedsDiffer(list.st, key, a[0], b[0]);
      } else {
        forall j | 0 <= j <= i
          ensures a[j] == b[j]
        {
          NoSeedBetween(list.st, key, j, a[j], b[j]);
        }
        assert a == b;
      }
    }

    /**
     What becomes of a new number whose reservation draws 0 and which is then published: the
     reservation stays in the tree for good, and a second node behind it is what later lookups
     find and what its removal takes out.
     */
    method ReserveAndPublish(key: int, p: Pid, draw: Draw) returns (reserved: Option<Pid>, published: Option<Pid>,
                             freed: Option<Pid>)
      requires Valid() && INT_MIN <= key <= INT_MAX && Early(key) !in Contents(list.st)
               && Late(key) !in Contents(list.st)
      modifies Repr()
      ensures Valid() && reserved == None && published == Some(p) && freed == None
      ensures Contents(list.st) == old(Contents(list.st))[Early(key) := None]
    {
      hide SkipList.Mirrored, WellSized, Chained, Capped, Quiet, UniqueKeys, Contents, Indexed, Ordered, Nodes,
           Ordinary;
      reserved := InsertAndLookup(key, None, 0);
      published := InsertAndLookup(key, Some(p), draw);
      freed := RemoveAndLookup(key);
    }

    method RemoveAndLookup(key: int) returns (found: Option<Pid>)
      requires Valid() && INT_MIN <= key <= INT_MAX
      modifies Repr()
      ensures Valid() && Contents(list.st) == old(Contents(list.st)) - {Late(key)}
      ensures found == ValueAt(Contents(list.st), Late(key))
    {
      hide SkipList.Mirrored, WellSized, Chained, Capped, Quiet, UniqueKeys, Contents, Indexed, Ordered, Nodes,
           Ordinary;
      Remove(key);
      OrdinaryAt(Contents(list.st), key);
      found := Lookup(key);
    }

    method InsertAndLookup(key: int, pid: Option<Pid>, draw: Draw) returns (found: Option<Pid>)
      requires Valid() && INT_MIN <= key <= INT_MAX
      modifies Repr()
      ensures Valid() && fresh(list.Repr() - old(list.Repr()))
      ensures Contents(list.st) == Inserted(old(Contents(list.st)), key, pid, draw, false)
      ensures found == ValueAt(Contents(list.st), Late(key))
    {
      hide SkipList.Mirrored, WellSized, Chained, Capped, Quiet, UniqueKeys, Contents, Indexed, Ordered, Nodes,
           Ordinary, Inserted;
      var ok := Insert(key, pid, draw, false);
      OrdinaryAt(Contents(list.st), key);
      found := Lookup(key);
    }
  }

  /** As indexed, but for x, which is of full height and may lack its number in the tree. */
  ghost predicate IndexedBut(t: Tree, s: Shape<PidNode>, x: PidNode) {
    && Nodes(t) == SeedNodes(s) && Nodes(t) <= Top(s) && x in Top(s)
    && forall n: PidNode | n in Top(s) && n != x :: n.key in Keys(t)
  }

  lemma IndexedAfter(t: Tree, s: Shape<PidNode>, u: Shape<PidNode>, x: Option<PidNode>)
    requires Indexed(t, s) && SeedNodes(u) == SeedNodes(s)
    requires Top(u) == Top(s) + if x.Some? && x.value in u.nodes
             && |u.nodes[x.value].fwd| == PID_SL_MAX_LEVEL then {x.value} else {}
    ensures if x.Some? && x.value in u.nodes
            && |u.nodes[x.value].fwd| == PID_SL_MAX_LEVEL then IndexedBut(t, u, x.value)
            else Indexed(t, u)
  {
  }

  lemma SameIndexed(t: Tree, u: Tree, s: Shape<PidNode>, x: PidNode)
    requires IndexedBut(t, s, x) && Nodes(u) == Nodes(t) && x.key in Keys(t)
    ensures Indexed(u, s)
  {
    assert Keys(u) == Keys(t);
  }

  /** Nothing stands at or between the two ranks of a number not in the tree but its new node. */
  lemma Reseatable(t: Tree, s: Shape<PidNode>, x: PidNode, key: int)
    requires IndexedBut(t, s, x) && UniqueKeys(s) && s.header in s.nodes && Least(s) == FIRST && key !in Keys(t)
    requires Linked(s, x, 0) && x != s.header && s.nodes[x].key == Late(key) && INT_MIN <= key
    requires forall n: PidNode | n in s.nodes :: n.key == Number(s.nodes[n].key)
    ensures CanRekey(s, x, Early(key))
  {
    assert Active(s, x);
    forall m | m in s.nodes && Active(s, m) && m != x
      ensures Pos(s, m) < Early(key) || Late(key) < Pos(s, m)
    {
      NotBetween(t, s, x, key, m);
    }
  }

  lemma NotBetween(t: Tree, s: Shape<PidNode>, x: PidNode, key: int, m: PidNode)
    requires IndexedBut(t, s, x) && UniqueKeys(s) && s.header in s.nodes && Least(s) == FIRST && key !in Keys(t)
    requires Active(s, x) && x != s.header && s.nodes[x].key == Late(key) && INT_MIN <= key
    requires forall n: PidNode | n in s.nodes :: n.key == Number(s.nodes[n].key)
    requires Active(s, m) && m != x
    ensures Pos(s, m) < Early(key) || Late(key) < Pos(s, m)
  {
    if m != s.header && s.nodes[m].key == Early(key) {
      SeedKey(t, s, x, m);
    }
  }

  lemma SeedKey(t: Tree, s: Shape<PidNode>, x: PidNode, m: PidNode)
    requires IndexedBut(t, s, x) && m in s.nodes && m != s.header && Active(s, m) && !IsLate(s.nodes[m].key)
    ensures m.key in Keys(t)
  {
    assert m in SeedNodes(s);
    TreeKey(t, m);
  }

  lemma SeedsDiffer(s: Shape<PidNode>, key: int, a: PidNode, b: PidNode)
    requires Inv(s) && Early(key) in Contents(s) && IsPred(s, Late(key), 0, a) && IsPred(s, Early(key), 0, b)
    ensures a != b
  {
    var m := ContentsHolder(s, Early(key));
    assert Linked(s, m, 0);
  }

  lemma NoSeedBetween(s: Shape<PidNode>, key: int, j: int, a: PidNode, b: PidNode)
    requires Inv(s) && Quiet(s) && Least(s) == FIRST && INT_MIN <= key
    requires Early(key) !in Contents(s) && IsPred(s, Late(key), j, a) && IsPred(s, Early(key), j, b)
    ensures a == b
  {
    assert Active(s, a) && Active(s, b);
    KeyAbsent(s, Early(key));
  }

  /** The same, as an insertion at the late rank and a change of rank. */
  lemma InsertedIs(m: Entries, key: int, pid: Option<Pid>, draw: Draw, oom: bool)
    ensures var ok := Late(key) in m || !oom; var c := if ok then m[Late(key) := pid] else m;
            Inserted(m, key, pid, draw, oom)
              == if ok && Late(key) !in m && draw == 0
                && Early(key) !in m then (c - {Late(key)})[Early(key) := pid] else c
  {
    if Late(key) !in m {
      assert m[Late(key) := pid] - {Late(key)} == m;
    }
  }

  /** What an insertion leaves, by rank. */
  ghost function Inserted(m: Entries, key: int, pid: Option<Pid>, draw: Draw, oom: bool): Entries {
    if Late(key) in m then m[Late(key) := pid]
    else if oom then m
    else if draw == 0 && Early(key) !in m then m[Early(key) := pid]
    else m[Late(key) := pid]
  }
}

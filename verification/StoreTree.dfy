/** The store as a tree: parents are stored, the redundant lists of children agree with the map of nodes, and ephemeral
    nodes are leaves. The list of the root is set apart, because a sequential node at the root is missing from it. */
module StoreTree {
  import opened Sequences
  import opened Decimal
  import opened Store

  /** The parent of a node is stored and lists it, unless it is the root, whose list need not be complete. */
  ghost predicate Listed(t: Tree, p: Path) {
    p != ROOT ==> Parent(p) in t.nodes && (|p| > 1 ==> Base(p) in t.nodes[Parent(p)].children)
  }

  /** The list of a node names stored children, each once; an ephemeral node has none. */
  ghost predicate Lists(t: Tree, p: Path)
    requires p in t.nodes
  {
    && Distinct(t.nodes[p].children)
    && (forall name :: name in t.nodes[p].children ==> p + [name] in t.nodes)
    && (t.nodes[p].ephemeral ==> t.nodes[p].children == [])
  }

  ghost predicate TreeOk(t: Tree) {
    && ROOT in t.nodes && !t.nodes[ROOT].ephemeral
    && (forall p :: p in t.nodes ==> Listed(t, p))
    && (forall p :: p in t.nodes ==> Lists(t, p))
  }

  /** The list of the root is complete as well. */
  ghost predicate RootListed(t: Tree) {
    ROOT in t.nodes && forall p :: p in t.nodes && |p| == 1 ==> Base(p) in t.nodes[ROOT].children
  }

  /** The names of the stored nodes whose parent is `p`. */
  ghost function ChildNames(t: Tree, p: Path): set<string> {
    set q | q in t.nodes && q != ROOT && Parent(q) == p :: Base(q)
  }

  lemma Rejoin(p: Path)
    requires p != ROOT
    ensures Parent(p) + [Base(p)] == p
  {
  }

  lemma Split(p: Path, name: string)
    ensures p + [name] != ROOT && Parent(p + [name]) == p && Base(p + [name]) == name
  {
  }

  /** The list of children is the set of names of the stored children, no more and no less. */
  lemma ChildrenAgree(t: Tree, p: Path)
    requires TreeOk(t) && p in t.nodes && (p == ROOT ==> RootListed(t))
    ensures Distinct(t.nodes[p].children)
    ensures forall name :: name in t.nodes[p].children <==> name in ChildNames(t, p)
  {
    assert Lists(t, p);
    forall name | name in t.nodes[p].children ensures name in ChildNames(t, p) {
      Split(p, name);
      assert p + [name] in t.nodes;
    }
    forall name | name in ChildNames(t, p) ensures name in t.nodes[p].children {
      var q :| q in t.nodes && q != ROOT && Parent(q) == p && Base(q) == name;
      assert Listed(t, q);
    }
  }

  /** An ephemeral node is a leaf: no stored node has it for a parent. */
  lemma EphemeralsAreLeaves(t: Tree, p: Path)
    requires TreeOk(t) && p in t.nodes && p != ROOT
    ensures Parent(p) in t.nodes && !t.nodes[Parent(p)].ephemeral
  {
    assert Listed(t, p) && Lists(t, Parent(p));
  }

  lemma DistinctSnoc(s: seq<string>, x: string)
    requires Distinct(s) && x !in s
    ensures Distinct(s + [x])
  {
  }

  /** The nodes with a leaf added and listed. */
  ghost function Linked(t: Tree, q: Path, node: Node): map<Path, Node>
    requires q != ROOT && Parent(q) in t.nodes
  {
    t.nodes[q := node][Parent(q) := t.nodes[Parent(q)].(children := t.nodes[Parent(q)].children + [Base(q)])]
  }

  lemma LinkKeepsLists(t: Tree, u: Tree, q: Path, node: Node, p: Path)
    requires TreeOk(t) && q != ROOT && q !in t.nodes && Parent(q) in t.nodes && !t.nodes[Parent(q)].ephemeral
    requires node.children == [] && u.nodes == Linked(t, q, node) && p in u.nodes
    ensures Lists(u, p)
  {
    Rejoin(q);
    if p == Parent(q) {
      assert Lists(t, p) && Base(q) !in t.nodes[p].children;
      DistinctSnoc(t.nodes[p].children, Base(q));
    } else {
      assert p == q || Lists(t, p);
    }
  }

  /** Adding a leaf and listing it keeps the tree. */
  lemma LinkKeepsTree(t: Tree, u: Tree, q: Path, node: Node)
    requires TreeOk(t) && q != ROOT && q !in t.nodes && Parent(q) in t.nodes && !t.nodes[Parent(q)].ephemeral
    requires node.children == [] && u.nodes == Linked(t, q, node)
    ensures TreeOk(u)
  {
    hide Lists;
    forall p | p in u.nodes ensures Listed(u, p) {
      assert p == q || Listed(t, p);
    }
    forall p | p in u.nodes ensures Lists(u, p) {
      LinkKeepsLists(t, u, q, node, p);
    }
  }

  /** What is left of the node at `q` when the leaf `p` has been taken out. */
  lemma UnlinkedNode(t: Tree, p: Path, q: Path)
    requires TreeOk(t) && p != ROOT && p in t.nodes
    ensures Unlinked(t, p).nodes.Keys == t.nodes.Keys - {p}
    ensures q in t.nodes && q != p ==>
              && (q != Parent(p) ==> Unlinked(t, p).nodes[q] == t.nodes[q])
              && (q == Parent(p) ==>
                    Unlinked(t, p).nodes[q] == t.nodes[q].(children := Removed(t.nodes[q].children, Base(p))))
  {
    hide TreeOk, Removed;
    TreeListed(t, p);
  }

  lemma TreeListed(t: Tree, p: Path)
    requires TreeOk(t) && p in t.nodes
    ensures Listed(t, p) && Lists(t, p)
  {
  }

  lemma UnlinkKeepsListed(t: Tree, p: Path, q: Path)
    requires TreeOk(t) && p != ROOT && p in t.nodes && t.nodes[p].children == []
    requires q in t.nodes && q != p
    ensures Listed(Unlinked(t, p), q)
  {
    hide Unlinked;
    assert Listed(t, q);
    if q != ROOT {
      UnlinkedNode(t, p, Parent(q));
      assert Lists(t, Parent(q));
      RemovedDistinct(t.nodes[Parent(q)].children, Base(p));
      Rejoin(p);
      Rejoin(q);
    }
  }

  lemma UnlinkKeepsLists(t: Tree, p: Path, q: Path)
    requires TreeOk(t) && p != ROOT && p in t.nodes && t.nodes[p].children == []
    requires q in t.nodes && q != p
    ensures q in Unlinked(t, p).nodes && Lists(Unlinked(t, p), q)
  {
    hide Unlinked, TreeOk;
    UnlinkedNode(t, p, q);
    TreeListed(t, q);
    RemovedDistinct(t.nodes[q].children, Base(p));
    var u := Unlinked(t, p);
    forall name | name in u.nodes[q].children ensures q + [name] in u.nodes {
      Split(q, name);
      Rejoin(p);
    }
  }

  /** Taking out a leaf and its name keeps the tree. */
  lemma UnlinkKeepsTree(t: Tree, p: Path)
    requires TreeOk(t) && p != ROOT && p in t.nodes && t.nodes[p].children == []
    ensures TreeOk(Unlinked(t, p))
  {
    hide Unlinked;
    UnlinkedNode(t, p, ROOT);
    forall q | q in Unlinked(t, p).nodes ensures Listed(Unlinked(t, p), q) && Lists(Unlinked(t, p), q) {
      UnlinkKeepsListed(t, p, q);
      UnlinkKeepsLists(t, p, q);
    }
  }

  /** Adding a leaf at the root without listing it keeps the tree. */
  lemma RootLeafKeepsTree(t: Tree, u: Tree, q: Path, node: Node)
    requires TreeOk(t) && |q| == 1 && q !in t.nodes && node.children == [] && u.nodes == t.nodes[q := node]
    ensures TreeOk(u)
  {
    assert Parent(q) == ROOT;
    forall p | p in u.nodes ensures Listed(u, p) && Lists(u, p) {
      assert p == q || (Listed(t, p) && Lists(t, p));
    }
  }

  lemma CreateKeepsTree(t: Tree, p: Path, data: string, ephemeral: bool, session: string, sequential: bool)
    requires TreeOk(t)
    ensures TreeOk(Created(t, p, data, ephemeral, session, sequential).0)
  {
    hide TreeOk;
    var (u, r) := Created(t, p, data, ephemeral, session, sequential);
    if r.Err? {
      SameNodesKeepTree(t, u);
    } else if p == ROOT {
      assert ROOT in t.nodes by {
        TreeHasRoot(t);
      }
      RootLeafKeepsTree(t, u, r.value, u.nodes[r.value]);
    } else {
      CreatedShape(t, p, data, ephemeral, session, sequential);
      LinkKeepsTree(t, u, r.value, u.nodes[r.value]);
    }
  }

  lemma TreeHasRoot(t: Tree)
    requires TreeOk(t)
    ensures ROOT in t.nodes && !t.nodes[ROOT].ephemeral
  {
  }

  /** A complete list of the root stays complete exactly when the node created is not a sequential one at the root that
      is new: such a node is stored but never listed. */
  lemma CreateKeepsRootIff(t: Tree, p: Path, data: string, ephemeral: bool, session: string, sequential: bool)
    requires TreeOk(t) && RootListed(t)
    ensures RootListed(Created(t, p, data, ephemeral, session, sequential).0) <==>
            !(p == ROOT && sequential && ActualPath(t, p, sequential) !in t.nodes)
  {
    hide Format;
    var (u, r) := Created(t, p, data, ephemeral, session, sequential);
    if r.Ok? && p == ROOT {
      var q := r.value;
      assert Lists(t, ROOT) && ROOT + [Base(q)] == q && |q| == 1;
      assert q in u.nodes && Base(q) !in u.nodes[ROOT].children;
    } else if r.Ok? {
      CreatedShape(t, p, data, ephemeral, session, sequential);
      RootListedLink(t, u, r.value, u.nodes[r.value]);
    }
  }

  lemma RootListedLink(t: Tree, u: Tree, q: Path, node: Node)
    requires RootListed(t) && q != ROOT && q !in t.nodes && Parent(q) in t.nodes && u.nodes == Linked(t, q, node)
    ensures RootListed(u)
  {
  }

  lemma SameNodesKeepTree(t: Tree, u: Tree)
    requires TreeOk(t) && u.nodes == t.nodes
    ensures TreeOk(u)
  {
    forall p | p in u.nodes ensures Listed(u, p) && Lists(u, p) {
      assert Listed(t, p) && Lists(t, p);
    }
  }

  lemma UpdateKeepsTree(t: Tree, p: Path, data: string, expected: int)
    requires TreeOk(t)
    ensures TreeOk(Updated(t, p, data, expected).0)
  {
    var u := Updated(t, p, data, expected).0;
    forall q | q in u.nodes ensures Listed(u, q) && Lists(u, q) {
      assert Listed(t, q) && Lists(t, q);
    }
  }

  lemma UpdateKeepsRoot(t: Tree, p: Path, data: string, expected: int)
    requires RootListed(t)
    ensures RootListed(Updated(t, p, data, expected).0)
  {
  }

  lemma DeleteKeepsTree(t: Tree, p: Path, expected: int)
    requires TreeOk(t)
    ensures TreeOk(Deleted(t, p, expected).0)
  {
    if Deleted(t, p, expected).1.Ok? {
      UnlinkKeepsTree(t, p);
    }
  }

  lemma DeleteKeepsRoot(t: Tree, p: Path, expected: int)
    requires TreeOk(t) && RootListed(t)
    ensures RootListed(Deleted(t, p, expected).0)
  {
    hide Unlinked, TreeOk, Removed;
    if Deleted(t, p, expected).1.Ok? {
      var u := Unlinked(t, p);
      UnlinkedNode(t, p, ROOT);
      TreeHasRoot(t);
      TreeListed(t, ROOT);
      RemovedDistinct(t.nodes[ROOT].children, Base(p));
      forall q | q in u.nodes && |q| == 1 ensures Base(q) in u.nodes[ROOT].children {
        Rejoin(p);
        Rejoin(q);
        assert Parent(q) == ROOT;
      }
    }
  }

  lemma UnlinkUndoesLink(t: Tree, u: Tree, q: Path, node: Node)
    requires q != ROOT && q !in t.nodes && Parent(q) in t.nodes && Base(q) !in t.nodes[Parent(q)].children
    requires u.nodes == Linked(t, q, node)
    ensures Unlinked(u, q).nodes == t.nodes
  {
    hide Removed;
    var parent := Parent(q);
    RemovedLast(t.nodes[parent].children, Base(q));
    assert t.nodes[parent].(children := t.nodes[parent].children) == t.nodes[parent];
    forall p | p in t.nodes ensures p in Unlinked(u, q).nodes && Unlinked(u, q).nodes[p] == t.nodes[p] {
    }
  }

  /** Deleting a node that has just been created restores the store, all but the counter, whether the deletion names no
      version or the version 1 of a new node. */
  lemma DeleteUndoesCreate(t: Tree, p: Path, data: string, ephemeral: bool, session: string, sequential: bool,
                           expected: int)
    requires TreeOk(t) && p != ROOT && Created(t, p, data, ephemeral, session, sequential).1.Ok?
             && (expected < 0 || expected == 1)
    ensures var (u, r) := Created(t, p, data, ephemeral, session, sequential);
            var (v, deleted) := Deleted(u, r.value, expected);
            deleted == Ok(r.value) && v == Tree(t.nodes, u.counter)
  {
    hide TreeOk, Unlinked;
    var (u, r) := Created(t, p, data, ephemeral, session, sequential);
    var q := r.value;
    CreatedShape(t, p, data, ephemeral, session, sequential);
    hide Created;
    Rejoin(q);
    TreeListed(t, Parent(q));
    UnlinkUndoesLink(t, u, q, u.nodes[q]);
    UnlinkCounts(u, q);
  }

  lemma UnlinkCounts(t: Tree, p: Path)
    requires p != ROOT
    ensures Unlinked(t, p).counter == t.counter
  {
  }

  /** What a successful create below the root makes of the nodes. */
  lemma CreatedShape(t: Tree, p: Path, data: string, ephemeral: bool, session: string, sequential: bool)
    requires p != ROOT && Created(t, p, data, ephemeral, session, sequential).1.Ok?
    ensures var (u, r) := Created(t, p, data, ephemeral, session, sequential);
            var q := r.value;
            && q == ActualPath(t, p, sequential) && q != ROOT && q !in t.nodes
            && Parent(q) == Parent(p) && Parent(p) in t.nodes && !t.nodes[Parent(p)].ephemeral
            && q in u.nodes && u.nodes[q].version == 1 && u.nodes[q].children == []
            && u.nodes == Linked(t, q, u.nodes[q])
  {
    hide Format;
    var q := ActualPath(t, p, sequential);
    assert Parent(q) == Parent(p) && |Parent(q)| < |q|;
  }

  // Cleaning up after a session.

  /** The list without the names of doomed children. */
  ghost function Kept(s: seq<string>, p: Path, doomed: set<Path>): seq<string> {
    if s == [] then [] else if p + [s[0]] in doomed then Kept(s[1..], p, doomed) else [s[0]] + Kept(s[1..], p, doomed)
  }

  /** The tree without the doomed nodes, every list of children thinned out in place. */
  ghost function Without(t: Tree, doomed: set<Path>): Tree {
    t.(nodes := map p | p in t.nodes && p !in doomed :: t.nodes[p].(children := Kept(t.nodes[p].children, p, doomed)))
  }

  lemma {:induction false} KeptNothing(s: seq<string>, p: Path)
    ensures Kept(s, p, {}) == s
  {
    if s != [] {
      KeptNothing(s[1..], p);
    }
  }

  lemma {:induction false} KeptSubset(s: seq<string>, p: Path, doomed: set<Path>)
    ensures forall y :: y in Kept(s, p, doomed) ==> y in s
  {
    if s != [] {
      KeptSubset(s[1..], p, doomed);
    }
  }

  /** Dooming one more node takes its name out of its parent's list, and touches no other list. */
  lemma {:induction false} KeptOneMore(s: seq<string>, p: Path, doomed: set<Path>, q: Path)
    requires Distinct(s) && q != ROOT
    ensures Kept(s, p, doomed + {q}) ==
            if Parent(q) == p then Removed(Kept(s, p, doomed), Base(q)) else Kept(s, p, doomed)
  {
    if s != [] {
      var first, rest := s[0], s[1..];
      assert s == [first] + rest;
      KeptOneMore(rest, p, doomed, q);
      Split(p, first);
      Rejoin(q);
      var kept := Kept(rest, p, doomed);
      assert ([first] + kept)[1..] == kept;
      if p + [first] == q && q !in doomed {
        assert first !in rest;
        KeptSubset(rest, p, doomed);
        RemovedNowhere(kept, first);
      } else if p + [first] !in doomed {
        assert Kept(s, p, doomed + {q}) == [first] + Kept(rest, p, doomed + {q});
      }
    }
  }

  lemma WithoutNothing(t: Tree)
    ensures Without(t, {}) == t
  {
    forall p | p in t.nodes ensures Kept(t.nodes[p].children, p, {}) == t.nodes[p].children {
      KeptNothing(t.nodes[p].children, p);
    }
  }

  lemma UnlinkedNodeIsWithout(t: Tree, gone: set<Path>, q: Path, p: Path)
    requires TreeOk(t) && q != ROOT && p in t.nodes && p !in gone && p != q
    ensures p in Unlinked(Without(t, gone), q).nodes
    ensures Unlinked(Without(t, gone), q).nodes[p] == t.nodes[p].(children := Kept(t.nodes[p].children, p, gone + {q}))
  {
    hide Kept, Removed;
    assert Lists(t, p);
    KeptOneMore(t.nodes[p].children, p, gone, q);
  }

  lemma UnlinkedIsWithout(t: Tree, gone: set<Path>, q: Path)
    requires TreeOk(t) && q != ROOT
    ensures Unlinked(Without(t, gone), q) == Without(t, gone + {q})
  {
    hide Kept, Removed, TreeOk;
    var u, v := Unlinked(Without(t, gone), q), Without(t, gone + {q});
    forall p | p in v.nodes ensures p in u.nodes && u.nodes[p] == v.nodes[p] {
      UnlinkedNodeIsWithout(t, gone, q, p);
    }
    assert u.nodes.Keys == v.nodes.Keys;
  }

  function PathSet(paths: seq<Path>): set<Path> {
    set p | p in paths
  }

  /** The order in which nodes are taken out does not matter. */
  lemma {:induction false} PurgedIsWithout(t: Tree, doomed: seq<Path>)
    requires TreeOk(t) && ROOT !in doomed
    ensures Purged(t, doomed) == Without(t, PathSet(doomed))
  {
    hide Without, Unlinked;
    if doomed == [] {
      assert PathSet(doomed) == {};
      WithoutNothing(t);
    } else {
      var front, last := doomed[..|doomed| - 1], doomed[|doomed| - 1];
      PurgedIsWithout(t, front);
      assert doomed == front + [last];
      assert PathSet(doomed) == PathSet(front) + {last};
      UnlinkedIsWithout(t, PathSet(front), last);
    }
  }

  lemma {:induction false} KeptExact(s: seq<string>, p: Path, doomed: set<Path>)
    requires Distinct(s)
    ensures Distinct(Kept(s, p, doomed))
    ensures forall y :: y in Kept(s, p, doomed) <==> y in s && p + [y] !in doomed
  {
    if s != [] {
      assert s == [s[0]] + s[1..];
      assert s[0] !in s[1..];
      KeptExact(s[1..], p, doomed);
    }
  }

  lemma WithoutKeepsListed(t: Tree, doomed: set<Path>, p: Path)
    requires TreeOk(t) && p in t.nodes && p !in doomed && ROOT !in doomed
    requires forall q :: q in doomed ==> q in t.nodes && t.nodes[q].children == []
    ensures Listed(Without(t, doomed), p)
  {
    hide Kept;
    assert Listed(t, p);
    if p != ROOT {
      assert Lists(t, Parent(p));
      KeptExact(t.nodes[Parent(p)].children, Parent(p), doomed);
      Rejoin(p);
    }
  }

  lemma WithoutKeepsLists(t: Tree, doomed: set<Path>, p: Path)
    requires TreeOk(t) && p in t.nodes && p !in doomed
    ensures p in Without(t, doomed).nodes && Lists(Without(t, doomed), p)
  {
    assert Lists(t, p);
    KeptExact(t.nodes[p].children, p, doomed);
  }

  /** The doomed nodes being leaves, the rest is a tree. */
  lemma WithoutLeavesKeepsTree(t: Tree, doomed: set<Path>)
    requires TreeOk(t) && ROOT !in doomed
    requires forall p :: p in doomed ==> p in t.nodes && t.nodes[p].children == []
    ensures TreeOk(Without(t, doomed))
  {
    hide Kept, Listed, Lists;
    var u := Without(t, doomed);
    forall p | p in u.nodes ensures Listed(u, p) && Lists(u, p) {
      WithoutKeepsListed(t, doomed, p);
      WithoutKeepsLists(t, doomed, p);
    }
  }

  lemma WithoutKeepsRoot(t: Tree, doomed: set<Path>)
    requires TreeOk(t) && RootListed(t) && ROOT !in doomed
    ensures RootListed(Without(t, doomed))
  {
    hide Kept;
    var u := Without(t, doomed);
    assert Lists(t, ROOT);
    KeptExact(t.nodes[ROOT].children, ROOT, doomed);
    forall p | p in u.nodes && |p| == 1 ensures Base(p) in u.nodes[ROOT].children {
      Rejoin(p);
      assert Parent(p) == ROOT;
    }
  }

  /** Cleanup after a session removes exactly the ephemeral nodes of that session, in whatever order, keeps all others
      up to their lists of children, and keeps the tree although it never looks at the children of what it removes. */
  lemma CleanupIsExact(t: Tree, session: string, deleted: seq<Path>)
    requires TreeOk(t) && multiset(deleted) == multiset(EphemeralsOf(t, session))
    ensures ROOT !in deleted
    ensures Purged(t, deleted) == Without(t, EphemeralsOf(t, session)) && TreeOk(Purged(t, deleted))
  {
    var doomed := EphemeralsOf(t, session);
    forall p ensures p in deleted <==> p in doomed {
      assert p in deleted <==> p in multiset(deleted);
    }
    assert PathSet(deleted) == doomed;
    PurgedIsWithout(t, deleted);
    forall p | p in doomed ensures t.nodes[p].children == [] {
      assert Lists(t, p);
    }
    WithoutLeavesKeepsTree(t, doomed);
  }
}

/** Runs of a store: every sequence of its operations, each taking the lock for its whole length. */
module StoreHistory {
  import opened Sequences
  import opened Store
  import opened StoreTree

  datatype Op =
    | Create(path: Path, data: string, ephemeral: bool, session: string, sequential: bool)
    | Set(path: Path, data: string, expected: int)
    | Delete(path: Path, expected: int)
    | Cleanup(session: string)

  /** A sequential node at the root escapes the lists of children. */
  predicate Proper(op: Op) {
    !(op.Create? && op.path == ROOT && op.sequential)
  }

  ghost function Next(t: Tree, op: Op): Tree {
    match op
    case Create(p, data, ephemeral, session, sequential) => Created(t, p, data, ephemeral, session, sequential).0
    case Set(p, data, expected) => Updated(t, p, data, expected).0
    case Delete(p, expected) => Deleted(t, p, expected).0
    case Cleanup(session) => Without(t, EphemeralsOf(t, session))
  }

  ghost function Run(ops: seq<Op>): Tree {
    if ops == [] then EMPTY else Next(Run(ops[..|ops| - 1]), ops[|ops| - 1])
  }

  lemma EmptyIsTree()
    ensures TreeOk(EMPTY)
  {
  }

  lemma NextKeepsTree(t: Tree, op: Op)
    requires TreeOk(t)
    ensures TreeOk(Next(t, op))
  {
    match op
    case Create(p, data, ephemeral, session, sequential) =>
      CreateKeepsTree(t, p, data, ephemeral, session, sequential);
    case Set(p, data, expected) => UpdateKeepsTree(t, p, data, expected);
    case Delete(p, expected) => DeleteKeepsTree(t, p, expected);
    case Cleanup(session) =>
      forall p | p in EphemeralsOf(t, session) ensures t.nodes[p].children == [] {
        assert Lists(t, p);
      }
      WithoutLeavesKeepsTree(t, EphemeralsOf(t, session));
  }

  /** In every run whatsoever the nodes form a tree. */
  lemma {:induction false} TreeInEveryRun(ops: seq<Op>)
    ensures TreeOk(Run(ops))
  {
    if ops == [] {
      EmptyIsTree();
    } else {
      TreeInEveryRun(ops[..|ops| - 1]);
      NextKeepsTree(Run(ops[..|ops| - 1]), ops[|ops| - 1]);
    }
  }

  /** In every run whatsoever the parent of a stored node is stored, which deletion relies on, and is not ephemeral; and
      below the root the list of children of a node names exactly its stored children. */
  lemma ParentsInEveryRun(ops: seq<Op>, p: Path)
    requires p in Run(ops).nodes && p != ROOT
    ensures var t := Run(ops);
            && Parent(p) in t.nodes && !t.nodes[Parent(p)].ephemeral
            && Distinct(t.nodes[p].children)
            && forall name :: name in t.nodes[p].children <==> name in ChildNames(t, p)
  {
    hide TreeOk, Run;
    TreeInEveryRun(ops);
    EphemeralsAreLeaves(Run(ops), p);
    ChildrenAgree(Run(ops), p);
  }

  lemma NextKeepsRoot(t: Tree, op: Op)
    requires TreeOk(t) && RootListed(t) && Proper(op)
    ensures RootListed(Next(t, op))
  {
    hide TreeOk, RootListed, Created, Deleted, Updated, Without;
    match op
    case Create(p, data, ephemeral, session, sequential) =>
      CreateKeepsRootIff(t, p, data, ephemeral, session, sequential);
    case Set(p, data, expected) => UpdateKeepsRoot(t, p, data, expected);
    case Delete(p, expected) => DeleteKeepsRoot(t, p, expected);
    case Cleanup(session) =>
      TreeHasRoot(t);
      WithoutKeepsRoot(t, EphemeralsOf(t, session));
  }

  /** In every run without sequential creates at the root, the list of the root is complete too. */
  lemma {:induction false} RootListedInEveryRun(ops: seq<Op>)
    requires forall op :: op in ops ==> Proper(op)
    ensures RootListed(Run(ops))
  {
    if ops != [] {
      RootListedInEveryRun(ops[..|ops| - 1]);
      TreeInEveryRun(ops[..|ops| - 1]);
      NextKeepsRoot(Run(ops[..|ops| - 1]), ops[|ops| - 1]);
    }
  }

  /** A sequential node at the root, as the first operation, is missing from its list. */
  lemma RootSequentialIsNotListed()
    ensures !RootListed(Run([Create(ROOT, "", false, "", true)]))
  {
    var op := Create(ROOT, "", false, "", true);
    assert [op][..0] == [] && Run([op]) == Next(EMPTY, op);
    EmptyIsTree();
    assert |ActualPath(EMPTY, ROOT, true)| == 1;
    CreateKeepsRootIff(EMPTY, ROOT, "", false, "", true);
  }

  // Versions.

  ghost predicate Sets(t: Tree, op: Op, p: Path) {
    op.Set? && op.path == p && Updated(t, p, op.data, op.expected).1.Ok?
  }

  ghost predicate Makes(t: Tree, op: Op, p: Path) {
    op.Create? && Created(t, op.path, op.data, op.ephemeral, op.session, op.sequential).1 == Ok(p)
  }

  /** Successful updates of `p` since it was last created. */
  ghost function SetCount(ops: seq<Op>, p: Path): nat {
    if ops == [] then 0 else
      var front, op := ops[..|ops| - 1], ops[|ops| - 1];
      if Makes(Run(front), op, p) then 0
      else if Sets(Run(front), op, p) then SetCount(front, p) + 1
      else SetCount(front, p)
  }

  /** What one operation does to the version of a node. */
  lemma VersionStep(t: Tree, op: Op, p: Path)
    requires p in Next(t, op).nodes
    ensures Makes(t, op, p) <==> p !in t.nodes
    ensures Next(t, op).nodes[p].version ==
            if p !in t.nodes then 1 else if Sets(t, op, p) then t.nodes[p].version + 1 else t.nodes[p].version
  {
    if op.Create? {
      var (u, r) := Created(t, op.path, op.data, op.ephemeral, op.session, op.sequential);
    }
  }

  /** The version of a node counts its updates: from 1 for a node that was created, from 0 for the root. */
  lemma {:induction false} VersionCountsUpdates(ops: seq<Op>, p: Path)
    requires p in Run(ops).nodes
    ensures Run(ops).nodes[p].version == SetCount(ops, p) + (if p == ROOT then 0 else 1)
  {
    RootStays(ops);
    if ops != [] {
      var front, op := ops[..|ops| - 1], ops[|ops| - 1];
      VersionStep(Run(front), op, p);
      RootStays(front);
      if p in Run(front).nodes {
        VersionCountsUpdates(front, p);
      }
    }
  }

  // Contents.

  /** A successful update returns the node as it is stored now: the new data, the next version, and the rest as it was.
      It succeeds exactly when the node is there and the version named is its own or negative; otherwise nothing
      changes. */
  lemma SetStores(t: Tree, p: Path, data: string, expected: int)
    ensures var (u, r) := Updated(t, p, data, expected);
            && (r.Ok? <==> p in t.nodes && (expected < 0 || expected == t.nodes[p].version))
            && (r.Ok? ==>
                  && u == t.(nodes := t.nodes[p := r.value])
                  && r.value == t.nodes[p].(data := data, version := t.nodes[p].version + 1))
            && (r.Err? ==> u == t)
  {
  }

  /** What was last written to `p`, by its creation or by an update since. */
  ghost function LastWritten(ops: seq<Op>, p: Path): string {
    if ops == [] then "" else
      var front, op := ops[..|ops| - 1], ops[|ops| - 1];
      if Makes(Run(front), op, p) || Sets(Run(front), op, p) then op.data else LastWritten(front, p)
  }

  lemma DataStep(t: Tree, op: Op, p: Path)
    requires p in Next(t, op).nodes
    ensures Next(t, op).nodes[p].data == if Makes(t, op, p) || Sets(t, op, p) then op.data else t.nodes[p].data
  {
    VersionStep(t, op, p);
  }

  /** In every run a node holds what was last written to it, and the root nothing until it is written to. */
  lemma {:induction false} DataIsLastWritten(ops: seq<Op>, p: Path)
    requires p in Run(ops).nodes
    ensures Run(ops).nodes[p].data == LastWritten(ops, p)
  {
    hide Next, Makes, Sets;
    if ops != [] {
      var front, op := ops[..|ops| - 1], ops[|ops| - 1];
      VersionStep(Run(front), op, p);
      DataStep(Run(front), op, p);
      if p in Run(front).nodes {
        DataIsLastWritten(front, p);
      }
    }
  }

  /** The node is of the kind, and belongs to the session, that its creation asked for. */
  ghost predicate MadeBy(node: Node, op: Op) {
    op.Create? && node.ephemeral == op.ephemeral && node.session == op.session && node.sequential == op.sequential
  }

  lemma KindStep(t: Tree, op: Op, p: Path)
    requires p in Next(t, op).nodes
    ensures var node := Next(t, op).nodes[p];
            if Makes(t, op, p) then MadeBy(node, op)
            else && p in t.nodes && node.ephemeral == t.nodes[p].ephemeral
                 && node.session == t.nodes[p].session && node.sequential == t.nodes[p].sequential
  {
    VersionStep(t, op, p);
  }

  /** In every run each node but the root was made by one of the operations, and is still as that operation asked. */
  lemma {:induction false} KindIsAsCreated(ops: seq<Op>, p: Path) returns (i: nat)
    requires p in Run(ops).nodes && p != ROOT
    ensures i < |ops| && Makes(Run(ops[..i]), ops[i], p) && MadeBy(Run(ops).nodes[p], ops[i])
    ensures forall k :: i < k <= |ops| ==> p in Run(ops[..k]).nodes
  {
    hide Next, Makes;
    var front, op := ops[..|ops| - 1], ops[|ops| - 1];
    assert ops[..|ops|] == ops;
    KindStep(Run(front), op, p);
    if Makes(Run(front), op, p) {
      i := |ops| - 1;
    } else {
      i := KindIsAsCreated(front, p);
      assert forall k :: 0 <= k <= |front| ==> front[..k] == ops[..k];
    }
  }

  // Answers.

  /** The version of a node in a run: its updates since creation, counted from 1 except for the root. */
  ghost function VersionIn(ops: seq<Op>, p: Path): nat {
    SetCount(ops, p) + (if p == ROOT then 0 else 1)
  }

  ghost predicate HasChild(t: Tree, p: Path) {
    exists name :: p + [name] in t.nodes
  }

  lemma ListedIffChild(t: Tree, p: Path)
    requires TreeOk(t) && p in t.nodes && p != ROOT
    ensures t.nodes[p].children != [] <==> HasChild(t, p)
  {
    ChildrenAgree(t, p);
    assert Lists(t, p);
    assert t.nodes[p].children != [] ==> p + [t.nodes[p].children[0]] in t.nodes;
    if HasChild(t, p) {
      var name :| p + [name] in t.nodes;
      Split(p, name);
      assert name in ChildNames(t, p);
    }
  }

  /** In every run, what a create answers. A failing one changes no node; the counter moves with every sequential create
      for which there is a proper parent. */
  lemma CreateAnswers(ops: seq<Op>, p: Path, data: string, ephemeral: bool, session: string, sequential: bool)
    ensures var t := Run(ops);
            var (u, r) := Created(t, p, data, ephemeral, session, sequential);
            var q := ActualPath(t, p, sequential);
            && (r == Err(NodeNotFound) <==> p != ROOT && Parent(p) !in t.nodes)
            && (r == Err(UnderEphemeral) <==> p != ROOT && Parent(p) in t.nodes && t.nodes[Parent(p)].ephemeral)
            && (r == Err(NodeExists) <==> q in t.nodes && r !in {Err(NodeNotFound), Err(UnderEphemeral)})
            && (r.Ok? <==> u.nodes != t.nodes) && (r.Ok? ==> r.value == q && u.nodes.Keys == t.nodes.Keys + {q})
            && u.counter == t.counter + (if sequential && (r.Ok? || r == Err(NodeExists)) then 1 else 0)
  {
    hide Run;
    var t := Run(ops);
    var (u, r) := Created(t, p, data, ephemeral, session, sequential);
    if r.Ok? {
      assert r.value in u.nodes && r.value !in t.nodes;
    }
  }

  /** In every run, what an update answers: the node as it is stored now, with the new data and the next version. */
  lemma SetAnswers(ops: seq<Op>, p: Path, data: string, expected: int)
    ensures var t := Run(ops);
            var (u, r) := Updated(t, p, data, expected);
            && (r == Err(NodeNotFound) <==> p !in t.nodes)
            && (r == Err(VersionMismatch) <==> p in t.nodes && 0 <= expected != VersionIn(ops, p))
            && (r.Err? ==> u == t && r.error in {NodeNotFound, VersionMismatch})
            && (r.Ok? ==>
                  && u == t.(nodes := t.nodes[p := r.value])
                  && r.value == t.nodes[p].(data := data, version := VersionIn(ops, p) + 1))
  {
    hide Run, SetCount;
    if p in Run(ops).nodes {
      VersionCountsUpdates(ops, p);
    }
  }

  /** In every run, what a deletion answers, by the stored nodes themselves and not by the list of the node. */
  lemma DeleteAnswers(ops: seq<Op>, p: Path, expected: int)
    ensures var t := Run(ops);
            var (u, r) := Deleted(t, p, expected);
            && r == (if p == ROOT then Err(IsRoot)
                     else if p !in t.nodes then Err(NodeNotFound)
                     else if 0 <= expected != VersionIn(ops, p) then Err(VersionMismatch)
                     else if HasChild(t, p) then Err(NotEmpty)
                     else Ok(p))
            && (r.Err? ==> u == t)
            && (r.Ok? ==> u.nodes.Keys == t.nodes.Keys - {p} && u.counter == t.counter)
  {
    hide Run, SetCount, TreeOk, HasChild;
    if p in Run(ops).nodes && p != ROOT {
      VersionCountsUpdates(ops, p);
      TreeInEveryRun(ops);
      ListedIffChild(Run(ops), p);
      TreeListed(Run(ops), p);
    }
  }

  lemma {:induction false} RootStays(ops: seq<Op>)
    ensures ROOT in Run(ops).nodes && !Run(ops).nodes[ROOT].ephemeral
  {
    if ops != [] {
      RootStays(ops[..|ops| - 1]);
    }
  }

  /** While a node stays stored its version does not go down. */
  lemma {:induction false} VersionsGrow(ops: seq<Op>, p: Path, i: nat, j: nat)
    requires i <= j <= |ops|
    requires forall k :: i <= k <= j ==> p in Run(ops[..k]).nodes
    ensures p in Run(ops[..i]).nodes && p in Run(ops[..j]).nodes
    ensures Run(ops[..i]).nodes[p].version <= Run(ops[..j]).nodes[p].version
    decreases j
  {
    hide Next, Sets, Makes;
    if i < j {
      VersionsGrow(ops, p, i, j - 1);
      assert ops[..j][..j - 1] == ops[..j - 1] && ops[..j][j - 1] == ops[j - 1];
      VersionStep(Run(ops[..j - 1]), ops[j - 1], p);
    }
  }

  /** Compare-and-set: two updates that name the same version succeed both only if the node was gone in between. */
  lemma TwoSetsOneVersion(ops: seq<Op>, p: Path, i: nat, j: nat)
    requires i < j < |ops|
    requires Sets(Run(ops[..i]), ops[i], p) && Sets(Run(ops[..j]), ops[j], p)
    requires ops[i].expected == ops[j].expected >= 0
    ensures exists k :: i < k <= j && p !in Run(ops[..k]).nodes
  {
    if forall k :: i < k <= j ==> p in Run(ops[..k]).nodes {
      VersionsGrow(ops, p, i + 1, j);
      assert ops[..i + 1][..i] == ops[..i] && ops[..i + 1][i] == ops[i];
      VersionStep(Run(ops[..i]), ops[i], p);
      assert false;
    }
  }
}

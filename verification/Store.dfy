/** The hierarchical store (internal/store/store.go). A normalised path is the sequence of its components, the root
    being the empty sequence. `Tree` is the value of a store; the class `Store` updates its map of nodes in place. */
module Store {
  import opened Sequences
  import opened Decimal

  type Path = seq<string>

  datatype Node = Node(
    data: string, version: nat, ephemeral: bool, session: string, sequential: bool, sequence: nat,
    children: seq<string>)

  datatype Tree = Tree(nodes: map<Path, Node>, counter: nat)

  datatype Error = NodeExists | NodeNotFound | VersionMismatch | NotEmpty | UnderEphemeral | IsRoot
  datatype Result<T> = Ok(value: T) | Err(error: Error)

  const ROOT: Path := []
  const EMPTY := Tree(map[ROOT := Node("", 0, false, "", false, 0, [])], 0)

  function Parent(p: Path): Path
    requires p != ROOT
  {
    p[..|p| - 1]
  }

  function Base(p: Path): string
    requires p != ROOT
  {
    p[|p| - 1]
  }

  /** The suffix goes to the end of the path text: into the last component, or below the root. */
  function WithSuffix(p: Path, suffix: string): (q: Path)
    ensures q != ROOT
  {
    if p == ROOT then [suffix] else Parent(p) + [Base(p) + suffix]
  }

  function ActualPath(t: Tree, p: Path, sequential: bool): Path {
    if sequential then WithSuffix(p, Format(t.counter + 1)) else p
  }

  /** A new node is listed with its parent, except one that has been created at the root with a suffix. The counter
      is used up even when the node turns out to exist. */
  function Created(t: Tree, p: Path, data: string, ephemeral: bool, session: string, sequential: bool)
    : (Tree, Result<Path>)
  {
    if p != ROOT && Parent(p) !in t.nodes then
      (t, Err(NodeNotFound))
    else if p != ROOT && t.nodes[Parent(p)].ephemeral then
      (t, Err(UnderEphemeral))
    else
      var counter := if sequential then t.counter + 1 else t.counter;
      var actual := ActualPath(t, p, sequential);
      if actual in t.nodes then
        (t.(counter := counter), Err(NodeExists))
      else
        var node := Node(data, 1, ephemeral, session, sequential, counter, []);
        var nodes := t.nodes[actual := node];
        if p == ROOT then
          (Tree(nodes, counter), Ok(actual))
        else
          var parent := t.nodes[Parent(p)];
          (Tree(nodes[Parent(p) := parent.(children := parent.children + [Base(actual)])], counter), Ok(actual))
  }

  /** A negative expected version matches any. */
  predicate Expected(version: nat, expected: int) {
    expected >= 0 ==> expected == version
  }

  function Updated(t: Tree, p: Path, data: string, expected: int): (Tree, Result<Node>) {
    if p !in t.nodes then
      (t, Err(NodeNotFound))
    else if !Expected(t.nodes[p].version, expected) then
      (t, Err(VersionMismatch))
    else
      var node := t.nodes[p].(data := data, version := t.nodes[p].version + 1);
      (t.(nodes := t.nodes[p := node]), Ok(node))
  }

  /** The node is gone, and so is its name in the list of its parent. */
  function Unlinked(t: Tree, p: Path): Tree
    requires p != ROOT
  {
    var listed :=
      if Parent(p) !in t.nodes then t.nodes
      else t.nodes[Parent(p) := t.nodes[Parent(p)].(children := Removed(t.nodes[Parent(p)].children, Base(p)))];
    t.(nodes := listed - {p})
  }

  function Deleted(t: Tree, p: Path, expected: int): (Tree, Result<Path>) {
    if p == ROOT then
      (t, Err(IsRoot))
    else if p !in t.nodes then
      (t, Err(NodeNotFound))
    else if !Expected(t.nodes[p].version, expected) then
      (t, Err(VersionMismatch))
    else if t.nodes[p].children != [] then
      (t, Err(NotEmpty))
    else
      (Unlinked(t, p), Ok(p))
  }

  /** Nodes taken out one after the other. */
  function Purged(t: Tree, doomed: seq<Path>): Tree
    requires ROOT !in doomed
  {
    if doomed == [] then t else Unlinked(Purged(t, doomed[..|doomed| - 1]), doomed[|doomed| - 1])
  }

  function EphemeralsOf(t: Tree, session: string): set<Path> {
    set p | p in t.nodes && t.nodes[p].ephemeral && t.nodes[p].session == session
  }

  // Sorting, as the sort package does it for names and for paths by length.

  function Placed(x: string, s: seq<string>): seq<string> {
    if s == [] || !Less(s[0], x) then [x] + s else [s[0]] + Placed(x, s[1..])
  }

  function SortedNames(s: seq<string>): seq<string> {
    if s == [] then [] else Placed(s[0], SortedNames(s[1..]))
  }

  /** Length of the text of a path. */
  function TextLength(p: Path): nat {
    if p == ROOT then 0 else TextLength(Parent(p)) + 1 + |Base(p)|
  }

  function PlacedPath(p: Path, s: seq<Path>): seq<Path> {
    if s == [] || TextLength(p) >= TextLength(s[0]) then [p] + s else [s[0]] + PlacedPath(p, s[1..])
  }

  function LongestFirst(s: seq<Path>): seq<Path> {
    if s == [] then [] else PlacedPath(s[0], LongestFirst(s[1..]))
  }

  lemma {:induction false} PlacedContents(x: string, s: seq<string>)
    ensures multiset(Placed(x, s)) == multiset(s) + multiset{x}
  {
    if s != [] && Less(s[0], x) {
      PlacedContents(x, s[1..]);
      assert s == [s[0]] + s[1..];
    }
  }

  lemma {:induction false} SortedNamesContents(s: seq<string>)
    ensures multiset(SortedNames(s)) == multiset(s)
  {
    if s != [] {
      SortedNamesContents(s[1..]);
      PlacedContents(s[0], SortedNames(s[1..]));
      assert s == [s[0]] + s[1..];
    }
  }

  /** No name precedes an earlier one. */
  ghost predicate Ascending(s: seq<string>) {
    forall i, j :: 0 <= i < j < |s| ==> !Less(s[j], s[i])
  }

  lemma NotLessChain(a: string, b: string, c: string)
    requires !Less(b, a) && !Less(c, b)
    ensures !Less(c, a)
  {
    LessIsTotal(a, b);
    LessIsTotal(b, c);
    if Less(c, a) && a != b {
      LessIsTransitive(c, a, b);
    }
  }

  lemma AscendingCons(x: string, s: seq<string>)
    requires Ascending(s) && forall y :: y in s ==> !Less(y, x)
    ensures Ascending([x] + s)
  {
    var t := [x] + s;
    forall i, j | 0 <= i < j < |t| ensures !Less(t[j], t[i]) {
      assert t[j] == s[j - 1] && (i > 0 ==> t[i] == s[i - 1]);
    }
  }

  lemma {:induction false} PlacedKeepsOrder(x: string, s: seq<string>)
    requires Ascending(s)
    ensures Ascending(Placed(x, s))
  {
    if s == [] {
    } else if !Less(s[0], x) {
      forall y | y in s ensures !Less(y, x) {
        var i :| 0 <= i < |s| && s[i] == y;
        if i > 0 {
          NotLessChain(x, s[0], y);
        }
      }
      AscendingCons(x, s);
    } else {
      PlacedKeepsOrder(x, s[1..]);
      forall y | y in Placed(x, s[1..]) ensures !Less(y, s[0]) {
        PlacedContents(x, s[1..]);
        assert y in multiset(s[1..]) + multiset{x};
        LessIsTotal(s[0], x);
      }
      AscendingCons(s[0], Placed(x, s[1..]));
    }
  }

  lemma {:induction false} SortedNamesAscending(s: seq<string>)
    ensures Ascending(SortedNames(s))
  {
    if s != [] {
      SortedNamesAscending(s[1..]);
      PlacedKeepsOrder(s[0], SortedNames(s[1..]));
    }
  }

  /** The first name of the sorted list is one that no other precedes. */
  lemma SortedNamesFirst(s: seq<string>)
    requires s != []
    ensures SortedNames(s) != [] && SortedNames(s)[0] in s
    ensures forall x :: x in s ==> !Less(x, SortedNames(s)[0])
  {
    var sorted := SortedNames(s);
    SortedNamesContents(s);
    SortedNamesAscending(s);
    assert |multiset(sorted)| == |multiset(s)|;
    assert sorted[0] in multiset(s);
    forall x | x in s ensures !Less(x, sorted[0]) {
      assert x in multiset(sorted);
      LessIsTotal(x, x);
    }
  }

  lemma {:induction false} PlacedPathContents(p: Path, s: seq<Path>)
    ensures multiset(PlacedPath(p, s)) == multiset(s) + multiset{p}
  {
    hide TextLength;
    if s != [] && TextLength(p) < TextLength(s[0]) {
      PlacedPathContents(p, s[1..]);
      assert s == [s[0]] + s[1..];
    }
  }

  lemma {:induction false} LongestFirstContents(s: seq<Path>)
    ensures multiset(LongestFirst(s)) == multiset(s)
  {
    if s != [] {
      LongestFirstContents(s[1..]);
      PlacedPathContents(s[0], LongestFirst(s[1..]));
      assert s == [s[0]] + s[1..];
    }
  }

  /** No path is longer than an earlier one, so that children come before their parents. */
  ghost predicate NoneLonger(s: seq<Path>) {
    forall i, j :: 0 <= i < j < |s| ==> TextLength(s[i]) >= TextLength(s[j])
  }

  lemma {:induction false} PlacedPathKeepsOrder(p: Path, s: seq<Path>)
    requires NoneLonger(s)
    ensures NoneLonger(PlacedPath(p, s))
  {
    hide TextLength;
    if s != [] && TextLength(p) < TextLength(s[0]) {
      var t := PlacedPath(p, s[1..]);
      PlacedPathKeepsOrder(p, s[1..]);
      forall q | q in t ensures TextLength(q) <= TextLength(s[0]) {
        PlacedPathContents(p, s[1..]);
        assert q in multiset(s[1..]) + multiset{p};
      }
    }
  }

  lemma {:induction false} LongestComeFirst(s: seq<Path>)
    ensures NoneLonger(LongestFirst(s))
  {
    if s != [] {
      LongestComeFirst(s[1..]);
      PlacedPathKeepsOrder(s[0], LongestFirst(s[1..]));
    }
  }

  class Store {
    var nodes: map<Path, Node>
    var seqCounter: nat

    function View(): Tree
      reads this
    {
      Tree(nodes, seqCounter)
    }

    constructor ()
      ensures View() == EMPTY
    {
      nodes := map[ROOT := Node("", 0, false, "", false, 0, [])];
      seqCounter := 0;
    }

    method Create(p: Path, data: string, ephemeral: bool, session: string, sequential: bool) returns (r: Result<Path>)
      modifies this
      ensures (View(), r) == Created(old(View()), p, data, ephemeral, session, sequential)
    {
      if p != ROOT {
        if Parent(p) !in nodes {
          return Err(NodeNotFound);
        }
        if nodes[Parent(p)].ephemeral {
          return Err(UnderEphemeral);
        }
      }
      var actual := p;
      if sequential {
        seqCounter := seqCounter + 1;
        var digits := ItoaLoop(seqCounter);
        var suffix := PadLeft(digits, WIDTH, '0');
        actual := WithSuffix(p, suffix);
      }
      if actual in nodes {
        return Err(NodeExists);
      }
      nodes := nodes[actual := Node(data, 1, ephemeral, session, sequential, seqCounter, [])];
      if p != ROOT {
        nodes := nodes[Parent(p) := nodes[Parent(p)].(children := nodes[Parent(p)].children + [Base(actual)])];
      }
      return Ok(actual);
    }

    method Set(p: Path, data: string, expected: int) returns (r: Result<Node>)
      modifies this
      ensures (View(), r) == Updated(old(View()), p, data, expected)
    {
      if p !in nodes {
        return Err(NodeNotFound);
      }
      if expected >= 0 && expected != nodes[p].version {
        return Err(VersionMismatch);
      }
      nodes := nodes[p := nodes[p].(data := data, version := nodes[p].version + 1)];
      return Ok(nodes[p]);
    }

    /** The loop that takes a name out of the list of children of `parent`. */
    method Unlist(parent: Path, name: string)
      requires parent in nodes
      modifies this`nodes
      ensures nodes == old(nodes)[parent := old(nodes)[parent].(children := Removed(old(nodes)[parent].children, name))]
    {
      var children := nodes[parent].children;
      for i := 0 to |children|
        invariant nodes == old(nodes)
        invariant forall k :: 0 <= k < i ==> children[k] != name
      {
        if children[i] == name {
          RemovedAt(children, name, i);
          nodes := nodes[parent := nodes[parent].(children := children[..i] + children[i + 1..])];
          return;
        }
      }
      RemovedNowhere(children, name);
    }

    method Delete(p: Path, expected: int) returns (r: Result<Path>)
      requires p != ROOT && p in nodes ==> Parent(p) in nodes
      modifies this
      ensures (View(), r) == Deleted(old(View()), p, expected)
    {
      if p == ROOT {
        return Err(IsRoot);
      }
      if p !in nodes {
        return Err(NodeNotFound);
      }
      if expected >= 0 && expected != nodes[p].version {
        return Err(VersionMismatch);
      }
      if |nodes[p].children| > 0 {
        return Err(NotEmpty);
      }
      Unlist(Parent(p), Base(p));
      nodes := nodes - {p};
      return Ok(p);
    }

    method GetChildren(p: Path) returns (r: Result<seq<string>>)
      ensures r == if p in nodes then Ok(SortedNames(nodes[p].children)) else Err(NodeNotFound)
      ensures p in nodes ==> Ascending(r.value) && multiset(r.value) == multiset(nodes[p].children)
    {
      if p !in nodes {
        return Err(NodeNotFound);
      }
      SortedNamesContents(nodes[p].children);
      SortedNamesAscending(nodes[p].children);
      return Ok(SortedNames(nodes[p].children));
    }

    /** The scan of the map, which is iterated in an order of its own. */
    method FindEphemerals(session: string) returns (found: seq<Path>)
      ensures multiset(found) == multiset(EphemeralsOf(View(), session))
    {
      found := [];
      ghost var all := EphemeralsOf(View(), session);
      var todo := nodes.Keys;
      while todo != {}
        invariant todo <= nodes.Keys && all <= nodes.Keys
        invariant multiset(found) == multiset(all - todo)
      {
        var p :| p in todo;
        if nodes[p].ephemeral && nodes[p].session == session {
          assert all - (todo - {p}) == (all - todo) + {p};
          found := found + [p];
        } else {
          assert all - (todo - {p}) == all - todo;
        }
        todo := todo - {p};
      }
      assert all - todo == all;
    }

    /** What the scan finds is deleted longest path first. */
    method DeleteEphemerals(session: string) returns (deleted: seq<Path>)
      requires ROOT in nodes && !nodes[ROOT].ephemeral
      modifies this
      ensures multiset(deleted) == multiset(EphemeralsOf(old(View()), session)) && NoneLonger(deleted)
      ensures ROOT !in deleted && View() == Purged(old(View()), deleted)
    {
      var found := FindEphemerals(session);
      LongestFirstContents(found);
      LongestComeFirst(found);
      deleted := LongestFirst(found);
      assert ROOT !in deleted by {
        assert ROOT !in multiset(deleted);
      }
      for k := 0 to |deleted|
        invariant View() == Purged(old(View()), deleted[..k])
      {
        assert deleted[..k + 1][..k] == deleted[..k];
        var p := deleted[k];
        if Parent(p) in nodes {
          Unlist(Parent(p), Base(p));
        }
        nodes := nodes - {p};
      }
      assert deleted[..|deleted|] == deleted;
    }
  }
}

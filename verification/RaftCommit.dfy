/** Which index a leader commits (internal/raft/node.go, updateCommitIndex): the match indexes of the whole cluster
    are sorted in place by exchanges and the element in the middle is taken. */
module RaftCommit {
  import opened Sequences

  ghost predicate Sorted(s: seq<nat>) {
    forall i, j :: 0 <= i < j < |s| ==> s[i] <= s[j]
  }

  /** How many of the values are at least `x`. */
  function AtLeast(s: seq<nat>, x: nat): (n: nat)
    ensures n <= |s|
  {
    if s == [] then 0 else AtLeast(s[1..], x) + (if s[0] >= x then 1 else 0)
  }

  /** Members that must have reached an index before it is committed in a cluster of `n`. */
  function CommitQuorum(n: nat): nat {
    n - n / 2
  }

  /** Votes that make a leader in a cluster of `n`. */
  function VoteQuorum(n: nat): nat {
    n / 2 + 1
  }

  /** `c` is the largest value that a commit quorum has reached. */
  ghost predicate IsChoice(values: seq<nat>, c: nat) {
    && AtLeast(values, c) >= CommitQuorum(|values|)
    && forall x :: x > c ==> AtLeast(values, x) < CommitQuorum(|values|)
  }

  function Inserted(x: nat, s: seq<nat>): seq<nat> {
    if s == [] || x <= s[0] then [x] + s else [s[0]] + Inserted(x, s[1..])
  }

  function SortedCopy(s: seq<nat>): seq<nat> {
    if s == [] then [] else Inserted(s[0], SortedCopy(s[1..]))
  }

  lemma {:induction false} InsertedContents(x: nat, s: seq<nat>)
    ensures multiset(Inserted(x, s)) == multiset(s) + multiset{x}
  {
    if s != [] && x > s[0] {
      InsertedContents(x, s[1..]);
      assert s == [s[0]] + s[1..];
    }
  }

  lemma SortedTail(s: seq<nat>)
    requires Sorted(s) && s != []
    ensures Sorted(s[1..]) && forall y :: y in s[1..] ==> s[0] <= y
  {
  }

  lemma SortedCons(x: nat, s: seq<nat>)
    requires Sorted(s) && forall y :: y in s ==> x <= y
    ensures Sorted([x] + s)
  {
    var r := [x] + s;
    forall i, j | 0 <= i < j < |r| ensures r[i] <= r[j] {
      assert s[j - 1] in s && r[j] == s[j - 1] && (i > 0 ==> r[i] == s[i - 1]);
    }
  }

  lemma {:induction false} InsertedKeepsOrder(x: nat, s: seq<nat>)
    requires Sorted(s)
    ensures Sorted(Inserted(x, s))
  {
    hide Sorted;
    if s == [] {
      SortedCons(x, s);
    } else {
      SortedTail(s);
      if x > s[0] {
        var rest := Inserted(x, s[1..]);
        InsertedKeepsOrder(x, s[1..]);
        InsertedContents(x, s[1..]);
        forall y | y in rest ensures s[0] <= y {
          assert y in multiset(s[1..]) + multiset{x};
          assert y in s[1..] || y == x;
        }
        SortedCons(s[0], rest);
      } else {
        assert s == [s[0]] + s[1..];
        SortedCons(x, s);
      }
    }
  }

  lemma {:induction false} SortedCopyIsSorted(s: seq<nat>)
    ensures Sorted(SortedCopy(s)) && multiset(SortedCopy(s)) == multiset(s)
    ensures |SortedCopy(s)| == |s|
  {
    if s != [] {
      SortedCopyIsSorted(s[1..]);
      InsertedKeepsOrder(s[0], SortedCopy(s[1..]));
      InsertedContents(s[0], SortedCopy(s[1..]));
      assert s == [s[0]] + s[1..];
    }
    assert |multiset(SortedCopy(s))| == |multiset(s)|;
  }

  function Choice(values: seq<nat>): nat
    requires values != []
  {
    SortedCopyIsSorted(values);
    SortedCopy(values)[|values| / 2]
  }

  lemma {:induction false} AtLeastSplit(a: seq<nat>, b: seq<nat>, x: nat)
    ensures AtLeast(a + b, x) == AtLeast(a, x) + AtLeast(b, x)
  {
    if a == [] {
      assert a + b == b;
    } else {
      assert (a + b)[1..] == a[1..] + b;
      AtLeastSplit(a[1..], b, x);
    }
  }

  /** A value taken out of the middle of a sequence. */
  lemma Without(s: seq<nat>, k: nat, x: nat) returns (shorter: seq<nat>)
    requires k < |s|
    ensures |shorter| == |s| - 1
    ensures multiset(s) == multiset(shorter) + multiset{s[k]}
    ensures AtLeast(s, x) == AtLeast(shorter, x) + AtLeast([s[k]], x)
  {
    shorter := s[..k] + s[k + 1..];
    assert s == s[..k] + ([s[k]] + s[k + 1..]);
    AtLeastSplit(s[..k], s[k + 1..], x);
    AtLeastSplit(s[..k], [s[k]] + s[k + 1..], x);
    AtLeastSplit([s[k]], s[k + 1..], x);
  }

  /** Counting does not see the order of the values. */
  lemma {:induction false} AtLeastPermuted(a: seq<nat>, b: seq<nat>, x: nat)
    requires multiset(a) == multiset(b)
    ensures |a| == |b| && AtLeast(a, x) == AtLeast(b, x)
    decreases |a|
  {
    assert |multiset(a)| == |a| && |multiset(b)| == |b|;
    if a != [] {
      assert a[0] in multiset(b);
      var k :| 0 <= k < |b| && b[k] == a[0];
      var tail := Without(a, 0, x);
      var shorter := Without(b, k, x);
      assert multiset(tail) == multiset(a) - multiset{a[0]} == multiset(shorter);
      AtLeastPermuted(tail, shorter, x);
    }
  }

  lemma {:induction false} AllAtLeast(s: seq<nat>, x: nat)
    ensures (forall y :: y in s ==> y >= x) ==> AtLeast(s, x) == |s|
    ensures (forall y :: y in s ==> y < x) ==> AtLeast(s, x) == 0
  {
    if s != [] {
      AllAtLeast(s[1..], x);
      assert s[0] in s && forall y :: y in s[1..] ==> y in s;
    }
  }

  /** In a sorted sequence the element at `k` has been reached by everything from `k` on, and nothing larger has. */
  lemma SortedElementIsReached(s: seq<nat>, k: nat)
    requires Sorted(s) && k < |s|
    ensures AtLeast(s, s[k]) >= |s| - k
    ensures forall x :: x > s[k] ==> AtLeast(s, x) < |s| - k
  {
    assert s == s[..k] + s[k..];
    AtLeastSplit(s[..k], s[k..], s[k]);
    AllAtLeast(s[k..], s[k]);
    forall x: nat | x > s[k] ensures AtLeast(s, x) < |s| - k {
      LargerIsNotReached(s, k, x);
    }
  }

  lemma LargerIsNotReached(s: seq<nat>, k: nat, x: nat)
    requires Sorted(s) && k < |s| && x > s[k]
    ensures AtLeast(s, x) < |s| - k
  {
    assert s == s[..k + 1] + s[k + 1..];
    AtLeastSplit(s[..k + 1], s[k + 1..], x);
    AllAtLeast(s[..k + 1], x);
  }

  /** Any sorted arrangement of the values has the largest commonly reached value in the middle. */
  lemma MiddleIsChoice(values: seq<nat>, sorted: seq<nat>)
    requires values != [] && Sorted(sorted) && multiset(sorted) == multiset(values)
    ensures |sorted| == |values| && IsChoice(values, sorted[|values| / 2])
  {
    AtLeastPermuted(sorted, values, 0);
    var k := |values| / 2;
    SortedElementIsReached(sorted, k);
    AtLeastPermuted(sorted, values, sorted[k]);
    forall x: nat | x > sorted[k] ensures AtLeast(values, x) < CommitQuorum(|values|) {
      AtLeastPermuted(sorted, values, x);
    }
  }

  lemma ChoiceIsUnique(values: seq<nat>, c: nat, d: nat)
    requires IsChoice(values, c) && IsChoice(values, d)
    ensures c == d
  {
  }

  /** The in-place exchange sort of updateCommitIndex. */
  method ExchangeSort(a: array<nat>)
    modifies a
    ensures Sorted(a[..])
    ensures multiset(a[..]) == multiset(old(a[..]))
  {
    var i := 0;
    while i < a.Length - 1
      invariant 0 <= i && (a.Length == 0 || i <= a.Length - 1)
      invariant forall p, q :: 0 <= p < q < a.Length && p < i ==> a[p] <= a[q]
      invariant multiset(a[..]) == multiset(old(a[..]))
    {
      var j := i + 1;
      while j < a.Length
        invariant i < j <= a.Length
        invariant forall p, q :: 0 <= p < q < a.Length && p < i ==> a[p] <= a[q]
        invariant forall q :: i < q < j ==> a[i] <= a[q]
        invariant multiset(a[..]) == multiset(old(a[..]))
      {
        if a[i] > a[j] {
          a[i], a[j] := a[j], a[i];
        }
        j := j + 1;
      }
      i := i + 1;
    }
  }

  /** The index the leader considers: sort, then take the middle. */
  method ChooseCommit(values: seq<nat>) returns (c: nat)
    requires values != []
    ensures IsChoice(values, c) && c == Choice(values)
  {
    var a := new nat[|values|](i requires 0 <= i < |values| => values[i]);
    assert a[..] == values;
    ExchangeSort(a);
    c := a[a.Length / 2];
    MiddleIsChoice(values, a[..]);
    SortedCopyIsSorted(values);
    MiddleIsChoice(values, SortedCopy(values));
    ChoiceIsUnique(values, c, Choice(values));
  }

  /** The members of a cluster whose match index has reached `x`. */
  function Reached<K(!new)>(matches: map<K, nat>, x: nat): set<K> {
    set p | p in matches && matches[p] >= x
  }

  /** The match indexes read in the order in which the map is iterated. */
  function Read<K(!new)>(matches: map<K, nat>, order: seq<K>): (r: seq<nat>)
    requires forall p :: p in order ==> p in matches
    ensures |r| == |order|
  {
    if order == [] then [] else [matches[order[0]]] + Read(matches, order[1..])
  }

  ghost predicate IsOrder<K(!new)>(order: seq<K>, keys: set<K>) {
    && (forall p :: p in order <==> p in keys)
    && Distinct(order)
  }

  function Members<K(!new)>(order: seq<K>): set<K> {
    set p | p in order
  }

  lemma DistinctTail<K(!new)>(order: seq<K>)
    requires Distinct(order) && order != []
    ensures Distinct(order[1..]) && order[0] !in order[1..]
    ensures Members(order) == Members(order[1..]) + {order[0]}
  {
    assert order == [order[0]] + order[1..];
  }

  lemma {:induction false} DistinctCount<K(!new)>(order: seq<K>)
    requires Distinct(order)
    ensures |Members(order)| == |order|
  {
    if order != [] {
      DistinctTail(order);
      DistinctCount(order[1..]);
    }
  }

  function Passing<K(!new)>(matches: map<K, nat>, order: seq<K>, x: nat): set<K>
    requires forall p :: p in order ==> p in matches
  {
    set p | p in Members(order) && matches[p] >= x
  }

  lemma {:induction false} ReadCounts<K(!new)>(matches: map<K, nat>, order: seq<K>, x: nat)
    requires Distinct(order) && forall p :: p in order ==> p in matches
    ensures AtLeast(Read(matches, order), x) == |Passing(matches, order, x)|
    decreases |order|
  {
    if order != [] {
      DistinctTail(order);
      ReadCounts(matches, order[1..], x);
      var rest := Passing(matches, order[1..], x);
      assert Passing(matches, order, x) == if matches[order[0]] >= x then rest + {order[0]} else rest;
      assert Read(matches, order)[1..] == Read(matches, order[1..]);
    }
  }

  /** The count over any reading order is the number of members. */
  lemma ReadCountsMembers<K(!new)>(matches: map<K, nat>, order: seq<K>, x: nat)
    requires IsOrder(order, matches.Keys)
    ensures |order| == |matches.Keys|
    ensures AtLeast(Read(matches, order), x) == |Reached(matches, x)|
  {
    ReadCounts(matches, order, x);
    DistinctCount(order);
    assert Members(order) == matches.Keys;
    assert Passing(matches, order, x) == Reached(matches, x);
  }

  lemma {:induction false} ReadIgnoresOthers<K(!new)>(matches: map<K, nat>, order: seq<K>, self: K, x: nat)
    requires self !in order && forall p :: p in order ==> p in matches
    ensures Read(matches[self := x], order) == Read(matches, order)
  {
    if order != [] {
      ReadIgnoresOthers(matches, order[1..], self, x);
    }
  }

  /** The values a leader collects, its own last index first, count the members of the cluster. */
  lemma ValuesCountMembers<K(!new)>(self: K, lastIndex: nat, matches: map<K, nat>, order: seq<K>, x: nat)
    requires self !in matches && IsOrder(order, matches.Keys)
    ensures var cluster, values := matches[self := lastIndex], [lastIndex] + Read(matches, order);
            |values| == |cluster.Keys| && AtLeast(values, x) == |Reached(cluster, x)|
  {
    hide AtLeast, Reached;
    var cluster := matches[self := lastIndex];
    assert IsOrder([self] + order, cluster.Keys) by {
      assert forall p :: p in [self] + order <==> p == self || p in order;
    }
    assert Read(cluster, [self] + order) == [lastIndex] + Read(matches, order) by {
      ReadIgnoresOthers(matches, order, self, lastIndex);
      assert ([self] + order)[1..] == order;
    }
    ReadCountsMembers(cluster, [self] + order, x);
  }

  /** The index a leader considers is the largest one that a commit quorum of the cluster has reached, whatever
      order the map of match indexes is iterated in. The leader itself counts with its whole log. */
  lemma ChoiceIsReachedByQuorum<K(!new)>(self: K, lastIndex: nat, matches: map<K, nat>, order: seq<K>)
    requires self !in matches && IsOrder(order, matches.Keys)
    ensures var cluster, c := matches[self := lastIndex], Choice([lastIndex] + Read(matches, order));
            && |Reached(cluster, c)| >= CommitQuorum(|cluster.Keys|)
            && forall x :: x > c ==> |Reached(cluster, x)| < CommitQuorum(|cluster.Keys|)
  {
    hide AtLeast, Reached, Read, Sorted;
    var cluster, values := matches[self := lastIndex], [lastIndex] + Read(matches, order);
    SortedCopyIsSorted(values);
    MiddleIsChoice(values, SortedCopy(values));
    forall x: nat ensures |values| == |cluster.Keys| && |Reached(cluster, x)| == AtLeast(values, x) {
      ValuesCountMembers(self, lastIndex, matches, order, x);
    }
  }

  lemma {:induction false} SubsetCardinality<K(!new)>(a: set<K>, b: set<K>)
    requires a <= b
    ensures |a| <= |b|
    decreases |a|
  {
    if a != {} {
      var x :| x in a;
      SubsetCardinality(a - {x}, b - {x});
    }
  }

  lemma QuorumsMeet<K(!new)>(cluster: set<K>, a: set<K>, b: set<K>)
    requires a <= cluster && b <= cluster && |a| + |b| > |cluster|
    ensures exists p :: p in a && p in b
  {
    if a * b == {} {
      assert |a + b| == |a| + |b|;
      SubsetCardinality(a + b, cluster);
      assert false;
    }
    var p :| p in a * b;
    assert p in a && p in b;
  }

  /** Every commit quorum meets every vote quorum, for odd and even cluster sizes alike. */
  lemma CommitMeetsVotes<K(!new)>(cluster: set<K>, committed: set<K>, voters: set<K>)
    requires committed <= cluster && voters <= cluster
    requires |committed| >= CommitQuorum(|cluster|) && |voters| >= VoteQuorum(|cluster|)
    ensures exists p :: p in committed && p in voters
  {
    QuorumsMeet(cluster, committed, voters);
  }

  lemma {:induction false} SubsetOfSize<K(!new)>(s: set<K>, n: nat) returns (t: set<K>)
    requires n <= |s|
    ensures t <= s && |t| == n
    decreases n
  {
    if n == 0 {
      t := {};
    } else {
      var x :| x in s;
      t := SubsetOfSize(s - {x}, n - 1);
      t := t + {x};
    }
  }

  /** A commit quorum is a majority, so that two of them always meet, exactly in clusters of odd size; in an even
      cluster it is one member short of a majority and two halves can commit without each other. */
  lemma CommitQuorumsMeetIffOdd<K(!new)>(cluster: set<K>)
    ensures |cluster| % 2 == 1 <==>
            forall a, b :: a <= cluster && b <= cluster
                           && |a| >= CommitQuorum(|cluster|) && |b| >= CommitQuorum(|cluster|)
                           ==> exists p :: p in a && p in b
  {
    var n := |cluster|;
    if n % 2 == 1 {
      forall a, b | a <= cluster && b <= cluster && |a| >= CommitQuorum(n) && |b| >= CommitQuorum(n)
        ensures exists p :: p in a && p in b
      {
        QuorumsMeet(cluster, a, b);
      }
    } else {
      var a := SubsetOfSize(cluster, n / 2);
      var b := cluster - a;
      assert a + b == cluster && |a| + |b| == n;
      assert !exists p :: p in a && p in b;
    }
  }
}

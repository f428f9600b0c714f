/** The two hypotheses of mutual exclusion are needed. The bound of 10^10 sequence numbers is exact: mutual exclusion
    holds in every orderly run below it, and there is an orderly run that reaches it and has two live holders of one
    lock. And a single node created inside a lock directory by somebody else is enough for two live holders. */
module LockLimits {
  import opened Sequences
  import opened Decimal
  import opened Store
  import opened LockManager
  import opened LockQueue
  import H = StoreHistory

  const DIR: Path := ["locks", "x"]
  const TOP: Path := ["locks"]

  function Plain(children: seq<string>): Node {
    Node("", 1, false, "", false, 0, children)
  }

  /** The store with the directory of lock "x" and the given queue. */
  function Nodes(queue: seq<string>): map<Path, Node> {
    map[ROOT := Node("", 0, false, "", false, 0, ["locks"]), TOP := Plain(["x"]), DIR := Plain(queue)]
  }

  ghost predicate Leads(actions: seq<Action>, s: System) {
    Run(actions) == s && Orderly(actions)
  }

  lemma Extend(actions: seq<Action>, s: System, a: Action) returns (longer: seq<Action>, d: System)
    requires Leads(actions, s) && (a.Direct? ==> OutsideQueues(a.op))
    ensures Leads(longer, d) && d == Next(s, a)
  {
    longer, d := actions + [a], Next(s, a);
    assert longer[..|longer| - 1] == actions;
  }

  lemma Prepared() returns (actions: seq<Action>, s: System)
    ensures Leads(actions, s) && s == START.(tree := Tree(Nodes([]), 0))
  {
    hide Leads;
    assert Leads([], START) by {
      Started();
    }
    actions, s := Extend([], START, Direct(H.Create(TOP, "", false, "", false)));
    assert Base(TOP) == "locks" && Parent(TOP) == ROOT && [] + ["locks"] == ["locks"];
    assert TOP !in EMPTY.nodes && s.tree.nodes[ROOT].children == ["locks"];
    assert s.tree.nodes == map[ROOT := Node("", 0, false, "", false, 0, ["locks"]), TOP := Plain([])];
    assert s.tree.counter == 0 && s.removed == {};
    actions, s := Extend(actions, s, Direct(H.Create(DIR, "", false, "", false)));
    assert Parent(DIR) == TOP && Base(DIR) == "x" && [] + ["x"] == ["x"];
    assert s.tree.nodes[TOP].children == ["x"];
    assert s.tree.nodes == Nodes([]);
    assert s.removed == {};
  }

  lemma Started()
    ensures Leads([], START)
  {
  }

  /** A sequential node beside the locks comes and goes; one sequence number is used up. */
  lemma UseUpOne(actions: seq<Action>, s: System) returns (longer: seq<Action>, d: System)
    requires Leads(actions, s) && s.tree.nodes == Nodes([])
    ensures Leads(longer, d)
    ensures d == s.(tree := Tree(Nodes([]), s.tree.counter + 1), removed := d.removed)
  {
    hide Leads, Created, Deleted, Nodes, Format;
    var p: Path := ["q" + Format(s.tree.counter + 1)];
    ComesAndGoes(s.tree);
    longer, d := Extend(actions, s, Direct(H.Create(["q"], "", false, "", true)));
    longer, d := Extend(longer, d, Direct(H.Delete(p, -1)));
  }

  lemma ComesAndGoes(t: Tree)
    requires t.nodes == Nodes([])
    ensures Deleted(Created(t, ["q"], "", false, "", true).0, ["q" + Format(t.counter + 1)], -1).0
            == Tree(Nodes([]), t.counter + 1)
  {
    hide Format;
    var name := "q" + Format(t.counter + 1);
    assert name[0] == 'q' && "locks"[0] == 'l';
    var p: Path := [name];
    assert WithSuffix(["q"], Format(t.counter + 1)) == p;
    var u := Created(t, ["q"], "", false, "", true).0;
    assert p[0] == name && TOP[0] == "locks" && p !in Nodes([]);
    assert u.nodes[ROOT].children == ["locks"] + [name] && u.nodes[p].children == [];
    RemovedLast(["locks"], name);
    assert Deleted(u, p, -1).0.nodes == Nodes([]);
  }

  lemma {:induction false} UseUp(n: nat) returns (actions: seq<Action>, s: System)
    ensures Leads(actions, s) && s == START.(tree := Tree(Nodes([]), n), removed := s.removed)
  {
    hide Leads;
    if n == 0 {
      actions, s := Prepared();
    } else {
      actions, s := UseUp(n - 1);
      actions, s := UseUpOne(actions, s);
    }
  }

  /** The queue node of the request just below the bound. */
  function LastNode(): Node {
    Node("a", 1, true, "s", true, BOUND - 1, [])
  }

  const LAST: Path := TicketPath("x", BOUND - 1)
  const PAST: Path := TicketPath("x", BOUND)

  /** A call finds the directory and creates its node. */
  lemma Queue(actions: seq<Action>, s: System, r: nat, owner: string, session: string)
    returns (longer: seq<Action>, d: System)
    requires Leads(actions, s) && r !in s.requests
    requires DIR in s.tree.nodes && !s.tree.nodes[DIR].ephemeral && TicketPath("x", s.tree.counter + 1) !in s.tree.nodes
    ensures Leads(longer, d)
    ensures var k, p := s.tree.counter + 1, TicketPath("x", s.tree.counter + 1);
            && d.tree.counter == k
            && d.tree.nodes == s.tree.nodes
                 [p := Node(owner, 1, true, session, true, k, [])]
                 [DIR := s.tree.nodes[DIR].(children := s.tree.nodes[DIR].children + [TicketName(k)])]
            && d.requests == s.requests[r := Request("x", owner, session, 0, Checking, k, false)]
            && d.locks == s.locks && d.grants == s.grants
  {
    hide Leads, Format;
    var k := s.tree.counter + 1;
    longer, d := Extend(actions, s, Call(r, "x", owner, session, 0));
    longer, d := Extend(longer, d, Step(r));
    assert d.requests[r].phase == Queueing && d.tree == s.tree;
    QueuedPath(s.tree, "x", owner, session);
    var asked := LockDir("x") + [TICKET];
    assert Parent(asked) == DIR && LockDir("x") == DIR;
    longer, d := Extend(longer, d, Step(r));
  }

  /** The check succeeds and the lock is recorded. */
  lemma Take(actions: seq<Action>, s: System, r: nat) returns (longer: seq<Action>, d: System)
    requires Leads(actions, s) && r in s.requests && s.requests[r].phase == Checking
    requires Checked(s.tree, s.requests[r].name, PathOf(s.requests[r])) == Ok(true)
    ensures Leads(longer, d) && d.tree == s.tree
    ensures var q := s.requests[r];
            d.locks == s.locks[PathOf(q) := Lock(q.name, q.owner, q.session, PathOf(q), q.ticket)]
    ensures d.requests == s.requests[r := s.requests[r].(phase := Recorded)]
  {
    hide Leads, Checked, TicketPath;
    longer, d := Extend(actions, s, Step(r));
    longer, d := Extend(longer, d, Step(r));
  }

  /** The only name in a queue is its first; past the bound the newcomer's name sorts first. */
  lemma FirstOfTwo()
    ensures FirstName([TicketName(BOUND - 1)]) == TicketName(BOUND - 1)
    ensures FirstName([TicketName(BOUND - 1), TicketName(BOUND)]) == TicketName(BOUND)
  {
    hide FirstName, Format;
    FirstNameIsFirst([TicketName(BOUND - 1)]);
    var two := [TicketName(BOUND - 1), TicketName(BOUND)];
    FirstNameIsFirst(two);
    BoundIsTight();
    LessPrefix(TICKET, Format(BOUND), Format(BOUND - 1));
    assert two[1] in two;
  }

  /** The first of the two requests takes the lock with the last sequence number below the bound. */
  lemma LastBelowBound() returns (actions: seq<Action>, s: System)
    ensures Leads(actions, s) && s.tree.counter == BOUND - 1 && LAST in s.locks && s.locks[LAST].name == "x"
    ensures s.tree.nodes == Nodes([TicketName(BOUND - 1)])[LAST := LastNode()] && 2 !in s.requests
  {
    hide Leads, TicketName, FirstName;
    actions, s := UseUp(BOUND - 2);
    actions, s := Queue(actions, s, 1, "a", "s");
    assert [] + [TicketName(BOUND - 1)] == [TicketName(BOUND - 1)];
    assert s.tree.nodes == Nodes([TicketName(BOUND - 1)])[LAST := LastNode()];
    FirstOfTwo();
    assert LAST[2] == TicketName(BOUND - 1) && LockDir("x") == DIR;
    actions, s := Take(actions, s, 1);
  }

  /** Past the bound two live holders share a lock: the statement of mutual exclusion fails at exactly 10^10. */
  lemma TwoHoldersAtBound()
    ensures exists actions :: && Orderly(actions) && Run(actions).tree.counter == BOUND
                              && LiveHolder(Run(actions), LAST) && LiveHolder(Run(actions), PAST) && LAST != PAST
                              && Run(actions).locks[LAST].name == Run(actions).locks[PAST].name
  {
    var actions, s := LastBelowBound();
    TicketPathInjective("x", BOUND - 1, "x", BOUND);
    actions, s := SecondHolder(actions, s);
    assert Run(actions) == s && Orderly(actions);
  }

  lemma SecondHolder(actions: seq<Action>, s: System) returns (longer: seq<Action>, d: System)
    requires Leads(actions, s) && s.tree.counter == BOUND - 1 && LAST in s.locks && s.locks[LAST].name == "x"
    requires s.tree.nodes == Nodes([TicketName(BOUND - 1)])[LAST := LastNode()] && 2 !in s.requests && LAST != PAST
    ensures Leads(longer, d) && d.tree.counter == BOUND
    ensures LiveHolder(d, LAST) && LiveHolder(d, PAST) && d.locks[LAST].name == d.locks[PAST].name
  {
    hide Leads, TicketName, FirstName;
    longer, d := Queue(actions, s, 2, "b", "t");
    assert [TicketName(BOUND - 1)] + [TicketName(BOUND)] == [TicketName(BOUND - 1), TicketName(BOUND)];
    assert d.tree.nodes[DIR].children == [TicketName(BOUND - 1), TicketName(BOUND)];
    FirstOfTwo();
    assert PAST[2] == TicketName(BOUND) && LockDir("x") == DIR;
    longer, d := Take(longer, d, 2);
  }

  const FIRST: Path := TicketPath("x", 1)
  const SECOND: Path := TicketPath("x", 2)

  /** The only name in a queue is its first. */
  lemma FirstOfOne(k: nat)
    ensures FirstName([TicketName(k)]) == TicketName(k)
  {
    hide FirstName, TicketName;
    FirstNameIsFirst([TicketName(k)]);
  }

  /** A request takes the lock of an empty queue. */
  lemma Alone(actions: seq<Action>, s: System, r: nat, owner: string, session: string)
    returns (longer: seq<Action>, d: System)
    requires Leads(actions, s) && r !in s.requests && s.tree.nodes == Nodes([])
    ensures Leads(longer, d)
    ensures var k, p := s.tree.counter + 1, TicketPath("x", s.tree.counter + 1);
            && d.tree == Tree(Nodes([TicketName(k)])[p := Node(owner, 1, true, session, true, k, [])], k)
            && d.locks == s.locks[p := Lock("x", owner, session, p, k)] && d.requests.Keys == s.requests.Keys + {r}
  {
    hide Leads, TicketName, FirstName;
    var k := s.tree.counter + 1;
    longer, d := Queue(actions, s, r, owner, session);
    assert [] + [TicketName(k)] == [TicketName(k)];
    FirstOfOne(k);
    assert TicketPath("x", k)[2] == TicketName(k) && LockDir("x") == DIR;
    longer, d := Take(longer, d, r);
  }

  /** The first holder's node is deleted from outside, which leaves its record, and a second request takes the lock. */
  lemma SecondTakesOver() returns (actions: seq<Action>, s: System)
    ensures Leads(actions, s)
    ensures s.tree == Tree(Nodes([TicketName(2)])[SECOND := Node("b", 1, true, "t", true, 2, [])], 2)
    ensures FIRST in s.locks && SECOND in s.locks && FIRST != SECOND
    ensures s.locks[FIRST].name == s.locks[SECOND].name == "x"
  {
    hide Leads, TicketName;
    TicketPathInjective("x", 1, "x", 2);
    actions, s := Prepared();
    actions, s := Alone(actions, s, 1, "a", "s");
    actions, s := Extend(actions, s, Direct(H.Delete(FIRST, -1)));
    assert Parent(FIRST) == DIR && Base(FIRST) == TicketName(1);
    assert Removed([TicketName(1)], TicketName(1)) == [];
    assert s.tree.nodes == Nodes([]);
    actions, s := Alone(actions, s, 2, "b", "t");
  }

  /** A node created from outside at the place of a former queue node makes two live holders, far below the bound. */
  lemma ForeignNodeMakesTwoHolders()
    ensures exists actions :: && Run(actions).tree.counter == 2
                              && LiveHolder(Run(actions), FIRST) && LiveHolder(Run(actions), SECOND) && FIRST != SECOND
                              && Run(actions).locks[FIRST].name == Run(actions).locks[SECOND].name
  {
    hide TicketName;
    var actions, s := SecondTakesOver();
    var longer := actions + [Direct(H.Create(FIRST, "", false, "", false))];
    assert longer[..|longer| - 1] == actions;
    assert Run(longer) == Next(s, Direct(H.Create(FIRST, "", false, "", false)));
    assert Parent(FIRST) == DIR && FIRST !in s.tree.nodes;
    assert LiveHolder(Run(longer), FIRST) && LiveHolder(Run(longer), SECOND);
  }
}

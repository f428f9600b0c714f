/** The lock service as a step machine: any number of TryLock calls, interleaved at the points where they let go of the
    mutexes, with wake-ups and timeouts at any time, releases by anyone, session cleanups, and other users. */
module LockQueue {
  import opened Decimal
  import opened Store
  import opened StoreTree
  import opened LockManager
  import H = StoreHistory

  /** Where a TryLock call stands. */
  datatype Phase =
    | Calling        // about to look for the directory
    | MakingDir      // did not find it
    | Queueing       // about to create its node
    | Checking       // node created, first check to come
    | Registering    // not first, about to register a wait channel
    | Waiting
    | Rechecking     // woken
    | Granted        // check succeeded, not yet recorded
    | Recorded       // recorded, deferred removal of the wait channel to come
    | Held           // returned the lock
    | Withdrawing    // about to delete its node
    | Leaving        // node deleted, deferred removal of the wait channel to come
    | Gone           // returned an error

  /** `ticket` is the sequence number of the node, 0 before there is one; `waiting` says whether a wait channel is
      registered. */
  datatype Request = Request(
    name: string, owner: string, session: string, timeout: int, phase: Phase, ticket: nat, waiting: bool)

  datatype Grant = Grant(name: string, ticket: nat)

  /** `grants`, `issued` and `removed` are history: successful checks in order, the request each sequence number was
      given to, and the nodes taken away by a release, a cleanup or other use of the store. */
  datatype System = System(
    tree: Tree, locks: map<Path, Lock>, waiters: map<string, seq<nat>>, requests: map<nat, Request>,
    grants: seq<Grant>, issued: map<nat, nat>, removed: set<Path>)

  datatype Action =
    | Call(r: nat, name: string, owner: string, session: string, timeout: int)
    | Step(r: nat)
    | Wake(r: nat)
    | Expire(r: nat)
    | Forget(path: Path)      // the first half of Unlock; the second is a direct Delete
    | Direct(op: H.Op)

  const START := System(EMPTY, map[], map[], map[], [], map[], {})

  /** A node inside the directory of a lock. */
  predicate IsTicket(p: Path) {
    |p| == 3 && p[0] == LOCKS
  }

  /** A direct operation that creates no node inside a lock directory. */
  predicate OutsideQueues(op: H.Op) {
    op.Create? ==> !IsTicket(op.path)
  }

  /** Other users of the store may update and delete whatever they like, but create no queue nodes. */
  ghost predicate Orderly(actions: seq<Action>) {
    forall i :: 0 <= i < |actions| && actions[i].Direct? ==> OutsideQueues(actions[i].op)
  }

  function PathOf(q: Request): Path {
    TicketPath(q.name, q.ticket)
  }

  function With(s: System, r: nat, q: Request): System {
    s.(requests := s.requests[r := q])
  }

  /** Create the queue node, or give up. */
  ghost function AfterQueueing(s: System, r: nat, q: Request): System {
    var (t, queued) := Queued(s.tree, q.name, q.owner, q.session);
    if queued.Ok? then
      With(s, r, q.(phase := Checking, ticket := t.counter)).(tree := t, issued := s.issued[t.counter := r])
    else
      With(s, r, q.(phase := Gone)).(tree := t)
  }

  /** The check, first or repeated. */
  ghost function AfterCheck(s: System, r: nat, q: Request): System {
    match Checked(s.tree, q.name, PathOf(q))
    case Err(_) => With(s, r, q.(phase := Withdrawing))
    case Ok(first) =>
      if first then
        With(s, r, q.(phase := Granted)).(grants := s.grants + [Grant(q.name, q.ticket)])
      else if q.phase == Rechecking then
        With(s, r, q.(phase := Waiting))
      else
        With(s, r, q.(phase := if q.timeout < 0 then Withdrawing else Registering))
  }

  function Unregistered(s: System, r: nat, q: Request): map<string, seq<nat>> {
    if q.waiting then WaiterRemoved(s.waiters, q.name, r) else s.waiters
  }

  /** The next piece of a call. A waiting call goes on only when it is woken or its time is up. */
  ghost function AfterStep(s: System, r: nat, q: Request): System {
    match q.phase
    case Calling => With(s, r, q.(phase := if LockDir(q.name) in s.tree.nodes then Queueing else MakingDir))
    case MakingDir =>
      With(s, r, q.(phase := Queueing)).(tree := Created(s.tree, LockDir(q.name), "", false, "", false).0)
    case Queueing => AfterQueueing(s, r, q)
    case Checking => AfterCheck(s, r, q)
    case Registering =>
      With(s, r, q.(phase := Waiting, waiting := true)).(waiters := WaiterAdded(s.waiters, q.name, r))
    case Waiting => s
    case Rechecking => AfterCheck(s, r, q)
    case Granted =>
      var lock := Lock(q.name, q.owner, q.session, PathOf(q), q.ticket);
      With(s, r, q.(phase := Recorded)).(locks := s.locks[PathOf(q) := lock])
    case Recorded => With(s, r, q.(phase := Held, waiting := false)).(waiters := Unregistered(s, r, q))
    case Held => s
    case Withdrawing => With(s, r, q.(phase := Leaving)).(tree := Deleted(s.tree, PathOf(q), -1).0)
    case Leaving => With(s, r, q.(phase := Gone, waiting := false)).(waiters := Unregistered(s, r, q))
    case Gone => s
  }

  ghost function Next(s: System, a: Action): System {
    match a
    case Call(r, name, owner, session, timeout) =>
      if r in s.requests then s else With(s, r, Request(name, owner, session, timeout, Calling, 0, false))
    case Step(r) => if r in s.requests then AfterStep(s, r, s.requests[r]) else s
    case Wake(r) =>
      if r in s.requests && s.requests[r].phase == Waiting then With(s, r, s.requests[r].(phase := Rechecking)) else s
    case Expire(r) =>
      if r in s.requests && s.requests[r].phase == Waiting && s.requests[r].timeout > 0
      then With(s, r, s.requests[r].(phase := Withdrawing)) else s
    case Forget(path) => s.(locks := s.locks - {path})
    case Direct(op) =>
      var t := H.Next(s.tree, op);
      s.(tree := t, removed := s.removed + (s.tree.nodes.Keys - t.nodes.Keys))
  }

  ghost function Run(actions: seq<Action>): System {
    if actions == [] then START else Next(Run(actions[..|actions| - 1]), actions[|actions| - 1])
  }

  // The invariant.

  predicate InQueue(phase: Phase) {
    phase in {Checking, Registering, Waiting, Rechecking, Granted, Recorded, Held, Withdrawing}
  }

  predicate Undecided(phase: Phase) {
    phase in {Checking, Registering, Waiting, Rechecking}
  }

  predicate Decided(phase: Phase) {
    phase in {Granted, Recorded, Held}
  }

  predicate Early(phase: Phase) {
    phase in {Calling, MakingDir, Queueing}
  }

  /** A node in a lock directory is the ephemeral node of a request that still counts on it. */
  ghost predicate NodeOk(s: System, p: Path)
    requires p in s.tree.nodes && IsTicket(p)
  {
    var node := s.tree.nodes[p];
    && node.ephemeral && 1 <= node.sequence <= s.tree.counter
    && p == TicketPath(p[1], node.sequence)
    && node.sequence in s.issued && s.issued[node.sequence] in s.requests
    && var q := s.requests[s.issued[node.sequence]];
       q.name == p[1] && q.ticket == node.sequence && InQueue(q.phase)
  }

  ghost predicate RequestOk(s: System, r: nat)
    requires r in s.requests
  {
    var q := s.requests[r];
    && q.ticket <= s.tree.counter
    && (q.ticket > 0 ==> q.ticket in s.issued && s.issued[q.ticket] == r)
    && (Early(q.phase) ==> q.ticket == 0)
    && (InQueue(q.phase) ==> q.ticket > 0 && (PathOf(q) in s.tree.nodes || PathOf(q) in s.removed))
    && (q.phase in {Leaving, Gone} && q.ticket > 0 ==> PathOf(q) !in s.tree.nodes)
    && (Undecided(q.phase) ==> Grant(q.name, q.ticket) !in s.grants)
    && (Decided(q.phase) ==> Grant(q.name, q.ticket) in s.grants)
  }

  /** Fewer than 10^10 sequential creates so far; as long as that is so, queue nodes sort by their sequence numbers. */
  predicate BelowBound(t: Tree) {
    t.counter < BOUND
  }

  /** Below the bound, nobody in the queue is ahead of a request that has been granted the lock. */
  ghost predicate GrantOk(s: System, g: Grant) {
    && g.ticket <= s.tree.counter
    && (BelowBound(s.tree) ==>
          forall p :: p in s.tree.nodes && IsTicket(p) && p[1] == g.name ==> g.ticket <= s.tree.nodes[p].sequence)
  }

  /** The path of a queue node that has been issued and is not stored. */
  ghost predicate Spent(t: Tree, p: Path) {
    IsTicket(p) && p !in t.nodes && exists k :: 1 <= k <= t.counter && p == TicketPath(p[1], k)
  }

  ghost predicate LockOk(s: System, p: Path)
    requires p in s.locks
  {
    p == TicketPath(s.locks[p].name, s.locks[p].sequence) && Grant(s.locks[p].name, s.locks[p].sequence) in s.grants
  }

  /** Grants of one lock come in the order of their sequence numbers. */
  ghost predicate InOrder(grants: seq<Grant>) {
    forall i, j :: 0 <= i < j < |grants| && grants[i].name == grants[j].name ==> grants[i].ticket < grants[j].ticket
  }

  ghost predicate Inv(s: System) {
    && TreeOk(s.tree)
    && (forall p :: p in s.tree.nodes && IsTicket(p) ==> NodeOk(s, p))
    && (forall r :: r in s.requests ==> RequestOk(s, r))
    && (forall g :: g in s.grants ==> GrantOk(s, g))
    && (forall p :: p in s.locks ==> LockOk(s, p))
    && (forall p :: p in s.removed && IsTicket(p) ==> Spent(s.tree, p))
    && (BelowBound(s.tree) ==> InOrder(s.grants))
  }

  lemma StartInv()
    ensures Inv(START)
  {
    H.EmptyIsTree();
  }

  lemma InvRequest(s: System, r: nat)
    requires Inv(s) && r in s.requests
    ensures RequestOk(s, r)
  {
  }

  lemma InvTree(s: System)
    requires Inv(s)
    ensures TreeOk(s.tree)
  {
  }

  lemma InvNode(s: System, p: Path)
    requires Inv(s) && p in s.tree.nodes && IsTicket(p)
    ensures NodeOk(s, p)
  {
  }

  lemma InvGrant(s: System, g: Grant)
    requires Inv(s) && g in s.grants
    ensures GrantOk(s, g)
  {
  }

  lemma InvLock(s: System, p: Path)
    requires Inv(s) && p in s.locks
    ensures LockOk(s, p)
  {
  }

  lemma InvRemoved(s: System, p: Path)
    requires Inv(s) && p in s.removed && IsTicket(p)
    ensures Spent(s.tree, p)
  {
  }

  /** The queue nodes of `u` are nodes of `t` with their sequence numbers. */
  ghost predicate NoNewTickets(t: Tree, u: Tree) {
    && t.counter <= u.counter
    && forall p :: p in u.nodes && IsTicket(p) ==>
         && p in t.nodes && u.nodes[p].sequence == t.nodes[p].sequence && u.nodes[p].ephemeral == t.nodes[p].ephemeral
  }

  lemma DirectKeepsTickets(t: Tree, op: H.Op)
    requires OutsideQueues(op)
    ensures NoNewTickets(t, H.Next(t, op))
  {
  }

  lemma DirKeepsTickets(t: Tree, name: string)
    ensures NoNewTickets(t, Created(t, LockDir(name), "", false, "", false).0)
  {
    DirectKeepsTickets(t, H.Create(LockDir(name), "", false, "", false));
  }

  /** The tree changes without new queue nodes, and the ones that go are on record as removed. */
  lemma TreeMoves(s: System, d: System)
    requires Inv(s) && d == s.(tree := d.tree, removed := d.removed) && s.removed <= d.removed
    requires TreeOk(d.tree) && NoNewTickets(s.tree, d.tree)
    requires forall p :: p in s.tree.nodes && IsTicket(p) && p !in d.tree.nodes ==> p in d.removed
    requires forall p :: p in d.removed && p !in s.removed ==> p in s.tree.nodes && p !in d.tree.nodes
    ensures Inv(d)
  {
    hide TreeOk, TicketName;
    forall p | p in d.tree.nodes && IsTicket(p) ensures NodeOk(d, p) {
      assert NodeOk(s, p);
    }
    forall p | p in d.removed && IsTicket(p) ensures Spent(d.tree, p) {
      assert if p in s.removed then Spent(s.tree, p) else NodeOk(s, p);
    }
    forall r | r in d.requests ensures RequestOk(d, r) {
      assert RequestOk(s, r);
    }
    forall g | g in d.grants ensures GrantOk(d, g) {
      assert GrantOk(s, g);
    }
    forall p | p in d.locks ensures LockOk(d, p) {
      assert LockOk(s, p);
    }
  }

  /** One request moves on; it stays in the queue while its node is stored. */
  lemma RequestMoves(s: System, d: System, r: nat)
    requires Inv(s) && r in s.requests && r in d.requests
    requires d == With(s, r, d.requests[r]).(waiters := d.waiters)
    requires d.requests[r].name == s.requests[r].name && d.requests[r].ticket == s.requests[r].ticket
    requires InQueue(s.requests[r].phase) ==> InQueue(d.requests[r].phase) || PathOf(s.requests[r]) !in s.tree.nodes
    requires RequestOk(d, r)
    ensures Inv(d)
  {
    hide TreeOk;
    forall p | p in d.tree.nodes && IsTicket(p) ensures NodeOk(d, p) {
      assert NodeOk(s, p);
    }
    forall k | k in d.requests ensures RequestOk(d, k) {
      assert k == r || RequestOk(s, k);
    }
    forall g | g in d.grants ensures GrantOk(d, g) {
      assert GrantOk(s, g);
    }
    forall p | p in d.locks ensures LockOk(d, p) {
      assert LockOk(s, p);
    }
  }

  lemma CallKeeps(s: System, r: nat, q: Request)
    requires Inv(s) && r !in s.requests && q.phase == Calling && q.ticket == 0
    ensures Inv(With(s, r, q))
  {
    hide TreeOk;
    var d := With(s, r, q);
    forall p | p in d.tree.nodes && IsTicket(p) ensures NodeOk(d, p) {
      assert NodeOk(s, p);
    }
    forall k | k in d.requests ensures RequestOk(d, k) {
      assert k == r || RequestOk(s, k);
    }
    forall g | g in d.grants ensures GrantOk(d, g) {
      assert GrantOk(s, g);
    }
    forall p | p in d.locks ensures LockOk(d, p) {
      assert LockOk(s, p);
    }
  }

  lemma LocksMove(s: System, d: System)
    requires Inv(s) && d == s.(locks := d.locks) && forall p :: p in d.locks ==> LockOk(d, p)
    ensures Inv(d)
  {
    hide TreeOk;
    forall p | p in d.tree.nodes && IsTicket(p) ensures NodeOk(d, p) {
      assert NodeOk(s, p);
    }
    forall k | k in d.requests ensures RequestOk(d, k) {
      assert RequestOk(s, k);
    }
    forall g | g in d.grants ensures GrantOk(d, g) {
      assert GrantOk(s, g);
    }
  }

  /** What creating a queue node does to the tree. */
  lemma QueuedTree(t: Tree, name: string, owner: string, session: string)
    requires TreeOk(t)
    ensures var (u, queued) := Queued(t, name, owner, session);
            var p := TicketPath(name, t.counter + 1);
            && TreeOk(u) && t.counter <= u.counter <= t.counter + 1
            && (queued.Err? ==> u.nodes == t.nodes)
            && (queued.Ok? ==>
                  && queued.value == p && u.counter == t.counter + 1 && p !in t.nodes && p in u.nodes
                  && u.nodes[p].ephemeral && u.nodes[p].sequence == u.counter
                  && u.nodes.Keys == t.nodes.Keys + {p}
                  && forall x :: x in t.nodes ==>
                       u.nodes[x].sequence == t.nodes[x].sequence && u.nodes[x].ephemeral == t.nodes[x].ephemeral)
  {
    hide Format, TreeOk;
    var asked := LockDir(name) + [TICKET];
    QueuedPath(t, name, owner, session);
    CreateKeepsTree(t, asked, owner, true, session, true);
  }

  /** A new queue node. */
  lemma QueueingKeeps(s: System, r: nat)
    requires Inv(s) && r in s.requests && s.requests[r].phase == Queueing
    ensures Inv(AfterQueueing(s, r, s.requests[r]))
  {
    hide Inv, TreeOk, Queued, Format;
    var q := s.requests[r];
    var d := AfterQueueing(s, r, q);
    var (t, queued) := Queued(s.tree, q.name, q.owner, q.session);
    InvTree(s);
    InvRequest(s, r);
    QueuedTree(s.tree, q.name, q.owner, q.session);
    if queued.Ok? {
      TicketAdded(s, d, r, TicketPath(q.name, s.tree.counter + 1));
    } else {
      var between := s.(tree := t);
      TreeMoves(s, between);
      InvRequest(between, r);
      RequestMoves(between, d, r);
    }
  }

  /** The next queue node gets a path of its own. */
  lemma NewTicketIsNotSpent(t: Tree, p: Path, name: string)
    requires Spent(t, p)
    ensures p != TicketPath(name, t.counter + 1)
  {
    hide TicketPath;
    var k :| 1 <= k <= t.counter && p == TicketPath(p[1], k);
    TicketPathInjective(p[1], k, name, t.counter + 1);
  }

  lemma TicketAddedKeepsSpent(t: Tree, u: Tree, name: string, p: Path)
    requires Spent(t, p) && u.counter == t.counter + 1 && u.nodes.Keys == t.nodes.Keys + {TicketPath(name, u.counter)}
    ensures Spent(u, p)
  {
    hide TicketPath;
    NewTicketIsNotSpent(t, p, name);
  }

  lemma TicketAdded(s: System, d: System, r: nat, p: Path)
    requires Inv(s) && r in s.requests && s.requests[r].ticket == 0
    requires TreeOk(d.tree) && p in d.tree.nodes && p !in s.tree.nodes
    requires d.tree.counter == s.tree.counter + 1 && p == TicketPath(s.requests[r].name, d.tree.counter)
    requires d.tree.nodes[p].ephemeral && d.tree.nodes[p].sequence == d.tree.counter
    requires d.tree.nodes.Keys == s.tree.nodes.Keys + {p}
    requires forall x :: x in d.tree.nodes && x != p ==>
               x in s.tree.nodes && d.tree.nodes[x].sequence == s.tree.nodes[x].sequence
                 && d.tree.nodes[x].ephemeral == s.tree.nodes[x].ephemeral
    requires d == With(s, r, s.requests[r].(phase := Checking, ticket := d.tree.counter))
                    .(tree := d.tree, issued := s.issued[d.tree.counter := r])
    ensures Inv(d)
  {
    hide TreeOk, TicketName;
    forall x | x in d.tree.nodes && IsTicket(x) ensures NodeOk(d, x) {
      assert x == p || NodeOk(s, x);
    }
    forall x | x in d.removed && IsTicket(x) ensures Spent(d.tree, x) {
      TicketAddedKeepsSpent(s.tree, d.tree, s.requests[r].name, x);
    }
    forall g | g in d.grants ensures GrantOk(d, g) {
      assert GrantOk(s, g);
    }
    forall j | j in d.requests ensures RequestOk(d, j) {
      TicketAddedBeside(s, d, r, p, j);
    }
    forall x | x in d.locks ensures LockOk(d, x) {
      assert LockOk(s, x);
    }
  }

  lemma TicketAddedBeside(s: System, d: System, r: nat, p: Path, j: nat)
    requires Inv(s) && r in s.requests && j in s.requests && s.requests[r].ticket == 0
    requires d.tree.counter == s.tree.counter + 1 && p == TicketPath(s.requests[r].name, d.tree.counter)
    requires d.tree.nodes.Keys == s.tree.nodes.Keys + {p}
    requires d == With(s, r, s.requests[r].(phase := Checking, ticket := d.tree.counter))
                    .(tree := d.tree, issued := s.issued[d.tree.counter := r])
    ensures RequestOk(d, j)
  {
    hide Inv, TicketName;
    InvRequest(s, j);
    if j != r {
      TicketPathInjective(d.requests[j].name, d.requests[j].ticket, s.requests[r].name, d.tree.counter);
    } else {
      forall g | g in s.grants ensures g.ticket <= s.tree.counter {
        InvGrant(s, g);
      }
    }
  }

  /** Below the bound the first name in the directory has the lowest sequence number. */
  lemma FirstHasLowestTicket(s: System, name: string, k: nat, p: Path)
    requires Inv(s) && BelowBound(s.tree) && 1 <= k <= s.tree.counter
    requires LockDir(name) in s.tree.nodes && s.tree.nodes[LockDir(name)].children != []
    requires FirstName(s.tree.nodes[LockDir(name)].children) == TicketName(k)
    requires p in s.tree.nodes && IsTicket(p) && p[1] == name
    ensures k <= s.tree.nodes[p].sequence
  {
    var names := s.tree.nodes[LockDir(name)].children;
    assert NodeOk(s, p) && Listed(s.tree, p);
    var j := s.tree.nodes[p].sequence;
    assert Parent(p) == LockDir(name) && Base(p) == TicketName(j);
    FirstNameIsFirst(names);
    LessPrefix(TICKET, Format(j), Format(k));
    FormatOrder(j, k);
  }

  /** A node that is found first is stored. */
  lemma FirstIsStored(s: System, name: string, k: nat)
    requires TreeOk(s.tree) && Checked(s.tree, name, TicketPath(name, k)) == Ok(true)
    ensures TicketPath(name, k) in s.tree.nodes
  {
    hide TicketName, FirstName;
    var dir := LockDir(name);
    FirstNameIsFirst(s.tree.nodes[dir].children);
    assert Lists(s.tree, dir) && dir + [TicketName(k)] == TicketPath(name, k)
           && Base(TicketPath(name, k)) == TicketName(k);
  }

  lemma GrantKeeps(s: System, r: nat)
    requires Inv(s) && r in s.requests && s.requests[r].phase in {Checking, Rechecking}
    requires Checked(s.tree, s.requests[r].name, PathOf(s.requests[r])) == Ok(true)
    ensures Inv(AfterCheck(s, r, s.requests[r]))
  {
    hide Inv, TreeOk, FirstName, TicketName;
    var q := s.requests[r];
    var p := PathOf(q);
    InvRequest(s, r);
    InvTree(s);
    FirstIsStored(s, q.name, q.ticket);
    InvNode(s, p);
    TicketPathInjective(q.name, q.ticket, q.name, s.tree.nodes[p].sequence);
    if BelowBound(s.tree) {
      forall x | x in s.tree.nodes && IsTicket(x) && x[1] == q.name ensures q.ticket <= s.tree.nodes[x].sequence {
        FirstHasLowestTicket(s, q.name, q.ticket, x);
      }
      forall e | e in s.grants && e.name == q.name ensures e.ticket < q.ticket {
        InvGrant(s, e);
        assert e != Grant(q.name, q.ticket);
      }
    }
    Granting(s, AfterCheck(s, r, q), r, Grant(q.name, q.ticket));
  }

  lemma Granting(s: System, d: System, r: nat, g: Grant)
    requires Inv(s) && r in s.requests && Undecided(s.requests[r].phase)
    requires g == Grant(s.requests[r].name, s.requests[r].ticket)
    requires d == With(s, r, s.requests[r].(phase := Granted)).(grants := s.grants + [g])
    requires g.ticket <= s.tree.counter
    requires BelowBound(s.tree) ==>
               forall p :: p in s.tree.nodes && IsTicket(p) && p[1] == g.name ==> g.ticket <= s.tree.nodes[p].sequence
    requires BelowBound(s.tree) ==> forall e :: e in s.grants && e.name == g.name ==> e.ticket < g.ticket
    ensures Inv(d)
  {
    hide TreeOk;
    forall p | p in d.tree.nodes && IsTicket(p) ensures NodeOk(d, p) {
      assert NodeOk(s, p);
    }
    assert RequestOk(s, r);
    forall j | j in d.requests ensures RequestOk(d, j) {
      assert RequestOk(s, j);
    }
    forall e | e in d.grants ensures GrantOk(d, e) {
      assert e == g || GrantOk(s, e);
    }
    forall p | p in d.locks ensures LockOk(d, p) {
      assert LockOk(s, p);
    }
  }

  lemma CheckKeeps(s: System, r: nat)
    requires Inv(s) && r in s.requests && s.requests[r].phase in {Checking, Rechecking}
    ensures Inv(AfterCheck(s, r, s.requests[r]))
  {
    hide Inv, Checked, TicketPath;
    var q := s.requests[r];
    if Checked(s.tree, q.name, PathOf(q)) == Ok(true) {
      GrantKeeps(s, r);
    } else {
      InvRequest(s, r);
      RequestMoves(s, AfterCheck(s, r, q), r);
    }
  }

  /** Deleting its own node, which is a leaf and of any version, leaves nothing of a request behind. */
  lemma WithdrawKeeps(s: System, r: nat)
    requires Inv(s) && r in s.requests && s.requests[r].phase == Withdrawing
    ensures Inv(AfterStep(s, r, s.requests[r]))
    ensures PathOf(s.requests[r]) !in AfterStep(s, r, s.requests[r]).tree.nodes
  {
    hide Inv, TreeOk, TicketName;
    var q, p := s.requests[r], PathOf(s.requests[r]);
    var d := AfterStep(s, r, q);
    InvRequest(s, r);
    InvTree(s);
    DeletingTicket(s, p);
    if p in s.tree.nodes {
      Withdrawn(s, d, r);
    } else {
      RequestMoves(s, d, r);
    }
  }

  lemma DeletingTicket(s: System, p: Path)
    requires Inv(s) && IsTicket(p)
    ensures var t := Deleted(s.tree, p, -1).0;
            TreeOk(t) && NoNewTickets(s.tree, t) && t.nodes.Keys == s.tree.nodes.Keys - {p}
              && t.counter == s.tree.counter
  {
    hide TicketName;
    DeleteKeepsTree(s.tree, p, -1);
    DirectKeepsTickets(s.tree, H.Delete(p, -1));
    if p in s.tree.nodes {
      InvNode(s, p);
      assert Lists(s.tree, p);
      UnlinkedNode(s.tree, p, p);
    }
  }

  lemma Withdrawn(s: System, d: System, r: nat)
    requires Inv(s) && r in s.requests && s.requests[r].phase == Withdrawing
    requires d == With(s, r, s.requests[r].(phase := Leaving)).(tree := d.tree)
    requires TreeOk(d.tree) && NoNewTickets(s.tree, d.tree)
             && d.tree.nodes.Keys == s.tree.nodes.Keys - {PathOf(s.requests[r])}
    ensures Inv(d)
  {
    hide TreeOk;
    var q, p := s.requests[r], PathOf(s.requests[r]);
    forall x | x in d.tree.nodes && IsTicket(x) ensures NodeOk(d, x) {
      assert NodeOk(s, x);
    }
    assert RequestOk(s, r);
    forall j | j in d.requests ensures RequestOk(d, j) {
      assert RequestOk(s, j);
      if j != r && d.requests[j].ticket > 0 {
        TicketPathInjective(d.requests[j].name, d.requests[j].ticket, q.name, q.ticket);
      }
    }
    forall e | e in d.grants ensures GrantOk(d, e) {
      assert GrantOk(s, e);
    }
    forall x | x in d.locks ensures LockOk(d, x) {
      assert LockOk(s, x);
    }
  }

  lemma RecordKeeps(s: System, r: nat)
    requires Inv(s) && r in s.requests && s.requests[r].phase == Granted
    ensures Inv(AfterStep(s, r, s.requests[r]))
  {
    hide Inv, TicketName;
    var q := s.requests[r];
    var d := AfterStep(s, r, q);
    var between := s.(locks := d.locks);
    InvRequest(s, r);
    forall p | p in between.locks ensures LockOk(between, p) {
      if p != PathOf(q) {
        InvLock(s, p);
      }
    }
    LocksMove(s, between);
    RequestMoves(between, d, r);
  }

  lemma MakeDirKeeps(s: System, r: nat)
    requires Inv(s) && r in s.requests && s.requests[r].phase == MakingDir
    ensures Inv(AfterStep(s, r, s.requests[r]))
  {
    hide Inv, TreeOk, Created, TicketPath;
    var q := s.requests[r];
    var d := AfterStep(s, r, q);
    var between := s.(tree := d.tree);
    InvTree(s);
    CreateKeepsTree(s.tree, LockDir(q.name), "", false, "", false);
    DirKeepsTickets(s.tree, q.name);
    DirRemovesNothing(s.tree, q.name);
    TreeMoves(s, between);
    InvRequest(between, r);
    RequestMoves(between, d, r);
  }

  lemma DirRemovesNothing(t: Tree, name: string)
    ensures t.nodes.Keys <= Created(t, LockDir(name), "", false, "", false).0.nodes.Keys
  {
  }

  /** The remaining pieces of a call touch neither tree nor table of locks. */
  lemma PlainStepKeeps(s: System, r: nat)
    requires Inv(s) && r in s.requests
    requires s.requests[r].phase in {Calling, Registering, Waiting, Recorded, Held, Leaving, Gone}
    ensures Inv(AfterStep(s, r, s.requests[r]))
  {
    hide Inv, TicketPath;
    var d := AfterStep(s, r, s.requests[r]);
    InvRequest(s, r);
    if d != s {
      RequestMoves(s, d, r);
    }
  }

  lemma StepKeeps(s: System, r: nat)
    requires Inv(s) && r in s.requests
    ensures Inv(AfterStep(s, r, s.requests[r]))
  {
    hide Inv;
    match s.requests[r].phase {
      case MakingDir => MakeDirKeeps(s, r);
      case Queueing => QueueingKeeps(s, r);
      case Checking => CheckKeeps(s, r);
      case Rechecking => CheckKeeps(s, r);
      case Granted => RecordKeeps(s, r);
      case Withdrawing => WithdrawKeeps(s, r);
      case _ => PlainStepKeeps(s, r);
    }
  }

  lemma NextKeepsInv(s: System, a: Action)
    requires Inv(s) && (a.Direct? ==> OutsideQueues(a.op))
    ensures Inv(Next(s, a))
  {
    match a {
      case Call(r, name, owner, session, timeout) =>
        if r !in s.requests {
          CallKeeps(s, r, Request(name, owner, session, timeout, Calling, 0, false));
        }
      case Step(r) =>
        if r in s.requests {
          StepKeeps(s, r);
        }
      case Wake(r) => PokeKeeps(s, a);
      case Expire(r) => PokeKeeps(s, a);
      case Forget(path) =>
        var d := Next(s, a);
        forall p | p in d.locks ensures LockOk(d, p) {
          assert LockOk(s, p);
        }
        LocksMove(s, d);
      case Direct(op) =>
        H.NextKeepsTree(s.tree, op);
        DirectKeepsTickets(s.tree, op);
        TreeMoves(s, Next(s, a));
    }
  }

  lemma PokeKeeps(s: System, a: Action)
    requires Inv(s) && (a.Wake? || a.Expire?)
    ensures Inv(Next(s, a))
  {
    hide Inv, TicketPath;
    var d := Next(s, a);
    if a.r in s.requests && s.requests[a.r].phase == Waiting && d != s {
      InvRequest(s, a.r);
      RequestMoves(s, d, a.r);
    }
  }

  lemma {:induction false} RunKeepsInv(actions: seq<Action>)
    requires Orderly(actions)
    ensures Inv(Run(actions))
  {
    if actions == [] {
      StartInv();
    } else {
      var front, a := actions[..|actions| - 1], actions[|actions| - 1];
      RunKeepsInv(front);
      NextKeepsInv(Run(front), a);
    }
  }

  // What follows for every orderly run, as far as the order of grants is concerned below the bound.

  /** A request that is recorded as having the lock and whose node is still stored. */
  ghost predicate LiveHolder(s: System, p: Path) {
    p in s.locks && p in s.tree.nodes
  }

  /** The sequence number of a stored queue node is the one in its name. */
  lemma StoredTicket(s: System, name: string, k: nat)
    requires Inv(s) && TicketPath(name, k) in s.tree.nodes
    ensures s.tree.nodes[TicketPath(name, k)].sequence == k
  {
    hide Inv, TicketName;
    InvNode(s, TicketPath(name, k));
    TicketPathInjective(name, k, name, s.tree.nodes[TicketPath(name, k)].sequence);
  }

  /** A child of a lock directory is a queue node. */
  lemma ChildTicket(s: System, name: string, child: string) returns (j: nat)
    requires Inv(s) && LockDir(name) in s.tree.nodes && child in s.tree.nodes[LockDir(name)].children
    ensures child == TicketName(j) && 1 <= j <= s.tree.counter && TicketPath(name, j) in s.tree.nodes
  {
    hide Inv, TicketName;
    var p := [LOCKS, name, child];
    InvTree(s);
    assert Lists(s.tree, LockDir(name)) && LockDir(name) + [child] == p;
    InvNode(s, p);
    j := s.tree.nodes[p].sequence;
    assert p[2] == child && TicketPath(name, j)[2] == TicketName(j);
  }

  /** The first child of a lock directory is a queue node. */
  lemma FirstChild(s: System, name: string) returns (j: nat)
    requires Inv(s) && LockDir(name) in s.tree.nodes && s.tree.nodes[LockDir(name)].children != []
    ensures FirstName(s.tree.nodes[LockDir(name)].children) == TicketName(j) && 1 <= j <= s.tree.counter
    ensures TicketPath(name, j) in s.tree.nodes
  {
    hide Inv, FirstName, TicketName;
    FirstNameIsFirst(s.tree.nodes[LockDir(name)].children);
    j := ChildTicket(s, name, FirstName(s.tree.nodes[LockDir(name)].children));
  }

  lemma ListedInQueue(s: System, name: string, k: nat)
    requires TreeOk(s.tree) && TicketPath(name, k) in s.tree.nodes
    ensures LockDir(name) in s.tree.nodes && TicketName(k) in s.tree.nodes[LockDir(name)].children
  {
    hide TicketName;
    var p := TicketPath(name, k);
    assert Listed(s.tree, p) && Parent(p) == LockDir(name) && Base(p) == TicketName(k);
  }

  /** Whoever has been granted a lock and still has its node is the first in the queue. */
  lemma GrantedIsFirst(s: System, name: string, k: nat)
    requires Inv(s) && BelowBound(s.tree) && Grant(name, k) in s.grants && TicketPath(name, k) in s.tree.nodes
    ensures LockDir(name) in s.tree.nodes && s.tree.nodes[LockDir(name)].children != []
    ensures FirstName(s.tree.nodes[LockDir(name)].children) == TicketName(k)
  {
    hide Inv, TreeOk, Format, FirstName;
    InvTree(s);
    ListedInQueue(s, name, k);
    var j := FirstChild(s, name);
    StoredTicket(s, name, k);
    StoredTicket(s, name, j);
    InvGrant(s, Grant(name, k));
    assert TicketPath(name, j)[1] == name && k <= j;
    FirstHasLowestTicket(s, name, j, TicketPath(name, k));
  }

  /** Mutual exclusion: a lock has at most one live holder, and that holder is the first child of its directory. */
  lemma MutualExclusion(actions: seq<Action>, p: Path, q: Path)
    requires Orderly(actions) && BelowBound(Run(actions).tree)
    requires LiveHolder(Run(actions), p) && LiveHolder(Run(actions), q)
    requires Run(actions).locks[p].name == Run(actions).locks[q].name
    ensures p == q && p != ROOT
    ensures var s := Run(actions);
            var dir := LockDir(s.locks[p].name);
            Parent(p) == dir && dir in s.tree.nodes && s.tree.nodes[dir].children != []
              && FirstName(s.tree.nodes[dir].children) == Base(p)
  {
    hide Inv, Run, TicketName, FirstName;
    var s := Run(actions);
    RunKeepsInv(actions);
    InvLock(s, p);
    InvLock(s, q);
    GrantedIsFirst(s, s.locks[p].name, s.locks[p].sequence);
    GrantedIsFirst(s, s.locks[q].name, s.locks[q].sequence);
  }

  /** Mutual exclusion holds from the successful check on, before the lock is recorded. */
  lemma OneDecidedRequest(actions: seq<Action>, r: nat, k: nat)
    requires Orderly(actions) && BelowBound(Run(actions).tree) && r in Run(actions).requests
             && k in Run(actions).requests
    requires var s := Run(actions);
             && Decided(s.requests[r].phase) && PathOf(s.requests[r]) in s.tree.nodes
             && Decided(s.requests[k].phase) && PathOf(s.requests[k]) in s.tree.nodes
             && s.requests[r].name == s.requests[k].name
    ensures r == k
  {
    hide Inv, Run, FirstName, Format;
    var s := Run(actions);
    var a, b := s.requests[r], s.requests[k];
    RunKeepsInv(actions);
    InvRequest(s, r);
    InvRequest(s, k);
    GrantedIsFirst(s, a.name, a.ticket);
    GrantedIsFirst(s, b.name, b.ticket);
    assert PathOf(a) == PathOf(b);
    TicketPathInjective(a.name, a.ticket, b.name, b.ticket);
  }

  /** The holder that is reported is the live holder, if there is one. */
  lemma HolderIsReported(actions: seq<Action>, p: Path)
    requires Orderly(actions) && BelowBound(Run(actions).tree) && LiveHolder(Run(actions), p)
    ensures var s := Run(actions); Holder(s.tree, s.locks[p].name) == Ok(s.tree.nodes[p].data)
  {
    hide Inv, Run, TicketName, FirstName;
    var s := Run(actions);
    RunKeepsInv(actions);
    InvLock(s, p);
    GrantedIsFirst(s, s.locks[p].name, s.locks[p].sequence);
    assert LockDir(s.locks[p].name) + [TicketName(s.locks[p].sequence)] == p;
  }

  /** First come, first served: of two requests for one lock that both get it, the one created first gets it first. */
  lemma FirstComeFirstServed(actions: seq<Action>, i: nat, j: nat)
    requires Orderly(actions) && BelowBound(Run(actions).tree)
    requires i < |Run(actions).grants| && j < |Run(actions).grants|
    requires Run(actions).grants[i].name == Run(actions).grants[j].name
    ensures Run(actions).grants[i].ticket < Run(actions).grants[j].ticket <==> i < j
  {
    RunKeepsInv(actions);
    assert InOrder(Run(actions).grants);
  }

  /** Sequence numbers are in the order of creation: a new queue node has a higher one than any request so far. */
  lemma TicketsFollowCreation(actions: seq<Action>, r: nat, k: nat)
    requires Orderly(actions) && r in Run(actions).requests && k in Run(actions).requests
    requires Run(actions).requests[r].phase == Queueing
    requires Next(Run(actions), Step(r)).requests[r].phase == Checking
    ensures Run(actions).requests[k].ticket < Next(Run(actions), Step(r)).requests[r].ticket
  {
    hide Inv, Run, TicketName;
    var s := Run(actions);
    RunKeepsInv(actions);
    InvRequest(s, k);
    InvTree(s);
    QueuedTree(s.tree, s.requests[r].name, s.requests[r].owner, s.requests[r].session);
  }

  /** Conservation, from the node to the request: every child of a lock directory belongs to one request, which is in
      the queue for that lock. */
  lemma EveryChildHasOneRequest(actions: seq<Action>, name: string, child: string)
    requires Orderly(actions)
    requires LockDir(name) in Run(actions).tree.nodes && child in Run(actions).tree.nodes[LockDir(name)].children
    ensures exists r :: BelongsTo(Run(actions), name, child, r)
    ensures forall r, k :: BelongsTo(Run(actions), name, child, r) && BelongsTo(Run(actions), name, child, k) ==> r == k
  {
    hide Inv, Run, TicketName;
    var s := Run(actions);
    var p := LockDir(name) + [child];
    RunKeepsInv(actions);
    InvTree(s);
    assert Lists(s.tree, LockDir(name));
    InvNode(s, p);
    assert BelongsTo(s, name, child, s.issued[s.tree.nodes[p].sequence]);
    forall r, k | BelongsTo(s, name, child, r) && BelongsTo(s, name, child, k) ensures r == k {
      InvRequest(s, r);
      InvRequest(s, k);
      TicketPathInjective(name, s.requests[r].ticket, name, s.requests[k].ticket);
    }
  }

  ghost predicate BelongsTo(s: System, name: string, child: string, r: nat) {
    && r in s.requests && InQueue(s.requests[r].phase) && s.requests[r].ticket > 0
    && s.requests[r].name == name && PathOf(s.requests[r]) == LockDir(name) + [child]
  }

  /** Whether the queue of a lock lists the node of a request. */
  predicate InDirectory(t: Tree, q: Request) {
    LockDir(q.name) in t.nodes && TicketName(q.ticket) in t.nodes[LockDir(q.name)].children
  }

  lemma InDirectoryIffStored(t: Tree, q: Request)
    requires TreeOk(t)
    ensures InDirectory(t, q) <==> PathOf(q) in t.nodes
  {
    hide TicketName;
    assert Parent(PathOf(q)) == LockDir(q.name) && Base(PathOf(q)) == TicketName(q.ticket);
    assert LockDir(q.name) + [TicketName(q.ticket)] == PathOf(q);
    if PathOf(q) in t.nodes {
      assert Listed(t, PathOf(q));
    } else if LockDir(q.name) in t.nodes {
      assert Lists(t, LockDir(q.name));
    }
  }

  /** Conservation, from the request to the node: a request in the queue, or with the lock, is listed in the directory
      of its lock exactly unless its node was taken away by a release, a cleanup or a deletion. One that has timed out
      or failed is not listed. */
  lemma EveryRequestHasItsChild(actions: seq<Action>, r: nat)
    requires Orderly(actions) && r in Run(actions).requests
    ensures var s := Run(actions);
            var q := s.requests[r];
            && (InQueue(q.phase) ==> (InDirectory(s.tree, q) <==> PathOf(q) !in s.removed))
            && (q.phase in {Leaving, Gone} && q.ticket > 0 ==> !InDirectory(s.tree, q))
  {
    hide Inv, Run, TicketName;
    var s := Run(actions);
    RunKeepsInv(actions);
    InvRequest(s, r);
    InvTree(s);
    if PathOf(s.requests[r]) in s.removed {
      InvRemoved(s, PathOf(s.requests[r]));
    }
    InDirectoryIffStored(s.tree, s.requests[r]);
  }

  lemma NoNewTicketsKeepSpent(t: Tree, u: Tree, p: Path)
    requires Spent(t, p) && NoNewTickets(t, u)
    ensures Spent(u, p)
  {
    hide TicketPath;
  }

  lemma QueueingKeepsSpent(t: Tree, name: string, owner: string, session: string, p: Path)
    requires TreeOk(t) && Spent(t, p)
    ensures Spent(Queued(t, name, owner, session).0, p)
  {
    hide TreeOk, TicketPath, Queued;
    QueuedTree(t, name, owner, session);
    NewTicketIsNotSpent(t, p, name);
  }

  /** No step of any kind brings back the path of a queue node that is gone. */
  lemma NextKeepsSpent(s: System, a: Action, p: Path)
    requires Inv(s) && (a.Direct? ==> OutsideQueues(a.op)) && Spent(s.tree, p)
    ensures Spent(Next(s, a).tree, p)
  {
    hide Inv, TreeOk, Spent, TicketPath, Queued, H.Next, Created, Deleted, Checked, NoNewTickets;
    var d := Next(s, a);
    if a.Step? && a.r in s.requests {
      var q := s.requests[a.r];
      if q.phase == Queueing {
        InvTree(s);
        QueueingKeepsSpent(s.tree, q.name, q.owner, q.session, p);
      } else if q.phase == MakingDir {
        DirKeepsTickets(s.tree, q.name);
        NoNewTicketsKeepSpent(s.tree, d.tree, p);
      } else if q.phase == Withdrawing {
        WithdrawingAddsNothing(s.tree, PathOf(q));
        NoNewTicketsKeepSpent(s.tree, d.tree, p);
      }
    } else if a.Direct? {
      DirectKeepsTickets(s.tree, a.op);
      NoNewTicketsKeepSpent(s.tree, d.tree, p);
    }
  }

  lemma WithdrawingAddsNothing(t: Tree, p: Path)
    ensures NoNewTickets(t, Deleted(t, p, -1).0)
  {
    hide NoNewTickets;
    DirectKeepsTickets(t, H.Delete(p, -1));
  }

  /** A queue node that is gone stays away in every continuation, whoever took it away: its request, a release, a
      cleanup or a deletion. */
  lemma {:induction false} SpentForever(actions: seq<Action>, more: seq<Action>, p: Path)
    requires Orderly(actions + more) && Spent(Run(actions).tree, p)
    ensures Spent(Run(actions + more).tree, p)
  {
    hide Inv, Spent;
    if more == [] {
      assert actions + more == actions;
    } else {
      var front, a := actions + more[..|more| - 1], more[|more| - 1];
      assert (actions + more)[..|actions + more| - 1] == front && (actions + more)[|actions + more| - 1] == a;
      SpentForever(actions, more[..|more| - 1], p);
      RunKeepsInv(front);
      NextKeepsSpent(Run(front), a, p);
    }
  }

  /** Unlock, in its two steps: the record goes, then the node. */
  function Release(p: Path): seq<Action> {
    [Forget(p), Direct(H.Delete(p, -1))]
  }

  lemma RunRelease(actions: seq<Action>, p: Path)
    ensures Run(actions + Release(p)) == Next(Next(Run(actions), Forget(p)), Direct(H.Delete(p, -1)))
  {
    hide Next;
    var half, full := actions + [Forget(p)], actions + Release(p);
    assert half[..|half| - 1] == actions && full[..|full| - 1] == half;
  }

  lemma Released(s: System, r: nat)
    requires Inv(s) && r in s.requests && s.requests[r].ticket > 0
    ensures var p := PathOf(s.requests[r]);
            var d := Next(Next(s, Forget(p)), Direct(H.Delete(p, -1)));
            p !in d.locks && Spent(d.tree, p)
  {
    hide Inv, TicketName, Deleted, TreeOk, NoNewTickets;
    var q, p := s.requests[r], PathOf(s.requests[r]);
    InvRequest(s, r);
    DeletingTicket(s, p);
    assert p[1] == q.name && p == TicketPath(p[1], q.ticket);
  }

  /** A released request leaves no child and no record, and regains no child in any continuation, however many requests
      follow it. */
  lemma ReleaseIsFinal(actions: seq<Action>, more: seq<Action>, r: nat)
    requires Orderly(actions + more) && r in Run(actions).requests && Run(actions).requests[r].ticket > 0
    ensures var q := Run(actions).requests[r];
            && PathOf(q) !in Run(actions + Release(PathOf(q))).locks
            && !InDirectory(Run(actions + Release(PathOf(q)) + more).tree, q)
  {
    hide Inv, Run, Next, TicketName;
    var s := Run(actions);
    var q, p := s.requests[r], PathOf(s.requests[r]);
    var done := actions + Release(p);
    assert Orderly(actions) && Orderly(done + more) by {
      assert forall i :: 0 <= i < |actions| ==> actions[i] == (actions + more)[i];
      assert forall i :: 0 <= i < |more| ==> more[i] == (actions + more)[|actions| + i];
    }
    RunKeepsInv(actions);
    Released(s, r);
    RunRelease(actions, p);
    SpentForever(done, more, p);
    RunKeepsInv(done + more);
    InvTree(Run(done + more));
    InDirectoryIffStored(Run(done + more).tree, q);
  }
}

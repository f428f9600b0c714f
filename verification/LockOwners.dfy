/** Whose a lock is. In every orderly run the record of a lock and its queue node name the owner and the session of the
    call they were made for; so the reported holder is the owner of the lock, and the cleanup after a session releases
    its locks for good. */
module LockOwners {
  import opened Store
  import opened LockManager
  import opened LockQueue
  import opened LockCalls
  import H = StoreHistory

  /** What a step of the lock service does to the store. */
  ghost function OpOf(s: System, a: Action): Option<H.Op> {
    match a
    case Direct(op) => Some(op)
    case Step(r) =>
      if r !in s.requests then None else
        var q := s.requests[r];
        if q.phase == MakingDir then Some(H.Create(LockDir(q.name), "", false, "", false))
        else if q.phase == Queueing then Some(H.Create(LockDir(q.name) + [TICKET], q.owner, true, q.session, true))
        else if q.phase == Withdrawing then Some(H.Delete(PathOf(q), -1))
        else None
    case _ => None
  }

  /** The lock service changes the store by the operations of the store alone, one at a time. */
  lemma OneOpAtATime(s: System, a: Action)
    ensures Next(s, a).tree == match OpOf(s, a) case None => s.tree case Some(op) => H.Next(s.tree, op)
  {
    hide Checked, TicketPath, Created, Deleted, WaiterAdded, WaiterRemoved;
    if a.Step? && a.r in s.requests {
      StepOp(s, a.r);
    }
  }

  lemma StepOp(s: System, r: nat)
    requires r in s.requests
    ensures AfterStep(s, r, s.requests[r]).tree ==
              match OpOf(s, Step(r)) case None => s.tree case Some(op) => H.Next(s.tree, op)
  {
    hide Checked, TicketPath, Created, Deleted, WaiterAdded, WaiterRemoved;
    match s.requests[r].phase {
      case Calling =>
      case MakingDir =>
      case Queueing =>
      case Checking =>
      case Registering =>
      case Waiting =>
      case Rechecking =>
      case Granted =>
      case Recorded =>
      case Held =>
      case Withdrawing =>
      case Leaving =>
      case Gone =>
    }
  }

  /** Sequence numbers stay with the calls they were given to. */
  lemma IssuedStays(s: System, a: Action, k: nat)
    requires Inv(s) && k in s.issued && k <= s.tree.counter
    ensures k in Next(s, a).issued && Next(s, a).issued[k] == s.issued[k]
  {
    hide Inv, H.Next, AfterStep;
    if a.Step? && a.r in s.requests {
      StepIssues(s, a.r, k);
    }
  }

  lemma StepIssues(s: System, r: nat, k: nat)
    requires Inv(s) && r in s.requests && k in s.issued && k <= s.tree.counter
    ensures k in AfterStep(s, r, s.requests[r]).issued && AfterStep(s, r, s.requests[r]).issued[k] == s.issued[k]
  {
    hide Inv, Checked, TicketPath, Created, Deleted, WaiterAdded, WaiterRemoved;
    match s.requests[r].phase {
      case Calling =>
      case MakingDir =>
      case Queueing =>
        var q := s.requests[r];
        InvTree(s);
        QueuedTree(s.tree, q.name, q.owner, q.session);
      case Checking =>
      case Registering =>
      case Waiting =>
      case Rechecking =>
      case Granted =>
      case Recorded =>
      case Held =>
      case Withdrawing =>
      case Leaving =>
      case Gone =>
    }
  }

  /** Other users of the store neither create nor update queue nodes. */
  predicate HandsOff(op: H.Op) {
    OutsideQueues(op) && (op.Set? ==> !IsTicket(op.path))
  }

  ghost predicate AllHandsOff(actions: seq<Action>) {
    forall i :: 0 <= i < |actions| && actions[i].Direct? ==> HandsOff(actions[i].op)
  }

  /** The call a queue node was made for. */
  ghost function Maker(s: System, p: Path): Request
    requires Inv(s) && p in s.tree.nodes && IsTicket(p)
  {
    InvNode(s, p);
    s.requests[s.issued[s.tree.nodes[p].sequence]]
  }

  lemma MakerIs(s: System, p: Path, r: nat)
    requires Inv(s) && p in s.tree.nodes && IsTicket(p)
    requires r in s.requests && s.requests[r].ticket > 0 && PathOf(s.requests[r]) == p
    ensures Maker(s, p) == s.requests[r]
  {
    hide Inv, TicketPath;
    InvRequest(s, r);
    StoredTicket(s, s.requests[r].name, s.requests[r].ticket);
  }

  /** While a queue node is stored, it is the node of the same call. */
  lemma MakerStays(s: System, a: Action, p: Path)
    requires Inv(s) && Inv(Next(s, a)) && IsTicket(p) && p in s.tree.nodes && p in Next(s, a).tree.nodes
    ensures Terms(Maker(Next(s, a), p)) == Terms(Maker(s, p))
  {
    hide Inv, Next, TicketPath, Terms;
    var d := Next(s, a);
    var k, j := s.tree.nodes[p].sequence, d.tree.nodes[p].sequence;
    InvNode(s, p);
    InvNode(d, p);
    TicketPathInjective(p[1], k, p[1], j);
    IssuedStays(s, a, k);
    RequestStep(s, a, s.issued[k]);
  }

  predicate AboutToQueue(s: System, a: Action) {
    a.Step? && a.r in s.requests && s.requests[a.r].phase == Queueing
  }

  /** A step that queues nobody makes no queue node. */
  lemma NoTicketUnlessQueueing(s: System, a: Action)
    requires !AboutToQueue(s, a) && (a.Direct? ==> OutsideQueues(a.op))
    ensures NoNewTickets(s.tree, Next(s, a).tree)
  {
    hide H.Next, Next, TicketPath;
    OneOpAtATime(s, a);
    match OpOf(s, a) {
      case None =>
      case Some(op) => DirectKeepsTickets(s.tree, op);
    }
  }

  /** A new queue node is made for the call that is about to queue. */
  lemma MakerOfNew(s: System, a: Action, p: Path)
    requires Inv(s) && Inv(Next(s, a)) && AboutToQueue(s, a)
    requires IsTicket(p) && p !in s.tree.nodes && p in Next(s, a).tree.nodes
    ensures Terms(Maker(Next(s, a), p)) == Terms(s.requests[a.r])
  {
    hide Inv, Queued, TicketPath, Terms;
    var q := s.requests[a.r];
    InvTree(s);
    QueuedTree(s.tree, q.name, q.owner, q.session);
    RequestStep(s, a, a.r);
    var (t, queued) := Queued(s.tree, q.name, q.owner, q.session);
    assert queued.Ok? && p == TicketPath(q.name, t.counter) && t.nodes[p].sequence == t.counter;
    assert Next(s, a).issued[t.counter] == a.r;
  }

  /** Every queue node belongs to the session of its call. */
  ghost predicate SessionsOk(s: System)
    requires Inv(s)
  {
    forall p :: p in s.tree.nodes && IsTicket(p) ==> s.tree.nodes[p].session == Maker(s, p).session
  }

  /** Every queue node carries the owner of its call. */
  ghost predicate OwnersOk(s: System)
    requires Inv(s)
  {
    forall p :: p in s.tree.nodes && IsTicket(p) ==> s.tree.nodes[p].data == Maker(s, p).owner
  }

  lemma SessionStays(s: System, a: Action, p: Path)
    requires Inv(s) && Inv(Next(s, a)) && SessionsOk(s) && (a.Direct? ==> OutsideQueues(a.op))
    requires p in Next(s, a).tree.nodes && IsTicket(p)
    ensures Next(s, a).tree.nodes[p].session == Maker(Next(s, a), p).session
  {
    hide Inv, Next, H.Next, H.Makes, TicketPath, Maker;
    OneOpAtATime(s, a);
    if p in s.tree.nodes {
      MakerStays(s, a, p);
    } else {
      if !AboutToQueue(s, a) {
        NoTicketUnlessQueueing(s, a);
      }
      MakerOfNew(s, a, p);
    }
    match OpOf(s, a) {
      case None =>
      case Some(op) =>
        H.VersionStep(s.tree, op, p);
        H.KindStep(s.tree, op, p);
    }
  }

  lemma OwnerStays(s: System, a: Action, p: Path)
    requires Inv(s) && Inv(Next(s, a)) && OwnersOk(s) && (a.Direct? ==> HandsOff(a.op))
    requires p in Next(s, a).tree.nodes && IsTicket(p)
    ensures Next(s, a).tree.nodes[p].data == Maker(Next(s, a), p).owner
  {
    hide Inv, Next, H.Next, H.Makes, TicketPath, Maker;
    OneOpAtATime(s, a);
    if p in s.tree.nodes {
      MakerStays(s, a, p);
    } else {
      if !AboutToQueue(s, a) {
        NoTicketUnlessQueueing(s, a);
      }
      MakerOfNew(s, a, p);
    }
    match OpOf(s, a) {
      case None =>
      case Some(op) =>
        H.VersionStep(s.tree, op, p);
        H.DataStep(s.tree, op, p);
    }
  }

  lemma {:induction false} SessionsInEveryRun(actions: seq<Action>)
    requires Orderly(actions)
    ensures Inv(Run(actions)) && SessionsOk(Run(actions))
  {
    hide Inv, Next, Maker;
    RunKeepsInv(actions);
    if actions != [] {
      var front, a := actions[..|actions| - 1], actions[|actions| - 1];
      SessionsInEveryRun(front);
      forall p | p in Run(actions).tree.nodes && IsTicket(p)
        ensures Run(actions).tree.nodes[p].session == Maker(Run(actions), p).session
      {
        SessionStays(Run(front), a, p);
      }
    }
  }

  lemma {:induction false} OwnersInEveryRun(actions: seq<Action>)
    requires AllHandsOff(actions)
    ensures Orderly(actions) && Inv(Run(actions)) && OwnersOk(Run(actions))
  {
    hide Inv, Next, Maker;
    RunKeepsInv(actions);
    if actions != [] {
      var front, a := actions[..|actions| - 1], actions[|actions| - 1];
      OwnersInEveryRun(front);
      forall p | p in Run(actions).tree.nodes && IsTicket(p)
        ensures Run(actions).tree.nodes[p].data == Maker(Run(actions), p).owner
      {
        OwnerStays(Run(front), a, p);
      }
    }
  }

  // The table of locks.

  function LockOf(q: Request): Lock {
    Lock(q.name, q.owner, q.session, PathOf(q), q.ticket)
  }

  /** The record of a lock is that of the call its sequence number was given to. */
  ghost predicate RecordOk(s: System, p: Path)
    requires p in s.locks
  {
    var k := s.locks[p].sequence;
    && k > 0 && k in s.issued && s.issued[k] in s.requests
    && s.locks[p] == LockOf(s.requests[s.issued[k]]) && p == s.locks[p].path
  }

  lemma StepRecords(s: System, r: nat, p: Path)
    requires r in s.requests && p in AfterStep(s, r, s.requests[r]).locks
    ensures var q, locks := s.requests[r], AfterStep(s, r, s.requests[r]).locks;
            || (p in s.locks && locks[p] == s.locks[p])
            || (q.phase == Granted && p == PathOf(q) && locks[p] == LockOf(q))
  {
    hide Queued, Checked, TicketPath, Created, Deleted, WaiterAdded, WaiterRemoved;
    match s.requests[r].phase {
      case Calling =>
      case MakingDir =>
      case Queueing =>
      case Checking =>
      case Registering =>
      case Waiting =>
      case Rechecking =>
      case Granted =>
      case Recorded =>
      case Held =>
      case Withdrawing =>
      case Leaving =>
      case Gone =>
    }
  }

  lemma StepKeepsTicket(s: System, r: nat)
    requires Inv(s) && r in s.requests && s.requests[r].ticket > 0
    ensures r in AfterStep(s, r, s.requests[r]).requests
    ensures AfterStep(s, r, s.requests[r]).requests[r].ticket == s.requests[r].ticket
  {
    hide Inv, Queued, TicketPath, Created, Deleted, WaiterAdded, WaiterRemoved, Checked;
    InvRequest(s, r);
    match s.requests[r].phase {
      case Calling =>
      case MakingDir =>
      case Queueing =>
      case Checking =>
      case Registering =>
      case Waiting =>
      case Rechecking =>
      case Granted =>
      case Recorded =>
      case Held =>
      case Withdrawing =>
      case Leaving =>
      case Gone =>
    }
  }

  /** A queue node, once given to a call, is its queue node for good. */
  lemma TicketStays(s: System, a: Action, r: nat)
    requires Inv(s) && r in s.requests && s.requests[r].ticket > 0
    ensures r in Next(s, a).requests && LockOf(Next(s, a).requests[r]) == LockOf(s.requests[r])
  {
    hide Inv, H.Next, AfterStep, TicketPath;
    RequestStep(s, a, r);
    if a.Step? && a.r in s.requests {
      StepMovesOne(s, a.r);
      if a.r == r {
        StepKeepsTicket(s, r);
      }
    }
  }

  lemma NewRecord(s: System, a: Action, p: Path)
    requires p in Next(s, a).locks
    ensures || (p in s.locks && Next(s, a).locks[p] == s.locks[p])
            || (a.Step? && a.r in s.requests && s.requests[a.r].phase == Granted
                && p == PathOf(s.requests[a.r]) && Next(s, a).locks[p] == LockOf(s.requests[a.r]))
  {
    hide H.Next, AfterStep, TicketPath, LockOf;
    if a.Step? && a.r in s.requests {
      StepRecords(s, a.r, p);
    }
  }

  /** The record for a call, old or just made, is kept. */
  lemma RecordIsKept(s: System, a: Action, p: Path, r: nat)
    requires Inv(s) && p in Next(s, a).locks && r in s.requests && s.requests[r].ticket > 0
    requires Next(s, a).locks[p] == LockOf(s.requests[r]) && p == PathOf(s.requests[r])
    ensures RecordOk(Next(s, a), p)
  {
    hide Inv, Next, TicketPath;
    TicketStays(s, a, r);
    InvRequest(s, r);
    IssuedStays(s, a, s.requests[r].ticket);
  }

  lemma RecordStays(s: System, a: Action, p: Path)
    requires Inv(s) && p in Next(s, a).locks && (p in s.locks ==> RecordOk(s, p))
    ensures RecordOk(Next(s, a), p)
  {
    hide Inv, Next, TicketPath;
    NewRecord(s, a, p);
    if p in s.locks && Next(s, a).locks[p] == s.locks[p] {
      RecordIsKept(s, a, p, s.issued[s.locks[p].sequence]);
    } else {
      InvRequest(s, a.r);
      RecordIsKept(s, a, p, a.r);
    }
  }

  /** In every orderly run each recorded lock is that of the call its sequence number was given to. */
  lemma {:induction false} RecordsInEveryRun(actions: seq<Action>)
    requires Orderly(actions)
    ensures forall p :: p in Run(actions).locks ==> RecordOk(Run(actions), p)
  {
    hide Next, RecordOk, Inv;
    if actions != [] {
      var front, a := actions[..|actions| - 1], actions[|actions| - 1];
      RecordsInEveryRun(front);
      RunKeepsInv(front);
      forall p | p in Run(actions).locks ensures RecordOk(Run(actions), p) {
        RecordStays(Run(front), a, p);
      }
    }
  }

  lemma RecordIsOfMaker(actions: seq<Action>, p: Path)
    requires Orderly(actions) && LiveHolder(Run(actions), p)
    ensures Inv(Run(actions)) && IsTicket(p) && Run(actions).locks[p] == LockOf(Maker(Run(actions), p))
  {
    hide Inv, Run, TicketName, Maker;
    var s := Run(actions);
    RunKeepsInv(actions);
    RecordsInEveryRun(actions);
    assert RecordOk(s, p);
    MakerIs(s, p, s.issued[s.locks[p].sequence]);
  }

  /** Who is reported as the holder of a lock that has a live holder: the owner that lock was taken for, provided other
      users leave the queue nodes alone. */
  lemma HolderIsOwner(actions: seq<Action>, p: Path)
    requires AllHandsOff(actions) && BelowBound(Run(actions).tree) && LiveHolder(Run(actions), p)
    ensures var s := Run(actions); Holder(s.tree, s.locks[p].name) == Ok(s.locks[p].owner)
  {
    hide Inv, Run, Maker, Holder;
    OwnersInEveryRun(actions);
    RecordIsOfMaker(actions, p);
    HolderIsReported(actions, p);
  }

  /** The queue node of a call for this lock. */
  ghost predicate QueuedFor(t: Tree, name: string, p: Path) {
    p in t.nodes && IsTicket(p) && p[1] == name
  }

  /** The queue node with the lowest sequence number. */
  ghost predicate HeadOf(t: Tree, name: string, p: Path) {
    QueuedFor(t, name, p) && forall q :: QueuedFor(t, name, q) ==> t.nodes[p].sequence <= t.nodes[q].sequence
  }

  lemma FirstIsHead(s: System, name: string) returns (p: Path)
    requires Inv(s) && BelowBound(s.tree)
    requires LockDir(name) in s.tree.nodes && s.tree.nodes[LockDir(name)].children != []
    ensures HeadOf(s.tree, name, p) && Holder(s.tree, name) == Ok(s.tree.nodes[p].data)
  {
    hide Inv, TicketName, FirstName;
    var j := FirstChild(s, name);
    p := TicketPath(name, j);
    StoredTicket(s, name, j);
    assert LockDir(name) + [TicketName(j)] == p;
    forall q | QueuedFor(s.tree, name, q) ensures j <= s.tree.nodes[q].sequence {
      FirstHasLowestTicket(s, name, j, q);
    }
  }

  lemma QueueIsEmptyIff(s: System, name: string)
    requires Inv(s) && LockDir(name) in s.tree.nodes
    ensures s.tree.nodes[LockDir(name)].children == [] <==> forall p :: !QueuedFor(s.tree, name, p)
  {
    hide Inv, TicketName;
    InvTree(s);
    forall p | QueuedFor(s.tree, name, p) ensures s.tree.nodes[LockDir(name)].children != [] {
      InvNode(s, p);
      ListedInQueue(s, name, s.tree.nodes[p].sequence);
    }
    if s.tree.nodes[LockDir(name)].children != [] {
      var j := ChildTicket(s, name, s.tree.nodes[LockDir(name)].children[0]);
      assert QueuedFor(s.tree, name, TicketPath(name, j));
    }
  }

  /** Who is reported as the holder of a lock in any case: an error if the lock has no directory, nobody if no call is
      queued, and otherwise the owner of the call with the lowest sequence number. */
  lemma HolderInEveryRun(actions: seq<Action>, name: string)
    requires AllHandsOff(actions) && BelowBound(Run(actions).tree)
    ensures Inv(Run(actions))
    ensures var s := Run(actions);
            && (LockDir(name) !in s.tree.nodes ==> Holder(s.tree, name) == Err(NodeNotFound))
            && (LockDir(name) in s.tree.nodes && (forall p :: !QueuedFor(s.tree, name, p)) ==>
                  Holder(s.tree, name) == Ok(""))
            && (LockDir(name) in s.tree.nodes && (exists p :: QueuedFor(s.tree, name, p)) ==>
                  exists p :: HeadOf(s.tree, name, p) && Holder(s.tree, name) == Ok(Maker(s, p).owner))
  {
    hide Inv, Run, Maker, HeadOf;
    var s := Run(actions);
    OwnersInEveryRun(actions);
    if LockDir(name) in s.tree.nodes {
      QueueIsEmptyIff(s, name);
      if s.tree.nodes[LockDir(name)].children != [] {
        var p := FirstIsHead(s, name);
        HeadIsQueued(s.tree, name, p);
      }
    }
  }

  lemma HeadIsQueued(t: Tree, name: string, p: Path)
    requires HeadOf(t, name, p)
    ensures QueuedFor(t, name, p)
  {
  }

  /** The node of a recorded lock is an ephemeral node of the session that took the lock. */
  lemma LockIsOfSession(actions: seq<Action>, p: Path)
    requires Orderly(actions) && LiveHolder(Run(actions), p)
    ensures p in EphemeralsOf(Run(actions).tree, Run(actions).locks[p].session)
  {
    hide Inv, Run, Maker;
    RecordIsOfMaker(actions, p);
    SessionsInEveryRun(actions);
    InvNode(Run(actions), p);
  }

  /** The cleanup after a session releases every lock taken in it: none has a live holder then, in any continuation. */
  lemma CleanupReleases(actions: seq<Action>, session: string, more: seq<Action>, p: Path)
    requires Orderly(actions + [Direct(H.Cleanup(session))] + more)
    requires LiveHolder(Run(actions), p) && Run(actions).locks[p].session == session
    ensures !LiveHolder(Run(actions + [Direct(H.Cleanup(session))] + more), p)
  {
    hide Inv, Run, TicketName;
    var cleaned := actions + [Direct(H.Cleanup(session))];
    assert Orderly(actions) by {
      assert forall i :: 0 <= i < |actions| ==> actions[i] == (cleaned + more)[i];
    }
    LockIsOfSession(actions, p);
    RecordIsOfMaker(actions, p);
    InvNode(Run(actions), p);
    CleanedRun(actions, session);
    assert Spent(Run(cleaned).tree, p);
    SpentForever(cleaned, more, p);
  }

  /** It releases no lock of another session. */
  lemma CleanupSparesOthers(actions: seq<Action>, session: string, p: Path)
    requires Orderly(actions) && LiveHolder(Run(actions), p) && Run(actions).locks[p].session != session
    ensures LiveHolder(Run(actions + [Direct(H.Cleanup(session))]), p)
  {
    hide Run;
    LockIsOfSession(actions, p);
    CleanedRun(actions, session);
  }

  lemma CleanedRun(actions: seq<Action>, session: string)
    ensures var t, u := Run(actions).tree, Run(actions + [Direct(H.Cleanup(session))]).tree;
            u.counter == t.counter && u.nodes.Keys == t.nodes.Keys - EphemeralsOf(t, session)
    ensures Run(actions + [Direct(H.Cleanup(session))]).locks == Run(actions).locks
  {
    var cleaned := actions + [Direct(H.Cleanup(session))];
    assert cleaned[..|cleaned| - 1] == actions;
  }
}

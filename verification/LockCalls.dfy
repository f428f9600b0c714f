/** What a TryLock call does for its caller: how long it waits, when it gives up, and what it does when nobody disturbs
    it. */
module LockCalls {
  import opened Store
  import opened LockManager
  import opened LockQueue
  import H = StoreHistory

  // Timeouts.

  /** What a call was made with. */
  function Terms(q: Request): (string, string, string, int) {
    (q.name, q.owner, q.session, q.timeout)
  }

  lemma CheckMovesOne(s: System, r: nat, q: Request)
    ensures r in AfterCheck(s, r, q).requests && Terms(AfterCheck(s, r, q).requests[r]) == Terms(q)
    ensures AfterCheck(s, r, q).requests == s.requests[r := AfterCheck(s, r, q).requests[r]]
  {
    hide Checked, TicketPath;
    match Checked(s.tree, q.name, PathOf(q)) {
      case Err(_) =>
      case Ok(first) =>
    }
  }

  lemma StepMovesOne(s: System, r: nat)
    requires r in s.requests
    ensures r in AfterStep(s, r, s.requests[r]).requests
    ensures var d := AfterStep(s, r, s.requests[r]);
            d.requests == s.requests[r := d.requests[r]] && Terms(d.requests[r]) == Terms(s.requests[r])
  {
    hide Queued, TicketPath, Created, Deleted, WaiterAdded, WaiterRemoved, AfterCheck;
    match s.requests[r].phase {
      case Calling =>
      case MakingDir =>
      case Queueing =>
      case Checking => CheckMovesOne(s, r, s.requests[r]);
      case Registering =>
      case Waiting =>
      case Rechecking => CheckMovesOne(s, r, s.requests[r]);
      case Granted =>
      case Recorded =>
      case Held =>
      case Withdrawing =>
      case Leaving =>
      case Gone =>
    }
  }

  /** A call takes its steps alone, with the arguments it was made with. */
  lemma RequestStep(s: System, a: Action, r: nat)
    requires r in s.requests
    ensures r in Next(s, a).requests && Terms(Next(s, a).requests[r]) == Terms(s.requests[r])
    ensures Next(s, a).requests[r] == s.requests[r] || a in {Step(r), Wake(r), Expire(r)}
  {
    hide H.Next, AfterStep;
    if a.Step? && a.r in s.requests {
      StepMovesOne(s, a.r);
    }
  }

  lemma NewRequest(s: System, a: Action, r: nat)
    requires r !in s.requests && r in Next(s, a).requests
    ensures a.Call? && a.r == r
    ensures Next(s, a).requests[r] == Request(a.name, a.owner, a.session, a.timeout, Calling, 0, false)
  {
    hide H.Next, AfterStep;
    if a.Step? && a.r in s.requests {
      StepMovesOne(s, a.r);
    }
  }

  /** The node of a call that is about to look for the first time is not first. */
  ghost predicate NotFirst(s: System, q: Request) {
    q.phase == Checking && Checked(s.tree, q.name, PathOf(q)) == Ok(false)
  }

  /** A call that is about to look, for the first time or again, finds no directory. */
  ghost predicate NoDir(s: System, q: Request) {
    q.phase in {Checking, Rechecking} && LockDir(q.name) !in s.tree.nodes
  }

  lemma CheckPhase(s: System, r: nat, q: Request)
    requires r in s.requests && q == s.requests[r] && q.phase in {Checking, Rechecking}
    ensures var d := AfterCheck(s, r, q);
            && r in d.requests
            && (d.requests[r].phase == Withdrawing <==> NoDir(s, q) || (NotFirst(s, q) && q.timeout < 0))
            && (d.requests[r].phase == Registering <==> NotFirst(s, q) && q.timeout >= 0)
            && (d.requests[r].phase == Waiting ==> q.phase == Rechecking)
            && d.requests[r].phase != Rechecking
  {
    hide TicketPath, FirstName;
    match Checked(s.tree, q.name, PathOf(q)) {
      case Err(_) =>
      case Ok(first) =>
    }
  }

  /** Where a step leads a call. */
  lemma StepPhase(s: System, r: nat)
    requires r in s.requests
    ensures var q, d := s.requests[r], AfterStep(s, r, s.requests[r]);
            && r in d.requests
            && (d.requests[r].phase == Withdrawing <==> NoDir(s, q) || (NotFirst(s, q) && q.timeout < 0))
            && (d.requests[r].phase == Registering <==> NotFirst(s, q) && q.timeout >= 0)
            && (d.requests[r].phase in {Waiting, Rechecking} ==> q.phase in {Registering, Waiting, Rechecking})
  {
    hide Queued, Checked, TicketPath, Created, Deleted, WaiterAdded, WaiterRemoved, AfterCheck;
    match s.requests[r].phase {
      case Calling =>
      case MakingDir =>
      case Queueing =>
      case Checking => CheckPhase(s, r, s.requests[r]);
      case Registering =>
      case Waiting =>
      case Rechecking => CheckPhase(s, r, s.requests[r]);
      case Granted =>
      case Recorded =>
      case Held =>
      case Withdrawing =>
      case Leaving =>
      case Gone =>
    }
  }

  /** A call gives up exactly in three cases: its time is up while it waits; the directory of the lock is gone when it
      looks; or it is not first at its first look and was not to wait at all. */
  lemma WithdrawsIff(s: System, a: Action, r: nat)
    requires r in s.requests && r in Next(s, a).requests && s.requests[r].phase != Withdrawing
    ensures var q := s.requests[r];
            Next(s, a).requests[r].phase == Withdrawing <==>
              || (a == Expire(r) && q.phase == Waiting && q.timeout > 0)
              || (a == Step(r) && (NoDir(s, q) || (NotFirst(s, q) && q.timeout < 0)))
  {
    hide H.Next, AfterStep, NoDir, NotFirst;
    if a.Step? && a.r in s.requests {
      StepMovesOne(s, a.r);
      StepPhase(s, a.r);
    }
  }

  /** A call settles down to wait exactly when it is not first at its first look and may wait. */
  lemma WaitsIff(s: System, a: Action, r: nat)
    requires r in s.requests && r in Next(s, a).requests && s.requests[r].phase != Registering
    ensures Next(s, a).requests[r].phase == Registering <==>
              a == Step(r) && NotFirst(s, s.requests[r]) && s.requests[r].timeout >= 0
  {
    hide H.Next, AfterStep, NoDir, NotFirst;
    if a.Step? && a.r in s.requests {
      StepMovesOne(s, a.r);
      StepPhase(s, a.r);
    }
  }

  /** Only calls that may wait are waiting. */
  ghost predicate PatienceOk(s: System) {
    forall r :: r in s.requests && MayBeLong(s.requests[r].phase) ==> s.requests[r].timeout >= 0
  }

  predicate MayBeLong(phase: Phase) {
    phase in {Registering, Waiting, Rechecking}
  }

  lemma PatientBefore(s: System, a: Action, r: nat)
    requires r in s.requests && r in Next(s, a).requests && MayBeLong(Next(s, a).requests[r].phase)
    ensures MayBeLong(s.requests[r].phase) || s.requests[r].timeout >= 0
  {
    hide H.Next, AfterStep, NoDir, NotFirst;
    if a.Step? && a.r in s.requests {
      StepMovesOne(s, a.r);
      StepPhase(s, a.r);
    }
  }

  lemma NextKeepsPatience(s: System, a: Action)
    requires PatienceOk(s)
    ensures PatienceOk(Next(s, a))
  {
    hide Next;
    var d := Next(s, a);
    forall r | r in d.requests && MayBeLong(d.requests[r].phase) ensures d.requests[r].timeout >= 0 {
      if r in s.requests {
        RequestStep(s, a, r);
        PatientBefore(s, a, r);
      } else {
        NewRequest(s, a, r);
      }
    }
  }

  /** In every run a call with a negative timeout never waits. */
  lemma {:induction false} OnlyThePatientWait(actions: seq<Action>)
    ensures PatienceOk(Run(actions))
  {
    if actions != [] {
      OnlyThePatientWait(actions[..|actions| - 1]);
      NextKeepsPatience(Run(actions[..|actions| - 1]), actions[|actions| - 1]);
    }
  }

  /** In every run a call without a timeout gives up only because the directory of its lock is gone, and a call with a
      positive one only because of that or because its time is up. */
  lemma PatientGivesUpOnlyIf(actions: seq<Action>, a: Action, r: nat)
    requires r in Run(actions).requests && r in Next(Run(actions), a).requests
    requires Run(actions).requests[r].phase != Withdrawing && Next(Run(actions), a).requests[r].phase == Withdrawing
    ensures var q := Run(actions).requests[r];
            && (q.timeout == 0 ==> a == Step(r) && LockDir(q.name) !in Run(actions).tree.nodes)
            && (q.timeout > 0 ==> a == Expire(r) || (a == Step(r) && LockDir(q.name) !in Run(actions).tree.nodes))
  {
    hide Next, Run;
    WithdrawsIff(Run(actions), a, r);
  }

  // Undisturbed calls.

  ghost function Steps(s: System, r: nat, n: nat): System
    decreases n
  {
    if n == 0 then s else Steps(Next(s, Step(r)), r, n - 1)
  }

  lemma {:induction false} StepsSplit(s: System, r: nat, n: nat, m: nat)
    ensures Steps(s, r, n + m) == Steps(Steps(s, r, n), r, m)
    decreases n
  {
    if n > 0 {
      StepsSplit(Next(s, Step(r)), r, n - 1, m);
    }
  }

  lemma OneStep(s: System, r: nat)
    ensures Steps(s, r, 1) == Next(s, Step(r))
  {
    assert Steps(Next(s, Step(r)), r, 0) == Next(s, Step(r));
  }

  lemma Overwritten(requests: map<nat, Request>, r: nat, a: Request, b: Request)
    ensures requests[r := a][r := b] == requests[r := b]
  {
  }

  /** A call that has found or made the directory. */
  function Ready(s: System, r: nat, q: Request): System {
    With(s, r, q.(phase := Queueing)).(tree := DirEnsured(s.tree, q.name))
  }

  lemma ReachesQueue(s: System, r: nat) returns (n: nat)
    requires r in s.requests && s.requests[r].phase == Calling
    ensures Steps(s, r, n) == Ready(s, r, s.requests[r])
  {
    hide Created;
    var q := s.requests[r];
    var d := Next(s, Step(r));
    OneStep(s, r);
    if LockDir(q.name) in s.tree.nodes {
      n := 1;
    } else {
      n := 2;
      StepsSplit(s, r, 1, 1);
      OneStep(d, r);
      assert Next(d, Step(r)).requests == Ready(s, r, q).requests;
    }
  }

  /** The queue node of a call is there, and the call looks at the queue. */
  function Looking(s: System, r: nat, q: Request, t: Tree): System {
    With(s, r, q.(phase := Checking, ticket := t.counter)).(tree := t, issued := s.issued[t.counter := r])
  }

  lemma Queues(s: System, r: nat, q: Request)
    ensures var (t, queued) := Queued(DirEnsured(s.tree, q.name), q.name, q.owner, q.session);
            Next(Ready(s, r, q), Step(r)) ==
              if queued.Ok? then Looking(s, r, q, t) else With(s, r, q.(phase := Gone)).(tree := t)
  {
    hide Queued, DirEnsured;
    var (t, queued) := Queued(DirEnsured(s.tree, q.name), q.name, q.owner, q.session);
    Overwritten(s.requests, r, q.(phase := Queueing),
                if queued.Ok? then q.(phase := Checking, ticket := t.counter) else q.(phase := Gone));
  }

  /** A call that finds itself first records its lock and returns. */
  lemma TakesLock(s: System, r: nat)
    requires r in s.requests && s.requests[r].phase == Granted && !s.requests[r].waiting
    ensures var q := s.requests[r];
            Steps(s, r, 2) ==
              With(s, r, q.(phase := Held))
                .(locks := s.locks[PathOf(q) := Lock(q.name, q.owner, q.session, PathOf(q), q.ticket)])
  {
    hide TicketPath, Steps, AfterQueueing, AfterCheck, WaiterRemoved;
    var d := Next(s, Step(r));
    StepsSplit(s, r, 1, 1);
    OneStep(s, r);
    OneStep(d, r);
    Overwritten(s.requests, r, d.requests[r], Next(d, Step(r)).requests[r]);
  }

  /** A call that gives up deletes its node and returns. */
  lemma GivesUp(s: System, r: nat)
    requires r in s.requests && s.requests[r].phase == Withdrawing && !s.requests[r].waiting
    ensures var q := s.requests[r];
            Steps(s, r, 2) == With(s, r, q.(phase := Gone)).(tree := Deleted(s.tree, PathOf(q), -1).0)
  {
    hide TicketPath, Deleted, Steps, AfterQueueing, AfterCheck, WaiterRemoved;
    var d := Next(s, Step(r));
    StepsSplit(s, r, 1, 1);
    OneStep(s, r);
    OneStep(d, r);
    Overwritten(s.requests, r, d.requests[r], Next(d, Step(r)).requests[r]);
  }

  /** A call that is not first and may wait registers a wait channel. */
  lemma Registers(s: System, r: nat)
    requires r in s.requests && s.requests[r].phase == Registering
    ensures var q := s.requests[r];
            Steps(s, r, 1) ==
              With(s, r, q.(phase := Waiting, waiting := true)).(waiters := WaiterAdded(s.waiters, q.name, r))
  {
    hide WaiterAdded;
    OneStep(s, r);
  }

  lemma Looks(s: System, r: nat) returns (n: nat)
    requires r in s.requests && s.requests[r].phase == Checking && !s.requests[r].waiting
    requires LockDir(s.requests[r].name) in s.tree.nodes
    ensures r in Steps(s, r, n).requests
    ensures var q, d := s.requests[r], Steps(s, r, n);
            var p := PathOf(q);
            && PathOf(d.requests[r]) == p
            && if Checked(s.tree, q.name, p) == Ok(true) then
                 && d.requests[r].phase == Held && d.tree == s.tree && d.waiters == s.waiters
                 && d.locks == s.locks[p := Lock(q.name, q.owner, q.session, p, q.ticket)]
               else if q.timeout < 0 then
                 && d.requests[r].phase == Gone && d.tree == Deleted(s.tree, p, -1).0
                 && d.waiters == s.waiters && d.locks == s.locks
               else
                 && d.requests[r].phase == Waiting && d.tree == s.tree
                 && d.waiters == WaiterAdded(s.waiters, q.name, r) && d.locks == s.locks
  {
    hide TicketPath, Deleted, WaiterAdded, Steps, FirstName, AfterQueueing;
    var q := s.requests[r];
    var d := Next(s, Step(r));
    OneStep(s, r);
    if Checked(s.tree, q.name, PathOf(q)) == Ok(true) {
      n := 3;
      TakesLock(d, r);
    } else if q.timeout < 0 {
      n := 3;
      GivesUp(d, r);
    } else {
      n := 2;
      Registers(d, r);
    }
    StepsSplit(s, r, 1, n - 1);
  }

  /** Calls by one caller, with nobody in between. */
  ghost function Alone(r: nat, n: nat): seq<Action> {
    seq(n, _ => Step(r))
  }

  lemma {:induction false} AloneRuns(actions: seq<Action>, r: nat, n: nat)
    ensures Run(actions + Alone(r, n)) == Steps(Run(actions), r, n)
  {
    hide Next;
    if n == 0 {
      assert actions + Alone(r, 0) == actions;
    } else {
      var run := actions + Alone(r, n);
      AloneRuns(actions, r, n - 1);
      assert run[..|run| - 1] == actions + Alone(r, n - 1);
      StepsSplit(Run(actions), r, n - 1, 1);
      OneStep(Steps(Run(actions), r, n - 1), r);
    }
  }

  lemma ReachesLook(s: System, r: nat) returns (n: nat)
    requires r in s.requests && s.requests[r].phase == Calling
    ensures var q := s.requests[r];
            var (t, queued) := Queued(DirEnsured(s.tree, q.name), q.name, q.owner, q.session);
            Steps(s, r, n) == if queued.Ok? then Looking(s, r, q, t) else With(s, r, q.(phase := Gone)).(tree := t)
  {
    hide Steps, DirEnsured, Queued, Next, Looking;
    var q := s.requests[r];
    var k := ReachesQueue(s, r);
    Queues(s, r, q);
    OneStep(Ready(s, r, q), r);
    StepsSplit(s, r, k, 1);
    n := k + 1;
  }

  lemma TriedIs(t: Tree, locks: map<Path, Lock>, name: string, owner: string, session: string)
    ensures var (u, queued) := Queued(DirEnsured(t, name), name, owner, session);
            var p, tried := TicketPath(name, u.counter), Tried(t, locks, name, owner, session);
            if queued.Err? then tried == (u, locks, Failed(FromStore(queued.error))) else
              && LockDir(name) in u.nodes && p in u.nodes
              && tried == if Checked(u, name, p) == Ok(true) then
                            var lock := Lock(name, owner, session, p, u.counter);
                            (u, locks[p := lock], Done(lock))
                          else
                            (Deleted(u, p, -1).0, locks, Failed(Timeout))
  {
    hide DirEnsured, Queued, TicketName, FirstName, Deleted;
    var dir := DirEnsured(t, name);
    QueuedError(dir, name, owner, session);
    QueuedPath(dir, name, owner, session);
    if Queued(dir, name, owner, session).1.Ok? {
      QueuedShape(dir, name, owner, session);
    }
  }

  /** A call that nobody disturbs. With a negative timeout it returns with the lock or without it exactly as TryLockNow
      says. With another timeout it does the same when it is first in the queue; when it is not, it keeps its node, and
      waits with its channel registered behind those that were there before. */
  lemma UndisturbedCall(s: System, r: nat, name: string, owner: string, session: string, timeout: int) returns (n: nat)
    requires r !in s.requests
    ensures r in Steps(Next(s, Call(r, name, owner, session, timeout)), r, n).requests
    ensures var d := Steps(Next(s, Call(r, name, owner, session, timeout)), r, n);
            var (t, locks, outcome) := Tried(s.tree, s.locks, name, owner, session);
            && (timeout < 0 || outcome != Failed(Timeout) ==>
                  && d.requests[r].phase == (if outcome.Done? then Held else Gone)
                  && d.tree == t && d.locks == locks && d.waiters == s.waiters)
            && (timeout >= 0 && outcome == Failed(Timeout) ==>
                  && d.requests[r].phase == Waiting && d.locks == locks
                  && PathOf(d.requests[r]) in d.tree.nodes && Deleted(d.tree, PathOf(d.requests[r]), -1).0 == t
                  && WaitersOf(d.waiters, name) == WaitersOf(s.waiters, name) + [r]
                  && d.waiters - {name} == s.waiters - {name})
  {
    hide TicketPath, Deleted, Steps, Checked, DirEnsured, Queued, AfterStep, Tried;
    var q := Request(name, owner, session, timeout, Calling, 0, false);
    var c := Next(s, Call(r, name, owner, session, timeout));
    var (t, queued) := Queued(DirEnsured(s.tree, name), name, owner, session);
    TriedIs(s.tree, s.locks, name, owner, session);
    n := ReachesLook(c, r);
    if queued.Ok? {
      var j := Looks(Looking(c, r, q, t), r);
      StepsSplit(c, r, n, j);
      n := n + j;
    }
  }
}

/** The wait channels of the lock service: in every run a call has its channel registered exactly while it waits, and
    none is left behind when it returns. */
module LockWaiters {
  import opened Sequences
  import opened Store
  import opened LockManager
  import opened LockQueue

  /** Phases in which a channel may be registered, and those in which it must be. */
  ghost predicate PhaseOk(q: Request) {
    && (q.waiting ==> q.phase in {Waiting, Rechecking, Granted, Recorded, Withdrawing, Leaving})
    && (q.phase in {Waiting, Rechecking} ==> q.waiting)
  }

  /** The channels of a lock are those of its waiting requests, each once. */
  ghost predicate ListOk(s: System, name: string) {
    && Distinct(WaitersOf(s.waiters, name))
    && forall w :: w in WaitersOf(s.waiters, name) <==>
         w in s.requests && s.requests[w].waiting && s.requests[w].name == name
  }

  ghost predicate Inv(s: System) {
    (forall name :: ListOk(s, name)) && (forall r :: r in s.requests ==> PhaseOk(s.requests[r]))
  }

  /** What a step does to the part of the state that matters here. */
  datatype Effect = Nothing | Register | Unregister

  ghost predicate Does(s: System, d: System, r: nat, e: Effect)
    requires r in d.requests
  {
    var q := d.requests[r];
    && d.requests.Keys == s.requests.Keys + {r}
    && (forall k :: k in s.requests && k != r ==> d.requests[k] == s.requests[k])
    && (if r in s.requests then q.name == s.requests[r].name else !q.waiting && d.waiters == s.waiters)
    && PhaseOk(q)
    && (r in s.requests ==>
          match e
          case Nothing => q.waiting == s.requests[r].waiting && d.waiters == s.waiters
          case Register =>
            !s.requests[r].waiting && q.waiting && d.waiters == WaiterAdded(s.waiters, q.name, r)
          case Unregister => !q.waiting && d.waiters == Unregistered(s, r, s.requests[r]))
  }

  function EffectOf(phase: Phase): Effect {
    match phase
    case Registering => Register
    case Recorded => Unregister
    case Leaving => Unregister
    case _ => Nothing
  }

  lemma QueueingDoes(s: System, r: nat)
    requires r in s.requests && PhaseOk(s.requests[r]) && s.requests[r].phase == Queueing
    ensures r in AfterQueueing(s, r, s.requests[r]).requests
    ensures Does(s, AfterQueueing(s, r, s.requests[r]), r, Nothing)
  {
    hide Queued;
  }

  lemma CheckDoes(s: System, r: nat)
    requires r in s.requests && PhaseOk(s.requests[r]) && s.requests[r].phase in {Checking, Rechecking}
    ensures r in AfterCheck(s, r, s.requests[r]).requests
    ensures Does(s, AfterCheck(s, r, s.requests[r]), r, Nothing)
  {
    hide Checked, TicketPath, WaiterAdded, Unregistered;
    var q, d := s.requests[r], AfterCheck(s, r, s.requests[r]);
    assert d.requests == s.requests[r := d.requests[r]] && d.requests[r] == q.(phase := d.requests[r].phase);
  }

  lemma StepDoes(s: System, r: nat)
    requires Inv(s) && r in s.requests
    ensures r in AfterStep(s, r, s.requests[r]).requests
    ensures Does(s, AfterStep(s, r, s.requests[r]), r, EffectOf(s.requests[r].phase))
  {
    hide AfterQueueing, AfterCheck, Created, TicketPath, Deleted, Unregistered, ListOk;
    assert PhaseOk(s.requests[r]);
    if s.requests[r].phase == Queueing {
      QueueingDoes(s, r);
    } else if s.requests[r].phase in {Checking, Rechecking} {
      CheckDoes(s, r);
    }
  }

  lemma DoesKeeps(s: System, d: System, r: nat, e: Effect)
    requires Inv(s) && r in d.requests && Does(s, d, r, e)
    ensures Inv(d)
  {
    var q := d.requests[r];
    forall name ensures ListOk(d, name) {
      assert ListOk(s, name);
      if r in s.requests && name == q.name {
        RemovedDistinct(WaitersOf(s.waiters, name), r);
      }
    }
    forall k | k in d.requests ensures PhaseOk(d.requests[k]) {
      assert k == r || PhaseOk(s.requests[k]);
    }
  }

  lemma SameRequestsKeep(s: System, d: System)
    requires Inv(s) && d.requests == s.requests && d.waiters == s.waiters
    ensures Inv(d)
  {
    forall name ensures ListOk(d, name) {
      assert ListOk(s, name);
    }
  }

  lemma NextKeepsInv(s: System, a: Action)
    requires Inv(s)
    ensures Inv(Next(s, a))
  {
    hide Created, Checked, TicketPath, Deleted, ListOk, AfterStep, Does, Inv;
    var d := Next(s, a);
    match a {
      case Call(r, _, _, _, _) =>
        if r in s.requests {
          assert d == s;
        } else {
          CallDoes(s, a);
          DoesKeeps(s, d, r, Nothing);
        }
      case Step(r) =>
        if r in s.requests {
          StepDoes(s, r);
          DoesKeeps(s, d, r, EffectOf(s.requests[r].phase));
        } else {
          assert d == s;
        }
      case Wake(r) => PokeKeeps(s, a);
      case Expire(r) => PokeKeeps(s, a);
      case Forget(_) => SameRequestsKeep(s, d);
      case Direct(_) => SameRequestsKeep(s, d);
    }
  }

  lemma CallDoes(s: System, a: Action)
    requires a.Call? && a.r !in s.requests
    ensures a.r in Next(s, a).requests && Does(s, Next(s, a), a.r, Nothing)
  {
  }

  lemma PokeKeeps(s: System, a: Action)
    requires Inv(s) && (a.Wake? || a.Expire?)
    ensures Inv(Next(s, a))
  {
    hide ListOk;
    var d := Next(s, a);
    if a.r in s.requests {
      assert PhaseOk(s.requests[a.r]);
      assert Does(s, d, a.r, Nothing);
      DoesKeeps(s, d, a.r, Nothing);
    } else {
      assert d == s;
    }
  }

  lemma {:induction false} RunKeepsInv(actions: seq<Action>)
    ensures Inv(Run(actions))
  {
    if actions != [] {
      RunKeepsInv(actions[..|actions| - 1]);
      NextKeepsInv(Run(actions[..|actions| - 1]), actions[|actions| - 1]);
    }
  }

  /** A call that waits has its channel registered with its lock, and a call that has returned, with the lock or
      without it, has none registered anywhere. */
  lemma WaitersInEveryRun(actions: seq<Action>, r: nat, name: string)
    requires r in Run(actions).requests
    ensures var s := Run(actions);
            && Distinct(WaitersOf(s.waiters, name))
            && (s.requests[r].phase in {Waiting, Rechecking} ==>
                 (r in WaitersOf(s.waiters, name) <==> s.requests[r].name == name))
            && (s.requests[r].phase in {Held, Gone} ==> r !in WaitersOf(s.waiters, name))
  {
    hide Run;
    RunKeepsInv(actions);
    assert ListOk(Run(actions), name) && PhaseOk(Run(actions).requests[r]);
  }
}

/** Log Matching (section 5.3 of the Raft paper) over whole runs. The followers cut their logs unconditionally and
    accept stale and repeated requests; logs still match in every run in which each term is led at most once. None of
    the guards of election safety is used here. */
module RaftMatching {
  import opened RaftLog
  import opened RaftState
  import opened RaftNode
  import opened RaftCluster
  import opened RaftElection

  /** Every log there is: those of the nodes, and those that requests on their way were cut from. */
  function Logs(c: Cluster): set<seq<Entry>> {
    (set n | n in c.servers :: c.servers[n].view.log) + (set m | m in c.net && m.AppendAsked? :: m.origin)
  }

  function LedTerms(c: Cluster): set<nat> {
    set i | 0 <= i < |c.elections| :: c.elections[i].term
  }

  ghost predicate PairwiseMatching(logs: set<seq<Entry>>) {
    forall a, b :: a in logs && b in logs ==> Matching(a, b)
  }

  /** Entries are numbered by position and come from terms that have been led. */
  ghost predicate LogsOk(c: Cluster) {
    forall l :: l in Logs(c) ==> WellNumbered(l) && TermsAmong(l, LedTerms(c))
  }

  /** The request is cut from the log recorded as its origin. */
  ghost predicate RequestOk(m: Message) {
    m.AppendAsked? ==>
      && m.append.prevLogTerm == TermOf(m.origin, m.append.prevLogIndex)
      && m.append.entries == Suffix(m.origin, m.append.prevLogIndex)
  }

  /** A node that is leader has taken the leadership of its term, and no log holds an entry of that term at a
      position its own log has not reached. */
  ghost predicate LeaderOk(c: Cluster, n: string)
    requires n in c.servers
  {
    var v := c.servers[n].view;
    v.role == Leader ==>
      && Election(v.term, n) in c.elections
      && forall l: seq<Entry>, i: int :: l in Logs(c) && 0 <= i < |l| && l[i].term == v.term ==> i < |v.log|
  }

  /** Terms count from 1 once a node has campaigned. */
  ghost predicate ServerTermsOk(s: Server) {
    && (s.campaign.Running? ==> s.started != {})
    && (s.started != {} ==> s.view.term >= 1)
    && 0 !in s.started && 0 !in s.beats
  }

  ghost predicate MessageTermsOk(m: Message) {
    match m
    case VoteAsked(_, _, req) => req.term >= 1
    case VoteAnswered(_, _, asked, _) => asked >= 1
    case AppendAsked(_, _, append, _) => append.term >= 1
    case AppendAnswered(_, _, sent, _) => sent.term >= 1
  }

  ghost predicate TermsOk(c: Cluster) {
    && (forall n :: n in c.servers ==> ServerTermsOk(c.servers[n]))
    && (forall m :: m in c.net ==> MessageTermsOk(m))
    && (forall e :: e in c.elections ==> e.term >= 1 && e.winner in c.servers && c.servers[e.winner].started != {})
  }

  lemma ServerTermsStay(c: Cluster, a: Action, n: string)
    requires TermsOk(c) && n in c.servers
    ensures ServerTermsOk(Next(c, a).servers[n]) && c.servers[n].started <= Next(c, a).servers[n].started
  {
    assert ServerTermsOk(c.servers[n]);
  }

  lemma MessageTermsStay(c: Cluster, a: Action, m: Message)
    requires TermsOk(c) && m in Next(c, a).net && m !in c.net
    ensures MessageTermsOk(m)
  {
    if a.AskVote? || a.AskAppend? {
      assert ServerTermsOk(c.servers[a.n]);
    }
  }

  lemma ElectionTermsStay(c: Cluster, a: Action, e: Election)
    requires TermsOk(c) && e in Next(c, a).elections && e !in c.elections
    ensures e.term >= 1 && e.winner in c.servers && c.servers[e.winner].started != {}
  {
    assert a.Finish? && ServerTermsOk(c.servers[a.n]);
  }

  lemma NextKeepsTerms(c: Cluster, a: Action)
    requires TermsOk(c)
    ensures TermsOk(Next(c, a))
  {
    hide Next;
    var d := Next(c, a);
    NextKeepsMembers(c, a);
    forall n | n in d.servers ensures ServerTermsOk(d.servers[n]) {
      ServerTermsStay(c, a, n);
    }
    forall m | m in d.net ensures MessageTermsOk(m) {
      if m !in c.net {
        MessageTermsStay(c, a, m);
      }
    }
    forall e | e in d.elections ensures e.term >= 1 && e.winner in d.servers && d.servers[e.winner].started != {} {
      if e !in c.elections {
        ElectionTermsStay(c, a, e);
      }
      ServerTermsStay(c, a, e.winner);
    }
  }

  ghost predicate Inv(c: Cluster) {
    && TermsOk(c) && LogsOk(c) && PairwiseMatching(Logs(c))
    && (forall m :: m in c.net ==> RequestOk(m))
    && (forall n :: n in c.servers ==> LeaderOk(c, n))
  }

  lemma InitInv(ids: set<string>)
    ensures Inv(Init(ids))
  {
    forall l | l in Logs(Init(ids)) ensures l == [] {
    }
  }

  lemma LedTermsArePositive(c: Cluster, l: seq<Entry>, i: nat)
    requires TermsOk(c) && LogsOk(c) && l in Logs(c) && i < |l|
    ensures l[i].term >= 1
  {
    assert l[i].term in LedTerms(c);
    var k :| 0 <= k < |c.elections| && c.elections[k].term == l[i].term;
    assert c.elections[k] in c.elections;
  }

  /** Replication is exact: a request that is accepted and carries entries leaves the follower with the sender's log
      as it was when the request was built, and the splice it ignores the result of always succeeds. Without entries,
      or when refused, the log stays. */
  lemma AcceptedAppendIsExact(c: Cluster, m: Message)
    requires Inv(c) && Enabled(c, AnswerAppend(m))
    ensures var v := c.servers[m.to].view;
            var (w, resp) := OnAppendRequest(v, m.append);
            if resp.success && m.append.entries != []
            then m.append.prevLogIndex <= |v.log| && w.log == m.origin
            else w.log == v.log
  {
    var v, prev := c.servers[m.to].view, m.append.prevLogIndex;
    assert RequestOk(m) && v.log in Logs(c) && m.origin in Logs(c);
    if OnAppendRequest(v, m.append).1.success && m.append.entries != [] {
      if prev > 0 {
        LedTermsArePositive(c, m.origin, prev - 1);
      }
      SpliceRebuilds(v.log, m.origin, prev);
    }
  }

  /** A step that is no proposal leaves a log or turns it into the origin of the request it answers. */
  lemma StepOfLog(c: Cluster, a: Action, n: string)
    requires Inv(c) && !a.Propose? && n in c.servers
    ensures var d := Next(c, a);
            && n in d.servers
            && (d.servers[n].view.log == c.servers[n].view.log
                 || (a.AnswerAppend? && Enabled(c, a) && d.servers[n].view.log == a.m.origin))
  {
    hide Inv, Spliced;
    if a.AnswerAppend? && Enabled(c, a) {
      AcceptedAppendIsExact(c, a.m);
    }
  }

  /** A node leads as before, or because it has just been elected. */
  lemma StepOfRole(c: Cluster, a: Action, n: string)
    requires !a.Propose? && n in c.servers && Next(c, a).servers[n].view.role == Leader
    ensures var v, w, d := c.servers[n].view, Next(c, a).servers[n].view, Next(c, a);
            (v.role == Leader && w.term == v.term && w.log == v.log)
              || d.elections == c.elections + [Election(w.term, n)]
  {
    hide Spliced;
  }

  /** A leader only appends: as long as it stays leader, its log keeps everything it holds (section 5.3 of the Raft
      paper). This is so in every state, reachable or not. */
  lemma LeaderAppendOnly(c: Cluster, a: Action, n: string)
    requires n in c.servers && c.servers[n].view.role == Leader && Next(c, a).servers[n].view.role == Leader
    requires c.elections == Next(c, a).elections
    ensures c.servers[n].view.log <= Next(c, a).servers[n].view.log
            && c.servers[n].view.term == Next(c, a).servers[n].view.term
  {
    if !a.Propose? {
      StepOfRole(c, a, n);
    }
  }

  lemma StepOfNet(c: Cluster, a: Action, m: Message)
    requires m in Next(c, a).net && m !in c.net && m.AppendAsked?
    ensures a.AskAppend? && a.n in c.servers && m.origin == c.servers[a.n].view.log && RequestOk(m)
  {
  }

  /** All steps but a proposal leave every log among those there were. */
  lemma LogsDoNotGrow(c: Cluster, a: Action)
    requires Inv(c) && !a.Propose?
    ensures Logs(Next(c, a)) <= Logs(c)
  {
    hide Next;
    var d := Next(c, a);
    NextKeepsMembers(c, a);
    forall l | l in Logs(d) ensures l in Logs(c) {
      if n :| n in d.servers && d.servers[n].view.log == l {
        StepOfLog(c, a, n);
        assert c.servers[n].view.log in Logs(c);
        assert a.AnswerAppend? && Enabled(c, a) ==> a.m.origin in Logs(c);
      } else {
        var m :| m in d.net && m.AppendAsked? && m.origin == l;
        if m in c.net {
          assert m.origin in Logs(c);
        } else {
          StepOfNet(c, a, m);
          assert c.servers[a.n].view.log in Logs(c);
        }
      }
    }
  }

  lemma LedTermsGrow(c: Cluster, a: Action)
    ensures LedTerms(c) <= LedTerms(Next(c, a))
  {
    NextKeepsMembers(c, a);
    var d := Next(c, a);
    forall t | t in LedTerms(c) ensures t in LedTerms(d) {
      var i :| 0 <= i < |c.elections| && c.elections[i].term == t;
      assert d.elections[i].term == t;
    }
  }

  /** A leader after a step that is no proposal was leader before with the same log, or has just been elected. */
  lemma LeaderStays(c: Cluster, a: Action, n: string)
    requires Inv(c) && n in c.servers && !a.Propose?
    requires OneLeadershipPerTerm(Next(c, a).elections)
    ensures LeaderOk(Next(c, a), n)
  {
    hide Next;
    var d := Next(c, a);
    NextKeepsMembers(c, a);
    LogsDoNotGrow(c, a);
    assert LeaderOk(c, n);
    var v, w := c.servers[n].view, d.servers[n].view;
    if w.role == Leader {
      StepOfRole(c, a, n);
    }
    if w.role == Leader && !(v.role == Leader && w.term == v.term && w.log == v.log) {
      assert d.elections[|c.elections|] == Election(w.term, n);
      forall l: seq<Entry>, i: int | l in Logs(c) && 0 <= i < |l| ensures l[i].term != w.term {
        assert l[i].term in LedTerms(c);
        var k :| 0 <= k < |c.elections| && c.elections[k].term == l[i].term;
        assert d.elections[k].term != d.elections[|c.elections|].term;
      }
    }
  }

  lemma OtherStepKeeps(c: Cluster, a: Action)
    requires Inv(c) && !a.Propose? && OneLeadershipPerTerm(Next(c, a).elections)
    ensures Inv(Next(c, a))
  {
    hide Next;
    var d := Next(c, a);
    NextKeepsMembers(c, a);
    NextKeepsTerms(c, a);
    LogsDoNotGrow(c, a);
    LedTermsGrow(c, a);
    forall n | n in d.servers ensures LeaderOk(d, n) {
      LeaderStays(c, a, n);
    }
    forall m | m in d.net ensures RequestOk(m) {
      if m !in c.net && m.AppendAsked? {
        StepOfNet(c, a, m);
      }
    }
  }

  /** The log a proposal makes matches all others: nobody else holds an entry of the leader's term at its position. */
  lemma ProposalMatches(c: Cluster, n: string, e: Entry)
    requires Inv(c) && n in c.servers && c.servers[n].view.role == Leader && e.term == c.servers[n].view.term
    ensures PairwiseMatching(Logs(c) + {Pushed(c.servers[n].view.log, e)})
  {
    var log := c.servers[n].view.log;
    var pushed := Pushed(log, e);
    assert LeaderOk(c, n) && log in Logs(c);
    forall b | b in Logs(c) ensures Matching(pushed, b) && Matching(b, pushed) {
      assert Matching(log, b);
      MatchingPushed(log, b, e);
    }
  }

  lemma ProposalIsWellFormed(c: Cluster, n: string, e: Entry)
    requires Inv(c) && n in c.servers && c.servers[n].view.role == Leader && e.term == c.servers[n].view.term
    ensures WellNumbered(Pushed(c.servers[n].view.log, e)) && TermsAmong(Pushed(c.servers[n].view.log, e), LedTerms(c))
  {
    var v := c.servers[n].view;
    assert LeaderOk(c, n) && v.log in Logs(c);
    var k :| 0 <= k < |c.elections| && c.elections[k] == Election(v.term, n);
    assert e.term in LedTerms(c);
  }

  /** Two leaders are in different terms. */
  lemma LeadersAreApart(c: Cluster, n: string, k: string)
    requires Inv(c) && OneLeadershipPerTerm(c.elections) && n in c.servers && k in c.servers && n != k
    requires c.servers[n].view.role == Leader && c.servers[k].view.role == Leader
    ensures c.servers[n].view.term != c.servers[k].view.term
  {
    assert LeaderOk(c, n) && LeaderOk(c, k);
    var i :| 0 <= i < |c.elections| && c.elections[i] == Election(c.servers[n].view.term, n);
    var j :| 0 <= j < |c.elections| && c.elections[j] == Election(c.servers[k].view.term, k);
  }

  /** The cluster after a proposal to a leader. */
  function WithProposal(c: Cluster, n: string, e: Entry): Cluster
    requires n in c.servers
  {
    var s := c.servers[n];
    WithServer(c, n, s.(view := s.view.(log := Pushed(s.view.log, e))))
  }

  lemma ProposalAddsOneLog(c: Cluster, n: string, e: Entry)
    requires n in c.servers
    ensures Logs(WithProposal(c, n, e)) <= Logs(c) + {Pushed(c.servers[n].view.log, e)}
  {
    hide Pushed;
    var d := WithProposal(c, n, e);
    forall l | l in Logs(d) ensures l in Logs(c) + {Pushed(c.servers[n].view.log, e)} {
      if k :| k in d.servers && d.servers[k].view.log == l {
        assert c.servers[k].view.log in Logs(c);
      }
    }
  }

  lemma ProposalKeepsLeader(c: Cluster, n: string, e: Entry, k: string)
    requires Inv(c) && OneLeadershipPerTerm(c.elections) && n in c.servers && k in c.servers
    requires c.servers[n].view.role == Leader && e.term == c.servers[n].view.term
    ensures k in WithProposal(c, n, e).servers && LeaderOk(WithProposal(c, n, e), k)
  {
    hide Logs, Matching, WellNumbered, TermsAmong, TermsOk;
    ProposalAddsOneLog(c, n, e);
    assert LeaderOk(c, k) && LeaderOk(c, n);
    assert c.servers[n].view.log in Logs(c) by {
      LogIsAmongLogs(c, n);
    }
    if k != n && c.servers[k].view.role == Leader {
      LeadersAreApart(c, n, k);
    }
  }

  lemma LogIsAmongLogs(c: Cluster, n: string)
    requires n in c.servers
    ensures c.servers[n].view.log in Logs(c)
  {
  }

  lemma ProposeKeeps(c: Cluster, n: string, command: string)
    requires Inv(c) && OneLeadershipPerTerm(c.elections)
    ensures Inv(Next(c, Propose(n, command)))
  {
    hide Logs, Matching, WellNumbered, TermsAmong, TermsOk, LeaderOk, Pushed;
    var d := Next(c, Propose(n, command));
    NextKeepsTerms(c, Propose(n, command));
    if n in c.servers && c.servers[n].view.role == Leader {
      var e := Entry(0, c.servers[n].view.term, Command, command);
      assert d == WithProposal(c, n, e);
      ProposalMatches(c, n, e);
      ProposalIsWellFormed(c, n, e);
      ProposalAddsOneLog(c, n, e);
      assert LedTerms(d) == LedTerms(c);
      forall k | k in d.servers ensures LeaderOk(d, k) {
        ProposalKeepsLeader(c, n, e, k);
      }
    } else {
      assert d == c;
    }
  }

  lemma NextKeepsInv(c: Cluster, a: Action)
    requires Inv(c) && OneLeadershipPerTerm(Next(c, a).elections)
    ensures Inv(Next(c, a))
  {
    if a.Propose? {
      ProposeKeeps(c, a.n, a.command);
    } else {
      OtherStepKeeps(c, a);
    }
  }

  lemma {:induction false} RunKeepsInv(ids: set<string>, steps: seq<Action>)
    requires OneLeadershipPerTerm(Run(ids, steps).elections)
    ensures Inv(Run(ids, steps))
  {
    if steps == [] {
      InitInv(ids);
    } else {
      var front, a := steps[..|steps| - 1], steps[|steps| - 1];
      NextKeepsMembers(Run(ids, front), a);
      RunKeepsInv(ids, front);
      NextKeepsInv(Run(ids, front), a);
    }
  }

  /** Log Matching: in every run with at most one leadership per term, two logs that hold an entry of the same index
      and term are identical up to that index. */
  lemma LogMatching(ids: set<string>, steps: seq<Action>, n: string, k: string)
    requires n in ids && k in ids && OneLeadershipPerTerm(Run(ids, steps).elections)
    ensures var c := Run(ids, steps);
            n in c.servers && k in c.servers && Matching(c.servers[n].view.log, c.servers[k].view.log)
  {
    RunKeepsInv(ids, steps);
    RunKeepsMembers(ids, steps);
    var c := Run(ids, steps);
    assert c.servers[n].view.log in Logs(c) && c.servers[k].view.log in Logs(c);
  }

  /** Guarded runs have it without further ado. */
  lemma GuardedRunMatches(ids: set<string>, steps: seq<Action>, n: string, k: string)
    requires ValidIds(ids) && GuardedRun(ids, steps) && n in ids && k in ids
    ensures var c := Run(ids, steps);
            n in c.servers && k in c.servers && Matching(c.servers[n].view.log, c.servers[k].view.log)
  {
    ElectionSafety(ids, steps);
    LogMatching(ids, steps, n, k);
  }

  /** The exactness of replication in every reachable state. */
  lemma ReplicationIsExact(ids: set<string>, steps: seq<Action>, m: Message)
    requires OneLeadershipPerTerm(Run(ids, steps).elections) && Enabled(Run(ids, steps), AnswerAppend(m))
    ensures var v := Run(ids, steps).servers[m.to].view;
            var (w, resp) := OnAppendRequest(v, m.append);
            if resp.success && m.append.entries != []
            then m.append.prevLogIndex <= |v.log| && w.log == m.origin
            else w.log == v.log
  {
    RunKeepsInv(ids, steps);
    AcceptedAppendIsExact(Run(ids, steps), m);
  }
}

/** The votes of a sound run: every leader has been elected by a quorum of ballots that were cast on the log it started
    with, before anybody led the term. */
module RaftBallots {
  import opened RaftNode
  import opened RaftCommit
  import opened RaftCluster
  import opened RaftElection
  import opened RaftTrace
  import opened RaftReigns
  import M = RaftMatching

  /** What a ballot says of the candidate's log is at least as up to date as the voter's log. */
  predicate UpTo(x: Ballot) {
    x.lastTerm > LastTerm(x.held) || (x.lastTerm == LastTerm(x.held) && x.lastIndex >= |x.held|)
  }

  /** What is said of the log of a candidate is true as long as it is in that term and nobody leads it. */
  ghost predicate Describes(h: Trace, n: string, term: nat, lastIndex: nat, lastTerm: nat) {
    && n in h.c.servers && term <= h.c.servers[n].view.term
    && (h.c.servers[n].view.term == term && term !in h.reigns ==>
          lastIndex == |h.c.servers[n].view.log| && lastTerm == LastTerm(h.c.servers[n].view.log))
  }

  ghost predicate BallotOk(h: Trace, x: Ballot) {
    && x.voter in h.c.servers && x.term <= h.c.servers[x.voter].view.term
    && UpTo(x) && Chronicled(h.reigns, x.held)
    && Describes(h, x.candidate, x.term, x.lastIndex, x.lastTerm)
  }

  ghost predicate AskedOk(h: Trace, m: Message) {
    m.VoteAsked? ==> Describes(h, m.from, m.req.term, m.req.lastLogIndex, m.req.lastLogTerm)
  }

  ghost predicate StartedOk(h: Trace, n: string)
    requires n in h.c.servers
  {
    forall u :: u in h.c.servers[n].started ==> u <= h.c.servers[n].view.term
  }

  /** A vote of a term that nobody leads yet is on a ballot. */
  ghost predicate VoteOk(h: Trace, x: Vote) {
    || x.term in h.reigns
    || exists b :: b in h.ballots && b.voter == x.voter && b.term == x.term && b.candidate == x.candidate
  }

  /** Node `q` voted for the leader of a term, on the log that leader started with. */
  ghost predicate Elects(h: Trace, u: nat, q: string)
    requires u in h.reigns
  {
    exists x :: x in h.ballots && x.voter == q && x.term == u
                && x.lastIndex == h.reigns[u].start && x.lastTerm == LastTerm(Base(h.reigns[u]))
  }

  ghost function Electors(h: Trace, u: nat): set<string>
    requires u in h.reigns
  {
    set q | q in h.c.servers && Elects(h, u, q)
  }

  ghost predicate ReignElected(h: Trace, u: nat)
    requires u in h.reigns
  {
    |Electors(h, u)| >= VoteQuorum(|h.c.servers.Keys|)
  }

  ghost predicate VotesInv(h: Trace) {
    && (forall x :: x in h.ballots ==> BallotOk(h, x))
    && (forall m :: m in h.c.net ==> AskedOk(h, m))
    && (forall n :: n in h.c.servers ==> StartedOk(h, n))
    && (forall x :: x in h.c.votes ==> VoteOk(h, x))
    && (forall u :: u in h.reigns ==> ReignElected(h, u))
  }

  /** What the steps of a sound run may assume. */
  ghost predicate Step(h: Trace, a: Action) {
    && RaftReigns.Inv(h) && Ground(h.c) && Sound(h.c, a) && OneLeadershipPerTerm(Next(h.c, a).elections)
  }

  lemma StepGrows(h: Trace, a: Action)
    requires Step(h, a)
    ensures Grows(h.reigns, ReignsAfter(h, a)) && Next(h.c, a).servers.Keys == h.c.servers.Keys
    ensures h.ballots <= BallotsAfter(h, a) && h.stores <= StoresAfter(h, a)
  {
    hide Next;
    ReignsGrow(h, a);
    NextKeepsMembers(h.c, a);
  }

  lemma DescribesStays(h: Trace, a: Action, n: string, term: nat, lastIndex: nat, lastTerm: nat)
    requires Step(h, a) && Describes(h, n, term, lastIndex, lastTerm)
    ensures Describes(After(h, a), n, term, lastIndex, lastTerm)
  {
    hide Next, RaftElection.Inv, M.Inv, ReignsAfter, BallotsAfter, StoresAfter, Sound;
    var v, d := h.c.servers[n].view, After(h, a);
    StepGrows(h, a);
    LogStep(h.c, a, n);
    assert Guarded(h.c, a) by {
      SoundIsGuarded(h.c, a);
    }
    TermStep(h.c, a, n);
    assert NodeOk(h, n);
    if Writes(h.c, a, n) {
      WriterTakesTerm(h.c, a, n);
      assert RaftReigns.RequestOk(h.reigns, a.m);
    }
  }

  lemma SoundIsGuarded(c: Cluster, a: Action)
    requires Sound(c, a)
    ensures Guarded(c, a)
  {
  }

  lemma OldBallotStays(h: Trace, a: Action, x: Ballot)
    requires Step(h, a) && BallotOk(h, x)
    ensures BallotOk(After(h, a), x)
  {
    hide Next, RaftElection.Inv, M.Inv, ReignsAfter, BallotsAfter, StoresAfter, Sound, Chronicled;
    StepGrows(h, a);
    SoundIsGuarded(h.c, a);
    TermStep(h.c, a, x.voter);
    ChronicledStays(h.reigns, ReignsAfter(h, a), x.held);
    DescribesStays(h, a, x.candidate, x.term, x.lastIndex, x.lastTerm);
  }

  /** A new ballot: what it says, and that its term is led by nobody and not behind the voter's. */
  lemma NewBallot(h: Trace, a: Action, x: Ballot)
    requires Step(h, a) && VotesInv(h) && x in BallotsAfter(h, a) && x !in h.ballots
    ensures x.voter in h.c.servers && x.voter in Next(h.c, a).servers
    ensures x.held == h.c.servers[x.voter].view.log && x.term !in h.reigns && ReignsAfter(h, a) == h.reigns
    ensures h.c.servers[x.voter].view.term <= x.term <= Next(h.c, a).servers[x.voter].view.term
    ensures UpTo(x) && (a.StartCampaign? || Describes(h, x.candidate, x.term, x.lastIndex, x.lastTerm))
    ensures a.StartCampaign? ==> Describes(After(h, a), x.candidate, x.term, x.lastIndex, x.lastTerm)
  {
    hide RaftReigns.Inv, M.Inv, Sound;
    if a.AnswerVote? {
      VoteIsGrantedIff(h.c.servers[a.m.to].view, a.m.req);
      assert RaftElection.MessageOk(h.c, a.m) && AskedOk(h, a.m);
    }
  }

  lemma BallotStays(h: Trace, a: Action, x: Ballot)
    requires Step(h, a) && VotesInv(h) && x in BallotsAfter(h, a)
    ensures BallotOk(After(h, a), x)
  {
    hide Next, RaftElection.Inv, M.Inv, ReignsAfter, BallotsAfter, StoresAfter, Sound, Chronicled, UpTo, Describes;
    if x in h.ballots {
      OldBallotStays(h, a, x);
    } else {
      NewBallot(h, a, x);
      assert NodeOk(h, x.voter);
      if !a.StartCampaign? {
        DescribesStays(h, a, x.candidate, x.term, x.lastIndex, x.lastTerm);
      }
    }
  }

  lemma NewAsk(c: Cluster, a: Action, m: Message)
    requires m in Next(c, a).net && m !in c.net && m.VoteAsked?
    ensures a.AskVote? && Enabled(c, a) && Next(c, a).servers == c.servers
    ensures m == VoteAsked(a.n, a.peer, BuildVoteRequest(c.servers[a.n].view, a.n, a.term))
  {
  }

  lemma AskedStays(h: Trace, a: Action, m: Message)
    requires Step(h, a) && VotesInv(h) && m in Next(h.c, a).net
    ensures AskedOk(After(h, a), m)
  {
    hide Next, RaftElection.Inv, M.Inv, Sound, RaftReigns.Inv, BallotsAfter, StoresAfter;
    if m in h.c.net {
      hide Describes;
      assert AskedOk(h, m);
      if m.VoteAsked? {
        DescribesStays(h, a, m.from, m.req.term, m.req.lastLogIndex, m.req.lastLogTerm);
      }
    } else if m.VoteAsked? {
      NewAsk(h.c, a, m);
      assert StartedOk(h, a.n);
    }
  }

  lemma StartedStays(h: Trace, a: Action, n: string)
    requires Step(h, a) && VotesInv(h) && n in h.c.servers
    ensures n in After(h, a).c.servers && StartedOk(After(h, a), n)
  {
    StartedStep(h.c, a, n);
    hide Next, RaftElection.Inv, M.Inv, Sound, RaftReigns.Inv;
    SoundIsGuarded(h.c, a);
    TermStep(h.c, a, n);
    assert StartedOk(h, n);
  }

  lemma StartedStep(c: Cluster, a: Action, n: string)
    requires n in c.servers
    ensures n in Next(c, a).servers
    ensures forall u :: u in Next(c, a).servers[n].started ==>
              u in c.servers[n].started || u == Next(c, a).servers[n].view.term
  {
  }

  lemma NewVote(c: Cluster, a: Action, x: Vote)
    requires x in Next(c, a).votes && x !in c.votes
    ensures || (a.StartCampaign? && Enabled(c, a) && x == Vote(a.n, c.servers[a.n].view.term + 1, a.n))
            || (a.AnswerVote? && Votes(c, a, a.m.to) && x == Vote(a.m.to, a.m.req.term, a.m.req.candidateId))
  {
  }

  lemma VoteStays(h: Trace, a: Action, x: Vote)
    requires Step(h, a) && VotesInv(h) && x in Next(h.c, a).votes
    ensures VoteOk(After(h, a), x)
  {
    hide Next, RaftElection.Inv, M.Inv, Sound, RaftReigns.Inv, StoresAfter, ReignsAfter, BallotOk, AskedOk;
    StepGrows(h, a);
    if x in h.c.votes {
      assert VoteOk(h, x);
    } else if x.term !in h.reigns {
      NewVote(h.c, a, x);
      var v := h.c.servers[x.voter].view;
      if a.StartCampaign? {
        assert Ballot(a.n, x.term, a.n, v.log, |v.log|, LastTerm(v.log)) in BallotsAfter(h, a);
      } else {
        var req := a.m.req;
        assert Ballot(a.m.to, x.term, x.candidate, v.log, req.lastLogIndex, req.lastLogTerm) in BallotsAfter(h, a);
      }
    }
  }

  /** Whoever elected a leader goes on having done so. */
  lemma ElectorsStay(h: Trace, a: Action, u: nat)
    requires Step(h, a) && u in h.reigns && ReignElected(h, u)
    ensures u in ReignsAfter(h, a) && ReignElected(After(h, a), u)
  {
    hide Next, RaftElection.Inv, M.Inv, Sound, RaftReigns.Inv, BallotsAfter, StoresAfter, ReignsAfter;
    StepGrows(h, a);
    var d := After(h, a);
    assert Base(h.reigns[u]) == Base(d.reigns[u]) by {
      BaseStays(h, a, u);
    }
    forall q | q in Electors(h, u) ensures q in Electors(d, u) {
      assert Elects(h, u, q);
    }
    SubsetCardinality(Electors(h, u), Electors(d, u));
  }

  lemma BaseStays(h: Trace, a: Action, u: nat)
    requires Step(h, a) && u in h.reigns
    ensures u in ReignsAfter(h, a) && Base(ReignsAfter(h, a)[u]) == Base(h.reigns[u])
  {
    hide Next, RaftElection.Inv, M.Inv, Sound, ReignsAfter;
    StepGrows(h, a);
    assert ReignOk(h.reigns, u);
  }

  /** A new leader has been elected on the log it has. */
  lemma WinnerIsElected(h: Trace, a: Action)
    requires Step(h, a) && VotesInv(h) && a.Finish? && WinsNow(h.c, a, a.n)
    ensures h.c.servers[a.n].view.term in ReignsAfter(h, a) && ReignElected(After(h, a), h.c.servers[a.n].view.term)
  {
    hide Next, M.Inv;
    var n, v, d := a.n, h.c.servers[a.n].view, After(h, a);
    WinnerIsFirst(h, a, n);
    SoundIsGuarded(h.c, a);
    assert Obeys(h.c, a, WinsOwnTerm) && h.c.servers[n].campaign.term == v.term;
    WinnerHasQuorum(h.c, n);
    NextKeepsMembers(h.c, a);
    forall q | q in Voters(h.c, v.term, n) ensures q in Electors(d, v.term) {
      VoterElects(h, a, q);
    }
    SubsetCardinality(Voters(h.c, v.term, n), Electors(d, v.term));
  }

  lemma VoterElects(h: Trace, a: Action, q: string)
    requires VotesInv(h) && a.Finish? && WinsNow(h.c, a, a.n)
    requires h.c.servers[a.n].view.term !in h.reigns && Vote(q, h.c.servers[a.n].view.term, a.n) in h.c.votes
    ensures h.c.servers[a.n].view.term in ReignsAfter(h, a) && Elects(After(h, a), h.c.servers[a.n].view.term, q)
  {
    hide Next, Chronicled;
    var v := h.c.servers[a.n].view;
    assert VoteOk(h, Vote(q, v.term, a.n));
    var b :| b in h.ballots && b.voter == q && b.term == v.term && b.candidate == a.n;
    assert BallotOk(h, b);
    assert Base(ReignsAfter(h, a)[v.term]) == v.log;
    assert b in After(h, a).ballots;
  }

  lemma ReignElectedStays(h: Trace, a: Action, u: nat)
    requires Step(h, a) && VotesInv(h) && u in ReignsAfter(h, a)
    ensures ReignElected(After(h, a), u)
  {
    hide Next, RaftElection.Inv, M.Inv, Sound, RaftReigns.Inv, BallotsAfter, StoresAfter, ReignElected, After;
    if u in h.reigns {
      ElectorsStay(h, a, u);
    } else {
      WinnerIsElected(h, a);
    }
  }

  lemma VotesStay(h: Trace, a: Action)
    requires Step(h, a) && VotesInv(h)
    ensures VotesInv(After(h, a))
  {
    hide Next, Step, BallotOk, AskedOk, StartedOk, VoteOk, ReignElected, ReignsAfter, BallotsAfter, StoresAfter;
    var d := After(h, a);
    forall x | x in d.ballots ensures BallotOk(d, x) {
      BallotStays(h, a, x);
    }
    forall m | m in d.c.net ensures AskedOk(d, m) {
      AskedStays(h, a, m);
    }
    NextKeepsMembers(h.c, a);
    forall n | n in d.c.servers ensures StartedOk(d, n) {
      StartedStays(h, a, n);
    }
    forall x | x in d.c.votes ensures VoteOk(d, x) {
      VoteStays(h, a, x);
    }
    forall u | u in d.reigns ensures ReignElected(d, u) {
      ReignElectedStays(h, a, u);
    }
  }
}

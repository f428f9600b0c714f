/** Whom the nodes of a cluster take for their leader, in every run and without any guard. */
module RaftLeaders {
  import opened RaftLog
  import opened RaftState
  import opened RaftNode
  import opened RaftCluster
  import opened RaftCommit
  import E = RaftElection

  /** A leader names itself and a candidate nobody; whoever is named has won an election. */
  ghost predicate NamesOk(c: Cluster, n: string)
    requires n in c.servers
  {
    var v := c.servers[n].view;
    && (v.role == Leader ==> v.leaderId == n)
    && (v.role == Candidate ==> v.leaderId == "")
    && (v.leaderId != "" ==> EverLed(c, v.leaderId))
    && (c.servers[n].beats != {} ==> EverLed(c, n))
  }

  /** An append request names its sender, which has won an election. */
  ghost predicate SenderOk(c: Cluster, m: Message) {
    m.AppendAsked? ==> m.append.leaderId == m.from && EverLed(c, m.from)
  }

  ghost predicate LeadersOk(c: Cluster) {
    (forall n :: n in c.servers ==> NamesOk(c, n)) && (forall m :: m in c.net ==> SenderOk(c, m))
  }

  lemma LedStays(c: Cluster, a: Action, n: string)
    requires EverLed(c, n)
    ensures EverLed(Next(c, a), n)
  {
    hide Next;
    NextKeepsMembers(c, a);
    var i :| 0 <= i < |c.elections| && c.elections[i].winner == n;
    assert Next(c, a).elections[i].winner == n;
  }

  /** How the view of a node changes in a step, as far as names are concerned. */
  ghost predicate NamesMove(c: Cluster, a: Action, n: string, v: NodeView, w: NodeView) {
    || (w.role == v.role && w.leaderId == v.leaderId)
    || (w.role == Follower && w.leaderId in {"", v.leaderId})
    || (w.role == Candidate && w.leaderId == "")
    || (w.role == Follower && a.AnswerAppend? && Enabled(c, a) && w.leaderId == a.m.append.leaderId)
    || (w.role == Leader && w.leaderId == n && a == Finish(n) && Enabled(c, a) && Wins(c, c.servers[n].campaign))
  }

  lemma StepNames(c: Cluster, a: Action, n: string)
    requires n in c.servers
    ensures n in Next(c, a).servers && NamesMove(c, a, n, c.servers[n].view, Next(c, a).servers[n].view)
  {
    hide EverLed, AppliedUpTo, Handed, Choice, Read, Pushed, Spliced, Wins, UpToDate, Consistent, LastNew, AllSet;
    match a {
      case StartCampaign(_) =>
      case AskVote(_, _, _) =>
      case AnswerVote(_) =>
      case CountVote(_) =>
      case LoseVote(_, _) =>
      case Abandon(_) =>
      case Finish(_) =>
      case StartRound(_) =>
      case AskAppend(_, _, _) =>
      case AnswerAppend(_) =>
      case TakeAnswer(_) =>
      case Propose(_, _) =>
      case Advance(_, _) =>
      case Apply(_) =>
    }
  }

  lemma WinnerHasLed(c: Cluster, n: string)
    requires Enabled(c, Finish(n)) && Wins(c, c.servers[n].campaign)
    ensures EverLed(Next(c, Finish(n)), n)
  {
    assert Next(c, Finish(n)).elections[|c.elections|].winner == n;
  }

  lemma BeatsMove(c: Cluster, a: Action, n: string)
    requires n in c.servers
    ensures n in Next(c, a).servers
    ensures Next(c, a).servers[n].beats == c.servers[n].beats || EverLed(c, n)
  {
    hide EverLed, OnVoteRequest, OnAppendRequest, OnAppendResponse, AppliedUpTo, Handed, Choice, Read;
  }

  lemma NamesStay(c: Cluster, a: Action, n: string)
    requires LeadersOk(c) && n in c.servers
    ensures n in Next(c, a).servers && NamesOk(Next(c, a), n)
  {
    hide EverLed, Next, Wins;
    assert NamesOk(c, n);
    StepNames(c, a, n);
    BeatsMove(c, a, n);
    var named := c.servers[n].view.leaderId;
    if EverLed(c, named) {
      LedStays(c, a, named);
    }
    if EverLed(c, n) {
      LedStays(c, a, n);
    }
    if a.AnswerAppend? && Enabled(c, a) {
      assert SenderOk(c, a.m);
      LedStays(c, a, a.m.from);
    }
    if a == Finish(n) && Enabled(c, a) && Wins(c, c.servers[n].campaign) {
      WinnerHasLed(c, n);
    }
  }

  lemma SenderStays(c: Cluster, a: Action, m: Message)
    requires LeadersOk(c) && m in Next(c, a).net
    ensures SenderOk(Next(c, a), m)
  {
    hide EverLed, Handed, CommitAdvanced, Proposed, OnVoteRequest, OnAppendRequest, OnAppendResponse, Wins;
    if m in c.net {
      assert SenderOk(c, m);
      if m.AppendAsked? {
        LedStays(c, a, m.from);
      }
    } else if m.AppendAsked? {
      assert a.AskAppend? && NamesOk(c, a.n);
      LedStays(c, a, a.n);
    }
  }

  /** In every run a leader names itself, a candidate nobody, and whoever is named as leader has won an election. */
  lemma {:induction false} LeadersInEveryRun(ids: set<string>, steps: seq<Action>)
    ensures LeadersOk(Run(ids, steps))
  {
    hide Next, NamesOk, SenderOk;
    if steps == [] {
      NobodyAtFirst(ids);
    } else {
      var front, a := steps[..|steps| - 1], steps[|steps| - 1];
      var c := Run(ids, front);
      LeadersInEveryRun(ids, front);
      NextKeepsMembers(c, a);
      forall n | n in Next(c, a).servers ensures NamesOk(Next(c, a), n) {
        NamesStay(c, a, n);
      }
      forall m | m in Next(c, a).net ensures SenderOk(Next(c, a), m) {
        SenderStays(c, a, m);
      }
    }
  }

  lemma NobodyAtFirst(ids: set<string>)
    ensures LeadersOk(Init(ids))
  {
  }

  // Votes.

  /** The votes a campaign counts were given, by peers, to this candidate and in the term it campaigns in. */
  ghost predicate CampaignOk(c: Cluster, n: string)
    requires n in c.servers
  {
    var campaign := c.servers[n].campaign;
    campaign.Running? ==>
      && Vote(n, campaign.term, n) in c.votes
      && campaign.waiting <= Peers(c, n) && campaign.granted <= Peers(c, n)
      && forall p :: p in campaign.granted ==> Vote(p, campaign.term, n) in c.votes
  }

  /** A vote request names its sender, and an answer that grants the vote stands for a vote given. */
  ghost predicate BallotOk(c: Cluster, m: Message) {
    && (m.VoteAsked? ==> m.req.candidateId == m.from)
    && (m.VoteAnswered? && m.resp.granted ==> Vote(m.from, m.asked, m.to) in c.votes)
  }

  ghost predicate VotesOk(c: Cluster) {
    (forall n :: n in c.servers ==> CampaignOk(c, n)) && (forall m :: m in c.net ==> BallotOk(c, m))
  }

  lemma CampaignStays(c: Cluster, a: Action, n: string)
    requires VotesOk(c) && n in c.servers
    ensures n in Next(c, a).servers && CampaignOk(Next(c, a), n)
  {
    hide EverLed, AppliedUpTo, Handed, Choice, Read, OnVoteRequest, OnAppendRequest, OnAppendResponse, Wins;
    assert CampaignOk(c, n);
    NextKeepsMembers(c, a);
    if a.CountVote? && Enabled(c, a) {
      assert BallotOk(c, a.m);
    }
  }

  lemma BallotStays(c: Cluster, a: Action, m: Message)
    requires VotesOk(c) && m in Next(c, a).net
    ensures BallotOk(Next(c, a), m)
  {
    hide EverLed, AppliedUpTo, Handed, Choice, Read, OnVoteRequest, OnAppendRequest, OnAppendResponse, Wins;
    NextKeepsMembers(c, a);
    if m in c.net {
      assert BallotOk(c, m);
    } else if a.AnswerVote? {
      assert BallotOk(c, a.m);
    }
  }

  lemma {:induction false} VotesInEveryRun(ids: set<string>, steps: seq<Action>)
    ensures VotesOk(Run(ids, steps))
  {
    hide Next, CampaignOk, BallotOk;
    if steps == [] {
      NoVotesAtFirst(ids);
    } else {
      var front, a := steps[..|steps| - 1], steps[|steps| - 1];
      var c := Run(ids, front);
      VotesInEveryRun(ids, front);
      NextKeepsMembers(c, a);
      forall n | n in Next(c, a).servers ensures CampaignOk(Next(c, a), n) {
        CampaignStays(c, a, n);
      }
      forall m | m in Next(c, a).net ensures BallotOk(Next(c, a), m) {
        BallotStays(c, a, m);
      }
    }
  }

  lemma NoVotesAtFirst(ids: set<string>)
    ensures VotesOk(Init(ids))
  {
  }

  /** In every run a campaign that ends makes a leader exactly when the votes counted with its own are a quorum, and
      then as many members of the cluster have given it their vote of the term it campaigned in. Otherwise the candidate
      falls back. Term, vote and log stay as they are in either case. */
  lemma CampaignEnds(ids: set<string>, steps: seq<Action>, n: string)
    requires Enabled(Run(ids, steps), Finish(n))
    ensures n in Next(Run(ids, steps), Finish(n)).servers
    ensures var c, d := Run(ids, steps), Next(Run(ids, steps), Finish(n));
            var v, w, campaign := c.servers[n].view, d.servers[n].view, c.servers[n].campaign;
            && (w.role == Leader <==> |campaign.granted| >= |ids| / 2)
            && (w.role == Leader ==>
                  w.leaderId == n && d.elections == c.elections + [Election(v.term, n)]
                    && |E.Voters(c, campaign.term, n)| >= |ids| / 2 + 1)
            && (w.role != Leader ==> w == v.(role := Follower) && d.elections == c.elections)
            && w.term == v.term && w.votedFor == v.votedFor && w.log == v.log && d.servers[n].campaign == Idle
  {
    hide Run, EverLed, AllSet;
    var c := Run(ids, steps);
    var campaign := c.servers[n].campaign;
    RunKeepsMembers(ids, steps);
    VotesInEveryRun(ids, steps);
    assert CampaignOk(c, n);
    assert n !in campaign.granted;
    assert |campaign.granted + {n}| == |campaign.granted| + 1;
    SubsetCardinality(campaign.granted + {n}, E.Voters(c, campaign.term, n));
  }

  /** A candidate that takes the answer of a node in a later term than it asked in becomes a follower in that term. */
  lemma DeposedCandidateStepsDown(c: Cluster, m: Message)
    requires Enabled(c, AnswerVote(m)) && m.from in c.servers && c.servers[m.to].view.term > m.req.term
    ensures var answer := VoteAnswered(m.to, m.from, m.req.term, VoteResponse(c.servers[m.to].view.term, false));
            var d := Next(Next(c, AnswerVote(m)), CountVote(answer));
            && m.from in d.servers && d.servers[m.from].view.role == Follower
            && d.servers[m.from].view.term == c.servers[m.to].view.term
            && d.servers[m.from].view.log == c.servers[m.from].view.log
  {
  }

  /** So does a leader that takes the answer to an append request. */
  lemma DeposedSenderStepsDown(c: Cluster, m: Message)
    requires Enabled(c, AnswerAppend(m)) && m.from in c.servers && c.servers[m.to].view.term > m.append.term
    ensures var answer := AppendAnswered(m.to, m.from, m.append, OnAppendRequest(c.servers[m.to].view, m.append).1);
            var d := Next(Next(c, AnswerAppend(m)), TakeAnswer(answer));
            && m.from in d.servers && d.servers[m.from].view.role == Follower
            && d.servers[m.from].view.term == c.servers[m.to].view.term
            && d.servers[m.from].view.log == c.servers[m.from].view.log
  {
    hide EverLed, Spliced;
    DeposedLeaderStepsDown(c.servers[m.from].view, c.servers[m.to].view, m.to, m.append);
  }
}

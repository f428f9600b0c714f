/** Election safety: at most one leadership per term, in every run whose steps satisfy three guards. The handlers
    themselves do not enforce the guards; what happens without each of them is shown in RaftElectionRuns. */
module RaftElection {
  import opened RaftState
  import opened RaftNode
  import opened RaftCluster
  import opened RaftCommit

  /** First guard: a node whose vote field is empty although it has accepted a leader of this very term has
      forgotten whom it voted for, and is asked in that term again only by candidates its log is ahead of. */
  predicate VoteFieldIsTrue(v: NodeView, req: VoteRequest) {
    req.term == v.term && Blank(v) ==> Ahead(v.log, req)
  }

  /** The vote field is empty although a leader of the term is known. */
  predicate Blank(v: NodeView) {
    v.votedFor == "" && v.leaderId != ""
  }

  /** Third guard: an answer that demotes a node takes it to a newer term, or to its own term when it has neither
      voted nor accepted a leader there. */
  predicate AnswerIsFresh(v: NodeView, term: nat) {
    term > v.term || (term == v.term && v.votedFor == "" && v.leaderId == "")
  }

  datatype Guard =
    | VotesRemembered | WinsOwnTerm | AnswersFresh                                     // for election safety
    | RoundsAreCurrent | AnswersAreCurrent | LeadersCommit | NothingAgreedIsCut        // for what is committed

  const ELECTION := {VotesRemembered, WinsOwnTerm, AnswersFresh}

  /** Second guard, the one for a finished campaign: a winner still is in the term it campaigned in. The guards that
      election safety does not need: requests are built by the leader of their term; answers that carry a match index
      reach the leader of the term they were asked in; only leaders look for something to commit; and a request of the
      follower's own term does not cut off what lies behind entries it agrees with. */
  ghost predicate Obeys(c: Cluster, a: Action, g: Guard) {
    Enabled(c, a) ==>
      match g
      case VotesRemembered => a.AnswerVote? ==> VoteFieldIsTrue(c.servers[a.m.to].view, a.m.req)
      case WinsOwnTerm =>
        a.Finish? && Wins(c, c.servers[a.n].campaign) ==> c.servers[a.n].view.term == c.servers[a.n].campaign.term
      case AnswersFresh =>
        && (a.CountVote? && a.m.resp.term > a.m.asked ==> AnswerIsFresh(c.servers[a.m.to].view, a.m.resp.term))
        && (a.TakeAnswer? && a.m.result.term > a.m.sent.term ==> AnswerIsFresh(c.servers[a.m.to].view, a.m.result.term))
      case RoundsAreCurrent =>
        a.AskAppend? ==> c.servers[a.n].view.role == Leader && c.servers[a.n].view.term == a.term
      case AnswersAreCurrent =>
        a.TakeAnswer? && a.m.result.success && a.m.sent.entries != [] ==>
          c.servers[a.m.to].view.role == Leader && c.servers[a.m.to].view.term == a.m.sent.term
      case LeadersCommit => a.Advance? ==> c.servers[a.n].view.role == Leader
      case NothingAgreedIsCut =>
        a.AnswerAppend? && a.m.append.term == c.servers[a.m.to].view.term
        && Consistent(c.servers[a.m.to].view.log, a.m.append) ==>
          !EndsInside(c.servers[a.m.to].view.log, a.m.append)
  }

  ghost predicate Guarded(c: Cluster, a: Action) {
    Obeys(c, a, VotesRemembered) && Obeys(c, a, WinsOwnTerm) && Obeys(c, a, AnswersFresh)
  }

  /** Every step taken from `c` on obeys the guard. */
  ghost predicate Obeying(c: Cluster, steps: seq<Action>, g: Guard) {
    steps != [] ==>
      && Obeying(c, steps[..|steps| - 1], g)
      && Obeys(Exec(c, steps[..|steps| - 1]), steps[|steps| - 1], g)
  }

  ghost predicate GuardedRun(ids: set<string>, steps: seq<Action>) {
    && Obeying(Init(ids), steps, VotesRemembered)
    && Obeying(Init(ids), steps, WinsOwnTerm)
    && Obeying(Init(ids), steps, AnswersFresh)
  }

  /** Each term is led at most once, by one node. */
  ghost predicate OneLeadershipPerTerm(elections: seq<Election>) {
    forall i, j :: 0 <= i < j < |elections| ==> elections[i].term != elections[j].term
  }

  // What the guards protect, handler by handler.

  /** What a node may have promised in its current term survives: the term does not go back, and within the term
      neither a vote nor the knowledge that there is a leader disappears without a trace. */
  predicate KeepsPromise(v: NodeView, w: NodeView) {
    || v.term < w.term
    || (&& v.term == w.term
        && (v.votedFor != "" ==> w.votedFor == v.votedFor || Blank(w))
        && (Blank(v) ==> Blank(w)))
  }

  /** An answer from a newer term keeps the promise exactly when it is fresh. */
  lemma DemotionKeepsPromiseIffFresh(v: NodeView, term: nat)
    ensures KeepsPromise(v, Demoted(v, term, "")) <==> AnswerIsFresh(v, term)
  {
  }

  /** An append request keeps the recorded vote of the current term exactly when it comes from another term, or
      there is no vote to lose. */
  lemma AppendKeepsVoteIff(v: NodeView, req: AppendRequest)
    ensures (var w := OnAppendRequest(v, req).0; w.term == v.term ==> w.votedFor == v.votedFor)
            <==> req.term != v.term || v.votedFor == ""
  {
  }

  /** The first guard is exact for the handler of vote requests: a vote granted in the node's own term is the one on
      record again, or goes out while neither a vote nor a leader of the term is known, if and only if it is met. */
  lemma GrantIsFirstOrRepeatedIff(v: NodeView, req: VoteRequest)
    requires req.candidateId != ""
    ensures (OnVoteRequest(v, req).1.granted && req.term == v.term ==>
               v.votedFor == req.candidateId || (v.votedFor == "" && v.leaderId == ""))
            <==> VoteFieldIsTrue(v, req)
  {
  }

  /** The second guard is exact for a finished campaign: a winner leads the term its votes were given in if and only if
      it is met. */
  lemma WinnerLeadsItsTermIff(c: Cluster, n: string)
    requires Enabled(c, Finish(n)) && Wins(c, c.servers[n].campaign)
    ensures Next(c, Finish(n)).elections == c.elections + [Election(c.servers[n].campaign.term, n)]
            <==> Obeys(c, Finish(n), WinsOwnTerm)
  {
    var term := c.servers[n].view.term;
    assert (c.elections + [Election(term, n)])[|c.elections|] == Election(term, n);
  }

  // The invariant of guarded runs.

  /** The nodes that voted for a candidate in a term. */
  function Voters(c: Cluster, term: nat, candidate: string): set<string> {
    set n | n in c.servers && Vote(n, term, candidate) in c.votes
  }

  ghost predicate OneVotePerTerm(c: Cluster) {
    forall x, y :: x in c.votes && y in c.votes && x.voter == y.voter && x.term == y.term ==> x.candidate == y.candidate
  }

  /** A vote of the current term is on record, or a leader of the term is known. */
  ghost predicate VoteKnown(c: Cluster, x: Vote) {
    && x.voter in c.servers
    && var v := c.servers[x.voter].view;
       x.term <= v.term && (x.term == v.term ==> v.votedFor == x.candidate || Blank(v))
  }

  ghost predicate CampaignOk(c: Cluster, n: string, campaign: Campaign)
    requires n in c.servers
  {
    campaign.Running? ==>
      && campaign.term <= c.servers[n].view.term
      && n !in campaign.granted && campaign.waiting <= Peers(c, n)
      && Vote(n, campaign.term, n) in c.votes
      && (forall p :: p in campaign.granted ==> p in c.servers && Vote(p, campaign.term, n) in c.votes)
      && (forall e :: e in c.elections && e.winner == n ==> e.term < campaign.term)
  }

  ghost predicate MessageOk(c: Cluster, m: Message) {
    match m
    case VoteAsked(from, _, req) => from != "" && req.candidateId == from
    case VoteAnswered(from, to, asked, resp) =>
      resp.granted && resp.term <= asked ==> from in c.servers && Vote(from, asked, to) in c.votes
    case AppendAsked(from, _, append, _) => from != "" && append.leaderId == from
    case AppendAnswered(_, _, _, _) => true
  }

  ghost predicate ElectionOk(c: Cluster, e: Election) {
    && e.winner in c.servers
    && e.term <= c.servers[e.winner].view.term
    && |Voters(c, e.term, e.winner)| >= VoteQuorum(|c.servers.Keys|)
  }

  ghost predicate Inv(c: Cluster) {
    && "" !in c.servers
    && OneVotePerTerm(c)
    && (forall x :: x in c.votes ==> x.candidate != "" && VoteKnown(c, x))
    && (forall n :: n in c.servers ==> CampaignOk(c, n, c.servers[n].campaign))
    && (forall m :: m in c.net ==> MessageOk(c, m))
    && (forall e :: e in c.elections ==> ElectionOk(c, e))
    && OneLeadershipPerTerm(c.elections)
  }

  lemma InitInv(ids: set<string>)
    requires ValidIds(ids)
    ensures Inv(Init(ids))
  {
  }

  lemma VotersGrow(c: Cluster, d: Cluster, term: nat, candidate: string)
    requires c.servers.Keys == d.servers.Keys && c.votes <= d.votes
    ensures |Voters(c, term, candidate)| <= |Voters(d, term, candidate)|
  {
    SubsetCardinality(Voters(c, term, candidate), Voters(d, term, candidate));
  }

  /** A step that changes no more than one server, keeps its promise, gives no vote and elects nobody. */
  lemma QuietStep(c: Cluster, d: Cluster, n: string)
    requires Inv(c) && n in c.servers && d.servers.Keys == c.servers.Keys
    requires forall k :: k in c.servers && k != n ==> d.servers[k] == c.servers[k]
    requires d.votes == c.votes && d.elections == c.elections
    requires KeepsPromise(c.servers[n].view, d.servers[n].view)
    requires CampaignOk(d, n, d.servers[n].campaign)
    requires forall m :: m in d.net ==> m in c.net || MessageOk(d, m)
    ensures Inv(d)
  {
    forall x | x in d.votes ensures VoteKnown(d, x) {
      assert VoteKnown(c, x);
    }
    forall k | k in d.servers ensures CampaignOk(d, k, d.servers[k].campaign) {
      assert CampaignOk(c, k, c.servers[k].campaign);
    }
    forall e | e in d.elections ensures ElectionOk(d, e) {
      assert ElectionOk(c, e);
      VotersGrow(c, d, e.term, e.winner);
    }
    forall m | m in d.net ensures MessageOk(d, m) {
      assert m in c.net ==> MessageOk(c, m);
    }
  }

  /** A step in which server `n` gives the vote `x`, the first one of its term or the one on record again. */
  lemma VotingStep(c: Cluster, d: Cluster, n: string, x: Vote)
    requires Inv(c) && n in c.servers && d.servers.Keys == c.servers.Keys
    requires forall k :: k in c.servers && k != n ==> d.servers[k] == c.servers[k]
    requires x.voter == n && x.candidate != "" && d.votes == c.votes + {x} && d.elections == c.elections
    requires d.servers[n].view.term == x.term && d.servers[n].view.votedFor == x.candidate
    requires var v := c.servers[n].view;
             v.term < x.term || (v.term == x.term && !Blank(v) && (v.votedFor == "" || v.votedFor == x.candidate))
    requires CampaignOk(d, n, d.servers[n].campaign)
    requires forall m :: m in d.net ==> m in c.net || MessageOk(d, m)
    ensures Inv(d)
  {
    forall y | y in c.votes && y.voter == n && y.term == x.term ensures y.candidate == x.candidate {
      assert VoteKnown(c, y);
    }
    forall y | y in d.votes ensures y.candidate != "" && VoteKnown(d, y) {
      assert y == x || VoteKnown(c, y);
    }
    forall k | k in d.servers ensures CampaignOk(d, k, d.servers[k].campaign) {
      assert CampaignOk(c, k, c.servers[k].campaign);
    }
    forall e | e in d.elections ensures ElectionOk(d, e) {
      assert ElectionOk(c, e);
      VotersGrow(c, d, e.term, e.winner);
    }
    forall m | m in d.net ensures MessageOk(d, m) {
      assert m in c.net ==> MessageOk(c, m);
    }
  }

  lemma StartCampaignKeeps(c: Cluster, n: string)
    requires Inv(c) && Enabled(c, StartCampaign(n))
    ensures Inv(Next(c, StartCampaign(n)))
  {
    var d := Next(c, StartCampaign(n));
    var term := c.servers[n].view.term + 1;
    forall e | e in d.elections && e.winner == n ensures e.term < term {
      assert ElectionOk(c, e);
    }
    VotingStep(c, d, n, Vote(n, term, n));
  }

  lemma AnswerVoteKeeps(c: Cluster, m: Message)
    requires Inv(c) && Enabled(c, AnswerVote(m)) && Guarded(c, AnswerVote(m))
    ensures Inv(Next(c, AnswerVote(m)))
  {
    var d := Next(c, AnswerVote(m));
    var n, v := m.to, c.servers[m.to].view;
    assert MessageOk(c, m) && CampaignOk(c, n, c.servers[n].campaign);
    var (w, resp) := OnVoteRequest(v, m.req);
    if resp.granted {
      VotingStep(c, d, n, Vote(n, m.req.term, m.req.candidateId));
    } else {
      QuietStep(c, d, n);
    }
  }

  lemma CountVoteKeeps(c: Cluster, m: Message)
    requires Inv(c) && Enabled(c, CountVote(m)) && Guarded(c, CountVote(m))
    ensures Inv(Next(c, CountVote(m)))
  {
    var d := Next(c, CountVote(m));
    assert MessageOk(c, m) && CampaignOk(c, m.to, c.servers[m.to].campaign);
    QuietStep(c, d, m.to);
  }

  lemma AnswerAppendKeeps(c: Cluster, m: Message)
    requires Inv(c) && Enabled(c, AnswerAppend(m))
    ensures Inv(Next(c, AnswerAppend(m)))
  {
    var d := Next(c, AnswerAppend(m));
    assert MessageOk(c, m) && CampaignOk(c, m.to, c.servers[m.to].campaign);
    QuietStep(c, d, m.to);
  }

  lemma TakeAnswerKeeps(c: Cluster, m: Message)
    requires Inv(c) && Enabled(c, TakeAnswer(m)) && Guarded(c, TakeAnswer(m))
    ensures Inv(Next(c, TakeAnswer(m)))
  {
    var d := Next(c, TakeAnswer(m));
    assert CampaignOk(c, m.to, c.servers[m.to].campaign);
    QuietStep(c, d, m.to);
  }

  /** Two quorums of one term share a voter, who voted once. */
  lemma TwoWinnersAreOne(c: Cluster, term: nat, a: string, b: string)
    requires OneVotePerTerm(c)
    requires |Voters(c, term, a)| >= VoteQuorum(|c.servers.Keys|)
             && |Voters(c, term, b)| >= VoteQuorum(|c.servers.Keys|)
    ensures a == b
  {
    QuorumsMeet(c.servers.Keys, Voters(c, term, a), Voters(c, term, b));
    var p :| p in Voters(c, term, a) && p in Voters(c, term, b);
    assert Vote(p, term, a) in c.votes && Vote(p, term, b) in c.votes;
  }

  lemma WinnerHasQuorum(c: Cluster, n: string)
    requires Inv(c) && Enabled(c, Finish(n)) && Wins(c, c.servers[n].campaign)
    ensures |Voters(c, c.servers[n].campaign.term, n)| >= VoteQuorum(|c.servers.Keys|)
  {
    var campaign := c.servers[n].campaign;
    assert CampaignOk(c, n, campaign);
    SubsetCardinality(campaign.granted + {n}, Voters(c, campaign.term, n));
  }

  lemma FinishKeeps(c: Cluster, n: string)
    requires Inv(c) && Enabled(c, Finish(n)) && Guarded(c, Finish(n))
    ensures Inv(Next(c, Finish(n)))
  {
    var d := Next(c, Finish(n));
    if !Wins(c, c.servers[n].campaign) {
      QuietStep(c, d, n);
    } else {
      var term := c.servers[n].campaign.term;
      var between := d.(elections := c.elections);
      QuietStep(c, between, n);
      WinnerHasQuorum(c, n);
      assert CampaignOk(c, n, c.servers[n].campaign);
      forall e | e in c.elections ensures e.term != term {
        assert ElectionOk(c, e);
        if e.term == term {
          TwoWinnersAreOne(c, term, e.winner, n);
        }
      }
      assert Voters(d, term, n) == Voters(c, term, n);
      ElectedStep(between, d, n, term);
    }
  }

  lemma ElectedStep(c: Cluster, d: Cluster, n: string, term: nat)
    requires Inv(c) && d == c.(elections := c.elections + [Election(term, n)])
    requires n in c.servers && c.servers[n].view.term == term && c.servers[n].campaign.Idle?
    requires |Voters(d, term, n)| >= VoteQuorum(|c.servers.Keys|)
    requires forall e :: e in c.elections ==> e.term != term
    ensures Inv(d)
  {
    forall x | x in d.votes ensures VoteKnown(d, x) {
      assert VoteKnown(c, x);
    }
    forall k | k in d.servers ensures CampaignOk(d, k, d.servers[k].campaign) {
      assert CampaignOk(c, k, c.servers[k].campaign);
    }
    forall e | e in d.elections ensures ElectionOk(d, e) {
      if e in c.elections {
        assert ElectionOk(c, e);
        VotersGrow(c, d, e.term, e.winner);
      }
    }
    forall m | m in d.net ensures MessageOk(d, m) {
      assert MessageOk(c, m);
    }
  }

  lemma OtherStepKeeps(c: Cluster, a: Action)
    requires Inv(c) && Enabled(c, a)
    requires || a.AskVote? || a.LoseVote? || a.Abandon? || a.StartRound?
             || a.AskAppend? || a.Propose? || a.Advance? || a.Apply?
    ensures Inv(Next(c, a))
  {
    assert CampaignOk(c, a.n, c.servers[a.n].campaign);
    QuietStep(c, Next(c, a), a.n);
  }

  lemma NextKeepsInv(c: Cluster, a: Action)
    requires Inv(c) && Guarded(c, a)
    ensures Inv(Next(c, a))
  {
    if Enabled(c, a) {
      match a
      case StartCampaign(n) => StartCampaignKeeps(c, n);
      case AnswerVote(m) => AnswerVoteKeeps(c, m);
      case CountVote(m) => CountVoteKeeps(c, m);
      case Finish(n) => FinishKeeps(c, n);
      case AnswerAppend(m) => AnswerAppendKeeps(c, m);
      case TakeAnswer(m) => TakeAnswerKeeps(c, m);
      case _ => OtherStepKeeps(c, a);
    }
  }

  lemma {:induction false} GuardedRunKeepsInv(ids: set<string>, steps: seq<Action>)
    requires ValidIds(ids) && GuardedRun(ids, steps)
    ensures Inv(Run(ids, steps))
  {
    if steps == [] {
      InitInv(ids);
    } else {
      var front := steps[..|steps| - 1];
      GuardedRunKeepsInv(ids, front);
      NextKeepsInv(Run(ids, front), steps[|steps| - 1]);
    }
  }

  /** Election safety: with messages lost, repeated and reordered at will, a guarded run never has two leaderships
      in one term, neither of two nodes nor of one node twice. */
  lemma ElectionSafety(ids: set<string>, steps: seq<Action>)
    requires ValidIds(ids) && GuardedRun(ids, steps)
    ensures OneLeadershipPerTerm(Run(ids, steps).elections)
  {
    GuardedRunKeepsInv(ids, steps);
  }
}

/** A cluster of Raft nodes as a step machine. Handler bodies are atomic steps. The network is a growing set of
    messages, so that a message can be delivered late, again, or never. Nodes do not crash. */
module RaftCluster {
  import opened RaftLog
  import opened RaftState
  import opened RaftNode
  import opened RaftCommit

  /** The local variables of runCandidate: the term it campaigns in, the peers whose answer is still out, and the
      peers that granted their vote. */
  datatype Campaign = Idle | Running(term: nat, waiting: set<string>, granted: set<string>)

  datatype Server = Server(
    view: NodeView,
    campaign: Campaign,
    started: set<nat>,     // terms of all campaigns begun; their goroutines may still send
    beats: set<nat>,       // terms captured by heartbeat rounds; their goroutines may still send
    applied: seq<Entry>)   // history: what has been handed to the apply function

  datatype Message =
    | VoteAsked(from: string, to: string, req: VoteRequest)
    | VoteAnswered(from: string, to: string, asked: nat, resp: VoteResponse)
    | AppendAsked(from: string, to: string, append: AppendRequest, origin: seq<Entry>)  // origin: the sender's log
    | AppendAnswered(from: string, to: string, sent: AppendRequest, result: AppendResponse)

  datatype Vote = Vote(voter: string, term: nat, candidate: string)
  datatype Election = Election(term: nat, winner: string)

  /** `votes` and `elections` record every vote given and every leadership taken; no handler reads them. */
  datatype Cluster = Cluster(
    servers: map<string, Server>, net: set<Message>, votes: set<Vote>, elections: seq<Election>)

  datatype Action =
    | StartCampaign(n: string)
    | AskVote(n: string, peer: string, term: nat)
    | AnswerVote(m: Message)
    | CountVote(m: Message)
    | LoseVote(n: string, peer: string)
    | Abandon(n: string)
    | Finish(n: string)
    | StartRound(n: string)
    | AskAppend(n: string, peer: string, term: nat)
    | AnswerAppend(m: Message)
    | TakeAnswer(m: Message)
    | Propose(n: string, command: string)
    | Advance(n: string, order: seq<string>)
    | Apply(n: string)

  /** Node ids are distinct and not empty. */
  predicate ValidIds(ids: set<string>) {
    ids != {} && "" !in ids
  }

  function Init(ids: set<string>): Cluster {
    Cluster(map n | n in ids :: Server(INITIAL, Idle, {}, {}, []), {}, {}, [])
  }

  predicate EverLed(c: Cluster, n: string) {
    exists i :: 0 <= i < |c.elections| && c.elections[i].winner == n
  }

  function Peers(c: Cluster, n: string): set<string> {
    c.servers.Keys - {n}
  }

  /** Enough votes, the node's own included. */
  predicate Wins(c: Cluster, campaign: Campaign) {
    campaign.Running? && 1 + |campaign.granted| >= VoteQuorum(|c.servers.Keys|)
  }

  ghost predicate Enabled(c: Cluster, a: Action) {
    match a
    case StartCampaign(n) => n in c.servers && c.servers[n].campaign.Idle? && c.servers[n].view.role != Leader
    case AskVote(n, peer, term) => n in c.servers && peer in Peers(c, n) && term in c.servers[n].started
    case AnswerVote(m) => m in c.net && m.VoteAsked? && m.to in c.servers
    case CountVote(m) => m in c.net && m.VoteAnswered? && m.to in c.servers
    case LoseVote(n, peer) => n in c.servers && c.servers[n].campaign.Running?
    case Abandon(n) => n in c.servers && c.servers[n].campaign.Running?
    case Finish(n) => n in c.servers && c.servers[n].campaign.Running? && c.servers[n].campaign.waiting == {}
    case StartRound(n) => n in c.servers && EverLed(c, n)
    case AskAppend(n, peer, term) => n in c.servers && peer in Peers(c, n) && term in c.servers[n].beats
    case AnswerAppend(m) => m in c.net && m.AppendAsked? && m.to in c.servers
    case TakeAnswer(m) => m in c.net && m.AppendAnswered? && m.to in c.servers
    case Propose(n, _) => n in c.servers
    case Advance(n, order) => n in c.servers && EverLed(c, n) && IsOrder(order, c.servers[n].view.matchIndex.Keys)
    case Apply(n) => n in c.servers
  }

  function WithServer(c: Cluster, n: string, s: Server): Cluster {
    c.(servers := c.servers[n := s])
  }

  function Sent(c: Cluster, m: Message): Cluster {
    c.(net := c.net + {m})
  }

  /** BecomeCandidate and the vote for itself, as one step. */
  ghost function AfterStartCampaign(c: Cluster, n: string): Cluster
    requires Enabled(c, StartCampaign(n))
  {
    var s := c.servers[n];
    var view := Campaigning(s.view, n);
    var campaign := Running(view.term, Peers(c, n), {});
    WithServer(c, n, s.(view := view, campaign := campaign, started := s.started + {view.term}))
      .(votes := c.votes + {Vote(n, view.term, n)})
  }

  ghost function AfterAnswerVote(c: Cluster, m: Message): Cluster
    requires Enabled(c, AnswerVote(m))
  {
    var s := c.servers[m.to];
    var (view, resp) := OnVoteRequest(s.view, m.req);
    Sent(WithServer(c, m.to, s.(view := view)), VoteAnswered(m.to, m.from, m.req.term, resp))
      .(votes := if resp.granted then c.votes + {Vote(m.to, m.req.term, m.req.candidateId)} else c.votes)
  }

  /** Each peer is counted at most once, and only by the campaign that asked; a newer term demotes in any case. */
  ghost function AfterCountVote(c: Cluster, m: Message): Cluster
    requires Enabled(c, CountVote(m))
  {
    var s := c.servers[m.to];
    var asking := s.campaign.Running? && s.campaign.term == m.asked && m.from in s.campaign.waiting;
    var campaign :=
      if !asking then s.campaign
      else if m.resp.term <= m.asked && m.resp.granted then
        s.campaign.(waiting := s.campaign.waiting - {m.from}, granted := s.campaign.granted + {m.from})
      else
        s.campaign.(waiting := s.campaign.waiting - {m.from});
    var view := if m.resp.term > m.asked then Demoted(s.view, m.resp.term, "") else s.view;
    WithServer(c, m.to, s.(view := view, campaign := campaign))
  }

  /** All answers are in: lead in the current term, or fall back. */
  ghost function AfterFinish(c: Cluster, n: string): Cluster
    requires Enabled(c, Finish(n))
  {
    var s := c.servers[n];
    if Wins(c, s.campaign) then
      WithServer(c, n, s.(view := Promoted(s.view, n, Peers(c, n)), campaign := Idle))
        .(elections := c.elections + [Election(s.view.term, n)])
    else
      WithServer(c, n, s.(view := s.view.(role := Follower), campaign := Idle))
  }

  ghost function AfterAnswerAppend(c: Cluster, m: Message): Cluster
    requires Enabled(c, AnswerAppend(m))
  {
    var s := c.servers[m.to];
    var (view, resp) := OnAppendRequest(s.view, m.append);
    Sent(WithServer(c, m.to, s.(view := view)), AppendAnswered(m.to, m.from, m.append, resp))
  }

  /** One step of the cluster; a step that is not enabled changes nothing. */
  ghost function Next(c: Cluster, a: Action): Cluster {
    if !Enabled(c, a) then c else
      match a
      case StartCampaign(n) => AfterStartCampaign(c, n)
      case AskVote(n, peer, term) =>
        Sent(c, VoteAsked(n, peer, BuildVoteRequest(c.servers[n].view, n, term)))
      case AnswerVote(m) => AfterAnswerVote(c, m)
      case CountVote(m) => AfterCountVote(c, m)
      case LoseVote(n, peer) =>
        var s := c.servers[n];
        WithServer(c, n, s.(campaign := s.campaign.(waiting := s.campaign.waiting - {peer})))
      case Abandon(n) => WithServer(c, n, c.servers[n].(campaign := Idle))
      case Finish(n) => AfterFinish(c, n)
      case StartRound(n) =>
        var s := c.servers[n];
        WithServer(c, n, s.(beats := s.beats + {s.view.term}))
      case AskAppend(n, peer, term) =>
        Sent(c, AppendAsked(n, peer, BuildAppend(c.servers[n].view, n, peer, term), c.servers[n].view.log))
      case AnswerAppend(m) => AfterAnswerAppend(c, m)
      case TakeAnswer(m) =>
        var s := c.servers[m.to];
        WithServer(c, m.to, s.(view := OnAppendResponse(s.view, m.from, m.sent, m.result)))
      case Propose(n, command) =>
        var s := c.servers[n];
        WithServer(c, n, s.(view := Proposed(s.view, command)))
      case Advance(n, order) =>
        var s := c.servers[n];
        WithServer(c, n, s.(view := CommitAdvanced(s.view, order)))
      case Apply(n) =>
        var s := c.servers[n];
        WithServer(c, n, s.(view := AppliedPass(s.view), applied := s.applied + Handed(s.view)))
  }

  /** The state a sequence of steps leads to. Every prefix of a run is a run. */
  ghost function Exec(c: Cluster, steps: seq<Action>): Cluster {
    if steps == [] then c else Next(Exec(c, steps[..|steps| - 1]), steps[|steps| - 1])
  }

  ghost function Run(ids: set<string>, steps: seq<Action>): Cluster {
    Exec(Init(ids), steps)
  }

  lemma ExecSnoc(c: Cluster, steps: seq<Action>, a: Action)
    ensures Exec(c, steps + [a]) == Next(Exec(c, steps), a)
  {
    assert (steps + [a])[..|steps + [a]| - 1] == steps;
  }

  lemma {:induction false} ExecConcat(c: Cluster, first: seq<Action>, second: seq<Action>)
    ensures Exec(c, first + second) == Exec(Exec(c, first), second)
  {
    if second == [] {
      assert first + second == first;
    } else {
      var front := second[..|second| - 1];
      ExecConcat(c, first, front);
      assert first + second == first + front + [second[|second| - 1]];
      ExecSnoc(c, first + front, second[|second| - 1]);
    }
  }

  lemma NextKeepsMembers(c: Cluster, a: Action)
    ensures Next(c, a).servers.Keys == c.servers.Keys
    ensures c.votes <= Next(c, a).votes && c.net <= Next(c, a).net && c.elections <= Next(c, a).elections
  {
  }

  lemma {:induction false} RunKeepsMembers(ids: set<string>, steps: seq<Action>)
    ensures Run(ids, steps).servers.Keys == ids
  {
    if steps != [] {
      var front := steps[..|steps| - 1];
      RunKeepsMembers(ids, front);
      NextKeepsMembers(Run(ids, front), steps[|steps| - 1]);
    }
  }
}

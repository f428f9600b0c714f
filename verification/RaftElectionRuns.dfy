/** None of the three guards of election safety can be dropped: for each there is a run of three nodes that obeys
    the other two and has two leaders in one term. */
module RaftElectionRuns {
  import opened RaftLog
  import opened RaftState
  import opened RaftNode
  import opened RaftCluster
  import opened RaftElection

  const TRIO := {"a", "b", "c"}
  const FRESH := Server(INITIAL, Idle, {}, {}, [])

  /** The steps lead from the start of the trio to `d` and obey the guards in `gs`. */
  ghost predicate Leads(steps: seq<Action>, d: Cluster, gs: set<Guard>) {
    Run(TRIO, steps) == d && forall g :: g in gs ==> Obeying(Init(TRIO), steps, g)
  }

  /** From `d` to `e` only the servers named have changed, and no message is gone. */
  ghost predicate Only(d: Cluster, e: Cluster, names: set<string>) {
    && d.servers.Keys == e.servers.Keys == TRIO && d.net <= e.net
    && forall k :: k in TRIO && k !in names ==> e.servers[k] == d.servers[k]
  }

  lemma Extend(steps: seq<Action>, d: Cluster, gs: set<Guard>, a: Action) returns (longer: seq<Action>, e: Cluster)
    requires Leads(steps, d, gs) && forall g :: g in gs ==> Obeys(d, a, g)
    ensures longer == steps + [a] && e == Next(d, a) && Leads(longer, e, gs)
  {
    longer, e := steps + [a], Next(d, a);
    ExecSnoc(Init(TRIO), steps, a);
    assert longer[..|longer| - 1] == steps;
  }

  lemma Start(gs: set<Guard>) returns (d: Cluster)
    ensures Leads([], d, gs) && d.elections == [] && d.servers.Keys == TRIO
    ensures d.servers["a"] == FRESH && d.servers["b"] == FRESH && d.servers["c"] == FRESH
  {
    d := Init(TRIO);
  }

  /** Server `s` after it has begun a new campaign as node `n`. */
  function Standing(s: Server, n: string): Server {
    var term := s.view.term + 1;
    s.(view := Campaigning(s.view, n), campaign := Running(term, TRIO - {n}, {}), started := s.started + {term})
  }

  /** Node `n` times out, gives up a campaign that is still open, and begins a new one. */
  lemma Stand(steps: seq<Action>, d: Cluster, gs: set<Guard>, n: string) returns (longer: seq<Action>, e: Cluster)
    requires Leads(steps, d, gs) && d.servers.Keys == TRIO
    requires n in TRIO && d.servers[n].view.role != Leader
    ensures Leads(longer, e, gs) && Only(d, e, {n}) && e.elections == d.elections
    ensures e.servers[n] == Standing(d.servers[n], n)
  {
    hide Leads;
    longer, e := steps, d;
    if d.servers[n].campaign.Running? {
      longer, e := Extend(longer, e, gs, Abandon(n));
    }
    assert Peers(e, n) == TRIO - {n} by {
      assert e.servers.Keys == TRIO;
    }
    longer, e := Extend(longer, e, gs, StartCampaign(n));
  }

  /** Candidate `x` asks `y`, who grants; `z` does not answer. */
  lemma Canvass(steps: seq<Action>, d: Cluster, gs: set<Guard>, x: string, y: string, z: string, term: nat)
    returns (longer: seq<Action>, e: Cluster)
    requires Leads(steps, d, gs) && d.servers.Keys == TRIO
    requires TRIO == {x, y, z} && x != y && y != z && x != z
    requires d.servers[x].campaign == Running(term, {y, z}, {}) && term in d.servers[x].started
    requires OnVoteRequest(d.servers[y].view, BuildVoteRequest(d.servers[x].view, x, term)).1 ==
               VoteResponse(term, true)
    requires VotesRemembered in gs ==> VoteFieldIsTrue(d.servers[y].view, BuildVoteRequest(d.servers[x].view, x, term))
    ensures Leads(longer, e, gs) && Only(d, e, {x, y}) && e.elections == d.elections
    ensures e.servers[x] == d.servers[x].(campaign := Running(term, {}, {y}))
    ensures var asked := BuildVoteRequest(d.servers[x].view, x, term);
            e.servers[y] == d.servers[y].(view := OnVoteRequest(d.servers[y].view, asked).0)
  {
    hide Leads;
    var req := BuildVoteRequest(d.servers[x].view, x, term);
    longer, e := Extend(steps, d, gs, AskVote(x, y, term));
    longer, e := Extend(longer, e, gs, AnswerVote(VoteAsked(x, y, req)));
    longer, e := Counted(longer, e, gs, x, y, z, term);
  }

  lemma Counted(steps: seq<Action>, d: Cluster, gs: set<Guard>, x: string, y: string, z: string, term: nat)
    returns (longer: seq<Action>, e: Cluster)
    requires Leads(steps, d, gs) && d.servers.Keys == TRIO && x in TRIO && y != z
    requires d.servers[x].campaign == Running(term, {y, z}, {})
    requires VoteAnswered(y, x, term, VoteResponse(term, true)) in d.net
    ensures Leads(longer, e, gs) && Only(d, e, {x}) && e.elections == d.elections
    ensures e.servers[x] == d.servers[x].(campaign := Running(term, {}, {y}))
  {
    hide Leads;
    longer, e := Extend(steps, d, gs, CountVote(VoteAnswered(y, x, term, VoteResponse(term, true))));
    assert e.servers[x].campaign == Running(term, {z}, {y});
    longer, e := Extend(longer, e, gs, LoseVote(x, z));
    assert e.servers[x].campaign == Running(term, {}, {y});
  }

  /** One granted vote beside its own makes a leader among three. */
  lemma Lead(steps: seq<Action>, d: Cluster, gs: set<Guard>, x: string, y: string)
    returns (longer: seq<Action>, e: Cluster)
    requires Leads(steps, d, gs) && d.servers.Keys == TRIO
    requires x in TRIO && d.servers[x].campaign.Running?
    requires d.servers[x].campaign.waiting == {} && d.servers[x].campaign.granted == {y}
    requires WinsOwnTerm in gs ==> d.servers[x].view.term == d.servers[x].campaign.term
    ensures Leads(longer, e, gs) && Only(d, e, {x})
    ensures e.servers[x] == d.servers[x].(view := Promoted(d.servers[x].view, x, TRIO - {x}), campaign := Idle)
    ensures e.elections == d.elections + [Election(d.servers[x].view.term, x)]
  {
    hide Leads;
    longer, e := Extend(steps, d, gs, Finish(x));
  }

  /** A leader with an empty log sends a heartbeat, which is accepted. */
  lemma Heartbeat(steps: seq<Action>, d: Cluster, gs: set<Guard>, x: string, y: string)
    returns (longer: seq<Action>, e: Cluster)
    requires Leads(steps, d, gs) && d.servers.Keys == TRIO && gs <= ELECTION
    requires x in TRIO && y in TRIO && x != y && EverLed(d, x)
    requires d.servers[x].view.log == [] && Lookup(d.servers[x].view.nextIndex, y) == 1
    requires d.servers[x].view.commitIndex == 0 && d.servers[y].view.term == d.servers[x].view.term
    ensures Leads(longer, e, gs) && Only(d, e, {x, y}) && e.elections == d.elections
    ensures e.servers[x].view == d.servers[x].view
    ensures e.servers[y] == d.servers[y].(view := Demoted(d.servers[y].view, d.servers[x].view.term, x))
  {
    hide Leads;
    var v := d.servers[x].view;
    longer, e := Extend(steps, d, gs, StartRound(x));
    longer, e := Extend(longer, e, gs, AskAppend(x, y, v.term));
    longer, e := Extend(longer, e, gs, AnswerAppend(AppendAsked(x, y, BuildAppend(v, x, y, v.term), [])));
  }

  /** `a` leads term 1 with the vote of `b`, which its heartbeat has wiped out; `c` is still campaigning. */
  lemma VoteIsForgotten(gs: set<Guard>) returns (steps: seq<Action>, d: Cluster)
    requires gs <= ELECTION
    ensures Leads(steps, d, gs) && d.servers.Keys == TRIO && d.elections == [Election(1, "a")]
    ensures d.servers["a"].view.role == Leader && d.servers["a"].view.term == 1 && d.servers["a"].view.log == []
    ensures d.servers["b"].view == INITIAL.(term := 1, leaderId := "a")
    ensures d.servers["c"] == Standing(FRESH, "c")
  {
    hide Leads;
    d := Start(gs);
    steps, d := Stand([], d, gs, "a");
    steps, d := Stand(steps, d, gs, "c");
    assert d.servers["a"].campaign == Running(1, {"b", "c"}, {});
    steps, d := Canvass(steps, d, gs, "a", "b", "c", 1);
    assert d.servers["b"].view == INITIAL.(term := 1, votedFor := "a");
    steps, d := Lead(steps, d, gs, "a", "b");
    assert d.elections[0].winner == "a";
    steps, d := Heartbeat(steps, d, gs, "a", "b");
  }

  /** Without the first guard: `b` votes for `a`, hears from leader `a`, forgets its vote and votes for `c`. */
  lemma ForgottenVoteElectsTwo() returns (steps: seq<Action>, d: Cluster)
    ensures Leads(steps, d, {WinsOwnTerm, AnswersFresh}) && d.servers.Keys == TRIO
    ensures d.elections == [Election(1, "a"), Election(1, "c")]
    ensures d.servers["a"].view.role == Leader && d.servers["a"].view.term == 1 && d.servers["a"].view.log == []
    ensures d.servers["c"].view.role == Leader && d.servers["c"].view.term == 1 && d.servers["c"].view.log == []
  {
    hide Leads;
    var gs := {WinsOwnTerm, AnswersFresh};
    steps, d := VoteIsForgotten(gs);
    assert d.servers["c"].campaign == Running(1, {"b", "a"}, {});
    steps, d := Canvass(steps, d, gs, "c", "b", "a", 1);
    steps, d := Lead(steps, d, gs, "c", "b");
  }

  /** `a` has the votes to lead term 1, and `c` is campaigning in term 2. */
  lemma WinnerIsLate(gs: set<Guard>) returns (steps: seq<Action>, d: Cluster)
    ensures Leads(steps, d, gs) && d.servers.Keys == TRIO && d.elections == []
    ensures d.servers["a"] == Standing(FRESH, "a").(campaign := Running(1, {}, {"b"}))
    ensures d.servers["c"] == Standing(Standing(FRESH, "c"), "c")
  {
    hide Leads;
    d := Start(gs);
    steps, d := Stand([], d, gs, "a");
    assert d.servers["a"].campaign == Running(1, {"b", "c"}, {});
    steps, d := Canvass(steps, d, gs, "a", "b", "c", 1);
    steps, d := Stand(steps, d, gs, "c");
    steps, d := Stand(steps, d, gs, "c");
  }

  /** Without the second guard: `a` wins term 1 while it already votes for `c` in term 2, and then leads term 2 too. */
  lemma LateWinnerElectsTwo() returns (steps: seq<Action>, d: Cluster)
    ensures Leads(steps, d, {VotesRemembered, AnswersFresh})
    ensures d.elections == [Election(2, "c"), Election(2, "a")]
  {
    hide Leads;
    var gs := {VotesRemembered, AnswersFresh};
    steps, d := WinnerIsLate(gs);
    assert d.servers["c"].campaign == Running(2, {"a", "b"}, {});
    steps, d := Canvass(steps, d, gs, "c", "a", "b", 2);
    assert d.servers["a"].view.term == 2;
    steps, d := Lead(steps, d, gs, "c", "a");
    steps, d := Lead(steps, d, gs, "a", "b");
  }

  /** `c` answers the term-1 request of `b` from term 2, and that answer is delayed; `b` votes for `c` in term 2. */
  lemma LateAnswerIsOut(gs: set<Guard>) returns (steps: seq<Action>, d: Cluster)
    ensures Leads(steps, d, gs) && d.servers.Keys == TRIO && d.elections == [Election(2, "c")]
    ensures d.servers["a"] == FRESH
    ensures d.servers["b"].view == INITIAL.(term := 2, votedFor := "c")
    ensures VoteAnswered("c", "b", 1, VoteResponse(2, false)) in d.net
  {
    hide Leads;
    d := Start(gs);
    steps, d := Stand([], d, gs, "b");
    steps, d := Stand(steps, d, gs, "c");
    steps, d := Stand(steps, d, gs, "c");
    assert d.servers["b"] == Standing(FRESH, "b") && d.servers["c"] == Standing(Standing(FRESH, "c"), "c");
    steps, d := Refused(steps, d, gs);
    assert d.servers["c"].campaign == Running(2, {"b", "a"}, {});
    steps, d := Canvass(steps, d, gs, "c", "b", "a", 2);
    steps, d := Lead(steps, d, gs, "c", "b");
  }

  lemma Refused(steps: seq<Action>, d: Cluster, gs: set<Guard>) returns (longer: seq<Action>, e: Cluster)
    requires Leads(steps, d, gs) && d.servers.Keys == TRIO
    requires d.servers["b"] == Standing(FRESH, "b") && d.servers["c"] == Standing(Standing(FRESH, "c"), "c")
    ensures Leads(longer, e, gs) && Only(d, e, {}) && e.elections == d.elections
    ensures VoteAnswered("c", "b", 1, VoteResponse(2, false)) in e.net
  {
    hide Leads;
    longer, e := Extend(steps, d, gs, AskVote("b", "c", 1));
    longer, e := Extend(longer, e, gs, AnswerVote(VoteAsked("b", "c", BuildVoteRequest(d.servers["b"].view, "b", 1))));
  }

  /** Without the third guard: a late answer takes `b` from term 3 back to term 2, where it votes a second time. */
  lemma LateAnswerElectsTwo() returns (steps: seq<Action>, d: Cluster)
    ensures Leads(steps, d, {VotesRemembered, WinsOwnTerm})
    ensures d.elections == [Election(2, "c"), Election(2, "a")]
  {
    hide Leads;
    var gs := {VotesRemembered, WinsOwnTerm};
    steps, d := LateAnswerIsOut(gs);
    steps, d := Stand(steps, d, gs, "b");
    assert d.servers["b"].view.term == 3;
    steps, d := Extend(steps, d, gs, CountVote(VoteAnswered("c", "b", 1, VoteResponse(2, false))));
    assert d.servers["b"].view == INITIAL.(term := 2);
    steps, d := Stand(steps, d, gs, "a");
    steps, d := Stand(steps, d, gs, "a");
    assert d.servers["a"].campaign == Running(2, {"b", "c"}, {});
    steps, d := Canvass(steps, d, gs, "a", "b", "c", 2);
    steps, d := Lead(steps, d, gs, "a", "b");
  }

  /** Each guard is needed: the other two alone do not give election safety. */
  lemma EveryGuardIsNeeded(g: Guard)
    requires g in ELECTION
    ensures exists steps :: && (forall h :: h in ELECTION && h != g ==> Obeying(Init(TRIO), steps, h))
                            && !OneLeadershipPerTerm(Run(TRIO, steps).elections)
  {
    var steps, d;
    match g {
      case VotesRemembered => steps, d := ForgottenVoteElectsTwo();
      case WinsOwnTerm => steps, d := LateWinnerElectsTwo();
      case AnswersFresh => steps, d := LateAnswerElectsTwo();
    }
    assert d.elections[0].term == d.elections[1].term;
    assert forall h :: h in ELECTION && h != g ==> Obeying(Init(TRIO), steps, h);
  }

  /** Two leaderships in one term break Log Matching: both leaders propose, and the logs differ at index 1, term 1. */
  lemma TwoLeadersBreakMatching()
    ensures exists steps :: var c := Run(TRIO, steps);
                            "a" in c.servers && "c" in c.servers
                              && !Matching(c.servers["a"].view.log, c.servers["c"].view.log)
  {
    var steps, d := ForgottenVoteElectsTwo();
    var a, c := d.servers["a"].view, d.servers["c"].view;
    var gs := {};
    steps, d := Extend(steps, d, gs, Propose("a", "x"));
    steps, d := Extend(steps, d, gs, Propose("c", "y"));
    var l, k := [Entry(1, 1, Command, "x")], [Entry(1, 1, Command, "y")];
    assert d.servers["a"].view.log == l && d.servers["c"].view.log == k;
    assert l[0].term == k[0].term && l[..1][0] != k[..1][0];
  }
}

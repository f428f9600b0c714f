/** What the guards do not give, on one run of three nodes. With all guards but the one against cutting off what a
    request agrees with, an entry that has been committed is missing from the log of a later leader, two nodes apply
    different entries at one index, and the commit index of a follower goes back. With the guards of election safety
    alone, a leader holds a next index beyond the end of its log, whereupon a follower that lacks entries accepts. */
module RaftReplicationRuns {
  import opened RaftLog
  import opened RaftState
  import opened RaftNode
  import opened RaftCommit
  import opened RaftCluster
  import opened RaftElection
  import opened RaftElectionRuns
  import opened RaftReplication
  import opened RaftTrace

  const ALL := ELECTION + {RoundsAreCurrent, AnswersAreCurrent, LeadersCommit, NothingAgreedIsCut}
  const BUT_CUTS := ELECTION + {RoundsAreCurrent, AnswersAreCurrent, LeadersCommit}

  const X := Entry(1, 1, Command, "x")
  const Y := Entry(2, 1, Command, "y")
  const Z := Entry(3, 1, Command, "z")
  const W := Entry(2, 2, Command, "w")

  /** The steps obey the guards and lead to `d`, where the three nodes look as given. */
  ghost predicate At(steps: seq<Action>, d: Cluster, gs: set<Guard>, a: NodeView, b: NodeView, c: NodeView) {
    && Leads(steps, d, gs) && d.servers.Keys == TRIO
    && d.servers["a"].view == a && d.servers["b"].view == b && d.servers["c"].view == c
  }

  /** No message is gone, no leadership forgotten, and only the view of `n` may have changed. */
  ghost predicate Grown(d: Cluster, e: Cluster, n: string) {
    && d.servers.Keys == e.servers.Keys == TRIO && d.net <= e.net && d.elections == e.elections
    && forall k :: k in TRIO && k != n ==> e.servers[k].view == d.servers[k].view
  }

  /** All guards hold in the run but the one that requests cut off nothing they agree with. */
  ghost predicate SoundButForCuts(steps: seq<Action>) {
    forall g :: g != NothingAgreedIsCut ==> Obeying(Init(TRIO), steps, g)
  }

  lemma Fewer(steps: seq<Action>, d: Cluster, gs: set<Guard>, fewer: set<Guard>)
    requires Leads(steps, d, gs) && fewer <= gs
    ensures Leads(steps, d, fewer)
  {
  }

  // Pieces of a run.

  lemma Say(steps: seq<Action>, d: Cluster, gs: set<Guard>, n: string, command: string)
    returns (longer: seq<Action>, e: Cluster)
    requires Leads(steps, d, gs) && d.servers.Keys == TRIO && n in TRIO
    ensures Leads(longer, e, gs) && Grown(d, e, n) && e.servers[n].view == Proposed(d.servers[n].view, command)
  {
    hide Leads;
    longer, e := Extend(steps, d, gs, Propose(n, command));
  }

  /** Node `x`, which has led, sends to `y` what it holds for it. */
  lemma Send(steps: seq<Action>, d: Cluster, gs: set<Guard>, x: string, y: string)
    returns (longer: seq<Action>, e: Cluster, m: Message)
    requires Leads(steps, d, gs) && d.servers.Keys == TRIO && x in TRIO && y in TRIO && x != y && EverLed(d, x)
    requires RoundsAreCurrent in gs ==> d.servers[x].view.role == Leader
    ensures Leads(longer, e, gs) && Grown(d, e, "") && m in e.net
    ensures var v := d.servers[x].view; m == AppendAsked(x, y, BuildAppend(v, x, y, v.term), v.log)
  {
    hide Leads, BuildAppend;
    var v := d.servers[x].view;
    longer, e := Extend(steps, d, gs, StartRound(x));
    m := AppendAsked(x, y, BuildAppend(v, x, y, v.term), v.log);
    longer, e := Extend(longer, e, gs, AskAppend(x, y, v.term));
  }

  lemma Answer(steps: seq<Action>, d: Cluster, gs: set<Guard>, m: Message) returns (longer: seq<Action>, e: Cluster)
    requires Leads(steps, d, gs) && d.servers.Keys == TRIO && m in d.net && m.AppendAsked? && m.to in TRIO
    requires NothingAgreedIsCut in gs ==> !EndsInside(d.servers[m.to].view.log, m.append)
    ensures Leads(longer, e, gs) && Grown(d, e, m.to) && longer == steps + [AnswerAppend(m)]
    ensures var (w, resp) := OnAppendRequest(d.servers[m.to].view, m.append);
            e.servers[m.to].view == w && AppendAnswered(m.to, m.from, m.append, resp) in e.net
  {
    hide Leads, OnAppendRequest;
    longer, e := Extend(steps, d, gs, AnswerAppend(m));
  }

  lemma Take(steps: seq<Action>, d: Cluster, gs: set<Guard>, m: Message) returns (longer: seq<Action>, e: Cluster)
    requires Leads(steps, d, gs) && d.servers.Keys == TRIO && m in d.net && m.AppendAnswered? && m.to in TRIO
    requires m.result.term <= m.sent.term
    requires AnswersAreCurrent in gs ==> d.servers[m.to].view.role == Leader && d.servers[m.to].view.term == m.sent.term
    ensures Leads(longer, e, gs) && Grown(d, e, m.to)
    ensures e.servers[m.to].view == OnAppendResponse(d.servers[m.to].view, m.from, m.sent, m.result)
  {
    hide Leads, OnAppendResponse;
    longer, e := Extend(steps, d, gs, TakeAnswer(m));
  }

  lemma ChoiceOf(values: seq<nat>, sorted: seq<nat>)
    requires values != [] && Sorted(sorted) && multiset(values) == multiset(sorted)
    ensures |sorted| == |values| && Choice(values) == sorted[|values| / 2]
  {
    SortedCopyIsSorted(values);
    MiddleIsChoice(values, SortedCopy(values));
    MiddleIsChoice(values, sorted);
    ChoiceIsUnique(values, Choice(values), sorted[|values| / 2]);
  }

  /** The commit index after a check by `a`, whose match indexes and log length are given in ascending order. */
  function Advanced(v: NodeView, sorted: seq<nat>): NodeView
    requires |sorted| == 3
  {
    if sorted[1] > v.commitIndex && TermOf(v.log, sorted[1]) == v.term then v.(commitIndex := sorted[1]) else v
  }

  lemma ReadBoth(matches: map<string, nat>)
    requires matches.Keys == {"b", "c"}
    ensures IsOrder(["b", "c"], matches.Keys) && Read(matches, ["b", "c"]) == [matches["b"], matches["c"]]
  {
    assert ["b", "c"][1..] == ["c"] && Read(matches, ["c"]) == [matches["c"]];
  }

  lemma ChoiceOfThree(last: nat, matches: map<string, nat>, sorted: seq<nat>)
    requires matches.Keys == {"b", "c"} && |sorted| == 3 && Sorted(sorted)
    requires multiset(sorted) == multiset([last, matches["b"], matches["c"]])
    ensures IsOrder(["b", "c"], matches.Keys) && Choice([last] + Read(matches, ["b", "c"])) == sorted[1]
  {
    hide Choice, IsOrder, Read, Sorted;
    ReadBoth(matches);
    assert [last] + [matches["b"], matches["c"]] == [last, matches["b"], matches["c"]];
    ChoiceOf([last, matches["b"], matches["c"]], sorted);
  }

  lemma AdvancedIs(v: NodeView, sorted: seq<nat>)
    requires v.matchIndex.Keys == {"b", "c"} && |sorted| == 3 && Sorted(sorted)
    requires multiset(sorted) == multiset([|v.log|, v.matchIndex["b"], v.matchIndex["c"]])
    ensures IsOrder(["b", "c"], v.matchIndex.Keys) && CommitAdvanced(v, ["b", "c"]) == Advanced(v, sorted)
  {
    hide Choice, IsOrder, Read, Sorted, TermOf;
    ChoiceOfThree(|v.log|, v.matchIndex, sorted);
  }

  lemma Check(steps: seq<Action>, d: Cluster, gs: set<Guard>, sorted: seq<nat>)
    returns (longer: seq<Action>, e: Cluster)
    requires Leads(steps, d, gs) && d.servers.Keys == TRIO && EverLed(d, "a")
    requires LeadersCommit in gs ==> d.servers["a"].view.role == Leader
    requires d.servers["a"].view.matchIndex.Keys == {"b", "c"} && |sorted| == 3 && Sorted(sorted)
    requires var v := d.servers["a"].view;
             multiset(sorted) == multiset([|v.log|, v.matchIndex["b"], v.matchIndex["c"]])
    ensures Leads(longer, e, gs) && Grown(d, e, "a") && e.servers["a"].view == Advanced(d.servers["a"].view, sorted)
  {
    hide Leads, CommitAdvanced, Advanced, IsOrder;
    AdvancedIs(d.servers["a"].view, sorted);
    longer, e := Extend(steps, d, gs, Advance("a", ["b", "c"]));
  }

  /** Node `x` times out and leads the next term with the vote of `y`, whose term is behind it. */
  lemma Elect(steps: seq<Action>, d: Cluster, gs: set<Guard>, x: string, y: string, z: string, w: NodeView)
    returns (longer: seq<Action>, e: Cluster)
    requires Leads(steps, d, gs) && d.servers.Keys == TRIO == {x, y, z} && x != y && y != z && x != z
    requires d.servers[x].view.role != Leader && d.servers[y].view.term <= d.servers[x].view.term
    requires var v := Campaigning(d.servers[x].view, x);
             OnVoteRequest(d.servers[y].view, BuildVoteRequest(v, x, v.term)) == (w, VoteResponse(v.term, true))
    ensures Leads(longer, e, gs) && e.servers.Keys == TRIO && d.net <= e.net
    ensures e.servers[x].view == Promoted(Campaigning(d.servers[x].view, x), x, {y, z})
    ensures e.servers[y].view == w && e.servers[z].view == d.servers[z].view
    ensures e.elections == d.elections + [Election(d.servers[x].view.term + 1, x)]
  {
    hide Leads, OnVoteRequest, Promoted;
    var term := d.servers[x].view.term + 1;
    assert TRIO - {x} == {y, z};
    longer, e := Stand(steps, d, gs, x);
    longer, e := Canvass(longer, e, gs, x, y, z, term);
    longer, e := Lead(longer, e, gs, x, y);
  }

  // The run.

  /** Leader `a` of term 1 with a log and what it knows of the others. */
  function LeaderA(log: seq<Entry>, commit: nat, nextB: nat, nextC: nat, matchB: nat, matchC: nat): NodeView {
    NodeView(1, "a", log, Leader, "a", commit, 0, map["b" := nextB, "c" := nextC], map["b" := matchB, "c" := matchC])
  }

  /** A follower of `a` in term 1. */
  function Following(log: seq<Entry>, commit: nat): NodeView {
    NodeView(1, "", log, Follower, "a", commit, 0, map[], map[])
  }

  const VOTER := INITIAL.(term := 1, votedFor := "a")

  /** The two requests for the first entry, which are on their way for long. */
  function Early(peer: string): Message {
    AppendAsked("a", peer, AppendRequest(1, "a", 0, 0, [X], 0), [X])
  }

  function Asked(prev: nat, prevTerm: nat, entries: seq<Entry>, commit: nat): AppendRequest {
    AppendRequest(1, "a", prev, prevTerm, entries, commit)
  }

  /** `a` leads term 1. */
  lemma FirstLeader() returns (steps: seq<Action>, d: Cluster)
    ensures At(steps, d, ALL, LeaderA([], 0, 1, 1, 0, 0), VOTER, INITIAL) && d.elections == [Election(1, "a")]
  {
    hide Leads;
    d := Start(ALL);
    steps, d := Elect([], d, ALL, "a", "b", "c", VOTER);
  }

  /** It sends its first entry to both peers. */
  lemma FirstEntry() returns (steps: seq<Action>, d: Cluster)
    ensures At(steps, d, ALL, LeaderA([X], 0, 1, 1, 0, 0), VOTER, INITIAL) && d.elections == [Election(1, "a")]
    ensures Early("b") in d.net && Early("c") in d.net
  {
    hide Leads;
    steps, d := FirstLeader();
    assert d.elections[0].winner == "a";
    steps, d := Say(steps, d, ALL, "a", "x");
    assert d.servers["a"].view == LeaderA([X], 0, 1, 1, 0, 0);
    var m;
    steps, d, m := Send(steps, d, ALL, "a", "b");
    assert m == Early("b");
    steps, d, m := Send(steps, d, ALL, "a", "c");
    assert m == Early("c");
  }

  /** `a` sends `req` to `peer`, who makes of it what is given. */
  lemma Deliver(steps: seq<Action>, d: Cluster, gs: set<Guard>, peer: string, req: AppendRequest, w: NodeView)
    returns (longer: seq<Action>, e: Cluster)
    requires Leads(steps, d, gs) && d.servers.Keys == TRIO && peer in {"b", "c"} && EverLed(d, "a")
    requires d.servers["a"].view.term == 1 && BuildAppend(d.servers["a"].view, "a", peer, 1) == req
    requires d.servers["a"].view.role == Leader && !EndsInside(d.servers[peer].view.log, req)
    requires OnAppendRequest(d.servers[peer].view, req) == (w, AppendResponse(1, true))
    ensures Leads(longer, e, gs) && Grown(d, e, peer) && e.servers[peer].view == w
    ensures AppendAnswered(peer, "a", req, AppendResponse(1, true)) in e.net
  {
    hide Leads, OnAppendRequest, BuildAppend;
    var m;
    longer, e, m := Send(steps, d, gs, "a", peer);
    longer, e := Answer(longer, e, gs, m);
  }

  /** `c` stores two entries, and `a` knows it. */
  lemma TwoStored() returns (steps: seq<Action>, d: Cluster)
    ensures At(steps, d, ALL, LeaderA([X, Y], 0, 1, 3, 0, 2), VOTER, Following([X, Y], 0))
            && d.elections == [Election(1, "a")]
    ensures Early("b") in d.net && Early("c") in d.net
  {
    hide Leads, Spliced, OnAppendRequest, OnAppendResponse, BuildAppend;
    steps, d := FirstEntry();
    assert d.elections[0].winner == "a";
    steps, d := Say(steps, d, ALL, "a", "y");
    assert d.servers["a"].view == LeaderA([X, Y], 0, 1, 1, 0, 0);
    TwoEntriesAre();
    steps, d := Deliver(steps, d, ALL, "c", Asked(0, 0, [X, Y], 0), Following([X, Y], 0));
    steps, d := Take(steps, d, ALL, AppendAnswered("c", "a", Asked(0, 0, [X, Y], 0), AppendResponse(1, true)));
  }

  /** They are committed. */
  lemma TwoEntries() returns (steps: seq<Action>, d: Cluster)
    ensures At(steps, d, ALL, LeaderA([X, Y], 2, 1, 3, 0, 2), VOTER, Following([X, Y], 0))
            && d.elections == [Election(1, "a")]
    ensures Early("b") in d.net && Early("c") in d.net
  {
    hide Leads;
    steps, d := TwoStored();
    assert d.elections[0].winner == "a";
    steps, d := Check(steps, d, ALL, [0, 2, 2]);
  }

  lemma TwoEntriesAre()
    ensures BuildAppend(LeaderA([X, Y], 0, 1, 1, 0, 0), "a", "c", 1) == Asked(0, 0, [X, Y], 0)
    ensures OnAppendRequest(INITIAL, Asked(0, 0, [X, Y], 0)) == (Following([X, Y], 0), AppendResponse(1, true))
    ensures OnAppendResponse(LeaderA([X, Y], 0, 1, 1, 0, 0), "c", Asked(0, 0, [X, Y], 0), AppendResponse(1, true))
            == LeaderA([X, Y], 0, 1, 3, 0, 2)
  {
    assert Spliced([], 0, [X, Y]) == [X, Y];
  }

  /** `c` hears of the commit and stores a third entry; that answer is delayed. */
  lemma ThirdEntry() returns (steps: seq<Action>, d: Cluster)
    ensures At(steps, d, ALL, LeaderA([X, Y, Z], 2, 1, 3, 0, 2), VOTER, Following([X, Y, Z], 2))
            && d.elections == [Election(1, "a")]
    ensures Early("b") in d.net && Early("c") in d.net && DELAYED in d.net
  {
    hide Leads, Spliced, OnAppendRequest, BuildAppend;
    steps, d := TwoEntries();
    assert d.elections[0].winner == "a";
    ThirdEntryIs();
    steps, d := Deliver(steps, d, ALL, "c", Asked(2, 1, [], 2), Following([X, Y], 2));
    steps, d := Say(steps, d, ALL, "a", "z");
    assert d.servers["a"].view == LeaderA([X, Y, Z], 2, 1, 3, 0, 2);
    steps, d := Deliver(steps, d, ALL, "c", Asked(2, 1, [Z], 2), Following([X, Y, Z], 2));
  }

  const DELAYED := AppendAnswered("c", "a", Asked(2, 1, [Z], 2), AppendResponse(1, true))

  lemma ThirdEntryIs()
    ensures BuildAppend(LeaderA([X, Y], 2, 1, 3, 0, 2), "a", "c", 1) == Asked(2, 1, [], 2)
    ensures OnAppendRequest(Following([X, Y], 0), Asked(2, 1, [], 2)) == (Following([X, Y], 2), AppendResponse(1, true))
    ensures BuildAppend(LeaderA([X, Y, Z], 2, 1, 3, 0, 2), "a", "c", 1) == Asked(2, 1, [Z], 2)
    ensures OnAppendRequest(Following([X, Y], 2), Asked(2, 1, [Z], 2)) ==
              (Following([X, Y, Z], 2), AppendResponse(1, true))
  {
    assert Spliced([X, Y], 2, [Z]) == [X, Y, Z];
  }

  /** `b` stores all three entries, and `a` knows it. */
  lemma AllStored() returns (steps: seq<Action>, d: Cluster)
    ensures At(steps, d, ALL, LeaderA([X, Y, Z], 2, 4, 3, 3, 2), Following([X, Y, Z], 2), Following([X, Y, Z], 2))
    ensures d.elections == [Election(1, "a")] && Early("b") in d.net && Early("c") in d.net && DELAYED in d.net
  {
    hide Leads, Spliced, OnAppendRequest, OnAppendResponse, BuildAppend;
    steps, d := ThirdEntry();
    assert d.elections[0].winner == "a";
    AllCommittedAre();
    steps, d := Deliver(steps, d, ALL, "b", Asked(0, 0, [X, Y, Z], 2), Following([X, Y, Z], 2));
    steps, d := Take(steps, d, ALL, AppendAnswered("b", "a", Asked(0, 0, [X, Y, Z], 2), AppendResponse(1, true)));
  }

  /** They are committed, and `b` hears of it. */
  lemma AllCommitted() returns (steps: seq<Action>, d: Cluster)
    ensures At(steps, d, ALL, LeaderA([X, Y, Z], 3, 4, 3, 3, 2), Following([X, Y, Z], 3), Following([X, Y, Z], 2))
    ensures d.elections == [Election(1, "a")] && Early("b") in d.net && Early("c") in d.net && DELAYED in d.net
  {
    hide Leads, Spliced, OnAppendRequest, OnAppendResponse, BuildAppend;
    steps, d := AllStored();
    assert d.elections[0].winner == "a";
    AllCommittedAre();
    steps, d := Check(steps, d, ALL, [2, 3, 3]);
    assert d.servers["a"].view == LeaderA([X, Y, Z], 3, 4, 3, 3, 2);
    steps, d := Deliver(steps, d, ALL, "b", Asked(3, 1, [], 3), Following([X, Y, Z], 3));
  }

  lemma AllCommittedAre()
    ensures BuildAppend(LeaderA([X, Y, Z], 2, 1, 3, 0, 2), "a", "b", 1) == Asked(0, 0, [X, Y, Z], 2)
    ensures OnAppendRequest(VOTER, Asked(0, 0, [X, Y, Z], 2)) == (Following([X, Y, Z], 2), AppendResponse(1, true))
    ensures OnAppendResponse(LeaderA([X, Y, Z], 2, 1, 3, 0, 2), "b", Asked(0, 0, [X, Y, Z], 2), AppendResponse(1, true))
            == LeaderA([X, Y, Z], 2, 4, 3, 3, 2)
    ensures BuildAppend(LeaderA([X, Y, Z], 3, 4, 3, 3, 2), "a", "b", 1) == Asked(3, 1, [], 3)
    ensures OnAppendRequest(Following([X, Y, Z], 2), Asked(3, 1, [], 3)) ==
              (Following([X, Y, Z], 3), AppendResponse(1, true))
  {
    assert Spliced([], 0, [X, Y, Z]) == [X, Y, Z];
  }

  lemma AllAreAll(g: Guard)
    ensures g in ALL
  {
    match g
    case VotesRemembered =>
    case WinsOwnTerm =>
    case AnswersFresh =>
    case RoundsAreCurrent =>
    case AnswersAreCurrent =>
    case LeadersCommit =>
    case NothingAgreedIsCut =>
  }

  /** Sound runs get somewhere: one in which two nodes have committed three entries, and all seven guards hold. */
  lemma SoundRunsCommit()
    ensures exists steps :: SoundRun(TRIO, steps) && CommittedThree(Run(TRIO, steps))
  {
    var steps, d := AllCommitted();
    forall g ensures Obeying(Init(TRIO), steps, g) {
      AllAreAll(g);
    }
    assert SoundRun(TRIO, steps) && CommittedThree(Run(TRIO, steps));
  }

  ghost predicate CommittedThree(c: Cluster) {
    c.servers.Keys == TRIO && c.servers["a"].view.commitIndex == 3 && c.servers["b"].view.commitIndex == 3
  }

  /** The early requests arrive and cut both followers back to one entry. */
  lemma CutBack() returns (steps: seq<Action>, d: Cluster)
    ensures At(steps, d, BUT_CUTS, LeaderA([X, Y, Z], 3, 4, 3, 3, 2), Following([X], 3), Following([X], 2))
    ensures d.elections == [Election(1, "a")] && DELAYED in d.net
  {
    hide Leads, Spliced, OnAppendRequest;
    steps, d := AllCommitted();
    Fewer(steps, d, ALL, BUT_CUTS);
    CutBackIs(3);
    CutBackIs(2);
    steps, d := Answer(steps, d, BUT_CUTS, Early("b"));
    steps, d := Answer(steps, d, BUT_CUTS, Early("c"));
  }

  lemma CutBackIs(commit: nat)
    ensures OnAppendRequest(Following([X, Y, Z], commit), Asked(0, 0, [X], 0)) ==
              (Following([X], commit), AppendResponse(1, true))
  {
    assert Spliced([X, Y, Z], 0, [X]) == [X];
  }

  /** Leader `b` of term 2. */
  function LeaderB(log: seq<Entry>): NodeView {
    NodeView(2, "b", log, Leader, "b", 3, 0, map["a" := 2, "c" := 2], map["a" := 0, "c" := 0])
  }

  /** `b` leads term 2 with the vote of `c`. */
  lemma SecondLeader() returns (steps: seq<Action>, d: Cluster)
    ensures At(steps, d, BUT_CUTS, LeaderA([X, Y, Z], 3, 4, 3, 3, 2), LeaderB([X]),
              Following([X], 2).(term := 2, votedFor := "b", leaderId := ""))
    ensures d.elections == [Election(1, "a"), Election(2, "b")] && DELAYED in d.net
  {
    hide Leads;
    steps, d := CutBack();
    steps, d := Elect(steps, d, BUT_CUTS, "b", "c", "a",
      Following([X], 2).(term := 2, votedFor := "b", leaderId := ""));
  }

  /** A committed entry is lost: in a run that obeys all guards but one the leader of term 1 has committed three entries
      of its term, and the leader of term 2 holds only the first of them. Both followers had stored them and were cut
      back by old ones. */
  lemma CommittedEntriesAreLost()
    ensures exists steps :: SoundButForCuts(steps) && Lost(Run(TRIO, steps))
  {
    var steps, d := SecondLeader();
    assert SoundButForCuts(steps) && Lost(Run(TRIO, steps));
  }

  ghost predicate Lost(c: Cluster) {
    && c.servers.Keys == TRIO
    && var a, b := c.servers["a"].view, c.servers["b"].view;
       a.role == b.role == Leader && a.term < b.term && a.log == [X, Y, Z] && a.commitIndex == 3 && b.log == [X]
  }

  /** From one state of such a run to the next the commit index of a node goes back. */
  ghost predicate GoesBack(steps: seq<Action>, a: Action, n: string) {
    && SoundButForCuts(steps + [a]) && n in Run(TRIO, steps).servers && n in Run(TRIO, steps + [a]).servers
    && Run(TRIO, steps + [a]).servers[n].view.commitIndex < Run(TRIO, steps).servers[n].view.commitIndex
  }

  /** The heartbeat of `b` takes the commit index of `c` back from 2 to 1. */
  lemma HeartbeatOfSecond() returns (steps: seq<Action>, a: Action, d: Cluster)
    ensures GoesBack(steps, a, "c")
    ensures At(steps + [a], d, BUT_CUTS, LeaderA([X, Y, Z], 3, 4, 3, 3, 2), LeaderB([X]),
              Following([X], 1).(term := 2, leaderId := "b"))
    ensures d.elections == [Election(1, "a"), Election(2, "b")] && DELAYED in d.net
  {
    hide Obeying, OnAppendRequest, BuildAppend;
    var m, longer;
    steps, d := SecondLeader();
    assert d.elections[1].winner == "b";
    HeartbeatIs();
    steps, d, m := Send(steps, d, BUT_CUTS, "b", "c");
    a := AnswerAppend(m);
    longer, d := Answer(steps, d, BUT_CUTS, m);
  }

  lemma HeartbeatIs()
    ensures BuildAppend(LeaderB([X]), "b", "c", 2) == AppendRequest(2, "b", 1, 1, [], 3)
    ensures OnAppendRequest(Following([X], 2).(term := 2, votedFor := "b", leaderId := ""),
                            AppendRequest(2, "b", 1, 1, [], 3))
            == (Following([X], 1).(term := 2, leaderId := "b"), AppendResponse(2, true))
  {
  }

  lemma CommitIndexGoesBack()
    ensures exists steps, a :: GoesBack(steps, a, "c")
  {
    var steps, a, d := HeartbeatOfSecond();
  }

  /** The next apply pass of a node hands an entry of the given index and term to the apply function. */
  ghost predicate Applies(c: Cluster, n: string, index: nat, term: nat) {
    && n in c.servers
    && var v := c.servers[n].view; v.lastApplied < index <= AppliedUpTo(v) && TermOf(v.log, index) == term
  }

  /** Such a run ends with passes of `a` and of `b`, and they apply entries of terms 1 and 2 at index 2. */
  ghost predicate ApplyDifferently(steps: seq<Action>) {
    && SoundButForCuts(steps + [Apply("a")] + [Apply("b")])
    && Applies(Run(TRIO, steps), "a", 2, 1) && Applies(Run(TRIO, steps + [Apply("a")]), "b", 2, 2)
  }

  /** State machines diverge: `a` applies the entries of term 1, and `b` applies what it proposes in
      term 2 at one of their indices, its commit index having survived the loss of its log. */
  lemma AppliedEntriesDiffer()
    ensures exists steps :: ApplyDifferently(steps)
  {
    hide Obeying;
    var steps, d := SecondLeader();
    steps, d := Say(steps, d, BUT_CUTS, "b", "w");
    assert d.servers["b"].view == LeaderB([X, W]);
    var one, e := Extend(steps, d, BUT_CUTS, Apply("a"));
    var two, f := Extend(one, e, BUT_CUTS, Apply("b"));
    assert ApplyDifferently(steps);
  }

  /** `a` after its log has been cut and it has stepped down. */
  const DEPOSED := LeaderA([X, W], 3, 4, 3, 3, 2).(term := 2, role := Follower, leaderId := "b", votedFor := "")

  /** `b` replaces the second and third entry of `a`. */
  lemma Replaced() returns (steps: seq<Action>, d: Cluster)
    ensures At(steps, d, BUT_CUTS, DEPOSED, LeaderB([X, W]), Following([X], 1).(term := 2, leaderId := "b"))
            && DELAYED in d.net
  {
    hide Leads, Spliced;
    var a, m;
    steps, a, d := HeartbeatOfSecond();
    steps := steps + [a];
    assert d.elections[1].winner == "b";
    steps, d := Say(steps, d, BUT_CUTS, "b", "w");
    assert d.servers["b"].view == LeaderB([X, W]);
    steps, d, m := Send(steps, d, BUT_CUTS, "b", "a");
    assert m.append == AppendRequest(2, "b", 1, 1, [W], 3);
    SplicedW();
    steps, d := Answer(steps, d, BUT_CUTS, m);
  }

  lemma SplicedW()
    ensures Spliced([X, Y, Z], 1, [W]) == [X, W]
  {
  }

  function LeaderAgain(nextC: nat, matchC: nat): NodeView {
    NodeView(3, "a", [X, W], Leader, "a", 3, 0, map["b" := 3, "c" := nextC], map["b" := 0, "c" := matchC])
  }

  const LAST := Following([X], 1).(term := 3, votedFor := "a", leaderId := "")

  /** `a` leads term 3 with the vote of `c`. */
  lemma ThirdLeader() returns (steps: seq<Action>, d: Cluster)
    ensures At(steps, d, BUT_CUTS, LeaderAgain(3, 0), LeaderB([X, W]), LAST) && DELAYED in d.net
  {
    hide Leads;
    steps, d := Replaced();
    steps, d := Elect(steps, d, BUT_CUTS, "a", "c", "b", LAST);
  }

  /** The delayed answer of `c` sets the next index to 4 although the log has two entries. */
  lemma BeyondTheEnd() returns (steps: seq<Action>, d: Cluster)
    ensures At(steps, d, ELECTION, LeaderAgain(4, 3), LeaderB([X, W]), LAST)
  {
    hide Leads;
    steps, d := ThirdLeader();
    Fewer(steps, d, BUT_CUTS, ELECTION);
    steps, d := Take(steps, d, ELECTION, DELAYED);
  }

  /** The next index points beyond the end of the leader's log, and a round succeeds although the follower lacks
      entries. */
  ghost predicate AcceptsWithoutPrefix(c: Cluster) {
    && c.servers.Keys == TRIO
    && var l, f := c.servers["a"].view, c.servers["c"].view;
       && l.role == Leader && Ready(l, f, "c") && l.nextIndex["c"] > |l.log| + 1
       && Round(l, f, "a", "c").2 && !(l.log <= Round(l, f, "a", "c").1.log)
  }

  /** Such a state is reached by a guarded run. */
  lemma StaleNextIndexIsAccepted()
    ensures exists steps :: GuardedRun(TRIO, steps) && AcceptsWithoutPrefix(Run(TRIO, steps))
  {
    var steps, d := BeyondTheEnd();
    var l, f := d.servers["a"].view, d.servers["c"].view;
    assert Ready(l, f, "c");
    assert GuardedRun(TRIO, steps) && AcceptsWithoutPrefix(Run(TRIO, steps));
  }
}

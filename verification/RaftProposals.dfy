/** Nothing is invented: in every run, without any guard, every entry in a log, in a request on its way or handed to the
    apply function is a command that a leader of its term was asked to propose. */
module RaftProposals {
  import opened RaftLog
  import opened RaftState
  import opened RaftNode
  import opened RaftCluster
  import opened RaftCommit

  /** An entry without its position. */
  function Content(e: Entry): Entry {
    e.(index := 0)
  }

  /** The step is a proposal to a leader of the entry's term, with the entry's command. */
  ghost predicate Proposes(c: Cluster, a: Action, e: Entry) {
    && a.Propose? && a.n in c.servers && c.servers[a.n].view.role == Leader
    && Content(e) == Entry(0, c.servers[a.n].view.term, Command, a.command)
  }

  ghost predicate Among(entries: seq<Entry>, known: set<Entry>) {
    forall i :: 0 <= i < |entries| ==> Content(entries[i]) in known
  }

  /** What has been proposed in a run. */
  ghost function Proposals(ids: set<string>, steps: seq<Action>): set<Entry> {
    if steps == [] then {} else
      var front, a := steps[..|steps| - 1], steps[|steps| - 1];
      Proposals(ids, front) + New(Run(ids, front), a)
  }

  ghost function New(c: Cluster, a: Action): set<Entry> {
    if a.Propose? && a.n in c.servers && c.servers[a.n].view.role == Leader
    then {Entry(0, c.servers[a.n].view.term, Command, a.command)} else {}
  }

  ghost predicate ServerAmong(s: Server, known: set<Entry>) {
    Among(s.view.log, known) && Among(s.applied, known)
  }

  ghost predicate AllAmong(c: Cluster, known: set<Entry>) {
    && (forall n :: n in c.servers ==> ServerAmong(c.servers[n], known))
    && (forall m :: m in c.net && m.AppendAsked? ==> Among(m.append.entries, known))
  }

  lemma SplicedAmong(log: seq<Entry>, prev: nat, entries: seq<Entry>, known: set<Entry>)
    requires Among(log, known) && Among(entries, known)
    ensures Among(Spliced(log, prev, entries), known)
  {
    var spliced := Spliced(log, prev, entries);
    forall i | 0 <= i < |spliced| && prev <= |log| ensures Content(spliced[i]) in known {
      if i < prev {
        assert spliced[i] == log[i];
      } else {
        assert Content(spliced[i]) == Content(entries[i - prev]);
      }
    }
  }

  lemma AppendedAmong(v: NodeView, req: AppendRequest, known: set<Entry>)
    requires Among(v.log, known) && Among(req.entries, known)
    ensures Among(OnAppendRequest(v, req).0.log, known)
  {
    hide Spliced, Among;
    SplicedAmong(v.log, req.prevLogIndex, req.entries, known);
  }

  /** The logs of the other steps stay. */
  lemma LogMoves(c: Cluster, a: Action, n: string)
    requires n in c.servers
    ensures n in Next(c, a).servers
    ensures var v, w := c.servers[n].view, Next(c, a).servers[n].view;
            || w.log == v.log
            || (a.AnswerAppend? && Enabled(c, a) && a.m.to == n && w.log == OnAppendRequest(v, a.m.append).0.log)
            || (a.Propose? && a.n == n && v.role == Leader
                && w.log == v.log + [Entry(|v.log| + 1, v.term, Command, a.command)])
  {
    hide EverLed, AppliedUpTo, Handed, Choice, Read, Spliced, Wins, UpToDate, Consistent, LastNew, AllSet;
    match a {
      case StartCampaign(_) =>
      case AskVote(_, _, _) =>
      case AnswerVote(_) =>
      case CountVote(_) =>
      case LoseVote(_, _) =>
      case Abandon(_) =>
      case Finish(_) =>
      case StartRound(_) =>
      case AskAppend(_, _, _) =>
      case AnswerAppend(_) =>
      case TakeAnswer(_) =>
      case Propose(_, _) =>
      case Advance(_, _) =>
      case Apply(_) =>
    }
  }

  lemma AppliedMoves(c: Cluster, a: Action, n: string)
    requires n in c.servers
    ensures n in Next(c, a).servers
    ensures var s, t := c.servers[n], Next(c, a).servers[n];
            t.applied == s.applied || t.applied == s.applied + Handed(s.view)
  {
    hide EverLed, AppliedUpTo, Handed, Choice, Read, OnVoteRequest, OnAppendRequest, OnAppendResponse;
  }

  lemma LogStaysAmong(c: Cluster, a: Action, n: string, known: set<Entry>)
    requires AllAmong(c, known) && n in c.servers
    ensures n in Next(c, a).servers && Among(Next(c, a).servers[n].view.log, known + New(c, a))
  {
    hide Next, OnAppendRequest;
    var v := c.servers[n].view;
    LogMoves(c, a, n);
    assert ServerAmong(c.servers[n], known);
    if a.AnswerAppend? && Enabled(c, a) && a.m.to == n {
      AppendedAmong(v, a.m.append, known);
    }
  }

  lemma AppliedStaysAmong(c: Cluster, a: Action, n: string, known: set<Entry>)
    requires AllAmong(c, known) && n in c.servers
    ensures n in Next(c, a).servers && Among(Next(c, a).servers[n].applied, known + New(c, a))
  {
    hide Next;
    AppliedMoves(c, a, n);
    assert ServerAmong(c.servers[n], known);
    var s := c.servers[n];
    assert forall i :: 0 <= i < |Handed(s.view)| ==> Handed(s.view)[i] == s.view.log[s.view.lastApplied + i];
  }

  lemma NewRequest(c: Cluster, a: Action, m: Message)
    requires m in Next(c, a).net && m !in c.net && m.AppendAsked?
    ensures a.AskAppend? && a.n in c.servers
    ensures m.append == BuildAppend(c.servers[a.n].view, a.n, a.peer, a.term)
  {
    hide EverLed, Handed, CommitAdvanced, Proposed, OnVoteRequest, OnAppendRequest, OnAppendResponse, BuildAppend;
  }

  lemma RequestStaysAmong(c: Cluster, a: Action, m: Message, known: set<Entry>)
    requires AllAmong(c, known) && m in Next(c, a).net && m.AppendAsked?
    ensures Among(m.append.entries, known + New(c, a))
  {
    hide Next, New;
    if m !in c.net {
      NewRequest(c, a, m);
      assert ServerAmong(c.servers[a.n], known);
    }
  }

  lemma {:induction false} AllAmongProposals(ids: set<string>, steps: seq<Action>)
    ensures AllAmong(Run(ids, steps), Proposals(ids, steps))
  {
    hide Next, New, Among;
    if steps == [] {
      NothingAtFirst(ids);
    } else {
      var front, a := steps[..|steps| - 1], steps[|steps| - 1];
      var c, known := Run(ids, front), Proposals(ids, front);
      AllAmongProposals(ids, front);
      NextKeepsMembers(c, a);
      forall n | n in c.servers
        ensures n in Next(c, a).servers && ServerAmong(Next(c, a).servers[n], known + New(c, a))
      {
        LogStaysAmong(c, a, n, known);
        AppliedStaysAmong(c, a, n, known);
      }
      forall m | m in Next(c, a).net && m.AppendAsked? ensures Among(m.append.entries, known + New(c, a)) {
        RequestStaysAmong(c, a, m, known);
      }
    }
  }

  lemma NothingAtFirst(ids: set<string>)
    ensures AllAmong(Init(ids), {})
  {
  }

  lemma {:induction false} WasProposed(ids: set<string>, steps: seq<Action>, e: Entry) returns (j: nat)
    requires Content(e) in Proposals(ids, steps)
    ensures j < |steps| && Proposes(Run(ids, steps[..j]), steps[j], e)
  {
    hide Run;
    var front, a := steps[..|steps| - 1], steps[|steps| - 1];
    if Content(e) in Proposals(ids, front) {
      j := WasProposed(ids, front, e);
      assert front[..j] == steps[..j];
    } else {
      j := |steps| - 1;
    }
  }

  /** In every run, each entry in the log of a node was proposed earlier to a leader of its term. */
  lemma LoggedWasProposed(ids: set<string>, steps: seq<Action>, n: string, i: nat) returns (j: nat)
    requires n in Run(ids, steps).servers && i < |Run(ids, steps).servers[n].view.log|
    ensures j < |steps| && Proposes(Run(ids, steps[..j]), steps[j], Run(ids, steps).servers[n].view.log[i])
  {
    hide Run, Proposals, Proposes;
    AllAmongProposals(ids, steps);
    assert ServerAmong(Run(ids, steps).servers[n], Proposals(ids, steps));
    j := WasProposed(ids, steps, Run(ids, steps).servers[n].view.log[i]);
  }

  /** So was each entry handed to the apply function of a node. */
  lemma AppliedWasProposed(ids: set<string>, steps: seq<Action>, n: string, i: nat) returns (j: nat)
    requires n in Run(ids, steps).servers && i < |Run(ids, steps).servers[n].applied|
    ensures j < |steps| && Proposes(Run(ids, steps[..j]), steps[j], Run(ids, steps).servers[n].applied[i])
  {
    hide Run, Proposals, Proposes;
    AllAmongProposals(ids, steps);
    assert ServerAmong(Run(ids, steps).servers[n], Proposals(ids, steps));
    j := WasProposed(ids, steps, Run(ids, steps).servers[n].applied[i]);
  }
}

/** Sound runs, in which all seven guards hold, and the history of a run that the proof of Raft's remaining safety
    properties needs: what the leader of each term has had in its log, on what logs votes were given, and who has stored
    what in which term. No handler reads the history. */
module RaftTrace {
  import opened RaftLog
  import opened RaftState
  import opened RaftNode
  import opened RaftCluster
  import opened RaftElection
  import opened RaftRetention
  import M = RaftMatching

  /** All seven guards hold for a step. */
  ghost predicate Sound(c: Cluster, a: Action) {
    forall g :: Obeys(c, a, g)
  }

  ghost predicate SoundRun(ids: set<string>, steps: seq<Action>) {
    forall g :: Obeying(Init(ids), steps, g)
  }

  lemma SoundFront(ids: set<string>, steps: seq<Action>)
    requires SoundRun(ids, steps) && steps != []
    ensures SoundRun(ids, steps[..|steps| - 1]) && Sound(Run(ids, steps[..|steps| - 1]), steps[|steps| - 1])
  {
    var front, a := steps[..|steps| - 1], steps[|steps| - 1];
    forall g ensures Obeying(Init(ids), front, g) && Obeys(Run(ids, front), a, g) {
      assert Obeying(Init(ids), steps, g);
    }
  }

  // History.

  /** The leader of a term started with the first `start` entries of `log`, and holds or held all of it as leader. */
  datatype Reign = Reign(start: nat, log: seq<Entry>)

  /** A vote given before anybody led the term: the voter's log, and what it was told of the candidate's. */
  datatype Ballot = Ballot(voter: string, term: nat, candidate: string, held: seq<Entry>, lastIndex: nat, lastTerm: nat)

  /** A node wrote the log of the leader of a term, up to an index, while it was in that term. */
  datatype Stored = Stored(node: string, term: nat, upTo: nat)

  datatype Trace = Trace(c: Cluster, reigns: map<nat, Reign>, ballots: set<Ballot>, stores: set<Stored>)

  function Begin(ids: set<string>): Trace {
    Trace(Init(ids), map[], {}, {})
  }

  /** Node `n` proposes as leader. */
  ghost predicate Proposes(c: Cluster, a: Action, n: string) {
    n in c.servers && a.Propose? && a.n == n && c.servers[n].view.role == Leader
  }

  /** Node `n` accepts a request with entries. */
  ghost predicate Writes(c: Cluster, a: Action, n: string) {
    && a.AnswerAppend? && Enabled(c, a) && a.m.to == n
    && Acceptable(c.servers[n].view, a.m.append) && a.m.append.entries != []
  }

  ghost predicate WinsNow(c: Cluster, a: Action, n: string) {
    a == Finish(n) && Enabled(c, a) && Wins(c, c.servers[n].campaign)
  }

  ghost predicate Votes(c: Cluster, a: Action, n: string) {
    a.AnswerVote? && Enabled(c, a) && a.m.to == n && OnVoteRequest(c.servers[n].view, a.m.req).1.granted
  }

  ghost function ReignsAfter(t: Trace, a: Action): map<nat, Reign> {
    if a.Finish? && WinsNow(t.c, a, a.n) then
      var v := t.c.servers[a.n].view;
      t.reigns[v.term := Reign(|v.log|, v.log)]
    else if a.Propose? && Proposes(t.c, a, a.n) then
      var v := t.c.servers[a.n].view;
      if v.term in t.reigns then t.reigns[v.term := t.reigns[v.term].(log := Proposed(v, a.command).log)] else t.reigns
    else t.reigns
  }

  ghost function BallotsAfter(t: Trace, a: Action): set<Ballot> {
    if a.StartCampaign? && Enabled(t.c, a) then
      var v := t.c.servers[a.n].view;
      if v.term + 1 in t.reigns then t.ballots
      else t.ballots + {Ballot(a.n, v.term + 1, a.n, v.log, |v.log|, LastTerm(v.log))}
    else if a.AnswerVote? && Votes(t.c, a, a.m.to) && a.m.req.term !in t.reigns then
      var req := a.m.req;
      t.ballots + {Ballot(a.m.to, req.term, req.candidateId, t.c.servers[a.m.to].view.log, req.lastLogIndex,
        req.lastLogTerm)}
    else t.ballots
  }

  ghost function StoresAfter(t: Trace, a: Action): set<Stored> {
    if a.Propose? && Proposes(t.c, a, a.n) then
      t.stores + {Stored(a.n, t.c.servers[a.n].view.term, |t.c.servers[a.n].view.log| + 1)}
    else if a.AnswerAppend? && Writes(t.c, a, a.m.to) then
      t.stores + {Stored(a.m.to, a.m.append.term, |a.m.origin|)}
    else t.stores
  }

  ghost function After(t: Trace, a: Action): Trace {
    Trace(Next(t.c, a), ReignsAfter(t, a), BallotsAfter(t, a), StoresAfter(t, a))
  }

  ghost function Traced(ids: set<string>, steps: seq<Action>): Trace {
    if steps == [] then Begin(ids) else After(Traced(ids, steps[..|steps| - 1]), steps[|steps| - 1])
  }

  lemma {:induction false} TraceFollowsRun(ids: set<string>, steps: seq<Action>)
    ensures Traced(ids, steps).c == Run(ids, steps)
  {
    if steps != [] {
      TraceFollowsRun(ids, steps[..|steps| - 1]);
    }
  }

  // What a step does to one node.

  /** Logs change by proposals of leaders and by accepted requests only. */
  lemma LogStep(c: Cluster, a: Action, n: string)
    requires M.Inv(c) && n in c.servers
    ensures n in Next(c, a).servers
    ensures Next(c, a).servers[n].view.log ==
            if Proposes(c, a, n) then Proposed(c.servers[n].view, a.command).log
            else if Writes(c, a, n) then a.m.origin
            else c.servers[n].view.log
  {
    NextKeepsMembers(c, a);
    if a.AnswerAppend? && Enabled(c, a) {
      M.AcceptedAppendIsExact(c, a.m);
    } else {
      OtherStepsKeepLogs(c, a, n);
    }
  }

  lemma OtherStepsKeepLogs(c: Cluster, a: Action, n: string)
    requires n in c.servers && !(a.AnswerAppend? && Enabled(c, a))
    ensures n in Next(c, a).servers
    ensures Next(c, a).servers[n].view.log ==
            if Proposes(c, a, n) then Proposed(c.servers[n].view, a.command).log else c.servers[n].view.log
  {
  }

  /** Under the guards no term goes back. */
  lemma TermStep(c: Cluster, a: Action, n: string)
    requires n in c.servers && Guarded(c, a)
    ensures n in Next(c, a).servers && c.servers[n].view.term <= Next(c, a).servers[n].view.term
  {
  }
}

/** Replication between a leader and its followers, over whole runs and without any guard: the next indexes never
    underflow, commit advances are sound, and entries are applied in order. Then the backoff between one leader and one
    follower that nobody disturbs. */
module RaftReplication {
  import opened RaftLog
  import opened RaftState
  import opened RaftNode
  import opened RaftCluster
  import opened RaftCommit
  import M = RaftMatching
  import RaftElection

  // Next indexes.

  ghost predicate NextIndexesOk(c: Cluster) {
    forall n, p :: n in c.servers && (EverLed(c, n) || c.servers[n].beats != {}) && p in Peers(c, n) ==>
      Lookup(c.servers[n].view.nextIndex, p) >= 1
  }

  lemma NextIndexStays(c: Cluster, a: Action, n: string, p: string)
    requires NextIndexesOk(c) && n in c.servers && p in Peers(c, n)
    requires EverLed(Next(c, a), n) || Next(c, a).servers[n].beats != {}
    ensures Lookup(Next(c, a).servers[n].view.nextIndex, p) >= 1
  {
    if EverLed(c, n) || c.servers[n].beats != {} {
      assert Lookup(c.servers[n].view.nextIndex, p) >= 1;
    } else if EverLed(Next(c, a), n) {
      var i :| 0 <= i < |Next(c, a).elections| && Next(c, a).elections[i].winner == n;
      assert i == |c.elections|;
      assert a == Finish(n);
    }
  }

  lemma {:induction false} RunKeepsNextIndexes(ids: set<string>, steps: seq<Action>)
    ensures NextIndexesOk(Run(ids, steps))
  {
    if steps != [] {
      var front, a := steps[..|steps| - 1], steps[|steps| - 1];
      var c := Run(ids, front);
      RunKeepsNextIndexes(ids, front);
      NextKeepsMembers(c, a);
      var d := Next(c, a);
      forall n, p | n in d.servers && (EverLed(d, n) || d.servers[n].beats != {}) && p in Peers(d, n)
        ensures Lookup(d.servers[n].view.nextIndex, p) >= 1
      {
        NextIndexStays(c, a, n, p);
      }
    }
  }

  /** In every reachable state the index before the one to send is computed without wrapping around. */
  lemma PrevLogIndexNeverUnderflows(ids: set<string>, steps: seq<Action>, n: string, peer: string, term: nat)
    requires Enabled(Run(ids, steps), AskAppend(n, peer, term))
    ensures var v := Run(ids, steps).servers[n].view;
            BuildAppend(v, n, peer, term).prevLogIndex + 1 == Lookup(v.nextIndex, peer)
  {
    RunKeepsNextIndexes(ids, steps);
  }

  // Commit.

  lemma {:induction false} RunKeepsTerms(ids: set<string>, steps: seq<Action>)
    ensures M.TermsOk(Run(ids, steps))
  {
    if steps != [] {
      var front := steps[..|steps| - 1];
      RunKeepsTerms(ids, front);
      M.NextKeepsTerms(Run(ids, front), steps[|steps| - 1]);
    }
  }

  /** In every reachable state, whatever stale match indexes a node holds, a commit advance is strictly upward and
      lands on an existing entry of the node's own term. */
  lemma AdvanceIsSoundInRuns(ids: set<string>, steps: seq<Action>, n: string, order: seq<string>)
    requires Enabled(Run(ids, steps), Advance(n, order))
    ensures var v := Run(ids, steps).servers[n].view;
            var w := CommitAdvanced(v, order);
            w != v ==> v.commitIndex < w.commitIndex <= |v.log| && v.log[w.commitIndex - 1].term == v.term
  {
    var c := Run(ids, steps);
    RunKeepsTerms(ids, steps);
    var i :| 0 <= i < |c.elections| && c.elections[i].winner == n;
    assert c.elections[i] in c.elections;
    assert M.ServerTermsOk(c.servers[n]);
  }

  /** A node has match indexes of peers only, and once it has led of all of them. */
  ghost predicate MatchKeysOk(c: Cluster) {
    && (forall n :: n in c.servers ==>
          && c.servers[n].view.matchIndex.Keys <= Peers(c, n)
          && (EverLed(c, n) ==> c.servers[n].view.matchIndex.Keys == Peers(c, n)))
    && (forall m :: m in c.net ==>
          && (m.AppendAsked? ==> m.from in Peers(c, m.to))
          && (m.AppendAnswered? ==> m.from in Peers(c, m.to)))
  }

  lemma OtherStepsKeepMatches(c: Cluster, a: Action, n: string)
    requires n in c.servers && !a.TakeAnswer? && !a.Finish?
    ensures Next(c, a).servers[n].view.matchIndex == c.servers[n].view.matchIndex && Next(c, a).elections == c.elections
  {
    hide AppliedUpTo, Handed, Choice, Read;
  }

  lemma MatchKeysStay(c: Cluster, a: Action, n: string)
    requires MatchKeysOk(c) && n in c.servers
    ensures var keys, peers := Next(c, a).servers[n].view.matchIndex.Keys, Peers(c, n);
            keys <= peers && (EverLed(Next(c, a), n) ==> keys == peers)
  {
    if !a.TakeAnswer? && !a.Finish? {
      hide Next;
      OtherStepsKeepMatches(c, a, n);
    } else if EverLed(Next(c, a), n) && !EverLed(c, n) {
      var i :| 0 <= i < |Next(c, a).elections| && Next(c, a).elections[i].winner == n;
      assert i == |c.elections| && a == Finish(n);
    }
  }

  lemma NewSenderIsPeer(c: Cluster, a: Action, m: Message)
    requires MatchKeysOk(c) && m in Next(c, a).net && m !in c.net && (m.AppendAsked? || m.AppendAnswered?)
    ensures m.from in Peers(c, m.to)
  {
    hide EverLed, Handed, CommitAdvanced, Proposed, OnVoteRequest, OnAppendRequest, OnAppendResponse, BuildAppend;
  }

  lemma NextKeepsMatchKeys(c: Cluster, a: Action)
    requires MatchKeysOk(c)
    ensures MatchKeysOk(Next(c, a))
  {
    hide Next, EverLed;
    NextKeepsMembers(c, a);
    forall m | m in Next(c, a).net && (m.AppendAsked? || m.AppendAnswered?) ensures m.from in Peers(c, m.to) {
      if m !in c.net {
        NewSenderIsPeer(c, a, m);
      }
    }
    forall n | n in c.servers
      ensures var keys, peers := Next(c, a).servers[n].view.matchIndex.Keys, Peers(c, n);
              keys <= peers && (EverLed(Next(c, a), n) ==> keys == peers)
    {
      MatchKeysStay(c, a, n);
    }
  }

  lemma LeaderKnowsAll(c: Cluster, n: string)
    requires MatchKeysOk(c) && n in c.servers && EverLed(c, n)
    ensures c.servers[n].view.matchIndex.Keys == Peers(c, n)
  {
  }

  lemma {:induction false} RunKeepsMatchKeys(ids: set<string>, steps: seq<Action>)
    ensures MatchKeysOk(Run(ids, steps))
  {
    if steps != [] {
      var front := steps[..|steps| - 1];
      RunKeepsMatchKeys(ids, front);
      NextKeepsMatchKeys(Run(ids, front), steps[|steps| - 1]);
    }
  }

  /** Index `k` is above what is committed, of the current term, and the highest that a commit quorum has reached. */
  ghost predicate MayCommit(v: NodeView, known: map<string, nat>, k: nat) {
    && k > v.commitIndex && TermOf(v.log, k) == v.term
    && |Reached(known, k)| >= CommitQuorum(|known.Keys|)
    && forall x :: x > k ==> |Reached(known, x)| < CommitQuorum(|known.Keys|)
  }

  lemma AdvanceIsChoiceOfMembers(c: Cluster, n: string, order: seq<string>)
    requires MatchKeysOk(c) && Enabled(c, Advance(n, order))
    ensures var v := c.servers[n].view;
            var known, w := v.matchIndex[n := |v.log|], CommitAdvanced(v, order);
            && known.Keys == c.servers.Keys
            && (w != v ==>
                  && |Reached(known, w.commitIndex)| >= CommitQuorum(|c.servers.Keys|)
                  && forall x :: x > w.commitIndex ==> |Reached(known, x)| < CommitQuorum(|c.servers.Keys|))
            && forall k :: MayCommit(v, known, k) ==> w == v.(commitIndex := k)
  {
    hide Choice, Reached, MatchKeysOk, EverLed;
    var v := c.servers[n].view;
    LeaderKnowsAll(c, n);
    assert v.matchIndex[n := |v.log|].Keys == c.servers.Keys;
    ChoiceIsReachedByQuorum(n, |v.log|, v.matchIndex, order);
    var known, c := v.matchIndex[n := |v.log|], Choice([|v.log|] + Read(v.matchIndex, order));
    forall k | MayCommit(v, known, k) ensures k == c {
      assert !(k < c) && !(c < k);
    }
  }

  /** In every reachable state an advance goes to the choice over the whole cluster: a commit quorum of all members has
      reached the new commit index, as far as the node knows, and none has reached a larger one. And it does advance to
      an index of the current term for which this is so. */
  lemma AdvanceIsChoiceOfCluster(ids: set<string>, steps: seq<Action>, n: string, order: seq<string>)
    requires Enabled(Run(ids, steps), Advance(n, order))
    ensures var v := Run(ids, steps).servers[n].view;
            var known, w := v.matchIndex[n := |v.log|], CommitAdvanced(v, order);
            && known.Keys == ids
            && (w != v ==>
                  && |Reached(known, w.commitIndex)| >= CommitQuorum(|ids|)
                  && forall x :: x > w.commitIndex ==> |Reached(known, x)| < CommitQuorum(|ids|))
            && forall k :: MayCommit(v, known, k) ==> w == v.(commitIndex := k)
  {
    hide Run, MatchKeysOk, Reached, CommitAdvanced;
    RunKeepsMembers(ids, steps);
    RunKeepsMatchKeys(ids, steps);
    AdvanceIsChoiceOfMembers(Run(ids, steps), n, order);
  }

  // Apply.

  /** Entries are numbered by position, and what has been applied are the entries 1, 2, 3, ... */
  ghost predicate AppliedInOrder(s: Server) {
    WellNumbered(s.view.log) && WellNumbered(s.applied) && |s.applied| == s.view.lastApplied
  }

  lemma LogStaysNumbered(c: Cluster, a: Action, n: string)
    requires n in c.servers && WellNumbered(c.servers[n].view.log)
    ensures WellNumbered(Next(c, a).servers[n].view.log)
  {
  }

  lemma AppliedStep(c: Cluster, a: Action, n: string)
    requires n in c.servers
    ensures n in Next(c, a).servers
    ensures var s, t := c.servers[n], Next(c, a).servers[n];
            && t.applied == (if a == Apply(n) then s.applied + Handed(s.view) else s.applied)
            && t.view.lastApplied == (if a == Apply(n) then AppliedUpTo(s.view) else s.view.lastApplied)
  {
  }

  lemma ApplyStaysInOrder(c: Cluster, a: Action, n: string)
    requires n in c.servers && AppliedInOrder(c.servers[n])
    ensures n in Next(c, a).servers && AppliedInOrder(Next(c, a).servers[n])
  {
    hide Next;
    AppliedStep(c, a, n);
    LogStaysNumbered(c, a, n);
  }

  /** Apply order: over every interleaving of apply passes with handlers that cut the log or move the commit index,
      the entries handed to the apply function are those of the indices 1, 2, 3, ..., without gap or repetition. */
  lemma {:induction false} AppliedInEveryRun(ids: set<string>, steps: seq<Action>, n: string)
    requires n in ids
    ensures var c := Run(ids, steps); n in c.servers && AppliedInOrder(c.servers[n])
  {
    RunKeepsMembers(ids, steps);
    if steps != [] {
      var front := steps[..|steps| - 1];
      AppliedInEveryRun(ids, front, n);
      ApplyStaysInOrder(Run(ids, front), steps[|steps| - 1], n);
    }
  }

  /** In every reachable state, a pass hands on the entry at an index exactly when it has not been handed on yet, is
      committed, and is in the log. */
  lemma PassHandsOnIff(ids: set<string>, steps: seq<Action>, n: string, i: nat)
    requires n in ids
    ensures var c := Run(ids, steps);
            && n in c.servers && n in Next(c, Apply(n)).servers
            && var s, t := c.servers[n], Next(c, Apply(n)).servers[n];
               && s.applied <= t.applied
               && (|s.applied| < i <= |t.applied| <==>
                     s.view.lastApplied < i <= s.view.commitIndex && i <= |s.view.log|)
               && (|s.applied| < i <= |t.applied| ==> t.applied[i - 1] == s.view.log[i - 1])
  {
    hide Next, Run;
    AppliedInEveryRun(ids, steps, n);
    AppliedStep(Run(ids, steps), Apply(n), n);
  }

  /** One turn of the apply loop at index `i`, with the log as it is at that moment. */
  function ApplyTurn(v: NodeView, i: nat, applied: seq<nat>): (NodeView, seq<nat>) {
    if 1 <= i <= |v.log| then (v.(lastApplied := i), applied + [i]) else (v, applied)
  }

  /** The order rests on a pass being atomic: a single turn keeps it exactly when the index has no entry yet or is the
      next one, so a log that grows back while a pass is under way leaves a gap. */
  lemma TurnKeepsOrderIff(v: NodeView, i: nat)
    ensures var (w, applied) := ApplyTurn(v, i, Span(0, v.lastApplied));
            applied == Span(0, w.lastApplied) <==> i == 0 || i > |v.log| || i == v.lastApplied + 1
  {
    var (w, applied) := ApplyTurn(v, i, Span(0, v.lastApplied));
    if 1 <= i <= |v.log| {
      assert |applied| == v.lastApplied + 1;
      assert |Span(0, w.lastApplied)| == i;
      if i == v.lastApplied + 1 {
        assert applied == Span(0, w.lastApplied);
      }
    }
  }

  /** A pass over two committed indices that is not atomic: the log is empty at its first turn and holds two entries at
      its second, and only the second index is applied. */
  lemma GrowingLogLeavesGap(v: NodeView, grown: seq<Entry>)
    requires v.lastApplied == 0 && v.commitIndex == 2 && v.log == [] && |grown| == 2
    ensures var (w, none) := ApplyTurn(v, 1, []);
            var (u, applied) := ApplyTurn(w.(log := grown), 2, none);
            applied == [2] && applied != Span(0, u.lastApplied)
  {
    var (w, none) := ApplyTurn(v, 1, []);
    var (u, applied) := ApplyTurn(w.(log := grown), 2, none);
    assert |Span(0, u.lastApplied)| == 2;
  }

  // Backoff.

  /** Leader and follower after one request and its answer, and whether it was accepted. */
  function Round(l: NodeView, f: NodeView, id: string, peer: string): (NodeView, NodeView, bool) {
    var req := BuildAppend(l, id, peer, l.term);
    var (g, resp) := OnAppendRequest(f, req);
    (OnAppendResponse(l, peer, req, resp), g, resp.success)
  }

  /** A leader that can catch this follower up. */
  ghost predicate Ready(l: NodeView, f: NodeView, peer: string) {
    && peer in l.nextIndex && l.nextIndex[peer] >= 1
    && l.term >= f.term
    && WellNumbered(l.log) && Matching(f.log, l.log)
    && forall i :: 0 <= i < |l.log| ==> l.log[i].term >= 1
  }

  /** In a run with one leadership per term, whoever has led is ready for every peer whose term is not ahead. */
  lemma ReadyInRuns(ids: set<string>, steps: seq<Action>, n: string, peer: string)
    requires RaftElection.OneLeadershipPerTerm(Run(ids, steps).elections)
    requires n in ids && peer in ids && n != peer && EverLed(Run(ids, steps), n)
    ensures var c := Run(ids, steps);
            && n in c.servers && peer in c.servers
            && (c.servers[n].view.term >= c.servers[peer].view.term ==>
                 Ready(c.servers[n].view, c.servers[peer].view, peer))
  {
    var c := Run(ids, steps);
    RunKeepsMembers(ids, steps);
    RunKeepsNextIndexes(ids, steps);
    M.RunKeepsInv(ids, steps);
    M.LogMatching(ids, steps, peer, n);
    var log := c.servers[n].view.log;
    assert log in M.Logs(c) && Lookup(c.servers[n].view.nextIndex, peer) >= 1;
    forall i | 0 <= i < |log| ensures log[i].term >= 1 {
      M.LedTermsArePositive(c, log, i);
    }
  }

  /** A refusal costs the leader one step of its next index and changes neither log. */
  lemma RefusalStepsBack(l: NodeView, f: NodeView, id: string, peer: string)
    requires Ready(l, f, peer) && !Round(l, f, id, peer).2
    ensures l.nextIndex[peer] > 1
    ensures var (m, g, _) := Round(l, f, id, peer);
            m == l.(nextIndex := l.nextIndex[peer := l.nextIndex[peer] - 1]) && g == Demoted(f, l.term, id)
  {
  }

  /** The follower's side of an accepted request with entries. */
  lemma FollowerCopies(l: NodeView, f: NodeView, req: AppendRequest)
    requires WellNumbered(l.log) && Matching(f.log, l.log) && forall i :: 0 <= i < |l.log| ==> l.log[i].term >= 1
    requires req.prevLogIndex < |l.log| && req.prevLogTerm == TermOf(l.log, req.prevLogIndex)
    requires req.entries == Suffix(l.log, req.prevLogIndex) && OnAppendRequest(f, req).1.success
    ensures OnAppendRequest(f, req).0.log == l.log
  {
    SpliceRebuilds(f.log, l.log, req.prevLogIndex);
  }

  /** Acceptance of a request with entries makes the follower's log the leader's, and the leader knows it. */
  lemma AcceptanceCopies(l: NodeView, f: NodeView, id: string, peer: string)
    requires Ready(l, f, peer) && Round(l, f, id, peer).2 && l.nextIndex[peer] <= |l.log|
    ensures var (m, g, _) := Round(l, f, id, peer);
            && g.log == l.log
            && m == l.(nextIndex := l.nextIndex[peer := |l.log| + 1], matchIndex := l.matchIndex[peer := |l.log|])
  {
    hide Spliced, Matching;
    var req := BuildAppend(l, id, peer, l.term);
    FollowerCopies(l, f, req);
    assert LastNew(req) == |l.log|;
  }

  /** An accepted round tells that the leader's log is a prefix of the follower's exactly when the next index did not
      point beyond the end of the leader's log, or the prefix was there already. */
  lemma AcceptanceMeansPrefixIff(l: NodeView, f: NodeView, id: string, peer: string)
    requires Ready(l, f, peer) && Round(l, f, id, peer).2
    ensures l.log <= Round(l, f, id, peer).1.log <==> l.nextIndex[peer] <= |l.log| + 1 || l.log <= f.log
  {
    if l.nextIndex[peer] <= |l.log| {
      AcceptanceCopies(l, f, id, peer);
    } else if l.nextIndex[peer] == |l.log| + 1 && l.log != [] {
      assert l.log[|l.log| - 1].term >= 1;
      MatchingPrefix(f.log, l.log, |l.log|);
    }
  }

  /** What the follower has committed after an accepted round that did not point beyond the end of the leader's log:
      what the leader has, if that is more and as far as its log goes. */
  function SharedCommit(l: NodeView, f: NodeView): nat {
    if l.commitIndex > f.commitIndex then Min(l.commitIndex, |l.log|) else f.commitIndex
  }

  lemma AcceptanceSharesCommit(l: NodeView, f: NodeView, id: string, peer: string)
    requires Ready(l, f, peer) && Round(l, f, id, peer).2 && l.nextIndex[peer] <= |l.log| + 1
    ensures Round(l, f, id, peer).1.commitIndex == SharedCommit(l, f)
  {
    hide Spliced, Matching;
    assert LastNew(BuildAppend(l, id, peer, l.term)) == |l.log|;
  }

  lemma {:induction false} BackoffSharesCommit(l: NodeView, f: NodeView, id: string, peer: string)
    requires Ready(l, f, peer) && l.nextIndex[peer] <= |l.log| + 1
    ensures Settled(l, f, id, peer).2.commitIndex == SharedCommit(l, f)
    decreases l.nextIndex[peer]
  {
    hide Round;
    var (m, g, accepted) := Round(l, f, id, peer);
    if accepted {
      AcceptanceSharesCommit(l, f, id, peer);
    } else {
      RefusalStepsBack(l, f, id, peer);
      BackoffSharesCommit(m, g, id, peer);
    }
  }

  lemma RoundKeepsLeaderLog(l: NodeView, f: NodeView, id: string, peer: string)
    ensures Round(l, f, id, peer).0.log == l.log
  {
  }

  /** Repeats rounds until one is accepted: how many were refused, and the two nodes in the end. */
  ghost function Settled(l: NodeView, f: NodeView, id: string, peer: string): (nat, NodeView, NodeView)
    requires Ready(l, f, peer)
    decreases l.nextIndex[peer]
  {
    var (m, g, accepted) := Round(l, f, id, peer);
    if accepted then (0, m, g) else
      RefusalStepsBack(l, f, id, peer);
      var (k, m', g') := Settled(m, g, id, peer);
      (k + 1, m', g')
  }

  /** Backoff converges: acceptance comes after fewer refusals than the next index counts, and the leader keeps its own
      log. The leader's log then is a prefix of the follower's exactly when the round accepted did not point beyond the
      end of the leader's log, or the prefix was there before; and it is the same log if entries had to be sent. */
  lemma {:induction false} BackoffConverges(l: NodeView, f: NodeView, id: string, peer: string)
    requires Ready(l, f, peer)
    ensures var (refusals, m, g) := Settled(l, f, id, peer);
            && refusals <= l.nextIndex[peer] - 1
            && m.log == l.log
            && (l.log <= g.log <==> l.nextIndex[peer] - refusals <= |l.log| + 1 || l.log <= f.log)
            && (l.nextIndex[peer] - refusals <= |l.log| ==> g.log == l.log && Lookup(m.matchIndex, peer) == |l.log|)
    decreases l.nextIndex[peer]
  {
    hide Round;
    var (m, g, accepted) := Round(l, f, id, peer);
    if accepted {
      RoundKeepsLeaderLog(l, f, id, peer);
      AcceptanceMeansPrefixIff(l, f, id, peer);
      if l.nextIndex[peer] <= |l.log| {
        AcceptanceCopies(l, f, id, peer);
      }
    } else {
      RefusalStepsBack(l, f, id, peer);
      BackoffConverges(m, g, id, peer);
    }
  }

  /** Without a next index beyond the end of the log, which is how a leader starts, the prefix is certain, and the
      follower has committed what the leader has. */
  lemma BackoffFromTheEnd(l: NodeView, f: NodeView, id: string, peer: string)
    requires Ready(l, f, peer) && l.nextIndex[peer] <= |l.log| + 1
    ensures var (refusals, _, g) := Settled(l, f, id, peer);
            && l.log <= g.log && (refusals > 0 ==> g.log == l.log)
            && (f.commitIndex <= l.commitIndex <= |l.log| ==> g.commitIndex == l.commitIndex)
  {
    var (refusals, m, g) := Settled(l, f, id, peer);
    BackoffConverges(l, f, id, peer);
    BackoffSharesCommit(l, f, id, peer);
  }
}

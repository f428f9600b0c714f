/** Leader Completeness and State Machine Safety (sections 5.4.3 and 5.4 of the Raft paper) over whole runs, under the
    seven guards: what is committed is never lost and never differs between nodes. */
module RaftSafety {
  import opened RaftLog
  import opened RaftState
  import opened RaftNode
  import opened RaftCommit
  import opened RaftCluster
  import opened RaftElection
  import opened RaftRetention
  import opened RaftTrace
  import opened RaftReigns
  import opened RaftBallots
  import opened RaftCompleteness
  import M = RaftMatching
  import P = RaftReplication

  // Match indexes tell the truth.

  /** The leader has stored its own entries, its match indexes are of what the peers have stored in its term, and its
      next indexes do not point beyond the end of its log. */
  ghost predicate LeaderOk(h: Trace, n: string)
    requires n in h.c.servers
  {
    var v := h.c.servers[n].view;
    v.role == Leader ==>
      && v.term in h.reigns
      && (|v.log| > h.reigns[v.term].start ==> HasStored(h, n, v.term, |v.log|))
      && (forall p :: p in Peers(h.c, n) && Lookup(v.matchIndex, p) > 0 ==> HasStored(h, p, v.term, v.matchIndex[p]))
      && (forall p :: p in Peers(h.c, n) ==> Lookup(v.nextIndex, p) <= |v.log| + 1)
  }

  ghost predicate AnswerOk(h: Trace, m: Message) {
    m.AppendAnswered? && m.result.success && m.sent.entries != [] ==>
      HasStored(h, m.from, m.sent.term, LastNew(m.sent))
  }

  ghost predicate MatchInv(h: Trace) {
    && (forall n :: n in h.c.servers ==> LeaderOk(h, n))
    && (forall m :: m in h.c.net ==> AnswerOk(h, m))
  }

  lemma HasStoredStays(h: Trace, a: Action, q: string, t: nat, k: nat)
    requires Step(h, a) && HasStored(h, q, t, k)
    ensures HasStored(After(h, a), q, t, k)
  {
    hide Next, Step, ReignsAfter, BallotsAfter, StoresAfter;
    StepGrows(h, a);
  }

  lemma StoredIsInLog(h: Trace, q: string, t: nat, k: nat)
    requires StoresInv(h) && HasStored(h, q, t, k)
    ensures t in h.reigns && k <= |h.reigns[t].log|
  {
    var x :| x in h.stores && x.node == q && x.term == t && x.upTo >= k;
    assert StoreOk(h, x);
  }

  /** A leader that stays leader changes its indexes only when it takes an answer. */
  lemma IndexStep(c: Cluster, a: Action, n: string)
    requires n in c.servers && n in Next(c, a).servers && Next(c, a).servers[n].view.role == Leader && !WinsNow(c, a, n)
    ensures var v, w := c.servers[n].view, Next(c, a).servers[n].view;
            if a.TakeAnswer? && Enabled(c, a) && a.m.to == n
            then w == OnAppendResponse(v, a.m.from, a.m.sent, a.m.result) && a.m.result.term <= a.m.sent.term
            else w.matchIndex == v.matchIndex && w.nextIndex == v.nextIndex
  {
    hide EverLed, AppliedUpTo, Handed, Choice, Read, Spliced;
  }

  lemma WinnerIndexes(c: Cluster, a: Action, n: string)
    requires n in c.servers && WinsNow(c, a, n)
    ensures n in Next(c, a).servers
    ensures var w := Next(c, a).servers[n].view;
            forall p :: p in Peers(c, n) ==> Lookup(w.matchIndex, p) == 0 && Lookup(w.nextIndex, p) == |w.log| + 1
  {
  }

  lemma NewLeaderOk(h: Trace, a: Action, n: string)
    requires Step(h, a) && n in h.c.servers && WinsNow(h.c, a, n)
    ensures n in After(h, a).c.servers && LeaderOk(After(h, a), n)
  {
    hide Next, RaftElection.Inv, M.Inv, Sound, StoresAfter, BallotsAfter;
    WinnerIndexes(h.c, a, n);
    NextKeepsMembers(h.c, a);
    LogStep(h.c, a, n);
    LeaderStepTerm(h.c, a, n);
  }

  lemma LeaderStepTerm(c: Cluster, a: Action, n: string)
    requires n in c.servers && WinsNow(c, a, n)
    ensures n in Next(c, a).servers && Next(c, a).servers[n].view.term == c.servers[n].view.term
  {
  }

  /** The match and next index of a peer after an answer. */
  lemma TakenAnswer(h: Trace, a: Action, n: string, p: string)
    requires n in h.c.servers && a.TakeAnswer? && a.m.AppendAnswered? && a.m.to == n && p in Peers(h.c, n)
    requires a.m.result.term <= a.m.sent.term && h.c.servers[n].view.role == Leader
    requires Step(h, a) && StoresInv(h) && MatchInv(h) && Enabled(h.c, a)
    ensures var v := h.c.servers[n].view;
            var w := OnAppendResponse(v, a.m.from, a.m.sent, a.m.result);
            && (Lookup(w.matchIndex, p) > 0 ==> HasStored(h, p, v.term, Lookup(w.matchIndex, p)))
            && Lookup(w.nextIndex, p) <= |v.log| + 1
  {
    hide Next, RaftElection.Inv, M.Inv, HasStored, StoresInv;
    var v := h.c.servers[n].view;
    assert LeaderOk(h, n) && AnswerOk(h, a.m) && NodeOk(h, n);
    if a.m.result.success && a.m.sent.entries != [] {
      assert Obeys(h.c, a, AnswersAreCurrent);
      StoredIsInLog(h, a.m.from, a.m.sent.term, LastNew(a.m.sent));
    }
  }

  lemma OldLeaderStays(h: Trace, a: Action, n: string)
    requires Step(h, a) && StoresInv(h) && MatchInv(h) && n in h.c.servers
    requires n in Next(h.c, a).servers && Next(h.c, a).servers[n].view.role == Leader && !WinsNow(h.c, a, n)
    ensures LeaderOk(After(h, a), n)
  {
    hide Next, RaftElection.Inv, M.Inv, Sound, BallotsAfter, HasStored, StoresInv, OnAppendResponse, RaftReigns.Inv;
    var v, d := h.c.servers[n].view, After(h, a);
    var w := d.c.servers[n].view;
    LeaderStep(h.c, a, n);
    IndexStep(h.c, a, n);
    LogStep(h.c, a, n);
    StepGrows(h, a);
    assert LeaderOk(h, n);
    if Proposes(h.c, a, n) {
      assert Stored(n, v.term, |w.log|) in d.stores;
      JustStored(d, n, v.term, |w.log|);
    } else if |v.log| > h.reigns[v.term].start {
      HasStoredStays(h, a, n, v.term, |v.log|);
    }
    forall p | p in Peers(d.c, n)
      ensures Lookup(w.nextIndex, p) <= |w.log| + 1
      ensures Lookup(w.matchIndex, p) > 0 ==> HasStored(d, p, w.term, w.matchIndex[p])
    {
      if a.TakeAnswer? && Enabled(h.c, a) && a.m.to == n {
        TakenAnswer(h, a, n, p);
      }
      if Lookup(w.matchIndex, p) > 0 {
        HasStoredStays(h, a, p, v.term, w.matchIndex[p]);
      }
    }
  }

  lemma JustStored(h: Trace, n: string, t: nat, k: nat)
    requires Stored(n, t, k) in h.stores
    ensures HasStored(h, n, t, k)
  {
  }

  lemma AnswerStays(h: Trace, a: Action, m: Message)
    requires Step(h, a) && MatchInv(h) && m in Next(h.c, a).net
    ensures AnswerOk(After(h, a), m)
  {
    hide Next, RaftElection.Inv, Sound, BallotsAfter, HasStored, RaftReigns.Inv;
    if m in h.c.net {
      assert AnswerOk(h, m);
      if m.AppendAnswered? && m.result.success && m.sent.entries != [] {
        HasStoredStays(h, a, m.from, m.sent.term, LastNew(m.sent));
      }
    } else if m.AppendAnswered? && m.result.success && m.sent.entries != [] {
      NewAnswer(h.c, a, m);
      assert M.RequestOk(a.m) && a.m.origin in M.Logs(h.c);
      assert LastNew(m.sent) == |a.m.origin|;
      JustStored(After(h, a), m.from, m.sent.term, LastNew(m.sent));
    }
  }

  lemma NewAnswer(c: Cluster, a: Action, m: Message)
    requires m in Next(c, a).net && m !in c.net && m.AppendAnswered? && m.result.success && m.sent.entries != []
    ensures a.AnswerAppend? && Writes(c, a, a.m.to) && m.from == a.m.to && m.to == a.m.from && m.sent == a.m.append
  {
  }

  lemma MatchesStay(h: Trace, a: Action)
    requires Step(h, a) && StoresInv(h) && MatchInv(h)
    ensures MatchInv(After(h, a))
  {
    hide Next, Step, ReignsAfter, BallotsAfter, StoresAfter, StoresInv, AnswerOk;
    var d := After(h, a);
    NextKeepsMembers(h.c, a);
    forall n | n in d.c.servers ensures LeaderOk(d, n) {
      if WinsNow(h.c, a, n) {
        NewLeaderOk(h, a, n);
      } else if d.c.servers[n].view.role == Leader {
        OldLeaderStays(h, a, n);
      }
    }
    forall m | m in d.c.net ensures AnswerOk(d, m) {
      AnswerStays(h, a, m);
    }
  }

  // Commits.

  /** The first `k` entries of a log are there, and are part of what was chosen in some term up to `limit`. */
  ghost predicate Safe(h: Trace, log: seq<Entry>, k: nat, limit: nat) {
    && k <= |log|
    && (k == 0 || exists t: nat, j: nat :: Chosen(h, t, j) && t <= limit && log[..k] <= Prefix(h.reigns[t], j))
  }

  ghost predicate RequestIsSafe(h: Trace, m: Message) {
    m.AppendAsked? ==>
      m.append.prevLogIndex <= |m.origin| && Safe(h, m.origin, m.append.leaderCommit, m.append.term)
  }

  ghost predicate CommitInv(h: Trace) {
    && (forall n :: n in h.c.servers ==>
          Safe(h, h.c.servers[n].view.log, h.c.servers[n].view.commitIndex, h.c.servers[n].view.term))
    && (forall m :: m in h.c.net ==> RequestIsSafe(h, m))
  }

  lemma ChosenStays(h: Trace, a: Action, t: nat, k: nat)
    requires Step(h, a) && Chosen(h, t, k)
    ensures Chosen(After(h, a), t, k) && Prefix(ReignsAfter(h, a)[t], k) == Prefix(h.reigns[t], k)
  {
    hide Next, Step, ReignsAfter, BallotsAfter, StoresAfter, HasStored;
    var d := After(h, a);
    StepGrows(h, a);
    PrefixStays(h.reigns, d.reigns, t, k);
    forall q | q in Holders(h, t, k) ensures q in Holders(d, t, k) {
      HasStoredStays(h, a, q, t, k);
    }
    SubsetCardinality(Holders(h, t, k), Holders(d, t, k));
  }

  /** Safety survives a step, for any log that has the entries, for fewer entries, and for a later limit. */
  lemma SafeStays(h: Trace, a: Action, log: seq<Entry>, k: nat, limit: nat, other: seq<Entry>, j: nat, later: nat)
    requires Step(h, a) && Safe(h, log, k, limit) && j <= k && j <= |other| && other[..j] == log[..j] && limit <= later
    ensures Safe(After(h, a), other, j, later)
  {
    hide Next, Step, ReignsAfter, BallotsAfter, StoresAfter, Holders;
    if j > 0 {
      var t: nat, i: nat :| Chosen(h, t, i) && t <= limit && log[..k] <= Prefix(h.reigns[t], i);
      ChosenStays(h, a, t, i);
      assert other[..j] == log[..j] == log[..k][..j];
      assert other[..j] <= Prefix(After(h, a).reigns[t], i);
    }
  }

  /** A follower that writes keeps what it has committed. */
  lemma WriterKeepsCommitted(h: Trace, a: Action, n: string)
    requires n in h.c.servers && a.AnswerAppend? && a.m.AppendAsked?
    requires Step(h, a) && RaftCompleteness.Inv(h) && Writes(h.c, a, n)
    requires var v := h.c.servers[n].view; Safe(h, v.log, v.commitIndex, v.term)
    ensures var v := h.c.servers[n].view;
            v.commitIndex <= |a.m.origin| && a.m.origin[..v.commitIndex] == v.log[..v.commitIndex]
  {
    hide Next, Sound, RaftReigns.Inv, VotesInv, StoresInv, Step;
    var v := h.c.servers[n].view;
    if v.commitIndex > 0 {
      var t: nat, j: nat :| Chosen(h, t, j) && t <= v.term && v.log[..v.commitIndex] <= Prefix(h.reigns[t], j);
      WriterKeepsChosen(h, a, n, t, j);
    }
  }

  lemma WriterKeepsChosen(h: Trace, a: Action, n: string, t: nat, j: nat)
    requires n in h.c.servers && a.AnswerAppend? && a.m.AppendAsked?
    requires Step(h, a) && RaftCompleteness.Inv(h) && Writes(h.c, a, n) && Chosen(h, t, j)
    requires var v := h.c.servers[n].view;
             t <= v.term && v.commitIndex <= |v.log| && v.log[..v.commitIndex] <= Prefix(h.reigns[t], j)
    ensures h.c.servers[n].view.log[..h.c.servers[n].view.commitIndex] <= a.m.origin
  {
    hide Step, VotesInv, StoresInv, Holders, RaftReigns.Inv, Lacks, Base, Prefix;
    var v, m, u := h.c.servers[n].view, a.m, a.m.append.term;
    var k := v.commitIndex;
    WriterPieces(h, a, n);
    hide Writes;
    if t < u {
      LaterLeadersHaveIt(h, t, j, u);
      LacksOrHas(h.reigns, t, j, u, m.origin);
    } else {
      PrefixOfPrefix(h.reigns[u], v.log[..k], j);
      assert v.log[..k] <= v.log;
      OwnLeaderCutsNothing(h, a, n, k);
    }
  }

  lemma PrefixOfPrefix(r: Reign, l: seq<Entry>, j: nat)
    requires l <= Prefix(r, j)
    ensures |l| <= |r.log| && l == Prefix(r, |l|)
  {
  }

  /** A heartbeat brings a commit index only for entries that the follower has in common with the leader. */
  lemma HeartbeatAgrees(h: Trace, a: Action, n: string)
    requires Step(h, a) && CommitInv(h) && a.AnswerAppend? && Enabled(h.c, a) && a.m.to == n
    requires Acceptable(h.c.servers[n].view, a.m.append) && a.m.append.entries == []
    ensures var v, prev := h.c.servers[n].view, a.m.append.prevLogIndex;
            prev <= |v.log| && prev <= |a.m.origin| && v.log[..prev] == a.m.origin[..prev]
  {
    hide Next, RaftElection.Inv, Sound, Safe, RaftReigns.Inv;
    var v, m, prev := h.c.servers[n].view, a.m, a.m.append.prevLogIndex;
    assert RequestIsSafe(h, m) && M.RequestOk(m) && v.log in M.Logs(h.c) && m.origin in M.Logs(h.c);
    if prev > 0 {
      M.LedTermsArePositive(h.c, m.origin, prev - 1);
      MatchingPrefix(v.log, m.origin, prev);
    }
  }

  lemma AnswerStep(c: Cluster, a: Action)
    requires a.AnswerAppend? && Enabled(c, a)
    ensures a.m.to in Next(c, a).servers
    ensures Next(c, a).servers[a.m.to].view == OnAppendRequest(c.servers[a.m.to].view, a.m.append).0
  {
  }

  lemma AnswererIsSafe(h: Trace, a: Action, n: string)
    requires Step(h, a) && RaftCompleteness.Inv(h) && CommitInv(h) && a.AnswerAppend? && Enabled(h.c, a) && a.m.to == n
    ensures n in After(h, a).c.servers
    ensures var w := After(h, a).c.servers[n].view; Safe(After(h, a), w.log, w.commitIndex, w.term)
  {
    hide Next, RaftElection.Inv, M.Inv, Sound, VotesInv, StoresInv, Safe, After, RaftReigns.Inv, Spliced;
    var v, m := h.c.servers[n].view, a.m;
    var w := OnAppendRequest(v, m.append).0;
    AnswerStep(h.c, a);
    LogStep(h.c, a, n);
    AfterIs(h, a);
    assert RequestIsSafe(h, m);
    SafeLength(h, m.origin, m.append.leaderCommit, m.append.term);
    if Writes(h.c, a, n) {
      LastNewIs(h.c, m);
      if m.append.leaderCommit > v.commitIndex {
        SafeStays(h, a, m.origin, m.append.leaderCommit, m.append.term, w.log, w.commitIndex, w.term);
      } else {
        WriterKeepsCommitted(h, a, n);
        SafeStays(h, a, v.log, v.commitIndex, v.term, w.log, w.commitIndex, w.term);
      }
    } else if Acceptable(v, m.append) && m.append.leaderCommit > v.commitIndex {
      HeartbeatAgrees(h, a, n);
      assert v.log[..w.commitIndex] == v.log[..m.append.prevLogIndex][..w.commitIndex];
      assert m.origin[..w.commitIndex] == m.origin[..m.append.prevLogIndex][..w.commitIndex];
      SafeStays(h, a, m.origin, m.append.leaderCommit, m.append.term, w.log, w.commitIndex, w.term);
    } else {
      SafeLength(h, v.log, v.commitIndex, v.term);
      SafeStays(h, a, v.log, v.commitIndex, v.term, w.log, w.commitIndex, w.term);
    }
  }

  lemma AfterIs(h: Trace, a: Action)
    ensures After(h, a).c == Next(h.c, a)
  {
  }

  lemma SafeLength(h: Trace, log: seq<Entry>, k: nat, limit: nat)
    requires Safe(h, log, k, limit)
    ensures k <= |log|
  {
  }

  lemma LastNewIs(c: Cluster, m: Message)
    requires M.Inv(c) && m in c.net && m.AppendAsked? && m.append.entries != []
    ensures LastNew(m.append) == |m.origin|
  {
    assert M.RequestOk(m) && m.origin in M.Logs(c);
  }

  /** A leader that advances its commit index goes to an index that was chosen in its term. */
  lemma AdvanceIsChosen(h: Trace, a: Action, n: string)
    requires Step(h, a) && MatchInv(h) && P.MatchKeysOk(h.c) && n in h.c.servers
    requires a.Advance? && a.n == n && Enabled(h.c, a)
    requires CommitAdvanced(h.c.servers[n].view, a.order) != h.c.servers[n].view
    ensures var v := h.c.servers[n].view;
            var w := CommitAdvanced(v, a.order);
            && v.role == Leader && v.commitIndex < w.commitIndex <= |v.log| && w == v.(commitIndex := w.commitIndex)
            && Chosen(h, v.term, w.commitIndex) && v.log == h.reigns[v.term].log
  {
    hide Next, RaftElection.Inv, M.Inv, HasStored, Reached, EverLed, RaftReigns.Inv, P.MatchKeysOk, MatchInv;
    hide CommitAdvanced;
    var v := h.c.servers[n].view;
    assert v.role == Leader by {
      assert Obeys(h.c, a, LeadersCommit);
    }
    hide Sound;
    LeaderHasReign(h, n);
    CommitAdvanceIsSound(v, a.order);
    var k := CommitAdvanced(v, a.order).commitIndex;
    assert v.log[k - 1].term == v.term;
    P.LeaderKnowsAll(h.c, n);
    P.AdvanceIsChoiceOfMembers(h.c, n, a.order);
    ReachedAreHolders(h, n, k);
    SubsetCardinality(Reached(v.matchIndex[n := |v.log|], k), Holders(h, v.term, k));
  }

  lemma LeaderHasReign(h: Trace, n: string)
    requires RaftReigns.Inv(h) && M.Inv(h.c) && n in h.c.servers && h.c.servers[n].view.role == Leader
    ensures var v := h.c.servers[n].view;
            && v.term in h.reigns && h.reigns[v.term].log == v.log && v.term >= 1
            && forall i :: 0 <= i < |v.log| && v.log[i].term == v.term ==> h.reigns[v.term].start <= i
  {
    var v := h.c.servers[n].view;
    assert NodeOk(h, n) && ReignOk(h.reigns, v.term) && M.LeaderOk(h.c, n);
    assert Election(v.term, n) in h.c.elections;
  }

  lemma ReachedAreHolders(h: Trace, n: string, k: nat)
    requires MatchInv(h) && n in h.c.servers && h.c.servers[n].view.role == Leader
    requires var v := h.c.servers[n].view;
             && v.term in h.reigns && h.reigns[v.term].log == v.log && h.reigns[v.term].start < k <= |v.log|
             && v.matchIndex.Keys == Peers(h.c, n)
    ensures var v := h.c.servers[n].view;
            Reached(v.matchIndex[n := |v.log|], k) <= Holders(h, v.term, k)
  {
    var v := h.c.servers[n].view;
    assert LeaderOk(h, n);
    forall p | p in Reached(v.matchIndex[n := |v.log|], k) ensures p in Holders(h, v.term, k) {
      if p == n {
        MoreIsStored(h, n, v.term, |v.log|, k);
      } else {
        MoreIsStored(h, p, v.term, v.matchIndex[p], k);
      }
    }
  }

  lemma MoreIsStored(h: Trace, q: string, t: nat, k: nat, j: nat)
    requires HasStored(h, q, t, k) && j <= k
    ensures HasStored(h, q, t, j)
  {
    var x :| x in h.stores && x.node == q && x.term == t && x.upTo >= k;
    assert x.upTo >= j;
  }

  /** Commit indexes change by answers and advances only. */
  lemma CommitStep(c: Cluster, a: Action, n: string)
    requires n in c.servers && !(a.AnswerAppend? && Enabled(c, a) && a.m.to == n)
    ensures n in Next(c, a).servers
    ensures Next(c, a).servers[n].view.commitIndex ==
            if a.Advance? && Enabled(c, a) && a.n == n then CommitAdvanced(c.servers[n].view, a.order).commitIndex
            else c.servers[n].view.commitIndex
  {
  }

  lemma CommitStays(h: Trace, a: Action, n: string)
    requires Step(h, a) && RaftCompleteness.Inv(h) && MatchInv(h) && CommitInv(h) && P.MatchKeysOk(h.c)
             && n in h.c.servers
    ensures n in After(h, a).c.servers
    ensures var w := After(h, a).c.servers[n].view; Safe(After(h, a), w.log, w.commitIndex, w.term)
  {
    hide Next, RaftElection.Inv, M.Inv, Sound, VotesInv, StoresInv, MatchInv, Safe, After, CommitAdvanced,
      RaftReigns.Inv;
    hide P.MatchKeysOk;
    var v := h.c.servers[n].view;
    if a.AnswerAppend? && Enabled(h.c, a) && a.m.to == n {
      AnswererIsSafe(h, a, n);
    } else {
      AfterIs(h, a);
      LogStep(h.c, a, n);
      CommitStep(h.c, a, n);
      SoundIsGuarded(h.c, a);
      TermStep(h.c, a, n);
      SafeLength(h, v.log, v.commitIndex, v.term);
      var w := Next(h.c, a).servers[n].view;
      if a.Advance? && Enabled(h.c, a) && a.n == n && CommitAdvanced(v, a.order) != v {
        AdvanceIsChosen(h, a, n);
        ChosenIsSafe(h, v.term, w.commitIndex, v.log);
        SafeStays(h, a, v.log, w.commitIndex, v.term, w.log, w.commitIndex, w.term);
      } else {
        SafeStays(h, a, v.log, v.commitIndex, v.term, w.log, w.commitIndex, w.term);
      }
    }
  }

  lemma ChosenIsSafe(h: Trace, t: nat, k: nat, log: seq<Entry>)
    requires Chosen(h, t, k) && log == h.reigns[t].log
    ensures Safe(h, log, k, t)
  {
    assert log[..k] <= Prefix(h.reigns[t], k);
  }

  lemma RequestStaysSafe(h: Trace, a: Action, m: Message)
    requires Step(h, a) && MatchInv(h) && CommitInv(h) && P.NextIndexesOk(h.c) && m in Next(h.c, a).net
    ensures RequestIsSafe(After(h, a), m)
  {
    hide Next, RaftElection.Inv, M.Inv, Safe, After, RaftReigns.Inv, HasStored;
    if m.AppendAsked? {
      if m in h.c.net {
        assert RequestIsSafe(h, m);
        SafeLength(h, m.origin, m.append.leaderCommit, m.append.term);
        SafeStays(h, a, m.origin, m.append.leaderCommit, m.append.term, m.origin, m.append.leaderCommit, m.append.term);
      } else {
        NewRequest(h.c, a, m);
        var v := h.c.servers[a.n].view;
        LeaderHasReign(h, a.n);
        LeaderHasLed(h.c, a.n);
        assert LeaderOk(h, a.n) && Lookup(v.nextIndex, a.peer) >= 1;
        SafeLength(h, v.log, v.commitIndex, v.term);
        SafeStays(h, a, v.log, v.commitIndex, v.term, v.log, v.commitIndex, v.term);
      }
    }
  }

  lemma LeaderHasLed(c: Cluster, n: string)
    requires M.Inv(c) && n in c.servers && c.servers[n].view.role == Leader
    ensures EverLed(c, n)
  {
    assert M.LeaderOk(c, n);
    var i :| 0 <= i < |c.elections| && c.elections[i] == Election(c.servers[n].view.term, n);
    assert c.elections[i].winner == n;
  }

  lemma CommitsStay(h: Trace, a: Action)
    requires Step(h, a) && RaftCompleteness.Inv(h) && MatchInv(h) && CommitInv(h)
    requires P.MatchKeysOk(h.c) && P.NextIndexesOk(h.c)
    ensures CommitInv(After(h, a))
  {
    hide Next, Step, RaftCompleteness.Inv, MatchInv, Safe, P.MatchKeysOk, P.NextIndexesOk, RequestIsSafe;
    var d := After(h, a);
    NextKeepsMembers(h.c, a);
    forall n | n in d.c.servers
      ensures Safe(d, d.c.servers[n].view.log, d.c.servers[n].view.commitIndex, d.c.servers[n].view.term)
    {
      CommitStays(h, a, n);
    }
    forall m | m in d.c.net ensures RequestIsSafe(d, m) {
      RequestStaysSafe(h, a, m);
    }
  }

  // Sound runs.

  ghost predicate SafetyInv(h: Trace) {
    RaftCompleteness.Inv(h) && MatchInv(h) && CommitInv(h)
  }

  lemma BeginIsSafe(ids: set<string>)
    ensures SafetyInv(Begin(ids))
  {
    BeginInv(ids);
  }

  lemma {:induction false} SoundRunIsSafe(ids: set<string>, steps: seq<Action>)
    requires ValidIds(ids) && SoundRun(ids, steps)
    ensures SafetyInv(Traced(ids, steps))
  {
    hide Next, RaftReigns.Inv, VotesInv, StoresInv, MatchInv, CommitInv, RaftElection.Inv, M.Inv, After;
    if steps == [] {
      BeginIsSafe(ids);
    } else {
      var front, a := steps[..|steps| - 1], steps[|steps| - 1];
      var h := Traced(ids, front);
      SoundFront(ids, steps);
      SoundRunIsSafe(ids, front);
      SoundStep(ids, steps);
      RaftReigns.NextKeepsInv(h, a);
      VotesStay(h, a);
      StoresStay(h, a);
      MatchesStay(h, a);
      P.RunKeepsMatchKeys(ids, front);
      P.RunKeepsNextIndexes(ids, front);
      CommitsStay(h, a);
    }
  }

  lemma SoundStep(ids: set<string>, steps: seq<Action>)
    requires ValidIds(ids) && SoundRun(ids, steps) && steps != []
    requires RaftReigns.Inv(Traced(ids, steps[..|steps| - 1]))
    ensures Step(Traced(ids, steps[..|steps| - 1]), steps[|steps| - 1])
    ensures Traced(ids, steps[..|steps| - 1]).c == Run(ids, steps[..|steps| - 1])
  {
    hide Next, RaftElection.Inv, M.Inv, RaftReigns.Inv;
    var front, a := steps[..|steps| - 1], steps[|steps| - 1];
    TraceFollowsRun(ids, front);
    SoundFront(ids, steps);
    ElectionSafety(ids, front);
    ElectionSafety(ids, steps);
    GuardedRunKeepsInv(ids, front);
    M.RunKeepsInv(ids, front);
  }

  /** What has been chosen stays so, and so does the log of its leader. */
  lemma {:induction false} ChosenForever(ids: set<string>, steps: seq<Action>, more: seq<Action>, t: nat, k: nat)
    requires ValidIds(ids) && SoundRun(ids, steps + more) && Chosen(Traced(ids, steps), t, k)
    ensures Chosen(Traced(ids, steps + more), t, k)
    ensures Prefix(Traced(ids, steps + more).reigns[t], k) == Prefix(Traced(ids, steps).reigns[t], k)
  {
    hide Next, Chosen, SafetyInv, After, Step;
    if more == [] {
      assert steps + more == steps;
    } else {
      var whole, front := steps + more, steps + more[..|more| - 1];
      assert whole[..|whole| - 1] == front;
      SoundFront(ids, whole);
      ChosenForever(ids, steps, more[..|more| - 1], t, k);
      SoundRunIsSafe(ids, front);
      assert RaftReigns.Inv(Traced(ids, front)) by {
        SafetyHasReigns(Traced(ids, front));
      }
      SoundStep(ids, whole);
      ChosenStays(Traced(ids, front), whole[|whole| - 1], t, k);
      AfterHas(Traced(ids, front), whole[|whole| - 1]);
    }
  }

  lemma SafetyHasReigns(h: Trace)
    requires SafetyInv(h)
    ensures RaftReigns.Inv(h)
  {
  }

  lemma AfterHas(h: Trace, a: Action)
    ensures After(h, a).reigns == ReignsAfter(h, a)
  {
  }

  lemma {:induction false} SoundPrefix(ids: set<string>, steps: seq<Action>, more: seq<Action>)
    requires SoundRun(ids, steps + more)
    ensures SoundRun(ids, steps)
  {
    if more == [] {
      assert steps + more == steps;
    } else {
      var whole := steps + more;
      assert whole[..|whole| - 1] == steps + more[..|more| - 1];
      SoundFront(ids, whole);
      SoundPrefix(ids, steps, more[..|more| - 1]);
    }
  }

  /** Two things that were chosen are parts of one log. */
  lemma ChosenAgree(h: Trace, t: nat, k: nat, u: nat, j: nat, i: nat)
    requires RaftCompleteness.Inv(h) && Chosen(h, t, k) && Chosen(h, u, j) && t <= u && i <= k && i <= j
    ensures Prefix(h.reigns[t], k)[..i] == Prefix(h.reigns[u], j)[..i]
  {
    hide VotesInv, StoresInv, Holders;
    assert ReignOk(h.reigns, u);
    if t < u {
      LaterLeadersHaveIt(h, t, k, u);
      assert Prefix(h.reigns[t], k) <= Base(h.reigns[u]) <= h.reigns[u].log;
    }
  }

  lemma LaterLeaderHasIt(h: Trace, t: nat, k: nat, p: string)
    requires RaftCompleteness.Inv(h) && Chosen(h, t, k) && p in h.c.servers
    requires h.c.servers[p].view.role == Leader && h.c.servers[p].view.term > t
    ensures Prefix(h.reigns[t], k) <= h.c.servers[p].view.log
  {
    hide VotesInv, StoresInv, Chosen;
    var v := h.c.servers[p].view;
    assert NodeOk(h, p) && ReignOk(h.reigns, v.term);
    LaterLeadersHaveIt(h, t, k, v.term);
  }

  /** The first step of the rest of a sound run. */
  lemma SoundNext(ids: set<string>, steps: seq<Action>, more: seq<Action>)
    requires ValidIds(ids) && SoundRun(ids, steps + more) && more != []
    ensures SoundRun(ids, steps) && SafetyInv(Traced(ids, steps)) && Traced(ids, steps).c == Run(ids, steps)
    ensures Step(Traced(ids, steps), more[0])
  {
    hide Next, SafetyInv, Step, RaftReigns.Inv;
    var one := steps + [more[0]];
    assert steps + more == one + more[1..];
    SoundPrefix(ids, one, more[1..]);
    SoundPrefix(ids, steps, [more[0]]);
    SoundRunIsSafe(ids, steps);
    SafetyHasReigns(Traced(ids, steps));
    assert one[..|one| - 1] == steps;
    SoundStep(ids, one);
  }

  /** The index a leader commits has been chosen. */
  lemma CommitIsChosen(ids: set<string>, steps: seq<Action>, more: seq<Action>, n: string, order: seq<string>)
    requires ValidIds(ids) && SoundRun(ids, steps + more) && more != [] && more[0] == Advance(n, order)
    requires Enabled(Run(ids, steps), Advance(n, order))
    requires CommitAdvanced(Run(ids, steps).servers[n].view, order) != Run(ids, steps).servers[n].view
    ensures var v, h := Run(ids, steps).servers[n].view, Traced(ids, steps);
            var k := CommitAdvanced(v, order).commitIndex;
            k <= |v.log| && Chosen(h, v.term, k) && v.log[..k] == Prefix(h.reigns[v.term], k)
  {
    hide Next, Run, Traced, SoundRun, Chosen, RaftReigns.Inv, VotesInv, StoresInv, CommitInv, P.MatchKeysOk, Step,
      MatchInv;
    SoundNext(ids, steps, more);
    P.RunKeepsMatchKeys(ids, steps);
    AdvanceIsChosen(Traced(ids, steps), more[0], n);
  }

  /** Leader Completeness: in every sound run, whoever leads a later term than the one in which an index was committed
      has all entries up to that index, now and in every continuation. */
  lemma LeaderCompleteness(ids: set<string>, steps: seq<Action>, more: seq<Action>, n: string, order: seq<string>,
    p: string)
    requires ValidIds(ids) && SoundRun(ids, steps + more) && more != [] && more[0] == Advance(n, order)
    requires Enabled(Run(ids, steps), Advance(n, order))
    requires CommitAdvanced(Run(ids, steps).servers[n].view, order) != Run(ids, steps).servers[n].view
    requires p in Run(ids, steps + more).servers
    ensures var v, w := Run(ids, steps).servers[n].view, Run(ids, steps + more).servers[p].view;
            var k := CommitAdvanced(v, order).commitIndex;
            k <= |v.log| && (w.role == Leader && w.term > v.term ==> v.log[..k] <= w.log)
  {
    hide Next, Run, Traced, SoundRun, Chosen, RaftReigns.Inv, VotesInv, StoresInv, CommitInv, MatchInv;
    var v, w := Run(ids, steps).servers[n].view, Run(ids, steps + more).servers[p].view;
    CommitIsChosen(ids, steps, more, n, order);
    var k := CommitAdvanced(v, order).commitIndex;
    ChosenForever(ids, steps, more, v.term, k);
    SoundRunIsSafe(ids, steps + more);
    TraceFollowsRun(ids, steps + more);
    if w.role == Leader && w.term > v.term {
      LaterLeaderHasIt(Traced(ids, steps + more), v.term, k, p);
    }
  }

  /** What is safe in one state and what is safe in another agree. */
  lemma SafeAgree(h: Trace, d: Trace, a: seq<Entry>, j: nat, x: nat, b: seq<Entry>, k: nat, y: nat, i: nat)
    requires RaftCompleteness.Inv(d) && Safe(h, a, j, x) && Safe(d, b, k, y) && i <= j && i <= k
    requires forall t: nat, l: nat :: Chosen(h, t, l) ==>
               Chosen(d, t, l) && Prefix(d.reigns[t], l) == Prefix(h.reigns[t], l)
    ensures a[..i] == b[..i]
  {
    hide VotesInv, StoresInv, Holders, RaftReigns.Inv;
    if i > 0 {
      var t: nat, l: nat :| Chosen(h, t, l) && t <= x && a[..j] <= Prefix(h.reigns[t], l);
      var u: nat, m: nat :| Chosen(d, u, m) && u <= y && b[..k] <= Prefix(d.reigns[u], m);
      assert a[..i] == Prefix(d.reigns[t], l)[..i] && b[..i] == Prefix(d.reigns[u], m)[..i];
      if t <= u {
        ChosenAgree(d, t, l, u, m, i);
      } else {
        ChosenAgree(d, u, m, t, l, i);
      }
    }
  }

  /** State Machine Safety: in every sound run, what any node has committed at any time and what any node, the same or
      another, has committed at a later time agree entry by entry, as far as both go. */
  lemma StateMachineSafety(ids: set<string>, steps: seq<Action>, more: seq<Action>, p: string, q: string, i: nat)
    requires ValidIds(ids) && SoundRun(ids, steps + more)
    requires p in Run(ids, steps).servers && q in Run(ids, steps + more).servers
    requires i <= Run(ids, steps).servers[p].view.commitIndex && i <= Run(ids, steps + more).servers[q].view.commitIndex
    ensures var v, w := Run(ids, steps).servers[p].view, Run(ids, steps + more).servers[q].view;
            i <= |v.log| && i <= |w.log| && v.log[..i] == w.log[..i]
  {
    hide Next, Run, Traced, SoundRun, Holders, RaftReigns.Inv, VotesInv, StoresInv, MatchInv, Safe, RequestIsSafe;
    var h, d := Traced(ids, steps), Traced(ids, steps + more);
    var v, w := Run(ids, steps).servers[p].view, Run(ids, steps + more).servers[q].view;
    SoundPrefix(ids, steps, more);
    SoundRunIsSafe(ids, steps);
    SoundRunIsSafe(ids, steps + more);
    TraceFollowsRun(ids, steps);
    TraceFollowsRun(ids, steps + more);
    SafeLength(h, v.log, v.commitIndex, v.term);
    SafeLength(d, w.log, w.commitIndex, w.term);
    forall t: nat, l: nat | Chosen(h, t, l)
      ensures t in h.reigns && Chosen(d, t, l) && Prefix(d.reigns[t], l) == Prefix(h.reigns[t], l)
    {
      ChosenForever(ids, steps, more, t, l);
    }
    SafeAgree(h, d, v.log, v.commitIndex, v.term, w.log, w.commitIndex, w.term, i);
  }

  // What is applied.

  /** What a node has applied is part of what has been chosen. */
  ghost predicate AppliedIsSafe(h: Trace, n: string)
    requires n in h.c.servers
  {
    var s := h.c.servers[n];
    |s.applied| == s.view.lastApplied && Safe(h, s.applied, |s.applied|, s.view.term)
  }

  /** A pass goes on with the log where it has stopped. */
  lemma PassContinues(h: Trace, n: string)
    requires RaftCompleteness.Inv(h) && CommitInv(h) && n in h.c.servers && AppliedIsSafe(h, n)
    requires AppliedUpTo(h.c.servers[n].view) > h.c.servers[n].view.lastApplied
    ensures var s := h.c.servers[n];
            var k := AppliedUpTo(s.view);
            k <= s.view.commitIndex && k <= |s.view.log| && s.applied + Handed(s.view) == s.view.log[..k]
  {
    hide RaftCompleteness.Inv, Safe, Chosen, RequestIsSafe;
    var s := h.c.servers[n];
    var v := s.view;
    SafeAgree(h, h, s.applied, |s.applied|, v.term, v.log, v.commitIndex, v.term, v.lastApplied);
    assert s.applied[..v.lastApplied] == s.applied;
  }

  lemma AppliedStays(h: Trace, a: Action, n: string)
    requires Step(h, a) && RaftCompleteness.Inv(h) && CommitInv(h) && n in h.c.servers && AppliedIsSafe(h, n)
    ensures n in After(h, a).c.servers && AppliedIsSafe(After(h, a), n)
  {
    hide Next, Safe, RaftCompleteness.Inv, RaftReigns.Inv, RaftElection.Inv, M.Inv, Sound, RequestIsSafe;
    var s := h.c.servers[n];
    P.AppliedStep(h.c, a, n);
    SoundIsGuarded(h.c, a);
    TermStep(h.c, a, n);
    var t := Next(h.c, a).servers[n];
    if a == Apply(n) && AppliedUpTo(s.view) > s.view.lastApplied {
      PassContinues(h, n);
      SafeStays(h, a, s.view.log, s.view.commitIndex, s.view.term, t.applied, |t.applied|, t.view.term);
    } else {
      SafeStays(h, a, s.applied, |s.applied|, s.view.term, t.applied, |t.applied|, t.view.term);
    }
  }

  lemma {:induction false} AppliedInSoundRun(ids: set<string>, steps: seq<Action>, n: string)
    requires ValidIds(ids) && SoundRun(ids, steps) && n in ids
    ensures n in Traced(ids, steps).c.servers && AppliedIsSafe(Traced(ids, steps), n)
  {
    hide Next, RaftReigns.Inv, VotesInv, StoresInv, MatchInv, RequestIsSafe, After, Step;
    if steps != [] {
      var front, a := steps[..|steps| - 1], steps[|steps| - 1];
      SoundFront(ids, steps);
      SoundRunIsSafe(ids, front);
      AppliedInSoundRun(ids, front, n);
      SoundStep(ids, steps);
      AppliedStays(Traced(ids, front), a, n);
    }
  }

  /** State Machine Safety of what is applied: in every sound run, of what any node has been handed to apply at any time
      and what any node, the same or another, has been handed at a later time, one is the beginning of the other. So no
      two different entries are ever applied at one index. */
  lemma AppliedAgree(ids: set<string>, steps: seq<Action>, more: seq<Action>, p: string, q: string)
    requires ValidIds(ids) && SoundRun(ids, steps + more) && p in ids && q in ids
    ensures p in Run(ids, steps).servers && q in Run(ids, steps + more).servers
    ensures var a, b := Run(ids, steps).servers[p].applied, Run(ids, steps + more).servers[q].applied;
            a <= b || b <= a
  {
    hide Next, Run, Traced, SoundRun, Holders, RaftReigns.Inv, VotesInv, StoresInv, MatchInv, Safe, RequestIsSafe;
    var h, d := Traced(ids, steps), Traced(ids, steps + more);
    SoundPrefix(ids, steps, more);
    SoundRunIsSafe(ids, steps + more);
    TraceFollowsRun(ids, steps);
    TraceFollowsRun(ids, steps + more);
    AppliedInSoundRun(ids, steps, p);
    AppliedInSoundRun(ids, steps + more, q);
    forall t: nat, l: nat | Chosen(h, t, l)
      ensures t in h.reigns && Chosen(d, t, l) && Prefix(d.reigns[t], l) == Prefix(h.reigns[t], l)
    {
      ChosenForever(ids, steps, more, t, l);
    }
    var a, b := h.c.servers[p].applied, d.c.servers[q].applied;
    var i := if |a| <= |b| then |a| else |b|;
    SafeAgree(h, d, a, |a|, h.c.servers[p].view.term, b, |b|, d.c.servers[q].view.term, i);
    assert a[..i] == b[..i];
  }
}

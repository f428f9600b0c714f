/** Leader Completeness (section 5.4 of the Raft paper) for sound runs: what a commit quorum has stored of a leader's
    log in that leader's term is in the log of every later leader. */
module RaftCompleteness {
  import opened RaftLog
  import opened RaftNode
  import opened RaftCommit
  import opened RaftCluster
  import opened RaftElection
  import opened RaftTrace
  import opened RaftReigns
  import opened RaftBallots
  import M = RaftMatching

  /** The leader of term `u` started without the first `k` entries of the leader of term `t`. */
  ghost predicate Lacks(r: map<nat, Reign>, t: nat, k: nat, u: nat)
    requires t in r && u in r
  {
    !(Prefix(r[t], k) <= Base(r[u]))
  }

  /** A log has the first `k` entries of the leader of term `t`, unless a later leader below `limit` lacks them. */
  ghost predicate Kept(r: map<nat, Reign>, t: nat, k: nat, log: seq<Entry>, limit: nat)
    requires t in r
  {
    Prefix(r[t], k) <= log || exists u :: t < u < limit && u in r && Lacks(r, t, k, u)
  }

  ghost predicate KeptNow(h: Trace, x: Stored, k: nat)
    requires x.node in h.c.servers && x.term in h.reigns
  {
    Kept(h.reigns, x.term, k, h.c.servers[x.node].view.log, h.c.servers[x.node].view.term + 1)
  }

  /** What a node has stored of a leader's own entries it keeps. */
  ghost predicate StoreOk(h: Trace, x: Stored) {
    && x.node in h.c.servers && x.term <= h.c.servers[x.node].view.term
    && x.term in h.reigns && x.upTo <= |h.reigns[x.term].log|
    && forall k :: h.reigns[x.term].start < k <= x.upTo ==> KeptNow(h, x, k)
  }

  /** And it still had it when it voted in a later term. */
  ghost predicate PairOk(h: Trace, x: Stored, b: Ballot)
    requires x.term in h.reigns
  {
    x.node == b.voter && x.term < b.term ==>
      forall k :: h.reigns[x.term].start < k <= x.upTo ==> Kept(h.reigns, x.term, k, b.held, b.term)
  }

  ghost predicate StoresInv(h: Trace) {
    && (forall x :: x in h.stores ==> StoreOk(h, x))
    && (forall x, b :: x in h.stores && b in h.ballots ==> PairOk(h, x, b))
  }

  lemma PrefixStays(r: map<nat, Reign>, s: map<nat, Reign>, t: nat, k: nat)
    requires Grows(r, s) && t in r && k <= |r[t].log|
    ensures Prefix(s[t], k) == Prefix(r[t], k)
  {
  }

  /** Keeping survives the growth of reigns and logs and a later limit. */
  lemma KeptStays(r: map<nat, Reign>, s: map<nat, Reign>, t: nat, k: nat, log: seq<Entry>, longer: seq<Entry>,
    limit: nat,
                  later: nat)
    requires Grows(r, s) && (forall u :: u in r ==> r[u].start <= |r[u].log|) && t in r && k <= |r[t].log|
    requires log <= longer && limit <= later && Kept(r, t, k, log, limit)
    ensures Kept(s, t, k, longer, later)
  {
    PrefixStays(r, s, t, k);
    if !(Prefix(r[t], k) <= log) {
      var u :| t < u < limit && u in r && Lacks(r, t, k, u);
      PrefixStays(r, s, u, r[u].start);
      assert Lacks(s, t, k, u);
    }
  }

  lemma StartsOk(h: Trace)
    requires RaftReigns.Inv(h)
    ensures forall u :: u in h.reigns ==> h.reigns[u].start <= |h.reigns[u].log|
  {
    forall u | u in h.reigns ensures h.reigns[u].start <= |h.reigns[u].log| {
      assert ReignOk(h.reigns, u);
    }
  }

  /** A writer keeps what it had stored: the leader it hears from has it, or is one that lacks it; and its own leader
      does not cut it off. */
  lemma WriterKeeps(h: Trace, a: Action, x: Stored, k: nat)
    requires x.node in h.c.servers && a.AnswerAppend? && a.m.AppendAsked?
    requires Step(h, a) && x in h.stores && StoreOk(h, x) && Writes(h.c, a, x.node)
    requires h.reigns[x.term].start < k <= x.upTo
    ensures Kept(h.reigns, x.term, k, a.m.origin, a.m.append.term + 1)
  {
    hide Step, Lacks, Prefix, Base, RaftReigns.Inv;
    var v, m, t := h.c.servers[x.node].view, a.m, a.m.append.term;
    WriterPieces(h, a, x.node);
    hide Writes;
    assert KeptNow(h, x, k);
    if !(Prefix(h.reigns[x.term], k) <= v.log) {
      var u :| x.term < u < v.term + 1 && u in h.reigns && Lacks(h.reigns, x.term, k, u);
      assert u < t + 1;
    } else if x.term < t {
      LacksOrHas(h.reigns, x.term, k, t, m.origin);
    } else {
      OwnLeaderCutsNothing(h, a, x.node, k);
    }
  }

  /** A request has all that its leader started with, and otherwise a beginning of the leader's log. */
  lemma RequestPieces(h: Trace, m: Message)
    requires RaftReigns.Inv(h) && m in h.c.net && m.AppendAsked?
    ensures var t := m.append.term;
            && t in h.reigns && m.origin <= h.reigns[t].log && Base(h.reigns[t]) <= m.origin
            && forall k :: 0 <= k <= |m.origin| ==> Prefix(h.reigns[t], k) <= m.origin
  {
    assert RaftReigns.RequestOk(h.reigns, m) && ReignOk(h.reigns, m.append.term);
  }

  lemma WriterPieces(h: Trace, a: Action, n: string)
    requires n in h.c.servers && a.AnswerAppend? && a.m.AppendAsked?
    requires Step(h, a) && Writes(h.c, a, n)
    ensures var t := a.m.append.term;
            && h.c.servers[n].view.term <= t
            && t in h.reigns && a.m.origin <= h.reigns[t].log && Base(h.reigns[t]) <= a.m.origin
            && forall k :: 0 <= k <= |a.m.origin| ==> Prefix(h.reigns[t], k) <= a.m.origin
  {
    hide Next, RaftElection.Inv, M.Inv, Sound, RaftReigns.Inv, Prefix;
    RequestPieces(h, a.m);
  }

  lemma LacksOrHas(r: map<nat, Reign>, t: nat, k: nat, u: nat, log: seq<Entry>)
    requires t in r && u in r && Base(r[u]) <= log
    ensures Lacks(r, t, k, u) || Prefix(r[t], k) <= log
  {
  }

  /** A request of the follower's own term that is accepted reaches as far as the follower agrees with its leader. */
  lemma OwnLeaderCutsNothing(h: Trace, a: Action, n: string, k: nat)
    requires n in h.c.servers && a.AnswerAppend? && a.m.AppendAsked?
    requires Step(h, a) && Writes(h.c, a, n) && a.m.append.term == h.c.servers[n].view.term
    requires a.m.append.term in h.reigns && a.m.origin <= h.reigns[a.m.append.term].log
    requires k <= |h.reigns[a.m.append.term].log| && Prefix(h.reigns[a.m.append.term], k) <= h.c.servers[n].view.log
    ensures k <= |a.m.origin|
  {
    hide Next, RaftElection.Inv, RaftReigns.Inv, EndsInside, TermOf;
    assert M.RequestOk(a.m) && Obeys(h.c, a, NothingAgreedIsCut);
    ReachesAgreement(h.c.servers[n].view.log, a.m.append, a.m.origin, Prefix(h.reigns[a.m.append.term], k));
  }

  /** A request that ends inside a log, where both are beginnings of one log, ends with an entry that the log holds. */
  lemma ReachesAgreement(log: seq<Entry>, req: AppendRequest, origin: seq<Entry>, agreed: seq<Entry>)
    requires req.entries == Suffix(origin, req.prevLogIndex) != [] && !EndsInside(log, req)
    requires agreed <= log && (agreed <= origin || origin <= agreed)
    ensures |agreed| <= |origin|
  {
    assert req.prevLogIndex + |req.entries| == |origin|;
    assert req.entries[|req.entries| - 1] == origin[|origin| - 1];
  }

  lemma OldStoreStays(h: Trace, a: Action, x: Stored)
    requires Step(h, a) && x in h.stores && StoreOk(h, x)
    ensures StoreOk(After(h, a), x)
  {
    hide Next, RaftElection.Inv, M.Inv, Sound, ReignsAfter, BallotsAfter, StoresAfter, Kept, RaftReigns.Inv;
    var v, d := h.c.servers[x.node].view, After(h, a);
    StepGrows(h, a);
    StartsOk(h);
    SoundIsGuarded(h.c, a);
    TermStep(h.c, a, x.node);
    LogStep(h.c, a, x.node);
    var w := d.c.servers[x.node].view;
    forall k | d.reigns[x.term].start < k <= x.upTo ensures KeptNow(d, x, k) {
      assert KeptNow(h, x, k);
      if Writes(h.c, a, x.node) {
        WriterKeeps(h, a, x, k);
        WriterTakesTerm(h.c, a, x.node);
        KeptStays(h.reigns, d.reigns, x.term, k, a.m.origin, w.log, a.m.append.term + 1, w.term + 1);
      } else {
        KeptStays(h.reigns, d.reigns, x.term, k, v.log, w.log, v.term + 1, w.term + 1);
      }
    }
  }

  /** What is stored now is in the log now, in a term the node has reached and not left. */
  lemma NewStore(h: Trace, a: Action, x: Stored)
    requires Step(h, a) && x in StoresAfter(h, a) && x !in h.stores
    ensures x.node in h.c.servers && x.node in Next(h.c, a).servers
    ensures h.c.servers[x.node].view.term <= x.term <= Next(h.c, a).servers[x.node].view.term
    ensures x.term in ReignsAfter(h, a) && x.upTo <= |ReignsAfter(h, a)[x.term].log|
    ensures Prefix(ReignsAfter(h, a)[x.term], x.upTo) <= Next(h.c, a).servers[x.node].view.log
  {
    hide Next, RaftElection.Inv, M.Inv, Sound, BallotsAfter;
    LogStep(h.c, a, x.node);
    SoundIsGuarded(h.c, a);
    TermStep(h.c, a, x.node);
    if a.Propose? {
      ProposedReign(h, a);
    } else {
      WriterTakesTerm(h.c, a, x.node);
      assert RaftReigns.RequestOk(h.reigns, a.m);
    }
  }

  lemma StoreStays(h: Trace, a: Action, x: Stored)
    requires Step(h, a) && StoresInv(h) && x in StoresAfter(h, a)
    ensures StoreOk(After(h, a), x)
  {
    hide Next, Step, ReignsAfter, BallotsAfter, StoresAfter, PairOk;
    if x in h.stores {
      OldStoreStays(h, a, x);
    } else {
      NewStore(h, a, x);
      var d := After(h, a);
      forall k | d.reigns[x.term].start < k <= x.upTo ensures KeptNow(d, x, k) {
        assert Prefix(d.reigns[x.term], k) <= Prefix(d.reigns[x.term], x.upTo);
      }
    }
  }

  lemma PairStays(h: Trace, a: Action, x: Stored, b: Ballot)
    requires Step(h, a) && VotesInv(h) && StoresInv(h) && x in StoresAfter(h, a) && b in BallotsAfter(h, a)
    ensures x.term in ReignsAfter(h, a) && PairOk(After(h, a), x, b)
  {
    hide Next, ReignsAfter, BallotsAfter, StoresAfter, Kept, RaftElection.Inv, M.Inv, Sound, RaftReigns.Inv;
    var d := After(h, a);
    StepGrows(h, a);
    StartsOk(h);
    if x !in h.stores {
      NewStore(h, a, x);
      if b in h.ballots {
        assert BallotOk(h, b);
      } else {
        NewBallot(h, a, b);
        NotBoth(h, a, x, b);
      }
    } else if x.node == b.voter && x.term < b.term {
      assert StoreOk(h, x);
      forall k | d.reigns[x.term].start < k <= x.upTo ensures Kept(d.reigns, x.term, k, b.held, b.term) {
        if b in h.ballots {
          assert PairOk(h, x, b);
          KeptStays(h.reigns, d.reigns, x.term, k, b.held, b.held, b.term, b.term);
        } else {
          NewBallot(h, a, b);
          KeptAtVote(h, x, b, k);
        }
      }
    }
  }

  /** No step stores and votes. */
  lemma NotBoth(h: Trace, a: Action, x: Stored, b: Ballot)
    requires x in StoresAfter(h, a) && x !in h.stores
    ensures b in BallotsAfter(h, a) ==> b in h.ballots
  {
  }

  lemma KeptAtVote(h: Trace, x: Stored, b: Ballot, k: nat)
    requires StoreOk(h, x) && x.node == b.voter && h.reigns[x.term].start < k <= x.upTo
    requires b.held == h.c.servers[x.node].view.log && b.term !in h.reigns && h.c.servers[x.node].view.term <= b.term
    ensures Kept(h.reigns, x.term, k, b.held, b.term)
  {
    hide Lacks;
    assert KeptNow(h, x, k);
    if !(Prefix(h.reigns[x.term], k) <= b.held) {
      var u :| x.term < u < h.c.servers[x.node].view.term + 1 && u in h.reigns && Lacks(h.reigns, x.term, k, u);
      assert u < b.term;
    }
  }

  lemma StoresStay(h: Trace, a: Action)
    requires Step(h, a) && VotesInv(h) && StoresInv(h)
    ensures StoresInv(After(h, a))
  {
    hide Next, Step, ReignsAfter, BallotsAfter, StoresAfter, StoreOk, PairOk, VotesInv;
    var d := After(h, a);
    forall x | x in d.stores ensures StoreOk(d, x) {
      StoreStays(h, a, x);
    }
    forall x, b | x in d.stores && b in d.ballots ensures x.term in d.reigns && PairOk(d, x, b) {
      PairStays(h, a, x, b);
    }
  }

  // Completeness.

  ghost predicate HasStored(h: Trace, q: string, t: nat, k: nat) {
    exists x :: x in h.stores && x.node == q && x.term == t && x.upTo >= k
  }

  ghost function Holders(h: Trace, t: nat, k: nat): set<string> {
    set q | q in h.c.servers && HasStored(h, q, t, k)
  }

  /** A commit quorum has stored the leader's log of a term, in that term, up to an entry of the leader's own. */
  ghost predicate Chosen(h: Trace, t: nat, k: nat) {
    && t in h.reigns && h.reigns[t].start < k <= |h.reigns[t].log|
    && |Holders(h, t, k)| >= CommitQuorum(|h.c.servers.Keys|)
  }

  ghost predicate Inv(h: Trace) {
    RaftReigns.Inv(h) && VotesInv(h) && StoresInv(h)
  }

  /** A log that is at least as up to date as one that has the prefix has it too, if all leaders in between do. */
  lemma UpToDateContains(h: Trace, t: nat, k: nat, u: nat, b: Ballot)
    requires RaftReigns.Inv(h) && t in h.reigns && u in h.reigns && h.reigns[t].start < k <= |h.reigns[t].log|
    requires Prefix(h.reigns[t], k) <= b.held && Chronicled(h.reigns, b.held) && UpTo(b)
    requires b.lastIndex == h.reigns[u].start && b.lastTerm == LastTerm(Base(h.reigns[u]))
    requires forall w :: t < w < u && w in h.reigns ==> !Lacks(h.reigns, t, k, w)
    ensures !Lacks(h.reigns, t, k, u)
  {
    hide Chronicled;
    var r, base := h.reigns, Base(h.reigns[u]);
    assert ReignOk(r, t) && ReignOk(r, u);
    assert b.held[k - 1] == r[t].log[k - 1];
    ChronicledTerms(r, b.held, k - 1, |b.held| - 1);
    LastPiece(r, b.held);
    assert t <= LastTerm(b.held) && base != [];
    ChronicledPrefix(r, r[u].log, base);
    ChronicledTerms(r, base, |base| - 1, |base| - 1);
    LastPiece(r, base);
    var w := LastTerm(base);
    assert w < u && r[w].start < |base|;
    if w > LastTerm(b.held) {
      assert !Lacks(r, t, k, w) && Base(r[w]) <= base;
    } else {
      assert b.held <= base;
    }
  }

  /** A chronicled log is the beginning of the log of the leader of its last term. */
  lemma LastPiece(r: map<nat, Reign>, l: seq<Entry>)
    requires Chronicled(r, l) && l != []
    ensures LastTerm(l) == l[|l| - 1].term && LastTerm(l) in r && l <= r[LastTerm(l)].log
  {
    assert l[..|l|] == l;
  }

  /** What was chosen in a term is in the log of every later leader from the start. */
  lemma {:induction false} LaterLeadersHaveIt(h: Trace, t: nat, k: nat, u: nat)
    requires Inv(h) && Chosen(h, t, k) && u in h.reigns && t < u
    ensures !Lacks(h.reigns, t, k, u)
    decreases u
  {
    hide Lacks, Chronicled, RaftReigns.Inv;
    assert ReignElected(h, u);
    CommitMeetsVotes(h.c.servers.Keys, Holders(h, t, k), Electors(h, u));
    var q :| q in Holders(h, t, k) && q in Electors(h, u);
    assert HasStored(h, q, t, k) && Elects(h, u, q);
    var x :| x in h.stores && x.node == q && x.term == t && x.upTo >= k;
    var b :| b in h.ballots && b.voter == q && b.term == u
             && b.lastIndex == h.reigns[u].start && b.lastTerm == LastTerm(Base(h.reigns[u]));
    assert PairOk(h, x, b) && BallotOk(h, b);
    forall w | t < w < u && w in h.reigns ensures !Lacks(h.reigns, t, k, w) {
      LaterLeadersHaveIt(h, t, k, w);
    }
    assert Kept(h.reigns, t, k, b.held, u);
    UpToDateContains(h, t, k, u, b);
  }
}

/** What an append request takes away. A follower cuts its log unconditionally, and its commit index may outlive what is
    cut. In every run with one leadership per term, this is exactly when each of the two happens. */
module RaftRetention {
  import opened RaftLog
  import opened RaftState
  import opened RaftNode
  import opened RaftCluster
  import opened RaftElection
  import M = RaftMatching

  /** How far the log of a node is committed. */
  function CommittedLength(v: NodeView): nat {
    Min(v.commitIndex, |v.log|)
  }

  /** The request is not older than the node and passes the consistency check. */
  predicate Acceptable(v: NodeView, req: AppendRequest) {
    req.term >= v.term && Consistent(v.log, req)
  }

  /** The request reaches up to index `k` and agrees with the log there. */
  predicate Confirms(log: seq<Entry>, req: AppendRequest, k: nat)
    requires k <= |log|
  {
    || k <= req.prevLogIndex
    || (k <= req.prevLogIndex + |req.entries| && req.entries[k - req.prevLogIndex - 1].term == log[k - 1].term)
  }

  /** The request was cut from `origin`, a log that matches the follower's. */
  ghost predicate CutFrom(v: NodeView, req: AppendRequest, origin: seq<Entry>) {
    && Matching(v.log, origin) && WellNumbered(origin)
    && req.prevLogTerm == TermOf(origin, req.prevLogIndex) && req.entries == Suffix(origin, req.prevLogIndex)
    && forall i :: 0 <= i < |origin| ==> origin[i].term >= 1
  }

  lemma RequestsAreCutFrom(ids: set<string>, steps: seq<Action>, m: Message)
    requires OneLeadershipPerTerm(Run(ids, steps).elections) && Enabled(Run(ids, steps), AnswerAppend(m))
    ensures CutFrom(Run(ids, steps).servers[m.to].view, m.append, m.origin)
  {
    var c := Run(ids, steps);
    M.RunKeepsInv(ids, steps);
    assert M.RequestOk(m) && c.servers[m.to].view.log in M.Logs(c) && m.origin in M.Logs(c);
    forall i | 0 <= i < |m.origin| ensures m.origin[i].term >= 1 {
      M.LedTermsArePositive(c, m.origin, i);
    }
  }

  /** The log after the request. */
  lemma LogAfter(v: NodeView, req: AppendRequest, origin: seq<Entry>)
    requires CutFrom(v, req, origin)
    ensures OnAppendRequest(v, req).0.log == if Acceptable(v, req) && req.entries != [] then origin else v.log
    ensures req.entries != [] ==> |origin| == req.prevLogIndex + |req.entries|
    ensures Acceptable(v, req) && req.entries != [] ==>
              req.prevLogIndex <= |v.log| && v.log[..req.prevLogIndex] == origin[..req.prevLogIndex]
  {
    var prev := req.prevLogIndex;
    if Acceptable(v, req) && req.entries != [] {
      SpliceRebuilds(v.log, origin, prev);
      if prev > 0 {
        MatchingPrefix(v.log, origin, prev);
      }
    }
  }

  lemma PrefixKeptIff(v: NodeView, req: AppendRequest, origin: seq<Entry>, k: nat)
    requires CutFrom(v, req, origin) && k <= |v.log|
    ensures v.log[..k] <= OnAppendRequest(v, req).0.log <==>
            !Acceptable(v, req) || req.entries == [] || Confirms(v.log, req, k)
  {
    hide OnAppendRequest;
    LogAfter(v, req, origin);
    var prev := req.prevLogIndex;
    if Acceptable(v, req) && req.entries != [] {
      if prev < k <= |origin| {
        assert req.entries[k - prev - 1] == origin[k - 1];
        if origin[k - 1].term == v.log[k - 1].term {
          MatchingPrefix(v.log, origin, k);
        }
      } else if k <= prev {
        assert v.log[..k] == v.log[..prev][..k] && origin[..k] == origin[..prev][..k];
      }
    } else {
      assert v.log[..k] <= v.log;
    }
  }

  /** Committed entries survive an append request exactly when it is refused, carries no entries, or confirms the last
      of them: it starts behind the committed part, or reaches its end with an entry of the same term. */
  lemma CommittedPrefixKeptIff(ids: set<string>, steps: seq<Action>, m: Message)
    requires OneLeadershipPerTerm(Run(ids, steps).elections) && Enabled(Run(ids, steps), AnswerAppend(m))
    ensures var v := Run(ids, steps).servers[m.to].view;
            v.log[..CommittedLength(v)] <= OnAppendRequest(v, m.append).0.log <==>
            !Acceptable(v, m.append) || m.append.entries == [] || Confirms(v.log, m.append, CommittedLength(v))
  {
    hide Run, CutFrom, OnAppendRequest;
    var v := Run(ids, steps).servers[m.to].view;
    RequestsAreCutFrom(ids, steps, m);
    PrefixKeptIff(v, m.append, m.origin, CommittedLength(v));
  }

  /** The commit index of a follower that is within its log stays there exactly when the request is refused; or it
      carries entries and brings a higher commit index or reaches as far as the old one; or it carries none and the
      higher commit index it brings, if any, is not beyond the log. */
  lemma CommitStaysInLogIff(ids: set<string>, steps: seq<Action>, m: Message)
    requires OneLeadershipPerTerm(Run(ids, steps).elections) && Enabled(Run(ids, steps), AnswerAppend(m))
    requires var v := Run(ids, steps).servers[m.to].view; v.commitIndex <= |v.log|
    ensures var v, req := Run(ids, steps).servers[m.to].view, m.append;
            var w := OnAppendRequest(v, req).0;
            w.commitIndex <= |w.log| <==>
              || !Acceptable(v, req)
              || (if req.entries != []
                  then v.commitIndex < req.leaderCommit || v.commitIndex <= req.prevLogIndex + |req.entries|
                  else v.commitIndex < req.leaderCommit ==> Min(req.leaderCommit, req.prevLogIndex) <= |v.log|)
  {
    hide Run;
    var v, req := Run(ids, steps).servers[m.to].view, m.append;
    RequestsAreCutFrom(ids, steps, m);
    LogAfter(v, req, m.origin);
    if req.entries != [] {
      assert req.entries[|req.entries| - 1] == m.origin[|m.origin| - 1];
    }
  }
}

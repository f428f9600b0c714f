/** The handlers of a Raft node (internal/raft/node.go). The value functions say what a handler makes of a node's
    state and what it answers; the class `Node` runs the handlers in place and is proved to do just that. */
module RaftNode {
  import opened RaftLog
  import opened RaftState
  import opened RaftCommit

  datatype VoteRequest = VoteRequest(term: nat, candidateId: string, lastLogIndex: nat, lastLogTerm: nat)
  datatype VoteResponse = VoteResponse(term: nat, granted: bool)
  datatype AppendRequest = AppendRequest(
    term: nat, leaderId: string, prevLogIndex: nat, prevLogTerm: nat, entries: seq<Entry>, leaderCommit: nat)
  datatype AppendResponse = AppendResponse(term: nat, success: bool)

  const MAX_UINT64: nat := 0xFFFF_FFFF_FFFF_FFFF

  /** Subtraction of one on 64-bit unsigned values wraps below zero. */
  function Predecessor(n: nat): nat {
    if n == 0 then MAX_UINT64 else n - 1
  }

  function LastTerm(log: seq<Entry>): nat {
    TermOf(log, |log|)
  }

  function BuildVoteRequest(v: NodeView, id: string, term: nat): VoteRequest {
    VoteRequest(term, id, |v.log|, LastTerm(v.log))
  }

  predicate UpToDate(v: NodeView, req: VoteRequest) {
    req.lastLogTerm > LastTerm(v.log) || (req.lastLogTerm == LastTerm(v.log) && req.lastLogIndex >= |v.log|)
  }

  function OnVoteRequest(v: NodeView, req: VoteRequest): (NodeView, VoteResponse) {
    if req.term < v.term then
      (v, VoteResponse(v.term, false))
    else
      var w := if req.term > v.term then Demoted(v, req.term, "") else v;
      if (w.votedFor == "" || w.votedFor == req.candidateId) && UpToDate(w, req) then
        (w.(votedFor := req.candidateId), VoteResponse(req.term, true))
      else
        (w, VoteResponse(req.term, false))
  }

  /** A request a leader builds for one peer, with the term its heartbeat round started in. */
  function BuildAppend(v: NodeView, id: string, peer: string, term: nat): AppendRequest {
    var prev := Predecessor(Lookup(v.nextIndex, peer));
    AppendRequest(term, id, prev, TermOf(v.log, prev), Suffix(v.log, prev), v.commitIndex)
  }

  function LastNew(req: AppendRequest): nat {
    if req.entries == [] then req.prevLogIndex else req.entries[|req.entries| - 1].index
  }

  function Min(a: nat, b: nat): nat {
    if a < b then a else b
  }

  /** The consistency check of a request against a log. */
  predicate Consistent(log: seq<Entry>, req: AppendRequest) {
    req.prevLogIndex > 0 ==> TermOf(log, req.prevLogIndex) == req.prevLogTerm
  }

  /** The request ends strictly inside the log, with an entry that the log holds too. */
  predicate EndsInside(log: seq<Entry>, req: AppendRequest) {
    && req.entries != [] && req.prevLogIndex + |req.entries| < |log|
    && log[req.prevLogIndex + |req.entries| - 1].term == req.entries[|req.entries| - 1].term
  }

  function OnAppendRequest(v: NodeView, req: AppendRequest): (NodeView, AppendResponse) {
    if req.term < v.term then
      (v, AppendResponse(v.term, false))
    else
      var w := Demoted(v, req.term, req.leaderId);
      if !Consistent(v.log, req) then
        (w, AppendResponse(req.term, false))
      else
        var log := if req.entries == [] then v.log else Spliced(v.log, req.prevLogIndex, req.entries);
        var commit := if req.leaderCommit > v.commitIndex then Min(req.leaderCommit, LastNew(req)) else v.commitIndex;
        (w.(log := log, commitIndex := commit), AppendResponse(req.term, true))
  }

  /** The answer to a request that was sent to `peer`: entries known to be stored there, or one step back. */
  function OnAppendResponse(v: NodeView, peer: string, sent: AppendRequest, resp: AppendResponse): NodeView {
    if resp.term > sent.term then
      Demoted(v, resp.term, "")
    else if resp.success then
      if sent.entries == [] then v else
        v.(nextIndex := v.nextIndex[peer := LastNew(sent) + 1], matchIndex := v.matchIndex[peer := LastNew(sent)])
    else if Lookup(v.nextIndex, peer) > 1 then
      v.(nextIndex := v.nextIndex[peer := v.nextIndex[peer] - 1])
    else
      v
  }

  function Proposed(v: NodeView, command: string): NodeView {
    if v.role != Leader then v else v.(log := Pushed(v.log, Entry(0, v.term, Command, command)))
  }

  /** The commit index after a check, reading the match indexes in the given order. */
  function CommitAdvanced(v: NodeView, order: seq<string>): NodeView
    requires forall p :: p in order ==> p in v.matchIndex
  {
    var c := Choice([|v.log|] + Read(v.matchIndex, order));
    if c > v.commitIndex && TermOf(v.log, c) == v.term then v.(commitIndex := c) else v
  }

  /** The last index one atomic pass of the apply loop reaches. */
  function AppliedUpTo(v: NodeView): nat {
    var available := Min(v.commitIndex, |v.log|);
    if available > v.lastApplied then available else v.lastApplied
  }

  function AppliedPass(v: NodeView): NodeView {
    v.(lastApplied := AppliedUpTo(v))
  }

  /** The entries one pass hands to the apply function. */
  function Handed(v: NodeView): seq<Entry> {
    if AppliedUpTo(v) > v.lastApplied then v.log[v.lastApplied..AppliedUpTo(v)] else []
  }

  /** The indices `from + 1, ..., upTo`. */
  function Span(from: nat, upTo: nat): (s: seq<nat>)
    requires from <= upTo
    ensures |s| == upTo - from
  {
    seq(upTo - from, i => from + i + 1)
  }

  /** The log of the voter is ahead of what the candidate says of its own: a later last term, or the same and longer. */
  predicate Ahead(log: seq<Entry>, req: VoteRequest) {
    LastTerm(log) > req.lastLogTerm || (LastTerm(log) == req.lastLogTerm && |log| > req.lastLogIndex)
  }

  /** A vote is granted exactly to a candidate of a term that is not over, for whom the vote of that term is free or
      was given already, and whose log the voter's is not ahead of. The answer carries the later of the two terms. */
  lemma VoteIsGrantedIff(v: NodeView, req: VoteRequest)
    ensures var (w, resp) := OnVoteRequest(v, req);
            && resp.term == w.term == (if req.term > v.term then req.term else v.term)
            && (resp.granted <==>
                  && req.term >= v.term && !Ahead(v.log, req)
                  && (req.term > v.term || v.votedFor == "" || v.votedFor == req.candidateId))
            && (resp.granted ==> w.votedFor == req.candidateId)
            && w.log == v.log && w.commitIndex == v.commitIndex
  {
  }

  /** An append request is answered with the later of the two terms, and accepted exactly when it is neither stale nor
      inconsistent. Whoever does not find it stale follows its sender. */
  lemma AppendIsAcceptedIff(v: NodeView, req: AppendRequest)
    ensures var (w, resp) := OnAppendRequest(v, req);
            && resp.term == w.term == (if req.term > v.term then req.term else v.term)
            && (resp.success <==> req.term >= v.term && Consistent(v.log, req))
            && (if req.term >= v.term then w.role == Follower && w.leaderId == req.leaderId else w == v)
  {
  }

  /** A leader of an older term steps down when it takes the answer of a node that is ahead of it, and is in that node's
      term then. */
  lemma DeposedLeaderStepsDown(l: NodeView, f: NodeView, peer: string, req: AppendRequest)
    requires f.term > req.term
    ensures var w := OnAppendResponse(l, peer, req, OnAppendRequest(f, req).1);
            w.role == Follower && w.term == f.term && w.leaderId == "" && w.log == l.log
  {
  }

  /** The commit index of a follower goes back exactly when a request that is neither stale nor inconsistent names a
      higher one but reaches less far itself than what the follower has already committed. */
  lemma CommitGoesBackIff(v: NodeView, req: AppendRequest)
    ensures OnAppendRequest(v, req).0.commitIndex < v.commitIndex <==>
            req.term >= v.term && Consistent(v.log, req) && LastNew(req) < v.commitIndex < req.leaderCommit
  {
  }

  /** An advance is strictly upward and, in a term a leader can have, lands on an existing entry of that term,
      whatever stale values the match indexes hold. */
  lemma CommitAdvanceIsSound(v: NodeView, order: seq<string>)
    requires forall p :: p in order ==> p in v.matchIndex
    ensures var w := CommitAdvanced(v, order);
            w != v ==>
              && w == v.(commitIndex := w.commitIndex)
              && v.commitIndex < w.commitIndex
              && (v.term >= 1 ==> w.commitIndex <= |v.log| && v.log[w.commitIndex - 1].term == v.term)
  {
  }

  /** In term 0 an advance can leave the log: the soundness above needs a positive term. */
  lemma TermZeroAdvanceLeavesLog()
    ensures var v := INITIAL.(matchIndex := map["b" := 5, "c" := 5]);
            CommitAdvanced(v, ["b", "c"]).commitIndex == 5 && v.log == []
  {
    var v := INITIAL.(matchIndex := map["b" := 5, "c" := 5]);
    var values := [0] + Read(v.matchIndex, ["b", "c"]);
    assert Read(v.matchIndex, ["c"]) == [5];
    assert Read(v.matchIndex, ["b", "c"])  == [5, 5] by { assert ["b", "c"][1..] == ["c"]; }
    assert values == [0, 5, 5];
    SortedCopyIsSorted(values);
    assert Sorted([0, 5, 5]);
    MiddleIsChoice(values, SortedCopy(values));
    MiddleIsChoice(values, [0, 5, 5]);
    ChoiceIsUnique(values, Choice(values), 5);
  }

  class Node {
    const id: string
    const peers: seq<string>
    const state: State
    ghost var applied: seq<Entry>    // what has been handed to the apply function

    constructor (id: string, peers: seq<string>)
      ensures this.id == id && this.peers == peers && state.View() == INITIAL && applied == []
      ensures fresh(state) && fresh(state.log)
    {
      this.id, this.peers := id, peers;
      state := new State();
      applied := [];
    }

    method HandleRequestVote(req: VoteRequest) returns (resp: VoteResponse)
      modifies state, state.log
      ensures (state.View(), resp) == OnVoteRequest(old(state.View()), req)
    {
      resp := VoteResponse(state.currentTerm, false);
      if req.term < state.currentTerm {
        return;
      }
      if req.term > state.currentTerm {
        state.BecomeFollower(req.term, "");
        resp := resp.(term := req.term);
      }
      if state.votedFor == "" || state.votedFor == req.candidateId {
        var lastLogIndex, lastLogTerm := |state.log.entries|, LastTerm(state.log.entries);
        if req.lastLogTerm > lastLogTerm || (req.lastLogTerm == lastLogTerm && req.lastLogIndex >= lastLogIndex) {
          resp := resp.(granted := true);
          state.votedFor := req.candidateId;
        }
      }
    }

    method HandleAppendEntries(req: AppendRequest) returns (resp: AppendResponse)
      modifies state, state.log
      ensures (state.View(), resp) == OnAppendRequest(old(state.View()), req)
    {
      resp := AppendResponse(state.currentTerm, false);
      if req.term < state.currentTerm {
        return;
      }
      state.BecomeFollower(req.term, req.leaderId);
      resp := resp.(term := req.term);
      if req.prevLogIndex > 0 {
        if TermOf(state.log.entries, req.prevLogIndex) != req.prevLogTerm {
          return;
        }
      }
      if |req.entries| > 0 {
        var _ := state.log.AppendEntries(req.prevLogIndex, req.entries);
      }
      if req.leaderCommit > state.commitIndex {
        var lastNewEntry := req.prevLogIndex;
        if |req.entries| > 0 {
          lastNewEntry := req.entries[|req.entries| - 1].index;
        }
        var commitIndex := req.leaderCommit;
        if lastNewEntry < commitIndex {
          commitIndex := lastNewEntry;
        }
        state.commitIndex := commitIndex;
      }
      resp := resp.(success := true);
    }

    /** What a sender does with the answer of a peer. */
    method HandleAppendResponse(peer: string, sent: AppendRequest, resp: AppendResponse)
      modifies state
      ensures state.View() == OnAppendResponse(old(state.View()), peer, sent, resp)
    {
      if resp.term > sent.term {
        state.BecomeFollower(resp.term, "");
        return;
      }
      if resp.success {
        if |sent.entries| > 0 {
          var last := sent.entries[|sent.entries| - 1].index;
          state.nextIndex := state.nextIndex[peer := last + 1];
          state.matchIndex := state.matchIndex[peer := last];
        }
      } else {
        if Lookup(state.nextIndex, peer) > 1 {
          state.nextIndex := state.nextIndex[peer := state.nextIndex[peer] - 1];
        }
      }
    }

    method Propose(command: string) returns (ok: bool, index: nat)
      modifies state.log
      ensures state.View() == Proposed(old(state.View()), command)
      ensures ok <==> state.role == Leader
      ensures index == if ok then |state.log.entries| else 0
    {
      if state.role != Leader {
        return false, 0;
      }
      index := state.log.Append(Entry(0, state.currentTerm, Command, command));
      ok := true;
    }

    /** The map of match indexes is iterated in an order of its own; `order` names it. */
    method UpdateCommitIndex() returns (ghost order: seq<string>)
      modifies state
      ensures IsOrder(order, old(state.matchIndex.Keys))
      ensures state.View() == CommitAdvanced(old(state.View()), order)
    {
      var matches := state.matchIndex;
      var values := [];
      order := [];
      var todo := matches.Keys;
      while todo != {}
        invariant unchanged(state) && todo <= matches.Keys
        invariant IsOrder(order, matches.Keys - todo)
        invariant values == Read(matches, order)
      {
        var p :| p in todo;
        ReadSnoc(matches, order, p);
        values := values + [matches[p]];
        OrderSnoc(order, matches.Keys - todo, p);
        assert matches.Keys - (todo - {p}) == matches.Keys - todo + {p};
        order := order + [p];
        todo := todo - {p};
      }
      assert IsOrder(order, matches.Keys) by {
        assert matches.Keys - todo == matches.Keys;
      }
      var newCommitIndex := ChooseCommit([|state.log.entries|] + values);
      if newCommitIndex > state.commitIndex && TermOf(state.log.entries, newCommitIndex) == state.currentTerm {
        state.commitIndex := newCommitIndex;
      }
    }

    /** One pass of the apply loop. An index without an entry is skipped without being counted as applied. */
    method ApplyPass()
      modifies this, state
      ensures state.View() == AppliedPass(old(state.View()))
      ensures applied == old(applied) + Handed(old(state.View()))
    {
      var commitIndex, lastApplied := state.commitIndex, state.lastApplied;
      if commitIndex > lastApplied {
        var i := lastApplied + 1;
        while i <= commitIndex
          invariant lastApplied + 1 <= i <= commitIndex + 1
          invariant state.View() == old(state.View()).(lastApplied := state.lastApplied)
          invariant state.lastApplied ==
                      if i - 1 <= |state.log.entries| then i - 1
                      else if |state.log.entries| > lastApplied then |state.log.entries|
                      else lastApplied
          invariant lastApplied <= state.lastApplied
          invariant state.lastApplied > lastApplied ==> state.lastApplied <= |state.log.entries|
          invariant applied == old(applied) + (if state.lastApplied > lastApplied
                                               then state.log.entries[lastApplied..state.lastApplied] else [])
        {
          if i <= |state.log.entries| {
            applied := applied + [state.log.entries[i - 1]];
            state.lastApplied := i;
          }
          i := i + 1;
        }
      }
    }
  }

  lemma {:induction false} ReadSnoc(matches: map<string, nat>, order: seq<string>, p: string)
    requires p in matches && forall q :: q in order ==> q in matches
    ensures Read(matches, order + [p]) == Read(matches, order) + [matches[p]]
  {
    if order == [] {
      assert order + [p] == [p];
    } else {
      assert (order + [p])[1..] == order[1..] + [p];
      ReadSnoc(matches, order[1..], p);
    }
  }

  lemma OrderSnoc(order: seq<string>, keys: set<string>, p: string)
    requires IsOrder(order, keys) && p !in keys
    ensures IsOrder(order + [p], keys + {p})
  {
    assert forall q :: q in order + [p] <==> q in order || q == p;
  }
}

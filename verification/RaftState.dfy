/** The state of one Raft node (internal/raft/state.go). `NodeView` is its value; `State` is the object whose
    fields the Become* methods assign. Timestamps are not part of the model. */
module RaftState {
  import opened RaftLog

  datatype Role = Follower | Candidate | Leader

  datatype NodeView = NodeView(
    term: nat,
    votedFor: string,          // "" when no vote is on record
    log: seq<Entry>,
    role: Role,
    leaderId: string,          // "" when no leader is known
    commitIndex: nat,
    lastApplied: nat,
    nextIndex: map<string, nat>,
    matchIndex: map<string, nat>)

  const INITIAL := NodeView(0, "", [], Follower, "", 0, 0, map[], map[])

  /** Forgets the recorded vote, whatever the term was. */
  function Demoted(v: NodeView, term: nat, leaderId: string): NodeView {
    v.(role := Follower, term := term, leaderId := leaderId, votedFor := "")
  }

  /** Next term, and a vote for oneself. */
  function Campaigning(v: NodeView, id: string): NodeView {
    v.(role := Candidate, term := v.term + 1, leaderId := "", votedFor := id)
  }

  function Promoted(v: NodeView, id: string, peers: set<string>): NodeView {
    v.(role := Leader,
       leaderId := id,
       nextIndex := AllSet(v.nextIndex, peers, |v.log| + 1),
       matchIndex := AllSet(v.matchIndex, peers, 0))
  }

  /** Every key of `keys` is given the same value. */
  function AllSet(m: map<string, nat>, keys: set<string>, value: nat): map<string, nat> {
    map p | p in m.Keys + keys :: if p in keys then value else m[p]
  }

  lemma AllSetOneMore(m: map<string, nat>, keys: set<string>, key: string, value: nat)
    ensures AllSet(m, keys, value)[key := value] == AllSet(m, keys + {key}, value)
  {
  }

  /** A reader of an absent Go map key sees 0. */
  function Lookup(m: map<string, nat>, key: string): nat {
    if key in m then m[key] else 0
  }

  class State {
    var currentTerm: nat
    var votedFor: string
    const log: Log
    var role: Role
    var leaderId: string
    var commitIndex: nat
    var lastApplied: nat
    var nextIndex: map<string, nat>
    var matchIndex: map<string, nat>

    function View(): NodeView
      reads this, log
    {
      NodeView(currentTerm, votedFor, log.entries, role, leaderId, commitIndex, lastApplied, nextIndex, matchIndex)
    }

    constructor ()
      ensures View() == INITIAL
      ensures fresh(log)
    {
      currentTerm, votedFor, role, leaderId := 0, "", Follower, "";
      commitIndex, lastApplied := 0, 0;
      nextIndex, matchIndex := map[], map[];
      log := new Log();
    }

    method BecomeFollower(term: nat, leader: string)
      modifies this
      ensures View() == Demoted(old(View()), term, leader)
    {
      role := Follower;
      currentTerm := term;
      leaderId := leader;
      votedFor := "";
    }

    /** BecomeCandidate and the vote for oneself that its only caller records next. */
    method BecomeCandidate(id: string) returns (term: nat)
      modifies this
      ensures View() == Campaigning(old(View()), id)
      ensures term == View().term
    {
      role := Candidate;
      currentTerm := currentTerm + 1;
      leaderId := "";
      term := currentTerm;
      votedFor := id;
    }

    method BecomeLeader(id: string, peers: seq<string>)
      modifies this
      ensures View() == Promoted(old(View()), id, set p | p in peers)
    {
      role := Leader;
      leaderId := id;
      var lastLogIndex := |log.entries|;
      ghost var done: set<string> := {};
      for i := 0 to |peers|
        invariant done == set p | p in peers[..i]
        invariant role == Leader && leaderId == id
        invariant unchanged(`currentTerm, `votedFor, `commitIndex, `lastApplied)
        invariant nextIndex == AllSet(old(nextIndex), done, lastLogIndex + 1)
        invariant matchIndex == AllSet(old(matchIndex), done, 0)
      {
        AllSetOneMore(old(nextIndex), done, peers[i], lastLogIndex + 1);
        AllSetOneMore(old(matchIndex), done, peers[i], 0);
        nextIndex := nextIndex[peers[i] := lastLogIndex + 1];
        matchIndex := matchIndex[peers[i] := 0];
        done := done + {peers[i]};
      }
      assert peers[..|peers|] == peers;
    }
  }
}

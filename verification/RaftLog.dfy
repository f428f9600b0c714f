/** The replicated log of a Raft node (internal/raft/log.go): entries are 1-indexed and the index stored in an
    entry is its position. The value functions below specify the class `Log`, which updates its entries in place. */
module RaftLog {

  datatype EntryKind = Command | Config | Noop

  datatype Entry = Entry(index: nat, term: nat, kind: EntryKind, command: string)

  /** Term of the entry at a 1-based index, and 0 when the log has no such entry. */
  function TermOf(log: seq<Entry>, index: nat): nat {
    if index == 0 || index > |log| then 0 else log[index - 1].term
  }

  /** The entries behind a 1-based index. */
  function Suffix(log: seq<Entry>, index: nat): seq<Entry> {
    if index >= |log| then [] else log[index..]
  }

  /** Entries renumbered so that they follow position `prev`. */
  function Renumbered(prev: nat, entries: seq<Entry>): (r: seq<Entry>)
    ensures |r| == |entries|
  {
    seq(|entries|, i requires 0 <= i < |entries| => entries[i].(index := prev + i + 1))
  }

  /** A new entry at the end of the log, numbered by its position. */
  function Pushed(log: seq<Entry>, e: Entry): seq<Entry> {
    log + [e.(index := |log| + 1)]
  }

  /** Everything behind `prev` is cut off, conflicting or not, and replaced; a gap is refused. */
  function Spliced(log: seq<Entry>, prev: nat, entries: seq<Entry>): seq<Entry> {
    if prev > |log| then log else log[..prev] + Renumbered(prev, entries)
  }

  ghost predicate WellNumbered(log: seq<Entry>) {
    forall i :: 0 <= i < |log| ==> log[i].index == i + 1
  }

  /** Log Matching for two logs (section 5.3 of the Raft paper): where they hold entries of the same index and
      term, they are identical up to and including that index. */
  ghost predicate Matching(a: seq<Entry>, b: seq<Entry>) {
    forall i :: 0 <= i < |a| && i < |b| && a[i].term == b[i].term ==> a[..i + 1] == b[..i + 1]
  }

  /** Terms of the entries a log holds. */
  ghost predicate TermsAmong(log: seq<Entry>, terms: set<nat>) {
    forall i :: 0 <= i < |log| ==> log[i].term in terms
  }

  lemma MatchingPrefix(a: seq<Entry>, b: seq<Entry>, index: nat)
    requires Matching(a, b)
    requires 0 < index <= |a| && index <= |b| && TermOf(a, index) == TermOf(b, index)
    ensures a[..index] == b[..index]
  {
    assert a[index - 1].term == b[index - 1].term;
  }

  lemma RenumberedSuffix(log: seq<Entry>, prev: nat)
    requires WellNumbered(log) && prev <= |log|
    ensures Renumbered(prev, log[prev..]) == log[prev..]
  {
  }

  /** An accepted append that carries entries rebuilds the sender's log: the agreeing predecessor fixes the part
      that is kept, and everything behind it is replaced. */
  lemma SpliceRebuilds(mine: seq<Entry>, theirs: seq<Entry>, prev: nat)
    requires WellNumbered(theirs) && Matching(mine, theirs)
    requires prev < |theirs|
    requires prev > 0 ==> prev <= |mine| && TermOf(mine, prev) == TermOf(theirs, prev)
    ensures Spliced(mine, prev, Suffix(theirs, prev)) == theirs
  {
    RenumberedSuffix(theirs, prev);
    if prev > 0 {
      MatchingPrefix(mine, theirs, prev);
    }
    assert mine[..prev] == theirs[..prev];
  }

  /** A log extended by one entry still matches `b` when `b` has no entry of that term at the new position. */
  lemma MatchingPushed(log: seq<Entry>, b: seq<Entry>, e: Entry)
    requires Matching(log, b)
    requires |log| < |b| ==> b[|log|].term != e.term
    ensures Matching(Pushed(log, e), b) && Matching(b, Pushed(log, e))
  {
    var pushed := Pushed(log, e);
    forall i | 0 <= i < |pushed| && i < |b| && pushed[i].term == b[i].term
      ensures pushed[..i + 1] == b[..i + 1]
    {
      assert i < |log| && log[i].term == b[i].term;
      assert pushed[..i + 1] == log[..i + 1];
    }
  }

  class Log {
    var entries: seq<Entry>

    constructor ()
      ensures entries == []
    {
      entries := [];
    }

    method Append(entry: Entry) returns (index: nat)
      modifies this
      ensures entries == Pushed(old(entries), entry)
      ensures index == |entries|
    {
      index := |entries| + 1;
      entries := entries + [entry.(index := index)];
    }

    method AppendEntries(prevIndex: nat, added: seq<Entry>) returns (ok: bool)
      modifies this
      ensures ok <==> prevIndex <= old(|entries|)
      ensures entries == Spliced(old(entries), prevIndex, added)
    {
      if prevIndex > |entries| {
        return false;
      }
      entries := entries[..prevIndex];
      for i := 0 to |added|
        invariant entries == old(entries)[..prevIndex] + Renumbered(prevIndex, added)[..i]
      {
        entries := entries + [added[i].(index := prevIndex + i + 1)];
      }
      return true;
    }
  }
}

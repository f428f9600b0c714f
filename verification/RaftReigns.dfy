/** The logs of the leaders, term by term. In a sound run every log there is consists of pieces of them: up to and
    including an entry of some term it is what the leader of that term had. */
module RaftReigns {
  import opened RaftLog
  import opened RaftState
  import opened RaftNode
  import opened RaftCluster
  import opened RaftElection
  import opened RaftTrace
  import M = RaftMatching

  /** What is known of every state of a guarded run already. */
  ghost predicate Ground(c: Cluster) {
    RaftElection.Inv(c) && M.Inv(c)
  }

  /** The first `k` entries of a leader's log. */
  function Prefix(r: Reign, k: nat): seq<Entry> {
    if k <= |r.log| then r.log[..k] else r.log
  }

  /** The log a leader was elected with. */
  function Base(r: Reign): seq<Entry> {
    Prefix(r, r.start)
  }

  /** Reigns are added, and their logs get longer. */
  ghost predicate Grows(r: map<nat, Reign>, s: map<nat, Reign>) {
    forall u :: u in r ==> u in s && s[u].start == r[u].start && r[u].log <= s[u].log
  }

  /** Up to and including each of its entries, the log is that of the leader of the entry's term. */
  ghost predicate Chronicled(r: map<nat, Reign>, l: seq<Entry>) {
    forall i :: 0 <= i < |l| ==> l[i].term in r && l[..i + 1] <= r[l[i].term].log
  }

  /** The entries of a reign's own term are those from its start on, and the earlier ones are of earlier terms. */
  ghost predicate ReignOk(r: map<nat, Reign>, u: nat)
    requires u in r
  {
    && r[u].start <= |r[u].log| && Chronicled(r, r[u].log)
    && (forall i :: 0 <= i < r[u].start ==> r[u].log[i].term < u)
    && (forall i :: r[u].start <= i < |r[u].log| ==> r[u].log[i].term == u)
  }

  ghost predicate NodeOk(h: Trace, n: string)
    requires n in h.c.servers
  {
    var v := h.c.servers[n].view;
    && Chronicled(h.reigns, v.log)
    && (forall i :: 0 <= i < |v.log| ==> v.log[i].term <= v.term)
    && (v.role == Leader ==> v.term in h.reigns && h.reigns[v.term].log == v.log)
  }

  /** A request was cut from the log of the leader of its term. */
  ghost predicate RequestOk(r: map<nat, Reign>, m: Message) {
    m.AppendAsked? ==> m.append.term in r && r[m.append.term].start <= |m.origin| && m.origin <= r[m.append.term].log
  }

  ghost predicate Inv(h: Trace) {
    && h.reigns.Keys == M.LedTerms(h.c)
    && (forall u :: u in h.reigns ==> ReignOk(h.reigns, u))
    && (forall n :: n in h.c.servers ==> NodeOk(h, n))
    && (forall m :: m in h.c.net ==> RequestOk(h.reigns, m))
  }

  // Chronicled logs.

  lemma ChronicledStays(r: map<nat, Reign>, s: map<nat, Reign>, l: seq<Entry>)
    requires Grows(r, s) && Chronicled(r, l)
    ensures Chronicled(s, l)
  {
    forall i | 0 <= i < |l| ensures l[i].term in s && l[..i + 1] <= s[l[i].term].log {
      assert l[..i + 1] <= r[l[i].term].log <= s[l[i].term].log;
    }
  }

  lemma ChronicledPrefix(r: map<nat, Reign>, l: seq<Entry>, k: seq<Entry>)
    requires Chronicled(r, l) && k <= l
    ensures Chronicled(r, k)
  {
    forall i | 0 <= i < |k| ensures k[i].term in r && k[..i + 1] <= r[k[i].term].log {
      assert k[i] == l[i] && k[..i + 1] == l[..i + 1];
    }
  }

  /** The terms of a chronicled log do not go down, and its entries of a term begin where the reign does. */
  lemma ChronicledTerms(r: map<nat, Reign>, l: seq<Entry>, i: nat, j: nat)
    requires Chronicled(r, l) && (forall u :: u in r ==> ReignOk(r, u)) && i <= j < |l|
    ensures l[i].term <= l[j].term && r[l[j].term].start <= j
  {
    var u := l[j].term;
    assert ReignOk(r, u) && l[..j + 1] <= r[u].log;
    assert l[..j + 1][i] == l[i] && l[..j + 1][j] == l[j];
  }

  // Steps.

  lemma ElectionsStep(c: Cluster, a: Action)
    ensures Next(c, a).elections ==
            if a.Finish? && WinsNow(c, a, a.n) then c.elections + [Election(c.servers[a.n].view.term, a.n)]
              else c.elections
  {
  }

  /** A term that is won has not been led before. */
  lemma WinnerIsFirst(h: Trace, a: Action, n: string)
    requires Inv(h) && WinsNow(h.c, a, n) && OneLeadershipPerTerm(Next(h.c, a).elections)
    ensures h.c.servers[n].view.term !in h.reigns
  {
    hide Next;
    ElectionsStep(h.c, a);
    var u, d := h.c.servers[n].view.term, Next(h.c, a);
    forall i | 0 <= i < |h.c.elections| ensures h.c.elections[i].term != u {
      assert d.elections[i] == h.c.elections[i] && d.elections[|h.c.elections|].term == u;
    }
  }

  lemma LedTermsStep(h: Trace, a: Action)
    requires Inv(h)
    ensures ReignsAfter(h, a).Keys == M.LedTerms(Next(h.c, a))
  {
    hide Next;
    ElectionsStep(h.c, a);
    var d := Next(h.c, a);
    if a.Finish? && WinsNow(h.c, a, a.n) {
      forall u ensures u in ReignsAfter(h, a).Keys <==> u in M.LedTerms(d) {
        if u in h.reigns {
          var i :| 0 <= i < |h.c.elections| && h.c.elections[i].term == u;
          assert d.elections[i].term == u;
        }
        assert d.elections[|h.c.elections|].term == h.c.servers[a.n].view.term;
      }
    }
  }

  lemma ReignsGrow(h: Trace, a: Action)
    requires Inv(h) && OneLeadershipPerTerm(Next(h.c, a).elections)
    ensures Grows(h.reigns, ReignsAfter(h, a))
  {
    hide Next;
    if a.Finish? && WinsNow(h.c, a, a.n) {
      WinnerIsFirst(h, a, a.n);
    } else if a.Propose? && Proposes(h.c, a, a.n) {
      assert NodeOk(h, a.n);
    }
  }

  lemma ReignsStay(h: Trace, a: Action, u: nat)
    requires Inv(h) && Ground(h.c) && OneLeadershipPerTerm(Next(h.c, a).elections) && u in ReignsAfter(h, a)
    ensures ReignOk(ReignsAfter(h, a), u)
  {
    hide Next, Chronicled, Ground, OneLeadershipPerTerm;
    var r := ReignsAfter(h, a);
    ReignsGrow(h, a);
    if a.Finish? && WinsNow(h.c, a, a.n) && u == h.c.servers[a.n].view.term {
      ElectedReign(h, a);
    } else if a.Propose? && Proposes(h.c, a, a.n) && u == h.c.servers[a.n].view.term {
      ProposedReign(h, a);
    } else {
      assert ReignOk(h.reigns, u);
      ChronicledStays(h.reigns, r, r[u].log);
    }
  }

  lemma ElectedReign(h: Trace, a: Action)
    requires Inv(h) && OneLeadershipPerTerm(Next(h.c, a).elections) && a.Finish? && WinsNow(h.c, a, a.n)
    ensures h.c.servers[a.n].view.term in ReignsAfter(h, a)
    ensures ReignOk(ReignsAfter(h, a), h.c.servers[a.n].view.term)
  {
    hide Next;
    var v := h.c.servers[a.n].view;
    ReignsGrow(h, a);
    WinnerIsFirst(h, a, a.n);
    assert NodeOk(h, a.n);
    ChronicledStays(h.reigns, ReignsAfter(h, a), v.log);
    forall i | 0 <= i < |v.log| ensures v.log[i].term < v.term {
      assert v.log[i].term in h.reigns;
    }
  }

  lemma ProposedReign(h: Trace, a: Action)
    requires Inv(h) && OneLeadershipPerTerm(Next(h.c, a).elections) && a.Propose? && Proposes(h.c, a, a.n)
    ensures h.c.servers[a.n].view.term in ReignsAfter(h, a)
    ensures ReignOk(ReignsAfter(h, a), h.c.servers[a.n].view.term)
    ensures ReignsAfter(h, a)[h.c.servers[a.n].view.term].log == Proposed(h.c.servers[a.n].view, a.command).log
    ensures Chronicled(ReignsAfter(h, a), Proposed(h.c.servers[a.n].view, a.command).log)
  {
    hide Next;
    var v := h.c.servers[a.n].view;
    var r, l := ReignsAfter(h, a), Proposed(v, a.command).log;
    ReignsGrow(h, a);
    assert NodeOk(h, a.n) && ReignOk(h.reigns, v.term);
    ChronicledStays(h.reigns, r, v.log);
    forall i | 0 <= i < |l| ensures l[i].term in r && l[..i + 1] <= r[l[i].term].log {
      if i < |v.log| {
        assert l[i] == v.log[i] && l[..i + 1] == v.log[..i + 1];
      } else {
        assert l[..i + 1] == l;
      }
    }
  }

  lemma LogStays(h: Trace, a: Action, n: string)
    requires Inv(h) && Ground(h.c) && Sound(h.c, a) && OneLeadershipPerTerm(Next(h.c, a).elections) && n in h.c.servers
    ensures n in Next(h.c, a).servers
    ensures var w := Next(h.c, a).servers[n].view;
            && Chronicled(ReignsAfter(h, a), w.log) && (forall i :: 0 <= i < |w.log| ==> w.log[i].term <= w.term)
  {
    hide Next, RaftElection.Inv, M.Inv;
    var r, v := ReignsAfter(h, a), h.c.servers[n].view;
    ReignsGrow(h, a);
    LogStep(h.c, a, n);
    TermStep(h.c, a, n);
    assert NodeOk(h, n);
    if Proposes(h.c, a, n) {
      ProposedReign(h, a);
    } else if Writes(h.c, a, n) {
      var m := a.m;
      assert RequestOk(h.reigns, m) && ReignOk(h.reigns, m.append.term);
      ChronicledPrefix(h.reigns, h.reigns[m.append.term].log, m.origin);
      ChronicledStays(h.reigns, r, m.origin);
      WriterTakesTerm(h.c, a, n);
    } else {
      ChronicledStays(h.reigns, r, v.log);
    }
  }

  lemma WriterTakesTerm(c: Cluster, a: Action, n: string)
    requires Writes(c, a, n)
    ensures n in Next(c, a).servers && Next(c, a).servers[n].view.term == a.m.append.term >= c.servers[n].view.term
  {
  }

  /** A leader after a step was one before, with the same log unless it has proposed; or it has just won. */
  lemma LeaderStep(c: Cluster, a: Action, n: string)
    requires n in c.servers && n in Next(c, a).servers && Next(c, a).servers[n].view.role == Leader
    ensures var v, w := c.servers[n].view, Next(c, a).servers[n].view;
            && w.term == v.term
            && (WinsNow(c, a, n) || (v.role == Leader && !Writes(c, a, n)))
  {
  }

  lemma LeaderStays(h: Trace, a: Action, n: string)
    requires Inv(h) && Ground(h.c) && Sound(h.c, a) && OneLeadershipPerTerm(Next(h.c, a).elections) && n in h.c.servers
    requires n in Next(h.c, a).servers && Next(h.c, a).servers[n].view.role == Leader
    ensures var w := Next(h.c, a).servers[n].view;
            w.term in ReignsAfter(h, a) && ReignsAfter(h, a)[w.term].log == w.log
  {
    hide Next, RaftElection.Inv, M.Inv;
    var v := h.c.servers[n].view;
    LogStep(h.c, a, n);
    LeaderStep(h.c, a, n);
    if !WinsNow(h.c, a, n) {
      assert NodeOk(h, n);
      if a.Propose? && Proposes(h.c, a, a.n) && a.n != n {
        LeadersDiffer(h.c, n, a.n);
      } else if a.Finish? && WinsNow(h.c, a, a.n) {
        WinnerIsFirst(h, a, a.n);
      }
    }
  }

  lemma LeadersDiffer(c: Cluster, n: string, k: string)
    requires Ground(c) && n in c.servers && k in c.servers && n != k
    requires c.servers[n].view.role == Leader && c.servers[k].view.role == Leader
    ensures c.servers[n].view.term != c.servers[k].view.term
  {
    M.LeadersAreApart(c, n, k);
  }

  lemma RequestStays(h: Trace, a: Action, m: Message)
    requires Inv(h) && Sound(h.c, a) && OneLeadershipPerTerm(Next(h.c, a).elections) && m in Next(h.c, a).net
    ensures RequestOk(ReignsAfter(h, a), m)
  {
    ReignsGrow(h, a);
    if m in h.c.net {
      assert RequestOk(h.reigns, m);
    } else if m.AppendAsked? {
      NewRequest(h.c, a, m);
      assert NodeOk(h, a.n) && ReignOk(h.reigns, a.term);
    }
  }

  lemma NewRequest(c: Cluster, a: Action, m: Message)
    requires Sound(c, a) && m in Next(c, a).net && m !in c.net && m.AppendAsked?
    ensures a.AskAppend? && Enabled(c, a) && a.n in c.servers && m.from == a.n && m.append.term == a.term
    ensures var v := c.servers[a.n].view;
            && v.role == Leader && v.term == a.term && m.origin == v.log
            && m.append == BuildAppend(v, a.n, a.peer, a.term)
  {
    assert Obeys(c, a, RoundsAreCurrent);
  }

  lemma NextKeepsInv(h: Trace, a: Action)
    requires Inv(h) && Ground(h.c) && Sound(h.c, a) && OneLeadershipPerTerm(Next(h.c, a).elections)
    ensures Inv(After(h, a))
  {
    hide Next, RaftElection.Inv, M.Inv, ReignOk, RequestOk, Chronicled, ReignsAfter;
    var d := After(h, a);
    NextKeepsMembers(h.c, a);
    LedTermsStep(h, a);
    forall u | u in d.reigns ensures ReignOk(d.reigns, u) {
      ReignsStay(h, a, u);
    }
    forall n | n in d.c.servers ensures NodeOk(d, n) {
      LogStays(h, a, n);
      if d.c.servers[n].view.role == Leader {
        LeaderStays(h, a, n);
      }
    }
    forall m | m in d.c.net ensures RequestOk(d.reigns, m) {
      RequestStays(h, a, m);
    }
  }

  lemma BeginInv(ids: set<string>)
    ensures Inv(Begin(ids))
  {
  }
}

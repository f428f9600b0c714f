/** Sessions and their ephemeral nodes together (cmd/skylock/main.go wires the expiry callback to DeleteEphemerals). A
    session leaves by Close or by an expiry pass, and its cleanup runs as a step of its own some time later. */
module Ownership {
  import opened Store
  import opened StoreTree
  import H = StoreHistory
  import S = Session

  /** `pending` holds the sessions whose cleanup has been started and has not run; `used` all identifiers given out. */
  datatype State = State(tree: Tree, table: S.Table, pending: set<string>, used: set<string>)

  datatype Action =
    | Open(id: string, clientId: string, ttl: int, now: int)
    | Beat(id: string, now: int)
    | Close(id: string)
    | Sweep(now: int)
    | Clean(id: string)
    | Use(op: H.Op)

  /** Identifiers are fresh, and cleanups run only when started. */
  predicate Enabled(s: State, a: Action) {
    match a
    case Open(id, _, _, _) => id !in s.used
    case Clean(id) => id in s.pending
    case Use(op) => !op.Cleanup?
    case _ => true
  }

  ghost function Next(s: State, a: Action): State {
    if !Enabled(s, a) then s else
      match a
      case Open(id, clientId, ttl, now) => s.(table := S.Opened(s.table, id, clientId, ttl, now), used := s.used + {id})
      case Beat(id, now) => s.(table := S.Beaten(s.table, id, now).0)
      case Close(id) =>
        s.(table := S.Closed(s.table, id).0, pending := if id in s.table.sessions then s.pending + {id} else s.pending)
      case Sweep(now) => s.(table := S.Swept(s.table, now), pending := s.pending + S.ExpiredIds(s.table, now))
      case Clean(id) => s.(tree := Without(s.tree, EphemeralsOf(s.tree, id)), pending := s.pending - {id})
      case Use(op) => s.(tree := H.Next(s.tree, op))
  }

  ghost function Start(defaultTtl: int, maxTtl: int): State {
    State(EMPTY, S.Table(map[], defaultTtl, maxTtl), {}, {})
  }

  ghost function Run(start: State, actions: seq<Action>): State {
    if actions == [] then start else Next(Run(start, actions[..|actions| - 1]), actions[|actions| - 1])
  }

  /** A late heartbeat drops the session without starting its cleanup. It is harmless when there is nothing to clean. */
  predicate BeatIsHarmless(s: State, id: string, now: int) {
    !(id in s.table.sessions && S.Expired(s.table.sessions[id], now) && EphemeralsOf(s.tree, id) != {})
  }

  /** There is a place for a node: a stored parent that is not ephemeral, and a free path. */
  predicate HasPlace(t: Tree, p: Path, sequential: bool) {
    && (p != ROOT ==> Parent(p) in t.nodes && !t.nodes[Parent(p)].ephemeral)
    && ActualPath(t, p, sequential) !in t.nodes
  }

  /** Nothing checks the session an ephemeral node is created for. It does no harm when the session is live or still to
      be cleaned up, or when there is no place for the node. */
  predicate CreateIsHarmless(s: State, op: H.Op)
    requires op.Create?
  {
    op.ephemeral && HasPlace(s.tree, op.path, op.sequential) ==>
      op.session in s.table.sessions || op.session in s.pending
  }

  predicate Harmless(s: State, a: Action) {
    && (a.Beat? ==> BeatIsHarmless(s, a.id, a.now))
    && (a.Use? && Enabled(s, a) && a.op.Create? ==> CreateIsHarmless(s, a.op))
  }

  ghost predicate HarmlessRun(start: State, actions: seq<Action>) {
    actions != [] ==>
      && HarmlessRun(start, actions[..|actions| - 1])
      && Harmless(Run(start, actions[..|actions| - 1]), actions[|actions| - 1])
  }

  /** Every ephemeral node belongs to a live session or to one whose cleanup is still to run. */
  ghost predicate Owned(s: State) {
    forall p :: p in s.tree.nodes && s.tree.nodes[p].ephemeral ==>
      s.tree.nodes[p].session in s.table.sessions || s.tree.nodes[p].session in s.pending
  }

  ghost predicate Inv(s: State) {
    && TreeOk(s.tree) && Owned(s)
    && s.table.sessions.Keys <= s.used && s.pending <= s.used && s.table.sessions.Keys !! s.pending
  }

  lemma StartInv(defaultTtl: int, maxTtl: int)
    ensures Inv(Start(defaultTtl, maxTtl))
  {
    H.EmptyIsTree();
  }

  /** What an operation on the store does to the ephemeral nodes. */
  lemma UseKeepsOwners(t: Tree, op: H.Op, p: Path)
    requires p in H.Next(t, op).nodes && H.Next(t, op).nodes[p].ephemeral
    ensures var node := H.Next(t, op).nodes[p];
            || (p in t.nodes && t.nodes[p].ephemeral && t.nodes[p].session == node.session)
            || (op.Create? && op.ephemeral && node.session == op.session && H.Makes(t, op, p))
  {
  }

  lemma UseKeeps(s: State, op: H.Op)
    requires Inv(s) && Enabled(s, Use(op)) && (op.Create? ==> CreateIsHarmless(s, op))
    ensures Inv(Next(s, Use(op)))
  {
    hide TreeOk;
    H.NextKeepsTree(s.tree, op);
    var d := Next(s, Use(op));
    forall p | p in d.tree.nodes && d.tree.nodes[p].ephemeral
      ensures d.tree.nodes[p].session in d.table.sessions || d.tree.nodes[p].session in d.pending
    {
      UseKeepsOwners(s.tree, op, p);
    }
  }

  /** Creating a node keeps every ephemeral node owned exactly when it does not find a place for an ephemeral node of a
      session that is gone. */
  lemma CreateKeepsIff(s: State, op: H.Op)
    requires Inv(s) && op.Create? && Enabled(s, Use(op))
    ensures Owned(Next(s, Use(op))) <==> CreateIsHarmless(s, op)
  {
    hide TreeOk;
    if CreateIsHarmless(s, op) {
      UseKeeps(s, op);
    } else {
      var p := ActualPath(s.tree, op.path, op.sequential);
      var d := Next(s, Use(op));
      assert p in d.tree.nodes && d.tree.nodes[p].ephemeral && d.tree.nodes[p].session == op.session;
    }
  }

  lemma CleanKeeps(s: State, id: string)
    requires Inv(s) && id in s.pending
    ensures Inv(Next(s, Clean(id))) && EphemeralsOf(Next(s, Clean(id)).tree, id) == {}
    ensures Next(s, Clean(id)).pending == s.pending - {id} && Next(s, Clean(id)).table == s.table
  {
    hide TreeOk, Kept;
    var d := Next(s, Clean(id));
    H.NextKeepsTree(s.tree, H.Cleanup(id));
    forall p | p in d.tree.nodes ensures p in s.tree.nodes && p !in EphemeralsOf(s.tree, id)
                                         && d.tree.nodes[p].ephemeral == s.tree.nodes[p].ephemeral
                                         && d.tree.nodes[p].session == s.tree.nodes[p].session
    {
    }
  }

  /** A heartbeat keeps every ephemeral node owned exactly when it is not the late heartbeat of a session with ephemeral
      nodes. */
  lemma BeatKeepsIff(s: State, id: string, now: int)
    requires Inv(s)
    ensures Owned(Next(s, Beat(id, now))) <==> BeatIsHarmless(s, id, now)
  {
    hide TreeOk;
    var d := Next(s, Beat(id, now));
    if !BeatIsHarmless(s, id, now) {
      var p :| p in EphemeralsOf(s.tree, id);
      assert p in d.tree.nodes && d.tree.nodes[p].session == id && id !in d.table.sessions && id !in d.pending;
    } else {
      forall p | p in d.tree.nodes && d.tree.nodes[p].ephemeral
        ensures d.tree.nodes[p].session in d.table.sessions || d.tree.nodes[p].session in d.pending
      {
        assert p in EphemeralsOf(s.tree, d.tree.nodes[p].session);
      }
    }
  }

  lemma NextKeepsInv(s: State, a: Action)
    requires Inv(s) && Harmless(s, a)
    ensures Inv(Next(s, a))
  {
    hide TreeOk, H.Next;
    if Enabled(s, a) {
      match a
      case Beat(id, now) => BeatKeepsIff(s, id, now);
      case Clean(id) => CleanKeeps(s, id);
      case Use(op) => UseKeeps(s, op);
      case _ =>
    }
  }

  lemma {:induction false} RunKeepsInv(defaultTtl: int, maxTtl: int, actions: seq<Action>)
    requires HarmlessRun(Start(defaultTtl, maxTtl), actions)
    ensures Inv(Run(Start(defaultTtl, maxTtl), actions))
  {
    if actions == [] {
      StartInv(defaultTtl, maxTtl);
    } else {
      var front := actions[..|actions| - 1];
      RunKeepsInv(defaultTtl, maxTtl, front);
      NextKeepsInv(Run(Start(defaultTtl, maxTtl), front), actions[|actions| - 1]);
    }
  }

  /** Ephemeral ownership: in every run of harmless steps, an ephemeral node belongs to a live session or
      one whose cleanup is pending; a session that has left and has been cleaned up owns nothing. */
  lemma EphemeralsAreOwned(defaultTtl: int, maxTtl: int, actions: seq<Action>, id: string)
    requires HarmlessRun(Start(defaultTtl, maxTtl), actions)
    ensures var s := Run(Start(defaultTtl, maxTtl), actions);
            && TreeOk(s.tree) && Owned(s)
            && (id !in s.table.sessions && id !in s.pending ==> EphemeralsOf(s.tree, id) == {})
  {
    hide TreeOk;
    RunKeepsInv(defaultTtl, maxTtl, actions);
    var s := Run(Start(defaultTtl, maxTtl), actions);
    if id !in s.table.sessions && id !in s.pending {
      forall p ensures p !in EphemeralsOf(s.tree, id) {
      }
    }
  }

  /** A node created for a session that never was, or is gone, is an orphan from the start. */
  lemma DeadSessionOrphans(defaultTtl: int, maxTtl: int)
    ensures !Owned(Run(Start(defaultTtl, maxTtl), [Use(H.Create(["k"], "", true, "s", false))]))
  {
    var s, make := Start(defaultTtl, maxTtl), Use(H.Create(["k"], "", true, "s", false));
    assert [make][..0] == [] && Run(s, [make]) == Next(s, make);
    assert Parent(["k"]) == ROOT && ["k"] !in EMPTY.nodes;
    assert ["k"] in Run(s, [make]).tree.nodes;
  }

  /** A late heartbeat orphans a node: open a session, create its node, let the time to live pass, send a heartbeat. */
  lemma LateBeatOrphans()
    ensures !Owned(Run(Start(10, 60), [Open("s", "c", 0, 0), Use(H.Create(["k"], "", true, "s", false)),
              Beat("s", 11)]))
  {
    var make := Use(H.Create(["k"], "", true, "s", false));
    var one, two := [Open("s", "c", 0, 0)], [Open("s", "c", 0, 0), make];
    var three := [Open("s", "c", 0, 0), make, Beat("s", 11)];
    assert one[..0] == [] && two[..1] == one && three[..2] == two;
    var s1 := Run(Start(10, 60), one);
    assert s1 == Next(Start(10, 60), one[0]);
    assert s1.table.sessions == map["s" := S.Session("c", 0, 0, 10)];
    var s2 := Run(Start(10, 60), two);
    assert s2 == Next(s1, make);
    assert Parent(["k"]) == ROOT && ["k"] !in EMPTY.nodes;
    assert ["k"] in s2.tree.nodes && s2.tree.nodes[["k"]].ephemeral && s2.tree.nodes[["k"]].session == "s";
    var s3 := Run(Start(10, 60), three);
    assert s3 == Next(s2, Beat("s", 11));
    assert "s" !in s3.table.sessions && ["k"] in s3.tree.nodes;
  }
}

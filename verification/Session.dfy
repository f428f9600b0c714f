/** Client sessions (internal/session/manager.go). The clock is a parameter of every operation that reads it, and so is
    the fresh identifier of a new session. */
module Session {

  datatype Session = Session(clientId: string, createdAt: int, lastHeartbeat: int, ttl: int)

  datatype Table = Table(sessions: map<string, Session>, defaultTtl: int, maxTtl: int)

  predicate Expired(s: Session, now: int) {
    now - s.lastHeartbeat > s.ttl
  }

  /** A missing time to live becomes the default, and none exceeds the maximum. */
  function AllowedTtl(t: Table, ttl: int): int {
    var wanted := if ttl <= 0 then t.defaultTtl else ttl;
    if wanted > t.maxTtl then t.maxTtl else wanted
  }

  function Opened(t: Table, id: string, clientId: string, ttl: int, now: int): Table {
    t.(sessions := t.sessions[id := Session(clientId, now, now, AllowedTtl(t, ttl))])
  }

  /** A heartbeat that comes too late drops the session. */
  function Beaten(t: Table, id: string, now: int): (Table, bool) {
    if id !in t.sessions then (t, false)
    else if Expired(t.sessions[id], now) then (t.(sessions := t.sessions - {id}), false)
    else (t.(sessions := t.sessions[id := t.sessions[id].(lastHeartbeat := now)]), true)
  }

  function Closed(t: Table, id: string): (Table, bool) {
    (t.(sessions := t.sessions - {id}), id in t.sessions)
  }

  function ExpiredIds(t: Table, now: int): set<string> {
    set id | id in t.sessions && Expired(t.sessions[id], now)
  }

  function Swept(t: Table, now: int): Table {
    t.(sessions := t.sessions - ExpiredIds(t, now))
  }

  class Manager {
    var sessions: map<string, Session>
    const defaultTtl: int
    const maxTtl: int

    function View(): Table
      reads this
    {
      Table(sessions, defaultTtl, maxTtl)
    }

    constructor (defaultTtl: int, maxTtl: int)
      ensures View() == Table(map[], defaultTtl, maxTtl)
    {
      this.defaultTtl, this.maxTtl := defaultTtl, maxTtl;
      sessions := map[];
    }

    method Create(id: string, clientId: string, ttl: int, now: int) returns (session: Session)
      modifies this
      ensures View() == Opened(old(View()), id, clientId, ttl, now)
      ensures session == sessions[id]
    {
      var allowed := ttl;
      if allowed <= 0 {
        allowed := defaultTtl;
      }
      if allowed > maxTtl {
        allowed := maxTtl;
      }
      session := Session(clientId, now, now, allowed);
      sessions := sessions[id := session];
    }

    method Heartbeat(id: string, now: int) returns (ok: bool)
      modifies this
      ensures (View(), ok) == Beaten(old(View()), id, now)
    {
      if id !in sessions {
        return false;
      }
      if Expired(sessions[id], now) {
        sessions := sessions - {id};
        return false;
      }
      sessions := sessions[id := sessions[id].(lastHeartbeat := now)];
      return true;
    }

    /** The session to hand to the expiry callback is the one that was closed. */
    method Close(id: string) returns (ok: bool)
      modifies this
      ensures (View(), ok) == Closed(old(View()), id)
    {
      if id !in sessions {
        assert sessions - {id} == sessions;
        return false;
      }
      sessions := sessions - {id};
      return true;
    }

    /** Deletes while it iterates over the map; the callback runs once for every session that is dropped. */
    method CheckExpirations(now: int) returns (expired: seq<string>)
      modifies this
      ensures View() == Swept(old(View()), now)
      ensures multiset(expired) == multiset(ExpiredIds(old(View()), now))
    {
      expired := [];
      ghost var before, all := sessions, ExpiredIds(View(), now);
      ghost var gone: set<string> := {};
      var todo := sessions.Keys;
      while todo != {}
        invariant todo <= before.Keys && gone <= all && gone !! todo
        invariant forall id :: id in all ==> id in gone || id in todo
        invariant sessions == before - gone
        invariant multiset(expired) == multiset(gone)
      {
        var id :| id in todo;
        assert id !in gone && sessions[id] == before[id];
        if Expired(sessions[id], now) {
          assert id in all;
          DropOneMore(before, gone, id);
          sessions := sessions - {id};
          expired := expired + [id];
          gone := gone + {id};
        }
        todo := todo - {id};
      }
      assert gone == all;
    }
  }

  lemma DropOneMore(m: map<string, Session>, gone: set<string>, id: string)
    ensures m - gone - {id} == m - (gone + {id})
  {
  }

  // Runs.

  datatype Event =
    | Open(id: string, clientId: string, ttl: int)
    | Beat(id: string)
    | End(id: string)
    | Sweep

  datatype Timed = Timed(at: int, event: Event)

  function Next(t: Table, e: Timed): Table {
    match e.event
    case Open(id, clientId, ttl) => Opened(t, id, clientId, ttl, e.at)
    case Beat(id) => Beaten(t, id, e.at).0
    case End(id) => Closed(t, id).0
    case Sweep => Swept(t, e.at)
  }

  function Exec(t: Table, es: seq<Timed>): Table {
    if es == [] then t else Next(Exec(t, es[..|es| - 1]), es[|es| - 1])
  }

  ghost predicate Monotone(es: seq<Timed>) {
    forall i, j :: 0 <= i < j < |es| ==> es[i].at <= es[j].at
  }

  /** The time of the latest heartbeat of a session among some events, `last` being the one before them. */
  function LatestBeat(es: seq<Timed>, id: string, last: int): int {
    if es == [] then last
    else if es[|es| - 1].event == Beat(id) then es[|es| - 1].at
    else LatestBeat(es[..|es| - 1], id, last)
  }

  ghost predicate BeatsAfter(es: seq<Timed>, id: string, i: nat) {
    exists j :: i <= j < |es| && es[j].event == Beat(id)
  }

  /** Heartbeats come at most one time to live apart, and a sweep behind the last of them comes within one. The session
      is neither closed nor opened anew. */
  ghost predicate KeptAlive(es: seq<Timed>, id: string, last: int, ttl: int) {
    forall i :: 0 <= i < |es| ==>
      && es[i].event != End(id) && !(es[i].event.Open? && es[i].event.id == id)
      && (es[i].event == Beat(id) || (es[i].event == Sweep && !BeatsAfter(es, id, i)) ==>
            es[i].at - LatestBeat(es[..i], id, last) <= ttl)
  }

  lemma {:induction false} NoBeatBetween(es: seq<Timed>, id: string, last: int, i: nat, j: nat)
    requires i <= j <= |es| && forall k :: i <= k < j ==> es[k].event != Beat(id)
    ensures LatestBeat(es[..j], id, last) == LatestBeat(es[..i], id, last)
    decreases j
  {
    if i < j {
      assert es[..j][..j - 1] == es[..j - 1] && es[..j][j - 1] == es[j - 1];
      NoBeatBetween(es, id, last, i, j - 1);
    }
  }

  /** The first heartbeat from `i` on. */
  lemma {:induction false} FirstBeat(es: seq<Timed>, id: string, i: nat, j: nat) returns (k: nat)
    requires i <= j < |es| && es[j].event == Beat(id)
    ensures i <= k <= j && es[k].event == Beat(id) && forall m :: i <= m < k ==> es[m].event != Beat(id)
    decreases j - i
  {
    if es[i].event == Beat(id) {
      k := i;
    } else {
      k := FirstBeat(es, id, i + 1, j);
    }
  }

  /** A sweep between two heartbeats that are close enough comes in time as well, the clock being monotone. */
  lemma SweepInTime(es: seq<Timed>, id: string, last: int, ttl: int, i: nat)
    requires Monotone(es) && KeptAlive(es, id, last, ttl) && i < |es| && es[i].event == Sweep
    ensures es[i].at - LatestBeat(es[..i], id, last) <= ttl
  {
    if BeatsAfter(es, id, i) {
      var j :| i <= j < |es| && es[j].event == Beat(id);
      var k := FirstBeat(es, id, i, j);
      NoBeatBetween(es, id, last, i, k);
    }
  }

  /** A session that is kept alive survives every sweep, and remembers its latest heartbeat. */
  lemma {:induction false} LeaseHolds(t: Table, es: seq<Timed>, id: string, k: nat)
    requires id in t.sessions && k <= |es|
    requires Monotone(es) && KeptAlive(es, id, t.sessions[id].lastHeartbeat, t.sessions[id].ttl)
    ensures id in Exec(t, es[..k]).sessions
    ensures Exec(t, es[..k]).sessions[id]
            == t.sessions[id].(lastHeartbeat := LatestBeat(es[..k], id, t.sessions[id].lastHeartbeat))
  {
    var last, ttl := t.sessions[id].lastHeartbeat, t.sessions[id].ttl;
    if k > 0 {
      LeaseHolds(t, es, id, k - 1);
      assert es[..k][..k - 1] == es[..k - 1] && es[..k][k - 1] == es[k - 1];
      if es[k - 1].event == Sweep {
        SweepInTime(es, id, last, ttl, k - 1);
      }
    }
  }

  /** A new session is the client's, heard of now, and has the time to live asked for, the default if none is asked for,
      and the maximum if that is less. No other session is touched. */
  lemma OpenGrants(t: Table, id: string, clientId: string, ttl: int, now: int)
    ensures var u := Opened(t, id, clientId, ttl, now);
            && id in u.sessions && u.sessions - {id} == t.sessions - {id}
            && var s := u.sessions[id];
               && s.clientId == clientId && s.createdAt == s.lastHeartbeat == now
               && (0 < ttl <= t.maxTtl ==> s.ttl == ttl)
               && (ttl <= 0 && t.defaultTtl <= t.maxTtl ==> s.ttl == t.defaultTtl)
               && ((if ttl <= 0 then t.defaultTtl else ttl) > t.maxTtl ==> s.ttl == t.maxTtl)
  {
  }

  /** A session opened in any run with an allowed time to live, and then kept alive at intervals of at most the time
      asked for, survives every sweep. */
  lemma AskedLeaseHolds(t: Table, id: string, clientId: string, ttl: int, now: int, es: seq<Timed>, k: nat)
    requires 0 < ttl <= t.maxTtl && k <= |es| && Monotone(es) && KeptAlive(es, id, now, ttl)
    ensures var u := Exec(Opened(t, id, clientId, ttl, now), es[..k]);
            id in u.sessions && u.sessions[id] == Session(clientId, now, LatestBeat(es[..k], id, now), ttl)
  {
    OpenGrants(t, id, clientId, ttl, now);
    LeaseHolds(Opened(t, id, clientId, ttl, now), es, id, k);
  }

  /** A heartbeat is answered with yes exactly when the session is there and not older than its time to live, and then
      the session is as old as the heartbeat; after a no there is no such session. No other session is touched. */
  lemma HeartbeatAnswers(t: Table, id: string, now: int)
    ensures var (u, ok) := Beaten(t, id, now);
            && (ok <==> id in t.sessions && now - t.sessions[id].lastHeartbeat <= t.sessions[id].ttl)
            && (ok <==> id in u.sessions) && u.sessions - {id} == t.sessions - {id}
            && (ok ==> u.sessions[id] == t.sessions[id].(lastHeartbeat := now))
  {
  }

  /** Closing is answered with yes exactly when there was such a session, and there is none afterwards. */
  lemma CloseAnswers(t: Table, id: string)
    ensures var (u, ok) := Closed(t, id);
            (ok <==> id in t.sessions) && id !in u.sessions && u.sessions - {id} == t.sessions - {id}
  {
  }

  /** The limits of the configuration hold for every session. */
  ghost predicate WithinLimits(t: Table) {
    forall id :: id in t.sessions ==>
      && t.sessions[id].ttl <= t.maxTtl
      && (0 < t.defaultTtl && 0 < t.maxTtl ==> 0 < t.sessions[id].ttl)
  }

  lemma {:induction false} LimitsInEveryRun(defaultTtl: int, maxTtl: int, es: seq<Timed>)
    ensures var t := Exec(Table(map[], defaultTtl, maxTtl), es);
            t.defaultTtl == defaultTtl && t.maxTtl == maxTtl && WithinLimits(t)
  {
    if es != [] {
      LimitsInEveryRun(defaultTtl, maxTtl, es[..|es| - 1]);
    }
  }

  /** After a sweep no session is older than its time to live, nor than the maximum; and the sweep drops no session that
      is not. */
  lemma SweepIsExact(defaultTtl: int, maxTtl: int, es: seq<Timed>, now: int, id: string)
    ensures var t := Exec(Table(map[], defaultTtl, maxTtl), es);
            var u := Swept(t, now);
            && (id in u.sessions <==> id in t.sessions && now - t.sessions[id].lastHeartbeat <= t.sessions[id].ttl)
            && (id in u.sessions ==>
                  && u.sessions[id] == t.sessions[id]
                  && now - u.sessions[id].lastHeartbeat <= u.sessions[id].ttl <= maxTtl)
  {
    LimitsInEveryRun(defaultTtl, maxTtl, es);
  }
}

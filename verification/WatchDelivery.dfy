/** What watchers receive, over every run of Watch, Unwatch, TriggerEvent and receiving clients. */
module WatchDelivery {
  import opened Watch

  datatype Op =
    | Register(id: nat, path: string, persistent: bool)
    | Unregister(id: nat, path: string)
    | Trigger(e: Event)
    | Receive(id: nat)

  /** Identifiers of watchers are fresh. */
  function Next(h: Hub, op: Op): Hub {
    match op
    case Register(id, path, persistent) => if id in h.channels.all then h else Watched(h, id, path, persistent)
    case Unregister(id, path) => Unwatched(h, id, path)
    case Trigger(e) => Triggered(h, e)
    case Receive(id) => Received(h, id)
  }

  function Exec(h: Hub, ops: seq<Op>): Hub
    decreases |ops|
  {
    if ops == [] then h else Exec(Next(h, ops[0]), ops[1..])
  }

  const START := Hub(map[], Channels(map[], false))

  // One line of watchers.

  ghost predicate DistinctIds(list: seq<Watcher>) {
    forall i, j :: 0 <= i < j < |list| ==> list[i].id != list[j].id
  }

  /** The persistent watchers of a list, in order. */
  function Persistent(list: seq<Watcher>): seq<Watcher> {
    if list == [] then []
    else Persistent(list[..|list| - 1]) + (if list[|list| - 1].persistent then [list[|list| - 1]] else [])
  }

  /** A registered watcher has not fired and its channel is open; a one-time watcher has been sent nothing yet. */
  ghost predicate WatcherOk(cs: Channels, w: Watcher, path: string) {
    && w.path == path && !w.triggered && w.id in cs.all && !cs.all[w.id].closed
    && (!w.persistent ==> cs.all[w.id] == Channel([], false, []))
  }

  ghost predicate ListOk(cs: Channels, list: seq<Watcher>, path: string) {
    DistinctIds(list) && forall i :: 0 <= i < |list| ==> WatcherOk(cs, list[i], path)
  }

  ghost predicate Inv(h: Hub) {
    && !h.channels.panicked
    && (forall p :: p in h.watchers ==> h.watchers[p] != [] && ListOk(h.channels, h.watchers[p], p))
    && (forall p, q :: p in h.watchers && q in h.watchers && p != q ==> DisjointIds(h.watchers[p], h.watchers[q]))
  }

  ghost predicate DisjointIds(a: seq<Watcher>, b: seq<Watcher>) {
    forall i, j :: 0 <= i < |a| && 0 <= j < |b| ==> a[i].id != b[j].id
  }

  /** Sending to a list reaches exactly the channels of its watchers, each once. */
  lemma {:induction false} SendAllReaches(cs: Channels, list: seq<Watcher>, e: Event)
    requires !cs.panicked && DistinctIds(list)
    requires forall i :: 0 <= i < |list| ==> list[i].id in cs.all && !cs.all[list[i].id].closed
    ensures var ds := SendAll(cs, list, e);
            && !ds.panicked && ds.all.Keys == cs.all.Keys
            && forall id :: id in cs.all ==> ds.all[id] == if HasId(list, id) then Accept(cs.all[id], e) else cs.all[id]
  {
    if list != [] {
      var front, w := list[..|list| - 1], list[|list| - 1];
      SendAllReaches(cs, front, e);
      assert !HasId(front, w.id);
      forall id | id in cs.all && id != w.id ensures HasId(list, id) <==> HasId(front, id) {
        if HasId(list, id) {
          var i :| 0 <= i < |list| && list[i].id == id;
          assert front[i].id == id;
        }
        if HasId(front, id) {
          var i :| 0 <= i < |front| && front[i].id == id;
          assert list[i].id == id;
        }
      }
      assert list[|list| - 1].id == w.id;
    }
  }

  /** Every persistent watcher of the list is one of its watchers. */
  lemma {:induction false} PersistentFrom(list: seq<Watcher>, i: nat) returns (j: nat)
    requires i < |Persistent(list)|
    ensures j < |list| && Persistent(list)[i] == list[j] && list[j].persistent
  {
    var front := list[..|list| - 1];
    if i < |Persistent(front)| {
      j := PersistentFrom(front, i);
    } else {
      j := |list| - 1;
    }
  }

  lemma PersistentPrefixDistinct(list: seq<Watcher>, k: nat)
    requires DistinctIds(list) && k < |list|
    ensures !HasId(Persistent(list[..k]), list[k].id)
  {
    if HasId(Persistent(list[..k]), list[k].id) {
      var i :| 0 <= i < |Persistent(list[..k])| && Persistent(list[..k])[i].id == list[k].id;
      var j := PersistentFrom(list[..k], i);
      assert false;
    }
  }

  /** The removal loop after `k` watchers have been looked at: the one-time ones among them are closed and gone, the
      persistent ones are in their order, and the rest is untouched. */
  ghost predicate RemovedUpTo(cs: Channels, list: seq<Watcher>, k: nat, l: Line)
    requires k <= |list|
  {
    && l.list == Persistent(list[..k]) + Marked(list)[k..]
    && !l.channels.panicked && l.channels.all.Keys == cs.all.Keys
    && (forall id :: id in cs.all && id !in Firing(list[..k]) ==> l.channels.all[id] == cs.all[id])
    && (forall id :: id in cs.all && id in Firing(list[..k]) ==> l.channels.all[id] == cs.all[id].(closed := true))
  }

  lemma {:induction false} FiringFrom(list: seq<Watcher>, id: nat) returns (j: nat)
    requires id in Firing(list)
    ensures j < |list| && list[j].id == id && Fires(list[j])
  {
    var front := list[..|list| - 1];
    if id in Firing(front) {
      j := FiringFrom(front, id);
    } else {
      j := |list| - 1;
    }
  }

  lemma NotYetFired(list: seq<Watcher>, k: nat)
    requires DistinctIds(list) && k < |list|
    ensures list[k].id !in Firing(list[..k])
  {
    if list[k].id in Firing(list[..k]) {
      var j := FiringFrom(list[..k], list[k].id);
      assert false;
    }
  }

  /** What the loop does to the list when it comes to the watcher at `k`. */
  lemma RemovalStepOfList(list: seq<Watcher>, k: nat, l: seq<Watcher>)
    requires DistinctIds(list) && k < |list| && l == Persistent(list[..k]) + Marked(list)[k..]
    requires list[k].persistent || Fires(list[k])
    ensures (if Fires(list[k]) then RemoveId(l, list[k].id) else l) == Persistent(list[..k + 1]) + Marked(list)[k + 1..]
    ensures Fires(list[k]) ==> HasId(l, list[k].id)
  {
    var w, kept := list[k], Persistent(list[..k]);
    assert list[..k + 1][..k] == list[..k] && list[..k + 1][k] == w;
    assert Marked(list)[k..] == [Mark(w)] + Marked(list)[k + 1..];
    assert l[|kept|] == Mark(w);
    if Fires(w) {
      PersistentPrefixDistinct(list, k);
      RemoveIdAt(l, w.id, |kept|);
      assert l[..|kept|] + l[|kept| + 1..] == kept + Marked(list)[k + 1..];
    }
  }

  lemma FiringSnoc(list: seq<Watcher>, k: nat)
    requires k < |list|
    ensures Firing(list[..k + 1]) == if Fires(list[k]) then Firing(list[..k]) + [list[k].id] else Firing(list[..k])
  {
    assert list[..k + 1][..k] == list[..k] && list[..k + 1][k] == list[k];
  }

  lemma RemovalStep(cs: Channels, list: seq<Watcher>, k: nat, l: Line)
    requires DistinctIds(list) && k < |list| && RemovedUpTo(cs, list, k, l)
    requires list[k].id in cs.all && !cs.all[list[k].id].closed && (list[k].persistent || Fires(list[k]))
    ensures RemovedUpTo(cs, list, k + 1, if Fires(list[k]) then Remove(l, list[k].id) else l)
  {
    hide Persistent, Marked, Firing, RemoveId, HasId, DistinctIds;
    RemovalStepOfList(list, k, l.list);
    FiringSnoc(list, k);
    NotYetFired(list, k);
  }

  lemma RemoveEachSnoc(l: Line, ids: seq<nat>, id: nat)
    ensures RemoveEach(l, ids + [id]) == Remove(RemoveEach(l, ids), id)
  {
    assert (ids + [id])[..|ids|] == ids;
  }

  lemma NothingRemoved(cs: Channels, list: seq<Watcher>)
    requires !cs.panicked
    ensures RemovedUpTo(cs, list, 0, RemoveEach(Line(Marked(list), cs), Firing(list[..0])))
  {
    assert Marked(list)[0..] == Marked(list);
  }

  lemma {:induction false} RemovalLoop(cs: Channels, list: seq<Watcher>, k: nat)
    requires DistinctIds(list) && k <= |list| && !cs.panicked
    requires forall i :: 0 <= i < |list| ==> list[i].id in cs.all && !cs.all[list[i].id].closed && !list[i].triggered
    ensures RemovedUpTo(cs, list, k, RemoveEach(Line(Marked(list), cs), Firing(list[..k])))
  {
    hide RemovedUpTo, Firing, RemoveEach, Remove;
    if k == 0 {
      NothingRemoved(cs, list);
    } else {
      var l := Line(Marked(list), cs);
      RemovalLoop(cs, list, k - 1);
      RemovalStep(cs, list, k - 1, RemoveEach(l, Firing(list[..k - 1])));
      FiringSnoc(list, k - 1);
      RemoveEachSnoc(l, Firing(list[..k - 1]), list[k - 1].id);
    }
  }

  /** The channel of a watcher after an event on its path. */
  function Fired(c: Channel, w: Watcher, e: Event): Channel {
    if w.persistent then Accept(c, e) else Accept(c, e).(closed := true)
  }

  /** The effect of an event on the watchers of its path: each is sent the event once, the persistent ones stay in
      order, the one-time ones are closed and gone, and nobody else is touched. */
  lemma TriggerEffect(h: Hub, e: Event)
    requires Inv(h)
    ensures var d := Triggered(h, e);
            var list := ListOf(h, e.path);
            && !d.channels.panicked && d.channels.all.Keys == h.channels.all.Keys
            && d.watchers ==
                 (if Persistent(list) == [] then h.watchers - {e.path} else h.watchers[e.path := Persistent(list)])
            && (forall i :: 0 <= i < |list| ==>
                  && list[i].id in h.channels.all
                  && d.channels.all[list[i].id] == Fired(h.channels.all[list[i].id], list[i], e))
            && (forall id :: id in h.channels.all && !HasId(list, id) ==> d.channels.all[id] == h.channels.all[id])
  {
    hide RemoveEach, SendAll, Firing, Persistent;
    if e.path in h.watchers {
      var list := h.watchers[e.path];
      assert ListOk(h.channels, list, e.path);
      SendAllReaches(h.channels, list, e);
      var cs := SendAll(h.channels, list, e);
      forall i | 0 <= i < |list| ensures list[i].id in cs.all && !cs.all[list[i].id].closed && !list[i].triggered {
        assert WatcherOk(h.channels, list[i], e.path);
      }
      RemovalLoop(cs, list, |list|);
      assert list[..|list|] == list;
      TriggerChannels(h, e, cs);
      assert Persistent(list) + Marked(list)[|list|..] == Persistent(list);
    } else {
      NobodyPersists();
    }
  }

  lemma NobodyPersists()
    ensures Persistent([]) == []
  {
  }

  lemma TriggerChannels(h: Hub, e: Event, cs: Channels)
    requires Inv(h) && e.path in h.watchers && cs == SendAll(h.channels, h.watchers[e.path], e)
    requires var list := h.watchers[e.path];
             && cs.all.Keys == h.channels.all.Keys
             && (forall id :: id in h.channels.all ==>
                   cs.all[id] == if HasId(list, id) then Accept(h.channels.all[id], e) else h.channels.all[id])
             && RemovedUpTo(cs, list, |list|, RemoveEach(Line(Marked(list), cs), Firing(list)))
    ensures var d := Triggered(h, e);
            var list := h.watchers[e.path];
            && (forall i :: 0 <= i < |list| ==>
                  && list[i].id in h.channels.all
                  && d.channels.all[list[i].id] == Fired(h.channels.all[list[i].id], list[i], e))
            && (forall id :: id in h.channels.all && !HasId(list, id) ==> d.channels.all[id] == h.channels.all[id])
  {
    var list := h.watchers[e.path];
    var l := RemoveEach(Line(Marked(list), cs), Firing(list));
    assert list[..|list|] == list && ListOk(h.channels, list, e.path);
    forall i | 0 <= i < |list|
      ensures list[i].id in h.channels.all
              && l.channels.all[list[i].id] == Fired(h.channels.all[list[i].id], list[i], e)
    {
      assert WatcherOk(h.channels, list[i], e.path) && HasId(list, list[i].id);
      FiringIff(list, i);
    }
    forall id | id in h.channels.all && !HasId(list, id) ensures l.channels.all[id] == h.channels.all[id] {
      if id in Firing(list) {
        var j := FiringFrom(list, id);
        assert false;
      }
    }
  }

  lemma {:induction false} FiringIff(list: seq<Watcher>, i: nat)
    requires DistinctIds(list) && i < |list|
    ensures list[i].id in Firing(list) <==> Fires(list[i])
  {
    var front := list[..|list| - 1];
    if i == |list| - 1 {
      if list[i].id in Firing(front) {
        var j := FiringFrom(front, list[i].id);
        assert false;
      }
    } else {
      FiringIff(front, i);
      assert front[i] == list[i];
    }
  }

  lemma {:induction false} PersistentDistinct(list: seq<Watcher>)
    requires DistinctIds(list)
    ensures DistinctIds(Persistent(list))
  {
    if list != [] {
      var k := |list| - 1;
      PersistentDistinct(list[..k]);
      PersistentPrefixDistinct(list, k);
      var kept := Persistent(list[..k]);
      if list[k].persistent {
        forall i | 0 <= i < |kept| ensures kept[i].id != list[k].id {
        }
      }
    }
  }

  /** The other lines of watchers do not notice. */
  ghost predicate SameElsewhere(h: Hub, d: Hub, path: string) {
    && (forall p :: p != path ==>
          (p in d.watchers <==> p in h.watchers) && (p in h.watchers ==> d.watchers[p] == h.watchers[p]))
    && (forall p, i :: p in h.watchers && p != path && 0 <= i < |h.watchers[p]| ==>
          h.watchers[p][i].id in h.channels.all && h.watchers[p][i].id in d.channels.all
          && d.channels.all[h.watchers[p][i].id] == h.channels.all[h.watchers[p][i].id])
  }

  /** One line changes in an orderly way and the others stay. */
  lemma LineKeepsInv(h: Hub, d: Hub, path: string)
    requires Inv(h) && !d.channels.panicked && SameElsewhere(h, d, path)
    requires path in d.watchers ==> d.watchers[path] != [] && ListOk(d.channels, d.watchers[path], path)
    requires path in d.watchers ==> forall p :: p in h.watchers && p != path ==>
               DisjointIds(h.watchers[p], d.watchers[path])
    ensures Inv(d)
  {
    forall p | p in d.watchers ensures d.watchers[p] != [] && ListOk(d.channels, d.watchers[p], p) {
      if p != path {
        assert ListOk(h.channels, h.watchers[p], p);
        forall i | 0 <= i < |d.watchers[p]| ensures WatcherOk(d.channels, d.watchers[p][i], p) {
          assert WatcherOk(h.channels, h.watchers[p][i], p);
        }
      }
    }
    forall p, q | p in d.watchers && q in d.watchers && p != q ensures DisjointIds(d.watchers[p], d.watchers[q]) {
      if p != path && q != path {
        assert DisjointIds(h.watchers[p], h.watchers[q]);
      } else if q == path {
        assert DisjointIds(h.watchers[p], d.watchers[path]);
      } else {
        assert DisjointIds(h.watchers[q], d.watchers[path]);
      }
    }
  }

  /** The channels of other lines are not those of this one. */
  lemma ElsewhereIsElsewhere(h: Hub, path: string, p: string, i: nat)
    requires Inv(h) && p in h.watchers && p != path && i < |h.watchers[p]|
    ensures h.watchers[p][i].id in h.channels.all && !HasId(ListOf(h, path), h.watchers[p][i].id)
  {
    assert ListOk(h.channels, h.watchers[p], p);
    assert WatcherOk(h.channels, h.watchers[p][i], p);
    if path in h.watchers {
      assert DisjointIds(h.watchers[p], h.watchers[path]);
    }
  }

  lemma TriggerKeepsInv(h: Hub, e: Event)
    requires Inv(h)
    ensures Inv(Triggered(h, e))
  {
    hide Triggered;
    var d, list := Triggered(h, e), ListOf(h, e.path);
    TriggerEffect(h, e);
    forall p, i | p in h.watchers && p != e.path && 0 <= i < |h.watchers[p]|
      ensures h.watchers[p][i].id in h.channels.all
              && d.channels.all[h.watchers[p][i].id] == h.channels.all[h.watchers[p][i].id]
    {
      ElsewhereIsElsewhere(h, e.path, p, i);
    }
    if e.path in d.watchers {
      TriggeredLineOk(h, e);
    }
    LineKeepsInv(h, d, e.path);
  }

  lemma TriggeredLineOk(h: Hub, e: Event)
    requires Inv(h) && e.path in Triggered(h, e).watchers
    ensures var d := Triggered(h, e);
            && d.watchers[e.path] != [] && ListOk(d.channels, d.watchers[e.path], e.path)
            && forall p :: p in h.watchers && p != e.path ==> DisjointIds(h.watchers[p], d.watchers[e.path])
  {
    hide Triggered, Persistent;
    TriggerEffect(h, e);
    NobodyPersists();
    assert e.path in h.watchers;
    var d, list := Triggered(h, e), h.watchers[e.path];
    var kept := Persistent(list);
    assert ListOk(h.channels, list, e.path) && d.watchers[e.path] == kept;
    PersistentDistinct(list);
    forall i | 0 <= i < |kept| ensures WatcherOk(d.channels, kept[i], e.path) {
      var j := PersistentFrom(list, i);
      assert WatcherOk(h.channels, list[j], e.path);
    }
    forall p | p in h.watchers && p != e.path ensures DisjointIds(h.watchers[p], kept) {
      assert DisjointIds(h.watchers[p], list);
      forall i, j | 0 <= i < |h.watchers[p]| && 0 <= j < |kept| ensures h.watchers[p][i].id != kept[j].id {
        var k := PersistentFrom(list, j);
      }
    }
  }

  // Unwatch, Watch and receiving.

  /** Taking one watcher out closes its channel and keeps the others in order. */
  lemma RemoveEffect(cs: Channels, list: seq<Watcher>, path: string, id: nat)
    requires !cs.panicked && ListOk(cs, list, path)
    ensures var l := Remove(Line(list, cs), id);
            && !l.channels.panicked && l.channels.all.Keys == cs.all.Keys && !HasId(l.list, id)
            && (forall k :: k in cs.all ==>
                  l.channels.all[k] == if k == id && HasId(list, id) then cs.all[k].(closed := true) else cs.all[k])
            && (HasId(list, id) ==>
                  exists i :: 0 <= i < |list| && list[i].id == id && l.list == list[..i] + list[i + 1..])
  {
    if HasId(list, id) {
      var i :| 0 <= i < |list| && list[i].id == id;
      assert WatcherOk(cs, list[i], path);
      RemoveIdAt(list, id, i);
    }
  }

  lemma UnwatchKeepsInv(h: Hub, id: nat, path: string)
    requires Inv(h)
    ensures Inv(Unwatched(h, id, path))
  {
    if path in h.watchers {
      var d, list := Unwatched(h, id, path), h.watchers[path];
      var l := Remove(Line(list, h.channels), id);
      assert ListOk(h.channels, list, path);
      RemoveEffect(h.channels, list, path, id);
      forall p, i | p in h.watchers && p != path && 0 <= i < |h.watchers[p]|
        ensures h.watchers[p][i].id in h.channels.all
                && d.channels.all[h.watchers[p][i].id] == h.channels.all[h.watchers[p][i].id]
      {
        ElsewhereIsElsewhere(h, path, p, i);
      }
      ShorterLineOk(h, l, path, id);
      LineKeepsInv(h, d, path);
    }
  }

  /** Where the watchers of a shortened list come from. */
  lemma CutAt(list: seq<Watcher>, k: nat, i: nat) returns (j: nat)
    requires k < |list| && i < |list[..k] + list[k + 1..]|
    ensures j < |list| && j != k && (list[..k] + list[k + 1..])[i] == list[j]
  {
    j := if i < k then i else i + 1;
  }

  lemma CutDistinct(list: seq<Watcher>, k: nat)
    requires DistinctIds(list) && k < |list|
    ensures DistinctIds(list[..k] + list[k + 1..])
  {
  }

  lemma ShorterLineOk(h: Hub, l: Line, path: string, id: nat)
    requires Inv(h) && path in h.watchers && l == Remove(Line(h.watchers[path], h.channels), id)
    ensures ListOk(l.channels, l.list, path)
    ensures forall p :: p in h.watchers && p != path ==> DisjointIds(h.watchers[p], l.list)
  {
    hide Remove;
    var list := h.watchers[path];
    assert ListOk(h.channels, list, path);
    RemoveEffect(h.channels, list, path, id);
    RemoveNothing(list, h.channels, id);
    if HasId(list, id) {
      var k :| 0 <= k < |list| && list[k].id == id && l.list == list[..k] + list[k + 1..];
      CutDistinct(list, k);
      forall i | 0 <= i < |l.list| ensures WatcherOk(l.channels, l.list[i], path) {
        var j := CutAt(list, k, i);
        assert WatcherOk(h.channels, list[j], path);
      }
      forall p | p in h.watchers && p != path ensures DisjointIds(h.watchers[p], l.list) {
        assert DisjointIds(h.watchers[p], list);
        forall i, m | 0 <= i < |h.watchers[p]| && 0 <= m < |l.list| ensures h.watchers[p][i].id != l.list[m].id {
          var j := CutAt(list, k, m);
        }
      }
    }
  }

  lemma RemoveNothing(list: seq<Watcher>, cs: Channels, id: nat)
    ensures !HasId(list, id) ==> Remove(Line(list, cs), id) == Line(list, cs)
  {
  }

  lemma WatchKeepsInv(h: Hub, id: nat, path: string, persistent: bool)
    requires Inv(h) && id !in h.channels.all
    ensures Inv(Watched(h, id, path, persistent))
  {
    var d, list := Watched(h, id, path, persistent), ListOf(h, path);
    forall p, i | p in h.watchers && 0 <= i < |h.watchers[p]|
      ensures h.watchers[p][i].id in h.channels.all && h.watchers[p][i].id != id
    {
      assert ListOk(h.channels, h.watchers[p], p) && WatcherOk(h.channels, h.watchers[p][i], p);
    }
    forall i | 0 <= i < |list| ensures WatcherOk(d.channels, list[i], path) {
      assert WatcherOk(h.channels, list[i], path);
    }
    forall p | p in h.watchers && p != path
      ensures DisjointIds(h.watchers[p], list + [Watcher(id, path, persistent, false)])
    {
      assert path in h.watchers ==> DisjointIds(h.watchers[p], h.watchers[path]);
    }
    LineKeepsInv(h, d, path);
  }

  lemma ReceiveKeepsInv(h: Hub, id: nat)
    requires Inv(h)
    ensures Inv(Received(h, id))
  {
    var d := Received(h, id);
    forall p | p in d.watchers ensures d.watchers[p] != [] && ListOk(d.channels, d.watchers[p], p) {
      assert ListOk(h.channels, h.watchers[p], p);
      forall i | 0 <= i < |d.watchers[p]| ensures WatcherOk(d.channels, d.watchers[p][i], p) {
        assert WatcherOk(h.channels, h.watchers[p][i], p);
      }
    }
  }

  lemma NextKeepsInv(h: Hub, op: Op)
    requires Inv(h)
    ensures Inv(Next(h, op))
  {
    hide Inv, Watched, Unwatched, Triggered, Received;
    match op
    case Register(id, path, persistent) =>
      if id !in h.channels.all {
        WatchKeepsInv(h, id, path, persistent);
      }
    case Unregister(id, path) => UnwatchKeepsInv(h, id, path);
    case Trigger(e) => TriggerKeepsInv(h, e);
    case Receive(id) => ReceiveKeepsInv(h, id);
  }

  lemma {:induction false} ExecKeepsInv(h: Hub, ops: seq<Op>)
    requires Inv(h)
    ensures Inv(Exec(h, ops))
    decreases |ops|
  {
    if ops != [] {
      NextKeepsInv(h, ops[0]);
      ExecKeepsInv(Next(h, ops[0]), ops[1..]);
    }
  }

  /** In no run is a closed channel sent to or closed again. */
  lemma NeverPanics(ops: seq<Op>)
    ensures !Exec(START, ops).channels.panicked
  {
    ExecKeepsInv(START, ops);
  }

  // Delivery.

  /** What a watcher on `path` is to be sent from now on, `n` events being in its channel: every event on its path that
      finds room, up to its removal, and just the first one if it is a one-time watcher. */
  function Due(ops: seq<Op>, id: nat, path: string, persistent: bool, n: nat): seq<Event>
    decreases |ops|
  {
    if ops == [] then [] else
      match ops[0]
      case Trigger(e) =>
        if e.path != path then Due(ops[1..], id, path, persistent, n)
        else
          (if n < CAPACITY then [e] else [])
          + (if persistent then Due(ops[1..], id, path, persistent, if n < CAPACITY then n + 1 else n) else [])
      case Unregister(k, p) =>
        if k == id && p == path then [] else Due(ops[1..], id, path, persistent, n)
      case Receive(k) => Due(ops[1..], id, path, persistent, if k == id && n > 0 then n - 1 else n)
      case Register(_, _, _) => Due(ops[1..], id, path, persistent, n)
  }

  /** A watcher is registered on its path. */
  ghost predicate Registered(h: Hub, id: nat, path: string, persistent: bool) {
    Watcher(id, path, persistent, false) in ListOf(h, path)
  }

  /** A channel that is closed and belongs to nobody registered. */
  ghost predicate Done(h: Hub, id: nat) {
    id in h.channels.all && h.channels.all[id].closed
  }

  /** A registered watcher is the one of its identifier, and its channel is open. */
  lemma RegisteredIsOpen(h: Hub, id: nat, path: string, i: nat)
    requires Inv(h) && path in h.watchers && i < |h.watchers[path]| && h.watchers[path][i].id == id
    ensures id in h.channels.all && !h.channels.all[id].closed
  {
    assert ListOk(h.channels, h.watchers[path], path) && WatcherOk(h.channels, h.watchers[path][i], path);
  }

  lemma DoneIsNowhere(h: Hub, id: nat, path: string)
    requires Inv(h) && Done(h, id)
    ensures !HasId(ListOf(h, path), id)
  {
    var list := ListOf(h, path);
    forall i | 0 <= i < |list| ensures list[i].id in h.channels.all && !h.channels.all[list[i].id].closed {
      RegisteredIsOpen(h, list[i].id, path, i);
    }
  }

  lemma DoneStep(h: Hub, op: Op, id: nat)
    requires Inv(h) && Done(h, id)
    ensures Done(Next(h, op), id) && Next(h, op).channels.all[id].sent == h.channels.all[id].sent
  {
    hide Inv, Triggered;
    match op
    case Register(_, _, _) =>
    case Unregister(k, path) =>
      DoneIsNowhere(h, id, path);
    case Trigger(e) =>
      DoneIsNowhere(h, id, e.path);
      TriggerEffect(h, e);
    case Receive(_) =>
  }

  lemma {:induction false} DoneStays(h: Hub, ops: seq<Op>, id: nat)
    requires Inv(h) && Done(h, id)
    ensures Done(Exec(h, ops), id) && Exec(h, ops).channels.all[id].sent == h.channels.all[id].sent
    decreases |ops|
  {
    if ops != [] {
      DoneStep(h, ops[0], id);
      NextKeepsInv(h, ops[0]);
      DoneStays(Next(h, ops[0]), ops[1..], id);
    }
  }

  lemma {:induction false} StaysPersistent(list: seq<Watcher>, w: Watcher)
    requires w in list && w.persistent
    ensures w in Persistent(list)
  {
    if w != list[|list| - 1] {
      assert list == list[..|list| - 1] + [list[|list| - 1]];
      StaysPersistent(list[..|list| - 1], w);
    }
  }

  /** An event on the path of a watcher. */
  lemma TriggerStep(h: Hub, e: Event, id: nat, persistent: bool)
    requires Inv(h) && Registered(h, id, e.path, persistent)
    ensures id in h.channels.all && id in Triggered(h, e).channels.all
    ensures Triggered(h, e).channels.all[id] == Fired(h.channels.all[id], Watcher(id, e.path, persistent, false), e)
    ensures persistent ==> Registered(Triggered(h, e), id, e.path, persistent)
  {
    hide Inv, Triggered;
    TriggerEffect(h, e);
    var list, w := ListOf(h, e.path), Watcher(id, e.path, persistent, false);
    var i :| 0 <= i < |list| && list[i] == w;
    assert list[i].id == id;
    if persistent {
      StaysPersistent(list, w);
    }
  }

  /** An event on another path. */
  lemma TriggerElsewhere(h: Hub, e: Event, id: nat, path: string, persistent: bool)
    requires Inv(h) && Registered(h, id, path, persistent) && e.path != path
    ensures Registered(Triggered(h, e), id, path, persistent)
    ensures id in h.channels.all && id in Triggered(h, e).channels.all
    ensures Triggered(h, e).channels.all[id] == h.channels.all[id]
  {
    hide Inv, Triggered;
    TriggerEffect(h, e);
    var i :| 0 <= i < |ListOf(h, path)| && ListOf(h, path)[i] == Watcher(id, path, persistent, false);
    ElsewhereIsElsewhere(h, e.path, path, i);
  }

  lemma StaysWhenCut(list: seq<Watcher>, k: nat, i: nat)
    requires k < |list| && i < |list| && i != k
    ensures list[i] in list[..k] + list[k + 1..]
  {
    var cut := list[..k] + list[k + 1..];
    assert if i < k then cut[i] == list[i] else cut[i - 1] == list[i];
  }

  /** Taking out another watcher, or one of this identifier on a path where it is not. */
  lemma UnwatchElsewhere(h: Hub, k: nat, p: string, id: nat, path: string, persistent: bool)
    requires Inv(h) && Registered(h, id, path, persistent) && !(k == id && p == path)
    ensures Registered(Unwatched(h, k, p), id, path, persistent)
    ensures id in h.channels.all && id in Unwatched(h, k, p).channels.all
    ensures Unwatched(h, k, p).channels.all[id] == h.channels.all[id]
  {
    var w := Watcher(id, path, persistent, false);
    var i :| 0 <= i < |ListOf(h, path)| && ListOf(h, path)[i] == w;
    RegisteredIsOpen(h, id, path, i);
    if p in h.watchers {
      assert ListOk(h.channels, h.watchers[p], p);
      RemoveEffect(h.channels, h.watchers[p], p, k);
      if p != path {
        ElsewhereIsElsewhere(h, p, path, i);
      } else if HasId(h.watchers[p], k) {
        var list := h.watchers[p];
        var j :| 0 <= j < |list| && list[j].id == k
          && Remove(Line(list, h.channels), k).list == list[..j] + list[j + 1..];
        StaysWhenCut(list, j, i);
      }
    }
  }

  lemma UnwatchCloses(h: Hub, id: nat, path: string, persistent: bool)
    requires Inv(h) && Registered(h, id, path, persistent)
    ensures id in h.channels.all && Done(Unwatched(h, id, path), id)
    ensures Unwatched(h, id, path).channels.all[id].sent == h.channels.all[id].sent
  {
    var i :| 0 <= i < |ListOf(h, path)| && ListOf(h, path)[i] == Watcher(id, path, persistent, false);
    RegisteredIsOpen(h, id, path, i);
    RemoveEffect(h.channels, h.watchers[path], path, id);
    assert h.watchers[path][i].id == id;
  }

  /** The two steps that touch neither registration nor what has been sent. */
  lemma OtherStep(h: Hub, op: Op, id: nat, path: string, persistent: bool)
    requires Inv(h) && Registered(h, id, path, persistent) && (op.Register? || op.Receive?)
    ensures Registered(Next(h, op), id, path, persistent)
    ensures id in h.channels.all && id in Next(h, op).channels.all
    ensures Next(h, op).channels.all[id].sent == h.channels.all[id].sent
    ensures |Next(h, op).channels.all[id].buffer|
            == |h.channels.all[id].buffer| - (if op == Receive(id) && h.channels.all[id].buffer != [] then 1 else 0)
  {
    var w := Watcher(id, path, persistent, false);
    var i :| 0 <= i < |ListOf(h, path)| && ListOf(h, path)[i] == w;
    RegisteredIsOpen(h, id, path, i);
    if op.Register? && op.path == path {
      assert ListOf(Next(h, op), path)[i] == w;
    }
  }

  /** The operation ends the registration of a watcher. */
  predicate Ends(op: Op, id: nat, path: string, persistent: bool) {
    op == Unregister(id, path) || (op.Trigger? && op.e.path == path && !persistent)
  }

  /** What a watcher is sent by one operation, `n` events being in its channel. */
  function DueNow(op: Op, path: string, n: nat): seq<Event> {
    if op.Trigger? && op.e.path == path && n < CAPACITY then [op.e] else []
  }

  /** How many events are in its channel after that. */
  function Waiting(op: Op, id: nat, path: string, n: nat): nat {
    if op == Receive(id) && n > 0 then n - 1 else n + |DueNow(op, path, n)|
  }

  lemma DueStep(ops: seq<Op>, id: nat, path: string, persistent: bool, n: nat)
    requires ops != []
    ensures Due(ops, id, path, persistent, n) == DueNow(ops[0], path, n)
              + (if Ends(ops[0], id, path, persistent) then []
                 else Due(ops[1..], id, path, persistent, Waiting(ops[0], id, path, n)))
  {
  }

  /** One operation, seen by a registered watcher. */
  lemma DeliveryStep(h: Hub, op: Op, id: nat, path: string, persistent: bool)
    requires Inv(h) && Registered(h, id, path, persistent)
    ensures id in h.channels.all && id in Next(h, op).channels.all
    ensures var c, d := h.channels.all[id], Next(h, op).channels.all[id];
            && d.sent == c.sent + DueNow(op, path, |c.buffer|)
            && (if Ends(op, id, path, persistent) then Done(Next(h, op), id)
                else Registered(Next(h, op), id, path, persistent) && |d.buffer| == Waiting(op, id, path, |c.buffer|))
  {
    hide Inv, Registered, Watched, Unwatched, Triggered, Received;
    match op
    case Trigger(e) =>
      if e.path == path {
        TriggerStep(h, e, id, persistent);
      } else {
        TriggerElsewhere(h, e, id, path, persistent);
      }
    case Unregister(k, p) =>
      if k == id && p == path {
        UnwatchCloses(h, id, path, persistent);
      } else {
        UnwatchElsewhere(h, k, p, id, path, persistent);
      }
    case Receive(_) => OtherStep(h, op, id, path, persistent);
    case Register(_, _, _) => OtherStep(h, op, id, path, persistent);
  }

  /** Delivery is exact: over every run, what the channel of a registered watcher accepts is what is due. */
  lemma {:induction false} DeliveryIsExact(h: Hub, ops: seq<Op>, id: nat, path: string, persistent: bool)
    requires Inv(h) && Registered(h, id, path, persistent)
    ensures id in h.channels.all && id in Exec(h, ops).channels.all
    ensures Exec(h, ops).channels.all[id].sent
            == h.channels.all[id].sent + Due(ops, id, path, persistent, |h.channels.all[id].buffer|)
    decreases |ops|
  {
    hide Inv, Registered, Done, Next, Ends, DueNow, Waiting;
    DeliveryStep(h, Receive(id), id, path, persistent);
    if ops != [] {
      var op, rest := ops[0], ops[1..];
      NextKeepsInv(h, op);
      DeliveryStep(h, op, id, path, persistent);
      DueStep(ops, id, path, persistent, |h.channels.all[id].buffer|);
      if Ends(op, id, path, persistent) {
        DoneStays(Next(h, op), rest, id);
      } else {
        DeliveryIsExact(Next(h, op), rest, id, path, persistent);
      }
    }
  }

  /** The first event on a path before a watcher is taken off it, if there is one. */
  function FirstEvent(ops: seq<Op>, id: nat, path: string): seq<Event> {
    if ops == [] then []
    else if ops[0].Trigger? && ops[0].e.path == path then [ops[0].e]
    else if ops[0] == Unregister(id, path) then []
    else FirstEvent(ops[1..], id, path)
  }

  lemma {:induction false} OnceIsDueOnce(ops: seq<Op>, id: nat, path: string)
    ensures Due(ops, id, path, false, 0) == FirstEvent(ops, id, path)
  {
    if ops != [] {
      OnceIsDueOnce(ops[1..], id, path);
    }
  }

  /** A one-time watcher registered in the course of any run receives exactly the first event on its path after that,
      unless it is taken off before. */
  lemma OneTimeWatcherFiresOnce(before: seq<Op>, id: nat, path: string, after: seq<Op>)
    requires id !in Exec(START, before).channels.all
    ensures var end := Exec(Watched(Exec(START, before), id, path, false), after);
            id in end.channels.all && end.channels.all[id].sent == FirstEvent(after, id, path)
  {
    var h := Exec(START, before);
    ExecKeepsInv(START, before);
    WatchKeepsInv(h, id, path, false);
    var d := Watched(h, id, path, false);
    assert ListOf(d, path)[|ListOf(h, path)|] == Watcher(id, path, false, false);
    DeliveryIsExact(d, after, id, path, false);
    OnceIsDueOnce(after, id, path);
  }

  /** The events on a path before a watcher is taken off it. */
  function EventsOn(ops: seq<Op>, id: nat, path: string): seq<Event> {
    if ops == [] || ops[0] == Unregister(id, path) then []
    else if ops[0].Trigger? && ops[0].e.path == path then [ops[0].e] + EventsOn(ops[1..], id, path)
    else EventsOn(ops[1..], id, path)
  }

  lemma {:induction false} FewAreAllDue(ops: seq<Op>, id: nat, path: string, n: nat)
    requires n + |EventsOn(ops, id, path)| <= 10
    ensures Due(ops, id, path, true, n) == EventsOn(ops, id, path)
  {
    if ops != [] {
      DueStep(ops, id, path, true, n);
      if !Ends(ops[0], id, path, true) {
        FewAreAllDue(ops[1..], id, path, Waiting(ops[0], id, path, n));
      }
    }
  }

  /** A persistent watcher registered in the course of any run is sent every event on its path after that until it is
      taken off, as long as there are at most ten of them, even if its client takes none out meanwhile. */
  lemma PersistentWatcherMissesNothing(before: seq<Op>, id: nat, path: string, after: seq<Op>)
    requires id !in Exec(START, before).channels.all && |EventsOn(after, id, path)| <= 10
    ensures var end := Exec(Watched(Exec(START, before), id, path, true), after);
            id in end.channels.all && end.channels.all[id].sent == EventsOn(after, id, path)
  {
    var h := Exec(START, before);
    ExecKeepsInv(START, before);
    WatchKeepsInv(h, id, path, true);
    var d := Watched(h, id, path, true);
    assert ListOf(d, path)[|ListOf(h, path)|] == Watcher(id, path, true, false);
    DeliveryIsExact(d, after, id, path, true);
    FewAreAllDue(after, id, path, 0);
  }
}

/** Watches and their event channels (internal/watch/watcher.go). A channel is named by the identifier of its watcher.
    Sending on a closed channel and closing one twice are panics in Go; the model records them in a flag. */
module Watch {

  datatype EventKind = Created | Deleted | DataChanged | ChildrenChanged
  datatype Event = Event(kind: EventKind, path: string, data: string, version: nat)

  datatype Watcher = Watcher(id: nat, path: string, persistent: bool, triggered: bool)

  const CAPACITY: nat := 10

  /** `sent` is history: all events the channel has ever accepted. */
  datatype Channel = Channel(buffer: seq<Event>, closed: bool, sent: seq<Event>)

  datatype Channels = Channels(all: map<nat, Channel>, panicked: bool)

  datatype Hub = Hub(watchers: map<string, seq<Watcher>>, channels: Channels)

  /** A full channel drops the event. */
  function Accept(c: Channel, e: Event): Channel {
    if |c.buffer| < CAPACITY then c.(buffer := c.buffer + [e], sent := c.sent + [e]) else c
  }

  function Send(cs: Channels, id: nat, e: Event): Channels {
    if id !in cs.all || cs.all[id].closed then cs.(panicked := true)
    else cs.(all := cs.all[id := Accept(cs.all[id], e)])
  }

  function Close(cs: Channels, id: nat): Channels {
    if id !in cs.all || cs.all[id].closed then cs.(panicked := true)
    else cs.(all := cs.all[id := cs.all[id].(closed := true)])
  }

  function SendAll(cs: Channels, list: seq<Watcher>, e: Event): Channels {
    if list == [] then cs else Send(SendAll(cs, list[..|list| - 1], e), list[|list| - 1].id, e)
  }

  predicate HasId(list: seq<Watcher>, id: nat) {
    exists i :: 0 <= i < |list| && list[i].id == id
  }

  /** The list without the first watcher of that identifier. */
  function RemoveId(list: seq<Watcher>, id: nat): seq<Watcher> {
    if list == [] then [] else if list[0].id == id then list[1..] else [list[0]] + RemoveId(list[1..], id)
  }

  function Mark(w: Watcher): Watcher {
    if w.persistent then w else w.(triggered := true)
  }

  function Marked(list: seq<Watcher>): seq<Watcher> {
    seq(|list|, i requires 0 <= i < |list| => Mark(list[i]))
  }

  predicate Fires(w: Watcher) {
    !w.persistent && !w.triggered
  }

  /** The one-time watchers of the list that have not fired, in order. */
  function Firing(list: seq<Watcher>): seq<nat> {
    if list == [] then []
    else Firing(list[..|list| - 1]) + (if Fires(list[|list| - 1]) then [list[|list| - 1].id] else [])
  }

  /** The watchers of one path together with the channels. */
  datatype Line = Line(list: seq<Watcher>, channels: Channels)

  function Remove(l: Line, id: nat): Line {
    if HasId(l.list, id) then Line(RemoveId(l.list, id), Close(l.channels, id)) else l
  }

  function RemoveEach(l: Line, ids: seq<nat>): Line {
    if ids == [] then l else Remove(RemoveEach(l, ids[..|ids| - 1]), ids[|ids| - 1])
  }

  function ListOf(h: Hub, path: string): seq<Watcher> {
    if path in h.watchers then h.watchers[path] else []
  }

  /** A path without watchers is not kept. */
  function WithLine(h: Hub, path: string, l: Line): Hub {
    Hub(if l.list == [] then h.watchers - {path} else h.watchers[path := l.list], l.channels)
  }

  function Watched(h: Hub, id: nat, path: string, persistent: bool): Hub {
    Hub(h.watchers[path := ListOf(h, path) + [Watcher(id, path, persistent, false)]],
        h.channels.(all := h.channels.all[id := Channel([], false, [])]))
  }

  function Unwatched(h: Hub, id: nat, path: string): Hub {
    if path !in h.watchers then h else WithLine(h, path, Remove(Line(h.watchers[path], h.channels), id))
  }

  /** Everybody on the path is sent the event; then the one-time watchers are closed and taken out. */
  function Triggered(h: Hub, e: Event): Hub {
    if e.path !in h.watchers then h else
      var list := h.watchers[e.path];
      WithLine(h, e.path, RemoveEach(Line(Marked(list), SendAll(h.channels, list, e)), Firing(list)))
  }

  /** The client takes an event out of its channel, also out of a closed one. */
  function Received(h: Hub, id: nat): Hub {
    if id in h.channels.all && h.channels.all[id].buffer != [] then
      var c := h.channels.all[id];
      h.(channels := h.channels.(all := h.channels.all[id := c.(buffer := c.buffer[1..])]))
    else h
  }

  class Manager {
    var watchers: map<string, seq<Watcher>>
    var channels: Channels

    function View(): Hub
      reads this
    {
      Hub(watchers, channels)
    }

    constructor ()
      ensures View() == Hub(map[], Channels(map[], false))
    {
      watchers, channels := map[], Channels(map[], false);
    }

    method Watch(id: nat, path: string, persistent: bool)
      modifies this
      ensures View() == Watched(old(View()), id, path, persistent)
    {
      var w := Watcher(id, path, persistent, false);
      channels := channels.(all := channels.all[id := Channel([], false, [])]);
      watchers := watchers[path := ListOf(View(), path) + [w]];
    }

    /** The inner loop of both removals: find the identifier, close its channel, cut it out of the list. */
    method Cut(path: string, id: nat)
      requires path in watchers
      modifies this
      ensures var l := Remove(Line(old(watchers)[path], old(channels)), id);
              watchers == old(watchers)[path := l.list] && channels == l.channels
    {
      var list := watchers[path];
      for i := 0 to |list|
        invariant unchanged(this)
        invariant forall k :: 0 <= k < i ==> list[k].id != id
      {
        if list[i].id == id {
          RemoveIdAt(list, id, i);
          channels := Close(channels, id);
          watchers := watchers[path := list[..i] + list[i + 1..]];
          return;
        }
      }
    }

    method Unwatch(id: nat, path: string)
      modifies this
      ensures View() == Unwatched(old(View()), id, path)
    {
      if path !in watchers {
        return;
      }
      Cut(path, id);
      if |watchers[path]| == 0 {
        watchers := watchers - {path};
        assert watchers == old(watchers) - {path};
      }
    }

    /** The first loop: send, mark, and collect what is to be removed. */
    method Deliver(e: Event) returns (toRemove: seq<nat>)
      requires e.path in watchers
      modifies this
      ensures toRemove == Firing(old(watchers)[e.path])
      ensures watchers == old(watchers)[e.path := Marked(old(watchers)[e.path])]
      ensures channels == SendAll(old(channels), old(watchers)[e.path], e)
    {
      var list := watchers[e.path];
      var marked := [];
      toRemove := [];
      for i := 0 to |list|
        invariant watchers == old(watchers) && marked == Marked(list)[..i]
        invariant channels == SendAll(old(channels), list[..i], e)
        invariant toRemove == Firing(list[..i])
      {
        assert list[..i + 1][..i] == list[..i] && list[..i + 1][i] == list[i];
        channels := Send(channels, list[i].id, e);
        marked := marked + [Mark(list[i])];
        if !list[i].persistent && !list[i].triggered {
          toRemove := toRemove + [list[i].id];
        }
      }
      assert list[..|list|] == list && Marked(list)[..|list|] == Marked(list);
      watchers := watchers[e.path := marked];
    }

    method TriggerEvent(e: Event)
      modifies this
      ensures View() == Triggered(old(View()), e)
    {
      if e.path !in watchers {
        return;
      }
      var toRemove := Deliver(e);
      ghost var line := Line(watchers[e.path], channels);
      for k := 0 to |toRemove|
        invariant e.path in watchers
        invariant var l := RemoveEach(line, toRemove[..k]);
                  watchers == old(watchers)[e.path := l.list] && channels == l.channels
      {
        assert toRemove[..k + 1][..k] == toRemove[..k];
        Cut(e.path, toRemove[k]);
      }
      assert toRemove[..|toRemove|] == toRemove;
      if |watchers[e.path]| == 0 {
        watchers := watchers - {e.path};
        assert watchers == old(watchers) - {e.path};
      }
    }
  }

  lemma {:induction false} RemoveIdAt(list: seq<Watcher>, id: nat, i: nat)
    requires i < |list| && list[i].id == id && forall k :: 0 <= k < i ==> list[k].id != id
    ensures RemoveId(list, id) == list[..i] + list[i + 1..]
  {
    if i > 0 {
      RemoveIdAt(list[1..], id, i - 1);
      assert list[..i] == [list[0]] + list[1..][..i - 1] && list[1..][i..] == list[i + 1..];
    }
  }
}

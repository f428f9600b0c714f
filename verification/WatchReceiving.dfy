/** What clients receive: the events of their channels, first in, first out, over every run. */
module WatchReceiving {
  import opened Watch
  import opened WatchDelivery

  /** What a client takes out of its channel, in order, over a run. */
  function Taken(h: Hub, ops: seq<Op>, id: nat): seq<Event>
    decreases |ops|
  {
    if ops == [] then [] else
      (if ops[0] == Receive(id) && id in h.channels.all && h.channels.all[id].buffer != []
       then [h.channels.all[id].buffer[0]] else [])
      + Taken(Next(h, ops[0]), ops[1..], id)
  }

  /** The events in a channel are the last ones it has accepted, and no more than fit. */
  ghost predicate BufferOk(c: Channel) {
    |c.buffer| <= CAPACITY && |c.buffer| <= |c.sent| && c.buffer == c.sent[|c.sent| - |c.buffer|..]
  }

  ghost predicate BuffersOk(h: Hub) {
    forall id :: id in h.channels.all ==> BufferOk(h.channels.all[id])
  }

  /** What has been taken out of a channel is what it has accepted but for what is still in it. */
  function Out(h: Hub, id: nat): seq<Event> {
    if id in h.channels.all && |h.channels.all[id].buffer| <= |h.channels.all[id].sent|
    then h.channels.all[id].sent[..|h.channels.all[id].sent| - |h.channels.all[id].buffer|] else []
  }

  lemma OutAfterAccept(c: Channel, e: Event)
    requires BufferOk(c)
    ensures BufferOk(Accept(c, e))
    ensures Accept(c, e).sent[..|Accept(c, e).sent| - |Accept(c, e).buffer|] == c.sent[..|c.sent| - |c.buffer|]
  {
  }

  lemma TakenOne(h: Hub, op: Op, id: nat)
    ensures Taken(h, [op], id) ==
            if op == Receive(id) && id in h.channels.all && h.channels.all[id].buffer != []
            then [h.channels.all[id].buffer[0]] else []
  {
    assert [op][1..] == [];
  }

  /** An operation other than receiving takes nothing out of a channel, and receiving takes its first event. */
  lemma OutStep(h: Hub, op: Op, id: nat)
    requires Inv(h) && BuffersOk(h)
    ensures BuffersOk(Next(h, op))
    ensures Out(Next(h, op), id) == Out(h, id) + Taken(h, [op], id)
  {
    hide Inv, BuffersOk, Out, Taken, Triggered, Unwatched, Watched, Received;
    TakenOne(h, op, id);
    match op
    case Trigger(e) => TriggerOut(h, e, id);
    case Unregister(k, p) => UnwatchOut(h, k, p, id);
    case Receive(k) => ReceiveOut(h, k, id);
    case Register(k, p, persistent) =>
      if k !in h.channels.all {
        WatchOut(h, k, p, persistent, id);
      }
  }

  lemma ReceiveOut(h: Hub, k: nat, id: nat)
    requires BuffersOk(h)
    ensures BuffersOk(Received(h, k))
    ensures Out(Received(h, k), id) == Out(h, id) +
              (if k == id && id in h.channels.all && h.channels.all[id].buffer != []
               then [h.channels.all[id].buffer[0]] else [])
  {
    var d := Received(h, k);
    forall j | j in d.channels.all ensures BufferOk(d.channels.all[j]) {
      assert BufferOk(h.channels.all[j]);
    }
  }

  lemma WatchOut(h: Hub, k: nat, p: string, persistent: bool, id: nat)
    requires BuffersOk(h) && k !in h.channels.all
    ensures BuffersOk(Watched(h, k, p, persistent)) && Out(Watched(h, k, p, persistent), id) == Out(h, id)
  {
  }

  lemma FiredOut(c: Channel, w: Watcher, e: Event)
    requires BufferOk(c)
    ensures var d := Fired(c, w, e);
            BufferOk(d) && d.sent[..|d.sent| - |d.buffer|] == c.sent[..|c.sent| - |c.buffer|]
  {
    OutAfterAccept(c, e);
  }

  lemma TriggerOut(h: Hub, e: Event, id: nat)
    requires Inv(h) && BuffersOk(h)
    ensures BuffersOk(Triggered(h, e)) && Out(Triggered(h, e), id) == Out(h, id)
  {
    hide Inv, Triggered, Persistent, Accept, Fired, BufferOk;
    TriggerEffect(h, e);
    var d, list := Triggered(h, e), ListOf(h, e.path);
    forall k | k in d.channels.all ensures BufferOk(d.channels.all[k]) && Out(d, k) == Out(h, k) {
      var c := h.channels.all[k];
      BufferLength(c);
      if HasId(list, k) {
        var i :| 0 <= i < |list| && list[i].id == k;
        FiredOut(c, list[i], e);
        assert d.channels.all[list[i].id] == Fired(c, list[i], e);
        BufferLength(d.channels.all[k]);
      }
    }
  }

  lemma BufferLength(c: Channel)
    requires BufferOk(c)
    ensures |c.buffer| <= |c.sent|
  {
  }

  lemma UnwatchOut(h: Hub, k: nat, p: string, id: nat)
    requires Inv(h) && BuffersOk(h)
    ensures BuffersOk(Unwatched(h, k, p)) && Out(Unwatched(h, k, p), id) == Out(h, id)
  {
    hide Inv, Remove, HasId;
    if p in h.watchers {
      InvLine(h, p);
      RemoveEffect(h.channels, h.watchers[p], p, k);
      SameBuffers(h, Unwatched(h, k, p), id);
    }
  }

  lemma SameBuffers(h: Hub, d: Hub, id: nat)
    requires BuffersOk(h) && d.channels.all.Keys == h.channels.all.Keys
    requires forall k :: k in h.channels.all ==>
               d.channels.all[k] == h.channels.all[k].(closed := d.channels.all[k].closed)
    ensures BuffersOk(d) && Out(d, id) == Out(h, id)
  {
    forall k | k in d.channels.all ensures BufferOk(d.channels.all[k]) {
      assert BufferOk(h.channels.all[k]);
    }
  }

  lemma InvLine(h: Hub, p: string)
    requires Inv(h) && p in h.watchers
    ensures ListOk(h.channels, h.watchers[p], p) && !h.channels.panicked
  {
  }

  lemma TakenStep(h: Hub, ops: seq<Op>, id: nat)
    requires ops != []
    ensures Taken(h, ops, id) == Taken(h, [ops[0]], id) + Taken(Next(h, ops[0]), ops[1..], id)
  {
    assert [ops[0]][1..] == [];
  }

  /** First in, first out: over every run, what a client has taken out of its channel, and then what is still in it, are
      the events the channel has accepted, in the order in which it accepted them. */
  lemma {:induction false} ReceivedInOrder(h: Hub, ops: seq<Op>, id: nat)
    requires Inv(h) && BuffersOk(h)
    ensures BuffersOk(Exec(h, ops)) && Out(Exec(h, ops), id) == Out(h, id) + Taken(h, ops, id)
    decreases |ops|
  {
    hide Next, Inv, BuffersOk, Out, Taken;
    if ops == [] {
      NothingTaken(h, id);
    } else {
      NextKeepsInv(h, ops[0]);
      OutStep(h, ops[0], id);
      ReceivedInOrder(Next(h, ops[0]), ops[1..], id);
      TakenStep(h, ops, id);
    }
  }

  lemma NothingTaken(h: Hub, id: nat)
    ensures Taken(h, [], id) == []
  {
  }

  /** From the start: what was taken out followed by what is left is what was sent. */
  lemma ClientGetsWhatWasSent(ops: seq<Op>, id: nat)
    requires id in Exec(START, ops).channels.all
    ensures var c := Exec(START, ops).channels.all[id];
            Taken(START, ops, id) + c.buffer == c.sent && |c.buffer| <= CAPACITY
  {
    hide Exec, Taken;
    var h := Exec(START, ops);
    StartIsOk(id);
    ReceivedInOrder(START, ops, id);
    assert BufferOk(h.channels.all[id]);
    assert Out(h, id) + h.channels.all[id].buffer == h.channels.all[id].sent;
  }

  lemma StartIsOk(id: nat)
    ensures Inv(START) && BuffersOk(START) && Out(START, id) == []
  {
  }
}

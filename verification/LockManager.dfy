/** The lock manager (internal/lock/manager.go): a lock is a directory of ephemeral sequential nodes, and the holder is
    the one whose name sorts first. The value functions say what each atomic piece of an operation does; the class
    `Manager` runs the pieces in place. A wait channel is named by a number. */
module LockManager {
  import opened Sequences
  import opened Decimal
  import opened Store
  import opened StoreTree

  const LOCKS := "locks"
  const TICKET := "lock-"

  function LockDir(name: string): Path {
    [LOCKS, name]
  }

  function TicketName(k: nat): string {
    TICKET + Format(k)
  }

  function TicketPath(name: string, k: nat): (p: Path)
    ensures |p| == 3
  {
    [LOCKS, name, TicketName(k)]
  }

  datatype Lock = Lock(name: string, owner: string, session: string, path: Path, sequence: nat)

  datatype Option<T> = None | Some(value: T)
  datatype LockError = NotHeld | Timeout | FromStore(error: Error)
  datatype Outcome<T> = Done(value: T) | Failed(error: LockError)

  /** The directory of the lock, made when it is missing; that making it may fail goes unnoticed. */
  function DirEnsured(t: Tree, name: string): Tree {
    if LockDir(name) in t.nodes then t else Created(t, LockDir(name), "", false, "", false).0
  }

  /** A place in the queue: an ephemeral sequential node that carries the owner. */
  function Queued(t: Tree, name: string, owner: string, session: string): (Tree, Result<Path>) {
    Created(t, LockDir(name) + [TICKET], owner, true, session, true)
  }

  /** GetChildren sorts, and the caller sorts once more. */
  function FirstName(names: seq<string>): string
    requires names != []
  {
    SortedNamesContents(names);
    assert |multiset(SortedNames(names))| == |multiset(names)|;
    SortedNamesFirst(SortedNames(names));
    SortedNames(SortedNames(names))[0]
  }

  /** Whether a node is the first in the queue of its lock. */
  function Checked(t: Tree, name: string, path: Path): Result<bool>
    requires path != ROOT
  {
    if LockDir(name) !in t.nodes then Err(NodeNotFound)
    else if t.nodes[LockDir(name)].children == [] then Ok(false)
    else Ok(FirstName(t.nodes[LockDir(name)].children) == Base(path))
  }

  /** The owner recorded in the first node of the queue, and nobody when the queue is empty. */
  function Holder(t: Tree, name: string): Result<string> {
    if LockDir(name) !in t.nodes then Err(NodeNotFound)
    else if t.nodes[LockDir(name)].children == [] then Ok("")
    else
      var path := LockDir(name) + [FirstName(t.nodes[LockDir(name)].children)];
      if path in t.nodes then Ok(t.nodes[path].data) else Err(NodeNotFound)
  }

  /** TryLock with a negative timeout, undisturbed: the store, the table of locks and the outcome. */
  function Tried(t: Tree, locks: map<Path, Lock>, name: string, owner: string, session: string)
    : (Tree, map<Path, Lock>, Outcome<Lock>)
  {
    var (u, queued) := Queued(DirEnsured(t, name), name, owner, session);
    match queued
    case Err(e) => (u, locks, Failed(FromStore(e)))
    case Ok(_) =>
      var path := TicketPath(name, u.counter);
      match Checked(u, name, path)
      case Err(e) => (Deleted(u, path, -1).0, locks, Failed(FromStore(e)))
      case Ok(first) =>
        var lock := Lock(name, owner, session, path, u.counter);
        if first then (u, locks[path := lock], Done(lock)) else (Deleted(u, path, -1).0, locks, Failed(Timeout))
  }

  lemma TicketPathInjective(a: string, i: nat, b: string, j: nat)
    ensures TicketPath(a, i) == TicketPath(b, j) <==> a == b && i == j
  {
    if TicketPath(a, i) == TicketPath(b, j) {
      assert TicketPath(a, i)[1] == a && TicketPath(b, j)[1] == b;
      assert TicketPath(a, i)[2] == TicketName(i) && TicketPath(b, j)[2] == TicketName(j);
      assert TicketName(i)[|TICKET|..] == Format(i) && TicketName(j)[|TICKET|..] == Format(j);
      FormatInjective(i, j);
    }
  }

  /** A queued request is the node of the next sequence number. */
  lemma QueuedPath(t: Tree, name: string, owner: string, session: string)
    ensures ActualPath(t, LockDir(name) + [TICKET], true) == TicketPath(name, t.counter + 1)
    ensures var queued := Queued(t, name, owner, session).1;
            queued.Ok? ==> queued.value == TicketPath(name, t.counter + 1)
  {
    var p := LockDir(name) + [TICKET];
    assert Parent(p) == LockDir(name) && Base(p) == TICKET;
  }

  lemma QueuedError(t: Tree, name: string, owner: string, session: string)
    ensures Queued(t, name, owner, session).1.Err? ==> Queued(t, name, owner, session).0.nodes == t.nodes
    ensures Queued(t, name, owner, session).1.Ok? ==>
              TicketPath(name, t.counter + 1) in Queued(t, name, owner, session).0.nodes
                && Queued(t, name, owner, session).0.counter == t.counter + 1
  {
    hide ActualPath;
    QueuedPath(t, name, owner, session);
  }

  /** Nothing sorts before the first name. */
  lemma FirstNameIsFirst(names: seq<string>)
    requires names != []
    ensures FirstName(names) in names
    ensures forall x :: x in names ==> !Less(x, FirstName(names))
  {
    SortedNamesContents(names);
    assert |multiset(SortedNames(names))| == |multiset(names)|;
    SortedNamesFirst(SortedNames(names));
    forall x ensures x in names <==> x in SortedNames(names) {
      assert x in names <==> x in multiset(names);
      assert x in SortedNames(names) <==> x in multiset(SortedNames(names));
    }
  }

  /** Giving up a place in the queue undoes taking it: all nodes are as before, only the counter has moved on. */
  lemma WithdrawalRestores(t: Tree, name: string, owner: string, session: string)
    requires TreeOk(t) && Queued(t, name, owner, session).1.Ok?
    ensures var (u, queued) := Queued(t, name, owner, session);
            var (v, deleted) := Deleted(u, queued.value, -1);
            TreeOk(u) && TreeOk(v) && deleted.Ok? && v == Tree(t.nodes, t.counter + 1)
  {
    hide TreeOk, Deleted, Created;
    var asked := LockDir(name) + [TICKET];
    var u := Queued(t, name, owner, session).0;
    QueuedPath(t, name, owner, session);
    QueuedError(t, name, owner, session);
    CreateKeepsTree(t, asked, owner, true, session, true);
    DeleteUndoesCreate(t, asked, owner, true, session, true, -1);
    DeleteKeepsTree(u, TicketPath(name, t.counter + 1), -1);
  }

  /** A place in the queue is a leaf in a directory that is not empty, and deleting it removes just that leaf. */
  lemma QueuedShape(t: Tree, name: string, owner: string, session: string)
    requires Queued(t, name, owner, session).1.Ok?
    ensures var (u, queued) := Queued(t, name, owner, session);
            var p := queued.value;
            && p != ROOT && Parent(p) == LockDir(name)
            && LockDir(name) in u.nodes && u.nodes[LockDir(name)].children != []
            && Deleted(u, p, -1).1.Ok? && Deleted(u, p, -1).0.nodes.Keys == t.nodes.Keys
  {
    hide TicketName, Format, Removed;
    QueuedPath(t, name, owner, session);
    CreatedShape(t, LockDir(name) + [TICKET], owner, true, session, true);
    assert Parent(LockDir(name) + [TICKET]) == LockDir(name);
  }

  /** In a tree, queueing keeps the tree, and so does withdrawing, which restores it. */
  lemma TryLockKeepsTree(t: Tree, name: string, owner: string, session: string)
    requires TreeOk(t)
    ensures var u := DirEnsured(t, name);
            var (v, queued) := Queued(u, name, owner, session);
            && TreeOk(v)
            && (queued.Ok? ==> var w := Deleted(v, queued.value, -1).0; TreeOk(w) && w.nodes == u.nodes)
  {
    hide TreeOk, Queued, DirEnsured, Deleted;
    var u := DirEnsured(t, name);
    DirEnsuredIsTree(t, name);
    QueuedError(u, name, owner, session);
    if Queued(u, name, owner, session).1.Ok? {
      WithdrawalRestores(u, name, owner, session);
    } else {
      SameNodesKeepTree(u, Queued(u, name, owner, session).0);
    }
  }

  lemma DirEnsuredIsTree(t: Tree, name: string)
    requires TreeOk(t)
    ensures TreeOk(DirEnsured(t, name))
  {
    hide TreeOk;
    CreateKeepsTree(t, LockDir(name), "", false, "", false);
  }

  // Reading the sequence number back.

  /** The parts of a text between its dashes. */
  function DashParts(s: string): (parts: seq<string>)
    ensures parts != []
  {
    if s == "" then [""]
    else
      var rest := DashParts(s[1..]);
      if s[0] == '-' then [""] + rest else [[s[0]] + rest[0]] + rest[1..]
  }

  lemma {:induction false} NoDashes(s: string)
    requires '-' !in s
    ensures DashParts(s) == [s]
  {
    if s != "" {
      NoDashes(s[1..]);
      assert s == [s[0]] + s[1..];
    }
  }

  lemma {:induction false} FirstDash(a: string, b: string)
    requires '-' !in a
    ensures DashParts(a + ['-'] + b) == [a] + DashParts(b)
  {
    var s := a + ['-'] + b;
    if a == "" {
      assert s[1..] == b;
    } else {
      FirstDash(a[1..], b);
      assert s[1..] == a[1..] + ['-'] + b;
      assert a == [a[0]] + a[1..];
    }
  }

  /** The name of a queue node falls into two parts at its dash, the second being its digits. */
  lemma TicketParts(k: nat)
    ensures DashParts(TicketName(k)) == ["lock", Format(k)]
    ensures Digits(Format(k)) && Parse(Format(k)) == k
  {
    FormatParses(k);
    var digits := Format(k);
    assert '-' !in digits;
    NoDashes(digits);
    assert TicketName(k) == "lock" + ['-'] + digits;
    FirstDash("lock", digits);
  }

  function WaitersOf(waiters: map<string, seq<nat>>, name: string): seq<nat> {
    if name in waiters then waiters[name] else []
  }

  function WaiterAdded(waiters: map<string, seq<nat>>, name: string, w: nat): map<string, seq<nat>> {
    waiters[name := WaitersOf(waiters, name) + [w]]
  }

  function WaiterRemoved(waiters: map<string, seq<nat>>, name: string, w: nat): map<string, seq<nat>> {
    if w in WaitersOf(waiters, name) then waiters[name := Removed(WaitersOf(waiters, name), w)] else waiters
  }

  class Manager {
    const store: Store
    var locks: map<Path, Lock>
    var waiters: map<string, seq<nat>>

    constructor (store: Store)
      ensures this.store == store && locks == map[] && waiters == map[]
    {
      this.store := store;
      locks, waiters := map[], map[];
    }

    /** The first part of TryLock: directory, queue node, and the sequence number read back from its name. */
    method Enqueue(name: string, owner: string, session: string) returns (r: Result<Lock>)
      modifies store
      ensures var (t, queued) := Queued(DirEnsured(old(store.View()), name), name, owner, session);
              && store.View() == t
              && r == match queued
                      case Err(e) => Err(e)
                      case Ok(path) => Ok(Lock(name, owner, session, path, t.counter))
    {
      if LockDir(name) !in store.nodes {
        var _ := store.Create(LockDir(name), "", false, "", false);
      }
      ghost var before := store.View();
      var queued := store.Create(LockDir(name) + [TICKET], owner, true, session, true);
      QueuedPath(before, name, owner, session);
      match queued {
        case Err(e) => r := Err(e);
        case Ok(path) =>
          var k := before.counter + 1;
          assert path == TicketPath(name, store.seqCounter) && store.seqCounter == k;
          TicketParts(k);
          var parts := DashParts(Base(path));
          var sequence := 0;
          if |parts| == 2 {
            sequence := ParseLoop(parts[1]);
          }
          r := Ok(Lock(name, owner, session, path, sequence));
      }
    }

    method CheckLockAcquired(name: string, path: Path) returns (r: Result<bool>)
      requires path != ROOT
      ensures r == Checked(store.View(), name, path)
    {
      var got := store.GetChildren(LockDir(name));
      match got {
        case Err(e) => r := Err(e);
        case Ok(children) =>
          SortedNamesContents(store.nodes[LockDir(name)].children);
          assert |multiset(children)| == |multiset(store.nodes[LockDir(name)].children)|;
          if |children| == 0 {
            return Ok(false);
          }
          SortedNamesFirst(children);
          r := Ok(SortedNames(children)[0] == Base(path));
      }
    }

    method Record(lock: Lock)
      modifies this`locks
      ensures locks == old(locks)[lock.path := lock]
    {
      locks := locks[lock.path := lock];
    }

    /** TryLock with a negative timeout, undisturbed: it takes the lock if its node comes first, and otherwise leaves
        the store as it was but for the directory of the lock and the counter. */
    method TryLockNow(name: string, owner: string, session: string) returns (r: Outcome<Lock>)
      modifies this`locks, store
      ensures (store.View(), locks, r) == Tried(old(store.View()), old(locks), name, owner, session)
      ensures old(TreeOk(store.View())) ==> TreeOk(store.View())
      ensures r.Done? ==>
                && r.value == Lock(name, owner, session, TicketPath(name, store.seqCounter), store.seqCounter)
                && locks == old(locks)[r.value.path := r.value]
                && Checked(store.View(), name, r.value.path) == Ok(true)
                && store.View() == Queued(DirEnsured(old(store.View()), name), name, owner, session).0
      ensures r.Failed? ==> locks == old(locks) && store.nodes.Keys == DirEnsured(old(store.View()), name).nodes.Keys
      ensures r.Failed? && old(TreeOk(store.View())) ==> store.nodes == DirEnsured(old(store.View()), name).nodes
      ensures r == Failed(Timeout) ==>
                var (t, queued) := Queued(DirEnsured(old(store.View()), name), name, owner, session);
                queued.Ok? && Checked(t, name, queued.value) == Ok(false)
    {
      hide TreeOk, Queued, DirEnsured, Created, Removed, TicketName;
      ghost var t := DirEnsured(store.View(), name);
      QueuedPath(t, name, owner, session);
      QueuedError(t, name, owner, session);
      if TreeOk(store.View()) {
        TryLockKeepsTree(store.View(), name, owner, session);
      }
      var queued := Enqueue(name, owner, session);
      if queued.Err? {
        return Failed(FromStore(queued.error));
      }
      var lock := queued.value;
      QueuedShape(t, name, owner, session);
      var first := CheckLockAcquired(name, lock.path);
      if first == Ok(true) {
        Record(lock);
        return Done(lock);
      }
      // the check cannot fail here: the directory holds the node just created
      var _ := store.Delete(lock.path, -1);
      return Failed(Timeout);
    }

    method AddWaiter(name: string, w: nat)
      modifies this`waiters
      ensures waiters == WaiterAdded(old(waiters), name, w)
    {
      waiters := waiters[name := WaitersOf(waiters, name) + [w]];
    }

    /** The deferred removal of a waiter. */
    method RemoveWaiter(name: string, w: nat)
      modifies this`waiters
      ensures waiters == WaiterRemoved(old(waiters), name, w)
    {
      var list := WaitersOf(waiters, name);
      for i := 0 to |list|
        invariant waiters == old(waiters)
        invariant forall k :: 0 <= k < i ==> list[k] != w
      {
        if list[i] == w {
          RemovedAt(list, w, i);
          waiters := waiters[name := list[..i] + list[i + 1..]];
          return;
        }
      }
    }

    /** waitForLock when its time is up before any signal: the wait channel is registered, the node deleted, and the
        channel taken out again, so that every list of channels is as before. */
    method WaitInVain(name: string, path: Path, w: nat) returns (r: Outcome<Lock>)
      requires path != ROOT && path in store.nodes ==> Parent(path) in store.nodes
      requires w !in WaitersOf(waiters, name)
      modifies this`waiters, store
      ensures r == Failed(Timeout) && store.View() == Deleted(old(store.View()), path, -1).0
      ensures forall other :: WaitersOf(waiters, other) == WaitersOf(old(waiters), other)
    {
      RemovedLast(WaitersOf(waiters, name), w);
      AddWaiter(name, w);
      var _ := store.Delete(path, -1);
      RemoveWaiter(name, w);
      return Failed(Timeout);
    }

    /** An empty path is refused; otherwise the record goes first and the node after it. */
    method Unlock(path: Option<Path>) returns (r: Outcome<Path>)
      requires path.Some? && path.value != ROOT && path.value in store.nodes ==> Parent(path.value) in store.nodes
      modifies this`locks, store
      ensures path.None? ==> r == Failed(NotHeld) && locks == old(locks) && store.View() == old(store.View())
      ensures path.Some? ==>
                var (t, deleted) := Deleted(old(store.View()), path.value, -1);
                && locks == old(locks) - {path.value} && store.View() == t && (old(TreeOk(store.View())) ==> TreeOk(t))
                && r == match deleted case Ok(p) => Done(p) case Err(e) => Failed(FromStore(e))
    {
      if path.None? {
        return Failed(NotHeld);
      }
      locks := locks - {path.value};
      if TreeOk(store.View()) {
        DeleteKeepsTree(store.View(), path.value, -1);
      }
      var deleted := store.Delete(path.value, -1);
      match deleted {
        case Ok(p) => r := Done(p);
        case Err(e) => r := Failed(FromStore(e));
      }
    }

    method GetLockHolder(name: string) returns (r: Result<string>)
      ensures r == Holder(store.View(), name)
    {
      var got := store.GetChildren(LockDir(name));
      match got {
        case Err(e) => r := Err(e);
        case Ok(children) =>
          SortedNamesContents(store.nodes[LockDir(name)].children);
          assert |multiset(children)| == |multiset(store.nodes[LockDir(name)].children)|;
          if |children| == 0 {
            return Ok("");
          }
          SortedNamesFirst(children);
          var path := LockDir(name) + [SortedNames(children)[0]];
          r := if path in store.nodes then Ok(store.nodes[path].data) else Err(NodeNotFound);
      }
    }
  }
}

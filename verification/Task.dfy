/** The lease registry of internal/task/task.go. */
module Tasks {
  import opened Base

  datatype Status = Available | Owned | Completed

  /** `leaseUntil` is Go's time value, absent when it is the zero time. */
  datatype Task = Task(id: string, tags: seq<string>, hint: Bytes, status: Status, owner: string,
                       leaseUntil: Option<nat>)

  datatype TaskError = NotFound | NotAvailable | NotOwner | AlreadyExists

  /** What the ownership-lost and availability handlers are called with. */
  datatype Event =
    | Lost(taskId: string, ownerId: string, reason: string)
    | Opened(taskId: string, tags: seq<string>, hint: Bytes, reason: string)

  type Table = map<string, Task>

  // Thirty seconds, in nanoseconds.
  const DEFAULT_LEASE: nat := 30_000_000_000

  // ---------------------------------------------------------------------------
  // Specification functions
  // ---------------------------------------------------------------------------

  function Freed(t: Task): Task {
    t.(status := Available, owner := "", leaseUntil := None)
  }

  function Granted(t: Task, owner: string, until: nat): Task {
    t.(status := Owned, owner := owner, leaseUntil := Some(until))
  }

  function Finished(t: Task): Task {
    t.(status := Completed, owner := "", leaseUntil := None)
  }

  function LeaseEnd(now: nat, duration: int): nat {
    now + if duration <= 0 then DEFAULT_LEASE else duration
  }

  predicate Lapsed(t: Task, now: nat) {
    t.status == Owned && t.leaseUntil.Some? && now > t.leaseUntil.value
  }

  predicate OwnedBy(t: Task, owner: string) {
    t.status == Owned && t.owner == owner
  }

  /** The first lock section of `Acquire`: refuse, grant at once, or free a lapsed lease and
      leave the grant to a second section. */
  datatype Entry = Refuse(error: TaskError) | GrantNow | Reopen(formerOwner: string)

  function Enter(tab: Table, id: string, now: nat): Entry {
    if id !in tab then Refuse(NotFound)
    else if tab[id].status != Owned then GrantNow
    else if Lapsed(tab[id], now) then Reopen(tab[id].owner)
    else Refuse(NotAvailable)
  }

  function OpenedEvent(t: Task, reason: string): Event {
    Opened(t.id, t.tags, t.hint, reason)
  }

  /** Whether `Release` and `MarkCompleted` refuse: they compare the owner field only. */
  function OwnerCheck(tab: Table, id: string, owner: string): Option<TaskError> {
    if id !in tab then Some(NotFound)
    else if tab[id].owner != owner then Some(NotOwner)
    else None
  }

  function ReleasedBy(tab: Table, owner: string): Table {
    map id | id in tab :: if OwnedBy(tab[id], owner) then Freed(tab[id]) else tab[id]
  }

  function SweptAt(tab: Table, now: nat): Table {
    map id | id in tab :: if Lapsed(tab[id], now) then Freed(tab[id]) else tab[id]
  }

  /** For each former task in turn: available again, then lost by `owner`. */
  function DisconnectEvents(released: seq<Task>, owner: string): seq<Event> {
    if released == [] then []
    else
      var t := released[|released| - 1];
      DisconnectEvents(released[..|released| - 1], owner)
        + [OpenedEvent(t, "disconnected"), Lost(t.id, owner, "disconnected")]
  }

  /** For each former task in turn: lost by its owner, then available again. */
  function SweepEvents(expired: seq<Task>): seq<Event> {
    if expired == [] then []
    else
      var t := expired[|expired| - 1];
      SweepEvents(expired[..|expired| - 1]) + [Lost(t.id, t.owner, "lease_expired"), OpenedEvent(t, "lease_expired")]
  }

  /** `ts` lists each of the table's tasks owned by `owner` once. */
  ghost predicate ListsOwned(ts: seq<Task>, tab: Table, owner: string) {
    NoDuplicates(ts) && forall t :: t in ts <==> t.id in tab && tab[t.id] == t && OwnedBy(t, owner)
  }

  /** `ts` lists each of the table's lapsed tasks once. */
  ghost predicate ListsLapsed(ts: seq<Task>, tab: Table, now: nat) {
    NoDuplicates(ts) && forall t :: t in ts <==> t.id in tab && tab[t.id] == t && Lapsed(t, now)
  }

  predicate TagsMeet(tags: seq<string>, filter: seq<string>) {
    exists i :: 0 <= i < |tags| && tags[i] in filter
  }

  predicate Offered(t: Task, filter: seq<string>) {
    t.status == Available && (filter == [] || TagsMeet(t.tags, filter))
  }

  /** A task is owned exactly when it has an owner, and exactly when it has a lease. */
  ghost predicate Agrees(t: Task) {
    (t.status == Owned <==> t.owner != "") && (t.status == Owned <==> t.leaseUntil.Some?)
  }

  ghost predicate Consistent(tab: Table) {
    forall id :: id in tab ==> tab[id].id == id && Agrees(tab[id])
  }

  /** Whatever one operation puts in the table, the table stays consistent. */
  lemma ConsistentUpdate(tab: Table, t: Task, owner: string, until: nat)
    requires Consistent(tab)
    ensures Agrees(t) ==> Consistent(tab[t.id := t])
    ensures Consistent(tab[t.id := Freed(t)]) && Consistent(tab[t.id := Finished(t)])
    ensures owner != "" ==> Consistent(tab[t.id := Granted(t, owner, until)])
  {
  }

  lemma ConsistentBulk(tab: Table, owner: string, now: nat)
    requires Consistent(tab)
    ensures Consistent(ReleasedBy(tab, owner)) && Consistent(SweptAt(tab, now))
  {
  }

  // ---------------------------------------------------------------------------
  // Lock sections
  // ---------------------------------------------------------------------------

  /** One lock section of the registry; `Acquire` has two. */
  datatype Section =
    | Add(id: string, tags: seq<string>, hint: Bytes)
    | Begin(id: string, owner: string, duration: int, now: nat, later: nat)
    | Resume(id: string, owner: string, duration: int, later: nat)
    | Release(id: string, owner: string)
    | ReleaseAll(owner: string)
    | Complete(id: string, owner: string)
    | Sweep(now: nat)

  /** The table after a section; a refused one leaves it alone. */
  function After(tab: Table, sec: Section): Table {
    match sec
    case Add(id, tags, hint) => if id in tab then tab else tab[id := Task(id, tags, hint, Available, "", None)]
    case Begin(id, owner, duration, now, later) =>
      (match Enter(tab, id, now)
       case Refuse(_) => tab
       case GrantNow => tab[id := Granted(tab[id], owner, LeaseEnd(later, duration))]
       case Reopen(_) => tab[id := Freed(tab[id])])
    case Resume(id, owner, duration, later) =>
      if id in tab then tab[id := Granted(tab[id], owner, LeaseEnd(later, duration))] else tab
    case Release(id, owner) => if OwnerCheck(tab, id, owner).None? then tab[id := Freed(tab[id])] else tab
    case ReleaseAll(owner) => ReleasedBy(tab, owner)
    case Complete(id, owner) => if OwnerCheck(tab, id, owner).None? then tab[id := Finished(tab[id])] else tab
    case Sweep(now) => SweptAt(tab, now)
  }

  /** The events a section fires once the lock is dropped; bulk sections met the tasks in the order `freed`. */
  function Fired(tab: Table, sec: Section, freed: seq<Task>): seq<Event> {
    match sec
    case Add(id, tags, hint) => if id in tab then [] else [Opened(id, tags, hint, "registered")]
    case Begin(id, _, _, now, _) =>
      (match Enter(tab, id, now)
       case Reopen(former) => [Lost(id, former, "lease_expired"),
                               Opened(id, tab[id].tags, tab[id].hint, "lease_expired")]
       case _ => [])
    case Release(id, owner) =>
      if OwnerCheck(tab, id, owner).None? then [Opened(id, tab[id].tags, tab[id].hint, "released")] else []
    case ReleaseAll(owner) => DisconnectEvents(freed, owner)
    case Sweep(_) => SweepEvents(freed)
    case _ => []
  }

  /** Session ids, and so owners, are never empty. */
  predicate Named(sec: Section) {
    match sec
    case Begin(_, owner, _, _, _) => owner != ""
    case Resume(_, owner, _, _) => owner != ""
    case Release(_, owner) => owner != ""
    case ReleaseAll(owner) => owner != ""
    case Complete(_, owner) => owner != ""
    case _ => true
  }

  /** Every section keeps the table consistent, and no task is dropped or retagged. */
  lemma SectionKeeps(tab: Table, sec: Section)
    requires Consistent(tab) && Named(sec)
    ensures Consistent(After(tab, sec)) && tab.Keys <= After(tab, sec).Keys
    ensures forall id :: id in tab ==> After(tab, sec)[id].tags == tab[id].tags
  {
    hide Lapsed, LeaseEnd, Agrees;
    match sec
    case Add(id, tags, hint) => ConsistentUpdate(tab, Task(id, tags, hint, Available, "", None), "", 0);
    case Begin(id, owner, duration, _, later) =>
      if id in tab { ConsistentUpdate(tab, tab[id], owner, LeaseEnd(later, duration)); }
    case Resume(id, owner, duration, later) =>
      if id in tab { ConsistentUpdate(tab, tab[id], owner, LeaseEnd(later, duration)); }
    case Release(id, _) =>
      if id in tab { ConsistentUpdate(tab, tab[id], "", 0); }
    case ReleaseAll(owner) => ConsistentBulk(tab, owner, 0);
    case Complete(id, _) =>
      if id in tab { ConsistentUpdate(tab, tab[id], "", 0); }
    case Sweep(now) => ConsistentBulk(tab, "", now);
  }

  // ---------------------------------------------------------------------------
  // The registry
  // ---------------------------------------------------------------------------

  /** For each task in turn: available again, then lost by `owner`. */
  ghost predicate ReportsReleased(events: seq<Event>, released: seq<Task>, owner: string) {
    && |events| == 2 * |released|
    && forall i :: 0 <= i < |released| ==>
         var t := released[i];
         && events[2 * i] == Opened(t.id, t.tags, t.hint, "disconnected")
         && events[2 * i + 1] == Lost(t.id, owner, "disconnected")
  }

  /** For each task in turn: lost by its owner, then available again. */
  ghost predicate ReportsExpired(events: seq<Event>, expired: seq<Task>) {
    && |events| == 2 * |expired|
    && forall i :: 0 <= i < |expired| ==>
         var t := expired[i];
         && events[2 * i] == Lost(t.id, t.owner, "lease_expired")
         && events[2 * i + 1] == Opened(t.id, t.tags, t.hint, "lease_expired")
  }

  /** The second loop of `ReleaseAll`, after unlocking. */
  method ReportReleased(released: seq<Task>, owner: string) returns (events: seq<Event>)
    ensures events == DisconnectEvents(released, owner) && ReportsReleased(events, released, owner)
  {
    events := [];
    for i := 0 to |released|
      invariant |events| == 2 * i
      invariant forall j :: 0 <= j < i ==>
                  var t := released[j];
                  && events[2 * j] == Opened(t.id, t.tags, t.hint, "disconnected")
                  && events[2 * j + 1] == Lost(t.id, owner, "disconnected")
      invariant events == DisconnectEvents(released[..i], owner)
    {
      assert released[..i + 1][..i] == released[..i];
      var t := released[i];
      events := events + [Opened(t.id, t.tags, t.hint, "disconnected"), Lost(t.id, owner, "disconnected")];
    }
    assert released[..|released|] == released;
  }

  /** The second loop of `evictExpired`, after unlocking. */
  method ReportExpired(expired: seq<Task>) returns (events: seq<Event>)
    ensures events == SweepEvents(expired) && ReportsExpired(events, expired)
  {
    events := [];
    for i := 0 to |expired|
      invariant |events| == 2 * i
      invariant forall j :: 0 <= j < i ==>
                  var t := expired[j];
                  && events[2 * j] == Lost(t.id, t.owner, "lease_expired")
                  && events[2 * j + 1] == Opened(t.id, t.tags, t.hint, "lease_expired")
      invariant events == SweepEvents(expired[..i])
    {
      assert expired[..i + 1][..i] == expired[..i];
      var t := expired[i];
      events := events + [Lost(t.id, t.owner, "lease_expired"), Opened(t.id, t.tags, t.hint, "lease_expired")];
    }
    assert expired[..|expired|] == expired;
  }

  lemma LapsedMeans(t: Task, now: nat)
    ensures Lapsed(t, now) <==> t.status == Owned && t.leaseUntil.Some? && now > t.leaseUntil.value
  {
  }

  /** The task is on offer again, with the tags and hint it had. */
  predicate Vacant(tab: Table, id: string, t: Task) {
    id in tab && tab[id] == Task(t.id, t.tags, t.hint, Available, "", None)
  }

  /** The task is the owner's, for thirty seconds from `later` on unless another duration is asked for. */
  predicate Leased(tab: Table, id: string, t: Task, owner: string, duration: int, later: nat) {
    var until: nat := later + if duration > 0 then duration else 30_000_000_000;
    id in tab && tab[id] == Task(t.id, t.tags, t.hint, Owned, owner, Some(until))
  }

  lemma ReleasedMeans(tab: Table, owner: string)
    ensures forall id :: id in tab ==>
              if tab[id].status == Owned && tab[id].owner == owner then Vacant(ReleasedBy(tab, owner), id, tab[id])
              else ReleasedBy(tab, owner)[id] == tab[id]
  {
  }

  lemma SweptMeans(tab: Table, now: nat)
    ensures forall id :: id in tab ==>
              var t := tab[id];
              var lapsed := t.status == Owned && t.leaseUntil.Some? && now > t.leaseUntil.value;
              if lapsed then Vacant(SweptAt(tab, now), id, t) else SweptAt(tab, now)[id] == t
  {
  }

  predicate Others(tab: Table, was: Table, id: string) {
    tab.Keys <= was.Keys + {id} && forall k :: k in was && k != id ==> k in tab && tab[k] == was[k]
  }

  datatype AcquireResult = Acquired(task: Task) | Failed(error: TaskError) | Pending

  /** Handlers run outside the lock, so each method returns the events it fires and its caller
      hands them to the handlers. `Acquire` is two methods, one per lock section. */
  class Registry {
    var tasks: Table

    constructor ()
      ensures tasks == map[]
    {
      tasks := map[];
    }

    method Register(id: string, tags: seq<string>, hint: Bytes) returns (error: Option<TaskError>, events: seq<Event>)
      modifies this
      ensures tasks == After(old(tasks), Add(id, tags, hint)) && events == Fired(old(tasks), Add(id, tags, hint), [])
      ensures error == if id in old(tasks) then Some(AlreadyExists) else None
      ensures error.Some? ==> tasks == old(tasks) && events == []
      ensures error.None? ==> tasks == old(tasks)[id := Task(id, tags, hint, Available, "", None)]
      ensures error.None? ==> events == [Opened(id, tags, hint, "registered")]
    {
      if id in tasks {
        return Some(AlreadyExists), [];
      }
      tasks := tasks[id := Task(id, tags, hint, Available, "", None)];
      return None, [Opened(id, tags, hint, "registered")];
    }

    method Get(id: string) returns (r: Option<Task>)
      ensures r == if id in tasks then Some(tasks[id]) else None
    {
      if id in tasks {
        return Some(tasks[id]);
      }
      return None;
    }

    /** The listing holds exactly the tasks on offer, each once, in some order. */
    method ListAvailable(filter: seq<string>) returns (out: seq<Task>)
      requires Consistent(tasks)
      ensures NoDuplicates(out)
      ensures forall t :: t in out <==>
                && t.id in tasks && tasks[t.id] == t && t.status == Available
                && (filter == [] || exists i :: 0 <= i < |t.tags| && t.tags[i] in filter)
    {
      out := [];
      var todo := tasks.Keys;
      while todo != {}
        invariant todo <= tasks.Keys
        invariant NoDuplicates(out)
        invariant forall t :: t in out <==> t.id in tasks && t.id !in todo && tasks[t.id] == t && Offered(t, filter)
        decreases todo
      {
        var id :| id in todo;
        todo := todo - {id};
        if Offered(tasks[id], filter) {
          out := out + [tasks[id]];
        }
      }
    }

    method AcquireBegin(id: string, owner: string, duration: int, now: nat, later: nat)
      returns (r: AcquireResult, events: seq<Event>)
      modifies this
      ensures tasks == After(old(tasks), Begin(id, owner, duration, now, later))
      ensures events == Fired(old(tasks), Begin(id, owner, duration, now, later), [])
      ensures id !in old(tasks) ==> r == Failed(NotFound)
      ensures id in old(tasks) ==>
                var t := old(tasks)[id];
                var held := t.status == Owned && (t.leaseUntil.None? || now <= t.leaseUntil.value);
                && (held ==> r == Failed(NotAvailable) && tasks == old(tasks))
                && (t.status != Owned ==> r == Acquired(tasks[id]) && Leased(tasks, id, t, owner, duration, later))
                && (!held && t.status == Owned ==> r == Pending && Vacant(tasks, id, t))
      ensures Others(tasks, old(tasks), id)
      ensures match Enter(old(tasks), id, now)
              case Refuse(e) => r == Failed(e) && tasks == old(tasks) && events == []
              case GrantNow =>
                && tasks == old(tasks)[id := Granted(old(tasks)[id], owner, LeaseEnd(later, duration))]
                && r == Acquired(tasks[id]) && events == []
              case Reopen(former) =>
                && r == Pending && tasks == old(tasks)[id := Freed(old(tasks)[id])]
                && events == [Lost(id, former, "lease_expired"),
                              Opened(id, old(tasks)[id].tags, old(tasks)[id].hint, "lease_expired")]
    {
      if id !in tasks {
        return Failed(NotFound), [];
      }
      var t := tasks[id];
      if t.status == Owned {
        if t.leaseUntil.Some? && now > t.leaseUntil.value {
          tasks := tasks[id := Freed(t)];
          return Pending, [Lost(id, t.owner, "lease_expired"), Opened(id, t.tags, t.hint, "lease_expired")];
        }
        return Failed(NotAvailable), [];
      }
      tasks := tasks[id := Granted(t, owner, LeaseEnd(later, duration))];
      return Acquired(tasks[id]), [];
    }

    /** The second lock section looks the task up again but not at its status. */
    method AcquireResume(id: string, owner: string, duration: int, later: nat) returns (r: AcquireResult)
      modifies this
      ensures tasks == After(old(tasks), Resume(id, owner, duration, later)) && Others(tasks, old(tasks), id)
      ensures id in old(tasks) ==> Leased(tasks, id, old(tasks)[id], owner, duration, later)
      ensures id !in old(tasks) ==> r == Failed(NotFound) && tasks == old(tasks)
      ensures id in old(tasks) ==> id in tasks && r == Acquired(tasks[id])
      ensures id in old(tasks) ==>
                tasks == old(tasks)[id := Granted(old(tasks)[id], owner, LeaseEnd(later, duration))]
    {
      if id !in tasks {
        return Failed(NotFound);
      }
      tasks := tasks[id := Granted(tasks[id], owner, LeaseEnd(later, duration))];
      return Acquired(tasks[id]);
    }

    method Release(id: string, owner: string) returns (error: Option<TaskError>, events: seq<Event>)
      modifies this
      ensures tasks == After(old(tasks), Section.Release(id, owner)) && Others(tasks, old(tasks), id)
      ensures events == Fired(old(tasks), Section.Release(id, owner), [])
      ensures id !in old(tasks) ==> error == Some(NotFound)
      ensures id in old(tasks) && old(tasks)[id].owner != owner ==> error == Some(NotOwner)
      ensures id in old(tasks) && old(tasks)[id].owner == owner ==> error == None && Vacant(tasks, id, old(tasks)[id])
      ensures error == OwnerCheck(old(tasks), id, owner)
      ensures error.Some? ==> tasks == old(tasks) && events == []
      ensures error.None? ==> tasks == old(tasks)[id := Freed(old(tasks)[id])]
      ensures error.None? ==> events == [Opened(id, old(tasks)[id].tags, old(tasks)[id].hint, "released")]
    {
      if id !in tasks {
        return Some(NotFound), [];
      }
      var t := tasks[id];
      if t.owner != owner {
        return Some(NotOwner), [];
      }
      tasks := tasks[id := Freed(t)];
      return None, [Opened(id, t.tags, t.hint, "released")];
    }

    /** Bulk release is exact: it frees precisely the tasks owned by `owner`, and reports each of
        them once. */
    method ReleaseAll(owner: string) returns (released: seq<Task>, events: seq<Event>)
      requires Consistent(tasks)
      modifies this
      ensures tasks == ReleasedBy(old(tasks), owner) && tasks.Keys == old(tasks).Keys
      ensures forall id :: id in tasks ==>
                var t := old(tasks)[id];
                if t.status == Owned && t.owner == owner then Vacant(tasks, id, t) else tasks[id] == t
      ensures ListsOwned(released, old(tasks), owner)
      ensures events == DisconnectEvents(released, owner)
      ensures events == Fired(old(tasks), Section.ReleaseAll(owner), released)
      ensures ReportsReleased(events, released, owner)
    {
      hide Agrees, Vacant, ReportsReleased, OwnedBy, ReleasedBy;
      released := FreeOwned(owner);
      ReleasedMeans(old(tasks), owner);
      events := ReportReleased(released, owner);
    }

    /** The loop under the lock. */
    method FreeOwned(owner: string) returns (released: seq<Task>)
      requires Consistent(tasks)
      modifies this
      ensures tasks == ReleasedBy(old(tasks), owner) && tasks.Keys == old(tasks).Keys
      ensures ListsOwned(released, old(tasks), owner)
    {
      hide Agrees;
      released := [];
      var todo := tasks.Keys;
      while todo != {}
        invariant todo <= tasks.Keys == old(tasks).Keys
        invariant NoDuplicates(released)
        invariant forall t :: t in released <==>
                    t.id in old(tasks) && t.id !in todo && old(tasks)[t.id] == t && OwnedBy(t, owner)
        invariant forall id :: id in tasks ==>
          tasks[id] == if id !in todo && OwnedBy(old(tasks)[id], owner) then Freed(old(tasks)[id]) else old(tasks)[id]
        decreases todo
      {
        var id :| id in todo;
        todo := todo - {id};
        var t := tasks[id];
        if t.status == Owned && t.owner == owner {
          released := released + [t];
          tasks := tasks[id := Freed(t)];
        }
      }
    }

    method MarkCompleted(id: string, owner: string) returns (error: Option<TaskError>)
      modifies this
      ensures id !in old(tasks) ==> error == Some(NotFound)
      ensures id in old(tasks) && old(tasks)[id].owner != owner ==> error == Some(NotOwner)
      ensures error.Some? ==> tasks == old(tasks)
      ensures id in old(tasks) && old(tasks)[id].owner == owner ==>
                var t := old(tasks)[id];
                error == None && tasks == old(tasks)[id := Task(t.id, t.tags, t.hint, Completed, "", None)]
      ensures tasks == After(old(tasks), Complete(id, owner))
    {
      if id !in tasks {
        return Some(NotFound);
      }
      if tasks[id].owner != owner {
        return Some(NotOwner);
      }
      tasks := tasks[id := Finished(tasks[id])];
      return None;
    }

    /** The sweep is exact too. `now` was read before the lock was taken. */
    method EvictExpired(now: nat) returns (expired: seq<Task>, events: seq<Event>)
      requires Consistent(tasks)
      modifies this
      ensures tasks == SweptAt(old(tasks), now) && tasks.Keys == old(tasks).Keys
      ensures forall id :: id in tasks ==>
                var t := old(tasks)[id];
                if t.status == Owned && t.leaseUntil.Some? && now > t.leaseUntil.value then Vacant(tasks, id, t)
                else tasks[id] == t
      ensures ListsLapsed(expired, old(tasks), now)
      ensures events == SweepEvents(expired) && events == Fired(old(tasks), Section.Sweep(now), expired)
      ensures ReportsExpired(events, expired)
    {
      hide Agrees, Lapsed, Vacant, ReportsExpired, SweptAt;
      expired := FreeLapsed(now);
      SweptMeans(old(tasks), now);
      events := ReportExpired(expired);
    }

    /** The loop under the lock. */
    method FreeLapsed(now: nat) returns (expired: seq<Task>)
      requires Consistent(tasks)
      modifies this
      ensures tasks == SweptAt(old(tasks), now) && tasks.Keys == old(tasks).Keys
      ensures ListsLapsed(expired, old(tasks), now)
    {
      hide Agrees, Lapsed;
      expired := [];
      var todo := tasks.Keys;
      while todo != {}
        invariant todo <= tasks.Keys == old(tasks).Keys
        invariant NoDuplicates(expired)
        invariant forall t :: t in expired <==>
                    t.id in old(tasks) && t.id !in todo && old(tasks)[t.id] == t && Lapsed(t, now)
        invariant forall id :: id in tasks ==>
          tasks[id] == if id !in todo && Lapsed(old(tasks)[id], now) then Freed(old(tasks)[id]) else old(tasks)[id]
        decreases todo
      {
        var id :| id in todo;
        todo := todo - {id};
        var t := tasks[id];
        LapsedMeans(t, now);
        if t.status == Owned && t.leaseUntil.Some? && now > t.leaseUntil.value {
          expired := expired + [t];
          tasks := tasks[id := Freed(t)];
        }
      }
    }
  }
}

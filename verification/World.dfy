/** The versioned object store of internal/world/world.go. */
module Worlds {
  import opened Base

  /** `data`, `tags` and `meta` are nil-able slices, so absence and emptiness differ. */
  datatype Object = Object(id: string, data: Option<Bytes>, version: nat, tags: Option<seq<string>>,
                           meta: Option<Bytes>)

  /** `expectedVersion == 0` asks for no optimistic check. */
  datatype UpdateRequest = UpdateRequest(
    objectId: string, data: Option<Bytes>, expectedVersion: nat, tags: Option<seq<string>>, meta: Option<Bytes>)

  datatype ApplyError = ObjectNotFound | VersionConflict

  datatype ApplyResult = Applied(obj: Object) | Refused(error: ApplyError)

  datatype ChangeKind = Created | Updated | Deleted

  datatype ChangeEvent = ChangeEvent(kind: ChangeKind, obj: Object, prevVersion: nat)

  type Objects = map<string, Object>

  // ---------------------------------------------------------------------------
  // Specification functions
  // ---------------------------------------------------------------------------

  /** The stored version of `id`, 0 when there is no such object. */
  function Version(objs: Objects, id: string): nat {
    if id in objs then objs[id].version else 0
  }

  function Inherit<T>(given: Option<T>, previous: Option<T>): Option<T> {
    if given.None? then previous else given
  }

  /** What `Apply` answers to a request in a given store. */
  function Outcome(objs: Objects, req: UpdateRequest): ApplyResult {
    var id := req.objectId;
    if req.expectedVersion > 0 && id !in objs then Refused(ObjectNotFound)
    else if req.expectedVersion > 0 && objs[id].version != req.expectedVersion then Refused(VersionConflict)
    else if id in objs then
      var was := objs[id];
      Applied(Object(id, Inherit(req.data, was.data), was.version + 1, Inherit(req.tags, was.tags),
                     Inherit(req.meta, was.meta)))
    else Applied(Object(id, req.data, 1, req.tags, req.meta))
  }

  function ApplyTo(objs: Objects, req: UpdateRequest): Objects {
    match Outcome(objs, req)
    case Applied(o) => objs[req.objectId := o]
    case Refused(_) => objs
  }

  /** The change events handed to the handlers by one `Apply`. */
  function ApplyEvents(objs: Objects, req: UpdateRequest): seq<ChangeEvent> {
    match Outcome(objs, req)
    case Applied(o) =>
      [ChangeEvent(if req.objectId in objs then Updated else Created, o, Version(objs, req.objectId))]
    case Refused(_) => []
  }

  /** Every object sits under its own id and has been applied at least once. */
  ghost predicate WellKeyed(objs: Objects) {
    forall id :: id in objs ==> objs[id].id == id && objs[id].version >= 1
  }

  predicate TagsIntersect(tags: seq<string>, filter: seq<string>) {
    exists i :: 0 <= i < |tags| && tags[i] in filter
  }

  function TagSeq(tags: Option<seq<string>>): seq<string> {
    if tags.Some? then tags.value else []
  }

  /** The filter of `List`: an empty filter selects everything. */
  predicate Listed(o: Object, filter: seq<string>) {
    filter == [] || TagsIntersect(TagSeq(o.tags), filter)
  }

  // ---------------------------------------------------------------------------
  // The store itself
  // ---------------------------------------------------------------------------

  /** `Apply` and `Delete` return, besides their result, the events they hand to the
      registered handlers after unlocking; whoever owns the store runs the handlers. */
  class World {
    var objects: Objects

    constructor ()
      ensures objects == map[]
    {
      objects := map[];
    }

    method Get(id: string) returns (r: Option<Object>)
      ensures r == if id in objects then Some(objects[id]) else None
    {
      if id in objects {
        return Some(objects[id]);
      }
      return None;
    }

    /** The listing holds exactly the selected objects, each once, in some order. */
    method List(filter: seq<string>) returns (out: seq<Object>)
      requires WellKeyed(objects)
      ensures NoDuplicates(out)
      ensures forall o :: o in out <==> o.id in objects && objects[o.id] == o && Listed(o, filter)
      ensures forall o :: o in out <==>
                && o.id in objects && objects[o.id] == o
                && (filter == [] || (o.tags.Some? && exists i :: 0 <= i < |o.tags.value| && o.tags.value[i] in filter))
    {
      out := [];
      var todo := objects.Keys;
      while todo != {}
        invariant todo <= objects.Keys
        invariant NoDuplicates(out)
        invariant forall o :: o in out <==> o.id in objects && o.id !in todo && objects[o.id] == o && Listed(o, filter)
        decreases todo
      {
        var id :| id in todo;
        todo := todo - {id};
        if Listed(objects[id], filter) {
          out := out + [objects[id]];
        }
      }
    }

    method Apply(req: UpdateRequest) returns (r: ApplyResult, fired: seq<ChangeEvent>)
      modifies this
      ensures r == Outcome(old(objects), req)
      ensures objects == ApplyTo(old(objects), req)
      ensures fired == ApplyEvents(old(objects), req)
      ensures var id, was := req.objectId, old(objects);
              if req.expectedVersion > 0 && id !in was then
                r == Refused(ObjectNotFound) && objects == was && fired == []
              else if req.expectedVersion > 0 && was[id].version != req.expectedVersion then
                r == Refused(VersionConflict) && objects == was && fired == []
              else
                r.Applied? && objects == was[id := r.obj] && r.obj.id == id
                && if id in was then
                     && r.obj.version == was[id].version + 1
                     && r.obj.data == (if req.data.Some? then req.data else was[id].data)
                     && r.obj.tags == (if req.tags.Some? then req.tags else was[id].tags)
                     && r.obj.meta == (if req.meta.Some? then req.meta else was[id].meta)
                     && fired == [ChangeEvent(Updated, r.obj, was[id].version)]
                   else
                     && r.obj == Object(id, req.data, 1, req.tags, req.meta)
                     && fired == [ChangeEvent(Created, r.obj, 0)]
    {
      var present := req.objectId in objects;
      if req.expectedVersion > 0 {
        if !present {
          return Refused(ObjectNotFound), [];
        }
        if objects[req.objectId].version != req.expectedVersion {
          return Refused(VersionConflict), [];
        }
      }
      var prevVersion, nextVersion, kind := 0, 1, Created;
      var data, tags, meta := req.data, req.tags, req.meta;
      if present {
        var existing := objects[req.objectId];
        prevVersion, nextVersion, kind := existing.version, existing.version + 1, Updated;
        if tags.None? { tags := existing.tags; }
        if data.None? { data := existing.data; }
        if meta.None? { meta := existing.meta; }
      }
      var updated := Object(req.objectId, data, nextVersion, tags, meta);
      objects := objects[req.objectId := updated];
      return Applied(updated), [ChangeEvent(kind, updated, prevVersion)];
    }

    method Delete(id: string) returns (ok: bool, fired: seq<ChangeEvent>)
      modifies this
      ensures ok == (id in old(objects))
      ensures objects == old(objects) - {id}
      ensures fired == if ok then [ChangeEvent(Deleted, old(objects)[id], old(objects)[id].version)] else []
    {
      if id !in objects {
        assert objects - {id} == objects;
        return false, [];
      }
      var existing := objects[id];
      objects := objects - {id};
      return true, [ChangeEvent(Deleted, existing, existing.version)];
    }
  }

  // ---------------------------------------------------------------------------
  // Runs of the store refine a history of accepted requests
  // ---------------------------------------------------------------------------

  datatype Op = Update(req: UpdateRequest) | Remove(id: string)

  function Do(objs: Objects, op: Op): Objects {
    match op
    case Update(req) => ApplyTo(objs, req)
    case Remove(id) => objs - {id}
  }

  /** The store after a whole run, started empty. */
  function StoreAfter(ops: seq<Op>): Objects {
    if ops == [] then map[]
    else Do(StoreAfter(ops[..|ops| - 1]), ops[|ops| - 1])
  }

  /** The requests accepted for `id` since it was last deleted, oldest first. */
  function Accepted(ops: seq<Op>, id: string): seq<UpdateRequest> {
    if ops == [] then []
    else
      var before := Accepted(ops[..|ops| - 1], id);
      match ops[|ops| - 1]
      case Update(req) =>
        if req.objectId == id && Outcome(StoreAfter(ops[..|ops| - 1]), req).Applied? then before + [req] else before
      case Remove(gone) => if gone == id then [] else before
  }

  /** The last present value of each field in a list of requests. */
  function LastData(reqs: seq<UpdateRequest>): Option<Bytes> {
    if reqs == [] then None else Inherit(reqs[|reqs| - 1].data, LastData(reqs[..|reqs| - 1]))
  }

  function LastTags(reqs: seq<UpdateRequest>): Option<seq<string>> {
    if reqs == [] then None else Inherit(reqs[|reqs| - 1].tags, LastTags(reqs[..|reqs| - 1]))
  }

  function LastMeta(reqs: seq<UpdateRequest>): Option<Bytes> {
    if reqs == [] then None else Inherit(reqs[|reqs| - 1].meta, LastMeta(reqs[..|reqs| - 1]))
  }

  /** The object that a history of accepted requests stands for. */
  function Rebuilt(id: string, reqs: seq<UpdateRequest>): Object {
    Object(id, LastData(reqs), |reqs|, LastTags(reqs), LastMeta(reqs))
  }

  lemma RebuiltSnoc(id: string, reqs: seq<UpdateRequest>, req: UpdateRequest)
    ensures Rebuilt(id, reqs + [req])
         == Object(id, Inherit(req.data, LastData(reqs)), |reqs| + 1, Inherit(req.tags, LastTags(reqs)),
                   Inherit(req.meta, LastMeta(reqs)))
  {
    var all := reqs + [req];
    assert all[..|all| - 1] == reqs && all[|all| - 1] == req;
  }

  /** `objs` is what the accepted requests `reqs` for `id` stand for. */
  ghost predicate Reflects(objs: Objects, id: string, reqs: seq<UpdateRequest>) {
    if reqs == [] then id !in objs else id in objs && objs[id] == Rebuilt(id, reqs)
  }

  lemma ReflectsStep(objs: Objects, id: string, reqs: seq<UpdateRequest>, req: UpdateRequest)
    requires Reflects(objs, id, reqs) && req.objectId == id && Outcome(objs, req).Applied?
    ensures Reflects(ApplyTo(objs, req), id, reqs + [req])
  {
    RebuiltSnoc(id, reqs, req);
  }

  /** Apply refines a history: after any run an object exists exactly when it has accepted
      requests since its last deletion, its version counts them, and each field is the last
      present value among them. */
  lemma {:induction false} StoreIsHistory(ops: seq<Op>, id: string)
    ensures Reflects(StoreAfter(ops), id, Accepted(ops, id))
  {
    if ops != [] {
      var prefix, op := ops[..|ops| - 1], ops[|ops| - 1];
      StoreIsHistory(prefix, id);
      if op.Update? && op.req.objectId == id && Outcome(StoreAfter(prefix), op.req).Applied? {
        ReflectsStep(StoreAfter(prefix), id, Accepted(prefix, id), op.req);
      }
    }
  }

  lemma WellKeyedAfter(ops: seq<Op>)
    ensures WellKeyed(StoreAfter(ops))
  {
    forall id | id in StoreAfter(ops)
      ensures StoreAfter(ops)[id].id == id && StoreAfter(ops)[id].version >= 1
    {
      StoreIsHistory(ops, id);
    }
  }

  /** No lost update: the i-th accepted request that carries an expected version was accepted
      on exactly the version its predecessor produced, so no two accepted requests were
      computed from the same version; and the creating request carries none. */
  lemma {:induction false} NoLostUpdate(ops: seq<Op>, id: string)
    ensures forall i :: 0 <= i < |Accepted(ops, id)| ==>
      Accepted(ops, id)[i].expectedVersion == 0 || (i > 0 && Accepted(ops, id)[i].expectedVersion == i)
  {
    if ops != [] {
      var prefix, op := ops[..|ops| - 1], ops[|ops| - 1];
      NoLostUpdate(prefix, id);
      StoreIsHistory(prefix, id);
    }
  }

  // ---------------------------------------------------------------------------
  // Order-insensitive replay of change events
  // ---------------------------------------------------------------------------

  /** All the events fired over a run, in the order the store changed. */
  function Fired(ops: seq<Op>): seq<ChangeEvent> {
    if ops == [] then []
    else
      var prefix := ops[..|ops| - 1];
      Fired(prefix) +
      match ops[|ops| - 1]
      case Update(req) => ApplyEvents(StoreAfter(prefix), req)
      case Remove(id) =>
        if id in StoreAfter(prefix) then [ChangeEvent(Deleted, StoreAfter(prefix)[id], StoreAfter(prefix)[id].version)]
             else []
  }

  /** A consumer that keeps, per object, the event with the highest version. */
  function Replay(events: seq<ChangeEvent>): Objects {
    if events == [] then map[]
    else
      var rest, o := Replay(events[..|events| - 1]), events[|events| - 1].obj;
      if Version(rest, o.id) < o.version then rest[o.id := o] else rest
  }

  /** What the replay holds: for each id one of its events, of the highest version. */
  ghost predicate Highest(objs: Objects, events: seq<ChangeEvent>) {
    && (forall id :: id in objs ==> objs[id].id == id && exists e :: e in events && e.obj == objs[id])
    && (forall e :: e in events ==> e.obj.id in objs && e.obj.version <= objs[e.obj.id].version)
  }

  lemma {:induction false} ReplayIsHighest(events: seq<ChangeEvent>)
    requires forall e :: e in events ==> e.obj.version >= 1
    ensures Highest(Replay(events), events)
  {
    if events != [] {
      var prefix, e := events[..|events| - 1], events[|events| - 1];
      assert events == prefix + [e];
      ReplayIsHighest(prefix);
      var rest, objs := Replay(prefix), Replay(events);
      forall id | id in objs
        ensures objs[id].id == id && exists f :: f in events && f.obj == objs[id]
      {
        if id in rest && objs[id] == rest[id] {
          var f :| f in prefix && f.obj == rest[id];
          assert f in events;
        } else {
          assert e in events && e.obj == objs[id];
        }
      }
    }
  }

  /** Each event is a version of its object, the store holds the highest of them, and a
      version names one content only. */
  ghost predicate Chronicle(objs: Objects, events: seq<ChangeEvent>) {
    && (forall i :: 0 <= i < |events| ==> events[i].obj.version >= 1)
    && Highest(objs, events)
    && (forall i, j | 0 <= i < |events| && 0 <= j < |events| ::
          events[i].obj.id == events[j].obj.id && events[i].obj.version == events[j].obj.version ==>
            events[i].obj == events[j].obj)
  }

  lemma ChronicleStep(objs: Objects, events: seq<ChangeEvent>, req: UpdateRequest)
    requires Chronicle(objs, events) && Outcome(objs, req).Applied?
    ensures Chronicle(ApplyTo(objs, req), events + ApplyEvents(objs, req))
  {
    var objs' := ApplyTo(objs, req);
    var e := ApplyEvents(objs, req)[0];
    var events' := events + [e];
    assert events' == events + ApplyEvents(objs, req);
    assert e in events' && e.obj == objs'[req.objectId];
    forall i | 0 <= i < |events|
      ensures events[i].obj.id == e.obj.id ==> events[i].obj.version < e.obj.version
    {
      assert events[i] in events;
    }
    forall id | id in objs'
      ensures objs'[id].id == id && exists f :: f in events' && f.obj == objs'[id]
    {
      if id != req.objectId {
        var f :| f in events && f.obj == objs[id];
        assert f in events';
      }
    }
  }

  lemma {:induction false} FiredIsChronicle(ops: seq<Op>)
    requires forall i :: 0 <= i < |ops| ==> ops[i].Update?
    ensures Chronicle(StoreAfter(ops), Fired(ops))
  {
    if ops != [] {
      var prefix, op := ops[..|ops| - 1], ops[|ops| - 1];
      FiredIsChronicle(prefix);
      if Outcome(StoreAfter(prefix), op.req).Applied? {
        ChronicleStep(StoreAfter(prefix), Fired(prefix), op.req);
      } else {
        assert Fired(ops) == Fired(prefix);
      }
    }
  }

  lemma HighestIsUnique(objs: Objects, built: Objects, events: seq<ChangeEvent>, arrived: seq<ChangeEvent>)
    requires Chronicle(objs, events) && Highest(built, arrived)
    requires forall e :: e in events <==> e in arrived
    ensures built == objs
  {
    forall id
      ensures id in objs <==> id in built
      ensures id in objs && id in built ==> objs[id] == built[id]
    {
      if id in objs {
        var e :| e in events && e.obj == objs[id];
        assert e in arrived;
      }
      if id in built {
        var f :| f in arrived && f.obj == built[id];
        assert f in events;
      }
      if id in objs && id in built {
        var e :| e in events && e.obj == objs[id];
        var f :| f in arrived && f.obj == built[id];
        assert e in arrived && f in events;
        assert e.obj.version == f.obj.version;
      }
    }
  }

  /** Events are fired after the lock is dropped and so may arrive in any order. Whatever the
      order, once all have arrived, keeping the highest version per object rebuilds the store. */
  lemma {:induction false} ReplayRebuildsStore(ops: seq<Op>, arrived: seq<ChangeEvent>)
    requires forall i :: 0 <= i < |ops| ==> ops[i].Update?
    requires multiset(arrived) == multiset(Fired(ops))
    ensures Replay(arrived) == StoreAfter(ops)
  {
    FiredIsChronicle(ops);
    forall e
      ensures e in Fired(ops) <==> e in arrived
    {
      assert e in arrived <==> e in multiset(arrived);
      assert e in Fired(ops) <==> e in multiset(Fired(ops));
    }
    ReplayIsHighest(arrived);
    HighestIsUnique(StoreAfter(ops), Replay(arrived), Fired(ops), arrived);
  }
}

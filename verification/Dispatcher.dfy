/** The message handlers of internal/dispatcher/dispatcher.go, and the closures with which
    cmd/server/main.go joins registry, counters and sessions. */
module Dispatch {
  import opened Base
  import opened Protocol
  import opened Sessions
  import G = Merge
  import S = ServerSteps
  import T = Tasks
  import M = Metrics

  datatype Request =
    | Acquire(taskId: string)
    | Release(taskId: string)
    | Submit(taskId: string, data: Option<Bytes>, meta: Option<Bytes>)
    | Subscribe(tags: seq<string>)
    | Unsubscribe(tags: seq<string>)
    | Ping
    | BadPayload
    | UnknownType

  class Server {
    const manager: Manager
    const registry: T.Registry
    const coord: G.Coordinator
    const metrics: M.Recorder

    constructor (manager: Manager, registry: T.Registry, coord: G.Coordinator, metrics: M.Recorder)
      requires manager.Valid()
      ensures Valid()
      ensures this.manager == manager && this.registry == registry && this.coord == coord && this.metrics == metrics
    {
      this.manager, this.registry, this.coord, this.metrics := manager, registry, coord, metrics;
    }

    ghost predicate Valid()
      reads manager, manager.sessions.Values
    {
      manager.Valid()
    }

    ghost function View(): S.Server
      reads registry, metrics, manager, manager.sessions.Values
    {
      S.Server(registry.tasks, metrics.View(), manager.States())
    }

    // -------------------------------------------------------------------------
    // The registered handlers
    // -------------------------------------------------------------------------

    method OnOwnershipLost(e: T.Event)
      requires Valid() && e.Lost?
      modifies metrics, manager.sessions.Values
      ensures Valid() && View() == S.AfterEvent(metrics.enabled, old(View()), e)
      ensures metrics.enabled ==> M.Grows(old(metrics.View()), metrics.View(), e.taskId, 0, 0, 0, 1, 0)
      ensures OnlyTells(old(manager.States()), manager.States(), e.ownerId, OwnershipLost(e.taskId, e.reason))
    {
      hide M.Record, M.Grows, M.Stands, OnlyTells, SentTo;
      metrics.TaskEvicted(e.taskId, e.ownerId);
      manager.SendTo(e.ownerId, OwnershipLost(e.taskId, e.reason));
    }

    method OnAvailable(e: T.Event)
      requires Valid() && e.Opened?
      modifies metrics, manager.sessions.Values
      ensures Valid() && View() == S.AfterEvent(metrics.enabled, old(View()), e)
      ensures metrics.enabled ==> M.Grows(old(metrics.View()), metrics.View(), e.taskId, 0, 0, 0, 0, 0)
      ensures metrics.enabled && e.reason == "registered" ==> e.taskId in metrics.tasks
      ensures TellsAll(old(manager.States()), manager.States(), e.tags, TaskAvailable(e.taskId, e.tags, e.hint))
    {
      hide M.Stands, TellsAll, BroadcastTo;
      if e.reason == "registered" {
        metrics.TaskRegistered(e.taskId);
      }
      manager.Broadcast(e.tags, TaskAvailable(e.taskId, e.tags, e.hint));
    }

    method Fire(es: seq<T.Event>)
      requires Valid()
      modifies metrics, manager.sessions.Values
      ensures Valid() && View() == S.AfterEvents(metrics.enabled, old(View()), es)
      ensures TellsEvents(old(manager.States()), manager.States(), es)
    {
      for i := 0 to |es|
        invariant Valid() && View() == S.AfterEvents(metrics.enabled, old(View()), es[..i])
      {
        assert es[..i + 1][..i] == es[..i];
        if es[i].Lost? {
          OnOwnershipLost(es[i]);
        } else {
          OnAvailable(es[i]);
        }
      }
      assert es[..|es|] == es;
      ghost var was := old(manager.States());
      forall sid | sid in was && HasRoom(was[sid], |es|)
        ensures Grew(was[sid], manager.sessions[sid].State(), S.Notices(es, sid, was[sid].tags))
      {
        S.EventsTell(metrics.enabled, old(View()), es, sid);
        assert manager.sessions[sid].State() == View().sessions[sid];
      }
    }

    method OnConnect(sid: string)
      requires Valid()
      modifies metrics
      ensures Valid() && View() == old(View()).(stats := M.Note(metrics.enabled, old(View()).stats, M.Connected(sid)))
      ensures metrics.enabled ==> sid in metrics.sessions && metrics.tasks == old(metrics.tasks)
    {
      metrics.SessionConnected(sid);
    }

    method OnDisconnect(sid: string)
      requires Valid() && T.Consistent(registry.tasks)
      modifies registry, metrics, manager.sessions.Values
      ensures Valid() && registry.tasks.Keys == old(registry.tasks).Keys
      ensures forall id :: id in registry.tasks ==>
                var t := old(registry.tasks)[id];
                var mine := t.status == T.Owned && t.owner == sid;
                if mine then T.Vacant(registry.tasks, id, t) else registry.tasks[id] == t
      ensures metrics.enabled ==> sid !in metrics.sessions
      ensures exists released :: T.ListsOwned(released, old(registry.tasks), sid)
                && View() == S.Disconnect(metrics.enabled, old(View()), sid, released)
                && TellsEvents(old(manager.States()), manager.States(), T.DisconnectEvents(released, sid))
    {
      hide TellsEvents, M.Record, S.AfterEvents, T.DisconnectEvents, T.ReleasedBy, T.ListsOwned;
      var released, events := registry.ReleaseAll(sid);
      Fire(events);
      S.EventsKeepTasks(metrics.enabled, old(View()).(tasks := registry.tasks), events);
      metrics.SessionDisconnected(sid);
      assert View() == S.Disconnect(metrics.enabled, old(View()), sid, released);
    }

    /** One tick of the lease watcher. */
    method EvictExpired(now: nat)
      requires Valid() && T.Consistent(registry.tasks)
      modifies registry, metrics, manager.sessions.Values
      ensures Valid() && registry.tasks.Keys == old(registry.tasks).Keys
      ensures forall id :: id in registry.tasks ==>
                var t := old(registry.tasks)[id];
                var lapsed := t.status == T.Owned && t.leaseUntil.Some? && now > t.leaseUntil.value;
                if lapsed then T.Vacant(registry.tasks, id, t) else registry.tasks[id] == t
      ensures exists expired :: T.ListsLapsed(expired, old(registry.tasks), now)
                && View() == S.Sweep(metrics.enabled, old(View()), now, expired)
                && TellsEvents(old(manager.States()), manager.States(), T.SweepEvents(expired))
    {
      hide TellsEvents;
      var expired, events := registry.EvictExpired(now);
      Fire(events);
      assert View() == S.Sweep(metrics.enabled, old(View()), now, expired);
    }

    method Register(id: string, tags: seq<string>, hint: Bytes) returns (error: Option<T.TaskError>)
      requires Valid()
      modifies registry, metrics, manager.sessions.Values
      ensures Valid() && View() == S.Register(metrics.enabled, old(View()), id, tags, hint)
      ensures error == if id in old(registry.tasks) then Some(T.AlreadyExists) else None
      ensures error.None? ==>
                registry.tasks == old(registry.tasks)[id := T.Task(id, tags, hint, T.Available, "", None)]
      ensures error.None? ==> TellsAll(old(manager.States()), manager.States(), tags, TaskAvailable(id, tags, hint))
    {
      hide TellsEvents;
      var events;
      error, events := registry.Register(id, tags, hint);
      if error.None? {
        Fire(events);
        S.OneEvent(metrics.enabled, old(View()).(tasks := registry.tasks), events[0]);
        BroadcastTells(old(manager.States()), tags, TaskAvailable(id, tags, hint));
      }
    }

    // -------------------------------------------------------------------------
    // The dispatcher
    // -------------------------------------------------------------------------

    /** A message from a session that is no longer in the manager does nothing. */
    method Handle(sid: string, requestId: string, req: Request, now: nat, later: nat) returns (found: bool)
      requires Valid() && T.Consistent(registry.tasks)
      modifies registry, metrics, coord.world, manager.sessions.Values
      ensures Valid() && found == (sid in old(manager.sessions))
      ensures !found ==> View() == old(View()) && coord.world.objects == old(coord.world.objects)
      ensures found && !req.Submit? ==> coord.world.objects == old(coord.world.objects)
      ensures found && req.Submit? ==>
                var sub := G.Submission(req.taskId, sid, req.data, req.meta);
                coord.world.objects == if S.Verdict(old(registry.tasks), sid, req.taskId, Judgement(sub)).None?
                                       then G.ApplyAll(old(coord.world.objects), coord.mergeFunc(sub).updates)
                                       else old(coord.world.objects)
      ensures found && req.Acquire? ==>
                View() == S.Acquire(metrics.enabled, old(View()), sid, requestId, req.taskId, now, later)
      ensures found && req.Release? ==> View() == S.Release(metrics.enabled, old(View()), sid, requestId, req.taskId)
      ensures found && req.Submit? ==>
                var rejection := Judgement(G.Submission(req.taskId, sid, req.data, req.meta));
                View() == S.Submit(metrics.enabled, old(View()), sid, requestId, req.taskId, rejection)
      ensures found && req.Submit? ==>
                var sub, before := G.Submission(req.taskId, sid, req.data, req.meta), old(registry.tasks);
                if req.taskId !in before then
                  && S.Rejects(metrics.enabled, old(View()), View(), sid, requestId, req.taskId, "task not found")
                  && coord.world.objects == old(coord.world.objects)
                else if before[req.taskId].owner != sid then
                  && S.Rejects(metrics.enabled, old(View()), View(), sid, requestId, req.taskId, "not owner")
                  && coord.world.objects == old(coord.world.objects)
                else if !coord.mergeFunc(sub).accept then
                  var reason := coord.mergeFunc(sub).reason;
                  var said := if reason == "" then "rejected by merge function" else reason;
                  && S.Rejects(metrics.enabled, old(View()), View(), sid, requestId, req.taskId, said)
                  && coord.world.objects == old(coord.world.objects)
                else
                  && S.Accepts(metrics.enabled, old(View()), View(), sid, requestId, req.taskId)
                  && coord.world.objects == G.ApplyAll(old(coord.world.objects), coord.mergeFunc(sub).updates)
      ensures found && req.Subscribe? ==> View() == old(View()).(sessions := manager.States())
      ensures found && req.Subscribe? ==>
                && SubscribedAndListed(registry.tasks, old(manager.States()), manager.States(), sid, req.tags)
                && Welcomed(registry.tasks, old(manager.States()), manager.States(), sid, req.tags)
      ensures found && req.Unsubscribe? ==>
                && View() == old(View()).(sessions := Unsubscribed(old(View()).sessions, sid, req.tags))
                && forall t :: t in manager.sessions[sid].tags <==>
                     t in old(manager.sessions[sid].tags) && t !in req.tags
      ensures found && req.BadPayload? ==>
                View() == old(View()).(sessions := SentTo(old(View()).sessions, sid, Failure(requestId, "bad_payload")))
      ensures found && req.UnknownType? ==>
                var refused := Failure(requestId, "unknown_type");
                View() == old(View()).(sessions := SentTo(old(View()).sessions, sid, refused))
      ensures found && req.Ping? ==>
                View() == old(View()).(sessions := SentTo(old(View()).sessions, sid, Pong(requestId)))
      ensures found && req.BadPayload? ==> S.OnlyAnswers(old(View()), View(), sid, Failure(requestId, "bad_payload"))
      ensures found && req.UnknownType? ==> S.OnlyAnswers(old(View()), View(), sid, Failure(requestId, "unknown_type"))
      ensures found && req.Ping? ==> S.OnlyAnswers(old(View()), View(), sid, Pong(requestId))
    {
      hide S.Acquire, S.Release, S.Submit, SentTo, SubscribedAndListed, Unsubscribed, Judgement;
      hide OnlyTells, TellsAll, M.Grows, S.Rejects, S.Accepts, S.Claims, S.Reopens, S.LapseTold, Welcomed, G.ApplyAll;
      var sess := manager.Get(sid);
      if sess == null {
        return false;
      }
      found := true;
      match req
      case Acquire(id) => HandleAcquire(sid, requestId, id, now, later);
      case Release(id) => HandleRelease(sid, requestId, id);
      case Submit(id, data, meta) => HandleSubmit(sid, requestId, id, data, meta);
      case Subscribe(tags) => HandleSubscribe(sess, tags);
      case Unsubscribe(tags) => HandleUnsubscribe(sess, tags);
      case Ping => manager.SendTo(sid, Pong(requestId));
      case BadPayload => manager.SendTo(sid, Failure(requestId, "bad_payload"));
      case UnknownType => manager.SendTo(sid, Failure(requestId, "unknown_type"));
    }

    /** `Acquire` of the registry, with the handlers it calls between its lock sections. */
    method Acquire(sid: string, id: string, now: nat, later: nat) returns (r: T.AcquireResult)
      requires Valid()
      modifies registry, metrics, manager.sessions.Values
      ensures Valid() && View() == S.Entered(metrics.enabled, old(View()), sid, id, now, later)
      ensures match T.Enter(old(registry.tasks), id, now)
              case Refuse(e) => r == T.Failed(e) && View() == old(View())
              case _ => r.Acquired? && id in registry.tasks && r.task == registry.tasks[id]
    {
      hide M.Record, S.AfterEvent, S.AfterEvents, TellsEvents;
      hide T.After, T.Fired, T.LeaseEnd, T.Leased, T.Vacant, T.Others;
      var events;
      r, events := registry.AcquireBegin(id, sid, 0, now, later);
      if r.Pending? {
        ghost var freed := View();
        Fire(events);
        S.EventsKeepTasks(metrics.enabled, freed, events);
        r := registry.AcquireResume(id, sid, 0, later);
      }
    }

    method HandleAcquire(sid: string, requestId: string, id: string, now: nat, later: nat)
      requires Valid()
      modifies registry, metrics, manager.sessions.Values
      ensures Valid() && View() == S.Acquire(metrics.enabled, old(View()), sid, requestId, id, now, later)
      ensures var missing := TaskAcquiredFail(requestId, id, "task not found");
              id !in old(registry.tasks) ==> S.OnlyAnswers(old(View()), View(), sid, missing)
      ensures id in old(registry.tasks) ==>
                var t := old(registry.tasks)[id];
                var granted := TaskAcquiredOk(requestId, id, later + 30_000_000_000);
                var taken := TaskAcquiredFail(requestId, id, "task not available: already owned");
                if t.status != T.Owned then
                  && S.Claims(metrics.enabled, old(View()), View(), sid, id, 0, later)
                  && OnlyTells(old(manager.States()), manager.States(), sid, granted)
                else if t.leaseUntil.Some? && now > t.leaseUntil.value then
                  && S.Claims(metrics.enabled, old(View()), View(), sid, id, 1, later)
                  && S.LapseTold(old(manager.States()), manager.States(), t, id, sid, granted)
                else
                  S.OnlyAnswers(old(View()), View(), sid, taken)
    {
      hide M.Record, M.Grows, M.Stands, SentTo, OnlyTells, S.Entered, S.OnlyAnswers, S.Claims, S.LapseTold, T.LeaseEnd;
      S.AcquireMeans(metrics.enabled, View(), sid, requestId, id, now, later);
      var r := Acquire(sid, id, now, later);
      if r.Failed? {
        manager.SendTo(sid, TaskAcquiredFail(requestId, id, S.ErrorText(r.error)));
      } else {
        metrics.TaskClaimed(id, sid);
        manager.SendTo(sid, TaskAcquiredOk(requestId, id, T.LeaseEnd(later, 0)));
      }
    }

    method HandleRelease(sid: string, requestId: string, id: string)
      requires Valid()
      modifies registry, metrics, manager.sessions.Values
      ensures Valid() && View() == S.Release(metrics.enabled, old(View()), sid, requestId, id)
      ensures if id in old(registry.tasks) && old(registry.tasks)[id].owner == sid then
                S.Reopens(metrics.enabled, old(View()), View(), id)
              else
                S.OnlyAnswers(old(View()), View(), sid, Failure(requestId, "release_failed"))
    {
      hide M.Record, S.AfterEvents, SentTo, S.OnlyAnswers, S.Reopens, OnlyTells, TellsEvents;
      hide M.Grows, M.Stands, T.After, T.Fired, T.Vacant, T.Others;
      S.ReleaseMeans(metrics.enabled, View(), sid, requestId, id);
      var error, events := registry.Release(id, sid);
      if error.Some? {
        manager.SendTo(sid, Failure(requestId, "release_failed"));
      } else {
        Fire(events);
        ghost var freed := View();
        metrics.TaskReleased(id, sid);
        assert View() == freed.(stats := M.Note(metrics.enabled, freed.stats, M.Released(id, sid)));
      }
    }

    /** What the coordinator says of a submission: the reason it rejects it with, if it does. */
    function Judgement(sub: G.Submission): Option<string> {
      var decision := coord.mergeFunc(sub);
      if decision.accept then None
      else Some(if decision.reason == "" then "rejected by merge function" else decision.reason)
    }

    /** The checks on a submission, and the store's update when it passes them all. */
    method Judge(sid: string, sub: G.Submission) returns (refusal: Option<string>)
      modifies coord.world
      ensures if sub.taskId !in registry.tasks then refusal == Some("task not found")
              else if registry.tasks[sub.taskId].owner != sid then refusal == Some("not owner")
              else refusal == Judgement(sub)
      ensures refusal.Some? ==> coord.world.objects == old(coord.world.objects)
      ensures refusal.None? ==>
                coord.world.objects == G.ApplyAll(old(coord.world.objects), coord.mergeFunc(sub).updates)
      ensures refusal == S.Verdict(registry.tasks, sid, sub.taskId, Judgement(sub))
      ensures coord.world.objects == if refusal.None?
                                     then G.ApplyAll(old(coord.world.objects), coord.mergeFunc(sub).updates)
                                     else old(coord.world.objects)
    {
      var t := registry.Get(sub.taskId);
      if t.None? {
        return Some("task not found");
      }
      if t.value.owner != sid {
        return Some("not owner");
      }
      var r, _ := coord.Submit(sub);
      if !r.accepted {
        return Some(r.reason);
      }
      return None;
    }

    /** Only the owner's accepted submission reaches the store; it does not end the lease. */
    method HandleSubmit(sid: string, requestId: string, id: string, data: Option<Bytes>, meta: Option<Bytes>)
      requires Valid()
      modifies metrics, coord.world, manager.sessions.Values
      ensures Valid()
      ensures var sub := G.Submission(id, sid, data, meta);
              View() == S.Submit(metrics.enabled, old(View()), sid, requestId, id, Judgement(sub))
      ensures var sub := G.Submission(id, sid, data, meta);
              coord.world.objects == if S.Verdict(registry.tasks, sid, id, Judgement(sub)).None?
                                     then G.ApplyAll(old(coord.world.objects), coord.mergeFunc(sub).updates)
                                     else old(coord.world.objects)
      ensures var sub, before := G.Submission(id, sid, data, meta), old(registry.tasks);
              if id !in before then
                && S.Rejects(metrics.enabled, old(View()), View(), sid, requestId, id, "task not found")
                && coord.world.objects == old(coord.world.objects)
              else if before[id].owner != sid then
                && S.Rejects(metrics.enabled, old(View()), View(), sid, requestId, id, "not owner")
                && coord.world.objects == old(coord.world.objects)
              else if !coord.mergeFunc(sub).accept then
                var reason := coord.mergeFunc(sub).reason;
                var said := if reason == "" then "rejected by merge function" else reason;
                && S.Rejects(metrics.enabled, old(View()), View(), sid, requestId, id, said)
                && coord.world.objects == old(coord.world.objects)
              else
                && S.Accepts(metrics.enabled, old(View()), View(), sid, requestId, id)
                && coord.world.objects == G.ApplyAll(old(coord.world.objects), coord.mergeFunc(sub).updates)
    {
      hide M.Record, M.Grows, M.Stands, SentTo, OnlyTells, G.ApplyAll, S.Verdict, S.Rejects, S.Accepts;
      S.SubmitMeans(metrics.enabled, View(), sid, requestId, id, Judgement(G.Submission(id, sid, data, meta)));
      var refusal := Judge(sid, G.Submission(id, sid, data, meta));
      if refusal.Some? {
        Reject(sid, requestId, id, refusal.value);
      } else {
        metrics.TaskCompleted(id, sid);
        manager.SendTo(sid, ResultAccepted(requestId, id));
      }
    }

    method Reject(sid: string, requestId: string, id: string, reason: string)
      requires Valid()
      modifies metrics, manager.sessions.Values
      ensures Valid()
      ensures metrics.View() == M.Note(metrics.enabled, old(metrics.View()), M.Rejected(id, sid))
      ensures manager.States() == SentTo(old(manager.States()), sid, ResultRejected(requestId, id, reason))
    {
      metrics.TaskRejected(id, sid);
      manager.SendTo(sid, ResultRejected(requestId, id, reason));
    }

    /** The tags are in place before the listing is read, and every listed task is sent. */
    method HandleSubscribe(sess: Session, tags: seq<string>)
      requires Valid() && T.Consistent(registry.tasks)
      requires sess.id in manager.sessions && manager.sessions[sess.id] == sess
      modifies manager.sessions.Values
      ensures Valid()
      ensures SubscribedAndListed(registry.tasks, old(manager.States()), manager.States(), sess.id, tags)
      ensures Welcomed(registry.tasks, old(manager.States()), manager.States(), sess.id, tags)
    {
      hide Welcomed;
      sess.Subscribe(tags);
      assert manager.States() == Subscribed(old(manager.States()), sess.id, tags);
      var listing := registry.ListAvailable(tags);
      for i := 0 to |listing|
        invariant Valid()
        invariant manager.States() == S.Offers(Subscribed(old(manager.States()), sess.id, tags), sess.id, listing[..i])
      {
        assert listing[..i + 1][..i] == listing[..i];
        var t := listing[i];
        manager.SendTo(sess.id, TaskAvailable(t.id, t.tags, t.hint));
      }
      assert listing[..|listing|] == listing;
      ListingWelcomes(registry.tasks, old(manager.States()), manager.States(), sess.id, tags, listing);
    }

    method HandleUnsubscribe(sess: Session, tags: seq<string>)
      requires Valid()
      requires sess.id in manager.sessions && manager.sessions[sess.id] == sess
      modifies manager.sessions.Values
      ensures Valid()
      ensures manager.States() == Unsubscribed(old(manager.States()), sess.id, tags)
      ensures forall t :: t in sess.tags <==> t in old(sess.tags) && t !in tags
    {
      sess.Unsubscribe(tags);
    }
  }

  /** Each session with room is told of these events as they concern it, in their order. */
  ghost predicate TellsEvents(before: States, after: States, es: seq<T.Event>) {
    && after.Keys == before.Keys
    && forall sid :: sid in before && HasRoom(before[sid], |es|) ==>
         Grew(before[sid], after[sid], S.Notices(es, sid, before[sid].tags))
  }

  ghost function Subscribed(states: States, sid: string, tags: seq<string>): States
    requires sid in states
  {
    states[sid := states[sid].(tags := states[sid].tags + TagSet(tags))]
  }

  ghost function Unsubscribed(states: States, sid: string, tags: seq<string>): States
    requires sid in states
  {
    states[sid := states[sid].(tags := states[sid].tags - TagSet(tags))]
  }

  /** The session has its new tags and has been sent every task on offer for them, each once. */
  ghost predicate SubscribedAndListed(tab: T.Table, before: States, after: States, sid: string, tags: seq<string>)
    requires sid in before
  {
    exists listing: seq<T.Task> ::
      && NoDuplicates(listing)
      && (forall t :: t in listing <==> t.id in tab && tab[t.id] == t && T.Offered(t, tags))
      && after == S.Offers(Subscribed(before, sid, tags), sid, listing)
  }

  /** Nobody else is touched. The session holds its new tags besides its old ones and, if it has room for them
      all, has been sent every available task with one of the new tags (any task for no tags), each once. */
  ghost predicate Welcomed(tab: T.Table, before: States, after: States, sid: string, tags: seq<string>)
    requires sid in before
  {
    && after.Keys == before.Keys
    && (forall k :: k in before && k != sid ==> after[k] == before[k])
    && after[sid].closed == before[sid].closed
    && (forall t :: t in after[sid].tags <==> t in before[sid].tags || t in tags)
    && exists listing: seq<T.Task> ::
         && ListsOpen(listing, tab, tags)
         && (HasRoom(before[sid], |listing|) ==> after[sid].outbox == before[sid].outbox + S.Told(listing))
  }

  /** `ts` lists each available task with one of the tags (any for no tags) once. */
  ghost predicate ListsOpen(ts: seq<T.Task>, tab: T.Table, tags: seq<string>) {
    && NoDuplicates(ts)
    && forall t :: t in ts <==>
         && t.id in tab && tab[t.id] == t && t.status == T.Available
         && (tags == [] || exists i :: 0 <= i < |t.tags| && t.tags[i] in tags)
  }

  lemma SubscribedMeans(states: States, sid: string, tags: seq<string>)
    requires sid in states
    ensures var mid := Subscribed(states, sid, tags);
            && mid.Keys == states.Keys && (forall k :: k in states && k != sid ==> mid[k] == states[k])
            && mid[sid].closed == states[sid].closed && mid[sid].outbox == states[sid].outbox
            && forall t :: t in mid[sid].tags <==> t in states[sid].tags || t in tags
  {
  }

  lemma ListingWelcomes(tab: T.Table, before: States, after: States, sid: string, tags: seq<string>,
                        listing: seq<T.Task>)
    requires sid in before && NoDuplicates(listing)
    requires forall t :: t in listing <==> t.id in tab && tab[t.id] == t && T.Offered(t, tags)
    requires after == S.Offers(Subscribed(before, sid, tags), sid, listing)
    ensures Welcomed(tab, before, after, sid, tags)
  {
    hide S.Offers, Subscribed, NoDuplicates;
    SubscribedMeans(before, sid, tags);
    S.OffersTell(Subscribed(before, sid, tags), sid, listing);
    assert ListsOpen(listing, tab, tags) by { hide NoDuplicates; }
  }
}

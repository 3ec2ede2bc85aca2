/** What each server-mode operation does to the lease table, the counters and the sessions: the
    specification of internal/dispatcher/dispatcher.go and of the wiring in cmd/server/main.go,
    each operation taken without interference. */
module ServerSteps {
  import opened Base
  import opened Protocol
  import opened Sessions
  import T = Tasks
  import M = Metrics

  datatype Server = Server(tasks: T.Table, stats: M.Stats, sessions: States)

  function ErrorText(e: T.TaskError): string {
    match e
    case NotFound => "task not found"
    case NotAvailable => "task not available: already owned"
    case NotOwner => "client does not own this task"
    case AlreadyExists => "task already registered"
  }

  // ---------------------------------------------------------------------------
  // The handlers registered with the registry
  // ---------------------------------------------------------------------------

  function AfterEvent(on: bool, s: Server, e: T.Event): Server {
    match e
    case Lost(t, o, reason) =>
      s.(stats := M.Note(on, s.stats, M.Evicted(t, o)), sessions := SentTo(s.sessions, o, OwnershipLost(t, reason)))
    case Opened(t, tags, hint, reason) =>
      s.(stats := if reason == "registered" then M.Note(on, s.stats, M.Registered(t)) else s.stats,
         sessions := BroadcastTo(s.sessions, tags, TaskAvailable(t, tags, hint)))
  }

  function AfterEvents(on: bool, s: Server, es: seq<T.Event>): Server {
    if es == [] then s else AfterEvent(on, AfterEvents(on, s, es[..|es| - 1]), es[|es| - 1])
  }

  lemma OneEvent(on: bool, s: Server, e: T.Event)
    ensures AfterEvents(on, s, [e]) == AfterEvent(on, s, e)
    ensures e.Opened? ==> AfterEvents(on, s, [e]).sessions
                            == BroadcastTo(s.sessions, e.tags, TaskAvailable(e.taskId, e.tags, e.hint))
  {
    assert [e][..0] == [];
  }

  /** What a session with these tags is told of these events, in their order. */
  function Notices(es: seq<T.Event>, sid: string, tags: set<string>): seq<Message> {
    if es == [] then []
    else
      var before, e := Notices(es[..|es| - 1], sid, tags), es[|es| - 1];
      match e
      case Lost(t, o, reason) => before + if o == sid then [OwnershipLost(t, reason)] else []
      case Opened(t, wanted, hint, _) =>
        var told := wanted == [] || exists i :: 0 <= i < |wanted| && wanted[i] in tags;
        before + if told then [TaskAvailable(t, wanted, hint)] else []
  }

  /** The handlers of a series of events tell a session with room for them all exactly that. */
  lemma {:induction false} EventsTell(on: bool, s: Server, es: seq<T.Event>, sid: string)
    requires sid in s.sessions && !s.sessions[sid].closed && |s.sessions[sid].outbox| + |es| <= OUTBOX_SIZE
    ensures |Notices(es, sid, s.sessions[sid].tags)| <= |es|
    ensures var was := s.sessions[sid];
            && sid in AfterEvents(on, s, es).sessions
            && AfterEvents(on, s, es).sessions[sid]
                 == SessionState(was.tags, was.outbox + Notices(es, sid, was.tags), false)
  {
    hide M.Note;
    if es != [] {
      var was, init := s.sessions[sid], es[..|es| - 1];
      EventsTell(on, s, init, sid);
      Associative(was.outbox, Notices(init, sid, was.tags),
                  Notices(es, sid, was.tags)[|Notices(init, sid, was.tags)|..]);
    }
  }

  /** Each event of concern to the session is among them. */
  lemma {:induction false} NoticesTell(es: seq<T.Event>, sid: string, tags: set<string>, e: T.Event)
    requires e in es
    ensures e.Lost? && e.ownerId == sid ==> OwnershipLost(e.taskId, e.reason) in Notices(es, sid, tags)
    ensures e.Opened? && (e.tags == [] || exists i :: 0 <= i < |e.tags| && e.tags[i] in tags) ==>
              TaskAvailable(e.taskId, e.tags, e.hint) in Notices(es, sid, tags)
  {
    if e != es[|es| - 1] { NoticesTell(es[..|es| - 1], sid, tags, e); }
  }

  // ---------------------------------------------------------------------------
  // Operations
  // ---------------------------------------------------------------------------

  function Register(on: bool, s: Server, id: string, tags: seq<string>, hint: Bytes): Server {
    if id in s.tasks then s
    else
      AfterEvents(on, s.(tasks := s.tasks[id := T.Task(id, tags, hint, T.Available, "", None)]),
                  [T.Opened(id, tags, hint, "registered")])
  }

  /** Frees a lapsed lease and runs the handlers, as between the two lock sections. */
  function Reopened(on: bool, s: Server, id: string): Server
    requires id in s.tasks
  {
    var t := s.tasks[id];
    AfterEvents(on, s.(tasks := s.tasks[id := T.Freed(t)]),
                [T.Lost(id, t.owner, "lease_expired"), T.Opened(id, t.tags, t.hint, "lease_expired")])
  }

  /** The registry's part of an acquire, both lock sections and the handlers between them. */
  function Entered(on: bool, s: Server, sid: string, id: string, now: nat, later: nat): Server {
    match T.Enter(s.tasks, id, now)
    case Refuse(_) => s
    case GrantNow => s.(tasks := s.tasks[id := T.Granted(s.tasks[id], sid, T.LeaseEnd(later, 0))])
    case Reopen(_) =>
      var granted := T.Granted(T.Freed(s.tasks[id]), sid, T.LeaseEnd(later, 0));
      Reopened(on, s, id).(tasks := s.tasks[id := granted])
  }

  function Acquire(on: bool, s: Server, sid: string, requestId: string, id: string, now: nat, later: nat): Server {
    match T.Enter(s.tasks, id, now)
    case Refuse(e) => s.(sessions := SentTo(s.sessions, sid, TaskAcquiredFail(requestId, id, ErrorText(e))))
    case _ =>
      var e := Entered(on, s, sid, id, now, later);
      Server(e.tasks, M.Note(on, e.stats, M.Claimed(id, sid)),
             SentTo(e.sessions, sid, TaskAcquiredOk(requestId, id, T.LeaseEnd(later, 0))))
  }

  lemma {:induction false} EventsKeepTasks(on: bool, s: Server, es: seq<T.Event>)
    ensures AfterEvents(on, s, es).tasks == s.tasks
    ensures AfterEvents(on, s, es).sessions.Keys == s.sessions.Keys
  {
    if es != [] { EventsKeepTasks(on, s, es[..|es| - 1]); }
  }

  function Release(on: bool, s: Server, sid: string, requestId: string, id: string): Server {
    if T.OwnerCheck(s.tasks, id,
                    sid).Some? then s.(sessions := SentTo(s.sessions, sid, Failure(requestId, "release_failed")))
    else
      var t := s.tasks[id];
      var freed := AfterEvents(on, s.(tasks := s.tasks[id := T.Freed(t)]), [T.Opened(id, t.tags, t.hint, "released")]);
      freed.(stats := M.Note(on, freed.stats, M.Released(id, sid)))
  }

  /** Why a submission is rejected, given what the coordinator would answer; `None` accepts it. */
  function Verdict(tab: T.Table, sid: string, id: string, rejection: Option<string>): Option<string> {
    if id !in tab then Some("task not found")
    else if tab[id].owner != sid then Some("not owner")
    else rejection
  }

  function Submit(on: bool, s: Server, sid: string, requestId: string, id: string, rejection: Option<string>): Server {
    match Verdict(s.tasks, sid, id, rejection)
    case Some(reason) =>
      s.(stats := M.Note(on, s.stats, M.Rejected(id, sid)),
         sessions := SentTo(s.sessions, sid, ResultRejected(requestId, id, reason)))
    case None =>
      s.(stats := M.Note(on, s.stats, M.Completed(id, sid)),
         sessions := SentTo(s.sessions, sid, ResultAccepted(requestId, id)))
  }

  function Offers(states: States, sid: string, ts: seq<T.Task>): States {
    if ts == [] then states
    else
      var t := ts[|ts| - 1];
      SentTo(Offers(states, sid, ts[..|ts| - 1]), sid, TaskAvailable(t.id, t.tags, t.hint))
  }

  function Disconnect(on: bool, s: Server, sid: string, released: seq<T.Task>): Server {
    var freed := AfterEvents(on, s.(tasks := T.ReleasedBy(s.tasks, sid)), T.DisconnectEvents(released, sid));
    freed.(stats := M.Note(on, freed.stats, M.Disconnected(sid)))
  }

  function Sweep(on: bool, s: Server, now: nat, expired: seq<T.Task>): Server {
    AfterEvents(on, s.(tasks := T.SweptAt(s.tasks, now)), T.SweepEvents(expired))
  }

  // ---------------------------------------------------------------------------
  // What a client is answered, and what is counted
  // ---------------------------------------------------------------------------

  /** Nothing happens but that this session is sent this one answer. */
  ghost predicate OnlyAnswers(s: Server, after: Server, sid: string, msg: Message) {
    after.tasks == s.tasks && after.stats == s.stats && OnlyTells(s.sessions, after.sessions, sid, msg)
  }

  /** A submission is answered with a rejection and counted as one. */
  ghost predicate Rejects(on: bool, s: Server, after: Server, sid: string, requestId: string, id: string,
                          reason: string)
  {
    && after.tasks == s.tasks && OnlyTells(s.sessions, after.sessions, sid, ResultRejected(requestId, id, reason))
    && if on then M.Grows(s.stats, after.stats, id, 0, 0, 1, 0, 0) else after.stats == s.stats
  }

  /** A submission is answered with an acceptance and counted as a completion; the lease goes on. */
  ghost predicate Accepts(on: bool, s: Server, after: Server, sid: string, requestId: string, id: string) {
    && after.tasks == s.tasks && OnlyTells(s.sessions, after.sessions, sid, ResultAccepted(requestId, id))
    && if on then M.Grows(s.stats, after.stats, id, 0, 1, 0, 0, 0) else after.stats == s.stats
  }

  lemma SubmitMeans(on: bool, s: Server, sid: string, requestId: string, id: string, rejection: Option<string>)
    ensures var after := Submit(on, s, sid, requestId, id, rejection);
            if id !in s.tasks then Rejects(on, s, after, sid, requestId, id, "task not found")
            else if s.tasks[id].owner != sid then Rejects(on, s, after, sid, requestId, id, "not owner")
            else if rejection.Some? then Rejects(on, s, after, sid, requestId, id, rejection.value)
            else Accepts(on, s, after, sid, requestId, id)
  {
    hide OnlyTells, M.Record, M.Grows, SentTo;
    M.RecordGrows(s.stats, M.Rejected(id, sid));
    M.RecordGrows(s.stats, M.Completed(id, sid));
    SendTells(s.sessions, sid, ResultAccepted(requestId, id));
    var verdict := Verdict(s.tasks, sid, id, rejection);
    if verdict.Some? { SendTells(s.sessions, sid, ResultRejected(requestId, id, verdict.value)); }
  }

  /** What a release comes to. */
  ghost predicate Reopens(on: bool, s: Server, after: Server, id: string)
    requires id in s.tasks
  {
    var t := s.tasks[id];
    && T.Vacant(after.tasks, id, t) && T.Others(after.tasks, s.tasks, id)
    && (if on then M.Grows(s.stats, after.stats, id, 0, 0, 0, 0, 1) else after.stats == s.stats)
    && TellsAll(s.sessions, after.sessions, t.tags, TaskAvailable(id, t.tags, t.hint))
  }

  lemma ReleaseMeans(on: bool, s: Server, sid: string, requestId: string, id: string)
    ensures var after := Release(on, s, sid, requestId, id);
            if id in s.tasks && s.tasks[id].owner == sid then Reopens(on, s, after, id)
            else OnlyAnswers(s, after, sid, Failure(requestId, "release_failed"))
  {
    hide OnlyTells, TellsAll, M.Record, M.Grows, SentTo, BroadcastTo;
    M.RecordGrows(s.stats, M.Released(id, sid));
    SendTells(s.sessions, sid, Failure(requestId, "release_failed"));
    if id in s.tasks {
      var t := s.tasks[id];
      BroadcastTells(s.sessions, t.tags, TaskAvailable(id, t.tags, t.hint));
      OneEvent(on, s.(tasks := s.tasks[id := T.Freed(t)]), T.Opened(id, t.tags, t.hint, "released"));
    }
  }

  /** The task is the session's, and an earlier owner's lease that has lapsed is counted as evicted. */
  ghost predicate Claims(on: bool, s: Server, after: Server, sid: string, id: string, evicted: nat, later: nat)
    requires id in s.tasks
  {
    && T.Leased(after.tasks, id, s.tasks[id], sid, 0, later) && T.Others(after.tasks, s.tasks, id)
    && if on then M.Grows(s.stats, after.stats, id, 1, 0, 0, evicted, 0) else after.stats == s.stats
  }

  lemma AcquireMeans(on: bool, s: Server, sid: string, requestId: string, id: string, now: nat, later: nat)
    ensures var after := Acquire(on, s, sid, requestId, id, now, later);
            var granted := TaskAcquiredOk(requestId, id, later + 30_000_000_000);
            if id !in s.tasks then OnlyAnswers(s, after, sid, TaskAcquiredFail(requestId, id, "task not found"))
            else
              var t := s.tasks[id];
              if t.status != T.Owned then
                Claims(on, s, after, sid, id, 0, later) && OnlyTells(s.sessions, after.sessions, sid, granted)
              else if t.leaseUntil.Some? && now > t.leaseUntil.value then
                && Claims(on, s, after, sid, id, 1, later)
                && LapseTold(s.sessions, after.sessions, t, id, sid, granted)
              else
                OnlyAnswers(s, after, sid, TaskAcquiredFail(requestId, id, "task not available: already owned"))
  {
    hide OnlyTells, M.Grows, SentTo, AfterEvents, LapseTold;
    if id !in s.tasks || T.Enter(s.tasks, id, now).Refuse? {
      var reason := if id !in s.tasks then "task not found" else "task not available: already owned";
      SendTells(s.sessions, sid, TaskAcquiredFail(requestId, id, reason));
    } else if T.Enter(s.tasks, id, now).GrantNow? {
      M.RecordGrows(s.stats, M.Claimed(id, sid));
      SendTells(s.sessions, sid, TaskAcquiredOk(requestId, id, later + 30_000_000_000));
    } else {
      LapseMeans(on, s, sid, requestId, id, now, later);
    }
  }

  /** Everyone with room is told of the lapse as it concerns them, and the new owner of its claim last. */
  ghost predicate LapseTold(before: States, after: States, t: T.Task, id: string, sid: string, granted: Message) {
    && after.Keys == before.Keys
    && forall k :: k in before && HasRoom(before[k], 3) ==>
         var wants := t.tags == [] || exists i :: 0 <= i < |t.tags| && t.tags[i] in before[k].tags;
         var lost := if t.owner == k then [OwnershipLost(id, "lease_expired")] else [];
         var offer := if wants then [TaskAvailable(id, t.tags, t.hint)] else [];
         Grew(before[k], after[k], lost + offer + if k == sid then [granted] else [])
  }

  lemma LapseEvents(on: bool, s: Server, t: T.Task, id: string)
    ensures var lost := SentTo(s.sessions, t.owner, OwnershipLost(id, "lease_expired"));
            AfterEvents(on, s, [T.Lost(id, t.owner, "lease_expired"), T.Opened(id, t.tags, t.hint, "lease_expired")])
              == Server(s.tasks, M.Note(on, s.stats, M.Evicted(id, t.owner)),
                        BroadcastTo(lost, t.tags, TaskAvailable(id, t.tags, t.hint)))
  {
    hide M.Note, SentTo, BroadcastTo;
    var es := [T.Lost(id, t.owner, "lease_expired"), T.Opened(id, t.tags, t.hint, "lease_expired")];
    OneEvent(on, s, es[0]);
    assert es[..1] == [es[0]];
  }

  lemma LapseGrows(st: M.Stats, id: string, owner: string, sid: string)
    ensures M.Grows(st, M.Record(M.Record(st, M.Evicted(id, owner)), M.Claimed(id, sid)), id, 1, 0, 0, 1, 0)
  {
    M.RecordGrows(st, M.Evicted(id, owner));
    M.RecordGrows(M.Record(st, M.Evicted(id, owner)), M.Claimed(id, sid));
    hide M.Record, M.TaskOf;
  }

  lemma LapseMeans(on: bool, s: Server, sid: string, requestId: string, id: string, now: nat, later: nat)
    requires T.Enter(s.tasks, id, now).Reopen?
    ensures var after := Acquire(on, s, sid, requestId, id, now, later);
            && Claims(on, s, after, sid, id, 1, later)
            && LapseTold(s.sessions, after.sessions, s.tasks[id], id, sid,
                         TaskAcquiredOk(requestId, id, later + 30_000_000_000))
  {
    hide M.Record, M.Grows, AfterEvents, SentTo, BroadcastTo, LapseTold;
    var t, granted := s.tasks[id], TaskAcquiredOk(requestId, id, later + 30_000_000_000);
    LapseEvents(on, s.(tasks := s.tasks[id := T.Freed(t)]), t, id);
    if on { LapseGrows(s.stats, id, t.owner, sid); }
    LapseTells(s.sessions, t, id, sid, granted);
  }

  lemma LapseTells(states: States, t: T.Task, id: string, sid: string, granted: Message)
    ensures var lost := SentTo(states, t.owner, OwnershipLost(id, "lease_expired"));
            var told := BroadcastTo(lost, t.tags, TaskAvailable(id, t.tags, t.hint));
            LapseTold(states, SentTo(told, sid, granted), t, id, sid, granted)
  {
    forall k | k in states && HasRoom(states[k], 3) { LapseTellsOne(states, t, id, sid, granted, k); }
  }

  lemma LapseTellsOne(states: States, t: T.Task, id: string, sid: string, granted: Message, k: string)
    requires k in states && HasRoom(states[k], 3)
    ensures var lost := SentTo(states, t.owner, OwnershipLost(id, "lease_expired"));
            var told := BroadcastTo(lost, t.tags, TaskAvailable(id, t.tags, t.hint));
            var wants := t.tags == [] || exists i :: 0 <= i < |t.tags| && t.tags[i] in states[k].tags;
            && k in lost && k in told
            && Grew(states[k], SentTo(told, sid, granted)[k],
                    (if t.owner == k then [OwnershipLost(id, "lease_expired")] else [])
                    + (if wants then [TaskAvailable(id, t.tags, t.hint)] else [])
                    + if k == sid then [granted] else [])
  {
  }

  // ---------------------------------------------------------------------------
  // Listings
  // ---------------------------------------------------------------------------

  function Told(ts: seq<T.Task>): seq<Message> {
    seq(|ts|, i requires 0 <= i < |ts| => TaskAvailable(ts[i].id, ts[i].tags, ts[i].hint))
  }

  /** A session with room for the whole listing is sent each task of it in turn; nobody else gets anything. */
  lemma {:induction false} OffersTell(states: States, sid: string, ts: seq<T.Task>)
    requires sid in states
    ensures Offers(states, sid, ts).Keys == states.Keys
    ensures forall k :: k in states && k != sid ==> Offers(states, sid, ts)[k] == states[k]
    ensures Offers(states, sid, ts)[sid].tags == states[sid].tags
    ensures Offers(states, sid, ts)[sid].closed == states[sid].closed
    ensures HasRoom(states[sid], |ts|) ==>
              Grew(states[sid], Offers(states, sid, ts)[sid],
                   Told(ts))
  {
    if ts != [] {
      var init, t := ts[..|ts| - 1], ts[|ts| - 1];
      OffersTell(states, sid, init);
      if HasRoom(states[sid], |ts|) {
        assert Told(ts) == Told(init) + [TaskAvailable(t.id, t.tags, t.hint)];
        Associative(states[sid].outbox, Told(init), [TaskAvailable(t.id, t.tags, t.hint)]);
      }
    }
  }
}

/** The lease accounts balance: over every run of server operations, what the counters say was
    claimed, given up and taken away is exactly what the registry says is owned. */
module LeaseAccounting {
  import opened Base
  import opened Metrics
  import opened Sessions
  import S = ServerSteps
  import T = Tasks

  /** Which task is owned by whom. */
  type Ownership = map<string, string>

  ghost function OwnersOf(tab: T.Table): Ownership {
    map id | id in tab && tab[id].status == T.Owned :: tab[id].owner
  }

  ghost function OwnedBy(own: Ownership, owner: string): set<string> {
    set id | id in own && own[id] == owner
  }

  // ---------------------------------------------------------------------------
  // The books
  // ---------------------------------------------------------------------------

  /** Each task's claims are its releases, its evictions and its present ownership; claims still in
      flight belong to the present owner. */
  ghost predicate TaskBooks(st: Stats, own: Ownership, id: string) {
    var ts := TaskOf(st, id);
    && ts.claims == ts.releases + ts.evictions + (if id in own then 1 else 0)
    && (forall o :: o in ts.inFlight ==> id in own && own[id] == o)
  }

  ghost predicate Books(st: Stats, own: Ownership) {
    && st.claims == st.releases + st.evictions + |own|
    && (forall id :: TaskBooks(st, own, id))
    && (forall o :: SessionOf(st, o).currentOwned == |OwnedBy(own, o)|)
  }

  lemma ClaimBooks(st: Stats, own: Ownership, t: string, o: string)
    requires Books(st, own) && t !in own
    ensures Books(Record(st, Claimed(t, o)), own[t := o])
  {
    hide OwnedBy, TaskBooks;
    var st', own' := Record(st, Claimed(t, o)), own[t := o];
    assert own'.Keys == own.Keys + {t} && |own'| == |own'.Keys| && |own| == |own.Keys|;
    forall id
      ensures TaskBooks(st', own', id)
    {
      ClaimTask(st, own, t, o, id);
    }
    forall p
      ensures SessionOf(st', p).currentOwned == |OwnedBy(own', p)|
    {
      OwnedAfterGrant(own, t, o, p);
    }
  }

  lemma ClaimTask(st: Stats, own: Ownership, t: string, o: string, id: string)
    requires TaskBooks(st, own, id) && t !in own
    ensures TaskBooks(Record(st, Claimed(t, o)), own[t := o], id)
  {
  }

  lemma OwnedAfterGrant(own: Ownership, t: string, o: string, p: string)
    requires t !in own
    ensures |OwnedBy(own[t := o], p)| == |OwnedBy(own, p)| + if p == o then 1 else 0
  {
    if p == o {
      assert OwnedBy(own[t := o], o) == OwnedBy(own, o) + {t};
    } else {
      assert OwnedBy(own[t := o], p) == OwnedBy(own, p);
    }
  }

  /** A release or eviction of an owned task; the saturating decrement does not saturate. */
  lemma GiveUpBooks(st: Stats, own: Ownership, e: Entry)
    requires Books(st, own)
    requires (e.Released? || e.Evicted?) && e.task in own && own[e.task] == e.owner
    ensures SessionOf(st, e.owner).currentOwned > 0
    ensures Books(Record(st, e), own - {e.task})
  {
    var st', own', t, o := Record(st, e), own - {e.task}, e.task, e.owner;
    assert own'.Keys == own.Keys - {t} && |own'| == |own'.Keys| && |own| == |own.Keys|;
    assert t in OwnedBy(own, o);
    forall id
      ensures TaskBooks(st', own', id)
    {
      assert TaskBooks(st, own, id);
    }
    forall p
      ensures SessionOf(st', p).currentOwned == |OwnedBy(own', p)|
    {
      if p == o {
        assert OwnedBy(own', o) == OwnedBy(own, o) - {t};
      } else {
        assert OwnedBy(own', p) == OwnedBy(own, p);
      }
    }
  }

  lemma OtherBooks(st: Stats, own: Ownership, e: Entry)
    requires Books(st, own)
    requires e.Registered? || e.Completed? || e.Rejected? || e.Connected?
               || (e.Disconnected? && OwnedBy(own, e.session) == {})
    ensures Books(Record(st, e), own)
  {
    var st' := Record(st, e);
    forall id
      ensures TaskBooks(st', own, id)
    {
      assert TaskBooks(st, own, id);
    }
    forall p
      ensures SessionOf(st', p).currentOwned == |OwnedBy(own, p)|
    {
    }
  }

  // ---------------------------------------------------------------------------
  // Series of events
  // ---------------------------------------------------------------------------

  ghost function Ids(ts: seq<T.Task>): set<string> {
    set i | 0 <= i < |ts| :: ts[i].id
  }

  lemma EventsSnoc(s: S.Server, es: seq<T.Event>, a: T.Event, b: T.Event)
    ensures S.AfterEvents(true, s, es + [a, b])
              == S.AfterEvent(true, S.AfterEvent(true, S.AfterEvents(true, s, es), a), b)
  {
    var all := es + [a, b];
    assert all[..|all| - 1] == es + [a];
    assert (es + [a])[..|es|] == es;
  }

  /** Owned tasks with distinct ids, reported lost one after the other. */
  ghost predicate Reportable(ts: seq<T.Task>, own: Ownership) {
    && (forall i :: 0 <= i < |ts| ==> ts[i].id in own && own[ts[i].id] == ts[i].owner)
    && (forall i, j :: 0 <= i < j < |ts| ==> ts[i].id != ts[j].id)
  }

  lemma LostAndOpened(s: S.Server, t: T.Task, owner: string, reason: string, own: Ownership)
    requires Books(s.stats, own) && t.id in own && own[t.id] == owner && reason != "registered"
    ensures var gone, offer := T.Lost(t.id, owner, reason), T.OpenedEvent(t, reason);
            && Books(S.AfterEvent(true, S.AfterEvent(true, s, gone), offer).stats, own - {t.id})
            && Books(S.AfterEvent(true, S.AfterEvent(true, s, offer), gone).stats, own - {t.id})
  {
    hide Books, Record;
    GiveUpBooks(s.stats, own, Evicted(t.id, owner));
  }

  lemma {:induction false} SweepBooks(s: S.Server, ts: seq<T.Task>, own: Ownership)
    requires Books(s.stats, own) && Reportable(ts, own)
    ensures Books(S.AfterEvents(true, s, T.SweepEvents(ts)).stats, own - Ids(ts))
    decreases |ts|
  {
    hide Books, Record, S.AfterEvent;
    if ts == [] {
      assert own - Ids(ts) == own;
    } else {
      var init, t := ts[..|ts| - 1], ts[|ts| - 1];
      SweepBooks(s, init, own);
      IdsSnoc(ts, own);
      EventsSnoc(s, T.SweepEvents(init), T.Lost(t.id, t.owner, "lease_expired"), T.OpenedEvent(t, "lease_expired"));
      LostAndOpened(S.AfterEvents(true, s, T.SweepEvents(init)), t, t.owner, "lease_expired", own - Ids(init));
    }
  }

  lemma {:induction false} DisconnectBooks(s: S.Server, ts: seq<T.Task>, owner: string, own: Ownership)
    requires Books(s.stats, own) && Reportable(ts, own) && forall i :: 0 <= i < |ts| ==> ts[i].owner == owner
    ensures Books(S.AfterEvents(true, s, T.DisconnectEvents(ts, owner)).stats, own - Ids(ts))
    decreases |ts|
  {
    hide Books, Record, S.AfterEvent;
    if ts == [] {
      assert own - Ids(ts) == own;
    } else {
      var init, t := ts[..|ts| - 1], ts[|ts| - 1];
      DisconnectBooks(s, init, owner, own);
      IdsSnoc(ts, own);
      EventsSnoc(s, T.DisconnectEvents(init, owner), T.OpenedEvent(t, "disconnected"),
                 T.Lost(t.id, owner, "disconnected"));
      LostAndOpened(S.AfterEvents(true, s, T.DisconnectEvents(init, owner)), t, owner, "disconnected", own - Ids(init));
    }
  }

  lemma IdsSnoc(ts: seq<T.Task>, own: Ownership)
    requires ts != [] && Reportable(ts, own)
    ensures var init, t := ts[..|ts| - 1], ts[|ts| - 1];
            && Reportable(init, own)
            && t.id in own - Ids(init)
            && own - Ids(init) - {t.id} == own - Ids(ts)
  {
    var init, t := ts[..|ts| - 1], ts[|ts| - 1];
    assert Ids(ts) == Ids(init) + {t.id} by {
      forall id | id in Ids(init) + {t.id}
        ensures id in Ids(ts)
      {
        if id == t.id {
          assert ts[|ts| - 1].id == id;
        } else {
          var i :| 0 <= i < |init| && init[i].id == id;
          assert ts[i].id == id;
        }
      }
    }
  }

  lemma OwnedReportable(ts: seq<T.Task>, tab: T.Table, owner: string)
    requires T.Consistent(tab) && T.ListsOwned(ts, tab, owner)
    ensures Reportable(ts, OwnersOf(tab))
    ensures forall i :: 0 <= i < |ts| ==> ts[i].owner == owner
    ensures OwnersOf(tab) - Ids(ts) == OwnersOf(T.ReleasedBy(tab, owner))
    ensures OwnedBy(OwnersOf(T.ReleasedBy(tab, owner)), owner) == {}
  {
    ListedAre(ts, tab);
    forall id | id in tab && T.OwnedBy(tab[id], owner)
      ensures id in Ids(ts)
    {
      assert tab[id] in ts;
    }
    forall id | id in Ids(ts)
      ensures id in tab && T.OwnedBy(tab[id], owner)
    {
    }
  }

  lemma LapsedReportable(ts: seq<T.Task>, tab: T.Table, now: nat)
    requires T.Consistent(tab) && T.ListsLapsed(ts, tab, now)
    ensures Reportable(ts, OwnersOf(tab))
    ensures OwnersOf(tab) - Ids(ts) == OwnersOf(T.SweptAt(tab, now))
  {
    ListedAre(ts, tab);
    forall id | id in tab && T.Lapsed(tab[id], now)
      ensures id in Ids(ts)
    {
      assert tab[id] in ts;
    }
  }

  lemma ListedAre(ts: seq<T.Task>, tab: T.Table)
    requires NoDuplicates(ts) && forall t :: t in ts ==> t.id in tab && tab[t.id] == t
    ensures forall i :: 0 <= i < |ts| ==> ts[i].id in tab && tab[ts[i].id] == ts[i]
    ensures forall i, j :: 0 <= i < j < |ts| ==> ts[i].id != ts[j].id
  {
    forall i | 0 <= i < |ts|
      ensures ts[i].id in tab && tab[ts[i].id] == ts[i]
    {
      assert ts[i] in ts;
    }
  }

  // ---------------------------------------------------------------------------
  // Runs of the server
  // ---------------------------------------------------------------------------

  /** The operations, with the order in which bulk operations met the tasks. Pings, subscriptions
      and malformed messages touch neither the registry nor the counters. */
  datatype Step =
    | Register(id: string, tags: seq<string>, hint: Bytes)
    | Connect(sid: string)
    | Acquire(sid: string, requestId: string, id: string, now: nat, later: nat)
    | Release(sid: string, requestId: string, id: string)
    | Submit(sid: string, requestId: string, id: string, rejection: Option<string>)
    | Disconnect(sid: string, released: seq<T.Task>)
    | Sweep(now: nat, expired: seq<T.Task>)

  ghost predicate Enabled(s: S.Server, step: Step) {
    match step
    case Register(_, _, _) => true
    case Connect(sid) => sid != ""
    case Acquire(sid, _, _, _, _) => sid != ""
    case Release(sid, _, _) => sid != ""
    case Submit(sid, _, _, _) => sid != ""
    case Disconnect(sid, released) => sid != "" && T.ListsOwned(released, s.tasks, sid)
    case Sweep(now, expired) => T.ListsLapsed(expired, s.tasks, now)
  }

  ghost function Next(s: S.Server, step: Step): S.Server {
    match step
    case Register(id, tags, hint) => S.Register(true, s, id, tags, hint)
    case Connect(sid) => s.(sessions := s.sessions[sid := SessionState({}, [], false)],
                            stats := Record(s.stats, Connected(sid)))
    case Acquire(sid, requestId, id, now, later) => S.Acquire(true, s, sid, requestId, id, now, later)
    case Release(sid, requestId, id) => S.Release(true, s, sid, requestId, id)
    case Submit(sid, requestId, id, rejection) => S.Submit(true, s, sid, requestId, id, rejection)
    case Disconnect(sid, released) =>
      var d := S.Disconnect(true, s, sid, released);
      d.(sessions := d.sessions - {sid})
    case Sweep(now, expired) => S.Sweep(true, s, now, expired)
  }

  const START := S.Server(map[], NO_STATS, map[])

  ghost function Run(steps: seq<Step>): S.Server {
    if steps == [] then START
    else
      var s := Run(steps[..|steps| - 1]);
      if Enabled(s, steps[|steps| - 1]) then Next(s, steps[|steps| - 1]) else s
  }

  ghost predicate Balanced(s: S.Server) {
    T.Consistent(s.tasks) && Books(s.stats, OwnersOf(s.tasks))
  }

  lemma RegisterBalanced(s: S.Server, id: string, tags: seq<string>, hint: Bytes)
    requires Balanced(s)
    ensures Balanced(S.Register(true, s, id, tags, hint))
  {
    hide Books, Record;
    if id !in s.tasks {
      var e := T.Opened(id, tags, hint, "registered");
      var added := s.(tasks := s.tasks[id := T.Task(id, tags, hint, T.Available, "", None)]);
      assert [e][..0] == [];
      assert S.AfterEvents(true, added, [e]) == S.AfterEvent(true, S.AfterEvents(true, added, []), e);
      assert OwnersOf(added.tasks) == OwnersOf(s.tasks);
      OtherBooks(s.stats, OwnersOf(s.tasks), Registered(id));
    }
  }

  /** The two events of a lapsed lease, between the lock sections. */
  lemma ReopenedBalanced(s: S.Server, id: string)
    requires Balanced(s) && id in s.tasks && s.tasks[id].status == T.Owned
    ensures Balanced(S.Reopened(true, s, id))
    ensures S.Reopened(true, s, id).tasks == s.tasks[id := T.Freed(s.tasks[id])]
  {
    hide Books, Record, S.AfterEvent;
    var t, own := s.tasks[id], OwnersOf(s.tasks);
    var freed := s.(tasks := s.tasks[id := T.Freed(t)]);
    var es := [T.Lost(id, t.owner, "lease_expired"), T.OpenedEvent(t, "lease_expired")];
    S.EventsKeepTasks(true, freed, es);
    EventsSnoc(freed, [], es[0], es[1]);
    assert [] + [es[0], es[1]] == es;
    LostAndOpened(freed, t, t.owner, "lease_expired", own);
    assert OwnersOf(freed.tasks) == own - {id};
  }

  lemma EnteredBalanced(s: S.Server, sid: string, id: string, now: nat, later: nat)
    requires Balanced(s) && sid != "" && !T.Enter(s.tasks, id, now).Refuse?
    ensures var e := S.Entered(true, s, sid, id, now, later);
            T.Consistent(e.tasks) && Books(Record(e.stats, Claimed(id, sid)), OwnersOf(e.tasks))
  {
    hide Books, Record, S.Reopened, OwnersOf;
    var e := S.Entered(true, s, sid, id, now, later);
    if T.Enter(s.tasks, id, now).Reopen? {
      ReopenedBalanced(s, id);
      var r := S.Reopened(true, s, id);
      assert e.tasks == r.tasks[id := T.Granted(T.Freed(s.tasks[id]), sid, T.LeaseEnd(later, 0))];
      OwnersAfterGrant(r.tasks, T.Freed(s.tasks[id]), sid, T.LeaseEnd(later, 0));
      ClaimBooks(r.stats, OwnersOf(r.tasks), id, sid);
    } else {
      OwnersAfterGrant(s.tasks, s.tasks[id], sid, T.LeaseEnd(later, 0));
      ClaimBooks(s.stats, OwnersOf(s.tasks), id, sid);
    }
  }

  lemma OwnersAfterGrant(tab: T.Table, t: T.Task, owner: string, until: nat)
    requires T.Consistent(tab) && t.id in tab && tab[t.id] == t && t.status != T.Owned && owner != ""
    ensures var tab' := tab[t.id := T.Granted(t, owner, until)];
            T.Consistent(tab') && t.id !in OwnersOf(tab) && OwnersOf(tab') == OwnersOf(tab)[t.id := owner]
  {
  }

  lemma ReleaseBalanced(s: S.Server, sid: string, requestId: string, id: string)
    requires Balanced(s) && sid != ""
    ensures Balanced(S.Release(true, s, sid, requestId, id))
  {
    hide Books, Record;
    if T.OwnerCheck(s.tasks, id, sid).None? {
      var t := s.tasks[id];
      var e := T.Opened(id, t.tags, t.hint, "released");
      var freed := s.(tasks := s.tasks[id := T.Freed(t)]);
      OpenedChangesNothing(freed, e);
      assert T.Consistent(freed.tasks) by { T.ConsistentUpdate(s.tasks, t, "", 0); }
      GiveUpBooks(s.stats, OwnersOf(s.tasks), Released(id, sid));
      assert OwnersOf(freed.tasks) == OwnersOf(s.tasks) - {id};
    }
  }

  lemma OpenedChangesNothing(s: S.Server, e: T.Event)
    requires e.Opened? && e.reason != "registered"
    ensures S.AfterEvents(true, s, [e]).tasks == s.tasks && S.AfterEvents(true, s, [e]).stats == s.stats
  {
    assert [e][..0] == [];
  }

  lemma StepBalanced(s: S.Server, step: Step)
    requires Balanced(s) && Enabled(s, step)
    ensures Balanced(Next(s, step))
  {
    hide Books, Record, S.AfterEvents, S.AfterEvent, S.Entered;
    var own := OwnersOf(s.tasks);
    match step
    case Register(id, tags, hint) => RegisterBalanced(s, id, tags, hint);
    case Connect(sid) => OtherBooks(s.stats, own, Connected(sid));
    case Acquire(sid, requestId, id, now, later) =>
      if !T.Enter(s.tasks, id, now).Refuse? { EnteredBalanced(s, sid, id, now, later); }
    case Release(sid, requestId, id) => ReleaseBalanced(s, sid, requestId, id);
    case Submit(sid, requestId, id, rejection) =>
      OtherBooks(s.stats, own, Completed(id, sid));
      OtherBooks(s.stats, own, Rejected(id, sid));
    case Disconnect(sid, released) =>
      var freed := s.(tasks := T.ReleasedBy(s.tasks, sid));
      OwnedReportable(released, s.tasks, sid);
      T.ConsistentBulk(s.tasks, sid, 0);
      S.EventsKeepTasks(true, freed, T.DisconnectEvents(released, sid));
      DisconnectBooks(freed, released, sid, own);
      OtherBooks(S.AfterEvents(true, freed, T.DisconnectEvents(released, sid)).stats, OwnersOf(freed.tasks),
                 Disconnected(sid));
    case Sweep(now, expired) =>
      var freed := s.(tasks := T.SweptAt(s.tasks, now));
      LapsedReportable(expired, s.tasks, now);
      T.ConsistentBulk(s.tasks, "", now);
      S.EventsKeepTasks(true, freed, T.SweepEvents(expired));
      SweepBooks(freed, expired, own);
  }

  /** Lease conservation: in every state reached by dispatcher messages, sweeps and disconnects,
      total claims are releases, evictions and owned tasks together; the same holds per task; each
      session's current count is the number of tasks it owns; and every claim in flight is the
      present owner's. */
  lemma LeasesConserved(steps: seq<Step>)
    ensures var s := Run(steps);
            var owned := OwnersOf(s.tasks);
            && s.stats.claims == s.stats.releases + s.stats.evictions + |owned|
            && (forall id :: TaskOf(s.stats, id).claims
                 == TaskOf(s.stats, id).releases + TaskOf(s.stats, id).evictions + (if id in owned then 1 else 0))
            && (forall o :: SessionOf(s.stats, o).currentOwned == |OwnedBy(owned, o)|)
            && (forall id, o :: o in TaskOf(s.stats, id).inFlight ==> id in owned && owned[id] == o)
  {
    BalancedRun(steps);
    hide Run, TaskOf, SessionOf, OwnersOf, OwnedBy;
    BooksSay(Run(steps).stats, OwnersOf(Run(steps).tasks));
  }

  lemma BooksSay(st: Stats, own: Ownership)
    requires Books(st, own)
    ensures st.claims == st.releases + st.evictions + |own|
    ensures forall id :: TaskOf(st, id).claims
              == TaskOf(st, id).releases + TaskOf(st, id).evictions + (if id in own then 1 else 0)
    ensures forall o :: SessionOf(st, o).currentOwned == |OwnedBy(own, o)|
    ensures forall id, o :: o in TaskOf(st, id).inFlight ==> id in own && own[id] == o
  {
    forall id
      ensures TaskOf(st, id).claims == TaskOf(st, id).releases + TaskOf(st, id).evictions + (if id in own then 1 else 0)
      ensures forall o :: o in TaskOf(st, id).inFlight ==> id in own && own[id] == o
    {
      assert TaskBooks(st, own, id);
    }
  }

  lemma {:induction false} BalancedRun(steps: seq<Step>)
    ensures Balanced(Run(steps))
  {
    if steps == [] {
      assert OwnersOf(START.tasks) == map[];
      forall o
        ensures OwnedBy(map[], o) == {}
      {
      }
    } else {
      hide Books, Next;
      BalancedRun(steps[..|steps| - 1]);
      var s := Run(steps[..|steps| - 1]);
      if Enabled(s, steps[|steps| - 1]) {
        StepBalanced(s, steps[|steps| - 1]);
      }
    }
  }
}

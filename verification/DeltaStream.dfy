/** The stream of deltas sent to a session refines full snapshots of the world, over every
    interleaving of updates, subscriptions, other traffic and projector steps, without deletions. */
module DeltaStream {
  import opened Base
  import opened Protocol
  import opened Sessions
  import opened Worlds
  import opened Projector

  // ---------------------------------------------------------------------------
  // What a client makes of its messages
  // ---------------------------------------------------------------------------

  type View = map<string, ObjectDiff>

  function Merged(v: View, ds: seq<ObjectDiff>): View {
    if ds == [] then v
    else
      var d := ds[|ds| - 1];
      Merged(v, ds[..|ds| - 1])[d.objectId := d]
  }

  function ViewOf(msgs: seq<Message>): View {
    if msgs == [] then map[]
    else
      var before, msg := ViewOf(msgs[..|msgs| - 1]), msgs[|msgs| - 1];
      if msg.WorldDiffs? then Merged(before, msg.objects) else before
  }

  lemma ViewSnoc(msgs: seq<Message>, msg: Message)
    ensures ViewOf(msgs + [msg]) == if msg.WorldDiffs? then Merged(ViewOf(msgs), msg.objects) else ViewOf(msgs)
  {
    assert (msgs + [msg])[..|msgs|] == msgs;
  }

  lemma {:induction false} WireDiffsSnoc(ds: seq<ObjectDiff>, d: ObjectDiff)
    ensures WireDiffs(ds + [d]) == WireDiffs(ds) + [WireDiff(d)]
  {
    if ds != [] {
      assert (ds + [d])[1..] == ds[1..] + [d];
      WireDiffsSnoc(ds[1..], d);
    } else {
      assert WireDiffs([d]) == [WireDiff(d)];
    }
  }

  /** The client after the message of one tick, were it delivered. */
  function Told(picks: Picks, seen: Seen, all: seq<Object>, v: View): View {
    Merged(v, WireDiffs(Diffs(picks, seen, all)))
  }

  lemma DiffSubject(o: Object)
    ensures WireDiff(DiffOf(o)).objectId == o.id
  {
  }

  lemma ToldSnoc(picks: Picks, seen: Seen, init: seq<Object>, o: Object, v: View)
    ensures var before, due := Told(picks, seen, init, v), Due(picks, seen, o);
            Told(picks, seen, init + [o], v) == if due then before[o.id := WireDiff(DiffOf(o))] else before
  {
    hide Due, DiffOf, WireDiff, SeenAfter;
    assert (init + [o])[..|init|] == init;
    if Due(picks, seen, o) {
      var ds := WireDiffs(Diffs(picks, seen, init));
      WireDiffsSnoc(Diffs(picks, seen, init), DiffOf(o));
      DiffSubject(o);
      assert (ds + [WireDiff(DiffOf(o))])[..|ds|] == ds;
    } else {
      assert Diffs(picks, seen, init) + [] == Diffs(picks, seen, init);
    }
  }

  lemma SeenSnoc(picks: Picks, seen: Seen, init: seq<Object>, o: Object)
    ensures var before, due := SeenAfter(picks, seen, init), Due(picks, seen, o);
            SeenAfter(picks, seen, init + [o]) == if due then before[o.id := o.version] else before
  {
    assert (init + [o])[..|init|] == init;
  }

  ghost predicate Refreshed(o: Object, v: View, seen: Seen) {
    o.id in v && v[o.id] == WireDiff(DiffOf(o)) && o.id in seen && seen[o.id] == o.version
  }

  ghost predicate Untouched(id: string, v: View, seen: Seen, v': View, seen': Seen) {
    && (id in v' <==> id in v) && (id in v ==> v'[id] == v[id])
    && (id in seen' <==> id in seen) && (id in seen ==> seen'[id] == seen[id])
  }

  /** One object after one tick: sent in full when it was due, untouched when it was not. */
  lemma {:induction false} TickAt(picks: Picks, seen: Seen, all: seq<Object>, v: View, id: string)
    requires DistinctIds(all)
    ensures forall i :: 0 <= i < |all| && all[i].id == id && Due(picks, seen, all[i]) ==>
              Refreshed(all[i], Told(picks, seen, all, v), SeenAfter(picks, seen, all))
    ensures (forall i :: 0 <= i < |all| && all[i].id == id ==> !Due(picks, seen, all[i])) ==>
              Untouched(id, v, seen, Told(picks, seen, all, v), SeenAfter(picks, seen, all))
  {
    if all == [] {
      EmptyMerge(v);
    } else {
      hide Told, SeenAfter, Due, DiffOf, WireDiff, Refreshed, Untouched;
      var init, o := all[..|all| - 1], all[|all| - 1];
      assert all == init + [o];
      TickAt(picks, seen, init, v, id);
      ToldSnoc(picks, seen, init, o, v);
      SeenSnoc(picks, seen, init, o);
      if o.id == id && Due(picks, seen, o) {
        Refresh(o, Told(picks, seen, init, v), SeenAfter(picks, seen, init));
      } else {
        Elsewhere(id, o, Told(picks, seen, init, v), SeenAfter(picks, seen, init));
        SameAt(id, Told(picks, seen, init, v), SeenAfter(picks, seen, init), Told(picks, seen, all, v),
               SeenAfter(picks, seen, all));
        forall i | 0 <= i < |all| && all[i].id == id && Due(picks, seen, all[i])
          ensures Refreshed(all[i], Told(picks, seen, all, v), SeenAfter(picks, seen, all))
        {
          assert init[i] == all[i];
        }
        if forall i :: 0 <= i < |all| && all[i].id == id ==> !Due(picks, seen, all[i]) {
          assert forall i :: 0 <= i < |init| && init[i].id == id ==> init[i] == all[i] && !Due(picks, seen, init[i]);
        }
      }
    }
  }

  lemma Refresh(o: Object, v: View, seen: Seen)
    ensures Refreshed(o, v[o.id := WireDiff(DiffOf(o))], seen[o.id := o.version])
  {
  }

  lemma Elsewhere(id: string, o: Object, v: View, seen: Seen)
    ensures Untouched(id, v, seen, v, seen)
    ensures o.id != id ==> Untouched(id, v, seen, v[o.id := WireDiff(DiffOf(o))], seen[o.id := o.version])
  {
  }

  lemma SameAt(id: string, v: View, seen: Seen, v': View, seen': Seen)
    requires Untouched(id, v, seen, v', seen')
    ensures forall o: Object :: o.id == id && Refreshed(o, v, seen) ==> Refreshed(o, v', seen')
    ensures forall u, was :: Untouched(id, u, was, v, seen) ==> Untouched(id, u, was, v', seen')
  {
  }

  // ---------------------------------------------------------------------------
  // The machine
  // ---------------------------------------------------------------------------

  /** A session with what its client has read so far, and the projector's table for it. `missing` are
      the objects whose last delta did not go into the outbox; `leaving` says that the table was
      forgotten, which happens on the session's way out of the manager. */
  datatype Client = Client(session: SessionState, received: seq<Message>, seen: Seen, missing: set<string>,
                           leaving: bool)

  function Sent(c: Client): seq<Message> {
    c.received + c.session.outbox
  }

  /** `past` are the change events so far; `snap` is the store when the current tick listed it,
      and `all` the order in which it did. */
  datatype State = State(objs: Objects, past: seq<ChangeEvent>, snap: Objects, all: seq<Object>, clients: map<string,
                         Client>)

  datatype Label =
    | Apply(req: UpdateRequest)
    | Connect(sid: string)
    | Subscribe(sid: string, tags: seq<string>)
    | Unsubscribe(sid: string, tags: seq<string>)
    | Forget(sid: string)
    | Close(sid: string)
    | Notify(sid: string, msg: Message)
    | Read(sid: string)
    | TickStart(all: seq<Object>)
    | TickSession(sid: string, picks: Picks)

  /** Whether a tick's message, if there is one, goes into the outbox. */
  predicate Delivered(valid: Bytes -> bool, c: Client, picks: Picks, all: seq<Object>) {
    var ds := Diffs(picks, c.seen, all);
    ds == [] || (AllEncodable(valid, ds) && !c.session.closed && |c.session.outbox| < OUTBOX_SIZE)
  }

  ghost function DueIds(picks: Picks, seen: Seen, all: seq<Object>): set<string> {
    set o | o in all && Due(picks, seen, o) :: o.id
  }

  ghost function AfterTick(valid: Bytes -> bool, all: seq<Object>, c: Client, picks: Picks): Client {
    var due := DueIds(picks, c.seen, all);
    Client(TickedBy(valid, c.session, picks, c.seen, all), c.received, SeenAfter(picks, c.seen, all),
           if Delivered(valid, c, picks, all) then c.missing - due else c.missing + due, c.leaving)
  }

  ghost function Served(valid: Bytes -> bool, all: seq<Object>, c: Client, l: Label): Client {
    match l
    case Subscribe(_, tags) => c.(session := c.session.(tags := c.session.tags + TagSet(tags)))
    case Unsubscribe(_, tags) => c.(session := c.session.(tags := c.session.tags - TagSet(tags)))
    case Forget(_) => c.(seen := map[], leaving := true)
    case Close(_) => c.(session := c.session.(closed := true))
    case Notify(_, msg) => if msg.WorldDiffs? then c else c.(session := Push(c.session, msg))
    case Read(_) =>
      if c.session.outbox == [] then c
      else c.(received := c.received + [c.session.outbox[0]], session := c.session.(outbox := c.session.outbox[1..]))
    case TickSession(_, picks) => AfterTick(valid, all, c, picks)
    case _ => c
  }

  ghost function Next(valid: Bytes -> bool, s: State, l: Label): State {
    match l
    case Apply(req) => s.(objs := ApplyTo(s.objs, req), past := s.past + ApplyEvents(s.objs, req))
    case Connect(sid) => if sid in s.clients then s else s.(clients := s.clients[sid := Client(SessionState({}, [],
                           false), [], map[], {}, false)])
    case TickStart(all) => if Snapshot(all, s.objs) then s.(snap := s.objs, all := all) else s
    case _ => if l.sid in s.clients then s.(clients := s.clients[l.sid := Served(valid, s.all, s.clients[l.sid], l)])
                else s
  }

  ghost function Run(valid: Bytes -> bool, ls: seq<Label>): State {
    if ls == [] then State(map[], [], map[], [], map[]) else Next(valid, Run(valid, ls[..|ls| - 1]), ls[|ls| - 1])
  }

  // ---------------------------------------------------------------------------
  // The invariant
  // ---------------------------------------------------------------------------

  ghost predicate IsPast(past: seq<ChangeEvent>, o: Object) {
    exists e :: e in past && e.obj == o
  }

  /** Each object of the view is, as encoded, a version the store once held. */
  ghost predicate ShowsPast(past: seq<ChangeEvent>, v: View) {
    forall id :: id in v ==> exists e :: e in past && e.obj.id == id && v[id] == WireDiff(DiffOf(e.obj))
  }

  /** From `v` to `w` nothing disappears and no object goes back. */
  ghost predicate Advances(v: View, w: View) {
    forall id :: id in v ==> id in w && v[id].version <= w[id].version
  }

  ghost predicate StreamOk(past: seq<ChangeEvent>, msgs: seq<Message>) {
    && (forall n :: 0 <= n <= |msgs| ==> ShowsPast(past, ViewOf(msgs[..n])))
    && (forall n, m :: 0 <= n <= m <= |msgs| ==> Advances(ViewOf(msgs[..n]), ViewOf(msgs[..m])))
  }

  ghost predicate StoreOk(s: State) {
    && Chronicle(s.objs, s.past)
    && Snapshot(s.all, s.snap)
    && (forall id :: id in s.snap ==>
         s.snap[id].id == id && IsPast(s.past, s.snap[id]) && s.snap[id].version <= Version(s.objs, id))
  }

  /** Neither the table nor the client is ahead of the tick's snapshot; and but for the missing
      objects the client holds just the versions in the table. */
  ghost predicate ClientOk(past: seq<ChangeEvent>, snap: Objects, c: Client) {
    var v := ViewOf(Sent(c));
    && StreamOk(past, Sent(c))
    && (forall id :: id in v ==> v[id].version <= Version(snap, id))
    && (forall id :: id in c.seen ==> c.seen[id] <= Version(snap, id))
    && Accounted(v, c.seen, c.missing, c.leaving)
  }

  ghost predicate AccountedAt(v: View, seen: Seen, missing: set<string>, leaving: bool, id: string) {
    && (id in seen && id !in missing ==> id in v && v[id].version == seen[id])
    && (!leaving && id in v ==> id in seen)
    && (!leaving && id in missing ==> id in seen && (id in v ==> v[id].version < seen[id]))
  }

  ghost predicate Accounted(v: View, seen: Seen, missing: set<string>, leaving: bool) {
    forall id :: AccountedAt(v, seen, missing, leaving, id)
  }

  ghost predicate Inv(s: State) {
    StoreOk(s) && forall sid :: sid in s.clients ==> ClientOk(s.past, s.snap, s.clients[sid])
  }

  lemma StreamSnoc(past: seq<ChangeEvent>, msgs: seq<Message>, msg: Message)
    requires StreamOk(past, msgs) && ShowsPast(past, ViewOf(msgs + [msg]))
    requires Advances(ViewOf(msgs), ViewOf(msgs + [msg]))
    ensures StreamOk(past, msgs + [msg])
  {
    hide ShowsPast, Advances, ViewOf;
    var all := msgs + [msg];
    assert all[..|all|] == all && msgs[..|msgs|] == msgs;
    assert forall n :: 0 <= n <= |msgs| ==> all[..n] == msgs[..n];
    forall n, m | 0 <= n <= m <= |all|
      ensures Advances(ViewOf(all[..n]), ViewOf(all[..m]))
    {
      AdvancesThrice(ViewOf(msgs[..if n <= |msgs| then n else |msgs|]), ViewOf(msgs), ViewOf(all));
    }
  }

  lemma AdvancesThrice(u: View, v: View, w: View)
    requires Advances(u, v) && Advances(v, w)
    ensures Advances(u, w) && Advances(w, w)
  {
  }

  lemma MorePast(past: seq<ChangeEvent>, more: seq<ChangeEvent>, snap: Objects, c: Client)
    requires ClientOk(past, snap, c)
    ensures ClientOk(past + more, snap, c)
  {
    hide ViewOf, WireDiff, Sent;
    forall n | 0 <= n <= |Sent(c)|
      ensures ShowsPast(past + more, ViewOf(Sent(c)[..n]))
    {
      StillPast(past, more, ViewOf(Sent(c)[..n]));
    }
  }

  lemma StillPast(past: seq<ChangeEvent>, more: seq<ChangeEvent>, v: View)
    requires ShowsPast(past, v)
    ensures ShowsPast(past + more, v)
  {
    forall id | id in v
      ensures exists e :: e in past + more && e.obj.id == id && v[id] == WireDiff(DiffOf(e.obj))
    {
      var e :| e in past && e.obj.id == id && v[id] == WireDiff(DiffOf(e.obj));
      assert e in past + more;
    }
  }

  lemma {:induction false} ApplyKeeps(valid: Bytes -> bool, s: State, req: UpdateRequest)
    requires Inv(s)
    ensures Inv(Next(valid, s, Apply(req)))
  {
    hide ClientOk, Chronicle;
    var fired := ApplyEvents(s.objs, req);
    forall sid | sid in s.clients
      ensures ClientOk(s.past + fired, s.snap, s.clients[sid])
    {
      MorePast(s.past, fired, s.snap, s.clients[sid]);
    }
    if Outcome(s.objs, req).Applied? {
      ChronicleStep(s.objs, s.past, req);
    } else {
      assert s.past + fired == s.past;
    }
    forall id | id in s.snap
      ensures IsPast(s.past + fired, s.snap[id]) && s.snap[id].version <= Version(ApplyTo(s.objs, req), id)
    {
      var e :| e in s.past && e.obj == s.snap[id];
      assert e in s.past + fired;
    }
  }

  lemma TickStartKeeps(valid: Bytes -> bool, s: State, all: seq<Object>)
    requires Inv(s) && Snapshot(all, s.objs)
    ensures Inv(Next(valid, s, TickStart(all)))
  {
    hide StreamOk, ViewOf;
    forall sid | sid in s.clients
      ensures ClientOk(s.past, s.objs, s.clients[sid])
    {
      assert ClientOk(s.past, s.snap, s.clients[sid]);
      assert forall id :: Version(s.snap, id) <= Version(s.objs, id);
    }
    forall id | id in s.objs
      ensures IsPast(s.past, s.objs[id])
    {
    }
  }

  /** All objects after one tick of one session. */
  lemma TickAll(picks: Picks, seen: Seen, all: seq<Object>, snap: Objects, v: View)
    requires Snapshot(all, snap) && forall id :: id in snap ==> snap[id].id == id
    ensures var v', seen' := Told(picks, seen, all, v), SeenAfter(picks, seen, all);
            && (forall id :: id in snap && Due(picks, seen, snap[id]) ==> Refreshed(snap[id], v', seen'))
            && (forall id :: !(id in snap && Due(picks, seen, snap[id])) ==> Untouched(id, v, seen, v', seen'))
  {
    hide Due, DistinctIds, Refreshed, Untouched, Told, SeenAfter;
    forall i | 0 <= i < |all|
      ensures all[i].id in snap && snap[all[i].id] == all[i]
    {
      assert all[i] in all;
    }
    forall id | id in snap
      ensures exists i :: 0 <= i < |all| && all[i] == snap[id]
    {
      assert snap[id] in all;
    }
    forall id
      ensures id in snap && Due(picks, seen, snap[id]) ==>
                Refreshed(snap[id], Told(picks, seen, all, v), SeenAfter(picks, seen, all))
      ensures !(id in snap && Due(picks, seen, snap[id])) ==>
                Untouched(id, v, seen, Told(picks, seen, all, v), SeenAfter(picks, seen, all))
    {
      TickAt(picks, seen, all, v, id);
      if id in snap {
        var i :| 0 <= i < |all| && all[i] == snap[id];
      }
    }
  }

  /** The view after a tick: the merged one when its message was delivered, else the old one. */
  lemma ViewAfterTick(valid: Bytes -> bool, all: seq<Object>, c: Client, picks: Picks)
    ensures var ds := Diffs(picks, c.seen, all);
            Sent(AfterTick(valid, all, c, picks))
              == if ds != [] && Delivered(valid, c, picks, all) then Sent(c) + [WorldDiffs(WireDiffs(ds))] else Sent(c)
    ensures Delivered(valid, c, picks, all) ==>
              ViewOf(Sent(AfterTick(valid, all, c, picks))) == Told(picks, c.seen, all, ViewOf(Sent(c)))
  {
    hide Diffs, SeenAfter, Merged, ViewOf, WireDiffs, AllEncodable;
    var ds := Diffs(picks, c.seen, all);
    if ds != [] && Delivered(valid, c, picks, all) {
      Associative(c.received, c.session.outbox, [WorldDiffs(WireDiffs(ds))]);
      ViewSnoc(Sent(c), WorldDiffs(WireDiffs(ds)));
    } else {
      assert Sent(AfterTick(valid, all, c, picks)) == Sent(c);
      EmptyMerge(ViewOf(Sent(c)));
    }
  }

  lemma EmptyMerge(v: View)
    ensures WireDiffs([]) == [] && Merged(v, []) == v
  {
  }

  /** What the invariant says of one view and one table. */
  ghost predicate Held(past: seq<ChangeEvent>, snap: Objects, v: View, seen: Seen) {
    && ShowsPast(past, v)
    && (forall id :: id in v ==> v[id].version <= Version(snap, id))
    && (forall id :: id in seen ==> seen[id] <= Version(snap, id))
  }

  lemma {:induction false} TickHolds(s: State, picks: Picks, seen: Seen, v: View)
    requires StoreOk(s) && Held(s.past, s.snap, v, seen)
    ensures var v', seen' := Told(picks, seen, s.all, v), SeenAfter(picks, seen, s.all);
            Held(s.past, s.snap, v', seen') && Advances(v, v')
  {
    hide Told, SeenAfter, Chronicle, Snapshot, Due, Refreshed, Untouched, HoldsAt, Held, IsPast, Advances;
    TickAll(picks, seen, s.all, s.snap, v);
    var v', seen' := Told(picks, seen, s.all, v), SeenAfter(picks, seen, s.all);
    forall id
      ensures HoldsAt(s.past, s.snap, v, v', seen', id)
    {
      if id in s.snap && Due(picks, seen, s.snap[id]) {
        RefreshedHolds(s.past, s.snap, id, v, seen, v', seen');
      } else {
        UntouchedHolds(s.past, s.snap, id, v, seen, v', seen');
      }
    }
    HoldsEverywhere(s.past, s.snap, v, v', seen');
  }

  ghost predicate HoldsAt(past: seq<ChangeEvent>, snap: Objects, v: View, v': View, seen': Seen, id: string) {
    && (id in v' ==> exists e :: e in past && e.obj.id == id && v'[id] == WireDiff(DiffOf(e.obj)))
    && (id in v' ==> v'[id].version <= Version(snap, id))
    && (id in seen' ==> seen'[id] <= Version(snap, id))
    && (id in v ==> id in v' && v[id].version <= v'[id].version)
  }

  lemma RefreshedHolds(past: seq<ChangeEvent>, snap: Objects, id: string, v: View, seen: Seen, v': View, seen': Seen)
    requires Held(past, snap, v, seen)
    requires id in snap && snap[id].id == id && IsPast(past, snap[id]) && Refreshed(snap[id], v', seen')
    ensures HoldsAt(past, snap, v, v', seen', id)
  {
    var e :| e in past && e.obj == snap[id];
  }

  lemma UntouchedHolds(past: seq<ChangeEvent>, snap: Objects, id: string, v: View, seen: Seen, v': View, seen': Seen)
    requires Held(past, snap, v, seen) && Untouched(id, v, seen, v', seen')
    ensures HoldsAt(past, snap, v, v', seen', id)
  {
  }

  lemma HoldsEverywhere(past: seq<ChangeEvent>, snap: Objects, v: View, v': View, seen': Seen)
    requires forall id :: HoldsAt(past, snap, v, v', seen', id)
    ensures Held(past, snap, v', seen') && Advances(v, v')
  {
    hide WireDiff, DiffOf, Version;
    forall id
      ensures id in v' ==> exists e :: e in past && e.obj.id == id && v'[id] == WireDiff(DiffOf(e.obj))
      ensures id in v' ==> v'[id].version <= Version(snap, id)
      ensures id in seen' ==> seen'[id] <= Version(snap, id)
      ensures id in v ==> id in v' && v[id].version <= v'[id].version
    {
      assert HoldsAt(past, snap, v, v', seen', id);
    }
  }

  lemma DueIdsAre(picks: Picks, seen: Seen, all: seq<Object>, snap: Objects)
    requires Snapshot(all, snap) && forall id :: id in snap ==> snap[id].id == id
    ensures forall id :: id in DueIds(picks, seen, all) <==> id in snap && Due(picks, seen, snap[id])
  {
    hide Due, DistinctIds;
    forall id | id in snap && Due(picks, seen, snap[id])
      ensures id in DueIds(picks, seen, all)
    {
      assert snap[id] in all;
    }
  }

  /** The accounts after a tick, whether its message was delivered or lost. */
  lemma TickAccounts(s: State, picks: Picks, seen: Seen, v: View, missing: set<string>, leaving: bool)
    requires StoreOk(s) && Accounted(v, seen, missing, leaving)
    ensures var v', seen' := Told(picks, seen, s.all, v), SeenAfter(picks, seen, s.all);
            var due := DueIds(picks, seen, s.all);
            Accounted(v', seen', missing - due, leaving) && Accounted(v, seen', missing + due, leaving)
  {
    hide Told, SeenAfter, Chronicle, Snapshot, Matches, WireDiff, DueIds, IsPast, AccountedAt, Refreshed;
    hide Untouched, Due;
    TickAll(picks, seen, s.all, s.snap, v);
    DueIdsAre(picks, seen, s.all, s.snap);
    var v', seen', due := Told(picks, seen, s.all, v), SeenAfter(picks, seen, s.all), DueIds(picks, seen, s.all);
    forall id
      ensures AccountedAt(v', seen', missing - due, leaving, id) && AccountedAt(v, seen', missing + due, leaving, id)
    {
      assert AccountedAt(v, seen, missing, leaving, id);
      if id in due {
        DueAccount(v, seen, v', seen', missing, due, leaving, picks, s.snap[id]);
      } else {
        RestAccount(v, seen, v', seen', missing, due, leaving, id);
      }
    }
  }

  lemma DueAccount(v: View, seen: Seen, v': View, seen': Seen, missing: set<string>, due: set<string>, leaving: bool,
                   picks: Picks, o: Object)
    requires AccountedAt(v, seen, missing, leaving, o.id) && o.id in due
    requires Due(picks, seen, o) && Refreshed(o, v', seen')
    ensures AccountedAt(v', seen', missing - due, leaving, o.id) && AccountedAt(v, seen', missing + due, leaving, o.id)
  {
  }

  lemma RestAccount(v: View, seen: Seen, v': View, seen': Seen, missing: set<string>, due: set<string>, leaving: bool,
                    id: string)
    requires AccountedAt(v, seen, missing, leaving, id) && id !in due && Untouched(id, v, seen, v', seen')
    ensures AccountedAt(v', seen', missing - due, leaving, id) && AccountedAt(v, seen', missing + due, leaving, id)
  {
  }

  lemma {:induction false} TickSessionKeeps(valid: Bytes -> bool, s: State, c: Client, picks: Picks)
    requires StoreOk(s) && ClientOk(s.past, s.snap, c)
    ensures ClientOk(s.past, s.snap, AfterTick(valid, s.all, c, picks))
  {
    hide Diffs, SeenAfter, Told, ViewOf, WireDiffs, StoreOk, StreamOk, TickedBy, Delivered, Sent, ShowsPast;
    hide Advances, Accounted, DueIds;
    var ds, v := Diffs(picks, c.seen, s.all), ViewOf(Sent(c));
    ShowsNow(s.past, Sent(c));
    TickHolds(s, picks, c.seen, v);
    TickAccounts(s, picks, c.seen, v, c.missing, c.leaving);
    ViewAfterTick(valid, s.all, c, picks);
    if ds != [] && Delivered(valid, c, picks, s.all) {
      StreamSnoc(s.past, Sent(c), WorldDiffs(WireDiffs(ds)));
    }
  }

  lemma ShowsNow(past: seq<ChangeEvent>, msgs: seq<Message>)
    requires StreamOk(past, msgs)
    ensures ShowsPast(past, ViewOf(msgs))
  {
    assert msgs[..|msgs|] == msgs;
  }

  /** Every other step of a client leaves its stream as it is, or adds a message of another kind. */
  lemma {:induction false} ServedKeeps(valid: Bytes -> bool, s: State, c: Client, l: Label)
    requires StoreOk(s) && ClientOk(s.past, s.snap, c)
    ensures ClientOk(s.past, s.snap, Served(valid, s.all, c, l))
  {
    hide Merged, ViewOf, StreamOk, ShowsPast, Chronicle, AfterTick;
    var c' := Served(valid, s.all, c, l);
    match l {
      case TickSession(_, picks) => TickSessionKeeps(valid, s, c, picks);
      case Read(_) =>
        assert Sent(c') == Sent(c);
      case Notify(_, msg) =>
        if !msg.WorldDiffs? && Sent(c') != Sent(c) {
          assert Sent(c') == Sent(c) + [msg];
          ViewSnoc(Sent(c), msg);
          ShowsNow(s.past, Sent(c));
          StreamSnoc(s.past, Sent(c), msg);
        }
      case _ =>
        assert Sent(c') == Sent(c);
    }
  }

  lemma {:induction false} StepKeeps(valid: Bytes -> bool, s: State, l: Label)
    requires Inv(s)
    ensures Inv(Next(valid, s, l))
  {
    hide ClientOk, StoreOk, Served;
    match l {
      case Apply(req) => ApplyKeeps(valid, s, req);
      case Connect(sid) =>
        FreshClient(s.past, s.snap);
        SameStore(s, Next(valid, s, l));
      case TickStart(all) =>
        if Snapshot(all, s.objs) { TickStartKeeps(valid, s, all); }
      case _ =>
        if l.sid in s.clients { ServedKeeps(valid, s, s.clients[l.sid], l); }
        SameStore(s, Next(valid, s, l));
    }
  }

  lemma SameStore(s: State, s': State)
    requires StoreOk(s) && s'.objs == s.objs && s'.past == s.past && s'.snap == s.snap && s'.all == s.all
    ensures StoreOk(s')
  {
  }

  lemma FreshClient(past: seq<ChangeEvent>, snap: Objects)
    ensures ClientOk(past, snap, Client(SessionState({}, [], false), [], map[], {}, false))
  {
  }

  lemma {:induction false} RunKeeps(valid: Bytes -> bool, ls: seq<Label>)
    ensures Inv(Run(valid, ls))
  {
    if ls != [] {
      RunKeeps(valid, ls[..|ls| - 1]);
      StepKeeps(valid, Run(valid, ls[..|ls| - 1]), ls[|ls| - 1]);
    }
  }

  // ---------------------------------------------------------------------------
  // Main results
  // ---------------------------------------------------------------------------

  /** The client holds this object, as encoded: its data, version and meta. */
  ghost predicate HoldsCopy(c: Client, o: Object) {
    var v := ViewOf(Sent(c));
    o.id in v && v[o.id] == WireDiff(DiffOf(o))
  }

  /** Deltas stand for full snapshots, object by object and whatever was lost before: right after its
      tick a session's client holds an object of the tick's snapshot that was found to match when it was due
      and the tick's message could be encoded and fitted into an open outbox, or was not due and its last
      delta had not been lost; and, but for sessions on their way out, only then. In particular a
      lost object is made up for by its next delivered version. The session's tags may change while
      they are compared. */
  lemma {:induction false} DeltasRefineSnapshots(valid: Bytes -> bool, ls: seq<Label>, sid: string, picks: Picks,
                                                 id: string)
    requires sid in Run(valid, ls).clients && id in Run(valid, ls).snap && picks(Run(valid, ls).snap[id])
    ensures var s := Run(valid, ls);
            var c, c' := s.clients[sid], Next(valid, s, TickSession(sid, picks)).clients[sid];
            var due := Due(picks, c.seen, s.snap[id]);
            var kept := if due then Delivered(valid, c, picks, s.all) else id !in c.missing;
            && (kept ==> HoldsCopy(c', s.snap[id])) && (HoldsCopy(c', s.snap[id]) && !c.leaving ==> kept)
            && (kept <==> id !in c'.missing)
  {
    hide Run, StoreOk, ClientOk, HoldsCopy, Delivered, AfterTick;
    RunKeeps(valid, ls);
    var s := Run(valid, ls);
    CopyIffKept(valid, s, s.clients[sid], picks, id);
  }

  lemma {:induction false} CopyIffKept(valid: Bytes -> bool, s: State, c: Client, picks: Picks, id: string)
    requires StoreOk(s) && ClientOk(s.past, s.snap, c) && id in s.snap && picks(s.snap[id])
    ensures var c', due := AfterTick(valid, s.all, c, picks), Due(picks, c.seen, s.snap[id]);
            var kept := if due then Delivered(valid, c, picks, s.all) else id !in c.missing;
            && (kept ==> HoldsCopy(c', s.snap[id])) && (HoldsCopy(c', s.snap[id]) && !c.leaving ==> kept)
            && (kept <==> id !in c'.missing)
  {
    hide Told, SeenAfter, ViewOf, StreamOk, Diffs, Sent, Chronicle, Delivered, Snapshot, TickedBy;
    hide DueIds, ShowsPast;
    var c', o := AfterTick(valid, s.all, c, picks), s.snap[id];
    TickSessionKeeps(valid, s, c, picks);
    TickAll(picks, c.seen, s.all, s.snap, map[]);
    DueIdsAre(picks, c.seen, s.all, s.snap);
    NotDueIsSeen(s, picks, c.seen, id);
    assert AccountedAt(ViewOf(Sent(c')), c'.seen, c'.missing, c'.leaving, id);
    if id !in c'.missing {
      ShowsNow(s.past, Sent(c'));
      UpToDate(s, c', id);
    }
  }

  lemma NotDueIsSeen(s: State, picks: Picks, seen: Seen, id: string)
    requires StoreOk(s) && id in s.snap && picks(s.snap[id])
    ensures s.snap[id].version >= 1
    ensures !Due(picks, seen, s.snap[id]) ==> id in seen && seen[id] >= s.snap[id].version
  {
    var e :| e in s.past && e.obj == s.snap[id];
    PastVersion(s.objs, s.past, e);
  }

  /** An object in the table at the snapshot's version, its last delta not lost, is at the client with
      that version's content. */
  lemma {:induction false} UpToDate(s: State, c: Client, id: string)
    requires StoreOk(s) && ClientOk(s.past, s.snap, c) && ShowsPast(s.past, ViewOf(Sent(c)))
    requires id in s.snap && id in c.seen && c.seen[id] >= s.snap[id].version && id !in c.missing
    ensures HoldsCopy(c, s.snap[id])
  {
    hide ViewOf, StreamOk, Sent, Highest, Snapshot, WireData, WireMeta, Chronicle;
    var v := ViewOf(Sent(c));
    var e :| e in s.past && e.obj == s.snap[id];
    assert AccountedAt(v, c.seen, c.missing, c.leaving, id);
    var f :| f in s.past && f.obj.id == id && v[id] == WireDiff(DiffOf(f.obj));
    OneContent(s.objs, s.past, e, f);
  }

  lemma PastVersion(objs: Objects, past: seq<ChangeEvent>, e: ChangeEvent)
    requires Chronicle(objs, past) && e in past
    ensures e.obj.version >= 1
  {
  }

  lemma OneContent(objs: Objects, past: seq<ChangeEvent>, e: ChangeEvent, f: ChangeEvent)
    requires Chronicle(objs, past) && e in past && f in past && e.obj.id == f.obj.id && e.obj.version == f.obj.version
    ensures e.obj == f.obj
  {
    hide Highest;
    var i :| 0 <= i < |past| && past[i] == e;
    var j :| 0 <= j < |past| && past[j] == f;
  }

  /** At all times, and after any number of messages read, each object a client holds is a version
      the store once held, and what it reads next never takes an object back. */
  lemma {:induction false} ClientsNeverGoBack(valid: Bytes -> bool, ls: seq<Label>, sid: string, n: nat, m: nat)
    requires sid in Run(valid, ls).clients && n <= m <= |Run(valid, ls).clients[sid].received|
    ensures var s, got := Run(valid, ls), Run(valid, ls).clients[sid].received;
            ShowsPast(s.past, ViewOf(got[..n])) && Advances(ViewOf(got[..n]), ViewOf(got[..m]))
  {
    RunKeeps(valid, ls);
    var s := Run(valid, ls);
    var c := s.clients[sid];
    assert c.received[..n] == Sent(c)[..n] && c.received[..m] == Sent(c)[..m];
    assert ClientOk(s.past, s.snap, c);
  }

  /** A lost message is not made up for: whatever its fate, the tick leaves nothing that it found to match
      due, for any tags, until an object is applied again. */
  lemma LostIsNotResent(valid: Bytes -> bool, ls: seq<Label>, sid: string, picks: Picks, o: Object)
    requires sid in Run(valid, ls).clients && o in Run(valid, ls).all && picks(o)
    ensures var s' := Next(valid, Run(valid, ls), TickSession(sid, picks));
            forall later: Picks :: !Due(later, s'.clients[sid].seen, o)
  {
    hide Run, SeenAfter, Chronicle, ClientOk, Told, TickedBy, Delivered;
    RunKeeps(valid, ls);
    var s := Run(valid, ls);
    var c := s.clients[sid];
    TickAll(picks, c.seen, s.all, s.snap, map[]);
  }

  // ---------------------------------------------------------------------------
  // One lost delta
  // ---------------------------------------------------------------------------

  /** A submitted object whose data is empty, which is not JSON. */
  const EMPTY := UpdateRequest("x", Some([]), 0, Some(["g"]), None)
  const STORED := Object("x", Some([]), 1, Some(["g"]), None)

  lemma Onward(valid: Bytes -> bool, ls: seq<Label>, k: nat)
    requires k < |ls|
    ensures Run(valid, ls[..k + 1]) == Next(valid, Run(valid, ls[..k]), ls[k])
  {
    assert ls[..k + 1][..k] == ls[..k];
  }

  /** The state of one client "s" over a store with that object. */
  ghost function Served1(c: Client, snap: Objects, all: seq<Object>): State {
    State(map["x" := STORED], [ChangeEvent(Created, STORED, 0)], snap, all, map["s" := c])
  }

  lemma OneTick(valid: Bytes -> bool, c: Client)
    requires !valid([]) && c.session.tags == {"g"} && c.seen == map[] && c.missing == {}
    ensures AfterTick(valid, [STORED], c, PicksOf({"g"})) == c.(seen := map["x" := 1], missing := {"x"})
  {
    var all := [STORED];
    assert all[..0] == [];
    assert HoldsAny(c.session.tags, ["g"]) by { assert ["g"][0] in c.session.tags; }
    assert Due(PicksOf({"g"}), c.seen, STORED);
    assert Diffs(PicksOf({"g"}), c.seen, all) == [DiffOf(STORED)] by {
      assert Diffs(PicksOf({"g"}), c.seen, all) == Diffs(PicksOf({"g"}), c.seen, []) + [DiffOf(STORED)];
    }
    assert !Encodable(valid, DiffOf(STORED));
    assert !AllEncodable(valid, [DiffOf(STORED)]) by { assert [DiffOf(STORED)][0] == DiffOf(STORED); }
    assert DueIds(PicksOf({"g"}), c.seen, all) == {"x"};
    assert SeenAfter(PicksOf({"g"}), c.seen, all) == map["x" := 1];
    assert !Delivered(valid, c, PicksOf({"g"}), all);
    assert c.missing + {"x"} == {"x"};
  }

  /** A delta is lost for good: an object whose data is not JSON spoils its message, the session stays
      without the object although it has its tag, and no later tick finds the object due. */
  lemma DeltaMayBeLost(valid: Bytes -> bool, ls: seq<Label>)
    requires !valid([]) && |ls| == 5 && ls[0] == Connect("s") && ls[1] == Subscribe("s", ["g"]) && ls[2] == Apply(EMPTY)
    requires ls[3] == TickStart([STORED]) && ls[4] == TickSession("s", PicksOf({"g"}))
    ensures var c := Client(SessionState({"g"}, [], false), [], map["x" := 1], {"x"}, false);
            && Run(valid, ls) == Served1(c, map["x" := STORED], [STORED])
            && Matches(c.session.tags, TagSeq(STORED.tags)) && !HoldsCopy(c, STORED)
            && (forall later: Picks :: !Due(later, c.seen, STORED))
  {
    var c := Client(SessionState({"g"}, [], false), [], map[], {}, false);
    BeforeTick(valid, ls, c);
    OneTick(valid, c);
    assert ls[..5] == ls;
    NotHeld(c.(seen := map["x" := 1], missing := {"x"}));
    hide Run, AfterTick, HoldsCopy, Matches, Due;
    Onward(valid, ls, 4);
  }

  lemma NotHeld(c: Client)
    requires c.session == SessionState({"g"}, [], false) && c.received == [] && c.seen == map["x" := 1]
    ensures Matches(c.session.tags, TagSeq(STORED.tags)) && !HoldsCopy(c, STORED)
    ensures forall later: Picks :: !Due(later, c.seen, STORED)
  {
    assert HoldsAny({"g"}, ["g"]) by { assert ["g"][0] in {"g"}; }
    assert Sent(c) == [];
  }

  lemma BeforeTick(valid: Bytes -> bool, ls: seq<Label>, c: Client)
    requires |ls| >= 4 && ls[0] == Connect("s") && ls[1] == Subscribe("s", ["g"]) && ls[2] == Apply(EMPTY)
    requires ls[3] == TickStart([STORED]) && c == Client(SessionState({"g"}, [], false), [], map[], {}, false)
    ensures Run(valid, ls[..4]) == Served1(c, map["x" := STORED], [STORED])
  {
    hide Run;
    Subscribed(valid, ls, c);
    Onward(valid, ls, 2);
    assert Run(valid, ls[..3]) == Served1(c, map[], []);
    Onward(valid, ls, 3);
  }

  lemma Subscribed(valid: Bytes -> bool, ls: seq<Label>, c: Client)
    requires |ls| >= 2 && ls[0] == Connect("s") && ls[1] == Subscribe("s", ["g"])
    requires c == Client(SessionState({"g"}, [], false), [], map[], {}, false)
    ensures Run(valid, ls[..2]) == State(map[], [], map[], [], map["s" := c])
  {
    assert Run(valid, ls[..0]) == State(map[], [], map[], [], map[]);
    hide Run;
    Onward(valid, ls, 0);
    Onward(valid, ls, 1);
    assert TagSet(["g"]) == {"g"} by { assert ["g"][0] == "g"; }
    assert {} + {"g"} == {"g"};
  }
}

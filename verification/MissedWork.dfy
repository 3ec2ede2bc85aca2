/** No missed work: with every lock-sized step of registry, broadcasts, subscriptions and listings
    interleaved at will, no session goes without notice of an available task it has a tag for. */
module MissedWork {
  import opened Base
  import opened Protocol
  import opened Sessions
  import opened Tasks

  // ---------------------------------------------------------------------------
  // The registry's lock sections
  // ---------------------------------------------------------------------------

  /** The tasks a bulk section is said to free, in the order in which it met them; any list for the others. */
  ghost predicate Lists(tab: Table, sec: Section, freed: seq<Task>) {
    match sec
    case ReleaseAll(owner) => ListsOwned(freed, tab, owner)
    case Sweep(now) => ListsLapsed(freed, tab, now)
    case _ => true
  }

  ghost predicate Announces(es: seq<Event>, t: Task) {
    exists i :: 0 <= i < |es| && es[i].Opened? && es[i].taskId == t.id && es[i].tags == t.tags
  }

  ghost predicate Truthful(es: seq<Event>, tab: Table) {
    forall i :: 0 <= i < |es| && es[i].Opened? ==> es[i].taskId in tab && es[i].tags == tab[es[i].taskId].tags
  }

  lemma {:induction false} BulkAnnounces(ts: seq<Task>, owner: string, tab: Table)
    requires forall t :: t in ts ==> t.id in tab && tab[t.id].tags == t.tags
    ensures forall t :: t in ts ==> Announces(DisconnectEvents(ts, owner), t) && Announces(SweepEvents(ts), t)
    ensures Truthful(DisconnectEvents(ts, owner), tab) && Truthful(SweepEvents(ts), tab)
  {
    if ts != [] {
      var init, last := ts[..|ts| - 1], ts[|ts| - 1];
      assert ts == init + [last];
      BulkAnnounces(init, owner, tab);
      hide DisconnectEvents, SweepEvents;
      TwoMore(DisconnectEvents(init, owner), OpenedEvent(last, "disconnected"), Lost(last.id, owner, "disconnected"),
              last, tab);
      TwoMore(SweepEvents(init), Lost(last.id, last.owner, "lease_expired"), OpenedEvent(last, "lease_expired"), last,
              tab);
      BulkSnoc(ts, owner);
    }
  }

  lemma BulkSnoc(ts: seq<Task>, owner: string)
    requires ts != []
    ensures var init, last := ts[..|ts| - 1], ts[|ts| - 1];
            && DisconnectEvents(ts, owner) == DisconnectEvents(init, owner)
                 + [OpenedEvent(last, "disconnected"), Lost(last.id, owner, "disconnected")]
            && SweepEvents(ts)
                 == SweepEvents(init) + [Lost(last.id, last.owner, "lease_expired"), OpenedEvent(last, "lease_expired")]
  {
  }

  lemma TwoMore(es: seq<Event>, a: Event, b: Event, last: Task, tab: Table)
    requires Truthful(es, tab) && last.id in tab && tab[last.id].tags == last.tags
    requires forall e | e in [a, b] :: e.Opened? ==> e.taskId == last.id && e.tags == last.tags
    requires a.Opened? || b.Opened?
    ensures Truthful(es + [a, b], tab) && Announces(es + [a, b], last)
    ensures forall t :: Announces(es, t) ==> Announces(es + [a, b], t)
  {
    var all := es + [a, b];
    assert a in [a, b] && b in [a, b];
    assert all[|es|] == a && all[|es| + 1] == b;
    forall t | Announces(es, t)
      ensures Announces(all, t)
    {
      var i :| 0 <= i < |es| && es[i].Opened? && es[i].taskId == t.id && es[i].tags == t.tags;
      assert all[i] == es[i];
    }
  }

  /** A task that is available after a lock section either was so before, or is announced by one
      of the events; and every announcement carries the task's tags. */
  lemma AvailabilityIsAnnounced(tab: Table, sec: Section, freed: seq<Task>)
    requires Consistent(tab) && Named(sec) && Lists(tab, sec, freed)
    ensures Consistent(After(tab, sec)) && tab.Keys <= After(tab, sec).Keys
    ensures forall id :: id in tab ==> After(tab, sec)[id].tags == tab[id].tags
    ensures Truthful(Fired(tab, sec, freed), After(tab, sec))
    ensures forall id :: id in After(tab, sec) && After(tab, sec)[id].status == Available ==>
              (id in tab && tab[id].status == Available) || Announces(Fired(tab, sec, freed), After(tab, sec)[id])
  {
    hide LeaseEnd, Lapsed, Agrees;
    SectionKeeps(tab, sec);
    var tab', es := After(tab, sec), Fired(tab, sec, freed);
    match sec {
      case ReleaseAll(owner) => BulkIsAnnounced(tab, tab', freed, owner);
      case Sweep(now) => BulkIsAnnounced(tab, tab', freed, "");
      case Add(id, _, _) => if id !in tab { assert es[0].Opened?; }
      case Release(id, owner) => if OwnerCheck(tab, id, owner).None? { assert es[0].Opened?; }
      case Begin(id, _, _, now, _) => if Enter(tab, id, now).Reopen? { assert es[1].Opened?; }
      case _ =>
    }
  }

  lemma BulkIsAnnounced(tab: Table, tab': Table, freed: seq<Task>, owner: string)
    requires Consistent(tab) && tab.Keys == tab'.Keys
    requires forall id :: id in tab ==> tab'[id].id == id && tab'[id].tags == tab[id].tags
    requires forall t :: t in freed ==> t.id in tab && tab[t.id] == t
    requires forall id :: id in tab && tab[id] !in freed ==> tab'[id] == tab[id]
    ensures forall id :: id in tab && tab'[id] != tab[id] ==>
              Announces(DisconnectEvents(freed, owner), tab'[id]) && Announces(SweepEvents(freed), tab'[id])
    ensures Truthful(DisconnectEvents(freed, owner), tab') && Truthful(SweepEvents(freed), tab')
  {
    hide DisconnectEvents, SweepEvents, Announces, Truthful;
    BulkAnnounces(freed, owner, tab');
    forall id | id in tab && tab'[id] != tab[id]
      ensures Announces(DisconnectEvents(freed, owner), tab'[id]) && Announces(SweepEvents(freed), tab'[id])
    {
      SameAnnouncement(DisconnectEvents(freed, owner), tab[id], tab'[id]);
      SameAnnouncement(SweepEvents(freed), tab[id], tab'[id]);
    }
  }

  lemma SameAnnouncement(es: seq<Event>, t: Task, u: Task)
    requires Announces(es, t) && t.id == u.id && t.tags == u.tags
    ensures Announces(es, u)
  {
  }

  // ---------------------------------------------------------------------------
  // The machine
  // ---------------------------------------------------------------------------

  /** A broadcast under way. Until `left` is set the manager's sessions have not been listed; then
      it holds, for each session still to be served, the tags still to be compared with its own. */
  datatype Cast = Cast(taskId: string, tags: seq<string>, hint: Bytes, left: Option<map<string, seq<string>>>)

  /** The rest of a subscription: the registry is still to be listed, or some tasks to be sent. */
  datatype Listing = Unread(filter: seq<string>) | Reading(left: seq<Task>)

  /** `told` pairs a session with each task it has been sent since the task last became available;
      `lost` pairs it with each task of which its full outbox has dropped a notice since then. */
  datatype State = State(tasks: Table, sessions: States, known: set<string>, casts: map<(nat, nat), Cast>, clock: nat,
                         listings: map<string, Listing>, told: set<(string, string)>, lost: set<(string, string)>)

  datatype Step =
    | Change(sec: Section, freed: seq<Task>)
    | Connect(sid: string)
    | Disconnect(sid: string)
    | Subscribe(sid: string, tags: seq<string>)
    | Unsubscribe(sid: string, tags: seq<string>)
    | ReadList(sid: string, listing: seq<Task>)
    | SendListed(sid: string)
    | SnapSessions(cast: (nat, nat))
    | TryTag(cast: (nat, nat), sid: string)
    | OtherMessage(sid: string, msg: Message)
    | Drain(sid: string)

  ghost predicate Enabled(s: State, step: Step) {
    match step
    case Change(sec, freed) => Named(sec) && Lists(s.tasks, sec, freed)
    case Connect(sid) => sid !in s.known
    case Disconnect(sid) => sid in s.sessions
    case Subscribe(sid, _) => sid in s.sessions && sid !in s.listings
    case Unsubscribe(sid, _) => sid in s.sessions && sid !in s.listings
    case ReadList(sid, listing) =>
      && sid in s.sessions && sid in s.listings && s.listings[sid].Unread?
      && (forall t :: t in listing <==> t.id in s.tasks && s.tasks[t.id] == t && Offered(t, s.listings[sid].filter))
    case SendListed(sid) => sid in s.sessions && sid in s.listings && s.listings[sid].Reading?
    case SnapSessions(k) => k in s.casts && s.casts[k].left.None?
    case TryTag(k, sid) => k in s.casts && s.casts[k].left.Some? && sid in s.casts[k].left.value
    case OtherMessage(sid, _) => sid in s.sessions
    case Drain(sid) => sid in s.sessions && s.sessions[sid].outbox != []
  }

  ghost function OpenedIds(es: seq<Event>): set<string> {
    set i | 0 <= i < |es| && es[i].Opened? :: es[i].taskId
  }

  /** The entries about tasks that have not just become available. */
  ghost function StillValid(pairs: set<(string, string)>, es: seq<Event>): set<(string, string)> {
    set p | p in pairs && p.1 !in OpenedIds(es)
  }

  ghost function CastsOf(es: seq<Event>, clock: nat): map<(nat, nat), Cast> {
    map k: (nat, nat) | k in (set i: nat | i < |es| && es[i].Opened? :: (clock, i)) ::
      Cast(es[k.1].taskId, es[k.1].tags, es[k.1].hint, None)
  }

  /** Sends a notice, keeping account of whether it was dropped. */
  ghost function Notified(s: State, sid: string, taskId: string, msg: Message): State {
    if sid !in s.sessions then s
    else
      var was := s.sessions[sid];
      var dropped := was.closed || |was.outbox| >= OUTBOX_SIZE;
      s.(sessions := s.sessions[sid := Push(was, msg)],
         told := if dropped then s.told else s.told + {(sid, taskId)},
         lost := if dropped then s.lost + {(sid, taskId)} else s.lost)
  }

  /** One comparison of a broadcast, or the end of it for one session. */
  ghost function Tried(s: State, k: (nat, nat), sid: string): State
    requires k in s.casts && s.casts[k].left.Some? && sid in s.casts[k].left.value
  {
    var c, left := s.casts[k], s.casts[k].left.value;
    var done := s.(casts := s.casts[k := c.(left := Some(left - {sid}))]);
    if c.tags == [] || (left[sid] != [] && sid in s.sessions && left[sid][0] in s.sessions[sid].tags) then
      Notified(done, sid, c.taskId, TaskAvailable(c.taskId, c.tags, c.hint))
    else if left[sid] == [] then done
    else s.(casts := s.casts[k := c.(left := Some(left[sid := left[sid][1..]]))])
  }

  ghost function Next(s: State, step: Step): State
    requires Enabled(s, step)
  {
    match step
    case Change(sec, freed) =>
      var es := Fired(s.tasks, sec, freed);
      s.(tasks := After(s.tasks, sec), casts := s.casts + CastsOf(es, s.clock), clock := s.clock + 1,
         told := StillValid(s.told, es), lost := StillValid(s.lost, es))
    case Connect(sid) => s.(sessions := s.sessions[sid := SessionState({}, [], false)], known := s.known + {sid})
    case Disconnect(sid) => s.(sessions := s.sessions - {sid}, listings := s.listings - {sid})
    case Subscribe(sid, tags) =>
      s.(sessions := s.sessions[sid := s.sessions[sid].(tags := s.sessions[sid].tags + TagSet(tags))],
         listings := s.listings[sid := Unread(tags)])
    case Unsubscribe(sid, tags) =>
      s.(sessions := s.sessions[sid := s.sessions[sid].(tags := s.sessions[sid].tags - TagSet(tags))])
    case ReadList(sid, listing) => s.(listings := s.listings[sid := Reading(listing)])
    case SendListed(sid) =>
      var left := s.listings[sid].left;
      if left == [] then s.(listings := s.listings - {sid})
      else Notified(s.(listings := s.listings[sid := Reading(left[1..])]), sid, left[0].id,
                    TaskAvailable(left[0].id, left[0].tags, left[0].hint))
    case SnapSessions(k) =>
      var left := map sid | sid in s.sessions :: s.casts[k].tags;
      s.(casts := s.casts[k := s.casts[k].(left := Some(left))])
    case TryTag(k, sid) => Tried(s, k, sid)
    case OtherMessage(sid, msg) => s.(sessions := SentTo(s.sessions, sid, msg))
    case Drain(sid) => s.(sessions := s.sessions[sid := s.sessions[sid].(outbox := s.sessions[sid].outbox[1..])])
  }

  const START := State(map[], map[], {}, map[], 0, map[], {}, {})

  ghost function Run(steps: seq<Step>): State {
    if steps == [] then START
    else
      var s := Run(steps[..|steps| - 1]);
      if Enabled(s, steps[|steps| - 1]) then Next(s, steps[|steps| - 1]) else s
  }

  // ---------------------------------------------------------------------------
  // The invariant
  // ---------------------------------------------------------------------------

  /** The broadcast will still compare tag `g` with those of the session. */
  predicate Awaits(c: Cast, sid: string, t: string, g: string) {
    c.taskId == t && (c.left.None? || (sid in c.left.value && g in c.left.value[sid]))
  }

  ghost predicate CastPending(s: State, sid: string, t: string, g: string) {
    exists k :: k in s.casts && Awaits(s.casts[k], sid, t, g)
  }

  predicate ListingPending(s: State, sid: string, t: string, g: string) {
    sid in s.listings &&
    match s.listings[sid]
    case Unread(filter) => g in filter
    case Reading(left) => exists i :: 0 <= i < |left| && left[i].id == t
  }

  ghost predicate Shares(s: State, sid: string, t: string, g: string) {
    && sid in s.sessions && g in s.sessions[sid].tags
    && t in s.tasks && s.tasks[t].status == Available && g in s.tasks[t].tags
  }

  ghost predicate Provided(s: State, sid: string, t: string, g: string) {
    (sid, t) in s.told || (sid, t) in s.lost || CastPending(s, sid, t, g) || ListingPending(s, sid, t, g)
  }

  ghost predicate CastsOk(casts: map<(nat, nat), Cast>, clock: nat, tab: Table) {
    forall k :: k in casts ==> k.0 < clock && casts[k].taskId in tab && casts[k].tags == tab[casts[k].taskId].tags
  }

  ghost predicate Sound(s: State) {
    Consistent(s.tasks) && CastsOk(s.casts, s.clock, s.tasks) && s.sessions.Keys <= s.known
      && s.listings.Keys <= s.sessions.Keys
  }

  ghost predicate Inv(s: State) {
    Sound(s) && forall sid, t, g :: Shares(s, sid, t, g) ==> Provided(s, sid, t, g)
  }

  lemma CastsOfAre(es: seq<Event>, clock: nat)
    ensures forall k :: k in CastsOf(es, clock) ==> k.0 == clock && k.1 < |es| && es[k.1].Opened?
    ensures forall k :: k in CastsOf(es, clock) ==>
              CastsOf(es, clock)[k] == Cast(es[k.1].taskId, es[k.1].tags, es[k.1].hint, None)
  {
  }

  lemma OpenedHasCast(es: seq<Event>, clock: nat, t: Task) returns (k: (nat, nat))
    requires Announces(es, t) || t.id in OpenedIds(es)
    ensures t.id in OpenedIds(es)
    ensures k in CastsOf(es, clock) && CastsOf(es, clock)[k].taskId == t.id
  {
    var i: nat :| i < |es| && es[i].Opened? && es[i].taskId == t.id;
    k := (clock, i);
  }

  lemma ChangeKeeps(s: State, sec: Section, freed: seq<Task>)
    requires Inv(s) && Enabled(s, Change(sec, freed))
    ensures Inv(Next(s, Change(sec, freed)))
  {
    hide After, Fired, Lists, CastsOf, Announces, Truthful, OpenedIds, ListingPending;
    var s', es := Next(s, Change(sec, freed)), Fired(s.tasks, sec, freed);
    AvailabilityIsAnnounced(s.tasks, sec, freed);
    CastsOfAre(es, s.clock);
    assert Sound(s') by { ChangeSound(s, sec, freed); }
    forall sid, t, g | Shares(s', sid, t, g)
      ensures Provided(s', sid, t, g)
    {
      if t in OpenedIds(es) || Announces(es, s'.tasks[t]) {
        var k := OpenedHasCast(es, s.clock, s'.tasks[t]);
        assert Awaits(s'.casts[k], sid, t, g);
      } else {
        assert Shares(s, sid, t, g);
        if CastPending(s, sid, t, g) {
          var k :| k in s.casts && Awaits(s.casts[k], sid, t, g);
          assert s'.casts[k] == s.casts[k];
        }
        assert ListingPending(s', sid, t, g) == ListingPending(s, sid, t, g) by { SameListing(s, s', sid, t, g); }
      }
    }
  }

  lemma SameListing(s: State, s': State, sid: string, t: string, g: string)
    requires sid in s.listings <==> sid in s'.listings
    requires sid in s.listings ==> s'.listings[sid] == s.listings[sid]
    ensures ListingPending(s', sid, t, g) == ListingPending(s, sid, t, g)
  {
  }

  lemma ChangeSound(s: State, sec: Section, freed: seq<Task>)
    requires Sound(s) && Enabled(s, Change(sec, freed))
    ensures Sound(Next(s, Change(sec, freed)))
  {
    hide After, Fired, Lists, CastsOf, OpenedIds;
    var s', es := Next(s, Change(sec, freed)), Fired(s.tasks, sec, freed);
    AvailabilityIsAnnounced(s.tasks, sec, freed);
    CastsOfAre(es, s.clock);
  }

  /** `s'` provides at least what `s` did, for the same sessions, tags and tasks. */
  lemma StillProvided(s: State, s': State)
    requires Inv(s) && Sound(s') && s'.tasks == s.tasks && s'.sessions.Keys == s.sessions.Keys
    requires forall sid :: sid in s.sessions ==> s'.sessions[sid].tags == s.sessions[sid].tags
    requires forall sid, t, g :: Shares(s, sid, t, g) && Provided(s, sid, t, g) ==> Provided(s', sid, t, g)
    ensures Inv(s')
  {
    hide Provided;
    forall sid, t, g | Shares(s', sid, t, g)
      ensures Provided(s', sid, t, g)
    {
      assert Shares(s, sid, t, g);
    }
  }

  lemma NotifiedKeeps(s: State, sid: string, t: string, msg: Message)
    requires Sound(s)
    ensures var s' := Notified(s, sid, t, msg);
            && Sound(s') && s'.tasks == s.tasks && s'.sessions.Keys == s.sessions.Keys
            && s'.casts == s.casts && s'.listings == s.listings && s.told <= s'.told && s.lost <= s'.lost
            && (forall p :: p in s.sessions ==> s'.sessions[p].tags == s.sessions[p].tags)
            && (sid in s.sessions ==> (sid, t) in s'.told || (sid, t) in s'.lost)
  {
    hide Consistent, CastsOk, Push;
    if sid in s.sessions {
      PushKeeps(s.sessions[sid], msg);
    }
  }

  lemma PushKeeps(s: SessionState, msg: Message)
    ensures Push(s, msg).tags == s.tags
  {
  }

  lemma SnapKeeps(s: State, k: (nat, nat))
    requires Inv(s) && Enabled(s, SnapSessions(k))
    ensures Inv(Next(s, SnapSessions(k)))
  {
    var s' := Next(s, SnapSessions(k));
    forall sid, t, g | Shares(s, sid, t, g) && Provided(s, sid, t, g)
      ensures Provided(s', sid, t, g)
    {
      if CastPending(s, sid, t, g) {
        var j :| j in s.casts && Awaits(s.casts[j], sid, t, g);
        assert Awaits(s'.casts[j], sid, t, g);
      }
      SameListing(s, s', sid, t, g);
    }
    StillProvided(s, s');
  }

  /** What a comparison took off the broadcast's list was either not the session's tag, or led to
      a notice. */
  lemma TryKeeps(s: State, k: (nat, nat), sid: string)
    requires Inv(s) && Enabled(s, TryTag(k, sid))
    ensures Inv(Next(s, TryTag(k, sid)))
  {
    hide Notified, ListingPending, Consistent, CastPending, CastsOk;
    var s' := Next(s, TryTag(k, sid));
    TriedSound(s, k, sid);
    forall p, t, g | Shares(s, p, t, g) && Provided(s, p, t, g)
      ensures Provided(s', p, t, g)
    {
      if CastPending(s, p, t, g) { TriedAwaits(s, k, sid, p, t, g); }
      SameListing(s, s', p, t, g);
    }
    StillProvided(s, s');
  }

  lemma {:induction false} TriedSound(s: State, k: (nat, nat), sid: string)
    requires Sound(s) && Enabled(s, TryTag(k, sid))
    ensures var s' := Next(s, TryTag(k, sid));
            && Sound(s') && s'.tasks == s.tasks && s'.sessions.Keys == s.sessions.Keys && s'.listings == s.listings
            && s.told <= s'.told && s.lost <= s'.lost
            && forall p :: p in s.sessions ==> s'.sessions[p].tags == s.sessions[p].tags
  {
    hide Notified, Consistent;
    var c, left := s.casts[k], s.casts[k].left.value;
    var done := s.(casts := s.casts[k := c.(left := Some(left - {sid}))]);
    NotifiedKeeps(done, sid, c.taskId, TaskAvailable(c.taskId, c.tags, c.hint));
  }

  /** The broadcast moves on by one comparison for one session, and is left alone otherwise. */
  lemma TriedCast(s: State, k: (nat, nat), sid: string)
    requires Sound(s) && Enabled(s, TryTag(k, sid))
    ensures var s', c, left := Next(s, TryTag(k, sid)), s.casts[k], s.casts[k].left.value;
            && s'.casts.Keys == s.casts.Keys && (forall j :: j in s.casts && j != k ==> s'.casts[j] == s.casts[j])
            && (var hit := c.tags == []
                 || (left[sid] != [] && sid in s.sessions && left[sid][0] in s.sessions[sid].tags);
                && s'.casts[k]
                     == c.(left := Some(if hit || left[sid] == [] then left - {sid} else left[sid := left[sid][1..]]))
                && (hit && sid in s.sessions ==> (sid, c.taskId) in s'.told || (sid, c.taskId) in s'.lost))
  {
    hide Notified, Consistent, CastsOk;
    var c, left := s.casts[k], s.casts[k].left.value;
    var done := s.(casts := s.casts[k := c.(left := Some(left - {sid}))]);
    assert Sound(done) by { TriedDone(s, k, done.casts[k]); }
    NotifiedKeeps(done, sid, c.taskId, TaskAvailable(c.taskId, c.tags, c.hint));
  }

  lemma TriedDone(s: State, k: (nat, nat), c: Cast)
    requires Sound(s) && k in s.casts && c.taskId == s.casts[k].taskId && c.tags == s.casts[k].tags
    ensures Sound(s.(casts := s.casts[k := c]))
  {
  }

  lemma TriedAwaits(s: State, k: (nat, nat), sid: string, p: string, t: string, g: string)
    requires Sound(s) && Enabled(s, TryTag(k, sid)) && Shares(s, p, t, g) && CastPending(s, p, t, g)
    ensures var s' := Next(s, TryTag(k, sid));
            CastPending(s', p, t, g) || (p, t) in s'.told || (p, t) in s'.lost
  {
    hide Next, Consistent;
    var s', c, left := Next(s, TryTag(k, sid)), s.casts[k], s.casts[k].left.value;
    TriedCast(s, k, sid);
    var j :| j in s.casts && Awaits(s.casts[j], p, t, g);
    if j != k || p != sid {
      assert Awaits(s'.casts[j], p, t, g);
    } else if !(c.tags == [] || left[sid][0] in s.sessions[sid].tags) {
      assert g in left[sid][1..];
      assert Awaits(s'.casts[k], p, t, g);
    }
  }

  lemma SendListedKeeps(s: State, sid: string)
    requires Inv(s) && Enabled(s, SendListed(sid))
    ensures Inv(Next(s, SendListed(sid)))
  {
    hide Notified, Awaits;
    var s', left := Next(s, SendListed(sid)), s.listings[sid].left;
    if left != [] {
      var fewer := s.(listings := s.listings[sid := Reading(left[1..])]);
      NotifiedKeeps(fewer, sid, left[0].id, TaskAvailable(left[0].id, left[0].tags, left[0].hint));
    }
    forall p, t, g | Shares(s, p, t, g) && Provided(s, p, t, g)
      ensures Provided(s', p, t, g)
    {
      assert CastPending(s', p, t, g) == CastPending(s, p, t, g);
      if p != sid {
        SameListing(s, s', p, t, g);
      } else if ListingPending(s, p, t, g) {
        var i :| 0 <= i < |left| && left[i].id == t;
        if i > 0 { assert left[1..][i - 1].id == t; }
      }
    }
    StillProvided(s, s');
  }

  /** Tags are set before the registry is listed: a new tag is covered by the listing to come. */
  lemma SubscribeKeeps(s: State, sid: string, tags: seq<string>)
    requires Inv(s) && Enabled(s, Subscribe(sid, tags))
    ensures Inv(Next(s, Subscribe(sid, tags)))
  {
    hide Awaits;
    var s' := Next(s, Subscribe(sid, tags));
    forall p, t, g | Shares(s', p, t, g)
      ensures Provided(s', p, t, g)
    {
      if Shares(s, p, t, g) {
        assert Provided(s, p, t, g);
        assert CastPending(s', p, t, g) == CastPending(s, p, t, g);
        if p != sid { SameListing(s, s', p, t, g); }
      } else {
        assert p == sid && g in tags;
      }
    }
  }

  /** What the listing finds is still to be sent; what it does not find is not available. */
  lemma ReadListKeeps(s: State, sid: string, listing: seq<Task>)
    requires Inv(s) && Enabled(s, ReadList(sid, listing))
    ensures Inv(Next(s, ReadList(sid, listing)))
  {
    hide Awaits;
    var s' := Next(s, ReadList(sid, listing));
    forall p, t, g | Shares(s, p, t, g) && Provided(s, p, t, g)
      ensures Provided(s', p, t, g)
    {
      assert CastPending(s', p, t, g) == CastPending(s, p, t, g);
      if p != sid {
        SameListing(s, s', p, t, g);
      } else if ListingPending(s, p, t, g) {
        ListedIsFound(s, sid, listing, t, g);
      }
    }
    StillProvided(s, s');
  }

  lemma ListedIsFound(s: State, sid: string, listing: seq<Task>, t: string, g: string)
    requires Sound(s) && Enabled(s, ReadList(sid, listing)) && Shares(s, sid, t, g) && g in s.listings[sid].filter
    ensures exists i :: 0 <= i < |listing| && listing[i].id == t
  {
    var task := s.tasks[t];
    var j :| 0 <= j < |task.tags| && task.tags[j] == g;
    assert TagsMeet(task.tags, s.listings[sid].filter);
    assert task in listing;
  }

  lemma StepKeeps(s: State, step: Step)
    requires Inv(s) && Enabled(s, step)
    ensures Inv(Next(s, step))
  {
    hide Provided, Shares;
    var s' := Next(s, step);
    match step {
      case Change(sec, freed) => ChangeKeeps(s, sec, freed);
      case Subscribe(sid, tags) => SubscribeKeeps(s, sid, tags);
      case ReadList(sid, listing) => ReadListKeeps(s, sid, listing);
      case SendListed(sid) => SendListedKeeps(s, sid);
      case SnapSessions(k) => SnapKeeps(s, k);
      case TryTag(k, sid) => TryKeeps(s, k, sid);
      case _ => FewerKeeps(s, step);
    }
  }

  /** The steps that only take tags, sessions or room away. */
  lemma FewerKeeps(s: State, step: Step)
    requires Inv(s) && Enabled(s, step)
    requires step.Connect? || step.Disconnect? || step.Unsubscribe? || step.OtherMessage? || step.Drain?
    ensures Inv(Next(s, step))
  {
    hide Awaits;
    var s' := Next(s, step);
    forall p, t, g | Shares(s', p, t, g)
      ensures Provided(s', p, t, g)
    {
      assert Shares(s, p, t, g);
      assert Provided(s, p, t, g);
      assert CastPending(s', p, t, g) == CastPending(s, p, t, g);
      SameListing(s, s', p, t, g);
    }
  }

  lemma {:induction false} RunKeeps(steps: seq<Step>)
    ensures Inv(Run(steps))
  {
    if steps != [] {
      hide Inv, Next;
      RunKeeps(steps[..|steps| - 1]);
      var s := Run(steps[..|steps| - 1]);
      if Enabled(s, steps[|steps| - 1]) {
        StepKeeps(s, steps[|steps| - 1]);
      }
    } else {
      StartKeeps();
    }
  }

  lemma StartKeeps()
    ensures Inv(START)
  {
  }

  // ---------------------------------------------------------------------------
  // Main results
  // ---------------------------------------------------------------------------

  /** For each live session, each available task and each tag they share, at any moment of any run:
      the session has been sent the task since it last became available, or a broadcast of it has
      yet to compare that tag, or the session's own listing has yet to reach it, or a notice of this
      very task has been dropped since then because the session's outbox was full. */
  lemma NoMissedWork(steps: seq<Step>, sid: string, t: string, g: string)
    requires Shares(Run(steps), sid, t, g)
    ensures var s := Run(steps);
            (sid, t) in s.told || (sid, t) in s.lost || CastPending(s, sid, t, g) || ListingPending(s, sid, t, g)
  {
    hide Run;
    RunKeeps(steps);
    assert Provided(Run(steps), sid, t, g);
  }

  /** What being told means: a pair enters the account only together with a notice of that task at
      the end of that session's outbox. */
  lemma ToldMeansSent(s: State, step: Step, sid: string, t: string)
    requires Enabled(s, step) && (sid, t) !in s.told && (sid, t) in Next(s, step).told
    ensures sid in s.sessions && sid in Next(s, step).sessions
    ensures exists tags, hint :: Next(s, step).sessions[sid].outbox
              == s.sessions[sid].outbox + [TaskAvailable(t, tags, hint)]
  {
    hide After, Fired, Lists;
    match step {
      case TryTag(k, p) =>
        var c := s.casts[k];
        assert Next(s, step).sessions[sid].outbox == s.sessions[sid].outbox + [TaskAvailable(t, c.tags, c.hint)];
      case SendListed(p) =>
        var task := s.listings[p].left[0];
        assert Next(s, step).sessions[sid].outbox == s.sessions[sid].outbox + [TaskAvailable(t, task.tags, task.hint)];
      case _ =>
    }
  }

  /** What a loss means: a pair enters that account only by a step that had a notice of that task
      for that session and found no room for it. */
  lemma LostMeansDropped(s: State, step: Step, sid: string, t: string)
    requires Enabled(s, step) && (sid, t) !in s.lost && (sid, t) in Next(s, step).lost
    ensures sid in s.sessions && sid in Next(s, step).sessions
    ensures s.sessions[sid].closed || |s.sessions[sid].outbox| >= OUTBOX_SIZE
    ensures Next(s, step).sessions[sid] == s.sessions[sid]
    ensures (step.TryTag? && s.casts[step.cast].taskId == t) || (step.SendListed? && s.listings[sid].left[0].id == t)
  {
    hide After, Fired, Lists;
  }

  /** Both accounts speak of the time since the task last became available: when it does, nobody
      has been told of it, and nobody has lost a notice of it. */
  lemma NobodyToldYet(s: State, sec: Section, freed: seq<Task>, sid: string, t: string)
    requires Consistent(s.tasks) && Enabled(s, Change(sec, freed))
    requires t in Next(s, Change(sec, freed)).tasks && Next(s, Change(sec, freed)).tasks[t].status == Available
    requires t in s.tasks ==> s.tasks[t].status != Available
    ensures (sid, t) !in Next(s, Change(sec, freed)).told && (sid, t) !in Next(s, Change(sec, freed)).lost
  {
    hide After, Fired, Lists;
    AvailabilityIsAnnounced(s.tasks, sec, freed);
    var k := OpenedHasCast(Fired(s.tasks, sec, freed), s.clock, After(s.tasks, sec)[t]);
  }

  /** No broadcast and no listing is under way. */
  ghost predicate Quiet(s: State) {
    && s.listings == map[]
    && forall k :: k in s.casts ==> s.casts[k].left == Some(map[])
  }

  /** So once everything has gone out, a session knows each of its available tasks of which no
      notice was dropped, whatever else it has lost. */
  lemma QuietMeansTold(steps: seq<Step>, sid: string, t: string, g: string)
    requires Quiet(Run(steps)) && Shares(Run(steps), sid, t, g) && (sid, t) !in Run(steps).lost
    ensures (sid, t) in Run(steps).told
  {
    hide Run, Shares;
    NoMissedWork(steps, sid, t, g);
  }
}

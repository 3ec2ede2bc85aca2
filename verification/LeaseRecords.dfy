/** The lease accounts when recording is a step of its own. A handler counts a claim, a release or an eviction
    after the registry has unlocked, so others come in between; what the accounts say then, exactly. */
module LeaseRecords {
  import opened Base
  import opened Metrics
  import opened LeaseAccounting
  import T = Tasks

  /** `pending` are the claims, releases and evictions that the registry has made and nobody has counted yet. */
  datatype State = State(tasks: T.Table, stats: Stats, pending: seq<Entry>)

  /** `Lock` is one lock section of the registry, with the order in which a bulk section met the tasks;
      `Report` counts something pending, whichever goroutine gets there first; `Count` is any other call of
      the recorder. */
  datatype Step =
    | Lock(sec: T.Section, order: seq<T.Task>)
    | Report(i: nat)
    | Count(entry: Entry)

  predicate IsGiveUp(e: Entry) {
    e.Released? || e.Evicted?
  }

  predicate IsLease(e: Entry) {
    e.Claimed? || IsGiveUp(e)
  }

  /** The server never marks a task completed. */
  ghost predicate Enabled(s: State, step: Step) {
    match step
    case Report(i) => i < |s.pending|
    case Count(e) => !IsLease(e)
    case Lock(sec, order) =>
      && T.Named(sec) && !sec.Complete?
      && (match sec
          case ReleaseAll(owner) => T.ListsOwned(order, s.tasks, owner)
          case Sweep(now) => T.ListsLapsed(order, s.tasks, now)
          case _ => order == [])
  }

  function Evictions(ts: seq<T.Task>): seq<Entry> {
    if ts == [] then [] else Evictions(ts[..|ts| - 1]) + [Evicted(ts[|ts| - 1].id, ts[|ts| - 1].owner)]
  }

  /** What a lock section leaves to be counted. */
  function Due(tab: T.Table, sec: T.Section, order: seq<T.Task>): seq<Entry> {
    match sec
    case Begin(id, owner, _, now, _) =>
      (match T.Enter(tab, id, now)
       case Refuse(_) => []
       case GrantNow => [Claimed(id, owner)]
       case Reopen(former) => [Evicted(id, former)])
    case Resume(id, owner, _, _) => if id in tab then [Claimed(id, owner)] else []
    case Release(id, owner) => if T.OwnerCheck(tab, id, owner).None? then [Released(id, owner)] else []
    case ReleaseAll(_) => Evictions(order)
    case Sweep(_) => Evictions(order)
    case _ => []
  }

  function Next(s: State, step: Step): State
    requires step.Report? ==> step.i < |s.pending|
  {
    match step
    case Lock(sec, order) => s.(tasks := T.After(s.tasks, sec), pending := s.pending + Due(s.tasks, sec, order))
    case Report(i) => s.(stats := Record(s.stats, s.pending[i]), pending := s.pending[..i] + s.pending[i + 1..])
    case Count(e) => s.(stats := Record(s.stats, e))
  }

  const START_RECORDS := State(map[], NO_STATS, [])

  /** The state after a run; a step that is not enabled changes nothing. */
  ghost function After(run: seq<Step>): State {
    if run == [] then START_RECORDS
    else
      var s := After(run[..|run| - 1]);
      if Enabled(s, run[|run| - 1]) then Next(s, run[|run| - 1]) else s
  }

  // ---------------------------------------------------------------------------
  // Counting
  // ---------------------------------------------------------------------------

  /** An account: all leases, those of one task, or those of one session. */
  datatype Account = All | Task(id: string) | Session(owner: string)

  predicate Concerns(a: Account, task: string, owner: string) {
    match a
    case All => true
    case Task(id) => task == id
    case Session(o) => owner == o
  }

  function ClaimsIn(es: seq<Entry>, a: Account): nat {
    if es == [] then 0
    else
      var e := es[|es| - 1];
      ClaimsIn(es[..|es| - 1], a) + if e.Claimed? && Concerns(a, e.task, e.owner) then 1 else 0
  }

  function GiveUpsIn(es: seq<Entry>, a: Account): nat {
    if es == [] then 0
    else
      var e := es[|es| - 1];
      GiveUpsIn(es[..|es| - 1], a) + if IsGiveUp(e) && Concerns(a, e.task, e.owner) then 1 else 0
  }

  lemma {:induction false} InConcat(es: seq<Entry>, fs: seq<Entry>, a: Account)
    ensures ClaimsIn(es + fs, a) == ClaimsIn(es, a) + ClaimsIn(fs, a)
    ensures GiveUpsIn(es + fs, a) == GiveUpsIn(es, a) + GiveUpsIn(fs, a)
  {
    if fs == [] {
      assert es + fs == es;
    } else {
      assert (es + fs)[..|es + fs| - 1] == es + fs[..|fs| - 1];
      InConcat(es, fs[..|fs| - 1], a);
    }
  }

  lemma InOne(e: Entry, a: Account)
    ensures ClaimsIn([e], a) == if e.Claimed? && Concerns(a, e.task, e.owner) then 1 else 0
    ensures GiveUpsIn([e], a) == if IsGiveUp(e) && Concerns(a, e.task, e.owner) then 1 else 0
  {
    assert [e][..0] == [];
  }

  lemma InWithout(es: seq<Entry>, i: nat, a: Account)
    requires i < |es|
    ensures ClaimsIn(es, a) == ClaimsIn(es[..i] + es[i + 1..], a) + ClaimsIn([es[i]], a)
    ensures GiveUpsIn(es, a) == GiveUpsIn(es[..i] + es[i + 1..], a) + GiveUpsIn([es[i]], a)
  {
    assert es == es[..i] + ([es[i]] + es[i + 1..]);
    InConcat(es[..i], [es[i]] + es[i + 1..], a);
    InConcat([es[i]], es[i + 1..], a);
    InConcat(es[..i], es[i + 1..], a);
  }

  /** The tasks now owned that an account concerns. */
  ghost function Held(own: Ownership, a: Account): set<string> {
    set id | id in own && Concerns(a, id, own[id])
  }

  /** Claims counted, and releases and evictions counted, in an account; a session's own account nets them as
      they are counted, and never falls below zero. */
  function Net(st: Stats, a: Account): int {
    match a
    case All => st.claims - st.releases - st.evictions
    case Task(id) => TaskOf(st, id).claims - TaskOf(st, id).releases - TaskOf(st, id).evictions
    case Session(o) => SessionOf(st, o).currentOwned
  }

  // ---------------------------------------------------------------------------
  // What puts an account out
  // ---------------------------------------------------------------------------

  /** A second lock section of `Acquire` that grants a task which somebody got in between. */
  predicate Overwrites(s: State, step: Step) {
    step.Lock? && step.sec.Resume? && step.sec.id in s.tasks && s.tasks[step.sec.id].status == T.Owned
  }

  /** How far one step puts an account out: a grant written over a lease nobody will give up, a session's
      give-up counted at zero, or its counters dropped with a count left in them. */
  function Slip(s: State, step: Step, a: Account): int {
    match step
    case Lock(_, _) => if Overwrites(s, step) && Concerns(a, step.sec.id, s.tasks[step.sec.id].owner) then 1 else 0
    case Report(i) =>
      if i < |s.pending| && IsGiveUp(s.pending[i]) && a == Session(s.pending[i].owner) && Net(s.stats, a) == 0 then 1
      else 0
    case Count(e) => if e.Disconnected? && a == Session(e.session) then -Net(s.stats, a) else 0
  }

  ghost function Slips(run: seq<Step>, a: Account): int {
    if run == [] then 0
    else
      var s, step := After(run[..|run| - 1]), run[|run| - 1];
      Slips(run[..|run| - 1], a) + if Enabled(s, step) then Slip(s, step, a) else 0
  }

  /** What is counted, with what is still to be counted, is what is held, but for what has slipped. */
  ghost predicate Tallies(s: State, a: Account, slips: int) {
    Net(s.stats, a) + ClaimsIn(s.pending, a) - GiveUpsIn(s.pending, a) == |Held(OwnersOf(s.tasks), a)| + slips
  }

  // ---------------------------------------------------------------------------
  // Each step
  // ---------------------------------------------------------------------------

  lemma HeldAfterGiveUp(own: Ownership, id: string, a: Account)
    requires id in own
    ensures |Held(own - {id}, a)| + (if Concerns(a, id, own[id]) then 1 else 0) == |Held(own, a)|
  {
    hide Concerns;
    if Concerns(a, id, own[id]) {
      assert id in Held(own, a);
      assert Held(own - {id}, a) == Held(own, a) - {id};
    } else {
      assert Held(own - {id}, a) == Held(own, a);
    }
  }

  lemma HeldAfterClaim(own: Ownership, id: string, owner: string, a: Account)
    requires id !in own
    ensures |Held(own[id := owner], a)| == |Held(own, a)| + if Concerns(a, id, owner) then 1 else 0
  {
    HeldAfterGiveUp(own[id := owner], id, a);
    assert own[id := owner] - {id} == own;
  }

  lemma HeldAfterGrant(own: Ownership, id: string, owner: string, a: Account)
    ensures var before := if id in own && Concerns(a, id, own[id]) then 1 else 0;
            |Held(own[id := owner], a)| == |Held(own, a)| - before + if Concerns(a, id, owner) then 1 else 0
  {
    if id in own {
      HeldAfterGiveUp(own, id, a);
      HeldAfterClaim(own - {id}, id, owner, a);
      assert (own - {id})[id := owner] == own[id := owner];
    } else {
      HeldAfterClaim(own, id, owner, a);
    }
  }

  lemma {:induction false} HeldAfterEvictions(ts: seq<T.Task>, own: Ownership, a: Account)
    requires Reportable(ts, own)
    ensures |Held(own - Ids(ts), a)| + GiveUpsIn(Evictions(ts), a) == |Held(own, a)|
    ensures ClaimsIn(Evictions(ts), a) == 0
    decreases |ts|
  {
    if ts == [] {
      assert own - Ids(ts) == own;
    } else {
      var init, t := ts[..|ts| - 1], ts[|ts| - 1];
      IdsSnoc(ts, own);
      HeldAfterEvictions(init, own, a);
      HeldAfterGiveUp(own - Ids(init), t.id, a);
      InConcat(Evictions(init), [Evicted(t.id, t.owner)], a);
      InOne(Evicted(t.id, t.owner), a);
    }
  }

  lemma GrantOwners(tab: T.Table, id: string, owner: string, until: nat)
    requires T.Consistent(tab) && id in tab
    ensures OwnersOf(tab[id := T.Granted(tab[id], owner, until)]) == OwnersOf(tab)[id := owner]
    ensures id in OwnersOf(tab) <==> tab[id].status == T.Owned
    ensures tab[id].status == T.Owned ==> OwnersOf(tab)[id] == tab[id].owner
  {
  }

  lemma FreeOwners(tab: T.Table, id: string)
    requires T.Consistent(tab) && id in tab && tab[id].status == T.Owned
    ensures id in OwnersOf(tab) && OwnersOf(tab)[id] == tab[id].owner
    ensures OwnersOf(tab[id := T.Freed(tab[id])]) == OwnersOf(tab) - {id}
  {
  }

  /** A section that leaves one thing to be counted, or nothing. */
  lemma SmallSection(s: State, sec: T.Section, a: Account, slips: int)
    requires T.Consistent(s.tasks) && Tallies(s, a, slips) && Enabled(s, Lock(sec, []))
    requires !sec.ReleaseAll? && !sec.Sweep?
    ensures Tallies(Next(s, Lock(sec, [])), a, slips + Slip(s, Lock(sec, []), a))
  {
    hide Held, OwnersOf, ClaimsIn, GiveUpsIn, T.LeaseEnd, T.Lapsed, T.Granted, T.Freed;
    var tab, due := s.tasks, Due(s.tasks, sec, []);
    InConcat(s.pending, due, a);
    if due != [] {
      assert due == [due[0]];
      InOne(due[0], a);
    } else {
      assert s.pending + due == s.pending;
    }
    match sec {
      case Add(id, tags, hint) =>
        if id !in tab { AddOwners(tab, id, tags, hint); }
      case Begin(id, owner, duration, now, later) =>
        if T.Enter(tab, id, now).GrantNow? {
          GrantOwners(tab, id, owner, T.LeaseEnd(later, duration));
          HeldAfterGrant(OwnersOf(tab), id, owner, a);
        } else if T.Enter(tab, id, now).Reopen? {
          FreeOwners(tab, id);
          HeldAfterGiveUp(OwnersOf(tab), id, a);
        }
      case Resume(id, owner, duration, later) =>
        if id in tab {
          GrantOwners(tab, id, owner, T.LeaseEnd(later, duration));
          HeldAfterGrant(OwnersOf(tab), id, owner, a);
        }
      case Release(id, owner) =>
        if T.OwnerCheck(tab, id, owner).None? {
          FreeOwners(tab, id);
          HeldAfterGiveUp(OwnersOf(tab), id, a);
        }
    }
  }

  lemma AddOwners(tab: T.Table, id: string, tags: seq<string>, hint: Bytes)
    requires id !in tab
    ensures OwnersOf(tab[id := T.Task(id, tags, hint, T.Available, "", None)]) == OwnersOf(tab)
  {
  }

  lemma BulkSection(s: State, sec: T.Section, order: seq<T.Task>, a: Account, slips: int)
    requires T.Consistent(s.tasks) && Tallies(s, a, slips) && Enabled(s, Lock(sec, order))
    requires sec.ReleaseAll? || sec.Sweep?
    ensures Tallies(Next(s, Lock(sec, order)), a, slips + Slip(s, Lock(sec, order), a))
  {
    hide Held, OwnersOf, ClaimsIn, GiveUpsIn, T.ListsOwned, T.ListsLapsed, T.ReleasedBy, T.SweptAt, T.Consistent;
    InConcat(s.pending, Evictions(order), a);
    match sec {
      case ReleaseAll(owner) => OwnedReportable(order, s.tasks, owner);
      case Sweep(now) => LapsedReportable(order, s.tasks, now);
    }
    HeldAfterEvictions(order, OwnersOf(s.tasks), a);
  }

  lemma ReportTallies(s: State, i: nat, a: Account, slips: int)
    requires Tallies(s, a, slips) && Enabled(s, Report(i)) && IsLease(s.pending[i])
    ensures Tallies(Next(s, Report(i)), a, slips + Slip(s, Report(i), a))
  {
    hide Held, OwnersOf, ClaimsIn, GiveUpsIn;
    InWithout(s.pending, i, a);
    InOne(s.pending[i], a);
  }

  lemma CountTallies(s: State, e: Entry, a: Account, slips: int)
    requires Tallies(s, a, slips) && Enabled(s, Count(e))
    ensures Tallies(Next(s, Count(e)), a, slips + Slip(s, Count(e), a))
  {
    hide Held, OwnersOf, ClaimsIn, GiveUpsIn;
  }

  ghost predicate OnlyLeases(es: seq<Entry>) {
    forall i :: 0 <= i < |es| ==> IsLease(es[i])
  }

  lemma {:induction false} EvictionsAreLeases(ts: seq<T.Task>)
    ensures OnlyLeases(Evictions(ts))
  {
    if ts != [] { EvictionsAreLeases(ts[..|ts| - 1]); }
  }

  lemma StepTallies(s: State, step: Step, a: Account, slips: int)
    requires T.Consistent(s.tasks) && OnlyLeases(s.pending) && Tallies(s, a, slips) && Enabled(s, step)
    ensures T.Consistent(Next(s, step).tasks) && OnlyLeases(Next(s, step).pending)
    ensures Tallies(Next(s, step), a, slips + Slip(s, step, a))
  {
    hide Tallies, Slip, T.Consistent;
    match step {
      case Lock(sec, order) =>
        T.SectionKeeps(s.tasks, sec);
        EvictionsAreLeases(order);
        if sec.ReleaseAll? || sec.Sweep? {
          BulkSection(s, sec, order, a, slips);
        } else {
          SmallSection(s, sec, a, slips);
        }
      case Report(i) => ReportTallies(s, i, a, slips);
      case Count(e) => CountTallies(s, e, a, slips);
    }
  }

  /** In every interleaving of lock sections and counting, for all leases, for each task and for each session:
      what is counted, with what is still to be counted, is what is held, up to what has slipped. */
  lemma {:induction false} AccountsTally(run: seq<Step>, a: Account)
    ensures T.Consistent(After(run).tasks) && OnlyLeases(After(run).pending)
    ensures Tallies(After(run), a, Slips(run, a))
  {
    hide Tallies, Slip, Next, Enabled;
    if run == [] {
      NothingTallies(a);
    } else {
      var s, step := After(run[..|run| - 1]), run[|run| - 1];
      AccountsTally(run[..|run| - 1], a);
      if Enabled(s, step) { StepTallies(s, step, a, Slips(run[..|run| - 1], a)); }
    }
  }

  lemma NothingTallies(a: Account)
    ensures T.Consistent(START_RECORDS.tasks) && Tallies(START_RECORDS, a, 0)
  {
    assert OwnersOf(map[]) == map[];
    assert Held(map[], a) == {};
  }

  // ---------------------------------------------------------------------------
  // The theorems
  // ---------------------------------------------------------------------------

  /** Which accounts balance. Once all is counted, an account equals what is held exactly when its slips cancel
      out. The totals and the tasks' accounts slip only by overwritten grants, so they balance exactly when there
      was none; only a session's account can slip otherwise. */
  lemma {:induction false} BalancedExactly(run: seq<Step>, a: Account)
    requires After(run).pending == []
    ensures var s := After(run);
            && (Net(s.stats, a) == |Held(OwnersOf(s.tasks), a)| <==> Slips(run, a) == 0)
            && (!a.Session? ==> (Slips(run, a) == 0 <==> NoneOverwritten(run, a)))
  {
    hide Held, OwnersOf, After, Slips, NoneOverwritten;
    AccountsTally(run, a);
    if !a.Session? { SlipsAreOverwrites(run, a); }
  }

  ghost predicate NoneOverwritten(run: seq<Step>, a: Account) {
    run == [] ||
    var s, step := After(run[..|run| - 1]), run[|run| - 1];
    && NoneOverwritten(run[..|run| - 1], a)
    && !(Enabled(s, step) && Overwrites(s, step) && Concerns(a, step.sec.id, s.tasks[step.sec.id].owner))
  }

  lemma {:induction false} SlipsAreOverwrites(run: seq<Step>, a: Account)
    requires !a.Session?
    ensures Slips(run, a) >= 0 && (Slips(run, a) == 0 <==> NoneOverwritten(run, a))
  {
    hide After, Enabled, Concerns;
    if run != [] {
      SlipsAreOverwrites(run[..|run| - 1], a);
    }
  }

  // ---------------------------------------------------------------------------
  // A count that stays for good
  // ---------------------------------------------------------------------------

  /** Nothing of this session is counted. */
  predicate LeavesAlone(s: State, step: Step, o: string) {
    match step
    case Lock(_, _) => true
    case Report(i) => i < |s.pending| && IsLease(s.pending[i]) ==> s.pending[i].owner != o
    case Count(e) =>
      match e
      case Registered(_) => true
      case Connected(sid) => sid != o
      case Disconnected(sid) => sid != o
      case Completed(_, owner) => owner != o
      case Rejected(_, owner) => owner != o
      case _ => true
  }

  lemma CountStays(s: State, step: Step, o: string)
    requires Enabled(s, step) && OnlyLeases(s.pending) && LeavesAlone(s, step, o)
    ensures SessionOf(Next(s, step).stats, o) == SessionOf(s.stats, o)
  {
  }

  ghost predicate LeftAlone(run: seq<Step>, more: seq<Step>, o: string) {
    more == [] ||
    var init := more[..|more| - 1];
    LeftAlone(run, init, o) && (Enabled(After(run + init), more[|more| - 1]) ==>
                                  LeavesAlone(After(run + init), more[|more| - 1], o))
  }

  /** However a run goes on, a session's counters stay as they are as long as nothing of it is counted. */
  lemma {:induction false} CountStaysForGood(run: seq<Step>, more: seq<Step>, o: string)
    requires LeftAlone(run, more, o)
    ensures SessionOf(After(run + more).stats, o) == SessionOf(After(run).stats, o)
  {
    hide Enabled, Next, LeavesAlone, SessionOf;
    if more == [] {
      assert run + more == run;
    } else {
      var init, all := more[..|more| - 1], run + more;
      assert all[..|all| - 1] == run + init;
      CountStaysForGood(run, init, o);
      AccountsTally(run + init, All);
      if Enabled(After(run + init), more[|more| - 1]) { CountStays(After(run + init), more[|more| - 1], o); }
    }
  }

  function LateClaim(id: string, sid: string, now: nat): seq<Step> {
    [ Count(Connected(sid)),
      Lock(T.Add(id, [], []), []),
      Lock(T.Begin(id, sid, 0, now, now), []),
      Lock(T.ReleaseAll(sid), [Leased(id, sid, now)]),
      Report(1),
      Count(Disconnected(sid)),
      Report(0) ]
  }

  function Free(id: string): T.Task {
    T.Task(id, [], [], T.Available, "", None)
  }

  function Leased(id: string, sid: string, now: nat): T.Task {
    T.Task(id, [], [], T.Owned, sid, Some(now + T.DEFAULT_LEASE))
  }

  /** The states of that run. */
  function LateStates(id: string, sid: string, now: nat): seq<State> {
    var st0 := Record(NO_STATS, Connected(sid));
    var st1 := Record(st0, Evicted(id, sid));
    var st2 := Record(st1, Disconnected(sid));
    [ START_RECORDS,
      State(map[], st0, []),
      State(map[id := Free(id)], st0, []),
      State(map[id := Leased(id, sid, now)], st0, [Claimed(id, sid)]),
      State(map[id := Free(id)], st0, [Claimed(id, sid), Evicted(id, sid)]),
      State(map[id := Free(id)], st1, [Claimed(id, sid)]),
      State(map[id := Free(id)], st2, [Claimed(id, sid)]),
      State(map[id := Free(id)], Record(st2, Claimed(id, sid)), []) ]
  }

  /** Each of its steps is enabled and leads on; only counting the eviction makes an account slip. */
  ghost predicate LeadsOn(id: string, sid: string, now: nat, k: nat, a: Account)
    requires k < 7
  {
    var s, t, step := LateStates(id, sid, now)[k], LateStates(id, sid, now)[k + 1], LateClaim(id, sid, now)[k];
    Enabled(s, step) && Next(s, step) == t && Slip(s, step, a) == if k == 4 && a == Session(sid) then 1 else 0
  }

  lemma LateLocks(id: string, sid: string, now: nat, k: nat, a: Account)
    requires sid != "" && 1 <= k < 4
    ensures LeadsOn(id, sid, now, k, a)
  {
    hide Record;
    if k == 3 {
      hide T.ReleasedBy, T.ListsOwned;
      ReleasedSection(id, sid, Leased(id, sid, now), Free(id));
      assert Evictions([Leased(id, sid, now)]) == [] + [Evicted(id, sid)];
    }
  }

  lemma LateReports(id: string, sid: string, now: nat, k: nat, a: Account)
    requires k == 4 || k == 6
    ensures LeadsOn(id, sid, now, k, a)
  {
    var st := Record(NO_STATS, Connected(sid));
    assert SessionOf(st, sid) == NO_SESSION;
    hide Record;
  }

  lemma LateCounts(id: string, sid: string, now: nat, k: nat, a: Account)
    requires k == 0 || k == 5
    ensures LeadsOn(id, sid, now, k, a)
  {
    var st := Record(Record(NO_STATS, Connected(sid)), Evicted(id, sid));
    assert SessionOf(st, sid).currentOwned == 0;
    hide Record;
  }

  lemma LateStep(id: string, sid: string, now: nat, k: nat, a: Account)
    requires sid != "" && k < 7
    ensures LeadsOn(id, sid, now, k, a)
  {
    hide LeadsOn;
    if 1 <= k < 4 {
      LateLocks(id, sid, now, k, a);
    } else if k == 4 || k == 6 {
      LateReports(id, sid, now, k, a);
    } else {
      LateCounts(id, sid, now, k, a);
    }
  }

  lemma ReleasedSection(id: string, sid: string, held: T.Task, free: T.Task)
    requires held.id == id && T.OwnedBy(held, sid) && free == T.Freed(held)
    ensures T.ListsOwned([held], map[id := held], sid)
    ensures T.ReleasedBy(map[id := held], sid) == map[id := free]
  {
    assert held in [held];
  }

  lemma {:induction false} LateRun(id: string, sid: string, now: nat, k: nat, a: Account)
    requires sid != "" && k <= 7
    ensures After(LateClaim(id, sid, now)[..k]) == LateStates(id, sid, now)[k]
    ensures Slips(LateClaim(id, sid, now)[..k], a) == if k > 4 && a == Session(sid) then 1 else 0
    decreases k
  {
    hide LateClaim, LateStates, Enabled, Next, Slip;
    var run := LateClaim(id, sid, now);
    LateLengths(id, sid, now);
    if k > 0 {
      LateRun(id, sid, now, k - 1, a);
      LateStep(id, sid, now, k - 1, a);
      assert run[..k][..k - 1] == run[..k - 1];
    }
  }

  lemma LateLengths(id: string, sid: string, now: nat)
    ensures |LateClaim(id, sid, now)| == 7 && |LateStates(id, sid, now)| == 8
    ensures LateStates(id, sid, now)[0] == START_RECORDS
  {
  }

  /** Over UDP a session may be removed between a grant and its count. The release of its tasks is then counted
      first, at zero; its counters go; and the claim, counted last, creates them anew with a count of 1.
      All is counted and nothing is held, and (`CountStaysForGood`) the count stays. */
  lemma {:induction false} ClaimOutlivesSession(id: string, sid: string, now: nat)
    requires sid != ""
    ensures var run := LateClaim(id, sid, now);
            && (forall i :: 0 <= i < |run| ==> Enabled(After(run[..i]), run[i]))
            && After(run).pending == [] && OwnersOf(After(run).tasks) == map[]
            && SessionOf(After(run).stats, sid).currentOwned == 1
            && Slips(run, Session(sid)) == 1 && Slips(run, All) == 0 && Slips(run, Task(id)) == 0
  {
    hide Enabled, After, Slips;
    var run := LateClaim(id, sid, now);
    forall i | 0 <= i < |run|
      ensures Enabled(After(run[..i]), run[i])
    {
      LateRun(id, sid, now, i, All);
      LateStep(id, sid, now, i, All);
    }
    LateRun(id, sid, now, 7, Session(sid));
    LateRun(id, sid, now, 7, All);
    LateRun(id, sid, now, 7, Task(id));
    assert run[..7] == run;
    assert OwnersOf(map[id := Free(id)]) == map[];
  }
}

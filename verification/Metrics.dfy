/** The counters of internal/metrics/metrics.go. */
module Metrics {
  import opened Base

  /** `inFlight` are the owners whose claim has been neither completed, rejected nor given up. */
  datatype TaskStats = TaskStats(claims: nat, completions: nat, rejections: nat, evictions: nat, releases: nat,
                                 inFlight: set<string>)

  datatype SessionStats = SessionStats(claims: nat, completions: nat, rejections: nat, evictions: nat,
                                       currentOwned: nat)

  datatype Stats = Stats(claims: nat, completions: nat, rejections: nat, evictions: nat, releases: nat,
                         tasks: map<string, TaskStats>, sessions: map<string, SessionStats>)

  const NO_TASK := TaskStats(0, 0, 0, 0, 0, {})
  const NO_SESSION := SessionStats(0, 0, 0, 0, 0)
  const NO_STATS := Stats(0, 0, 0, 0, 0, map[], map[])

  /** One call of the recorder. */
  datatype Entry =
    | Registered(task: string)
    | Claimed(task: string, owner: string)
    | Completed(task: string, owner: string)
    | Rejected(task: string, owner: string)
    | Released(task: string, owner: string)
    | Evicted(task: string, owner: string)
    | Connected(session: string)
    | Disconnected(session: string)

  function TaskOf(st: Stats, id: string): TaskStats {
    if id in st.tasks then st.tasks[id] else NO_TASK
  }

  function SessionOf(st: Stats, id: string): SessionStats {
    if id in st.sessions then st.sessions[id] else NO_SESSION
  }

  /** The saturating decrement of `CurrentOwned`. */
  function OneLess(n: nat): nat {
    if n > 0 then n - 1 else 0
  }

  function Record(st: Stats, e: Entry): Stats {
    match e
    case Registered(t) => st.(tasks := st.tasks[t := TaskOf(st, t)])
    case Claimed(t, o) =>
      var ts, ss := TaskOf(st, t), SessionOf(st, o);
      st.(claims := st.claims + 1,
          tasks := st.tasks[t := ts.(claims := ts.claims + 1, inFlight := ts.inFlight + {o})],
          sessions := st.sessions[o := ss.(claims := ss.claims + 1, currentOwned := ss.currentOwned + 1)])
    case Completed(t, o) =>
      var ts, ss := TaskOf(st, t), SessionOf(st, o);
      st.(completions := st.completions + 1,
          tasks := st.tasks[t := ts.(completions := ts.completions + 1, inFlight := ts.inFlight - {o})],
          sessions := st.sessions[o := ss.(completions := ss.completions + 1)])
    case Rejected(t, o) =>
      var ts, ss := TaskOf(st, t), SessionOf(st, o);
      st.(rejections := st.rejections + 1,
          tasks := st.tasks[t := ts.(rejections := ts.rejections + 1, inFlight := ts.inFlight - {o})],
          sessions := st.sessions[o := ss.(rejections := ss.rejections + 1)])
    case Released(t, o) =>
      var ts, ss := TaskOf(st, t), SessionOf(st, o);
      st.(releases := st.releases + 1,
          tasks := st.tasks[t := ts.(releases := ts.releases + 1, inFlight := ts.inFlight - {o})],
          sessions := st.sessions[o := ss.(currentOwned := OneLess(ss.currentOwned))])
    case Evicted(t, o) =>
      var ts, ss := TaskOf(st, t), SessionOf(st, o);
      st.(evictions := st.evictions + 1,
          tasks := st.tasks[t := ts.(evictions := ts.evictions + 1, inFlight := ts.inFlight - {o})],
          sessions := st.sessions[o := ss.(evictions := ss.evictions + 1, currentOwned := OneLess(ss.currentOwned))])
    case Connected(s) => st.(sessions := st.sessions[s := SessionOf(st, s)])
    case Disconnected(s) => st.(sessions := st.sessions - {s})
  }

  /** A disabled recorder counts nothing. */
  function Note(enabled: bool, st: Stats, e: Entry): Stats {
    if enabled then Record(st, e) else st
  }

  /** One more of each counter that is 1 here, in the totals and for the task; no other task is touched. */
  ghost predicate Grows(was: Stats, now: Stats, task: string, claims: nat, completions: nat, rejections: nat,
                        evictions: nat, releases: nat)
  {
    var before, after := TaskOf(was, task), TaskOf(now, task);
    && now.claims == was.claims + claims && after.claims == before.claims + claims
    && now.completions == was.completions + completions && after.completions == before.completions + completions
    && now.rejections == was.rejections + rejections && after.rejections == before.rejections + rejections
    && now.evictions == was.evictions + evictions && after.evictions == before.evictions + evictions
    && now.releases == was.releases + releases && after.releases == before.releases + releases
    && (forall t :: t != task ==> TaskOf(now, t) == TaskOf(was, t))
  }

  /** This session's counters are now these, and no other session is touched. */
  ghost predicate Stands(was: Stats, now: Stats, owner: string, ss: SessionStats) {
    SessionOf(now, owner) == ss && forall o :: o != owner ==> SessionOf(now, o) == SessionOf(was, o)
  }

  lemma RecordGrows(st: Stats, e: Entry)
    ensures var now := Record(st, e);
            match e
            case Claimed(t, o) => Grows(st, now, t, 1, 0, 0, 0, 0)
            case Completed(t, o) => Grows(st, now, t, 0, 1, 0, 0, 0)
            case Rejected(t, o) => Grows(st, now, t, 0, 0, 1, 0, 0)
            case Evicted(t, o) => Grows(st, now, t, 0, 0, 0, 1, 0)
            case Released(t, o) => Grows(st, now, t, 0, 0, 0, 0, 1)
            case Registered(t) => Grows(st, now, t, 0, 0, 0, 0, 0)
            case _ => true
  {
  }

  class Recorder {
    const enabled: bool
    var claims: nat
    var completions: nat
    var rejections: nat
    var evictions: nat
    var releases: nat
    var tasks: map<string, TaskStats>
    var sessions: map<string, SessionStats>

    constructor (enabled: bool)
      ensures this.enabled == enabled && View() == NO_STATS
    {
      this.enabled := enabled;
      claims, completions, rejections, evictions, releases := 0, 0, 0, 0, 0;
      tasks, sessions := map[], map[];
    }

    function View(): Stats
      reads this
    {
      Stats(claims, completions, rejections, evictions, releases, tasks, sessions)
    }

    method GetOrCreateTask(id: string) returns (ts: TaskStats)
      modifies this`tasks
      ensures ts == TaskOf(old(View()), id)
      ensures tasks == old(tasks)[id := ts]
    {
      if id !in tasks {
        tasks := tasks[id := NO_TASK];
      }
      return tasks[id];
    }

    method GetOrCreateSession(id: string) returns (ss: SessionStats)
      modifies this`sessions
      ensures ss == SessionOf(old(View()), id)
      ensures sessions == old(sessions)[id := ss]
    {
      if id !in sessions {
        sessions := sessions[id := NO_SESSION];
      }
      return sessions[id];
    }

    method TaskRegistered(task: string)
      modifies this
      ensures View() == Note(enabled, old(View()), Registered(task))
      ensures !enabled ==> View() == old(View())
      ensures enabled ==> task in tasks && sessions == old(sessions)
      ensures enabled ==> Grows(old(View()), View(), task, 0, 0, 0, 0, 0)
      ensures enabled ==> TaskOf(View(), task) == TaskOf(old(View()), task)
    {
      hide Grows;
      RecordGrows(View(), Registered(task));
      if !enabled { return; }
      var _ := GetOrCreateTask(task);
    }

    method TaskClaimed(task: string, owner: string)
      modifies this
      ensures View() == Note(enabled, old(View()), Claimed(task, owner))
      ensures !enabled ==> View() == old(View())
      ensures enabled ==> Grows(old(View()), View(), task, 1, 0, 0, 0, 0)
      ensures enabled ==> TaskOf(View(), task).inFlight == TaskOf(old(View()), task).inFlight + {owner}
      ensures enabled ==>
                var ss := SessionOf(old(View()), owner);
                Stands(old(View()), View(), owner, ss.(claims := ss.claims + 1, currentOwned := ss.currentOwned + 1))
    {
      hide Grows;
      RecordGrows(View(), Claimed(task, owner));
      if !enabled { return; }
      claims := claims + 1;
      var ts := GetOrCreateTask(task);
      tasks := tasks[task := ts.(claims := ts.claims + 1, inFlight := ts.inFlight + {owner})];
      var ss := GetOrCreateSession(owner);
      sessions := sessions[owner := ss.(claims := ss.claims + 1, currentOwned := ss.currentOwned + 1)];
    }

    method TaskCompleted(task: string, owner: string)
      modifies this
      ensures View() == Note(enabled, old(View()), Completed(task, owner))
      ensures !enabled ==> View() == old(View())
      ensures enabled ==> Grows(old(View()), View(), task, 0, 1, 0, 0, 0)
      ensures enabled ==> TaskOf(View(), task).inFlight == TaskOf(old(View()), task).inFlight - {owner}
      ensures enabled ==>
                var ss := SessionOf(old(View()), owner);
                Stands(old(View()), View(), owner, ss.(completions := ss.completions + 1))
    {
      hide Grows;
      RecordGrows(View(), Completed(task, owner));
      if !enabled { return; }
      completions := completions + 1;
      var ts := GetOrCreateTask(task);
      tasks := tasks[task := ts.(completions := ts.completions + 1, inFlight := ts.inFlight - {owner})];
      var ss := GetOrCreateSession(owner);
      sessions := sessions[owner := ss.(completions := ss.completions + 1)];
    }

    method TaskRejected(task: string, owner: string)
      modifies this
      ensures View() == Note(enabled, old(View()), Rejected(task, owner))
      ensures !enabled ==> View() == old(View())
      ensures enabled ==> Grows(old(View()), View(), task, 0, 0, 1, 0, 0)
      ensures enabled ==> TaskOf(View(), task).inFlight == TaskOf(old(View()), task).inFlight - {owner}
      ensures enabled ==>
                var ss := SessionOf(old(View()), owner);
                Stands(old(View()), View(), owner, ss.(rejections := ss.rejections + 1))
    {
      hide Grows;
      RecordGrows(View(), Rejected(task, owner));
      if !enabled { return; }
      rejections := rejections + 1;
      var ts := GetOrCreateTask(task);
      tasks := tasks[task := ts.(rejections := ts.rejections + 1, inFlight := ts.inFlight - {owner})];
      var ss := GetOrCreateSession(owner);
      sessions := sessions[owner := ss.(rejections := ss.rejections + 1)];
    }

    method TaskReleased(task: string, owner: string)
      modifies this
      ensures View() == Note(enabled, old(View()), Released(task, owner))
      ensures !enabled ==> View() == old(View())
      ensures enabled ==> Grows(old(View()), View(), task, 0, 0, 0, 0, 1)
      ensures enabled ==> TaskOf(View(), task).inFlight == TaskOf(old(View()), task).inFlight - {owner}
      ensures enabled ==>
                var ss := SessionOf(old(View()), owner);
                var left := if ss.currentOwned == 0 then 0 else ss.currentOwned - 1;
                Stands(old(View()), View(), owner, ss.(currentOwned := left))
    {
      hide Grows;
      RecordGrows(View(), Released(task, owner));
      if !enabled { return; }
      releases := releases + 1;
      var ts := GetOrCreateTask(task);
      tasks := tasks[task := ts.(releases := ts.releases + 1, inFlight := ts.inFlight - {owner})];
      var ss := GetOrCreateSession(owner);
      if ss.currentOwned > 0 {
        sessions := sessions[owner := ss.(currentOwned := ss.currentOwned - 1)];
      }
    }

    method TaskEvicted(task: string, owner: string)
      modifies this
      ensures View() == Note(enabled, old(View()), Evicted(task, owner))
      ensures !enabled ==> View() == old(View())
      ensures enabled ==> Grows(old(View()), View(), task, 0, 0, 0, 1, 0)
      ensures enabled ==> TaskOf(View(), task).inFlight == TaskOf(old(View()), task).inFlight - {owner}
      ensures enabled ==>
                var ss := SessionOf(old(View()), owner);
                var left := if ss.currentOwned == 0 then 0 else ss.currentOwned - 1;
                Stands(old(View()), View(), owner, ss.(evictions := ss.evictions + 1, currentOwned := left))
    {
      hide Grows;
      RecordGrows(View(), Evicted(task, owner));
      if !enabled { return; }
      evictions := evictions + 1;
      var ts := GetOrCreateTask(task);
      tasks := tasks[task := ts.(evictions := ts.evictions + 1, inFlight := ts.inFlight - {owner})];
      var ss := GetOrCreateSession(owner);
      ss := ss.(evictions := ss.evictions + 1);
      if ss.currentOwned > 0 {
        ss := ss.(currentOwned := ss.currentOwned - 1);
      }
      sessions := sessions[owner := ss];
    }

    method SessionConnected(session: string)
      modifies this
      ensures View() == Note(enabled, old(View()), Connected(session))
      ensures !enabled ==> View() == old(View())
      ensures enabled ==> session in sessions && tasks == old(tasks)
      ensures enabled ==> Stands(old(View()), View(), session, SessionOf(old(View()), session))
      ensures claims == old(claims) && completions == old(completions) && rejections == old(rejections)
      ensures evictions == old(evictions) && releases == old(releases)
    {
      if !enabled { return; }
      var _ := GetOrCreateSession(session);
    }

    method SessionDisconnected(session: string)
      modifies this
      ensures View() == Note(enabled, old(View()), Disconnected(session))
      ensures !enabled ==> View() == old(View())
      ensures enabled ==> session !in sessions && tasks == old(tasks)
      ensures enabled ==> Stands(old(View()), View(), session, NO_SESSION)
      ensures claims == old(claims) && completions == old(completions) && rejections == old(rejections)
      ensures evictions == old(evictions) && releases == old(releases)
    {
      if !enabled { return; }
      sessions := sessions - {session};
    }
  }

  // ---------------------------------------------------------------------------
  // Totals and per-task counters
  // ---------------------------------------------------------------------------

  function Recorded(es: seq<Entry>): Stats {
    if es == [] then NO_STATS else Record(Recorded(es[..|es| - 1]), es[|es| - 1])
  }

  /** One counter of every task. */
  ghost function Column(tasks: map<string, TaskStats>, counter: TaskStats -> nat): map<string, nat> {
    map t | t in tasks :: counter(tasks[t])
  }

  lemma ColumnUpdate(tasks: map<string, TaskStats>, t: string, ts: TaskStats, counter: TaskStats -> nat)
    requires counter(NO_TASK) == 0
    ensures var was := if t in tasks then counter(tasks[t]) else 0;
            Total(Column(tasks[t := ts], counter)) + was == Total(Column(tasks, counter)) + counter(ts)
  {
    assert Column(tasks[t := ts], counter) == Column(tasks, counter)[t := counter(ts)];
    if t in tasks {
      TotalUpdate(Column(tasks, counter), t, counter(ts));
    } else {
      TotalInsert(Column(tasks, counter), t, counter(ts));
    }
  }

  /** The grand totals are the sums of the per-task counters. */
  ghost predicate TotalsAgree(st: Stats) {
    && st.claims == Total(Column(st.tasks, (ts: TaskStats) => ts.claims))
    && st.completions == Total(Column(st.tasks, (ts: TaskStats) => ts.completions))
    && st.rejections == Total(Column(st.tasks, (ts: TaskStats) => ts.rejections))
    && st.evictions == Total(Column(st.tasks, (ts: TaskStats) => ts.evictions))
    && st.releases == Total(Column(st.tasks, (ts: TaskStats) => ts.releases))
  }

  lemma RecordAgrees(st: Stats, e: Entry)
    requires TotalsAgree(st)
    ensures TotalsAgree(Record(st, e))
  {
    hide Column, Total;
    if !e.Connected? && !e.Disconnected? {
      var ts := Record(st, e).tasks[e.task];
      ColumnUpdate(st.tasks, e.task, ts, (ts: TaskStats) => ts.claims);
      ColumnUpdate(st.tasks, e.task, ts, (ts: TaskStats) => ts.completions);
      ColumnUpdate(st.tasks, e.task, ts, (ts: TaskStats) => ts.rejections);
      ColumnUpdate(st.tasks, e.task, ts, (ts: TaskStats) => ts.evictions);
      ColumnUpdate(st.tasks, e.task, ts, (ts: TaskStats) => ts.releases);
      assert Record(st, e).tasks == st.tasks[e.task := ts];
    }
  }

  /** Whatever is recorded, in whatever order, each grand total is the sum over the tasks. */
  lemma {:induction false} TotalsAreSums(es: seq<Entry>)
    ensures TotalsAgree(Recorded(es))
  {
    if es != [] {
      TotalsAreSums(es[..|es| - 1]);
      RecordAgrees(Recorded(es[..|es| - 1]), es[|es| - 1]);
    }
  }
}

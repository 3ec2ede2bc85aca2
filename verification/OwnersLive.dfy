/** Whether a task's owner is still connected. A TCP session runs its handlers and its own
    disconnect one after the other; a UDP session is disconnected by another goroutine. */
module OwnersLive {
  import opened Base
  import opened Tasks

  /** What a session's reader is doing: waiting for a message, handling one that has passed the
      session lookup, or between the two lock sections of an acquire. */
  datatype Handler = Idle | Handling | Reacquiring(taskId: string, duration: int)

  /** How far the disconnect of a session has got. */
  datatype Closing = Open | HungUp | Released

  datatype Session = Session(handler: Handler, closing: Closing)

  /** `live` are the ids in the session manager; `sessions` every session ever connected. */
  datatype State = State(tasks: Table, live: set<string>, sessions: map<string, Session>)

  datatype Step =
    | Add(id: string, tags: seq<string>, hint: Bytes)
    | Connect(s: string)
    | Lookup(s: string)
    | Acquire(s: string, id: string, duration: int, now: nat, later: nat)
    | Reacquire(s: string, later: nat)
    | Release(s: string, id: string)
    | Reply(s: string)
    | Sweep(now: nat)
    | HangUp(s: string)
    | ReleaseAll(s: string)
    | Remove(s: string)

  predicate In(st: State, s: string, h: Handler) {
    s in st.sessions && st.sessions[s].handler == h
  }

  /** `sequential` sessions hang up only between messages and read no message afterwards. */
  predicate Enabled(sequential: bool, st: State, step: Step) {
    match step
    case Add(id, _, _) => id !in st.tasks
    case Connect(s) => s != "" && s !in st.sessions
    case Lookup(s) => In(st, s, Idle) && s in st.live && (sequential ==> st.sessions[s].closing == Open)
    case Acquire(s, _, _, _, _) => In(st, s, Handling)
    case Reacquire(s, _) => s in st.sessions && st.sessions[s].handler.Reacquiring?
    case Release(s, _) => In(st, s, Handling)
    case Reply(s) => In(st, s, Handling)
    case Sweep(_) => true
    case HangUp(s) => s in st.sessions && st.sessions[s].closing == Open
                        && (sequential ==> st.sessions[s].handler == Idle)
    case ReleaseAll(s) => s in st.sessions && st.sessions[s].closing == HungUp
    case Remove(s) => s in st.live && s in st.sessions && st.sessions[s].closing == Released
  }

  function Set(st: State, s: string, h: Handler): State
    requires s in st.sessions
  {
    st.(sessions := st.sessions[s := st.sessions[s].(handler := h)])
  }

  function Next(sequential: bool, st: State, step: Step): State
    requires Enabled(sequential, st, step)
  {
    match step
    case Add(id, tags, hint) => st.(tasks := After(st.tasks, Section.Add(id, tags, hint)))
    case Connect(s) => st.(live := st.live + {s}, sessions := st.sessions[s := Session(Idle, Open)])
    case Lookup(s) => Set(st, s, Handling)
    case Acquire(s, id, duration, now, later) =>
      var handler := if Enter(st.tasks, id, now).Reopen? then Reacquiring(id, duration) else Idle;
      Set(st.(tasks := After(st.tasks, Section.Begin(id, s, duration, now, later))), s, handler)
    case Reacquire(s, later) =>
      var h := st.sessions[s].handler;
      Set(st.(tasks := After(st.tasks, Section.Resume(h.taskId, s, h.duration, later))), s, Idle)
    case Release(s, id) => Set(st.(tasks := After(st.tasks, Section.Release(id, s))), s, Idle)
    case Reply(s) => Set(st, s, Idle)
    case Sweep(now) => st.(tasks := After(st.tasks, Section.Sweep(now)))
    case HangUp(s) => st.(sessions := st.sessions[s := st.sessions[s].(closing := HungUp)])
    case ReleaseAll(s) => st.(tasks := After(st.tasks, Section.ReleaseAll(s)),
                              sessions := st.sessions[s := st.sessions[s].(closing := Released)])
    case Remove(s) => st.(live := st.live - {s})
  }

  const START := State(map[], {}, map[])

  /** A step that is not enabled changes nothing, so every sequence of steps is a run. */
  function RunFrom(sequential: bool, st: State, steps: seq<Step>): State {
    if steps == [] then st
    else
      var mid, step := RunFrom(sequential, st, steps[..|steps| - 1]), steps[|steps| - 1];
      if Enabled(sequential, mid, step) then Next(sequential, mid, step) else mid
  }

  function Run(sequential: bool, steps: seq<Step>): State {
    RunFrom(sequential, START, steps)
  }

  ghost predicate Owns(st: State, s: string) {
    exists id :: id in st.tasks && OwnedBy(st.tasks[id], s)
  }

  ghost predicate OwnersAreLive(st: State) {
    forall id :: id in st.tasks && st.tasks[id].status == Owned ==> st.tasks[id].owner in st.live
  }

  // ---------------------------------------------------------------------------
  // TCP
  // ---------------------------------------------------------------------------

  /** An owner has not released everything yet; a busy session has not even hung up; a session
      leaves the manager only after releasing everything. */
  ghost predicate Inv(st: State) {
    && (forall id :: id in st.tasks && st.tasks[id].status == Owned ==>
          st.tasks[id].owner in st.sessions && st.sessions[st.tasks[id].owner].closing != Released)
    && (forall s :: s in st.sessions && st.sessions[s].handler != Idle ==> st.sessions[s].closing == Open)
    && (forall s :: s in st.sessions && st.sessions[s].closing != Released ==> s in st.live)
  }

  lemma InvStep(st: State, step: Step)
    requires Inv(st) && Enabled(true, st, step)
    ensures Inv(Next(true, st, step))
  {
    hide LeaseEnd, Lapsed;
  }

  /** Owners are live: over TCP, under every interleaving of all sessions' handlers, disconnects
      and sweeps, every owned task's owner is in the session manager. */
  lemma {:induction false} TcpOwnersAreLive(steps: seq<Step>)
    ensures Inv(Run(true, steps)) && OwnersAreLive(Run(true, steps))
  {
    if steps != [] {
      TcpOwnersAreLive(steps[..|steps| - 1]);
      var st := Run(true, steps[..|steps| - 1]);
      if Enabled(true, st, steps[|steps| - 1]) {
        InvStep(st, steps[|steps| - 1]);
      }
    }
  }

  // ---------------------------------------------------------------------------
  // UDP
  // ---------------------------------------------------------------------------

  /** Out of the manager, not handling anything, and without a task. */
  ghost predicate GoneForGood(st: State, s: string) {
    s in st.sessions && s !in st.live && st.sessions[s].handler == Idle && !Owns(st, s)
  }

  lemma GoneStep(st: State, step: Step, s: string)
    requires GoneForGood(st, s) && Enabled(false, st, step)
    ensures GoneForGood(Next(false, st, step), s)
  {
    hide LeaseEnd, Lapsed;
    var st' := Next(false, st, step);
    forall id | id in st'.tasks
      ensures !OwnedBy(st'.tasks[id], s)
    {
      assert id in st.tasks ==> !OwnedBy(st.tasks[id], s);
    }
  }

  lemma {:induction false} GoneRun(st: State, steps: seq<Step>, s: string)
    requires GoneForGood(st, s)
    ensures GoneForGood(RunFrom(false, st, steps), s)
  {
    if steps != [] {
      var mid := RunFrom(false, st, steps[..|steps| - 1]);
      GoneRun(st, steps[..|steps| - 1], s);
      if Enabled(false, mid, steps[|steps| - 1]) {
        GoneStep(mid, steps[|steps| - 1], s);
      }
    }
  }

  /** An acquirer between its lock sections waits for a task that exists. */
  ghost predicate WaitsForTask(st: State) {
    forall s :: s in st.sessions && st.sessions[s].handler.Reacquiring? ==> st.sessions[s].handler.taskId in st.tasks
  }

  lemma StepWaitsForTask(sequential: bool, st: State, step: Step)
    requires WaitsForTask(st) && Enabled(sequential, st, step)
    ensures WaitsForTask(Next(sequential, st, step))
  {
    hide LeaseEnd, Lapsed;
  }

  lemma {:induction false} RunWaitsForTask(sequential: bool, steps: seq<Step>)
    ensures WaitsForTask(Run(sequential, steps))
  {
    if steps != [] {
      hide Next, WaitsForTask;
      RunWaitsForTask(sequential, steps[..|steps| - 1]);
      var st := Run(sequential, steps[..|steps| - 1]);
      if Enabled(sequential, st, steps[|steps| - 1]) {
        StepWaitsForTask(sequential, st, steps[|steps| - 1]);
      }
    } else {
      assert WaitsForTask(START);
    }
  }

  lemma NewId(tab: Table) returns (id: string)
    ensures id !in tab
  {
    var lengths: set<nat> := set i | i in tab :: |i|;
    var longest := BoundExists(lengths);
    id := seq(longest + 1, _ => 'a');
    assert id in tab ==> |id| in lengths;
  }

  lemma RunTwo(sequential: bool, st: State, a: Step, b: Step)
    requires Enabled(sequential, st, a) && Enabled(sequential, Next(sequential, st, a), b)
    ensures RunFrom(sequential, st, [a]) == Next(sequential, st, a)
    ensures RunFrom(sequential, st, [a, b]) == Next(sequential, Next(sequential, st, a), b)
  {
    assert [a][..0] == [] && [a, b][..1] == [a];
  }

  /** A session outside the manager that is still handling a message can be granted a task. */
  lemma StillHandlingCanOwn(st: State, s: string) returns (steps: seq<Step>)
    requires s in st.sessions && st.sessions[s].handler != Idle && WaitsForTask(st)
    ensures Owns(RunFrom(false, st, steps), s)
  {
    hide LeaseEnd, Lapsed;
    if st.sessions[s].handler == Handling {
      var id := NewId(st.tasks);
      var add, acquire := Step.Add(id, [], []), Acquire(s, id, 0, 0, 0);
      RunTwo(false, st, add, acquire);
      steps := [add, acquire];
      assert OwnedBy(RunFrom(false, st, steps).tasks[id], s);
    } else {
      var resume := Reacquire(s, 0);
      steps := [resume];
      assert steps[..0] == [];
      assert RunFrom(false, st, steps) == Next(false, st, resume);
      assert OwnedBy(RunFrom(false, st, steps).tasks[st.sessions[s].handler.taskId], s);
    }
  }

  /** Owners over UDP, exactly: a session that has left the manager owns nothing, now and in every
      future, if and only if it owns nothing now and is not handling a message any more. */
  lemma GoneOwnersExactly(past: seq<Step>, s: string)
    requires s in Run(false, past).sessions && s !in Run(false, past).live
    ensures var st := Run(false, past);
            (forall steps :: !Owns(RunFrom(false, st, steps), s)) <==> st.sessions[s].handler == Idle && !Owns(st, s)
  {
    var st := Run(false, past);
    if GoneForGood(st, s) {
      forall steps
        ensures !Owns(RunFrom(false, st, steps), s)
      {
        GoneRun(st, steps, s);
      }
    } else if Owns(st, s) {
      assert RunFrom(false, st, []) == st;
    } else {
      RunWaitsForTask(false, past);
      var steps := StillHandlingCanOwn(st, s);
    }
  }

  /** Extends a run by one step that leads from `st` to `st'`. */
  lemma AddStep(sequential: bool, steps: seq<Step>, st: State, step: Step, st': State) returns (more: seq<Step>)
    requires Run(sequential, steps) == st && Enabled(sequential, st, step) && Next(sequential, st, step) == st'
    ensures more == steps + [step] && Run(sequential, more) == st'
  {
    more := steps + [step];
    assert more[..|steps|] == steps;
  }

  /** It does happen: a sweep picks the client, a datagram of the client passes the session lookup
      before the sweep has removed the session, and its handler is granted a task after the session
      has released everything; then the session is removed. */
  lemma UdpOwnerMayBeGone() returns (steps: seq<Step>)
    ensures !OwnersAreLive(Run(false, steps))
  {
    hide Run, After;
    var free := map["t" := Task("t", [], [], Available, "", None)];
    var taken := map["t" := Granted(free["t"], "u", LeaseEnd(0, 0))];
    UdpTables(free, taken);
    assert Run(false, []) == START by { RunNothing(false); }
    steps := AddStep(false, [], START, Step.Add("t", [], []), State(free, {}, map[]));
    steps := AddStep(false, steps, State(free, {}, map[]), Connect("u"), One(free, {"u"}, Idle, Open));
    steps := SweepMeetsDatagram(steps, free, taken);
  }

  /** One session "u" in the given state. */
  function One(tasks: Table, live: set<string>, handler: Handler, closing: Closing): State {
    State(tasks, live, map["u" := Session(handler, closing)])
  }

  lemma UdpTables(free: Table, taken: Table)
    requires free == map["t" := Task("t", [], [], Available, "", None)]
    requires taken == map["t" := Granted(free["t"], "u", LeaseEnd(0, 0))]
    ensures After(map[], Section.Add("t", [], [])) == free
    ensures After(free, Section.ReleaseAll("u")) == free
    ensures After(free, Section.Begin("t", "u", 0, 0, 0)) == taken && Enter(free, "t", 0) == GrantNow
  {
  }

  lemma SweepMeetsDatagram(before: seq<Step>, free: Table, taken: Table) returns (steps: seq<Step>)
    requires Run(false, before) == One(free, {"u"}, Idle, Open)
    requires After(free, Section.ReleaseAll("u")) == free
    requires After(free, Section.Begin("t", "u", 0, 0, 0)) == taken && Enter(free, "t", 0) == GrantNow
    requires "t" in taken && OwnedBy(taken["t"], "u")
    ensures !OwnersAreLive(Run(false, steps))
  {
    hide Run, After, Enter;
    steps := AddStep(false, before, One(free, {"u"}, Idle, Open), HangUp("u"), One(free, {"u"}, Idle, HungUp));
    steps := AddStep(false, steps, One(free, {"u"}, Idle, HungUp), Lookup("u"), One(free, {"u"}, Handling, HungUp));
    steps := AddStep(false, steps, One(free, {"u"}, Handling, HungUp), Step.ReleaseAll("u"),
                     One(free, {"u"}, Handling, Released));
    steps := AddStep(false, steps, One(free, {"u"}, Handling, Released), Acquire("u", "t", 0, 0, 0),
                     One(taken, {"u"}, Idle, Released));
    steps := AddStep(false, steps, One(taken, {"u"}, Idle, Released), Remove("u"), One(taken, {}, Idle, Released));
  }

  lemma RunNothing(sequential: bool)
    ensures Run(sequential, []) == START
  {
  }
}

/** When a lease protects its holder. `Acquire` frees a lapsed lease in one lock section and
    grants in a second one that does not look at the status again, so between the two another
    client may be granted the task and lose it at once. */
module LeaseExclusion {
  import opened Base
  import opened Tasks

  /** An acquirer between its two lock sections. */
  datatype Waiter = Waiter(taskId: string, owner: string, duration: int)

  /** `sweeps` are the clocks read by sweeps that have not taken the lock yet. */
  datatype State = State(tasks: Table, clock: nat, waiting: multiset<Waiter>, sweeps: multiset<nat>)

  /** One lock section, or one reading of the clock. Owner ids are never empty. */
  datatype Step =
    | Tick(to: nat)
    | Add(id: string, tags: seq<string>, hint: Bytes)
    | Begin(id: string, owner: string, duration: int, later: nat)
    | Resume(w: Waiter, later: nat)
    | Release(id: string, owner: string)
    | Disconnect(owner: string)
    | Complete(id: string, owner: string)
    | ReadClock
    | Sweep(captured: nat)

  predicate Enabled(s: State, step: Step) {
    match step
    case Tick(to) => s.clock <= to
    case Add(id, _, _) => id !in s.tasks
    case Begin(_, owner, _, later) => owner != "" && s.clock <= later
    case Resume(w, later) => w in s.waiting && s.clock <= later
    case Release(id, owner) => owner != "" && OwnerCheck(s.tasks, id, owner).None?
    case Disconnect(owner) => owner != ""
    case Complete(id, owner) => owner != "" && OwnerCheck(s.tasks, id, owner).None?
    case ReadClock => true
    case Sweep(captured) => captured in s.sweeps
  }

  function Next(s: State, step: Step): State
    requires Enabled(s, step)
  {
    match step
    case Tick(to) => s.(clock := to)
    case ReadClock => s.(sweeps := s.sweeps + multiset{s.clock})
    case _ =>
      var t := s.(tasks := After(s.tasks, SectionOf(s, step)));
      match step
      case Begin(id, owner, duration, later) =>
        (match Enter(s.tasks, id, s.clock)
         case Refuse(_) => s
         case GrantNow => t.(clock := later)
         case Reopen(_) => t.(waiting := s.waiting + multiset{Waiter(id, owner, duration)}))
      case Resume(w, later) => t.(waiting := s.waiting - multiset{w}, clock := later)
      case Sweep(captured) => t.(sweeps := s.sweeps - multiset{captured})
      case _ => t
  }

  const START := State(map[], 0, multiset{}, multiset{})

  /** A step that is not enabled changes nothing, so every sequence of steps is a run. */
  function Run(s: State, steps: seq<Step>): State
    decreases |steps|
  {
    if steps == [] then s
    else Run(if Enabled(s, steps[0]) then Next(s, steps[0]) else s, steps[1..])
  }

  // ---------------------------------------------------------------------------
  // Every reachable state
  // ---------------------------------------------------------------------------

  /** Ownership, owner and lease agree; a waiting sweep never has a clock from the future. */
  ghost predicate Sane(s: State) {
    && Consistent(s.tasks)
    && (forall w :: w in s.waiting ==> w.owner != "")
    && (forall t :: t in s.sweeps ==> t <= s.clock)
  }

  lemma {:induction false} SaneStep(s: State, step: Step)
    requires Sane(s) && Enabled(s, step)
    ensures Sane(Next(s, step)) && s.clock <= Next(s, step).clock
    ensures s.tasks.Keys <= Next(s, step).tasks.Keys
  {
    hide Next, Consistent;
    TablesAfter(s, step);
    ClocksAfter(s, step);
    if !step.Tick? && !step.ReadClock? {
      NamedSection(s, step);
      SectionKeeps(s.tasks, SectionOf(s, step));
    }
  }

  lemma TablesAfter(s: State, step: Step)
    requires Enabled(s, step)
    ensures Next(s, step).tasks == s.tasks
         || (!step.Tick? && !step.ReadClock? && Next(s, step).tasks == After(s.tasks, SectionOf(s, step)))
  {
    hide After, SectionOf;
  }

  lemma ClocksAfter(s: State, step: Step)
    requires Sane(s) && Enabled(s, step)
    ensures var t := Next(s, step);
            && s.clock <= t.clock && (forall w :: w in t.waiting ==> w.owner != "")
                 && (forall c :: c in t.sweeps ==> c <= t.clock)
  {
    hide After, SectionOf, Consistent;
  }

  lemma NamedSection(s: State, step: Step)
    requires Sane(s) && Enabled(s, step) && !step.Tick? && !step.ReadClock?
    ensures Named(SectionOf(s, step))
  {
    hide Consistent, OwnerCheck;
  }

  /** The lock section that a step performs, if it is not about clocks. */
  function SectionOf(s: State, step: Step): Section
    requires !step.Tick? && !step.ReadClock?
  {
    match step
    case Add(id, tags, hint) => Section.Add(id, tags, hint)
    case Begin(id, owner, duration, later) => Section.Begin(id, owner, duration, s.clock, later)
    case Resume(w, later) => Section.Resume(w.taskId, w.owner, w.duration, later)
    case Release(id, owner) => Section.Release(id, owner)
    case Disconnect(owner) => Section.ReleaseAll(owner)
    case Complete(id, owner) => Section.Complete(id, owner)
    case Sweep(captured) => Section.Sweep(captured)
  }

  lemma {:induction false} SaneRun(s: State, steps: seq<Step>)
    requires Sane(s)
    ensures Sane(Run(s, steps)) && s.clock <= Run(s, steps).clock
    ensures s.tasks.Keys <= Run(s, steps).tasks.Keys
    decreases |steps|
  {
    if steps != [] {
      if Enabled(s, steps[0]) {
        SaneStep(s, steps[0]);
        SaneRun(Next(s, steps[0]), steps[1..]);
      } else {
        SaneRun(s, steps[1..]);
      }
    }
  }

  // ---------------------------------------------------------------------------
  // Conditional mutual exclusion
  // ---------------------------------------------------------------------------

  /** What the holder itself may do to its lease of `id`. */
  predicate Own(step: Step, id: string, owner: string) {
    match step
    case Release(i, o) => i == id && o == owner
    case Disconnect(o) => o == owner
    case Complete(i, o) => i == id && o == owner
    case Resume(w, _) => w.taskId == id && w.owner == owner
    case _ => false
  }

  predicate Holds(s: State, id: string, owner: string) {
    id in s.tasks && OwnedBy(s.tasks[id], owner)
  }

  predicate Leased(s: State, id: string, owner: string, until: nat) {
    Holds(s, id, owner) && s.tasks[id].leaseUntil == Some(until)
  }

  /** No other client is between its two lock sections for `id`. */
  ghost predicate NoRival(s: State, id: string, owner: string) {
    forall w :: w in s.waiting && w.taskId == id ==> w.owner == owner
  }

  lemma LeaseKept(s: State, step: Step, id: string, owner: string, until: nat)
    requires Sane(s) && Enabled(s, step) && !Own(step, id, owner)
    requires Leased(s, id, owner, until) && NoRival(s, id, owner) && s.clock <= until
    ensures Leased(Next(s, step), id, owner, until) && NoRival(Next(s, step), id, owner)
  {
    hide Consistent, Agrees, LeaseEnd;
    HolderIs(s, id, owner);
    match step {
      case Begin(i, o, duration, later) => BeginSpares(s, i, o, duration, later, id, owner, until);
      case Resume(w, later) => assert w.taskId != id;
      case Disconnect(o) => assert o != owner;
      case Sweep(captured) => assert captured <= until;
      case _ =>
    }
  }

  /** An owned task has the owner it is leased to in its record, so nobody else may free it. */
  lemma HolderIs(s: State, id: string, owner: string)
    requires Sane(s) && Holds(s, id, owner)
    ensures s.tasks[id].owner == owner && s.tasks[id].status == Owned && owner != ""
  {
  }

  /** Another acquirer is refused as long as the lease has not lapsed. */
  lemma BeginSpares(s: State, i: string, o: string, duration: int, later: nat, id: string, owner: string, until: nat)
    requires Enabled(s, Step.Begin(i, o, duration, later)) && Leased(s, id, owner, until) && s.clock <= until
    requires NoRival(s, id, owner)
    ensures Leased(Next(s, Step.Begin(i, o, duration, later)), id, owner, until)
    ensures NoRival(Next(s, Step.Begin(i, o, duration, later)), id, owner)
  {
    hide LeaseEnd;
    if i == id {
      assert Enter(s.tasks, id, s.clock).Refuse?;
    }
  }

  lemma {:induction false} LeaseKeptOverRun(s: State, steps: seq<Step>, id: string, owner: string, until: nat)
    requires Sane(s) && Leased(s, id, owner, until) && NoRival(s, id, owner)
    requires forall i :: 0 <= i < |steps| ==> !Own(steps[i], id, owner)
    requires Run(s, steps).clock <= until
    ensures Leased(Run(s, steps), id, owner, until)
    decreases |steps|
  {
    SaneRun(s, steps);
    if steps != [] {
      if Enabled(s, steps[0]) {
        SaneStep(s, steps[0]);
        LeaseKept(s, steps[0], id, owner, until);
        LeaseKeptOverRun(Next(s, steps[0]), steps[1..], id, owner, until);
      } else {
        LeaseKeptOverRun(s, steps[1..], id, owner, until);
      }
    }
  }

  /** In every future in which the holder does nothing to its lease, it holds the task for as
      long as the lease lasts. */
  ghost predicate Protected(s: State, id: string, owner: string, until: nat) {
    forall steps | (forall i :: 0 <= i < |steps| ==> !Own(steps[i], id, owner)) && Run(s, steps).clock <= until ::
      Holds(Run(s, steps), id, owner)
  }

  /** Conditional mutual exclusion, exactly: in any reachable state a client's unexpired lease
      protects it, against all interleavings with other acquirers and with sweeps whose clock was
      read earlier, if and only if no other client is between its two lock sections for the task. */
  lemma ProtectedExactly(past: seq<Step>, id: string, owner: string, until: nat)
    requires var s := Run(START, past); Leased(s, id, owner, until) && s.clock <= until
    ensures var s := Run(START, past); Protected(s, id, owner, until) <==> NoRival(s, id, owner)
  {
    var s := Run(START, past);
    SaneRun(START, past);
    if NoRival(s, id, owner) {
      forall steps | (forall i :: 0 <= i < |steps| ==> !Own(steps[i], id, owner)) && Run(s, steps).clock <= until
        ensures Holds(Run(s, steps), id, owner)
      {
        LeaseKeptOverRun(s, steps, id, owner, until);
      }
    } else {
      var w :| w in s.waiting && w.taskId == id && w.owner != owner;
      var theft := [Step.Resume(w, s.clock)];
      assert Enabled(s, theft[0]) && theft[1..] == [];
      assert Run(s, theft) == Next(s, theft[0]);
      assert Run(s, theft).clock <= until && !Holds(Run(s, theft), id, owner);
    }
  }

  lemma {:induction false} RunConcat(s: State, a: seq<Step>, b: seq<Step>)
    ensures Run(s, a + b) == Run(Run(s, a), b)
    decreases |a|
  {
    if a == [] {
      assert a + b == b;
    } else {
      assert (a + b)[1..] == a[1..] + b && (a + b)[0] == a[0];
      RunConcat(if Enabled(s, a[0]) then Next(s, a[0]) else s, a[1..], b);
    }
  }

  lemma RunSnoc(s: State, steps: seq<Step>, step: Step)
    requires Enabled(Run(s, steps), step)
    ensures Run(s, steps + [step]) == Next(Run(s, steps), step)
  {
    RunConcat(s, steps, [step]);
    assert [step][1..] == [];
  }

  /** The condition is needed: a run from the start in which "b" is granted a task with a fresh
      lease while "a" is between its lock sections, and "a" then takes it although that lease has
      not expired and "b" has done nothing. */
  lemma LeaseCanBeStolen() returns (granted: seq<Step>, theft: Step)
    ensures var s := Run(START, granted);
            && Leased(s, "t", "b", s.clock + 10) && !NoRival(s, "t", "b")
            && Enabled(s, theft) && !Own(theft, "t", "b")
            && Next(s, theft).clock == s.clock && Holds(Next(s, theft), "t", "a")
  {
    hide Run;
    var free := map["t" := Task("t", [], [], Available, "", None)];
    var lapsed := map["t" := Task("t", [], [], Owned, "c", Some(1))];
    granted := LapsedLease(free, lapsed);
    granted := SecondIsGranted(granted, free, lapsed);
    theft := Step.Resume(Waiter("t", "a", 10), 2);
  }

  lemma LapsedLease(free: Table, lapsed: Table) returns (steps: seq<Step>)
    requires free == map["t" := Task("t", [], [], Available, "", None)]
    requires lapsed == map["t" := Task("t", [], [], Owned, "c", Some(1))]
    ensures Run(START, steps) == State(lapsed, 2, multiset{}, multiset{})
  {
    hide Run;
    assert Run(START, []) == START by { RunNothing(START); }
    steps := AddStep([], START, Step.Add("t", [], []), State(free, 0, multiset{}, multiset{}));
    var s := State(lapsed, 0, multiset{}, multiset{});
    steps := AddStep(steps, State(free, 0, multiset{}, multiset{}), Step.Begin("t", "c", 1, 0), s);
    steps := AddStep(steps, s, Tick(2), s.(clock := 2));
  }

  lemma SecondIsGranted(before: seq<Step>, free: Table, lapsed: Table) returns (steps: seq<Step>)
    requires free == map["t" := Task("t", [], [], Available, "", None)]
    requires lapsed == map["t" := Task("t", [], [], Owned, "c", Some(1))]
    requires Run(START, before) == State(lapsed, 2, multiset{}, multiset{})
    ensures var tasks := map["t" := Task("t", [], [], Owned, "b", Some(12))];
            Run(START, steps) == State(tasks, 2, multiset{Waiter("t", "a", 10)}, multiset{})
  {
    hide Run;
    var w := Waiter("t", "a", 10);
    var held := map["t" := Task("t", [], [], Owned, "b", Some(12))];
    steps := AddStep(before, State(lapsed, 2, multiset{}, multiset{}), Step.Begin("t", "a", 10, 2),
                     State(free, 2, multiset{w}, multiset{}));
    steps := AddStep(steps, State(free, 2, multiset{w}, multiset{}), Step.Begin("t", "b", 10, 2),
                     State(held, 2, multiset{w}, multiset{}));
  }

  lemma RunNothing(s: State)
    ensures Run(s, []) == s
  {
  }

  /** Extends a run by one step that leads from `s` to `s'`. */
  lemma AddStep(steps: seq<Step>, s: State, step: Step, s': State) returns (more: seq<Step>)
    requires Run(START, steps) == s && Enabled(s, step) && Next(s, step) == s'
    ensures more == steps + [step] && Run(START, more) == s'
  {
    RunSnoc(START, steps, step);
    more := steps + [step];
  }
}

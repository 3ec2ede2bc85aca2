/** Who writes to the world in server mode. The ownership check of a submission takes the registry's
    lock, each update of an accepted one takes the world's, and nothing is locked in between. */
module Submissions {
  import opened Base
  import opened Worlds
  import opened Merge
  import T = Tasks

  /** A submission that has passed its checks, and how many of its updates have been written. */
  datatype Handler = Handler(sub: Submission, written: nat)

  datatype State = State(tasks: T.Table, world: Objects, busy: map<nat, Handler>)

  /** One lock section of the registry or of the world; `k` names the handling of one message. */
  datatype Step =
    | Section(sec: T.Section)
    | Check(k: nat, sub: Submission)
    | Write(k: nat)
    | Finish(k: nat)

  predicate Enabled(f: MergeFunc, s: State, step: Step) {
    match step
    case Section(sec) => T.Named(sec)
    case Check(k, sub) => sub.ownerId != "" && k !in s.busy
    case Write(k) => k in s.busy && s.busy[k].written < |f(s.busy[k].sub).updates|
    case Finish(k) => k in s.busy && s.busy[k].written >= |f(s.busy[k].sub).updates|
  }

  /** A submission that fails a check is answered at once and leaves nothing behind. */
  function Next(f: MergeFunc, s: State, step: Step): State
    requires Enabled(f, s, step)
  {
    match step
    case Section(sec) => s.(tasks := T.After(s.tasks, sec))
    case Check(k, sub) =>
      if sub.taskId !in s.tasks || s.tasks[sub.taskId].owner != sub.ownerId || !f(sub).accept then s
      else s.(busy := s.busy[k := Handler(sub, 0)])
    case Write(k) =>
      var h := s.busy[k];
      State(s.tasks, ApplyTo(s.world, f(h.sub).updates[h.written]), s.busy[k := h.(written := h.written + 1)])
    case Finish(k) => s.(busy := s.busy - {k})
  }

  const START := State(map[], map[], map[])

  /** A step that is not enabled changes nothing, so every sequence of steps is a run. */
  function RunFrom(f: MergeFunc, s: State, steps: seq<Step>): State {
    if steps == [] then s
    else
      var mid, step := RunFrom(f, s, steps[..|steps| - 1]), steps[|steps| - 1];
      if Enabled(f, mid, step) then Next(f, mid, step) else mid
  }

  function Run(f: MergeFunc, steps: seq<Step>): State {
    RunFrom(f, START, steps)
  }

  predicate Owns(tab: T.Table, owner: string, id: string) {
    id in tab && tab[id].status == T.Owned && tab[id].owner == owner
  }

  // ---------------------------------------------------------------------------
  // Every write goes back to a check
  // ---------------------------------------------------------------------------

  /** The updates written for `k` from position `from` on. */
  function Written(f: MergeFunc, steps: seq<Step>, from: nat, k: nat): seq<UpdateRequest> {
    if |steps| <= from then []
    else
      var init := steps[..|steps| - 1];
      var mid, step := Run(f, init), steps[|steps| - 1];
      Written(f, init, from, k)
        + if step == Write(k) && Enabled(f, mid, step) then [f(mid.busy[k].sub).updates[mid.busy[k].written]] else []
  }

  /** At step `j` the submission was checked while its session owned the task and was accepted, and what has
      been written for it since are its first updates, in order. */
  ghost predicate CheckedAt(f: MergeFunc, steps: seq<Step>, k: nat, h: Handler, j: nat) {
    && j < |steps| && steps[j] == Check(k, h.sub)
    && Owns(Run(f, steps[..j]).tasks, h.sub.ownerId, h.sub.taskId) && f(h.sub).accept
    && h.written <= |f(h.sub).updates| && Written(f, steps, j + 1, k) == f(h.sub).updates[..h.written]
  }

  lemma {:induction false} ConsistentRun(f: MergeFunc, steps: seq<Step>)
    ensures T.Consistent(Run(f, steps).tasks)
  {
    hide T.Consistent, T.After, T.Named;
    if steps != [] {
      ConsistentRun(f, steps[..|steps| - 1]);
      var s := Run(f, steps[..|steps| - 1]);
      if steps[|steps| - 1].Section? && T.Named(steps[|steps| - 1].sec) {
        T.SectionKeeps(s.tasks, steps[|steps| - 1].sec);
      }
    } else {
      EmptyIsConsistent();
    }
  }

  lemma EmptyIsConsistent()
    ensures T.Consistent(map[])
  {
  }

  /** Every submission being written was checked at some step of the run. */
  lemma {:induction false} EachWasChecked(f: MergeFunc, steps: seq<Step>, k: nat)
    requires k in Run(f, steps).busy
    ensures exists j :: CheckedAt(f, steps, k, Run(f, steps).busy[k], j)
  {
    hide T.Consistent, T.After, T.Named;
    var init, step := steps[..|steps| - 1], steps[|steps| - 1];
    var s, h := Run(f, init), Run(f, steps).busy[k];
    if k !in s.busy {
      ConsistentRun(f, init);
      NamedOwner(s.tasks, h.sub.taskId, h.sub.ownerId);
      assert steps[..|init|] == init;
      assert CheckedAt(f, steps, k, h, |init|);
    } else {
      EachWasChecked(f, init, k);
      var j: nat :| CheckedAt(f, init, k, s.busy[k], j);
      StillChecked(f, steps, k, j);
    }
  }

  lemma StillChecked(f: MergeFunc, steps: seq<Step>, k: nat, j: nat)
    requires steps != [] && k in Run(f, steps).busy
    requires var init := steps[..|steps| - 1];
             k in Run(f, init).busy && CheckedAt(f, init, k, Run(f, init).busy[k], j)
    ensures CheckedAt(f, steps, k, Run(f, steps).busy[k], j)
  {
    hide T.After, T.Named, Owns;
    var init, step := steps[..|steps| - 1], steps[|steps| - 1];
    var s, h := Run(f, init), Run(f, steps).busy[k];
    assert steps[..j] == init[..j];
    if step == Write(k) && Enabled(f, s, step) {
      var us := f(h.sub).updates;
      assert us[..h.written] == us[..h.written - 1] + [us[h.written - 1]];
    } else {
      assert h == s.busy[k];
    }
  }

  lemma NamedOwner(tab: T.Table, id: string, owner: string)
    requires T.Consistent(tab) && id in tab && tab[id].owner == owner && owner != ""
    ensures Owns(tab, owner, id)
  {
  }

  /** Whatever changes the world in server mode is an update of a submission that was accepted, and that was
      checked earlier in the run while the session that sent it owned its task. */
  lemma EveryChangeWasOwned(f: MergeFunc, steps: seq<Step>, i: nat)
    requires i < |steps| && Run(f, steps[..i + 1]).world != Run(f, steps[..i]).world
    ensures steps[i].Write? && steps[i].k in Run(f, steps[..i]).busy
    ensures var h := Run(f, steps[..i]).busy[steps[i].k];
            && h.written < |f(h.sub).updates|
            && Run(f, steps[..i + 1]).world == ApplyTo(Run(f, steps[..i]).world, f(h.sub).updates[h.written])
            && exists j :: CheckedAt(f, steps[..i], steps[i].k, h, j)
  {
    assert steps[..i + 1][..i] == steps[..i];
    EachWasChecked(f, steps[..i], steps[i].k);
  }

  // ---------------------------------------------------------------------------
  // Between the check and the write
  // ---------------------------------------------------------------------------

  /** The sections that end a session's ownership of a task. */
  predicate Ends(tab: T.Table, sec: T.Section, owner: string, id: string)
    requires id in tab
  {
    var lease := tab[id].leaseUntil;
    match sec
    case Release(i, o) => i == id && o == owner
    case Complete(i, o) => i == id && o == owner
    case ReleaseAll(o) => o == owner
    case Begin(i, _, _, now, _) => i == id && lease.Some? && now > lease.value
    case Resume(i, o, _, _) => i == id && o != owner
    case Sweep(now) => lease.Some? && now > lease.value
    case Add(_, _, _) => false
  }

  lemma SectionEnds(tab: T.Table, sec: T.Section, owner: string, id: string)
    requires Owns(tab, owner, id)
    ensures !Owns(T.After(tab, sec), owner, id) <==> Ends(tab, sec, owner, id)
  {
  }

  /** If the session does not own the task any more when an update is written, a section in between has ended
      its ownership: it gave the task up itself, its lease had lapsed, or another acquire was resumed. */
  lemma {:induction false} LostInBetween(f: MergeFunc, steps: seq<Step>, j: nat, i: nat, owner: string, id: string)
    requires j <= i <= |steps|
    requires Owns(Run(f, steps[..j]).tasks, owner, id) && !Owns(Run(f, steps[..i]).tasks, owner, id)
    ensures exists l :: j <= l < i && steps[l].Section? && Owns(Run(f, steps[..l]).tasks, owner, id)
              && Ends(Run(f, steps[..l]).tasks, steps[l].sec, owner, id)
    decreases i
  {
    hide T.After, Ends, T.Named;
    assert steps[..i][..i - 1] == steps[..i - 1];
    var s := Run(f, steps[..i - 1]);
    if Owns(s.tasks, owner, id) {
      assert steps[i - 1].Section?;
      SectionEnds(s.tasks, steps[i - 1].sec, owner, id);
    } else {
      LostInBetween(f, steps, j, i - 1, owner, id);
    }
  }

  // ---------------------------------------------------------------------------
  // The handler as a whole
  // ---------------------------------------------------------------------------

  /** The steps of one submission, from its check on. */
  function Handling(f: MergeFunc, k: nat, sub: Submission): seq<Step> {
    [Check(k, sub)] + seq(|f(sub).updates|, _ => Write(k)) + [Finish(k)]
  }

  lemma {:induction false} WritesInTurn(f: MergeFunc, s: State, k: nat, n: nat)
    requires k in s.busy && s.busy[k].written == 0 && n <= |f(s.busy[k].sub).updates|
    ensures var h := s.busy[k];
            RunFrom(f, s, seq(n, _ => Write(k)))
              == State(s.tasks, ApplyAll(s.world, f(h.sub).updates[..n]), s.busy[k := h.(written := n)])
  {
    var writes, us := seq(n, _ => Write(k)), f(s.busy[k].sub).updates;
    if n == 0 {
      assert writes == [] && s.busy[k := s.busy[k].(written := 0)] == s.busy;
    } else {
      assert writes[..n - 1] == seq(n - 1, _ => Write(k)) && us[..n][..n - 1] == us[..n - 1];
      WritesInTurn(f, s, k, n - 1);
    }
  }

  lemma {:induction false} RunConcat(f: MergeFunc, s: State, a: seq<Step>, b: seq<Step>)
    ensures RunFrom(f, s, a + b) == RunFrom(f, RunFrom(f, s, a), b)
  {
    hide Next, Enabled;
    if b == [] {
      assert a + b == a;
    } else {
      assert (a + b)[..|a + b| - 1] == a + b[..|b| - 1];
      RunConcat(f, s, a, b[..|b| - 1]);
    }
  }

  /** Undisturbed, the steps come to what the dispatcher's handler does to the world in one go: all the updates
      if the session owns the task and the submission is accepted, and nothing otherwise. */
  lemma UninterruptedSubmission(f: MergeFunc, s: State, k: nat, sub: Submission)
    requires k !in s.busy && sub.ownerId != ""
    ensures var owner := sub.taskId in s.tasks && s.tasks[sub.taskId].owner == sub.ownerId;
            RunFrom(f, s, Handling(f, k, sub))
              == s.(world := if owner && f(sub).accept then ApplyAll(s.world, f(sub).updates) else s.world)
  {
    var n := |f(sub).updates|;
    var writes := seq(n, _ => Write(k));
    RunConcat(f, s, [Check(k, sub)] + writes, [Finish(k)]);
    RunConcat(f, s, [Check(k, sub)], writes);
    var mid := RunOne(f, s, Check(k, sub));
    if k in mid.busy {
      WritesInTurn(f, mid, k, n);
      assert f(sub).updates[..n] == f(sub).updates;
      var end := RunOne(f, RunFrom(f, mid, writes), Finish(k));
      assert end.busy == s.busy;
    } else {
      NothingToDo(f, s, k, n);
      var _ := RunOne(f, s, Finish(k));
    }
  }

  lemma RunOne(f: MergeFunc, s: State, step: Step) returns (t: State)
    ensures t == RunFrom(f, s, [step]) && t == if Enabled(f, s, step) then Next(f, s, step) else s
  {
    assert [step][..0] == [];
    t := RunFrom(f, s, [step]);
  }

  lemma {:induction false} NothingToDo(f: MergeFunc, s: State, k: nat, n: nat)
    requires k !in s.busy
    ensures RunFrom(f, s, seq(n, _ => Write(k))) == s
  {
    if n > 0 {
      assert seq(n, _ => Write(k))[..n - 1] == seq(n - 1, _ => Write(k));
      NothingToDo(f, s, k, n - 1);
    }
  }

  // ---------------------------------------------------------------------------
  // The owner may have changed
  // ---------------------------------------------------------------------------

  /** Accepts everything and writes one byte to one object. */
  function WriteOne(sub: Submission): Decision {
    Decision(true, "", [UpdateRequest("o", Some([1]), 0, None, None)])
  }

  lemma AddStep(f: MergeFunc, steps: seq<Step>, s: State, step: Step, t: State) returns (more: seq<Step>)
    requires Run(f, steps) == s && Enabled(f, s, step) && Next(f, s, step) == t
    ensures more == steps + [step] && Run(f, more) == t
  {
    assert (steps + [step])[..|steps|] == steps;
    more := steps + [step];
  }

  lemma RunNothing(f: MergeFunc)
    ensures Run(f, []) == START
  {
  }

  /** A run in which "a" passes the check, its lease lapses, "b" is granted the task, and the update of "a" is
      written while "b" owns the task. */
  lemma OwnerMayHaveChanged() returns (steps: seq<Step>, late: Step)
    ensures var s := Run(WriteOne, steps);
            && late.Write? && Enabled(WriteOne, s, late) && Next(WriteOne, s, late).world != s.world
            && s.busy[late.k].sub.ownerId == "a" && s.busy[late.k].sub.taskId == "t" && Owns(s.tasks, "b", "t")
  {
    hide Run;
    var free := map["t" := T.Task("t", [], [], T.Available, "", None)];
    var first := map["t" := T.Task("t", [], [], T.Owned, "a", Some(10))];
    var second := map["t" := T.Task("t", [], [], T.Owned, "b", Some(22))];
    var sub := Submission("t", "a", None, None);
    var busy := map[0 := Handler(sub, 0)];
    RunNothing(WriteOne);
    steps := AddStep(WriteOne, [], START, Section(T.Add("t", [], [])), State(free, map[], map[]));
    steps := AddStep(WriteOne, steps, State(free, map[], map[]), Section(T.Begin("t", "a", 10, 0, 0)),
                     State(first, map[], map[]));
    steps := AddStep(WriteOne, steps, State(first, map[], map[]), Check(0, sub), State(first, map[], busy));
    steps := AddStep(WriteOne, steps, State(first, map[], busy), Section(T.Sweep(11)), State(free, map[], busy));
    steps := AddStep(WriteOne, steps, State(free, map[], busy), Section(T.Begin("t", "b", 10, 12, 12)),
                     State(second, map[], busy));
    late := Write(0);
    var s := State(second, map[], busy);
    assert "o" in Next(WriteOne, s, late).world;
  }
}

/** Over any network, even one that loses, copies and reorders messages and hooks while the tables are
    collected, versions are bounded by what was submitted; and when an adoption tops the diff it adopts. */
module VersionCeiling {
  import opened Protocol
  import opened Worlds
  import opened PeerNode
  import opened GossipNet
  import opened Traffic
  import opened HookNet
  import opened FineTraffic

  predicate IsAdoption(s: Fine, step: FineStep) {
    step.Plain? && step.lab.Work? && step.lab.n in s.busy && s.busy[step.lab.n].Adopting?
  }

  /** A submitted update of `x` is applied, and not refused. */
  ghost predicate Makes(c: Config, s: Fine, step: FineStep, x: string) {
    && FineEnabled(s, step) && !IsAdoption(s, step) && ApplyOf(c, s, step).Some?
    && var (n, req) := ApplyOf(c, s, step).value;
       n in s.net.nodes && req.objectId == x && Outcome(s.net.nodes[n].objects, req).Applied?
  }

  /** How many submitted updates of `x` have been applied anywhere over a run. */
  ghost function MadeSoFar(c: Config, run: seq<FineStep>, x: string): nat {
    if run == [] then 0
    else
      var init := run[..|run| - 1];
      MadeSoFar(c, init, x) + if Makes(c, FineAfter(c, init), run[|run| - 1], x) then 1 else 0
  }

  predicate DiffBelow(d: ObjectDiff, x: string, k: nat) {
    d.objectId == x ==> 1 <= d.version <= k
  }

  /** One more for a node that has found a newer diff and not applied it yet. */
  function Due(b: Busy, x: string): nat {
    if b.Adopting? && b.diff.objectId == x then 1 else 0
  }

  /** No version of `x` exceeds `k`, whether stored, about to be adopted, travelling, waiting in a hook or
      about to be sent on; all but the stored ones are at least 1. */
  ghost predicate Below(c: Config, s: Fine, x: string, k: nat)
    requires WellFormed(c) && FineShaped(c, s)
  {
    && (forall n :: n in c.nodes ==> At(s, n, x) + Due(s.busy[n], x) <= k)
    && (forall d :: Carried(c, s, d) ==> DiffBelow(d, x, k))
  }

  /** The version an apply stores, in a store and in its hook. */
  lemma ApplyBelow(objs: Objects, req: UpdateRequest, x: string)
    ensures Version(ApplyTo(objs, req), x)
         == Version(objs, x) + if req.objectId == x && Outcome(objs, req).Applied? then 1 else 0
    ensures Outcome(objs, req).Applied? ==>
              DiffBelow(HookDiff(Outcome(objs, req).obj), x, Version(ApplyTo(objs, req), x))
  {
  }

  lemma AdoptBelow(c: Config, s: Fine, n: NodeId, x: string)
    requires FineShaped(c, s) && n in c.nodes && s.busy[n].Adopting?
    ensures At(Worked(c, s, n), n, x) == At(s, n, x) + Due(s.busy[n], x) && Worked(c, s, n).busy[n].Hooking?
  {
    hide Stored;
    StoredShape(c, s, n, RequestFor(s.busy[n].diff, c.tags(n)));
  }

  lemma IdleBelow(c: Config, s: Fine, n: NodeId, x: string, k: nat)
    requires FineSound(c, s) && Below(c, s, x, k) && FineEnabled(s, Plain(Work(n))) && s.busy[n] == Idle
    ensures var t := Worked(c, s, n);
            At(t, n, x) + Due(t.busy[n], x) <= k + if Makes(c, s, Plain(Work(n)), x) then 1 else 0
  {
    hide Worked, Stored, Popped, Ahead, Emit, Sound;
    var instr := s.net.nodes[n].prog[0];
    WorkedIdle(c, s, n);
    PoppedShape(c, s, n);
    TakenIsAhead(c, s, n);
    assert At(Popped(s, n), n, x) == At(s, n, x);
    if instr.ApplyUpdate? {
      StoredShape(c, Popped(s, n), n, instr.req);
    } else if instr.Consider? {
      assert Carried(c, s, instr.diff);
    }
  }

  lemma NodesBelow(c: Config, s: Fine, step: FineStep, x: string, k: nat, n: NodeId)
    requires FineSound(c, s) && Below(c, s, x, k) && FineEnabled(s, step) && n in c.nodes
    ensures var t := FineNext(c, s, step);
            At(t, n, x) + Due(t.busy[n], x) <= k + if Makes(c, s, step, x) then 1 else 0
  {
    hide Carried, Sound, Outcome, ApplyTo, Worked, Stored, BusySourced;
    assert At(s, n, x) + Due(s.busy[n], x) <= k;
    if step.Plain? && step.lab.Work? {
      WorkBelow(c, s, step.lab.n, x, k, n);
    } else {
      hide FineNext;
      BusySame(c, s, step, n);
      StepStores(c, s, step);
      if step.Plain? && step.lab.LocalApply? { ApplyBelow(s.net.nodes[n].objects, step.lab.req, x); }
    }
  }

  lemma WorkBelow(c: Config, s: Fine, m: NodeId, x: string, k: nat, n: NodeId)
    requires FineSound(c, s) && Below(c, s, x, k) && FineEnabled(s, Plain(Work(m))) && n in c.nodes
    ensures var t := Worked(c, s, m);
            At(t, n, x) + Due(t.busy[n], x) <= k + if Makes(c, s, Plain(Work(m)), x) then 1 else 0
  {
    hide Carried, Sound, ApplyTo, Worked, Makes;
    assert At(s, n, x) + Due(s.busy[n], x) <= k;
    if m != n {
      WorkProgs(c, s, m);
      OtherObjects(c, s, m, n);
    } else {
      match s.busy[n] {
        case Adopting(_, _, _) => AdoptBelow(c, s, n, x);
        case Hooking(_, _, _) => HookedState(c, s, n);
        case Idle => IdleBelow(c, s, n, x, k);
      }
    }
  }

  lemma OtherObjects(c: Config, s: Fine, m: NodeId, n: NodeId)
    requires FineShaped(c, s) && FineEnabled(s, Plain(Work(m))) && n in c.nodes && n != m
    ensures Worked(c, s, m).net.nodes[n].objects == s.net.nodes[n].objects
  {
    hide Worked, ApplyTo;
    StepStores(c, s, Plain(Work(m)));
  }

  lemma DiffBelowMore(d: ObjectDiff, x: string, k: nat, k': nat)
    requires DiffBelow(d, x, k) && k <= k'
    ensures DiffBelow(d, x, k')
  {
  }

  lemma DiffsBelow(c: Config, s: Fine, step: FineStep, x: string, k: nat, d: ObjectDiff)
    requires FineSound(c, s) && Below(c, s, x, k) && FineEnabled(s, step) && Carried(c, FineNext(c, s, step), d)
    ensures DiffBelow(d, x, k + if Makes(c, s, step, x) then 1 else 0)
  {
    hide Carried, Sound, Outcome, HookDiff, FineNext, DiffBelow, ApplyTo, ApplyOf, BusySourced, Makes;
    var k' := k + if Makes(c, s, step, x) then 1 else 0;
    StepCarries(c, s, step, d);
    if Carried(c, s, d) {
      DiffBelowMore(d, x, k, k');
    } else if PassesOn(s, step, d) {
      var n := step.lab.n;
      PassedIsCarried(c, s, n);
      DiffBelowMore(s.busy[n].diff, x, k, k');
      SameBelow(s.busy[n].diff, x, k');
    } else {
      var (n, req) := ApplyOf(c, s, step).value;
      StepStores(c, s, step);
      NodesBelow(c, s, step, x, k, n);
      ApplyBelow(s.net.nodes[n].objects, req, x);
      DiffBelowMore(d, x, Version(ApplyTo(s.net.nodes[n].objects, req), x), k');
    }
  }

  lemma SameBelow(d: ObjectDiff, x: string, k: nat)
    requires DiffBelow(d, x, k)
    ensures DiffBelow(WireDiff(d), x, k)
  {
  }

  /** A step that applies no submitted update of `x` keeps every ceiling; one that does raises it by one.
      In particular lookups, deliveries, losses, copies, reorderings of messages and hooks, and collections
      of the de-duplication tables keep it, and so does an adoption, whose node was due. */
  lemma {:induction false} StepBelow(c: Config, s: Fine, step: FineStep, x: string, k: nat)
    requires FineSound(c, s) && Below(c, s, x, k) && FineEnabled(s, step)
    ensures FineSound(c, FineNext(c, s, step))
    ensures Below(c, FineNext(c, s, step), x, k + if Makes(c, s, step, x) then 1 else 0)
  {
    hide Carried, Sourced, BusySourced, FineNext, FineEnabled, Makes, DiffBelow;
    FineSoundStep(c, s, step);
    forall n | n in c.nodes
      ensures At(FineNext(c, s, step), n, x) + Due(FineNext(c, s, step).busy[n], x)
           <= k + if Makes(c, s, step, x) then 1 else 0
    {
      NodesBelow(c, s, step, x, k, n);
    }
    forall d | Carried(c, FineNext(c, s, step), d)
      ensures DiffBelow(d, x, k + if Makes(c, s, step, x) then 1 else 0)
    {
      DiffsBelow(c, s, step, x, k, d);
    }
  }

  /** Version ceiling: over any run of any network, every stored version of `x`, with one more for a node
      about to adopt a diff of it, is at most the number of submitted updates of `x` applied so far; so is
      every version travelling, waiting in a hook or about to be sent on, and it is at least 1. */
  lemma {:induction false} VersionsBelowMade(c: Config, run: seq<FineStep>, x: string)
    requires WellFormed(c)
    ensures FineSound(c, FineAfter(c, run)) && Below(c, FineAfter(c, run), x, MadeSoFar(c, run, x))
  {
    hide FineNext, FineEnabled, FineSound, Below;
    if run == [] {
      FirstIsBelow(c, x);
    } else {
      var init := run[..|run| - 1];
      VersionsBelowMade(c, init, x);
      MakesEnabled(c, FineAfter(c, init), run[|run| - 1], x);
      if FineEnabled(FineAfter(c, init), run[|run| - 1]) {
        StepBelow(c, FineAfter(c, init), run[|run| - 1], x, MadeSoFar(c, init, x));
      }
    }
  }

  lemma MakesEnabled(c: Config, s: Fine, step: FineStep, x: string)
    ensures Makes(c, s, step, x) ==> FineEnabled(s, step)
  {
  }

  lemma FirstIsBelow(c: Config, x: string)
    requires WellFormed(c)
    ensures FineSound(c, FineInit(c)) && Below(c, FineInit(c), x, 0)
  {
    hide Carried;
    FirstIsSound(c);
    FirstCarriesNothing(c);
  }

  // ---------------------------------------------------------------------------
  // Adoptions that make a version of their own
  // ---------------------------------------------------------------------------

  /** Whether a step is another goroutine's accepted write of `x` at `n`. */
  ghost predicate WritesBeside(s: Fine, step: FineStep, n: NodeId, x: string) {
    && step.Plain? && step.lab.LocalApply? && step.lab.n == n && n in s.net.nodes && step.lab.req.objectId == x
    && Outcome(s.net.nodes[n].objects, step.lab.req).Applied?
  }

  ghost function BesideSoFar(c: Config, s: Fine, steps: seq<FineStep>, n: NodeId, x: string): nat {
    if steps == [] then 0
    else
      var init := steps[..|steps| - 1];
      BesideSoFar(c, s, init, n, x) + if WritesBeside(FineFrom(c, s, init), steps[|steps| - 1], n, x) then 1 else 0
  }

  lemma BesideStep(c: Config, s: Fine, step: FineStep, n: NodeId, x: string)
    requires FineShaped(c, s) && n in c.nodes && s.busy[n].Adopting? && step != Plain(Work(n)) && FineEnabled(s, step)
    ensures FineNext(c, s, step).busy[n] == s.busy[n]
    ensures At(FineNext(c, s, step), n, x) == At(s, n, x) + if WritesBeside(s, step, n, x) then 1 else 0
  {
    hide Worked, Outcome, HookDiff, ApplyTo;
    StepStores(c, s, step);
    match step {
      case Plain(Work(m)) => WorkProgs(c, s, m);
      case Plain(LocalApply(m, req)) =>
        StoredShape(c, s, m, req);
      case _ =>
    }
  }

  lemma {:induction false} BesideRun(c: Config, s: Fine, steps: seq<FineStep>, n: NodeId, x: string)
    requires FineShaped(c, s) && n in c.nodes && s.busy[n].Adopting? && Plain(Work(n)) !in steps
    ensures FineShaped(c, FineFrom(c, s, steps)) && FineFrom(c, s, steps).busy[n] == s.busy[n]
    ensures At(FineFrom(c, s, steps), n, x) == At(s, n, x) + BesideSoFar(c, s, steps, n, x)
  {
    hide FineNext, FineEnabled, WritesBeside;
    if steps != [] {
      var init, t := steps[..|steps| - 1], FineFrom(c, s, steps[..|steps| - 1]);
      assert steps == init + [steps[|steps| - 1]];
      BesideRun(c, s, init, n, x);
      BesideEnabled(t, steps[|steps| - 1], n, x);
      if FineEnabled(t, steps[|steps| - 1]) {
        BesideStep(c, t, steps[|steps| - 1], n, x);
      }
    }
  }

  lemma BesideEnabled(s: Fine, step: FineStep, n: NodeId, x: string)
    ensures WritesBeside(s, step, n, x) ==> FineEnabled(s, step)
  {
  }

  /** An adoption ends above the version it adopts exactly when, since the lookup that found it newer, other
      goroutines have written the object often enough to reach that version themselves; each such write
      counts for one. */
  lemma AdoptionTops(c: Config, s: Fine, n: NodeId, steps: seq<FineStep>)
    requires FineShaped(c, s) && n in c.nodes && s.busy[n].Adopting? && Plain(Work(n)) !in steps
    ensures var d, t := s.busy[n].diff, FineFrom(c, s, steps);
            var beside := BesideSoFar(c, s, steps, n, d.objectId);
            && FineEnabled(t, Plain(Work(n)))
            && At(FineNext(c, t, Plain(Work(n))), n, d.objectId) == At(s, n, d.objectId) + beside + 1
            && (At(FineNext(c, t, Plain(Work(n))), n, d.objectId) > d.version
                <==> At(s, n, d.objectId) + beside >= d.version)
  {
    hide FineFrom, Worked, BesideSoFar;
    BesideRun(c, s, steps, n, s.busy[n].diff.objectId);
    AdoptBelow(c, FineFrom(c, s, steps), n, s.busy[n].diff.objectId);
  }
}

/** The submission pipeline of internal/merge/merge.go: a merge function decides which updates a
    result stands for, and the coordinator applies them in order. */
module Merge {
  import opened Base
  import opened Worlds

  datatype Submission = Submission(taskId: string, ownerId: string, data: Option<Bytes>, meta: Option<Bytes>)

  datatype Decision = Decision(accept: bool, reason: string, updates: seq<UpdateRequest>)

  type MergeFunc = Submission -> Decision

  datatype PerUpdate = PerUpdate(objectId: string, outcome: ApplyResult)

  datatype SubmitResult = SubmitResult(accepted: bool, reason: string, applied: seq<PerUpdate>)

  function PassThrough(sub: Submission): Decision {
    Decision(true, "", [])
  }

  // ---------------------------------------------------------------------------
  // Specification functions
  // ---------------------------------------------------------------------------

  /** The store after applying a batch left to right; refused requests leave it alone. */
  function ApplyAll(objs: Objects, us: seq<UpdateRequest>): Objects {
    if us == [] then objs else ApplyTo(ApplyAll(objs, us[..|us| - 1]), us[|us| - 1])
  }

  function AllResults(objs: Objects, us: seq<UpdateRequest>): seq<PerUpdate> {
    if us == [] then []
    else
      var init, last := us[..|us| - 1], us[|us| - 1];
      AllResults(objs, init) + [PerUpdate(last.objectId, Outcome(ApplyAll(objs, init), last))]
  }

  function AllEvents(objs: Objects, us: seq<UpdateRequest>): seq<ChangeEvent> {
    if us == [] then []
    else
      var init := us[..|us| - 1];
      AllEvents(objs, init) + ApplyEvents(ApplyAll(objs, init), us[|us| - 1])
  }

  // ---------------------------------------------------------------------------
  // The coordinator
  // ---------------------------------------------------------------------------

  class Coordinator {
    const world: World
    const mergeFunc: MergeFunc

    /** A missing merge function accepts every submission and updates nothing. */
    constructor (world: World, fn: Option<MergeFunc>)
      ensures this.world == world
      ensures mergeFunc == if fn.Some? then fn.value else PassThrough
      ensures fn.None? ==> forall sub :: mergeFunc(sub).accept && mergeFunc(sub).updates == []
    {
      this.world := world;
      var chosen: MergeFunc := PassThrough;
      if fn.Some? {
        chosen := fn.value;
      }
      mergeFunc := chosen;
    }

    method Submit(sub: Submission) returns (r: SubmitResult, fired: seq<ChangeEvent>)
      modifies world
      ensures r.accepted == mergeFunc(sub).accept
      ensures !r.accepted ==> world.objects == old(world.objects) && r.applied == [] && fired == []
      ensures !r.accepted ==>
                r.reason == if mergeFunc(sub).reason == "" then "rejected by merge function" else mergeFunc(sub).reason
      ensures r.accepted ==> r.reason == ""
      ensures r.accepted ==> world.objects == ApplyAll(old(world.objects), mergeFunc(sub).updates)
      ensures r.accepted ==> r.applied == AllResults(old(world.objects), mergeFunc(sub).updates)
      ensures r.accepted ==> fired == AllEvents(old(world.objects), mergeFunc(sub).updates)
    {
      var decision := mergeFunc(sub);
      if !decision.accept {
        var reason := if decision.reason == "" then "rejected by merge function" else decision.reason;
        return SubmitResult(false, reason, []), [];
      }
      var us := decision.updates;
      var applied: seq<PerUpdate> := [];
      fired := [];
      for i := 0 to |us|
        invariant world.objects == ApplyAll(old(world.objects), us[..i])
        invariant applied == AllResults(old(world.objects), us[..i])
        invariant fired == AllEvents(old(world.objects), us[..i])
      {
        assert us[..i + 1][..i] == us[..i];
        var outcome, events := world.Apply(us[i]);
        applied := applied + [PerUpdate(us[i].objectId, outcome)];
        fired := fired + events;
      }
      assert us[..|us|] == us;
      r := SubmitResult(true, "", applied);
    }
  }

  // ---------------------------------------------------------------------------
  // Batches
  // ---------------------------------------------------------------------------

  /** The i-th result answers the i-th update, in the store left by the updates before it. */
  lemma {:induction false} ResultsCorrespond(objs: Objects, us: seq<UpdateRequest>, i: nat)
    requires i < |us|
    ensures |AllResults(objs, us)| == |us|
    ensures AllResults(objs, us)[i] == PerUpdate(us[i].objectId, Outcome(ApplyAll(objs, us[..i]), us[i]))
  {
    var init := us[..|us| - 1];
    if i < |init| {
      ResultsCorrespond(objs, init, i);
      assert init[..i] == us[..i];
    } else {
      if init != [] { ResultsCorrespond(objs, init, 0); }
      assert us[..i] == init;
    }
  }

  /** Two batches one after the other are one batch: same store, results and events. */
  lemma {:induction false} BatchesConcatenate(objs: Objects, us: seq<UpdateRequest>, vs: seq<UpdateRequest>)
    ensures ApplyAll(objs, us + vs) == ApplyAll(ApplyAll(objs, us), vs)
    ensures AllResults(objs, us + vs) == AllResults(objs, us) + AllResults(ApplyAll(objs, us), vs)
    ensures AllEvents(objs, us + vs) == AllEvents(objs, us) + AllEvents(ApplyAll(objs, us), vs)
  {
    hide *;
    if vs == [] {
      assert us + vs == us;
      BatchNothing(ApplyAll(objs, us));
    } else {
      var init, last, mid := vs[..|vs| - 1], vs[|vs| - 1], ApplyAll(objs, us);
      BatchesConcatenate(objs, us, init);
      assert vs == init + [last];
      Associative(us, init, [last]);
      BatchSnoc(objs, us + init, last);
      BatchSnoc(mid, init, last);
      Associative(AllResults(objs, us), AllResults(mid, init),
                  [PerUpdate(last.objectId, Outcome(ApplyAll(mid, init), last))]);
      Associative(AllEvents(objs, us), AllEvents(mid, init), ApplyEvents(ApplyAll(mid, init), last));
    }
  }

  lemma BatchNothing(objs: Objects)
    ensures ApplyAll(objs, []) == objs && AllResults(objs, []) == [] && AllEvents(objs, []) == []
  {
  }

  lemma BatchSnoc(objs: Objects, us: seq<UpdateRequest>, last: UpdateRequest)
    ensures ApplyAll(objs, us + [last]) == ApplyTo(ApplyAll(objs, us), last)
    ensures AllResults(objs, us + [last])
              == AllResults(objs, us) + [PerUpdate(last.objectId, Outcome(ApplyAll(objs, us), last))]
    ensures AllEvents(objs, us + [last]) == AllEvents(objs, us) + ApplyEvents(ApplyAll(objs, us), last)
  {
    assert (us + [last])[..|us|] == us;
  }

  /** An update refused for its expected version leaves the store, the events and every other
      result as if it had not been in the batch. */
  lemma RefusedIsNoOp(objs: Objects, us: seq<UpdateRequest>, bad: UpdateRequest, vs: seq<UpdateRequest>)
    requires Outcome(ApplyAll(objs, us), bad).Refused?
    ensures ApplyAll(objs, us + [bad] + vs) == ApplyAll(objs, us + vs)
    ensures AllEvents(objs, us + [bad] + vs) == AllEvents(objs, us + vs)
    ensures var later := AllResults(ApplyAll(objs, us), vs);
            && AllResults(objs, us + vs) == AllResults(objs, us) + later
            && AllResults(objs, us + [bad] + vs)
               == AllResults(objs, us) + [PerUpdate(bad.objectId, Outcome(ApplyAll(objs, us), bad))] + later
  {
    BatchSnoc(objs, us, bad);
    RefusedChangesNothing(ApplyAll(objs, us), bad);
    hide *;
    BatchesConcatenate(objs, us + [bad], vs);
    BatchesConcatenate(objs, us, vs);
    assert AllEvents(objs, us) + [] == AllEvents(objs, us);
  }

  lemma RefusedChangesNothing(objs: Objects, bad: UpdateRequest)
    requires Outcome(objs, bad).Refused?
    ensures ApplyTo(objs, bad) == objs && ApplyEvents(objs, bad) == []
  {
  }
}

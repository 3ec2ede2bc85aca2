/** How runs without new submissions end: after finitely many steps, quiet, and agreed. */
module EndOfRuns {
  import opened GossipNet
  import opened Reaching
  import opened HookNet
  import opened FineTraffic
  import opened HookConvergence
  import opened FineConvergence
  import opened SubmitTermination

  /** A step that ends what is under way, over links that lose nothing and keep order, of messages and
      of the hooks of one object. */
  ghost predicate Orderly(s: Fine, step: FineStep) {
    Settling(s, step) && Ordered(s, step)
  }

  /** A lowest version of an object waits among the hooks of any link that has some. */
  lemma {:induction false} LowestHook(s: Fine, l: Link, i: nat) returns (k: nat)
    requires l in s.hooks && i < |s.hooks[l]|
    ensures k < |s.hooks[l]| && InOrder(s, l, k)
    decreases s.hooks[l][i].version
  {
    if InOrder(s, l, i) {
      k := i;
    } else {
      var j :| 0 <= j < |s.hooks[l]| && s.hooks[l][j].objectId == s.hooks[l][i].objectId
        && s.hooks[l][j].version < s.hooks[l][i].version;
      k := LowestHook(s, l, j);
    }
  }

  /** No deadlock: an orderly step is left exactly as long as the network is not quiet. In particular the
      hook an event loop waits for can always be sent in its turn. */
  lemma StuckIsQuiescent(c: Config, s: Fine)
    requires WellFormed(c) && FineShaped(c, s)
    ensures FineQuiescent(s) <==> !exists step :: Orderly(s, step)
  {
    if !exists step :: Orderly(s, step) {
      forall l | l in s.hooks
        ensures s.hooks[l] == []
      {
        if s.hooks[l] != [] {
          var k := LowestHook(s, l, 0);
          assert Orderly(s, Fire(l, k));
        }
      }
      forall n | n in s.busy
        ensures s.busy[n] == Idle && s.net.nodes[n].prog == []
      {
        assert !Orderly(s, Plain(Work(n)));
      }
      forall l | l in s.net.queues
        ensures s.net.queues[l] == []
      {
        assert !Orderly(s, Plain(Deliver(l, 0)));
      }
    }
  }

  /** The network goes on for as long as it is not quiet, by steps that do no harm to any link. */
  ghost predicate GoesOn(c: Config, s: Fine, step: FineStep, t: Fine)
    requires WellFormed(c) && FineShaped(c, s)
  {
    if FineQuiescent(s) then t == s else Moved(c, s, step, t) && Harmless(c, s, step)
  }

  ghost predicate IsMaximal(c: Config, run: nat -> Fine, step: nat -> FineStep)
    requires WellFormed(c)
  {
    forall j: nat :: FineShaped(c, run(j)) && GoesOn(c, run(j), step(j), run(j + 1))
  }

  ghost predicate Agreed(c: Config, s: Fine) {
    FineShaped(c, s) && forall a, b, x :: a in c.nodes && b in c.nodes ==> At(s, a, x) == At(s, b, x)
  }

  lemma {:induction false} RunIsHarmless(c: Config, past: seq<FineStep>, run: nat -> Fine, step: nat -> FineStep,
                                         i: nat) returns (p: seq<FineStep>)
    requires WellFormed(c) && HarmlessRun(c, past) && run(0) == FineAfter(c, past) && IsMaximal(c, run, step)
    ensures HarmlessRun(c, p) && run(i) == FineAfter(c, p)
  {
    hide FineAfter, HarmlessRun, Harmless, FineQuiescent, FineEnabled, FineNext;
    if i == 0 {
      p := past;
    } else {
      p := RunIsHarmless(c, past, run, step, i - 1);
      assert GoesOn(c, run(i - 1), step(i - 1), run(i - 1 + 1));
      if !FineQuiescent(run(i - 1)) {
        HarmlessNext(c, p, step(i - 1));
        NextPast(c, p, step(i - 1));
        p := p + [step(i - 1)];
      }
    }
  }

  lemma HarmlessNext(c: Config, past: seq<FineStep>, step: FineStep)
    requires WellFormed(c) && HarmlessRun(c, past)
    requires FineEnabled(FineAfter(c, past), step) && Harmless(c, FineAfter(c, past), step)
    ensures HarmlessRun(c, past + [step])
  {
    hide Harmless;
    assert (past + [step])[..|past|] == past;
  }

  /** Every maximal harmless run without new submissions, from any state a harmless run can reach, comes to
      a state where all is quiet and every node has the same version of every object. */
  lemma {:induction false} MaximalRunsAgree(c: Config, past: seq<FineStep>, run: nat -> Fine, step: nat -> FineStep)
    requires WellFormed(c) && Connected(c) && HarmlessRun(c, past) && run(0) == FineAfter(c, past)
    requires IsMaximal(c, run, step)
    ensures exists i: nat :: FineQuiescent(run(i)) && Agreed(c, run(i))
  {
    hide Connected, FineQuiescent, FineAfter, HarmlessRun, Moved;
    SubmissionsSettle(c, past, run, step);
    var i: nat :| !Moved(c, run(i), step(i), run(i + 1));
    assert GoesOn(c, run(i), step(i), run(i + 1));
    var p := RunIsHarmless(c, past, run, step, i);
    forall a, b, x | a in c.nodes && b in c.nodes
      ensures At(run(i), a, x) == At(run(i), b, x)
    {
      HarmlessRunsConverge(c, p, a, b, x);
    }
  }

  ghost predicate OrderlyOn(c: Config, s: Fine, step: FineStep, t: Fine) {
    if FineQuiescent(s) then t == s else Orderly(s, step) && t == FineNext(c, s, step)
  }

  /** A run that goes on by orderly steps, lossless and in turn. */
  ghost predicate IsOrderly(c: Config, run: nat -> Fine, step: nat -> FineStep) {
    forall j: nat :: OrderlyOn(c, run(j), step(j), run(j + 1))
  }

  lemma {:induction false} OrderlyPast(c: Config, past: seq<FineStep>, run: nat -> Fine, step: nat -> FineStep,
                                       i: nat) returns (p: seq<FineStep>)
    requires WellFormed(c) && OrderedRun(c, past) && run(0) == FineAfter(c, past) && IsOrderly(c, run, step)
    ensures OrderedRun(c, p) && run(i) == FineAfter(c, p)
  {
    hide FineAfter, OrderedRun, Ordered, FineQuiescent, FineEnabled, FineNext;
    if i == 0 {
      p := past;
    } else {
      p := OrderlyPast(c, past, run, step, i - 1);
      assert OrderlyOn(c, run(i - 1), step(i - 1), run(i - 1 + 1));
      if !FineQuiescent(run(i - 1)) {
        OrderedNext(c, p, step(i - 1));
        NextPast(c, p, step(i - 1));
        p := p + [step(i - 1)];
      }
    }
  }

  lemma OrderedNext(c: Config, past: seq<FineStep>, step: FineStep)
    requires OrderedRun(c, past) && FineEnabled(FineAfter(c, past), step) && Ordered(FineAfter(c, past), step)
    ensures OrderedRun(c, past + [step])
  {
    hide Ordered;
    assert (past + [step])[..|past|] == past;
  }

  /** Over lossless links whose hooks leave in version order, a network left alone always ends agreed. */
  lemma {:induction false} OrderlyRunsAgree(c: Config, past: seq<FineStep>, run: nat -> Fine, step: nat -> FineStep)
    requires WellFormed(c) && Connected(c) && OrderedRun(c, past) && run(0) == FineAfter(c, past)
    requires IsOrderly(c, run, step)
    ensures exists i: nat :: FineQuiescent(run(i)) && Agreed(c, run(i))
  {
    hide Connected, FineQuiescent, FineAfter, OrderedRun, Orderly, Ordered, HarmlessRun, Harmless, FineNext;
    OrderedRunIsHarmless(c, past);
    forall j: nat
      ensures FineShaped(c, run(j)) && GoesOn(c, run(j), step(j), run(j + 1))
    {
      OrderlyGoesOn(c, past, run, step, j);
    }
    MaximalRunsAgree(c, past, run, step);
  }

  lemma OrderlyGoesOn(c: Config, past: seq<FineStep>, run: nat -> Fine, step: nat -> FineStep, j: nat)
    requires WellFormed(c) && OrderedRun(c, past) && run(0) == FineAfter(c, past) && IsOrderly(c, run, step)
    ensures FineShaped(c, run(j)) && GoesOn(c, run(j), step(j), run(j + 1))
  {
    hide FineQuiescent, FineAfter, OrderedRun, Ordered, HarmlessRun, Harmless, FineNext;
    var p := OrderlyPast(c, past, run, step, j);
    OrderedRunIsHarmless(c, p);
    HarmlessRunIsFine(c, p);
    assert OrderlyOn(c, run(j), step(j), run(j + 1));
    if !FineQuiescent(run(j)) {
      OrderedIsHarmless(c, run(j), step(j));
    }
  }
}

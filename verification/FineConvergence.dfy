/** Version convergence over whole runs in the finer steps, its exact condition, and the run in which
    one hook overtakes another. */
module FineConvergence {
  import opened Protocol
  import opened GossipNet
  import opened Traffic
  import opened Reaching
  import opened HookNet
  import opened FineTraffic
  import opened HookConvergence

  // ---------------------------------------------------------------------------
  // Runs
  // ---------------------------------------------------------------------------

  /** Every step that sends a hook, loses a message or takes one out of turn leaves its link in order. */
  ghost predicate HarmlessRun(c: Config, run: seq<FineStep>)
    requires WellFormed(c)
  {
    run == [] ||
    var init, step := run[..|run| - 1], run[|run| - 1];
    HarmlessRun(c, init) && (FineEnabled(FineAfter(c, init), step) ==> Harmless(c, FineAfter(c, init), step))
  }

  /** Links lose nothing and keep order, and the hooks of one object leave over each link in version
      order. Messages may be copied. */
  ghost predicate Ordered(s: Fine, step: FineStep)
    requires FineEnabled(s, step)
  {
    match step
    case Fire(l, i) => InOrder(s, l, i)
    case Plain(Lose(_, _)) => false
    case Plain(Deliver(_, i)) => i == 0
    case _ => true
  }

  ghost predicate OrderedRun(c: Config, run: seq<FineStep>) {
    run == [] ||
    var init, step := run[..|run| - 1], run[|run| - 1];
    OrderedRun(c, init) && (FineEnabled(FineAfter(c, init), step) ==> Ordered(FineAfter(c, init), step))
  }

  lemma FirstIsFine(c: Config)
    requires WellFormed(c)
    ensures FineInv(c, FineInit(c))
  {
    forall l, x | l in c.links
      ensures LinkFine(c, FineInit(c), l, x)
    {
      NothingAtFirst(c, l);
      assert Ahead(FineInit(c), l) == [];
    }
  }

  lemma OrderedIsHarmless(c: Config, s: Fine, step: FineStep)
    requires FineInv(c, s) && FineEnabled(s, step) && Ordered(s, step)
    ensures Harmless(c, s, step)
  {
    hide LinkFine, NodesFine, FineNext;
    InvShape(c, s);
    match step {
      case Fire(l, i) => InOrderIsHarmless(c, s, l, i);
      case _ =>
    }
  }

  /** In every state of a harmless run no link hides a version its receiver lacks, unless a hook with
      that version is still to be sent over it, and none carries a gap. */
  lemma {:induction false} HarmlessRunIsFine(c: Config, run: seq<FineStep>)
    requires WellFormed(c) && HarmlessRun(c, run)
    ensures FineInv(c, FineAfter(c, run))
  {
    hide FineInv, FineNext, Harmless;
    if run == [] {
      FirstIsFine(c);
    } else {
      var init, s := run[..|run| - 1], FineAfter(c, run[..|run| - 1]);
      HarmlessRunIsFine(c, init);
      if FineEnabled(s, run[|run| - 1]) {
        StepKeeps(c, s, run[|run| - 1]);
      }
    }
  }

  lemma {:induction false} OrderedRunIsHarmless(c: Config, run: seq<FineStep>)
    requires WellFormed(c) && OrderedRun(c, run)
    ensures HarmlessRun(c, run)
  {
    hide FineInv, FineNext, Harmless, Ordered;
    if run != [] {
      var init, s := run[..|run| - 1], FineAfter(c, run[..|run| - 1]);
      OrderedRunIsHarmless(c, init);
      HarmlessRunIsFine(c, init);
      if FineEnabled(s, run[|run| - 1]) {
        OrderedIsHarmless(c, s, run[|run| - 1]);
      }
    }
  }

  // ---------------------------------------------------------------------------
  // The theorems
  // ---------------------------------------------------------------------------

  lemma {:induction false} NoDropOnPath(c: Config, s: Fine, p: seq<NodeId>, x: string)
    requires FineInv(c, s) && FineQuiescent(s) && IsPath(c, p) && p[0] in c.nodes && p[|p| - 1] in c.nodes
    ensures At(s, p[0], x) <= At(s, p[|p| - 1], x)
    decreases |p|
  {
    if |p| > 1 {
      var l := Link(p[0], p[1]);
      assert l in c.links && LinkFine(c, s, l, x);
      assert Ahead(s, l) == [];
      assert !Pending(s.hooks[l], x, At(s, l.src, x));
      NoDropOnPath(c, s, p[1..], x);
    }
  }

  /** Versions converge over every harmless run: with any number of writers and goroutines, lossy links
      included, once all is quiet every node has the same version of every object. */
  lemma {:induction false} HarmlessRunsConverge(c: Config, run: seq<FineStep>, a: NodeId, b: NodeId, x: string)
    requires WellFormed(c) && Connected(c) && HarmlessRun(c, run) && FineQuiescent(FineAfter(c, run)) && a in c.nodes
    requires b in c.nodes
    ensures At(FineAfter(c, run), a, x) == At(FineAfter(c, run), b, x)
  {
    hide FineInv, FineQuiescent, HarmlessRun;
    HarmlessRunIsFine(c, run);
    var p :| IsPath(c, p) && p[0] == a && p[|p| - 1] == b;
    var q :| IsPath(c, q) && q[0] == b && q[|q| - 1] == a;
    NoDropOnPath(c, FineAfter(c, run), p, x);
    NoDropOnPath(c, FineAfter(c, run), q, x);
  }

  /** And so they do over lossless links, if the hooks of one object leave a node in version order. */
  lemma {:induction false} VersionsConvergeInOrder(c: Config, run: seq<FineStep>, a: NodeId, b: NodeId, x: string)
    requires WellFormed(c) && Connected(c) && OrderedRun(c, run) && FineQuiescent(FineAfter(c, run)) && a in c.nodes
    requires b in c.nodes
    ensures At(FineAfter(c, run), a, x) == At(FineAfter(c, run), b, x)
  {
    OrderedRunIsHarmless(c, run);
    HarmlessRunsConverge(c, run, a, b, x);
  }

  /** A replica takes its own version plus one, so it ends at the diff's version exactly when the diff
      is one ahead at that moment; this holds in every state whatsoever. */
  lemma AdoptionIsExactIff(c: Config, s: Fine, n: NodeId)
    requires n in s.net.nodes && n in s.busy && s.busy[n].Adopting?
    ensures var d := s.busy[n].diff;
            At(Worked(c, s, n), n, d.objectId) == d.version <==> d.version == At(s, n, d.objectId) + 1
  {
  }

  /** In a harmless run a diff is never more than one ahead when it is adopted, so the replica ends at
      its version or, when another goroutine has written meanwhile, above it. */
  lemma {:induction false} AdoptionIsInTurn(c: Config, run: seq<FineStep>, n: NodeId)
    requires WellFormed(c) && HarmlessRun(c, run) && n in c.nodes && FineAfter(c, run).busy[n].Adopting?
    ensures var s, d := FineAfter(c, run), FineAfter(c, run).busy[n].diff;
            && 1 <= d.version <= At(s, n, d.objectId) + 1 == At(Worked(c, s, n), n, d.objectId)
            && (At(Worked(c, s, n), n, d.objectId) == d.version <==> At(s, n, d.objectId) < d.version)
  {
    hide FineInv, HarmlessRun, FineAfter;
    HarmlessRunIsFine(c, run);
    AdoptedIsInTurn(c, FineAfter(c, run), n);
    AdoptionRaises(c, FineAfter(c, run), n);
  }

  lemma AdoptionRaises(c: Config, s: Fine, n: NodeId)
    requires n in s.net.nodes && n in s.busy && s.busy[n].Adopting?
    ensures At(Worked(c, s, n), n, s.busy[n].diff.objectId) == At(s, n, s.busy[n].diff.objectId) + 1
  {
  }

  /** A message skipped as already seen never hides a version its receiver lacks, taken in turn or not. */
  lemma {:induction false} SkippedIsOld(c: Config, run: seq<FineStep>, l: Link, i: nat)
    requires WellFormed(c) && HarmlessRun(c, run) && FineEnabled(FineAfter(c, run), Plain(Deliver(l, i)))
    requires IdOf(FineAfter(c, run).net.queues[l][i]) in FineAfter(c, run).net.nodes[l.dst].seen
    ensures var s := FineAfter(c, run);
            forall d :: d in BodyDiffs(s.net.queues[l][i].body) ==> d.version <= At(s, l.dst, d.objectId)
  {
    hide HarmlessRun, FineAfter, FineEnabled;
    HarmlessRunIsFine(c, run);
    SeenIsOld(c, FineAfter(c, run), l, i);
  }
}

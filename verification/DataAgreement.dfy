/** When replicas agree on content: several nodes and goroutines may write the same object, and versions
    still converge, but equal versions with different content are never reconciled. */
module DataAgreement {
  import opened Protocol
  import opened Worlds
  import opened GossipNet
  import opened Traffic
  import opened Reaching
  import opened HookNet
  import opened FineTraffic
  import opened HookConvergence
  import opened FineConvergence

  /** A version made at `n`, as it is encoded: version, data and meta. */
  datatype Creation = Creation(n: NodeId, diff: ObjectDiff)

  /** An adoption that leaves the replica with exactly the diff makes nothing new. */
  ghost predicate Copies(s: Fine, step: FineStep, made: ObjectDiff)
    requires FineEnabled(s, step)
  {
    step.Plain? && step.lab.Work? && s.busy[step.lab.n].Adopting? && s.busy[step.lab.n].diff == made
  }

  /** What a step makes of `x`: the version it stores, unless that is a copy. */
  ghost function NewCreations(c: Config, s: Fine, step: FineStep, x: string): set<Creation>
    requires FineEnabled(s, step) && FineShaped(c, s)
  {
    match ApplyOf(c, s, step)
    case None => {}
    case Some((n, req)) =>
      match Outcome(s.net.nodes[n].objects, req)
      case Applied(o) => if req.objectId == x && !Copies(s, step, HookDiff(o)) then {Creation(n, HookDiff(o))} else {}
      case Refused(_) => {}
  }

  /** All the versions of `x` made over a run. */
  ghost function Creations(c: Config, run: seq<FineStep>, x: string): set<Creation> {
    if run == [] then {}
    else
      var s, step := FineAfter(c, run[..|run| - 1]), run[|run| - 1];
      Creations(c, run[..|run| - 1], x) + if FineEnabled(s, step) then NewCreations(c, s, step, x) else {}
  }

  // ---------------------------------------------------------------------------
  // The invariant
  // ---------------------------------------------------------------------------

  ghost predicate Made(made: set<Creation>, d: ObjectDiff) {
    exists e :: e in made && e.diff == d
  }

  /** What a store holds was made somewhere. */
  ghost predicate HoldsMade(objs: Objects, made: set<Creation>, x: string) {
    x in objs ==> objs[x].id == x && objs[x].version >= 1 && Made(made, HookDiff(objs[x]))
  }

  /** A maker keeps what it made until it gets a later version. */
  ghost predicate Keeps(objs: Objects, e: Creation, x: string) {
    && WireDiff(e.diff) == e.diff
    && (Version(objs, x) > e.diff.version || (x in objs && HookDiff(objs[x]) == e.diff))
  }

  ghost predicate Traced(c: Config, s: Fine, made: set<Creation>, x: string) {
    && WellFormed(c) && FineShaped(c, s)
    && (forall n :: n in c.nodes ==> HoldsMade(s.net.nodes[n].objects, made, x))
    && (forall d :: Carried(c, s, d) && d.objectId == x ==> Made(made, d))
    && (forall e :: e in made ==> e.n in c.nodes && Keeps(s.net.nodes[e.n].objects, e, x))
  }

  lemma MadeGrows(made: set<Creation>, more: set<Creation>, d: ObjectDiff)
    requires Made(made, d)
    ensures Made(made + more, d)
  {
    var e :| e in made && e.diff == d;
    assert e in made + more;
  }

  // ---------------------------------------------------------------------------
  // One apply
  // ---------------------------------------------------------------------------

  /** The store after an apply holds what was made before, or was copied, or is made now; and its hook
      carries just that. */
  lemma ApplyTraces(n: NodeId, objs: Objects, req: UpdateRequest, made: set<Creation>, more: set<Creation>, x: string,
                    copied: bool)
    requires HoldsMade(objs, made, x)
    requires forall e :: e in made && e.n == n ==> Keeps(objs, e, x)
    requires Outcome(objs, req).Applied? && req.objectId == x ==>
               (if copied then more == {} && Made(made, HookDiff(Outcome(objs, req).obj))
                else more == {Creation(n, HookDiff(Outcome(objs, req).obj))})
    requires !(Outcome(objs, req).Applied? && req.objectId == x) ==> more == {}
    ensures HoldsMade(ApplyTo(objs, req), made + more, x)
    ensures forall e :: e in made + more && e.n == n ==> Keeps(ApplyTo(objs, req), e, x)
    ensures Outcome(objs, req).Applied? && req.objectId == x ==> Made(made + more, HookDiff(Outcome(objs, req).obj))
  {
    hide WireData, WireMeta;
    var objs' := ApplyTo(objs, req);
    if Outcome(objs, req).Applied? && req.objectId == x {
      var d := HookDiff(Outcome(objs, req).obj);
      if copied {
        MadeGrows(made, more, d);
      } else {
        assert Creation(n, d) in made + more;
      }
      assert WireDiff(d) == d by { HookIsWire(Outcome(objs, req).obj); }
    } else {
      assert made + more == made;
    }
  }

  lemma HookIsWire(o: Object)
    ensures WireDiff(HookDiff(o)) == HookDiff(o)
  {
  }

  // ---------------------------------------------------------------------------
  // One step
  // ---------------------------------------------------------------------------

  /** The new store of a node, and the hooks it gets. */
  lemma StoresTraced(c: Config, s: Fine, step: FineStep, made: set<Creation>, x: string)
    requires FineInv(c, s) && Traced(c, s, made, x) && FineEnabled(s, step) && ApplyOf(c, s, step).Some?
    ensures var (n, req) := ApplyOf(c, s, step).value;
            var objs, made' := s.net.nodes[n].objects, made + NewCreations(c, s, step, x);
            && HoldsMade(ApplyTo(objs, req), made', x)
            && (forall e :: e in made' && e.n == n ==> Keeps(ApplyTo(objs, req), e, x))
            && (Outcome(objs, req).Applied? && req.objectId == x ==> Made(made', HookDiff(Outcome(objs, req).obj)))
  {
    hide HookDiff, HoldsMade, Keeps, ApplyTo, LinkFine, NodesFine;
    InvShape(c, s);
    var (n, req) := ApplyOf(c, s, step).value;
    var objs := s.net.nodes[n].objects;
    var copied := Outcome(objs, req).Applied? && Copies(s, step, HookDiff(Outcome(objs, req).obj));
    if copied && req.objectId == x {
      CopyIsMade(c, s, step, made, x);
    }
    ApplyTraces(n, objs, req, made, NewCreations(c, s, step, x), x, copied);
  }

  lemma CopyIsMade(c: Config, s: Fine, step: FineStep, made: set<Creation>, x: string)
    requires FineInv(c, s) && Traced(c, s, made, x) && FineEnabled(s, step)
    requires step.Plain? && step.lab.Work? && s.busy[step.lab.n].Adopting? && s.busy[step.lab.n].diff.objectId == x
    ensures Made(made, s.busy[step.lab.n].diff)
  {
    hide Carried, NodesFine, LinkFine;
    NodesAreSound(c, s);
    PassedIsCarried(c, s, step.lab.n);
  }

  /** The copy that an adoption passes on was made as it is: encoding it again changes nothing. */
  lemma PassedIsMade(c: Config, s: Fine, step: FineStep, made: set<Creation>, x: string)
    requires FineInv(c, s) && Traced(c, s, made, x) && FineEnabled(s, step)
    requires step.Plain? && step.lab.Work? && s.busy[step.lab.n].Adopting? && s.busy[step.lab.n].diff.objectId == x
    ensures Made(made, WireDiff(s.busy[step.lab.n].diff))
  {
    hide Carried, NodesFine, LinkFine, WireDiff, HoldsMade;
    CopyIsMade(c, s, step, made, x);
    var e :| e in made && e.diff == s.busy[step.lab.n].diff;
    assert Keeps(s.net.nodes[e.n].objects, e, x);
  }

  lemma DiffsTraced(c: Config, s: Fine, step: FineStep, made: set<Creation>, x: string, d: ObjectDiff)
    requires FineInv(c, s) && Traced(c, s, made, x) && FineEnabled(s, step)
    requires WellFormed(c) && FineShaped(c, s) && Carried(c, FineNext(c, s, step), d) && d.objectId == x
    ensures Made(made + NewCreations(c, s, step, x), d)
  {
    hide Carried, NodesFine, LinkFine, Outcome, HookDiff, NewCreations, FineNext, ApplyOf, HoldsMade, Keeps, Made;
    NodesAreSound(c, s);
    StepCarries(c, s, step, d);
    if Carried(c, s, d) {
      MadeGrows(made, NewCreations(c, s, step, x), d);
    } else if PassesOn(s, step, d) {
      PassedIsMade(c, s, step, made, x);
      MadeGrows(made, NewCreations(c, s, step, x), d);
    } else {
      var (n, req) := ApplyOf(c, s, step).value;
      HookSubject(s.net.nodes[n].objects, req);
      StoresTraced(c, s, step, made, x);
    }
  }

  lemma TracedStep(c: Config, s: Fine, step: FineStep, made: set<Creation>, x: string)
    requires FineInv(c, s) && Traced(c, s, made, x) && FineEnabled(s, step)
    ensures Traced(c, FineNext(c, s, step), made + NewCreations(c, s, step, x), x)
  {
    hide Carried, NodesFine, LinkFine, HoldsMade, Keeps, FineNext, FineEnabled;
    InvShape(c, s);
    NodesTraced(c, s, step, made, x);
    forall d | Carried(c, FineNext(c, s, step), d) && d.objectId == x
      ensures Made(made + NewCreations(c, s, step, x), d)
    {
      DiffsTraced(c, s, step, made, x, d);
    }
  }

  lemma NodesTraced(c: Config, s: Fine, step: FineStep, made: set<Creation>, x: string)
    requires FineInv(c, s) && Traced(c, s, made, x) && FineEnabled(s, step)
    ensures var t, made' := FineNext(c, s, step), made + NewCreations(c, s, step, x);
            && (forall n :: n in c.nodes ==> HoldsMade(t.net.nodes[n].objects, made', x))
            && (forall e :: e in made' ==> e.n in c.nodes && Keeps(t.net.nodes[e.n].objects, e, x))
  {
    hide Carried, NodesFine, LinkFine, HoldsMade, Keeps, FineEnabled, ApplyTo, Outcome;
    InvShape(c, s);
    var t, apply, more := FineNext(c, s, step), ApplyOf(c, s, step), NewCreations(c, s, step, x);
    StepStores(c, s, step);
    CreationsOf(c, s, step);
    if apply.Some? {
      StoresTraced(c, s, step, made, x);
    }
    forall n | n in c.nodes
      ensures HoldsMade(t.net.nodes[n].objects, made + more, x)
    {
      if apply.None? || apply.value.0 != n {
        HoldsGrows(s.net.nodes[n].objects, made, more, x);
      }
    }
  }

  lemma HoldsGrows(objs: Objects, made: set<Creation>, more: set<Creation>, x: string)
    requires HoldsMade(objs, made, x)
    ensures HoldsMade(objs, made + more, x)
  {
    if x in objs { MadeGrows(made, more, HookDiff(objs[x])); }
  }

  lemma CreationsOf(c: Config, s: Fine, step: FineStep)
    requires FineShaped(c, s) && FineEnabled(s, step)
    ensures ApplyOf(c, s, step).None? ==> forall x :: NewCreations(c, s, step, x) == {}
    ensures ApplyOf(c, s, step).Some? ==>
              forall x, e :: e in NewCreations(c, s, step, x) ==> e.n == ApplyOf(c, s, step).value.0
  {
  }

  lemma {:induction false} RunTraced(c: Config, run: seq<FineStep>, x: string)
    requires WellFormed(c) && HarmlessRun(c, run)
    ensures Traced(c, FineAfter(c, run), Creations(c, run, x), x)
  {
    hide FineInv, FineNext, Harmless, Traced, NewCreations;
    if run == [] {
      FirstIsTraced(c, x);
    } else {
      var init, s := run[..|run| - 1], FineAfter(c, run[..|run| - 1]);
      RunTraced(c, init, x);
      HarmlessRunIsFine(c, init);
      if FineEnabled(s, run[|run| - 1]) {
        TracedStep(c, s, run[|run| - 1], Creations(c, init, x), x);
      } else {
        assert Creations(c, run, x) == Creations(c, init, x);
      }
    }
  }

  lemma FirstIsTraced(c: Config, x: string)
    requires WellFormed(c)
    ensures Traced(c, FineInit(c), {}, x)
  {
    hide Carried;
    FirstCarriesNothing(c);
  }

  // ---------------------------------------------------------------------------
  // The theorem
  // ---------------------------------------------------------------------------

  /** All the creations of one version of `x` have the same content. */
  ghost predicate Uncontested(made: set<Creation>, version: nat) {
    forall d, e :: d in made && e in made && d.diff.version == version && e.diff.version == version ==> d.diff == e.diff
  }

  ghost predicate SameCopies(c: Config, s: Fine, x: string)
    requires FineShaped(c, s) && forall n :: n in c.nodes ==> x in s.net.nodes[n].objects
  {
    forall n, m :: n in c.nodes && m in c.nodes ==>
      HookDiff(s.net.nodes[n].objects[x]) == HookDiff(s.net.nodes[m].objects[x])
  }

  /** Content at quiescence: with any number of writers and goroutines, all replicas hold the same version,
      data and meta of `x`, as encoded, if and only if no two contents were made as its last version. */
  lemma {:induction false} ContentAgreesIffUncontested(c: Config, run: seq<FineStep>, x: string, w: NodeId)
    requires WellFormed(c) && Connected(c) && HarmlessRun(c, run) && FineQuiescent(FineAfter(c, run))
    requires w in c.nodes && x in FineAfter(c, run).net.nodes[w].objects
    ensures var s := FineAfter(c, run);
            && (forall n :: n in c.nodes ==> x in s.net.nodes[n].objects)
            && (SameCopies(c, s, x) <==> Uncontested(Creations(c, run, x), s.net.nodes[w].objects[x].version))
  {
    hide FineAfter, Connected, Creations, Traced, FineQuiescent, Uncontested, HarmlessRun, SameCopies;
    RunTraced(c, run, x);
    var s := FineAfter(c, run);
    forall n | n in c.nodes
      ensures At(s, n, x) == At(s, w, x)
    {
      HarmlessRunsConverge(c, run, n, w, x);
    }
    AgreementAt(c, s, Creations(c, run, x), x, w);
  }

  lemma AgreementAt(c: Config, s: Fine, made: set<Creation>, x: string, w: NodeId)
    requires Traced(c, s, made, x) && FineShaped(c, s) && w in c.nodes && x in s.net.nodes[w].objects
    requires forall n :: n in c.nodes ==> At(s, n, x) == At(s, w, x)
    ensures forall n :: n in c.nodes ==> x in s.net.nodes[n].objects
    ensures SameCopies(c, s, x) <==> Uncontested(made, s.net.nodes[w].objects[x].version)
  {
    hide Traced, HookDiff;
    var v := s.net.nodes[w].objects[x].version;
    EachIsMade(c, s, made, x);
    forall n | n in c.nodes
      ensures x in s.net.nodes[n].objects && s.net.nodes[n].objects[x].version == v
    {
      assert At(s, n, x) == At(s, w, x);
    }
    hide At;
    if SameCopies(c, s, x) {
      forall d, e | d in made && e in made && d.diff.version == v && e.diff.version == v
        ensures d.diff == e.diff
      {
        MakerHolds(c, s, made, x, d, v);
        MakerHolds(c, s, made, x, e, v);
      }
    }
  }

  lemma MakerHolds(c: Config, s: Fine, made: set<Creation>, x: string, e: Creation, v: nat)
    requires Traced(c, s, made, x) && FineShaped(c, s) && e in made && e.diff.version == v
    requires forall n :: n in c.nodes ==> x in s.net.nodes[n].objects && s.net.nodes[n].objects[x].version == v
    ensures e.n in c.nodes && HookDiff(s.net.nodes[e.n].objects[x]) == e.diff
  {
    hide Traced, HookDiff;
    MakerKept(c, s, made, x, e);
  }

  lemma EachIsMade(c: Config, s: Fine, made: set<Creation>, x: string)
    requires Traced(c, s, made, x)
    ensures forall n :: n in c.nodes && x in s.net.nodes[n].objects ==>
              exists e :: e in made && e.diff == HookDiff(s.net.nodes[n].objects[x])
                          && e.diff.version == s.net.nodes[n].objects[x].version
    ensures forall n :: n in c.nodes && x in s.net.nodes[n].objects ==> s.net.nodes[n].objects[x].version >= 1
  {
    hide Carried, Keeps;
    forall n | n in c.nodes && x in s.net.nodes[n].objects
      ensures exists e :: e in made && e.diff == HookDiff(s.net.nodes[n].objects[x])
                          && e.diff.version == s.net.nodes[n].objects[x].version
      ensures s.net.nodes[n].objects[x].version >= 1
    {
      assert HoldsMade(s.net.nodes[n].objects, made, x);
    }
  }

  lemma MakerKept(c: Config, s: Fine, made: set<Creation>, x: string, e: Creation)
    requires Traced(c, s, made, x) && e in made
    ensures e.n in c.nodes && Keeps(s.net.nodes[e.n].objects, e, x)
  {
    hide Carried, HoldsMade, Keeps;
  }

  // ---------------------------------------------------------------------------
  // One maker
  // ---------------------------------------------------------------------------

  /** No node makes two contents as the same version. */
  ghost predicate MadeOnce(made: set<Creation>) {
    forall d, e :: d in made && e in made && d.n == e.n && d.diff.version == e.diff.version ==> d.diff == e.diff
  }

  lemma NothingMadeTwice()
    ensures MadeOnce({})
  {
  }

  lemma StepMakesOnce(c: Config, s: Fine, step: FineStep, made: set<Creation>, x: string)
    requires FineInv(c, s) && Traced(c, s, made, x) && FineShaped(c, s) && FineEnabled(s, step) && MadeOnce(made)
    ensures MadeOnce(made + NewCreations(c, s, step, x))
  {
    hide Carried, FineInv, HoldsMade;
    forall d, e | d in made && e in NewCreations(c, s, step, x) && d.n == e.n
      ensures d.diff.version < e.diff.version
    {
      MakerKept(c, s, made, x, d);
    }
  }

  /** Over any harmless run, with any number of writers, each node makes each version of `x` at most once. */
  lemma {:induction false} EachMakesOnce(c: Config, run: seq<FineStep>, x: string)
    requires WellFormed(c) && HarmlessRun(c, run)
    ensures MadeOnce(Creations(c, run, x))
  {
    hide FineInv, FineNext, Harmless, Traced, NewCreations, MadeOnce;
    if run == [] {
      NothingMadeTwice();
    } else {
      var init, s := run[..|run| - 1], FineAfter(c, run[..|run| - 1]);
      EachMakesOnce(c, init, x);
      RunTraced(c, init, x);
      HarmlessRunIsFine(c, init);
      if FineEnabled(s, run[|run| - 1]) {
        StepMakesOnce(c, s, run[|run| - 1], Creations(c, init, x), x);
      } else {
        assert Creations(c, run, x) == Creations(c, init, x);
      }
    }
  }

  /** When one node makes all the versions of `x`, every copy anywhere is, as encoded, what that node made
      as the copy's version, and it made nothing else as that version. */
  lemma {:induction false} SoleMaker(c: Config, run: seq<FineStep>, x: string, w: NodeId, n: NodeId)
    requires WellFormed(c) && HarmlessRun(c, run) && n in c.nodes && x in FineAfter(c, run).net.nodes[n].objects
    requires forall e :: e in Creations(c, run, x) ==> e.n == w
    ensures var copy := HookDiff(FineAfter(c, run).net.nodes[n].objects[x]);
            && Creation(w, copy) in Creations(c, run, x)
            && forall e :: e in Creations(c, run, x) && e.diff.version == copy.version ==> e.diff == copy
  {
    hide FineAfter, Creations, Traced, HarmlessRun, HookDiff;
    RunTraced(c, run, x);
    EachMakesOnce(c, run, x);
    EachIsMade(c, FineAfter(c, run), Creations(c, run, x), x);
  }
}

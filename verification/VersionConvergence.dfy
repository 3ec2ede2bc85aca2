/** What the finer network's theorems say of the coarser one, in which an apply and its hook are one step. */
module VersionConvergence {
  import opened Protocol
  import opened Worlds
  import opened GossipNet
  import opened Traffic
  import opened Reaching
  import opened HookNet
  import opened FineTraffic
  import opened HookConvergence
  import opened FineConvergence
  import opened AtomicSteps

  /** The sender is no further on than the receiver will be once the link is drained, and the
      diffs on the link carry no gap. */
  ghost predicate LinkOk(s: Net, l: Link, x: string)
    requires l in s.queues && l.src in s.nodes && l.dst in s.nodes
  {
    var v, ds := Version(s.nodes[l.dst].objects, x), LinkDiffs(s, l);
    NoGap(v, ds, x) && Version(s.nodes[l.src].objects, x) <= Reach(v, ds, x)
  }

  lemma LiftedLink(c: Config, s: Net, l: Link, x: string)
    requires WellFormed(c) && Shaped(c, s) && l in c.links && FineInv(c, Lifted(s))
    ensures LinkOk(s, l, x) && Ahead(Lifted(s), l) == LinkDiffs(s, l)
  {
    hide NodesFine, LinkDiffs, Reach, NoGap, Served;
    assert LinkFine(c, Lifted(s), l, x);
    assert Ahead(Lifted(s), l) == [] + LinkDiffs(s, l) == LinkDiffs(s, l);
    assert Lifted(s).hooks[l] == [];
    NoHookPends(Version(s.nodes[l.dst].objects, x), Version(s.nodes[l.src].objects, x), LinkDiffs(s, l), x);
  }

  lemma NoHookPends(v: nat, w: nat, ds: seq<ObjectDiff>, x: string)
    requires Served(v, w, ds, [], x)
    ensures NoGap(v, ds, x) && w <= Reach(v, ds, x)
  {
    assert !Pending([], x, w);
  }

  /** In every state reached over lossless links that were up from the start, no link hides a
      version its receiver lacks and none carries a gap. */
  lemma {:induction false} RunInv(c: Config, run: seq<Label>, l: Link, x: string)
    requires WellFormed(c) && AllLossless(run) && l in c.links
    ensures LinkOk(NetAfter(c, run), l, x)
  {
    hide FineInv, Lifted, LinkOk, AllLossless;
    var _ := LosslessIsFine(c, run);
    LiftedLink(c, NetAfter(c, run), l, x);
  }

  lemma {:induction false} LosslessIsFine(c: Config, run: seq<Label>) returns (steps: seq<FineStep>)
    requires WellFormed(c) && AllLossless(run)
    ensures FineAfter(c, steps) == Lifted(NetAfter(c, run)) && HarmlessRun(c, steps)
    ensures FineInv(c, Lifted(NetAfter(c, run)))
  {
    hide FineInv, Lifted, AllLossless, HarmlessRun, OrderedRun;
    steps := CoarseRunsAreFineRuns(c, run);
    OrderedRunIsHarmless(c, steps);
    HarmlessRunIsFine(c, steps);
  }

  lemma LiftedQuiet(s: Net)
    requires Quiescent(s)
    ensures FineQuiescent(Lifted(s))
  {
  }

  /** Version convergence: for any number of writers and any interleaving of local and remote
      submissions, deliveries and collections of the de-duplication tables, once nothing is in
      flight every node has the same version of every object. */
  lemma {:induction false} VersionsConverge(c: Config, run: seq<Label>)
    requires WellFormed(c) && Connected(c) && AllLossless(run)
    ensures var s := NetAfter(c, run);
            && Shaped(c, s)
            && (Quiescent(s) ==> forall a, b, x :: a in c.nodes && b in c.nodes ==>
                  Version(s.nodes[a].objects, x) == Version(s.nodes[b].objects, x))
  {
    hide FineInv, HarmlessRun, Connected, AllLossless, Quiescent;
    var steps := LosslessIsFine(c, run);
    var s := NetAfter(c, run);
    if Quiescent(s) {
      forall a, b, x | a in c.nodes && b in c.nodes
        ensures Version(s.nodes[a].objects, x) == Version(s.nodes[b].objects, x)
      {
        LiftedQuiet(s);
        HarmlessRunsConverge(c, steps, a, b, x);
      }
    }
  }

  /** A message skipped as already seen never hides a version its receiver lacks. */
  lemma {:induction false} SkippedMessageIsOld(c: Config, run: seq<Label>, l: Link)
    requires WellFormed(c) && AllLossless(run)
    requires Enabled(NetAfter(c, run), Deliver(l, 0))
    requires IdOf(NetAfter(c, run).queues[l][0]) in NetAfter(c, run).nodes[l.dst].seen
    ensures var s := NetAfter(c, run);
            forall d :: d in BodyDiffs(s.queues[l][0].body) ==> d.version <= Version(s.nodes[l.dst].objects, d.objectId)
  {
    hide FineInv, HarmlessRun, AllLossless, FineAfter, IdOf, BodyDiffs;
    var steps := LosslessIsFine(c, run);
    OtherIsPlain(c, NetAfter(c, run), Deliver(l, 0));
    SkippedIsOld(c, steps, l, 0);
  }

  /** Although a replica takes its own version plus one and never the sender's, an accepted diff
      always leaves it at exactly the diff's version. */
  lemma {:induction false} AcceptedDiffIsExact(c: Config, run: seq<Label>, n: NodeId)
    requires WellFormed(c) && AllLossless(run)
    requires Enabled(NetAfter(c, run), Work(n)) && NetAfter(c, run).nodes[n].prog[0].Consider?
    ensures var s := NetAfter(c, run);
            var d := s.nodes[n].prog[0].diff;
            var before := Version(s.nodes[n].objects, d.objectId);
            Version(Next(c, s, Work(n)).nodes[n].objects, d.objectId)
              == if before < d.version then d.version else before
  {
    hide FineInv, HarmlessRun, AllLossless, FineAfter, LinkDiffs;
    var s := NetAfter(c, run);
    var instr := s.nodes[n].prog[0];
    SoundRun(c, run);
    assert Sourced(c, n, instr);
    var l := Link(instr.from, n);
    RunInv(c, run, l, instr.diff.objectId);
    HeadOfLink(s, l);
  }

  /** And only then: in every state of any network, lossy or not, a newer diff leaves the replica at its
      version exactly when it is one ahead. */
  lemma AcceptedIsExactIff(c: Config, s: Net, n: NodeId)
    requires Enabled(s, Work(n)) && s.nodes[n].prog[0].Consider?
    requires s.nodes[n].prog[0].diff.version > Version(s.nodes[n].objects, s.nodes[n].prog[0].diff.objectId)
    ensures var d := s.nodes[n].prog[0].diff;
            Version(Next(c, s, Work(n)).nodes[n].objects, d.objectId) == d.version
            <==> d.version == Version(s.nodes[n].objects, d.objectId) + 1
  {
  }

  lemma HeadOfLink(s: Net, l: Link)
    requires l in s.queues && l.dst in s.nodes && s.nodes[l.dst].prog != []
    requires s.nodes[l.dst].prog[0].Consider? && s.nodes[l.dst].prog[0].from == l.src
    ensures LinkDiffs(s, l) != [] && LinkDiffs(s, l)[0] == s.nodes[l.dst].prog[0].diff
  {
  }
}

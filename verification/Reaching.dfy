/** What a receiver makes of the diffs that reach it, and how the messages of the network are told apart. */
module Reaching {
  import opened Protocol
  import opened Merge
  import opened PeerNode
  import opened GossipNet
  import P = Peering

  // ---------------------------------------------------------------------------
  // What a receiver makes of a series of diffs
  // ---------------------------------------------------------------------------

  function Raise(v: nat, d: ObjectDiff, x: string): nat {
    if d.objectId == x && d.version > v then d.version else v
  }

  /** The version of `x` a receiver at `v` reaches by adopting newer versions in order. */
  function Reach(v: nat, ds: seq<ObjectDiff>, x: string): nat
    decreases ds
  {
    if ds == [] then v else Reach(Raise(v, ds[0], x), ds[1..], x)
  }

  /** Every diff carries a real version, no more than one ahead of the receiver when its turn
      comes. */
  predicate NoGap(v: nat, ds: seq<ObjectDiff>, x: string)
    decreases ds
  {
    ds == [] || ((ds[0].objectId == x ==> 1 <= ds[0].version <= v + 1) && NoGap(Raise(v, ds[0], x), ds[1..], x))
  }

  lemma {:induction false} ReachConcat(v: nat, a: seq<ObjectDiff>, b: seq<ObjectDiff>, x: string)
    ensures Reach(v, a + b, x) == Reach(Reach(v, a, x), b, x)
    ensures NoGap(v, a + b, x) <==> NoGap(v, a, x) && NoGap(Reach(v, a, x), b, x)
    decreases a
  {
    if a == [] {
      assert a + b == b;
    } else {
      assert (a + b)[1..] == a[1..] + b;
      ReachConcat(Raise(v, a[0], x), a[1..], b, x);
    }
  }

  lemma ReachOne(v: nat, d: ObjectDiff, x: string)
    ensures Reach(v, [d], x) == Raise(v, d, x)
    ensures NoGap(v, [d], x) <==> (d.objectId == x ==> 1 <= d.version <= v + 1)
  {
    assert [d][1..] == [];
  }

  /** A receiver that is further on reaches at least as far, and sees no new gap. */
  lemma {:induction false} ReachMonotone(v: nat, w: nat, ds: seq<ObjectDiff>, x: string)
    requires v <= w
    ensures v <= Reach(v, ds, x) <= Reach(w, ds, x)
    ensures NoGap(v, ds, x) ==> NoGap(w, ds, x)
    decreases ds
  {
    if ds != [] {
      ReachMonotone(Raise(v, ds[0], x), Raise(w, ds[0], x), ds[1..], x);
    }
  }

  /** Diffs the receiver already has make no difference. */
  lemma {:induction false} ReachCovered(v: nat, ds: seq<ObjectDiff>, x: string)
    requires forall i :: 0 <= i < |ds| && ds[i].objectId == x ==> ds[i].version <= v
    ensures Reach(v, ds, x) == v
    decreases ds
  {
    if ds != [] {
      ReachCovered(v, ds[1..], x);
    }
  }

  // ---------------------------------------------------------------------------
  // Messages and the topology
  // ---------------------------------------------------------------------------

  /** World updates of the network carry no request id, so they are known by their content. */
  predicate CleanEnv(env: Envelope) {
    env.body.WorldUpdate? ==> env.requestId == ""
  }

  predicate CleanInstr(instr: Instr) {
    instr.Consider? ==> instr.requestId == ""
  }

  ghost predicate Clean(s: Net) {
    && (forall l, i :: l in s.queues && 0 <= i < |s.queues[l]| ==> CleanEnv(s.queues[l][i]))
    && (forall n, i :: n in s.nodes && 0 <= i < |s.nodes[n].prog| ==> CleanInstr(s.nodes[n].prog[i]))
  }

  ghost predicate InHand(n: NodeState, d: ObjectDiff) {
    exists i :: 0 <= i < |n.prog| && n.prog[i].Consider? && n.prog[i].diff == d
  }

  lemma {:induction false} AddressedFrom(sends: seq<P.Send>, dst: NodeId)
    requires forall i :: 0 <= i < |sends| ==> CleanEnv(sends[i].env)
    ensures forall i :: 0 <= i < |Addressed(sends, dst)| ==> CleanEnv(Addressed(sends, dst)[i])
  {
    if sends != [] {
      AddressedFrom(sends[1..], dst);
    }
  }

  lemma ProgramClean(merge: MergeFunc, env: Envelope, from: NodeId)
    requires CleanEnv(env)
    ensures var prog := Program(merge, env, from);
            forall i :: 0 <= i < |prog| ==> CleanInstr(prog[i])
  {
    match env.body
    case WorldUpdate(ds) => ConsidersAre(ds, env.requestId, from);
    case SubmitResult(_, _, _) => AppliesAre(UpdatesOf(merge, SubmissionOf(env.body, from)));
    case Unhandled(_) =>
  }

  ghost predicate IsPath(c: Config, p: seq<NodeId>) {
    p != [] && (forall i :: 0 <= i < |p| - 1 ==> Link(p[i], p[i + 1]) in c.links)
  }

  ghost predicate Connected(c: Config) {
    forall a, b :: a in c.nodes && b in c.nodes ==> exists p :: IsPath(c, p) && p[0] == a && p[|p| - 1] == b
  }
}

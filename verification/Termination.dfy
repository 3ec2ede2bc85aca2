/** Floods end. Every accepted diff is sent on twice to every neighbour, so it is not clear from
    the handlers that a network ever falls silent; a measure over the whole network shows it. */
module Termination {
  import opened Base
  import opened Protocol
  import opened Worlds
  import opened PeerNode
  import opened GossipNet
  import opened Traffic
  import opened HookNet
  import opened FineTraffic
  import opened VersionCeiling

  ghost function OutLinks(c: Config, n: NodeId): set<Link> {
    set l | l in c.links && l.src == n
  }

  ghost predicate DegreeAtMost(c: Config, degree: nat) {
    forall n :: n in c.nodes ==> |OutLinks(c, n)| <= degree
  }

  /** A ceiling for every object that is on its way anywhere. */
  ghost predicate Ceilings(c: Config, s: Fine, ceil: map<string, nat>) {
    && FineSound(c, s)
    && (forall x :: x in ceil ==> Below(c, s, x, ceil[x]))
    && (forall d :: Carried(c, s, d) ==> d.objectId in ceil)
  }

  // ---------------------------------------------------------------------------
  // The measure
  // ---------------------------------------------------------------------------

  ghost function Pairs(c: Config, ceil: map<string, nat>): set<(NodeId, string)> {
    set n, x | n in c.nodes && x in ceil :: (n, x)
  }

  function Gap(ceiling: nat, v: nat): nat {
    if v <= ceiling then ceiling - v else 0
  }

  /** How far each node is from the ceiling of each object. */
  ghost function Gaps(c: Config, s: Fine, ceil: map<string, nat>): map<(NodeId, string), nat>
    requires FineShaped(c, s)
  {
    map p | p in Pairs(c, ceil) :: Gap(ceil[p.1], At(s, p.0, p.1))
  }

  /** A queued message counts once for itself and twice for each diff it carries; a waiting hook counts
      more than the message it will be. */
  function Load(q: seq<Envelope>, hooks: seq<ObjectDiff>): nat {
    |q| + 2 * |QueueDiffs(q)| + 4 * |hooks|
  }

  ghost function LinkLoads(s: Fine): map<Link, nat>
    requires s.hooks.Keys == s.net.queues.Keys
  {
    map l | l in s.hooks :: Load(s.net.queues[l], s.hooks[l])
  }

  /** What an event loop within an instruction has still to send, at most. */
  function BusyLoad(b: Busy, degree: nat): nat {
    match b
    case Idle => 0
    case Adopting(_, _, _) => 1
    case Hooking(_, _, _) => 3 * degree + 1
  }

  ghost function NodeLoads(s: Fine, degree: nat): map<NodeId, nat>
    requires s.busy.Keys == s.net.nodes.Keys
  {
    map n | n in s.busy :: 2 * |s.net.nodes[n].prog| + BusyLoad(s.busy[n], degree)
  }

  ghost function Measure(c: Config, s: Fine, ceil: map<string, nat>, degree: nat): nat
    requires FineShaped(c, s)
  {
    (7 * degree + 1) * Total(Gaps(c, s, ceil)) + Total(LinkLoads(s)) + Total(NodeLoads(s, degree))
  }

  // ---------------------------------------------------------------------------
  // Gossip steps lower it
  // ---------------------------------------------------------------------------

  /** A step that neither applies a submitted update nor relays or starts a submission. */
  ghost predicate IsGossip(s: Fine, step: FineStep) {
    && FineEnabled(s, step)
    && match step
       case Fire(_, _) => true
       case Plain(Deliver(l, i)) =>
         !s.net.queues[l][i].body.SubmitResult? || IdOf(s.net.queues[l][i]) in s.net.nodes[l.dst].seen
       case Plain(Work(n)) => s.busy[n] == Idle ==> s.net.nodes[n].prog[0].Consider?
       case Plain(Lose(_, _)) => true
       case _ => false
  }

  ghost predicate Floods(s: Fine, step: FineStep) {
    FineEnabled(s, step) && (IsGossip(s, step) || (step.Plain? && step.lab.Forget?))
  }

  /** The only apply of these steps is an adoption, of an object that was on its way. */
  lemma AdoptedIsIn(c: Config, s: Fine, step: FineStep, ceil: map<string, nat>)
    requires Ceilings(c, s, ceil) && Floods(s, step) && ApplyOf(c, s, step).Some?
    ensures var (n, req) := ApplyOf(c, s, step).value;
            && n in c.nodes && step == Plain(Work(n)) && s.busy[n].Adopting?
            && req == RequestFor(s.busy[n].diff, c.tags(n)) && req.objectId in ceil
  {
    hide Carried, Below, Sound;
    PassedIsCarried(c, s, ApplyOf(c, s, step).value.0);
  }

  /** Gossip brings no new object on its way. */
  lemma StaysIn(c: Config, s: Fine, step: FineStep, ceil: map<string, nat>, d: ObjectDiff)
    requires Ceilings(c, s, ceil) && Floods(s, step) && Carried(c, FineNext(c, s, step), d)
    ensures d.objectId in ceil
  {
    hide Carried, FineNext, Below, BusySourced, Sourced, HookDiff, Outcome, IsGossip, ApplyOf;
    StepCarries(c, s, step, d);
    if PassesOn(s, step, d) {
      PassedIsCarried(c, s, step.lab.n);
    } else if FiresHook(c, s, step, d) {
      var (n, req) := ApplyOf(c, s, step).value;
      AdoptedIsIn(c, s, step, ceil);
      HookSubject(s.net.nodes[n].objects, req);
    }
  }

  lemma {:induction false} CeilingsKept(c: Config, s: Fine, step: FineStep, ceil: map<string, nat>)
    requires Ceilings(c, s, ceil) && Floods(s, step)
    ensures Ceilings(c, FineNext(c, s, step), ceil)
  {
    hide Below, Carried, FineNext, Sourced, BusySourced, IsGossip;
    FineSoundStep(c, s, step);
    forall x | x in ceil
      ensures Below(c, FineNext(c, s, step), x, ceil[x])
    {
      StepBelow(c, s, step, x, ceil[x]);
      GossipMakesNothing(c, s, step, x);
    }
    forall d | Carried(c, FineNext(c, s, step), d)
      ensures d.objectId in ceil
    {
      StaysIn(c, s, step, ceil, d);
    }
  }

  lemma GossipMakesNothing(c: Config, s: Fine, step: FineStep, x: string)
    requires Floods(s, step)
    ensures !Makes(c, s, step, x)
  {
  }

  lemma SameGaps(c: Config, s: Fine, t: Fine, ceil: map<string, nat>)
    requires FineShaped(c, s) && FineShaped(c, t)
    requires forall n :: n in c.nodes ==> t.net.nodes[n].objects == s.net.nodes[n].objects
    ensures Gaps(c, t, ceil) == Gaps(c, s, ceil)
  {
  }

  lemma LoadLess(q: seq<Envelope>, i: nat, hooks: seq<ObjectDiff>)
    requires i < |q|
    ensures Load(Without(q, i), hooks) + 1 + 2 * |BodyDiffs(q[i].body)| == Load(q, hooks)
  {
    hide QueueDiffs;
    WithoutDiffs(q, i);
  }

  lemma LoadMore(q: seq<Envelope>, more: seq<Envelope>, hooks: seq<ObjectDiff>)
    ensures Load(q + more, hooks) == Load(q, hooks) + |more| + 2 * |QueueDiffs(more)|
  {
    hide QueueDiffs;
    QueueDiffsConcat(q, more);
  }

  /** A hook that has become a message of one diff weighs one less. */
  lemma LoadFired(q: seq<Envelope>, hooks: seq<ObjectDiff>, i: nat)
    requires i < |hooks|
    ensures Load(q + [HookEnvelope(hooks[i])], Without(hooks, i)) + 1 == Load(q, hooks)
  {
    LoadMore(q, [HookEnvelope(hooks[i])], Without(hooks, i));
    QueueDiffsTwo(HookEnvelope(hooks[i]), HookEnvelope(hooks[i]));
  }

  /** A change of one link changes the total by that link's load. */
  lemma LinkUpdate(c: Config, s: Fine, t: Fine, l: Link)
    requires FineShaped(c, s) && FineShaped(c, t) && l in c.links
    requires forall k :: k in c.links && k != l ==> t.net.queues[k] == s.net.queues[k] && t.hooks[k] == s.hooks[k]
    ensures Total(LinkLoads(t)) + Load(s.net.queues[l], s.hooks[l])
         == Total(LinkLoads(s)) + Load(t.net.queues[l], t.hooks[l])
  {
    hide Total, Load;
    var load := Load(t.net.queues[l], t.hooks[l]);
    assert LinkLoads(t) == LinkLoads(s)[l := load];
    TotalUpdate(LinkLoads(s), l, load);
  }

  /** A change at one node changes the total by that node's load. */
  lemma NodeUpdate(c: Config, s: Fine, t: Fine, n: NodeId, degree: nat)
    requires FineShaped(c, s) && FineShaped(c, t) && n in c.nodes
    requires forall m :: m in c.nodes && m != n ==> t.net.nodes[m].prog == s.net.nodes[m].prog && t.busy[m] == s.busy[m]
    ensures Total(NodeLoads(t, degree)) + NodeLoads(s, degree)[n]
         == Total(NodeLoads(s, degree)) + NodeLoads(t, degree)[n]
  {
    hide Total, BusyLoad;
    assert NodeLoads(t, degree) == NodeLoads(s, degree)[n := NodeLoads(t, degree)[n]];
    TotalUpdate(NodeLoads(s, degree), n, NodeLoads(t, degree)[n]);
  }

  lemma DeliverProg(c: Config, s: Net, l: Link, i: nat)
    requires Shaped(c, s) && Enabled(s, Deliver(l, i))
    requires !s.queues[l][i].body.SubmitResult? || IdOf(s.queues[l][i]) in s.nodes[l.dst].seen
    ensures var t := Receive(c, s, l, i);
            && |t.nodes[l.dst].prog| <= |BodyDiffs(s.queues[l][i].body)|
            && (forall m | m in c.nodes && m != l.dst :: t.nodes[m] == s.nodes[m])
            && t.queues == s.queues[l := Without(s.queues[l], i)]
  {
    hide QueueDiffs;
    var env := s.queues[l][i];
    if env.body.WorldUpdate? { ConsidersAre(env.body.objects, env.requestId, l.src); }
  }

  lemma DeliverFalls(c: Config, s: Fine, l: Link, i: nat, ceil: map<string, nat>, degree: nat)
    requires FineSound(c, s) && IsGossip(s, Plain(Deliver(l, i)))
    ensures Measure(c, FineNext(c, s, Plain(Deliver(l, i))), ceil, degree) < Measure(c, s, ceil, degree)
  {
    hide QueueDiffs, Gaps, LinkLoads, Total, Program, IdOf, Receive, Load;
    var t := FineNext(c, s, Plain(Deliver(l, i)));
    DeliverProg(c, s.net, l, i);
    ReceiveShape(c, s.net, l, i);
    LoadLess(s.net.queues[l], i, s.hooks[l]);
    LinkUpdate(c, s, t, l);
    SameGaps(c, s, t, ceil);
    NodeUpdate(c, s, t, l.dst, degree);
  }

  lemma LoseFalls(c: Config, s: Fine, l: Link, i: nat, ceil: map<string, nat>, degree: nat)
    requires FineSound(c, s) && FineEnabled(s, Plain(Lose(l, i)))
    ensures Measure(c, FineNext(c, s, Plain(Lose(l, i))), ceil, degree) < Measure(c, s, ceil, degree)
  {
    hide QueueDiffs, Gaps, LinkLoads, Total, Load;
    var t := FineNext(c, s, Plain(Lose(l, i)));
    LoadLess(s.net.queues[l], i, s.hooks[l]);
    LinkUpdate(c, s, t, l);
    SameGaps(c, s, t, ceil);
    SameNodes(s, t, degree);
  }

  lemma FireFalls(c: Config, s: Fine, l: Link, i: nat, ceil: map<string, nat>, degree: nat)
    requires FineSound(c, s) && FineEnabled(s, Fire(l, i))
    ensures Measure(c, FineNext(c, s, Fire(l, i)), ceil, degree) < Measure(c, s, ceil, degree)
  {
    hide QueueDiffs, Gaps, LinkLoads, Total, Load, HookEnvelope, Without;
    var t := FineNext(c, s, Fire(l, i));
    LoadFired(s.net.queues[l], s.hooks[l], i);
    LinkUpdate(c, s, t, l);
    SameGaps(c, s, t, ceil);
    SameNodes(s, t, degree);
  }

  lemma SameNodes(s: Fine, t: Fine, degree: nat)
    requires s.busy.Keys == s.net.nodes.Keys && t.net.nodes == s.net.nodes && t.busy == s.busy
    ensures NodeLoads(t, degree) == NodeLoads(s, degree)
  {
  }

  /** What is sent on after a hook is at most one message with one diff for each link out of its node. */
  lemma OnwardLoad(c: Config, s: Fine, n: NodeId, l: Link)
    requires FineSound(c, s) && n in c.nodes && s.busy[n].Hooking? && l in c.links
    ensures LinkLoads(Worked(c, s, n))[l] <= LinkLoads(s)[l] + if l.src == n then 3 else 0
  {
    hide QueueDiffs, Load, Addressed;
    var sends := s.busy[n].onward;
    OnwardSent(c, n, s.busy[n], l.dst);
    LoadMore(s.net.queues[l], Addressed(sends, l.dst), s.hooks[l]);
  }

  lemma HookedFalls(c: Config, s: Fine, n: NodeId, ceil: map<string, nat>, degree: nat)
    requires FineSound(c, s) && DegreeAtMost(c, degree) && n in c.nodes && s.busy[n].Hooking?
    ensures Measure(c, Worked(c, s, n), ceil, degree) < Measure(c, s, ceil, degree)
  {
    hide Load, Gaps, Total, Emit, Sound, LinkLoads, BusySourced;
    var t := Worked(c, s, n);
    HookedState(c, s, n);
    SameGaps(c, s, t, ceil);
    NodeUpdate(c, s, t, n, degree);
    HookedLoads(c, s, n);
    assert |OutLinks(c, n)| <= degree;
  }

  lemma {:induction false} HookedLoads(c: Config, s: Fine, n: NodeId)
    requires FineSound(c, s) && n in c.nodes && s.busy[n].Hooking?
    ensures Total(LinkLoads(Worked(c, s, n))) <= Total(LinkLoads(s)) + 3 * |OutLinks(c, n)|
  {
    hide Total, Worked, Sourced, BusySourced, Load;
    assert LinkLoads(s).Keys == LinkLoads(Worked(c, s, n)).Keys == c.links;
    forall l | l in c.links
      ensures LinkLoads(Worked(c, s, n))[l] <= LinkLoads(s)[l] + if l in OutLinks(c, n) then 3 else 0
    {
      OnwardLoad(c, s, n, l);
    }
    TotalRaise(LinkLoads(s), LinkLoads(Worked(c, s, n)), OutLinks(c, n), 3);
  }

  /** An adoption brings its node one version nearer to the ceiling. */
  lemma {:induction false} AdoptGaps(c: Config, s: Fine, n: NodeId, ceil: map<string, nat>)
    requires Ceilings(c, s, ceil) && n in c.nodes && s.busy[n].Adopting?
    ensures Total(Gaps(c, Worked(c, s, n), ceil)) + 1 <= Total(Gaps(c, s, ceil))
  {
    hide Total, Worked, Sound, Carried, Due, DiffBelow, BusySourced, Version;
    var x, before, after := s.busy[n].diff.objectId, Gaps(c, s, ceil), Gaps(c, Worked(c, s, n), ceil);
    PassedIsCarried(c, s, n);
    forall p | p in Pairs(c, ceil)
      ensures after[p] <= before[p] && (p == (n, x) ==> after[p] + 1 <= before[p])
    {
      AdoptGap(c, s, n, p.0, p.1, ceil[p.1]);
    }
    assert (n, x) in Pairs(c, ceil);
    TotalDrop(before, after, (n, x), 1);
  }

  lemma AdoptGap(c: Config, s: Fine, n: NodeId, m: NodeId, x: string, k: nat)
    requires FineSound(c, s) && n in c.nodes && s.busy[n].Adopting? && m in c.nodes && Below(c, s, x, k)
    ensures Gap(k, At(Worked(c, s, n), m, x)) <= Gap(k, At(s, m, x))
    ensures m == n && x == s.busy[n].diff.objectId ==> Gap(k, At(Worked(c, s, n), m, x)) + 1 <= Gap(k, At(s, m, x))
  {
    hide Worked, Sound, Carried, DiffBelow;
    if m == n { AdoptBelow(c, s, n, x); } else { OtherObjects(c, s, n, m); }
    assert At(s, m, x) + Due(s.busy[m], x) <= k;
  }

  lemma AdoptLoads(c: Config, s: Fine, n: NodeId, degree: nat)
    requires FineShaped(c, s) && DegreeAtMost(c, degree) && n in c.nodes && s.busy[n].Adopting?
    ensures Total(LinkLoads(Worked(c, s, n))) <= Total(LinkLoads(s)) + 4 * degree
    ensures Total(NodeLoads(Worked(c, s, n), degree)) <= Total(NodeLoads(s, degree)) + 3 * degree
  {
    hide Total, Worked, LinkLoads;
    var t := Worked(c, s, n);
    AdoptShape(c, s, n);
    NodeUpdate(c, s, t, n, degree);
    HookLoads(c, s, n);
    assert |OutLinks(c, n)| <= degree;
  }

  lemma AdoptShape(c: Config, s: Fine, n: NodeId)
    requires FineShaped(c, s) && n in c.nodes && s.busy[n].Adopting?
    ensures var t := Worked(c, s, n);
            && t.net.queues == s.net.queues && t.busy[n].Hooking?
            && (forall m :: m in c.nodes ==> t.net.nodes[m].prog == s.net.nodes[m].prog)
            && (forall m :: m in c.nodes && m != n ==> t.busy[m] == s.busy[m])
            && (forall l :: l in c.links ==>
                  t.hooks[l] == s.hooks[l] || (l.src == n && |t.hooks[l]| == |s.hooks[l]| + 1))
  {
    hide Stored;
    var req := RequestFor(s.busy[n].diff, c.tags(n));
    StoredShape(c, s, n, req);
    forall l | l in c.links
      ensures Stored(s, n, req).hooks[l] == s.hooks[l]
           || (l.src == n && |Stored(s, n, req).hooks[l]| == |s.hooks[l]| + 1)
    {
      StoredHooks(s, n, req, l);
    }
  }

  lemma {:induction false} HookLoads(c: Config, s: Fine, n: NodeId)
    requires FineShaped(c, s) && n in c.nodes && s.busy[n].Adopting?
    ensures Total(LinkLoads(Worked(c, s, n))) <= Total(LinkLoads(s)) + 4 * |OutLinks(c, n)|
  {
    hide Total, Worked, QueueDiffs;
    AdoptShape(c, s, n);
    assert LinkLoads(s).Keys == LinkLoads(Worked(c, s, n)).Keys == c.links;
    TotalRaise(LinkLoads(s), LinkLoads(Worked(c, s, n)), OutLinks(c, n), 4);
  }

  lemma AdoptFalls(c: Config, s: Fine, n: NodeId, ceil: map<string, nat>, degree: nat)
    requires Ceilings(c, s, ceil) && DegreeAtMost(c, degree) && n in c.nodes && s.busy[n].Adopting?
    ensures Measure(c, Worked(c, s, n), ceil, degree) < Measure(c, s, ceil, degree)
  {
    hide Total, Gaps, LinkLoads, NodeLoads, Worked, Below, Carried, Sound, DegreeAtMost;
    AdoptGaps(c, s, n, ceil);
    AdoptLoads(c, s, n, degree);
    MulMono(7 * degree + 1, Total(Gaps(c, Worked(c, s, n), ceil)), Total(Gaps(c, s, ceil)));
  }

  lemma MulMono(k: nat, a: nat, b: nat)
    requires a + 1 <= b
    ensures k * a + k <= k * b
  {
    assert k * (a + 1) == k * a + k;
    assert k * (a + 1) <= k * b;
  }

  lemma ConsiderFalls(c: Config, s: Fine, n: NodeId, ceil: map<string, nat>, degree: nat)
    requires FineSound(c, s) && IsGossip(s, Plain(Work(n))) && s.busy[n] == Idle
    ensures Measure(c, Worked(c, s, n), ceil, degree) < Measure(c, s, ceil, degree)
  {
    hide Total, Gaps, LinkLoads, Worked, Popped, Sound, QueueDiffs;
    var t := Worked(c, s, n);
    WorkedIdle(c, s, n);
    PoppedShape(c, s, n);
    SameGaps(c, s, t, ceil);
    NodeUpdate(c, s, t, n, degree);
    SameLoads(s, t);
  }

  lemma SameLoads(s: Fine, t: Fine)
    requires s.hooks.Keys == s.net.queues.Keys && t.net.queues == s.net.queues && t.hooks == s.hooks
    ensures LinkLoads(t) == LinkLoads(s)
  {
  }

  lemma {:induction false} GossipFalls(c: Config, s: Fine, step: FineStep, ceil: map<string, nat>, degree: nat)
    requires Ceilings(c, s, ceil) && DegreeAtMost(c, degree) && IsGossip(s, step)
    ensures Ceilings(c, FineNext(c, s, step), ceil)
    ensures Measure(c, FineNext(c, s, step), ceil, degree) < Measure(c, s, ceil, degree)
  {
    hide Ceilings, Measure, Worked;
    CeilingsKept(c, s, step, ceil);
    CeilingsSound(c, s, ceil);
    match step {
      case Fire(l, i) => FireFalls(c, s, l, i, ceil, degree);
      case Plain(Deliver(l, i)) => DeliverFalls(c, s, l, i, ceil, degree);
      case Plain(Lose(l, i)) => LoseFalls(c, s, l, i, ceil, degree);
      case Plain(Work(n)) =>
        match s.busy[n] {
          case Idle => ConsiderFalls(c, s, n, ceil, degree);
          case Adopting(_, _, _) => AdoptFalls(c, s, n, ceil, degree);
          case Hooking(_, _, _) => HookedFalls(c, s, n, ceil, degree);
        }
    }
  }

  lemma CeilingsSound(c: Config, s: Fine, ceil: map<string, nat>)
    requires Ceilings(c, s, ceil)
    ensures FineSound(c, s)
  {
  }

  // ---------------------------------------------------------------------------
  // Floods end, whatever is collected
  // ---------------------------------------------------------------------------

  /** No submission is queued, being applied or being relayed. */
  ghost predicate NoSubmits(s: Fine) {
    && (forall l, i :: l in s.net.queues && 0 <= i < |s.net.queues[l]| ==> !s.net.queues[l][i].body.SubmitResult?)
    && (forall n, i :: n in s.net.nodes && 0 <= i < |s.net.nodes[n].prog| ==> s.net.nodes[n].prog[i].Consider?)
  }

  predicate FloodStep(step: FineStep) {
    step.Fire? || step.lab.Deliver? || step.lab.Work? || step.lab.Lose? || step.lab.Forget?
  }

  lemma NoSubmitsFloods(s: Fine, step: FineStep)
    requires NoSubmits(s) && FineEnabled(s, step) && FloodStep(step)
    ensures Floods(s, step)
  {
  }

  lemma NoSubmitsKept(c: Config, s: Fine, step: FineStep)
    requires FineSound(c, s) && NoSubmits(s) && FineEnabled(s, step) && FloodStep(step)
    ensures NoSubmits(FineNext(c, s, step))
  {
    hide Sourced, BusySourced, FineNext, Emit;
    var t := FineNext(c, s, step);
    forall l, i | l in t.net.queues && 0 <= i < |t.net.queues[l]|
      ensures !t.net.queues[l][i].body.SubmitResult?
    {
      NewMessage(c, s, step, l, t.net.queues[l][i]);
    }
    forall n, i | n in t.net.nodes && 0 <= i < |t.net.nodes[n].prog|
      ensures t.net.nodes[n].prog[i].Consider?
    {
      NewInstr(c, s, step, n, t.net.nodes[n].prog[i]);
      if step.Plain? && step.lab.Deliver? {
        var env := s.net.queues[step.lab.link][step.lab.i];
        if env.body.WorldUpdate? { ConsidersAre(env.body.objects, env.requestId, step.lab.link.src); }
      }
    }
  }

  /** A step lower than a submission's keeps ceilings and measure; a collection changes neither. */
  lemma {:induction false} FloodFalls(c: Config, s: Fine, step: FineStep, ceil: map<string, nat>, degree: nat)
    requires Ceilings(c, s, ceil) && DegreeAtMost(c, degree) && Floods(s, step)
    ensures Ceilings(c, FineNext(c, s, step), ceil)
    ensures Measure(c, FineNext(c, s, step), ceil, degree) + (if step.Plain? && step.lab.Forget? then 0 else 1)
         <= Measure(c, s, ceil, degree)
  {
    hide Total, LinkLoads, NodeLoads, Gaps, Ceilings, DegreeAtMost;
    CeilingsKept(c, s, step, ceil);
    if IsGossip(s, step) {
      hide Measure, FineNext, IsGossip;
      GossipFalls(c, s, step, ceil, degree);
    } else {
      hide Next, FineNext;
      CeilingsSound(c, s, ceil);
      OtherShape(c, s, step.lab);
      ForgetLoads(c, s, step, degree);
      SameGaps(c, s, FineNext(c, s, step), ceil);
    }
  }

  lemma ForgetLoads(c: Config, s: Fine, step: FineStep, degree: nat)
    requires FineShaped(c, s) && FineEnabled(s, step) && step.Plain? && step.lab.Forget?
    ensures var t := FineNext(c, s, step);
            LinkLoads(t) == LinkLoads(s) && NodeLoads(t, degree) == NodeLoads(s, degree)
  {
  }

  /** How many steps of a run really happen, collections aside. */
  ghost function Moves(c: Config, s: Fine, run: seq<FineStep>): nat
    decreases |run|
  {
    if run == [] then 0
    else if FineEnabled(s, run[0]) then
      (if run[0].Plain? && run[0].lab.Forget? then 0 else 1) + Moves(c, FineNext(c, s, run[0]), run[1..])
    else Moves(c, s, run[1..])
  }

  ghost predicate AllFlood(run: seq<FineStep>) {
    forall i :: 0 <= i < |run| ==> FloodStep(run[i])
  }

  /** Flood termination: with no submission left, the number of hooks sent, deliveries, event-loop steps
      and losses in any run is bounded in advance, even if hooks and messages overtake each other and the
      de-duplication tables are collected arbitrarily at any time. */
  lemma {:induction false} FloodEnds(c: Config, s: Fine, run: seq<FineStep>, ceil: map<string, nat>, degree: nat)
    requires Ceilings(c, s, ceil) && DegreeAtMost(c, degree) && NoSubmits(s) && AllFlood(run)
    ensures Moves(c, s, run) <= Measure(c, s, ceil, degree)
    decreases |run|
  {
    hide Measure, FineNext, FineEnabled, Floods, NoSubmits, Ceilings, DegreeAtMost, FloodStep;
    if run != [] {
      CeilingsSound(c, s, ceil);
      assert AllFlood(run[1..]);
      if FineEnabled(s, run[0]) {
        NoSubmitsFloods(s, run[0]);
        NoSubmitsKept(c, s, run[0]);
        FloodFalls(c, s, run[0], ceil, degree);
        FloodEnds(c, FineNext(c, s, run[0]), run[1..], ceil, degree);
      } else {
        FloodEnds(c, s, run[1..], ceil, degree);
      }
    }
  }

  // ---------------------------------------------------------------------------
  // Ceilings exist
  // ---------------------------------------------------------------------------

  ghost function CarriedIds(c: Config, s: Fine): set<string>
    requires WellFormed(c) && FineShaped(c, s)
  {
    (set l, i | l in c.links && 0 <= i < |Ahead(s, l)| :: Ahead(s, l)[i].objectId)
    + (set l, i | l in c.links && 0 <= i < |s.hooks[l]| :: s.hooks[l][i].objectId)
    + (set n, i | n in c.nodes && 0 <= i < |HeldBack(s.busy[n])| :: HeldBack(s.busy[n])[i].objectId)
  }

  lemma IdsCover(c: Config, s: Fine)
    requires WellFormed(c) && FineShaped(c, s)
    ensures forall d :: Carried(c, s, d) ==> d.objectId in CarriedIds(c, s)
  {
    hide Ahead, HeldBack;
  }

  /** What has been made so far is a ceiling for every object on its way. */
  lemma CeilingsExist(c: Config, past: seq<FineStep>) returns (ceil: map<string, nat>)
    requires WellFormed(c)
    ensures Ceilings(c, FineAfter(c, past), ceil)
  {
    hide Carried, Below, FineAfter, MadeSoFar, FineSound, CarriedIds;
    FineSoundRun(c, past);
    IdsCover(c, FineAfter(c, past));
    ceil := map x | x in CarriedIds(c, FineAfter(c, past)) :: MadeSoFar(c, past, x);
    forall x | x in ceil
      ensures Below(c, FineAfter(c, past), x, ceil[x])
    {
      VersionsBelowMade(c, past, x);
    }
  }

  lemma DegreeExists(c: Config) returns (degree: nat)
    requires WellFormed(c)
    ensures DegreeAtMost(c, degree)
  {
    degree := |c.links|;
    forall n | n in c.nodes
      ensures |OutLinks(c, n)| <= degree
    {
      SubsetSize(OutLinks(c, n), c.links);
    }
  }

  lemma {:induction false} SubsetSize<T>(a: set<T>, b: set<T>)
    requires a <= b
    ensures |a| <= |b|
    decreases a
  {
    if a != {} {
      var x :| x in a;
      SubsetSize(a - {x}, b - {x});
    }
  }

  /** Whatever has happened before, lossily or not, once no submission is left there is a bound
      on the moves of every further run. */
  lemma FloodIsBounded(c: Config, past: seq<FineStep>) returns (bound: nat)
    requires WellFormed(c) && NoSubmits(FineAfter(c, past))
    ensures forall run :: AllFlood(run) ==> Moves(c, FineAfter(c, past), run) <= bound
  {
    hide AllFlood, Moves, FineAfter, NoSubmits, Measure, Ceilings, DegreeAtMost;
    var ceil := CeilingsExist(c, past);
    var degree := DegreeExists(c);
    bound := Measure(c, FineAfter(c, past), ceil, degree);
    forall run: seq<FineStep> | AllFlood(run)
      ensures Moves(c, FineAfter(c, past), run) <= bound
    {
      FloodEnds(c, FineAfter(c, past), run, ceil, degree);
    }
  }
}

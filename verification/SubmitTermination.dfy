/** Submissions relayed around cycles end too, as long as no node forgets the ids it has seen. */
module SubmitTermination {
  import opened Base
  import opened Protocol
  import opened Merge
  import opened PeerNode
  import opened GossipNet
  import opened Traffic
  import opened HookNet
  import opened FineTraffic
  import opened Termination

  /** The ids a submission has now and after any number of relays. */
  predicate Known(ids: set<MessageId>, env: Envelope) {
    IdOf(env) in ids && IdOf(Encode(env.requestId, env.body)) in ids
  }

  /** Every submission queued or about to be relayed has its ids in `ids`. */
  ghost predicate AllKnown(s: Net, ids: set<MessageId>) {
    && (forall l, i :: l in s.queues && 0 <= i < |s.queues[l]| && s.queues[l][i].body.SubmitResult? ==>
         Known(ids, s.queues[l][i]))
    && (forall n, i :: n in s.nodes && 0 <= i < |s.nodes[n].prog| && s.nodes[n].prog[i].Relay? ==>
         Known(ids, s.nodes[n].prog[i].env))
  }

  /** The (node, submission id) pairs still to be met. */
  ghost function Unseen(c: Config, s: Fine, ids: set<MessageId>): set<(NodeId, MessageId)>
    requires FineShaped(c, s)
  {
    set n, id | n in c.nodes && id in ids && id !in s.net.nodes[n].seen :: (n, id)
  }

  /** Instructions that belong to submissions. */
  function Chores(prog: seq<Instr>): nat {
    if prog == [] then 0 else (if prog[0].Consider? then 0 else 1) + Chores(prog[1..])
  }

  ghost function AllChores(s: Net): map<NodeId, nat> {
    map n | n in s.nodes :: Chores(s.nodes[n].prog)
  }

  /** The steps considered here: hooks sent and messages delivered in any order, event-loop steps, losses. */
  ghost predicate Settling(s: Fine, step: FineStep) {
    FineEnabled(s, step) && (step.Fire? || step.lab.Deliver? || step.lab.Work? || step.lab.Lose?)
  }

  ghost predicate Moved(c: Config, s: Fine, step: FineStep, t: Fine) {
    Settling(s, step) && t == FineNext(c, s, step)
  }

  predicate IsDelivery(step: FineStep) {
    step.Plain? && step.lab.Deliver?
  }

  // ---------------------------------------------------------------------------
  // What each step does to the three components
  // ---------------------------------------------------------------------------

  lemma ProgramKnown(merge: MergeFunc, env: Envelope, from: NodeId, ids: set<MessageId>)
    requires env.body.SubmitResult? ==> Known(ids, env)
    ensures var prog := Program(merge, env, from);
            forall instr :: instr in prog && instr.Relay? ==> Known(ids, instr.env)
  {
    match env.body
    case WorldUpdate(ds) => ConsidersAre(ds, env.requestId, from);
    case SubmitResult(_, _, _) => AppliesAre(UpdatesOf(merge, SubmissionOf(env.body, from)));
    case Unhandled(_) =>
  }

  lemma AllKnownStep(c: Config, s: Fine, step: FineStep, ids: set<MessageId>)
    requires FineSound(c, s) && AllKnown(s.net, ids) && Settling(s, step)
    ensures AllKnown(FineNext(c, s, step).net, ids)
  {
    hide FineNext, Known, Sourced, BusySourced, Program, Encode;
    var t := FineNext(c, s, step).net;
    forall l, i | l in t.queues && 0 <= i < |t.queues[l]| && t.queues[l][i].body.SubmitResult?
      ensures Known(ids, t.queues[l][i])
    {
      var env := t.queues[l][i];
      NewMessage(c, s, step, l, env);
      if env !in s.net.queues[l] { RelayKnown(s, l.src, ids, env); }
    }
    forall n, i | n in t.nodes && 0 <= i < |t.nodes[n].prog| && t.nodes[n].prog[i].Relay?
      ensures Known(ids, t.nodes[n].prog[i].env)
    {
      NewInstr(c, s, step, n, t.nodes[n].prog[i]);
      if IsDelivery(step) {
        ProgramKnown(c.merge(n), s.net.queues[step.lab.link][step.lab.i], step.lab.link.src, ids);
      }
    }
  }

  /** Passing a submission on once more gives it no new id. */
  lemma RelayKnown(s: Fine, n: NodeId, ids: set<MessageId>, env: Envelope)
    requires n in s.net.nodes && n in s.busy && Relays(s, n, env) && AllKnown(s.net, ids)
    ensures Known(ids, env)
  {
    var held := s.net.nodes[n].prog[0].env;
    assert Known(ids, held);
    EncodeTwice(held.requestId, held.body);
  }

  /** No step makes a pair unseen again; a new submission makes one seen. */
  lemma UnseenFalls(c: Config, s: Fine, step: FineStep, ids: set<MessageId>)
    requires FineSound(c, s) && AllKnown(s.net, ids) && Settling(s, step)
    ensures Unseen(c, FineNext(c, s, step), ids) <= Unseen(c, s, ids)
    ensures IsDelivery(step) && !IsGossip(s, step) ==> Unseen(c, FineNext(c, s, step), ids) < Unseen(c, s, ids)
  {
    hide FineNext, Sound, BusySourced, IdOf;
    var t := FineNext(c, s, step);
    SeenGrows(c, s, step);
    if IsDelivery(step) && !IsGossip(s, step) {
      var l, env := step.lab.link, s.net.queues[step.lab.link][step.lab.i];
      assert Known(ids, env);
      assert (l.dst, IdOf(env)) in Unseen(c, s, ids) && (l.dst, IdOf(env)) !in Unseen(c, t, ids);
    }
  }

  lemma SeenGrows(c: Config, s: Fine, step: FineStep)
    requires FineShaped(c, s) && Settling(s, step)
    ensures var t := FineNext(c, s, step);
            && (forall n | n in c.nodes :: s.net.nodes[n].seen <= t.net.nodes[n].seen)
            && (IsDelivery(step) ==>
                  IdOf(s.net.queues[step.lab.link][step.lab.i]) in t.net.nodes[step.lab.link.dst].seen)
  {
    hide Stored, Worked, Program, IdOf, HookDiff;
    if step.Plain? && step.lab.Work? { WorkSeen(c, s, step.lab.n); }
  }

  lemma {:induction false} ConsiderChores(ds: seq<ObjectDiff>, requestId: string, from: NodeId)
    ensures Chores(Considers(ds, requestId, from)) == 0
  {
    if ds != [] {
      ConsiderChores(ds[..|ds| - 1], requestId, from);
      ChoresConcat(Considers(ds[..|ds| - 1], requestId, from), [Consider(ds[|ds| - 1], requestId, from)]);
    }
  }

  lemma {:induction false} ChoresConcat(a: seq<Instr>, b: seq<Instr>)
    ensures Chores(a + b) == Chores(a) + Chores(b)
  {
    if a == [] {
      assert a + b == b;
    } else {
      assert (a + b)[1..] == a[1..] + b;
      ChoresConcat(a[1..], b);
    }
  }

  /** Only one node's program changes, and Total with it. */
  lemma ChoresUpdate(c: Config, s: Fine, t: Fine, n: NodeId)
    requires FineShaped(c, s) && FineShaped(c, t) && n in c.nodes
    requires forall m :: m in c.nodes && m != n ==> t.net.nodes[m].prog == s.net.nodes[m].prog
    ensures Total(AllChores(t.net)) + Chores(s.net.nodes[n].prog)
         == Total(AllChores(s.net)) + Chores(t.net.nodes[n].prog)
  {
    hide Total, Chores;
    assert AllChores(t.net) == AllChores(s.net)[n := Chores(t.net.nodes[n].prog)];
    TotalUpdate(AllChores(s.net), n, Chores(t.net.nodes[n].prog));
  }

  /** Gossip adds no chores; an instruction of a submission is one chore done. */
  lemma ChoresFall(c: Config, s: Fine, step: FineStep)
    requires FineSound(c, s) && Settling(s, step) && (IsDelivery(step) ==> IsGossip(s, step))
    ensures Total(AllChores(FineNext(c, s, step).net)) <= Total(AllChores(s.net))
    ensures !IsGossip(s, step) ==> Total(AllChores(FineNext(c, s, step).net)) < Total(AllChores(s.net))
  {
    hide Total, AllChores, Sourced, BusySourced, Worked, Receive, IdOf;
    var t := FineNext(c, s, step);
    match step {
      case Plain(Work(n)) =>
        WorkProgs(c, s, n);
        ChoresUpdate(c, s, t, n);
        WorkChores(c, s, n);
      case Plain(Deliver(l, i)) =>
        DeliverProg(c, s.net, l, i);
        ReceiveShape(c, s.net, l, i);
        ChoresUpdate(c, s, t, l.dst);
        DeliverChores(c, s.net, l, i);
      case Plain(Lose(_, _)) => SameChores(s.net, t.net);
      case Fire(_, _) => SameChores(s.net, t.net);
    }
  }

  lemma SameChores(s: Net, t: Net)
    requires t.nodes == s.nodes
    ensures AllChores(t) == AllChores(s)
  {
  }

  lemma WorkChores(c: Config, s: Fine, n: NodeId)
    requires FineSound(c, s) && FineEnabled(s, Plain(Work(n)))
    ensures var t := Worked(c, s, n);
            && Chores(t.net.nodes[n].prog) <= Chores(s.net.nodes[n].prog)
            && (!IsGossip(s, Plain(Work(n))) ==> Chores(t.net.nodes[n].prog) < Chores(s.net.nodes[n].prog))
  {
    hide Stored, Popped, Worked, Emit, Sound;
    WorkProgs(c, s, n);
    if s.busy[n] == Idle {
      WorkedIdle(c, s, n);
      PoppedShape(c, s, n);
      if s.net.nodes[n].prog[0].ApplyUpdate? { StoredShape(c, Popped(s, n), n, s.net.nodes[n].prog[0].req); }
    }
  }

  lemma DeliverChores(c: Config, s: Net, l: Link, i: nat)
    requires Enabled(s, Deliver(l, i))
    requires !s.queues[l][i].body.SubmitResult? || IdOf(s.queues[l][i]) in s.nodes[l.dst].seen
    ensures Chores(Receive(c, s, l, i).nodes[l.dst].prog) == 0
  {
    var env := s.queues[l][i];
    if env.body.WorldUpdate? { ConsiderChores(env.body.objects, env.requestId, l.src); }
  }

  // ---------------------------------------------------------------------------
  // No infinite run
  // ---------------------------------------------------------------------------

  /** The lexicographic descent: pairs unseen, then chores, then the gossip measure, whose ceiling
      is taken anew after each step of the first two kinds. */
  lemma {:induction false} NoEndlessRun(c: Config, run: nat -> Fine, step: nat -> FineStep, i: nat, past: seq<FineStep>,
                                        ids: set<MessageId>, ceil: map<string, nat>, degree: nat)
    requires WellFormed(c) && forall j: nat :: Moved(c, run(j), step(j), run(j + 1))
    requires run(i) == FineAfter(c, past) && AllKnown(run(i).net, ids)
    requires Ceilings(c, run(i), ceil) && DegreeAtMost(c, degree)
    ensures false
    decreases |Unseen(c, run(i), ids)|, Total(AllChores(run(i).net)), Measure(c, run(i), ceil, degree)
  {
    hide FineNext, FineAfter, Measure, Ceilings, IsGossip, Settling, DegreeAtMost, Unseen, AllChores, AllKnown, Total;
    var s, st, past' := run(i), step(i), past + [step(i)];
    assert Moved(c, s, st, run(i + 1));
    FineSoundRun(c, past);
    NextPast(c, past, st);
    AllKnownStep(c, s, st, ids);
    UnseenFalls(c, s, st, ids);
    SubsetSize(Unseen(c, run(i + 1), ids), Unseen(c, s, ids));
    if IsDelivery(st) && !IsGossip(s, st) {
      ProperSubsetSize(Unseen(c, run(i + 1), ids), Unseen(c, s, ids));
      var anew := CeilingsExist(c, past');
      NoEndlessRun(c, run, step, i + 1, past', ids, anew, degree);
    } else {
      ChoresFall(c, s, st);
      if IsGossip(s, st) {
        GossipFalls(c, s, st, ceil, degree);
        NoEndlessRun(c, run, step, i + 1, past', ids, ceil, degree);
      } else {
        var anew := CeilingsExist(c, past');
        NoEndlessRun(c, run, step, i + 1, past', ids, anew, degree);
      }
    }
  }

  lemma NextPast(c: Config, past: seq<FineStep>, step: FineStep)
    requires Settling(FineAfter(c, past), step)
    ensures FineAfter(c, past + [step]) == FineNext(c, FineAfter(c, past), step)
  {
    assert (past + [step])[..|past|] == past;
  }

  lemma ProperSubsetSize<T>(a: set<T>, b: set<T>)
    requires a < b
    ensures |a| < |b|
  {
    var x :| x in b && x !in a;
    SubsetSize(a, b - {x});
  }

  ghost function QueuedIds(s: Net): set<MessageId> {
    set l, i | l in s.queues && 0 <= i < |s.queues[l]| :: IdOf(s.queues[l][i])
  }

  ghost function QueuedRelayIds(s: Net): set<MessageId> {
    set l, i | l in s.queues && 0 <= i < |s.queues[l]| :: IdOf(Encode(s.queues[l][i].requestId, s.queues[l][i].body))
  }

  ghost function HeldIds(s: Net): set<MessageId> {
    set n, i | n in s.nodes && 0 <= i < |s.nodes[n].prog| && s.nodes[n].prog[i].Relay? :: IdOf(s.nodes[n].prog[i].env)
  }

  ghost function HeldRelayIds(s: Net): set<MessageId> {
    set n, i | n in s.nodes && 0 <= i < |s.nodes[n].prog| && s.nodes[n].prog[i].Relay? ::
      IdOf(Encode(s.nodes[n].prog[i].env.requestId, s.nodes[n].prog[i].env.body))
  }

  lemma IdsExist(s: Net) returns (ids: set<MessageId>)
    ensures AllKnown(s, ids)
  {
    hide IdOf, Encode;
    ids := QueuedIds(s) + QueuedRelayIds(s) + HeldIds(s) + HeldRelayIds(s);
  }

  /** Termination with submissions: from any state any network can reach, with any finite set of
      submissions on their way over any topology, every sequence of sent hooks, deliveries, event-loop
      steps and losses comes to an end, provided no seen id is collected meanwhile. */
  lemma SubmissionsSettle(c: Config, past: seq<FineStep>, run: nat -> Fine, step: nat -> FineStep)
    requires WellFormed(c) && run(0) == FineAfter(c, past)
    ensures exists i: nat :: !Moved(c, run(i), step(i), run(i + 1))
  {
    hide Moved, FineAfter;
    if forall j: nat :: Moved(c, run(j), step(j), run(j + 1)) {
      var ids := IdsExist(run(0).net);
      var ceil := CeilingsExist(c, past);
      var degree := DegreeExists(c);
      NoEndlessRun(c, run, step, 0, past, ids, ceil, degree);
    }
  }
}

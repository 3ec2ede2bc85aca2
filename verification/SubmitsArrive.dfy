/** Which nodes a submission reaches. An application announces it to its node's peers, and every node
    that takes it for the first time passes it on to all its peers but the one it came from. */
module SubmitsArrive {
  import opened Base
  import opened Protocol
  import opened Worlds
  import opened PeerNode
  import opened GossipNet
  import opened Traffic
  import opened Reaching
  import opened HookNet
  import opened FineTraffic
  import P = Peering
  import D = Divergence
  import V = Overtaking

  /** The identity a message has from its first encoding on. A request id is kept from the start. */
  function Canon(id: MessageId): MessageId {
    match id
    case ByRequest(_) => id
    case ByContent(body, _) => ByContent(WireBody(body), "")
  }

  predicate OfSubmission(id: MessageId) {
    id.ByRequest? || id.body.SubmitResult?
  }

  predicate Says(env: Envelope, cid: MessageId) {
    Canon(IdOf(env)) == cid
  }

  lemma RelayedSays(env: Envelope)
    ensures Canon(IdOf(Encode(env.requestId, env.body))) == Canon(IdOf(env))
  {
    EncodeTwice(env.requestId, env.body);
  }

  // ---------------------------------------------------------------------------
  // Who has heard of it
  // ---------------------------------------------------------------------------

  ghost predicate Heard(s: Fine, n: NodeId, cid: MessageId)
    requires n in s.net.nodes
  {
    exists id :: id in s.net.nodes[n].seen && Canon(id) == cid
  }

  /** The nodes at which it has been announced in this run. */
  ghost function Announcers(c: Config, run: seq<FineStep>, cid: MessageId): set<NodeId> {
    if run == [] then {}
    else
      var init, step := run[..|run| - 1], run[|run| - 1];
      Announcers(c, init, cid) + Announcing(FineAfter(c, init), step, cid)
  }

  ghost function Announcing(s: Fine, step: FineStep, cid: MessageId): set<NodeId> {
    if step.Plain? && step.lab.Announce? && FineEnabled(s, step) && Says(step.lab.env, cid) then {step.lab.n} else {}
  }

  /** Under way over a link, in its queue. */
  ghost predicate Queued(s: Fine, l: Link, cid: MessageId)
    requires l in s.net.queues
  {
    exists env :: env in s.net.queues[l] && Says(env, cid)
  }

  /** The node is going to pass it on, but not to `except`. */
  predicate WillRelay(prog: seq<Instr>, env: Envelope, except: NodeId, cid: MessageId) {
    Relay(env, except) in prog && Says(env, cid)
  }

  // ---------------------------------------------------------------------------
  // What travels
  // ---------------------------------------------------------------------------

  predicate Travels(env: Envelope) {
    env.body.SubmitResult? || (env.body.WorldUpdate? && env.requestId == "")
  }

  predicate BusyClean(b: Busy) {
    match b
    case Idle => true
    case Adopting(_, requestId, _) => requestId == ""
    case Hooking(_, _, onward) => onward == [] || Travels(onward[0].env)
  }

  /** Only submissions carry a request id. */
  ghost predicate Proper(c: Config, s: Fine) {
    && FineSound(c, s)
    && (forall l, env :: l in c.links && env in s.net.queues[l] ==> Travels(env))
    && (forall n, instr :: n in c.nodes && instr in s.net.nodes[n].prog ==> CleanInstr(instr))
    && (forall n :: n in c.nodes ==> BusyClean(s.busy[n]))
  }

  lemma ProperQueues(c: Config, s: Fine, step: FineStep, l: Link, env: Envelope)
    requires Proper(c, s) && FineEnabled(s, step) && l in c.links && env in FineNext(c, s, step).net.queues[l]
    ensures Travels(env)
  {
    hide FineNext, Sound, BusySourced, HeldBack;
    NewMessage(c, s, step, l, env);
    if step == Plain(Work(l.src)) && Relays(s, l.src, env) { HeadIsSourced(c, s, l.src); }
  }

  lemma ProperProgs(c: Config, s: Fine, step: FineStep, n: NodeId, instr: Instr)
    requires Proper(c, s) && FineEnabled(s, step) && n in c.nodes && instr in FineNext(c, s, step).net.nodes[n].prog
    ensures CleanInstr(instr)
  {
    hide FineNext, Sound, BusySourced, BusyClean, Program;
    NewInstr(c, s, step, n, instr);
    if instr !in s.net.nodes[n].prog {
      var l := step.lab.link;
      assert l in c.links && Travels(s.net.queues[l][step.lab.i]);
      ProgramClean(c.merge(n), s.net.queues[l][step.lab.i], l.src);
    }
  }

  lemma ProperBusy(c: Config, s: Fine, step: FineStep, n: NodeId)
    requires Proper(c, s) && FineEnabled(s, step) && n in c.nodes
    ensures BusyClean(FineNext(c, s, step).busy[n])
  {
    hide Sound, BusySourced, Emit, Outcome, HookDiff, ApplyTo, Stored, Popped, Program, IdOf;
    if step != Plain(Work(n)) {
      BusySame(c, s, step, n);
    } else {
      match s.busy[n] {
        case Adopting(_, _, _) => StoredShape(c, s, n, RequestFor(s.busy[n].diff, c.tags(n)));
        case Hooking(_, _, _) =>
        case Idle =>
          assert CleanInstr(s.net.nodes[n].prog[0]);
          PoppedShape(c, s, n);
          WorkedIdle(c, s, n);
      }
    }
  }

  lemma {:induction false} ProperRun(c: Config, run: seq<FineStep>)
    requires WellFormed(c)
    ensures Proper(c, FineAfter(c, run))
  {
    hide FineNext, FineEnabled, Sound, BusySourced, BusyClean, CleanInstr, Travels;
    if run == [] {
      FineSoundRun(c, run);
      FirstIsProper(c);
    } else {
      var s, step := FineAfter(c, run[..|run| - 1]), run[|run| - 1];
      ProperRun(c, run[..|run| - 1]);
      FineSoundRun(c, run);
      if FineEnabled(s, step) { ProperStep(c, s, step); }
    }
  }

  lemma FirstIsProper(c: Config)
    requires FineSound(c, FineInit(c))
    ensures Proper(c, FineInit(c))
  {
  }

  lemma ProperStep(c: Config, s: Fine, step: FineStep)
    requires Proper(c, s) && FineEnabled(s, step) && FineSound(c, FineNext(c, s, step))
    ensures Proper(c, FineNext(c, s, step))
  {
    hide FineNext, FineEnabled, Sound, BusySourced, BusyClean, CleanInstr, Travels;
    var t := FineNext(c, s, step);
    forall l, env | l in c.links && env in t.net.queues[l] ensures Travels(env) { ProperQueues(c, s, step, l, env); }
    forall n, instr | n in c.nodes && instr in t.net.nodes[n].prog
      ensures CleanInstr(instr)
    {
      ProperProgs(c, s, step, n, instr);
    }
    forall n | n in c.nodes ensures BusyClean(t.busy[n]) { ProperBusy(c, s, step, n); }
  }

  /** What travels under the identity of a submission is one. */
  lemma SaysSubmission(env: Envelope, cid: MessageId)
    requires Travels(env) && Says(env, cid) && OfSubmission(cid)
    ensures env.body.SubmitResult?
  {
  }

  // ---------------------------------------------------------------------------
  // What one step leaves in place
  // ---------------------------------------------------------------------------

  /** Links may copy messages and deliver them in any order, but they lose none; no table is cleaned. */
  predicate Keeping(step: FineStep) {
    step.Plain? ==> !step.lab.Lose? && !step.lab.Forget?
  }

  lemma SeenStays(c: Config, s: Fine, step: FineStep, n: NodeId)
    requires FineShaped(c, s) && FineEnabled(s, step) && Keeping(step) && n in c.nodes
    ensures s.net.nodes[n].seen <= FineNext(c, s, step).net.nodes[n].seen
  {
    hide Stored, Worked, HookDiff, Program, IdOf, Emit;
    match step {
      case Fire(_, _) =>
      case Plain(LocalApply(m, req)) => StoredShape(c, s, m, req);
      case Plain(Work(m)) => WorkSeen(c, s, m);
      case Plain(_) =>
    }
  }

  /** A message stays in its queue until it is taken, and then its id is known. */
  lemma QueuedStays(c: Config, s: Fine, step: FineStep, l: Link, env: Envelope)
    requires FineSound(c, s) && FineEnabled(s, step) && Keeping(step) && l in c.links && env in s.net.queues[l]
    ensures env in FineNext(c, s, step).net.queues[l] || IdOf(env) in FineNext(c, s, step).net.nodes[l.dst].seen
  {
    hide Stored, Worked, Without, Sound, HookDiff, Program, IdOf, Sourced, BusySourced, Addressed;
    match step {
      case Fire(_, _) =>
      case Plain(LocalApply(m, req)) => StoredShape(c, s, m, req);
      case Plain(Work(m)) => WorkKeepsQueues(c, s, m, l);
      case Plain(Deliver(k, i)) => WithoutKeeps(s.net.queues[k], i);
      case Plain(_) =>
    }
  }

  lemma WithoutKeeps<T>(q: seq<T>, i: nat)
    requires i < |q|
    ensures forall e :: e in q ==> e in Without(q, i) || e == q[i]
  {
    forall j | 0 <= j < |q| && j != i
      ensures q[j] in Without(q, i)
    {
      assert Without(q, i)[if j < i then j else j - 1] == q[j];
    }
  }

  lemma WorkKeepsQueues(c: Config, s: Fine, n: NodeId, l: Link)
    requires FineSound(c, s) && FineEnabled(s, Plain(Work(n))) && l in c.links
    ensures forall env :: env in s.net.queues[l] ==> env in Worked(c, s, n).net.queues[l]
  {
    hide Stored, Popped, Addressed, HookDiff, Sourced, BusySourced;
    match s.busy[n] {
      case Adopting(d, _, _) => StoredShape(c, s, n, RequestFor(d, c.tags(n)));
      case Hooking(_, _, _) =>
      case Idle =>
        hide Worked;
        PoppedShape(c, s, n);
        WorkedIdle(c, s, n);
        if s.net.nodes[n].prog[0].ApplyUpdate? { StoredShape(c, Popped(s, n), n, s.net.nodes[n].prog[0].req); }
    }
  }

  /** A relay stays in the program until it is done, and then the message is in each queue it is meant for. */
  lemma RelayStays(c: Config, s: Fine, step: FineStep, l: Link, env: Envelope, except: NodeId)
    requires FineSound(c, s) && FineEnabled(s, step) && l in c.links && l.dst != except
    requires Relay(env, except) in s.net.nodes[l.src].prog
    ensures || Relay(env, except) in FineNext(c, s, step).net.nodes[l.src].prog
            || Encode(env.requestId, env.body) in FineNext(c, s, step).net.queues[l]
  {
    hide FineNext, Stored, Worked, Sound, Sourced, BusySourced, Encode;
    match step {
      case Plain(Work(m)) =>
        WorkProgs(c, s, m);
        NextWorks(c, s, m);
        if m == l.src { WorkRelays(c, s, l, env, except); }
      case _ => OthersRelay(c, s, step, l.src);
    }
  }

  lemma NextWorks(c: Config, s: Fine, n: NodeId)
    requires FineEnabled(s, Plain(Work(n)))
    ensures FineNext(c, s, Plain(Work(n))) == Worked(c, s, n)
  {
  }

  lemma OthersRelay(c: Config, s: Fine, step: FineStep, n: NodeId)
    requires FineShaped(c, s) && FineEnabled(s, step) && (step.Plain? ==> !step.lab.Work?) && n in c.nodes
    requires s.net.nodes[n].prog != []
    ensures FineNext(c, s, step).net.nodes[n].prog == s.net.nodes[n].prog
  {
    hide Program, IdOf, Emit, Stored;
    if step.Plain? && step.lab.LocalApply? { StoredShape(c, s, step.lab.n, step.lab.req); }
  }

  lemma WorkRelays(c: Config, s: Fine, l: Link, env: Envelope, except: NodeId)
    requires FineSound(c, s) && FineEnabled(s, Plain(Work(l.src))) && l in c.links && l.dst != except
    requires Relay(env, except) in s.net.nodes[l.src].prog
    ensures || Relay(env, except) in Worked(c, s, l.src).net.nodes[l.src].prog
            || Encode(env.requestId, env.body) in Worked(c, s, l.src).net.queues[l]
  {
    hide Stored, Popped, HookDiff, Sourced, BusySourced, Encode;
    var n := l.src;
    match s.busy[n] {
      case Adopting(d, _, _) => StoredShape(c, s, n, RequestFor(d, c.tags(n)));
      case Hooking(_, _, _) =>
      case Idle =>
        hide Worked;
        var prog := s.net.nodes[n].prog;
        var send := P.Send(Encode(env.requestId, env.body), except);
        PoppedShape(c, s, n);
        WorkedIdle(c, s, n);
        if prog[0].ApplyUpdate? { StoredShape(c, Popped(s, n), n, prog[0].req); }
        AddressedTwo(send, send, l.dst);
    }
  }

  // ---------------------------------------------------------------------------
  // Whoever knows of it tells every peer
  // ---------------------------------------------------------------------------

  /** A node knows of a submission when it has taken it from a peer, or its application announced it. */
  ghost predicate Knows(s: Fine, own: set<NodeId>, n: NodeId, cid: MessageId)
    requires n in s.net.nodes
  {
    n in own || Heard(s, n, cid)
  }

  /** What goes over a link is known at its source; what is to be relayed has been heard; and the destination
      of a link whose source knows is still to get it, unless it knows. */
  ghost predicate Spreading(c: Config, s: Fine, own: set<NodeId>, cid: MessageId)
    requires FineSound(c, s)
  {
    && (forall l :: l in c.links && Queued(s, l, cid) ==> Knows(s, own, l.src, cid))
    && (forall n, env, from :: n in c.nodes && WillRelay(s.net.nodes[n].prog, env, from, cid) ==> Heard(s, n, cid))
    && (forall l :: l in c.links && Knows(s, own, l.src, cid) ==>
          Knows(s, own, l.dst, cid) || Queued(s, l, cid) || ToRelay(s, l, cid))
  }

  ghost predicate ToRelay(s: Fine, l: Link, cid: MessageId)
    requires l.src in s.net.nodes
  {
    exists env, from :: from != l.dst && WillRelay(s.net.nodes[l.src].prog, env, from, cid)
  }

  lemma HeardStays(c: Config, s: Fine, step: FineStep, n: NodeId, cid: MessageId)
    requires FineShaped(c, s) && FineEnabled(s, step) && Keeping(step) && n in c.nodes && Heard(s, n, cid)
    ensures Heard(FineNext(c, s, step), n, cid)
  {
    hide FineNext, Canon;
    SeenStays(c, s, step, n);
  }

  /** The message taken is known from then on, and is one of those that were queued. */
  lemma NewlyHeard(c: Config, s: Fine, step: FineStep, n: NodeId, cid: MessageId)
    requires Proper(c, s) && FineEnabled(s, step) && n in c.nodes && OfSubmission(cid)
    requires Heard(FineNext(c, s, step), n, cid) && !Heard(s, n, cid)
    ensures step.Plain? && step.lab.Deliver? && step.lab.link.dst == n && Queued(s, step.lab.link, cid)
    ensures var env := s.net.queues[step.lab.link][step.lab.i];
            WillRelay(FineNext(c, s, step).net.nodes[n].prog, env, step.lab.link.src, cid)
  {
    hide FineNext, Canon, Sound, BusySourced, BusyClean, CleanInstr, OfSubmission;
    var id :| id in FineNext(c, s, step).net.nodes[n].seen && Canon(id) == cid;
    NewSeen(c, s, step, n, id);
    var l, env := step.lab.link, s.net.queues[step.lab.link][step.lab.i];
    assert l in c.links && env in s.net.queues[l] && Travels(env);
    assert Says(env, cid);
    SaysSubmission(env, cid);
    Taken(c, s, l, step.lab.i);
  }

  lemma Taken(c: Config, s: Fine, l: Link, i: nat)
    requires FineShaped(c, s) && FineEnabled(s, Plain(Deliver(l, i)))
    requires var env := s.net.queues[l][i]; env.body.SubmitResult? && IdOf(env) !in s.net.nodes[l.dst].seen
    ensures Relay(s.net.queues[l][i], l.src) in FineNext(c, s, Plain(Deliver(l, i))).net.nodes[l.dst].prog
  {
    hide IdOf;
    var env := s.net.queues[l][i];
    var prog := Program(c.merge(l.dst), env, l.src);
    assert prog[|prog| - 1] == Relay(env, l.src);
  }

  lemma KnownStays(c: Config, s: Fine, own: set<NodeId>, step: FineStep, n: NodeId, cid: MessageId)
    requires FineShaped(c, s) && FineEnabled(s, step) && Keeping(step) && n in c.nodes && Knows(s, own, n, cid)
    ensures Knows(FineNext(c, s, step), own + Announcing(s, step, cid), n, cid)
  {
    hide FineNext, Heard;
    if n !in own { HeardStays(c, s, step, n, cid); }
  }

  lemma SpreadQueued(c: Config, s: Fine, own: set<NodeId>, step: FineStep, l: Link, cid: MessageId)
    requires Proper(c, s) && Spreading(c, s, own, cid) && FineEnabled(s, step) && Keeping(step) && OfSubmission(cid)
    requires l in c.links && Queued(FineNext(c, s, step), l, cid)
    ensures Knows(FineNext(c, s, step), own + Announcing(s, step, cid), l.src, cid)
  {
    hide FineNext, Canon, Sound, BusySourced, BusyClean, CleanInstr, OfSubmission, Heard, IdOf, Encode, ToRelay;
    var env :| env in FineNext(c, s, step).net.queues[l] && Says(env, cid);
    ProperQueues(c, s, step, l, env);
    SaysSubmission(env, cid);
    NewMessage(c, s, step, l, env);
    if env in s.net.queues[l] {
      assert Queued(s, l, cid);
      KnownStays(c, s, own, step, l.src, cid);
    } else if step == Plain(Work(l.src)) {
      var prog := s.net.nodes[l.src].prog;
      RelayedSays(prog[0].env);
      assert WillRelay(prog, prog[0].env, prog[0].from, cid);
      KnownStays(c, s, own, step, l.src, cid);
    }
  }

  lemma ProgramRelays(c: Config, n: NodeId, env: Envelope, src: NodeId, e: Envelope, from: NodeId)
    requires Relay(e, from) in Program(c.merge(n), env, src)
    ensures e == env && from == src
  {
    match env.body
    case WorldUpdate(ds) => ConsidersAre(ds, env.requestId, src);
    case SubmitResult(_, _, _) => AppliesAre(UpdatesOf(c.merge(n), SubmissionOf(env.body, src)));
    case Unhandled(_) =>
  }

  lemma TakenIsSeen(c: Config, s: Fine, l: Link, i: nat)
    requires FineShaped(c, s) && FineEnabled(s, Plain(Deliver(l, i)))
    ensures IdOf(s.net.queues[l][i]) in FineNext(c, s, Plain(Deliver(l, i))).net.nodes[l.dst].seen
  {
    hide IdOf, Program;
  }

  lemma SpreadRelay(c: Config, s: Fine, own: set<NodeId>, step: FineStep, n: NodeId, env: Envelope, from: NodeId,
                    cid: MessageId)
    requires Proper(c, s) && Spreading(c, s, own, cid) && FineEnabled(s, step) && Keeping(step)
    requires n in c.nodes && WillRelay(FineNext(c, s, step).net.nodes[n].prog, env, from, cid)
    ensures Heard(FineNext(c, s, step), n, cid)
  {
    hide FineNext, Canon, Sound, BusySourced, BusyClean, CleanInstr, IdOf, Program, ToRelay, Queued;
    NewInstr(c, s, step, n, Relay(env, from));
    if Relay(env, from) in s.net.nodes[n].prog {
      assert WillRelay(s.net.nodes[n].prog, env, from, cid);
      HeardStays(c, s, step, n, cid);
    } else {
      var l := step.lab.link;
      ProgramRelays(c, n, s.net.queues[l][step.lab.i], l.src, env, from);
      TakenIsSeen(c, s, l, step.lab.i);
    }
  }

  lemma AnnounceQueues(c: Config, s: Fine, env: Envelope, l: Link)
    requires FineShaped(c, s) && FineEnabled(s, Plain(Announce(l.src, env))) && l in c.links && l.dst != ""
    ensures env in FineNext(c, s, Plain(Announce(l.src, env))).net.queues[l]
  {
    AddressedTwo(P.Send(env, ""), P.Send(env, ""), l.dst);
  }

  lemma SpreadLink(c: Config, s: Fine, own: set<NodeId>, step: FineStep, l: Link, cid: MessageId)
    requires Proper(c, s) && Spreading(c, s, own, cid) && FineEnabled(s, step) && Keeping(step) && OfSubmission(cid)
    requires l in c.links && Knows(FineNext(c, s, step), own + Announcing(s, step, cid), l.src, cid)
    ensures var t := FineNext(c, s, step);
            || Knows(t, own + Announcing(s, step, cid), l.dst, cid) || Queued(t, l, cid) || ToRelay(t, l, cid)
  {
    hide FineNext, Canon, Sound, BusySourced, BusyClean, CleanInstr, OfSubmission, Heard, IdOf, Encode;
    if Knows(s, own, l.src, cid) {
      SpreadFurther(c, s, own, step, l, cid);
    } else if l.src in Announcing(s, step, cid) {
      AnnounceQueues(c, s, step.lab.env, l);
    } else {
      NewlyHeard(c, s, step, l.src, cid);
      var k := step.lab.link;
      assert Knows(s, own, k.src, cid);
      KnownStays(c, s, own, step, k.src, cid);
      assert l.dst != k.src ==> WillRelay(FineNext(c, s, step).net.nodes[l.src].prog,
                                          s.net.queues[k][step.lab.i], k.src, cid);
    }
  }

  lemma SpreadFurther(c: Config, s: Fine, own: set<NodeId>, step: FineStep, l: Link, cid: MessageId)
    requires Proper(c, s) && Spreading(c, s, own, cid) && FineEnabled(s, step) && Keeping(step)
    requires l in c.links && Knows(s, own, l.src, cid)
    ensures var t := FineNext(c, s, step);
            || Knows(t, own + Announcing(s, step, cid), l.dst, cid) || Queued(t, l, cid) || ToRelay(t, l, cid)
  {
    hide FineNext, Canon, Sound, BusySourced, BusyClean, CleanInstr, IdOf, Encode;
    if Knows(s, own, l.dst, cid) {
      KnownStays(c, s, own, step, l.dst, cid);
    } else if Queued(s, l, cid) {
      var env :| env in s.net.queues[l] && Says(env, cid);
      QueuedStays(c, s, step, l, env);
    } else {
      var env, from :| from != l.dst && WillRelay(s.net.nodes[l.src].prog, env, from, cid);
      RelayStays(c, s, step, l, env, from);
      RelayedSays(env);
      if Relay(env, from) in FineNext(c, s, step).net.nodes[l.src].prog {
        assert WillRelay(FineNext(c, s, step).net.nodes[l.src].prog, env, from, cid);
      }
    }
  }

  lemma SpreadStep(c: Config, s: Fine, own: set<NodeId>, step: FineStep, cid: MessageId)
    requires Proper(c, s) && Spreading(c, s, own, cid) && FineEnabled(s, step) && Keeping(step) && OfSubmission(cid)
    requires FineSound(c, FineNext(c, s, step))
    ensures Spreading(c, FineNext(c, s, step), own + Announcing(s, step, cid), cid)
  {
    hide FineNext, Canon, Sound, BusySourced, BusyClean, CleanInstr, OfSubmission, Heard, Queued, ToRelay, WillRelay,
         Announcing, Keeping;
    var t, own' := FineNext(c, s, step), own + Announcing(s, step, cid);
    forall l | l in c.links && Queued(t, l, cid) ensures Knows(t, own', l.src, cid) {
      SpreadQueued(c, s, own, step, l, cid);
    }
    forall n, env, from | n in c.nodes && WillRelay(t.net.nodes[n].prog, env, from, cid) ensures Heard(t, n, cid) {
      SpreadRelay(c, s, own, step, n, env, from, cid);
    }
    forall l | l in c.links && Knows(t, own', l.src, cid)
      ensures Knows(t, own', l.dst, cid) || Queued(t, l, cid) || ToRelay(t, l, cid)
    {
      SpreadLink(c, s, own, step, l, cid);
    }
  }

  ghost predicate KeepingRun(run: seq<FineStep>) {
    forall i :: 0 <= i < |run| ==> Keeping(run[i])
  }

  lemma FirstSpreads(c: Config, cid: MessageId)
    requires FineSound(c, FineInit(c))
    ensures Spreading(c, FineInit(c), {}, cid)
  {
  }

  lemma {:induction false} RunSpreads(c: Config, run: seq<FineStep>, cid: MessageId)
    requires WellFormed(c) && KeepingRun(run) && OfSubmission(cid)
    ensures FineSound(c, FineAfter(c, run)) && Spreading(c, FineAfter(c, run), Announcers(c, run, cid), cid)
  {
    hide FineNext, FineEnabled, FineSound, Proper, Spreading, OfSubmission;
    FineSoundRun(c, run);
    if run == [] {
      FirstSpreads(c, cid);
    } else {
      var init, step := run[..|run| - 1], run[|run| - 1];
      var s := FineAfter(c, init);
      RunSpreads(c, init, cid);
      ProperRun(c, init);
      if FineEnabled(s, step) {
        SpreadStep(c, s, Announcers(c, init, cid), step, cid);
      } else {
        assert Announcing(s, step, cid) == {} && Announcers(c, run, cid) == Announcers(c, init, cid);
      }
    }
  }

  // ---------------------------------------------------------------------------
  // Nobody else knows of it
  // ---------------------------------------------------------------------------

  /** There is a path to the node from one of these. */
  ghost predicate Downstream(c: Config, own: set<NodeId>, n: NodeId) {
    exists p :: IsPath(c, p) && p[0] in own && p[|p| - 1] == n
  }

  lemma OneFurther(c: Config, own: set<NodeId>, l: Link)
    requires l in c.links && Downstream(c, own, l.src)
    ensures Downstream(c, own, l.dst)
  {
    var p :| IsPath(c, p) && p[0] in own && p[|p| - 1] == l.src;
    var q := p + [l.dst];
    forall i | 0 <= i < |q| - 1
      ensures Link(q[i], q[i + 1]) in c.links
    {
      if i == |p| - 1 { assert l == Link(q[i], q[i + 1]); } else { assert Link(p[i], p[i + 1]) in c.links; }
    }
    assert IsPath(c, q) && q[0] in own && q[|q| - 1] == l.dst;
  }

  /** Whoever has heard of it, sends it or is to relay it is downstream of an announcer. */
  ghost predicate Traceable(c: Config, s: Fine, own: set<NodeId>, cid: MessageId)
    requires FineSound(c, s)
  {
    && (forall l :: l in c.links && Queued(s, l, cid) ==> Downstream(c, own, l.src))
    && (forall n, env, from :: n in c.nodes && WillRelay(s.net.nodes[n].prog, env, from, cid) ==>
          Downstream(c, own, n))
    && (forall n :: n in c.nodes && Heard(s, n, cid) ==> Downstream(c, own, n))
  }

  lemma MoreAnnouncers(c: Config, own: set<NodeId>, more: set<NodeId>)
    ensures forall n :: Downstream(c, own, n) ==> Downstream(c, own + more, n)
    ensures forall n :: n in more ==> Downstream(c, own + more, n)
  {
    forall n | Downstream(c, own, n)
      ensures Downstream(c, own + more, n)
    {
      var p :| IsPath(c, p) && p[0] in own && p[|p| - 1] == n;
      assert p[0] in own + more;
    }
    forall n | n in more
      ensures Downstream(c, own + more, n)
    {
      assert IsPath(c, [n]) && [n][0] in own + more;
    }
  }

  lemma TracedQueued(c: Config, s: Fine, own: set<NodeId>, step: FineStep, l: Link, cid: MessageId)
    requires Proper(c, s) && Traceable(c, s, own, cid) && FineEnabled(s, step) && OfSubmission(cid)
    requires l in c.links && Queued(FineNext(c, s, step), l, cid)
    ensures Downstream(c, own, l.src) || l.src in Announcing(s, step, cid)
  {
    hide FineNext, Canon, Sound, BusySourced, BusyClean, CleanInstr, OfSubmission, IdOf, Encode, Downstream, Heard;
    var env :| env in FineNext(c, s, step).net.queues[l] && Says(env, cid);
    ProperQueues(c, s, step, l, env);
    SaysSubmission(env, cid);
    NewMessage(c, s, step, l, env);
    if env in s.net.queues[l] {
      assert Queued(s, l, cid);
    } else if step == Plain(Work(l.src)) {
      var prog := s.net.nodes[l.src].prog;
      RelayedSays(prog[0].env);
      assert WillRelay(prog, prog[0].env, prog[0].from, cid);
    }
  }

  lemma TracedNode(c: Config, s: Fine, own: set<NodeId>, step: FineStep, n: NodeId, cid: MessageId)
    requires Proper(c, s) && Traceable(c, s, own, cid) && FineEnabled(s, step) && OfSubmission(cid) && n in c.nodes
    ensures Heard(FineNext(c, s, step), n, cid) ==> Downstream(c, own, n)
    ensures forall env, from :: WillRelay(FineNext(c, s, step).net.nodes[n].prog, env, from, cid) ==>
              Downstream(c, own, n)
  {
    hide FineNext, Canon, Sound, BusySourced, BusyClean, CleanInstr, OfSubmission, IdOf, Program, Downstream, Queued;
    hide Heard;
    var t := FineNext(c, s, step);
    if Heard(t, n, cid) && !Heard(s, n, cid) {
      NewlyHeard(c, s, step, n, cid);
      OneFurther(c, own, step.lab.link);
    }
    forall env, from | WillRelay(t.net.nodes[n].prog, env, from, cid)
      ensures Downstream(c, own, n)
    {
      NewInstr(c, s, step, n, Relay(env, from));
      if Relay(env, from) in s.net.nodes[n].prog {
        assert WillRelay(s.net.nodes[n].prog, env, from, cid);
      } else {
        var l := step.lab.link;
        ProgramRelays(c, n, s.net.queues[l][step.lab.i], l.src, env, from);
        TakenSays(s, l, step.lab.i, cid);
        OneFurther(c, own, l);
      }
    }
  }

  lemma TakenSays(s: Fine, l: Link, i: nat, cid: MessageId)
    requires l in s.net.queues && i < |s.net.queues[l]| && Says(s.net.queues[l][i], cid)
    ensures Queued(s, l, cid)
  {
    assert s.net.queues[l][i] in s.net.queues[l];
  }

  /** In every run, whatever is lost or forgotten, a node hears of a submission only if there is a path to it
      from a node that announced it. */
  lemma {:induction false} RunIsTraceable(c: Config, run: seq<FineStep>, cid: MessageId)
    requires WellFormed(c) && OfSubmission(cid)
    ensures FineSound(c, FineAfter(c, run)) && Traceable(c, FineAfter(c, run), Announcers(c, run, cid), cid)
  {
    hide FineNext, FineEnabled, FineSound, Proper, OfSubmission, Heard, Queued, WillRelay, Downstream;
    FineSoundRun(c, run);
    if run == [] {
      FirstIsTraceable(c, cid);
    } else {
      var init, step := run[..|run| - 1], run[|run| - 1];
      var s, own := FineAfter(c, init), Announcers(c, init, cid);
      RunIsTraceable(c, init, cid);
      ProperRun(c, init);
      if FineEnabled(s, step) {
        TraceStep(c, s, own, step, cid);
      } else {
        assert Announcing(s, step, cid) == {} && Announcers(c, run, cid) == own;
      }
    }
  }

  lemma FirstIsTraceable(c: Config, cid: MessageId)
    requires FineSound(c, FineInit(c))
    ensures Traceable(c, FineInit(c), {}, cid)
  {
    hide Downstream;
  }

  lemma TraceStep(c: Config, s: Fine, own: set<NodeId>, step: FineStep, cid: MessageId)
    requires Proper(c, s) && Traceable(c, s, own, cid) && FineEnabled(s, step) && OfSubmission(cid)
    requires FineSound(c, FineNext(c, s, step))
    ensures Traceable(c, FineNext(c, s, step), own + Announcing(s, step, cid), cid)
  {
    hide FineNext, Canon, Sound, BusySourced, BusyClean, CleanInstr, OfSubmission, Heard, Queued, WillRelay,
         Announcing, Downstream;
    var t, own' := FineNext(c, s, step), own + Announcing(s, step, cid);
    MoreAnnouncers(c, own, Announcing(s, step, cid));
    forall l | l in c.links && Queued(t, l, cid) ensures Downstream(c, own', l.src) {
      TracedQueued(c, s, own, step, l, cid);
    }
    forall n | n in c.nodes
      ensures Heard(t, n, cid) ==> Downstream(c, own', n)
      ensures forall env, from :: WillRelay(t.net.nodes[n].prog, env, from, cid) ==> Downstream(c, own', n)
    {
      TracedNode(c, s, own, step, n, cid);
    }
  }

  // ---------------------------------------------------------------------------
  // Once all is quiet
  // ---------------------------------------------------------------------------

  lemma {:induction false} AlongPath(c: Config, s: Fine, own: set<NodeId>, cid: MessageId, p: seq<NodeId>)
    requires FineSound(c, s) && Spreading(c, s, own, cid) && FineQuiescent(s)
    requires IsPath(c, p) && p[0] in c.nodes && p[|p| - 1] in c.nodes && Knows(s, own, p[0], cid)
    ensures Knows(s, own, p[|p| - 1], cid)
    decreases |p|
  {
    hide Heard, Sound;
    if |p| > 1 {
      var l := Link(p[0], p[1]);
      assert l in c.links;
      assert Knows(s, own, l.dst, cid);
      assert IsPath(c, p[1..]);
      AlongPath(c, s, own, cid, p[1..]);
    }
  }

  lemma AnnouncersAreNodes(c: Config, run: seq<FineStep>, cid: MessageId)
    ensures Announcers(c, run, cid) <= c.nodes
  {
    hide FineNext, Says;
    if run != [] { AnnouncersAreNodes(c, run[..|run| - 1], cid); }
  }

  /** Whoever has heard of a submission tells everyone downstream: over links that lose nothing, with no table
      cleaned, once all is quiet every node on a path from a node that has taken or announced it has taken it
      too, unless it announced the submission itself. */
  lemma NeighboursHear(c: Config, run: seq<FineStep>, cid: MessageId, p: seq<NodeId>)
    requires WellFormed(c) && KeepingRun(run) && FineQuiescent(FineAfter(c, run)) && OfSubmission(cid)
    requires IsPath(c, p) && p[0] in c.nodes && p[|p| - 1] in c.nodes
    requires Heard(FineAfter(c, run), p[0], cid) || p[0] in Announcers(c, run, cid)
    ensures Heard(FineAfter(c, run), p[|p| - 1], cid) || p[|p| - 1] in Announcers(c, run, cid)
  {
    hide FineAfter, FineQuiescent, Heard, Announcers, Spreading, FineSound;
    RunSpreads(c, run, cid);
    AlongPath(c, FineAfter(c, run), Announcers(c, run, cid), cid, p);
  }

  /** Which nodes a submission reaches, exactly: the announcers apart, a node has taken it by the time all is
      quiet if and only if there is a path to it from a node that announced it. */
  lemma SubmissionsArrive(c: Config, run: seq<FineStep>, cid: MessageId, n: NodeId)
    requires WellFormed(c) && KeepingRun(run) && FineQuiescent(FineAfter(c, run)) && OfSubmission(cid)
    requires n in c.nodes && n !in Announcers(c, run, cid)
    ensures Heard(FineAfter(c, run), n, cid)
       <==> exists p :: IsPath(c, p) && p[0] in Announcers(c, run, cid) && p[|p| - 1] == n
  {
    hide FineAfter, FineQuiescent, Heard, FineSound, Announcers, WillRelay, Queued;
    RunIsTraceable(c, run, cid);
    AnnouncersAreNodes(c, run, cid);
    if Downstream(c, Announcers(c, run, cid), n) {
      var p :| IsPath(c, p) && p[0] in Announcers(c, run, cid) && p[|p| - 1] == n;
      NeighboursHear(c, run, cid, p);
    }
  }

  /** With a request id: the id itself is in the table of every node there is a path to. */
  lemma RequestsArrive(c: Config, run: seq<FineStep>, requestId: string, n: NodeId)
    requires WellFormed(c) && Connected(c) && KeepingRun(run) && FineQuiescent(FineAfter(c, run)) && n in c.nodes
    requires var own := Announcers(c, run, ByRequest(requestId)); own != {} && n !in own
    ensures ByRequest(requestId) in FineAfter(c, run).net.nodes[n].seen
  {
    hide FineAfter, FineQuiescent, Announcers;
    var cid := ByRequest(requestId);
    AnnouncersAreNodes(c, run, cid);
    var m :| m in Announcers(c, run, cid);
    var p :| IsPath(c, p) && p[0] == m && p[|p| - 1] == n;
    NeighboursHear(c, run, cid, p);
  }

  // ---------------------------------------------------------------------------
  // The announcer itself
  // ---------------------------------------------------------------------------

  const SUBMISSION: Envelope := Envelope("r", SubmitResult("t", Some([]), None), "")

  lemma Announces(first: NodeState)
    ensures V.Goes(V.Scene(first, first, [], [], [], [], Idle), Plain(Announce("a", SUBMISSION)),
                   V.Scene(first, first, [SUBMISSION], [], [], [], Idle))
  {
    hide Emit;
    D.PairEmits([], [], SUBMISSION);
    assert [] + [SUBMISSION] == [SUBMISSION];
  }

  lemma Takes(first: NodeState, relaying: NodeState)
    requires first == V.FIRST && relaying == NodeState(map[], {ByRequest("r")}, [Relay(SUBMISSION, "a")])
    ensures V.Goes(V.Scene(first, first, [SUBMISSION], [], [], [], Idle), Plain(Deliver(D.A_TO_B, 0)),
                   V.Scene(first, relaying, [], [], [], [], Idle))
  {
    var env := SUBMISSION;
    assert Program(D.Reject, env, "a") == [Relay(env, "a")];
    assert Without([env], 0) == [] && [env][0] == env && first.seen + {IdOf(env)} == relaying.seen;
    hide Program, IdOf, Without;
    V.PairLinks([env], [], []);
    V.PairNodes(first, first, relaying);
  }

  /** Node b relays it to nobody, a being its only peer. */
  lemma RelaysToNobody(first: NodeState, relaying: NodeState)
    requires relaying == NodeState(map[], {ByRequest("r")}, [Relay(SUBMISSION, "a")])
    ensures V.Goes(V.Scene(first, relaying, [], [], [], [], Idle), Plain(Work("b")),
                   V.Scene(first, relaying.(prog := []), [], [], [], [], Idle))
  {
    hide Emit, Encode;
    D.TwoNodes();
    V.NobodyElse([], [], Encode(SUBMISSION.requestId, SUBMISSION.body));
    V.PairNodes(first, relaying, relaying.(prog := []));
    assert [Relay(SUBMISSION, "a")][1..] == [];
  }

  lemma PairRun(run: seq<FineStep>, heard: NodeState)
    requires run == [Plain(Announce("a", SUBMISSION)), Plain(Deliver(D.A_TO_B, 0)), Plain(Work("b"))]
    requires heard == NodeState(map[], {ByRequest("r")}, [])
    ensures FineAfter(D.PAIR, run) == V.Scene(V.FIRST, heard, [], [], [], [], Idle)
    ensures FineEnabled(FineAfter(D.PAIR, run[..0]), run[0])
  {
    var first, env, relaying := V.FIRST, SUBMISSION, heard.(prog := [Relay(SUBMISSION, "a")]);
    assert relaying.(prog := []) == heard && run[..3] == run;
    Announces(first);
    Takes(first, relaying);
    RelaysToNobody(first, relaying);
    V.StartScene(run);
    assert FineEnabled(FineAfter(D.PAIR, run[..0]), run[0]);
    hide *;
    V.Onward(run, 0, V.Scene(first, first, [], [], [], [], Idle), V.Scene(first, first, [env], [], [], [], Idle));
    V.Onward(run, 1, V.Scene(first, first, [env], [], [], [], Idle), V.Scene(first, relaying, [], [], [], [], Idle));
    V.Onward(run, 2, V.Scene(first, relaying, [], [], [], [], Idle), V.Scene(first, heard, [], [], [], [], Idle));
  }

  /** The exception is needed: a node need not hear back of what its own application has announced. */
  lemma AnnouncerMayNotHear() returns (run: seq<FineStep>)
    ensures WellFormed(D.PAIR) && KeepingRun(run) && FineQuiescent(FineAfter(D.PAIR, run))
    ensures var cid := ByRequest("r");
            && Announcers(D.PAIR, run, cid) == {"a"} && !Heard(FineAfter(D.PAIR, run), "a", cid)
            && Heard(FineAfter(D.PAIR, run), "b", cid)
  {
    var heard := NodeState(map[], {ByRequest("r")}, []);
    run := [Plain(Announce("a", SUBMISSION)), Plain(Deliver(D.A_TO_B, 0)), Plain(Work("b"))];
    assert KeepingRun(run);
    hide *;
    PairRun(run, heard);
    OnlyA(run);
    OnlyBHeard(heard);
    D.PairIsConnected();
  }

  lemma OnlyBHeard(heard: NodeState)
    requires heard == NodeState(map[], {ByRequest("r")}, [])
    ensures var s, cid := V.Scene(V.FIRST, heard, [], [], [], [], Idle), ByRequest("r");
            FineQuiescent(s) && !Heard(s, "a", cid) && Heard(s, "b", cid)
  {
    D.TwoNodes();
    assert ByRequest("r") in heard.seen && Canon(ByRequest("r")) == ByRequest("r");
  }

  lemma OnlyA(run: seq<FineStep>)
    requires run == [Plain(Announce("a", SUBMISSION)), Plain(Deliver(D.A_TO_B, 0)), Plain(Work("b"))]
    requires FineEnabled(FineAfter(D.PAIR, run[..0]), run[0])
    ensures Announcers(D.PAIR, run, ByRequest("r")) == {"a"}
  {
    hide FineAfter, FineEnabled;
    var cid := ByRequest("r");
    assert run[..2][..1] == run[..1] && run[..1][..0] == run[..0] == [];
    assert Announcing(FineAfter(D.PAIR, run[..0]), run[0], cid) == {"a"};
    assert Announcers(D.PAIR, run[..1], cid) == {} + {"a"};
    assert Announcers(D.PAIR, run[..2], cid) == {"a"} + {};
  }
}

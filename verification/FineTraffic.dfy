/** How a step of the finer network changes stores, hooks and the diffs under way, whatever the network. */
module FineTraffic {
  import opened Base
  import opened Protocol
  import opened Worlds
  import opened PeerNode
  import opened GossipNet
  import opened Traffic
  import opened HookNet
  import P = Peering

  /** The diffs under way over a link: the one being adopted, then those of the program, then those
      in the queue. */
  function Ahead(s: Fine, l: Link): seq<ObjectDiff>
    requires l in s.net.queues && l.dst in s.net.nodes && l.dst in s.busy
  {
    var b := s.busy[l.dst];
    (if b.Adopting? && b.from == l.src then [b.diff] else []) + LinkDiffs(s.net, l)
  }

  function At(s: Fine, n: NodeId, x: string): nat
    requires n in s.net.nodes
  {
    Version(s.net.nodes[n].objects, x)
  }

  // ---------------------------------------------------------------------------
  // Shapes
  // ---------------------------------------------------------------------------

  predicate IsNews(objs: Objects, d: ObjectDiff) {
    !(d.objectId in objs && objs[d.objectId].version >= d.version)
  }

  /** The event loop waits for the hook of what it has applied. */
  function AfterApply(objs: Objects, req: UpdateRequest): Busy {
    if Outcome(objs, req).Applied? then Hooking(req.objectId, Version(objs, req.objectId) + 1, []) else Idle
  }

  lemma StoredShape(c: Config, s: Fine, n: NodeId, req: UpdateRequest)
    requires FineShaped(c, s) && n in c.nodes
    ensures FineShaped(c, Stored(s, n, req)) && Stored(s, n, req).busy == s.busy
    ensures Stored(s, n, req).net.queues == s.net.queues
    ensures forall m | m in c.nodes :: Stored(s, n, req).net.nodes[m].prog == s.net.nodes[m].prog
              && Stored(s, n, req).net.nodes[m].seen == s.net.nodes[m].seen
    ensures forall m, x | m in c.nodes ::
              At(Stored(s, n, req), m, x) == At(s, m, x) + if m == n && x == req.objectId
                && Outcome(s.net.nodes[n].objects, req).Applied? then 1 else 0
  {
  }

  lemma PoppedShape(c: Config, s: Fine, n: NodeId)
    requires FineShaped(c, s) && n in c.nodes && s.net.nodes[n].prog != []
    ensures FineShaped(c, Popped(s, n)) && Popped(s, n).busy == s.busy && Popped(s, n).net.queues == s.net.queues
    ensures Popped(s, n).hooks == s.hooks && Popped(s, n).net.nodes[n].objects == s.net.nodes[n].objects
    ensures Popped(s, n).net.nodes[n] == s.net.nodes[n].(prog := s.net.nodes[n].prog[1..])
    ensures forall m | m in c.nodes && m != n :: Popped(s, n).net.nodes[m] == s.net.nodes[m]
  {
  }

  lemma EmitShape(c: Config, s: Fine, n: NodeId, sends: seq<P.Send>)
    requires FineShaped(c, s)
    ensures Emit(s.net.queues, n, sends).Keys == c.links
  {
  }

  lemma ReceiveShape(c: Config, s: Net, k: Link, i: nat)
    requires Shaped(c, s) && Enabled(s, Deliver(k, i))
    ensures Shaped(c, Receive(c, s, k, i))
    ensures forall n | n in c.nodes :: Receive(c, s, k, i).nodes[n].objects == s.nodes[n].objects
  {
  }

  lemma OtherShape(c: Config, s: Fine, lab: Label)
    requires FineShaped(c, s) && FineEnabled(s, Plain(lab)) && !Acts(lab) && !lab.Deliver?
    ensures var t := FineNext(c, s, Plain(lab));
            && FineShaped(c, t) && t.hooks == s.hooks && t.busy == s.busy && t.net == Next(c, s.net, lab)
            && forall m | m in c.nodes ::
                 && t.net.nodes[m].seen <= s.net.nodes[m].seen
                 && t.net.nodes[m].prog == s.net.nodes[m].prog
                 && t.net.nodes[m].objects == s.net.nodes[m].objects
  {
  }

  lemma SameAhead(s: Fine, t: Fine, l: Link)
    requires l in s.net.queues && l.dst in s.net.nodes && l.dst in s.busy && t.net == s.net && l.dst in t.busy
    requires s.busy[l.dst].Adopting? == t.busy[l.dst].Adopting?
    requires s.busy[l.dst].Adopting? ==> s.busy[l.dst] == t.busy[l.dst]
    ensures Ahead(t, l) == Ahead(s, l)
  {
  }

  /** The idle event loop's step, by kind of instruction. */
  lemma WorkedIdle(c: Config, s: Fine, n: NodeId)
    requires n in s.net.nodes && n in s.busy && s.busy[n] == Idle && s.net.nodes[n].prog != []
    ensures var t, t', instr := Popped(s, n), Worked(c, s, n), s.net.nodes[n].prog[0];
            && (instr.Consider? && !IsNews(s.net.nodes[n].objects, instr.diff) ==> t' == t)
            && (instr.Consider? && IsNews(s.net.nodes[n].objects, instr.diff) ==>
                  t' == t.(busy := s.busy[n := Adopting(instr.diff, instr.requestId, instr.from)]))
            && (instr.ApplyUpdate? ==>
                 t' == Stored(t, n, instr.req).(busy := s.busy[n := AfterApply(s.net.nodes[n].objects, instr.req)]))
            && (instr.Relay? ==> t' == t.(net := t.net.(queues := Emit(t.net.queues, n,
                 [P.Send(Encode(instr.env.requestId, instr.env.body), instr.from)]))))
  {
    hide Emit;
    assert s.busy[n := Idle] == s.busy;
  }

  lemma FireShape(c: Config, s: Fine, k: Link, i: nat, l: Link)
    requires WellFormed(c) && FineShaped(c, s) && FineEnabled(s, Fire(k, i)) && l in c.links
    ensures var t := FineNext(c, s, Fire(k, i));
            && FineShaped(c, t) && t.net.nodes == s.net.nodes && t.busy == s.busy
            && (k != l ==> t.net.queues[l] == s.net.queues[l] && t.hooks[l] == s.hooks[l] && Ahead(t, l) == Ahead(s, l))
            && (k == l ==> Ahead(t, l) == Ahead(s, l) + [s.hooks[l][i]] && t.hooks[l] == Without(s.hooks[l], i))
  {
    var d := s.hooks[k][i];
    QueueDiffsConcat(s.net.queues[k], [HookEnvelope(d)]);
    QueueDiffsTwo(HookEnvelope(d), HookEnvelope(d));
  }

  // ---------------------------------------------------------------------------
  // Stores and hooks
  // ---------------------------------------------------------------------------

  /** The update that a step applies, and where. */
  ghost function ApplyOf(c: Config, s: Fine, step: FineStep): Option<(NodeId, UpdateRequest)>
    requires FineEnabled(s, step)
  {
    match step
    case Plain(LocalApply(n, req)) => Some((n, req))
    case Plain(Work(n)) =>
      (match s.busy[n]
       case Adopting(d, _, _) => Some((n, RequestFor(d, c.tags(n))))
       case Hooking(_, _, _) => None
       case Idle => if s.net.nodes[n].prog[0].ApplyUpdate? then Some((n, s.net.nodes[n].prog[0].req)) else None)
    case _ => None
  }

  /** What an apply does to the stores and to the hooks. */
  ghost predicate Applies(c: Config, s: Fine, t: Fine, apply: Option<(NodeId, UpdateRequest)>)
    requires FineShaped(c, s) && FineShaped(c, t) && (apply.Some? ==> apply.value.0 in c.nodes)
  {
    match apply
    case None => (forall n :: n in c.nodes ==> t.net.nodes[n].objects == s.net.nodes[n].objects) && t.hooks == s.hooks
    case Some((n, req)) =>
      && (forall m :: m in c.nodes ==> t.net.nodes[m].objects == Stored(s, n, req).net.nodes[m].objects)
      && t.hooks == Stored(s, n, req).hooks
  }

  lemma StepApplies(c: Config, s: Fine, step: FineStep)
    requires FineShaped(c, s) && FineEnabled(s, step) && step.Plain?
    ensures ApplyOf(c, s, step).Some? ==> ApplyOf(c, s, step).value.0 in c.nodes
    ensures Applies(c, s, FineNext(c, s, step), ApplyOf(c, s, step))
  {
    hide Emit, Program, IdOf, Stored, Popped, Worked;
    match step.lab {
      case LocalApply(n, req) =>
      case Work(n) =>
        match s.busy[n] {
          case Adopting(_, _, _) => AdoptedState(c, s, n);
          case Hooking(_, _, _) => HookedState(c, s, n);
          case Idle => IdleApplies(c, s, n);
        }
      case _ =>
    }
  }

  /** Only the node that applies changes its store. */
  lemma StepStores(c: Config, s: Fine, step: FineStep)
    requires FineShaped(c, s) && FineEnabled(s, step)
    ensures var t, apply := FineNext(c, s, step), ApplyOf(c, s, step);
            && (apply.Some? ==> apply.value.0 in c.nodes)
            && (forall n | n in c.nodes ::
                  t.net.nodes[n].objects == if apply.Some? && apply.value.0 == n
                                            then ApplyTo(s.net.nodes[n].objects, apply.value.1)
                                            else s.net.nodes[n].objects)
  {
    hide HookDiff, Worked, Next;
    if step.Plain? { StepApplies(c, s, step); }
  }

  /** Only the working node's event loop moves. */
  lemma BusySame(c: Config, s: Fine, step: FineStep, n: NodeId)
    requires FineShaped(c, s) && FineEnabled(s, step) && n in c.nodes && step != Plain(Work(n))
    ensures FineNext(c, s, step).busy[n] == s.busy[n]
  {
    hide Emit, Outcome, Program, HookDiff;
  }

  lemma AdoptedState(c: Config, s: Fine, n: NodeId)
    requires n in s.net.nodes && n in s.busy && s.busy[n].Adopting?
    ensures var t := Stored(s, n, RequestFor(s.busy[n].diff, c.tags(n)));
            Worked(c, s, n).net == t.net && Worked(c, s, n).hooks == t.hooks
  {
    hide Stored;
  }

  lemma HookedState(c: Config, s: Fine, n: NodeId)
    requires n in s.net.nodes && n in s.busy && s.busy[n].Hooking?
    ensures Worked(c, s, n).net.nodes == s.net.nodes && Worked(c, s, n).hooks == s.hooks
    ensures Worked(c, s, n).busy == s.busy[n := Idle]
  {
  }

  lemma IdleApplies(c: Config, s: Fine, n: NodeId)
    requires FineShaped(c, s) && FineEnabled(s, Plain(Work(n))) && s.busy[n] == Idle
    ensures Applies(c, s, Worked(c, s, n), ApplyOf(c, s, Plain(Work(n))))
  {
    hide Emit, Worked, Stored, Popped, Outcome;
    var t, instr := Popped(s, n), s.net.nodes[n].prog[0];
    PoppedShape(c, s, n);
    WorkedIdle(c, s, n);
    if instr.ApplyUpdate? {
      PoppedStored(c, s, n, instr.req);
    }
  }

  lemma PoppedStored(c: Config, s: Fine, n: NodeId, req: UpdateRequest)
    requires FineShaped(c, s) && n in c.nodes && s.net.nodes[n].prog != []
    ensures forall m | m in c.nodes :: Stored(Popped(s, n), n, req).net.nodes[m].objects
              == Stored(s, n, req).net.nodes[m].objects
    ensures Stored(Popped(s, n), n, req).hooks == Stored(s, n, req).hooks
  {
    hide Outcome, HookDiff, ApplyTo;
  }

  /** An apply fires a hook with this diff. */
  ghost predicate FiresHook(c: Config, s: Fine, step: FineStep, d: ObjectDiff)
    requires FineShaped(c, s) && FineEnabled(s, step)
  {
    ApplyOf(c, s, step).Some? &&
    var (n, req) := ApplyOf(c, s, step).value;
    && n in c.nodes && Outcome(s.net.nodes[n].objects, req).Applied?
    && d == HookDiff(Outcome(s.net.nodes[n].objects, req).obj)
  }

  /** A hook waiting for a link did so before, or has just been fired by an apply. */
  lemma NewHook(c: Config, s: Fine, step: FineStep, l: Link, d: ObjectDiff)
    requires FineShaped(c, s) && FineEnabled(s, step) && l in c.links && d in FineNext(c, s, step).hooks[l]
    ensures d in s.hooks[l] || FiresHook(c, s, step, d)
  {
    hide Outcome, HookDiff, Stored, FineNext;
    if step.Plain? {
      StepApplies(c, s, step);
      if ApplyOf(c, s, step).Some? {
        var (n, req) := ApplyOf(c, s, step).value;
        StoredHooks(s, n, req, l);
      }
    } else {
      FiredHooks(c, s, step.link, step.i, l);
    }
  }

  lemma StoredHooks(s: Fine, n: NodeId, req: UpdateRequest, l: Link)
    requires n in s.net.nodes && l in s.hooks
    ensures var out := Outcome(s.net.nodes[n].objects, req);
            Stored(s, n, req).hooks[l]
              == if out.Applied? && l.src == n then s.hooks[l] + [HookDiff(out.obj)] else s.hooks[l]
  {
  }

  lemma FiredHooks(c: Config, s: Fine, k: Link, i: nat, l: Link)
    requires FineShaped(c, s) && FineEnabled(s, Fire(k, i)) && l in c.links
    ensures forall d :: d in FineNext(c, s, Fire(k, i)).hooks[l] ==> d in s.hooks[l]
  {
  }

  // ---------------------------------------------------------------------------
  // Diffs under way
  // ---------------------------------------------------------------------------

  lemma SameLinks(c: Config, s: Fine, n: NodeId, req: UpdateRequest, l: Link)
    requires FineShaped(c, s) && WellFormed(c) && n in c.nodes && l in c.links
    ensures Ahead(Stored(s, n, req), l) == Ahead(s, l)
  {
    StoredShape(c, s, n, req);
  }

  /** A diff under way over a link was so before, or is a hook's, or has just been forwarded. */
  lemma NewAhead(c: Config, s: Fine, step: FineStep, l: Link, d: ObjectDiff)
    requires FineSound(c, s) && FineEnabled(s, step) && l in c.links && d in Ahead(FineNext(c, s, step), l)
    ensures d in Ahead(s, l) || d in s.hooks[l] || d in HeldBack(s.busy[l.src])
  {
    hide LinkDiffs, BusySourced, HeldBack;
    match step {
      case Fire(k, i) => FireShape(c, s, k, i, l);
      case Plain(LocalApply(n, req)) => SameLinks(c, s, n, req, l);
      case Plain(Work(n)) =>
        WorkAhead(c, s, n, l, d);
        if s.busy[n].Hooking? { OnwardSent(c, n, s.busy[n], l.dst); }
      case Plain(lab) =>
        if d in LinkDiffs(FineNext(c, s, step).net, l) { NewDiffs(c, s.net, lab, l, d); }
    }
  }

  lemma OnwardSent(c: Config, n: NodeId, b: Busy, dst: NodeId)
    requires b.Hooking? && BusySourced(c, n, b)
    ensures |Addressed(b.onward, dst)| <= 1 && |QueueDiffs(Addressed(b.onward, dst))| <= 1
    ensures forall d :: d in QueueDiffs(Addressed(b.onward, dst)) ==> d in HeldBack(b)
  {
    if b.onward != [] {
      assert b.onward == [b.onward[0]];
      AddressedTwo(b.onward[0], b.onward[0], dst);
      QueueDiffsTwo(b.onward[0].env, b.onward[0].env);
    }
  }

  lemma WorkAhead(c: Config, s: Fine, n: NodeId, l: Link, d: ObjectDiff)
    requires Sound(c, s.net) && FineShaped(c, s) && FineEnabled(s, Plain(Work(n))) && l in c.links
    requires d in Ahead(Worked(c, s, n), l)
    ensures d in Ahead(s, l)
         || (n == l.src && s.busy[n].Hooking? && d in QueueDiffs(Addressed(s.busy[n].onward, l.dst)))
  {
    hide Stored;
    var t := Worked(c, s, n);
    match s.busy[n] {
      case Adopting(_, _, _) =>
        var req := RequestFor(s.busy[n].diff, c.tags(n));
        StoredShape(c, s, n, req);
        SameLinks(c, s, n, req, l);
      case Hooking(_, _, onward) =>
        if n == l.src { QueueDiffsConcat(s.net.queues[l], Addressed(onward, l.dst)); }
      case Idle => IdleAhead(c, s, n, l, d);
    }
  }

  lemma IdleAhead(c: Config, s: Fine, n: NodeId, l: Link, d: ObjectDiff)
    requires WellFormed(c) && Sound(c, s.net) && FineShaped(c, s) && FineEnabled(s, Plain(Work(n)))
    requires s.busy[n] == Idle && l in c.links && d in Ahead(Worked(c, s, n), l)
    ensures d in Ahead(s, l)
  {
    hide Sound, Stored, Worked, Popped, Emit, Ahead;
    var t, t', instr := Popped(s, n), Worked(c, s, n), s.net.nodes[n].prog[0];
    PoppedShape(c, s, n);
    PoppedAhead(c, s, n, l, d);
    WorkedIdle(c, s, n);
    match instr {
      case ApplyUpdate(req) => AppliedAhead(c, t, n, req, l);
      case Consider(_, _, _) =>
      case Relay(env, from) =>
        HeadIsSourced(c, s, n);
        RelayedDiffs(t.net.queues, n, env, from, l);
        SameQueueAhead(t, t', l);
    }
  }

  lemma AppliedAhead(c: Config, t: Fine, n: NodeId, req: UpdateRequest, l: Link)
    requires WellFormed(c) && FineShaped(c, t) && n in c.nodes && t.busy[n] == Idle && l in c.links
    ensures Ahead(Stored(t, n, req).(busy := t.busy[n := AfterApply(t.net.nodes[n].objects, req)]), l) == Ahead(t, l)
  {
    hide Stored, Ahead;
    var u := Stored(t, n, req);
    SameLinks(c, t, n, req, l);
    StoredShape(c, t, n, req);
    SameAhead(u, u.(busy := t.busy[n := AfterApply(t.net.nodes[n].objects, req)]), l);
  }

  /** Leaving the program's head behind, or taking it up, adds nothing. */
  lemma PoppedAhead(c: Config, s: Fine, n: NodeId, l: Link, d: ObjectDiff)
    requires FineShaped(c, s) && WellFormed(c) && n in c.nodes && s.net.nodes[n].prog != [] && s.busy[n] == Idle
    requires l in c.links
    ensures var t, instr := Popped(s, n), s.net.nodes[n].prog[0];
            && (d in Ahead(t, l) ==> d in Ahead(s, l))
            && (instr.Consider? ==>
                  var taken := Adopting(instr.diff, instr.requestId, instr.from);
                  d in Ahead(t.(busy := s.busy[n := taken]), l) ==> d in Ahead(s, l))
  {
    hide QueueDiffs, ProgDiffs;
    var prog := s.net.nodes[n].prog;
    ProgDiffsSplit(prog, l.src);
  }

  lemma ProgDiffsSplit(prog: seq<Instr>, from: NodeId)
    requires prog != []
    ensures ProgDiffs(prog, from)
              == (if prog[0].Consider? && prog[0].from == from then [prog[0].diff] else []) + ProgDiffs(prog[1..], from)
  {
  }

  lemma SameQueueAhead(s: Fine, t: Fine, l: Link)
    requires l in s.net.queues && l.dst in s.net.nodes && l.dst in s.busy && l in t.net.queues
    requires t.net.nodes == s.net.nodes && t.busy == s.busy
    requires QueueDiffs(t.net.queues[l]) == QueueDiffs(s.net.queues[l])
    ensures Ahead(t, l) == Ahead(s, l)
  {
  }

  lemma HeadIsSourced(c: Config, s: Fine, n: NodeId)
    requires Sound(c, s.net) && FineShaped(c, s) && n in c.nodes && s.net.nodes[n].prog != []
    ensures Sourced(c, n, s.net.nodes[n].prog[0])
  {
  }

  lemma RelayedDiffs(queues: map<Link, seq<Envelope>>, n: NodeId, env: Envelope, from: NodeId, l: Link)
    requires l in queues && env.body.SubmitResult?
    ensures QueueDiffs(Emit(queues, n, [P.Send(Encode(env.requestId, env.body), from)])[l]) == QueueDiffs(queues[l])
  {
    var send := P.Send(Encode(env.requestId, env.body), from);
    AddressedTwo(send, send, l.dst);
    QueueDiffsTwo(send.env, send.env);
    QueueDiffsConcat(queues[l], Addressed([send], l.dst));
  }

  // ---------------------------------------------------------------------------
  // Where diffs come from
  // ---------------------------------------------------------------------------

  /** An event loop adopts a neighbour's diff, and has at most one diff to send on after a hook. */
  predicate BusySourced(c: Config, n: NodeId, b: Busy) {
    match b
    case Idle => true
    case Adopting(_, _, from) => Link(from, n) in c.links
    case Hooking(_, _, onward) =>
      onward == [] || (|onward| == 1 && onward[0].env.body.WorldUpdate? && |onward[0].env.body.objects| == 1)
  }

  ghost predicate FineSound(c: Config, s: Fine) {
    && WellFormed(c) && FineShaped(c, s) && Sound(c, s.net)
    && (forall n :: n in c.nodes ==> BusySourced(c, n, s.busy[n]))
  }

  lemma FineSoundStep(c: Config, s: Fine, step: FineStep)
    requires FineSound(c, s) && FineEnabled(s, step)
    ensures FineSound(c, FineNext(c, s, step))
  {
    match step {
      case Fire(_, _) =>
      case Plain(LocalApply(n, req)) => StoredShape(c, s, n, req);
      case Plain(Work(n)) => WorkSound(c, s, n);
      case Plain(lab) => SoundStep(c, s.net, lab);
    }
  }

  /** Programs only get shorter, and only the working node's event loop moves. */
  lemma WorkProgs(c: Config, s: Fine, n: NodeId)
    requires FineShaped(c, s) && FineEnabled(s, Plain(Work(n)))
    ensures var t, prog := Worked(c, s, n), s.net.nodes[n].prog;
            && (t.net.nodes[n].prog == prog || (prog != [] && t.net.nodes[n].prog == prog[1..]))
            && (forall m | m in c.nodes && m != n ::
                  t.net.nodes[m].prog == s.net.nodes[m].prog && t.busy[m] == s.busy[m])
  {
    hide Emit, Outcome, HookDiff, ApplyTo, Stored, Popped;
    match s.busy[n] {
      case Adopting(d, _, _) => StoredShape(c, s, n, RequestFor(d, c.tags(n)));
      case Hooking(_, _, _) =>
      case Idle =>
        hide Worked;
        PoppedShape(c, s, n);
        WorkedIdle(c, s, n);
        if s.net.nodes[n].prog[0].ApplyUpdate? { StoredShape(c, Popped(s, n), n, s.net.nodes[n].prog[0].req); }
    }
  }

  lemma WorkBusy(c: Config, s: Fine, n: NodeId)
    requires FineSound(c, s) && FineEnabled(s, Plain(Work(n)))
    ensures BusySourced(c, n, Worked(c, s, n).busy[n])
  {
    hide Emit, Outcome, HookDiff, ApplyTo, Stored, Popped;
    match s.busy[n] {
      case Adopting(d, requestId, from) => OnwardIsOne(requestId, d);
      case Hooking(_, _, _) =>
      case Idle =>
        assert Sourced(c, n, s.net.nodes[n].prog[0]);
        PoppedShape(c, s, n);
        WorkedIdle(c, s, n);
    }
  }

  lemma WorkSound(c: Config, s: Fine, n: NodeId)
    requires FineSound(c, s) && FineEnabled(s, Plain(Work(n)))
    ensures FineSound(c, Worked(c, s, n))
  {
    hide Worked, BusySourced, Sourced;
    WorkProgs(c, s, n);
    WorkBusy(c, s, n);
    var t, prog := Worked(c, s, n), s.net.nodes[n].prog;
    forall m, i | m in c.nodes && 0 <= i < |t.net.nodes[m].prog|
      ensures Sourced(c, m, t.net.nodes[m].prog[i])
    {
      if m == n && t.net.nodes[n].prog != prog {
        assert prog[1..][i] == prog[i + 1];
      }
    }
  }

  lemma OnwardIsOne(requestId: string, d: ObjectDiff)
    ensures Encode(requestId, WorldUpdate([d])).body == WorldUpdate([WireDiff(d)])
  {
    assert WireDiffs([d]) == [WireDiff(d)];
  }

  lemma {:induction false} FineSoundRun(c: Config, run: seq<FineStep>)
    requires WellFormed(c)
    ensures FineSound(c, FineAfter(c, run))
  {
    hide FineNext, FineEnabled, FineSound;
    if run == [] {
      FirstIsSound(c);
    } else {
      var s := FineAfter(c, run[..|run| - 1]);
      FineSoundRun(c, run[..|run| - 1]);
      if FineEnabled(s, run[|run| - 1]) {
        FineSoundStep(c, s, run[|run| - 1]);
      }
    }
  }

  lemma FirstIsSound(c: Config)
    requires WellFormed(c)
    ensures FineSound(c, FineInit(c))
  {
  }

  /** The diff an event loop is adopting, or is about to look up, is under way to it. */
  lemma TakenIsAhead(c: Config, s: Fine, n: NodeId)
    requires FineSound(c, s) && n in c.nodes
    ensures s.busy[n].Adopting? ==>
              Link(s.busy[n].from, n) in c.links && s.busy[n].diff in Ahead(s, Link(s.busy[n].from, n))
    ensures var prog := s.net.nodes[n].prog;
            prog != [] && prog[0].Consider? ==>
              Link(prog[0].from, n) in c.links && prog[0].diff in Ahead(s, Link(prog[0].from, n))
  {
    var prog := s.net.nodes[n].prog;
    assert BusySourced(c, n, s.busy[n]);
    if s.busy[n].Adopting? {
      assert Ahead(s, Link(s.busy[n].from, n))[0] == s.busy[n].diff;
    }
    if prog != [] && prog[0].Consider? {
      assert Sourced(c, n, prog[0]);
      var l := Link(prog[0].from, n);
      assert LinkDiffs(s.net, l)[0] == prog[0].diff;
      assert prog[0].diff in LinkDiffs(s.net, l);
    }
  }

  // ---------------------------------------------------------------------------
  // All the diffs there are
  // ---------------------------------------------------------------------------

  /** What an event loop is to send on once the hook it waits for has gone out. */
  function HeldBack(b: Busy): seq<ObjectDiff> {
    if b.Hooking? && b.onward != [] then BodyDiffs(b.onward[0].env.body) else []
  }

  /** A diff under way over a link, waiting in a hook, or held back. */
  ghost predicate Carried(c: Config, s: Fine, d: ObjectDiff)
    requires WellFormed(c) && FineShaped(c, s)
  {
    || (exists l :: l in c.links && (d in Ahead(s, l) || d in s.hooks[l]))
    || (exists n :: n in c.nodes && d in HeldBack(s.busy[n]))
  }

  /** The working event loop passes on, as encoded, the diff it adopts. */
  predicate PassesOn(s: Fine, step: FineStep, d: ObjectDiff) {
    && step.Plain? && step.lab.Work? && step.lab.n in s.busy && s.busy[step.lab.n].Adopting?
    && d == WireDiff(s.busy[step.lab.n].diff)
  }

  /** Over any network, every diff was there before the step, or is the copy that an adoption passes on, or
      is the hook of what has just been applied. */
  lemma StepCarries(c: Config, s: Fine, step: FineStep, d: ObjectDiff)
    requires FineSound(c, s) && FineEnabled(s, step) && Carried(c, FineNext(c, s, step), d)
    ensures Carried(c, s, d) || PassesOn(s, step, d) || FiresHook(c, s, step, d)
  {
    hide Ahead, FineNext, HeldBack, Sourced, BusySourced, PassesOn;
    var t := FineNext(c, s, step);
    if n :| n in c.nodes && d in HeldBack(t.busy[n]) {
      NewHeldBack(c, s, step, n, d);
    } else {
      var l :| l in c.links && (d in Ahead(t, l) || d in t.hooks[l]);
      if d in t.hooks[l] { NewHook(c, s, step, l, d); } else { NewAhead(c, s, step, l, d); }
    }
  }

  lemma NewHeldBack(c: Config, s: Fine, step: FineStep, n: NodeId, d: ObjectDiff)
    requires FineSound(c, s) && FineEnabled(s, step) && n in c.nodes && d in HeldBack(FineNext(c, s, step).busy[n])
    ensures d in HeldBack(s.busy[n]) || (step == Plain(Work(n)) && PassesOn(s, step, d))
  {
    hide Emit, Outcome, Program, HookDiff, BusySourced, Sourced, Sound;
    if step != Plain(Work(n)) {
      BusySame(c, s, step, n);
    } else if s.busy[n].Adopting? {
      OnwardIsOne(s.busy[n].requestId, s.busy[n].diff);
    }
  }

  lemma HookSubject(objs: Objects, req: UpdateRequest)
    requires Outcome(objs, req).Applied?
    ensures HookDiff(Outcome(objs, req).obj).objectId == req.objectId
  {
  }

  lemma FirstCarriesNothing(c: Config)
    requires WellFormed(c)
    ensures forall d :: !Carried(c, FineInit(c), d)
  {
    forall l | l in c.links
      ensures Ahead(FineInit(c), l) == []
    {
      NothingAtFirst(c, l);
    }
  }

  /** What is passed on was under way before. */
  lemma PassedIsCarried(c: Config, s: Fine, n: NodeId)
    requires FineSound(c, s) && n in c.nodes && s.busy[n].Adopting?
    ensures Carried(c, s, s.busy[n].diff)
  {
    hide Ahead;
    TakenIsAhead(c, s, n);
  }

  // ---------------------------------------------------------------------------
  // Where messages and instructions come from
  // ---------------------------------------------------------------------------

  /** The submission that the idle event loop is about to pass on. */
  predicate Relays(s: Fine, n: NodeId, env: Envelope)
    requires n in s.net.nodes && n in s.busy
  {
    var prog := s.net.nodes[n].prog;
    s.busy[n] == Idle && prog != [] && prog[0].Relay? && env == Encode(prog[0].env.requestId, prog[0].env.body)
  }

  /** The message that the event loop sends on once the hook it waits for has gone out. */
  predicate Onward(b: Busy, env: Envelope) {
    b.Hooking? && b.onward != [] && env == b.onward[0].env
  }

  /** A message in a queue was there before, or is a hook's, or carries what was held back, or is a
      submission just started or just passed on. */
  lemma NewMessage(c: Config, s: Fine, step: FineStep, l: Link, env: Envelope)
    requires FineSound(c, s) && FineEnabled(s, step) && l in c.links && env in FineNext(c, s, step).net.queues[l]
    ensures || env in s.net.queues[l] || step == Plain(Announce(l.src, env))
            || (step == Plain(Work(l.src)) && Relays(s, l.src, env))
            || (step.Fire? && step.link == l && env == HookEnvelope(s.hooks[l][step.i]))
            || (Onward(s.busy[l.src], env)
                && env.body.WorldUpdate? && forall d :: d in BodyDiffs(env.body) ==> d in HeldBack(s.busy[l.src]))
  {
    hide Stored, Worked, Sourced, BusySourced, HookDiff, Sound, Next, Relays, HeldBack;
    match step {
      case Fire(_, _) =>
      case Plain(LocalApply(n, req)) => StoredShape(c, s, n, req);
      case Plain(Work(n)) => WorkMessage(c, s, n, l, env);
      case Plain(lab) => OtherMessage(c, s, lab, l, env);
    }
  }

  lemma OtherMessage(c: Config, s: Fine, lab: Label, l: Link, env: Envelope)
    requires FineShaped(c, s) && FineEnabled(s, Plain(lab)) && !Acts(lab)
    requires l in c.links && env in FineNext(c, s, Plain(lab)).net.queues[l]
    ensures env in s.net.queues[l] || lab == Announce(l.src, env)
  {
    hide Receive, Addressed, IdOf;
    match lab {
      case Announce(n, e) => AddressedTwo(P.Send(e, ""), P.Send(e, ""), l.dst);
      case Deliver(k, i) => ReceivedQueues(c, s.net, k, i, l);
      case Forget(_, _) =>
      case Lose(_, _) =>
      case Duplicate(_, _) =>
    }
  }

  lemma ReceivedQueues(c: Config, s: Net, k: Link, i: nat, l: Link)
    requires Shaped(c, s) && Enabled(s, Deliver(k, i)) && l in c.links
    ensures Receive(c, s, k, i).queues == s.queues[k := Without(s.queues[k], i)]
    ensures forall env :: env in Receive(c, s, k, i).queues[l] ==> env in s.queues[l]
  {
    hide Program, IdOf;
  }

  lemma WorkMessage(c: Config, s: Fine, n: NodeId, l: Link, env: Envelope)
    requires FineSound(c, s) && FineEnabled(s, Plain(Work(n))) && l in c.links && env in Worked(c, s, n).net.queues[l]
    ensures || env in s.net.queues[l] || (n == l.src && Relays(s, n, env))
            || (n == l.src && Onward(s.busy[n], env) && env.body.WorldUpdate?
                && forall d :: d in BodyDiffs(env.body) ==> d in HeldBack(s.busy[n]))
  {
    hide Stored, Popped, Sourced, Addressed;
    match s.busy[n] {
      case Adopting(d, _, _) => StoredShape(c, s, n, RequestFor(d, c.tags(n)));
      case Hooking(_, _, onward) =>
        assert BusySourced(c, n, s.busy[n]);
        OnwardAddressed(onward, l.dst);
      case Idle => IdleMessage(c, s, n, l, env);
    }
  }

  lemma IdleMessage(c: Config, s: Fine, n: NodeId, l: Link, env: Envelope)
    requires FineShaped(c, s) && FineEnabled(s, Plain(Work(n))) && s.busy[n] == Idle
    requires l in c.links && env in Worked(c, s, n).net.queues[l]
    ensures env in s.net.queues[l] || (n == l.src && Relays(s, n, env))
  {
    hide Stored, Popped, Addressed, Worked, Outcome, Encode;
    var instr := s.net.nodes[n].prog[0];
    PoppedShape(c, s, n);
    WorkedIdle(c, s, n);
    if instr.ApplyUpdate? { StoredShape(c, Popped(s, n), n, instr.req); }
    if instr.Relay? {
      OnwardAddressed([P.Send(Encode(instr.env.requestId, instr.env.body), instr.from)], l.dst);
    }
  }

  lemma OnwardAddressed(sends: seq<P.Send>, dst: NodeId)
    requires |sends| <= 1
    ensures forall env :: env in Addressed(sends, dst) ==> sends != [] && env == sends[0].env
  {
    if sends != [] {
      assert sends == [sends[0]];
      AddressedTwo(sends[0], sends[0], dst);
    }
  }

  /** An instruction of a program was there before, or is of the message just taken, which was not seen. */
  lemma NewInstr(c: Config, s: Fine, step: FineStep, n: NodeId, instr: Instr)
    requires FineShaped(c, s) && FineEnabled(s, step) && n in c.nodes && instr in FineNext(c, s, step).net.nodes[n].prog
    ensures || instr in s.net.nodes[n].prog
            || (step.Plain? && step.lab.Deliver? && step.lab.link.dst == n
                && var env := s.net.queues[step.lab.link][step.lab.i];
                   IdOf(env) !in s.net.nodes[n].seen && instr in Program(c.merge(n), env, step.lab.link.src))
  {
    hide Stored, Worked, HookDiff, Program, IdOf, Emit;
    match step {
      case Fire(_, _) =>
      case Plain(LocalApply(m, req)) => StoredShape(c, s, m, req);
      case Plain(Work(m)) => WorkProgs(c, s, m);
      case Plain(_) =>
    }
  }

  lemma WorkSeen(c: Config, s: Fine, n: NodeId)
    requires FineShaped(c, s) && FineEnabled(s, Plain(Work(n)))
    ensures forall m | m in c.nodes :: Worked(c, s, n).net.nodes[m].seen == s.net.nodes[m].seen
  {
    hide Stored, Popped, Emit, Outcome, HookDiff;
    match s.busy[n] {
      case Adopting(d, _, _) => StoredShape(c, s, n, RequestFor(d, c.tags(n)));
      case Hooking(_, _, _) =>
      case Idle =>
        hide Worked;
        PoppedShape(c, s, n);
        WorkedIdle(c, s, n);
        if s.net.nodes[n].prog[0].ApplyUpdate? { StoredShape(c, Popped(s, n), n, s.net.nodes[n].prog[0].req); }
    }
  }

  /** An id in a de-duplication table was there before or is that of the message just taken. */
  lemma NewSeen(c: Config, s: Fine, step: FineStep, n: NodeId, id: MessageId)
    requires FineShaped(c, s) && FineEnabled(s, step) && n in c.nodes && id in FineNext(c, s, step).net.nodes[n].seen
    ensures || id in s.net.nodes[n].seen
            || (step.Plain? && step.lab.Deliver? && step.lab.link.dst == n
                && id == IdOf(s.net.queues[step.lab.link][step.lab.i]))
  {
    hide Stored, Worked, HookDiff, Program, IdOf, Emit;
    match step {
      case Fire(_, _) =>
      case Plain(LocalApply(m, req)) => StoredShape(c, s, m, req);
      case Plain(Work(m)) => WorkSeen(c, s, m);
      case Plain(_) =>
    }
  }
}

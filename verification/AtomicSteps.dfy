/** The two networks: every step of the coarser one is a series of finer steps in which nothing else comes
    between, so each of its runs is a run of the finer one. */
module AtomicSteps {
  import opened Protocol
  import opened Worlds
  import opened PeerNode
  import opened GossipNet
  import opened Traffic
  import opened HookNet
  import opened FineConvergence
  import P = Peering

  /** A coarse state seen as a fine one: no hook is waiting and no event loop is within an instruction. */
  function Lifted(s: Net): Fine {
    Fine(s, map l | l in s.queues :: [], map n | n in s.nodes :: Idle)
  }

  lemma {:induction false} FromConcat(c: Config, s: Fine, a: seq<FineStep>, b: seq<FineStep>)
    ensures FineFrom(c, s, a + b) == FineFrom(c, FineFrom(c, s, a), b)
  {
    hide FineNext, FineEnabled;
    if b == [] {
      assert a + b == a;
    } else {
      assert (a + b)[..|a + b| - 1] == a + b[..|b| - 1];
      FromConcat(c, s, a, b[..|b| - 1]);
    }
  }

  /** These steps take nothing out of turn. */
  ghost predicate OrderedFrom(c: Config, s: Fine, steps: seq<FineStep>) {
    steps == [] ||
    var init, step := steps[..|steps| - 1], steps[|steps| - 1];
    OrderedFrom(c, s, init) && (FineEnabled(FineFrom(c, s, init), step) ==> Ordered(FineFrom(c, s, init), step))
  }

  lemma {:induction false} OrderedConcat(c: Config, s: Fine, a: seq<FineStep>, b: seq<FineStep>)
    requires OrderedFrom(c, s, a) && OrderedFrom(c, FineFrom(c, s, a), b)
    ensures OrderedFrom(c, s, a + b)
  {
    hide FineNext, FineEnabled, Ordered;
    if b == [] {
      assert a + b == a;
    } else {
      assert (a + b)[..|a + b| - 1] == a + b[..|b| - 1];
      OrderedConcat(c, s, a, b[..|b| - 1]);
      FromConcat(c, s, a, b[..|b| - 1]);
    }
  }

  lemma FromOne(c: Config, s: Fine, step: FineStep)
    requires FineEnabled(s, step)
    ensures FineFrom(c, s, [step]) == FineNext(c, s, step)
    ensures Ordered(s, step) ==> OrderedFrom(c, s, [step])
  {
    hide FineNext, FineEnabled, Ordered;
    assert [step][..0] == [];
  }

  lemma {:induction false} AfterIsFrom(c: Config, steps: seq<FineStep>)
    ensures FineAfter(c, steps) == FineFrom(c, FineInit(c), steps)
    ensures OrderedRun(c, steps) <==> OrderedFrom(c, FineInit(c), steps)
  {
    hide FineNext, FineEnabled, FineInit, Ordered;
    if steps != [] {
      AfterIsFrom(c, steps[..|steps| - 1]);
    }
  }

  /** `b` is reached from `a` by some finer steps, taken in turn. */
  ghost predicate Reaches(c: Config, a: Fine, b: Fine) {
    exists steps :: FineFrom(c, a, steps) == b && OrderedFrom(c, a, steps)
  }

  lemma ReachesOne(c: Config, a: Fine, step: FineStep, b: Fine)
    requires FineEnabled(a, step) && FineNext(c, a, step) == b && Ordered(a, step)
    ensures Reaches(c, a, b)
  {
    FromOne(c, a, step);
  }

  lemma ReachesItself(c: Config, a: Fine)
    ensures Reaches(c, a, a)
  {
    assert FineFrom(c, a, []) == a && OrderedFrom(c, a, []);
  }

  lemma ReachesOnward(c: Config, a: Fine, b: Fine, d: Fine)
    requires Reaches(c, a, b) && Reaches(c, b, d)
    ensures Reaches(c, a, d)
  {
    hide FineFrom, OrderedFrom;
    var x :| FineFrom(c, a, x) == b && OrderedFrom(c, a, x);
    var y :| FineFrom(c, b, y) == d && OrderedFrom(c, b, y);
    FromConcat(c, a, x, y);
    OrderedConcat(c, a, x, y);
  }

  // ---------------------------------------------------------------------------
  // Sending one hook over every link
  // ---------------------------------------------------------------------------

  /** The state with the hook `d` waiting for the links `ls` only, and sent over the others of `n`. */
  ghost function Sending(s: Net, n: NodeId, d: ObjectDiff, ls: set<Link>, busy: map<NodeId, Busy>): Fine {
    Fine(s.(queues := map l | l in s.queues ::
                        if l.src == n && l !in ls then s.queues[l] + [HookEnvelope(d)] else s.queues[l]),
         map l | l in s.queues :: if l in ls then [d] else [], busy)
  }

  lemma FireOne(c: Config, s: Net, n: NodeId, d: ObjectDiff, ls: set<Link>, busy: map<NodeId, Busy>, l: Link)
    requires l in ls && l in s.queues && l.src == n
    ensures Reaches(c, Sending(s, n, d, ls, busy), Sending(s, n, d, ls - {l}, busy))
  {
    hide Sending, FineNext, FineEnabled, Ordered, Reaches;
    var a, b := Sending(s, n, d, ls, busy), Sending(s, n, d, ls - {l}, busy);
    OnlyHook(s, n, d, ls, busy, l);
    FiredOne(c, s, n, d, ls, busy, l);
    ReachesOne(c, a, Fire(l, 0), b);
  }

  lemma OnlyHook(s: Net, n: NodeId, d: ObjectDiff, ls: set<Link>, busy: map<NodeId, Busy>, l: Link)
    requires l in ls && l in s.queues && l.src == n
    ensures FineEnabled(Sending(s, n, d, ls, busy), Fire(l, 0)) && Ordered(Sending(s, n, d, ls, busy), Fire(l, 0))
  {
    hide HookEnvelope;
  }

  lemma FiredOne(c: Config, s: Net, n: NodeId, d: ObjectDiff, ls: set<Link>, busy: map<NodeId, Busy>, l: Link)
    requires l in ls && l in s.queues && l.src == n && FineEnabled(Sending(s, n, d, ls, busy), Fire(l, 0))
    ensures FineNext(c, Sending(s, n, d, ls, busy), Fire(l, 0)) == Sending(s, n, d, ls - {l}, busy)
  {
    hide HookEnvelope;
    var t, b := FineNext(c, Sending(s, n, d, ls, busy), Fire(l, 0)), Sending(s, n, d, ls - {l}, busy);
    assert Without([d], 0) == [];
    assert t.hooks == b.hooks && t.net.queues == b.net.queues;
  }

  lemma {:induction false} FireAll(c: Config, s: Net, n: NodeId, d: ObjectDiff, ls: set<Link>, busy: map<NodeId, Busy>)
    requires forall l :: l in ls ==> l in s.queues && l.src == n
    ensures Reaches(c, Sending(s, n, d, ls, busy), Sending(s, n, d, {}, busy))
    decreases ls
  {
    if ls == {} {
      ReachesItself(c, Sending(s, n, d, {}, busy));
    } else {
      var l :| l in ls;
      FireOne(c, s, n, d, ls, busy, l);
      FireAll(c, s, n, d, ls - {l}, busy);
      ReachesOnward(c, Sending(s, n, d, ls, busy), Sending(s, n, d, ls - {l}, busy), Sending(s, n, d, {}, busy));
    }
  }

  /** Once the hook is out everywhere, the links are as after one broadcast. */
  lemma AllSent(c: Config, s: Net, n: NodeId, d: ObjectDiff, busy: map<NodeId, Busy>)
    requires WellFormed(c) && Shaped(c, s)
    ensures Sending(s, n, d, {}, busy).net == s.(queues := Emit(s.queues, n, [P.Send(HookEnvelope(d), "")]))
    ensures Sending(s, n, d, {}, busy).hooks == map l | l in s.queues :: []
  {
    hide Addressed, HookEnvelope;
    var send := P.Send(HookEnvelope(d), "");
    var queues := Sending(s, n, d, {}, busy).net.queues;
    forall l | l in s.queues
      ensures queues[l] == Emit(s.queues, n, [send])[l]
    {
      AddressedTwo(send, send, l.dst);
    }
    assert queues == Emit(s.queues, n, [send]);
  }

  /** An apply and all of its hook. */
  lemma AppliedAndSent(c: Config, a: Fine, n: NodeId, req: UpdateRequest, busy: map<NodeId, Busy>)
    requires WellFormed(c) && FineShaped(c, a) && n in c.nodes && (forall l :: l in a.hooks ==> a.hooks[l] == [])
    requires Outcome(a.net.nodes[n].objects, req).Applied?
    ensures var node, o := a.net.nodes[n], Outcome(a.net.nodes[n].objects, req).obj;
            var nodes := a.net.nodes[n := node.(objects := ApplyTo(node.objects, req))];
            Reaches(c, Stored(a, n, req).(busy := busy),
                    Fine(Net(nodes, Emit(a.net.queues, n, [P.Send(HookEnvelope(HookDiff(o)), "")])), a.hooks, busy))
  {
    hide ApplyTo, HookDiff, Outcome, Sending, Stored, HookEnvelope, Emit;
    var node, o := a.net.nodes[n], Outcome(a.net.nodes[n].objects, req).obj;
    var s := a.net.(nodes := a.net.nodes[n := node.(objects := ApplyTo(node.objects, req))]);
    var ls := set l | l in c.links && l.src == n;
    StoredIsSending(c, a, n, req, busy, ls);
    FireAll(c, s, n, HookDiff(o), ls, busy);
    AllSent(c, s, n, HookDiff(o), busy);
    assert (map l | l in s.queues :: []) == a.hooks;
    assert Sending(s, n, HookDiff(o), {}, busy).busy == busy by { SendingBusy(s, n, HookDiff(o), busy); }
  }

  lemma SendingBusy(s: Net, n: NodeId, d: ObjectDiff, busy: map<NodeId, Busy>)
    ensures Sending(s, n, d, {}, busy).busy == busy
  {
  }

  lemma StoredIsSending(c: Config, a: Fine, n: NodeId, req: UpdateRequest, busy: map<NodeId, Busy>, ls: set<Link>)
    requires FineShaped(c, a) && n in c.nodes && (forall l :: l in a.hooks ==> a.hooks[l] == [])
    requires Outcome(a.net.nodes[n].objects, req).Applied? && ls == set l | l in c.links && l.src == n
    ensures var node, o := a.net.nodes[n], Outcome(a.net.nodes[n].objects, req).obj;
            var s := a.net.(nodes := a.net.nodes[n := node.(objects := ApplyTo(node.objects, req))]);
            Stored(a, n, req).(busy := busy) == Sending(s, n, HookDiff(o), ls, busy)
  {
    hide ApplyTo, HookDiff, Outcome, HookEnvelope;
    var d := HookDiff(Outcome(a.net.nodes[n].objects, req).obj);
    var s := Stored(a, n, req).net;
    var x, y := Stored(a, n, req), Sending(s, n, d, ls, busy);
    forall l | l in a.hooks
      ensures x.hooks[l] == y.hooks[l] && x.net.queues[l] == y.net.queues[l]
    {
      assert [] + [d] == [d];
    }
    assert x.hooks == y.hooks && x.net.queues == y.net.queues;
  }

  // ---------------------------------------------------------------------------
  // Each coarse step
  // ---------------------------------------------------------------------------

  lemma LiftedShape(c: Config, s: Net)
    requires Shaped(c, s)
    ensures FineShaped(c, Lifted(s))
    ensures forall l | l in s.queues :: Lifted(s).hooks[l] == []
    ensures forall n | n in s.nodes :: Lifted(s).busy[n] == Idle
  {
  }

  /** Two states at rest with the same network are the same. */
  lemma SameLift(s: Net, t: Net)
    requires s.nodes.Keys == t.nodes.Keys && s.queues.Keys == t.queues.Keys
    ensures Lifted(t) == Fine(t, Lifted(s).hooks, Lifted(s).busy)
  {
  }

  lemma HookIsOneSend(objs: Objects, req: UpdateRequest)
    requires Outcome(objs, req).Applied?
    ensures HookAll(ApplyEvents(objs, req)) == [P.Send(HookEnvelope(HookDiff(Outcome(objs, req).obj)), "")]
  {
    HookOf(objs, req);
    var sends := HookAll(ApplyEvents(objs, req));
    assert sends == [sends[0]];
  }

  /** The coarse network after an apply at `n` whose sends are `sends`, with `prog` left to do. */
  function Performed(s: Net, n: NodeId, objs: Objects, prog: seq<Instr>, sends: seq<P.Send>): Net
    requires n in s.nodes
  {
    Net(s.nodes[n := s.nodes[n].(objects := objs, prog := prog)], Emit(s.queues, n, sends))
  }

  lemma RefusedSame(s: Net, n: NodeId, prog: seq<Instr>, req: UpdateRequest)
    requires n in s.nodes && Outcome(s.nodes[n].objects, req).Refused?
    ensures HookAll(ApplyEvents(s.nodes[n].objects, req)) == []
    ensures ApplyTo(s.nodes[n].objects, req) == s.nodes[n].objects
    ensures Performed(s, n, s.nodes[n].objects, prog, []) == s.(nodes := s.nodes[n := s.nodes[n].(prog := prog)])
  {
    EmitNothing(s.queues, n);
  }

  /** An apply at a node at rest, and its hook, from any state of the program and of the event loop. */
  lemma ApplyReached(c: Config, s: Net, n: NodeId, req: UpdateRequest, b: Busy, b': Busy)
    requires WellFormed(c) && Shaped(c, s) && n in c.nodes && Outcome(s.nodes[n].objects, req).Applied?
    ensures var t := Lifted(s).(busy := Lifted(s).busy[n := b']);
            var objs := ApplyTo(s.nodes[n].objects, req);
            Reaches(c, Stored(Lifted(s).(busy := Lifted(s).busy[n := b]), n, req).(busy := t.busy),
                    t.(net := Performed(s, n, objs, s.nodes[n].prog, HookAll(ApplyEvents(s.nodes[n].objects, req)))))
  {
    hide ApplyTo, HookDiff, Emit, Stored, Reaches, ApplyEvents, HookAll, Outcome, HookEnvelope;
    LiftedShape(c, s);
    HookIsOneSend(s.nodes[n].objects, req);
    AppliedAndSent(c, Lifted(s).(busy := Lifted(s).busy[n := b]), n, req, Lifted(s).busy[n := b']);
  }

  lemma LocalApplyReached(c: Config, s: Net, n: NodeId, req: UpdateRequest)
    requires WellFormed(c) && Shaped(c, s) && n in s.nodes
    ensures Reaches(c, Lifted(s), Lifted(Next(c, s, LocalApply(n, req))))
  {
    hide ApplyTo, HookDiff, Emit, Stored, Reaches, ApplyEvents, HookAll;
    var a, b, lab := Lifted(s), Next(c, s, LocalApply(n, req)), Plain(LocalApply(n, req));
    LiftedShape(c, s);
    NextKeys(c, s, LocalApply(n, req));
    SameLift(s, b);
    assert a.busy[n := Idle] == a.busy && a.(busy := a.busy) == a;
    StoredKeepsBusy(a, n, req);
    ReachesOne(c, a, lab, Stored(a, n, req));
    assert b == Performed(s, n, ApplyTo(s.nodes[n].objects, req), s.nodes[n].prog,
                          HookAll(ApplyEvents(s.nodes[n].objects, req)));
    if Outcome(s.nodes[n].objects, req).Applied? {
      ApplyReached(c, s, n, req, Idle, Idle);
      ReachesOnward(c, a, Stored(a, n, req), Lifted(b));
    } else {
      RefusedSame(s, n, s.nodes[n].prog, req);
      assert s.nodes[n := s.nodes[n]] == s.nodes;
      StoredRefused(a, n, req);
    }
  }

  lemma StoredRefused(a: Fine, n: NodeId, req: UpdateRequest)
    requires n in a.net.nodes && Outcome(a.net.nodes[n].objects, req).Refused?
    ensures Stored(a, n, req) == a
  {
  }

  lemma StoredKeepsBusy(a: Fine, n: NodeId, req: UpdateRequest)
    requires n in a.net.nodes
    ensures Stored(a, n, req).busy == a.busy && Stored(a, n, req).(busy := a.busy) == Stored(a, n, req)
  {
  }

  /** With its hook out, the event loop sends what is onward and is at rest. */
  lemma HookFinished(c: Config, s: Net, n: NodeId, x: string, v: nat, onward: seq<P.Send>)
    requires Shaped(c, s) && n in c.nodes
    ensures var a := Lifted(s);
            Reaches(c, a.(busy := a.busy[n := Hooking(x, v, onward)]), Lifted(s.(queues := Emit(s.queues, n, onward))))
  {
    hide Emit, Reaches;
    var a, t := Lifted(s), Lifted(s).(busy := Lifted(s).busy[n := Hooking(x, v, onward)]);
    var s' := s.(queues := Emit(s.queues, n, onward));
    EmitKeys(s.queues, n, onward);
    SameLift(s, s');
    assert t.busy[n := Idle] == a.busy;
    ReachesOne(c, t, Plain(Work(n)), Lifted(s'));
  }

  lemma EmitKeys(queues: map<Link, seq<Envelope>>, n: NodeId, sends: seq<P.Send>)
    ensures Emit(queues, n, sends).Keys == queues.Keys
  {
  }

  /** The network with a node's first instruction left behind. */
  function Behind(s: Net, n: NodeId): Net
    requires n in s.nodes && s.nodes[n].prog != []
  {
    s.(nodes := s.nodes[n := s.nodes[n].(prog := s.nodes[n].prog[1..])])
  }

  lemma BehindIsPopped(c: Config, s: Net, n: NodeId)
    requires Shaped(c, s) && n in c.nodes && s.nodes[n].prog != []
    ensures Popped(Lifted(s), n) == Lifted(Behind(s, n)) && Shaped(c, Behind(s, n))
    ensures var e := Exec(s.nodes[n].objects, c.tags(n), s.nodes[n].prog[0]);
            Next(c, s, Work(n)) == Performed(Behind(s, n), n, e.objects, s.nodes[n].prog[1..], e.sends)
  {
    hide Exec, Emit;
  }

  lemma UpdateReached(c: Config, s: Net, n: NodeId, req: UpdateRequest)
    requires WellFormed(c) && Shaped(c, s) && n in c.nodes && s.nodes[n].prog != []
    requires s.nodes[n].prog[0] == ApplyUpdate(req)
    ensures Reaches(c, Lifted(s), Lifted(Next(c, s, Work(n))))
  {
    hide ApplyTo, HookDiff, Emit, Stored, Reaches, ApplyEvents, HookAll, Popped, Behind;
    var a, s1, objs := Lifted(s), Behind(s, n), s.nodes[n].objects;
    BehindIsPopped(c, s, n);
    BehindKeeps(s, n);
    UpdateStep(c, s, n, req);
    if Outcome(objs, req).Applied? {
      var b' := Hooking(req.objectId, Version(objs, req.objectId) + 1, []);
      var mid := Performed(s1, n, ApplyTo(objs, req), s1.nodes[n].prog, HookAll(ApplyEvents(objs, req)));
      ApplyReached(c, s1, n, req, Idle, b');
      IdleAgain(Lifted(s1), n);
      ReachesOnward(c, a, Worked(c, a, n), Lifted(s1).(busy := Lifted(s1).busy[n := b'], net := mid));
      PerformedShape(c, s1, n, ApplyTo(objs, req), s1.nodes[n].prog, HookAll(ApplyEvents(objs, req)));
      SameLift(s1, mid);
      HookFinished(c, mid, n, req.objectId, Version(objs, req.objectId) + 1, []);
      EmitNothing(mid.queues, n);
      ReachesOnward(c, a, Lifted(mid).(busy := Lifted(mid).busy[n := b']), Lifted(mid));
    } else {
      RefusedSame(s1, n, s1.nodes[n].prog, req);
      BehindTwice(s, n);
    }
  }

  lemma IdleAgain(a: Fine, n: NodeId)
    requires n in a.busy && a.busy[n] == Idle
    ensures a.(busy := a.busy[n := Idle]) == a
  {
    assert a.busy[n := Idle] == a.busy;
  }

  lemma BehindKeeps(s: Net, n: NodeId)
    requires n in s.nodes && s.nodes[n].prog != []
    ensures Behind(s, n).nodes.Keys == s.nodes.Keys && Behind(s, n).queues == s.queues
    ensures Behind(s, n).nodes[n].objects == s.nodes[n].objects && Behind(s, n).nodes[n].prog == s.nodes[n].prog[1..]
  {
  }

  lemma BehindTwice(s: Net, n: NodeId)
    requires n in s.nodes && s.nodes[n].prog != []
    ensures var s1 := Behind(s, n); s1.nodes[n := s1.nodes[n].(prog := s1.nodes[n].prog)] == s1.nodes
  {
  }

  lemma PerformedShape(c: Config, s: Net, n: NodeId, objs: Objects, prog: seq<Instr>, sends: seq<P.Send>)
    requires Shaped(c, s) && n in c.nodes
    ensures Shaped(c, Performed(s, n, objs, prog, sends))
  {
  }

  /** The first fine step of an update instruction. */
  lemma UpdateStep(c: Config, s: Net, n: NodeId, req: UpdateRequest)
    requires Shaped(c, s) && n in c.nodes && s.nodes[n].prog != [] && s.nodes[n].prog[0] == ApplyUpdate(req)
    ensures var a, s1, objs := Lifted(s), Behind(s, n), s.nodes[n].objects;
            var b' := Hooking(req.objectId, Version(objs, req.objectId) + 1, []);
            && (Outcome(objs, req).Applied? ==>
                 Worked(c, a, n) == Stored(Lifted(s1), n, req).(busy := Lifted(s1).busy[n := b']))
            && (Outcome(objs, req).Refused? ==> Worked(c, a, n) == Lifted(s1))
    ensures Reaches(c, Lifted(s), Worked(c, Lifted(s), n))
  {
    hide Stored, Popped, Behind;
    BehindIsPopped(c, s, n);
    BehindKeeps(s, n);
    var a, s1 := Lifted(s), Behind(s, n);
    StoredKeepsBusy(Lifted(s1), n, req);
    if Outcome(s.nodes[n].objects, req).Refused? { StoredRefused(Lifted(s1), n, req); }
    ReachesOne(c, a, Plain(Work(n)), Worked(c, a, n));
  }

  /** The first two fine steps of a diff that is news: looked up, then applied. */
  lemma ConsiderSteps(c: Config, s: Net, n: NodeId, d: ObjectDiff, requestId: string, from: NodeId)
    requires Shaped(c, s) && n in c.nodes && s.nodes[n].prog != [] && s.nodes[n].prog[0] == Consider(d, requestId, from)
    requires !(d.objectId in s.nodes[n].objects && s.nodes[n].objects[d.objectId].version >= d.version)
    ensures var s1, b := Behind(s, n), Adopting(d, requestId, from);
            var b' := Hooking(d.objectId, Version(s.nodes[n].objects, d.objectId) + 1,
                              [P.Send(Encode(requestId, WorldUpdate([d])), from)]);
            var t := Stored(Lifted(s1).(busy := Lifted(s1).busy[n := b]), n, RequestFor(d, c.tags(n)));
            Reaches(c, Lifted(s), t.(busy := Lifted(s1).busy[n := b']))
  {
    hide Stored, Popped, Behind, Reaches;
    BehindIsPopped(c, s, n);
    BehindKeeps(s, n);
    var s1, b := Behind(s, n), Adopting(d, requestId, from);
    var t := Lifted(s1).(busy := Lifted(s1).busy[n := b]);
    ReachesOne(c, Lifted(s), Plain(Work(n)), t);
    StoredKeepsBusy(t, n, RequestFor(d, c.tags(n)));
    var b' := Hooking(d.objectId, Version(s.nodes[n].objects, d.objectId) + 1,
                      [P.Send(Encode(requestId, WorldUpdate([d])), from)]);
    assert t.busy[n := b'] == Lifted(s1).busy[n := b'];
    ReachesOne(c, t, Plain(Work(n)), Worked(c, t, n));
    ReachesOnward(c, Lifted(s), t, Worked(c, t, n));
  }

  lemma NewsReached(c: Config, s: Net, n: NodeId, d: ObjectDiff, requestId: string, from: NodeId)
    requires WellFormed(c) && Shaped(c, s) && n in c.nodes && s.nodes[n].prog != []
    requires s.nodes[n].prog[0] == Consider(d, requestId, from)
    requires !(d.objectId in s.nodes[n].objects && s.nodes[n].objects[d.objectId].version >= d.version)
    ensures Reaches(c, Lifted(s), Lifted(Next(c, s, Work(n))))
  {
    hide ApplyTo, HookDiff, Emit, Stored, Reaches, ApplyEvents, HookAll, Popped, Behind, Next, Exec, Encode;
    var s1, objs, req, b := Behind(s, n), s.nodes[n].objects, RequestFor(d, c.tags(n)), Adopting(d, requestId, from);
    var fwd := [P.Send(Encode(requestId, WorldUpdate([d])), from)];
    var v, hook := Version(objs, d.objectId) + 1, HookAll(ApplyEvents(objs, req));
    BehindIsPopped(c, s, n);
    BehindKeeps(s, n);
    ConsiderSteps(c, s, n, d, requestId, from);
    ApplyReached(c, s1, n, req, b, Hooking(d.objectId, v, fwd));
    var mid := Performed(s1, n, ApplyTo(objs, req), s1.nodes[n].prog, hook);
    PerformedShape(c, s1, n, ApplyTo(objs, req), s1.nodes[n].prog, hook);
    SameLift(s1, mid);
    var t := Stored(Lifted(s1).(busy := Lifted(s1).busy[n := b]), n,
                    req).(busy := Lifted(s1).busy[n := Hooking(d.objectId, v, fwd)]);
    ReachesOnward(c, Lifted(s), t, Lifted(mid).(busy := Lifted(mid).busy[n := Hooking(d.objectId, v, fwd)]));
    HookFinished(c, mid, n, d.objectId, v, fwd);
    ReachesOnward(c, Lifted(s), Lifted(mid).(busy := Lifted(mid).busy[n := Hooking(d.objectId, v, fwd)]),
                  Lifted(mid.(queues := Emit(mid.queues, n, fwd))));
    EmitConcat(s1.queues, n, hook, fwd);
    ConsiderEffect(objs, c.tags(n), d, requestId, from);
  }

  lemma WorkReached(c: Config, s: Net, n: NodeId)
    requires WellFormed(c) && Shaped(c, s) && Enabled(s, Work(n))
    ensures Reaches(c, Lifted(s), Lifted(Next(c, s, Work(n))))
  {
    hide ApplyTo, HookDiff, Emit, Stored, Reaches, Popped, Behind, Next;
    var a, b := Lifted(s), Next(c, s, Work(n));
    BehindIsPopped(c, s, n);
    BehindKeeps(s, n);
    match s.nodes[n].prog[0] {
      case ApplyUpdate(req) => UpdateReached(c, s, n, req);
      case Consider(d, requestId, from) =>
        if d.objectId in s.nodes[n].objects && s.nodes[n].objects[d.objectId].version >= d.version {
          QuietPerformed(s, n);
          ReachesOne(c, a, Plain(Work(n)), Lifted(b));
        } else {
          NewsReached(c, s, n, d, requestId, from);
        }
      case Relay(env, from) =>
        var sends := [P.Send(Encode(env.requestId, env.body), from)];
        RelayPerformed(s, n, sends);
        EmitKeys(s.queues, n, sends);
        SameLift(s, b);
        SameLift(s, Behind(s, n));
        ReachesOne(c, a, Plain(Work(n)), Lifted(b));
    }
  }

  lemma QuietPerformed(s: Net, n: NodeId)
    requires n in s.nodes && s.nodes[n].prog != []
    ensures Performed(Behind(s, n), n, s.nodes[n].objects, s.nodes[n].prog[1..], []) == Behind(s, n)
  {
    EmitNothing(s.queues, n);
    BehindTwice(s, n);
  }

  lemma RelayPerformed(s: Net, n: NodeId, sends: seq<P.Send>)
    requires n in s.nodes && s.nodes[n].prog != []
    ensures Performed(Behind(s, n), n, s.nodes[n].objects, s.nodes[n].prog[1..], sends)
              == Behind(s, n).(queues := Emit(s.queues, n, sends))
  {
    BehindTwice(s, n);
  }

  lemma OtherIsPlain(c: Config, s: Net, lab: Label)
    requires Shaped(c, s) && Enabled(s, lab) && !Acts(lab)
    ensures FineEnabled(Lifted(s), Plain(lab)) && FineNext(c, Lifted(s), Plain(lab)) == Lifted(Next(c, s, lab))
  {
    hide Next;
    NextKeys(c, s, lab);
    LiftedShape(c, s);
    SameLift(s, Next(c, s, lab));
  }

  /** Every coarse step over links that lose nothing and keep order is a series of finer ones that do so too,
      of hooks as well. */
  lemma StepReached(c: Config, s: Net, lab: Label)
    requires WellFormed(c) && Shaped(c, s) && Enabled(s, lab) && (Acts(lab) || Lossless(lab))
    ensures Reaches(c, Lifted(s), Lifted(Next(c, s, lab)))
  {
    if lab.LocalApply? {
      LocalApplyReached(c, s, lab.n, lab.req);
    } else if lab.Work? {
      WorkReached(c, s, lab.n);
    } else {
      hide Next, Reaches, Lifted;
      OtherIsPlain(c, s, lab);
      ReachesOne(c, Lifted(s), Plain(lab), Lifted(Next(c, s, lab)));
    }
  }

  /** Every run of the coarser network is a run of the finer one, lossless and in turn if it is lossless. */
  lemma {:induction false} CoarseRunsAreFineRuns(c: Config, run: seq<Label>) returns (steps: seq<FineStep>)
    requires WellFormed(c)
    ensures FineAfter(c, steps) == Lifted(NetAfter(c, run))
    ensures AllLossless(run) ==> OrderedRun(c, steps)
  {
    hide FineAfter, FineFrom, OrderedFrom, OrderedRun, Next, Lifted, Enabled, Reaches, FineInit, Lossless;
    if run == [] {
      steps := [];
      NothingRun(c);
    } else {
      var init, s, lab := run[..|run| - 1], NetAfter(c, run[..|run| - 1]), run[|run| - 1];
      steps := CoarseRunsAreFineRuns(c, init);
      if Enabled(s, lab) {
        var more := StepSteps(c, s, lab);
        AfterIsFrom(c, steps);
        AfterIsFrom(c, steps + more);
        FromConcat(c, FineInit(c), steps, more);
        if AllLossless(run) {
          assert AllLossless(init) && Lossless(lab);
          OrderedConcat(c, FineInit(c), steps, more);
        }
        steps := steps + more;
      }
    }
  }

  lemma NothingRun(c: Config)
    ensures FineAfter(c, []) == Lifted(NetAfter(c, [])) && OrderedRun(c, [])
  {
  }

  lemma StepSteps(c: Config, s: Net, lab: Label) returns (steps: seq<FineStep>)
    requires WellFormed(c) && Shaped(c, s) && Enabled(s, lab)
    ensures FineFrom(c, Lifted(s), steps) == Lifted(Next(c, s, lab))
    ensures Lossless(lab) ==> OrderedFrom(c, Lifted(s), steps)
  {
    hide FineFrom, OrderedFrom, Next, Lifted, Enabled;
    if Acts(lab) || Lossless(lab) {
      StepReached(c, s, lab);
      steps :| FineFrom(c, Lifted(s), steps) == Lifted(Next(c, s, lab)) && OrderedFrom(c, Lifted(s), steps);
    } else {
      OtherIsPlain(c, s, lab);
      FromOne(c, Lifted(s), Plain(lab));
      steps := [Plain(lab)];
    }
  }
}

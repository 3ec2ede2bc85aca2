/** Version convergence in the finer steps: what may happen to a link without harm, when hooks that
    overtake each other are harmless, and what becomes of versions when they are. */
module HookConvergence {
  import opened Base
  import opened Protocol
  import opened Worlds
  import opened PeerNode
  import opened GossipNet
  import opened Traffic
  import opened Reaching
  import opened HookNet
  import opened FineTraffic
  import P = Peering

  // ---------------------------------------------------------------------------
  // One link and one object
  // ---------------------------------------------------------------------------

  predicate Pending(hooks: seq<ObjectDiff>, x: string, version: nat) {
    exists i :: 0 <= i < |hooks| && IsHookOf(hooks[i], x, version)
  }

  /** The receiver is at `v`, the sender at `w`, `ds` are the diffs under way to the receiver: they
      carry no gap, and each version the receiver will still lack waits in a hook. */
  ghost predicate Served(v: nat, w: nat, ds: seq<ObjectDiff>, hooks: seq<ObjectDiff>, x: string) {
    && NoGap(v, ds, x)
    && (forall u: nat :: Reach(v, ds, x) < u <= w ==> Pending(hooks, x, u))
    && (forall i :: 0 <= i < |hooks| && hooks[i].objectId == x ==> 1 <= hooks[i].version <= w)
  }

  lemma {:induction false} ReachBounds(v: nat, ds: seq<ObjectDiff>, x: string, i: nat)
    requires NoGap(v, ds, x) && i < |ds| && ds[i].objectId == x
    ensures 1 <= ds[i].version <= Reach(v, ds, x)
    decreases ds
  {
    var v' := Raise(v, ds[0], x);
    ReachMonotone(v', v', ds[1..], x);
    if i > 0 { ReachBounds(v', ds[1..], x, i - 1); }
  }

  lemma ReceiverRises(v: nat, w: nat, ds: seq<ObjectDiff>, hooks: seq<ObjectDiff>, x: string, v': nat)
    requires Served(v, w, ds, hooks, x) && v <= v'
    ensures Served(v', w, ds, hooks, x)
  {
    ReachMonotone(v, v', ds, x);
  }

  /** The receiver deals with the first diff on the link. */
  lemma HeadIsTaken(v: nat, w: nat, d: ObjectDiff, ds: seq<ObjectDiff>, hooks: seq<ObjectDiff>, x: string, v': nat)
    requires Served(v, w, [d] + ds, hooks, x) && Raise(v, d, x) <= v'
    ensures Served(v', w, ds, hooks, x)
  {
    ReachConcat(v, [d], ds, x);
    ReachOne(v, d, x);
    ReceiverRises(Raise(v, d, x), w, ds, hooks, x, v');
  }

  /** The sender stores its next version, or another object's. */
  lemma SenderRises(v: nat, w: nat, ds: seq<ObjectDiff>, hooks: seq<ObjectDiff>, x: string, h: ObjectDiff)
    requires Served(v, w, ds, hooks, x) && (h.objectId == x ==> h.version == w + 1)
    ensures Served(v, if h.objectId == x then w + 1 else w, ds, hooks + [h], x)
  {
    var all := hooks + [h];
    forall u: nat | Reach(v, ds, x) < u <= if h.objectId == x then w + 1 else w
      ensures Pending(all, x, u)
    {
      if u <= w {
        assert Pending(hooks, x, u);
        var i :| 0 <= i < |hooks| && IsHookOf(hooks[i], x, u);
        assert IsHookOf(all[i], x, u);
      } else {
        assert IsHookOf(all[|hooks|], x, u);
      }
    }
  }

  /** Diffs the receiver will have reached anyway may be added to the link. */
  lemma {:induction false} OldIsAdded(v: nat, w: nat, ds: seq<ObjectDiff>, hooks: seq<ObjectDiff>, x: string,
                                      more: seq<ObjectDiff>)
    requires Served(v, w, ds, hooks, x)
    requires forall i :: 0 <= i < |more| && more[i].objectId == x ==> 1 <= more[i].version <= Reach(v, ds, x)
    ensures Served(v, w, ds + more, hooks, x)
  {
    ReachConcat(v, ds, more, x);
    ReachCovered(Reach(v, ds, x), more, x);
    OldHasNoGap(Reach(v, ds, x), more, x);
  }

  lemma {:induction false} OldHasNoGap(v: nat, ds: seq<ObjectDiff>, x: string)
    requires forall i :: 0 <= i < |ds| && ds[i].objectId == x ==> 1 <= ds[i].version <= v
    ensures NoGap(v, ds, x)
    decreases ds
  {
    if ds != [] { OldHasNoGap(v, ds[1..], x); }
  }

  /** Diffs the receiver has may be skipped. */
  lemma OldIsSkipped(v: nat, w: nat, skipped: seq<ObjectDiff>, ds: seq<ObjectDiff>, hooks: seq<ObjectDiff>, x: string)
    requires Served(v, w, skipped + ds, hooks, x)
    requires forall i :: 0 <= i < |skipped| && skipped[i].objectId == x ==> skipped[i].version <= v
    ensures Served(v, w, ds, hooks, x)
  {
    ReachConcat(v, skipped, ds, x);
    ReachCovered(v, skipped, x);
  }

  /** Sending a pending hook keeps the link in order exactly when its version is no more than one
      ahead of what the receiver will have reached. */
  lemma HookIsSent(v: nat, w: nat, ds: seq<ObjectDiff>, hooks: seq<ObjectDiff>, x: string, i: nat)
    requires Served(v, w, ds, hooks, x) && i < |hooks|
    ensures Served(v, w, ds + [hooks[i]], Without(hooks, i), x)
       <==> (hooks[i].objectId == x ==> hooks[i].version <= Reach(v, ds, x) + 1)
  {
    var h, rest := hooks[i], Without(hooks, i);
    ReachConcat(v, ds, [h], x);
    ReachOne(Reach(v, ds, x), h, x);
    forall u: nat | Reach(v, ds, x) < u <= w && !IsHookOf(h, x, u)
      ensures Pending(rest, x, u)
    {
      assert Pending(hooks, x, u);
      var j :| 0 <= j < |hooks| && IsHookOf(hooks[j], x, u);
      assert IsHookOf(rest[if j < i then j else j - 1], x, u);
    }
    assert forall j :: 0 <= j < |rest| ==> rest[j] == hooks[if j < i then j else j + 1];
  }

  /** The lowest pending version is never more than one ahead. */
  lemma LowestIsInTurn(v: nat, w: nat, ds: seq<ObjectDiff>, hooks: seq<ObjectDiff>, x: string, i: nat)
    requires Served(v, w, ds, hooks, x) && i < |hooks| && hooks[i].objectId == x
    requires forall j :: 0 <= j < |hooks| && hooks[j].objectId == x ==> hooks[i].version <= hooks[j].version
    ensures hooks[i].version <= Reach(v, ds, x) + 1
  {
    var u := Reach(v, ds, x) + 1;
    assert u <= w ==> Pending(hooks, x, u);
  }

  // ---------------------------------------------------------------------------
  // The network
  // ---------------------------------------------------------------------------

  ghost predicate LinkFine(c: Config, s: Fine, l: Link, x: string)
    requires WellFormed(c) && FineShaped(c, s) && l in c.links
  {
    Served(At(s, l.dst, x), At(s, l.src, x), Ahead(s, l), s.hooks[l], x)
  }

  /** What is forwarded after a hook carries no version above the hook's. */
  predicate Forwards(send: P.Send, x: string, version: nat) {
    && CleanEnv(send.env) && send.env.body.WorldUpdate? && |send.env.body.objects| == 1
    && send.env.body.objects[0].objectId == x && 1 <= send.env.body.objects[0].version <= version
  }

  predicate BusyFine(c: Config, s: Fine, n: NodeId)
    requires n in s.net.nodes && n in s.busy
  {
    match s.busy[n]
    case Idle => true
    case Adopting(_, requestId, from) => Link(from, n) in c.links && requestId == ""
    case Hooking(x, v, onward) => v <= At(s, n, x) && (onward == [] || (|onward| == 1 && Forwards(onward[0], x, v)))
  }

  /** A diff has been applied, or is about to be. */
  ghost predicate Accounted(n: NodeState, b: Busy, d: ObjectDiff) {
    d.version <= Version(n.objects, d.objectId) || InHand(n, d) || (b.Adopting? && b.diff == d)
  }

  ghost predicate SeenFine(s: Fine, n: NodeId)
    requires n in s.net.nodes && n in s.busy
  {
    forall id: MessageId, i | id in s.net.nodes[n].seen && id.ByContent? && id.body.WorldUpdate?
      && 0 <= i < |id.body.objects| ::
      Accounted(s.net.nodes[n], s.busy[n], id.body.objects[i])
  }

  ghost predicate NodesFine(c: Config, s: Fine) {
    && WellFormed(c) && FineShaped(c, s) && Sound(c, s.net) && Clean(s.net)
    && (forall n :: n in c.nodes ==> BusyFine(c, s, n) && SeenFine(s, n))
  }

  ghost predicate FineInv(c: Config, s: Fine) {
    NodesFine(c, s) && forall l, x :: l in c.links ==> LinkFine(c, s, l, x)
  }

  // ---------------------------------------------------------------------------
  // What each step does to a link
  // ---------------------------------------------------------------------------

  lemma StoredLink(c: Config, s: Fine, n: NodeId, req: UpdateRequest, l: Link, x: string)
    requires WellFormed(c) && FineShaped(c, s) && n in c.nodes && l in c.links && LinkFine(c, s, l, x)
    ensures LinkFine(c, Stored(s, n, req), l, x)
  {
    hide Served, ProgDiffs, QueueDiffs;
    StoredShape(c, s, n, req);
    var t := Stored(s, n, req);
    assert Ahead(t, l) == Ahead(s, l);
    if Outcome(s.net.nodes[n].objects, req).Applied? {
      if l.dst == n {
        ReceiverRises(At(s, n, x), At(s, l.src, x), Ahead(s, l), s.hooks[l], x, At(t, n, x));
      } else if l.src == n {
        SenderRises(At(s, l.dst, x), At(s, n, x), Ahead(s, l), s.hooks[l], x,
                    HookDiff(Outcome(s.net.nodes[n].objects, req).obj));
      }
    }
  }

  /** Sends whose diffs are no news leave a link in order. */
  lemma EmitLink(c: Config, s: Fine, t: Fine, l: Link, x: string, more: seq<Envelope>)
    requires WellFormed(c) && FineShaped(c, s) && FineShaped(c, t) && l in c.links && LinkFine(c, s, l, x)
    requires t.net.queues[l] == s.net.queues[l] + more && t.hooks[l] == s.hooks[l]
    requires At(t, l.src, x) == At(s, l.src, x) && At(t, l.dst, x) == At(s, l.dst, x)
    requires t.net.nodes[l.dst].prog == s.net.nodes[l.dst].prog
    requires t.busy[l.dst].Adopting? == s.busy[l.dst].Adopting?
    requires s.busy[l.dst].Adopting? ==> t.busy[l.dst] == s.busy[l.dst]
    requires forall d :: d in QueueDiffs(more) && d.objectId == x ==>
               1 <= d.version <= Reach(At(s, l.dst, x), Ahead(s, l), x)
    ensures LinkFine(c, t, l, x)
  {
    hide Served, ProgDiffs, QueueDiffs, Reach;
    QueueDiffsConcat(s.net.queues[l], more);
    assert Ahead(t, l) == Ahead(s, l) + QueueDiffs(more);
    OldIsAdded(At(s, l.dst, x), At(s, l.src, x), Ahead(s, l), s.hooks[l], x, QueueDiffs(more));
  }

  /** The event loop leaves its program's head behind. */
  lemma PoppedLink(c: Config, s: Fine, n: NodeId, l: Link, x: string)
    requires NodesFine(c, s) && n in c.nodes && s.net.nodes[n].prog != [] && s.busy[n] == Idle
    requires l in c.links && LinkFine(c, s, l, x)
    requires var instr := s.net.nodes[n].prog[0];
             instr.Consider? ==> instr.diff.version <= At(s, n, instr.diff.objectId)
    ensures LinkFine(c, Popped(s, n), l, x)
  {
    hide Served, QueueDiffs;
    var t, prog := Popped(s, n), s.net.nodes[n].prog;
    if l.dst == n && prog[0].Consider? && prog[0].from == l.src {
      assert Ahead(s, l) == [prog[0].diff] + Ahead(t, l);
      HeadIsTaken(At(s, n, x), At(s, l.src, x), prog[0].diff, Ahead(t, l), s.hooks[l], x, At(s, n, x));
    } else {
      assert Ahead(t, l) == Ahead(s, l);
    }
  }

  lemma AdoptingLink(c: Config, s: Fine, n: NodeId, l: Link, x: string)
    requires NodesFine(c, s) && n in c.nodes && s.net.nodes[n].prog != [] && s.busy[n] == Idle
    requires s.net.nodes[n].prog[0].Consider?
    requires l in c.links && LinkFine(c, s, l, x)
    requires var instr := s.net.nodes[n].prog[0];
             Worked(c, s, n) == Popped(s, n).(busy := s.busy[n := Adopting(instr.diff, instr.requestId, instr.from)])
    ensures LinkFine(c, Worked(c, s, n), l, x)
  {
    hide Served, QueueDiffs, Worked;
    assert Ahead(Worked(c, s, n), l) == Ahead(s, l);
  }

  lemma AdoptedLink(c: Config, s: Fine, n: NodeId, l: Link, x: string)
    requires FineInv(c, s) && n in c.nodes && s.busy[n].Adopting?
    requires l in c.links
    ensures LinkFine(c, Worked(c, s, n), l, x)
  {
    hide Served, QueueDiffs, ProgDiffs, Stored;
    var d, req := s.busy[n].diff, RequestFor(s.busy[n].diff, c.tags(n));
    var t, t' := Stored(s, n, req), Worked(c, s, n);
    StoredShape(c, s, n, req);
    StoredLink(c, s, n, req, l, x);
    if l.dst == n && s.busy[n].from == l.src {
      assert Ahead(t, l) == [d] + Ahead(t', l);
      assert d.version <= At(t, n, d.objectId) by { AdoptedIsInTurn(c, s, n); }
      HeadIsTaken(At(t, n, x), At(t, l.src, x), d, Ahead(t', l), t.hooks[l], x, At(t, n, x));
    } else {
      assert Ahead(t', l) == Ahead(t, l);
    }
  }

  lemma AdoptedIsInTurn(c: Config, s: Fine, n: NodeId)
    requires FineInv(c, s) && n in c.nodes && s.busy[n].Adopting?
    ensures 1 <= s.busy[n].diff.version <= At(s, n, s.busy[n].diff.objectId) + 1
  {
    hide LinkDiffs;
    var l := Link(s.busy[n].from, n);
    assert BusyFine(c, s, n);
    assert LinkFine(c, s, l, s.busy[n].diff.objectId);
    assert Ahead(s, l)[0] == s.busy[n].diff;
  }

  /** After its hook has gone out, a forwarded diff is no news on any link. */
  lemma HookedLink(c: Config, s: Fine, n: NodeId, l: Link, x: string)
    requires FineInv(c, s) && n in c.nodes && s.busy[n].Hooking? && Posted(s, n, s.busy[n].objectId, s.busy[n].version)
    requires l in c.links
    ensures LinkFine(c, Worked(c, s, n), l, x)
  {
    hide Served, QueueDiffs, ProgDiffs, Reach, LinkDiffs;
    assert BusyFine(c, s, n);
    assert LinkFine(c, s, l, x);
    var b, t := s.busy[n], Worked(c, s, n);
    if l.src == n {
      var more := Addressed(b.onward, l.dst);
      OnwardDiffs(b, l.dst);
      if x == b.objectId {
        PostedIsReached(At(s, l.dst, x), At(s, n, x), Ahead(s, l), s.hooks[l], x, b.version);
      }
      EmitLink(c, s, t, l, x, more);
    } else {
      assert t.net.queues[l] == s.net.queues[l];
      NoDiffs();
      EmitLink(c, s, t, l, x, []);
    }
  }

  lemma NoDiffs()
    ensures QueueDiffs([]) == []
  {
  }

  lemma PostedIsReached(v: nat, w: nat, ds: seq<ObjectDiff>, hooks: seq<ObjectDiff>, x: string, version: nat)
    requires Served(v, w, ds, hooks, x) && version <= w
    requires forall i :: 0 <= i < |hooks| ==> !IsHookOf(hooks[i], x, version)
    ensures version <= Reach(v, ds, x)
  {
    assert !Pending(hooks, x, version);
  }

  lemma OnwardDiffs(b: Busy, dst: NodeId)
    requires b.Hooking? && (b.onward == [] || (|b.onward| == 1 && Forwards(b.onward[0], b.objectId, b.version)))
    ensures forall d :: d in QueueDiffs(Addressed(b.onward, dst)) ==>
              d.objectId == b.objectId && 1 <= d.version <= b.version
  {
    if b.onward != [] {
      assert b.onward == [b.onward[0]];
      AddressedTwo(b.onward[0], b.onward[0], dst);
      QueueDiffsTwo(b.onward[0].env, b.onward[0].env);
    }
  }

  // ---------------------------------------------------------------------------
  // What each step does to the nodes
  // ---------------------------------------------------------------------------

  /** A node whose store has not gone back keeps its accounts when it keeps its diffs in hand. */
  lemma SeenStays(s: Fine, t: Fine, n: NodeId)
    requires n in s.net.nodes && n in s.busy && n in t.net.nodes && n in t.busy && SeenFine(s, n)
    requires t.net.nodes[n].seen <= s.net.nodes[n].seen
    requires forall d: ObjectDiff :: Accounted(s.net.nodes[n], s.busy[n], d) ==> Accounted(t.net.nodes[n], t.busy[n], d)
    ensures SeenFine(t, n)
  {
    hide Accounted;
  }

  lemma StoredNodes(c: Config, s: Fine, n: NodeId, req: UpdateRequest)
    requires NodesFine(c, s) && n in c.nodes
    ensures NodesFine(c, Stored(s, n, req))
  {
    hide CleanEnv, CleanInstr, Sourced, Forwards, SeenFine;
    var t := Stored(s, n, req);
    StoredShape(c, s, n, req);
    forall m | m in c.nodes
      ensures BusyFine(c, t, m) && SeenFine(t, m)
    {
      assert BusyFine(c, s, m) && SeenFine(s, m);
      forall d: ObjectDiff | Accounted(s.net.nodes[m], s.busy[m], d)
        ensures Accounted(t.net.nodes[m], t.busy[m], d)
      {
        assert At(t, m, d.objectId) >= At(s, m, d.objectId);
      }
      SeenStays(s, t, m);
    }
  }

  lemma PoppedNodes(c: Config, s: Fine, n: NodeId, b: Busy)
    requires NodesFine(c, s) && n in c.nodes && s.net.nodes[n].prog != [] && s.busy[n] == Idle
    requires var instr := s.net.nodes[n].prog[0];
             && (b == Idle || (instr.Consider? && b == Adopting(instr.diff, instr.requestId, instr.from)))
             && (instr.Consider? && b == Idle ==> instr.diff.version <= At(s, n, instr.diff.objectId))
    ensures NodesFine(c, Popped(s, n).(busy := s.busy[n := b]))
  {
    hide CleanEnv, SeenFine, Popped, Accounted;
    PoppedShape(c, s, n);
    var t, prog := Popped(s, n).(busy := s.busy[n := b]), s.net.nodes[n].prog;
    assert Sourced(c, n, prog[0]) && CleanInstr(prog[0]);
    assert forall i :: 0 <= i < |prog[1..]| ==> prog[1..][i] == prog[i + 1];
    forall m | m in c.nodes
      ensures BusyFine(c, t, m) && SeenFine(t, m)
    {
      assert BusyFine(c, s, m) && SeenFine(s, m);
      forall d: ObjectDiff | Accounted(s.net.nodes[m], s.busy[m], d)
        ensures Accounted(t.net.nodes[m], t.busy[m], d)
      {
        if m == n { PoppedAccounts(s.net.nodes[n], b, d); }
      }
      SeenStays(s, t, m);
    }
  }

  lemma PoppedAccounts(n: NodeState, b: Busy, d: ObjectDiff)
    requires n.prog != [] && Accounted(n, Idle, d)
    requires var instr := n.prog[0];
             instr.Consider? ==>
               instr.diff.version <= Version(n.objects, instr.diff.objectId) || (b.Adopting? && b.diff == instr.diff)
    ensures Accounted(n.(prog := n.prog[1..]), b, d)
  {
    if InHand(n, d) {
      var i :| 0 <= i < |n.prog| && n.prog[i].Consider? && n.prog[i].diff == d;
      assert i > 0 ==> n.prog[1..][i - 1] == n.prog[i];
    }
  }

  /** Only the queues change, and by envelopes of the network's kind. */
  lemma QueuedNodes(c: Config, s: Fine, t: Fine)
    requires NodesFine(c, s) && t.net.nodes == s.net.nodes && t.busy == s.busy && FineShaped(c, t)
    requires forall l, i :: l in c.links && 0 <= i < |t.net.queues[l]| ==> CleanEnv(t.net.queues[l][i])
    ensures NodesFine(c, t)
  {
    hide CleanEnv, CleanInstr, Sourced, Forwards;
    forall m | m in c.nodes
      ensures BusyFine(c, t, m) && SeenFine(t, m)
    {
      assert BusyFine(c, s, m) && SeenFine(s, m);
    }
  }

  lemma BusyNodes(c: Config, s: Fine, n: NodeId, b: Busy)
    requires NodesFine(c, s) && n in c.nodes
    requires BusyFine(c, s.(busy := s.busy[n := b]), n)
    requires s.busy[n].Adopting? ==> s.busy[n].diff.version <= At(s, n, s.busy[n].diff.objectId)
    ensures NodesFine(c, s.(busy := s.busy[n := b]))
  {
    hide CleanEnv, CleanInstr, Sourced, Forwards, SeenFine;
    var t := s.(busy := s.busy[n := b]);
    forall m | m in c.nodes
      ensures BusyFine(c, t, m) && SeenFine(t, m)
    {
      assert BusyFine(c, s, m) && SeenFine(s, m);
      SeenStays(s, t, m);
    }
  }

  lemma EmittedClean(queues: map<Link, seq<Envelope>>, n: NodeId, sends: seq<P.Send>)
    requires forall l, i :: l in queues && 0 <= i < |queues[l]| ==> CleanEnv(queues[l][i])
    requires forall i :: 0 <= i < |sends| ==> CleanEnv(sends[i].env)
    ensures forall l, i :: l in queues && 0 <= i < |Emit(queues, n, sends)[l]| ==>
              CleanEnv(Emit(queues, n, sends)[l][i])
  {
    hide CleanEnv;
    forall l, i | l in queues && 0 <= i < |Emit(queues, n, sends)[l]|
      ensures CleanEnv(Emit(queues, n, sends)[l][i])
    {
      AddressedFrom(sends, l.dst);
    }
  }

  lemma WorkNodes(c: Config, s: Fine, n: NodeId)
    requires FineInv(c, s) && FineEnabled(s, Plain(Work(n)))
    ensures NodesFine(c, Worked(c, s, n))
  {
    hide CleanEnv, SeenFine, Stored, LinkFine, Emit, Popped;
    var objs := s.net.nodes[n].objects;
    match s.busy[n] {
      case Adopting(d, requestId, from) =>
        var req := RequestFor(d, c.tags(n));
        StoredNodes(c, s, n, req);
        StoredShape(c, s, n, req);
        AdoptedIsInTurn(c, s, n);
        OnwardForwards(d, from, At(s, n, d.objectId) + 1);
        assert BusyFine(c, s, n);
        BusyNodes(c, Stored(s, n, req), n, Worked(c, s, n).busy[n]);
      case Hooking(x, v, onward) =>
        assert BusyFine(c, s, n);
        BusyNodes(c, s, n, Idle);
        EmittedClean(s.net.queues, n, onward);
        EmitShape(c, s, n, onward);
        QueuedNodes(c, s.(busy := s.busy[n := Idle]), Worked(c, s, n));
      case Idle => IdleNodes(c, s, n);
    }
  }

  lemma OnwardForwards(d: ObjectDiff, from: NodeId, version: nat)
    requires 1 <= d.version <= version
    ensures Forwards(P.Send(Encode("", WorldUpdate([d])), from), d.objectId, version)
  {
    assert WireDiffs([d]) == [WireDiff(d)];
  }

  lemma ApplyLink(c: Config, t: Fine, n: NodeId, req: UpdateRequest, l: Link, x: string)
    requires WellFormed(c) && FineShaped(c, t) && n in c.nodes && t.busy[n] == Idle && l in c.links
    requires LinkFine(c, t, l, x)
    ensures LinkFine(c, Stored(t, n, req).(busy := t.busy[n := AfterApply(t.net.nodes[n].objects, req)]), l, x)
  {
    hide Served, Ahead, Stored;
    StoredShape(c, t, n, req);
    StoredLink(c, t, n, req, l, x);
    SameAhead(Stored(t, n, req), Stored(t, n, req).(busy := t.busy[n := AfterApply(t.net.nodes[n].objects, req)]), l);
  }

  lemma ApplyNodes(c: Config, t: Fine, n: NodeId, req: UpdateRequest)
    requires NodesFine(c, t) && n in c.nodes && t.busy[n] == Idle
    ensures NodesFine(c, Stored(t, n, req).(busy := t.busy[n := AfterApply(t.net.nodes[n].objects, req)]))
  {
    hide NodesFine, Stored;
    InvShape(c, t);
    StoredNodes(c, t, n, req);
    StoredShape(c, t, n, req);
    var u, b := Stored(t, n, req), AfterApply(t.net.nodes[n].objects, req);
    assert At(u, n, req.objectId)
             == At(t, n, req.objectId) + if Outcome(t.net.nodes[n].objects, req).Applied? then 1 else 0;
    assert BusyFine(c, u.(busy := u.busy[n := b]), n);
    BusyNodes(c, u, n, b);
  }

  lemma IdleNodes(c: Config, s: Fine, n: NodeId)
    requires NodesFine(c, s) && FineEnabled(s, Plain(Work(n))) && s.busy[n] == Idle
    ensures NodesFine(c, Worked(c, s, n))
  {
    hide CleanEnv, SeenFine, Stored, Emit, Worked, Popped;
    var t, t', instr := Popped(s, n), Worked(c, s, n), s.net.nodes[n].prog[0];
    assert s.busy[n := Idle] == s.busy && t.(busy := s.busy) == t by { PoppedShape(c, s, n); }
    PoppedShape(c, s, n);
    WorkedIdle(c, s, n);
    match instr {
      case Consider(d, requestId, from) => PoppedNodes(c, s, n, if t' == t then Idle else Adopting(d, requestId, from));
      case ApplyUpdate(req) =>
        PoppedNodes(c, s, n, Idle);
        ApplyNodes(c, t, n, req);
      case Relay(env, from) =>
        assert Sourced(c, n, instr);
        PoppedNodes(c, s, n, Idle);
        RelayClean(env, from);
        EmittedClean(s.net.queues, n, [P.Send(Encode(env.requestId, env.body), from)]);
        EmitShape(c, s, n, [P.Send(Encode(env.requestId, env.body), from)]);
        QueuedNodes(c, t, t');
    }
  }

  lemma RelayClean(env: Envelope, from: NodeId)
    requires env.body.SubmitResult?
    ensures CleanEnv(Encode(env.requestId, env.body))
  {
  }

  lemma ReceiveNodes(c: Config, s: Fine, l: Link, i: nat)
    requires NodesFine(c, s) && FineEnabled(s, Plain(Deliver(l, i)))
    ensures NodesFine(c, FineNext(c, s, Plain(Deliver(l, i))))
  {
    hide Program, Sourced, SeenFine, Accounted;
    var t, env, p := FineNext(c, s, Plain(Deliver(l, i))), s.net.queues[l][i], s.net.nodes[l.dst];
    SoundStep(c, s.net, Deliver(l, i));
    assert CleanEnv(env);
    ProgramClean(c.merge(l.dst), env, l.src);
    forall k, j | k in t.net.queues && 0 <= j < |t.net.queues[k]|
      ensures CleanEnv(t.net.queues[k][j])
    {
      if k == l { assert t.net.queues[l][j] == s.net.queues[l][if j < i then j else j + 1]; }
    }
    forall m | m in c.nodes
      ensures BusyFine(c, t, m) && SeenFine(t, m)
    {
      assert BusyFine(c, s, m) && SeenFine(s, m);
      if m == l.dst && IdOf(env) !in p.seen {
        ReceivedIsAccounted(c, s, l, i);
      } else {
        SeenStays(s, t, m);
      }
    }
  }

  lemma ReceivedIsAccounted(c: Config, s: Fine, l: Link, i: nat)
    requires NodesFine(c, s) && FineEnabled(s, Plain(Deliver(l, i)))
    requires IdOf(s.net.queues[l][i]) !in s.net.nodes[l.dst].seen
    ensures SeenFine(FineNext(c, s, Plain(Deliver(l, i))), l.dst)
  {
    var t, env := FineNext(c, s, Plain(Deliver(l, i))), s.net.queues[l][i];
    var p, p' := s.net.nodes[l.dst], t.net.nodes[l.dst];
    assert SeenFine(s, l.dst);
    if env.body.WorldUpdate? {
      ConsidersAre(env.body.objects, env.requestId, l.src);
      forall j | 0 <= j < |env.body.objects|
        ensures InHand(p', env.body.objects[j])
      {
        assert p'.prog[j].Consider? && p'.prog[j].diff == env.body.objects[j];
      }
    }
    forall id: MessageId, j | id in p'.seen && id.ByContent? && id.body.WorldUpdate? && 0 <= j < |id.body.objects|
      ensures Accounted(p', t.busy[l.dst], id.body.objects[j])
    {
      if id in p.seen {
        assert Accounted(p, s.busy[l.dst], id.body.objects[j]);
        assert !InHand(p, id.body.objects[j]);
      }
    }
  }

  lemma OtherNodes(c: Config, s: Fine, lab: Label)
    requires NodesFine(c, s) && FineEnabled(s, Plain(lab)) && !Acts(lab) && !lab.Deliver?
    ensures NodesFine(c, FineNext(c, s, Plain(lab)))
  {
    hide Sourced, Accounted, CleanInstr, CleanEnv, FineNext, SeenFine;
    var t := FineNext(c, s, Plain(lab));
    SoundStep(c, s.net, lab);
    OtherShape(c, s, lab);
    OtherClean(c, s, lab);
    forall m | m in c.nodes
      ensures BusyFine(c, t, m) && SeenFine(t, m)
    {
      assert BusyFine(c, s, m) && SeenFine(s, m);
      forall d: ObjectDiff | Accounted(s.net.nodes[m], s.busy[m], d)
        ensures Accounted(t.net.nodes[m], t.busy[m], d)
      {
        SameAccounts(s.net.nodes[m], t.net.nodes[m], s.busy[m], d);
      }
      SeenStays(s, t, m);
    }
  }

  lemma OtherClean(c: Config, s: Fine, lab: Label)
    requires NodesFine(c, s) && FineEnabled(s, Plain(lab)) && !Acts(lab) && !lab.Deliver?
    ensures forall l, i :: l in c.links && 0 <= i < |Next(c, s.net, lab).queues[l]| ==>
              CleanEnv(Next(c, s.net, lab).queues[l][i])
  {
    hide Sourced, CleanInstr, SeenFine, BusyFine;
    var queues := Next(c, s.net, lab).queues;
    match lab {
      case Announce(n, env) => EmittedClean(s.net.queues, n, [P.Send(env, "")]);
      case Lose(k, j) =>
        forall l, i | l in c.links && 0 <= i < |queues[l]|
          ensures CleanEnv(queues[l][i])
        {
          if k == l { assert queues[l][i] == s.net.queues[l][if i < j then i else i + 1]; }
        }
      case Duplicate(k, j) => assert CleanEnv(s.net.queues[k][j]);
      case Forget(_, _) =>
    }
  }

  lemma SameAccounts(n: NodeState, n': NodeState, b: Busy, d: ObjectDiff)
    requires n'.objects == n.objects && n'.prog == n.prog
    ensures Accounted(n, b, d) ==> Accounted(n', b, d)
  {
  }

  // ---------------------------------------------------------------------------
  // What each step does to the links
  // ---------------------------------------------------------------------------

  lemma WorkLink(c: Config, s: Fine, n: NodeId, l: Link, x: string)
    requires FineInv(c, s) && FineEnabled(s, Plain(Work(n))) && l in c.links
    ensures LinkFine(c, Worked(c, s, n), l, x)
  {
    hide Served, Emit, Ahead;
    assert LinkFine(c, s, l, x);
    match s.busy[n] {
      case Adopting(_, _, _) => AdoptedLink(c, s, n, l, x);
      case Hooking(_, _, _) => HookedLink(c, s, n, l, x);
      case Idle => IdleLink(c, s, n, l, x);
    }
  }

  lemma IdleLink(c: Config, s: Fine, n: NodeId, l: Link, x: string)
    requires FineInv(c, s) && FineEnabled(s, Plain(Work(n))) && s.busy[n] == Idle
    requires l in c.links && LinkFine(c, s, l, x)
    ensures LinkFine(c, Worked(c, s, n), l, x)
  {
    hide Served, Stored, Ahead, Popped, Emit, Worked;
    var t, t', instr := Popped(s, n), Worked(c, s, n), s.net.nodes[n].prog[0];
    PoppedShape(c, s, n);
    WorkedIdle(c, s, n);
    match instr {
      case Consider(d, requestId, from) =>
        if t' == t {
          PoppedLink(c, s, n, l, x);
        } else {
          AdoptingLink(c, s, n, l, x);
        }
      case ApplyUpdate(req) =>
        PoppedLink(c, s, n, l, x);
        ApplyLink(c, t, n, req, l, x);
      case Relay(env, from) =>
        assert Sourced(c, n, instr);
        PoppedLink(c, s, n, l, x);
        RelayLink(c, t, n, env, from, l, x);
    }
  }

  lemma RelayLink(c: Config, t: Fine, n: NodeId, env: Envelope, from: NodeId, l: Link, x: string)
    requires WellFormed(c) && FineShaped(c, t) && n in c.nodes && env.body.SubmitResult?
    requires l in c.links && LinkFine(c, t, l, x)
    ensures var sends := [P.Send(Encode(env.requestId, env.body), from)];
            var t' := t.(net := t.net.(queues := Emit(t.net.queues, n, sends)));
            FineShaped(c, t') && LinkFine(c, t', l, x)
  {
    hide Served, LinkDiffs;
    var sends := [P.Send(Encode(env.requestId, env.body), from)];
    AddressedTwo(sends[0], sends[0], l.dst);
    QueueDiffsTwo(sends[0].env, sends[0].env);
    EmitLink(c, t, t.(net := t.net.(queues := Emit(t.net.queues, n, sends))), l, x,
             if l.src == n then Addressed(sends, l.dst) else []);
  }

  /** Taking the first message of a link, or any message of another link, leaves a link in order. */
  lemma DeliverLink(c: Config, s: Fine, k: Link, i: nat, l: Link, x: string)
    requires FineInv(c, s) && FineEnabled(s, Plain(Deliver(k, i))) && l in c.links && (k == l ==> i == 0)
    ensures LinkFine(c, FineNext(c, s, Plain(Deliver(k, i))), l, x)
  {
    hide Served, Ahead, FineNext, SeenFine;
    var t, env := FineNext(c, s, Plain(Deliver(k, i))), s.net.queues[k][i];
    assert LinkFine(c, s, l, x);
    DeliverAhead(c, s, k, i, l);
    if k == l && IdOf(env) in s.net.nodes[l.dst].seen {
      SeenIsOld(c, s, l, 0);
      OldIsSkipped(At(s, l.dst, x), At(s, l.src, x), BodyDiffs(env.body), Ahead(t, l), s.hooks[l], x);
    } else {
      assert [] + Ahead(t, l) == Ahead(t, l);
    }
  }

  lemma DeliverAhead(c: Config, s: Fine, k: Link, i: nat, l: Link)
    requires WellFormed(c) && FineShaped(c, s) && FineEnabled(s, Plain(Deliver(k, i))) && l in c.links
    requires k == l ==> i == 0
    ensures var t, env := FineNext(c, s, Plain(Deliver(k, i))), s.net.queues[k][i];
            && FineShaped(c, t) && t.hooks == s.hooks
            && (forall n | n in c.nodes :: t.net.nodes[n].objects == s.net.nodes[n].objects)
            && Ahead(s, l)
                 == (if k == l && IdOf(env) in s.net.nodes[l.dst].seen then BodyDiffs(env.body) else []) + Ahead(t, l)
  {
    hide Receive, BodyDiffs, IdOf, LinkDiffs;
    ReceiveShape(c, s.net, k, i);
    ReceiveDiffs(c, s.net, k, i, l);
  }

  /** A message that hits the de-duplication table holds no diff its receiver still needs. */
  lemma SeenIsOld(c: Config, s: Fine, l: Link, i: nat)
    requires NodesFine(c, s) && FineEnabled(s, Plain(Deliver(l, i)))
    requires IdOf(s.net.queues[l][i]) in s.net.nodes[l.dst].seen
    ensures forall d :: d in BodyDiffs(s.net.queues[l][i].body) ==> d.version <= At(s, l.dst, d.objectId)
  {
    var env, p := s.net.queues[l][i], s.net.nodes[l.dst];
    assert CleanEnv(env) && SeenFine(s, l.dst);
    forall d | d in BodyDiffs(env.body)
      ensures d.version <= At(s, l.dst, d.objectId)
    {
      var j :| 0 <= j < |env.body.objects| && env.body.objects[j] == d;
      assert Accounted(p, s.busy[l.dst], IdOf(env).body.objects[j]);
      assert !InHand(p, d);
    }
  }

  lemma AnnounceLink(c: Config, s: Fine, n: NodeId, env: Envelope, l: Link, x: string)
    requires FineInv(c, s) && FineEnabled(s, Plain(Announce(n, env))) && l in c.links
    ensures LinkFine(c, FineNext(c, s, Plain(Announce(n, env))), l, x)
  {
    hide Served, LinkDiffs;
    assert LinkFine(c, s, l, x);
    AddressedTwo(P.Send(env, ""), P.Send(env, ""), l.dst);
    QueueDiffsTwo(env, env);
    EmitLink(c, s, FineNext(c, s, Plain(Announce(n, env))), l, x,
             if l.src == n then Addressed([P.Send(env, "")], l.dst) else []);
  }

  /** A copy brings nothing new. */
  lemma DuplicateLink(c: Config, s: Fine, k: Link, i: nat, l: Link, x: string)
    requires FineInv(c, s) && FineEnabled(s, Plain(Duplicate(k, i))) && l in c.links
    ensures LinkFine(c, FineNext(c, s, Plain(Duplicate(k, i))), l, x)
  {
    hide Served, LinkDiffs, Reach, NoGap;
    assert LinkFine(c, s, l, x);
    var more := if k == l then [s.net.queues[k][i]] else [];
    QueueDiffsTwo(s.net.queues[k][i], s.net.queues[k][i]);
    forall d | d in QueueDiffs(more) && d.objectId == x
      ensures 1 <= d.version <= Reach(At(s, l.dst, x), Ahead(s, l), x)
    {
      assert d in Ahead(s, l) by { QueuedIsAhead(s, l, i, d); }
      var j :| 0 <= j < |Ahead(s, l)| && Ahead(s, l)[j] == d;
      assert NoGap(At(s, l.dst, x), Ahead(s, l),
                   x) by { ServedHasNoGap(At(s, l.dst, x), At(s, l.src, x), Ahead(s, l), s.hooks[l], x); }
      ReachBounds(At(s, l.dst, x), Ahead(s, l), x, j);
    }
    EmitLink(c, s, FineNext(c, s, Plain(Duplicate(k, i))), l, x, more);
  }

  lemma ServedHasNoGap(v: nat, w: nat, ds: seq<ObjectDiff>, hooks: seq<ObjectDiff>, x: string)
    requires Served(v, w, ds, hooks, x)
    ensures NoGap(v, ds, x)
  {
  }

  lemma QueuedIsAhead(s: Fine, l: Link, i: nat, d: ObjectDiff)
    requires l in s.net.queues && l.dst in s.net.nodes && l.dst in s.busy && i < |s.net.queues[l]|
    requires d in BodyDiffs(s.net.queues[l][i].body)
    ensures d in Ahead(s, l)
  {
    WithoutDiffs(s.net.queues[l], i);
  }

  /** What a step may do to one link without harm to it: nothing but leave it in order. */
  ghost predicate Harmless(c: Config, s: Fine, step: FineStep)
    requires WellFormed(c) && FineShaped(c, s) && FineEnabled(s, step)
  {
    match step
    case Fire(l, _) => l in c.links ==> forall x :: LinkFine(c, FineNext(c, s, step), l, x)
    case Plain(Lose(l, _)) => l in c.links ==> forall x :: LinkFine(c, FineNext(c, s, step), l, x)
    case Plain(Deliver(l, i)) => i > 0 && l in c.links ==> forall x :: LinkFine(c, FineNext(c, s, step), l, x)
    case _ => true
  }

  lemma OtherLink(c: Config, s: Fine, lab: Label, l: Link, x: string)
    requires FineInv(c, s) && FineEnabled(s, Plain(lab)) && !Acts(lab) && !lab.Deliver? && l in c.links
    requires lab.Lose? ==> lab.link != l
    ensures LinkFine(c, FineNext(c, s, Plain(lab)), l, x)
  {
    hide Served, Ahead;
    assert LinkFine(c, s, l, x);
    match lab {
      case Announce(n, env) => AnnounceLink(c, s, n, env, l, x);
      case Duplicate(k, i) => DuplicateLink(c, s, k, i, l, x);
      case Forget(n, ids) => QuietLink(c, s, FineNext(c, s, Plain(lab)), l, x);
      case Lose(k, i) => QuietLink(c, s, FineNext(c, s, Plain(lab)), l, x);
    }
  }

  /** A link is in order as before when its ends, its queue and its hooks are. */
  lemma QuietLink(c: Config, s: Fine, t: Fine, l: Link, x: string)
    requires WellFormed(c) && FineShaped(c, s) && FineShaped(c, t) && l in c.links && LinkFine(c, s, l, x)
    requires t.net.queues[l] == s.net.queues[l] && t.hooks[l] == s.hooks[l] && t.busy == s.busy
    requires At(t, l.src, x) == At(s, l.src, x) && At(t, l.dst, x) == At(s, l.dst, x)
    requires t.net.nodes[l.dst].prog == s.net.nodes[l.dst].prog
    ensures LinkFine(c, t, l, x)
  {
  }

  /** Sending a hook is harmless exactly when its version is no more than one ahead of what the
      receiver will have reached. */
  lemma FireIsHarmless(c: Config, s: Fine, l: Link, i: nat)
    requires FineInv(c, s) && FineEnabled(s, Fire(l, i)) && l in c.links
    ensures var d := s.hooks[l][i];
            Harmless(c, s, Fire(l, i)) <==> d.version <= Reach(At(s, l.dst, d.objectId), Ahead(s, l), d.objectId) + 1
  {
    hide Served, Ahead, FineNext;
    FireShape(c, s, l, i, l);
    var t, d := FineNext(c, s, Fire(l, i)), s.hooks[l][i];
    forall x
      ensures LinkFine(c, t, l, x) <==> (d.objectId == x ==> d.version <= Reach(At(s, l.dst, x), Ahead(s, l), x) + 1)
    {
      assert LinkFine(c, s, l, x);
      HookIsSent(At(s, l.dst, x), At(s, l.src, x), Ahead(s, l), s.hooks[l], x, i);
    }
  }

  /** No hook of the same object with a lower version is still to go out over this link. */
  ghost predicate InOrder(s: Fine, l: Link, i: nat)
    requires l in s.hooks && i < |s.hooks[l]|
  {
    forall j :: 0 <= j < |s.hooks[l]| && s.hooks[l][j].objectId == s.hooks[l][i].objectId ==>
      s.hooks[l][i].version <= s.hooks[l][j].version
  }

  lemma InOrderIsHarmless(c: Config, s: Fine, l: Link, i: nat)
    requires FineInv(c, s) && FineEnabled(s, Fire(l, i)) && l in c.links
    requires InOrder(s, l, i)
    ensures Harmless(c, s, Fire(l, i))
  {
    hide Served, Ahead, FineNext;
    var x := s.hooks[l][i].objectId;
    assert LinkFine(c, s, l, x);
    LowestIsInTurn(At(s, l.dst, x), At(s, l.src, x), Ahead(s, l), s.hooks[l], x, i);
    FireIsHarmless(c, s, l, i);
  }

  lemma NodesAreSound(c: Config, s: Fine)
    requires NodesFine(c, s)
    ensures FineSound(c, s)
  {
    forall n | n in c.nodes
      ensures BusySourced(c, n, s.busy[n])
    {
      assert BusyFine(c, s, n);
    }
  }

  lemma InvShape(c: Config, s: Fine)
    requires NodesFine(c, s)
    ensures WellFormed(c) && FineShaped(c, s)
  {
  }

  lemma StepKeeps(c: Config, s: Fine, step: FineStep)
    requires FineInv(c, s) && FineEnabled(s, step) && Harmless(c, s, step)
    ensures FineInv(c, FineNext(c, s, step))
  {
    hide NodesFine, LinkFine, FineNext;
    InvShape(c, s);
    StepNodes(c, s, step);
    forall l, x | l in c.links
      ensures LinkFine(c, FineNext(c, s, step), l, x)
    {
      StepLink(c, s, step, l, x);
    }
  }

  lemma StepNodes(c: Config, s: Fine, step: FineStep)
    requires FineInv(c, s) && FineEnabled(s, step)
    ensures NodesFine(c, FineNext(c, s, step))
  {
    hide NodesFine, LinkFine, Worked, Stored;
    InvShape(c, s);
    match step {
      case Fire(l, i) => FireNodes(c, s, l, i);
      case Plain(LocalApply(n, req)) => StoredNodes(c, s, n, req);
      case Plain(Work(n)) => WorkNodes(c, s, n);
      case Plain(Deliver(l, i)) => ReceiveNodes(c, s, l, i);
      case Plain(lab) => OtherNodes(c, s, lab);
    }
  }

  lemma FireNodes(c: Config, s: Fine, l: Link, i: nat)
    requires NodesFine(c, s) && FineEnabled(s, Fire(l, i))
    ensures NodesFine(c, FineNext(c, s, Fire(l, i)))
  {
    hide BusyFine, SeenFine, Sourced, CleanInstr;
    var t := FineNext(c, s, Fire(l, i));
    FireShape(c, s, l, i, l);
    var u := s.(hooks := t.hooks);
    assert NodesFine(c, u) by { HooksDoNotMatter(c, s, t.hooks); }
    assert t.net == u.net.(queues := t.net.queues);
    QueuedNodes(c, u, t);
  }

  lemma HooksDoNotMatter(c: Config, s: Fine, hooks: map<Link, seq<ObjectDiff>>)
    requires NodesFine(c, s) && hooks.Keys == c.links
    ensures NodesFine(c, s.(hooks := hooks))
  {
    hide Sourced, CleanInstr, CleanEnv, Accounted, Forwards;
    forall m | m in c.nodes
      ensures BusyFine(c, s.(hooks := hooks), m) && SeenFine(s.(hooks := hooks), m)
    {
      assert BusyFine(c, s, m) && SeenFine(s, m);
    }
  }

  lemma StepLink(c: Config, s: Fine, step: FineStep, l: Link, x: string)
    requires FineInv(c, s) && FineEnabled(s, step) && Harmless(c, s, step)
    requires l in c.links
    ensures LinkFine(c, FineNext(c, s, step), l, x)
  {
    hide NodesFine, Served, Worked, Stored, Ahead;
    InvShape(c, s);
    assert LinkFine(c, s, l, x);
    match step {
      case Fire(k, i) =>
        if k != l {
          FireShape(c, s, k, i, l);
          QuietLink(c, s, FineNext(c, s, step), l, x);
        }
      case Plain(LocalApply(n, req)) => StoredLink(c, s, n, req, l, x);
      case Plain(Work(n)) => WorkLink(c, s, n, l, x);
      case Plain(Deliver(k, i)) =>
        if k != l || i == 0 { DeliverLink(c, s, k, i, l, x); }
      case Plain(Lose(k, i)) =>
        if k != l { OtherLink(c, s, step.lab, l, x); }
      case Plain(lab) => OtherLink(c, s, lab, l, x);
    }
  }

  // ---------------------------------------------------------------------------
  // Harmless losses
  // ---------------------------------------------------------------------------

  lemma {:induction false} OldIsDropped(v: nat, w: nat, a: seq<ObjectDiff>, m: seq<ObjectDiff>, b: seq<ObjectDiff>,
                                        hooks: seq<ObjectDiff>, x: string)
    requires Served(v, w, a + m + b, hooks, x)
    requires forall i :: 0 <= i < |m| && m[i].objectId == x ==> m[i].version <= Reach(v, a, x)
    ensures Served(v, w, a + b, hooks, x)
  {
    ReachConcat(v, a + m, b, x);
    ReachConcat(v, a, m, x);
    ReachConcat(v, a, b, x);
    ReachCovered(Reach(v, a, x), m, x);
  }

  /** What is under way over a link ahead of its i-th queued message. */
  function Before(s: Fine, l: Link, i: nat): seq<ObjectDiff>
    requires l in s.net.queues && l.dst in s.net.nodes && l.dst in s.busy && i <= |s.net.queues[l]|
  {
    var b := s.busy[l.dst];
    (if b.Adopting? && b.from == l.src then [b.diff] else [])
      + (ProgDiffs(s.net.nodes[l.dst].prog, l.src) + QueueDiffs(s.net.queues[l][..i]))
  }

  lemma LostFromAhead(c: Config, s: Fine, l: Link, i: nat)
    requires WellFormed(c) && FineShaped(c, s) && FineEnabled(s, Plain(Lose(l, i))) && l in c.links
    ensures var m, after := BodyDiffs(s.net.queues[l][i].body), QueueDiffs(s.net.queues[l][i + 1..]);
            && Ahead(s, l) == Before(s, l, i) + m + after
            && Ahead(FineNext(c, s, Plain(Lose(l, i))), l) == Before(s, l, i) + after
  {
    hide ProgDiffs, QueueDiffs, BodyDiffs;
    WithoutDiffs(s.net.queues[l], i);
    assert Ahead(s, l) == Before(s, l, i) + BodyDiffs(s.net.queues[l][i].body) + QueueDiffs(s.net.queues[l][i + 1..]);
  }

  /** Losing a message is harmless when the receiver will have reached its versions from what is ahead
      of it, as with the second of the two messages that each accepted diff is sent in. */
  lemma {:induction false} LosingOldIsHarmless(c: Config, s: Fine, l: Link, i: nat)
    requires FineInv(c, s) && FineEnabled(s, Plain(Lose(l, i))) && l in c.links
    requires forall d :: d in BodyDiffs(s.net.queues[l][i].body) ==>
               d.version <= Reach(At(s, l.dst, d.objectId), Before(s, l, i), d.objectId)
    ensures Harmless(c, s, Plain(Lose(l, i)))
  {
    hide Served, Reach, BodyDiffs, Ahead, Before, QueueDiffs;
    LostFromAhead(c, s, l, i);
    var t, q := FineNext(c, s, Plain(Lose(l, i))), s.net.queues[l];
    forall x
      ensures LinkFine(c, t, l, x)
    {
      assert LinkFine(c, s, l, x);
      OldIsDropped(At(s, l.dst, x), At(s, l.src, x), Before(s, l, i), BodyDiffs(q[i].body), QueueDiffs(q[i + 1..]),
                   s.hooks[l], x);
    }
  }

  /** What is left on a link does no harm: it carries no gap, and each version that the receiver would have
      reached by what is gone waits in a hook. */
  ghost predicate Spared(v: nat, w: nat, all: seq<ObjectDiff>, left: seq<ObjectDiff>, hooks: seq<ObjectDiff>, x: string)
  {
    && NoGap(v, left, x)
    && (forall u: nat :: Reach(v, left, x) < u <= w && u <= Reach(v, all, x) ==> Pending(hooks, x, u))
  }

  lemma ServedIfSpared(v: nat, w: nat, all: seq<ObjectDiff>, left: seq<ObjectDiff>, hooks: seq<ObjectDiff>, x: string)
    requires Served(v, w, all, hooks, x)
    ensures Served(v, w, left, hooks, x) <==> Spared(v, w, all, left, hooks, x)
  {
  }

  /** Exactly when the loss of a message does its link no harm: for every object, what is left carries no gap
      and leads the receiver as far as before, but for versions that wait in a hook. */
  lemma LosingIsHarmless(c: Config, s: Fine, l: Link, i: nat)
    requires FineInv(c, s) && FineEnabled(s, Plain(Lose(l, i))) && l in c.links
    ensures Harmless(c, s, Plain(Lose(l, i)))
       <==> forall x :: Spared(At(s, l.dst, x), At(s, l.src, x), Ahead(s, l),
                               Before(s, l, i) + QueueDiffs(s.net.queues[l][i + 1..]), s.hooks[l], x)
  {
    hide Served, Spared, Ahead, Before, QueueDiffs, NodesFine;
    InvShape(c, s);
    LostFromAhead(c, s, l, i);
    var t := FineNext(c, s, Plain(Lose(l, i)));
    forall x
      ensures LinkFine(c, t, l, x)
         <==> Spared(At(s, l.dst, x), At(s, l.src, x), Ahead(s, l), Ahead(t, l), s.hooks[l], x)
    {
      assert LinkFine(c, s, l, x);
      ServedIfSpared(At(s, l.dst, x), At(s, l.src, x), Ahead(s, l), Ahead(t, l), s.hooks[l], x);
    }
  }

  /** So the first of two copies may be lost, if nothing between them builds on it. */
  lemma {:induction false} FirstCopyIsSpared(v: nat, w: nat, a: seq<ObjectDiff>, d: ObjectDiff, b: seq<ObjectDiff>,
                                             e: seq<ObjectDiff>, hooks: seq<ObjectDiff>, x: string)
    requires Served(v, w, a + ([d] + (b + ([d] + e))), hooks, x)
    requires forall i :: 0 <= i < |b| && b[i].objectId == x ==> b[i].version <= Reach(v, a, x)
    ensures Spared(v, w, a + ([d] + (b + ([d] + e))), a + (b + ([d] + e)), hooks, x)
  {
    hide Reach, NoGap;
    var r := Reach(v, a, x);
    var r' := Raise(r, d, x);
    ReachConcat(v, a, [d] + (b + ([d] + e)), x);
    ReachConcat(r, [d], b + ([d] + e), x);
    ReachOne(r, d, x);
    ReachConcat(r', b, [d] + e, x);
    ReachCovered(r', b, x);
    ReachConcat(r', [d], e, x);
    ReachOne(r', d, x);
    forall i | 0 <= i < |b| && b[i].objectId == x
      ensures 1 <= b[i].version
    {
      ReachBounds(r', b, x, i);
    }
    OldHasNoGap(r, b, x);
    ReachCovered(r, b, x);
    ReachConcat(v, a, b + ([d] + e), x);
    ReachConcat(r, b, [d] + e, x);
    ReachConcat(r, [d], e, x);
  }
}

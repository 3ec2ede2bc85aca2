/** Peer mode as a network: nodes running internal/peer/peer.go, joined by directed queues. */
module GossipNet {
  import opened Base
  import opened Protocol
  import opened Worlds
  import opened Merge
  import opened PeerNode
  import P = Peering

  type NodeId = string

  datatype Link = Link(src: NodeId, dst: NodeId)

  /** A fixed topology, with each node's tags and merge function. */
  datatype Config = Config(nodes: set<NodeId>, links: set<Link>, tags: NodeId -> Option<seq<string>>,
                           merge: NodeId -> MergeFunc)

  /** Connections are two-way and between different nodes; the empty id names no node. */
  ghost predicate WellFormed(c: Config) {
    && "" !in c.nodes
    && (forall l :: l in c.links ==> l.src in c.nodes && l.dst in c.nodes && l.src != l.dst)
    && (forall l :: l in c.links ==> Link(l.dst, l.src) in c.links)
  }

  /** `prog` is what remains of the message the event loop is handling. */
  datatype NodeState = NodeState(objects: Objects, seen: set<MessageId>, prog: seq<Instr>)

  /** A queue holds everything sent over a connection and not yet taken by the event loop of its
      destination: the sender's outbox, the bytes on the wire and the receiver's event channel. */
  datatype Net = Net(nodes: map<NodeId, NodeState>, queues: map<Link, seq<Envelope>>)

  /** One atomic step. An apply comes with its change hook and the resulting sends. Local submissions
      run beside the event loop, so a batch is a series of `LocalApply` steps; an event-loop
      program advances by `Work`. `Announce` is a submission broadcast by an application. */
  datatype Label =
    | LocalApply(n: NodeId, req: UpdateRequest)
    | Announce(n: NodeId, env: Envelope)
    | Deliver(link: Link, i: nat)
    | Work(n: NodeId)
    | Forget(n: NodeId, ids: set<MessageId>)
    | Lose(link: Link, i: nat)
    | Duplicate(link: Link, i: nat)

  /** Steps of links that neither drop, copy nor reorder. */
  predicate Lossless(lab: Label) {
    !lab.Lose? && !lab.Duplicate? && (lab.Deliver? ==> lab.i == 0)
  }

  ghost predicate AllLossless(run: seq<Label>) {
    forall i :: 0 <= i < |run| ==> Lossless(run[i])
  }

  predicate Enabled(s: Net, lab: Label) {
    match lab
    case LocalApply(n, _) => n in s.nodes
    case Announce(n, env) => n in s.nodes && env.body.SubmitResult?
    case Deliver(l, i) => l in s.queues && i < |s.queues[l]| && l.dst in s.nodes && s.nodes[l.dst].prog == []
    case Work(n) => n in s.nodes && s.nodes[n].prog != []
    case Forget(n, _) => n in s.nodes
    case Lose(l, i) => l in s.queues && i < |s.queues[l]|
    case Duplicate(l, i) => l in s.queues && i < |s.queues[l]|
  }

  /** The part of a series of broadcasts that goes to one peer. */
  function Addressed(sends: seq<P.Send>, dst: NodeId): seq<Envelope> {
    if sends == [] then []
    else (if sends[0].except == dst then [] else [sends[0].env]) + Addressed(sends[1..], dst)
  }

  function Emit(queues: map<Link, seq<Envelope>>, n: NodeId, sends: seq<P.Send>): map<Link, seq<Envelope>> {
    map l | l in queues :: if l.src == n then queues[l] + Addressed(sends, l.dst) else queues[l]
  }

  function Without<T>(q: seq<T>, i: nat): seq<T>
    requires i < |q|
  {
    q[..i] + q[i + 1..]
  }

  /** The node's state and sends after one instruction, with `rest` left to do. */
  function Perform(c: Config, s: Net, n: NodeId, instr: Instr, rest: seq<Instr>): Net
    requires n in s.nodes
  {
    var e := Exec(s.nodes[n].objects, c.tags(n), instr);
    Net(s.nodes[n := s.nodes[n].(objects := e.objects, prog := rest)], Emit(s.queues, n, e.sends))
  }

  /** The event loop takes a message: skip it when its id is known, else start its program. */
  function Receive(c: Config, s: Net, l: Link, i: nat): Net
    requires l in s.queues && i < |s.queues[l]| && l.dst in s.nodes
  {
    var env, n := s.queues[l][i], s.nodes[l.dst];
    var queues := s.queues[l := Without(s.queues[l], i)];
    if IdOf(env) in n.seen then Net(s.nodes, queues)
    else Net(s.nodes[l.dst := n.(seen := n.seen + {IdOf(env)}, prog := Program(c.merge(l.dst), env, l.src))], queues)
  }

  function Next(c: Config, s: Net, lab: Label): Net
    requires Enabled(s, lab)
  {
    match lab
    case LocalApply(n, req) => Perform(c, s, n, ApplyUpdate(req), s.nodes[n].prog)
    case Announce(n, env) => Net(s.nodes, Emit(s.queues, n, [P.Send(env, "")]))
    case Deliver(l, i) => Receive(c, s, l, i)
    case Work(n) => Perform(c, s, n, s.nodes[n].prog[0], s.nodes[n].prog[1..])
    case Forget(n, ids) => Net(s.nodes[n := s.nodes[n].(seen := s.nodes[n].seen - ids)], s.queues)
    case Lose(l, i) => Net(s.nodes, s.queues[l := Without(s.queues[l], i)])
    case Duplicate(l, i) => Net(s.nodes, s.queues[l := s.queues[l] + [s.queues[l][i]]])
  }

  lemma NextKeys(c: Config, s: Net, lab: Label)
    requires Enabled(s, lab)
    ensures Next(c, s, lab).nodes.Keys == s.nodes.Keys && Next(c, s, lab).queues.Keys == s.queues.Keys
  {
  }

  function Init(c: Config): Net {
    Net(map n | n in c.nodes :: NodeState(map[], {}, []), map l | l in c.links :: [])
  }

  /** The state after a run from the start. A label that is not enabled changes nothing, so
      every sequence of labels is a run. */
  function NetAfter(c: Config, run: seq<Label>): (r: Net)
    ensures r.nodes.Keys == c.nodes && r.queues.Keys == c.links
  {
    if run == [] then Init(c)
    else
      var s := NetAfter(c, run[..|run| - 1]);
      if Enabled(s, run[|run| - 1]) then Next(c, s, run[|run| - 1]) else s
  }

  ghost predicate Shaped(c: Config, s: Net) {
    s.nodes.Keys == c.nodes && s.queues.Keys == c.links
  }

  /** Nothing queued and nothing being handled. */
  ghost predicate Quiescent(s: Net) {
    && (forall l :: l in s.queues ==> s.queues[l] == [])
    && (forall n :: n in s.nodes ==> s.nodes[n].prog == [])
  }

  // ---------------------------------------------------------------------------
  // The diffs on their way to a node
  // ---------------------------------------------------------------------------

  function BodyDiffs(body: Body): seq<ObjectDiff> {
    if body.WorldUpdate? then body.objects else []
  }

  function QueueDiffs(q: seq<Envelope>): seq<ObjectDiff> {
    if q == [] then [] else BodyDiffs(q[0].body) + QueueDiffs(q[1..])
  }

  /** The diffs received from one peer that the current program has still to consider. */
  function ProgDiffs(prog: seq<Instr>, from: NodeId): seq<ObjectDiff> {
    if prog == [] then []
    else (if prog[0].Consider? && prog[0].from == from then [prog[0].diff] else []) + ProgDiffs(prog[1..], from)
  }

  /** Everything sent over a link and not yet considered, in order. */
  function LinkDiffs(s: Net, l: Link): seq<ObjectDiff>
    requires l in s.queues && l.dst in s.nodes
  {
    ProgDiffs(s.nodes[l.dst].prog, l.src) + QueueDiffs(s.queues[l])
  }

  lemma {:induction false} QueueDiffsConcat(a: seq<Envelope>, b: seq<Envelope>)
    ensures QueueDiffs(a + b) == QueueDiffs(a) + QueueDiffs(b)
  {
    if a == [] {
      assert a + b == b;
    } else {
      assert (a + b)[1..] == a[1..] + b;
      QueueDiffsConcat(a[1..], b);
    }
  }

  lemma {:induction false} ProgDiffsConcat(a: seq<Instr>, b: seq<Instr>, from: NodeId)
    ensures ProgDiffs(a + b, from) == ProgDiffs(a, from) + ProgDiffs(b, from)
  {
    if a == [] {
      assert a + b == b;
    } else {
      assert (a + b)[1..] == a[1..] + b;
      ProgDiffsConcat(a[1..], b, from);
    }
  }

  lemma {:induction false} ConsiderDiffs(ds: seq<ObjectDiff>, requestId: string, from: NodeId, other: NodeId)
    ensures ProgDiffs(Considers(ds, requestId, from), other) == if other == from then ds else []
  {
    if ds != [] {
      var init, last := ds[..|ds| - 1], ds[|ds| - 1];
      ConsiderDiffs(init, requestId, from, other);
      ProgDiffsConcat(Considers(init, requestId, from), [Consider(last, requestId, from)], other);
    }
  }

  lemma {:induction false} ApplyDiffs(us: seq<UpdateRequest>, other: NodeId)
    ensures ProgDiffs(Applies(us), other) == []
  {
    if us != [] {
      ApplyDiffs(us[..|us| - 1], other);
      ProgDiffsConcat(Applies(us[..|us| - 1]), [ApplyUpdate(us[|us| - 1])], other);
    }
  }

  /** A message starts a program that considers exactly the message's diffs, for its sender. */
  lemma ProgramDiffs(merge: MergeFunc, env: Envelope, from: NodeId, other: NodeId)
    ensures ProgDiffs(Program(merge, env, from), other) == if other == from then BodyDiffs(env.body) else []
  {
    match env.body
    case WorldUpdate(ds) => ConsiderDiffs(ds, env.requestId, from, other);
    case SubmitResult(_, _, _) =>
      var us := UpdatesOf(merge, SubmissionOf(env.body, from));
      ApplyDiffs(us, other);
      ProgDiffsConcat(Applies(us), [Relay(env, from)], other);
    case Unhandled(_) =>
  }

  lemma {:induction false} ConsidersAre(ds: seq<ObjectDiff>, requestId: string, from: NodeId)
    ensures |Considers(ds, requestId, from)| == |ds|
    ensures forall i :: 0 <= i < |ds| ==> Considers(ds, requestId, from)[i] == Consider(ds[i], requestId, from)
  {
    if ds != [] {
      ConsidersAre(ds[..|ds| - 1], requestId, from);
    }
  }

  lemma {:induction false} AppliesAre(us: seq<UpdateRequest>)
    ensures |Applies(us)| == |us|
    ensures forall i :: 0 <= i < |us| ==> Applies(us)[i] == ApplyUpdate(us[i])
  {
    if us != [] {
      AppliesAre(us[..|us| - 1]);
    }
  }

  // ---------------------------------------------------------------------------
  // The machine and the event loop
  // ---------------------------------------------------------------------------

  lemma {:induction false} AddressedConcat(a: seq<P.Send>, b: seq<P.Send>, dst: NodeId)
    ensures Addressed(a + b, dst) == Addressed(a, dst) + Addressed(b, dst)
  {
    if a == [] {
      assert a + b == b;
    } else {
      assert (a + b)[1..] == a[1..] + b;
      AddressedConcat(a[1..], b, dst);
    }
  }

  lemma EmitConcat(queues: map<Link, seq<Envelope>>, n: NodeId, a: seq<P.Send>, b: seq<P.Send>)
    ensures Emit(Emit(queues, n, a), n, b) == Emit(queues, n, a + b)
  {
    forall l | l in queues
      ensures Emit(Emit(queues, n, a), n, b)[l] == Emit(queues, n, a + b)[l]
    {
      AddressedConcat(a, b, l.dst);
      Associative(queues[l], Addressed(a, l.dst), Addressed(b, l.dst));
    }
  }

  lemma EmitNothing(queues: map<Link, seq<Envelope>>, n: NodeId)
    ensures Emit(queues, n, []) == queues
  {
    forall l | l in queues
      ensures Emit(queues, n, [])[l] == queues[l]
    {
      assert Addressed([], l.dst) == [];
      assert queues[l] + [] == queues[l];
    }
  }

  /** The network's sends are the node's broadcasts: while there is room, an open peer's outbox
      grows by exactly what is addressed to that peer. */
  lemma {:induction false} BroadcastsAreAddressed(links: P.Links, sends: seq<P.Send>, id: string)
    requires id in links && !links[id].closed && |links[id].outbox| + |sends| <= P.OUTBOX_SIZE
    ensures id in P.SentAll(links, sends)
    ensures P.SentAll(links, sends)[id] == P.PeerState(links[id].outbox + Addressed(sends, id), false)
    ensures |Addressed(sends, id)| <= |sends|
  {
    if sends != [] {
      var init, last := sends[..|sends| - 1], sends[|sends| - 1];
      assert sends == init + [last];
      BroadcastsAreAddressed(links, init, id);
      AddressedConcat(init, [last], id);
      assert [last][1..] == [];
      Associative(links[id].outbox, Addressed(init, id), Addressed([last], id));
    }
  }

  /** The rest of a node's program, run without interruption. */
  function WorkThrough(c: Config, s: Net, n: NodeId): Net
    requires n in s.nodes
    decreases |s.nodes[n].prog|
  {
    if s.nodes[n].prog == [] then s else WorkThrough(c, Next(c, s, Work(n)), n)
  }

  /** Uninterrupted, the machine's steps do what the event loop's handler does: the store and the
      broadcasts of the whole program, each broadcast to every peer but the one left out. */
  lemma {:induction false} UninterruptedWork(c: Config, s: Net, n: NodeId)
    requires n in s.nodes
    ensures var e := ExecAll(s.nodes[n].objects, c.tags(n), s.nodes[n].prog);
            WorkThrough(c, s, n)
              == Net(s.nodes[n := s.nodes[n].(objects := e.objects, prog := [])], Emit(s.queues, n, e.sends))
    decreases |s.nodes[n].prog|
  {
    hide Exec, ExecAll, Emit;
    var prog, objs, tags := s.nodes[n].prog, s.nodes[n].objects, c.tags(n);
    if prog == [] {
      ExecNothing(objs, tags);
      EmitNothing(s.queues, n);
    } else {
      var s', e := Next(c, s, Work(n)), Exec(objs, tags, prog[0]);
      UninterruptedWork(c, s', n);
      ExecFront(objs, tags, prog);
      EmitConcat(s.queues, n, e.sends, ExecAll(e.objects, tags, prog[1..]).sends);
    }
  }
}

/** The peer network in finer steps. The store unlocks before it fires the change hook, and the event
    loop looks an object up before it applies a diff to it, so other goroutines of the node may come
    in between; here each lookup, each apply and each send of a hook over a link is a step of its own. */
module HookNet {
  import opened Protocol
  import opened Worlds
  import opened PeerNode
  import opened GossipNet
  import opened Traffic
  import P = Peering

  /** Where the event loop is within an instruction: `Adopting` has found a diff newer than the local
      copy and not applied it yet; `Hooking` has stored a version, and its hook's broadcast is to be
      completed before what is `onward` is sent. */
  datatype Busy =
    | Idle
    | Adopting(diff: ObjectDiff, requestId: string, from: NodeId)
    | Hooking(objectId: string, version: nat, onward: seq<P.Send>)

  /** `hooks` are the messages of change hooks that have not reached the link's queue yet. */
  datatype Fine = Fine(net: Net, hooks: map<Link, seq<ObjectDiff>>, busy: map<NodeId, Busy>)

  ghost predicate FineShaped(c: Config, s: Fine) {
    Shaped(c, s.net) && s.hooks.Keys == c.links && s.busy.Keys == c.nodes
  }

  /** `Fire` puts one hook's message on one link, whichever the goroutine scheduler picks. */
  datatype FineStep = Plain(lab: Label) | Fire(link: Link, i: nat)

  predicate IsHookOf(d: ObjectDiff, objectId: string, version: nat) {
    d.objectId == objectId && d.version == version
  }

  /** The hook of this version has gone out over every link of the node. */
  ghost predicate Posted(s: Fine, n: NodeId, objectId: string, version: nat) {
    forall l, i :: l in s.hooks && l.src == n && 0 <= i < |s.hooks[l]| ==> !IsHookOf(s.hooks[l][i], objectId, version)
  }

  ghost predicate FineEnabled(s: Fine, step: FineStep) {
    match step
    case Fire(l, i) => l in s.hooks && l in s.net.queues && i < |s.hooks[l]|
    case Plain(Work(n)) =>
      && n in s.net.nodes && n in s.busy
      && (match s.busy[n]
          case Idle => s.net.nodes[n].prog != []
          case Adopting(_, _, _) => true
          case Hooking(x, v, _) => Posted(s, n, x, v))
    case Plain(Deliver(l, i)) => Enabled(s.net, step.lab) && l.dst in s.busy && s.busy[l.dst] == Idle
    case Plain(lab) => Enabled(s.net, lab)
  }

  function HookEnvelope(d: ObjectDiff): Envelope {
    Envelope("", WorldUpdate([d]), "")
  }

  predicate SameKeys(s: Fine, t: Fine) {
    && t.net.nodes.Keys == s.net.nodes.Keys && t.net.queues.Keys == s.net.queues.Keys
    && t.hooks.Keys == s.hooks.Keys && t.busy.Keys == s.busy.Keys
  }

  /** One `Apply` at a node: the store changes, the hook's messages are still to be sent. */
  function Stored(s: Fine, n: NodeId, req: UpdateRequest): (r: Fine)
    requires n in s.net.nodes
    ensures SameKeys(s, r)
  {
    var node := s.net.nodes[n];
    match Outcome(node.objects, req)
    case Refused(_) => s
    case Applied(o) =>
      Fine(s.net.(nodes := s.net.nodes[n := node.(objects := ApplyTo(node.objects, req))]),
           map l | l in s.hooks :: if l.src == n then s.hooks[l] + [HookDiff(o)] else s.hooks[l], s.busy)
  }

  function Popped(s: Fine, n: NodeId): (r: Fine)
    requires n in s.net.nodes && s.net.nodes[n].prog != []
    ensures SameKeys(s, r)
  {
    s.(net := s.net.(nodes := s.net.nodes[n := s.net.nodes[n].(prog := s.net.nodes[n].prog[1..])]))
  }

  /** One step of the event loop. */
  function Worked(c: Config, s: Fine, n: NodeId): (r: Fine)
    requires n in s.net.nodes && n in s.busy && (s.busy[n] == Idle ==> s.net.nodes[n].prog != [])
    ensures SameKeys(s, r)
  {
    hide Stored, Popped;
    var objs := s.net.nodes[n].objects;
    match s.busy[n]
    case Adopting(d, requestId, from) =>
      var t := Stored(s, n, RequestFor(d, c.tags(n)));
      var onward := [P.Send(Encode(requestId, WorldUpdate([d])), from)];
      t.(busy := t.busy[n := Hooking(d.objectId, Version(objs, d.objectId) + 1, onward)])
    case Hooking(_, _, onward) =>
      s.(net := s.net.(queues := Emit(s.net.queues, n, onward)), busy := s.busy[n := Idle])
    case Idle =>
      match s.net.nodes[n].prog[0]
      case Consider(d, requestId, from) =>
        if d.objectId in objs && objs[d.objectId].version >= d.version then Popped(s, n)
        else Popped(s, n).(busy := s.busy[n := Adopting(d, requestId, from)])
      case ApplyUpdate(req) =>
        var t := Stored(Popped(s, n), n, req);
        if Outcome(objs, req).Refused? then t
        else t.(busy := t.busy[n := Hooking(req.objectId, Version(objs, req.objectId) + 1, [])])
      case Relay(env, from) =>
        var t := Popped(s, n);
        t.(net := t.net.(queues := Emit(s.net.queues, n, [P.Send(Encode(env.requestId, env.body), from)])))
  }

  ghost function FineNext(c: Config, s: Fine, step: FineStep): (r: Fine)
    requires FineEnabled(s, step)
    ensures FineShaped(c, s) ==> FineShaped(c, r)
  {
    hide Stored, Worked, Next;
    match step
    case Fire(l, i) =>
      var queues := s.net.queues[l := s.net.queues[l] + [HookEnvelope(s.hooks[l][i])]];
      Fine(s.net.(queues := queues), s.hooks[l := Without(s.hooks[l], i)], s.busy)
    case Plain(LocalApply(n, req)) => Stored(s, n, req)
    case Plain(Work(n)) => Worked(c, s, n)
    case Plain(lab) =>
      NextKeys(c, s.net, lab);
      s.(net := Next(c, s.net, lab))
  }

  function FineInit(c: Config): Fine {
    Fine(Init(c), map l | l in c.links :: [], map n | n in c.nodes :: Idle)
  }

  /** The state after a run; a step that is not enabled changes nothing. */
  ghost function FineAfter(c: Config, run: seq<FineStep>): (r: Fine)
    ensures FineShaped(c, r)
  {
    if run == [] then FineInit(c)
    else
      var s := FineAfter(c, run[..|run| - 1]);
      if FineEnabled(s, run[|run| - 1]) then FineNext(c, s, run[|run| - 1]) else s
  }

  /** The same from any state on. */
  ghost function FineFrom(c: Config, s: Fine, steps: seq<FineStep>): Fine {
    if steps == [] then s
    else
      var t := FineFrom(c, s, steps[..|steps| - 1]);
      if FineEnabled(t, steps[|steps| - 1]) then FineNext(c, t, steps[|steps| - 1]) else t
  }

  /** Nothing queued, nothing being handled, no hook still to be sent. */
  ghost predicate FineQuiescent(s: Fine) {
    && Quiescent(s.net)
    && (forall l :: l in s.hooks ==> s.hooks[l] == [])
    && (forall n :: n in s.busy ==> s.busy[n] == Idle)
  }
}

/** A peer-mode node, from internal/peer/peer.go: how it reacts to its peers' messages and to
    its own results. */
module PeerNode {
  import opened Base
  import opened Protocol
  import opened Worlds
  import opened Merge
  import opened Gossips
  import P = Peering

  // ---------------------------------------------------------------------------
  // Specification: a message is a program of atomic instructions
  // ---------------------------------------------------------------------------

  /** `Consider` handles one diff of a world update, `ApplyUpdate` one update of a submission,
      `Relay` forwards a submission. */
  datatype Instr =
    | Consider(diff: ObjectDiff, requestId: string, from: string)
    | ApplyUpdate(req: UpdateRequest)
    | Relay(env: Envelope, from: string)

  function Considers(ds: seq<ObjectDiff>, requestId: string, from: string): seq<Instr> {
    if ds == [] then []
    else Considers(ds[..|ds| - 1], requestId, from) + [Consider(ds[|ds| - 1], requestId, from)]
  }

  function Applies(us: seq<UpdateRequest>): seq<Instr> {
    if us == [] then [] else Applies(us[..|us| - 1]) + [ApplyUpdate(us[|us| - 1])]
  }

  function SubmissionOf(body: Body, owner: string): Submission
    requires body.SubmitResult?
  {
    Submission(body.taskId, owner, body.data, body.meta)
  }

  /** The updates a submission leads to: none when the merge function rejects it. */
  function UpdatesOf(merge: MergeFunc, sub: Submission): seq<UpdateRequest> {
    var decision := merge(sub);
    if decision.accept then decision.updates else []
  }

  /** The instructions one message stands for, once it has passed de-duplication. */
  function Program(merge: MergeFunc, env: Envelope, from: string): seq<Instr> {
    match env.body
    case WorldUpdate(ds) => Considers(ds, env.requestId, from)
    case SubmitResult(_, _, _) =>
      Applies(UpdatesOf(merge, SubmissionOf(env.body, from))) + [Relay(env, from)]
    case Unhandled(_) => []
  }

  datatype Effect = Effect(objects: Objects, sends: seq<P.Send>)

  /** The broadcast made by the change hook for one event. */
  function HookSends(evt: ChangeEvent): seq<P.Send> {
    if evt.kind.Deleted? then []
    else [P.Send(Encode("", WorldUpdate([ObjectDiff(evt.obj.id, evt.obj.data, evt.obj.version, evt.obj.meta)])), "")]
  }

  function HookAll(events: seq<ChangeEvent>): seq<P.Send> {
    if events == [] then [] else HookAll(events[..|events| - 1]) + HookSends(events[|events| - 1])
  }

  function RequestFor(diff: ObjectDiff, tags: Option<seq<string>>): UpdateRequest {
    UpdateRequest(diff.objectId, diff.data, 0, tags, diff.meta)
  }

  /** One atomic instruction: a store change together with the broadcasts it causes. */
  function Exec(objs: Objects, tags: Option<seq<string>>, instr: Instr): Effect {
    match instr
    case Consider(d, requestId, from) =>
      if d.objectId in objs && objs[d.objectId].version >= d.version then Effect(objs, [])
      else
        var req := RequestFor(d, tags);
        Effect(ApplyTo(objs, req), HookAll(ApplyEvents(objs, req))
               + [P.Send(Encode(requestId, WorldUpdate([d])), from)])
    case ApplyUpdate(req) => Effect(ApplyTo(objs, req), HookAll(ApplyEvents(objs, req)))
    case Relay(env, from) => Effect(objs, [P.Send(Encode(env.requestId, env.body), from)])
  }

  function ExecAll(objs: Objects, tags: Option<seq<string>>, prog: seq<Instr>): Effect {
    if prog == [] then Effect(objs, [])
    else
      var e := ExecAll(objs, tags, prog[..|prog| - 1]);
      var f := Exec(e.objects, tags, prog[|prog| - 1]);
      Effect(f.objects, e.sends + f.sends)
  }

  /** How a changed object is announced: with the version it has here, its absent data as `null`, its empty
      meta left out. */
  function NewsOf(o: Object): Envelope {
    var data := if o.data.None? then JSON_NULL else o.data.value;
    var meta := if o.meta == Some([]) then None else o.meta;
    Envelope("", WorldUpdate([ObjectDiff(o.id, Some(data), o.version, meta)]), "")
  }

  /** A submission as it is passed on, under its own request id. */
  function Forwarded(env: Envelope): Envelope
    requires env.body.SubmitResult?
  {
    var data := if env.body.data.None? then JSON_NULL else env.body.data.value;
    var meta := if env.body.meta == Some([]) then None else env.body.meta;
    Envelope(env.requestId, Body.SubmitResult(env.body.taskId, Some(data), meta), "")
  }

  /** Each peer but the sender gets the submission, if it is open and has room for it and for an announcement of
      each of the `n` updates that may come before it. */
  ghost predicate HandsOn(before: P.Links, after: P.Links, env: Envelope, from: string, n: nat)
    requires env.body.SubmitResult?
  {
    && after.Keys == before.Keys
    && forall k :: k in before && k != from && P.HasRoom(before[k], n + 1) ==>
         var was, now := before[k].outbox, after[k].outbox;
         was <= now && |was| < |now| <= |was| + n + 1 && now[|now| - 1] == Forwarded(env)
  }

  /** The object made of a diff: what the diff and the node's tags leave absent stays as it was. */
  predicate Adopted(o: Object, d: ObjectDiff, tags: Option<seq<string>>, was: Option<Object>) {
    && o.id == d.objectId
    && o.version == (if was.Some? then was.value.version else 0) + 1
    && o.data == (if d.data.None? && was.Some? then was.value.data else d.data)
    && o.meta == (if d.meta.None? && was.Some? then was.value.meta else d.meta)
    && o.tags == if tags.None? && was.Some? then was.value.tags else tags
  }

  /** Each open peer with room gets the object's news, and each but the sender the diff as well. */
  ghost predicate SpreadsNews(before: P.Links, after: P.Links, o: Object, d: ObjectDiff, requestId: string,
                              from: string)
  {
    var data := if d.data.None? then JSON_NULL else d.data.value;
    var meta := if d.meta == Some([]) then None else d.meta;
    var onward := Envelope(requestId, WorldUpdate([ObjectDiff(d.objectId, Some(data), d.version, meta)]), "");
    && after.Keys == before.Keys
    && forall k :: k in before && k != "" && P.HasRoom(before[k], 2) ==>
         P.Grew(before[k], after[k], [NewsOf(o)] + if k == from then [] else [onward])
  }

  // ---------------------------------------------------------------------------
  // The node
  // ---------------------------------------------------------------------------

  class Node {
    const world: World
    const coord: Coordinator
    const gossip: Gossip
    const mgr: P.Manager
    const tags: Option<seq<string>>

    constructor (world: World, coord: Coordinator, mgr: P.Manager, gossip: Gossip, tags: Option<seq<string>>)
      requires coord.world == world && mgr.Valid()
      ensures Valid()
      ensures this.world == world && this.coord == coord && this.mgr == mgr && this.gossip == gossip
      ensures this.tags == tags
    {
      this.world, this.coord, this.mgr, this.gossip, this.tags := world, coord, mgr, gossip, tags;
    }

    ghost predicate Valid()
      reads this, mgr, mgr.peers.Values
    {
      coord.world == world && mgr.Valid()
    }

    /** The change hook that `Run` registers. */
    method OnChange(evt: ChangeEvent)
      requires Valid()
      modifies mgr.peers.Values
      ensures Valid() && mgr.Links() == P.SentAll(old(mgr.Links()), HookSends(evt))
      ensures evt.kind == Deleted ==> mgr.Links() == old(mgr.Links())
      ensures evt.kind != Deleted ==> P.Tells(old(mgr.Links()), mgr.Links(), NewsOf(evt.obj), "")
    {
      hide P.Tells;
      if evt.kind != Deleted {
        var diff := ObjectDiff(evt.obj.id, evt.obj.data, evt.obj.version, evt.obj.meta);
        WireOne(diff);
        assert Encode("", WorldUpdate([diff])) == NewsOf(evt.obj);
        mgr.BroadcastExcept(Encode("", WorldUpdate([diff])), "");
        assert P.SentAll(old(mgr.Links()), []) == old(mgr.Links());
      }
    }

    method OnChanges(events: seq<ChangeEvent>)
      requires Valid()
      modifies mgr.peers.Values
      ensures Valid() && mgr.Links() == P.SentAll(old(mgr.Links()), HookAll(events))
    {
      for i := 0 to |events|
        invariant Valid() && mgr.Links() == P.SentAll(old(mgr.Links()), HookAll(events[..i]))
      {
        assert events[..i + 1][..i] == events[..i];
        P.SentAllConcat(old(mgr.Links()), HookAll(events[..i]), HookSends(events[i]));
        OnChange(events[i]);
      }
      assert events[..|events|] == events;
    }

    /** A message already seen changes nothing but is still in the table; a new one runs its
        program from start to end. */
    method HandlePeerMessage(from: string, env: Envelope, now: nat)
      requires Valid()
      modifies world, gossip, mgr.peers.Values
      ensures Valid()
      ensures gossip.seen == Noted(old(gossip.seen), IdOf(env), now)
      ensures IdOf(env) in old(gossip.seen) ==> world.objects == old(world.objects) && mgr.Links() == old(mgr.Links())
      ensures IdOf(env) !in old(gossip.seen) ==>
                var e := ExecAll(old(world.objects), tags, Program(coord.mergeFunc, env, from));
                world.objects == e.objects && mgr.Links() == P.SentAll(old(mgr.Links()), e.sends)
      ensures env.body.Unhandled? ==> world.objects == old(world.objects) && mgr.Links() == old(mgr.Links())
      ensures IdOf(env) !in old(gossip.seen) && env.body.SubmitResult? ==>
                var sub := Submission(env.body.taskId, from, env.body.data, env.body.meta);
                var decision := coord.mergeFunc(sub);
                if decision.accept then
                  && world.objects == ApplyAll(old(world.objects), decision.updates)
                  && HandsOn(old(mgr.Links()), mgr.Links(), env, from, |decision.updates|)
                else
                  world.objects == old(world.objects) && P.Tells(old(mgr.Links()), mgr.Links(), Forwarded(env), from)
    {
      hide P.Tells, HandsOn, P.SentAll, ExecAll;
      ExecNothing(world.objects, tags);
      NothingSent(mgr.Links());
      var first := gossip.ShouldForward(env, now);
      if !first {
        return;
      }
      match env.body
      case WorldUpdate(_) => HandleWorldUpdate(from, env);
      case SubmitResult(_, _, _) => HandleRemoteSubmit(from, env);
      case Unhandled(_) =>
    }

    method HandleWorldUpdate(from: string, env: Envelope)
      requires Valid() && env.body.WorldUpdate?
      modifies world, mgr.peers.Values
      ensures Valid()
      ensures var e := ExecAll(old(world.objects), tags, Considers(env.body.objects, env.requestId, from));
              world.objects == e.objects && mgr.Links() == P.SentAll(old(mgr.Links()), e.sends)
    {
      hide Exec, ExecAll, Considers, P.SentAll;
      var ds := env.body.objects;
      ghost var links, objs := mgr.Links(), world.objects;
      assert ds[..0] == [];
      ExecNothing(objs, tags);
      NothingSent(links);
      NothingConsidered(env.requestId, from);
      for i := 0 to |ds|
        invariant Valid()
        invariant world.objects == ExecAll(objs, tags, Considers(ds[..i], env.requestId, from)).objects
        invariant mgr.Links() == P.SentAll(links, ExecAll(objs, tags, Considers(ds[..i], env.requestId, from)).sends)
      {
        ghost var before := ExecAll(objs, tags, Considers(ds[..i], env.requestId, from));
        assert ds[..i + 1] == ds[..i] + [ds[i]];
        ConsidersSnoc(objs, tags, ds[..i], ds[i], env.requestId, from);
        P.SentAllConcat(links, before.sends, Exec(before.objects, tags, Consider(ds[i], env.requestId, from)).sends);
        ConsiderDiff(from, env.requestId, ds[i]);
      }
      assert ds[..|ds|] == ds;
    }

    /** One round of the loop over the diffs of a world update. A diff that is news is applied with this node's
        tags and without a version check; the change is announced to all, the diff passed on to all but the sender. */
    method ConsiderDiff(from: string, requestId: string, diff: ObjectDiff)
      requires Valid()
      modifies world, mgr.peers.Values
      ensures Valid()
      ensures var id, objs := diff.objectId, old(world.objects);
              if id in objs && objs[id].version >= diff.version then
                world.objects == objs && mgr.Links() == old(mgr.Links())
              else
                && id in world.objects && world.objects == objs[id := world.objects[id]]
                && Adopted(world.objects[id], diff, tags, if id in objs then Some(objs[id]) else None)
                && SpreadsNews(old(mgr.Links()), mgr.Links(), world.objects[id], diff, requestId, from)
      ensures var e := Exec(old(world.objects), tags, Consider(diff, requestId, from));
              world.objects == e.objects && mgr.Links() == P.SentAll(old(mgr.Links()), e.sends)
    {
      hide Exec, P.Sent, P.SentAll, HookAll, Encode, Outcome, ApplyTo, ApplyEvents;
      ghost var links := mgr.Links();
      NothingSent(links);
      ConsiderEffect(world.objects, tags, diff, requestId, from);
      var existing := world.Get(diff.objectId);
      if existing.Some? && existing.value.version >= diff.version {
        return;
      }
      var req := RequestFor(diff, tags);
      var _, fired := world.Apply(req);
      OnChanges(fired);
      DiffAdopted(old(world.objects), tags, diff, links, requestId, from);
      var onward := Encode(requestId, WorldUpdate([diff]));
      mgr.BroadcastExcept(onward, from);
      SentAllSnoc(links, HookAll(fired), P.Send(onward, from));
    }

    method HandleRemoteSubmit(from: string, env: Envelope)
      requires Valid() && env.body.SubmitResult?
      modifies world, mgr.peers.Values
      ensures Valid()
      ensures var e := ExecAll(old(world.objects), tags, Program(coord.mergeFunc, env, from));
              world.objects == e.objects && mgr.Links() == P.SentAll(old(mgr.Links()), e.sends)
      ensures var sub := Submission(env.body.taskId, from, env.body.data, env.body.meta);
              var decision := coord.mergeFunc(sub);
              if decision.accept then
                && world.objects == ApplyAll(old(world.objects), decision.updates)
                && HandsOn(old(mgr.Links()), mgr.Links(), env, from, |decision.updates|)
              else
                world.objects == old(world.objects) && P.Tells(old(mgr.Links()), mgr.Links(), Forwarded(env), from)
    {
      hide P.Tells, HandsOn, P.SentAll, ExecAll;
      ghost var links, objs := mgr.Links(), world.objects;
      var sub := SubmissionOf(env.body, from);
      ghost var us := UpdatesOf(coord.mergeFunc, sub);
      Submit(sub);
      mgr.BroadcastExcept(Encode(env.requestId, env.body), from);
      SubmitProgram(objs, tags, us, env, from);
      SentAllSnoc(links, HookAll(AllEvents(objs, us)), P.Send(Encode(env.requestId, env.body), from));
      ReallyHandedOn(links, objs, us, env, from);
      NothingSent(links);
    }

    method SubmitLocalResult(taskId: string, data: Option<Bytes>)
      requires Valid()
      modifies world, mgr.peers.Values
      ensures Valid()
      ensures var us := UpdatesOf(coord.mergeFunc, Submission(taskId, "local", data, None));
              var e := ExecAll(old(world.objects), tags, Applies(us));
              world.objects == e.objects && mgr.Links() == P.SentAll(old(mgr.Links()), e.sends)
    {
      var sub := Submission(taskId, "local", data, None);
      ExecApplies(world.objects, tags, UpdatesOf(coord.mergeFunc, sub));
      Submit(sub);
    }

    /** The coordinator applies the updates; the hook broadcasts each change. */
    method Submit(sub: Submission)
      requires Valid()
      modifies world, mgr.peers.Values
      ensures Valid()
      ensures var us := UpdatesOf(coord.mergeFunc, sub);
              && world.objects == ApplyAll(old(world.objects), us)
              && mgr.Links() == P.SentAll(old(mgr.Links()), HookAll(AllEvents(old(world.objects), us)))
    {
      var _, fired := coord.Submit(sub);
      OnChanges(fired);
    }
  }

  lemma {:induction false} FewHooks(objs: Objects, us: seq<UpdateRequest>)
    ensures |HookAll(AllEvents(objs, us))| <= |us|
  {
    if us != [] {
      var init := us[..|us| - 1];
      FewHooks(objs, init);
      HookAllConcat(AllEvents(objs, init), ApplyEvents(ApplyAll(objs, init), us[|us| - 1]));
      OneHook(ApplyAll(objs, init), us[|us| - 1]);
    }
  }

  lemma OneHook(objs: Objects, req: UpdateRequest)
    ensures |HookAll(ApplyEvents(objs, req))| <= 1
  {
    assert forall evt: ChangeEvent :: [evt][..0] == [];
  }

  lemma ReallyHandedOn(links: P.Links, objs: Objects, us: seq<UpdateRequest>, env: Envelope, from: string)
    requires env.body.SubmitResult?
    ensures var mid := P.SentAll(links, HookAll(AllEvents(objs, us)));
            HandsOn(links, P.Sent(mid, P.Send(Encode(env.requestId, env.body), from)), env, from, |us|)
  {
    var sends := HookAll(AllEvents(objs, us));
    var mid := P.SentAll(links, sends);
    FewHooks(objs, us);
    P.SentTells(mid, Encode(env.requestId, env.body), from);
    hide P.SentAll, P.Sent, HookAll, AllEvents;
    SentAllKeys(links, sends);
    forall k | k in links { P.SentAllAdds(links, sends, k); }
  }

  lemma {:induction false} SentAllKeys(links: P.Links, sends: seq<P.Send>)
    ensures P.SentAll(links, sends).Keys == links.Keys
  {
    if sends != [] { SentAllKeys(links, sends[..|sends| - 1]); }
  }

  lemma SentAllSnoc(links: P.Links, sends: seq<P.Send>, s: P.Send)
    ensures P.SentAll(links, sends + [s]) == P.Sent(P.SentAll(links, sends), s)
  {
    assert (sends + [s])[..|sends|] == sends;
  }

  lemma ConsiderEffect(objs: Objects, tags: Option<seq<string>>, d: ObjectDiff, requestId: string, from: string)
    ensures var req := RequestFor(d, tags);
            Exec(objs, tags, Consider(d, requestId, from)) ==
            if d.objectId in objs && objs[d.objectId].version >= d.version then Effect(objs, [])
            else Effect(ApplyTo(objs, req), HookAll(ApplyEvents(objs, req))
                        + [P.Send(Encode(requestId, WorldUpdate([d])), from)])
  {
  }

  lemma DiffAdopted(objs: Objects, tags: Option<seq<string>>, d: ObjectDiff, links: P.Links, requestId: string,
                    from: string)
    ensures var id, req := d.objectId, RequestFor(d, tags);
            var after, mid := ApplyTo(objs, req), P.SentAll(links, HookAll(ApplyEvents(objs, req)));
            && id in after && after == objs[id := after[id]]
            && Adopted(after[id], d, tags, if id in objs then Some(objs[id]) else None)
            && SpreadsNews(links, P.Sent(mid, P.Send(Encode(requestId, WorldUpdate([d])), from)), after[id], d,
                           requestId, from)
  {
    var req := RequestFor(d, tags);
    var o := ApplyTo(objs, req)[d.objectId];
    var evt := ApplyEvents(objs, req)[0];
    assert ApplyEvents(objs, req) == [evt] && evt.obj == o && !evt.kind.Deleted?;
    HookIsNews(links, evt);
    TwoTellings(links, o, d, requestId, from);
  }

  lemma HookIsNews(links: P.Links, evt: ChangeEvent)
    requires !evt.kind.Deleted?
    ensures P.SentAll(links, HookAll([evt])) == P.Sent(links, P.Send(NewsOf(evt.obj), ""))
  {
    var diff := ObjectDiff(evt.obj.id, evt.obj.data, evt.obj.version, evt.obj.meta);
    WireOne(diff);
    assert [evt][..0] == [];
    assert HookAll([evt]) == HookAll([]) + HookSends(evt);
    NothingSent(links);
    SentAllSnoc(links, [], P.Send(NewsOf(evt.obj), ""));
  }

  lemma TwoTellings(links: P.Links, o: Object, d: ObjectDiff, requestId: string, from: string)
    ensures var onward := Encode(requestId, WorldUpdate([d]));
            var told := P.Sent(links, P.Send(NewsOf(o), ""));
            SpreadsNews(links, P.Sent(told, P.Send(onward, from)), o, d, requestId, from)
  {
    hide NewsOf, P.Grew, P.Sent;
    var news, onward := NewsOf(o), Encode(requestId, WorldUpdate([d]));
    WireOne(d);
    forall k | k in links && k != "" && P.HasRoom(links[k], 2)
      ensures k in P.Sent(links, P.Send(news, "")) && k in P.Sent(P.Sent(links, P.Send(news, "")), P.Send(onward, from))
      ensures P.Grew(links[k], P.Sent(P.Sent(links, P.Send(news, "")), P.Send(onward, from))[k],
                     [news] + if k == from then [] else [onward])
    {
      TwoToOne(links, news, onward, from, k);
    }
    P.SentTells(links, news, "");
    P.SentTells(P.Sent(links, P.Send(news, "")), onward, from);
  }

  lemma TwoToOne(links: P.Links, news: Envelope, onward: Envelope, from: string, k: string)
    requires k in links && k != "" && P.HasRoom(links[k], 2)
    ensures k in P.Sent(links, P.Send(news, "")) && k in P.Sent(P.Sent(links, P.Send(news, "")), P.Send(onward, from))
    ensures P.Grew(links[k], P.Sent(P.Sent(links, P.Send(news, "")), P.Send(onward, from))[k],
                   [news] + if k == from then [] else [onward])
  {
  }

  lemma NothingSent(links: P.Links)
    ensures P.SentAll(links, []) == links
  {
  }

  lemma NothingConsidered(requestId: string, from: string)
    ensures Considers([], requestId, from) == []
  {
  }

  lemma ConsidersSnoc(objs: Objects, tags: Option<seq<string>>, ds: seq<ObjectDiff>, d: ObjectDiff, requestId: string,
                      from: string)
    ensures var e := ExecAll(objs, tags, Considers(ds, requestId, from));
            var f := Exec(e.objects, tags, Consider(d, requestId, from));
            ExecAll(objs, tags, Considers(ds + [d], requestId, from)) == Effect(f.objects, e.sends + f.sends)
  {
    assert (ds + [d])[..|ds|] == ds;
    var prog := Considers(ds + [d], requestId, from);
    assert prog[..|prog| - 1] == Considers(ds, requestId, from);
  }

  lemma {:induction false} HookAllConcat(a: seq<ChangeEvent>, b: seq<ChangeEvent>)
    ensures HookAll(a + b) == HookAll(a) + HookAll(b)
  {
    if b == [] {
      assert a + b == a;
    } else {
      assert (a + b)[..|a + b| - 1] == a + b[..|b| - 1];
      HookAllConcat(a, b[..|b| - 1]);
    }
  }

  /** The update instructions of a submission do what the coordinator does with the batch, and
      broadcast every change. */
  lemma {:induction false} ExecApplies(objs: Objects, tags: Option<seq<string>>, us: seq<UpdateRequest>)
    ensures ExecAll(objs, tags, Applies(us)) == Effect(ApplyAll(objs, us), HookAll(AllEvents(objs, us)))
  {
    if us != [] {
      var init, last := us[..|us| - 1], us[|us| - 1];
      ExecApplies(objs, tags, init);
      assert Applies(us)[..|Applies(us)| - 1] == Applies(init);
      HookAllConcat(AllEvents(objs, init), ApplyEvents(ApplyAll(objs, init), last));
    }
  }

  lemma SubmitProgram(objs: Objects, tags: Option<seq<string>>, us: seq<UpdateRequest>, env: Envelope, from: string)
    ensures ExecAll(objs, tags, Applies(us) + [Relay(env, from)])
         == Effect(ApplyAll(objs, us), HookAll(AllEvents(objs, us)) + [P.Send(Encode(env.requestId, env.body), from)])
  {
    ExecApplies(objs, tags, us);
    assert (Applies(us) + [Relay(env, from)])[..|Applies(us)|] == Applies(us);
  }

  lemma ExecNothing(objs: Objects, tags: Option<seq<string>>)
    ensures ExecAll(objs, tags, []) == Effect(objs, [])
  {
  }

  lemma ExecSnoc(objs: Objects, tags: Option<seq<string>>, prog: seq<Instr>, last: Instr)
    ensures var e := ExecAll(objs, tags, prog);
            var f := Exec(e.objects, tags, last);
            ExecAll(objs, tags, prog + [last]) == Effect(f.objects, e.sends + f.sends)
  {
    assert (prog + [last])[..|prog|] == prog;
  }

  /** A program may be run from its first instruction on, which is how a network interleaves it
      with other activity. */
  lemma {:induction false} ExecFront(objs: Objects, tags: Option<seq<string>>, prog: seq<Instr>)
    requires prog != []
    ensures var e := Exec(objs, tags, prog[0]);
            var f := ExecAll(e.objects, tags, prog[1..]);
            ExecAll(objs, tags, prog) == Effect(f.objects, e.sends + f.sends)
    decreases |prog|
  {
    hide *;
    var e := Exec(objs, tags, prog[0]);
    if |prog| == 1 {
      ExecNothing(objs, tags);
      ExecNothing(e.objects, tags);
      ExecSnoc(objs, tags, [], prog[0]);
      assert prog == [] + [prog[0]] && prog[1..] == [];
    } else {
      var mid, last := prog[1..|prog| - 1], prog[|prog| - 1];
      ExecFront(objs, tags, [prog[0]] + mid);
      var f := ExecAll(e.objects, tags, mid);
      assert ([prog[0]] + mid)[1..] == mid;
      assert ExecAll(objs, tags, [prog[0]] + mid) == Effect(f.objects, e.sends + f.sends);
      ExecSnoc(objs, tags, [prog[0]] + mid, last);
      ExecSnoc(e.objects, tags, mid, last);
      assert prog == [prog[0]] + mid + [last] && prog[1..] == mid + [last];
      assert forall g: seq<P.Send> :: (e.sends + f.sends) + g == e.sends + (f.sends + g);
    }
  }
}

/** How a step of the network changes the diffs on their way over each link. */
module Traffic {
  import opened Base
  import opened Protocol
  import opened Worlds
  import opened Merge
  import opened PeerNode
  import opened GossipNet
  import P = Peering

  function HookDiff(o: Object): ObjectDiff {
    WireDiff(ObjectDiff(o.id, o.data, o.version, o.meta))
  }

  lemma HookOf(objs: Objects, req: UpdateRequest)
    ensures var out, sends := Outcome(objs, req), HookAll(ApplyEvents(objs, req));
            && (out.Refused? ==> sends == [])
            && (out.Applied? ==>
                  && |sends| == 1 && sends[0].except == ""
                  && sends[0].env == Envelope("", WorldUpdate([HookDiff(out.obj)]), ""))
  {
    var events := ApplyEvents(objs, req);
    if Outcome(objs, req).Applied? {
      assert events[..0] == [];
      var o := Outcome(objs, req).obj;
      assert WireDiffs([ObjectDiff(o.id, o.data, o.version, o.meta)]) == [HookDiff(o)];
    }
  }

  /** The diffs one instruction sends to a neighbour: the hook's, then the forwarded one. */
  function SentDiffs(objs: Objects, tags: Option<seq<string>>, instr: Instr, dst: NodeId): seq<ObjectDiff> {
    match instr
    case Consider(d, _, from) =>
      if d.version <= Version(objs, d.objectId) && d.objectId in objs then []
      else
        [HookDiff(Outcome(objs, RequestFor(d, tags)).obj)] + (if from == dst then [] else [WireDiff(d)])
    case ApplyUpdate(req) => if Outcome(objs, req).Applied? then [HookDiff(Outcome(objs, req).obj)] else []
    case Relay(env, from) => if from == dst then [] else BodyDiffs(WireBody(env.body))
  }

  lemma AddressedTwo(a: P.Send, b: P.Send, dst: NodeId)
    ensures Addressed([a], dst) == if a.except == dst then [] else [a.env]
    ensures Addressed([a, b], dst)
              == (if a.except == dst then [] else [a.env]) + (if b.except == dst then [] else [b.env])
  {
    assert [a][1..] == [] && [a, b][1..] == [b] && [b][1..] == [];
    assert Addressed([b], dst) == (if b.except == dst then [] else [b.env]) + [];
  }

  lemma QueueDiffsTwo(a: Envelope, b: Envelope)
    ensures QueueDiffs([]) == []
    ensures QueueDiffs([a]) == BodyDiffs(a.body)
    ensures QueueDiffs([a, b]) == BodyDiffs(a.body) + BodyDiffs(b.body)
  {
    assert [a][1..] == [] && [a, b][1..] == [b] && [b][1..] == [];
    assert QueueDiffs([b]) == BodyDiffs(b.body) + [];
  }

  lemma ConsiderSends(objs: Objects, tags: Option<seq<string>>, d: ObjectDiff, requestId: string, from: NodeId,
                      dst: NodeId)
    requires dst != "" && !(d.objectId in objs && d.version <= Version(objs, d.objectId))
    ensures QueueDiffs(Addressed(Exec(objs, tags, Consider(d, requestId, from)).sends, dst))
         == SentDiffs(objs, tags, Consider(d, requestId, from), dst)
  {
    var sends := Exec(objs, tags, Consider(d, requestId, from)).sends;
    var onward := P.Send(Encode(requestId, WorldUpdate([d])), from);
    HookOf(objs, RequestFor(d, tags));
    assert WireDiffs([d]) == [WireDiff(d)];
    assert sends == [sends[0], onward];
    AddressedTwo(sends[0], onward, dst);
    QueueDiffsTwo(sends[0].env, onward.env);
  }

  lemma SendsAre(objs: Objects, tags: Option<seq<string>>, instr: Instr, dst: NodeId)
    requires dst != ""
    ensures QueueDiffs(Addressed(Exec(objs, tags, instr).sends, dst)) == SentDiffs(objs, tags, instr, dst)
  {
    var sends := Exec(objs, tags, instr).sends;
    match instr
    case Consider(d, requestId, from) =>
      if d.objectId in objs && d.version <= Version(objs, d.objectId) {
        assert sends == [];
      } else {
        ConsiderSends(objs, tags, d, requestId, from, dst);
      }
    case ApplyUpdate(req) =>
      HookOf(objs, req);
      if Outcome(objs, req).Applied? {
        assert sends == [sends[0]];
        AddressedTwo(sends[0], sends[0], dst);
        QueueDiffsTwo(sends[0].env, sends[0].env);
      }
    case Relay(env, from) =>
      AddressedTwo(sends[0], sends[0], dst);
      QueueDiffsTwo(sends[0].env, sends[0].env);
  }

  /** `instr` is the program's next instruction, or an apply that runs beside the program. */
  ghost predicate Splits(prog: seq<Instr>, instr: Instr, rest: seq<Instr>) {
    prog == [instr] + rest || (instr.ApplyUpdate? && rest == prog)
  }

  lemma SplitDiffs(prog: seq<Instr>, instr: Instr, rest: seq<Instr>, from: NodeId)
    requires Splits(prog, instr, rest)
    ensures ProgDiffs(prog, from)
              == (if instr.Consider? && instr.from == from then [instr.diff] else []) + ProgDiffs(rest, from)
  {
    if prog == [instr] + rest {
      assert prog[1..] == rest;
    }
  }

  /** The node and instruction of the steps that run one. */
  predicate Acts(lab: Label) {
    lab.LocalApply? || lab.Work?
  }

  function Acting(s: Net, lab: Label): Instr
    requires Enabled(s, lab) && Acts(lab)
  {
    if lab.LocalApply? then ApplyUpdate(lab.req) else s.nodes[lab.n].prog[0]
  }

  function Remaining(s: Net, lab: Label): seq<Instr>
    requires Enabled(s, lab) && Acts(lab)
  {
    if lab.LocalApply? then s.nodes[lab.n].prog else s.nodes[lab.n].prog[1..]
  }

  lemma ActingSplits(c: Config, s: Net, lab: Label)
    requires Enabled(s, lab) && Acts(lab)
    ensures Splits(s.nodes[lab.n].prog, Acting(s, lab), Remaining(s, lab))
    ensures Next(c, s, lab) == Perform(c, s, lab.n, Acting(s, lab), Remaining(s, lab))
  {
    if lab.Work? {
      var prog := s.nodes[lab.n].prog;
      assert prog == [prog[0]] + prog[1..];
    }
  }

  lemma NothingAtFirst(c: Config, l: Link)
    requires WellFormed(c) && l in c.links
    ensures LinkDiffs(Init(c), l) == []
  {
  }

  /** What one instruction does to the diffs on each link: it takes its own diff off the front of
      the link it came over, and puts its sends at the end of every link out of its node. */
  lemma PerformDiffs(c: Config, s: Net, n: NodeId, instr: Instr, rest: seq<Instr>, l: Link)
    requires WellFormed(c) && Shaped(c, s) && n in s.nodes && l in c.links
    requires Splits(s.nodes[n].prog, instr, rest)
    ensures var s' := Perform(c, s, n, instr, rest);
            && Shaped(c, s')
            && (l.dst == n ==>
                  var taken := if instr.Consider? && instr.from == l.src then [instr.diff] else [];
                  LinkDiffs(s, l) == taken + LinkDiffs(s', l))
            && (l.src == n ==>
                 LinkDiffs(s', l) == LinkDiffs(s, l) + SentDiffs(s.nodes[n].objects, c.tags(n), instr, l.dst))
            && (l.dst != n && l.src != n ==> LinkDiffs(s', l) == LinkDiffs(s, l))
  {
    hide Exec, ProgDiffs, QueueDiffs, SentDiffs, Splits;
    var s' := Perform(c, s, n, instr, rest);
    var e := Exec(s.nodes[n].objects, c.tags(n), instr);
    if l.dst == n {
      SplitDiffs(s.nodes[n].prog, instr, rest, l.src);
      assert s'.queues[l] == s.queues[l];
      Associative(if instr.Consider? && instr.from == l.src then [instr.diff] else [], ProgDiffs(rest, l.src),
                  QueueDiffs(s.queues[l]));
    } else if l.src == n {
      SendsAre(s.nodes[n].objects, c.tags(n), instr, l.dst);
      QueueDiffsConcat(s.queues[l], Addressed(e.sends, l.dst));
      Associative(ProgDiffs(s.nodes[l.dst].prog, l.src), QueueDiffs(s.queues[l]),
                  SentDiffs(s.nodes[n].objects, c.tags(n), instr, l.dst));
    }
  }

  lemma {:induction false} WithoutDiffs(q: seq<Envelope>, i: nat)
    requires i < |q|
    ensures QueueDiffs(q) == QueueDiffs(q[..i]) + BodyDiffs(q[i].body) + QueueDiffs(q[i + 1..])
    ensures QueueDiffs(Without(q, i)) == QueueDiffs(q[..i]) + QueueDiffs(q[i + 1..])
  {
    assert q == q[..i] + q[i..];
    assert q[i..][0] == q[i] && q[i..][1..] == q[i + 1..];
    QueueDiffsConcat(q[..i], q[i..]);
    QueueDiffsConcat(q[..i], q[i + 1..]);
    assert QueueDiffs(q[i..]) == BodyDiffs(q[i].body) + QueueDiffs(q[i + 1..]);
    Associative(QueueDiffs(q[..i]), BodyDiffs(q[i].body), QueueDiffs(q[i + 1..]));
  }

  /** Over any network, lossy or not, a diff on a link was there before or has just been sent by
      the node that acted. */
  lemma NewDiffs(c: Config, s: Net, lab: Label, l: Link, d: ObjectDiff)
    requires WellFormed(c) && Shaped(c, s) && Enabled(s, lab) && l in c.links
    requires Shaped(c, Next(c, s, lab)) && d in LinkDiffs(Next(c, s, lab), l)
    ensures d in LinkDiffs(s, l)
         || (Acts(lab) && lab.n == l.src
              && d in SentDiffs(s.nodes[lab.n].objects, c.tags(lab.n), Acting(s, lab), l.dst))
  {
    hide Exec, SentDiffs, ProgDiffs, QueueDiffs, Program;
    var s' := Next(c, s, lab);
    match lab
    case LocalApply(n, _) =>
      ActingSplits(c, s, lab);
      PerformDiffs(c, s, n, Acting(s, lab), Remaining(s, lab), l);
    case Work(n) =>
      ActingSplits(c, s, lab);
      PerformDiffs(c, s, n, Acting(s, lab), Remaining(s, lab), l);
    case Announce(n, env) =>
      if l.src == n {
        AddressedTwo(P.Send(env, ""), P.Send(env, ""), l.dst);
        QueueDiffsTwo(env, env);
        QueueDiffsConcat(s.queues[l], [env]);
      }
    case Deliver(k, i) =>
      WithoutDiffs(s.queues[k], i);
      var env := s.queues[k][i];
      ProgramDiffs(c.merge(k.dst), env, k.src, l.src);
    case Forget(_, _) =>
    case Lose(k, i) => WithoutDiffs(s.queues[k], i);
    case Duplicate(k, i) =>
      WithoutDiffs(s.queues[k], i);
      QueueDiffsTwo(s.queues[k][i], s.queues[k][i]);
      QueueDiffsConcat(s.queues[k], [s.queues[k][i]]);
  }

  /** Taking a link's first message, or any message of another link, loses a link's diffs only when the
      message is skipped as seen. */
  lemma ReceiveDiffs(c: Config, s: Net, k: Link, i: nat, l: Link)
    requires WellFormed(c) && Shaped(c, s) && Enabled(s, Deliver(k, i)) && l in c.links && (k == l ==> i == 0)
    requires Shaped(c, Receive(c, s, k, i))
    ensures var env := s.queues[k][i];
            LinkDiffs(s, l) == (if k == l && IdOf(env) in s.nodes[l.dst].seen then BodyDiffs(env.body) else [])
                               + LinkDiffs(Receive(c, s, k, i), l)
  {
    hide Program, BodyDiffs, IdOf;
    var t, env, q := Receive(c, s, k, i), s.queues[k][i], s.queues[l];
    assert ProgDiffs([], l.src) == [];
    if k == l {
      ProgramDiffs(c.merge(k.dst), env, k.src, l.src);
      assert q == [env] + q[1..] && Without(q, 0) == q[1..];
      assert LinkDiffs(s, l) == BodyDiffs(env.body) + QueueDiffs(q[1..]);
      assert LinkDiffs(t, l)
               == (if IdOf(env) in s.nodes[l.dst].seen then [] else BodyDiffs(env.body)) + QueueDiffs(q[1..]);
    } else {
      if k.dst == l.dst {
        ProgramDiffs(c.merge(k.dst), env, k.src, l.src);
        assert k.src != l.src;
      }
      assert LinkDiffs(t, l) == LinkDiffs(s, l);
    }
  }

  // ---------------------------------------------------------------------------
  // Where instructions come from
  // ---------------------------------------------------------------------------

  /** A program considers diffs of a neighbour only, and relays submissions only. */
  predicate Sourced(c: Config, n: NodeId, instr: Instr) {
    && (instr.Consider? ==> Link(instr.from, n) in c.links)
    && (instr.Relay? ==> instr.env.body.SubmitResult?)
  }

  ghost predicate Sound(c: Config, s: Net) {
    && WellFormed(c) && Shaped(c, s)
    && (forall n, i :: n in s.nodes && 0 <= i < |s.nodes[n].prog| ==> Sourced(c, n, s.nodes[n].prog[i]))
  }

  lemma ProgramSourced(c: Config, n: NodeId, merge: MergeFunc, env: Envelope, from: NodeId)
    requires Link(from, n) in c.links
    ensures var prog := Program(merge, env, from);
            forall i :: 0 <= i < |prog| ==> Sourced(c, n, prog[i])
  {
    match env.body
    case WorldUpdate(ds) => ConsidersAre(ds, env.requestId, from);
    case SubmitResult(_, _, _) => AppliesAre(UpdatesOf(merge, SubmissionOf(env.body, from)));
    case Unhandled(_) =>
  }

  lemma SoundStep(c: Config, s: Net, lab: Label)
    requires Sound(c, s) && Enabled(s, lab)
    ensures Sound(c, Next(c, s, lab))
  {
    hide Exec, Program, Sourced;
    var s' := Next(c, s, lab);
    assert Shaped(c, s');
    if lab.Deliver? {
      var l := lab.link;
      assert Link(l.src, l.dst) == l;
      ProgramSourced(c, l.dst, c.merge(l.dst), s.queues[l][lab.i], l.src);
    }
  }

  lemma {:induction false} SoundRun(c: Config, run: seq<Label>)
    requires WellFormed(c)
    ensures Sound(c, NetAfter(c, run))
  {
    if run != [] {
      var init := run[..|run| - 1];
      SoundRun(c, init);
      if Enabled(NetAfter(c, init), run[|run| - 1]) {
        SoundStep(c, NetAfter(c, init), run[|run| - 1]);
      }
    }
  }
}

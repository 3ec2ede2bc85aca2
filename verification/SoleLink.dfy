/** What becomes of a node that hears of an object over one link only, when hooks overtake each other on
    their way onto that link: where it ends, exactly, and exactly when it ends behind. */
module SoleLink {
  import opened Base
  import opened Protocol
  import opened Worlds
  import opened PeerNode
  import opened GossipNet
  import opened Traffic
  import opened HookNet
  import opened FineTraffic
  import opened HookConvergence
  import opened VersionCeiling
  import opened SingleWriter
  import P = Peering

  // ---------------------------------------------------------------------------
  // Versions in some order
  // ---------------------------------------------------------------------------

  /** What a receiver at `v` makes of these versions: each newer one takes it one version on. */
  function Replay(v: nat, us: seq<nat>): nat
    decreases us
  {
    if us == [] then v else Replay(if us[0] > v then v + 1 else v, us[1..])
  }

  lemma {:induction false} ReplaySnoc(v: nat, us: seq<nat>, u: nat)
    ensures Replay(v, us + [u]) == if u > Replay(v, us) then Replay(v, us) + 1 else Replay(v, us)
    decreases us
  {
    if us == [] {
      assert [u][1..] == [];
    } else {
      assert (us + [u])[1..] == us[1..] + [u];
      ReplaySnoc(if us[0] > v then v + 1 else v, us[1..], u);
    }
  }

  /** Only if each version is above the count does each count. */
  lemma {:induction false} ReplayCounts(v: nat, us: seq<nat>)
    ensures Replay(v, us) <= v + |us|
    ensures Replay(v, us) == v + |us| <==> forall i :: 0 <= i < |us| ==> us[i] > v + i
    decreases us
  {
    if us != [] {
      var v' := if us[0] > v then v + 1 else v;
      ReplayCounts(v', us[1..]);
      if forall i :: 0 <= i < |us| ==> us[i] > v + i {
        assert us[0] > v + 0;
        forall i | 0 <= i < |us[1..]|
          ensures us[1..][i] > v' + i
        {
          assert us[i + 1] > v + (i + 1);
        }
      }
      if Replay(v, us) == v + |us| {
        forall i | 0 <= i < |us|
          ensures us[i] > v + i
        {
          if i > 0 { assert us[1..][i - 1] > v' + (i - 1); }
        }
      }
    }
  }

  /** Each of 1 to `w` exactly once. */
  ghost predicate Numbers(m: multiset<nat>, w: nat) {
    forall u: nat :: m[u] == if 1 <= u <= w then 1 else 0
  }

  predicate InTurn(us: seq<nat>) {
    forall i :: 0 <= i < |us| ==> us[i] == i + 1
  }

  lemma TakeOut(us: seq<nat>, i: nat)
    requires i < |us|
    ensures multiset(Without(us, i)) == multiset(us) - multiset{us[i]} && |Without(us, i)| == |us| - 1
  {
    assert us == us[..i] + ([us[i]] + us[i + 1..]);
  }

  lemma {:induction false} NumbersLength(us: seq<nat>, w: nat)
    requires Numbers(multiset(us), w)
    ensures |us| == w
    decreases w
  {
    if w == 0 {
      assert multiset(us) == multiset{};
    } else {
      assert multiset(us)[w] == 1;
      var i :| 0 <= i < |us| && us[i] == w;
      TakeOut(us, i);
      NumbersLength(Without(us, i), w - 1);
    }
  }

  /** From the last on, each can only stand at its own place. */
  lemma {:induction false} NumbersInTurn(us: seq<nat>, w: nat)
    requires Numbers(multiset(us), w) && |us| == w && forall i :: 0 <= i < |us| ==> us[i] > i
    ensures InTurn(us)
    decreases w
  {
    if w > 0 {
      assert us[w - 1] in multiset(us);
      TakeOut(us, w - 1);
      assert Without(us, w - 1) == us[..w - 1];
      NumbersInTurn(us[..w - 1], w - 1);
    }
  }

  /** Of all the orders in which 1 to `w` can come, only the rising one brings the receiver to `w`. */
  lemma {:induction false} ReplayTops(us: seq<nat>, w: nat)
    requires Numbers(multiset(us), w)
    ensures Replay(0, us) <= w
    ensures Replay(0, us) == w <==> InTurn(us)
  {
    NumbersLength(us, w);
    ReplayCounts(0, us);
    if Replay(0, us) == w {
      forall i | 0 <= i < |us|
        ensures us[i] > i
      {
        assert us[i] > 0 + i;
      }
      NumbersInTurn(us, w);
    }
  }

  // ---------------------------------------------------------------------------
  // One link and one object
  // ---------------------------------------------------------------------------

  function Versions(ds: seq<ObjectDiff>, x: string): seq<nat> {
    if ds == [] then [] else (if ds[0].objectId == x then [ds[0].version] else []) + Versions(ds[1..], x)
  }

  lemma {:induction false} VersionsConcat(a: seq<ObjectDiff>, b: seq<ObjectDiff>, x: string)
    ensures Versions(a + b, x) == Versions(a, x) + Versions(b, x)
  {
    if a == [] {
      assert a + b == b;
    } else {
      assert (a + b)[1..] == a[1..] + b;
      VersionsConcat(a[1..], b, x);
      Associative(if a[0].objectId == x then [a[0].version] else [], Versions(a[1..], x), Versions(b, x));
    }
  }

  lemma VersionsOne(d: ObjectDiff, x: string)
    ensures Versions([d], x) == if d.objectId == x then [d.version] else []
  {
    assert [d][1..] == [];
  }

  lemma {:induction false} NoVersions(ds: seq<ObjectDiff>, x: string)
    requires forall d :: d in ds ==> d.objectId != x
    ensures Versions(ds, x) == []
  {
    if ds != [] {
      assert ds[0] in ds;
      NoVersions(ds[1..], x);
    }
  }

  lemma {:induction false} VersionOf(ds: seq<ObjectDiff>, d: ObjectDiff)
    requires d in ds
    ensures d.version in Versions(ds, d.objectId)
  {
    if d != ds[0] { VersionOf(ds[1..], d); }
  }

  lemma VersionsWithout(ds: seq<ObjectDiff>, i: nat, x: string)
    requires i < |ds|
    ensures multiset(Versions(ds, x))
         == multiset(Versions(Without(ds, i), x)) + if ds[i].objectId == x then multiset{ds[i].version} else multiset{}
  {
    assert ds == ds[..i] + ([ds[i]] + ds[i + 1..]);
    VersionsConcat(ds[..i], [ds[i]] + ds[i + 1..], x);
    VersionsConcat([ds[i]], ds[i + 1..], x);
    VersionsConcat(ds[..i], ds[i + 1..], x);
    VersionsOne(ds[i], x);
  }

  /** The receiver's version, the sender's, the versions in waiting hooks, and those under way in order. */
  datatype View = View(v: nat, w: nat, hooks: multiset<nat>, way: seq<nat>)

  ghost function ViewOf(c: Config, s: Fine, l: Link, x: string): View
    requires WellFormed(c) && FineShaped(c, s) && l in c.links
  {
    View(At(s, l.dst, x), At(s, l.src, x), multiset(Versions(s.hooks[l], x)), Versions(Ahead(s, l), x))
  }

  /** What a step can do to a view: nothing, make the next version, send a hook, or deal with the first
      version under way. `now` is what it sends. */
  ghost predicate Turns(a: View, b: View, now: seq<nat>) {
    || (now == [] && b == a)
    || (now == [] && b == a.(w := a.w + 1, hooks := a.hooks + multiset{a.w + 1}))
    || (|now| == 1 && now[0] in a.hooks && b == a.(hooks := a.hooks - multiset{now[0]}, way := a.way + now))
    || (now == [] && a.way != [] && b == a.(way := a.way[1..], v := if a.way[0] > a.v then a.v + 1 else a.v))
  }

  /** All versions of the sender are sent or waiting, each once; and the receiver is where those it has dealt
      with take it. */
  ghost predicate Fed(a: View, sent: seq<nat>) {
    && Numbers(multiset(sent) + a.hooks, a.w)
    && |a.way| <= |sent| && sent[|sent| - |a.way|..] == a.way && a.v == Replay(0, sent[..|sent| - |a.way|])
  }

  lemma OneMore(m: multiset<nat>, w: nat)
    requires Numbers(m, w)
    ensures var u: nat := w + 1; Numbers(m + multiset{u}, u)
  {
  }

  lemma FedMake(a: View, b: View, sent: seq<nat>)
    requires Fed(a, sent) && b == a.(w := a.w + 1, hooks := a.hooks + multiset{a.w + 1})
    ensures Fed(b, sent)
  {
    hide Replay, Numbers;
    var m, u: nat := multiset(sent) + a.hooks, a.w + 1;
    OneMore(m, a.w);
    assert multiset(sent) + b.hooks == m + multiset{u};
  }

  lemma FedSend(a: View, b: View, sent: seq<nat>, u: nat)
    requires Fed(a, sent) && u in a.hooks && b == a.(hooks := a.hooks - multiset{u}, way := a.way + [u])
    ensures Fed(b, sent + [u])
  {
    hide Replay, Numbers;
    var k := |sent| - |a.way|;
    assert (sent + [u])[..k] == sent[..k] && (sent + [u])[k..] == a.way + [u];
    assert multiset(sent + [u]) + (a.hooks - multiset{u}) == multiset(sent) + a.hooks;
  }

  lemma FedTake(a: View, b: View, sent: seq<nat>)
    requires Fed(a, sent) && a.way != []
    requires b == a.(way := a.way[1..], v := if a.way[0] > a.v then a.v + 1 else a.v)
    ensures Fed(b, sent)
  {
    hide Replay, Numbers;
    var k := |sent| - |a.way|;
    assert sent[..k + 1] == sent[..k] + [a.way[0]] && sent[k + 1..] == a.way[1..];
    ReplaySnoc(0, sent[..k], a.way[0]);
  }

  lemma FedTurns(a: View, b: View, sent: seq<nat>, now: seq<nat>)
    requires Fed(a, sent) && Turns(a, b, now)
    ensures Fed(b, sent + now)
  {
    hide Fed;
    if now != [] {
      assert now == [now[0]];
      FedSend(a, b, sent, now[0]);
    } else {
      assert sent + now == sent;
      if b != a {
        if b == a.(w := a.w + 1, hooks := a.hooks + multiset{a.w + 1}) {
          FedMake(a, b, sent);
        } else {
          FedTake(a, b, sent);
        }
      }
    }
  }

  // ---------------------------------------------------------------------------
  // The network
  // ---------------------------------------------------------------------------

  ghost predicate IsSole(c: Config, l: Link) {
    l in c.links && forall k :: k in c.links && k.dst == l.dst ==> k == l
  }

  /** The link itself loses nothing, copies nothing and keeps the order of its queue. */
  predicate Tidy(step: FineStep, l: Link) {
    step.Plain? ==>
      match step.lab
      case Lose(k, _) => k != l
      case Duplicate(k, _) => k != l
      case Deliver(k, i) => k == l ==> i == 0
      case _ => true
  }

  ghost predicate TidyRun(run: seq<FineStep>, l: Link) {
    forall i :: 0 <= i < |run| ==> Tidy(run[i], l)
  }

  /** The versions of `x` whose hooks a step puts on the link. */
  function SentNow(s: Fine, step: FineStep, l: Link, x: string): seq<nat> {
    if step.Fire? && step.link == l && l in s.hooks && step.i < |s.hooks[l]|
    then Versions([s.hooks[l][step.i]], x)
    else []
  }

  /** The versions of `x` in the order in which their hooks went onto the link. */
  ghost function Sent(c: Config, run: seq<FineStep>, l: Link, x: string): seq<nat> {
    if run == [] then []
    else
      var init, step := run[..|run| - 1], run[|run| - 1];
      Sent(c, init, l, x)
        + if FineEnabled(FineAfter(c, init), step) then SentNow(FineAfter(c, init), step, l, x) else []
  }

  /** The sender adopts no diff of `x` and holds none back; the receiver adopts only what it lacks; and what is
      queued or known of `x` are hooks, none both known and queued. */
  ghost predicate Steady(c: Config, s: Fine, l: Link, x: string, sent: seq<nat>) {
    && FineSound(c, s) && IsSole(c, l)
    && (s.busy[l.src].Adopting? ==> s.busy[l.src].diff.objectId != x)
    && (forall d :: d in HeldBack(s.busy[l.src]) ==> d.objectId != x)
    && AdoptsNews(s, l.dst, l.src, x)
    && (forall env, d :: env in s.net.queues[l] && d in BodyDiffs(env.body) && d.objectId == x ==>
          env == HookEnvelope(d))
    && (forall d: ObjectDiff :: d.objectId == x && IdOf(HookEnvelope(d)) in s.net.nodes[l.dst].seen ==>
          d.version in sent && d.version !in Versions(QueueDiffs(s.net.queues[l]), x))
  }

  // ---------------------------------------------------------------------------
  // What each step does to the link's view
  // ---------------------------------------------------------------------------

  lemma SoleEnds(c: Config, s: Fine, l: Link, x: string, sent: seq<nat>)
    requires Steady(c, s, l, x, sent)
    ensures l in c.links && l.src in c.nodes && l.dst in c.nodes && l.src != l.dst && WellFormed(c) && FineShaped(c, s)
  {
  }

  lemma VersionsFirst(d: ObjectDiff, ds: seq<ObjectDiff>, x: string)
    ensures Versions([d] + ds, x) == (if d.objectId == x then [d.version] else []) + Versions(ds, x)
  {
    VersionsConcat([d], ds, x);
    VersionsOne(d, x);
  }

  lemma FireView(c: Config, s: Fine, k: Link, i: nat, l: Link, x: string)
    requires WellFormed(c) && FineShaped(c, s) && FineEnabled(s, Fire(k, i)) && l in c.links
    ensures FineShaped(c, FineNext(c, s, Fire(k, i)))
    ensures Turns(ViewOf(c, s, l, x), ViewOf(c, FineNext(c, s, Fire(k, i)), l, x), SentNow(s, Fire(k, i), l, x))
  {
    hide Ahead, FineNext, Versions;
    FireShape(c, s, k, i, l);
    if k == l {
      VersionsWithout(s.hooks[l], i, x);
      VersionsConcat(Ahead(s, l), [s.hooks[l][i]], x);
      VersionsOne(s.hooks[l][i], x);
    }
  }

  /** An apply that is not an adoption of `x`; at the receiver, not one of `x` at all. */
  lemma StoredView(c: Config, s: Fine, n: NodeId, req: UpdateRequest, l: Link, x: string)
    requires WellFormed(c) && FineShaped(c, s) && n in c.nodes && l in c.links
    requires n != l.src && req.objectId == x ==> n != l.dst || Outcome(s.net.nodes[n].objects, req).Refused?
    ensures FineShaped(c, Stored(s, n, req))
    ensures Turns(ViewOf(c, s, l, x), ViewOf(c, Stored(s, n, req), l, x), [])
  {
    hide Ahead, Versions, Stored, HookDiff, Outcome;
    StoredShape(c, s, n, req);
    if n == l.src && Outcome(s.net.nodes[n].objects, req).Applied? {
      FiredView(c, s, n, req, l, x);
    } else {
      SameLinks(c, s, n, req, l);
      StoredHooks(s, n, req, l);
      SameView(c, s, Stored(s, n, req), l, x);
    }
  }

  lemma FiredView(c: Config, s: Fine, n: NodeId, req: UpdateRequest, l: Link, x: string)
    requires WellFormed(c) && FineShaped(c, s) && l in c.links && n == l.src
    requires Outcome(s.net.nodes[n].objects, req).Applied?
    ensures Turns(ViewOf(c, s, l, x), ViewOf(c, Stored(s, n, req), l, x), [])
  {
    hide Ahead, Versions, Stored, HookDiff, Outcome;
    StoredShape(c, s, n, req);
    SameLinks(c, s, n, req, l);
    StoredHooks(s, n, req, l);
    var d := HookDiff(Outcome(s.net.nodes[n].objects, req).obj);
    VersionsConcat(s.hooks[l], [d], x);
    VersionsOne(d, x);
    MadeVersion(s.net.nodes[n].objects, req);
    assert d.objectId != x ==> Versions(s.hooks[l], x) + [] == Versions(s.hooks[l], x);
  }

  lemma MadeVersion(objs: Objects, req: UpdateRequest)
    requires Outcome(objs, req).Applied?
    ensures HookDiff(Outcome(objs, req).obj).objectId == req.objectId
    ensures HookDiff(Outcome(objs, req).obj).version == Version(objs, req.objectId) + 1
  {
  }

  lemma SameView(c: Config, s: Fine, t: Fine, l: Link, x: string)
    requires WellFormed(c) && FineShaped(c, s) && FineShaped(c, t) && l in c.links
    requires Versions(Ahead(t, l), x) == Versions(Ahead(s, l), x) && t.hooks[l] == s.hooks[l]
    requires At(t, l.src, x) == At(s, l.src, x) && At(t, l.dst, x) == At(s, l.dst, x)
    ensures ViewOf(c, t, l, x) == ViewOf(c, s, l, x)
  {
  }

  lemma PoppedView(c: Config, s: Fine, n: NodeId, l: Link, x: string)
    requires WellFormed(c) && FineShaped(c, s) && n in c.nodes && s.busy[n] == Idle && s.net.nodes[n].prog != []
    requires l in c.links
    ensures FineShaped(c, Popped(s, n))
    ensures var instr := s.net.nodes[n].prog[0];
            if n == l.dst && instr.Consider? && instr.from == l.src
            then Ahead(s, l) == [instr.diff] + Ahead(Popped(s, n), l)
            else Ahead(s, l) == Ahead(Popped(s, n), l) && ViewOf(c, Popped(s, n), l, x) == ViewOf(c, s, l, x)
  {
    hide QueueDiffs, Versions;
    PoppedShape(c, s, n);
    var prog := s.net.nodes[n].prog;
    ProgDiffsSplit(prog, l.src);
    if prog[0].Consider? {
      Associative([prog[0].diff], ProgDiffs(prog[1..], l.src), QueueDiffs(s.net.queues[l]));
    }
  }

  /** The receiver looks a diff up in vain. */
  lemma SkipView(c: Config, s: Fine, l: Link, x: string, d: ObjectDiff)
    requires WellFormed(c) && FineShaped(c, s) && l in c.links && s.busy[l.dst] == Idle && s.net.nodes[l.dst].prog != []
    requires s.net.nodes[l.dst].prog[0].Consider? && s.net.nodes[l.dst].prog[0].diff == d
    requires s.net.nodes[l.dst].prog[0].from == l.src && !IsNews(s.net.nodes[l.dst].objects, d)
    ensures Turns(ViewOf(c, s, l, x), ViewOf(c, Popped(s, l.dst), l, x), [])
  {
    hide Versions, Popped, Ahead;
    var n := l.dst;
    PoppedShape(c, s, n);
    PoppedView(c, s, n, l, x);
    VersionsFirst(d, Ahead(Popped(s, n), l), x);
    if d.objectId == x {
      assert ViewOf(c, s, l, x).way == [d.version] + ViewOf(c, Popped(s, n), l, x).way;
    } else {
      assert ViewOf(c, s, l, x).way == [] + ViewOf(c, Popped(s, n), l, x).way;
    }
  }

  /** It finds one newer, and takes it up. */
  lemma FindView(c: Config, s: Fine, l: Link, x: string, d: ObjectDiff, t: Fine, requestId: string)
    requires WellFormed(c) && FineShaped(c, s) && l in c.links && s.busy[l.dst] == Idle && s.net.nodes[l.dst].prog != []
    requires s.net.nodes[l.dst].prog[0] == Consider(d, requestId, l.src)
    requires t == Popped(s, l.dst).(busy := s.busy[l.dst := Adopting(d, requestId, l.src)]) && FineShaped(c, t)
    ensures ViewOf(c, t, l, x) == ViewOf(c, s, l, x)
  {
    hide Versions, Popped, LinkDiffs;
    PoppedShape(c, s, l.dst);
    PoppedView(c, s, l.dst, l, x);
    assert Ahead(Popped(s, l.dst), l) == LinkDiffs(Popped(s, l.dst).net, l);
    assert Ahead(t, l) == [d] + LinkDiffs(Popped(s, l.dst).net, l) == Ahead(s, l);
    SameView(c, s, t, l, x);
  }

  lemma ConsiderView(c: Config, s: Fine, l: Link, x: string, sent: seq<nat>)
    requires Steady(c, s, l, x, sent) && FineEnabled(s, Plain(Work(l.dst))) && s.busy[l.dst] == Idle
    requires s.net.nodes[l.dst].prog[0].Consider?
    ensures Turns(ViewOf(c, s, l, x), ViewOf(c, Worked(c, s, l.dst), l, x), [])
  {
    hide Ahead, Worked, Popped, HeldBack, BusySourced, ViewOf;
    var n, instr := l.dst, s.net.nodes[l.dst].prog[0];
    TakenIsAhead(c, s, n);
    WorkedIdle(c, s, n);
    PoppedShape(c, s, n);
    if IsNews(s.net.nodes[n].objects, instr.diff) {
      FindView(c, s, l, x, instr.diff, Worked(c, s, n), instr.requestId);
    } else {
      SkipView(c, s, l, x, instr.diff);
    }
  }

  lemma AdoptView(c: Config, s: Fine, l: Link, x: string, sent: seq<nat>)
    requires Steady(c, s, l, x, sent) && s.busy[l.dst].Adopting?
    ensures Turns(ViewOf(c, s, l, x), ViewOf(c, Worked(c, s, l.dst), l, x), [])
  {
    hide Versions, Worked, HeldBack, Sourced, BusySourced, Ahead;
    var n, d, t := l.dst, s.busy[l.dst].diff, Worked(c, s, l.dst);
    TakenIsAhead(c, s, n);
    AdoptedAhead(c, s, l);
    VersionsFirst(d, Ahead(t, l), x);
    AdoptBelow(c, s, n, x);
    if d.objectId == x {
      assert ViewOf(c, s, l, x).way == [d.version] + ViewOf(c, t, l, x).way;
    } else {
      assert ViewOf(c, s, l, x).way == [] + ViewOf(c, t, l, x).way;
    }
  }

  /** An adoption at the link's end takes its diff off the front. */
  lemma AdoptedAhead(c: Config, s: Fine, l: Link)
    requires WellFormed(c) && FineShaped(c, s) && l in c.links && s.busy[l.dst].Adopting? && s.busy[l.dst].from == l.src
    ensures var t := Worked(c, s, l.dst);
            && FineShaped(c, t) && Ahead(s, l) == [s.busy[l.dst].diff] + Ahead(t, l) && t.hooks[l] == s.hooks[l]
            && t.net.nodes[l.src].objects == s.net.nodes[l.src].objects
  {
    hide Stored, LinkDiffs, HookDiff, Outcome;
    var req, t := RequestFor(s.busy[l.dst].diff, c.tags(l.dst)), Worked(c, s, l.dst);
    AdoptedState(c, s, l.dst);
    StoredShape(c, s, l.dst, req);
    StoredHooks(s, l.dst, req, l);
    SameLinkDiffs(s, t, l);
    OtherObjects(c, s, l.dst, l.src);
  }

  lemma SameLinkDiffs(s: Fine, t: Fine, l: Link)
    requires l in s.net.queues && l.dst in s.net.nodes && l in t.net.queues && l.dst in t.net.nodes
    requires t.net.queues[l] == s.net.queues[l] && t.net.nodes[l.dst].prog == s.net.nodes[l.dst].prog
    ensures LinkDiffs(t.net, l) == LinkDiffs(s.net, l)
  {
  }

  /** What a node sends on after a hook tells the link nothing of `x`. */
  lemma HookedView(c: Config, s: Fine, n: NodeId, l: Link, x: string, sent: seq<nat>)
    requires Steady(c, s, l, x, sent) && n in c.nodes && s.busy[n].Hooking?
    ensures ViewOf(c, Worked(c, s, n), l, x) == ViewOf(c, s, l, x)
  {
    hide Versions, Carried, HeldBack, Sourced, QueueDiffs, ProgDiffs, Addressed;
    var t := Worked(c, s, n);
    HookedState(c, s, n);
    if n == l.src {
      OnwardSent(c, n, s.busy[n], l.dst);
      SilentQueue(c, s, t, l, x, Addressed(s.busy[n].onward, l.dst));
    } else {
      SameLinkDiffs(s, t, l);
    }
    SameView(c, s, t, l, x);
  }

  /** Messages without diffs of `x` at the end of the queue. */
  lemma SilentQueue(c: Config, s: Fine, t: Fine, l: Link, x: string, more: seq<Envelope>)
    requires WellFormed(c) && FineShaped(c, s) && FineShaped(c, t) && l in c.links
    requires t.net.queues[l] == s.net.queues[l] + more && t.net.nodes[l.dst].prog == s.net.nodes[l.dst].prog
    requires s.busy[l.dst].Adopting? == t.busy[l.dst].Adopting?
    requires s.busy[l.dst].Adopting? ==> t.busy[l.dst] == s.busy[l.dst]
    requires forall d :: d in QueueDiffs(more) ==> d.objectId != x
    ensures Versions(Ahead(t, l), x) == Versions(Ahead(s, l), x)
  {
    hide Versions, QueueDiffs, ProgDiffs;
    QueueDiffsConcat(s.net.queues[l], more);
    assert Ahead(t, l) == Ahead(s, l) + QueueDiffs(more);
    VersionsConcat(Ahead(s, l), QueueDiffs(more), x);
    NoVersions(QueueDiffs(more), x);
    assert Versions(Ahead(s, l), x) + [] == Versions(Ahead(s, l), x);
  }

  lemma SenderAdoptsView(c: Config, s: Fine, n: NodeId, l: Link, x: string, sent: seq<nat>)
    requires Steady(c, s, l, x, sent) && n in c.nodes && n != l.dst && s.busy[n].Adopting?
    ensures Turns(ViewOf(c, s, l, x), ViewOf(c, Worked(c, s, n), l, x), [])
  {
    hide Versions, Stored, Carried, HeldBack, Sourced, BusySourced, LinkDiffs, HookDiff, Outcome;
    var req, t := RequestFor(s.busy[n].diff, c.tags(n)), Worked(c, s, n);
    StoredView(c, s, n, req, l, x);
    AdoptedState(c, s, n);
    StoredShape(c, s, n, req);
    SameLinkDiffs(Stored(s, n, req), t, l);
    SameView(c, Stored(s, n, req), t, l, x);
  }

  /** Instructions other than the receiver's lookups. */
  lemma IdleView(c: Config, s: Fine, n: NodeId, l: Link, x: string)
    requires FineSound(c, s) && l in c.links && FineEnabled(s, Plain(Work(n))) && n in c.nodes && s.busy[n] == Idle
    requires n == l.dst ==> !s.net.nodes[n].prog[0].Consider?
    requires WritesAt(c, s, Plain(Work(n)), l.src, x)
    ensures Turns(ViewOf(c, s, l, x), ViewOf(c, Worked(c, s, n), l, x), [])
  {
    hide Stored, Popped, Worked, Emit, BusySourced, Ahead, ViewOf, Outcome, Turns, WritesAt, Sourced;
    var t, instr := Popped(s, n), s.net.nodes[n].prog[0];
    WorkedIdle(c, s, n);
    PoppedShape(c, s, n);
    PoppedView(c, s, n, l, x);
    NoTurn(ViewOf(c, s, l, x));
    match instr {
      case Consider(d, requestId, from) => LookupView(c, t, n, Adopting(d, requestId, from), l, x);
      case ApplyUpdate(req) =>
        RefusedElsewhere(c, s, Plain(Work(n)), l.src, x);
        UpdateView(c, t, n, req, l, x);
      case Relay(env, from) =>
        HeadIsSourced(c, s, n);
        RelayView(c, t, n, env, from, l, x);
    }
  }

  /** Where `x` is not written, a submitted update of it is refused. */
  lemma RefusedElsewhere(c: Config, s: Fine, step: FineStep, w: NodeId, x: string)
    requires FineEnabled(s, step) && WritesAt(c, s, step, w, x) && !IsAdoption(s, step) && ApplyOf(c, s, step).Some?
    ensures var (n, req) := ApplyOf(c, s, step).value;
            n in s.net.nodes && n != w && req.objectId == x ==> Outcome(s.net.nodes[n].objects, req).Refused?
  {
  }

  lemma NoTurn(a: View)
    ensures Turns(a, a, [])
  {
  }

  lemma LookupView(c: Config, t: Fine, n: NodeId, b: Busy, l: Link, x: string)
    requires WellFormed(c) && FineShaped(c, t) && n in c.nodes && l in c.links && n != l.dst
    ensures ViewOf(c, t.(busy := t.busy[n := b]), l, x) == ViewOf(c, t, l, x)
  {
    SameAhead(t, t.(busy := t.busy[n := b]), l);
  }

  lemma UpdateView(c: Config, t: Fine, n: NodeId, req: UpdateRequest, l: Link, x: string)
    requires WellFormed(c) && FineShaped(c, t) && n in c.nodes && l in c.links && t.busy[n] == Idle
    requires n != l.src && req.objectId == x ==> n != l.dst || Outcome(t.net.nodes[n].objects, req).Refused?
    ensures var t' := Stored(t, n, req).(busy := t.busy[n := AfterApply(t.net.nodes[n].objects, req)]);
            FineShaped(c, t') && Turns(ViewOf(c, t, l, x), ViewOf(c, t', l, x), [])
  {
    hide Versions, Stored, Ahead, Outcome;
    var t' := Stored(t, n, req).(busy := t.busy[n := AfterApply(t.net.nodes[n].objects, req)]);
    StoredView(c, t, n, req, l, x);
    AppliedAhead(c, t, n, req, l);
    SameLinks(c, t, n, req, l);
    SameView(c, Stored(t, n, req), t', l, x);
  }

  lemma RelayView(c: Config, t: Fine, n: NodeId, env: Envelope, from: NodeId, l: Link, x: string)
    requires WellFormed(c) && FineShaped(c, t) && n in c.nodes && l in c.links && env.body.SubmitResult?
    ensures var sends := [P.Send(Encode(env.requestId, env.body), from)];
            var t' := t.(net := t.net.(queues := Emit(t.net.queues, n, sends)));
            FineShaped(c, t') && ViewOf(c, t', l, x) == ViewOf(c, t, l, x)
  {
    hide Versions, Ahead;
    var sends := [P.Send(Encode(env.requestId, env.body), from)];
    EmitShape(c, t, n, sends);
    RelayedDiffs(t.net.queues, n, env, from, l);
    SameQueueAhead(t, t.(net := t.net.(queues := Emit(t.net.queues, n, sends))), l);
  }

  /** Steps that are no apply, no instruction and no hook. */
  lemma OtherView(c: Config, s: Fine, lab: Label, l: Link, x: string, sent: seq<nat>)
    requires Steady(c, s, l, x, sent) && FineEnabled(s, Plain(lab)) && Tidy(Plain(lab), l) && !Acts(lab)
    ensures ViewOf(c, FineNext(c, s, Plain(lab)), l, x) == ViewOf(c, s, l, x)
  {
    hide Versions, HeldBack, Sourced, BusySourced, LinkDiffs, IdOf;
    var t := FineNext(c, s, Plain(lab));
    match lab {
      case Announce(n, env) => AnnouncedView(c, s, n, env, l, x);
      case Deliver(k, i) => DeliveredView(c, s, k, i, l, x, sent);
      case Forget(_, _) => SameLinkDiffs(s, t, l);
      case Lose(_, _) => SameLinkDiffs(s, t, l);
      case Duplicate(_, _) => SameLinkDiffs(s, t, l);
    }
  }

  lemma AnnouncedView(c: Config, s: Fine, n: NodeId, env: Envelope, l: Link, x: string)
    requires WellFormed(c) && FineShaped(c, s) && FineEnabled(s, Plain(Announce(n, env))) && l in c.links
    ensures ViewOf(c, FineNext(c, s, Plain(Announce(n, env))), l, x) == ViewOf(c, s, l, x)
  {
    hide Versions, LinkDiffs, QueueDiffs;
    var t := FineNext(c, s, Plain(Announce(n, env)));
    AddressedTwo(P.Send(env, ""), P.Send(env, ""), l.dst);
    QueueDiffsTwo(env, env);
    if n == l.src {
      SilentQueue(c, s, t, l, x, Addressed([P.Send(env, "")], l.dst));
    } else {
      SameLinkDiffs(s, t, l);
    }
  }

  /** A message of `x` is never skipped as seen: it is a hook's, and none is queued and known. */
  lemma DeliveredView(c: Config, s: Fine, k: Link, i: nat, l: Link, x: string, sent: seq<nat>)
    requires Steady(c, s, l, x, sent) && FineEnabled(s, Plain(Deliver(k, i))) && (k == l ==> i == 0)
    ensures ViewOf(c, FineNext(c, s, Plain(Deliver(k, i))), l, x) == ViewOf(c, s, l, x)
  {
    hide Versions, HeldBack, Sourced, BusySourced, Ahead, FineNext, IdOf;
    var t, env := FineNext(c, s, Plain(Deliver(k, i))), s.net.queues[k][i];
    DeliverAhead(c, s, k, i, l);
    var skipped := if k == l && IdOf(env) in s.net.nodes[l.dst].seen then BodyDiffs(env.body) else [];
    forall d | d in skipped
      ensures d.objectId != x
    {
      if d.objectId == x { QueuedVersion(s, l, 0, d); }
    }
    VersionsConcat(skipped, Ahead(t, l), x);
    NoVersions(skipped, x);
    assert [] + Versions(Ahead(t, l), x) == Versions(Ahead(t, l), x);
  }

  lemma QueuedVersion(s: Fine, l: Link, i: nat, d: ObjectDiff)
    requires l in s.net.queues && i < |s.net.queues[l]| && d in BodyDiffs(s.net.queues[l][i].body)
    ensures d.version in Versions(QueueDiffs(s.net.queues[l]), d.objectId)
  {
    WithoutDiffs(s.net.queues[l], i);
    VersionOf(QueueDiffs(s.net.queues[l]), d);
  }

  lemma StepTurns(c: Config, s: Fine, step: FineStep, l: Link, x: string, sent: seq<nat>)
    requires Steady(c, s, l, x, sent) && FineEnabled(s, step) && Tidy(step, l) && WritesAt(c, s, step, l.src, x)
    ensures WellFormed(c)
    ensures Turns(ViewOf(c, s, l, x), ViewOf(c, FineNext(c, s, step), l, x), SentNow(s, step, l, x))
  {
    hide Versions, Sourced, BusySourced, Ahead, HeldBack, ViewOf, Turns, Stored, Worked, WritesAt, Outcome, IdOf;
    SoleEnds(c, s, l, x, sent);
    NoTurn(ViewOf(c, s, l, x));
    match step {
      case Fire(k, i) => FireView(c, s, k, i, l, x);
      case Plain(LocalApply(n, req)) =>
        RefusedElsewhere(c, s, step, l.src, x);
        StoredView(c, s, n, req, l, x);
      case Plain(Work(n)) =>
        match s.busy[n] {
          case Hooking(_, _, _) => HookedView(c, s, n, l, x, sent);
          case Adopting(_, _, _) =>
            if n == l.dst { AdoptView(c, s, l, x, sent); } else { SenderAdoptsView(c, s, n, l, x, sent); }
          case Idle =>
            if n == l.dst && s.net.nodes[n].prog[0].Consider? {
              ConsiderView(c, s, l, x, sent);
            } else {
              IdleView(c, s, n, l, x);
            }
        }
      case Plain(lab) => OtherView(c, s, lab, l, x, sent);
    }
  }

  // ---------------------------------------------------------------------------
  // What every step keeps
  // ---------------------------------------------------------------------------

  lemma {:induction false} VersionMember(ds: seq<ObjectDiff>, x: string, u: nat) returns (d: ObjectDiff)
    requires u in Versions(ds, x)
    ensures d in ds && d.objectId == x && d.version == u
  {
    if ds[0].objectId == x && ds[0].version == u {
      d := ds[0];
    } else {
      d := VersionMember(ds[1..], x, u);
    }
  }

  lemma {:induction false} QueueMember(q: seq<Envelope>, d: ObjectDiff) returns (env: Envelope)
    requires d in QueueDiffs(q)
    ensures env in q && d in BodyDiffs(env.body)
  {
    if d in BodyDiffs(q[0].body) {
      env := q[0];
    } else {
      env := QueueMember(q[1..], d);
    }
  }

  /** A message of `x` in the link's queue is a hook's, just sent or there before. */
  lemma QueueKeeps(c: Config, s: Fine, step: FineStep, l: Link, x: string, sent: seq<nat>, env: Envelope, d: ObjectDiff)
    requires Steady(c, s, l, x, sent) && FineEnabled(s, step) && env in FineNext(c, s, step).net.queues[l]
    requires d in BodyDiffs(env.body) && d.objectId == x
    ensures env == HookEnvelope(d)
    ensures env in s.net.queues[l] || d.version in SentNow(s, step, l, x)
  {
    hide FineNext, BusySourced, HeldBack, IdOf, Versions;
    SoleEnds(c, s, l, x, sent);
    NewMessage(c, s, step, l, env);
    if step.Fire? && step.link == l { VersionsOne(s.hooks[l][step.i], x); }
    if env !in s.net.queues[l] && step == Plain(Work(l.src)) && Relays(s, l.src, env) { HeadIsSourced(c, s, l.src); }
  }

  lemma QueueVersions(c: Config, s: Fine, step: FineStep, l: Link, x: string, sent: seq<nat>, u: nat)
    requires Steady(c, s, l, x, sent) && FineEnabled(s, step) && l in FineNext(c, s, step).net.queues
    requires u in Versions(QueueDiffs(FineNext(c, s, step).net.queues[l]), x)
    ensures u in Versions(QueueDiffs(s.net.queues[l]), x) || u in SentNow(s, step, l, x)
  {
    hide FineNext, Steady, SentNow, Versions, QueueDiffs, BodyDiffs;
    var q := FineNext(c, s, step).net.queues[l];
    var d := VersionMember(QueueDiffs(q), x, u);
    var env := QueueMember(q, d);
    QueueKeeps(c, s, step, l, x, sent, env, d);
    SoleEnds(c, s, l, x, sent);
    if env in s.net.queues[l] {
      var i :| 0 <= i < |s.net.queues[l]| && s.net.queues[l][i] == env;
      QueuedVersion(s, l, i, d);
    }
  }

  /** What is queued has been sent, and no version twice. */
  lemma QueuedOnce(c: Config, s: Fine, l: Link, x: string, sent: seq<nat>, u: nat)
    requires WellFormed(c) && FineShaped(c, s) && l in c.links && Fed(ViewOf(c, s, l, x), sent)
    ensures multiset(Versions(QueueDiffs(s.net.queues[l]), x))[u] <= multiset(sent)[u] <= 1
    ensures u in multiset(Versions(s.hooks[l], x)) ==> u !in sent
  {
    hide Versions, QueueDiffs, ProgDiffs, Replay;
    var view, k := ViewOf(c, s, l, x), |sent| - |Versions(Ahead(s, l), x)|;
    assert (multiset(sent) + view.hooks)[u] <= 1;
    assert sent == sent[..k] + view.way;
    var b := s.busy[l.dst];
    var front := (if b.Adopting? && b.from == l.src then [b.diff] else []) + ProgDiffs(s.net.nodes[l.dst].prog, l.src);
    assert Ahead(s, l) == front + QueueDiffs(s.net.queues[l]);
    VersionsConcat(front, QueueDiffs(s.net.queues[l]), x);
  }

  lemma HookIds(env: Envelope, d: ObjectDiff)
    requires IdOf(env) == IdOf(HookEnvelope(d))
    ensures d in BodyDiffs(env.body)
  {
    assert BodyDiffs(HookEnvelope(d).body)[0] == d;
  }

  lemma SeenKeeps(c: Config, s: Fine, step: FineStep, l: Link, x: string, sent: seq<nat>, d: ObjectDiff)
    requires Steady(c, s, l, x, sent) && FineEnabled(s, step) && Tidy(step, l) && d.objectId == x
    requires WellFormed(c) && FineShaped(c, s) && Fed(ViewOf(c, s, l, x), sent)
    requires IdOf(HookEnvelope(d)) in FineNext(c, s, step).net.nodes[l.dst].seen
    ensures d.version in sent + SentNow(s, step, l, x)
    ensures d.version !in Versions(QueueDiffs(FineNext(c, s, step).net.queues[l]), x)
  {
    hide FineNext, HeldBack, BusySourced, Sourced, Versions, QueueDiffs, Fed, IdOf, HookEnvelope, BodyDiffs;
    SoleEnds(c, s, l, x, sent);
    NewSeen(c, s, step, l.dst, IdOf(HookEnvelope(d)));
    QueuedOnce(c, s, l, x, sent, d.version);
    if IdOf(HookEnvelope(d)) in s.net.nodes[l.dst].seen {
      if d.version in Versions(QueueDiffs(FineNext(c, s, step).net.queues[l]), x) {
        QueueVersions(c, s, step, l, x, sent, d.version);
        SentWasHooked(s, step, l, x, d.version);
      }
    } else {
      TakenOut(c, s, step.lab.link, step.lab.i, l, x, sent, d);
    }
  }

  lemma SentWasHooked(s: Fine, step: FineStep, l: Link, x: string, u: nat)
    requires u in SentNow(s, step, l, x)
    ensures l in s.hooks && u in multiset(Versions(s.hooks[l], x))
  {
    VersionsWithout(s.hooks[l], step.i, x);
    VersionsOne(s.hooks[l][step.i], x);
  }

  /** A version just taken off the queue is not queued once more. */
  lemma TakenOut(c: Config, s: Fine, k: Link, i: nat, l: Link, x: string, sent: seq<nat>, d: ObjectDiff)
    requires Steady(c, s, l, x, sent) && FineEnabled(s, Plain(Deliver(k, i))) && Tidy(Plain(Deliver(k, i)), l)
    requires WellFormed(c) && FineShaped(c, s) && Fed(ViewOf(c, s, l, x), sent) && k.dst == l.dst && d.objectId == x
    requires IdOf(s.net.queues[k][i]) == IdOf(HookEnvelope(d))
    ensures d.version in sent
    ensures d.version !in Versions(QueueDiffs(FineNext(c, s, Plain(Deliver(k, i))).net.queues[l]), x)
  {
    hide HeldBack, BusySourced, Sourced, Versions, QueueDiffs, Fed, IdOf, Receive;
    assert k == l && i == 0;
    var q := s.net.queues[l];
    HookIds(q[0], d);
    ReceivedQueues(c, s.net, l, 0, l);
    WithoutDiffs(q, 0);
    QueueDiffsTwo(q[0], q[0]);
    assert Without(q, 0) == q[1..] && q[..0] == [];
    VersionsConcat(BodyDiffs(q[0].body), QueueDiffs(q[1..]), x);
    VersionOf(BodyDiffs(q[0].body), d);
    QueuedOnce(c, s, l, x, sent, d.version);
    assert QueueDiffs(q) == BodyDiffs(q[0].body) + QueueDiffs(q[1..]);
  }

  /** The receiver takes up only what it lacks, and lacks it still when it applies it. */
  lemma NewsKept(c: Config, s: Fine, step: FineStep, w: NodeId, n: NodeId, x: string, k: nat)
    requires FineSound(c, s) && FineEnabled(s, step) && WritesAt(c, s, step, w, x) && Below(c, s, x, k)
    requires n in c.nodes && n != w && AdoptsNews(s, n, w, x)
    ensures AdoptsNews(FineNext(c, s, step), n, w, x)
  {
    hide Carried, BusySourced, Sourced, WritesAt, FineNext;
    if step == Plain(Work(n)) {
      FoundIsNews(c, s, n, w, x, k);
    } else {
      BusySame(c, s, step, n);
      StandsStill(c, s, step, w, x, n);
    }
  }

  lemma FoundIsNews(c: Config, s: Fine, n: NodeId, w: NodeId, x: string, k: nat)
    requires FineSound(c, s) && Below(c, s, x, k) && FineEnabled(s, Plain(Work(n))) && n in c.nodes && n != w
    ensures AdoptsNews(FineNext(c, s, Plain(Work(n))), n, w, x)
  {
    hide Carried, BusySourced, Sourced, Worked, Popped, Stored, Ahead;
    match s.busy[n] {
      case Adopting(_, _, _) => AdoptBelow(c, s, n, x);
      case Hooking(_, _, _) => HookedState(c, s, n);
      case Idle =>
        PoppedShape(c, s, n);
        WorkedIdle(c, s, n);
        TakenIsAhead(c, s, n);
        var prog := s.net.nodes[n].prog;
        if prog[0].Consider? { CarriedAhead(c, s, Link(prog[0].from, n), prog[0].diff); }
    }
  }

  lemma CarriedAhead(c: Config, s: Fine, l: Link, d: ObjectDiff)
    requires WellFormed(c) && FineShaped(c, s) && l in c.links && d in Ahead(s, l)
    ensures Carried(c, s, d)
  {
  }

  lemma SteadyStep(c: Config, s: Fine, step: FineStep, l: Link, x: string, sent: seq<nat>, k: nat)
    requires Steady(c, s, l, x, sent) && FineEnabled(s, step) && Tidy(step, l) && WritesAt(c, s, step, l.src, x)
    requires WellFormed(c) && FineShaped(c, s) && Fed(ViewOf(c, s, l, x), sent) && Below(c, s, x, k)
    requires Due(FineNext(c, s, step).busy[l.src], x) == 0
    ensures Steady(c, FineNext(c, s, step), l, x, sent + SentNow(s, step, l, x))
  {
    hide FineNext, HeldBack, BusySourced, Sourced, Versions, QueueDiffs, Fed, IdOf, Below, Tidy, WritesAt, SentNow, At;
    var t := FineNext(c, s, step);
    SoleEnds(c, s, l, x, sent);
    FineSoundStep(c, s, step);
    forall d | d in HeldBack(t.busy[l.src])
      ensures d.objectId != x
    {
      NewHeldBack(c, s, step, l.src, d);
    }
    NewsKept(c, s, step, l.src, l.dst, x, k);
    forall env, d | env in t.net.queues[l] && d in BodyDiffs(env.body) && d.objectId == x
      ensures env == HookEnvelope(d)
    {
      QueueKeeps(c, s, step, l, x, sent, env, d);
    }
    forall d: ObjectDiff | d.objectId == x && IdOf(HookEnvelope(d)) in t.net.nodes[l.dst].seen
      ensures d.version in sent + SentNow(s, step, l, x) && d.version !in Versions(QueueDiffs(t.net.queues[l]), x)
    {
      SeenKeeps(c, s, step, l, x, sent, d);
    }
  }

  // ---------------------------------------------------------------------------
  // Whole runs
  // ---------------------------------------------------------------------------

  /** The one writer has made all there is, and never adopts. */
  lemma {:induction false} WriterMadeAll(c: Config, run: seq<FineStep>, w: NodeId, x: string)
    requires WellFormed(c) && w in c.nodes && OnlyWriter(c, run, w, x)
    ensures At(FineAfter(c, run), w, x) == MadeSoFar(c, run, x)
    ensures Due(FineAfter(c, run).busy[w], x) == 0
  {
    hide FineNext, FineEnabled, Below, Makes, WritesAt;
    if run == [] {
      FirstMadeNothing(c, w, x);
    } else {
      var init, s, step := run[..|run| - 1], FineAfter(c, run[..|run| - 1]), run[|run| - 1];
      WriterMadeAll(c, init, w, x);
      MakesEnabled(c, s, step, x);
      if FineEnabled(s, step) { WriterStep(c, s, step, w, x); }
      BelowAt(c, run, w, x);
    }
  }

  lemma FirstMadeNothing(c: Config, w: NodeId, x: string)
    requires w in c.nodes
    ensures At(FineAfter(c, []), w, x) == 0 && MadeSoFar(c, [], x) == 0 && Due(FineAfter(c, []).busy[w], x) == 0
  {
  }

  lemma BelowAt(c: Config, run: seq<FineStep>, w: NodeId, x: string)
    requires WellFormed(c) && w in c.nodes
    ensures At(FineAfter(c, run), w, x) + Due(FineAfter(c, run).busy[w], x) <= MadeSoFar(c, run, x)
  {
    hide FineAfter, MadeSoFar, Carried, FineSound;
    VersionsBelowMade(c, run, x);
  }

  lemma WriterStep(c: Config, s: Fine, step: FineStep, w: NodeId, x: string)
    requires FineShaped(c, s) && FineEnabled(s, step) && w in c.nodes && WritesAt(c, s, step, w, x)
    requires Due(s.busy[w], x) == 0
    ensures At(FineNext(c, s, step), w, x) == At(s, w, x) + if Makes(c, s, step, x) then 1 else 0
  {
    hide FineNext;
    StepStores(c, s, step);
    if ApplyOf(c, s, step).Some? {
      ApplyBelow(s.net.nodes[ApplyOf(c, s, step).value.0].objects, ApplyOf(c, s, step).value.1, x);
    }
  }

  lemma FirstIsSteady(c: Config, l: Link, x: string)
    requires WellFormed(c) && IsSole(c, l)
    ensures Steady(c, FineInit(c), l, x, []) && Fed(ViewOf(c, FineInit(c), l, x), [])
  {
    FirstIsSound(c);
    NothingAtFirst(c, l);
    assert Ahead(FineInit(c), l) == [];
  }

  lemma {:induction false} RunIsSteady(c: Config, run: seq<FineStep>, l: Link, x: string)
    requires WellFormed(c) && IsSole(c, l) && OnlyWriter(c, run, l.src, x) && TidyRun(run, l)
    ensures Steady(c, FineAfter(c, run), l, x, Sent(c, run, l, x))
    ensures Fed(ViewOf(c, FineAfter(c, run), l, x), Sent(c, run, l, x))
  {
    hide FineNext, FineEnabled, Steady, Fed, ViewOf, Turns, WritesAt, Tidy, SentNow, Below, MadeSoFar, Makes, Due, At;
    if run == [] {
      FirstIsSteady(c, l, x);
    } else {
      var init, s, step := run[..|run| - 1], FineAfter(c, run[..|run| - 1]), run[|run| - 1];
      assert TidyRun(init, l) && Tidy(step, l);
      RunIsSteady(c, init, l, x);
      if FineEnabled(s, step) {
        WriterMadeAll(c, run, l.src, x);
        VersionsBelowMade(c, init, x);
        SteadyStep(c, s, step, l, x, Sent(c, init, l, x), MadeSoFar(c, init, x));
        StepTurns(c, s, step, l, x, Sent(c, init, l, x));
        var a, b := ViewOf(c, s, l, x), ViewOf(c, FineNext(c, s, step), l, x);
        FedTurns(a, b, Sent(c, init, l, x), SentNow(s, step, l, x));
      } else {
        assert Sent(c, init, l, x) + [] == Sent(c, init, l, x);
      }
    }
  }

  /** Every hook of `x` that went onto the link was the lowest waiting for it. */
  ghost predicate SentInOrder(c: Config, run: seq<FineStep>, l: Link, x: string) {
    run == [] ||
    var init, step := run[..|run| - 1], run[|run| - 1];
    SentInOrder(c, init, l, x) && (FineEnabled(FineAfter(c, init), step) ==> LowestOf(FineAfter(c, init), step, l, x))
  }

  ghost predicate LowestOf(s: Fine, step: FineStep, l: Link, x: string)
    requires FineEnabled(s, step)
  {
    step.Fire? && step.link == l && s.hooks[l][step.i].objectId == x ==> InOrder(s, l, step.i)
  }

  lemma InTurnHas(us: seq<nat>)
    requires InTurn(us)
    ensures forall h: nat :: h in us <==> 1 <= h <= |us|
  {
    forall h: nat | 1 <= h <= |us|
      ensures h in us
    {
      assert us[h - 1] == h;
    }
  }

  lemma WaitsBeyond(sent: seq<nat>, hooks: multiset<nat>, w: nat, h: nat)
    requires Numbers(multiset(sent) + hooks, w) && InTurn(sent) && h in hooks
    ensures |sent| < h <= w
  {
    InTurnHas(sent);
    assert (multiset(sent) + hooks)[h] == multiset(sent)[h] + hooks[h] == 1;
    assert h !in multiset(sent) && h !in sent;
  }

  lemma NextWaits(sent: seq<nat>, hooks: multiset<nat>, w: nat)
    requires Numbers(multiset(sent) + hooks, w) && InTurn(sent) && |sent| < w
    ensures |sent| + 1 in hooks
  {
    var next: nat := |sent| + 1;
    assert (multiset(sent) + hooks)[next] == 1 && next !in sent;
  }

  /** With 1 to some number sent in turn, the next is in turn exactly when it is the lowest that waits. */
  lemma NextInTurn(sent: seq<nat>, hooks: multiset<nat>, w: nat, u: nat)
    requires Numbers(multiset(sent) + hooks, w) && InTurn(sent) && u in hooks
    ensures InTurn(sent + [u]) <==> forall h: nat :: h in hooks ==> u <= h
  {
    hide Numbers;
    forall h: nat | h in hooks
      ensures |sent| < h <= w
    {
      WaitsBeyond(sent, hooks, w, h);
    }
    NextWaits(sent, hooks, w);
    assert (sent + [u])[|sent|] == u;
    var next: nat := |sent| + 1;
    assert next in hooks;
  }

  lemma LowestIsLowest(s: Fine, l: Link, i: nat, x: string)
    requires l in s.hooks && i < |s.hooks[l]| && s.hooks[l][i].objectId == x
    ensures InOrder(s, l, i) <==> forall h: nat :: h in multiset(Versions(s.hooks[l], x)) ==> s.hooks[l][i].version <= h
  {
    hide Versions;
    if InOrder(s, l, i) {
      forall h: nat | h in multiset(Versions(s.hooks[l], x))
        ensures s.hooks[l][i].version <= h
      {
        var d := VersionMember(s.hooks[l], x, h);
      }
    } else {
      var j :| 0 <= j < |s.hooks[l]| && s.hooks[l][j].objectId == x && s.hooks[l][j].version < s.hooks[l][i].version;
      VersionOf(s.hooks[l], s.hooks[l][j]);
      var h: nat := s.hooks[l][j].version;
      assert h in multiset(Versions(s.hooks[l], x));
    }
  }

  lemma {:induction false} InTurnIffInOrder(c: Config, run: seq<FineStep>, l: Link, x: string)
    requires WellFormed(c) && IsSole(c, l) && OnlyWriter(c, run, l.src, x) && TidyRun(run, l)
    ensures InTurn(Sent(c, run, l, x)) <==> SentInOrder(c, run, l, x)
  {
    hide FineNext, FineEnabled, WritesAt, Tidy, InOrder, InTurn, Versions, Steady, Fed;
    if run == [] {
      NothingInTurn();
    } else {
      var init, s, step := run[..|run| - 1], FineAfter(c, run[..|run| - 1]), run[|run| - 1];
      assert TidyRun(init, l);
      InTurnIffInOrder(c, init, l, x);
      RunIsSteady(c, init, l, x);
      assert Sent(c, init, l, x) + [] == Sent(c, init, l, x);
      if FineEnabled(s, step) { TurnIffOrder(c, s, step, l, x, Sent(c, init, l, x)); }
    }
  }

  lemma NothingInTurn()
    ensures InTurn([])
  {
  }

  lemma TurnIffOrder(c: Config, s: Fine, step: FineStep, l: Link, x: string, sent: seq<nat>)
    requires WellFormed(c) && FineShaped(c, s) && l in c.links && Fed(ViewOf(c, s, l, x), sent) && FineEnabled(s, step)
    ensures InTurn(sent + SentNow(s, step, l, x)) <==> InTurn(sent) && LowestOf(s, step, l, x)
  {
    hide Versions, Replay, Ahead, At;
    var now := SentNow(s, step, l, x);
    if step.Fire? && step.link == l && s.hooks[l][step.i].objectId == x {
      var u := s.hooks[l][step.i].version;
      VersionsOne(s.hooks[l][step.i], x);
      SentWasHooked(s, step, l, x, u);
      LowestIsLowest(s, l, step.i, x);
      if InTurn(sent + now) {
        forall i | 0 <= i < |sent|
          ensures sent[i] == i + 1
        {
          assert (sent + now)[i] == sent[i];
        }
      }
      if InTurn(sent) { NextInTurn(sent, ViewOf(c, s, l, x).hooks, ViewOf(c, s, l, x).w, u); }
    } else {
      if step.Fire? && step.link == l { VersionsOne(s.hooks[l][step.i], x); }
      assert sent + now == sent;
    }
  }

  // ---------------------------------------------------------------------------
  // The theorem
  // ---------------------------------------------------------------------------

  /** What overtaking comes to. A node hears of `x`, which only its one neighbour writes, over one link, whose
      queue loses and reorders nothing; the neighbour's hooks of `x` go onto the link in some order, and anything
      goes elsewhere. Once all is quiet the node is where that order takes it, never beyond the writer;
      and it is as far as the writer if and only if each hook was the lowest that waited. */
  lemma {:induction false} EndsWhereSentTo(c: Config, run: seq<FineStep>, l: Link, x: string)
    requires WellFormed(c) && IsSole(c, l) && OnlyWriter(c, run, l.src, x) && TidyRun(run, l)
    requires FineQuiescent(FineAfter(c, run))
    ensures var s := FineAfter(c, run);
            && At(s, l.dst, x) == Replay(0, Sent(c, run, l, x)) <= At(s, l.src, x)
            && (At(s, l.dst, x) == At(s, l.src, x) <==> SentInOrder(c, run, l, x))
  {
    hide FineAfter, OnlyWriter, TidyRun, Sent, SentInOrder, Replay, Steady, InTurn, Numbers;
    var s, sent := FineAfter(c, run), Sent(c, run, l, x);
    RunIsSteady(c, run, l, x);
    QuietView(c, s, l, x);
    assert multiset(sent) + multiset{} == multiset(sent) && sent[..|sent|] == sent;
    ReplayTops(sent, At(s, l.src, x));
    InTurnIffInOrder(c, run, l, x);
  }

  lemma QuietView(c: Config, s: Fine, l: Link, x: string)
    requires WellFormed(c) && FineShaped(c, s) && l in c.links && FineQuiescent(s)
    ensures ViewOf(c, s, l, x).hooks == multiset{} && ViewOf(c, s, l, x).way == []
  {
    assert s.net.queues[l] == [] && s.net.nodes[l.dst].prog == [] && s.busy[l.dst] == Idle && s.hooks[l] == [];
    assert Ahead(s, l) == [];
  }
}

/** A run in which the hook of a node's second version overtakes that of its first: nothing is lost and
    every queue keeps its order, and yet the versions stay apart. */
module Overtaking {
  import opened Base
  import opened Protocol
  import opened Worlds
  import opened PeerNode
  import opened GossipNet
  import opened Traffic
  import opened Reaching
  import opened HookNet
  import opened Divergence
  import P = Peering

  /** A state of the pair; node a is never between two steps of an instruction here. */
  function Scene(a: NodeState, b: NodeState, toB: seq<Envelope>, toA: seq<Envelope>, hooksB: seq<ObjectDiff>,
                 hooksA: seq<ObjectDiff>, busyB: Busy): Fine {
    Fine(Net(map["a" := a, "b" := b], map[A_TO_B := toB, B_TO_A := toA]), map[A_TO_B := hooksB, B_TO_A := hooksA],
         map["a" := Idle, "b" := busyB])
  }

  ghost predicate Goes(s: Fine, step: FineStep, t: Fine) {
    FineEnabled(s, step) && FineNext(PAIR, s, step) == t
  }

  lemma PairHooks(hooksB: seq<ObjectDiff>, hooksA: seq<ObjectDiff>, d: ObjectDiff)
    ensures var hooks := map[A_TO_B := hooksB, B_TO_A := hooksA];
            && (map l | l in hooks :: if l.src == "a" then hooks[l] + [d] else hooks[l])
                 == map[A_TO_B := hooksB + [d], B_TO_A := hooksA]
            && (map l | l in hooks :: if l.src == "b" then hooks[l] + [d] else hooks[l])
                 == map[A_TO_B := hooksB, B_TO_A := hooksA + [d]]
  {
    TwoNodes();
  }

  lemma PairLinks<T>(x: T, y: T, z: T)
    ensures map[A_TO_B := x, B_TO_A := y][A_TO_B := z] == map[A_TO_B := z, B_TO_A := y]
    ensures map[A_TO_B := x, B_TO_A := y][B_TO_A := z] == map[A_TO_B := x, B_TO_A := z]
    ensures A_TO_B != B_TO_A
  {
    TwoNodes();
  }

  lemma PairNodes(a: NodeState, b: NodeState, n: NodeState)
    ensures map["a" := a, "b" := b]["a" := n] == map["a" := n, "b" := b]
    ensures map["a" := a, "b" := b]["b" := n] == map["a" := a, "b" := n]
  {
    TwoNodes();
  }

  lemma StoredCopy(objs: Objects, data: Bytes, v: nat)
    requires v == Version(objs, "x") + 1 && ("x" in objs ==> objs["x"].tags == None && objs["x"].meta == None)
    ensures Outcome(objs, Write(data)) == Applied(Copy(data, v))
    ensures ApplyTo(objs, Write(data)) == objs["x" := Copy(data, v)]
    ensures HookDiff(Copy(data, v)) == DiffFor(data, v)
  {
  }

  lemma AStores(a: NodeState, b: NodeState, data: Bytes, v: nat, hooks: seq<ObjectDiff>)
    requires v == Version(a.objects, "x") + 1
    requires "x" in a.objects ==> a.objects["x"].tags == None && a.objects["x"].meta == None
    ensures Goes(Scene(a, b, [], [], hooks, [], Idle), Plain(LocalApply("a", Write(data))),
                 Scene(a.(objects := a.objects["x" := Copy(data, v)]), b, [], [], hooks + [DiffFor(data, v)], [], Idle))
  {
    hide Outcome, ApplyTo, HookDiff, Copy, DiffFor, Write, Version;
    StoredCopy(a.objects, data, v);
    PairHooks(hooks, [], DiffFor(data, v));
    PairNodes(a, b, a.(objects := a.objects["x" := Copy(data, v)]));
  }

  lemma AFires(a: NodeState, b: NodeState, toB: seq<Envelope>, hooks: seq<ObjectDiff>, i: nat)
    requires i < |hooks|
    ensures Goes(Scene(a, b, toB, [], hooks, [], Idle), Fire(A_TO_B, i),
                 Scene(a, b, toB + [HookEnvelope(hooks[i])], [], Without(hooks, i), [], Idle))
  {
    hide Without, HookEnvelope;
    PairLinks(toB, [], toB + [HookEnvelope(hooks[i])]);
    PairLinks(hooks, [], Without(hooks, i));
  }

  lemma BFires(a: NodeState, b: NodeState, toB: seq<Envelope>, d: ObjectDiff, busy: Busy)
    ensures Goes(Scene(a, b, toB, [], [], [d], busy), Fire(B_TO_A, 0),
                 Scene(a, b, toB, [HookEnvelope(d)], [], [], busy))
  {
    assert Without([d], 0) == [];
    hide Without, HookEnvelope;
    PairLinks(toB, [], [HookEnvelope(d)]);
    PairLinks([], [d], []);
    assert [] + [HookEnvelope(d)] == [HookEnvelope(d)];
  }

  lemma BReceives(a: NodeState, b: NodeState, env: Envelope, rest: seq<Envelope>, d: ObjectDiff)
    requires Program(Reject, env, "a") == [Consider(d, "", "a")] && IdOf(env) !in b.seen && b.prog == []
    ensures Goes(Scene(a, b, [env] + rest, [], [], [], Idle), Plain(Deliver(A_TO_B, 0)),
                 Scene(a, b.(seen := b.seen + {IdOf(env)}, prog := [Consider(d, "", "a")]), rest, [], [], [], Idle))
  {
    assert Without([env] + rest, 0) == rest && ([env] + rest)[0] == env;
    hide Program, IdOf, Without;
    PairLinks([env] + rest, [], rest);
    PairNodes(a, b, b.(seen := b.seen + {IdOf(env)}, prog := [Consider(d, "", "a")]));
  }

  lemma AReceives(a: NodeState, b: NodeState, toB: seq<Envelope>, env: Envelope, d: ObjectDiff)
    requires Program(Reject, env, "b") == [Consider(d, "", "b")] && IdOf(env) !in a.seen && a.prog == []
    ensures Goes(Scene(a, b, toB, [env], [], [], Idle), Plain(Deliver(B_TO_A, 0)),
                 Scene(a.(seen := a.seen + {IdOf(env)}, prog := [Consider(d, "", "b")]), b, toB, [], [], [], Idle))
  {
    assert Without([env], 0) == [];
    hide Program, IdOf, Without;
    PairLinks(toB, [env], []);
    PairNodes(a, b, a.(seen := a.seen + {IdOf(env)}, prog := [Consider(d, "", "b")]));
  }

  /** A diff that is no news is skipped. */
  lemma BPasses(a: NodeState, b: NodeState, toB: seq<Envelope>, d: ObjectDiff)
    requires b.prog == [Consider(d, "", "a")] && d.objectId in b.objects && d.version <= b.objects[d.objectId].version
    ensures Goes(Scene(a, b, toB, [], [], [], Idle), Plain(Work("b")), Scene(a, b.(prog := []), toB, [], [], [], Idle))
  {
    TwoNodes();
    assert b.prog[1..] == [];
  }

  lemma APasses(a: NodeState, b: NodeState, toB: seq<Envelope>, d: ObjectDiff)
    requires a.prog == [Consider(d, "", "b")] && d.objectId in a.objects && d.version <= a.objects[d.objectId].version
    ensures Goes(Scene(a, b, toB, [], [], [], Idle), Plain(Work("a")), Scene(a.(prog := []), b, toB, [], [], [], Idle))
  {
    TwoNodes();
    assert a.prog[1..] == [];
  }

  lemma BTakesUp(a: NodeState, b: NodeState, toB: seq<Envelope>, d: ObjectDiff)
    requires b.prog == [Consider(d, "", "a")] && d.objectId !in b.objects
    ensures Goes(Scene(a, b, toB, [], [], [], Idle), Plain(Work("b")),
                 Scene(a, b.(prog := []), toB, [], [], [], Adopting(d, "", "a")))
  {
    TwoNodes();
    assert b.prog[1..] == [];
  }

  /** A node without the object takes any diff of it as version 1. */
  lemma BAdoptsAsFirst(a: NodeState, b: NodeState, toB: seq<Envelope>, data: Bytes, version: nat)
    requires b.objects == map[]
    ensures Goes(Scene(a, b, toB, [], [], [], Adopting(DiffFor(data, version), "", "a")), Plain(Work("b")),
                 Scene(a, b.(objects := map["x" := Copy(data, 1)]), toB, [], [], [DiffFor(data, 1)],
                       Hooking("x", 1, [P.Send(Encode("", WorldUpdate([DiffFor(data, version)])), "a")])))
  {
    hide Outcome, ApplyTo, HookDiff, Copy, DiffFor, Encode;
    FirstCopy(data, version);
    BStoresFirst(a, b, toB, data, version, Adopting(DiffFor(data, version), "", "a"));
    hide Stored;
    PairBusy(Adopting(DiffFor(data, version), "", "a"),
             Hooking("x", 1, [P.Send(Encode("", WorldUpdate([DiffFor(data, version)])), "a")]));
  }

  lemma BStoresFirst(a: NodeState, b: NodeState, toB: seq<Envelope>, data: Bytes, version: nat, busy: Busy)
    requires b.objects == map[]
    ensures Stored(Scene(a, b, toB, [], [], [], busy), "b", RequestFor(DiffFor(data, version), None))
         == Scene(a, b.(objects := map["x" := Copy(data, 1)]), toB, [], [], [DiffFor(data, 1)], busy)
  {
    hide Outcome, ApplyTo, HookDiff, Copy, DiffFor;
    TwoNodes();
    FirstCopy(data, version);
    PairHooks([], [], DiffFor(data, 1));
    assert [] + [DiffFor(data, 1)] == [DiffFor(data, 1)];
    PairNodes(a, b, b.(objects := map["x" := Copy(data, 1)]));
  }

  lemma PairBusy(b: Busy, b': Busy)
    ensures map["a" := Idle, "b" := b]["b" := b'] == map["a" := Idle, "b" := b']
  {
    TwoNodes();
  }

  lemma FirstCopy(data: Bytes, version: nat)
    ensures var req := RequestFor(DiffFor(data, version), None);
            Outcome(map[], req) == Applied(Copy(data, 1)) && ApplyTo(map[], req) == map["x" := Copy(data, 1)]
    ensures HookDiff(Copy(data, 1)) == DiffFor(data, 1) && DiffFor(data, version).objectId == "x"
    ensures Version(map[], "x") == 0
  {
  }

  /** What it forwards goes to nobody: its only peer is the sender. */
  lemma BFinishes(a: NodeState, b: NodeState, toB: seq<Envelope>, toA: seq<Envelope>, env: Envelope)
    ensures Goes(Scene(a, b, toB, toA, [], [], Hooking("x", 1, [P.Send(env, "a")])), Plain(Work("b")),
                 Scene(a, b, toB, toA, [], [], Idle))
  {
    hide Emit;
    NobodyElse(toB, toA, env);
    PairBusy(Hooking("x", 1, [P.Send(env, "a")]), Idle);
    assert Posted(Scene(a, b, toB, toA, [], [], Hooking("x", 1, [P.Send(env, "a")])), "b", "x", 1);
  }

  lemma NobodyElse(toB: seq<Envelope>, toA: seq<Envelope>, env: Envelope)
    ensures Emit(map[A_TO_B := toB, B_TO_A := toA], "b", [P.Send(env, "a")]) == map[A_TO_B := toB, B_TO_A := toA]
  {
    hide Addressed;
    TwoNodes();
    AddressedTwo(P.Send(env, "a"), P.Send(env, "a"), "a");
    assert toA + [] == toA;
  }

  lemma Onward(run: seq<FineStep>, k: nat, s: Fine, t: Fine)
    requires k < |run| && FineAfter(PAIR, run[..k]) == s && Goes(s, run[k], t)
    ensures FineAfter(PAIR, run[..k + 1]) == t
  {
    assert run[..k + 1][..k] == run[..k];
  }

  /** The labels of the run: two goroutines of node a store versions 1 and 2, the second hook goes out
      first, and then everything is delivered and handled in order. */
  predicate IsOvertaking(run: seq<FineStep>) {
    && |run| == 13 && run[0] == Plain(LocalApply("a", Write([1]))) && run[1] == Plain(LocalApply("a", Write([2])))
    && run[2] == Fire(A_TO_B, 1) && run[3] == Fire(A_TO_B, 0)
    && run[4] == Plain(Deliver(A_TO_B, 0)) && run[5] == Plain(Work("b")) && run[6] == Plain(Work("b"))
    && run[7] == Fire(B_TO_A, 0) && run[8] == Plain(Work("b")) && run[9] == Plain(Deliver(B_TO_A, 0))
    && run[10] == Plain(Work("a")) && run[11] == Plain(Deliver(A_TO_B, 0))
    && run[12] == Plain(Work("b"))
  }

  const FIRST: NodeState := NodeState(map[], {}, [])

  lemma StartScene(run: seq<FineStep>)
    ensures FineAfter(PAIR, run[..0]) == Scene(FIRST, FIRST, [], [], [], [], Idle)
  {
  }

  lemma StoresInTurn(a1: Objects, a2: Objects, d1: ObjectDiff, d2: ObjectDiff)
    requires a1 == map["x" := Copy([1], 1)] && a2 == map["x" := Copy([2], 2)] && d1 == DiffFor([1], 1)
    requires d2 == DiffFor([2], 2)
    ensures Goes(Scene(FIRST, FIRST, [], [], [], [], Idle), Plain(LocalApply("a", Write([1]))),
                 Scene(NodeState(a1, {}, []), FIRST, [], [], [d1], [], Idle))
    ensures Goes(Scene(NodeState(a1, {}, []), FIRST, [], [], [d1], [], Idle), Plain(LocalApply("a", Write([2]))),
                 Scene(NodeState(a2, {}, []), FIRST, [], [], [d1, d2], [], Idle))
  {
    hide Goes, Scene, Write;
    AStores(FIRST, FIRST, [1], 1, []);
    AStores(NodeState(a1, {}, []), FIRST, [2], 2, [d1]);
    assert a1["x" := Copy([2], 2)] == a2 && map[]["x" := Copy([1], 1)] == a1;
    assert [] + [d1] == [d1] && [d1] + [d2] == [d1, d2];
  }

  lemma TwoStored(run: seq<FineStep>, a2: Objects)
    requires |run| > 1 && run[0] == Plain(LocalApply("a", Write([1]))) && run[1] == Plain(LocalApply("a", Write([2])))
    requires a2 == map["x" := Copy([2], 2)]
    ensures FineAfter(PAIR, run[..2])
              == Scene(NodeState(a2, {}, []), FIRST, [], [], [DiffFor([1], 1), DiffFor([2], 2)], [], Idle)
  {
    var a1 := map["x" := Copy([1], 1)];
    var d1, d2 := DiffFor([1], 1), DiffFor([2], 2);
    StoresInTurn(a1, a2, d1, d2);
    StartScene(run);
    hide *;
    Onward(run, 0, Scene(FIRST, FIRST, [], [], [], [], Idle),
           Scene(NodeState(a1, {}, []), FIRST, [], [], [d1], [], Idle));
    Onward(run, 1, Scene(NodeState(a1, {}, []), FIRST, [], [], [d1], [], Idle),
           Scene(NodeState(a2, {}, []), FIRST, [], [], [d1, d2], [], Idle));
  }

  lemma FiredMessages(d1: ObjectDiff, d2: ObjectDiff, e1: Envelope, e2: Envelope)
    ensures Without([d1, d2], 1) == [d1] && Without([d1], 0) == [] && [] + [e2] == [e2] && [e2] + [e1] == [e2, e1]
    ensures [d1, d2][1] == d2 && [d1][0] == d1
  {
  }

  lemma SecondGoesFirst(run: seq<FineStep>, a: NodeState)
    requires |run| > 3 && run[2] == Fire(A_TO_B, 1) && run[3] == Fire(A_TO_B, 0)
    requires FineAfter(PAIR, run[..2]) == Scene(a, FIRST, [], [], [DiffFor([1], 1), DiffFor([2], 2)], [], Idle)
    ensures FineAfter(PAIR, run[..4]) == Scene(a, FIRST, [News([2], 2), News([1], 1)], [], [], [], Idle)
  {
    var d1, d2 := DiffFor([1], 1), DiffFor([2], 2);
    FiredMessages(d1, d2, News([1], 1), News([2], 2));
    hide *;
    AFires(a, FIRST, [], [d1, d2], 1);
    AFires(a, FIRST, [News([2], 2)], [d1], 0);
    Onward(run, 2, Scene(a, FIRST, [], [], [d1, d2], [], Idle), Scene(a, FIRST, [News([2], 2)], [], [d1], [], Idle));
    Onward(run, 3, Scene(a, FIRST, [News([2], 2)], [], [d1], [], Idle),
           Scene(a, FIRST, [News([2], 2), News([1], 1)], [], [], [], Idle));
  }

  /** The receiver takes version 2 as its first. */
  lemma SecondIsFirst(run: seq<FineStep>, a: NodeState)
    requires |run| > 8 && run[4] == Plain(Deliver(A_TO_B, 0)) && run[5] == Plain(Work("b"))
    requires run[6] == Plain(Work("b"))
    requires run[7] == Fire(B_TO_A, 0) && run[8] == Plain(Work("b"))
    requires FineAfter(PAIR, run[..4]) == Scene(a, FIRST, [News([2], 2), News([1], 1)], [], [], [], Idle)
    ensures var b := NodeState(map["x" := Copy([2], 1)], {IdOf(News([2], 2))}, []);
            FineAfter(PAIR, run[..9]) == Scene(a, b, [News([1], 1)], [News([2], 1)], [], [], Idle)
  {
    var env, d, back := News([2], 2), DiffFor([2], 2), DiffFor([2], 1);
    var b0 := NodeState(map[], {IdOf(env)}, []);
    var b1 := NodeState(map["x" := Copy([2], 1)], {IdOf(env)}, []);
    var rest := [News([1], 1)];
    var fwd := P.Send(Encode("", WorldUpdate([d])), "a");
    NewsProgram([2], 2, "a");
    BReceives(a, FIRST, env, rest, d);
    BTakesUp(a, b0.(prog := [Consider(d, "", "a")]), rest, d);
    BAdoptsAsFirst(a, b0, rest, [2], 2);
    BFires(a, b1, rest, back, Hooking("x", 1, [fwd]));
    BFinishes(a, b1, rest, [News([2], 1)], fwd.env);
    assert [env] + rest == [env, News([1], 1)] && {} + {IdOf(env)} == {IdOf(env)};
    hide *;
    Onward(run, 4, Scene(a, FIRST, [env, News([1], 1)], [], [], [], Idle),
           Scene(a, b0.(prog := [Consider(d, "", "a")]), rest, [], [], [], Idle));
    Onward(run, 5, Scene(a, b0.(prog := [Consider(d, "", "a")]), rest, [], [], [], Idle),
           Scene(a, b0, rest, [], [], [], Adopting(d, "", "a")));
    Onward(run, 6, Scene(a, b0, rest, [], [], [], Adopting(d, "", "a")),
           Scene(a, b1, rest, [], [], [back], Hooking("x", 1, [fwd])));
    Onward(run, 7, Scene(a, b1, rest, [], [], [back], Hooking("x", 1, [fwd])),
           Scene(a, b1, rest, [News([2], 1)], [], [], Hooking("x", 1, [fwd])));
    Onward(run, 8, Scene(a, b1, rest, [News([2], 1)], [], [], Hooking("x", 1, [fwd])),
           Scene(a, b1, rest, [News([2], 1)], [], [], Idle));
  }

  /** Neither side finds anything new in the rest. */
  lemma RestIsOld(run: seq<FineStep>, a: NodeState, b: NodeState)
    requires |run| > 12 && run[9] == Plain(Deliver(B_TO_A, 0)) && run[10] == Plain(Work("a"))
    requires run[11] == Plain(Deliver(A_TO_B, 0)) && run[12] == Plain(Work("b"))
    requires a == NodeState(map["x" := Copy([2], 2)], {}, [])
    requires b == NodeState(map["x" := Copy([2], 1)], {IdOf(News([2], 2))}, [])
    requires FineAfter(PAIR, run[..9]) == Scene(a, b, [News([1], 1)], [News([2], 1)], [], [], Idle)
    ensures FineAfter(PAIR, run[..13])
         == Scene(a.(seen := {IdOf(News([2], 1))}), b.(seen := b.seen + {IdOf(News([1], 1))}), [], [], [], [], Idle)
  {
    var envA, envB, dA, dB := News([2], 1), News([1], 1), DiffFor([2], 1), DiffFor([1], 1);
    var a', b' := a.(seen := {IdOf(envA)}), b.(seen := b.seen + {IdOf(envB)});
    NewsProgram([2], 1, "b");
    NewsProgram([1], 1, "a");
    NewsDiffer();
    AReceives(a, b, [envB], envA, dA);
    APasses(a'.(prog := [Consider(dA, "", "b")]), b, [envB], dA);
    BReceives(a', b, envB, [], dB);
    BPasses(a', b'.(prog := [Consider(dB, "", "a")]), [], dB);
    assert [envB] + [] == [envB] && {} + {IdOf(envA)} == {IdOf(envA)};
    hide *;
    Onward(run, 9, Scene(a, b, [envB], [envA], [], [], Idle),
           Scene(a'.(prog := [Consider(dA, "", "b")]), b, [envB], [], [], [], Idle));
    Onward(run, 10, Scene(a'.(prog := [Consider(dA, "", "b")]), b, [envB], [], [], [], Idle),
           Scene(a', b, [envB], [], [], [], Idle));
    Onward(run, 11, Scene(a', b, [envB], [], [], [], Idle),
           Scene(a', b'.(prog := [Consider(dB, "", "a")]), [], [], [], [], Idle));
    Onward(run, 12, Scene(a', b'.(prog := [Consider(dB, "", "a")]), [], [], [], [], Idle),
           Scene(a', b', [], [], [], [], Idle));
  }

  lemma NewsDiffer()
    ensures IdOf(News([1], 1)) != IdOf(News([2], 2))
  {
    assert News([1], 1).body.objects[0].version == 1 && News([2], 2).body.objects[0].version == 2;
  }

  lemma SceneIsQuiet(a: NodeState, b: NodeState)
    requires a.prog == [] && b.prog == []
    ensures FineQuiescent(Scene(a, b, [], [], [], [], Idle))
  {
  }

  /** When a hook overtakes another of the same object, versions need not converge: nothing is lost or
      taken out of turn, all is quiet in the end, and the writer is at version 2, the replica at 1. */
  lemma HooksMayOvertake(run: seq<FineStep>)
    requires IsOvertaking(run)
    ensures WellFormed(PAIR) && Connected(PAIR)
    ensures var a, b := map["x" := Copy([2], 2)], map["x" := Copy([2], 1)];
            && FineAfter(PAIR, run) == Scene(NodeState(a, {IdOf(News([2], 1))}, []),
                                             NodeState(b, {IdOf(News([2], 2)), IdOf(News([1], 1))}, []),
                                             [], [], [], [], Idle)
            && FineQuiescent(FineAfter(PAIR, run))
  {
    hide *;
    PairIsConnected();
    var a := NodeState(map["x" := Copy([2], 2)], {}, []);
    var b := NodeState(map["x" := Copy([2], 1)], {IdOf(News([2], 2))}, []);
    FirstNine(run, a, b);
    LastFour(run, a, b);
  }

  lemma FirstNine(run: seq<FineStep>, a: NodeState, b: NodeState)
    requires IsOvertaking(run) && a == NodeState(map["x" := Copy([2], 2)], {}, [])
    requires b == NodeState(map["x" := Copy([2], 1)], {IdOf(News([2], 2))}, [])
    ensures FineAfter(PAIR, run[..9]) == Scene(a, b, [News([1], 1)], [News([2], 1)], [], [], Idle)
  {
    hide FineAfter, Scene, Copy, News, IdOf, DiffFor, Write;
    TwoStored(run, a.objects);
    SecondGoesFirst(run, a);
    SecondIsFirst(run, a);
  }

  lemma LastFour(run: seq<FineStep>, a: NodeState, b: NodeState)
    requires IsOvertaking(run) && a == NodeState(map["x" := Copy([2], 2)], {}, [])
    requires b == NodeState(map["x" := Copy([2], 1)], {IdOf(News([2], 2))}, [])
    requires FineAfter(PAIR, run[..9]) == Scene(a, b, [News([1], 1)], [News([2], 1)], [], [], Idle)
    ensures FineAfter(PAIR, run)
              == Scene(a.(seen := {IdOf(News([2], 1))}), b.(seen := {IdOf(News([2], 2)), IdOf(News([1], 1))}),
                       [], [], [], [], Idle)
    ensures FineQuiescent(FineAfter(PAIR, run))
  {
    hide FineAfter, Scene, Copy, News, IdOf, DiffFor, Write, FineQuiescent;
    assert run[..13] == run;
    RestIsOld(run, a, b);
    assert b.seen + {IdOf(News([1], 1))} == {IdOf(News([2], 2)), IdOf(News([1], 1))};
    SceneIsQuiet(a.(seen := {IdOf(News([2], 1))}), b.(seen := b.seen + {IdOf(News([1], 1))}));
  }
}

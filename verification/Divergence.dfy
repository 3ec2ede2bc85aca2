/** Two small runs that show what convergence needs: a pair of nodes that agree on versions but
    not on data, and a pair whose versions stay apart after one lost message. */
module Divergence {
  import opened Base
  import opened Protocol
  import opened Worlds
  import opened Merge
  import opened PeerNode
  import opened GossipNet
  import opened Traffic
  import opened Reaching
  import P = Peering

  const A_TO_B := Link("a", "b")
  const B_TO_A := Link("b", "a")

  function Reject(sub: Submission): Decision {
    Decision(false, "", [])
  }

  function Untagged(n: NodeId): Option<seq<string>> {
    None
  }

  const PAIR := Config({"a", "b"}, {A_TO_B, B_TO_A}, Untagged, n => Reject)

  /** A state of the pair: what each node holds, what node b is handling, and what is in flight. */
  function Snap(a: Objects, b: Objects, seenA: set<MessageId>, seenB: set<MessageId>, progA: seq<Instr>,
                progB: seq<Instr>,
                toB: seq<Envelope>, toA: seq<Envelope>): Net {
    Net(map["a" := NodeState(a, seenA, progA), "b" := NodeState(b, seenB, progB)], map[A_TO_B := toB, B_TO_A := toA])
  }

  function Write(data: Bytes): UpdateRequest {
    UpdateRequest("x", Some(data), 0, None, None)
  }

  function Copy(data: Bytes, version: nat): Object {
    Object("x", Some(data), version, None, None)
  }

  function DiffFor(data: Bytes, version: nat): ObjectDiff {
    ObjectDiff("x", Some(data), version, None)
  }

  /** The change hook's message. */
  function News(data: Bytes, version: nat): Envelope {
    Envelope("", WorldUpdate([DiffFor(data, version)]), "")
  }

  lemma PairIsConnected()
    ensures WellFormed(PAIR) && Connected(PAIR)
  {
    forall a, b | a in PAIR.nodes && b in PAIR.nodes
      ensures exists p :: IsPath(PAIR, p) && p[0] == a && p[|p| - 1] == b
    {
      var p := if a == b then [a] else [a, b];
      assert IsPath(PAIR, p) && p[0] == a && p[|p| - 1] == b;
    }
  }

  lemma WriteExec(objs: Objects, data: Bytes)
    requires "x" in objs ==> objs["x"].tags == None && objs["x"].meta == None
    ensures var v := Version(objs, "x") + 1;
            Exec(objs, None, ApplyUpdate(Write(data)))
              == Effect(objs["x" := Copy(data, v)], [P.Send(News(data, v), "")])
  {
    HookOf(objs, Write(data));
    var sends := HookAll(ApplyEvents(objs, Write(data)));
    assert sends == [sends[0]];
  }

  lemma TwoNodes()
    ensures "a" != "b" && "a" != "" && "b" != "" && A_TO_B != B_TO_A
  {
    assert "a"[0] != "b"[0];
  }

  /** `lab` takes the pair from `s` to `s'`. */
  ghost predicate Leads(s: Net, lab: Label, s': Net) {
    Enabled(s, lab) && Next(PAIR, s, lab) == s'
  }

  lemma PairEmits(toB: seq<Envelope>, toA: seq<Envelope>, env: Envelope)
    ensures Emit(map[A_TO_B := toB, B_TO_A := toA], "a", [P.Send(env, "")]) == map[A_TO_B := toB + [env], B_TO_A := toA]
    ensures Emit(map[A_TO_B := toB, B_TO_A := toA], "b", [P.Send(env, "")]) == map[A_TO_B := toB, B_TO_A := toA + [env]]
  {
    hide Addressed;
    TwoNodes();
    AddressedTwo(P.Send(env, ""), P.Send(env, ""), "a");
    AddressedTwo(P.Send(env, ""), P.Send(env, ""), "b");
  }

  lemma AWrites(a: Objects, b: Objects, data: Bytes, v: nat)
    requires v == Version(a, "x") + 1 && ("x" in a ==> a["x"].tags == None && a["x"].meta == None)
    ensures Leads(Snap(a, b, {}, {}, [], [], [], []), LocalApply("a", Write(data)),
                  Snap(a["x" := Copy(data, v)], b, {}, {}, [], [], [News(data, v)], []))
  {
    hide Exec, Emit, Copy, News, Write, Version;
    TwoNodes();
    WriteExec(a, data);
    PairEmits([], [], News(data, v));
    assert [] + [News(data, v)] == [News(data, v)];
  }

  lemma BWrites(a: Objects, data: Bytes, toB: seq<Envelope>)
    ensures Leads(Snap(a, map[], {}, {}, [], [], toB, []), LocalApply("b", Write(data)),
                  Snap(a, map["x" := Copy(data, 1)], {}, {}, [], [], toB, [News(data, 1)]))
  {
    assert Version(map[], "x") == 0;
    hide Exec, Emit, Copy, News, Write, Version;
    TwoNodes();
    WriteExec(map[], data);
    PairEmits(toB, [], News(data, 1));
    var was := map["a" := NodeState(a, {}, []), "b" := NodeState(map[], {}, [])];
    assert was["b" := NodeState(map["x" := Copy(data, 1)], {}, [])]
             == map["a" := NodeState(a, {}, []), "b" := NodeState(map["x" := Copy(data, 1)], {}, [])];
    assert [] + [News(data, 1)] == [News(data, 1)];
  }

  lemma NewsProgram(data: Bytes, version: nat, from: NodeId)
    ensures Program(Reject, News(data, version), from) == [Consider(DiffFor(data, version), "", from)]
  {
    var ds := [DiffFor(data, version)];
    assert ds[..0] == [];
    assert Considers(ds, "", from) == [] + [Consider(DiffFor(data, version), "", from)];
  }

  lemma BHears(a: Objects, b: Objects, seenA: set<MessageId>, env: Envelope, d: ObjectDiff, toA: seq<Envelope>)
    requires Program(Reject, env, "a") == [Consider(d, "", "a")]
    ensures Leads(Snap(a, b, seenA, {}, [], [], [env], toA), Deliver(A_TO_B, 0),
                  Snap(a, b, seenA, {IdOf(env)}, [], [Consider(d, "", "a")], [], toA))
  {
    hide Program;
    TwoNodes();
    assert {} + {IdOf(env)} == {IdOf(env)};
    assert Without([env], 0) == [];
  }

  lemma AHears(a: Objects, b: Objects, seenB: set<MessageId>, env: Envelope, d: ObjectDiff, toB: seq<Envelope>)
    requires Program(Reject, env, "b") == [Consider(d, "", "b")]
    ensures Leads(Snap(a, b, {}, seenB, [], [], toB, [env]), Deliver(B_TO_A, 0),
                  Snap(a, b, {IdOf(env)}, seenB, [Consider(d, "", "b")], [], toB, []))
  {
    hide Program;
    TwoNodes();
    assert {} + {IdOf(env)} == {IdOf(env)};
    assert Without([env], 0) == [];
  }

  /** A diff that is no news is dropped. */
  lemma BSkips(a: Objects, b: Objects, seenA: set<MessageId>, seenB: set<MessageId>, d: ObjectDiff, toB: seq<Envelope>,
               toA: seq<Envelope>)
    requires d.objectId in b && d.version <= b[d.objectId].version
    ensures Leads(Snap(a, b, seenA, seenB, [], [Consider(d, "", "a")], toB, toA), Work("b"),
                  Snap(a, b, seenA, seenB, [], [], toB, toA))
  {
    hide Emit;
    EmitNothing(map[A_TO_B := toB, B_TO_A := toA], "b");
    var instr := Consider(d, "", "a");
    assert Exec(b, None, instr) == Effect(b, []);
    assert [instr][1..] == [];
  }

  lemma ASkips(a: Objects, b: Objects, seenA: set<MessageId>, seenB: set<MessageId>, d: ObjectDiff, toB: seq<Envelope>,
               toA: seq<Envelope>)
    requires d.objectId in a && d.version <= a[d.objectId].version
    ensures Leads(Snap(a, b, seenA, seenB, [Consider(d, "", "b")], [], toB, toA), Work("a"),
                  Snap(a, b, seenA, seenB, [], [], toB, toA))
  {
    hide Emit;
    EmitNothing(map[A_TO_B := toB, B_TO_A := toA], "a");
    var instr := Consider(d, "", "b");
    assert Exec(a, None, instr) == Effect(a, []);
    assert [instr][1..] == [];
  }

  /** One more label of a run. */
  lemma {:induction false} Onward(run: seq<Label>, k: nat, s: Net, s': Net)
    requires k < |run| && NetAfter(PAIR, run[..k]) == s && Leads(s, run[k], s')
    ensures NetAfter(PAIR, run[..k + 1]) == s'
  {
    assert run[..k + 1][..k] == run[..k];
  }

  lemma Start(run: seq<Label>)
    ensures NetAfter(PAIR, run[..0]) == Snap(map[], map[], {}, {}, [], [], [], [])
  {
  }

  lemma Settled(a: Objects, b: Objects, seenA: set<MessageId>, seenB: set<MessageId>)
    ensures Quiescent(Snap(a, b, seenA, seenB, [], [], [], []))
  {
  }

  // ---------------------------------------------------------------------------
  // Two writers
  // ---------------------------------------------------------------------------

  /** Versions converge, data need not: both nodes write before either hears of the other; without
      loss, once all is quiet, both are at version 1, each with its own data. */
  lemma DataMayDiverge(run: seq<Label>)
    requires |run| == 6 && run[0] == LocalApply("a", Write([1])) && run[1] == LocalApply("b", Write([2]))
    requires run[2] == Deliver(A_TO_B, 0) && run[3] == Work("b") && run[4] == Deliver(B_TO_A, 0) && run[5] == Work("a")
    ensures WellFormed(PAIR) && Connected(PAIR) && AllLossless(run)
    ensures var a, b := map["x" := Copy([1], 1)], map["x" := Copy([2], 1)];
            NetAfter(PAIR, run) == Snap(a, b, {IdOf(News([2], 1))}, {IdOf(News([1], 1))}, [], [], [], [])
              && Quiescent(NetAfter(PAIR, run))
  {
    PairIsConnected();
    var a, b := map["x" := Copy([1], 1)], map["x" := Copy([2], 1)];
    Settled(a, b, {IdOf(News([2], 1))}, {IdOf(News([1], 1))});
    NoLoss(run);
    assert run[..6] == run;
    hide NetAfter, Snap, AllLossless, WellFormed, Connected, IdOf, Copy, News, Quiescent, Write;
    BothWrite(run, a, b);
    BothHear(run, a, b);
  }

  lemma NoLoss(run: seq<Label>)
    requires |run| == 6 && run[0].LocalApply? && run[1].LocalApply?
    requires run[2] == Deliver(A_TO_B, 0) && run[3].Work? && run[4] == Deliver(B_TO_A, 0) && run[5].Work?
    ensures AllLossless(run)
  {
  }

  lemma BothWrite(run: seq<Label>, a: Objects, b: Objects)
    requires |run| >= 2 && run[0] == LocalApply("a", Write([1])) && run[1] == LocalApply("b", Write([2]))
    requires a == map["x" := Copy([1], 1)] && b == map["x" := Copy([2], 1)]
    ensures NetAfter(PAIR, run[..2]) == Snap(a, b, {}, {}, [], [], [News([1], 1)], [News([2], 1)])
  {
    AWrites(map[], map[], [1], 1);
    BWrites(a, [2], [News([1], 1)]);
    hide *;
    Start(run);
    Onward(run, 0, Snap(map[], map[], {}, {}, [], [], [], []), Snap(a, map[], {}, {}, [], [], [News([1], 1)], []));
    Onward(run, 1, Snap(a, map[], {}, {}, [], [], [News([1], 1)], []),
           Snap(a, b, {}, {}, [], [], [News([1], 1)], [News([2], 1)]));
  }

  lemma BothHear(run: seq<Label>, a: Objects, b: Objects)
    requires |run| >= 6 && run[2] == Deliver(A_TO_B, 0) && run[3] == Work("b") && run[4] == Deliver(B_TO_A, 0)
    requires run[5] == Work("a")
    requires NetAfter(PAIR, run[..2]) == Snap(a, b, {}, {}, [], [], [News([1], 1)], [News([2], 1)])
    requires a == map["x" := Copy([1], 1)] && b == map["x" := Copy([2], 1)]
    ensures NetAfter(PAIR, run[..6]) == Snap(a, b, {IdOf(News([2], 1))}, {IdOf(News([1], 1))}, [], [], [], [])
  {
    var envA, envB, dA, dB := News([1], 1), News([2], 1), DiffFor([1], 1), DiffFor([2], 1);
    NewsProgram([1], 1, "a");
    NewsProgram([2], 1, "b");
    BHears(a, b, {}, envA, dA, [envB]);
    BSkips(a, b, {}, {IdOf(envA)}, dA, [], [envB]);
    AHears(a, b, {IdOf(envA)}, envB, dB, []);
    ASkips(a, b, {IdOf(envB)}, {IdOf(envA)}, dB, [], []);
    hide *;
    Onward(run, 2, Snap(a, b, {}, {}, [], [], [envA], [envB]),
           Snap(a, b, {}, {IdOf(envA)}, [], [Consider(dA, "", "a")], [], [envB]));
    Onward(run, 3, Snap(a, b, {}, {IdOf(envA)}, [], [Consider(dA, "", "a")], [], [envB]),
           Snap(a, b, {}, {IdOf(envA)}, [], [], [], [envB]));
    Onward(run, 4, Snap(a, b, {}, {IdOf(envA)}, [], [], [], [envB]),
           Snap(a, b, {IdOf(envB)}, {IdOf(envA)}, [Consider(dB, "", "b")], [], [], []));
    Onward(run, 5, Snap(a, b, {IdOf(envB)}, {IdOf(envA)}, [Consider(dB, "", "b")], [], [], []),
           Snap(a, b, {IdOf(envB)}, {IdOf(envA)}, [], [], [], []));
  }

  // ---------------------------------------------------------------------------
  // One lost message
  // ---------------------------------------------------------------------------

  lemma ALoses(a: Objects, b: Objects, env: Envelope)
    ensures Leads(Snap(a, b, {}, {}, [], [], [env], []), Lose(A_TO_B, 0), Snap(a, b, {}, {}, [], [], [], []))
  {
    TwoNodes();
    assert Without([env], 0) == [];
  }

  /** A node without the object takes any diff of it as version 1, and tells its sender so. */
  lemma AdoptExec(data: Bytes, version: nat)
    requires version >= 1
    ensures Exec(map[], None, Consider(DiffFor(data, version), "", "a"))
         == Effect(map["x" := Copy(data, 1)], [P.Send(News(data, 1), ""), P.Send(News(data, version), "a")])
  {
    var d := DiffFor(data, version);
    HookOf(map[], RequestFor(d, None));
    var hook := HookAll(ApplyEvents(map[], RequestFor(d, None)));
    assert hook == [hook[0]];
    assert WireDiffs([d]) == [WireDiff(d)];
  }

  lemma BAdopts(a: Objects, seenB: set<MessageId>, data: Bytes, version: nat)
    requires version >= 1
    ensures Leads(Snap(a, map[], {}, seenB, [], [Consider(DiffFor(data, version), "", "a")], [], []), Work("b"),
                  Snap(a, map["x" := Copy(data, 1)], {}, seenB, [], [], [], [News(data, 1)]))
  {
    hide Exec, Addressed, News, DiffFor;
    TwoNodes();
    AdoptExec(data, version);
    AddressedTwo(P.Send(News(data, 1), ""), P.Send(News(data, version), "a"), "a");
    var instr := Consider(DiffFor(data, version), "", "a");
    var s := Snap(a, map[], {}, seenB, [], [instr], [], []);
    assert [instr][1..] == [];
    var s' := Next(PAIR, s, Work("b"));
    assert s'.queues[B_TO_A] == [News(data, 1)] && s'.queues[A_TO_B] == [];
    assert s'.queues == map[A_TO_B := [], B_TO_A := [News(data, 1)]];
  }

  /** A replica that missed one message lags for good: with one writer and one loss, once all is
      quiet, the writer is at version 2 and the other at version 1 with the same data. */
  lemma LossLeavesLag(run: seq<Label>)
    requires |run| == 7 && run[0] == LocalApply("a", Write([1])) && run[1] == Lose(A_TO_B, 0)
    requires run[2] == LocalApply("a", Write([2]))
    requires run[3] == Deliver(A_TO_B, 0) && run[4] == Work("b") && run[5] == Deliver(B_TO_A, 0) && run[6] == Work("a")
    ensures WellFormed(PAIR) && Connected(PAIR)
    ensures var a, b := map["x" := Copy([2], 2)], map["x" := Copy([2], 1)];
            NetAfter(PAIR, run) == Snap(a, b, {IdOf(News([2], 1))}, {IdOf(News([2], 2))}, [], [], [], [])
              && Quiescent(NetAfter(PAIR, run))
  {
    PairIsConnected();
    var a, b := map["x" := Copy([2], 2)], map["x" := Copy([2], 1)];
    Settled(a, b, {IdOf(News([2], 1))}, {IdOf(News([2], 2))});
    assert run[..7] == run;
    hide NetAfter, Snap, WellFormed, Connected, IdOf, Copy, News, Quiescent, Write;
    WriteLoseWrite(run, map["x" := Copy([1], 1)], a);
    LateHearing(run, a, b);
  }

  lemma AWritesTwice(a1: Objects, a2: Objects)
    requires a1 == map["x" := Copy([1], 1)] && a2 == map["x" := Copy([2], 2)]
    ensures Leads(Snap(map[], map[], {}, {}, [], [], [], []), LocalApply("a", Write([1])),
                  Snap(a1, map[], {}, {}, [], [], [News([1], 1)], []))
    ensures Leads(Snap(a1, map[], {}, {}, [], [], [], []), LocalApply("a", Write([2])),
                  Snap(a2, map[], {}, {}, [], [], [News([2], 2)], []))
  {
    hide Leads, Snap, News, Write;
    AWrites(map[], map[], [1], 1);
    AWrites(a1, map[], [2], 2);
    assert a1["x" := Copy([2], 2)] == a2;
  }

  lemma WriteLoseWrite(run: seq<Label>, a1: Objects, a2: Objects)
    requires |run| >= 3 && run[0] == LocalApply("a", Write([1])) && run[1] == Lose(A_TO_B, 0)
    requires run[2] == LocalApply("a", Write([2]))
    requires a1 == map["x" := Copy([1], 1)] && a2 == map["x" := Copy([2], 2)]
    ensures NetAfter(PAIR, run[..3]) == Snap(a2, map[], {}, {}, [], [], [News([2], 2)], [])
  {
    AWritesTwice(a1, a2);
    hide *;
    ALoses(a1, map[], News([1], 1));
    Start(run);
    Onward(run, 0, Snap(map[], map[], {}, {}, [], [], [], []), Snap(a1, map[], {}, {}, [], [], [News([1], 1)], []));
    Onward(run, 1, Snap(a1, map[], {}, {}, [], [], [News([1], 1)], []), Snap(a1, map[], {}, {}, [], [], [], []));
    Onward(run, 2, Snap(a1, map[], {}, {}, [], [], [], []), Snap(a2, map[], {}, {}, [], [], [News([2], 2)], []));
  }

  lemma LateHearing(run: seq<Label>, a: Objects, b: Objects)
    requires |run| >= 7 && run[3] == Deliver(A_TO_B, 0) && run[4] == Work("b") && run[5] == Deliver(B_TO_A, 0)
    requires run[6] == Work("a")
    requires NetAfter(PAIR, run[..3]) == Snap(a, map[], {}, {}, [], [], [News([2], 2)], [])
    requires a == map["x" := Copy([2], 2)] && b == map["x" := Copy([2], 1)]
    ensures NetAfter(PAIR, run[..7]) == Snap(a, b, {IdOf(News([2], 1))}, {IdOf(News([2], 2))}, [], [], [], [])
  {
    var env, reply, d, back := News([2], 2), News([2], 1), DiffFor([2], 2), DiffFor([2], 1);
    NewsProgram([2], 2, "a");
    NewsProgram([2], 1, "b");
    BHears(a, map[], {}, env, d, []);
    BAdopts(a, {IdOf(env)}, [2], 2);
    AHears(a, b, {IdOf(env)}, reply, back, []);
    ASkips(a, b, {IdOf(reply)}, {IdOf(env)}, back, [], []);
    hide *;
    Onward(run, 3, Snap(a, map[], {}, {}, [], [], [env], []),
           Snap(a, map[], {}, {IdOf(env)}, [], [Consider(d, "", "a")], [], []));
    Onward(run, 4, Snap(a, map[], {}, {IdOf(env)}, [], [Consider(d, "", "a")], [], []),
           Snap(a, b, {}, {IdOf(env)}, [], [], [], [reply]));
    Onward(run, 5, Snap(a, b, {}, {IdOf(env)}, [], [], [], [reply]),
           Snap(a, b, {IdOf(reply)}, {IdOf(env)}, [Consider(back, "", "b")], [], [], []));
    Onward(run, 6, Snap(a, b, {IdOf(reply)}, {IdOf(env)}, [Consider(back, "", "b")], [], [], []),
           Snap(a, b, {IdOf(reply)}, {IdOf(env)}, [], [], [], []));
  }
}

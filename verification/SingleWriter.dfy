/** When one node writes an object, every replica holds a prefix of that node's history. */
module SingleWriter {
  import opened Base
  import opened Protocol
  import opened Worlds
  import opened PeerNode
  import opened GossipNet
  import opened Traffic
  import opened Reaching
  import opened HookNet
  import opened FineTraffic
  import opened HookConvergence
  import opened FineConvergence
  import opened VersionCeiling

  /** In this run only `w` has submitted updates of `x` accepted, whether its event loop or any number of
      other goroutines apply them. */
  ghost predicate OnlyWriter(c: Config, run: seq<FineStep>, w: NodeId, x: string) {
    run == [] ||
    var init, step := run[..|run| - 1], run[|run| - 1];
    OnlyWriter(c, init, w, x) && WritesAt(c, FineAfter(c, init), step, w, x)
  }

  ghost predicate WritesAt(c: Config, s: Fine, step: FineStep, w: NodeId, x: string) {
    Makes(c, s, step, x) ==> ApplyOf(c, s, step).value.0 == w
  }

  function Extended(before: Objects, after: Objects, hist: seq<Object>, x: string): seq<Object> {
    if Version(after, x) > Version(before, x) && x in after then hist + [after[x]] else hist
  }

  /** The successive objects that `w` has held under `x`. */
  ghost function History(c: Config, run: seq<FineStep>, w: NodeId, x: string): seq<Object>
    requires w in c.nodes
  {
    if run == [] then []
    else
      var init := run[..|run| - 1];
      Extended(FineAfter(c, init).net.nodes[w].objects, FineAfter(c, run).net.nodes[w].objects,
               History(c, init, w, x), x)
  }

  /** The meta a replica ends with after the first `k` versions: the last one that an encoding
      keeps. */
  function MetaAt(hist: seq<Object>, k: nat): Option<Bytes>
    requires k <= |hist|
  {
    if k == 0 then None else Inherit(WireMeta(hist[k - 1].meta), MetaAt(hist, k - 1))
  }

  lemma {:induction false} MetaAtPrefix(hist: seq<Object>, o: Object, k: nat)
    requires k <= |hist|
    ensures MetaAt(hist + [o], k) == MetaAt(hist, k)
  {
    if k > 0 { MetaAtPrefix(hist, o, k - 1); }
  }

  lemma {:induction false} MetaAtOnWire(hist: seq<Object>, k: nat)
    requires k <= |hist|
    ensures WireMeta(MetaAt(hist, k)) == MetaAt(hist, k)
  {
    if k > 0 { MetaAtOnWire(hist, k - 1); }
  }

  // ---------------------------------------------------------------------------
  // The invariant
  // ---------------------------------------------------------------------------

  /** Versions count up from 1, and a field once present stays present. */
  ghost predicate Chain(hist: seq<Object>, x: string) {
    && (forall k :: 0 <= k < |hist| ==> hist[k].id == x && hist[k].version == k + 1)
    && (forall k :: 0 < k < |hist| && hist[k].meta.None? ==> hist[k - 1].meta.None?)
  }

  ghost predicate WriterHolds(objs: Objects, hist: seq<Object>, x: string) {
    Version(objs, x) == |hist| && (if hist == [] then x !in objs else x in objs && objs[x] == hist[|hist| - 1])
  }

  ghost predicate ReplicaHolds(objs: Objects, hist: seq<Object>, x: string) {
    x in objs ==>
      var k := objs[x].version;
      && 1 <= k <= |hist| && objs[x].id == x
      && objs[x].data == WireData(hist[k - 1].data) && objs[x].meta == MetaAt(hist, k)
  }

  /** A diff of `x` carries some version of the writer, either as the writer sent it or as a
      replica that inherited the meta sent it on. */
  ghost predicate Genuine(d: ObjectDiff, hist: seq<Object>, x: string) {
    d.objectId == x ==>
      && 1 <= d.version <= |hist|
      && d.data == WireData(hist[d.version - 1].data)
      && (d.meta == WireMeta(hist[d.version - 1].meta) || d.meta == MetaAt(hist, d.version))
  }

  /** A node that adopts a diff of `x` is not the writer, and still lacks the diff's version. */
  ghost predicate AdoptsNews(s: Fine, n: NodeId, w: NodeId, x: string)
    requires n in s.net.nodes && n in s.busy
  {
    s.busy[n].Adopting? && s.busy[n].diff.objectId == x ==> n != w && At(s, n, x) < s.busy[n].diff.version
  }

  ghost predicate Holds(objs: Objects, hist: seq<Object>, n: NodeId, w: NodeId, x: string) {
    if n == w then WriterHolds(objs, hist, x) else ReplicaHolds(objs, hist, x)
  }

  ghost predicate Follows(c: Config, s: Fine, hist: seq<Object>, w: NodeId, x: string) {
    && w in c.nodes && WellFormed(c) && FineShaped(c, s)
    && Chain(hist, x)
    && (forall n :: n in c.nodes ==> Holds(s.net.nodes[n].objects, hist, n, w, x) && AdoptsNews(s, n, w, x))
    && (forall d :: Carried(c, s, d) ==> Genuine(d, hist, x))
  }

  // ---------------------------------------------------------------------------
  // One apply
  // ---------------------------------------------------------------------------

  lemma GenuineGrows(d: ObjectDiff, hist: seq<Object>, o: Object, x: string)
    requires Genuine(d, hist, x)
    ensures Genuine(d, hist + [o], x)
  {
    if d.objectId == x { MetaAtPrefix(hist, o, d.version); }
  }

  lemma ReplicaGrows(objs: Objects, hist: seq<Object>, o: Object, x: string)
    requires ReplicaHolds(objs, hist, x)
    ensures ReplicaHolds(objs, hist + [o], x)
  {
    if x in objs { MetaAtPrefix(hist, o, objs[x].version); }
  }

  lemma GenuineOnWire(d: ObjectDiff, hist: seq<Object>, x: string)
    requires Genuine(d, hist, x)
    ensures Genuine(WireDiff(d), hist, x)
  {
    if d.objectId == x { MetaAtOnWire(hist, d.version); }
  }

  /** A genuine diff that is one version ahead takes a replica to the writer's next version, and
      the hook that the replica then fires is genuine. */
  lemma ReplicaAdopts(objs: Objects, tags: Option<seq<string>>, d: ObjectDiff, hist: seq<Object>, x: string)
    requires ReplicaHolds(objs, hist, x) && Genuine(d, hist, x) && d.objectId == x
    requires d.version == Version(objs, x) + 1
    ensures ReplicaHolds(ApplyTo(objs, RequestFor(d, tags)), hist, x)
    ensures Genuine(HookDiff(Outcome(objs, RequestFor(d, tags)).obj), hist, x)
  {
    MetaAtOnWire(hist, d.version);
    if d.version > 1 {
      assert x in objs;
      MetaAtOnWire(hist, d.version - 1);
    }
  }

  /** An apply at the writer extends the history by the version of `x` it makes, if any. */
  lemma WriteFollows(objs: Objects, req: UpdateRequest, hist: seq<Object>, x: string)
    requires Chain(hist, x) && WriterHolds(objs, hist, x)
    ensures var hist' := Extended(objs, ApplyTo(objs, req), hist, x);
            && Chain(hist', x) && WriterHolds(ApplyTo(objs, req), hist', x)
            && (hist' == hist || exists o :: hist' == hist + [o])
            && (Outcome(objs, req).Applied? ==> Genuine(HookDiff(Outcome(objs, req).obj), hist', x))
  {
  }

  /** A refused update, or one of another object, leaves `x` alone. */
  lemma OtherFollows(objs: Objects, req: UpdateRequest, hist: seq<Object>, n: NodeId, w: NodeId, x: string)
    requires Holds(objs, hist, n, w, x) && (req.objectId != x || Outcome(objs, req).Refused?)
    ensures Holds(ApplyTo(objs, req), hist, n, w, x)
    ensures Outcome(objs, req).Applied? ==> Genuine(HookDiff(Outcome(objs, req).obj), hist, x)
  {
  }

  // ---------------------------------------------------------------------------
  // One step, and whole runs
  // ---------------------------------------------------------------------------

  ghost function HistoryAfter(c: Config, s: Fine, step: FineStep, hist: seq<Object>, w: NodeId, x: string): seq<Object>
    requires FineShaped(c, s) && FineEnabled(s, step) && w in c.nodes
  {
    Extended(s.net.nodes[w].objects, FineNext(c, s, step).net.nodes[w].objects, hist, x)
  }

  /** What an apply does to the store it changes, and what its hook carries. */
  lemma ApplyFollows(c: Config, s: Fine, step: FineStep, hist: seq<Object>, w: NodeId, x: string)
    requires FineInv(c, s) && Follows(c, s, hist, w, x) && FineEnabled(s, step) && WritesAt(c, s, step, w, x)
    requires ApplyOf(c, s, step).Some?
    ensures var (n, req) := ApplyOf(c, s, step).value;
            var hist' := HistoryAfter(c, s, step, hist, w, x);
            && n in c.nodes && Chain(hist', x) && (hist' == hist || exists o :: hist' == hist + [o])
            && Holds(ApplyTo(s.net.nodes[n].objects, req), hist', n, w, x)
            && (Outcome(s.net.nodes[n].objects, req).Applied? ==>
                  Genuine(HookDiff(Outcome(s.net.nodes[n].objects, req).obj), hist', x))
  {
    hide FineInv, FineNext, Carried, Genuine, ReplicaHolds, WriterHolds, Chain, ApplyTo, Outcome, HookDiff;
    var (n, req) := ApplyOf(c, s, step).value;
    StepStores(c, s, step);
    var objs := s.net.nodes[n].objects;
    if n == w {
      WriteFollows(objs, req, hist, x);
    } else {
      NothingExtended(s.net.nodes[w].objects, hist, x);
      if req.objectId == x && Outcome(objs, req).Applied? {
        AdoptedIsNext(c, s, n, w, x);
        NewsIsGenuine(c, s, n, hist, w, x);
        ReplicaAdopts(objs, c.tags(n), s.busy[n].diff, hist, x);
      } else {
        OtherFollows(objs, req, hist, n, w, x);
      }
    }
  }

  lemma NothingExtended(objs: Objects, hist: seq<Object>, x: string)
    ensures Extended(objs, objs, hist, x) == hist
  {
  }

  lemma AdoptedIsNext(c: Config, s: Fine, n: NodeId, w: NodeId, x: string)
    requires FineInv(c, s) && n in c.nodes && s.busy[n].Adopting? && s.busy[n].diff.objectId == x
    requires AdoptsNews(s, n, w, x)
    ensures s.busy[n].diff.version == At(s, n, x) + 1
  {
    hide FineInv;
    AdoptedIsInTurn(c, s, n);
  }

  lemma NewsIsGenuine(c: Config, s: Fine, n: NodeId, hist: seq<Object>, w: NodeId, x: string)
    requires FineInv(c, s) && Follows(c, s, hist, w, x) && n in c.nodes && s.busy[n].Adopting?
    ensures Genuine(s.busy[n].diff, hist, x)
  {
    hide Carried, Genuine, Holds, LinkFine;
    NodesAreSound(c, s);
    PassedIsCarried(c, s, n);
  }

  lemma HoldsGrows(objs: Objects, hist: seq<Object>, o: Object, n: NodeId, w: NodeId, x: string)
    requires n != w && Holds(objs, hist, n, w, x)
    ensures Holds(objs, hist + [o], n, w, x)
  {
    ReplicaGrows(objs, hist, o, x);
  }

  lemma StoresFollow(c: Config, s: Fine, step: FineStep, hist: seq<Object>, w: NodeId, x: string, n: NodeId)
    requires FineInv(c, s) && Follows(c, s, hist, w, x) && FineEnabled(s, step) && WritesAt(c, s, step, w, x)
    requires n in c.nodes
    ensures Holds(FineNext(c, s, step).net.nodes[n].objects, HistoryAfter(c, s, step, hist, w, x), n, w, x)
  {
    hide FineInv, FineNext, Carried, Genuine, Chain, ApplyTo, Outcome, HookDiff, Holds, ApplyOf;
    StepStores(c, s, step);
    NothingExtended(s.net.nodes[w].objects, hist, x);
    var apply, hist' := ApplyOf(c, s, step), HistoryAfter(c, s, step, hist, w, x);
    if apply.Some? {
      ApplyFollows(c, s, step, hist, w, x);
      if apply.value.0 != n && hist' != hist {
        var o :| hist' == hist + [o];
        assert n != w;
        HoldsGrows(s.net.nodes[n].objects, hist, o, n, w, x);
      }
    }
  }

  lemma DiffsFollow(c: Config, s: Fine, step: FineStep, hist: seq<Object>, w: NodeId, x: string, d: ObjectDiff)
    requires FineInv(c, s) && Follows(c, s, hist, w, x) && FineEnabled(s, step) && WritesAt(c, s, step, w, x)
    requires Carried(c, FineNext(c, s, step), d)
    ensures Genuine(d, HistoryAfter(c, s, step, hist, w, x), x)
  {
    hide FineInv, FineNext, Carried, Genuine, Chain, ApplyTo, Outcome, HookDiff, Holds, ApplyOf, Extended, WireDiff;
    InvSound(c, s);
    StepCarries(c, s, step, d);
    if FiresHook(c, s, step, d) {
      ApplyFollows(c, s, step, hist, w, x);
    } else {
      if PassesOn(s, step, d) {
        NewsIsGenuine(c, s, step.lab.n, hist, w, x);
        GenuineOnWire(s.busy[step.lab.n].diff, hist, x);
      }
      GenuineAfter(c, s, step, hist, w, x, d);
    }
  }

  lemma InvSound(c: Config, s: Fine)
    requires FineInv(c, s)
    ensures FineSound(c, s)
  {
    hide NodesFine, LinkFine;
    NodesAreSound(c, s);
  }

  lemma GenuineAfter(c: Config, s: Fine, step: FineStep, hist: seq<Object>, w: NodeId, x: string, d: ObjectDiff)
    requires FineInv(c, s) && Follows(c, s, hist, w, x) && FineEnabled(s, step) && WritesAt(c, s, step, w, x)
    requires Genuine(d, hist, x)
    ensures Genuine(d, HistoryAfter(c, s, step, hist, w, x), x)
  {
    hide FineInv, FineNext, Carried, Genuine, Chain, ApplyTo, Outcome, HookDiff, Holds, ApplyOf, Extended;
    StepStores(c, s, step);
    NothingExtended(s.net.nodes[w].objects, hist, x);
    if ApplyOf(c, s, step).Some? {
      ApplyFollows(c, s, step, hist, w, x);
      var hist' := HistoryAfter(c, s, step, hist, w, x);
      if hist' != hist {
        var o :| hist' == hist + [o];
        GenuineGrows(d, hist, o, x);
      }
    }
  }

  /** The writer never finds a diff of `x` newer than its own copy; a replica's copy stands still while it
      is between finding one newer and applying it. */
  lemma NewsFollows(c: Config, s: Fine, step: FineStep, hist: seq<Object>, w: NodeId, x: string, n: NodeId)
    requires FineInv(c, s) && Follows(c, s, hist, w, x) && FineEnabled(s, step) && WritesAt(c, s, step, w, x)
    requires n in c.nodes
    ensures AdoptsNews(FineNext(c, s, step), n, w, x)
  {
    hide FineInv, Carried, Genuine, Chain, ApplyTo, Outcome, HookDiff, Holds, Worked;
    assert AdoptsNews(s, n, w, x);
    if step == Plain(Work(n)) {
      LookupFollows(c, s, hist, w, x, n);
    } else {
      hide FineNext;
      BusySame(c, s, step, n);
      if n != w { StandsStill(c, s, step, w, x, n); }
    }
  }

  lemma StandsStill(c: Config, s: Fine, step: FineStep, w: NodeId, x: string, n: NodeId)
    requires FineShaped(c, s) && FineEnabled(s, step) && WritesAt(c, s, step, w, x) && n in c.nodes && n != w
    requires step != Plain(Work(n))
    ensures At(FineNext(c, s, step), n, x) == At(s, n, x)
  {
    hide FineNext;
    StepStores(c, s, step);
    if ApplyOf(c, s, step).Some? {
      ApplyBelow(s.net.nodes[ApplyOf(c, s, step).value.0].objects, ApplyOf(c, s, step).value.1, x);
    }
  }

  lemma LookupFollows(c: Config, s: Fine, hist: seq<Object>, w: NodeId, x: string, n: NodeId)
    requires FineInv(c, s) && Follows(c, s, hist, w, x) && n in c.nodes && FineEnabled(s, Plain(Work(n)))
    ensures AdoptsNews(Worked(c, s, n), n, w, x)
  {
    hide FineInv, Carried, Chain, Stored, Popped, Emit, Worked;
    InvSound(c, s);
    match s.busy[n] {
      case Adopting(_, _, _) => AdoptBelow(c, s, n, x);
      case Hooking(_, _, _) => HookedState(c, s, n);
      case Idle =>
        PoppedShape(c, s, n);
        WorkedIdle(c, s, n);
        if s.net.nodes[n].prog[0].Consider? { FoundIsGenuine(c, s, hist, w, x, n); }
    }
  }

  lemma FoundIsGenuine(c: Config, s: Fine, hist: seq<Object>, w: NodeId, x: string, n: NodeId)
    requires FineSound(c, s) && Follows(c, s, hist, w, x) && n in c.nodes
    requires s.net.nodes[n].prog != [] && s.net.nodes[n].prog[0].Consider?
    ensures Genuine(s.net.nodes[n].prog[0].diff, hist, x)
  {
    hide Ahead, Genuine, Chain, Holds;
    TakenIsAhead(c, s, n);
    assert Carried(c, s, s.net.nodes[n].prog[0].diff);
  }

  lemma {:induction false} FollowsStep(c: Config, s: Fine, step: FineStep, hist: seq<Object>, w: NodeId, x: string)
    requires FineInv(c, s) && Follows(c, s, hist, w, x) && FineEnabled(s, step) && WritesAt(c, s, step, w, x)
    ensures Follows(c, FineNext(c, s, step), HistoryAfter(c, s, step, hist, w, x), w, x)
  {
    hide FineInv, FineNext, FineEnabled, Carried, Genuine, Chain, Holds, AdoptsNews, ApplyOf, Extended, WritesAt;
    var t, hist' := FineNext(c, s, step), HistoryAfter(c, s, step, hist, w, x);
    ChainAfter(c, s, step, hist, w, x);
    forall n | n in c.nodes
      ensures Holds(t.net.nodes[n].objects, hist', n, w, x) && AdoptsNews(t, n, w, x)
    {
      StoresFollow(c, s, step, hist, w, x, n);
      NewsFollows(c, s, step, hist, w, x, n);
    }
    forall d | Carried(c, t, d)
      ensures Genuine(d, hist', x)
    {
      DiffsFollow(c, s, step, hist, w, x, d);
    }
  }

  lemma ChainAfter(c: Config, s: Fine, step: FineStep, hist: seq<Object>, w: NodeId, x: string)
    requires FineInv(c, s) && Follows(c, s, hist, w, x) && FineEnabled(s, step) && WritesAt(c, s, step, w, x)
    ensures Chain(HistoryAfter(c, s, step, hist, w, x), x)
  {
    hide FineInv, FineNext, FineEnabled, Carried, Genuine, Chain, Holds, AdoptsNews, ApplyOf, Extended, WritesAt;
    StepStores(c, s, step);
    NothingExtended(s.net.nodes[w].objects, hist, x);
    if ApplyOf(c, s, step).Some? { ApplyFollows(c, s, step, hist, w, x); }
  }

  lemma {:induction false} RunFollows(c: Config, run: seq<FineStep>, w: NodeId, x: string)
    requires WellFormed(c) && HarmlessRun(c, run) && w in c.nodes && OnlyWriter(c, run, w, x)
    ensures Follows(c, FineAfter(c, run), History(c, run, w, x), w, x)
  {
    hide FineInv, FineNext, FineEnabled, Harmless, Follows, WritesAt, Extended;
    if run == [] {
      FirstFollows(c, w, x);
    } else {
      var init, s := run[..|run| - 1], FineAfter(c, run[..|run| - 1]);
      RunFollows(c, init, w, x);
      HarmlessRunIsFine(c, init);
      NothingExtended(s.net.nodes[w].objects, History(c, init, w, x), x);
      if FineEnabled(s, run[|run| - 1]) {
        FollowsStep(c, s, run[|run| - 1], History(c, init, w, x), w, x);
      }
    }
  }

  lemma FirstFollows(c: Config, w: NodeId, x: string)
    requires WellFormed(c) && w in c.nodes
    ensures Follows(c, FineInit(c), [], w, x)
  {
    hide Carried;
    FirstCarriesNothing(c);
  }

  // ---------------------------------------------------------------------------
  // The theorems
  // ---------------------------------------------------------------------------

  /** Prefix consistency: in every state of a harmless run the writer is at the end of its history, and a
      replica at version k holds the writer's k-th data and meta as one encoding leaves them,
      including when the meta was absent and inherited. */
  lemma {:induction false} PrefixConsistency(c: Config, run: seq<FineStep>, w: NodeId, x: string, n: NodeId)
    requires WellFormed(c) && HarmlessRun(c, run) && w in c.nodes && n in c.nodes && OnlyWriter(c, run, w, x)
    ensures var objs, hist := FineAfter(c, run).net.nodes[n].objects, History(c, run, w, x);
            var k := Version(objs, x);
            && k <= |hist| == At(FineAfter(c, run), w, x)
            && (n == w && k > 0 ==> objs[x] == hist[k - 1])
            && (n != w && k > 0 ==> objs[x].data == WireData(hist[k - 1].data) && objs[x].meta == MetaAt(hist, k))
  {
    hide FineAfter, History, OnlyWriter, HarmlessRun, MetaAt, Carried;
    RunFollows(c, run, w, x);
    assert Holds(FineAfter(c, run).net.nodes[n].objects, History(c, run, w, x), n, w, x);
    assert Holds(FineAfter(c, run).net.nodes[w].objects, History(c, run, w, x), w, w, x);
  }

  lemma {:induction false} MetaNeverSet(hist: seq<Object>, k: nat, x: string)
    requires Chain(hist, x) && 0 < k <= |hist| && hist[k - 1].meta.None?
    ensures MetaAt(hist, k) == None
  {
    if k > 1 { MetaNeverSet(hist, k - 1, x); }
  }

  /** A replica's copy of version k is exactly the writer's if and only if the writer's k-th data
      was present and its k-th meta was not a present but empty slice. */
  lemma {:induction false} ExactCopy(c: Config, run: seq<FineStep>, w: NodeId, x: string, n: NodeId)
    requires WellFormed(c) && HarmlessRun(c, run) && w in c.nodes && n in c.nodes && n != w && OnlyWriter(c, run, w, x)
    requires At(FineAfter(c, run), n, x) > 0
    ensures var objs, hist := FineAfter(c, run).net.nodes[n].objects, History(c, run, w, x);
            var k := Version(objs, x);
            && k <= |hist|
            && (objs[x].data == hist[k - 1].data && objs[x].meta == hist[k - 1].meta
                <==> hist[k - 1].data.Some? && hist[k - 1].meta != Some([]))
  {
    hide FineAfter, History, OnlyWriter, HarmlessRun, Carried;
    RunFollows(c, run, w, x);
    var objs, hist := FineAfter(c, run).net.nodes[n].objects, History(c, run, w, x);
    assert Holds(objs, hist, n, w, x);
    MetaAtOnWire(hist, Version(objs, x));
    if hist[Version(objs, x) - 1].meta.None? {
      MetaNeverSet(hist, Version(objs, x), x);
    }
  }

  /** Once all is quiet every replica's version is the writer's, and its data and meta are those of
      the writer's latest object exactly when that object survives encoding. */
  lemma {:induction false} QuiescentReplicasAgree(c: Config, run: seq<FineStep>, w: NodeId, x: string, n: NodeId)
    requires WellFormed(c) && Connected(c) && HarmlessRun(c, run) && w in c.nodes && n in c.nodes
    requires OnlyWriter(c, run, w, x)
    requires FineQuiescent(FineAfter(c, run)) && x in FineAfter(c, run).net.nodes[w].objects
    ensures var s := FineAfter(c, run);
            var mine, theirs := s.net.nodes[w].objects[x], s.net.nodes[n].objects;
            && x in theirs && theirs[x].version == mine.version
            && (n != w ==>
                 (theirs[x].data == mine.data && theirs[x].meta == mine.meta
                  <==> mine.data.Some? && mine.meta != Some([])))
  {
    hide FineAfter, History, OnlyWriter, HarmlessRun, Connected, MetaAt, FineQuiescent;
    HarmlessRunsConverge(c, run, w, n, x);
    WriterIsPresent(c, run, w, x);
    PrefixConsistency(c, run, w, x, w);
    if n != w { ExactCopy(c, run, w, x, n); }
  }

  lemma WriterIsPresent(c: Config, run: seq<FineStep>, w: NodeId, x: string)
    requires WellFormed(c) && HarmlessRun(c, run) && w in c.nodes && OnlyWriter(c, run, w, x)
    requires x in FineAfter(c, run).net.nodes[w].objects
    ensures At(FineAfter(c, run), w, x) > 0
  {
    hide FineAfter, History, OnlyWriter, HarmlessRun, Carried;
    RunFollows(c, run, w, x);
    assert Holds(FineAfter(c, run).net.nodes[w].objects, History(c, run, w, x), w, w, x);
  }
}

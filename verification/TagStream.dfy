/** The session's part of a projector tick, one tag at a time: each `HasTag` takes the session's lock on its own, so
    subscriptions, updates and everything else may come between two comparisons. */
module TagStream {
  import opened Base
  import opened Protocol
  import opened Sessions
  import opened Worlds
  import opened Projector
  import D = DeltaStream

  /** What has been found for the snapshot's objects so far, and how many of the current object's tags (the star
      comes first) have been compared in vain. */
  datatype Work = Work(sid: string, found: seq<bool>, asked: nat)

  /** The projector serves one session at a time, in one goroutine. */
  datatype State = State(base: D.State, work: Option<Work>)

  datatype Step =
    | Other(l: D.Label)
    | Begin(sid: string)
    | Compare
    | Finish

  function Asks(o: Object): seq<string> {
    ["*"] + TagSeq(o.tags)
  }

  ghost predicate Enabled(s: State, step: Step) {
    match step
    case Other(l) => !l.TickSession? && (l.TickStart? ==> s.work.None?)
    case Begin(sid) => s.work.None? && sid in s.base.clients
    case Compare => s.work.Some? && |s.work.value.found| < |s.base.all| && s.work.value.sid in s.base.clients
    case Finish => s.work.Some? && |s.work.value.found| >= |s.base.all|
  }

  /** One comparison: of the next tag, or none is left and the object does not match. */
  function Compared(w: Work, o: Object, tags: set<string>): Work {
    if w.asked >= |Asks(o)| then Work(w.sid, w.found + [false], 0)
    else if Asks(o)[w.asked] in tags then Work(w.sid, w.found + [true], 0)
    else Work(w.sid, w.found, w.asked + 1)
  }

  /** The objects that were found to match. */
  function Found(all: seq<Object>, found: seq<bool>): Picks {
    (o: Object) => exists i :: 0 <= i < |all| && i < |found| && all[i] == o && found[i]
  }

  ghost function Next(valid: Bytes -> bool, s: State, step: Step): State
    requires Enabled(s, step)
  {
    match step
    case Other(l) => s.(base := D.Next(valid, s.base, l))
    case Begin(sid) => s.(work := Some(Work(sid, [], 0)))
    case Compare =>
      var w := s.work.value;
      s.(work := Some(Compared(w, s.base.all[|w.found|], s.base.clients[w.sid].session.tags)))
    case Finish =>
      State(D.Next(valid, s.base, D.TickSession(s.work.value.sid, Found(s.base.all, s.work.value.found))), None)
  }

  ghost function RunFrom(valid: Bytes -> bool, s: State, steps: seq<Step>): State {
    if steps == [] then s
    else
      var mid := RunFrom(valid, s, steps[..|steps| - 1]);
      if Enabled(mid, steps[|steps| - 1]) then Next(valid, mid, steps[|steps| - 1]) else mid
  }

  const START := State(D.State(map[], [], map[], [], map[]), None)

  /** Taken tag by tag, a run is a run of whole ticks with what the comparisons found. */
  lemma {:induction false} RunsAreStreams(valid: Bytes -> bool, steps: seq<Step>) returns (ls: seq<D.Label>)
    ensures RunFrom(valid, START, steps).base == D.Run(valid, ls)
  {
    hide D.Next, D.Run;
    if steps == [] {
      ls := [];
      StreamNothing(valid);
    } else {
      var s, step := RunFrom(valid, START, steps[..|steps| - 1]), steps[|steps| - 1];
      ls := RunsAreStreams(valid, steps[..|steps| - 1]);
      if Enabled(s, step) && step.Other? {
        StreamSnoc(valid, ls, step.l);
        ls := ls + [step.l];
      } else if Enabled(s, step) && step.Finish? {
        var l := D.TickSession(s.work.value.sid, Found(s.base.all, s.work.value.found));
        StreamSnoc(valid, ls, l);
        ls := ls + [l];
      }
    }
  }

  lemma StreamNothing(valid: Bytes -> bool)
    ensures D.Run(valid, []) == START.base
  {
  }

  lemma StreamSnoc(valid: Bytes -> bool, ls: seq<D.Label>, l: D.Label)
    ensures D.Run(valid, ls + [l]) == D.Next(valid, D.Run(valid, ls), l)
  {
    hide D.Next;
    assert (ls + [l])[..|ls|] == ls;
  }

  // ---------------------------------------------------------------------------
  // While a session is being served
  // ---------------------------------------------------------------------------

  ghost predicate Serving(s: State, sid: string, all: seq<Object>) {
    s.work.Some? && s.work.value.sid == sid && sid in s.base.clients && s.base.all == all
      && |s.work.value.found| <= |all|
      && (|s.work.value.found| == |all| ==> s.work.value.asked == 0)
  }

  lemma StillServing(valid: Bytes -> bool, s: State, step: Step, sid: string, all: seq<Object>)
    requires Serving(s, sid, all) && Enabled(s, step) && step != Finish
    ensures Serving(Next(valid, s, step), sid, all)
  {
    hide D.Served, ApplyTo, ApplyEvents;
  }

  ghost predicate TagThroughout(valid: Bytes -> bool, s: State, steps: seq<Step>, sid: string, g: string) {
    forall i :: 0 <= i <= |steps| ==>
      var c := RunFrom(valid, s, steps[..i]).base.clients;
      sid in c && g in c[sid].session.tags
  }

  ghost predicate NeverThroughout(valid: Bytes -> bool, s: State, steps: seq<Step>, sid: string, gs: seq<string>) {
    forall i, g :: 0 <= i <= |steps| && g in gs ==>
      var c := RunFrom(valid, s, steps[..i]).base.clients;
      sid in c && g !in c[sid].session.tags
  }

  /** `steps` serve the session up to the point where all objects have been compared. */
  ghost predicate Serves(valid: Bytes -> bool, s: State, steps: seq<Step>, sid: string) {
    && s.work == Some(Work(sid, [], 0)) && sid in s.base.clients && Finish !in steps
    && var w := RunFrom(valid, s, steps).work; w.Some? && |w.value.found| == |s.base.all|
  }

  /** A tag held all the time is found when its turn comes. */
  ghost predicate HeldIsFound(w: Work, all: seq<Object>, g: string) {
    && (forall j :: 0 <= j < |all| && j < |w.found| && g in Asks(all[j]) ==> w.found[j])
    && (|w.found| < |all| && g in Asks(all[|w.found|]) ==>
          exists p :: w.asked <= p < |Asks(all[|w.found|])| && Asks(all[|w.found|])[p] == g)
  }

  lemma FirstIsFound(w: Work, all: seq<Object>, g: string)
    requires w.found == [] && w.asked == 0
    ensures HeldIsFound(w, all, g)
  {
  }

  lemma NextIsFound(w: Work, all: seq<Object>, tags: set<string>, g: string)
    requires HeldIsFound(w, all, g) && |w.found| < |all| && g in tags
    ensures HeldIsFound(Compared(w, all[|w.found|], tags), all, g)
  {
    hide Asks;
    var w' := Compared(w, all[|w.found|], tags);
    if |w'.found| == |w.found| && g in Asks(all[|w.found|]) {
      var p :| w.asked <= p < |Asks(all[|w.found|])| && Asks(all[|w.found|])[p] == g;
      assert p != w.asked;
    }
    if w'.asked == 0 && |w'.found| < |all| && g in Asks(all[|w'.found|]) {
      var p :| 0 <= p < |Asks(all[|w'.found|])| && Asks(all[|w'.found|])[p] == g;
    }
  }

  lemma {:induction false} HeldThroughout(valid: Bytes -> bool, s: State, steps: seq<Step>, sid: string, g: string)
    requires s.work == Some(Work(sid, [], 0)) && sid in s.base.clients && Finish !in steps
    requires TagThroughout(valid, s, steps, sid, g)
    ensures var t := RunFrom(valid, s, steps);
            Serving(t, sid, s.base.all) && HeldIsFound(t.work.value, s.base.all, g)
  {
    hide Next, HeldIsFound;
    if steps == [] {
      FirstIsFound(s.work.value, s.base.all, g);
    } else {
      var init, step := steps[..|steps| - 1], steps[|steps| - 1];
      forall i | 0 <= i <= |init| ensures init[..i] == steps[..i] {}
      HeldThroughout(valid, s, init, sid, g);
      var mid := RunFrom(valid, s, init);
      if Enabled(mid, step) {
        StillServing(valid, mid, step, sid, s.base.all);
        assert steps[..|init|] == init;
        SameOrCompared(valid, mid, step);
        if step == Compare { NextIsFound(mid.work.value, s.base.all, mid.base.clients[sid].session.tags, g); }
      }
    }
  }

  lemma SameOrCompared(valid: Bytes -> bool, s: State, step: Step)
    requires Enabled(s, step) && s.work.Some? && step != Finish
    ensures Next(valid, s, step).work
         == if step != Compare then s.work
            else Some(Compared(s.work.value, s.base.all[|s.work.value.found|],
                               s.base.clients[s.work.value.sid].session.tags))
  {
    hide D.Next, Compared;
  }

  /** An object none of whose tags is ever held is not found. */
  ghost predicate NeverIsLeft(w: Work, all: seq<Object>, o: Object) {
    forall j :: 0 <= j < |all| && j < |w.found| && all[j] == o ==> !w.found[j]
  }

  lemma {:induction false} LeftThroughout(valid: Bytes -> bool, s: State, steps: seq<Step>, sid: string, o: Object)
    requires s.work == Some(Work(sid, [], 0)) && sid in s.base.clients && Finish !in steps
    requires NeverThroughout(valid, s, steps, sid, Asks(o))
    ensures var t := RunFrom(valid, s, steps);
            Serving(t, sid, s.base.all) && NeverIsLeft(t.work.value, s.base.all, o)
  {
    hide Next, Asks, Compared, NeverIsLeft;
    if steps == [] {
      assert NeverIsLeft(s.work.value, s.base.all, o) by { NothingFound(s.work.value, s.base.all, o); }
    } else {
      var init, step := steps[..|steps| - 1], steps[|steps| - 1];
      forall i | 0 <= i <= |init| ensures init[..i] == steps[..i] {}
      LeftThroughout(valid, s, init, sid, o);
      var mid := RunFrom(valid, s, init);
      if Enabled(mid, step) {
        StillServing(valid, mid, step, sid, s.base.all);
        assert steps[..|init|] == init;
        SameOrCompared(valid, mid, step);
        if step == Compare { NextIsLeft(mid.work.value, s.base.all, mid.base.clients[sid].session.tags, o); }
      }
    }
  }

  lemma NothingFound(w: Work, all: seq<Object>, o: Object)
    requires w.found == []
    ensures NeverIsLeft(w, all, o)
  {
  }

  lemma NextIsLeft(w: Work, all: seq<Object>, tags: set<string>, o: Object)
    requires NeverIsLeft(w, all, o) && |w.found| < |all| && forall g :: g in Asks(o) ==> g !in tags
    ensures NeverIsLeft(Compared(w, all[|w.found|], tags), all, o)
  {
    hide Asks;
  }

  // ---------------------------------------------------------------------------
  // What the session gets
  // ---------------------------------------------------------------------------

  /** The tick's message gets to the session: it is open with room, and every newer object found to match can be
      encoded. */
  predicate Goes(valid: Bytes -> bool, c: D.Client, all: seq<Object>, found: seq<bool>) {
    && HasRoom(c.session, 1)
    && forall i :: 0 <= i < |all| && i < |found| && found[i] && all[i].version > LastSeen(c.seen, all[i].id) ==>
         Encodable(valid, DiffOf(all[i]))
  }

  /** Whoever holds the star, or one of the object's tags, for as long as a tick serves it has the object of the
      snapshot, as encoded, when it is done: if the object was newer than what was put together for the session
      before and the message got there, or was not and had not been lost before; and, but for sessions on
      their way out, only then. */
  lemma HeldTagIsServed(valid: Bytes -> bool, past: seq<Step>, steps: seq<Step>, sid: string, g: string, id: string)
    requires var s := RunFrom(valid, START, past);
             Serves(valid, s, steps, sid) && TagThroughout(valid, s, steps, sid, g)
    requires var t := RunFrom(valid, RunFrom(valid, START, past), steps);
             && id in t.base.snap && (g == "*" || g in TagSeq(t.base.snap[id].tags)) && sid in t.base.clients
    ensures var t := RunFrom(valid, RunFrom(valid, START, past), steps);
            && Enabled(t, Finish) && sid in Next(valid, t, Finish).base.clients
            && var c, c', o := t.base.clients[sid], Next(valid, t, Finish).base.clients[sid], t.base.snap[id];
               var kept := if o.version > LastSeen(c.seen, id) then Goes(valid, c, t.base.all, t.work.value.found)
                           else id !in c.missing;
               (kept ==> D.HoldsCopy(c', o)) && (D.HoldsCopy(c', o) && !c.leaving ==> kept)
  {
    hide RunFrom, D.Run, D.HoldsCopy, D.Next, TagThroughout, HeldIsFound, Serving, D.Delivered, Goes, LastSeen;
    var s := RunFrom(valid, START, past);
    var t := RunFrom(valid, s, steps);
    var o := t.base.snap[id];
    HeldThroughout(valid, s, steps, sid, g);
    ServingMeans(t, sid, s.base.all);
    var picks := Found(t.base.all, t.work.value.found);
    var ls := RunsAreStreamsOn(valid, past, steps);
    InSnapshot(valid, ls, id);
    OnlyOne(valid, ls, id);
    var j :| 0 <= j < |t.base.all| && t.base.all[j] == o;
    FoundWhenHeld(t.work.value, t.base.all, g, j);
    assert picks(o);
    if o.version > LastSeen(t.base.clients[sid].seen, id) {
      GoesMeansDelivered(valid, t.base.clients[sid], t.base.all, t.work.value.found, o);
    }
    FinishNext(valid, t, sid);
    ThenHeld(valid, ls, sid, picks, id);
  }

  lemma ThenHeld(valid: Bytes -> bool, ls: seq<D.Label>, sid: string, picks: Picks, id: string)
    requires var s := D.Run(valid, ls);
             sid in s.clients && id in s.snap && picks(s.snap[id]) && s.snap[id].id == id
    ensures var s := D.Run(valid, ls); sid in D.Next(valid, s, D.TickSession(sid, picks)).clients
    ensures var s := D.Run(valid, ls);
            var c, c', o := s.clients[sid], D.Next(valid, s, D.TickSession(sid, picks)).clients[sid], s.snap[id];
            var kept := if o.version > LastSeen(c.seen, id) then D.Delivered(valid, c, picks, s.all)
                        else id !in c.missing;
            (kept ==> D.HoldsCopy(c', o)) && (D.HoldsCopy(c', o) && !c.leaving ==> kept)
  {
    hide D.Run, D.HoldsCopy, D.Delivered, D.AfterTick;
    D.DeltasRefineSnapshots(valid, ls, sid, picks, id);
  }

  lemma FinishNext(valid: Bytes -> bool, t: State, sid: string)
    requires Enabled(t, Finish) && t.work.value.sid == sid && sid in t.base.clients
    ensures var picks := Found(t.base.all, t.work.value.found);
            Next(valid, t, Finish).base == D.Next(valid, t.base, D.TickSession(sid, picks))
    ensures sid in Next(valid, t, Finish).base.clients
  {
    hide D.Served;
  }

  lemma ServingMeans(t: State, sid: string, all: seq<Object>)
    requires Serving(t, sid, all)
    ensures t.work.Some? && t.work.value.sid == sid && sid in t.base.clients && t.base.all == all
  {
  }

  lemma FoundWhenHeld(w: Work, all: seq<Object>, g: string, j: nat)
    requires HeldIsFound(w, all, g) && j < |all| == |w.found| && (g == "*" || g in TagSeq(all[j].tags))
    ensures w.found[j]
  {
    assert Asks(all[j])[0] == "*";
  }

  lemma InSnapshot(valid: Bytes -> bool, ls: seq<D.Label>, id: string)
    requires id in D.Run(valid, ls).snap
    ensures D.Run(valid, ls).snap[id] in D.Run(valid, ls).all
  {
    hide D.Run, D.ClientOk;
    D.RunKeeps(valid, ls);
  }

  /** With a newer object found there is a message, and what is in it are the newer objects found. */
  lemma GoesMeansDelivered(valid: Bytes -> bool, c: D.Client, all: seq<Object>, found: seq<bool>, o: Object)
    requires |found| == |all| && o in all && Due(Found(all, found), c.seen, o)
    ensures D.Delivered(valid, c, Found(all, found), all) <==> Goes(valid, c, all, found)
  {
    hide Encodable, DiffOf, Diffs, LastSeen;
    var picks := Found(all, found);
    var ds := Diffs(picks, c.seen, all);
    DiffsFrom(picks, c.seen, all);
    assert DiffOf(o) in ds;
    if Goes(valid, c, all, found) {
      forall i | 0 <= i < |ds|
        ensures Encodable(valid, ds[i])
      {
        assert ds[i] in ds;
      }
    }
    if D.Delivered(valid, c, picks, all) {
      forall i | 0 <= i < |all| && found[i] && all[i].version > LastSeen(c.seen, all[i].id)
        ensures Encodable(valid, DiffOf(all[i]))
      {
        assert Due(picks, c.seen, all[i]);
        assert DiffOf(all[i]) in ds;
      }
    }
  }

  lemma {:induction false} DiffsFrom(picks: Picks, seen: Seen, all: seq<Object>)
    ensures forall d :: d in Diffs(picks, seen, all) <==> exists o :: o in all && Due(picks, seen, o) && d == DiffOf(o)
  {
    hide DiffOf, Due;
    if all != [] {
      var init, o := all[..|all| - 1], all[|all| - 1];
      DiffsFrom(picks, seen, init);
      assert all == init + [o];
    }
  }

  lemma {:induction false} FromConcat(valid: Bytes -> bool, s: State, a: seq<Step>, b: seq<Step>)
    ensures RunFrom(valid, s, a + b) == RunFrom(valid, RunFrom(valid, s, a), b)
  {
    hide Next, Enabled;
    if b == [] {
      assert a + b == a;
    } else {
      assert (a + b)[..|a + b| - 1] == a + b[..|b| - 1];
      FromConcat(valid, s, a, b[..|b| - 1]);
    }
  }

  lemma RunsAreStreamsOn(valid: Bytes -> bool, past: seq<Step>, steps: seq<Step>) returns (ls: seq<D.Label>)
    ensures RunFrom(valid, RunFrom(valid, START, past), steps).base == D.Run(valid, ls)
  {
    hide RunFrom, D.Run;
    FromConcat(valid, START, past, steps);
    ls := RunsAreStreams(valid, past + steps);
  }

  /** Whoever holds neither the star nor any of the object's tags while a tick serves it is not sent the object:
      no diff of the tick's message, if there is one, is about it. */
  lemma UnheldTagsAreNotServed(valid: Bytes -> bool, past: seq<Step>, steps: seq<Step>, sid: string, id: string)
    requires var s := RunFrom(valid, START, past);
             && Serves(valid, s, steps, sid) && id in s.base.snap
             && NeverThroughout(valid, s, steps, sid, ["*"] + TagSeq(s.base.snap[id].tags))
    ensures var t := RunFrom(valid, RunFrom(valid, START, past), steps);
            && Enabled(t, Finish) && sid in t.base.clients && sid in Next(valid, t, Finish).base.clients
            && var was, now := t.base.clients[sid].session, Next(valid, t, Finish).base.clients[sid].session;
               was == now || exists ds :: Grew(was, now, [WorldDiffs(ds)]) && NotAbout(ds, id)
  {
    hide RunFrom, D.Run, D.Next, NeverThroughout, NeverIsLeft, Serving, Found;
    var s := RunFrom(valid, START, past);
    var t := RunFrom(valid, s, steps);
    var o := s.base.snap[id];
    LeftThroughout(valid, s, steps, sid, o);
    ServingMeans(t, sid, s.base.all);
    var ls := RunsAreStreamsOn(valid, past, []);
    RunNothing(valid, s);
    OnlyOne(valid, ls, id);
    FinishNext(valid, t, sid);
    LeftNotFound(t.work.value, t.base.all, o);
    LeftNotSent(valid, t, sid, o, Found(t.base.all, t.work.value.found));
  }

  lemma RunNothing(valid: Bytes -> bool, s: State)
    ensures RunFrom(valid, s, []) == s
  {
  }

  predicate NotAbout(ds: seq<ObjectDiff>, id: string) {
    forall i :: 0 <= i < |ds| ==> ds[i].objectId != id
  }

  lemma OnlyOne(valid: Bytes -> bool, ls: seq<D.Label>, id: string)
    requires id in D.Run(valid, ls).snap
    ensures var s := D.Run(valid, ls); s.snap[id].id == id && forall o :: o in s.all && o.id == id ==> o == s.snap[id]
  {
    hide D.Run, D.ClientOk;
    D.RunKeeps(valid, ls);
  }

  lemma LeftNotFound(w: Work, all: seq<Object>, o: Object)
    requires NeverIsLeft(w, all, o)
    ensures !Found(all, w.found)(o)
  {
  }

  lemma LeftNotSent(valid: Bytes -> bool, t: State, sid: string, o: Object, picks: Picks)
    requires sid in t.base.clients && !picks(o) && forall p :: p in t.base.all && p.id == o.id ==> p == o
    ensures var was := t.base.clients[sid].session;
            var now := D.Next(valid, t.base, D.TickSession(sid, picks)).clients[sid].session;
            was == now || exists ds :: Grew(was, now, [WorldDiffs(ds)]) && NotAbout(ds, o.id)
  {
    hide Diffs, WireDiffs, D.DueIds, SeenAfter, AllEncodable;
    var c := t.base.clients[sid];
    var ds := Diffs(picks, c.seen, t.base.all);
    DiffsFrom(picks, c.seen, t.base.all);
    forall i | 0 <= i < |ds|
      ensures ds[i].objectId != o.id
    {
      assert ds[i] in ds;
    }
    WireSubjects(ds, o.id);
    if TickedBy(valid, c.session, picks, c.seen, t.base.all) != c.session {
      assert Grew(c.session, TickedBy(valid, c.session, picks, c.seen, t.base.all), [WorldDiffs(WireDiffs(ds))]);
    }
  }

  lemma {:induction false} WireSubjects(ds: seq<ObjectDiff>, id: string)
    requires NotAbout(ds, id)
    ensures NotAbout(WireDiffs(ds), id)
  {
    if ds != [] { WireSubjects(ds[1..], id); }
  }
}

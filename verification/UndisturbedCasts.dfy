/** Broadcasts and listings that nothing interrupts: the steps of MissedWork, taken one after the other, come to
    what the server's handlers do in one go. */
module UndisturbedCasts {
  import opened Base
  import opened Protocol
  import opened Sessions
  import opened MissedWork
  import S = ServerSteps
  import T = Tasks

  ghost function RunFrom(s: State, steps: seq<Step>): State {
    if steps == [] then s
    else
      var mid := RunFrom(s, steps[..|steps| - 1]);
      if Enabled(mid, steps[|steps| - 1]) then Next(mid, steps[|steps| - 1]) else mid
  }

  lemma {:induction false} RunsOn(past: seq<Step>, steps: seq<Step>)
    ensures Run(past + steps) == RunFrom(Run(past), steps)
  {
    hide Next, Enabled;
    if steps == [] {
      assert past + steps == past;
    } else {
      assert (past + steps)[..|past + steps| - 1] == past + steps[..|steps| - 1];
      RunsOn(past, steps[..|steps| - 1]);
    }
  }

  lemma {:induction false} FromConcat(s: State, a: seq<Step>, b: seq<Step>)
    ensures RunFrom(s, a + b) == RunFrom(RunFrom(s, a), b)
  {
    hide Next, Enabled;
    if b == [] {
      assert a + b == a;
    } else {
      assert (a + b)[..|a + b| - 1] == a + b[..|b| - 1];
      FromConcat(s, a, b[..|b| - 1]);
    }
  }

  lemma FromOne(s: State, step: Step)
    ensures RunFrom(s, [step]) == if Enabled(s, step) then Next(s, step) else s
  {
    hide Next, Enabled;
    assert [step][..0] == [];
  }

  // ---------------------------------------------------------------------------
  // Broadcasts
  // ---------------------------------------------------------------------------

  /** Nothing but this broadcast moves. */
  predicate OnlyCast(steps: seq<Step>, k: (nat, nat)) {
    && steps != [] && steps[0] == SnapSessions(k)
    && forall i :: 0 < i < |steps| ==> steps[i].TryTag? && steps[i].cast == k
  }

  function Notice(c: Cast): Message {
    TaskAvailable(c.taskId, c.tags, c.hint)
  }

  /** A session still to be served is as it was and holds none of the tags compared so far. */
  predicate Waiting(was: SessionState, now: SessionState, tags: seq<string>, left: seq<string>) {
    && now == was && |left| <= |tags| && left == tags[|tags| - |left|..]
    && forall j :: 0 <= j < |tags| - |left| ==> tags[j] !in was.tags
  }

  /** Between its snapshot and its end: the sessions no longer on the list have been served. */
  ghost predicate Midway(before: States, c: Cast, s: State, k: (nat, nat)) {
    && k in s.casts && s.casts[k].left.Some? && s.casts[k] == c.(left := s.casts[k].left)
    && s.sessions.Keys == before.Keys && s.casts[k].left.value.Keys <= before.Keys
    && forall sid :: sid in before ==>
         if sid in s.casts[k].left.value then Waiting(before[sid], s.sessions[sid], c.tags, s.casts[k].left.value[sid])
         else s.sessions[sid] == Reached(before[sid], c.tags, Notice(c))
  }

  lemma SnapStarts(s: State, k: (nat, nat))
    requires Enabled(s, SnapSessions(k))
    ensures Midway(s.sessions, s.casts[k], Next(s, SnapSessions(k)), k)
  {
  }

  lemma TryGoesOn(before: States, c: Cast, s: State, k: (nat, nat), sid: string)
    requires Midway(before, c, s, k) && Enabled(s, TryTag(k, sid))
    ensures Midway(before, c, Next(s, TryTag(k, sid)), k)
  {
    hide Push;
    var left := s.casts[k].left.value[sid];
    if left != [] {
      assert left[0] == c.tags[|c.tags| - |left|];
      assert left[1..] == c.tags[|c.tags| - |left| + 1..];
    }
  }

  lemma {:induction false} CastGoesOn(s: State, k: (nat, nat), steps: seq<Step>)
    requires Enabled(s, SnapSessions(k)) && OnlyCast(steps, k)
    ensures Midway(s.sessions, s.casts[k], RunFrom(s, steps), k)
  {
    hide Next, Midway;
    var init := steps[..|steps| - 1];
    if init == [] {
      assert steps == [steps[0]];
      FromOne(s, steps[0]);
      SnapStarts(s, k);
    } else {
      CastGoesOn(s, k, init);
      if Enabled(RunFrom(s, init), steps[|steps| - 1]) {
        TryGoesOn(s.sessions, s.casts[k], RunFrom(s, init), k, steps[|steps| - 1].sid);
      }
    }
  }

  /** A broadcast whose steps nothing interrupts does, by the time it has served everyone, what the availability
      handler does: each open session with room that holds one of the tags (any session for no tags) gets the
      one notice, and nobody else is touched. */
  lemma CastIsBroadcast(s: State, k: (nat, nat), steps: seq<Step>, on: bool, v: S.Server, reason: string)
    requires Enabled(s, SnapSessions(k)) && OnlyCast(steps, k) && v.sessions == s.sessions
    requires var t := RunFrom(s, steps); k in t.casts && t.casts[k].left == Some(map[])
    ensures var c, after := s.casts[k], RunFrom(s, steps).sessions;
            && TellsAll(s.sessions, after, c.tags, TaskAvailable(c.taskId, c.tags, c.hint))
            && after == S.AfterEvent(on, v, T.Opened(c.taskId, c.tags, c.hint, reason)).sessions
  {
    hide RunFrom, TellsAll;
    CastGoesOn(s, k, steps);
    var c := s.casts[k];
    BroadcastTells(s.sessions, c.tags, Notice(c));
    assert RunFrom(s, steps).sessions == BroadcastTo(s.sessions, c.tags, Notice(c));
  }

  /** It can always be finished: each comparison takes a tag or a session off what is left. */
  lemma {:induction false} CastCanEnd(s: State, k: (nat, nat)) returns (steps: seq<Step>)
    requires k in s.casts && s.casts[k].left.Some?
    ensures forall i :: 0 <= i < |steps| ==> steps[i].TryTag? && steps[i].cast == k
    ensures var t := RunFrom(s, steps); k in t.casts && t.casts[k].left == Some(map[])
    decreases |s.casts[k].left.value|
  {
    hide Next, Enabled, RunFrom;
    var left := s.casts[k].left.value;
    if left == map[] {
      steps := [];
      FromNothing(s);
    } else {
      var sid :| sid in left;
      var first := SessionCanEnd(s, k, sid);
      var t := RunFrom(s, first);
      assert |t.casts[k].left.value| < |left| by {
        assert t.casts[k].left.value.Keys == left.Keys - {sid};
        assert |left.Keys - {sid}| == |left.Keys| - 1;
        assert |left.Keys| == |left| && |t.casts[k].left.value.Keys| == |t.casts[k].left.value|;
      }
      var rest := CastCanEnd(t, k);
      FromConcat(s, first, rest);
      steps := first + rest;
    }
  }

  lemma FromNothing(s: State)
    ensures RunFrom(s, []) == s
  {
  }

  lemma {:induction false} SessionCanEnd(s: State, k: (nat, nat), sid: string) returns (steps: seq<Step>)
    requires k in s.casts && s.casts[k].left.Some? && sid in s.casts[k].left.value
    ensures forall i :: 0 <= i < |steps| ==> steps[i].TryTag? && steps[i].cast == k
    ensures var t := RunFrom(s, steps);
            k in t.casts && t.casts[k].left.Some? && t.casts[k].left.value.Keys == s.casts[k].left.value.Keys - {sid}
    decreases |s.casts[k].left.value[sid]|
  {
    hide Next, Enabled, RunFrom;
    var t := OneTry(s, k, sid);
    FromOne(s, TryTag(k, sid));
    if sid !in t.casts[k].left.value {
      steps := [TryTag(k, sid)];
    } else {
      var rest := SessionCanEnd(t, k, sid);
      FromConcat(s, [TryTag(k, sid)], rest);
      steps := [TryTag(k, sid)] + rest;
    }
  }

  lemma OneTry(s: State, k: (nat, nat), sid: string) returns (t: State)
    requires k in s.casts && s.casts[k].left.Some? && sid in s.casts[k].left.value
    ensures Enabled(s, TryTag(k, sid)) && t == Next(s, TryTag(k, sid))
    ensures k in t.casts && t.casts[k].left.Some?
    ensures var was, now := s.casts[k].left.value, t.casts[k].left.value;
            if sid in now then now.Keys == was.Keys && |now[sid]| < |was[sid]| else now.Keys == was.Keys - {sid}
  {
    hide Push;
    t := Next(s, TryTag(k, sid));
  }

  // ---------------------------------------------------------------------------
  // Listings
  // ---------------------------------------------------------------------------

  lemma {:induction false} OffersFront(states: States, sid: string, ts: seq<T.Task>)
    requires ts != []
    ensures S.Offers(states, sid, ts)
         == S.Offers(SentTo(states, sid, TaskAvailable(ts[0].id, ts[0].tags, ts[0].hint)), sid, ts[1..])
  {
    hide SentTo;
    if |ts| == 1 {
      assert ts[..0] == [] && ts[1..] == [];
    } else {
      var init := ts[..|ts| - 1];
      OffersFront(states, sid, init);
      assert ts[1..][..|ts| - 2] == init[1..];
    }
  }

  lemma {:induction false} ListingGoesOn(s: State, sid: string, n: nat)
    requires sid in s.sessions && sid in s.listings && s.listings[sid].Reading? && n == |s.listings[sid].left|
    ensures RunFrom(s, seq(n, _ => SendListed(sid))).sessions == S.Offers(s.sessions, sid, s.listings[sid].left)
    decreases n
  {
    hide Next, S.Offers, RunFrom;
    var left, steps := s.listings[sid].left, seq(n, _ => SendListed(sid));
    if n == 0 {
      assert steps == [];
      FromNothing(s);
      assert S.Offers(s.sessions, sid, []) == s.sessions by { OffersNothing(s.sessions, sid); }
    } else {
      var t := OneListed(s, sid);
      assert steps == [SendListed(sid)] + seq(n - 1, _ => SendListed(sid));
      FromConcat(s, [SendListed(sid)], seq(n - 1, _ => SendListed(sid)));
      FromOne(s, SendListed(sid));
      OffersFront(s.sessions, sid, left);
      ListingGoesOn(t, sid, n - 1);
    }
  }

  lemma OffersNothing(states: States, sid: string)
    ensures S.Offers(states, sid, []) == states
  {
  }

  lemma OneListed(s: State, sid: string) returns (t: State)
    requires sid in s.sessions && sid in s.listings && s.listings[sid].Reading? && s.listings[sid].left != []
    ensures Enabled(s, SendListed(sid)) && t == Next(s, SendListed(sid))
    ensures var first := s.listings[sid].left[0];
            t.sessions == SentTo(s.sessions, sid, TaskAvailable(first.id, first.tags, first.hint))
    ensures sid in t.listings && t.listings[sid] == Reading(s.listings[sid].left[1..])
  {
    t := Next(s, SendListed(sid));
  }

  /** A listing whose steps nothing interrupts sends the session what the dispatcher's handler sends it: each
      task of it in turn, while there is room. */
  lemma ListingIsOffered(s: State, sid: string, listing: seq<T.Task>)
    requires Enabled(s, ReadList(sid, listing))
    ensures var steps := [ReadList(sid, listing)] + seq(|listing|, _ => SendListed(sid));
            var after := RunFrom(s, steps).sessions;
            && after == S.Offers(s.sessions, sid, listing)
            && sid in after && (forall p :: p in s.sessions && p != sid ==> p in after && after[p] == s.sessions[p])
            && (HasRoom(s.sessions[sid], |listing|) ==> Grew(s.sessions[sid], after[sid], S.Told(listing)))
  {
    hide RunFrom, S.Offers, S.Told;
    var t := Next(s, ReadList(sid, listing));
    FromConcat(s, [ReadList(sid, listing)], seq(|listing|, _ => SendListed(sid)));
    FromOne(s, ReadList(sid, listing));
    ListingGoesOn(t, sid, |listing|);
    S.OffersTell(s.sessions, sid, listing);
  }
}

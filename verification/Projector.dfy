/** The delta projector of internal/projector/projector.go. */
module Projector {
  import opened Base
  import opened Protocol
  import opened Sessions
  import opened Worlds

  /** The highest version of each object already put together for one session. */
  type Seen = map<string, nat>

  /** The star stands for every tag. */
  predicate Matches(tags: set<string>, objTags: seq<string>) {
    "*" in tags || HoldsAny(tags, objTags)
  }

  function LastSeen(seen: Seen, id: string): nat {
    if id in seen then seen[id] else 0
  }

  /** What the comparisons of one session's tags with each object's come to. They are made one after the
      other, and the tags may change in between. */
  type Picks = Object -> bool

  /** The same, while the tags stay as they are. */
  function PicksOf(tags: set<string>): Picks {
    (o: Object) => Matches(tags, TagSeq(o.tags))
  }

  predicate Due(picks: Picks, seen: Seen, o: Object) {
    picks(o) && o.version > LastSeen(seen, o.id)
  }

  function DiffOf(o: Object): ObjectDiff {
    ObjectDiff(o.id, o.data, o.version, o.meta)
  }

  /** The due objects of a snapshot, in its order. */
  function Diffs(picks: Picks, seen: Seen, all: seq<Object>): seq<ObjectDiff> {
    if all == [] then []
    else
      var o := all[|all| - 1];
      Diffs(picks, seen, all[..|all| - 1]) + if Due(picks, seen, o) then [DiffOf(o)] else []
  }

  function SeenAfter(picks: Picks, seen: Seen, all: seq<Object>): Seen {
    if all == [] then seen
    else
      var o := all[|all| - 1];
      var before := SeenAfter(picks, seen, all[..|all| - 1]);
      if Due(picks, seen, o) then before[o.id := o.version] else before
  }

  predicate DistinctIds(all: seq<Object>) {
    forall i, j :: 0 <= i < j < |all| ==> all[i].id != all[j].id
  }

  /** `all` lists every object of the store once. */
  ghost predicate Snapshot(all: seq<Object>, objs: Objects) {
    && DistinctIds(all)
    && (forall o :: o in all <==> o.id in objs && objs[o.id] == o)
  }

  /** Raw payloads are copied into the message and must be JSON; `valid` says which are. */
  predicate Encodable(valid: Bytes -> bool, d: ObjectDiff) {
    && valid(WireData(d.data).value)
    && (WireMeta(d.meta).Some? ==> valid(d.meta.value))
  }

  predicate AllEncodable(valid: Bytes -> bool, ds: seq<ObjectDiff>) {
    forall i :: 0 <= i < |ds| ==> Encodable(valid, ds[i])
  }

  /** What one tick does to one session. */
  function TickedBy(valid: Bytes -> bool, s: SessionState, picks: Picks, seen: Seen, all: seq<Object>): SessionState {
    var ds := Diffs(picks, seen, all);
    if ds != [] && AllEncodable(valid, ds) then Push(s, WorldDiffs(WireDiffs(ds))) else s
  }

  function Ticked(valid: Bytes -> bool, s: SessionState, seen: Seen, all: seq<Object>): SessionState {
    TickedBy(valid, s, PicksOf(s.tags), seen, all)
  }

  function SeenOf(seen: map<string, Seen>, sid: string): Seen {
    if sid in seen then seen[sid] else map[]
  }

  function TickedAll(valid: Bytes -> bool, states: States, seen: map<string, Seen>, all: seq<Object>): States {
    map sid | sid in states :: Ticked(valid, states[sid], SeenOf(seen, sid), all)
  }

  function SeenNext(states: States, seen: map<string, Seen>, all: seq<Object>, sid: string): Seen {
    if sid in states then SeenAfter(PicksOf(states[sid].tags), SeenOf(seen, sid), all) else SeenOf(seen, sid)
  }

  /** The sessions in `todo` are still as they were, the others have had their tick. */
  ghost predicate TickedPartly(valid: Bytes -> bool, states: States, was: map<string, Seen>, all: seq<Object>,
                               todo: set<string>,
                               now: States, seen: map<string, Seen>)
  {
    && todo <= states.Keys == now.Keys
    && (forall sid :: sid in todo ==> now[sid] == states[sid] && SeenOf(seen, sid) == SeenOf(was, sid))
    && (forall sid :: sid !in todo ==> SeenOf(seen, sid) == SeenNext(states, was, all, sid))
    && (forall sid :: sid in states && sid !in todo ==> now[sid] == Ticked(valid, states[sid], SeenOf(was, sid), all))
  }

  lemma TickStarts(valid: Bytes -> bool, states: States, was: map<string, Seen>, all: seq<Object>, todo: set<string>)
    requires todo == states.Keys
    ensures TickedPartly(valid, states, was, all, todo, states, was)
  {
  }

  lemma TickContinues(valid: Bytes -> bool, states: States, was: map<string, Seen>, all: seq<Object>, todo: set<string>,
                      sid: string,
                      now: States, seen: map<string, Seen>, now': States, seen': map<string, Seen>)
    requires TickedPartly(valid, states, was, all, todo + {sid}, now, seen) && sid in now && sid !in todo
    requires now' == now[sid := Ticked(valid, now[sid], SeenOf(seen, sid), all)]
    requires forall other :: other != sid ==> SeenOf(seen', other) == SeenOf(seen, other)
    requires SeenOf(seen', sid) == SeenNext(now, seen, all, sid)
    ensures TickedPartly(valid, states, was, all, todo, now', seen')
  {
    hide Ticked, SeenAfter, SeenOf;
  }

  lemma TickEnds(valid: Bytes -> bool, states: States, was: map<string, Seen>, all: seq<Object>, now: States,
                 seen: map<string, Seen>)
    requires TickedPartly(valid, states, was, all, {}, now, seen)
    ensures now == TickedAll(valid, states, was, all)
    ensures forall sid :: SeenOf(seen, sid) == SeenNext(states, was, all, sid)
  {
    hide Ticked, SeenOf;
  }

  /** With distinct ids, an object's entry is still the old one when the loop comes to it. */
  lemma {:induction false} SeenUntouched(picks: Picks, seen: Seen, all: seq<Object>, id: string)
    requires forall i :: 0 <= i < |all| ==> all[i].id != id
    ensures LastSeen(SeenAfter(picks, seen, all), id) == LastSeen(seen, id)
    ensures id in SeenAfter(picks, seen, all) <==> id in seen
  {
    if all != [] {
      SeenUntouched(picks, seen, all[..|all| - 1], id);
    }
  }

  /** The object is to be sent to a session with these tags: the session holds the star or one of the object's
      tags, and the object is newer than what was last put together for the session. */
  predicate Wanted(o: Object, tags: set<string>, seen: Seen) {
    && ("*" in tags || exists j :: 0 <= j < |TagSeq(o.tags)| && TagSeq(o.tags)[j] in tags)
    && (o.id in seen ==> o.version > seen[o.id]) && (o.id !in seen ==> o.version > 0)
  }

  /** `ds` are the wanted objects of the snapshot, in its order. */
  ghost predicate TellsWanted(ds: seq<ObjectDiff>, all: seq<Object>, tags: set<string>, seen: Seen) {
    exists at :: Places(at, ds, all, tags, seen)
  }

  /** The i-th diff is of the object at place `at[i]`; the places are those of the wanted objects, in order. */
  ghost predicate Places(at: seq<nat>, ds: seq<ObjectDiff>, all: seq<Object>, tags: set<string>, seen: Seen) {
    && |at| == |ds| && (forall i, j :: 0 <= i < j < |at| ==> at[i] < at[j])
    && (forall i :: 0 <= i < |at| ==> at[i] < |all| && Wanted(all[at[i]], tags, seen) && IsDiffOf(ds[i], all[at[i]]))
    && forall k :: 0 <= k < |all| && Wanted(all[k], tags, seen) ==> k in at
  }

  predicate IsDiffOf(d: ObjectDiff, o: Object) {
    d == ObjectDiff(o.id, o.data, o.version, o.meta)
  }

  /** The table has the versions of the wanted objects and is unchanged for all else. */
  ghost predicate NotesWanted(now: Seen, was: Seen, all: seq<Object>, tags: set<string>) {
    && (forall k :: 0 <= k < |all| && Wanted(all[k], tags, was) ==>
          all[k].id in now && now[all[k].id] == all[k].version)
    && forall id :: (forall k :: 0 <= k < |all| && all[k].id == id ==> !Wanted(all[k], tags, was)) ==>
         (id in now <==> id in was) && (id in was ==> now[id] == was[id])
  }

  lemma WantedMeans(tags: set<string>, seen: Seen, o: Object)
    ensures Due(PicksOf(tags), seen, o) <==> Wanted(o, tags, seen)
  {
  }

  lemma {:induction false} DiffsTell(tags: set<string>, seen: Seen, all: seq<Object>)
    ensures TellsWanted(Diffs(PicksOf(tags), seen, all), all, tags, seen)
  {
    hide Wanted, Due, PicksOf, Places;
    if all == [] {
      NoPlaces(tags, seen);
    } else {
      var init, o := all[..|all| - 1], all[|all| - 1];
      var ds := Diffs(PicksOf(tags), seen, init);
      DiffsTell(tags, seen, init);
      WantedMeans(tags, seen, o);
      var at :| Places(at, ds, init, tags, seen);
      assert all == init + [o];
      OneMorePlace(at, ds, init, o, tags, seen);
    }
  }

  lemma NoPlaces(tags: set<string>, seen: Seen)
    ensures Places([], [], [], tags, seen)
  {
  }

  lemma OneMorePlace(at: seq<nat>, ds: seq<ObjectDiff>, init: seq<Object>, o: Object, tags: set<string>, seen: Seen)
    requires Places(at, ds, init, tags, seen)
    ensures if Wanted(o, tags, seen) then Places(at + [|init|], ds + [DiffOf(o)], init + [o], tags, seen)
            else Places(at, ds, init + [o], tags, seen) && ds + [] == ds
  {
    hide Wanted;
    var all := init + [o];
    assert forall k :: 0 <= k < |init| ==> all[k] == init[k];
    if Wanted(o, tags, seen) {
      assert (at + [|init|])[|at|] == |init|;
    }
  }

  lemma {:induction false} SeenNotes(tags: set<string>, seen: Seen, all: seq<Object>)
    requires DistinctIds(all)
    ensures NotesWanted(SeenAfter(PicksOf(tags), seen, all), seen, all, tags)
  {
    hide Wanted, Due, PicksOf, NotesWanted;
    if all == [] {
      NothingNoted(seen, tags);
    } else {
      var init, o := all[..|all| - 1], all[|all| - 1];
      SeenNotes(tags, seen, init);
      WantedMeans(tags, seen, o);
      assert all == init + [o];
      OneMoreNote(SeenAfter(PicksOf(tags), seen, init), seen, init, o, tags);
    }
  }

  lemma NothingNoted(seen: Seen, tags: set<string>)
    ensures NotesWanted(seen, seen, [], tags)
  {
  }

  lemma OneMoreNote(now: Seen, was: Seen, init: seq<Object>, o: Object, tags: set<string>)
    requires NotesWanted(now, was, init, tags) && DistinctIds(init + [o])
    ensures NotesWanted(if Wanted(o, tags, was) then now[o.id := o.version] else now, was, init + [o], tags)
  {
    hide Wanted;
    var all := init + [o];
    assert all[|init|] == o && forall k :: 0 <= k < |init| ==> all[k] == init[k] && init[k].id != all[|init|].id;
  }

  method SessionMatchesAnyTag(s: Session, objTags: seq<string>) returns (b: bool)
    ensures b == Matches(s.tags, objTags)
    ensures "*" in s.tags ==> b
    ensures forall i :: 0 <= i < |objTags| && objTags[i] in s.tags ==> b
    ensures b && "*" !in s.tags ==> exists i :: 0 <= i < |objTags| && objTags[i] in s.tags
  {
    var star := s.HasTag("*");
    if star {
      return true;
    }
    for i := 0 to |objTags|
      invariant forall j :: 0 <= j < i ==> objTags[j] !in s.tags
    {
      var held := s.HasTag(objTags[i]);
      if held {
        return true;
      }
    }
    return false;
  }

  class Projector {
    const world: World
    const manager: Manager
    const valid: Bytes -> bool
    var seen: map<string, Seen>

    constructor (world: World, manager: Manager, valid: Bytes -> bool)
      ensures this.world == world && this.manager == manager && this.valid == valid && seen == map[]
    {
      this.world, this.manager, this.valid := world, manager, valid;
      seen := map[];
    }

    method ForgetSession(sid: string)
      modifies this
      ensures seen == old(seen) - {sid}
    {
      seen := seen - {sid};
    }

    method ComputeDiffs(s: Session, all: seq<Object>) returns (diffs: seq<ObjectDiff>)
      requires DistinctIds(all)
      modifies this
      ensures diffs == Diffs(PicksOf(s.tags), SeenOf(old(seen), s.id), all)
      ensures seen == old(seen)[s.id := SeenAfter(PicksOf(s.tags), SeenOf(old(seen), s.id), all)]
      ensures TellsWanted(diffs, all, s.tags, if s.id in old(seen) then old(seen)[s.id] else map[])
      ensures NotesWanted(seen[s.id], if s.id in old(seen) then old(seen)[s.id] else map[], all, s.tags)
    {
      hide TellsWanted, NotesWanted;
      DiffsTell(s.tags, SeenOf(seen, s.id), all);
      SeenNotes(s.tags, SeenOf(seen, s.id), all);
      ghost var before := SeenOf(seen, s.id);
      var mine := if s.id in seen then seen[s.id] else map[];
      diffs := [];
      for i := 0 to |all|
        invariant seen == old(seen)
        invariant diffs == Diffs(PicksOf(s.tags), before, all[..i])
        invariant mine == SeenAfter(PicksOf(s.tags), before, all[..i])
      {
        assert all[..i + 1][..i] == all[..i];
        SeenUntouched(PicksOf(s.tags), before, all[..i], all[i].id);
        var matches := SessionMatchesAnyTag(s, TagSeq(all[i].tags));
        if matches {
          var last := if all[i].id in mine then mine[all[i].id] else 0;
          if all[i].version > last {
            diffs := diffs + [DiffOf(all[i])];
            mine := mine[all[i].id := all[i].version];
          }
        }
      }
      assert all[..|all|] == all;
      seen := seen[s.id := mine];
    }

    /** One tick: a snapshot of the world, then each session against that snapshot. */
    method Tick() returns (all: seq<Object>)
      requires manager.Valid() && WellKeyed(world.objects)
      modifies this, manager.sessions.Values
      ensures manager.Valid() && Snapshot(all, world.objects)
      ensures manager.States() == TickedAll(valid, old(manager.States()), old(seen), all)
      ensures forall sid :: SeenOf(seen, sid) == SeenNext(old(manager.States()), old(seen), all, sid)
      ensures var was := old(manager.States());
              forall sid :: sid in was ==>
                var mine: Seen := if sid in old(seen) then old(seen)[sid] else map[];
                sid in manager.States()
                && exists ds :: TellsWanted(ds, all, was[sid].tags, mine)
                     && Posted(valid, was[sid], manager.States()[sid], ds)
    {
      hide TellsWanted, Posted;
      hide TickedPartly, Ticked, TickedAll, SeenNext, DistinctIds, SeenOf, Snapshot, WellKeyed;
      all := world.List([]);
      ListingIsSnapshot(all, world.objects);
      ghost var states, was := manager.States(), seen;
      var todo := manager.sessions.Keys;
      TickStarts(valid, states, was, all, todo);
      while todo != {}
        invariant manager.Valid() && todo <= manager.sessions.Keys == manager.States().Keys
        invariant TickedPartly(valid, states, was, all, todo, manager.States(), seen)
        decreases todo
      {
        ghost var before := todo;
        var sid :| sid in todo;
        todo := todo - {sid};
        ghost var now, its := manager.States(), seen;
        TickOne(sid, all);
        assert todo + {sid} == before;
        TickContinues(valid, states, was, all, todo, sid, now, its, manager.States(), seen);
      }
      TickEnds(valid, states, was, all, manager.States(), seen);
      EachPosted(valid, states, was, all);
    }

    method TickOne(sid: string, all: seq<Object>)
      requires manager.Valid() && sid in manager.sessions && DistinctIds(all)
      modifies this, manager.sessions.Values
      ensures manager.Valid()
      ensures manager.States()
                == old(manager.States())[sid := Ticked(valid, old(manager.States())[sid], SeenOf(old(seen), sid), all)]
      ensures forall other :: other != sid ==> SeenOf(seen, other) == SeenOf(old(seen), other)
      ensures SeenOf(seen, sid) == SeenNext(old(manager.States()), old(seen), all, sid)
    {
      hide SeenAfter, Diffs, TellsWanted, NotesWanted;
      var s := manager.sessions[sid];
      var diffs := ComputeDiffs(s, all);
      if diffs != [] && AllEncodable(valid, diffs) {
        var _ := s.Send(WorldDiffs(WireDiffs(diffs)));
      }
    }
  }

  /** The session has been sent these diffs in one message, as encoded, if there are any, all can be encoded, and
      the session is open and has room; otherwise nothing. */
  ghost predicate Posted(valid: Bytes -> bool, was: SessionState, now: SessionState, ds: seq<ObjectDiff>) {
    var goes := ds != [] && (forall i :: 0 <= i < |ds| ==> Encodable(valid, ds[i])) && HasRoom(was, 1);
    Grew(was, now, if goes then [WorldDiffs(WireDiffs(ds))] else [])
  }

  lemma EachPosted(valid: Bytes -> bool, states: States, seen: map<string, Seen>, all: seq<Object>)
    ensures forall sid :: sid in states ==>
              var mine: Seen := if sid in seen then seen[sid] else map[];
              exists ds :: TellsWanted(ds, all, states[sid].tags, mine)
                && Posted(valid, states[sid], TickedAll(valid, states, seen, all)[sid], ds)
  {
    hide TellsWanted, WireDiffs, Encodable, Diffs;
    forall sid | sid in states
      ensures var mine: Seen := if sid in seen then seen[sid] else map[];
              exists ds :: TellsWanted(ds, all, states[sid].tags, mine)
                && Posted(valid, states[sid], TickedAll(valid, states, seen, all)[sid], ds)
    {
      var mine: Seen := if sid in seen then seen[sid] else map[];
      DiffsTell(states[sid].tags, mine, all);
      assert Posted(valid, states[sid], TickedAll(valid, states, seen, all)[sid],
                    Diffs(PicksOf(states[sid].tags), mine, all));
    }
  }

  lemma ListingIsSnapshot(all: seq<Object>, objs: Objects)
    requires WellKeyed(objs) && NoDuplicates(all)
    requires forall o :: o in all <==> o.id in objs && objs[o.id] == o && Listed(o, [])
    ensures Snapshot(all, objs)
  {
    forall i, j | 0 <= i < j < |all|
      ensures all[i].id != all[j].id
    {
      assert all[i] in all && all[j] in all;
    }
  }
}

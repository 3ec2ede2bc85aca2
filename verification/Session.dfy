/** Client sessions and their manager, from internal/session/session.go. */
module Sessions {
  import opened Protocol

  const OUTBOX_SIZE: nat := 512

  datatype SessionState = SessionState(tags: set<string>, outbox: seq<Message>, closed: bool)

  type States = map<string, SessionState>

  // ---------------------------------------------------------------------------
  // Specification functions
  // ---------------------------------------------------------------------------

  /** A closed session refuses the message; a full outbox drops it without a word. */
  function Push(s: SessionState, msg: Message): SessionState {
    if s.closed || |s.outbox| >= OUTBOX_SIZE then s else s.(outbox := s.outbox + [msg])
  }

  predicate HoldsAny(tags: set<string>, wanted: seq<string>) {
    exists i :: 0 <= i < |wanted| && wanted[i] in tags
  }

  /** A broadcast reaches the sessions that hold one of the tags, or all when there are none. */
  function Reached(s: SessionState, tags: seq<string>, msg: Message): SessionState {
    if tags == [] || HoldsAny(s.tags, tags) then Push(s, msg) else s
  }

  function BroadcastTo(states: States, tags: seq<string>, msg: Message): States {
    map id | id in states :: Reached(states[id], tags, msg)
  }

  function SentTo(states: States, id: string, msg: Message): States {
    if id in states then states[id := Push(states[id], msg)] else states
  }

  /** Open, with room for `n` more messages. */
  predicate HasRoom(s: SessionState, n: nat) {
    !s.closed && |s.outbox| + n <= OUTBOX_SIZE
  }

  /** The outbox has grown by just these messages, and nothing else has changed. */
  predicate Grew(was: SessionState, now: SessionState, more: seq<Message>) {
    now.tags == was.tags && now.closed == was.closed && now.outbox == was.outbox + more
  }

  /** The message goes to this session if it is open and has room, and nobody else gets anything. */
  ghost predicate OnlyTells(before: States, after: States, id: string, msg: Message) {
    && after.Keys == before.Keys
    && forall k :: k in before ==>
         Grew(before[k], after[k], if k == id && HasRoom(before[k], 1) then [msg] else [])
  }

  /** The message goes to each session that is open, has room and holds one of the tags (any session for no
      tags), and nobody else gets anything. */
  ghost predicate TellsAll(before: States, after: States, tags: seq<string>, msg: Message) {
    && after.Keys == before.Keys
    && forall k :: k in before ==>
         var holds := tags == [] || exists i :: 0 <= i < |tags| && tags[i] in before[k].tags;
         Grew(before[k], after[k], if holds && HasRoom(before[k], 1) then [msg] else [])
  }

  lemma SendTells(states: States, id: string, msg: Message)
    ensures OnlyTells(states, SentTo(states, id, msg), id, msg)
  {
  }

  lemma BroadcastTells(states: States, tags: seq<string>, msg: Message)
    ensures TellsAll(states, BroadcastTo(states, tags, msg), tags, msg)
  {
  }

  ghost function TagSet(tags: seq<string>): set<string> {
    set i | 0 <= i < |tags| :: tags[i]
  }

  // ---------------------------------------------------------------------------
  // One session
  // ---------------------------------------------------------------------------

  class Session {
    const id: string
    var tags: set<string>
    var outbox: seq<Message>
    var closed: bool

    constructor (id: string)
      ensures this.id == id && State() == SessionState({}, [], false)
    {
      this.id := id;
      tags, outbox, closed := {}, [], false;
    }

    ghost function State(): SessionState
      reads this
    {
      SessionState(tags, outbox, closed)
    }

    method Subscribe(more: seq<string>)
      modifies this
      ensures forall t :: t in tags <==> t in old(tags) || t in more
      ensures State() == old(State()).(tags := old(tags) + TagSet(more))
    {
      for i := 0 to |more|
        invariant State() == old(State()).(tags := old(tags) + TagSet(more[..i]))
      {
        assert TagSet(more[..i + 1]) == TagSet(more[..i]) + {more[i]} by { TagSetSnoc(more, i); }
        tags := tags + {more[i]};
      }
      assert more[..|more|] == more;
    }

    method Unsubscribe(gone: seq<string>)
      modifies this
      ensures forall t :: t in tags <==> t in old(tags) && t !in gone
      ensures State() == old(State()).(tags := old(tags) - TagSet(gone))
    {
      for i := 0 to |gone|
        invariant State() == old(State()).(tags := old(tags) - TagSet(gone[..i]))
      {
        assert TagSet(gone[..i + 1]) == TagSet(gone[..i]) + {gone[i]} by { TagSetSnoc(gone, i); }
        tags := tags - {gone[i]};
      }
      assert gone[..|gone|] == gone;
    }

    method HasTag(tag: string) returns (b: bool)
      ensures b == (tag in tags)
    {
      b := tag in tags;
    }

    method Send(msg: Message) returns (ok: bool)
      modifies this
      ensures tags == old(tags) && closed == old(closed) && ok == !closed
      ensures outbox == if closed || |old(outbox)| >= OUTBOX_SIZE then old(outbox) else old(outbox) + [msg]
      ensures State() == Push(old(State()), msg)
    {
      if closed {
        return false;
      }
      if |outbox| < OUTBOX_SIZE {
        outbox := outbox + [msg];
      }
      return true;
    }

    method Close()
      modifies this
      ensures State() == old(State()).(closed := true)
    {
      closed := true;
    }
  }

  lemma TagSetSnoc(tags: seq<string>, i: nat)
    requires i < |tags|
    ensures TagSet(tags[..i + 1]) == TagSet(tags[..i]) + {tags[i]}
  {
    assert tags[..i + 1] == tags[..i] + [tags[i]];
    forall t | t in TagSet(tags[..i]) + {tags[i]}
      ensures t in TagSet(tags[..i + 1])
    {
      if t == tags[i] {
        assert tags[..i + 1][i] == t;
      } else {
        var j :| 0 <= j < i && tags[..i][j] == t;
        assert tags[..i + 1][j] == t;
      }
    }
  }

  method MatchesTags(s: Session, tags: seq<string>) returns (b: bool)
    ensures b <==> exists i :: 0 <= i < |tags| && tags[i] in s.tags
  {
    for i := 0 to |tags|
      invariant forall j :: 0 <= j < i ==> tags[j] !in s.tags
    {
      var held := s.HasTag(tags[i]);
      if held {
        return true;
      }
    }
    return false;
  }

  // ---------------------------------------------------------------------------
  // The manager
  // ---------------------------------------------------------------------------

  class Manager {
    var sessions: map<string, Session>

    constructor ()
      ensures Valid() && States() == map[]
    {
      sessions := map[];
    }

    ghost predicate Valid()
      reads this, sessions.Values
    {
      forall id :: id in sessions ==> sessions[id].id == id
    }

    ghost function States(): States
      reads this, sessions.Values
    {
      map id | id in sessions :: sessions[id].State()
    }

    method Add(id: string) returns (s: Session)
      requires Valid()
      modifies this
      ensures Valid() && fresh(s) && sessions == old(sessions)[id := s]
      ensures States() == old(States())[id := SessionState({}, [], false)]
    {
      s := new Session(id);
      sessions := sessions[id := s];
    }

    method Get(id: string) returns (s: Session?)
      requires Valid()
      ensures s == if id in sessions then sessions[id] else null
    {
      if id in sessions {
        return sessions[id];
      }
      return null;
    }

    method Remove(id: string)
      requires Valid()
      modifies this, sessions.Values
      ensures Valid() && States() == old(States()) - {id}
      ensures sessions == old(sessions) - {id} && (id in old(sessions) ==> old(sessions)[id].closed)
    {
      if id in sessions {
        var s := sessions[id];
        sessions := sessions - {id};
        s.Close();
      }
    }

    /** Sends to one session of the manager and leaves the others alone. */
    method SendTo(id: string, msg: Message)
      requires Valid()
      modifies sessions.Values
      ensures Valid() && States() == SentTo(old(States()), id, msg)
      ensures OnlyTells(old(States()), States(), id, msg)
    {
      hide OnlyTells;
      SendTells(States(), id, msg);
      var s := Get(id);
      if s != null {
        var _ := s.Send(msg);
      }
    }

    method Broadcast(tags: seq<string>, msg: Message)
      requires Valid()
      modifies sessions.Values
      ensures Valid() && States() == BroadcastTo(old(States()), tags, msg)
      ensures TellsAll(old(States()), States(), tags, msg)
    {
      hide TellsAll, Push;
      BroadcastTells(States(), tags, msg);
      var todo := sessions.Keys;
      while todo != {}
        invariant todo <= sessions.Keys
        invariant forall id :: id in todo ==> sessions[id].State() == old(sessions[id].State())
        invariant forall id :: id in sessions && id !in todo ==>
                    sessions[id].State() == Reached(old(sessions[id].State()), tags, msg)
        decreases todo
      {
        var id :| id in todo;
        todo := todo - {id};
        var s := sessions[id];
        var wanted := tags == [];
        if !wanted {
          wanted := MatchesTags(s, tags);
        }
        if wanted {
          var _ := s.Send(msg);
        }
      }
    }
  }
}

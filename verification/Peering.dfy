/** Links to peers, from internal/peering/peering.go: one bounded outbox per peer, filled by
    broadcasts and drained by the connection's writer. */
module Peering {
  import opened Protocol

  const OUTBOX_SIZE: nat := 256

  datatype PeerState = PeerState(outbox: seq<Envelope>, closed: bool)

  /** A closed peer takes nothing; a full outbox silently drops the message. */
  function Enqueue(p: PeerState, env: Envelope): PeerState {
    if p.closed || |p.outbox| >= OUTBOX_SIZE then p else p.(outbox := p.outbox + [env])
  }

  type Links = map<string, PeerState>

  /** One broadcast: a message, and the one peer id left out. */
  datatype Send = Send(env: Envelope, except: string)

  function Sent(links: Links, s: Send): Links {
    map id | id in links :: if id == s.except then links[id] else Enqueue(links[id], s.env)
  }

  function SentAll(links: Links, sends: seq<Send>): Links {
    if sends == [] then links else Sent(SentAll(links, sends[..|sends| - 1]), sends[|sends| - 1])
  }

  /** Open, with room for `n` more messages. */
  predicate HasRoom(p: PeerState, n: nat) {
    !p.closed && |p.outbox| + n <= OUTBOX_SIZE
  }

  /** The outbox has grown by just these messages. */
  predicate Grew(was: PeerState, now: PeerState, more: seq<Envelope>) {
    now.closed == was.closed && now.outbox == was.outbox + more
  }

  /** The message goes to each peer but the one left out that is open and has room; nothing else changes. */
  ghost predicate Tells(before: Links, after: Links, env: Envelope, except: string) {
    && after.Keys == before.Keys
    && forall id :: id in before ==>
         Grew(before[id], after[id], if id != except && HasRoom(before[id], 1) then [env] else [])
  }

  lemma SentTells(links: Links, env: Envelope, except: string)
    ensures Tells(links, Sent(links, Send.Send(env, except)), env, except)
  {
  }

  /** Broadcasts only add to the outboxes, and at most one message each. */
  lemma {:induction false} SentAllAdds(links: Links, sends: seq<Send>, id: string)
    requires id in links
    ensures id in SentAll(links, sends)
    ensures var was, now := links[id], SentAll(links, sends)[id];
            now.closed == was.closed && was.outbox <= now.outbox && |now.outbox| <= |was.outbox| + |sends|
  {
    if sends != [] { SentAllAdds(links, sends[..|sends| - 1], id); }
  }

  lemma {:induction false} SentAllConcat(links: Links, a: seq<Send>, b: seq<Send>)
    ensures SentAll(links, a + b) == SentAll(SentAll(links, a), b)
  {
    if b == [] {
      assert a + b == a;
    } else {
      assert (a + b)[..|a + b| - 1] == a + b[..|b| - 1];
      SentAllConcat(links, a, b[..|b| - 1]);
    }
  }

  class Peer {
    const id: string
    var outbox: seq<Envelope>
    var closed: bool

    constructor (id: string)
      ensures this.id == id && outbox == [] && !closed
    {
      this.id := id;
      outbox := [];
      closed := false;
    }

    ghost function State(): PeerState
      reads this
    {
      PeerState(outbox, closed)
    }

    method Send(env: Envelope) returns (ok: bool)
      modifies this
      ensures State() == Enqueue(old(State()), env)
      ensures ok == !closed && closed == old(closed)
      ensures outbox == if closed || |old(outbox)| >= OUTBOX_SIZE then old(outbox) else old(outbox) + [env]
    {
      if closed {
        return false;
      }
      if |outbox| < OUTBOX_SIZE {
        outbox := outbox + [env];
      }
      return true;
    }

    method Close()
      modifies this
      ensures closed && outbox == old(outbox)
    {
      closed := true;
    }
  }

  class Manager {
    var peers: map<string, Peer>

    constructor ()
      ensures Valid() && Links() == map[]
    {
      peers := map[];
    }

    ghost predicate Valid()
      reads this, peers.Values
    {
      forall id :: id in peers ==> peers[id].id == id
    }

    ghost function Links(): Links
      reads this, peers.Values
    {
      map id | id in peers :: peers[id].State()
    }

    method Add(p: Peer)
      requires Valid()
      modifies this
      ensures Valid() && Links() == old(Links())[p.id := old(p.State())]
    {
      peers := peers[p.id := p];
    }

    method Remove(id: string)
      requires Valid()
      modifies this, peers.Values
      ensures Valid() && Links() == old(Links()) - {id}
      ensures id in old(peers) ==> old(peers)[id].closed
    {
      if id in peers {
        var p := peers[id];
        peers := peers - {id};
        p.Close();
      }
    }

    method BroadcastExcept(env: Envelope, except: string)
      requires Valid()
      modifies peers.Values
      ensures Valid() && Links() == Sent(old(Links()), Send.Send(env, except))
      ensures Tells(old(Links()), Links(), env, except)
    {
      hide Tells, HasRoom, Grew;
      SentTells(Links(), env, except);
      var todo := peers.Keys;
      while todo != {}
        invariant todo <= peers.Keys
        invariant forall id :: id in peers && (id in todo || id == except) ==>
                    peers[id].State() == old(peers[id].State())
        invariant forall id :: id in peers && id !in todo && id != except ==>
                    peers[id].State() == Enqueue(old(peers[id].State()), env)
        decreases todo
      {
        var id :| id in todo;
        todo := todo - {id};
        if peers[id].id != except {
          var _ := peers[id].Send(env);
        }
      }
    }
  }
}

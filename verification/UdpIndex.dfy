/** The double index of UDP clients in internal/transport/udp.go: by session and by address. */
module UdpIndex {
  import opened Base
  import opened Sessions
  import opened Transport

  // Thirty seconds, in nanoseconds.
  const CLIENT_TIMEOUT: nat := 30_000_000_000

  // ---------------------------------------------------------------------------
  // Specification functions
  // ---------------------------------------------------------------------------

  /** The address of each session, and the session of each address. */
  datatype Index = Index(clients: map<string, string>, addrs: map<string, string>)

  ghost predicate Inverse(ix: Index) {
    && (forall s :: s in ix.clients ==> ix.clients[s] in ix.addrs && ix.addrs[ix.clients[s]] == s)
    && (forall a :: a in ix.addrs ==> ix.addrs[a] in ix.clients && ix.clients[ix.addrs[a]] == a)
  }

  /** A datagram from an unknown address opens a session. */
  function Admitted(ix: Index, addr: string, sid: string): Index {
    if addr in ix.addrs then ix else Index(ix.clients[sid := addr], ix.addrs[addr := sid])
  }

  lemma KnownOrNew(ix: Index, addr: string, sid: string)
    ensures addr in ix.addrs ==> Admitted(ix, addr, sid) == ix
    ensures addr !in ix.addrs ==> Admitted(ix, addr, sid) == Index(ix.clients[sid := addr], ix.addrs[addr := sid])
  {
  }

  /** Every evicted entry is deleted under its session and under its address. */
  ghost function Dropped(ix: Index, gone: set<string>): Index
    requires gone <= ix.clients.Keys
  {
    Index(ix.clients - gone, ix.addrs - (set s | s in gone :: ix.clients[s]))
  }

  lemma AdmittedInverse(ix: Index, addr: string, sid: string)
    requires Inverse(ix) && sid !in ix.clients
    ensures Inverse(Admitted(ix, addr, sid)) && addr in Admitted(ix, addr, sid).addrs
  {
  }

  /** Deleting by address takes no other session's entry away. */
  lemma DroppedInverse(ix: Index, gone: set<string>)
    requires Inverse(ix) && gone <= ix.clients.Keys
    ensures Inverse(Dropped(ix, gone))
    ensures forall a :: a in ix.addrs ==> (a in Dropped(ix, gone).addrs <==> ix.addrs[a] !in gone)
  {
  }

  // ---------------------------------------------------------------------------
  // The server
  // ---------------------------------------------------------------------------

  class Entry {
    const sessionId: string
    const addr: string
    var lastSeen: nat

    constructor (sessionId: string, addr: string, now: nat)
      ensures this.sessionId == sessionId && this.addr == addr && lastSeen == now
    {
      this.sessionId, this.addr, lastSeen := sessionId, addr, now;
    }

    method Touch(now: nat)
      modifies this
      ensures lastSeen == now
    {
      lastSeen := now;
    }

    predicate Expired(now: nat)
      reads this
    {
      now > lastSeen + CLIENT_TIMEOUT
    }
  }

  ghost predicate FiledIn(clients: map<string, Entry>, addrToSess: map<string, Entry>) {
    && (forall s :: s in clients ==>
         clients[s].sessionId == s && clients[s].addr in addrToSess && addrToSess[clients[s].addr] == clients[s])
    && (forall a :: a in addrToSess ==>
          && addrToSess[a].addr == a && addrToSess[a].sessionId in clients
          && clients[addrToSess[a].sessionId] == addrToSess[a])
  }

  ghost function IndexOf(clients: map<string, Entry>, addrToSess: map<string, Entry>): Index {
    Index(map s | s in clients :: clients[s].addr, map a | a in addrToSess :: addrToSess[a].sessionId)
  }

  ghost function EntryIds(es: seq<Entry>): set<string> {
    set e | e in es :: e.sessionId
  }

  ghost function EntryAddrs(es: seq<Entry>): set<string> {
    set e | e in es :: e.addr
  }

  lemma EntriesSnoc(es: seq<Entry>, i: nat)
    requires i < |es|
    ensures EntryIds(es[..i + 1]) == EntryIds(es[..i]) + {es[i].sessionId}
    ensures EntryAddrs(es[..i + 1]) == EntryAddrs(es[..i]) + {es[i].addr}
  {
    assert es[..i + 1] == es[..i] + [es[i]];
  }

  lemma StillFiled(clients: map<string, Entry>, addrToSess: map<string, Entry>, gone: seq<Entry>)
    requires FiledIn(clients, addrToSess)
    requires forall e :: e in gone ==> e.sessionId in clients && clients[e.sessionId] == e
    ensures FiledIn(clients - EntryIds(gone), addrToSess - EntryAddrs(gone)) && EntryIds(gone) <= clients.Keys
    ensures IndexOf(clients - EntryIds(gone), addrToSess - EntryAddrs(gone))
              == Dropped(IndexOf(clients, addrToSess), EntryIds(gone))
  {
    var ix := IndexOf(clients, addrToSess);
    forall a
      ensures a in EntryAddrs(gone) <==> exists s :: s in EntryIds(gone) && ix.clients[s] == a
    {
      if a in EntryAddrs(gone) {
        var e :| e in gone && e.addr == a;
        assert e.sessionId in EntryIds(gone);
      }
    }
    assert EntryAddrs(gone) == set s | s in EntryIds(gone) :: ix.clients[s];
    assert IndexOf(clients - EntryIds(gone), addrToSess - EntryAddrs(gone)).clients == ix.clients - EntryIds(gone);
    assert IndexOf(clients - EntryIds(gone), addrToSess - EntryAddrs(gone)).addrs == ix.addrs - EntryAddrs(gone);
  }

  lemma AlreadyFiled(clients: map<string, Entry>, addrToSess: map<string, Entry>, addr: string)
    requires FiledIn(clients, addrToSess)
    ensures addr in IndexOf(clients, addrToSess).addrs <==> addr in addrToSess
    ensures addr in addrToSess ==>
              var e := addrToSess[addr];
              e.addr == addr && e.sessionId in clients && clients[e.sessionId] == e
  {
  }

  lemma NewlyFiled(clients: map<string, Entry>, addrToSess: map<string, Entry>, e: Entry)
    requires FiledIn(clients, addrToSess) && e.sessionId !in clients && e.addr !in addrToSess
    ensures FiledIn(clients[e.sessionId := e], addrToSess[e.addr := e])
    ensures IndexOf(clients[e.sessionId := e], addrToSess[e.addr := e])
              == Admitted(IndexOf(clients, addrToSess), e.addr, e.sessionId)
  {
    assert IndexOf(clients[e.sessionId := e], addrToSess[e.addr := e]).clients
             == IndexOf(clients, addrToSess).clients[e.sessionId := e.addr];
    assert IndexOf(clients[e.sessionId := e], addrToSess[e.addr := e]).addrs
             == IndexOf(clients, addrToSess).addrs[e.addr := e.sessionId];
  }

  class UdpServer {
    const manager: Manager
    const counter: SessionCounter
    var clients: map<string, Entry>
    var addrToSess: map<string, Entry>

    constructor (manager: Manager, counter: SessionCounter)
      requires manager.Valid()
      ensures this.manager == manager && this.counter == counter && Valid() && View() == Index(map[], map[])
    {
      this.manager, this.counter := manager, counter;
      clients, addrToSess := map[], map[];
    }

    /** Both maps lead to the same entries, filed under the entry's own session and address. */
    ghost predicate Filed()
      reads this
    {
      FiledIn(clients, addrToSess)
    }

    /** Indexed sessions are in the manager, and their ids were made by the counter. */
    ghost predicate Valid()
      reads this, manager, manager.sessions.Values, counter
    {
      && Filed() && manager.Valid() && clients.Keys <= manager.sessions.Keys
      && forall sid :: sid in clients ==> Issued(sid, counter.count)
    }

    ghost function View(): Index
      reads this
    {
      IndexOf(clients, addrToSess)
    }

    /** `handleDatagram` up to the message handler: find or open the session, then touch it. */
    method Admit(addr: string, now: nat) returns (entry: Entry)
      requires Valid()
      modifies this, manager, counter, addrToSess.Values
      ensures Valid()
      ensures var sid, known := SessionId(now, old(counter.count) + 1), addr in old(addrToSess);
              && View() == Admitted(old(View()), addr, sid)
              && manager.States() == (if known then old(manager.States())
                                      else old(manager.States())[sid := SessionState({}, [], false)])
              && counter.count == old(counter.count) + if known then 0 else 1
      ensures entry.addr == addr && entry.sessionId in clients && clients[entry.sessionId] == entry
      ensures entry.lastSeen == now
      ensures addr in old(addrToSess) ==>
                entry == old(addrToSess)[addr] && View() == old(View()) && manager.States() == old(manager.States())
      ensures addr !in old(addrToSess) ==>
                var sid := SessionId(now, old(counter.count) + 1);
                && sid !in old(clients)
                && View() == Index(old(View()).clients[sid := addr], old(View()).addrs[addr := sid])
    {
      hide Admitted, SessionId, Issued, IndexOf, FiledIn;
      entry := FindOrOpen(addr, now);
      entry.Touch(now);
    }

    method FindOrOpen(addr: string, now: nat) returns (entry: Entry)
      requires Valid()
      modifies this, manager, counter
      ensures Valid()
      ensures var sid, known := SessionId(now, old(counter.count) + 1), addr in old(addrToSess);
              && View() == Admitted(old(View()), addr, sid)
              && manager.States() == (if known then old(manager.States())
                                      else old(manager.States())[sid := SessionState({}, [], false)])
              && counter.count == old(counter.count) + if known then 0 else 1
      ensures entry.addr == addr && entry.sessionId in clients && clients[entry.sessionId] == entry
      ensures fresh(entry) || entry in old(addrToSess.Values)
      ensures addr in old(addrToSess) ==>
                entry == old(addrToSess)[addr] && View() == old(View()) && manager.States() == old(manager.States())
      ensures addr !in old(addrToSess) ==>
                var sid := SessionId(now, old(counter.count) + 1);
                && sid !in old(clients)
                && View() == Index(old(View()).clients[sid := addr], old(View()).addrs[addr := sid])
    {
      hide IndexOf, FiledIn, SessionId, Admitted, Issued;
      NewIdIsNew(now, counter.count);
      AlreadyFiled(clients, addrToSess, addr);
      KnownOrNew(View(), addr, SessionId(now, counter.count + 1));
      if addr in addrToSess {
        return addrToSess[addr];
      }
      var sid := counter.NewSessionId(now);
      entry := Open(addr, sid, now);
    }

    method Open(addr: string, sid: string, now: nat) returns (entry: Entry)
      requires Valid() && sid !in clients && addr !in addrToSess && Issued(sid, counter.count)
      modifies this, manager
      ensures Valid() && View() == Admitted(old(View()), addr, sid)
      ensures fresh(entry) && entry.addr == addr && entry.sessionId == sid && sid in clients && clients[sid] == entry
      ensures manager.States() == old(manager.States())[sid := SessionState({}, [], false)]
    {
      hide IndexOf, FiledIn, Admitted, Issued;
      entry := new Entry(sid, addr, now);
      NewlyFiled(clients, addrToSess, entry);
      clients := clients[sid := entry];
      addrToSess := addrToSess[addr := entry];
      var _ := manager.Add(sid);
    }

    /** The part of `evictExpired` under the lock. */
    method EvictIndex(now: nat) returns (evicted: seq<Entry>)
      requires Valid()
      modifies this
      ensures Valid()
      ensures View() == Dropped(old(View()), set s | s in old(clients) && old(clients)[s].Expired(now))
      ensures NoDuplicates(evicted)
      ensures forall e :: e in evicted <==>
                e.sessionId in old(clients) && old(clients)[e.sessionId] == e && now > e.lastSeen + 30_000_000_000
      ensures forall s :: s in clients <==> s in old(clients) && now <= old(clients)[s].lastSeen + 30_000_000_000
      ensures forall s :: s in clients ==> clients[s] == old(clients)[s]
      ensures forall a :: a in addrToSess <==>
                a in old(addrToSess) && now <= old(addrToSess)[a].lastSeen + 30_000_000_000
    {
      evicted := ListExpired(now);
      DeleteAll(evicted);
      assert forall a :: a in old(addrToSess) && old(addrToSess)[a].Expired(now) ==> old(addrToSess)[a] in evicted;
      assert EntryIds(evicted) == (set s | s in old(clients) && old(clients)[s].Expired(now)) by {
        forall s | s in old(clients) && old(clients)[s].Expired(now)
          ensures s in EntryIds(evicted)
        {
          assert old(clients)[s] in evicted;
        }
      }
    }

    method ListExpired(now: nat) returns (evicted: seq<Entry>)
      requires Filed()
      ensures NoDuplicates(evicted)
      ensures forall e :: e in evicted <==> e.sessionId in clients && clients[e.sessionId] == e && e.Expired(now)
      ensures forall e :: e in evicted ==> now > e.lastSeen + 30_000_000_000
    {
      evicted := [];
      var todo := clients.Keys;
      while todo != {}
        invariant todo <= clients.Keys
        invariant NoDuplicates(evicted)
        invariant forall e :: e in evicted <==>
                    e.sessionId in clients && e.sessionId !in todo && clients[e.sessionId] == e && e.Expired(now)
        decreases todo
      {
        var s :| s in todo;
        todo := todo - {s};
        if clients[s].Expired(now) {
          evicted := evicted + [clients[s]];
        }
      }
    }

    method DeleteAll(evicted: seq<Entry>)
      requires Filed() && forall e :: e in evicted ==> e.sessionId in clients && clients[e.sessionId] == e
      modifies this
      ensures Filed() && clients == old(clients) - EntryIds(evicted)
      ensures addrToSess == old(addrToSess) - EntryAddrs(evicted)
      ensures View() == Dropped(old(View()), EntryIds(evicted))
    {
      hide FiledIn, IndexOf, Dropped;
      StillFiled(clients, addrToSess, evicted);
      for i := 0 to |evicted|
        invariant clients == old(clients) - EntryIds(evicted[..i])
        invariant addrToSess == old(addrToSess) - EntryAddrs(evicted[..i])
      {
        EntriesSnoc(evicted, i);
        clients := clients - {evicted[i].sessionId};
        addrToSess := addrToSess - {evicted[i].addr};
      }
      assert evicted[..|evicted|] == evicted;
    }

    /** The rest of `evictExpired`: the manager lets go of the evicted sessions. */
    method RemoveEvicted(evicted: seq<Entry>)
      requires Valid() && forall e :: e in evicted ==> e.sessionId !in clients
      modifies manager, manager.sessions.Values
      ensures Valid()
      ensures manager.States() == old(manager.States()) - EntryIds(evicted)
    {
      for i := 0 to |evicted|
        invariant Valid() && manager.sessions.Values <= old(manager.sessions.Values)
        invariant manager.States() == old(manager.States()) - EntryIds(evicted[..i])
      {
        EntriesSnoc(evicted, i);
        assert evicted[i] in evicted;
        manager.Remove(evicted[i].sessionId);
      }
      assert evicted[..|evicted|] == evicted;
    }
  }

  // ---------------------------------------------------------------------------
  // Every interleaving of datagrams, sweeps and TCP connections
  // ---------------------------------------------------------------------------

  /** `managed` are the ids in the session manager, `leaving` those that have left the index but
      not the manager, `tcp` those of the TCP server that shares the manager and the counter. */
  datatype State = State(ix: Index, managed: set<string>, leaving: set<string>, tcp: set<string>, count: nat)

  datatype Step =
    | Datagram(addr: string, time: nat)
    | EvictIndexed(gone: set<string>)
    | RemoveOne(sid: string)
    | Accept(time: nat)
    | HangUp(sid: string)

  ghost predicate Enabled(s: State, step: Step) {
    match step
    case Datagram(_, _) => true
    case EvictIndexed(gone) => gone <= s.ix.clients.Keys
    case RemoveOne(sid) => sid in s.leaving
    case Accept(_) => true
    case HangUp(sid) => sid in s.tcp
  }

  ghost function Next(s: State, step: Step): State
    requires Enabled(s, step)
  {
    match step
    case Datagram(addr, time) =>
      if addr in s.ix.addrs then s
      else
        var sid := SessionId(time, s.count + 1);
        s.(ix := Admitted(s.ix, addr, sid), managed := s.managed + {sid}, count := s.count + 1)
    case EvictIndexed(gone) => s.(ix := Dropped(s.ix, gone), leaving := s.leaving + gone)
    case RemoveOne(sid) => s.(managed := s.managed - {sid}, leaving := s.leaving - {sid})
    case Accept(time) =>
      var sid := SessionId(time, s.count + 1);
      s.(managed := s.managed + {sid}, tcp := s.tcp + {sid}, count := s.count + 1)
    case HangUp(sid) => s.(managed := s.managed - {sid}, tcp := s.tcp - {sid})
  }

  ghost function Run(steps: seq<Step>): State {
    if steps == [] then State(Index(map[], map[]), {}, {}, {}, 0)
    else
      var s := Run(steps[..|steps| - 1]);
      if Enabled(s, steps[|steps| - 1]) then Next(s, steps[|steps| - 1]) else s
  }

  ghost predicate Issued(sid: string, count: nat) {
    exists t: nat, c: nat :: c <= count && sid == SessionId(t, c)
  }

  ghost predicate Inv(s: State) {
    && Inverse(s.ix)
    && s.managed == s.ix.clients.Keys + s.leaving + s.tcp
    && s.ix.clients.Keys !! s.leaving && s.ix.clients.Keys !! s.tcp && s.leaving !! s.tcp
    && forall sid :: sid in s.managed ==> Issued(sid, s.count)
  }

  lemma NewIdIsNew(time: nat, count: nat)
    ensures !Issued(SessionId(time, count + 1), count) && Issued(SessionId(time, count + 1), count + 1)
    ensures forall sid :: Issued(sid, count) ==> Issued(sid, count + 1)
  {
    forall t: nat, c: nat | SessionId(time, count + 1) == SessionId(t, c)
      ensures c == count + 1
    {
      SessionIdsDiffer(time, count + 1, t, c);
    }
    hide SessionId;
    forall sid | Issued(sid, count)
      ensures Issued(sid, count + 1)
    {
      var t: nat, c: nat :| c <= count && sid == SessionId(t, c);
    }
  }

  lemma StepKeeps(s: State, step: Step)
    requires Inv(s) && Enabled(s, step)
    ensures Inv(Next(s, step))
  {
    hide SessionId, Issued;
    match step {
      case Datagram(addr, time) =>
        NewIdIsNew(time, s.count);
        AdmittedInverse(s.ix, addr, SessionId(time, s.count + 1));
      case EvictIndexed(gone) => DroppedInverse(s.ix, gone);
      case Accept(time) => NewIdIsNew(time, s.count);
      case _ =>
    }
  }

  /** In every interleaving the two indexes are mutually inverse, and the manager's UDP sessions
      are exactly the indexed ones and those a sweep has yet to remove: no indexed session is
      missing from the manager, even between the two halves of a sweep, and none is left behind. */
  lemma {:induction false} IndexIsSound(steps: seq<Step>)
    ensures var s := Run(steps);
            && Inverse(s.ix) && s.ix.clients.Keys <= s.managed
            && s.managed - s.tcp == s.ix.clients.Keys + s.leaving && s.ix.clients.Keys !! s.leaving
  {
    RunKeeps(steps);
  }

  lemma {:induction false} RunKeeps(steps: seq<Step>)
    ensures Inv(Run(steps))
  {
    if steps != [] {
      RunKeeps(steps[..|steps| - 1]);
      var s := Run(steps[..|steps| - 1]);
      if Enabled(s, steps[|steps| - 1]) {
        StepKeeps(s, steps[|steps| - 1]);
      }
    }
  }
}

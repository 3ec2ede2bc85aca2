/** The de-duplication table of internal/gossip/gossip.go. */
module Gossips {
  import opened Protocol

  type Seen = map<MessageId, nat>

  // Five minutes, in nanoseconds.
  const MAX_AGE: nat := 300_000_000_000

  function Noted(seen: Seen, id: MessageId, now: nat): Seen {
    if id in seen then seen else seen[id := now]
  }

  /** The entries a collection whose clock was read at `captured` leaves in place. */
  function Kept(seen: Seen, captured: nat): Seen {
    map id | id in seen && !(seen[id] + MAX_AGE < captured) :: seen[id]
  }

  class Gossip {
    var seen: Seen

    constructor ()
      ensures seen == map[]
    {
      seen := map[];
    }

    method ShouldForward(env: Envelope, now: nat) returns (first: bool)
      modifies this
      ensures first == (IdOf(env) !in old(seen))
      ensures seen == if first then old(seen)[IdOf(env) := now] else old(seen)
      ensures seen == Noted(old(seen), IdOf(env), now)
    {
      var id := IdOf(env);
      if id in seen {
        return false;
      }
      seen := seen[id := now];
      return true;
    }

    /** `captured` is read before the lock is taken. */
    method Collect(captured: nat)
      modifies this
      ensures forall id :: id in seen <==> id in old(seen) && captured <= old(seen)[id] + 300_000_000_000
      ensures forall id :: id in seen ==> seen[id] == old(seen)[id]
      ensures seen == Kept(old(seen), captured)
    {
      var todo := seen.Keys;
      while todo != {}
        invariant todo <= seen.Keys <= old(seen).Keys
        invariant forall id :: id in seen ==> seen[id] == old(seen)[id]
        invariant forall id :: id in old(seen) && id !in todo ==>
                    (id in seen <==> !(old(seen)[id] + MAX_AGE < captured))
        decreases todo
      {
        var id :| id in todo;
        todo := todo - {id};
        if seen[id] + MAX_AGE < captured {
          seen := seen - {id};
        }
      }
      assert seen.Keys == Kept(old(seen), captured).Keys;
    }
  }

  // ---------------------------------------------------------------------------
  // The de-duplication window
  // ---------------------------------------------------------------------------

  /** One use of the table; `at` is the clock when the lock is held, and a collection read its
      own clock at `captured`, no later. */
  datatype Call = Offer(id: MessageId, at: nat) | Sweep(captured: nat, at: nat)

  function TableAfter(calls: seq<Call>): Seen {
    if calls == [] then map[]
    else
      var before := TableAfter(calls[..|calls| - 1]);
      match calls[|calls| - 1]
      case Offer(id, at) => Noted(before, id, at)
      case Sweep(captured, _) => Kept(before, captured)
  }

  predicate Accepts(calls: seq<Call>, i: nat, id: MessageId)
    requires i < |calls|
  {
    calls[i].Offer? && calls[i].id == id && id !in TableAfter(calls[..i])
  }

  ghost predicate ClockMoves(calls: seq<Call>) {
    && (forall i, j :: 0 <= i < j < |calls| ==> calls[i].at <= calls[j].at)
    && (forall i :: 0 <= i < |calls| && calls[i].Sweep? ==> calls[i].captured <= calls[i].at)
  }

  /** After an accepting call the id stays in the table with that call's time, until the
      clock is more than MAX_AGE past it. */
  lemma {:induction false} RememberedOrAged(calls: seq<Call>, i: nat, n: nat, id: MessageId)
    requires ClockMoves(calls) && i < n <= |calls| && Accepts(calls, i, id)
    ensures (id in TableAfter(calls[..n]) && TableAfter(calls[..n])[id] == calls[i].at)
              || calls[i].at + MAX_AGE < calls[n - 1].at
    decreases n
  {
    assert calls[..n][..n - 1] == calls[..n - 1];
    if i + 1 < n {
      RememberedOrAged(calls, i, n - 1, id);
    }
  }

  /** Two accepting calls for one message are more than MAX_AGE apart, although a hit never
      refreshes the time stored. */
  lemma DedupeWindow(calls: seq<Call>, i: nat, j: nat, id: MessageId)
    requires ClockMoves(calls) && i < j < |calls|
    requires Accepts(calls, i, id) && Accepts(calls, j, id)
    ensures calls[i].at + MAX_AGE < calls[j].at
  {
    RememberedOrAged(calls, i, j, id);
  }

  /** An entry's time is that of its last accepting call. */
  lemma {:induction false} EntryIsAccepted(calls: seq<Call>, id: MessageId) returns (i: nat)
    requires id in TableAfter(calls)
    ensures i < |calls| && Accepts(calls, i, id) && calls[i].at == TableAfter(calls)[id]
  {
    var n := |calls| - 1;
    if Accepts(calls, n, id) {
      i := n;
    } else {
      i := EntryIsAccepted(calls[..n], id);
      assert calls[..n][..i] == calls[..i];
    }
  }

  /** A collection whose clock is more than the window past some moment leaves no id in the table that has not
      been accepted after that moment. */
  lemma {:induction false} SweptWhenAged(calls: seq<Call>, n: nat, id: MessageId, moment: nat)
    requires n < |calls| && calls[n].Sweep? && moment + MAX_AGE < calls[n].captured
    requires forall j :: 0 <= j < n && Accepts(calls, j, id) ==> calls[j].at <= moment
    ensures id !in TableAfter(calls[..n + 1])
  {
    assert calls[..n + 1][..n] == calls[..n];
    if id in TableAfter(calls[..n]) {
      var i := EntryIsAccepted(calls[..n], id);
      assert calls[..n][..i] == calls[..i];
      assert Accepts(calls, i, id);
    }
  }

  /** Exactly when a repeated message is accepted again: an offer of an id last accepted at the i-th call is
      accepted if and only if, in between, a collection came whose clock was more than the window past that call. */
  lemma {:induction false} AcceptedAgainExactly(calls: seq<Call>, i: nat, m: nat, id: MessageId)
    requires i < m < |calls| && Accepts(calls, i, id) && calls[m].Offer? && calls[m].id == id
    requires forall j :: i < j < m ==> !Accepts(calls, j, id)
    ensures Accepts(calls, m, id)
       <==> exists n :: i < n < m && calls[n].Sweep? && calls[i].at + MAX_AGE < calls[n].captured
  {
    SinceAccepted(calls, i, m, id);
  }

  lemma {:induction false} SinceAccepted(calls: seq<Call>, i: nat, m: nat, id: MessageId)
    requires i < m <= |calls| && Accepts(calls, i, id)
    requires forall j :: i < j < m ==> !Accepts(calls, j, id)
    ensures id in TableAfter(calls[..m]) ==> TableAfter(calls[..m])[id] == calls[i].at
    ensures id !in TableAfter(calls[..m])
       <==> exists n :: i < n < m && calls[n].Sweep? && calls[i].at + MAX_AGE < calls[n].captured
    decreases m
  {
    assert calls[..m][..m - 1] == calls[..m - 1];
    if i + 1 < m {
      SinceAccepted(calls, i, m - 1, id);
      assert !Accepts(calls, m - 1, id);
    }
  }
}

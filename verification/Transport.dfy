/** Session identities, from newSessionID in internal/transport/transport.go. */
module Transport {

  function Decimal(n: nat): string {
    if n < 10 then ["0123456789"[n]] else Decimal(n / 10) + ["0123456789"[n % 10]]
  }

  function SessionId(time: nat, count: nat): string {
    "sess-" + Decimal(time) + "-" + Decimal(count)
  }

  class SessionCounter {
    var count: nat

    constructor ()
      ensures count == 0
    {
      count := 0;
    }

    method NewSessionId(time: nat) returns (id: string)
      modifies this
      ensures count == old(count) + 1 && id == SessionId(time, count)
    {
      count := count + 1;
      return SessionId(time, count);
    }
  }

  lemma {:induction false} DecimalIsDigits(n: nat)
    ensures forall i :: 0 <= i < |Decimal(n)| ==> Decimal(n)[i] in "0123456789"
  {
    if n >= 10 { DecimalIsDigits(n / 10); }
  }

  lemma {:induction false} DecimalInjective(m: nat, n: nat)
    requires Decimal(m) == Decimal(n)
    ensures m == n
  {
    assert |Decimal(m)| == 1 <==> m < 10;
    assert |Decimal(n)| == 1 <==> n < 10;
    assert Decimal(m)[|Decimal(m)| - 1] == "0123456789"[m % 10];
    assert Decimal(n)[|Decimal(n)| - 1] == "0123456789"[n % 10];
    DigitInjective(m % 10, n % 10);
    if m >= 10 {
      assert Decimal(m / 10) == Decimal(m)[..|Decimal(m)| - 1];
      assert Decimal(n / 10) == Decimal(n)[..|Decimal(n)| - 1];
      DecimalInjective(m / 10, n / 10);
    }
  }

  lemma DigitInjective(d: nat, e: nat)
    requires d < 10 && e < 10 && "0123456789"[d] == "0123456789"[e]
    ensures d == e
  {
  }

  /** Two ids are the same only when they were made at the same count, and at the same time. */
  lemma SessionIdsDiffer(t: nat, c: nat, u: nat, d: nat)
    ensures SessionId(t, c) == SessionId(u, d) <==> t == u && c == d
  {
    if SessionId(t, c) == SessionId(u, d) { SameIds(t, c, u, d); }
  }

  lemma SameIds(t: nat, c: nat, u: nat, d: nat)
    requires SessionId(t, c) == SessionId(u, d)
    ensures t == u && c == d
  {
    var a, b := Decimal(c), Decimal(d);
    var front, back := "sess-" + Decimal(t), "sess-" + Decimal(u);
    LastHyphen(front, a, c);
    LastHyphen(back, b, d);
    assert front + "-" + a == SessionId(t, c) && back + "-" + b == SessionId(u, d);
    assert |front| == |back|;
    assert a == SessionId(t, c)[|front| + 1..];
    assert b == SessionId(u, d)[|back| + 1..];
    DecimalInjective(c, d);
    assert front == SessionId(t, c)[..|front|] && back == SessionId(u, d)[..|back|];
    assert Decimal(t) == front[5..] && Decimal(u) == back[5..];
    DecimalInjective(t, u);
  }

  lemma LastHyphen(front: string, a: string, n: nat)
    requires a == Decimal(n)
    ensures (front + "-" + a)[|front|] == '-'
    ensures forall i :: |front| < i < |front + "-" + a| ==> (front + "-" + a)[i] != '-'
  {
    DecimalIsDigits(n);
  }
}

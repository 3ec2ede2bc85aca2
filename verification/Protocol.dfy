/** Messages of internal/protocol/protocol.go that travel between peers, as decoded payloads,
    together with what one JSON encoding makes of absent fields. */
module Protocol {
  import opened Base

  datatype ObjectDiff = ObjectDiff(objectId: string, data: Option<Bytes>, version: nat, meta: Option<Bytes>)

  datatype Body =
    | WorldUpdate(objects: seq<ObjectDiff>)
    | SubmitResult(taskId: string, data: Option<Bytes>, meta: Option<Bytes>)
    | Unhandled(kind: string)

  /** `spelling` is whatever the raw payload text says beyond its decoded fields (key order,
      unknown fields, white space); text written by this program has the empty spelling. */
  datatype Envelope = Envelope(requestId: string, body: Body, spelling: string)

  /** What the server puts in a client's outbox. */
  datatype Message =
    | TaskAvailable(taskId: string, tags: seq<string>, hint: Bytes)
    | TaskAcquiredOk(requestId: string, taskId: string, leaseUntil: nat)
    | TaskAcquiredFail(requestId: string, taskId: string, reason: string)
    | ResultAccepted(requestId: string, taskId: string)
    | ResultRejected(requestId: string, taskId: string, reason: string)
    | OwnershipLost(taskId: string, reason: string)
    | WorldDiffs(objects: seq<ObjectDiff>)
    | Pong(requestId: string)
    | Failure(requestId: string, code: string)

  /** The identity used for de-duplication: the request id, or else type and payload text. */
  datatype MessageId = ByRequest(requestId: string) | ByContent(body: Body, spelling: string)

  function IdOf(env: Envelope): MessageId {
    if env.requestId != "" then ByRequest(env.requestId) else ByContent(env.body, env.spelling)
  }

  /** Messages with a request id are one if they share it, whatever they say; others only if they say the
      same in the same words. */
  lemma SameIdentity(a: Envelope, b: Envelope)
    ensures IdOf(a) == IdOf(b)
       <==> a.requestId == b.requestId && (a.requestId == "" ==> a.body == b.body && a.spelling == b.spelling)
  {
  }

  // The four bytes n, u, l, l.
  const JSON_NULL: Bytes := [110, 117, 108, 108]

  /** `data` has no omitempty: a nil slice is written, and read back, as null. */
  function WireData(data: Option<Bytes>): Option<Bytes> {
    if data.None? then Some(JSON_NULL) else data
  }

  /** `meta` has omitempty: an empty slice is left out and read back as nil. */
  function WireMeta(meta: Option<Bytes>): Option<Bytes> {
    if meta == Some([]) then None else meta
  }

  function WireDiff(d: ObjectDiff): ObjectDiff {
    d.(data := WireData(d.data), meta := WireMeta(d.meta))
  }

  function WireDiffs(ds: seq<ObjectDiff>): seq<ObjectDiff> {
    if ds == [] then [] else [WireDiff(ds[0])] + WireDiffs(ds[1..])
  }

  function WireBody(body: Body): Body {
    match body
    case WorldUpdate(ds) => WorldUpdate(WireDiffs(ds))
    case SubmitResult(t, data, meta) => SubmitResult(t, WireData(data), WireMeta(meta))
    case Unhandled(_) => body
  }

  /** What the receiver decodes of an encoded message. */
  function Encode(requestId: string, body: Body): Envelope {
    Envelope(requestId, WireBody(body), "")
  }

  lemma WireOne(d: ObjectDiff)
    ensures WireDiffs([d]) == [WireDiff(d)]
  {
    assert [d][1..] == [];
  }

  lemma {:induction false} WireDiffsTwice(ds: seq<ObjectDiff>)
    ensures WireDiffs(WireDiffs(ds)) == WireDiffs(ds)
  {
    if ds != [] {
      assert WireDiffs(ds)[1..] == WireDiffs(ds[1..]);
      WireDiffsTwice(ds[1..]);
    }
  }

  /** Encoding a received message again changes nothing, so relayed messages keep their identity
      from the first encoding on. */
  lemma EncodeTwice(requestId: string, body: Body)
    ensures Encode(requestId, Encode(requestId, body).body) == Encode(requestId, body)
  {
    if body.WorldUpdate? { WireDiffsTwice(body.objects); }
  }

  /** A diff survives encoding unchanged exactly when its data is present and its meta is not
      a present but empty slice. */
  lemma WireFaithful(d: ObjectDiff)
    ensures WireDiff(d) == d <==> d.data.Some? && d.meta != Some([])
  {
    assert d.data.None? ==> WireDiff(d).data != d.data;
  }
}

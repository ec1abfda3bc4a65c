/**
 * The signed-request acceptance gate of the executor's `POST /execute`
 * endpoint: a fixed chain of guards over the configured shared secret, the
 * `x-om-timestamp` and `x-om-signature` headers and the raw body bytes.
 *
 * UTF-8 decoding, HMAC-SHA256 in hex and `json.loads` are not modelled
 * internally: they are the fields of a `Primitives` value handed in by the
 * caller, so every statement below holds for any implementation of them.
 */
module ExecuteGate {
  import opened Wrappers
  import opened JsonValue

  newtype byte = x: int | 0 <= x < 256

  /** The library routines the endpoint relies on. */
  datatype Primitives = Primitives(
    decodeUtf8: seq<byte> -> Option<string>,     // `raw.decode("utf-8")`; None when it raises
    hmacSha256Hex: (string, string) -> string,   // `_hmac_sha256_hex(secret, data)`
    loads: string -> Option<Json>                // `json.loads`; None when it raises
  )

  const SecretMissing := "EXECUTOR_SHARED_SECRET is not set on executor."
  const MissingHeaders := "Missing signature headers."
  const NotUtf8 := "Body must be UTF-8 JSON."
  const BadSignature := "Invalid signature."
  const BadJson := "Invalid JSON body."
  const Note := "MVP executor: not executing hardware actions yet (only returns payload)."

  /** The four keys of an accepted response. */
  const ResponseKeys: set<string> := {"accepted", "openmind_status", "note", "openmind_response_preview"}

  /**
   * What the endpoint returns: an `HTTPException` (status and detail), an
   * accepted response body, or an exception that escapes the handler, which
   * the web framework turns into a bare 500 response.
   */
  datatype Outcome =
    | Rejected(status: int, detail: string)
    | Accepted(body: Json)
    | Unhandled

  /** A header counts as given when it is neither absent nor the empty string (`not x` in Python). */
  predicate HeaderGiven(h: Option<string>)
  {
    h.Some? && h.value != ""
  }

  /** The string the gateway signs: the timestamp, a dot, and the body exactly as received. */
  function SignedMessage(timestamp: string, payload: string): (r: string)
  {
    timestamp + "." + payload
  }

  /** `_safe_equal`: `hmac.compare_digest` on the UTF-8 encodings; its constant timing is not modelled. */
  predicate SafeEqual(a: string, b: string)
  {
    a == b
  }

  /** The accepted response: two payload fields (null when absent) and the fixed note. */
  function AcceptedBody(payload: map<string, Json>): (r: Json)
  {
    JObject(map[
      "accepted" := JBool(true),
      "openmind_status" := GetOrNull(payload, "openmind_status"),
      "note" := JString(Note),
      "openmind_response_preview" := GetOrNull(payload, "openmind_response")
    ])
  }

  /** The `execute` handler. */
  function Execute(p: Primitives, secret: string, timestamp: Option<string>,
                   signature: Option<string>, raw: seq<byte>): (r: Outcome)
  {
    if secret == "" then Rejected(500, SecretMissing)
    else if !HeaderGiven(timestamp) || !HeaderGiven(signature) then Rejected(401, MissingHeaders)
    else match p.decodeUtf8(raw)
      case None => Rejected(400, NotUtf8)
      case Some(payloadStr) =>
        var expected := p.hmacSha256Hex(secret, SignedMessage(timestamp.value, payloadStr));
        if !SafeEqual(expected, signature.value) then Rejected(401, BadSignature)
        else match p.loads(payloadStr)
          case None => Rejected(400, BadJson)
          case Some(JObject(payload)) => Accepted(AcceptedBody(payload))
          case Some(_) => Unhandled   // `payload.get` on a list, string, number, bool or null
  }

  /** The request carries a valid signature: the conjunction of every guard that precedes JSON parsing. */
  predicate Authentic(p: Primitives, secret: string, timestamp: Option<string>,
                      signature: Option<string>, raw: seq<byte>)
  {
    && secret != ""
    && HeaderGiven(timestamp) && HeaderGiven(signature)
    && p.decodeUtf8(raw).Some?
    && p.hmacSha256Hex(secret, SignedMessage(timestamp.value, p.decodeUtf8(raw).value)) == signature.value
  }

  /** An outcome that can only be reached past the signature check. */
  predicate PastAuthentication(r: Outcome)
  {
    r.Accepted? || r.Unhandled? || r == Rejected(400, BadJson)
  }

  // ---------------------------------------------------------------------------
  // An independent reading of the handler: an ordered list of guards, each with
  // the outcome it produces when it fails; the first failing guard decides.

  datatype Guard = Guard(holds: bool, onFailure: Outcome)

  function FirstFailing(guards: seq<Guard>, success: Outcome): (r: Outcome)
  {
    if guards == [] then success
    else if !guards[0].holds then guards[0].onFailure
    else FirstFailing(guards[1..], success)
  }

  /** The first failing guard (if any) decides; when every guard holds, the success outcome is returned. */
  lemma {:induction false} FirstFailingDecides(guards: seq<Guard>, success: Outcome, k: nat)
    requires k <= |guards|
    requires forall i :: 0 <= i < k ==> guards[i].holds
    ensures k < |guards| && !guards[k].holds ==> FirstFailing(guards, success) == guards[k].onFailure
    ensures k == |guards| ==> FirstFailing(guards, success) == success
  {
    if k > 0 {
      FirstFailingDecides(guards[1..], success, k - 1);
    }
  }

  function HeaderText(h: Option<string>): (r: string)
  {
    h.GetOr("")
  }

  function PayloadText(p: Primitives, raw: seq<byte>): (r: string)
  {
    p.decodeUtf8(raw).GetOr("")
  }

  /** The guards of `execute`, in the order the source evaluates them. */
  function Guards(p: Primitives, secret: string, timestamp: Option<string>,
                  signature: Option<string>, raw: seq<byte>): (r: seq<Guard>)
  {
    var payloadStr := PayloadText(p, raw);
    var parsed := p.loads(payloadStr);
    [ Guard(secret != "", Rejected(500, SecretMissing)),
      Guard(HeaderGiven(timestamp) && HeaderGiven(signature), Rejected(401, MissingHeaders)),
      Guard(p.decodeUtf8(raw).Some?, Rejected(400, NotUtf8)),
      Guard(p.hmacSha256Hex(secret, SignedMessage(HeaderText(timestamp), payloadStr)) == HeaderText(signature),
            Rejected(401, BadSignature)),
      Guard(parsed.Some?, Rejected(400, BadJson)),
      Guard(parsed.Some? && parsed.value.JObject?, Unhandled) ]
  }

  function Success(p: Primitives, raw: seq<byte>): (r: Outcome)
  {
    var parsed := p.loads(PayloadText(p, raw));
    if parsed.Some? && parsed.value.JObject? then Accepted(AcceptedBody(parsed.value.fields)) else Unhandled
  }

  /** `execute` is exactly the guard list read in order. */
  lemma ExecuteIsGuardChain(p: Primitives, secret: string, timestamp: Option<string>,
                            signature: Option<string>, raw: seq<byte>)
    ensures Execute(p, secret, timestamp, signature, raw)
         == FirstFailing(Guards(p, secret, timestamp, signature, raw), Success(p, raw))
  {
    var g := Guards(p, secret, timestamp, signature, raw);
    var k := if !g[0].holds then 0 else if !g[1].holds then 1 else if !g[2].holds then 2
             else if !g[3].holds then 3 else if !g[4].holds then 4 else if !g[5].holds then 5 else 6;
    FirstFailingDecides(g, Success(p, raw), k);
  }

  // ---------------------------------------------------------------------------
  // The guards one by one.

  /** With no secret configured the answer is 500, whatever the headers and the body. */
  lemma SecretMissingAlways500(p: Primitives, timestamp: Option<string>,
                               signature: Option<string>, raw: seq<byte>)
    ensures Execute(p, "", timestamp, signature, raw) == Rejected(500, SecretMissing)
  {
  }

  /**
   * With a secret but a missing or empty header the answer is 401 "Missing
   * signature headers.", and it does not depend on the body or on any primitive.
   */
  lemma MissingHeaderIs401(p: Primitives, q: Primitives, secret: string, timestamp: Option<string>,
                           signature: Option<string>, raw: seq<byte>, raw': seq<byte>)
    requires secret != ""
    requires !HeaderGiven(timestamp) || !HeaderGiven(signature)
    ensures Execute(p, secret, timestamp, signature, raw) == Rejected(401, MissingHeaders)
    ensures Execute(p, secret, timestamp, signature, raw) == Execute(q, secret, timestamp, signature, raw')
  {
  }

  /** A body that is not UTF-8 is refused with 400 before any MAC is computed. */
  lemma NotUtf8Is400BeforeMac(p: Primitives, mac: (string, string) -> string, secret: string,
                              timestamp: Option<string>, signature: Option<string>, raw: seq<byte>)
    requires secret != "" && HeaderGiven(timestamp) && HeaderGiven(signature)
    requires p.decodeUtf8(raw).None?
    ensures Execute(p, secret, timestamp, signature, raw) == Rejected(400, NotUtf8)
    ensures Execute(p.(hmacSha256Hex := mac), secret, timestamp, signature, raw) == Rejected(400, NotUtf8)
  {
  }

  /**
   * Authentication: a request gets past the signature check exactly when the
   * signature header equals the HMAC of `timestamp + "." + body` under the
   * secret; a request that passes the earlier guards and fails this one gets
   * 401 "Invalid signature.".
   */
  lemma AuthenticatedIff(p: Primitives, secret: string, timestamp: Option<string>,
                         signature: Option<string>, raw: seq<byte>)
    ensures PastAuthentication(Execute(p, secret, timestamp, signature, raw))
            <==> Authentic(p, secret, timestamp, signature, raw)
    ensures secret != "" && HeaderGiven(timestamp) && HeaderGiven(signature) && p.decodeUtf8(raw).Some?
            && !Authentic(p, secret, timestamp, signature, raw)
            ==> Execute(p, secret, timestamp, signature, raw) == Rejected(401, BadSignature)
  {
  }

  /**
   * JSON is consulted only after authentication: the JSON error is reachable
   * only by authentic requests, and an unauthentic request gets the same
   * outcome whatever the JSON parser would have said.
   */
  lemma JsonOnlyAfterAuthentication(p: Primitives, otherLoads: string -> Option<Json>, secret: string,
                                    timestamp: Option<string>, signature: Option<string>, raw: seq<byte>)
    ensures Execute(p, secret, timestamp, signature, raw) == Rejected(400, BadJson)
            ==> Authentic(p, secret, timestamp, signature, raw)
    ensures !Authentic(p, secret, timestamp, signature, raw) ==>
              Execute(p, secret, timestamp, signature, raw)
              == Execute(p.(loads := otherLoads), secret, timestamp, signature, raw)
  {
  }

  /**
   * An authentic request: 400 "Invalid JSON body." when the body is not JSON,
   * the projection when it is a JSON object, an unhandled error otherwise.
   */
  lemma AuthenticOutcome(p: Primitives, secret: string, timestamp: Option<string>,
                         signature: Option<string>, raw: seq<byte>)
    requires Authentic(p, secret, timestamp, signature, raw)
    ensures var parsed := p.loads(p.decodeUtf8(raw).value);
            Execute(p, secret, timestamp, signature, raw)
            == (if parsed.None? then Rejected(400, BadJson)
                else if parsed.value.JObject? then Accepted(AcceptedBody(parsed.value.fields))
                else Unhandled)
  {
  }

  /**
   * An accepted response has exactly the four response keys, `accepted` is
   * true, the two previews are the payload's fields or null, and no other
   * payload field leaks into it.
   */
  lemma AcceptedProjection(p: Primitives, secret: string, timestamp: Option<string>,
                           signature: Option<string>, raw: seq<byte>)
    requires Execute(p, secret, timestamp, signature, raw).Accepted?
    ensures Authentic(p, secret, timestamp, signature, raw)
    ensures var body := Execute(p, secret, timestamp, signature, raw).body;
            var payload := p.loads(p.decodeUtf8(raw).value).value.fields;
            && body.JObject? && body.fields.Keys == ResponseKeys
            && body.fields["accepted"] == JBool(true)
            && body.fields["note"] == JString(Note)
            && body.fields["openmind_status"]
               == (if "openmind_status" in payload then payload["openmind_status"] else JNull)
            && body.fields["openmind_response_preview"]
               == (if "openmind_response" in payload then payload["openmind_response"] else JNull)
  {
    var payload := p.loads(p.decodeUtf8(raw).value).value.fields;
    assert AcceptedBody(payload).fields.Keys == ResponseKeys;
  }

  /** For one secret, timestamp and body at most one signature header is ever accepted. */
  lemma SignatureDetermined(p: Primitives, secret: string, timestamp: Option<string>,
                            sig1: Option<string>, sig2: Option<string>, raw: seq<byte>)
    requires PastAuthentication(Execute(p, secret, timestamp, sig1, raw))
    requires PastAuthentication(Execute(p, secret, timestamp, sig2, raw))
    ensures sig1 == sig2
  {
  }

  // ---------------------------------------------------------------------------
  // The signed string.

  /** When neither timestamp contains a dot, the signed string determines both the timestamp and the body. */
  lemma {:induction false} SignedMessageInjective(t1: string, b1: string, t2: string, b2: string)
    requires '.' !in t1 && '.' !in t2
    requires SignedMessage(t1, b1) == SignedMessage(t2, b2)
    ensures t1 == t2 && b1 == b2
  {
    var m := SignedMessage(t1, b1);
    assert m[|t1|] == '.' && m[|t2|] == '.';
    assert t1 == m[..|t1|] == t2;
    assert b1 == m[|t1| + 1..] == b2;
  }

  /**
   * The signed string does not fix where the timestamp ends: moving a
   * dot-separated piece from the end of the timestamp to the front of the body
   * leaves the signed string unchanged.
   */
  lemma TimestampSplit(t: string, u: string, b: string)
    ensures SignedMessage(t + "." + u, b) == SignedMessage(t, u + "." + b)
  {
  }

  /**
   * The executor never looks inside the timestamp, so a timestamp with a dot after
   * its first character (ISO-8601 fractional seconds) lets one signature
   * authenticate two splits of the same characters: (t + "." + u, b) and
   * (t, u + "." + b). t must be non-empty, since an empty timestamp header is
   * rejected before the signature is checked.
   */
  lemma TimestampSplitShareSignature(p: Primitives, secret: string, t: string, u: string,
                                     sig: Option<string>, raw1: seq<byte>, raw2: seq<byte>)
    requires p.decodeUtf8(raw1).Some? && p.decodeUtf8(raw2).Some?
    requires p.decodeUtf8(raw2).value == u + "." + p.decodeUtf8(raw1).value
    ensures t != "" ==>
              (Authentic(p, secret, Some(t + "." + u), sig, raw1)
               <==> Authentic(p, secret, Some(t), sig, raw2))
  {
    TimestampSplit(t, u, p.decodeUtf8(raw1).value);
  }
}

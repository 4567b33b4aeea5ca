/**
 * The GitHub App `github.webhooks` route: the signature is pulled out of the
 * `x-hub-signature-256` header and handed to the signature check; an accepted
 * request schedules exactly one task carrying its body and headers and is
 * answered with 202.
 *
 * The HMAC-SHA256 check itself is not modelled: it is the parameter `verify`,
 * an accept/reject verdict on the body and the extracted signature.
 */
module GitHubWebhooks {
  import opened Wrappers
  import JsStrings

  /** A Node.js request header value: a string, or an array of strings for a repeated header. */
  datatype HeaderValue = Single(text: string) | Multiple(texts: seq<string>)

  /** Request headers by lower-case name. */
  type Headers = map<string, HeaderValue>

  const SignatureHeader: string := "x-hub-signature-256"
  const DigestSeparator: char := '='
  const Accepted: int := 202

  /** The header's text: an array-valued header gives its first element, a missing one (or an empty array) nothing. */
  function HeaderText(headers: Headers): (text: Option<string>)
    ensures SignatureHeader !in headers ==> text.None?
    ensures SignatureHeader in headers && headers[SignatureHeader].Single? ==>
      text == Some(headers[SignatureHeader].text)
    ensures SignatureHeader in headers && headers[SignatureHeader].Multiple? ==>
      (text.Some? <==> headers[SignatureHeader].texts != [])
      && (text.Some? ==> text.value == headers[SignatureHeader].texts[0])
  {
    if SignatureHeader !in headers then None
    else match headers[SignatureHeader]
      case Single(t) => Some(t)
      case Multiple(ts) => if ts == [] then None else Some(ts[0])
  }

  /**
   * `signature?.split("=")[1]`: the second `=`-separated piece of the header
   * text, absent when the header is missing or holds no `=`.
   */
  function SignatureFromHeader(headers: Headers): (signature: Option<string>)
    ensures HeaderText(headers).None? ==> signature.None?
    ensures signature.Some? ==> DigestSeparator !in signature.value
    ensures signature.Some? ==> DigestSeparator in HeaderText(headers).value
    ensures HeaderText(headers).Some? ==>
      (signature.Some? <==> DigestSeparator in HeaderText(headers).value)
  {
    match HeaderText(headers)
    case None => None
    case Some(text) =>
      var pieces := JsStrings.Split(text, DigestSeparator);
      JsStrings.SplitSinglePiece(text, DigestSeparator);
      if |pieces| >= 2 then Some(pieces[1]) else None
  }

  /** `sha256=<digest>` yields `<digest>`, for any algorithm name and digest without `=`. */
  lemma PrefixedDigestExtracted(headers: Headers, algorithm: string, digest: string)
    requires DigestSeparator !in algorithm && DigestSeparator !in digest
    requires SignatureHeader in headers && headers[SignatureHeader] == Single(algorithm + [DigestSeparator] + digest)
    ensures SignatureFromHeader(headers) == Some(digest)
  {
    JsStrings.SplitAroundSeparator(algorithm, digest, DigestSeparator);
  }

  /**
   * With several `=`, the signature is the piece between the first and the
   * second: `a=d=...` yields `d`.
   */
  lemma SecondPieceExtracted(headers: Headers, first: string, digest: string, rest: string)
    requires DigestSeparator !in first && DigestSeparator !in digest
    requires rest == [] || rest[0] == DigestSeparator
    requires HeaderText(headers) == Some(first + [DigestSeparator] + digest + rest)
    ensures SignatureFromHeader(headers) == Some(digest)
  {
    JsStrings.SplitFirstTwoPieces(first, digest, rest, DigestSeparator);
  }

  /** A header text without `=` yields no signature. */
  lemma NoSeparatorNoSignature(headers: Headers)
    requires HeaderText(headers).Some? && DigestSeparator !in HeaderText(headers).value
    ensures SignatureFromHeader(headers).None?
  {
  }

  /** An array-valued header is read as its first element alone. */
  lemma ArrayHeaderUsesFirst(headers: Headers, texts: seq<string>)
    requires SignatureHeader in headers && headers[SignatureHeader] == Multiple(texts) && texts != []
    ensures SignatureFromHeader(headers) == SignatureFromHeader(headers[SignatureHeader := Single(texts[0])])
  {
  }

  /** The header `sha256=deadbeef` carries the signature `deadbeef`. */
  lemma Sha256HeaderExample(headers: Headers)
    requires headers == map[SignatureHeader := Single("sha256=deadbeef")]
    ensures SignatureFromHeader(headers) == Some("deadbeef")
  {
    assert "sha256=deadbeef" == "sha256" + [DigestSeparator] + "deadbeef";
    PrefixedDigestExtracted(headers, "sha256", "deadbeef");
  }

  /** A unit of work for the webhook processor: the request body and headers as received. */
  datatype WebhookTask = WebhookTask(payload: string, headers: Headers)

  /** How the request ends: a status code, a rejection by the signature check, or the scheduling error propagating. */
  datatype WebhookResponse = Status(code: int) | SignatureRejected | ScheduleFailed

  /** The queue `GitHubWebhookTask().schedule` appends to. */
  class TaskQueue {
    var scheduled: seq<WebhookTask>

    constructor ()
      ensures scheduled == []
    {
      scheduled := [];
    }

    /** `schedule`: appends the task when the queue is available, otherwise fails and appends nothing. */
    method Schedule(task: WebhookTask, available: bool) returns (ok: bool)
      modifies this
      ensures ok == available
      ensures scheduled == if ok then old(scheduled) + [task] else old(scheduled)
    {
      ok := available;
      if ok {
        scheduled := scheduled + [task];
      }
    }

    /**
     * The `github.webhooks` route: the signature check sees the body and the
     * extracted signature; an accepted request schedules exactly one task
     * holding the body and headers and then answers 202; nothing else is queued.
     */
    method Receive(body: string, headers: Headers, verify: (string, Option<string>) -> bool, available: bool)
      returns (response: WebhookResponse)
      modifies this
      ensures !verify(body, SignatureFromHeader(headers)) ==>
        response == SignatureRejected && scheduled == old(scheduled)
      ensures verify(body, SignatureFromHeader(headers)) && !available ==>
        response == ScheduleFailed && scheduled == old(scheduled)
      ensures verify(body, SignatureFromHeader(headers)) && available ==>
        response == Status(Accepted) && scheduled == old(scheduled) + [WebhookTask(body, headers)]
      ensures response == Status(Accepted) <==> |scheduled| == |old(scheduled)| + 1
    {
      var signature := SignatureFromHeader(headers);
      if !verify(body, signature) {
        return SignatureRejected;
      }
      var ok := Schedule(WebhookTask(body, headers), available);
      if !ok {
        return ScheduleFailed;
      }
      response := Status(Accepted);
    }
  }
}

/**
 * The two sides of HTTP the handlers touch: replies to their own outbound
 * `requests` calls, and the responses they give to their callers.
 */
module Http {
  import opened Wrappers
  import opened JsonValues

  /** The field under which Graph lists its items, in collection replies and in
      notification batches alike. */
  const ValueField: string := "value"
  /** The change type of a new recording, and the one subscriptions ask for. */
  const CreatedChange: string := "created"

  /** What an outbound call produced: no response at all (the transport raised),
      or a status code with the body decoded as JSON when it decodes. */
  datatype HttpReply = NoReply | Reply(status: int, body: Option<Json>)

  /** `response.raise_for_status()` raises for client and server errors only. */
  predicate RaisesForStatus(status: int) {
    400 <= status < 600
  }

  /** The reply arrived and `raise_for_status()` let it through. */
  predicate Delivered(reply: HttpReply) {
    reply.Reply? && !RaisesForStatus(reply.status)
  }

  /** The result of `raise_for_status()` followed by `response.json()`: the decoded
      body, or None when either of them (or the transport) raised. */
  function CheckedBody(reply: HttpReply): (body: Option<Json>)
    ensures body.Some? ==> Delivered(reply) && reply.body == body
    ensures Delivered(reply) && reply.body.Some? ==> body.Some?
  {
    if Delivered(reply) then reply.body else None
  }

  /** The body of a response the handlers give back: plain text or a JSON document. */
  datatype Body = Text(text: string) | JsonBody(json: Json)

  datatype Response = Response(status: int, body: Body)
}

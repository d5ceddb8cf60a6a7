/**
 * One change notification through the decision chain: filter on the change
 * type, acquire a token, parse the resource, resolve the download URL and
 * forward it for transcription. Every outbound call is an input (a World),
 * and the outcome records which calls were made, in order.
 */
module Notifications {
  import opened Wrappers
  import opened JsonValues
  import opened Http
  import opened ResourcePath
  import opened Outbound

  const TitlePrefix: string := "Teams Meeting - "

  /** What the outbound calls answer for one notification: the access token
      (None when acquisition failed), the Graph reply for a recording lookup
      made with a given recording id and token, and the transcription
      service's reply to a given payload. */
  datatype World = World(
    token: Option<string>,
    graph: (string, string) -> HttpReply,
    transcription: TranscriptionRequest -> HttpReply)

  /** An outbound call, in the order the handler makes it. */
  datatype Call =
    | AcquireToken
    | FetchRecordings(recordingId: string, token: string)
    | PostTranscription(request: TranscriptionRequest)

  datatype Outcome = Outcome(success: bool, calls: seq<Call>)

  /** `if not access_token`: None and the empty string both count as failure. */
  predicate TokenUsable(token: Option<string>) {
    token.Some? && token.value != ""
  }

  /** The notification's `changeType` is exactly "created" (a missing key reads as ""). */
  predicate IsCreated(n: Json) {
    n.JObj? && Lookup(n.members, "changeType", JStr("")) == JStr(CreatedChange)
  }

  function ResourceOf(n: Json): Json
    requires n.JObj?
  {
    Lookup(n.members, "resource", JStr(""))
  }

  /** The resource is a string that ParseResource accepts. */
  predicate Parses(resource: Json) {
    resource.JStr? && ParseResource(resource.s).Some?
  }

  /** The payload forwarded for a recording: its URL and the call's title. */
  function TranscriptionFor(url: Json, ref: RecordingRef): TranscriptionRequest {
    TranscriptionRequest(url, TitlePrefix + ref.callId)
  }

  /** Processes one notification. A value that is not an object fails at its
      first `.get` and a resource that is not a string fails at `.split`; both
      exceptions are caught and turn into failure. */
  function ProcessNotification(n: Json, w: World): (o: Outcome)
    ensures !n.JObj? ==> o == Outcome(false, [])
    ensures n.JObj? && !IsCreated(n) ==> o == Outcome(true, [])
    ensures IsCreated(n) ==> |o.calls| >= 1 && o.calls[0] == AcquireToken
    ensures IsCreated(n) && !TokenUsable(w.token) ==> o == Outcome(false, [AcquireToken])
    ensures IsCreated(n) && TokenUsable(w.token) && !Parses(ResourceOf(n)) ==> o == Outcome(false, [AcquireToken])
    ensures IsCreated(n) && TokenUsable(w.token) && Parses(ResourceOf(n)) ==>
      var ref := ParseResource(ResourceOf(n).s).value;
      var url := SelectDownloadUrl(w.graph(ref.recordingId, w.token.value));
      && (o.success <==> url.Some? && TranscriptionAccepted(w.transcription(TranscriptionFor(url.value, ref))))
      && o.calls == [AcquireToken, FetchRecordings(ref.recordingId, w.token.value)]
                    + (if url.Some? then [PostTranscription(TranscriptionFor(url.value, ref))] else [])
    ensures o.success && IsCreated(n) ==>
      && |o.calls| == 3
      && o.calls[2].PostTranscription?
      && TranscriptionAccepted(w.transcription(o.calls[2].request))
      && Truthy(o.calls[2].request.videoUrl)
  {
    if !n.JObj? then Outcome(false, [])
    else if !IsCreated(n) then Outcome(true, [])
    else if !TokenUsable(w.token) then Outcome(false, [AcquireToken])
    else
      var resource := ResourceOf(n);
      if !resource.JStr? then Outcome(false, [AcquireToken])
      else
        match ParseResource(resource.s)
        case None => Outcome(false, [AcquireToken])
        case Some(ref) =>
          var token := w.token.value;
          var fetch := FetchRecordings(ref.recordingId, token);
          match SelectDownloadUrl(w.graph(ref.recordingId, token))
          case None => Outcome(false, [AcquireToken, fetch])
          case Some(url) =>
            var request := TranscriptionFor(url, ref);
            Outcome(TranscriptionAccepted(w.transcription(request)),
                    [AcquireToken, fetch, PostTranscription(request)])
  }

  /** The documented path shape parses to its call and recording ids. */
  lemma CanonicalResourceParses(n: Json, callId: string, recordingId: string)
    requires SeparatorFree(callId) && SeparatorFree(recordingId)
    requires n.JObj? && ResourceOf(n) == JStr(CanonicalResource(callId, recordingId))
    ensures Parses(ResourceOf(n))
    ensures ParseResource(ResourceOf(n).s).value == RecordingRef(callId, recordingId)
  {
    ParseCanonical(callId, recordingId);
  }

  /** A created notification about the documented path shape: the recording id
      goes to the lookup, and its URL is forwarded titled with the call id. */
  lemma CanonicalNotification(n: Json, w: World, callId: string, recordingId: string, url: Json)
    requires SeparatorFree(callId) && SeparatorFree(recordingId)
    requires IsCreated(n) && ResourceOf(n) == JStr(CanonicalResource(callId, recordingId))
    requires TokenUsable(w.token)
    requires SelectDownloadUrl(w.graph(recordingId, w.token.value)) == Some(url)
    ensures var request := TranscriptionRequest(url, "Teams Meeting - " + callId);
      ProcessNotification(n, w) == Outcome(
        TranscriptionAccepted(w.transcription(request)),
        [AcquireToken, FetchRecordings(recordingId, w.token.value), PostTranscription(request)])
  {
    CanonicalResourceParses(n, callId, recordingId);
  }
}

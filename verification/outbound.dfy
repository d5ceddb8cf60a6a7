/**
 * The two outbound steps of the notification pipeline, with the network
 * reply as an input: looking up a recording's download URL in the Graph API,
 * and handing that URL to the transcription service.
 */
module Outbound {
  import opened Wrappers
  import opened JsonValues
  import opened Http

  const DownloadUrlField: string := "@microsoft.graph.downloadUrl"

  /** The decoded reply carries a `value` list whose first element is an object
      with a truthy download URL `url`. */
  predicate FirstRecordingHasUrl(data: Json, url: Json) {
    && data.JObj?
    && var recordings := Lookup(data.members, ValueField, JNull);
    && recordings.JArr?
    && |recordings.elems| > 0
    && recordings.elems[0].JObj?
    && Lookup(recordings.elems[0].members, DownloadUrlField, JNull) == url
    && Truthy(url)
  }

  /** The download URL the resolver returns for a Graph reply. Any shape Python
      would trip over (`in` on a number, `len` of a number, `[0]` of a dict,
      `.get` on a non-dict) raises inside the resolver's `try` and yields None,
      exactly like an empty list, a missing field or a falsy one. */
  function DownloadUrlOf(data: Json): (url: Option<Json>)
    ensures url.Some? ==> FirstRecordingHasUrl(data, url.value)
    ensures forall u :: FirstRecordingHasUrl(data, u) ==> url == Some(u)
  {
    if !data.JObj? || !HasKey(data.members, ValueField) then None
    else
      var recordings := Lookup(data.members, ValueField, JNull);
      if !recordings.JArr? || |recordings.elems| == 0 then None
      else
        var first := recordings.elems[0];
        if !first.JObj? then None
        else
          var url := Lookup(first.members, DownloadUrlField, JNull);
          if Truthy(url) then Some(url) else None
  }

  /** The resolver on a whole reply: a transport error, an error status or an
      undecodable body yields None before the body is looked at. */
  function SelectDownloadUrl(reply: HttpReply): (url: Option<Json>)
    ensures url.Some? ==> Truthy(url.value)
    ensures url.Some? ==> Delivered(reply) && reply.body.Some? && FirstRecordingHasUrl(reply.body.value, url.value)
    ensures forall u :: Delivered(reply) && reply.body.Some? && FirstRecordingHasUrl(reply.body.value, u) ==> url == Some(u)
  {
    match CheckedBody(reply)
    case None => None
    case Some(data) => DownloadUrlOf(data)
  }

  /** Only the first recording is consulted: whatever follows it in the list
      leaves the result unchanged. */
  lemma OnlyFirstRecordingConsulted(before: seq<(string, Json)>, after: seq<(string, Json)>,
                                    first: Json, rest: seq<Json>, rest': seq<Json>)
    requires !HasKey(after, ValueField)
    ensures DownloadUrlOf(JObj(before + [(ValueField, JArr([first] + rest))] + after))
         == DownloadUrlOf(JObj(before + [(ValueField, JArr([first] + rest'))] + after))
  {
    LookupSkipsLaterKeys(before, (ValueField, JArr([first] + rest)), after);
    LookupSkipsLaterKeys(before, (ValueField, JArr([first] + rest')), after);
  }

  /** A key that does not occur after a member is found at that member. */
  lemma {:induction false} LookupSkipsLaterKeys(before: seq<(string, Json)>, m: (string, Json), after: seq<(string, Json)>)
    requires !HasKey(after, m.0)
    ensures Lookup(before + [m] + after, m.0, JNull) == m.1
    ensures HasKey(before + [m] + after, m.0)
    decreases |after|
  {
    var all := before + [m] + after;
    assert all[|before|] == m;
    if |after| > 0 {
      var last := after[|after| - 1];
      assert last.0 != m.0 by {
        assert after[|after| - 1] == last;
      }
      assert all[..|all| - 1] == before + [m] + after[..|after| - 1];
      var init := after[..|after| - 1];
      assert !HasKey(init, m.0) by {
        forall i | 0 <= i < |init|
          ensures init[i].0 != m.0
        {
          assert init[i] == after[i];
        }
      }
      LookupSkipsLaterKeys(before, m, init);
    }
  }

  /** The payload posted to the transcription service. */
  datatype TranscriptionRequest = TranscriptionRequest(videoUrl: Json, title: string)

  /** The forwarder's verdict: true only when the reply arrived, was not an
      error status and its body decoded as JSON; every exception yields false. */
  function TranscriptionAccepted(reply: HttpReply): (accepted: bool)
    ensures accepted <==> reply.Reply? && !RaisesForStatus(reply.status) && reply.body.Some?
  {
    match CheckedBody(reply)
    case None => false
    case Some(_) => true
  }
}

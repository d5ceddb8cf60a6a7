/**
 * The webhook endpoint: the GET validation handshake, the POST batch of
 * notifications, and the Azure Functions entry point that dispatches on the
 * method. The FastAPI app and the Functions entry point make the same
 * decisions and differ only in how a response is rendered.
 */
module Webhook {
  import opened Wrappers
  import opened JsonValues
  import opened Http
  import opened Decimal
  import opened ResourcePath
  import opened Outbound
  import opened Notifications

  const InvalidJsonDetail: string := "Invalid JSON body"
  const EmptyBodyDetail: string := "Empty request body"
  const NoNotificationsDetail: string := "No notifications found"
  const MissingTokenDetail: string := "Missing validation token"
  /** The framework's body for an uncaught exception. */
  const ServerErrorText: string := "Internal Server Error"
  const InternalErrorPrefix: string := "Internal error: "
  const MessagePrefix: string := "Processed "
  const MessageSuffix: string := " notifications"

  // ---------------------------------------------------------------------------
  // Counting successes over a batch

  /** Each notification's verdict, the i-th seeing world(i). */
  function Verdicts(items: seq<Json>, world: nat -> World): (v: seq<bool>)
    ensures |v| == |items|
    ensures forall i | 0 <= i < |items| :: v[i] == ProcessNotification(items[i], world(i)).success
  {
    seq(|items|, i requires 0 <= i < |items| => ProcessNotification(items[i], world(i)).success)
  }

  /** Number of true verdicts among the first `n`. */
  function CountTrue(v: seq<bool>, n: nat): (k: nat)
    requires n <= |v|
    ensures k <= n
  {
    if n == 0 then 0
    else CountTrue(v, n - 1) + (if v[n - 1] then 1 else 0)
  }

  /** The indices of the true verdicts among the first `n`. */
  function TrueIndices(v: seq<bool>, n: nat): set<nat>
    requires n <= |v|
  {
    set i: nat | i < n && v[i]
  }

  /** Number of successes in a batch. */
  function Successes(items: seq<Json>, world: nat -> World): (k: nat)
    ensures k <= |items|
  {
    CountTrue(Verdicts(items, world), |items|)
  }

  /** The handler's counting loop (`processed_count += 1` per success): the count
      is the number of notifications whose own outcome succeeds. */
  method CountProcessed(items: seq<Json>, world: nat -> World) returns (k: nat)
    ensures k <= |items|
    ensures k == |TrueIndices(Verdicts(items, world), |items|)|
  {
    ghost var v := Verdicts(items, world);
    k := 0;
    var i := 0;
    while i < |items|
      invariant 0 <= i <= |items|
      invariant k == CountTrue(v, i)
    {
      if ProcessNotification(items[i], world(i)).success {
        k := k + 1;
      }
      i := i + 1;
    }
    CountTrueIsIndices(v, |items|);
  }

  /** The recursive count is the number of true indices. */
  lemma {:induction false} CountTrueIsIndices(v: seq<bool>, n: nat)
    requires n <= |v|
    ensures CountTrue(v, n) == |TrueIndices(v, n)|
  {
    if n > 0 {
      CountTrueIsIndices(v, n - 1);
      var before := TrueIndices(v, n - 1);
      if v[n - 1] {
        assert TrueIndices(v, n) == before + {n - 1};
      } else {
        assert TrueIndices(v, n) == before;
      }
    }
  }

  /** Verdict lists that differ at one index at most count within one of each other. */
  lemma {:induction false} CountTrueDiffersByAtMostOne(v: seq<bool>, u: seq<bool>, j: nat, n: nat)
    requires |v| == |u| && n <= |v|
    requires forall i | 0 <= i < |v| && i != j :: v[i] == u[i]
    ensures CountTrue(v, n) - 1 <= CountTrue(u, n) <= CountTrue(v, n) + 1
    ensures n <= j ==> CountTrue(u, n) == CountTrue(v, n)
  {
    if n > 0 {
      CountTrueDiffersByAtMostOne(v, u, j, n - 1);
    }
  }

  /** Failure is isolated: replacing one notification of a batch leaves every
      other verdict unchanged and moves the count by at most one. */
  lemma ReplacingOneMovesCountByAtMostOne(items: seq<Json>, world: nat -> World, j: nat, x: Json)
    requires j < |items|
    ensures forall i | 0 <= i < |items| && i != j :: Verdicts(items[j := x], world)[i] == Verdicts(items, world)[i]
    ensures Successes(items, world) - 1 <= Successes(items[j := x], world) <= Successes(items, world) + 1
  {
    var v := Verdicts(items, world);
    var u := Verdicts(items[j := x], world);
    assert forall i | 0 <= i < |items| && i != j :: items[j := x][i] == items[i];
    CountTrueDiffersByAtMostOne(v, u, j, |items|);
  }

  /** All-true verdicts count every notification. */
  lemma {:induction false} CountTrueAllTrue(v: seq<bool>, n: nat)
    requires n <= |v|
    requires forall i | 0 <= i < |v| :: v[i]
    ensures CountTrue(v, n) == n
  {
    if n > 0 {
      CountTrueAllTrue(v, n - 1);
    }
  }

  /** All-false verdicts count nothing. */
  lemma {:induction false} CountTrueAllFalse(v: seq<bool>, n: nat)
    requires n <= |v|
    requires forall i | 0 <= i < |v| :: !v[i]
    ensures CountTrue(v, n) == 0
  {
    if n > 0 {
      CountTrueAllFalse(v, n - 1);
    }
  }

  /** Notifications that are filtered out (objects whose change type is not
      "created") all count as processed. */
  lemma FilteredNotificationsAllCount(items: seq<Json>, world: nat -> World)
    requires forall i | 0 <= i < |items| :: items[i].JObj? && !IsCreated(items[i])
    ensures Successes(items, world) == |items|
  {
    CountTrueAllTrue(Verdicts(items, world), |items|);
  }

  /** Items that are strings (a batch delivered as a string or an object) all fail. */
  lemma StringItemsCountNothing(items: seq<Json>, world: nat -> World)
    requires forall i | 0 <= i < |items| :: items[i].JStr?
    ensures Successes(items, world) == 0
  {
    CountTrueAllFalse(Verdicts(items, world), |items|);
  }

  // ---------------------------------------------------------------------------
  // The POST decision

  /** What `for notification in value` iterates: a list's elements, a string's
      characters, a dict's keys; None when the value is not iterable. */
  function NotificationItems(v: Json): (items: Option<seq<Json>>)
    ensures items.Some? <==> Sized(v)
    ensures items.Some? && Truthy(v) ==> |items.value| > 0
    ensures v.JArr? ==> items == Some(v.elems)
    ensures !v.JArr? && items.Some? ==> forall i | 0 <= i < |items.value| :: items.value[i].JStr?
    ensures v.JStr? ==>
      && items.Some? && |items.value| == |v.s|
      && forall i | 0 <= i < |v.s| :: items.value[i] == JStr([v.s[i]])
    ensures v.JObj? ==>
      && items.Some? && |items.value| == |v.members|
      && forall i | 0 <= i < |v.members| :: items.value[i] == JStr(v.members[i].0)
  {
    match v
    case JArr(xs) => Some(xs)
    case JStr(s) => Some(seq(|s|, i requires 0 <= i < |s| => JStr([s[i]])))
    case JObj(ms) => Some(seq(|ms|, i requires 0 <= i < |ms| => JStr(ms[i].0)))
    case _ => None
  }

  /** The decision a POST reaches, before it is rendered. */
  datatype PostOutcome =
    | BadRequest(detail: string)
    | InternalError(reason: string)
    | Processed(count: nat, total: nat)

  /** Handles the `value` of a POST body: rejected when falsy, processed item by
      item when iterable; a truthy value that is not iterable fails at the loop,
      an exception the handler does not catch. */
  function HandleNotifications(notifications: Json, world: nat -> World): (o: PostOutcome)
    ensures !Truthy(notifications) ==> o == BadRequest(NoNotificationsDetail)
    ensures o.Processed? ==> 0 < o.total && o.count <= o.total
    ensures Truthy(notifications) && notifications.JArr? ==>
      o == Processed(Successes(notifications.elems, world), |notifications.elems|)
    ensures o.InternalError? <==> Truthy(notifications) && !Sized(notifications)
    ensures o.InternalError? ==> o.reason == "'" + TypeName(notifications) + "' object is not iterable"
  {
    if !Truthy(notifications) then BadRequest(NoNotificationsDetail)
    else match NotificationItems(notifications)
      case None => InternalError("'" + TypeName(notifications) + "' object is not iterable")
      case Some(items) => Processed(Successes(items, world), |items|)
  }

  /** Handles a POST body (None when it does not decode as JSON). A truthy body
      that is not an object fails at `.get`, an exception the handler does not
      catch. */
  function HandlePost(body: Option<Json>, world: nat -> World): (o: PostOutcome)
    ensures body.None? ==> o == BadRequest(InvalidJsonDetail)
    ensures body.Some? && !Truthy(body.value) ==> o == BadRequest(EmptyBodyDetail)
    ensures body.Some? && Truthy(body.value) && !body.value.JObj? ==>
      o == InternalError("'" + TypeName(body.value) + "' object has no attribute 'get'")
    ensures body.Some? && Truthy(body.value) && body.value.JObj? ==>
      o == HandleNotifications(Lookup(body.value.members, ValueField, JArr([])), world)
    ensures o.Processed? ==> 0 < o.total && o.count <= o.total
  {
    if body.None? then BadRequest(InvalidJsonDetail)
    else
      var data := body.value;
      if !Truthy(data) then BadRequest(EmptyBodyDetail)
      else if !data.JObj? then InternalError("'" + TypeName(data) + "' object has no attribute 'get'")
      else HandleNotifications(Lookup(data.members, ValueField, JArr([])), world)
  }

  /** A batch delivered as a non-empty list is processed item by item: the count
      is the number of notifications whose own outcome succeeds. */
  lemma ListBatchCountsSuccesses(members: seq<(string, Json)>, items: seq<Json>, world: nat -> World)
    requires Lookup(members, ValueField, JArr([])) == JArr(items) && |items| > 0
    ensures HandlePost(Some(JObj(members)), world)
         == Processed(|TrueIndices(Verdicts(items, world), |items|)|, |items|)
  {
    assert HasKey(members, ValueField);
    CountTrueIsIndices(Verdicts(items, world), |items|);
  }

  /** A batch delivered as a non-empty string or object is iterated as strings,
      none of which can be processed: 200 with a count of zero. */
  lemma NonListBatchCountsNothing(members: seq<(string, Json)>, world: nat -> World)
    requires var v := Lookup(members, ValueField, JArr([])); (v.JStr? || v.JObj?) && Truthy(v)
    ensures HandlePost(Some(JObj(members)), world).Processed?
    ensures HandlePost(Some(JObj(members)), world).count == 0
  {
    var v := Lookup(members, ValueField, JArr([]));
    assert HasKey(members, ValueField);
    StringItemsCountNothing(NotificationItems(v).value, world);
  }

  // ---------------------------------------------------------------------------
  // The response message

  /** `f"Processed {k} notifications"`. */
  function ProcessedMessage(k: nat): (m: string)
    ensures |m| > |MessagePrefix| + |MessageSuffix|
    ensures m[..|MessagePrefix|] == MessagePrefix && m[|m| - |MessageSuffix|..] == MessageSuffix
    ensures var digits := m[|MessagePrefix|..|m| - |MessageSuffix|];
      AllDigits(digits) && DigitsValue(digits) == k
    ensures var digits := m[|MessagePrefix|..|m| - |MessageSuffix|];
      digits[0] == '0' ==> k == 0 && digits == "0"
  {
    var digits := NatToString(k);
    var m := MessagePrefix + digits + MessageSuffix;
    assert m[|MessagePrefix|..|m| - |MessageSuffix|] == digits;
    DigitsValueOfNatToString(k);
    m
  }

  /** Reads the count back out of a response message. */
  function CountInMessage(msg: string): Option<nat> {
    var lo := |MessagePrefix|;
    if |msg| < lo + |MessageSuffix| then None
    else
      var hi := |msg| - |MessageSuffix|;
      var digits := msg[lo..hi];
      if msg[..lo] == MessagePrefix && msg[hi..] == MessageSuffix && |digits| > 0 && AllDigits(digits)
      then Some(DigitsValue(digits))
      else None
  }

  /** The message carries the count: reading it back gives the number printed. */
  lemma MessageRoundTrip(k: nat)
    ensures CountInMessage(ProcessedMessage(k)) == Some(k)
  {
  }

  // ---------------------------------------------------------------------------
  // Rendering, FastAPI app

  /** An `HTTPException` body, `{"detail": ...}`. */
  function Detail(detail: string): Json {
    Single("detail", JStr(detail))
  }

  /** GET: echoes a non-empty validation token as plain text, else 400. */
  function FastApiGet(validationToken: Option<string>): (r: Response)
    ensures r.status == 200 <==> validationToken.Some? && validationToken.value != ""
    ensures r.status == 200 ==> r.body == Text(validationToken.value)
    ensures r.status != 200 ==> r == Response(400, JsonBody(Detail(MissingTokenDetail)))
  {
    match validationToken
    case Some(t) => if t != "" then Response(200, Text(t)) else Response(400, JsonBody(Detail(MissingTokenDetail)))
    case None => Response(400, JsonBody(Detail(MissingTokenDetail)))
  }

  /** POST on the FastAPI app. An uncaught exception becomes the framework's
      plain 500 response. */
  function FastApiPost(body: Option<Json>, world: nat -> World): (r: Response)
    ensures r.status in {200, 400, 500}
    ensures r.status == 200 <==> HandlePost(body, world).Processed?
    ensures HandlePost(body, world).BadRequest? ==>
      r == Response(400, JsonBody(Detail(HandlePost(body, world).detail)))
    ensures HandlePost(body, world).InternalError? ==> r == Response(500, Text(ServerErrorText))
    ensures HandlePost(body, world).Processed? ==>
      r == Response(200, JsonBody(Single("message", JStr(ProcessedMessage(HandlePost(body, world).count)))))
  {
    match HandlePost(body, world)
    case BadRequest(d) => Response(400, JsonBody(Detail(d)))
    case InternalError(_) => Response(500, Text(ServerErrorText))
    case Processed(k, _) => Response(200, JsonBody(Single("message", JStr(ProcessedMessage(k)))))
  }

  // ---------------------------------------------------------------------------
  // Rendering, Azure Functions entry point

  /** GET: echoes a non-empty validation token as plain text, else 400. */
  function FunctionsGet(validationToken: Option<string>): (r: Response)
    ensures r.status == 200 <==> validationToken.Some? && validationToken.value != ""
    ensures r.status == 200 ==> r.body == Text(validationToken.value)
    ensures r.status != 200 ==> r == Response(400, Text(MissingTokenDetail))
  {
    match validationToken
    case Some(t) => if t != "" then Response(200, Text(t)) else Response(400, Text(MissingTokenDetail))
    case None => Response(400, Text(MissingTokenDetail))
  }

  /** POST on the Functions entry point; an exception is caught and reported as 500. */
  function FunctionsPost(body: Option<Json>, world: nat -> World): (r: Response)
    ensures r.status in {200, 400, 500}
    ensures r.status == 200 <==> HandlePost(body, world).Processed?
    ensures HandlePost(body, world).BadRequest? ==> r == Response(400, Text(HandlePost(body, world).detail))
    ensures HandlePost(body, world).InternalError? ==>
      r == Response(500, Text(InternalErrorPrefix + HandlePost(body, world).reason))
    ensures HandlePost(body, world).Processed? ==>
      r == Response(200, Text(ProcessedMessage(HandlePost(body, world).count)))
  {
    match HandlePost(body, world)
    case BadRequest(d) => Response(400, Text(d))
    case InternalError(e) => Response(500, Text(InternalErrorPrefix + e))
    case Processed(k, _) => Response(200, Text(ProcessedMessage(k)))
  }

  /** The Functions entry point dispatches on the method; others get 405. */
  function FunctionsWebhook(verb: string, validationToken: Option<string>, body: Option<Json>,
                            world: nat -> World): (r: Response)
    ensures verb != "GET" && verb != "POST" ==> r == Response(405, Text("Method not allowed"))
    ensures verb == "GET" ==> r == FunctionsGet(validationToken)
    ensures verb == "POST" ==> r == FunctionsPost(body, world)
  {
    if verb == "GET" then FunctionsGet(validationToken)
    else if verb == "POST" then FunctionsPost(body, world)
    else Response(405, Text("Method not allowed"))
  }

  /** The two entry points reach the same status for the same request, and a 200
      names the same count, readable from the message. */
  lemma EntryPointsAgree(body: Option<Json>, world: nat -> World)
    ensures FastApiPost(body, world).status == FunctionsPost(body, world).status
    ensures FunctionsPost(body, world).status == 200 ==>
      var o := HandlePost(body, world);
      && FunctionsPost(body, world).body == Text(ProcessedMessage(o.count))
      && CountInMessage(FunctionsPost(body, world).body.text) == Some(o.count)
      && FastApiPost(body, world).body == JsonBody(Single("message", JStr(ProcessedMessage(o.count))))
  {
  }

  // ---------------------------------------------------------------------------
  // A worked example

  /** A created notification about `communications/callRecords/abc/recordings/xyz`. */
  function ExampleNotification(): Json {
    JObj([("changeType", JStr("created")),
          ("resource", JStr("communications/callRecords/abc/recordings/xyz"))])
  }

  /** The Graph reply listing one recording with download URL `https://media/xyz.mp4`. */
  function ExampleRecordings(): HttpReply {
    Reply(200, Some(Single("value", JArr([Single("@microsoft.graph.downloadUrl", JStr("https://media/xyz.mp4"))]))))
  }

  /** The example notification is a creation about call `abc`, recording `xyz`. */
  lemma ExampleNotificationShape()
    ensures IsCreated(ExampleNotification())
    ensures ResourceOf(ExampleNotification()) == JStr(CanonicalResource("abc", "xyz"))
  {
    var notification := ExampleNotification();
    assert notification.members[1].0 == "resource";
    assert notification.members[0].0 == "changeType";
    assert CanonicalResource("abc", "xyz") == "communications/callRecords/abc/recordings/xyz";
  }

  /** The example lookup reply selects `https://media/xyz.mp4`. */
  lemma ExampleRecordingsSelectUrl()
    ensures SelectDownloadUrl(ExampleRecordings()) == Some(JStr("https://media/xyz.mp4"))
  {
  }

  /** The example notification is looked up as recording `xyz` and forwarded
      titled with call `abc`. */
  lemma ExampleNotificationForwarded(w: World)
    requires TokenUsable(w.token)
    requires w.graph("xyz", w.token.value) == ExampleRecordings()
    requires TranscriptionAccepted(w.transcription(TranscriptionRequest(JStr("https://media/xyz.mp4"), TitlePrefix + "abc")))
    ensures ProcessNotification(ExampleNotification(), w).success
  {
    ExampleNotificationShape();
    ExampleRecordingsSelectUrl();
    CanonicalNotification(ExampleNotification(), w, "abc", "xyz", JStr("https://media/xyz.mp4"));
  }

  /** A batch of one notification that succeeds is answered 200 with the
      message for a count of one. */
  lemma SingleSuccessAnswered(n: Json, world: nat -> World)
    requires ProcessNotification(n, world(0)).success
    ensures FastApiPost(Some(Single("value", JArr([n]))), world)
         == Response(200, JsonBody(Single("message", JStr(ProcessedMessage(1)))))
    ensures FunctionsPost(Some(Single("value", JArr([n]))), world) == Response(200, Text(ProcessedMessage(1)))
  {
    var v := Verdicts([n], world);
    assert |v| == 1 && v[0];
    assert CountTrue(v, 1) == 1;
    var body := Single("value", JArr([n]));
    assert Lookup(body.members, ValueField, JArr([])) == JArr([n]);
    assert HandleNotifications(JArr([n]), world) == Processed(1, 1);
    assert HandlePost(Some(body), world) == Processed(1, 1);
  }

  /** With that lookup and a service that accepts the URL, both entry points
      answer 200 with the message for a count of one. */
  lemma OneRecordingForwarded(world: nat -> World)
    requires TokenUsable(world(0).token)
    requires world(0).graph("xyz", world(0).token.value) == ExampleRecordings()
    requires TranscriptionAccepted(world(0).transcription(
      TranscriptionRequest(JStr("https://media/xyz.mp4"), TitlePrefix + "abc")))
    ensures FastApiPost(Some(Single("value", JArr([ExampleNotification()]))), world)
         == Response(200, JsonBody(Single("message", JStr(ProcessedMessage(1)))))
    ensures FunctionsPost(Some(Single("value", JArr([ExampleNotification()]))), world)
         == Response(200, Text(ProcessedMessage(1)))
  {
    ExampleNotificationForwarded(world(0));
    SingleSuccessAnswered(ExampleNotification(), world);
  }
}

# Teams recording relay: a Dafny model of its decision core

The service receives Microsoft Graph change notifications about new Teams
meeting recordings. For each notification it looks up the recording's download
URL and forwards it to a transcription service. It also manages the Graph
webhook subscription: create, list, renew and delete it.

The same logic appears three times: in the FastAPI app (`main.py`), in the
Azure Functions entry points (`TeamsWebhook/__init__.py`,
`legacy/SubscriptionManager/__init__.py`), and in an identical legacy copy
(`legacy/TeamsWebhook/__init__.py`). This project models it once, as pure
functions. Only the rendering of a response differs between the app and the
entry points, so that is modelled per entry point.

Every outbound call is an input value rather than network behaviour. These
inputs are:

- the access token (`None` when acquisition failed);
- the Graph reply to a recording lookup, and the transcription service's reply
  to a payload;
- the Graph replies to the subscription calls;
- the clock.

Each decision also returns the ordered list of outbound calls it made. This
lets the contracts state "before any lookup" and "with no external call"
directly.

Modules:

- `JsonValues` (json.dfy): decoded JSON, plus the Python operations the handlers
  use on it (truthiness, `dict.get`, `len`, type names).
- `ResourcePath` (resource_path.dfy): `str.split("/")`, its inverse `Join`, and
  the resource parser.
- `Decimal` (decimal.dfy): `str(n)` for the count in the response message, and
  how to read the count back.
- `Http` (http.dfy): outbound replies (`raise_for_status`, `response.json()`)
  and inbound responses.
- `Outbound` (outbound.dfy): the download-URL selection rule and the
  transcription forwarder's success rule.
- `Notifications` (notifications.dfy): the decision chain for one notification.
- `Webhook` (webhook.dfy): the GET handshake, the POST batch, the count, the
  Functions method dispatch, and a worked example.
- `Subscriptions` (subscriptions.dfy): request payloads, the four Graph
  operations, action dispatch, and rendering for both entry points.

Behaviour of the code worth noting:

- The forwarder and the other outbound helpers treat a reply as successful
  unless `raise_for_status()` raises. That happens only for statuses 400–599,
  so a 1xx or 3xx final reply with a JSON body also counts as success.
- The handshake needs a non-empty `validationToken`. A present but empty token
  gets 400.
- The forwarder sends only a `Content-Type` header.
- `create_subscription` logs `result.get('id')`. A JSON reply that is not an
  object therefore raises inside its `try`, so the call returns `None` and the
  manager answers 500.

## Model

| member | source | states |
|---|---|---|
| ResourcePath.Split | main.py:134 | `resource.split("/")` always gives at least one segment, and no segment contains `/` |
| ResourcePath.JoinOfSplit | main.py:134 | Joining the split segments with `/` gives back the original path, so the split loses nothing |
| ResourcePath.SplitOfJoin | main.py:134 | Splitting a join of `/`-free segments gives back exactly those segments, so Split is the unique such decomposition |
| ResourcePath.SplitCountsSeparators | main.py:134-135 | The number of segments is the number of `/` characters plus one, so "at least 4 segments" means "at least 3 slashes" |
| ResourcePath.ParseSegments | main.py:135-137 | Segments are accepted exactly when there are at least 4 and one equals `recordings`, and then the call id is the third segment from the end and the recording id the last |
| ResourcePath.ParseResource | main.py:134-137 | An accepted path has at least three `/`, and the call id and recording id it yields are whole segments |
| ResourcePath.ParseOfJoin | main.py:134-137 | For a path built from `/`-free segments: accepted iff there are ≥4 segments and one equals exactly `recordings`; then recordingId = last segment and callId = third from last, otherwise None |
| ResourcePath.ParseCanonical | main.py:133-137 | `communications/callRecords/{call}/recordings/{rec}` yields exactly (`call`, `rec`) |
| ResourcePath.CallIdIsPositional | legacy/TeamsWebhook/__init__.py:121-124 | The call id is read by position and not next to the marker: `recordings/x/y/z` yields call id `x` and recording id `z` |
| JsonValues.Lookup | main.py:117-118 | `dict.get(key, default)`: the default when the key is absent, otherwise the value of a member with that key |
| JsonValues.LookupTakesLast | main.py:325 | When a key is repeated, the value read is that of its last occurrence, as `json.loads` keeps it |
| Decimal.NatToString | main.py:337 | The printed count is all digits, non-empty, with no leading zero, and a leading 0 only as the whole text "0" |
| Decimal.DigitsValueOfNatToString | main.py:337 | Reading the printed count back as decimal gives the count |
| Decimal.NatToStringInjective | main.py:337 | Different counts print as different text |
| Outbound.DownloadUrlOf | main.py:68-78 | The URL returned is the truthy download-URL field of the first element of the reply's `value` list, and it is returned whenever that field exists; every other shape (empty list, missing or falsy field, non-object element, non-list `value`) gives None |
| Outbound.SelectDownloadUrl | main.py:65-85 | A transport error, a 4xx/5xx status or an undecodable body gives None. Otherwise the result is the first recording's truthy URL, which is always truthy |
| Outbound.OnlyFirstRecordingConsulted | TeamsWebhook/__init__.py:58-62 | Elements after the first in `value` never change the selected URL |
| Outbound.TranscriptionAccepted | main.py:99-111 | The forwarder returns true iff a reply arrived, its status is outside 400–599 and its body decodes as JSON |
| Http.CheckedBody | main.py:65-68 | The decoded body is available only when the reply arrived, passed `raise_for_status()` and decoded |
| Notifications.ProcessNotification | main.py:113-161 | Non-object notifications fail with no calls. Any `changeType` other than "created" (missing reads as "") succeeds with no calls. For "created", the token is always acquired first. A failed token, or an unparsable or non-string resource, fails with only the token call. Otherwise the calls are exactly token, lookup of the recording id and, only when the lookup yields a URL, one post of that URL titled "Teams Meeting - " + callId; success iff that post happens and the service accepts it |
| Notifications.CanonicalResourceParses | main.py:133-137 | A notification whose resource is `communications/callRecords/{call}/recordings/{rec}` with `/`-free ids parses to exactly (`call`, `rec`) |
| Notifications.CanonicalNotification | TeamsWebhook/__init__.py:104-141 | A created notification for `.../callRecords/{call}/recordings/{rec}` makes exactly the calls token, lookup of `rec`, post of (URL, "Teams Meeting - " + `call`), and its success is the service's verdict |
| Webhook.Successes | main.py:330-333 | The number of successful notifications never exceeds the batch size |
| Webhook.CountProcessed | main.py:330-333 | The counting loop returns the number of indices whose own notification succeeds, at most the batch size |
| Webhook.CountTrueIsIndices | main.py:330-333 | The recursive count equals the size of the set of succeeding indices |
| Webhook.CountTrueDiffersByAtMostOne | main.py:331-333 | Two verdict lists that differ at one index have counts within one of each other |
| Webhook.ReplacingOneMovesCountByAtMostOne | main.py:331-333 | Replacing one notification leaves every other notification's verdict unchanged and moves the count by at most one, so failures are isolated |
| Webhook.FilteredNotificationsAllCount | main.py:122-124 | A batch of objects none of which is "created" counts every notification as processed |
| Webhook.StringItemsCountNothing | TeamsWebhook/__init__.py:184-186 | A batch whose items are strings counts zero |
| Webhook.NotificationItems | TeamsWebhook/__init__.py:178-186 | The loop iterates a list's elements, a string's one-character strings in order, or a dict's keys in order. A truthy value always yields at least one item. Numbers, booleans and null are not iterable |
| Webhook.HandleNotifications | main.py:325-337 | A falsy `value` gives 400 "No notifications found". A truthy non-iterable value is an uncaught error whose text is `'<type>' object is not iterable`. A list is processed with count ≤ size and size > 0 |
| Webhook.HandlePost | main.py:316-337 | An undecodable body gives 400 "Invalid JSON body", a falsy body gives 400 "Empty request body", and a truthy non-object body is an uncaught error whose text is `'<type>' object has no attribute 'get'`. An object is handled by its `value`, and a processed outcome has 0 < size and count ≤ size |
| Webhook.ListBatchCountsSuccesses | main.py:325-337 | For a non-empty list, the outcome is Processed with the number of succeeding indices |
| Webhook.NonListBatchCountsNothing | TeamsWebhook/__init__.py:178-186 | A non-empty string or object as `value` is processed with count 0 |
| Webhook.ProcessedMessage | main.py:337 | The message is "Processed " + digits + " notifications", where the digits read back as the count and have no leading zero (a zero count prints as "0"), so they are exactly `str(k)` |
| Webhook.MessageRoundTrip | main.py:337 | The count can be read back from "Processed k notifications" |
| Webhook.FastApiGet | main.py:300-309 | 200 iff the validation token is present and non-empty, with the token echoed verbatim as plain text. Otherwise 400 `{"detail": "Missing validation token"}` |
| Webhook.FastApiPost | main.py:311-337 | The status is always 200, 400 or 500, and it is 200 exactly when the batch was processed. A rejection is 400 with `{"detail": d}` for its detail d, an uncaught error is the framework's 500 "Internal Server Error", and a processed batch is 200 with `{"message": "Processed k notifications"}` for its count k |
| Webhook.FunctionsGet | TeamsWebhook/__init__.py:155-165 | 200 iff the token is present and non-empty, echoed verbatim. Otherwise 400 "Missing validation token" as text |
| Webhook.FunctionsPost | TeamsWebhook/__init__.py:168-199 | The status is always 200, 400 or 500, and it is 200 exactly when the batch was processed. A rejection is 400 with its detail as text, an error is 500 with "Internal error: " and the exception text, and a processed batch is 200 with "Processed k notifications" for its count k |
| Webhook.FunctionsWebhook | TeamsWebhook/__init__.py:150-199 | GET goes to the handshake and POST to the batch. Every other method gets 405 "Method not allowed" |
| Webhook.EntryPointsAgree | legacy/TeamsWebhook/__init__.py:183-193 | The app and the Functions entry point return the same status for the same POST. On 200 both carry "Processed k notifications", and k can be read back from it |
| Webhook.ExampleNotificationForwarded | main.py:133-151 | The notification for `communications/callRecords/abc/recordings/xyz` succeeds when the lookup for `xyz` lists `https://media/xyz.mp4` and the service accepts it titled "Teams Meeting - abc" |
| Webhook.ExampleNotificationShape | main.py:116-137 | The worked notification reads as a creation, and its resource is the documented path for call `abc` and recording `xyz` |
| Webhook.ExampleRecordingsSelectUrl | main.py:65-85 | The worked lookup reply selects `https://media/xyz.mp4` |
| Webhook.SingleSuccessAnswered | main.py:330-337 | A one-notification batch that succeeds gets 200 with the message for count 1 from both entry points |
| Webhook.OneRecordingForwarded | TeamsWebhook/__init__.py:183-193 | The worked example end to end: both entry points answer 200 with "Processed 1 notifications" |
| Subscriptions.ExpiryFrom | main.py:173 | The requested expiry is exactly now + 55, so it is after `now` and less than the provider's one-hour maximum |
| Subscriptions.NewSubscription | legacy/SubscriptionManager/__init__.py:48-57 | The create payload has changeType "created", the fixed resource and clientState, the caller's URL, and an expiry of now + 55 |
| Subscriptions.Renewal | main.py:256-262 | The renew payload asks for an expiry of now + 55, inside the provider's hour |
| Subscriptions.CreateResult | legacy/SubscriptionManager/__init__.py:59-74 | Create yields a value only for a delivered reply that decodes to a JSON object, and it always yields one for such a reply |
| Subscriptions.ListResult | legacy/SubscriptionManager/__init__.py:76-99 | List always returns a sized value. For a delivered reply that decodes to an object it is the object's `value` (default `[]`) when `len` is defined on it, and `[]` otherwise. It is `[]` when the call fails or the reply is not an object |
| Subscriptions.DeleteResult | main.py:226-246 | Delete is true iff the reply arrived with a status outside 400–599 |
| Subscriptions.RenewResult | main.py:248-277 | Renew yields the decoded reply iff it arrived, passed `raise_for_status()` and decoded |
| Subscriptions.ActionOf | main.py:341 | A missing action or "list" means list, and "create", "delete" and "renew" each mean their own action, in both directions. Any other string, including the empty one, is an unknown action carrying that string |
| Subscriptions.Manage | legacy/SubscriptionManager/__init__.py:154-223 | The token is acquired first, and its failure gives 500 before the action is read. With a token, the status is 400 exactly when the action's required parameter is missing or the action is unknown, and no Graph call is made. The 400 message is the action's own: missing `webhook_url` for create, missing id for delete or for renew, or the unknown-action message. The status is always 200, 400 or 500. List makes exactly the token and list calls and answers 200 with `{"subscriptions": ListResult}`, which is `[]` on upstream failure. With its parameter given, create (renew) answers 200 with the decoded Graph reply exactly when that reply is a truthy value, and 500 with its error detail otherwise. With their parameter given, create, renew and delete make exactly the token call and their own Graph call (the create payload, the renewal for the given id, the delete of the given id). Delete answers with the deletion of the given id exactly when the Graph call succeeded, and 500 "Erro ao deletar subscrição" otherwise. Every create request has the fixed fields and expiry now + 55. Every renew request carries the given id and expiry now + 55 |
| Subscriptions.LaterRenewalNeverExpiresEarlier | legacy/SubscriptionManager/__init__.py:132-137 | With a non-decreasing clock, a renewal never asks for an earlier expiry than an earlier create or renew. It asks for a strictly later one iff the clock advanced |
| Subscriptions.OkMeansUpstreamSucceeded | main.py:353-391 | A 200 from create, renew or delete means the corresponding Graph call succeeded. An unknown action never gets 200 |
| Subscriptions.DeletedMessage | main.py:373 | The deletion message is "Subscrição " + id + " deletada", and the id can be read back from between the fixed words |
| Subscriptions.FastApiManager | main.py:339-391 | The app returns the decision's status. Refusals carry `{"detail": ...}` with the decision's message. A create, list or renew 200 carries the decision's JSON document, and a delete 200 carries `{"message": "Subscrição {id} deletada"}` |
| Subscriptions.FunctionsManager | legacy/SubscriptionManager/__init__.py:154-223 | The Functions entry point returns the decision's status. Refusals carry the message as text. A create, list or renew 200 carries the decision's JSON document, and a delete 200 carries "Subscrição {id} deletada" as text |

## Left out

- Token acquisition through MSAL (main.py:32-52) is not modelled. The token is
  an input, and an empty token fails as `None` does.
- The `requests` calls to Graph and to the transcription service are not
  modelled. Their replies are inputs: no reply, or a status with a body that
  may not decode.
- Graph URL construction (main.py:63, 184, 209, 234, 264) is transport detail.
  The model records only which id each call is given.
- Subscriptions.ExpiryFrom: uses an integer clock in minutes, not
  `datetime.utcnow()`. The ISO `strftime` formatting of the expiry is left out.
- Webhook.FastApiPost: an uncaught exception becomes the framework's plain-text
  500 "Internal Server Error". Framework-level 405 responses of the FastAPI
  routes are not modelled.
- Webhook.FunctionsPost: the 500 text quotes Python's wording for the two
  exceptions the handler can hit (`'<type>' object has no attribute 'get'`,
  `'<type>' object is not iterable`). Other exception text is not reproduced.
- JSON numbers are integers, so floating-point values (and `0.0` being falsy)
  are not modelled.
- JSON objects are ordered member lists, and lookup returns the last duplicate,
  as `json.loads` does. When an object-valued `value` holds duplicate keys, the
  model iterates the stored keys rather than Python's distinct keys. Every such
  item fails, so the reported count is unaffected.
- Subscriptions.FunctionsManager: the `except Exception` branch
  (legacy/SubscriptionManager/__init__.py:221-223) cannot be reached in the
  model, because no modelled step raises.
- `json.dumps(..., indent=2)` layout is not modelled. A JSON response keeps the
  decoded value.
- Logging is not modelled.
- The unused `WEBHOOK_VALIDATION_TOKEN` setting, the root and health endpoints
  (main.py:281-298), and the blob-copy functions (`CopyGraphToBlob`) are outside
  this model.
- Retries, deduplication, a per-notification correlation id, `clientState` verification and a persistent
  subscription store do not exist in the code and are not modelled.

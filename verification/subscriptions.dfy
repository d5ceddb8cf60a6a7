/**
 * The subscription manager: acquire a token, pick the action (default
 * "list"), check its required parameter, call the Graph subscriptions API and
 * map the outcome to 200, 400 or 500. The FastAPI app and the legacy Azure
 * Functions entry point make the same decisions and differ in rendering.
 * Time is an integer clock in minutes.
 */
module Subscriptions {
  import opened Wrappers
  import opened JsonValues
  import opened Http

  const WindowMinutes: int := 55
  /** The provider's ceiling for this resource, one hour. */
  const ProviderMaxMinutes: int := 60
  const WatchedResource: string := "communications/onlineMeetings/getAllRecordings"
  const SubscriptionClientState: string := "teams-watcher-subscription"

  const TokenErrorDetail: string := "Erro ao obter token de acesso"
  const MissingUrlDetail: string := "webhook_url é obrigatório para criar subscrição"
  const CreateErrorDetail: string := "Erro ao criar subscrição"
  const MissingIdForDeleteDetail: string := "subscription_id é obrigatório para deletar"
  const DeleteErrorDetail: string := "Erro ao deletar subscrição"
  const MissingIdForRenewDetail: string := "subscription_id é obrigatório para renovar"
  const RenewErrorDetail: string := "Erro ao renovar subscrição"
  const DeletedPrefix: string := "Subscrição "
  const DeletedSuffix: string := " deletada"
  const UnknownActionDetail: string := "Ação não reconhecida. Use: create, list, delete, ou renew"

  /** The body posted to create a subscription. */
  datatype CreateRequest = CreateRequest(
    changeType: string,
    notificationUrl: string,
    resource: string,
    expirationDateTime: int,
    clientState: string)

  /** The body of the PATCH that renews a subscription: only the new expiry. */
  datatype RenewRequest = RenewRequest(expirationDateTime: int)

  /** The expiry both requests carry: `now + 55 minutes`. */
  function ExpiryFrom(now: int): (expiry: int)
    ensures expiry == now + WindowMinutes
    ensures now < expiry < now + ProviderMaxMinutes
  {
    now + WindowMinutes
  }

  /** The create payload for a callback URL at time `now`. */
  function NewSubscription(webhookUrl: string, now: int): (req: CreateRequest)
    ensures req.notificationUrl == webhookUrl
    ensures req.changeType == "created" && req.resource == WatchedResource
    ensures req.clientState == SubscriptionClientState
    ensures req.expirationDateTime == ExpiryFrom(now)
  {
    CreateRequest(CreatedChange, webhookUrl, WatchedResource, ExpiryFrom(now), SubscriptionClientState)
  }

  /** The renew payload at time `now`: the same window as a creation. */
  function Renewal(now: int): (req: RenewRequest)
    ensures req.expirationDateTime == now + WindowMinutes
    ensures now < req.expirationDateTime < now + ProviderMaxMinutes
  {
    RenewRequest(ExpiryFrom(now))
  }

  // ---------------------------------------------------------------------------
  // The four Graph operations, each on its reply

  /** `create_subscription`: the decoded reply when it is an object. Any other
      decoded value makes the `.get('id')` in its log line raise, which the
      function's `try` turns into None. */
  function CreateResult(reply: HttpReply): (r: Option<Json>)
    ensures r.Some? ==> r.value.JObj? && CheckedBody(reply) == r
    ensures CheckedBody(reply).Some? && CheckedBody(reply).value.JObj? ==> r.Some?
  {
    match CheckedBody(reply)
    case Some(data) => if data.JObj? then Some(data) else None
    case None => None
  }

  /** `list_subscriptions`: the reply's `value` (default `[]`), or `[]` when the
      call fails, the reply is not an object, or `len` of the value raises. */
  function ListResult(reply: HttpReply): (subs: Json)
    ensures Sized(subs)
    ensures !(CheckedBody(reply).Some? && CheckedBody(reply).value.JObj?) ==> subs == JArr([])
    ensures CheckedBody(reply).Some? && CheckedBody(reply).value.JObj? ==>
      var v := Lookup(CheckedBody(reply).value.members, ValueField, JArr([]));
      && (Sized(v) ==> subs == v)
      && (!Sized(v) ==> subs == JArr([]))
  {
    match CheckedBody(reply)
    case Some(data) =>
      if !data.JObj? then JArr([])
      else
        var value := Lookup(data.members, ValueField, JArr([]));
        if Sized(value) then value else JArr([])
    case None => JArr([])
  }

  /** `delete_subscription`: true when the reply passed `raise_for_status()`;
      the body is not read. */
  function DeleteResult(reply: HttpReply): (deleted: bool)
    ensures deleted <==> reply.Reply? && !RaisesForStatus(reply.status)
  {
    Delivered(reply)
  }

  /** `renew_subscription`: the decoded reply, whatever its shape. */
  function RenewResult(reply: HttpReply): (r: Option<Json>)
    ensures r.Some? <==> reply.Reply? && !RaisesForStatus(reply.status) && reply.body.Some?
    ensures r.Some? ==> r == reply.body
  {
    CheckedBody(reply)
  }

  // ---------------------------------------------------------------------------
  // Dispatch

  datatype Action = CreateAction | ListAction | DeleteAction | RenewAction | UnknownAction(name: string)

  /** The `action` query parameter, `"list"` when absent. */
  function ActionOf(param: Option<string>): (a: Action)
    ensures a == ListAction <==> param.None? || param == Some("list")
    ensures a == CreateAction <==> param == Some("create")
    ensures a == DeleteAction <==> param == Some("delete")
    ensures a == RenewAction <==> param == Some("renew")
    ensures a.UnknownAction? <==> param.Some? && param.value !in {"create", "list", "delete", "renew"}
    ensures a.UnknownAction? ==> a.name == param.value
  {
    match param.GetOr("list")
    case "create" => CreateAction
    case "list" => ListAction
    case "delete" => DeleteAction
    case "renew" => RenewAction
    case other => UnknownAction(other)
  }

  /** The query parameters the manager reads. */
  datatype Params = Params(action: Option<string>, webhookUrl: Option<string>, subscriptionId: Option<string>)

  /** What the outbound calls answer: the token, the clock, and the Graph reply
      to each request. */
  datatype ManagerWorld = ManagerWorld(
    token: Option<string>,
    now: int,
    onCreate: CreateRequest -> HttpReply,
    onList: HttpReply,
    onDelete: string -> HttpReply,
    onRenew: (string, RenewRequest) -> HttpReply)

  /** An outbound call, in order. */
  datatype ManagerCall =
    | AcquireToken
    | PostSubscription(request: CreateRequest)
    | GetSubscriptions
    | DeleteSubscription(id: string)
    | PatchSubscription(id: string, renewal: RenewRequest)

  /** The decision the manager reaches, before it is rendered. */
  datatype Decision =
    | Returned(result: Json)          // 200 with a JSON document
    | Deleted(id: string)             // 200 with a deletion message
    | Refused(status: int, detail: string)

  datatype ManagerOutcome = ManagerOutcome(decision: Decision, calls: seq<ManagerCall>)

  predicate Given(p: Option<string>) {
    p.Some? && p.value != ""
  }

  function StatusOf(d: Decision): int {
    if d.Refused? then d.status else 200
  }

  /** The action's required parameter is missing, or the action is not one of the four. */
  predicate MissingParameter(p: Params) {
    match ActionOf(p.action)
    case CreateAction => !Given(p.webhookUrl)
    case DeleteAction => !Given(p.subscriptionId)
    case RenewAction => !Given(p.subscriptionId)
    case ListAction => false
    case UnknownAction(_) => true
  }

  /** A create request as the manager builds it for the caller's URL at `now`. */
  predicate WellFormedCreate(req: CreateRequest, p: Params, now: int) {
    && p.webhookUrl == Some(req.notificationUrl)
    && req.changeType == CreatedChange
    && req.resource == WatchedResource
    && req.clientState == SubscriptionClientState
    && req.expirationDateTime == now + WindowMinutes
  }

  /** One manager request. The token is acquired before the action is looked at;
      a 400 is decided before any Graph call. */
  function Manage(p: Params, w: ManagerWorld): (o: ManagerOutcome)
    ensures |o.calls| >= 1 && o.calls[0] == AcquireToken
    ensures StatusOf(o.decision) in {200, 400, 500}
    ensures !Given(w.token) ==> o == ManagerOutcome(Refused(500, TokenErrorDetail), [AcquireToken])
    ensures Given(w.token) ==> (StatusOf(o.decision) == 400 <==> MissingParameter(p))
    ensures StatusOf(o.decision) == 400 ==> o.calls == [AcquireToken]
    ensures StatusOf(o.decision) == 400 ==>
      o.decision.detail == (match ActionOf(p.action)
                             case CreateAction => MissingUrlDetail
                             case DeleteAction => MissingIdForDeleteDetail
                             case RenewAction => MissingIdForRenewDetail
                             case _ => UnknownActionDetail)
    ensures Given(w.token) && ActionOf(p.action) == ListAction ==>
      && o.decision.Returned?
      && o.decision.result.JObj?
      && Sized(Lookup(o.decision.result.members, "subscriptions", JNull))
      && (!Delivered(w.onList) ==> o.decision.result == Single("subscriptions", JArr([])))
    ensures Given(w.token) && ActionOf(p.action) == ListAction ==>
      o == ManagerOutcome(Returned(Single("subscriptions", ListResult(w.onList))), [AcquireToken, GetSubscriptions])
    ensures Given(w.token) && ActionOf(p.action) == CreateAction && Given(p.webhookUrl) ==>
      var result := CreateResult(w.onCreate(NewSubscription(p.webhookUrl.value, w.now)));
      && (o.decision.Returned? <==> result.Some? && Truthy(result.value))
      && (o.decision.Returned? ==> o.decision.result == result.value)
      && (!o.decision.Returned? ==> o.decision == Refused(500, CreateErrorDetail))
    ensures Given(w.token) && ActionOf(p.action) == RenewAction && Given(p.subscriptionId) ==>
      var result := RenewResult(w.onRenew(p.subscriptionId.value, Renewal(w.now)));
      && (o.decision.Returned? <==> result.Some? && Truthy(result.value))
      && (o.decision.Returned? ==> o.decision.result == result.value)
      && (!o.decision.Returned? ==> o.decision == Refused(500, RenewErrorDetail))
    ensures o.decision.Deleted? <==>
      Given(w.token) && ActionOf(p.action) == DeleteAction && Given(p.subscriptionId)
      && DeleteResult(w.onDelete(p.subscriptionId.value))
    ensures o.decision.Deleted? ==> o.decision.id == p.subscriptionId.value
    ensures Given(w.token) && ActionOf(p.action) == DeleteAction && Given(p.subscriptionId) ==>
      && o.calls == [AcquireToken, DeleteSubscription(p.subscriptionId.value)]
      && (!o.decision.Deleted? ==> o.decision == Refused(500, DeleteErrorDetail))
    ensures Given(w.token) && ActionOf(p.action) == CreateAction && Given(p.webhookUrl) ==>
      o.calls == [AcquireToken, PostSubscription(NewSubscription(p.webhookUrl.value, w.now))]
    ensures Given(w.token) && ActionOf(p.action) == RenewAction && Given(p.subscriptionId) ==>
      o.calls == [AcquireToken, PatchSubscription(p.subscriptionId.value, Renewal(w.now))]
    ensures forall i | 0 <= i < |o.calls| && o.calls[i].PostSubscription? ::
      ActionOf(p.action) == CreateAction && WellFormedCreate(o.calls[i].request, p, w.now)
    ensures forall i | 0 <= i < |o.calls| && o.calls[i].PatchSubscription? ::
      ActionOf(p.action) == RenewAction && p.subscriptionId == Some(o.calls[i].id)
      && o.calls[i].renewal.expirationDateTime == w.now + WindowMinutes
  {
    if !Given(w.token) then ManagerOutcome(Refused(500, TokenErrorDetail), [AcquireToken])
    else match ActionOf(p.action)
      case CreateAction =>
        if !Given(p.webhookUrl) then ManagerOutcome(Refused(400, MissingUrlDetail), [AcquireToken])
        else
          var request := NewSubscription(p.webhookUrl.value, w.now);
          var result := CreateResult(w.onCreate(request));
          var calls := [AcquireToken, PostSubscription(request)];
          if result.Some? && Truthy(result.value) then ManagerOutcome(Returned(result.value), calls)
          else ManagerOutcome(Refused(500, CreateErrorDetail), calls)
      case ListAction =>
        ManagerOutcome(Returned(Single("subscriptions", ListResult(w.onList))), [AcquireToken, GetSubscriptions])
      case DeleteAction =>
        if !Given(p.subscriptionId) then ManagerOutcome(Refused(400, MissingIdForDeleteDetail), [AcquireToken])
        else
          var id := p.subscriptionId.value;
          var calls := [AcquireToken, DeleteSubscription(id)];
          if DeleteResult(w.onDelete(id)) then ManagerOutcome(Deleted(id), calls)
          else ManagerOutcome(Refused(500, DeleteErrorDetail), calls)
      case RenewAction =>
        if !Given(p.subscriptionId) then ManagerOutcome(Refused(400, MissingIdForRenewDetail), [AcquireToken])
        else
          var id := p.subscriptionId.value;
          var request := Renewal(w.now);
          var result := RenewResult(w.onRenew(id, request));
          var calls := [AcquireToken, PatchSubscription(id, request)];
          if result.Some? && Truthy(result.value) then ManagerOutcome(Returned(result.value), calls)
          else ManagerOutcome(Refused(500, RenewErrorDetail), calls)
      case UnknownAction(_) => ManagerOutcome(Refused(400, UnknownActionDetail), [AcquireToken])
  }

  /** The expiry a create or renew request asks for. */
  function RequestedExpiry(c: ManagerCall): Option<int> {
    match c
    case PostSubscription(req) => Some(req.expirationDateTime)
    case PatchSubscription(_, req) => Some(req.expirationDateTime)
    case _ => None
  }

  /** With a clock that does not go back, a renewal never asks for an earlier
      expiry than a creation or renewal made before it, and asks for a strictly
      later one once the clock has moved. */
  lemma LaterRenewalNeverExpiresEarlier(p1: Params, w1: ManagerWorld, i: nat, p2: Params, w2: ManagerWorld, j: nat)
    requires w1.now <= w2.now
    requires i < |Manage(p1, w1).calls| && RequestedExpiry(Manage(p1, w1).calls[i]).Some?
    requires j < |Manage(p2, w2).calls| && Manage(p2, w2).calls[j].PatchSubscription?
    ensures RequestedExpiry(Manage(p2, w2).calls[j]).value >= RequestedExpiry(Manage(p1, w1).calls[i]).value
    ensures w1.now < w2.now <==>
      RequestedExpiry(Manage(p2, w2).calls[j]).value > RequestedExpiry(Manage(p1, w1).calls[i]).value
  {
    var c1 := Manage(p1, w1).calls[i];
    var c2 := Manage(p2, w2).calls[j];
    assert c1.PostSubscription? || c1.PatchSubscription?;
  }

  /** A successful answer means the Graph operation asked for succeeded. */
  lemma OkMeansUpstreamSucceeded(p: Params, w: ManagerWorld)
    requires Given(w.token) && StatusOf(Manage(p, w).decision) == 200
    ensures match ActionOf(p.action)
      case CreateAction =>
        CreateResult(w.onCreate(NewSubscription(p.webhookUrl.value, w.now))).Some?
      case DeleteAction => Delivered(w.onDelete(p.subscriptionId.value))
      case RenewAction =>
        RenewResult(w.onRenew(p.subscriptionId.value, Renewal(w.now))).Some?
      case ListAction => true
      case UnknownAction(_) => false
  {
  }

  // ---------------------------------------------------------------------------
  // Rendering

  /** The confirmation of a deletion, naming the subscription. */
  function DeletedMessage(id: string): (m: string)
    ensures |m| == |DeletedPrefix| + |id| + |DeletedSuffix|
    ensures m[..|DeletedPrefix|] == DeletedPrefix && m[|m| - |DeletedSuffix|..] == DeletedSuffix
    ensures m[|DeletedPrefix|..|m| - |DeletedSuffix|] == id
  {
    DeletedPrefix + id + DeletedSuffix
  }

  /** FastAPI: results as JSON, refusals as `{"detail": ...}`. */
  function FastApiManager(p: Params, w: ManagerWorld): (r: Response)
    ensures r.status == StatusOf(Manage(p, w).decision)
    ensures r.status != 200 ==> r.body == JsonBody(Single("detail", JStr(Manage(p, w).decision.detail)))
    ensures Manage(p, w).decision.Returned? ==> r.body == JsonBody(Manage(p, w).decision.result)
    ensures Manage(p, w).decision.Deleted? ==>
      r.body == JsonBody(Single("message", JStr(DeletedMessage(Manage(p, w).decision.id))))
  {
    match Manage(p, w).decision
    case Returned(j) => Response(200, JsonBody(j))
    case Deleted(id) => Response(200, JsonBody(Single("message", JStr(DeletedMessage(id)))))
    case Refused(s, d) => Response(s, JsonBody(Single("detail", JStr(d))))
  }

  /** Legacy Functions entry point: results as JSON, everything else as text. */
  function FunctionsManager(p: Params, w: ManagerWorld): (r: Response)
    ensures r.status == StatusOf(Manage(p, w).decision)
    ensures r.status != 200 ==> r.body == Text(Manage(p, w).decision.detail)
    ensures Manage(p, w).decision.Returned? ==> r.body == JsonBody(Manage(p, w).decision.result)
    ensures Manage(p, w).decision.Deleted? ==> r.body == Text(DeletedMessage(Manage(p, w).decision.id))
  {
    match Manage(p, w).decision
    case Returned(j) => Response(200, JsonBody(j))
    case Deleted(id) => Response(200, Text(DeletedMessage(id)))
    case Refused(s, d) => Response(s, Text(d))
  }
}

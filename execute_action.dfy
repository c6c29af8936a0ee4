/**
 * The `POST /api/execute-action` route: validation of `{type, payload}`, the
 * closed type-to-URL switch, one webhook POST, and the reply.
 */
module ExecuteAction {
  import opened Wrappers
  import opened Json
  import opened Http
  import opened Webhooks

  /**
   * What `await request.json()` and the destructuring yield: either they
   * throw (unreadable body, or a `null` body) with a message, or the two
   * fields, each possibly missing.
   */
  datatype Request =
    | Unreadable(message: string)
    | Fields(actionType: Option<Json>, payload: Option<Json>)

  datatype ReplyBody = ErrorBody(error: string) | MessageBody(message: string)
  datatype Reply = Reply(status: nat, body: ReplyBody)

  /** The reply and the webhook POSTs one request caused. */
  datatype RouteRun = RouteRun(reply: Reply, calls: seq<WebhookCall>)

  const RouteLabOrderDefault := "https://webhook.site/your_unique_lab_order_id"
  const RouteFollowUpDefault := "https://webhook.site/your_unique_follow_up_id"

  const MissingFields := "Missing action type or payload"
  const InternalError := "Internal Server Error during action execution"

  /** The switch's strict-equality cases: only the strings "lab_order" and "follow_up" have a target. */
  function Target(env: Environment, actionType: Json): (url: Option<string>)
    ensures url.Some? <==> actionType == JString("lab_order") || actionType == JString("follow_up")
    ensures actionType == JString("lab_order") ==> url == Some(EnvOr(env.labOrderUrl, RouteLabOrderDefault))
    ensures actionType == JString("follow_up") ==> url == Some(EnvOr(env.followUpUrl, RouteFollowUpDefault))
  {
    match actionType
    case JString("lab_order") => Some(EnvOr(env.labOrderUrl, RouteLabOrderDefault))
    case JString("follow_up") => Some(EnvOr(env.followUpUrl, RouteFollowUpDefault))
    case _ => None
  }

  function Unsupported(actionType: Json): string
  {
    "Unsupported action type: " + Display(actionType)
  }

  function Triggered(actionType: string): string
  {
    "Action '" + actionType + "' successfully triggered."
  }

  /** `error.message || "Internal Server Error during action execution"`. */
  function ServerError(message: string): (r: Reply)
    ensures r.status == 500 && r.body.ErrorBody? && r.body.error != ""
    ensures message != "" ==> r.body.error == message
  {
    Reply(500, ErrorBody(if message != "" then message else InternalError))
  }

  /** True when both fields are present and truthy, which is all the validation asks for. */
  predicate Complete(request: Request)
    // Both fields must be present and neither may be `null`.
    ensures Complete(request) ==>
      && request.Fields? && request.actionType.Some? && request.payload.Some?
      && request.actionType.value != JNull && request.payload.value != JNull
    // Any non-empty string type with an object payload, even `{}`, gets past the check.
    ensures (request.Fields? && request.actionType.Some? && request.payload.Some? &&
             request.actionType.value.JString? && request.actionType.value.s != "" &&
             request.payload.value.JObject?) ==> Complete(request)
    // So do `true`, a non-zero number or an array as the type: the check is truthiness, not a string test.
    ensures (request.Fields? && request.payload.Some? && request.payload.value.JObject? &&
             request.actionType == Some(JBool(true))) ==> Complete(request)
  {
    request.Fields? && Truthy(request.actionType) && Truthy(request.payload)
  }

  /**
   * The route with the clock reading `timestamp` and the fetch abstracted to
   * `outcome`.
   */
  function Post(env: Environment, request: Request, timestamp: string, outcome: FetchOutcome): (run: RouteRun)
    // An unreadable body is a 500 and nothing is posted.
    ensures request.Unreadable? ==> run == RouteRun(ServerError(request.message), [])
    // A missing or falsy field is a 400 and nothing is posted.
    ensures request.Fields? && !Complete(request) ==>
      run == RouteRun(Reply(400, ErrorBody(MissingFields)), [])
    // A type outside the switch is a 400 naming the type, and nothing is posted.
    ensures Complete(request) && Target(env, request.actionType.value).None? ==>
      run == RouteRun(Reply(400, ErrorBody(Unsupported(request.actionType.value))), [])
    // A routed request posts exactly once, to the routed URL, with the envelope.
    ensures |run.calls| == 1 <==> Complete(request) && Target(env, request.actionType.value).Some?
    ensures |run.calls| == 1 ==>
      && request.actionType.value.JString?
      && run.calls[0] == WebhookCall(Target(env, request.actionType.value).value,
                                     WebhookPayload(request.actionType.value.s, request.payload.value, timestamp))
    // After the POST: any response, OK or not, is reported as triggered; a throw is a 500.
    ensures |run.calls| == 1 && outcome.Responded? ==>
      run.reply == Reply(200, MessageBody(Triggered(request.actionType.value.s)))
    ensures |run.calls| == 1 && outcome.Threw? ==> run.reply == ServerError(outcome.message)
    ensures |run.calls| <= 1
  {
    match request
    case Unreadable(message) => RouteRun(ServerError(message), [])
    case Fields(actionType, payload) =>
      if !Truthy(actionType) || !Truthy(payload) then RouteRun(Reply(400, ErrorBody(MissingFields)), [])
      else
        match Target(env, actionType.value)
        case None => RouteRun(Reply(400, ErrorBody(Unsupported(actionType.value))), [])
        case Some(url) =>
          var call := WebhookCall(url, WebhookPayload(actionType.value.s, payload.value, timestamp));
          match outcome
          case Threw(message) => RouteRun(ServerError(message), [call])
          case Responded(_, _, _) => RouteRun(Reply(200, MessageBody(Triggered(actionType.value.s))), [call])
  }

  /** Every reply is 200, 400 or 500, and only a 200 carries a message rather than an error. */
  lemma ReplyStatuses(env: Environment, request: Request, timestamp: string, outcome: FetchOutcome)
    ensures Post(env, request, timestamp, outcome).reply.status in {200, 400, 500}
    ensures Post(env, request, timestamp, outcome).reply.body.MessageBody? <==>
            Post(env, request, timestamp, outcome).reply.status == 200
    ensures Post(env, request, timestamp, outcome).reply.status == 200 ==>
            |Post(env, request, timestamp, outcome).calls| == 1
  {
  }

  /** The route's action names and the dispatcher's closed set, side by side. */
  function AsSupported(routeType: string): (a: Option<SupportedAction>)
    ensures a.Some? <==> routeType == "lab_order" || routeType == "follow_up"
  {
    if routeType == "lab_order" then Some(SendLabOrder)
    else if routeType == "follow_up" then Some(ScheduleFollowup)
    else None
  }

  /**
   * Outcome accounting. For the same POST outcome, the route reports a
   * non-OK webhook response as triggered (200) while `executeWebhook` returns
   * `false`; a throw is a 500 in the route and `false` in `executeWebhook`.
   */
  lemma OutcomeAccounting(env: Environment, routeType: string, data: map<string, Json>, timestamp: string,
                          outcome: FetchOutcome)
    requires AsSupported(routeType).Some?
    ensures var run := Post(env, Fields(Some(JString(routeType)), Some(JObject(data))), timestamp, outcome);
            var dispatched := ExecuteWebhook(env, AsSupported(routeType).value, data, timestamp, outcome);
            && |run.calls| == |dispatched.calls| == 1
            && (outcome.Responded? && !outcome.Ok() ==> run.reply.status == 200 && !dispatched.delivered)
            && (outcome.Responded? && outcome.Ok() ==> run.reply.status == 200 && dispatched.delivered)
            && (outcome.Threw? ==> run.reply.status == 500 && !dispatched.delivered)
  {
    var request := Fields(Some(JString(routeType)), Some(JObject(data)));
    assert Truthy(request.actionType) && Truthy(request.payload);
    assert Target(env, JString(routeType)).Some?;
  }

  /**
   * The two files read the same environment variables but fall back to
   * different URLs: with the variables unset, the route and the dispatcher
   * post the same action to different places; with them set, to the same one.
   */
  lemma TargetsAgreeOnlyWhenConfigured(env: Environment, routeType: string)
    requires AsSupported(routeType).Some?
    ensures (env.labOrderUrl.Some? && env.labOrderUrl.value != "" &&
             env.followUpUrl.Some? && env.followUpUrl.value != "") ==>
            Target(env, JString(routeType)) == Some(WebhookUrl(env, AsSupported(routeType).value))
    ensures env == Environment(None, None) ==>
            Target(env, JString(routeType)) != Some(WebhookUrl(env, AsSupported(routeType).value))
  {
    if env == Environment(None, None) {
      if routeType == "lab_order" {
        assert RouteLabOrderDefault[21] != DefaultLabOrderUrl[21];
      } else {
        assert RouteFollowUpDefault[21] != DefaultFollowUpUrl[21];
      }
    }
  }
}

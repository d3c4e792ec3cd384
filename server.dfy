/**
 * The HTTP routes of src/server.js as functions from the request fields the
 * handlers read (the `authorization` header, `body.email`, the webhook's
 * `payload.object` fields) and the outcome of the database or Slack calls to
 * the response the handler sends and the statements or calls it issues.
 */
module Server {
  import opened Wrappers
  import opened Js
  import opened UserRows
  import opened Slack

  /** A JSON response body. */
  datatype Body = EmailList(emails: seq<Val>) | ErrorMessage(message: Val)

  /** `res.sendStatus(code)` or `res.status(code).send(body)`. */
  datatype Response = SendStatus(code: int) | Send(code: int, body: Body)

  /** What an `/api/v1/users` handler did: the statements it sent and its response. */
  datatype Handled = Handled(statements: seq<Statement>, response: Response)

  /** The outcome of an INSERT or DELETE: success, or a thrown error with its `message`. */
  datatype DbOutcome = DbOk | DbThrew(message: Val)

  /** The arguments the webhook hands to the exported function of src/slack.js. */
  datatype PresenceEvent = PresenceEvent(presenceStatus: Val, email: Val, verificationToken: Val)

  /** The error the webhook passes to the error middleware. */
  datatype WebhookError = PresenceMissing | UpdaterFailed(updaterMessage: string) {

    /** The error's `message`: the fixed text for a missing presence status, else the updater's. */
    function Message(): string {
      match this
      case PresenceMissing => PresenceMissingMessage
      case UpdaterFailed(m) => m
    }
  }

  /** What the webhook did: the event it forwarded, the calls made, the error it passed on, and its response. */
  datatype WebhookReply = WebhookReply(
    event: Option<PresenceEvent>,
    calls: seq<Call>,
    error: Option<WebhookError>,
    response: Response)

  const PresenceMissingMessage: string := "presence_status is not available"

  function StatusCode(r: Response): int {
    match r
    case SendStatus(code) => code
    case Send(code, _) => code
  }

  /** `req.headers['authorization'] === \`Bearer ${GW_STATUS_API_KEY}\``. */
  predicate Authorized(header: Val, apiKey: Val) {
    header == Str(BearerHeader(apiKey))
  }

  /** GET /api/v1/users: the email of every row, in row order. */
  method GetUsers(header: Val, apiKey: Val, rows: Option<seq<Row>>) returns (h: Handled)
    ensures !Authorized(header, apiKey) ==> h == Handled([], SendStatus(401))
    ensures Authorized(header, apiKey) ==>
              h.statements == [SelectEmails] && h.response.Send? &&
              h.response.code == 200 && h.response.body.EmailList?
    ensures Authorized(header, apiKey) && rows.Some? ==>
              var emails := h.response.body.emails;
              |emails| == |rows.value| && forall i :: 0 <= i < |emails| ==> emails[i] == rows.value[i].email
    ensures Authorized(header, apiKey) && rows.None? ==> h.response.body.emails == []
  {
    if header == Str(BearerHeader(apiKey)) {
      var emails: seq<Val> := [];
      if rows.Some? {
        emails := CollectEmails(rows.value);
      }
      h := Handled([SelectEmails], Send(200, EmailList(emails)));
    } else {
      h := Handled([], SendStatus(401));
    }
  }

  /** POST /api/v1/users: insert `body.email`. */
  function PostUser(header: Val, apiKey: Val, email: Val, db: DbOutcome): (h: Handled)
    ensures !Authorized(header, apiKey) ==> h == Handled([], SendStatus(401))
    ensures Authorized(header, apiKey) && !Truthy(email) ==> h == Handled([], SendStatus(400))
    ensures h.statements != [] <==> Authorized(header, apiKey) && Truthy(email)
    ensures h.statements != [] ==> h.statements == [InsertEmail(email)]
    ensures h.statements != [] && db.DbOk? ==> h.response == SendStatus(201)
    ensures h.statements != [] && db.DbThrew? ==> h.response == Send(400, ErrorMessage(db.message))
  {
    if header == Str(BearerHeader(apiKey)) then
      if Truthy(email) then
        var response := match db
          case DbOk => SendStatus(201)
          case DbThrew(message) => Send(400, ErrorMessage(message));
        Handled([InsertEmail(email)], response)
      else
        Handled([], SendStatus(400))
    else
      Handled([], SendStatus(401))
  }

  /** DELETE /api/v1/users: delete the rows carrying `body.email`. */
  function DeleteUser(header: Val, apiKey: Val, email: Val, db: DbOutcome): (h: Handled)
    ensures !Authorized(header, apiKey) ==> h == Handled([], SendStatus(401))
    ensures Authorized(header, apiKey) && !Truthy(email) ==> h == Handled([], SendStatus(400))
    ensures h.statements != [] <==> Authorized(header, apiKey) && Truthy(email)
    ensures h.statements != [] ==> h.statements == [DeleteEmail(email)]
    ensures h.statements != [] && db.DbOk? ==> h.response == SendStatus(200)
    ensures h.statements != [] && db.DbThrew? ==> h.response == Send(400, ErrorMessage(db.message))
  {
    if header == Str(BearerHeader(apiKey)) then
      if Truthy(email) then
        var response := match db
          case DbOk => SendStatus(200)
          case DbThrew(message) => Send(400, ErrorMessage(message));
        Handled([DeleteEmail(email)], response)
      else
        Handled([], SendStatus(400))
    else
      Handled([], SendStatus(401))
  }

  /** The global error middleware: whatever the error, the caller gets 200. */
  function ErrorMiddleware(error: WebhookError): (r: Response)
    ensures StatusCode(r) == 200
  {
    SendStatus(200)
  }

  /**
   * POST /: the Zoom presence webhook. A falsy presence status goes to the
   * error middleware without calling the updater; otherwise the event is
   * forwarded, and both its success and its failure are answered with 200.
   */
  function Webhook(
    presenceStatus: Val,
    email: Val,
    authorization: Val,
    workspaces: seq<Workspace>,
    zoomStatus: Val,
    slackToken: Val,
    query: QueryResult,
    lookup: LookupResponse,
    profile: SlackResponse): (r: WebhookReply)
    ensures StatusCode(r.response) == 200
    ensures !Truthy(presenceStatus) ==> r.event == None && r.calls == [] && r.error == Some(PresenceMissing)
    ensures !Truthy(presenceStatus) ==> r.error.value.Message() == PresenceMissingMessage
    ensures Truthy(presenceStatus) ==> r.event == Some(PresenceEvent(presenceStatus, email, authorization))
    ensures Truthy(presenceStatus) ==>
              var run := UpdateStatus(workspaces, presenceStatus, email, authorization, zoomStatus, slackToken, query, lookup, profile);
              r.calls == run.calls &&
              (run.failure.None? ==> r.error == None) &&
              (run.failure.Some? ==> r.error == Some(UpdaterFailed(run.failure.value)))
  {
    if !Truthy(presenceStatus) then
      WebhookReply(None, [], Some(PresenceMissing), ErrorMiddleware(PresenceMissing))
    else
      var run := UpdateStatus(workspaces, presenceStatus, email, authorization, zoomStatus, slackToken, query, lookup, profile);
      var event := PresenceEvent(presenceStatus, email, authorization);
      match run.failure
      case None => WebhookReply(Some(event), run.calls, None, SendStatus(200))
      case Some(message) =>
        WebhookReply(Some(event), run.calls, Some(UpdaterFailed(message)), ErrorMiddleware(UpdaterFailed(message)))
  }

  /** The POST and DELETE users routes answer 401 exactly when the header is not the bearer credential, whatever the body. */
  lemma UsersAuthGate(header: Val, apiKey: Val, email: Val, db: DbOutcome)
    ensures StatusCode(PostUser(header, apiKey, email, db).response) == 401 <==> !Authorized(header, apiKey)
    ensures StatusCode(DeleteUser(header, apiKey, email, db).response) == 401 <==> !Authorized(header, apiKey)
  {
  }

  /** No Slack call reaches the API for an email that is not on the allow-list. */
  lemma WebhookFailsClosed(
    presenceStatus: Val, email: Val, authorization: Val, workspaces: seq<Workspace>,
    zoomStatus: Val, slackToken: Val, query: QueryResult, lookup: LookupResponse, profile: SlackResponse)
    requires !Allowed(query, DefaultEmail(email))
    ensures var r := Webhook(presenceStatus, email, authorization, workspaces, zoomStatus, slackToken, query, lookup, profile);
      r.calls == [] || r.calls == [Query(SelectEmails)]
  {
  }
}

/**
 * The status-update module (src/slack.js): resolve the workspace by its Zoom
 * verification token, check the event's email against the `users` table,
 * look up the Slack user, pick the meeting or no-meeting status and issue the
 * profile update. Every outside call (the database query, the two Slack API
 * requests) is a parameter holding its response, and the calls the code would
 * issue are returned as a trace.
 */
module Slack {
  import opened Wrappers
  import opened Js
  import opened UserRows

  /** A status template of a workspace (`meetingStatus` or `noMeetingStatus`). */
  datatype Status = Status(text: Val, emoji: Val)

  /** One entry of the workspace configuration list (slack-status-config.js). */
  datatype Workspace = Workspace(
    name: Val,
    token: Val,
    zoomVerificationToken: Val,
    dndNumMinutes: int,
    meetingStatus: Status,
    noMeetingStatus: Status)

  const NoWorkspaceMessage: string := "verification token does not match any configured workspace"
  const EmailMismatchMessage: string := "workspace was not updated because email does not match"
  const LookupErrorPrefix: string := "SLACK could not get user id for "
  /**
   * What reading `response.data.user.id` throws when the lookup response
   * carries no user, in the wording of recent V8 versions for an `undefined`
   * user; a `null` user reads "of null", and older Node versions word it
   * differently.
   */
  const MissingUserMessage: string := "Cannot read properties of undefined (reading 'id')"

  const LookupUrlPrefix: string := "https://slack.com/api/users.lookupByEmail?email="
  const ProfileSetUrl: string := "https://slack.com/api/users.profile.set"
  const SetSnoozeUrl: string := "https://slack.com/api/dnd.setSnooze"
  const EndSnoozeUrl: string := "https://slack.com/api/dnd.endSnooze"
  const FormContentType: string := "application/x-www-form-urlencoded"
  const NumMinutesField: string := "num_minutes="

  /** The body of a `users.lookupByEmail` response: `data.error` and `data.user.id` (None when `data.user` is absent). */
  datatype LookupResponse = LookupResponse(error: Val, userId: Option<Val>)

  /** The body of a `users.profile.set` or `dnd.*` response: only `data.error` is read. */
  datatype SlackResponse = SlackResponse(error: Val)

  /** The JSON body and headers of a `users.profile.set` request. */
  datatype ProfileRequest = ProfileRequest(
    url: string,
    authorization: string,
    user: Val,
    statusText: Val,
    statusEmoji: Val,
    statusExpiration: int)

  /** A `dnd.setSnooze` or `dnd.endSnooze` request: URL, headers and optional form body. */
  datatype DndRequest = DndRequest(url: string, authorization: string, contentType: string, body: Option<string>)

  /** An outside call, in the order the code issues them. */
  datatype Call =
    | Query(statement: Statement)
    | LookupByEmail(url: string, authorization: string, contentType: string)
    | ProfileSet(request: ProfileRequest)

  /** The decision: fail with a message, or update the user's status with a template. */
  datatype Outcome = Fail(message: string) | Update(token: Val, slackId: Val, text: Val, emoji: Val)

  /** The calls issued before the profile update, and the decision. */
  datatype Decision = Decision(calls: seq<Call>, outcome: Outcome)

  /** What the exported function does end to end: the calls it issues and the error it rejects with, if any. */
  datatype Run = Run(calls: seq<Call>, failure: Option<string>)

  /** `i` is the first position in list order whose verification token is `token`. */
  ghost predicate IsFirstMatch(workspaces: seq<Workspace>, token: Val, i: int) {
    0 <= i < |workspaces| &&
    workspaces[i].zoomVerificationToken == token &&
    forall j :: 0 <= j < i ==> workspaces[j].zoomVerificationToken != token
  }

  /** Some workspace carries `token`. */
  ghost predicate HasMatch(workspaces: seq<Workspace>, token: Val) {
    exists i :: 0 <= i < |workspaces| && workspaces[i].zoomVerificationToken == token
  }

  /**
   * `workspaces.find(w => w.zoomVerificationToken === token)`, as the
   * position of the workspace it returns.
   */
  function FindWorkspace(workspaces: seq<Workspace>, token: Val): (r: Option<nat>)
    ensures r.Some? ==> IsFirstMatch(workspaces, token, r.value)
    ensures r.None? <==> !HasMatch(workspaces, token)
    decreases |workspaces|
  {
    if |workspaces| == 0 then None
    else if workspaces[0].zoomVerificationToken == token then Some(0)
    else
      match FindWorkspace(workspaces[1..], token)
      case None => None
      case Some(i) => Some(i + 1)
  }

  /** The destructuring default `email = ''`, which applies only to `undefined`. */
  function DefaultEmail(email: Val): (e: Val)
    ensures email == Undefined ==> e == Str("")
    ensures email != Undefined ==> e == email
  {
    if email == Undefined then Str("") else email
  }

  /** The event's email is on the allow-list: the query produced rows and one of them carries it. */
  predicate Allowed(query: QueryResult, email: Val) {
    query.Rows? && Listed(query.rows, email)
  }

  /** The `users.lookupByEmail` request: the email is interpolated into the URL as it is, and the form content type is sent. */
  function LookupRequest(email: Val, slackToken: Val): (c: Call)
    ensures c.LookupByEmail?
    ensures c.url == LookupUrlPrefix + ToString(email)
    ensures c.authorization == BearerHeader(slackToken)
    ensures c.contentType == FormContentType
  {
    LookupByEmail(LookupUrlPrefix + ToString(email), BearerHeader(slackToken), FormContentType)
  }

  lemma ContainsMiddle(a: string, b: string, c: string)
    ensures OccursAt(a + b + c, b, |a|)
  {
    assert (a + b + c)[|a|..|a| + |b|] == b;
  }

  lemma ContainsEnd(a: string, b: string)
    ensures OccursAt(a + b, b, |a|)
  {
    assert (a + b)[|a|..|a| + |b|] == b;
  }

  /**
   * The decision the exported function of src/slack.js takes before it
   * issues the profile update: workspace resolution, the allow-list check,
   * the Slack user lookup and the choice of template.
   */
  function Decide(
    workspaces: seq<Workspace>,
    presenceStatus: Val,
    email: Val,
    verificationToken: Val,
    zoomStatus: Val,
    slackToken: Val,
    query: QueryResult,
    lookup: LookupResponse): (d: Decision)
    // Workspace resolution comes first: without a match nothing is called.
    ensures d.calls == [] <==> !HasMatch(workspaces, verificationToken)
    ensures d.calls == [] ==> d.outcome == Fail(NoWorkspaceMessage)
    ensures d.calls != [] ==> d.calls[0] == Query(SelectEmails) && |d.calls| <= 2
    // A failing query fails the event.
    ensures d.calls != [] && query.QueryThrew? ==> d == Decision([Query(SelectEmails)], Fail(query.message))
    // Fail closed: an email that is absent, or a table that produced no rows, stops before any Slack call.
    ensures d.calls != [] && !query.QueryThrew? && !Allowed(query, DefaultEmail(email)) ==>
              d == Decision([Query(SelectEmails)], Fail(EmailMismatchMessage))
    // The lookup is issued exactly when a workspace matches and the email is listed.
    ensures |d.calls| == 2 <==> HasMatch(workspaces, verificationToken) && Allowed(query, DefaultEmail(email))
    ensures |d.calls| == 2 ==> d.calls[1] == LookupRequest(DefaultEmail(email), slackToken)
    // A lookup error fails with a message naming both the email and the error.
    ensures |d.calls| == 2 && Truthy(lookup.error) ==>
              d.outcome.Fail? &&
              LookupErrorPrefix <= d.outcome.message &&
              Contains(d.outcome.message, ToString(DefaultEmail(email))) &&
              Contains(d.outcome.message, ToString(lookup.error))
    // An update happens exactly when every gate passed, and carries the looked-up user id.
    ensures d.outcome.Update? <==> |d.calls| == 2 && !Truthy(lookup.error) && lookup.userId.Some?
    ensures d.outcome.Update? ==> d.outcome.slackId == lookup.userId.value
    // The update uses the first matching workspace's token, and its meeting
    // template exactly when the presence strictly equals the sentinel.
    ensures d.outcome.Update? ==>
              exists i :: IsFirstMatch(workspaces, verificationToken, i) &&
                d.outcome.token == workspaces[i].token &&
                (presenceStatus == zoomStatus ==> Status(d.outcome.text, d.outcome.emoji) == workspaces[i].meetingStatus) &&
                (presenceStatus != zoomStatus ==> Status(d.outcome.text, d.outcome.emoji) == workspaces[i].noMeetingStatus)
  {
    var e := DefaultEmail(email);
    match FindWorkspace(workspaces, verificationToken)
    case None => Decision([], Fail(NoWorkspaceMessage))
    case Some(i) =>
      var w := workspaces[i];
      if query.QueryThrew? then
        Decision([Query(SelectEmails)], Fail(query.message))
      else if !(query.Rows? && e in EmailsOf(query.rows)) then
        ListedIffIncluded(if query.Rows? then query.rows else [], e);
        Decision([Query(SelectEmails)], Fail(EmailMismatchMessage))
      else
        ListedIffIncluded(query.rows, e);
        var calls := [Query(SelectEmails), LookupRequest(e, slackToken)];
        if Truthy(lookup.error) then
          var message := LookupErrorPrefix + ToString(e) + " - " + ToString(lookup.error);
          ContainsMiddle(LookupErrorPrefix, ToString(e), " - " + ToString(lookup.error));
          assert LookupErrorPrefix + ToString(e) + " - " + ToString(lookup.error)
              == LookupErrorPrefix + ToString(e) + (" - " + ToString(lookup.error));
          ContainsEnd(LookupErrorPrefix + ToString(e) + " - ", ToString(lookup.error));
          Decision(calls, Fail(message))
        else if lookup.userId.None? then
          Decision(calls, Fail(MissingUserMessage))
        else
          var status := if presenceStatus == zoomStatus then w.meetingStatus else w.noMeetingStatus;
          assert IsFirstMatch(workspaces, verificationToken, i);
          Decision(calls, Update(w.token, lookup.userId.value, status.text, status.emoji))
  }

  /**
   * The `users.profile.set` request of `updateSlackStatus`: a falsy text
   * or emoji is sent as `''`, and the status never expires.
   */
  function ProfileRequestFor(token: Val, text: Val, emoji: Val, slackId: Val): (r: ProfileRequest)
    ensures r.url == ProfileSetUrl
    ensures r.authorization == BearerHeader(token)
    ensures r.user == slackId
    ensures r.statusExpiration == 0
    ensures Truthy(text) ==> r.statusText == text
    ensures Truthy(emoji) ==> r.statusEmoji == emoji
    ensures !Truthy(text) ==> r.statusText == Str("")
    ensures !Truthy(emoji) ==> r.statusEmoji == Str("")
    ensures Truthy(r.statusText) || r.statusText == Str("")
    ensures Truthy(r.statusEmoji) || r.statusEmoji == Str("")
  {
    ProfileRequest(ProfileSetUrl, BearerHeader(token), slackId, Or(text, Str("")), Or(emoji, Str("")), 0)
  }

  /**
   * How a Slack response is turned into an error: a truthy `data.error` is
   * thrown as `new Error(data.error)`, and the surrounding `catch` rethrows
   * it as `new Error(error)`, whose message reads `Error: <data.error>`.
   */
  function SlackFailure(response: SlackResponse): (r: Option<string>)
    ensures r.None? <==> !Truthy(response.error)
    ensures r.Some? ==> r.value == "Error: " + ToString(response.error)
  {
    if Truthy(response.error) then Some("Error: " + ToString(response.error)) else None
  }

  /** Reads the minute count back out of a `num_minutes=<n>` form body. */
  function ParseNumMinutes(body: string): (r: Option<int>)
  {
    if |body| >= |NumMinutesField| && body[..|NumMinutesField|] == NumMinutesField
    then ParseInt(body[|NumMinutesField|..])
    else None
  }

  /**
   * The request `updateSlackDndStatus` sends: `snooze === true` selects
   * `dnd.setSnooze` with the form body `num_minutes=<numMinutes>`; every other
   * value selects `dnd.endSnooze` with no body.
   */
  method DndRequestFor(token: Val, numMinutes: int, snooze: Val) returns (r: DndRequest)
    ensures r.authorization == BearerHeader(token) && r.contentType == FormContentType
    ensures snooze == Bool(true) ==> r.url == SetSnoozeUrl && r.body == Some(NumMinutesField + IntToString(numMinutes))
    ensures snooze == Bool(true) ==> ParseNumMinutes(r.body.value) == Some(numMinutes)
    ensures snooze != Bool(true) ==> r.url == EndSnoozeUrl && r.body == None
  {
    var url: string := "";
    var data: Option<string> := None;
    if snooze == Bool(true) {
      url, data := SetSnoozeUrl, Some(NumMinutesField + IntToString(numMinutes));
      assert (NumMinutesField + IntToString(numMinutes))[|NumMinutesField|..] == IntToString(numMinutes);
      ParseIntToString(numMinutes);
    } else {
      url := EndSnoozeUrl;
    }
    r := DndRequest(url, BearerHeader(token), FormContentType, data);
  }

  /**
   * The exported function of src/slack.js: the decision, then exactly one
   * profile update when the decision is an update, whose response decides
   * whether the returned promise resolves or rejects.
   */
  function UpdateStatus(
    workspaces: seq<Workspace>,
    presenceStatus: Val,
    email: Val,
    verificationToken: Val,
    zoomStatus: Val,
    slackToken: Val,
    query: QueryResult,
    lookup: LookupResponse,
    profile: SlackResponse): (r: Run)
    ensures var d := Decide(workspaces, presenceStatus, email, verificationToken, zoomStatus, slackToken, query, lookup);
      (d.outcome.Fail? ==> r == Run(d.calls, Some(d.outcome.message))) &&
      (d.outcome.Update? ==>
        r.calls == d.calls + [ProfileSet(ProfileRequestFor(d.outcome.token, d.outcome.text, d.outcome.emoji, d.outcome.slackId))] &&
        r.failure == SlackFailure(profile) &&
        (r.failure.None? <==> !Truthy(profile.error)))
  {
    var d := Decide(workspaces, presenceStatus, email, verificationToken, zoomStatus, slackToken, query, lookup);
    match d.outcome
    case Fail(message) => Run(d.calls, Some(message))
    case Update(token, slackId, text, emoji) =>
      Run(d.calls + [ProfileSet(ProfileRequestFor(token, text, emoji, slackId))], SlackFailure(profile))
  }

  /** The number of profile updates in a trace. */
  function ProfileUpdates(calls: seq<Call>): nat
  {
    if calls == [] then 0
    else ProfileUpdates(calls[..|calls| - 1]) + (if calls[|calls| - 1].ProfileSet? then 1 else 0)
  }

  /** At most one profile update is issued per event, and one exactly when the decision is an update. */
  lemma {:induction false} OneProfileUpdate(
    workspaces: seq<Workspace>, presenceStatus: Val, email: Val, verificationToken: Val,
    zoomStatus: Val, slackToken: Val, query: QueryResult, lookup: LookupResponse, profile: SlackResponse)
    ensures var d := Decide(workspaces, presenceStatus, email, verificationToken, zoomStatus, slackToken, query, lookup);
      var r := UpdateStatus(workspaces, presenceStatus, email, verificationToken, zoomStatus, slackToken, query, lookup, profile);
      ProfileUpdates(r.calls) == (if d.outcome.Update? then 1 else 0)
  {
    var d := Decide(workspaces, presenceStatus, email, verificationToken, zoomStatus, slackToken, query, lookup);
    NoProfileUpdateBeforeDecision(d.calls);
    var r := UpdateStatus(workspaces, presenceStatus, email, verificationToken, zoomStatus, slackToken, query, lookup, profile);
    if d.outcome.Update? {
      assert r.calls[..|r.calls| - 1] == d.calls;
    }
  }

  lemma {:induction false} NoProfileUpdateBeforeDecision(calls: seq<Call>)
    requires |calls| <= 2
    requires |calls| >= 1 ==> calls[0].Query?
    requires |calls| == 2 ==> calls[1].LookupByEmail?
    ensures ProfileUpdates(calls) == 0
  {
    if |calls| > 0 {
      NoProfileUpdateBeforeDecision(calls[..|calls| - 1]);
    }
  }
}

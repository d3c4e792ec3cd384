# Zoom-to-Slack status updater: a Dafny model of its decision layer

The service receives Zoom "presence status updated" webhooks and sets the
matching user's Slack status. Before it calls Slack it takes a short chain of
decisions:

1. It finds the workspace whose Zoom verification token equals the webhook's
   `authorization` header. The first match in list order wins.
2. It fails if no workspace matches.
3. It reads the allow-list of emails from the `users` table.
4. It fails closed if the event's email is not on that list.
5. It looks up the Slack user by email.
6. It picks the workspace's `meetingStatus` template when the presence value
   strictly equals the configured sentinel (`ZOOM_STATUS`), and its
   `noMeetingStatus` template otherwise.
7. It sends one `users.profile.set` request.

The allow-list is maintained through three routes on `/api/v1/users`, each
guarded by a static bearer key.

The model turns that chain into pure functions. Every outside call is a
parameter carrying its response: the database query, the Slack user lookup
and the Slack profile update. The environment variables (`ZOOM_STATUS`,
`SLACK_TOKEN_1`, `GW_STATUS_API_KEY`) are parameters too. Each function returns
the decision together with the trace of calls it would issue. That trace is
what lets the contracts say "no Slack call happens" or "the database is not
touched".

JavaScript values are modelled by `Js.Val`: `undefined`, `null`, booleans,
integral numbers and strings. On these values strict equality `===` is
Dafny's `==`. The model also spells out JavaScript truthiness and the string
conversion done by template literals. This matters in several places:

- `email = ''` replaces only `undefined`, not `null`.
- `snooze === true` selects the snooze request, and no other truthy value does.
- An unset verification token in the configuration matches a webhook that has
  no `authorization` header, because `undefined === undefined`. The lemma
  `StatusConfig.UnsetTokenMatchesMissingHeader` states this.
- The lookup URL contains the email exactly as received. It is not
  URL-encoded.

Modules:

- `Wrappers`: `Option`.
- `Js`: values, truthiness, `String(v)`, and decimal notation together with its parser.
- `UserRows`: table rows, SQL statements, and the `reduce` that collects emails.
- `Slack`: src/slack.js.
- `Server`: src/server.js.
- `StatusConfig`: slack-status-config.js as a value, plus worked examples.

Two facts about the code are easy to miss:

- `updateSlackDndStatus` has no call site. So the exported function never
  issues a do-not-disturb call. The DND request builder is modelled on its
  own.
- An unknown token fails with the message
  `verification token does not match any configured workspace`.

## Model

| member | source | states |
|---|---|---|
| `Slack.FindWorkspace` | src/slack.js:116-118 | the result is the first position in list order whose `zoomVerificationToken` strictly equals the token; it is absent exactly when no workspace carries that token |
| `Slack.DefaultEmail` | src/slack.js:112 | a missing (`undefined`) email becomes `''`; any other value, including `null`, is kept |
| `Slack.LookupRequest` | src/slack.js:140-148 | the lookup URL is the `users.lookupByEmail?email=` prefix followed by the email as given, sent with `Bearer SLACK_TOKEN_1` and the form content type |
| `Slack.Decide` | src/slack.js:109-165 | no call at all iff no workspace matches, and then the no-match failure; a thrown query fails with its message; an email not among the rows, or a falsy `rows`, fails with the mismatch message after the query alone; the lookup is issued iff a workspace matches and the email is listed; a lookup `error` fails with a message that starts with the fixed prefix and contains both the email and the error; an update happens iff every gate passed; it carries the looked-up id, the first matching workspace's token, and that workspace's meeting template iff presence `===` sentinel, its no-meeting template otherwise |
| `Slack.ProfileRequestFor` | src/slack.js:19-36 | the request goes to `users.profile.set` with `Bearer <token>` for the looked-up user; a truthy text or emoji is sent unchanged and a falsy one as `''`; `status_expiration` is always 0 |
| `Slack.SlackFailure` | src/slack.js:38-46 | a Slack response fails exactly when its `error` is truthy; the rethrown message is `Error: <error>` |
| `Slack.DndRequestFor` | src/slack.js:58-89 | `snooze === true` gives `dnd.setSnooze` with the body `num_minutes=<n>`, whose number reads back as `numMinutes`; every other value gives `dnd.endSnooze` with no body; both carry the bearer token and the form content type |
| `Js.ParseIntToString` | src/slack.js:69-71 | the decimal text written for `num_minutes` loses nothing: reading it back yields the same integer, negative ones included |
| `Slack.UpdateStatus` | src/slack.js:109-183 | a failed decision rejects with its message after exactly the decision's calls; an update appends one `users.profile.set` request built from the chosen template and id, and the whole call fails iff that response carries an `error`, rejecting with `Error: <error>` |
| `Slack.OneProfileUpdate` | src/slack.js:166-175 | every event issues exactly one profile update when the decision is an update and none otherwise |
| `UserRows.EmailsOf` | src/slack.js:130-134 | the list built by the `reduce` has one entry per row, and entry i is row i's `email`, in row order |
| `UserRows.CollectEmails` | src/server.js:34-38 | the push loop returns the same list as the `reduce`: one `email` per row, in row order |
| `UserRows.ListedIffIncluded` | src/slack.js:138 | `emails.includes(email)` holds exactly when some row carries that email |
| `Server.GetUsers` | src/server.js:29-44 | an unauthorised request gets 401 and no query; an authorised one runs the select and gets 200 with each row's `email` in row order, or `[]` when `rows` is falsy |
| `Server.PostUser` | src/server.js:50-74 | 401 with no statement unless the header is `Bearer <GW_STATUS_API_KEY>`; 400 with no statement for a falsy `body.email`; otherwise one insert of that email, then 201 on success or 400 with `{message}` when it throws |
| `Server.DeleteUser` | src/server.js:80-104 | as for POST, with one delete of the email and 200 on success |
| `Server.UsersAuthGate` | src/server.js:51-73 | for POST and DELETE, the status is 401 exactly when the header is not the bearer key, whatever the email and the database outcome |
| `Server.ErrorMiddleware` | src/server.js:145-148 | every error that reaches the middleware is answered with 200 |
| `Server.Webhook` | src/server.js:113-134 | the webhook always answers 200; a falsy `presence_status` calls nothing and passes on the error whose message is `presence_status is not available`; otherwise it forwards presence, email and the `authorization` header as verification token, makes exactly the updater's calls, and passes the updater's failure on |
| `Server.WebhookFailsClosed` | src/slack.js:136-181 | for an email not on the allow-list the webhook issues at most the database select: no Slack lookup and no profile update |
| `StatusConfig.ConfiguredWorkspaces` | slack-status-config.js:6-51 | the shipped configuration holds one workspace whose Slack and verification tokens are the environment's |
| `StatusConfig.EnteringMeetingExample` | src/slack.js:162-175 | an allowed user whose presence equals the sentinel gets `On a Zoom Call` / `:slack_call:` after one select, one lookup and one update |
| `StatusConfig.LeavingMeetingExample` | src/slack.js:164-173 | a non-sentinel presence (`Available`) sends the configured empty no-meeting text and emoji |
| `StatusConfig.UnsetTokenMatchesMissingHeader` | src/slack.js:116-118 | with `VERIFICATION_TOKEN_1` unset, a request without an `authorization` header matches the configured workspace |
| `StatusConfig.MissingEmailExample` | src/slack.js:110-138 | a missing email is checked as `''`: a table holding an empty email passes it on to the lookup, whose URL then ends in `email=` |
| `StatusConfig.EmptyTableExample` | src/slack.js:127-138 | an empty table fails any email with the mismatch message after the select alone |

## Left out

- HTTP transport: every axios call is replaced by the response body it returns. A transport error or rejection, `axios.all` and promise sequencing are not modelled. Only the failure that `data.error` causes is modelled.
- Express plumbing is not modelled: routing, body parsing, static files, and the catch-all `GET /*` that sends `index.html` (src/server.js:17-23, 137-139).
- The database layer (src/db.js) and its pool are not modelled. Query results are parameters. The model does not capture that src/db.js exports no `query_with_params`, which the POST and DELETE routes call. Their database outcome is abstract.
- `Server.GetUsers`: a rejected `SELECT` in the GET route is not modelled. The handler has no `try`, so it has no defined response.
- Server.Webhook: does not model the webhook's `next(new Error(error))` (src/server.js:132), which wraps the updater's error in a new one. The model passes the updater's failure message on unwrapped. The error middleware only logs `error.message`, and logging is a side effect.
- Logger calls are not modelled. They are side effects only.
- Reading `process.env` is not modelled. `ZOOM_STATUS`, `SLACK_TOKEN_1` and `GW_STATUS_API_KEY` are parameters.
- Values outside `Js.Val` are not modelled: non-integral numbers, `NaN`, objects and arrays arriving in a JSON field. A workspace is assumed to have both status templates.
- Slack.DndRequestFor: numbers are modelled as unbounded integers written in plain decimal (`Js.IntToString`). This matches JavaScript's `String(n)` only for |n| < 10^21, and is exact only below 2^53. Above 10^21 JavaScript writes exponent notation (`1e+21`), which `qs.stringify` sends as `1e%2B21`. Above 2^53 the value is rounded. The same applies wherever `Js.ToString` renders a number: the lookup URL and the error messages.
- `Slack.DndRequestFor` takes `numMinutes` as an integer. `qs.stringify` of other values (strings needing percent-encoding, `undefined`, `null`) is not modelled.
- The exported function's `options || {}` and its `workspaces` default are not modelled. The webhook always passes an object, and the configured list is an explicit parameter.

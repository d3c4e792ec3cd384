/**
 * The shipped workspace configuration (slack-status-config.js) as a value,
 * and worked examples of the webhook pipeline over it.
 */
module StatusConfig {
  import opened Wrappers
  import opened Js
  import opened UserRows
  import opened Slack

  /**
   * The single configured workspace; its Slack token and Zoom verification
   * token come from the environment (`SLACK_TOKEN_1`, `VERIFICATION_TOKEN_1`).
   */
  function ConfiguredWorkspaces(slackToken1: Val, verificationToken1: Val): (ws: seq<Workspace>)
    ensures |ws| == 1 && ws[0].token == slackToken1 && ws[0].zoomVerificationToken == verificationToken1
  {
    [Workspace(
      Str("Gateway Status Updater"),
      slackToken1,
      verificationToken1,
      60,
      Status(Str("On a Zoom Call"), Str(":slack_call:")),
      Status(Str(""), Str("")))]
  }

  /** An allowed user entering a meeting gets the "On a Zoom Call" status, with one lookup and one update. */
  lemma EnteringMeetingExample()
    ensures UpdateStatus(
              ConfiguredWorkspaces(Str("xoxp-1"), Str("tok1")),
              Str("Do_Not_Disturb"), Str("a@x.com"), Str("tok1"),
              Str("Do_Not_Disturb"), Str("xoxp-1"),
              Rows([Row(Str("b@x.com")), Row(Str("a@x.com"))]),
              LookupResponse(Null, Some(Str("U1"))),
              SlackResponse(Bool(false)))
            == Run(
              [Query(SelectEmails),
               LookupByEmail(LookupUrlPrefix + "a@x.com", "Bearer xoxp-1", FormContentType),
               ProfileSet(ProfileRequest(ProfileSetUrl, "Bearer xoxp-1", Str("U1"), Str("On a Zoom Call"), Str(":slack_call:"), 0))],
              None)
  {
    var ws := ConfiguredWorkspaces(Str("xoxp-1"), Str("tok1"));
    var rows := [Row(Str("b@x.com")), Row(Str("a@x.com"))];
    assert FindWorkspace(ws, Str("tok1")) == Some(0);
    assert EmailsOf(rows)[1] == Str("a@x.com");
    var d := Decide(ws, Str("Do_Not_Disturb"), Str("a@x.com"), Str("tok1"), Str("Do_Not_Disturb"), Str("xoxp-1"),
                    Rows(rows), LookupResponse(Null, Some(Str("U1"))));
    assert d.outcome == Update(Str("xoxp-1"), Str("U1"), Str("On a Zoom Call"), Str(":slack_call:"));
    assert LookupRequest(Str("a@x.com"), Str("xoxp-1")) == LookupByEmail(LookupUrlPrefix + "a@x.com", "Bearer xoxp-1", FormContentType);
    assert d.calls == [Query(SelectEmails), LookupByEmail(LookupUrlPrefix + "a@x.com", "Bearer xoxp-1", FormContentType)];
  }

  /** Any other presence value clears the status: the no-meeting template is empty text and emoji. */
  lemma LeavingMeetingExample()
    ensures UpdateStatus(
              ConfiguredWorkspaces(Str("xoxp-1"), Str("tok1")),
              Str("Available"), Str("a@x.com"), Str("tok1"),
              Str("Do_Not_Disturb"), Str("xoxp-1"),
              Rows([Row(Str("a@x.com"))]),
              LookupResponse(Undefined, Some(Str("U1"))),
              SlackResponse(Undefined)).calls[2]
            == ProfileSet(ProfileRequest(ProfileSetUrl, "Bearer xoxp-1", Str("U1"), Str(""), Str(""), 0))
  {
    assert [Row(Str("a@x.com"))][0].email == Str("a@x.com");
  }

  /**
   * With `VERIFICATION_TOKEN_1` unset, a webhook without an `authorization`
   * header matches the configured workspace, since `undefined === undefined`.
   */
  lemma UnsetTokenMatchesMissingHeader(slackToken1: Val)
    ensures FindWorkspace(ConfiguredWorkspaces(slackToken1, Undefined), Undefined) == Some(0)
  {
  }

  /**
   * A webhook whose email is missing is checked as `''`: a table holding an
   * empty email lets it through to the lookup, with `''` in the URL.
   */
  lemma MissingEmailExample(slackToken1: Val)
    ensures Decide(
              ConfiguredWorkspaces(slackToken1, Str("tok1")),
              Str("Do_Not_Disturb"), Undefined, Str("tok1"),
              Str("Do_Not_Disturb"), slackToken1, Rows([Row(Str(""))]),
              LookupResponse(Undefined, Some(Str("U1")))).calls
            == [Query(SelectEmails), LookupRequest(Str(""), slackToken1)]
  {
    assert [Row(Str(""))][0].email == Str("");
  }

  /** An empty table fails every email closed after the select. */
  lemma EmptyTableExample(slackToken1: Val, email: Val)
    ensures Decide(
              ConfiguredWorkspaces(slackToken1, Str("tok1")),
              Str("Do_Not_Disturb"), email, Str("tok1"),
              Str("Do_Not_Disturb"), slackToken1, Rows([]),
              LookupResponse(Undefined, Some(Str("U1"))))
            == Decision([Query(SelectEmails)], Fail(EmailMismatchMessage))
  {
  }
}

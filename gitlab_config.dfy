/** The configuration form (components/gitlab-config.tsx): the token and group
    id inputs, the required-fields check, the probe request to the group and
    the classification of its outcome into one message each. */
module GitLabConfig {
  import opened Wrappers
  import opened Text
  import opened Http

  /** What the form hands to `onConfigSaved`. */
  datatype Config = Config(token: string, groupId: string)

  // The messages the form shows.
  const RequiredMessage := "Both GitLab access token and group ID are required"
  const InvalidTokenMessage := "Invalid access token. Please check your GitLab access token."
  const GroupNotFoundMessage := "Group not found. Please check your group ID."
  const ConnectionMessage := "Failed to connect to GitLab API." + " Please check your network connection."

  /** How one submission ends. */
  datatype Verdict =
    | MissingInput                                  // a field is empty after trimming; no request
    | Connected                                     // the probe answered with an ok status
    | InvalidToken                                  // the probe answered 401
    | GroupNotFound                                 // the probe answered 404
    | HttpFailure(response: Response)               // any other non-ok status
    | ConnectionFailed                              // the probe request itself failed

  /** The required-fields test of `handleSubmit`: `!token.trim() || !groupId.trim()`. */
  predicate MissingField(token: string, groupId: string) {
    Trim(token) == "" || Trim(groupId) == ""
  }

  /** Whitespace-only input is refused exactly like empty input. */
  lemma MissingFieldIffBlank(token: string, groupId: string)
    ensures MissingField(token, groupId) <==> IsBlank(token) || IsBlank(groupId)
  {
  }

  /** The verdict of a submission of `token` and `groupId` whose probe, if it
      is made, ends with `probe`. */
  function Judge(token: string, groupId: string, probe: FetchOutcome<()>): (v: Verdict)
    ensures v == MissingInput <==> IsBlank(token) || IsBlank(groupId)
    ensures v == Connected <==> !v.MissingInput? && probe.Responded? && probe.response.Ok()
    ensures v == ConnectionFailed <==> !v.MissingInput? && probe.Failed?
    ensures v == InvalidToken <==> !v.MissingInput? && probe.Responded? && probe.response.status == 401
    ensures v == GroupNotFound <==> !v.MissingInput? && probe.Responded? && probe.response.status == 404
    ensures v.HttpFailure? <==>
              !v.MissingInput? && probe.Responded? && !probe.response.Ok() && probe.response.status !in {401, 404}
    ensures v.HttpFailure? ==> v.response == probe.response
  {
    if MissingField(token, groupId) then MissingInput
    else
      match probe
      case Failed(_) => ConnectionFailed
      case Responded(response, _) =>
        if !response.Ok() then
          if response.status == 401 then InvalidToken
          else if response.status == 404 then GroupNotFound
          else HttpFailure(response)
        else
          Connected
  }

  /** The `error` state a verdict leaves: nothing on success, one fixed
      message per failure class, `Error: <status> - <statusText>` otherwise. */
  function ErrorFor(v: Verdict): (e: Option<string>)
    ensures e.None? <==> v == Connected
  {
    match v
    case MissingInput => Some(RequiredMessage)
    case Connected => None
    case InvalidToken => Some(InvalidTokenMessage)
    case GroupNotFound => Some(GroupNotFoundMessage)
    case HttpFailure(response) => Some(HttpErrorMessage(response))
    case ConnectionFailed => Some(ConnectionMessage)
  }

  /** The message tells the verdict: different verdicts never show the same
      error, so the user can always tell what went wrong. */
  lemma ErrorIdentifiesVerdict(v1: Verdict, v2: Verdict)
    requires ErrorFor(v1) == ErrorFor(v2)
    ensures v1 == v2
  {
    if v1.HttpFailure? && v2.HttpFailure? {
      HttpErrorMessageInjective(v1.response, v2.response);
    } else if v1.HttpFailure? && v2 != Connected {
      FixedMessageInitial(v2);
    } else if v2.HttpFailure? && v1 != Connected {
      FixedMessageInitial(v1);
    }
  }

  /** None of the fixed messages starts like `Error: <status> - <statusText>`. */
  lemma FixedMessageInitial(v: Verdict)
    requires !v.HttpFailure? && v != Connected
    ensures ErrorFor(v).value[0] != 'E'
  {
    match v
    case MissingInput => RequiredMessageInitial();
    case InvalidToken => InvalidTokenMessageInitial();
    case GroupNotFound => GroupNotFoundMessageInitial();
    case ConnectionFailed => ConnectionMessageInitial();
  }

  // The first character of each message, read off its first phrase.

  lemma RequiredMessageInitial()
    ensures RequiredMessage[0] == 'B'
  {
    var head := "Both GitLab access token";
    assert RequiredMessage == head + " and group ID are required";
    assert head[0] == 'B';
  }

  lemma InvalidTokenMessageInitial()
    ensures InvalidTokenMessage[0] == 'I'
  {
    var head := "Invalid access token.";
    assert InvalidTokenMessage == head + " Please check your GitLab access token.";
    assert head[0] == 'I';
  }

  lemma GroupNotFoundMessageInitial()
    ensures GroupNotFoundMessage[0] == 'G'
  {
    var head := "Group not found.";
    assert GroupNotFoundMessage == head + " Please check your group ID.";
    assert head[0] == 'G';
  }

  lemma ConnectionMessageInitial()
    ensures ConnectionMessage[0] == 'F'
  {
    assert "Failed to connect to GitLab API."[0] == 'F';
  }

  /** The configuration `onConfigSaved` receives, if it is called at all: only
      on `Connected`, and then with the fields exactly as typed, untrimmed. */
  function SavedConfig(token: string, groupId: string, probe: FetchOutcome<()>): (c: Option<Config>)
    ensures c.Some? <==> !IsBlank(token) && !IsBlank(groupId) && probe.Responded? && probe.response.Ok()
    ensures c.Some? ==> c.value.token == token && c.value.groupId == groupId
    ensures c.Some? <==> ErrorFor(Judge(token, groupId, probe)).None?
  {
    if Judge(token, groupId, probe) == Connected then Some(Config(token, groupId)) else None
  }

  /** The form's state. */
  class ConfigForm {
    var token: string
    var groupId: string
    var error: Option<string>
    /** The probe requests the form has sent, oldest first. */
    var probes: seq<Config>

    constructor()
      ensures token == "" && groupId == "" && error == None && probes == []
    {
      token := "";
      groupId := "";
      error := None;
      probes := [];
    }

    /** Typing in the token field. */
    method SetToken(value: string)
      modifies this`token
      ensures token == value
    {
      token := value;
    }

    /** Typing in the group id field. */
    method SetGroupId(value: string)
      modifies this`groupId
      ensures groupId == value
    {
      groupId := value;
    }

    /** `handleSubmit`, with `probe` standing for how the request to the group
        would end. The error is cleared first; a missing field is reported
        before any request; otherwise one probe is sent with the fields as
        typed and its outcome decides the error. `saved` is the argument of the
        one `onConfigSaved` call, `None` when it is not called. */
    method HandleSubmit(probe: FetchOutcome<()>) returns (saved: Option<Config>)
      modifies this
      ensures token == old(token) && groupId == old(groupId)
      ensures error == ErrorFor(Judge(token, groupId, probe))
      ensures saved == SavedConfig(token, groupId, probe)
      ensures probes == old(probes) + if MissingField(token, groupId) then [] else [Config(token, groupId)]
    {
      saved := None;
      error := None;

      if MissingField(token, groupId) {
        error := Some(RequiredMessage);
        return;
      }

      probes := probes + [Config(token, groupId)];
      match probe {
        case Failed(_) =>
          error := Some(ConnectionMessage);
        case Responded(response, _) =>
          if !response.Ok() {
            if response.status == 401 {
              error := Some(InvalidTokenMessage);
            } else if response.status == 404 {
              error := Some(GroupNotFoundMessage);
            } else {
              error := Some(HttpErrorMessage(response));
            }
            return;
          }
          saved := Some(Config(token, groupId));
      }
    }
  }
}

/** The per-member detail dialog (components/user-detail.tsx): the "Show
    detail" button, the profile request made only while the dialog is open,
    and the "N/A" fallbacks and profile link of the dialog's body. */
module UserDetail {
  import opened Wrappers
  import opened Http
  import opened AccessLevels
  import UsersList

  /** The profile fields the dialog reads. Every field may be missing: the
      state starts as an empty object, and the service may send `null`. */
  datatype Profile = Profile(
    id: Option<int>,
    name: Option<string>,
    username: Option<string>,
    avatarUrl: Option<string>,
    webUrl: Option<string>,
    accessLevel: Option<int>,
    jobTitle: Option<string>,
    location: Option<string>)

  /** `{} as User`: the state before any profile has arrived. */
  const EmptyProfile := Profile(None, None, None, None, None, None, None, None)

  /** A field is truthy in JavaScript when it is present and not the empty string. */
  predicate Present(field: Option<string>) {
    field.Some? && field.value != ""
  }

  const NotAvailable := "N/A"

  /** `field || "N/A"`: the field when it has text, "N/A" otherwise; the
      dialog never shows an empty line. */
  function OrNotAvailable(field: Option<string>): (shown: string)
    ensures shown != ""
    ensures Present(field) ==> shown == field.value
    ensures !Present(field) ==> shown == NotAvailable
  {
    if Present(field) then field.value else NotAvailable
  }

  /** The job title line. */
  function JobTitleText(p: Profile): (shown: string)
    ensures shown == (if Present(p.jobTitle) then p.jobTitle.value else NotAvailable)
  {
    OrNotAvailable(p.jobTitle)
  }

  /** The location line. */
  function LocationText(p: Profile): (shown: string)
    ensures shown == (if Present(p.location) then p.location.value else NotAvailable)
  {
    OrNotAvailable(p.location)
  }

  /** The target of the "View Profile" link, rendered exactly when `web_url`
      has text. */
  function ProfileLink(p: Profile): (link: Option<string>)
    ensures link.Some? <==> Present(p.webUrl)
    ensures link.Some? ==> link.value == p.webUrl.value
  {
    if Present(p.webUrl) then Some(p.webUrl.value) else None
  }

  /** `getAccessLevelName` of the dialog: the role table, "Unknown" elsewhere. */
  function AccessLevelName(level: int): (name: string)
    ensures name == LookupRole(RoleTable, level)
    ensures name == UnknownRole <==> !IsKnownLevel(level)
  {
    match level
    case 10 => "Guest"
    case 20 => "Reporter"
    case 30 => "Developer"
    case 40 => "Maintainer"
    case 50 => "Owner"
    case _ => "Unknown"
  }

  /** The dialog's copy of the role table agrees with the list's badge. */
  lemma AccessLevelNamesAgree(level: int)
    ensures AccessLevelName(level) == UsersList.AccessLevelName(level)
  {
  }

  const FailedToFetchUser := "Failed to fetch user"

  /** What the profile request yields: the profile, or the message of the
      error the effect throws. A non-ok response gives
      `Error: <status> - <statusText>`, a thrown non-Error "Failed to fetch user". */
  function FetchUser(o: FetchOutcome<Profile>): (r: Result)
    ensures r.Fetched? <==> o.Responded? && o.response.Ok()
    ensures r.Fetched? ==> r.profile == o.body
    ensures o.Responded? && !o.response.Ok() ==> r == Raised(HttpErrorMessage(o.response))
    ensures o == Failed(OtherValue) ==> r == Raised(FailedToFetchUser)
    ensures o.Failed? && o.thrown.ErrorObject? ==> r == Raised(o.thrown.message)
  {
    match TryFetch(o)
    case Loaded(p) => Fetched(p)
    case Caught(t) => Raised(CaughtMessage(t, FailedToFetchUser))
  }

  datatype Result = Fetched(profile: Profile) | Raised(message: string)

  /** What the dialog's content shows. */
  datatype DetailScreen =
    | Skeleton
    | Details(name: string, profileLink: Option<string>, jobTitle: string, location: string)

  /** The dialog content: the skeleton while loading, otherwise the name, the
      link when there is a web address, and the two lines with fallbacks. A
      missing name renders as nothing. */
  function RenderDetail(p: Profile, loading: bool): (s: DetailScreen)
    ensures s.Skeleton? <==> loading
    ensures s.Details? ==> s.profileLink == ProfileLink(p)
    ensures s.Details? ==> s.jobTitle == JobTitleText(p) && s.location == LocationText(p)
    ensures s.Details? ==> s.name == p.name.GetOr("")
  {
    if loading then Skeleton
    else Details(p.name.GetOr(""), ProfileLink(p), JobTitleText(p), LocationText(p))
  }

  /** The component's state, for one member `id` seen with `token`. */
  class UserDetailDialog {
    const id: int
    const token: string
    var user: Profile
    var loading: bool
    var dialogOpen: bool
    /** The profile requests sent, oldest first (the member id of each). */
    var requests: seq<int>
    /** The message of the last error the effect threw, if any. */
    var raised: Option<string>

    /** Mounting: an empty profile, not loading, the dialog closed. */
    constructor(id: int, token: string)
      ensures this.id == id && this.token == token
      ensures user == EmptyProfile && !loading && !dialogOpen
      ensures requests == [] && raised == None
    {
      this.id := id;
      this.token := token;
      user := EmptyProfile;
      loading := false;
      dialogOpen := false;
      requests := [];
      raised := None;
    }

    /** Clicking "Show detail" opens the dialog and touches nothing else. */
    method ShowDetail()
      modifies this
      ensures dialogOpen
      ensures user == old(user) && loading == old(loading)
      ensures requests == old(requests) && raised == old(raised)
    {
      dialogOpen := true;
    }

    /** The dialog's own open/close requests (`onOpenChange`). Closing keeps
        the profile that was shown. */
    method OpenChange(open: bool)
      modifies this
      ensures dialogOpen == open
      ensures user == old(user) && loading == old(loading)
      ensures requests == old(requests) && raised == old(raised)
    {
      dialogOpen := open;
    }

    /** The effect on `[id, token, dialogOpen]`, with `outcome` standing for
        how the request would end. While the dialog is closed nothing happens
        and no request is made. While it is open one request for `id` is made;
        the profile is replaced only when it arrived, otherwise the error is
        raised; loading is off afterwards in every case. */
    method RunEffect(outcome: FetchOutcome<Profile>)
      modifies this
      ensures dialogOpen == old(dialogOpen)
      ensures !dialogOpen ==>
                user == old(user) && loading == old(loading) && requests == old(requests) && raised == old(raised)
      ensures dialogOpen ==> requests == old(requests) + [id] && !loading
      ensures dialogOpen ==> user == (if FetchUser(outcome).Fetched? then FetchUser(outcome).profile else old(user))
      ensures dialogOpen ==> raised == (if FetchUser(outcome).Raised? then Some(FetchUser(outcome).message) else old(raised))
    {
      if dialogOpen {
        loading := true;
        requests := requests + [id];
        match TryFetch(outcome) {
          case Loaded(data) =>
            user := data;
          case Caught(t) =>
            raised := Some(CaughtMessage(t, FailedToFetchUser));
        }
        loading := false;
      }
    }

    /** What the dialog shows now. */
    function Screen(): DetailScreen
      reads this
    {
      RenderDetail(user, loading)
    }
  }
}

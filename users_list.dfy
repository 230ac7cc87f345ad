/** The group member list (components/users-list.tsx): the fetched members, a
    case-insensitive search over name and username, the role badge, the empty
    states and the "Showing X of Y users" footer. */
module UsersList {
  import opened Wrappers
  import opened Text
  import opened Http
  import opened AccessLevels

  /** A member as the list reads it. */
  datatype User = User(
    id: int,
    name: string,
    username: string,
    avatarUrl: string,
    webUrl: string,
    accessLevel: int,
    membershipState: string)

  // ---------------------------------------------------------------------------
  // Search
  // ---------------------------------------------------------------------------

  /** The search test: the lower-cased query occurs in the lower-cased name or
      in the lower-cased username. */
  predicate Matches(user: User, query: string) {
    || Includes(ToLower(user.name), ToLower(query))
    || Includes(ToLower(user.username), ToLower(query))
  }

  /** `a` is `b` with some elements left out, the rest in their order. */
  ghost predicate IsSubsequence<T>(a: seq<T>, b: seq<T>)
    decreases |b|
  {
    || a == []
    || (b != [] && (IsSubsequence(a, b[1..]) || (a[0] == b[0] && IsSubsequence(a[1..], b[1..]))))
  }

  /** `filteredUsers`: exactly the members that match, none added. */
  function FilteredUsers(users: seq<User>, query: string): (r: seq<User>)
    ensures forall u :: u in r <==> u in users && Matches(u, query)
    ensures forall u :: multiset(r)[u] == if Matches(u, query) then multiset(users)[u] else 0
    ensures multiset(r) <= multiset(users)
    ensures |r| <= |users|
  {
    if users == [] then []
    else
      var rest := FilteredUsers(users[1..], query);
      assert users == [users[0]] + users[1..];
      if Matches(users[0], query) then [users[0]] + rest else rest
  }

  /** The kept members appear in the order they have in `users`. */
  lemma {:induction false} FilterKeepsOrder(users: seq<User>, query: string)
    ensures IsSubsequence(FilteredUsers(users, query), users)
  {
    if users != [] {
      FilterKeepsOrder(users[1..], query);
      var rest := FilteredUsers(users[1..], query);
      if Matches(users[0], query) {
        assert ([users[0]] + rest)[1..] == rest;
      }
    }
  }

  /** The footer shows equal counts exactly when every member matches. */
  lemma {:induction false} FilterKeepsAllIff(users: seq<User>, query: string)
    ensures |FilteredUsers(users, query)| == |users| <==> forall u :: u in users ==> Matches(u, query)
  {
    if users != [] {
      FilterKeepsAllIff(users[1..], query);
      assert forall u :: u in users <==> u == users[0] || u in users[1..];
    }
  }

  /** An empty search box shows every member, in order. */
  lemma {:induction false} EmptyQueryKeepsAll(users: seq<User>)
    ensures FilteredUsers(users, "") == users
  {
    if users != [] {
      EmptyQueryKeepsAll(users[1..]);
      assert Matches(users[0], "");
      assert users == [users[0]] + users[1..];
    }
  }

  /** The search ignores case: queries that lower-case alike filter alike. */
  lemma {:induction false} SearchIgnoresCase(users: seq<User>, q1: string, q2: string)
    requires ToLower(q1) == ToLower(q2)
    ensures FilteredUsers(users, q1) == FilteredUsers(users, q2)
  {
    if users != [] {
      SearchIgnoresCase(users[1..], q1, q2);
    }
  }

  /** Searching the shown members again with the same query shows them all. */
  lemma {:induction false} FilterIdempotent(users: seq<User>, query: string)
    ensures FilteredUsers(FilteredUsers(users, query), query) == FilteredUsers(users, query)
  {
    if users != [] {
      FilterIdempotent(users[1..], query);
      var rest := FilteredUsers(users[1..], query);
      if Matches(users[0], query) {
        assert ([users[0]] + rest)[1..] == rest;
      }
    }
  }

  /** Two members, only the first of whom matches "ADA" in any case. */
  lemma SearchExample()
    ensures var ada := User(1, "Ada Lovelace", "ada", "", "", 30, "active");
            var bob := User(2, "Bob Marley", "bobm", "", "", 30, "active");
            FilteredUsers([ada, bob], "ADA") == [ada] &&
            FilteredUsers([ada, bob], "") == [ada, bob]
  {
    var ada := User(1, "Ada Lovelace", "ada", "", "", 30, "active");
    var bob := User(2, "Bob Marley", "bobm", "", "", 30, "active");
    AdaMatches(ada);
    BobDoesNotMatch(bob);
    assert [ada, bob][1..] == [bob];
    assert [bob][1..] == [];
    EmptyQueryKeepsAll([ada, bob]);
  }

  lemma AdaMatches(ada: User)
    requires ada.username == "ada"
    ensures Matches(ada, "ADA")
  {
    assert ToLower("ADA") == "ada";
    assert ToLower("ada") == "ada";
    assert OccursAt("ada", "ada", 0);
  }

  lemma BobDoesNotMatch(bob: User)
    requires bob.name == "Bob Marley" && bob.username == "bobm"
    ensures !Matches(bob, "ADA")
  {
    LowerCaseOfExample();
    AdaNotInExample();
  }

  lemma LowerCaseOfExample()
    ensures ToLower("ADA") == "ada" && ToLower("Bob Marley") == "bob marley" && ToLower("bobm") == "bobm"
  {
  }

  lemma AdaNotInExample()
    ensures !Includes("bob marley", "ada") && !Includes("bobm", "ada")
  {
    if Includes("bob marley", "ada") {
      IncludedCharsOccur("bob marley", "ada", 1);
    }
    if Includes("bobm", "ada") {
      IncludedCharsOccur("bobm", "ada", 0);
    }
  }

  // ---------------------------------------------------------------------------
  // Role badge
  // ---------------------------------------------------------------------------

  /** `getAccessLevelName` of the list: the role table, "Unknown" elsewhere. */
  function AccessLevelName(level: int): (name: string)
    ensures name == LookupRole(RoleTable, level)
    ensures name == UnknownRole <==> !IsKnownLevel(level)
  {
    match level
    case 10 => "Guest"
    case 20 => "Reporter"
    case 30 => "Developer"
    case 40 => "Maintainer"
    case 50 => "Owner"
    case _ => "Unknown"
  }

  // ---------------------------------------------------------------------------
  // Empty states and footer
  // ---------------------------------------------------------------------------

  const NoUsersInGroup := "No users found in this group"
  const NoUsersMatch := "No users match your search"

  /** The paragraph shown instead of the cards: present exactly when nothing is
      shown, and it blames the group only when the group has no members. */
  function EmptyState(users: seq<User>, query: string): (m: Option<string>)
    ensures m.Some? <==> FilteredUsers(users, query) == []
    ensures m == Some(NoUsersInGroup) <==> users == []
    ensures m == Some(NoUsersMatch) <==> users != [] && forall u :: u in users ==> !Matches(u, query)
  {
    if FilteredUsers(users, query) == [] then
      Some(if users == [] then NoUsersInGroup else NoUsersMatch)
    else
      assert FilteredUsers(users, query)[0] in FilteredUsers(users, query);
      None
  }

  /** The two numbers of the footer: the shown members never outnumber the
      members, and they are as many exactly when every member matches. */
  function FooterCounts(users: seq<User>, query: string): (c: (nat, nat))
    ensures c.0 == |FilteredUsers(users, query)|
    ensures c.0 <= c.1 && c.1 == |users|
    ensures c.0 == c.1 <==> forall u :: u in users ==> Matches(u, query)
    ensures query == "" ==> c.0 == c.1
  {
    FilterKeepsAllIff(users, query);
    var c := (|FilteredUsers(users, query)|, |users|);
    if query == "" then EmptyQueryKeepsAll(users); c else c
  }

  /** "Showing X of Y users". */
  function FooterText(users: seq<User>, query: string): (t: string)
    ensures "Showing " <= t
  {
    var c := FooterCounts(users, query);
    ShowingLine(c.0, c.1)
  }

  /** "Showing X of Y users" for `shown` = X and `total` = Y. */
  function ShowingLine(shown: nat, total: nat): string {
    "Showing " + Decimal(shown) + " of " + Decimal(total) + " users"
  }

  /** The footer reads back both counts: two footers are equal only when they
      show the same number of kept members out of the same number of members. */
  lemma ShowingLineInjective(x1: nat, y1: nat, x2: nat, y2: nat)
    requires ShowingLine(x1, y1) == ShowingLine(x2, y2)
    ensures x1 == x2 && y1 == y2
  {
    var a1, b1, a2, b2 := Decimal(x1), Decimal(y1), Decimal(x2), Decimal(y2);
    var t1, t2 := ShowingLine(x1, y1), ShowingLine(x2, y2);
    assert t1 == "Showing " + (a1 + (" of " + (b1 + " users")));
    assert t2 == "Showing " + (a2 + (" of " + (b2 + " users")));
    assert a1 + (" of " + (b1 + " users")) == t1[8..] == t2[8..] == a2 + (" of " + (b2 + " users"));
    DigitsPrefixUnique(a1, " of " + (b1 + " users"), a2, " of " + (b2 + " users"));
    DecimalInjective(x1, x2);
    assert b1 + " users" == (" of " + (b1 + " users"))[4..];
    assert b2 + " users" == (" of " + (b2 + " users"))[4..];
    DigitsPrefixUnique(b1, " users", b2, " users");
    DecimalInjective(y1, y2);
  }

  // ---------------------------------------------------------------------------
  // Fetch result and the rendered screen
  // ---------------------------------------------------------------------------

  const FailedToFetchUsers := "Failed to fetch users"

  /** The `error` state a fetch leaves: none when the members arrived,
      `Error: <status> - <statusText>` for a non-ok response, the thrown
      error's message, or "Failed to fetch users" for a thrown non-Error. */
  function FetchError(o: FetchOutcome<seq<User>>): (e: Option<string>)
    ensures e.None? <==> o.Responded? && o.response.Ok()
    ensures o.Responded? && !o.response.Ok() ==> e == Some(HttpErrorMessage(o.response))
    ensures o == Failed(OtherValue) ==> e == Some(FailedToFetchUsers)
    ensures o.Failed? && o.thrown.ErrorObject? ==> e == Some(o.thrown.message)
  {
    match TryFetch(o)
    case Loaded(_) => None
    case Caught(t) => Some(CaughtMessage(t, FailedToFetchUsers))
  }

  /** One member card: the member and the role badge. */
  datatype Card = Card(user: User, role: string)

  /** What the component renders. */
  datatype ListScreen =
    | Skeleton
    | ErrorAlert(text: string)
    | Listing(cards: seq<Card>, emptyState: Option<string>, footer: string)

  /** The render of the component's state: the skeleton while loading, the
      alert when `error` is a non-empty string, otherwise one card per shown
      member in order, the empty-state paragraph exactly when there is no card,
      and the footer. */
  function RenderList(users: seq<User>, loading: bool, error: Option<string>, query: string): (s: ListScreen)
    ensures s.Skeleton? <==> loading
    ensures s.ErrorAlert? <==> !loading && error.Some? && error.value != ""
    ensures s.ErrorAlert? ==> s.text == "Error loading users: " + error.value
    ensures s.Listing? ==> |s.cards| == |FilteredUsers(users, query)|
    ensures s.Listing? ==> forall i :: 0 <= i < |s.cards| ==>
              s.cards[i] == Card(FilteredUsers(users, query)[i], AccessLevelName(FilteredUsers(users, query)[i].accessLevel))
    ensures s.Listing? ==> (s.emptyState.Some? <==> s.cards == [])
    ensures s.Listing? ==> s.emptyState == EmptyState(users, query) && s.footer == FooterText(users, query)
    ensures s.Listing? ==> s.footer == ShowingLine(|s.cards|, |users|)
  {
    if loading then Skeleton
    else if error.Some? && error.value != "" then ErrorAlert("Error loading users: " + error.value)
    else
      var shown := FilteredUsers(users, query);
      Listing(
        seq(|shown|, i requires 0 <= i < |shown| => Card(shown[i], AccessLevelName(shown[i].accessLevel))),
        EmptyState(users, query),
        FooterText(users, query))
  }

  /** The component's state. */
  class UsersListView {
    const token: string
    const groupId: string
    var users: seq<User>
    var loading: bool
    var error: Option<string>
    var searchQuery: string

    /** Mounting: no members yet, loading, no error, empty search box. */
    constructor(token: string, groupId: string)
      ensures this.token == token && this.groupId == groupId
      ensures users == [] && loading && error == None && searchQuery == ""
    {
      this.token := token;
      this.groupId := groupId;
      users := [];
      loading := true;
      error := None;
      searchQuery := "";
    }

    /** `fetchUsers` once the request has ended with `outcome`: loading and
        the error are reset, the members are replaced only when they arrived,
        and loading is off again whatever happened. */
    method FetchUsers(outcome: FetchOutcome<seq<User>>)
      modifies this
      ensures !loading
      ensures error == FetchError(outcome)
      ensures users == if outcome.Responded? && outcome.response.Ok() then outcome.body else old(users)
      ensures searchQuery == old(searchQuery)
    {
      loading := true;
      error := None;
      match TryFetch(outcome) {
        case Loaded(data) =>
          users := data;
        case Caught(t) =>
          error := Some(CaughtMessage(t, FailedToFetchUsers));
      }
      loading := false;
    }

    /** Typing in the search box. */
    method SetSearchQuery(query: string)
      modifies this`searchQuery
      ensures searchQuery == query
    {
      searchQuery := query;
    }

    /** What is on screen now. */
    function Screen(): ListScreen
      reads this
    {
      RenderList(users, loading, error, searchQuery)
    }
  }
}

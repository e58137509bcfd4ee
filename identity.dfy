/**
 * The identity record of the Streamlit knowledge-base application (`UserInfo` in
 * `cognito.py`) and the way it is built from a Cognito `get_user` response and an
 * `admin_list_groups_for_user` response.
 */
module Identity {
  import opened Wrappers

  /** `UserInfo`: login state, e-mail, user name, primary group and all groups. */
  datatype UserInfo = UserInfo(
    isLoggedIn: bool,
    email: Option<string>,
    userName: Option<string>,
    group: Option<string>,
    groups: Option<seq<string>>)

  /** `UserInfo(IsLoggedIn=False)`: every other field keeps its default, `None`. */
  const LoggedOut: UserInfo := UserInfo(false, None, None, None, None)

  /** One entry of `UserAttributes`; `Name` and `Value` are read with `.get`, so either may be missing. */
  datatype Attribute = Attribute(name: Option<string>, value: Option<string>)

  /** The parts of a `get_user` response that are read: `Username` and `UserAttributes`. */
  datatype GetUserResponse = GetUserResponse(username: Option<string>, userAttributes: Option<seq<Attribute>>)

  /** One entry of the `Groups` list; `group['GroupName']` raises when the key is missing. */
  datatype GroupEntry = GroupEntry(groupName: Option<string>)

  /** An `admin_list_groups_for_user` response; `Groups` is read with a default of `[]`. */
  datatype ListGroupsResponse = ListGroupsResponse(groups: Option<seq<GroupEntry>>)

  /** The identity provider's group listing, asked for the given user name. */
  type GroupLookup = Option<string> -> Result<ListGroupsResponse, ProviderError>

  predicate IsEmail(a: Attribute) {
    a.name == Some("email")
  }

  /** Index `i` holds the first attribute named `email`. */
  predicate FirstEmailAt(attrs: seq<Attribute>, i: int) {
    0 <= i < |attrs| && IsEmail(attrs[i]) && forall j :: 0 <= j < i ==> !IsEmail(attrs[j])
  }

  /** The `Value` of the first attribute named `email`, `None` if there is none. */
  function FirstEmail(attrs: seq<Attribute>): Option<string> {
    if |attrs| == 0 then None
    else if IsEmail(attrs[0]) then attrs[0].value
    else FirstEmail(attrs[1..])
  }

  /** FirstEmail picks the value of the first `email` attribute, and is `None` when there is none. */
  lemma {:induction false} FirstEmailIsFirstMatch(attrs: seq<Attribute>)
    ensures (exists i :: FirstEmailAt(attrs, i)) || FirstEmail(attrs) == None
    ensures forall i :: FirstEmailAt(attrs, i) ==> FirstEmail(attrs) == attrs[i].value
    ensures (forall i :: 0 <= i < |attrs| ==> !IsEmail(attrs[i])) ==> FirstEmail(attrs) == None
  {
    if |attrs| > 0 && !IsEmail(attrs[0]) {
      var rest := attrs[1..];
      FirstEmailIsFirstMatch(rest);
      forall i | FirstEmailAt(attrs, i)
        ensures FirstEmailAt(rest, i - 1)
      {
        assert i != 0;
        forall j | 0 <= j < i - 1 ensures !IsEmail(rest[j]) {
          assert rest[j] == attrs[j + 1];
        }
      }
      if exists i :: FirstEmailAt(rest, i) {
        var i :| FirstEmailAt(rest, i);
        forall j | 0 <= j < i + 1 ensures !IsEmail(attrs[j]) {
          if j > 0 { assert attrs[j] == rest[j - 1]; }
        }
        assert FirstEmailAt(attrs, i + 1);
      }
      if forall i :: 0 <= i < |attrs| ==> !IsEmail(attrs[i]) {
        forall i | 0 <= i < |rest| ensures !IsEmail(rest[i]) {
          assert rest[i] == attrs[i + 1];
        }
      }
    } else if |attrs| > 0 {
      assert FirstEmailAt(attrs, 0);
    }
  }

  /**
   * The attribute scan of `from_cognito_response`: walk `UserAttributes` in order and stop
   * at the first attribute named `email`.
   */
  method ScanEmail(attrs: seq<Attribute>) returns (email: Option<string>)
    ensures email == FirstEmail(attrs)
  {
    email := None;
    var k := 0;
    while k < |attrs|
      invariant 0 <= k <= |attrs|
      invariant email == None
      invariant FirstEmail(attrs[k..]) == FirstEmail(attrs)
    {
      if attrs[k].name == Some("email") {
        email := attrs[k].value;
        break;
      }
      assert attrs[k..][1..] == attrs[k + 1..];
      k := k + 1;
    }
  }

  /** Every entry carries a `GroupName`. */
  predicate AllNamed(gs: seq<GroupEntry>) {
    forall i :: 0 <= i < |gs| ==> gs[i].groupName.Some?
  }

  /**
   * `[group['GroupName'] for group in groups]`: the names in order, or `None` when some
   * entry has no name (the comprehension raises there).
   */
  function GroupNames(gs: seq<GroupEntry>): (r: Option<seq<string>>)
    ensures r.Some? <==> AllNamed(gs)
    ensures r.Some? ==> |r.value| == |gs| && forall i :: 0 <= i < |gs| ==> r.value[i] == gs[i].groupName.value
  {
    if |gs| == 0 then Some([])
    else
      match (gs[0].groupName, GroupNames(gs[1..]))
      case (Some(n), Some(rest)) => Some([n] + rest)
      case _ => None
  }

  /** The `Groups` list of a response, `[]` when the key is missing. */
  function Entries(response: ListGroupsResponse): seq<GroupEntry> {
    response.groups.GetOr([])
  }

  /**
   * `UserInfo.get_user_groups`: the group names in response order; any exception (a failed
   * call or an entry without `GroupName`) yields `[]` instead of propagating.
   */
  function GetUserGroups(response: Result<ListGroupsResponse, ProviderError>): (groups: seq<string>)
    ensures response.Err? ==> groups == []
    ensures response.Ok? && !AllNamed(Entries(response.value)) ==> groups == []
    ensures response.Ok? && AllNamed(Entries(response.value)) ==>
      |groups| == |Entries(response.value)| &&
      forall i :: 0 <= i < |groups| ==> groups[i] == Entries(response.value)[i].groupName.value
  {
    match response
    case Err(_) => []
    case Ok(r) => GroupNames(Entries(r)).GetOr([])
  }

  /**
   * `UserInfo.from_cognito_response`: a logged-in identity whose user name is the
   * response's `Username`, whose e-mail is the first `email` attribute, whose groups are
   * those the provider lists for that user name, and whose primary group is the first of
   * them.
   */
  function FromCognitoResponse(response: GetUserResponse, lookup: GroupLookup): (u: UserInfo)
    ensures u.isLoggedIn
    ensures u.userName == response.username
    ensures forall i :: FirstEmailAt(response.userAttributes.GetOr([]), i) ==> u.email == response.userAttributes.GetOr([])[i].value
    ensures u.email.Some? ==> exists i :: FirstEmailAt(response.userAttributes.GetOr([]), i)
    ensures u.groups == Some(GetUserGroups(lookup(response.username)))
    ensures u.group.Some? <==> u.groups.value != []
    ensures u.group.Some? ==> u.group.value == u.groups.value[0]
  {
    var attrs := response.userAttributes.GetOr([]);
    FirstEmailIsFirstMatch(attrs);
    var groups := GetUserGroups(lookup(response.username));
    UserInfo(
      isLoggedIn := true,
      email := FirstEmail(attrs),
      userName := response.username,
      group := if |groups| > 0 then Some(groups[0]) else None,
      groups := Some(groups))
  }
}

/**
 * The profile page: on mount it asks the auth service for the user, picks
 * the profile table from the user's type, loads the user's row and shows it,
 * with a button to the matching edit route.  The two service replies are
 * inputs of `FetchProfile`.
 */
module ProfilePage {
  import opened Forms

  /** The reply of `auth.getUser()`: an error, no user, or a user with its id and metadata type. */
  datatype UserReply = UserError | NoUser | User(id: string, metadataType: Option<string>)

  /** The reply of the `select ... single()` on the profile table. */
  datatype RowReply = RowError(message: string) | Row(data: FormData)

  /** The query the page issues: the table and the `id` it filters on. */
  datatype Query = Query(table: string, id: string)

  const BlueTable := "blue_collar_profiles"
  const WhiteTable := "white_collar_profiles"
  const InvalidUserType := "Invalid user type."

  /** The table a user type reads from; no table for any type but `blue` and `white`. */
  function TableName(userType: Option<string>): (table: Option<string>)
    ensures table == Some(BlueTable) <==> userType == Some("blue")
    ensures table == Some(WhiteTable) <==> userType == Some("white")
    ensures table.None? <==> userType != Some("blue") && userType != Some("white")
  {
    if userType == Some("blue") then Some(BlueTable)
    else if userType == Some("white") then Some(WhiteTable)
    else None
  }

  /** `{ ...data, type: userType }`: the row with its `type` key set to the user's type. */
  function LoadedProfile(data: FormData, userType: string): (p: FormData)
    ensures SameExcept(data, p, "type")
    ensures p["type"] == Str(userType)
  {
    Spread(data, map["type" := Str(userType)])
  }

  /** What the page shows. */
  datatype View = LoadingView | ErrorView(message: string) | NoProfileView | ProfileView(profile: FormData)

  /** The render precedence: loading, then a non-empty error, then "no profile", then the profile. */
  function Render(loading: bool, error: string, profile: Option<FormData>): (v: View)
    ensures v == LoadingView <==> loading
    ensures v.ErrorView? <==> !loading && error != ""
    ensures v.ErrorView? ==> v.message == error
    ensures v == NoProfileView <==> !loading && error == "" && profile.None?
    ensures v.ProfileView? <==> !loading && error == "" && profile.Some?
    ensures v.ProfileView? ==> profile == Some(v.profile)
  {
    if loading then LoadingView
    else if error != "" then ErrorView(error)
    else if profile.None? then NoProfileView
    else ProfileView(profile.value)
  }

  const EditBlueRoute := "/edit-blue-profile"
  const EditWhiteRoute := "/edit-white-profile"

  /** The edit button's target, chosen from the profile's `type` field. */
  function EditRoute(profileType: Value): (route: string)
    ensures route == EditBlueRoute <==> profileType == Str("blue")
    ensures route == EditWhiteRoute <==> profileType != Str("blue")
  {
    if profileType == Str("blue") then EditBlueRoute else EditWhiteRoute
  }

  /** A profile loaded for a user type leads to that type's edit route. */
  lemma EditRouteFollowsUserType(data: FormData, userType: string)
    ensures EditRoute(Get(LoadedProfile(data, userType), "type")) ==
      if userType == "blue" then EditBlueRoute else EditWhiteRoute
  {
    assert Get(LoadedProfile(data, userType), "type") == Str(userType);
  }

  class ProfilePage {
    var profile: Option<FormData>
    var loading: bool
    var error: string

    constructor()
      ensures profile.None? && loading && error == ""
    {
      profile := None;
      loading := true;
      error := "";
    }

    function View(): View
      reads this
    {
      Render(loading, error, profile)
    }

    /**
     * The mount effect.  Without a user the page navigates to `/auth`;
     * with a type other than `blue` or `white` it reports an invalid type;
     * otherwise it issues one query, and shows the row or the query's error.
     * Every path ends with `loading` false.
     */
    method FetchProfile(user: UserReply, row: RowReply) returns (navigateTo: Option<string>, query: Option<Query>)
      modifies this
      ensures !loading
      ensures navigateTo.Some? <==> !user.User?
      ensures navigateTo.Some? ==> navigateTo.value == "/auth"
      ensures query.Some? <==> user.User? && TableName(user.metadataType).Some?
      ensures query.Some? ==> query.value == Query(TableName(user.metadataType).value, user.id)
      ensures query.None? ==> profile == old(profile)
      ensures !user.User? ==> error == ""
      ensures user.User? && query.None? ==> error == InvalidUserType
      ensures query.Some? && row.RowError? ==> error == row.message && profile == old(profile)
      ensures query.Some? && row.Row? ==>
        error == "" && profile == Some(LoadedProfile(row.data, user.metadataType.value))
    {
      loading := true;
      error := "";
      navigateTo, query := None, None;
      if !user.User? {
        navigateTo := Some("/auth");
      } else {
        var table := TableName(user.metadataType);
        if table.None? {
          error := InvalidUserType;
        } else {
          query := Some(Query(table.value, user.id));
          match row
          case RowError(message) =>
            error := message;
          case Row(data) =>
            profile := Some(LoadedProfile(data, user.metadataType.value));
        }
      }
      loading := false;
    }
  }

  /**
   * After the effect on a fresh page: a successful load shows the profile,
   * an invalid type shows the error, and a missing user shows "no profile"
   * while the router moves to `/auth`.
   */
  method MountThenRender(user: UserReply, row: RowReply) returns (v: View, navigateTo: Option<string>)
    ensures v != LoadingView
    ensures navigateTo.Some? ==> v == NoProfileView
    ensures user.User? && TableName(user.metadataType).None? ==> v == ErrorView(InvalidUserType)
    ensures user.User? && TableName(user.metadataType).Some? && row.Row? ==>
      v == ProfileView(LoadedProfile(row.data, user.metadataType.value))
  {
    var page := new ProfilePage();
    var query;
    navigateTo, query := page.FetchProfile(user, row);
    v := page.View();
  }
}

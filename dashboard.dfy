/** The dashboard page: loads the profile, sends users who have not
    finished onboarding to the form, lists subscribed services, and signs
    out. */
module Dashboard {
  import opened Base
  import opened Provider
  import opened Profiles
  import opened Ui
  import UseAuth

  /** The joined service of a subscription. */
  datatype ServiceInfo = ServiceInfo(id: string, name: string, description: string, price: int)

  /** A `user_services` row with its joined service, which can be null. */
  datatype SubscriptionRow = SubscriptionRow(id: string, subscribedAt: string, status: string, service: Option<ServiceInfo>)

  /** A service as the page shows it. */
  datatype Service = Service(id: string, name: string, description: string, price: int, subscribedAt: string, status: string)

  datatype ServicesReply = ServiceRows(rows: seq<SubscriptionRow>) | ServicesError(message: string) | ServicesThrow

  const ProfileLoadFailed := "Failed to load profile data"
  const UnexpectedError := "An unexpected error occurred"
  const SignedOutToast := Toast("Signed out successfully", "You have been logged out of your account.", false)
  const SignOutFailedToast := Toast("Error signing out", "Please try again.", true)

  /** One formatted service: what is offered comes from the joined service,
      the subscription's own facts from the row. */
  function FormatService(row: SubscriptionRow): Service
    requires row.service.Some?
  {
    Service(row.id, row.service.value.name, row.service.value.description, row.service.value.price,
            row.subscribedAt, row.status)
  }

  /** `servicesData.map(...)`: `None` when some row lacks its joined service,
      where reading `item.services.name` throws. */
  function FormatServices(rows: seq<SubscriptionRow>): (r: Option<seq<Service>>)
    ensures r.Some? <==> forall i :: 0 <= i < |rows| ==> rows[i].service.Some?
    ensures r.Some? ==> |r.value| == |rows|
    ensures r.Some? ==> forall i :: 0 <= i < |rows| ==>
              var s, row := r.value[i], rows[i];
              s.id == row.id && s.subscribedAt == row.subscribedAt && s.status == row.status &&
              s.name == row.service.value.name && s.description == row.service.value.description &&
              s.price == row.service.value.price
  {
    if rows == [] then Some([])
    else if rows[0].service.None? then None
    else
      var rest := FormatServices(rows[1..]);
      assert forall i :: 1 <= i < |rows| ==> rows[i] == rows[1..][i - 1];
      if rest.None? then None else Some([FormatService(rows[0])] + rest.value)
  }

  /** Where the dashboard goes once the profile query answered: `None`
      stays on the page. */
  function ProfileRedirect(profile: Option<Profile>): (to: Option<string>)
    ensures to.None? <==> profile.Some? && profile.value.onboardingCompleted
    ensures to.Some? ==> to.value == "/onboarding"
  {
    if profile.None? || !profile.value.onboardingCompleted then Some("/onboarding") else None
  }

  /** What `fetchUserData` leaves behind for user `id` once its queries
      answered. A profile error or an exception sets its message. A missing
      or unfinished profile goes to `/onboarding`. Otherwise the profile is
      held. A services error is only logged, an exception or a row without
      its service sets the generic error, and good rows become the list. */
  predicate Fetched(id: string, rows: map<string, Profile>, profileRead: ReadOutcome, servicesReply: ServicesReply,
                    profile0: Option<Profile>, profile: Option<Profile>, services0: seq<Service>, services: seq<Service>,
                    error0: string, error: string, navigations0: seq<string>, navigations: seq<string>)
  {
    (profileRead.ReadError? ==>
       error == ProfileLoadFailed && navigations == navigations0 && profile == profile0 && services == services0) &&
    (profileRead.ReadThrows? ==>
       error == UnexpectedError && navigations == navigations0 && profile == profile0 && services == services0) &&
    (profileRead.ReadOk? ==>
       var found := if id in rows then Some(rows[id]) else None;
       (ProfileRedirect(found).Some? ==>
          navigations == navigations0 + ["/onboarding"] && profile == profile0 &&
          services == services0 && error == error0) &&
       (ProfileRedirect(found).None? ==>
          navigations == navigations0 && profile == found &&
          (servicesReply.ServicesError? ==> services == services0 && error == error0) &&
          (servicesReply.ServicesThrow? ==> services == services0 && error == UnexpectedError) &&
          (servicesReply.ServiceRows? ==>
             var formatted := FormatServices(servicesReply.rows);
             (formatted.Some? ==> services == formatted.value && error == error0) &&
             (formatted.None? ==> services == services0 && error == UnexpectedError))))
  }

  class DashboardPage {
    var profile: Option<Profile>
    var services: seq<Service>
    var loading: bool
    var error: string
    var navigations: seq<string>
    var toasts: seq<Toast>

    /** The page only ever holds a profile whose onboarding is complete. */
    ghost predicate Valid()
      reads this
    {
      profile.Some? ==> profile.value.onboardingCompleted
    }

    constructor ()
      ensures Valid()
      ensures profile == None && services == [] && loading && error == [] && navigations == [] && toasts == []
    {
      profile, services, loading, error, navigations, toasts := None, [], true, [], [], [];
    }

    /** The effect on `user`: no user goes to the login page, otherwise the
        data is fetched. */
    method OnUser(user: Option<User>, table: ProfileTable, profileRead: ReadOutcome, servicesReply: ServicesReply)
      requires Valid()
      modifies this
      ensures Valid()
      ensures user.None? ==> navigations == old(navigations) + ["/login"] && profile == old(profile) &&
                             services == old(services) && loading == old(loading) && error == old(error)
      ensures user.Some? ==> !loading
      ensures user.Some? ==>
                Fetched(user.value.id, table.rows, profileRead, servicesReply, old(profile), profile,
                        old(services), services, old(error), error, old(navigations), navigations)
      ensures toasts == old(toasts)
    {
      if user.None? {
        navigations := navigations + ["/login"];
        return;
      }
      FetchUserData(user, table, profileRead, servicesReply);
    }

    /** `fetchUserData` with the outcomes of its two queries passed in; the
        profile query reads `table` when it succeeds. */
    method FetchUserData(user: Option<User>, table: ProfileTable, profileRead: ReadOutcome, servicesReply: ServicesReply)
      requires Valid()
      modifies this
      ensures Valid()
      ensures user.None? ==> profile == old(profile) && services == old(services) && loading == old(loading) &&
                             error == old(error) && navigations == old(navigations)
      ensures user.Some? ==> !loading
      ensures toasts == old(toasts)
      ensures user.Some? ==>
                Fetched(user.value.id, table.rows, profileRead, servicesReply, old(profile), profile,
                        old(services), services, old(error), error, old(navigations), navigations)
    {
      if user.None? {
        return;
      }
      var id := user.value.id;
      match profileRead {
        case ReadThrows =>
          error := UnexpectedError;
        case ReadError(_) =>
          error := ProfileLoadFailed;
        case ReadOk =>
          var found := if id in table.rows then Some(table.rows[id]) else None;
          var to := ProfileRedirect(found);
          if to.Some? {
            navigations := navigations + [to.value];
          } else {
            profile := found;
            match servicesReply {
              case ServicesError(_) =>
              case ServicesThrow =>
                error := UnexpectedError;
              case ServiceRows(rows) =>
                var formatted := FormatServices(rows);
                if formatted.None? {
                  error := UnexpectedError;
                } else {
                  services := formatted.value;
                }
            }
          }
      }
      loading := false;
    }

    /** `handleSignOut`: the hook's sign-out, then a toast, and on success a
        move to the home page. */
    method HandleSignOut(auth: UseAuth.AuthController, providerError: Option<string>)
      requires Valid() && auth.Valid()
      modifies this, auth
      ensures Valid() && auth.Valid()
      ensures providerError.Some? ==>
                navigations == old(navigations) && toasts == old(toasts) + [SignOutFailedToast] &&
                auth.State() == UseAuth.AfterSignOutError(UseAuth.AfterSignOutStart(old(auth.State())))
      ensures providerError.None? ==>
                navigations == old(navigations) + ["/"] && toasts == old(toasts) + [SignedOutToast] &&
                auth.State() == UseAuth.AfterSignOutStart(old(auth.State()))
      ensures profile == old(profile) && services == old(services) && error == old(error) && loading == old(loading)
      ensures auth.initialized == old(auth.initialized) && auth.subscribed == old(auth.subscribed)
      ensures auth.pullsInFlight == old(auth.pullsInFlight)
    {
      auth.BeginSignOut();
      var thrown := auth.FinishSignOut(providerError);
      if thrown.Some? {
        toasts := toasts + [SignOutFailedToast];
      } else {
        toasts := toasts + [SignedOutToast];
        navigations := navigations + ["/"];
      }
    }
  }
}

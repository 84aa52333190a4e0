/** The onboarding form: sends finished users on to the dashboard and, on
    submit, writes the profile fields and marks onboarding complete. */
module Onboarding {
  import opened Base
  import opened Provider
  import opened Profiles
  import opened Ui

  const UnexpectedError := "An unexpected error occurred"
  const WelcomeToast := Toast("Welcome to Reforzo!", "Your profile has been set up successfully.", false)

  /** `user.email || ''` */
  function PrefilledEmail(user: User): (email: string)
    ensures user.email.Some? ==> email == user.email.value
    ensures user.email.None? ==> email == []
  {
    if user.email.Some? then user.email.value else []
  }

  /** The effect's status check: the row's flag is read only when the query
      answered; a missing row, an error or an exception leave the user on
      the form. */
  predicate AlreadyOnboarded(rows: map<string, Profile>, userId: string, read: ReadOutcome) {
    read.ReadOk? && userId in rows && rows[userId].onboardingCompleted
  }

  class OnboardingPage {
    var fullName: string
    var email: string
    var companyName: string
    var phoneNumber: string
    var loading: bool
    var error: string
    var navigations: seq<string>
    var toasts: seq<Toast>

    constructor ()
      ensures fullName == [] && email == [] && companyName == [] && phoneNumber == []
      ensures !loading && error == [] && navigations == [] && toasts == []
    {
      fullName, email, companyName, phoneNumber := [], [], [], [];
      loading, error, navigations, toasts := false, [], [], [];
    }

    /** The effect on `user`. */
    method OnUser(user: Option<User>, table: ProfileTable, statusRead: ReadOutcome)
      modifies this
      ensures user.None? ==> navigations == old(navigations) + ["/login"] && email == old(email)
      ensures user.Some? ==> email == PrefilledEmail(user.value)
      ensures user.Some? && AlreadyOnboarded(table.rows, user.value.id, statusRead) ==>
                navigations == old(navigations) + ["/dashboard"]
      ensures user.Some? && !AlreadyOnboarded(table.rows, user.value.id, statusRead) ==>
                navigations == old(navigations)
      ensures fullName == old(fullName) && companyName == old(companyName) && phoneNumber == old(phoneNumber)
      ensures loading == old(loading) && error == old(error) && toasts == old(toasts)
    {
      if user.None? {
        navigations := navigations + ["/login"];
        return;
      }
      email := PrefilledEmail(user.value);
      if AlreadyOnboarded(table.rows, user.value.id, statusRead) {
        navigations := navigations + ["/dashboard"];
      }
    }

    /** `handleSubmit` with the update's outcome passed in. */
    method HandleSubmit(user: Option<User>, table: ProfileTable, outcome: WriteOutcome)
      modifies this, table
      ensures user.None? ==>
                table.rows == old(table.rows) && error == old(error) && loading == old(loading) &&
                navigations == old(navigations) && toasts == old(toasts)
      ensures user.Some? ==> !loading
      ensures user.Some? ==>
                var f := OnboardingFields(fullName, email, companyName, phoneNumber);
                table.rows == (if outcome.WriteOk? then UpdateOnboarding(old(table.rows), user.value.id, f)
                               else old(table.rows))
      ensures user.Some? && outcome.WriteOk? ==>
                error == [] && navigations == old(navigations) + ["/dashboard"] && toasts == old(toasts) + [WelcomeToast]
      ensures user.Some? && outcome.WriteError? ==>
                error == outcome.message && navigations == old(navigations) && toasts == old(toasts)
      ensures user.Some? && outcome.WriteThrows? ==>
                error == UnexpectedError && navigations == old(navigations) && toasts == old(toasts)
      ensures fullName == old(fullName) && email == old(email) && companyName == old(companyName) &&
              phoneNumber == old(phoneNumber)
    {
      if user.None? {
        return;
      }
      loading := true;
      error := [];
      table.Update(user.value.id, OnboardingFields(fullName, email, companyName, phoneNumber), outcome);
      match outcome {
        case WriteError(message) =>
          error := message;
        case WriteThrows =>
          error := UnexpectedError;
        case WriteOk =>
          toasts := toasts + [WelcomeToast];
          navigations := navigations + ["/dashboard"];
      }
      loading := false;
    }
  }
}

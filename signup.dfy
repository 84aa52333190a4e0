/** The sign-up form: live field validation over an error dictionary, the
    bot and validation phase of submit, the provider call's outcomes, and
    the profile written on automatic sign-in. */
module Signup {
  import opened Base
  import opened Provider
  import opened Profiles
  import opened Ui
  import opened JsText
  import opened Validation

  const Mismatch := "Passwords do not match"
  const SlowDown := "Please take a moment to review your information."
  const AlreadyRegistered := "An account with this email already exists. Please sign in instead."
  const WeakPassword := "Password must meet security requirements"
  const UnexpectedError := "An unexpected error occurred. Please try again."
  const CheckEmailToast := Toast("Account created successfully!",
    "Please check your email to verify your account before signing in.", false)
  const WelcomeToast := Toast("Welcome to Reforzo!",
    "Your account has been created successfully. Redirecting to your dashboard...", false)

  /** How the provider's `signUp` ends. */
  datatype SignUpReply = SignUpError(message: string) | SignUpThrows | SignedUp(user: Option<User>, session: Option<Session>)

  /** The submit button's `disabled`: enabled only when idle and free of
      every error. */
  function SubmitDisabled(loading: bool, errors: map<string, string>): (disabled: bool)
    ensures !disabled <==> !loading && errors == map[]
  {
    loading || |errors| > 0
  }

  /** The message of a result that failed, `''` otherwise (`message || ''`). */
  function MessageOf(v: ValidationResult): string {
    if v.Invalid? then v.message else []
  }

  /** The dictionary a provider error turns into. */
  function ProviderErrors(message: string): (errs: map<string, string>)
    ensures |errs| == 1
    ensures Includes(message, "User already registered") ==> errs == map["general" := AlreadyRegistered]
    ensures !Includes(message, "User already registered") && Includes(message, "Password should be at least") ==>
              errs == map["password" := WeakPassword]
    ensures !Includes(message, "User already registered") && !Includes(message, "Password should be at least") ==>
              errs == map["general" := message]
  {
    if Includes(message, "User already registered") then map["general" := AlreadyRegistered]
    else if Includes(message, "Password should be at least") then map["password" := WeakPassword]
    else map["general" := message]
  }

  class SignupForm {
    var email: string
    var password: string
    var confirmPassword: string
    var loading: bool
    var errors: map<string, string>
    var success: bool
    var emailSent: bool
    var formStartTime: int
    var signUpRequests: seq<(string, string)>
    var navigations: seq<string>
    var toasts: seq<Toast>

    /** The form is mounted at time `now`. */
    constructor (now: int)
      ensures email == [] && password == [] && confirmPassword == [] && !loading && errors == map[]
      ensures !success && !emailSent && formStartTime == now
      ensures signUpRequests == [] && navigations == [] && toasts == []
    {
      email, password, confirmPassword := [], [], [];
      loading, errors, success, emailSent := false, map[], false, false;
      formStartTime := now;
      signUpRequests, navigations, toasts := [], [], [];
    }

    /** The effect on the hook's `user` and `initializing`: a user already
        signed in once the first answer is in goes to the dashboard. */
    method OnAuthState(user: Option<User>, initializing: bool)
      modifies this`navigations
      ensures !initializing && user.Some? ==> navigations == old(navigations) + ["/dashboard"]
      ensures initializing || user.None? ==> navigations == old(navigations)
    {
      if !initializing && user.Some? {
        navigations := navigations + ["/dashboard"];
      }
    }

    /** `validateField`: a copy of the dictionary in which only the key(s)
        of the given field are added or removed. */
    method ValidateField(field: string, value: string)
      modifies this`errors
      ensures FieldValidated(old(errors), errors, field, value, password, confirmPassword)
    {
      var newErrors := errors;
      if field == "email" {
        var v := ValidateEmail(value);
        if v.Invalid? && value != [] {
          newErrors := newErrors["email" := MessageOf(v)];
        } else {
          newErrors := newErrors - {"email"};
        }
      } else if field == "password" {
        var v := ValidatePassword(value);
        if v.Invalid? && value != [] {
          newErrors := newErrors["password" := MessageOf(v)];
        } else {
          newErrors := newErrors - {"password"};
        }
        if confirmPassword != [] && confirmPassword != value {
          newErrors := newErrors["confirmPassword" := Mismatch];
        } else if confirmPassword != [] {
          newErrors := newErrors - {"confirmPassword"};
        }
      } else if field == "confirmPassword" {
        if value != password {
          newErrors := newErrors["confirmPassword" := Mismatch];
        } else {
          newErrors := newErrors - {"confirmPassword"};
        }
      }
      errors := newErrors;
    }

    /** The email input's `onChange`. */
    method ChangeEmail(value: string)
      modifies this`email, this`errors
      ensures email == value
      ensures FieldValidated(old(errors), errors, "email", value, password, confirmPassword)
      ensures value != [] && ValidateEmail(value).Invalid? ==> SubmitDisabled(loading, errors)
    {
      email := value;
      ValidateField("email", value);
    }

    /** The password input's `onChange`. */
    method ChangePassword(value: string)
      modifies this`password, this`errors
      ensures password == value
      ensures FieldValidated(old(errors), errors, "password", value, password, confirmPassword)
      ensures value != [] && ValidatePassword(value).Invalid? ==> SubmitDisabled(loading, errors)
      ensures confirmPassword != [] && confirmPassword != value ==> SubmitDisabled(loading, errors)
    {
      password := value;
      ValidateField("password", value);
    }

    /** The confirmation input's `onChange`. */
    method ChangeConfirmPassword(value: string)
      modifies this`confirmPassword, this`errors
      ensures confirmPassword == value
      ensures FieldValidated(old(errors), errors, "confirmPassword", value, password, confirmPassword)
      ensures value != password ==> SubmitDisabled(loading, errors)
    {
      confirmPassword := value;
      ValidateField("confirmPassword", value);
    }

    /** `handleSignUp` with the clock, the provider's answer and the outcome
        of the profile upsert passed in. The delayed redirect after an
        automatic sign-in runs at once. */
    method HandleSignUp(now: int, reply: SignUpReply, table: ProfileTable, upsert: WriteOutcome)
      modifies this, table
      ensures !loading
      ensures email == old(email) && password == old(password) && confirmPassword == old(confirmPassword)
      ensures formStartTime == old(formStartTime)
      // the bot check comes first and answers with a single general error
      ensures DetectBot(formStartTime, now, DefaultMinFormTime) ==>
                errors == map["general" := SlowDown] && signUpRequests == old(signUpRequests) &&
                table.rows == old(table.rows) && navigations == old(navigations) && !success &&
                toasts == old(toasts) && emailSent == old(emailSent)
      // then every failing check is reported and the provider is not called
      ensures !DetectBot(formStartTime, now, DefaultMinFormTime) && !PassesChecks(email, password, confirmPassword) ==>
                ReportsFailedChecks(errors, email, password, confirmPassword) &&
                signUpRequests == old(signUpRequests) && table.rows == old(table.rows) &&
                navigations == old(navigations) && !success && toasts == old(toasts) && emailSent == old(emailSent)
      // otherwise the provider is called once, and its answer decides the rest
      ensures !DetectBot(formStartTime, now, DefaultMinFormTime) && PassesChecks(email, password, confirmPassword) ==>
                signUpRequests == old(signUpRequests) + [(email, password)] &&
                ReplyApplied(reply, upsert, old(table.rows), table.rows, old(navigations), navigations,
                             old(toasts), toasts, old(emailSent), emailSent, errors, success)
    {
      loading := true;
      errors := map[];
      success := false;

      if DetectBot(formStartTime, now, DefaultMinFormTime) {
        errors := map["general" := SlowDown];
        loading := false;
        return;
      }

      var validationErrors := CollectValidationErrors(email, password, confirmPassword);
      if |validationErrors| > 0 {
        errors := validationErrors;
        loading := false;
        return;
      }

      signUpRequests := signUpRequests + [(email, password)];
      ApplySignUpReply(reply, table, upsert);
      loading := false;
    }

    /** The `try` block after the provider call. */
    method ApplySignUpReply(reply: SignUpReply, table: ProfileTable, upsert: WriteOutcome)
      requires errors == map[] && !success
      modifies this`errors, this`success, this`emailSent, this`navigations, this`toasts, table
      ensures ReplyApplied(reply, upsert, old(table.rows), table.rows, old(navigations), navigations,
                           old(toasts), toasts, old(emailSent), emailSent, errors, success)
    {
      match reply {
        case SignUpThrows =>
          errors := map["general" := UnexpectedError];
        case SignUpError(message) =>
          errors := ProviderErrors(message);
        case SignedUp(user, session) =>
          if user.Some? && session.None? {
            emailSent := true;
            success := true;
            toasts := toasts + [CheckEmailToast];
          } else if session.Some? {
            success := true;
            toasts := toasts + [WelcomeToast];
            if user.Some? {
              table.Upsert(user.value.id, user.value.email, upsert);
            }
            navigations := navigations + ["/dashboard"];
          }
      }
    }
  }

  /** What `validateField(field, value)` does to the error dictionary, with
      the form's current password and confirmation: keys of other fields
      are kept, and the field's own keys record whether its value fails. */
  ghost predicate FieldValidated(errors0: map<string, string>, errors: map<string, string>, field: string, value: string,
                           password: string, confirmPassword: string)
  {
    (forall k :: k != "email" && k != "password" && k != "confirmPassword" ==>
       (k in errors <==> k in errors0) && (k in errors ==> errors[k] == errors0[k])) &&
    (field != "email" && field != "password" && field != "confirmPassword" ==> errors == errors0) &&
    (field == "email" ==>
       ("email" in errors <==> value != [] && ValidateEmail(value).Invalid?) &&
       ("email" in errors ==> errors["email"] == ValidateEmail(value).message) &&
       errors - {"email"} == errors0 - {"email"}) &&
    (field == "password" ==>
       ("password" in errors <==> value != [] && ValidatePassword(value).Invalid?) &&
       ("password" in errors ==> errors["password"] == ValidatePassword(value).message) &&
       (confirmPassword != [] ==>
          ("confirmPassword" in errors <==> confirmPassword != value) &&
          ("confirmPassword" in errors ==> errors["confirmPassword"] == Mismatch)) &&
       (confirmPassword == [] ==> errors - {"password"} == errors0 - {"password"}) &&
       errors - {"password", "confirmPassword"} == errors0 - {"password", "confirmPassword"}) &&
    (field == "confirmPassword" ==>
       ("confirmPassword" in errors <==> value != password) &&
       ("confirmPassword" in errors ==> errors["confirmPassword"] == Mismatch) &&
       errors - {"confirmPassword"} == errors0 - {"confirmPassword"})
  }

  /** All three submit checks pass. */
  predicate PassesChecks(email: string, password: string, confirmPassword: string) {
    ValidateEmail(email).Valid? && ValidatePassword(password).Valid? && password == confirmPassword
  }

  /** `errors` holds exactly one entry per failing submit check, with that
      check's message. */
  predicate ReportsFailedChecks(errors: map<string, string>, email: string, password: string, confirmPassword: string) {
    ("email" in errors <==> ValidateEmail(email).Invalid?) &&
    ("email" in errors ==> errors["email"] == ValidateEmail(email).message) &&
    ("password" in errors <==> ValidatePassword(password).Invalid?) &&
    ("password" in errors ==> errors["password"] == ValidatePassword(password).message) &&
    ("confirmPassword" in errors <==> password != confirmPassword) &&
    ("confirmPassword" in errors ==> errors["confirmPassword"] == Mismatch) &&
    errors.Keys <= {"email", "password", "confirmPassword"}
  }

  /** The validation phase of submit: one entry per failing check, so the
      dictionary is empty exactly when all checks pass. */
  method CollectValidationErrors(email: string, password: string, confirmPassword: string)
    returns (validationErrors: map<string, string>)
    ensures ReportsFailedChecks(validationErrors, email, password, confirmPassword)
    ensures validationErrors == map[] <==> PassesChecks(email, password, confirmPassword)
  {
    var emailValidation := ValidateEmail(email);
    var passwordValidation := ValidatePassword(password);
    validationErrors := map[];
    if emailValidation.Invalid? {
      validationErrors := validationErrors["email" := MessageOf(emailValidation)];
    }
    if passwordValidation.Invalid? {
      validationErrors := validationErrors["password" := MessageOf(passwordValidation)];
    }
    if password != confirmPassword {
      validationErrors := validationErrors["confirmPassword" := Mismatch];
    }
  }

  /** How the provider's answer to `signUp` changes the page and the
      profiles table: errors become the dictionary, a pending confirmation
      shows the check-your-email state, and an automatic sign-in writes the
      profile as onboarded before moving to the dashboard. */
  predicate ReplyApplied(reply: SignUpReply, upsert: WriteOutcome,
                         rows0: map<string, Profile>, rows: map<string, Profile>,
                         navigations0: seq<string>, navigations: seq<string>,
                         toasts0: seq<Toast>, toasts: seq<Toast>,
                         emailSent0: bool, emailSent: bool,
                         errors: map<string, string>, success: bool)
  {
    match reply
    case SignUpError(message) =>
      errors == ProviderErrors(message) && !success && rows == rows0 && navigations == navigations0 &&
      toasts == toasts0 && emailSent == emailSent0
    case SignUpThrows =>
      errors == map["general" := UnexpectedError] && !success && rows == rows0 && navigations == navigations0 &&
      toasts == toasts0 && emailSent == emailSent0
    case SignedUp(user, session) =>
      errors == map[] &&
      (user.Some? && session.None? ==>
         success && emailSent && rows == rows0 && navigations == navigations0 && toasts == toasts0 + [CheckEmailToast]) &&
      (session.Some? ==>
         success && emailSent == emailSent0 && navigations == navigations0 + ["/dashboard"] &&
         toasts == toasts0 + [WelcomeToast] &&
         rows == (if user.Some? && upsert.WriteOk? then UpsertCompleted(rows0, user.value.id, user.value.email)
                  else rows0)) &&
      (user.None? && session.None? ==>
         !success && emailSent == emailSent0 && rows == rows0 && navigations == navigations0 && toasts == toasts0)
  }
}

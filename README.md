# Reforzo account, admin and contact flows in Dafny

This project models the client-side account flows of the Reforzo web
application and its secured assessment endpoint. The flows are sign-up,
onboarding, the dashboard, role-gated admin access, the chat widget and the
news page. It proves properties of that model. The modelled parts are:

- **the authentication hook** (`UseAuth`): one record `{user, session,
  loading, initializing}`. Provider events, the one-shot pull of the stored
  session and `signOut` rewrite it. The hook instance is a class with a
  run-once flag and a subscription.
- **the role hook** (`UseRoles`): the role query for the current user. Its
  rows are cast, not checked. `hasRole`, `isAdmin` and `isModerator` are
  derived from the list.
- **the admin route guard** (`AdminRouteGuard`): a pure decision between
  waiting, redirecting and rendering.
- **the validators** (`Validation`, with JavaScript's `\s`, `trim` and
  `includes` in `JsText`):
  - the email regular expression, proved equal to a left-to-right scan;
  - the ordered password checks and the six-point strength score;
  - the timing-based bot check.
- **the pages as state machines** (`Dashboard`, `Onboarding`, `Signup`,
  `ChatBot`):
  - each page's React state is a class with fields;
  - navigation and toasts are append-only logs;
  - every remote call's outcome is a parameter.
- **the profiles table** (`Profiles`): a map keyed by user id, with the
  `update` and `upsert` the pages issue.
- **the assessment endpoint** (`SendAssessmentSecure`):
  - the per-address fixed-window rate limiter (at most 3 requests per 15
    minutes);
  - the request-body type guard;
  - the handler's order of checks: method, then rate limit, then parse,
    then validation, then mail.
- **the news page** (`News`): the featured post, the remaining grid and the
  placeholder cards.

In several places the code does less than its names and comments suggest.
The model follows the code:

- The session pull overwrites the state whatever events came before it.
  `UseAuth.LateEmptyPullUndoesSignIn` shows that a late empty pull undoes a
  sign-in.
- A `SIGNED_IN` event does not clear `initializing`. Only the pull and
  `SIGNED_OUT` do.
- Role strings are cast, not filtered.
- The role hook does not raise `loading` again when the user changes, and it
  does not discard replies for an earlier user.
  `AdminRouteGuard.StaleReplyAdmitsNextUser` shows the consequence.
- The dashboard never creates a profile. A missing profile sends the user to
  onboarding.
- Sign-up's automatic sign-in path upserts a profile marked as onboarded.
- An onboarding update for a user without a profile row matches nothing,
  reports no error, and still moves on to the dashboard.
- The assessment endpoint counts a request against the address before it
  reads the body. A `null` JSON body fails at property access, which gives
  500, not 400.

## Model

| member | source | states |
|---|---|---|
| UseAuth.Updated | src/hooks/useAuth.tsx:23-31 | the new state holds the given session and its user and is not loading; `initializing` is cleared only on the initial pull and otherwise kept |
| UseAuth.AfterEvent | src/hooks/useAuth.tsx:38-56 | after any event the state is coherent and not loading, and `initializing` never turns back on; `SIGNED_OUT` resets to the empty state; any other event adopts the session and keeps `initializing` |
| UseAuth.AfterPull | src/hooks/useAuth.tsx:59-61 | the pull leaves a coherent, settled state holding exactly the session the store answered |
| UseAuth.AfterSignOutStart | src/hooks/useAuth.tsx:69-70 | sign-out raises `loading` and changes nothing else |
| UseAuth.AfterSignOutError | src/hooks/useAuth.tsx:72-75 | a provider error drops `loading` and keeps the user and session |
| UseAuth.RunPreserves | src/hooks/useAuth.tsx:23-76 | over any sequence of events, pulls and sign-outs, `user` stays the session's user and `initializing` never turns back on |
| UseAuth.ResolvedStaysResolved | src/hooks/useAuth.tsx:46-61 | once a pull or a `SIGNED_OUT` has run, `initializing` stays false for the rest of any run |
| UseAuth.RunAfterCleared | src/hooks/useAuth.tsx:23-76 | from a state that is no longer initializing, no sequence of steps makes it initializing again |
| UseAuth.LateEmptyPullUndoesSignIn | src/hooks/useAuth.tsx:38-61 | an empty pull after `SIGNED_IN` leaves no user, while the opposite order keeps the signed-in user |
| UseAuth.AuthController.constructor | src/hooks/useAuth.tsx:13-20 | a new hook is loading, initializing and empty, not set up and not subscribed |
| UseAuth.AuthController.IsAuthenticated | src/hooks/useAuth.tsx:84 | authenticated exactly when a user is present, and then a session for that user is held |
| UseAuth.AuthController.Setup | src/hooks/useAuth.tsx:33-61 | the effect runs only when the run-once flag is clear; it then subscribes and issues exactly one pull, without changing the auth state |
| UseAuth.AuthController.Teardown | src/hooks/useAuth.tsx:63-66 | cleanup unsubscribes and clears the flag together and leaves the auth state alone |
| UseAuth.AuthController.UpdateAuthState | src/hooks/useAuth.tsx:23-31 | the fields become `Updated` of the previous state |
| UseAuth.AuthController.ProviderEmits | src/hooks/useAuth.tsx:38-56 | an event changes the state as `AfterEvent` says while subscribed, and is ignored otherwise |
| UseAuth.AuthController.PullResolves | src/hooks/useAuth.tsx:59-61 | a pending pull answers: the state becomes `AfterPull` of the old one and one fewer pull is in flight |
| UseAuth.AuthController.BeginSignOut | src/hooks/useAuth.tsx:69-70 | sign-out raises `loading` before the provider call |
| UseAuth.AuthController.FinishSignOut | src/hooks/useAuth.tsx:71-75 | a provider error is rethrown with `loading` dropped; success changes nothing here |
| UseAuth.RemountResubscribes | src/hooks/useAuth.tsx:33-67 | tearing down and setting up again subscribes once more and issues one new pull |
| UseRoles.RoleColumn | src/hooks/useRoles.tsx:30 | the role list has one entry per row, in row order, with the row's string as is |
| UseRoles.Includes | src/hooks/useRoles.tsx:43-45 | true exactly when some entry equals the name |
| UseRoles.HasRole | src/hooks/useRoles.tsx:43-45 | true exactly when the role's name is in the list |
| UseRoles.IsAdmin | src/hooks/useRoles.tsx:47 | true exactly when `admin` is in the list; an empty list is never admin |
| UseRoles.IsModerator | src/hooks/useRoles.tsx:48 | true exactly when `moderator` is in the list; an empty list is never moderator |
| UseRoles.RoleResolver.constructor | src/hooks/useRoles.tsx:9-10 | a new hook has no roles and is loading |
| UseRoles.RoleResolver.FetchRoles | src/hooks/useRoles.tsx:12-38 | loading ends on every path; no user gives no roles and no query; the user's id is queried once; an error, an exception or null data give no roles; rows give their role column; without rows neither flag is set |
| AdminRouteGuard.AdminRoute | src/components/AdminRoute.tsx:11-39 | waits exactly while either hook loads; otherwise sends a missing user to `/login` with the unauthorized warning, sends a non-admin to `/dashboard` with a warning naming the user, and renders the children exactly for a signed-in admin |
| AdminRouteGuard.GuardAfterFailedFetch | src/hooks/useRoles.tsx:26-34 | after a role fetch that failed, the guard never renders the admin view, whoever the user is |
| AdminRouteGuard.GuardBeforeFirstFetch | src/hooks/useRoles.tsx:9-10 | before the first fetch completes, the guard waits instead of deciding |
| AdminRouteGuard.AdminRedirectedBeforeRolesArrive | src/hooks/useRoles.tsx:12-41 | the mount-time fetch without a user clears `loading` with no roles, so an admin who signs in is sent to `/dashboard` before the roles are fetched again |
| AdminRouteGuard.StaleReplyAdmitsNextUser | src/hooks/useRoles.tsx:12-41 | a reply fetched for the previous user that lists `admin` lets the next user through the guard |
| JsText.LeadingSpace | src/components/ChatBot.tsx:47 | counts exactly the leading white space: every counted character is white space and the next one is not |
| JsText.TrailingSpace | src/components/ChatBot.tsx:47 | counts exactly the trailing white space |
| JsText.Trim | src/components/ChatBot.tsx:47 | the result is an infix of the input with only white space around it, does not start or end with white space, and is empty exactly for all-white-space input |
| JsText.Includes | src/pages/Signup.tsx:132-136 | true exactly when the text occurs at some position |
| Validation.FirstAt | src/utils/validation.ts:14 | finds the first `@`, or reports that there is none |
| Validation.EmailShapedMatchesPattern | src/utils/validation.ts:14 | the left-to-right scan accepts exactly the language of the email regular expression |
| Validation.ShapedGivesPattern | src/utils/validation.ts:14 | an accepted scan yields the three runs the expression requires |
| Validation.PatternGivesShape | src/utils/validation.ts:14 | any split into the expression's three runs is accepted by the scan |
| Validation.ValidateEmail | src/utils/validation.ts:13-25 | an empty email is reported as missing; an email is valid exactly when it matches the expression; otherwise it is reported as malformed |
| Validation.ValidatePassword | src/utils/validation.ts:30-52 | valid exactly with 8 or more characters, an upper-case letter, a lower-case letter and a digit; otherwise the first failing check, in source order, gives the message |
| Validation.CountTrue | src/utils/validation.ts:61-68 | never more than the number of criteria |
| Validation.GetPasswordStrength | src/utils/validation.ts:57-73 | the score is the number of satisfied criteria, between 0 and 6; the level is weak up to 2, medium up to 4 and strong above; a valid password scores at least 4 and is never weak |
| Validation.DetectBot | src/utils/validation.ts:78-80 | a submission counts as a bot's exactly when it comes before `minTime` has elapsed since the form opened |
| Validation.DetectBotSettles | src/utils/validation.ts:78-80 | once a form passes the check it passes at every later time, and a later failure means every earlier time failed |
| Provider.UserOf | src/hooks/useAuth.tsx:27 | the user is present exactly when a session is, and is that session's user |
| Profiles.UpdateOnboarding | src/pages/Onboarding.tsx:57-66 | rewrites only the user's row with the four fields and the flag set; a missing row leaves the table as it was |
| Profiles.UpsertCompleted | src/pages/Signup.tsx:163-169 | the user's row exists afterwards, marked onboarded with the given email; an existing row keeps its other columns; other rows are unchanged |
| Profiles.ProfileTable.constructor | src/pages/Dashboard.tsx:13-20 | the table starts with the given rows |
| Profiles.ProfileTable.Update | src/pages/Onboarding.tsx:57-66 | a successful update applies `UpdateOnboarding`; a failed one changes nothing |
| Profiles.ProfileTable.Upsert | src/pages/Signup.tsx:163-169 | a successful upsert applies `UpsertCompleted`; a failed one changes nothing |
| Dashboard.FormatServices | src/pages/Dashboard.tsx:91-98 | succeeds exactly when every row has its joined service; each output has the subscription's id, date and status and the service's name, description and price, in row order |
| Dashboard.ProfileRedirect | src/pages/Dashboard.tsx:65-68 | stays exactly when a profile exists and is onboarded; otherwise goes to `/onboarding` |
| Dashboard.DashboardPage.constructor | src/pages/Dashboard.tsx:32-35 | a new page is loading, empty and holds no profile |
| Dashboard.DashboardPage.OnUser | src/pages/Dashboard.tsx:40-47 | no user goes to `/login` and changes nothing else; with a user, the data is fetched with the outcome `Fetched` describes (profile, services, error and navigation per query answer) and loading ends |
| Dashboard.DashboardPage.FetchUserData | src/pages/Dashboard.tsx:49-106 | no user changes nothing. With a user, `Fetched` holds: a profile error or an exception sets its message; a missing or unfinished profile goes to `/onboarding`; otherwise the profile is held; a services error is only logged; a null service or an exception sets the generic error; good rows become the formatted list. Loading ends on every path with a user, and the page never holds an unfinished profile |
| Dashboard.DashboardPage.HandleSignOut | src/pages/Dashboard.tsx:108-123 | on success, a success toast and a move to `/`; on a provider error, the error toast and no move; the hook's state follows its sign-out steps |
| Onboarding.PrefilledEmail | src/pages/Onboarding.tsx:31 | the user's email as it is (an empty one stays empty), or the empty string when there is none |
| Onboarding.OnboardingPage.constructor | src/pages/Onboarding.tsx:14-19 | the form starts empty, idle and without error |
| Onboarding.OnboardingPage.OnUser | src/pages/Onboarding.tsx:24-47 | no user goes to `/login`; otherwise the email is pre-filled, and the page moves to `/dashboard` exactly when the status query answered with a completed row |
| Onboarding.OnboardingPage.HandleSubmit | src/pages/Onboarding.tsx:49-82 | no user does nothing; otherwise the table receives the update only on success, and success toasts and moves to `/dashboard`; an error shows its message; an exception shows the generic message; loading ends |
| Signup.SubmitDisabled | src/pages/Signup.tsx:352 | the button is enabled exactly when the form is idle and the error dictionary is empty |
| Signup.ProviderErrors | src/pages/Signup.tsx:131-142 | a single entry: "already registered" maps to the general sign-in hint, a short-password error to the password entry, anything else to its own message |
| Signup.SignupForm.constructor | src/pages/Signup.tsx:17-30 | the form starts empty, idle and error-free, with the opening time recorded |
| Signup.SignupForm.OnAuthState | src/pages/Signup.tsx:32-36 | a signed-in user goes to `/dashboard` once the hook stops initializing, and not before |
| Signup.SignupForm.ValidateField | src/pages/Signup.tsx:39-78 | `FieldValidated`: only the named field's keys change. `email` and `password` carry an error exactly when the value is non-empty and invalid, with the validator's message. A confirmation mismatch is reported against the current password. Editing the password rechecks a non-empty confirmation |
| Signup.SignupForm.ChangeEmail | src/pages/Signup.tsx:270-272 | stores the value and updates the errors as `FieldValidated` for `email` says (a valid or empty value removes the key, other keys are kept); a non-empty invalid email disables submit |
| Signup.SignupForm.ChangePassword | src/pages/Signup.tsx:290-292 | stores the value and updates the errors as `FieldValidated` for `password` says, rechecking a non-empty confirmation; a non-empty invalid password, or a confirmation that no longer matches, disables submit |
| Signup.SignupForm.ChangeConfirmPassword | src/pages/Signup.tsx:321-323 | stores the value and updates the errors as `FieldValidated` for `confirmPassword` says; a confirmation that differs from the password disables submit |
| Signup.CollectValidationErrors | src/pages/Signup.tsx:94-110 | one entry per failing submit check, with that check's message; empty exactly when all checks pass |
| Signup.SignupForm.HandleSignUp | src/pages/Signup.tsx:80-181 | the bot check comes first and gives a single general error without calling the provider. Failing checks are all reported, again without a call. On both early exits the table, navigation, toasts and sent-email state are unchanged. Otherwise the provider is called once and its answer is applied. Loading ends on every path |
| Signup.SignupForm.ApplySignUpReply | src/pages/Signup.tsx:131-177 | errors and exceptions become the error dictionary. A pending confirmation shows the check-your-email state. An automatic sign-in toasts, upserts the profile as onboarded when the write succeeds, and moves to `/dashboard` |
| SendAssessmentSecure.RateLimitStep | supabase/functions/send-assessment-secure/index.ts:32-48 | an unseen address or an expired window opens a fresh window of one request. Inside the window, a request is admitted exactly while fewer than three were counted, and each admission counts one more. A refusal changes nothing. Other addresses are untouched and counts stay between 1 and 3 |
| SendAssessmentSecure.RateLimiter.constructor | supabase/functions/send-assessment-secure/index.ts:28 | the limiter starts with no entries |
| SendAssessmentSecure.RateLimiter.CheckRateLimit | supabase/functions/send-assessment-secure/index.ts:32-48 | the answer and the new map are those of `RateLimitStep` |
| SendAssessmentSecure.AdmittedWithinWindow | supabase/functions/send-assessment-secure/index.ts:28-48 | while an address's window is open, the limiter admits no more than that address has left, whatever other addresses send in between |
| SendAssessmentSecure.AtMostThreePerWindow | supabase/functions/send-assessment-secure/index.ts:29-48 | a window opened at some time admits at most three requests from that address until it closes |
| SendAssessmentSecure.ValidateInput | supabase/functions/send-assessment-secure/index.ts:50-62 | reading a property throws exactly for a `null` body; only an object can be accepted |
| SendAssessmentSecure.AsRequest | supabase/functions/send-assessment-secure/index.ts:50-62 | an accepted body reads as a request meeting every bound the guard checks, whose nine fields are exactly the body's |
| SendAssessmentSecure.AcceptsEveryBoundedRequest | supabase/functions/send-assessment-secure/index.ts:50-62 | any object carrying a request's nine fields within every bound, whatever other keys it has, is accepted and reads back as that request; with `AsRequest`, acceptance is exactly meeting the bounds |
| SendAssessmentSecure.ClientIp | supabase/functions/send-assessment-secure/index.ts:79 | a non-empty forwarded-for header wins, then a non-empty real-ip header, then `unknown`; the key is never empty |
| SendAssessmentSecure.Handle | supabase/functions/send-assessment-secure/index.ts:64-186 | `OPTIONS` gives the preflight and other non-POST methods give 405, neither touching the limiter. A POST is counted first and gives 429 when refused. After that, an unparsable or `null` body gives 500, an invalid one 400, and a valid one 200 unless mailing throws, which gives 500 |
| ChatBot.ReplyText | src/components/ChatBot.tsx:78 | a truthy response is shown as is, otherwise the fallback text; never empty |
| ChatBot.ReplyMessage | src/components/ChatBot.tsx:68-93 | an assistant message that is not the welcome: the reply text when the call answered without an error, the error text otherwise |
| ChatBot.CountsAppend | src/components/ChatBot.tsx:54-93 | appending a message adds one to the sent count or the reply count according to its role |
| ChatBot.ChatWidget.constructor | src/components/ChatBot.tsx:17-21 | the widget starts closed and empty, with no conversation and the session id it was mounted with |
| ChatBot.ChatWidget.SetOpen | src/components/ChatBot.tsx:33-37 | opening an empty chat seeds exactly the welcome message; anything else keeps the messages |
| ChatBot.ChatWidget.SetInput | src/components/ChatBot.tsx:110-112 | the input holds the typed or chosen text |
| ChatBot.ChatWidget.BeginSend | src/components/ChatBot.tsx:46-67 | a send happens exactly for non-blank input while idle. It appends the trimmed text as the user's message, clears the input, sets loading and sends the message with the session id and the current conversation id. Otherwise nothing changes |
| ChatBot.ChatWidget.CompleteSend | src/components/ChatBot.tsx:68-101 | exactly one reply is appended and loading ends. A failure also raises the error toast. A first truthy conversation id is kept and an existing one is never replaced. Each sent message keeps exactly one reply |
| ChatBot.ChatWidget.SendMessage | src/components/ChatBot.tsx:46-102 | `SendDone`: blank input changes nothing; otherwise the user's message and its reply are appended, the input is cleared, one request is sent, a failure toasts, and a first truthy conversation id is kept |
| ChatBot.ChatWidget.HandleKeyPress | src/components/ChatBot.tsx:103-108 | Enter without Shift sends as `SendDone` says; any other key leaves messages, input, requests, toasts and conversation id unchanged |
| News.FindById | src/pages/News.tsx:20 | the index of the first post with the id, or none exactly when no post has it |
| News.FeaturedPost | src/pages/News.tsx:20 | the first post with id `6` when there is one, otherwise the first post, and nothing only for an empty list |
| News.Without | src/pages/News.tsx:22 | keeps, in order, every post whose id differs and no other |
| News.OtherPosts | src/pages/News.tsx:22 | the grid is the list, in order, without the featured id; it never repeats the featured post and is shorter than the list |
| News.SubsequenceLength | src/pages/News.tsx:22 | a filtered list is never longer than the original |
| News.SubsequenceSameLength | src/pages/News.tsx:22 | a filtered list as long as the original is the original |
| News.PlaceholderCount | src/pages/News.tsx:117 | below four posts, enough placeholders to show four cards; none from four posts on |

## Left out

- Rendering, styling, SEO tags, scrolling, icons and the password-strength
  indicator are presentation. The redirects, messages and toasts the pages
  produce are modelled; what they draw is not.
- The Supabase client, the network, the clock and `Math.random` are
  parameters: query and call outcomes, `now`, whether mailing throws, and
  the chat widget's session id, drawn from the clock and `Math.random` at
  mount and passed to its constructor.
- Asynchrony is modelled as explicit steps. The auth hook splits into
  events and pull answers, and the chat send into `BeginSend` and
  `CompleteSend`. The roles fetch and the page loads run to completion in
  one call, so interleavings inside them are not modelled.
- Signup.SignupForm.HandleSignUp: the 1500 ms delay before the upsert and
  the redirect is not modelled. Both happen at once, so a page unmounted in
  between is not captured.
- Lengths are counted in Unicode code points (Dafny `char`), not UTF-16 code
  units, so `length` bounds can differ for characters outside the Basic
  Multilingual Plane.
- Service prices are integers, not floating point. Timestamps (`created_at`,
  `subscribed_at`) are opaque strings or clock readings.
- Profiles.UpsertCompleted: assumes the table merges on `user_id`. The
  conflict key is configured in the database, which is not part of this
  model.
- Sending the two notification emails through Resend, CORS headers and
  response headers are left out. Only whether mailing throws is modelled.
  The optional `additionalInfo` field is not validated by the source and is
  not modelled.
- Console logging and warnings are left out. The admin guard's warnings are
  kept as values on the decision.
- The show/hide password toggles, the onboarding form's field setters and
  the sign-up success screen are plain state setters or rendering.
- Onboarding: the page renders nothing without a user. Only the redirect to
  `/login` is modelled.
- The other pages and functions of the repository (landing pages, the
  admin panel, login, password reset, the chat function's server side, the
  older unsecured assessment function, the daily counter and performance
  hooks) are not part of this model.

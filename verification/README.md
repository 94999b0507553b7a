# clerk-ios core, modelled in Dafny

This project models four small, sequential pieces of the Clerk iOS SDK and proves
properties about them:

- **The Frontend API endpoint registry** (`APIEndpoint`). This is the `/v1` tree of
  client, environment, sign-up, sign-in and me endpoints. Each node's path is its
  parent's path plus a fixed segment or `"/" + id`. Each leaf fixes an HTTP method, an
  optional body, a response type and, for the two "get by id" requests, the single
  query key `rotating_token_nonce`. The module is `Endpoints` (`endpoints.dfy`).
- **The `Client` snapshot** (`ClientModel`, `client.dfy`). It covers:
  - the initialiser defaults;
  - how a payload decodes when a field is present, `null` or missing;
  - the `lastActiveSession` lookup;
  - the `get`, `create` and `destroy` verbs. Each is a transition of the shared client
    over an abstract transport outcome.
- **The sign-in form's decision logic** (`SignInForm`, `signin_form.dfy`). It covers:
  - the phone-toggle and default-to-phone predicates over the first-factor attribute keys;
  - the email/username label;
  - the entry mode under user events;
  - the identifier and password that Continue submits;
  - the order of the remote calls in `signInAction`;
  - the biometric button.
- **The third-party provider buttons** (`SocialProviders`, `social_providers.dfy`). It
  covers the provider order, the grid's column count and button style, the cancel/error
  policy of `signIn(provider:)`, and the `onSuccess(perform:)` builder.

The shared types are in `outcomes.dfy` (`Option`, the thrown `Error`s, `Outcome`).
`entities.dfy` holds the fields of `SignIn`, `SignUp` and `Session` that the modelled
code reads, plus an `id` on `SignIn` and `SignUp` so that a decoded record can differ
from the empty default.

Remote calls are function-valued parameters that either return a value or throw:
`Clerk.apiClient.send`, `SignIn.create`, `prepareFirstFactor`, `authenticateWithRedirect`,
and `startOAuth`. The local-authentication credential lookup is different: its
result is passed in as a plain value that either holds the credentials or the error. Each verb or action is one
atomic step that returns the new state together with the calls it made, in order.

Behaviour that follows the code rather than its documentation:

- `Client.destroy()` resets the shared client to `Client()` only after the DELETE request
  returns. If sending throws, the client is left unchanged (`Sources/FrontendAPI/Models/Client.swift:92-93`).
- The doc comment on the email-address `WithID` (`Sources/FrontendAPI/APIEndpoint.swift:250`)
  says `/v1/client/email_addresses/{id}`. The code builds `/v1/me/email_addresses/{id}`,
  and `Endpoints.EmailAddressUnderMe` proves that shape.
- Ids are interpolated into paths unescaped. So an id that ends in `/prepare_verification`
  names the same path as the nested action (`Endpoints.IdsAreNotEscaped`).
- The `.task` that sets the initial entry mode is keyed by the whole of `userSettings`.
  Any change to the settings therefore re-applies the default and discards a toggled
  choice. `SignInForm.Step` models that.

## Model

| member | source | states |
|---|---|---|
| Endpoints.Path | Sources/FrontendAPI/APIEndpoint.swift:15-29 | the root's path is "/v1" and every other node's path is its parent's path followed by its segment, so a path grows by at least one character per level |
| Endpoints.Segment | Sources/FrontendAPI/APIEndpoint.swift:87-89 | every node adds a segment that starts with "/"; an item's segment is "/" followed by the id exactly as given |
| Endpoints.PathUnderV1 | Sources/FrontendAPI/APIEndpoint.swift:15-16 | every endpoint path begins with "/v1", because the root is "/v1" and every child extends its parent |
| Endpoints.ParentPathIsStrictPrefix | Sources/FrontendAPI/APIEndpoint.swift:27-29 | a parent's path is a strict prefix of its child's path |
| Endpoints.AncestorPathIsStrictPrefix | Sources/FrontendAPI/APIEndpoint.swift:105-107 | the path of any ancestor, however far up, is a strict prefix of the descendant's path |
| Endpoints.RootIsAncestor | Sources/FrontendAPI/APIEndpoint.swift:14-29 | every node other than the root descends from the `/v1` root |
| Endpoints.PathAroundId | Sources/FrontendAPI/APIEndpoint.swift:154-156 | an item or item-action path is its collection's path, then "/" and the id, then a suffix fixed by the action alone |
| Endpoints.IdIsInjective | Sources/FrontendAPI/APIEndpoint.swift:87-89 | `id(_:)` is injective: two ids that give the same item or item-action path are the same id |
| Endpoints.IdsAreNotEscaped | Sources/FrontendAPI/APIEndpoint.swift:154-156 | the id is not escaped: an id that ends in an action segment gives the same path as that action on the shorter id |
| Endpoints.EncodeQuery | Sources/FrontendAPI/APIEndpoint.swift:96-98 | a nil value encodes to no query item; a present value to exactly one item with the given key and value |
| Endpoints.Target | Sources/FrontendAPI/APIEndpoint.swift:19-399 | every request leaf sits at a node the tree actually has (actions only on the items that declare them) |
| Endpoints.MethodOf | Sources/FrontendAPI/APIEndpoint.swift:35-45 | each leaf's method is the one in the flat per-leaf method table |
| Endpoints.BodyOf | Sources/FrontendAPI/APIEndpoint.swift:80-377 | a leaf sends a body exactly when its method is POST or PATCH, and that body is the leaf's parameters |
| Endpoints.QueryOf | Sources/FrontendAPI/APIEndpoint.swift:95-99 | only the two id-based gets build a query; it is empty exactly when the nonce is nil, and otherwise the single item rotating_token_nonce with the nonce |
| Endpoints.ResponseOf | Sources/FrontendAPI/APIEndpoint.swift:35-399 | `Void` exactly for the three item deletes, a bare environment only for the environment get, an optional client only for the client get, and a client envelope exactly for the three client requests; every other response carries the resource of the node it is sent to (sign-up, sign-in, user, email address, phone number or external account) |
| Endpoints.ToRequest | Sources/FrontendAPI/APIEndpoint.swift:95-99 | every request path starts with "/v1"; a request carries a body exactly when it is POST or PATCH; only the two id-based gets carry a query |
| Endpoints.CollectionPaths | Sources/FrontendAPI/APIEndpoint.swift:68-70 | the collection paths are /v1/client/sign_ups, /v1/client/sign_ins, and /v1/me/email_addresses, /phone_numbers and /external_accounts |
| Endpoints.ItemPaths | Sources/FrontendAPI/APIEndpoint.swift:121-123 | an item's path is the collection path, "/" and the id; an action's path appends its fixed segment to that |
| Endpoints.PathsMatchTable | Sources/FrontendAPI/APIEndpoint.swift:14-399 | the path the hierarchical construction builds for each of the 28 request leaves equals the flat table of exact paths |
| Endpoints.SignInAttemptAndSignUpPreparePaths | Sources/FrontendAPI/APIEndpoint.swift:190-192 | the sign-in attempt path is "/v1/client/sign_ins/" + id + "/attempt_first_factor" and the sign-up prepare path is "/v1/client/sign_ups/" + id + "/prepare_verification" |
| Endpoints.MethodTable | Sources/FrontendAPI/APIEndpoint.swift:35-399 | every request's method is the flat table's; PUT only for the client put, PATCH only for the user update, DELETE exactly for the four deletes, POST exactly for the five creates and eight prepare/attempt leaves with the params as body, GET exactly for the nine gets and with no body |
| Endpoints.GetByIdQuery | Sources/FrontendAPI/APIEndpoint.swift:162-166 | the id-based gets attach only rotating_token_nonce with the value params?.rotatingTokenNonce; nil params and a nil nonce give the same request |
| Endpoints.EmailAddressUnderMe | Sources/FrontendAPI/APIEndpoint.swift:245-259 | the email-address item path is under /v1/me/email_addresses/ and not under /v1/client; its delete uses the same path and the DELETE method, and decodes no body |
| ClientModel.DecodeIfPresent | Sources/FrontendAPI/Models/Client.swift:48 | `decodeIfPresent` gives a value exactly when the field is present, and nil for both null and missing |
| ClientModel.DecodeRequired | Sources/FrontendAPI/Models/Client.swift:47 | `decode` succeeds exactly on a present field; a missing key throws keyNotFound and a null throws valueNotFound |
| ClientModel.Decode | Sources/FrontendAPI/Models/Client.swift:40-49 | decoding fails exactly when sessions is missing or null; a null or missing signIn/signUp becomes the default; lastActiveSessionId is the decoded string when present and nil otherwise |
| ClientModel.DecodeWireOf | Sources/FrontendAPI/Models/Client.swift:40-49 | every client decodes back to itself from its fully spelled-out payload |
| ClientModel.DecodeIsNormalising | Sources/FrontendAPI/Models/Client.swift:43-45 | the result of a decode is a fixed point of re-encoding and decoding |
| ClientModel.NullAndAbsentDecodeAlike | Sources/FrontendAPI/Models/Client.swift:43-48 | a null and a missing signIn, signUp or lastActiveSessionId decode alike |
| ClientModel.FirstIndexWithId | Sources/FrontendAPI/Models/Client.swift:55 | finds the first session whose id equals the given id, or reports that none does; a nil id matches nothing |
| ClientModel.LastActiveSession | Sources/FrontendAPI/Models/Client.swift:54-56 | lastActiveSession is the first session whose id equals lastActiveSessionId, and nil when that id is nil or matches no session |
| ClientModel.EmptyClientHasNoActiveSession | Sources/FrontendAPI/Models/Client.swift:16-26 | `Client()` has no sessions, a nil lastActiveSessionId, the default sign-in and sign-up, and no active session |
| ClientModel.Get | Sources/FrontendAPI/Models/Client.swift:64-71 | get sends exactly the registry's client get (GET /v1/client, no query, an optional-client envelope); on success the client becomes the response, or `Client()` for a nil response; a thrown error leaves it unchanged |
| ClientModel.Create | Sources/FrontendAPI/Models/Client.swift:75-82 | create sends exactly the registry's client put (PUT /v1/client, no query, a client envelope) and replaces the client wholesale with the response; a thrown error leaves it unchanged |
| ClientModel.Destroy | Sources/FrontendAPI/Models/Client.swift:86-94 | destroy sends exactly the registry's client delete (DELETE /v1/client, no query, a client envelope) and resets the client to `Client()` only when the send returns; a thrown error leaves it unchanged |
| ClientModel.VerbsReplaceWholeValue | Sources/FrontendAPI/Models/Client.swift:64-93 | a verb that returns leaves a client that does not depend on the previous one; a verb that throws leaves the previous one as it was |
| ClientModel.RunEndsWithLastSuccess | Sources/FrontendAPI/Models/Client.swift:64-93 | after a sequence of verbs the client is the one left by the last verb that returned, or the starting client if every verb threw |
| ClientModel.DestroyClearsSessions | Sources/FrontendAPI/Models/Client.swift:84-94 | a successful destroy leaves no sessions and no last active session, whatever the client held before |
| SignInForm.ShowPhoneNumberToggle | Sources/UI/Components/Auth/SignIn/SignInFormView.swift:31-36 | the toggle shows exactly when (email_address or username) and phone_number are first-factor keys; never without an environment |
| SignInForm.ShouldDefaultToPhoneNumber | Sources/UI/Components/Auth/SignIn/SignInFormView.swift:39-44 | defaults to phone exactly when phone_number is a key and neither email_address nor username is; never without an environment; never together with the toggle |
| SignInForm.Join | Sources/UI/Components/Auth/SignIn/SignInFormView.swift:56 | `joined(separator:)` puts one separator between neighbouring parts and none at the ends: its length is the parts' total plus one separator per gap, it starts with the first part, and two parts give first + separator + second |
| SignInForm.EmailOrUsernameLabel | Sources/UI/Components/Auth/SignIn/SignInFormView.swift:46-58 | the label is "email address or username", "email address", "username" or "", according to which keys are enabled, with email address first |
| SignInForm.LabelDecidesPhoneMode | Sources/UI/Components/Auth/SignIn/SignInFormView.swift:31-58 | with phone numbers enabled, the toggle shows exactly when the label is non-empty, and the form defaults to phone exactly when it is empty |
| SignInForm.NoPhoneNoPhoneMode | Sources/UI/Components/Auth/SignIn/SignInFormView.swift:31-44 | without phone_number, neither the toggle nor the phone default applies |
| SignInForm.InitialDisplayingEmailOrUsername | Sources/UI/Components/Auth/SignIn/SignInFormView.swift:155-157 | the entry starts as email/username exactly when the form does not default to phone; it always does so when the toggle is offered |
| SignInForm.Appear | Sources/UI/Components/Auth/SignIn/SignInFormView.swift:155-157 | a form that has just appeared holds the current environment and the given field texts, and shows the email/username entry exactly when the form does not default to phone, so always when the toggle is offered |
| SignInForm.Step | Sources/UI/Components/Auth/SignIn/SignInFormView.swift:69-157 | a change of the user settings re-runs the task and resets the entry to !shouldDefaultToPhoneNumber; an unchanged environment changes nothing; a tap flips the entry exactly when the toggle is shown; only these two events change the entry, and each edit stores its text in its own field and changes no other |
| SignInForm.StepKeepsModeConsistent | Sources/UI/Components/Auth/SignIn/SignInFormView.swift:69-80 | the toggle button is the only way to flip the entry, and it is present only when the toggle is offered, so one event keeps the entry consistent with the environment |
| SignInForm.RunKeepsModeConsistent | Sources/UI/Components/Auth/SignIn/SignInFormView.swift:155-157 | whatever the user does, without the toggle the shown entry is the one the environment dictates |
| SignInForm.SubmittedStrategy | Sources/UI/Components/Auth/SignIn/SignInFormView.swift:121-125 | Continue sends the email/username field when that entry is shown and the phone field otherwise; the password is nil exactly when its field is empty |
| SignInForm.SubmissionFollowsEnvironment | Sources/UI/Components/Auth/SignIn/SignInFormView.swift:120-126 | in a phone-only environment Continue always sends the phone field; with an environment that has no phone numbers it always sends the email/username field |
| SignInForm.PrepareStrategyFor | Sources/UI/Components/Auth/SignIn/SignInFormView.swift:165 | the optional chain gives no prepare strategy when there is no sign-in or no current first factor, and otherwise the factor's prepare strategy |
| SignInForm.NeedsRedirect | Sources/UI/Components/Auth/SignIn/SignInFormView.swift:170 | the redirect condition, read through the optional chains, holds exactly when there is a sign-in whose verification is unverified and has a redirect URL |
| SignInForm.SignInAction | Sources/UI/Components/Auth/SignIn/SignInFormView.swift:160-179 | create first; prepare only if a prepare strategy exists; redirect only after a prepare that left an unverified verification with a redirect URL; each call is made at most once, so the trace is create plus one entry per later step reached; the auth step is set once, last, exactly when nothing threw, with the sign-in left by the last call made; otherwise the first error is recorded and nothing after it is called |
| SignInForm.LocalAuthAction | Sources/UI/Components/Auth/SignIn/SignInFormView.swift:135-151 | a failed credential lookup is recorded and nothing is sent; otherwise the result is exactly that of signInAction with the stored identifier and password |
| SignInForm.LocalAuthAgreesWithContinue | Sources/UI/Components/Auth/SignIn/SignInFormView.swift:136-139 | with a non-empty password the biometric button acts as Continue with the same fields; with an empty one it sends an empty password where Continue sends none |
| SocialProviders.Insert | Sources/UI/Components/Auth/SignIn/SignInSocialProvidersView.swift:19 | inserting into a sorted list keeps it sorted and adds exactly the one element |
| SocialProviders.SortedProviders | Sources/UI/Components/Auth/SignIn/SignInSocialProvidersView.swift:18-20 | the providers are shown in ascending order, each exactly as often as it is enabled |
| SocialProviders.SortedOrderIsUnique | Sources/UI/Components/Auth/SignIn/SignInSocialProvidersView.swift:18-20 | when no two distinct listed providers share a rank, two sorted lists with the same contents are the same list |
| SocialProviders.SortingForgetsInputOrder | Sources/UI/Components/Auth/SignIn/SignInSocialProvidersView.swift:19 | when no two distinct enabled providers share a rank, the buttons' order does not depend on the order in which the environment lists the providers |
| SocialProviders.ColumnCount | Sources/UI/Components/Auth/SignIn/SignInSocialProvidersView.swift:30 | the grid has one column for 1 or 2 providers, n columns for 3 to 6, and 6 beyond that; it never exceeds n or 6 |
| SocialProviders.ButtonStyleFor | Sources/UI/Components/Auth/SignIn/SignInSocialProvidersView.swift:30-39 | the buttons are regular exactly when there are at most two providers, which is exactly when the grid has at most one column (none for no providers); compact buttons sit in at least three columns |
| SocialProviders.WithOnSuccess | Sources/UI/Components/Auth/SignIn/SignInSocialProvidersView.swift:68-72 | `onSuccess(perform:)` returns a copy with only the handler replaced |
| SocialProviders.LastHandlerWins | Sources/UI/Components/Auth/SignIn/SignInSocialProvidersView.swift:68-72 | chaining the builder keeps only the last handler |
| SocialProviders.SignInWith | Sources/UI/Components/Auth/SignIn/SignInSocialProvidersView.swift:49-63 | create(.oauth) comes first and is made once; startOAuth runs once, second, and only after create succeeds; onSuccess runs once, last and only when both succeeded; a cancelled login leaves errorWrapper alone; any other error is recorded |
| SocialProviders.CancelLeavesViewUnchanged | Sources/UI/Components/Auth/SignIn/SignInSocialProvidersView.swift:55-58 | a cancelled login, at either step, leaves the error state as it was and never calls onSuccess |

## Left out

- ClientModel.FirstIndexWithId: compares session ids as exact character sequences, while
  Swift's `String ==` also equates canonically equivalent Unicode strings (a precomposed
  and a decomposed accent). Server-issued ids are ASCII tokens, where the two agree.
- ClientModel.LastActiveSession: inherits the exact comparison of `FirstIndexWithId`, so
  an id that differs from a session's id only by Unicode normalisation finds no session.
- SwiftUI rendering is not modelled: layout, transitions, animations, theming, focus
  handling, `clerkErrorPresenting`, and `capitalizedSentence` on the labels.
  `AuthView.swift` (a step-to-view switch with animation), `SecuredByClerkView.swift`
  and the example app are left out for the same reason.
- `KeyboardHelpers.dismissKeyboard()` is a UIKit side effect with no bearing on state.
  It is not part of the call traces.
- `dump(error)` after recording an error (`SignInFormView.swift:178`,
  `SignInSocialProvidersView.swift:61`) only writes to the console, so it is not modelled.
- The grid's rows are laid out by `LazyVGrid`, which receives only the column count.
  Row flow is SwiftUI layout and is not modelled.
- Network transport (`Clerk.apiClient.send` from the Get library) is a parameter that
  returns a value or throws. The `ClientResponse` envelope, and the client it carries
  back for other requests, are not modelled beyond naming the response type.
- `URLQueryEncoder` is taken to emit nothing for a nil value and one item for a present
  value (`Endpoints.EncodeQuery`). It is library code and is not part of this model.
- JSON decoding is modelled only at the level of a field being present, null or missing.
  The decoding of `SignIn`, `SignUp` and `Session` themselves is not part of this model.
- `async`/`@MainActor` scheduling is not modelled: each verb and action is one atomic step.
- Code that is not part of this model becomes a parameter:
  - the bodies of `SignIn.create`, `prepareFirstFactor`, `authenticateWithRedirect` and
    `startOAuth`;
  - `setAuthStepToCurrentStatus`, which is recorded as a call with its argument;
  - `Clerk.LocalAuth` and `ASWebAuthenticationSession`.
- `SignIn()` and `SignUp()` defaults are taken to have every field absent. Their source
  is not part of this model.
- `SignInForm.LocalAuthAction` does not model the `displayLocalAuthOption` gate. It only
  decides whether the button exists. It also takes the stored password to be a plain
  string.
- `SignInForm.PrepareStrategyFor` takes `strategyEnum?.signInPrepareStrategy` as a
  parameter of the backend. The strategy table is not part of this model.
- `SocialProviders.SortedProviders` takes the `Comparable` order of `OAuthProvider` as a
  rank function. Swift's `sorted()` is then modelled as an insertion sort. When no two
  distinct enabled providers share a rank, every correct sort gives the same list, so
  the choice of algorithm does not matter (`SocialProviders.SortedOrderIsUnique`).
- Server-side rules, such as single use of the rotating nonce or verification
  monotonicity, are not modelled. No code here enforces them.

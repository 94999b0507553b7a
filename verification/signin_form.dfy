/** The decision logic of the sign-in form, with the SwiftUI stripped away:
    which identifier entry is shown, the label of the email/username field,
    the strategy the Continue button submits, and the ordering of the remote
    calls in `signInAction`. */
module SignInForm {
  import opened Outcomes
  import opened Entities

  /** The instance's `userSettings` as the form sees them: the keys of
      `firstFactorAttributes`, which the predicates read, and the rest of the
      settings, which matter only because the whole value identifies the
      form's `.task`. */
  datatype Environment = Environment(firstFactorAttributes: set<string>, otherSettings: string)

  const EmailAddressKey := "email_address"
  const UsernameKey := "username"
  const PhoneNumberKey := "phone_number"

  /** The environment is loaded and lists `key` as a first-factor attribute. */
  predicate Enabled(env: Option<Environment>, key: string) {
    env.Some? && key in env.value.firstFactorAttributes
  }

  /** `showPhoneNumberToggle`: email address or username is enabled, and so
      is phone number. False while no environment is loaded. */
  function ShowPhoneNumberToggle(env: Option<Environment>): (r: bool)
    ensures r <==> (Enabled(env, EmailAddressKey) || Enabled(env, UsernameKey)) && Enabled(env, PhoneNumberKey)
    ensures env.None? ==> !r
  {
    match env
    case None => false
    case Some(e) =>
      (EmailAddressKey in e.firstFactorAttributes || UsernameKey in e.firstFactorAttributes) &&
      PhoneNumberKey in e.firstFactorAttributes
  }

  /** `shouldDefaultToPhoneNumber`: phone number is enabled and neither email
      address nor username is. False while no environment is loaded. */
  function ShouldDefaultToPhoneNumber(env: Option<Environment>): (r: bool)
    ensures r <==> Enabled(env, PhoneNumberKey) && !Enabled(env, EmailAddressKey) && !Enabled(env, UsernameKey)
    ensures env.None? ==> !r
    ensures r ==> !ShowPhoneNumberToggle(env)
  {
    match env
    case None => false
    case Some(e) =>
      PhoneNumberKey in e.firstFactorAttributes &&
      (EmailAddressKey !in e.firstFactorAttributes && UsernameKey !in e.firstFactorAttributes)
  }

  /** The summed length of the parts. */
  function TotalLength(parts: seq<string>): nat
    decreases |parts|
  {
    if |parts| == 0 then 0 else |parts[0]| + TotalLength(parts[1..])
  }

  /** Swift's `joined(separator:)`: the parts in order with one separator
      between neighbours and none at either end. */
  function Join(parts: seq<string>, separator: string): (r: string)
    ensures |parts| == 0 ==> r == ""
    ensures |parts| == 1 ==> r == parts[0]
    ensures |parts| > 0 ==> |r| == TotalLength(parts) + (|parts| - 1) * |separator|
    ensures |parts| > 0 ==> parts[0] <= r
    ensures |parts| == 2 ==> r == parts[0] + separator + parts[1]
    decreases |parts|
  {
    if |parts| == 0 then ""
    else if |parts| == 1 then parts[0]
    else parts[0] + separator + Join(parts[1..], separator)
  }

  /** The components of the label, "email address" before "username". */
  function LabelComponents(env: Option<Environment>): seq<string> {
    (if Enabled(env, EmailAddressKey) then ["email address"] else []) +
    (if Enabled(env, UsernameKey) then ["username"] else [])
  }

  /** `emailOrUsernameLabel`: the enabled ones of "email address" and
      "username", in that order, joined by " or "; empty when neither is. */
  function EmailOrUsernameLabel(env: Option<Environment>): (r: string)
    ensures r == "" <==> !Enabled(env, EmailAddressKey) && !Enabled(env, UsernameKey)
    ensures Enabled(env, EmailAddressKey) && Enabled(env, UsernameKey) ==> r == "email address or username"
    ensures Enabled(env, EmailAddressKey) && !Enabled(env, UsernameKey) ==> r == "email address"
    ensures !Enabled(env, EmailAddressKey) && Enabled(env, UsernameKey) ==> r == "username"
  {
    var parts := LabelComponents(env);
    assert |parts| == 2 ==> parts == ["email address", "username"];
    assert |parts| == 2 ==> Join(parts, " or ") == "email address" + " or " + "username";
    Join(parts, " or ")
  }

  /** The label and the two predicates agree: with an environment that
      enables phone numbers, the toggle is shown exactly when the label is
      non-empty and the form defaults to phone exactly when it is empty. */
  lemma LabelDecidesPhoneMode(env: Option<Environment>)
    requires Enabled(env, PhoneNumberKey)
    ensures ShowPhoneNumberToggle(env) <==> EmailOrUsernameLabel(env) != ""
    ensures ShouldDefaultToPhoneNumber(env) <==> EmailOrUsernameLabel(env) == ""
  {
  }

  /** Without phone numbers enabled neither predicate holds, whatever the
      label says. */
  lemma NoPhoneNoPhoneMode(env: Option<Environment>)
    requires !Enabled(env, PhoneNumberKey)
    ensures !ShowPhoneNumberToggle(env) && !ShouldDefaultToPhoneNumber(env)
  {
  }

  // ---------------------------------------------------------------------
  // The entry mode and the fields

  /** The `@State` and `Config` values the form's logic reads. */
  datatype FormState = FormState(
    environment: Option<Environment>,
    displayingEmailOrUsernameEntry: bool,
    emailAddressOrUsername: string,
    phoneNumber: string,
    password: string)

  /** The `.task(id: userSettings)` rule: the email/username entry is shown
      exactly when the form does not default to phone. */
  function InitialDisplayingEmailOrUsername(env: Option<Environment>): (r: bool)
    ensures r <==> !ShouldDefaultToPhoneNumber(env)
    ensures !r ==> Enabled(env, PhoneNumberKey)
    ensures ShowPhoneNumberToggle(env) ==> r
  {
    !ShouldDefaultToPhoneNumber(env)
  }

  /** The form as it appears: the task runs once with the current
      environment. */
  function Appear(env: Option<Environment>, emailOrUsername: string, phone: string, password: string): (s: FormState)
    ensures ModeConsistent(s)
    ensures ShowPhoneNumberToggle(env) ==> s.displayingEmailOrUsernameEntry
    ensures s.environment == env
    ensures s.emailAddressOrUsername == emailOrUsername && s.phoneNumber == phone && s.password == password
  {
    FormState(env, InitialDisplayingEmailOrUsername(env), emailOrUsername, phone, password)
  }

  /** What can happen to the form between two submissions. */
  datatype FormEvent =
    | EnvironmentChanged(env: Option<Environment>)
    | TapToggle
    | EditEmailOrUsername(text: string)
    | EditPhoneNumber(text: string)
    | EditPassword(text: string)

  /** One event. Any change of the user settings re-runs the task; the toggle button
      exists only when `showPhoneNumberToggle` holds. */
  function Step(s: FormState, e: FormEvent): (r: FormState)
    ensures e.EnvironmentChanged? ==> r.environment == e.env
    ensures e.EnvironmentChanged? && e.env != s.environment ==>
      r.displayingEmailOrUsernameEntry == !ShouldDefaultToPhoneNumber(e.env)
    ensures e.EnvironmentChanged? && e.env == s.environment ==> r == s
    ensures e.TapToggle? ==>
      (r.displayingEmailOrUsernameEntry != s.displayingEmailOrUsernameEntry <==> ShowPhoneNumberToggle(s.environment))
    ensures r.displayingEmailOrUsernameEntry != s.displayingEmailOrUsernameEntry ==> e.TapToggle? || e.EnvironmentChanged?
    ensures !e.EnvironmentChanged? ==> r.environment == s.environment
    ensures r.password != s.password ==> e.EditPassword?
    ensures r.emailAddressOrUsername != s.emailAddressOrUsername ==> e.EditEmailOrUsername?
    ensures r.phoneNumber != s.phoneNumber ==> e.EditPhoneNumber?
    ensures e.EditEmailOrUsername? ==> r.emailAddressOrUsername == e.text
    ensures e.EditPhoneNumber? ==> r.phoneNumber == e.text
    ensures e.EditPassword? ==> r.password == e.text
  {
    match e
    case EnvironmentChanged(env) =>
      if env == s.environment then s
      else s.(environment := env, displayingEmailOrUsernameEntry := InitialDisplayingEmailOrUsername(env))
    case TapToggle =>
      if ShowPhoneNumberToggle(s.environment)
      then s.(displayingEmailOrUsernameEntry := !s.displayingEmailOrUsernameEntry)
      else s
    case EditEmailOrUsername(t) => s.(emailAddressOrUsername := t)
    case EditPhoneNumber(t) => s.(phoneNumber := t)
    case EditPassword(t) => s.(password := t)
  }

  function Run(s: FormState, events: seq<FormEvent>): FormState
    decreases |events|
  {
    if |events| == 0 then s else Run(Step(s, events[0]), events[1..])
  }

  /** Unless the toggle is offered, the entry shown is the one the
      environment dictates. */
  ghost predicate ModeConsistent(s: FormState) {
    !ShowPhoneNumberToggle(s.environment) ==>
      s.displayingEmailOrUsernameEntry == InitialDisplayingEmailOrUsername(s.environment)
  }

  lemma StepKeepsModeConsistent(s: FormState, e: FormEvent)
    requires ModeConsistent(s)
    ensures ModeConsistent(Step(s, e))
  {
  }

  /** However the user taps and types, the entry mode stays consistent with
      the environment. */
  lemma {:induction false} RunKeepsModeConsistent(s: FormState, events: seq<FormEvent>)
    requires ModeConsistent(s)
    ensures ModeConsistent(Run(s, events))
    decreases |events|
  {
    if |events| > 0 {
      StepKeepsModeConsistent(s, events[0]);
      RunKeepsModeConsistent(Step(s, events[0]), events[1..]);
    }
  }

  /** `SignIn.CreateStrategy`, as far as the modelled views build it. */
  datatype CreateStrategy = Identifier(identifier: string, password: Option<string>)

  /** The strategy the Continue button submits: the identifier is the
      email/username field when that entry is shown and the phone field
      otherwise; an empty password is sent as nil. */
  function SubmittedStrategy(s: FormState): (r: CreateStrategy)
    ensures s.displayingEmailOrUsernameEntry ==> r.identifier == s.emailAddressOrUsername
    ensures !s.displayingEmailOrUsernameEntry ==> r.identifier == s.phoneNumber
    ensures r.password.None? <==> s.password == ""
    ensures r.password.Some? ==> r.password.value == s.password
  {
    Identifier(
      if s.displayingEmailOrUsernameEntry then s.emailAddressOrUsername else s.phoneNumber,
      if s.password == "" then None else Some(s.password))
  }

  /** Where only phone numbers are enabled, every submission sends the phone
      field; where phone numbers are not enabled, it always sends the
      email/username field. */
  lemma SubmissionFollowsEnvironment(
    env: Option<Environment>, emailOrUsername: string, phone: string, password: string,
    events: seq<FormEvent>)
    ensures var s := Run(Appear(env, emailOrUsername, phone, password), events);
      ShouldDefaultToPhoneNumber(s.environment) ==> SubmittedStrategy(s).identifier == s.phoneNumber
    ensures var s := Run(Appear(env, emailOrUsername, phone, password), events);
      !Enabled(s.environment, PhoneNumberKey) ==>
        SubmittedStrategy(s).identifier == s.emailAddressOrUsername
  {
    RunKeepsModeConsistent(Appear(env, emailOrUsername, phone, password), events);
  }

  // ---------------------------------------------------------------------
  // signInAction

  /** The strategy `prepareFirstFactor(for:)` is called with. */
  datatype PrepareStrategy = PrepareStrategy(name: string)

  /** The remote operations `signInAction` depends on, each returning the
      sign-in the form reads afterwards (`clerk.client?.signIn`) or throwing.
      `prepareStrategyOf` stands for `strategyEnum?.signInPrepareStrategy`. */
  datatype Backend = Backend(
    create: CreateStrategy -> Outcome<Option<SignIn>>,
    prepareFirstFactor: (SignIn, PrepareStrategy) -> Outcome<Option<SignIn>>,
    authenticateWithRedirect: SignIn -> Outcome<Option<SignIn>>,
    prepareStrategyOf: Factor -> Option<PrepareStrategy>)

  /** The calls `signInAction` makes, in order. */
  datatype Call =
    | CreateCall(strategy: CreateStrategy)
    | PrepareCall(prepareStrategy: PrepareStrategy)
    | RedirectCall
    | SetAuthStep(signIn: Option<SignIn>)

  /** The calls made and the form's `errorWrapper` afterwards. */
  datatype ActionResult = ActionResult(calls: seq<Call>, errorWrapper: Option<Error>)

  /** `signIn?.currentFirstFactor?.strategyEnum?.signInPrepareStrategy`. */
  function PrepareStrategyFor(signIn: Option<SignIn>, b: Backend): (r: Option<PrepareStrategy>)
    ensures signIn.None? ==> r.None?
    ensures signIn.Some? && signIn.value.currentFirstFactor.None? ==> r.None?
    ensures r.Some? ==> signIn.Some? && signIn.value.currentFirstFactor.Some?
    ensures r.Some? ==> b.prepareStrategyOf(signIn.value.currentFirstFactor.value) == r
    ensures signIn.Some? && signIn.value.currentFirstFactor.Some? ==>
      r == b.prepareStrategyOf(signIn.value.currentFirstFactor.value)
  {
    if signIn.Some? && signIn.value.currentFirstFactor.Some?
    then b.prepareStrategyOf(signIn.value.currentFirstFactor.value)
    else None
  }

  /** `signIn?.firstFactorVerification?.status`: nil at the first nil link. */
  function StatusChain(signIn: Option<SignIn>): Option<VerificationStatus> {
    match signIn
    case None => None
    case Some(s) =>
      match s.firstFactorVerification
      case None => None
      case Some(v) => v.status
  }

  /** `signIn?.firstFactorVerification?.externalVerificationRedirectUrl`. */
  function RedirectUrlChain(signIn: Option<SignIn>): Option<string> {
    match signIn
    case None => None
    case Some(s) =>
      match s.firstFactorVerification
      case None => None
      case Some(v) => v.externalVerificationRedirectUrl
  }

  /** The redirect condition, `status == .unverified` and a non-nil
      redirect URL, read through the optional chains: it holds exactly when
      there is a sign-in with a verification that is unverified and carries
      an external redirect URL. */
  function NeedsRedirect(signIn: Option<SignIn>): (r: bool)
    ensures r <==>
      && signIn.Some?
      && signIn.value.firstFactorVerification.Some?
      && signIn.value.firstFactorVerification.value.status == Some(Unverified)
      && signIn.value.firstFactorVerification.value.externalVerificationRedirectUrl.Some?
  {
    StatusChain(signIn) == Some(Unverified) && RedirectUrlChain(signIn).Some?
  }

  predicate CalledPrepare(r: ActionResult) {
    exists i :: 0 <= i < |r.calls| && r.calls[i].PrepareCall?
  }

  predicate CalledRedirect(r: ActionResult) {
    exists i :: 0 <= i < |r.calls| && r.calls[i] == RedirectCall
  }

  predicate SetStep(r: ActionResult) {
    exists i :: 0 <= i < |r.calls| && r.calls[i].SetAuthStep?
  }

  /** None of the calls `signInAction` makes throws: create succeeds, and
      where a prepare strategy exists prepare succeeds, and where its result
      asks for a redirect the redirect succeeds. */
  predicate NothingThrown(strategy: CreateStrategy, b: Backend) {
    && b.create(strategy).Ok?
    && var s1 := b.create(strategy).value;
    && (PrepareStrategyFor(s1, b).Some? ==>
         && b.prepareFirstFactor(s1.value, PrepareStrategyFor(s1, b).value).Ok?
         && var s2 := b.prepareFirstFactor(s1.value, PrepareStrategyFor(s1, b).value).value;
         NeedsRedirect(s2) ==> b.authenticateWithRedirect(s2.value).Ok?)
  }

  /** The error of the first call that throws, in call order. */
  function FirstThrown(strategy: CreateStrategy, b: Backend): Error
    requires !NothingThrown(strategy, b)
  {
    if b.create(strategy).Fail? then b.create(strategy).error
    else
      var s1 := b.create(strategy).value;
      var s2 := b.prepareFirstFactor(s1.value, PrepareStrategyFor(s1, b).value);
      if s2.Fail? then s2.error
      else b.authenticateWithRedirect(s2.value.value).error
  }

  /** The sign-in `clerk.client?.signIn` holds after the last call of a run
      in which nothing threw: the result of the redirect if one ran, else of
      prepare if it ran, else of create. */
  function LatestSignIn(strategy: CreateStrategy, b: Backend): Option<SignIn>
    requires NothingThrown(strategy, b)
  {
    var s1 := b.create(strategy).value;
    match PrepareStrategyFor(s1, b)
    case None => s1
    case Some(ps) =>
      var s2 := b.prepareFirstFactor(s1.value, ps).value;
      if NeedsRedirect(s2) then b.authenticateWithRedirect(s2.value).value else s2
  }

  /** `signInAction(strategy:)`: create, then prepare only if the current
      first factor has a prepare strategy, then redirect only if the prepared
      verification is unverified with a redirect URL, then set the auth step.
      The first error thrown ends the sequence and is recorded instead. */
  function SignInAction(strategy: CreateStrategy, errorWrapper: Option<Error>, b: Backend): (r: ActionResult)
    ensures |r.calls| >= 1 && r.calls[0] == CreateCall(strategy)
    ensures CalledPrepare(r) <==>
      b.create(strategy).Ok? && PrepareStrategyFor(b.create(strategy).value, b).Some?
    ensures CalledRedirect(r) ==> CalledPrepare(r)
    ensures CalledRedirect(r) <==>
      CalledPrepare(r) &&
      var s1 := b.create(strategy).value;
      b.prepareFirstFactor(s1.value, PrepareStrategyFor(s1, b).value).Ok? &&
      NeedsRedirect(b.prepareFirstFactor(s1.value, PrepareStrategyFor(s1, b).value).value)
    ensures SetStep(r) <==> r.calls[|r.calls| - 1].SetAuthStep?
    ensures forall i :: 0 <= i < |r.calls| - 1 ==> !r.calls[i].SetAuthStep?
    ensures CalledPrepare(r) ==> r.calls[1] == PrepareCall(PrepareStrategyFor(b.create(strategy).value, b).value)
    ensures CalledRedirect(r) ==> r.calls[2] == RedirectCall
    ensures |r.calls| <= 4
    ensures |r.calls| == 1 + (if CalledPrepare(r) then 1 else 0) + (if CalledRedirect(r) then 1 else 0)
      + (if SetStep(r) then 1 else 0)
    ensures SetStep(r) <==> NothingThrown(strategy, b)
    ensures SetStep(r) ==> r.calls[|r.calls| - 1] == SetAuthStep(LatestSignIn(strategy, b))
    ensures SetStep(r) ==> r.errorWrapper == errorWrapper
    ensures !SetStep(r) ==> r.errorWrapper.Some? && r.errorWrapper.value == FirstThrown(strategy, b)
  {
    match b.create(strategy)
    case Fail(e) => ActionResult([CreateCall(strategy)], Some(e))
    case Ok(s1) =>
      match PrepareStrategyFor(s1, b)
      case None => ActionResult([CreateCall(strategy), SetAuthStep(s1)], errorWrapper)
      case Some(ps) =>
        match b.prepareFirstFactor(s1.value, ps)
        case Fail(e) =>
          var res := ActionResult([CreateCall(strategy), PrepareCall(ps)], Some(e));
          assert res.calls[1].PrepareCall?;
          res
        case Ok(s2) =>
          if NeedsRedirect(s2) then
            match b.authenticateWithRedirect(s2.value)
            case Fail(e) =>
              var res := ActionResult([CreateCall(strategy), PrepareCall(ps), RedirectCall], Some(e));
              assert res.calls[2] == RedirectCall && res.calls[1].PrepareCall?;
              res
            case Ok(s3) =>
              var res := ActionResult([CreateCall(strategy), PrepareCall(ps), RedirectCall, SetAuthStep(s3)], errorWrapper);
              assert res.calls[2] == RedirectCall && res.calls[1].PrepareCall?;
              res
          else
            var res := ActionResult([CreateCall(strategy), PrepareCall(ps), SetAuthStep(s2)], errorWrapper);
            assert res.calls[1].PrepareCall?;
            res
  }

  /** Stored credentials as the local-authentication helper hands them back. */
  datatype Credentials = Credentials(identifier: string, password: string)

  /** The biometric button: fetch the stored credentials, then run
      `signInAction` with them; a failure to fetch is recorded and nothing
      is sent. The stored password is passed on as it is, even when empty. */
  function LocalAuthAction(credentials: Outcome<Credentials>, errorWrapper: Option<Error>, b: Backend): (r: ActionResult)
    ensures credentials.Fail? ==> r.calls == [] && r.errorWrapper == Some(credentials.error)
    ensures credentials.Ok? ==>
      |r.calls| >= 1 &&
      r.calls[0] == CreateCall(Identifier(credentials.value.identifier, Some(credentials.value.password)))
    ensures credentials.Ok? ==>
      (SetStep(r) <==> NothingThrown(Identifier(credentials.value.identifier, Some(credentials.value.password)), b))
    ensures credentials.Ok? ==>
      r == SignInAction(Identifier(credentials.value.identifier, Some(credentials.value.password)), errorWrapper, b)
  {
    match credentials
    case Fail(e) => ActionResult([], Some(e))
    case Ok(c) => SignInAction(Identifier(c.identifier, Some(c.password)), errorWrapper, b)
  }

  /** With a non-empty password the biometric button behaves as Continue
      would with the same identifier typed into the entry that is shown; with
      an empty one it differs: it sends an empty password where Continue
      sends none. */
  lemma LocalAuthAgreesWithContinue(s: FormState, c: Credentials, b: Backend)
    requires (if s.displayingEmailOrUsernameEntry then s.emailAddressOrUsername else s.phoneNumber) == c.identifier
    ensures c.password == s.password && s.password != "" ==>
      LocalAuthAction(Ok(c), None, b) == SignInAction(SubmittedStrategy(s), None, b)
    ensures c.password == "" ==>
      LocalAuthAction(Ok(c), None, b).calls[0] != CreateCall(SubmittedStrategy(s))
  {
  }
}

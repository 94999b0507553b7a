/** The server-reported records the client snapshot holds. Only the fields
    that the modelled code reads are kept, plus an `id` on `SignIn` and
    `SignUp` so that a decoded record can differ from the empty default;
    every field the server may omit is optional. */
module Entities {
  import opened Outcomes

  datatype VerificationStatus = Unverified | Verified | Transferable | Failed | Expired

  /** A factor verification: its status and, for redirect-based strategies,
      the URL the external agent must open. */
  datatype Verification = Verification(
    status: Option<VerificationStatus>,
    externalVerificationRedirectUrl: Option<string>)

  /** A first factor offered by the server, identified by its strategy name. */
  datatype Factor = Factor(strategy: string)

  /** One sign-in attempt. */
  datatype SignIn = SignIn(
    id: Option<string>,
    currentFirstFactor: Option<Factor>,
    firstFactorVerification: Option<Verification>)

  /** One sign-up attempt. */
  datatype SignUp = SignUp(id: Option<string>)

  /** A session the device holds, known by its id. */
  datatype Session = Session(id: string)

  /** `SignIn()`: an attempt with nothing filled in. */
  const EmptySignIn := SignIn(None, None, None)

  /** `SignUp()`: an attempt with nothing filled in. */
  const EmptySignUp := SignUp(None)
}

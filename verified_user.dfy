/** `verifiedUserMiddleware`: a user must have verified the e-mail address or the phone number. */
module VerifiedUser {
  import opened Wrappers
  import opened Http
  import opened Users

  const Unauthorized: string := "Unauthorized"
  const PleaseVerify: string := "Forbidden: Please verify your email or phone number to perform this action."

  function VerifiedGate(user: Option<Claims>): (g: Gate<string>)
    ensures g == Halt(401, Unauthorized) <==> user.None?
    ensures g == Halt(403, PleaseVerify) <==> user.Some? && !user.value.isEmailVerified && !user.value.isPhoneVerified
    ensures g.Proceed? <==> user.Some? && (user.value.isEmailVerified || user.value.isPhoneVerified)
  {
    if user.None? then Halt(401, Unauthorized)
    else if !user.value.isEmailVerified && !user.value.isPhoneVerified then Halt(403, PleaseVerify)
    else Proceed
  }

  /** Either flag alone is enough. */
  lemma EitherFlagProceeds(c: Claims)
    ensures c.isEmailVerified ==> VerifiedGate(Some(c)).Proceed?
    ensures c.isPhoneVerified ==> VerifiedGate(Some(c)).Proceed?
  {
  }
}

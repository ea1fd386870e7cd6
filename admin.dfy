/** `adminMiddleware`: only a user whose claims carry the admin role goes on. */
module Admin {
  import opened Wrappers
  import opened Schema
  import opened Http
  import opened Users

  /** `sendStatus(403)` sends the status text. */
  const ForbiddenText: string := "Forbidden"

  function AdminGate(user: Option<Claims>): (g: Gate<string>)
    ensures g.Proceed? <==> user.Some? && user.value.role == Admin
    ensures g.Halt? ==> g == Halt(403, ForbiddenText)
  {
    if user.None? || user.value.role != Admin then Halt(403, ForbiddenText) else Proceed
  }

  /** A customer is refused whatever else the claims say. */
  lemma CustomerRefused(c: Claims)
    requires c.role == Customer
    ensures AdminGate(Some(c)) == Halt(403, ForbiddenText)
  {
  }
}

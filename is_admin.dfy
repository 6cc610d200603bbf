/**
 * The `isAdmin` gate placed after `authenticate` on admin routes: it inspects
 * `req.user.role` only, lets the request through when that is the ADMIN role
 * string, and answers 403 otherwise.
 */
module IsAdmin {
  import opened JsValues
  import opened Http
  import opened Constants

  /** Pass: `next()` is called. Deny: a reply is sent. Raise: reading `req.user.role` threw. */
  datatype Gate = Pass | Deny(reply: Reply) | Raise(message: string)

  function Check(user: JsValue): (g: Gate)
    ensures g.Raise? <==> IsNullish(user)
    ensures g.Pass? <==> Get(user, "role") == Str(Admin.Value())
    ensures g.Deny? ==> g.reply == ErrorReply(403, "Access denied. Admin privileges required.")
  {
    match Member(user, "role")
    case Failure(e) => Raise(e)
    case Success(role) =>
      if !StrictEquals(role, Str(Admin.Value())) then Deny(ErrorReply(403, "Access denied. Admin privileges required."))
      else Pass
  }

  /** Only the role matters: two users with the same role get the same verdict. */
  lemma OnlyRoleInspected(u1: JsValue, u2: JsValue)
    requires !IsNullish(u1) && !IsNullish(u2)
    requires Get(u1, "role") == Get(u2, "role")
    ensures Check(u1) == Check(u2)
  {
  }

  /** A farmer, and a user whose token carries no role, are refused. */
  lemma NonAdminsRefused(u: JsValue)
    requires u.Obj?
    requires Get(u, "role") == Str(Farmer.Value()) || Get(u, "role") == Undefined
    ensures Check(u).Deny?
  {
  }
}

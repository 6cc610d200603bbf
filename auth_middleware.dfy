/**
 * The `authenticate` middleware: it reads a bearer token from the
 * Authorization header (the header form of section 2.1 of RFC 6750, with the
 * scheme name matched case-sensitively), verifies it, and either calls `next`
 * with `req.user` set to the decoded payload or answers 401.
 */
module AuthMiddleware {
  import opened Wrappers
  import opened Strings
  import opened JsValues
  import opened Http

  /** What the token verifier does with a token: returns a payload (possibly falsy) or throws. */
  datatype Decode = Decoded(payload: JsValue) | Throws

  /** What the middleware does: call `next` once with `req.user` set, or send a reply. */
  datatype Outcome = Next(user: JsValue) | Respond(reply: Reply)

  const Scheme: string := "Bearer "

  /** The token the header carries: everything after the first 7 characters, when it starts with `Bearer `. */
  function BearerToken(header: Option<string>): (t: Option<string>)
    ensures t.Some? <==> header.Some? && StartsWith(header.value, Scheme)
    ensures t.Some? ==> header.value == Scheme + t.value
  {
    match header
    case Some(h) =>
      if StartsWith(h, Scheme) then
        assert h == h[..7] + h[7..];
        Some(h[7..])
      else None
    case None => None
  }

  function Authenticate(header: Option<string>, verify: string -> Decode): (o: Outcome)
    ensures BearerToken(header).None? ==> o == Respond(ErrorReply(401, "Access token is required"))
    ensures o.Next? <==>
      BearerToken(header).Some? && verify(BearerToken(header).value).Decoded? &&
      Truthy(verify(BearerToken(header).value).payload)
    ensures o.Next? ==> o.user == verify(BearerToken(header).value).payload
    ensures o.Respond? ==> o.reply.status == 401
  {
    match BearerToken(header)
    case None => Respond(ErrorReply(401, "Access token is required"))
    case Some(token) =>
      match verify(token)
      case Throws => Respond(ErrorReply(401, "Authentication failed"))
      case Decoded(p) =>
        if !Truthy(p) then Respond(ErrorReply(401, "Invalid or expired access token"))
        else Next(p)
  }

  /** The verifier sees exactly the credentials after the scheme, whatever they are. */
  lemma TokenAfterScheme(token: string)
    ensures BearerToken(Some(Scheme + token)) == Some(token)
  {
    assert (Scheme + token)[..7] == Scheme;
    assert (Scheme + token)[7..] == token;
  }

  /** The scheme test is case-sensitive: a lower-case `bearer ` header is refused before verification. */
  lemma LowerCaseSchemeRefused(token: string, verify: string -> Decode)
    ensures Authenticate(Some("bearer " + token), verify) == Respond(ErrorReply(401, "Access token is required"))
  {
    assert ("bearer " + token)[0] != Scheme[0];
  }

  /** A thrown verification and a falsy payload both end in 401, never in `next`. */
  lemma VerificationFailures(token: string, verify: string -> Decode)
    requires verify(token) == Throws || (verify(token).Decoded? && !Truthy(verify(token).payload))
    ensures Authenticate(Some(Scheme + token), verify).Respond?
    ensures verify(token) == Throws ==>
      Authenticate(Some(Scheme + token), verify) == Respond(ErrorReply(401, "Authentication failed"))
    ensures verify(token) != Throws ==>
      Authenticate(Some(Scheme + token), verify) == Respond(ErrorReply(401, "Invalid or expired access token"))
  {
    TokenAfterScheme(token);
  }
}

/** `authMiddleware`: read the bearer token, verify it, and attach its claims to the request. */
module Auth {
  import opened Wrappers
  import opened Text
  import opened Users

  /** `authHeader && authHeader.split(' ')[1]`, when that is a non-empty string; a missing field is `undefined`. */
  function BearerToken(header: Option<string>): (t: Option<string>)
    ensures t.Some? <==> header.Some? && |Split(header.value, ' ')| >= 2 && Split(header.value, ' ')[1] != ""
    ensures t.Some? ==> t.value == Split(header.value, ' ')[1] && ' ' !in t.value
  {
    if header.None? || header.value == "" then None
    else
      var fields := Split(header.value, ' ');
      if |fields| >= 2 && fields[1] != "" then Some(fields[1]) else None
  }

  /** `Bearer <token>` yields the token, whatever the scheme word is. */
  lemma BearerTokenOf(scheme: string, token: string)
    requires ' ' !in scheme && ' ' !in token && token != ""
    ensures BearerToken(Some(scheme + " " + token)) == Some(token)
  {
    SplitPair(scheme, token, ' ');
    assert scheme + " " + token == scheme + [' '] + token;
  }

  /** A header with no space, such as a bare token, carries no token. */
  lemma NoSpaceNoToken(header: string)
    requires ' ' !in header
    ensures BearerToken(Some(header)).None?
  {
  }

  datatype Decision = Authenticated(claims: Claims) | Rejected(status: int)

  /** 401 without a token, 403 when verification fails, and otherwise the decoded claims. */
  function Authenticate(header: Option<string>, verify: string -> Option<Claims>): (d: Decision)
    ensures d == Rejected(401) <==> BearerToken(header).None?
    ensures d == Rejected(403) <==> BearerToken(header).Some? && verify(BearerToken(header).value).None?
    ensures d.Authenticated? <==> BearerToken(header).Some? && verify(BearerToken(header).value).Some?
    ensures d.Authenticated? ==> Some(d.claims) == verify(BearerToken(header).value)
  {
    match BearerToken(header)
    case None => Rejected(401)
    case Some(token) =>
      match verify(token)
      case None => Rejected(403)
      case Some(claims) => Authenticated(claims)
  }

  /** The parts of an Express exchange the middleware touches. */
  class Exchange {
    /** `req.user`. */
    var user: Option<Claims>
    /** How many times `next()` has been called. */
    var nextCalls: nat
    /** The status sent with `res.sendStatus`, if any. */
    var sent: Option<int>

    constructor ()
      ensures user == None && nextCalls == 0 && sent == None
    {
      user, nextCalls, sent := None, 0, None;
    }
  }

  /** The middleware: on success it sets `req.user` and calls `next()` once; otherwise it sends the status and stops. */
  method AuthMiddleware(ex: Exchange, header: Option<string>, verify: string -> Option<Claims>)
    modifies ex
    ensures match Authenticate(header, verify)
      case Authenticated(claims) =>
        ex.user == Some(claims) && ex.nextCalls == old(ex.nextCalls) + 1 && ex.sent == old(ex.sent)
      case Rejected(status) =>
        ex.sent == Some(status) && ex.nextCalls == old(ex.nextCalls) && ex.user == old(ex.user)
  {
    var token := BearerToken(header);
    if token.None? {
      ex.sent := Some(401);
      return;
    }
    var claims := verify(token.value);
    if claims.None? {
      ex.sent := Some(403);
      return;
    }
    ex.user := claims;
    ex.nextCalls := ex.nextCalls + 1;
  }
}

/**
 * The backend's authentication middleware: the `Authorization` header either
 * lets the request through with the user id read from a mock token, or the
 * request is refused with 401. The tokens are the ones the auth routes mint.
 */
module AuthMiddleware {
  import opened Wrappers
  import opened Text

  const BearerPrefix := "Bearer "
  const TokenPrefix := "mock-jwt-token-"
  const NoToken := "No token, authorization denied"
  const BadToken := "Token is not valid"

  /** What the middleware does with a request: exactly one of a 401 reply or `next()` with `req.user.id`. */
  datatype Outcome = Unauthorized(message: string) | Next(userId: string)

  /** `'mock-jwt-token-' + id`, the token login and signup return. */
  function MintToken(id: string): (t: string)
    ensures StartsWith(t, TokenPrefix) && t[|TokenPrefix|..] == id
  {
    TokenPrefix + id
  }

  /** The header a client sends with a token. */
  function BearerHeader(token: string): (h: string)
    ensures StartsWith(h, BearerPrefix) && h[|BearerPrefix|..] == token
  {
    BearerPrefix + token
  }

  /**
   * The middleware on the header value (None when there is none). An empty
   * or non-"Bearer " header is refused as missing; the token is the header
   * with its first "Bearer " removed; a mock token lets the request through
   * with the rest of it as the user id.
   */
  function Authenticate(header: Option<string>): (o: Outcome)
  {
    if header.None? || header.value == "" || !StartsWith(header.value, BearerPrefix) then
      Unauthorized(NoToken)
    else
      var token := ReplaceFirst(header.value, BearerPrefix, "");
      if StartsWith(token, TokenPrefix) then Next(ReplaceFirst(token, TokenPrefix, ""))
      else Unauthorized(BadToken)
  }

  /** A missing header, or one not starting with "Bearer ", is refused as carrying no token. */
  lemma NoBearerRefused(header: Option<string>)
    requires header.None? || !StartsWith(header.value, BearerPrefix)
    ensures Authenticate(header) == Unauthorized(NoToken)
  {
  }

  /** A "Bearer " header whose token is not a mock token is refused as invalid. */
  lemma ForeignTokenRefused(token: string)
    requires !StartsWith(token, TokenPrefix)
    ensures Authenticate(Some(BearerHeader(token))) == Unauthorized(BadToken)
  {
    var h := BearerHeader(token);
    ReplaceLeadingPrefix(h, BearerPrefix);
  }

  /** The round trip: a minted token sent as a bearer header lets the request through as that user. */
  lemma TokenRoundTrip(id: string)
    ensures Authenticate(Some(BearerHeader(MintToken(id)))) == Next(id)
  {
    var t := MintToken(id);
    var h := BearerHeader(t);
    ReplaceLeadingPrefix(h, BearerPrefix);
    ReplaceLeadingPrefix(t, TokenPrefix);
  }

  /** And only that header does: a request passes as `id` exactly when it carries the minted token for `id`. */
  lemma {:induction false} PassesOnlyWithMintedToken(header: Option<string>, id: string)
    ensures Authenticate(header) == Next(id) <==> header == Some(BearerHeader(MintToken(id)))
  {
    if header == Some(BearerHeader(MintToken(id))) {
      TokenRoundTrip(id);
    } else if Authenticate(header).Next? {
      var h := header.value;
      ReplaceLeadingPrefix(h, BearerPrefix);
      var token := h[|BearerPrefix|..];
      ReplaceLeadingPrefix(token, TokenPrefix);
      var rest := token[|TokenPrefix|..];
      assert token == MintToken(rest);
      assert h == BearerHeader(token);
      assert Authenticate(header).userId == rest;
      assert rest != id;
    }
  }
}

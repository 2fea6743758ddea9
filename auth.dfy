/**
 * The authentication middleware (middleware/auth.js): extracting the token from the
 * `Authorization` header, verifying it, and the administrator gate. Token verification
 * (JSON Web Tokens, RFC 7519) is a parameter `verify` that returns the decoded payload,
 * or `None` when the token is invalid or expired.
 */
module Auth {
  import opened Wrappers
  import Json
  import JsString

  const DefaultSecret: string := "your-secret-key"

  /** `process.env.JWT_SECRET || 'your-secret-key'` */
  function JwtSecret(env: Option<string>): (r: string)
    ensures env.Some? && env.value != "" ==> r == env.value
    ensures env.None? || env.value == "" ==> r == DefaultSecret
    ensures r != ""
  {
    if env.Some? && env.value != "" then env.value else DefaultSecret
  }

  /** `authHeader && authHeader.split(' ')[1]`, with a falsy result as `None`: the second
      space-separated word, whatever the first word is. */
  function Token(header: Option<string>): (r: Option<string>)
    ensures r.Some? ==> r.value != "" && ' ' !in r.value
    ensures r.Some? ==> header.Some? && |JsString.Split(header.value, ' ')| >= 2
                        && r.value == JsString.Split(header.value, ' ')[1]
    ensures header.None? || ' ' !in header.value ==> r.None?
    ensures header.Some? && |JsString.Split(header.value, ' ')| >= 2 && JsString.Split(header.value, ' ')[1] != "" ==>
      r == Some(JsString.Split(header.value, ' ')[1])
  {
    if header.None? || header.value == "" then None
    else
      var parts := JsString.Split(header.value, ' ');
      JsString.CountZero(header.value, ' ');
      if |parts| < 2 || parts[1] == "" then None else Some(parts[1])
  }

  /** A header of the bearer form of section 2.1 of RFC 6750 yields its token; any other first
      word does too, because the scheme is never compared. */
  lemma TokenIgnoresScheme(scheme: string, token: string)
    requires ' ' !in scheme && ' ' !in token && token != ""
    ensures Token(Some(scheme + " " + token)) == Some(token)
  {
    JsString.SplitAfterWord(scheme, token, ' ');
    JsString.SplitWithoutSeparator(token, ' ');
    assert scheme + " " + token == scheme + [' '] + token;
  }

  /** Words after the token are ignored: `<scheme> <token> <more>` yields the token. */
  lemma TokenIgnoresTrailingWords(scheme: string, token: string, more: string)
    requires ' ' !in scheme && ' ' !in token && token != ""
    ensures Token(Some(scheme + " " + token + " " + more)) == Some(token)
  {
    JsString.SplitAfterWord(scheme, token + " " + more, ' ');
    JsString.SplitAfterWord(token, more, ' ');
    assert scheme + " " + token + " " + more == scheme + [' '] + (token + " " + more);
    assert token + " " + more == token + [' '] + more;
  }

  /** Two spaces after the scheme leave the second word empty, so the request is refused. */
  lemma DoubleSpaceHasNoToken(scheme: string, token: string)
    requires ' ' !in scheme
    ensures Token(Some(scheme + "  " + token)) == None
  {
    JsString.SplitAfterWord(scheme, " " + token, ' ');
    JsString.SplitAfterWord("", token, ' ');
    assert scheme + "  " + token == scheme + [' '] + (" " + token);
    assert "" + [' '] + token == " " + token;
  }

  datatype AuthOutcome = MissingToken | InvalidToken | Authenticated(user: Json.Value)

  function AuthStatus(r: AuthOutcome): int {
    match r
    case MissingToken => 401
    case InvalidToken => 403
    case Authenticated(_) => 200
  }

  /** `authenticateToken`: 401 without a token, 403 when verification fails, and otherwise
      `req.user` set to the decoded payload and `next` called (`Authenticated`). */
  function AuthenticateToken(header: Option<string>, secretEnv: Option<string>,
                             verify: (string, string) -> Option<Json.Value>): (r: AuthOutcome)
    ensures r.MissingToken? <==> Token(header).None?
    ensures r.InvalidToken? <==> Token(header).Some? && verify(Token(header).value, JwtSecret(secretEnv)).None?
    ensures r.Authenticated? ==> Some(r.user) == verify(Token(header).value, JwtSecret(secretEnv))
  {
    var token := Token(header);
    if token.None? then MissingToken
    else
      var user := verify(token.value, JwtSecret(secretEnv));
      if user.None? then InvalidToken else Authenticated(user.value)
  }

  datatype GateOutcome = AdminRequired | GateThrew | Next

  /** `requireAdmin`: `next` exactly when the user's role is the string "admin"; reading the
      role of an undefined or null user throws. */
  function RequireAdmin(user: Option<Json.Value>): (r: GateOutcome)
    ensures r.Next? <==> user.Some? && Json.Get(user.value, "role") == Some(Json.Str("admin"))
    ensures r.GateThrew? <==> Json.Nullish(user)
  {
    if Json.Nullish(user) then GateThrew
    else if Json.Get(user.value, "role") == Some(Json.Str("admin")) then Next
    else AdminRequired
  }

  /** An admin route (`authenticateToken` then `requireAdmin`) reaches its handler exactly when
      the token verifies to a payload whose role is "admin". */
  lemma AdminRouteIff(header: Option<string>, secretEnv: Option<string>,
                      verify: (string, string) -> Option<Json.Value>)
    ensures var a := AuthenticateToken(header, secretEnv, verify);
      (a.Authenticated? && RequireAdmin(Some(a.user)).Next?) <==>
        var t := Token(header);
        t.Some? && var p := verify(t.value, JwtSecret(secretEnv));
        p.Some? && Json.Get(p.value, "role") == Some(Json.Str("admin"))
  {
  }
}

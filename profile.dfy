/**
 * api/user/profile.js: returns the identity a bearer token carries. Any token signed with the
 * shared secret and not expired is accepted, whichever route issued it.
 */
module ProfileHandler {
  import opened Wrappers
  import opened JsValue
  import opened Http
  import TokenCodec
  import OtpCode
  import SendOtpHandler
  import VerifyOtpHandler
  import CompleteSignupHandler

  /** `handler(req, res)` (api/user/profile.js:3-44) at time `now`. */
  function Handle(req: Request, env: Env, now: nat): (resp: Response)
    ensures resp.status in {200, 401, 403, 405}
    ensures req.verb == "GET" ==>
      (resp.status == 200 <==>
        var token := BearerToken(req.authorization);
        token.Some? && TokenCodec.Verify(token.value, env.jwtSecret, now).Decoded?)
    ensures req.verb == "GET" && resp.status == 200 ==>
      var claims := TokenCodec.Verify(BearerToken(req.authorization).value, env.jwtSecret, now).claims;
      resp.body == ProfileInfo(Get(claims, "userId"), Get(claims, "email"))
  {
    if req.verb == "OPTIONS" then Response(200, NoContent)
    else if req.verb != "GET" then Response(405, Error("Method not allowed"))
    else
      match BearerToken(req.authorization)
      case None => Response(401, Error("Access token required"))
      case Some(token) =>
        match TokenCodec.Verify(token, env.jwtSecret, now)
        case Decoded(user) => Response(200, ProfileInfo(Get(user, "userId"), Get(user, "email")))
        case _ => Response(403, Error("Invalid or expired token"))
  }

  /** A GET carrying `header` as its Authorization header. */
  function ProfileRequest(header: Option<string>): Request {
    Request("GET", map[], header)
  }

  lemma MethodGuard(req: Request, env: Env, now: nat)
    ensures req.verb == "OPTIONS" ==> Handle(req, env, now) == Response(200, NoContent)
    ensures req.verb != "OPTIONS" && req.verb != "GET" ==> Handle(req, env, now) == Response(405, Error("Method not allowed"))
  {
  }

  /** No header, an empty one, or a scheme word without a second field: 401. */
  lemma TokenRequired(scheme: string, env: Env, now: nat)
    requires ' ' !in scheme
    ensures Handle(ProfileRequest(None), env, now) == Response(401, Error("Access token required"))
    ensures Handle(ProfileRequest(Some("")), env, now) == Response(401, Error("Access token required"))
    ensures Handle(ProfileRequest(Some(scheme)), env, now) == Response(401, Error("Access token required"))
    ensures Handle(ProfileRequest(Some(scheme + " ")), env, now) == Response(401, Error("Access token required"))
  {
    NoSecondField(scheme);
  }

  /** The scheme word is never inspected: any scheme before the token gives the same answer as `Bearer`. */
  lemma SchemeIgnored(scheme: string, token: string, env: Env, now: nat)
    requires ' ' !in scheme && ' ' !in token && token != ""
    ensures Handle(ProfileRequest(Some(scheme + " " + token)), env, now)
         == Handle(ProfileRequest(Some("Bearer " + token)), env, now)
  {
    AnySchemeAccepted(scheme, token);
    AnySchemeAccepted("Bearer", token);
    assert "Bearer " + token == "Bearer" + " " + token;
  }

  /**
   * With a token present, the answer is 200 with the `userId` and `email` claims exactly when it
   * verifies; an expired token and a forged one get the same 403.
   */
  lemma TokenOutcome(header: Option<string>, env: Env, now: nat)
    requires BearerToken(header).Some?
    ensures var token := BearerToken(header).value;
      var resp := Handle(ProfileRequest(header), env, now);
      match TokenCodec.Verify(token, env.jwtSecret, now)
      case Decoded(c) => resp == Response(200, ProfileInfo(Get(c, "userId"), Get(c, "email")))
      case Expired => resp == Response(403, Error("Invalid or expired token"))
      case Invalid => resp == Response(403, Error("Invalid or expired token"))
  {
  }

  /**
   * A GET is answered with a profile exactly when its bearer field is the rendering of a live
   * token signed with the configured key, and the profile is then that token's claims.
   */
  lemma AcceptedIff(header: Option<string>, env: Env, now: nat, c: Object)
    ensures (Handle(ProfileRequest(header), env, now).status == 200 &&
             TokenCodec.Verify(BearerToken(header).value, env.jwtSecret, now) == TokenCodec.Decoded(c)) <==>
      BearerToken(header).Some? && HasSecret(env) &&
      exists e :: BearerToken(header).value == TokenCodec.Render(TokenCodec.Token(c, e, env.jwtSecret)) && TokenCodec.Live(e, now)
    ensures Handle(ProfileRequest(header), env, now).status == 200 ==>
      Handle(ProfileRequest(header), env, now).body
        == ProfileInfo(Get(TokenCodec.Verify(BearerToken(header).value, env.jwtSecret, now).claims, "userId"),
                       Get(TokenCodec.Verify(BearerToken(header).value, env.jwtSecret, now).claims, "email"))
  {
    if BearerToken(header).Some? {
      TokenCodec.DecodedIff(BearerToken(header).value, env.jwtSecret, now, c);
    }
  }

  /** The bearer header `Bearer <token>` for a rendered token. */
  function Bearer(token: string): Option<string> {
    Some("Bearer " + token)
  }

  /** A bearer header for a token the codec rendered yields that token. */
  lemma BearerOfSigned(claims: Object, secret: string, iat: nat, ttl: Option<nat>)
    ensures BearerToken(Bearer(TokenCodec.Sign(claims, secret, iat, ttl))) == Some(TokenCodec.Sign(claims, secret, iat, ttl))
  {
    var t := TokenCodec.Sign(claims, secret, iat, ttl);
    AnySchemeAccepted("Bearer", t);
    assert "Bearer " + t == "Bearer" + " " + t;
  }

  /** A token from verify-otp carries no `userId`: the profile has an email and no id. */
  lemma LoginTokenHasNoId(email: Value, issued: nat, now: nat, env: Env)
    requires HasSecret(env)
    requires now < issued + SessionLifetime(env)
    ensures Handle(ProfileRequest(Bearer(VerifyOtpHandler.SessionToken(email, issued, env))), env, now)
         == Response(200, ProfileInfo(None, Some(email)))
  {
    BearerOfSigned([("email", email)], env.jwtSecret, issued, Some(SessionLifetime(env)));
    VerifyOtpHandler.SessionTokenClaims(email, issued, now, env);
    GetOne(("email", email), "userId");
    GetOne(("email", email), "email");
  }

  /** A token from complete-signup yields the new user's id and email. */
  lemma SignupTokenProfile(user: User, now: nat, env: Env)
    requires HasSecret(env)
    requires now < user.createdAt + SessionLifetime(env)
    ensures Handle(ProfileRequest(Bearer(CompleteSignupHandler.UserToken(user, env))), env, now)
         == Response(200, ProfileInfo(Some(Str(user.id)), Some(user.email)))
  {
    var c := CompleteSignupHandler.UserClaims(user);
    BearerOfSigned(c, env.jwtSecret, user.createdAt, Some(SessionLifetime(env)));
    TokenCodec.SignThenVerify(c, env.jwtSecret, user.createdAt, Some(SessionLifetime(env)), now);
    GetTwo(c[0], c[1], "userId");
    GetTwo(c[0], c[1], "email");
  }

  /**
   * The OTP ticket send-otp hands out, signed with the same secret, is accepted as a session
   * token for its five minutes, before any code has been checked.
   */
  lemma OtpTicketOpensProfile(email: Value, isSignup: Option<Value>, r: nat, issued: nat, now: nat, env: Env)
    requires HasSecret(env)
    requires r < OtpCode.CodeRange
    requires issued <= now < issued + SendOtpHandler.TicketLifetime
    ensures Handle(ProfileRequest(Bearer(SendOtpHandler.Ticket(email, isSignup, r, issued, env))), env, now)
         == Response(200, ProfileInfo(None, Some(email)))
  {
    var code := OtpCode.GenerateOtp(r);
    BearerOfSigned(SendOtpHandler.TicketClaims(email, code, isSignup, issued), env.jwtSecret, issued, Some(SendOtpHandler.TicketLifetime));
    SendOtpHandler.LiveTicket(email, isSignup, r, issued, now, env);
  }
}

/**
 * api/auth/verify-otp.js: checks a code against the ticket send-otp issued and, on success,
 * issues the session token. Stateless: nothing is recorded between calls.
 */
module VerifyOtpHandler {
  import opened Wrappers
  import opened JsValue
  import opened Http
  import TokenCodec
  import OtpCode
  import SendOtpHandler

  /** The session token for `email` issued at `now`: claims `{email}` only. */
  function SessionToken(email: Value, now: nat, env: Env): string {
    TokenCodec.Sign([("email", email)], env.jwtSecret, now, Some(SessionLifetime(env)))
  }

  /** `handler(req, res)` (api/auth/verify-otp.js:3-64) at time `now`. */
  function Handle(req: Request, env: Env, now: nat): (resp: Response)
    ensures resp.status in {200, 400, 405}
    ensures resp.status == 200 && req.verb != "OPTIONS" ==>
      req.verb == "POST" && Truthy(Field(req.body, "email")) &&
      resp == Response(200, TokenIssued(SessionToken(Field(req.body, "email").value, now, env)))
    ensures resp.status == 200 && req.verb != "OPTIONS" ==>
      var ticket := Field(req.body, "otpToken");
      Truthy(ticket) &&
      var verdict := TokenCodec.VerifyValue(ticket.value, env.jwtSecret, now);
      verdict.Decoded? && Get(verdict.claims, "otp") == Field(req.body, "otp") &&
      Get(verdict.claims, "email") == Field(req.body, "email")
  {
    if req.verb == "OPTIONS" then Response(200, NoContent)
    else if req.verb != "POST" then Response(405, Error("Method not allowed"))
    else
      var email := Field(req.body, "email");
      var otp := Field(req.body, "otp");
      var otpToken := Field(req.body, "otpToken");
      if !Truthy(otpToken) || !Truthy(otp) || !Truthy(email) then BadRequest("Email, OTP and token are required")
      else
        match TokenCodec.VerifyValue(otpToken.value, env.jwtSecret, now)
        case Expired => BadRequest("OTP expired")
        case Invalid => BadRequest("Invalid token")
        case Decoded(payload) =>
          if Get(payload, "email") != email then BadRequest("Email mismatch")
          else if AtLeastThree(Get(payload, "attempts")) then BadRequest("Too many attempts. Please request a new OTP")
          else if Get(payload, "otp") != otp then BadRequest("Invalid OTP")
          else Response(200, TokenIssued(SessionToken(email.value, now, env)))
  }

  /** The body a client sends: `{email, otp, otpToken}`. */
  function VerifyRequest(email: Value, otp: Value, otpToken: Value): Request {
    Request("POST", map["email" := email, "otp" := otp, "otpToken" := otpToken], None)
  }

  lemma MethodGuard(req: Request, env: Env, now: nat)
    ensures req.verb == "OPTIONS" ==> Handle(req, env, now) == Response(200, NoContent)
    ensures req.verb != "OPTIONS" && req.verb != "POST" ==> Handle(req, env, now) == Response(405, Error("Method not allowed"))
  {
  }

  /** A falsy email, code or ticket is refused before the ticket is looked at. */
  lemma FieldsRequired(req: Request, env: Env, now: nat)
    requires req.verb == "POST"
    requires !Truthy(Field(req.body, "email")) || !Truthy(Field(req.body, "otp")) || !Truthy(Field(req.body, "otpToken"))
    ensures Handle(req, env, now) == BadRequest("Email, OTP and token are required")
  {
  }

  /** An expired ticket and an otherwise failing one get different messages. */
  lemma ExpiredOrInvalid(email: Value, otp: Value, ticket: Value, env: Env, now: nat)
    requires Truthy(Some(email)) && Truthy(Some(otp)) && Truthy(Some(ticket))
    ensures TokenCodec.VerifyValue(ticket, env.jwtSecret, now) == TokenCodec.Expired ==>
      Handle(VerifyRequest(email, otp, ticket), env, now) == BadRequest("OTP expired")
    ensures TokenCodec.VerifyValue(ticket, env.jwtSecret, now) == TokenCodec.Invalid ==>
      Handle(VerifyRequest(email, otp, ticket), env, now) == BadRequest("Invalid token")
  {
  }

  /**
   * The checks on a decoded payload run in a fixed order, first failure deciding: an email
   * mismatch wins over everything, the attempts guard over a wrong code; only all three
   * passing issues a token.
   */
  lemma GuardOrder(email: Value, otp: Value, ticket: Value, env: Env, now: nat, payload: Object)
    requires Truthy(Some(email)) && Truthy(Some(otp)) && Truthy(Some(ticket))
    requires TokenCodec.VerifyValue(ticket, env.jwtSecret, now) == TokenCodec.Decoded(payload)
    ensures var resp := Handle(VerifyRequest(email, otp, ticket), env, now);
      (Get(payload, "email") != Some(email) ==> resp == BadRequest("Email mismatch")) &&
      (Get(payload, "email") == Some(email) && AtLeastThree(Get(payload, "attempts")) ==>
        resp == BadRequest("Too many attempts. Please request a new OTP")) &&
      (Get(payload, "email") == Some(email) && !AtLeastThree(Get(payload, "attempts")) && Get(payload, "otp") != Some(otp) ==>
        resp == BadRequest("Invalid OTP")) &&
      (resp.status == 200 <==>
        Get(payload, "email") == Some(email) && !AtLeastThree(Get(payload, "attempts")) && Get(payload, "otp") == Some(otp)) &&
      (resp.status == 200 ==> resp == Response(200, TokenIssued(SessionToken(email, now, env))))
  {
  }

  /**
   * End to end: the ticket send-otp issued, with the mailed code, verifies at any time before
   * it expires and yields a session token carrying exactly `{email}`, whatever the signup flag
   * was; the same request succeeds again every time in that window (no replay protection).
   */
  lemma SendThenVerify(email: Value, isSignup: Option<Value>, r: nat, issued: nat, now: nat, env: Env)
    requires HasSecret(env)
    requires r < OtpCode.CodeRange && Truthy(Some(email))
    requires issued <= now < issued + SendOtpHandler.TicketLifetime
    ensures var ticket := SendOtpHandler.Ticket(email, isSignup, r, issued, env);
      Handle(VerifyRequest(email, Str(OtpCode.GenerateOtp(r)), Str(ticket)), env, now)
        == Response(200, TokenIssued(SessionToken(email, now, env)))
  {
    var code := OtpCode.GenerateOtp(r);
    OtpCode.SixDigits(r);
    SendOtpHandler.LiveTicket(email, isSignup, r, issued, now, env);
    GuardOrder(email, Str(code), Str(SendOtpHandler.Ticket(email, isSignup, r, issued, env)), env, now,
               SendOtpHandler.TicketClaims(email, code, isSignup, issued));
  }

  /** Replaying an accepted request later in the ticket's lifetime is accepted again. */
  lemma ReplayAccepted(email: Value, isSignup: Option<Value>, r: nat, issued: nat, t1: nat, t2: nat, env: Env)
    requires HasSecret(env)
    requires r < OtpCode.CodeRange && Truthy(Some(email))
    requires issued <= t1 <= t2 < issued + SendOtpHandler.TicketLifetime
    ensures var req := VerifyRequest(email, Str(OtpCode.GenerateOtp(r)), Str(SendOtpHandler.Ticket(email, isSignup, r, issued, env)));
      Handle(req, env, t1).status == 200 && Handle(req, env, t2).status == 200
  {
    SendThenVerify(email, isSignup, r, issued, t1, env);
    SendThenVerify(email, isSignup, r, issued, t2, env);
  }

  /** Tickets from send-otp say `attempts: 0` and are never re-signed, so the attempts guard never fires. */
  lemma AttemptsGuardNeverFires(req: Request, email: Value, isSignup: Option<Value>, r: nat, issued: nat, now: nat, env: Env)
    requires r < OtpCode.CodeRange
    requires Field(req.body, "otpToken") == Some(Str(SendOtpHandler.Ticket(email, isSignup, r, issued, env)))
    ensures Handle(req, env, now) != BadRequest("Too many attempts. Please request a new OTP")
  {
    var code := OtpCode.GenerateOtp(r);
    var claims := SendOtpHandler.TicketClaims(email, code, isSignup, issued);
    var ticket := Str(SendOtpHandler.Ticket(email, isSignup, r, issued, env));
    assert !AtLeastThree(Get(claims, "attempts")) by {
      SendOtpHandler.TicketClaimsFields(email, code, isSignup, issued);
    }
    assert TokenCodec.VerifyValue(ticket, env.jwtSecret, now) in {TokenCodec.Invalid, TokenCodec.Expired, TokenCodec.Decoded(claims)} by {
      if HasSecret(env) {
        TokenCodec.SignThenVerify(claims, env.jwtSecret, issued, Some(SendOtpHandler.TicketLifetime), now);
      }
    }
  }

  /** The code is compared by strict equality: the right digits sent as a JSON number are refused. */
  lemma NumericCodeRefused(email: Value, isSignup: Option<Value>, r: nat, issued: nat, now: nat, env: Env)
    requires HasSecret(env)
    requires r < OtpCode.CodeRange && Truthy(Some(email))
    requires issued <= now < issued + SendOtpHandler.TicketLifetime
    ensures var ticket := SendOtpHandler.Ticket(email, isSignup, r, issued, env);
      Handle(VerifyRequest(email, Num(OtpCode.CodeValue(r)), Str(ticket)), env, now) == BadRequest("Invalid OTP")
  {
    var code := OtpCode.GenerateOtp(r);
    SendOtpHandler.LiveTicket(email, isSignup, r, issued, now, env);
    GuardOrder(email, Num(OtpCode.CodeValue(r)), Str(SendOtpHandler.Ticket(email, isSignup, r, issued, env)), env, now,
               SendOtpHandler.TicketClaims(email, code, isSignup, issued));
  }

  /** A session token offered as the ticket fails the code check: it carries no `otp` claim. */
  lemma SessionTokenIsNoTicket(email: Value, otp: Value, issued: nat, now: nat, env: Env)
    requires HasSecret(env)
    requires Truthy(Some(email)) && Truthy(Some(otp))
    requires now < issued + SessionLifetime(env)
    ensures Handle(VerifyRequest(email, otp, Str(SessionToken(email, issued, env))), env, now) == BadRequest("Invalid OTP")
  {
    GetOne(("email", email), "email");
    GetOne(("email", email), "attempts");
    GetOne(("email", email), "otp");
    TokenCodec.SignThenVerify([("email", email)], env.jwtSecret, issued, Some(SessionLifetime(env)), now);
  }

  /** The session token verifies, until its lifetime ends, to the claims `{email}` and nothing else. */
  lemma SessionTokenClaims(email: Value, issued: nat, now: nat, env: Env)
    requires HasSecret(env)
    requires now < issued + SessionLifetime(env)
    ensures TokenCodec.Verify(SessionToken(email, issued, env), env.jwtSecret, now) == TokenCodec.Decoded([("email", email)])
  {
    TokenCodec.SignThenVerify([("email", email)], env.jwtSecret, issued, Some(SessionLifetime(env)), now);
  }
}

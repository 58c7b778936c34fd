/**
 * api/auth/send-otp.js: the serverless send route. The OTP is embedded in a signed ticket that
 * expires after five minutes and is handed to the client; the server keeps nothing.
 */
module SendOtpHandler {
  import opened Wrappers
  import opened JsValue
  import opened Http
  import TokenCodec
  import OtpCode

  /** `expiresIn: '5m'`. */
  const TicketLifetime: nat := 300000

  /** The mail `sendOTPEmail` is asked to deliver. */
  datatype Mail = Mail(to: Value, code: string)

  /** The response and the mail sent, if any. */
  datatype Outcome = Outcome(response: Response, mail: Option<Mail>)

  /** The ticket payload: `{email, otp, isSignup: isSignup || false, attempts: 0, timestamp}`. */
  function TicketClaims(email: Value, otp: string, isSignup: Option<Value>, now: nat): Object {
    [("email", email), ("otp", Str(otp)), ("isSignup", OrFalse(isSignup)), ("attempts", Num(0)), ("timestamp", Num(now))]
  }

  /** The ticket a POST with this email and flag issues at `now` for the draw `r`. */
  function Ticket(email: Value, isSignup: Option<Value>, r: nat, now: nat, env: Env): string
    requires r < OtpCode.CodeRange
  {
    TokenCodec.Sign(TicketClaims(email, OtpCode.GenerateOtp(r), isSignup, now), env.jwtSecret, now, Some(TicketLifetime))
  }

  /**
   * `handler(req, res)` (api/auth/send-otp.js:43-100): `r` is the random draw, `now` is
   * `Date.now()`, `delivered` says whether the transporter accepted the mail.
   */
  function Handle(req: Request, env: Env, r: nat, now: nat, delivered: bool): (o: Outcome)
    requires r < OtpCode.CodeRange
    ensures o.response.status in {200, 400, 405, 500}
    ensures o.mail.Some? <==> req.verb == "POST" && Truthy(Field(req.body, "email")) && HasSecret(env)
    ensures o.mail.Some? ==> o.mail.value == Mail(Field(req.body, "email").value, OtpCode.GenerateOtp(r))
    ensures o.response.status == 200 <==> req.verb == "OPTIONS" || (o.mail.Some? && delivered)
  {
    if req.verb == "OPTIONS" then Outcome(Response(200, NoContent), None)
    else if req.verb != "POST" then Outcome(Response(405, Error("Method not allowed")), None)
    else
      var email := Field(req.body, "email");
      if !Truthy(email) then Outcome(BadRequest("Email is required"), None)
      else if !HasSecret(env) then Outcome(Response(500, Error("Failed to send OTP")), None)
      else
        var otp := OtpCode.GenerateOtp(r);
        var otpToken := TokenCodec.Sign(TicketClaims(email.value, otp, Field(req.body, "isSignup"), now),
                                        env.jwtSecret, now, Some(TicketLifetime));
        var mail := Some(Mail(email.value, otp));
        if delivered then Outcome(Response(200, OtpIssued("OTP sent successfully", otpToken)), mail)
        else Outcome(Response(500, Error("Failed to send OTP")), mail)
  }

  /** A preflight gets an empty 200, any other method but POST a 405; neither sends mail. */
  lemma MethodGuard(req: Request, env: Env, r: nat, now: nat, delivered: bool)
    requires r < OtpCode.CodeRange
    ensures req.verb == "OPTIONS" ==> Handle(req, env, r, now, delivered) == Outcome(Response(200, NoContent), None)
    ensures req.verb != "OPTIONS" && req.verb != "POST" ==>
      Handle(req, env, r, now, delivered) == Outcome(Response(405, Error("Method not allowed")), None)
  {
  }

  /** A falsy email is refused before any code is drawn or mail sent. */
  lemma EmailRequired(req: Request, env: Env, r: nat, now: nat, delivered: bool)
    requires r < OtpCode.CodeRange
    requires req.verb == "POST" && !Truthy(Field(req.body, "email"))
    ensures Handle(req, env, r, now, delivered) == Outcome(BadRequest("Email is required"), None)
  {
  }

  /**
   * On success the body is exactly `{message, otpToken}`; the ticket decodes, until five minutes
   * after issue, to the request email, a six-digit code equal to the one mailed, the signup
   * flag or false, zero attempts and the issue time, and is Expired from then on.
   */
  lemma TicketCarriesMailedCode(req: Request, env: Env, r: nat, now: nat, later: nat)
    requires r < OtpCode.CodeRange && HasSecret(env)
    requires req.verb == "POST" && Truthy(Field(req.body, "email"))
    ensures var o := Handle(req, env, r, now, true);
      var email := Field(req.body, "email").value;
      o.mail == Some(Mail(email, OtpCode.GenerateOtp(r))) &&
      o.response == Response(200, OtpIssued("OTP sent successfully", Ticket(email, Field(req.body, "isSignup"), r, now, env))) &&
      |o.mail.value.code| == 6 &&
      TokenCodec.Verify(o.response.body.otpToken, env.jwtSecret, later)
        == if later < now + TicketLifetime
           then TokenCodec.Decoded(TicketClaims(email, o.mail.value.code, Field(req.body, "isSignup"), now))
           else TokenCodec.Expired
  {
    var email := Field(req.body, "email").value;
    OtpCode.SixDigits(r);
    TokenCodec.SignThenVerify(TicketClaims(email, OtpCode.GenerateOtp(r), Field(req.body, "isSignup"), now),
                              env.jwtSecret, now, Some(TicketLifetime), later);
  }

  /** The payload's `otp` is the mailed code and its `attempts` is 0. */
  lemma TicketClaimsFields(email: Value, otp: string, isSignup: Option<Value>, now: nat)
    ensures var c := TicketClaims(email, otp, isSignup, now);
      Get(c, "email") == Some(email) && Get(c, "otp") == Some(Str(otp)) &&
      Get(c, "isSignup") == Some(OrFalse(isSignup)) && Get(c, "attempts") == Some(Num(0)) &&
      Get(c, "timestamp") == Some(Num(now)) && Get(c, "userId") == None
  {
    var e, o, f, a, t := ("email", email), ("otp", Str(otp)), ("isSignup", OrFalse(isSignup)), ("attempts", Num(0)), ("timestamp", Num(now));
    GetFive(e, o, f, a, t, "email");
    GetFive(e, o, f, a, t, "otp");
    GetFive(e, o, f, a, t, "isSignup");
    GetFive(e, o, f, a, t, "attempts");
    GetFive(e, o, f, a, t, "timestamp");
    GetFive(e, o, f, a, t, "userId");
  }

  /** While it is live, a ticket decodes to its payload, whose fields are the ones issued. */
  lemma LiveTicket(email: Value, isSignup: Option<Value>, r: nat, issued: nat, now: nat, env: Env)
    requires r < OtpCode.CodeRange && HasSecret(env)
    requires issued <= now < issued + TicketLifetime
    ensures var claims := TicketClaims(email, OtpCode.GenerateOtp(r), isSignup, issued);
      TokenCodec.VerifyValue(Str(Ticket(email, isSignup, r, issued, env)), env.jwtSecret, now) == TokenCodec.Decoded(claims) &&
      Get(claims, "email") == Some(email) && Get(claims, "otp") == Some(Str(OtpCode.GenerateOtp(r))) &&
      Get(claims, "isSignup") == Some(OrFalse(isSignup)) && Get(claims, "attempts") == Some(Num(0)) &&
      Get(claims, "userId") == None
  {
    var code := OtpCode.GenerateOtp(r);
    TicketClaimsFields(email, code, isSignup, issued);
    TokenCodec.SignThenVerify(TicketClaims(email, code, isSignup, issued), env.jwtSecret, issued, Some(TicketLifetime), now);
  }

  /**
   * Without a signing key `jwt.sign` throws before the mail is sent: the answer is the catch's
   * 500 and no mail goes out, whether or not delivery would have worked.
   */
  lemma NoSecretNoMail(req: Request, env: Env, r: nat, now: nat, delivered: bool)
    requires r < OtpCode.CodeRange && !HasSecret(env)
    requires req.verb == "POST" && Truthy(Field(req.body, "email"))
    ensures Handle(req, env, r, now, delivered) == Outcome(Response(500, Error("Failed to send OTP")), None)
  {
  }

  /** A failed delivery answers 500 and hands out no ticket, though the mail was attempted. */
  lemma DeliveryFailure(req: Request, env: Env, r: nat, now: nat)
    requires r < OtpCode.CodeRange && HasSecret(env)
    requires req.verb == "POST" && Truthy(Field(req.body, "email"))
    ensures Handle(req, env, r, now, false).response == Response(500, Error("Failed to send OTP"))
    ensures Handle(req, env, r, now, false).mail.Some?
  {
  }
}

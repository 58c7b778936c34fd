/**
 * api/auth/complete-signup.js: checks a code against a signup ticket and creates the user
 * record (returned, not stored) together with its session token. Stateless.
 */
module CompleteSignupHandler {
  import opened Wrappers
  import opened JsValue
  import opened Http
  import TokenCodec
  import OtpCode
  import SendOtpHandler

  /** The claims of the token for a new user: `{userId, email}`. */
  function UserClaims(user: User): Object {
    [("userId", Str(user.id)), ("email", user.email)]
  }

  /** The session token of a new user, issued at its creation time. */
  function UserToken(user: User, env: Env): string {
    TokenCodec.Sign(UserClaims(user), env.jwtSecret, user.createdAt, Some(SessionLifetime(env)))
  }

  /**
   * `handler(req, res)` (api/auth/complete-signup.js:3-74) at time `now`; `uuid` is the
   * identifier `uuidv4()` returns.
   */
  function Handle(req: Request, env: Env, uuid: string, now: nat): (resp: Response)
    ensures resp.status in {200, 400, 405}
    ensures resp.status == 200 && req.verb != "OPTIONS" ==>
      req.verb == "POST" &&
      Truthy(Field(req.body, "email")) && Truthy(Field(req.body, "username")) && Truthy(Field(req.body, "name")) &&
      resp.body.SignupDone? &&
      resp.body.user == User(uuid, Field(req.body, "email").value, Field(req.body, "username").value,
                             Field(req.body, "name").value, now)
  {
    if req.verb == "OPTIONS" then Response(200, NoContent)
    else if req.verb != "POST" then Response(405, Error("Method not allowed"))
    else
      var email := Field(req.body, "email");
      var username := Field(req.body, "username");
      var name := Field(req.body, "name");
      var otp := Field(req.body, "otp");
      var otpToken := Field(req.body, "otpToken");
      if !Truthy(otpToken) || !Truthy(otp) || !Truthy(email) || !Truthy(username) || !Truthy(name) then
        BadRequest("All fields are required")
      else Checked(email.value, username.value, name.value, otp.value,
                   TokenCodec.VerifyValue(otpToken.value, env.jwtSecret, now), env, uuid, now)
  }

  /** The ticket checks and the user creation once all five fields are present (lines 27-68). */
  function Checked(email: Value, username: Value, name: Value, otp: Value, verdict: TokenCodec.Verified,
                   env: Env, uuid: string, now: nat): (resp: Response)
    ensures resp.status in {200, 400}
    ensures resp.status == 200 <==>
      verdict.Decoded? && Get(verdict.claims, "email") == Some(email) && Get(verdict.claims, "otp") == Some(otp) &&
      Truthy(Get(verdict.claims, "isSignup"))
    ensures resp.status == 200 ==>
      var user := User(uuid, email, username, name, now);
      resp.body == SignupDone(UserToken(user, env), user)
  {
    match verdict
    case Expired => BadRequest("OTP expired")
    case Invalid => BadRequest("Invalid token")
    case Decoded(payload) =>
      if Get(payload, "email") != Some(email) then BadRequest("Email mismatch")
      else if Get(payload, "otp") != Some(otp) then BadRequest("Invalid OTP")
      else if !Truthy(Get(payload, "isSignup")) then BadRequest("This OTP was not generated for signup")
      else
        var user := User(uuid, email, username, name, now);
        Response(200, SignupDone(UserToken(user, env), user))
  }

  /** The body a client sends: `{email, username, name, otp, otpToken}`. */
  function SignupRequest(email: Value, username: Value, name: Value, otp: Value, otpToken: Value): Request {
    Request("POST", map["email" := email, "username" := username, "name" := name, "otp" := otp, "otpToken" := otpToken], None)
  }

  /** Five truthy fields, in the model's own terms. */
  predicate AllPresent(email: Value, username: Value, name: Value, otp: Value, otpToken: Value) {
    Truthy(Some(email)) && Truthy(Some(username)) && Truthy(Some(name)) && Truthy(Some(otp)) && Truthy(Some(otpToken))
  }

  /** A POST request whose body has these five fields (other fields may be present too). */
  predicate Carries(req: Request, email: Value, username: Value, name: Value, otp: Value, otpToken: Value) {
    req.verb == "POST" && Field(req.body, "email") == Some(email) && Field(req.body, "username") == Some(username) &&
    Field(req.body, "name") == Some(name) && Field(req.body, "otp") == Some(otp) && Field(req.body, "otpToken") == Some(otpToken)
  }

  /** The body a client sends carries exactly the fields it was built from. */
  lemma SignupRequestCarries(email: Value, username: Value, name: Value, otp: Value, otpToken: Value)
    ensures Carries(SignupRequest(email, username, name, otp, otpToken), email, username, name, otp, otpToken)
  {
    var b := SignupRequest(email, username, name, otp, otpToken).body;
    assert b["email"] == email;
    assert b["username"] == username;
    assert b["name"] == name;
    assert b["otp"] == otp;
    assert b["otpToken"] == otpToken;
  }

  /** A request carrying all five fields goes on to the ticket checks. */
  lemma PresentFieldsChecked(req: Request, email: Value, username: Value, name: Value, otp: Value, otpToken: Value,
                             env: Env, uuid: string, now: nat)
    requires Carries(req, email, username, name, otp, otpToken) && AllPresent(email, username, name, otp, otpToken)
    ensures Handle(req, env, uuid, now)
         == Checked(email, username, name, otp, TokenCodec.VerifyValue(otpToken, env.jwtSecret, now), env, uuid, now)
  {
  }

  lemma MethodGuard(req: Request, env: Env, uuid: string, now: nat)
    ensures req.verb == "OPTIONS" ==> Handle(req, env, uuid, now) == Response(200, NoContent)
    ensures req.verb != "OPTIONS" && req.verb != "POST" ==> Handle(req, env, uuid, now) == Response(405, Error("Method not allowed"))
  {
  }

  /** Any falsy field of the five is refused before the ticket is looked at. */
  lemma FieldsRequired(req: Request, env: Env, uuid: string, now: nat)
    requires req.verb == "POST"
    requires !Truthy(Field(req.body, "email")) || !Truthy(Field(req.body, "username")) || !Truthy(Field(req.body, "name"))
          || !Truthy(Field(req.body, "otp")) || !Truthy(Field(req.body, "otpToken"))
    ensures Handle(req, env, uuid, now) == BadRequest("All fields are required")
  {
  }

  /**
   * With a decoded payload the checks run email, code, signup flag, first failure deciding;
   * there is no attempts check at all, so the payload's `attempts` never matters, and on
   * success the user echoes the request fields with the fresh id and the current time.
   */
  lemma GuardOrder(email: Value, username: Value, name: Value, otp: Value,
                   env: Env, uuid: string, now: nat, payload: Object)
    ensures var resp := Checked(email, username, name, otp, TokenCodec.Decoded(payload), env, uuid, now);
      var user := User(uuid, email, username, name, now);
      (Get(payload, "email") != Some(email) ==> resp == BadRequest("Email mismatch")) &&
      (Get(payload, "email") == Some(email) && Get(payload, "otp") != Some(otp) ==> resp == BadRequest("Invalid OTP")) &&
      (Get(payload, "email") == Some(email) && Get(payload, "otp") == Some(otp) && !Truthy(Get(payload, "isSignup")) ==>
        resp == BadRequest("This OTP was not generated for signup")) &&
      (resp.status == 200 <==>
        Get(payload, "email") == Some(email) && Get(payload, "otp") == Some(otp) && Truthy(Get(payload, "isSignup"))) &&
      (resp.status == 200 ==> resp == Response(200, SignupDone(UserToken(user, env), user)))
  {
  }

  /** An expired ticket and an otherwise failing one get different messages. */
  lemma ExpiredOrInvalid(req: Request, email: Value, username: Value, name: Value, otp: Value, ticket: Value,
                         env: Env, uuid: string, now: nat)
    requires Carries(req, email, username, name, otp, ticket) && AllPresent(email, username, name, otp, ticket)
    ensures TokenCodec.VerifyValue(ticket, env.jwtSecret, now) == TokenCodec.Expired ==>
      Handle(req, env, uuid, now) == BadRequest("OTP expired")
    ensures TokenCodec.VerifyValue(ticket, env.jwtSecret, now) == TokenCodec.Invalid ==>
      Handle(req, env, uuid, now) == BadRequest("Invalid token")
  {
  }

  /** A new user's token verifies, until the session lifetime ends, to `{userId, email}` of that user. */
  lemma UserTokenClaims(user: User, now: nat, env: Env)
    requires HasSecret(env)
    requires now < user.createdAt + SessionLifetime(env)
    ensures TokenCodec.Verify(UserToken(user, env), env.jwtSecret, now)
         == TokenCodec.Decoded([("userId", Str(user.id)), ("email", user.email)])
  {
    TokenCodec.SignThenVerify(UserClaims(user), env.jwtSecret, user.createdAt, Some(SessionLifetime(env)), now);
  }

  /** On a request with all fields whose ticket decodes to `payload`, the checks decide alone. */
  lemma DecidedByPayload(req: Request, email: Value, username: Value, name: Value, otp: Value, ticket: Value,
                         env: Env, uuid: string, now: nat, payload: Object)
    requires Carries(req, email, username, name, otp, ticket) && AllPresent(email, username, name, otp, ticket)
    requires TokenCodec.VerifyValue(ticket, env.jwtSecret, now) == TokenCodec.Decoded(payload)
    requires Get(payload, "email") == Some(email)
    ensures var resp := Handle(req, env, uuid, now);
      var user := User(uuid, email, username, name, now);
      (Get(payload, "otp") != Some(otp) ==> resp == BadRequest("Invalid OTP")) &&
      (Get(payload, "otp") == Some(otp) && !Truthy(Get(payload, "isSignup")) ==>
        resp == BadRequest("This OTP was not generated for signup")) &&
      (Get(payload, "otp") == Some(otp) && Truthy(Get(payload, "isSignup")) ==>
        resp == Response(200, SignupDone(UserToken(user, env), user)))
  {
    PresentFieldsChecked(req, email, username, name, otp, ticket, env, uuid, now);
    GuardOrder(email, username, name, otp, env, uuid, now, payload);
  }

  /** A decoded signup ticket naming the request's email and code creates the user. */
  lemma AcceptsSignupPayload(req: Request, email: Value, username: Value, name: Value, otp: Value, ticket: Value,
                             env: Env, uuid: string, now: nat, payload: Object)
    requires Carries(req, email, username, name, otp, ticket) && AllPresent(email, username, name, otp, ticket)
    requires TokenCodec.VerifyValue(ticket, env.jwtSecret, now) == TokenCodec.Decoded(payload)
    requires Get(payload, "email") == Some(email) && Get(payload, "otp") == Some(otp)
    requires Get(payload, "isSignup") == Some(Bool(true))
    ensures var user := User(uuid, email, username, name, now);
      Handle(req, env, uuid, now) == Response(200, SignupDone(UserToken(user, env), user))
  {
    PresentFieldsChecked(req, email, username, name, otp, ticket, env, uuid, now);
    GuardOrder(email, username, name, otp, env, uuid, now, payload);
  }

  /** A signup ticket's payload names the email and the code and has `isSignup: true`. */
  lemma SignupClaimsFields(email: Value, code: string, issued: nat)
    ensures var claims := SendOtpHandler.TicketClaims(email, code, Some(Bool(true)), issued);
      Get(claims, "email") == Some(email) && Get(claims, "otp") == Some(Str(code)) && Get(claims, "isSignup") == Some(Bool(true))
  {
    SendOtpHandler.TicketClaimsFields(email, code, Some(Bool(true)), issued);
  }

  /**
   * Any ticket text that verifies, at `now`, to the claims send-otp puts in a signup ticket for
   * this email and code lets the request carrying it and the code create the user.
   */
  lemma AcceptsSignupTicket(req: Request, email: Value, username: Value, name: Value, r: nat, issued: nat, now: nat,
                            uuid: string, env: Env, ticket: string)
    requires r < OtpCode.CodeRange && Truthy(Some(email)) && Truthy(Some(username)) && Truthy(Some(name)) && ticket != ""
    requires TokenCodec.Verify(ticket, env.jwtSecret, now)
          == TokenCodec.Decoded(SendOtpHandler.TicketClaims(email, OtpCode.GenerateOtp(r), Some(Bool(true)), issued))
    requires Carries(req, email, username, name, Str(OtpCode.GenerateOtp(r)), Str(ticket))
    ensures var user := User(uuid, email, username, name, now);
      Handle(req, env, uuid, now) == Response(200, SignupDone(UserToken(user, env), user))
  {
    var code := OtpCode.GenerateOtp(r);
    var claims := SendOtpHandler.TicketClaims(email, code, Some(Bool(true)), issued);
    assert AllPresent(email, username, name, Str(code), Str(ticket)) by { OtpCode.SixDigits(r); }
    SignupClaimsFields(email, code, issued);
    AcceptsSignupPayload(req, email, username, name, Str(code), Str(ticket), env, uuid, now, claims);
  }

  /**
   * End to end: a request carrying a live signup ticket and its mailed code creates the user
   * from the request fields.
   */
  lemma SignupTicketSucceeds(req: Request, email: Value, username: Value, name: Value, r: nat, issued: nat, now: nat,
                             uuid: string, env: Env)
    requires HasSecret(env)
    requires r < OtpCode.CodeRange && Truthy(Some(email)) && Truthy(Some(username)) && Truthy(Some(name))
    requires issued <= now < issued + SendOtpHandler.TicketLifetime
    requires Carries(req, email, username, name, Str(OtpCode.GenerateOtp(r)),
                     Str(SendOtpHandler.Ticket(email, Some(Bool(true)), r, issued, env)))
    ensures var user := User(uuid, email, username, name, now);
      Handle(req, env, uuid, now) == Response(200, SignupDone(UserToken(user, env), user))
  {
    SendOtpHandler.LiveTicket(email, Some(Bool(true)), r, issued, now, env);
    AcceptsSignupTicket(req, email, username, name, r, issued, now, uuid, env,
                        SendOtpHandler.Ticket(email, Some(Bool(true)), r, issued, env));
  }

  /**
   * A login ticket (issued without the signup flag) with its correct code is refused for its
   * purpose, and with a wrong code as "Invalid OTP": the code check runs first.
   */
  lemma LoginTicketRefused(req: Request, email: Value, username: Value, name: Value, otp: Value, r: nat, issued: nat,
                           now: nat, uuid: string, env: Env)
    requires HasSecret(env)
    requires r < OtpCode.CodeRange && Truthy(Some(email)) && Truthy(Some(username)) && Truthy(Some(name)) && Truthy(Some(otp))
    requires issued <= now < issued + SendOtpHandler.TicketLifetime
    requires Carries(req, email, username, name, otp, Str(SendOtpHandler.Ticket(email, None, r, issued, env)))
    ensures Handle(req, env, uuid, now)
         == if otp == Str(OtpCode.GenerateOtp(r)) then BadRequest("This OTP was not generated for signup")
            else BadRequest("Invalid OTP")
  {
    var code := OtpCode.GenerateOtp(r);
    var ticket := Str(SendOtpHandler.Ticket(email, None, r, issued, env));
    SendOtpHandler.LiveTicket(email, None, r, issued, now, env);
    DecidedByPayload(req, email, username, name, otp, ticket, env, uuid, now, SendOtpHandler.TicketClaims(email, code, None, issued));
  }

  /**
   * No guess counter: a wrong code changes nothing (the route is stateless), so after any
   * number of wrong guesses the right code, within the ticket's lifetime, still succeeds.
   */
  lemma UnlimitedGuesses(guess: Request, retry: Request, email: Value, username: Value, name: Value, wrong: Value,
                         r: nat, issued: nat, t1: nat, t2: nat, uuid: string, env: Env)
    requires HasSecret(env)
    requires r < OtpCode.CodeRange && Truthy(Some(email)) && Truthy(Some(username)) && Truthy(Some(name)) && Truthy(Some(wrong))
    requires wrong != Str(OtpCode.GenerateOtp(r))
    requires issued <= t1 <= t2 < issued + SendOtpHandler.TicketLifetime
    requires Carries(guess, email, username, name, wrong, Str(SendOtpHandler.Ticket(email, Some(Bool(true)), r, issued, env)))
    requires Carries(retry, email, username, name, Str(OtpCode.GenerateOtp(r)),
                     Str(SendOtpHandler.Ticket(email, Some(Bool(true)), r, issued, env)))
    ensures Handle(guess, env, uuid, t1) == BadRequest("Invalid OTP")
    ensures Handle(retry, env, uuid, t2).status == 200
  {
    var code := OtpCode.GenerateOtp(r);
    var ticket := Str(SendOtpHandler.Ticket(email, Some(Bool(true)), r, issued, env));
    SendOtpHandler.LiveTicket(email, Some(Bool(true)), r, issued, t1, env);
    DecidedByPayload(guess, email, username, name, wrong, ticket, env, uuid, t1,
                     SendOtpHandler.TicketClaims(email, code, Some(Bool(true)), issued));
    SignupTicketSucceeds(retry, email, username, name, r, issued, t2, uuid, env);
  }

  /** Two successful calls with different generated ids create users with different ids. */
  lemma FreshIdPerCall(req: Request, env: Env, u1: string, u2: string, now: nat)
    requires req.verb == "POST" && u1 != u2
    requires Handle(req, env, u1, now).status == 200
    ensures Handle(req, env, u1, now).body.SignupDone? && Handle(req, env, u2, now).body.SignupDone?
    ensures var a, b := Handle(req, env, u1, now).body.user, Handle(req, env, u2, now).body.user;
      a.id == u1 && b.id == u2 && a.id != b.id && a.(id := u2) == b
  {
  }
}

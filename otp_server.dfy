/**
 * backend/server.js: the Express variant of the OTP protocol. A module-level map keyed by
 * email holds `{otp: bcrypt hash, timestamp, attempts}`; each route is one atomic step on it.
 */
module OtpServer {
  import opened Wrappers
  import opened JsValue
  import opened Http
  import TokenCodec
  import OtpCode

  /** `5 * 60 * 1000`: a record is live while at most this many ms have passed. */
  const OtpLifetime: nat := 300000
  const MaxAttempts: nat := 3

  /** bcrypt, idealised: a digest matches exactly the code it was made from. */
  datatype Digest = Digest(code: string)

  function Hash(code: string): Digest { Digest(code) }

  predicate Matches(candidate: string, d: Digest) { candidate == d.code }

  lemma HashMatches(candidate: string, code: string)
    ensures Matches(candidate, Hash(code)) <==> candidate == code
  {
  }

  datatype Record = Record(hashedOtp: Digest, timestamp: nat, attempts: nat)

  type Store = map<string, Record>

  datatype Mail = Mail(to: string, code: string)

  /** One route call: the response, the store afterwards, and whether a code comparison ran. */
  datatype Step = Step(response: Response, store: Store, compared: bool)

  predicate Expired(rec: Record, now: nat) { now as int - rec.timestamp as int > OtpLifetime }

  /**
   * Whether the backend's `jwt.sign(..., { expiresIn: process.env.JWT_EXPIRY })` can issue a
   * token: it throws for an empty key and for an `expiresIn` of `undefined` (no default here).
   */
  predicate CanIssue(env: Env) { HasSecret(env) && env.jwtExpiry.Some? }

  /** The catch of both issuing routes. */
  const IssueFailed := Response(500, Error("Failed to verify OTP"))

  /** The record `/send-otp` stores for a freshly generated code. */
  function FreshRecord(code: string, now: nat): Record { Record(Hash(code), now, 0) }

  /** The `/verify-otp` route body (backend/server.js:75-121) as a step on the store. */
  function VerifyStep(store: Store, email: string, otp: string, now: nat, env: Env): (s: Step)
    ensures s.store - {email} == store - {email}
    ensures s.compared <==> email in store && !Expired(store[email], now) && store[email].attempts < MaxAttempts
    ensures s.response.status == 200 <==> s.compared && Matches(otp, store[email].hashedOtp) && CanIssue(env)
    ensures s.response == IssueFailed <==> s.compared && Matches(otp, store[email].hashedOtp) && !CanIssue(env)
    ensures email in s.store ==>
      s.compared && s.response == BadRequest("Invalid OTP") &&
      s.store[email] == store[email].(attempts := store[email].attempts + 1)
    ensures s.compared && !Matches(otp, store[email].hashedOtp) ==>
      s.response == BadRequest("Invalid OTP") && email in s.store &&
      s.store[email] == store[email].(attempts := store[email].attempts + 1)
  {
    if email !in store then Step(BadRequest("OTP expired or not sent"), store, false)
    else
      var rec := store[email];
      if Expired(rec, now) then Step(BadRequest("OTP expired"), store - {email}, false)
      else if rec.attempts >= MaxAttempts then
        Step(BadRequest("Too many attempts. Please request a new OTP"), store - {email}, false)
      else
        var counted := store[email := rec.(attempts := rec.attempts + 1)];
        if !Matches(otp, rec.hashedOtp) then Step(BadRequest("Invalid OTP"), counted, true)
        else if !CanIssue(env) then Step(IssueFailed, counted - {email}, true)
        else
          var token := TokenCodec.Sign([("email", Str(email))], env.jwtSecret, now, env.jwtExpiry);
          Step(Response(200, TokenIssued(token)), counted - {email}, true)
  }

  /** The `/complete-signup` route body (backend/server.js:124-169): no attempt counting at all. */
  function SignupStep(store: Store, email: string, username: string, name: string, otp: string,
                      now: nat, uuid: string, env: Env): (s: Step)
    ensures s.store - {email} == store - {email}
    ensures s.compared <==> email in store && !Expired(store[email], now)
    ensures s.response.status == 200 <==> s.compared && Matches(otp, store[email].hashedOtp) && CanIssue(env)
    ensures s.response == IssueFailed <==> s.compared && Matches(otp, store[email].hashedOtp) && !CanIssue(env)
    ensures email in s.store ==> email in store && s.store[email] == store[email]
  {
    if email !in store then Step(BadRequest("OTP expired or not sent"), store, false)
    else
      var rec := store[email];
      if Expired(rec, now) then Step(BadRequest("OTP expired"), store - {email}, false)
      else if !Matches(otp, rec.hashedOtp) then Step(BadRequest("Invalid OTP"), store, true)
      else if !CanIssue(env) then Step(IssueFailed, store - {email}, true)
      else
        var user := User(uuid, Str(email), Str(username), Str(name), now);
        var token := TokenCodec.Sign([("userId", Str(uuid)), ("email", Str(email))], env.jwtSecret, now, env.jwtExpiry);
        Step(Response(200, SignupDone(token, user)), store - {email}, true)
  }

  /** The outcome of the `authenticateToken` middleware: a response, or the claims handed to `next`. */
  datatype Gate = Reject(response: Response) | Pass(claims: Object)

  /** `authenticateToken` (backend/server.js:172-187). */
  function AuthenticateToken(header: Option<string>, env: Env, now: nat): (g: Gate)
    ensures g.Pass? ==>
      BearerToken(header).Some? && TokenCodec.Verify(BearerToken(header).value, env.jwtSecret, now) == TokenCodec.Decoded(g.claims)
    ensures g.Reject? ==> g.response.status == if BearerToken(header).None? then 401 else 403
  {
    match BearerToken(header)
    case None => Reject(Response(401, Error("Access token required")))
    case Some(token) =>
      match TokenCodec.Verify(token, env.jwtSecret, now)
      case Decoded(claims) => Pass(claims)
      case _ => Reject(Response(403, Error("Invalid or expired token")))
  }

  /** `GET /api/user/profile` behind the middleware: `{ user: req.user }`. */
  function ProfileRoute(header: Option<string>, env: Env, now: nat): (resp: Response)
    ensures resp.status in {200, 401, 403}
    ensures resp.status == 200 ==>
      resp.body.UserClaims? && BearerToken(header).Some? &&
      TokenCodec.Verify(BearerToken(header).value, env.jwtSecret, now) == TokenCodec.Decoded(resp.body.claims)
  {
    match AuthenticateToken(header, env, now)
    case Reject(r) => r
    case Pass(claims) => Response(200, UserClaims(claims))
  }

  /** The OTP store of one server process and its three routes. */
  class OtpService {
    var store: Store
    const env: Env

    constructor(env: Env)
      ensures store == map[] && this.env == env
    {
      store := map[];
      this.env := env;
    }

    /**
     * `POST /api/auth/send-otp`: the record is stored before the mail goes out, so a failed
     * delivery answers 500 but leaves the new record live.
     */
    method SendOtp(email: string, r: nat, now: nat, delivered: bool) returns (response: Response, mail: Mail)
      requires r < OtpCode.CodeRange
      modifies this
      ensures store == old(store)[email := FreshRecord(OtpCode.GenerateOtp(r), now)]
      ensures mail == Mail(email, OtpCode.GenerateOtp(r))
      ensures response == if delivered then Response(200, Message("OTP sent successfully"))
                          else Response(500, Error("Failed to send OTP"))
    {
      var otp := OtpCode.GenerateOtp(r);
      store := store[email := Record(Hash(otp), now, 0)];
      mail := Mail(email, otp);
      if delivered {
        response := Response(200, Message("OTP sent successfully"));
      } else {
        response := Response(500, Error("Failed to send OTP"));
      }
    }

    /** `POST /api/auth/verify-otp`: expiry, then the attempt limit, then count, then compare. */
    method VerifyOtp(email: string, otp: string, now: nat) returns (response: Response, ghost compared: bool)
      modifies this
      ensures VerifyStep(old(store), email, otp, now, env) == Step(response, store, compared)
      ensures store - {email} == old(store) - {email}
    {
      compared := false;
      if email !in store {
        return BadRequest("OTP expired or not sent"), compared;
      }
      var storedData := store[email];
      if now as int - storedData.timestamp as int > OtpLifetime {
        store := store - {email};
        return BadRequest("OTP expired"), compared;
      }
      if storedData.attempts >= MaxAttempts {
        store := store - {email};
        return BadRequest("Too many attempts. Please request a new OTP"), compared;
      }
      storedData := storedData.(attempts := storedData.attempts + 1);
      store := store[email := storedData];
      compared := true;
      if !Matches(otp, storedData.hashedOtp) {
        return BadRequest("Invalid OTP"), compared;
      }
      store := store - {email};
      if !CanIssue(env) {
        return IssueFailed, compared;
      }
      var token := TokenCodec.Sign([("email", Str(email))], env.jwtSecret, now, env.jwtExpiry);
      response := Response(200, TokenIssued(token));
    }

    /** `POST /api/auth/complete-signup`: expiry, then compare; the counter is never read or written. */
    method CompleteSignup(email: string, username: string, name: string, otp: string, now: nat, uuid: string)
      returns (response: Response)
      modifies this
      ensures SignupStep(old(store), email, username, name, otp, now, uuid, env).response == response
      ensures SignupStep(old(store), email, username, name, otp, now, uuid, env).store == store
    {
      if email !in store {
        return BadRequest("OTP expired or not sent");
      }
      var storedData := store[email];
      if now as int - storedData.timestamp as int > OtpLifetime {
        store := store - {email};
        return BadRequest("OTP expired");
      }
      if !Matches(otp, storedData.hashedOtp) {
        return BadRequest("Invalid OTP");
      }
      store := store - {email};
      if !CanIssue(env) {
        return IssueFailed;
      }
      var user := User(uuid, Str(email), Str(username), Str(name), now);
      var token := TokenCodec.Sign([("userId", Str(user.id)), ("email", user.email)], env.jwtSecret, now, env.jwtExpiry);
      response := Response(200, SignupDone(token, user));
    }
  }

  // ---------------------------------------------------------------------------------------
  // Properties of the routes

  /** The stored code is six digits in [100000, 999999], fresh, with no attempts used. */
  lemma SendStoresFreshRecord(r: nat, now: nat)
    requires r < OtpCode.CodeRange
    ensures var rec := FreshRecord(OtpCode.GenerateOtp(r), now);
      rec.attempts == 0 && rec.timestamp == now &&
      |rec.hashedOtp.code| == 6 && 100000 <= OtpCode.MinCode + r <= 999999
  {
    OtpCode.SixDigits(r);
  }

  /** With no record, verify answers "OTP expired or not sent" and changes nothing. */
  lemma VerifyWithoutRecord(store: Store, email: string, otp: string, now: nat, env: Env)
    requires email !in store
    ensures VerifyStep(store, email, otp, now, env) == Step(BadRequest("OTP expired or not sent"), store, false)
  {
  }

  /** Exactly 5 minutes after issue a record still validates; one ms later it is deleted as expired. */
  lemma ExpiryBoundary(store: Store, email: string, code: string, issued: nat, env: Env)
    requires store == map[email := FreshRecord(code, issued)]
    ensures VerifyStep(store, email, code, issued + OtpLifetime, env).response.status == if CanIssue(env) then 200 else 500
    ensures VerifyStep(store, email, code, issued + OtpLifetime + 1, env)
         == Step(BadRequest("OTP expired"), map[], false)
  {
    assert store - {email} == map[];
  }

  /** A record with 3 attempts used is deleted and refused even when the code is right. */
  lemma ExhaustedEvenIfCorrect(store: Store, email: string, otp: string, now: nat, env: Env)
    requires email in store && !Expired(store[email], now) && store[email].attempts >= MaxAttempts
    requires Matches(otp, store[email].hashedOtp)
    ensures VerifyStep(store, email, otp, now, env)
         == Step(BadRequest("Too many attempts. Please request a new OTP"), store - {email}, false)
  {
  }

  /**
   * No replay: a successful verify consumes the record, so the very same request is refused
   * next time, and the token it returns carries exactly `{email}`.
   */
  lemma VerifiedOnce(store: Store, email: string, otp: string, now: nat, later: nat, env: Env)
    requires VerifyStep(store, email, otp, now, env).response.status == 200
    ensures var s := VerifyStep(store, email, otp, now, env);
      email !in s.store &&
      VerifyStep(s.store, email, otp, later, env).response == BadRequest("OTP expired or not sent") &&
      CanIssue(env) && s.response.body.TokenIssued? &&
      (env.jwtExpiry.value > 0 ==>
        TokenCodec.Verify(s.response.body.token, env.jwtSecret, now) == TokenCodec.Decoded([("email", Str(email))]))
  {
    TokenCodec.SignThenVerify([("email", Str(email))], env.jwtSecret, now, env.jwtExpiry, now);
  }

  /** The number of code comparisons a series of verify calls for one email performs. */
  function Comparisons(store: Store, email: string, calls: seq<(string, nat)>, env: Env): nat
    decreases |calls|
  {
    if calls == [] then 0
    else
      var s := VerifyStep(store, email, calls[0].0, calls[0].1, env);
      (if s.compared then 1 else 0) + Comparisons(s.store, email, calls[1..], env)
  }

  /** The comparisons the record for `email` still allows. */
  function Budget(store: Store, email: string): nat {
    if email in store && store[email].attempts < MaxAttempts then MaxAttempts - store[email].attempts else 0
  }

  lemma BudgetStep(store: Store, email: string, otp: string, now: nat, env: Env)
    ensures var s := VerifyStep(store, email, otp, now, env);
      Budget(s.store, email) + (if s.compared then 1 else 0) <= Budget(store, email)
  {
  }

  /**
   * At most 3 comparisons per record: however many verify calls arrive (with no new send in
   * between), they compare the code no more often than the record's remaining budget.
   */
  lemma {:induction false} AtMostBudgetComparisons(store: Store, email: string, calls: seq<(string, nat)>, env: Env)
    ensures Comparisons(store, email, calls, env) <= Budget(store, email)
    decreases |calls|
  {
    if calls != [] {
      var s := VerifyStep(store, email, calls[0].0, calls[0].1, env);
      BudgetStep(store, email, calls[0].0, calls[0].1, env);
      AtMostBudgetComparisons(s.store, email, calls[1..], env);
    }
  }

  /** A freshly sent record allows at most three comparisons in total. */
  lemma AtMostThreeComparisons(store: Store, email: string, code: string, sent: nat,
                               calls: seq<(string, nat)>, env: Env)
    ensures Comparisons(store[email := FreshRecord(code, sent)], email, calls, env) <= 3
  {
    AtMostBudgetComparisons(store[email := FreshRecord(code, sent)], email, calls, env);
  }

  /** Three wrong codes in the window, then the fourth call is refused even with the right code. */
  lemma FourthAttemptRefused(store: Store, email: string, code: string, sent: nat,
                             w1: string, w2: string, w3: string, t1: nat, t2: nat, t3: nat, t4: nat, env: Env)
    requires w1 != code && w2 != code && w3 != code
    requires sent <= t1 <= t2 <= t3 <= t4 <= sent + OtpLifetime
    ensures var s0 := store[email := FreshRecord(code, sent)];
      var s1 := VerifyStep(s0, email, w1, t1, env);
      var s2 := VerifyStep(s1.store, email, w2, t2, env);
      var s3 := VerifyStep(s2.store, email, w3, t3, env);
      s1.response == s2.response == s3.response == BadRequest("Invalid OTP") &&
      VerifyStep(s3.store, email, code, t4, env).response == BadRequest("Too many attempts. Please request a new OTP")
  {
  }

  /** A second send replaces the first record: the first code no longer verifies. */
  lemma SecondSendInvalidatesFirst(store: Store, email: string, c1: string, c2: string,
                                   t1: nat, t2: nat, now: nat, env: Env)
    requires c1 != c2 && t2 <= now <= t2 + OtpLifetime
    ensures var s := store[email := FreshRecord(c1, t1)][email := FreshRecord(c2, t2)];
      VerifyStep(s, email, c1, now, env).response == BadRequest("Invalid OTP")
  {
  }

  /**
   * complete-signup ignores the counter: a wrong code leaves the store exactly as it was, so
   * guesses through this route are unlimited while the record lives, even when verify-otp has
   * used up every attempt.
   */
  lemma SignupWrongCodeChangesNothing(store: Store, email: string, username: string, name: string,
                                      otp: string, now: nat, uuid: string, env: Env)
    requires email in store && !Expired(store[email], now) && !Matches(otp, store[email].hashedOtp)
    ensures SignupStep(store, email, username, name, otp, now, uuid, env)
         == Step(BadRequest("Invalid OTP"), store, true)
  {
  }

  lemma SignupAfterExhaustion(store: Store, email: string, username: string, name: string,
                              code: string, now: nat, uuid: string, env: Env)
    requires email in store && store[email].attempts >= MaxAttempts && !Expired(store[email], now)
    requires Matches(code, store[email].hashedOtp)
    ensures SignupStep(store, email, username, name, code, now, uuid, env).response.status == if CanIssue(env) then 200 else 500
    ensures VerifyStep(store, email, code, now, env).response.status == 400
  {
  }

  /**
   * complete-signup success: the record is consumed, the user echoes the request with the new
   * id, and the token carries exactly `{userId, email}`.
   */
  lemma SignupIssuesUserToken(store: Store, email: string, username: string, name: string,
                              otp: string, now: nat, uuid: string, env: Env)
    requires SignupStep(store, email, username, name, otp, now, uuid, env).response.status == 200
    ensures var s := SignupStep(store, email, username, name, otp, now, uuid, env);
      email !in s.store && s.response.body.SignupDone? &&
      s.response.body.user == User(uuid, Str(email), Str(username), Str(name), now) && CanIssue(env) &&
      (env.jwtExpiry.value > 0 ==>
        TokenCodec.Verify(s.response.body.token, env.jwtSecret, now)
        == TokenCodec.Decoded([("userId", Str(uuid)), ("email", Str(email))]))
  {
    TokenCodec.SignThenVerify([("userId", Str(uuid)), ("email", Str(email))], env.jwtSecret, now, env.jwtExpiry, now);
  }

  /**
   * The right code on a live record, with no way to sign: the record is deleted first, then
   * `jwt.sign` throws and both routes answer the catch's 500.
   */
  lemma UnsignableAnswers500(store: Store, email: string, username: string, name: string, code: string,
                             now: nat, uuid: string, env: Env)
    requires email in store && !Expired(store[email], now) && Matches(code, store[email].hashedOtp)
    requires !CanIssue(env)
    ensures store[email].attempts < MaxAttempts ==>
      VerifyStep(store, email, code, now, env) == Step(IssueFailed, store - {email}, true)
    ensures SignupStep(store, email, username, name, code, now, uuid, env) == Step(IssueFailed, store - {email}, true)
  {
    var rec := store[email];
    assert store[email := rec.(attempts := rec.attempts + 1)] - {email} == store - {email};
  }

  /** authenticateToken: no token field gives 401, a failed verify 403, otherwise the claims pass. */
  lemma AuthenticateTokenMapping(header: Option<string>, env: Env, now: nat)
    ensures BearerToken(header).None? ==>
      AuthenticateToken(header, env, now) == Reject(Response(401, Error("Access token required")))
    ensures BearerToken(header).Some? ==>
      match TokenCodec.Verify(BearerToken(header).value, env.jwtSecret, now)
      case Decoded(c) => AuthenticateToken(header, env, now) == Pass(c)
      case _ => AuthenticateToken(header, env, now) == Reject(Response(403, Error("Invalid or expired token")))
  {
  }

  /**
   * The middleware passes exactly the claims of a live token signed with the configured key:
   * `Pass(c)` iff the bearer field is the rendering of such a token carrying `c`.
   */
  lemma AuthenticatePassIff(header: Option<string>, env: Env, now: nat, c: Object)
    ensures AuthenticateToken(header, env, now) == Pass(c) <==>
      BearerToken(header).Some? && HasSecret(env) &&
      exists e :: BearerToken(header).value == TokenCodec.Render(TokenCodec.Token(c, e, env.jwtSecret)) && TokenCodec.Live(e, now)
  {
    if BearerToken(header).Some? {
      TokenCodec.DecodedIff(BearerToken(header).value, env.jwtSecret, now, c);
    }
  }

  /** The token verify-otp issues opens the profile route, which returns its claims, `{email}`. */
  lemma IssuedTokenOpensProfile(store: Store, email: string, otp: string, now: nat, later: nat, env: Env)
    requires VerifyStep(store, email, otp, now, env).response.status == 200
    requires env.jwtExpiry.Some? && later < now + env.jwtExpiry.value
    ensures var token := VerifyStep(store, email, otp, now, env).response.body.token;
      ProfileRoute(Some("Bearer " + token), env, later) == Response(200, UserClaims([("email", Str(email))]))
  {
    var token := TokenCodec.Sign([("email", Str(email))], env.jwtSecret, now, env.jwtExpiry);
    VerifyIssues(store, email, otp, now, env);
    assert BearerToken(Some("Bearer " + token)) == Some(token) by {
      AnySchemeAccepted("Bearer", token);
      assert "Bearer " + token == "Bearer" + " " + token;
    }
    TokenCodec.SignThenVerify([("email", Str(email))], env.jwtSecret, now, env.jwtExpiry, later);
    PassOpensProfile(Some("Bearer " + token), env, later, [("email", Str(email))]);
  }

  /** A header whose token verifies to `claims` gets those claims back from the profile route. */
  lemma PassOpensProfile(header: Option<string>, env: Env, now: nat, claims: Object)
    requires BearerToken(header).Some? && TokenCodec.Verify(BearerToken(header).value, env.jwtSecret, now) == TokenCodec.Decoded(claims)
    ensures ProfileRoute(header, env, now) == Response(200, UserClaims(claims))
  {
  }

  /** A 200 from verify carries the token signed for `{email}` with the configured lifetime. */
  lemma VerifyIssues(store: Store, email: string, otp: string, now: nat, env: Env)
    requires VerifyStep(store, email, otp, now, env).response.status == 200
    ensures CanIssue(env)
    ensures VerifyStep(store, email, otp, now, env).response
         == Response(200, TokenIssued(TokenCodec.Sign([("email", Str(email))], env.jwtSecret, now, env.jwtExpiry)))
  {
  }
}

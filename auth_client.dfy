/**
 * src/appwrite/auth.jsx: the client side of the OTP protocol. The pre-send existence gate is a
 * pure decision; the service object keeps the browser's `localStorage` keys `otpToken`,
 * `auth_token` and `signupData` in a map and each operation updates it in place. Network
 * replies and profile-lookup results are inputs; each operation reports the request it sent.
 */
module AuthClient {
  import opened Wrappers
  import opened JsValue
  import opened Http
  import SendOtpHandler
  import VerifyOtpHandler
  import CompleteSignupHandler
  import ProfileHandler
  import TokenCodec
  import OtpCode

  const OtpTokenKey := "otpToken"
  const AuthTokenKey := "auth_token"
  const SignupDataKey := "signupData"

  const ConfigMissing := "Database or collection ID is missing"
  const NoAccount := "No account found with this email. Please sign up first."
  const AlreadyExists := "An account with this email already exists. Please log in instead."
  const NoOtpToken := "No OTP token found. Please request a new OTP."
  const LoggedIn := "Please logout before creating a new account"

  /** What `checkUserExists` settles to: whether a profile exists, or the message it throws. */
  datatype Lookup = Found(present: bool) | LookupFailed(message: string)

  /**
   * `checkUserExists(email)` (src/appwrite/auth.jsx:28-57): `configured` says whether the
   * database and collection ids are set, `listed` is the document count of the query or the
   * error it raised.
   */
  function CheckUserExists(configured: bool, listed: Result<nat, string>): (r: Lookup)
    ensures !configured ==> r == LookupFailed(ConfigMissing)
    ensures configured && listed.Success? ==> r == Found(listed.value > 0)
    ensures configured && listed.Failure? ==> r == LookupFailed(listed.error)
  {
    if !configured then LookupFailed(ConfigMissing)
    else match listed
      case Success(total) => Found(total > 0)
      case Failure(m) => LookupFailed(m)
  }

  /**
   * The existence gate of `sendOTP` (src/appwrite/auth.jsx:68-88): `None` lets the request go out,
   * `Some(m)` is the message thrown. The inner block throws for a login without a profile and
   * for a signup with one, and its own catch then rethrows the configuration error always and
   * anything else only for a login: the signup refusal is swallowed by the same catch.
   */
  function ExistenceGate(isSignup: bool, lookup: Lookup): (r: Option<string>)
    ensures r.None? <==> (isSignup && lookup != LookupFailed(ConfigMissing)) || (!isSignup && lookup == Found(true))
    ensures !isSignup && lookup == Found(false) ==> r == Some(NoAccount)
    ensures lookup.LookupFailed? && r.Some? ==> r == Some(lookup.message)
    ensures lookup.Found? ==> r != Some(AlreadyExists)
  {
    var thrown :=
      match lookup
      case LookupFailed(m) => Some(m)
      case Found(present) =>
        if !isSignup && !present then Some(NoAccount)
        else if isSignup && present then Some(AlreadyExists)
        else None;
    match thrown
    case None => None
    case Some(m) => if m == ConfigMissing then Some(m) else if isSignup then None else Some(m)
  }

  /** `localStorage.getItem(key)`: `None` stands for `null`. */
  function GetItem(storage: map<string, string>, key: string): (r: Option<string>)
    ensures r.Some? <==> key in storage
    ensures r.Some? ==> r.value == storage[key]
  {
    if key in storage then Some(storage[key]) else None
  }

  /** `localStorage.getItem(key)` as a condition: the stored string when present and non-empty. */
  function Stored(storage: map<string, string>, key: string): (r: Option<string>)
    ensures r.Some? <==> key in storage && storage[key] != ""
    ensures r.Some? ==> r.value == storage[key]
  {
    if key in storage && storage[key] != "" then Some(storage[key]) else None
  }

  /** A `getItem` result inside a template literal: `null` prints as "null". */
  function Interpolated(item: Option<string>): (s: string)
    ensures item.None? ==> s == "null"
    ensures item.Some? ==> s == item.value
  {
    match item
    case Some(v) => v
    case None => "null"
  }

  /** `response.ok`. */
  predicate Ok(reply: Response) {
    200 <= reply.status < 300
  }

  /** `error.error || fallback` for a failed reply. */
  function ErrorText(body: Body, fallback: string): (m: string)
    ensures m != "" || fallback == ""
    ensures body.Error? && body.error != "" ==> m == body.error
  {
    if body.Error? && body.error != "" then body.error else fallback
  }

  /** `data.otpToken`, when truthy. */
  function OtpTokenOf(body: Body): (t: Option<string>)
    ensures t.Some? <==> body.OtpIssued? && body.otpToken != ""
  {
    if body.OtpIssued? && body.otpToken != "" then Some(body.otpToken) else None
  }

  /** `data.token`, when truthy. */
  function TokenOf(body: Body): (t: Option<string>)
    ensures t.Some? <==> (body.TokenIssued? || body.SignupDone?) && body.token != ""
  {
    if (body.TokenIssued? || body.SignupDone?) && body.token != "" then Some(body.token) else None
  }

  /** The request `sendOTP` posts: `{email, isSignup}`. */
  function SendOtpRequest(email: string, isSignup: bool): Request {
    Request("POST", map["email" := Str(email), "isSignup" := Bool(isSignup)], None)
  }

  /** `JSON.stringify({ email, username, name })`, without string escaping. */
  function SignupData(email: string, username: string, name: string): string {
    "{\"email\":\"" + email + "\",\"username\":\"" + username + "\",\"name\":\"" + name + "\"}"
  }

  /** What `createAccount` returns: the three fields merged with the send-otp reply. */
  datatype Account = Account(email: string, username: string, name: string, reply: Body)

  /**
   * What `getCurrentUser` returns: the profile route's body, with the Appwrite profile document
   * attached as `profile` when the lookup found one.
   */
  datatype CurrentUser = CurrentUser(data: Body, profile: Option<Object>)

  /**
   * `const { exists, profile } = await this.checkUserExists(userData.email)` inside its own
   * try: the document when one exists; nothing when none does or the lookup throws.
   */
  function MergedProfile(found: Result<Option<Object>, string>): (p: Option<Object>)
    ensures p.Some? <==> found.Success? && found.value.Some?
    ensures p.Some? ==> p == found.value
  {
    match found
    case Success(doc) => doc
    case Failure(_) => None
  }

  /** The storage after a successful send: the ticket, if the reply carries one. */
  function AfterSend(storage: map<string, string>, body: Body): map<string, string> {
    match OtpTokenOf(body)
    case Some(t) => storage[OtpTokenKey := t]
    case None => storage
  }

  /** The storage after a reply carrying a session token: ticket dropped, token kept. */
  function AfterLogin(storage: map<string, string>, token: string): map<string, string> {
    (storage - {OtpTokenKey})[AuthTokenKey := token]
  }

  /** The storage after a completed signup: ticket and signup data dropped, token kept. */
  function AfterSignup(storage: map<string, string>, token: string): map<string, string> {
    (storage - {OtpTokenKey, SignupDataKey})[AuthTokenKey := token]
  }

  /** The storage after `logout`. */
  function AfterLogout(storage: map<string, string>): map<string, string> {
    storage - {AuthTokenKey, OtpTokenKey, SignupDataKey}
  }

  /** `AuthService` over the browser's storage. */
  class AuthService {
    var storage: map<string, string>

    /** The service starts on whatever the browser's storage already holds. */
    constructor(storage: map<string, string>)
      ensures this.storage == storage
    {
      this.storage := storage;
    }

    /** `sendOTP(email, isSignup)` (src/appwrite/auth.jsx:60-118), given the lookup result and the reply. */
    method SendOtp(email: string, isSignup: bool, lookup: Lookup, reply: Response)
      returns (r: Result<Body, string>, sent: Option<Request>)
      modifies this
      ensures ExistenceGate(isSignup, lookup).Some? ==>
        r == Failure(ExistenceGate(isSignup, lookup).value) && sent == None && storage == old(storage)
      ensures ExistenceGate(isSignup, lookup).None? ==> sent == Some(SendOtpRequest(email, isSignup))
      ensures ExistenceGate(isSignup, lookup).None? && !Ok(reply) ==>
        r == Failure(ErrorText(reply.body, "Failed to send OTP")) && storage == old(storage)
      ensures ExistenceGate(isSignup, lookup).None? && Ok(reply) ==>
        r == Success(reply.body) && storage == AfterSend(old(storage), reply.body)
    {
      var refused := ExistenceGate(isSignup, lookup);
      if refused.Some? {
        return Failure(refused.value), None;
      }
      sent := Some(SendOtpRequest(email, isSignup));
      if !Ok(reply) {
        return Failure(ErrorText(reply.body, "Failed to send OTP")), sent;
      }
      var otpToken := OtpTokenOf(reply.body);
      if otpToken.Some? {
        storage := storage[OtpTokenKey := otpToken.value];
      }
      r := Success(reply.body);
    }

    /** `verifyOTP(email, otp)` (src/appwrite/auth.jsx:121-177), given the reply. */
    method VerifyOtp(email: string, otp: string, reply: Response)
      returns (r: Result<bool, string>, sent: Option<Request>)
      modifies this
      ensures Stored(old(storage), OtpTokenKey).None? ==> r == Failure(NoOtpToken) && sent == None && storage == old(storage)
      ensures Stored(old(storage), OtpTokenKey).Some? ==>
        sent == Some(VerifyOtpHandler.VerifyRequest(Str(email), Str(otp), Str(old(storage)[OtpTokenKey])))
      ensures sent.Some? && !Ok(reply) ==>
        r == Failure(ErrorText(reply.body, "Failed to verify OTP")) && storage == old(storage)
      ensures sent.Some? && Ok(reply) ==>
        r == Success(TokenOf(reply.body).Some?) &&
        storage == if TokenOf(reply.body).Some? then AfterLogin(old(storage), TokenOf(reply.body).value) else old(storage)
    {
      var otpToken := Stored(storage, OtpTokenKey);
      if otpToken.None? {
        return Failure(NoOtpToken), None;
      }
      sent := Some(VerifyOtpHandler.VerifyRequest(Str(email), Str(otp), Str(otpToken.value)));
      if !Ok(reply) {
        return Failure(ErrorText(reply.body, "Failed to verify OTP")), sent;
      }
      var token := TokenOf(reply.body);
      if token.Some? {
        storage := storage - {OtpTokenKey};
        storage := storage[AuthTokenKey := token.value];
        return Success(true), sent;
      }
      r := Success(false);
    }

    /** `createAccount(email, username, name)` (src/appwrite/auth.jsx:180-199). */
    method CreateAccount(email: string, username: string, name: string, lookup: Lookup, reply: Response)
      returns (r: Result<Account, string>, sent: Option<Request>)
      modifies this
      ensures Stored(old(storage), AuthTokenKey).Some? ==> r == Failure(LoggedIn) && sent == None && storage == old(storage)
      ensures Stored(old(storage), AuthTokenKey).None? && ExistenceGate(true, lookup).Some? ==>
        r == Failure(ExistenceGate(true, lookup).value) && sent == None && storage == old(storage)
      ensures Stored(old(storage), AuthTokenKey).None? && ExistenceGate(true, lookup).None? ==>
        sent == Some(SendOtpRequest(email, true))
      ensures Stored(old(storage), AuthTokenKey).None? && ExistenceGate(true, lookup).None? && !Ok(reply) ==>
        r == Failure(ErrorText(reply.body, "Failed to send OTP")) && storage == old(storage)
      ensures Stored(old(storage), AuthTokenKey).None? && ExistenceGate(true, lookup).None? && Ok(reply) ==>
        r == Success(Account(email, username, name, reply.body)) &&
        storage == AfterSend(old(storage), reply.body)[SignupDataKey := SignupData(email, username, name)]
    {
      if Stored(storage, AuthTokenKey).Some? {
        return Failure(LoggedIn), None;
      }
      var result;
      result, sent := SendOtp(email, true, lookup, reply);
      if result.Failure? {
        return Failure(result.error), sent;
      }
      storage := storage[SignupDataKey := SignupData(email, username, name)];
      r := Success(Account(email, username, name, result.value));
    }

    /**
     * `completeSignup(email, username, name, otp)` (src/appwrite/auth.jsx:202-275), given the
     * reply; the profile document it then tries to create does not affect the outcome.
     */
    method CompleteSignup(email: string, username: string, name: string, otp: string, reply: Response)
      returns (r: Result<Option<User>, string>, sent: Option<Request>)
      modifies this
      ensures Stored(old(storage), OtpTokenKey).None? ==> r == Failure(NoOtpToken) && sent == None && storage == old(storage)
      ensures Stored(old(storage), OtpTokenKey).Some? ==>
        sent == Some(CompleteSignupHandler.SignupRequest(Str(email), Str(username), Str(name), Str(otp), Str(old(storage)[OtpTokenKey])))
      ensures sent.Some? && !Ok(reply) ==>
        r == Failure(ErrorText(reply.body, "Failed to complete signup")) && storage == old(storage)
      ensures sent.Some? && Ok(reply) && reply.body.SignupDone? && reply.body.token != "" ==>
        r == Success(Some(reply.body.user)) && storage == AfterSignup(old(storage), reply.body.token)
      ensures sent.Some? && Ok(reply) && !(reply.body.SignupDone? && reply.body.token != "") ==>
        r == Success(None) && storage == old(storage)
    {
      var otpToken := Stored(storage, OtpTokenKey);
      if otpToken.None? {
        return Failure(NoOtpToken), None;
      }
      sent := Some(CompleteSignupHandler.SignupRequest(Str(email), Str(username), Str(name), Str(otp), Str(otpToken.value)));
      if !Ok(reply) {
        return Failure(ErrorText(reply.body, "Failed to complete signup")), sent;
      }
      if reply.body.SignupDone? && reply.body.token != "" {
        storage := storage - {OtpTokenKey};
        storage := storage - {SignupDataKey};
        storage := storage[AuthTokenKey := reply.body.token];
        return Success(Some(reply.body.user)), sent;
      }
      r := Success(None);
    }

    /**
     * `getCurrentUser()` (src/appwrite/auth.jsx:277-315), given the profile reply and the outcome
     * of the Appwrite lookup for the reply's email (its failure is logged and ignored). Never
     * throws: every failure ends in `null`.
     */
    method GetCurrentUser(reply: Response, found: Result<Option<Object>, string>)
      returns (r: Option<CurrentUser>, sent: Option<Request>)
      modifies this
      ensures Stored(old(storage), AuthTokenKey).None? ==> r == None && sent == None && storage == old(storage)
      ensures Stored(old(storage), AuthTokenKey).Some? ==>
        sent == Some(ProfileHandler.ProfileRequest(ProfileHandler.Bearer(old(storage)[AuthTokenKey])))
      ensures sent.Some? && Ok(reply) ==> r == Some(CurrentUser(reply.body, MergedProfile(found))) && storage == old(storage)
      ensures sent.Some? && !Ok(reply) ==> r == None
      ensures sent.Some? && !Ok(reply) && (reply.status == 401 || reply.status == 403) ==> storage == old(storage) - {AuthTokenKey}
      ensures sent.Some? && !Ok(reply) && reply.status != 401 && reply.status != 403 ==> storage == old(storage)
    {
      var token := Stored(storage, AuthTokenKey);
      if token.None? {
        return None, None;
      }
      sent := Some(ProfileHandler.ProfileRequest(ProfileHandler.Bearer(token.value)));
      if !Ok(reply) {
        if reply.status == 401 || reply.status == 403 {
          storage := storage - {AuthTokenKey};
        }
        return None, sent;
      }
      var userData := CurrentUser(reply.body, None);
      if found.Success? && found.value.Some? {
        userData := userData.(profile := found.value);
      }
      r := Some(userData);
    }

    /**
     * `logout()` (src/appwrite/auth.jsx:317-342): the three keys are removed first, so the
     * backend call that follows carries the header `Bearer null`; its failure is ignored.
     */
    method Logout() returns (r: bool, sent: Request)
      modifies this
      ensures r && storage == AfterLogout(old(storage))
      ensures sent == Request("POST", map[], Some("Bearer null"))
    {
      storage := storage - {AuthTokenKey};
      storage := storage - {OtpTokenKey};
      storage := storage - {SignupDataKey};
      var shown := Interpolated(GetItem(storage, AuthTokenKey));
      assert "Bearer " + shown == "Bearer null";
      sent := Request("POST", map[], Some("Bearer " + shown));
      r := true;
    }
  }

  /** After logout none of the three keys is readable, whatever was stored before. */
  lemma LogoutForgetsSession(storage: map<string, string>)
    ensures Stored(AfterLogout(storage), AuthTokenKey).None?
    ensures Stored(AfterLogout(storage), OtpTokenKey).None?
    ensures Stored(AfterLogout(storage), SignupDataKey).None?
    ensures forall k :: k in storage && k != AuthTokenKey && k != OtpTokenKey && k != SignupDataKey ==>
      k in AfterLogout(storage) && AfterLogout(storage)[k] == storage[k]
  {
  }

  /** A successful send stores the ticket if and only if the reply carries one, and touches nothing else. */
  lemma SendStoresTicketIff(storage: map<string, string>, body: Body)
    ensures OtpTokenOf(body).Some? ==> Stored(AfterSend(storage, body), OtpTokenKey) == OtpTokenOf(body)
    ensures OtpTokenOf(body).None? ==> AfterSend(storage, body) == storage
    ensures forall k :: k in storage && k != OtpTokenKey ==> k in AfterSend(storage, body) && AfterSend(storage, body)[k] == storage[k]
  {
  }

  /**
   * The request `sendOTP` posts, answered by the send-otp route with a delivered mail, is a
   * success whose ticket ends up in storage.
   */
  lemma SentTicketStored(storage: map<string, string>, email: string, isSignup: bool, r: nat, issued: nat, env: Env)
    requires HasSecret(env)
    requires email != "" && r < OtpCode.CodeRange
    ensures var reply := SendOtpHandler.Handle(SendOtpRequest(email, isSignup), env, r, issued, true).response;
      Ok(reply) &&
      Stored(AfterSend(storage, reply.body), OtpTokenKey) == Some(SendOtpHandler.Ticket(Str(email), Some(Bool(isSignup)), r, issued, env))
  {
    var req := SendOtpRequest(email, isSignup);
    assert Field(req.body, "email") == Some(Str(email));
    assert Field(req.body, "isSignup") == Some(Bool(isSignup));
  }

  /**
   * The login round: the request `sendOTP` posts, answered by the send-otp route, leaves the
   * ticket in storage; `verifyOTP` with the mailed code before it expires gets a session token,
   * which replaces the ticket; and the profile request `getCurrentUser` then sends, while that
   * token lives, answers with the email and no id.
   */
  lemma LoginRound(storage: map<string, string>, email: string, r: nat, issued: nat, now: nat, later: nat, env: Env)
    requires HasSecret(env)
    requires email != "" && r < OtpCode.CodeRange
    requires issued <= now < issued + SendOtpHandler.TicketLifetime
    requires later < now + SessionLifetime(env)
    ensures var sendReply := SendOtpHandler.Handle(SendOtpRequest(email, false), env, r, issued, true).response;
      var ticket := SendOtpHandler.Ticket(Str(email), Some(Bool(false)), r, issued, env);
      var s1 := AfterSend(storage, sendReply.body);
      var token := VerifyOtpHandler.SessionToken(Str(email), now, env);
      var s2 := AfterLogin(s1, token);
      Ok(sendReply) && Stored(s1, OtpTokenKey) == Some(ticket) &&
      VerifyOtpHandler.Handle(VerifyOtpHandler.VerifyRequest(Str(email), Str(OtpCode.GenerateOtp(r)), Str(ticket)), env, now)
        == Response(200, TokenIssued(token)) &&
      TokenOf(TokenIssued(token)) == Some(token) &&
      Stored(s2, AuthTokenKey) == Some(token) && Stored(s2, OtpTokenKey).None? &&
      ProfileHandler.Handle(ProfileHandler.ProfileRequest(ProfileHandler.Bearer(token)), env, later)
        == Response(200, ProfileInfo(None, Some(Str(email))))
  {
    SentTicketStored(storage, email, false, r, issued, env);
    VerifyOtpHandler.SendThenVerify(Str(email), Some(Bool(false)), r, issued, now, env);
    ProfileHandler.LoginTokenHasNoId(Str(email), now, later, env);
  }

  /**
   * The signup round: `createAccount` posts a signup send; `completeSignup` with the mailed code
   * before the ticket expires gets the new user and its token, which replaces the ticket and the
   * signup data; the profile request then answers with the new id and email.
   */
  lemma SignupRound(storage: map<string, string>, email: string, username: string, name: string, r: nat,
                    issued: nat, now: nat, later: nat, uuid: string, env: Env)
    requires HasSecret(env)
    requires email != "" && username != "" && name != "" && r < OtpCode.CodeRange
    requires issued <= now < issued + SendOtpHandler.TicketLifetime
    requires later < now + SessionLifetime(env)
    ensures var sendReply := SendOtpHandler.Handle(SendOtpRequest(email, true), env, r, issued, true).response;
      var ticket := SendOtpHandler.Ticket(Str(email), Some(Bool(true)), r, issued, env);
      var s1 := AfterSend(storage, sendReply.body)[SignupDataKey := SignupData(email, username, name)];
      var user := User(uuid, Str(email), Str(username), Str(name), now);
      var token := CompleteSignupHandler.UserToken(user, env);
      var s2 := AfterSignup(s1, token);
      Ok(sendReply) && Stored(s1, OtpTokenKey) == Some(ticket) &&
      CompleteSignupHandler.Handle(
        CompleteSignupHandler.SignupRequest(Str(email), Str(username), Str(name), Str(OtpCode.GenerateOtp(r)), Str(ticket)), env, uuid, now)
        == Response(200, SignupDone(token, user)) &&
      Stored(s2, AuthTokenKey) == Some(token) && Stored(s2, OtpTokenKey).None? && Stored(s2, SignupDataKey).None? &&
      ProfileHandler.Handle(ProfileHandler.ProfileRequest(ProfileHandler.Bearer(token)), env, later)
        == Response(200, ProfileInfo(Some(Str(uuid)), Some(Str(email))))
  {
    SentTicketStored(storage, email, true, r, issued, env);
    var user := User(uuid, Str(email), Str(username), Str(name), now);
    var sendReply := SendOtpHandler.Handle(SendOtpRequest(email, true), env, r, issued, true).response;
    SignupStorage(AfterSend(storage, sendReply.body), SignupData(email, username, name), CompleteSignupHandler.UserToken(user, env));
    SignupAccepted(email, username, name, r, issued, now, uuid, env);
    ProfileHandler.SignupTokenProfile(user, later, env);
  }

  /** Saving the signup data keeps the ticket; the signup reply then swaps both for the token. */
  lemma SignupStorage(storage: map<string, string>, data: string, token: string)
    requires token != ""
    ensures var s1 := storage[SignupDataKey := data];
      var s2 := AfterSignup(s1, token);
      Stored(s1, OtpTokenKey) == Stored(storage, OtpTokenKey) &&
      Stored(s2, AuthTokenKey) == Some(token) && Stored(s2, OtpTokenKey).None? && Stored(s2, SignupDataKey).None?
  {
  }

  /** The signup request built from a live signup ticket and its mailed code creates the user. */
  lemma SignupAccepted(email: string, username: string, name: string, r: nat,
                       issued: nat, now: nat, uuid: string, env: Env)
    requires HasSecret(env)
    requires email != "" && username != "" && name != "" && r < OtpCode.CodeRange
    requires issued <= now < issued + SendOtpHandler.TicketLifetime
    ensures var ticket := SendOtpHandler.Ticket(Str(email), Some(Bool(true)), r, issued, env);
      var user := User(uuid, Str(email), Str(username), Str(name), now);
      CompleteSignupHandler.Handle(
        CompleteSignupHandler.SignupRequest(Str(email), Str(username), Str(name), Str(OtpCode.GenerateOtp(r)), Str(ticket)), env, uuid, now)
        == Response(200, SignupDone(CompleteSignupHandler.UserToken(user, env), user))
  {
    var ticket := SendOtpHandler.Ticket(Str(email), Some(Bool(true)), r, issued, env);
    var signup := CompleteSignupHandler.SignupRequest(Str(email), Str(username), Str(name), Str(OtpCode.GenerateOtp(r)), Str(ticket));
    CompleteSignupHandler.SignupRequestCarries(Str(email), Str(username), Str(name), Str(OtpCode.GenerateOtp(r)), Str(ticket));
    CompleteSignupHandler.SignupTicketSucceeds(signup, Str(email), Str(username), Str(name), r, issued, now, uuid, env);
  }
}

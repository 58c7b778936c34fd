# Email-OTP authentication, modelled in Dafny

This project models the one-time-password login and signup protocol of a blog application,
together with the small client-side helpers around it. The protocol exists in two variants.

- **Stateful store** (`backend/server.js`). An Express server keeps a map from email to
  `{bcrypt hash, timestamp, attempts}`. `OtpServer.OtpService` is a class holding that map,
  with one method per route. Each method is proved equal to a pure step function
  (`VerifyStep`, `SignupStep`), and the lemmas about those functions state the protocol's
  guarantees: no replay, at most three comparisons per record, and only the caller's key
  touched.
- **Stateless tickets** (`api/auth/*.js`, `api/user/profile.js`). These serverless handlers
  put the code inside a signed ticket that expires after five minutes. Every handler is a pure
  function from a request (and the verifier's verdict on the ticket) to a `Response`. Lemmas
  cover the order of its checks, the claims that reach the issued token, and replay.

The client (`src/appwrite/auth.jsx`) is a class over the browser's `localStorage`, kept as a
`map<string, string>`. Two lemmas follow a login and a signup end to end, through the
stateless handlers and then the profile route. The slug normaliser of the post form, the
toast list and the theme machine are modelled on their own terms.

Shared pieces:

- `JsValue`: JSON values, JavaScript truthiness, and objects as ordered member lists where
  lookup returns the last duplicate.
- `Http`: requests, responses, the `split(' ')[1]` bearer extraction, and the session-lifetime
  default.
- `TokenCodec`: a concrete model of `jsonwebtoken`.
  - A token is rendered as space-free text: claims, expiry and the signing key, all encoded
    as numbers.
  - `Verify` parses the text strictly: no leading zeros and no negative zero. So the only
    texts that parse are renderings of tokens (`RenderParse`). An empty key fails every
    token, as jsonwebtoken's "secret or public key must be provided" does. A token signed
    with another key gives `Invalid`; one whose expiry has passed gives `Expired`; otherwise
    `Decoded(claims)` (`DecodedIff`).
  - `Sign` is total. Each route tests first whether jsonwebtoken can sign: it throws on an
    empty key, and the backend also throws on `expiresIn: undefined`. Where it throws, the
    route answers its `catch` block's 500.
  - `SignThenVerify` and `OnlySignedTokensPass` together state the contract of section 4.1.4
    of RFC 7519: a signed token decodes until `iat + ttl`, and is `Expired` from then on.
    Any text that is not the rendering of a token signed with the secret is `Invalid`.
- `OtpCode` and `Decimal`: `Math.floor(100000 + Math.random() * 900000).toString()`, with the
  random draw taken as an integer `r < 900000`.

Inputs are parameters:

- time is a `nat` of milliseconds (`Date.now()`);
- the random draw, the uuid, mail delivery, network replies and Appwrite lookup results are
  passed in;
- `process.env.JWT_SECRET` and `JWT_EXPIRY` form an `Env`.

### Behaviour the proofs make explicit

- **Signup for an existing account is not stopped.** `sendOTP` throws "An account with this
  email already exists" inside a `try` block. Its own `catch` then swallows every error other
  than the configuration error when signing up, so the code is still requested
  (`AuthClient.ExistenceGate`).
- **The backend's guess limit is bypassed by signup.** `/complete-signup` in `backend/server.js`
  never reads or writes the attempt counter. Guesses through it are unlimited, and it succeeds
  even on a record that verify-otp has exhausted (`OtpServer.SignupWrongCodeChangesNothing`,
  `OtpServer.SignupAfterExhaustion`).
- **The ticket routes have no working guess limit and no replay protection.**
  - A ticket always says `attempts: 0` and is never re-signed, so verify-otp's attempts guard
    can never fire (`VerifyOtpHandler.AttemptsGuardNeverFires`).
  - The same request succeeds on every call until the ticket expires
    (`VerifyOtpHandler.ReplayAccepted`).
  - complete-signup mints a new user on every successful call
    (`CompleteSignupHandler.FreshIdPerCall`).
- **An OTP ticket is itself a session token.** All routes share one secret, and the profile
  route only checks the signature and the expiry. The ticket that send-otp hands out therefore
  opens `/api/user/profile` before any code has been checked
  (`ProfileHandler.OtpTicketOpensProfile`).
- **A missing `JWT_EXPIRY` breaks the backend only after the code has been spent.**
  `backend/server.js` passes `process.env.JWT_EXPIRY` to `jwt.sign` with no default. When the
  variable is unset, the right code deletes the record, then `jwt.sign` throws and the route
  answers 500 "Failed to verify OTP". The user has to request a new code
  (`OtpServer.UnsignableAnswers500`). An empty `JWT_SECRET` has the same effect there. In
  `api/auth/send-otp.js` it gives a 500 before any mail is sent
  (`SendOtpHandler.NoSecretNoMail`).
- **The theme listener is inert.** The theme effect saves the theme on mount, so the
  system-preference listener, which acts only when nothing is saved, never changes anything
  afterwards (`Theme.ThemeProvider.SystemChange`).

### How the backend counts attempts

- Three wrong codes each get "Invalid OTP". The fourth call is refused with "Too many
  attempts", even with the right code (`OtpServer.FourthAttemptRefused`).
- The counter is incremented before every comparison, not only after a mismatch. A record
  whose counter has reached 3 is deleted on the next call, which is refused
  (`OtpServer.ExhaustedEvenIfCorrect`).

## Model

| member | source | states |
|---|---|---|
| OtpCode.SixDigits | backend/server.js:28-30 | the code for a draw `r < 900000` is a six-character decimal string with no leading zero whose value is `100000 + r`, so it lies in [100000, 999999] |
| OtpCode.GenerateOtp | backend/server.js:28-30 | the code for a draw `r < 900000` is a string of exactly six characters |
| OtpCode.Injective | api/auth/send-otp.js:18-20 | distinct draws give distinct codes |
| Decimal.ValueOfFromNat | api/auth/send-otp.js:19 | `toString` of a non-negative integer reads back as the same number |
| Decimal.FromNatValueOf | api/auth/send-otp.js:19 | a digit string without a leading zero is the `toString` of its own value |
| Decimal.LengthOfFromNat | api/auth/send-otp.js:19 | a number in [10^(k-1), 10^k) prints with exactly k digits |
| TokenCodec.TokenRoundTrip | api/auth/send-otp.js:71-81 | decoding the numeric encoding of a token gives back its claims, expiry and key |
| TokenCodec.TextRoundTrip | api/auth/send-otp.js:71-81 | the dotted decimal text of a number sequence parses back to the sequence |
| TokenCodec.ParseRender | api/auth/send-otp.js:71-81 | a rendered token parses back to itself |
| TokenCodec.TokenCanonical | api/auth/verify-otp.js:28 | a number sequence that decodes to a token is that token's encoding |
| TokenCodec.TextCanonical | api/auth/verify-otp.js:28 | a text that parses to a number sequence is that sequence's dotted decimal rendering |
| TokenCodec.RenderParse | api/auth/verify-otp.js:28 | a text that parses as a token is that token's rendering, so every token has one textual form |
| TokenCodec.Render | api/user/profile.js:20 | a rendered token is non-empty and contains no space, so it survives `split(' ')` |
| TokenCodec.SignThenVerify | api/auth/verify-otp.js:27-34 | a token signed with the secret at `iat` decodes to its claims before `iat + ttl` and is Expired from then on (never, if no ttl); the key is non-empty |
| TokenCodec.Sign | api/auth/send-otp.js:71-81 | the signed text is non-empty, has no space, and parses back to the token with these claims, the key and the expiry `iat + ttl` (none without a ttl) |
| TokenCodec.Verify | api/auth/verify-otp.js:27-34 | a verdict other than Invalid needs a non-empty key and a text that parses to a token signed with it; Expired means its expiry has passed; Decoded gives that token's claims while it is live |
| TokenCodec.WrongKeyInvalid | api/auth/verify-otp.js:27-34 | a token signed with a different key is Invalid |
| TokenCodec.OnlySignedTokensPass | api/auth/verify-otp.js:27-34 | a text that decodes or is Expired is the rendering of a token signed with the secret, carrying those claims and a passed expiry |
| TokenCodec.NotSignedIsInvalid | api/auth/verify-otp.js:27-34 | any text that is no rendering of a token signed with the secret is Invalid |
| TokenCodec.EmptyKeyInvalid | api/auth/verify-otp.js:27-34 | with an empty key every text is Invalid |
| TokenCodec.DecodedIff | api/auth/verify-otp.js:27-34 | a text decodes to claims `c` iff the key is non-empty and the text is the rendering of a token signed with it that carries `c` and has not expired |
| TokenCodec.ExpiryMonotone | api/auth/verify-otp.js:29-33 | once Expired a token stays Expired, a decoded token decodes to the same claims at any earlier time, and invalidity does not depend on time |
| TokenCodec.VerifyValue | api/auth/verify-otp.js:28 | a ticket field that is not a string is Invalid, a string is verified as text |
| JsValue.Get | api/auth/verify-otp.js:37 | a property lookup finds a value exactly when some member has that key, and the value belongs to such a member |
| JsValue.GetSnoc | api/auth/send-otp.js:72-78 | appending a member makes its key resolve to it and leaves other keys unchanged (the last duplicate wins) |
| JsValue.OrFalse | api/auth/send-otp.js:75 | `x \|\| false` keeps a truthy value and is falsy exactly when `x` is |
| Http.SessionLifetime | api/auth/verify-otp.js:55 | the session lifetime is `JWT_EXPIRY` when set, else seven days in ms |
| Http.Split | api/user/profile.js:20 | `split` yields at least one piece and no piece contains the separator |
| Http.JoinSplit | api/user/profile.js:20 | joining the pieces of a split with the separator gives back the string |
| Http.BearerToken | api/user/profile.js:19-20 | an extracted token is the non-empty second space-separated field of the header |
| Http.AnySchemeAccepted | api/user/profile.js:20 | `<scheme> <token>` yields the token whatever the scheme word |
| Http.NoSecondField | api/user/profile.js:19-24 | a bare scheme word, or one followed by a single blank, yields no token |
| OtpServer.HashMatches | backend/server.js:60 | the idealised bcrypt digest of a code matches exactly that code |
| OtpServer.VerifyStep | backend/server.js:75-121 | verify changes no other email's record; it compares the code iff the record is live with fewer than 3 attempts; it answers 200 iff it compared, the code matched and a token can be signed; the right code with no usable `JWT_SECRET` or `JWT_EXPIRY` answers 500 "Failed to verify OTP"; a record that survives was a wrong guess, now with one more attempt; and conversely a wrong code on a live record with fewer than 3 attempts answers "Invalid OTP" and keeps the record with one more attempt |
| OtpServer.SignupStep | backend/server.js:124-169 | complete-signup changes no other email's record; it compares iff the record is live; it answers 200 iff the code matched and a token can be signed, and 500 "Failed to verify OTP" iff the code matched but signing throws; a record that survives is unchanged |
| OtpServer.OtpService.constructor | backend/server.js:15-16 | the store starts empty |
| OtpServer.OtpService.SendOtp | backend/server.js:53-73 | the email's entry is overwritten with the digest of the new code, the current time and 0 attempts before the mail goes out, and the mail carries that code; the answer is 200 or 500, and on 500 the record stays live |
| OtpServer.OtpService.VerifyOtp | backend/server.js:75-121 | the method's response, new store and comparison flag are those of `VerifyStep` on the old store, and other emails' records are unchanged |
| OtpServer.OtpService.CompleteSignup | backend/server.js:124-169 | the method's response and new store are those of `SignupStep` |
| OtpServer.SendStoresFreshRecord | backend/server.js:59-63 | a stored record has a six-digit code, the send time and 0 attempts |
| OtpServer.VerifyWithoutRecord | backend/server.js:78-82 | with no record verify answers "OTP expired or not sent" and changes nothing |
| OtpServer.ExpiryBoundary | backend/server.js:84-121 | exactly 300000 ms after sending, the code is still accepted: 200 when a token can be signed, else 500; one ms later the record is deleted as expired |
| OtpServer.ExhaustedEvenIfCorrect | backend/server.js:90-94 | a record with 3 attempts is deleted and refused even for the right code |
| OtpServer.VerifiedOnce | backend/server.js:106-116 | a 200 from verify happens only when signing works; it deletes the record, so the same request is refused next time; the token decodes to the claims `{email}` |
| OtpServer.VerifyIssues | backend/server.js:106-116 | a 200 from verify means signing works, and its body is the token signed for `{email}` with `JWT_EXPIRY` as lifetime |
| OtpServer.BudgetStep | backend/server.js:91-98 | each verify call lowers the remaining budget by at least the comparisons it makes |
| OtpServer.AtMostBudgetComparisons | backend/server.js:91-101 | any series of verify calls compares no more often than the record's remaining budget |
| OtpServer.AtMostThreeComparisons | backend/server.js:59-63 | a freshly sent record allows at most three comparisons over any series of calls |
| OtpServer.FourthAttemptRefused | backend/server.js:91-104 | three wrong codes in the window each give "Invalid OTP", and the fourth call is refused as exhausted even with the right code |
| OtpServer.SecondSendInvalidatesFirst | backend/server.js:59 | a second send replaces the record, and the first code then gets "Invalid OTP" |
| OtpServer.SignupWrongCodeChangesNothing | backend/server.js:139-143 | a wrong code on complete-signup answers "Invalid OTP" and leaves the store exactly as it was |
| OtpServer.SignupAfterExhaustion | backend/server.js:127-168 | on a live record whose attempts are used up, complete-signup still accepts the right code (200, or the 500 of a failed signing) while verify refuses it with 400 |
| OtpServer.SignupIssuesUserToken | backend/server.js:145-164 | a 200 from signup happens only when signing works; it deletes the record and returns the user echoing the request with the new id, and a token that decodes to the claims `{userId, email}` |
| OtpServer.UnsignableAnswers500 | backend/server.js:106-120 | the right code on a live record when signing throws: both routes delete the record and answer 500 "Failed to verify OTP" |
| OtpServer.AuthenticateTokenMapping | backend/server.js:172-187 | no token gives 401, a failed verify gives 403, and a decoded token passes its claims on |
| OtpServer.AuthenticateToken | backend/server.js:172-187 | the middleware passes claims only when the bearer field verifies to exactly those claims; it rejects with 401 when there is no token and with 403 otherwise |
| OtpServer.ProfileRoute | backend/server.js:190-192 | the profile route answers 200, 401 or 403; a 200 carries exactly the claims the bearer field verifies to |
| OtpServer.AuthenticatePassIff | backend/server.js:172-187 | the middleware passes claims `c` iff the bearer field is the rendering of a live token signed with the non-empty key that carries `c` |
| OtpServer.IssuedTokenOpensProfile | backend/server.js:189-192 | the token from a successful verify opens the profile route while it lives, which returns its claims `{email}` as `user` |
| SendOtpHandler.MethodGuard | api/auth/send-otp.js:50-56 | OPTIONS gets an empty 200, any other method but POST a 405, and no mail is sent |
| SendOtpHandler.Handle | api/auth/send-otp.js:43-100 | the handler answers 200, 400, 405 or 500; a mail goes out iff the request is a POST with a truthy email and the key is non-empty, and it carries that email and the drawn code; the answer is 200 iff the request is a preflight or the mail was sent and delivered |
| SendOtpHandler.EmailRequired | api/auth/send-otp.js:61-63 | a falsy email gets 400 "Email is required" before any code is drawn or mail sent |
| SendOtpHandler.NoSecretNoMail | api/auth/send-otp.js:71-99 | without a signing key `jwt.sign` throws before the mail: 500 "Failed to send OTP" and no mail |
| SendOtpHandler.TicketCarriesMailedCode | api/auth/send-otp.js:67-91 | on success the mail carries the six-digit code and the body is exactly `{message, otpToken}`; the ticket decodes to the issued claims until five minutes after issue and is Expired from then on; the key is non-empty |
| SendOtpHandler.TicketClaimsFields | api/auth/send-otp.js:71-81 | the ticket claims are `email`, the code, `isSignup \|\| false`, `attempts: 0` and the issue time, with no `userId` |
| SendOtpHandler.LiveTicket | api/auth/send-otp.js:71-81 | while it is live, a ticket verifies to those claims; the key is non-empty |
| SendOtpHandler.DeliveryFailure | api/auth/send-otp.js:84-99 | a failed delivery answers 500 with no ticket, after the mail was attempted; the key is non-empty |
| VerifyOtpHandler.MethodGuard | api/auth/verify-otp.js:10-16 | OPTIONS gets 200, non-POST gets 405 |
| VerifyOtpHandler.Handle | api/auth/verify-otp.js:3-64 | the handler answers 200, 400 or 405; a non-preflight 200 answers a POST whose ticket decodes to the request's email and code, and it carries the session token for that email |
| VerifyOtpHandler.FieldsRequired | api/auth/verify-otp.js:21-23 | any falsy email, otp or otpToken gets 400 before the ticket is examined |
| VerifyOtpHandler.ExpiredOrInvalid | api/auth/verify-otp.js:27-34 | an expired ticket gets "OTP expired", any other verify failure "Invalid token" |
| VerifyOtpHandler.GuardOrder | api/auth/verify-otp.js:36-58 | on a decoded payload an email mismatch wins, then the attempts guard, then the strict code comparison; the answer is 200 iff all three pass, and then it carries the session token |
| VerifyOtpHandler.SendThenVerify | api/auth/verify-otp.js:19-58 | a send-otp ticket with its mailed code gives, at any time before expiry, the session token for `{email}`, whatever the signup flag was; the key is non-empty |
| VerifyOtpHandler.ReplayAccepted | api/auth/verify-otp.js:19-58 | the same accepted request is accepted again later in the ticket's lifetime; the key is non-empty |
| VerifyOtpHandler.AttemptsGuardNeverFires | api/auth/verify-otp.js:41-44 | no request carrying a send-otp ticket ever gets "Too many attempts" |
| VerifyOtpHandler.NumericCodeRefused | api/auth/verify-otp.js:47-49 | the right digits sent as a JSON number are refused as "Invalid OTP"; the key is non-empty |
| VerifyOtpHandler.SessionTokenIsNoTicket | api/auth/verify-otp.js:47-49 | a session token offered as the ticket gets "Invalid OTP": it has no `otp` claim; the key is non-empty |
| VerifyOtpHandler.SessionTokenClaims | api/auth/verify-otp.js:51-58 | the session token decodes to the signed claims `{email}` and no others until the session lifetime ends; the key is non-empty |
| CompleteSignupHandler.MethodGuard | api/auth/complete-signup.js:11-17 | OPTIONS gets 200, non-POST gets 405 |
| CompleteSignupHandler.Handle | api/auth/complete-signup.js:3-74 | the handler answers 200, 400 or 405; a non-preflight 200 answers a POST with truthy email, username and name, and its user is built from those fields, the fresh id and the current time |
| CompleteSignupHandler.Checked | api/auth/complete-signup.js:27-68 | the ticket checks answer 200 or 400; 200 iff the ticket decoded to the request's email and code with a truthy `isSignup`, and then the body is the new user with its token |
| CompleteSignupHandler.FieldsRequired | api/auth/complete-signup.js:20-24 | any falsy field of the five gets "All fields are required" |
| CompleteSignupHandler.SignupRequestCarries | api/auth/complete-signup.js:20 | the client's body is a POST that carries exactly the five fields it was built from |
| CompleteSignupHandler.PresentFieldsChecked | api/auth/complete-signup.js:20-35 | a request with all five fields goes on to the ticket checks |
| CompleteSignupHandler.GuardOrder | api/auth/complete-signup.js:37-68 | on a decoded payload: email mismatch, then "Invalid OTP", then the purpose error; no attempts check; 200 iff all pass, with the user echoing the request and its token |
| CompleteSignupHandler.ExpiredOrInvalid | api/auth/complete-signup.js:28-35 | an expired ticket and an invalid one get distinct messages |
| CompleteSignupHandler.DecidedByPayload | api/auth/complete-signup.js:37-68 | with the five fields present and a decoded payload naming the request's email: a wrong code gets "Invalid OTP", a right code without a truthy `isSignup` the purpose error, and a right code with it `{token, user}` |
| CompleteSignupHandler.AcceptsSignupPayload | api/auth/complete-signup.js:20-68 | a payload naming the email, the code and `isSignup: true` creates the user from the request fields with the fresh id |
| CompleteSignupHandler.AcceptsSignupTicket | api/auth/complete-signup.js:20-68 | any ticket text that verifies to send-otp's signup claims for this email and code creates the user |
| CompleteSignupHandler.UserTokenClaims | api/auth/complete-signup.js:62-66 | the new user's token decodes to the signed claims `{userId, email}` and no others until the session lifetime ends; the key is non-empty |
| CompleteSignupHandler.SignupTicketSucceeds | api/auth/complete-signup.js:20-68 | a live signup ticket with its mailed code returns `{token, user}` for the request's email, username and name with the fresh id; the key is non-empty |
| CompleteSignupHandler.LoginTicketRefused | api/auth/complete-signup.js:42-50 | a login ticket with its right code gets the purpose error, with a wrong code "Invalid OTP"; the key is non-empty |
| CompleteSignupHandler.UnlimitedGuesses | api/auth/complete-signup.js:37-50 | a wrong guess changes nothing, and the right code still succeeds later in the window; the key is non-empty |
| CompleteSignupHandler.FreshIdPerCall | api/auth/complete-signup.js:53-59 | two successful calls with different generated ids create two users that differ only in their id |
| ProfileHandler.MethodGuard | api/user/profile.js:10-16 | OPTIONS gets 200, non-GET gets 405 |
| ProfileHandler.Handle | api/user/profile.js:3-44 | the handler answers 200, 401, 403 or 405; a GET gets 200 iff its bearer field verifies, and the body is then the claims' `userId` and `email` |
| ProfileHandler.TokenRequired | api/user/profile.js:19-24 | no header, an empty one, a lone scheme word or a scheme with an empty second field gets 401 |
| ProfileHandler.SchemeIgnored | api/user/profile.js:20 | any scheme word gives the same answer as `Bearer` |
| ProfileHandler.TokenOutcome | api/user/profile.js:27-36 | a decoded token gives 200 `{id: userId, email}`; expired and forged tokens get the same 403 |
| ProfileHandler.AcceptedIff | api/user/profile.js:19-36 | a 200 with the claims `c` comes exactly when the bearer field is the rendering of a live token signed with the non-empty key carrying `c`, and its body is their `userId` and `email` |
| ProfileHandler.BearerOfSigned | api/user/profile.js:19-20 | `Bearer <token>` for a rendered token extracts that token |
| ProfileHandler.LoginTokenHasNoId | api/user/profile.js:33-36 | a verify-otp session token gives a profile with the email and no id; the key is non-empty |
| ProfileHandler.SignupTokenProfile | api/user/profile.js:33-36 | a complete-signup token gives the new user's id and email; the key is non-empty |
| ProfileHandler.OtpTicketOpensProfile | api/user/profile.js:27-36 | a live send-otp ticket is accepted as a session token, giving the email and no id; the key is non-empty |
| AuthClient.CheckUserExists | src/appwrite/auth.jsx:28-57 | missing configuration throws the configuration error; otherwise a profile exists iff the query counted one, and query errors are rethrown |
| AuthClient.ExistenceGate | src/appwrite/auth.jsx:68-88 | the request goes out iff signing up without a configuration error, or logging in with an existing profile; a login without a profile throws "No account found…"; lookup errors pass through unchanged; "already exists" is never reported for a found account |
| AuthClient.Stored | src/appwrite/auth.jsx:124-126 | a stored item counts iff the key is present with a non-empty value |
| AuthClient.ErrorText | src/appwrite/auth.jsx:100-103 | a failed reply's non-empty `error` is shown, else the fallback |
| AuthClient.OtpTokenOf | src/appwrite/auth.jsx:108 | a reply carries a ticket iff it is a send-otp success with a non-empty ticket |
| AuthClient.TokenOf | src/appwrite/auth.jsx:145 | a reply carries a token iff it is a token or signup reply with a non-empty token |
| AuthClient.MergedProfile | src/appwrite/auth.jsx:298-307 | the profile is attached iff the lookup succeeded and found a document, and it is that document |
| AuthClient.AuthService.constructor | src/appwrite/auth.jsx:11-25 | the service starts on the existing storage |
| AuthClient.AuthService.SendOtp | src/appwrite/auth.jsx:60-118 | a closed gate throws its message with no request and storage unchanged; otherwise `{email, isSignup}` is posted, a failed reply throws its error, and a successful one stores `otpToken` iff the reply carries one |
| AuthClient.AuthService.VerifyOtp | src/appwrite/auth.jsx:121-177 | no stored ticket throws before any request; otherwise `{email, otp, otpToken}` is posted, and a reply with a token removes `otpToken` and sets `auth_token` |
| AuthClient.AuthService.CreateAccount | src/appwrite/auth.jsx:180-199 | refuses with no request whenever `auth_token` is present; otherwise sends a signup OTP, and after a successful send also stores `signupData` |
| AuthClient.AuthService.CompleteSignup | src/appwrite/auth.jsx:202-275 | no stored ticket throws before any request; a reply with token and user removes `otpToken` and `signupData` and sets `auth_token`, whatever happens to the profile document |
| AuthClient.AuthService.GetCurrentUser | src/appwrite/auth.jsx:277-315 | no `auth_token` gives null without a request; otherwise `Bearer <token>` goes to the profile route; a good reply is returned with the Appwrite profile attached iff the lookup found one, and a lookup failure is ignored; 401/403 removes `auth_token`, and every failure gives null |
| AuthClient.AuthService.Logout | src/appwrite/auth.jsx:317-342 | the three keys are removed and the backend call then carries `Bearer null` |
| AuthClient.LogoutForgetsSession | src/appwrite/auth.jsx:320-322 | after logout none of the three keys is readable and every other key is kept |
| AuthClient.SendStoresTicketIff | src/appwrite/auth.jsx:108-111 | after a successful send the ticket is stored iff the reply carries one, and nothing else changes |
| AuthClient.SentTicketStored | src/appwrite/auth.jsx:90-111 | a send for a non-empty email succeeds and leaves in storage exactly the ticket send-otp issued; the key is non-empty |
| AuthClient.LoginRound | src/appwrite/auth.jsx:60-177 | the login round through send-otp and verify-otp leaves `auth_token` set to the session token and no ticket, and the profile request then gives the email and no id; the key is non-empty |
| AuthClient.SignupRound | src/appwrite/auth.jsx:180-275 | the signup round through send-otp and complete-signup leaves `auth_token` set to the user's token with no ticket or signup data, and the profile request then gives the new id and email; the key is non-empty |
| PostForm.Trim | src/components/post-form/PostForm.jsx:59 | the trimmed string neither starts nor ends with whitespace |
| PostForm.Hyphenate | src/components/post-form/PostForm.jsx:61 | after the whitespace rewrite no whitespace is left, and no upper-case letter is introduced |
| PostForm.Strip | src/components/post-form/PostForm.jsx:62 | only `a-z`, `A-Z`, `0-9`, `_` and `-` survive, and no upper-case letter is introduced |
| PostForm.Collapse | src/components/post-form/PostForm.jsx:63 | the output never has two hyphens in a row, stays within the slug alphabet when the input does, is empty iff the input is, and starts with the input's first character |
| PostForm.SlugTransform | src/components/post-form/PostForm.jsx:56-64 | a non-string or empty input yields undefined; otherwise the chain of rewrites |
| PostForm.Slugify | src/components/post-form/PostForm.jsx:58-63 | every slug uses only `a-z`, `0-9`, `_` and `-`, and never two hyphens in a row |
| PostForm.SlugHasNoSpace | src/components/post-form/PostForm.jsx:59-61 | no whitespace survives |
| PostForm.WhitespaceRunIsOneHyphen | src/components/post-form/PostForm.jsx:61 | a whitespace run of any length after a space-free word becomes exactly one hyphen |
| PostForm.SlugifyFixes | src/components/post-form/PostForm.jsx:58-63 | a slug is a fixed point of the rewrite chain |
| PostForm.SlugTextFixed | src/components/post-form/PostForm.jsx:56-64 | a text in the slug alphabet without double hyphens comes back unchanged from the transform, or as undefined when empty |
| PostForm.SlugTransformIdempotent | src/components/post-form/PostForm.jsx:56-64 | applying the transform to its own non-empty output gives it back |
| PostForm.EditedImage | src/components/post-form/PostForm.jsx:34 | an edit saves the new upload's id if there is one, else the old image |
| PostForm.PostFormState.constructor | src/components/post-form/PostForm.jsx:10-19 | the slug starts as the edited post's id or empty, with nothing loading |
| PostForm.PostFormState.OnChange | src/components/post-form/PostForm.jsx:66-74 | the slug is recomputed from the title only when the changed field is `title` |
| PostForm.PostFormState.Submit | src/components/post-form/PostForm.jsx:23-54 | an edit deletes and replaces the image only if an upload returned a file, and otherwise saves the old id; a create with a failed upload creates nothing; a rejected create leaves `loading` set |
| ToastList.AddToast | src/components/ui/Toast.jsx:50-54 | one toast `{id: now, message, type}` is appended at the end and the old list is kept as a prefix |
| ToastList.KindOrInfo | src/components/ui/Toast.jsx:50 | `type` defaults to `'info'` when undefined |
| ToastList.RemoveToast | src/components/ui/Toast.jsx:56-58 | no toast with that id is left, and every other toast is kept |
| ToastList.RemoveDistributes | src/components/ui/Toast.jsx:57 | removal distributes over concatenation, so the kept toasts stay in order |
| ToastList.RemoveAbsent | src/components/ui/Toast.jsx:57 | removing an absent id leaves the list unchanged |
| ToastList.AddThenRemove | src/components/ui/Toast.jsx:50-58 | adding with a fresh id and then removing it restores the list |
| ToastList.SameMillisecond | src/components/ui/Toast.jsx:51-57 | two toasts created in the same millisecond share an id, and one dismissal removes both |
| Theme.InitialTheme | src/context/ThemeContext.jsx:6-16 | the saved theme if non-empty, else dark when the system prefers it, else light |
| Theme.ToggleProperties | src/context/ThemeContext.jsx:50-52 | light becomes dark and every other value light; toggling always changes the theme, and twice is the identity on light and dark |
| Theme.Toggle | src/context/ThemeContext.jsx:50-52 | the toggled theme always differs from the old one and is light or dark |
| Theme.UseTheme | src/context/ThemeContext.jsx:61-67 | outside a provider the hook throws, inside it returns the context |
| Theme.ThemeProvider.constructor | src/context/ThemeContext.jsx:6-33 | mounting picks the initial theme, then saves it and sets `data-theme` |
| Theme.ThemeProvider.ApplyTheme | src/context/ThemeContext.jsx:18-23 | the effect sets `data-theme` and saves the theme |
| Theme.ThemeProvider.ToggleTheme | src/context/ThemeContext.jsx:50-52 | the theme flips and is saved and shown |
| Theme.ThemeProvider.SystemChange | src/context/ThemeContext.jsx:36-48 | with nothing saved the theme follows the system preference; once the provider is synced (saved and shown) the listener changes nothing |

## Left out

- Cryptography is idealised.
  - bcrypt is a digest that names its code (`OtpServer.Matches`).
  - An HMAC signature is modelled as the signing key carried in the token: the key has to
    equal the verifier's secret.
  - Forgery, key secrecy and the base64url/JSON wire format of a JWT are not modelled.
- TokenCodec.Verify: jsonwebtoken's `exp` is in whole seconds, and the model keeps
  milliseconds. `iat`, `nbf`, the algorithm header and clock tolerance are not modelled. A
  decoded payload is the signed claims alone: the `iat` and `exp` members that jsonwebtoken
  adds to it are not modelled.
- OtpServer.IssuedTokenOpensProfile: the backend profile body is `{user: req.user}`, where
  `req.user` also holds the registered claims `iat` and `exp`. The model returns the signed
  claims `{email}` only.
- OtpServer.VerifiedOnce: the token is stated to decode to `{email}`. The payload's added
  `iat` and `exp` members are not modelled.
- OtpServer.SignupIssuesUserToken: the token is stated to decode to `{userId, email}`. The
  payload's added `iat` and `exp` members are not modelled.
- `JWT_EXPIRY` is taken as a duration in milliseconds, or unset. The duration-string syntax
  (`'7d'`, `'5m'`) is not parsed. Unset makes `jwt.sign` throw in `backend/server.js`. In
  `api/*` it means seven days. An unset and an empty `JWT_SECRET` are both the empty key.
- I/O is left out: mail transport, `fetch`, CORS headers, Express setup, `app.listen`,
  logging, and the Appwrite SDK calls. Their results are parameters.
  - The `lastLogin` update in `verifyOTP` and the profile document in `completeSignup` are
    omitted, because their outcome never reaches the caller.
  - The Appwrite profile that `getCurrentUser` merges in is taken as a given lookup outcome.
- Http.User: `createdAt` is built as `new Date().toISOString()` (backend/server.js:154,
  api/auth/complete-signup.js:58), so the client receives an ISO-8601 string. The model keeps
  the same instant as a number of milliseconds; the string formatting is not modelled.
- Concurrency is left out. Each backend route is one atomic step; interleavings at its
  `await`s are not modelled.
- `OtpServer.OtpService`: request bodies are taken as strings. The `500` paths hit when a
  field is missing or not a string are not modelled.
- `SendOtpHandler.Handle`: the development-only `details` field of the 500 body is left out.
- `VerifyOtpHandler.Handle`: the attempts check `payload.attempts >= 3` is modelled for
  numbers only; JavaScript's coercion of non-number claims is not modelled. Send-otp only
  ever issues the number 0.
- `TokenCodec.Render`: claims are string, integer, boolean or null values; nested objects,
  arrays and fractional numbers are not modelled.
- `AuthClient.SignupData`: `JSON.stringify` string escaping is not modelled.
- `AuthClient.ErrorText`: a failed reply whose body is not JSON makes `response.json()`
  throw a parse error; this is not modelled.
- `AuthClient.AuthService`: the client's `baseUrl` and request paths (URL construction) are
  not modelled; a call stands for the route it targets.
- `PostForm.SlugTransform`: `toLowerCase`, `\s` and `\w` are modelled over ASCII only.
  Non-ASCII whitespace and Unicode case mapping are not modelled.
- `PostForm.PostFormState.Submit`: form data other than the image is not modelled. The
  `...data` spread, the `userId` of a new post and an `uploadFile` that rejects are left out
  (`uploadFile` catches its own errors).
- The three-second auto-dismiss timer of toasts is not modelled, nor the theme-transition
  class and its timer.
- Email-format validation in the login and signup forms is not modelled; it relies on
  library regex semantics.
- `src/appwrite/auth.js`, `src/appwrite/config.js` and the React components are not part of
  this model.

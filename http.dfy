/**
 * What the route handlers see and return: the request (HTTP method as `verb`, parsed JSON body, the
 * Authorization header), the response (status and JSON body), the server's environment,
 * and the `authHeader && authHeader.split(' ')[1]` token extraction both profile paths share.
 */
module Http {
  import opened Wrappers
  import opened JsValue

  datatype Request = Request(verb: string, body: map<string, Value>, authorization: Option<string>)

  /** A user object as the signup routes build it; `createdAt` is the creation instant. */
  datatype User = User(id: string, email: Value, username: Value, name: Value, createdAt: nat)

  /** The JSON bodies the routes send. `NoContent` is `res.status(200).end()`. */
  datatype Body =
    | NoContent
    | Error(error: string)
    | Message(message: string)
    | OtpIssued(message: string, otpToken: string)
    | TokenIssued(token: string)
    | SignupDone(token: string, user: User)
    | ProfileInfo(id: Option<Value>, email: Option<Value>)
    | UserClaims(claims: Object)

  datatype Response = Response(status: nat, body: Body)

  /** `process.env.JWT_SECRET` and `process.env.JWT_EXPIRY` (a duration in ms, or unset). */
  datatype Env = Env(jwtSecret: string, jwtExpiry: Option<nat>)

  /** `process.env.JWT_EXPIRY || '7d'`: the configured session lifetime, else seven days. */
  function SessionLifetime(env: Env): (ttl: nat)
    ensures env.jwtExpiry.Some? ==> ttl == env.jwtExpiry.value
    ensures env.jwtExpiry.None? ==> ttl == 7 * 24 * 60 * 60 * 1000
  {
    match env.jwtExpiry
    case None => 604800000
    case Some(d) => d
  }

  /** `jwt.sign` refuses an unset or empty `JWT_SECRET` ("secretOrPrivateKey must have a value"). */
  predicate HasSecret(env: Env) { env.jwtSecret != "" }

  function BadRequest(message: string): Response { Response(400, Error(message)) }

  /** `s.split(sep)` with a one-character separator: the pieces between separators, empty ones included. */
  function Split(s: string, sep: char): (r: seq<string>)
    ensures |r| >= 1
    ensures forall i :: 0 <= i < |r| ==> sep !in r[i]
  {
    if s == [] then [""]
    else
      var rest := Split(s[1..], sep);
      if s[0] == sep then [""] + rest else [[s[0]] + rest[0]] + rest[1..]
  }

  /** Gluing the pieces back with the separator. */
  function Join(pieces: seq<string>, sep: char): string
    requires |pieces| >= 1
  {
    if |pieces| == 1 then pieces[0] else pieces[0] + [sep] + Join(pieces[1..], sep)
  }

  /** Split loses nothing: joining its pieces with the separator gives the input back. */
  lemma {:induction false} JoinSplit(s: string, sep: char)
    ensures Join(Split(s, sep), sep) == s
  {
    if s != [] {
      JoinSplit(s[1..], sep);
      var rest := Split(s[1..], sep);
      if s[0] != sep {
        if |rest| > 1 {
          assert Split(s, sep)[1..] == rest[1..];
          assert [s[0]] + rest[0] + [sep] + Join(rest[1..], sep) == [s[0]] + (rest[0] + [sep] + Join(rest[1..], sep));
        }
      } else {
        assert Split(s, sep)[1..] == rest;
      }
      assert [s[0]] + s[1..] == s;
    }
  }

  /** A piece with no separator in it splits to itself, and a separator starts a new piece. */
  lemma {:induction false} SplitAt(w: string, sep: char, rest: string)
    requires sep !in w
    ensures Split(w, sep) == [w]
    ensures Split(w + [sep] + rest, sep) == [w] + Split(rest, sep)
  {
    if w != [] {
      SplitAt(w[1..], sep, rest);
      assert (w + [sep] + rest)[1..] == w[1..] + [sep] + rest;
      assert [w[0]] + w[1..] == w;
    } else {
      assert w + [sep] + rest == [sep] + rest;
    }
  }

  /**
   * `authHeader && authHeader.split(' ')[1]`, kept only when truthy: the second space-separated
   * field of the header, or nothing when the header is absent or empty, has fewer than two
   * fields, or has an empty second field.
   */
  function BearerToken(header: Option<string>): (r: Option<string>)
    ensures r.Some? ==> r.value != "" && ' ' !in r.value
    ensures r.Some? ==> header.Some? && |Split(header.value, ' ')| >= 2 && r.value == Split(header.value, ' ')[1]
  {
    if header.None? || header.value == "" then None
    else
      var fields := Split(header.value, ' ');
      if |fields| < 2 || fields[1] == "" then None else Some(fields[1])
  }

  /** Any scheme word is accepted: `<scheme> <token>` yields the token, whatever the scheme. */
  lemma AnySchemeAccepted(scheme: string, token: string)
    requires ' ' !in scheme && ' ' !in token && token != ""
    ensures BearerToken(Some(scheme + " " + token)) == Some(token)
  {
    SplitAt(scheme, ' ', token);
    SplitAt(token, ' ', "");
    assert scheme + " " + token == scheme + [' '] + token;
  }

  /** A bare scheme word, or a scheme followed by a blank, yields no token. */
  lemma NoSecondField(scheme: string)
    requires ' ' !in scheme
    ensures BearerToken(Some(scheme)) == None
    ensures BearerToken(Some(scheme + " ")) == None
  {
    SplitAt(scheme, ' ', "");
    assert scheme + " " == scheme + [' '] + "";
  }
}

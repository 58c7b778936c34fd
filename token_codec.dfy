/**
 * The token codec behind `jwt.sign` / `jwt.verify`: a token carries a claim set, an optional
 * expiry instant (the `exp` claim of section 4.1.4 of RFC 7519) and the key it was signed with.
 *
 * The signature is idealised: a token names its signing key and verifies only under that key.
 * HMAC itself is not modelled. Tokens travel as text (in JSON bodies, in the Authorization
 * header, in localStorage); the text is a space-free rendering of the token that `Verify`
 * parses back. A text that is not exactly the rendering of a token signed with the
 * verifier's key is `Invalid`.
 */
module TokenCodec {
  import opened Wrappers
  import opened JsValue
  import Decimal

  datatype Token = Token(claims: Object, exp: Option<nat>, signedWith: string)

  /** The outcomes jwt.verify distinguishes: the payload, TokenExpiredError, any other error. */
  datatype Verified = Decoded(claims: Object) | Expired | Invalid

  // ---------------------------------------------------------------------------------------
  // Layer 1: a token as a sequence of naturals (length-prefixed strings, tagged values)

  function CharCodes(s: string): (ns: seq<nat>)
    ensures |ns| == |s|
  {
    if s == [] then [] else [s[0] as nat] + CharCodes(s[1..])
  }

  function EncStr(s: string): seq<nat> { [|s|] + CharCodes(s) }

  function EncValue(v: Value): seq<nat> {
    match v
    case Str(s) => [0] + EncStr(s)
    case Num(n) => if n >= 0 then [1, n] else [2, -n]
    case Bool(b) => [3, if b then 1 else 0]
    case Null => [4]
  }

  function EncMembers(o: Object): seq<nat> {
    if o == [] then [] else EncStr(o[0].0) + EncValue(o[0].1) + EncMembers(o[1..])
  }

  function EncExp(e: Option<nat>): seq<nat> {
    match e
    case None => [0]
    case Some(t) => [1, t]
  }

  function EncToken(t: Token): seq<nat> {
    [|t.claims|] + EncMembers(t.claims) + EncExp(t.exp) + EncStr(t.signedWith)
  }

  predicate IsCharCode(n: nat) { n < 0xD800 || 0xE000 <= n < 0x11_0000 }

  function DecChars(ns: seq<nat>, k: nat): Option<(string, seq<nat>)>
    decreases k
  {
    if k == 0 then Some(([], ns))
    else if ns == [] || !IsCharCode(ns[0]) then None
    else
      match DecChars(ns[1..], k - 1)
      case None => None
      case Some(p) => Some(([ns[0] as char] + p.0, p.1))
  }

  function DecStr(ns: seq<nat>): Option<(string, seq<nat>)> {
    if ns == [] then None else DecChars(ns[1..], ns[0])
  }

  function DecValue(ns: seq<nat>): Option<(Value, seq<nat>)> {
    if ns == [] then None
    else if ns[0] == 0 then
      match DecStr(ns[1..])
      case None => None
      case Some(p) => Some((Str(p.0), p.1))
    else if ns[0] == 4 then Some((Null, ns[1..]))
    else if |ns| < 2 then None
    else if ns[0] == 1 then Some((Num(ns[1]), ns[2..]))
    else if ns[0] == 2 && ns[1] > 0 then Some((Num(-(ns[1] as int)), ns[2..]))
    else if ns[0] == 3 && ns[1] <= 1 then Some((Bool(ns[1] == 1), ns[2..]))
    else None
  }

  function DecMembers(ns: seq<nat>, k: nat): Option<(Object, seq<nat>)>
    decreases k
  {
    if k == 0 then Some(([], ns))
    else
      match DecStr(ns)
      case None => None
      case Some(p) =>
        match DecValue(p.1)
        case None => None
        case Some(q) =>
          match DecMembers(q.1, k - 1)
          case None => None
          case Some(m) => Some(([(p.0, q.0)] + m.0, m.1))
  }

  function DecExp(ns: seq<nat>): Option<(Option<nat>, seq<nat>)> {
    if ns == [] then None
    else if ns[0] == 0 then Some((None, ns[1..]))
    else if ns[0] == 1 && |ns| >= 2 then Some((Some(ns[1]), ns[2..]))
    else None
  }

  function DecToken(ns: seq<nat>): Option<Token> {
    if ns == [] then None
    else
      match DecMembers(ns[1..], ns[0])
      case None => None
      case Some(m) =>
        match DecExp(m.1)
        case None => None
        case Some(e) =>
          match DecStr(e.1)
          case None => None
          case Some(k) => if k.1 == [] then Some(Token(m.0, e.0, k.0)) else None
  }

  lemma {:induction false} CharsRoundTrip(s: string, rest: seq<nat>)
    ensures DecChars(CharCodes(s) + rest, |s|) == Some((s, rest))
  {
    if s != [] {
      var ns := CharCodes(s) + rest;
      assert ns == [s[0] as nat] + (CharCodes(s[1..]) + rest);
      assert ns[0] == s[0] as nat && ns[1..] == CharCodes(s[1..]) + rest;
      assert IsCharCode(ns[0]) && ns[0] as char == s[0];
      CharsRoundTrip(s[1..], rest);
      assert [s[0]] + s[1..] == s;
    } else {
      assert CharCodes(s) + rest == rest;
    }
  }

  lemma StrRoundTrip(s: string, rest: seq<nat>)
    ensures DecStr(EncStr(s) + rest) == Some((s, rest))
  {
    assert EncStr(s) + rest == [|s|] + (CharCodes(s) + rest);
    CharsRoundTrip(s, rest);
  }

  lemma ValueRoundTrip(v: Value, rest: seq<nat>)
    ensures DecValue(EncValue(v) + rest) == Some((v, rest))
  {
    match v
    case Str(s) =>
      assert EncValue(v) + rest == [0] + (EncStr(s) + rest);
      StrRoundTrip(s, rest);
    case Num(n) =>
    case Bool(b) =>
    case Null =>
  }

  lemma {:induction false} MembersRoundTrip(o: Object, rest: seq<nat>)
    ensures DecMembers(EncMembers(o) + rest, |o|) == Some((o, rest))
  {
    if o != [] {
      var tail := EncMembers(o[1..]) + rest;
      assert EncMembers(o) + rest == EncStr(o[0].0) + (EncValue(o[0].1) + tail);
      StrRoundTrip(o[0].0, EncValue(o[0].1) + tail);
      ValueRoundTrip(o[0].1, tail);
      MembersRoundTrip(o[1..], rest);
      assert [(o[0].0, o[0].1)] + o[1..] == o;
    } else {
      assert EncMembers(o) + rest == rest;
    }
  }

  lemma ExpRoundTrip(e: Option<nat>, rest: seq<nat>)
    ensures DecExp(EncExp(e) + rest) == Some((e, rest))
  {
    match e
    case None => assert (EncExp(e) + rest)[1..] == rest;
    case Some(x) => assert (EncExp(e) + rest)[2..] == rest;
  }

  lemma TokenRoundTrip(t: Token)
    ensures DecToken(EncToken(t)) == Some(t)
  {
    var key := EncStr(t.signedWith);
    var ns := EncToken(t);
    assert ns == [|t.claims|] + (EncMembers(t.claims) + (EncExp(t.exp) + key));
    var tail := ns[1..];
    assert tail == EncMembers(t.claims) + (EncExp(t.exp) + key);
    MembersRoundTrip(t.claims, EncExp(t.exp) + key);
    ExpRoundTrip(t.exp, key);
    assert key == key + [];
    StrRoundTrip(t.signedWith, []);
    assert DecMembers(tail, ns[0]) == Some((t.claims, EncExp(t.exp) + key));
  }

  // The decoders accept only what the encoders produce: each one, on success, consumed exactly
  // the encoding of what it returned.

  lemma {:induction false} CharsCanonical(ns: seq<nat>, k: nat, s: string, rest: seq<nat>)
    requires DecChars(ns, k) == Some((s, rest))
    ensures |s| == k && ns == CharCodes(s) + rest
    decreases k
  {
    if k > 0 {
      var p := DecChars(ns[1..], k - 1).value;
      CharsCanonical(ns[1..], k - 1, p.0, p.1);
      assert s == [ns[0] as char] + p.0;
      assert s[1..] == p.0;
      assert ns == [ns[0]] + ns[1..];
    }
  }

  lemma StrCanonical(ns: seq<nat>, s: string, rest: seq<nat>)
    requires DecStr(ns) == Some((s, rest))
    ensures ns == EncStr(s) + rest
  {
    assert |s| == ns[0] && ns[1..] == CharCodes(s) + rest by { CharsCanonical(ns[1..], ns[0], s, rest); }
    Glue(ns, [ns[0]], ns[1..], [], ns[1..], CharCodes(s), rest);
  }

  lemma ValueCanonical(ns: seq<nat>, v: Value, rest: seq<nat>)
    requires DecValue(ns) == Some((v, rest))
    ensures ns == EncValue(v) + rest
  {
    if ns[0] == 0 {
      var p := DecStr(ns[1..]).value;
      StrCanonical(ns[1..], p.0, p.1);
      assert ns == [0] + ns[1..];
    } else if ns[0] == 4 {
      assert ns == [4] + ns[1..];
    } else {
      assert ns == [ns[0], ns[1]] + ns[2..];
    }
  }

  lemma EncMembersCons(x: string, v: Value, m: Object)
    ensures EncMembers([(x, v)] + m) == EncStr(x) + EncValue(v) + EncMembers(m)
  {
    var o := [(x, v)] + m;
    assert o[0] == (x, v) && o[1..] == m;
  }

  /** One successful step of `DecMembers`: a key, then a value, then the remaining members. */
  lemma MembersStep(ns: seq<nat>, k: nat) returns (x: string, mid: seq<nat>, v: Value, after: seq<nat>)
    requires k > 0 && DecMembers(ns, k).Some?
    ensures DecStr(ns) == Some((x, mid)) && DecValue(mid) == Some((v, after)) && DecMembers(after, k - 1).Some?
    ensures DecMembers(ns, k).value.0 == [(x, v)] + DecMembers(after, k - 1).value.0
    ensures DecMembers(ns, k).value.1 == DecMembers(after, k - 1).value.1
  {
    x, mid := DecStr(ns).value.0, DecStr(ns).value.1;
    v, after := DecValue(mid).value.0, DecValue(mid).value.1;
  }

  lemma {:induction false} MembersCanonical(ns: seq<nat>, k: nat, o: Object, rest: seq<nat>)
    requires DecMembers(ns, k) == Some((o, rest))
    ensures |o| == k && ns == EncMembers(o) + rest
    decreases k
  {
    if k > 0 {
      var x, mid, v, after := MembersStep(ns, k);
      var m := DecMembers(after, k - 1).value;
      assert ns == EncStr(x) + mid by { StrCanonical(ns, x, mid); }
      assert mid == EncValue(v) + after by { ValueCanonical(mid, v, after); }
      assert |m.0| == k - 1 && after == EncMembers(m.0) + m.1 by { MembersCanonical(after, k - 1, m.0, m.1); }
      assert EncMembers(o) == EncStr(x) + EncValue(v) + EncMembers(m.0) by { EncMembersCons(x, v, m.0); }
      Glue(ns, EncStr(x), mid, EncValue(v), after, EncMembers(m.0), rest);
    }
  }

  lemma Glue(ns: seq<nat>, a: seq<nat>, mid: seq<nat>, b: seq<nat>, after: seq<nat>, c: seq<nat>, rest: seq<nat>)
    requires ns == a + mid && mid == b + after && after == c + rest
    ensures ns == a + b + c + rest
  {
  }

  lemma ExpCanonical(ns: seq<nat>, e: Option<nat>, rest: seq<nat>)
    requires DecExp(ns) == Some((e, rest))
    ensures ns == EncExp(e) + rest
  {
    if ns[0] == 0 {
      assert ns == [0] + ns[1..];
    } else {
      assert ns == [1, ns[1]] + ns[2..];
    }
  }

  /** A successful `DecToken`: the members, then the expiry, then the key, then nothing. */
  lemma TokenStep(ns: seq<nat>) returns (m: (Object, seq<nat>), e: (Option<nat>, seq<nat>), k: (string, seq<nat>))
    requires DecToken(ns).Some?
    ensures ns != [] && DecMembers(ns[1..], ns[0]) == Some(m) && DecExp(m.1) == Some(e) && DecStr(e.1) == Some(k)
    ensures k.1 == [] && DecToken(ns).value == Token(m.0, e.0, k.0)
  {
    m := DecMembers(ns[1..], ns[0]).value;
    e := DecExp(m.1).value;
    k := DecStr(e.1).value;
  }

  lemma TokenCanonical(ns: seq<nat>, t: Token)
    requires DecToken(ns) == Some(t)
    ensures EncToken(t) == ns
  {
    var m, e, k := TokenStep(ns);
    assert ns[0] == |m.0| && ns[1..] == EncMembers(m.0) + EncExp(e.0) + EncStr(k.0) + [] by {
      assert |m.0| == ns[0] && ns[1..] == EncMembers(m.0) + m.1 by { MembersCanonical(ns[1..], ns[0], m.0, m.1); }
      assert m.1 == EncExp(e.0) + e.1 by { ExpCanonical(m.1, e.0, e.1); }
      assert e.1 == EncStr(k.0) + [] by { StrCanonical(e.1, k.0, k.1); }
      Glue(ns[1..], EncMembers(m.0), m.1, EncExp(e.0), e.1, EncStr(k.0), []);
    }
    Assemble(ns, |m.0|, EncMembers(m.0), EncExp(e.0), EncStr(k.0));
  }

  /** A nonempty sequence is its head followed by its tail. */
  lemma Assemble(ns: seq<nat>, n: nat, a: seq<nat>, b: seq<nat>, c: seq<nat>)
    requires ns != [] && ns[0] == n && ns[1..] == a + b + c + []
    ensures ns == [n] + a + b + c
  {
    assert ns == [ns[0]] + ns[1..];
  }

  // ---------------------------------------------------------------------------------------
  // Layer 2: a sequence of naturals as text, each number in decimal followed by '.'

  function NatsText(ns: seq<nat>): (s: string)
    ensures forall i :: 0 <= i < |s| ==> Decimal.IsDigit(s[i]) || s[i] == '.'
    ensures ns != [] ==> s != []
  {
    if ns == [] then "" else Decimal.FromNat(ns[0]) + "." + NatsText(ns[1..])
  }

  function LeadingDigits(s: string): (k: nat)
    ensures k <= |s| && Decimal.AllDigits(s[..k])
    ensures k < |s| ==> !Decimal.IsDigit(s[k])
  {
    if s == [] || !Decimal.IsDigit(s[0]) then 0
    else
      var k := 1 + LeadingDigits(s[1..]);
      assert s[..k] == [s[0]] + s[1..][..k - 1];
      k
  }

  function ParseText(s: string): Option<seq<nat>>
    decreases |s|
  {
    if s == [] then Some([])
    else
      var k := LeadingDigits(s);
      if k == 0 || k == |s| || s[k] != '.' || (k > 1 && s[0] == '0') then None
      else
        match ParseText(s[k + 1..])
        case None => None
        case Some(ns) => Some([Decimal.ValueOf(s[..k])] + ns)
  }

  lemma {:induction false} LeadingDigitsOf(d: string, rest: string)
    requires Decimal.AllDigits(d) && rest != [] && !Decimal.IsDigit(rest[0])
    ensures LeadingDigits(d + rest) == |d|
  {
    if d != [] {
      assert (d + rest)[1..] == d[1..] + rest;
      LeadingDigitsOf(d[1..], rest);
    }
  }

  lemma {:induction false} TextRoundTrip(ns: seq<nat>)
    ensures ParseText(NatsText(ns)) == Some(ns)
  {
    if ns != [] {
      var d := Decimal.FromNat(ns[0]);
      var tail := NatsText(ns[1..]);
      var s := NatsText(ns);
      assert s == d + ("." + tail);
      LeadingDigitsOf(d, "." + tail);
      assert s[..|d|] == d;
      assert s[|d| + 1..] == tail;
      Decimal.ValueOfFromNat(ns[0]);
      TextRoundTrip(ns[1..]);
      assert [ns[0]] + ns[1..] == ns;
    }
  }

  /** The text parser accepts only canonical spellings: what it reads is what `NatsText` writes. */
  lemma {:induction false} TextCanonical(s: string, ns: seq<nat>)
    requires ParseText(s) == Some(ns)
    ensures NatsText(ns) == s
    decreases |s|
  {
    if s != [] {
      var k := LeadingDigits(s);
      var d := s[..k];
      var tail := s[k + 1..];
      var rest := ParseText(tail).value;
      assert ns == [Decimal.ValueOf(d)] + rest;
      TextCanonical(tail, rest);
      Decimal.FromNatValueOf(d);
      assert ns[0] == Decimal.ValueOf(d) && ns[1..] == rest;
      assert s == d + "." + tail;
    }
  }

  // ---------------------------------------------------------------------------------------
  // The codec

  function Render(t: Token): (s: string)
    ensures s != [] && ' ' !in s
  {
    NatsText(EncToken(t))
  }

  function ParseToken(s: string): Option<Token> {
    match ParseText(s)
    case None => None
    case Some(ns) => DecToken(ns)
  }

  /** The `exp` of a token signed at `iat` with `expiresIn: ttl`; no expiry when no ttl is given. */
  function ExpiryAt(iat: nat, ttl: Option<nat>): Option<nat> {
    match ttl
    case None => None
    case Some(d) => Some(iat + d)
  }

  /** An expiry `e` has not been reached at `now`. */
  predicate Live(e: Option<nat>, now: nat) { e.None? || now < e.value }

  /**
   * `jwt.sign(claims, secret, { expiresIn: ttl })` at time `iat`. jsonwebtoken throws on an
   * empty key and on an `expiresIn` of `undefined`; the routes test for those before signing.
   */
  function Sign(claims: Object, secret: string, iat: nat, ttl: Option<nat>): (text: string)
    ensures text != [] && ' ' !in text
    ensures ParseToken(text) == Some(Token(claims, ExpiryAt(iat, ttl), secret))
  {
    ParseRender(Token(claims, ExpiryAt(iat, ttl), secret));
    Render(Token(claims, ExpiryAt(iat, ttl), secret))
  }

  /**
   * `jwt.verify(text, secret)` at time `now`: an empty key fails every token; otherwise the
   * signature is checked first, then the expiry; a token is expired from its `exp` instant on.
   */
  function Verify(text: string, secret: string, now: nat): (v: Verified)
    ensures v != Invalid ==> secret != "" && ParseToken(text).Some? && ParseToken(text).value.signedWith == secret
    ensures v == Expired ==> !Live(ParseToken(text).value.exp, now)
    ensures v.Decoded? ==> v.claims == ParseToken(text).value.claims && Live(ParseToken(text).value.exp, now)
  {
    if secret == "" then Invalid
    else match ParseToken(text)
    case None => Invalid
    case Some(t) =>
      if t.signedWith != secret then Invalid
      else if t.exp.Some? && now >= t.exp.value then Expired
      else Decoded(t.claims)
  }

  /** `jwt.verify` on a JSON body value: anything but a string fails as "jwt must be a string". */
  function VerifyValue(v: Value, secret: string, now: nat): (r: Verified)
    ensures !v.Str? ==> r == Invalid
    ensures v.Str? ==> r == Verify(v.s, secret, now)
  {
    match v
    case Str(text) => Verify(text, secret, now)
    case _ => Invalid
  }

  lemma ParseRender(t: Token)
    ensures ParseToken(Render(t)) == Some(t)
  {
    TextRoundTrip(EncToken(t));
    TokenRoundTrip(t);
  }

  /** The converse: a text that parses is the rendering of the token it parses to. */
  lemma RenderParse(s: string, t: Token)
    requires ParseToken(s) == Some(t)
    ensures Render(t) == s
  {
    var ns := ParseText(s).value;
    TextCanonical(s, ns);
    TokenCanonical(ns, t);
  }

  /** Round trip: a token verifies under its own key to its claims until it expires, then is Expired. */
  lemma SignThenVerify(claims: Object, secret: string, iat: nat, ttl: Option<nat>, now: nat)
    requires secret != ""
    ensures Verify(Sign(claims, secret, iat, ttl), secret, now)
         == if ttl.Some? && now >= iat + ttl.value then Expired else Decoded(claims)
  {
    ParseRender(Token(claims, ExpiryAt(iat, ttl), secret));
  }

  /** A token signed with another key never verifies. */
  lemma WrongKeyInvalid(claims: Object, key: string, secret: string, iat: nat, ttl: Option<nat>, now: nat)
    requires key != secret
    ensures Verify(Sign(claims, key, iat, ttl), secret, now) == Invalid
  {
    ParseRender(Token(claims, ExpiryAt(iat, ttl), key));
  }

  /**
   * Only what `Sign` produced with the verifier's key gets past the signature check: a text that
   * decodes, or is reported expired, is the rendering of a token signed with `secret`, and an
   * expired one has an `exp` that `now` has reached.
   */
  lemma OnlySignedTokensPass(text: string, secret: string, now: nat)
    ensures Verify(text, secret, now).Decoded? ==>
      exists e :: text == Render(Token(Verify(text, secret, now).claims, e, secret))
    ensures Verify(text, secret, now) == Expired ==>
      exists c, e: nat :: text == Render(Token(c, Some(e), secret)) && now >= e
  {
    match ParseToken(text)
    case None =>
    case Some(t) =>
      RenderParse(text, t);
      if Verify(text, secret, now) == Expired {
        assert text == Render(Token(t.claims, Some(t.exp.value), secret));
      }
  }

  /** Signing is the only way in: any text `Sign` did not produce under `secret` is Invalid. */
  lemma NotSignedIsInvalid(text: string, secret: string, now: nat)
    requires forall c, e :: text != Render(Token(c, e, secret))
    ensures Verify(text, secret, now) == Invalid
  {
    match ParseToken(text)
    case None =>
    case Some(t) =>
      RenderParse(text, t);
      assert text != Render(Token(t.claims, t.exp, secret));
  }

  /** With an empty key nothing verifies, whatever the text. */
  lemma EmptyKeyInvalid(text: string, now: nat)
    ensures Verify(text, "", now) == Invalid
  {
  }

  /**
   * The verdict `Decoded(c)` exactly characterised: the key is non-empty and the text is the
   * rendering of a token signed with it that carries `c` and has not expired at `now`.
   */
  lemma DecodedIff(text: string, secret: string, now: nat, c: Object)
    ensures Verify(text, secret, now) == Decoded(c) <==>
      secret != "" && exists e :: text == Render(Token(c, e, secret)) && Live(e, now)
  {
    if Verify(text, secret, now) == Decoded(c) {
      var t := ParseToken(text).value;
      RenderParse(text, t);
      assert text == Render(Token(c, t.exp, secret)) && Live(t.exp, now);
    }
    if secret != "" && exists e :: text == Render(Token(c, e, secret)) && Live(e, now) {
      var e :| text == Render(Token(c, e, secret)) && Live(e, now);
      ParseRender(Token(c, e, secret));
    }
  }

  /** Once expired, a token stays expired; before that its claims do not depend on the time. */
  lemma ExpiryMonotone(text: string, secret: string, now: nat, later: nat)
    requires now <= later
    ensures Verify(text, secret, now) == Expired ==> Verify(text, secret, later) == Expired
    ensures Verify(text, secret, later).Decoded? ==> Verify(text, secret, now) == Verify(text, secret, later)
    ensures Verify(text, secret, now) == Invalid <==> Verify(text, secret, later) == Invalid
  {
  }
}

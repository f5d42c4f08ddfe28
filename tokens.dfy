/** Token issuance (the `/auth` login handler) and bearer-token admission
    (the middleware guarding the `/api` group). The JWT library, which
    signs, parses and checks HS256 signatures (section 3.2 of RFC 7518), is
    represented by the function-typed parameters `Signer` and `Verifier`;
    the clock is the parameter `now`, in Unix seconds. */
module Tokens {
  import opened Http

  /** The claims carried in every token: the username and the `exp` claim
      (section 4.1.4 of RFC 7519), in Unix seconds. */
  datatype Claims = Claims(username: string, expiresAt: int)

  /** The library's parse-and-verify step: given the key and a token
      string, the claims the token carries when its encoding and signature
      are accepted, or the text of the library's error. */
  type Verifier = (seq<byte>, string) -> Result<Claims, string>

  /** The library's signing step: the encoded, signed token, or an error. */
  type Signer = (seq<byte>, Claims) -> Result<string, string>

  /** The login request body once bound as a JSON object of strings. */
  type Fields = map<string, string>

  /** The Latin-1 bytes of a string whose characters all fit in a byte. */
  function Bytes(s: string): seq<byte>
    requires forall i :: 0 <= i < |s| ==> s[i] as int < 256
  {
    seq(|s|, i requires 0 <= i < |s| => s[i] as int as byte)
  }

  /** The process-wide signing key, hard-coded in the gateway. */
  const JWT_KEY: seq<byte> := Bytes("my_secret_key")

  /** The authentication scheme prefix of section 2.1 of RFC 6750. */
  const BEARER_PREFIX := "Bearer "

  /** Token lifetime: five minutes, in seconds. */
  const TOKEN_TTL := 300

  /** The only username the login handler accepts. */
  const ADMIN_USER := "admin"

  /** `strings.TrimPrefix`: removes the prefix once when the string starts
      with it, and otherwise leaves the string as it is. */
  function TrimPrefix(s: string, prefix: string): (r: string)
    ensures prefix <= s ==> prefix + r == s
    ensures !(prefix <= s) ==> r == s
  {
    if prefix <= s then s[|prefix|..] else s
  }

  /** Exactly one leading "Bearer " is removed, whatever follows it;
      in particular "Bearer Bearer x" becomes "Bearer x". */
  lemma TrimBearerOnce(token: string)
    ensures TrimPrefix(BEARER_PREFIX + token, BEARER_PREFIX) == token
    ensures TrimPrefix(BEARER_PREFIX + BEARER_PREFIX + token, BEARER_PREFIX) == BEARER_PREFIX + token
  {
    assert BEARER_PREFIX <= BEARER_PREFIX + token;
    assert BEARER_PREFIX + BEARER_PREFIX + token == BEARER_PREFIX + (BEARER_PREFIX + token);
  }

  /** The manual expiry test of the middleware: a token is expired only
      when its `exp` lies strictly before `now`. */
  predicate Expired(claims: Claims, now: int)
  {
    claims.expiresAt < now
  }

  /** What the middleware decides: run the next handler, or abort the
      chain after writing the reply. */
  datatype Verdict = Next | Abort(reply: Reply)

  /** The bearer-token middleware, given the `Authorization` header value.
      Its rejections come in a fixed order: missing header, then a token the
      library refuses, then an expired claim. */
  function Authenticate(authorization: string, now: int, verify: Verifier): (v: Verdict)
    ensures v.Next? <==>
      && authorization != ""
      && verify(JWT_KEY, TrimPrefix(authorization, BEARER_PREFIX)).Success?
      && !Expired(verify(JWT_KEY, TrimPrefix(authorization, BEARER_PREFIX)).value, now)
    ensures v.Abort? ==> v.reply.status == STATUS_UNAUTHORIZED
    ensures authorization == "" ==>
      v == Abort(Reply(STATUS_UNAUTHORIZED, ErrorBody("Authorization header required")))
    ensures authorization != "" && verify(JWT_KEY, TrimPrefix(authorization, BEARER_PREFIX)).Failure? ==>
      v == Abort(Reply(STATUS_UNAUTHORIZED, ErrorDetails("Invalid token",
        verify(JWT_KEY, TrimPrefix(authorization, BEARER_PREFIX)).error)))
    ensures
      && authorization != ""
      && verify(JWT_KEY, TrimPrefix(authorization, BEARER_PREFIX)).Success?
      && Expired(verify(JWT_KEY, TrimPrefix(authorization, BEARER_PREFIX)).value, now)
      ==> v == Abort(Reply(STATUS_UNAUTHORIZED, ErrorBody("Token expired")))
  {
    if authorization == "" then
      Abort(Reply(STATUS_UNAUTHORIZED, ErrorBody("Authorization header required")))
    else
      var tokenStr := TrimPrefix(authorization, BEARER_PREFIX);
      match verify(JWT_KEY, tokenStr)
      case Failure(details) =>
        Abort(Reply(STATUS_UNAUTHORIZED, ErrorDetails("Invalid token", details)))
      case Success(claims) =>
        if Expired(claims, now) then
          Abort(Reply(STATUS_UNAUTHORIZED, ErrorBody("Token expired")))
        else
          Next
  }

  /** A claim whose expiry is exactly `now` is still admitted: the
      comparison is strict. */
  lemma ExpiryBoundaryAdmitted(token: string, claims: Claims, verify: Verifier)
    requires token != ""
    requires verify(JWT_KEY, TrimPrefix(token, BEARER_PREFIX)) == Success(claims)
    ensures Authenticate(token, claims.expiresAt, verify) == Next
    ensures Authenticate(token, claims.expiresAt + 1, verify).Abort?
  {
  }

  /** The login body names the one accepted user. */
  predicate ValidCredentials(fields: Fields)
  {
    "username" in fields && fields["username"] == ADMIN_USER
  }

  /** The claims issued at time `now`. */
  function IssuedClaims(now: int): Claims
  {
    Claims(ADMIN_USER, now + TOKEN_TTL)
  }

  /** The login handler, given the bound JSON body (None when binding
      failed), the time and the signer. */
  function Login(bound: Option<Fields>, now: int, sign: Signer): (r: Reply)
    ensures bound.None? ==> r == Reply(STATUS_BAD_REQUEST, ErrorBody("Invalid input"))
    ensures bound.Some? && !ValidCredentials(bound.value) ==>
      r == Reply(STATUS_UNAUTHORIZED, ErrorBody("Invalid credentials"))
    ensures r.status == STATUS_OK <==>
      bound.Some? && ValidCredentials(bound.value) && sign(JWT_KEY, IssuedClaims(now)).Success?
    ensures r.status == STATUS_OK ==>
      r.body == TokenBody(sign(JWT_KEY, IssuedClaims(now)).value, now + TOKEN_TTL)
    ensures r.status == STATUS_INTERNAL_SERVER_ERROR <==>
      bound.Some? && ValidCredentials(bound.value) && sign(JWT_KEY, IssuedClaims(now)).Failure?
    ensures r.status == STATUS_INTERNAL_SERVER_ERROR ==> r.body == ErrorBody("Could not create token")
  {
    match bound
    case None => Reply(STATUS_BAD_REQUEST, ErrorBody("Invalid input"))
    case Some(fields) =>
      if !ValidCredentials(fields) then
        Reply(STATUS_UNAUTHORIZED, ErrorBody("Invalid credentials"))
      else
        var claims := Claims(fields["username"], now + TOKEN_TTL);
        match sign(JWT_KEY, claims)
        case Failure(_) => Reply(STATUS_INTERNAL_SERVER_ERROR, ErrorBody("Could not create token"))
        case Success(tokenStr) => Reply(STATUS_OK, TokenBody(tokenStr, claims.expiresAt))
  }

  /** The library, as it behaves at time `now`, accepts every token it
      signed with the key whose claims are not yet expired, and gives back
      the claims that were signed. jwt-go's `ParseWithClaims` meets this:
      it refuses only claims whose `exp` lies before the current time. */
  ghost predicate SignerVerifierAgreeAt(sign: Signer, verify: Verifier, now: int)
  {
    forall c :: sign(JWT_KEY, c).Success? && !Expired(c, now) ==>
      verify(JWT_KEY, sign(JWT_KEY, c).value) == Success(c)
  }

  /** The library either refuses a token it signed or gives back exactly
      the claims that were signed. A library that also refuses expired
      claims, as jwt-go's does, meets this. */
  ghost predicate SignerVerifierSound(sign: Signer, verify: Verifier)
  {
    forall c :: sign(JWT_KEY, c).Success? ==>
      verify(JWT_KEY, sign(JWT_KEY, c).value).Failure? ||
      verify(JWT_KEY, sign(JWT_KEY, c).value) == Success(c)
  }

  /** The expiry echoed in a successful login reply is the `exp` signed
      into the token: verified at the time of issue, the token gives back
      the claims (admin, expires_at_unix). */
  lemma IssuedExpiryMatchesToken(bound: Option<Fields>, now: int, sign: Signer, verify: Verifier)
    requires SignerVerifierAgreeAt(sign, verify, now)
    requires Login(bound, now, sign).status == STATUS_OK
    ensures verify(JWT_KEY, Login(bound, now, sign).body.token)
         == Success(Claims(ADMIN_USER, Login(bound, now, sign).body.expiresAtUnix))
  {
    assert sign(JWT_KEY, IssuedClaims(now)).Success?;
  }

  /** A token from a successful login, presented as "Bearer <token>" to a
      library that behaves as jwt-go's does at time `later`, is admitted
      exactly when `later` is at most five minutes after its issue. */
  lemma IssuedTokenAdmission(bound: Option<Fields>, issuedAt: int, later: int, sign: Signer, verify: Verifier)
    requires SignerVerifierAgreeAt(sign, verify, later)
    requires SignerVerifierSound(sign, verify)
    requires Login(bound, issuedAt, sign).status == STATUS_OK
    ensures Authenticate(BEARER_PREFIX + Login(bound, issuedAt, sign).body.token, later, verify) == Next
      <==> later <= issuedAt + TOKEN_TTL
  {
    var token := Login(bound, issuedAt, sign).body.token;
    assert sign(JWT_KEY, IssuedClaims(issuedAt)).Success?;
    TrimBearerOnce(token);
  }

  /** A token from a successful login, presented as "Bearer <token>", is
      rejected with 401 at every time after its expiry, whether the library
      refuses it or the manual expiry test does; up to its expiry it is
      never rejected as expired. */
  lemma IssuedTokenRejectedAfterExpiry(bound: Option<Fields>, issuedAt: int, later: int, sign: Signer, verify: Verifier)
    requires SignerVerifierSound(sign, verify)
    requires Login(bound, issuedAt, sign).status == STATUS_OK
    ensures later > issuedAt + TOKEN_TTL ==>
      && Authenticate(BEARER_PREFIX + Login(bound, issuedAt, sign).body.token, later, verify).Abort?
      && Authenticate(BEARER_PREFIX + Login(bound, issuedAt, sign).body.token, later, verify).reply.status == STATUS_UNAUTHORIZED
    ensures later <= issuedAt + TOKEN_TTL ==>
      Authenticate(BEARER_PREFIX + Login(bound, issuedAt, sign).body.token, later, verify)
        != Abort(Reply(STATUS_UNAUTHORIZED, ErrorBody("Token expired")))
  {
    var token := Login(bound, issuedAt, sign).body.token;
    assert sign(JWT_KEY, IssuedClaims(issuedAt)).Success?;
    TrimBearerOnce(token);
  }
}

/** The two cryptographic collaborators of the auth subsystem. bcrypt is
    modelled as a salted one-way hash that reads only the first 72 bytes of
    the UTF-8 encoding of its input, as node's bcrypt does: its digest keeps
    the salt and the bytes it read, and its comparison accepts a candidate
    whose first 72 bytes are those bytes. JSON Web Tokens keep their claims,
    lifetimes and the key that signed them (which stands for the signature),
    and their compact serialization up to the signature is written out, since
    that is what bcrypt reads of a token. */
module Crypto {
  import opened Common
  import opened Enums
  import opened Encoding

  // ---- bcrypt ----

  /** bcrypt reads at most this many bytes of its input. */
  const BCRYPT_MAX_BYTES: nat := 72

  /** What bcrypt reads of a string: its UTF-8 bytes, cut after the 72nd. */
  function BcryptInput(s: string): (r: seq<Byte>)
    ensures |r| <= BCRYPT_MAX_BYTES && r <= Utf8(s)
    ensures |r| == BCRYPT_MAX_BYTES || r == Utf8(s)
  {
    var b := Utf8(s);
    if |b| <= BCRYPT_MAX_BYTES then b else b[..BCRYPT_MAX_BYTES]
  }

  /** A bcrypt digest: its salt and the bytes of the secret it was made from. */
  datatype Digest = Digest(input: seq<Byte>, salt: nat)

  /** `bcrypt.hash(secret, cost)`, with the random salt passed in. */
  function Hash(secret: string, salt: nat): Digest {
    Digest(BcryptInput(secret), salt)
  }

  /** `bcrypt.compare(candidate, digest)`. */
  predicate Compare(candidate: string, d: Digest) {
    BcryptInput(candidate) == d.input
  }

  /** A digest accepts the secret it was made from, under any salt, and
      exactly the candidates whose first 72 bytes are the secret's: a secret
      shorter than 72 bytes accepts only itself, and a secret of 72 bytes or
      more accepts itself with anything appended. */
  lemma {:induction false} CompareAcceptsOnlyTheHashedSecret(secret: string, candidate: string, salt: nat)
    ensures Compare(candidate, Hash(secret, salt)) <==> BcryptInput(candidate) == BcryptInput(secret)
    ensures Compare(secret, Hash(secret, salt))
    ensures |Utf8(secret)| < BCRYPT_MAX_BYTES ==> (Compare(candidate, Hash(secret, salt)) <==> candidate == secret)
    ensures |Utf8(secret)| >= BCRYPT_MAX_BYTES ==> forall suffix :: Compare(secret + suffix, Hash(secret, salt))
  {
    if |Utf8(secret)| < BCRYPT_MAX_BYTES && Compare(candidate, Hash(secret, salt)) {
      assert BcryptInput(secret) == Utf8(secret);
      assert BcryptInput(candidate) == Utf8(candidate);
      Utf8Injective(candidate, secret);
    }
    if |Utf8(secret)| >= BCRYPT_MAX_BYTES {
      forall suffix ensures Compare(secret + suffix, Hash(secret, salt)) {
        Utf8Append(secret, suffix);
        assert Utf8(secret + suffix)[..BCRYPT_MAX_BYTES] == Utf8(secret)[..BCRYPT_MAX_BYTES];
      }
    }
  }

  /** The payload the services sign: `{ sub, email, role }`. */
  datatype Claims = Claims(sub: Id, email: string, role: Role)

  /** A signed token: the payload, the `iat` and `exp` claims in whole
      seconds (sections 4.1.6 and 4.1.4 of RFC 7519), and the key that signed
      it, which stands for the signature. Two tokens with the same payload,
      key and issue second are the same token. */
  datatype Jwt = Jwt(claims: Claims, iat: int, exp: int, key: string)

  /** `Math.floor(now / 1000)`, the clock as JWT claims read it. */
  function Seconds(now: Time): int {
    now / 1000
  }

  /** `jwtService.signAsync(payload, { secret, expiresIn })`. */
  function Sign(claims: Claims, key: string, ttlSeconds: nat, now: Time): Jwt {
    Jwt(claims, Seconds(now), Seconds(now) + ttlSeconds, key)
  }

  /** `jwtService.verify(token, { secret })`: the signature must match the key
      and the token is expired from the second `exp` on. */
  function Verify(t: Jwt, key: string, now: Time): Option<Claims> {
    if t.key == key && Seconds(now) < t.exp then Some(t.claims) else None
  }

  /** A token verifies under the key that signed it, with the claims it was
      signed with, exactly until its lifetime has elapsed; under any other key
      it never verifies. */
  lemma {:induction false} SignThenVerify(c: Claims, key: string, other: string, ttl: nat, issued: Time, now: Time)
    requires other != key
    ensures Verify(Sign(c, key, ttl, issued), key, now) ==
              (if Seconds(now) < Seconds(issued) + ttl then Some(c) else None)
    ensures Verify(Sign(c, key, ttl, issued), other, now) == None
  {
  }

  // ---- what bcrypt reads of a token ----

  /** The JOSE header of every token the service signs (section 4 of RFC
      7515), `{"alg":"HS256","typ":"JWT"}`, in base64url as the library
      writes it: every token starts with these 36 characters. */
  const JWT_HEADER_B64 := "eyJhbGciOiJIUzI1NiIsInR5cCI6IkpXVCJ9"

  /** A JSON number for an integer. */
  function JsonInteger(i: int): string {
    if i < 0 then "-" + DecimalString(-i) else DecimalString(i)
  }

  /** The payload's members the service passes, in its order: `sub`,
      `email`, `role`. */
  function ClaimsJson(c: Claims): (r: string)
    ensures |r| >= 30
  {
    "{\"sub\":" + JsonString(c.sub) + (",\"email\":" + JsonString(c.email) + ",\"role\":" + JsonString(RoleName(c.role)))
  }

  /** The payload as `JSON.stringify` writes it: the claims, then the `iat`
      and `exp` members the library adds after them. */
  function PayloadJson(t: Jwt): string {
    ClaimsJson(t.claims) + (",\"iat\":" + JsonInteger(t.iat) + ",\"exp\":" + JsonInteger(t.exp) + "}")
  }

  /** The compact serialization up to the signature (section 7.1 of RFC
      7515): the base64url header, a dot, the base64url payload. */
  function SigningInput(t: Jwt): string {
    Encoded(Utf8(PayloadJson(t)))
  }

  /** The header and a payload's bytes, encoded and joined. */
  function Encoded(payload: seq<Byte>): string {
    JWT_HEADER_B64 + "." + Base64Url(payload)
  }

  /** The token string a client holds: the signing input, a dot and the
      base64url signature, which the model does not compute. */
  function Compact(t: Jwt, signature: string): string {
    SigningInput(t) + ("." + signature)
  }

  /** Unpadded base64url spends at least four characters on every three bytes. */
  lemma {:induction false} Base64UrlLength(b: seq<Byte>)
    ensures |Base64Url(b)| >= |b| / 3 * 4
  {
    var k := |b| / 3 * 3;
    assert b == b[..k] + b[k..];
    Base64UrlAppend(b[..k], b[k..]);
  }

  /** Once a string has 72 characters, nothing appended to it reaches bcrypt. */
  lemma {:induction false} BcryptIgnoresWhatFollows(p: string, e: string)
    requires |p| >= BCRYPT_MAX_BYTES
    ensures BcryptInput(p + e) == BcryptInput(p)
  {
    var a, b := Utf8(p), Utf8(e);
    Utf8Append(p, e);
    assert (a + b)[..BCRYPT_MAX_BYTES] == a[..BCRYPT_MAX_BYTES];
  }

  /** The signing input is longer than 72 bytes, so bcrypt never reaches the
      signature: hashing or comparing a token reads its signing input only. */
  lemma {:induction false} BcryptNeverReadsTheSignature(t: Jwt, signature: string)
    ensures |Utf8(SigningInput(t))| > BCRYPT_MAX_BYTES
    ensures BcryptInput(Compact(t, signature)) == BcryptInput(SigningInput(t))
  {
    var p := Utf8(PayloadJson(t));
    assert |PayloadJson(t)| >= 30;
    Base64UrlLength(p);
    assert |Base64Url(p)| >= 40;
    assert |SigningInput(t)| == 37 + |Base64Url(p)|;
    BcryptIgnoresWhatFollows(SigningInput(t), "." + signature);
  }

  /** What bcrypt reads of a token is fixed by the first 27 bytes of its
      payload: the 36-character header, a dot, and the 36 characters that
      encode those bytes already make 73. */
  lemma {:induction false} FirstPayloadBytesDecide(g: seq<Byte>, s: seq<Byte>)
    requires |g| == 27
    ensures BcryptInput(Encoded(g + s)) == BcryptInput(JWT_HEADER_B64 + "." + Base64Url(g))
  {
    var p := JWT_HEADER_B64 + "." + Base64Url(g);
    Base64UrlAppend(g, s);
    assert Encoded(g + s) == p + Base64Url(s);
    BcryptIgnoresWhatFollows(p, Base64Url(s));
  }

  /** Two tokens whose payloads share their first 27 bytes look the same
      to bcrypt. */
  lemma {:induction false} CommonPayloadPrefix(a: seq<Byte>, r1: seq<Byte>, r2: seq<Byte>)
    requires |a| >= 27
    ensures BcryptInput(Encoded(a + r1)) == BcryptInput(Encoded(a + r2))
  {
    assert a + r1 == a[..27] + (a[27..] + r1);
    assert a + r2 == a[..27] + (a[27..] + r2);
    FirstPayloadBytesDecide(a[..27], a[27..] + r1);
    FirstPayloadBytesDecide(a[..27], a[27..] + r2);
  }

  /** Tokens with the same claims look the same to bcrypt, whenever they
      were issued and whatever key signed them. */
  lemma {:induction false} SameClaimsSameBcryptInput(t1: Jwt, t2: Jwt)
    requires t1.claims == t2.claims
    ensures BcryptInput(SigningInput(t1)) == BcryptInput(SigningInput(t2))
  {
    var rest1 := ",\"iat\":" + JsonInteger(t1.iat) + ",\"exp\":" + JsonInteger(t1.exp) + "}";
    var rest2 := ",\"iat\":" + JsonInteger(t2.iat) + ",\"exp\":" + JsonInteger(t2.exp) + "}";
    Utf8Append(ClaimsJson(t1.claims), rest1);
    Utf8Append(ClaimsJson(t2.claims), rest2);
    CommonPayloadPrefix(Utf8(ClaimsJson(t1.claims)), Utf8(rest1), Utf8(rest2));
  }

  /** The payload members after the subject's value. */
  function OtherMembers(t: Jwt): string {
    ",\"email\":" + JsonString(t.claims.email) + ",\"role\":" + JsonString(RoleName(t.claims.role))
      + (",\"iat\":" + JsonInteger(t.iat) + ",\"exp\":" + JsonInteger(t.exp) + "}")
  }

  /** The payload opens with the subject's escaped characters. */
  lemma SubjectFirst(t: Jwt)
    ensures PayloadJson(t) == "{\"sub\":" + "\"" + JsonEscaped(t.claims.sub) + ("\"" + OtherMembers(t))
  {
    var a, e := "{\"sub\":", JsonEscaped(t.claims.sub);
    var m := ",\"email\":" + JsonString(t.claims.email) + ",\"role\":" + JsonString(RoleName(t.claims.role));
    var z := ",\"iat\":" + JsonInteger(t.iat) + ",\"exp\":" + JsonInteger(t.exp) + "}";
    var q := "\"";
    assert PayloadJson(t) == a + (q + e + q) + m + z;
    assert OtherMembers(t) == m + z;
    Regroup(a, q, e, m, z);
  }

  lemma Regroup<T>(a: seq<T>, q: seq<T>, e: seq<T>, m: seq<T>, z: seq<T>)
    ensures a + (q + e + q) + m + z == a + q + e + (q + (m + z))
  {
  }

  /** Tokens for the same subject look the same to bcrypt once the subject
      is 19 characters or longer, whatever the other claims: its first
      characters fill the payload's first 27 bytes. */
  lemma {:induction false} SameSubjectSameBcryptInput(t1: Jwt, t2: Jwt)
    requires t1.claims.sub == t2.claims.sub && |t1.claims.sub| >= 19
    ensures BcryptInput(SigningInput(t1)) == BcryptInput(SigningInput(t2))
  {
    var lead := "{\"sub\":" + "\"" + JsonEscaped(t1.claims.sub);
    var rest1 := "\"" + OtherMembers(t1);
    var rest2 := "\"" + OtherMembers(t2);
    SubjectFirst(t1);
    SubjectFirst(t2);
    Utf8Append(lead, rest1);
    Utf8Append(lead, rest2);
    CommonPayloadPrefix(Utf8(lead), Utf8(rest1), Utf8(rest2));
  }

  // ---- the stored refresh-token digest ----

  /** The bcrypt digest of a refresh token. The token is kept whole so that
      both the comparison the service makes and the one it evidently means
      can be stated; what bcrypt itself retains is `TokenInput`. */
  datatype TokenDigest = TokenDigest(token: Jwt, salt: nat)

  /** `bcrypt.hash(refreshToken, 10)`. */
  function HashToken(t: Jwt, salt: nat): TokenDigest {
    TokenDigest(t, salt)
  }

  /** What bcrypt reads of a token: the first 72 bytes of its signing input. */
  function TokenInput(t: Jwt): seq<Byte> {
    BcryptInput(SigningInput(t))
  }

  /** How a presented refresh token is checked against the stored digest:
      `Bcrypt` is `bcrypt.compare(token, hash)` as the service calls it;
      `WholeToken` is the check rotation relies on, that the presented
      token is the one whose digest was stored. */
  datatype TokenCheck = Bcrypt | WholeToken

  predicate TokenAccepts(check: TokenCheck, candidate: Jwt, d: TokenDigest) {
    match check
    case Bcrypt => Compare(SigningInput(candidate), Hash(SigningInput(d.token), d.salt))
    case WholeToken => candidate == d.token
  }

  /** Either check accepts the token that was hashed. The whole-token check
      accepts nothing else; the bcrypt check accepts exactly the tokens
      whose first 72 bytes are the hashed token's, which include every
      token with the same claims and, for a subject of 19 characters or
      more, every token for the same subject. */
  lemma {:induction false} TokenAcceptsIff(t: Jwt, candidate: Jwt, salt: nat)
    ensures TokenAccepts(Bcrypt, t, HashToken(t, salt)) && TokenAccepts(WholeToken, t, HashToken(t, salt))
    ensures TokenAccepts(WholeToken, candidate, HashToken(t, salt)) <==> candidate == t
    ensures TokenAccepts(Bcrypt, candidate, HashToken(t, salt)) <==> TokenInput(candidate) == TokenInput(t)
    ensures candidate.claims == t.claims ==> TokenAccepts(Bcrypt, candidate, HashToken(t, salt))
    ensures candidate.claims.sub == t.claims.sub && |t.claims.sub| >= 19 ==> TokenAccepts(Bcrypt, candidate, HashToken(t, salt))
  {
    if candidate.claims == t.claims {
      SameClaimsSameBcryptInput(candidate, t);
    }
    if candidate.claims.sub == t.claims.sub && |t.claims.sub| >= 19 {
      SameSubjectSameBcryptInput(candidate, t);
    }
  }

  /** The token secrets and lifetimes read from the configuration; `None`
      stands for an unset variable. Lifetimes are given in seconds (the
      parsing of strings such as '1h' is not modelled). */
  datatype JwtConfig = JwtConfig(
    jwtSecret: Option<string>,
    refreshSecret: Option<string>,
    accessTtl: Option<nat>,
    refreshTtl: Option<nat>)

  /** `configService.get(name) || fallback`: an unset or empty variable
      falls back. */
  function SecretOr(v: Option<string>, fallback: string): (s: string)
    ensures s == fallback || (v.Some? && s == v.value)
    ensures s != ""  || fallback == ""
  {
    if Given(v) then v.value else fallback
  }

  /** The key that signs access tokens (auth.service.ts). */
  function AccessSecret(cfg: JwtConfig): string {
    SecretOr(cfg.jwtSecret, "default-secret")
  }

  /** The key that signs and verifies refresh tokens. */
  function RefreshSecret(cfg: JwtConfig): string {
    SecretOr(cfg.refreshSecret, "default-refresh-secret")
  }

  const DEFAULT_ACCESS_TTL: nat := 3600      // '1h'
  const DEFAULT_REFRESH_TTL: nat := 604800   // '7d'

  function AccessTtl(cfg: JwtConfig): nat {
    cfg.accessTtl.GetOr(DEFAULT_ACCESS_TTL)
  }

  function RefreshTtl(cfg: JwtConfig): nat {
    cfg.refreshTtl.GetOr(DEFAULT_REFRESH_TTL)
  }

  /** With both secrets left at their defaults the two keys differ, so an
      access token is never accepted where a refresh token is verified. */
  lemma DefaultKeysDiffer(cfg: JwtConfig)
    requires !Given(cfg.jwtSecret) && !Given(cfg.refreshSecret)
    ensures AccessSecret(cfg) != RefreshSecret(cfg)
  {
  }
}

/**
 * The credential token of `AuthController`, as an abstract record rather than
 * bytes: a JSON Web Token (RFC 7519) signed with HMAC SHA-256 (section 3.2 of
 * RFC 7518). Its signature is represented by the key bytes it was signed with,
 * so "the signature verifies" becomes "those bytes equal the validation key".
 */
module Jwt {
  import opened Wrappers
  import opened TextEncoding
  import opened Records

  const SecondsPerDay := 86400
  /** `DateTime.Now.AddDays(30)`: the fixed validity window. */
  const ValidityDays := 30
  const ValiditySeconds := ValidityDays * SecondsPerDay
  /** The token handler's default tolerance when it compares `exp` with the clock. */
  const ClockSkewSeconds := 300

  datatype ClaimType =
    | NameIdentifier | Email | Uri      // the identity claims `CreateToken` writes
    | Expiration | NotBefore          // the registered claims `exp` and `nbf`
    | Issuer | Audience               // the registered claims `iss` and `aud`
    | OtherType(name: string)

  datatype Claim = Claim(claimType: ClaimType, value: string)

  /**
   * A signed token: the claims of its payload other than `exp`, `nbf`, `iss`
   * and `aud`, in payload order; those registered claims (`exp` and the
   * optional `nbf` in seconds since the Unix epoch); and the key bytes its
   * signature was computed with.
   */
  datatype Token = Token(
    claims: seq<Claim>,
    issuer: string,
    audience: string,
    expires: int,
    notBefore: Option<int>,
    keyBytes: seq<byte>)

  /** The configuration values `Jwt:Key`, `Jwt:Issuer` and `Jwt:Audience`. */
  datatype JwtConfig = JwtConfig(key: string, issuer: string, audience: string)

  /**
   * `Char.IsWhiteSpace`, as the issuer and audience validators apply it: the
   * code points of Unicode's White_Space property.
   */
  predicate IsWhiteSpaceChar(c: char) {
    var cp := c as int;
    || 0x09 <= cp <= 0x0D || cp == 0x20 || cp == 0x85 || cp == 0xA0 || cp == 0x1680
    || 0x2000 <= cp <= 0x200A || cp == 0x2028 || cp == 0x2029 || cp == 0x202F || cp == 0x205F || cp == 0x3000
  }

  /** `string.IsNullOrWhiteSpace` of a non-null string. */
  predicate IsBlank(s: string) {
    forall i :: 0 <= i < |s| ==> IsWhiteSpaceChar(s[i])
  }

  /** The decimal digit character for `d`. */
  function DigitChar(d: int): (c: char)
    requires 0 <= d < 10
    ensures '0' <= c <= '9' && c as int - '0' as int == d
  {
    ('0' as int + d) as char
  }

  /** The invariant-culture decimal text of a natural number, without leading zeros. */
  function NatDecimal(n: nat): (s: string)
    ensures 1 <= |s|
    ensures forall i :: 0 <= i < |s| ==> '0' <= s[i] <= '9'
    ensures |s| > 1 ==> s[0] != '0'
  {
    if n < 10 then [DigitChar(n)] else NatDecimal(n / 10) + [DigitChar(n % 10)]
  }

  /** `long.ToString()` in the invariant culture: a minus sign, then the digits. */
  function DecimalString(n: int): string {
    if n < 0 then "-" + NatDecimal(-n) else NatDecimal(n)
  }

  /** The key bytes `CreateToken` signs with. */
  function SigningKey(cfg: JwtConfig): seq<byte> {
    Utf8(cfg.key)
  }

  /** The key bytes `Validate` checks signatures against. */
  function ValidationKey(cfg: JwtConfig): seq<byte> {
    Ascii(cfg.key)
  }

  /** The three identity claims of a `User`, in the order `CreateToken` writes them. */
  function IdentityClaims(user: User): seq<Claim> {
    [Claim(NameIdentifier, user.name), Claim(Email, user.email), Claim(Uri, user.profilePicture)]
  }

  /**
   * The claims of the principal the handler returns for a validated token:
   * the payload's own claims, then `nbf` when present, `exp`, `iss` and `aud`,
   * which the payload gains after the claims passed to the token's constructor.
   */
  function PrincipalClaims(t: Token): (cs: seq<Claim>)
    ensures |cs| == |t.claims| + (if t.notBefore.Some? then 4 else 3)
    ensures cs[..|t.claims|] == t.claims
    ensures Claim(Issuer, t.issuer) in cs && Claim(Audience, t.audience) in cs
  {
    var notBefore := match t.notBefore
      case Some(nbf) => [Claim(NotBefore, DecimalString(nbf))]
      case None => [];
    t.claims + notBefore
      + [Claim(Expiration, DecimalString(t.expires)), Claim(Issuer, t.issuer), Claim(Audience, t.audience)]
  }

  /**
   * Reads a `User` back by position: claims 0, 1 and 2 become Name, Email and
   * ProfilePicture whatever their claim types. This undoes `IdentityClaims`
   * exactly when those three claims carry the types it writes, in its order.
   */
  function ReadUser(claims: seq<Claim>): (user: User)
    requires |claims| >= 3
    ensures claims[..3] == IdentityClaims(user)
            <==> claims[0].claimType == NameIdentifier && claims[1].claimType == Email && claims[2].claimType == Uri
  {
    User(claims[0].value, claims[1].value, claims[2].value)
  }

  /** `CreateToken`: the identity claims, the configured issuer and audience, a 30-day expiry. */
  function CreateToken(cfg: JwtConfig, user: User, now: int): (t: Token)
    ensures |t.claims| == 3
    ensures t.claims[0].claimType == NameIdentifier && t.claims[1].claimType == Email && t.claims[2].claimType == Uri
    ensures ReadUser(PrincipalClaims(t)) == user
    ensures t.issuer == cfg.issuer && t.audience == cfg.audience
    ensures t.expires - now == ValidityDays * SecondsPerDay
    ensures t.notBefore.None?
    ensures t.keyBytes == SigningKey(cfg)
  {
    Token(IdentityClaims(user), cfg.issuer, cfg.audience, now + ValiditySeconds, None, SigningKey(cfg))
  }

  /**
   * The checks the token handler makes: the configured issuer and audience are
   * not blank, and the token's signature key, issuer, audience and lifetime
   * match: it has not expired, is already valid, and does not start after it
   * ends. A token signed with this configuration's own signing key passes the
   * key check only when the secret is all ASCII.
   */
  function Accepted(cfg: JwtConfig, t: Token, now: int): (b: bool)
    ensures b && t.keyBytes == SigningKey(cfg) ==> IsAscii(cfg.key)
  {
    Utf8EqualsAsciiIff(cfg.key);
    && !IsBlank(cfg.issuer)
    && !IsBlank(cfg.audience)
    && t.keyBytes == ValidationKey(cfg)
    && t.issuer == cfg.issuer
    && t.audience == cfg.audience
    && now <= t.expires + ClockSkewSeconds
    && (t.notBefore.Some? ==> t.notBefore.value <= now + ClockSkewSeconds && t.notBefore.value <= t.expires)
  }

  /**
   * `Validate` at clock `now`. `presented` is `None` for a string that is not a
   * well-formed token at all. Every failed check yields `None`, whichever it was.
   */
  function Validate(cfg: JwtConfig, presented: Option<Token>, now: int): (r: Option<User>)
    ensures r.Some? <==> presented.Some? && Accepted(cfg, presented.value, now)
    ensures r.Some? ==>
              && presented.value.keyBytes == Ascii(cfg.key)
              && presented.value.issuer == cfg.issuer && presented.value.audience == cfg.audience
              && !IsBlank(cfg.issuer) && !IsBlank(cfg.audience)
              && now - ClockSkewSeconds <= presented.value.expires
              && (presented.value.notBefore.Some? ==>
                    && presented.value.notBefore.value - ClockSkewSeconds <= now
                    && presented.value.notBefore.value <= presented.value.expires)
    ensures r.Some? && |presented.value.claims| >= 3 ==>
              && r.value.name == presented.value.claims[0].value
              && r.value.email == presented.value.claims[1].value
              && r.value.profilePicture == presented.value.claims[2].value
    ensures r.Some? && presented.value.claims == [] && presented.value.notBefore.None? ==>
              r.value == User(DecimalString(presented.value.expires), cfg.issuer, cfg.audience)
  {
    match presented
    case None => None
    case Some(t) => if Accepted(cfg, t, now) then Some(ReadUser(PrincipalClaims(t))) else None
  }

  /**
   * A token issued at `issuedAt` validates at `now` back to the very `User` it
   * was issued for exactly when the secret is all ASCII, the configured issuer
   * and audience are not blank, and the token has not expired; otherwise it is
   * rejected.
   */
  lemma IssuedTokenValidation(cfg: JwtConfig, user: User, issuedAt: int, now: int)
    ensures Validate(cfg, Some(CreateToken(cfg, user, issuedAt)), now)
      == if && IsAscii(cfg.key) && !IsBlank(cfg.issuer) && !IsBlank(cfg.audience)
            && now <= issuedAt + ValiditySeconds + ClockSkewSeconds
         then Some(user) else None
  {
    Utf8EqualsAsciiIff(cfg.key);
  }

  /** Round trip: within its validity window, an issued token decodes to the `User` it encodes. */
  lemma IssuedTokenRoundTrip(cfg: JwtConfig, user: User, issuedAt: int, now: int)
    requires IsAscii(cfg.key) && !IsBlank(cfg.issuer) && !IsBlank(cfg.audience)
    requires now <= issuedAt + ValiditySeconds + ClockSkewSeconds
    ensures Validate(cfg, Some(CreateToken(cfg, user, issuedAt)), now) == Some(user)
  {
    Utf8MatchesAsciiOnAscii(cfg.key);
  }

  /** With a secret outside ASCII, no token `CreateToken` issues ever validates. */
  lemma NonAsciiKeyRejectsIssuedTokens(cfg: JwtConfig, user: User, issuedAt: int, now: int)
    requires !IsAscii(cfg.key)
    ensures Validate(cfg, Some(CreateToken(cfg, user, issuedAt)), now).None?
  {
    Utf8BytesAsciiIff(cfg.key);
  }
}

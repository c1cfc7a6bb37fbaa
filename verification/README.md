# Photon.Auth: the login and credential-token core in Dafny

Photon.Auth signs users in through GitHub or Discord and hands back a signed
credential token, a JSON Web Token (RFC 7519) with HMAC SHA-256 (section 3.2 of
RFC 7518). Other services can later validate that token without asking the
identity provider again. All of this logic is in `AuthController`. This project
models it as pure functions over abstract inputs:

- `wrappers.dfy` (`Wrappers`): `Option` for the source's nullable values, `Result`
  for adapter outcomes, and `OrEmpty`, which captures how C# `+` treats a null string.
- `records.dfy` (`Records`): the canonical `User(Name, Email, ProfilePicture)` and the
  two ways an adapter can fail. A `Rejected(message)` becomes `BadRequest(message)`.
  A `Faulted(fault)` is an exception that escapes the action.
- `text_encoding.dfy` (`TextEncoding`): the two ways the `Jwt:Key` secret becomes
  key bytes. Signing uses UTF-8 (RFC 3629). Validation uses .NET's ASCII encoding.
  That encoder works on UTF-16 code units and writes `?` for every unit above 127,
  so a character beyond U+FFFF (a surrogate pair) becomes `??`.
- `jwt.dfy` (`Jwt`): the token is a record of identity claims, issuer, audience,
  expiry in epoch seconds, and the key bytes it was signed with. A signature
  "verifies" when those bytes equal the validation key. This covers `CreateToken`
  and the checks of `Validate`, including the positional read-back of the claims.
  The validated principal's claims are the token's own claims followed by the
  registered `nbf` (when present), `exp`, `iss` and `aud` claims. The module also
  holds `IsBlank`, the whitespace test of the issuer and audience validators, and
  `DecimalString`, the text of a numeric claim. So a token with fewer than three
  identity claims is read partly from those registered values, as the source does.
- `github.dfy`, `discord.dfy` (`GitHub`, `Discord`): the provider adapters. Each one
  normalises the provider's answers into a `User` or an error. The token exchange
  is the authorization-code grant of section 4.1.3 of RFC 6749. Its error fields
  are those of section 5.2. Lookups made with the provider access token are
  function parameters applied to that token.
- `auth_controller.dfy` (`AuthController`): the three actions `LoginGithub`,
  `LoginDiscord` and `Validate`, with their outcomes `Ok`/`BadRequest`/`ServerError`
  and `Authorized`/`Unauthorized`.

The clock is a parameter `now`, in integer UTC seconds. `Validate` also models the
checks the token handler makes by default:
- A token is refused once `now` is more than 300 seconds (the default clock skew)
  past its `exp`.
- A token is refused while its optional `nbf` is more than 300 seconds in the future,
  or later than its `exp`. Tokens the controller issues carry no `nbf`.
- Every token is refused while the configured issuer or audience is empty or
  whitespace.

Where the code behaves differently from what an OAuth login service would be
expected to do, the model follows the code:

- A GitHub account with no primary e-mail address makes `First` throw, so the
  model gives `ServerError(NoPrimaryEmail)` rather than a 400.
- The GitHub `Name` is the profile's display name, not the login. It can be null,
  and a null claim value makes the `Claim` constructor throw, giving
  `ServerError(NullClaimValue)`. A Discord profile without an e-mail address fails
  the same way.
- The token carries no issued-at claim.
- A token the controller itself issues validates only if the secret is all ASCII.
  `Jwt.IssuedTokenValidation` proves that with any other secret, no issued token
  ever validates.

## Model

| member | source | states |
|---|---|---|
| TextEncoding.Utf8Char | Controllers/AuthController.cs:25 | one character's UTF-8 form is 1 to 4 bytes; it is a single byte equal to the code point exactly when the character is ASCII; otherwise it is a lead byte 0xC2..0xF4 followed by continuation bytes 0x80..0xBF |
| TextEncoding.Utf8 | Controllers/AuthController.cs:25 | the signing-key bytes are never fewer than the secret's characters |
| TextEncoding.Ascii | Controllers/AuthController.cs:94 | the validation-key bytes number one per UTF-16 code unit of the secret and are all below 128; for an all-ASCII secret they are its code points, one per character |
| TextEncoding.Utf8BytesAsciiIff | Controllers/AuthController.cs:25 | the UTF-8 signing bytes are all below 128 if and only if the secret is all ASCII |
| TextEncoding.Utf8MatchesAsciiOnAscii | Controllers/AuthController.cs:94 | for an all-ASCII secret, the validation bytes equal the signing bytes of line 25 |
| TextEncoding.Utf8EqualsAsciiIff | Controllers/AuthController.cs:94 | the validation bytes equal the signing bytes of line 25 if and only if every character of the secret is below 128 |
| Jwt.CreateToken | Controllers/AuthController.cs:22-38 | exactly three claims, typed name identifier, e-mail, URI in that order, which read back by position to the same `User`; configured issuer and audience; expiry 30 days after `now`; signed with the UTF-8 key bytes |
| Jwt.PrincipalClaims | Controllers/AuthController.cs:95-103 | the validated principal's claims start with the token's own claims, in order, and also carry its `iss` and `aud`: three more claims in all, four when the token has an `nbf` |
| Jwt.ReadUser | Controllers/AuthController.cs:106-111 | the positional read inverts the claim layout of lines 29-31 exactly when claims 0, 1 and 2 have the name-identifier, e-mail and URI types |
| Jwt.Accepted | Controllers/AuthController.cs:94-103 | a token signed with this configuration's own signing key passes the handler's checks only if the secret is all ASCII |
| Jwt.Validate | Controllers/AuthController.cs:93-111 | a `User` comes back exactly for a token that passes the checks: ASCII key bytes, the configured issuer and audience, neither of them blank, unexpired, and, when it has an `nbf`, already valid within the skew and not starting after its `exp`; the `User` is read by position from claims 0, 1 and 2, and from the registered `exp`, `iss`, `aud` values for a token without its own claims or `nbf` |
| Jwt.IssuedTokenValidation | Controllers/AuthController.cs:25-111 | an issued token validates back to the `User` it was issued for if and only if the secret is all ASCII, the configured issuer and audience are not blank, and the clock is within 30 days plus the skew of issuance; otherwise it is refused |
| Jwt.IssuedTokenRoundTrip | Controllers/AuthController.cs:27-111 | round trip: with an ASCII secret, a non-blank issuer and audience, and within the validity window, validating an issued token gives back the original `User` |
| Jwt.NonAsciiKeyRejectsIssuedTokens | Controllers/AuthController.cs:25-98 | with a secret containing a character of 128 or above, no token the controller issues passes its own key check |
| GitHub.FirstPrimary | Controllers/AuthController.cs:53 | picks the first address in list order that is flagged primary; there is no result exactly when no address is primary |
| GitHub.ExchangeErrorMessage | Controllers/AuthController.cs:48 | the message is the error description, one space, then the error URI, with a null part contributing nothing |
| GitHub.Identify | Controllers/AuthController.cs:46-54 | an exchange error gives `Rejected(ErrorDescription + " " + ErrorUri)` without any lookup, and is the only rejection; with no primary address the login faults, and with a primary address but a null name it faults on the null claim; success means no error, some primary address and a non-null name, and then Name is the display name, Email the first primary address and ProfilePicture the avatar URL |
| GitHub.PrimaryEmailExample | Controllers/AuthController.cs:53-54 | with `[a@x.com non-primary, b@x.com primary]` the user's e-mail is `b@x.com` |
| Discord.AvatarUrl | Controllers/AuthController.cs:85 | the URL starts with the CDN prefix, ends in `.png`, and between them holds the user id, '/', and the avatar hash |
| Discord.AvatarUrlRoundTrip | Controllers/AuthController.cs:85 | the CDN avatar URL determines the user id (when it contains no '/') and the avatar hash: parsing it gives both back |
| Discord.ParsedAvatarUrlRebuilds | Controllers/AuthController.cs:85 | every URL that parses is the CDN avatar URL of its parts |
| Discord.Identify | Controllers/AuthController.cs:73-85 | `Rejected("Invalid code")` exactly when the token response or its `access_token` is missing, without consulting the profile; then `Rejected("Invalid token")` exactly when the profile or its username is missing; a username with a null e-mail faults on the null claim; success exactly when username and e-mail are present, and then the user's fields are those values plus `https://cdn.discordapp.com/avatars/<id>/<avatar>.png` |
| AuthController.Respond | Controllers/AuthController.cs:84-86 | success exactly when the adapter produced a `User`; the response carries that very `User` and exactly the token `CreateToken` issues for it at `now`: signed with the UTF-8 key bytes of line 25, no `nbf`, reading back to that `User`, with the configured issuer and audience and a 30-day expiry; rejections become `BadRequest` with the same message |
| AuthController.LoginGithub | Controllers/AuthController.cs:42-56 | an exchange error answers `BadRequest(ErrorDescription + " " + ErrorUri)`, and only an exchange error answers `BadRequest`; `Ok` exactly when there is no error, a primary address and a non-null name; otherwise `ServerError(NoPrimaryEmail)` or `ServerError(NullClaimValue)`; an `Ok` pairs the display name, the first primary address and the avatar URL with the token issued for exactly that `User` |
| AuthController.LoginDiscord | Controllers/AuthController.cs:59-87 | `BadRequest("Invalid code")` exactly when `access_token` is missing; once a token is present, `BadRequest("Invalid token")` exactly when the profile or its username is missing, `ServerError(NullClaimValue)` for a null e-mail, and `Ok` exactly when username and e-mail are present; an `Ok` pairs username, e-mail and the CDN avatar URL with the token issued for that same `User` |
| AuthController.Validate | Controllers/AuthController.cs:91-111 | `Authorized(user)` exactly for a token that passes the handler's checks: the ASCII key bytes, the configured issuer and audience, neither of them blank, unexpired within the skew, and no `nbf` in the future beyond the skew or after its `exp`; `user` is read by position from the principal's claims; a malformed token is `Unauthorized` |
| AuthController.LoginResponseTokenValidates | Controllers/AuthController.cs:86-111 | with an ASCII secret and a non-blank issuer and audience, the token in a successful login response validates during its 30 days to exactly the `User` in that response |
| AuthController.ForeignTokenRejected | Controllers/AuthController.cs:94-105 | a token signed with other key bytes, or naming another issuer or audience, is `Unauthorized` |
| AuthController.NotYetValidTokenRejected | Controllers/AuthController.cs:95-105 | a token whose `nbf` is more than the skew in the future, or later than its `exp`, is `Unauthorized` |

## Left out

- HTTP and JSON plumbing: the Octokit calls, the `HttpClient` POST and GET, the form-encoded body, the Basic and Bearer headers, and JSON (de)serialisation. Provider answers are parameters. A body that fails to deserialise (`JsonException`) is not modelled.
- The token-endpoint fields other than `access_token` (`token_type`, `expires_in`, `refresh_token`, `scope`). The login never reads them.
- JWT library internals: HMAC SHA-256, base64url, the compact serialisation, and the mapping of claim types to JSON names. The library's minimum key length is also left out. The signature is modelled as equality of key bytes. That is stricter than HMAC, which treats a key and the same key padded with zero bytes (up to 64 bytes) as one key, and a key longer than 64 bytes as its SHA-256 digest.
- Jwt.Validate: the library reports a failed check by throwing, and at run time that becomes a 500, not the `Unauthorized` of line 105. The model folds every failure into `None`/`Unauthorized`, so it does not separate the two.
- Jwt.Validate: `now` is whole seconds, while the handler compares `exp` with a sub-second clock.
- Jwt.Validate: the audience is compared exactly. Recent versions of the handler also accept an audience that differs from the configured one only by a trailing '/'.
- Jwt.PrincipalClaims: `nbf` (when present), `exp`, `iss` and `aud` are placed after the token's other claims, in that order, as the token's constructor adds them to the payload. A token from another issuer that writes them earlier in its payload is read by the handler in its own order.
- Jwt.CreateToken: the expiry is `now + 30 days` in UTC seconds. The source adds 30 days to local time before converting to UTC, which moves the expiry by an hour across a daylight-saving change. The model leaves that shift out. An empty configured issuer or audience is recorded rather than omitted from the payload. Such a token is refused either way.
- Lone UTF-16 surrogates in the secret: a Dafny `char` is a Unicode scalar value, so these cannot be represented.
- Logging, configuration loading (a missing configuration value), dependency injection and Swagger (`Program.cs`). `Program.cs` gives each request its own `GitHubClient` and `HttpClient`, so the per-request changes to their credentials and headers are local to one login.

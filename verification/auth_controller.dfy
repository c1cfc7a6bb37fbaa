/**
 * `AuthController`: the three actions, composing a provider adapter with the
 * token service. Provider responses and the clock are parameters.
 */
module AuthController {
  import opened Wrappers
  import opened TextEncoding
  import opened Records
  import Jwt
  import GitHub
  import Discord

  datatype LoginResponse = LoginResponse(user: User, token: Jwt.Token)

  /** What a login action answers: 200 with a response, 400 with a message, or an escaped exception. */
  datatype LoginOutcome =
    | Ok(response: LoginResponse)
    | BadRequest(message: string)
    | ServerError(fault: Fault)

  /** What `Validate` answers. */
  datatype ValidateOutcome = Authorized(user: User) | Unauthorized

  /**
   * The tail both login actions share: a normalised `User` is tokenised and
   * returned beside its token; a rejection becomes `BadRequest`.
   */
  function Respond(cfg: Jwt.JwtConfig, now: int, identity: Result<User, LoginError>): (r: LoginOutcome)
    ensures r.Ok? <==> identity.Success?
    ensures r.Ok? ==> r.response.user == identity.value
    ensures r.Ok? ==> Jwt.ReadUser(Jwt.PrincipalClaims(r.response.token)) == r.response.user
    ensures r.Ok? ==> r.response.token == Jwt.CreateToken(cfg, r.response.user, now)
    ensures r.Ok? ==> r.response.token.keyBytes == Jwt.SigningKey(cfg) && r.response.token.notBefore.None?
    ensures r.Ok? ==> r.response.token.expires == now + Jwt.ValiditySeconds
    ensures r.Ok? ==> r.response.token.issuer == cfg.issuer && r.response.token.audience == cfg.audience
    ensures r.BadRequest? <==> identity.Failure? && identity.error.Rejected?
    ensures r.BadRequest? ==> r.message == identity.error.message
    ensures r.ServerError? ==> identity == Failure(Faulted(r.fault))
  {
    match identity
    case Success(user) => Ok(LoginResponse(user, Jwt.CreateToken(cfg, user, now)))
    case Failure(Rejected(message)) => BadRequest(message)
    case Failure(Faulted(fault)) => ServerError(fault)
  }

  /** `GET auth/login/github`. */
  function LoginGithub(
    cfg: Jwt.JwtConfig, now: int, token: GitHub.OauthToken,
    current: string -> GitHub.GitHubUser, emailsOf: string -> seq<GitHub.EmailAddress>)
    : (r: LoginOutcome)
    ensures token.error.Some? ==>
              r == BadRequest(OrEmpty(token.errorDescription) + " " + OrEmpty(token.errorUri))
    ensures r.BadRequest? ==> token.error.Some?
    ensures r.Ok? <==>
              && token.error.None?
              && GitHub.FirstPrimary(emailsOf(token.accessToken)).Some?
              && current(token.accessToken).name.Some?
    ensures token.error.None? && GitHub.FirstPrimary(emailsOf(token.accessToken)).None? ==>
              r == ServerError(NoPrimaryEmail)
    ensures token.error.None? && GitHub.FirstPrimary(emailsOf(token.accessToken)).Some? && current(token.accessToken).name.None? ==>
              r == ServerError(NullClaimValue)
    ensures r.Ok? ==>
              && token.error.None?
              && Some(r.response.user.name) == current(token.accessToken).name
              && r.response.user.profilePicture == current(token.accessToken).avatarUrl
              && GitHub.FirstPrimary(emailsOf(token.accessToken)).Some?
              && r.response.user.email
                 == emailsOf(token.accessToken)[GitHub.FirstPrimary(emailsOf(token.accessToken)).value].email
              && r.response.token == Jwt.CreateToken(cfg, r.response.user, now)
  {
    Respond(cfg, now, GitHub.Identify(token, current, emailsOf))
  }

  /** `GET auth/login/discord`. */
  function LoginDiscord(
    cfg: Jwt.JwtConfig, now: int, response: Option<Discord.TokenResponse>,
    userOf: string -> Option<Discord.DiscordUser>)
    : (r: LoginOutcome)
    ensures (response.None? || response.value.accessToken.None?) <==> r == BadRequest("Invalid code")
    ensures response.Some? && response.value.accessToken.Some? ==>
              var profile := userOf(response.value.accessToken.value);
              && ((profile.None? || profile.value.username.None?) <==> r == BadRequest("Invalid token"))
              && (r.Ok? <==> profile.Some? && profile.value.username.Some? && profile.value.email.Some?)
              && (profile.Some? && profile.value.username.Some? && profile.value.email.None? ==>
                    r == ServerError(NullClaimValue))
              && (r.Ok? ==>
                    && Some(r.response.user.name) == profile.value.username
                    && Some(r.response.user.email) == profile.value.email
                    && r.response.user.profilePicture
                       == "https://cdn.discordapp.com/avatars/" + OrEmpty(profile.value.id) + "/"
                          + OrEmpty(profile.value.avatar) + ".png"
                    && r.response.token == Jwt.CreateToken(cfg, r.response.user, now))
  {
    Respond(cfg, now, Discord.Identify(response, userOf))
  }

  /** `GET auth/validate`: the token's `User`, or `Unauthorized` with no hint of which check failed. */
  function Validate(cfg: Jwt.JwtConfig, presented: Option<Jwt.Token>, now: int): (r: ValidateOutcome)
    ensures r.Authorized? <==> presented.Some? && Jwt.Accepted(cfg, presented.value, now)
    ensures r.Authorized? ==>
              && presented.value.keyBytes == Jwt.ValidationKey(cfg)
              && presented.value.issuer == cfg.issuer
              && presented.value.audience == cfg.audience
              && !Jwt.IsBlank(cfg.issuer) && !Jwt.IsBlank(cfg.audience)
              && now <= presented.value.expires + Jwt.ClockSkewSeconds
              && r.user == Jwt.ReadUser(Jwt.PrincipalClaims(presented.value))
    ensures presented.None? ==> r == Unauthorized
  {
    match Jwt.Validate(cfg, presented, now)
    case Some(user) => Authorized(user)
    case None => Unauthorized
  }

  /**
   * The `User` a successful login returns is the one its token carries: with an
   * all-ASCII secret and a configured issuer and audience that are not blank,
   * validating the token at any time within its window gives back exactly
   * that `User`.
   */
  lemma LoginResponseTokenValidates(cfg: Jwt.JwtConfig, now: int, identity: Result<User, LoginError>, later: int)
    requires IsAscii(cfg.key) && !Jwt.IsBlank(cfg.issuer) && !Jwt.IsBlank(cfg.audience)
    requires Respond(cfg, now, identity).Ok?
    requires now <= later <= now + Jwt.ValiditySeconds
    ensures var response := Respond(cfg, now, identity).response;
            Validate(cfg, Some(response.token), later) == Authorized(response.user)
  {
    Jwt.IssuedTokenRoundTrip(cfg, identity.value, now, later);
  }

  /** A token signed with other key bytes, or naming another issuer or audience, is refused. */
  lemma ForeignTokenRejected(cfg: Jwt.JwtConfig, t: Jwt.Token, now: int)
    requires t.keyBytes != Jwt.ValidationKey(cfg) || t.issuer != cfg.issuer || t.audience != cfg.audience
    ensures Validate(cfg, Some(t), now) == Unauthorized
  {
  }

  /** A token whose `nbf` lies more than the skew in the future, or after its own `exp`, is refused. */
  lemma NotYetValidTokenRejected(cfg: Jwt.JwtConfig, t: Jwt.Token, now: int)
    requires t.notBefore.Some?
    requires t.notBefore.value > now + Jwt.ClockSkewSeconds || t.notBefore.value > t.expires
    ensures Validate(cfg, Some(t), now) == Unauthorized
  {
  }
}

/**
 * The Discord half of `LoginDiscord`: the token endpoint's answer to the
 * authorization-code grant (section 4.1.3 of RFC 6749) and the `users/@me`
 * profile fetched with the access token, normalised into a `User`.
 */
module Discord {
  import opened Wrappers
  import opened Records

  /** The one field of `DiscordTokenResponse` the login reads; null when absent. */
  datatype TokenResponse = TokenResponse(accessToken: Option<string>)

  /** The profile of `users/@me`; each field null when absent. */
  datatype DiscordUser = DiscordUser(
    id: Option<string>,
    username: Option<string>,
    avatar: Option<string>,
    email: Option<string>)

  const CdnPrefix := "https://cdn.discordapp.com/avatars/"
  const PngSuffix := ".png"

  /** The avatar URL the CDN serves for a user id and avatar hash. */
  function AvatarUrl(id: string, avatar: string): (url: string)
    ensures |url| == |CdnPrefix| + |id| + 1 + |avatar| + |PngSuffix|
    ensures url[..|CdnPrefix|] == CdnPrefix
    ensures url[|url| - |PngSuffix|..] == PngSuffix
    ensures url[|CdnPrefix|..|url| - |PngSuffix|] == id + "/" + avatar
  {
    CdnPrefix + id + "/" + avatar + PngSuffix
  }

  /** The position of the first `c` in `s`, if any. */
  function IndexOf(s: string, c: char): (r: Option<nat>)
    ensures r.None? <==> c !in s
    ensures r.Some? ==> r.value < |s| && s[r.value] == c && c !in s[..r.value]
  {
    if s == [] then None
    else if s[0] == c then Some(0)
    else match IndexOf(s[1..], c)
      case None => None
      case Some(k) =>
        assert s[..k + 1] == [s[0]] + s[1..][..k];
        Some(k + 1)
  }

  /** Splits an avatar URL back into user id and avatar hash, at the first '/' after the prefix. */
  function ParseAvatarUrl(url: string): Option<(string, string)> {
    if |url| < |CdnPrefix| + |PngSuffix| || url[..|CdnPrefix|] != CdnPrefix || url[|url| - |PngSuffix|..] != PngSuffix then
      None
    else
      var middle := url[|CdnPrefix|..|url| - |PngSuffix|];
      match IndexOf(middle, '/')
      case None => None
      case Some(k) => Some((middle[..k], middle[k + 1..]))
  }

  /** A user id without '/' (a Discord snowflake is decimal digits) and its hash are recovered from the URL. */
  lemma AvatarUrlRoundTrip(id: string, avatar: string)
    requires '/' !in id
    ensures ParseAvatarUrl(AvatarUrl(id, avatar)) == Some((id, avatar))
  {
    var url := AvatarUrl(id, avatar);
    assert url[..|CdnPrefix|] == CdnPrefix;
    assert url[|url| - |PngSuffix|..] == PngSuffix;
    var middle := url[|CdnPrefix|..|url| - |PngSuffix|];
    assert middle == id + "/" + avatar;
    assert (id + "/" + avatar)[..|id|] == id;
    assert middle[|id|] == '/';
  }

  /** Every URL that parses is the avatar URL of the parts it parses into. */
  lemma ParsedAvatarUrlRebuilds(url: string)
    ensures ParseAvatarUrl(url).Some? ==> AvatarUrl(ParseAvatarUrl(url).value.0, ParseAvatarUrl(url).value.1) == url
  {
    if ParseAvatarUrl(url).Some? {
      var middle := url[|CdnPrefix|..|url| - |PngSuffix|];
      var k := IndexOf(middle, '/').value;
      assert middle == middle[..k] + "/" + middle[k + 1..];
      assert url == url[..|CdnPrefix|] + middle + url[|url| - |PngSuffix|..];
    }
  }

  /**
   * The user `LoginDiscord` builds. A missing access token is reported before
   * the profile is fetched; a missing profile or username is reported next; a
   * null e-mail (which the `Claim` constructor refuses) faults. A null id or
   * avatar hash concatenates as the empty string.
   */
  function Identify(response: Option<TokenResponse>, userOf: string -> Option<DiscordUser>)
    : (r: Result<User, LoginError>)
    ensures (response.None? || response.value.accessToken.None?) <==> r == Failure(Rejected("Invalid code"))
    ensures response.Some? && response.value.accessToken.Some? ==>
              var profile := userOf(response.value.accessToken.value);
              && ((profile.None? || profile.value.username.None?) <==> r == Failure(Rejected("Invalid token")))
              && (profile.Some? && profile.value.username.Some? && profile.value.email.None? ==>
                    r == Failure(Faulted(NullClaimValue)))
              && (r.Success? <==> profile.Some? && profile.value.username.Some? && profile.value.email.Some?)
              && (r.Success? ==>
                    && Some(r.value.name) == profile.value.username
                    && Some(r.value.email) == profile.value.email
                    && r.value.profilePicture
                       == "https://cdn.discordapp.com/avatars/" + OrEmpty(profile.value.id) + "/"
                          + OrEmpty(profile.value.avatar) + ".png")
  {
    match response
    case None => Failure(Rejected("Invalid code"))
    case Some(body) =>
      match body.accessToken
      case None => Failure(Rejected("Invalid code"))
      case Some(token) =>
        match userOf(token)
        case None => Failure(Rejected("Invalid token"))
        case Some(profile) =>
          if profile.username.None? then Failure(Rejected("Invalid token"))
          else if profile.email.None? then Failure(Faulted(NullClaimValue))
          else
            var picture := AvatarUrl(OrEmpty(profile.id), OrEmpty(profile.avatar));
            Success(User(profile.username.value, profile.email.value, picture))
  }
}

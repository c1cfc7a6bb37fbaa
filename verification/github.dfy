/**
 * The GitHub half of `LoginGithub`: the OAuth token exchange (the
 * authorization-code grant of section 4.1.3 of RFC 6749), the current-user
 * profile and the e-mail list, normalised into a `User`. The two lookups are
 * functions of the access token, standing for the API calls made with it.
 */
module GitHub {
  import opened Wrappers
  import opened Records

  /** The token-exchange answer; `error`, `errorDescription` and `errorUri` are the fields of section 5.2 of RFC 6749. */
  datatype OauthToken = OauthToken(
    error: Option<string>,
    errorDescription: Option<string>,
    errorUri: Option<string>,
    accessToken: string)

  /** The current user's profile: `Name` is the display name and may be null. */
  datatype GitHubUser = GitHubUser(name: Option<string>, avatarUrl: string)

  datatype EmailAddress = EmailAddress(email: string, primary: bool)

  /** The position of the first address flagged primary, if any. */
  function FirstPrimary(emails: seq<EmailAddress>): (r: Option<nat>)
    ensures r.None? <==> forall i :: 0 <= i < |emails| ==> !emails[i].primary
    ensures r.Some? ==> r.value < |emails| && emails[r.value].primary
    ensures r.Some? ==> forall j :: 0 <= j < r.value ==> !emails[j].primary
  {
    if emails == [] then None
    else if emails[0].primary then Some(0)
    else match FirstPrimary(emails[1..])
      case None => None
      case Some(k) => Some(k + 1)
  }

  /** The `BadRequest` text for a failed exchange: description, a space, the error URI. */
  function ExchangeErrorMessage(token: OauthToken): (m: string)
    ensures |m| == |OrEmpty(token.errorDescription)| + 1 + |OrEmpty(token.errorUri)|
    ensures m[..|OrEmpty(token.errorDescription)|] == OrEmpty(token.errorDescription)
    ensures m[|OrEmpty(token.errorDescription)|] == ' '
    ensures m[|OrEmpty(token.errorDescription)| + 1..] == OrEmpty(token.errorUri)
  {
    OrEmpty(token.errorDescription) + " " + OrEmpty(token.errorUri)
  }

  /**
   * The user `LoginGithub` builds. An exchange error is reported before any
   * lookup; a list without a primary address, or a null display name (which
   * the `Claim` constructor refuses), faults.
   */
  function Identify(token: OauthToken, current: string -> GitHubUser, emailsOf: string -> seq<EmailAddress>)
    : (r: Result<User, LoginError>)
    ensures token.error.Some? ==> r == Failure(Rejected(ExchangeErrorMessage(token)))
    ensures r.Failure? && r.error.Rejected? ==> token.error.Some?
    ensures token.error.None? && FirstPrimary(emailsOf(token.accessToken)).None? ==> r == Failure(Faulted(NoPrimaryEmail))
    ensures token.error.None? && FirstPrimary(emailsOf(token.accessToken)).Some? && current(token.accessToken).name.None? ==>
              r == Failure(Faulted(NullClaimValue))
    ensures r.Success? <==>
              && token.error.None?
              && (exists i :: 0 <= i < |emailsOf(token.accessToken)| && emailsOf(token.accessToken)[i].primary)
              && current(token.accessToken).name.Some?
    ensures r.Success? ==>
              && Some(r.value.name) == current(token.accessToken).name
              && r.value.profilePicture == current(token.accessToken).avatarUrl
              && exists i :: && 0 <= i < |emailsOf(token.accessToken)|
                             && emailsOf(token.accessToken)[i].primary
                             && emailsOf(token.accessToken)[i].email == r.value.email
                             && forall j :: 0 <= j < i ==> !emailsOf(token.accessToken)[j].primary
  {
    if token.error.Some? then
      Failure(Rejected(ExchangeErrorMessage(token)))
    else
      var profile := current(token.accessToken);
      var emails := emailsOf(token.accessToken);
      match FirstPrimary(emails)
      case None => Failure(Faulted(NoPrimaryEmail))
      case Some(i) =>
        match profile.name
        case None => Failure(Faulted(NullClaimValue))
        case Some(name) => Success(User(name, emails[i].email, profile.avatarUrl))
  }

  /** A primary address later in the list is picked over an earlier non-primary one. */
  lemma PrimaryEmailExample()
    ensures var emails := [EmailAddress("a@x.com", false), EmailAddress("b@x.com", true)];
            Identify(OauthToken(None, None, None, "t"), _ => GitHubUser(Some("Ann"), "pic"), _ => emails)
              == Success(User("Ann", "b@x.com", "pic"))
  {
  }
}

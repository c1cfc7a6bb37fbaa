/** The canonical identity every provider is normalised into, and the ways a login can fail. */
module Records {

  /** `User(Name, Email, ProfilePicture)`: the three strings a credential token carries. */
  datatype User = User(name: string, email: string, profilePicture: string)

  /** Why a login request ended in an unhandled exception (an HTTP 500) rather than a response. */
  datatype Fault =
    | NoPrimaryEmail   // `First(e => e.Primary)` over a list without a primary address
    | NullClaimValue   // a `Claim` built from a null string value

  /** Why a provider adapter produced no `User`. */
  datatype LoginError =
    | Rejected(message: string)  // answered with `BadRequest(message)`
    | Faulted(fault: Fault)      // an exception escapes the action
}

/** The JSON Web Token library, seen only at its interface (RFC 7519 claims
    in an RFC 7515 signature). Signing is a function value the caller is
    given; verification is an abstract outcome: either the decoded claims or
    the error the library throws (bad signature, malformed token, expired). */
module Tokens {
  import opened Outcomes
  import opened UserModel

  /** The `data` object of a payload, with the three members the gate reads. */
  datatype ClaimData = ClaimData(id: Option<Id>, role: Option<string>, username: Option<string>)

  /** A payload handed to `jwt.sign`: only the members this repository uses. */
  datatype Payload = Payload(data: Option<ClaimData>, username: Option<string>)

  /** What `jwt.verify` returns: the payload plus the registered claims
      `iat` (issued at, seconds) and `exp` (expiry) added by signing. */
  datatype Claims = Claims(data: Option<ClaimData>, username: Option<string>, iat: Option<int>, exp: Option<int>)

  /** The outcome of `jwt.verify(token, secret)`. */
  datatype VerifyOutcome =
    | Verified(claims: Claims)
    | VerifyFailed(name: string, message: string)

  /** The `expiresIn` option used at login, and the lifetime it stands for. */
  const OneDay: string := "1d"
  const OneDaySeconds: int := 86400

  /** The claims a correct verifier returns, before expiry, for a token that
      was signed from `p` with `expiresIn: "1d"` at time `iat`. */
  function SignedClaims(p: Payload, iat: int): Claims {
    Claims(p.data, p.username, Some(iat), Some(iat + OneDaySeconds))
  }
}

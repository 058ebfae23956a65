/**
 * The signed identity token. Signing and verification belong to a library
 * that is not part of this model, so both are function values handed to the
 * code that uses them: `verify` returns the payload of a valid, unexpired
 * token and None where the library throws.
 */
module Jwt {
  import opened Base

  /** The token payload: email, id and role, plus the times the library adds. */
  datatype Payload = Payload(email: string, id: string, role: Role, iat: Option<int>, exp: Option<int>)

  /** `jwtService.verify` / `verifyAsync` with the configured secret, at the current time. */
  type Verifier = string -> Option<Payload>

  /** `jwtService.sign` with the configured secret and lifetime. */
  type Signer = Payload -> string

  /** Two payloads name the same account with the same role (times aside). */
  predicate SameClaims(a: Payload, b: Payload)
  {
    a.email == b.email && a.id == b.id && a.role == b.role
  }

  /**
   * What the library promises within a token's lifetime: a signed token
   * verifies to the claims it was signed with, and contains no space.
   */
  ghost predicate Codec(sign: Signer, verify: Verifier)
  {
    forall p: Payload ::
      && ' ' !in sign(p)
      && sign(p) != ""
      && verify(sign(p)).Some?
      && SameClaims(verify(sign(p)).value, p)
  }
}

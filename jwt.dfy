/** Signed tokens, reduced to their claims. Signing, secrets and the expiry
    clock belong to the token library and are not modelled; a verifier is
    an oracle that maps a presented token string to a `Verdict`. */
module Jwt {

  /** A claim value as JavaScript reads it off a verified payload. */
  datatype ClaimValue = Absent | Text(text: string) | Number(n: int)

  /** JavaScript truthiness of a claim value: `undefined`, `""` and `0` are falsy. */
  predicate Truthy(c: ClaimValue)
  {
    match c
    case Absent => false
    case Text(t) => t != ""
    case Number(n) => n != 0
  }

  /** A verified payload: the library returns either a string or an object.
      Only the two claims the server reads are kept. */
  datatype Payload = TextPayload(text: string) | ObjectPayload(id: ClaimValue, email: ClaimValue)

  /** `payload.id`: a string payload has no `id` property. */
  function IdClaim(p: Payload): ClaimValue
  {
    if p.ObjectPayload? then p.id else Absent
  }

  /** `payload.email`: a string payload has no `email` property. */
  function EmailClaim(p: Payload): ClaimValue
  {
    if p.ObjectPayload? then p.email else Absent
  }

  /** Outcome of verifying a token: its payload, the token-expired error, or any other error. */
  datatype Verdict = Verified(payload: Payload) | Expired | Rejected

  datatype TokenKind = Access | Refresh

  /** A token the server issues: its kind (which secret and lifetime) and its claims. */
  datatype Token = Token(kind: TokenKind, id: string, email: string)

  /** The payload `{id, email}` that the TypeScript token helpers sign. */
  function Claims(t: Token): Payload
  {
    ObjectPayload(Text(t.id), Text(t.email))
  }

  /** The payload `{userId, email}` that the older JavaScript token helpers
      sign: it carries no `id` claim. */
  function LegacyClaims(t: Token): Payload
  {
    ObjectPayload(Absent, Text(t.email))
  }
}

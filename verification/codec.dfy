/**
 * The signed-claims codec. Signatures are not modelled: a token produced by
 * `Encode` records the key it was signed with, and `Decode` accepts it only under
 * that key. Any other string is `Garbled`.
 */
module Codec {
  import opened Wrappers

  /** The claims the core reads from a decoded token. `tokenType` is absent when the claim is missing. */
  datatype Claims = Claims(userId: string, scopes: seq<string>, tokenType: Option<string>)

  datatype SignedToken =
    | Jwt(claims: Claims, issuedAt: int, expiresAt: int, signingKey: string)
    | Garbled(text: string)

  /** The three decode failures the validator catches. */
  datatype DecodeError = ExpiredSignature | InvalidSignature | InvalidToken

  /** The token string is falsy exactly when it is empty. */
  predicate IsBlank(t: SignedToken)
  {
    t == Garbled("")
  }

  /** Verifies the signature first, then the expiry; a token expires at its `expiresAt` second. */
  function Decode(t: SignedToken, key: string, now: int): (r: Result<Claims, DecodeError>)
    ensures r == Err(InvalidToken) <==> t.Garbled?
    ensures r == Err(InvalidSignature) <==> t.Jwt? && t.signingKey != key
    ensures r == Err(ExpiredSignature) <==> t.Jwt? && t.signingKey == key && t.expiresAt <= now
    ensures r.Ok? <==> t.Jwt? && t.signingKey == key && now < t.expiresAt
    ensures r.Ok? ==> r.value == t.claims
  {
    match t
    case Garbled(_) => Err(InvalidToken)
    case Jwt(c, _, exp, signer) =>
      if signer != key then Err(InvalidSignature)
      else if exp <= now then Err(ExpiredSignature)
      else Ok(c)
  }

  /** Signs `c` with `key`, valid for `ttlMinutes` minutes from `now`. */
  function Encode(c: Claims, key: string, ttlMinutes: int, now: int): (t: SignedToken)
    ensures !IsBlank(t)
    ensures forall later :: now <= later < now + ttlMinutes * 60 ==> Decode(t, key, later) == Ok(c)
    ensures forall later :: now + ttlMinutes * 60 <= later ==> Decode(t, key, later) == Err(ExpiredSignature)
    ensures forall other, later :: other != key ==> Decode(t, other, later) == Err(InvalidSignature)
  {
    Jwt(c, now, now + ttlMinutes * 60, key)
  }
}

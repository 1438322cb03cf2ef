/**
 * The password-hashing primitives `bcrypt($p)` and `Hash::check($p, $h)`.
 * The algorithm is not modelled: a digest is an ideal hash that remembers which
 * secret it was made from and the random salt that went into it, so `Check`
 * accepts exactly the secret the digest was made from (no collisions).
 * Real bcrypt reads only the first 72 bytes of a password, so what is proved here
 * about refusing other passwords holds of it only for passwords that differ there.
 */
module Hashing {

  datatype Hash = Digest(secret: string, salt: nat)

  /** `bcrypt($password)`; the salt is the random part of the call, chosen by the caller. */
  function Bcrypt(password: string, salt: nat): (h: Hash)
    ensures Check(password, h)
  {
    Digest(password, salt)
  }

  /** `Hash::check($password, $hash)`. */
  predicate Check(password: string, h: Hash)
  {
    h.secret == password
  }

  /** A digest accepts no password other than the one it was made from, whatever the salt. */
  lemma CheckOnlyOwnSecret(password: string, other: string, salt: nat)
    ensures Check(other, Bcrypt(password, salt)) <==> other == password
  {
  }
}

/** The outside cryptography the backend relies on, as uninterpreted constructors: an
    Argon2 password hash (passlib), a SHA-256 hex digest (hashlib) and a Fernet ciphertext
    (backend/app/utils/crypto.py). A constructor keeps its argument, so "the table never
    holds the plaintext" is a fact about types, and equality of digests is equality of
    inputs (the collision resistance the code relies on). */
module Primitives {
  import opened Options

  datatype PasswordHash = Argon2(plain: string)

  datatype Digest = Sha256Hex(input: string)

  datatype Ciphertext = Fernet(plain: string)

  /** `pwd_context.hash`. */
  function HashPassword(password: string): PasswordHash {
    Argon2(password)
  }

  /** `pwd_context.verify`. */
  predicate VerifyPassword(password: string, hash: PasswordHash) {
    hash == HashPassword(password)
  }

  /** A stored hash accepts exactly the password it was made from. */
  lemma VerifyPasswordIff(password: string, other: string)
    ensures VerifyPassword(other, HashPassword(password)) <==> other == password
  {
  }

  /** `encrypt` in backend/app/utils/crypto.py: an empty text gives `None`. */
  function Encrypt(text: string): (c: Option<Ciphertext>)
    ensures c.None? <==> text == ""
    ensures c.Some? ==> c.value.plain == text
  {
    if text == "" then None else Some(Fernet(text))
  }
}

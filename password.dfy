/** Password hashing (`lib/password.ts`) is foreign code: a hash function and a
    verifier `verify(hash, password)`, passed in as values. */
module Password {

  datatype Hasher = Hasher(hash: string -> string, verify: (string, string) -> bool)

  /** A hash verifies against the password it was made from. */
  ghost predicate Sound(h: Hasher) {
    forall p :: h.verify(h.hash(p), p)
  }

  /** A hash verifies against no other password. */
  ghost predicate Discerning(h: Hasher) {
    forall p, q :: p != q ==> !h.verify(h.hash(p), q)
  }
}

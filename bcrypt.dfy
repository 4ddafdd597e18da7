/** The password hashing the application delegates to bcrypt, as an idealised
    digest: hashing is injective in the password and Compare accepts exactly the
    password that was hashed. The salt stands for bcrypt's random salt. */
module Bcrypt {

  datatype Digest = Digest(salt: string, preimage: string)

  function Hash(password: string, salt: string): Digest
  {
    Digest(salt, password)
  }

  predicate Compare(password: string, digest: Digest)
  {
    digest.preimage == password
  }

  lemma CompareHash(password: string, candidate: string, salt: string)
    ensures Compare(candidate, Hash(password, salt)) <==> candidate == password
  {
  }
}

/**
 * Credential hashing as the account service uses it: bcrypt at a fixed work factor.
 *
 * bcrypt itself is abstracted. A hash is the version/cost prefix, the 22-character salt
 * and an idealised digest of the password; the digest is modelled as an injective
 * encoding (the password itself), so the model keeps bcrypt's observable contract
 * (a hash verifies exactly the password it was made from, and differs from it) but not
 * its one-wayness. The random salt is an input.
 */
module Passwords {

  /** Version and cost prefix that `bcrypt.GenerateFromPassword(p, 10)` writes. */
  const Prefix: string := "$2a$10$"
  const SaltLength: nat := 22

  /** The hash bcrypt stores for `password` under `salt`. */
  function Hash(salt: string, password: string): (h: string)
    requires |salt| == SaltLength
    ensures |h| == |Prefix| + SaltLength + |password|
    ensures h[..|Prefix|] == Prefix && h[|Prefix|..|Prefix| + SaltLength] == salt
  {
    Prefix + salt + password
  }

  /**
   * `bcrypt.CompareHashAndPassword(hashed, password) == nil`: the stored hash must be
   * well formed (long enough, with the expected prefix) and hashing the candidate under
   * the stored salt must reproduce it.
   */
  predicate Compare(hashed: string, password: string)
    ensures Compare(hashed, password) <==>
      && |hashed| >= |Prefix| + SaltLength
      && hashed[..|Prefix|] == Prefix
      && hashed[|Prefix| + SaltLength..] == password
  {
    && |hashed| >= |Prefix| + SaltLength
    && hashed[..|Prefix|] == Prefix
    && hashed == Hash(hashed[|Prefix|..|Prefix| + SaltLength], password)
  }

  /** A hash verifies its own password and no other one. */
  lemma CompareHashIff(salt: string, password: string, candidate: string)
    requires |salt| == SaltLength
    ensures Compare(Hash(salt, password), candidate) <==> candidate == password
  {
    var h := Hash(salt, password);
    if Compare(h, candidate) {
      assert Hash(salt, candidate) == h;
      assert candidate == h[|Prefix| + SaltLength..];
      assert password == h[|Prefix| + SaltLength..];
    }
  }

  /** A malformed stored value (too short, or without the prefix) verifies nothing. */
  lemma MalformedHashRejects(hashed: string, password: string)
    requires |hashed| < |Prefix| + SaltLength || hashed[..|Prefix|] != Prefix
    ensures !Compare(hashed, password)
  {
  }

  /** The stored value is never the plaintext. */
  lemma HashIsNotPlaintext(salt: string, password: string)
    requires |salt| == SaltLength
    ensures Hash(salt, password) != password
  {
  }
}

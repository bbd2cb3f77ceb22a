/**
 * Salted password hashing (werkzeug's `generate_password_hash` /
 * `check_password_hash` in the Flask backend, bcrypt in the Express backend),
 * idealised: a hash records its random salt and is accepted by the check for
 * exactly the password it was made from. The salt is an input because the
 * libraries draw it at random.
 */
module Password {

  datatype PasswordHash = PasswordHash(salt: nat, secret: string)

  function Hash(password: string, salt: nat): PasswordHash {
    PasswordHash(salt, password)
  }

  predicate Check(h: PasswordHash, password: string) {
    h.secret == password
  }

  /** A fresh hash accepts its own password and nothing else, whatever the salt. */
  lemma CheckHash(password: string, attempt: string, salt: nat)
    ensures Check(Hash(password, salt), attempt) <==> attempt == password
  {
  }
}

/**
 * `models/user.model.ts`: the user document, its save hook that hashes a
 * modified password, password comparison and the password-free view. bcrypt
 * is a parameter `hash`: nothing here depends on which one-way function it is.
 */
module UserModel {
  import opened Wrappers

  /** bcrypt's `hashValue`, left uninterpreted. */
  type Hasher = string -> string

  /** A stored user; `password` holds the stored hash once the document is saved. */
  datatype User = User(id: ObjectId, email: string, password: string, verified: bool, createdAt: int, updatedAt: int)

  /** `Pick<UserDocument, PublicUserKeys>`: every field but `password`. */
  datatype PublicUser = PublicUser(id: ObjectId, email: string, verified: bool, createdAt: int, updatedAt: int)

  /**
   * The `pre("save")` hook: when `password` was assigned since the last save
   * it is replaced by its hash; otherwise the document is saved as it is.
   */
  function PreSave(doc: User, passwordModified: bool, hash: Hasher): (saved: User)
    ensures saved.(password := doc.password) == doc
    ensures saved.password == if passwordModified then hash(doc.password) else doc.password
  {
    if !passwordModified then doc else doc.(password := hash(doc.password))
  }

  /**
   * `UserModel.create({email, password})` at instant `now`: `verified` takes
   * its default `false`, and the new password counts as modified, so the
   * hook stores its hash.
   */
  function NewUser(id: ObjectId, email: string, plain: string, now: int, hash: Hasher): (u: User)
    ensures u.id == id && u.email == email && u.password == hash(plain)
    ensures !u.verified
    ensures u.createdAt == now && u.updatedAt == now
  {
    PreSave(User(id, email, plain, false, now, now), true, hash)
  }

  /** `comparePassword(val)`: bcrypt's compare of the candidate against the stored hash. */
  function ComparePassword(u: User, candidate: string, hash: Hasher): bool {
    hash(candidate) == u.password
  }

  /** `omitPassword()`: the document with its `password` key deleted. */
  function OmitPassword(u: User): (p: PublicUser)
    ensures p.id == u.id && p.email == u.email && p.verified == u.verified
    ensures p.createdAt == u.createdAt && p.updatedAt == u.updatedAt
  {
    PublicUser(u.id, u.email, u.verified, u.createdAt, u.updatedAt)
  }

  /** The public view carries no trace of the password: users that differ only there look the same. */
  lemma OmitPasswordHidesPassword(u: User, other: string)
    ensures OmitPassword(u.(password := other)) == OmitPassword(u)
  {
  }

  /** A new user's password compares equal to the one it was created with. */
  lemma NewUserAcceptsItsPassword(id: ObjectId, email: string, plain: string, now: int, hash: Hasher)
    ensures ComparePassword(NewUser(id, email, plain, now, hash), plain, hash)
  {
  }

  /** Saving twice hashes once: the second save, with the password unmodified, keeps the stored hash. */
  lemma SaveUnmodifiedKeepsHash(doc: User, hash: Hasher)
    ensures PreSave(PreSave(doc, true, hash), false, hash).password == hash(doc.password)
  {
  }

  /** The unique index on `email`: no two users share an email. */
  ghost predicate EmailsUnique(users: map<ObjectId, User>) {
    forall a, b | a in users && b in users && users[a].email == users[b].email :: a == b
  }
}

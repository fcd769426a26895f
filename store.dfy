/**
 * The three collections the auth engine works on — users, sessions and
 * verification codes — and the queries the services run against them
 * (`exists`, `findOne`, `countDocuments`, `deleteMany`), as functions of a
 * table. `Db` holds the tables; the services update its fields in place.
 */
module Store {
  import opened Wrappers
  import opened UserModel

  /** `constants/verification`. */
  datatype VerificationType = EmailVerification | ForgotPassword

  /** A verification-code document. */
  datatype VerificationCode = VerificationCode(id: ObjectId, userId: ObjectId, kind: VerificationType, createdAt: int, expiresAt: int)

  /** A session document: one per authenticated device. */
  datatype Session = Session(id: ObjectId, userId: ObjectId, userAgent: Option<string>, createdAt: int, expiresAt: int)

  /** `UserModel.exists({email})`. */
  predicate EmailTaken(users: map<ObjectId, User>, email: string) {
    exists id | id in users :: users[id].email == email
  }

  /** `UserModel.findOne({email})`: with emails unique there is at most one candidate. */
  function FindUserByEmail(users: map<ObjectId, User>, email: string): (r: Option<ObjectId>)
    requires EmailsUnique(users)
    ensures r.Some? <==> EmailTaken(users, email)
    ensures r.Some? ==> r.value in users && users[r.value].email == email
  {
    if EmailTaken(users, email) then
      var id :| id in users && users[id].email == email; Some(id)
    else None
  }

  /** `VerificationCodeModel.findOne({_id, type, expiresAt: {$gt: now}})`. */
  function FindValidCode(codes: map<ObjectId, VerificationCode>, id: ObjectId, kind: VerificationType, now: int): (r: Option<VerificationCode>)
    ensures r.Some? <==> id in codes && codes[id].kind == kind && codes[id].expiresAt > now
    ensures r.Some? ==> r.value == codes[id]
  {
    if id in codes && codes[id].kind == kind && codes[id].expiresAt > now then Some(codes[id]) else None
  }

  /** The ids of the codes of `kind` issued to `userId` after `since`. */
  function RecentCodeIds(codes: map<ObjectId, VerificationCode>, userId: ObjectId, kind: VerificationType, since: int): set<ObjectId> {
    set id | id in codes && codes[id].userId == userId && codes[id].kind == kind && codes[id].createdAt > since
  }

  /** `countDocuments({userId, type, createdAt: {$gt: since}})`. */
  function CountRecentCodes(codes: map<ObjectId, VerificationCode>, userId: ObjectId, kind: VerificationType, since: int): (n: nat)
    ensures n <= |codes|
  {
    var ids := RecentCodeIds(codes, userId, kind, since);
    assert ids <= codes.Keys;
    SubsetCard(ids, codes.Keys);
    |ids|
  }

  lemma SubsetCard<T>(a: set<T>, b: set<T>)
    requires a <= b
    ensures |a| <= |b|
  {
    if a != {} {
      var x :| x in a;
      SubsetCard(a - {x}, b - {x});
    }
  }

  /** Issuing one more matching code raises the count by exactly one. */
  lemma CountAfterInsert(codes: map<ObjectId, VerificationCode>, c: VerificationCode, userId: ObjectId, kind: VerificationType, since: int)
    requires c.id !in codes
    ensures CountRecentCodes(codes[c.id := c], userId, kind, since) ==
      CountRecentCodes(codes, userId, kind, since) + (if c.userId == userId && c.kind == kind && c.createdAt > since then 1 else 0)
  {
    var before := RecentCodeIds(codes, userId, kind, since);
    var after := RecentCodeIds(codes[c.id := c], userId, kind, since);
    if c.userId == userId && c.kind == kind && c.createdAt > since {
      assert after == before + {c.id};
    } else {
      assert after == before;
    }
  }

  /** `VerificationCodeModel.deleteMany({userId, type})`. */
  function DeleteCodes(codes: map<ObjectId, VerificationCode>, userId: ObjectId, kind: VerificationType): (r: map<ObjectId, VerificationCode>)
    ensures forall id | id in codes :: id in r <==> !(codes[id].userId == userId && codes[id].kind == kind)
    ensures forall id | id in r :: id in codes && r[id] == codes[id]
  {
    map id | id in codes && !(codes[id].userId == userId && codes[id].kind == kind) :: codes[id]
  }

  /** `SessionModel.deleteMany({userId})`. */
  function DeleteSessionsOf(sessions: map<ObjectId, Session>, userId: ObjectId): (r: map<ObjectId, Session>)
    ensures forall id | id in sessions :: id in r <==> sessions[id].userId != userId
    ensures forall id | id in r :: id in sessions && r[id] == sessions[id]
  {
    map id | id in sessions && sessions[id].userId != userId :: sessions[id]
  }

  /** `findByIdAndDelete(id)` / `deleteOne()`: removes that key, a no-op when it is absent. */
  function Remove<V>(m: map<ObjectId, V>, key: ObjectId): (r: map<ObjectId, V>)
    ensures r.Keys == m.Keys - {key}
    ensures forall id | id in r :: r[id] == m[id]
  {
    m - {key}
  }

  /** The three collections. Object ids are allocated from one counter, so they are fresh across all of them. */
  class Db {
    var users: map<ObjectId, User>
    var sessions: map<ObjectId, Session>
    var codes: map<ObjectId, VerificationCode>
    var nextId: ObjectId

    /** Every document is stored under its own id, every id was allocated, and emails are unique. */
    ghost predicate Valid()
      reads this
    {
      && (forall id | id in users :: id < nextId && users[id].id == id)
      && (forall id | id in sessions :: id < nextId && sessions[id].id == id)
      && (forall id | id in codes :: id < nextId && codes[id].id == id)
      && EmailsUnique(users)
    }

    constructor ()
      ensures Valid()
      ensures users == map[] && sessions == map[] && codes == map[] && nextId == 0
    {
      users, sessions, codes, nextId := map[], map[], map[], 0;
    }

    /** A fresh `_id`, unused in every collection. */
    method NewId() returns (id: ObjectId)
      requires Valid()
      modifies this`nextId
      ensures Valid()
      ensures id == old(nextId) && nextId == id + 1
      ensures id !in users && id !in sessions && id !in codes
    {
      id := nextId;
      nextId := nextId + 1;
    }
  }
}

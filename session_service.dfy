/**
 * `services/session.service.ts`: listing a user's live sessions (a pure
 * filter, projection, sort and map over a snapshot of the session
 * collection) and the ownership-checked revoke of one session.
 */
module SessionService {
  import opened Wrappers
  import opened HttpStatus
  import opened AppAssert
  import opened Store

  /** One listed session: only `_id`, `userAgent` and `createdAt`, plus the `isCurrent` marker (`false` = absent). */
  datatype SessionView = SessionView(id: ObjectId, userAgent: Option<string>, createdAt: int, isCurrent: bool)

  /** The query filter `{userId, expiresAt: {$gt: now}}`. */
  predicate Listed(s: Session, userId: ObjectId, now: int) {
    s.userId == userId && s.expiresAt > now
  }

  /** The projection `{_id: 1, userAgent: 1, createdAt: 1}`, before `isCurrent` is added. */
  function Project(s: Session): (v: SessionView)
    ensures v.id == s.id && v.userAgent == s.userAgent && v.createdAt == s.createdAt && !v.isCurrent
  {
    SessionView(s.id, s.userAgent, s.createdAt, false)
  }

  /** What the listing shows of a session `s` when the caller's own session is `sessionId`. */
  function ViewOf(s: Session, sessionId: ObjectId): SessionView {
    Project(s).(isCurrent := s.id == sessionId)
  }

  /** No two documents share an `_id`. */
  predicate DistinctDocs(snapshot: seq<Session>) {
    forall i, j | 0 <= i < j < |snapshot| :: snapshot[i].id != snapshot[j].id
  }

  /** No two entries share an id. */
  predicate DistinctIds(xs: seq<SessionView>) {
    forall i, j | 0 <= i < j < |xs| :: xs[i].id != xs[j].id
  }

  /** The documents matching the filter, projected, in collection order. */
  function FindListed(snapshot: seq<Session>, userId: ObjectId, now: int): (r: seq<SessionView>)
    ensures forall v | v in r :: exists s | s in snapshot :: Listed(s, userId, now) && v == Project(s)
    ensures forall s | s in snapshot && Listed(s, userId, now) :: Project(s) in r
    ensures DistinctDocs(snapshot) ==> DistinctIds(r)
  {
    if snapshot == [] then []
    else
      var rest := FindListed(snapshot[1..], userId, now);
      assert forall s | s in snapshot[1..] :: s in snapshot;
      assert DistinctDocs(snapshot) ==> DistinctDocs(snapshot[1..]) && forall v | v in rest :: v.id != snapshot[0].id by {
        if DistinctDocs(snapshot) {
          forall v | v in rest ensures v.id != snapshot[0].id {
            var s :| s in snapshot[1..] && Listed(s, userId, now) && v == Project(s);
            var k :| 0 <= k < |snapshot[1..]| && snapshot[1..][k] == s;
            assert snapshot[k + 1] == s;
          }
        }
      }
      if Listed(snapshot[0], userId, now) then [Project(snapshot[0])] + rest else rest
  }

  /** Newest first: `sort: {createdAt: -1}`. */
  ghost predicate NewestFirst(xs: seq<SessionView>) {
    forall i, j | 0 <= i < j < |xs| :: xs[i].createdAt >= xs[j].createdAt
  }

  /** Places `v` into a newest-first sequence. */
  function InsertNewestFirst(v: SessionView, xs: seq<SessionView>): (r: seq<SessionView>)
    requires NewestFirst(xs)
    ensures NewestFirst(r)
    ensures multiset(r) == multiset(xs) + multiset{v}
    ensures |r| == |xs| + 1 && (r[0] == v || (xs != [] && r[0] == xs[0]))
  {
    if xs == [] || v.createdAt >= xs[0].createdAt then [v] + xs
    else
      var rest := InsertNewestFirst(v, xs[1..]);
      assert xs == [xs[0]] + xs[1..];
      [xs[0]] + rest
  }

  /** The sort of the query: a newest-first permutation of its input. */
  function SortNewestFirst(xs: seq<SessionView>): (r: seq<SessionView>)
    ensures NewestFirst(r)
    ensures multiset(r) == multiset(xs)
  {
    if xs == [] then []
    else
      assert xs == [xs[0]] + xs[1..];
      InsertNewestFirst(xs[0], SortNewestFirst(xs[1..]))
  }

  /** Putting an entry with a new id in front keeps the ids distinct. */
  lemma ConsDistinct(x: SessionView, rest: seq<SessionView>)
    requires DistinctIds(rest) && forall y | y in rest :: y.id != x.id
    ensures DistinctIds([x] + rest)
  {
    forall i, j | 0 <= i < j < |[x] + rest| ensures ([x] + rest)[i].id != ([x] + rest)[j].id {
      if i == 0 {
        assert ([x] + rest)[j] == rest[j - 1];
      } else {
        assert ([x] + rest)[i] == rest[i - 1] && ([x] + rest)[j] == rest[j - 1];
      }
    }
  }

  /** Inserting an entry whose id is new keeps the ids distinct. */
  lemma {:induction false} InsertKeepsDistinct(v: SessionView, xs: seq<SessionView>)
    requires NewestFirst(xs) && DistinctIds(xs) && forall x | x in xs :: x.id != v.id
    ensures DistinctIds(InsertNewestFirst(v, xs))
  {
    if xs == [] || v.createdAt >= xs[0].createdAt {
      ConsDistinct(v, xs);
    } else {
      var tail := xs[1..];
      assert forall x | x in tail :: x in xs;
      assert DistinctIds(tail) by {
        forall i, j | 0 <= i < j < |tail| ensures tail[i].id != tail[j].id {
          assert tail[i] == xs[i + 1] && tail[j] == xs[j + 1];
        }
      }
      var rest := InsertNewestFirst(v, tail);
      InsertKeepsDistinct(v, tail);
      forall x | x in rest ensures x.id != xs[0].id {
        assert x in multiset(rest);
        if x != v {
          var k :| 0 <= k < |tail| && tail[k] == x;
          assert xs[k + 1] == x;
        }
      }
      ConsDistinct(xs[0], rest);
      assert InsertNewestFirst(v, xs) == [xs[0]] + rest;
    }
  }

  /** Sorting keeps the ids distinct. */
  lemma {:induction false} SortKeepsDistinct(xs: seq<SessionView>)
    ensures DistinctIds(xs) ==> DistinctIds(SortNewestFirst(xs))
  {
    if xs != [] && DistinctIds(xs) {
      var tail := xs[1..];
      assert DistinctIds(tail) by {
        forall i, j | 0 <= i < j < |tail| ensures tail[i].id != tail[j].id {
          assert tail[i] == xs[i + 1] && tail[j] == xs[j + 1];
        }
      }
      SortKeepsDistinct(tail);
      var rest := SortNewestFirst(tail);
      forall x | x in rest ensures x.id != xs[0].id {
        assert x in multiset(rest);
        var k :| 0 <= k < |tail| && tail[k] == x;
        assert xs[k + 1] == x;
      }
      InsertKeepsDistinct(xs[0], rest);
    }
  }

  /**
   * The final `map`: `isCurrent: true` on the entry of the caller's own
   * session only. Over distinct ids at most one entry is current, and one
   * is exactly when the caller's session is among them.
   */
  function MarkCurrent(xs: seq<SessionView>, sessionId: ObjectId): (r: seq<SessionView>)
    ensures |r| == |xs|
    ensures forall i | 0 <= i < |xs| :: r[i] == xs[i].(isCurrent := xs[i].id == sessionId)
    ensures (exists i | 0 <= i < |r| :: r[i].isCurrent) <==> exists i | 0 <= i < |xs| :: xs[i].id == sessionId
    ensures DistinctIds(xs) ==> DistinctIds(r) && forall i, j | 0 <= i < j < |r| && r[i].isCurrent :: !r[j].isCurrent
  {
    seq(|xs|, i requires 0 <= i < |xs| => xs[i].(isCurrent := xs[i].id == sessionId))
  }

  /**
   * `getUserSessions(userId, sessionId)` over the collection's documents:
   * exactly the caller's unexpired sessions, each as id, user agent and
   * creation time, newest first, with `isCurrent` on the caller's own entry.
   */
  function GetUserSessions(snapshot: seq<Session>, userId: ObjectId, sessionId: ObjectId, now: int): (r: seq<SessionView>)
    ensures forall v | v in r :: exists s | s in snapshot :: Listed(s, userId, now) && v == ViewOf(s, sessionId)
    ensures forall s | s in snapshot && Listed(s, userId, now) :: ViewOf(s, sessionId) in r
    ensures forall i, j | 0 <= i < j < |r| :: r[i].createdAt >= r[j].createdAt
    ensures forall i | 0 <= i < |r| :: r[i].isCurrent <==> r[i].id == sessionId
    ensures |r| == |FindListed(snapshot, userId, now)|
    ensures DistinctDocs(snapshot) ==> DistinctIds(r)
  {
    var found := FindListed(snapshot, userId, now);
    var sorted := SortNewestFirst(found);
    SortKeepsDistinct(found);
    MarkedListing(snapshot, userId, sessionId, now, sorted);
    MarkCurrent(sorted, sessionId)
  }

  /** Marking a permutation of the filtered projection shows exactly the views of the listed sessions. */
  lemma MarkedListing(snapshot: seq<Session>, userId: ObjectId, sessionId: ObjectId, now: int, sorted: seq<SessionView>)
    requires multiset(sorted) == multiset(FindListed(snapshot, userId, now))
    ensures |sorted| == |FindListed(snapshot, userId, now)|
    ensures forall v | v in MarkCurrent(sorted, sessionId) :: exists s | s in snapshot :: Listed(s, userId, now) && v == ViewOf(s, sessionId)
    ensures forall s | s in snapshot && Listed(s, userId, now) :: ViewOf(s, sessionId) in MarkCurrent(sorted, sessionId)
  {
    var found := FindListed(snapshot, userId, now);
    var r := MarkCurrent(sorted, sessionId);
    assert |multiset(sorted)| == |multiset(found)|;
    forall v | v in r ensures exists s | s in snapshot :: Listed(s, userId, now) && v == ViewOf(s, sessionId) {
      var i :| 0 <= i < |r| && r[i] == v;
      assert sorted[i] in multiset(found);
      assert sorted[i] in found;
      var s :| s in snapshot && Listed(s, userId, now) && sorted[i] == Project(s);
      assert v == ViewOf(s, sessionId);
    }
    forall s | s in snapshot && Listed(s, userId, now) ensures ViewOf(s, sessionId) in r {
      assert Project(s) in multiset(sorted);
      var i :| 0 <= i < |sorted| && sorted[i] == Project(s);
      assert r[i] == ViewOf(s, sessionId);
    }
  }

  /** `snapshot` lists the documents of the session collection, once each. */
  ghost predicate SnapshotOf(snapshot: seq<Session>, sessions: map<ObjectId, Session>) {
    && (forall s | s in snapshot :: s.id in sessions && sessions[s.id] == s)
    && (forall id | id in sessions :: sessions[id] in snapshot)
    && DistinctDocs(snapshot)
  }

  /** Read against the store: an entry is listed exactly when it shows an unexpired session of the caller. */
  lemma ListingMatchesStore(snapshot: seq<Session>, sessions: map<ObjectId, Session>, userId: ObjectId, sessionId: ObjectId, now: int, v: SessionView)
    requires SnapshotOf(snapshot, sessions)
    ensures v in GetUserSessions(snapshot, userId, sessionId, now) <==>
      exists id | id in sessions :: Listed(sessions[id], userId, now) && v == ViewOf(sessions[id], sessionId)
  {
    if v in GetUserSessions(snapshot, userId, sessionId, now) {
      var s :| s in snapshot && Listed(s, userId, now) && v == ViewOf(s, sessionId);
      assert s.id in sessions && sessions[s.id] == s;
    }
  }

  /**
   * `deleteUserSession(sessionId, userId)`: deletes that one session when it
   * exists and belongs to the caller, whatever its expiry; otherwise fails
   * NotFound and changes nothing.
   */
  method DeleteUserSession(db: Db, sessionId: ObjectId, userId: ObjectId) returns (r: Outcome)
    requires db.Valid()
    modifies db
    ensures db.Valid()
    ensures db.users == old(db.users) && db.codes == old(db.codes) && db.nextId == old(db.nextId)
    ensures
      if sessionId in old(db.sessions) && old(db.sessions)[sessionId].userId == userId then
        r == Pass && db.sessions == Remove(old(db.sessions), sessionId)
      else
        r == Fail(CustomError(NOT_FOUND, "Session not found.", None)) && db.sessions == old(db.sessions)
  {
    var deleted := if sessionId in db.sessions && db.sessions[sessionId].userId == userId then Some(db.sessions[sessionId]) else None;
    if deleted.Some? {
      db.sessions := Remove(db.sessions, sessionId);
    }
    r := Assert(deleted.Some?, NOT_FOUND, "Session not found.", None);
  }
}

/**
 * The client's list reconciliation keeps the shown list equal to the server's
 * answer to `GET /api/reviews`: if the list equals a user's reviews before a
 * create, update or delete, then applying the client's step to it gives the
 * user's reviews afterwards.
 */
module Reconciliation {
  import opened ReviewModel
  import opened ReviewLists
  import opened ReviewController

  lemma {:induction false} OwnedByNoId(s: seq<Review>, user: UserId, id: ReviewId)
    requires NoId(s, id)
    ensures NoId(OwnedBy(s, user), id)
  {
    var r := OwnedBy(s, user);
    OwnedByMembers(s, user);
    forall i | 0 <= i < |r| ensures r[i].id != id {
      assert r[i] in r;
      var j :| 0 <= j < |s| && s[j] == r[i];
    }
  }

  lemma TailHasNoId(s: seq<Review>)
    requires UniqueIds(s) && s != []
    ensures NoId(s[1..], s[0].id)
    ensures UniqueIds(s[1..])
  {
  }

  /** The server's in-place replacement of record `k` shows up as the client's replace-by-id. */
  lemma {:induction false} OwnedByReplace(s: seq<Review>, k: nat, m: Review, user: UserId)
    requires UniqueIds(s) && k < |s|
    requires m.id == s[k].id && m.userId == s[k].userId
    ensures OwnedBy(s[k := m], user) == ReplaceById(OwnedBy(s, user), m)
  {
    TailHasNoId(s);
    if k == 0 {
      assert s[k := m] == [m] + s[1..];
      assert (s[k := m])[1..] == s[1..];
      OwnedByNoId(s[1..], user, m.id);
      ReplaceByIdAbsent(OwnedBy(s[1..], user), m);
    } else {
      assert s[k := m][1..] == s[1..][k - 1 := m];
      assert s[k := m][0] == s[0];
      OwnedByReplace(s[1..], k - 1, m, user);
    }
  }

  lemma NoIdAround(s: seq<Review>, k: nat)
    requires UniqueIds(s) && k < |s|
    ensures NoId(s[..k], s[k].id) && NoId(s[k + 1..], s[k].id)
  {
  }

  lemma {:induction false} OwnedByAround(s: seq<Review>, k: nat, user: UserId)
    requires k < |s|
    ensures OwnedBy(s, user) ==
      OwnedBy(s[..k], user) + (if s[k].userId == user then [s[k]] else []) + OwnedBy(s[k + 1..], user)
  {
    var pre, post := s[..k], s[k + 1..];
    assert s == pre + [s[k]] + post;
    OwnedByAppend(pre + [s[k]], post, user);
    OwnedByAppend(pre, [s[k]], user);
    assert [s[k]][1..] == [];
  }

  lemma {:induction false} RemoveByIdAround(a: seq<Review>, m: seq<Review>, b: seq<Review>, id: ReviewId)
    requires NoId(a, id) && NoId(b, id)
    requires RemoveById(m, id) == []
    ensures RemoveById(a + m + b, id) == a + b
  {
    RemoveByIdAppend(a + m, b, id);
    RemoveByIdAppend(a, m, id);
    RemoveByIdAbsent(a, id);
    RemoveByIdAbsent(b, id);
  }

  /** The server's removal of record `k` shows up as the client's remove-by-id. */
  lemma {:induction false} OwnedByRemoveAt(s: seq<Review>, k: nat, user: UserId)
    requires UniqueIds(s) && k < |s|
    ensures OwnedBy(s[..k] + s[k + 1..], user) == RemoveById(OwnedBy(s, user), s[k].id)
  {
    var id := s[k].id;
    var m: seq<Review> := if s[k].userId == user then [s[k]] else [];
    NoIdAround(s, k);
    OwnedByNoId(s[..k], user, id);
    OwnedByNoId(s[k + 1..], user, id);
    OwnedByAround(s, k, user);
    assert RemoveById(m, id) == [];
    RemoveByIdAround(OwnedBy(s[..k], user), m, OwnedBy(s[k + 1..], user), id);
    OwnedByAppend(s[..k], s[k + 1..], user);
  }

  /** After a 201, appending the returned record to the creator's list gives their new list. */
  lemma CreateMirrors(db: Db, req: Request, now: nat, create: Fault)
    requires AddOutcome(db, req, now, create).response.status == 201
    ensures
      var o := AddOutcome(db, req, now, create);
      OwnedBy(db.reviews, req.user) + [o.response.payload.review] == OwnedBy(o.db.reviews, req.user)
  {
    var o := AddOutcome(db, req, now, create);
    var r := o.response.payload.review;
    OwnedByAppend(db.reviews, [r], req.user);
    assert [r][1..] == [];
  }

  /** After a 200 update, replacing by id in any user's list gives that user's new list. */
  lemma UpdateMirrors(db: Db, req: Request, viewer: UserId, find: Fault, save: Fault)
    requires StoreValid(db)
    requires UpdateOutcome(db, req, find, save).response.status == 200
    ensures
      var o := UpdateOutcome(db, req, find, save);
      ReplaceById(OwnedBy(db.reviews, viewer), o.response.payload.review) == OwnedBy(o.db.reviews, viewer)
  {
    var k := IndexOf(db.reviews, req.id).value;
    OwnedByReplace(db.reviews, k, Merge(db.reviews[k], req.body), viewer);
  }

  /** After a 200 delete, removing by id from any user's list gives that user's new list. */
  lemma DeleteMirrors(db: Db, req: Request, viewer: UserId, find: Fault, remove: Fault)
    requires StoreValid(db)
    requires DeleteOutcome(db, req, find, remove).response.status == 200
    ensures
      var o := DeleteOutcome(db, req, find, remove);
      RemoveById(OwnedBy(db.reviews, viewer), req.id) == OwnedBy(o.db.reviews, viewer)
  {
    var k := IndexOf(db.reviews, req.id).value;
    OwnedByRemoveAt(db.reviews, k, viewer);
  }
}

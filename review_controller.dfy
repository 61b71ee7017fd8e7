/**
 * The review controller: the four request handlers behind the authenticated
 * `/api/reviews` routes, over a store of reviews. Each handler is specified
 * by a function from the store's state and the request to the response and
 * the new state; `ReviewStore` runs them on mutable fields. A database call
 * that throws is an explicit `Fault` input.
 */
module ReviewController {
  import opened ReviewModel
  import opened ReviewLists

  /** The result of one database call: it completes, or throws with a message. */
  datatype Fault = Succeeds | Throws(message: string)

  /** `req`: the authenticated caller (`req.user.id`), the `:id` route parameter, the body. */
  datatype Request = Request(user: UserId, id: ReviewId, body: Draft)

  datatype Payload = Record(review: Review) | Records(reviews: seq<Review>) | Message(text: string)

  datatype Response = Response(status: nat, payload: Payload)

  /** The stored reviews in insertion order, and the next fresh identifier. */
  datatype Db = Db(reviews: seq<Review>, nextId: nat)

  /** What a handler answers and the store it leaves behind. */
  datatype Step = Step(response: Response, db: Db)

  const NotFoundMessage: string := "Review not found"
  const DeletedMessage: string := "Review deleted"

  predicate UniqueIds(s: seq<Review>)
  {
    forall i, j :: 0 <= i < j < |s| ==> s[i].id != s[j].id
  }

  /** Every stored review is valid and has a distinct identifier below `nextId`. */
  predicate StoreValid(db: Db)
  {
    && (forall i :: 0 <= i < |db.reviews| ==> Valid(db.reviews[i]) && db.reviews[i].id < db.nextId)
    && UniqueIds(db.reviews)
  }

  /** `Review.find({ userId: user })`: the user's reviews in store order. */
  function OwnedBy(s: seq<Review>, user: UserId): (r: seq<Review>)
    ensures |r| <= |s|
  {
    if s == [] then []
    else if s[0].userId == user then [s[0]] + OwnedBy(s[1..], user)
    else OwnedBy(s[1..], user)
  }

  /** Exactly the user's reviews are returned. */
  lemma {:induction false} OwnedByMembers(s: seq<Review>, user: UserId)
    ensures forall x :: x in OwnedBy(s, user) <==> x in s && x.userId == user
  {
    if s != [] {
      OwnedByMembers(s[1..], user);
      assert s == [s[0]] + s[1..];
    }
  }

  /** The query keeps store order: it distributes over concatenation. */
  lemma {:induction false} OwnedByAppend(a: seq<Review>, b: seq<Review>, user: UserId)
    ensures OwnedBy(a + b, user) == OwnedBy(a, user) + OwnedBy(b, user)
  {
    if a == [] {
      assert a + b == b;
    } else {
      assert (a + b)[1..] == a[1..] + b;
      OwnedByAppend(a[1..], b, user);
    }
  }

  /** `Review.findById(id)`: the position of the review with that identifier, if any. */
  function IndexOf(s: seq<Review>, id: ReviewId): (k: Option<nat>)
    ensures k.Some? ==> k.value < |s| && s[k.value].id == id
    ensures k.None? <==> NoId(s, id)
  {
    if s == [] then None
    else if s[0].id == id then Some(0)
    else match IndexOf(s[1..], id)
      case None => None
      case Some(j) => Some(j + 1)
  }

  lemma IndexOfUnique(s: seq<Review>, id: ReviewId, k: nat)
    requires UniqueIds(s) && k < |s| && s[k].id == id
    ensures IndexOf(s, id) == Some(k)
  {
  }

  function Failure(message: string): Response
  {
    Response(500, Message(message))
  }

  /** addReview: create the caller's review from the body; 201 with the record. */
  function AddOutcome(db: Db, req: Request, now: nat, create: Fault): (o: Step)
    ensures o.response.status == 201 <==> Violations(req.body) == [] && create.Succeeds?
    ensures o.response.status == 201 ==>
      && o.response.payload.Record?
      && var r := o.response.payload.review;
      && r.userId == req.user && Fields(r) == req.body && r.createdAt == now
      && o.db.reviews == db.reviews + [r]
    ensures StoreValid(db) && o.response.status == 201 ==> NoId(db.reviews, o.response.payload.review.id)
    ensures o.response.status != 201 ==> o.response.status == 500 && o.db == db
    ensures Violations(req.body) != [] ==>
      o.response == Failure(ValidationMessage(Violations(req.body)))
    ensures Violations(req.body) == [] && create.Throws? ==>
      o.response == Failure(create.message)
  {
    match NewReview(db.nextId, req.user, req.body, now)
    case Rejected(v) => Step(Failure(ValidationMessage(v)), db)
    case Created(r) =>
      if create.Throws? then Step(Failure(create.message), db)
      else Step(Response(201, Record(r)), Db(db.reviews + [r], db.nextId + 1))
  }

  /** getReviews: the caller's reviews, in store order; none is still a success. */
  function ListOutcome(db: Db, req: Request, find: Fault): (r: Response)
    ensures find.Throws? ==> r == Failure(find.message)
    ensures find.Succeeds? ==>
      && r.status == 200 && r.payload.Records?
      && (forall x :: x in r.payload.reviews <==> x in db.reviews && x.userId == req.user)
    ensures find.Succeeds? ==> r == Response(200, Records(OwnedBy(db.reviews, req.user)))
  {
    OwnedByMembers(db.reviews, req.user);
    if find.Throws? then Failure(find.message)
    else Response(200, Records(OwnedBy(db.reviews, req.user)))
  }

  /**
   * updateReview: look the id up (404 if absent), merge the truthy body fields
   * into the record, and save it (the schema is checked again on save).
   */
  function UpdateOutcome(db: Db, req: Request, find: Fault, save: Fault): (o: Step)
    ensures find.Throws? ==> o == Step(Failure(find.message), db)
    ensures find.Succeeds? && NoId(db.reviews, req.id) ==>
      o == Step(Response(404, Message(NotFoundMessage)), db)
    ensures o.response.status != 200 ==> o.db == db
    ensures o.response.status == 200 <==>
      && find.Succeeds? && save.Succeeds? && !NoId(db.reviews, req.id)
      && Valid(Merge(db.reviews[IndexOf(db.reviews, req.id).value], req.body))
    ensures find.Succeeds? && !NoId(db.reviews, req.id) ==>
      var merged := Merge(db.reviews[IndexOf(db.reviews, req.id).value], req.body);
      && (!Valid(merged) ==> o.response == Failure(ValidationMessage(Violations(Fields(merged)))))
      && (Valid(merged) && save.Throws? ==> o.response == Failure(save.message))
    ensures o.response.status == 200 ==>
      var k := IndexOf(db.reviews, req.id).value;
      && o.response.payload == Record(Merge(db.reviews[k], req.body))
      && o.db == db.(reviews := db.reviews[k := Merge(db.reviews[k], req.body)])
  {
    if find.Throws? then Step(Failure(find.message), db)
    else match IndexOf(db.reviews, req.id)
      case None => Step(Response(404, Message(NotFoundMessage)), db)
      case Some(k) =>
        var merged := Merge(db.reviews[k], req.body);
        var v := Violations(Fields(merged));
        if v != [] then Step(Failure(ValidationMessage(v)), db)
        else if save.Throws? then Step(Failure(save.message), db)
        else Step(Response(200, Record(merged)), db.(reviews := db.reviews[k := merged]))
  }

  /** deleteReview: look the id up (404 if absent) and remove that record. */
  function DeleteOutcome(db: Db, req: Request, find: Fault, remove: Fault): (o: Step)
    ensures find.Throws? ==> o == Step(Failure(find.message), db)
    ensures find.Succeeds? && NoId(db.reviews, req.id) ==>
      o == Step(Response(404, Message(NotFoundMessage)), db)
    ensures find.Succeeds? && !NoId(db.reviews, req.id) && remove.Throws? ==>
      o == Step(Failure(remove.message), db)
    ensures o.response.status == 200 <==>
      find.Succeeds? && remove.Succeeds? && !NoId(db.reviews, req.id)
    ensures o.response.status != 200 ==> o.db == db
    ensures o.response.status == 200 ==>
      && o.response.payload == Message(DeletedMessage)
      && o.db.nextId == db.nextId
      && |o.db.reviews| == |db.reviews| - 1
      && (forall x :: x in db.reviews && x.id != req.id ==> x in o.db.reviews)
      && (forall x :: x in o.db.reviews ==> x in db.reviews)
    ensures StoreValid(db) && o.response.status == 200 ==> NoId(o.db.reviews, req.id)
  {
    if find.Throws? then Step(Failure(find.message), db)
    else match IndexOf(db.reviews, req.id)
      case None => Step(Response(404, Message(NotFoundMessage)), db)
      case Some(k) =>
        if remove.Throws? then Step(Failure(remove.message), db)
        else Step(Response(200, Message(DeletedMessage)),
                  db.(reviews := db.reviews[..k] + db.reviews[k + 1..]))
  }

  lemma AddPreservesValid(db: Db, req: Request, now: nat, create: Fault)
    requires StoreValid(db)
    ensures StoreValid(AddOutcome(db, req, now, create).db)
  {
  }

  lemma UpdatePreservesValid(db: Db, req: Request, find: Fault, save: Fault)
    requires StoreValid(db)
    ensures StoreValid(UpdateOutcome(db, req, find, save).db)
  {
  }

  lemma DeletePreservesValid(db: Db, req: Request, find: Fault, remove: Fault)
    requires StoreValid(db)
    ensures StoreValid(DeleteOutcome(db, req, find, remove).db)
  {
  }

  /** A fresh-or-gone identifier: below `nextId` and carried by no stored review. */
  predicate Retired(db: Db, id: ReviewId)
  {
    id < db.nextId && NoId(db.reviews, id)
  }

  /**
   * Deletion is permanent: once an identifier is retired, no handler brings it
   * back, so every later update or delete of it answers 404.
   */
  lemma RetiredStaysRetired(db: Db, id: ReviewId, req: Request, now: nat, f1: Fault, f2: Fault)
    requires StoreValid(db) && Retired(db, id)
    ensures Retired(AddOutcome(db, req, now, f1).db, id)
    ensures Retired(UpdateOutcome(db, req, f1, f2).db, id)
    ensures Retired(DeleteOutcome(db, req, f1, f2).db, id)
    ensures UpdateOutcome(db, req.(id := id), Succeeds, f2).response == Response(404, Message(NotFoundMessage))
    ensures DeleteOutcome(db, req.(id := id), Succeeds, f2).response == Response(404, Message(NotFoundMessage))
  {
  }

  /** A successful delete retires the identifier it removed. */
  lemma DeleteRetires(db: Db, req: Request, find: Fault, remove: Fault)
    requires StoreValid(db)
    requires DeleteOutcome(db, req, find, remove).response.status == 200
    ensures Retired(DeleteOutcome(db, req, find, remove).db, req.id)
  {
  }

  /** Sending the same update body again leaves the stored record as the first update left it. */
  lemma {:induction false} UpdateIdempotent(db: Db, req: Request, save: Fault)
    requires StoreValid(db)
    requires UpdateOutcome(db, req, Succeeds, Succeeds).response.status == 200
    ensures
      var first := UpdateOutcome(db, req, Succeeds, Succeeds);
      var again := UpdateOutcome(first.db, req, Succeeds, save);
      again.db == first.db && (save.Succeeds? ==> again.response == first.response)
  {
    var first := UpdateOutcome(db, req, Succeeds, Succeeds);
    var k := IndexOf(db.reviews, req.id).value;
    var merged := Merge(db.reviews[k], req.body);
    UpdatePreservesValid(db, req, Succeeds, Succeeds);
    IndexOfUnique(first.db.reviews, req.id, k);
    MergeIdempotent(db.reviews[k], req.body);
    assert first.db.reviews[k] == merged;
    assert first.db.reviews[k := merged] == first.db.reviews;
  }

  /** Neither update nor delete reads the caller's identity. */
  lemma UpdateDeleteIgnoreCaller(db: Db, req: Request, other: UserId, find: Fault, write: Fault)
    ensures UpdateOutcome(db, req, find, write) == UpdateOutcome(db, req.(user := other), find, write)
    ensures DeleteOutcome(db, req, find, write) == DeleteOutcome(db, req.(user := other), find, write)
  {
  }

  /** The store behind the handlers: its reviews in insertion order and the next fresh id. */
  class ReviewStore {
    var reviews: seq<Review>
    var nextId: nat

    function State(): Db
      reads this
    {
      Db(reviews, nextId)
    }

    predicate Valid()
      reads this
    {
      StoreValid(State())
    }

    constructor ()
      ensures Valid() && reviews == []
    {
      reviews := [];
      nextId := 0;
    }

    method AddReview(req: Request, now: nat, create: Fault) returns (response: Response)
      requires Valid()
      modifies this
      ensures Valid()
      ensures Step(response, State()) == AddOutcome(old(State()), req, now, create)
    {
      AddPreservesValid(State(), req, now, create);
      var created := NewReview(nextId, req.user, req.body, now);
      if created.Rejected? {
        response := Failure(ValidationMessage(created.violations));
      } else if create.Throws? {
        response := Failure(create.message);
      } else {
        reviews := reviews + [created.review];
        nextId := nextId + 1;
        response := Response(201, Record(created.review));
      }
    }

    method GetReviews(req: Request, find: Fault) returns (response: Response)
      ensures response == ListOutcome(State(), req, find)
    {
      if find.Throws? {
        response := Failure(find.message);
      } else {
        response := Response(200, Records(OwnedBy(reviews, req.user)));
      }
    }

    method UpdateReview(req: Request, find: Fault, save: Fault) returns (response: Response)
      requires Valid()
      modifies this
      ensures Valid()
      ensures Step(response, State()) == UpdateOutcome(old(State()), req, find, save)
    {
      UpdatePreservesValid(State(), req, find, save);
      if find.Throws? {
        return Failure(find.message);
      }
      var found := IndexOf(reviews, req.id);
      if found.None? {
        return Response(404, Message(NotFoundMessage));
      }
      var review := reviews[found.value];
      review := review.(productName := OrText(req.body.productName, review.productName));
      review := review.(reviewContent := OrText(req.body.reviewContent, review.reviewContent));
      review := review.(rating := OrNumber(req.body.rating, review.rating));
      var problems := Violations(Fields(review));
      if problems != [] {
        response := Failure(ValidationMessage(problems));
      } else if save.Throws? {
        response := Failure(save.message);
      } else {
        reviews := reviews[found.value := review];
        response := Response(200, Record(review));
      }
    }

    method DeleteReview(req: Request, find: Fault, remove: Fault) returns (response: Response)
      requires Valid()
      modifies this
      ensures Valid()
      ensures Step(response, State()) == DeleteOutcome(old(State()), req, find, remove)
    {
      DeletePreservesValid(State(), req, find, remove);
      if find.Throws? {
        return Failure(find.message);
      }
      var found := IndexOf(reviews, req.id);
      if found.None? {
        return Response(404, Message(NotFoundMessage));
      }
      if remove.Throws? {
        response := Failure(remove.message);
      } else {
        reviews := reviews[..found.value] + reviews[found.value + 1..];
        response := Response(200, Message(DeletedMessage));
      }
    }
  }
}

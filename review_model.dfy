/**
 * The Review record of the review app: the fields a stored review carries,
 * the schema constraints a create or a save must pass (every data field
 * required, rating between 1 and 5), the default creation time, and the
 * field merge a partial update applies to a stored record.
 */
module ReviewModel {

  type UserId = nat
  type ReviewId = nat

  datatype Option<T> = None | Some(value: T)

  /** A request or form field: missing altogether, or present with a value. */
  datatype Input<T> = Absent | Present(value: T)

  /** A stored review. `id` is the database identifier, `createdAt` an opaque clock reading. */
  datatype Review = Review(
    id: ReviewId,
    userId: UserId,
    productName: string,
    reviewContent: string,
    rating: real,
    createdAt: nat)

  /** The three fields a client supplies, as a request body or as the form's state. */
  datatype Draft = Draft(productName: Input<string>, reviewContent: Input<string>, rating: Input<real>)

  const MinRating: real := 1.0
  const MaxRating: real := 5.0

  /** A broken schema constraint, named by the path it concerns. */
  datatype Violation = Required(path: string) | BelowMin(path: string) | AboveMax(path: string)

  /** The schema invariant every stored review satisfies. */
  predicate Valid(r: Review)
  {
    r.productName != "" && r.reviewContent != "" && MinRating <= r.rating <= MaxRating
  }

  /** JavaScript truthiness of a text field: absent and "" are falsy. */
  predicate TruthyText(x: Input<string>)
  {
    x.Present? && x.value != ""
  }

  /**
   * A required String path is satisfied by a present, non-empty string:
   * Mongoose's `required` check on strings rejects exactly the falsy ones.
   */
  predicate Filled(x: Input<string>)
  {
    TruthyText(x)
  }

  /** JavaScript truthiness of a numeric field: absent and 0 are falsy. */
  predicate TruthyNumber(x: Input<real>)
  {
    x.Present? && x.value != 0.0
  }

  function TextViolations(path: string, x: Input<string>): seq<Violation>
  {
    if Filled(x) then [] else [Required(path)]
  }

  function RatingViolations(x: Input<real>): seq<Violation>
  {
    match x
    case Absent => [Required("rating")]
    case Present(v) =>
      if v < MinRating then [BelowMin("rating")]
      else if v > MaxRating then [AboveMax("rating")]
      else []
  }

  /** The constraints a candidate document breaks, in schema path order. */
  function Violations(d: Draft): (v: seq<Violation>)
    ensures Required("productName") in v <==> !Filled(d.productName)
    ensures Required("reviewContent") in v <==> !Filled(d.reviewContent)
    ensures Required("rating") in v <==> d.rating.Absent?
    ensures BelowMin("rating") in v <==> d.rating.Present? && d.rating.value < MinRating
    ensures AboveMax("rating") in v <==> d.rating.Present? && d.rating.value > MaxRating
    ensures v == [] <==>
      Filled(d.productName) && Filled(d.reviewContent) &&
      d.rating.Present? && MinRating <= d.rating.value <= MaxRating
  {
    TextViolations("productName", d.productName)
    + TextViolations("reviewContent", d.reviewContent)
    + RatingViolations(d.rating)
  }

  function ViolationText(v: Violation): string
  {
    match v
    case Required(p) => p + ": Path `" + p + "` is required."
    case BelowMin(p) => p + ": Path `" + p + "` is less than minimum allowed value (1)."
    case AboveMax(p) => p + ": Path `" + p + "` is more than maximum allowed value (5)."
  }

  function JoinTexts(vs: seq<Violation>): string
  {
    if vs == [] then ""
    else if |vs| == 1 then ViolationText(vs[0])
    else ViolationText(vs[0]) + ", " + JoinTexts(vs[1..])
  }

  /** The message a rejected create or save carries. */
  function ValidationMessage(vs: seq<Violation>): string
  {
    "Review validation failed: " + JoinTexts(vs)
  }

  /** The candidate document a stored review amounts to when it is saved again. */
  function Fields(r: Review): Draft
  {
    Draft(Present(r.productName), Present(r.reviewContent), Present(r.rating))
  }

  lemma FieldsPassIffValid(r: Review)
    ensures Violations(Fields(r)) == [] <==> Valid(r)
  {
  }

  datatype Creation = Created(review: Review) | Rejected(violations: seq<Violation>)

  /**
   * Building a new document: the owner, the three supplied fields and the
   * creation time (the schema default, since the request never supplies it).
   */
  function NewReview(id: ReviewId, owner: UserId, d: Draft, now: nat): (c: Creation)
    ensures c.Created? <==> Violations(d) == []
    ensures c.Created? ==>
      && Valid(c.review)
      && c.review.id == id
      && c.review.userId == owner
      && c.review.createdAt == now
      && Fields(c.review) == d
    ensures c.Rejected? ==> c.violations == Violations(d) && c.violations != []
  {
    var v := Violations(d);
    if v == [] then
      Created(Review(id, owner, d.productName.value, d.reviewContent.value, d.rating.value, now))
    else
      Rejected(v)
  }

  /** `x || fallback` for a text field. */
  function OrText(x: Input<string>, fallback: string): string
  {
    if TruthyText(x) then x.value else fallback
  }

  /** `x || fallback` for a numeric field. */
  function OrNumber(x: Input<real>, fallback: real): real
  {
    if TruthyNumber(x) then x.value else fallback
  }

  /** The partial-update merge: each truthy supplied field replaces the stored one. */
  function Merge(r: Review, body: Draft): (m: Review)
    ensures m.id == r.id && m.userId == r.userId && m.createdAt == r.createdAt
    ensures TruthyText(body.productName) ==> m.productName == body.productName.value
    ensures !TruthyText(body.productName) ==> m.productName == r.productName
    ensures TruthyText(body.reviewContent) ==> m.reviewContent == body.reviewContent.value
    ensures !TruthyText(body.reviewContent) ==> m.reviewContent == r.reviewContent
    ensures TruthyNumber(body.rating) ==> m.rating == body.rating.value
    ensures !TruthyNumber(body.rating) ==> m.rating == r.rating
  {
    r.(productName := OrText(body.productName, r.productName),
       reviewContent := OrText(body.reviewContent, r.reviewContent),
       rating := OrNumber(body.rating, r.rating))
  }

  /** Merging the same body a second time changes nothing more. */
  lemma MergeIdempotent(r: Review, body: Draft)
    ensures Merge(Merge(r, body), body) == Merge(r, body)
  {
  }

  /**
   * A merge into a valid review can only break the schema through the rating:
   * falsy text keeps the stored (non-empty) text, truthy text is non-empty.
   */
  lemma MergeValidIff(r: Review, body: Draft)
    requires Valid(r)
    ensures Valid(Merge(r, body)) <==>
      (TruthyNumber(body.rating) ==> MinRating <= body.rating.value <= MaxRating)
  {
  }

  /** Submitting a valid review's own fields back leaves it as it is. */
  lemma MergeOwnFields(r: Review)
    requires Valid(r)
    ensures Merge(r, Fields(r)) == r
  {
  }
}

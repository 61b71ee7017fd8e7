# Review resource and client list reconciliation

A Dafny model of the review app's core. It covers two parts:

- **Server.** The Mongoose `Review` schema and the four Express handlers `addReview`, `getReviews`, `updateReview` and `deleteReview`.
- **Client.** The React state logic that keeps the signed-in user's list in step with the server's answers: the form's prefill and reset, replace-by-id after an update, append after a create, and remove-by-id after a delete.

Files and modules:

- `review_model.dfy`, module `ReviewModel`. The `Review` record and the schema check.
  - `Violations` lists the broken constraints: a required path is missing or empty, or the rating is below 1 or above 5.
  - `Valid` is the invariant of a stored record.
  - `NewReview` builds a document, with `createdAt` set to the clock reading passed in.
  - `Merge` is the `x || existing` partial update, with JavaScript truthiness: a missing field, `""` or `0` keeps the stored value.
- `review_controller.dfy`, module `ReviewController`.
  - Each handler is a function from the store (`Db`: the reviews in insertion order, plus the next fresh identifier) and the request to the response and the new store.
  - The class `ReviewStore` runs the handlers on mutable fields. Each method is proved equal to its function.
  - A database call that throws is an explicit `Fault` argument, one per call: `create`, `find`/`findById`, `save`, `remove`.
- `review_lists.dfy`, module `ReviewLists`. The list expressions the client applies: `ReplaceById` (the `map` with an `_id` test) and `RemoveById` (the `filter`).
- `review_client.dfy`, module `ReviewClient`. The class `ReviewScreen` holds `reviews`, `editingReview` and `formData`, with the form's and the list's handlers. The server's reply is an argument. The request a submit sends is the function `PendingRequest`.
- `reconciliation.dfy`, module `Reconciliation`. Suppose the client's list equals a user's stored reviews before a successful create, update or delete. Then applying the client's list step to it gives exactly that user's stored reviews afterwards.

The model follows the code, not the stricter rules one might expect of such an app:

- **No ownership check.** `updateReview` and `deleteReview` never read the caller, so there is no `Forbidden` outcome (`UpdateDeleteIgnoreCaller`).
- **Rating bounds only.** The only rating rule is min 1 / max 5, with no limit on decimal places.
- **Validation errors are 500s.** A failed schema check is a thrown error, so it is answered with 500 and the error's message, not with a client-error status.
- **No public feed.** There is no "all reviews" handler: the controller exports only the four handlers above.

## Model

| member | source | states |
|---|---|---|
| `ReviewModel.Violations` | backend/models/Review.js:4-7 | each violation is reported exactly when its constraint is broken: a required text path missing or empty, the rating missing, below 1 or above 5; no violation iff all constraints hold |
| `ReviewModel.FieldsPassIffValid` | backend/models/Review.js:4-7 | re-saving a stored record passes the schema iff the record satisfies `Valid` |
| `ReviewModel.NewReview` | backend/models/Review.js:3-9 | a document is created iff the candidate breaks no constraint; the created record is valid, carries the given id and owner, the three supplied fields and `createdAt` = the clock reading; otherwise the rejection lists the violations |
| `ReviewModel.Merge` | backend/controllers/reviewController.js:29-31 | each of productName, reviewContent, rating is replaced by the request's value iff that value is truthy, and otherwise kept; id, userId and createdAt never change |
| `ReviewModel.MergeIdempotent` | backend/controllers/reviewController.js:29-31 | merging the same body twice equals merging it once |
| `ReviewModel.MergeValidIff` | backend/controllers/reviewController.js:29-33 | merging into a valid record yields a valid record iff a truthy rating in the body lies in [1, 5]: text fields can never break the schema |
| `ReviewModel.MergeOwnFields` | backend/controllers/reviewController.js:29-31 | sending a valid record's own three fields back leaves it unchanged |
| `ReviewLists.ReplaceById` | frontend/src/components/ReviewForm.jsx:28 | same length; each element whose `_id` equals the response's becomes the response; every other element stays unchanged in place |
| `ReviewLists.ReplaceByIdAbsent` | frontend/src/components/ReviewForm.jsx:28 | when no element carries the response's `_id`, the list is unchanged |
| `ReviewLists.ReplaceByIdIdempotent` | frontend/src/components/ReviewForm.jsx:28 | replacing twice with the same response equals replacing once |
| `ReviewLists.RemoveById` | frontend/src/components/ReviewList.jsx:12 | the new length is the old length minus the number of elements carrying the deleted `_id` |
| `ReviewLists.RemoveByIdMembers` | frontend/src/components/ReviewList.jsx:12 | an element is in the result iff it is in the list and does not carry the deleted `_id` |
| `ReviewLists.RemoveByIdAppend` | frontend/src/components/ReviewList.jsx:12 | the filter distributes over concatenation, so the kept elements keep their relative order |
| `ReviewLists.RemoveByIdAbsent` | frontend/src/components/ReviewList.jsx:12 | when no element carries the `_id`, the list is unchanged |
| `ReviewLists.RemoveByIdIdempotent` | frontend/src/components/ReviewList.jsx:12 | afterwards no element carries the `_id`, and a second removal changes nothing |
| `ReviewController.OwnedBy` | backend/controllers/reviewController.js:15 | the owner query returns at most as many reviews as are stored |
| `ReviewController.OwnedByMembers` | backend/controllers/reviewController.js:15 | a review is returned iff it is stored and its userId is the caller's |
| `ReviewController.OwnedByAppend` | backend/controllers/reviewController.js:15 | the query distributes over concatenation, so results come in store order |
| `ReviewController.IndexOf` | backend/controllers/reviewController.js:26 | the lookup finds a position holding that id, or reports none iff no stored review carries it |
| `ReviewController.AddOutcome` | backend/controllers/reviewController.js:3-11 | 201 iff the body passes the schema and create does not throw; then exactly one record is appended, owned by the caller, with the body's fields and createdAt = now, under an id no stored review carries, and that record is the reply; otherwise 500 with the validation message or the thrown message, store unchanged |
| `ReviewController.ListOutcome` | backend/controllers/reviewController.js:13-20 | 200 with exactly the caller's stored reviews, in store order, as the owner query returns them (an empty list is still 200), or 500 with the thrown message |
| `ReviewController.UpdateOutcome` | backend/controllers/reviewController.js:23-38 | a thrown find gives 500 with its message; an unknown id gives 404 "Review not found"; a merged record that breaks the schema gives 500 with the validation message, a thrown save 500 with its message; 200 iff the id exists, the merged record is valid and save does not throw, and then only that record is replaced by the merge and returned; every non-200 leaves the store unchanged |
| `ReviewController.DeleteOutcome` | backend/controllers/reviewController.js:40-50 | a thrown find or remove gives 500 with its message; an unknown id gives 404 "Review not found"; all of these leave the store unchanged; 200 "Review deleted" iff the id exists and nothing throws, and then exactly one record is gone, no stored review carries the id and every other record remains |
| `ReviewController.AddPreservesValid` | backend/models/Review.js:4-7 | after any addReview every stored record is valid, with unique ids below the next fresh id |
| `ReviewController.UpdatePreservesValid` | backend/controllers/reviewController.js:29-33 | after any updateReview every stored record is valid, with unique ids |
| `ReviewController.DeletePreservesValid` | backend/controllers/reviewController.js:45 | after any deleteReview every stored record is valid, with unique ids |
| `ReviewController.DeleteRetires` | backend/controllers/reviewController.js:42-46 | a successful delete leaves its id absent and below the next fresh id |
| `ReviewController.RetiredStaysRetired` | backend/controllers/reviewController.js:26-27 | an absent, already used id stays absent through every handler, and updating or deleting it answers 404: deletion is permanent |
| `ReviewController.UpdateIdempotent` | backend/controllers/reviewController.js:29-33 | repeating a successful update with the same body leaves the store as the first update left it and gives the same reply |
| `ReviewController.UpdateDeleteIgnoreCaller` | backend/controllers/reviewController.js:23-50 | the outcomes of update and delete do not depend on the caller's identity |
| `ReviewController.ReviewStore.AddReview` | backend/controllers/reviewController.js:3-11 | keeps the store invariant; the reply and the new store are those `AddOutcome` gives for the old store |
| `ReviewController.ReviewStore.GetReviews` | backend/controllers/reviewController.js:13-20 | the reply is the one `ListOutcome` gives for the current store |
| `ReviewController.ReviewStore.UpdateReview` | backend/controllers/reviewController.js:23-38 | fetches, assigns the three merged fields in turn, and saves; keeps the store invariant; the reply and new store are those `UpdateOutcome` gives |
| `ReviewController.ReviewStore.DeleteReview` | backend/controllers/reviewController.js:40-50 | keeps the store invariant; the reply and new store are those `DeleteOutcome` gives |
| `ReviewClient.ReviewScreen.constructor` | frontend/src/components/ReviewForm.jsx:7 | the form starts empty with no review selected |
| `ReviewClient.ReviewScreen.SetEditingReview` | frontend/src/components/ReviewForm.jsx:9-19 | the selection becomes the given one; when it differs from the previous selection, a selected review's three fields fill the form and a cleared selection resets it to empty; when it is the same, the form keeps what was typed |
| `ReviewClient.ReviewScreen.SelectForEdit` | frontend/src/components/ReviewList.jsx:28 | the Edit button makes exactly that listed review the selection; the form is filled from it unless it was already the selection, in which case the typed form is kept |
| `ReviewClient.ReviewScreen.ChangeProductName` | frontend/src/components/ReviewForm.jsx:51 | typing changes only the product name in the form |
| `ReviewClient.ReviewScreen.ChangeReviewContent` | frontend/src/components/ReviewForm.jsx:57 | typing changes only the review text in the form |
| `ReviewClient.ReviewScreen.ChangeRating` | frontend/src/components/ReviewForm.jsx:66 | typing changes only the rating in the form |
| `ReviewClient.ReviewScreen.PendingRequest` | frontend/src/components/ReviewForm.jsx:24-34 | the submit sends a PUT iff a review is selected, to the selection's id, and otherwise a POST; the body is the form |
| `ReviewClient.ReviewScreen.HandleSubmit` | frontend/src/components/ReviewForm.jsx:21-41 | on failure nothing changes; on success an edit replaces by id and a create appends the reply, then the selection is cleared and the form reset |
| `ReviewClient.ReviewScreen.HandleDelete` | frontend/src/components/ReviewList.jsx:7-16 | on success the list is filtered by the deleted id; on failure it is unchanged; selection and form are untouched |
| `Reconciliation.OwnedByReplace` | frontend/src/components/ReviewForm.jsx:28 | replacing a stored record in place shows up in a user's list exactly as replace-by-id, given unique ids |
| `Reconciliation.OwnedByRemoveAt` | frontend/src/components/ReviewList.jsx:12 | removing a stored record shows up in a user's list exactly as remove-by-id, given unique ids |
| `Reconciliation.CreateMirrors` | frontend/src/components/ReviewForm.jsx:33 | after a 201, the creator's old list with the reply appended equals their new list |
| `Reconciliation.UpdateMirrors` | frontend/src/components/ReviewForm.jsx:28 | after a 200 update, replace-by-id with the reply turns any user's old list into their new list |
| `Reconciliation.DeleteMirrors` | frontend/src/components/ReviewList.jsx:12 | after a 200 delete, remove-by-id turns any user's old list into their new list |

## Left out

- HTTP, Express and Mongoose plumbing are not modelled: `res.status().json()`, async/await, the `protect` middleware and the route table. A handler's inputs are the authenticated caller, the `:id` parameter and the body. Its output is a status and a payload.
- Casting request strings to numbers is not modelled. A rating arrives as a number or is absent. The form's blank rating text `''` is modelled as absent, which is what Mongoose makes of it.
- The text of a Mongoose validation error is simplified. It names each failing path and rule, but not the offending value.
- Identifiers are a counter in the store, not MongoDB ObjectIds. What the model keeps is that ids are fresh and never reused.
- `createdAt` is an opaque number passed in as the clock reading. Dates and locale formatting are not modelled.
- Concurrency between requests is not modelled. Each handler is one atomic step on the store.
- ReviewClient.ReviewScreen.HandleSubmit and ReviewClient.ReviewScreen.HandleDelete are each one atomic step on the current list. In the app they await the server and then apply the reply to the list captured when the handler started, so when two requests overlap the later reply can overwrite the other's change, and a deleted review can reappear. The Reconciliation lemmas assume one request at a time.
- ReviewClient.ReviewScreen.SetEditingReview compares selections by value. React compares them by object identity, so selecting a different object with equal contents would refill the form in the app but not in the model.
- Rendering, the alerts on failure, `Home.jsx`'s public feed and the other pages are not modelled.
- A client-side fetch of the list is not modelled: the client list is a constructor argument.

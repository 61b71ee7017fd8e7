/**
 * The client state shared by the review form and the review list: the list
 * of reviews shown, the review being edited (if any) and the form fields.
 * The HTTP call each handler makes is not performed here: the server's reply
 * is a parameter, and the request the form would send is a function of the
 * state.
 */
module ReviewClient {
  import opened ReviewModel
  import opened ReviewLists

  /** The call the form makes on submit. */
  datatype Request = Put(id: ReviewId, body: Draft) | Post(body: Draft)

  /** The server's answer as the client sees it: an error (any thrown call) or the returned review. */
  datatype Reply = Failed | Succeeded(data: Review)

  /** `{ reviewContent: '', rating: '', productName: '' }`; a blank rating reads as absent. */
  const EmptyForm: Draft := Draft(Present(""), Present(""), Absent)

  /** The form's contents while `editing` is the selection. */
  function FormFor(editing: Option<Review>): Draft
  {
    match editing
    case None => EmptyForm
    case Some(r) => Fields(r)
  }

  class ReviewScreen {
    var reviews: seq<Review>
    var editingReview: Option<Review>
    var formData: Draft

    constructor (initial: seq<Review>)
      ensures reviews == initial && editingReview == None && formData == EmptyForm
    {
      reviews := initial;
      editingReview := None;
      formData := EmptyForm;
    }

    /**
     * `setEditingReview(e)`, then the effect keyed on `[editingReview]`: it
     * refills the form only when the selection actually changed.
     */
    method SetEditingReview(e: Option<Review>)
      modifies this
      ensures editingReview == e && reviews == old(reviews)
      ensures e == old(editingReview) ==> formData == old(formData)
      ensures e != old(editingReview) && e.Some? ==>
        && formData.productName == Present(e.value.productName)
        && formData.reviewContent == Present(e.value.reviewContent)
        && formData.rating == Present(e.value.rating)
      ensures e != old(editingReview) && e.None? ==> formData == EmptyForm
    {
      var changed := e != editingReview;
      editingReview := e;
      if changed {
        formData := FormFor(editingReview);
      }
    }

    /** The Edit button of a listed review. */
    method SelectForEdit(review: Review)
      requires review in reviews
      modifies this
      ensures editingReview == Some(review)
      ensures old(editingReview) == Some(review) ==> formData == old(formData)
      ensures old(editingReview) != Some(review) ==> formData == Fields(review)
      ensures reviews == old(reviews)
    {
      SetEditingReview(Some(review));
    }

    method ChangeProductName(v: string)
      modifies this
      ensures formData == old(formData).(productName := Present(v))
      ensures reviews == old(reviews) && editingReview == old(editingReview)
    {
      formData := formData.(productName := Present(v));
    }

    method ChangeReviewContent(v: string)
      modifies this
      ensures formData == old(formData).(reviewContent := Present(v))
      ensures reviews == old(reviews) && editingReview == old(editingReview)
    {
      formData := formData.(reviewContent := Present(v));
    }

    method ChangeRating(v: Input<real>)
      modifies this
      ensures formData == old(formData).(rating := v)
      ensures reviews == old(reviews) && editingReview == old(editingReview)
    {
      formData := formData.(rating := v);
    }

    /** The request a submit sends: a PUT to the selection's id while editing, a POST otherwise. */
    function PendingRequest(): (r: Request)
      reads this
      ensures r.Put? <==> editingReview.Some?
      ensures r.Put? ==> r.id == editingReview.value.id
      ensures r.body == formData
    {
      if editingReview.Some? then Put(editingReview.value.id, formData) else Post(formData)
    }

    /** handleSubmit, given the server's reply to `PendingRequest()`. */
    method HandleSubmit(reply: Reply) returns (sent: Request)
      modifies this
      ensures sent == old(PendingRequest())
      ensures reply.Failed? ==>
        reviews == old(reviews) && editingReview == old(editingReview) && formData == old(formData)
      ensures reply.Succeeded? && sent.Put? ==> reviews == ReplaceById(old(reviews), reply.data)
      ensures reply.Succeeded? && sent.Post? ==> reviews == old(reviews) + [reply.data]
      ensures reply.Succeeded? ==> editingReview == None && formData == EmptyForm
    {
      sent := PendingRequest();
      if reply.Failed? {
        return;
      }
      if editingReview.Some? {
        reviews := ReplaceById(reviews, reply.data);
      } else {
        reviews := reviews + [reply.data];
      }
      SetEditingReview(None);
      formData := EmptyForm;
    }

    /** handleDelete for `id`, given whether the DELETE call succeeded. */
    method HandleDelete(id: ReviewId, succeeded: bool)
      modifies this
      ensures succeeded ==> reviews == RemoveById(old(reviews), id)
      ensures !succeeded ==> reviews == old(reviews)
      ensures editingReview == old(editingReview) && formData == old(formData)
    {
      if succeeded {
        reviews := RemoveById(reviews, id);
      }
    }
  }
}

/** The review form of the public reviews page: the payload it submits, the
    message and reset that follow, and the clickable stars. */
module ReviewForm {

  import opened JsValues
  import opened Api

  /** The body `submitReview` posts: the form's `comment` travels as
      `review`. */
  datatype Payload = Payload(name: string, email: string, rating: int, review: string)

  datatype MessageKind = Success | Failure

  datatype SubmitMessage = SubmitMessage(kind: MessageKind, text: string)

  const SuccessText: string := "Review submitted successfully! It will be published after approval."
  const FailureText: string := "Failed to submit review. Please try again."

  /** `submitReview`: an error status throws before the body is read. */
  function SubmitReviewResult(fetched: FetchResult): Outcome<Json>
  {
    JsonOrThrow(fetched, "Failed to submit review")
  }

  /** The message the form shows once the submission has settled: success
      exactly when `submitReview` returned. */
  function Verdict(outcome: Outcome<Json>): (m: SubmitMessage)
    ensures m.kind == Success <==> outcome.Ok?
    ensures m.text == if outcome.Ok? then SuccessText else FailureText
  {
    if outcome.Ok? then SubmitMessage(Success, SuccessText) else SubmitMessage(Failure, FailureText)
  }

  /** Only an OK response whose body is JSON counts as submitted. */
  lemma SubmittedIffAccepted(fetched: FetchResult)
    ensures Verdict(SubmitReviewResult(fetched)).kind == Success <==>
      fetched.Response? && fetched.ok && fetched.body.Some?
  {
  }

  /** The page's form state. */
  class ReviewsPage {
    var name: string
    var email: string
    var rating: int
    var comment: string
    var submitting: bool
    var message: Option<SubmitMessage>

    constructor ()
      ensures name == "" && email == "" && rating == 5 && comment == ""
      ensures !submitting && message == None
    {
      name, email, rating, comment := "", "", 5, "";
      submitting := false;
      message := None;
    }

    /** The start of `handleSubmit`: busy, the old message cleared, and the
        payload taken from the form. */
    method BeginSubmit() returns (payload: Payload)
      modifies this
      ensures submitting && message == None
      ensures name == old(name) && email == old(email) && rating == old(rating) && comment == old(comment)
      ensures payload == Payload(name, email, rating, comment)
    {
      submitting := true;
      message := None;
      payload := Payload(name, email, rating, comment);
    }

    /** The rest of `handleSubmit`: on success the message says so and the
        form returns to its initial values; on failure the message says so
        and the form keeps what was typed. */
    method FinishSubmit(outcome: Outcome<Json>)
      modifies this
      ensures !submitting
      ensures message == Some(Verdict(outcome))
      ensures outcome.Ok? ==> name == "" && email == "" && rating == 5 && comment == ""
      ensures outcome.Thrown? ==>
        name == old(name) && email == old(email) && rating == old(rating) && comment == old(comment)
    {
      message := Some(Verdict(outcome));
      if outcome.Ok? {
        name, email, rating, comment := "", "", 5, "";
      }
      submitting := false;
    }

    /** A click on star `star` (1 to 5): the form's stars are interactive
        and set the rating; the stars of a listed review ignore clicks. */
    method ClickStar(star: int, interactive: bool)
      requires 1 <= star <= 5
      modifies this
      ensures rating == if interactive then star else old(rating)
      ensures name == old(name) && email == old(email) && comment == old(comment)
      ensures submitting == old(submitting) && message == old(message)
    {
      if interactive {
        rating := star;
      }
    }
  }
}

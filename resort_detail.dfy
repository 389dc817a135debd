/** The state behind the resort detail view (`useResortDetail`): navigation, the reviews
    shown locally and the review form, with the reset on a resort change and review
    submission. */
module ResortDetail {
  import opened Wrappers
  import opened Strings
  import opened Types

  datatype DetailTab = Overview | Rooms | Nearby

  /** The review sent to the server: the `reviewData` object. */
  datatype ReviewDraft = ReviewDraft(author: string, rating: int, comment: string)

  const DefaultRating: int := 5
  const AnonymousAuthor: string := "Anonymous"

  /** The author sent with a review: the trimmed name, or "Anonymous" when nothing is left. */
  function AuthorName(author: string): (name: string)
    ensures name != "" && !IsSpace(name[0]) && !IsSpace(name[|name| - 1])
    ensures (forall i :: 0 <= i < |author| ==> IsSpace(author[i])) ==> name == AnonymousAuthor
    ensures (exists i :: 0 <= i < |author| && !IsSpace(author[i])) ==> name == Trim(author)
  {
    var trimmed := Trim(author);
    if trimmed != "" then trimmed else AnonymousAuthor
  }

  /** The submit guard: a comment that is only white space is not sent. */
  predicate CommentBlank(comment: string) {
    Trim(comment) == ""
  }

  class DetailState {
    var activeTab: DetailTab
    var selectedRoom: Option<RoomType>
    var selectedNearby: Option<NearbyPlace>
    var localReviews: seq<Review>
    var reviewExpanded: bool
    var newReviewRating: int
    var newReviewComment: string
    var newReviewAuthor: string
    var isSubmittingReview: bool

    /** The state of a freshly reset view for a resort whose reviews are `reviews`. */
    ghost predicate FreshFor(reviews: Option<seq<Review>>)
      reads this
    {
      localReviews == reviews.GetOr([]) && selectedRoom == None && selectedNearby == None
      && activeTab == Overview && !reviewExpanded
      && newReviewComment == "" && newReviewAuthor == "" && newReviewRating == DefaultRating
    }

    /** Mounting the hook: the initial state, after which the reset effect runs once. */
    constructor (reviews: Option<seq<Review>>)
      ensures FreshFor(reviews) && !isSubmittingReview
    {
      activeTab := Overview;
      selectedRoom := None;
      selectedNearby := None;
      localReviews := [];
      reviewExpanded := false;
      newReviewRating := DefaultRating;
      newReviewComment := "";
      newReviewAuthor := "";
      isSubmittingReview := false;
      new;
      ResetFor(reviews);
    }

    /** The effect run when the resort changes: everything but the submitting flag is reset. */
    method ResetFor(reviews: Option<seq<Review>>)
      modifies this
      ensures FreshFor(reviews)
      ensures isSubmittingReview == old(isSubmittingReview)
    {
      localReviews := reviews.GetOr([]);
      selectedRoom := None;
      selectedNearby := None;
      activeTab := Overview;
      reviewExpanded := false;
      newReviewComment := "";
      newReviewAuthor := "";
      newReviewRating := DefaultRating;
    }

    /** `submitReview`. `created` is the outcome of the remote `createReview` call: the stored
        review, or `None` when the call fails. `sent` is the review handed to that call, `None`
        when the guard stops the submission before any call. */
    method SubmitReview(created: Option<Review>) returns (sent: Option<ReviewDraft>)
      modifies this`localReviews, this`newReviewComment, this`newReviewAuthor, this`reviewExpanded, this`isSubmittingReview
      ensures sent.None? <==> CommentBlank(old(newReviewComment))
      ensures sent.None? ==> unchanged(this)
      ensures sent.Some? ==>
                sent.value == ReviewDraft(AuthorName(old(newReviewAuthor)), old(newReviewRating), old(newReviewComment))
      ensures sent.Some? ==> !isSubmittingReview
      ensures sent.Some? && created.Some? ==>
                localReviews == [created.value] + old(localReviews)
                && newReviewComment == "" && newReviewAuthor == "" && reviewExpanded
      ensures sent.Some? && created.None? ==>
                localReviews == old(localReviews) && newReviewComment == old(newReviewComment)
                && newReviewAuthor == old(newReviewAuthor) && reviewExpanded == old(reviewExpanded)
      ensures newReviewRating == old(newReviewRating) && activeTab == old(activeTab)
      ensures selectedRoom == old(selectedRoom) && selectedNearby == old(selectedNearby)
    {
      var comment, author := newReviewComment, newReviewAuthor;
      if CommentBlank(comment) {
        sent := None;
      } else {
        sent := Some(ReviewDraft(AuthorName(author), newReviewRating, comment));
        isSubmittingReview := true;
        if created.Some? {
          localReviews := [created.value] + localReviews;
          newReviewComment := "";
          newReviewAuthor := "";
          reviewExpanded := true;
        }
        isSubmittingReview := false;
      }
    }
  }
}

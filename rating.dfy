/** The review page (src/app/danh-gia/page.tsx): five stars to click or hover
    over, a comment box, and a thank-you dialog that clears the form when
    closed with its button. Submitting sends nothing anywhere; it only opens
    the dialog. */
module Rating {
  import opened Wrappers
  import opened Text

  const NoRatingAlert := "Vui l\U{00F2}ng ch\U{1ECD}n s\U{1ED1} sao \U{0111}\U{00E1}nh gi\U{00E1}!"
  const NotChosenCaption := "Ch\U{01B0}a ch\U{1ECD}n"

  /** The textarea's `maxLength`. */
  const MaxReviewLength := 500

  /** The star values the buttons pass. */
  predicate IsStar(v: int) {
    1 <= v <= 5
  }

  /** `displayRating = hoverRating || rating`: the hovered star wins while
      there is one, otherwise the committed rating shows. */
  function DisplayRating(hoverRating: int, rating: int): (d: int)
    ensures hoverRating != 0 ==> d == hoverRating
    ensures hoverRating == 0 ==> d == rating
    ensures 0 <= hoverRating <= 5 && 0 <= rating <= 5 ==> 0 <= d <= 5
  {
    if hoverRating != 0 then hoverRating else rating
  }

  /** Which of the five stars are filled for a displayed value: star `i + 1`
      is filled when it is at most the value. */
  function Stars(display: int): (filled: seq<bool>)
    ensures |filled| == 5
    ensures forall i :: 0 <= i < 5 ==> (filled[i] <==> i + 1 <= display)
  {
    seq(5, i requires 0 <= i < 5 => i + 1 <= display)
  }

  function CountFilled(stars: seq<bool>): (n: nat)
    ensures n <= |stars|
  {
    if stars == [] then 0 else (if stars[0] then 1 else 0) + CountFilled(stars[1..])
  }

  /** The filled stars are exactly the first `display` ones, so as many
      stars are filled as the value says. */
  lemma FilledStarsCount(display: int)
    requires 0 <= display <= 5
    ensures CountFilled(Stars(display)) == display
  {
    FilledPrefixCount(Stars(display), display);
  }

  lemma {:induction false} FilledPrefixCount(stars: seq<bool>, k: nat)
    requires k <= |stars|
    requires forall i :: 0 <= i < |stars| ==> (stars[i] <==> i < k)
    ensures CountFilled(stars) == k
  {
    if stars != [] {
      var k' := if k > 0 then k - 1 else 0;
      assert forall i :: 0 <= i < |stars| - 1 ==> (stars[1..][i] <==> i < k');
      FilledPrefixCount(stars[1..], k');
    }
  }

  /** The description under the stars, for ratings 1 to 5 only. */
  function RatingDescription(rating: int): (text: Option<string>)
    ensures text.Some? <==> IsStar(rating)
  {
    if rating == 1 then Some("R\U{1EA5}t kh\U{00F4}ng h\U{00E0}i l\U{00F2}ng")
    else if rating == 2 then Some("Kh\U{00F4}ng h\U{00E0}i l\U{00F2}ng")
    else if rating == 3 then Some("B\U{00EC}nh th\U{01B0}\U{1EDD}ng")
    else if rating == 4 then Some("H\U{00E0}i l\U{00F2}ng")
    else if rating == 5 then Some("R\U{1EA5}t h\U{00E0}i l\U{00F2}ng")
    else None
  }

  /** Different ratings get different descriptions. */
  lemma DescriptionsDistinct(a: int, b: int)
    requires IsStar(a) && IsStar(b) && a != b
    ensures RatingDescription(a) != RatingDescription(b)
  {
  }

  /** The caption beside the stars: "not chosen", or the count of stars. */
  function RatingCaption(rating: int): (caption: string)
    ensures rating == 0 <==> caption == NotChosenCaption
    ensures rating != 0 ==> |caption| > 4 && caption[..|caption| - 4] == IntToString(rating)
                            && caption[|caption| - 4..] == " sao"
  {
    if rating == 0 then NotChosenCaption
    else
      var c := IntToString(rating) + " sao";
      assert c[..|c| - 4] == IntToString(rating) && c[|c| - 4..] == " sao";
      assert c[0] != NotChosenCaption[0] by {
        assert c[0] == IntToString(rating)[0];
        StarCountFirstChar(rating);
      }
      c
  }

  lemma StarCountFirstChar(rating: int)
    requires rating != 0
    ensures IntToString(rating)[0] != 'C'
  {
    if rating > 0 {
      NatToStringProperties(rating);
    }
  }

  /** The form's state. */
  class RatingForm {
    var rating: int
    var hoverRating: int
    var reviewText: string
    var showThankYouModal: bool

    /** Both star values stay within 0..5, since only star values 1..5 and
        the reset value 0 are ever assigned, and the comment stays within
        the textarea's limit. */
    predicate Valid()
      reads this
    {
      0 <= rating <= 5 && 0 <= hoverRating <= 5 && |reviewText| <= MaxReviewLength
    }

    constructor ()
      ensures Valid()
      ensures rating == 0 && hoverRating == 0 && reviewText == "" && !showThankYouModal
    {
      rating := 0;
      hoverRating := 0;
      reviewText := "";
      showThankYouModal := false;
    }

    /** `handleStarClick`: commits the clicked star. */
    method HandleStarClick(starValue: int)
      requires Valid() && IsStar(starValue)
      modifies this
      ensures Valid()
      ensures rating == starValue
      ensures hoverRating == old(hoverRating) && reviewText == old(reviewText) && showThankYouModal == old(showThankYouModal)
    {
      rating := starValue;
    }

    /** `handleStarHover`: previews the star under the pointer. */
    method HandleStarHover(starValue: int)
      requires Valid() && IsStar(starValue)
      modifies this
      ensures Valid()
      ensures hoverRating == starValue
      ensures rating == old(rating) && reviewText == old(reviewText) && showThankYouModal == old(showThankYouModal)
    {
      hoverRating := starValue;
    }

    /** `handleStarsLeave`: the preview ends and the committed rating shows
        again. */
    method HandleStarsLeave()
      requires Valid()
      modifies this
      ensures Valid()
      ensures hoverRating == 0 && DisplayRating(hoverRating, rating) == rating
      ensures rating == old(rating) && reviewText == old(reviewText) && showThankYouModal == old(showThankYouModal)
    {
      hoverRating := 0;
    }

    /** The comment box's `onChange`; the box accepts at most 500 characters. */
    method HandleReviewChange(text: string)
      requires Valid() && |text| <= MaxReviewLength
      modifies this
      ensures Valid()
      ensures reviewText == text
      ensures rating == old(rating) && hoverRating == old(hoverRating) && showThankYouModal == old(showThankYouModal)
    {
      reviewText := text;
    }

    /** `handleSubmitReview`: without a rating it only raises the alert;
        with one it opens the thank-you dialog. */
    method HandleSubmitReview() returns (alert: Option<string>)
      requires Valid()
      modifies this
      ensures Valid()
      ensures rating == 0 ==> alert == Some(NoRatingAlert) && showThankYouModal == old(showThankYouModal)
      ensures rating != 0 ==> alert.None? && showThankYouModal
      ensures rating == old(rating) && hoverRating == old(hoverRating) && reviewText == old(reviewText)
    {
      if rating == 0 {
        return Some(NoRatingAlert);
      }
      showThankYouModal := true;
      alert := None;
    }

    /** `handleModalClose`, the dialog's button: hides the dialog and clears
        the rating and the comment. The hover value is left as it was. */
    method HandleModalClose()
      requires Valid()
      modifies this
      ensures Valid()
      ensures !showThankYouModal && rating == 0 && reviewText == ""
      ensures hoverRating == old(hoverRating)
    {
      showThankYouModal := false;
      rating := 0;
      reviewText := "";
    }

    /** The dialog's `onOpenChange`, used when it is dismissed some other way
        (overlay, Escape): it only sets the visibility, so the rating and
        the comment are kept. */
    method OnOpenChange(open: bool)
      requires Valid()
      modifies this
      ensures Valid()
      ensures showThankYouModal == open
      ensures rating == old(rating) && hoverRating == old(hoverRating) && reviewText == old(reviewText)
    {
      showThankYouModal := open;
    }

    /** The stars drawn in the form. */
    function FormStars(): (filled: seq<bool>)
      reads this
      requires Valid()
      ensures CountFilled(filled) == DisplayRating(hoverRating, rating)
    {
      FilledStarsCount(DisplayRating(hoverRating, rating));
      Stars(DisplayRating(hoverRating, rating))
    }
  }
}

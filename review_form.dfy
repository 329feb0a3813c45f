/**
 * The review overlay: a form with a five-star rating and a review text of at
 * least fifty characters, a simulated submission through three phases, and
 * an overlay that locks page scrolling and closes on Escape or on a click on
 * its backdrop.
 */
module ReviewForm {
  import opened Dom
  import Seqs

  datatype ReviewData = ReviewData(
    name: string,
    email: string,
    company: string,
    service: string,
    rating: int,
    review: string)

  /** The form's initial content and what it is reset to after a submission. */
  const EmptyReview: ReviewData := ReviewData("", "", "", "", 0, "")

  /** The star buttons offered, lowest first. */
  const Stars: seq<int> := [1, 2, 3, 4, 5]

  /** The shortest review text the form accepts. */
  const MinReviewLength: nat := 50

  /** The services of the drop-down, in option order. */
  const Services: seq<string> := ["Logo Design", "Video Editing", "Poster Design", "Ad Creation", "Graphic Design"]

  /**
   * A script string's `length` and an input's `minLength` both count UTF-16
   * code units: a character beyond U+FFFF counts twice.
   */
  function Utf16Length(s: string): (n: nat)
    ensures |s| <= n <= 2 * |s|
    ensures (forall i :: 0 <= i < |s| ==> s[i] as int <= 0xFFFF) ==> n == |s|
  {
    if s == [] then 0 else (if s[0] as int > 0xFFFF then 2 else 1) + Utf16Length(s[1..])
  }

  /** The submit button is disabled. */
  predicate SubmitDisabled(isSubmitting: bool, data: ReviewData): (r: bool)
    ensures (forall i :: 0 <= i < |data.review| ==> data.review[i] as int <= 0xFFFF) ==>
              (r <==> isSubmitting || data.rating == 0 || |data.review| < MinReviewLength)
    ensures 2 * |data.review| < MinReviewLength ==> r
  {
    isSubmitting || data.rating == 0 || Utf16Length(data.review) < MinReviewLength
  }

  /** handleRatingClick: the rating becomes `rating`, every other field is kept. */
  function WithRating(data: ReviewData, rating: int): (r: ReviewData)
    ensures r.rating == rating
    ensures r.name == data.name && r.email == data.email && r.company == data.company
    ensures r.service == data.service && r.review == data.review
  {
    data.(rating := rating)
  }

  /** The form's text inputs. */
  datatype Field = Name | Email | Company | Service | Review

  /** Typing into one input: that field takes the new text, all others are kept. */
  function WithField(data: ReviewData, field: Field, value: string): (r: ReviewData)
    ensures r.rating == data.rating
    ensures r.name == (if field == Name then value else data.name)
    ensures r.email == (if field == Email then value else data.email)
    ensures r.company == (if field == Company then value else data.company)
    ensures r.service == (if field == Service then value else data.service)
    ensures r.review == (if field == Review then value else data.review)
  {
    match field
    case Name => data.(name := value)
    case Email => data.(email := value)
    case Company => data.(company := value)
    case Service => data.(service := value)
    case Review => data.(review := value)
  }

  /**
   * The browser's own constraint check on submit: the name, email, service
   * and review inputs are `required`, and the review has a minimum length.
   */
  predicate RequiredFilled(data: ReviewData): (r: bool)
    ensures r && data.rating != 0 ==> !SubmitDisabled(false, data)
  {
    data.name != "" && data.email != "" && data.service != "" && Utf16Length(data.review) >= MinReviewLength
  }

  /** Star `star` is drawn filled. */
  predicate StarHighlighted(star: int, rating: int) {
    star <= rating
  }

  /** The filled stars, in button order. */
  function HighlightedStars(rating: int): (r: seq<int>)
    ensures forall i :: 0 <= i < |r| ==> r[i] in Stars && StarHighlighted(r[i], rating)
  {
    Seqs.Filter(Stars, star => StarHighlighted(star, rating))
  }

  /**
   * The label under the stars: six separate conditional texts, one per
   * rating value from 0 to 5, listed here in the order they are rendered.
   */
  function RatingLabels(rating: int): (r: seq<string>)
    ensures |r| <= 1
    ensures |r| == 1 <==> 0 <= rating <= 5
  {
    (if rating == 0 then ["Please select a rating"] else []) +
    (if rating == 1 then ["Poor"] else []) +
    (if rating == 2 then ["Fair"] else []) +
    (if rating == 3 then ["Good"] else []) +
    (if rating == 4 then ["Very Good"] else []) +
    (if rating == 5 then ["Excellent"] else [])
  }

  /** The labels in rating order, from "no rating" up to five stars. */
  const LabelTable: seq<string> := ["Please select a rating", "Poor", "Fair", "Good", "Very Good", "Excellent"]

  /** Exactly one label is shown for each rating from 0 to 5, a different one for each; none for other values. */
  lemma RatingLabelsExactlyOne(rating: int)
    ensures 0 <= rating <= 5 ==> RatingLabels(rating) == [LabelTable[rating]]
    ensures !(0 <= rating <= 5) ==> RatingLabels(rating) == []
    ensures forall a, b :: 0 <= a < b < |LabelTable| ==> LabelTable[a] != LabelTable[b]
  {
    if 0 <= rating <= 5 {
      assert RatingLabels(rating) == [LabelTable[rating]];
    }
    assert LabelTable[3] != LabelTable[4] by { assert |LabelTable[3]| != |LabelTable[4]|; }
  }

  /** In any row of stars numbered 1 to n, exactly the first `rating` are filled. */
  lemma FilledPrefix(stars: seq<int>, rating: int)
    requires forall i :: 0 <= i < |stars| ==> stars[i] == i + 1
    requires 0 <= rating <= |stars|
    ensures Seqs.Filter(stars, star => StarHighlighted(star, rating)) == stars[..rating]
  {
    var p := (star: int) => StarHighlighted(star, rating);
    var front, back := stars[..rating], stars[rating..];
    assert stars == front + back;
    Seqs.FilterAppend(front, back, p);
    assert forall i :: 0 <= i < |front| ==> p(front[i]) by {
      forall i | 0 <= i < |front| ensures p(front[i]) {
        assert front[i] == stars[i];
      }
    }
    Seqs.FilterKeepsAll(front, p);
    assert forall i :: 0 <= i < |back| ==> !p(back[i]) by {
      forall i | 0 <= i < |back| ensures !p(back[i]) {
        assert back[i] == stars[rating + i];
      }
    }
    Seqs.FilterEmpty(back, p);
  }

  /** For every rating from 0 to 5, exactly the first `rating` stars are filled. */
  lemma HighlightedStarsArePrefix(rating: int)
    requires 0 <= rating <= |Stars|
    ensures HighlightedStars(rating) == Stars[..rating]
    ensures |HighlightedStars(rating)| == rating
  {
    FilledPrefix(Stars, rating);
  }

  /** A click on star `s` fills stars 1 to `s`; the button is then enabled exactly when the review is long enough. */
  lemma RatingClickFillsStars(data: ReviewData, s: int)
    requires s in Stars
    ensures HighlightedStars(WithRating(data, s).rating) == Stars[..s]
    ensures SubmitDisabled(false, WithRating(data, s)) <==> Utf16Length(data.review) < MinReviewLength
  {
    HighlightedStarsArePrefix(s);
  }

  /**
   * A form with a typed name and e-mail, a service from the drop-down, a star
   * clicked and a review of fifty code units passes the browser's check and
   * has its button enabled.
   */
  lemma ChoicesMakeFormSubmittable(data: ReviewData, i: nat, s: int)
    requires data.name != "" && data.email != "" && i < |Services| && s in Stars
    requires Utf16Length(data.review) >= MinReviewLength
    ensures var d := WithRating(WithField(data, Service, Services[i]), s);
            RequiredFilled(d) && !SubmitDisabled(false, d)
  {
    assert Services[i] != "" by { assert |Services[i]| > 0; }
  }

  /** The phase of a submission, read off the two flags of the component. */
  datatype Phase = Idle | Submitting | Submitted

  /**
   * The overlay's state, with the parts of the page its effects touch: the
   * body's `overflow` and `padding-right` styles and the Escape listener.
   * `isOpen` is the prop the parent passes; `closeCalls` counts how often the
   * overlay called the parent's `onClose`.
   */
  class ReviewOverlay {
    var isOpen: bool
    var formData: ReviewData
    var isSubmitting: bool
    var isSubmitted: bool
    var bodyOverflow: string
    var bodyPaddingRight: string
    var escapeListenerAttached: bool
    var mounted: bool
    var closeCalls: nat

    ghost predicate Valid()
      reads this
    {
      !(isSubmitting && isSubmitted) &&
      (mounted ==> escapeListenerAttached == isOpen) &&
      (mounted ==> bodyOverflow == (if isOpen then "hidden" else "") &&
                   bodyPaddingRight == (if isOpen then "0px" else "")) &&
      (!mounted ==> !escapeListenerAttached && bodyOverflow == "" && bodyPaddingRight == "")
    }

    function CurrentPhase(): Phase
      reads this
    {
      if isSubmitting then Submitting else if isSubmitted then Submitted else Idle
    }

    /** The overlay renders nothing while closed. */
    predicate Rendered()
      reads this
    {
      mounted && isOpen
    }

    /** Mounting runs both effects once for the initial prop. */
    constructor (isOpen: bool)
      ensures Valid() && mounted
      ensures this.isOpen == isOpen && formData == EmptyReview && CurrentPhase() == Idle && closeCalls == 0
      ensures bodyOverflow == (if isOpen then "hidden" else "") && escapeListenerAttached == isOpen
    {
      this.isOpen := isOpen;
      formData := EmptyReview;
      isSubmitting, isSubmitted := false, false;
      mounted := true;
      closeCalls := 0;
      bodyOverflow := if isOpen then "hidden" else "";
      bodyPaddingRight := if isOpen then "0px" else "";
      escapeListenerAttached := isOpen;
    }

    /**
     * The parent changes the `isOpen` prop. When it differs, both effects
     * clean up (restore the body styles, detach the listener) and run again
     * for the new value.
     */
    method SetOpen(open: bool)
      requires Valid() && mounted
      modifies this
      ensures Valid() && mounted && isOpen == open
      ensures bodyOverflow == (if open then "hidden" else "") && escapeListenerAttached == open
      ensures formData == old(formData) && isSubmitting == old(isSubmitting) && isSubmitted == old(isSubmitted)
      ensures closeCalls == old(closeCalls)
    {
      if open != isOpen {
        isOpen := open;
        bodyOverflow, bodyPaddingRight := "", "";
        escapeListenerAttached := false;
        if open {
          bodyOverflow, bodyPaddingRight := "hidden", "0px";
          escapeListenerAttached := true;
        } else {
          bodyOverflow, bodyPaddingRight := "", "";
        }
      }
    }

    /** Unmounting runs both cleanups, which always restore the body and detach the listener. */
    method Unmount()
      requires Valid() && mounted
      modifies this
      ensures Valid() && !mounted
      ensures bodyOverflow == "" && bodyPaddingRight == "" && !escapeListenerAttached
      ensures isOpen == old(isOpen) && formData == old(formData) && closeCalls == old(closeCalls)
      ensures isSubmitting == old(isSubmitting) && isSubmitted == old(isSubmitted)
    {
      bodyOverflow, bodyPaddingRight := "", "";
      escapeListenerAttached := false;
      mounted := false;
    }

    /** A keydown on the document: the attached listener calls onClose on Escape. */
    method KeyDown(key: string)
      requires Valid()
      modifies this`closeCalls
      ensures closeCalls == old(closeCalls) + (if mounted && isOpen && key == EscapeKey then 1 else 0)
    {
      if escapeListenerAttached && key == EscapeKey && isOpen {
        closeCalls := closeCalls + 1;
      }
    }

    /** A click on the rendered overlay: the close control and the backdrop itself call onClose, the content does not. */
    method Click(target: ClickTarget)
      requires Valid()
      modifies this`closeCalls
      ensures closeCalls == old(closeCalls) + (if Rendered() && target != Content then 1 else 0)
    {
      if Rendered() {
        match target
        case CloseButton => closeCalls := closeCalls + 1;
        case Backdrop => closeCalls := closeCalls + 1;
        case Content =>
      }
    }

    /** A star button. */
    method HandleRatingClick(rating: int)
      requires Valid() && Rendered() && rating in Stars
      modifies this`formData
      ensures Valid() && formData == WithRating(old(formData), rating)
    {
      formData := WithRating(formData, rating);
    }

    /** Typing into one of the text inputs or choosing a service. */
    method Edit(field: Field, value: string)
      requires Valid()
      modifies this`formData
      ensures Valid() && formData == WithField(old(formData), field, value)
    {
      formData := WithField(formData, field, value);
    }

    /**
     * The form is submitted through its enabled submit button with every
     * required input filled: idle to submitting.
     */
    method BeginSubmit()
      requires Valid() && Rendered() && !isSubmitted
      requires !SubmitDisabled(isSubmitting, formData) && RequiredFilled(formData)
      modifies this`isSubmitting
      ensures Valid() && CurrentPhase() == Submitting
      ensures SubmitDisabled(isSubmitting, formData)
    {
      isSubmitting := true;
    }

    /** The simulated request completes: submitting to submitted. */
    method FinishSubmit()
      requires Valid() && CurrentPhase() == Submitting
      modifies this`isSubmitting, this`isSubmitted
      ensures Valid() && CurrentPhase() == Submitted
      ensures formData == old(formData)
    {
      isSubmitting := false;
      isSubmitted := true;
    }

    /** The delayed reset: back to idle with an empty form and a rating of 0, then onClose. */
    method ResetAfterSubmit()
      requires Valid() && CurrentPhase() == Submitted
      modifies this`isSubmitted, this`formData, this`closeCalls
      ensures Valid() && CurrentPhase() == Idle
      ensures formData == EmptyReview && formData.rating == 0
      ensures closeCalls == old(closeCalls) + 1
    {
      isSubmitted := false;
      formData := EmptyReview;
      closeCalls := closeCalls + 1;
    }
  }
}

/**
 * The testimonials tab of the admin dashboard: the new-review form with its
 * star rating, the payload it sends, the reset after success, deletes, and
 * the star row of each card.
 */
module TestimonialManager {
  import opened Wrappers
  import opened Types
  import Api

  const FETCH_FAILURE: string := "Failed to fetch testimonials."
  const CREATE_FAILURE: string := "Failed to create testimonial."
  const DELETE_FAILURE: string := "Failed to delete review."
  const DEFAULT_RATING: int := 5

  /** The ratings the select offers: 5 down to 1. */
  const RATING_OPTIONS: seq<int> := [5, 4, 3, 2, 1]

  predicate IsRatingOption(r: int) {
    r in RATING_OPTIONS
  }

  lemma RatingOptionsRange(r: int)
    ensures IsRatingOption(r) <==> 1 <= r <= 5
  {
    if 1 <= r <= 5 {
      assert RATING_OPTIONS[5 - r] == r;
    }
  }

  /** The body of the create request: exactly name, location, rating and review text. */
  function Payload(name: string, location: string, rating: int, reviewText: string): (j: Api.Json)
    ensures j.JObj? && |j.fields| == 4
    ensures j.fields[0] == ("name", Api.JStr(name)) && j.fields[1] == ("location", Api.JStr(location))
    ensures j.fields[2] == ("rating", Api.JNum(rating)) && j.fields[3] == ("reviewText", Api.JStr(reviewText))
  {
    Api.JObj([("name", Api.JStr(name)), ("location", Api.JStr(location)),
              ("rating", Api.JNum(rating)), ("reviewText", Api.JStr(reviewText))])
  }

  /** The largest length `Array(n)` accepts. */
  const MAX_ARRAY_LENGTH: int := 0xFFFF_FFFF

  /**
   * The stars of a card: `[...Array(rating)]`, one star per unit of rating,
   * keyed by position; a rating no array can have that length raises an error.
   */
  function CardStars(rating: int): (r: Result<seq<nat>, string>)
    ensures r.Ok? <==> 0 <= rating <= MAX_ARRAY_LENGTH
    ensures r.Ok? ==> |r.value| == rating && forall i :: 0 <= i < |r.value| ==> r.value[i] == i
  {
    if 0 <= rating <= MAX_ARRAY_LENGTH then Ok(seq(rating, i requires 0 <= i => i)) else Err("Invalid array length")
  }

  datatype TextField = Name | Location | ReviewText

  class TestimonialManager {
    var testimonials: seq<Testimonial>
    var isLoading: bool
    var error: string
    var isFormVisible: bool
    var isSubmitting: bool
    var name: string
    var location: string
    var rating: int
    var reviewText: string

    /** The rating is always one the select offers. */
    predicate Valid()
      reads this
    {
      1 <= rating <= 5
    }

    constructor ()
      ensures Valid() && rating == DEFAULT_RATING
      ensures testimonials == [] && isLoading && error == [] && !isFormVisible && !isSubmitting
      ensures name == [] && location == [] && reviewText == []
    {
      testimonials, isLoading, error, isFormVisible, isSubmitting := [], true, [], false, false;
      name, location, rating, reviewText := [], [], DEFAULT_RATING, [];
    }

    /** `fetchTestimonials`: the list on success, the fixed message otherwise; an earlier error stays. */
    method FetchTestimonials(outcome: Result<seq<Testimonial>, Api.ApiError>)
      modifies this
      ensures !isLoading
      ensures outcome.Ok? ==> testimonials == outcome.value && error == old(error)
      ensures outcome.Err? ==> testimonials == old(testimonials) && error == FETCH_FAILURE
      ensures isFormVisible == old(isFormVisible) && isSubmitting == old(isSubmitting)
      ensures name == old(name) && location == old(location) && rating == old(rating) && reviewText == old(reviewText)
    {
      isLoading := true;
      match outcome {
        case Ok(data) => testimonials := data;
        case Err(_) => error := FETCH_FAILURE;
      }
      isLoading := false;
    }

    /** The Add/Cancel button. */
    method ToggleForm()
      modifies this
      ensures isFormVisible == !old(isFormVisible)
      ensures testimonials == old(testimonials) && isLoading == old(isLoading) && error == old(error)
      ensures isSubmitting == old(isSubmitting)
      ensures name == old(name) && location == old(location) && rating == old(rating) && reviewText == old(reviewText)
    {
      isFormVisible := !isFormVisible;
    }

    method Type(field: TextField, value: string)
      modifies this
      ensures field == Name ==> name == value && location == old(location) && reviewText == old(reviewText)
      ensures field == Location ==> location == value && name == old(name) && reviewText == old(reviewText)
      ensures field == ReviewText ==> reviewText == value && name == old(name) && location == old(location)
      ensures rating == old(rating) && testimonials == old(testimonials) && error == old(error)
      ensures isLoading == old(isLoading) && isFormVisible == old(isFormVisible) && isSubmitting == old(isSubmitting)
    {
      match field {
        case Name => name := value;
        case Location => location := value;
        case ReviewText => reviewText := value;
      }
    }

    /** Picking an option of the select. */
    method ChooseRating(option: int)
      requires IsRatingOption(option)
      modifies this
      ensures rating == option && Valid()
      ensures name == old(name) && location == old(location) && reviewText == old(reviewText)
      ensures testimonials == old(testimonials) && error == old(error)
      ensures isLoading == old(isLoading) && isFormVisible == old(isFormVisible) && isSubmitting == old(isSubmitting)
    {
      RatingOptionsRange(option);
      rating := option;
    }

    /**
     * `handleSubmit`, given how the create and the refetch came out. The
     * payload is sent unchecked; success resets the form to its defaults,
     * hides it and refetches; failure keeps it and shows the fixed message.
     * No submission is running afterwards, and the rating stays valid.
     */
    method HandleSubmit(outcome: Result<Api.Json, Api.ApiError>, refetch: Result<seq<Testimonial>, Api.ApiError>)
      returns (sent: Api.Json)
      requires Valid()
      modifies this
      ensures Valid() && !isSubmitting
      ensures sent == Payload(old(name), old(location), old(rating), old(reviewText))
      ensures outcome.Ok? ==>
                name == [] && location == [] && rating == DEFAULT_RATING && reviewText == []
                && !isFormVisible && !isLoading
      ensures outcome.Ok? && refetch.Ok? ==> testimonials == refetch.value && error == old(error)
      ensures outcome.Ok? && refetch.Err? ==> testimonials == old(testimonials) && error == FETCH_FAILURE
      ensures outcome.Err? ==>
                error == CREATE_FAILURE && testimonials == old(testimonials) && isLoading == old(isLoading)
                && name == old(name) && location == old(location) && rating == old(rating)
                && reviewText == old(reviewText) && isFormVisible == old(isFormVisible)
    {
      isSubmitting := true;
      sent := Payload(name, location, rating, reviewText);
      match outcome {
        case Ok(_) =>
          name := [];
          location := [];
          rating := DEFAULT_RATING;
          reviewText := [];
          isFormVisible := false;
          FetchTestimonials(refetch);
        case Err(_) =>
          error := CREATE_FAILURE;
      }
      isSubmitting := false;
    }

    /** `handleDelete`: nothing without confirmation; success refetches, failure shows the fixed message. */
    method HandleDelete(id: string, confirmed: bool, outcome: Result<bool, Api.ApiError>,
                        refetch: Result<seq<Testimonial>, Api.ApiError>)
      returns (deleted: Option<string>)
      modifies this
      ensures !confirmed ==>
                deleted == None && testimonials == old(testimonials) && error == old(error) && isLoading == old(isLoading)
      ensures confirmed ==> deleted == Some(id)
      ensures confirmed && outcome.Ok? ==> !isLoading
      ensures confirmed && outcome.Ok? && refetch.Ok? ==> testimonials == refetch.value && error == old(error)
      ensures confirmed && outcome.Ok? && refetch.Err? ==> testimonials == old(testimonials) && error == FETCH_FAILURE
      ensures confirmed && outcome.Err? ==>
                testimonials == old(testimonials) && isLoading == old(isLoading) && error == DELETE_FAILURE
      ensures name == old(name) && location == old(location) && rating == old(rating) && reviewText == old(reviewText)
      ensures isFormVisible == old(isFormVisible) && isSubmitting == old(isSubmitting)
    {
      deleted := None;
      if confirmed {
        deleted := Some(id);
        match outcome {
          case Ok(_) => FetchTestimonials(refetch);
          case Err(_) => error := DELETE_FAILURE;
        }
      }
    }
  }

  /** Whatever the admin picks and however the submission ends, the rating sent next is one the select offers. */
  method RatingAlwaysOffered(manager: TestimonialManager, option: int, outcome: Result<Api.Json, Api.ApiError>,
                             refetch: Result<seq<Testimonial>, Api.ApiError>)
    returns (first: Api.Json, second: Api.Json)
    requires manager.Valid() && IsRatingOption(option)
    modifies manager
    ensures first.JObj? && |first.fields| == 4 && first.fields[2] == ("rating", Api.JNum(option))
    ensures second.JObj? && |second.fields| == 4 && second.fields[2].1.JNum? && IsRatingOption(second.fields[2].1.n)
  {
    manager.ChooseRating(option);
    first := manager.HandleSubmit(outcome, refetch);
    second := manager.HandleSubmit(outcome, refetch);
    RatingOptionsRange(manager.rating);
  }
}

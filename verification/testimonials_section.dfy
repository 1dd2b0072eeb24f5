/**
 * The home page's testimonials slider: the five-star row of each card and
 * the navigation arrows.
 */
module TestimonialsSection {

  const STAR_COUNT: nat := 5

  /** `StarRating`: five stars, star `i` highlighted exactly when `i < rating`. */
  function StarFlags(rating: int): (r: seq<bool>)
    ensures |r| == STAR_COUNT
    ensures forall i :: 0 <= i < STAR_COUNT ==> (r[i] <==> i < rating)
  {
    seq(STAR_COUNT, i requires 0 <= i < STAR_COUNT => i < rating)
  }

  function CountHighlighted(flags: seq<bool>): nat {
    if flags == [] then 0 else (if flags[|flags| - 1] then 1 else 0) + CountHighlighted(flags[..|flags| - 1])
  }

  function Clamp(n: int, lo: int, hi: int): int
    requires lo <= hi
  {
    if n < lo then lo else if n > hi then hi else n
  }

  /** A row of `n` stars highlighted below `rating` has `rating` clamped to `[0, n]` highlighted. */
  lemma {:induction false} PrefixHighlighted(rating: int, n: nat)
    ensures CountHighlighted(seq(n, i requires 0 <= i < n => i < rating)) == Clamp(rating, 0, n)
    decreases n
  {
    var flags := seq(n, i requires 0 <= i < n => i < rating);
    if n > 0 {
      assert flags[..n - 1] == seq(n - 1, i requires 0 <= i < n - 1 => i < rating);
      PrefixHighlighted(rating, n - 1);
    }
  }

  /** For a whole-number rating, the highlighted stars number the rating clamped to zero through five. */
  lemma HighlightedIsClampedRating(rating: int)
    ensures CountHighlighted(StarFlags(rating)) == Clamp(rating, 0, STAR_COUNT)
  {
    PrefixHighlighted(rating, STAR_COUNT);
    assert StarFlags(rating) == seq(STAR_COUNT, i requires 0 <= i < STAR_COUNT => i < rating);
  }

  /** The arrows show only once the slider instance exists and there is more than one testimonial. */
  function ShowArrows(instanceExists: bool, testimonialCount: nat): (show: bool)
    ensures show ==> instanceExists
    ensures show <==> instanceExists && testimonialCount >= 2
  {
    instanceExists && testimonialCount > 1
  }

  /** The ratings of the four testimonials the section shows. */
  const RATINGS: seq<int> := [4, 5, 5, 4]

  /** With its four built-in testimonials the section shows the arrows as soon as the slider exists. */
  lemma BuiltInShowsArrows(instanceExists: bool)
    ensures ShowArrows(instanceExists, |RATINGS|) == instanceExists
  {
  }
}

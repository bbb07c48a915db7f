/** The review form: a 1-5 star rating chosen by clicking (hovering only
    previews), a free-text comment, and local validation before the review is
    handed to the caller's `onSubmit`. */
module ReviewModal {

  /** The value of one of the five star buttons. */
  type Star = s: int | 1 <= s <= 5 witness 5

  const CommentRequired: string := "Comment is required."
  const RatingOutOfRange: string := "Rating must be between 1 and 5."

  /** The characters `String.prototype.trim` strips: ECMAScript's WhiteSpace
      (tab, vertical tab, form feed, the byte order mark and every space
      separator) and LineTerminator characters. */
  predicate IsSpace(c: char)
  {
    c == '\t' || c == '\n' || c == '\U{000B}' || c == '\U{000C}' || c == '\r' || c == ' '
    || c == '\U{00A0}' || c == '\U{1680}' || ('\U{2000}' <= c <= '\U{200A}')
    || c == '\U{2028}' || c == '\U{2029}' || c == '\U{202F}' || c == '\U{205F}'
    || c == '\U{3000}' || c == '\U{FEFF}'
  }

  /** A comment with nothing but space in it. */
  ghost predicate Blank(s: string)
  {
    forall i :: 0 <= i < |s| ==> IsSpace(s[i])
  }

  /** Drops the leading space: what is left is a suffix of `s` that starts
      with a non-space character. */
  function TrimStart(s: string): (r: string)
    ensures |r| <= |s| && r == s[|s| - |r|..]
    ensures forall i :: 0 <= i < |s| - |r| ==> IsSpace(s[i])
    ensures r != [] ==> !IsSpace(r[0])
  {
    if s == [] then []
    else if IsSpace(s[0]) then TrimStart(s[1..])
    else s
  }

  /** Drops the trailing space: what is left is a prefix of `s` that ends
      with a non-space character. */
  function TrimEnd(s: string): (r: string)
    ensures |r| <= |s| && r == s[..|r|]
    ensures forall i :: |r| <= i < |s| ==> IsSpace(s[i])
    ensures r != [] ==> !IsSpace(r[|r| - 1])
  {
    if s == [] then []
    else if IsSpace(s[|s| - 1]) then TrimEnd(s[..|s| - 1])
    else s
  }

  /** `r` is `s` from index `k` on, with only space before and after it. */
  ghost predicate InnerPart(s: string, r: string, k: int)
  {
    0 <= k <= |s| - |r| && r == s[k..k + |r|]
    && (forall i :: 0 <= i < k ==> IsSpace(s[i]))
    && (forall i :: k + |r| <= i < |s| ==> IsSpace(s[i]))
  }

  /** Dropping leading space from `s` and then trailing space from what is
      left keeps the part of `s` that starts where the leading space ends. */
  lemma InnerOfSuffixPrefix(s: string, t: string, r: string)
    requires |t| <= |s| && t == s[|s| - |t|..]
    requires forall i :: 0 <= i < |s| - |t| ==> IsSpace(s[i])
    requires |r| <= |t| && r == t[..|r|]
    requires forall i :: |r| <= i < |t| ==> IsSpace(t[i])
    ensures InnerPart(s, r, |s| - |t|)
  {
    var k := |s| - |t|;
    assert r == s[k..k + |r|];
    forall i | k + |r| <= i < |s|
      ensures IsSpace(s[i])
    {
      assert s[i] == t[i - k];
    }
  }

  /** `s.trim()`: the part of `s` between its leading and its trailing
      space, which neither starts nor ends with space. */
  function Trim(s: string): (r: string)
    ensures exists k :: InnerPart(s, r, k)
    ensures r != [] ==> !IsSpace(r[0]) && !IsSpace(r[|r| - 1])
  {
    var t := TrimStart(s);
    InnerOfSuffixPrefix(s, t, TrimEnd(t));
    TrimEnd(t)
  }

  /** `!comment.trim()` holds exactly for blank comments. */
  lemma TrimEmptyIffBlank(s: string)
    ensures Trim(s) == "" <==> Blank(s)
  {
    var t := TrimStart(s);
    if t != [] {
      assert !IsSpace(s[|s| - |t|]);
    }
  }

  /** The error `handleSubmit` reports, "" when it accepts: a blank comment
      first, then a rating outside 1..5. */
  function SubmitError(rating: int, comment: string): (e: string)
    ensures e == CommentRequired <==> Blank(comment)
    ensures e == RatingOutOfRange <==> !Blank(comment) && !(1 <= rating <= 5)
    ensures e == "" <==> !Blank(comment) && 1 <= rating <= 5
  {
    TrimEmptyIffBlank(comment);
    if Trim(comment) == "" then CommentRequired
    else if rating < 1 || rating > 5 then RatingOutOfRange
    else ""
  }

  /** `star <= (hoveredRating || rating)`: a hover value other than 0 is shown
      in place of the rating. */
  predicate StarLit(star: Star, hoveredRating: int, rating: int)
  {
    star <= (if hoveredRating != 0 then hoveredRating else rating)
  }

  /** How many of the first `n` star buttons are drawn lit. */
  function LitCount(hoveredRating: int, rating: int, n: nat): nat
    requires n <= 5
  {
    if n == 0 then 0
    else LitCount(hoveredRating, rating, n - 1) + (if StarLit(n, hoveredRating, rating) then 1 else 0)
  }

  /** With a rating and a hover value in range, exactly `shown` of the five
      buttons are lit, where `shown` is the hover value while hovering and the
      rating otherwise; being lit holds of a prefix of the buttons. */
  lemma {:induction false} LitCountIsShown(hoveredRating: int, rating: int, n: nat)
    requires 0 <= hoveredRating <= 5 && 1 <= rating <= 5 && n <= 5
    ensures var shown := if hoveredRating == 0 then rating else hoveredRating;
      LitCount(hoveredRating, rating, n) == if n <= shown then n else shown
  {
    if n > 0 {
      LitCountIsShown(hoveredRating, rating, n - 1);
    }
  }

  /** The payload `onSubmit` receives. */
  datatype Review = Review(rating: int, comment: string)

  class ReviewForm {
    var rating: int
    var comment: string
    var error: string
    var hoveredRating: int
    /** The calls made to `onSubmit`, oldest first. */
    var submitted: seq<Review>

    /** The rating is a star value and the hover value a star value or 0. */
    ghost predicate Valid()
      reads this
    {
      1 <= rating <= 5 && 0 <= hoveredRating <= 5
    }

    predicate Lit(star: Star)
      reads this
    {
      StarLit(star, hoveredRating, rating)
    }

    constructor ()
      ensures Valid()
      ensures rating == 5 && comment == "" && error == "" && hoveredRating == 0 && submitted == []
    {
      rating, comment, error, hoveredRating := 5, "", "", 0;
      submitted := [];
    }

    /** `onClick`: the clicked star becomes the rating. */
    method ClickStar(star: Star)
      modifies this
      ensures old(Valid()) ==> Valid()
      ensures rating == star
      ensures comment == old(comment) && error == old(error) && hoveredRating == old(hoveredRating) && submitted == old(submitted)
    {
      rating := star;
    }

    /** `onMouseEnter`: previews the star without changing the rating. */
    method HoverStar(star: Star)
      modifies this
      ensures old(Valid()) ==> Valid()
      ensures hoveredRating == star && forall s: Star :: Lit(s) <==> s <= star
      ensures rating == old(rating) && comment == old(comment) && error == old(error) && submitted == old(submitted)
    {
      hoveredRating := star;
    }

    /** `onMouseLeave`: the preview ends and the rating shows again. */
    method LeaveStar()
      modifies this
      ensures old(Valid()) ==> Valid()
      ensures hoveredRating == 0 && forall s: Star :: Lit(s) <==> s <= rating
      ensures rating == old(rating) && comment == old(comment) && error == old(error) && submitted == old(submitted)
    {
      hoveredRating := 0;
    }

    /** The textarea's `onChange`. */
    method EditComment(text: string)
      modifies this
      ensures old(Valid()) ==> Valid()
      ensures comment == text
      ensures rating == old(rating) && error == old(error) && hoveredRating == old(hoveredRating) && submitted == old(submitted)
    {
      comment := text;
    }

    /** `handleSubmit`: a rejected review sets the error and calls nothing; an
        accepted one clears the error and calls `onSubmit` once with the
        rating and the comment as typed (untrimmed). */
    method Submit()
      modifies this
      ensures old(Valid()) ==> Valid()
      ensures error == SubmitError(old(rating), old(comment))
      ensures error == "" ==> submitted == old(submitted) + [Review(rating, comment)]
      ensures error != "" ==> submitted == old(submitted)
      ensures rating == old(rating) && comment == old(comment) && hoveredRating == old(hoveredRating)
    {
      TrimEmptyIffBlank(comment);
      if Trim(comment) == "" {
        error := CommentRequired;
        return;
      }
      if rating < 1 || rating > 5 {
        error := RatingOutOfRange;
        return;
      }
      error := "";
      submitted := submitted + [Review(rating, comment)];
    }
  }
}

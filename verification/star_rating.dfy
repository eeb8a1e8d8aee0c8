/** The five-star widget: which stars are lit, and how hovering and clicking change it. */
module StarRating {
  import opened Common

  const StarCount := 5

  /** `[...Array(5)].map((_, index) => index + 1)`: the values of the five buttons. */
  function StarValues(): (vs: seq<int>)
    ensures |vs| == StarCount
    ensures forall k | 0 <= k < |vs| :: vs[k] == k + 1
  {
    seq(StarCount, k => k + 1)
  }

  /** `starValue <= (hover || rating)`: while the pointer rests on a star (`hover` is not
      0) the stars up to it are lit, otherwise those up to the rating. */
  predicate IsLit(star: int, hover: int, rating: int)
  {
    star <= (if hover != 0 then hover else rating)
  }

  /** The stars, in order, that are drawn lit. */
  function LitStars(stars: seq<int>, hover: int, rating: int): (lit: seq<int>)
    ensures forall s | s in lit :: s in stars && IsLit(s, hover, rating)
    ensures forall s | s in stars && IsLit(s, hover, rating) :: s in lit
    ensures |lit| <= |stars|
  {
    if stars == [] then []
    else (if IsLit(stars[0], hover, rating) then [stars[0]] else []) + LitStars(stars[1..], hover, rating)
  }

  /** The lit stars are always a prefix of the row: if a star is lit so is every star
      of smaller value. */
  lemma LitIsPrefix(hover: int, rating: int, j: int, k: int)
    requires 1 <= j <= k <= StarCount && IsLit(k, hover, rating)
    ensures IsLit(j, hover, rating)
  {
  }

  /** The consecutive values `from`, `from + 1`, …, `len` of them. */
  function Run(from: int, len: nat): (r: seq<int>)
    ensures |r| == len
    ensures forall k | 0 <= k < len :: r[k] == from + k
    decreases len
  {
    if len == 0 then [] else [from] + Run(from + 1, len - 1)
  }

  /** How many of the run starting at `from` lie at or below `level`. */
  function LitLength(level: int, from: int, len: nat): nat
  {
    if level < from then 0 else if level - from + 1 > len then len else level - from + 1
  }

  /** The value the stars are compared with: `hover || rating`. */
  function Level(hover: int, rating: int): int
  {
    if hover != 0 then hover else rating
  }

  /** Exactly the first `level` stars are lit, where `level` is `hover || rating` cut to
      the range 0..5. */
  lemma LitStarsAreFirst(hover: int, rating: int)
    ensures LitStars(StarValues(), hover, rating) == StarValues()[..LitLength(Level(hover, rating), 1, StarCount)]
  {
    var n := LitLength(Level(hover, rating), 1, StarCount);
    assert StarValues() == Run(1, StarCount);
    LitStarsOfRun(1, StarCount, hover, rating);
    assert Run(1, StarCount)[..n] == Run(1, n);
  }

  lemma {:induction false} LitStarsOfRun(from: int, len: nat, hover: int, rating: int)
    ensures LitStars(Run(from, len), hover, rating) == Run(from, LitLength(Level(hover, rating), from, len))
    decreases len
  {
    if len > 0 {
      var level := Level(hover, rating);
      assert Run(from, len)[1..] == Run(from + 1, len - 1);
      assert Run(from, len)[0] == from;
      LitStarsOfRun(from + 1, len - 1, hover, rating);
      if from <= level {
        assert LitLength(level, from, len) == 1 + LitLength(level, from + 1, len - 1);
      }
    }
  }

  /** The widget's own state: the star under the pointer (0 for none). `editable` is a
      prop that the component never changes; left out, it defaults to true. */
  class StarRatingState {
    var hover: int
    const editable: bool

    constructor (editable: Option<bool>)
      ensures this.editable == (editable.None? || editable.value) && hover == 0
    {
      this.editable := if editable.Some? then editable.value else true;
      hover := 0;
    }

    /** Whether the button with value `star` is drawn lit for the current `rating` prop. */
    function Highlighted(star: int, rating: int): (lit: bool)
      reads this
      ensures lit <==> star <= (if hover != 0 then hover else rating)
    {
      IsLit(star, hover, rating)
    }

    /** `onMouseEnter` of star `star`: only an editable widget follows the pointer. */
    method MouseEnter(star: int)
      requires star in StarValues()
      modifies this
      ensures hover == if editable then star else old(hover)
    {
      if editable {
        hover := star;
      }
    }

    /** `onMouseLeave`: an editable widget sets `hover` to the current rating. */
    method MouseLeave(rating: int)
      modifies this
      ensures hover == if editable then rating else old(hover)
    {
      if editable {
        hover := rating;
      }
    }

    /** `onClick` of star `star`: the value reported through `setRating`, if any. The
        buttons are `disabled` when the widget is not editable, and a disabled button
        produces no click. */
    method Click(star: int) returns (reported: Option<int>)
      requires star in StarValues()
      ensures reported == if editable then Some(star) else None
    {
      reported := if editable then Some(star) else None;
    }
  }
}

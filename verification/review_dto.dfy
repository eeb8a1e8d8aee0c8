/** The request body of `POST /api/reviews` and the checks its data-annotation
    attributes make before the controller runs. */
module CreateReviewDto {
  import opened Common

  /** The bound JSON body. `movieTitle` is `None` when the client sent `null`; a missing
      property takes the C# initialiser's value (see `Default`). `rating` is the `Rating`
      member that the controller reads and copies; the DTO class itself no longer
      declares it, so the model carries it as a value that is only passed along. */
  datatype Dto = Dto(
    movieId: int,
    movieTitle: Option<string>,
    posterPath: Option<string>,
    ratingTechnical: int,
    ratingEnjoyment: int,
    vibeTags: Option<string>,
    content: string,
    dateWatched: DateTime,
    rating: int)

  /** `new CreateReviewDto()`: every property at its initialiser or type default. */
  const Default := Dto(0, Some(""), None, 0, 0, None, "", DateTime(0, Unspecified), 0)

  const MaxContentLength := 500
  const ContentTooLongMessage := "Thoughts cannot exceed 500 characters."
  /** .NET's default messages for `[Required]` and `[Range(0, 100)]`. */
  const TitleRequiredMessage := "The MovieTitle field is required."
  const TechnicalRangeMessage := "The field RatingTechnical must be between 0 and 100."
  const EnjoymentRangeMessage := "The field RatingEnjoyment must be between 0 and 100."

  /** The properties that carry a validation attribute. */
  datatype Field = MovieTitle | RatingTechnical | RatingEnjoyment | Content

  datatype ValidationError = ValidationError(field: Field, message: string)

  /** The model-state errors in declaration order: `[Required]` on `MovieTitle`
      (null, empty or white space fails), `[Range(0, 100)]` on both ratings (inclusive),
      `[MaxLength(500)]` on `Content` with its custom message, measured like
      `string.Length` in UTF-16 code units. `[Required]` on the
      non-nullable `MovieId` can never fail and produces nothing. */
  function Validate(d: Dto): (errs: seq<ValidationError>)
    ensures Flags(errs, MovieTitle) <==> IsNullOrWhiteSpace(d.movieTitle)
    ensures Flags(errs, RatingTechnical) <==> !(0 <= d.ratingTechnical <= 100)
    ensures Flags(errs, RatingEnjoyment) <==> !(0 <= d.ratingEnjoyment <= 100)
    ensures Flags(errs, Content) <==> Utf16Length(d.content) > MaxContentLength
    ensures forall e | e in errs && e.field == Content :: e.message == ContentTooLongMessage
    ensures |errs| <= 4
  {
    var tooLong := Utf16Length(d.content) > MaxContentLength;
    var title := Check(IsNullOrWhiteSpace(d.movieTitle), MovieTitle, TitleRequiredMessage);
    var technical := Check(!(0 <= d.ratingTechnical <= 100), RatingTechnical, TechnicalRangeMessage);
    var enjoyment := Check(!(0 <= d.ratingEnjoyment <= 100), RatingEnjoyment, EnjoymentRangeMessage);
    var content := Check(tooLong, Content, ContentTooLongMessage);
    FlagsAppend(title, technical);
    FlagsAppend(title + technical, enjoyment);
    FlagsAppend(title + technical + enjoyment, content);
    title + technical + enjoyment + content
  }

  /** The error one attribute adds: none when its check passes, else one for `f`. */
  function Check(failed: bool, f: Field, message: string): (errs: seq<ValidationError>)
    ensures forall g :: Flags(errs, g) <==> failed && g == f
    ensures forall e | e in errs :: e == ValidationError(f, message)
    ensures |errs| == if failed then 1 else 0
  {
    var errs := if failed then [ValidationError(f, message)] else [];
    assert failed ==> errs[0] in errs;
    errs
  }

  /** The fields two error lists flag together are those either flags. */
  lemma {:induction false} FlagsAppend(a: seq<ValidationError>, b: seq<ValidationError>)
    ensures forall f :: Flags(a + b, f) <==> Flags(a, f) || Flags(b, f)
    ensures forall e | e in a + b :: e in a || e in b
  {
    if a != [] {
      assert (a + b)[1..] == a[1..] + b;
      FlagsAppend(a[1..], b);
    } else {
      assert a + b == b;
    }
  }

  /** Some error in `errs` is about field `f`. */
  predicate Flags(errs: seq<ValidationError>, f: Field)
  {
    errs != [] && (errs[0].field == f || Flags(errs[1..], f))
  }

  /** The request reaches the controller exactly when model validation reports nothing. */
  predicate Valid(d: Dto): (ok: bool)
    ensures ok <==> && !IsNullOrWhiteSpace(d.movieTitle)
                    && 0 <= d.ratingTechnical <= 100
                    && 0 <= d.ratingEnjoyment <= 100
                    && Utf16Length(d.content) <= MaxContentLength
  {
    var errs := Validate(d);
    assert errs != [] ==> Flags(errs, errs[0].field);
    errs == []
  }

  /** The range check is inclusive at both ends: 0 and 100 pass, -1 and 101 fail. */
  lemma RatingBounds(d: Dto)
    ensures Flags(Validate(d.(ratingTechnical := 0)), RatingTechnical) == false
    ensures Flags(Validate(d.(ratingTechnical := 100)), RatingTechnical) == false
    ensures Flags(Validate(d.(ratingTechnical := -1)), RatingTechnical)
    ensures Flags(Validate(d.(ratingTechnical := 101)), RatingTechnical)
    ensures Flags(Validate(d.(ratingEnjoyment := 0)), RatingEnjoyment) == false
    ensures Flags(Validate(d.(ratingEnjoyment := 100)), RatingEnjoyment) == false
    ensures Flags(Validate(d.(ratingEnjoyment := -1)), RatingEnjoyment)
    ensures Flags(Validate(d.(ratingEnjoyment := 101)), RatingEnjoyment)
  {
  }

  /** Neither a missing poster path nor missing vibe tags can make a body invalid:
      validity does not depend on those two properties at all. */
  lemma OptionalFieldsNeverInvalidate(d: Dto, poster: Option<string>, vibes: Option<string>)
    ensures Valid(d.(posterPath := poster, vibeTags := vibes)) == Valid(d)
  {
  }

  /** An untouched body fails only because it has no title; once a title is supplied
      it is valid, so the default empty `Content` passes the length check. */
  lemma DefaultNeedsOnlyATitle(title: string)
    requires !IsNullOrWhiteSpace(Some(title))
    ensures Validate(Default) == [ValidationError(MovieTitle, TitleRequiredMessage)]
    ensures Valid(Default.(movieTitle := Some(title)))
  {
  }

  /** The limit counts UTF-16 code units, not characters: 300 emoji outside the Basic
      Multilingual Plane are 600 units and are rejected, while 500 letters pass. */
  lemma LengthCountsCodeUnits(d: Dto)
    ensures Flags(Validate(d.(content := seq(300, _ => '\U{1F600}'))), Content)
    ensures !Flags(Validate(d.(content := seq(500, _ => 'a'))), Content)
  {
    var emoji: string := seq(300, _ => '\U{1F600}');
    Utf16LengthExtremes(emoji);
    var letters: string := seq(500, _ => 'a');
    Utf16LengthExtremes(letters);
  }
}

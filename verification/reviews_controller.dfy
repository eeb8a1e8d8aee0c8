/** The diary endpoints: `POST /api/reviews` finds or creates the reviewed movie and
    appends one review; `GET /api/reviews` lists every review, newest first, with its
    movie's title, poster and year. */
module ReviewsController {
  import opened Common
  import opened CreateReviewDto

  /** A row of the `Movies` table. */
  datatype Movie = Movie(
    id: int,
    title: string,
    tmdbId: int,
    year: int,
    posterPath: Option<string>,
    overview: Option<string>)

  /** A row of the `Reviews` table; `rating` is the value the controller copies from
      the request (see `CreateReviewDto.Dto`). */
  datatype Review = Review(
    id: int,
    content: string,
    ratingTechnical: int,
    ratingEnjoyment: int,
    vibeTags: Option<string>,
    createdAt: DateTime,
    userId: Option<string>,
    movieId: int,
    rating: int)

  /** The two tables the controller works on. */
  datatype Tables = Tables(movies: seq<Movie>, reviews: seq<Review>)

  predicate HasTmdbId(movies: seq<Movie>, tmdbId: int)
  {
    exists i | 0 <= i < |movies| :: movies[i].tmdbId == tmdbId
  }

  /** `Movies.FirstOrDefaultAsync(m => m.TmdbId == tmdbId)`: the first movie in table
      order with that TMDB id, or nothing. */
  function FindByTmdbId(movies: seq<Movie>, tmdbId: int): (r: Option<Movie>)
    ensures r.None? <==> !HasTmdbId(movies, tmdbId)
    ensures r.Some? ==> exists i | 0 <= i < |movies| :: movies[i] == r.value
                          && (forall j | 0 <= j < i :: movies[j].tmdbId != tmdbId)
    ensures r.Some? ==> r.value.tmdbId == tmdbId
  {
    if movies == [] then None
    else if movies[0].tmdbId == tmdbId then Some(movies[0])
    else
      var rest := FindByTmdbId(movies[1..], tmdbId);
      assert HasTmdbId(movies[1..], tmdbId) ==> HasTmdbId(movies, tmdbId) by {
        if HasTmdbId(movies[1..], tmdbId) {
          var k :| 0 <= k < |movies[1..]| && movies[1..][k].tmdbId == tmdbId;
          assert movies[k + 1].tmdbId == tmdbId;
        }
      }
      if rest.Some? then
        var k :| 0 <= k < |movies[1..]| && movies[1..][k] == rest.value
                 && (forall j | 0 <= j < k :: movies[1..][j].tmdbId != tmdbId);
        assert movies[k + 1] == rest.value;
        rest
      else rest
  }

  /** The movie row `PostReview` creates when none has the TMDB id: title, TMDB id and
      poster from the request, `Year` the current UTC year, no overview. */
  function NewMovie(id: int, dto: Dto, utcYear: int): (m: Movie)
    requires Valid(dto)
    ensures m.id == id && m.tmdbId == dto.movieId && m.year == utcYear
    // the stored title is the validated one, so never blank
    ensures Some(m.title) == dto.movieTitle && !IsNullOrWhiteSpace(Some(m.title))
    ensures m.posterPath == dto.posterPath && m.overview == None
  {
    Movie(id, dto.movieTitle.value, dto.movieId, utcYear, dto.posterPath, None)
  }

  /** The review row `PostReview` appends. The controller sets only `MovieId`, `Rating`,
      `Content` and `CreatedAt`; the dual ratings, the vibe tags and the user id keep
      their C# defaults. */
  function NewReview(id: int, movieId: int, dto: Dto, localOffset: int): (r: Review)
    ensures r.id == id && r.movieId == movieId && r.rating == dto.rating && r.content == dto.content
    // a validated body's thoughts still fit the column limit
    ensures CreateReviewDto.Valid(dto) ==> Utf16Length(r.content) <= MaxContentLength
    // the date is stored in UTC, shifted by the server's offset unless it already was UTC
    ensures r.createdAt.kind == Utc
    ensures dto.dateWatched.kind == Utc ==> r.createdAt == dto.dateWatched
    // the dual ratings and vibe tags the client sent are not stored, and no user is set
    ensures r.ratingTechnical == 0 && r.ratingEnjoyment == 0 && r.vibeTags == None && r.userId == None
  {
    Review(id, dto.content, 0, 0, None, ToUniversalTime(dto.dateWatched, localOffset), None, movieId, dto.rating)
  }

  /** The tables after `PostReview(dto)`, where `newMovieId` and `newReviewId` are the
      keys the database generates for any rows added, `utcYear` is
      `DateTime.UtcNow.Year` and `localOffset` the server's UTC offset. */
  function Post(t: Tables, dto: Dto, utcYear: int, localOffset: int, newMovieId: int, newReviewId: int): (r: Tables)
    requires Valid(dto)
    // the review table grows by exactly one row at the end; nothing before it changes
    ensures |r.reviews| == |t.reviews| + 1 && r.reviews[..|t.reviews|] == t.reviews
    // the movie table keeps its rows and grows by at most one
    ensures |t.movies| <= |r.movies| <= |t.movies| + 1 && r.movies[..|t.movies|] == t.movies
    // afterwards some movie carries the requested TMDB id
    ensures HasTmdbId(r.movies, dto.movieId)
    // an existing movie is reused and the table is untouched
    ensures HasTmdbId(t.movies, dto.movieId) ==>
              r.movies == t.movies && r.reviews[|t.reviews|].movieId == FindByTmdbId(t.movies, dto.movieId).value.id
    // otherwise exactly the new movie is added and the review points at it
    ensures !HasTmdbId(t.movies, dto.movieId) ==>
              r.movies == t.movies + [Movie(newMovieId, dto.movieTitle.value, dto.movieId, utcYear, dto.posterPath, None)]
              && r.reviews[|t.reviews|].movieId == newMovieId
    // the appended review carries the request's content and its watch date in UTC
    ensures var added := r.reviews[|t.reviews|];
            && added.id == newReviewId
            && added.content == dto.content
            && added.createdAt == ToUniversalTime(dto.dateWatched, localOffset)
            && added.createdAt.kind == Utc
            && added.rating == dto.rating
  {
    var found := FindByTmdbId(t.movies, dto.movieId);
    var movie := if found.Some? then found.value else NewMovie(newMovieId, dto, utcYear);
    var movies := if found.Some? then t.movies else t.movies + [movie];
    assert found.None? ==> movies[|movies| - 1] == movie;
    var reviews := t.reviews + [NewReview(newReviewId, movie.id, dto, localOffset)];
    assert reviews[..|t.reviews|] == t.reviews;
    assert movies[..|t.movies|] == t.movies;
    Tables(movies, reviews)
  }

  predicate MovieIdsUnique(movies: seq<Movie>)
  {
    forall i, j | 0 <= i < j < |movies| :: movies[i].id != movies[j].id
  }

  predicate ReviewIdsUnique(reviews: seq<Review>)
  {
    forall i, j | 0 <= i < j < |reviews| :: reviews[i].id != reviews[j].id
  }

  predicate HasMovieId(movies: seq<Movie>, id: int)
  {
    exists k | 0 <= k < |movies| :: movies[k].id == id
  }

  /** The foreign key from `Reviews.MovieId` to `Movies.Id`. */
  predicate Linked(t: Tables)
  {
    forall i | 0 <= i < |t.reviews| :: HasMovieId(t.movies, t.reviews[i].movieId)
  }

  /** What the database keeps true: unique primary keys and the foreign key. */
  predicate Consistent(t: Tables)
  {
    MovieIdsUnique(t.movies) && ReviewIdsUnique(t.reviews) && Linked(t)
  }

  /** No two movies share a TMDB id. */
  predicate TmdbIdsUnique(movies: seq<Movie>)
  {
    forall i, j | 0 <= i < j < |movies| :: movies[i].tmdbId != movies[j].tmdbId
  }

  /** With freshly generated keys, a post keeps the keys unique and the foreign key
      intact. */
  lemma PostKeepsConsistent(t: Tables, dto: Dto, utcYear: int, localOffset: int, newMovieId: int, newReviewId: int)
    requires Valid(dto) && Consistent(t)
    requires !HasMovieId(t.movies, newMovieId)
    requires forall i | 0 <= i < |t.reviews| :: t.reviews[i].id != newReviewId
    ensures Consistent(Post(t, dto, utcYear, localOffset, newMovieId, newReviewId))
  {
    var r := Post(t, dto, utcYear, localOffset, newMovieId, newReviewId);
    var n := |t.reviews|;
    forall i | 0 <= i < |t.movies|
      ensures r.movies[i] == t.movies[i]
    {
      assert r.movies[..|t.movies|][i] == t.movies[i];
    }
    forall i | 0 <= i < |r.reviews|
      ensures HasMovieId(r.movies, r.reviews[i].movieId)
    {
      if i < n {
        assert r.reviews[i] == r.reviews[..n][i];
        var k :| 0 <= k < |t.movies| && t.movies[k].id == t.reviews[i].movieId;
        assert r.movies[k].id == r.reviews[i].movieId;
      } else if HasTmdbId(t.movies, dto.movieId) {
        var m := FindByTmdbId(t.movies, dto.movieId).value;
        var k :| 0 <= k < |t.movies| && t.movies[k] == m;
        assert r.movies[k].id == r.reviews[i].movieId;
      } else {
        assert r.movies[|t.movies|].id == r.reviews[i].movieId;
      }
    }
    forall i, j | 0 <= i < j < |r.reviews|
      ensures r.reviews[i].id != r.reviews[j].id
    {
      assert r.reviews[i] == r.reviews[..n][i];
      if j < n { assert r.reviews[j] == r.reviews[..n][j]; }
    }
  }

  /** A post never gives a second movie the same TMDB id. */
  lemma PostKeepsTmdbIdsUnique(t: Tables, dto: Dto, utcYear: int, localOffset: int, newMovieId: int, newReviewId: int)
    requires Valid(dto) && TmdbIdsUnique(t.movies)
    ensures TmdbIdsUnique(Post(t, dto, utcYear, localOffset, newMovieId, newReviewId).movies)
  {
    var r := Post(t, dto, utcYear, localOffset, newMovieId, newReviewId);
    if !HasTmdbId(t.movies, dto.movieId) {
      forall i, j | 0 <= i < j < |r.movies|
        ensures r.movies[i].tmdbId != r.movies[j].tmdbId
      {
        assert r.movies[i] == t.movies[i];
        if j < |t.movies| {
          assert r.movies[j] == t.movies[j];
        }
      }
    }
  }

  /** Adding a movie whose TMDB id was absent makes it the one the next lookup finds. */
  lemma {:induction false} FindAfterAppend(movies: seq<Movie>, m: Movie)
    requires !HasTmdbId(movies, m.tmdbId)
    ensures FindByTmdbId(movies + [m], m.tmdbId) == Some(m)
  {
    if movies == [] {
    } else {
      assert (movies + [m])[1..] == movies[1..] + [m];
      FindAfterAppend(movies[1..], m);
    }
  }

  /** Appending rows never changes which movie a lookup that already succeeded finds. */
  lemma {:induction false} FindStableUnderAppend(movies: seq<Movie>, more: seq<Movie>, tmdbId: int)
    requires HasTmdbId(movies, tmdbId)
    ensures FindByTmdbId(movies + more, tmdbId) == FindByTmdbId(movies, tmdbId)
  {
    if movies[0].tmdbId != tmdbId {
      assert (movies + more)[1..] == movies[1..] + more;
      assert HasTmdbId(movies[1..], tmdbId) by {
        var k :| 0 <= k < |movies| && movies[k].tmdbId == tmdbId;
        assert movies[1..][k - 1].tmdbId == tmdbId;
      }
      FindStableUnderAppend(movies[1..], more, tmdbId);
    }
  }

  /** Two posts for the same TMDB id add two reviews but at most one movie, and both
      reviews point at the same movie. */
  lemma TwoPostsOneMovie(t: Tables, d1: Dto, d2: Dto, year1: int, year2: int, localOffset: int,
                         movieId1: int, reviewId1: int, movieId2: int, reviewId2: int)
    requires Valid(d1) && Valid(d2) && d1.movieId == d2.movieId
    ensures var r1 := Post(t, d1, year1, localOffset, movieId1, reviewId1);
            var r2 := Post(r1, d2, year2, localOffset, movieId2, reviewId2);
            && |r2.reviews| == |t.reviews| + 2
            && |r2.movies| <= |t.movies| + 1
            && r2.movies == r1.movies
            && r2.reviews[|t.reviews|].movieId == r2.reviews[|t.reviews| + 1].movieId
  {
    var r1 := Post(t, d1, year1, localOffset, movieId1, reviewId1);
    var r2 := Post(r1, d2, year2, localOffset, movieId2, reviewId2);
    assert r2.reviews[..|r1.reviews|] == r1.reviews;
    assert r2.reviews[|t.reviews|] == r1.reviews[|t.reviews|];
    if HasTmdbId(t.movies, d1.movieId) {
      FindStableUnderAppend(t.movies, [], d1.movieId);
      assert t.movies + [] == t.movies;
    } else {
      FindAfterAppend(t.movies, NewMovie(movieId1, d1, year1));
    }
  }

  /** The movie fields `GetReviews` attaches to each review. */
  datatype MovieSummary = MovieSummary(title: string, posterPath: Option<string>, year: int)

  /** One element of the `GetReviews` response. */
  datatype ReviewView = ReviewView(id: int, rating: int, content: string, createdAt: DateTime, movie: MovieSummary)

  /** The movie with primary key `id`. */
  function MovieById(movies: seq<Movie>, id: int): (m: Movie)
    requires HasMovieId(movies, id)
    ensures m in movies && m.id == id
  {
    if movies[0].id == id then movies[0]
    else
      assert HasMovieId(movies[1..], id) by {
        var k :| 0 <= k < |movies| && movies[k].id == id;
        assert movies[1..][k - 1].id == id;
      }
      MovieById(movies[1..], id)
  }

  /** The anonymous object the `Select` builds for one review (`r.Movie` is the row the
      foreign key points at). */
  function Project(movies: seq<Movie>, r: Review): ReviewView
    requires HasMovieId(movies, r.movieId)
  {
    var m := MovieById(movies, r.movieId);
    ReviewView(r.id, r.rating, r.content, r.createdAt, MovieSummary(m.title, m.posterPath, m.year))
  }

  function Projected(movies: seq<Movie>, reviews: seq<Review>): (vs: seq<ReviewView>)
    requires forall i | 0 <= i < |reviews| :: HasMovieId(movies, reviews[i].movieId)
    ensures |vs| == |reviews|
    ensures forall i | 0 <= i < |vs| :: vs[i] == Project(movies, reviews[i])
  {
    if reviews == [] then [] else [Project(movies, reviews[0])] + Projected(movies, reviews[1..])
  }

  /** `CreatedAt` never increases along the list. */
  predicate NewestFirstOrder(vs: seq<ReviewView>)
  {
    forall i, j | 0 <= i < j < |vs| :: vs[j].createdAt.ticks <= vs[i].createdAt.ticks
  }

  /** Puts `v` before the first element that is not newer than it. */
  function Insert(v: ReviewView, vs: seq<ReviewView>): (r: seq<ReviewView>)
    ensures multiset(r) == multiset(vs) + multiset{v}
  {
    if vs == [] then [v]
    else if vs[0].createdAt.ticks <= v.createdAt.ticks then [v] + vs
    else
      assert vs == [vs[0]] + vs[1..];
      [vs[0]] + Insert(v, vs[1..])
  }

  lemma {:induction false} InsertKeepsOrder(v: ReviewView, vs: seq<ReviewView>)
    requires NewestFirstOrder(vs)
    ensures NewestFirstOrder(Insert(v, vs))
  {
    if vs == [] {
    } else if vs[0].createdAt.ticks <= v.createdAt.ticks {
      ConsKeepsOrder(v, vs);
    } else {
      InsertKeepsOrder(v, vs[1..]);
      InsertBounded(v, vs[1..], vs[0].createdAt.ticks);
      ConsKeepsOrder(vs[0], Insert(v, vs[1..]));
    }
  }

  /** Inserting never brings in anything newer than a bound all the elements respect. */
  lemma {:induction false} InsertBounded(v: ReviewView, vs: seq<ReviewView>, bound: int)
    requires v.createdAt.ticks <= bound
    requires forall i | 0 <= i < |vs| :: vs[i].createdAt.ticks <= bound
    ensures forall i | 0 <= i < |Insert(v, vs)| :: Insert(v, vs)[i].createdAt.ticks <= bound
  {
    if vs != [] && vs[0].createdAt.ticks > v.createdAt.ticks {
      InsertBounded(v, vs[1..], bound);
    }
  }

  /** An element no older than everything after it may lead a newest-first list. */
  lemma ConsKeepsOrder(x: ReviewView, rest: seq<ReviewView>)
    requires NewestFirstOrder(rest)
    requires forall i | 0 <= i < |rest| :: rest[i].createdAt.ticks <= x.createdAt.ticks
    ensures NewestFirstOrder([x] + rest)
  {
    var r := [x] + rest;
    forall i, j | 0 <= i < j < |r| ensures r[j].createdAt.ticks <= r[i].createdAt.ticks {
      assert r[j] == rest[j - 1];
      if i > 0 {
        assert r[i] == rest[i - 1];
      }
    }
  }

  /** `OrderByDescending(r => r.CreatedAt)`. */
  function NewestFirst(vs: seq<ReviewView>): (r: seq<ReviewView>)
    ensures multiset(r) == multiset(vs)
    ensures NewestFirstOrder(r)
  {
    if vs == [] then []
    else
      assert vs == [vs[0]] + vs[1..];
      InsertKeepsOrder(vs[0], NewestFirst(vs[1..]));
      Insert(vs[0], NewestFirst(vs[1..]))
  }

  /** `GET /api/reviews`: every review exactly once, as its projection, newest first.
      Ordering and projecting commute here because the projection keeps `CreatedAt`. */
  function GetReviews(t: Tables): (r: seq<ReviewView>)
    requires Linked(t)
    ensures |r| == |t.reviews|
    ensures multiset(r) == multiset(Projected(t.movies, t.reviews))
    ensures NewestFirstOrder(r)
    ensures forall v | v in r :: exists i | 0 <= i < |t.reviews| ::
              && v.id == t.reviews[i].id
              && v.createdAt == t.reviews[i].createdAt
              && v.content == t.reviews[i].content
              && v.movie.title == MovieById(t.movies, t.reviews[i].movieId).title
              && v.movie.posterPath == MovieById(t.movies, t.reviews[i].movieId).posterPath
              && v.movie.year == MovieById(t.movies, t.reviews[i].movieId).year
  {
    var vs := Projected(t.movies, t.reviews);
    var r := NewestFirst(vs);
    assert |r| == |multiset(r)| == |multiset(vs)| == |vs|;
    forall v | v in r
      ensures exists i | 0 <= i < |t.reviews| :: v == Project(t.movies, t.reviews[i])
    {
      assert v in multiset(vs);
      var i :| 0 <= i < |vs| && vs[i] == v;
    }
    r
  }

  /** Rows kept from `before` plus rows keyed by the old counters stay below the
      counters once each has moved on by one. */
  lemma KeysBelowCounters(before: Tables, after: Tables, movieId: int, reviewId: int)
    requires forall i | 0 <= i < |before.movies| :: before.movies[i].id < movieId
    requires forall i | 0 <= i < |before.reviews| :: before.reviews[i].id < reviewId
    requires |before.movies| <= |after.movies| <= |before.movies| + 1
    requires after.movies[..|before.movies|] == before.movies
    requires |after.movies| > |before.movies| ==> after.movies[|before.movies|].id == movieId
    requires |after.reviews| == |before.reviews| + 1 && after.reviews[..|before.reviews|] == before.reviews
    requires after.reviews[|before.reviews|].id == reviewId
    ensures forall i | 0 <= i < |after.movies| ::
              after.movies[i].id < if |after.movies| > |before.movies| then movieId + 1 else movieId
    ensures forall i | 0 <= i < |after.reviews| :: after.reviews[i].id < reviewId + 1
  {
    forall i | 0 <= i < |before.movies| ensures after.movies[i] == before.movies[i] {
      assert after.movies[..|before.movies|][i] == after.movies[i];
    }
    forall i | 0 <= i < |before.reviews| ensures after.reviews[i] == before.reviews[i] {
      assert after.reviews[..|before.reviews|][i] == after.reviews[i];
    }
  }

  /** The server's database context, as far as these endpoints use it. The identity
      columns are counters: every key handed out is above every key in the table. */
  class ReviewStore {
    var movies: seq<Movie>
    var reviews: seq<Review>
    var nextMovieId: int
    var nextReviewId: int

    function Contents(): Tables
      reads this
    {
      Tables(movies, reviews)
    }

    ghost predicate Valid()
      reads this
    {
      && Consistent(Contents())
      && TmdbIdsUnique(movies)
      && (forall i | 0 <= i < |movies| :: movies[i].id < nextMovieId)
      && (forall i | 0 <= i < |reviews| :: reviews[i].id < nextReviewId)
    }

    constructor ()
      ensures Valid() && Contents() == Tables([], [])
    {
      movies, reviews := [], [];
      nextMovieId, nextReviewId := 1, 1;
    }

    /** `PostReview`: find or create the movie, save, append the review, save, and
        return the review. Only ever called with a body that passed validation. */
    method PostReview(dto: Dto, utcYear: int, localOffset: int) returns (review: Review)
      requires Valid() && CreateReviewDto.Valid(dto)
      modifies this
      ensures Valid()
      ensures Contents() == Post(old(Contents()), dto, utcYear, localOffset, old(nextMovieId), old(nextReviewId))
      ensures review == reviews[|reviews| - 1]
      ensures !HasMovieId(old(movies), review.movieId) ==> review.movieId == old(nextMovieId)
    {
      ghost var before := Contents();
      ghost var oldMovieId, oldReviewId := nextMovieId, nextReviewId;
      var movie: Movie;
      var found := FindByTmdbId(movies, dto.movieId);
      ghost var after := Post(before, dto, utcYear, localOffset, oldMovieId, oldReviewId);
      if found.Some? {
        movie := found.value;
        ghost var k :| 0 <= k < |movies| && movies[k] == movie;
        assert HasMovieId(movies, movie.id);
      } else {
        movie := NewMovie(nextMovieId, dto, utcYear);
        movies := movies + [movie];
        nextMovieId := nextMovieId + 1;
      }
      assert movies == after.movies;
      review := NewReview(nextReviewId, movie.id, dto, localOffset);
      reviews := reviews + [review];
      nextReviewId := nextReviewId + 1;
      assert reviews == after.reviews;
      PostKeepsConsistent(before, dto, utcYear, localOffset, oldMovieId, oldReviewId);
      PostKeepsTmdbIdsUnique(before, dto, utcYear, localOffset, oldMovieId, oldReviewId);
      KeysBelowCounters(before, Contents(), oldMovieId, oldReviewId);
    }
  }
}

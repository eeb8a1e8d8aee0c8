/** The "Log Entry" form: two percentage sliders, up to three vibe tags, a date and a
    text of at most 500 characters, posted to `/reviews` as one request body. */
module LogMovieModal {
  import opened Common
  import CreateReviewDto

  /** The ids of the `VIBES` buttons, in display order. */
  const VibeIds: seq<string> := ["visual", "brain", "tear", "zzz", "fire"]

  const MaxVibes := 3

  /** `selected.filter(v => v !== id)`. */
  function Without(selected: seq<string>, id: string): (r: seq<string>)
    ensures id !in r
    ensures forall v | v in selected && v != id :: v in r
    ensures forall v | v in r :: v in selected
    ensures |r| <= |selected|
  {
    if selected == [] then []
    else if selected[0] == id then Without(selected[1..], id)
    else [selected[0]] + Without(selected[1..], id)
  }

  /** `toggleVibe(id)`: a selected id is removed; an unselected one is appended while
      fewer than three are selected and ignored otherwise. */
  function ToggleVibe(selected: seq<string>, id: string): (r: seq<string>)
    ensures id in selected ==> r == Without(selected, id)
    ensures id !in selected && |selected| < MaxVibes ==> r == selected + [id]
    ensures id !in selected && |selected| >= MaxVibes ==> r == selected
  {
    if id in selected then Without(selected, id)
    else if |selected| < MaxVibes then selected + [id]
    else selected
  }

  predicate NoDuplicates(s: seq<string>)
  {
    forall i, j | 0 <= i < j < |s| :: s[i] != s[j]
  }

  /** What the selection always satisfies: at most three ids, none twice. */
  predicate GoodSelection(s: seq<string>)
  {
    |s| <= MaxVibes && NoDuplicates(s)
  }

  lemma {:induction false} WithoutKeepsNoDuplicates(s: seq<string>, id: string)
    requires NoDuplicates(s)
    ensures NoDuplicates(Without(s, id))
  {
    if s != [] {
      WithoutKeepsNoDuplicates(s[1..], id);
      if s[0] != id {
        var rest := Without(s[1..], id);
        assert s[0] !in s[1..];
        assert s[0] !in rest;
        var r := [s[0]] + rest;
        forall i, j | 0 <= i < j < |r| ensures r[i] != r[j] {
          if i == 0 {
            assert r[j] == rest[j - 1];
            assert r[j] in rest;
          } else {
            assert r[i] == rest[i - 1] && r[j] == rest[j - 1];
          }
        }
      }
    }
  }

  /** Every toggle keeps a good selection good, so from the initial `[]` the selection
      never holds more than three ids or the same id twice. */
  lemma ToggleKeepsGoodSelection(s: seq<string>, id: string)
    requires GoodSelection(s)
    ensures GoodSelection(ToggleVibe(s, id))
  {
    if id in s {
      WithoutKeepsNoDuplicates(s, id);
    }
  }

  /** Removing an id that is not there changes nothing. */
  lemma {:induction false} WithoutAbsent(s: seq<string>, id: string)
    requires id !in s
    ensures Without(s, id) == s
  {
    if s != [] {
      WithoutAbsent(s[1..], id);
    }
  }

  lemma {:induction false} WithoutAppended(s: seq<string>, id: string)
    requires id !in s
    ensures Without(s + [id], id) == s
  {
    if s == [] {
      assert Without([id][1..], id) == [];
    } else {
      assert (s + [id])[1..] == s[1..] + [id];
      WithoutAppended(s[1..], id);
    }
  }

  /** Selecting an id when there is room and toggling it again restores the selection. */
  lemma ToggleTwiceRestores(s: seq<string>, id: string)
    requires id !in s && |s| < MaxVibes
    ensures ToggleVibe(ToggleVibe(s, id), id) == s
  {
    WithoutAppended(s, id);
  }

  /** Removal keeps the other ids in their order: `Without` of a selection with no
      duplicates is the selection with the one position of `id` cut out. */
  lemma {:induction false} WithoutCutsOnePosition(s: seq<string>, id: string, k: nat)
    requires NoDuplicates(s) && k < |s| && s[k] == id
    ensures Without(s, id) == s[..k] + s[k + 1..]
  {
    if k == 0 {
      assert id !in s[1..];
      WithoutAbsent(s[1..], id);
    } else {
      assert NoDuplicates(s[1..]) by {
        forall i, j | 0 <= i < j < |s[1..]| ensures s[1..][i] != s[1..][j] {
          assert s[1..][i] == s[i + 1] && s[1..][j] == s[j + 1];
        }
      }
      WithoutCutsOnePosition(s[1..], id, k - 1);
      assert s[..k] == [s[0]] + s[1..][..k - 1];
      assert s[k + 1..] == s[1..][k..];
    }
  }

  /** JavaScript's `parts.join(sep)`. */
  function Join(parts: seq<string>, sep: string): (r: string)
    ensures parts == [] ==> r == ""
    ensures |parts| == 1 ==> r == parts[0]
  {
    if parts == [] then ""
    else if |parts| == 1 then parts[0]
    else parts[0] + sep + Join(parts[1..], sep)
  }

  /** Reading the stored comma-separated tags back: the maximal comma-free pieces. */
  function SplitOnComma(s: string): (r: seq<string>)
    decreases |s|
  {
    if s == "" then []
    else SplitFrom(s, 0)
  }

  function SplitFrom(s: string, i: nat): seq<string>
    requires i <= |s|
    decreases |s| - i
  {
    if i == |s| then [s]
    else if s[i] == ',' then [s[..i]] + SplitFrom(s[i + 1..], 0)
    else SplitFrom(s, i + 1)
  }

  predicate CommaFree(t: string)
  {
    forall i | 0 <= i < |t| :: t[i] != ','
  }

  lemma {:induction false} SplitFromPiece(piece: string, rest: string, i: nat)
    requires CommaFree(piece) && i <= |piece|
    ensures SplitFrom(piece + rest, i) ==
              if rest == "" then [piece]
              else if rest[0] == ',' then [piece] + SplitFrom(rest[1..], 0)
              else SplitFrom(piece + rest, |piece|)
    decreases |piece| - i
  {
    var s := piece + rest;
    if i < |piece| {
      assert s[i] == piece[i];
      SplitFromPiece(piece, rest, i + 1);
    } else {
      if rest != "" && rest[0] == ',' {
        assert s[..i] == piece;
        assert s[i + 1..] == rest[1..];
      }
      if rest == "" {
        assert s == piece;
      }
    }
  }

  /** The joined tags read back as the same tags, provided no tag is empty or holds a
      comma — as is the case for every `VIBES` id. */
  lemma {:induction false} SplitJoin(parts: seq<string>)
    requires forall k | 0 <= k < |parts| :: parts[k] != "" && CommaFree(parts[k])
    ensures SplitOnComma(Join(parts, ",")) == parts
  {
    if parts == [] {
    } else if |parts| == 1 {
      SplitFromPiece(parts[0], "", 0);
      assert parts[0] + "" == parts[0];
    } else {
      var rest := Join(parts[1..], ",");
      SplitFromPiece(parts[0], "," + rest, 0);
      assert ("," + rest)[1..] == rest;
      assert parts[0] + "," + rest == parts[0] + ("," + rest);
      SplitJoin(parts[1..]);
      assert rest != "" by {
        JoinNonEmpty(parts[1..]);
      }
    }
  }

  lemma {:induction false} JoinNonEmpty(parts: seq<string>)
    requires parts != [] && parts[0] != ""
    ensures Join(parts, ",") != ""
  {
    if |parts| > 1 {
      assert Join(parts, ",")[0] == parts[0][0];
    }
  }

  lemma VibeIdsWellFormed()
    ensures forall v | v in VibeIds :: v != "" && CommaFree(v)
  {
    forall v | v in VibeIds ensures v != "" && CommaFree(v) {
      if v == "visual" {
      } else if v == "brain" {
      } else if v == "tear" {
      } else if v == "zzz" {
      } else {
        assert v == "fire";
      }
    }
  }

  /** For any selection of `VIBES` ids the submitted `vibeTags` string lists exactly the
      selected ids in selection order. */
  lemma VibeTagsRoundTrip(selected: seq<string>)
    requires forall k | 0 <= k < |selected| :: selected[k] in VibeIds
    ensures SplitOnComma(Join(selected, ",")) == selected
  {
    VibeIdsWellFormed();
    SplitJoin(selected);
  }

  /** A slider position: `<input type="range" min="0" max="100">` yields only these. */
  type Percent = x: int | 0 <= x <= 100

  /** The `<textarea maxLength={500}>` content; the browser counts UTF-16 code units. */
  type Thoughts = t: string | Utf16Length(t) <= CreateReviewDto.MaxContentLength

  /** The movie the modal was opened for, as TMDB describes it. */
  datatype TmdbMovie = TmdbMovie(id: int, title: Option<string>, posterPath: Option<string>, releaseDate: Option<string>)

  /** The modal's form state. `dateWatched` is the `<input type="date">` value: a date,
      or `None` once the user has cleared the input (its value is then ""). */
  datatype Form = Form(
    ratingTechnical: Percent,
    ratingEnjoyment: Percent,
    selectedVibes: seq<string>,
    review: Thoughts,
    dateWatched: Option<DateTime>,
    loading: bool)

  /** The state the hooks start in: both sliders at 50, no vibes, no text, and the UTC
      calendar date (`toISOString`) at the moment the page mounted the modal. The page keeps the modal mounted and the
      hooks run before the `isOpen` test, so this is the form only at the first
      opening; closing and reopening keeps whatever the form then holds. */
  function InitialForm(today: DateTime): (f: Form)
    ensures f.ratingTechnical == 50 && f.ratingEnjoyment == 50
    ensures f.selectedVibes == [] && f.review == "" && f.dateWatched == Some(today)
    ensures GoodSelection(f.selectedVibes) && !f.loading
  {
    Form(50, 50, [], "", Some(today), false)
  }

  /** The body `handleSubmit` posts, as the server binds it: the selection joined with
      commas in order. The `releaseDate` the client also sends has no property in the
      server's DTO, so binding drops it; `Rating` is absent from the body and binds to 0.
      A cleared date is sent as "", which cannot bind to a `DateTime`: the request is
      refused with 400 before validation, so there is no bound body (`None`). */
  function Payload(f: Form, movie: TmdbMovie): (d: Option<CreateReviewDto.Dto>)
    ensures d.Some? <==> f.dateWatched.Some?
    ensures d.Some? ==> d.value.dateWatched == f.dateWatched.value
    ensures d.Some? ==> d.value.vibeTags == Some(Join(f.selectedVibes, ","))
    ensures d.Some? ==> d.value.ratingTechnical == f.ratingTechnical && d.value.ratingEnjoyment == f.ratingEnjoyment
    ensures d.Some? ==> d.value.content == f.review && d.value.movieId == movie.id && d.value.movieTitle == movie.title
    ensures d.Some? ==> d.value.posterPath == movie.posterPath && d.value.rating == 0
  {
    if f.dateWatched.None? then None
    else
      Some(CreateReviewDto.Dto(movie.id, movie.title, movie.posterPath, f.ratingTechnical, f.ratingEnjoyment,
                               Some(Join(f.selectedVibes, ",")), f.review, f.dateWatched.value, 0))
  }

  /** The server stores the entry exactly when the date input holds a date and the movie
      has a title that is not blank: whatever the sliders and the text area hold, the
      body passes the range and length checks. */
  lemma PayloadPassesServerChecks(f: Form, movie: TmdbMovie)
    ensures (Payload(f, movie).Some? && CreateReviewDto.Valid(Payload(f, movie).value))
              <==> f.dateWatched.Some? && !IsNullOrWhiteSpace(movie.title)
  {
  }

  /** What the user sees after `handleSubmit`: the modal closes on success, an alert
      appears on failure, and `loading` is false either way. */
  datatype SubmitResult = SubmitResult(form: Form, closed: bool, alerted: bool)

  function Submit(f: Form, posted: bool): (r: SubmitResult)
    ensures !r.form.loading
    ensures r.closed <==> posted
    ensures r.alerted <==> !posted
    ensures r.form == f.(loading := false)
  {
    SubmitResult(f.(loading := false), posted, !posted)
  }

  /** A successful post closes the modal without resetting the form, so the next
      opening, even for another movie, starts from the entry just saved: submitting
      again unedited sends the same text, vibes, ratings and date for the new movie. */
  lemma NextEntryStartsFromLastOne(f: Form, movie: TmdbMovie, next: TmdbMovie)
    requires f.dateWatched.Some?
    ensures var g := Submit(f, true).form;
            && g == f.(loading := false)
            && Payload(g, next).Some?
            && Payload(g, next).value.content == Payload(f, movie).value.content
            && Payload(g, next).value.vibeTags == Payload(f, movie).value.vibeTags
            && Payload(g, next).value.dateWatched == Payload(f, movie).value.dateWatched
            && Payload(g, next).value.movieId == next.id
  {
  }
}

# Kino: a Dafny model of the diary server's rules and the client's state machines

Kino is a film diary. An ASP.NET server stores movies, reviews and user profiles.
A React client lets people log films, like reviews in a feed, edit a profile and sign up.

This project models the parts of both that follow exact rules, and proves what those
rules guarantee:

- **Server** (`review_dto.dfy`, `reviews_controller.dfy`, `users_controller.dfy`):
  - the validation attributes of the review request body;
  - `PostReview`, which finds or creates the movie by its TMDB id and then appends one
    review. It is modelled as a class over the two tables, proved equal to a
    specification function `Post`; lemmas about `Post` state what a post keeps;
  - `GetReviews`, the newest-first projection of the diary;
  - the profile search: blank query, case-insensitive substring, at most ten results.
- **Client rules** (`log_movie_modal.dfy`, `feed.dfy`, `profile.dfy`, `star_rating.dfy`):
  - the vibe-tag toggle and how the tags are joined on submit;
  - the optimistic like toggle;
  - the profile statistics, recent tiles and fallbacks;
  - star highlighting and hover.
- **Client state machines** (`auth_modal.dfy`, `register_page.dfy`, `auth_context.dfy`):
  the five-step sign-in wizard, the two-step register page and the session context.
  Each is a class whose methods are the event handlers. Each network answer is an
  input: success with its data, or failure with its message.

Three methods, `AuthModal.SignUpScenario`, `RegisterPage.SignUpScenario` and `AuthContext.SessionScenario`, are worked examples: each runs a class through a sequence of events and asserts what the contracts imply along the way. They model no single source function and have no row below.

`common.dfy` holds what several modules share:
- `Option`, for C# `null` and JavaScript `null`/`undefined`;
- .NET's `string.IsNullOrWhiteSpace`;
- JavaScript's `a || fallback` on strings;
- .NET's `DateTime` with `ToUniversalTime`;
- string lengths counted in UTF-16 code units, as .NET's `string.Length` and the browser's `maxLength` count them.

Things the model cannot compute are parameters:
- the clock (the current UTC year, the server's UTC offset);
- the generated database keys;
- culture-aware lower- and upper-casing;
- the browser's date parsing;
- JWT payload decoding.

## Model

| member | source | states |
|---|---|---|
| Common.BlankConcat | Kino.Server/Controllers/UsersController.cs:21 | null and the empty string are blank; two strings joined are blank iff both are |
| Common.Utf16Length | Kino.Server/DTOs/CreateReviewDto.cs:25 | a string of n characters takes between n and 2n UTF-16 code units |
| Common.Utf16LengthExtremes | Kino.Server/DTOs/CreateReviewDto.cs:25 | exactly n code units iff no character is above U+FFFF; exactly 2n iff every one is |
| Common.Utf16LengthAppend | Kino.Server/DTOs/CreateReviewDto.cs:25 | the code units of two strings joined are the sum of theirs |
| Common.FirstUnit | kino-client/src/pages/Profile.tsx:76 | a character up to U+FFFF is its own first code unit; above it, the first unit is a high surrogate in D800..DBFF that fixes the top ten bits of the character's offset from U+10000 |
| Common.ToUniversalTime | Kino.Server/Controllers/ReviewsController.cs:51 | the result is UTC; a UTC date is unchanged; any other date is shifted back by the UTC offset, and a result below `DateTime.MinValue` or above `DateTime.MaxValue` becomes that bound |
| Common.ConversionStaysInRange | Kino.Server/Controllers/ReviewsController.cs:51 | east of UTC the default date (`MinValue`, unspecified kind) converts to `MinValue`; west of UTC `MaxValue` converts to `MaxValue` |
| CreateReviewDto.Validate | Kino.Server/DTOs/CreateReviewDto.cs:7-28 | a title error iff the title is null, empty or white space; a rating error iff that rating is outside 0..100 inclusive; a content error iff the content is longer than 500 UTF-16 code units (a character above U+FFFF counts twice), always with the message "Thoughts cannot exceed 500 characters."; at most four errors |
| CreateReviewDto.Valid | Kino.Server/DTOs/CreateReviewDto.cs:7-28 | a body is accepted iff the title is present and not blank, both ratings lie in 0..100, and the content has at most 500 UTF-16 code units |
| CreateReviewDto.RatingBounds | Kino.Server/DTOs/CreateReviewDto.cs:16-20 | for both ratings, 0 and 100 are accepted and -1 and 101 are rejected |
| CreateReviewDto.OptionalFieldsNeverInvalidate | Kino.Server/DTOs/CreateReviewDto.cs:13-22 | whatever the poster path and vibe tags are, including missing, validity does not change |
| CreateReviewDto.LengthCountsCodeUnits | Kino.Server/DTOs/CreateReviewDto.cs:25 | 300 characters above U+FFFF (600 code units) are too long, while 500 letters are not |
| CreateReviewDto.DefaultNeedsOnlyATitle | Kino.Server/DTOs/CreateReviewDto.cs:10-26 | an untouched body fails only on the required title; with any non-blank title it is valid, so the default empty content passes |
| ReviewsController.FindByTmdbId | Kino.Server/Controllers/ReviewsController.cs:25-26 | no result iff no movie has the TMDB id; otherwise the result is a movie with that id, and no earlier row has it |
| ReviewsController.NewMovie | Kino.Server/Controllers/ReviewsController.cs:31-39 | a created movie has the requested TMDB id, title and poster, the current UTC year and no overview; its title, having passed validation, is never blank |
| ReviewsController.NewReview | Kino.Server/Controllers/ReviewsController.cs:46-52 | the new review has the request's content and rating and the chosen movie; the date is stored as UTC, unchanged if it already was; a validated text still fits 500 code units; the two percentage ratings and the vibe tags are not stored and no user is set |
| ReviewsController.Post | Kino.Server/Controllers/ReviewsController.cs:22-58 | exactly one review is appended and earlier reviews are unchanged; the movie table keeps its rows and grows by at most one; afterwards a movie with the requested TMDB id exists; an existing movie is reused and the movie table is untouched; otherwise exactly one movie is added, with the request's title, TMDB id and poster and the current UTC year; the new review points at that movie and carries the request's content and rating, and the watch date converted to UTC and kept inside the range of `DateTime` |
| ReviewsController.PostKeepsConsistent | Kino.Server/Controllers/ReviewsController.cs:41-55 | with fresh keys, a post keeps movie and review keys unique and every review pointing at an existing movie |
| ReviewsController.PostKeepsTmdbIdsUnique | Kino.Server/Controllers/ReviewsController.cs:25-43 | a post never gives two movies the same TMDB id |
| ReviewsController.FindAfterAppend | Kino.Server/Controllers/ReviewsController.cs:25-41 | a movie added because its TMDB id was absent is the one the next lookup finds |
| ReviewsController.FindStableUnderAppend | Kino.Server/Controllers/ReviewsController.cs:25-26 | adding rows never changes which movie a lookup that already succeeded finds |
| ReviewsController.TwoPostsOneMovie | Kino.Server/Controllers/ReviewsController.cs:25-55 | two posts for the same TMDB id add two reviews and at most one movie, and the second post adds no movie; both reviews point at the same movie |
| ReviewsController.MovieById | Kino.Server/Controllers/ReviewsController.cs:65 | the movie that a review's foreign key points at is a row of the table with that key |
| ReviewsController.Projected | Kino.Server/Controllers/ReviewsController.cs:67-79 | one view per review, in the same order, each the review's id, rating, content and date with its movie's title, poster and year |
| ReviewsController.Insert | Kino.Server/Controllers/ReviewsController.cs:66 | inserting a view adds exactly that view to the list, as a multiset |
| ReviewsController.InsertKeepsOrder | Kino.Server/Controllers/ReviewsController.cs:66 | inserting into a newest-first list keeps it newest first |
| ReviewsController.NewestFirst | Kino.Server/Controllers/ReviewsController.cs:66 | the result is a permutation of the input with `CreatedAt` never increasing |
| ReviewsController.GetReviews | Kino.Server/Controllers/ReviewsController.cs:62-83 | every review appears exactly once, as its projection, with `CreatedAt` never increasing; each entry has its review's id, content and date, and its own movie's title, poster and year |
| ReviewsController.ReviewStore.PostReview | Kino.Server/Controllers/ReviewsController.cs:22-58 | the tables after the call are `Post` of the tables before it, with the next generated keys; the returned review is the last row; the key and foreign-key invariants, and the uniqueness of TMDB ids, hold again afterwards |
| UsersController.ContainsIsOccurrence | Kino.Server/Controllers/UsersController.cs:24 | the recursive substring test holds iff some suffix of the text starts with the query |
| UsersController.Matches | Kino.Server/Controllers/UsersController.cs:24 | a profile matches iff the query, lowered on the .NET side, occurs in the display name lowered by the database |
| UsersController.CountMatches | Kino.Server/Controllers/UsersController.cs:24 | the number of matching rows never exceeds the number of rows |
| UsersController.Matching | Kino.Server/Controllers/UsersController.cs:23-25 | one entry per matching row: the length is the number of matching rows; every entry is the display name, avatar and user id of a stored profile whose lowered name contains the lowered query; every such profile contributes its entry |
| UsersController.MatchingAppend | Kino.Server/Controllers/UsersController.cs:24-25 | the filter keeps table order: the matches of two parts of the table, one after the other, are the matches of the whole, and their counts add up |
| UsersController.Search | Kino.Server/Controllers/UsersController.cs:19-30 | a null, empty or white-space query gives no entries; otherwise a prefix of the matches in table order, at most ten; all matches when at most ten rows match, exactly ten when ten or more rows match; each entry comes from a matching stored profile; the profile table is only read |
| LogMovieModal.Without | kino-client/src/components/modals/LogMovieModal.tsx:32 | the id is gone, every other id is kept, and nothing new appears |
| LogMovieModal.ToggleVibe | kino-client/src/components/modals/LogMovieModal.tsx:30-36 | a selected id is removed; an unselected id is appended at the end when fewer than three are selected; otherwise the selection is unchanged |
| LogMovieModal.WithoutKeepsNoDuplicates | kino-client/src/components/modals/LogMovieModal.tsx:32 | removing an id from a selection without duplicates leaves none |
| LogMovieModal.ToggleKeepsGoodSelection | kino-client/src/components/modals/LogMovieModal.tsx:22-36 | every toggle keeps the selection at most three ids without duplicates, so this holds from the initial empty selection on |
| LogMovieModal.WithoutAbsent | kino-client/src/components/modals/LogMovieModal.tsx:32 | removing an id that is not selected changes nothing |
| LogMovieModal.WithoutAppended | kino-client/src/components/modals/LogMovieModal.tsx:32-34 | removing an id just appended gives back the selection before it |
| LogMovieModal.ToggleTwiceRestores | kino-client/src/components/modals/LogMovieModal.tsx:31-34 | with room for one more, toggling an unselected id twice restores the selection |
| LogMovieModal.WithoutCutsOnePosition | kino-client/src/components/modals/LogMovieModal.tsx:31-32 | removing a selected id cuts out exactly its position and keeps the others in order |
| LogMovieModal.Join | kino-client/src/components/modals/LogMovieModal.tsx:49 | joining no tags gives the empty string and one tag gives that tag |
| LogMovieModal.SplitJoin | kino-client/src/components/modals/LogMovieModal.tsx:49 | tags that are non-empty and comma-free, joined with commas, split back into exactly the same tags |
| LogMovieModal.VibeIdsWellFormed | kino-client/src/components/modals/LogMovieModal.tsx:5-11 | every vibe id is non-empty and holds no comma |
| LogMovieModal.VibeTagsRoundTrip | kino-client/src/components/modals/LogMovieModal.tsx:49 | the submitted `vibeTags` string lists exactly the selected vibe ids, in selection order |
| LogMovieModal.InitialForm | kino-client/src/components/modals/LogMovieModal.tsx:20-26 | when the page first mounts the modal, the form has both sliders at 50, no vibes, empty text and the current UTC date (`toISOString` gives the UTC calendar day), so its vibe selection is good, and it is not loading |
| LogMovieModal.Payload | kino-client/src/components/modals/LogMovieModal.tsx:42-52 | a body binds iff the date input holds a date; it then carries the slider values, the text, the date, the movie's id, title and poster, the selection joined with commas, and a rating of 0 |
| LogMovieModal.PayloadPassesServerChecks | kino-client/src/components/modals/LogMovieModal.tsx:42-52 | whatever the sliders (0..100) and the text area (at most 500 UTF-16 code units, as the browser's `maxLength` counts) hold, the server stores the entry iff the date input holds a date and the movie's title is not blank |
| LogMovieModal.NextEntryStartsFromLastOne | kino-client/src/components/modals/LogMovieModal.tsx:20-53 | a successful post closes the modal but keeps the form, so an unedited next submission, even for another movie, sends the same text, vibes and date |
| LogMovieModal.Submit | kino-client/src/components/modals/LogMovieModal.tsx:38-60 | the modal closes iff the post succeeded and alerts iff it failed; loading is false afterwards and the form is otherwise kept |
| Feed.Flip | kino-client/src/components/features/Feed.tsx:29 | the liked flag flips; the count drops by one if it was liked and rises by one otherwise; the count without this user's like is unchanged |
| Feed.ToggleLike | kino-client/src/components/features/Feed.tsx:25-32 | same length and order; items with another id are unchanged; items with the id get the flipped flag and adjusted count; every item keeps its id, author, other fields and count of others' likes |
| Feed.ToggleLikeTwice | kino-client/src/components/features/Feed.tsx:27-31 | toggling the same id twice restores the feed |
| Feed.BaseUrl | kino-client/src/components/features/Feed.tsx:4 | the API base URL is the configured one when it is set and non-empty, otherwise "http://localhost:5002"; never empty |
| Feed.AvatarSrc | kino-client/src/components/features/Feed.tsx:66-67 | an image is shown iff the author has a non-empty avatar URL; a URL starting with "/" gets the base URL in front, any other URL is used as it is |
| Feed.AuthorName | kino-client/src/components/features/Feed.tsx:71 | the author's display name when present and non-empty, otherwise "Member" |
| Profile.CountInYear | kino-client/src/pages/Profile.tsx:45 | never more than the number of reviews; equal to it iff every review is dated in the year; zero iff none is |
| Profile.ComputeStats | kino-client/src/pages/Profile.tsx:42-46 | the film total is the number of reviews, and this year's count is the reviews dated in the current year, so it never exceeds the total |
| Profile.CountInYearAppend | kino-client/src/pages/Profile.tsx:45 | the year count of two lists together is the sum of their counts |
| Profile.Recent | kino-client/src/pages/Profile.tsx:47 | the recent tiles are the first min(4, n) reviews, in order |
| Profile.Placeholders | kino-client/src/pages/Profile.tsx:242 | with at most four tiles shown, the placeholders fill up to four; with four or more, there are none |
| Profile.AlwaysFourTiles | kino-client/src/pages/Profile.tsx:225-242 | recent tiles and placeholders always total four |
| Profile.ShownName | kino-client/src/pages/Profile.tsx:74 | the profile's display name if non-empty, else the token's `sub` if non-empty, else "Member"; never empty |
| Profile.Initial | kino-client/src/pages/Profile.tsx:76 | the initial is one UTF-16 code unit: the upper-cased first character when it is at most U+FFFF, otherwise the high surrogate (D800..DBFF) holding that character's top bits; an empty name gives the upper-cased empty string |
| Profile.InitialOfShownName | kino-client/src/pages/Profile.tsx:74-76 | the shown name always has a first character; the avatar shows it upper-cased when it is at most U+FFFF and only its high surrogate otherwise; whenever the "Member" fallback is shown, "M" upper-cased is the initial |
| Profile.AvatarSrc | kino-client/src/pages/Profile.tsx:75 | a picture iff the avatar URL is non-empty, and then that URL |
| Profile.SavePayload | kino-client/src/pages/Profile.tsx:56-62 | the stored favourite movie is kept; each field is the input's value, or "" when the input is missing or empty |
| Profile.AfterSave | kino-client/src/pages/Profile.tsx:64-70 | a successful save shows the payload and closes the form; a failed one changes nothing |
| StarRating.StarValues | kino-client/src/components/ui/StarRating.tsx:14-15 | exactly five stars, with values 1 to 5 in order |
| StarRating.LitStars | kino-client/src/components/ui/StarRating.tsx:21-25 | the lit stars are exactly the stars that pass the highlight test |
| StarRating.LitIsPrefix | kino-client/src/components/ui/StarRating.tsx:22 | if a star is lit, so is every star of smaller value |
| StarRating.LitStarsAreFirst | kino-client/src/components/ui/StarRating.tsx:14-22 | the lit stars are exactly the first `hover` stars while hovering, else the first `rating` stars, cut to 0..5 |
| StarRating.StarRatingState.constructor | kino-client/src/components/ui/StarRating.tsx:9-10 | no star is hovered at first; `editable` defaults to true |
| StarRating.StarRatingState.Highlighted | kino-client/src/components/ui/StarRating.tsx:22 | star k is lit iff k is at most the hovered star while hovering, else at most the rating |
| StarRating.StarRatingState.MouseEnter | kino-client/src/components/ui/StarRating.tsx:27 | an editable widget hovers the entered star; a read-only one keeps its state |
| StarRating.StarRatingState.MouseLeave | kino-client/src/components/ui/StarRating.tsx:28 | an editable widget sets `hover` to the current rating; a read-only one keeps its state |
| StarRating.StarRatingState.Click | kino-client/src/components/ui/StarRating.tsx:20-26 | clicking star k reports k iff the widget is editable; a disabled button reports nothing |
| AuthModal.Code | kino-client/src/components/modals/AuthModal.tsx:6-10 | every step's code lies in 0..4 |
| AuthModal.StepOf | kino-client/src/components/modals/AuthModal.tsx:6-10 | a number names a step iff it lies in 0..4 |
| AuthModal.CodesAreDistinct | kino-client/src/components/modals/AuthModal.tsx:6-10 | the five step constants are distinct and every code in 0..4 is one step's |
| AuthModal.AuthModalState.constructor | kino-client/src/components/modals/AuthModal.tsx:15-28 | the wizard starts at the login step, not loading, with no error, empty fields, no file and no context calls |
| AuthModal.AuthModalState.Render | kino-client/src/components/modals/AuthModal.tsx:30-31 | nothing is drawn while `modalType` is falsy; the login step becomes the register step only when `modalType` is "REGISTER", nothing is loading and the username is empty; nothing else changes |
| AuthModal.AuthModalState.JoinClub | kino-client/src/components/modals/AuthModal.tsx:144 | "Join Club" moves from login to register and changes nothing else |
| AuthModal.AuthModalState.BackToLogin | kino-client/src/components/modals/AuthModal.tsx:173 | "Login" moves from register to login and changes nothing else |
| AuthModal.AuthModalState.SetUsername | kino-client/src/components/modals/AuthModal.tsx:134 | typing sets the username and nothing else |
| AuthModal.AuthModalState.ChooseAvatar | kino-client/src/components/modals/AuthModal.tsx:247 | the file input's change sets the avatar file to its first file, or to none when the list is empty, and nothing else |
| AuthModal.AuthModalState.Close | kino-client/src/components/modals/AuthModal.tsx:115 | the close button asks the context to close the modal and changes nothing else |
| AuthModal.AuthModalState.HandleLogin | kino-client/src/components/modals/AuthModal.tsx:33-43 | posts the typed username and password; on success the error is cleared and `login` is called with the answer's token and username, asking to close the modal; on failure the server's message or "Login failed" is shown; the step stays login and loading ends false |
| AuthModal.AuthModalState.HandleRegister | kino-client/src/components/modals/AuthModal.tsx:45-55 | posts username, email and password; on success the answer's `userId` is stored, the error is cleared and the step becomes verify; on failure the step and `userId` stay and the first error's description or "Registration failed" is shown; loading ends false |
| AuthModal.AuthModalState.HandleVerify | kino-client/src/components/modals/AuthModal.tsx:57-68 | posts the stored `userId` with the typed code; on success `login` is called asking to keep the modal open, the error is cleared and the step becomes onboard-profile; on failure the step stays with "Invalid code."; loading ends false |
| AuthModal.AuthModalState.HandleSaveProfile | kino-client/src/components/modals/AuthModal.tsx:70-78 | puts the display name; on success the step becomes onboard-avatar and an earlier error is kept; on failure the step stays with "Failed to save name."; loading ends false |
| AuthModal.AuthModalState.HandleAvatarUpload | kino-client/src/components/modals/AuthModal.tsx:80-100 | skipping closes the modal without uploading; with no file chosen nothing changes; otherwise the file is uploaded, and the modal closes on success or "Upload failed." is shown; the step stays and loading ends false |
| RegisterPage.RegisterFlow.constructor | kino-client/src/pages/Register.tsx:11-24 | the flow starts at the register step with an empty form, no `userId`, no error and nothing loading |
| RegisterPage.RegisterFlow.EditForm | kino-client/src/pages/Register.tsx:91-113 | typing replaces the form data and changes nothing else |
| RegisterPage.RegisterFlow.EditCode | kino-client/src/pages/Register.tsx:157 | typing sets the code and changes nothing else |
| RegisterPage.RegisterFlow.HandleRegister | kino-client/src/pages/Register.tsx:28-45 | posts the form as it is; on success the answer's `userId` is stored, the error is cleared and the step becomes verify; on failure the step and `userId` stay and the server's message or "Registration failed. Try again." is shown; loading ends false |
| RegisterPage.RegisterFlow.HandleVerify | kino-client/src/pages/Register.tsx:47-67 | posts exactly the stored `userId` and the typed code; on success the error is cleared and the page navigates to "/login"; on failure it stays on the verify step with "Invalid token. Please check your email and try again."; loading ends false |
| RegisterPage.RegisterFlow.BackToRegister | kino-client/src/pages/Register.tsx:172 | "Back to Register" returns to the register step and keeps the form data, code and `userId` |
| AuthContext.AuthProvider.constructor | kino-client/src/context/AuthContext.tsx:24-26 | the token is whatever is stored under "token"; no user yet; the modal is closed |
| AuthContext.AuthProvider.IsAuthenticated | kino-client/src/context/AuthContext.tsx:53 | authenticated iff the token is a non-empty string |
| AuthContext.AuthProvider.Login | kino-client/src/context/AuthContext.tsx:39-43 | the token is stored under "token" and adopted, and the modal closes; authenticated iff the token is non-empty |
| AuthContext.AuthProvider.Logout | kino-client/src/context/AuthContext.tsx:45-49 | the stored token is removed, token and user become null, and the session is no longer authenticated |
| AuthContext.AuthProvider.OpenModal | kino-client/src/context/AuthContext.tsx:55 | the modal is open and the session is unchanged |
| AuthContext.AuthProvider.CloseModal | kino-client/src/context/AuthContext.tsx:56 | the modal is closed and the session is unchanged |
| AuthContext.AuthProvider.OnTokenChange | kino-client/src/context/AuthContext.tsx:28-37 | a falsy token changes nothing; a decodable token sets the user to its `sub` and `jti`; an undecodable token logs out |

## Left out

- Network and I/O: every request is an input (success with its data, or failure with its message). This covers the TMDB service, the SMTP e-mail service and the axios interceptor. Requests are not modelled as concurrent: each handler runs from start to end with no other event in between. The `loading = true` states visible while a request is pending are not modelled.
- The feed's reload after a failed like (`Feed.tsx:36`) and the page reload that ends onboarding (`AuthModal.tsx:99`) are left out. Reloading refetches from the server, which the model does not have.
- The account server (`AuthController.cs`, `TokenService.cs`) wraps ASP.NET Identity and JWT signing. Those library calls are not modelled. The client's decoding of a token payload (`atob` and `JSON.parse`) is the abstract `decode` parameter of `AuthContext.AuthProvider.OnTokenChange`.
- Password policy and dependency wiring (`Program.cs`), the EF migrations and `AppDbContext.cs` are configuration. The database's key generation is modelled as counters in `ReviewsController.ReviewStore`. The lemmas about `ReviewsController.Post` hold for any fresh keys.
- `ReviewsController.Post`: the two `SaveChangesAsync` calls are not modelled as separate steps. A failure between them, which would leave a new movie without its review, is not represented.
- `ReviewsController.GetReviews`: the list is proved newest first and a permutation of the projected reviews. The order of reviews with equal `CreatedAt` is left open, as the database leaves it.
- `ReviewsController.NewReview`: the review row gets only `MovieId`, `Rating`, `Content` and `CreatedAt`, as the controller sets them. The two percentage ratings and the vibe tags the request carries are not copied, so the row keeps 0, 0 and null.
- `Rating` is read from the request and written to the review (`ReviewsController.cs:49,70`), but neither `CreateReviewDto` nor `Review` declares it. The model carries it as an integer that is only copied.
- `CreateReviewDto.Validate`: only the attributes written on the class are modelled. The framework's implicit `[Required]` on non-nullable reference properties is configuration and is left out. A JSON `null` for `Content` is also left out, because the model's `content` is always a string. The messages of `[Required]` and `[Range]` follow .NET's default wording.
- `UsersController.Search` reads a `UserProfiles` set that `AppDbContext.cs` does not declare. The model takes the profile table as a sequence. The display name is lowered inside the query by PostgreSQL's `lower()`, and the search text by .NET's `ToLower` before it is sent. Both are abstract parameters, `lowerName` and `lowerQuery`, and nothing is assumed about either, in particular not that they agree. `Take(10)` without an `OrderBy` leaves the order of the rows to PostgreSQL, which guarantees none; the model fixes table order.
- `UsersController.Search`: the model covers the action body. The server compiles with nullable reference types (the `!` at `ReviewsController.cs:73` suppresses such a warning), so under `[ApiController]` the non-nullable `query` parameter carries MVC's implicit `[Required]`. Binding turns a missing, empty or white-space query into null, and the request is refused with 400 before the action runs. The blank-query guard at `UsersController.cs:21`, which the model states as an empty result, cannot be reached through the endpoint, and the 400 is not modelled.
- `Profile.CountInYear`: reading a date's year in local time is the abstract `yearOf` parameter. `toUpperCase` in `Profile.Initial` is the abstract `upper` parameter. A lone high surrogate cannot be a Dafny string, so it is kept as its code unit; `toUpperCase` leaves such a unit as it is.
- Dates are .NET tick counts with a kind. `DateTime.UtcNow`, the browser's `new Date()` and the server's UTC offset are parameters. Ticks lie between those of `DateTime.MinValue` and `DateTime.MaxValue`; a conversion that would leave that range gives the bound. Daylight-saving rules are not modelled: one fixed offset is used.
- `AuthModal.AuthModalState`: the modal reads `modalType` and calls `login` with three arguments, but the auth context provides no `modalType` and its `login` takes one argument. `modalType` is a parameter of `AuthModal.AuthModalState.Render`. Each `login` and `closeModal` call is recorded as an event instead of being applied to an `AuthContext.AuthProvider`. So the model does not decide whether the modal really stays open after verification.
- `AuthModal.AuthModalState` and `RegisterPage.RegisterFlow`: a response without a `userId` is `None` (the server's register endpoint returns none). Error payloads that are objects rather than strings are not modelled; messages are strings or absent.
- Typing in fields other than those named in the table (password, e-mail, code and display name in the modal) only sets that field. Those setters are not modelled as separate methods.
- `LogMovieModal.Form`: the date input yields either "" or a `yyyy-mm-dd` string. The model keeps a cleared input as `None` and a filled one as the `DateTime` the server binds it to; string parsing is not modelled.
- Rendering and fetching only: `Home.tsx`, `Diary.tsx`, `PublicProfile.tsx`, `Login.tsx`, `Navbar.tsx`, `AuthLayout.tsx`, `Loading.tsx`, `App.tsx`, `main.tsx`, `MoviesController.cs` and `TmdbController.cs`. The wizard's progress dots are rendering too.

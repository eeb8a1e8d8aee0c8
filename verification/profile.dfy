/** The signed-in user's profile page: film counts, the four most recent diary tiles,
    the name and avatar fallbacks, and the body of "Save Changes". */
module Profile {
  import opened Common
  import AuthContext

  datatype Stats = Stats(totalMovies: nat, thisYear: nat)

  /** `reviews.filter(r => year(r.createdAt) === year).length`, where `yearOf` stands for
      `new Date(r.createdAt).getFullYear()` (a local-time reading of the date). */
  function CountInYear<T>(reviews: seq<T>, yearOf: T -> int, year: int): (n: nat)
    ensures n <= |reviews|
    ensures n == |reviews| <==> forall k | 0 <= k < |reviews| :: yearOf(reviews[k]) == year
    ensures n == 0 <==> forall k | 0 <= k < |reviews| :: yearOf(reviews[k]) != year
  {
    if reviews == [] then 0
    else
      var rest := CountInYear(reviews[1..], yearOf, year);
      assert forall k | 1 <= k < |reviews| :: reviews[k] == reviews[1..][k - 1];
      (if yearOf(reviews[0]) == year then 1 else 0) + rest
  }

  /** The statistics the page shows: every diary entry counts as a film, and the ones
      dated in `currentYear` (`new Date().getFullYear()`) count for "This Year". */
  function ComputeStats<T>(reviews: seq<T>, yearOf: T -> int, currentYear: int): (s: Stats)
    ensures s.totalMovies == |reviews|
    ensures s.thisYear <= s.totalMovies
    ensures s.thisYear == CountInYear(reviews, yearOf, currentYear)
  {
    Stats(|reviews|, CountInYear(reviews, yearOf, currentYear))
  }

  /** Counting splits over concatenation, so a diary that grows by one entry dated this
      year has one more film this year. */
  lemma {:induction false} CountInYearAppend<T>(a: seq<T>, b: seq<T>, yearOf: T -> int, year: int)
    ensures CountInYear(a + b, yearOf, year) == CountInYear(a, yearOf, year) + CountInYear(b, yearOf, year)
  {
    if a != [] {
      assert (a + b)[1..] == a[1..] + b;
      CountInYearAppend(a[1..], b, yearOf, year);
    } else {
      assert a + b == b;
    }
  }

  const TileCount := 4

  /** `allReviews.slice(0, 4)`: the first four entries, or all of them when fewer. */
  function Recent<T>(reviews: seq<T>): (r: seq<T>)
    ensures r <= reviews
    ensures |r| == if |reviews| < TileCount then |reviews| else TileCount
  {
    if |reviews| < TileCount then reviews else reviews[..TileCount]
  }

  /** The number of "Log a movie" placeholders drawn after `shown` recent tiles. */
  function Placeholders(shown: nat): (n: nat)
    ensures shown <= TileCount ==> shown + n == TileCount
    ensures shown >= TileCount ==> n == 0
  {
    if shown < TileCount then TileCount - shown else 0
  }

  /** The activity grid always has four tiles: the recent entries and then placeholders. */
  lemma AlwaysFourTiles<T>(reviews: seq<T>)
    ensures |Recent(reviews)| + Placeholders(|Recent(reviews)|) == TileCount
  {
  }

  /** The profile fields the page reads from and writes to `/auth/profile`. */
  datatype ProfileData = ProfileData(displayName: string, avatarUrl: string, bio: string, favoriteMovie: string)

  /** The state before `/auth/profile` answers. */
  const EmptyProfile := ProfileData("", "", "", "")

  /** `profileData.displayName || user?.sub || "Member"`. */
  function ShownName(profile: ProfileData, user: Option<AuthContext.User>): (name: string)
    ensures name != ""
    ensures profile.displayName != "" ==> name == profile.displayName
    ensures profile.displayName == "" && user.Some? && Truthy(user.value.sub) ==> name == user.value.sub.value
    ensures profile.displayName == "" && !(user.Some? && Truthy(user.value.sub)) ==> name == "Member"
  {
    if profile.displayName != "" then profile.displayName
    else if user.Some? then OrElse(user.value.sub, "Member")
    else "Member"
  }

  /** What the avatar circle shows. `substring(0, 1)` takes one UTF-16 code unit: a
      character up to U+FFFF comes out whole, but one above it is cut in half and only
      its high surrogate remains. `toUpperCase` passes a lone surrogate through
      unchanged, and a string of Unicode scalar values cannot hold one, so it is kept
      as its code unit. */
  datatype Letter = Text(text: string) | LoneSurrogate(unit: int)

  /** `name.substring(0, 1).toUpperCase()`, with `upper` standing for `toUpperCase`. */
  function Initial(name: string, upper: string -> string): (i: Letter)
    ensures name == "" ==> i == Text(upper(""))
    ensures name != "" ==> (i.Text? <==> name[0] as int <= 0xFFFF)
    ensures i.Text? && name != "" ==> i.text == upper([name[0]])
    ensures i.LoneSurrogate? ==> 0xD800 <= i.unit <= 0xDBFF
    ensures i.LoneSurrogate? ==>
              name != "" &&
              (i.unit - 0xD800) * 0x400 <= name[0] as int - 0x10000 < (i.unit - 0xD800 + 1) * 0x400
  {
    if name == "" then Text(upper(""))
    else if name[0] as int <= 0xFFFF then
      assert name[..1] == [name[0]];
      Text(upper(name[..1]))
    else LoneSurrogate(FirstUnit(name[0]))
  }

  /** The shown name is never empty, so the circle shows the upper-cased first
      character when that character is in the Basic Multilingual Plane, half of it
      otherwise, and "M" upper-cased for the "Member" fallback. */
  lemma InitialOfShownName(profile: ProfileData, user: Option<AuthContext.User>, upper: string -> string)
    ensures var name := ShownName(profile, user);
            && |name| >= 1
            && (name[0] as int <= 0xFFFF ==> Initial(name, upper) == Text(upper([name[0]])))
            && (name[0] as int > 0xFFFF ==> Initial(name, upper) == LoneSurrogate(FirstUnit(name[0])))
    ensures profile.displayName == "" && !(user.Some? && Truthy(user.value.sub)) ==>
              Initial(ShownName(profile, user), upper) == Text(upper("M"))
  {
    var name := ShownName(profile, user);
    assert name[..1] == [name[0]];
    assert "Member"[..1] == "M";
  }

  /** `profileData.avatarUrl || null`: the picture is shown only for a non-empty URL. */
  function AvatarSrc(profile: ProfileData): (src: Option<string>)
    ensures src.Some? <==> profile.avatarUrl != ""
    ensures src.Some? ==> src.value == profile.avatarUrl
  {
    if profile.avatarUrl != "" then Some(profile.avatarUrl) else None
  }

  /** The body `handleSaveProfile` sends. Each input is `None` when its element is not
      mounted; a missing or empty input becomes "", and the favourite movie is the one
      already stored, which the form does not show. */
  function SavePayload(name: Option<string>, photo: Option<string>, bio: Option<string>, current: ProfileData): (p: ProfileData)
    ensures p.favoriteMovie == current.favoriteMovie
    ensures p.displayName == (if Truthy(name) then name.value else "")
    ensures p.avatarUrl == (if Truthy(photo) then photo.value else "")
    ensures p.bio == (if Truthy(bio) then bio.value else "")
  {
    ProfileData(OrElse(name, ""), OrElse(photo, ""), OrElse(bio, ""), current.favoriteMovie)
  }

  /** The page after the `PUT`: on success the payload becomes the shown profile and the
      form closes; on failure (an alert) nothing changes. */
  datatype Page = Page(profile: ProfileData, isEditing: bool)

  function AfterSave(page: Page, payload: ProfileData, saved: bool): (r: Page)
    ensures saved ==> r == Page(payload, false)
    ensures !saved ==> r == page
  {
    if saved then Page(payload, false) else page
  }
}

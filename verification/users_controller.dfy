/** `GET /api/users/search?query=…`: the profiles whose display name contains the
    query, ignoring case, at most ten of them. */
module UsersController {
  import opened Common

  /** A row of the profile table. */
  datatype UserProfile = UserProfile(
    id: int,
    userId: string,
    displayName: string,
    avatarUrl: string,
    bio: string,
    favoriteMovie: string,
    dateJoined: DateTime)

  /** The anonymous `{ DisplayName, AvatarUrl, UserId }` object of one result. */
  datatype SearchEntry = SearchEntry(displayName: string, avatarUrl: string, userId: string)

  const MaxResults := 10

  /** `hay.Contains(needle)`, ordinal: `needle` occurs at some position of `hay`. */
  predicate Contains(hay: string, needle: string)
  {
    needle <= hay || (hay != [] && Contains(hay[1..], needle))
  }

  /** The recursive test agrees with the plain reading of "contains": some suffix of
      `hay` starts with `needle`. */
  lemma {:induction false} ContainsIsOccurrence(hay: string, needle: string)
    ensures Contains(hay, needle) <==> exists i | 0 <= i <= |hay| :: needle <= hay[i..]
  {
    if hay == [] {
      assert hay[0..] == hay;
    } else {
      ContainsIsOccurrence(hay[1..], needle);
      if Contains(hay, needle) {
        if needle <= hay {
          assert hay[0..] == hay;
        } else {
          var j :| 0 <= j <= |hay[1..]| && needle <= hay[1..][j..];
          assert hay[1..][j..] == hay[j + 1..];
          assert needle <= hay[j + 1..];
        }
      }
      if exists i | 0 <= i <= |hay| :: needle <= hay[i..] {
        var i :| 0 <= i <= |hay| && needle <= hay[i..];
        if i == 0 {
          assert hay[0..] == hay;
        } else {
          assert hay[1..][i - 1..] == hay[i..];
          assert Contains(hay[1..], needle);
        }
      }
    }
  }

  /** The `Where` condition. The display name is lowered by the database (PostgreSQL's
      `lower()`, `lowerName`) and the query by .NET's `string.ToLower` before it is sent
      (`lowerQuery`); the two need not agree on every character. */
  predicate Matches(p: UserProfile, query: string, lowerName: string -> string, lowerQuery: string -> string): (m: bool)
    ensures m <==> exists i | 0 <= i <= |lowerName(p.displayName)| :: lowerQuery(query) <= lowerName(p.displayName)[i..]
  {
    ContainsIsOccurrence(lowerName(p.displayName), lowerQuery(query));
    Contains(lowerName(p.displayName), lowerQuery(query))
  }

  function Entry(p: UserProfile): SearchEntry
  {
    SearchEntry(p.displayName, p.avatarUrl, p.userId)
  }

  /** `e` is the projection of some profile that matches. */
  predicate FromMatch(e: SearchEntry, profiles: seq<UserProfile>, query: string, lowerName: string -> string, lowerQuery: string -> string)
  {
    exists p | p in profiles :: Matches(p, query, lowerName, lowerQuery) && e == Entry(p)
  }

  /** How many rows of the table match. */
  function CountMatches(profiles: seq<UserProfile>, query: string, lowerName: string -> string, lowerQuery: string -> string): (n: nat)
    ensures n <= |profiles|
  {
    if profiles == [] then 0
    else (if Matches(profiles[0], query, lowerName, lowerQuery) then 1 else 0)
         + CountMatches(profiles[1..], query, lowerName, lowerQuery)
  }

  /** `Where(...).Select(...)` over the whole table, in table order: one entry per
      matching row. */
  function Matching(profiles: seq<UserProfile>, query: string, lowerName: string -> string, lowerQuery: string -> string): (r: seq<SearchEntry>)
    ensures |r| == CountMatches(profiles, query, lowerName, lowerQuery)
    ensures forall e | e in r :: FromMatch(e, profiles, query, lowerName, lowerQuery)
    ensures forall p | p in profiles && Matches(p, query, lowerName, lowerQuery) :: Entry(p) in r
  {
    if profiles == [] then []
    else
      var rest := Matching(profiles[1..], query, lowerName, lowerQuery);
      assert forall p | p in profiles[1..] :: p in profiles;
      assert forall p | p in profiles :: p == profiles[0] || p in profiles[1..];
      if Matches(profiles[0], query, lowerName, lowerQuery) then [Entry(profiles[0])] + rest else rest
  }

  /** Filtering keeps table order: the matches of two parts of the table, one after
      the other, are the matches of the whole. */
  lemma {:induction false} MatchingAppend(a: seq<UserProfile>, b: seq<UserProfile>, query: string,
                                          lowerName: string -> string, lowerQuery: string -> string)
    ensures Matching(a + b, query, lowerName, lowerQuery)
            == Matching(a, query, lowerName, lowerQuery) + Matching(b, query, lowerName, lowerQuery)
    ensures CountMatches(a + b, query, lowerName, lowerQuery)
            == CountMatches(a, query, lowerName, lowerQuery) + CountMatches(b, query, lowerName, lowerQuery)
  {
    if a == [] {
      assert a + b == b;
    } else {
      assert (a + b)[0] == a[0];
      assert (a + b)[1..] == a[1..] + b;
      MatchingAppend(a[1..], b, query, lowerName, lowerQuery);
    }
  }

  /** `Search(query)`: nothing for a null, empty or white-space query; otherwise the
      first ten matches in table order (`Take(10)`). The table is only read. */
  function Search(profiles: seq<UserProfile>, query: Option<string>, lowerName: string -> string, lowerQuery: string -> string): (r: seq<SearchEntry>)
    ensures IsNullOrWhiteSpace(query) ==> r == []
    ensures |r| <= MaxResults
    ensures forall e | e in r :: query.Some? && FromMatch(e, profiles, query.value, lowerName, lowerQuery)
    ensures !IsNullOrWhiteSpace(query) ==> r <= Matching(profiles, query.value, lowerName, lowerQuery)
    ensures !IsNullOrWhiteSpace(query) && CountMatches(profiles, query.value, lowerName, lowerQuery) <= MaxResults ==>
              forall p | p in profiles && Matches(p, query.value, lowerName, lowerQuery) :: Entry(p) in r
    ensures !IsNullOrWhiteSpace(query) && CountMatches(profiles, query.value, lowerName, lowerQuery) >= MaxResults ==>
              |r| == MaxResults
  {
    if IsNullOrWhiteSpace(query) then []
    else
      var all := Matching(profiles, query.value, lowerName, lowerQuery);
      var r := if |all| <= MaxResults then all else all[..MaxResults];
      assert forall e | e in r :: e in all;
      r
  }
}

/** The global review feed: the optimistic like toggle and how each card shows its
    author. */
module Feed {
  import opened Common

  /** The author block of a feed item; absent when the review has no author. */
  datatype Author = Author(displayName: Option<string>, avatarUrl: Option<string>)

  /** One feed item, as far as the like button and the author line use it. The other
      fields of the item (movie, ratings, content, date) are carried in `rest`. */
  datatype FeedItem<Rest> = FeedItem(id: int, likes: int, isLikedByMe: bool, author: Option<Author>, rest: Rest)

  /** The like count without this user's own like: what the server would count for
      everybody else. */
  function OthersLikes<R>(item: FeedItem<R>): int
  {
    item.likes - (if item.isLikedByMe then 1 else 0)
  }

  /** The `r.id === id` branch of `handleLike`'s map callback. */
  function Flip<R>(item: FeedItem<R>): (r: FeedItem<R>)
    ensures r.isLikedByMe == !item.isLikedByMe
    ensures r.likes == if item.isLikedByMe then item.likes - 1 else item.likes + 1
    ensures OthersLikes(r) == OthersLikes(item)
    ensures r.id == item.id && r.author == item.author && r.rest == item.rest
  {
    item.(likes := if item.isLikedByMe then item.likes - 1 else item.likes + 1,
          isLikedByMe := !item.isLikedByMe)
  }

  /** `setReviews(prev => prev.map(...))` in `handleLike(id)`: every item with that id is
      flipped, every other item is kept as it was. */
  function ToggleLike<R>(items: seq<FeedItem<R>>, id: int): (r: seq<FeedItem<R>>)
    ensures |r| == |items|
    ensures forall k | 0 <= k < |items| && items[k].id != id :: r[k] == items[k]
    ensures forall k | 0 <= k < |items| && items[k].id == id ::
              && r[k].isLikedByMe == !items[k].isLikedByMe
              && r[k].likes == (if items[k].isLikedByMe then items[k].likes - 1 else items[k].likes + 1)
    ensures forall k | 0 <= k < |items| ::
              && r[k].id == items[k].id && r[k].author == items[k].author && r[k].rest == items[k].rest
              && OthersLikes(r[k]) == OthersLikes(items[k])
  {
    if items == [] then []
    else [if items[0].id == id then Flip(items[0]) else items[0]] + ToggleLike(items[1..], id)
  }

  /** Liking and then unliking (or the reverse) leaves the feed exactly as it was. */
  lemma ToggleLikeTwice<R>(items: seq<FeedItem<R>>, id: int)
    ensures ToggleLike(ToggleLike(items, id), id) == items
  {
    var once := ToggleLike(items, id);
    var twice := ToggleLike(once, id);
    forall k | 0 <= k < |items| ensures twice[k] == items[k] {
      if items[k].id == id {
        assert twice[k].likes == items[k].likes;
      }
    }
  }

  /** `import.meta.env.VITE_API_URL || 'http://localhost:5002'`. */
  function BaseUrl(configured: Option<string>): (r: string)
    ensures r != ""
    ensures Truthy(configured) ==> r == configured.value
    ensures !Truthy(configured) ==> r == "http://localhost:5002"
  {
    OrElse(configured, "http://localhost:5002")
  }

  /** The avatar image source: none unless the item has an author with a non-empty
      avatar URL; a URL starting with "/" is a path on the API server and gets the base
      URL in front; any other URL is used as it is. */
  function AvatarSrc(author: Option<Author>, baseUrl: string): (src: Option<string>)
    ensures src.Some? <==> author.Some? && Truthy(author.value.avatarUrl)
    ensures src.Some? && author.value.avatarUrl.value[0] == '/' ==> src.value == baseUrl + author.value.avatarUrl.value
    ensures src.Some? && author.value.avatarUrl.value[0] != '/' ==> src.value == author.value.avatarUrl.value
  {
    if author.Some? && Truthy(author.value.avatarUrl) then
      var url := author.value.avatarUrl.value;
      Some(if url[0] == '/' then baseUrl + url else url)
    else None
  }

  /** `review.author?.displayName || 'Member'`. */
  function AuthorName(author: Option<Author>): (name: string)
    ensures name != ""
    ensures author.Some? && Truthy(author.value.displayName) ==> name == author.value.displayName.value
    ensures !(author.Some? && Truthy(author.value.displayName)) ==> name == "Member"
  {
    if author.Some? then OrElse(author.value.displayName, "Member") else "Member"
  }
}

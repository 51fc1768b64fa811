/** The three feed handlers of geminisocial/App.tsx. Each builds a new feed
    from the old one (prepend, or a `map` over the posts that rewrites the
    posts whose id matches) and hands it to the state setter; here each is a
    function from the old feed to the new one. Ids and clock readings are
    parameters. Ids are not assumed unique: two posts created in the same
    millisecond share an id, and then a like or a comment reaches both. */
module Feed {
  import opened Wrappers
  import opened Types
  import GeminiService

  /** The new post of handlePostCreated, prepended to the feed. */
  function CreatePost(feed: seq<Post>, user: User, content: string, id: string, now: int): (r: seq<Post>)
    ensures |r| == |feed| + 1 && r[1..] == feed
    ensures r[0].id == id && r[0].content == content && r[0].createdAt == now
    ensures r[0].userId == user.id && r[0].userName == user.name && r[0].userAvatar == user.avatar
    ensures r[0].likes == 0 && r[0].comments == []
    ensures r[0].image == None && r[0].isAIGenerated == None
  {
    [Post(id, user.id, user.name, user.avatar, content, None, 0, [], now, None)] + feed
  }

  /** handleLike: every post whose id is `postId` gets one more like. */
  function Like(feed: seq<Post>, postId: string): (r: seq<Post>)
    ensures |r| == |feed|
    ensures forall i :: 0 <= i < |feed| && feed[i].id == postId ==> r[i] == feed[i].(likes := feed[i].likes + 1)
    ensures forall i :: 0 <= i < |feed| && feed[i].id != postId ==> r[i] == feed[i]
  {
    if feed == [] then []
    else
      var p := feed[0];
      [if p.id == postId then p.(likes := p.likes + 1) else p] + Like(feed[1..], postId)
  }

  /** The comment handleComment builds for the signed-in user. */
  function NewComment(user: User, content: string, id: string, now: int): (c: Comment)
    ensures c.id == id && c.content == content && c.createdAt == now
    ensures c.userId == user.id && c.userName == user.name && c.userAvatar == user.avatar
  {
    Comment(id, user.id, user.name, user.avatar, content, now)
  }

  /** handleComment: `c` is appended to the comments of every post whose id
      is `postId`; nothing else changes. */
  function AddComment(feed: seq<Post>, postId: string, c: Comment): (r: seq<Post>)
    ensures |r| == |feed|
    ensures forall i :: 0 <= i < |feed| && feed[i].id == postId ==> r[i] == feed[i].(comments := feed[i].comments + [c])
    ensures forall i :: 0 <= i < |feed| && feed[i].id != postId ==> r[i] == feed[i]
  {
    if feed == [] then []
    else
      var p := feed[0];
      [if p.id == postId then p.(comments := p.comments + [c]) else p] + AddComment(feed[1..], postId, c)
  }

  /** True when some post of the feed has id `postId`. */
  predicate HasPost(feed: seq<Post>, postId: string) {
    exists i :: 0 <= i < |feed| && feed[i].id == postId
  }

  /** The number of posts whose id is `postId`. */
  function Occurrences(feed: seq<Post>, postId: string): nat {
    if feed == [] then 0
    else (if feed[0].id == postId then 1 else 0) + Occurrences(feed[1..], postId)
  }

  /** The likes of the whole feed. */
  function TotalLikes(feed: seq<Post>): int {
    if feed == [] then 0 else feed[0].likes + TotalLikes(feed[1..])
  }

  /** The comments of the whole feed. */
  function TotalComments(feed: seq<Post>): nat {
    if feed == [] then 0 else |feed[0].comments| + TotalComments(feed[1..])
  }

  /** Every like counter is non-negative. */
  predicate LikesNonNegative(feed: seq<Post>) {
    forall i :: 0 <= i < |feed| ==> feed[i].likes >= 0
  }

  /** Newest first: creation times never increase along the feed. */
  predicate NewestFirst(feed: seq<Post>) {
    forall i, j :: 0 <= i < j < |feed| ==> feed[i].createdAt >= feed[j].createdAt
  }

  /** A like adds exactly one like per post carrying the id. */
  lemma {:induction false} LikeAddsOccurrences(feed: seq<Post>, postId: string)
    ensures TotalLikes(Like(feed, postId)) == TotalLikes(feed) + Occurrences(feed, postId)
  {
    if feed != [] {
      LikeAddsOccurrences(feed[1..], postId);
      assert Like(feed, postId)[1..] == Like(feed[1..], postId);
    }
  }

  /** A comment adds exactly one comment per post carrying the id. */
  lemma {:induction false} CommentAddsOccurrences(feed: seq<Post>, postId: string, c: Comment)
    ensures TotalComments(AddComment(feed, postId, c)) == TotalComments(feed) + Occurrences(feed, postId)
  {
    if feed != [] {
      CommentAddsOccurrences(feed[1..], postId, c);
      assert AddComment(feed, postId, c)[1..] == AddComment(feed[1..], postId, c);
    }
  }

  /** The id is missing from the feed exactly when no post carries it. */
  lemma {:induction false} OccurrencesZeroIffAbsent(feed: seq<Post>, postId: string)
    ensures Occurrences(feed, postId) == 0 <==> !HasPost(feed, postId)
  {
    if feed != [] {
      OccurrencesZeroIffAbsent(feed[1..], postId);
      if feed[0].id != postId && HasPost(feed, postId) {
        var i :| 0 <= i < |feed| && feed[i].id == postId;
        assert feed[1..][i - 1].id == postId;
      }
      if HasPost(feed[1..], postId) {
        var i :| 0 <= i < |feed[1..]| && feed[1..][i].id == postId;
        assert feed[i + 1].id == postId;
      }
    }
  }

  /** A like changes the feed's total likes exactly when some post carries
      the id. */
  lemma LikeChangesTotalIffPresent(feed: seq<Post>, postId: string)
    ensures TotalLikes(Like(feed, postId)) != TotalLikes(feed) <==> HasPost(feed, postId)
  {
    LikeAddsOccurrences(feed, postId);
    OccurrencesZeroIffAbsent(feed, postId);
  }

  /** A like on an id that is not in the feed leaves the feed as it was. */
  lemma LikeAbsentIsNoOp(feed: seq<Post>, postId: string)
    requires !HasPost(feed, postId)
    ensures Like(feed, postId) == feed
  {
  }

  /** A comment on an id that is not in the feed leaves the feed as it was. */
  lemma CommentAbsentIsNoOp(feed: seq<Post>, postId: string, c: Comment)
    requires !HasPost(feed, postId)
    ensures AddComment(feed, postId, c) == feed
  {
  }

  /** Likes never decrease, so a feed with non-negative counters keeps them
      non-negative under likes and comments alike. */
  lemma UpdatesKeepLikesNonNegative(feed: seq<Post>, postId: string, c: Comment)
    requires LikesNonNegative(feed)
    ensures LikesNonNegative(Like(feed, postId))
    ensures LikesNonNegative(AddComment(feed, postId, c))
    ensures forall i :: 0 <= i < |feed| ==> Like(feed, postId)[i].likes >= feed[i].likes
  {
  }

  /** A new post never holds a negative counter. */
  lemma CreateKeepsLikesNonNegative(feed: seq<Post>, user: User, content: string, id: string, now: int)
    requires LikesNonNegative(feed)
    ensures LikesNonNegative(CreatePost(feed, user, content, id, now))
  {
  }

  /** Newest-first order survives every handler, provided the clock reading
      of a new post is not older than the post it goes in front of. */
  lemma HandlersKeepNewestFirst(feed: seq<Post>, user: User, content: string, id: string, now: int, postId: string, c: Comment)
    requires NewestFirst(feed)
    ensures feed == [] || now >= feed[0].createdAt ==> NewestFirst(CreatePost(feed, user, content, id, now))
    ensures NewestFirst(Like(feed, postId))
    ensures NewestFirst(AddComment(feed, postId, c))
  {
  }

  /** Comments stay in insertion order: two comments on the same post end up
      after its earlier comments, first `c1`, then `c2`. */
  lemma CommentsKeepInsertionOrder(feed: seq<Post>, postId: string, c1: Comment, c2: Comment, i: nat)
    requires i < |feed| && feed[i].id == postId
    ensures AddComment(AddComment(feed, postId, c1), postId, c2)[i].comments == feed[i].comments + [c1, c2]
  {
  }

  /** Likes and comments touch different fields, so their order does not matter. */
  lemma LikeCommentCommute(feed: seq<Post>, likedId: string, commentedId: string, c: Comment)
    ensures Like(AddComment(feed, commentedId, c), likedId) == AddComment(Like(feed, likedId), commentedId, c)
  {
  }

  /** A post just created is liked at the front of the feed; any older post
      that happens to carry the same id is liked too. */
  lemma LikeNewPost(feed: seq<Post>, user: User, content: string, id: string, now: int)
    ensures var r := Like(CreatePost(feed, user, content, id, now), id);
      r[0].likes == 1 && r[1..] == Like(feed, id)
  {
    var created := CreatePost(feed, user, content, id, now);
    assert Like(created, id)[1..] == Like(created[1..], id);
  }

  /** The community-pulse prompt is rebuilt on every feed change. A new
      post's body comes first in it, then the separator and the bodies of
      the older feed. */
  lemma {:induction false} PromptAfterCreate(feed: seq<Post>, user: User, content: string, id: string, now: int)
    requires feed != []
    ensures GeminiService.SentimentPrompt(CreatePost(feed, user, content, id, now))
         == GeminiService.SentimentInstruction + content + GeminiService.Separator
            + GeminiService.Join(GeminiService.Contents(feed), GeminiService.Separator)
  {
    var r := CreatePost(feed, user, content, id, now);
    assert r[1..] == feed;
    var parts := GeminiService.Contents(r);
    var rest := GeminiService.Join(GeminiService.Contents(feed), GeminiService.Separator);
    assert parts[1..] == GeminiService.Contents(feed);
    assert GeminiService.Join(parts, GeminiService.Separator) == content + GeminiService.Separator + rest;
    GeminiService.ConcatRegroup(GeminiService.SentimentInstruction, content, GeminiService.Separator, rest);
  }

  /** Likes and comments leave every post body as it was, so the prompt
      sent after them is the same text as before. */
  lemma UpdatesKeepPrompt(feed: seq<Post>, postId: string, c: Comment)
    ensures GeminiService.SentimentPrompt(Like(feed, postId)) == GeminiService.SentimentPrompt(feed)
    ensures GeminiService.SentimentPrompt(AddComment(feed, postId, c)) == GeminiService.SentimentPrompt(feed)
  {
    assert GeminiService.Contents(Like(feed, postId)) == GeminiService.Contents(feed);
    assert GeminiService.Contents(AddComment(feed, postId, c)) == GeminiService.Contents(feed);
  }

  /** On the starting feed, a like on "p-1" reaches only the first post. */
  lemma ExampleLike(now: int)
    ensures NewestFirst(InitialPosts(now)) && LikesNonNegative(InitialPosts(now))
    ensures Like(InitialPosts(now), "p-1") == [InitialPosts(now)[0].(likes := 25), InitialPosts(now)[1]]
  {
    var feed := InitialPosts(now);
    assert feed[1].id != "p-1" by {
      assert feed[1].id[1] == '-' && feed[1].id[2] == '2';
    }
  }

  /** The signed-in user's first post on the starting feed: the feed grows
      to three posts, the new one in front, written by Alex Johnson (u-1),
      and stays newest first when the clock has not gone back. */
  lemma ExampleFirstPost(now: int, later: int, content: string, id: string)
    requires later >= now
    ensures var r := CreatePost(InitialPosts(now), InitialUser, content, id, later);
      && |r| == 3 && r[1..] == InitialPosts(now)
      && r[0].userId == "u-1" && r[0].userName == "Alex Johnson" && r[0].content == content
      && NewestFirst(r) && LikesNonNegative(r)
  {
    var feed := InitialPosts(now);
    ExampleLike(now);
    HandlersKeepNewestFirst(feed, InitialUser, content, id, later, id, NewComment(InitialUser, content, id, later));
    CreateKeepsLikesNonNegative(feed, InitialUser, content, id, later);
  }
}

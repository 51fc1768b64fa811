/** The records of the social feed (geminisocial/types.ts) and the example
    data the application starts with (geminisocial/constants.tsx). */
module Types {
  import opened Wrappers

  /** A member of the network; optional fields are absent unless set. */
  datatype User = User(
    id: string,
    name: string,
    avatar: string,
    coverImage: Option<string>,
    isAI: Option<bool>)

  /** A comment under a post; the author fields are a copy taken when the
      comment is written. `createdAt` is a millisecond clock reading. */
  datatype Comment = Comment(
    id: string,
    userId: string,
    userName: string,
    userAvatar: string,
    content: string,
    createdAt: int)

  /** A post of the feed. The like counter is a JavaScript number, modelled
      as an unbounded integer; comments are kept in insertion order. */
  datatype Post = Post(
    id: string,
    userId: string,
    userName: string,
    userAvatar: string,
    content: string,
    image: Option<string>,
    likes: int,
    comments: seq<Comment>,
    createdAt: int,
    isAIGenerated: Option<bool>)

  /** The user who is signed in. */
  const InitialUser: User := User(
    "u-1", "Alex Johnson", "https://picsum.photos/seed/alex/150/150",
    Some("https://picsum.photos/seed/alexcover/800/300"), None)

  const RunPostText: string :=
    "Just finished a 10km run this morning! Feeling energized and ready to tackle the week ahead. \U{1F3C3}\U{200D}\U{2640}\U{FE0F}\U{1F4A8} #fitness #morningvibes"

  const MothPostText: string :=
    "Interesting thought of the day: Did you know that the first computer bug was an actual moth found in a Harvard Mark II computer in 1947? \U{1F98B}\U{1F4BB} #techHistory #didyouknow"

  const RunCommentText: string := "Incredible! I need to get back into running too."

  const SarahAvatar: string := "https://picsum.photos/seed/sarah/150/150"

  const MikeAvatar: string := "https://picsum.photos/seed/mike/150/150"

  const GeminiAvatar: string := "https://picsum.photos/seed/gemini/150/150"

  /** The feed the application starts with; its timestamps are offsets from
      the clock reading `now` taken when the module loads. */
  function InitialPosts(now: int): (feed: seq<Post>)
    ensures |feed| == 2 && feed[0].id == "p-1" && feed[1].id == "p-2"
    ensures feed[0].likes == 24 && feed[1].likes == 156
    ensures |feed[0].comments| == 1 && feed[1].comments == []
    ensures feed[0].createdAt > feed[1].createdAt
  {
    [ Post("p-1", "u-2", "Sarah Wilson", SarahAvatar, RunPostText,
           Some("https://picsum.photos/seed/run/600/400"), 24,
           [Comment("c-1", "u-3", "Mike Chen", MikeAvatar, RunCommentText, now - 3600000)],
           now - 7200000, None),
      Post("p-2", "ai-1", "Gemini AI", GeminiAvatar, MothPostText,
           None, 156, [], now - 14400000, Some(true)) ]
  }
}

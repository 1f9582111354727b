/** The datastore (Post, Comment, CommentRevisions, IgnoreList, Whitelisted,
    Blacklisted entities), the task queue and the log of calls made on
    Reddit, as one object whose fields the handlers update. */
module Store {
  import opened Common
  import opened Records

  class Datastore {
    var posts: map<string, PostRecord>
    var comments: map<CommentKey, CommentRecord>
    var revisions: map<RevKey, string>
    /** subreddit -> the moderator who listed it */
    var whitelisted: map<string, string>
    var blacklisted: map<string, string>
    var ignoreList: map<string, IgnoreEntry>
    /** `process_post` tasks enqueued, in order */
    var queue: seq<Task>
    /** calls made on Reddit, in order */
    var effects: seq<Effect>

    /** What the handlers keep true: a post is stored under its own name, no
        subreddit is on both lists, and every comment hangs under a stored
        post. */
    ghost predicate Valid()
      reads this
    {
      (forall id :: id in posts ==> posts[id].name == id)
      && whitelisted.Keys !! blacklisted.Keys
      && (forall k :: k in comments ==> k.post in posts)
    }

    constructor ()
      ensures Valid()
      ensures posts == map[] && comments == map[] && revisions == map[]
      ensures whitelisted == map[] && blacklisted == map[] && ignoreList == map[]
      ensures queue == [] && effects == []
    {
      posts, comments, revisions := map[], map[], map[];
      whitelisted, blacklisted, ignoreList := map[], map[], map[];
      queue, effects := [], [];
    }

    /** `is_author_ignored`: the author has an entry that says ignored. */
    predicate IsAuthorIgnored(author: string)
      reads this
    {
      author in ignoreList && ignoreList[author].ignored
    }

    /** The authors `is_author_ignored` holds for. */
    function IgnoredAuthors(): (s: set<string>)
      reads this
      ensures forall a :: a in s <==> IsAuthorIgnored(a)
    {
      set a | a in ignoreList && ignoreList[a].ignored
    }
  }
}

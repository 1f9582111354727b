/** `PostObject`: a post or comment the bot works on, loaded from the
    datastore when a record exists under its id and otherwise built from its
    payload and stored. `set_processing` and `add_comment_to_post` update the
    stored record and then reload the object's fields from it. */
module Posts {
  import opened Common
  import opened Records
  import opened Store

  /** `parse_text_for_imdb_ids`: the IMDB ids in a text, or None. */
  type Extractor = string -> Option<seq<string>>

  /** The texts searched for IMDB links: title, selftext and url of a
      submission (`t3`), the body of a comment (`t1`). */
  function LinkSources(kind: string, p: Payload): seq<string> {
    if kind == "t3" then [p.selftext, p.url, p.title]
    else if kind == "t1" then [p.body]
    else []
  }

  /** The ids found in all sources, or None as soon as one extraction gives
      None (Python then raises on `+= None`). */
  function FoundIds(extract: Extractor, sources: seq<string>): (r: Option<set<string>>)
    ensures r.None? <==> exists i :: 0 <= i < |sources| && extract(sources[i]).None?
    ensures r.Some? ==> forall id :: id in r.value <==>
      exists i :: 0 <= i < |sources| && id in extract(sources[i]).value
  {
    if sources == [] then Some({})
    else
      var init := sources[..|sources| - 1];
      var last := sources[|sources| - 1];
      var rest := FoundIds(extract, init);
      assert forall i :: 0 <= i < |init| ==> init[i] == sources[i];
      match extract(last)
      case None => None
      case Some(ids) =>
        if rest.None? then None else Some(rest.value + Elems(ids))
  }

  /** The record a new post is stored as: not yet commented, not processing. */
  function NewRecord(kind: string, p: Payload, movies: seq<string>): PostRecord {
    PostRecord(kind, p.name, movies, p.author, if kind == "t3" then Some(p.permalink) else None,
               p.subreddit, false, false)
  }

  /** A post not yet stored cannot be built from `payload`: there is no
      payload, it has no kind, the kind is neither `t3` nor `t1`, or an
      extraction gives None. */
  predicate Unbuildable(payload: Option<Payload>, extract: Extractor) {
    payload.None? || payload.value.kind.None?
    || (payload.value.kind.value != "t3" && payload.value.kind.value != "t1")
    || FoundIds(extract, LinkSources(payload.value.kind.value, payload.value)).None?
  }

  class PostObject {
    const postId: string
    const db: Datastore
    var kind: string
    var moviesList: seq<string>
    var name: string
    var author: string
    var permalink: Option<string>
    var subreddit: string
    var commented: bool
    var processing: bool

    /** The record the object's fields make up. */
    function Snapshot(): PostRecord
      reads this
    {
      PostRecord(kind, name, moviesList, author, permalink, subreddit, commented, processing)
    }

    /** The object's fields are those of the record `rec`. */
    predicate Mirrors(rec: PostRecord)
      reads this
    {
      Snapshot() == rec
    }

    /** The object agrees with the record stored under its id, if any. */
    ghost predicate InSync()
      reads this, db
    {
      postId in db.posts ==> Mirrors(db.posts[postId])
    }

    /** `PostObject(post_id, post)`: an existing record is loaded as it is;
        otherwise the ids are extracted from the payload's link sources,
        deduplicated, and the new record is stored under the thing's name.
        There is no object (the constructor raises) when there is no
        payload, the payload has no kind, the kind is neither `t3` nor `t1`
        (no permalink is set, so storing fails) or an extraction gives
        None; then nothing is stored. */
    static method Open(db: Datastore, postId: string, payload: Option<Payload>, extract: Extractor)
      returns (post: PostObject?)
      requires db.Valid()
      modifies db`posts
      ensures db.Valid()
      ensures post != null ==> post.postId == postId && post.db == db && post.InSync()
      ensures postId in old(db.posts) ==>
        post != null && post.Mirrors(old(db.posts)[postId]) && db.posts == old(db.posts)
      ensures postId !in old(db.posts) && post == null ==> db.posts == old(db.posts)
      ensures postId !in old(db.posts) && post != null ==>
        payload.Some? && payload.value.kind.Some?
        && var k := payload.value.kind.value;
        (k == "t3" || k == "t1")
        && var found := FoundIds(extract, LinkSources(k, payload.value));
        found.Some? && IsEnumeration(post.moviesList, found.value)
        && post.Mirrors(NewRecord(k, payload.value, post.moviesList))
        && db.posts == old(db.posts)[payload.value.name := NewRecord(k, payload.value, post.moviesList)]
      ensures postId !in old(db.posts) ==> (post == null <==> Unbuildable(payload, extract))
      ensures post != null ==> fresh(post)
    {
      if postId in db.posts {
        post := new PostObject(db, postId, db.posts[postId]);
      } else {
        post := Create(db, postId, payload, extract);
      }
    }

    /** The branch of `PostObject(post_id, post)` for a post not yet stored. */
    static method Create(db: Datastore, postId: string, payload: Option<Payload>, extract: Extractor)
      returns (post: PostObject?)
      requires db.Valid() && postId !in db.posts
      modifies db`posts
      ensures db.Valid()
      ensures post != null ==> post.postId == postId && post.db == db && post.InSync() && fresh(post)
      ensures post == null ==> db.posts == old(db.posts)
      ensures post != null ==>
        payload.Some? && payload.value.kind.Some?
        && var k := payload.value.kind.value;
        (k == "t3" || k == "t1")
        && var found := FoundIds(extract, LinkSources(k, payload.value));
        found.Some? && IsEnumeration(post.moviesList, found.value)
        && post.Mirrors(NewRecord(k, payload.value, post.moviesList))
        && db.posts == old(db.posts)[payload.value.name := NewRecord(k, payload.value, post.moviesList)]
      ensures post == null <==> Unbuildable(payload, extract)
    {
      if payload.None? || payload.value.kind.None? {
        return null;
      }
      var p := payload.value;
      var k := p.kind.value;
      if k != "t3" && k != "t1" {
        return null;
      }
      var found := FoundIds(extract, LinkSources(k, p));
      if found.None? {
        return null;
      }
      var movies := Enumerate(found.value);
      var rec := NewRecord(k, p, movies);
      post := new PostObject(db, postId, rec);
      db.posts := db.posts[p.name := rec];
    }

    constructor (db: Datastore, postId: string, rec: PostRecord)
      ensures this.db == db && this.postId == postId && Mirrors(rec)
    {
      this.db := db;
      this.postId := postId;
      kind, moviesList, name, author := rec.kind, rec.moviesList, rec.name, rec.author;
      permalink, subreddit, commented, processing := rec.permalink, rec.subreddit, rec.commented, rec.processing;
    }

    /** `populate_data`: reload the fields from the stored record. */
    method Populate()
      modifies this
      ensures postId in db.posts ==> Mirrors(db.posts[postId])
      ensures postId !in db.posts ==> unchanged(this)
    {
      if postId in db.posts {
        var rec := db.posts[postId];
        kind, moviesList, name, author := rec.kind, rec.moviesList, rec.name, rec.author;
        permalink, subreddit, commented, processing := rec.permalink, rec.subreddit, rec.commented, rec.processing;
      }
    }

    /** `set_processing`: store the flag in the record and reload; nothing
        happens when no record is stored under this post's id. */
    method SetProcessing(flag: bool)
      requires db.Valid() && InSync()
      modifies this, db`posts
      ensures db.Valid() && InSync() && name == old(name) && moviesList == old(moviesList)
      ensures postId in old(db.posts) ==>
        db.posts == old(db.posts)[postId := old(db.posts)[postId].(processing := flag)]
        && Mirrors(db.posts[postId])
      ensures postId !in old(db.posts) ==> db.posts == old(db.posts) && unchanged(this)
    {
      if postId in db.posts {
        db.posts := db.posts[postId := db.posts[postId].(processing := flag)];
        Populate();
      }
    }

    /** `add_comment_to_post`: store the comment (score 1, revision 0, not
        deleted) under this post with `body` as its revision 0, mark the
        record commented and reload; nothing happens without a record. */
    method AddCommentToPost(commentId: string, body: string)
      requires db.Valid() && InSync()
      modifies this, db`posts, db`comments, db`revisions
      ensures db.Valid() && InSync() && name == old(name) && moviesList == old(moviesList)
      ensures postId in old(db.posts) ==>
        db.comments == old(db.comments)[CommentKey(postId, commentId) := CommentRecord(commentId, 1, 0, false)]
        && db.revisions == old(db.revisions)[RevKey(postId, commentId, 0) := body]
        && db.posts == old(db.posts)[postId := old(db.posts)[postId].(commented := true)]
        && Mirrors(db.posts[postId])
      ensures postId !in old(db.posts) ==>
        db.posts == old(db.posts) && db.comments == old(db.comments)
        && db.revisions == old(db.revisions) && unchanged(this)
    {
      if postId in db.posts {
        var key := CommentKey(postId, commentId);
        db.comments := db.comments[key := CommentRecord(commentId, 1, 0, false)];
        db.revisions := db.revisions[RevKey(postId, commentId, 0) := body];
        db.posts := db.posts[postId := db.posts[postId].(commented := true)];
        Populate();
      }
    }
  }
}

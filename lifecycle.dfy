/** The reply lifecycle: `submit_comment` posts a reply with the signature
    footer and records it, `update_comment` edits it into its next revision,
    `comment_on_post` runs aggregation and formatting under the processing
    flag, the `process_post` task decides whether to reply at all and the
    `review_comment` task deletes or revises a reply later. */
module Lifecycle {
  import opened Common
  import opened Text
  import opened Aggregator
  import opened Formatter
  import opened Records
  import opened Store
  import opened Posts
  import opened Decision
  import opened MediaTypes

  // ---------------------------------------------------------------------
  // The signature footer

  // The constant parts of the links, each short enough for the verifier to
  // check for braces on its own.
  const ComposeTo: string := "http://www.reddit.com/message/compose/?to="
  const IgnoreSubject: string := "&subject=IGNORE%20ME&message="
  const IgnoreLabel: string := "[IGNORE%20ME]"
  const IgnoreImage: string := "(http://i.imgur.com/s2jMqQN.jpg\\)"
  const StopLabel: string := "[Stop&nbsp;Replying]("
  const DeleteComposeTo: string := "http://reddit.com/message/compose/?to="
  const DeleteSubject: string := "&subject=delete&message=delete%20"
  const SubredditRoot: string := "https://www.reddit.com/r/"
  const SourceUrl: string := "(https://github.com/stevenviola/moviesbot)"
  const Created: string := "Created&nbsp;and&nbsp;maintained&nbsp;by"
  const Maintainer: string := "&nbsp;[\\/u/stevenviola]"
  const MaintainerUrl: string := "(http://www.reddit.com/message/compose/"
  const MaintainerQuery: string := "?to=stevenviola)"

  function IgnoreLink(cfg: Config): string {
    ComposeTo + cfg.user + IgnoreSubject + IgnoreLabel + IgnoreImage
  }

  /** The delete link keeps a `{thing_id}` placeholder for `update_comment`. */
  function DeleteLinkHead(cfg: Config): string {
    DeleteComposeTo + cfg.user + DeleteSubject
  }

  function FaqLink(cfg: Config): string {
    SubredditRoot + cfg.subreddit + "/wiki/faq"
  }

  const SourceLink: string := "[Source]" + SourceUrl
  const MaintainerLine: string := Created + Maintainer + MaintainerUrl + MaintainerQuery

  const DeleteLabel: string := "[Delete]("

  /** `SIG_LINKS`, after the module-level formatting with the configuration. */
  function SigLinks(cfg: Config): seq<string> {
    [ "[](#bot)",
      StopLabel + IgnoreLink(cfg) + ")",
      DeleteLabel + DeleteLinkHead(cfg) + "{thing_id}" + ")",
      "[FAQ](" + FaqLink(cfg) + ")",
      SourceLink,
      MaintainerLine,
      "[](#bot)" ]
  }

  function Carets(links: seq<string>): (r: seq<string>)
    ensures |r| == |links|
    ensures forall i :: 0 <= i < |links| ==> r[i] == "^" + links[i]
  {
    if links == [] then [] else ["^" + links[0]] + Carets(links[1..])
  }

  const Sep: string := " ^| "
  const Rule: string := "\n---\n"

  /** A rule, then every link in superscript, separated by ' ^| '. */
  function FooterOf(links: seq<string>): string {
    Rule + Join(Sep, Carets(links))
  }

  /** The footer up to the `{thing_id}` placeholder in link `i`, whose text
      before the placeholder is `pre`, and after it, where `post` follows. */
  function HeadOf(links: seq<string>, i: nat, pre: string): string
    requires i <= |links|
  {
    Rule + Join(Sep, Carets(links[..i])) + Sep + ("^" + pre)
  }

  function TailOf(links: seq<string>, i: nat, post: string): string
    requires i < |links|
  {
    post + Sep + Join(Sep, Carets(links[i + 1..]))
  }

  /** The footer `submit_comment` appends to every reply. */
  function Footer(cfg: Config): string {
    FooterOf(SigLinks(cfg))
  }

  function FooterHead(cfg: Config): string {
    HeadOf(SigLinks(cfg), 2, DeleteLabel + DeleteLinkHead(cfg))
  }

  function FooterTail(cfg: Config): string {
    TailOf(SigLinks(cfg), 2, ")")
  }

  lemma {:induction false} JoinAround(sep: string, pre: seq<string>, x: string, post: seq<string>)
    requires pre != [] && post != []
    ensures Join(sep, pre + [x] + post) == Join(sep, pre) + sep + x + sep + Join(sep, post)
  {
    var all := pre + [x] + post;
    var jp := Join(sep, post);
    if |pre| == 1 {
      assert all[0] == pre[0] && all[1..] == [x] + post;
      assert ([x] + post)[1..] == post;
      assert Join(sep, all) == pre[0] + sep + (x + sep + jp);
      ConcatAssoc(pre[0] + sep, x + sep, jp);
      ConcatAssoc(pre[0], sep, x + sep);
      ConcatAssoc(pre[0] + sep, x, sep);
    } else {
      assert all[0] == pre[0] && all[1..] == pre[1..] + [x] + post;
      JoinAround(sep, pre[1..], x, post);
      var jr := Join(sep, pre[1..]);
      assert Join(sep, all) == pre[0] + sep + (jr + sep + x + sep + jp);
      assert Join(sep, pre) == pre[0] + sep + jr;
      ConcatAssoc(pre[0] + sep, jr + sep + x + sep, jp);
      ConcatAssoc(pre[0] + sep, jr + sep + x, sep);
      ConcatAssoc(pre[0] + sep, jr + sep, x);
      ConcatAssoc(pre[0] + sep, jr, sep);
    }
  }

  lemma Regroup(r: string, j: string, s: string, c: string, d: string, p: string, q: string, k: string)
    ensures r + (j + s + (c + (d + p + q)) + s + k) == (r + j + s + (c + d)) + p + (q + s + k)
  {
    ConcatAssoc(c, d + p, q);
    ConcatAssoc(c, d, p);
    assert c + (d + p + q) == c + d + p + q;
    assert r + (j + s + (c + d + p + q) + s + k) == r + j + s + c + d + p + q + s + k;
  }

  /** A footer whose link `i` holds the placeholder between `pre` and `post`
      is its head, the placeholder and its tail. */
  lemma FooterAround(links: seq<string>, i: nat, pre: string, post: string)
    requires 0 < i < |links| - 1 && links[i] == pre + "{thing_id}" + post
    ensures FooterOf(links) == HeadOf(links, i, pre) + "{thing_id}" + TailOf(links, i, post)
  {
    var before, x, after := links[..i], links[i], links[i + 1..];
    assert links == before + [x] + after;
    CaretsAppend(before, [x]);
    CaretsAppend(before + [x], after);
    assert Carets([x]) == ["^" + x];
    var j, k := Join(Sep, Carets(before)), Join(Sep, Carets(after));
    JoinAround(Sep, Carets(before), "^" + x, Carets(after));
    assert Join(Sep, Carets(links)) == j + Sep + ("^" + x) + Sep + k;
    Regroup(Rule, j, Sep, "^", pre, "{thing_id}", post, k);
  }

  /** The footer holds the delete link's `{thing_id}` placeholder between a
      head and a tail. */
  lemma FooterSplit(cfg: Config)
    ensures Footer(cfg) == FooterHead(cfg) + "{thing_id}" + FooterTail(cfg)
  {
    FooterAround(SigLinks(cfg), 2, DeleteLabel + DeleteLinkHead(cfg), ")");
  }

  lemma {:induction false} CaretsAppend(a: seq<string>, b: seq<string>)
    ensures Carets(a + b) == Carets(a) + Carets(b)
  {
    if a == [] {
      assert a + b == b;
    } else {
      assert (a + b)[1..] == a[1..] + b;
      CaretsAppend(a[1..], b);
    }
  }

  lemma ComposeToBraces()
    ensures NoBraces(ComposeTo)
  {
    NoBracesOfChars(ComposeTo);
  }

  lemma IgnoreSubjectBraces()
    ensures NoBraces(IgnoreSubject)
  {
    NoBracesOfChars(IgnoreSubject);
  }

  lemma IgnoreLabelBraces()
    ensures NoBraces(IgnoreLabel)
  {
    NoBracesOfChars(IgnoreLabel);
  }

  lemma SepBraces()
    ensures NoBraces(Sep) && NoBraces("^")
  {
    NoBracesOfChars(Sep);
    NoBracesOfChars("^");
  }

  lemma IgnoreImageBraces()
    ensures NoBraces(IgnoreImage)
  {
    NoBracesOfChars(IgnoreImage);
  }

  lemma StopLabelBraces()
    ensures NoBraces(StopLabel)
  {
    NoBracesOfChars(StopLabel);
  }

  lemma DeleteComposeToBraces()
    ensures NoBraces(DeleteComposeTo)
  {
    NoBracesOfChars(DeleteComposeTo);
  }

  lemma DeleteSubjectBraces()
    ensures NoBraces(DeleteSubject)
  {
    NoBracesOfChars(DeleteSubject);
  }

  lemma SubredditRootBraces()
    ensures NoBraces(SubredditRoot)
  {
    NoBracesOfChars(SubredditRoot);
  }

  lemma SourceUrlBraces()
    ensures NoBraces(SourceUrl)
  {
    NoBracesOfChars(SourceUrl);
  }

  lemma CreatedBraces()
    ensures NoBraces(Created)
  {
    NoBracesOfChars(Created);
  }

  lemma MaintainerBraces()
    ensures NoBraces(Maintainer)
  {
    NoBracesOfChars(Maintainer);
  }

  lemma MaintainerUrlBraces()
    ensures NoBraces(MaintainerUrl)
  {
    NoBracesOfChars(MaintainerUrl);
  }

  lemma MaintainerQueryBraces()
    ensures NoBraces(MaintainerQuery)
  {
    NoBracesOfChars(MaintainerQuery);
  }

  lemma IgnoreLinkBraces(cfg: Config)
    requires NoBraces(cfg.user)
    ensures NoBraces(StopLabel + IgnoreLink(cfg) + ")")
  {
    ComposeToBraces();
    IgnoreSubjectBraces();
    IgnoreLabelBraces();
    IgnoreImageBraces();
    StopLabelBraces();
    NoBracesConcat(ComposeTo, cfg.user);
    NoBracesConcat(ComposeTo + cfg.user, IgnoreSubject);
    NoBracesConcat(ComposeTo + cfg.user + IgnoreSubject, IgnoreLabel);
    NoBracesConcat(ComposeTo + cfg.user + IgnoreSubject + IgnoreLabel, IgnoreImage);
    NoBracesOfChars(")");
    NoBracesConcat(StopLabel, IgnoreLink(cfg));
    NoBracesConcat(StopLabel + IgnoreLink(cfg), ")");
  }

  lemma DeleteLinkBraces(cfg: Config)
    requires NoBraces(cfg.user)
    ensures NoBraces(DeleteLinkHead(cfg))
  {
    DeleteComposeToBraces();
    DeleteSubjectBraces();
    NoBracesConcat(DeleteComposeTo, cfg.user);
    NoBracesConcat(DeleteComposeTo + cfg.user, DeleteSubject);
  }

  lemma FaqLinkBraces(cfg: Config)
    requires NoBraces(cfg.subreddit)
    ensures NoBraces("[FAQ](" + FaqLink(cfg) + ")")
  {
    SubredditRootBraces();
    NoBracesConcat(SubredditRoot, cfg.subreddit);
    NoBracesOfChars("/wiki/faq");
    NoBracesOfChars("[FAQ](");
    NoBracesOfChars(")");
    NoBracesConcat(SubredditRoot + cfg.subreddit, "/wiki/faq");
    NoBracesConcat("[FAQ](", FaqLink(cfg));
    NoBracesConcat("[FAQ](" + FaqLink(cfg), ")");
  }

  lemma ConstantLinkBraces()
    ensures NoBraces(SourceLink) && NoBraces(MaintainerLine)
  {
    SourceUrlBraces();
    CreatedBraces();
    MaintainerBraces();
    MaintainerUrlBraces();
    MaintainerQueryBraces();
    NoBracesOfChars("[Source]");
    NoBracesConcat("[Source]", SourceUrl);
    NoBracesConcat(Created, Maintainer);
    NoBracesConcat(Created + Maintainer, MaintainerUrl);
    NoBracesConcat(Created + Maintainer + MaintainerUrl, MaintainerQuery);
  }

  lemma CaretsBraces(links: seq<string>)
    requires forall i :: 0 <= i < |links| ==> NoBraces(links[i])
    ensures NoBraces(Join(Sep, Carets(links)))
  {
    var c := Carets(links);
    SepBraces();
    forall i | 0 <= i < |c| ensures NoBraces(c[i]) {
      NoBracesConcat("^", links[i]);
    }
    NoBracesJoin(Sep, c);
  }

  /** Head and tail are free of braces when the other links and the text
      around the placeholder are. */
  lemma AroundBraces(links: seq<string>, i: nat, pre: string, post: string)
    requires 0 < i < |links| - 1
    requires forall j :: 0 <= j < |links| && j != i ==> NoBraces(links[j])
    requires NoBraces(pre) && NoBraces(post)
    ensures NoBraces(HeadOf(links, i, pre)) && NoBraces(TailOf(links, i, post))
  {
    SepBraces();
    NoBracesOfChars(Rule);
    CaretsBraces(links[..i]);
    CaretsBraces(links[i + 1..]);
    var h := Rule + Join(Sep, Carets(links[..i]));
    NoBracesConcat(Rule, Join(Sep, Carets(links[..i])));
    NoBracesConcat(h, Sep);
    NoBracesConcat("^", pre);
    NoBracesConcat(h + Sep, "^" + pre);
    NoBracesConcat(post, Sep);
    NoBracesConcat(post + Sep, Join(Sep, Carets(links[i + 1..])));
  }

  /** With a user and a subreddit name free of braces, the footer has no
      brace besides its placeholder, so `update_comment` can format it. */
  lemma FooterBraces(cfg: Config)
    requires NoBraces(cfg.user) && NoBraces(cfg.subreddit)
    ensures NoBraces(FooterHead(cfg)) && NoBraces(FooterTail(cfg))
  {
    var links := SigLinks(cfg);
    NoBracesOfChars("[](#bot)");
    IgnoreLinkBraces(cfg);
    DeleteLinkBraces(cfg);
    FaqLinkBraces(cfg);
    ConstantLinkBraces();
    NoBracesOfChars(DeleteLabel);
    NoBracesConcat(DeleteLabel, DeleteLinkHead(cfg));
    NoBracesOfChars(")");
    AroundBraces(links, 2, DeleteLabel + DeleteLinkHead(cfg), ")");
  }

  /** With brace-free template text and configuration, formatting the
      submitted body puts the comment's name where the placeholder was. */
  lemma FooterSubstitution(text: string, cfg: Config, id: string)
    requires NoBraces(text) && NoBraces(cfg.user) && NoBraces(cfg.subreddit)
    ensures FormatThingId(text + Footer(cfg), id) == Some(text + FooterHead(cfg) + id + FooterTail(cfg))
  {
    FooterSplit(cfg);
    FooterBraces(cfg);
    NoBracesConcat(text, FooterHead(cfg));
    ConcatAssoc(text, FooterHead(cfg) + "{thing_id}", FooterTail(cfg));
    ConcatAssoc(text, FooterHead(cfg), "{thing_id}");
    SubstitutePlaceholder(text + FooterHead(cfg), FooterTail(cfg), id);
    ConcatAssoc(text, FooterHead(cfg), id);
  }

  // ---------------------------------------------------------------------
  // Submitting and editing a reply

  /** `update_comment`: the next revision of the stored comment is `body` with
      `{thing_id}` replaced by the comment's name; Reddit's copy is edited to
      it and the comment's revision number moves on. Python raises, and
      nothing changes, when the comment is not stored or the body has
      another replacement field or a stray brace. */
  method UpdateComment(db: Datastore, postId: string, commentId: string, body: string) returns (ok: bool)
    requires db.Valid()
    modifies db`comments, db`revisions, db`effects
    ensures db.Valid()
    ensures var k := CommentKey(postId, commentId);
      ok <==> k in old(db.comments) && FormatThingId(body, commentId).Some?
    ensures ok ==>
      var k := CommentKey(postId, commentId);
      var rev := old(db.comments)[k].revision + 1;
      var t := FormatThingId(body, commentId).value;
      db.comments == old(db.comments)[k := old(db.comments)[k].(revision := rev)]
      && db.revisions == old(db.revisions)[RevKey(postId, commentId, rev) := t]
      && db.effects == old(db.effects) + [EditComment(commentId, t)]
    ensures !ok ==>
      db.comments == old(db.comments) && db.revisions == old(db.revisions) && db.effects == old(db.effects)
  {
    var k := CommentKey(postId, commentId);
    if k !in db.comments {
      return false;
    }
    var rev := db.comments[k].revision + 1;
    var t := FormatThingId(body, commentId);
    if t.None? {
      return false;
    }
    db.effects := db.effects + [EditComment(commentId, t.value)];
    db.revisions := db.revisions[RevKey(postId, commentId, rev) := t.value];
    db.comments := db.comments[k := db.comments[k].(revision := rev)];
    ok := true;
  }

  /** What posting `full` under the post with id `postId` and name `name`
      does to the comments, revisions and Reddit calls, from (`c0`, `r0`,
      `e0`) to (`c1`, `r1`, `e1`); `stored` says whether the post has a
      record. The reply is always posted. When Reddit names the new comment,
      `add_comment_to_post` stores it (score 1, revision 0, not deleted)
      with `full` as revision 0 if the post is stored, and `update_comment`
      then writes revision 1 and edits Reddit's copy; `ok` is false exactly
      when `update_comment` raises. */
  ghost predicate Submitted(stored: bool, postId: string, name: string, full: string, result: PostResult, ok: bool,
                            c0: map<CommentKey, CommentRecord>, r0: map<RevKey, string>, e0: seq<Effect>,
                            c1: map<CommentKey, CommentRecord>, r1: map<RevKey, string>, e1: seq<Effect>)
  {
    match result
    case Created(c) =>
      var comments1 := if stored then c0[CommentKey(postId, c) := CommentRecord(c, 1, 0, false)] else c0;
      var revisions1 := if stored then r0[RevKey(postId, c, 0) := full] else r0;
      var k := CommentKey(name, c);
      var t := FormatThingId(full, c);
      (ok <==> k in comments1 && t.Some?)
      && (ok ==>
            c1 == comments1[k := comments1[k].(revision := comments1[k].revision + 1)]
            && r1 == revisions1[RevKey(name, c, comments1[k].revision + 1) := t.value]
            && e1 == e0 + [PostComment(name, full), EditComment(c, t.value)])
      && (!ok ==> c1 == comments1 && r1 == revisions1 && e1 == e0 + [PostComment(name, full)])
    case _ =>
      ok && c1 == c0 && r1 == r0 && e1 == e0 + [PostComment(name, full)]
  }

  /** The stored posts after a reply: the post is marked commented when
      Reddit names the new comment and it has a record. */
  function CommentedPosts(posts: map<string, PostRecord>, postId: string, result: PostResult): map<string, PostRecord> {
    if result.Created? && postId in posts then posts[postId := posts[postId].(commented := true)] else posts
  }

  /** The steps of `submit_comment` after the footer is appended: `body` is
      posted and, under the name Reddit gives it, recorded and revised. */
  method PostReply(db: Datastore, post: PostObject, body: string, result: PostResult) returns (ok: bool)
    requires post.db == db && db.Valid() && post.InSync()
    modifies post, db`posts, db`comments, db`revisions, db`effects
    ensures db.Valid() && post.InSync()
    ensures post.name == old(post.name) && post.moviesList == old(post.moviesList)
    ensures post.processing == old(post.processing)
    ensures db.posts == CommentedPosts(old(db.posts), post.postId, result)
    ensures Submitted(post.postId in old(db.posts), post.postId, old(post.name), body, result, ok,
                      old(db.comments), old(db.revisions), old(db.effects), db.comments, db.revisions, db.effects)
  {
    var name := post.name;
    db.effects := db.effects + [PostComment(name, body)];
    if result.Created? {
      var c := result.commentName;
      post.AddCommentToPost(c, body);
      ok := UpdateComment(db, name, c, body);
    } else {
      ok := true;
    }
  }

  /** `submit_comment`: the text with the footer is posted under the post
      and stored as `Submitted` says. With API errors or no result nothing
      is stored and `commented` stays as it was. */
  method SubmitComment(db: Datastore, post: PostObject, text: string, cfg: Config, result: PostResult) returns (ok: bool)
    requires post.db == db && db.Valid() && post.InSync()
    modifies post, db`posts, db`comments, db`revisions, db`effects
    ensures db.Valid() && post.InSync()
    ensures post.name == old(post.name) && post.moviesList == old(post.moviesList)
    ensures post.processing == old(post.processing)
    ensures db.posts == CommentedPosts(old(db.posts), post.postId, result)
    ensures Submitted(post.postId in old(db.posts), post.postId, old(post.name), text + Footer(cfg), result, ok,
                      old(db.comments), old(db.revisions), old(db.effects), db.comments, db.revisions, db.effects)
  {
    ok := PostReply(db, post, text + Footer(cfg), result);
  }

  // ---------------------------------------------------------------------
  // Replying to a post

  const NoMoviesText: string := "Sorry, I was unable to find any movies in this post\n"

  /** Whether `comment_on_post` replies: there are ids (otherwise
      `get_movie_data` gives False and indexing it raises), and either the
      bot was summoned or some movie is kept and has a link to offer. */
  predicate Answers(movies: seq<string>, summoned: bool, catalog: Catalog) {
    movies != [] && (summoned || (Entries(movies, catalog) != [] && Touched(AllEvents(movies, catalog)) != []))
  }

  /** The text a reply to `movies` carries before the footer: the table when
      a movie is kept, the apology otherwise. */
  ghost predicate IsReplyText(text: string, movies: seq<string>, catalog: Catalog) {
    if Entries(movies, catalog) == [] then text == NoMoviesText
    else exists d :: IsMoviesData(d, movies, catalog) && IsReply(text, d)
  }

  /** The decisions in the body of the `try` in `comment_on_post`: the text
      to submit, if any, before the footer. */
  method ReplyText(movies: seq<string>, summoned: bool, catalog: Catalog) returns (text: Option<string>)
    ensures text.Some? <==> Answers(movies, summoned, catalog)
    ensures text.Some? ==> IsReplyText(text.value, movies, catalog)
  {
    text := None;
    var data := GetMovieData(movies, catalog);
    if data.None? {
      return;
    }
    if |data.value.movies| > 0 {
      var t := FormatNewPost(data.value);
      ColumnsEmptyIff(data.value.mediaTypes, Touched(AllEvents(movies, catalog)));
      // `t` is never False here, so the `elif summoned` branch that follows
      // in the source cannot be taken.
      if t.Some? && (|data.value.mediaTypes| > 0 || summoned) {
        text := t;
      }
    } else if summoned {
      text := Some(NoMoviesText);
    }
  }

  /** The state changes of `comment_on_post`: the post is marked
      processing, `text` (if any) is submitted, any exception is swallowed,
      and the mark is cleared on every path. `ok` says whether the
      submission went through without raising. */
  method SubmitMarked(db: Datastore, post: PostObject, text: Option<string>, cfg: Config, result: PostResult)
    returns (ghost ok: bool)
    requires post.db == db && db.Valid() && post.InSync()
    modifies post, db`posts, db`comments, db`revisions, db`effects
    ensures db.Valid() && post.InSync()
    ensures post.postId in old(db.posts) ==> !post.processing
    ensures text.None? ==>
      db.comments == old(db.comments) && db.revisions == old(db.revisions) && db.effects == old(db.effects)
      && db.posts == Unmarked(old(db.posts), post.postId)
    ensures text.Some? ==>
      db.posts == Unmarked(CommentedPosts(old(db.posts), post.postId, result), post.postId)
      && Submitted(post.postId in old(db.posts), post.postId, old(post.name), text.value + Footer(cfg), result, ok,
                   old(db.comments), old(db.revisions), old(db.effects), db.comments, db.revisions, db.effects)
  {
    ok := true;
    ghost var posts0 := db.posts;
    post.SetProcessing(true);
    assert db.posts == Marked(posts0, post.postId, true);
    if text.Some? {
      ok := SubmitComment(db, post, text.value, cfg, result);
    }
    ghost var posts2 := db.posts;
    post.SetProcessing(false);
    assert db.posts == Marked(posts2, post.postId, false);
    MarkThenUnmark(posts0, post.postId, result);
  }

  /** The stored posts with the processing mark of `postId` set to `flag`. */
  function Marked(posts: map<string, PostRecord>, postId: string, flag: bool): map<string, PostRecord> {
    if postId in posts then posts[postId := posts[postId].(processing := flag)] else posts
  }

  /** Marking a post processing for the time of the work and clearing the
      mark afterwards leaves it as clearing alone would. */
  lemma MarkThenUnmark(posts: map<string, PostRecord>, postId: string, result: PostResult)
    ensures Marked(Marked(posts, postId, true), postId, false) == Unmarked(posts, postId)
    ensures Marked(CommentedPosts(Marked(posts, postId, true), postId, result), postId, false)
            == Unmarked(CommentedPosts(posts, postId, result), postId)
  {
  }

  /** The stored posts with the processing mark of `postId` cleared. */
  function Unmarked(posts: map<string, PostRecord>, postId: string): map<string, PostRecord> {
    Marked(posts, postId, false)
  }

  /** `comment_on_post`. The reply depends only on the movie list read before
      the processing mark is set, so it is worked out first here. */
  method CommentOnPost(db: Datastore, post: PostObject, summoned: bool, catalog: Catalog, cfg: Config,
                       result: PostResult)
    returns (text: Option<string>, ghost ok: bool)
    requires post.db == db && db.Valid() && post.InSync()
    modifies post, db`posts, db`comments, db`revisions, db`effects
    ensures db.Valid() && post.InSync()
    ensures post.postId in old(db.posts) ==> !post.processing
    ensures text.Some? <==> Answers(old(post.moviesList), summoned, catalog)
    ensures text.None? ==>
      db.comments == old(db.comments) && db.revisions == old(db.revisions) && db.effects == old(db.effects)
      && db.posts == Unmarked(old(db.posts), post.postId)
    ensures text.Some? ==>
      IsReplyText(text.value, old(post.moviesList), catalog)
      && db.posts == Unmarked(CommentedPosts(old(db.posts), post.postId, result), post.postId)
      && Submitted(post.postId in old(db.posts), post.postId, old(post.name), text.value + Footer(cfg), result, ok,
                   old(db.comments), old(db.revisions), old(db.effects), db.comments, db.revisions, db.effects)
  {
    text := ReplyText(post.moviesList, summoned, catalog);
    ok := SubmitMarked(db, post, text, cfg, result);
  }

  // ---------------------------------------------------------------------
  // The `process_post` task

  /** The gate in `process_post`: the post is not being processed, has not
      been answered (unless forced), and `should_comment` agrees. */
  predicate Gate(rec: PostRecord, forced: bool, summoned: bool,
                 white: set<string>, black: set<string>, ignored: set<string>) {
    !rec.processing && (!rec.commented || forced)
    && ShouldComment(rec.subreddit, rec.author, forced, summoned, white, black, ignored)
  }

  /** The part of `process_post.post` after the post is opened. When the
      gate refuses, or there is nothing to say, the stored posts are as they
      were: the gate only lets through a post that is not processing, so
      clearing the mark changes nothing. After a reply, the post is marked
      commented when Reddit names the comment. */
  method CommentIfAllowed(db: Datastore, post: PostObject, forced: bool, summoned: bool,
                          catalog: Catalog, cfg: Config, result: PostResult)
    returns (text: Option<string>, ghost ok: bool)
    requires post.db == db && db.Valid() && post.InSync()
    modifies post, db`posts, db`comments, db`revisions, db`effects
    ensures db.Valid()
    ensures text.Some? <==>
      Gate(old(post.Snapshot()), forced, summoned, old(db.whitelisted.Keys), old(db.blacklisted.Keys),
           old(db.IgnoredAuthors()))
      && Answers(old(post.moviesList), summoned, catalog)
    ensures text.None? ==>
      db.posts == old(db.posts) && db.comments == old(db.comments)
      && db.revisions == old(db.revisions) && db.effects == old(db.effects)
    ensures text.Some? ==>
      IsReplyText(text.value, old(post.moviesList), catalog)
      && db.posts == CommentedPosts(old(db.posts), post.postId, result)
      && Submitted(post.postId in old(db.posts), post.postId, old(post.name), text.value + Footer(cfg), result, ok,
                   old(db.comments), old(db.revisions), old(db.effects), db.comments, db.revisions, db.effects)
  {
    text, ok := None, true;
    if !post.processing && (!post.commented || forced)
       && ShouldComment(post.subreddit, post.author, forced, summoned,
                        db.whitelisted.Keys, db.blacklisted.Keys, db.IgnoredAuthors())
    {
      UnmarkedOfUnmarked(db.posts, post.postId, result);
      text, ok := CommentOnPost(db, post, summoned, catalog, cfg, result);
    }
  }

  /** Clearing the processing mark of a post that is not processing changes
      nothing, before or after the post is marked commented. */
  lemma UnmarkedOfUnmarked(posts: map<string, PostRecord>, postId: string, result: PostResult)
    requires postId in posts ==> !posts[postId].processing
    ensures Unmarked(posts, postId) == posts
    ensures Unmarked(CommentedPosts(posts, postId, result), postId) == CommentedPosts(posts, postId, result)
  {
    if postId in posts {
      assert posts[postId].(processing := false) == posts[postId];
    }
  }

  /** `process_post.post`: open the post (the task fails when it cannot be
      built) and comment on it when the gate lets it through. `rec` is the
      record the post was opened from; a post not yet stored is stored
      first, under its own name. `ok` is false when `update_comment` raised
      inside the swallowing `comment_on_post`. */
  method ProcessPost(db: Datastore, postId: string, forced: bool, summoned: bool, payload: Option<Payload>,
                     extract: Extractor, catalog: Catalog, cfg: Config, result: PostResult)
    returns (raised: bool, text: Option<string>, ghost rec: PostRecord, ghost ok: bool)
    requires db.Valid()
    modifies db`posts, db`comments, db`revisions, db`effects
    ensures db.Valid()
    ensures postId in old(db.posts) ==> !raised && rec == old(db.posts)[postId]
    ensures postId !in old(db.posts) ==>
      (raised <==> Unbuildable(payload, extract))
    ensures postId !in old(db.posts) && !raised ==>
      payload.Some? && payload.value.kind.Some?
      && rec == NewRecord(payload.value.kind.value, payload.value, rec.moviesList)
      && var found := FoundIds(extract, LinkSources(payload.value.kind.value, payload.value));
      found.Some? && IsEnumeration(rec.moviesList, found.value)
    ensures raised ==> text.None?
    ensures text.Some? <==>
      !raised && Gate(rec, forced, summoned, old(db.whitelisted.Keys), old(db.blacklisted.Keys), old(db.IgnoredAuthors()))
      && Answers(rec.moviesList, summoned, catalog)
    ensures var posts1 := if raised || postId in old(db.posts) then old(db.posts) else old(db.posts)[rec.name := rec];
      (text.None? ==>
         db.posts == posts1 && db.comments == old(db.comments)
         && db.revisions == old(db.revisions) && db.effects == old(db.effects))
      && (text.Some? ==>
         IsReplyText(text.value, rec.moviesList, catalog)
         && db.posts == CommentedPosts(posts1, postId, result)
         && Submitted(postId in posts1, postId, rec.name, text.value + Footer(cfg), result, ok,
                      old(db.comments), old(db.revisions), old(db.effects), db.comments, db.revisions, db.effects))
  {
    ok := true;
    var post := PostObject.Open(db, postId, payload, extract);
    if post == null {
      return true, None, PostRecord("", "", [], "", None, "", false, false), ok;
    }
    raised, rec := false, post.Snapshot();
    text, ok := CommentIfAllowed(db, post, forced, summoned, catalog, cfg, result);
  }

  // ---------------------------------------------------------------------
  // The `review_comment` task

  /** A comment scoring below this is deleted. */
  const DeleteBelow: int := -2

  /** The stored post is loaded without a payload or an extraction. */
  function NoIds(text: string): Option<seq<string>> {
    None
  }

  /** `format_new_post(get_movie_data(movies))` for a non-empty id list. */
  method TableText(movies: seq<string>, catalog: Catalog) returns (text: Option<string>)
    requires movies != []
    ensures text.Some? <==> Entries(movies, catalog) != []
    ensures text.Some? ==> IsReplyText(text.value, movies, catalog)
  {
    var data := GetMovieData(movies, catalog);
    text := FormatNewPost(data.value);
  }

  /** `TableText`, as the recheck uses it: only whether there is a text
      matters to the decision; what the text is, `TableText` states. */
  method RecheckedText(movies: seq<string>, catalog: Catalog) returns (text: Option<string>)
    requires movies != []
    ensures text.Some? <==> Entries(movies, catalog) != []
  {
    text := TableText(movies, catalog);
  }

  /** The recheck in `review_comment` for a comment that is kept: the reply is
      worked out again for the post's movies and the comment is edited when
      the new text is longer than the stored revision `orig`. `persist` is
      false on the paths that return (or raise) before `comment.put()`. */
  method Recheck(db: Datastore, postId: string, commentId: string, orig: string, catalog: Catalog)
    returns (updated: Option<string>, persist: bool)
    requires db.Valid() && postId in db.posts && CommentKey(postId, commentId) in db.comments
    modifies db`posts, db`comments, db`revisions, db`effects
    ensures db.Valid() && db.posts == old(db.posts)
    ensures var movies := old(db.posts)[postId].moviesList;
      updated.Some? <==> movies != [] && Entries(movies, catalog) != []
    ensures var movies := old(db.posts)[postId].moviesList;
      var edit := updated.Some? && |updated.value| > |orig|;
      var k := CommentKey(postId, commentId);
      (movies == [] ==> !persist)
      && (movies != [] ==> (persist <==> !edit || FormatThingId(updated.value, commentId).Some?))
      && (edit && persist ==>
            var t := FormatThingId(updated.value, commentId).value;
            var rev := old(db.comments)[k].revision + 1;
            db.comments == old(db.comments)[k := old(db.comments)[k].(revision := rev)]
            && db.revisions == old(db.revisions)[RevKey(postId, commentId, rev) := t]
            && db.effects == old(db.effects) + [EditComment(commentId, t)])
      && (!(edit && persist) ==>
            db.comments == old(db.comments) && db.revisions == old(db.revisions) && db.effects == old(db.effects))
  {
    var post := PostObject.Open(db, postId, None, NoIds);
    if post.moviesList == [] {
      return None, false;
    }
    updated := RecheckedText(post.moviesList, catalog);
    persist := true;
    if updated.Some? && |updated.value| > |orig| {
      persist := UpdateComment(db, postId, commentId, updated.value);
    }
  }

  /** `review_comment.post`. `info` is what Reddit's `info.json` says about
      the comment: nothing, no children, or the listing with its score. The
      comment record is written back (`comment.put()`) only on the paths
      that reach it; the ndb context cache hands `update_comment` the same
      entity, so a revision it writes is part of that record. */
  method ReviewComment(db: Datastore, commentId: string, postId: string, info: Option<Option<int>>,
                       catalog: Catalog)
    returns (updated: Option<string>)
    requires db.Valid()
    modifies db`posts, db`comments, db`revisions, db`effects
    ensures db.Valid() && db.posts == old(db.posts)
    ensures var k := CommentKey(postId, commentId);
      k !in old(db.comments) || info.None? || info.value.None? ==>
        updated.None? && db.comments == old(db.comments) && db.revisions == old(db.revisions)
        && db.effects == old(db.effects)
    ensures var k := CommentKey(postId, commentId);
      k in old(db.comments) && info.Some? && info.value.Some? && info.value.value < DeleteBelow ==>
        updated.None?
        && db.comments == old(db.comments)[k := old(db.comments)[k].(score := info.value.value, deleted := true)]
        && db.effects == old(db.effects) + [DeleteThing(commentId)]
        && db.revisions == old(db.revisions)
    ensures var k := CommentKey(postId, commentId);
      k in old(db.comments) && info.Some? && info.value.Some? && info.value.value >= DeleteBelow ==>
        var rk := RevKey(postId, commentId, old(db.comments)[k].revision);
        var movies := old(db.posts)[postId].moviesList;
        (rk !in old(db.revisions) || movies == [] ==>
           updated.None? && db.comments == old(db.comments) && db.revisions == old(db.revisions)
           && db.effects == old(db.effects))
        && (rk in old(db.revisions) && movies != [] ==>
              (updated.Some? <==> Entries(movies, catalog) != [])
              && var edit := updated.Some? && |updated.value| > |old(db.revisions)[rk]|;
              var score := info.value.value;
              (!edit ==>
                 db.comments == old(db.comments)[k := old(db.comments)[k].(score := score)]
                 && db.revisions == old(db.revisions) && db.effects == old(db.effects))
              && (edit && FormatThingId(updated.value, commentId).None? ==>
                    db.comments == old(db.comments) && db.revisions == old(db.revisions)
                    && db.effects == old(db.effects))
              && (edit && FormatThingId(updated.value, commentId).Some? ==>
                    var t := FormatThingId(updated.value, commentId).value;
                    var rev := old(db.comments)[k].revision + 1;
                    db.comments == old(db.comments)[k := old(db.comments)[k].(score := score, revision := rev)]
                    && db.revisions == old(db.revisions)[RevKey(postId, commentId, rev) := t]
                    && db.effects == old(db.effects) + [EditComment(commentId, t)]))
  {
    updated := None;
    var k := CommentKey(postId, commentId);
    if k !in db.comments || info.None? || info.value.None? {
      return;
    }
    var score := info.value.value;
    var comment := db.comments[k].(score := score);
    if score < DeleteBelow {
      db.effects := db.effects + [DeleteThing(commentId)];
      comment := comment.(deleted := true);
    } else {
      var rk := RevKey(postId, commentId, comment.revision);
      if rk !in db.revisions {
        return;
      }
      var persist;
      updated, persist := Recheck(db, postId, commentId, db.revisions[rk], catalog);
      if !persist {
        return;
      }
      comment := comment.(revision := db.comments[k].revision);
    }
    db.comments := db.comments[k := comment];
  }
}

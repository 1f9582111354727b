/** The private-message commands: `ignore_message` (ignore me / remember me),
    `add_to_list` (whitelist / blacklist), `delete_message` and `pm_summon`.
    What the source's regular expressions capture from a message body is an
    input here. */
module Commands {
  import opened Common
  import opened Text
  import opened Records
  import opened Store
  import opened Posts
  import opened Decision
  import opened Aggregator
  import opened Lifecycle

  /** A message from the inbox; `subject` is None when Reddit sends none. */
  datatype Message = Message(
    name: string,
    author: string,
    body: string,
    subject: Option<string>,
    id: string,
    wasComment: bool)

  // ---------------------------------------------------------------------
  // Message ids

  /** The value of one base-36 digit, as Python's `int(s, 36)` reads it
      (either case); None for any other character. */
  function Digit36(c: char): (d: Option<nat>)
    ensures d.Some? ==> d.value < 36
  {
    if '0' <= c <= '9' then Some(c as int - '0' as int)
    else if 'a' <= c <= 'z' then Some(c as int - 'a' as int + 10)
    else if 'A' <= c <= 'Z' then Some(c as int - 'A' as int + 10)
    else None
  }

  /** `int(s, 36)`: None (Python raises) for an empty string or a character
      that is not a base-36 digit. */
  function Base36(s: string): (r: Option<nat>)
    ensures r.Some? <==> s != [] && forall i :: 0 <= i < |s| ==> Digit36(s[i]).Some?
  {
    if s == [] then None
    else
      var init := s[..|s| - 1];
      var d := Digit36(s[|s| - 1]);
      assert forall i :: 0 <= i < |init| ==> init[i] == s[i];
      if d.None? then None
      else if init == [] then d
      else match Base36(init)
        case None => None
        case Some(v) => Some(v * 36 + d.value)
  }

  /** The digits of `n` in base 36, lower case, most significant first. */
  function ToBase36(n: nat): (s: string)
    ensures s != []
    decreases n
  {
    var c := if n % 36 < 10 then ('0' as int + n % 36) as char else ('a' as int + n % 36 - 10) as char;
    if n < 36 then [c] else ToBase36(n / 36) + [c]
  }

  /** Reading back the id Reddit writes gives the number it stands for. */
  lemma {:induction false} Base36RoundTrip(n: nat)
    ensures Base36(ToBase36(n)) == Some(n)
    decreases n
  {
    var s := ToBase36(n);
    var c := s[|s| - 1];
    assert Digit36(c) == Some(n % 36);
    if n >= 36 {
      Base36RoundTrip(n / 36);
      assert s[..|s| - 1] == ToBase36(n / 36);
    }
  }

  // ---------------------------------------------------------------------
  // ignore me / remember me

  /** `ignore_message`: the author's ignore-list entry is created or
      overwritten with the message id and body and whether the subject asks
      to be ignored. Any other subject leaves `ignored` unbound, so the
      handler raises before storing anything. */
  method IgnoreMessage(db: Datastore, m: Message) returns (out: Outcome)
    modifies db`ignoreList
    ensures out.Raised? <==>
      m.subject.None? || Base36(m.id).None?
      || (Lower(m.subject.value) != "ignore me" && Lower(m.subject.value) != "remember me")
    ensures out.Raised? ==> db.ignoreList == old(db.ignoreList)
    ensures out.Returned? ==>
      var ignore := Lower(m.subject.value) == "ignore me";
      db.ignoreList == old(db.ignoreList)[m.author := IgnoreEntry(Base36(m.id).value, m.body, ignore)]
      && out.reply == Some(if ignore then IgnoredReply else RememberedReply)
      && db.IgnoredAuthors() == (if ignore then old(db.IgnoredAuthors()) + {m.author}
                                 else old(db.IgnoredAuthors()) - {m.author})
  {
    if m.subject.None? {
      return Raised;
    }
    var subject := Lower(m.subject.value);
    var messageId := Base36(m.id);
    if messageId.None? {
      return Raised;
    }
    var ignored;
    if subject == "ignore me" {
      ignored := true;
      out := Returned(Some(IgnoredReply));
    } else if subject == "remember me" {
      ignored := false;
      out := Returned(Some(RememberedReply));
    } else {
      return Raised;
    }
    db.ignoreList := db.ignoreList[m.author := IgnoreEntry(messageId.value, m.body, ignored)];
  }

  // ---------------------------------------------------------------------
  // whitelist / blacklist

  /** `add_to_list`. With no `r/<name>` in the body the handler returns
      False. A moderator of the subreddit puts it on the list the subject
      names, unless it is already there, takes it off the other list and
      tells the subreddit's moderators; a subject naming neither list raises.
      Anyone else changes nothing. */
  method AddToList(db: Datastore, m: Message, subreddit: Option<string>, isModerator: (string, string) -> bool,
                   cfg: Config)
    returns (out: Outcome)
    requires db.Valid()
    modifies db`whitelisted, db`blacklisted, db`effects
    ensures db.Valid()
    ensures m.subject.None? || Base36(m.id).None? ==>
      out.Raised? && unchanged(db)
    ensures m.subject.Some? && Base36(m.id).Some? && subreddit.None? ==>
      out == Returned(Some(FalseReply)) && unchanged(db)
    ensures m.subject.Some? && Base36(m.id).Some? && subreddit.Some? ==>
      var sub := subreddit.value;
      var subject := Lower(m.subject.value);
      (!isModerator(sub, m.author) ==> out == Returned(None) && unchanged(db))
      && (isModerator(sub, m.author) && subject != "whitelist" && subject != "blacklist" ==>
            out.Raised? && unchanged(db))
      && (isModerator(sub, m.author) && subject == "whitelist" ==>
            out == Returned(None)
            && (sub in old(db.whitelisted) ==> unchanged(db))
            && (sub !in old(db.whitelisted) ==>
                  db.whitelisted == old(db.whitelisted)[sub := m.author]
                  && db.blacklisted == old(db.blacklisted) - {sub}
                  && db.effects == old(db.effects) + [ListedNotice(sub, cfg, subject)]))
      && (isModerator(sub, m.author) && subject == "blacklist" ==>
            out == Returned(None)
            && (sub in old(db.blacklisted) ==> unchanged(db))
            && (sub !in old(db.blacklisted) ==>
                  db.blacklisted == old(db.blacklisted)[sub := m.author]
                  && db.whitelisted == old(db.whitelisted) - {sub}
                  && db.effects == old(db.effects) + [ListedNotice(sub, cfg, subject)]))
  {
    if m.subject.None? || Base36(m.id).None? {
      return Raised;
    }
    var subject := Lower(m.subject.value);
    if subreddit.None? {
      return Returned(Some(FalseReply));
    }
    var sub := subreddit.value;
    out := Returned(None);
    if isModerator(sub, m.author) {
      if subject == "whitelist" {
        if sub !in db.whitelisted {
          db.whitelisted := db.whitelisted[sub := m.author];
          db.blacklisted := db.blacklisted - {sub};
          db.effects := db.effects + [ListedNotice(sub, cfg, subject)];
        }
      } else if subject == "blacklist" {
        if sub !in db.blacklisted {
          db.blacklisted := db.blacklisted[sub := m.author];
          db.whitelisted := db.whitelisted - {sub};
          db.effects := db.effects + [ListedNotice(sub, cfg, subject)];
        }
      } else {
        return Raised;
      }
    }
  }

  /** The message to the subreddit's moderators, addressed to `/r/<name>`
      with the subject `/r/<name> added to /u/<bot> <list>`. */
  function ListedNotice(sub: string, cfg: Config, subject: string): Effect {
    SendMessage("/r/" + sub, "/r/" + sub + " added to /u/" + cfg.user + " " + subject)
  }

  /** After a moderator's request the subreddit is on the requested list and
      not on the other one, whether or not it was listed before. */
  lemma ListedAfterRequest(white: map<string, string>, black: map<string, string>, sub: string, author: string)
    requires white.Keys !! black.Keys
    ensures var w := if sub in white then white else white[sub := author];
      var b := if sub in white then black else black - {sub};
      sub in w && sub !in b && w.Keys !! b.Keys
  {
  }

  // ---------------------------------------------------------------------
  // delete

  /** What `delete (t\d)_(\w+)` captures: the thing's full name and type. */
  datatype DeleteTarget = DeleteTarget(thingName: string, thingType: string)

  /** The stored comments named `thing` whose parent post was written by
      `author`. */
  function Owned(posts: map<string, PostRecord>, comments: map<CommentKey, CommentRecord>,
                 thing: string, author: string): set<CommentKey>
  {
    set k | k in comments && comments[k].name == thing && k.post in posts && posts[k.post].author == author
  }

  /** The keys of the stored comments named `thing`. */
  function Named(comments: map<CommentKey, CommentRecord>, thing: string): set<CommentKey> {
    set k | k in comments && comments[k].name == thing
  }

  /** The comments with the keys in `marked` flagged as deleted. */
  function MarkDeleted(comments: map<CommentKey, CommentRecord>, marked: set<CommentKey>): (r: map<CommentKey, CommentRecord>)
    ensures r.Keys == comments.Keys
  {
    map k | k in comments :: if k in marked then comments[k].(deleted := true) else comments[k]
  }

  lemma MarkOne(comments: map<CommentKey, CommentRecord>, marked: set<CommentKey>, k: CommentKey)
    requires k in comments
    ensures MarkDeleted(comments, marked)[k := MarkDeleted(comments, marked)[k].(deleted := true)]
            == MarkDeleted(comments, marked + {k})
  {
  }

  /** How many elements of `s` lie in `S`. */
  function Count<T>(s: seq<T>, S: set<T>): nat {
    if s == [] then 0 else Count(s[..|s| - 1], S) + (if s[|s| - 1] in S then 1 else 0)
  }

  lemma {:induction false} CountOutside<T>(s: seq<T>, S: set<T>, x: T)
    requires x !in s
    ensures Count(s, S) == Count(s, S - {x})
  {
    if s != [] {
      assert x !in s[..|s| - 1] by {
        assert forall i :: 0 <= i < |s| - 1 ==> s[..|s| - 1][i] == s[i];
      }
      CountOutside(s[..|s| - 1], S, x);
    }
  }

  /** A duplicate-free sequence meets every subset of its elements once per
      element. */
  lemma {:induction false} CountCard<T>(s: seq<T>, S: set<T>)
    requires NoDup(s) && S <= Elems(s)
    ensures Count(s, S) == |S|
  {
    if s == [] {
      assert S == {};
    } else {
      var init, last := s[..|s| - 1], s[|s| - 1];
      assert forall i :: 0 <= i < |init| ==> init[i] == s[i];
      assert NoDup(init);
      assert last !in init;
      assert forall y :: y in s <==> y in init || y == last;
      CountOutside(init, S, last);
      CountCard(init, S - {last});
    }
  }

  /** One step of the loop in `delete_message`. */
  lemma DeleteStep(keys: seq<CommentKey>, i: nat, owned: set<CommentKey>)
    requires i < |keys|
    ensures keys[..i + 1][..i] == keys[..i]
    ensures Count(keys[..i + 1], owned) == Count(keys[..i], owned) + (if keys[i] in owned then 1 else 0)
    ensures owned * Elems(keys[..i + 1]) ==
      (if keys[i] in owned then owned * Elems(keys[..i]) + {keys[i]} else owned * Elems(keys[..i]))
  {
    assert keys[..i + 1] == keys[..i] + [keys[i]];
    assert forall y :: y in keys[..i + 1] <==> y in keys[..i] || y == keys[i];
  }

  /** `n` copies of `e`. */
  function Repeat(e: Effect, n: nat): (r: seq<Effect>)
    ensures |r| == n && forall i :: 0 <= i < n ==> r[i] == e
  {
    if n == 0 then [] else Repeat(e, n - 1) + [e]
  }

  /** The body of the loop in `delete_message` for the stored comment `k`
      named `thing`: deleted on Reddit and flagged when the post it answers
      was written by `author`. */
  method DeleteOne(db: Datastore, k: CommentKey, thing: string, author: string,
                   ghost comments0: map<CommentKey, CommentRecord>, ghost marked: set<CommentKey>)
    returns (deleted: bool)
    requires db.Valid() && db.comments == MarkDeleted(comments0, marked)
    requires k in comments0 && comments0[k].name == thing
    modifies db`comments, db`effects
    ensures db.Valid()
    ensures deleted <==> k in Owned(db.posts, comments0, thing, author)
    ensures db.comments == MarkDeleted(comments0, if deleted then marked + {k} else marked)
    ensures db.effects == old(db.effects) + (if deleted then [DeleteThing(thing)] else [])
  {
    deleted := db.posts[k.post].author == author;
    if deleted {
      MarkOne(comments0, marked, k);
      db.effects := db.effects + [DeleteThing(thing)];
      db.comments := db.comments[k := db.comments[k].(deleted := true)];
    }
  }

  /** The loop of `delete_message` over the stored comments `keys` named
      `thing`: the ones in `owned` are deleted, in the order of `keys`. */
  method DeleteKeys(db: Datastore, keys: seq<CommentKey>, thing: string, author: string)
    returns (response: Option<Reply>)
    requires db.Valid()
    requires Elems(keys) <= Named(db.comments, thing)
    modifies db`comments, db`effects
    ensures db.Valid()
    ensures var owned := Owned(db.posts, old(db.comments), thing, author);
      db.comments == MarkDeleted(old(db.comments), owned * Elems(keys))
      && db.effects == old(db.effects) + Repeat(DeleteThing(thing), Count(keys, owned))
      && response == (if Count(keys, owned) > 0 then Some(DeletedReply) else None)
  {
    ghost var owned := Owned(db.posts, db.comments, thing, author);
    ghost var comments0, effects0 := db.comments, db.effects;
    ghost var marked: set<CommentKey>, count: nat := {}, 0;
    assert db.comments == MarkDeleted(comments0, {});
    response := None;
    for i := 0 to |keys|
      invariant db.Valid() && db.posts == old(db.posts)
      invariant marked == owned * Elems(keys[..i]) && count == Count(keys[..i], owned)
      invariant db.comments == MarkDeleted(comments0, marked)
      invariant db.effects == effects0 + Repeat(DeleteThing(thing), count)
      invariant response == (if count > 0 then Some(DeletedReply) else None)
    {
      assert keys[i] in Elems(keys);
      DeleteStep(keys, i, owned);
      var deleted := DeleteOne(db, keys[i], thing, author, comments0, marked);
      if deleted {
        ConcatAssoc(effects0, Repeat(DeleteThing(thing), count), [DeleteThing(thing)]);
        marked, count := marked + {keys[i]}, count + 1;
        response := Some(DeletedReply);
      }
    }
    assert keys[..|keys|] == keys;
  }

  /** `delete_message`: only a comment (`t1`) can be deleted, and only for the
      author of the post it answers; every stored comment of that name under
      such a post is deleted on Reddit and flagged. The reply says so when at
      least one was. The comments are visited in an unspecified order; the
      outcome does not depend on it. */
  method DeleteMessage(db: Datastore, m: Message, target: Option<DeleteTarget>) returns (out: Outcome)
    requires db.Valid()
    modifies db`comments, db`effects
    ensures db.Valid()
    ensures target.None? || target.value.thingType != "t1" ==> out == Returned(None) && unchanged(db)
    ensures target.Some? && target.value.thingType == "t1" ==>
      var owned := Owned(old(db.posts), old(db.comments), target.value.thingName, m.author);
      db.comments == MarkDeleted(old(db.comments), owned)
      && db.effects == old(db.effects) + Repeat(DeleteThing(target.value.thingName), |owned|)
      && out == Returned(if owned != {} then Some(DeletedReply) else None)
  {
    if target.None? || target.value.thingType != "t1" {
      return Returned(None);
    }
    var thing := target.value.thingName;
    ghost var owned := Owned(db.posts, db.comments, thing, m.author);
    var keys := Enumerate(Named(db.comments, thing));
    var response := DeleteKeys(db, keys, thing, m.author);
    CountCard(keys, owned);
    assert owned * Elems(keys) == owned;
    out := Returned(response);
  }

  // ---------------------------------------------------------------------
  // process (a moderator's summons by private message)

  /** What the link pattern in `pm_summon` captures: the post id and, for a
      link to a comment, the comment id. */
  datatype Link = Link(postId: string, commentId: Option<string>)

  /** The thing a link names: the comment when there is one, else the post. */
  function LinkedThing(link: Link): string {
    if link.commentId.Some? then "t1_" + link.commentId.value else "t3_" + link.postId
  }

  /** Why `pm_summon` turns a request down, checked in this order, or None
      when it goes on to post. */
  function Refusal(post: PostRecord, isModerator: bool, white: set<string>, black: set<string>,
                   ignored: set<string>, ids: Option<seq<string>>, catalog: Catalog): (r: Option<Reply>)
    ensures r.None? <==>
      isModerator && ShouldComment(post.subreddit, post.author, false, false, white, black, ignored)
      && ids.Some? && !post.processing && ids.value != [] && Entries(ids.value, catalog) != []
    ensures r == Some(NotModerator(post.subreddit)) <==> !isModerator
  {
    if !isModerator then Some(NotModerator(post.subreddit))
    else if !ShouldComment(post.subreddit, post.author, false, false, white, black, ignored) then Some(NotAllowed)
    else if ids.None? then Some(NoImdbLinks)
    else if post.processing then Some(StillProcessing)
    else if ids.value == [] || Entries(ids.value, catalog) == [] then Some(NoMovies)
    else None
  }

  /** `pm_summon` asks `should_comment` as if the bot were neither forced nor
      summoned, so a moderator's summons is only answered in a whitelisted
      subreddit and never for an ignored author. */
  lemma SummonsNeedsWhitelist(post: PostRecord, white: set<string>, black: set<string>,
                              ignored: set<string>, ids: Option<seq<string>>, catalog: Catalog)
    ensures Refusal(post, true, white, black, ignored, ids, catalog).None? ==>
      post.subreddit in white && post.author !in ignored
    ensures post.subreddit !in white || post.author in ignored ==>
      Refusal(post, true, white, black, ignored, ids, catalog) == Some(NotAllowed)
  {
  }

  /** `submit_comment` as `pm_summon` relies on it: the text with the footer
      is posted and stored as `Submitted` says; `ok` is false when
      `update_comment` raises. */
  method SubmitSummoned(db: Datastore, post: PostObject, text: string, cfg: Config, result: PostResult)
    returns (ok: bool)
    requires post.db == db && db.Valid() && post.InSync()
    modifies post, db`posts, db`comments, db`revisions, db`effects
    ensures db.Valid()
    ensures db.posts == CommentedPosts(old(db.posts), post.postId, result)
    ensures Submitted(post.postId in old(db.posts), post.postId, old(post.name), text + Footer(cfg), result, ok,
                      old(db.comments), old(db.revisions), old(db.effects), db.comments, db.revisions, db.effects)
  {
    ok := SubmitComment(db, post, text, cfg, result);
  }

  /** The checks `pm_summon` makes once the linked post is loaded, and the
      reply it then posts. `text` is the table posted, before the footer.
      Once every check passes, the request raises exactly when
      `update_comment` does. */
  method AnswerSummons(db: Datastore, post: PostObject, ghost rec: PostRecord, author: string,
                       ids: Option<seq<string>>, isModerator: (string, string) -> bool, catalog: Catalog,
                       cfg: Config, result: PostResult)
    returns (out: Outcome, ghost text: string)
    requires post.db == db && db.Valid() && post.InSync() && post.Mirrors(rec)
    modifies post, db`posts, db`comments, db`revisions, db`effects
    ensures db.Valid()
    ensures var r := Refusal(rec, isModerator(rec.subreddit, author),
                             old(db.whitelisted.Keys), old(db.blacklisted.Keys), old(db.IgnoredAuthors()), ids, catalog);
      (r.Some? ==> out == Returned(r) && unchanged(db))
      && (r.None? ==>
            (out == Returned(Some(Posted)) || out.Raised?)
            && ids.Some? && IsReplyText(text, ids.value, catalog)
            && db.posts == CommentedPosts(old(db.posts), post.postId, result)
            && Submitted(post.postId in old(db.posts), post.postId, rec.name, text + Footer(cfg), result,
                         out == Returned(Some(Posted)),
                         old(db.comments), old(db.revisions), old(db.effects), db.comments, db.revisions, db.effects))
  {
    text := "";
    var refusal := Refusal(post.Snapshot(), isModerator(post.subreddit, author), db.whitelisted.Keys,
                           db.blacklisted.Keys, db.IgnoredAuthors(), ids, catalog);
    if refusal.Some? {
      return Returned(refusal), text;
    }
    var table := TableText(ids.value, catalog);
    text := table.value;
    var ok := SubmitSummoned(db, post, table.value, cfg, result);
    out := if ok then Returned(Some(Posted)) else Raised;
  }

  /** `PostObject(thing)` as `pm_summon` relies on it: a stored record is
      loaded as it is; a thing not yet stored is built from its payload and
      stored under its name; failing to build it raises and stores
      nothing. */
  method OpenLinked(db: Datastore, thing: string, payload: Option<Payload>, extract: Extractor)
    returns (post: PostObject?)
    requires db.Valid()
    modifies db`posts
    ensures db.Valid()
    ensures post != null ==> post.postId == thing && post.db == db && post.InSync() && fresh(post)
    ensures thing in old(db.posts) ==> post != null && post.Mirrors(old(db.posts)[thing]) && unchanged(db)
    ensures thing !in old(db.posts) ==> (post == null <==> Unbuildable(payload, extract))
    ensures post == null ==> unchanged(db)
    ensures thing !in old(db.posts) && post != null ==>
      post.Mirrors(NewRecord(payload.value.kind.value, payload.value, post.moviesList))
      && db.posts == old(db.posts)[post.name := post.Snapshot()]
  {
    post := PostObject.Open(db, thing, payload, extract);
  }

  /** `pm_summon`: a moderator asks, by private message, for the table of
      the movies linked in the message to be posted under the linked comment
      or post. `fetch` gives what Reddit's `info.json` returns for a thing,
      `ids` what the extractor finds in the message body, `result` what
      Reddit answers to the new comment. `rec` is the linked post as the
      checks see it and `text` the table posted. */
  method PmSummon(db: Datastore, m: Message, link: Option<Link>, fetch: string -> Option<Payload>,
                  extract: Extractor, ids: Option<seq<string>>, isModerator: (string, string) -> bool,
                  catalog: Catalog, cfg: Config, result: PostResult)
    returns (out: Outcome, ghost rec: PostRecord, ghost text: string)
    requires db.Valid()
    modifies db`posts, db`comments, db`revisions, db`effects
    ensures db.Valid()
    ensures m.subject.None? || Base36(m.id).None? ==> out.Raised? && unchanged(db)
    ensures m.subject.Some? && Base36(m.id).Some? && link.None? ==>
      out == Returned(Some(MissingLink)) && unchanged(db)
    ensures m.subject.Some? && Base36(m.id).Some? && link.Some? && LinkedThing(link.value) in old(db.posts) ==>
      rec == old(db.posts)[LinkedThing(link.value)]
    ensures m.subject.Some? && Base36(m.id).Some? && link.Some? ==>
      var thing := LinkedThing(link.value);
      (thing !in old(db.posts) && Unbuildable(fetch(thing), extract) ==> out.Raised? && unchanged(db))
      && (thing !in old(db.posts) && !Unbuildable(fetch(thing), extract) ==>
            rec == NewRecord(fetch(thing).value.kind.value, fetch(thing).value, rec.moviesList))
      && (thing in old(db.posts) || !Unbuildable(fetch(thing), extract) ==>
            var posts1 := if thing in old(db.posts) then old(db.posts) else old(db.posts)[rec.name := rec];
            var r := Refusal(rec, isModerator(rec.subreddit, m.author), old(db.whitelisted.Keys),
                             old(db.blacklisted.Keys), old(db.IgnoredAuthors()), ids, catalog);
            (r.Some? ==> out == Returned(r) && db.posts == posts1 && db.comments == old(db.comments)
                         && db.revisions == old(db.revisions) && db.effects == old(db.effects))
            && (r.None? ==>
                  (out == Returned(Some(Posted)) || out.Raised?)
                  && ids.Some? && IsReplyText(text, ids.value, catalog)
                  && db.posts == CommentedPosts(posts1, thing, result)
                  && Submitted(thing in posts1, thing, rec.name, text + Footer(cfg), result,
                               out == Returned(Some(Posted)),
                               old(db.comments), old(db.revisions), old(db.effects),
                               db.comments, db.revisions, db.effects)))
  {
    rec, text := PostRecord("", "", [], "", None, "", false, false), "";
    if m.subject.None? || Base36(m.id).None? {
      return Raised, rec, text;
    }
    if link.None? {
      return Returned(Some(MissingLink)), rec, text;
    }
    var thing := LinkedThing(link.value);
    var post := OpenLinked(db, thing, fetch(thing), extract);
    if post == null {
      return Raised, rec, text;
    }
    rec := post.Snapshot();
    out, text := AnswerSummons(db, post, rec, m.author, ids, isModerator, catalog, cfg, result);
  }
}

/** The dispatchers: `search_process_reddit_posts` walks the pages of a
    Reddit search and enqueues one `process_post` task per thing found, and
    `read_messages` routes each unread inbox message to its command and
    answers it. */
module Dispatch {
  import opened Common
  import opened Text
  import opened Records
  import opened Store
  import opened Posts
  import opened Aggregator
  import opened Lifecycle
  import opened Commands

  // ---------------------------------------------------------------------
  // Search and pagination

  /** One page of a search listing: its things and the `after` cursor. */
  datatype Page = Page(items: seq<Payload>, after: Option<string>)

  /** The tasks enqueued for the things of one page, in page order. */
  function PageTasks(items: seq<Payload>, summoned: bool): (ts: seq<Task>)
    ensures |ts| == |items|
  {
    if items == [] then []
    else PageTasks(items[..|items| - 1], summoned) + [Task(items[|items| - 1].name, summoned, Some(items[|items| - 1]))]
  }

  /** The task for the `i`-th thing of a page carries that thing. */
  lemma {:induction false} PageTasksAt(items: seq<Payload>, summoned: bool, i: nat)
    requires i < |items|
    ensures PageTasks(items, summoned)[i] == Task(items[i].name, summoned, Some(items[i]))
  {
    if i < |items| - 1 {
      PageTasksAt(items[..|items| - 1], summoned, i);
    }
  }

  /** The tasks of a run of pages, page after page. */
  function PagesTasks(pages: seq<Page>, summoned: bool): seq<Task> {
    if pages == [] then []
    else PagesTasks(pages[..|pages| - 1], summoned) + PageTasks(pages[|pages| - 1].items, summoned)
  }

  /** Some thing on the page already has a stored `Post`. */
  predicate Known(items: seq<Payload>, posts: map<string, PostRecord>) {
    exists i :: 0 <= i < |items| && items[i].name in posts
  }

  /** After reading page `k` the search asks for the next page: pagination
      is still on, nothing on the page was known and there is a cursor. */
  predicate Continues(page: Page, posts: map<string, PostRecord>, recursive: bool) {
    recursive && !Known(page.items, posts) && page.after.Some?
  }

  /** How many pages a search that starts at page `k` reads. */
  function Reach(pages: seq<Page>, k: nat, posts: map<string, PostRecord>, recursive: bool): nat
    decreases |pages| - k
  {
    if k >= |pages| then 0
    else if Continues(pages[k], posts, recursive) then 1 + Reach(pages, k + 1, posts, true)
    else 1
  }

  /** `search_process_reddit_posts`. Reddit's listing for the query is
      `pages`: the search at page `k` reads `pages[k]` (the first page is
      read without a cursor and page `k + 1` is what the cursor of page `k`
      leads to); a page past the end stands for a search that returns
      nothing. Every thing on a page read is enqueued, known or not; the
      next page is read, with pagination switched back on, only when
      nothing on this page was known and the page has a cursor. `read`
      counts the pages read. */
  method SearchProcessRedditPosts(db: Datastore, pages: seq<Page>, summoned: bool, recursive: bool, k: nat)
    returns (read: nat)
    requires k <= |pages|
    modifies db`queue
    ensures read == Reach(pages, k, db.posts, recursive) && k + read <= |pages|
    ensures db.queue == old(db.queue) + PagesTasks(pages[k..k + read], summoned)
    decreases |pages| - k
  {
    if k == |pages| {
      read := 0;
      assert pages[k..k] == [];
      assert db.queue == old(db.queue) + [];
    } else {
      var page := pages[k];
      var rec := EnqueuePage(db, page.items, summoned, recursive);
      OnePage(pages, k, summoned);
      if rec && page.after.Some? {
        ghost var q0, q1 := old(db.queue), db.queue;
        var more := SearchProcessRedditPosts(db, pages, summoned, true, k + 1);
        read := 1 + more;
        SearchStep(pages, k, db.posts, recursive, summoned, more, q0, q1, db.queue);
      } else {
        read := 1;
        ReachOne(pages, k, db.posts, recursive);
      }
    }
  }

  lemma ReachOne(pages: seq<Page>, k: nat, posts: map<string, PostRecord>, recursive: bool)
    requires k < |pages| && !Continues(pages[k], posts, recursive)
    ensures Reach(pages, k, posts, recursive) == 1
  {
  }

  /** The bookkeeping of one recursive step of the search: the page read
      here followed by the run the recursive search read. */
  lemma SearchStep(pages: seq<Page>, k: nat, posts: map<string, PostRecord>, recursive: bool, summoned: bool,
                   more: nat, q0: seq<Task>, q1: seq<Task>, q2: seq<Task>)
    requires k < |pages| && Continues(pages[k], posts, recursive)
    requires more == Reach(pages, k + 1, posts, true) && k + 1 + more <= |pages|
    requires q1 == q0 + PageTasks(pages[k].items, summoned)
    requires q2 == q1 + PagesTasks(pages[k + 1..k + 1 + more], summoned)
    ensures 1 + more == Reach(pages, k, posts, recursive)
    ensures q2 == q0 + PagesTasks(pages[k..k + 1 + more], summoned)
  {
    PagesTasksSplit(pages, k, k + 1 + more, summoned);
    ConcatAssoc(q0, PageTasks(pages[k].items, summoned), PagesTasks(pages[k + 1..k + 1 + more], summoned));
  }

  lemma OnePage(pages: seq<Page>, k: nat, summoned: bool)
    requires k < |pages|
    ensures PagesTasks(pages[k..k + 1], summoned) == PageTasks(pages[k].items, summoned)
  {
    assert pages[k..k + 1] == [pages[k]];
    assert [pages[k]][..0] == [];
  }

  /** The loop over one page in `search_process_reddit_posts`: every thing
      is enqueued, and pagination is switched off as soon as a thing with a
      stored `Post` is met. */
  method EnqueuePage(db: Datastore, items: seq<Payload>, summoned: bool, recursive: bool) returns (rec: bool)
    modifies db`queue
    ensures db.queue == old(db.queue) + PageTasks(items, summoned)
    ensures rec <==> recursive && !Known(items, db.posts)
  {
    rec := recursive;
    for i := 0 to |items|
      invariant db.queue == old(db.queue) + PageTasks(items[..i], summoned)
      invariant rec <==> recursive && forall j :: 0 <= j < i ==> items[j].name !in db.posts
    {
      var post := items[i];
      assert items[..i + 1][..i] == items[..i];
      if post.name in db.posts {
        rec := false;
      }
      db.queue := db.queue + [Task(post.name, summoned, Some(post))];
    }
    assert items[..|items|] == items;
  }

  /** The tasks of pages `k` to `n` are those of page `k` and then those of
      the pages after it. */
  lemma {:induction false} PagesTasksSplit(pages: seq<Page>, k: nat, n: nat, summoned: bool)
    requires k < n <= |pages|
    ensures PagesTasks(pages[k..n], summoned) == PageTasks(pages[k].items, summoned) + PagesTasks(pages[k + 1..n], summoned)
    decreases n - k
  {
    if n == k + 1 {
      assert pages[k..n] == [pages[k]];
      assert pages[k..n][..0] == [];
      assert pages[k + 1..n] == [];
    } else {
      assert pages[k..n][..n - k - 1] == pages[k..n - 1];
      assert pages[k + 1..n][..n - k - 2] == pages[k + 1..n - 1];
      PagesTasksSplit(pages, k, n - 1, summoned);
      ConcatAssoc(PageTasks(pages[k].items, summoned), PagesTasks(pages[k + 1..n - 1], summoned),
                  PageTasks(pages[n - 1].items, summoned));
    }
  }

  /** A search reads at least the page it starts at, and the pages it reads
      are exactly a run that goes on while pagination is on, nothing known
      has been met and there is a cursor: every page but the last of the
      run allowed the next one, and the last one either stopped the search
      or was the last page Reddit had. */
  lemma {:induction false} ReachIsFirstStop(pages: seq<Page>, k: nat, posts: map<string, PostRecord>, recursive: bool)
    requires k < |pages|
    ensures var n := Reach(pages, k, posts, recursive);
      1 <= n && k + n <= |pages|
      && (forall j :: k <= j < k + n - 1 ==> Continues(pages[j], posts, if j == k then recursive else true))
      && (k + n < |pages| ==> !Continues(pages[k + n - 1], posts, if n == 1 then recursive else true))
    decreases |pages| - k
  {
    if k + 1 < |pages| && Continues(pages[k], posts, recursive) {
      ReachIsFirstStop(pages, k + 1, posts, true);
    }
  }

  /** The search starting without a cursor stops after the first page on
      which a known thing appears, however many pages Reddit has. */
  lemma {:induction false} KnownThingStopsSearch(pages: seq<Page>, posts: map<string, PostRecord>, j: nat)
    requires j < |pages| && Known(pages[j].items, posts)
    ensures Reach(pages, 0, posts, true) <= j + 1
  {
    ReachBelow(pages, 0, posts, true, j);
  }

  lemma {:induction false} ReachBelow(pages: seq<Page>, k: nat, posts: map<string, PostRecord>, recursive: bool, j: nat)
    requires k <= j < |pages| && Known(pages[j].items, posts)
    ensures k + Reach(pages, k, posts, recursive) <= j + 1
    decreases j - k
  {
    if k < j && Continues(pages[k], posts, recursive) {
      ReachBelow(pages, k + 1, posts, true, j);
    }
  }

  /** Every thing on a page the search reads is enqueued, the known ones as
      well: being known only stops the search from reading further. */
  lemma {:induction false} ReadPagesEnqueued(pages: seq<Page>, summoned: bool, j: nat, i: nat)
    requires j < |pages| && i < |pages[j].items|
    ensures Task(pages[j].items[i].name, summoned, Some(pages[j].items[i])) in PagesTasks(pages, summoned)
  {
    var last := |pages| - 1;
    if j == last {
      PageTasksAt(pages[j].items, summoned, i);
      assert PageTasks(pages[j].items, summoned)[i] in PagesTasks(pages, summoned);
    } else {
      ReadPagesEnqueued(pages[..last], summoned, j, i);
    }
  }

  // ---------------------------------------------------------------------
  // The inbox

  /** An unread inbox item: its fields, and the whole item as the payload a
      username-mention task carries. */
  datatype InboxItem = InboxItem(data: Message, raw: Payload)

  /** Where `read_messages` sends a message. */
  datatype Command =
    | Mention          // a comment with the subject 'username mention'
    | ForHuman         // any other comment: logged for a human
    | IgnoreCommand    // 'ignore me' / 'remember me'
    | ListCommand      // 'blacklist' / 'whitelist'
    | DeleteCommand    // 'delete'
    | SummonCommand    // 'process' / 're: process'
    | Unrecognised     // any other private message: logged for a human
    | NoSubject        // a private message without a subject: the handler raises

  /** Comments are told apart by their exact subject; private messages by
      their subject in lower case. */
  function CommandOf(m: Message): Command {
    if m.wasComment then
      if m.subject == Some("username mention") then Mention else ForHuman
    else if m.subject.None? then NoSubject
    else
      var s := Lower(m.subject.value);
      if s == "ignore me" || s == "remember me" then IgnoreCommand
      else if s == "blacklist" || s == "whitelist" then ListCommand
      else if s == "delete" then DeleteCommand
      else if s == "process" || s == "re: process" then SummonCommand
      else Unrecognised
  }

  /** A private message is routed the same whatever the case of its
      subject, so 'IGNORE ME' and 'Ignore Me' both ask to be ignored. */
  lemma {:induction false} LowerIdempotent(s: string)
    ensures Lower(Lower(s)) == Lower(s)
  {
    if s != [] {
      LowerIdempotent(s[1..]);
    }
  }

  lemma RouteIgnoresCase(m: Message)
    requires !m.wasComment && m.subject.Some?
    ensures CommandOf(m.(subject := Some(Lower(m.subject.value)))) == CommandOf(m)
  {
    LowerIdempotent(m.subject.value);
  }

  /** What Reddit answers the inbox handler: a thing's `info.json`, whether
      a user moderates a subreddit, whether marking a message read
      succeeds, and what posting a reply under a thing returns. */
  datatype Reddit = Reddit(
    fetch: string -> Option<Payload>,
    isModerator: (string, string) -> bool,
    markRead: string -> bool,
    submitted: string -> PostResult)

  /** What the regular expressions of the commands capture from a body:
      the `r/<name>` of a list request, the `delete <thing>` target and the
      post or comment link of a summons. */
  datatype Captures = Captures(
    listed: string -> Option<string>,
    target: string -> Option<DeleteTarget>,
    link: string -> Option<Link>)

  /** The replies `pm_summon` can give. */
  predicate IsSummonReply(r: Reply) {
    r.MissingLink? || r.NotModerator? || r.NotAllowed? || r.NoImdbLinks?
    || r.StillProcessing? || r.NoMovies? || r.Posted?
  }

  /** The routing of one message in `read_messages`: a username mention is
      enqueued as a summoned `process_post` task carrying the message;
      private messages go to their command; everything else is left for a
      human. */
  method RouteMessage(db: Datastore, item: InboxItem, reddit: Reddit, captures: Captures,
                      extract: Extractor, catalog: Catalog, cfg: Config)
    returns (out: Outcome)
    requires db.Valid()
    modifies db`posts, db`comments, db`revisions, db`effects, db`queue, db`whitelisted, db`blacklisted, db`ignoreList
    ensures db.Valid()
    ensures var m := item.data;
      CommandOf(m) == Mention ==>
        out == Returned(None) && db.queue == old(db.queue) + [Task(m.name, true, Some(item.raw))]
        && db.posts == old(db.posts) && db.comments == old(db.comments) && db.effects == old(db.effects)
    ensures CommandOf(item.data) != Mention ==> db.queue == old(db.queue)
    ensures CommandOf(item.data) == ForHuman || CommandOf(item.data) == Unrecognised ==>
      out == Returned(None) && unchanged(db)
    ensures CommandOf(item.data) == NoSubject ==> out.Raised? && unchanged(db)
    ensures var m := item.data;
      CommandOf(m) == IgnoreCommand ==>
        (out.Raised? <==> Base36(m.id).None?)
        && (out.Returned? ==> out.reply == Some(if Lower(m.subject.value) == "ignore me" then IgnoredReply else RememberedReply))
        && db.posts == old(db.posts) && db.comments == old(db.comments) && db.whitelisted == old(db.whitelisted)
    ensures CommandOf(item.data) == ListCommand ==>
      (out.Raised? || out == Returned(None) || out == Returned(Some(FalseReply)))
      && db.posts == old(db.posts) && db.comments == old(db.comments) && db.ignoreList == old(db.ignoreList)
    ensures CommandOf(item.data) == DeleteCommand ==>
      (out == Returned(None) || out == Returned(Some(DeletedReply)))
      && db.posts == old(db.posts) && db.ignoreList == old(db.ignoreList) && db.whitelisted == old(db.whitelisted)
    ensures CommandOf(item.data) == SummonCommand ==>
      (out.Raised? || (out.reply.Some? && IsSummonReply(out.reply.value)))
      && db.ignoreList == old(db.ignoreList) && db.whitelisted == old(db.whitelisted)
  {
    var m := item.data;
    match CommandOf(m)
    case Mention =>
      db.queue := db.queue + [Task(m.name, true, Some(item.raw))];
      out := Returned(None);
    case ForHuman =>
      out := Returned(None);
    case Unrecognised =>
      out := Returned(None);
    case NoSubject =>
      out := Raised;
    case IgnoreCommand =>
      out := RouteIgnore(db, m);
    case ListCommand =>
      out := RouteList(db, m, reddit, captures, cfg);
    case DeleteCommand =>
      out := RouteDelete(db, m, captures);
    case SummonCommand =>
      out := RouteSummon(db, m, reddit, captures, extract, catalog, cfg);
  }

  /** An ignore or remember request, as `read_messages` hands it to
      `ignore_message`. */
  method RouteIgnore(db: Datastore, m: Message) returns (out: Outcome)
    requires CommandOf(m) == IgnoreCommand
    modifies db`ignoreList
    ensures out.Raised? <==> Base36(m.id).None?
    ensures out.Returned? ==>
      out.reply == Some(if Lower(m.subject.value) == "ignore me" then IgnoredReply else RememberedReply)
  {
    out := IgnoreMessage(db, m);
  }

  /** A list request, as `read_messages` hands it to `add_to_list`. */
  method RouteList(db: Datastore, m: Message, reddit: Reddit, captures: Captures, cfg: Config)
    returns (out: Outcome)
    requires db.Valid()
    modifies db`whitelisted, db`blacklisted, db`effects
    ensures db.Valid()
    ensures out.Raised? || out == Returned(None) || out == Returned(Some(FalseReply))
  {
    out := AddToList(db, m, captures.listed(m.body), reddit.isModerator, cfg);
  }

  /** A delete request, as `read_messages` hands it to `delete_message`. */
  method RouteDelete(db: Datastore, m: Message, captures: Captures) returns (out: Outcome)
    requires db.Valid()
    modifies db`comments, db`effects
    ensures db.Valid()
    ensures out == Returned(None) || out == Returned(Some(DeletedReply))
  {
    out := DeleteMessage(db, m, captures.target(m.body));
  }

  /** A summons, as `read_messages` hands it to `pm_summon`: the new comment
      goes under the linked thing. */
  method RouteSummon(db: Datastore, m: Message, reddit: Reddit, captures: Captures, extract: Extractor,
                     catalog: Catalog, cfg: Config)
    returns (out: Outcome)
    requires db.Valid()
    modifies db`posts, db`comments, db`revisions, db`effects
    ensures db.Valid()
    ensures out.Raised? || (out.reply.Some? && IsSummonReply(out.reply.value))
  {
    var link := captures.link(m.body);
    var result := if link.Some? then reddit.submitted(LinkedThing(link.value)) else NoResult;
    var o, _, _ := PmSummon(db, m, link, reddit.fetch, extract, extract(m.body), reddit.isModerator,
                            catalog, cfg, result);
    out := o;
  }

  /** The end of the loop body in `read_messages`: the message is marked
      read, and the reply is posted only when that succeeded and the
      command returned something. */
  method Acknowledge(db: Datastore, name: string, response: Option<Reply>, reddit: Reddit)
    modifies db`effects
    ensures db.effects == old(db.effects)
      + (if reddit.markRead(name) && response.Some? then [ReplyTo(name, response.value)] else [])
  {
    if reddit.markRead(name) {
      if response.Some? {
        db.effects := db.effects + [ReplyTo(name, response.value)];
      }
    }
  }

  /** The body of the loop in `read_messages`: the message is routed and,
      unless its command raised, acknowledged. Only a username mention
      enqueues a task, and a mention never raises. */
  method HandleMessage(db: Datastore, item: InboxItem, reddit: Reddit, captures: Captures,
                       extract: Extractor, catalog: Catalog, cfg: Config)
    returns (raised: bool)
    requires db.Valid()
    modifies db`posts, db`comments, db`revisions, db`effects, db`queue, db`whitelisted, db`blacklisted, db`ignoreList
    ensures db.Valid()
    ensures db.queue == old(db.queue)
      + (if CommandOf(item.data) == Mention then [Task(item.data.name, true, Some(item.raw))] else [])
    ensures raised ==> CommandOf(item.data) != Mention
  {
    var out := RouteMessage(db, item, reddit, captures, extract, catalog, cfg);
    raised := out.Raised?;
    if !raised {
      Acknowledge(db, item.data.name, out.reply, reddit);
    }
  }

  /** The summoned tasks the username mentions among `items` enqueue. */
  function MentionTasks(items: seq<InboxItem>): seq<Task> {
    if items == [] then []
    else
      var last := items[|items| - 1];
      MentionTasks(items[..|items| - 1])
        + (if CommandOf(last.data) == Mention then [Task(last.data.name, true, Some(last.raw))] else [])
  }

  /** `read_messages`: each unread message is routed and acknowledged in
      turn. A command that raises ends the request there, so the messages
      after it are neither handled nor marked read. Nothing happens when
      the inbox cannot be read. `handled` counts the messages acknowledged. */
  method ReadMessages(db: Datastore, unread: Option<seq<InboxItem>>, reddit: Reddit, captures: Captures,
                      extract: Extractor, catalog: Catalog, cfg: Config)
    returns (handled: nat, raised: bool)
    requires db.Valid()
    modifies db`posts, db`comments, db`revisions, db`effects, db`queue, db`whitelisted, db`blacklisted, db`ignoreList
    ensures db.Valid()
    ensures unread.None? ==> handled == 0 && !raised && unchanged(db)
    ensures unread.Some? ==>
      handled <= |unread.value| && (raised <==> handled < |unread.value|)
      && db.queue == old(db.queue) + MentionTasks(unread.value[..handled])
      && (raised ==> CommandOf(unread.value[handled].data) != Mention)
  {
    handled, raised := 0, false;
    if unread.None? {
      return;
    }
    var items := unread.value;
    while handled < |items|
      invariant db.Valid()
      invariant handled <= |items|
      invariant db.queue == old(db.queue) + MentionTasks(items[..handled])
      decreases |items| - handled
    {
      var item := items[handled];
      assert items[..handled + 1][..handled] == items[..handled];
      raised := HandleMessage(db, item, reddit, captures, extract, catalog, cfg);
      if raised {
        assert db.queue == old(db.queue) + MentionTasks(items[..handled]);
        return;
      }
      ConcatAssoc(old(db.queue), MentionTasks(items[..handled]),
                  if CommandOf(item.data) == Mention then [Task(item.data.name, true, Some(item.raw))] else []);
      handled := handled + 1;
    }
  }
}

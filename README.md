# moviesbot post-processing lifecycle, in Dafny

A model of the task handlers of moviesbot (`bot_tasks.py`), a Reddit bot
that answers posts and comments linking to IMDB with a table of the places
where each movie can be streamed, rented or bought. The model covers:

- the normalisation of MediaHound method types into table categories
  (`uniform_types`) and the order of the category columns
  (`sort_method_types`), with ASCII title-casing written out;
- `get_movie_data`: per movie, the MediaHound offers folded into
  category → provider → cheapest offer, and the list of categories met;
- `format_new_post`: the Markdown reply (intro line, header, separator, one
  row per movie with one cell per column);
- `should_comment`, the decision whether to answer at all;
- `PostObject` as a class whose `commented` / `processing` fields are
  rewritten in the datastore and reloaded, and the reply lifecycle around
  it: `comment_on_post`, `submit_comment`, `update_comment`, the
  `process_post` and `review_comment` tasks;
- the private-message commands `ignore_message`, `add_to_list`,
  `delete_message`, `pm_summon`;
- the dispatchers: paginated search with its early stop, and the routing of
  unread inbox messages.

The datastore (Post, Comment, CommentRevisions, IgnoreList, Whitelisted and
Blacklisted entities) is one `Datastore` object holding maps keyed by post
name, by (post, comment) and by (post, comment, revision); the task queue is
a sequence of enqueued tasks and the calls made on Reddit are a sequence of
effects. Everything the bot asks Reddit, IMDB or MediaHound is an input:
`Catalog` (IMDB records and MediaHound sources), `PostResult` (the answer
to a new comment), `Reddit` (fetch, moderator check, mark-read), the
captures of the regular expressions, and the IMDB-id extractor.

Behaviours of the code that a reader might not expect, which the model
keeps as they are:

- A reply is withheld ("no content") only when no movie row at all is
  emitted. Every entry `get_movie_data` builds carries an IMDB title, so
  the skip test at bot_tasks.py:527 never holds: a kept movie without offers
  still gets a row of empty cells.
- The categories after Subscription, Rent and Purchase come in the order of
  a Python set, not in sorted order; the model leaves that order open.
- A post that can be neither loaded nor fetched is a failure: the code's
  "log and continue" (bot_tasks.py:69-70) ends in an exception at the next
  line anyway, and nothing is stored.
- A successful submission stores revision 0 and then, through
  `update_comment`, revision 1 with the comment's own name substituted into
  the delete link; revision 0 is not the live body.
- Review edits compare the new table, which has no footer, with the stored
  body, which has one, and the edited body they store and post has no
  footer (bot_tasks.py:896-900 against 469-470).

## Model

| member | source | states |
|---|---|---|
| `Text.TitleIdempotent` | bot_tasks.py:248-250 | title-casing a title-cased value changes nothing, so re-titling what `uniform_types` returned is harmless |
| `Text.Lower` | bot_tasks.py:425 | every character becomes its lower-case form: an upper-case letter the same letter in lower case, anything else itself |
| `Text.NbspRemovesSpaces` | bot_tasks.py:563 | after `replace(' ', '&nbsp;')` no space is left, and a string without spaces is unchanged |
| `Text.NatToString` | bot_tasks.py:561 | a price renders as a non-empty run of decimal digits |
| `Text.NatToStringRoundTrip` | bot_tasks.py:561 | the rendered price reads back as the price and has no leading zero, so it is the one decimal spelling `%s` gives |
| `Text.SubstitutePlaceholder` | bot_tasks.py:490 | `format(thing_id=id)` replaces one `{thing_id}` between brace-free text by `id` |
| `MediaTypes.UniformTypes` | bot_tasks.py:232-240 | broker and adSupported give Subscription, rental gives Rent, anything else its title-cased self; the result is always title-cased |
| `MediaTypes.SortMethodTypes` | bot_tasks.py:242-254 | Subscription, Rent, Purchase come first, those present and in that order, then every distinct title-cased other value once, in an open order |
| `MediaTypes.ColumnsDistinct` | bot_tasks.py:242-254 | on title-cased inputs the columns have no duplicate and are exactly the distinct inputs |
| `MediaTypes.ColumnsEmptyIff` | bot_tasks.py:242-254 | there is a column exactly when some method type was met |
| `MediaTypes.ColumnOrderExample` | bot_tasks.py:232-254 | purchase, rental, adSupported and broker give the columns Subscription, Rent, Purchase, with one Subscription |
| `Aggregator.FoldKeys` | bot_tasks.py:330-332 | every category met becomes a key of the offers, even with no formats, and nothing else does |
| `Aggregator.FoldProviders` | bot_tasks.py:333-343 | a provider appears under a category exactly when some format of that category quoted it |
| `Aggregator.FoldCheapest` | bot_tasks.py:335-343 | the stored offer has the lowest price quoted for its category and provider (a missing price counts as 0) and comes from the first quote at that price |
| `Aggregator.CheapestExample` | bot_tasks.py:339-343 | two offers of one provider at 4 and 0 collapse to the free one |
| `Aggregator.FoldFormats` | bot_tasks.py:333-343 | the loop over formats extends the offers exactly as the fold over its quotes |
| `Aggregator.FoldMethods` | bot_tasks.py:327-343 | the loop over methods records each normalised type and folds its formats |
| `Aggregator.FoldMediums` | bot_tasks.py:326-343 | the loop over mediums is the fold over their methods |
| `Aggregator.FoldSources` | bot_tasks.py:321-343 | sources without `allMediums` are skipped; the others add their medium names and offers |
| `Aggregator.GetMovieData` | bot_tasks.py:282-349 | False exactly for an empty id list; otherwise one entry per movie that is a movie and has a title, in order, with `exclude` set when there is no MediaHound id or no source, the distinct medium names, and the column order over every type met |
| `Formatter.Intro` | bot_tasks.py:503-512 | the apology when no medium name was found, else the names joined by '/' with 'movies' for more than one movie |
| `Formatter.DropPrefix` | bot_tasks.py:543 | Python's `s[6:]`: empty for a short string, else what follows the prefix |
| `Formatter.SeparatorRow` | bot_tasks.py:515-521 | one cell per header column: '---' under the first two, '---:' after |
| `Formatter.ProviderCell` | bot_tasks.py:557-565 | every provider of the category once, in some order, as an escaped link, joined by ' &#183; ' |
| `Formatter.MovieRow` | bot_tasks.py:532-568 | title, IMDB and Rotten Tomatoes cells and then one cell per column, empty when the movie lacks the category |
| `Formatter.FormatNewPost` | bot_tasks.py:500-575 | False exactly when there is no movie; otherwise intro, header (Title, IMDB, Rotten Tomatoes, then the columns), separator and one row per movie |
| `Formatter.LinkHasNoSpace` | bot_tasks.py:562-564 | a provider link is one token |
| `Formatter.PriceShownIffPositive` | bot_tasks.py:559-561 | the '$' price suffix appears exactly when the price is above 0 |
| `Formatter.SingleProviderCell` | bot_tasks.py:555-567 | a category with one provider has exactly that provider's link as its cell |
| `Decision.ShouldComment` | bot_tasks.py:357-376 | comment iff forced, or summoned outside the blacklist, or (author not ignored and subreddit whitelisted) |
| `Decision.IgnoredAuthorSuppressed` | bot_tasks.py:357-376 | an ignored author in a whitelisted subreddit is answered only when forced or summoned outside the blacklist |
| `Decision.SummonedOutsideBlacklist` | bot_tasks.py:362-365 | a summons answers everywhere outside the blacklist; inside it the summons changes nothing |
| `Store.Datastore.IgnoredAuthors` | bot_tasks.py:200-208 | the authors whose ignore-list entry says ignored |
| `Posts.FoundIds` | bot_tasks.py:100-105 | the union of the ids found in every link source, or failure when an extraction gives None |
| `Posts.PostObject.Open` | bot_tasks.py:52-117 | a stored record is loaded verbatim and nothing is stored; otherwise the record is built from the payload (title, selftext and url for t3, body for t1), its movie list lists the found ids once each, it is neither commented nor processing, and it is stored under the thing's name; failure stores nothing |
| `Posts.PostObject.Create` | bot_tasks.py:60-117 | the creation branch of `PostObject`, with the exact conditions under which it fails |
| `Posts.PostObject.Populate` | bot_tasks.py:140-156 | the fields are reloaded from the stored record, or left as they are without one |
| `Posts.PostObject.SetProcessing` | bot_tasks.py:190-198 | only the stored record's `processing` changes, and the object follows it |
| `Posts.PostObject.AddCommentToPost` | bot_tasks.py:168-188 | stores the comment (score 1, revision 0) and its revision 0 body and marks the post commented; nothing without a stored post |
| `Lifecycle.FooterSplit` | bot_tasks.py:27-49 | the signature footer holds the delete link's `{thing_id}` placeholder between a head and a tail |
| `Lifecycle.FooterSubstitution` | bot_tasks.py:469-490 | formatting a brace-free text plus the footer puts the comment's name where the placeholder was |
| `Lifecycle.UpdateComment` | bot_tasks.py:486-498 | appends revision `revision + 1` with the substituted body, bumps the revision, edits the comment on Reddit, and leaves earlier revisions alone; raises and changes nothing without a stored comment or with a bad placeholder |
| `Lifecycle.PostReply` | bot_tasks.py:471-484 | posts the body; only when Reddit names a comment is it stored (score 1, revision 0, the body as revision 0), the stored post marked commented and revision 1 written with the comment's name substituted; `ok` is false exactly when that last step raises (`Submitted`) |
| `Lifecycle.SubmitComment` | bot_tasks.py:467-484 | the footer is appended and the result stored as in `PostReply`; with errors or no result nothing is stored and `commented` stays as it was |
| `Lifecycle.ReplyText` | bot_tasks.py:389-413 | a text is posted exactly when there are ids and the bot is summoned or some kept movie has a category; it is the table, or the apology when no movie is kept |
| `Lifecycle.SubmitMarked` | bot_tasks.py:386-418 | `processing` is set before the work and cleared on every path, the swallowed exception included; without a text nothing else changes; with one, the comment, revisions and Reddit calls are those of `Submitted` and the stored post is marked commented when Reddit names the comment |
| `Lifecycle.CommentOnPost` | bot_tasks.py:383-418 | replies exactly as `ReplyText` decides, with the stored state of `SubmitMarked`, and leaves the post not processing; an empty movie list gives no reply even when summoned |
| `Lifecycle.CommentIfAllowed` | bot_tasks.py:792-802 | nothing is submitted, and nothing stored changes, when the post is processing, or commented without force, or `should_comment` says no, or there is nothing to say; after a reply the post is not processing, is commented once Reddit names the comment, and the comment and its revisions 0 and 1 are stored as `Submitted` says |
| `Lifecycle.ProcessPost` | bot_tasks.py:780-802 | the `process_post` task: opens the post (failing, without storing anything, exactly when a new post cannot be built) and stores a new post's record under its name; replies exactly when the gate and `ReplyText` allow, with the table for the post's movies or the apology; the stored posts, comments, revisions and Reddit calls after it are given in full |
| `Lifecycle.TableText` | bot_tasks.py:896 | `format_new_post(get_movie_data(ids))` gives a table exactly when some movie is kept |
| `Lifecycle.RecheckedText` | bot_tasks.py:896 | as `TableText`, keeping only whether there is a text |
| `Lifecycle.Recheck` | bot_tasks.py:891-903 | with no movies nothing happens and the record is not written back; the comment is edited only when the new text exists and is strictly longer than the stored revision |
| `Lifecycle.ReviewComment` | bot_tasks.py:858-909 | a score below -2 deletes the comment and flags it; otherwise the recheck runs; the refreshed score is written back only on the paths that reach `comment.put()` |
| `Commands.Base36` | bot_tasks.py:426 | `int(id, 36)` on an id of base-36 digits gives its value; an empty id or one with any other character is a failure |
| `Commands.Base36RoundTrip` | bot_tasks.py:583 | reading back a base-36 id gives the number it stands for |
| `Commands.IgnoreMessage` | bot_tasks.py:577-623 | the author's entry is created or overwritten with `ignored` = (subject is 'ignore me') for 'ignore me' and 'remember me'; any other subject, or an id that is not base 36, raises and stores nothing; the ignored authors gain or lose exactly that author |
| `Commands.AddToList` | bot_tasks.py:625-673 | a moderator puts the subreddit on the requested list and takes it off the other only if it was not already there; anyone else changes nothing; no `r/` link returns False |
| `Commands.ListedAfterRequest` | bot_tasks.py:649-659 | after a moderator's request the subreddit is on the requested list and not the other, and the lists stay disjoint |
| `Commands.DeleteOne` | bot_tasks.py:697-718 | one stored comment is deleted and flagged exactly when its post's author asked |
| `Commands.DeleteKeys` | bot_tasks.py:693-719 | every comment of that name under a post of the requester is deleted and flagged, and the reply says so when one was |
| `Commands.DeleteMessage` | bot_tasks.py:675-719 | only `t1` things are deleted, and only for the author of the parent post; nothing else changes |
| `Commands.Refusal` | bot_tasks.py:432-458 | the refusals in order: not a moderator, `should_comment` says no, no id list, still processing, no movie; none exactly when all checks pass |
| `Commands.SummonsNeedsWhitelist` | bot_tasks.py:447-448 | a moderator's summons is answered only in a whitelisted subreddit and for an author not ignored |
| `Commands.OpenLinked` | bot_tasks.py:436-441 | the linked thing is loaded when stored; otherwise it is built from its payload and stored under its name, failing (and storing nothing) exactly when it cannot be built |
| `Commands.SubmitSummoned` | bot_tasks.py:460 | the table with the footer is posted under the linked thing and stored as `Submitted` says |
| `Commands.AnswerSummons` | bot_tasks.py:442-461 | a refusal changes nothing; otherwise the table for the message's ids is posted and stored as `Submitted` says, and the request raises exactly when `update_comment` does |
| `Commands.PmSummon` | bot_tasks.py:420-461 | no link is refused first; a comment link is preferred over the post link (t1_ over t3_); a linked request raises exactly when the linked thing cannot be built or `update_comment` raises; then the refusal chain decides, and the stored state after a reply is given in full |
| `Dispatch.PageTasksAt` | bot_tasks.py:737-745 | the task for a thing carries its name, the summoned flag and the thing itself |
| `Dispatch.EnqueuePage` | bot_tasks.py:732-745 | every thing on the page is enqueued, known or not; pagination stays on only if none was known |
| `Dispatch.SearchProcessRedditPosts` | bot_tasks.py:724-752 | reads the pages `Reach` says and enqueues all their things in order; the next page is read with pagination back on |
| `Dispatch.ReachIsFirstStop` | bot_tasks.py:746-752 | at least one page is read; every page but the last read had no known thing and a cursor; the last one stopped the search unless it was Reddit's last |
| `Dispatch.KnownThingStopsSearch` | bot_tasks.py:735-736 | no page after the first one with a known thing is read |
| `Dispatch.ReadPagesEnqueued` | bot_tasks.py:732-745 | every thing on every page read is enqueued |
| `Dispatch.RouteIgnoresCase` | bot_tasks.py:836-845 | a private message is routed the same whatever the case of its subject |
| `Dispatch.RouteMessage` | bot_tasks.py:816-847 | a username mention enqueues a summoned task carrying the message; other comments and unknown subjects change nothing; private messages reach their command |
| `Dispatch.Acknowledge` | bot_tasks.py:849-854 | a reply is posted only when marking read succeeded and the command returned something |
| `Dispatch.ReadMessages` | bot_tasks.py:805-856 | messages are handled in order until one raises; the queue gains exactly the tasks of the mentions handled |

## Left out

- External clients: Reddit, IMDB and MediaHound calls (`api_call`, `search_reddit`, `post_to_reddit`, `graph_enter`, `graph_media`, `is_user_moderator`, `send_message`, `mark_message_read`, `delete_from_reddit`) are inputs; their results on edit, delete and message calls are not used by the code and are not modelled. A call made is recorded as an effect.
- `lookup_movie_data` (bot_tasks.py:256-274): only external calls and persistence; the IMDB records are taken as already cross-referenced.
- `parse_text_for_imdb_ids` and the other helpers of `modules`: not part of this model; the extractor is an abstract function returning an optional sequence.
- The regular expressions of `pm_summon`, `add_to_list` and `delete_message`: their captures are inputs.
- webapp2 routing, `taskqueue.add` delivery and the `ndb` engine: the queue is a sequence and the store is maps. The ndb context cache is taken to hand `review_comment` and `update_comment` the same Comment entity.
- Concurrency and the non-atomic read-then-write of `processing`: one sequential worker only.
- Dates: `created_utc`, the DVD-release check (bot_tasks.py:302-303, log only) and the 7-day window of `check_comments` (bot_tasks.py:911-929), which is left out with it.
- `manual_process`, `search_imdb` and `search_usermention` (bot_tasks.py:756-778): they only enqueue a forced task or start a search with a fixed query string; the query strings are not modelled.
- `update_wiki_lists` and `delete_all_posts`: a trivial join and a bulk purge.
- Logging, and the prose of the user-facing replies (only which reply is returned is modelled).
- Prices are integers (cents); float prices and their rendering are not modelled.
- `str.title` and `str.lower` are modelled on ASCII letters only.
- The `elif 'kind' in post['data']` branch (bot_tasks.py:76-77), which assigns the whole dict: `kind` is taken from the payload only.
- The payload of a post not yet stored, in `process_post` and `pm_summon`, is the post data the task carries or, without it, what Reddit's `info.json` gives; the HTTP lookup itself is an input.
- Search pagination: Reddit's listing is a finite sequence of pages and the cursor of a page is taken to lead to the next one; a page past the end stands for a search that returns nothing.
- The order of `dict.items()`, `list(set(...))` and of the comments a query returns is left open (any enumeration), not Python's.
- `Lifecycle.RecheckedText`: states only whether there is a text; what the text is, `Lifecycle.TableText` states.
- `Commands.Base36`: models `int(id, 36)` on strings of ASCII base-36 digits only. Python also accepts surrounding whitespace and a sign (`int(' 1z', 36) == 71`, `int('-z', 36) == -35`), and Python 3 accepts underscores between digits; the model treats these as failures, because Reddit's message ids never carry them.
- `Dispatch.RouteMessage`: for list, delete and process messages states only which replies can come back and which stores stay untouched; the full effect is the contract of the command it calls.
- `Dispatch.ReadMessages`: states the order, the stopping point and the queue; the replies are stated per message by `Dispatch.Acknowledge`.

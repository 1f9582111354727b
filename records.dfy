/** The values the bot passes around: the post payload Reddit returns, the
    stored entities (Post, Comment, CommentRevisions, IgnoreList), the replies
    a command can send and the effects on the outside world. */
module Records {
  import opened Common

  /** The bot's configuration: its Reddit user name and its home subreddit. */
  datatype Config = Config(user: string, subreddit: string)

  /** A post or comment as Reddit's `info.json` or a listing gives it:
      `kind` is None when the thing has no `kind`; the text fields that the
      kind does not carry are empty. */
  datatype Payload = Payload(
    kind: Option<string>,
    author: string,
    subreddit: string,
    name: string,
    permalink: string,
    selftext: string,
    url: string,
    title: string,
    body: string)

  /** The stored `Post` entity, keyed by the thing's name. */
  datatype PostRecord = PostRecord(
    kind: string,
    name: string,
    moviesList: seq<string>,
    author: string,
    permalink: Option<string>,
    subreddit: string,
    commented: bool,
    processing: bool)

  /** A `Comment` entity is a child of its post: keyed by both names. */
  datatype CommentKey = CommentKey(post: string, comment: string)

  datatype CommentRecord = CommentRecord(name: string, score: int, revision: nat, deleted: bool)

  /** A `CommentRevisions` entity is keyed by its comment and its number. */
  datatype RevKey = RevKey(post: string, comment: string, rev: nat)

  /** The `IgnoreList` entry of one author (the message date is left out). */
  datatype IgnoreEntry = IgnoreEntry(messageId: int, body: string, ignored: bool)

  /** A `process_post` task as the dispatcher enqueues it. */
  datatype Task = Task(post: string, summoned: bool, postData: Option<Payload>)

  /** What Reddit answers to a new comment: nothing, API errors, or the name
      of the new comment. */
  datatype PostResult = NoResult | ApiErrors | Created(commentName: string)

  /** Which of the user-facing replies a command returns (their prose is
      not modelled). */
  datatype Reply =
    | IgnoredReply | RememberedReply             // ignore_message
    | FalseReply                                 // add_to_list without an r/ link returns False
    | DeletedReply                               // delete_message
    | MissingLink | NotModerator(subreddit: string) | NotAllowed
    | NoImdbLinks | StillProcessing | NoMovies | Posted   // pm_summon

  /** How a handler ends: by raising, or by returning an optional reply. */
  datatype Outcome = Raised | Returned(reply: Option<Reply>)

  /** The calls the bot makes on Reddit, in order. */
  datatype Effect =
    | PostComment(parent: string, text: string)
    | EditComment(thing: string, text: string)
    | DeleteThing(thing: string)
    | SendMessage(to: string, subject: string)
    | ReplyTo(thing: string, reply: Reply)
}

/** `should_comment`: whether the bot replies to a post, from the forced and
    summoned flags, the subreddit's place on the white and black lists and
    whether the author asked to be ignored. */
module Decision {

  /** The checks run in this order and the first that applies decides:
      forced, then summoned into a subreddit that is not blacklisted, then
      an ignored author (no), then a whitelisted subreddit (yes); otherwise
      no. */
  function ShouldComment(subreddit: string, author: string, forced: bool, summoned: bool,
                         white: set<string>, black: set<string>, ignored: set<string>): (r: bool)
    ensures r <==> forced || (summoned && subreddit !in black) || (author !in ignored && subreddit in white)
  {
    if forced then true
    else if summoned && subreddit !in black then true
    else if author in ignored then false
    else subreddit in white
  }

  /** An ignored author is not answered in a whitelisted subreddit unless the
      bot is forced or summoned. */
  lemma IgnoredAuthorSuppressed(subreddit: string, author: string, summoned: bool,
                                white: set<string>, black: set<string>, ignored: set<string>)
    requires author in ignored && subreddit in white
    ensures ShouldComment(subreddit, author, false, summoned, white, black, ignored) <==> summoned && subreddit !in black
    ensures ShouldComment(subreddit, author, true, summoned, white, black, ignored)
  {
  }

  /** The lists only matter when the bot is neither forced nor summoned:
      forcing always answers, and a summons answers everywhere except in a
      blacklisted subreddit, where the ignore rule and whitelist decide. */
  lemma SummonedOutsideBlacklist(subreddit: string, author: string,
                                 white: set<string>, black: set<string>, ignored: set<string>)
    ensures subreddit !in black ==> ShouldComment(subreddit, author, false, true, white, black, ignored)
    ensures subreddit in black ==>
      ShouldComment(subreddit, author, false, true, white, black, ignored)
        == ShouldComment(subreddit, author, false, false, white, black, ignored)
  {
  }
}

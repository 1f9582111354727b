/** `format_new_post`: the Markdown reply built from the data that
    `get_movie_data` gathered. The reply is an intro line, a header row, a
    separator row and one row per movie, joined by newlines; a row holds the
    title, the IMDB rating, the Rotten Tomatoes score and one cell per
    category column. */
module Formatter {
  import opened Common
  import opened Text
  import opened Aggregator

  const SorryIntro: string := "Sorry, no streaming, rental, or purchase links found for the following movies:\n\n"

  /** The intro line: the medium names joined by '/', with a plural 's' for
      more than one movie, or an apology when no medium name was found. */
  function Intro(movieCount: nat, friendlyNames: seq<string>): (r: string)
    ensures friendlyNames == [] ==> r == SorryIntro
    ensures friendlyNames != [] && movieCount > 1 ==>
      r == "Here's where you can " + Join("/", friendlyNames) + " the movies listed:\n\n"
    ensures friendlyNames != [] && movieCount <= 1 ==>
      r == "Here's where you can " + Join("/", friendlyNames) + " the movie listed:\n\n"
  {
    var plural := if movieCount > 1 then "s" else "";
    if |friendlyNames| == 0 then SorryIntro
    else "Here's where you can " + Join("/", friendlyNames) + " the movie" + plural + " listed:\n\n"
  }

  function Heading(mediaTypes: seq<string>): seq<string> {
    ["Title", "IMDB", "Rotten Tomatoes"] + mediaTypes
  }

  /** The separator row: left-aligned under the first two columns, right-aligned
      from the third column on. */
  method SeparatorRow(heading: seq<string>) returns (sep: seq<string>)
    ensures |sep| == |heading|
    ensures forall i :: 0 <= i < |sep| ==> sep[i] == (if i > 1 then "---:" else "---")
  {
    sep := [];
    for index := 0 to |heading|
      invariant |sep| == index
      invariant forall i :: 0 <= i < index ==> sep[i] == (if i > 1 then "---:" else "---")
    {
      var s := "---";
      if index > 1 {
        s := s + ":";
      }
      sep := sep + [s];
    }
  }

  /** Python's `s[n:]`: empty when `s` is shorter than `n`. */
  function DropPrefix(s: string, n: nat): (r: string)
    ensures |s| <= n ==> r == ""
    ensures |s| > n ==> s == s[..n] + r
  {
    if |s| <= n then "" else s[n..]
  }

  function ImdbLink(imdbId: string): string {
    "http://www.imdb.com/title/" + imdbId + "/"
  }

  /** Bold link to the movie: to NextQueue when the movie has a MediaHound
      id (the `altId` without its six-character prefix), else to IMDB. */
  function TitleCell(movie: MovieEntry): string {
    if movie.mh.Some? then
      "**[" + movie.mh.value.name + "](https://nextqueue.com/movie/" + DropPrefix(movie.mh.value.altId, 6) + ")**"
    else "**[" + movie.imdbTitle + "](" + ImdbLink(movie.imdbId) + ")**"
  }

  function OrNA(v: Option<string>): string {
    if v.Some? then v.value else "N/A"
  }

  function ImdbCell(movie: MovieEntry): string {
    "[" + OrNA(movie.imdbRating) + "](" + ImdbLink(movie.imdbId) + ")"
  }

  /** The Tomatometer with a '%' sign, linked only when there is a Rotten
      Tomatoes url. */
  function RottenCell(movie: MovieEntry): string {
    var rating := if movie.tomatoMeter.Some? then movie.tomatoMeter.value + "%" else "N/A";
    if movie.rottenTomatoes.Some? then "[" + rating + "](" + movie.rottenTomatoes.value + ")" else rating
  }

  /** A provider's price is shown only when it is positive. */
  function ProviderName(provider: string, price: int): string {
    if price > 0 then provider + " - $" + NatToString(price) else provider
  }

  /** One provider's link, with every space escaped. */
  function ProviderLink(provider: string, offer: Offer): string {
    Nbsp("[" + ProviderName(provider, offer.price) + "](" + offer.url + ")")
  }

  /** The links of the providers in `order`. */
  function Links(order: seq<string>, providers: map<string, Offer>): (r: seq<string>)
    requires forall k :: 0 <= k < |order| ==> order[k] in providers
    ensures |r| == |order|
  {
    if order == [] then []
    else
      var last := order[|order| - 1];
      Links(order[..|order| - 1], providers) + [ProviderLink(last, providers[last])]
  }

  /** A category cell lists every provider exactly once, in dictionary
      order, which the program does not control. */
  ghost predicate IsProviderCell(cell: string, providers: map<string, Offer>) {
    exists order :: IsEnumeration(order, providers.Keys) && cell == Join(" &#183; ", Links(order, providers))
  }

  /** The cell under one category column. */
  ghost predicate IsCategoryCell(cell: string, offers: Offers, category: string) {
    if category in offers then IsProviderCell(cell, offers[category]) else cell == ""
  }

  /** The three cells every row starts with: title, IMDB, Rotten Tomatoes. */
  function LeadCells(movie: MovieEntry): seq<string> {
    [TitleCell(movie), ImdbCell(movie), RottenCell(movie)]
  }

  /** One cell per category column, in column order. */
  ghost predicate AreCategoryCells(cells: seq<string>, offers: Offers, mediaTypes: seq<string>) {
    |cells| == |mediaTypes|
    && forall j :: 0 <= j < |mediaTypes| ==> IsCategoryCell(cells[j], offers, mediaTypes[j])
  }

  /** A movie's row has exactly one cell per header column: title, IMDB,
      Rotten Tomatoes and then the category cells in column order. */
  ghost predicate IsRow(cells: seq<string>, movie: MovieEntry, mediaTypes: seq<string>) {
    |cells| == |Heading(mediaTypes)|
    && cells[..3] == LeadCells(movie)
    && AreCategoryCells(cells[3..], movie.mediaTypes, mediaTypes)
  }

  method ProviderCell(providers: map<string, Offer>) returns (cell: string)
    ensures IsProviderCell(cell, providers)
  {
    var order := Enumerate(providers.Keys);
    var typeStrings: seq<string> := [];
    for k := 0 to |order|
      invariant typeStrings == Links(order[..k], providers)
    {
      assert order[k] in Elems(order);
      var provider := order[k];
      var details := providers[provider];
      var name := provider;
      if details.price > 0 {
        name := provider + " - $" + NatToString(details.price);
      }
      assert order[..k + 1][..k] == order[..k];
      typeStrings := typeStrings + [Nbsp("[" + name + "](" + details.url + ")")];
    }
    assert order[..|order|] == order;
    cell := Join(" &#183; ", typeStrings);
  }

  method MovieRow(movie: MovieEntry, mediaTypes: seq<string>) returns (line: seq<string>)
    ensures IsRow(line, movie, mediaTypes)
  {
    var cells: seq<string> := [];
    for j := 0 to |mediaTypes|
      invariant AreCategoryCells(cells, movie.mediaTypes, mediaTypes[..j])
    {
      var typeJoined := CategoryCell(movie.mediaTypes, mediaTypes[j]);
      assert mediaTypes[..j + 1] == mediaTypes[..j] + [mediaTypes[j]];
      cells := cells + [typeJoined];
    }
    assert mediaTypes[..|mediaTypes|] == mediaTypes;
    var lead := LeadCells(movie);
    line := lead + cells;
    assert line[..3] == lead && line[3..] == cells;
  }

  /** The cell of one column: the category's providers, or nothing when
      the movie has no offer of that category. */
  method CategoryCell(offers: Offers, mediaType: string) returns (typeJoined: string)
    ensures IsCategoryCell(typeJoined, offers, mediaType)
  {
    typeJoined := "";
    if mediaType in offers {
      typeJoined := ProviderCell(offers[mediaType]);
    }
  }

  /** The rows of the table, joined by '|'. */
  function RowLines(rows: seq<seq<string>>): (r: seq<string>)
    ensures |r| == |rows|
    ensures forall i :: 0 <= i < |rows| ==> r[i] == Join("|", rows[i])
  {
    if rows == [] then []
    else RowLines(rows[..|rows| - 1]) + [Join("|", rows[|rows| - 1])]
  }

  /** The whole reply for the given movie rows. */
  function Render(data: MoviesData, sep: seq<string>, rows: seq<seq<string>>): string {
    Join("\n", [Intro(|data.movies|, data.friendlyNames), Join(" | ", Heading(data.mediaTypes)), Join("|", sep)]
               + RowLines(rows))
  }

  /** `rows` are the rows of `movies`, one each, in order. */
  ghost predicate AreRows(rows: seq<seq<string>>, movies: seq<MovieEntry>, mediaTypes: seq<string>) {
    |rows| == |movies| && forall i :: 0 <= i < |rows| ==> IsRow(rows[i], movies[i], mediaTypes)
  }

  /** A reply for `data`: the intro, the header, the separator (`---` under
      the first two columns, `---:` after) and one row per movie, in order. */
  ghost predicate IsReply(text: string, data: MoviesData) {
    exists sep, rows ::
      |sep| == |Heading(data.mediaTypes)|
      && (forall i :: 0 <= i < |sep| ==> sep[i] == (if i > 1 then "---:" else "---"))
      && AreRows(rows, data.movies, data.mediaTypes)
      && text == Render(data, sep, rows)
  }

  lemma RowsStep(rows: seq<seq<string>>, line: seq<string>, movies: seq<MovieEntry>, i: nat,
                 mediaTypes: seq<string>)
    requires i < |movies|
    requires AreRows(rows, movies[..i], mediaTypes)
    requires IsRow(line, movies[i], mediaTypes)
    ensures AreRows(rows + [line], movies[..i + 1], mediaTypes)
    ensures RowLines(rows + [line]) == RowLines(rows) + [Join("|", line)]
  {
    assert (rows + [line])[..|rows|] == rows;
  }

  /** `format_new_post`: no reply (Python's False) exactly when there is no
      movie; otherwise the intro, header, separator and one row per movie.
      Every entry `get_movie_data` builds carries an IMDB title, so the
      source's test for skipping a row never holds and every movie gets one. */
  method FormatNewPost(data: MoviesData) returns (r: Option<string>)
    ensures r.None? <==> data.movies == []
    ensures r.Some? ==> IsReply(r.value, data)
  {
    var retLine := [Intro(|data.movies|, data.friendlyNames)];
    var heading := Heading(data.mediaTypes);
    var seperator := SeparatorRow(heading);
    var actualLinks := false;
    retLine := retLine + [Join(" | ", heading), Join("|", seperator)];
    ghost var head := retLine;
    assert head == [Intro(|data.movies|, data.friendlyNames), Join(" | ", Heading(data.mediaTypes)), Join("|", seperator)];
    ghost var rows: seq<seq<string>> := [];
    for i := 0 to |data.movies|
      invariant AreRows(rows, data.movies[..i], data.mediaTypes)
      invariant retLine == head + RowLines(rows)
      invariant actualLinks <==> i > 0
    {
      var movie := data.movies[i];
      actualLinks := true;
      var line := MovieRow(movie, data.mediaTypes);
      RowsStep(rows, line, data.movies, i, data.mediaTypes);
      ConcatAssoc(head, RowLines(rows), [Join("|", line)]);
      rows := rows + [line];
      retLine := retLine + [Join("|", line)];
    }
    if actualLinks {
      assert data.movies[..|data.movies|] == data.movies;
      assert AreRows(rows, data.movies, data.mediaTypes);
      r := Some(Join("\n", retLine));
      assert r.value == Render(data, seperator, rows);
    } else {
      r := None;
    }
  }

  /** An escaped link is one token: it has no space left in it. */
  lemma LinkHasNoSpace(provider: string, offer: Offer)
    ensures ' ' !in ProviderLink(provider, offer)
  {
    NbspRemovesSpaces("[" + ProviderName(provider, offer.price) + "](" + offer.url + ")");
  }

  /** The price suffix appears exactly when the price is positive: for a
      provider name and url without a '$', the link holds a '$' iff the
      price is above zero. */
  lemma PriceShownIffPositive(provider: string, offer: Offer)
    requires '$' !in provider && '$' !in offer.url
    ensures '$' in ProviderLink(provider, offer) <==> offer.price > 0
  {
    var raw := "[" + ProviderName(provider, offer.price) + "](" + offer.url + ")";
    NbspKeeps(raw, '$');
    if offer.price > 0 {
      DollarShown(provider, offer.price, offer.url);
    } else {
      NoDollarShown(provider, offer.price, offer.url);
    }
  }

  lemma DollarShown(provider: string, price: int, url: string)
    requires price > 0
    ensures '$' in "[" + ProviderName(provider, price) + "](" + url + ")"
  {
    var raw := "[" + ProviderName(provider, price) + "](" + url + ")";
    assert raw == "[" + provider + " - $" + NatToString(price) + "](" + url + ")";
    assert raw[|provider| + 4] == '$';
  }

  lemma NoDollarShown(provider: string, price: int, url: string)
    requires price <= 0 && '$' !in provider && '$' !in url
    ensures '$' !in "[" + ProviderName(provider, price) + "](" + url + ")"
  {
    var raw := "[" + ProviderName(provider, price) + "](" + url + ")";
    assert raw == "[" + provider + "](" + url + ")";
    forall k | 0 <= k < |raw| ensures raw[k] != '$' {
      if k == 0 {
      } else if k <= |provider| {
        assert raw[k] == provider[k - 1];
      } else if k < |provider| + 3 {
      } else if k < |provider| + 3 + |url| {
        assert raw[k] == url[k - |provider| - 3];
      }
    }
  }

  /** A category with a single provider has exactly that provider's link as
      its cell: the unspecified order only matters from two providers on. */
  lemma SingleProviderCell(cell: string, provider: string, offer: Offer)
    requires IsProviderCell(cell, map[provider := offer])
    ensures cell == ProviderLink(provider, offer)
  {
    var providers := map[provider := offer];
    var order :| IsEnumeration(order, providers.Keys) && cell == Join(" &#183; ", Links(order, providers));
    assert providers.Keys == {provider};
    assert |order| == 1;
    assert order[0] in Elems(order);
    assert order == [provider];
  }
}

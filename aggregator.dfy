/** `get_movie_data`: for each IMDB id, the movie's metadata and its
    MediaHound offers, folded into category -> provider -> cheapest offer.

    The IMDB lookup and the MediaHound `sources` call are inputs (a
    `Catalog`); the traversal of sources, mediums, methods and formats is
    specified as a left fold over the flat sequence of events it meets. */
module Aggregator {
  import opened Common
  import opened Text
  import opened MediaTypes

  /** `MovieTypes.movie` or any other IMDB type (series, episode, ...). */
  datatype MediaKind = Movie | OtherMedia

  /** The MediaHound cross-reference stored with an IMDB record. */
  datatype Crossref = Crossref(mhid: string, name: string, altId: string)

  /** What the IMDB lookup gives for one id; an empty title stands for a
      missing one and `mh` is None when there is no MediaHound id. */
  datatype ImdbRecord = ImdbRecord(
    kind: MediaKind,
    title: string,
    imdbRating: Option<string>,
    tomatoMeter: Option<string>,
    tomatoUrl: Option<string>,
    mh: Option<Crossref>)

  /** One format of a method: its launch url and its price, if it has one. */
  datatype Format = Format(url: string, price: Option<int>)
  /** One method of a medium: its raw MediaHound type and its formats. */
  datatype Method = Method(kind: string, formats: seq<Format>)
  /** One entry of a movie's `sources` content: the provider name, its
      `allMediums` list (empty when absent) and its mediums, each a list of
      methods. */
  datatype Source = Source(allMediums: seq<string>, provider: string, mediums: seq<seq<Method>>)

  /** The external lookups: IMDB by id and MediaHound sources by mhid. */
  datatype Catalog = Catalog(imdb: string -> ImdbRecord, sources: string -> seq<Source>)

  datatype Offer = Offer(url: string, price: int)
  /** category -> provider -> cheapest offer */
  type Offers = map<string, map<string, Offer>>

  datatype MovieEntry = MovieEntry(
    imdbId: string,
    imdbTitle: string,
    imdbRating: Option<string>,
    tomatoMeter: Option<string>,
    rottenTomatoes: Option<string>,
    mh: Option<Crossref>,
    mediaTypes: Offers,
    exclude: bool)

  datatype MoviesData = MoviesData(movies: seq<MovieEntry>, friendlyNames: seq<string>, mediaTypes: seq<string>)

  // ---------------------------------------------------------------------
  // The fold, on a flat sequence of events

  /** A method of some category is met, or a format quotes a price. */
  datatype Event = Touch(category: string) | Quote(category: string, provider: string, url: string, price: int)

  /** A missing price counts as 0. */
  function PriceOf(f: Format): int {
    if f.price.Some? then f.price.value else 0
  }

  /** One step: a met category gets a key; a quote replaces the provider's
      offer only when the provider has none yet or the price is strictly
      lower. */
  function Step(m: Offers, e: Event): Offers {
    match e
    case Touch(c) => if c in m then m else m[c := map[]]
    case Quote(c, p, u, x) =>
      var inner := if c in m then m[c] else map[];
      if p !in inner || x < inner[p].price then m[c := inner[p := Offer(u, x)]] else m
  }

  function Fold(m: Offers, es: seq<Event>): Offers {
    if es == [] then m else Step(Fold(m, es[..|es| - 1]), es[|es| - 1])
  }

  lemma {:induction false} FoldAppend(m: Offers, a: seq<Event>, b: seq<Event>)
    ensures Fold(m, a + b) == Fold(Fold(m, a), b)
  {
    if b != [] {
      assert (a + b)[..|a + b| - 1] == a + b[..|b| - 1];
      FoldAppend(m, a, b[..|b| - 1]);
    } else {
      assert a + b == a;
    }
  }

  /** The categories of the `Touch` events, in order: what `get_movie_data`
      appends to its `media_types` list. */
  function Touched(es: seq<Event>): seq<string> {
    if es == [] then []
    else Touched(es[..|es| - 1]) + (if es[|es| - 1].Touch? then [es[|es| - 1].category] else [])
  }

  lemma {:induction false} TouchedAppend(a: seq<Event>, b: seq<Event>)
    ensures Touched(a + b) == Touched(a) + Touched(b)
  {
    if b != [] {
      assert (a + b)[..|a + b| - 1] == a + b[..|b| - 1];
      TouchedAppend(a, b[..|b| - 1]);
    } else {
      assert a + b == a;
    }
  }

  predicate QuotesFor(e: Event, c: string, p: string) {
    e.Quote? && e.category == c && e.provider == p
  }

  /** Every category met becomes a key, and nothing else does. */
  lemma {:induction false} FoldKeys(es: seq<Event>)
    ensures forall c :: c in Fold(map[], es) <==> exists k :: 0 <= k < |es| && es[k].category == c
  {
    if es != [] {
      var init := es[..|es| - 1];
      FoldKeys(init);
      forall c ensures c in Fold(map[], es) <==> exists k :: 0 <= k < |es| && es[k].category == c {
        if exists k :: 0 <= k < |init| && init[k].category == c {
          var k :| 0 <= k < |init| && init[k].category == c;
          assert es[k].category == c;
        }
        if exists k :: 0 <= k < |es| && es[k].category == c {
          var k :| 0 <= k < |es| && es[k].category == c;
          if k < |init| {
            assert init[k].category == c;
          }
        }
      }
    }
  }

  /** A provider appears under a category exactly when some format quoted
      it there. */
  lemma {:induction false} FoldProviders(es: seq<Event>, c: string, p: string)
    ensures (c in Fold(map[], es) && p in Fold(map[], es)[c])
        <==> exists k :: 0 <= k < |es| && QuotesFor(es[k], c, p)
  {
    if es != [] {
      var init := es[..|es| - 1];
      FoldProviders(init, c, p);
      if exists k :: 0 <= k < |init| && QuotesFor(init[k], c, p) {
        var k :| 0 <= k < |init| && QuotesFor(init[k], c, p);
        assert QuotesFor(es[k], c, p);
      }
      if exists k :: 0 <= k < |es| && QuotesFor(es[k], c, p) {
        var k :| 0 <= k < |es| && QuotesFor(es[k], c, p);
        if k < |init| {
          assert QuotesFor(init[k], c, p);
        }
      }
    }
  }

  /** The stored offer is the cheapest quote for its category and provider,
      and it comes from the first quote at that price: a later quote at the
      same price does not replace it. */
  lemma FoldCheapest(es: seq<Event>, c: string, p: string)
    requires c in Fold(map[], es) && p in Fold(map[], es)[c]
    ensures var o := Fold(map[], es)[c][p];
      forall k :: 0 <= k < |es| && QuotesFor(es[k], c, p) ==> o.price <= es[k].price
    ensures var o := Fold(map[], es)[c][p];
      exists k :: 0 <= k < |es| && es[k] == Quote(c, p, o.url, o.price)
        && forall j :: 0 <= j < k && QuotesFor(es[j], c, p) ==> o.price < es[j].price
  {
    FoldLowest(es, c, p);
    FoldFirstLowest(es, c, p);
  }

  /** No quote for the category and provider is cheaper than the stored offer. */
  lemma {:induction false} FoldLowest(es: seq<Event>, c: string, p: string)
    requires c in Fold(map[], es) && p in Fold(map[], es)[c]
    ensures var o := Fold(map[], es)[c][p];
      forall k :: 0 <= k < |es| && QuotesFor(es[k], c, p) ==> o.price <= es[k].price
  {
    var init := es[..|es| - 1];
    var prev: Offers := Fold(map[], init);
    var o: Offer := Fold(map[], es)[c][p];
    FoldProviders(init, c, p);
    if c in prev && p in prev[c] {
      FoldLowest(init, c, p);
      assert o.price <= prev[c][p].price;
      forall k | 0 <= k < |es| && QuotesFor(es[k], c, p) ensures o.price <= es[k].price {
        if k < |init| {
          assert QuotesFor(init[k], c, p);
        }
      }
    } else {
      assert forall k :: 0 <= k < |init| ==> !QuotesFor(init[k], c, p);
      assert forall k :: 0 <= k < |init| ==> es[k] == init[k];
    }
  }

  /** The stored offer comes from a quote, and every earlier quote for the
      category and provider was dearer. */
  lemma {:induction false} FoldFirstLowest(es: seq<Event>, c: string, p: string)
    requires c in Fold(map[], es) && p in Fold(map[], es)[c]
    ensures var o := Fold(map[], es)[c][p];
      exists k :: 0 <= k < |es| && es[k] == Quote(c, p, o.url, o.price)
        && forall j :: 0 <= j < k && QuotesFor(es[j], c, p) ==> o.price < es[j].price
  {
    var init := es[..|es| - 1];
    var e := es[|es| - 1];
    var prev: Offers := Fold(map[], init);
    var o: Offer := Fold(map[], es)[c][p];
    FoldProviders(init, c, p);
    if c in prev && p in prev[c] {
      FoldFirstLowest(init, c, p);
      var best: Offer := prev[c][p];
      var k' :| 0 <= k' < |init| && init[k'] == Quote(c, p, best.url, best.price)
        && forall j :: 0 <= j < k' && QuotesFor(init[j], c, p) ==> best.price < init[j].price;
      if QuotesFor(e, c, p) && e.price < best.price {
        FoldLowest(init, c, p);
        assert o == Offer(e.url, e.price);
        assert es[|es| - 1] == Quote(c, p, o.url, o.price);
        forall j | 0 <= j < |es| - 1 && QuotesFor(es[j], c, p) ensures o.price < es[j].price {
          assert QuotesFor(init[j], c, p);
        }
      } else {
        assert o == best;
        assert es[k'] == Quote(c, p, o.url, o.price);
        forall j | 0 <= j < k' && QuotesFor(es[j], c, p) ensures o.price < es[j].price {
          assert QuotesFor(init[j], c, p);
        }
      }
    } else {
      assert QuotesFor(e, c, p);
      assert o == Offer(e.url, e.price);
      assert es[|es| - 1] == Quote(c, p, o.url, o.price);
      assert forall k :: 0 <= k < |init| ==> es[k] == init[k];
      assert forall k :: 0 <= k < |init| ==> !QuotesFor(init[k], c, p);
    }
  }

  /** Two offers of one provider in one category at 4 and 0 collapse to the
      free one. */
  lemma CheapestExample(c: string, p: string, u1: string, u2: string)
    ensures Fold(map[], [Touch(c), Quote(c, p, u1, 4), Quote(c, p, u2, 0)]) == map[c := map[p := Offer(u2, 0)]]
  {
    var es := [Touch(c), Quote(c, p, u1, 4), Quote(c, p, u2, 0)];
    assert es[..2] == [Touch(c), Quote(c, p, u1, 4)];
    assert es[..2][..1] == [Touch(c)];
    assert [Touch(c)][..0] == [];
    assert Fold(map[], [Touch(c)]) == map[c := map[]];
    assert Fold(map[], es[..2]) == map[c := map[p := Offer(u1, 4)]];
    assert Fold(map[], es) == Step(Fold(map[], es[..2]), es[2]);
    assert map[p := Offer(u1, 4)][p := Offer(u2, 0)] == map[p := Offer(u2, 0)];
  }

  // ---------------------------------------------------------------------
  // The events of a movie's sources, in traversal order

  function FormatEvents(c: string, p: string, fs: seq<Format>): seq<Event> {
    if fs == [] then []
    else
      var f := fs[|fs| - 1];
      FormatEvents(c, p, fs[..|fs| - 1]) + [Quote(c, p, f.url, PriceOf(f))]
  }

  function MethodEvents(p: string, m: Method): seq<Event> {
    var c := UniformTypes(m.kind);
    [Touch(c)] + FormatEvents(c, p, m.formats)
  }

  function MethodsEvents(p: string, ms: seq<Method>): seq<Event> {
    if ms == [] then [] else MethodsEvents(p, ms[..|ms| - 1]) + MethodEvents(p, ms[|ms| - 1])
  }

  function MediumsEvents(p: string, mds: seq<seq<Method>>): seq<Event> {
    if mds == [] then [] else MediumsEvents(p, mds[..|mds| - 1]) + MethodsEvents(p, mds[|mds| - 1])
  }

  /** A source without `allMediums` is skipped altogether. */
  function SourceEvents(s: Source): seq<Event> {
    if s.allMediums == [] then [] else MediumsEvents(s.provider, s.mediums)
  }

  function SourcesEvents(ss: seq<Source>): seq<Event> {
    if ss == [] then [] else SourcesEvents(ss[..|ss| - 1]) + SourceEvents(ss[|ss| - 1])
  }

  /** The `allMediums` lists of the sources that have one, concatenated. */
  function Friendly(ss: seq<Source>): seq<string> {
    if ss == [] then [] else Friendly(ss[..|ss| - 1]) + ss[|ss| - 1].allMediums
  }

  lemma {:induction false} FormatEventsUntouched(c: string, p: string, fs: seq<Format>)
    ensures Touched(FormatEvents(c, p, fs)) == []
  {
    if fs != [] {
      var init := FormatEvents(c, p, fs[..|fs| - 1]);
      var f := fs[|fs| - 1];
      FormatEventsUntouched(c, p, fs[..|fs| - 1]);
      TouchedAppend(init, [Quote(c, p, f.url, PriceOf(f))]);
      assert [Quote(c, p, f.url, PriceOf(f))][..0] == [];
    }
  }

  lemma MethodEventsSplit(acc: Offers, p: string, m: Method)
    ensures Touched(MethodEvents(p, m)) == [UniformTypes(m.kind)]
    ensures Fold(acc, MethodEvents(p, m))
         == Fold(Step(acc, Touch(UniformTypes(m.kind))), FormatEvents(UniformTypes(m.kind), p, m.formats))
  {
    var c := UniformTypes(m.kind);
    FormatEventsUntouched(c, p, m.formats);
    TouchedAppend([Touch(c)], FormatEvents(c, p, m.formats));
    FoldAppend(acc, [Touch(c)], FormatEvents(c, p, m.formats));
    assert [Touch(c)][..0] == [];
  }

  // ---------------------------------------------------------------------
  // The nested loops of get_movie_data, one method per level

  /** One more format adds its quote at the end of the fold. */
  lemma FormatsStep(acc: Offers, c: string, p: string, formats: seq<Format>, i: nat)
    requires i < |formats|
    ensures Fold(acc, FormatEvents(c, p, formats[..i + 1]))
         == Step(Fold(acc, FormatEvents(c, p, formats[..i])),
                 Quote(c, p, formats[i].url, PriceOf(formats[i])))
  {
    assert formats[..i + 1][..i] == formats[..i];
  }

  /** The innermost loop: each format of one method, keeping the cheapest
      offer per provider. */
  method FoldFormats(acc: Offers, category: string, provider: string, formats: seq<Format>)
    returns (r: Offers)
    requires category in acc
    ensures r == Fold(acc, FormatEvents(category, provider, formats))
  {
    r := acc;
    for i := 0 to |formats|
      invariant r == Fold(acc, FormatEvents(category, provider, formats[..i]))
      invariant category in r
    {
      var format := formats[i];
      var url := format.url;
      var price := if format.price.Some? then format.price.value else 0;
      FormatsStep(acc, category, provider, formats, i);
      ghost var r0 := r;
      if provider !in r[category] || price < r[category][provider].price {
        r := r[category := r[category][provider := Offer(url, price)]];
      }
      assert r == Step(r0, Quote(category, provider, url, price));
    }
    assert formats[..|formats|] == formats;
  }

  /** One more method extends the fold and the list of met categories. */
  lemma MethodsStep(acc: Offers, types: seq<string>, p: string, ms: seq<Method>, i: nat,
                    r0: Offers, t0: seq<string>, r1: Offers)
    requires i < |ms|
    requires r0 == Fold(acc, MethodsEvents(p, ms[..i]))
    requires t0 == types + Touched(MethodsEvents(p, ms[..i]))
    requires r1 == Fold(Step(r0, Touch(UniformTypes(ms[i].kind))),
                        FormatEvents(UniformTypes(ms[i].kind), p, ms[i].formats))
    ensures r1 == Fold(acc, MethodsEvents(p, ms[..i + 1]))
    ensures t0 + [UniformTypes(ms[i].kind)] == types + Touched(MethodsEvents(p, ms[..i + 1]))
  {
    var done := MethodsEvents(p, ms[..i]);
    MethodsPrefix(p, ms, i);
    FoldAppend(acc, done, MethodEvents(p, ms[i]));
    TouchedAppend(done, MethodEvents(p, ms[i]));
    MethodEventsSplit(r0, p, ms[i]);
    ConcatAssoc(types, Touched(done), [UniformTypes(ms[i].kind)]);
  }

  lemma MethodsPrefix(p: string, ms: seq<Method>, i: nat)
    requires i < |ms|
    ensures MethodsEvents(p, ms[..i + 1]) == MethodsEvents(p, ms[..i]) + MethodEvents(p, ms[i])
  {
    assert ms[..i + 1][..i] == ms[..i];
  }

  /** The loop over one medium's methods: each method type is normalised,
      recorded and gets its category key before its formats are folded. */
  method FoldMethods(acc: Offers, types: seq<string>, provider: string, methods: seq<Method>)
    returns (r: Offers, types': seq<string>)
    ensures r == Fold(acc, MethodsEvents(provider, methods))
    ensures types' == types + Touched(MethodsEvents(provider, methods))
  {
    r, types' := acc, types;
    for i := 0 to |methods|
      invariant r == Fold(acc, MethodsEvents(provider, methods[..i]))
      invariant types' == types + Touched(MethodsEvents(provider, methods[..i]))
    {
      var m := methods[i];
      ghost var r0, t0 := r, types';
      var methodType := UniformTypes(m.kind);
      types' := types' + [methodType];
      if methodType !in r {
        r := r[methodType := map[]];
      }
      r := FoldFormats(r, methodType, provider, m.formats);
      MethodsStep(acc, types, provider, methods, i, r0, t0, r);
    }
    assert methods[..|methods|] == methods;
  }

  /** One more medium extends the fold and the list of met categories. */
  lemma MediumsStep(acc: Offers, types: seq<string>, p: string, mds: seq<seq<Method>>, i: nat,
                    r0: Offers, t0: seq<string>)
    requires i < |mds|
    requires r0 == Fold(acc, MediumsEvents(p, mds[..i]))
    requires t0 == types + Touched(MediumsEvents(p, mds[..i]))
    ensures Fold(r0, MethodsEvents(p, mds[i])) == Fold(acc, MediumsEvents(p, mds[..i + 1]))
    ensures t0 + Touched(MethodsEvents(p, mds[i])) == types + Touched(MediumsEvents(p, mds[..i + 1]))
  {
    MediumsPrefix(p, mds, i);
    FoldAppend(acc, MediumsEvents(p, mds[..i]), MethodsEvents(p, mds[i]));
    TouchedAppend(MediumsEvents(p, mds[..i]), MethodsEvents(p, mds[i]));
    ConcatAssoc(types, Touched(MediumsEvents(p, mds[..i])), Touched(MethodsEvents(p, mds[i])));
  }

  lemma MediumsPrefix(p: string, mds: seq<seq<Method>>, i: nat)
    requires i < |mds|
    ensures MediumsEvents(p, mds[..i + 1]) == MediumsEvents(p, mds[..i]) + MethodsEvents(p, mds[i])
  {
    assert mds[..i + 1][..i] == mds[..i];
  }

  /** The loop over one source's mediums. */
  method FoldMediums(acc: Offers, types: seq<string>, provider: string, mediums: seq<seq<Method>>)
    returns (r: Offers, types': seq<string>)
    ensures r == Fold(acc, MediumsEvents(provider, mediums))
    ensures types' == types + Touched(MediumsEvents(provider, mediums))
  {
    r, types' := acc, types;
    for i := 0 to |mediums|
      invariant r == Fold(acc, MediumsEvents(provider, mediums[..i]))
      invariant types' == types + Touched(MediumsEvents(provider, mediums[..i]))
    {
      MediumsStep(acc, types, provider, mediums, i, r, types');
      r, types' := FoldMethods(r, types', provider, mediums[i]);
    }
    assert mediums[..|mediums|] == mediums;
  }

  /** One more source extends the fold, the met categories and the medium
      names. */
  lemma SourcesStep(acc: Offers, types: seq<string>, names: seq<string>, ss: seq<Source>, i: nat,
                    r0: Offers, t0: seq<string>, n0: seq<string>)
    requires i < |ss|
    requires r0 == Fold(acc, SourcesEvents(ss[..i]))
    requires t0 == types + Touched(SourcesEvents(ss[..i]))
    requires n0 == names + Friendly(ss[..i])
    ensures Fold(r0, SourceEvents(ss[i])) == Fold(acc, SourcesEvents(ss[..i + 1]))
    ensures t0 + Touched(SourceEvents(ss[i])) == types + Touched(SourcesEvents(ss[..i + 1]))
    ensures n0 + ss[i].allMediums == names + Friendly(ss[..i + 1])
  {
    var done := SourcesEvents(ss[..i]);
    assert ss[..i + 1][..i] == ss[..i];
    assert SourcesEvents(ss[..i + 1]) == done + SourceEvents(ss[i]);
    FoldAppend(acc, done, SourceEvents(ss[i]));
    TouchedAppend(done, SourceEvents(ss[i]));
    ConcatAssoc(types, Touched(done), Touched(SourceEvents(ss[i])));
    ConcatAssoc(names, Friendly(ss[..i]), ss[i].allMediums);
  }

  /** The loop over a movie's sources: a source with `allMediums`
      contributes its medium names and its offers; any other is skipped. */
  method FoldSources(acc: Offers, types: seq<string>, names: seq<string>, sources: seq<Source>)
    returns (r: Offers, types': seq<string>, names': seq<string>)
    ensures r == Fold(acc, SourcesEvents(sources))
    ensures types' == types + Touched(SourcesEvents(sources))
    ensures names' == names + Friendly(sources)
  {
    r, types', names' := acc, types, names;
    for i := 0 to |sources|
      invariant r == Fold(acc, SourcesEvents(sources[..i]))
      invariant types' == types + Touched(SourcesEvents(sources[..i]))
      invariant names' == names + Friendly(sources[..i])
    {
      var source := sources[i];
      SourcesStep(acc, types, names, sources, i, r, types', names');
      if source.allMediums != [] {
        names' := names' + source.allMediums;
        var mediaProvider := source.provider;
        r, types' := FoldMediums(r, types', mediaProvider, source.mediums);
      } else {
        assert SourceEvents(source) == [];
        assert types' + [] == types';
      }
    }
    assert sources[..|sources|] == sources;
  }

  // ---------------------------------------------------------------------
  // get_movie_data

  /** Non-movies and movies without an IMDB title are skipped. */
  predicate Kept(info: ImdbRecord) {
    info.kind == Movie && info.title != ""
  }

  /** The record has a (non-empty) MediaHound id. */
  predicate HasMh(info: ImdbRecord) {
    info.mh.Some? && info.mh.value.mhid != ""
  }

  function MovieSources(info: ImdbRecord, catalog: Catalog): seq<Source> {
    if HasMh(info) then catalog.sources(info.mh.value.mhid) else []
  }

  /** The entry `get_movie_data` builds for a kept movie: excluded when it
      has no MediaHound id or no sources. */
  function EntryOf(id: string, catalog: Catalog): MovieEntry {
    var info := catalog.imdb(id);
    var sources := MovieSources(info, catalog);
    MovieEntry(id, info.title, info.imdbRating, info.tomatoMeter, info.tomatoUrl,
               if HasMh(info) then info.mh else None,
               Fold(map[], SourcesEvents(sources)), !HasMh(info) || sources == [])
  }

  function Entries(ids: seq<string>, catalog: Catalog): seq<MovieEntry> {
    if ids == [] then []
    else
      var id := ids[|ids| - 1];
      Entries(ids[..|ids| - 1], catalog) + (if Kept(catalog.imdb(id)) then [EntryOf(id, catalog)] else [])
  }

  /** The events of all kept movies, in order. */
  function AllEvents(ids: seq<string>, catalog: Catalog): seq<Event> {
    if ids == [] then []
    else
      var info := catalog.imdb(ids[|ids| - 1]);
      AllEvents(ids[..|ids| - 1], catalog)
        + (if Kept(info) then SourcesEvents(MovieSources(info, catalog)) else [])
  }

  /** The medium names of all kept movies, with repetitions. */
  function AllFriendly(ids: seq<string>, catalog: Catalog): seq<string> {
    if ids == [] then []
    else
      var info := catalog.imdb(ids[|ids| - 1]);
      AllFriendly(ids[..|ids| - 1], catalog)
        + (if Kept(info) then Friendly(MovieSources(info, catalog)) else [])
  }

  /** What `get_movie_data` returns for a non-empty id list: one entry per
      kept movie, in order; the distinct medium names in some order; and the
      column order of `sort_method_types` over every method type met. */
  predicate IsMoviesData(d: MoviesData, ids: seq<string>, catalog: Catalog) {
    d.movies == Entries(ids, catalog)
    && IsEnumeration(d.friendlyNames, Elems(AllFriendly(ids, catalog)))
    && IsColumnOrder(d.mediaTypes, Touched(AllEvents(ids, catalog)))
  }

  /** `get_movie_data`: None (Python's False) for an empty id list;
      otherwise one entry per kept movie, in order, the distinct medium
      names in some order, and the column order of `sort_method_types` over
      every method type met. */
  method GetMovieData(movies: seq<string>, catalog: Catalog) returns (r: Option<MoviesData>)
    ensures r.None? <==> movies == []
    ensures r.Some? ==> IsMoviesData(r.value, movies, catalog)
  {
    if movies == [] {
      return None;
    }
    var entries: seq<MovieEntry> := [];
    var friendlyNames: seq<string> := [];
    var mediaTypes: seq<string> := [];
    for i := 0 to |movies|
      invariant entries == Entries(movies[..i], catalog)
      invariant friendlyNames == AllFriendly(movies[..i], catalog)
      invariant mediaTypes == Touched(AllEvents(movies[..i], catalog))
    {
      var imdbId := movies[i];
      assert movies[..i + 1][..i] == movies[..i];
      var info := catalog.imdb(imdbId);
      TouchedAppend(AllEvents(movies[..i], catalog),
                    if Kept(info) then SourcesEvents(MovieSources(info, catalog)) else []);
      if info.kind != Movie {
        assert mediaTypes + [] == mediaTypes;
        continue;
      }
      if info.title == "" {
        assert mediaTypes + [] == mediaTypes;
        continue;
      }
      var offers: Offers := map[];
      var exclude := true;
      var mh: Option<Crossref> := None;
      if info.mh.Some? && info.mh.value.mhid != "" {
        mh := info.mh;
        var sources := catalog.sources(info.mh.value.mhid);
        exclude := sources == [];
        offers, mediaTypes, friendlyNames := FoldSources(offers, mediaTypes, friendlyNames, sources);
      } else {
        assert mediaTypes + [] == mediaTypes;
      }
      var entry := MovieEntry(imdbId, info.title, info.imdbRating, info.tomatoMeter, info.tomatoUrl,
                              mh, offers, exclude);
      entries := entries + [entry];
    }
    assert movies[..|movies|] == movies;
    var names := Enumerate(Elems(friendlyNames));
    var columns := SortMethodTypes(mediaTypes);
    r := Some(MoviesData(entries, names, columns));
  }
}

/**
 * The search dialog of the client: a search through the gateway, and the
 * enrichment of a chosen search result with the gateway's detail object
 * into one record that is inserted into the list the dialog was opened for.
 *
 * What a `fetch` of the gateway gave is a parameter (`Reply`): it threw, it
 * answered with a non-ok status, or it answered ok with parsed JSON.
 */
module SearchModal {
  import opened Wrappers
  import opened Js
  import Text
  import opened SearchMedia
  import opened Store

  /** The list the dialog adds to (its `type` property). */
  datatype ListType = Watched | Watchlist

  function TableFor(l: ListType): Table {
    if l == Watched then WatchedItems else WatchlistItems
  }

  datatype Reply<T> = Threw | Failed | Ok(json: T)

  const DuplicateMessage: string := "This item is already in your list"
  const AddFailedMessage: string := "Failed to add media. Please try again."
  const SearchErrorMessage: string := "Failed to search. Please try again."
  const DirectorJob: string := "Director"
  const MaxDirectors: nat := 2
  const MaxCast: nat := 5

  // ---------------------------------------------- reading the detail JSON

  /** The `total_episodes` key of a detail object (absent from a movie object). */
  function EpisodesField(b: DetailBody): Option<int> {
    if b.TvBody? then b.totalEpisodes else None
  }

  function SeasonsField(b: DetailBody): Option<int> {
    if b.TvBody? then b.totalSeasons else None
  }

  function StatusField(b: DetailBody): Option<string> {
    if b.TvBody? then b.status else None
  }

  function RuntimeField(b: DetailBody): Option<int> {
    if b.MovieBody? then b.runtime else None
  }

  function BudgetField(b: DetailBody): Option<int> {
    if b.MovieBody? then b.budget else None
  }

  function RevenueField(b: DetailBody): Option<int> {
    if b.MovieBody? then b.revenue else None
  }

  /** The `release_date` key (absent from a tv object). */
  function ReleaseDateField(b: DetailBody): Option<string> {
    if b.MovieBody? then b.releaseDate else None
  }

  function CrewField(b: DetailBody): Option<seq<CrewMember>> {
    if b.credits.Some? then b.credits.value.crew else None
  }

  function CastField(b: DetailBody): Option<seq<CastMember>> {
    if b.credits.Some? then b.credits.value.cast else None
  }

  // ------------------------------------------------------ list columns

  function GenreNames(gs: seq<Genre>): (r: seq<string>)
    ensures |r| == |gs|
    ensures forall i :: 0 <= i < |gs| ==> r[i] == gs[i].name
    decreases |gs|
  {
    if gs == [] then [] else [gs[0].name] + GenreNames(gs[1..])
  }

  function CastNames(cast: seq<CastMember>): (r: seq<string>)
    ensures |r| == |cast|
    ensures forall i :: 0 <= i < |cast| ==> r[i] == cast[i].name
    decreases |cast|
  {
    if cast == [] then [] else [cast[0].name] + CastNames(cast[1..])
  }

  /** `cast.slice(0, 5).map(p => p.name)`: the names of the first five, in billing order. */
  function MainCast(cast: seq<CastMember>): (r: seq<string>)
    ensures |r| == Text.Min(MaxCast, |cast|)
    ensures forall i :: 0 <= i < |r| ==> r[i] == cast[i].name
  {
    CastNames(cast[..Text.Min(MaxCast, |cast|)])
  }

  predicate IsDirector(p: CrewMember) {
    p.job == DirectorJob
  }

  /** `crew.filter(p => p.job === 'Director').map(p => p.name)` */
  function DirectorsIn(crew: seq<CrewMember>): (r: seq<string>)
    ensures |r| <= |crew|
    ensures forall n :: n in r <==> exists p :: p in crew && IsDirector(p) && p.name == n
    decreases |crew|
  {
    if crew == [] then []
    else
      assert forall p :: p in crew <==> p == crew[0] || p in crew[1..];
      (if IsDirector(crew[0]) then [crew[0].name] else []) + DirectorsIn(crew[1..])
  }

  /** The directors of a concatenated crew list are those of each part, in order. */
  lemma {:induction false} DirectorsInAppend(a: seq<CrewMember>, b: seq<CrewMember>)
    ensures DirectorsIn(a + b) == DirectorsIn(a) + DirectorsIn(b)
    decreases |a|
  {
    if a == [] {
      assert a + b == b;
    } else {
      var head := if IsDirector(a[0]) then [a[0].name] else [];
      assert (a + b)[1..] == a[1..] + b;
      assert DirectorsIn(a + b) == head + DirectorsIn(a[1..] + b);
      DirectorsInAppend(a[1..], b);
      assert DirectorsIn(a) == head + DirectorsIn(a[1..]);
    }
  }

  /** `.slice(0, 2)` of the directors: the first two, in crew order. */
  function DirectorNames(crew: seq<CrewMember>): (r: seq<string>)
    ensures |r| == Text.Min(MaxDirectors, |DirectorsIn(crew)|)
    ensures r == DirectorsIn(crew)[..|r|]
    ensures forall n :: n in r ==> exists p :: p in crew && IsDirector(p) && p.name == n
  {
    var all := DirectorsIn(crew);
    var r := all[..Text.Min(MaxDirectors, |all|)];
    assert forall n :: n in r ==> n in all;
    r
  }

  function GenresText(b: DetailBody): string {
    if b.genres.Some? then Text.Join(GenreNames(b.genres.value), Text.ListSeparator) else ""
  }

  function DirectorText(b: DetailBody): string {
    if CrewField(b).Some? then Text.Join(DirectorNames(CrewField(b).value), Text.ListSeparator) else ""
  }

  function MainCastText(b: DetailBody): string {
    if CastField(b).Some? then Text.Join(MainCast(CastField(b).value), Text.ListSeparator) else ""
  }

  function LanguageText(b: DetailBody): string {
    if b.originalLanguage.Some? then Text.Upper(b.originalLanguage.value) else ""
  }

  // ------------------------------------------------------- the record

  /**
   * The record `addMedia` inserts for a search result: the stub's own
   * columns and the owner whatever the detail answer, and the enrichment
   * columns read from the detail object
   * (`None` when the detail answer was not ok, which leaves every
   * enrichment column at its default). Kind-specific columns are read only
   * for their kind. No gateway detail object has `first_air_date`, so the
   * fallback of `release_date` to it adds nothing.
   */
  function Enriched(result: SearchItem, userId: string, details: Option<DetailBody>): (rec: MediaRecord)
    ensures rec.userId == userId && rec.tmdbId == Some(result.id)
    ensures rec.title == result.title && rec.mediaType == result.mediaType && rec.year == result.year
    ensures rec.posterUrl == result.posterPath && rec.description == result.overview
  {
    var tv := result.mediaType == Tv;
    var got := details.Some?;
    MediaRecord(
      userId := userId,
      title := result.title,
      mediaType := result.mediaType,
      year := result.year,
      posterUrl := result.posterPath,
      totalEpisodes := Some(if got && tv then OrZero(EpisodesField(details.value)) else 0),
      totalSeasons := Some(if got && tv then OrZero(SeasonsField(details.value)) else 0),
      tmdbId := Some(result.id),
      description := result.overview,
      genres := Some(if got then GenresText(details.value) else ""),
      rating := if got then OrNullReal(details.value.voteAverage) else None,
      runtime := if got && !tv then OrNull(RuntimeField(details.value)) else None,
      director := Some(if got then DirectorText(details.value) else ""),
      language := Some(if got then LanguageText(details.value) else ""),
      releaseDate := Some(if got then OrEmpty(ReleaseDateField(details.value)) else ""),
      budget := if got && !tv then OrNull(BudgetField(details.value)) else None,
      revenue := if got && !tv then OrNull(RevenueField(details.value)) else None,
      mainCast := Some(if got then MainCastText(details.value) else ""),
      tvStatus := Some(if got && tv then OrEmpty(StatusField(details.value)) else ""))
  }

  /**
   * The step-by-step fold of `addMedia`: a dozen locals start at their
   * defaults and are overwritten from the detail object when there is one.
   */
  method BuildRecord(result: SearchItem, userId: string, details: Option<DetailBody>) returns (rec: MediaRecord)
    ensures rec == Enriched(result, userId, details)
  {
    var totalEpisodes := 0;
    var totalSeasons := 0;
    var genres := "";
    var rating: Option<real> := None;
    var runtime: Option<int> := None;
    var director := "";
    var language := "";
    var releaseDate := "";
    var budget: Option<int> := None;
    var revenue: Option<int> := None;
    var mainCast := "";
    var tvStatus := "";

    if details.Some? {
      var d := details.value;
      if result.mediaType == Tv {
        totalEpisodes := OrZero(EpisodesField(d));
        totalSeasons := OrZero(SeasonsField(d));
        tvStatus := OrEmpty(StatusField(d));
      } else {
        runtime := OrNull(RuntimeField(d));
        budget := OrNull(BudgetField(d));
        revenue := OrNull(RevenueField(d));
      }
      genres := GenresText(d);
      rating := OrNullReal(d.voteAverage);
      language := LanguageText(d);
      releaseDate := OrEmpty(ReleaseDateField(d));
      if CrewField(d).Some? {
        director := Text.Join(DirectorNames(CrewField(d).value), Text.ListSeparator);
      }
      if CastField(d).Some? {
        mainCast := Text.Join(MainCast(CastField(d).value), Text.ListSeparator);
      }
    }

    rec := MediaRecord(
      userId := userId,
      title := result.title,
      mediaType := result.mediaType,
      year := result.year,
      posterUrl := result.posterPath,
      totalEpisodes := Some(totalEpisodes),
      totalSeasons := Some(totalSeasons),
      tmdbId := Some(result.id),
      description := result.overview,
      genres := Some(genres),
      rating := rating,
      runtime := runtime,
      director := Some(director),
      language := Some(language),
      releaseDate := Some(releaseDate),
      budget := budget,
      revenue := revenue,
      mainCast := Some(mainCast),
      tvStatus := Some(tvStatus));
  }

  /** Without a detail object every enrichment column keeps its default. */
  lemma DefaultsWithoutDetails(result: SearchItem, userId: string)
    ensures var rec := Enriched(result, userId, None);
            && rec.totalEpisodes == Some(0) && rec.totalSeasons == Some(0)
            && rec.genres == Some("") && rec.director == Some("") && rec.language == Some("")
            && rec.releaseDate == Some("") && rec.mainCast == Some("") && rec.tvStatus == Some("")
            && rec.rating == None && rec.runtime == None && rec.budget == None && rec.revenue == None
  {
  }

  /**
   * Kind-specific columns are filled only for their kind: a show never gets
   * runtime or money figures, a movie keeps zero episodes and seasons and an
   * empty status; a falsy figure (absent or 0) becomes 0 for a show and null
   * for a movie.
   */
  lemma KindSpecificColumns(result: SearchItem, userId: string, details: Option<DetailBody>)
    ensures var rec := Enriched(result, userId, details);
            && (result.mediaType == Tv ==> rec.runtime == None && rec.budget == None && rec.revenue == None)
            && (result.mediaType == Movie ==>
                  rec.totalEpisodes == Some(0) && rec.totalSeasons == Some(0) && rec.tvStatus == Some(""))
            && (result.mediaType == Movie ==>
                  (rec.runtime.Some? <==> details.Some? && TruthyInt(RuntimeField(details.value))))
            && (rec.runtime.Some? ==> rec.runtime.value != 0)
            && (rec.totalEpisodes.value != 0 ==>
                  result.mediaType == Tv && details.Some? && EpisodesField(details.value) == rec.totalEpisodes)
  {
  }

  /**
   * For a show the release-date column always ends up empty: the client
   * falls back to `first_air_date`, which the gateway never forwards.
   */
  lemma ShowReleaseDateEmpty(result: SearchItem, userId: string, details: Option<DetailBody>)
    requires details.Some? ==> details.value.TvBody?
    ensures Enriched(result, userId, details).releaseDate == Some("")
  {
  }

  /**
   * The columns an ok detail answer fills: a rating only when non-zero; for
   * a movie, runtime, budget and revenue only when non-zero and the release
   * date or an empty one; the language code upper-cased; an absent list
   * gives an empty column.
   */
  lemma DetailColumns(result: SearchItem, userId: string, b: DetailBody)
    ensures var rec := Enriched(result, userId, Some(b));
            && rec.rating == (if TruthyReal(b.voteAverage) then b.voteAverage else None)
            && rec.language == Some(if b.originalLanguage.Some? then Text.Upper(b.originalLanguage.value) else "")
            && (b.genres.None? ==> rec.genres == Some(""))
            && (CrewField(b).None? ==> rec.director == Some(""))
            && (CastField(b).None? ==> rec.mainCast == Some(""))
    ensures var rec := Enriched(result, userId, Some(b));
            result.mediaType == Movie ==>
              && rec.runtime == (if TruthyInt(RuntimeField(b)) then RuntimeField(b) else None)
              && rec.budget == (if TruthyInt(BudgetField(b)) then BudgetField(b) else None)
              && rec.revenue == (if TruthyInt(RevenueField(b)) then RevenueField(b) else None)
              && rec.releaseDate == Some(if Truthy(ReleaseDateField(b)) then ReleaseDateField(b).value else "")
  {
  }

  /**
   * The genres column reads back as the genre names, in order, when no name
   * contains a comma; no genres give an empty column.
   */
  lemma GenresColumn(result: SearchItem, userId: string, b: DetailBody)
    requires b.genres.Some?
    requires forall g :: g in b.genres.value ==> ',' !in g.name
    ensures var col := Enriched(result, userId, Some(b)).genres.value;
            && (b.genres.value == [] ==> col == "")
            && (b.genres.value != [] ==> Text.SplitList(col, Text.ListSeparator) == GenreNames(b.genres.value))
  {
    var gs := GenreNames(b.genres.value);
    if gs != [] {
      forall i | 0 <= i < |gs| ensures Text.ListSeparator[0] !in gs[i] {
        assert b.genres.value[i] in b.genres.value;
      }
      Text.SplitJoin(gs, Text.ListSeparator);
    }
  }

  /**
   * The director column reads back as the first two directors, in crew
   * order, when no crew name contains a comma; no director gives an empty
   * column.
   */
  lemma DirectorColumn(result: SearchItem, userId: string, b: DetailBody)
    requires CrewField(b).Some?
    requires forall p :: p in CrewField(b).value ==> ',' !in p.name
    ensures var col := Enriched(result, userId, Some(b)).director.value;
            var ds := DirectorNames(CrewField(b).value);
            && (ds == [] ==> col == "")
            && (ds != [] ==> Text.SplitList(col, Text.ListSeparator) == ds)
  {
    var ds := DirectorNames(CrewField(b).value);
    if ds != [] {
      forall i | 0 <= i < |ds| ensures Text.ListSeparator[0] !in ds[i] {
        assert ds[i] in ds;
      }
      Text.SplitJoin(ds, Text.ListSeparator);
    }
  }

  /**
   * The cast column reads back as the first five cast members, in billing
   * order, when no name contains a comma; no cast gives an empty column.
   */
  lemma CastColumn(result: SearchItem, userId: string, b: DetailBody)
    requires CastField(b).Some?
    requires forall p :: p in CastField(b).value ==> ',' !in p.name
    ensures var col := Enriched(result, userId, Some(b)).mainCast.value;
            var cast := CastField(b).value;
            && (cast == [] ==> col == "")
            && (cast != [] ==> Text.SplitList(col, Text.ListSeparator) == MainCast(cast))
  {
    var cast := CastField(b).value;
    var cs := MainCast(cast);
    if cs != [] {
      forall i | 0 <= i < |cs| ensures Text.ListSeparator[0] !in cs[i] {
        assert cast[i] in cast;
      }
      Text.SplitJoin(cs, Text.ListSeparator);
    }
  }

  // ---------------------------------------------- the gateway round trip

  /** The detail request `addMedia` sends: `?id=<result.id>&type=<result.media_type>`. */
  function DetailRequest(result: SearchItem): (r: Request)
    ensures r.verb == "GET" && Truthy(r.id) && Truthy(r.mediaType)
    ensures EndpointFor(r.mediaType.value) == if result.mediaType == Tv then TvEndpoint else MovieEndpoint
  {
    Request("GET", None, Some(Text.DecimalString(result.id)), Some(KindName(result.mediaType)))
  }

  /** How the client reads a gateway answer: `response.ok` and then the JSON object. */
  function AsDetailReply(resp: Response): (r: Reply<DetailBody>)
    ensures !r.Threw?
    ensures r.Ok? ==> 200 <= resp.status <= 299 && resp.body == DetailsJson(r.json)
    ensures !(200 <= resp.status <= 299) ==> r == Failed
  {
    if 200 <= resp.status <= 299 && resp.body.DetailsJson? then Ok(resp.body.details) else Failed
  }

  /**
   * Asked for the details of a search result, a gateway with a key always
   * takes the detail path of the result's own kind, so the client only ever
   * reads a detail object of the kind it branches on.
   */
  lemma DetailRequestMatchesKind(result: SearchItem, apiKey: Option<string>, tmdb: Provider, yearOf: string -> Option<int>)
    requires Truthy(apiKey)
    ensures var reply := AsDetailReply(Handle(DetailRequest(result), apiKey, tmdb, yearOf));
            reply.Ok? ==> (reply.json.TvBody? <==> result.mediaType == Tv)
    ensures var reply := AsDetailReply(Handle(DetailRequest(result), apiKey, tmdb, yearOf));
            var endpoint := if result.mediaType == Tv then TvEndpoint else MovieEndpoint;
            reply.Ok? <==> tmdb.details(endpoint, Text.DecimalString(result.id), apiKey.value).Answered?
  {
    var req := DetailRequest(result);
    DetailPath(req, apiKey, tmdb, yearOf);
  }

  /**
   * End to end for a show: the episode and season counts the provider
   * reports reach the inserted record, a missing or zero count as 0.
   */
  lemma ShowCountsEndToEnd(result: SearchItem, userId: string, apiKey: Option<string>, tmdb: Provider,
                           yearOf: string -> Option<int>, d: UpstreamDetails)
    requires Truthy(apiKey) && result.mediaType == Tv
    requires tmdb.details(TvEndpoint, Text.DecimalString(result.id), apiKey.value) == Answered(d)
    ensures var reply := AsDetailReply(Handle(DetailRequest(result), apiKey, tmdb, yearOf));
            && reply.Ok?
            && Enriched(result, userId, Some(reply.json)).totalEpisodes == Some(OrZero(d.numberOfEpisodes))
            && Enriched(result, userId, Some(reply.json)).totalSeasons == Some(OrZero(d.numberOfSeasons))
            && Enriched(result, userId, Some(reply.json)).tvStatus == Some(OrEmpty(d.status))
  {
    DetailPath(DetailRequest(result), apiKey, tmdb, yearOf);
  }

  /** A search the dialog sends (its query is not blank) always reaches the gateway's search path. */
  lemma SearchRequestReachesSearch(q: string, apiKey: Option<string>, tmdb: Provider, yearOf: string -> Option<int>)
    requires !Text.IsBlank(q) && Truthy(apiKey)
    ensures var r := Handle(Request("GET", Some(q), None, None), apiKey, tmdb, yearOf);
            r == SearchResponse(tmdb.search(q, apiKey.value), yearOf)
  {
    assert q != "";
  }

  // ------------------------------------------------------- the dialog

  class Modal {
    const listType: ListType
    const userId: string
    const store: Tables
    var query: string
    var results: seq<SearchItem>
    var loading: bool
    var error: string
    var addingId: Option<int>

    constructor (listType: ListType, userId: string, store: Tables)
      ensures this.listType == listType && this.userId == userId && this.store == store
      ensures query == "" && results == [] && !loading && error == "" && addingId == None
    {
      this.listType, this.userId, this.store := listType, userId, store;
      query, results, loading, error, addingId := "", [], false, "", None;
    }

    /**
     * `searchMedia`: a blank query does nothing; any other query is sent to
     * the gateway's search path, and the answer's results (or none) replace
     * the list; a failure keeps the list and sets the message.
     */
    method SearchMedia(reply: Reply<Option<seq<SearchItem>>>) returns (sent: Option<Request>)
      modifies this`results, this`loading, this`error
      ensures sent.None? <==> Text.IsBlank(query)
      ensures sent.None? ==> results == old(results) && loading == old(loading) && error == old(error)
      ensures sent.Some? ==> sent.value == Request("GET", Some(query), None, None) && !loading
      ensures sent.Some? && reply.Ok? ==> error == "" && results == reply.json.GetOr([])
      ensures sent.Some? && !reply.Ok? ==> error == SearchErrorMessage && results == old(results)
    {
      var q := query;
      Text.TrimEmptyIffBlank(q);
      if Text.Trim(q) == "" {
        return None;
      }
      loading := true;
      error := "";
      sent := Some(Request("GET", Some(q), None, None));
      match reply {
        case Ok(data) =>
          results := data.GetOr([]);
        case _ =>
          error := SearchErrorMessage;
      }
      loading := false;
    }

    /**
     * `addMedia`: fetch the details, build the record (with defaults when
     * the answer is not ok), insert it into the dialog's table and map the
     * outcome to a message or to `onAdd`. A fetch that throws inserts
     * nothing. `addingId` is cleared after every attempt.
     */
    method AddMedia(result: SearchItem, details: Reply<DetailBody>, id: string, now: int, fault: Option<string>)
      returns (record: Option<MediaRecord>, added: bool)
      requires store.Valid()
      modifies this`error, this`addingId, store
      ensures store.Valid()
      ensures addingId == None
      ensures details.Threw? ==>
                record == None && !added && error == AddFailedMessage
                && store.watched == old(store.watched) && store.watchlist == old(store.watchlist)
      ensures !details.Threw? ==>
                record == Some(Enriched(result, userId, if details.Ok? then Some(details.json) else None))
      ensures !details.Threw? ==>
                var t := TableFor(listType);
                var err := InsertError(old(store.Rows(t)), record.value, fault);
                && added == err.None?
                && error == (if err.None? then old(error)
                             else if err == Some(UniqueViolation) then DuplicateMessage
                             else AddFailedMessage)
                && store.Rows(t) == (if added then old(store.Rows(t)) + [NewRow(t, record.value, id, now)]
                                     else old(store.Rows(t)))
                && store.Rows(Other(t)) == old(store.Rows(Other(t)))
    {
      addingId := Some(result.id);
      if details.Threw? {
        error := AddFailedMessage;
        addingId := None;
        return None, false;
      }
      var rec := BuildRecord(result, userId, if details.Ok? then Some(details.json) else None);
      record := Some(rec);
      var err := store.Insert(TableFor(listType), rec, id, now, fault);
      if err.Some? {
        if err.value == UniqueViolation {
          error := DuplicateMessage;
        } else {
          error := AddFailedMessage;
        }
        added := false;
      } else {
        added := true;
      }
      addingId := None;
    }
  }
}

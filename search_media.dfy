/**
 * The metadata gateway (`search-media` edge function): a stateless HTTP
 * handler that forwards either a multi-search or a detail lookup to the
 * movie database provider and reshapes the provider's JSON.
 *
 * The provider is a parameter: one function per endpoint, from the request
 * it is sent to what came back (a non-ok status, or the parsed JSON). The
 * year of a date string, which the handler gets from the JavaScript `Date`
 * class, is a parameter too (`yearOf`; `None` stands for the `NaN` year of an
 * unparsable date, which JSON renders as `null`).
 */
module SearchMedia {
  import opened Wrappers
  import opened Js

  // ------------------------------------------------------------ JSON shapes

  datatype MediaKind = Movie | Tv

  /** The `media_type` string of a kind. */
  function KindName(k: MediaKind): string {
    match k
    case Movie => "movie"
    case Tv => "tv"
  }

  datatype Genre = Genre(id: int, name: string)
  datatype CastMember = CastMember(name: string)
  datatype CrewMember = CrewMember(job: string, name: string)
  datatype Credits = Credits(cast: Option<seq<CastMember>>, crew: Option<seq<CrewMember>>)

  /** One entry of the provider's multi-search `results` array (people included). */
  datatype UpstreamItem = UpstreamItem(
    id: int,
    title: Option<string>,
    name: Option<string>,
    mediaType: string,
    releaseDate: Option<string>,
    firstAirDate: Option<string>,
    posterPath: Option<string>,
    overview: Option<string>)

  /** The provider's detail object for one title, as read through either endpoint. */
  datatype UpstreamDetails = UpstreamDetails(
    numberOfEpisodes: Option<int>,
    numberOfSeasons: Option<int>,
    status: Option<string>,
    runtime: Option<int>,
    budget: Option<int>,
    revenue: Option<int>,
    genres: Option<seq<Genre>>,
    voteAverage: Option<real>,
    originalLanguage: Option<string>,
    releaseDate: Option<string>,
    credits: Option<Credits>)

  /** One entry of the gateway's `results` array. */
  datatype SearchItem = SearchItem(
    id: int,
    title: Option<string>,
    mediaType: MediaKind,
    year: Option<int>,
    posterPath: Option<string>,
    overview: Option<string>)

  /** The gateway's detail object: a tagged union on the kind of title. */
  datatype DetailBody =
    | TvBody(
        totalEpisodes: Option<int>,
        totalSeasons: Option<int>,
        status: Option<string>,
        genres: Option<seq<Genre>>,
        voteAverage: Option<real>,
        originalLanguage: Option<string>,
        credits: Option<Credits>)
    | MovieBody(
        runtime: Option<int>,
        budget: Option<int>,
        revenue: Option<int>,
        genres: Option<seq<Genre>>,
        voteAverage: Option<real>,
        originalLanguage: Option<string>,
        releaseDate: Option<string>,
        credits: Option<Credits>)

  // ------------------------------------------------------- HTTP exchange

  /** The method and the three query parameters the handler reads (`searchParams.get`). */
  datatype Request = Request(verb: string, query: Option<string>, id: Option<string>, mediaType: Option<string>)

  datatype Body =
    | NoBody
    | ErrorJson(error: string)
    | DetailsJson(details: DetailBody)
    | ResultsJson(results: seq<SearchItem>)

  datatype Response = Response(status: int, headers: map<string, string>, body: Body)

  /**
   * What a call to the provider gave: a non-ok status, the parsed JSON, or
   * an exception (a failed `fetch` or unparsable JSON) with its message.
   */
  datatype Upstream<T> = NotOk | Answered(json: T) | Threw(message: string)

  datatype DetailEndpoint = TvEndpoint | MovieEndpoint

  /** The provider's two endpoints; each also receives the server's API key. */
  datatype Provider = Provider(
    details: (DetailEndpoint, string, string) -> Upstream<UpstreamDetails>,
    search: (string, string) -> Upstream<seq<UpstreamItem>>)

  const CorsHeaders: map<string, string> := map[
    "Access-Control-Allow-Origin" := "*",
    "Access-Control-Allow-Methods" := "GET, POST, OPTIONS",
    "Access-Control-Allow-Headers" := "Content-Type, Authorization, X-Client-Info, Apikey"]

  const JsonHeaders: map<string, string> := CorsHeaders["Content-Type" := "application/json"]

  const PosterBase: string := "https://image.tmdb.org/t/p/w500"

  const MissingKeyMessage: string :=
    "TMDB API key not configured. Please set TMDB_API_KEY in your Supabase project secrets."
  const QueryRequiredMessage: string := "Query parameter is required"
  const TvFailedMessage: string := "Failed to fetch TV show details"
  const MovieFailedMessage: string := "Failed to fetch movie details"
  const SearchFailedMessage: string := "Failed to search TMDB"

  predicate CarriesCors(h: map<string, string>) {
    forall k :: k in CorsHeaders ==> k in h && h[k] == CorsHeaders[k]
  }

  function Json(status: int, body: Body): Response {
    Response(status, JsonHeaders, body)
  }

  /** What the `catch` block answers for a thrown error. */
  function Failure(message: string): Response {
    Json(500, ErrorJson(message))
  }

  // --------------------------------------------------------- reshaping

  /** The filter of the search path: only movies and tv shows are kept. */
  predicate Listed(it: UpstreamItem) {
    it.mediaType == "movie" || it.mediaType == "tv"
  }

  /** The map of the search path: one provider entry as the gateway returns it. */
  function Reshape(it: UpstreamItem, yearOf: string -> Option<int>): (r: SearchItem)
    requires Listed(it)
    ensures r.id == it.id && r.overview == it.overview
    ensures KindName(r.mediaType) == it.mediaType
    ensures Truthy(it.title) ==> r.title == it.title
    ensures !Truthy(it.title) ==> r.title == it.name
    ensures Truthy(it.releaseDate) ==> r.year == yearOf(it.releaseDate.value)
    ensures !Truthy(it.releaseDate) && Truthy(it.firstAirDate) ==> r.year == yearOf(it.firstAirDate.value)
    ensures !Truthy(it.releaseDate) && !Truthy(it.firstAirDate) ==> r.year == None
    ensures r.posterPath.Some? <==> Truthy(it.posterPath)
    ensures r.posterPath.Some? ==> r.posterPath.value == PosterBase + it.posterPath.value
  {
    SearchItem(
      it.id,
      Or(it.title, it.name),
      if it.mediaType == "tv" then Tv else Movie,
      if Truthy(it.releaseDate) then yearOf(it.releaseDate.value)
      else if Truthy(it.firstAirDate) then yearOf(it.firstAirDate.value)
      else None,
      if Truthy(it.posterPath) then Some(PosterBase + it.posterPath.value) else None,
      it.overview)
  }

  /** `results.filter(...).map(...)`: never longer than the provider's list. */
  function SearchResults(items: seq<UpstreamItem>, yearOf: string -> Option<int>): (r: seq<SearchItem>)
    ensures |r| <= |items|
    decreases |items|
  {
    if items == [] then []
    else (if Listed(items[0]) then [Reshape(items[0], yearOf)] else []) + SearchResults(items[1..], yearOf)
  }

  /** The reshaped list of a concatenation is the concatenation of the reshaped lists. */
  lemma {:induction false} SearchResultsAppend(a: seq<UpstreamItem>, b: seq<UpstreamItem>, yearOf: string -> Option<int>)
    ensures SearchResults(a + b, yearOf) == SearchResults(a, yearOf) + SearchResults(b, yearOf)
    decreases |a|
  {
    if a != [] {
      assert (a + b)[1..] == a[1..] + b;
      SearchResultsAppend(a[1..], b, yearOf);
    } else {
      assert a + b == b;
    }
  }

  /** The positions of the listed entries, in increasing order. */
  ghost function ListedPositions(items: seq<UpstreamItem>): (r: seq<nat>)
    ensures forall k :: 0 <= k < |r| ==> r[k] < |items| && Listed(items[r[k]])
    ensures forall k, l :: 0 <= k < l < |r| ==> r[k] < r[l]
    ensures forall i :: 0 <= i < |items| && Listed(items[i]) ==> i in r
    decreases |items|
  {
    if items == [] then []
    else
      var n := |items| - 1;
      var front := ListedPositions(items[..n]);
      if Listed(items[n]) then front + [n] else front
  }

  /**
   * The search output holds exactly the listed entries of the provider's
   * list, each reshaped, in the provider's order.
   */
  lemma {:induction false} SearchResultsExact(items: seq<UpstreamItem>, yearOf: string -> Option<int>)
    ensures |SearchResults(items, yearOf)| == |ListedPositions(items)|
    ensures forall k :: 0 <= k < |ListedPositions(items)| ==>
              SearchResults(items, yearOf)[k] == Reshape(items[ListedPositions(items)[k]], yearOf)
    decreases |items|
  {
    if items != [] {
      var n := |items| - 1;
      var front := items[..n];
      assert items == front + [items[n]];
      SearchResultsAppend(front, [items[n]], yearOf);
      SearchResultsExact(front, yearOf);
      var pos, out := ListedPositions(front), SearchResults(front, yearOf);
      var last := if Listed(items[n]) then [Reshape(items[n], yearOf)] else [];
      assert SearchResults([items[n]], yearOf) == last;
      assert SearchResults(items, yearOf) == out + last;
      assert ListedPositions(items) == if Listed(items[n]) then pos + [n] else pos;
      var all, outAll := ListedPositions(items), SearchResults(items, yearOf);
      forall k | 0 <= k < |all|
        ensures outAll[k] == Reshape(items[all[k]], yearOf)
      {
        if k < |pos| {
          assert all[k] == pos[k] && outAll[k] == out[k];
          assert items[pos[k]] == front[pos[k]];
        } else {
          assert all[k] == n && outAll[k] == last[0];
        }
      }
    }
  }

  /** The detail object of the tv endpoint: the `number_of_*` counts renamed, no movie fields. */
  function TvDetails(d: UpstreamDetails): (r: DetailBody)
    ensures r.TvBody?
    ensures r.totalEpisodes == d.numberOfEpisodes && r.totalSeasons == d.numberOfSeasons && r.status == d.status
    ensures r.genres == d.genres && r.voteAverage == d.voteAverage
    ensures r.originalLanguage == d.originalLanguage && r.credits == d.credits
  {
    TvBody(d.numberOfEpisodes, d.numberOfSeasons, d.status, d.genres, d.voteAverage, d.originalLanguage, d.credits)
  }

  /** The detail object of the movie endpoint: runtime and money, no episode, season or status. */
  function MovieDetails(d: UpstreamDetails): (r: DetailBody)
    ensures r.MovieBody?
    ensures r.runtime == d.runtime && r.budget == d.budget && r.revenue == d.revenue
    ensures r.releaseDate == d.releaseDate
    ensures r.genres == d.genres && r.voteAverage == d.voteAverage
    ensures r.originalLanguage == d.originalLanguage && r.credits == d.credits
  {
    MovieBody(d.runtime, d.budget, d.revenue, d.genres, d.voteAverage, d.originalLanguage, d.releaseDate, d.credits)
  }

  // ----------------------------------------------------------- handler

  /** The tv endpoint is chosen by the exact type `tv`; any other type asks the movie endpoint. */
  function EndpointFor(mediaType: string): DetailEndpoint {
    if mediaType == "tv" then TvEndpoint else MovieEndpoint
  }

  function DetailResponse(endpoint: DetailEndpoint, reply: Upstream<UpstreamDetails>): Response {
    match reply
    case NotOk => Failure(if endpoint == TvEndpoint then TvFailedMessage else MovieFailedMessage)
    case Answered(d) => Json(200, DetailsJson(if endpoint == TvEndpoint then TvDetails(d) else MovieDetails(d)))
    case Threw(m) => Failure(m)
  }

  function SearchResponse(reply: Upstream<seq<UpstreamItem>>, yearOf: string -> Option<int>): Response {
    match reply
    case NotOk => Failure(SearchFailedMessage)
    case Answered(items) => Json(200, ResultsJson(SearchResults(items, yearOf)))
    case Threw(m) => Failure(m)
  }

  /**
   * The request handler: preflight first, then the server key, then the
   * detail path when both `id` and `type` are given, then the query check,
   * then the search. Every answer carries the CORS headers.
   */
  function Handle(req: Request, apiKey: Option<string>, tmdb: Provider, yearOf: string -> Option<int>): (r: Response)
    ensures CarriesCors(r.headers)
    ensures req.verb == "OPTIONS" ==> r == Response(200, CorsHeaders, NoBody)
    ensures req.verb != "OPTIONS" && !Truthy(apiKey) ==> r == Failure(MissingKeyMessage)
    ensures r.status == 400 <==>
              req.verb != "OPTIONS" && Truthy(apiKey)
              && !(Truthy(req.id) && Truthy(req.mediaType)) && !Truthy(req.query)
    ensures r.status == 400 ==> r.body == ErrorJson(QueryRequiredMessage)
    ensures r.status in {200, 400, 500}
    ensures r.status == 500 <==> r.body.ErrorJson? && r.status != 400
  {
    if req.verb == "OPTIONS" then
      Response(200, CorsHeaders, NoBody)
    else if !Truthy(apiKey) then
      Failure(MissingKeyMessage)
    else if Truthy(req.id) && Truthy(req.mediaType) then
      var endpoint := EndpointFor(req.mediaType.value);
      DetailResponse(endpoint, tmdb.details(endpoint, req.id.value, apiKey.value))
    else if !Truthy(req.query) then
      Json(400, ErrorJson(QueryRequiredMessage))
    else
      SearchResponse(tmdb.search(req.query.value, apiKey.value), yearOf)
  }

  /**
   * With a key, an `id` and a `type`, the detail endpoint chosen by the type
   * is asked, whatever the query says; its answer is the kind-shaped detail
   * object, a 500 naming the endpoint, or a 500 carrying the message of
   * an exception.
   */
  lemma DetailPath(req: Request, apiKey: Option<string>, tmdb: Provider, yearOf: string -> Option<int>)
    requires req.verb != "OPTIONS" && Truthy(apiKey)
    requires Truthy(req.id) && Truthy(req.mediaType)
    ensures var r := Handle(req, apiKey, tmdb, yearOf);
            var tv := req.mediaType.value == "tv";
            match tmdb.details(if tv then TvEndpoint else MovieEndpoint, req.id.value, apiKey.value)
            case NotOk =>
              r == Failure(if tv then TvFailedMessage else MovieFailedMessage)
            case Answered(d) =>
              r.status == 200 && r.body.DetailsJson?
              && r.body.details.TvBody? == tv
              && r.body.details == (if tv then TvDetails(d) else MovieDetails(d))
            case Threw(m) =>
              r == Failure(m)
  {
  }

  /**
   * Without `id` and `type` and with a non-empty query, the answer is the
   * reshaped search, a 500 for a non-ok reply, or a 500 carrying the message
   * of an exception.
   */
  lemma SearchPath(req: Request, apiKey: Option<string>, tmdb: Provider, yearOf: string -> Option<int>)
    requires req.verb != "OPTIONS" && Truthy(apiKey)
    requires !(Truthy(req.id) && Truthy(req.mediaType)) && Truthy(req.query)
    ensures var r := Handle(req, apiKey, tmdb, yearOf);
            match tmdb.search(req.query.value, apiKey.value)
            case NotOk => r == Failure(SearchFailedMessage)
            case Answered(items) =>
              r.status == 200 && r.body == ResultsJson(SearchResults(items, yearOf))
            case Threw(m) => r == Failure(m)
  {
  }
}

/** `fetch_movie_info` and `fetch_series_info`: which metadata service an
    identifier is sent to, and what the handler gets back. The HTTP exchange
    itself is not modelled; its outcome is an input. */
module Provider {
  import opened Text
  import opened Media

  /** OMDb answers IMDb-style identifiers, TMDb everything else. */
  datatype Service = Omdb | Tmdb

  /** The two API keys, read from the environment at start-up. */
  datatype Keys = Keys(omdb: string, tmdb: string)

  /** One outbound `requests.get`. */
  datatype Request = Request(service: Service, url: string)

  /** What `requests.get(...)`, `raise_for_status()` and `json()` produced:
      a decoded body, or a `RequestException`. */
  datatype FetchOutcome = Body(json: Json) | RequestFailed

  const ImdbPrefix := "tt"
  const OmdbBase := "https://www.omdbapi.com/?i="
  const OmdbKeyParam := "&apikey="
  const TmdbMovieBase := "https://api.themoviedb.org/3/movie/"
  const TmdbTvBase := "https://api.themoviedb.org/3/tv/"
  const TmdbKeyParam := "?api_key="

  /** An identifier the bot treats as an IMDb id. */
  predicate IsImdbId(id: string) {
    StartsWith(id, ImdbPrefix)
  }

  /** The part of a request URL in front of the identifier. */
  function UrlBase(kind: Kind, service: Service): string {
    match service
    case Omdb => OmdbBase
    case Tmdb => if kind == Movie then TmdbMovieBase else TmdbTvBase
  }

  /** The part of a request URL after the identifier. */
  function UrlTail(service: Service, keys: Keys): string {
    match service
    case Omdb => OmdbKeyParam + keys.omdb
    case Tmdb => TmdbKeyParam + keys.tmdb
  }

  /** The single request a fetch makes for `id`. */
  function Endpoint(kind: Kind, id: string, keys: Keys): (r: Request)
    ensures r.service == Omdb <==> IsImdbId(id)
    ensures StartsWith(r.url, UrlBase(kind, r.service))
      && StartsWith(r.url[|UrlBase(kind, r.service)|..], id)
    ensures EndsWith(r.url, UrlTail(r.service, keys))
    ensures |r.url| == |UrlBase(kind, r.service)| + |id| + |UrlTail(r.service, keys)|
  {
    var service := if IsImdbId(id) then Omdb else Tmdb;
    var base := UrlBase(kind, service);
    var tail := UrlTail(service, keys);
    ConcatParts(base, id, tail);
    Request(service, base + id + tail)
  }

  /** The TMDb film and tv resources part at position 29: "movie/" against "tv/". */
  lemma TmdbResourcesDiffer()
    ensures TmdbMovieBase[29] != TmdbTvBase[29]
  {
  }

  /** An IMDb id is looked up at the same OMDb URL whether a film or a series
      was asked for; any other id goes to different TMDb resources. */
  lemma SameEndpointForBothKinds(id: string, keys: Keys)
    ensures Endpoint(Movie, id, keys) == Endpoint(Series, id, keys) <==> IsImdbId(id)
  {
    if !IsImdbId(id) {
      TmdbResourcesDiffer();
      PrefixesDiffer(Endpoint(Movie, id, keys).url, Endpoint(Series, id, keys).url, TmdbMovieBase, TmdbTvBase, 29);
    }
  }

  /** Different identifiers never share a request URL. */
  lemma EndpointInjective(kind: Kind, id1: string, id2: string, keys: Keys)
    requires Endpoint(kind, id1, keys) == Endpoint(kind, id2, keys)
    ensures id1 == id2
  {
    var r := Endpoint(kind, id1, keys);
    var base := UrlBase(kind, r.service);
    var tail := UrlTail(r.service, keys);
    assert r.url == base + id1 + tail;
    assert r.url == base + id2 + tail;
    assert |id1| == |id2|;
    assert id1 == r.url[|base|..|base| + |id1|];
    assert id2 == r.url[|base|..|base| + |id2|];
  }

  /** What the fetch function hands back to its handler: the decoded body, or
      a dictionary carrying only an `Error` entry when the request raised. */
  function FetchInfo(kind: Kind, outcome: FetchOutcome): (r: Json)
    ensures outcome.RequestFailed? ==> r.Keys == {"Error"}
    ensures outcome.Body? ==> r == outcome.json
  {
    match outcome
    case Body(json) => json
    case RequestFailed =>
      map["Error" := Str(if kind == Movie then "Failed to fetch movie info" else "Failed to fetch series info")]
  }

  /** `fetch_movie_info(id)` / `fetch_series_info(id)`, with the service's
      answer to the one request supplied by `respond`. */
  function Fetch(kind: Kind, id: string, keys: Keys, respond: Request -> FetchOutcome): (r: Json)
    ensures respond(Endpoint(kind, id, keys)).RequestFailed? ==> "Error" in r
    ensures respond(Endpoint(kind, id, keys)).Body? ==> r == respond(Endpoint(kind, id, keys)).json
  {
    FetchInfo(kind, respond(Endpoint(kind, id, keys)))
  }
}

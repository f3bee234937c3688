# Movie-finder bot: request pipeline model

This project models the request pipeline of a Telegram bot. A user sends
`/movie <id>` or `/series <id> <season> <episode>`. The bot looks the
identifier up at one of two metadata services. IMDb-style ids (`tt…`) go to
OMDb; anything else goes to TMDb's `/3/movie/` or `/3/tv/` resource. The bot
then reads title, plot, date and rating from whichever schema came back. It
replies with those four fields and three "Server N" buttons that link to
third-party embed players.

Each handler is a pure function. The HTTP exchange is a parameter,
`respond: Request -> FetchOutcome`, which answers a request with a decoded JSON
body or with a failed request. A handler's result is a `Handled` value: the
requests it made and the one reply it sent. This is how the model states that
argument validation happens before any lookup: the request list is empty.

Modules:

- `Text`: `startswith`, `str()` of a non-negative int, and splitting at a separator.
- `Media`: the content kind (`Movie` or `Series`) and JSON values.
- `Provider`: `fetch_movie_info` and `fetch_series_info`. It covers which
  service and URL an id is sent to, and the `{"Error": …}` dictionary returned
  on a `RequestException`.
- `Normalization`: the nested `dict.get` fallback chains, checked against a
  declarative table of keys probed in order.
- `Links`: the embed URL templates and the `enumerate` comprehension that
  labels the buttons.
- `Router`: `start`, `handle_query`, `movie_command` and `series_command`, plus
  the dispatch that `main` registers.

Two behaviours of the code are worth stating plainly, since a reader might
expect otherwise:

- `/movie` needs at least one argument, not exactly one. Extra arguments are
  ignored (bot.py:73-77).
- "Not found" is decided only by an `Error` key in the returned dictionary
  (bot.py:80, bot.py:114). A body with none of the recognised fields is not
  "not found": it is shown with the placeholders "Unknown Title",
  "No plot available." and "N/A".

## Model

| member | source | states |
|---|---|---|
| `Provider.Endpoint` | bot.py:48-64 | The request goes to OMDb exactly when the id starts with "tt". The URL is that service's base for the content kind, then the id verbatim, then the API-key parameter, and nothing else: it starts with the base, continues with the id, ends with the key parameter, and its length is the sum of the three. |
| `Provider.SameEndpointForBothKinds` | bot.py:48-64 | Films and series share the same request exactly when the id is an IMDb id. Any other id goes to different TMDb resources (`/3/movie/` or `/3/tv/`). |
| `Provider.EndpointInjective` | bot.py:48-51 | Two different ids never produce the same request. |
| `Provider.FetchInfo` | bot.py:52-69 | A failed request yields a dictionary whose only key is "Error". A successful one yields the decoded body unchanged. |
| `Provider.Fetch` | bot.py:45-69 | A fetch whose one request failed returns a dictionary containing "Error". A fetch whose request succeeded returns the decoded body unchanged. |
| `Normalization.Normalize` | bot.py:91-128 | Each displayed field is the value of the first key present in that field's source list (OMDb key first, then the TMDb key for the kind), or the field's placeholder. |
| `Normalization.FirstPresent` | bot.py:91-94 | The result is the default when no key is present. Otherwise it is the value of the earliest present key. |
| `Normalization.OmdbKeyWins` | bot.py:91-94 | When an OMDb key (`Title`, `Plot`, `Released`, `imdbRating`) is present, its value is shown, whatever the TMDb keys hold. |
| `Normalization.TmdbKeyFallback` | bot.py:91-128 | When an OMDb key is absent, the TMDb key is used. For a film these are `original_title` and `release_date`; for a series, `name` and `first_air_date`. Plot and rating fall back to `overview` and `vote_average` for both. |
| `Normalization.EmptyResponsePlaceholders` | bot.py:91-94 | An empty response normalises to "Unknown Title", "No plot available.", "N/A", "N/A". |
| `Normalization.NormalizeReadsOnlySources` | bot.py:91-128 | Two responses that agree on the table's keys normalise alike. A film therefore ignores the series keys, and a series ignores the film keys. |
| `Normalization.KindsDifferOnlyInTitleAndDate` | bot.py:91-128 | Plot and rating are read the same way for both kinds. Title and date are the same for both kinds whenever the OMDb key is present. |
| `Links.MovieUrls` | bot.py:84-88 | There are exactly three pairwise distinct film links. Link k is the k-th template prefix (vidsrc.to, vidsrc.xyz, 2embed.cc) followed by the id and nothing else. |
| `Links.EpisodeUrls` | bot.py:118-122 | There are exactly three pairwise distinct series links. Link k is the k-th template prefix, the id, the template's first separator ("/", "/", "&s="), the season, its second separator ("/", "-", "&e=") and the episode, verbatim and nothing else. |
| `Links.EmbedUrls` | bot.py:84-122 | Each handler gets its own three links: a film's depend only on the id, and a series' embed id, season and episode in the shapes above. |
| `Links.Buttons` | bot.py:97-100 | There is one button per URL, and the buttons keep the URLs' order. |
| `Links.ThreeServerButtons` | bot.py:131-134 | The three buttons of a reply are labelled "Server 1", "Server 2" and "Server 3", in template order. |
| `Links.ButtonLabelsDistinct` | bot.py:97-100 | No two buttons share a label. |
| `Links.MovieLinksDetermineId` | bot.py:84-88 | Any one film link determines the id. |
| `Links.EpisodeLinkDeterminesEpisode` | bot.py:118-122 | Each of the three series links embeds id, season and episode verbatim. It determines all three when the link's separators do not occur in the id and the season. |
| `Links.EpisodeLinkAmbiguousWithSlash` | bot.py:118-122 | Season and episode are not escaped, so ids and seasons that contain '/' can produce the same link. |
| `Router.StartCommand` | bot.py:18-29 | `/start` makes no lookup. It replies with the menu, whose choices send exactly the callback data "movies" and "series", and every choice is one `handle_query` answers. |
| `Router.HandleQuery` | bot.py:31-43 | "movies" and "series" each map to their own instruction text. Any other data edits nothing. |
| `Router.MovieCommand` | bot.py:71-103 | With no argument: no request, reply "Please provide a movie ID.". Otherwise exactly one request, for `args[0]`. If the fetched dictionary contains "Error", the reply is exactly "Movie not found. Please check the ID.". Otherwise it is the normalised details with the film's three link buttons. |
| `Router.SeriesCommand` | bot.py:105-137 | With fewer than three arguments: no request, reply "Please provide a series ID, season, and episode.". Otherwise exactly one request, for `args[0]`. If the fetched dictionary contains "Error", the reply is exactly "Series not found. Please check the ID.". Otherwise it is the details with links for (`args[0]`, `args[1]`, `args[2]`). |
| `Router.Handle` | bot.py:142-145 | The three command handlers (`start`, `movie`, `series`): any command makes at most one request, `/start` makes none, and a details reply always has three buttons. The callback handler registered at line 143 is `Router.HandleQuery`, which takes callback data rather than a command. |
| `Router.MovieIgnoresExtraArgs` | bot.py:73-77 | `/movie` with extra arguments behaves exactly like `/movie` with only the first. |
| `Router.SeriesIgnoresExtraArgs` | bot.py:107-111 | `/series` with more than three arguments behaves exactly like `/series` with only the first three. |
| `Router.FailedRequestIsNotFound` | bot.py:54-82 | For either command, a request that raised yields exactly that command's not-found message, with no links. |
| `Router.ErrorBodyIsNotFound` | bot.py:80-116 | For either command, a response body that carries its own "Error" key yields exactly that command's not-found message, just like a failed request. |
| `Router.DetailsCarryThreeServers` | bot.py:97-100 | Every successful reply has exactly three buttons labelled "Server 1" to "Server 3". |
| `Router.ShawshankExample` | bot.py:71-103 | `/movie tt0111161` with an OMDb answer sends one request to OMDb, shows OMDb's title and links to the three film URLs for that id. |
| `Router.GameOfThronesExample` | bot.py:105-137 | `/series 1399 1 1` with a TMDb answer sends one request to `/3/tv/1399`, shows the TMDb fields and links to `/tv/1399/1/1`, `/tv/1399/1-1` and `1399&s=1&e=1`. |

## Left out

- The Telegram transport is not modelled: `Application`, handler registration, `run_polling`, `reply_text`, `edit_message_text`, `query.answer()` and `InlineKeyboardMarkup`. A reply is a value; the button layout is reduced to caption and URL (or callback data) pairs.
- `requests.get`, `raise_for_status` and `response.json()` are network I/O. Their outcome is the `respond` parameter. A body that is valid JSON but not an object is not modelled, and neither are HTTP timeouts.
- The environment reads of the bot token and the two API keys are not modelled. The keys are a `Keys` parameter; an unset variable would appear in the URL as the text "None".
- Logging of fetch errors is not modelled.
- async/await scheduling is not modelled, since no step depends on it.
- Markdown and emoji rendering of the details text is not modelled; the model keeps the four normalised fields instead. The same goes for the emoji in the menu captions.
- Numeric formatting of TMDb's `vote_average` is not modelled. JSON numbers keep their literal text and are never computed with.

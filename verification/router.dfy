/** The Telegram handlers of the bot as pure functions: `/start`, the menu
    callback, `/movie` and `/series`. A handler's effect is the list of
    metadata requests it made and the one reply it sent. */
module Router {
  import opened Media
  import opened Provider
  import opened Normalization
  import opened Links

  /** A reply: plain text, the start menu, or the details of a title with its
      link buttons. Markdown and emoji are presentation and are not modelled. */
  datatype Reply =
    | Text(message: string)
    | Menu(greeting: string, choices: seq<Choice>)
    | Details(info: Metadata, buttons: seq<Button>)

  /** A start-menu button: its caption and the callback data it sends. */
  datatype Choice = Choice(caption: string, data: string)

  /** What handling one update did. */
  datatype Handled = Handled(requests: seq<Request>, reply: Reply)

  datatype Option<T> = None | Some(value: T)

  /** The registered commands. */
  datatype Command = Start | MovieCmd | SeriesCmd

  const Welcome := "Welcome to Sheikh Talal Zaki's Media Bot!\nChoose an option:"
  const MovieInstructions := "Send the TMDb ID of the movie using the command: \n/movie <ID>"
  const SeriesInstructions :=
    "Send the TMDb ID, season, and episode of the series using the command: \n/series <ID> <Season> <Episode>"
  const NoMovieId := "Please provide a movie ID."
  const NoSeriesArgs := "Please provide a series ID, season, and episode."
  const MovieNotFound := "Movie not found. Please check the ID."
  const SeriesNotFound := "Series not found. Please check the ID."

  /** The two choices of the start menu (emoji left out of the captions). */
  const MenuChoices := [Choice("Movies", "movies"), Choice("Series", "series")]

  /** `start`: the menu, no lookup. */
  function StartCommand(): (h: Handled)
    ensures h.requests == [] && h.reply.Menu?
    ensures (set c | c in h.reply.choices :: c.data) == {"movies", "series"}
    ensures forall c :: c in h.reply.choices ==> HandleQuery(c.data).Some?
  {
    var h := Handled([], Menu(Welcome, MenuChoices));
    assert MenuChoices[0].data == "movies" && MenuChoices[1].data == "series";
    h
  }

  /** `handle_query`: the text the menu message is replaced with, or `None`
      when the callback data is neither choice and nothing is edited. */
  function HandleQuery(data: string): (r: Option<string>)
    ensures r.Some? <==> data == "movies" || data == "series"
    ensures r == Some(MovieInstructions) <==> data == "movies"
    ensures r == Some(SeriesInstructions) <==> data == "series"
  {
    if data == "movies" then Some(MovieInstructions)
    else if data == "series" then Some(SeriesInstructions)
    else None
  }

  /** `movie_command`: needs at least one argument, looks up the first and
      ignores the rest; a response carrying `Error` is reported as not found. */
  function MovieCommand(args: seq<string>, keys: Keys, respond: Request -> FetchOutcome): (h: Handled)
    ensures h.requests == [] <==> |args| == 0
    ensures |args| == 0 ==> h.reply == Text(NoMovieId)
    ensures |args| > 0 ==> h.requests == [Endpoint(Movie, args[0], keys)]
    ensures |args| > 0 && "Error" in Fetch(Movie, args[0], keys, respond) ==> h.reply == Text(MovieNotFound)
    ensures h.reply.Details? <==> |args| > 0 && "Error" !in Fetch(Movie, args[0], keys, respond)
    ensures h.reply.Details? ==>
              h.reply.info == Normalize(Movie, Fetch(Movie, args[0], keys, respond))
              && h.reply.buttons == Buttons(EmbedUrls(MovieTarget(args[0])))
  {
    if |args| < 1 then Handled([], Text(NoMovieId))
    else
      var id := args[0];
      var info := Fetch(Movie, id, keys, respond);
      var requests := [Endpoint(Movie, id, keys)];
      if "Error" in info then Handled(requests, Text(MovieNotFound))
      else Handled(requests, Details(Normalize(Movie, info), Buttons(EmbedUrls(MovieTarget(id)))))
  }

  /** `series_command`: needs at least three arguments, uses the first three
      as id, season and episode, and ignores the rest. */
  function SeriesCommand(args: seq<string>, keys: Keys, respond: Request -> FetchOutcome): (h: Handled)
    ensures h.requests == [] <==> |args| < 3
    ensures |args| < 3 ==> h.reply == Text(NoSeriesArgs)
    ensures |args| >= 3 ==> h.requests == [Endpoint(Series, args[0], keys)]
    ensures |args| >= 3 && "Error" in Fetch(Series, args[0], keys, respond) ==> h.reply == Text(SeriesNotFound)
    ensures h.reply.Details? <==> |args| >= 3 && "Error" !in Fetch(Series, args[0], keys, respond)
    ensures h.reply.Details? ==>
              h.reply.info == Normalize(Series, Fetch(Series, args[0], keys, respond))
              && h.reply.buttons == Buttons(EmbedUrls(EpisodeTarget(args[0], args[1], args[2])))
  {
    if |args| < 3 then Handled([], Text(NoSeriesArgs))
    else
      var id, season, episode := args[0], args[1], args[2];
      var info := Fetch(Series, id, keys, respond);
      var requests := [Endpoint(Series, id, keys)];
      if "Error" in info then Handled(requests, Text(SeriesNotFound))
      else Handled(requests, Details(Normalize(Series, info), Buttons(EmbedUrls(EpisodeTarget(id, season, episode)))))
  }

  /** The command handlers registered in `main`, as one dispatch. */
  function Handle(cmd: Command, args: seq<string>, keys: Keys, respond: Request -> FetchOutcome): (h: Handled)
    ensures |h.requests| <= 1
    ensures cmd == Start ==> h.requests == []
    ensures h.reply.Details? ==> |h.reply.buttons| == 3
  {
    match cmd
    case Start => StartCommand()
    case MovieCmd => MovieCommand(args, keys, respond)
    case SeriesCmd => SeriesCommand(args, keys, respond)
  }

  // ---------------------------------------------------------------------------
  // Properties of the handlers.

  /** Extra `/movie` arguments change nothing. */
  lemma MovieIgnoresExtraArgs(args: seq<string>, keys: Keys, respond: Request -> FetchOutcome)
    requires |args| >= 1
    ensures MovieCommand(args, keys, respond) == MovieCommand(args[..1], keys, respond)
  {
    assert args[..1][0] == args[0];
  }

  /** Extra `/series` arguments beyond the third change nothing. */
  lemma SeriesIgnoresExtraArgs(args: seq<string>, keys: Keys, respond: Request -> FetchOutcome)
    requires |args| >= 3
    ensures SeriesCommand(args, keys, respond) == SeriesCommand(args[..3], keys, respond)
  {
    var a := args[..3];
    assert a[0] == args[0] && a[1] == args[1] && a[2] == args[2];
  }

  /** A request that raised is always reported as not found, with no links. */
  lemma FailedRequestIsNotFound(cmd: Command, args: seq<string>, keys: Keys, respond: Request -> FetchOutcome)
    requires cmd != Start && |args| >= (if cmd == MovieCmd then 1 else 3)
    requires respond(Endpoint(if cmd == MovieCmd then Movie else Series, args[0], keys)) == RequestFailed
    ensures Handle(cmd, args, keys, respond).reply
            == Text(if cmd == MovieCmd then MovieNotFound else SeriesNotFound)
  {
  }

  /** A body with its own `Error` entry (OMDb's answer to an unknown id) is
      reported exactly like a failed request, by either command. */
  lemma ErrorBodyIsNotFound(cmd: Command, args: seq<string>, keys: Keys, respond: Request -> FetchOutcome, body: Json)
    requires cmd != Start && |args| >= (if cmd == MovieCmd then 1 else 3) && "Error" in body
    requires respond(Endpoint(if cmd == MovieCmd then Movie else Series, args[0], keys)) == Body(body)
    ensures Handle(cmd, args, keys, respond).reply
            == Text(if cmd == MovieCmd then MovieNotFound else SeriesNotFound)
  {
  }

  /** Every successful reply carries the three links of its target, labelled
      "Server 1" to "Server 3" in template order. */
  lemma DetailsCarryThreeServers(cmd: Command, args: seq<string>, keys: Keys, respond: Request -> FetchOutcome)
    ensures var r := Handle(cmd, args, keys, respond).reply;
            r.Details? ==> var b := r.buttons;
            |b| == 3 && b[0].text == "Server 1" && b[1].text == "Server 2" && b[2].text == "Server 3"
  {
    match cmd
    case Start =>
    case MovieCmd => if |args| >= 1 { ThreeServerButtons(MovieTarget(args[0])); }
    case SeriesCmd => if |args| >= 3 { ThreeServerButtons(EpisodeTarget(args[0], args[1], args[2])); }
  }

  /** `/movie tt0111161` answered by OMDb: the request goes to OMDb, the title
      shown is OMDb's and the three links embed the IMDb id. */
  lemma ShawshankExample(keys: Keys, respond: Request -> FetchOutcome)
    requires respond(Endpoint(Movie, "tt0111161", keys)) == Body(map[
      "Title" := Str("The Shawshank Redemption"), "Plot" := Str("..."),
      "Released" := Str("1994"), "imdbRating" := Str("9.3")])
    ensures var h := MovieCommand(["tt0111161"], keys, respond);
            h.requests == [Request(Omdb, OmdbBase + "tt0111161" + UrlTail(Omdb, keys))]
            && h.reply.Details? && h.reply.info.title == Str("The Shawshank Redemption")
            && h.reply.buttons == [
                 Button("Server 1", VidsrcToMovie + "tt0111161"),
                 Button("Server 2", VidsrcXyzMovie + "tt0111161"),
                 Button("Server 3", TwoEmbedMovie + "tt0111161")]
  {
    var id := "tt0111161";
    assert id[..2] == "tt";
    ThreeServerButtons(MovieTarget(id));
  }

  /** `/series 1399 1 1` answered by TMDb: the request goes to TMDb's tv
      resource, the title comes from `name` and the links embed season and episode. */
  lemma GameOfThronesExample(keys: Keys, respond: Request -> FetchOutcome)
    requires respond(Endpoint(Series, "1399", keys)) == Body(map[
      "name" := Str("Game of Thrones"), "overview" := Str("..."),
      "first_air_date" := Str("2011-04-17"), "vote_average" := Number("9.2")])
    ensures var h := SeriesCommand(["1399", "1", "1"], keys, respond);
            h.requests == [Request(Tmdb, TmdbTvBase + "1399" + UrlTail(Tmdb, keys))]
            && h.reply.Details?
            && h.reply.info == Metadata(Str("Game of Thrones"), Str("..."), Str("2011-04-17"), Number("9.2"))
            && h.reply.buttons == [
                 Button("Server 1", VidsrcToTv + "1399" + "/" + "1" + "/" + "1"),
                 Button("Server 2", VidsrcXyzTv + "1399" + "/" + "1" + "-" + "1"),
                 Button("Server 3", TwoEmbedTv + "1399" + "&s=" + "1" + "&e=" + "1")]
  {
    var id := "1399";
    assert id[0] == '1';
    ThreeServerButtons(EpisodeTarget(id, "1", "1"));
  }
}

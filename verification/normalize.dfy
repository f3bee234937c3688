/** The four fields a reply shows, read from whichever of the two response
    schemas came back: the OMDb key if present, else the TMDb key for the kind
    of content, else a fixed placeholder. */
module Normalization {
  import opened Media

  /** The normalised record a details reply is built from. */
  datatype Metadata = Metadata(title: Value, plot: Value, released: Value, rating: Value)

  /** The four displayed fields, to index the resolution table. */
  datatype Field = Title | Plot | Released | Rating

  const UnknownTitle := Str("Unknown Title")
  const NoPlot := Str("No plot available.")
  const NotAvailable := Str("N/A")

  /** Python's `d.get(key, default)`: a present key wins even when its value is null. */
  function Get(d: Json, key: string, default: Value): Value {
    if key in d then d[key] else default
  }

  /** TMDb's title key: `original_title` for films, `name` for series. */
  function TmdbTitleKey(kind: Kind): string {
    if kind == Movie then "original_title" else "name"
  }

  /** TMDb's date key: `release_date` for films, `first_air_date` for series. */
  function TmdbDateKey(kind: Kind): string {
    if kind == Movie then "release_date" else "first_air_date"
  }

  /** The nested `get` chains of the two handlers. */
  function Normalize(kind: Kind, info: Json): (r: Metadata)
    ensures forall f :: FieldOf(r, f) == FirstPresent(info, Sources(kind, f), Placeholder(f))
  {
    var r := Metadata(
      Get(info, "Title", Get(info, TmdbTitleKey(kind), UnknownTitle)),
      Get(info, "Plot", Get(info, "overview", NoPlot)),
      Get(info, "Released", Get(info, TmdbDateKey(kind), NotAvailable)),
      Get(info, "imdbRating", Get(info, "vote_average", NotAvailable)));
    FirstPresentOfPair(info, "Title", TmdbTitleKey(kind), UnknownTitle);
    FirstPresentOfPair(info, "Plot", "overview", NoPlot);
    FirstPresentOfPair(info, "Released", TmdbDateKey(kind), NotAvailable);
    FirstPresentOfPair(info, "imdbRating", "vote_average", NotAvailable);
    r
  }

  // ---------------------------------------------------------------------------
  // Reference definition: normalisation as a table of keys probed in order.

  /** The keys probed for a field, the OMDb one first. */
  function Sources(kind: Kind, f: Field): seq<string> {
    match f
    case Title => ["Title", TmdbTitleKey(kind)]
    case Plot => ["Plot", "overview"]
    case Released => ["Released", TmdbDateKey(kind)]
    case Rating => ["imdbRating", "vote_average"]
  }

  /** The value shown when no probed key is present. */
  function Placeholder(f: Field): Value {
    match f
    case Title => UnknownTitle
    case Plot => NoPlot
    case Released => NotAvailable
    case Rating => NotAvailable
  }

  function FieldOf(m: Metadata, f: Field): Value {
    match f
    case Title => m.title
    case Plot => m.plot
    case Released => m.released
    case Rating => m.rating
  }

  /** The value of the first of `keys` present in `info`, or `default`. */
  function FirstPresent(info: Json, keys: seq<string>, default: Value): (v: Value)
    ensures (forall i :: 0 <= i < |keys| ==> keys[i] !in info) ==> v == default
    ensures forall i :: 0 <= i < |keys| && keys[i] in info && (forall j :: 0 <= j < i ==> keys[j] !in info)
              ==> v == info[keys[i]]
  {
    if keys == [] then default
    else if keys[0] in info then info[keys[0]]
    else FirstPresent(info, keys[1..], default)
  }

  /** A two-deep `get` chain is the two-key table entry. */
  lemma FirstPresentOfPair(info: Json, first: string, second: string, default: Value)
    ensures Get(info, first, Get(info, second, default)) == FirstPresent(info, [first, second], default)
  {
    var keys := [first, second];
    if first !in info && second in info {
      assert keys[1] == second;
    }
  }

  // ---------------------------------------------------------------------------
  // Properties of the normalisation.

  /** The OMDb key wins over the TMDb key whenever it is present. */
  lemma OmdbKeyWins(kind: Kind, info: Json)
    ensures "Title" in info ==> Normalize(kind, info).title == info["Title"]
    ensures "Plot" in info ==> Normalize(kind, info).plot == info["Plot"]
    ensures "Released" in info ==> Normalize(kind, info).released == info["Released"]
    ensures "imdbRating" in info ==> Normalize(kind, info).rating == info["imdbRating"]
  {
    var r := Normalize(kind, info);
    assert FieldOf(r, Title) == FirstPresent(info, Sources(kind, Title), UnknownTitle);
    assert FieldOf(r, Plot) == FirstPresent(info, Sources(kind, Plot), NoPlot);
    assert FieldOf(r, Released) == FirstPresent(info, Sources(kind, Released), NotAvailable);
    assert FieldOf(r, Rating) == FirstPresent(info, Sources(kind, Rating), NotAvailable);
  }

  /** Without the OMDb key, the TMDb key of the right kind is used. */
  lemma TmdbKeyFallback(kind: Kind, info: Json)
    ensures "Title" !in info && TmdbTitleKey(kind) in info ==>
              Normalize(kind, info).title == info[TmdbTitleKey(kind)]
    ensures "Plot" !in info && "overview" in info ==> Normalize(kind, info).plot == info["overview"]
    ensures "Released" !in info && TmdbDateKey(kind) in info ==>
              Normalize(kind, info).released == info[TmdbDateKey(kind)]
    ensures "imdbRating" !in info && "vote_average" in info ==>
              Normalize(kind, info).rating == info["vote_average"]
  {
  }

  /** Normalisation is total: a response with none of the keys shows the placeholders. */
  lemma EmptyResponsePlaceholders(kind: Kind)
    ensures Normalize(kind, map[]) == Metadata(UnknownTitle, NoPlot, NotAvailable, NotAvailable)
  {
  }

  /** Each field is settled by the keys of its table entry alone: two responses
      that agree on those keys normalise alike. */
  lemma {:induction false} FirstPresentLocal(a: Json, b: Json, keys: seq<string>, default: Value)
    requires forall i :: 0 <= i < |keys| ==> (keys[i] in a <==> keys[i] in b)
    requires forall i :: 0 <= i < |keys| && keys[i] in a ==> a[keys[i]] == b[keys[i]]
    ensures FirstPresent(a, keys, default) == FirstPresent(b, keys, default)
  {
    if keys != [] && keys[0] !in a {
      FirstPresentLocal(a, b, keys[1..], default);
    }
  }

  /** Keys outside the table never change what a reply shows; in particular a
      film ignores `name`/`first_air_date` and a series `original_title`/`release_date`. */
  lemma NormalizeReadsOnlySources(kind: Kind, a: Json, b: Json)
    requires forall f, k :: k in Sources(kind, f) ==> (k in a <==> k in b)
    requires forall f, k :: k in Sources(kind, f) && k in a ==> a[k] == b[k]
    ensures Normalize(kind, a) == Normalize(kind, b)
  {
    forall f: Field
      ensures FieldOf(Normalize(kind, a), f) == FieldOf(Normalize(kind, b), f)
    {
      var keys := Sources(kind, f);
      assert forall i :: 0 <= i < |keys| ==> keys[i] in Sources(kind, f);
      FirstPresentLocal(a, b, keys, Placeholder(f));
    }
    var ra, rb := Normalize(kind, a), Normalize(kind, b);
    assert FieldOf(ra, Title) == FieldOf(rb, Title);
    assert FieldOf(ra, Plot) == FieldOf(rb, Plot);
    assert FieldOf(ra, Released) == FieldOf(rb, Released);
    assert FieldOf(ra, Rating) == FieldOf(rb, Rating);
  }

  /** The kind matters only through the TMDb title and date keys. */
  lemma KindsDifferOnlyInTitleAndDate(info: Json)
    ensures Normalize(Movie, info).plot == Normalize(Series, info).plot
    ensures Normalize(Movie, info).rating == Normalize(Series, info).rating
    ensures "Title" in info ==> Normalize(Movie, info).title == Normalize(Series, info).title
    ensures "Released" in info ==> Normalize(Movie, info).released == Normalize(Series, info).released
  {
  }
}

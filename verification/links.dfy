/** The embed links a successful reply carries: three fixed URL templates per
    kind of content, each shown as a button labelled by its position. */
module Links {
  import opened Text

  /** What the links point at: a film by id, or one episode of a series. The
      season and episode are the user's words, used verbatim. */
  datatype Target = MovieTarget(id: string) | EpisodeTarget(id: string, season: string, episode: string)

  /** An inline keyboard button with a URL. */
  datatype Button = Button(text: string, url: string)

  const VidsrcToMovie := "https://vidsrc.to/embed/movie/"
  const VidsrcXyzMovie := "https://vidsrc.xyz/embed/movie/"
  const TwoEmbedMovie := "https://www.2embed.cc/embed/"
  const VidsrcToTv := "https://vidsrc.to/embed/tv/"
  const VidsrcXyzTv := "https://vidsrc.xyz/embed/tv/"
  const TwoEmbedTv := "https://www.2embed.cc/embedtv/"

  /** The host and path in front of the id in a film's link `k`. */
  function MoviePrefix(k: nat): string
    requires k < 3
  {
    if k == 0 then VidsrcToMovie else if k == 1 then VidsrcXyzMovie else TwoEmbedMovie
  }

  /** The host and path in front of the id in a series' link `k`. */
  function EpisodePrefix(k: nat): string
    requires k < 3
  {
    if k == 0 then VidsrcToTv else if k == 1 then VidsrcXyzTv else TwoEmbedTv
  }

  /** What stands between id and season in a series' link `k`. */
  function IdSep(k: nat): (sep: string)
    requires k < 3
    ensures |sep| >= 1
  {
    if k < 2 then "/" else "&s="
  }

  /** What stands between season and episode in a series' link `k`. */
  function SeasonSep(k: nat): (sep: string)
    requires k < 3
    ensures |sep| >= 1
  {
    if k == 0 then "/" else if k == 1 then "-" else "&e="
  }

  /** The hosts of the three templates differ: positions 15 (vidsrc.to against
      vidsrc.xyz) and 8 (vidsrc against www.2embed) tell them apart. */
  lemma HostsDiffer()
    ensures VidsrcToMovie[15] != VidsrcXyzMovie[15] && VidsrcToTv[15] != VidsrcXyzTv[15]
    ensures VidsrcToMovie[8] != TwoEmbedMovie[8] && VidsrcXyzMovie[8] != TwoEmbedMovie[8]
    ensures VidsrcToTv[8] != TwoEmbedTv[8] && VidsrcXyzTv[8] != TwoEmbedTv[8]
  {
  }

  /** A film's `embed_urls`: three distinct links, each its template's prefix
      followed by the id and nothing else. */
  function MovieUrls(id: string): (r: seq<string>)
    ensures |r| == 3
    ensures r[0] != r[1] && r[1] != r[2] && r[0] != r[2]
    ensures forall k :: 0 <= k < 3 ==>
              StartsWith(r[k], MoviePrefix(k)) && EndsWith(r[k], id) && |r[k]| == |MoviePrefix(k)| + |id|
  {
    var r := [VidsrcToMovie + id, VidsrcXyzMovie + id, TwoEmbedMovie + id];
    forall k | 0 <= k < 3
      ensures StartsWith(r[k], MoviePrefix(k)) && EndsWith(r[k], id)
    {
      Joined(MoviePrefix(k), id);
    }
    HostsDiffer();
    PrefixesDiffer(r[0], r[1], VidsrcToMovie, VidsrcXyzMovie, 15);
    PrefixesDiffer(r[0], r[2], VidsrcToMovie, TwoEmbedMovie, 8);
    PrefixesDiffer(r[1], r[2], VidsrcXyzMovie, TwoEmbedMovie, 8);
    r
  }

  /** A series' `embed_urls`: three distinct links, each its template's prefix
      followed by id, season and episode with the template's separators. */
  function EpisodeUrls(id: string, s: string, e: string): (r: seq<string>)
    ensures |r| == 3
    ensures r[0] != r[1] && r[1] != r[2] && r[0] != r[2]
    ensures forall k :: 0 <= k < 3 ==>
              StartsWith(r[k], EpisodePrefix(k) + id + IdSep(k)) && EndsWith(r[k], s + SeasonSep(k) + e)
              && |r[k]| == |EpisodePrefix(k)| + |id| + |IdSep(k)| + |s| + |SeasonSep(k)| + |e|
  {
    var r := [
      VidsrcToTv + id + "/" + s + "/" + e,
      VidsrcXyzTv + id + "/" + s + "-" + e,
      TwoEmbedTv + id + "&s=" + s + "&e=" + e
    ];
    SplicedShape(EpisodePrefix(0), id, IdSep(0), s, SeasonSep(0), e);
    SplicedShape(EpisodePrefix(1), id, IdSep(1), s, SeasonSep(1), e);
    SplicedShape(EpisodePrefix(2), id, IdSep(2), s, SeasonSep(2), e);
    HostsDiffer();
    PrefixesDiffer(r[0], r[1], VidsrcToTv, VidsrcXyzTv, 15);
    PrefixesDiffer(r[0], r[2], VidsrcToTv, TwoEmbedTv, 8);
    PrefixesDiffer(r[1], r[2], VidsrcXyzTv, TwoEmbedTv, 8);
    r
  }

  /** The links of a reply, by target. */
  function EmbedUrls(t: Target): (r: seq<string>)
    ensures |r| == 3
    ensures r[0] != r[1] && r[1] != r[2] && r[0] != r[2]
    ensures t.MovieTarget? ==> forall k :: 0 <= k < 3 ==>
              StartsWith(r[k], MoviePrefix(k)) && EndsWith(r[k], t.id)
              && |r[k]| == |MoviePrefix(k)| + |t.id|
    ensures t.EpisodeTarget? ==> forall k :: 0 <= k < 3 ==>
              StartsWith(r[k], EpisodePrefix(k) + t.id + IdSep(k))
              && EndsWith(r[k], t.season + SeasonSep(k) + t.episode)
              && |r[k]| == |EpisodePrefix(k)| + |t.id| + |IdSep(k)| + |t.season| + |SeasonSep(k)| + |t.episode|
  {
    match t
    case MovieTarget(id) => MovieUrls(id)
    case EpisodeTarget(id, s, e) => EpisodeUrls(id, s, e)
  }

  /** The label of the button at 1-based position `n`: `f"Server {i + 1}"`. */
  function ServerLabel(n: nat): string {
    "Server " + NatToString(n)
  }

  /** The list comprehension over `enumerate(embed_urls)`. */
  function Buttons(urls: seq<string>): (r: seq<Button>)
    ensures |r| == |urls|
    ensures forall i :: 0 <= i < |r| ==> r[i].url == urls[i]
  {
    seq(|urls|, i requires 0 <= i < |urls| => Button(ServerLabel(i + 1), urls[i]))
  }

  /** The buttons of a reply are labelled "Server 1", "Server 2", "Server 3",
      in the order of the templates. */
  lemma ThreeServerButtons(t: Target)
    ensures |Buttons(EmbedUrls(t))| == 3
    ensures Buttons(EmbedUrls(t))[0] == Button("Server 1", EmbedUrls(t)[0])
    ensures Buttons(EmbedUrls(t))[1] == Button("Server 2", EmbedUrls(t)[1])
    ensures Buttons(EmbedUrls(t))[2] == Button("Server 3", EmbedUrls(t)[2])
  {
    assert NatToString(1) == "1" && NatToString(2) == "2" && NatToString(3) == "3";
  }

  /** No two buttons carry the same label, however many links there are. */
  lemma ButtonLabelsDistinct(urls: seq<string>, i: nat, j: nat)
    requires i < j < |urls|
    ensures Buttons(urls)[i].text != Buttons(urls)[j].text
  {
    var li, lj := ServerLabel(i + 1), ServerLabel(j + 1);
    if li == lj {
      assert NatToString(i + 1) == li[7..];
      assert NatToString(j + 1) == lj[7..];
      NatToStringInjective(i + 1, j + 1);
    }
  }

  /** A film's links are fixed prefixes followed by the id: the id can be read
      back from any of them, so different films never share a link. */
  lemma MovieLinksDetermineId(id1: string, id2: string, k: nat)
    requires k < 3
    requires EmbedUrls(MovieTarget(id1))[k] == EmbedUrls(MovieTarget(id2))[k]
    ensures id1 == id2
  {
    var u1, u2 := EmbedUrls(MovieTarget(id1))[k], EmbedUrls(MovieTarget(id2))[k];
    assert u1[|u1| - |id1|..] == id1;
    assert u2[|u2| - |id2|..] == id2;
  }

  /** Every series link spells out id, season and episode verbatim: when the
      link's separators do not occur in the id and the season, the link
      determines all three. */
  lemma EpisodeLinkDeterminesEpisode(k: nat, id1: string, s1: string, e1: string,
                                     id2: string, s2: string, e2: string)
    requires k < 3
    requires IdSep(k)[0] !in id1 && IdSep(k)[0] !in id2
    requires SeasonSep(k)[0] !in s1 && SeasonSep(k)[0] !in s2
    requires EmbedUrls(EpisodeTarget(id1, s1, e1))[k] == EmbedUrls(EpisodeTarget(id2, s2, e2))[k]
    ensures id1 == id2 && s1 == s2 && e1 == e2
  {
    var p, a, b := EpisodePrefix(k), IdSep(k), SeasonSep(k);
    var u1 := EmbedUrls(EpisodeTarget(id1, s1, e1))[k];
    var u2 := EmbedUrls(EpisodeTarget(id2, s2, e2))[k];
    assert u1 == p + id1 + a + s1 + b + e1;
    assert u2 == p + id2 + a + s2 + b + e2;
    TemplateDetermines(p, a, b, id1, s1, e1, id2, s2, e2);
  }

  /** Without that restriction the embedding is ambiguous: the season is not
      escaped, so ("1", "2/3", e) and ("1/2", "3", e) share their first link. */
  lemma EpisodeLinkAmbiguousWithSlash()
    ensures EmbedUrls(EpisodeTarget("1", "2/3", "4"))[0] == EmbedUrls(EpisodeTarget("1/2", "3", "4"))[0]
  {
    assert VidsrcToTv + "1" + "/" + "2/3" + "/" + "4" == VidsrcToTv + "1/2" + "/" + "3" + "/" + "4";
  }
}

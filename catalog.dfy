/**
 * The media-server catalog as the notification service sees it, and the
 * search `_find_media_by_id` runs over it: movie sections first, by
 * `tmdb://` guid, then show sections, by guid and then by episode key.
 * The catalog is an input value; refreshing and reloading items are not
 * part of this model.
 */
module PlexCatalog {
  import opened Wrappers
  import opened PyText
  import opened Languages
  import opened Webhook

  /** What the media server reports of a movie or an episode: summary, poster and the streams of its first part. */
  datatype Media = Media(summary: string, thumbUrl: string, streams: seq<Stream>)

  /** An episode of a show; `seasonEpisode` is the server's lower-case `s01e02` code. */
  datatype Episode = Episode(title: string, seasonEpisode: string, media: Media)

  /** A library item: a movie (no episodes) or a show (its episodes). */
  datatype Item = Item(title: string, guids: seq<string>, media: Media, episodes: seq<Episode>)

  /** A library section and every item `section.search(title="")` returns for it. */
  datatype Section = Section(kind: string, title: string, items: seq<Item>)

  /** A hit of the search: display title, the media object and the identifier of the stored entry. */
  datatype Match = Match(title: string, media: Media, id: string)

  /** The two halves of the search. */
  datatype Branch = MovieBranch | ShowBranch

  function SectionKind(b: Branch): string {
    if b == MovieBranch then "movie" else "show"
  }

  /** `f"tmdb://{tmdbId}"` */
  function GuidFor(tmdbId: Option<int>): string {
    "tmdb://" + IdText(tmdbId)
  }

  /**
   * The items of every section of the given kind, section by section and
   * in the order each section lists them: the order in which the search
   * visits them.
   */
  function Candidates(catalog: seq<Section>, kind: string): seq<Item> {
    if |catalog| == 0 then []
    else (if catalog[0].kind == kind then catalog[0].items else []) + Candidates(catalog[1..], kind)
  }

  /** The candidates are exactly the items of the sections of that kind. */
  lemma {:induction false} CandidatesAreSectionItems(catalog: seq<Section>, kind: string)
    ensures forall it :: it in Candidates(catalog, kind) <==>
      exists i :: 0 <= i < |catalog| && catalog[i].kind == kind && it in catalog[i].items
  {
    if |catalog| > 0 {
      CandidatesAreSectionItems(catalog[1..], kind);
      assert forall i :: 1 <= i < |catalog| ==> catalog[i] == catalog[1..][i - 1];
      forall it | exists i :: 1 <= i < |catalog| && catalog[i].kind == kind && it in catalog[i].items
        ensures it in Candidates(catalog[1..], kind)
      {
        var i :| 1 <= i < |catalog| && catalog[i].kind == kind && it in catalog[i].items;
        assert catalog[1..][i - 1] == catalog[i];
      }
    }
  }

  /** `f"{tmdbId}-{episode.seasonEpisode}" == key` */
  predicate EpisodeMatches(ep: Episode, tmdbText: string, key: string) {
    tmdbText + "-" + ep.seasonEpisode == key
  }

  /** The position of the first episode whose identifier equals `key`, or `|eps|` when none does. */
  function FirstEpisode(eps: seq<Episode>, tmdbText: string, key: string): (j: nat)
    ensures j <= |eps|
    ensures forall i :: 0 <= i < j ==> !EpisodeMatches(eps[i], tmdbText, key)
    ensures j < |eps| ==> EpisodeMatches(eps[j], tmdbText, key)
  {
    if |eps| == 0 then 0
    else if EpisodeMatches(eps[0], tmdbText, key) then 0
    else 1 + FirstEpisode(eps[1..], tmdbText, key)
  }

  /** The hit reported for an episode: "show - episode - S01E02", the episode's media, the episode identifier. */
  function EpisodeHit(show: Item, ep: Episode, tmdbId: Option<int>): Match {
    Match(show.title + " - " + ep.title + " - " + Upper(ep.seasonEpisode), ep.media, IdText(tmdbId) + "-" + ep.seasonEpisode)
  }

  /**
   * What visiting one item gives: `Returns(None)` to go on with the next
   * item, a hit to stop, or `Raises` when a show matches, has episodes,
   * and the payload lacks the season or episode number `int()` needs.
   */
  function Probe(b: Branch, item: Item, tmdbId: Option<int>, season: Option<int>, episode: Option<int>): Py<Option<Match>> {
    if GuidFor(tmdbId) !in item.guids then Returns(None)
    else if b == MovieBranch then Returns(Some(Match(item.title, item.media, IdText(tmdbId))))
    else if |item.episodes| == 0 then Returns(None)
    else if season.None? || episode.None? then Raises
    else
      var k := FirstEpisode(item.episodes, IdText(tmdbId), EpisodeKey(tmdbId, season.value, episode.value));
      if k < |item.episodes| then Returns(Some(EpisodeHit(item, item.episodes[k], tmdbId))) else Returns(None)
  }

  /** The outcome of visiting `items` in order until one of them decides. */
  function Scan(items: seq<Item>, b: Branch, tmdbId: Option<int>, season: Option<int>, episode: Option<int>): Py<Option<Match>> {
    if |items| == 0 then Returns(None)
    else
      var p := Probe(b, items[0], tmdbId, season, episode);
      if p != Returns(None) then p else Scan(items[1..], b, tmdbId, season, episode)
  }

  /**
   * A scan gives `Returns(None)` exactly when no item decides, and
   * otherwise what the first deciding item gives.
   */
  lemma ScanFindsFirstDecision(items: seq<Item>, b: Branch, tmdbId: Option<int>, season: Option<int>, episode: Option<int>)
    ensures var r := Scan(items, b, tmdbId, season, episode);
      (r == Returns(None) <==> forall k :: 0 <= k < |items| ==> Probe(b, items[k], tmdbId, season, episode) == Returns(None)) &&
      (r != Returns(None) ==> exists k :: 0 <= k < |items| && r == Probe(b, items[k], tmdbId, season, episode)
                                 && forall j :: 0 <= j < k ==> Probe(b, items[j], tmdbId, season, episode) == Returns(None))
  {
    ScanNoneIffNoDecision(items, b, tmdbId, season, episode);
    ScanStopsAtFirstDecision(items, b, tmdbId, season, episode);
  }

  /** A scan gives `Returns(None)` exactly when no item decides. */
  lemma {:induction false} ScanNoneIffNoDecision(items: seq<Item>, b: Branch, tmdbId: Option<int>, season: Option<int>, episode: Option<int>)
    ensures Scan(items, b, tmdbId, season, episode) == Returns(None) <==>
      forall k :: 0 <= k < |items| ==> Probe(b, items[k], tmdbId, season, episode) == Returns(None)
  {
    if |items| > 0 {
      ScanNoneIffNoDecision(items[1..], b, tmdbId, season, episode);
      assert forall k :: 1 <= k < |items| ==> items[k] == items[1..][k - 1];
    }
  }

  /** A scan that decides gives what the first deciding item gives. */
  lemma {:induction false} ScanStopsAtFirstDecision(items: seq<Item>, b: Branch, tmdbId: Option<int>, season: Option<int>, episode: Option<int>)
    ensures var r := Scan(items, b, tmdbId, season, episode);
      r != Returns(None) ==> exists k :: 0 <= k < |items| && r == Probe(b, items[k], tmdbId, season, episode)
                                 && forall j :: 0 <= j < k ==> Probe(b, items[j], tmdbId, season, episode) == Returns(None)
  {
    if |items| > 0 {
      var first := Probe(b, items[0], tmdbId, season, episode);
      var rest := Scan(items[1..], b, tmdbId, season, episode);
      if first != Returns(None) {
        assert Scan(items, b, tmdbId, season, episode) == first;
      } else if rest != Returns(None) {
        ScanStopsAtFirstDecision(items[1..], b, tmdbId, season, episode);
        var k :| 0 <= k < |items[1..]| && rest == Probe(b, items[1..][k], tmdbId, season, episode)
                 && forall j :: 0 <= j < k ==> Probe(b, items[1..][j], tmdbId, season, episode) == Returns(None);
        assert items[k + 1] == items[1..][k];
        forall j | 0 <= j < k + 1 ensures Probe(b, items[j], tmdbId, season, episode) == Returns(None) {
          if j > 0 {
            assert items[j] == items[1..][j - 1];
          }
        }
        assert Scan(items, b, tmdbId, season, episode) == Probe(b, items[k + 1], tmdbId, season, episode);
      }
    }
  }

  /** One half of the search: the sections of the branch's kind, their items in order. */
  function Search(catalog: seq<Section>, b: Branch, tmdbId: Option<int>, season: Option<int>, episode: Option<int>): Py<Option<Match>> {
    Scan(Candidates(catalog, SectionKind(b)), b, tmdbId, season, episode)
  }

  /**
   * `_find_media_by_id`: the movie half when the payload has a movie,
   * then, when it found nothing, the show half when the payload has a
   * series; `Returns(None)` is the `(None, None, None)` outcome.
   */
  function FindMedia(catalog: seq<Section>, q: Query): Py<Option<Match>> {
    var m := if q.movie.Some? then Search(catalog, MovieBranch, q.movie.value.tmdbId, q.seasonNumber, q.episodeNumber)
             else Returns(None);
    if m != Returns(None) then m
    else if q.series.Some? then Search(catalog, ShowBranch, q.series.value.tmdbId, q.seasonNumber, q.episodeNumber)
    else Returns(None)
  }

  /**
   * The body of the item loop of `_find_media_by_id`: the guid test, and
   * for a show the episode loop, which returns the first episode whose
   * identifier equals the payload's key.
   */
  method ProbeItem(b: Branch, item: Item, tmdbId: Option<int>, season: Option<int>, episode: Option<int>)
    returns (p: Py<Option<Match>>)
    ensures p == Probe(b, item, tmdbId, season, episode)
  {
    if GuidFor(tmdbId) !in item.guids {
      return Returns(None);
    }
    if b == MovieBranch {
      return Returns(Some(Match(item.title, item.media, IdText(tmdbId))));
    }
    if |item.episodes| == 0 {
      return Returns(None);
    }
    if season.None? || episode.None? {
      return Raises;
    }
    var tmdbText := IdText(tmdbId);
    var key := EpisodeKey(tmdbId, season.value, episode.value);
    var k := 0;
    while k < |item.episodes|
      invariant 0 <= k <= |item.episodes|
      invariant forall m :: 0 <= m < k ==> !EpisodeMatches(item.episodes[m], tmdbText, key)
    {
      if EpisodeMatches(item.episodes[k], tmdbText, key) {
        assert FirstEpisode(item.episodes, tmdbText, key) == k;
        return Returns(Some(EpisodeHit(item, item.episodes[k], tmdbId)));
      }
      k := k + 1;
    }
    assert FirstEpisode(item.episodes, tmdbText, key) == |item.episodes|;
    return Returns(None);
  }

  /**
   * The item loop of `_find_media_by_id` over one section's search
   * results, returning at the first item that decides.
   */
  method SearchItems(items: seq<Item>, b: Branch, tmdbId: Option<int>, season: Option<int>, episode: Option<int>)
    returns (r: Py<Option<Match>>)
    ensures r == Scan(items, b, tmdbId, season, episode)
  {
    var j := 0;
    while j < |items|
      invariant 0 <= j <= |items|
      invariant Scan(items, b, tmdbId, season, episode) == Scan(items[j..], b, tmdbId, season, episode)
    {
      assert items[j..][1..] == items[j + 1..];
      var p := ProbeItem(b, items[j], tmdbId, season, episode);
      if p != Returns(None) {
        return p;
      }
      j := j + 1;
    }
    return Returns(None);
  }

  /** Scanning two lists one after the other: the second is reached only when the first decides nothing. */
  lemma {:induction false} ScanAppend(xs: seq<Item>, ys: seq<Item>, b: Branch, tmdbId: Option<int>, season: Option<int>, episode: Option<int>)
    ensures Scan(xs + ys, b, tmdbId, season, episode) ==
      if Scan(xs, b, tmdbId, season, episode) != Returns(None) then Scan(xs, b, tmdbId, season, episode)
      else Scan(ys, b, tmdbId, season, episode)
  {
    if |xs| > 0 {
      assert (xs + ys)[0] == xs[0];
      assert (xs + ys)[1..] == xs[1..] + ys;
      ScanAppend(xs[1..], ys, b, tmdbId, season, episode);
    } else {
      assert xs + ys == ys;
    }
  }

  /**
   * The section loop of `_find_media_by_id` for one branch: every section
   * of the branch's kind is searched in turn, returning at the first hit.
   */
  method SearchSections(catalog: seq<Section>, b: Branch, tmdbId: Option<int>, season: Option<int>, episode: Option<int>)
    returns (r: Py<Option<Match>>)
    ensures r == Search(catalog, b, tmdbId, season, episode)
  {
    var kind := SectionKind(b);
    var i := 0;
    while i < |catalog|
      invariant 0 <= i <= |catalog|
      invariant Search(catalog, b, tmdbId, season, episode) == Scan(Candidates(catalog[i..], kind), b, tmdbId, season, episode)
    {
      var section := catalog[i];
      assert catalog[i..][1..] == catalog[i + 1..];
      if section.kind == kind {
        ScanAppend(section.items, Candidates(catalog[i + 1..], kind), b, tmdbId, season, episode);
        r := SearchItems(section.items, b, tmdbId, season, episode);
        if r != Returns(None) {
          return r;
        }
      } else {
        assert Candidates(catalog[i..], kind) == Candidates(catalog[i + 1..], kind);
      }
      i := i + 1;
    }
    return Returns(None);
  }

  // ---------------------------------------------------------------------
  // What the search promises
  // ---------------------------------------------------------------------

  /** The movie half never raises: it only compares guids. */
  lemma {:induction false} MovieSearchNeverRaises(items: seq<Item>, tmdbId: Option<int>, season: Option<int>, episode: Option<int>)
    ensures Scan(items, MovieBranch, tmdbId, season, episode).Returns?
  {
    if |items| > 0 {
      MovieSearchNeverRaises(items[1..], tmdbId, season, episode);
    }
  }

  /**
   * A movie whose guids hold `tmdb://{id}` is found before anything in
   * the show sections is looked at: the hit is the first such movie, in
   * section order, whatever the series part of the payload says.
   */
  lemma MovieBeforeSeries(catalog: seq<Section>, q: Query, k: nat)
    requires q.movie.Some?
    requires k < |Candidates(catalog, "movie")|
    requires GuidFor(q.movie.value.tmdbId) in Candidates(catalog, "movie")[k].guids
    ensures var movies := Candidates(catalog, "movie");
      var r := FindMedia(catalog, q);
      r.Returns? && r.value.Some? && r.value.value.id == IdText(q.movie.value.tmdbId) &&
      exists n :: 0 <= n <= k && r.value.value.title == movies[n].title && r.value.value.media == movies[n].media
        && GuidFor(q.movie.value.tmdbId) in movies[n].guids
        && forall j :: 0 <= j < n ==> GuidFor(q.movie.value.tmdbId) !in movies[j].guids
  {
    var movies := Candidates(catalog, "movie");
    var id := q.movie.value.tmdbId;
    assert Probe(MovieBranch, movies[k], id, q.seasonNumber, q.episodeNumber) != Returns(None);
    var r := Scan(movies, MovieBranch, id, q.seasonNumber, q.episodeNumber);
    ScanFindsFirstDecision(movies, MovieBranch, id, q.seasonNumber, q.episodeNumber);
    var n :| 0 <= n < |movies| && r == Probe(MovieBranch, movies[n], id, q.seasonNumber, q.episodeNumber)
             && forall j :: 0 <= j < n ==> Probe(MovieBranch, movies[j], id, q.seasonNumber, q.episodeNumber) == Returns(None);
    assert GuidFor(id) in movies[n].guids;
    assert n <= k;
  }

  /**
   * Nothing is found exactly when no movie carries the movie's guid (or
   * there is no movie) and no show gives a hit or raises (or there is no
   * series).
   */
  lemma NotFound(catalog: seq<Section>, q: Query)
    ensures FindMedia(catalog, q) == Returns(None) <==>
      (q.movie.None? || forall it :: it in Candidates(catalog, "movie") ==> GuidFor(q.movie.value.tmdbId) !in it.guids) &&
      (q.series.None? || forall it :: it in Candidates(catalog, "show") ==>
         Probe(ShowBranch, it, q.series.value.tmdbId, q.seasonNumber, q.episodeNumber) == Returns(None))
  {
    var movies := Candidates(catalog, "movie");
    if q.movie.Some? {
      var id := q.movie.value.tmdbId;
      MovieSearchNeverRaises(movies, id, q.seasonNumber, q.episodeNumber);
      ScanFindsFirstDecision(movies, MovieBranch, id, q.seasonNumber, q.episodeNumber);
      assert (forall it :: it in movies ==> GuidFor(id) !in it.guids) <==>
             (forall k :: 0 <= k < |movies| ==> Probe(MovieBranch, movies[k], id, q.seasonNumber, q.episodeNumber) == Returns(None));
    }
    if q.series.Some? {
      var shows := Candidates(catalog, "show");
      var id := q.series.value.tmdbId;
      ScanFindsFirstDecision(shows, ShowBranch, id, q.seasonNumber, q.episodeNumber);
      assert (forall it :: it in shows ==> Probe(ShowBranch, it, id, q.seasonNumber, q.episodeNumber) == Returns(None)) <==>
             (forall k :: 0 <= k < |shows| ==> Probe(ShowBranch, shows[k], id, q.seasonNumber, q.episodeNumber) == Returns(None));
    }
  }

  /**
   * A hit from the show half is an episode of a show carrying the series'
   * guid, and its identifier is exactly the lower-case key
   * `"{id}-s{season:02d}e{episode:02d}"` built from the payload.
   */
  lemma EpisodeHitIsKey(catalog: seq<Section>, q: Query)
    requires q.movie.None? || Search(catalog, MovieBranch, q.movie.value.tmdbId, q.seasonNumber, q.episodeNumber) == Returns(None)
    requires FindMedia(catalog, q).Returns? && FindMedia(catalog, q).value.Some?
    ensures q.series.Some? && q.seasonNumber.Some? && q.episodeNumber.Some?
    ensures var id := q.series.value.tmdbId;
      var m := FindMedia(catalog, q).value.value;
      m.id == EpisodeKey(id, q.seasonNumber.value, q.episodeNumber.value) &&
      exists show, ep :: show in Candidates(catalog, "show") && GuidFor(id) in show.guids && ep in show.episodes
        && m == EpisodeHit(show, ep, id)
  {
    var shows := Candidates(catalog, "show");
    var id := q.series.value.tmdbId;
    var r := Scan(shows, ShowBranch, id, q.seasonNumber, q.episodeNumber);
    ScanFindsFirstDecision(shows, ShowBranch, id, q.seasonNumber, q.episodeNumber);
    var n :| 0 <= n < |shows| && r == Probe(ShowBranch, shows[n], id, q.seasonNumber, q.episodeNumber);
    var show := shows[n];
    var key := EpisodeKey(id, q.seasonNumber.value, q.episodeNumber.value);
    var k := FirstEpisode(show.episodes, IdText(id), key);
    assert show.episodes[k] in show.episodes;
  }

  /**
   * The search raises only for a series payload that lacks the season or
   * the episode number; and such a payload does raise as soon as the
   * movie half found nothing and some show carries the guid and has
   * episodes.
   */
  lemma RaisesOnlyWithoutNumbers(catalog: seq<Section>, q: Query)
    ensures FindMedia(catalog, q).Raises? ==> q.series.Some? && (q.seasonNumber.None? || q.episodeNumber.None?)
    ensures q.series.Some? && (q.seasonNumber.None? || q.episodeNumber.None?)
      && (q.movie.None? || Search(catalog, MovieBranch, q.movie.value.tmdbId, q.seasonNumber, q.episodeNumber) == Returns(None))
      && (exists it :: it in Candidates(catalog, "show") && GuidFor(q.series.value.tmdbId) in it.guids && |it.episodes| > 0)
      ==> FindMedia(catalog, q).Raises?
  {
    if q.movie.Some? {
      MovieSearchNeverRaises(Candidates(catalog, "movie"), q.movie.value.tmdbId, q.seasonNumber, q.episodeNumber);
    }
    if q.series.Some? {
      ScanFindsFirstDecision(Candidates(catalog, "show"), ShowBranch, q.series.value.tmdbId, q.seasonNumber, q.episodeNumber);
    }
    if q.series.Some? && (q.seasonNumber.None? || q.episodeNumber.None?) {
      var shows := Candidates(catalog, "show");
      var id := q.series.value.tmdbId;
      forall k | 0 <= k < |shows|
        ensures Probe(ShowBranch, shows[k], id, q.seasonNumber, q.episodeNumber) in {Returns(None), Raises}
      {
      }
      if exists it :: it in shows && GuidFor(id) in it.guids && |it.episodes| > 0 {
        var it :| it in shows && GuidFor(id) in it.guids && |it.episodes| > 0;
        var k :| 0 <= k < |shows| && shows[k] == it;
        assert Probe(ShowBranch, shows[k], id, q.seasonNumber, q.episodeNumber) == Raises;
      }
    }
  }
}

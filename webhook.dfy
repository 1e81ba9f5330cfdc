/**
 * The webhook payload a Sonarr/Radarr event delivers to the notification
 * service, the two episode-identifier formatters, and `normalize_data`,
 * which expands a dash-separated episode list into one entry per episode.
 */
module Webhook {
  import opened Wrappers
  import opened PyText

  /** `data["movie"]`, when present and non-empty. */
  datatype MovieRef = MovieRef(tmdbId: Option<int>)

  /** `data["series"]`, when present and non-empty; `episodeNumber` is the dash-separated episode text. */
  datatype SeriesRef = SeriesRef(tmdbId: Option<int>, seasonNumber: Option<int>, episodeNumber: Option<string>)

  /** `data["episode"]`, when present and non-empty. */
  datatype EpisodeRef = EpisodeRef(seasonNumber: Option<int>, episodeNumber: Option<int>)

  /** One element of `data["episodes"]`. */
  datatype EpisodeInfo = EpisodeInfo(episodeNumber: Option<int>, seasonNumber: Option<int>)

  /** The part of the payload the media search reads. */
  datatype Query = Query(movie: Option<MovieRef>, series: Option<SeriesRef>, seasonNumber: Option<int>, episodeNumber: Option<int>)

  /**
   * The payload dictionary. The keys the service only reads are constants;
   * `episodes`, `seasonNumber` and `episodeNumber` are the keys it writes.
   */
  class WebhookData {
    const kind: Option<string>
    const movie: Option<MovieRef>
    const series: Option<SeriesRef>
    const episode: Option<EpisodeRef>
    var episodes: Option<seq<EpisodeInfo>>
    var seasonNumber: Option<int>
    var episodeNumber: Option<int>

    constructor (kind: Option<string>, movie: Option<MovieRef>, series: Option<SeriesRef>, episode: Option<EpisodeRef>,
                 episodes: Option<seq<EpisodeInfo>>, seasonNumber: Option<int>, episodeNumber: Option<int>)
      ensures this.kind == kind && this.movie == movie && this.series == series && this.episode == episode
      ensures this.episodes == episodes && this.seasonNumber == seasonNumber && this.episodeNumber == episodeNumber
    {
      this.kind, this.movie, this.series, this.episode := kind, movie, series, episode;
      this.episodes, this.seasonNumber, this.episodeNumber := episodes, seasonNumber, episodeNumber;
    }

    function AsQuery(): Query
      reads this`seasonNumber, this`episodeNumber
    {
      Query(movie, series, seasonNumber, episodeNumber)
    }

    /** `data.get('episodes')` is truthy: the key holds a non-empty list. */
    predicate HasEpisodes()
      reads this`episodes
    {
      episodes.Some? && |episodes.value| > 0
    }

    /**
     * `normalize_data`: for a `season` or `episode` event, replaces
     * `episodes` with one entry per non-empty dash-separated piece of
     * `series.episodeNumber`, in order, each carrying the series' season.
     * The list is emptied before the pieces are parsed, so an event whose
     * series or episode text is missing, or whose piece is not an integer,
     * raises and leaves an empty list behind. Any other event is untouched.
     */
    method Normalize() returns (ok: bool)
      modifies this`episodes
      ensures !IsSeasonEvent(kind) ==> ok && episodes == old(episodes)
      ensures IsSeasonEvent(kind) ==> ok == (series.Some? && ExpandedEpisodes(series.value).Some?)
      ensures IsSeasonEvent(kind) && ok ==> episodes == ExpandedEpisodes(series.value)
      ensures IsSeasonEvent(kind) && !ok ==> episodes == Some([])
    {
      if kind.Some? && (kind.value == "season" || kind.value == "episode") {
        episodes := Some([]);
        if series.None? || series.value.episodeNumber.None? {
          return false;
        }
        var numbers := EpisodeNumbers(series.value.episodeNumber.value);
        if numbers.None? {
          return false;
        }
        var ns := numbers.value;
        ghost var expected := seq(|ns|, k requires 0 <= k < |ns| => EpisodeInfo(Some(ns[k]), series.value.seasonNumber));
        assert ExpandedEpisodes(series.value) == Some(expected);
        var i := 0;
        while i < |ns|
          invariant 0 <= i <= |ns|
          invariant episodes.Some? && |episodes.value| == i
          invariant forall k :: 0 <= k < i ==> episodes.value[k] == expected[k]
        {
          episodes := Some(episodes.value + [EpisodeInfo(Some(ns[i]), series.value.seasonNumber)]);
          i := i + 1;
        }
        assert episodes.value == expected;
      }
      return true;
    }
  }

  /** `data.get('type')` is `'season'` or `'episode'`. */
  predicate IsSeasonEvent(kind: Option<string>) {
    kind == Some("season") || kind == Some("episode")
  }

  /** The non-empty elements of `parts`, in order. */
  function NonEmpty(parts: seq<string>): (r: seq<string>)
    ensures forall k :: 0 <= k < |r| ==> r[k] != ""
    ensures forall x :: x in r <==> x in parts && x != ""
  {
    if |parts| == 0 then []
    else if parts[0] == "" then NonEmpty(parts[1..])
    else [parts[0]] + NonEmpty(parts[1..])
  }

  /** Parses every piece with `int()`; `None` when one of them is not an integer. */
  function ParseAll(pieces: seq<string>): (r: Option<seq<int>>)
    ensures r.Some? ==> |r.value| == |pieces|
  {
    if |pieces| == 0 then Some([])
    else
      var head := ParseInt(pieces[0]);
      var rest := ParseAll(pieces[1..]);
      if head.None? || rest.None? then None else Some([head.value] + rest.value)
  }

  /**
   * Parsing all pieces succeeds exactly when every piece is an integer,
   * and then gives the value of each piece at its position.
   */
  lemma {:induction false} ParseAllSpec(pieces: seq<string>)
    ensures ParseAll(pieces).Some? <==> forall k :: 0 <= k < |pieces| ==> ParseInt(pieces[k]).Some?
    ensures ParseAll(pieces).Some? ==> forall k :: 0 <= k < |pieces| ==> Some(ParseAll(pieces).value[k]) == ParseInt(pieces[k])
  {
    if |pieces| > 0 {
      var tail := pieces[1..];
      ParseAllSpec(tail);
      assert forall k :: 1 <= k < |pieces| ==> pieces[k] == tail[k - 1];
      if ParseInt(pieces[0]).Some? && ParseAll(tail).None? {
        var k :| 0 <= k < |tail| && ParseInt(tail[k]).None?;
        assert ParseInt(pieces[k + 1]).None?;
      }
    }
  }

  /** `[int(x) for x in text.split("-") if x]` */
  function EpisodeNumbers(text: string): Option<seq<int>> {
    ParseAll(NonEmpty(Split(text, '-')))
  }

  /** The episode list `normalize_data` builds from the series record; `None` when it raises. */
  function ExpandedEpisodes(series: SeriesRef): Option<seq<EpisodeInfo>> {
    if series.episodeNumber.None? then None
    else
      match EpisodeNumbers(series.episodeNumber.value)
      case None => None
      case Some(ns) => Some(seq(|ns|, k requires 0 <= k < |ns| => EpisodeInfo(Some(ns[k]), series.seasonNumber)))
  }

  /** `normalize_data` returns normally: the event is not a season event, or its episode text expands. */
  predicate NormalizeSucceeds(kind: Option<string>, series: Option<SeriesRef>) {
    !IsSeasonEvent(kind) || (series.Some? && ExpandedEpisodes(series.value).Some?)
  }

  /** The `episodes` key after `normalize_data` returned normally. */
  function NormalizedEpisodes(kind: Option<string>, series: Option<SeriesRef>, episodes: Option<seq<EpisodeInfo>>): Option<seq<EpisodeInfo>>
    requires NormalizeSucceeds(kind, series)
  {
    if IsSeasonEvent(kind) then ExpandedEpisodes(series.value) else episodes
  }

  /**
   * The expansion has one entry per non-empty dash-separated piece, in
   * order: entry k holds the integer value of piece k and the series'
   * season.
   */
  lemma ExpandedEpisodesSpec(series: SeriesRef)
    requires ExpandedEpisodes(series).Some?
    ensures var pieces := NonEmpty(Split(series.episodeNumber.value, '-'));
      var eps := ExpandedEpisodes(series).value;
      |eps| == |pieces| &&
      forall k :: 0 <= k < |eps| ==>
        eps[k].seasonNumber == series.seasonNumber && eps[k].episodeNumber == ParseInt(pieces[k])
  {
    ParseAllSpec(NonEmpty(Split(series.episodeNumber.value, '-')));
  }

  /** "1-3" names the episodes 1 and 3, not the range from 1 to 3. */
  lemma DashIsNotARange()
    ensures EpisodeNumbers("1-3") == Some([1, 3])
  {
    SplitOneThree();
    NonEmptyOneThree();
    ParseAllOneThree();
  }

  lemma NonEmptyOneThree()
    ensures NonEmpty(["1", "3"]) == ["1", "3"]
  {
    assert ["1", "3"][1..] == ["3"];
    assert ["3"][1..] == [];
  }

  lemma ParseAllOneThree()
    ensures ParseAll(["1", "3"]) == Some([1, 3])
  {
    ParseSmall(1);
    ParseSmall(3);
    assert [DigitChar(1)] == "1" && [DigitChar(3)] == "3";
    var last := ["3"];
    assert last[1..] == [];
    assert ParseAll(last[1..]) == Some([]);
    assert ParseAll(last) == Some([3] + []);
    assert [3] + [] == [3];
    var both := ["1", "3"];
    assert both[1..] == last;
    assert ParseAll(both) == Some([1] + [3]);
    assert [1] + [3] == [1, 3];
  }

  lemma SplitOneThree()
    ensures Split("1-3", '-') == ["1", "3"]
  {
    assert Split("3", '-') == ["3"] by { assert "3"[1..] == ""; }
    assert "-3"[1..] == "3";
    assert Split("-3", '-') == [""] + ["3"];
    assert "1-3"[1..] == "-3";
    assert ['1'] + "" == "1";
    assert ([""] + ["3"])[1..] == ["3"];
  }

  lemma ParseSmall(d: nat)
    requires d < 10
    ensures ParseInt([DigitChar(d)]) == Some(d)
  {
    assert Decimal(d) == [DigitChar(d)];
    DecimalRoundTrip(d);
  }

  // ---------------------------------------------------------------------
  // Episode identifiers
  // ---------------------------------------------------------------------

  /** What `get_episode_unique_imdb_id` returns: the composed text, or the bare id (possibly `None`). */
  datatype UniqueId = Composed(text: string) | Bare(id: Option<int>)

  /** Python truthiness of the optional integer id. */
  predicate Truthy(id: Option<int>) {
    id.Some? && id.value != 0
  }

  /**
   * `get_episode_unique_imdb_id`: `"{id}-S{season:02d}E{episode:02d}"`
   * (upper-case S and E) when the series id is truthy and the event's
   * season and episode are both present, the bare id otherwise.
   */
  function UniqueEpisodeId(series: Option<SeriesRef>, episode: Option<EpisodeRef>): (r: UniqueId)
    ensures r.Composed? <==> series.Some? && Truthy(series.value.tmdbId) && episode.Some?
                             && episode.value.seasonNumber.Some? && episode.value.episodeNumber.Some?
    ensures r.Bare? ==> r.id == (if series.Some? then series.value.tmdbId else None)
    ensures r.Composed? ==>
      r.text == Decimal(series.value.tmdbId.value) + "-S" + Pad2(episode.value.seasonNumber.value)
                + "E" + Pad2(episode.value.episodeNumber.value)
  {
    var id := if series.Some? then series.value.tmdbId else None;
    var season := if episode.Some? then episode.value.seasonNumber else None;
    var number := if episode.Some? then episode.value.episodeNumber else None;
    if Truthy(id) && season.Some? && number.Some? then
      Composed(ComposedText(id.value, season.value, number.value))
    else Bare(id)
  }

  /** The key the media search compares episodes against: `"{id}-s{season:02d}e{episode:02d}"`, lower case. */
  function EpisodeKey(tmdbId: Option<int>, season: int, episode: int): string {
    IdText(tmdbId) + "-s" + Pad2(season) + "e" + Pad2(episode)
  }

  /** Two texts that both read `prefix + [c] + rest`, with no `c` in either prefix, split the same way. */
  lemma SplitAt(a: string, b: string, a': string, b': string, c: char)
    requires c !in a && c !in a'
    requires a + [c] + b == a' + [c] + b'
    ensures a == a' && b == b'
  {
    var s := a + [c] + b;
    SeparatorPosition(a, b, c);
    SeparatorPosition(a', b', c);
    assert a == s[..|a|] == a';
    assert b == s[|a| + 1..] == b';
  }

  /** The position of the first `c` in `s`, or `|s|` when there is none. */
  function PositionOf(s: string, c: char): nat {
    if |s| == 0 || s[0] == c then 0 else 1 + PositionOf(s[1..], c)
  }

  lemma {:induction false} SeparatorPosition(a: string, b: string, c: char)
    requires c !in a
    ensures PositionOf(a + [c] + b, c) == |a|
  {
    if |a| > 0 {
      assert (a + [c] + b)[1..] == a[1..] + [c] + b;
      SeparatorPosition(a[1..], b, c);
    }
  }

  /** The composed identifier with the first separator split off. */
  function ComposedText(id: int, s: int, e: int): string {
    Decimal(id) + "-S" + Pad2(s) + "E" + Pad2(e)
  }

  lemma ComposedShape(id: int, s: int, e: int)
    ensures ComposedText(id, s, e) == Decimal(id) + ['-'] + (['S'] + (Pad2(s) + ['E'] + Pad2(e)))
  {
  }

  /**
   * The composed identifier determines its parts: two events with
   * positive ids and non-negative season and episode numbers get the same
   * identifier only when id, season and episode all agree.
   */
  lemma UniqueEpisodeIdInjective(id: int, s: int, e: int, id': int, s': int, e': int)
    requires id > 0 && id' > 0 && s >= 0 && e >= 0 && s' >= 0 && e' >= 0
    requires ComposedText(id, s, e) == ComposedText(id', s', e')
    ensures id == id' && s == s' && e == e'
  {
    NoSignOrLetter(id);
    NoSignOrLetter(id');
    PadDigitsOnly(s);
    PadDigitsOnly(s');
    ComposedShape(id, s, e);
    ComposedShape(id', s', e');
    var t := ['S'] + (Pad2(s) + ['E'] + Pad2(e));
    var t' := ['S'] + (Pad2(s') + ['E'] + Pad2(e'));
    SplitAt(Decimal(id), t, Decimal(id'), t', '-');
    assert t[1..] == Pad2(s) + ['E'] + Pad2(e);
    assert t'[1..] == Pad2(s') + ['E'] + Pad2(e');
    SplitAt(Pad2(s), Pad2(e), Pad2(s'), Pad2(e'), 'E');
    DecimalRoundTrip(id);
    DecimalRoundTrip(id');
    Pad2RoundTrip(s);
    Pad2RoundTrip(s');
    Pad2RoundTrip(e);
    Pad2RoundTrip(e');
  }

  /**
   * Two events that both get a composed identifier, with positive series
   * ids and non-negative numbers, get the same one only when their series
   * id, season and episode all agree.
   */
  lemma UniqueEpisodeIdDistinguishes(series: Option<SeriesRef>, episode: Option<EpisodeRef>,
                                     series': Option<SeriesRef>, episode': Option<EpisodeRef>)
    requires UniqueEpisodeId(series, episode).Composed? && UniqueEpisodeId(series', episode').Composed?
    requires series.value.tmdbId.value > 0 && series'.value.tmdbId.value > 0
    requires episode.value.seasonNumber.value >= 0 && episode.value.episodeNumber.value >= 0
    requires episode'.value.seasonNumber.value >= 0 && episode'.value.episodeNumber.value >= 0
    requires UniqueEpisodeId(series, episode) == UniqueEpisodeId(series', episode')
    ensures series.value.tmdbId == series'.value.tmdbId
    ensures episode.value.seasonNumber == episode'.value.seasonNumber
    ensures episode.value.episodeNumber == episode'.value.episodeNumber
  {
    UniqueEpisodeIdInjective(series.value.tmdbId.value, episode.value.seasonNumber.value, episode.value.episodeNumber.value,
                             series'.value.tmdbId.value, episode'.value.seasonNumber.value, episode'.value.episodeNumber.value);
  }

  lemma NoSignOrLetter(n: int)
    requires n >= 0
    ensures '-' !in Decimal(n) && 'E' !in Decimal(n)
  {
    DigitsValueOfNatDigits(n);
  }

  lemma PadDigitsOnly(n: int)
    requires n >= 0
    ensures 'E' !in Pad2(n)
  {
    NoSignOrLetter(n);
  }

  /**
   * The two formatters never agree: the composed identifier spells the
   * season marker `S` where the search key spells `s`, so a composed id
   * can never be used to look up a key built by the search.
   */
  lemma UniqueIdIsNotSearchKey(id: int, s: int, e: int)
    requires id != 0
    ensures ComposedText(id, s, e) != EpisodeKey(Some(id), s, e)
  {
    var a := ComposedText(id, s, e);
    var b := EpisodeKey(Some(id), s, e);
    var n := |Decimal(id)|;
    assert a[n + 1] == 'S';
    assert b[n + 1] == 's';
  }
}

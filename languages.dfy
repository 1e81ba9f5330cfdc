/**
 * Audio-language handling of the Telegram notification service: the
 * language list read off a media item's audio streams, its
 * de-duplication, and the mapping of language names to flag emoji used
 * in the notification caption.
 */
module Languages {

  // ---------------------------------------------------------------------
  // Flags
  // ---------------------------------------------------------------------

  /** The regional-indicator symbol for an upper-case ASCII letter. */
  function RegionalIndicator(c: char): char
    requires 'A' <= c <= 'Z'
  {
    (0x1F1E6 + (c as int - 'A' as int)) as char
  }

  /** The flag emoji of a two-letter country code: two regional-indicator symbols. */
  function Flag(country: string): string
    requires |country| == 2 && 'A' <= country[0] <= 'Z' && 'A' <= country[1] <= 'Z'
  {
    [RegionalIndicator(country[0]), RegionalIndicator(country[1])]
  }

  /** The fixed table from language name to flag; English shows the flag of the USA. */
  const FlagTable: map<string, string> := map[
    "Italian" := Flag("IT"),
    "English" := Flag("US"),
    "Giapponese" := Flag("JP"),
    "Japanese" := Flag("JP"),
    "French" := Flag("FR"),
    "Spanish" := Flag("ES"),
    "German" := Flag("DE"),
    "Russian" := Flag("RU"),
    "Korean" := Flag("KR"),
    "Chinese" := Flag("CN"),
    "Hindi" := Flag("IN"),
    "Portuguese" := Flag("PT"),
    "Arabic" := Flag("SA"),
    "Turkish" := Flag("TR"),
    "Vietnamese" := Flag("VN"),
    "Polish" := Flag("PL"),
    "Dutch" := Flag("NL"),
    "Swedish" := Flag("SE"),
    "Norwegian" := Flag("NO"),
    "Finnish" := Flag("FI"),
    "Greek" := Flag("GR"),
    "Hebrew" := Flag("IL"),
    "Thai" := Flag("TH"),
    "Indonesian" := Flag("ID"),
    "Malay" := Flag("MY"),
    "Czech" := Flag("CZ"),
    "Romanian" := Flag("RO"),
    "Hungarian" := Flag("HU")
  ]

  /** `flag_mapping.get(lang, lang)`: the table's flag, or the name itself when the table has none. */
  function FlagOf(lang: string): string {
    if lang in FlagTable then FlagTable[lang] else lang
  }

  /** The caption's language row. */
  function Flags(langs: seq<string>): (flags: seq<string>)
    ensures |flags| == |langs|
  {
    seq(|langs|, i requires 0 <= i < |langs| => FlagOf(langs[i]))
  }

  /**
   * In the language row every language is replaced by its flag when the
   * table has one, and passed through unchanged otherwise, one output per
   * input, in order.
   */
  lemma FlagsSpec(langs: seq<string>)
    ensures forall i :: 0 <= i < |langs| && langs[i] in FlagTable ==> Flags(langs)[i] == FlagTable[langs[i]]
    ensures forall i :: 0 <= i < |langs| && langs[i] !in FlagTable ==> Flags(langs)[i] == langs[i]
  {
  }

  /** Flags are computed element by element, so they distribute over concatenation. */
  lemma FlagsAppend(a: seq<string>, b: seq<string>)
    ensures Flags(a + b) == Flags(a) + Flags(b)
  {
  }

  /**
   * The table is not injective: the Italian and the English caption name
   * and flag are distinct, but "Japanese" and "Giapponese" share a flag,
   * so a caption does not always tell the original list apart.
   */
  lemma FlagsNotInjective()
    ensures Flags(["Japanese"]) == Flags(["Giapponese"])
    ensures Flags(["Italian"]) != Flags(["English"])
  {
    assert Flags(["Italian"])[0] == Flag("IT");
    assert Flags(["English"])[0] == Flag("US");
    assert Flag("IT")[0] != Flag("US")[0];
  }

  // ---------------------------------------------------------------------
  // De-duplication: list(dict.fromkeys(languages))
  // ---------------------------------------------------------------------

  predicate NoDuplicates(s: seq<string>) {
    forall i, j :: 0 <= i < j < |s| ==> s[i] != s[j]
  }

  /** The position of the first occurrence of `x` in `s`, or `|s|` when `x` does not occur. */
  function FirstIndex(s: seq<string>, x: string): (k: nat)
    ensures k <= |s| && x !in s[..k]
    ensures k < |s| ==> s[k] == x
  {
    if |s| == 0 then 0
    else if s[0] == x then 0
    else
      var k := FirstIndex(s[1..], x);
      assert s[..k + 1] == [s[0]] + s[1..][..k];
      1 + k
  }

  /** `list(dict.fromkeys(s))`: the elements of `s` with every repetition after the first dropped. */
  function Dedup(s: seq<string>): (r: seq<string>)
    ensures |r| <= |s|
  {
    if |s| == 0 then []
    else
      var d := Dedup(s[..|s| - 1]);
      if s[|s| - 1] in d then d else d + [s[|s| - 1]]
  }

  /** The de-duplicated list has no duplicates and holds exactly the elements of `s`. */
  lemma {:induction false} DedupSpec(s: seq<string>)
    ensures NoDuplicates(Dedup(s))
    ensures forall x :: x in Dedup(s) <==> x in s
  {
    if |s| > 0 {
      var p := s[..|s| - 1];
      var x := s[|s| - 1];
      assert s == p + [x];
      DedupSpec(p);
    }
  }

  lemma FirstIndexUnique(s: seq<string>, x: string, k: nat)
    requires k < |s| && s[k] == x && x !in s[..k]
    ensures FirstIndex(s, x) == k
  {
  }

  /**
   * `Dedup` keeps first occurrences in their original order: of two
   * elements of the result, the earlier one first occurs earlier in `s`.
   */
  lemma {:induction false} DedupKeepsFirstOccurrenceOrder(s: seq<string>)
    ensures forall i, j :: 0 <= i < j < |Dedup(s)| ==> FirstIndex(s, Dedup(s)[i]) < FirstIndex(s, Dedup(s)[j])
  {
    if |s| > 0 {
      var n := |s| - 1;
      var p := s[..n];
      var x := s[n];
      var d := Dedup(p);
      DedupKeepsFirstOccurrenceOrder(p);
      DedupSpec(p);
      assert s == p + [x];
      forall y | y in p ensures FirstIndex(s, y) == FirstIndex(p, y) < n {
        var k := FirstIndex(p, y);
        assert s[k] == y && s[..k] == p[..k];
        FirstIndexUnique(s, y, k);
      }
      if x !in d {
        assert x !in p;
        assert s[..n] == p;
        FirstIndexUnique(s, x, n);
        var r := d + [x];
        assert Dedup(s) == r;
        assert forall y :: y in r ==> y in s;
        forall i, j | 0 <= i < j < |r| ensures FirstIndex(s, r[i]) < FirstIndex(s, r[j]) {
          assert r[i] == d[i] && r[i] in p;
          if j < |d| {
            assert r[j] == d[j] && r[j] in p;
          }
        }
      } else {
        forall i, j | 0 <= i < j < |d| ensures FirstIndex(s, d[i]) < FirstIndex(s, d[j]) {
          assert d[i] in p && d[j] in p;
        }
      }
    }
  }

  /** A list without duplicates is its own de-duplication. */
  lemma {:induction false} DedupOfDistinct(s: seq<string>)
    requires NoDuplicates(s)
    ensures Dedup(s) == s
  {
    if |s| > 0 {
      var n := |s| - 1;
      var p := s[..n];
      assert NoDuplicates(p);
      DedupOfDistinct(p);
      assert s[n] !in p;
      assert s == p + [s[n]];
    }
  }

  /** De-duplicating twice is the same as once. */
  lemma DedupIdempotent(s: seq<string>)
    ensures Dedup(Dedup(s)) == Dedup(s)
  {
    DedupSpec(s);
    DedupOfDistinct(Dedup(s));
  }

  // ---------------------------------------------------------------------
  // Audio streams
  // ---------------------------------------------------------------------

  /** An audio, video or subtitle stream of a media part, as the media server lists it. */
  datatype Stream = Stream(streamType: int, language: string)

  /** The media server's stream type code of audio tracks. */
  const AudioStream := 2

  predicate IsAudioOf(streams: seq<Stream>, lang: string) {
    exists i :: 0 <= i < |streams| && streams[i].streamType == AudioStream && streams[i].language == lang
  }

  /** `[track.language for track in streams if track.streamType == 2]` */
  function AudioTrackLanguages(streams: seq<Stream>): (langs: seq<string>)
    ensures |langs| <= |streams|
  {
    if |streams| == 0 then []
    else
      var n := |streams| - 1;
      var rest := AudioTrackLanguages(streams[..n]);
      if streams[n].streamType == AudioStream then rest + [streams[n].language] else rest
  }

  /** The list holds the language of every audio stream and nothing else. */
  lemma {:induction false} AudioTrackLanguagesSpec(streams: seq<Stream>)
    ensures forall lang :: lang in AudioTrackLanguages(streams) <==> IsAudioOf(streams, lang)
  {
    if |streams| > 0 {
      var n := |streams| - 1;
      AudioTrackLanguagesSpec(streams[..n]);
      forall lang | IsAudioOf(streams, lang)
        ensures IsAudioOf(streams[..n], lang) || (streams[n].streamType == AudioStream && streams[n].language == lang)
      {
        var i :| 0 <= i < |streams| && streams[i].streamType == AudioStream && streams[i].language == lang;
        if i < n { assert streams[..n][i] == streams[i]; }
      }
      forall lang | IsAudioOf(streams[..n], lang) ensures IsAudioOf(streams, lang) {
        var i :| 0 <= i < n && streams[..n][i].streamType == AudioStream && streams[..n][i].language == lang;
        assert streams[i] == streams[..n][i];
      }
    }
  }

  /** The language list `get_languages` reports for a media item. */
  function CurrentLanguages(streams: seq<Stream>): (langs: seq<string>)
    ensures |langs| <= |streams|
  {
    Dedup(AudioTrackLanguages(streams))
  }

  /**
   * The reported languages are those of the audio streams only, without
   * duplicates, every audio language present, and in the order in which
   * each first appears among the audio streams.
   */
  lemma CurrentLanguagesSpec(streams: seq<Stream>)
    ensures NoDuplicates(CurrentLanguages(streams))
    ensures forall lang :: lang in CurrentLanguages(streams) <==> IsAudioOf(streams, lang)
    ensures forall i, j :: 0 <= i < j < |CurrentLanguages(streams)| ==>
      FirstIndex(AudioTrackLanguages(streams), CurrentLanguages(streams)[i])
        < FirstIndex(AudioTrackLanguages(streams), CurrentLanguages(streams)[j])
  {
    DedupSpec(AudioTrackLanguages(streams));
    AudioTrackLanguagesSpec(streams);
    DedupKeepsFirstOccurrenceOrder(AudioTrackLanguages(streams));
  }

  /** Worked example: two Italian tracks and an English one report Italian then English. */
  lemma DedupExample()
    ensures Dedup(["Italian", "English", "Italian"]) == ["Italian", "English"]
  {
    var s := ["Italian", "English", "Italian"];
    assert s[..2] == ["Italian", "English"];
    assert s[..2][..1] == ["Italian"];
    assert s[..2][..1][..0] == [];
    assert "Italian" != "English";
  }
}

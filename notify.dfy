/**
 * The Telegram notification service: it looks a webhook's media up in
 * the catalog, reads the audio languages of what it found, records them
 * in the audio-track store, and decides whether the change deserves a
 * notification: a title seen for the first time, or Italian audio that
 * was not there before.
 */
module TelegramNotifications {
  import opened Wrappers
  import opened Languages
  import opened Webhook
  import opened PlexCatalog
  import opened AudioStore

  /** What `get_languages` returns when the media is found: title, media, languages and `str(id)`. */
  datatype Found = Found(title: string, media: Media, languages: seq<string>, id: string)

  /** `get_languages` as a function of the catalog and the payload. */
  function Lookup(catalog: seq<Section>, q: Query): Py<Option<Found>> {
    match FindMedia(catalog, q)
    case Raises => Raises
    case Returns(None) => Returns(None)
    case Returns(Some(m)) => Returns(Some(Found(m.title, m.media, CurrentLanguages(m.media.streams), m.id)))
  }

  /**
   * `get_languages` raises or finds nothing exactly when
   * `_find_media_by_id` does; what it finds is the media and identifier
   * of the search hit, with the audio languages of that media, each once,
   * in the order they first appear.
   */
  lemma LookupLanguages(catalog: seq<Section>, q: Query)
    ensures Lookup(catalog, q).Raises? <==> FindMedia(catalog, q).Raises?
    ensures Lookup(catalog, q) == Returns(None) <==> FindMedia(catalog, q) == Returns(None)
    ensures Lookup(catalog, q).Returns? && Lookup(catalog, q).value.Some? ==>
      var x := Lookup(catalog, q).value.value;
      var m := FindMedia(catalog, q).value.value;
      x.title == m.title && x.media == m.media && x.id == m.id
      && NoDuplicates(x.languages)
      && (forall lang :: lang in x.languages <==> IsAudioOf(x.media.streams, lang))
      && (forall i, j :: 0 <= i < j < |x.languages| ==>
            FirstIndex(AudioTrackLanguages(x.media.streams), x.languages[i]) < FirstIndex(AudioTrackLanguages(x.media.streams), x.languages[j]))
  {
    var r := FindMedia(catalog, q);
    if r.Returns? && r.value.Some? {
      CurrentLanguagesSpec(r.value.value.media.streams);
    }
  }

  /**
   * A photo message delivered to the channel: the title, the caption's
   * language row (one flag per language, in order), the summary and the
   * poster it carried.
   */
  datatype Notice = Notice(title: string, flags: seq<string>, summary: string, imageUrl: string)

  function NoticeFor(x: Found): Notice {
    Notice(x.title, Flags(x.languages), x.media.summary, x.media.thumbUrl)
  }

  /** The three branches of `send_telegram` once languages are known. */
  datatype Decision = NotifyAdded | NotifyItalian | NoRelevantChange

  /**
   * No (or an empty) previous entry means the title was just added;
   * otherwise only Italian appearing in the current list counts.
   */
  function Decide(previous: seq<string>, current: seq<string>): Decision {
    if previous == [] then NotifyAdded
    else if "Italian" in current && "Italian" !in previous then NotifyItalian
    else NoRelevantChange
  }

  function DecisionText(d: Decision): string {
    match d
    case NotifyAdded => "Notifica aggiunto inviata"
    case NotifyItalian => "Notifica italiano inviata"
    case NoRelevantChange => "Nessun cambiamento rilevante"
  }

  /** What one `send_telegram` call leaves behind: the store file, the notices delivered, the value returned. */
  datatype SendOutcome = SendOutcome(file: DbFile, notices: seq<Notice>, result: Option<string>)

  /**
   * One `send_telegram` call on a lookup that did not raise: nothing
   * happens without media or languages; a notifying decision stores the
   * current languages, whether or not the notice could be delivered.
   */
  function SendStep(f: DbFile, found: Option<Found>, deliver: bool): SendOutcome {
    if found.None? || found.value.languages == [] then SendOutcome(f, [], None)
    else
      var x := found.value;
      var d := Decide(Previous(f, x.id), x.languages);
      if d == NoRelevantChange then SendOutcome(f, [], Some(DecisionText(d)))
      else SendOutcome(Stored(f, x.id, x.languages), if deliver then [NoticeFor(x)] else [], Some(DecisionText(d)))
  }

  /** One `save_languages` call on a lookup that did not raise: the file afterwards. */
  function SaveFile(f: DbFile, found: Option<Found>): DbFile {
    if found.None? || found.value.languages == [] then f else Stored(f, found.value.id, found.value.languages)
  }

  /** What `save_languages` returns for a lookup that did not raise. */
  function SaveReply(found: Option<Found>): Option<(Option<string>, seq<string>)> {
    if found.None? || found.value.languages == [] then None else Some((Some(found.value.title), found.value.languages))
  }

  /** The three texts `send_telegram` can return are pairwise different. */
  lemma DecisionTextInjective(d: Decision, e: Decision)
    ensures DecisionText(d) == DecisionText(e) <==> d == e
  {
    if d != e {
      assert DecisionText(d)[9] != DecisionText(e)[9] || |DecisionText(d)| != |DecisionText(e)|;
    }
  }

  /**
   * What one `send_telegram` call does, stated through the stored entry
   * rather than through `Decide`: no result without media or languages;
   * "added" exactly when the stored entry is absent or empty; "Italian"
   * exactly when the entry exists and Italian is new; otherwise "no
   * relevant change". The file holds the current languages after both
   * notifying answers and is untouched otherwise; a notice goes out only
   * after a notifying answer, and only when it can be delivered.
   */
  lemma SendStepSpec(f: DbFile, found: Option<Found>, deliver: bool)
    ensures var o := SendStep(f, found, deliver);
      var active := found.Some? && found.value.languages != [];
      var previous := if found.Some? then Previous(f, found.value.id) else [];
      var notifying := o.result == Some("Notifica aggiunto inviata") || o.result == Some("Notifica italiano inviata");
      (o.result.None? <==> !active)
      && (o.result == Some("Notifica aggiunto inviata") <==> active && previous == [])
      && (o.result == Some("Notifica italiano inviata") <==>
            active && previous != [] && "Italian" in found.value.languages && "Italian" !in previous)
      && (o.result == Some("Nessun cambiamento rilevante") <==> active && !notifying)
      && (notifying ==> o.file == Stored(f, found.value.id, found.value.languages))
      && (!notifying ==> o.file == f)
      && o.notices == (if notifying && deliver then [NoticeFor(found.value)] else [])
  {
    DecisionTextInjective(NotifyAdded, NotifyItalian);
    DecisionTextInjective(NotifyAdded, NoRelevantChange);
    DecisionTextInjective(NotifyItalian, NoRelevantChange);
  }

  /**
   * The store is written whether or not the notice is delivered: delivery
   * changes only which notices go out, never the file or the answer.
   */
  lemma WriteIgnoresDelivery(f: DbFile, found: Option<Found>)
    ensures SendStep(f, found, true).file == SendStep(f, found, false).file
    ensures SendStep(f, found, true).result == SendStep(f, found, false).result
    ensures SendStep(f, found, false).notices == []
    ensures |SendStep(f, found, true).notices| <= 1
  {
  }

  /**
   * Idempotence: a second `send_telegram` that finds the same languages
   * changes nothing and sends nothing; when the first one answered, the
   * second answers "Nessun cambiamento rilevante".
   */
  lemma ResendIsQuiet(f: DbFile, found: Option<Found>, deliver: bool, deliverAgain: bool)
    ensures var first := SendStep(f, found, deliver);
      var second := SendStep(first.file, found, deliverAgain);
      second.file == first.file && second.notices == []
      && second.result == (if first.result.Some? then Some("Nessun cambiamento rilevante") else None)
  {
    var first := SendStep(f, found, deliver);
    if found.Some? && found.value.languages != [] && first.file != f {
      StoredOverwritesOneKey(f, found.value.id, found.value.languages);
    }
  }

  /**
   * Once Italian is recorded for an identifier, `send_telegram` never
   * notifies for it again: whatever the current languages, the file stays
   * and nothing is sent.
   */
  lemma ItalianIsNotifiedOnce(f: DbFile, found: Option<Found>, deliver: bool)
    requires found.Some? && "Italian" in Previous(f, found.value.id)
    ensures SendStep(f, found, deliver).file == f && SendStep(f, found, deliver).notices == []
  {
  }

  /**
   * `save_languages` followed by `send_telegram` on the same lookup: the
   * languages the first call stored leave the second with nothing to
   * announce.
   */
  lemma SaveThenSendIsQuiet(f: DbFile, found: Option<Found>, deliver: bool)
    ensures var o := SendStep(SaveFile(f, found), found, deliver);
      o.file == SaveFile(f, found) && o.notices == []
      && o.result == (if SaveReply(found).Some? then Some("Nessun cambiamento rilevante") else None)
  {
    if found.Some? && found.value.languages != [] {
      StoredOverwritesOneKey(f, found.value.id, found.value.languages);
    }
  }

  /**
   * `save_languages` stores exactly what `get_languages` found: it answers
   * with the title and languages when there are languages, and then the
   * entry of the identifier holds them while every other entry stays.
   */
  lemma SaveFileSpec(f: DbFile, found: Option<Found>)
    ensures SaveReply(found).None? ==> SaveFile(f, found) == f
    ensures SaveReply(found).Some? ==>
      SaveReply(found).value == (Some(found.value.title), found.value.languages)
      && Previous(SaveFile(f, found), found.value.id) == found.value.languages
      && forall other :: other != found.value.id ==> Previous(SaveFile(f, found), other) == Previous(f, other)
  {
    if found.Some? && found.value.languages != [] {
      StoredOverwritesOneKey(f, found.value.id, found.value.languages);
    }
  }

  // ---------------------------------------------------------------------
  // Batches: one lookup per normalized episode
  // ---------------------------------------------------------------------

  /** The payload a per-episode call sees: the episode's numbers written over the top-level ones. */
  function EpisodeQuery(q: Query, e: EpisodeInfo): Query {
    q.(seasonNumber := e.seasonNumber, episodeNumber := e.episodeNumber)
  }

  /**
   * The payloads `process_downloading` and `process_imported` hand on: one
   * per normalized episode when the list is non-empty, the payload itself
   * otherwise.
   */
  function Batch(q: Query, episodes: Option<seq<EpisodeInfo>>): (qs: seq<Query>)
    ensures episodes.Some? && |episodes.value| > 0 ==> |qs| == |episodes.value|
    ensures !(episodes.Some? && |episodes.value| > 0) ==> qs == [q]
  {
    if episodes.Some? && |episodes.value| > 0 then
      seq(|episodes.value|, k requires 0 <= k < |episodes.value| => EpisodeQuery(q, episodes.value[k]))
    else [q]
  }

  /**
   * `ls` lists the lookup outcome of every payload of `qs`, in order. The
   * quantifier fires only on a lookup term already present, so a method
   * that carries this fact does not unfold every lookup of the batch.
   */
  ghost predicate LookedUp(catalog: seq<Section>, qs: seq<Query>, ls: seq<Py<Option<Found>>>) {
    |ls| == |qs| && forall k {:trigger Lookup(catalog, qs[k])} :: 0 <= k < |qs| ==> ls[k] == Lookup(catalog, qs[k])
  }

  /** Every batch has its list of lookup outcomes, and only one. */
  lemma LookupsOf(catalog: seq<Section>, qs: seq<Query>) returns (ls: seq<Py<Option<Found>>>)
    ensures LookedUp(catalog, qs, ls)
    ensures forall other :: LookedUp(catalog, qs, other) ==> other == ls
  {
    ls := seq(|qs|, k requires 0 <= k < |qs| => Lookup(catalog, qs[k]));
    forall other | LookedUp(catalog, qs, other) ensures other == ls {
      forall k | 0 <= k < |qs| ensures other[k] == ls[k] {
        assert other[k] == Lookup(catalog, qs[k]);
      }
    }
  }

  /** The outcomes of a prefix of the batch, extended by the lookup of the next payload. */
  lemma LookedUpAppend(catalog: seq<Section>, qs: seq<Query>, ls: seq<Py<Option<Found>>>, i: nat, l: Py<Option<Found>>)
    requires i < |qs| && LookedUp(catalog, qs[..i], ls) && l == Lookup(catalog, qs[i])
    ensures LookedUp(catalog, qs[..i + 1], ls + [l])
  {
    forall k | 0 <= k <= i ensures (ls + [l])[k] == Lookup(catalog, qs[..i + 1][k]) {
      if k < i {
        assert ls[k] == Lookup(catalog, qs[..i][k]);
      }
    }
  }

  /** The outcomes of a prefix followed by those of the matching suffix are the outcomes of the whole batch. */
  lemma LookedUpConcat(catalog: seq<Section>, qs: seq<Query>, i: nat, front: seq<Py<Option<Found>>>, back: seq<Py<Option<Found>>>)
    requires i <= |qs| && LookedUp(catalog, qs[..i], front) && LookedUp(catalog, qs[i..], back)
    ensures LookedUp(catalog, qs, front + back)
  {
    forall k | 0 <= k < i ensures (front + back)[k] == Lookup(catalog, qs[k]) {
      assert qs[..i][k] == qs[k];
      assert front[k] == Lookup(catalog, qs[..i][k]);
    }
    forall k | i <= k < |qs| ensures (front + back)[k] == Lookup(catalog, qs[k]) {
      assert qs[i..][k - i] == qs[k];
      assert back[k - i] == Lookup(catalog, qs[i..][k - i]);
    }
  }

  /** The position of the first raising lookup, or `|ls|` when none raises. */
  function FirstRaising(ls: seq<Py<Option<Found>>>): (k: nat)
    ensures k <= |ls|
    ensures forall j :: 0 <= j < k ==> ls[j].Returns?
    ensures k < |ls| ==> ls[k].Raises?
  {
    FirstRaisingFrom(ls, 0)
  }

  function FirstRaisingFrom(ls: seq<Py<Option<Found>>>, i: nat): (k: nat)
    requires i <= |ls| && forall j :: 0 <= j < i ==> ls[j].Returns?
    ensures i <= k <= |ls|
    ensures forall j :: 0 <= j < k ==> ls[j].Returns?
    ensures k < |ls| ==> ls[k].Raises?
    decreases |ls| - i
  {
    if i == |ls| || ls[i].Raises? then i
    else FirstRaisingFrom(ls, i + 1)
  }

  /** Appending a returning lookup to lookups that all return keeps them all returning. */
  lemma FirstRaisingAppend(ls: seq<Py<Option<Found>>>, l: Py<Option<Found>>)
    requires FirstRaising(ls) == |ls| && l.Returns?
    ensures FirstRaising(ls + [l]) == |ls| + 1
  {
    assert forall j :: 0 <= j < |ls| ==> (ls + [l])[j] == ls[j];
  }

  /** A raise right after lookups that all return is the first raise, whatever follows it. */
  lemma FirstRaisingAfter(ls: seq<Py<Option<Found>>>, l: Py<Option<Found>>, rest: seq<Py<Option<Found>>>)
    requires FirstRaising(ls) == |ls| && l.Raises?
    ensures FirstRaising(ls + [l] + rest) == |ls|
    ensures (ls + [l] + rest)[..|ls|] == ls
  {
    var all := ls + [l] + rest;
    assert all[|ls|] == l;
    assert forall j :: 0 <= j < |ls| ==> all[j] == ls[j];
  }

  /**
   * A batch whose lookups all returned up to a raising one: the outcomes
   * of the whole batch extend those seen so far, and the raise is the
   * first one among them.
   */
  lemma StoppedAt(catalog: seq<Section>, qs: seq<Query>, got: seq<Py<Option<Found>>>, l: Py<Option<Found>>)
    returns (all: seq<Py<Option<Found>>>)
    requires |got| < |qs| && LookedUp(catalog, qs[..|got| + 1], got + [l])
    requires FirstRaising(got) == |got| && l.Raises?
    ensures LookedUp(catalog, qs, all) && FirstRaising(all) == |got| && all[..|got|] == got
  {
    var rest := LookupsOf(catalog, qs[|got| + 1..]);
    LookedUpConcat(catalog, qs, |got| + 1, got + [l], rest);
    FirstRaisingAfter(got, l, rest);
    all := got + [l] + rest;
  }

  /** The lookup result a loop step acts on; a raising lookup stops the loop before this is used. */
  function Outcome(l: Py<Option<Found>>): Option<Found> {
    if l.Returns? then l.value else None
  }

  /** The file after `save_languages` ran on every lookup of a batch, in order. */
  function SaveAll(f: DbFile, ls: seq<Py<Option<Found>>>): DbFile {
    SaveAllUpTo(f, ls, |ls|)
  }

  /** The file after `save_languages` ran on the first `n` lookups of a batch. */
  function SaveAllUpTo(f: DbFile, ls: seq<Py<Option<Found>>>, n: nat): DbFile
    requires n <= |ls|
  {
    if n == 0 then f
    else SaveFile(SaveAllUpTo(f, ls, n - 1), Outcome(ls[n - 1]))
  }

  lemma {:induction false} SaveAllUpToPrefix(f: DbFile, ls: seq<Py<Option<Found>>>, more: seq<Py<Option<Found>>>, n: nat)
    requires n <= |ls|
    ensures SaveAllUpTo(f, ls + more, n) == SaveAllUpTo(f, ls, n)
  {
    if n > 0 {
      SaveAllUpToPrefix(f, ls, more, n - 1);
      assert (ls + more)[n - 1] == ls[n - 1];
    }
  }

  /** What the `save_languages` calls of a batch return, one value per lookup. */
  function SaveReplies(ls: seq<Py<Option<Found>>>): (replies: seq<Option<(Option<string>, seq<string>)>>)
    ensures |replies| == |ls|
  {
    seq(|ls|, k requires 0 <= k < |ls| => SaveReply(Outcome(ls[k])))
  }

  /** What the `send_telegram` calls of a batch leave behind: the file, the notices, and one value per call. */
  datatype Run = Run(file: DbFile, notices: seq<Notice>, results: seq<Option<string>>)

  function SendAll(f: DbFile, ls: seq<Py<Option<Found>>>, deliver: bool): (run: Run)
    ensures |run.results| == |ls|
  {
    SendAllUpTo(f, ls, |ls|, deliver)
  }

  /** What the `send_telegram` calls on the first `n` lookups of a batch leave behind. */
  function SendAllUpTo(f: DbFile, ls: seq<Py<Option<Found>>>, n: nat, deliver: bool): (run: Run)
    requires n <= |ls|
    ensures |run.results| == n
  {
    if n == 0 then Run(f, [], [])
    else
      var before := SendAllUpTo(f, ls, n - 1, deliver);
      var o := SendStep(before.file, Outcome(ls[n - 1]), deliver);
      Run(o.file, before.notices + o.notices, before.results + [o.result])
  }

  lemma {:induction false} SendAllUpToPrefix(f: DbFile, ls: seq<Py<Option<Found>>>, more: seq<Py<Option<Found>>>, n: nat, deliver: bool)
    requires n <= |ls|
    ensures SendAllUpTo(f, ls + more, n, deliver) == SendAllUpTo(f, ls, n, deliver)
  {
    if n > 0 {
      SendAllUpToPrefix(f, ls, more, n - 1, deliver);
      assert (ls + more)[n - 1] == ls[n - 1];
    }
  }

  /** A batch extended by one lookup is the batch followed by one `send_telegram` step. */
  lemma SendAllAppend(f: DbFile, ls: seq<Py<Option<Found>>>, l: Py<Option<Found>>, deliver: bool)
    ensures var before := SendAll(f, ls, deliver);
      var o := SendStep(before.file, Outcome(l), deliver);
      SendAll(f, ls + [l], deliver) == Run(o.file, before.notices + o.notices, before.results + [o.result])
  {
    SendAllUpToPrefix(f, ls, [l], |ls|, deliver);
  }

  /**
   * One more returning lookup in a batch of `send_telegram` calls: the
   * file and the notices after that call are those of the longer batch,
   * and its value is the longer batch's last one.
   */
  lemma SendAllStep(f0: DbFile, s0: seq<Notice>, got: seq<Py<Option<Found>>>, l: Py<Option<Found>>, deliver: bool,
                    fileBefore: DbFile, sentBefore: seq<Notice>, fileAfter: DbFile, sentAfter: seq<Notice>, one: Py<Option<string>>)
    requires FirstRaising(got) == |got| && l.Returns?
    requires fileBefore == SendAll(f0, got, deliver).file && sentBefore == s0 + SendAll(f0, got, deliver).notices
    requires var o := SendStep(fileBefore, l.value, deliver);
      one == Returns(o.result) && fileAfter == o.file && sentAfter == sentBefore + o.notices
    ensures var after := SendAll(f0, got + [l], deliver);
      FirstRaising(got + [l]) == |got| + 1 && one.Returns?
      && fileAfter == after.file && sentAfter == s0 + after.notices
      && after.results == SendAll(f0, got, deliver).results + [one.value]
  {
    FirstRaisingAppend(got, l);
    SendAllAppend(f0, got, l, deliver);
    var before := SendAll(f0, got, deliver);
    var o := SendStep(before.file, l.value, deliver);
    assert sentAfter == s0 + (before.notices + o.notices);
  }

  /** A batch extended by one lookup is the batch followed by one `save_languages` step. */
  lemma SaveAllAppend(f: DbFile, ls: seq<Py<Option<Found>>>, l: Py<Option<Found>>)
    ensures SaveAll(f, ls + [l]) == SaveFile(SaveAll(f, ls), Outcome(l))
    ensures SaveReplies(ls + [l]) == SaveReplies(ls) + [SaveReply(Outcome(l))]
  {
    SaveAllUpToPrefix(f, ls, [l], |ls|);
  }

  /**
   * The service. The catalog, whether the bot is configured and whether
   * the channel takes the photo (the poster downloads and `send_photo`
   * succeeds) are fixed inputs; `sent` holds the notices delivered so far.
   */
  class NotificationService {
    const catalog: seq<Section>
    const botConfigured: bool
    const channelUp: bool
    const store: AudioTracksDb
    /** `start_kometa` returns normally: the POST is answered, and a 200 answer carries a JSON body. */
    const kometaUp: bool
    var sent: seq<Notice>

    constructor (catalog: seq<Section>, botConfigured: bool, channelUp: bool, store: AudioTracksDb, kometaUp: bool)
      ensures this.catalog == catalog && this.botConfigured == botConfigured && this.channelUp == channelUp
      ensures this.store == store && this.kometaUp == kometaUp && sent == []
    {
      this.catalog, this.botConfigured, this.channelUp, this.store, this.kometaUp := catalog, botConfigured, channelUp, store, kometaUp;
      sent := [];
    }

    /** `process_imported` calls `start_kometa` when the payload has a series or a movie. */
    predicate KometaAborts(data: WebhookData) {
      (data.series.Some? || data.movie.Some?) && !kometaUp
    }

    /** A notice reaches the channel: the bot exists and the photo goes through. */
    predicate Deliverable() {
      botConfigured && channelUp
    }

    /** `_find_media_by_id`: the movie sections first, then the show sections. */
    method FindMediaById(data: WebhookData) returns (r: Py<Option<Match>>)
      ensures r == FindMedia(catalog, data.AsQuery())
    {
      if data.movie.Some? {
        r := SearchSections(catalog, MovieBranch, data.movie.value.tmdbId, data.seasonNumber, data.episodeNumber);
        if r != Returns(None) {
          return r;
        }
      }
      if data.series.Some? {
        r := SearchSections(catalog, ShowBranch, data.series.value.tmdbId, data.seasonNumber, data.episodeNumber);
        return r;
      }
      return Returns(None);
    }

    /**
     * `send_telegram_notification`: `True` and one more delivered notice,
     * whose caption shows the flag of each language in order, when the bot
     * is configured and the photo goes through; `False` and nothing sent
     * otherwise.
     */
    method SendTelegramNotification(title: string, currentLanguages: seq<string>, summary: string, imageUrl: string)
      returns (ok: bool)
      modifies this`sent
      ensures ok == Deliverable()
      ensures sent == old(sent) + (if ok then [Notice(title, Flags(currentLanguages), summary, imageUrl)] else [])
    {
      if !botConfigured {
        return false;
      }
      if !channelUp {
        return false;
      }
      var flags := Flags(currentLanguages);
      sent := sent + [Notice(title, flags, summary, imageUrl)];
      return true;
    }

    /** `get_languages` */
    method GetLanguages(data: WebhookData) returns (r: Py<Option<Found>>)
      ensures r == Lookup(catalog, data.AsQuery())
    {
      var m := FindMediaById(data);
      if m.Raises? {
        return Raises;
      }
      if m.value.None? {
        return Returns(None);
      }
      var hit := m.value.value;
      var languages := AudioTrackLanguages(hit.media.streams);
      languages := Dedup(languages);
      return Returns(Some(Found(hit.title, hit.media, languages, hit.id)));
    }

    /** `save_languages`: look the payload up and store what was found. */
    method SaveLanguages(data: WebhookData) returns (r: Py<Option<(Option<string>, seq<string>)>>, ghost l: Py<Option<Found>>)
      modifies store
      ensures l == Lookup(catalog, data.AsQuery())
      ensures l.Raises? ==> r.Raises? && store.file == old(store.file)
      ensures l.Returns? ==> r == Returns(SaveReply(l.value)) && store.file == SaveFile(old(store.file), l.value)
    {
      var found := GetLanguages(data);
      l := found;
      if found.Raises? {
        return Raises, l;
      }
      var saved;
      if found.value.None? {
        saved := store.SaveLanguagesOnDb(None, None, None, None);
      } else {
        var x := found.value.value;
        saved := store.SaveLanguagesOnDb(Some(x.title), Some(x.media), Some(x.languages), Some(x.id));
      }
      return Returns(saved), l;
    }

    /**
     * `send_telegram`: nothing without media or languages; otherwise load
     * the store, decide, and on a notifying decision send the notice and
     * store the current languages, whatever the sending returned.
     */
    method SendTelegram(data: WebhookData) returns (r: Py<Option<string>>, ghost l: Py<Option<Found>>)
      modifies store, this`sent
      ensures l == Lookup(catalog, data.AsQuery())
      ensures l.Raises? ==> r.Raises? && store.file == old(store.file) && sent == old(sent)
      ensures l.Returns? ==>
        var o := SendStep(old(store.file), l.value, Deliverable());
        r == Returns(o.result) && store.file == o.file && sent == old(sent) + o.notices
    {
      var found := GetLanguages(data);
      l := found;
      if found.Raises? {
        return Raises, l;
      }
      if found.value.None? {
        return Returns(None), l;
      }
      var x := found.value.value;
      if x.languages == [] {
        return Returns(None), l;
      }
      ghost var f0 := store.file;
      var db := store.Load();
      var previous := if x.id in db then db[x.id] else [];
      assert previous == Previous(f0, x.id);
      if previous == [] {
        var _ := SendTelegramNotification(x.title, x.languages, x.media.summary, x.media.thumbUrl);
        var _ := store.SaveLanguagesOnDb(Some(x.title), Some(x.media), Some(x.languages), Some(x.id));
        assert store.file == Stored(f0, x.id, x.languages);
        return Returns(Some("Notifica aggiunto inviata")), l;
      } else if "Italian" in x.languages && "Italian" !in previous {
        var _ := SendTelegramNotification(x.title, x.languages, x.media.summary, x.media.thumbUrl);
        var _ := store.SaveLanguagesOnDb(Some(x.title), Some(x.media), Some(x.languages), Some(x.id));
        assert store.file == Stored(f0, x.id, x.languages);
        return Returns(Some("Notifica italiano inviata")), l;
      } else {
        return Returns(Some("Nessun cambiamento rilevante")), l;
      }
    }

    /**
     * One pass of the episode loop of `process_downloading`: write the
     * episode's numbers into the payload and call `save_languages`; the
     * lookup outcomes `got` of the earlier passes grow by this one.
     */
    method SaveEpisode(data: WebhookData, e: EpisodeInfo, ghost qs: seq<Query>, ghost got: seq<Py<Option<Found>>>, ghost f0: DbFile)
      returns (one: Py<Option<(Option<string>, seq<string>)>>, ghost l: Py<Option<Found>>)
      requires |got| < |qs| && qs[|got|] == EpisodeQuery(data.AsQuery(), e)
      requires LookedUp(catalog, qs[..|got|], got) && FirstRaising(got) == |got|
      requires store.file == SaveAll(f0, got)
      modifies data`seasonNumber, data`episodeNumber, store
      ensures data.AsQuery() == qs[|got|]
      ensures LookedUp(catalog, qs[..|got| + 1], got + [l])
      ensures l.Raises? ==> one.Raises? && store.file == old(store.file)
      ensures l.Returns? ==>
        one == Returns(SaveReply(l.value)) && store.file == SaveAll(f0, got + [l])
        && FirstRaising(got + [l]) == |got| + 1 && SaveReplies(got + [l]) == SaveReplies(got) + [one.value]
    {
      data.episodeNumber := e.episodeNumber;
      data.seasonNumber := e.seasonNumber;
      one, l := SaveLanguages(data);
      LookedUpAppend(catalog, qs, got, |got|, l);
      if l.Returns? {
        FirstRaisingAppend(got, l);
        SaveAllAppend(f0, got, l);
      }
    }

    /**
     * The episode loop of `process_downloading`: for each normalized
     * episode, write its numbers into the payload and call
     * `save_languages`; a raising lookup stops the loop. `ls` lists the
     * lookup outcomes of the whole batch.
     */
    method SaveEachEpisode(data: WebhookData) returns (r: Py<seq<Option<(Option<string>, seq<string>)>>>, ghost ls: seq<Py<Option<Found>>>)
      requires data.HasEpisodes()
      modifies data`seasonNumber, data`episodeNumber, store
      ensures var qs := Batch(old(data.AsQuery()), data.episodes);
        var k := FirstRaising(ls);
        LookedUp(catalog, qs, ls) &&
        store.file == SaveAll(old(store.file), ls[..k]) &&
        (r.Returns? <==> k == |ls|) &&
        (r.Returns? ==> r.value == SaveReplies(ls)) &&
        data.AsQuery() == qs[if k < |qs| then k else |qs| - 1]
    {
      ghost var q0 := data.AsQuery();
      ghost var f0 := store.file;
      ghost var qs := Batch(q0, data.episodes);
      var episodes := data.episodes.value;
      assert |qs| == |episodes| && qs[..0] == [];
      ghost var got := [];
      var results := [];
      var i := 0;
      while i < |episodes|
        invariant 0 <= i <= |episodes| && |got| == i
        invariant LookedUp(catalog, qs[..i], got)
        invariant FirstRaising(got) == i
        invariant store.file == SaveAll(f0, got)
        invariant results == SaveReplies(got)
        invariant data.AsQuery() == if i == 0 then q0 else qs[i - 1]
      {
        assert qs[i] == EpisodeQuery(data.AsQuery(), episodes[i]);
        var one;
        ghost var l;
        one, l := SaveEpisode(data, episodes[i], qs, got, f0);
        if one.Raises? {
          ls := StoppedAt(catalog, qs, got, l);
          r := Raises;
          break;
        }
        got := got + [l];
        results := results + [one.value];
        i := i + 1;
      }
      if i == |episodes| {
        assert qs[..i] == qs && got[..i] == got;
        r, ls := Returns(results), got;
      }
    }

    /**
     * The branch of `process_downloading` without episodes: one `save_languages` call on the
     * payload itself, a batch of one.
     */
    method SaveOnce(data: WebhookData) returns (r: Py<seq<Option<(Option<string>, seq<string>)>>>, ghost ls: seq<Py<Option<Found>>>)
      requires !data.HasEpisodes()
      modifies store
      ensures var qs := Batch(data.AsQuery(), data.episodes);
        var k := FirstRaising(ls);
        LookedUp(catalog, qs, ls) &&
        store.file == SaveAll(old(store.file), ls[..k]) &&
        (r.Returns? <==> k == |ls|) &&
        (r.Returns? ==> r.value == SaveReplies(ls))
    {
      ghost var qs := Batch(data.AsQuery(), data.episodes);
      ghost var f0 := store.file;
      var one;
      ghost var l;
      one, l := SaveLanguages(data);
      assert qs[..0] == [] && qs[..1] == qs;
      LookedUpAppend(catalog, qs, [], 0, l);
      ls := [l];
      if one.Raises? {
        assert ls[..0] == [];
        return Raises, ls;
      }
      assert ls[..1] == ls && [] + [l] == ls;
      FirstRaisingAppend([], l);
      SaveAllAppend(f0, [], l);
      r := Returns([one.value]);
    }

    /**
     * What `process_downloading` does once the payload is normalized: one `save_languages`
     * call per episode, or one on the payload itself when there are none.
     */
    method SaveBatch(data: WebhookData) returns (r: Py<seq<Option<(Option<string>, seq<string>)>>>, ghost ls: seq<Py<Option<Found>>>)
      modifies data`seasonNumber, data`episodeNumber, store
      ensures var qs := Batch(old(data.AsQuery()), data.episodes);
        var k := FirstRaising(ls);
        LookedUp(catalog, qs, ls) &&
        store.file == SaveAll(old(store.file), ls[..k]) &&
        (r.Returns? <==> k == |ls|) &&
        (r.Returns? ==> r.value == SaveReplies(ls)) &&
        data.AsQuery() == (if data.HasEpisodes() then qs[if k < |qs| then k else |qs| - 1] else old(data.AsQuery()))
    {
      if data.HasEpisodes() {
        r, ls := SaveEachEpisode(data);
      } else {
        r, ls := SaveOnce(data);
      }
    }

    /**
     * `process_downloading`: normalize the payload, then call
     * `save_languages` once per normalized episode, or once on the payload
     * itself when there are no episodes. A raise in normalizing or in a
     * lookup stops the run; the entries saved before it stay saved. `ls`
     * lists the lookup outcomes of the whole batch.
     */
    method ProcessDownloading(data: WebhookData) returns (r: Py<seq<Option<(Option<string>, seq<string>)>>>, ghost ls: seq<Py<Option<Found>>>)
      modifies data`episodes, data`seasonNumber, data`episodeNumber, store
      ensures !NormalizeSucceeds(data.kind, data.series) ==>
        r.Raises? && store.file == old(store.file) && data.episodes == Some([]) && data.AsQuery() == old(data.AsQuery())
      ensures NormalizeSucceeds(data.kind, data.series) ==>
        data.episodes == NormalizedEpisodes(data.kind, data.series, old(data.episodes)) &&
        var qs := Batch(old(data.AsQuery()), data.episodes);
        var k := FirstRaising(ls);
        LookedUp(catalog, qs, ls) &&
        store.file == SaveAll(old(store.file), ls[..k]) &&
        (r.Returns? <==> k == |ls|) &&
        (r.Returns? ==> r.value == SaveReplies(ls)) &&
        data.AsQuery() == (if data.HasEpisodes() then qs[if k < |qs| then k else |qs| - 1] else old(data.AsQuery()))
      ensures r.Returns? ==> |r.value| == (if data.HasEpisodes() then |data.episodes.value| else 1)
    {
      var ok := data.Normalize();
      if !ok {
        return Raises, [];
      }
      r, ls := SaveBatch(data);
    }

    /**
     * One pass of the episode loop of `process_imported`: write the
     * episode's numbers into the payload and call `send_telegram`; the
     * lookup outcomes `got` of the earlier passes grow by this one.
     */
    method SendEpisode(data: WebhookData, e: EpisodeInfo, ghost qs: seq<Query>, ghost got: seq<Py<Option<Found>>>, ghost f0: DbFile, ghost s0: seq<Notice>)
      returns (one: Py<Option<string>>, ghost l: Py<Option<Found>>)
      requires |got| < |qs| && qs[|got|] == EpisodeQuery(data.AsQuery(), e)
      requires LookedUp(catalog, qs[..|got|], got) && FirstRaising(got) == |got|
      requires store.file == SendAll(f0, got, Deliverable()).file && sent == s0 + SendAll(f0, got, Deliverable()).notices
      modifies data`seasonNumber, data`episodeNumber, store, this`sent
      ensures data.AsQuery() == qs[|got|]
      ensures LookedUp(catalog, qs[..|got| + 1], got + [l])
      ensures l.Raises? ==> one.Raises? && store.file == old(store.file) && sent == old(sent)
      ensures l.Returns? ==>
        var after := SendAll(f0, got + [l], Deliverable());
        FirstRaising(got + [l]) == |got| + 1 && one.Returns?
        && store.file == after.file && sent == s0 + after.notices
        && after.results == SendAll(f0, got, Deliverable()).results + [one.value]
    {
      data.episodeNumber := e.episodeNumber;
      data.seasonNumber := e.seasonNumber;
      ghost var file0, sent0 := store.file, sent;
      one, l := SendTelegram(data);
      LookedUpAppend(catalog, qs, got, |got|, l);
      if l.Returns? {
        SendAllStep(f0, s0, got, l, Deliverable(), file0, sent0, store.file, sent, one);
      }
    }

    /**
     * The episode loop of `process_imported`: one `SendEpisode` pass per
     * normalized episode; a raising lookup stops the loop. `ls` lists the
     * lookup outcomes of the whole batch.
     */
    method SendEachEpisode(data: WebhookData) returns (r: Py<seq<Option<string>>>, ghost ls: seq<Py<Option<Found>>>)
      requires data.HasEpisodes()
      modifies data`seasonNumber, data`episodeNumber, store, this`sent
      ensures var qs := Batch(old(data.AsQuery()), data.episodes);
        var k := FirstRaising(ls);
        var run := SendAll(old(store.file), ls[..k], Deliverable());
        LookedUp(catalog, qs, ls) &&
        store.file == run.file && sent == old(sent) + run.notices &&
        (r.Returns? <==> k == |ls|) &&
        (r.Returns? ==> r.value == run.results) &&
        data.AsQuery() == qs[if k < |qs| then k else |qs| - 1]
    {
      ghost var q0 := data.AsQuery();
      ghost var f0 := store.file;
      ghost var s0 := sent;
      ghost var qs := Batch(q0, data.episodes);
      var episodes := data.episodes.value;
      assert |qs| == |episodes| && qs[..0] == [];
      ghost var got := [];
      var results := [];
      var i := 0;
      while i < |episodes|
        invariant 0 <= i <= |episodes| && |got| == i
        invariant LookedUp(catalog, qs[..i], got)
        invariant FirstRaising(got) == i
        invariant store.file == SendAll(f0, got, Deliverable()).file
        invariant sent == s0 + SendAll(f0, got, Deliverable()).notices
        invariant results == SendAll(f0, got, Deliverable()).results
        invariant data.AsQuery() == if i == 0 then q0 else qs[i - 1]
      {
        assert qs[i] == EpisodeQuery(data.AsQuery(), episodes[i]);
        var one;
        ghost var l;
        one, l := SendEpisode(data, episodes[i], qs, got, f0, s0);
        if one.Raises? {
          ls := StoppedAt(catalog, qs, got, l);
          r := Raises;
          break;
        }
        got := got + [l];
        results := results + [one.value];
        i := i + 1;
      }
      if i == |episodes| {
        assert qs[..i] == qs && got[..i] == got;
        r, ls := Returns(results), got;
      }
    }

    /**
     * The branch of `process_imported` without episodes: one `send_telegram` call on the
     * payload itself, a batch of one.
     */
    method SendOnce(data: WebhookData) returns (r: Py<seq<Option<string>>>, ghost ls: seq<Py<Option<Found>>>)
      requires !data.HasEpisodes()
      modifies store, this`sent
      ensures var qs := Batch(data.AsQuery(), data.episodes);
        var k := FirstRaising(ls);
        var run := SendAll(old(store.file), ls[..k], Deliverable());
        LookedUp(catalog, qs, ls) &&
        store.file == run.file && sent == old(sent) + run.notices &&
        (r.Returns? <==> k == |ls|) &&
        (r.Returns? ==> r.value == run.results)
    {
      ghost var qs := Batch(data.AsQuery(), data.episodes);
      ghost var f0 := store.file;
      var one;
      ghost var l;
      one, l := SendTelegram(data);
      assert qs[..0] == [] && qs[..1] == qs;
      LookedUpAppend(catalog, qs, [], 0, l);
      ls := [l];
      if one.Raises? {
        assert ls[..0] == [];
        return Raises, ls;
      }
      assert ls[..1] == ls && [] + [l] == ls;
      FirstRaisingAppend([], l);
      SendAllAppend(f0, [], l, Deliverable());
      r := Returns([one.value]);
    }

    /**
     * What `process_imported` does once the payload is normalized: one `send_telegram`
     * call per episode, or one on the payload itself when there are none.
     */
    method SendBatch(data: WebhookData) returns (r: Py<seq<Option<string>>>, ghost ls: seq<Py<Option<Found>>>)
      modifies data`seasonNumber, data`episodeNumber, store, this`sent
      ensures var qs := Batch(old(data.AsQuery()), data.episodes);
        var k := FirstRaising(ls);
        var run := SendAll(old(store.file), ls[..k], Deliverable());
        LookedUp(catalog, qs, ls) &&
        store.file == run.file && sent == old(sent) + run.notices &&
        (r.Returns? <==> k == |ls|) &&
        (r.Returns? ==> r.value == run.results) &&
        data.AsQuery() == (if data.HasEpisodes() then qs[if k < |qs| then k else |qs| - 1] else old(data.AsQuery()))
    {
      if data.HasEpisodes() {
        r, ls := SendEachEpisode(data);
      } else {
        r, ls := SendOnce(data);
      }
    }

    /**
     * `process_imported`: normalize the payload, start Kometa for a series
     * or movie payload, then call `send_telegram` once per normalized
     * episode, or once on the payload itself when there are no episodes. A
     * raise stops the run: a failing Kometa call before anything is stored
     * or sent, a raising lookup after what was stored and sent before it.
     * `ls` lists the lookup outcomes of the whole batch.
     */
    method ProcessImported(data: WebhookData) returns (r: Py<seq<Option<string>>>, ghost ls: seq<Py<Option<Found>>>)
      modifies data`episodes, data`seasonNumber, data`episodeNumber, store, this`sent
      ensures !NormalizeSucceeds(data.kind, data.series) ==>
        r.Raises? && store.file == old(store.file) && sent == old(sent)
        && data.episodes == Some([]) && data.AsQuery() == old(data.AsQuery())
      ensures NormalizeSucceeds(data.kind, data.series) && KometaAborts(data) ==>
        r.Raises? && store.file == old(store.file) && sent == old(sent)
        && data.episodes == NormalizedEpisodes(data.kind, data.series, old(data.episodes))
        && data.AsQuery() == old(data.AsQuery())
      ensures NormalizeSucceeds(data.kind, data.series) && !KometaAborts(data) ==>
        data.episodes == NormalizedEpisodes(data.kind, data.series, old(data.episodes)) &&
        var qs := Batch(old(data.AsQuery()), data.episodes);
        var k := FirstRaising(ls);
        var run := SendAll(old(store.file), ls[..k], Deliverable());
        LookedUp(catalog, qs, ls) &&
        store.file == run.file && sent == old(sent) + run.notices &&
        (r.Returns? <==> k == |ls|) &&
        (r.Returns? ==> r.value == run.results) &&
        data.AsQuery() == (if data.HasEpisodes() then qs[if k < |qs| then k else |qs| - 1] else old(data.AsQuery()))
      ensures r.Returns? ==> |r.value| == (if data.HasEpisodes() then |data.episodes.value| else 1)
    {
      var ok := data.Normalize();
      if !ok {
        return Raises, [];
      }
      if data.series.Some? || data.movie.Some? {
        if !kometaUp {
          return Raises, [];
        }
      }
      r, ls := SendBatch(data);
    }
  }
}

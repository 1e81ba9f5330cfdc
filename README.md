# plex-guard, modelled in Dafny

plex-guard sits between Sonarr/Radarr and a Plex server.

- **Downloading events.** It records the audio languages of the media an event names, in a JSON file of audio tracks.
- **Imported events.** It looks the media up again and compares the languages with the recorded ones. It posts a Telegram photo message when:
  - the title was not recorded before; or
  - Italian audio appeared since the last record.
- **Torrent cleanup.** Two cleaners remove finished torrents from qBittorrent. A finished torrent goes when it carries no real comment, or when it is older than a number of days. One cleaner is a long-lived service; the other runs behind a small Sonarr webhook.

## What the model covers

The project models the following pieces.

- **Webhook payload** (`Webhook`). The payload is a class whose written keys are fields: `episodes`, `seasonNumber` and `episodeNumber`. `normalize_data` expands a dash-separated episode list. `get_episode_unique_imdb_id` builds an episode identifier.
- **Catalog search** (`PlexCatalog`). `_find_media_by_id` runs over a catalog value: movie sections first, matched by `tmdb://` guid, then show sections, matched by guid and episode key.
- **Language list** (`Languages`). The list comes from a media item's audio streams, keeps the first occurrence of each language and keeps their order. The caption's flag row maps each language through the 28-entry flag table.
- **Audio-track store** (`AudioStore`). The JSON file is a value in a class field. Loading forgives a missing, unreadable, blank or corrupt file; saving rewrites the whole file.
- **Notification service** (`TelegramNotifications`).
  - `get_languages`, `save_languages` and `send_telegram`.
  - The per-episode loops of `process_downloading` and `process_imported`.
  - Delivered notices are a sequence the service appends to.
- **Cleanup rule** (`TorrentRules`). One rule, used by both cleaners: `complete && (no real comment || daysOld > threshold)`. Also here are both readings of the `DAYS_OLD` variable.
- **qBittorrent Web API** (`Qbittorrent`). A server object with fixed answers and a log of the requests it received. A missing answer stands for a `requests.RequestException`.
- **The two cleaners** (`TorrentCleaning`, `SonarrCleanup`). The service keeps a session and logs in again when it stops answering. The webhook script opens a fresh session per call, reports errors in its JSON answer, and lets connection errors escape.

A Python call that lets an exception escape returns `Raises` (the `Py` datatype); `None` is `Option.None`.

### Behaviours of the code worth knowing

- **Episode lists.** The episode text `"1-3"` is split on `-` and gives episodes 1 and 3, not the range 1 to 3 (`Webhook.DashIsNotARange`).
- **Empty stored lists.** The previous languages are read with `.get(id, [])`. A stored empty list therefore counts as "never notified", just like a missing key (`AudioStore.EmptyEntryReadsAsAbsent`).
- **Identifier case.** The search and the store key episodes as `{id}-s{season:02d}e{episode:02d}`, in lower case. `get_episode_unique_imdb_id` writes upper-case `S` and `E`, so its identifier never matches that key (`Webhook.UniqueIdIsNotSearchKey`).
- **Uncaught errors.** Several errors escape:
  - the webhook cleaner raises on connection errors;
  - the service cleaner raises when the torrent list cannot be fetched;
  - the search raises on a show hit without season or episode numbers;
  - `process_imported` raises when the Kometa call fails.
- **Store writes.** The store is written after a notifying decision, whether or not the notice was delivered (`TelegramNotifications.WriteIgnoresDelivery`).

## Model

Source paths below are relative to the repository root.

| member | source | states |
|---|---|---|
| Languages.FlagsSpec | plexguard/TelegramNotificationService.py:230 | every language in the flag table becomes its flag, every other one passes through unchanged, position by position |
| Languages.FlagsAppend | plexguard/TelegramNotificationService.py:230 | the flag row of two lists joined is the two flag rows joined |
| Languages.FlagsNotInjective | plexguard/TelegramNotificationService.py:19-48 | (example) "Japanese" and "Giapponese" give the same flag, while Italian and English do not |
| Languages.DedupSpec | plexguard/TelegramNotificationService.py:264 | the de-duplicated list has no repeats and holds exactly the elements of the input |
| Languages.DedupKeepsFirstOccurrenceOrder | plexguard/TelegramNotificationService.py:264 | of two kept elements, the earlier one first occurs earlier in the input |
| Languages.DedupOfDistinct | plexguard/TelegramNotificationService.py:264 | a list without repeats is left unchanged |
| Languages.DedupIdempotent | plexguard/TelegramNotificationService.py:264 | de-duplicating twice equals de-duplicating once |
| Languages.DedupExample | plexguard/TelegramNotificationService.py:264 | (example) ["Italian", "English", "Italian"] becomes ["Italian", "English"] |
| Languages.AudioTrackLanguagesSpec | plexguard/TelegramNotificationService.py:263 | the list holds a language exactly when some audio stream (type 2) has it |
| Languages.CurrentLanguagesSpec | plexguard/TelegramNotificationService.py:263-264 | reported languages: audio only, each once, all present, in order of first appearance |
| Webhook.WebhookData.Normalize | plexguard/TelegramNotificationService.py:154-163 | a non-season event is left alone; a season/episode event succeeds exactly when the series and every piece parse, sets `episodes` to the expansion, and leaves `[]` when it raises |
| Webhook.ExpandedEpisodesSpec | plexguard/TelegramNotificationService.py:157-163 | one entry per non-empty dash piece, in order, with the piece's integer value and the series' season |
| Webhook.ParseAllSpec | plexguard/TelegramNotificationService.py:157 | parsing succeeds exactly when every piece is an integer, and then gives each piece's value at its position |
| Webhook.DashIsNotARange | plexguard/TelegramNotificationService.py:157 | (example) "1-3" yields the episode numbers [1, 3], not a range |
| Webhook.UniqueEpisodeId | plexguard/TelegramNotificationService.py:51-63 | the text `{id}-S{season:02d}E{episode:02d}` exactly when the series id is truthy and the event's season and episode are present; otherwise the bare series id, possibly None |
| Webhook.UniqueEpisodeIdDistinguishes | plexguard/TelegramNotificationService.py:60-62 | two events with positive ids and non-negative numbers get the same composed identifier only when series id, season and episode agree |
| Webhook.UniqueEpisodeIdInjective | plexguard/TelegramNotificationService.py:62 | equal composed identifiers (positive id, non-negative numbers) imply equal id, season and episode |
| Webhook.UniqueIdIsNotSearchKey | plexguard/TelegramNotificationService.py:62 | the composed identifier never equals the search's lower-case key for the same numbers |
| PyText.DecimalRoundTrip | plexguard/TelegramNotificationService.py:62 | `int(str(n)) == n` for every integer |
| PyText.Pad2RoundTrip | plexguard/TelegramNotificationService.py:194 | `int()` of a `:02d` rendering gives the number back; below 100 it is two digits |
| PyText.StripSpec | plexguard/TorrentCleanerService.py:96 | `strip()` is empty exactly for all-whitespace text, and otherwise begins and ends with non-space |
| PyText.StripPadded | plexguard/TorrentCleanerService.py:96 | whitespace around a text that neither starts nor ends with a space is stripped off, giving that text back |
| PyText.Split | plexguard/TelegramNotificationService.py:157 | `split` pieces contain no separator and rejoin to the input |
| AudioStore.AudioTracksDb.Load | plexguard/TelegramNotificationService.py:66-75 | the stored map for a JSON file; the empty map for a missing, unreadable, blank or corrupt file |
| AudioStore.AudioTracksDb.Save | plexguard/TelegramNotificationService.py:78-80 | the file afterwards holds exactly the given map |
| AudioStore.AudioTracksDb.SaveLanguagesOnDb | plexguard/TelegramNotificationService.py:83-92 | no media or no languages: None and the file unchanged; otherwise (title, languages) and the file is the loaded map with the key overwritten |
| AudioStore.StoredOverwritesOneKey | plexguard/TelegramNotificationService.py:87-89 | after a store the key reads the new list and every other key reads as before |
| AudioStore.UnloadableStoreIsReplaced | plexguard/TelegramNotificationService.py:73-89 | a store that does not load is replaced by a file holding only the new entry |
| AudioStore.EmptyEntryReadsAsAbsent | plexguard/TelegramNotificationService.py:323-325 | an empty stored list reads like an absent key |
| PlexCatalog.CandidatesAreSectionItems | plexguard/TelegramNotificationService.py:170-172 | the search visits exactly the items of the sections of the branch's kind |
| PlexCatalog.ProbeItem | plexguard/TelegramNotificationService.py:173-203 | the item loop body (guid test, episode loop) agrees with `Probe` |
| PlexCatalog.SearchItems | plexguard/TelegramNotificationService.py:173-179 | the item loop returns what `Scan` gives |
| PlexCatalog.SearchSections | plexguard/TelegramNotificationService.py:170-179 | the section loop returns what `Search` gives |
| PlexCatalog.ScanFindsFirstDecision | plexguard/TelegramNotificationService.py:173-179 | nothing is found exactly when no item decides; otherwise the outcome is that of the first deciding item |
| PlexCatalog.ScanAppend | plexguard/TelegramNotificationService.py:184-203 | the next section is searched only when the earlier ones decided nothing |
| PlexCatalog.MovieSearchNeverRaises | plexguard/TelegramNotificationService.py:167-179 | the movie half only compares guids and never raises |
| PlexCatalog.MovieBeforeSeries | plexguard/TelegramNotificationService.py:166-181 | when some movie carries the guid, the hit is the first such movie, with the movie id, whatever the series part says |
| PlexCatalog.NotFound | plexguard/TelegramNotificationService.py:205 | (None, None, None) exactly when no movie carries the guid and no show gives a hit or raises |
| PlexCatalog.EpisodeHitIsKey | plexguard/TelegramNotificationService.py:193-203 | a show hit is an episode of a show carrying the guid, and its id is the lower-case `{id}-s{ss}e{ee}` key from the payload |
| PlexCatalog.RaisesOnlyWithoutNumbers | plexguard/TelegramNotificationService.py:194 | the search raises only for a series payload lacking season or episode, and does so once a guid-matching show with episodes is reached |
| TelegramNotifications.LookupLanguages | plexguard/TelegramNotificationService.py:252-265 | `get_languages` raises or finds nothing exactly when the search does; a hit carries the search's title, media and id and the de-duplicated audio languages in first-occurrence order |
| TelegramNotifications.SendStepSpec | plexguard/TelegramNotificationService.py:313-337 | no answer without media or languages; "added" iff the stored entry is absent or empty; "Italian" iff the entry exists and Italian is new; the file is written exactly on those two; a notice only then and only when deliverable |
| TelegramNotifications.DecisionTextInjective | plexguard/TelegramNotificationService.py:329-337 | the three answers of `send_telegram` are distinct |
| TelegramNotifications.WriteIgnoresDelivery | plexguard/TelegramNotificationService.py:326-332 | delivery never changes the file or the answer, and at most one notice goes out per call |
| TelegramNotifications.ResendIsQuiet | plexguard/TelegramNotificationService.py:322-337 | a second call on the same lookup changes nothing, sends nothing and answers "no relevant change" |
| TelegramNotifications.ItalianIsNotifiedOnce | plexguard/TelegramNotificationService.py:330 | once Italian is stored for an id, no call notifies for it again |
| TelegramNotifications.SaveThenSendIsQuiet | plexguard/TelegramNotificationService.py:267-337 | `save_languages` then `send_telegram` on the same lookup leaves nothing to announce |
| TelegramNotifications.SaveFileSpec | plexguard/TelegramNotificationService.py:267-269 | `save_languages` stores exactly what was found under its id and keeps every other entry |
| TelegramNotifications.NotificationService.FindMediaById | plexguard/TelegramNotificationService.py:166-205 | the result is `FindMedia` of the payload |
| TelegramNotifications.NotificationService.SendTelegramNotification | plexguard/TelegramNotificationService.py:207-250 | True and one more notice, carrying the flag of each language in order, exactly when the bot exists and the photo goes through; otherwise False and nothing sent |
| TelegramNotifications.NotificationService.GetLanguages | plexguard/TelegramNotificationService.py:252-265 | the result is `Lookup` of the payload |
| TelegramNotifications.NotificationService.SaveLanguages | plexguard/TelegramNotificationService.py:267-269 | a raising lookup raises and leaves the file; otherwise the reply and file of `SaveReply`/`SaveFile` |
| TelegramNotifications.NotificationService.SendTelegram | plexguard/TelegramNotificationService.py:313-337 | a raising lookup changes nothing; otherwise answer, file and delivered notices are those of `SendStep` |
| TelegramNotifications.NotificationService.SaveEpisode | plexguard/TelegramNotificationService.py:278-282 | the payload carries the episode's numbers and the file moves one `SaveFile` step |
| TelegramNotifications.NotificationService.SaveEachEpisode | plexguard/TelegramNotificationService.py:276-282 | one `save_languages` per episode up to the first raising lookup; the file is the fold of `SaveFile` over the lookups before it |
| TelegramNotifications.NotificationService.SaveOnce | plexguard/TelegramNotificationService.py:283-284 | a payload without episodes is a batch of one |
| TelegramNotifications.NotificationService.SaveBatch | plexguard/TelegramNotificationService.py:276-286 | either branch: results and file as the fold over the batch's lookups |
| TelegramNotifications.NotificationService.ProcessDownloading | plexguard/TelegramNotificationService.py:271-286 | a failed normalize raises with nothing saved; otherwise one result per episode (or one) and the file as the fold, stopping at the first raise |
| TelegramNotifications.NotificationService.SendEpisode | plexguard/TelegramNotificationService.py:303-307 | the payload carries the episode's numbers; file, notices and results move one `SendStep` step |
| TelegramNotifications.NotificationService.SendEachEpisode | plexguard/TelegramNotificationService.py:301-307 | one `send_telegram` per episode up to the first raising lookup; file, notices and answers are the fold of `SendStep` over the lookups before it |
| TelegramNotifications.NotificationService.SendOnce | plexguard/TelegramNotificationService.py:308-309 | a payload without episodes is a batch of one |
| TelegramNotifications.NotificationService.SendBatch | plexguard/TelegramNotificationService.py:300-311 | either branch: answers, file and notices as the fold over the batch's lookups |
| TelegramNotifications.NotificationService.ProcessImported | plexguard/TelegramNotificationService.py:288-311 | a failed normalize, or a failing Kometa call for a series or movie payload, raises with nothing stored or sent; otherwise one answer per episode (or one) and file and notices as the fold, stopping at the first raise |
| TorrentRules.SelectedSpec | plexguard/TorrentCleanerService.py:92-111 | the selection holds exactly the listed torrents that qualify, and none still downloading |
| TorrentRules.SelectedKeepsOrder | plexguard/TorrentCleanerService.py:92 | the selection is the qualifying torrents at increasing list positions |
| TorrentRules.SelectedPrefix | plexguard/TorrentCleanerService.py:92-111 | the selection of a prefix of the list is a prefix of the selection |
| TorrentRules.IncompleteIsKept | plexguard/TorrentCleanerService.py:99-100 | a torrent still downloading is never selected, whatever its comment and age |
| TorrentRules.NoCommentGoesAtAnyAge | plexguard/TorrentCleanerService.py:103-106 | a finished torrent without a real comment is deleted at any age |
| TorrentRules.ThresholdIsStrict | plexguard/TorrentCleanerService.py:107-111 | with a real comment: kept at exactly the threshold, deleted one day later, and deleted iff older than the threshold |
| TorrentRules.PaddedPlaceholderIsNoComment | plexguard/TorrentCleanerService.py:96-103 | qBittorrent's placeholder with whitespace around it is no real comment |
| TorrentRules.BlankCommentIsNoComment | plexguard/TorrentCleanerService.py:96-103 | a whitespace-only comment is no real comment |
| TorrentRules.OtherCommentIsReal | plexguard/TorrentCleanerService.py:96-103 | any other non-blank text is a real comment |
| TorrentRules.ServiceDaysOld | plexguard/TorrentCleanerService.py:17 | 90 when the variable is unset; otherwise a number exactly when the text parses |
| TorrentRules.WebhookDaysOld | sonarr_webhook.py:10 | an unset variable raises; otherwise a number exactly when the text parses |
| TorrentRules.DaysOldReadings | sonarr_webhook.py:10 | both readings agree on every set value and accept every decimal number |
| Qbittorrent.DeletesConcat | plexguard/TorrentCleanerService.py:64-67 | the delete requests of a log grow only by those of the requests appended |
| Qbittorrent.AcceptedCountBounds | plexguard/TorrentCleanerService.py:105-111 | the count is the whole selection when every delete is accepted, and zero when none is |
| Qbittorrent.WebApi.Version | plexguard/TorrentCleanerService.py:32 | the version status is answered and one version check is logged |
| Qbittorrent.WebApi.Login | plexguard/TorrentCleanerService.py:46 | the login reply is answered and one login is logged |
| Qbittorrent.WebApi.TorrentsInfo | plexguard/TorrentCleanerService.py:83 | the list reply is answered and one list request is logged |
| Qbittorrent.WebApi.Delete | plexguard/TorrentCleanerService.py:64-67 | the hash's delete status is answered and exactly that delete is logged |
| TorrentCleaning.TorrentCleaner.constructor | plexguard/TorrentCleanerService.py:13-24 | no session; one login attempt exactly when URL, user and password are set, keeping the session only if it is accepted |
| TorrentCleaning.TorrentCleaner.LoginRequests | plexguard/TorrentCleanerService.py:37-46 | a login request is sent exactly when the session is not active |
| TorrentCleaning.TorrentCleaner.IsSessionActive | plexguard/TorrentCleanerService.py:26-35 | False without a session; otherwise whether the version check answers 200; a connection error is False |
| TorrentCleaning.TorrentCleaner.Login | plexguard/TorrentCleanerService.py:37-56 | True at once when active; otherwise a new session that is kept only on status 200 and body "Ok.", and no session after a failure |
| TorrentCleaning.TorrentCleaner.DeleteTorrent | plexguard/TorrentCleanerService.py:58-76 | None without a delete when the login fails; otherwise one delete and True exactly on status 200 |
| TorrentCleaning.TorrentCleaner.CleanOne | plexguard/TorrentCleanerService.py:92-111 | one delete exactly when the rule selects the torrent; the counter grows by one exactly when it is accepted |
| TorrentCleaning.TorrentCleaner.DeleteSelected | plexguard/TorrentCleanerService.py:89-111 | one delete per selected torrent, in order; the counter ends at the number accepted; a new session per delete unless the version check answers 200, when at most one is opened |
| TorrentCleaning.TorrentCleaner.CleanTorrents | plexguard/TorrentCleanerService.py:78-111 | no delete when the login fails or the list status is not 200; a raise on a list connection error; otherwise deletes of the selection and the accepted count; no session after a failed login, and afterwards the kept session, or a new one per delete when the version check fails |
| TorrentCleaning.CleanedCountBound | plexguard/TorrentCleanerService.py:89-111 | the counter never exceeds the selection, nor the list |
| SonarrCleanup.FirstUnreachable | sonarr_webhook.py:27-31 | every delete before the position is answered, and the one at it is not |
| SonarrCleanup.LoginTestsCompared | sonarr_webhook.py:20 | every login the service accepts, the webhook accepts too; the webhook alone accepts body "Ok." with a status other than 200 |
| SonarrCleanup.LoginQbittorrent | sonarr_webhook.py:15-23 | raises on a connection error; otherwise a session exactly when the body is "Ok." |
| SonarrCleanup.DeleteTorrent | sonarr_webhook.py:25-31 | one delete with the files flag; raises without an answer, otherwise True exactly on status 200 |
| SonarrCleanup.CleanOne | sonarr_webhook.py:47-65 | one delete exactly when the rule selects the torrent; raises when it gets no answer; otherwise the counter grows exactly when it is accepted |
| SonarrCleanup.DeleteSelected | sonarr_webhook.py:47-65 | deletes of the selection up to and including the first unanswered one; raises exactly when there is one; otherwise the accepted count |
| SonarrCleanup.Stopped | sonarr_webhook.py:60-65 | a loop that raises stops at the first unanswered selected torrent, after the deletes of those before it |
| SonarrCleanup.CleanTorrents | sonarr_webhook.py:33-67 | the login and list error messages with no delete; raises on connection errors; otherwise "success" with the accepted count, after one delete per selected torrent |
| SonarrCleanup.SuccessCountBound | sonarr_webhook.py:67 | the reported count never exceeds the number of torrents listed |

## Left out

- Plex, Telegram and HTTP I/O are abstracted. Errors writing the audio-track file are not modelled; a write always succeeds. The catalog is a value. The bot and the photo download are two flags of the service. qBittorrent is the `WebApi` object with fixed answers.
- `item.refresh()` and `item.reload()` are not modelled; the catalog does not change.
- JSON text encoding and decoding are left out. The store file is one of missing, unreadable, blank, malformed, or a map. Pretty-printing is not modelled.
- The caption's HTML markup, the trailer link and the image bytes are left out. Only the title, languages, summary, poster URL and the flag row of a notice are kept.
- `start_kometa` is reduced to one flag of the service: whether the call returns normally. When it fails, `process_imported` raises before anything is stored or sent. The request to the Kometa endpoint and what it triggers are not modelled.
- The `asyncio.sleep(60)` pause and the `async` machinery of `process_imported` are not modelled. They change nothing the model tracks.
- Reading the environment is left out, except `DAYS_OLD`. So are logging, the `_initialize_plex` and `_initialize_telegram` set-up, the Flask routes and `plexguard/Controller.py`, which is not part of this model.
- Concurrent webhook deliveries racing on the store file are not modelled.
- Clock and float progress are reduced. A torrent carries `complete` (progress at least 1.0) and `daysOld` (whole days since it was added).
- An absent torrent comment is the empty string.
- Missing `hash`, `added_on` or `progress` keys, and a list body that is not JSON, are not modelled.
- Python `int()` is modelled as optional whitespace, an optional sign and ASCII digits. Underscores and non-ASCII digits are left out.
- `media.media[0].parts[0]` is taken to exist. The `IndexError` of a media item without parts is not modelled.
- A Python `None` title or id is kept as an `Option`. Falsy empty dictionaries in the payload count as absent keys.
- The payload's `series.episodeNumber` is taken to be text. A numeric value, which Python would fail to `split`, is not modelled.
- The missing qBittorrent URL or credentials in the webhook script are not modelled separately. They show up as the server's answers to the login.
- A `requests.Session` is identified by a number. Cookies are not modelled.
- TorrentCleaning.TorrentCleaner.CleanTorrents: the Python method returns None on every path. The model returns which exit was taken (`CleanExit`) and the final counter, so that the count can be stated.
- TorrentCleaning.TorrentCleaner.DeleteSelected: the server gives the same answers throughout a run. So a session that expires, or a server that goes away, in the middle of the loop is not modelled. In the source, such a torrent is skipped and not counted; in the model, once the first login succeeds, every later login does too.
- TorrentCleaning.TorrentCleaner.CleanTorrents: the contract states the delete requests, the result and the session afterwards. It does not state the order of the version checks and login posts among the requests.
- A stream without a language tag is not modelled; every audio stream carries a language name. In the source, its `None` language makes the caption's `' '.join` raise. The notice then fails with False, while the store still records the list.

/**
 * The rule both torrent cleaners apply to every torrent qBittorrent
 * lists: a torrent still downloading is kept; a finished one is deleted
 * when it carries no real comment, and otherwise only once it is older
 * than the configured number of days.
 */
module TorrentRules {
  import opened Wrappers
  import opened PyText

  /**
   * A torrent as the list endpoint reports it, with the clock and the
   * float progress already reduced: `complete` is `progress >= 1.0` and
   * `daysOld` the whole days since it was added. An absent comment is the
   * empty string.
   */
  datatype Torrent = Torrent(hash: string, name: string, complete: bool, daysOld: int, comment: string)

  /** The comment qBittorrent writes for torrents built from magnet links. */
  const DynamicMetainfo: string := "dynamic metainfo from client"

  /** After `strip()`, the comment is empty or qBittorrent's own placeholder. */
  predicate NoRealComment(comment: string) {
    var c := Strip(comment);
    c == [] || c == DynamicMetainfo
  }

  /** Whether a cleaner asks qBittorrent to delete the torrent. */
  predicate ShouldDelete(t: Torrent, threshold: int) {
    t.complete && (NoRealComment(t.comment) || t.daysOld > threshold)
  }

  /** The torrents among the first `n` listed that a cleaner asks to delete, in list order. */
  function SelectedUpTo(ts: seq<Torrent>, n: nat, threshold: int): (sel: seq<Torrent>)
    requires n <= |ts|
    ensures |sel| <= n
  {
    if n == 0 then []
    else SelectedUpTo(ts, n - 1, threshold) + (if ShouldDelete(ts[n - 1], threshold) then [ts[n - 1]] else [])
  }

  /** The torrents a cleaner asks to delete, in list order. */
  function Selected(ts: seq<Torrent>, threshold: int): (sel: seq<Torrent>)
    ensures |sel| <= |ts|
  {
    SelectedUpTo(ts, |ts|, threshold)
  }

  lemma {:induction false} SelectedUpToSpec(ts: seq<Torrent>, n: nat, threshold: int)
    requires n <= |ts|
    ensures forall t :: t in SelectedUpTo(ts, n, threshold) <==> t in ts[..n] && ShouldDelete(t, threshold)
  {
    if n > 0 {
      SelectedUpToSpec(ts, n - 1, threshold);
      assert ts[..n] == ts[..n - 1] + [ts[n - 1]];
    }
  }

  /**
   * The selection holds exactly the listed torrents that qualify, so
   * never one still downloading.
   */
  lemma SelectedSpec(ts: seq<Torrent>, threshold: int)
    ensures forall t :: t in Selected(ts, threshold) <==> t in ts && ShouldDelete(t, threshold)
    ensures forall t :: t in Selected(ts, threshold) ==> t.complete
  {
    SelectedUpToSpec(ts, |ts|, threshold);
    assert ts[..|ts|] == ts;
  }

  /** The selection keeps list order: it is the qualifying torrents picked at increasing positions. */
  lemma {:induction false} SelectedKeepsOrder(ts: seq<Torrent>, n: nat, threshold: int) returns (pos: seq<nat>)
    requires n <= |ts|
    ensures |pos| == |SelectedUpTo(ts, n, threshold)|
    ensures forall k :: 0 <= k < |pos| ==> pos[k] < n && ts[pos[k]] == SelectedUpTo(ts, n, threshold)[k]
    ensures forall j, k :: 0 <= j < k < |pos| ==> pos[j] < pos[k]
  {
    if n == 0 {
      pos := [];
    } else {
      var front := SelectedKeepsOrder(ts, n - 1, threshold);
      pos := front + (if ShouldDelete(ts[n - 1], threshold) then [n - 1] else []);
    }
  }

  /** The selection among the first `i` torrents is a prefix of the selection among the first `n`. */
  lemma {:induction false} SelectedPrefix(ts: seq<Torrent>, i: nat, n: nat, threshold: int)
    requires i <= n <= |ts|
    ensures SelectedUpTo(ts, i, threshold) <= SelectedUpTo(ts, n, threshold)
  {
    if i < n {
      SelectedPrefix(ts, i, n - 1, threshold);
    }
  }

  /** A torrent that is still downloading is kept, whatever its comment and age. */
  lemma IncompleteIsKept(t: Torrent, threshold: int)
    requires !t.complete
    ensures !ShouldDelete(t, threshold)
    ensures forall ts :: t !in Selected(ts, threshold)
  {
    forall ts ensures t !in Selected(ts, threshold) {
      SelectedSpec(ts, threshold);
    }
  }

  /** A finished torrent without a real comment goes, however young it is. */
  lemma NoCommentGoesAtAnyAge(t: Torrent, threshold: int)
    requires t.complete && NoRealComment(t.comment)
    ensures ShouldDelete(t, threshold)
    ensures forall age :: ShouldDelete(t.(daysOld := age), threshold)
  {
  }

  /**
   * A finished torrent with a real comment is kept up to and including
   * the threshold, and deleted from the day after.
   */
  lemma ThresholdIsStrict(t: Torrent, threshold: int)
    requires t.complete && !NoRealComment(t.comment)
    ensures !ShouldDelete(t.(daysOld := threshold), threshold)
    ensures ShouldDelete(t.(daysOld := threshold + 1), threshold)
    ensures ShouldDelete(t, threshold) <==> t.daysOld > threshold
  {
  }

  /** Whitespace around the placeholder does not make it a real comment. */
  lemma PaddedPlaceholderIsNoComment(pre: string, post: string)
    requires AllSpace(pre) && AllSpace(post)
    ensures NoRealComment(pre + DynamicMetainfo + post)
  {
    StripPadded(pre, DynamicMetainfo, post);
  }

  /** A comment of whitespace only counts as no comment. */
  lemma BlankCommentIsNoComment(comment: string)
    requires AllSpace(comment)
    ensures NoRealComment(comment)
  {
    StripSpec(comment);
  }

  /** Any other text, once stripped, is a real comment. */
  lemma OtherCommentIsReal(comment: string)
    requires !AllSpace(comment) && Strip(comment) != DynamicMetainfo
    ensures !NoRealComment(comment)
  {
    StripSpec(comment);
  }

  /**
   * `int(os.getenv("DAYS_OLD", 90))` in the service: 90 when the variable
   * is unset, the parsed number when it holds one, a raise otherwise.
   */
  function ServiceDaysOld(env: Option<string>): (r: Py<int>)
    ensures env.None? ==> r == Returns(90)
    ensures env.Some? ==> (r.Returns? <==> ParseInt(env.value).Some?)
  {
    if env.None? then Returns(90)
    else if ParseInt(env.value).Some? then Returns(ParseInt(env.value).value)
    else Raises
  }

  /**
   * `int(os.getenv("DAYS_OLD"))` in the webhook script: there is no
   * default, so an unset variable raises (`int(None)`).
   */
  function WebhookDaysOld(env: Option<string>): (r: Py<int>)
    ensures env.None? ==> r.Raises?
    ensures env.Some? ==> (r.Returns? <==> ParseInt(env.value).Some?)
  {
    if env.None? then Raises
    else if ParseInt(env.value).Some? then Returns(ParseInt(env.value).value)
    else Raises
  }

  /** Both readings accept any number written in decimal, and differ only on an unset variable. */
  lemma DaysOldReadings(env: Option<string>, n: int)
    ensures env == Some(Decimal(n)) ==> ServiceDaysOld(env) == WebhookDaysOld(env) == Returns(n)
    ensures env.Some? ==> ServiceDaysOld(env) == WebhookDaysOld(env)
  {
    DecimalRoundTrip(n);
  }
}

/**
 * The qBittorrent Web API as the cleaners see it: a server whose answers
 * are fixed inputs and which keeps a log of the requests it received.
 * An absent answer stands for a `requests.RequestException` (no
 * connection, a timeout, a bad URL).
 */
module Qbittorrent {
  import opened Wrappers
  import opened TorrentRules

  /** Status code and body text of an HTTP response. */
  datatype Reply = Reply(status: int, text: string)

  /** Status code and the decoded torrent records of `GET /api/v2/torrents/info`. */
  datatype ListReply = ListReply(status: int, torrents: seq<Torrent>)

  /** The requests a cleaner can send, with the form fields that matter. */
  datatype Request =
    | VersionCheck                            // GET /api/v2/app/version
    | LoginPost                               // POST /api/v2/auth/login
    | ListTorrents                            // GET /api/v2/torrents/info
    | DeletePost(hash: string, deleteFiles: string)  // POST /api/v2/torrents/delete

  /** The delete requests among the first `n` of a log, as (hash, deleteFiles) pairs, in order. */
  function DeletesUpTo(log: seq<Request>, n: nat): (ds: seq<(string, string)>)
    requires n <= |log|
    ensures |ds| <= n
  {
    if n == 0 then []
    else DeletesUpTo(log, n - 1) + (if log[n - 1].DeletePost? then [(log[n - 1].hash, log[n - 1].deleteFiles)] else [])
  }

  /** The delete requests of a log, as (hash, deleteFiles) pairs, in order. */
  function Deletes(log: seq<Request>): (ds: seq<(string, string)>)
    ensures |ds| <= |log|
  {
    DeletesUpTo(log, |log|)
  }

  /** A log extended by more requests: its first requests read the same. */
  lemma {:induction false} DeletesUpToPrefix(log: seq<Request>, more: seq<Request>, n: nat)
    requires n <= |log|
    ensures DeletesUpTo(log + more, n) == DeletesUpTo(log, n)
  {
    if n > 0 {
      DeletesUpToPrefix(log, more, n - 1);
      assert (log + more)[n - 1] == log[n - 1];
    }
  }

  lemma {:induction false} DeletesUpToConcat(log: seq<Request>, more: seq<Request>, n: nat)
    requires n <= |more|
    ensures DeletesUpTo(log + more, |log| + n) == Deletes(log) + DeletesUpTo(more, n)
  {
    if n == 0 {
      DeletesUpToPrefix(log, more, |log|);
    } else {
      DeletesUpToConcat(log, more, n - 1);
      assert (log + more)[|log| + n - 1] == more[n - 1];
    }
  }

  /** Deletes of a log extended by more requests are those of the log followed by those of the requests. */
  lemma DeletesConcat(log: seq<Request>, more: seq<Request>)
    ensures Deletes(log + more) == Deletes(log) + Deletes(more)
  {
    DeletesUpToConcat(log, more, |more|);
  }

  /** The deletes of a single request. */
  lemma DeletesOfOne(req: Request)
    ensures Deletes([req]) == if req.DeletePost? then [(req.hash, req.deleteFiles)] else []
  {
    assert [req][..0] == [];
  }

  /** The `deleteFiles` form field for a Python boolean: `"true"` or `"false"`. */
  function DeleteFilesField(deleteFiles: bool): string {
    if deleteFiles then "true" else "false"
  }

  /** The delete requests a cleaner sends for the selected torrents, deleting their files too. */
  function DeletesFor(ts: seq<Torrent>): (ds: seq<(string, string)>)
    ensures |ds| == |ts|
  {
    seq(|ts|, k requires 0 <= k < |ts| => (ts[k].hash, "true"))
  }

  /** One more selected torrent adds its delete request at the end. */
  lemma DeletesForAppend(ts: seq<Torrent>, t: Torrent)
    ensures DeletesFor(ts + [t]) == DeletesFor(ts) + [(t.hash, "true")]
  {
    assert forall k :: 0 <= k < |ts| ==> DeletesFor(ts + [t])[k] == DeletesFor(ts)[k];
  }

  /** The first `n` delete requests are those of the first `n` torrents. */
  lemma DeletesForPrefix(ts: seq<Torrent>, n: nat)
    requires n <= |ts|
    ensures DeletesFor(ts)[..n] == DeletesFor(ts[..n])
  {
    assert forall k :: 0 <= k < n ==> DeletesFor(ts)[..n][k] == DeletesFor(ts[..n])[k];
  }

  /** Whether the server answers a delete of `hash` with status 200. */
  function Accepted(status: string -> Option<int>, hash: string): bool {
    status(hash) == Some(200)
  }

  /** How many of the first `n` torrents the server deletes with status 200. */
  function AcceptedUpTo(status: string -> Option<int>, ts: seq<Torrent>, n: nat): (count: nat)
    requires n <= |ts|
    ensures count <= n
  {
    if n == 0 then 0
    else AcceptedUpTo(status, ts, n - 1) + (if Accepted(status, ts[n - 1].hash) then 1 else 0)
  }

  /** How many of the torrents the server deletes with status 200. */
  function AcceptedCount(status: string -> Option<int>, ts: seq<Torrent>): (count: nat)
    ensures count <= |ts|
  {
    AcceptedUpTo(status, ts, |ts|)
  }

  lemma {:induction false} AcceptedUpToPrefix(status: string -> Option<int>, ts: seq<Torrent>, t: Torrent, n: nat)
    requires n <= |ts|
    ensures AcceptedUpTo(status, ts + [t], n) == AcceptedUpTo(status, ts, n)
  {
    if n > 0 {
      AcceptedUpToPrefix(status, ts, t, n - 1);
      assert (ts + [t])[n - 1] == ts[n - 1];
    }
  }

  /** One more torrent adds one to the count exactly when the server accepts its delete. */
  lemma AcceptedCountAppend(status: string -> Option<int>, ts: seq<Torrent>, t: Torrent)
    ensures AcceptedCount(status, ts + [t]) == AcceptedCount(status, ts) + (if Accepted(status, t.hash) then 1 else 0)
  {
    AcceptedUpToPrefix(status, ts, t, |ts|);
  }

  /** The count is the whole list when every delete is accepted, and zero when none is. */
  lemma {:induction false} AcceptedUpToBounds(status: string -> Option<int>, ts: seq<Torrent>, n: nat)
    requires n <= |ts|
    ensures (forall k :: 0 <= k < n ==> Accepted(status, ts[k].hash)) ==> AcceptedUpTo(status, ts, n) == n
    ensures (forall k :: 0 <= k < n ==> !Accepted(status, ts[k].hash)) ==> AcceptedUpTo(status, ts, n) == 0
  {
    if n > 0 {
      AcceptedUpToBounds(status, ts, n - 1);
    }
  }

  /** The count is the whole list when every delete is accepted, and zero when none is. */
  lemma AcceptedCountBounds(status: string -> Option<int>, ts: seq<Torrent>)
    ensures (forall t :: t in ts ==> Accepted(status, t.hash)) ==> AcceptedCount(status, ts) == |ts|
    ensures (forall t :: t in ts ==> !Accepted(status, t.hash)) ==> AcceptedCount(status, ts) == 0
  {
    AcceptedUpToBounds(status, ts, |ts|);
  }

  /**
   * The server. Its answers are fixed: to a version check from a logged-in
   * session, to a login, to the torrent list, and to a delete of each
   * hash. `log` holds every request received so far.
   */
  class WebApi {
    const versionStatus: Option<int>
    const loginReply: Option<Reply>
    const listReply: Option<ListReply>
    const deleteStatus: string -> Option<int>
    var log: seq<Request>

    constructor (versionStatus: Option<int>, loginReply: Option<Reply>, listReply: Option<ListReply>, deleteStatus: string -> Option<int>)
      ensures this.versionStatus == versionStatus && this.loginReply == loginReply
      ensures this.listReply == listReply && this.deleteStatus == deleteStatus
      ensures log == []
    {
      this.versionStatus, this.loginReply, this.listReply, this.deleteStatus := versionStatus, loginReply, listReply, deleteStatus;
      log := [];
    }

    /** The service's login test: status 200 and body `"Ok."`. */
    predicate LoginAccepted() {
      loginReply.Some? && loginReply.value.status == 200 && loginReply.value.text == "Ok."
    }

    method Version() returns (status: Option<int>)
      modifies this`log
      ensures status == versionStatus && log == old(log) + [VersionCheck]
      ensures Deletes(log) == Deletes(old(log))
    {
      DeletesOfOne(VersionCheck);
      DeletesConcat(log, [VersionCheck]);
      log := log + [VersionCheck];
      status := versionStatus;
    }

    method Login() returns (reply: Option<Reply>)
      modifies this`log
      ensures reply == loginReply && log == old(log) + [LoginPost]
      ensures Deletes(log) == Deletes(old(log))
    {
      DeletesOfOne(LoginPost);
      DeletesConcat(log, [LoginPost]);
      log := log + [LoginPost];
      reply := loginReply;
    }

    method TorrentsInfo() returns (reply: Option<ListReply>)
      modifies this`log
      ensures reply == listReply && log == old(log) + [ListTorrents]
      ensures Deletes(log) == Deletes(old(log))
    {
      DeletesOfOne(ListTorrents);
      DeletesConcat(log, [ListTorrents]);
      log := log + [ListTorrents];
      reply := listReply;
    }

    method Delete(hash: string, deleteFiles: string) returns (status: Option<int>)
      modifies this`log
      ensures status == deleteStatus(hash) && log == old(log) + [DeletePost(hash, deleteFiles)]
      ensures Deletes(log) == Deletes(old(log)) + [(hash, deleteFiles)]
    {
      DeletesOfOne(DeletePost(hash, deleteFiles));
      DeletesConcat(log, [DeletePost(hash, deleteFiles)]);
      log := log + [DeletePost(hash, deleteFiles)];
      status := deleteStatus(hash);
    }
  }
}

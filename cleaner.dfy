/**
 * The torrent cleaner service: it keeps one qBittorrent session, logs in
 * again whenever that session stops answering, and deletes the finished
 * torrents the cleanup rule selects, counting the deletions the server
 * accepts.
 */
module TorrentCleaning {
  import opened Wrappers
  import opened TorrentRules
  import opened Qbittorrent

  /**
   * How `clean_torrents` ended: the login failed, the torrent list came
   * back with a status other than 200, or the loop ran and `deleted`
   * deletions were accepted.
   */
  datatype CleanExit = NotLoggedIn | ListFailed | Cleaned(deleted: nat)

  class TorrentCleaner {
    const server: WebApi
    const daysOld: int
    /** The session in use, by the number of the `requests.Session` that opened it; `None` when there is none. */
    var session: Option<nat>
    /** How many sessions the service has created so far. */
    var sessionsOpened: nat

    /** `is_session_active()` would answer True: there is a session and the version check answers 200. */
    predicate SessionActive()
      reads this
    {
      session.Some? && server.versionStatus == Some(200)
    }

    /** `login()` would answer True: the session is active, or a new login is accepted. */
    predicate LoginWouldSucceed()
      reads this
    {
      SessionActive() || server.LoginAccepted()
    }

    /** The requests one `login()` sends: the version check when there is a session, then a login unless it was active. */
    function LoginRequests(): (rs: seq<Request>)
      reads this
      ensures LoginPost in rs <==> !SessionActive()
    {
      if SessionActive() then [VersionCheck] else (if session.Some? then [VersionCheck] else []) + [LoginPost]
    }

    /**
     * `__init__`: no session; when the URL, user and password are all
     * set, one login attempt.
     */
    constructor (server: WebApi, configured: bool, daysOld: int)
      modifies server
      ensures this.server == server && this.daysOld == daysOld
      ensures !configured ==> session == None && sessionsOpened == 0 && server.log == old(server.log)
      ensures configured ==>
        server.log == old(server.log) + [LoginPost] && sessionsOpened == 1
        && session == (if server.LoginAccepted() then Some(0) else None)
    {
      this.server := server;
      this.daysOld := daysOld;
      session := None;
      sessionsOpened := 0;
      new;
      if configured {
        var _ := Login();
      }
    }

    /** `is_session_active`: False without a session, otherwise whether the version check answers 200. */
    method IsSessionActive() returns (active: bool)
      modifies server`log
      ensures active == SessionActive()
      ensures !active ==> session.None? || server.versionStatus != Some(200)
      ensures server.log == old(server.log) + (if session.Some? then [VersionCheck] else [])
      ensures Deletes(server.log) == Deletes(old(server.log))
    {
      if session.None? {
        return false;
      }
      var status := server.Version();
      return status == Some(200);
    }

    /**
     * `login`: True at once, keeping the session, when it is active;
     * otherwise a new session posts the credentials and is kept only on
     * status 200 with body "Ok.". A failed login leaves no session.
     */
    method Login() returns (ok: bool)
      modifies this`session, this`sessionsOpened, server`log
      ensures ok == old(LoginWouldSucceed())
      ensures server.log == old(server.log) + old(LoginRequests())
      ensures Deletes(server.log) == Deletes(old(server.log))
      ensures old(SessionActive()) ==> session == old(session) && sessionsOpened == old(sessionsOpened)
      ensures !old(SessionActive()) ==>
        sessionsOpened == old(sessionsOpened) + 1 && session == (if ok then Some(old(sessionsOpened)) else None)
      ensures LoginWouldSucceed() == ok
    {
      var active := IsSessionActive();
      if active {
        return true;
      }
      session := Some(sessionsOpened);
      sessionsOpened := sessionsOpened + 1;
      var reply := server.Login();
      if reply.Some? && reply.value.status == 200 && reply.value.text == "Ok." {
        return true;
      }
      session := None;
      return false;
    }

    /**
     * `delete_torrent`: `None` (falsy) without a delete request when the
     * login fails; otherwise one delete request, and True exactly when it
     * is answered with status 200 (a connection error answers False).
     */
    method DeleteTorrent(hash: string, deleteFiles: bool) returns (r: Option<bool>)
      modifies this`session, this`sessionsOpened, server`log
      ensures r.None? <==> !old(LoginWouldSucceed())
      ensures r.Some? ==> r.value == Accepted(server.deleteStatus, hash)
      ensures server.log == old(server.log) + old(LoginRequests())
        + (if r.Some? then [DeletePost(hash, DeleteFilesField(deleteFiles))] else [])
      ensures Deletes(server.log) == Deletes(old(server.log)) + (if r.Some? then [(hash, DeleteFilesField(deleteFiles))] else [])
      ensures LoginWouldSucceed() == old(LoginWouldSucceed())
      ensures old(SessionActive()) ==> session == old(session) && sessionsOpened == old(sessionsOpened)
      ensures !old(SessionActive()) ==>
        sessionsOpened == old(sessionsOpened) + 1 && session == (if r.Some? then Some(old(sessionsOpened)) else None)
    {
      var ok := Login();
      if !ok {
        return None;
      }
      var status := server.Delete(hash, DeleteFilesField(deleteFiles));
      return Some(status == Some(200));
    }

    /**
     * One pass of the loop of `clean_torrents`: skip a torrent still
     * downloading; otherwise delete it, with its files, when it has no
     * real comment or is older than the threshold, and count the deletion
     * when the server accepts it. Only a deletion logs in, and it opens a
     * new session when the current one is not active.
     */
    method CleanOne(t: Torrent, deleted: nat) returns (count: nat)
      requires LoginWouldSucceed()
      modifies this`session, this`sessionsOpened, server`log
      ensures LoginWouldSucceed()
      ensures !ShouldDelete(t, daysOld) || old(SessionActive()) ==> session == old(session) && sessionsOpened == old(sessionsOpened)
      ensures ShouldDelete(t, daysOld) && !old(SessionActive()) ==>
        session == Some(old(sessionsOpened)) && sessionsOpened == old(sessionsOpened) + 1
      ensures count == deleted + (if ShouldDelete(t, daysOld) && Accepted(server.deleteStatus, t.hash) then 1 else 0)
      ensures Deletes(server.log) == Deletes(old(server.log)) + (if ShouldDelete(t, daysOld) then [(t.hash, "true")] else [])
    {
      count := deleted;
      if !t.complete {
        return;
      }
      if NoRealComment(t.comment) {
        var gone := DeleteTorrent(t.hash, true);
        if gone == Some(true) {
          count := count + 1;
        }
      } else if t.daysOld > daysOld {
        var gone := DeleteTorrent(t.hash, true);
        if gone == Some(true) {
          count := count + 1;
        }
      }
    }

    /**
     * `clean_torrents`: nothing is deleted when the login fails or the
     * list comes back with a status other than 200 (a connection error
     * on the list raises); otherwise one delete request, with its files,
     * per selected torrent in list order, and the counter ends at the
     * number of deletions the server accepted. A failed login leaves no
     * session. Once logged in, a session whose version check answers 200
     * is kept for the whole run; otherwise every delete logs in again with
     * a new session, and the last one opened is kept.
     */
    method CleanTorrents() returns (r: Py<CleanExit>)
      modifies this`session, this`sessionsOpened, server`log
      ensures !old(LoginWouldSucceed()) ==> session == None && sessionsOpened == old(sessionsOpened) + 1
      ensures old(LoginWouldSucceed()) && server.versionStatus == Some(200) ==>
        session == (if old(SessionActive()) then old(session) else Some(old(sessionsOpened)))
        && sessionsOpened == old(sessionsOpened) + (if old(SessionActive()) then 0 else 1)
      ensures old(LoginWouldSucceed()) && server.versionStatus != Some(200) ==>
        session == Some(sessionsOpened - 1)
        && sessionsOpened == old(sessionsOpened) + 1
             + (if server.listReply.Some? && server.listReply.value.status == 200
                then |Selected(server.listReply.value.torrents, daysOld)| else 0)
      ensures !old(LoginWouldSucceed()) ==> r == Returns(NotLoggedIn) && Deletes(server.log) == Deletes(old(server.log))
      ensures old(LoginWouldSucceed()) && server.listReply.None? ==> r.Raises? && Deletes(server.log) == Deletes(old(server.log))
      ensures old(LoginWouldSucceed()) && server.listReply.Some? && server.listReply.value.status != 200 ==>
        r == Returns(ListFailed) && Deletes(server.log) == Deletes(old(server.log))
      ensures old(LoginWouldSucceed()) && server.listReply.Some? && server.listReply.value.status == 200 ==>
        var sel := Selected(server.listReply.value.torrents, daysOld);
        r == Returns(Cleaned(AcceptedCount(server.deleteStatus, sel)))
        && Deletes(server.log) == Deletes(old(server.log)) + DeletesFor(sel)
    {
      var ok := Login();
      if !ok {
        return Returns(NotLoggedIn);
      }
      var reply := server.TorrentsInfo();
      if reply.None? {
        return Raises;
      }
      if reply.value.status != 200 {
        return Returns(ListFailed);
      }
      var deleted := DeleteSelected(reply.value.torrents);
      return Returns(Cleaned(deleted));
    }

    /**
     * The loop of `clean_torrents` over the listed torrents, once logged
     * in: one delete request per selected torrent, in order, and the
     * number of deletions the server accepted. With a version check that
     * answers 200, the first deletion opens a session when there is none,
     * and it is kept; otherwise every deletion opens a new one.
     */
    method DeleteSelected(torrents: seq<Torrent>) returns (deleted: nat)
      requires LoginWouldSucceed()
      modifies this`session, this`sessionsOpened, server`log
      ensures deleted == AcceptedCount(server.deleteStatus, Selected(torrents, daysOld))
      ensures Deletes(server.log) == Deletes(old(server.log)) + DeletesFor(Selected(torrents, daysOld))
      ensures (session, sessionsOpened)
        == SessionsAfter(old(session), old(sessionsOpened), server.versionStatus == Some(200), |Selected(torrents, daysOld)|)
    {
      ghost var d0 := Deletes(server.log);
      deleted := 0;
      for i := 0 to |torrents|
        invariant LoginWouldSucceed()
        invariant (session, sessionsOpened)
          == SessionsAfter(old(session), old(sessionsOpened), server.versionStatus == Some(200), |SelectedUpTo(torrents, i, daysOld)|)
        invariant deleted == AcceptedCount(server.deleteStatus, SelectedUpTo(torrents, i, daysOld))
        invariant Deletes(server.log) == d0 + DeletesFor(SelectedUpTo(torrents, i, daysOld))
      {
        ghost var sel := SelectedUpTo(torrents, i, daysOld);
        if ShouldDelete(torrents[i], daysOld) {
          AcceptedCountAppend(server.deleteStatus, sel, torrents[i]);
          DeletesForAppend(sel, torrents[i]);
          SessionsAfterStep(old(session), old(sessionsOpened), server.versionStatus == Some(200), |sel|);
        } else {
          assert SelectedUpTo(torrents, i + 1, daysOld) == sel;
        }
        deleted := CleanOne(torrents[i], deleted);
      }
    }
  }

  /**
   * The session, and how many sessions have been opened, after `k`
   * deletions that each log in first, starting from `session` with
   * `count` sessions so far. A session whose version check answers 200
   * is kept once there is one; otherwise every deletion opens a new one.
   */
  function SessionsAfter(session: Option<nat>, count: nat, versionOk: bool, k: nat): (Option<nat>, nat) {
    if k == 0 || (versionOk && session.Some?) then (session, count)
    else if versionOk then (Some(count), count + 1)
    else (Some(count + k - 1), count + k)
  }

  /** One more deletion keeps an active session and otherwise opens the next one. */
  lemma SessionsAfterStep(session: Option<nat>, count: nat, versionOk: bool, k: nat)
    ensures var before := SessionsAfter(session, count, versionOk, k);
      SessionsAfter(session, count, versionOk, k + 1)
      == (if versionOk && before.0.Some? then before else (Some(before.1), before.1 + 1))
  {
  }

  /** The counter of a completed run never exceeds the number of torrents listed. */
  lemma CleanedCountBound(status: string -> Option<int>, ts: seq<Torrent>, threshold: int)
    ensures AcceptedCount(status, Selected(ts, threshold)) <= |Selected(ts, threshold)| <= |ts|
  {
  }
}

/**
 * The cleanup behind the Sonarr webhook: a fresh qBittorrent session per
 * call, the same selection rule as the service, and a JSON answer that
 * reports either an error message or how many deletions were accepted.
 * Unlike the service, it lets connection errors escape.
 */
module SonarrCleanup {
  import opened Wrappers
  import opened TorrentRules
  import opened Qbittorrent

  /** `{"status": "error", "message": m}` or `{"status": "success", "deleted": n}`. */
  datatype CleanResult = Failure(message: string) | Success(deleted: nat)

  const LoginFailedMessage: string := "Impossibile connettersi a qBittorrent"
  const ListFailedMessage: string := "Errore nel recupero dei torrent"

  /** Every delete request among `ts` gets an answer, so none of them raises. */
  predicate AllReachable(status: string -> Option<int>, ts: seq<Torrent>) {
    forall j :: 0 <= j < |ts| ==> status(ts[j].hash).Some?
  }

  /** The position of the first torrent whose delete request raises, or `|ts|` when none does. */
  function FirstUnreachable(status: string -> Option<int>, ts: seq<Torrent>): (k: nat)
    ensures k <= |ts|
    ensures forall j :: 0 <= j < k ==> status(ts[j].hash).Some?
    ensures k < |ts| ==> status(ts[k].hash).None?
  {
    FirstUnreachableFrom(status, ts, 0)
  }

  function FirstUnreachableFrom(status: string -> Option<int>, ts: seq<Torrent>, i: nat): (k: nat)
    requires i <= |ts| && forall j :: 0 <= j < i ==> status(ts[j].hash).Some?
    ensures i <= k <= |ts|
    ensures forall j :: 0 <= j < k ==> status(ts[j].hash).Some?
    ensures k < |ts| ==> status(ts[k].hash).None?
    decreases |ts| - i
  {
    if i == |ts| || status(ts[i].hash).None? then i
    else FirstUnreachableFrom(status, ts, i + 1)
  }

  /** A raise right after reachable deletes is the first one. */
  lemma FirstUnreachableAt(status: string -> Option<int>, ts: seq<Torrent>, m: nat)
    requires m <= |ts| && (forall j :: 0 <= j < m ==> status(ts[j].hash).Some?)
    requires m < |ts| ==> status(ts[m].hash).None?
    ensures FirstUnreachable(status, ts) == m
  {
  }

  /** The login answer `login_qbittorrent` accepts: any status, body "Ok.". */
  predicate SessionGranted(server: WebApi) {
    server.loginReply.Some? && server.loginReply.value.text == "Ok."
  }

  /**
   * The webhook's login test is weaker than the service's: every answer
   * the service accepts passes it too, and the answers that pass only
   * the webhook's are those with body "Ok." and a status other than 200.
   */
  lemma LoginTestsCompared(server: WebApi)
    ensures server.LoginAccepted() ==> SessionGranted(server)
    ensures SessionGranted(server) && !server.LoginAccepted() <==>
      server.loginReply.Some? && server.loginReply.value.text == "Ok." && server.loginReply.value.status != 200
  {
  }

  /** `login_qbittorrent`: a session exactly when the login answer's body is "Ok."; the status is not looked at. */
  method LoginQbittorrent(server: WebApi) returns (r: Py<bool>)
    modifies server`log
    ensures server.log == old(server.log) + [LoginPost]
    ensures Deletes(server.log) == Deletes(old(server.log))
    ensures server.loginReply.None? ==> r.Raises?
    ensures server.loginReply.Some? ==> r == Returns(server.loginReply.value.text == "Ok.")
  {
    var reply := server.Login();
    if reply.None? {
      return Raises;
    }
    return Returns(reply.value.text == "Ok.");
  }

  /** `delete_torrent`: one delete request; True exactly when it is answered with status 200. */
  method DeleteTorrent(server: WebApi, hash: string, deleteFiles: bool) returns (r: Py<bool>)
    modifies server`log
    ensures server.log == old(server.log) + [DeletePost(hash, DeleteFilesField(deleteFiles))]
    ensures Deletes(server.log) == Deletes(old(server.log)) + [(hash, DeleteFilesField(deleteFiles))]
    ensures server.deleteStatus(hash).None? ==> r.Raises?
    ensures server.deleteStatus(hash).Some? ==> r == Returns(Accepted(server.deleteStatus, hash))
  {
    var status := server.Delete(hash, DeleteFilesField(deleteFiles));
    if status.None? {
      return Raises;
    }
    return Returns(status.value == 200);
  }

  /**
   * One pass of the loop of `clean_torrents`: skip a torrent still
   * downloading; otherwise delete it, with its files, when it has no
   * real comment or is older than the threshold, and count the deletion
   * when the server accepts it.
   */
  method CleanOne(server: WebApi, t: Torrent, daysOld: int, deleted: nat) returns (r: Py<nat>)
    modifies server`log
    ensures Deletes(server.log) == Deletes(old(server.log)) + (if ShouldDelete(t, daysOld) then [(t.hash, "true")] else [])
    ensures r.Raises? <==> ShouldDelete(t, daysOld) && server.deleteStatus(t.hash).None?
    ensures r.Returns? ==> r.value == deleted + (if ShouldDelete(t, daysOld) && Accepted(server.deleteStatus, t.hash) then 1 else 0)
  {
    if !t.complete {
      return Returns(deleted);
    }
    var gone: Py<bool> := Returns(false);
    if NoRealComment(t.comment) {
      gone := DeleteTorrent(server, t.hash, true);
    } else if t.daysOld > daysOld {
      gone := DeleteTorrent(server, t.hash, true);
    } else {
      return Returns(deleted);
    }
    if gone.Raises? {
      return Raises;
    }
    return Returns(if gone.value then deleted + 1 else deleted);
  }

  /**
   * `clean_torrents`: an error result, and no delete, when the login body
   * is not "Ok." or the list status is not 200; otherwise one delete
   * request per selected torrent, in list order, and the number of
   * accepted deletions. A connection error raises, at the login, at the
   * list, or at the first selected torrent whose delete gets no answer,
   * after the deletes sent before it.
   */
  method CleanTorrents(server: WebApi, daysOld: int) returns (r: Py<CleanResult>)
    modifies server`log
    ensures server.loginReply.None? ==> r.Raises? && Deletes(server.log) == Deletes(old(server.log))
    ensures server.loginReply.Some? && !SessionGranted(server) ==>
      r == Returns(Failure(LoginFailedMessage)) && Deletes(server.log) == Deletes(old(server.log))
    ensures SessionGranted(server) && server.listReply.None? ==>
      r.Raises? && Deletes(server.log) == Deletes(old(server.log))
    ensures SessionGranted(server) && server.listReply.Some? && server.listReply.value.status != 200 ==>
      r == Returns(Failure(ListFailedMessage)) && Deletes(server.log) == Deletes(old(server.log))
    ensures SessionGranted(server) && server.listReply.Some? && server.listReply.value.status == 200 ==>
      var sel := Selected(server.listReply.value.torrents, daysOld);
      var k := FirstUnreachable(server.deleteStatus, sel);
      (r.Raises? <==> k < |sel|)
      && (r.Returns? ==> r == Returns(Success(AcceptedCount(server.deleteStatus, sel))))
      && Deletes(server.log) == Deletes(old(server.log)) + DeletesFor(sel)[..if k < |sel| then k + 1 else |sel|]
  {
    var session := LoginQbittorrent(server);
    if session.Raises? {
      return Raises;
    }
    if !session.value {
      return Returns(Failure(LoginFailedMessage));
    }
    var reply := server.TorrentsInfo();
    if reply.None? {
      return Raises;
    }
    if reply.value.status != 200 {
      return Returns(Failure(ListFailedMessage));
    }
    var deleted := DeleteSelected(server, reply.value.torrents, daysOld);
    if deleted.Raises? {
      return Raises;
    }
    return Returns(Success(deleted.value));
  }

  /**
   * The loop of `clean_torrents` over the listed torrents: one delete
   * request per selected torrent, in order, stopping with a raise at the
   * first one that gets no answer; otherwise the number of accepted
   * deletions.
   */
  method DeleteSelected(server: WebApi, torrents: seq<Torrent>, daysOld: int) returns (r: Py<nat>)
    modifies server`log
    ensures var sel := Selected(torrents, daysOld);
      var k := FirstUnreachable(server.deleteStatus, sel);
      (r.Raises? <==> k < |sel|)
      && (r.Returns? ==> r.value == AcceptedCount(server.deleteStatus, sel))
      && Deletes(server.log) == Deletes(old(server.log)) + DeletesFor(sel)[..if k < |sel| then k + 1 else |sel|]
  {
    ghost var d0 := Deletes(server.log);
    var deleted := 0;
    for i := 0 to |torrents|
      invariant AllReachable(server.deleteStatus, SelectedUpTo(torrents, i, daysOld))
      invariant deleted == AcceptedCount(server.deleteStatus, SelectedUpTo(torrents, i, daysOld))
      invariant Deletes(server.log) == d0 + DeletesFor(SelectedUpTo(torrents, i, daysOld))
    {
      ghost var sel := SelectedUpTo(torrents, i, daysOld);
      var step := CleanOne(server, torrents[i], daysOld, deleted);
      if step.Raises? {
        Stopped(server.deleteStatus, torrents, i, daysOld);
        return Raises;
      }
      if ShouldDelete(torrents[i], daysOld) {
        AcceptedCountAppend(server.deleteStatus, sel, torrents[i]);
        DeletesForAppend(sel, torrents[i]);
      } else {
        assert SelectedUpTo(torrents, i + 1, daysOld) == sel;
      }
      deleted := step.value;
    }
    ghost var sel := Selected(torrents, daysOld);
    FirstUnreachableAt(server.deleteStatus, sel, |sel|);
    assert DeletesFor(sel)[..|sel|] == DeletesFor(sel);
    return Returns(deleted);
  }

  /**
   * A loop that raises at torrent `i`: it is the first selected torrent
   * whose delete gets no answer, and the deletes sent are those of the
   * selection up to and including it.
   */
  lemma Stopped(status: string -> Option<int>, ts: seq<Torrent>, i: nat, threshold: int)
    requires i < |ts| && ShouldDelete(ts[i], threshold) && status(ts[i].hash).None?
    requires AllReachable(status, SelectedUpTo(ts, i, threshold))
    ensures var sel := Selected(ts, threshold);
      var m := |SelectedUpTo(ts, i, threshold)|;
      m < |sel| && FirstUnreachable(status, sel) == m
      && DeletesFor(sel)[..m + 1] == DeletesFor(SelectedUpTo(ts, i, threshold)) + [(ts[i].hash, "true")]
  {
    var front := SelectedUpTo(ts, i, threshold);
    var sel := Selected(ts, threshold);
    StoppedPosition(ts, i, threshold);
    FirstUnreachableAt(status, sel, |front|);
    DeletesForPrefix(sel, |front| + 1);
    DeletesForAppend(front, ts[i]);
  }

  /** The torrent a loop stops at sits in the selection right after the ones selected before it. */
  lemma StoppedPosition(ts: seq<Torrent>, i: nat, threshold: int)
    requires i < |ts| && ShouldDelete(ts[i], threshold)
    ensures var front := SelectedUpTo(ts, i, threshold);
      var sel := Selected(ts, threshold);
      |front| < |sel| && sel[|front|] == ts[i] && sel[..|front| + 1] == front + [ts[i]]
      && forall j :: 0 <= j < |front| ==> sel[j] == front[j]
  {
    var front := SelectedUpTo(ts, i, threshold);
    var upto := SelectedUpTo(ts, i + 1, threshold);
    SelectedPrefix(ts, i + 1, |ts|, threshold);
    assert upto == front + [ts[i]];
    assert Selected(ts, threshold)[..|upto|] == upto;
  }

  /** An accepted count never exceeds the number of torrents listed. */
  lemma SuccessCountBound(status: string -> Option<int>, ts: seq<Torrent>, threshold: int)
    ensures AcceptedCount(status, Selected(ts, threshold)) <= |ts|
  {
  }
}

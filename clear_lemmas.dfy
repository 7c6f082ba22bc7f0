/** What `/api/clear-data` promises: without the confirmation nothing
    changes; with it, exactly the caller's records, history, stats, active
    processes and the logs of those processes are gone. */
module ClearLemmas {

  import opened Limits
  import opened ServerState
  import opened ServerLemmas

  /** Without a cookie or the word DELETE the request is refused and the
      store is left as it was; otherwise it is cleared. */
  lemma ClearResponses(st: Store, cookie: string, confirm: string)
    ensures var (r, resp) := HandleClear(st, cookie, confirm);
      && (resp == ConfirmationRequired <==> cookie == "" || confirm != "DELETE")
      && (resp == ConfirmationRequired ==> r == st)
      && (resp == Cleared ==> r == ClearUser(st, UserId(cookie)))
  {
  }

  /** After clearing, nothing of the user is left: no quota record, no
      history, no stats, no active process, and no log of a process that was
      active for the user. */
  lemma ClearRemovesUser(st: Store, uid: string)
    ensures var r := ClearUser(st, uid);
      && LimitKey(uid) !in r.userLimits
      && uid !in r.userHistory && uid !in r.userStats
      && (forall p :: p in r.activeProcesses ==> r.activeProcesses[p].userId != uid)
      && (forall p :: p in st.activeProcesses && st.activeProcesses[p].userId == uid ==>
            LogKey(p) !in r.processLogs)
  {
  }

  /** Clearing touches nobody else: every other user's record, history and
      stats, every other user's process, and every log not belonging to one
      of the user's active processes survive unchanged. */
  lemma ClearKeepsOthers(st: Store, uid: string)
    ensures var r, doomed := ClearUser(st, uid), OwnedBy(st.activeProcesses, uid);
      && (forall k :: k in st.userLimits && k != LimitKey(uid) ==>
            k in r.userLimits && r.userLimits[k] == st.userLimits[k])
      && (forall u :: u in st.userHistory && u != uid ==>
            u in r.userHistory && r.userHistory[u] == st.userHistory[u])
      && (forall u :: u in st.userStats && u != uid ==>
            u in r.userStats && r.userStats[u] == st.userStats[u])
      && (forall p :: p in st.activeProcesses && st.activeProcesses[p].userId != uid ==>
            p in r.activeProcesses && r.activeProcesses[p] == st.activeProcesses[p])
      && r.processLogs.Keys <= st.processLogs.Keys
      && (forall p :: LogKey(p) in st.processLogs && !(p in doomed) ==>
            LogKey(p) in r.processLogs && r.processLogs[LogKey(p)] == st.processLogs[LogKey(p)])
  {
    var doomed := OwnedBy(st.activeProcesses, uid);
    forall p | LogKey(p) in st.processLogs && !(p in doomed)
      ensures LogKey(p) !in LogKeys(doomed)
    {
      if LogKey(p) in LogKeys(doomed) {
        var p' :| p' in doomed && LogKey(p') == LogKey(p);
        LogKeyInjective(p', p);
        assert false;
      }
    }
  }

  /** A process that is no longer active, such as one refused by the quota
      check, keeps its log through a clear of its owner. */
  lemma ClearKeepsInactiveLogs(st: Store, uid: string, pid: string)
    requires LogKey(pid) in st.processLogs && pid !in st.activeProcesses
    ensures LogKey(pid) in ClearUser(st, uid).processLogs
  {
    ClearKeepsOthers(st, uid);
  }

  /** Clearing twice is clearing once. */
  lemma ClearIdempotent(st: Store, uid: string)
    ensures ClearUser(ClearUser(st, uid), uid) == ClearUser(st, uid)
  {
    var r := ClearUser(st, uid);
    assert OwnedBy(r.activeProcesses, uid) == {};
    assert LogKeys({}) == {};
    assert r.processLogs - {} == r.processLogs;
    assert r.activeProcesses - {} == r.activeProcesses;
  }

  /** Clearing keeps the store invariant. */
  lemma ClearKeepsInvariant(st: Store, cookie: string, confirm: string)
    requires Invariant(st)
    ensures Invariant(HandleClear(st, cookie, confirm).0)
  {
  }
}

/** What the `/api/share` handler promises, proved stage by stage about
    HandleShare and its parts. */
module HandlerLemmas {

  import opened Wrappers
  import opened JsValues
  import opened Limits
  import opened ServerState
  import opened ServerLemmas

  /** The three entries written when a process is opened. */
  function OpeningEntries(n: nat, link: string, delay: Parsed): seq<LogEntry> {
    [LogEntry(StartingProcess(n), Start), LogEntry(PostLink(Prefix(link, 50)), Info),
     LogEntry(DelayBetweenShares(delay), Info)]
  }

  /** One `addProcessLog` on a log holding the newest part of `l0 + es`. */
  lemma AddLogNewest(st: Store, uid: string, pid: string, m: LogMessage, kind: LogType,
                     l0: seq<LogEntry>, es: seq<LogEntry>)
    requires LogOf(st, pid) == Newest(l0 + es)
    ensures LogOf(AddLog(st, uid, pid, m, kind), pid) == Newest(l0 + (es + [LogEntry(m, kind)]))
  {
    AddLogEffect(st, uid, pid, m, kind);
    PushNewest(l0, es, LogEntry(m, kind));
  }

  // ---------------------------------------------------------------------
  // Opening a process.

  lemma OpenProcessEffect(st: Store, uid: string, pid: string, n: nat, link: string, delay: Parsed)
    ensures var r := OpenProcess(st, uid, pid, n, link, delay);
      && r.userLimits == st.userLimits && r.userStats == st.userStats
      && r.userHistory == st.userHistory[uid := HistoryOf(st, uid)]
      && r.activeProcesses == st.activeProcesses[pid := ActiveProcess(uid, Processing, 0, n, 0, 0)]
      && r.processLogs.Keys == st.processLogs.Keys + {LogKey(pid)}
      && (forall q :: q in st.processLogs && q != LogKey(pid) ==> r.processLogs[q] == st.processLogs[q])
      && (LogsCapped(st) ==> LogsCapped(r))
  {
    var s1 := st.(activeProcesses := st.activeProcesses[pid := ActiveProcess(uid, Processing, 0, n, 0, 0)]);
    var s2 := AddLog(s1, uid, pid, StartingProcess(n), Start);
    var s3 := AddLog(s2, uid, pid, PostLink(Prefix(link, 50)), Info);
    AddLogEffect(s1, uid, pid, StartingProcess(n), Start);
    AddLogEffect(s2, uid, pid, PostLink(Prefix(link, 50)), Info);
    AddLogEffect(s3, uid, pid, DelayBetweenShares(delay), Info);
  }

  lemma OpenProcessLog(st: Store, uid: string, pid: string, n: nat, link: string, delay: Parsed,
                       l0: seq<LogEntry>, es: seq<LogEntry>)
    requires LogOf(st, pid) == Newest(l0 + es)
    ensures LogOf(OpenProcess(st, uid, pid, n, link, delay), pid)
      == Newest(l0 + (es + OpeningEntries(n, link, delay)))
  {
    var s1 := st.(activeProcesses := st.activeProcesses[pid := ActiveProcess(uid, Processing, 0, n, 0, 0)]);
    var s2 := AddLog(s1, uid, pid, StartingProcess(n), Start);
    var s3 := AddLog(s2, uid, pid, PostLink(Prefix(link, 50)), Info);
    var a, b, c := LogEntry(StartingProcess(n), Start), LogEntry(PostLink(Prefix(link, 50)), Info),
                   LogEntry(DelayBetweenShares(delay), Info);
    AddLogNewest(s1, uid, pid, StartingProcess(n), Start, l0, es);
    AddLogNewest(s2, uid, pid, PostLink(Prefix(link, 50)), Info, l0, es + [a]);
    AddLogNewest(s3, uid, pid, DelayBetweenShares(delay), Info, l0, es + [a] + [b]);
    assert es + [a] + [b] + [c] == es + OpeningEntries(n, link, delay);
  }

  // ---------------------------------------------------------------------
  // Giving up on a process.

  lemma AbandonEffect(st: Store, uid: string, pid: string, m: LogMessage)
    ensures var r := Abandon(st, uid, pid, m);
      && r.userLimits == st.userLimits && r.userStats == st.userStats
      && r.userHistory == st.userHistory[uid := HistoryOf(st, uid)]
      && r.activeProcesses == st.activeProcesses - {pid}
      && r.processLogs.Keys == st.processLogs.Keys + {LogKey(pid)}
      && (forall q :: q in st.processLogs && q != LogKey(pid) ==> r.processLogs[q] == st.processLogs[q])
      && (LogsCapped(st) ==> LogsCapped(r))
  {
    AddLogEffect(st, uid, pid, m, Error);
  }

  // ---------------------------------------------------------------------
  // From the token to the loop.

  lemma BeginSharingEffect(st: Store, uid: string, pid: string, n: nat, token: string)
    requires LimitKey(uid) in st.userLimits
    ensures var r := BeginSharing(st, uid, pid, n, token); var key := LimitKey(uid);
      && r.userLimits == st.userLimits[key := Commit(st.userLimits[key], n)]
      && r.userStats == st.userStats
      && r.userHistory == st.userHistory[uid := HistoryOf(st, uid)]
      && r.activeProcesses == st.activeProcesses
      && r.processLogs.Keys == st.processLogs.Keys + {LogKey(pid)}
      && (forall q :: q in st.processLogs && q != LogKey(pid) ==> r.processLogs[q] == st.processLogs[q])
      && (LogsCapped(st) ==> LogsCapped(r))
  {
    var s1 := AddLog(st, uid, pid, TokenExtracted(Prefix(token, 15)), Success);
    var key := LimitKey(uid);
    var s2 := s1.(userLimits := s1.userLimits[key := Commit(s1.userLimits[key], n)]);
    AddLogEffect(st, uid, pid, TokenExtracted(Prefix(token, 15)), Success);
    AddLogEffect(s2, uid, pid, SharingStarted, Progress);
  }

  lemma BeginSharingLog(st: Store, uid: string, pid: string, n: nat, token: string,
                        l0: seq<LogEntry>, es: seq<LogEntry>)
    requires LimitKey(uid) in st.userLimits
    requires LogOf(st, pid) == Newest(l0 + es)
    ensures LogOf(BeginSharing(st, uid, pid, n, token), pid)
      == Newest(l0 + (es + [LogEntry(TokenExtracted(Prefix(token, 15)), Success),
                            LogEntry(SharingStarted, Progress)]))
  {
    var a := LogEntry(TokenExtracted(Prefix(token, 15)), Success);
    var s1 := AddLog(st, uid, pid, a.message, a.kind);
    var key := LimitKey(uid);
    var s2 := s1.(userLimits := s1.userLimits[key := Commit(s1.userLimits[key], n)]);
    AddLogNewest(st, uid, pid, a.message, a.kind, l0, es);
    AddLogNewest(s2, uid, pid, SharingStarted, Progress, l0, es + [a]);
    assert es + [a] + [LogEntry(SharingStarted, Progress)] == es + [a, LogEntry(SharingStarted, Progress)];
  }

  // ---------------------------------------------------------------------
  // After the loop.

  /** The history entry the handler saves for a finished run. */
  function SessionOf(job: Job, t: Tally, link: string): HistoryEntry {
    HistoryEntry(job.processId, job.userId, link, job.total, job.delay, t.success, t.failed, t.results)
  }

  lemma FinishEffect(st: Store, job: Job, t: Tally, link: string, finishedAt: int)
    requires LimitKey(job.userId) in st.userLimits
    ensures var o := Finish(st, job, t, link, finishedAt); var r := o.store;
      var key := LimitKey(job.userId); var uid, pid := job.userId, job.processId;
      var u := st.userLimits[key].(lastShareTime := finishedAt);
      && r.userLimits == st.userLimits[key := u]
      && r.userHistory == st.userHistory[uid := HistoryOf(st, uid) + [SessionOf(job, t, link)]]
      && r.userStats == st.userStats[uid := UserStats(u.totalShares, u.successfulShares, u.failedShares)]
      && r.activeProcesses == (if pid in st.activeProcesses
           then st.activeProcesses[pid := st.activeProcesses[pid].(
                  status := Completed, successCount := t.success, failedCount := t.failed)]
           else st.activeProcesses)
      && r.processLogs.Keys == st.processLogs.Keys + {LogKey(pid)}
      && (forall q :: q in st.processLogs && q != LogKey(pid) ==> r.processLogs[q] == st.processLogs[q])
      && (LogsCapped(st) ==> LogsCapped(r))
      && o.waits == t.waits
      && o.response == Finished(Summary(job.total, t.success, t.failed, t.results, pid,
                                        MaxPerDay - u.sharesToday, MaxPerHour - u.sharesThisHour,
                                        u.sharesToday, u.sharesThisHour))
  {
    var uid, pid, key := job.userId, job.processId, LimitKey(job.userId);
    var u := st.userLimits[key].(lastShareTime := finishedAt);
    var s1 := st.(userLimits := st.userLimits[key := u]);
    var s2 := s1.(userHistory := s1.userHistory[uid := HistoryOf(s1, uid) + [SessionOf(job, t, link)]]);
    var s3 := s2.(userStats := s2.userStats[uid := UserStats(u.totalShares, u.successfulShares, u.failedShares)]);
    AddLogEffect(s3, uid, pid, ProcessCompleted(t.success, t.failed), Complete);
  }

  // ---------------------------------------------------------------------
  // After a passed quota check.

  /** With no token: nothing is charged, the process is dropped, no wait. */
  lemma AfterCheckNoToken(st: Store, job: Job, link: string, env: Env)
    requires LimitKey(job.userId) in st.userLimits
    requires env.token == ""
    ensures var o := AfterCheck(st, job, link, env); var uid, pid := job.userId, job.processId;
      && o.response == TokenExtractionFailed && o.waits == []
      && o.store.userLimits == st.userLimits && o.store.userStats == st.userStats
      && o.store.userHistory == st.userHistory[uid := HistoryOf(st, uid)]
      && o.store.activeProcesses == st.activeProcesses - {pid}
      && o.store.processLogs.Keys == st.processLogs.Keys + {LogKey(pid)}
      && (forall q :: q in st.processLogs && q != LogKey(pid) ==> o.store.processLogs[q] == st.processLogs[q])
      && (LogsCapped(st) ==> LogsCapped(o.store))
  {
    var uid, pid := job.userId, job.processId;
    var s0 := AddLog(st, uid, pid, LimitsPassed, Success);
    var s1 := AddLog(s0, uid, pid, ExtractingToken, Info);
    AddLogEffect(st, uid, pid, LimitsPassed, Success);
    AddLogEffect(s0, uid, pid, ExtractingToken, Info);
    AbandonEffect(s1, uid, pid, TokenMissing);
  }

  lemma AfterCheckNoTokenLog(st: Store, job: Job, link: string, env: Env, l0: seq<LogEntry>, es: seq<LogEntry>)
    requires LimitKey(job.userId) in st.userLimits
    requires env.token == ""
    requires LogOf(st, job.processId) == Newest(l0 + es)
    ensures LogOf(AfterCheck(st, job, link, env).store, job.processId)
      == Newest(l0 + (es + [LogEntry(LimitsPassed, Success), LogEntry(ExtractingToken, Info),
                            LogEntry(TokenMissing, Error)]))
  {
    var uid, pid := job.userId, job.processId;
    var a, b, c := LogEntry(LimitsPassed, Success), LogEntry(ExtractingToken, Info), LogEntry(TokenMissing, Error);
    var s0 := AddLog(st, uid, pid, LimitsPassed, Success);
    var s1 := AddLog(s0, uid, pid, ExtractingToken, Info);
    AddLogNewest(st, uid, pid, LimitsPassed, Success, l0, es);
    AddLogNewest(s0, uid, pid, ExtractingToken, Info, l0, es + [a]);
    AddLogNewest(s1, uid, pid, TokenMissing, Error, l0, es + [a] + [b]);
    assert es + [a] + [b] + [c] == es + [a, b, c];
  }

  /** The store right before the loop. */
  function Started(st: Store, job: Job, env: Env): Store
    requires LimitKey(job.userId) in st.userLimits
  {
    BeginSharing(CheckPassed(st, job.userId, job.processId), job.userId, job.processId, job.total, env.token)
  }

  lemma StartedEffect(st: Store, job: Job, env: Env)
    requires LimitKey(job.userId) in st.userLimits
    ensures var r := Started(st, job, env); var uid, pid, key := job.userId, job.processId, LimitKey(job.userId);
      && r.userLimits == st.userLimits[key := Commit(st.userLimits[key], job.total)]
      && r.userStats == st.userStats
      && r.userHistory == st.userHistory[uid := HistoryOf(st, uid)]
      && r.activeProcesses == st.activeProcesses
      && r.processLogs.Keys == st.processLogs.Keys + {LogKey(pid)}
      && (forall q :: q in st.processLogs && q != LogKey(pid) ==> r.processLogs[q] == st.processLogs[q])
      && (LogsCapped(st) ==> LogsCapped(r))
  {
    var uid, pid := job.userId, job.processId;
    var s0 := AddLog(st, uid, pid, LimitsPassed, Success);
    var s1 := AddLog(s0, uid, pid, ExtractingToken, Info);
    AddLogEffect(st, uid, pid, LimitsPassed, Success);
    AddLogEffect(s0, uid, pid, ExtractingToken, Info);
    BeginSharingEffect(s1, uid, pid, job.total, env.token);
  }

  /** The entries between the quota check and the loop. */
  function StartEntries(token: string): seq<LogEntry> {
    [LogEntry(LimitsPassed, Success), LogEntry(ExtractingToken, Info),
     LogEntry(TokenExtracted(Prefix(token, 15)), Success), LogEntry(SharingStarted, Progress)]
  }

  lemma StartedLog(st: Store, job: Job, env: Env, l0: seq<LogEntry>, es: seq<LogEntry>)
    requires LimitKey(job.userId) in st.userLimits
    requires LogOf(st, job.processId) == Newest(l0 + es)
    ensures LogOf(Started(st, job, env), job.processId) == Newest(l0 + (es + StartEntries(env.token)))
  {
    var uid, pid := job.userId, job.processId;
    var a, b := LogEntry(LimitsPassed, Success), LogEntry(ExtractingToken, Info);
    var s0 := AddLog(st, uid, pid, LimitsPassed, Success);
    var s1 := AddLog(s0, uid, pid, ExtractingToken, Info);
    AddLogNewest(st, uid, pid, LimitsPassed, Success, l0, es);
    AddLogNewest(s0, uid, pid, ExtractingToken, Info, l0, es + [a]);
    AddLogEffect(s0, uid, pid, ExtractingToken, Info);
    BeginSharingLog(s1, uid, pid, job.total, env.token, l0, es + [a] + [b]);
    assert es + [a] + [b] + [LogEntry(TokenExtracted(Prefix(env.token, 15)), Success),
                           LogEntry(SharingStarted, Progress)]
      == es + StartEntries(env.token);
  }

  /** A run with a token is the finish of the loop over the started store. */
  lemma AfterCheckRuns(st: Store, job: Job, link: string, env: Env)
    requires LimitKey(job.userId) in st.userLimits
    requires env.token != ""
    ensures AfterCheck(st, job, link, env)
      == Finish(Loop(Started(st, job, env), job, job.total), job, Counts(job, job.total), link, env.finishedAt)
  {
  }

  /** The user's record after the loop, as the finish finds it. */
  lemma LoopedRecord(st: Store, job: Job, env: Env)
    requires LimitKey(job.userId) in st.userLimits
    ensures var key := LimitKey(job.userId); var u := st.userLimits[key]; var t := Counts(job, job.total);
      var r := Loop(Started(st, job, env), job, job.total).userLimits;
      && r.Keys == st.userLimits.Keys
      && r[key] == Commit(u, job.total).(successfulShares := u.successfulShares + t.success,
                                         failedShares := u.failedShares + t.failed)
      && (forall q :: q in st.userLimits && q != key ==> r[q] == st.userLimits[q])
  {
    var s6 := Started(st, job, env);
    StartedEffect(st, job, env);
    LoopLimits(s6, job, job.total);
  }

  /** A run with a token charges the reserved count to the hour, day and
      lifetime counters, credits each success and failure, stamps the last
      share time, and touches no other user's record. */
  lemma AfterCheckQuota(st: Store, job: Job, link: string, env: Env)
    requires LimitKey(job.userId) in st.userLimits
    requires env.token != ""
    ensures var r := AfterCheck(st, job, link, env).store.userLimits; var key := LimitKey(job.userId);
      var u := st.userLimits[key]; var t := Counts(job, job.total);
      && r.Keys == st.userLimits.Keys
      && r[key] == Commit(u, job.total).(successfulShares := u.successfulShares + t.success,
                                         failedShares := u.failedShares + t.failed,
                                         lastShareTime := env.finishedAt)
      && (forall q :: q in st.userLimits && q != key ==> r[q] == st.userLimits[q])
  {
    var sl := Loop(Started(st, job, env), job, job.total);
    LoopedRecord(st, job, env);
    AfterCheckRuns(st, job, link, env);
    FinishEffect(sl, job, Counts(job, job.total), link, env.finishedAt);
  }

  /** History, stats and active processes after the loop. */
  lemma LoopedFrame(st: Store, job: Job, env: Env)
    requires LimitKey(job.userId) in st.userLimits
    requires job.total > 0
    ensures var r := Loop(Started(st, job, env), job, job.total); var uid, pid := job.userId, job.processId;
      && r.userHistory == st.userHistory[uid := HistoryOf(st, uid)]
      && r.userStats == st.userStats
      && r.activeProcesses.Keys == st.activeProcesses.Keys
      && (pid in st.activeProcesses ==> r.activeProcesses[pid] == st.activeProcesses[pid].(current := job.total))
      && (forall p :: p in st.activeProcesses && p != pid ==> r.activeProcesses[p] == st.activeProcesses[p])
  {
    var s6 := Started(st, job, env);
    StartedEffect(st, job, env);
    LoopFrame(s6, job, job.total);
  }

  lemma UpdateTwice<K, V>(m: map<K, V>, k: K, a: V, b: V)
    ensures m[k := a][k := b] == m[k := b]
  {
  }

  /** A run with a token saves one session to the user's history. */
  lemma AfterCheckHistory(st: Store, job: Job, link: string, env: Env)
    requires LimitKey(job.userId) in st.userLimits
    requires env.token != "" && job.total > 0
    ensures var r := AfterCheck(st, job, link, env).store; var uid := job.userId;
      r.userHistory == st.userHistory[uid := HistoryOf(st, uid) + [SessionOf(job, Counts(job, job.total), link)]]
  {
    var uid, t := job.userId, Counts(job, job.total);
    var sl := Loop(Started(st, job, env), job, job.total);
    var e := SessionOf(job, t, link);
    assert sl.userHistory == st.userHistory[uid := HistoryOf(st, uid)] by {
      LoopedFrame(st, job, env);
    }
    assert Finish(sl, job, t, link, env.finishedAt).store.userHistory
      == sl.userHistory[uid := HistoryOf(sl, uid) + [e]] by {
      FinishEffect(sl, job, t, link, env.finishedAt);
    }
    UpdateTwice(st.userHistory, uid, HistoryOf(st, uid), HistoryOf(st, uid) + [e]);
    AfterCheckRuns(st, job, link, env);
  }

  /** A run with a token stores the user's lifetime totals as the stats. */
  lemma AfterCheckStats(st: Store, job: Job, link: string, env: Env)
    requires LimitKey(job.userId) in st.userLimits
    requires env.token != "" && job.total > 0
    ensures var r := AfterCheck(st, job, link, env).store; var uid := job.userId;
      var u := st.userLimits[LimitKey(uid)]; var t := Counts(job, job.total);
      r.userStats == st.userStats[uid := UserStats(u.totalShares + job.total,
                                                   u.successfulShares + t.success,
                                                   u.failedShares + t.failed)]
  {
    var uid, key, t := job.userId, LimitKey(job.userId), Counts(job, job.total);
    var u := st.userLimits[key];
    var sl := Loop(Started(st, job, env), job, job.total);
    var v := sl.userLimits[key].(lastShareTime := env.finishedAt);
    assert sl.userStats == st.userStats by {
      LoopedFrame(st, job, env);
    }
    assert v.totalShares == u.totalShares + job.total && v.successfulShares == u.successfulShares + t.success
        && v.failedShares == u.failedShares + t.failed by {
      LoopedRecord(st, job, env);
    }
    assert Finish(sl, job, t, link, env.finishedAt).store.userStats
      == sl.userStats[uid := UserStats(v.totalShares, v.successfulShares, v.failedShares)] by {
      FinishEffect(sl, job, t, link, env.finishedAt);
    }
    AfterCheckRuns(st, job, link, env);
  }

  /** A run with a token leaves its active entry, when present, completed
      with the last iteration's number and the run's counts. */
  lemma AfterCheckProcess(st: Store, job: Job, link: string, env: Env)
    requires LimitKey(job.userId) in st.userLimits
    requires env.token != "" && job.total > 0
    ensures var r := AfterCheck(st, job, link, env).store.activeProcesses; var pid := job.processId;
      var t := Counts(job, job.total);
      && r.Keys == st.activeProcesses.Keys
      && (pid in st.activeProcesses ==>
            r[pid] == st.activeProcesses[pid].(current := job.total, status := Completed,
                                               successCount := t.success, failedCount := t.failed))
      && (forall p :: p in st.activeProcesses && p != pid ==> r[p] == st.activeProcesses[p])
  {
    var sl := Loop(Started(st, job, env), job, job.total);
    LoopedFrame(st, job, env);
    AfterCheckRuns(st, job, link, env);
    FinishEffect(sl, job, Counts(job, job.total), link, env.finishedAt);
  }

  /** A run with a token answers with the loop's tallies and the charged
      counters, after the waits the loop made. */
  lemma AfterCheckResponse(st: Store, job: Job, link: string, env: Env)
    requires LimitKey(job.userId) in st.userLimits
    requires env.token != ""
    ensures var o := AfterCheck(st, job, link, env); var u := st.userLimits[LimitKey(job.userId)];
      var t := Counts(job, job.total); var today, hour := u.sharesToday + job.total, u.sharesThisHour + job.total;
      && o.response == Finished(Summary(job.total, t.success, t.failed, t.results, job.processId,
                                        MaxPerDay - today, MaxPerHour - hour, today, hour))
      && o.waits == t.waits
  {
    var s6 := Started(st, job, env);
    StartedEffect(st, job, env);
    LoopLimits(s6, job, job.total);
    AfterCheckRuns(st, job, link, env);
    FinishEffect(Loop(s6, job, job.total), job, Counts(job, job.total), link, env.finishedAt);
  }

  /** The entries a run with a token writes after the quota check. */
  function RunEntries(job: Job, env: Env): seq<LogEntry> {
    var t := Counts(job, job.total);
    StartEntries(env.token) + LoopEntries(job, job.total) + [LogEntry(ProcessCompleted(t.success, t.failed), Complete)]
  }

  lemma AfterCheckLogs(st: Store, job: Job, link: string, env: Env)
    requires LimitKey(job.userId) in st.userLimits
    requires env.token != ""
    ensures var r := AfterCheck(st, job, link, env).store; var key := LogKey(job.processId);
      && r.processLogs.Keys == st.processLogs.Keys + {key}
      && (forall q :: q in st.processLogs && q != key ==> r.processLogs[q] == st.processLogs[q])
      && (LogsCapped(st) ==> LogsCapped(r))
  {
    var s6 := Started(st, job, env);
    StartedEffect(st, job, env);
    LoopLogs(s6, job, job.total);
    AfterCheckRuns(st, job, link, env);
    FinishEffect(Loop(s6, job, job.total), job, Counts(job, job.total), link, env.finishedAt);
  }

  /** The process's log right after the loop. */
  lemma LoopedLog(st: Store, job: Job, env: Env, l0: seq<LogEntry>, es: seq<LogEntry>)
    requires LimitKey(job.userId) in st.userLimits
    requires LogOf(st, job.processId) == Newest(l0 + es)
    ensures LogOf(Loop(Started(st, job, env), job, job.total), job.processId)
      == Newest(l0 + (es + StartEntries(env.token) + LoopEntries(job, job.total)))
  {
    var s6 := Started(st, job, env);
    StartedLog(st, job, env, l0, es);
    var se, le := StartEntries(env.token), LoopEntries(job, job.total);
    LoopLog(s6, job, job.total, l0 + (es + se));
    NewestRegroup(l0, es + se, le);
  }

  lemma AfterCheckLog(st: Store, job: Job, link: string, env: Env, l0: seq<LogEntry>, es: seq<LogEntry>)
    requires LimitKey(job.userId) in st.userLimits
    requires env.token != ""
    requires LogOf(st, job.processId) == Newest(l0 + es)
    ensures LogOf(AfterCheck(st, job, link, env).store, job.processId) == Newest(l0 + (es + RunEntries(job, env)))
  {
    var t := Counts(job, job.total);
    var sl := Loop(Started(st, job, env), job, job.total);
    var es2 := es + StartEntries(env.token) + LoopEntries(job, job.total);
    assert es2 + [LogEntry(ProcessCompleted(t.success, t.failed), Complete)] == es + RunEntries(job, env);
    assert LogOf(Finish(sl, job, t, link, env.finishedAt).store, job.processId)
      == Newest(l0 + (es2 + [LogEntry(ProcessCompleted(t.success, t.failed), Complete)])) by {
      LoopedLog(st, job, env, l0, es);
      LoopedRecord(st, job, env);
      FinishLog(sl, job, t, link, env.finishedAt, l0, es2);
    }
    AfterCheckRuns(st, job, link, env);
  }

  lemma FinishLog(st: Store, job: Job, t: Tally, link: string, finishedAt: int, l0: seq<LogEntry>, es: seq<LogEntry>)
    requires LimitKey(job.userId) in st.userLimits
    requires LogOf(st, job.processId) == Newest(l0 + es)
    ensures LogOf(Finish(st, job, t, link, finishedAt).store, job.processId)
      == Newest(l0 + (es + [LogEntry(ProcessCompleted(t.success, t.failed), Complete)]))
  {
    var uid, pid, key := job.userId, job.processId, LimitKey(job.userId);
    var u := st.userLimits[key].(lastShareTime := finishedAt);
    var s1 := st.(userLimits := st.userLimits[key := u]);
    var s2 := s1.(userHistory := s1.userHistory[uid := HistoryOf(s1, uid) + [SessionOf(job, t, link)]]);
    var s3 := s2.(userStats := s2.userStats[uid := UserStats(u.totalShares, u.successfulShares, u.failedShares)]);
    AddLogNewest(s3, uid, pid, ProcessCompleted(t.success, t.failed), Complete, l0, es);
  }
}

/** The share backend as the source runs it: one object holding the five maps
    of `realData`, whose methods update them in place. Each method is proved
    to leave the maps exactly as the matching function of ServerState
    describes, so everything proved about those functions holds of it. */
module ShareServer {

  import opened Wrappers
  import opened JsValues
  import opened Limits
  import opened ServerState
  import opened ServerLemmas
  import opened ShareLemmas
  import opened HistoryLemmas
  import opened ClearLemmas

  class Backend {
    var userLimits: map<string, UserLimits>
    var userHistory: map<string, seq<HistoryEntry>>
    var userStats: map<string, UserStats>
    var processLogs: map<string, seq<LogEntry>>
    var activeProcesses: map<string, ActiveProcess>

    /** The five maps as one value. */
    function Snapshot(): Store
      reads this
    {
      Store(userLimits, userHistory, userStats, processLogs, activeProcesses)
    }

    ghost predicate Valid()
      reads this
    {
      Invariant(Snapshot())
    }

    /** A freshly started server holds no data. */
    constructor ()
      ensures Snapshot() == EmptyStore()
      ensures Valid()
    {
      userLimits, userHistory, userStats := map[], map[], map[];
      processLogs, activeProcesses := map[], map[];
    }

    /** `addProcessLog`: push the entry, create the user's history if
        missing, and drop the oldest entry once the log passes the cap. */
    method AddProcessLog(userId: string, processId: string, message: LogMessage, kind: LogType)
      returns (entry: LogEntry)
      modifies this
      ensures entry == LogEntry(message, kind)
      ensures Snapshot() == AddLog(old(Snapshot()), userId, processId, message, kind)
    {
      var logKey := LogKey(processId);
      if logKey !in processLogs {
        processLogs := processLogs[logKey := []];
      }
      entry := LogEntry(message, kind);
      processLogs := processLogs[logKey := processLogs[logKey] + [entry]];
      if userId !in userHistory {
        userHistory := userHistory[userId := []];
      }
      var logs := processLogs[logKey];
      if |logs| > MaxProcessLogs {
        processLogs := processLogs[logKey := logs[1..]];
      }
    }

    /** `checkRealLimits`: create the record on first sight, reset the
        elapsed windows in place, then apply the three rules in order. */
    method CheckRealLimits(userId: string, requestedShares: int, now: int)
      returns (denial: Option<Denial>)
      modifies this
      ensures (Snapshot(), denial) == CheckLimits(old(Snapshot()), userId, requestedShares, now)
    {
      ghost var st0 := Snapshot();
      var userKey := LimitKey(userId);
      if userKey !in userLimits {
        userLimits := userLimits[userKey := Fresh(now)];
      }
      var user := userLimits[userKey];
      if now - user.lastResetHour > HourMs {
        user := user.(sharesThisHour := 0, lastResetHour := now);
      }
      if now - user.lastResetDay > DayMs {
        user := user.(sharesToday := 0, lastResetDay := now);
      }
      userLimits := userLimits[userKey := user];
      assert user == CheckedRecord(st0, userId, now);
      assert userLimits == st0.userLimits[userKey := user];
      assert Snapshot() == CheckLimits(st0, userId, requestedShares, now).0;
      if requestedShares > MaxPerRequest {
        return Some(PerRequestCap);
      }
      if user.sharesThisHour + requestedShares > MaxPerHour {
        return Some(HourlyCap);
      }
      if user.sharesToday + requestedShares > MaxPerDay {
        return Some(DailyCap);
      }
      return None;
    }

    // -------------------------------------------------------------------
    // `/api/share`, stage by stage.

    /** Register the process as active and write its three opening entries. */
    method OpenShareProcess(userId: string, processId: string, limitNum: nat, postLink: string, delayNum: Parsed)
      modifies this
      ensures Snapshot() == OpenProcess(old(Snapshot()), userId, processId, limitNum, postLink, delayNum)
    {
      activeProcesses := activeProcesses[processId := ActiveProcess(userId, Processing, 0, limitNum, 0, 0)];
      var _ := AddProcessLog(userId, processId, StartingProcess(limitNum), Start);
      var _ := AddProcessLog(userId, processId, PostLink(Prefix(postLink, 50)), Info);
      var _ := AddProcessLog(userId, processId, DelayBetweenShares(delayNum), Info);
    }

    /** Log the error and delete the active entry. */
    method AbandonProcess(userId: string, processId: string, message: LogMessage)
      modifies this
      ensures Snapshot() == Abandon(old(Snapshot()), userId, processId, message)
    {
      var _ := AddProcessLog(userId, processId, message, Error);
      activeProcesses := activeProcesses - {processId};
    }

    /** Log the token, add the reserved count to the three counters, and log
        the start of the loop. */
    method StartSharing(userId: string, processId: string, limitNum: nat, token: string)
      requires LimitKey(userId) in userLimits
      modifies this
      ensures Snapshot() == BeginSharing(old(Snapshot()), userId, processId, limitNum, token)
    {
      var _ := AddProcessLog(userId, processId, TokenExtracted(Prefix(token, 15)), Success);
      var userKey := LimitKey(userId);
      var user := userLimits[userKey];
      user := user.(sharesToday := user.sharesToday + limitNum);
      user := user.(sharesThisHour := user.sharesThisHour + limitNum);
      user := user.(totalShares := user.totalShares + limitNum);
      userLimits := userLimits[userKey := user];
      var _ := AddProcessLog(userId, processId, SharingStarted, Progress);
    }

    /** `activeProcess.current = i + 1` on the entry, if it still exists. */
    method MarkProgress(processId: string, current: nat)
      modifies this
      ensures Snapshot() == MarkCurrent(old(Snapshot()), processId, current)
    {
      if processId in activeProcesses {
        activeProcesses := activeProcesses[processId := activeProcesses[processId].(current := current)];
      }
    }

    /** Count one call's outcome on the user's record, then log it. */
    method CountOutcome(userId: string, processId: string, index: nat, shareResult: ShareResult)
      requires LimitKey(userId) in userLimits
      modifies this
      ensures Snapshot() == RecordOutcome(old(Snapshot()), userId, processId, index, shareResult)
    {
      var userKey := LimitKey(userId);
      var user := userLimits[userKey];
      if shareResult.Shared? {
        userLimits := userLimits[userKey := user.(successfulShares := user.successfulShares + 1)];
        var _ := AddProcessLog(userId, processId, ShareSucceeded(index), Success);
      } else {
        userLimits := userLimits[userKey := user.(failedShares := user.failedShares + 1)];
        var _ := AddProcessLog(userId, processId, ShareFailed(index, shareResult.error), Error);
      }
    }

    /** The counting loop: one progress update, (after the first call) one
        wait, one attempt entry, one call, and the counting and logging of
        its outcome per iteration. */
    method ShareLoop(job: Job)
      returns (successCount: nat, failedCount: nat, results: seq<ResultEntry>, waits: seq<nat>)
      requires LimitKey(job.userId) in userLimits
      modifies this
      ensures Tally(successCount, failedCount, results, waits) == Counts(job, job.total)
      ensures Snapshot() == Loop(old(Snapshot()), job, job.total)
    {
      ghost var st0 := Snapshot();
      var userId, processId, limitNum, userKey := job.userId, job.processId, job.total, LimitKey(job.userId);
      successCount, failedCount, results, waits := 0, 0, [], [];
      var i := 0;
      while i < limitNum
        invariant 0 <= i <= limitNum
        invariant userKey in userLimits
        invariant Snapshot() == Loop(st0, job, i)
        invariant Tally(successCount, failedCount, results, waits) == Counts(job, i)
      {
        MarkProgress(processId, i + 1);
        if i > 0 && Positive(job.delay) {
          waits := waits + [i];
        }
        var _ := AddProcessLog(userId, processId, ShareAttempt(i + 1, limitNum), Progress);
        var shareResult := job.share(i);
        results := results + [ResultEntry(i + 1, shareResult)];
        if shareResult.Shared? {
          successCount := successCount + 1;
        } else {
          failedCount := failedCount + 1;
        }
        CountOutcome(userId, processId, i + 1, shareResult);
        i := i + 1;
      }
    }

    /** After the loop: stamp the last share time, save the session, store
        the stats, log the completion, mark the process completed, and build
        the response. */
    method CompleteProcess(job: Job, successCount: nat, failedCount: nat, results: seq<ResultEntry>,
                           waits: seq<nat>, postLink: string, finishedAt: int)
      returns (response: ShareResponse)
      requires LimitKey(job.userId) in userLimits
      modifies this
      ensures var o := Finish(old(Snapshot()), job, Tally(successCount, failedCount, results, waits),
                              postLink, finishedAt);
        Snapshot() == o.store && response == o.response
    {
      ghost var st0 := Snapshot();
      var userId, processId, userKey := job.userId, job.processId, LimitKey(job.userId);
      var user := userLimits[userKey].(lastShareTime := finishedAt);
      userLimits := userLimits[userKey := user];
      var historyEntry := HistoryEntry(processId, userId, postLink, job.total, job.delay,
                                       successCount, failedCount, results);
      if userId !in userHistory {
        userHistory := userHistory[userId := []];
      }
      userHistory := userHistory[userId := userHistory[userId] + [historyEntry]];
      userStats := userStats[userId := UserStats(user.totalShares, user.successfulShares, user.failedShares)];
      ghost var saved := Snapshot();
      assert saved == st0.(userLimits := st0.userLimits[userKey := user],
                           userHistory := st0.userHistory[userId := HistoryOf(st0, userId) + [historyEntry]],
                           userStats := st0.userStats[userId := UserStats(user.totalShares, user.successfulShares,
                                                                          user.failedShares)]);
      var _ := AddProcessLog(userId, processId, ProcessCompleted(successCount, failedCount), Complete);
      if processId in activeProcesses {
        activeProcesses := activeProcesses[processId := activeProcesses[processId].(
          status := Completed, successCount := successCount, failedCount := failedCount)];
      }
      response := Finished(Summary(job.total, successCount, failedCount, results, processId,
                                   MaxPerDay - user.sharesToday, MaxPerHour - user.sharesThisHour,
                                   user.sharesToday, user.sharesThisHour));
    }

    /** The `/api/share` handler. Its effect is HandleShare's, so it keeps
        the store invariant, and ShareLemmas states what it answers, charges,
        records and logs. The returned waits are the iterations before which
        the handler slept. */
    method Share(req: ShareRequest, env: Env) returns (response: ShareResponse, waits: seq<nat>)
      requires Valid()
      modifies this
      ensures var o := HandleShare(old(Snapshot()), req, env);
        Snapshot() == o.store && response == o.response && waits == o.waits
      ensures Valid()
    {
      ghost var st0 := Snapshot();
      ShareKeepsInvariant(st0, req, env);
      waits := [];
      if req.cookie == "" || req.link == "" || Falsy(req.limit) {
        return MissingParameters, [];
      }
      var limitNum := LimitValue(ParseField(req.limit));
      if limitNum.None? {
        return LimitOutOfRange, [];
      }
      var n := limitNum.value;
      var job := JobOf(req, env, n);
      var userId, processId := UserId(req.cookie), env.processId;
      OpenShareProcess(userId, processId, n, req.link, job.delay);
      var denial := CheckRealLimits(userId, n, env.now);
      if denial.Some? {
        AbandonProcess(userId, processId, LimitCheckFailed(denial.value));
        return LimitDenied(denial.value), [];
      }
      var _ := AddProcessLog(userId, processId, LimitsPassed, Success);
      var _ := AddProcessLog(userId, processId, ExtractingToken, Info);
      if env.token == "" {
        AbandonProcess(userId, processId, TokenMissing);
        return TokenExtractionFailed, [];
      }
      StartSharing(userId, processId, n, env.token);
      var successCount, failedCount, results, w := ShareLoop(job);
      response := CompleteProcess(job, successCount, failedCount, results, w, req.link, env.finishedAt);
      waits := w;
    }

    // -------------------------------------------------------------------
    // `/api/clear-data` and the history view.

    /** The `/api/clear-data` handler: without the confirmation nothing
        changes; otherwise the user's record, history and stats are deleted,
        then every active process of the user is deleted with its log. */
    method ClearData(cookie: string, confirm: string) returns (response: ClearResponse)
      requires Valid()
      modifies this
      ensures (Snapshot(), response) == HandleClear(old(Snapshot()), cookie, confirm)
      ensures Valid()
    {
      ghost var st0 := Snapshot();
      ClearKeepsInvariant(st0, cookie, confirm);
      if cookie == "" || confirm != "DELETE" {
        return ConfirmationRequired;
      }
      var userId := UserId(cookie);
      userLimits := userLimits - {LimitKey(userId)};
      userHistory := userHistory - {userId};
      userStats := userStats - {userId};
      DropProcessesOf(userId);
      return Cleared;
    }

    /** The loop of `/api/clear-data`: every active process of the user is
        deleted together with its log. The keys are visited in some order;
        a process's fate depends on nothing but itself, so the order does not
        matter. */
    method DropProcessesOf(userId: string)
      modifies this
      ensures activeProcesses == old(activeProcesses) - OwnedBy(old(activeProcesses), userId)
      ensures processLogs == old(processLogs) - LogKeys(OwnedBy(old(activeProcesses), userId))
      ensures userLimits == old(userLimits) && userHistory == old(userHistory) && userStats == old(userStats)
    {
      ghost var procs, logs := activeProcesses, processLogs;
      var pending := activeProcesses.Keys;
      ghost var visited: set<string> := {};
      while pending != {}
        invariant visited + pending == procs.Keys && visited !! pending
        invariant activeProcesses == procs - Doomed(procs, userId, visited)
        invariant processLogs == logs - LogKeys(Doomed(procs, userId, visited))
        invariant userLimits == old(userLimits) && userHistory == old(userHistory) && userStats == old(userStats)
        decreases |pending|
      {
        var processId :| processId in pending;
        ClearStep(procs, logs, userId, visited, processId);
        var process := activeProcesses[processId];
        if process.userId == userId {
          activeProcesses := activeProcesses - {processId};
          processLogs := processLogs - {LogKey(processId)};
        }
        pending := pending - {processId};
        visited := visited + {processId};
      }
      assert visited == procs.Keys;
      assert Doomed(procs, userId, visited) == OwnedBy(procs, userId);
    }

    /** `userHistory.slice(-10).reverse()`: the user's ten most recent
        sessions (all of them when there are fewer), the most recent first. */
    method RecentHistory(userId: string) returns (history: seq<HistoryEntry>)
      ensures var h := HistoryOf(Snapshot(), userId);
        && |history| == (if |h| <= 10 then |h| else 10)
        && forall j :: 0 <= j < |history| ==> history[j] == h[|h| - 1 - j]
    {
      var sessions := if userId in userHistory then userHistory[userId] else [];
      history := RecentSessions(sessions);
      RecentSessionsSpec(sessions);
    }
  }

  /** The processes among `visited` that belong to the user. */
  ghost function Doomed(procs: map<string, ActiveProcess>, userId: string, visited: set<string>): set<string> {
    set p | p in visited && p in procs && procs[p].userId == userId
  }

  /** The state of the clear loop after visiting one more process, in terms
      of the state before it. */
  lemma ClearStep(procs: map<string, ActiveProcess>, logs: map<string, seq<LogEntry>>, userId: string,
                  visited: set<string>, p: string)
    requires p in procs && p !in visited
    ensures var d, d' := Doomed(procs, userId, visited), Doomed(procs, userId, visited + {p});
      && p in procs - d && (procs - d)[p] == procs[p]
      && procs - d' == (if procs[p].userId == userId then (procs - d) - {p} else procs - d)
      && logs - LogKeys(d') == (if procs[p].userId == userId then (logs - LogKeys(d)) - {LogKey(p)}
                                else logs - LogKeys(d))
  {
    var d := Doomed(procs, userId, visited);
    DoomedStep(procs, userId, visited, p);
    if procs[p].userId == userId {
      RemoveOneMore(procs, d, p);
      RemoveOneMore(logs, LogKeys(d), LogKey(p));
    } else {
      assert d + {} == d;
      assert LogKeys(d) + {} == LogKeys(d);
    }
  }

  lemma RemoveOneMore<K, V>(m: map<K, V>, gone: set<K>, k: K)
    ensures m - (gone + {k}) == (m - gone) - {k}
  {
  }

  /** Visiting one more process dooms it exactly when it is the user's. */
  lemma DoomedStep(procs: map<string, ActiveProcess>, userId: string, visited: set<string>, p: string)
    requires p in procs && p !in visited
    ensures p !in Doomed(procs, userId, visited)
    ensures Doomed(procs, userId, visited + {p})
      == Doomed(procs, userId, visited) + (if procs[p].userId == userId then {p} else {})
    ensures LogKeys(Doomed(procs, userId, visited + {p}))
      == LogKeys(Doomed(procs, userId, visited)) + (if procs[p].userId == userId then {LogKey(p)} else {})
  {
  }
}

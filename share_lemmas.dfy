/** What the whole `/api/share` handler promises for every request: which
    response it gives, what a refused request leaves behind, and what a
    finished run charges, records and logs. */
module ShareLemmas {

  import opened Wrappers
  import opened JsValues
  import opened Limits
  import opened ServerState
  import opened ServerLemmas
  import opened HandlerLemmas

  // ---------------------------------------------------------------------
  // Opening the process and checking the quota.

  /** The store after the opening entries and the quota check. */
  function Checked(st: Store, job: Job, link: string, env: Env): Store {
    CheckLimits(OpenProcess(st, job.userId, job.processId, job.total, link, job.delay),
                job.userId, job.total, env.now).0
  }

  lemma CheckedEffect(st: Store, job: Job, link: string, env: Env)
    ensures var r := Checked(st, job, link, env); var uid, pid := job.userId, job.processId;
      && r.userLimits == st.userLimits[LimitKey(uid) := CheckedRecord(st, uid, env.now)]
      && r.userStats == st.userStats
      && r.userHistory == st.userHistory[uid := HistoryOf(st, uid)]
      && r.activeProcesses == st.activeProcesses[pid := ActiveProcess(uid, Processing, 0, job.total, 0, 0)]
      && r.processLogs.Keys == st.processLogs.Keys + {LogKey(pid)}
      && (forall q :: q in st.processLogs && q != LogKey(pid) ==> r.processLogs[q] == st.processLogs[q])
      && (LogsCapped(st) ==> LogsCapped(r))
  {
    OpenProcessEffect(st, job.userId, job.processId, job.total, link, job.delay);
  }

  lemma CheckedLog(st: Store, job: Job, link: string, env: Env)
    requires |LogOf(st, job.processId)| <= MaxProcessLogs
    ensures LogOf(Checked(st, job, link, env), job.processId)
      == Newest(LogOf(st, job.processId) + OpeningEntries(job.total, link, job.delay))
  {
    var l0 := LogOf(st, job.processId);
    assert l0 + [] == l0;
    assert [] + OpeningEntries(job.total, link, job.delay) == OpeningEntries(job.total, link, job.delay);
    OpenProcessLog(st, job.userId, job.processId, job.total, link, job.delay, l0, []);
  }

  /** A validated request is denied exactly when the reset record breaks a
      rule; otherwise it continues on the checked store. */
  lemma RunProcessSplits(st: Store, job: Job, link: string, env: Env)
    ensures var c := CheckedRecord(st, job.userId, env.now); var s2 := Checked(st, job, link, env);
      && LimitKey(job.userId) in s2.userLimits
      && RunProcess(st, job, link, env)
        == (if Decide(c, job.total).Some?
            then Outcome(Abandon(s2, job.userId, job.processId, LimitCheckFailed(Decide(c, job.total).value)),
                         LimitDenied(Decide(c, job.total).value), [])
            else AfterCheck(s2, job, link, env))
  {
    CheckedEffect(st, job, link, env);
  }

  /** A request that passes validation and the quota check. */
  predicate Admitted(st: Store, req: ShareRequest, env: Env) {
    && RequestedCount(req).Some?
    && Decide(CheckedRecord(st, UserId(req.cookie), env.now), RequestedCount(req).value) == None
  }

  /** A validated request runs its job. */
  lemma HandleShareRuns(st: Store, req: ShareRequest, env: Env)
    requires RequestedCount(req).Some?
    ensures HandleShare(st, req, env) == RunProcess(st, JobOf(req, env, RequestedCount(req).value), req.link, env)
  {
  }

  // ---------------------------------------------------------------------
  // Responses.

  /** Which response the handler gives, for every request. */
  lemma ShareResponses(st: Store, req: ShareRequest, env: Env)
    ensures var r := HandleShare(st, req, env).response; var n := RequestedCount(req);
      && (r == MissingParameters <==> MissingRequired(req))
      && (r == LimitOutOfRange <==> !MissingRequired(req) && n.None?)
      && (r.LimitDenied? <==> n.Some? && !Admitted(st, req, env))
      && (r.LimitDenied? ==> r.reason == Decide(CheckedRecord(st, UserId(req.cookie), env.now), n.value).value)
      && (r == TokenExtractionFailed <==> Admitted(st, req, env) && env.token == "")
      && (r.Finished? <==> Admitted(st, req, env) && env.token != "")
  {
    if RequestedCount(req).Some? {
      var job := JobOf(req, env, RequestedCount(req).value);
      HandleShareRuns(st, req, env);
      RunProcessSplits(st, job, req.link, env);
      if Admitted(st, req, env) {
        var s2 := Checked(st, job, req.link, env);
        if env.token == "" {
          AfterCheckNoToken(s2, job, req.link, env);
        } else {
          AfterCheckResponse(s2, job, req.link, env);
        }
      }
    }
  }

  /** A request refused by validation changes nothing and waits for nothing. */
  lemma ShareInvalidUnchanged(st: Store, req: ShareRequest, env: Env)
    requires RequestedCount(req).None?
    ensures HandleShare(st, req, env).store == st
    ensures HandleShare(st, req, env).waits == []
  {
  }

  // ---------------------------------------------------------------------
  // Refused requests.

  lemma RemoveUpdated<K, V>(m: map<K, V>, k: K, v: V)
    ensures m[k := v] - {k} == m - {k}
  {
  }

  /** A request refused by the quota check or for want of a token: the
      record keeps the window resets the check applied but is not charged,
      the process is no longer active, the user has a (possibly empty)
      history, and no wait happened. */
  lemma ShareRejected(st: Store, req: ShareRequest, env: Env)
    requires RequestedCount(req).Some?
    requires !(Admitted(st, req, env) && env.token != "")
    ensures var o := HandleShare(st, req, env); var uid := UserId(req.cookie); var pid := env.processId;
      && o.store.userLimits == st.userLimits[LimitKey(uid) := CheckedRecord(st, uid, env.now)]
      && o.store.userStats == st.userStats
      && o.store.userHistory == st.userHistory[uid := HistoryOf(st, uid)]
      && o.store.activeProcesses == st.activeProcesses - {pid}
      && o.store.processLogs.Keys == st.processLogs.Keys + {LogKey(pid)}
      && (forall q :: q in st.processLogs && q != LogKey(pid) ==> o.store.processLogs[q] == st.processLogs[q])
      && (LogsCapped(st) ==> LogsCapped(o.store))
      && o.waits == []
  {
    var job := JobOf(req, env, RequestedCount(req).value);
    var s2 := Checked(st, job, req.link, env);
    var uid, pid := job.userId, job.processId;
    HandleShareRuns(st, req, env);
    RunProcessSplits(st, job, req.link, env);
    CheckedEffect(st, job, req.link, env);
    RemoveUpdated(st.activeProcesses, pid, ActiveProcess(uid, Processing, 0, job.total, 0, 0));
    var d := Decide(CheckedRecord(st, uid, env.now), job.total);
    if d.Some? {
      AbandonEffect(s2, uid, pid, LimitCheckFailed(d.value));
    } else {
      AfterCheckNoToken(s2, job, req.link, env);
    }
  }

  /** The entries a refused request leaves in its process's log. */
  function RejectedEntries(st: Store, req: ShareRequest, env: Env): seq<LogEntry>
    requires RequestedCount(req).Some?
  {
    var n := RequestedCount(req).value;
    var opening := OpeningEntries(n, req.link, DelayOf(req.delay));
    match Decide(CheckedRecord(st, UserId(req.cookie), env.now), n)
    case Some(d) => opening + [LogEntry(LimitCheckFailed(d), Error)]
    case None => opening + [LogEntry(LimitsPassed, Success), LogEntry(ExtractingToken, Info),
                            LogEntry(TokenMissing, Error)]
  }

  /** The log of a refused request: the opening entries, then the reason. */
  lemma ShareRejectedLog(st: Store, req: ShareRequest, env: Env)
    requires RequestedCount(req).Some?
    requires !(Admitted(st, req, env) && env.token != "")
    requires |LogOf(st, env.processId)| <= MaxProcessLogs
    ensures LogOf(HandleShare(st, req, env).store, env.processId)
      == Newest(LogOf(st, env.processId) + RejectedEntries(st, req, env))
  {
    var job := JobOf(req, env, RequestedCount(req).value);
    var s2 := Checked(st, job, req.link, env);
    var uid, pid := job.userId, job.processId;
    var l0 := LogOf(st, pid);
    var opening := OpeningEntries(job.total, req.link, job.delay);
    HandleShareRuns(st, req, env);
    RunProcessSplits(st, job, req.link, env);
    CheckedLog(st, job, req.link, env);
    var d := Decide(CheckedRecord(st, uid, env.now), job.total);
    if d.Some? {
      AddLogNewest(s2, uid, pid, LimitCheckFailed(d.value), Error, l0, opening);
    } else {
      AfterCheckNoTokenLog(s2, job, req.link, env, l0, opening);
    }
  }

  // ---------------------------------------------------------------------
  // Finished runs.

  /** An admitted request with a token continues past the check, on the
      checked store, with the reset record and a positive count. */
  lemma HandleShareFinishes(st: Store, req: ShareRequest, env: Env)
    requires Admitted(st, req, env) && env.token != ""
    ensures var n := RequestedCount(req).value; var job := JobOf(req, env, n);
      var s2 := Checked(st, job, req.link, env); var key := LimitKey(UserId(req.cookie));
      && n > 0 && job.total == n && job.userId == UserId(req.cookie) && job.processId == env.processId
      && key in s2.userLimits && s2.userLimits[key] == CheckedRecord(st, UserId(req.cookie), env.now)
      && HandleShare(st, req, env) == AfterCheck(s2, job, req.link, env)
  {
    var n := RequestedCount(req).value;
    var job := JobOf(req, env, n);
    HandleShareRuns(st, req, env);
    RunProcessSplits(st, job, req.link, env);
    CheckedEffect(st, job, req.link, env);
  }

  /** An admitted request with a token reports every call in order, splits
      them into successes and failures, reports the charged counters within
      the caps, and waits before every call but the first (not at all when
      the delay is not a number). */
  lemma ShareFinished(st: Store, req: ShareRequest, env: Env)
    requires Admitted(st, req, env) && env.token != ""
    ensures var o := HandleShare(st, req, env); var n := RequestedCount(req).value;
      var c := CheckedRecord(st, UserId(req.cookie), env.now);
      var today, hour := c.sharesToday + n, c.sharesThisHour + n;
      && o.response.Finished?
      && o.response.summary.total == n && o.response.summary.processId == env.processId
      && o.response.summary.success == Successes(env.share, n)
      && o.response.summary.success + o.response.summary.failed == n
      && |o.response.summary.results| == n
      && (forall j :: 0 <= j < n ==> o.response.summary.results[j] == ResultEntry(j + 1, env.share(j)))
      && o.response.summary.sharesToday == today && o.response.summary.sharesHour == hour
      && o.response.summary.remainingToday == MaxPerDay - today >= 0
      && o.response.summary.remainingHour == MaxPerHour - hour >= 0
      && |o.waits| == (if Positive(DelayOf(req.delay)) then n - 1 else 0)
      && (forall j :: 0 <= j < |o.waits| ==> o.waits[j] == j + 1)
  {
    var n := RequestedCount(req).value;
    var job := JobOf(req, env, n);
    var s2 := Checked(st, job, req.link, env);
    var c := CheckedRecord(st, job.userId, env.now);
    HandleShareFinishes(st, req, env);
    AfterCheckResponse(s2, job, req.link, env);
    CountsAfter(job, n);
    assert !Violates(c, n, HourlyCap) && !Violates(c, n, DailyCap);
  }

  /** The quota record after a finished run of `n` calls with tallies `t`:
      the reset record charged with the count, credited with each success and
      failure, and stamped with the finishing time. */
  function Charged(c: UserLimits, n: nat, t: Tally, at: int): UserLimits {
    Commit(c, n).(successfulShares := c.successfulShares + t.success,
                  failedShares := c.failedShares + t.failed, lastShareTime := at)
  }

  /** An admitted request with a token charges the reset record with the
      requested count, credits each success and failure, stays within the
      caps, and touches no other user's record. */
  lemma ShareFinishedQuota(st: Store, req: ShareRequest, env: Env)
    requires Admitted(st, req, env) && env.token != ""
    ensures var r := HandleShare(st, req, env).store.userLimits; var n := RequestedCount(req).value;
      var key := LimitKey(UserId(req.cookie)); var c := CheckedRecord(st, UserId(req.cookie), env.now);
      && r.Keys == st.userLimits.Keys + {key}
      && r[key] == Charged(c, n, Counts(JobOf(req, env, n), n), env.finishedAt)
      && WithinCaps(r[key])
      && (forall q :: q in st.userLimits && q != key ==> r[q] == st.userLimits[q])
  {
    var n := RequestedCount(req).value;
    var job := JobOf(req, env, n);
    var s2 := Checked(st, job, req.link, env);
    HandleShareFinishes(st, req, env);
    CheckedEffect(st, job, req.link, env);
    QuotaAfterCheck(st, s2, job, req.link, env, CheckedRecord(st, job.userId, env.now));
  }

  /** The finished run's quota record, on any store whose record map is
      the original one with the reset record in place. */
  lemma QuotaAfterCheck(st: Store, s2: Store, job: Job, link: string, env: Env, c: UserLimits)
    requires s2.userLimits == st.userLimits[LimitKey(job.userId) := c]
    requires env.token != "" && Decide(c, job.total) == None
    ensures var r := AfterCheck(s2, job, link, env).store.userLimits; var key := LimitKey(job.userId);
      && r.Keys == st.userLimits.Keys + {key}
      && r[key] == Charged(c, job.total, Counts(job, job.total), env.finishedAt)
      && WithinCaps(r[key])
      && (forall q :: q in st.userLimits && q != key ==> r[q] == st.userLimits[q])
  {
    AfterCheckQuota(s2, job, link, env);
  }

  /** A finished run adds one session to the user's history. */
  lemma ShareFinishedHistory(st: Store, req: ShareRequest, env: Env)
    requires Admitted(st, req, env) && env.token != ""
    ensures var uid, n := UserId(req.cookie), RequestedCount(req).value; var job := JobOf(req, env, n);
      HandleShare(st, req, env).store.userHistory
        == st.userHistory[uid := HistoryOf(st, uid) + [SessionOf(job, Counts(job, n), req.link)]]
  {
    var n := RequestedCount(req).value;
    var job := JobOf(req, env, n);
    var uid := job.userId;
    var s2 := Checked(st, job, req.link, env);
    var e := SessionOf(job, Counts(job, n), req.link);
    HandleShareFinishes(st, req, env);
    CheckedEffect(st, job, req.link, env);
    AfterCheckHistory(s2, job, req.link, env);
    UpdateTwice(st.userHistory, uid, HistoryOf(st, uid), HistoryOf(st, uid) + [e]);
  }

  /** The user's stats after a finished run: the lifetime totals of the
      charged record. */
  function Lifetime(c: UserLimits, n: nat, t: Tally): UserStats {
    UserStats(c.totalShares + n, c.successfulShares + t.success, c.failedShares + t.failed)
  }

  /** A finished run stores the user's lifetime totals as the stats. */
  lemma ShareFinishedStats(st: Store, req: ShareRequest, env: Env)
    requires Admitted(st, req, env) && env.token != ""
    ensures var uid, n := UserId(req.cookie), RequestedCount(req).value;
      HandleShare(st, req, env).store.userStats
        == st.userStats[uid := Lifetime(CheckedRecord(st, uid, env.now), n, Counts(JobOf(req, env, n), n))]
  {
    var n := RequestedCount(req).value;
    var job := JobOf(req, env, n);
    var s2 := Checked(st, job, req.link, env);
    HandleShareFinishes(st, req, env);
    CheckedEffect(st, job, req.link, env);
    StatsAfterCheck(st, s2, job, req.link, env, CheckedRecord(st, job.userId, env.now));
  }

  lemma StatsAfterCheck(st: Store, s2: Store, job: Job, link: string, env: Env, c: UserLimits)
    requires LimitKey(job.userId) in s2.userLimits && s2.userLimits[LimitKey(job.userId)] == c
    requires s2.userStats == st.userStats
    requires env.token != "" && job.total > 0
    ensures AfterCheck(s2, job, link, env).store.userStats
      == st.userStats[job.userId := Lifetime(c, job.total, Counts(job, job.total))]
  {
    AfterCheckStats(s2, job, link, env);
  }

  /** A finished run leaves its process completed, with the run's counts,
      and every other process as it was. */
  lemma ShareFinishedProcess(st: Store, req: ShareRequest, env: Env)
    requires Admitted(st, req, env) && env.token != ""
    ensures var uid, pid, n := UserId(req.cookie), env.processId, RequestedCount(req).value;
      var t := Counts(JobOf(req, env, n), n); var r := HandleShare(st, req, env).store.activeProcesses;
      && r.Keys == st.activeProcesses.Keys + {pid}
      && r[pid] == ActiveProcess(uid, Completed, n, n, t.success, t.failed)
      && (forall p :: p in st.activeProcesses && p != pid ==> r[p] == st.activeProcesses[p])
  {
    var n := RequestedCount(req).value;
    var job := JobOf(req, env, n);
    var s2 := Checked(st, job, req.link, env);
    HandleShareFinishes(st, req, env);
    CheckedEffect(st, job, req.link, env);
    ProcessAfterCheck(st, s2, job, req.link, env);
  }

  lemma ProcessAfterCheck(st: Store, s2: Store, job: Job, link: string, env: Env)
    requires LimitKey(job.userId) in s2.userLimits
    requires s2.activeProcesses
      == st.activeProcesses[job.processId := ActiveProcess(job.userId, Processing, 0, job.total, 0, 0)]
    requires env.token != "" && job.total > 0
    ensures var pid, t := job.processId, Counts(job, job.total);
      var r := AfterCheck(s2, job, link, env).store.activeProcesses;
      && r.Keys == st.activeProcesses.Keys + {pid}
      && r[pid] == ActiveProcess(job.userId, Completed, job.total, job.total, t.success, t.failed)
      && (forall p :: p in st.activeProcesses && p != pid ==> r[p] == st.activeProcesses[p])
  {
    AfterCheckProcess(s2, job, link, env);
  }

  /** A finished run writes only to its own process's log and keeps every
      log within the cap. */
  lemma ShareFinishedLogs(st: Store, req: ShareRequest, env: Env)
    requires Admitted(st, req, env) && env.token != ""
    ensures var r := HandleShare(st, req, env).store; var key := LogKey(env.processId);
      && r.processLogs.Keys == st.processLogs.Keys + {key}
      && (forall q :: q in st.processLogs && q != key ==> r.processLogs[q] == st.processLogs[q])
      && (LogsCapped(st) ==> LogsCapped(r))
  {
    var n := RequestedCount(req).value;
    var job := JobOf(req, env, n);
    var s2 := Checked(st, job, req.link, env);
    HandleShareFinishes(st, req, env);
    CheckedEffect(st, job, req.link, env);
    AfterCheckLogs(s2, job, req.link, env);
  }

  /** The log of a finished run: the newest entries of the opening entries,
      the token and start entries, two entries per call, and the completion. */
  lemma ShareFinishedLog(st: Store, req: ShareRequest, env: Env)
    requires Admitted(st, req, env) && env.token != ""
    requires |LogOf(st, env.processId)| <= MaxProcessLogs
    ensures var n := RequestedCount(req).value; var job := JobOf(req, env, n);
      LogOf(HandleShare(st, req, env).store, env.processId)
        == Newest(LogOf(st, env.processId) + (OpeningEntries(n, req.link, job.delay) + RunEntries(job, env)))
  {
    var n := RequestedCount(req).value;
    var job := JobOf(req, env, n);
    var s2 := Checked(st, job, req.link, env);
    HandleShareRuns(st, req, env);
    RunProcessSplits(st, job, req.link, env);
    CheckedLog(st, job, req.link, env);
    AfterCheckLog(s2, job, req.link, env, LogOf(st, env.processId), OpeningEntries(n, req.link, job.delay));
  }

  // ---------------------------------------------------------------------
  // The store invariant.

  /** The reset record of a store that satisfies the invariant is within
      the caps and balanced: a new record is all zeros, and a reset only
      zeroes window counters. */
  lemma CheckedRecordSound(st: Store, uid: string, now: int)
    requires Invariant(st)
    ensures WithinCaps(CheckedRecord(st, uid, now)) && Balanced(CheckedRecord(st, uid, now))
  {
    var key := LimitKey(uid);
    if key in st.userLimits {
      assert WithinCaps(st.userLimits[key]) && Balanced(st.userLimits[key]);
    }
  }

  /** A finished run's record is balanced when the reset record was, since
      each of the `n` reserved shares is credited exactly once, and within
      the caps when the request was admitted. */
  lemma ChargedSound(c: UserLimits, job: Job, at: int)
    requires Balanced(c) && Decide(c, job.total) == None
    ensures Balanced(Charged(c, job.total, Counts(job, job.total), at))
    ensures WithinCaps(Charged(c, job.total, Counts(job, job.total), at))
  {
    CountsAfter(job, job.total);
  }

  /** A store that differs from one satisfying the invariant only in one
      sound record and in capped logs satisfies it too. */
  lemma InvariantAfterUpdate(st: Store, r: Store, key: string)
    requires Invariant(st) && LogsCapped(r)
    requires r.userLimits.Keys == st.userLimits.Keys + {key}
    requires forall q :: q in st.userLimits && q != key ==> r.userLimits[q] == st.userLimits[q]
    requires WithinCaps(r.userLimits[key]) && Balanced(r.userLimits[key])
    ensures Invariant(r)
  {
  }

  lemma FinishedKeepsInvariant(st: Store, req: ShareRequest, env: Env)
    requires Invariant(st) && Admitted(st, req, env) && env.token != ""
    ensures Invariant(HandleShare(st, req, env).store)
  {
    var uid, n := UserId(req.cookie), RequestedCount(req).value;
    var job := JobOf(req, env, n);
    var key, c := LimitKey(uid), CheckedRecord(st, uid, env.now);
    CheckedRecordSound(st, uid, env.now);
    ShareFinishedQuota(st, req, env);
    ShareFinishedLogs(st, req, env);
    assert job.total == n;
    ChargedSound(c, job, env.finishedAt);
    InvariantAfterUpdate(st, HandleShare(st, req, env).store, key);
  }

  lemma RejectedKeepsInvariant(st: Store, req: ShareRequest, env: Env)
    requires Invariant(st) && RequestedCount(req).Some? && !(Admitted(st, req, env) && env.token != "")
    ensures Invariant(HandleShare(st, req, env).store)
  {
    var uid := UserId(req.cookie);
    CheckedRecordSound(st, uid, env.now);
    ShareRejected(st, req, env);
    InvariantAfterUpdate(st, HandleShare(st, req, env).store, LimitKey(uid));
  }

  /** Every share request keeps the invariant: the caps hold, every record
      is balanced, and every log stays within its cap. */
  lemma ShareKeepsInvariant(st: Store, req: ShareRequest, env: Env)
    requires Invariant(st)
    ensures Invariant(HandleShare(st, req, env).store)
  {
    if RequestedCount(req).None? {
      ShareInvalidUnchanged(st, req, env);
    } else if Admitted(st, req, env) && env.token != "" {
      FinishedKeepsInvariant(st, req, env);
    } else {
      RejectedKeepsInvariant(st, req, env);
    }
  }
}

/** The in-memory state of the share backend (`realData` in index.js) as a
    value, and the effect of each core operation on it as a function: the
    process log, the quota check, the `/api/share` handler with its counting
    loop, the `/api/clear-data` deletion and the recent-history view. The
    class in server.dfy performs these operations in place and is proved to
    agree with the functions here; server_lemmas.dfy proves what they promise. */
module ServerState {

  import opened Wrappers
  import opened JsValues
  import opened Limits

  /** Maximum number of entries kept in one process log. */
  const MaxProcessLogs := 100

  /** The `type` of a log entry ('processing' is called Progress here). */
  datatype LogType = Start | Info | Success | Error | Progress | Complete

  /** What a log entry reports; the text the source formats around these
      values is not modelled. */
  datatype LogMessage =
    | StartingProcess(limit: nat)
    | PostLink(prefix: string)
    | DelayBetweenShares(delay: Parsed)
    | LimitCheckFailed(reason: Denial)
    | LimitsPassed
    | ExtractingToken
    | TokenMissing
    | TokenExtracted(prefix: string)
    | SharingStarted
    | ShareAttempt(index: nat, total: nat)
    | ShareSucceeded(index: nat)
    | ShareFailed(index: nat, error: string)
    | ProcessCompleted(success: nat, failed: nat)

  datatype LogEntry = LogEntry(message: LogMessage, kind: LogType)

  /** The outcome of one call to the share endpoint of the third party. */
  datatype ShareResult = Shared(postId: string) | NotShared(error: string)

  /** One element of the handler's `results` array. */
  datatype ResultEntry = ResultEntry(index: nat, result: ShareResult)

  datatype HistoryEntry = HistoryEntry(
    id: string, userId: string, postLink: string, limit: nat, delay: Parsed,
    success: nat, failed: nat, results: seq<ResultEntry>)

  datatype UserStats = UserStats(totalShares: nat, successfulShares: nat, failedShares: nat)

  datatype ProcessStatus = Processing | Completed

  /** An entry of `activeProcesses`; the fields the source adds later
      (`current`, `successCount`, `failedCount`) start at 0 here. */
  datatype ActiveProcess = ActiveProcess(
    userId: string, status: ProcessStatus, current: nat, total: nat,
    successCount: nat, failedCount: nat)

  datatype Store = Store(
    userLimits: map<string, UserLimits>,
    userHistory: map<string, seq<HistoryEntry>>,
    userStats: map<string, UserStats>,
    processLogs: map<string, seq<LogEntry>>,
    activeProcesses: map<string, ActiveProcess>)

  function EmptyStore(): Store {
    Store(map[], map[], map[], map[], map[])
  }

  /** `getUserId`: the user bucket is determined by the first 100 characters
      of the cookie. The source stores the base64 image of their UTF-8
      encoding, which stands for the prefix one to one only while the cut
      does not split a surrogate pair (a model character is a code point,
      not a UTF-16 code unit). */
  function UserId(cookie: string): string
  {
    if |cookie| <= 100 then cookie else cookie[..100]
  }

  function LimitKey(userId: string): string {
    "user_" + userId
  }

  function LogKey(processId: string): string {
    "process_" + processId
  }

  /** `s.substring(0, n)`. */
  function Prefix(s: string, n: nat): string {
    if |s| <= n then s else s[..n]
  }

  function LogOf(st: Store, processId: string): seq<LogEntry> {
    var key := LogKey(processId);
    if key in st.processLogs then st.processLogs[key] else []
  }

  function HistoryOf(st: Store, userId: string): seq<HistoryEntry> {
    if userId in st.userHistory then st.userHistory[userId] else []
  }

  /** Every process log holds at most the capped number of entries. */
  predicate LogsCapped(st: Store) {
    forall q :: q in st.processLogs ==> |st.processLogs[q]| <= MaxProcessLogs
  }

  /** What every reachable store satisfies: the hourly and daily caps hold
      for every user, every reserved share has been counted as a success or
      a failure, and no process log exceeds its cap. */
  predicate Invariant(st: Store) {
    && (forall k :: k in st.userLimits ==> WithinCaps(st.userLimits[k]))
    && (forall k :: k in st.userLimits ==> Balanced(st.userLimits[k]))
    && LogsCapped(st)
  }

  /** The newest entries of `s`, at most the cap of them. */
  function Newest(s: seq<LogEntry>): seq<LogEntry> {
    if |s| > MaxProcessLogs then s[|s| - MaxProcessLogs..] else s
  }

  /** Push onto a process log, then drop the oldest entry once the log is
      longer than the cap. */
  function AppendCapped(log: seq<LogEntry>, e: LogEntry): seq<LogEntry> {
    var grown := log + [e];
    if |grown| > MaxProcessLogs then grown[1..] else grown
  }

  /** `addProcessLog`: append to the process's log (created on demand),
      create an empty history for the user if it has none, and cap the log. */
  function AddLog(st: Store, userId: string, processId: string,
                  message: LogMessage, kind: LogType): (r: Store)
    ensures r.userLimits == st.userLimits && r.userStats == st.userStats
    ensures r.activeProcesses == st.activeProcesses
    ensures r.userHistory == st.userHistory[userId := HistoryOf(st, userId)]
  {
    var key := LogKey(processId);
    st.(processLogs := st.processLogs[key := AppendCapped(LogOf(st, processId), LogEntry(message, kind))],
        userHistory := if userId in st.userHistory then st.userHistory else st.userHistory[userId := []])
  }

  /** The record the quota check leaves for a user: the stored one, or a
      fresh one on first sight, with its elapsed windows reset. */
  function CheckedRecord(st: Store, userId: string, now: int): UserLimits {
    var key := LimitKey(userId);
    ResetWindows(if key in st.userLimits then st.userLimits[key] else Fresh(now), now)
  }

  /** `checkRealLimits` on the store: create the user's record on first
      sight, reset its elapsed windows, and decide on the reset record. */
  function CheckLimits(st: Store, userId: string, requested: int, now: int): (r: (Store, Option<Denial>))
    ensures var key := LimitKey(userId);
      && r.0 == st.(userLimits := r.0.userLimits)
      && r.0.userLimits.Keys == st.userLimits.Keys + {key}
      && (forall k :: k in st.userLimits && k != key ==> r.0.userLimits[k] == st.userLimits[k])
      && r.1 == Decide(r.0.userLimits[key], requested)
    // the stored record (or a fresh one on first sight) with its elapsed windows reset
    ensures var key := LimitKey(userId);
      r.0.userLimits[key] == ResetWindows(if key in st.userLimits then st.userLimits[key] else Fresh(now), now)
    // on first sight every counter is zero and both anchors are now
    ensures var u := r.0.userLimits[LimitKey(userId)];
      LimitKey(userId) !in st.userLimits ==>
        && u.sharesToday == 0 && u.sharesThisHour == 0 && u.totalShares == 0
        && u.successfulShares == 0 && u.failedShares == 0 && u.lastShareTime == 0
        && u.lastResetHour == now && u.lastResetDay == now
  {
    var u := CheckedRecord(st, userId, now);
    (st.(userLimits := st.userLimits[LimitKey(userId) := u]), Decide(u, requested))
  }

  // ---------------------------------------------------------------------
  // The `/api/share` handler.

  /** The body of a share request. */
  datatype ShareRequest = ShareRequest(cookie: string, link: string, limit: Field, delay: Field)

  /** What the handler takes from outside: the process id (the clock's
      `Date.now().toString()`), the clock readings of the quota check and of
      the end of the run, the token extracted from the cookie ("" when none
      was found) and the result of the i-th call to the share endpoint. */
  datatype Env = Env(processId: string, now: int, finishedAt: int, token: string,
                     share: nat -> ShareResult)

  datatype Summary = Summary(
    total: nat, success: nat, failed: nat, results: seq<ResultEntry>, processId: string,
    remainingToday: int, remainingHour: int, sharesToday: nat, sharesHour: nat)

  datatype ShareResponse =
    | MissingParameters
    | LimitOutOfRange
    | LimitDenied(reason: Denial)
    | TokenExtractionFailed
    | Finished(summary: Summary)

  /** The handler's result: the new store, the response, and the iterations
      (0-based) before which it waited `delayNum` milliseconds. */
  datatype Outcome = Outcome(store: Store, response: ShareResponse, waits: seq<nat>)

  /** The fixed part of one run of the counting loop. */
  datatype Job = Job(userId: string, processId: string, total: nat, delay: Parsed,
                     share: nat -> ShareResult)

  /** The loop's local variables `successCount`, `failedCount`, `results`,
      and the waits performed so far. */
  datatype Tally = Tally(success: nat, failed: nat, results: seq<ResultEntry>, waits: seq<nat>)

  /** `activeProcess.current = i + 1`, when the process is still active. */
  function MarkCurrent(st: Store, pid: string, current: nat): Store {
    if pid in st.activeProcesses
    then st.(activeProcesses := st.activeProcesses[pid := st.activeProcesses[pid].(current := current)])
    else st
  }

  /** One call's outcome on the user's lifetime counters. */
  function Counted(u: UserLimits, res: ShareResult): UserLimits {
    if res.Shared? then u.(successfulShares := u.successfulShares + 1)
    else u.(failedShares := u.failedShares + 1)
  }

  /** The log entry written for one call's outcome. */
  function OutcomeEntry(index: nat, res: ShareResult): LogEntry {
    if res.Shared? then LogEntry(ShareSucceeded(index), Success)
    else LogEntry(ShareFailed(index, res.error), Error)
  }

  /** Count one call's outcome on the user's record and log it. The counter
      and the log live in different maps, so the order of the two updates
      does not matter; the log is written first here. */
  function RecordOutcome(st: Store, uid: string, pid: string, index: nat, res: ShareResult): Store
    requires LimitKey(uid) in st.userLimits
  {
    var entry := OutcomeEntry(index, res);
    var s := AddLog(st, uid, pid, entry.message, entry.kind);
    var key := LimitKey(uid);
    s.(userLimits := s.userLimits[key := Counted(s.userLimits[key], res)])
  }

  /** Iteration `i` of the counting loop on the store: progress, the attempt
      log entry, then the call's outcome. */
  function StepStore(st: Store, job: Job, i: nat): Store
    requires LimitKey(job.userId) in st.userLimits
  {
    var s1 := MarkCurrent(st, job.processId, i + 1);
    var s2 := AddLog(s1, job.userId, job.processId, ShareAttempt(i + 1, job.total), Progress);
    RecordOutcome(s2, job.userId, job.processId, i + 1, job.share(i))
  }

  /** Iteration `i` of the counting loop on its local variables. */
  function StepTally(t: Tally, job: Job, i: nat): Tally {
    var res := job.share(i);
    Tally(if res.Shared? then t.success + 1 else t.success,
          if res.Shared? then t.failed else t.failed + 1,
          t.results + [ResultEntry(i + 1, res)],
          if i > 0 && Positive(job.delay) then t.waits + [i] else t.waits)
  }

  /** The store after the first `k` iterations of the loop. */
  function Loop(st: Store, job: Job, k: nat): (r: Store)
    requires LimitKey(job.userId) in st.userLimits
    ensures LimitKey(job.userId) in r.userLimits
  {
    if k == 0 then st else StepStore(Loop(st, job, k - 1), job, k - 1)
  }

  /** The local variables after the first `k` iterations of the loop. */
  function Counts(job: Job, k: nat): Tally {
    if k == 0 then Tally(0, 0, [], []) else StepTally(Counts(job, k - 1), job, k - 1)
  }

  /** Opening a process: register it as active and write its three opening
      log entries. */
  function OpenProcess(st: Store, uid: string, pid: string, n: nat, link: string, delay: Parsed): Store {
    var s1 := st.(activeProcesses := st.activeProcesses[pid := ActiveProcess(uid, Processing, 0, n, 0, 0)]);
    var s2 := AddLog(s1, uid, pid, StartingProcess(n), Start);
    var s3 := AddLog(s2, uid, pid, PostLink(Prefix(link, 50)), Info);
    AddLog(s3, uid, pid, DelayBetweenShares(delay), Info)
  }

  /** Giving up on a process: log the error and forget the active entry. */
  function Abandon(st: Store, uid: string, pid: string, message: LogMessage): Store {
    var s := AddLog(st, uid, pid, message, Error);
    s.(activeProcesses := s.activeProcesses - {pid})
  }

  /** After the loop: the last share time, the history entry, the stats, the
      completion log and the final state of the active entry. */
  function Finish(st: Store, job: Job, t: Tally, link: string, finishedAt: int): Outcome
    requires LimitKey(job.userId) in st.userLimits
  {
    var uid, pid, key := job.userId, job.processId, LimitKey(job.userId);
    var u := st.userLimits[key].(lastShareTime := finishedAt);
    var s1 := st.(userLimits := st.userLimits[key := u]);
    var entry := HistoryEntry(pid, uid, link, job.total, job.delay, t.success, t.failed, t.results);
    var s2 := s1.(userHistory := s1.userHistory[uid := HistoryOf(s1, uid) + [entry]]);
    var s3 := s2.(userStats := s2.userStats[uid := UserStats(u.totalShares, u.successfulShares, u.failedShares)]);
    var s4 := AddLog(s3, uid, pid, ProcessCompleted(t.success, t.failed), Complete);
    var s5 := if pid in s4.activeProcesses
              then s4.(activeProcesses := s4.activeProcesses[pid := s4.activeProcesses[pid].(
                         status := Completed, successCount := t.success, failedCount := t.failed)])
              else s4;
    Outcome(s5, Finished(Summary(job.total, t.success, t.failed, t.results, pid,
                                 MaxPerDay - u.sharesToday, MaxPerHour - u.sharesThisHour,
                                 u.sharesToday, u.sharesThisHour)), t.waits)
  }

  /** Between the token and the loop: log the token, commit the reserved
      count to the user's record, and log the start of the loop. */
  function BeginSharing(st: Store, uid: string, pid: string, n: nat, token: string): Store
    requires LimitKey(uid) in st.userLimits
  {
    var s1 := AddLog(st, uid, pid, TokenExtracted(Prefix(token, 15)), Success);
    var key := LimitKey(uid);
    var s2 := s1.(userLimits := s1.userLimits[key := Commit(s1.userLimits[key], n)]);
    AddLog(s2, uid, pid, SharingStarted, Progress)
  }

  /** `!cookie || !post_link || !limit`. */
  predicate MissingRequired(req: ShareRequest) {
    req.cookie == "" || req.link == "" || Falsy(req.limit)
  }

  /** The share count of a request that passes both validation steps. */
  function RequestedCount(req: ShareRequest): Option<nat> {
    if MissingRequired(req) then None else LimitValue(ParseField(req.limit))
  }

  /** The number of calls among the first `k` that succeeded. */
  function Successes(share: nat -> ShareResult, k: nat): nat {
    if k == 0 then 0 else Successes(share, k - 1) + (if share(k - 1).Shared? then 1 else 0)
  }

  /** The two entries logged once the quota check has passed. */
  function CheckPassed(st: Store, uid: string, pid: string): Store {
    AddLog(AddLog(st, uid, pid, LimitsPassed, Success), uid, pid, ExtractingToken, Info)
  }

  /** After a passed quota check: log it, ask for the token, and either
      give up for want of one or run the loop and finish. */
  function AfterCheck(st: Store, job: Job, link: string, env: Env): Outcome
    requires LimitKey(job.userId) in st.userLimits
  {
    var uid, pid, n := job.userId, job.processId, job.total;
    var s1 := CheckPassed(st, uid, pid);
    if env.token == "" then
      Outcome(Abandon(s1, uid, pid, TokenMissing), TokenExtractionFailed, [])
    else
      Finish(Loop(BeginSharing(s1, uid, pid, n, env.token), job, n), job, Counts(job, n), link, env.finishedAt)
  }

  /** A validated request from the opening of its process to the response. */
  function RunProcess(st: Store, job: Job, link: string, env: Env): Outcome {
    var uid, pid, n := job.userId, job.processId, job.total;
    var s1 := OpenProcess(st, uid, pid, n, link, job.delay);
    var checked := CheckLimits(s1, uid, n, env.now);
    if checked.1.Some? then
      Outcome(Abandon(checked.0, uid, pid, LimitCheckFailed(checked.1.value)), LimitDenied(checked.1.value), [])
    else
      AfterCheck(checked.0, job, link, env)
  }

  /** The loop's fixed part for a validated request. */
  function JobOf(req: ShareRequest, env: Env, n: nat): Job {
    Job(UserId(req.cookie), env.processId, n, DelayOf(req.delay), env.share)
  }

  /** The whole `/api/share` handler, run without interleaving. */
  function HandleShare(st: Store, req: ShareRequest, env: Env): Outcome {
    if MissingRequired(req) then Outcome(st, MissingParameters, [])
    else
      match LimitValue(ParseField(req.limit))
      case None => Outcome(st, LimitOutOfRange, [])
      case Some(n) => RunProcess(st, JobOf(req, env, n), req.link, env)
  }

  // ---------------------------------------------------------------------
  // `/api/clear-data` and the history view of `/api/process-history`.

  datatype ClearResponse = ConfirmationRequired | Cleared

  /** The processes that belong to a user. */
  function OwnedBy(procs: map<string, ActiveProcess>, userId: string): set<string> {
    set p | p in procs && procs[p].userId == userId
  }

  function LogKeys(pids: set<string>): set<string> {
    set p | p in pids :: LogKey(p)
  }

  /** Deleting one user's data: the limits, history and stats entries and
      every active process of the user together with its log. */
  function ClearUser(st: Store, userId: string): Store {
    var doomed := OwnedBy(st.activeProcesses, userId);
    Store(st.userLimits - {LimitKey(userId)},
          st.userHistory - {userId},
          st.userStats - {userId},
          st.processLogs - LogKeys(doomed),
          st.activeProcesses - doomed)
  }

  function HandleClear(st: Store, cookie: string, confirm: string): (Store, ClearResponse) {
    if cookie == "" || confirm != "DELETE" then (st, ConfirmationRequired)
    else (ClearUser(st, UserId(cookie)), Cleared)
  }

  /** `s.reverse()` on a copy. */
  function Reversed<T>(s: seq<T>): seq<T> {
    if s == [] then [] else [s[|s| - 1]] + Reversed(s[..|s| - 1])
  }

  /** `history.slice(-10).reverse()`: the last ten sessions, newest first. */
  function RecentSessions(h: seq<HistoryEntry>): seq<HistoryEntry> {
    Reversed(if |h| <= 10 then h else h[|h| - 10..])
  }
}

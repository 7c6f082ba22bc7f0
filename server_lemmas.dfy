/** What the share backend's operations promise, proved about the functions
    of ServerState. */
module ServerLemmas {

  import opened Wrappers
  import opened JsValues
  import opened Limits
  import opened ServerState

  lemma LogKeyInjective(a: string, b: string)
    ensures LogKey(a) == LogKey(b) <==> a == b
  {
    if LogKey(a) == LogKey(b) {
      assert a == LogKey(a)[8..];
      assert b == LogKey(b)[8..];
    }
  }

  lemma LimitKeyInjective(a: string, b: string)
    ensures LimitKey(a) == LimitKey(b) <==> a == b
  {
    if LimitKey(a) == LimitKey(b) {
      assert a == LimitKey(a)[5..];
      assert b == LimitKey(b)[5..];
    }
  }

  /** A log holds at most the cap, and what it holds is the newest part. */
  lemma NewestIsSuffix(s: seq<LogEntry>)
    ensures |Newest(s)| == if |s| > MaxProcessLogs then MaxProcessLogs else |s|
    ensures Newest(s) == s[|s| - |Newest(s)|..]
  {
  }

  /** Keeping the newest entries at every push or once at the end gives the
      same log. */
  lemma NewestOfNewest(s: seq<LogEntry>, b: seq<LogEntry>)
    ensures Newest(Newest(s) + b) == Newest(s + b)
  {
    if |s| > MaxProcessLogs {
      var d := |s| - MaxProcessLogs;
      assert Newest(s) + b == (s + b)[d..];
      var x := s + b;
      assert |x[d..]| >= MaxProcessLogs;
      assert x[d..][|x[d..]| - MaxProcessLogs..] == x[|x| - MaxProcessLogs..];
    }
  }

  /** The push of `addProcessLog` on a log within the cap: append, then keep
      the newest entries. */
  lemma AppendCappedNewest(log: seq<LogEntry>, e: LogEntry)
    requires |log| <= MaxProcessLogs
    ensures AppendCapped(log, e) == Newest(log + [e])
    ensures |AppendCapped(log, e)| <= MaxProcessLogs
    ensures AppendCapped(log, e)[|AppendCapped(log, e)| - 1] == e
  {
  }

  /** A log that is the newest part of `l0 + es` stays so after one more push. */
  lemma PushNewest(l0: seq<LogEntry>, es: seq<LogEntry>, e: LogEntry)
    ensures AppendCapped(Newest(l0 + es), e) == Newest(l0 + (es + [e]))
  {
    NewestIsSuffix(l0 + es);
    AppendCappedNewest(Newest(l0 + es), e);
    NewestOfNewest(l0 + es, [e]);
    assert l0 + es + [e] == l0 + (es + [e]);
  }

  /** `addProcessLog` appends to its own process's log only, and a log
      never grows past the cap. */
  lemma AddLogEffect(st: Store, userId: string, processId: string, message: LogMessage, kind: LogType)
    ensures var r := AddLog(st, userId, processId, message, kind);
      && LogOf(r, processId) == AppendCapped(LogOf(st, processId), LogEntry(message, kind))
      && r.processLogs.Keys == st.processLogs.Keys + {LogKey(processId)}
      && (forall q :: q in st.processLogs && q != LogKey(processId) ==> r.processLogs[q] == st.processLogs[q])
      && (LogsCapped(st) ==> LogsCapped(r))
  {
    var r := AddLog(st, userId, processId, message, kind);
    if LogsCapped(st) {
      AppendCappedNewest(LogOf(st, processId), LogEntry(message, kind));
    }
  }

  // ---------------------------------------------------------------------
  // The counting loop.

  /** After `k` iterations: exactly `k` results, indexed 1..k in call order,
      split into successes and failures, and a wait before every iteration
      but the first (none at all when the delay is NaN). */
  lemma {:induction false} CountsAfter(job: Job, k: nat)
    ensures var t := Counts(job, k);
      && t.success + t.failed == k
      && t.success == Successes(job.share, k)
      && |t.results| == k
      && (forall j :: 0 <= j < k ==> t.results[j] == ResultEntry(j + 1, job.share(j)))
      && |t.waits| == (if Positive(job.delay) && k > 0 then k - 1 else 0)
      && (forall j :: 0 <= j < |t.waits| ==> t.waits[j] == j + 1)
  {
    if k > 0 {
      CountsAfter(job, k - 1);
    }
  }

  /** The entries one run of the first `k` iterations writes to the
      process's log: the attempt, then the outcome, per iteration. */
  function LoopEntries(job: Job, k: nat): seq<LogEntry> {
    if k == 0 then []
    else LoopEntries(job, k - 1) + [LogEntry(ShareAttempt(k, job.total), Progress),
                                    OutcomeEntry(k, job.share(k - 1))]
  }

  /** One iteration moves exactly one of the user's two lifetime counters
      and no other quota field or record. */
  lemma StepLimits(st: Store, job: Job, i: nat)
    requires LimitKey(job.userId) in st.userLimits
    ensures var key := LimitKey(job.userId); var r := StepStore(st, job, i).userLimits;
      var u := st.userLimits[key]; var res := job.share(i);
      && r.Keys == st.userLimits.Keys
      && r[key].successfulShares == u.successfulShares + (if res.Shared? then 1 else 0)
      && r[key].failedShares == u.failedShares + (if res.Shared? then 0 else 1)
      && r[key].(successfulShares := u.successfulShares, failedShares := u.failedShares) == u
      && (forall q :: q in st.userLimits && q != key ==> r[q] == st.userLimits[q])
  {
  }

  /** After `k` iterations the user's success and failure counters have
      grown by exactly the loop's tallies, and nothing else in the quota
      records has changed. */
  lemma {:induction false} LoopLimits(st: Store, job: Job, k: nat)
    requires LimitKey(job.userId) in st.userLimits
    ensures var key := LimitKey(job.userId); var r := Loop(st, job, k).userLimits;
      var u := st.userLimits[key]; var t := Counts(job, k);
      && r.Keys == st.userLimits.Keys
      && r[key].successfulShares == u.successfulShares + t.success
      && r[key].failedShares == u.failedShares + t.failed
      && r[key].(successfulShares := u.successfulShares, failedShares := u.failedShares) == u
      && (forall q :: q in st.userLimits && q != key ==> r[q] == st.userLimits[q])
  {
    if k > 0 {
      LoopLimits(st, job, k - 1);
      StepLimits(Loop(st, job, k - 1), job, k - 1);
    }
  }

  /** One iteration leaves stats and history alone and moves the active
      entry's progress to the iteration's number. */
  lemma StepFrame(st: Store, job: Job, i: nat)
    requires LimitKey(job.userId) in st.userLimits
    requires job.userId in st.userHistory
    ensures var r := StepStore(st, job, i); var pid := job.processId;
      && r.userStats == st.userStats
      && r.userHistory == st.userHistory
      && r.activeProcesses.Keys == st.activeProcesses.Keys
      && (pid in st.activeProcesses ==> r.activeProcesses[pid] == st.activeProcesses[pid].(current := i + 1))
      && (forall p :: p in st.activeProcesses && p != pid ==> r.activeProcesses[p] == st.activeProcesses[p])
  {
  }

  /** The loop leaves stats and history alone; the active entry, while
      present, records the number of the last iteration started. */
  lemma {:induction false} LoopFrame(st: Store, job: Job, k: nat)
    requires LimitKey(job.userId) in st.userLimits
    requires job.userId in st.userHistory
    ensures var r := Loop(st, job, k); var pid := job.processId;
      && r.userStats == st.userStats
      && r.userHistory == st.userHistory
      && r.activeProcesses.Keys == st.activeProcesses.Keys
      && (pid in st.activeProcesses && k > 0 ==>
            r.activeProcesses[pid] == st.activeProcesses[pid].(current := k))
      && (forall p :: p in st.activeProcesses && p != pid ==> r.activeProcesses[p] == st.activeProcesses[p])
  {
    if k > 0 {
      LoopFrame(st, job, k - 1);
      StepFrame(Loop(st, job, k - 1), job, k - 1);
    }
  }

  /** One iteration writes two entries to its own process's log only. */
  lemma StepLogs(st: Store, job: Job, i: nat)
    requires LimitKey(job.userId) in st.userLimits
    ensures var r := StepStore(st, job, i); var key := LogKey(job.processId);
      && r.processLogs.Keys == st.processLogs.Keys + {key}
      && (forall q :: q in st.processLogs && q != key ==> r.processLogs[q] == st.processLogs[q])
      && (LogsCapped(st) ==> LogsCapped(r))
      && LogOf(r, job.processId)
           == AppendCapped(AppendCapped(LogOf(st, job.processId), LogEntry(ShareAttempt(i + 1, job.total), Progress)),
                           OutcomeEntry(i + 1, job.share(i)))
  {
    var pid := job.processId;
    var s1 := MarkCurrent(st, pid, i + 1);
    var s2 := AddLog(s1, job.userId, pid, ShareAttempt(i + 1, job.total), Progress);
    AddLogEffect(s1, job.userId, pid, ShareAttempt(i + 1, job.total), Progress);
    var e := OutcomeEntry(i + 1, job.share(i));
    AddLogEffect(s2, job.userId, pid, e.message, e.kind);
  }

  /** The loop writes only to its own process's log and keeps every log
      within the cap. */
  lemma {:induction false} LoopLogs(st: Store, job: Job, k: nat)
    requires LimitKey(job.userId) in st.userLimits
    ensures var r := Loop(st, job, k); var key := LogKey(job.processId);
      && r.processLogs.Keys == st.processLogs.Keys + (if k > 0 then {key} else {})
      && (forall q :: q in st.processLogs && q != key ==> r.processLogs[q] == st.processLogs[q])
      && (LogsCapped(st) ==> LogsCapped(r))
  {
    if k > 0 {
      LoopLogs(st, job, k - 1);
      StepLogs(Loop(st, job, k - 1), job, k - 1);
    }
  }

  /** One more push onto a log holding the newest part of `s`. */
  lemma PushOne(s: seq<LogEntry>, e: LogEntry)
    ensures AppendCapped(Newest(s), e) == Newest(s + [e])
  {
    NewestIsSuffix(s);
    AppendCappedNewest(Newest(s), e);
    NewestOfNewest(s, [e]);
  }

  /** The process's log after `k` iterations, pushed entry by entry onto
      the log `log` it started with. */
  function LoopPushes(log: seq<LogEntry>, job: Job, k: nat): seq<LogEntry> {
    if k == 0 then log
    else AppendCapped(AppendCapped(LoopPushes(log, job, k - 1), LogEntry(ShareAttempt(k, job.total), Progress)),
                      OutcomeEntry(k, job.share(k - 1)))
  }

  /** One iteration pushes its two entries onto its own process's log. */
  lemma StepLogOf(st: Store, job: Job, i: nat)
    requires LimitKey(job.userId) in st.userLimits
    ensures LogOf(StepStore(st, job, i), job.processId)
      == AppendCapped(AppendCapped(LogOf(st, job.processId), LogEntry(ShareAttempt(i + 1, job.total), Progress)),
                      OutcomeEntry(i + 1, job.share(i)))
  {
    StepLogs(st, job, i);
  }

  /** Iteration `k - 1` of the loop pushes its two entries. */
  lemma LoopStepLog(st: Store, job: Job, k: nat)
    requires LimitKey(job.userId) in st.userLimits && k > 0
    ensures LogOf(Loop(st, job, k), job.processId)
      == AppendCapped(AppendCapped(LogOf(Loop(st, job, k - 1), job.processId), LogEntry(ShareAttempt(k, job.total), Progress)),
                      OutcomeEntry(k, job.share(k - 1)))
  {
    StepLogOf(Loop(st, job, k - 1), job, k - 1);
  }

  /** The loop's pushes are what happens to the process's log. */
  lemma {:induction false} LoopPushesLog(st: Store, job: Job, k: nat)
    requires LimitKey(job.userId) in st.userLimits
    ensures LogOf(Loop(st, job, k), job.processId) == LoopPushes(LogOf(st, job.processId), job, k)
  {
    if k > 0 {
      LoopPushesLog(st, job, k - 1);
      LoopStepLog(st, job, k);
    }
  }

  /** Regrouping what was written keeps the same newest part. */
  lemma NewestRegroup(l0: seq<LogEntry>, a: seq<LogEntry>, b: seq<LogEntry>)
    ensures Newest(l0 + a + b) == Newest(l0 + (a + b))
  {
    assert l0 + a + b == l0 + (a + b);
  }

  /** Two pushes onto a log holding the newest part of `all`. */
  lemma PushTwo(all: seq<LogEntry>, x: LogEntry, y: LogEntry)
    ensures AppendCapped(AppendCapped(Newest(all), x), y) == Newest(all + [x, y])
  {
    PushOne(all, x);
    PushOne(all + [x], y);
    assert all + [x] + [y] == all + [x, y];
  }

  /** Pushing the loop's entries one by one keeps the newest part of
      everything pushed. */
  lemma {:induction false} LoopPushesNewest(base: seq<LogEntry>, job: Job, k: nat)
    ensures LoopPushes(Newest(base), job, k) == Newest(base + LoopEntries(job, k))
  {
    if k == 0 {
      assert base + LoopEntries(job, k) == base;
    } else {
      var a := LogEntry(ShareAttempt(k, job.total), Progress);
      var b := OutcomeEntry(k, job.share(k - 1));
      LoopPushesNewest(base, job, k - 1);
      PushTwo(base + LoopEntries(job, k - 1), a, b);
      assert base + LoopEntries(job, k) == base + LoopEntries(job, k - 1) + [a, b];
    }
  }

  /** The process's log after the loop holds the newest entries of
      everything written to it, in order. */
  lemma LoopLog(st: Store, job: Job, k: nat, base: seq<LogEntry>)
    requires LimitKey(job.userId) in st.userLimits
    requires LogOf(st, job.processId) == Newest(base)
    ensures LogOf(Loop(st, job, k), job.processId) == Newest(base + LoopEntries(job, k))
  {
    LoopPushesLog(st, job, k);
    LoopPushesNewest(base, job, k);
  }
}

/** The per-user quota record of the share backend and the pure rules of
    `checkRealLimits`: lazy creation, the hour and day window resets, the
    three admission rules in their fixed order, and the commit of an
    admitted request. */
module Limits {

  import opened Wrappers

  const MaxPerRequest := 50
  const MaxPerHour := 200
  const MaxPerDay := 1000
  /** Window lengths in milliseconds. */
  const HourMs := 3600000
  const DayMs := 86400000

  /** One user's quota record. Times are milliseconds since the epoch. */
  datatype UserLimits = UserLimits(
    sharesToday: nat,
    sharesThisHour: nat,
    lastShareTime: int,
    lastResetHour: int,
    lastResetDay: int,
    totalShares: nat,
    successfulShares: nat,
    failedShares: nat)

  /** The record created on first sight of a user. */
  function Fresh(now: int): UserLimits {
    UserLimits(0, 0, 0, now, now, 0, 0, 0)
  }

  /** The window resets that precede every admission check: each counter
      is zeroed, and its anchor moved to `now`, only once strictly more than
      its window length has elapsed. */
  function ResetWindows(u: UserLimits, now: int): (r: UserLimits)
    ensures now - u.lastResetHour > HourMs ==> r.sharesThisHour == 0 && r.lastResetHour == now
    ensures now - u.lastResetHour <= HourMs ==>
      r.sharesThisHour == u.sharesThisHour && r.lastResetHour == u.lastResetHour
    ensures now - u.lastResetDay > DayMs ==> r.sharesToday == 0 && r.lastResetDay == now
    ensures now - u.lastResetDay <= DayMs ==>
      r.sharesToday == u.sharesToday && r.lastResetDay == u.lastResetDay
    // after the reset both windows are current
    ensures now - r.lastResetHour <= HourMs && now - r.lastResetDay <= DayMs
    // the lifetime counters and the last share time are never touched
    ensures r.(sharesThisHour := u.sharesThisHour, lastResetHour := u.lastResetHour,
               sharesToday := u.sharesToday, lastResetDay := u.lastResetDay) == u
  {
    var h := if now - u.lastResetHour > HourMs
             then u.(sharesThisHour := 0, lastResetHour := now) else u;
    if now - h.lastResetDay > DayMs then h.(sharesToday := 0, lastResetDay := now) else h
  }

  /** A second reset at the same instant changes nothing. */
  lemma ResetIdempotent(u: UserLimits, now: int)
    ensures ResetWindows(ResetWindows(u, now), now) == ResetWindows(u, now)
  {
  }

  /** The three rules of `checkRealLimits`, in the order they are checked. */
  datatype Denial = PerRequestCap | HourlyCap | DailyCap

  function Rank(d: Denial): nat {
    match d
    case PerRequestCap => 0
    case HourlyCap => 1
    case DailyCap => 2
  }

  /** The message the backend returns for each rule. */
  function Message(d: Denial): string {
    match d
    case PerRequestCap => "Max 50 shares per request"
    case HourlyCap => "Hourly limit reached (200/hour)"
    case DailyCap => "Daily limit reached (1000/day)"
  }

  /** Each rule has its own message, so the answer names the rule. */
  lemma MessageNamesRule(a: Denial, b: Denial)
    ensures Message(a) == Message(b) <==> a == b
  {
    if a != b {
      assert Message(a)[0] != Message(b)[0];
    }
  }

  /** Whether a request for `req` shares breaks rule `d` for record `u`. */
  predicate Violates(u: UserLimits, req: int, d: Denial) {
    match d
    case PerRequestCap => req > MaxPerRequest
    case HourlyCap => u.sharesThisHour + req > MaxPerHour
    case DailyCap => u.sharesToday + req > MaxPerDay
  }

  /** The admission decision on an already reset record: None when allowed,
      otherwise the first rule, in checking order, that the request breaks. */
  function Decide(u: UserLimits, req: int): (r: Option<Denial>)
    ensures r == None <==> forall d :: !Violates(u, req, d)
    ensures r.Some? ==> Violates(u, req, r.value)
    ensures r.Some? ==> forall d :: Rank(d) < Rank(r.value) ==> !Violates(u, req, d)
  {
    if req > MaxPerRequest then assert Violates(u, req, PerRequestCap); Some(PerRequestCap)
    else if u.sharesThisHour + req > MaxPerHour then assert Violates(u, req, HourlyCap); Some(HourlyCap)
    else if u.sharesToday + req > MaxPerDay then assert Violates(u, req, DailyCap); Some(DailyCap)
    else None
  }

  /** The handler's commit of an admitted request: the reserved count is
      added to the hour, day and lifetime counters, and an admitted commit
      stays within the hourly and daily caps. */
  function Commit(u: UserLimits, n: nat): (r: UserLimits)
    ensures r.sharesThisHour - u.sharesThisHour == n
    ensures r.sharesToday - u.sharesToday == n
    ensures r.totalShares - u.totalShares == n
    ensures r.(sharesThisHour := u.sharesThisHour, sharesToday := u.sharesToday,
               totalShares := u.totalShares) == u
    ensures Decide(u, n) == None ==> r.sharesThisHour <= MaxPerHour && r.sharesToday <= MaxPerDay
  {
    u.(sharesToday := u.sharesToday + n, sharesThisHour := u.sharesThisHour + n,
       totalShares := u.totalShares + n)
  }

  /** A record within both caps. */
  predicate WithinCaps(u: UserLimits) {
    u.sharesThisHour <= MaxPerHour && u.sharesToday <= MaxPerDay
  }

  /** Every share reserved on the record has been accounted for as a success
      or a failure. */
  predicate Balanced(u: UserLimits) {
    u.totalShares == u.successfulShares + u.failedShares
  }
}

/** The client helpers of public/script.js: the two newest-first lists with a
    cap of 100 (`saveLogToStorage`, `addHistory`), the speed presets of
    `setSpeed`, `truncateText`, `getLogIcon`, the digit branch of
    `parseNumber`, and the share total of `updateStats`. */
module ShareTool {

  import opened Wrappers
  import opened JsValues

  /** The most entries either list keeps. */
  const MaxEntries := 100

  // ---------------------------------------------------------------------
  // Newest-first lists.

  /** `list.unshift(x)` followed by `slice(0, 100)` once the list is longer
      than the cap. */
  function PrependCapped<T>(xs: seq<T>, x: T): (r: seq<T>)
    ensures |r| == if |xs| < MaxEntries then |xs| + 1 else MaxEntries
    ensures r[0] == x
    ensures forall j :: 1 <= j < |r| ==> r[j] == xs[j - 1]
  {
    var grown := [x] + xs;
    if |grown| > MaxEntries then grown[..MaxEntries] else grown
  }

  /** Prepending to a list within the cap drops nothing but an entry beyond
      index 98: the old list is the new one's tail, minus at most its last
      entry. */
  lemma PrependCappedKeeps<T>(xs: seq<T>, x: T)
    requires |xs| <= MaxEntries
    ensures var r := PrependCapped(xs, x);
      && (|xs| < MaxEntries ==> r[1..] == xs)
      && (|xs| == MaxEntries ==> r[1..] == xs[..MaxEntries - 1])
  {
  }

  /** One entry of `this.shareLogs`. */
  datatype ClientLog = ClientLog(time: string, message: string, kind: string, timestamp: int)

  /** One entry of `this.history`: its id and its share count (`None` when
      the entry has no `count`); the other fields are carried unchanged and
      are not modelled. */
  datatype HistoryItem = HistoryItem(id: int, count: Option<int>)

  // ---------------------------------------------------------------------
  // The share total of `updateStats`.

  /** `entry.count || 0`: a missing count counts as 0. */
  function CountOf(e: HistoryItem): int {
    if e.count.Some? then e.count.value else 0
  }

  /** `history.reduce((sum, entry) => sum + (entry.count || 0), 0)`: a left
      fold, entry by entry from the front. */
  function TotalShares(h: seq<HistoryItem>): int {
    if h == [] then 0 else TotalShares(h[..|h| - 1]) + CountOf(h[|h| - 1])
  }

  /** An independent definition: the count of the first entry plus the
      total of the rest. */
  function SumFromFront(h: seq<HistoryItem>): int {
    if h == [] then 0 else CountOf(h[0]) + SumFromFront(h[1..])
  }

  /** The total of a concatenation is the sum of the totals. */
  lemma {:induction false} TotalSharesAppend(a: seq<HistoryItem>, b: seq<HistoryItem>)
    ensures TotalShares(a + b) == TotalShares(a) + TotalShares(b)
  {
    if b != [] {
      assert (a + b)[..|a + b| - 1] == a + b[..|b| - 1];
      assert (a + b)[|a + b| - 1] == b[|b| - 1];
      TotalSharesAppend(a, b[..|b| - 1]);
    } else {
      assert a + b == a;
    }
  }

  /** The fold is the plain sum of the counts. */
  lemma {:induction false} TotalSharesIsSum(h: seq<HistoryItem>)
    ensures TotalShares(h) == SumFromFront(h)
  {
    if h != [] {
      assert h == [h[0]] + h[1..];
      TotalSharesAppend([h[0]], h[1..]);
      assert [h[0]][..0] == [];
      TotalSharesIsSum(h[1..]);
    }
  }

  /** With no negative count, the total is at least every single count. */
  lemma {:induction false} TotalSharesBounds(h: seq<HistoryItem>)
    requires forall j :: 0 <= j < |h| ==> CountOf(h[j]) >= 0
    ensures TotalShares(h) >= 0
    ensures forall j :: 0 <= j < |h| ==> CountOf(h[j]) <= TotalShares(h)
  {
    if h != [] {
      var front := h[..|h| - 1];
      assert forall j :: 0 <= j < |front| ==> front[j] == h[j];
      TotalSharesBounds(front);
    }
  }

  /** A new session adds its count to the total as long as the cap drops
      nothing. */
  lemma TotalAfterPrepend(h: seq<HistoryItem>, e: HistoryItem)
    requires |h| < MaxEntries
    ensures TotalShares(PrependCapped(h, e)) == CountOf(e) + TotalShares(h)
  {
    assert PrependCapped(h, e) == [e] + h;
    TotalSharesAppend([e], h);
    assert [e][..0] == [];
  }

  // ---------------------------------------------------------------------
  // `setSpeed`.

  datatype SpeedSettings = SpeedSettings(mode: string, batchDelay: nat, batchSize: nat)

  /** `speeds[speed] || speeds.balanced`. */
  function SpeedFor(speed: string): SpeedSettings {
    if speed == "safe" then SpeedSettings("safe", 3000, 3)
    else if speed == "balanced" then SpeedSettings("balanced", 2000, 5)
    else if speed == "fast" then SpeedSettings("fast", 1000, 8)
    else if speed == "turbo" then SpeedSettings("turbo", 500, 10)
    else SpeedSettings("balanced", 2000, 5)
  }

  predicate KnownSpeed(speed: string) {
    speed == "safe" || speed == "balanced" || speed == "fast" || speed == "turbo"
  }

  /** A known mode selects its own preset; any other key selects the
      balanced one. */
  lemma SpeedForMode(speed: string)
    ensures KnownSpeed(speed) ==> SpeedFor(speed).mode == speed
    ensures !KnownSpeed(speed) ==> SpeedFor(speed) == SpeedFor("balanced")
    ensures KnownSpeed(SpeedFor(speed).mode)
  {
  }

  /** The four presets are ordered: each faster mode waits less between
      batches and sends bigger batches. */
  lemma SpeedPresetsOrdered()
    ensures var s, b, f, t := SpeedFor("safe"), SpeedFor("balanced"), SpeedFor("fast"), SpeedFor("turbo");
      && s.batchDelay > b.batchDelay > f.batchDelay > t.batchDelay > 0
      && 0 < s.batchSize < b.batchSize < f.batchSize < t.batchSize
  {
  }

  // ---------------------------------------------------------------------
  // `truncateText`.

  /** `truncateText(text, maxLength)`; `null` and `undefined` behave as the
      empty text. A negative `maxLength` makes `substring` keep nothing. */
  function TruncateText(text: string, maxLength: int): (r: string)
    ensures text == "" ==> r == ""
    ensures |text| <= maxLength ==> r == text
    ensures text != "" && |text| > maxLength ==>
      var keep := if maxLength < 0 then 0 else maxLength;
      && |r| == keep + 3 && r[..keep] == text[..keep] && r[keep..] == "..."
  {
    if text == "" then ""
    else if |text| <= maxLength then text
    else text[..if maxLength < 0 then 0 else maxLength] + "..."
  }

  /** A truncated text is never longer than the limit plus the ellipsis,
      and truncating it again at that length changes nothing. */
  lemma TruncateTextIdempotent(text: string, maxLength: nat)
    ensures |TruncateText(text, maxLength)| <= maxLength + 3
    ensures TruncateText(TruncateText(text, maxLength), maxLength + 3) == TruncateText(text, maxLength)
  {
  }

  // ---------------------------------------------------------------------
  // `getLogIcon`.

  /** The four glyphs: check mark, cross, warning sign and memo. */
  datatype Icon = CheckMark | CrossMark | WarningSign | Memo

  function GetLogIcon(kind: string): Icon {
    if kind == "success" then CheckMark
    else if kind == "error" then CrossMark
    else if kind == "warning" then WarningSign
    else Memo
  }

  /** Every type gets an icon; the three special types get distinct ones,
      and every other type, known or not, gets the same icon as 'info'. */
  lemma GetLogIconCases(kind: string)
    ensures (GetLogIcon(kind) == CheckMark) <==> kind == "success"
    ensures (GetLogIcon(kind) == CrossMark) <==> kind == "error"
    ensures (GetLogIcon(kind) == WarningSign) <==> kind == "warning"
    ensures kind != "success" && kind != "error" && kind != "warning" ==>
      GetLogIcon(kind) == GetLogIcon("info")
  {
  }

  // ---------------------------------------------------------------------
  // `parseNumber`, digit branch.

  /** `str.replace(/[^0-9]/g, '')`. */
  function OnlyDigits(s: string): (r: string)
    ensures forall i :: 0 <= i < |r| ==> IsDigit(r[i])
    ensures |r| <= |s|
    ensures |s| == 1 ==> r == (if IsDigit(s[0]) then s else [])
  {
    if s == [] then [] else (if IsDigit(s[0]) then [s[0]] else []) + OnlyDigits(s[1..])
  }

  /** The global replace works character by character: the digits of a
      concatenation are the digits of each part, in order. */
  lemma {:induction false} OnlyDigitsAppend(a: string, b: string)
    ensures OnlyDigits(a + b) == OnlyDigits(a) + OnlyDigits(b)
  {
    if a == [] {
      assert a + b == b;
    } else {
      assert (a + b)[0] == a[0];
      assert (a + b)[1..] == a[1..] + b;
      OnlyDigitsAppend(a[1..], b);
    }
  }

  /** Whether `str.toLowerCase()` contains 'k' or 'm' (letters other than
      the four ASCII ones that lower-case to them are not modelled). */
  predicate HasSuffixLetter(s: string) {
    exists i :: 0 <= i < |s| && s[i] in {'k', 'K', 'm', 'M'}
  }

  /** The digit branch: `parseInt(digits) || 1`, where NaN (no digit at
      all) and 0 are both falsy. */
  function ParseDigits(s: string): int {
    match ParseInt(OnlyDigits(s))
    case NaN => 1
    case Int(v) => if v == 0 then 1 else v
  }

  /** `parseInt` reads a string of digits in full. */
  lemma ParseIntOfDigits(ds: string)
    requires forall i :: 0 <= i < |ds| ==> IsDigit(ds[i])
    ensures ds == [] ==> ParseInt(ds) == NaN
    ensures ds != [] ==> ParseInt(ds) == Int(DigitsValue(ds))
  {
    assert ds != [] ==> !IsJsSpace(ds[0]);
    assert TrimStart(ds) == ds;
    DigitPrefixOfDigits(ds);
  }

  /** The digit branch yields the value of the digits of the input, read in
      order, and 1 when that value is 0 or there is no digit: so always at
      least 1. */
  lemma ParseDigitsValue(s: string)
    ensures var ds := OnlyDigits(s);
      && ParseDigits(s) >= 1
      && ParseDigits(s) == (if ds == [] || DigitsValue(ds) == 0 then 1 else DigitsValue(ds))
  {
    ParseIntOfDigits(OnlyDigits(s));
  }

  lemma {:induction false} OnlyDigitsOfDigits(s: string)
    requires forall i :: 0 <= i < |s| ==> IsDigit(s[i])
    ensures OnlyDigits(s) == s
  {
    if s != [] {
      OnlyDigitsOfDigits(s[1..]);
    }
  }

  /** Round trip: the decimal text of a positive count parses back to it. */
  lemma ParseDigitsDecimal(n: nat)
    requires n >= 1
    ensures !HasSuffixLetter(Decimal(n))
    ensures ParseDigits(Decimal(n)) == n
  {
    var d := Decimal(n);
    OnlyDigitsOfDigits(d);
    ParseIntOfDigits(d);
    DecimalValue(n);
  }

  // ---------------------------------------------------------------------
  // The client object.

  /** The fields of the client that the modelled methods update. */
  class Client {
    var shareLogs: seq<ClientLog>
    var history: seq<HistoryItem>
    var speedSettings: SpeedSettings

    constructor ()
      ensures shareLogs == [] && history == [] && speedSettings == SpeedFor("balanced")
    {
      shareLogs, history := [], [];
      speedSettings := SpeedFor("balanced");
    }

    /** `saveLogToStorage`: the new log first, the previous ones after it in
        their order, at most 100 of them. */
    method SaveLogToStorage(log: ClientLog)
      modifies this
      ensures shareLogs == PrependCapped(old(shareLogs), log)
      ensures history == old(history) && speedSettings == old(speedSettings)
    {
      shareLogs := [log] + shareLogs;
      if |shareLogs| > MaxEntries {
        shareLogs := shareLogs[..MaxEntries];
      }
    }

    /** `addHistory`: stamp the entry with the clock reading `now`, put it
        first, and keep the newest 100. */
    method AddHistory(entry: HistoryItem, now: int)
      modifies this
      ensures history == PrependCapped(old(history), entry.(id := now))
      ensures shareLogs == old(shareLogs) && speedSettings == old(speedSettings)
    {
      var stamped := entry.(id := now);
      history := [stamped] + history;
      if |history| > MaxEntries {
        history := history[..MaxEntries];
      }
    }

    /** `setSpeed`: the preset of a known mode, else the balanced one. */
    method SetSpeed(speed: string)
      modifies this
      ensures speedSettings == SpeedFor(speed)
      ensures shareLogs == old(shareLogs) && history == old(history)
    {
      if speed == "safe" {
        speedSettings := SpeedSettings("safe", 3000, 3);
      } else if speed == "balanced" {
        speedSettings := SpeedSettings("balanced", 2000, 5);
      } else if speed == "fast" {
        speedSettings := SpeedSettings("fast", 1000, 8);
      } else if speed == "turbo" {
        speedSettings := SpeedSettings("turbo", 500, 10);
      } else {
        speedSettings := SpeedSettings("balanced", 2000, 5);
      }
    }
  }
}

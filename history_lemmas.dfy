/** The history view of `/api/process-history`: the last ten sessions, newest first. */
module HistoryLemmas {

  import opened ServerState

  /** `reverse()` puts the last element first and keeps every element. */
  lemma {:induction false} ReversedIndex<T>(s: seq<T>)
    ensures |Reversed(s)| == |s|
    ensures forall j :: 0 <= j < |s| ==> Reversed(s)[j] == s[|s| - 1 - j]
  {
    if s != [] {
      ReversedIndex(s[..|s| - 1]);
    }
  }

  /** Reversing twice gives the sequence back. */
  lemma ReversedTwice<T>(s: seq<T>)
    ensures Reversed(Reversed(s)) == s
  {
    ReversedIndex(s);
    ReversedIndex(Reversed(s));
  }

  /** The view holds the ten most recent sessions (all of them when there
      are fewer), the most recent first. */
  lemma RecentSessionsSpec(h: seq<HistoryEntry>)
    ensures var r := RecentSessions(h);
      && |r| == (if |h| <= 10 then |h| else 10)
      && forall j :: 0 <= j < |r| ==> r[j] == h[|h| - 1 - j]
  {
    var tail := if |h| <= 10 then h else h[|h| - 10..];
    ReversedIndex(tail);
  }
}

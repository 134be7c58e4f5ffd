/** Per-signature crash dedupe of src/dedupe.cpp, and what it promises over any history of checks. */
module Dedupe {
  import opened Base

  datatype Entry = Entry(lastSent: int, suppressed: nat)

  type Table = map<string, Entry>

  datatype Decision = Decision(allowed: bool, suppressedCount: nat)

  const MAX_TRACKED := 64

  predicate Blocks(t: Table, window: int, signature: string, now: int) {
    signature in t && now - t[signature].lastSent < window
  }

  predicate Clears(t: Table, signature: string) { signature !in t && |t| >= MAX_TRACKED }

  function Checked(t: Table, window: int, signature: string, now: int): Table {
    if Blocks(t, window, signature, now) then
      t[signature := t[signature].(suppressed := t[signature].suppressed + 1)]
    else (if Clears(t, signature) then map[] else t)[signature := Entry(now, 0)]
  }

  function Decide(t: Table, window: int, signature: string, now: int): Decision {
    if Blocks(t, window, signature, now) then Decision(false, t[signature].suppressed + 1) else Decision(true, 0)
  }

  class DedupeWindow {
    const window: int
    var recent: Table

    constructor (seconds: int)
      ensures window == seconds && recent == map[]
    {
      window, recent := seconds, map[];
    }

    method Check(signature: string, now: int) returns (d: Decision)
      modifies this
      ensures recent == Checked(old(recent), window, signature, now)
      ensures d == Decide(old(recent), window, signature, now)
    {
      if signature in recent {
        var entry := recent[signature];
        if now - entry.lastSent < window {
          entry := entry.(suppressed := entry.suppressed + 1);
          recent := recent[signature := entry];
          return Decision(false, entry.suppressed);
        }
        recent := recent[signature := Entry(now, 0)];
        return Decision(true, 0);
      }
      if |recent| >= MAX_TRACKED {
        recent := map[];
      }
      recent := recent[signature := Entry(now, 0)];
      return Decision(true, 0);
    }
  }

  // ------------------------------------------------- histories

  datatype Call = Call(signature: string, now: int)

  function TableAfter(h: seq<Call>, window: int): Table {
    if h == [] then map[]
    else Checked(TableAfter(h[..|h| - 1], window), window, h[|h| - 1].signature, h[|h| - 1].now)
  }

  /** What check number `k` was answered. */
  function Answer(h: seq<Call>, window: int, k: nat): Decision
    requires k < |h|
  {
    Decide(TableAfter(h[..k], window), window, h[k].signature, h[k].now)
  }

  predicate ResetAt(h: seq<Call>, window: int, k: nat)
    requires k < |h|
  {
    Clears(TableAfter(h[..k], window), h[k].signature)
  }

  predicate InsertsAt(h: seq<Call>, window: int, k: nat)
    requires k < |h|
  {
    h[k].signature !in TableAfter(h[..k], window)
  }

  function Resets(h: seq<Call>, window: int): nat {
    if h == [] then 0 else Resets(h[..|h| - 1], window) + if ResetAt(h, window, |h| - 1) then 1 else 0
  }

  function Inserts(h: seq<Call>, window: int): nat {
    if h == [] then 0 else Inserts(h[..|h| - 1], window) + if InsertsAt(h, window, |h| - 1) then 1 else 0
  }

  predicate InOrder(h: seq<Call>) { forall i, j :: 0 <= i < j < |h| ==> h[i].now <= h[j].now }

  /** Checks of a signature that were suppressed since the last one that was allowed. */
  function SuppressedSince(h: seq<Call>, window: int, signature: string): nat {
    if h == [] then 0
    else
      var n := |h| - 1;
      if h[n].signature != signature then SuppressedSince(h[..n], window, signature)
      else if Answer(h, window, n).allowed then 0
      else 1 + SuppressedSince(h[..n], window, signature)
  }

  // ------------------------------------------------- promises

  /** The table holds what was inserted since the last reset. */
  lemma {:induction false} TableSize(h: seq<Call>, window: int)
    ensures |TableAfter(h, window)| == Inserts(h, window) - 64 * Resets(h, window)
    ensures |TableAfter(h, window)| <= 64 && (h != [] ==> |TableAfter(h, window)| >= 1)
  {
    if h != [] {
      var n := |h| - 1;
      TableSize(h[..n], window);
      SizeStep(TableAfter(h[..n], window), window, h[n].signature, h[n].now);
    }
  }

  lemma SizeStep(t: Table, window: int, signature: string, now: int)
    requires |t| <= MAX_TRACKED
    ensures |Checked(t, window, signature, now)|
            == (if Clears(t, signature) then |t| - MAX_TRACKED else |t|) + if signature in t then 0 else 1
  {
    var after := Checked(t, window, signature, now);
    if Clears(t, signature) {
      assert after.Keys == {signature};
    } else {
      assert after.Keys == t.Keys + {signature};
      assert |after| == |after.Keys| && |t| == |t.Keys|;
    }
  }

  /** r resets need at least 64r + 1 first appearances. */
  lemma ResetsAreRare(h: seq<Call>, window: int)
    requires Resets(h, window) > 0
    ensures Inserts(h, window) >= 64 * Resets(h, window) + 1
  {
    TableSize(h, window);
  }

  /** A signature that is not tracked is never suppressed. */
  lemma UntrackedIsAllowed(h: seq<Call>, window: int, k: nat)
    requires k < |h| && InsertsAt(h, window, k)
    ensures Answer(h, window, k) == Decision(true, 0)
  {
  }

  /** When the signature was last allowed since the table was last cleared, if it was. */
  function LastAllowed(h: seq<Call>, window: int, signature: string): Option<int> {
    if h == [] then None
    else
      var n := |h| - 1;
      if h[n].signature == signature && Answer(h, window, n).allowed then Some(h[n].now)
      else if ResetAt(h, window, n) then None
      else LastAllowed(h[..n], window, signature)
  }

  lemma {:induction false} TableIsLastAllowed(h: seq<Call>, window: int, signature: string)
    ensures var t := TableAfter(h, window);
            LastAllowed(h, window, signature) == if signature in t then Some(t[signature].lastSent) else None
  {
    if h != [] {
      TableIsLastAllowed(h[..|h| - 1], window, signature);
    }
  }

  /** A check is suppressed exactly when the signature was last allowed less than the window before, with no clearing since. */
  lemma AllowedExactly(h: seq<Call>, window: int, k: nat)
    requires k < |h|
    ensures var last := LastAllowed(h[..k], window, h[k].signature);
            Answer(h, window, k).allowed <==> last.None? || h[k].now - last.value >= window
  {
    TableIsLastAllowed(h[..k], window, h[k].signature);
  }

  /** After an allowed check, and until a reset, the signature stays tracked from that time on. */
  lemma {:induction false} StaysTracked(h: seq<Call>, window: int, i: nat, j: nat)
    requires i < j <= |h| && InOrder(h) && Answer(h, window, i).allowed
    requires forall k :: i < k < j ==> !ResetAt(h, window, k)
    ensures var t := TableAfter(h[..j], window);
            h[i].signature in t && t[h[i].signature].lastSent >= h[i].now
    decreases j
  {
    var before := TableAfter(h[..j - 1], window);
    assert h[..j][..j - 1] == h[..j - 1];
    assert TableAfter(h[..j], window) == Checked(before, window, h[j - 1].signature, h[j - 1].now);
    if j > i + 1 {
      StaysTracked(h, window, i, j - 1);
      assert !ResetAt(h, window, j - 1);
    } else {
      assert j - 1 == i && Answer(h, window, i).allowed;
    }
  }

  /** Two allowed reports of one signature within the window have a table reset between them. */
  lemma TwoAllowedNeedReset(h: seq<Call>, window: int, i: nat, j: nat)
    requires i < j < |h| && InOrder(h) && h[i].signature == h[j].signature
    requires Answer(h, window, i).allowed && Answer(h, window, j).allowed && h[j].now - h[i].now < window
    ensures exists k :: i < k < j && ResetAt(h, window, k)
  {
    if forall k :: i < k < j ==> !ResetAt(h, window, k) {
      StaysTracked(h, window, i, j);
    }
  }

  /** The entry's count is the number of checks suppressed since the signature was last allowed. */
  lemma {:induction false} CountIsExact(h: seq<Call>, window: int, signature: string)
    requires signature in TableAfter(h, window)
    ensures TableAfter(h, window)[signature].suppressed == SuppressedSince(h, window, signature)
  {
    var n := |h| - 1;
    var t := TableAfter(h[..n], window);
    if h[n].signature != signature && signature in t {
      CountIsExact(h[..n], window, signature);
    } else if Blocks(t, window, signature, h[n].now) {
      CountIsExact(h[..n], window, signature);
    }
  }

  /** The count a suppressed check reports is the number suppressed since the last allowed one, itself included. */
  lemma ReportedCount(h: seq<Call>, window: int, k: nat)
    requires k < |h| && !Answer(h, window, k).allowed
    ensures Answer(h, window, k).suppressedCount == SuppressedSince(h[..k + 1], window, h[k].signature)
  {
    assert h[..k + 1][..k] == h[..k];
    CountIsExact(h[..k + 1], window, h[k].signature);
  }
}

/** Per-user metadata of src/payloads.cpp: clamping to the wire contract and the canonical JSON. */
module UserMetadata {
  import opened Base
  import opened JsonTree
  import opened JsonWriting
  import opened PayloadBuilders
  import opened Utf8
  import JsonParse
  import SessionMarkers

  const MAX_KEYS := 16
  const MAX_KEY := 64
  const MAX_VALUE := 512

  datatype Entry = Entry(key: string, value: string)

  /** A caller's pair; None is a null pointer. */
  datatype Pair = Pair(key: Option<string>, value: Option<string>)

  predicate Usable(p: Pair) { p.key.GetOr("") != "" && p.value.GetOr("") != "" }

  function CutKey(p: Pair): string { Truncate(p.key.GetOr(""), MAX_KEY) }

  function CutValue(p: Pair): string { Truncate(p.value.GetOr(""), MAX_VALUE) }

  /** Keys in order of first appearance. */
  function FirstSeen(ps: seq<Pair>): seq<string> {
    if ps == [] then []
    else
      var before, p := FirstSeen(ps[..|ps| - 1]), ps[|ps| - 1];
      if Usable(p) && CutKey(p) !in before then before + [CutKey(p)] else before
  }

  /** The last usable value given for a key. */
  function LastValue(ps: seq<Pair>, key: string): string {
    if ps == [] then ""
    else if Usable(ps[|ps| - 1]) && CutKey(ps[|ps| - 1]) == key then CutValue(ps[|ps| - 1])
    else LastValue(ps[..|ps| - 1], key)
  }

  /** First-seen order, last value wins: the map the pairs describe, with no cap. */
  function Described(ps: seq<Pair>): (es: seq<Entry>)
    ensures |es| == |FirstSeen(ps)|
  {
    seq(|FirstSeen(ps)|, i requires 0 <= i < |FirstSeen(ps)| => Entry(FirstSeen(ps)[i], LastValue(ps, FirstSeen(ps)[i])))
  }

  /** How many pairs count: all, or those before the first new key beyond the cap. */
  function Counted(ps: seq<Pair>): (n: nat)
    ensures n <= |ps|
  {
    if ps == [] then 0
    else
      var n := Counted(ps[..|ps| - 1]);
      if n == |ps| - 1 && |FirstSeen(ps)| <= MAX_KEYS then |ps| else n
  }

  function Clamp(ps: seq<Pair>): seq<Entry> { Described(ps[..Counted(ps)]) }

  lemma {:induction false} CountedPrefix(ps: seq<Pair>, n: nat)
    requires n <= |ps|
    ensures |FirstSeen(ps[..n])| <= MAX_KEYS && (n < |ps| ==> |FirstSeen(ps[..n + 1])| > MAX_KEYS) ==> Counted(ps) == n
    ensures |FirstSeen(ps[..n])| <= |FirstSeen(ps)|
  {
    if n < |ps| {
      var front := ps[..|ps| - 1];
      assert front[..n] == ps[..n];
      CountedPrefix(front, n);
      if n + 1 < |ps| {
        assert front[..n + 1] == ps[..n + 1];
        CountedPrefix(front, n + 1);
      } else {
        assert ps[..n + 1] == ps;
      }
      if |FirstSeen(ps[..n])| <= MAX_KEYS && |FirstSeen(ps[..n + 1])| > MAX_KEYS && n == |ps| - 1 {
        CountedAll(front);
      }
    } else {
      assert ps[..n] == ps;
      if |FirstSeen(ps)| <= MAX_KEYS {
        CountedAll(ps);
      }
    }
  }

  lemma {:induction false} CountedAll(ps: seq<Pair>)
    requires |FirstSeen(ps)| <= MAX_KEYS
    ensures Counted(ps) == |ps|
  {
    if ps != [] {
      CountedAll(ps[..|ps| - 1]);
    }
  }

  lemma {:induction false} FirstSeenDistinct(ps: seq<Pair>)
    ensures forall i, j :: 0 <= i < j < |FirstSeen(ps)| ==> FirstSeen(ps)[i] != FirstSeen(ps)[j]
  {
    if ps != [] {
      FirstSeenDistinct(ps[..|ps| - 1]);
    }
  }

  /** Position of a key in an entry list, or its length. */
  method IndexOf(es: seq<Entry>, key: string) returns (at: nat)
    ensures at <= |es| && (at < |es| ==> es[at].key == key)
    ensures forall i :: 0 <= i < at ==> es[i].key != key
  {
    at := 0;
    while at < |es| && es[at].key != key
      invariant at <= |es| && forall i :: 0 <= i < at ==> es[i].key != key
    {
      at := at + 1;
    }
  }

  /** One more usable pair replaces its key's value in place, or is appended. */
  lemma DescribedStep(ps: seq<Pair>, p: Pair, es: seq<Entry>, at: nat)
    requires es == Described(ps) && Usable(p) && at <= |es|
    requires (at < |es| ==> es[at].key == CutKey(p)) && forall i :: 0 <= i < at ==> es[i].key != CutKey(p)
    ensures at < |es| ==> FirstSeen(ps + [p]) == FirstSeen(ps) && Described(ps + [p]) == es[at := Entry(CutKey(p), CutValue(p))]
    ensures at == |es| ==> FirstSeen(ps + [p]) == FirstSeen(ps) + [CutKey(p)] && Described(ps + [p]) == es + [Entry(CutKey(p), CutValue(p))]
  {
    var qs := ps + [p];
    assert qs[..|qs| - 1] == ps;
    FirstSeenDistinct(ps);
    var names := FirstSeen(ps);
    assert forall i :: 0 <= i < |names| ==> names[i] == es[i].key;
    if at < |es| {
      assert names[at] == CutKey(p);
    }
    forall i | 0 <= i < |names|
      ensures Described(qs)[i] == if i == at then Entry(CutKey(p), CutValue(p)) else es[i]
    {
    }
  }

  lemma DescribedSkip(ps: seq<Pair>, p: Pair)
    requires !Usable(p)
    ensures FirstSeen(ps + [p]) == FirstSeen(ps) && Described(ps + [p]) == Described(ps)
  {
    var qs := ps + [p];
    assert qs[..|qs| - 1] == ps;
    forall i | 0 <= i < |FirstSeen(ps)|
      ensures Described(qs)[i] == Described(ps)[i]
    {
    }
  }

  method ClampUserMetadata(ps: seq<Pair>) returns (out: seq<Entry>)
    ensures out == Clamp(ps)
  {
    out := [];
    assert ps[..0] == [];
    for i := 0 to |ps|
      invariant out == Described(ps[..i]) && |FirstSeen(ps[..i])| <= MAX_KEYS
    {
      var p := ps[i];
      assert ps[..i + 1] == ps[..i] + [p];
      if p.key.GetOr("") == "" || p.value.GetOr("") == "" {
        DescribedSkip(ps[..i], p);
        continue;
      }
      var key := Utf8SafeTruncate(p.key.GetOr(""), MAX_KEY);
      var value := Utf8SafeTruncate(p.value.GetOr(""), MAX_VALUE);
      var at := IndexOf(out, key);
      DescribedStep(ps[..i], p, out, at);
      if at < |out| {
        out := out[at := Entry(key, value)];
        continue;
      }
      if |out| >= MAX_KEYS {
        CountedPrefix(ps, i);
        return;
      }
      out := out + [Entry(key, value)];
    }
    CountedPrefix(ps, |ps|);
  }

  lemma {:induction false} CountedIsWithinCap(ps: seq<Pair>)
    ensures |FirstSeen(ps[..Counted(ps)])| <= MAX_KEYS
  {
    if ps != [] {
      var front := ps[..|ps| - 1];
      CountedIsWithinCap(front);
      var n := Counted(ps);
      if n == |ps| {
        assert ps[..n] == ps;
      } else {
        assert ps[..n] == front[..n];
      }
    }
  }

  /** At most 16 entries, all keys distinct, everything within the wire limits. */
  lemma ClampBounds(ps: seq<Pair>)
    ensures |Clamp(ps)| <= 16
    ensures forall i, j :: 0 <= i < j < |Clamp(ps)| ==> Clamp(ps)[i].key != Clamp(ps)[j].key
    ensures Bounded(Clamp(ps))
  {
    var qs := ps[..Counted(ps)];
    CountedIsWithinCap(ps);
    FirstSeenDistinct(qs);
    forall i | 0 <= i < |Clamp(ps)|
      ensures |Clamp(ps)[i].key| <= MAX_KEY && |Clamp(ps)[i].value| <= MAX_VALUE
    {
      SeenIsCut(qs, i);
      LastIsCut(qs, FirstSeen(qs)[i]);
    }
  }

  ghost predicate Bounded(es: seq<Entry>) {
    forall i :: 0 <= i < |es| ==> |es[i].key| <= MAX_KEY && |es[i].value| <= MAX_VALUE
  }

  lemma {:induction false} SeenIsCut(ps: seq<Pair>, i: nat)
    requires i < |FirstSeen(ps)|
    ensures exists p :: p in ps && Usable(p) && FirstSeen(ps)[i] == CutKey(p)
    ensures |FirstSeen(ps)[i]| <= MAX_KEY
  {
    var front := ps[..|ps| - 1];
    if i < |FirstSeen(front)| {
      SeenIsCut(front, i);
      var p :| p in front && Usable(p) && FirstSeen(front)[i] == CutKey(p);
      assert p in ps;
    } else {
      assert ps[|ps| - 1] in ps;
    }
  }

  lemma {:induction false} LastIsCut(ps: seq<Pair>, key: string)
    ensures |LastValue(ps, key)| <= MAX_VALUE
    ensures LastValue(ps, key) != "" ==> exists p :: p in ps && Usable(p) && CutKey(p) == key && LastValue(ps, key) == CutValue(p)
  {
    if ps != [] {
      LastIsCut(ps[..|ps| - 1], key);
      assert ps[|ps| - 1] in ps;
    }
  }

  // ------------------------------------------------- clamping again

  function AsPairs(es: seq<Entry>): (ps: seq<Pair>)
    ensures |ps| == |es|
  {
    seq(|es|, i requires 0 <= i < |es| => Pair(Some(es[i].key), Some(es[i].value)))
  }

  predicate Full(es: seq<Entry>) { forall i :: 0 <= i < |es| ==> es[i].key != "" && es[i].value != "" }

  predicate Distinct(es: seq<Entry>) { forall i, j :: 0 <= i < j < |es| ==> es[i].key != es[j].key }

  lemma {:induction false} DescribedOfEntries(es: seq<Entry>)
    requires Bounded(es) && Full(es) && Distinct(es)
    ensures Described(AsPairs(es)) == es
  {
    if es == [] {
      assert AsPairs(es) == [];
    } else {
      var n := |es| - 1;
      var front, last := es[..n], AsPairs(es)[n];
      DescribedOfEntries(front);
      assert AsPairs(es) == AsPairs(front) + [last];
      DescribedStep(AsPairs(front), last, front, n);
      assert es == front + [es[n]];
    }
  }

  /** Cut at `max`, a text longer than that leaves nothing: continuation bytes fill it up to the limit. */
  predicate CutAway(s: string, max: nat) { |s| > max && forall i :: 1 <= i <= max ==> IsContinuation(s[i]) }

  /** A usable pair whose key no later usable pair gives again. */
  predicate LastOfKey(ps: seq<Pair>, i: nat)
    requires i < |ps|
  {
    Usable(ps[i]) && forall j :: i < j < |ps| && Usable(ps[j]) ==> CutKey(ps[j]) != CutKey(ps[i])
  }

  /** A pair that is neither null nor empty on either side, under the key its own is cut to. */
  predicate Gives(p: Pair, key: string) {
    p.key.GetOr("") != "" && p.value.GetOr("") != "" && Truncate(p.key.GetOr(""), 64) == key
  }

  lemma {:induction false} CountedStops(ps: seq<Pair>)
    ensures var n := Counted(ps); n < |ps| ==> |FirstSeen(ps[..n + 1])| > MAX_KEYS
  {
    if ps != [] {
      var front, n := ps[..|ps| - 1], Counted(ps);
      CountedStops(front);
      if n < |front| {
        assert front[..n + 1] == ps[..n + 1];
      } else {
        assert ps[..|ps|] == ps;
      }
    }
  }

  /** Where a key is given first; the number of pairs when it never is. */
  function FirstPlace(ps: seq<Pair>, key: string): (at: nat)
    ensures at <= |ps| && (at < |ps| ==> Gives(ps[at], key)) && forall j :: 0 <= j < at ==> !Gives(ps[j], key)
  {
    if ps == [] || Gives(ps[0], key) then 0
    else
      var at := FirstPlace(ps[1..], key);
      assert forall j :: 1 <= j < at + 1 ==> ps[j] == ps[1..][j - 1];
      at + 1
  }

  lemma PlaceStays(ps: seq<Pair>, n: nat, key: string)
    requires n <= |ps| && FirstPlace(ps[..n], key) < n
    ensures FirstPlace(ps, key) == FirstPlace(ps[..n], key)
  {
    var at, all := FirstPlace(ps[..n], key), FirstPlace(ps, key);
    assert ps[..n][at] == ps[at];
    assert all < n ==> ps[..n][all] == ps[all];
  }

  lemma {:induction false} SeenHasPlace(ps: seq<Pair>, k: nat)
    requires k < |FirstSeen(ps)|
    ensures FirstPlace(ps, FirstSeen(ps)[k]) < |ps|
  {
    var n := |ps| - 1;
    if k < |FirstSeen(ps[..n])| {
      SeenHasPlace(ps[..n], k);
      PlaceStays(ps, n, FirstSeen(ps)[k]);
    } else {
      assert Gives(ps[n], FirstSeen(ps)[k]);
    }
  }

  /** Keys stand in the order in which they are first given. */
  lemma {:induction false} PlacesRise(ps: seq<Pair>, k: nat, l: nat)
    requires k < l < |FirstSeen(ps)|
    ensures FirstPlace(ps, FirstSeen(ps)[k]) < FirstPlace(ps, FirstSeen(ps)[l])
  {
    var n := |ps| - 1;
    var front := ps[..n];
    SeenHasPlace(front, k);
    PlaceStays(ps, n, FirstSeen(ps)[k]);
    if l < |FirstSeen(front)| {
      SeenHasPlace(front, l);
      PlaceStays(ps, n, FirstSeen(ps)[l]);
      PlacesRise(front, k, l);
    } else {
      var at := FirstPlace(ps, FirstSeen(ps)[l]);
      if at < n {
        assert front[at] == ps[at] && Usable(ps[at]);
        UsableIsSeen(front, at);
        assert false;
      }
    }
  }

  /**
   * The map, for any pairs: all that stand before the seventeenth new key count; every key they give
   * stands in it, in the order of first use, with the value given last.
   */
  lemma ClampMeaning(ps: seq<Pair>) returns (n: nat)
    ensures n <= |ps|
    ensures n < |ps| ==> |Clamp(ps)| == 16 && ps[n].key.GetOr("") != "" && ps[n].value.GetOr("") != ""
    ensures n < |ps| ==> forall k :: 0 <= k < 16 ==> Clamp(ps)[k].key != Truncate(ps[n].key.GetOr(""), 64)
    ensures forall k :: 0 <= k < |Clamp(ps)| ==> FirstPlace(ps[..n], Clamp(ps)[k].key) < n
    ensures forall k, l :: 0 <= k < l < |Clamp(ps)| ==> FirstPlace(ps[..n], Clamp(ps)[k].key) < FirstPlace(ps[..n], Clamp(ps)[l].key)
    ensures forall i :: 0 <= i < n && Wins(ps[..n], i) ==>
              Entry(Truncate(ps[i].key.GetOr(""), 64), Truncate(ps[i].value.GetOr(""), 512)) in Clamp(ps)
  {
    n := Counted(ps);
    CountedEnds(ps);
    ClampInOrder(ps);
    ClampHoldsWinners(ps);
  }

  /** No later pair gives the key of this one. */
  predicate Wins(qs: seq<Pair>, i: nat)
    requires i < |qs|
  {
    var key := Truncate(qs[i].key.GetOr(""), 64);
    Gives(qs[i], key) && forall j :: i < j < |qs| ==> !Gives(qs[j], key)
  }

  lemma CountedEnds(ps: seq<Pair>)
    ensures var n := Counted(ps);
            n < |ps| ==> |Clamp(ps)| == 16 && Usable(ps[n]) && forall k :: 0 <= k < 16 ==> Clamp(ps)[k].key != CutKey(ps[n])
  {
    var n := Counted(ps);
    CountedIsWithinCap(ps);
    CountedStops(ps);
    if n < |ps| {
      assert ps[..n + 1][..n] == ps[..n];
    }
  }

  lemma ClampInOrder(ps: seq<Pair>)
    ensures var n := Counted(ps);
            && (forall k :: 0 <= k < |Clamp(ps)| ==> FirstPlace(ps[..n], Clamp(ps)[k].key) < n)
            && forall k, l :: 0 <= k < l < |Clamp(ps)| ==> FirstPlace(ps[..n], Clamp(ps)[k].key) < FirstPlace(ps[..n], Clamp(ps)[l].key)
  {
    var qs := ps[..Counted(ps)];
    forall k | 0 <= k < |Clamp(ps)|
      ensures FirstPlace(qs, Clamp(ps)[k].key) < |qs|
    {
      SeenHasPlace(qs, k);
    }
    forall k, l | 0 <= k < l < |Clamp(ps)|
      ensures FirstPlace(qs, Clamp(ps)[k].key) < FirstPlace(qs, Clamp(ps)[l].key)
    {
      PlacesRise(qs, k, l);
    }
  }

  lemma ClampHoldsWinners(ps: seq<Pair>)
    ensures var n := Counted(ps);
            forall i :: 0 <= i < n && Wins(ps[..n], i) ==> Entry(CutKey(ps[i]), CutValue(ps[i])) in Clamp(ps)
  {
    var qs := ps[..Counted(ps)];
    forall i | 0 <= i < |qs| && Wins(qs, i)
      ensures Entry(CutKey(qs[i]), CutValue(qs[i])) in Clamp(ps)
    {
      WinnerStands(qs, i);
    }
  }

  lemma WinnerStands(qs: seq<Pair>, i: nat)
    requires i < |qs| && Usable(qs[i]) && forall j :: i < j < |qs| ==> !Gives(qs[j], CutKey(qs[i]))
    ensures Entry(CutKey(qs[i]), CutValue(qs[i])) in Described(qs)
  {
    UsableIsSeen(qs, i);
    assert forall j :: i < j < |qs| && Usable(qs[j]) ==> !Gives(qs[j], CutKey(qs[i]));
    LastValueIs(qs, i);
    var names := FirstSeen(qs);
    var k :| 0 <= k < |names| && names[k] == CutKey(qs[i]);
    assert Described(qs)[k] == Entry(CutKey(qs[i]), CutValue(qs[i]));
  }

  /** Some of every usable key, and of every value that wins, is left within the limits. */
  predicate Survives(ps: seq<Pair>) {
    forall i :: 0 <= i < |ps| && Usable(ps[i]) ==>
      && !CutAway(ps[i].key.GetOr(""), MAX_KEY)
      && (LastOfKey(ps, i) ==> !CutAway(ps[i].value.GetOr(""), MAX_VALUE))
  }

  /** Keys of the described map are those of usable pairs. */
  lemma {:induction false} UsableIsSeen(ps: seq<Pair>, i: nat)
    requires i < |ps| && Usable(ps[i])
    ensures CutKey(ps[i]) in FirstSeen(ps)
  {
    if i < |ps| - 1 {
      UsableIsSeen(ps[..|ps| - 1], i);
    }
  }

  lemma {:induction false} LastValueIs(ps: seq<Pair>, i: nat)
    requires i < |ps| && LastOfKey(ps, i)
    ensures LastValue(ps, CutKey(ps[i])) == CutValue(ps[i])
  {
    if i < |ps| - 1 {
      var front := ps[..|ps| - 1];
      assert front[i] == ps[i] && forall j :: i < j < |front| ==> front[j] == ps[j];
      LastValueIs(front, i);
    }
  }

  lemma {:induction false} LastOfKeyExists(ps: seq<Pair>, key: string) returns (i: nat)
    requires key in FirstSeen(ps)
    ensures i < |ps| && LastOfKey(ps, i) && CutKey(ps[i]) == key
  {
    var n := |ps| - 1;
    if Usable(ps[n]) && CutKey(ps[n]) == key {
      i := n;
    } else {
      i := LastOfKeyExists(ps[..n], key);
    }
  }

  /** An entry of the map is empty on either side exactly when the limits left nothing of it. */
  lemma FullIsSurvival(ps: seq<Pair>)
    ensures Full(Described(ps)) <==> Survives(ps)
  {
    var es, keys := Described(ps), FirstSeen(ps);
    if Survives(ps) {
      forall k | 0 <= k < |es|
        ensures es[k].key != "" && es[k].value != ""
      {
        var i := LastOfKeyExists(ps, keys[k]);
        LastValueIs(ps, i);
        TruncateToNothing(ps[i].key.GetOr(""), MAX_KEY);
        TruncateToNothing(ps[i].value.GetOr(""), MAX_VALUE);
      }
    }
    if Full(es) {
      forall i | 0 <= i < |ps| && Usable(ps[i])
        ensures !CutAway(ps[i].key.GetOr(""), MAX_KEY)
        ensures LastOfKey(ps, i) ==> !CutAway(ps[i].value.GetOr(""), MAX_VALUE)
      {
        UsableIsSeen(ps, i);
        var k :| 0 <= k < |keys| && keys[k] == CutKey(ps[i]);
        assert es[k].key == CutKey(ps[i]) && es[k].value == LastValue(ps, CutKey(ps[i]));
        TruncateToNothing(ps[i].key.GetOr(""), MAX_KEY);
        TruncateToNothing(ps[i].value.GetOr(""), MAX_VALUE);
        if LastOfKey(ps, i) {
          LastValueIs(ps, i);
        }
      }
    }
  }

  /**
   * Clamping a clamped list changes nothing exactly when, among the pairs that count, no usable key
   * and no winning value opens with more continuation bytes than its limit admits.
   */
  lemma ClampIdempotent(ps: seq<Pair>)
    ensures Clamp(AsPairs(Clamp(ps))) == Clamp(ps) <==> Survives(ps[..Counted(ps)])
  {
    FullIsSurvival(ps[..Counted(ps)]);
    ClampIsStable(ps);
  }

  lemma ClampIsStable(ps: seq<Pair>)
    ensures Clamp(AsPairs(Clamp(ps))) == Clamp(ps) <==> Full(Clamp(ps))
  {
    var es := Clamp(ps);
    ClampBounds(ps);
    var qs := AsPairs(es);
    if Full(es) {
      DescribedOfEntries(es);
      CountedAll(qs);
      assert qs[..|qs|] == qs;
    } else {
      var i :| 0 <= i < |es| && (es[i].key == "" || es[i].value == "");
      if Clamp(qs) == es {
        ClampedComesFromUsable(qs, i);
        assert false;
      }
    }
  }

  function Continuations(n: nat): (s: string)
    ensures |s| == n && forall i :: 0 <= i < n ==> IsContinuation(s[i])
  {
    seq(n, i => 0x80 as char)
  }

  /** One pair whose value is a character and 512 continuation bytes: clamping it twice loses its key. */
  lemma ClampTwiceLosesKey()
    ensures var ps := [Pair(Some("k"), Some("v" + Continuations(MAX_VALUE)))];
            && !Survives(ps) && Clamp(ps) == [Entry("k", "")] && Clamp(AsPairs(Clamp(ps))) == []
  {
    var p := Pair(Some("k"), Some("v" + Continuations(MAX_VALUE)));
    TruncateToNothing(p.value.value, MAX_VALUE);
    OnePair(p);
    var again := Pair(Some("k"), Some(""));
    assert AsPairs([Entry("k", "")]) == [again];
    OnePair(again);
    assert LastOfKey([p], 0) && CutAway([p][0].value.value, MAX_VALUE);
  }

  lemma OnePair(p: Pair)
    ensures Clamp([p]) == if Usable(p) then [Entry(CutKey(p), CutValue(p))] else []
  {
    assert [p][..0] == [] && [] + [p] == [p];
    if Usable(p) {
      DescribedStep([], p, [], 0);
    } else {
      DescribedSkip([], p);
    }
    CountedAll([p]);
    assert [p][..1] == [p];
  }

  /** An entry of a list clamped from short pairs has a non-empty key and value. */
  lemma ClampedComesFromUsable(ps: seq<Pair>, i: nat)
    requires i < |Clamp(ps)|
    requires forall p :: p in ps ==> |p.key.GetOr("")| <= MAX_KEY && |p.value.GetOr("")| <= MAX_VALUE
    ensures Clamp(ps)[i].key != "" && Clamp(ps)[i].value != ""
  {
    var qs := ps[..Counted(ps)];
    SeenIsCut(qs, i);
    var p :| p in qs && Usable(p) && FirstSeen(qs)[i] == CutKey(p);
    assert p in ps;
    LastOfUsable(qs, p);
  }

  lemma {:induction false} LastOfUsable(ps: seq<Pair>, p: Pair)
    requires p in ps && Usable(p)
    requires forall q :: q in ps ==> |q.value.GetOr("")| <= MAX_VALUE
    ensures LastValue(ps, CutKey(p)) != ""
  {
    var last := ps[|ps| - 1];
    assert last in ps;
    if !(Usable(last) && CutKey(last) == CutKey(p)) {
      assert p in ps[..|ps| - 1];
      LastOfUsable(ps[..|ps| - 1], p);
    }
  }

  /** On valid UTF-8 nothing is cut to nothing, so clamping is idempotent. */
  lemma ClampIdempotentOnUtf8(ps: seq<Pair>)
    requires forall p :: p in ps ==> ValidUtf8(p.key.GetOr("")) && ValidUtf8(p.value.GetOr(""))
    ensures Clamp(AsPairs(Clamp(ps))) == Clamp(ps)
  {
    var qs := ps[..Counted(ps)];
    forall i | 0 <= i < |qs| && Usable(qs[i])
      ensures !CutAway(qs[i].key.GetOr(""), MAX_KEY) && !CutAway(qs[i].value.GetOr(""), MAX_VALUE)
    {
      assert qs[i] in ps;
      ValidIsNotCutAway(qs[i].key.GetOr(""), MAX_KEY);
      ValidIsNotCutAway(qs[i].value.GetOr(""), MAX_VALUE);
    }
    ClampIdempotent(ps);
  }

  lemma ValidIsNotCutAway(s: string, max: nat)
    requires ValidUtf8(s) && s != [] && max >= 4
    ensures !CutAway(s, max)
  {
    ValidIsNotCutToNothing(s, max);
    TruncateToNothing(s, max);
  }

  // ------------------------------------------------- canonical JSON

  function EntryMembers(es: seq<Entry>): (ms: seq<Member>)
    ensures |ms| == |es|
  {
    seq(|es|, i requires 0 <= i < |es| => Member(Truncate(es[i].key, MAX_KEY), JString(Truncate(es[i].value, MAX_VALUE))))
  }

  function Canonical(es: seq<Entry>): string { Print(JObject(EntryMembers(es))) }

  method BuildUserMetadataJson(es: seq<Entry>) returns (json: string)
    ensures json == Canonical(es)
  {
    var w := new JsonWriter();
    w.BeginObject();
    ScopeStart(EMPTY, "{");
    ghost var ms := EntryMembers(es);
    assert ms[..0] == [];
    for i := 0 to |es|
      invariant w.State() == Scope(EMPTY, "{", ms[..i])
    {
      var key := Utf8SafeTruncate(es[i].key, MAX_KEY);
      var value := Utf8SafeTruncate(es[i].value, MAX_VALUE);
      TextField(w, key, value, EMPTY, "{", ms[..i]);
      assert ms[..i + 1] == ms[..i] + Payloads.Text(key, value);
    }
    w.EndObject();
    assert ms[..|es|] == ms;
    RootClose(ms);
    json := w.out;
  }

  /** Comparing canonical texts is comparing the maps. */
  lemma CanonicalInjective(a: seq<Entry>, b: seq<Entry>)
    requires Bounded(a) && Bounded(b)
    ensures Canonical(a) == Canonical(b) <==> a == b
  {
    SessionMarkers.StringsWellFormed(EntryMembers(a));
    SessionMarkers.StringsWellFormed(EntryMembers(b));
    JsonParse.PrintInjective(JObject(EntryMembers(a)), JObject(EntryMembers(b)));
    if EntryMembers(a) == EntryMembers(b) {
      forall i | 0 <= i < |a|
        ensures a[i] == b[i]
      {
        assert EntryMembers(a)[i] == EntryMembers(b)[i];
      }
    }
  }

  /** Change detection by string comparison is exact on what set_user_metadata stores. */
  lemma CanonicalDetectsChange(ps: seq<Pair>, qs: seq<Pair>)
    ensures Canonical(Clamp(ps)) == Canonical(Clamp(qs)) <==> Clamp(ps) == Clamp(qs)
  {
    ClampBounds(ps);
    ClampBounds(qs);
    CanonicalInjective(Clamp(ps), Clamp(qs));
  }

  /** The empty map, and only it, is the text "{}". */
  lemma CanonicalEmpty(es: seq<Entry>)
    requires Bounded(es)
    ensures Canonical(es) == "{}" <==> es == []
  {
    CanonicalInjective(es, []);
    assert EntryMembers([]) == [];
    assert Canonical([]) == "{}";
  }

  /** A parser of RFC 8259 reads the map from its text, each value under its key. */
  lemma CanonicalParses(es: seq<Entry>)
    requires Bounded(es)
    ensures exists ms :: JsonParse.Parse(Canonical(es)) == Some(JObject(ms)) && |ms| == |es|
                         && forall i :: 0 <= i < |es| ==> ms[i] == Member(es[i].key, JString(es[i].value))
  {
    var ms := EntryMembers(es);
    SessionMarkers.StringsWellFormed(ms);
    JsonParse.ParseOfPrint(JObject(ms));
    assert JsonParse.Parse(Canonical(es)) == Some(JObject(ms)) && |ms| == |es|;
  }
}

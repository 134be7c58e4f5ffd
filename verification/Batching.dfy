/**
 * Event and metric batches (src/batch.cpp, src/payloads.cpp): a bounded buffer of serialized items
 * drained into size-bounded envelopes, and why the split is the best possible.
 */
module Batching {
  import opened Base
  import opened JsonTree
  import opened JsonWriting
  import JsonParse
  import PayloadBuilders

  const MAX_ITEMS := 256
  const FLUSH_COUNT := 50
  const MAX_BATCH_BYTES := 524288
  const FLUSH_AGE := 10

  // ------------------------------------------------- the envelope

  function Joined(items: seq<string>): string {
    if items == [] then ""
    else Joined(items[..|items| - 1]) + (if |items| == 1 then "" else ",") + items[|items| - 1]
  }

  function Head(sentAtIso: string): string {
    "{" + PrintMember(Member("sentAtIso", JString(sentAtIso))) + "," + Literal("items") + ":["
  }

  function Envelope(sentAtIso: string, items: seq<string>): string { Head(sentAtIso) + Joined(items) + "]" + "}" }

  method BuildBatchEnvelope(sentAtIso: string, items: seq<string>) returns (text: string)
    ensures text == Envelope(sentAtIso, items)
  {
    var w := new JsonWriter();
    OpenItems(w, sentAtIso);
    AddItems(w, Head(sentAtIso), items);
    w.EndArray();
    w.EndObject();
    text := w.out;
  }

  method AddItems(w: JsonWriter, head: string, items: seq<string>)
    requires w.State() == Writer(head + Joined([]), [true, false])
    modifies w
    ensures w.State() == Writer(head + Joined(items), [true, items != []])
  {
    for i := 0 to |items|
      invariant w.State() == Writer(head + Joined(items[..i]), [true, i > 0])
    {
      w.RawElement(items[i]);
      AddItem(head, items, i);
    }
    assert items[..|items|] == items;
  }

  method OpenItems(w: JsonWriter, sentAtIso: string)
    requires w.State() == EMPTY
    modifies w
    ensures w.State() == Writer(Head(sentAtIso) + Joined([]), [true, false])
  {
    w.BeginObject();
    w.StringField("sentAtIso", sentAtIso);
    w.BeginArrayField("items");
    HeadText(PrintMember(Member("sentAtIso", JString(sentAtIso))), Literal("items"));
    assert w.needsComma == [true, false];
  }

  lemma HeadText(member: string, name: string)
    ensures "" + "" + "{" + "" + member + "," + (name + ":[") == "{" + member + "," + name + ":[" + ""
    ensures "{" + "" + member == "{" + member
  {
  }

  lemma AddItem(head: string, items: seq<string>, i: nat)
    requires i < |items|
    ensures head + Joined(items[..i]) + (if i > 0 then "," else "") + items[i] == head + Joined(items[..i + 1])
  {
    assert items[..i + 1][..i] == items[..i];
    Assoc(head, Joined(items[..i]), if i > 0 then "," else "");
    Assoc(head, Joined(items[..i]) + (if i > 0 then "," else ""), items[i]);
  }

  function Printed(xs: seq<Json>): (items: seq<string>)
    ensures |items| == |xs|
  {
    seq(|xs|, i requires 0 <= i < |xs| => Print(xs[i]))
  }

  lemma {:induction false} JoinedIsPrint(xs: seq<Json>)
    ensures Joined(Printed(xs)) == PrintItems(xs)
  {
    if xs != [] {
      var n := |xs| - 1;
      JoinedIsPrint(xs[..n]);
      PayloadBuilders.PrintItemsAppend(xs[..n], xs[n]);
      assert xs[..n] + [xs[n]] == xs && Printed(xs)[..n] == Printed(xs[..n]);
    }
  }

  lemma TwoMembers(a: Member, b: Member)
    ensures PrintMembers([a, b]) == PrintMember(a) + "," + PrintMember(b)
  {
    assert [a, b][1..] == [b];
    assert PrintMembers([b]) == PrintMember(b) + "";
    Assoc(PrintMember(a), ",", PrintMember(b));
  }

  lemma EnvelopeText(member: string, name: string, items: string)
    ensures "{" + member + "," + name + ":[" + items + "]" == "{" + (member + "," + (name + ":" + ("[" + items + "]")))
  {
    assert name + ":" + ("[" + items + "]") == name + ":[" + items + "]";
    Regroup("{" + member + ",", name, ":[", items, "]");
    Assoc("{", member + ",", name + ":[" + items + "]");
    Assoc("{", member, ",");
  }

  lemma EnvelopeIsPrint(sentAtIso: string, xs: seq<Json>)
    ensures Envelope(sentAtIso, Printed(xs))
         == Print(JObject([Member("sentAtIso", JString(sentAtIso)), Member("items", JArray(xs))]))
  {
    hide Joined, PrintItems, Literal;
    var a, b := Member("sentAtIso", JString(sentAtIso)), Member("items", JArray(xs));
    JoinedIsPrint(xs);
    TwoMembers(a, b);
    EnvelopeText(PrintMember(a), Literal("items"), PrintItems(xs));
  }

  /** The envelope of printed items is one document, and parses to the send time and those very items. */
  lemma EnvelopeReadsBack(sentAtIso: string, xs: seq<Json>)
    requires WellFormedItems(xs)
    ensures JsonParse.Parse(Envelope(sentAtIso, Printed(xs)))
         == Some(JObject([Member("sentAtIso", JString(sentAtIso)), Member("items", JArray(xs))]))
  {
    hide Envelope, Print, JsonParse.Parse;
    var a, b := Member("sentAtIso", JString(sentAtIso)), Member("items", JArray(xs));
    EnvelopeIsPrint(sentAtIso, xs);
    assert [a, b][1..] == [b] && [b][1..] == [] && WellFormed(a.value) && WellFormed(b.value);
    assert WellFormedMembers([b]) && WellFormedMembers([a, b]);
    JsonParse.ParseOfPrint(JObject([a, b]));
  }

  // ------------------------------------------------- sizes

  /** Bytes an item adds to an envelope that already holds some, or none. */
  function Added(item: string, first: bool): nat { |item| + if first then 0 else 1 }

  function Size(base: nat, items: seq<string>): (n: nat)
    ensures n >= base
  {
    if items == [] then base else Size(base, items[..|items| - 1]) + Added(items[|items| - 1], |items| == 1)
  }

  /** The running count is the length of the envelope. */
  lemma {:induction false} SizeIsLength(sentAtIso: string, items: seq<string>)
    ensures Size(|Envelope(sentAtIso, [])|, items) == |Envelope(sentAtIso, items)|
  {
    if items != [] {
      SizeIsLength(sentAtIso, items[..|items| - 1]);
    }
  }

  lemma SizeAdd(base: nat, items: seq<string>, item: string)
    ensures Size(base, items + [item]) == Size(base, items) + Added(item, items == [])
  {
    assert (items + [item])[..|items|] == items;
  }

  /** Fewer items, at either end, make a smaller envelope. */
  lemma {:induction false} SizeShrinks(base: nat, items: seq<string>, j: nat)
    requires j < |items|
    ensures Size(base, items[j..]) <= Size(base, items)
  {
    var n := |items| - 1;
    if j < n {
      SizeShrinks(base, items[..n], j);
      assert items[j..][..n - j] == items[..n][j..];
    } else {
      assert items[j..] == [items[n]] && [items[n]][..0] == [];
      SizeAtLeast(base, items[..n], n);
    }
  }

  lemma {:induction false} SizeAtLeast(base: nat, items: seq<string>, k: nat)
    requires k <= |items|
    ensures Size(base, items[..k]) <= Size(base, items)
    ensures k < |items| && k > 0 ==> Size(base, items[..k]) + 1 + |items[k]| <= Size(base, items)
  {
    if k < |items| {
      var n := |items| - 1;
      assert items[..n][..k] == items[..k];
      SizeAtLeast(base, items[..n], k);
    } else {
      assert items[..k] == items;
    }
  }

  // ------------------------------------------------- the rule and the greedy split

  /** An envelope within the limit, or a single item whatever its size. */
  predicate Ok(base: nat, chunk: seq<string>) { chunk != [] && (|chunk| == 1 || Size(base, chunk) <= 524288) }

  /** Items the next envelope takes, `k` of them being in it already. */
  function Taken(base: nat, items: seq<string>, k: nat): (n: nat)
    requires k <= |items|
    ensures k <= n <= |items|
    decreases |items| - k
  {
    if k == |items| || (k > 0 && Size(base, items[..k + 1]) > MAX_BATCH_BYTES) then k
    else Taken(base, items, k + 1)
  }

  function Greedy(base: nat, items: seq<string>): (n: nat)
    requires items != []
    ensures 0 < n <= |items|
  {
    Taken(base, items, 1)
  }

  function Split(base: nat, items: seq<string>): seq<seq<string>> {
    if items == [] then [] else [items[..Greedy(base, items)]] + Split(base, items[Greedy(base, items)..])
  }

  function Concat(chunks: seq<seq<string>>): seq<string> { if chunks == [] then [] else chunks[0] + Concat(chunks[1..]) }

  predicate AllOk(base: nat, chunks: seq<seq<string>>) { forall i :: 0 <= i < |chunks| ==> Ok(base, chunks[i]) }

  function Envelopes(sentAtIso: string, chunks: seq<seq<string>>): (es: seq<string>)
    ensures |es| == |chunks|
  {
    if chunks == [] then [] else [Envelope(sentAtIso, chunks[0])] + Envelopes(sentAtIso, chunks[1..])
  }

  // ------------------------------------------------- the code

  class Batch {
    var items: seq<string>
    var firstAdd: int

    constructor ()
      ensures items == []
    {
      items, firstAdd := [], 0;
    }

    /** The newest 256 items; the age clock starts with the first. */
    method Add(item: string, now: int) returns (full: bool)
      modifies this
      ensures items == (if |old(items)| >= 256 then old(items)[1..] else old(items)) + [item]
      ensures firstAdd == if old(items) == [] then now else old(firstAdd)
      ensures full == (|items| >= 50)
    {
      if items == [] {
        firstAdd := now;
      }
      if |items| >= MAX_ITEMS {
        items := items[1..];
      }
      items := items + [item];
      full := |items| >= FLUSH_COUNT;
    }

    predicate Ready(now: int, force: bool)
      reads this
    {
      items != [] && (force || |items| >= FLUSH_COUNT || now - firstAdd >= FLUSH_AGE)
    }

    method DrainLocked(sentAtIso: string) returns (envelope: string)
      requires items != []
      modifies `items
      ensures var n := Greedy(|Envelope(sentAtIso, [])|, old(items));
              envelope == Envelope(sentAtIso, old(items)[..n]) && items == old(items)[n..]
    {
      var empty := BuildBatchEnvelope(sentAtIso, []);
      var drained := TakeItems(|empty|);
      envelope := BuildBatchEnvelope(sentAtIso, drained);
    }

    /** The loop that moves items over while the running byte count allows it. */
    method TakeItems(base: nat) returns (drained: seq<string>)
      requires items != []
      modifies `items
      ensures drained == old(items)[..Greedy(base, old(items))] && items == old(items)[Greedy(base, old(items))..]
    {
      ghost var all := items;
      var bytes := base;
      drained := [];
      GreedyFromNone(base, all);
      while items != []
        invariant drained + items == all && |drained| <= |all| && bytes == Size(base, drained)
        invariant Taken(base, all, |drained|) == Greedy(base, all)
        decreases |items|
      {
        TakeOne(base, all, drained, items);
        var nextBytes := |items[0]| + if drained == [] then 0 else 1;
        if drained != [] && bytes + nextBytes > MAX_BATCH_BYTES {
          break;
        }
        bytes := bytes + nextBytes;
        drained := drained + [items[0]];
        items := items[1..];
        if bytes >= MAX_BATCH_BYTES {
          FullStops(base, all, |drained|);
          break;
        }
      }
      assert Taken(base, all, |drained|) == |drained|;
    }

    method DrainIfReady(sentAtIso: string, now: int, force: bool) returns (envelope: Option<string>)
      modifies `items
      ensures envelope.Some? <==> old(items) != [] && (force || |old(items)| >= 50 || now - old(firstAdd) >= 10)
      ensures !old(Ready(now, force)) ==> envelope == None && items == old(items)
      ensures old(Ready(now, force)) ==>
                var n := Greedy(|Envelope(sentAtIso, [])|, old(items));
                envelope == Some(Envelope(sentAtIso, old(items)[..n])) && items == old(items)[n..]
    {
      if !Ready(now, force) {
        return None;
      }
      var text := DrainLocked(sentAtIso);
      envelope := Some(text);
    }

    method DrainEnvelopesIfReady(sentAtIso: string, now: int, force: bool) returns (envelopes: seq<string>)
      modifies `items
      ensures items == [] <==> old(items) == [] || force || |old(items)| >= 50 || now - old(firstAdd) >= 10
      ensures !old(Ready(now, force)) ==> envelopes == [] && items == old(items)
      ensures old(Ready(now, force)) ==>
                items == [] && envelopes == Envelopes(sentAtIso, Split(|Envelope(sentAtIso, [])|, old(items)))
    {
      envelopes := [];
      if !Ready(now, force) {
        return;
      }
      ghost var base := |Envelope(sentAtIso, [])|;
      while items != []
        invariant Envelopes(sentAtIso, Split(base, old(items))) == envelopes + Envelopes(sentAtIso, Split(base, items))
        decreases |items|
      {
        ghost var n, before := Greedy(base, items), items;
        var text := DrainLocked(sentAtIso);
        SplitFirst(sentAtIso, base, before);
        Assoc(envelopes, [text], Envelopes(sentAtIso, Split(base, items)));
        envelopes := envelopes + [text];
      }
    }
  }

  lemma TakeOne(base: nat, all: seq<string>, drained: seq<string>, items: seq<string>)
    requires drained + items == all && items != []
    ensures all[..|drained|] == drained && all[..|drained| + 1] == drained + [items[0]]
    ensures drained + [items[0]] + items[1..] == all
    ensures Size(base, all[..|drained| + 1]) == Size(base, drained) + Added(items[0], drained == [])
  {
    assert all[..|drained| + 1] == drained + [items[0]];
    SizeAdd(base, drained, items[0]);
  }

  lemma GreedyFromNone(base: nat, items: seq<string>)
    requires items != []
    ensures Taken(base, items, 0) == Greedy(base, items)
  {
  }

  /** A full envelope takes no more: even an empty item would need its comma. */
  lemma FullStops(base: nat, items: seq<string>, k: nat)
    requires 0 < k <= |items| && Size(base, items[..k]) >= MAX_BATCH_BYTES
    ensures Taken(base, items, k) == k
  {
    if k < |items| {
      assert items[..k + 1] == items[..k] + [items[k]];
      SizeAdd(base, items[..k], items[k]);
    }
  }

  lemma EnvelopesCons(sentAtIso: string, chunk: seq<string>, rest: seq<seq<string>>)
    ensures Envelopes(sentAtIso, [chunk] + rest) == [Envelope(sentAtIso, chunk)] + Envelopes(sentAtIso, rest)
  {
    assert ([chunk] + rest)[1..] == rest;
  }

  lemma SplitFirst(sentAtIso: string, base: nat, items: seq<string>)
    requires items != []
    ensures var n := Greedy(base, items);
            Envelopes(sentAtIso, Split(base, items))
            == [Envelope(sentAtIso, items[..n])] + Envelopes(sentAtIso, Split(base, items[n..]))
  {
    var n := Greedy(base, items);
    EnvelopesCons(sentAtIso, items[..n], Split(base, items[n..]));
  }

  // ------------------------------------------------- what the split is worth

  /** The greedy chunk keeps the rule, and no longer prefix would. */
  lemma {:induction false} TakenIsLongest(base: nat, items: seq<string>, k: nat)
    requires 0 < k <= |items| && Ok(base, items[..k])
    ensures Ok(base, items[..Taken(base, items, k)])
    ensures forall n :: k <= n <= |items| && Ok(base, items[..n]) ==> n <= Taken(base, items, k)
    decreases |items| - k
  {
    if k < |items| {
      if Size(base, items[..k + 1]) <= MAX_BATCH_BYTES {
        TakenIsLongest(base, items, k + 1);
      } else {
        forall n | k < n <= |items|
          ensures !Ok(base, items[..n])
        {
          assert items[..n][..k + 1] == items[..k + 1];
          SizeAtLeast(base, items[..n], k + 1);
        }
      }
    }
  }

  lemma GreedyIsLongest(base: nat, items: seq<string>, n: nat)
    requires items != []
    ensures Ok(base, items[..Greedy(base, items)])
    ensures n <= |items| && Ok(base, items[..n]) ==> n <= Greedy(base, items)
  {
    TakenIsLongest(base, items, 1);
  }

  /** The chunks are the buffered items in order, each within the rule. */
  lemma {:induction false} SplitIsSound(base: nat, items: seq<string>)
    ensures Concat(Split(base, items)) == items && AllOk(base, Split(base, items))
    decreases |items|
  {
    if items != [] {
      var n := Greedy(base, items);
      GreedyIsLongest(base, items, n);
      SplitIsSound(base, items[n..]);
      assert items[..n] + items[n..] == items;
    }
  }

  /** No envelope is over the limit unless it holds a single item. */
  lemma EnvelopesAreBounded(sentAtIso: string, items: seq<string>, i: nat)
    requires var chunks := Split(|Envelope(sentAtIso, [])|, items); i < |chunks|
    ensures var chunk := Split(|Envelope(sentAtIso, [])|, items)[i];
            chunk != [] && (|Envelope(sentAtIso, chunk)| > 524288 ==> |chunk| == 1)
  {
    var base := |Envelope(sentAtIso, [])|;
    SplitIsSound(base, items);
    assert Ok(base, Split(base, items)[i]);
    SizeIsLength(sentAtIso, Split(base, items)[i]);
  }

  /** Starting later never takes more envelopes. */
  lemma {:induction false} LaterIsCheaper(base: nat, items: seq<string>, j: nat)
    requires j <= |items|
    ensures |Split(base, items[j..])| <= |Split(base, items)|
    decreases |items|
  {
    if j > 0 && j < |items| {
      var k := Greedy(base, items);
      if j >= k {
        assert items[j..] == items[k..][j - k..];
        LaterIsCheaper(base, items[k..], j - k);
      } else {
        var rest := items[j..];
        ReachesAsFar(base, items, j);
        var n := Greedy(base, rest);
        assert rest[n..] == items[k..][j + n - k..];
        LaterIsCheaper(base, items[k..], j + n - k);
      }
    } else if j == 0 {
      assert items[0..] == items;
    }
  }

  lemma ReachesAsFar(base: nat, items: seq<string>, j: nat)
    requires 0 < j < |items| && j < Greedy(base, items)
    ensures j + Greedy(base, items[j..]) >= Greedy(base, items)
  {
    var k := Greedy(base, items);
    GreedyIsLongest(base, items, k);
    var rest := items[j..];
    assert rest[..k - j] == items[..k][j..];
    SizeShrinks(base, items[..k], j);
    GreedyIsLongest(base, rest, k - j);
  }

  lemma DropTwice(items: seq<string>, n: nat, k: nat)
    requires n <= k <= |items|
    ensures items[n..][k - n..] == items[k..]
  {
  }

  lemma FirstChunk(chunks: seq<seq<string>>)
    requires chunks != []
    ensures |chunks[0]| <= |Concat(chunks)|
    ensures Concat(chunks)[..|chunks[0]|] == chunks[0] && Concat(chunks)[|chunks[0]|..] == Concat(chunks[1..])
  {
  }

  /** No order-preserving split under the same rule has fewer envelopes. */
  lemma {:induction false} SplitIsMinimal(base: nat, items: seq<string>, chunks: seq<seq<string>>)
    requires Concat(chunks) == items && AllOk(base, chunks)
    ensures |Split(base, items)| <= |chunks|
    decreases |chunks|
  {
    if chunks != [] {
      var n := |chunks[0]|;
      assert Ok(base, chunks[0]);
      FirstChunk(chunks);
      SplitIsMinimal(base, items[n..], chunks[1..]);
      var k := Greedy(base, items);
      GreedyIsLongest(base, items, n);
      DropTwice(items, n, k);
      LaterIsCheaper(base, items[n..], k - n);
    }
  }
}

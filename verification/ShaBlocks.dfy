/**
 * The block machinery of SHA-256 (src/signature.cpp) over any word type: the message schedule,
 * the rounds and the chaining of FIPS 180-4, section 6.2.2, as functions, and the in-place
 * block-by-block code proved against them. Sha256.dfy supplies the 32-bit words.
 */
module ShaBlocks {
  type Byte = bv8

  /** The unit the compression works on: 512 bits. */
  type Block = b: seq<Byte> | |b| == 64 witness seq(64, _ => 0)

  /** The word operations the algorithm is made of, and its constants. */
  datatype Ops<!W(!new)> = Ops(
    zero: W,                                // fills the schedule before it is computed
    k: seq<W>,                              // round constants
    pack: (Byte, Byte, Byte, Byte) -> W,    // four bytes, most significant first
    sigma0: W -> W, sigma1: W -> W,         // of the schedule
    temp1: (W, W, W, W, W, W) -> W,         // of e, f, g, h, the constant and the schedule word
    temp2: (W, W, W) -> W,                  // of a, b, c
    add: (W, W) -> W,                       // modular sum of two
    sum4: (W, W, W, W) -> W,                // modular sum of four, left to right
    bytes: W -> seq<Byte>)                  // big-endian bytes of a word
  {
    ghost predicate Commutes(x: W, y: W) { add(x, y) == add(y, x) }

    ghost predicate Reverses(a: W, b: W, c: W, d: W) { sum4(a, b, c, d) == sum4(d, c, b, a) }

    ghost predicate Valid() {
      && |k| == 64
      && (forall x, y :: Commutes(x, y))
      && (forall a, b, c, d :: Reverses(a, b, c, d))
    }
  }

  /** Word t of the schedule in the standard's order, from words t-2, t-7, t-15 and t-16. */
  function Expand<W(!new)>(o: Ops<W>, w2: W, w7: W, w15: W, w16: W): W {
    o.sum4(o.sigma1(w2), w7, o.sigma0(w15), w16)
  }

  /** The first `n` words of the message schedule. */
  function Schedule<W(!new)>(o: Ops<W>, block: Block, n: nat): (w: seq<W>)
    requires n <= |block|
    ensures |w| == n
  {
    if n == 0 then []
    else
      var w, t := Schedule(o, block, n - 1), n - 1;
      w + [if t < 16 then o.pack(block[4 * t], block[4 * t + 1], block[4 * t + 2], block[4 * t + 3])
           else Expand(o, w[t - 2], w[t - 7], w[t - 15], w[t - 16])]
  }

  datatype Vars<W> = Vars(a: W, b: W, c: W, d: W, e: W, f: W, g: W, h: W)

  function Round<W(!new)>(o: Ops<W>, v: Vars<W>, k: W, w: W): Vars<W> {
    var t1 := o.temp1(v.e, v.f, v.g, v.h, k, w);
    Vars(o.add(t1, o.temp2(v.a, v.b, v.c)), v.a, v.b, v.c, o.add(v.d, t1), v.e, v.f, v.g)
  }

  /** The first `n` rounds. */
  function Rounds<W(!new)>(o: Ops<W>, v: Vars<W>, w: seq<W>, n: nat): Vars<W>
    requires n <= |w| && n <= |o.k|
  {
    if n == 0 then v else Round(o, Rounds(o, v, w, n - 1), o.k[n - 1], w[n - 1])
  }

  /** The eight words of an array as the variables a to h. */
  function Load<W(!new)>(h: seq<W>): Vars<W>
    requires |h| == 8
  {
    Vars(h[0], h[1], h[2], h[3], h[4], h[5], h[6], h[7])
  }

  function Sum<W(!new)>(o: Ops<W>, v: Vars<W>, h: Vars<W>): Vars<W> {
    Vars(o.add(v.a, h.a), o.add(v.b, h.b), o.add(v.c, h.c), o.add(v.d, h.d),
         o.add(v.e, h.e), o.add(v.f, h.f), o.add(v.g, h.g), o.add(v.h, h.h))
  }

  function Compress<W(!new)>(o: Ops<W>, h: Vars<W>, block: Block): Vars<W>
    requires |o.k| == 64
  {
    var w := Schedule(o, block, |block|);
    Sum(o, Rounds(o, h, w, |w|), h)
  }

  /** The compression folded over the blocks of a message, first to last. */
  function Fold<W(!new)>(o: Ops<W>, h: Vars<W>, blocks: seq<Block>): Vars<W>
    requires |o.k| == 64
  {
    if blocks == [] then h
    else Compress(o, Fold(o, h, blocks[..|blocks| - 1]), blocks[|blocks| - 1])
  }

  /** Section 5.2.1: a padded message as blocks. */
  function Blocks(bytes: seq<Byte>, n: nat): (blocks: seq<Block>)
    requires 64 * n <= |bytes|
    ensures |blocks| == n
  {
    if n == 0 then [] else Blocks(bytes, n - 1) + [bytes[64 * (n - 1)..64 * n]]
  }

  function AllBlocks(bytes: seq<Byte>): seq<Block> { Blocks(bytes, |bytes| / 64) }

  function Output<W(!new)>(o: Ops<W>, h: Vars<W>): seq<Byte> {
    o.bytes(h.a) + o.bytes(h.b) + o.bytes(h.c) + o.bytes(h.d) + o.bytes(h.e) + o.bytes(h.f) + o.bytes(h.g) + o.bytes(h.h)
  }

  // ------------------------------------------------- FIPS 180-4, section 5.1.1

  function LowByte(n: nat): Byte { (n % 256) as Byte }

  /** The `k` low base-256 digits of `n`, most significant first. */
  function BigEndian(n: nat, k: nat): (s: seq<Byte>)
    ensures |s| == k
  {
    if k == 0 then [] else BigEndian(n / 256, k - 1) + [LowByte(n)]
  }

  /** Zero bytes between the 0x80 marker and the length. */
  function ZeroCount(length: nat): nat { (55 - length) % 64 }

  function Zeros(n: nat): (s: seq<Byte>)
    ensures |s| == n
  {
    seq(n, _ => 0)
  }

  /** What is appended to a message of `length` bytes: a one bit, zeros, the bit length modulo 2^64. */
  function Padding(length: nat): (s: seq<Byte>)
    ensures |s| == 9 + ZeroCount(length)
  {
    [0x80] + Zeros(ZeroCount(length)) + BigEndian(8 * length, 8)
  }

  function Pad(data: seq<Byte>): seq<Byte> { data + Padding(|data|) }

  /** The padded message fills whole blocks. */
  lemma PadFillsBlocks(data: seq<Byte>)
    ensures |Pad(data)| == |data| + 9 + ZeroCount(|data|) && (|data| + 9 + ZeroCount(|data|)) % 64 == 0
  {
    WholeBlocks(|data|);
  }

  lemma WholeBlocks(length: nat)
    ensures (length + 9 + ZeroCount(length)) % 64 == 0
  {
  }

  function Hash<W(!new)>(o: Ops<W>, h0: Vars<W>, data: seq<Byte>): seq<Byte>
    requires |o.k| == 64
  {
    Output(o, Fold(o, h0, AllBlocks(Pad(data))))
  }

  /** The zero count is the least that fills the last block: l + 1 + k = 448 modulo 512, in bits. */
  lemma ZeroCountIsLeast(length: nat, k: nat)
    ensures (8 * length + 8 + 8 * ZeroCount(length)) % 512 == 448
    ensures (8 * length + 8 + 8 * k) % 512 == 448 ==> ZeroCount(length) <= k
  {
    BitsOfBytes(length + 1 + ZeroCount(length));
    BitsOfBytes(length + 1 + k);
    LeastRest(length, k);
  }

  lemma LeastRest(length: nat, k: nat)
    ensures (length + 1 + ZeroCount(length)) % 64 == 56
    ensures (length + 1 + k) % 64 == 56 ==> ZeroCount(length) <= k
  {
    if (length + 1 + k) % 64 == 56 {
      var q := (length + 1 + k) / 64;
      assert 55 - length == k - 64 * q;
    }
  }

  lemma BitsOfBytes(n: nat)
    ensures (8 * n) % 512 == 8 * (n % 64)
  {
    var q, r := n / 64, n % 64;
    assert 8 * n == 512 * q + 8 * r;
  }

  // ------------------------------------------------- the code

  class ShaState<W(0,!new)> {
    const h: array<W>

    constructor (start: seq<W>)
      ensures fresh(h) && h[..] == start
    {
      h := new W[|start|](i requires 0 <= i < |start| => start[i]);
    }

    method ProcessBlock(o: Ops<W>, block: Block)
      requires h.Length == 8 && o.Valid()
      modifies h
      ensures Load(h[..]) == Compress(o, old(Load(h[..])), block)
    {
      var w := FillSchedule(o, block);
      var v := RunRounds(o, Load(h[..]), w);
      AddTo(o, h, v);
    }

    /** Feeds `count` whole blocks to the state, one after another. */
    method ProcessBlocks(o: Ops<W>, bytes: seq<Byte>, count: nat)
      requires h.Length == 8 && 64 * count <= |bytes| && o.Valid()
      modifies h
      ensures Load(h[..]) == Fold(o, old(Load(h[..])), Blocks(bytes, count))
    {
      for i := 0 to count
        invariant Load(h[..]) == Fold(o, old(Load(h[..])), Blocks(bytes, i))
      {
        ProcessBlock(o, bytes[64 * i..64 * (i + 1)]);
        FoldNext(o, old(Load(h[..])), Blocks(bytes, i), bytes[64 * i..64 * (i + 1)]);
      }
    }
  }

  lemma FoldNext<W(!new)>(o: Ops<W>, h: Vars<W>, front: seq<Block>, block: Block)
    requires |o.k| == 64
    ensures Fold(o, h, front + [block]) == Compress(o, Fold(o, h, front), block)
  {
    assert (front + [block])[..|front|] == front;
  }

  method AddTo<W(!new)>(o: Ops<W>, h: array<W>, v: Vars<W>)
    requires h.Length == 8 && o.Valid()
    modifies h
    ensures Load(h[..]) == Sum(o, v, old(Load(h[..])))
  {
    SumCommutes(o, v, Load(h[..]));
    h[0] := o.add(h[0], v.a);
    h[1] := o.add(h[1], v.b);
    h[2] := o.add(h[2], v.c);
    h[3] := o.add(h[3], v.d);
    h[4] := o.add(h[4], v.e);
    h[5] := o.add(h[5], v.f);
    h[6] := o.add(h[6], v.g);
    h[7] := o.add(h[7], v.h);
  }

  lemma SumCommutes<W(!new)>(o: Ops<W>, v: Vars<W>, h: Vars<W>)
    requires o.Valid()
    ensures Sum(o, v, h) == Sum(o, h, v)
  {
    assert o.Commutes(v.a, h.a) && o.Commutes(v.b, h.b) && o.Commutes(v.c, h.c) && o.Commutes(v.d, h.d);
    assert o.Commutes(v.e, h.e) && o.Commutes(v.f, h.f) && o.Commutes(v.g, h.g) && o.Commutes(v.h, h.h);
  }

  method FillSchedule<W(!new)>(o: Ops<W>, block: Block) returns (words: seq<W>)
    requires o.Valid()
    ensures words == Schedule(o, block, |block|)
  {
    var w := new W[64](_ => o.zero);
    for i := 0 to 16
      invariant w[..i] == Schedule(o, block, i)
    {
      w[i] := o.pack(block[i * 4], block[i * 4 + 1], block[i * 4 + 2], block[i * 4 + 3]);
      assert w[..i + 1] == w[..i] + [w[i]];
    }
    for i := 16 to 64
      invariant w[..i] == Schedule(o, block, i)
    {
      ghost var front := w[..i];
      assert front[i - 16] == w[i - 16] && front[i - 15] == w[i - 15] && front[i - 7] == w[i - 7] && front[i - 2] == w[i - 2];
      var s0 := o.sigma0(w[i - 15]);
      var s1 := o.sigma1(w[i - 2]);
      assert o.Reverses(w[i - 16], s0, w[i - 7], s1);
      w[i] := o.sum4(w[i - 16], s0, w[i - 7], s1);
      assert w[..i + 1] == front + [w[i]];
    }
    words := w[..];
    assert words == w[..64];
  }

  method RunRounds<W(!new)>(o: Ops<W>, start: Vars<W>, w: seq<W>) returns (v: Vars<W>)
    requires |w| == 64 && o.Valid()
    ensures v == Rounds(o, start, w, |w|)
  {
    var a, b, c, d, e, f, g, hh := start.a, start.b, start.c, start.d, start.e, start.f, start.g, start.h;
    for i := 0 to |w|
      invariant Vars(a, b, c, d, e, f, g, hh) == Rounds(o, start, w, i)
    {
      var temp1 := o.temp1(e, f, g, hh, o.k[i], w[i]);
      var temp2 := o.temp2(a, b, c);
      hh := g;
      g := f;
      f := e;
      e := o.add(d, temp1);
      d := c;
      c := b;
      b := a;
      a := o.add(temp1, temp2);
    }
    v := Vars(a, b, c, d, e, f, g, hh);
  }

  /** Feeding two lists of blocks is feeding their concatenation. */
  lemma {:induction false} FoldAppend<W(!new)>(o: Ops<W>, h: Vars<W>, a: seq<Block>, b: seq<Block>)
    requires |o.k| == 64
    ensures Fold(o, h, a + b) == Fold(o, Fold(o, h, a), b)
  {
    if b == [] {
      assert a + b == a;
    } else {
      var front, last := b[..|b| - 1], b[|b| - 1];
      FoldAppend(o, h, a, front);
      FoldNext(o, h, a + front, last);
      assert a + front + [last] == a + b;
    }
  }

  /** Blocks of a message cut at a block boundary. */
  lemma {:induction false} BlocksAppend(all: seq<Byte>, a: seq<Byte>, n: nat, b: seq<Byte>, m: nat)
    requires 64 * n <= |a| && 64 * m <= |b| && 64 * (n + m) <= |all|
    requires all[..64 * n] == a[..64 * n] && all[64 * n..64 * (n + m)] == b[..64 * m]
    ensures Blocks(all, n + m) == Blocks(a, n) + Blocks(b, m)
  {
    if m > 0 {
      CutBoth(all, 64 * n, 64 * (n + m), b, 64 * (m - 1));
      BlocksAppend(all, a, n, b, m - 1);
    } else if n > 0 {
      CutBoth(all, 0, 64 * n, a, 64 * (n - 1));
      BlocksAppend(all, a, n - 1, b, m);
    }
  }

  /** Equal stretches, cut at the same place. */
  lemma CutBoth(all: seq<Byte>, lo: nat, hi: nat, b: seq<Byte>, k: nat)
    requires lo <= hi <= |all| && k <= hi - lo <= |b| && all[lo..hi] == b[..hi - lo]
    ensures all[lo..lo + k] == b[..k] && all[lo + k..hi] == b[k..hi - lo]
  {
    assert all[lo..lo + k] == all[lo..hi][..k] && b[..k] == b[..hi - lo][..k];
    assert all[lo + k..hi] == all[lo..hi][k..] && b[k..hi - lo] == b[..hi - lo][k..];
  }

  /** The last block or two: what is left of the message and the padding. */
  method FillTail(rest: seq<Byte>, length: nat) returns (bytes: seq<Byte>, blocks: nat)
    requires |rest| == length % 64
    ensures |bytes| == 128 && blocks <= 2
    ensures bytes[..64 * blocks] == rest + Padding(length)
  {
    var tail := StartTail(rest);
    blocks := if |rest| + 1 + 8 > 64 then 2 else 1;
    TailSize(length, blocks);
    ghost var started := tail[..];
    WriteLength(tail, 64 * blocks, length);
    bytes := tail[..];
    TailLayout(started, bytes, rest, length, 64 * blocks);
  }

  /** The remaining message bytes, the marker and zeros up to two blocks. */
  method StartTail(rest: seq<Byte>) returns (tail: array<Byte>)
    requires |rest| < 64
    ensures fresh(tail) && tail.Length == 128
    ensures tail[..] == rest + [0x80] + Zeros(127 - |rest|)
  {
    tail := new Byte[128](_ => 0);
    for i := 0 to |rest|
      invariant forall k :: 0 <= k < 128 ==> tail[k] == if k < i then rest[k] else 0
    {
      tail[i] := rest[i];
    }
    tail[|rest|] := 0x80;
  }

  lemma TailLayout(started: seq<Byte>, bytes: seq<Byte>, rest: seq<Byte>, length: nat, end: nat)
    requires |rest| + 9 + ZeroCount(length) == end <= 128 == |bytes|
    requires started == rest + [0x80] + Zeros(127 - |rest|)
    requires bytes[..end - 8] == started[..end - 8] && bytes[end - 8..end] == BigEndian(8 * length, 8)
    ensures bytes[..end] == rest + Padding(length)
  {
    var z := ZeroCount(length);
    assert bytes[..end] == bytes[..end - 8] + bytes[end - 8..end];
    assert started[..end - 8] == rest + [0x80] + Zeros(z);
    assert rest + ([0x80] + Zeros(z) + BigEndian(8 * length, 8)) == rest + [0x80] + Zeros(z) + BigEndian(8 * length, 8);
  }

  lemma TailSize(length: nat, blocks: nat)
    requires blocks == if length % 64 + 9 > 64 then 2 else 1
    ensures length % 64 + 9 + ZeroCount(length) == 64 * blocks
  {
  }

  /** The bit length, big-endian, in the eight bytes before `end`. */
  method WriteLength(tail: array<Byte>, end: nat, length: nat)
    requires 8 <= end <= tail.Length
    modifies tail
    ensures tail[end - 8..end] == BigEndian(8 * length, 8)
    ensures tail[..end - 8] == old(tail[..end - 8])
  {
    var bits := 8 * length;
    for i := 0 to 8
      invariant bits >= 0
      invariant forall k :: 0 <= k < tail.Length && !(end - i <= k < end) ==> tail[k] == old(tail[k])
      invariant BigEndian(8 * length, 8) == BigEndian(bits, 8 - i) + tail[end - i..end]
    {
      ghost var written := tail[end - i..end];
      tail[end - 1 - i] := LowByte(bits);
      assert tail[end - (i + 1)..end] == [LowByte(bits)] + written;
      bits := bits / 256;
    }
    assert BigEndian(bits, 0) == [];
  }

  method RunHash<W(0,!new)>(o: Ops<W>, h0: seq<W>, data: seq<Byte>) returns (digest: seq<Byte>)
    requires |h0| == 8 && o.Valid()
    ensures digest == Hash(o, Load(h0), data)
  {
    var state := new ShaState(h0);
    var fullBlocks := |data| / 64;
    state.ProcessBlocks(o, data, fullBlocks);
    var tail, blocks := FillTail(data[64 * fullBlocks..], |data|);
    state.ProcessBlocks(o, tail, blocks);
    TwoBuffers(o, Load(h0), data, fullBlocks, Padding(|data|), tail, blocks);
    digest := WriteOutput(o, state.h[..]);
  }

  lemma TwoBuffers<W(!new)>(o: Ops<W>, h: Vars<W>, data: seq<Byte>, n: nat, padding: seq<Byte>, tail: seq<Byte>, m: nat)
    requires |o.k| == 64 && 64 * n <= |data| && 64 * m <= |tail|
    requires tail[..64 * m] == data[64 * n..] + padding
    ensures Fold(o, Fold(o, h, Blocks(data, n)), Blocks(tail, m)) == Fold(o, h, AllBlocks(data + padding))
  {
    CutBlocks(data, n, padding, tail, m);
    FoldAppend(o, h, Blocks(data, n), Blocks(tail, m));
  }

  lemma CutBlocks(data: seq<Byte>, n: nat, padding: seq<Byte>, tail: seq<Byte>, m: nat)
    requires 64 * n <= |data| && 64 * m <= |tail|
    requires tail[..64 * m] == data[64 * n..] + padding
    ensures AllBlocks(data + padding) == Blocks(data, n) + Blocks(tail, m)
  {
    var all := data + padding;
    CutAtBlock(data, n, padding, tail, m);
    BlocksAppend(all, data, n, tail, m);
    AllBlocksOf(all, n + m);
  }

  lemma CutAtBlock(data: seq<Byte>, n: nat, padding: seq<Byte>, tail: seq<Byte>, m: nat)
    requires 64 * n <= |data| && 64 * m <= |tail|
    requires tail[..64 * m] == data[64 * n..] + padding
    ensures |data + padding| == 64 * (n + m)
    ensures (data + padding)[..64 * n] == data[..64 * n] && (data + padding)[64 * n..64 * (n + m)] == tail[..64 * m]
  {
    CutSlices(data, 64 * n, padding, tail, 64 * m);
  }

  lemma CutSlices(data: seq<Byte>, cut: nat, padding: seq<Byte>, tail: seq<Byte>, end: nat)
    requires cut <= |data| && end <= |tail|
    requires tail[..end] == data[cut..] + padding
    ensures |data + padding| == cut + end
    ensures (data + padding)[..cut] == data[..cut] && (data + padding)[cut..cut + end] == tail[..end]
  {
    assert data[..cut] + (data[cut..] + padding) == data + padding;
  }

  lemma AllBlocksOf(bytes: seq<Byte>, n: nat)
    requires |bytes| == 64 * n
    ensures AllBlocks(bytes) == Blocks(bytes, n)
  {
    var count := |bytes| / 64;
    assert count == n;
  }

  method WriteOutput<W(!new)>(o: Ops<W>, h: seq<W>) returns (digest: seq<Byte>)
    requires |h| == 8
    ensures digest == Output(o, Load(h))
  {
    digest := [];
    for word := 0 to |h|
      invariant digest == OutputTo(o, h, word)
    {
      digest := digest + o.bytes(h[word]);
    }
    OutputOfEight(o, h);
  }

  function OutputTo<W(!new)>(o: Ops<W>, h: seq<W>, n: nat): seq<Byte>
    requires n <= |h|
  {
    if n == 0 then [] else OutputTo(o, h, n - 1) + o.bytes(h[n - 1])
  }

  lemma OutputOfEight<W(!new)>(o: Ops<W>, h: seq<W>)
    requires |h| == 8
    ensures OutputTo(o, h, 8) == Output(o, Load(h))
  {
    assert OutputTo(o, h, 1) == o.bytes(h[0]);
    assert OutputTo(o, h, 3) == o.bytes(h[0]) + o.bytes(h[1]) + o.bytes(h[2]);
    assert OutputTo(o, h, 5) == OutputTo(o, h, 3) + o.bytes(h[3]) + o.bytes(h[4]);
    assert OutputTo(o, h, 7) == OutputTo(o, h, 5) + o.bytes(h[5]) + o.bytes(h[6]);
  }
}

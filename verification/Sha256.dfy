/**
 * SHA-256 and HMAC of src/signature.cpp. The words of FIPS 180-4 (sections 4.1.2, 4.2.2 and 5.3.3)
 * supplied to the block machinery of ShaBlocks, and the keyed hash of RFC 2104, section 2.
 */
module Sha256 {
  import opened Base
  import opened Decimal
  import opened ShaBlocks

  type Word = bv32

  /** The 64 round constants of section 4.2.2, eight to a row. */
  function RoundConstants(): (k: seq<Word>)
    ensures |k| == 64 && forall i :: 0 <= i < 64 ==> k[i] == ConstantRow(i / 8)[i % 8]
  {
    seq(64, i requires 0 <= i < 64 => ConstantRow(i / 8)[i % 8])
  }

  function ConstantRow(r: nat): (k: seq<Word>)
    ensures |k| == 8
  {
    match r
    case 0 => [0x428a2f98, 0x71374491, 0xb5c0fbcf, 0xe9b5dba5,
               0x3956c25b, 0x59f111f1, 0x923f82a4, 0xab1c5ed5]
    case 1 => [0xd807aa98, 0x12835b01, 0x243185be, 0x550c7dc3,
               0x72be5d74, 0x80deb1fe, 0x9bdc06a7, 0xc19bf174]
    case 2 => [0xe49b69c1, 0xefbe4786, 0x0fc19dc6, 0x240ca1cc,
               0x2de92c6f, 0x4a7484aa, 0x5cb0a9dc, 0x76f988da]
    case 3 => [0x983e5152, 0xa831c66d, 0xb00327c8, 0xbf597fc7,
               0xc6e00bf3, 0xd5a79147, 0x06ca6351, 0x14292967]
    case 4 => [0x27b70a85, 0x2e1b2138, 0x4d2c6dfc, 0x53380d13,
               0x650a7354, 0x766a0abb, 0x81c2c92e, 0x92722c85]
    case 5 => [0xa2bfe8a1, 0xa81a664b, 0xc24b8b70, 0xc76c51a3,
               0xd192e819, 0xd6990624, 0xf40e3585, 0x106aa070]
    case 6 => [0x19a4c116, 0x1e376c08, 0x2748774c, 0x34b0bcb5,
               0x391c0cb3, 0x4ed8aa4a, 0x5b9cca4f, 0x682e6ff3]
    case _ => [0x748f82ee, 0x78a5636f, 0x84c87814, 0x8cc70208,
               0x90befffa, 0xa4506ceb, 0xbef9a3f7, 0xc67178f2]
  }

  /** The initial hash value of section 5.3.3. */
  function InitialHash(): (h: seq<Word>)
    ensures |h| == 8
  {
    [0x6a09e667, 0xbb67ae85, 0x3c6ef372, 0xa54ff53a, 0x510e527f, 0x9b05688c, 0x1f83d9ab, 0x5be0cd19]
  }

  // ------------------------------------------------- FIPS 180-4, section 4.1.2

  function Rotr(x: Word, n: Word): Word
    requires 0 < n < 32
  {
    (x >> n) | (x << (32 - n))
  }

  function Ch(x: Word, y: Word, z: Word): Word { (x & y) ^ (!x & z) }

  function Maj(x: Word, y: Word, z: Word): Word { (x & y) ^ (x & z) ^ (y & z) }

  function BigSigma0(x: Word): Word { Rotr(x, 2) ^ Rotr(x, 13) ^ Rotr(x, 22) }

  function BigSigma1(x: Word): Word { Rotr(x, 6) ^ Rotr(x, 11) ^ Rotr(x, 25) }

  function SmallSigma0(x: Word): Word { Rotr(x, 7) ^ Rotr(x, 18) ^ (x >> 3) }

  function SmallSigma1(x: Word): Word { Rotr(x, 17) ^ Rotr(x, 19) ^ (x >> 10) }

  function Temp1(e: Word, f: Word, g: Word, h: Word, k: Word, w: Word): Word { h + BigSigma1(e) + Ch(e, f, g) + k + w }

  function Temp2(a: Word, b: Word, c: Word): Word { BigSigma0(a) + Maj(a, b, c) }

  function Add(x: Word, y: Word): Word { x + y }

  function Sum4(a: Word, b: Word, c: Word, d: Word): Word { a + b + c + d }

  function Pack(b0: Byte, b1: Byte, b2: Byte, b3: Byte): Word {
    ((b0 as Word) << 24) | ((b1 as Word) << 16) | ((b2 as Word) << 8) | (b3 as Word)
  }

  function WordBytes(x: Word): (s: seq<Byte>)
    ensures |s| == 4
  {
    [((x >> 24) & 0xff) as Byte, ((x >> 16) & 0xff) as Byte, ((x >> 8) & 0xff) as Byte, (x & 0xff) as Byte]
  }

  function Words(): (o: Ops<Word>)
    ensures |o.k| == 64
  {
    Ops(0, RoundConstants(), Pack, SmallSigma0, SmallSigma1, Temp1, Temp2, Add, Sum4, WordBytes)
  }

  lemma AddCommutes(x: Word, y: Word)
    ensures Add(x, y) == Add(y, x)
  {
  }

  lemma SumReverses(a: Word, b: Word, c: Word, d: Word)
    ensures a + b + c + d == d + c + b + a
  {
  }

  lemma WordsValid()
    ensures Words().Valid()
  {
    var o := Words();
    forall x, y
      ensures o.Commutes(x, y)
    {
      AddCommutes(x, y);
    }
    forall a, b, c, d
      ensures o.Reverses(a, b, c, d)
    {
      SumReverses(a, b, c, d);
    }
  }

  function Digest(data: seq<Byte>): (d: seq<Byte>)
    ensures |d| == 32
  {
    var v := Fold(Words(), Load(InitialHash()), AllBlocks(Pad(data)));
    DigestLength(v);
    Hash(Words(), Load(InitialHash()), data)
  }

  lemma DigestLength(v: Vars<Word>)
    ensures |Output(Words(), v)| == 32
  {
    var o := Words();
    assert |o.bytes(v.a)| == |o.bytes(v.b)| == |o.bytes(v.c)| == |o.bytes(v.d)| == 4;
    assert |o.bytes(v.e)| == |o.bytes(v.f)| == |o.bytes(v.g)| == |o.bytes(v.h)| == 4;
  }

  method Sha256Raw(data: seq<Byte>) returns (digest: seq<Byte>)
    ensures digest == Digest(data)
  {
    WordsValid();
    digest := RunHash(Words(), InitialHash(), data);
  }

  // ------------------------------------------------- RFC 2104, section 2

  const BLOCK_SIZE := 64

  /** The key padded with zero bytes to a block; a longer key is replaced by its digest first. */
  function KeyBlock(key: seq<Byte>): (b: seq<Byte>)
    ensures |b| == BLOCK_SIZE
  {
    var k := if |key| > BLOCK_SIZE then Digest(key) else key;
    k + Zeros(BLOCK_SIZE - |k|)
  }

  function Mask(block: seq<Byte>, pad: Byte): (m: seq<Byte>)
    ensures |m| == |block|
  {
    seq(|block|, i requires 0 <= i < |block| => block[i] ^ pad)
  }

  function Hmac(key: seq<Byte>, text: seq<Byte>): seq<Byte> {
    Digest(Mask(KeyBlock(key), 0x5c) + Digest(Mask(KeyBlock(key), 0x36) + text))
  }

  /** Step 1 of the RFC's definition, and its XOR with a pad: the key, then zeros up to 64 bytes. */
  lemma MaskedKey(key: seq<Byte>, pad: Byte, i: nat)
    requires i < 64
    ensures var k := if |key| > 64 then Digest(key) else key;
            Mask(KeyBlock(key), pad)[i] == PadByte(k, i) ^ pad
  {
    hide Digest;
  }

  /** The definition of RFC 2104, section 2: both masked keys are a block long and differ only in the pad. */
  lemma HmacByDefinition(key: seq<Byte>, text: seq<Byte>)
    ensures exists inner: seq<Byte>, outer: seq<Byte> ::
              && |inner| == |outer| == 64 && Hmac(key, text) == Digest(outer + Digest(inner + text))
              && var k := if |key| > 64 then Digest(key) else key;
                 forall i :: 0 <= i < 64 ==> inner[i] == PadByte(k, i) ^ 0x36 && outer[i] == PadByte(k, i) ^ 0x5c
  {
    hide Digest;
    var inner, outer := Mask(KeyBlock(key), 0x36), Mask(KeyBlock(key), 0x5c);
    var k := if |key| > 64 then Digest(key) else key;
    forall i | 0 <= i < 64
      ensures inner[i] == PadByte(k, i) ^ 0x36 && outer[i] == PadByte(k, i) ^ 0x5c
    {
      MaskedKey(key, 0x36, i);
      MaskedKey(key, 0x5c, i);
    }
  }

  function PadByte(k: seq<Byte>, i: nat): Byte { if i < |k| then k[i] else 0 }

  method HmacSha256(key: seq<Byte>, message: seq<Byte>) returns (mac: seq<Byte>)
    ensures mac == Hmac(key, message)
  {
    var keyBlock := FillKeyBlock(key);
    var inner := AppendMasked(keyBlock, 0x36);
    var innerDigest := Sha256Raw(inner + message);
    var outer := AppendMasked(keyBlock, 0x5c);
    mac := Sha256Raw(outer + innerDigest);
  }

  method FillKeyBlock(key: seq<Byte>) returns (keyBlock: array<Byte>)
    ensures fresh(keyBlock) && keyBlock[..] == KeyBlock(key)
  {
    keyBlock := ZeroBlock();
    if |key| > BLOCK_SIZE {
      var hashed := Sha256Raw(key);
      CopyInto(keyBlock, hashed);
    } else {
      CopyInto(keyBlock, key);
    }
  }

  method ZeroBlock() returns (block: array<Byte>)
    ensures fresh(block) && block.Length == BLOCK_SIZE
    ensures forall n :: 0 <= n <= BLOCK_SIZE ==> block[n..] == Zeros(BLOCK_SIZE - n)
  {
    block := new Byte[BLOCK_SIZE](_ => 0);
  }

  method CopyInto(target: array<Byte>, source: seq<Byte>)
    requires |source| <= target.Length
    modifies target
    ensures target[..] == source + old(target[|source|..])
  {
    for i := 0 to |source|
      invariant target[..i] == source[..i] && target[i..] == old(target[i..])
    {
      target[i] := source[i];
    }
  }

  method AppendMasked(keyBlock: array<Byte>, pad: Byte) returns (text: seq<Byte>)
    ensures text == Mask(keyBlock[..], pad)
  {
    text := [];
    for i := 0 to keyBlock.Length
      invariant text == Mask(keyBlock[..], pad)[..i]
    {
      text := text + [keyBlock[i] ^ pad];
    }
  }

  // ------------------------------------------------- hexadecimal digests

  function HexPair(b: nat): (s: string)
    requires b < 256
    ensures |s| == 2
  {
    [HexDigit(b / 16), HexDigit(b % 16)]
  }

  function ToHex(bytes: seq<Byte>): (s: string)
    ensures |s| == 2 * |bytes|
  {
    if bytes == [] then []
    else
      ToHex(bytes[..|bytes| - 1]) + HexPair(bytes[|bytes| - 1] as nat)
  }

  method WriteHex(bytes: seq<Byte>) returns (out: string)
    ensures out == ToHex(bytes)
  {
    out := "";
    for i := 0 to |bytes|
      invariant out == ToHex(bytes[..i])
    {
      out := out + [HexDigit(bytes[i] as nat / 16)];
      out := out + [HexDigit(bytes[i] as nat % 16)];
      assert bytes[..i + 1][..i] == bytes[..i];
    }
    assert bytes[..|bytes|] == bytes;
  }

  /** Every byte has its two digits, the high one first, at its own place. */
  lemma {:induction false} HexByIndex(bytes: seq<Byte>, i: nat)
    requires i < |bytes|
    ensures ToHex(bytes)[2 * i] == "0123456789abcdef"[bytes[i] as nat / 16]
    ensures ToHex(bytes)[2 * i + 1] == "0123456789abcdef"[bytes[i] as nat % 16]
  {
    var n := |bytes| - 1;
    assert ToHex(bytes) == ToHex(bytes[..n]) + HexPair(bytes[n] as nat);
    if i < n {
      HexByIndex(bytes[..n], i);
    } else {
      PairDigits(bytes[n] as nat);
    }
  }

  lemma PairDigits(b: nat)
    requires b < 256
    ensures HexPair(b) == ["0123456789abcdef"[b / 16], "0123456789abcdef"[b % 16]]
  {
  }

  lemma HexPairInjective(x: nat, y: nat)
    requires x < 256 && y < 256 && HexPair(x) == HexPair(y)
    ensures x == y
  {
    assert HexPair(x)[0] == HexPair(y)[0] && HexPair(x)[1] == HexPair(y)[1];
    HexDigitInjective(x / 16, y / 16);
    HexDigitInjective(x % 16, y % 16);
  }

  lemma HexDigitInjective(m: nat, n: nat)
    requires m < 16 && n < 16 && HexDigit(m) == HexDigit(n)
    ensures m == n
  {
  }

  /** Comparing hexadecimal digests is comparing digests. */
  lemma {:induction false} ToHexInjective(a: seq<Byte>, b: seq<Byte>)
    requires ToHex(a) == ToHex(b)
    ensures a == b
  {
    assert |ToHex(a)| == |ToHex(b)|;
    if a != [] {
      var front, last, front', last' := a[..|a| - 1], a[|a| - 1], b[..|b| - 1], b[|b| - 1];
      SameEnds(ToHex(front), HexPair(last as nat), ToHex(front'), HexPair(last' as nat));
      HexPairInjective(last as nat, last' as nat);
      SameByte(last, last');
      ToHexInjective(front, front');
      assert a == front + [last] && b == front' + [last'];
    }
  }

  lemma SameEnds(p: string, s: string, p': string, s': string)
    requires |p| == |p'| && p + s == p' + s'
    ensures p == p' && s == s'
  {
    assert (p + s)[..|p|] == (p' + s')[..|p|] && (p + s)[|p|..] == (p' + s')[|p|..];
  }

  lemma SameByte(x: Byte, y: Byte)
    requires x as nat == y as nat
    ensures x == y
  {
  }

  // ------------------------------------------------- the ingest signature header

  predicate Numeral(c: char) { IsDigit(c) || c == '-' }

  /** The byte of a character of a decimal number. */
  function NumeralByte(c: char): Byte {
    match c
    case '0' => 0x30
    case '1' => 0x31
    case '2' => 0x32
    case '3' => 0x33
    case '4' => 0x34
    case '5' => 0x35
    case '6' => 0x36
    case '7' => 0x37
    case '8' => 0x38
    case '9' => 0x39
    case _ => 0x2d
  }

  function IntBytes(s: string): (b: seq<Byte>)
    ensures |b| == |s|
  {
    seq(|s|, i requires 0 <= i < |s| => NumeralByte(s[i]))
  }

  const DOT: Byte := 0x2e

  /** What is signed: the time, a dot and the body. */
  function SignedInput(seconds: int, body: seq<Byte>): seq<Byte> {
    IntBytes(IntText(seconds)) + [DOT] + body
  }

  method BuildIngestSignatureHeader(ingestKey: seq<Byte>, body: seq<Byte>, unixSeconds: int) returns (header: string)
    ensures header == "t=" + IntText(unixSeconds) + ",v1=" + ToHex(Hmac(ingestKey, SignedInput(unixSeconds, body)))
  {
    var t := IntText(unixSeconds);
    var signedInput := IntBytes(t);
    signedInput := signedInput + [DOT];
    signedInput := signedInput + body;
    var mac := HmacSha256(ingestKey, signedInput);
    var hex := WriteHex(mac);
    header := "t=" + t + ",v1=" + hex;
  }

  lemma NumeralBytes(c: char, d: char)
    requires Numeral(c) && Numeral(d)
    ensures NumeralByte(c) != DOT
    ensures NumeralByte(c) == NumeralByte(d) ==> c == d
  {
  }

  lemma IntTextNumerals(n: int)
    ensures forall i :: 0 <= i < |IntText(n)| ==> Numeral(IntText(n)[i])
  {
  }

  lemma IntTextInjective(m: int, n: int)
    requires IntText(m) == IntText(n)
    ensures m == n
  {
    ValueOfDigits(if m < 0 then -m else m);
    ValueOfDigits(if n < 0 then -n else n);
    assert (m < 0 <==> IntText(m)[0] == '-') && (n < 0 <==> IntText(n)[0] == '-');
    if m < 0 {
      assert IntText(m)[1..] == Digits(-m);
    }
    if n < 0 {
      assert IntText(n)[1..] == Digits(-n);
    }
  }

  /** The signed input spells the time, byte by byte, then has a dot and the body as it is. */
  lemma SignedInputSpelled(t: int, body: seq<Byte>)
    ensures var s, text := SignedInput(t, body), IntText(t) + ".";
            && |s| == |text| + |body| && s[|text|..] == body
            && forall i :: 0 <= i < |text| ==> s[i] as int == text[i] as int
  {
    var text := IntText(t) + ".";
    IntTextNumerals(t);
    forall i | 0 <= i < |text|
      ensures SignedInput(t, body)[i] as int == text[i] as int
    {
      if i < |IntText(t)| {
        NumeralIs(IntText(t)[i]);
      }
    }
  }

  lemma NumeralIs(c: char)
    requires Numeral(c)
    ensures NumeralByte(c) as int == c as int
  {
  }

  /** No other time and body give the same signed input. */
  lemma SignedInputInjective(t: int, body: seq<Byte>, t': int, body': seq<Byte>)
    requires SignedInput(t, body) == SignedInput(t', body')
    ensures t == t' && body == body'
  {
    var s, s' := IntText(t), IntText(t');
    IntTextNumerals(t);
    IntTextNumerals(t');
    SplitAtDot(s, body, s', body');
    IntTextInjective(t, t');
  }

  lemma SplitAtDot(s: string, body: seq<Byte>, s': string, body': seq<Byte>)
    requires forall i :: 0 <= i < |s| ==> Numeral(s[i])
    requires forall i :: 0 <= i < |s'| ==> Numeral(s'[i])
    requires IntBytes(s) + [DOT] + body == IntBytes(s') + [DOT] + body'
    ensures s == s' && body == body'
  {
    var x, x' := IntBytes(s) + [DOT] + body, IntBytes(s') + [DOT] + body';
    assert x[|s|] == DOT && x'[|s'|] == DOT;
    if |s| < |s'| {
      assert x'[|s|] == NumeralByte(s'[|s|]);
      NumeralBytes(s'[|s|], '0');
    } else if |s'| < |s| {
      assert x[|s'|] == NumeralByte(s[|s'|]);
      NumeralBytes(s[|s'|], '0');
    } else {
      forall i | 0 <= i < |s|
        ensures s[i] == s'[i]
      {
        assert x[i] == NumeralByte(s[i]) && x'[i] == NumeralByte(s'[i]);
        NumeralBytes(s[i], s'[i]);
      }
      assert x[|s| + 1..] == body && x'[|s| + 1..] == body';
    }
  }
}

/**
 * The worked example of SHA-256 for the message "abc": every word of the schedule and every round, down
 * to the digest. It ties the rotations, the order of the words and the constants to known values.
 */
module ShaExample {
  import opened Sha256
  import opened ShaBlocks

  /** The message, and the one block it is padded to. */
  const ABC: seq<Byte> := [0x61, 0x62, 0x63]

  function AbcBlock(): (b: Block)
    ensures b[0] == 0x61 && b[1] == 0x62 && b[2] == 0x63 && b[3] == 0x80
    ensures (forall i :: 4 <= i < 63 ==> b[i] == 0) && b[63] == 0x18
  {
    [0x61, 0x62, 0x63, 0x80] + Zeros(59) + [0x18]
  }

  // ------------------------------------------------- one word and one round

  function AllWords(): (w: seq<Word>)
    ensures |w| == 64
  {
    var b := AbcBlock();
    Schedule(Words(), b, |b|)
  }

  /** Word `t` of the block's schedule. */
  function At(t: nat): Word
    requires t < 64
  {
    AllWords()[t]
  }

  lemma {:induction false} ScheduleGrows(n: nat, t: nat)
    requires t < n <= 64
    ensures Schedule(Words(), AbcBlock(), n)[t] == Schedule(Words(), AbcBlock(), t + 1)[t]
  {
    if t < n - 1 {
      ScheduleGrows(n - 1, t);
    }
  }

  lemma WordIs(t: nat, n: nat)
    requires t < n <= 64
    ensures Schedule(Words(), AbcBlock(), n)[t] == At(t)
  {
    ScheduleGrows(|AbcBlock()|, t);
    ScheduleGrows(n, t);
  }

  lemma FirstWord(t: nat, x: Word)
    requires t < 16
    requires Pack(AbcBlock()[4 * t], AbcBlock()[4 * t + 1], AbcBlock()[4 * t + 2], AbcBlock()[4 * t + 3]) == x
    ensures At(t) == x
  {
    PackIs(AbcBlock()[4 * t], AbcBlock()[4 * t + 1], AbcBlock()[4 * t + 2], AbcBlock()[4 * t + 3]);
    WordIs(t, t + 1);
  }

  predicate ExpandsTo(w2: Word, w7: Word, w15: Word, w16: Word, x: Word) {
    SmallSigma1(w2) + w7 + SmallSigma0(w15) + w16 == x
  }

  lemma NextWord(t: nat, w2: Word, w7: Word, w15: Word, w16: Word, x: Word)
    requires 16 <= t < 64 && At(t - 2) == w2 && At(t - 7) == w7 && At(t - 15) == w15 && At(t - 16) == w16
    requires ExpandsTo(w2, w7, w15, w16, x)
    ensures At(t) == x
  {
    hide At, Words, Expand, ExpandsTo;
    ExpandIs(w2, w7, w15, w16, x);
    AtIs(t);
  }

  lemma AtIs(t: nat)
    requires 16 <= t < 64
    ensures At(t) == Expand(Words(), At(t - 2), At(t - 7), At(t - 15), At(t - 16))
  {
    hide At, Words, Expand, AbcBlock, Schedule;
    WordIs(t, t + 1);
    WordIs(t - 2, t);
    WordIs(t - 7, t);
    WordIs(t - 15, t);
    WordIs(t - 16, t);
    LastWord(Words(), AbcBlock(), t);
  }

  lemma LastWord<W(!new)>(o: Ops<W>, block: Block, t: nat)
    requires 16 <= t < 64
    ensures var w := Schedule(o, block, t);
            Schedule(o, block, t + 1)[t] == Expand(o, w[t - 2], w[t - 7], w[t - 15], w[t - 16])
  {
  }

  lemma ExpandIs(w2: Word, w7: Word, w15: Word, w16: Word, x: Word)
    requires ExpandsTo(w2, w7, w15, w16, x)
    ensures Expand(Words(), w2, w7, w15, w16) == x
  {
    SigmasAre(w2, w15);
    SumIs(SmallSigma1(w2), w7, SmallSigma0(w15), w16);
  }

  /** The working variables before round `t`. */
  function State(t: nat): Vars<Word>
    requires t <= 64
  {
    Rounds(Words(), Load(InitialHash()), AllWords(), t)
  }

  /** The standard's two temporary words of a round. */
  predicate Temporaries(v: Vars<Word>, k: Word, w: Word, t1: Word, t2: Word) {
    Temp1(v.e, v.f, v.g, v.h, k, w) == t1 && Temp2(v.a, v.b, v.c) == t2
  }

  lemma NextRound(t: nat, v: Vars<Word>, k: Word, w: Word, t1: Word, t2: Word)
    requires t < 64 && State(t) == v && RoundConstants()[t] == k && At(t) == w && Temporaries(v, k, w, t1, t2)
    ensures State(t + 1) == Vars(t1 + t2, v.a, v.b, v.c, v.d + t1, v.e, v.f, v.g)
  {
    hide State, At, Words, Round, RoundConstants, Temporaries;
    StateIs(t);
    RoundIs(v, k, w, t1, t2);
  }

  lemma StateIs(t: nat)
    requires t < 64
    ensures State(t + 1) == Round(Words(), State(t), RoundConstants()[t], At(t))
  {
    hide Words, Round, Rounds, RoundConstants, AllWords, InitialHash;
    ConstantsAre();
    LastRound(Words(), Load(InitialHash()), AllWords(), t);
  }

  lemma LastRound<W(!new)>(o: Ops<W>, v: Vars<W>, w: seq<W>, t: nat)
    requires t < |w| && t < |o.k|
    ensures Rounds(o, v, w, t + 1) == Round(o, Rounds(o, v, w, t), o.k[t], w[t])
  {
  }

  lemma RoundIs(v: Vars<Word>, k: Word, w: Word, t1: Word, t2: Word)
    requires Temporaries(v, k, w, t1, t2)
    ensures Round(Words(), v, k, w) == Vars(t1 + t2, v.a, v.b, v.c, v.d + t1, v.e, v.f, v.g)
  {
    Temp1Is(v.e, v.f, v.g, v.h, k, w);
    Temp2Is(v.a, v.b, v.c);
    AddIs(t1, t2);
    AddIs(v.d, t1);
  }

  // The operations handed to the block machinery, one by one.

  lemma ConstantsAre()
    ensures Words().k == RoundConstants()
  {
  }

  lemma PackIs(b0: Byte, b1: Byte, b2: Byte, b3: Byte)
    ensures Words().pack(b0, b1, b2, b3) == Pack(b0, b1, b2, b3)
  {
  }

  lemma SigmasAre(x: Word, y: Word)
    ensures Words().sigma1(x) == SmallSigma1(x) && Words().sigma0(y) == SmallSigma0(y)
  {
  }

  lemma SumIs(a: Word, b: Word, c: Word, d: Word)
    ensures Words().sum4(a, b, c, d) == a + b + c + d
  {
  }

  lemma Temp1Is(e: Word, f: Word, g: Word, h: Word, k: Word, w: Word)
    ensures Words().temp1(e, f, g, h, k, w) == Temp1(e, f, g, h, k, w)
  {
  }

  lemma Temp2Is(a: Word, b: Word, c: Word)
    ensures Words().temp2(a, b, c) == Temp2(a, b, c)
  {
  }

  lemma AddIs(x: Word, y: Word)
    ensures Words().add(x, y) == x + y
  {
  }

  // ------------------------------------------------- the schedule

  lemma Words0To15()
    ensures At(0) == 0x61626380 && At(15) == 0x00000018 && forall t :: 1 <= t < 15 ==> At(t) == 0
  {
    FirstWord(0, 0x61626380);
    FirstWord(15, 0x00000018);
    forall t | 1 <= t < 15
      ensures At(t) == 0
    {
      FirstWord(t, 0);
    }
  }

  lemma Words16To23()
    ensures At(16) == 0x61626380 && At(17) == 0x000f0000 && At(18) == 0x7da86405 && At(19) == 0x600003c6
    ensures At(20) == 0x3e9d7b78 && At(21) == 0x0183fc00 && At(22) == 0x12dcbfdb && At(23) == 0xe2e2c38e
  {
    hide At;
    Words0To15();
    NextWord(16, 0x00000000, 0x00000000, 0x00000000, 0x61626380, 0x61626380);
    NextWord(17, 0x00000018, 0x00000000, 0x00000000, 0x00000000, 0x000f0000);
    NextWord(18, 0x61626380, 0x00000000, 0x00000000, 0x00000000, 0x7da86405);
    NextWord(19, 0x000f0000, 0x00000000, 0x00000000, 0x00000000, 0x600003c6);
    NextWord(20, 0x7da86405, 0x00000000, 0x00000000, 0x00000000, 0x3e9d7b78);
    NextWord(21, 0x600003c6, 0x00000000, 0x00000000, 0x00000000, 0x0183fc00);
    NextWord(22, 0x3e9d7b78, 0x00000018, 0x00000000, 0x00000000, 0x12dcbfdb);
    NextWord(23, 0x0183fc00, 0x61626380, 0x00000000, 0x00000000, 0xe2e2c38e);
  }

  lemma Words24To31()
    ensures At(24) == 0xc8215c1a && At(25) == 0xb73679a2 && At(26) == 0xe5bc3909 && At(27) == 0x32663c5b
    ensures At(28) == 0x9d209d67 && At(29) == 0xec8726cb && At(30) == 0x702138a4 && At(31) == 0xd3b7973b
  {
    hide At;
    Words0To15();
    Words16To23();
    NextWord(24, 0x12dcbfdb, 0x000f0000, 0x00000000, 0x00000000, 0xc8215c1a);
    NextWord(25, 0xe2e2c38e, 0x7da86405, 0x00000000, 0x00000000, 0xb73679a2);
    NextWord(26, 0xc8215c1a, 0x600003c6, 0x00000000, 0x00000000, 0xe5bc3909);
    NextWord(27, 0xb73679a2, 0x3e9d7b78, 0x00000000, 0x00000000, 0x32663c5b);
    NextWord(28, 0xe5bc3909, 0x0183fc00, 0x00000000, 0x00000000, 0x9d209d67);
    NextWord(29, 0x32663c5b, 0x12dcbfdb, 0x00000000, 0x00000000, 0xec8726cb);
    NextWord(30, 0x9d209d67, 0xe2e2c38e, 0x00000018, 0x00000000, 0x702138a4);
    NextWord(31, 0xec8726cb, 0xc8215c1a, 0x61626380, 0x00000018, 0xd3b7973b);
  }

  lemma Words32To39()
    ensures At(32) == 0x93f5997f && At(33) == 0x3b68ba73 && At(34) == 0xaff4ffc1 && At(35) == 0xf10a5c62
    ensures At(36) == 0x0a8b3996 && At(37) == 0x72af830a && At(38) == 0x9409e33e && At(39) == 0x24641522
  {
    hide At;
    Words16To23();
    Words24To31();
    NextWord(32, 0x702138a4, 0xb73679a2, 0x000f0000, 0x61626380, 0x93f5997f);
    NextWord(33, 0xd3b7973b, 0xe5bc3909, 0x7da86405, 0x000f0000, 0x3b68ba73);
    NextWord(34, 0x93f5997f, 0x32663c5b, 0x600003c6, 0x7da86405, 0xaff4ffc1);
    NextWord(35, 0x3b68ba73, 0x9d209d67, 0x3e9d7b78, 0x600003c6, 0xf10a5c62);
    NextWord(36, 0xaff4ffc1, 0xec8726cb, 0x0183fc00, 0x3e9d7b78, 0x0a8b3996);
    NextWord(37, 0xf10a5c62, 0x702138a4, 0x12dcbfdb, 0x0183fc00, 0x72af830a);
    NextWord(38, 0x0a8b3996, 0xd3b7973b, 0xe2e2c38e, 0x12dcbfdb, 0x9409e33e);
    NextWord(39, 0x72af830a, 0x93f5997f, 0xc8215c1a, 0xe2e2c38e, 0x24641522);
  }

  lemma Words40To47()
    ensures At(40) == 0x9f47bf94 && At(41) == 0xf0a64f5a && At(42) == 0x3e246a79 && At(43) == 0x27333ba3
    ensures At(44) == 0x0c4763f2 && At(45) == 0x840abf27 && At(46) == 0x7a290d5d && At(47) == 0x065c43da
  {
    hide At;
    Words24To31();
    Words32To39();
    NextWord(40, 0x9409e33e, 0x3b68ba73, 0xb73679a2, 0xc8215c1a, 0x9f47bf94);
    NextWord(41, 0x24641522, 0xaff4ffc1, 0xe5bc3909, 0xb73679a2, 0xf0a64f5a);
    NextWord(42, 0x9f47bf94, 0xf10a5c62, 0x32663c5b, 0xe5bc3909, 0x3e246a79);
    NextWord(43, 0xf0a64f5a, 0x0a8b3996, 0x9d209d67, 0x32663c5b, 0x27333ba3);
    NextWord(44, 0x3e246a79, 0x72af830a, 0xec8726cb, 0x9d209d67, 0x0c4763f2);
    NextWord(45, 0x27333ba3, 0x9409e33e, 0x702138a4, 0xec8726cb, 0x840abf27);
    NextWord(46, 0x0c4763f2, 0x24641522, 0xd3b7973b, 0x702138a4, 0x7a290d5d);
    NextWord(47, 0x840abf27, 0x9f47bf94, 0x93f5997f, 0xd3b7973b, 0x065c43da);
  }

  lemma Words48To55()
    ensures At(48) == 0xfb3e89cb && At(49) == 0xcc7617db && At(50) == 0xb9e66c34 && At(51) == 0xa9993667
    ensures At(52) == 0x84badedd && At(53) == 0xc21462bc && At(54) == 0x1487472c && At(55) == 0xb20f7a99
  {
    hide At;
    Words32To39();
    Words40To47();
    NextWord(48, 0x7a290d5d, 0xf0a64f5a, 0x3b68ba73, 0x93f5997f, 0xfb3e89cb);
    NextWord(49, 0x065c43da, 0x3e246a79, 0xaff4ffc1, 0x3b68ba73, 0xcc7617db);
    NextWord(50, 0xfb3e89cb, 0x27333ba3, 0xf10a5c62, 0xaff4ffc1, 0xb9e66c34);
    NextWord(51, 0xcc7617db, 0x0c4763f2, 0x0a8b3996, 0xf10a5c62, 0xa9993667);
    NextWord(52, 0xb9e66c34, 0x840abf27, 0x72af830a, 0x0a8b3996, 0x84badedd);
    NextWord(53, 0xa9993667, 0x7a290d5d, 0x9409e33e, 0x72af830a, 0xc21462bc);
    NextWord(54, 0x84badedd, 0x065c43da, 0x24641522, 0x9409e33e, 0x1487472c);
    NextWord(55, 0xc21462bc, 0xfb3e89cb, 0x9f47bf94, 0x24641522, 0xb20f7a99);
  }

  lemma Words56To63()
    ensures At(56) == 0xef57b9cd && At(57) == 0xebe6b238 && At(58) == 0x9fe3095e && At(59) == 0x78bc8d4b
    ensures At(60) == 0xa43fcf15 && At(61) == 0x668b2ff8 && At(62) == 0xeeaba2cc && At(63) == 0x12b1edeb
  {
    hide At;
    Words40To47();
    Words48To55();
    NextWord(56, 0x1487472c, 0xcc7617db, 0xf0a64f5a, 0x9f47bf94, 0xef57b9cd);
    NextWord(57, 0xb20f7a99, 0xb9e66c34, 0x3e246a79, 0xf0a64f5a, 0xebe6b238);
    NextWord(58, 0xef57b9cd, 0xa9993667, 0x27333ba3, 0x3e246a79, 0x9fe3095e);
    NextWord(59, 0xebe6b238, 0x84badedd, 0x0c4763f2, 0x27333ba3, 0x78bc8d4b);
    NextWord(60, 0x9fe3095e, 0xc21462bc, 0x840abf27, 0x0c4763f2, 0xa43fcf15);
    NextWord(61, 0x78bc8d4b, 0x1487472c, 0x7a290d5d, 0x840abf27, 0x668b2ff8);
    NextWord(62, 0xa43fcf15, 0xb20f7a99, 0x065c43da, 0x7a290d5d, 0xeeaba2cc);
    NextWord(63, 0x668b2ff8, 0xef57b9cd, 0xfb3e89cb, 0x065c43da, 0x12b1edeb);
  }

  // ------------------------------------------------- the rounds

  lemma Rounds0To7(t: nat)
    requires t == 0 && State(t) == Vars(0x6a09e667, 0xbb67ae85, 0x3c6ef372, 0xa54ff53a, 0x510e527f, 0x9b05688c, 0x1f83d9ab, 0x5be0cd19)
    ensures State(t + 8) == Vars(0x85a07b5f, 0xe5030380, 0x2b4209f5, 0x04409a6a, 0x0c657a79, 0x9b27a401, 0x714260ad, 0x43ada245)
  {
    hide State, At, RoundConstants;
    Words0To15();
    NextRound(t, Vars(0x6a09e667, 0xbb67ae85, 0x3c6ef372, 0xa54ff53a, 0x510e527f, 0x9b05688c, 0x1f83d9ab, 0x5be0cd19),
              0x428a2f98, 0x61626380, 0x54da50e8, 0x08909ae5);
    NextRound(t + 1, Vars(0x5d6aebcd, 0x6a09e667, 0xbb67ae85, 0x3c6ef372, 0xfa2a4622, 0x510e527f, 0x9b05688c, 0x1f83d9ab),
              0x71374491, 0x00000000, 0x3c5f8617, 0x1e0b5396);
    NextRound(t + 2, Vars(0x5a6ad9ad, 0x5d6aebcd, 0x6a09e667, 0xbb67ae85, 0x78ce7989, 0xfa2a4622, 0x510e527f, 0x9b05688c),
              0xb5c0fbcf, 0x00000000, 0x3dc18b66, 0x8b01bc41);
    NextRound(t + 3, Vars(0xc8c347a7, 0x5a6ad9ad, 0x5d6aebcd, 0x6a09e667, 0xf92939eb, 0x78ce7989, 0xfa2a4622, 0x510e527f),
              0xe9b5dba5, 0x00000000, 0xbad621e9, 0x1a7ad47d);
    NextRound(t + 4, Vars(0xd550f666, 0xc8c347a7, 0x5a6ad9ad, 0x5d6aebcd, 0x24e00850, 0xf92939eb, 0x78ce7989, 0xfa2a4622),
              0x3956c25b, 0x00000000, 0xe642b678, 0x1dfde3f2);
    NextRound(t + 5, Vars(0x04409a6a, 0xd550f666, 0xc8c347a7, 0x5a6ad9ad, 0x43ada245, 0x24e00850, 0xf92939eb, 0x78ce7989),
              0x59f111f1, 0x00000000, 0x16d78700, 0x146a82f5);
    NextRound(t + 6, Vars(0x2b4209f5, 0x04409a6a, 0xd550f666, 0xc8c347a7, 0x714260ad, 0x43ada245, 0x24e00850, 0xf92939eb),
              0x923f82a4, 0x00000000, 0xd2645c5a, 0x129ea726);
    NextRound(t + 7, Vars(0xe5030380, 0x2b4209f5, 0x04409a6a, 0xd550f666, 0x9b27a401, 0x714260ad, 0x43ada245, 0x24e00850),
              0xab1c5ed5, 0x00000000, 0x37148413, 0x4e8bf74c);
  }

  lemma Rounds8To15(t: nat)
    requires t == 8 && State(t) == Vars(0x85a07b5f, 0xe5030380, 0x2b4209f5, 0x04409a6a, 0x0c657a79, 0x9b27a401, 0x714260ad, 0x43ada245)
    ensures State(t + 8) == Vars(0xb0fa238e, 0xc0645fde, 0xd932eb16, 0x87912990, 0x07590dcd, 0x0b92f20c, 0x745a48de, 0x1e578218)
  {
    hide State, At, RoundConstants;
    Words0To15();
    NextRound(t, Vars(0x85a07b5f, 0xe5030380, 0x2b4209f5, 0x04409a6a, 0x0c657a79, 0x9b27a401, 0x714260ad, 0x43ada245),
              0xd807aa98, 0x00000000, 0x2e899322, 0x5f7b5997);
    NextRound(t + 1, Vars(0x8e04ecb9, 0x85a07b5f, 0xe5030380, 0x2b4209f5, 0x32ca2d8c, 0x0c657a79, 0x9b27a401, 0x714260ad),
              0x12835b01, 0x00000000, 0xf1871ba1, 0x9b0018ca);
    NextRound(t + 2, Vars(0x8c87346b, 0x8e04ecb9, 0x85a07b5f, 0xe5030380, 0x1cc92596, 0x32ca2d8c, 0x0c657a79, 0x9b27a401),
              0x243185be, 0x00000000, 0x5e682068, 0xe930838c);
    NextRound(t + 3, Vars(0x4798a3f4, 0x8c87346b, 0x8e04ecb9, 0x85a07b5f, 0x436b23e8, 0x1cc92596, 0x32ca2d8c, 0x0c657a79),
              0x550c7dc3, 0x00000000, 0xfbcf5b8a, 0xfb506a1f);
    NextRound(t + 4, Vars(0xf71fc5a9, 0x4798a3f4, 0x8c87346b, 0x8e04ecb9, 0x816fd6e9, 0x436b23e8, 0x1cc92596, 0x32ca2d8c),
              0x72be5d74, 0x00000000, 0x9052955f, 0xf73e9431);
    NextRound(t + 5, Vars(0x87912990, 0xf71fc5a9, 0x4798a3f4, 0x8c87346b, 0x1e578218, 0x816fd6e9, 0x436b23e8, 0x1cc92596),
              0x80deb1fe, 0x00000000, 0xe7d31473, 0xf15fd6a3);
    NextRound(t + 6, Vars(0xd932eb16, 0x87912990, 0xf71fc5a9, 0x4798a3f4, 0x745a48de, 0x1e578218, 0x816fd6e9, 0x436b23e8),
              0x9bdc06a7, 0x00000000, 0xc3fa4e18, 0xfc6a11c6);
    NextRound(t + 7, Vars(0xc0645fde, 0xd932eb16, 0x87912990, 0xf71fc5a9, 0x0b92f20c, 0x745a48de, 0x1e578218, 0x816fd6e9),
              0xc19bf174, 0x00000018, 0x10394824, 0xa0c0db6a);
  }

  lemma Rounds16To23(t: nat)
    requires t == 16 && State(t) == Vars(0xb0fa238e, 0xc0645fde, 0xd932eb16, 0x87912990, 0x07590dcd, 0x0b92f20c, 0x745a48de, 0x1e578218)
    ensures State(t + 8) == Vars(0xc5d53d8d, 0xa7a3623f, 0xc2606d6d, 0x9dc68b63, 0xaa47c347, 0x49f5114a, 0xe1257970, 0x8ada8930)
  {
    hide State, At, RoundConstants;
    Words16To23();
    NextRound(t, Vars(0xb0fa238e, 0xc0645fde, 0xd932eb16, 0x87912990, 0x07590dcd, 0x0b92f20c, 0x745a48de, 0x1e578218),
              0xe49b69c1, 0x61626380, 0xf8a2f90c, 0x2937a18f);
    NextRound(t + 1, Vars(0x21da9a9b, 0xb0fa238e, 0xc0645fde, 0xd932eb16, 0x8034229c, 0x07590dcd, 0x0b92f20c, 0x745a48de),
              0xefbe4786, 0x000f0000, 0xab3bf93e, 0x17bfe093);
    NextRound(t + 2, Vars(0xc2fbd9d1, 0x21da9a9b, 0xb0fa238e, 0xc0645fde, 0x846ee454, 0x8034229c, 0x07590dcd, 0x0b92f20c),
              0x0fc19dc6, 0x7da86405, 0x0c253983, 0xf252423c);
    NextRound(t + 3, Vars(0xfe777bbf, 0xc2fbd9d1, 0x21da9a9b, 0xb0fa238e, 0xcc899961, 0x846ee454, 0x8034229c, 0x07590dcd),
              0x240ca1cc, 0x600003c6, 0xff695deb, 0xe288ae48);
    NextRound(t + 4, Vars(0xe1f20c33, 0xfe777bbf, 0xc2fbd9d1, 0x21da9a9b, 0xb0638179, 0xcc899961, 0x846ee454, 0x8034229c),
              0x2de92c6f, 0x3e9d7b78, 0x68ffee95, 0x34c69cce);
    NextRound(t + 5, Vars(0x9dc68b63, 0xe1f20c33, 0xfe777bbf, 0xc2fbd9d1, 0x8ada8930, 0xb0638179, 0xcc899961, 0x846ee454),
              0x4a7484aa, 0x0183fc00, 0x1e299f9f, 0xa436cdce);
    NextRound(t + 6, Vars(0xc2606d6d, 0x9dc68b63, 0xe1f20c33, 0xfe777bbf, 0xe1257970, 0x8ada8930, 0xb0638179, 0xcc899961),
              0x5cb0a9dc, 0x12dcbfdb, 0x4b7d958b, 0x5c25ccb4);
    NextRound(t + 7, Vars(0xa7a3623f, 0xc2606d6d, 0x9dc68b63, 0xe1f20c33, 0x49f5114a, 0xe1257970, 0x8ada8930, 0xb0638179),
              0x76f988da, 0xe2e2c38e, 0xc855b714, 0xfd7f8679);
  }

  lemma Rounds24To31(t: nat)
    requires t == 24 && State(t) == Vars(0xc5d53d8d, 0xa7a3623f, 0xc2606d6d, 0x9dc68b63, 0xaa47c347, 0x49f5114a, 0xe1257970, 0x8ada8930)
    ensures State(t + 8) == Vars(0x73b33bf5, 0xea992a22, 0xa0060b30, 0x363482c9, 0xba591112, 0x0109ab3a, 0xade79437, 0x6112a3b7)
  {
    hide State, At, RoundConstants;
    Words24To31();
    NextRound(t, Vars(0xc5d53d8d, 0xa7a3623f, 0xc2606d6d, 0x9dc68b63, 0xaa47c347, 0x49f5114a, 0xe1257970, 0x8ada8930),
              0x983e5152, 0xc8215c1a, 0x8a5d642e, 0x91cec40a);
    NextRound(t + 1, Vars(0x1c2c2838, 0xc5d53d8d, 0xa7a3623f, 0xc2606d6d, 0x2823ef91, 0xaa47c347, 0x49f5114a, 0xe1257970),
              0xa831c66d, 0xb73679a2, 0x51d7d021, 0x7c10335c);
    NextRound(t + 2, Vars(0xcde8037d, 0x1c2c2838, 0xc5d53d8d, 0xa7a3623f, 0x14383d8e, 0x2823ef91, 0xaa47c347, 0x49f5114a),
              0xb00327c8, 0xe5bc3909, 0x1fa902d7, 0x9685c1e5);
    NextRound(t + 3, Vars(0xb62ec4bc, 0xcde8037d, 0x1c2c2838, 0xc5d53d8d, 0xc74c6516, 0x14383d8e, 0x2823ef91, 0xaa47c347),
              0xbf597fc7, 0x32663c5b, 0x282a826b, 0x4fa8f2bd);
    NextRound(t + 4, Vars(0x77d37528, 0xb62ec4bc, 0xcde8037d, 0x1c2c2838, 0xedffbff8, 0xc74c6516, 0x14383d8e, 0x2823ef91),
              0xc6e00bf3, 0x9d209d67, 0x44e67b7f, 0xf14e074a);
    NextRound(t + 5, Vars(0x363482c9, 0x77d37528, 0xb62ec4bc, 0xcde8037d, 0x6112a3b7, 0xedffbff8, 0xc74c6516, 0x14383d8e),
              0xd5a79147, 0xec8726cb, 0xdfff90ba, 0xc0067a76);
    NextRound(t + 6, Vars(0xa0060b30, 0x363482c9, 0x77d37528, 0xb62ec4bc, 0xade79437, 0x6112a3b7, 0xedffbff8, 0xc74c6516),
              0x06ca6351, 0x702138a4, 0x4adae67e, 0x9fbe43a4);
    NextRound(t + 7, Vars(0xea992a22, 0xa0060b30, 0x363482c9, 0x77d37528, 0x0109ab3a, 0xade79437, 0x6112a3b7, 0xedffbff8),
              0x14292967, 0xd3b7973b, 0x42859bea, 0x312da00b);
  }

  lemma Rounds32To39(t: nat)
    requires t == 32 && State(t) == Vars(0x73b33bf5, 0xea992a22, 0xa0060b30, 0x363482c9, 0xba591112, 0x0109ab3a, 0xade79437, 0x6112a3b7)
    ensures State(t + 8) == Vars(0x79ea687a, 0x6dc57a8a, 0x34df1604, 0x41a65cb1, 0x1efbc0a0, 0xf0781bc8, 0xa507a53d, 0x0772a26b)
  {
    hide State, At, RoundConstants;
    Words32To39();
    NextRound(t, Vars(0x73b33bf5, 0xea992a22, 0xa0060b30, 0x363482c9, 0xba591112, 0x0109ab3a, 0xade79437, 0x6112a3b7),
              0x27b70a85, 0x93f5997f, 0x66a5732d, 0x323bb1da);
    NextRound(t + 1, Vars(0x98e12507, 0x73b33bf5, 0xea992a22, 0xa0060b30, 0x9cd9f5f6, 0xba591112, 0x0109ab3a, 0xade79437),
              0x2e1b2138, 0x3b68ba73, 0xb91e92a3, 0x4541bb52);
    NextRound(t + 2, Vars(0xfe604df5, 0x98e12507, 0x73b33bf5, 0xea992a22, 0x59249dd3, 0x9cd9f5f6, 0xba591112, 0x0109ab3a),
              0x4d2c6dfc, 0xaff4ffc1, 0x1dc60e11, 0x8be1657b);
    NextRound(t + 3, Vars(0xa9a7738c, 0xfe604df5, 0x98e12507, 0x73b33bf5, 0x085f3833, 0x59249dd3, 0x9cd9f5f6, 0xba591112),
              0x53380d13, 0xf10a5c62, 0x80fcc6e1, 0xe4a40903);
    NextRound(t + 4, Vars(0x65a0cfe4, 0xa9a7738c, 0xfe604df5, 0x98e12507, 0xf4b002d6, 0x085f3833, 0x59249dd3, 0x9cd9f5f6),
              0x650a7354, 0x0a8b3996, 0x6e917d64, 0xd314df4d);
    NextRound(t + 5, Vars(0x41a65cb1, 0x65a0cfe4, 0xa9a7738c, 0xfe604df5, 0x0772a26b, 0xf4b002d6, 0x085f3833, 0x59249dd3),
              0x766a0abb, 0x72af830a, 0xa6a75748, 0x8e37bebc);
    NextRound(t + 6, Vars(0x34df1604, 0x41a65cb1, 0x65a0cfe4, 0xa9a7738c, 0xa507a53d, 0x0772a26b, 0xf4b002d6, 0x085f3833),
              0x81c2c92e, 0x9409e33e, 0x46d0a83c, 0x26f4d24e);
    NextRound(t + 7, Vars(0x6dc57a8a, 0x34df1604, 0x41a65cb1, 0x65a0cfe4, 0xf0781bc8, 0xa507a53d, 0x0772a26b, 0xf4b002d6),
              0x92722c85, 0x24641522, 0xb95af0bc, 0xc08f77be);
  }

  lemma Rounds40To47(t: nat)
    requires t == 40 && State(t) == Vars(0x79ea687a, 0x6dc57a8a, 0x34df1604, 0x41a65cb1, 0x1efbc0a0, 0xf0781bc8, 0xa507a53d, 0x0772a26b)
    ensures State(t + 8) == Vars(0x4172328d, 0xa14c14b0, 0x72ab4b91, 0x26628815, 0xfecf0bc6, 0xd57b94a9, 0xb7755da1, 0xa80f11f0)
  {
    hide State, At, RoundConstants;
    Words40To47();
    NextRound(t, Vars(0x79ea687a, 0x6dc57a8a, 0x34df1604, 0x41a65cb1, 0x1efbc0a0, 0xf0781bc8, 0xa507a53d, 0x0772a26b),
              0xa2bfe8a1, 0x9f47bf94, 0xe48ed0b2, 0xf1d836b4);
    NextRound(t + 1, Vars(0xd6670766, 0x79ea687a, 0x6dc57a8a, 0x34df1604, 0x26352d63, 0x1efbc0a0, 0xf0781bc8, 0xa507a53d),
              0xa81a664b, 0xf0a64f5a, 0x4eac110d, 0x909a5422);
    NextRound(t + 2, Vars(0xdf46652f, 0xd6670766, 0x79ea687a, 0x6dc57a8a, 0x838b2711, 0x26352d63, 0x1efbc0a0, 0xf0781bc8),
              0xc24b8b70, 0x3e246a79, 0x7107cc8b, 0xa6a24173);
    NextRound(t + 3, Vars(0x17aa0dfe, 0xdf46652f, 0xd6670766, 0x79ea687a, 0xdecd4715, 0x838b2711, 0x26352d63, 0x1efbc0a0),
              0xc76c51a3, 0x27333ba3, 0x83b7e3b4, 0x1993cbdf);
    NextRound(t + 4, Vars(0x9d4baf93, 0x17aa0dfe, 0xdf46652f, 0xd6670766, 0xfda24c2e, 0xdecd4715, 0x838b2711, 0x26352d63),
              0xd192e819, 0x0c4763f2, 0xd1a80a8a, 0x54ba7d8b);
    NextRound(t + 5, Vars(0x26628815, 0x9d4baf93, 0x17aa0dfe, 0xdf46652f, 0xa80f11f0, 0xfda24c2e, 0xdecd4715, 0x838b2711),
              0xd6990624, 0x840abf27, 0xd82ef872, 0x9a7c531f);
    NextRound(t + 6, Vars(0x72ab4b91, 0x26628815, 0x9d4baf93, 0x17aa0dfe, 0xb7755da1, 0xa80f11f0, 0xfda24c2e, 0xdecd4715),
              0xf40e3585, 0x7a290d5d, 0xbdd186ab, 0xe37a8e05);
    NextRound(t + 7, Vars(0xa14c14b0, 0x72ab4b91, 0x26628815, 0x9d4baf93, 0xd57b94a9, 0xb7755da1, 0xa80f11f0, 0xfda24c2e),
              0x106aa070, 0x065c43da, 0x61835c33, 0xdfeed65a);
  }

  lemma Rounds48To55(t: nat)
    requires t == 48 && State(t) == Vars(0x4172328d, 0xa14c14b0, 0x72ab4b91, 0x26628815, 0xfecf0bc6, 0xd57b94a9, 0xb7755da1, 0xa80f11f0)
    ensures State(t + 8) == Vars(0x38cc9913, 0x3ec45cdb, 0xf5702fdb, 0x101fd28f, 0x54cb266b, 0xe50e1b4f, 0x9f4787c3, 0x529e7d00)
  {
    hide State, At, RoundConstants;
    Words48To55();
    NextRound(t, Vars(0x4172328d, 0xa14c14b0, 0x72ab4b91, 0x26628815, 0xfecf0bc6, 0xd57b94a9, 0xb7755da1, 0xa80f11f0),
              0x19a4c116, 0xfb3e89cb, 0x970eb823, 0x6e66c4c8);
    NextRound(t + 1, Vars(0x05757ceb, 0x4172328d, 0xa14c14b0, 0x72ab4b91, 0xbd714038, 0xfecf0bc6, 0xd57b94a9, 0xb7755da1),
              0x1e376c08, 0xcc7617db, 0xfbb0ed7b, 0xf56b0d2d);
    NextRound(t + 2, Vars(0xf11bfaa8, 0x05757ceb, 0x4172328d, 0xa14c14b0, 0x6e5c390c, 0xbd714038, 0xfecf0bc6, 0xd57b94a9),
              0x2748774c, 0xb9e66c34, 0xb1a5b847, 0xc85f505a);
    NextRound(t + 3, Vars(0x7a0508a1, 0xf11bfaa8, 0x05757ceb, 0x4172328d, 0x52f1ccf7, 0x6e5c390c, 0xbd714038, 0xfecf0bc6),
              0x34b0bcb5, 0xa9993667, 0x07b0e991, 0x80bd9091);
    NextRound(t + 4, Vars(0x886e7a22, 0x7a0508a1, 0xf11bfaa8, 0x05757ceb, 0x49231c1e, 0x52f1ccf7, 0x6e5c390c, 0xbd714038),
              0x391c0cb3, 0x84badedd, 0x4d290015, 0xc2f6d27a);
    NextRound(t + 5, Vars(0x101fd28f, 0x886e7a22, 0x7a0508a1, 0xf11bfaa8, 0x529e7d00, 0x49231c1e, 0x52f1ccf7, 0x6e5c390c),
              0x4ed8aa4a, 0xc21462bc, 0xae2b8d1b, 0x4744a2c0);
    NextRound(t + 6, Vars(0xf5702fdb, 0x101fd28f, 0x886e7a22, 0x7a0508a1, 0x9f4787c3, 0x529e7d00, 0x49231c1e, 0x52f1ccf7),
              0x5b9cca4f, 0x1487472c, 0x6b0912ae, 0xd3bb4a2d);
    NextRound(t + 7, Vars(0x3ec45cdb, 0xf5702fdb, 0x101fd28f, 0x886e7a22, 0xe50e1b4f, 0x9f4787c3, 0x529e7d00, 0x49231c1e),
              0x682e6ff3, 0xb20f7a99, 0xcc5cac49, 0x6c6fecca);
  }

  lemma Rounds56To63(t: nat)
    requires t == 56 && State(t) == Vars(0x38cc9913, 0x3ec45cdb, 0xf5702fdb, 0x101fd28f, 0x54cb266b, 0xe50e1b4f, 0x9f4787c3, 0x529e7d00)
    ensures State(t + 8) == Vars(0x506e3058, 0xd39a2165, 0x04d24d6c, 0xb85e2ce9, 0x5ef50f24, 0xfb121210, 0x948d25b6, 0x961f4894)
  {
    hide State, At, RoundConstants;
    Words56To63();
    NextRound(t, Vars(0x38cc9913, 0x3ec45cdb, 0xf5702fdb, 0x101fd28f, 0x54cb266b, 0xe50e1b4f, 0x9f4787c3, 0x529e7d00),
              0x748f82ee, 0xef57b9cd, 0x8b3ebddd, 0x7192ca9e);
    NextRound(t + 1, Vars(0xfcd1887b, 0x38cc9913, 0x3ec45cdb, 0xf5702fdb, 0x9b5e906c, 0x54cb266b, 0xe50e1b4f, 0x9f4787c3),
              0x78a5636f, 0xebe6b238, 0x88d3d0b3, 0x378f03bc);
    NextRound(t + 2, Vars(0xc062d46f, 0xfcd1887b, 0x38cc9913, 0x3ec45cdb, 0x7e44008e, 0x9b5e906c, 0x54cb266b, 0xe50e1b4f),
              0x84c87814, 0x9fe3095e, 0x2ebf62eb, 0xd0f7a187);
    NextRound(t + 3, Vars(0xffb70472, 0xc062d46f, 0xfcd1887b, 0x38cc9913, 0x6d83bfc6, 0x7e44008e, 0x9b5e906c, 0x54cb266b),
              0x8cc70208, 0x78bc8d4b, 0x794f142a, 0x3d5f7bd5);
    NextRound(t + 4, Vars(0xb6ae8fff, 0xffb70472, 0xc062d46f, 0xfcd1887b, 0xb21bad3d, 0x6d83bfc6, 0x7e44008e, 0x9b5e906c),
              0x90befffa, 0xa43fcf15, 0x994dc019, 0x1f106cd0);
    NextRound(t + 5, Vars(0xb85e2ce9, 0xb6ae8fff, 0xffb70472, 0xc062d46f, 0x961f4894, 0xb21bad3d, 0x6d83bfc6, 0x7e44008e),
              0xa4506ceb, 0x668b2ff8, 0xd42a5147, 0x30a7fc25);
    NextRound(t + 6, Vars(0x04d24d6c, 0xb85e2ce9, 0xb6ae8fff, 0xffb70472, 0x948d25b6, 0x961f4894, 0xb21bad3d, 0x6d83bfc6),
              0xbef9a3f7, 0xeeaba2cc, 0xfb5b0d9e, 0xd83f13c7);
    NextRound(t + 7, Vars(0xd39a2165, 0x04d24d6c, 0xb85e2ce9, 0xb6ae8fff, 0xfb121210, 0x948d25b6, 0x961f4894, 0xb21bad3d),
              0xc67178f2, 0x12b1edeb, 0xa8467f25, 0xa827b133);
  }

  // ------------------------------------------------- the digest

  lemma {:induction false} NoBits(k: nat)
    ensures BigEndian(0, k) == Zeros(k)
  {
    if k > 0 {
      NoBits(k - 1);
      SameByte(LowByte(0), 0);
    }
  }

  /** 24 bits, in eight bytes. */
  lemma LengthIs()
    ensures BigEndian(24, 8) == Zeros(7) + [0x18]
  {
    NoBits(7);
    SameByte(LowByte(24), 0x18);
  }

  lemma OneBlock()
    ensures AllBlocks(Pad(ABC)) == [AbcBlock()]
  {
    LengthIs();
    assert ZeroCount(|ABC|) == 52;
    assert Pad(ABC) == AbcBlock();
    assert Blocks(Pad(ABC), 0) == [];
    assert Pad(ABC)[64 * 0..64 * 1] == AbcBlock();
  }

  lemma AllRounds(t: nat)
    requires t == 0
    ensures State(t + 64) == Vars(0x506e3058, 0xd39a2165, 0x04d24d6c, 0xb85e2ce9, 0x5ef50f24, 0xfb121210, 0x948d25b6, 0x961f4894)
  {
    hide Round, RoundConstants;
    assert State(t) == Load(InitialHash());
    AllRoundsFrom(t);
  }

  lemma AllRoundsFrom(t: nat)
    requires t == 0 && State(t) == Vars(0x6a09e667, 0xbb67ae85, 0x3c6ef372, 0xa54ff53a, 0x510e527f, 0x9b05688c, 0x1f83d9ab, 0x5be0cd19)
    ensures State(t + 64) == Vars(0x506e3058, 0xd39a2165, 0x04d24d6c, 0xb85e2ce9, 0x5ef50f24, 0xfb121210, 0x948d25b6, 0x961f4894)
  {
    hide State;
    Rounds0To7(t);
    Rounds8To15(t + 8);
    Rounds16To23(t + 16);
    Rounds24To31(t + 24);
    Rounds32To39(t + 32);
    Rounds40To47(t + 40);
    Rounds48To55(t + 48);
    Rounds56To63(t + 56);
  }

  lemma Summed()
    ensures Compress(Words(), Load(InitialHash()), AbcBlock()) == Vars(0xba7816bf, 0x8f01cfea, 0x414140de, 0x5dae2223, 0xb00361a3, 0x96177a9c, 0xb410ff61, 0xf20015ad)
  {
    hide State;
    AllRounds(0);
    SumIsAll(Vars(0x506e3058, 0xd39a2165, 0x04d24d6c, 0xb85e2ce9, 0x5ef50f24, 0xfb121210, 0x948d25b6, 0x961f4894));
    CompressIs();
  }

  lemma CompressIs()
    ensures Compress(Words(), Load(InitialHash()), AbcBlock()) == Sum(Words(), State(64), Load(InitialHash()))
  {
    hide Rounds, Schedule, Sum;
  }

  lemma SumIsAll(v: Vars<Word>)
    ensures var h := Load(InitialHash());
            Sum(Words(), v, h) == Vars(v.a + h.a, v.b + h.b, v.c + h.c, v.d + h.d, v.e + h.e, v.f + h.f, v.g + h.g, v.h + h.h)
  {
    var h := Load(InitialHash());
    AddIs(v.a, h.a);
    AddIs(v.b, h.b);
    AddIs(v.c, h.c);
    AddIs(v.d, h.d);
    AddIs(v.e, h.e);
    AddIs(v.f, h.f);
    AddIs(v.g, h.g);
    AddIs(v.h, h.h);
  }

  lemma BytesAre(x: Word)
    ensures Words().bytes(x) == WordBytes(x)
  {
  }

  lemma OutputIs()
    ensures Output(Words(), Vars(0xba7816bf, 0x8f01cfea, 0x414140de, 0x5dae2223, 0xb00361a3, 0x96177a9c, 0xb410ff61, 0xf20015ad))
         == [0xba, 0x78, 0x16, 0xbf, 0x8f, 0x01, 0xcf, 0xea, 0x41, 0x41, 0x40, 0xde, 0x5d, 0xae, 0x22, 0x23,
             0xb0, 0x03, 0x61, 0xa3, 0x96, 0x17, 0x7a, 0x9c, 0xb4, 0x10, 0xff, 0x61, 0xf2, 0x00, 0x15, 0xad]
  {
    BytesAre(0xba7816bf);
    BytesAre(0x8f01cfea);
    BytesAre(0x414140de);
    BytesAre(0x5dae2223);
    BytesAre(0xb00361a3);
    BytesAre(0x96177a9c);
    BytesAre(0xb410ff61);
    BytesAre(0xf20015ad);
  }

  /** The digest of "abc". */
  lemma DigestOfAbc()
    ensures Digest(ABC)
         == [0xba, 0x78, 0x16, 0xbf, 0x8f, 0x01, 0xcf, 0xea, 0x41, 0x41, 0x40, 0xde, 0x5d, 0xae, 0x22, 0x23,
             0xb0, 0x03, 0x61, 0xa3, 0x96, 0x17, 0x7a, 0x9c, 0xb4, 0x10, 0xff, 0x61, 0xf2, 0x00, 0x15, 0xad]
  {
    hide Compress, Fold, Output, Words, AllBlocks, Pad, InitialHash;
    Summed();
    OneBlock();
    FoldOne();
    OutputIs();
  }

  lemma FoldOne()
    ensures Fold(Words(), Load(InitialHash()), [AbcBlock()]) == Compress(Words(), Load(InitialHash()), AbcBlock())
  {
    hide Compress;
    assert [AbcBlock()][..0] == [];
  }
}

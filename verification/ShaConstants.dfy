/**
 * Where the constants of SHA-256 come from (FIPS 180-4, sections 4.2.2 and 5.3.3): the first 32 bits of the
 * fractional parts of the cube roots of the first 64 primes, and of the square roots of the first eight.
 */
module ShaConstants {
  import opened Sha256

  // ------------------------------------------------- the first 64 primes

  predicate IsPrime(n: nat) { n >= 2 && forall d :: 2 <= d < n ==> n % d != 0 }

  predicate NextPrime(p: nat, q: nat) { p < q && IsPrime(q) && forall n :: p < n < q ==> !IsPrime(n) }

  /** No prime below 19 divides the number, unless it is that prime. */
  predicate Rough(n: nat) {
    && (n % 2 == 0 ==> n == 2) && (n % 3 == 0 ==> n == 3) && (n % 5 == 0 ==> n == 5) && (n % 7 == 0 ==> n == 7)
    && (n % 11 == 0 ==> n == 11) && (n % 13 == 0 ==> n == 13) && (n % 17 == 0 ==> n == 17)
  }

  predicate NoneRough(from: nat, to: nat)
    decreases to - from
  {
    from >= to || (!Rough(from) && NoneRough(from + 1, to))
  }

  lemma {:induction false} NoneIsRough(from: nat, to: nat, n: nat)
    requires NoneRough(from, to) && from <= n < to
    ensures !Rough(n)
    decreases n - from
  {
    if from < n {
      NoneIsRough(from + 1, to, n);
    }
  }

  predicate NextRough(p: nat, q: nat) { p < q && Rough(q) && NoneRough(p + 1, q) }

  lemma MultipleOf2(n: nat, k: nat)
    requires n == 2 * k
    ensures n % 2 == 0
  {
  }

  lemma MultipleOf3(n: nat, k: nat)
    requires n == 3 * k
    ensures n % 3 == 0
  {
  }

  lemma MultipleOf5(n: nat, k: nat)
    requires n == 5 * k
    ensures n % 5 == 0
  {
  }

  lemma MultipleOf7(n: nat, k: nat)
    requires n == 7 * k
    ensures n % 7 == 0
  {
  }

  lemma MultipleOf11(n: nat, k: nat)
    requires n == 11 * k
    ensures n % 11 == 0
  {
  }

  lemma MultipleOf13(n: nat, k: nat)
    requires n == 13 * k
    ensures n % 13 == 0
  {
  }

  lemma MultipleOf17(n: nat, k: nat)
    requires n == 17 * k
    ensures n % 17 == 0
  {
  }

  lemma Regrouped(p: nat, h: nat, e: nat)
    ensures p * h * e == p * (h * e)
  {
  }

  /** A divisor below 19 has a prime divisor below 19. */
  lemma SmallDivisor(n: nat, s: nat, e: nat)
    requires 2 <= s < 19 && s < n && n == s * e
    ensures !Rough(n)
  {
    if s % 2 == 0 {
      var h := s / 2;
      assert 2 * h == s;
      Regrouped(2, h, e);
      MultipleOf2(n, h * e);
    } else if s % 3 == 0 {
      var h := s / 3;
      assert 3 * h == s;
      Regrouped(3, h, e);
      MultipleOf3(n, h * e);
    } else if s == 5 {
      MultipleOf5(n, e);
    } else if s == 7 {
      MultipleOf7(n, e);
    } else if s == 11 {
      MultipleOf11(n, e);
    } else if s == 13 {
      MultipleOf13(n, e);
    } else {
      MultipleOf17(n, e);
    }
  }

  lemma Product(d: nat, e: nat)
    requires d >= 19 && e >= 19
    ensures d * e >= 361
  {
    assert d * e >= 19 * e;
  }

  lemma SmallerFactor(n: nat, d: nat) returns (s: nat, e: nat)
    requires 2 <= d < n < 361 && n % d == 0
    ensures 2 <= s < 19 && s < n && n == s * e
  {
    var q := n / d;
    assert n == d * q;
    if d < 19 {
      s, e := d, q;
    } else {
      if q >= 19 {
        Product(d, q);
      }
      s, e := q, d;
    }
  }

  /** Below 19 times 19 that is to be a prime. */
  lemma RoughIsPrime(n: nat)
    requires 2 <= n < 361
    ensures IsPrime(n) <==> Rough(n)
  {
    if !IsPrime(n) {
      var d :| 2 <= d < n && n % d == 0;
      var s, e := SmallerFactor(n, d);
      SmallDivisor(n, s, e);
    }
  }

  lemma NextRoughIsNextPrime(p: nat, q: nat)
    requires 2 <= p < q < 361 && NextRough(p, q)
    ensures NextPrime(p, q)
  {
    RoughIsPrime(q);
    forall n | p < n < q
      ensures !IsPrime(n)
    {
      NoneIsRough(p + 1, q, n);
      RoughIsPrime(n);
    }
  }

  // ------------------------------------------------- the roots

  /** A prime p, and the whole part of 2^32 times its cube root. */
  datatype Root = Root(prime: nat, cube: nat)

  /** Eight to a row, in the order of the constants. */
  function RootRow(r: nat): (t: seq<Root>)
    ensures |t| == 8
  {
    match r
    case 0 => [Root(2, 0x1_428a2f98), Root(3, 0x1_71374491), Root(5, 0x1_b5c0fbcf), Root(7, 0x1_e9b5dba5),
               Root(11, 0x2_3956c25b), Root(13, 0x2_59f111f1), Root(17, 0x2_923f82a4), Root(19, 0x2_ab1c5ed5)]
    case 1 => [Root(23, 0x2_d807aa98), Root(29, 0x3_12835b01), Root(31, 0x3_243185be), Root(37, 0x3_550c7dc3),
               Root(41, 0x3_72be5d74), Root(43, 0x3_80deb1fe), Root(47, 0x3_9bdc06a7), Root(53, 0x3_c19bf174)]
    case 2 => [Root(59, 0x3_e49b69c1), Root(61, 0x3_efbe4786), Root(67, 0x4_0fc19dc6), Root(71, 0x4_240ca1cc),
               Root(73, 0x4_2de92c6f), Root(79, 0x4_4a7484aa), Root(83, 0x4_5cb0a9dc), Root(89, 0x4_76f988da)]
    case 3 => [Root(97, 0x4_983e5152), Root(101, 0x4_a831c66d), Root(103, 0x4_b00327c8), Root(107, 0x4_bf597fc7),
               Root(109, 0x4_c6e00bf3), Root(113, 0x4_d5a79147), Root(127, 0x5_06ca6351), Root(131, 0x5_14292967)]
    case 4 => [Root(137, 0x5_27b70a85), Root(139, 0x5_2e1b2138), Root(149, 0x5_4d2c6dfc), Root(151, 0x5_53380d13),
               Root(157, 0x5_650a7354), Root(163, 0x5_766a0abb), Root(167, 0x5_81c2c92e), Root(173, 0x5_92722c85)]
    case 5 => [Root(179, 0x5_a2bfe8a1), Root(181, 0x5_a81a664b), Root(191, 0x5_c24b8b70), Root(193, 0x5_c76c51a3),
               Root(197, 0x5_d192e819), Root(199, 0x5_d6990624), Root(211, 0x5_f40e3585), Root(223, 0x6_106aa070)]
    case 6 => [Root(227, 0x6_19a4c116), Root(229, 0x6_1e376c08), Root(233, 0x6_2748774c), Root(239, 0x6_34b0bcb5),
               Root(241, 0x6_391c0cb3), Root(251, 0x6_4ed8aa4a), Root(257, 0x6_5b9cca4f), Root(263, 0x6_682e6ff3)]
    case _ => [Root(269, 0x6_748f82ee), Root(271, 0x6_78a5636f), Root(277, 0x6_84c87814), Root(281, 0x6_8cc70208),
               Root(283, 0x6_90befffa), Root(293, 0x6_a4506ceb), Root(307, 0x6_bef9a3f7), Root(311, 0x6_c67178f2)]
  }

  function RootAt(i: nat): Root { RootRow(i / 8)[i % 8] }

  /** The whole parts of 2^32 times the square roots of the first eight primes. */
  function SquareRoots(): (s: seq<nat>)
    ensures |s| == 8
  {
    [0x1_6a09e667, 0x1_bb67ae85, 0x2_3c6ef372, 0x2_a54ff53a,
     0x3_510e527f, 0x3_9b05688c, 0x4_1f83d9ab, 0x4_5be0cd19]
  }

  predicate IsCubeRoot(n: nat, x: nat) { n * n * n <= x < (n + 1) * (n + 1) * (n + 1) }

  predicate IsSquareRoot(n: nat, x: nat) { n * n <= x < (n + 1) * (n + 1) }

  predicate FromCubeRoot(k: Word, r: Root) {
    IsCubeRoot(r.cube, r.prime * 0x1_00000000_00000000_00000000) && k as nat == r.cube % 0x1_0000_0000
  }

  predicate FromSquareRoot(h: Word, prime: nat, root: nat) {
    IsSquareRoot(root, prime * 0x1_00000000_00000000) && h as nat == root % 0x1_0000_0000
  }

  predicate GoodRow(r: nat) { forall i :: 0 <= i < 8 ==> FromCubeRoot(ConstantRow(r)[i], RootRow(r)[i]) }

  predicate PrimeRow(r: nat, next: nat) {
    var t := RootRow(r);
    (forall i :: 0 <= i < 7 ==> NextRough(t[i].prime, t[i + 1].prime)) && NextRough(t[7].prime, next)
  }

  lemma Row0()
    ensures GoodRow(0)
  {
    var k, t := ConstantRow(0), RootRow(0);
    assert FromCubeRoot(k[0], t[0]) && FromCubeRoot(k[1], t[1]);
    assert FromCubeRoot(k[2], t[2]) && FromCubeRoot(k[3], t[3]);
    assert FromCubeRoot(k[4], t[4]) && FromCubeRoot(k[5], t[5]);
    assert FromCubeRoot(k[6], t[6]) && FromCubeRoot(k[7], t[7]);
  }

  lemma Row1()
    ensures GoodRow(1)
  {
    var k, t := ConstantRow(1), RootRow(1);
    assert FromCubeRoot(k[0], t[0]) && FromCubeRoot(k[1], t[1]);
    assert FromCubeRoot(k[2], t[2]) && FromCubeRoot(k[3], t[3]);
    assert FromCubeRoot(k[4], t[4]) && FromCubeRoot(k[5], t[5]);
    assert FromCubeRoot(k[6], t[6]) && FromCubeRoot(k[7], t[7]);
  }

  lemma Row2()
    ensures GoodRow(2)
  {
    var k, t := ConstantRow(2), RootRow(2);
    assert FromCubeRoot(k[0], t[0]) && FromCubeRoot(k[1], t[1]);
    assert FromCubeRoot(k[2], t[2]) && FromCubeRoot(k[3], t[3]);
    assert FromCubeRoot(k[4], t[4]) && FromCubeRoot(k[5], t[5]);
    assert FromCubeRoot(k[6], t[6]) && FromCubeRoot(k[7], t[7]);
  }

  lemma Row3()
    ensures GoodRow(3)
  {
    var k, t := ConstantRow(3), RootRow(3);
    assert FromCubeRoot(k[0], t[0]) && FromCubeRoot(k[1], t[1]);
    assert FromCubeRoot(k[2], t[2]) && FromCubeRoot(k[3], t[3]);
    assert FromCubeRoot(k[4], t[4]) && FromCubeRoot(k[5], t[5]);
    assert FromCubeRoot(k[6], t[6]) && FromCubeRoot(k[7], t[7]);
  }

  lemma Row4()
    ensures GoodRow(4)
  {
    var k, t := ConstantRow(4), RootRow(4);
    assert FromCubeRoot(k[0], t[0]) && FromCubeRoot(k[1], t[1]);
    assert FromCubeRoot(k[2], t[2]) && FromCubeRoot(k[3], t[3]);
    assert FromCubeRoot(k[4], t[4]) && FromCubeRoot(k[5], t[5]);
    assert FromCubeRoot(k[6], t[6]) && FromCubeRoot(k[7], t[7]);
  }

  lemma Row5()
    ensures GoodRow(5)
  {
    var k, t := ConstantRow(5), RootRow(5);
    assert FromCubeRoot(k[0], t[0]) && FromCubeRoot(k[1], t[1]);
    assert FromCubeRoot(k[2], t[2]) && FromCubeRoot(k[3], t[3]);
    assert FromCubeRoot(k[4], t[4]) && FromCubeRoot(k[5], t[5]);
    assert FromCubeRoot(k[6], t[6]) && FromCubeRoot(k[7], t[7]);
  }

  lemma Row6()
    ensures GoodRow(6)
  {
    var k, t := ConstantRow(6), RootRow(6);
    assert FromCubeRoot(k[0], t[0]) && FromCubeRoot(k[1], t[1]);
    assert FromCubeRoot(k[2], t[2]) && FromCubeRoot(k[3], t[3]);
    assert FromCubeRoot(k[4], t[4]) && FromCubeRoot(k[5], t[5]);
    assert FromCubeRoot(k[6], t[6]) && FromCubeRoot(k[7], t[7]);
  }

  lemma Row7()
    ensures GoodRow(7)
  {
    var k, t := ConstantRow(7), RootRow(7);
    assert FromCubeRoot(k[0], t[0]) && FromCubeRoot(k[1], t[1]);
    assert FromCubeRoot(k[2], t[2]) && FromCubeRoot(k[3], t[3]);
    assert FromCubeRoot(k[4], t[4]) && FromCubeRoot(k[5], t[5]);
    assert FromCubeRoot(k[6], t[6]) && FromCubeRoot(k[7], t[7]);
  }

  lemma Steps0()
    ensures NextRough(2, 3) && NextRough(3, 5)
    ensures NextRough(5, 7) && NextRough(7, 11)
    ensures NextRough(11, 13) && NextRough(13, 17)
    ensures NextRough(17, 19) && NextRough(19, 23)
  {
  }

  lemma Primes0()
    ensures PrimeRow(0, 23)
  {
    hide NextRough;
    Steps0();
  }

  lemma Steps1()
    ensures NextRough(23, 29) && NextRough(29, 31)
    ensures NextRough(31, 37) && NextRough(37, 41)
    ensures NextRough(41, 43) && NextRough(43, 47)
    ensures NextRough(47, 53) && NextRough(53, 59)
  {
  }

  lemma Primes1()
    ensures PrimeRow(1, 59)
  {
    hide NextRough;
    Steps1();
  }

  lemma Steps2()
    ensures NextRough(59, 61) && NextRough(61, 67)
    ensures NextRough(67, 71) && NextRough(71, 73)
    ensures NextRough(73, 79) && NextRough(79, 83)
    ensures NextRough(83, 89) && NextRough(89, 97)
  {
  }

  lemma Primes2()
    ensures PrimeRow(2, 97)
  {
    hide NextRough;
    Steps2();
  }

  lemma Steps3()
    ensures NextRough(97, 101) && NextRough(101, 103)
    ensures NextRough(103, 107) && NextRough(107, 109)
    ensures NextRough(109, 113) && NextRough(113, 127)
    ensures NextRough(127, 131) && NextRough(131, 137)
  {
  }

  lemma Primes3()
    ensures PrimeRow(3, 137)
  {
    hide NextRough;
    Steps3();
  }

  lemma Steps4()
    ensures NextRough(137, 139) && NextRough(139, 149)
    ensures NextRough(149, 151) && NextRough(151, 157)
    ensures NextRough(157, 163) && NextRough(163, 167)
    ensures NextRough(167, 173) && NextRough(173, 179)
  {
  }

  lemma Primes4()
    ensures PrimeRow(4, 179)
  {
    hide NextRough;
    Steps4();
  }

  lemma Steps5()
    ensures NextRough(179, 181) && NextRough(181, 191)
    ensures NextRough(191, 193) && NextRough(193, 197)
    ensures NextRough(197, 199) && NextRough(199, 211)
    ensures NextRough(211, 223) && NextRough(223, 227)
  {
  }

  lemma Primes5()
    ensures PrimeRow(5, 227)
  {
    hide NextRough;
    Steps5();
  }

  lemma Steps6()
    ensures NextRough(227, 229) && NextRough(229, 233)
    ensures NextRough(233, 239) && NextRough(239, 241)
    ensures NextRough(241, 251) && NextRough(251, 257)
    ensures NextRough(257, 263) && NextRough(263, 269)
  {
  }

  lemma Primes6()
    ensures PrimeRow(6, 269)
  {
    hide NextRough;
    Steps6();
  }

  lemma Steps7()
    ensures NextRough(269, 271) && NextRough(271, 277)
    ensures NextRough(277, 281) && NextRough(281, 283)
    ensures NextRough(283, 293) && NextRough(293, 307)
    ensures NextRough(307, 311) && NextRough(311, 313)
  {
  }

  lemma Primes7()
    ensures PrimeRow(7, 313)
  {
    hide NextRough;
    Steps7();
  }

  lemma AllRows(r: nat)
    requires r < 8
    ensures GoodRow(r)
  {
    match r
    case 0 => Row0();
    case 1 => Row1();
    case 2 => Row2();
    case 3 => Row3();
    case 4 => Row4();
    case 5 => Row5();
    case 6 => Row6();
    case _ => Row7();
  }

  lemma AllPrimes(r: nat)
    requires r < 8
    ensures PrimeRow(r, if r < 7 then RootRow(r + 1)[0].prime else 313)
  {
    hide PrimeRow;
    match r
    case 0 => Primes0();
    case 1 => Primes1();
    case 2 => Primes2();
    case 3 => Primes3();
    case 4 => Primes4();
    case 5 => Primes5();
    case 6 => Primes6();
    case _ => Primes7();
  }

  /** The 64 numbers are 2 and then always the next prime. */
  lemma FirstPrimes(i: nat)
    requires i < 64
    ensures RootAt(0).prime == 2 && (i < 63 ==> NextPrime(RootAt(i).prime, RootAt(i + 1).prime))
  {
    if i < 63 {
      Adjacent(i);
      InRange(i);
      InRange(i + 1);
      NextRoughIsNextPrime(RootAt(i).prime, RootAt(i + 1).prime);
    }
  }

  lemma Adjacent(i: nat)
    requires i < 63
    ensures NextRough(RootAt(i).prime, RootAt(i + 1).prime)
  {
    hide NextRough;
    AllPrimes(i / 8);
  }

  lemma InRange(i: nat)
    requires i < 64
    ensures 2 <= RootAt(i).prime < 361
  {
  }

  /** Round constant `i` is the first 32 bits of the fraction of the cube root of prime `i`. */
  lemma ConstantsAreCubeRoots(i: nat)
    requires i < 64
    ensures var n, p := RootAt(i).cube, RootAt(i).prime;
            && n * n * n <= p * 0x1_00000000_00000000_00000000 < (n + 1) * (n + 1) * (n + 1)
            && RoundConstants()[i] as nat == n % 0x1_0000_0000
  {
    AllRows(i / 8);
    assert FromCubeRoot(ConstantRow(i / 8)[i % 8], RootRow(i / 8)[i % 8]);
  }

  /** Initial word `i` is the first 32 bits of the fraction of the square root of prime `i`. */
  lemma InitialHashIsSquareRoots(i: nat)
    requires i < 8
    ensures var n, p := SquareRoots()[i], RootAt(i).prime;
            && n * n <= p * 0x1_00000000_00000000 < (n + 1) * (n + 1)
            && InitialHash()[i] as nat == n % 0x1_0000_0000
  {
    var h, s, t := InitialHash(), SquareRoots(), RootRow(0);
    assert FromSquareRoot(h[0], t[0].prime, s[0]) && FromSquareRoot(h[1], t[1].prime, s[1]);
    assert FromSquareRoot(h[2], t[2].prime, s[2]) && FromSquareRoot(h[3], t[3].prime, s[3]);
    assert FromSquareRoot(h[4], t[4].prime, s[4]) && FromSquareRoot(h[5], t[5].prime, s[5]);
    assert FromSquareRoot(h[6], t[6].prime, s[6]) && FromSquareRoot(h[7], t[7].prime, s[7]);
    assert FromSquareRoot(h[i], t[i].prime, s[i]);
  }
}

/**
 The constants of SHA-256 against their definition in FIPS 180-4 (sections 4.2.2 and 5.3.3): the first 32
 bits of the fractional parts of the cube roots of the first 64 primes, and of the square roots of the
 first eight.
 */
module Sha256Constants {
  import opened Sha256

  function Prime(i: nat): nat
    requires i < 64
  {
    match i
    case 0 => 2 case 1 => 3 case 2 => 5 case 3 => 7 case 4 => 11 case 5 => 13
    case 6 => 17 case 7 => 19 case 8 => 23 case 9 => 29 case 10 => 31 case 11 => 37
    case 12 => 41 case 13 => 43 case 14 => 47 case 15 => 53 case 16 => 59 case 17 => 61
    case 18 => 67 case 19 => 71 case 20 => 73 case 21 => 79 case 22 => 83 case 23 => 89
    case 24 => 97 case 25 => 101 case 26 => 103 case 27 => 107 case 28 => 109 case 29 => 113
    case 30 => 127 case 31 => 131 case 32 => 137 case 33 => 139 case 34 => 149 case 35 => 151
    case 36 => 157 case 37 => 163 case 38 => 167 case 39 => 173 case 40 => 179 case 41 => 181
    case 42 => 191 case 43 => 193 case 44 => 197 case 45 => 199 case 46 => 211 case 47 => 223
    case 48 => 227 case 49 => 229 case 50 => 233 case 51 => 239 case 52 => 241 case 53 => 251
    case 54 => 257 case 55 => 263 case 56 => 269 case 57 => 271 case 58 => 277 case 59 => 281
    case 60 => 283 case 61 => 293 case 62 => 307 case _ => 311
  }

  // r is the cube root of p in units of 2^-32, rounded down; its low 32 bits are the fraction.
  predicate CubeRoot(p: nat, r: nat) {
    r * r * r <= p * 0x1_0000_0000_0000_0000_0000_0000 < (r + 1) * (r + 1) * (r + 1)
  }

  predicate SquareRoot(p: nat, r: nat) {
    r * r <= p * 0x1_0000_0000_0000_0000 < (r + 1) * (r + 1)
  }

  function Fraction(r: nat): nat { r % 0x1_0000_0000 }

  function CubeRootFloor(p: nat): nat {
    if p < 8 then 1 else if p < 27 then 2 else if p < 64 then 3 else if p < 125 then 4 else if p < 216 then 5 else 6
  }

  function SquareRootFloor(p: nat): nat {
    if p < 4 then 1 else if p < 9 then 2 else if p < 16 then 3 else 4
  }

  // The roots whose fractions the tables hold.
  function TableCubeRoot(i: nat): nat
    requires i < 64
  {
    CubeRootFloor(Prime(i)) * 0x1_0000_0000 + RoundConstant(i)
  }

  function TableSquareRoot(i: nat): nat
    requires i < 8
  {
    SquareRootFloor(Prime(i)) * 0x1_0000_0000 + InitialWord(i)
  }

  predicate CubeRootsFrom(lo: nat, n: nat)
    requires lo <= n <= 64
    decreases n
  {
    lo == n || (CubeRoot(Prime(n - 1), TableCubeRoot(n - 1)) && CubeRootsFrom(lo, n - 1))
  }

  predicate SquareRootsBelow(n: nat)
    requires n <= 8
  {
    n == 0 || (SquareRoot(Prime(n - 1), TableSquareRoot(n - 1)) && SquareRootsBelow(n - 1))
  }

  // The tables, by evaluation.
  lemma CubeRoots0() ensures CubeRootsFrom(0, 14) {}
  lemma CubeRoots14() ensures CubeRootsFrom(14, 24) {}
  lemma CubeRoots24() ensures CubeRootsFrom(24, 32) {}
  lemma CubeRoots32() ensures CubeRootsFrom(32, 39) {}
  lemma CubeRoots39() ensures CubeRootsFrom(39, 45) {}
  lemma CubeRoots45() ensures CubeRootsFrom(45, 51) {}
  lemma CubeRoots51() ensures CubeRootsFrom(51, 56) {}
  lemma CubeRoots56() ensures CubeRootsFrom(56, 60) {}
  lemma CubeRoots60() ensures CubeRootsFrom(60, 64) {}

  lemma SquareRoots()
    ensures SquareRootsBelow(8)
  {
  }

  lemma {:induction false} CubeRootAmong(lo: nat, n: nat, i: nat)
    requires lo <= i < n <= 64 && CubeRootsFrom(lo, n)
    ensures CubeRoot(Prime(i), TableCubeRoot(i))
    decreases n
  {
    hide CubeRoot, TableCubeRoot, Prime;
    if i < n - 1 { CubeRootAmong(lo, n - 1, i); }
  }

  lemma {:induction false} SquareRootAmong(n: nat, i: nat)
    requires i < n <= 8 && SquareRootsBelow(n)
    ensures SquareRoot(Prime(i), TableSquareRoot(i))
    decreases n
  {
    hide SquareRoot, TableSquareRoot, Prime;
    if i < n - 1 { SquareRootAmong(n - 1, i); }
  }

  /** Every round constant is the fraction of a cube root, as specified. */
  lemma RoundConstantsAreCubeRoots(i: nat) returns (r: nat)
    requires i < 64
    ensures CubeRoot(Prime(i), r) && Fraction(r) == RoundConstant(i)
  {
    hide CubeRoot, CubeRootsFrom, Prime, RoundConstant;
    r := TableCubeRoot(i);
    if i < 14 {
      CubeRoots0();
      CubeRootAmong(0, 14, i);
    } else if i < 24 {
      CubeRoots14();
      CubeRootAmong(14, 24, i);
    } else if i < 32 {
      CubeRoots24();
      CubeRootAmong(24, 32, i);
    } else if i < 39 {
      CubeRoots32();
      CubeRootAmong(32, 39, i);
    } else if i < 45 {
      CubeRoots39();
      CubeRootAmong(39, 45, i);
    } else if i < 51 {
      CubeRoots45();
      CubeRootAmong(45, 51, i);
    } else if i < 56 {
      CubeRoots51();
      CubeRootAmong(51, 56, i);
    } else if i < 60 {
      CubeRoots56();
      CubeRootAmong(56, 60, i);
    } else {
      CubeRoots60();
      CubeRootAmong(60, 64, i);
    }
  }

  /** Every initial hash word is the fraction of a square root, as specified. */
  lemma InitialHashIsSquareRoots(i: nat) returns (r: nat)
    requires i < 8
    ensures SquareRoot(Prime(i), r) && Fraction(r) == InitialWord(i)
  {
    hide SquareRoot, SquareRootsBelow, Prime, InitialWord;
    SquareRoots();
    r := TableSquareRoot(i);
    SquareRootAmong(8, i);
  }
}

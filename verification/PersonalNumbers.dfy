/** The checksums of personal numbers (app/egn.py) and the typing errors they catch. */
module PersonalNumbers {

  const EGN_WEIGHTS := [2, 4, 8, 5, 10, 9, 7, 3, 6]
  const LNCH_WEIGHTS := [21, 19, 17, 13, 11, 9, 7, 3, 1]

  predicate IsDigit(c: char) { '0' <= c <= '9' }

  function Value(c: char): int { c as int - '0' as int }

  predicate TenDigits(s: string)
  {
    |s| == 10 && forall i :: 0 <= i < 10 ==> IsDigit(s[i])
  }

  /** The weighted sum of the first n digits. */
  function Weighted(s: string, weights: seq<int>, n: nat): int
    requires n <= |s| && n <= |weights|
  {
    if n == 0 then 0 else Weighted(s, weights, n - 1) + Value(s[n - 1]) * weights[n - 1]
  }

  function EgnRemainder(s: string): int
    requires |s| == 10
  {
    Weighted(s, EGN_WEIGHTS, 9) % 11
  }

  predicate IsValidEgn(s: string)
  {
    TenDigits(s) && (var r := EgnRemainder(s); Value(s[9]) == if r == 10 then 0 else r)
  }

  predicate IsValidLnch(s: string)
  {
    TenDigits(s) && Weighted(s, LNCH_WEIGHTS, 9) % 10 == Value(s[9])
  }

  lemma {:induction false} OneDigitChanged(s: string, weights: seq<int>, n: nat, i: nat, c: char)
    requires n <= |s| && n <= |weights| && i < |s|
    ensures Weighted(s[i := c], weights, n)
         == Weighted(s, weights, n) + if i < n then weights[i] * (Value(c) - Value(s[i])) else 0
    decreases n
  {
    if n > 0 {
      OneDigitChanged(s, weights, n - 1, i, c);
      if i == n - 1 {
        assert weights[i] * (Value(c) - Value(s[i])) == Value(c) * weights[i] - Value(s[i]) * weights[i];
      }
    }
  }

  function Swapped(s: string, i: nat, j: nat): string
    requires i < |s| && j < |s|
  {
    s[i := s[j]][j := s[i]]
  }

  lemma TwoDigitsSwapped(s: string, weights: seq<int>, n: nat, i: nat, j: nat)
    requires i < j < n <= |s| && n <= |weights|
    ensures Weighted(Swapped(s, i, j), weights, n)
         == Weighted(s, weights, n) + (weights[i] - weights[j]) * (Value(s[j]) - Value(s[i]))
  {
    OneDigitChanged(s, weights, n, i, s[j]);
    OneDigitChanged(s[i := s[j]], weights, n, j, s[i]);
    var a, b, d := weights[i], weights[j], Value(s[j]) - Value(s[i]);
    assert b * (Value(s[i]) - Value(s[j])) == -(b * d);
    assert (a - b) * d == a * d - b * d;
  }

  lemma RemainderShift(x: int, y: int, m: int)
    requires m > 0
    ensures (x + y) % m == x % m <==> y % m == 0
  {
    var k := (x + y) / m - x / m;
    assert y == m * k + ((x + y) % m - x % m) by {
      assert x + y == m * ((x + y) / m) + (x + y) % m && x == m * (x / m) + x % m;
      assert m * k == m * ((x + y) / m) - m * (x / m);
    }
    if (x + y) % m == x % m {
      MultipleHasNoRemainder(k, m);
    }
    if y % m == 0 {
      SmallMultiple(m, y / m - k, (x + y) % m - x % m);
    }
  }

  lemma MultipleHasNoRemainder(k: int, m: int)
    requires m > 0
    ensures m * k % m == 0
  {
    var q, r := m * k / m, m * k % m;
    assert m * k == m * q + r;
    assert m * (k - q) == m * k - m * q;
    SmallMultiple(m, k - q, r);
  }

  lemma SmallMultiple(m: int, j: int, r: int)
    requires m > 0 && -m < r < m
    ensures m * j == r ==> r == 0 && j == 0
  {
    if j >= 1 {
      assert m * j >= m * 1;
    } else if j <= -1 {
      assert m * j <= m * (-1);
    }
  }

  // ---- LNCh -----------------------------------------------------------------------------------

  lemma LnchWeightIsUnit(i: nat, d: int)
    requires i < 9 && -10 < d < 10
    ensures LNCH_WEIGHTS[i] * d % 10 == 0 <==> d == 0
  {
    var w := LNCH_WEIGHTS[i];
    assert w == 21 || w == 19 || w == 17 || w == 13 || w == 11 || w == 9 || w == 7 || w == 3 || w == 1;
  }

  lemma LnchNeighbours(i: nat, d: int)
    requires i < 8 && -10 < d < 10
    ensures (LNCH_WEIGHTS[i] - LNCH_WEIGHTS[i + 1]) * d % 10 == 0 <==> d == 0 || d == 5 || d == -5
  {
    var w := LNCH_WEIGHTS[i] - LNCH_WEIGHTS[i + 1];
    assert w == 2 || w == 4;
  }

  /** The LNCh weights are the numbers up to 21 that share no factor with 10, largest first. */
  lemma LnchWeightsAreUnits(w: int)
    ensures w in LNCH_WEIGHTS <==> 1 <= w <= 21 && w % 2 != 0 && w % 5 != 0
    ensures |LNCH_WEIGHTS| == 9 && forall i, j :: 0 <= i < j < 9 ==> LNCH_WEIGHTS[i] > LNCH_WEIGHTS[j]
  {
  }

  lemma NineTerms(s: string, weights: seq<int>)
    requires |s| == 10 && |weights| == 9
    ensures Weighted(s, weights, 9) ==
      Value(s[0]) * weights[0] + Value(s[1]) * weights[1] + Value(s[2]) * weights[2] + Value(s[3]) * weights[3]
      + Value(s[4]) * weights[4] + Value(s[5]) * weights[5] + Value(s[6]) * weights[6] + Value(s[7]) * weights[7]
      + Value(s[8]) * weights[8]
  {
    assert Weighted(s, weights, 1) == Value(s[0]) * weights[0];
    assert Weighted(s, weights, 2) == Weighted(s, weights, 1) + Value(s[1]) * weights[1];
    assert Weighted(s, weights, 3) == Weighted(s, weights, 2) + Value(s[2]) * weights[2];
    assert Weighted(s, weights, 4) == Weighted(s, weights, 3) + Value(s[3]) * weights[3];
    assert Weighted(s, weights, 5) == Weighted(s, weights, 4) + Value(s[4]) * weights[4];
    assert Weighted(s, weights, 6) == Weighted(s, weights, 5) + Value(s[5]) * weights[5];
    assert Weighted(s, weights, 7) == Weighted(s, weights, 6) + Value(s[6]) * weights[6];
    assert Weighted(s, weights, 8) == Weighted(s, weights, 7) + Value(s[7]) * weights[7];
    assert Weighted(s, weights, 9) == Weighted(s, weights, 8) + Value(s[8]) * weights[8];
  }

  lemma LnchSum(s: string)
    requires |s| == 10
    ensures Weighted(s, LNCH_WEIGHTS, 9) ==
      21 * Value(s[0]) + 19 * Value(s[1]) + 17 * Value(s[2]) + 13 * Value(s[3]) + 11 * Value(s[4])
      + 9 * Value(s[5]) + 7 * Value(s[6]) + 3 * Value(s[7]) + Value(s[8])
  {
    NineTerms(s, LNCH_WEIGHTS);
  }

  /** Numbers known to be valid, and one known not to be. */
  lemma KnownLnch()
    ensures IsValidLnch("1000000001") && IsValidLnch("7452310877") && IsValidLnch("9001123459")
    ensures IsValidLnch("6408070009") && IsValidLnch("1234567893")
    ensures !IsValidLnch("1000000002")
  {
    hide Weighted;
    LnchSum("1000000001");
    LnchSum("7452310877");
    LnchSum("9001123459");
    LnchSum("6408070009");
    LnchSum("1234567893");
    LnchSum("1000000002");
  }

  /** An LNCh with any one digit mistyped is rejected. */
  lemma LnchCatchesOneDigit(s: string, i: nat, c: char)
    requires IsValidLnch(s) && i < 10 && IsDigit(c) && c != s[i]
    ensures !IsValidLnch(s[i := c])
  {
    OneDigitChanged(s, LNCH_WEIGHTS, 9, i, c);
    if i < 9 {
      var d := Value(c) - Value(s[i]);
      LnchWeightIsUnit(i, d);
      RemainderShift(Weighted(s, LNCH_WEIGHTS, 9), LNCH_WEIGHTS[i] * d, 10);
    }
  }

  /** Swapping two neighbours within the first nine digits of an LNCh goes unnoticed exactly when
      they are equal or differ by five. */
  lemma LnchMissesSwapExactly(s: string, i: nat)
    requires IsValidLnch(s) && i < 8
    ensures var d := Value(s[i + 1]) - Value(s[i]);
      IsValidLnch(Swapped(s, i, i + 1)) <==> d == 0 || d == 5 || d == -5
  {
    var d := Value(s[i + 1]) - Value(s[i]);
    TwoDigitsSwapped(s, LNCH_WEIGHTS, 9, i, i + 1);
    LnchNeighbours(i, d);
    RemainderShift(Weighted(s, LNCH_WEIGHTS, 9), (LNCH_WEIGHTS[i] - LNCH_WEIGHTS[i + 1]) * d, 10);
    assert TenDigits(Swapped(s, i, i + 1));
  }

  // ---- EGN ------------------------------------------------------------------------------------

  lemma NoZeroDivisors(a: int, b: int)
    requires 0 < a < 11 && -11 < b < 11
    ensures a * b % 11 == 0 <==> b == 0
  {
    assert a == 1 || a == 2 || a == 3 || a == 4 || a == 5 || a == 6 || a == 7 || a == 8 || a == 9 || a == 10;
  }

  lemma EgnWeightsDiffer(i: nat, j: nat, d: int)
    requires i < j < 9 && -10 < d < 10
    ensures (EGN_WEIGHTS[i] - EGN_WEIGHTS[j]) * d % 11 == 0 <==> d == 0
  {
    var w := EGN_WEIGHTS[i] - EGN_WEIGHTS[j];
    assert w != 0 && -11 < w < 11;
    if w > 0 {
      NoZeroDivisors(w, d);
    } else {
      NoZeroDivisors(-w, -d);
      assert (-w) * (-d) == w * d;
    }
  }

  function PowerOfTwo(n: nat): nat
  {
    if n == 0 then 1 else 2 * PowerOfTwo(n - 1)
  }

  /** The EGN weights are the powers of two modulo 11. */
  lemma {:induction false} EgnWeightsArePowers(i: nat)
    requires i < 9
    ensures EGN_WEIGHTS[i] == PowerOfTwo(i + 1) % 11
  {
    if i > 0 {
      EgnWeightsArePowers(i - 1);
    }
  }

  lemma EgnSum(s: string)
    requires |s| == 10
    ensures Weighted(s, EGN_WEIGHTS, 9) ==
      2 * Value(s[0]) + 4 * Value(s[1]) + 8 * Value(s[2]) + 5 * Value(s[3]) + 10 * Value(s[4])
      + 9 * Value(s[5]) + 7 * Value(s[6]) + 3 * Value(s[7]) + 6 * Value(s[8])
  {
    NineTerms(s, EGN_WEIGHTS);
  }

  /** Numbers known to be valid, one of them with remainder 10, and some known not to be. */
  lemma KnownEgn()
    ensures IsValidEgn("8001010034") && IsValidEgn("9506150023") && IsValidEgn("0543100119")
    ensures IsValidEgn("9031220040") && EgnRemainder("9031220040") == 10
    ensures !IsValidEgn("8001010035") && !IsValidEgn("800101003") && !IsValidEgn("800101003A")
  {
    hide Weighted;
    EgnSum("8001010034");
    EgnSum("9506150023");
    EgnSum("0543100119");
    EgnSum("9031220040");
    EgnSum("8001010035");
    assert !IsDigit("800101003A"[9]);
  }

  /** Two remainders that stand for the same check digit without being equal. */
  predicate Confused(r: int, r': int)
  {
    (r == 0 && r' == 10) || (r == 10 && r' == 0)
  }

  /** An EGN with its check digit mistyped is rejected. */
  lemma EgnCatchesCheckDigit(s: string, c: char)
    requires IsValidEgn(s) && IsDigit(c) && c != s[9]
    ensures !IsValidEgn(s[9 := c])
  {
    OneDigitChanged(s, EGN_WEIGHTS, 9, 9, c);
  }

  /** One mistyped digit among the first nine goes unnoticed exactly when the two weighted sums
      have the remainders 0 and 10, which share the check digit 0. */
  lemma EgnMissesDigitExactly(s: string, i: nat, c: char)
    requires IsValidEgn(s) && i < 9 && IsDigit(c) && c != s[i]
    ensures IsValidEgn(s[i := c]) <==> Confused(EgnRemainder(s), EgnRemainder(s[i := c]))
  {
    var d := Value(c) - Value(s[i]);
    OneDigitChanged(s, EGN_WEIGHTS, 9, i, c);
    NoZeroDivisors(EGN_WEIGHTS[i], d);
    RemainderShift(Weighted(s, EGN_WEIGHTS, 9), EGN_WEIGHTS[i] * d, 11);
    assert TenDigits(s[i := c]);
  }

  /** The same for swapping any two unequal digits among the first nine, neighbours or not. */
  lemma EgnMissesSwapExactly(s: string, i: nat, j: nat)
    requires IsValidEgn(s) && i < j < 9 && s[i] != s[j]
    ensures IsValidEgn(Swapped(s, i, j)) <==> Confused(EgnRemainder(s), EgnRemainder(Swapped(s, i, j)))
  {
    var d := Value(s[j]) - Value(s[i]);
    TwoDigitsSwapped(s, EGN_WEIGHTS, 9, i, j);
    EgnWeightsDiffer(i, j, d);
    RemainderShift(Weighted(s, EGN_WEIGHTS, 9), (EGN_WEIGHTS[i] - EGN_WEIGHTS[j]) * d, 11);
    assert TenDigits(Swapped(s, i, j));
  }
}

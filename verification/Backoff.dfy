/** `retryBackoff` in wrapping 64-bit nanoseconds. */
module Backoff {

  const SECOND: int := 1_000_000_000
  const FIRST_DELAY: int := 30 * SECOND
  const MAX_DELAY: int := 600 * SECOND

  function Pow2(n: nat): (r: int)
    ensures r >= 1
  {
    if n == 0 then 1 else 2 * Pow2(n - 1)
  }

  const TWO_63: int := 0x8000_0000_0000_0000
  const TWO_64: int := 0x1_0000_0000_0000_0000

  /** The value of an int64 after arithmetic that may overflow. */
  function Wrap64(x: int): int {
    var r := x % TWO_64;
    if r >= TWO_63 then r - TWO_64 else r
  }

  function RetryBackoff(attempts: int): int {
    var k := if attempts < 1 then 1 else attempts;
    var d := Wrap64(FIRST_DELAY * Pow2(k - 1));
    if d > MAX_DELAY then MAX_DELAY else d
  }

  /** The delay the comment of the function promises: 30s, 1m, 2m, ... capped at 10m. */
  function IdealBackoff(attempts: int): int {
    var k := if attempts < 1 then 1 else attempts;
    var d := FIRST_DELAY * Pow2(k - 1);
    if d > MAX_DELAY then MAX_DELAY else d
  }

  /** Attempt counts above 29 whose shifted value happens to wrap to more than ten minutes. */
  const LUCKY := {32, 39, 40, 41, 42, 44, 45, 46, 50, 52}

  lemma {:induction false} Pow2Adds(a: nat, b: nat)
    ensures Pow2(a + b) == Pow2(a) * Pow2(b)
  {
    if b > 0 {
      Pow2Adds(a, b - 1);
      assert Pow2(a) * (2 * Pow2(b - 1)) == 2 * (Pow2(a) * Pow2(b - 1));
    }
  }

  lemma {:induction false} Pow2Monotone(a: nat, b: nat)
    requires a <= b
    ensures Pow2(a) <= Pow2(b)
  {
    if a < b {
      Pow2Monotone(a, b - 1);
    }
  }

  lemma Pow2Values()
    ensures Pow2(28) == 268435456 && Pow2(29) == 536870912
    ensures Pow2(35) == 34359738368 && Pow2(42) == 4398046511104
    ensures Pow2(48) == 281474976710656 && Pow2(54) == 18014398509481984
  {
    assert Pow2(2) == 4;
    assert Pow2(4) == 16;
    assert Pow2(6) == 64;
    assert Pow2(7) == 128;
    Pow2Adds(7, 7);
    Pow2Adds(14, 14);
    Pow2Adds(28, 7);
    Pow2Adds(28, 14);
    Pow2Adds(42, 6);
    Pow2Adds(6, 6);
    Pow2Adds(42, 12);
  }

  /** The promised delays in seconds: half a minute, doubled up to ten minutes. */
  lemma IdealDelays(attempts: int)
    ensures IdealBackoff(attempts) == 1_000_000_000 *
      if attempts <= 1 then 30 else if attempts == 2 then 60 else if attempts == 3 then 120
      else if attempts == 4 then 240 else if attempts == 5 then 480 else 600
  {
    assert Pow2(2) == 4 && Pow2(4) == 16 && Pow2(5) == 32;
    if attempts >= 6 {
      Pow2Monotone(5, attempts - 1);
    }
  }

  lemma SmallWraps(x: int)
    requires 0 <= x < TWO_63
    ensures Wrap64(x) == x
  {}

  lemma SmallShift(k: int)
    requires 1 <= k <= 29
    ensures RetryBackoff(k) == IdealBackoff(k)
  {
    Pow2Monotone(k - 1, 28);
    Pow2Values();
    SmallWraps(FIRST_DELAY * Pow2(k - 1));
  }

  lemma LargeShift(k: int)
    requires 55 <= k
    ensures RetryBackoff(k) == 0
  {
    Pow2Adds(54, k - 55);
    Pow2Values();
    var p := Pow2(k - 55);
    assert FIRST_DELAY * (18014398509481984 * p) == (FIRST_DELAY * 18014398509481984) * p;
    assert FIRST_DELAY * 18014398509481984 == 29296875 * TWO_64;
    assert 29296875 * TWO_64 * p == (29296875 * p) * TWO_64;
    MultipleWraps(29296875 * p);
  }

  lemma MultipleWraps(q: int)
    ensures Wrap64(q * TWO_64) == 0
  {}

  /** The result when the shifted delay leaves the remainder r modulo 2^64. */
  lemma ShiftedTo(k: int, q: int, r: int)
    requires k >= 1 && FIRST_DELAY * Pow2(k - 1) == q * TWO_64 + r && 0 <= r < TWO_64
    ensures RetryBackoff(k) == if r >= TWO_63 then r - TWO_64 else if r > MAX_DELAY then MAX_DELAY else r
  {
    Residue(FIRST_DELAY * Pow2(k - 1), q, r);
  }

  lemma Residue(x: int, q: int, r: int)
    requires x == q * TWO_64 + r && 0 <= r < TWO_64
    ensures x % TWO_64 == r
  {}

  lemma MiddleShift(k: int)
    requires 30 <= k <= 54
    ensures RetryBackoff(k) == MAX_DELAY <==> k in LUCKY
  {
    if k <= 35 {
      MiddleShift30(k);
    } else if k <= 42 {
      MiddleShift36(k);
    } else if k <= 48 {
      MiddleShift43(k);
    } else {
      MiddleShift49(k);
    }
  }

  lemma MiddleShift30(k: int)
    requires 30 <= k <= 35
    ensures RetryBackoff(k) == MAX_DELAY <==> k in LUCKY
  {
    Pow2Values();
    assert Pow2(30) == 1073741824;
    assert Pow2(31) == 2147483648;
    assert Pow2(32) == 4294967296;
    assert Pow2(33) == 8589934592;
    assert Pow2(34) == 17179869184;
    if k == 30 {
      ShiftedTo(30, 0, 16106127360000000000);
    } else if k == 31 {
      ShiftedTo(31, 1, 13765510646290448384);
    } else if k == 32 {
      ShiftedTo(32, 3, 9084277218871345152);
    } else if k == 33 {
      ShiftedTo(33, 6, 18168554437742690304);
    } else if k == 34 {
      ShiftedTo(34, 13, 17890364801775828992);
    } else {
      ShiftedTo(35, 27, 17333985529842106368);
    }
  }

  lemma MiddleShift36(k: int)
    requires 36 <= k <= 42
    ensures RetryBackoff(k) == MAX_DELAY <==> k in LUCKY
  {
    Pow2Values();
    assert Pow2(36) == 68719476736;
    assert Pow2(37) == 137438953472;
    assert Pow2(38) == 274877906944;
    assert Pow2(39) == 549755813888;
    assert Pow2(40) == 1099511627776;
    assert Pow2(41) == 2199023255552;
    if k == 36 {
      ShiftedTo(36, 55, 16221226985974661120);
    } else if k == 37 {
      ShiftedTo(37, 111, 13995709898239770624);
    } else if k == 38 {
      ShiftedTo(38, 223, 9544675722769989632);
    } else if k == 39 {
      ShiftedTo(39, 447, 642607371830427648);
    } else if k == 40 {
      ShiftedTo(40, 894, 1285214743660855296);
    } else if k == 41 {
      ShiftedTo(41, 1788, 2570429487321710592);
    } else {
      ShiftedTo(42, 3576, 5140858974643421184);
    }
  }

  lemma MiddleShift43(k: int)
    requires 43 <= k <= 48
    ensures RetryBackoff(k) == MAX_DELAY <==> k in LUCKY
  {
    Pow2Values();
    assert Pow2(43) == 8796093022208;
    assert Pow2(44) == 17592186044416;
    assert Pow2(45) == 35184372088832;
    assert Pow2(46) == 70368744177664;
    assert Pow2(47) == 140737488355328;
    if k == 43 {
      ShiftedTo(43, 7152, 10281717949286842368);
    } else if k == 44 {
      ShiftedTo(44, 14305, 2116691824864133120);
    } else if k == 45 {
      ShiftedTo(45, 28610, 4233383649728266240);
    } else if k == 46 {
      ShiftedTo(46, 57220, 8466767299456532480);
    } else if k == 47 {
      ShiftedTo(47, 114440, 16933534598913064960);
    } else {
      ShiftedTo(48, 228881, 15420325124116578304);
    }
  }

  lemma MiddleShift49(k: int)
    requires 49 <= k <= 54
    ensures RetryBackoff(k) == MAX_DELAY <==> k in LUCKY
  {
    Pow2Values();
    assert Pow2(49) == 562949953421312;
    assert Pow2(50) == 1125899906842624;
    assert Pow2(51) == 2251799813685248;
    assert Pow2(52) == 4503599627370496;
    assert Pow2(53) == 9007199254740992;
    if k == 49 {
      ShiftedTo(49, 457763, 12393906174523604992);
    } else if k == 50 {
      ShiftedTo(50, 915527, 6341068275337658368);
    } else if k == 51 {
      ShiftedTo(51, 1831054, 12682136550675316736);
    } else if k == 52 {
      ShiftedTo(52, 3662109, 6917529027641081856);
    } else if k == 53 {
      ShiftedTo(53, 7324218, 13835058055282163712);
    } else {
      ShiftedTo(54, 14648437, 9223372036854775808);
    }
  }

  /**
   The code keeps its promise exactly for attempt counts up to 29 and ten more values where
   the wrapped product happens to exceed the cap; every other count gives a wrong delay.
   */
  lemma BackoffIsIdealIff(k: int)
    ensures RetryBackoff(k) == IdealBackoff(k) <==> k <= 29 || k in LUCKY
  {
    if k <= 1 {
      assert Pow2(0) == 1;
    } else if k <= 29 {
      SmallShift(k);
    } else {
      Pow2Monotone(29, k - 1);
      Pow2Values();
      assert IdealBackoff(k) == MAX_DELAY;
      if k <= 54 {
        MiddleShift(k);
      } else {
        LargeShift(k);
      }
    }
  }

  /** In the range where it is right, the delay never shrinks and is between 30s and 10m. */
  lemma BackoffGrows(j: int, k: int)
    requires j <= k <= 29
    ensures FIRST_DELAY <= RetryBackoff(j) <= RetryBackoff(k) <= MAX_DELAY
  {
    BackoffIsIdealIff(j);
    BackoffIsIdealIff(k);
    var a, b := if j < 1 then 1 else j, if k < 1 then 1 else k;
    Pow2Monotone(a - 1, b - 1);
  }

  /** At 30 the shift wraps to a negative delay, so the requeued row carries no delay. */
  lemma ThirtiethDelayIsNegative()
    ensures RetryBackoff(30) < 0
  {
    Pow2Values();
  }
}

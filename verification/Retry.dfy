/**
 The retry policy: exponential backoff computed with a 64-bit shift, a cap that also catches
 the overflow, jitter, and how long the waits of a retry loop can add up to.
 Durations are 64-bit signed counts of nanoseconds.
 */
module Retry {
  const TWO63 := 0x8000_0000_0000_0000
  const TWO64 := 0x1_0000_0000_0000_0000

  /** The 64-bit two's complement reading of an integer. */
  function Wrap(x: int): int {
    var m := x % TWO64;
    if m >= TWO63 then m - TWO64 else m
  }

  function Pow2(n: nat): nat {
    if n == 0 then 1 else 2 * Pow2(n - 1)
  }

  function Min(a: int, b: int): int {
    if a <= b then a else b
  }

  /** Go's division by two, which truncates toward zero. */
  function Half(d: int): int {
    if d >= 0 then d / 2 else -((-d) / 2)
  }

  /** The capped delay before jitter. */
  function Delay(base: int, cap: int, attempt: nat): int
    requires attempt >= 1
  {
    var d := Wrap(base * Pow2(attempt - 1));
    if d <= 0 || d > cap then cap else d
  }

  /** Half the delay plus a draw from 0 to that half, both included. */
  function Jittered(d: int, draw: int): int {
    if Half(d) <= 0 then d else Half(d) + draw
  }

  lemma JitterRange(d: int, draw: int)
    requires d >= 0 && 0 <= draw <= Half(d)
    ensures d / 2 <= Jittered(d, draw) <= d
  {
  }

  /**
   The jitter is fair: as the draw runs from 0 to half the delay, the wait takes every value from half
   the delay to twice that, each exactly once.
   */
  lemma JitterCoversRange(d: int, wait: int)
    requires d >= 2
    ensures (exists draw :: 0 <= draw <= d / 2 && Jittered(d, draw) == wait) <==> d / 2 <= wait <= d / 2 * 2
    ensures forall a, b :: 0 <= a <= d / 2 && 0 <= b <= d / 2 && Jittered(d, a) == Jittered(d, b) ==> a == b
  {
    if d / 2 <= wait <= d / 2 * 2 {
      assert Jittered(d, wait - d / 2) == wait;
    }
  }

  /** The wrapped value is the one 64-bit signed number that differs by a multiple of 2^64. */
  lemma WrapIs(x: int, y: int)
    ensures Wrap(x) == y <==> -TWO63 <= y < TWO63 && (x - y) % TWO64 == 0
  {
  }

  // ---------------------------------------------------------------- powers of two

  lemma {:induction false} Pow2Sum(a: nat, b: nat)
    ensures Pow2(a + b) == Pow2(a) * Pow2(b)
  {
    if a > 0 {
      Pow2Sum(a - 1, b);
      assert Pow2(a + b) == 2 * Pow2(a - 1 + b);
    }
  }

  lemma {:induction false} Pow2Mono(a: nat, b: nat)
    requires a <= b
    ensures 1 <= Pow2(a) <= Pow2(b)
    decreases b
  {
    if a < b {
      Pow2Mono(a, b - 1);
    } else if a > 0 {
      Pow2Mono(a - 1, b - 1);
    }
  }

  lemma Pow2Word()
    ensures Pow2(63) == TWO63 && Pow2(64) == TWO64
  {
    assert Pow2(16) == 65536;
    Pow2Sum(16, 16);
    assert Pow2(32) == 65536 * 65536;
    Pow2Sum(32, 16);
    assert Pow2(48) == Pow2(32) * 65536;
    assert Pow2(15) == 32768;
    Pow2Sum(48, 15);
    Pow2Sum(48, 16);
  }

  /** How often two divides a positive number, and what is left. */
  function Twos(b: nat): nat
    requires b > 0
  {
    if b % 2 == 0 then 1 + Twos(b / 2) else 0
  }

  function Odd(b: nat): nat
    requires b > 0
  {
    if b % 2 == 0 then Odd(b / 2) else b
  }

  lemma {:induction false} OddTimesTwos(b: nat)
    requires b > 0
    ensures b == Odd(b) * Pow2(Twos(b)) && Odd(b) % 2 == 1
  {
    if b % 2 == 0 {
      OddTimesTwos(b / 2);
      assert b == 2 * (Odd(b) * Pow2(Twos(b / 2)));
      assert 2 * (Odd(b) * Pow2(Twos(b / 2))) == Odd(b) * (2 * Pow2(Twos(b / 2)));
    }
  }

  lemma Distribute(a: int, b: int, m: int)
    ensures (a - b) * m == a * m - b * m && (a + b) * m == a * m + b * m
  {
  }

  lemma MulMono(a: int, b: int, c: int)
    requires a <= b && 0 <= c
    ensures a * c <= b * c
  {
    Distribute(b, a, c);
    MulSign(b - a, c);
  }

  lemma MulSign(a: int, c: int)
    requires 0 <= a && 0 <= c
    ensures 0 <= a * c
  {
  }

  /** Quotient and remainder are unique. */
  lemma ModIs(x: int, m: int, q: int, y: int)
    requires m > 0 && x == q * m + y && 0 <= y < m
    ensures x % m == y
  {
    var d, z := x / m, x % m;
    assert x == d * m + z;
    Distribute(d, q, m);
    if d > q {
      MulMono(1, d - q, m);
    } else if d < q {
      MulMono(d - q, -1, m);
    }
  }

  lemma Regroup(q: int, m: int, r: int, p: int)
    ensures (q * m + r) * p == q * (m * p) + r * p
  {
    Distribute(q * m, -r, p);
    assert q * m * p == q * (m * p);
  }

  /** Shifting left by k keeps the low 64 - k bits. */
  lemma ShiftedTail(o: nat, k: nat)
    requires k <= 64
    ensures Pow2(64 - k) > 0
    ensures o * Pow2(k) % TWO64 == o % Pow2(64 - k) * Pow2(k)
  {
    Pow2Mono(0, 64 - k);
    Pow2Mono(0, k);
    Pow2Word();
    Pow2Sum(64 - k, k);
    TailSplit(o, Pow2(64 - k), Pow2(k));
  }

  lemma TailSplit(o: nat, m: nat, p: nat)
    requires m > 0 && p > 0 && m * p == TWO64
    ensures o * p % TWO64 == o % m * p
  {
    var q, r := o / m, o % m;
    assert o == q * m + r;
    Regroup(q, m, r, p);
    MulSign(r, p);
    MulMono(r, m - 1, p);
    Distribute(m, 1, p);
    ModIs(o * p, TWO64, q, r * p);
  }

  // ---------------------------------------------------------------- exactly when the cap catches every overflow

  /**
   Bit j of o is zero while o has a higher bit set: shifting bit j to the sign position leaves a
   positive remainder.
   */
  predicate ZeroBit(o: nat, j: nat) {
    o >= Pow2(j) && Tail(o, j) < Pow2(j)
  }

  /** The bits of o below and at position j. */
  function Tail(o: nat, j: nat): nat {
    Pow2Mono(0, j + 1);
    o % Pow2(j + 1)
  }

  /** If shifting bit j to the sign position leaves a positive remainder, that remainder is at least the cap. */
  predicate CapCatches(o: nat, j: nat, cap: nat)
    requires j <= 63
  {
    ZeroBit(o, j) ==> Tail(o, j) * Pow2(63 - j) >= cap
  }

  predicate CapCatchesOverflow(base: nat, cap: nat)
    requires base > 0
  {
    forall j :: 1 <= j <= 63 - Twos(base) ==> CapCatches(Odd(base), j, cap)
  }

  predicate Representable(base: int, cap: int) {
    0 < base < TWO63 && 0 < cap < TWO63
  }

  ghost predicate BackoffExact(base: int, cap: int) {
    forall attempt: nat {:trigger Delay(base, cap, attempt)} :: attempt >= 1 ==>
      Delay(base, cap, attempt) == Min(base * Pow2(attempt - 1), cap)
  }

  lemma Associate(a: int, b: int, c: int)
    ensures a * b * c == a * (b * c)
  {
  }

  lemma ShiftedValue(base: nat, n: nat)
    requires base > 0
    ensures base * Pow2(n) == Odd(base) * Pow2(Twos(base) + n)
  {
    OddTimesTwos(base);
    Pow2Sum(Twos(base), n);
    Associate(Odd(base), Pow2(Twos(base)), Pow2(n));
  }

  lemma OddTail(o: nat, h: nat)
    requires o % 2 == 1 && h > 0
    ensures o % (2 * h) >= 1
  {
    var q, r := o / (2 * h), o % (2 * h);
    assert o == q * (2 * h) + r;
    Associate(q, 2, h);
    Associate(2, q, h);
    assert o == 2 * (q * h) + r;
  }

  lemma SameScale(a: nat, b: nat, p: nat)
    requires p > 0
    ensures a * p < b * p <==> a < b
  {
    if a < b {
      MulMono(a + 1, b, p);
      Distribute(a, -1, p);
    } else {
      MulMono(b, a, p);
    }
  }

  /** A shift that does not overflow is exact, so the cap decides. */
  lemma DelayFits(base: nat, cap: nat, attempt: nat)
    requires Representable(base, cap) && attempt >= 1 && base * Pow2(attempt - 1) < TWO63
    ensures Delay(base, cap, attempt) == Min(base * Pow2(attempt - 1), cap)
  {
    Pow2Mono(0, attempt - 1);
    MulMono(1, base, Pow2(attempt - 1));
  }

  lemma WrapGone(o: nat, k: nat)
    requires k >= 63 && o % 2 == 1
    ensures Wrap(o * Pow2(k)) <= 0
  {
    Pow2Word();
    if k == 63 {
      ShiftedTail(o, 63);
      assert Pow2(1) == 2;
    } else {
      Pow2Sum(k - 64, 64);
      Associate(o, Pow2(k - 64), TWO64);
      ModIs(o * Pow2(k), TWO64, o * Pow2(k - 64), 0);
    }
  }

  /**
   A shift that pushes all of the number out, or only its last bit into the sign, gives nothing
   positive; the guard turns that into the cap.
   */
  lemma DelayGone(base: nat, cap: nat, attempt: nat)
    requires Representable(base, cap) && attempt >= 1 && Twos(base) + (attempt - 1) >= 63
    ensures Delay(base, cap, attempt) == cap
  {
    OddTimesTwos(base);
    ShiftedValue(base, attempt - 1);
    WrapGone(Odd(base), Twos(base) + (attempt - 1));
  }

  /** Otherwise the remainder is what sits below bit j of the odd part, moved up. */
  lemma DelayWraps(base: nat, cap: nat, j: nat, attempt: nat)
    requires Representable(base, cap) && attempt >= 1
    requires 1 <= j && Twos(base) + (attempt - 1) == 63 - j
    ensures base * Pow2(attempt - 1) >= TWO63 <==> Odd(base) >= Pow2(j)
    ensures Odd(base) >= Pow2(j) ==>
              Delay(base, cap, attempt) ==
              if ZeroBit(Odd(base), j) then Min(Tail(Odd(base), j) * Pow2(63 - j), cap) else cap
  {
    var o, k := Odd(base), 63 - j;
    var h, p := Pow2(j), Pow2(k);
    Pow2Mono(0, j);
    Pow2Mono(0, k);
    Pow2Word();
    Pow2Sum(j, k);
    ShiftedValue(base, attempt - 1);
    SameScale(o, h, p);
    ShiftedTail(o, k);
    SameScale(Tail(o, j), h, p);
    OddTimesTwos(base);
    OddTail(o, h);
    MulMono(1, Tail(o, j), p);
  }

  /**
   The computed delay is min(base * 2^(attempt-1), cap) for every attempt, exactly when the cap
   catches every overflow.
   */
  lemma BackoffExactIff(base: nat, cap: nat)
    requires Representable(base, cap)
    ensures BackoffExact(base, cap) <==> CapCatchesOverflow(base, cap)
  {
    if CapCatchesOverflow(base, cap) {
      forall attempt: nat | attempt >= 1 ensures Delay(base, cap, attempt) == Min(base * Pow2(attempt - 1), cap) {
        if base * Pow2(attempt - 1) < TWO63 {
          DelayFits(base, cap, attempt);
        } else if Twos(base) + (attempt - 1) >= 63 {
          DelayGone(base, cap, attempt);
        } else {
          var j := 63 - (Twos(base) + (attempt - 1));
          assert CapCatches(Odd(base), j, cap);
          DelayWraps(base, cap, j, attempt);
        }
      }
    }
    if BackoffExact(base, cap) {
      forall j: nat | 1 <= j <= 63 - Twos(base) ensures CapCatches(Odd(base), j, cap) {
        var attempt := 63 - j - Twos(base) + 1;
        DelayWraps(base, cap, j, attempt);
        assert Delay(base, cap, attempt) == Min(base * Pow2(attempt - 1), cap);
      }
    }
  }

  lemma SmallProductCatches(o: nat, j: nat, cap: nat)
    requires o % 2 == 1 && 1 <= j <= 63 && o * cap < TWO63
    ensures CapCatches(o, j, cap)
  {
    if ZeroBit(o, j) {
      var h, p := Pow2(j), Pow2(63 - j);
      Pow2Mono(0, j);
      Pow2Mono(0, 63 - j);
      Pow2Word();
      Pow2Sum(j, 63 - j);
      MulMono(h, o, cap);
      SameScale(cap, p, h);
      OddTail(o, h);
      MulMono(1, Tail(o, j), p);
    }
  }

  /** A simple sufficient bound: the odd part of the base times the cap stays below 2^63. */
  lemma SmallProductIsExact(base: nat, cap: nat)
    requires Representable(base, cap) && Odd(base) * cap < TWO63
    ensures BackoffExact(base, cap)
  {
    OddTimesTwos(base);
    forall j: nat | 1 <= j <= 63 - Twos(base) ensures CapCatches(Odd(base), j, cap) {
      SmallProductCatches(Odd(base), j, cap);
    }
    BackoffExactIff(base, cap);
  }

  /** The shipped defaults, 200ms doubling up to 5s, are within the bound. */
  lemma DefaultsAreExact()
    ensures BackoffExact(200_000_000, 5_000_000_000)
  {
    assert Odd(200_000_000) == 390_625;
    SmallProductIsExact(200_000_000, 5_000_000_000);
  }

  /** A base and cap for which an overflowing shift slips under the cap: attempt 63 waits 2^62 instead of 2^62 + 1. */
  lemma OverflowCanSlipThrough()
    ensures !BackoffExact(5, 0x4000_0000_0000_0001)
  {
    Pow2Word();
    assert Pow2(63) == 2 * Pow2(62);
    assert Delay(5, 0x4000_0000_0000_0001, 63) == 0x4000_0000_0000_0000;
  }

  // ---------------------------------------------------------------- the waits of a whole retry loop

  /** The longest the waits between n + 1 attempts can add up to. */
  function SleepBound(base: int, cap: int, n: nat): int {
    if n == 0 then 0 else SleepBound(base, cap, n - 1) + Min(base * Pow2(n - 1), cap)
  }

  lemma {:induction false} SleepBoundMono(base: int, cap: int, m: nat, n: nat)
    requires m <= n && base > 0 && cap > 0
    ensures 0 <= SleepBound(base, cap, m) <= SleepBound(base, cap, n)
    decreases n
  {
    if n > 0 {
      MulSign(base, Pow2(n - 1));
      if m < n {
        SleepBoundMono(base, cap, m, n - 1);
      } else {
        SleepBoundMono(base, cap, m - 1, n - 1);
      }
    }
  }

  /** n waits take at most n times the cap. */
  lemma {:induction false} SleepAtMostCap(base: int, cap: int, n: nat)
    requires cap > 0
    ensures SleepBound(base, cap, n) <= n * cap
  {
    if n > 0 {
      SleepAtMostCap(base, cap, n - 1);
      Distribute(n, 1, cap);
    }
  }
}

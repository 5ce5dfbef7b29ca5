/** The relay client's reconnection (internal/relay/client.go): who may reconnect, and after which delay. */
module RelayClient {
  // ---------------------------------------------------------------- backoff in 64-bit arithmetic

  const SECOND := 1_000_000_000  // nanoseconds, as in time.Duration

  function Pow2(n: nat): nat {
    if n == 0 then 1 else 2 * Pow2(n - 1)
  }

  // The value of an int64 after an operation whose exact result is x.
  function Wrap64(x: int): int {
    (x + 0x8000_0000_0000_0000) % 0x1_0000_0000_0000_0000 - 0x8000_0000_0000_0000
  }

  // 1 << n on int64.
  function ShiftOne(n: nat): int {
    if n >= 64 then 0 else Wrap64(Pow2(n))
  }

  // The delay before attempt k since the last successful connect.
  function Backoff(k: nat): int
    requires k > 0
  {
    var b := Wrap64(SECOND * ShiftOne(k - 1));
    if b > 30 * SECOND then 30 * SECOND else b
  }

  // 1s, 2s, 4s, 8s, 16s and then 30s.
  function Documented(k: nat): int
    requires k > 0
  {
    if k <= 5 then Pow2(k - 1) * SECOND else 30 * SECOND
  }

  class Retries {
    var count: nat

    constructor ()
      ensures count == 0
    {
      count := 0;
    }

    method NextBackoff() returns (delay: int)
      modifies this
      ensures count == old(count) + 1 && delay == Backoff(count)
    {
      count := count + 1;
      var b := Wrap64(SECOND * ShiftOne(count - 1));
      if b > 30 * SECOND {
        b := 30 * SECOND;
      }
      delay := b;
    }
  }

  lemma {:induction false} Pow2Add(a: nat, b: nat)
    ensures Pow2(a + b) == Pow2(a) * Pow2(b)
  {
    if a > 0 {
      Pow2Add(a - 1, b);
      Twice(Pow2(a - 1), Pow2(b));
    }
  }

  lemma Twice(x: nat, y: nat)
    ensures 2 * (x * y) == (2 * x) * y
  {
  }

  lemma {:induction false} Pow2Mono(a: nat, b: nat)
    requires a <= b
    ensures Pow2(a) <= Pow2(b)
  {
    if a < b {
      Pow2Mono(a, b - 1);
    }
  }

  lemma BigPowers()
    ensures Pow2(5) == 32 && Pow2(33) == 0x2_0000_0000 && Pow2(34) == 0x4_0000_0000
    ensures Pow2(55) == 0x80_0000_0000_0000 && Pow2(62) == 0x4000_0000_0000_0000 && Pow2(63) == 0x8000_0000_0000_0000
  {
    SmallPowers(5);
    SmallPowers(13);
    SmallPowers(14);
    SmallPowers(15);
    SmallPowers(20);
    Pow2Add(20, 13);
    Pow2Add(20, 14);
    Pow2Add(20, 15);
    Pow2Add(20, 35);
    Pow2Add(7, 55);
    SmallPowers(7);
  }

  lemma WrapsTo(x: int, q: int)
    requires -0x8000_0000_0000_0000 <= x - 0x1_0000_0000_0000_0000 * q < 0x8000_0000_0000_0000
    ensures Wrap64(x) == x - 0x1_0000_0000_0000_0000 * q
  {
  }

  lemma NoWrap(k: nat)
    requires 6 <= k <= 34
    ensures Backoff(k) == 30 * SECOND
  {
    var p := Pow2(k - 1);
    assert 32 <= p <= 0x2_0000_0000 by {
      Pow2Mono(5, k - 1);
      Pow2Mono(k - 1, 33);
      BigPowers();
    }
    WrapsTo(p, 0);
    WrapsTo(SECOND * p, 0);
  }

  // From attempt 56 on the product is a multiple of 2^64.
  lemma AlwaysZero(k: nat)
    requires k >= 56
    ensures Backoff(k) == 0
  {
    if k <= 63 {
      ZeroBelow(k);
    } else if k == 64 {
      BigPowers();
      MultipleWraps(-500_000_000);
    }
  }

  lemma ZeroBelow(k: nat)
    requires 56 <= k <= 63
    ensures Backoff(k) == 0
  {
    var p, x := Pow2(k - 1), Pow2(k - 56);
    LatePower(k);
    WrapsTo(p, 0);
    assert SECOND * p == 0x1_0000_0000_0000_0000 * (1953125 * x);
    MultipleWraps(1953125 * x);
  }

  lemma LatePower(k: nat)
    requires 56 <= k <= 63
    ensures Pow2(k - 1) == 0x80_0000_0000_0000 * Pow2(k - 56) <= 0x4000_0000_0000_0000
  {
    BigPowers();
    Pow2Mono(k - 1, 62);
    Pow2Add(55, k - 56);
  }

  lemma MultipleWraps(m: int)
    ensures Wrap64(0x1_0000_0000_0000_0000 * m) == 0
  {
  }

  // The attempts past 34 whose wrapped product happens to exceed 30 seconds.
  predicate Lucky(k: nat) {
    k == 38 || k == 42 || k == 43 || k == 46 || k == 48 || k == 51 || k == 52 || k == 54
  }

  // How often 2^64 goes into the product of attempt 35 + m, rounded to the nearest.
  const TURNS := [1, 2, 4, 7, 15, 30, 60, 119, 238, 477, 954, 1907, 3815, 7629, 15259, 30518,
                  61035, 122070, 244141, 488281, 976563]

  lemma Overflowing(m: nat)
    requires m <= 20
    ensures Backoff(35 + m) == 30 * SECOND <==> Lucky(35 + m)
  {
    var p, q := Pow2(34 + m), TURNS[m];
    PowerOf(m);
    WrapsTo(p, 0);
    WrapsTo(SECOND * p, q);
    assert Backoff(35 + m) == 30 * SECOND <==> SECOND * p - 0x1_0000_0000_0000_0000 * q >= 30 * SECOND;
  }

  lemma PowerOf(m: nat)
    requires m <= 20
    ensures Pow2(34 + m) == 0x4_0000_0000 *
              [1, 2, 4, 8, 16, 32, 64, 128, 256, 512, 1024, 2048, 4096, 8192, 16384, 32768,
               65536, 131072, 262144, 524288, 1048576][m]
  {
    BigPowers();
    Pow2Add(34, m);
    SmallPowers(m);
  }

  lemma SmallPowers(n: nat)
    requires n <= 20
    ensures Pow2(n) == [1, 2, 4, 8, 16, 32, 64, 128, 256, 512, 1024, 2048, 4096, 8192, 16384, 32768,
                        65536, 131072, 262144, 524288, 1048576][n]
  {
  }

  // What Go's 64-bit integers make of a result: it differs from it by a multiple of 2^64.
  lemma WrapIsInt64(x: int) returns (q: int)
    ensures Wrap64(x) == x - 0x1_0000_0000_0000_0000 * q
    ensures -0x8000_0000_0000_0000 <= Wrap64(x) < 0x8000_0000_0000_0000
  {
    q := (x + 0x8000_0000_0000_0000) / 0x1_0000_0000_0000_0000;
  }

  lemma ShiftIs(n: nat) returns (q: int)
    ensures ShiftOne(n) == Pow2(n) - 0x1_0000_0000_0000_0000 * q
  {
    if n >= 64 {
      BigPowers();
      Pow2Add(63, 1);
      Pow2Add(64, n - 64);
      q := Pow2(n - 64);
    } else {
      q := WrapIsInt64(Pow2(n));
    }
  }

  /** The delay before every attempt: 2^(k-1) seconds as a 64-bit number of nanoseconds, or 30 seconds if that is
      more. */
  lemma BackoffValue(k: nat) returns (q: int)
    requires k > 0
    ensures var b := 1_000_000_000 * Pow2(k - 1) - 0x1_0000_0000_0000_0000 * q;
            && -0x8000_0000_0000_0000 <= b < 0x8000_0000_0000_0000
            && Backoff(k) == if b > 30_000_000_000 then 30_000_000_000 else b
  {
    var p := ShiftIs(k - 1);
    var r := WrapIsInt64(SECOND * ShiftOne(k - 1));
    q := SECOND * p + r;
  }

  /** The documented delays hold exactly for the first 34 attempts since the last success, and after that only where the
      overflowing product happens to be large; from attempt 56 on there is no delay at all. */
  lemma BackoffExactly(k: nat)
    requires k > 0
    ensures Backoff(k) == Documented(k) <==> k <= 34 || Lucky(k)
    ensures k >= 56 ==> Backoff(k) == 0
  {
    if k <= 5 {
      SmallPowers(k - 1);
    } else if k <= 34 {
      NoWrap(k);
    } else if k <= 55 {
      Overflowing(k - 35);
    } else {
      AlwaysZero(k);
    }
  }
}

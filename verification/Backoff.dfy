/** The delay before a retry (src/proxy.rs): exponential in the attempts made, plus up to half of it again.
    Arithmetic is on 64-bit words as a release build does it: the shift count is taken modulo 64, the
    multiplication saturates and the addition wraps. */
module Backoff {
  import opened Prelude

  function Pow2(n: nat): (p: nat)
    ensures p >= 1
  {
    if n == 0 then 1 else 2 * Pow2(n - 1)
  }

  /** The delay without jitter before the attempt that follows `attempts` earlier ones. */
  function Exponential(base: nat, attempts: nat): nat
    requires attempts > 0
  {
    Min(base * Pow2((attempts - 1) % 64), WORD - 1)
  }

  predicate IsJitter(base: nat, attempts: nat, jitter: nat)
    requires attempts > 0
  {
    jitter <= Exponential(base, attempts) / 2
  }

  /** The delay in milliseconds. */
  function Delay(base: nat, attempts: nat, jitter: nat): nat
    requires attempts > 0
  {
    (Exponential(base, attempts) + jitter) % WORD
  }

  /** The time slept by a request that makes `attempts` attempts; `jitters[k]` comes before attempt k + 2. */
  function Slept(base: nat, jitters: seq<nat>): nat {
    if jitters == [] then 0
    else Slept(base, jitters[..|jitters| - 1]) + Delay(base, |jitters|, jitters[|jitters| - 1])
  }

  predicate AreJitters(base: nat, jitters: seq<nat>) {
    forall k | 0 <= k < |jitters| :: IsJitter(base, k + 1, jitters[k])
  }

  /** No retry up to the given number shifts, multiplies or adds past the machine word. */
  ghost predicate NeverOverflows(base: nat, retries: nat) {
    forall attempts, jitter | 0 < attempts <= retries && IsJitter(base, attempts, jitter) ::
      Delay(base, attempts, jitter) == base * Pow2(attempts - 1) + jitter
  }

  lemma {:induction false} Pow2Grows(a: nat, b: nat)
    requires a <= b
    ensures 1 <= Pow2(a) <= Pow2(b)
  {
    if a < b {
      Pow2Grows(a, b - 1);
    } else if a > 0 {
      Pow2Grows(a - 1, a - 1);
    }
  }

  /** Two thirds of the largest word: the largest delay whose half still fits on top. */
  const LIMIT: nat := 0xAAAA_AAAA_AAAA_AAAA

  lemma DelayFits(base: nat, attempts: nat, jitter: nat)
    requires 0 < attempts <= 64 && base * Pow2(attempts - 1) <= LIMIT && IsJitter(base, attempts, jitter)
    ensures Delay(base, attempts, jitter) == base * Pow2(attempts - 1) + jitter
  {
    hide Pow2;
    assert (attempts - 1) % 64 == attempts - 1;
  }

  lemma ProductGrows(base: nat, a: nat, b: nat)
    requires a <= b
    ensures base * Pow2(a) <= base * Pow2(b)
  {
    Pow2Grows(a, b);
    assert base * (Pow2(b) - Pow2(a)) >= 0;
  }

  /** The retry at which the arithmetic first goes wrong, with the jitter that shows it. */
  lemma DelayOverflows(base: nat, attempts: nat) returns (jitter: nat)
    requires 0 < base < WORD && 0 < attempts <= 65
    requires attempts == 65 || base * Pow2(attempts - 1) > LIMIT
    ensures IsJitter(base, attempts, jitter) && Delay(base, attempts, jitter) != base * Pow2(attempts - 1) + jitter
  {
    hide Pow2;
    if attempts == 65 {
      jitter := 0;
      ShiftOverflows(base);
    } else if base * Pow2(attempts - 1) >= WORD {
      jitter := 0;
      assert (attempts - 1) % 64 == attempts - 1;
    } else {
      jitter := Exponential(base, attempts) / 2;
      assert (attempts - 1) % 64 == attempts - 1;
    }
  }

  /** Attempt 66 shifts by 64, which is a shift by nothing. */
  lemma ShiftOverflows(base: nat)
    requires 0 < base < WORD
    ensures Delay(base, 65, 0) != base * Pow2(64) + 0
  {
    hide Pow2;
    Pow2Zero();
    Pow2Grows(1, 64);
    AtLeastTwice(base, Pow2(64));
    assert Exponential(base, 65) == base * Pow2(0) == base;
  }

  lemma AtLeastTwice(base: nat, factor: nat)
    requires 0 < base && 2 <= factor
    ensures base * factor > base
  {
    assert base * (factor - 2) >= 0;
  }

  /** Every delay is exact exactly when the last one is within two thirds of the largest word. */
  lemma {:induction false} NeverOverflowsIff(base: nat, retries: nat)
    requires base < WORD
    ensures NeverOverflows(base, retries)
        <==> base == 0 || retries == 0 || (retries <= 64 && base * Pow2(retries - 1) <= LIMIT)
  {
    hide Pow2;
    if base == 0 || retries == 0 || (retries <= 64 && base * Pow2(retries - 1) <= LIMIT) {
      forall attempts, jitter | 0 < attempts <= retries && IsJitter(base, attempts, jitter)
        ensures Delay(base, attempts, jitter) == base * Pow2(attempts - 1) + jitter
      {
        if base > 0 {
          ProductGrows(base, attempts - 1, retries - 1);
          DelayFits(base, attempts, jitter);
        }
      }
    } else {
      var attempts := Min(retries, 65);
      var jitter := DelayOverflows(base, attempts);
    }
  }

  /** Saturation, the shift modulo 64 and the wrap only ever shorten a delay. */
  lemma DelayAtMost(base: nat, attempts: nat, jitter: nat)
    requires 0 < attempts && IsJitter(base, attempts, jitter)
    ensures 2 * Delay(base, attempts, jitter) <= 3 * (base * Pow2(attempts - 1))
  {
    hide Pow2;
    ProductGrows(base, (attempts - 1) % 64, attempts - 1);
    var exact := Exponential(base, attempts) + jitter;
    assert exact % WORD <= exact;
  }

  lemma DelayAtLeast(base: nat, attempts: nat, jitter: nat)
    requires 0 < attempts && IsJitter(base, attempts, jitter) && NeverOverflows(base, attempts)
    ensures base * Pow2(attempts - 1) <= Delay(base, attempts, jitter)
  {
    hide Pow2;
    assert Delay(base, attempts, jitter) == base * Pow2(attempts - 1) + jitter;
  }

  lemma Pow2Zero()
    ensures Pow2(0) == 1 && Pow2(1) == 2
  {
  }

  lemma Doubles(base: nat, n: nat)
    requires 0 < n
    ensures base * (Pow2(n) - 1) == base * (Pow2(n - 1) - 1) + base * Pow2(n - 1)
  {
    var p := Pow2(n - 1);
    assert base * (2 * p - 1) == base * (p - 1) + base * p;
  }

  lemma SleptNothing(base: nat, jitters: seq<nat>)
    requires jitters == []
    ensures Slept(base, jitters) == 0
  {
  }

  /** Whatever the jitter and the base, the sleeps of a request add up to at most one and a half times the
      geometric sum of the delays, and to no less than that sum while the arithmetic is exact. */
  lemma {:induction false} SleptBounds(base: nat, jitters: seq<nat>)
    requires AreJitters(base, jitters)
    ensures 2 * Slept(base, jitters) <= 3 * (base * (Pow2(|jitters|) - 1))
    ensures NeverOverflows(base, |jitters|) ==> base * (Pow2(|jitters|) - 1) <= Slept(base, jitters)
  {
    hide Pow2, Delay, Exponential;
    if jitters != [] {
      var n := |jitters|;
      SleptBounds(base, jitters[..n - 1]);
      assert IsJitter(base, n, jitters[n - 1]);
      DelayAtMost(base, n, jitters[n - 1]);
      if NeverOverflows(base, n) {
        DelayAtLeast(base, n, jitters[n - 1]);
      }
      Doubles(base, n);
    } else {
      assert Pow2(0) == 1 by { Pow2Zero(); }
    }
  }

  // --- The delay on machine words ---

  /** The product saturates: the delay without jitter never falls from one retry to the next, up to the largest word. */
  lemma DelayRises(base: nat, attempts: nat)
    requires 0 < attempts < 64
    ensures Delay(base, attempts, 0) <= Delay(base, attempts + 1, 0)
    ensures base * Pow2(attempts - 1) >= WORD ==> Delay(base, attempts, 0) == WORD - 1
  {
    hide Pow2;
    assert (attempts - 1) % 64 == attempts - 1 && attempts % 64 == attempts;
    ProductGrows(base, attempts - 1, attempts);
  }

  /** The shift starts over: 64 retries later the delay is the same. */
  lemma DelayRepeats(base: nat, attempts: nat, jitter: nat)
    requires 0 < attempts
    ensures Delay(base, attempts + 64, jitter) == Delay(base, attempts, jitter)
  {
    hide Pow2;
    assert (attempts + 64 - 1) % 64 == (attempts - 1) % 64;
  }

  /** The addition wraps: jitter lengthens a delay by itself, or shortens it by what a word lacks. */
  lemma JitterWraps(base: nat, attempts: nat, jitter: nat)
    requires 0 < attempts && IsJitter(base, attempts, jitter)
    ensures var plain := Delay(base, attempts, 0);
            Delay(base, attempts, jitter)
            == if plain + jitter < 0x1_0000_0000_0000_0000 then plain + jitter
               else plain + jitter - 0x1_0000_0000_0000_0000
  {
    hide Pow2;
  }
}

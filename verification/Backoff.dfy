/** Reconnection backoff (`src/models.rs`), over reals in place of floats. */
module Backoff {
  import opened Prelude

  function Power(base: real, n: nat): real {
    if n == 0 then 1.0 else Power(base, n - 1) * base
  }

  /** The delay handed out when `current` is the stored value. */
  function Delay(current: real, max: real): real {
    MinReal(current, max)
  }

  /** The stored value after one delay has been handed out. */
  function Advance(current: real, multiplier: real, max: real): real {
    MinReal(current * multiplier, max)
  }

  /** The value stored after `n` delays. */
  function Stored(initial: real, multiplier: real, max: real, n: nat): real {
    if n == 0 then initial else Advance(Stored(initial, multiplier, max, n - 1), multiplier, max)
  }

  /** What the documentation promises of the n-th delay, counting from zero. */
  function ClosedForm(initial: real, multiplier: real, max: real, n: nat): real {
    MinReal(initial * Power(multiplier, n), max)
  }

  lemma ScaledCap(x: real, m: real, max: real)
    requires m >= 1.0 && max >= 0.0
    ensures MinReal(MinReal(x, max) * m, max) == MinReal(x * m, max)
  {
    if x > max {
      assert x * m >= max * m >= max;
    }
  }

  lemma FirstStored(initial: real, multiplier: real, max: real)
    ensures Stored(initial, multiplier, max, 1) == MinReal(Scaled(initial, multiplier, 1), max)
  {
    assert Stored(initial, multiplier, max, 0) == Scaled(initial, multiplier, 0);
  }

  lemma AdvanceCapped(stored: real, scaled: real, m: real, max: real)
    requires m >= 1.0 && max >= 0.0 && stored == MinReal(scaled, max)
    ensures Advance(stored, m, max) == MinReal(scaled * m, max)
  {
    ScaledCap(scaled, m, max);
  }

  function Scaled(initial: real, multiplier: real, n: nat): real {
    if n == 0 then initial else Scaled(initial, multiplier, n - 1) * multiplier
  }

  lemma Regroup(a: real, b: real, c: real)
    ensures a * (b * c) == (a * b) * c
  {}

  lemma {:induction false} ScaledIsPower(initial: real, multiplier: real, n: nat)
    ensures Scaled(initial, multiplier, n) == initial * Power(multiplier, n)
  {
    if n > 0 {
      calc {
        Scaled(initial, multiplier, n);
        { ScaledIsPower(initial, multiplier, n - 1); }
        (initial * Power(multiplier, n - 1)) * multiplier;
        { Regroup(initial, Power(multiplier, n - 1), multiplier); }
        initial * Power(multiplier, n);
      }
    }
  }

  lemma OneMoreIsCapped(initial: real, multiplier: real, max: real, n: nat)
    requires max >= 0.0 && multiplier >= 1.0
    requires Stored(initial, multiplier, max, n) == MinReal(Scaled(initial, multiplier, n), max)
    ensures Stored(initial, multiplier, max, n + 1) == MinReal(Scaled(initial, multiplier, n + 1), max)
  {
    AdvanceCapped(Stored(initial, multiplier, max, n), Scaled(initial, multiplier, n), multiplier, max);
  }

  lemma {:induction false} StoredIsCapped(initial: real, multiplier: real, max: real, n: nat)
    requires max >= 0.0 && multiplier >= 1.0 && n > 0
    ensures Stored(initial, multiplier, max, n) == MinReal(Scaled(initial, multiplier, n), max)
  {
    if n == 1 {
      FirstStored(initial, multiplier, max);
    } else {
      StoredIsCapped(initial, multiplier, max, n - 1);
      OneMoreIsCapped(initial, multiplier, max, n - 1);
    }
  }

  /** The incremental rule agrees with the closed form at every attempt. */
  lemma DelayIsClosedForm(initial: real, multiplier: real, max: real, n: nat)
    requires max >= 0.0 && multiplier >= 1.0
    ensures Delay(Stored(initial, multiplier, max, n), max) == ClosedForm(initial, multiplier, max, n)
  {
    ScaledIsPower(initial, multiplier, n);
    if n > 0 {
      StoredIsCapped(initial, multiplier, max, n);
    }
  }

  /** Hence no delay exceeds the cap and no delay is shorter than an earlier one. */
  lemma {:induction false} DelaysNeverShrink(initial: real, multiplier: real, max: real, m: nat, n: nat)
    requires initial >= 0.0 && max >= 0.0 && multiplier >= 1.0 && m <= n
    ensures Delay(Stored(initial, multiplier, max, m), max)
         <= Delay(Stored(initial, multiplier, max, n), max) <= max
    decreases n - m
  {
    if m < n {
      DelaysNeverShrink(initial, multiplier, max, m + 1, n);
      StoredNonNegative(initial, multiplier, max, m);
      Grows(Stored(initial, multiplier, max, m), multiplier);
    }
  }

  lemma Grows(x: real, m: real)
    requires x >= 0.0 && m >= 1.0
    ensures x * m >= x
  {}

  lemma {:induction false} StoredNonNegative(initial: real, multiplier: real, max: real, n: nat)
    requires initial >= 0.0 && max >= 0.0 && multiplier >= 1.0
    ensures Stored(initial, multiplier, max, n) >= 0.0
  {
    if n > 0 {
      StoredNonNegative(initial, multiplier, max, n - 1);
      Grows(Stored(initial, multiplier, max, n - 1), multiplier);
    }
  }

  /** The strategy object. `handedOut` counts the delays since construction or
      the last reset; it ties the stored value to the closed form. */
  class ExponentialBackoff {
    const initial: real
    const max: real
    const multiplier: real
    var current: real
    ghost var handedOut: nat

    ghost predicate Valid()
      reads this
    {
      && initial >= 0.0 && max >= 0.0 && multiplier >= 1.0
      && current == Stored(initial, multiplier, max, handedOut)
    }

    constructor (initial: real, max: real, multiplier: real)
      requires initial >= 0.0 && max >= 0.0 && multiplier >= 1.0
      ensures Valid() && handedOut == 0
      ensures this.initial == initial && this.max == max && this.multiplier == multiplier
      ensures current == initial
    {
      this.initial, this.max, this.multiplier := initial, max, multiplier;
      current := initial;
      handedOut := 0;
    }

    method NextDelay() returns (delay: real)
      requires Valid()
      modifies this
      ensures Valid() && handedOut == old(handedOut) + 1
      ensures delay == ClosedForm(initial, multiplier, max, old(handedOut))
      ensures delay == Delay(old(current), max) && current == Advance(old(current), multiplier, max)
    {
      DelayIsClosedForm(initial, multiplier, max, handedOut);
      delay := MinReal(current, max);
      current := Advance(current, multiplier, max);
      handedOut := handedOut + 1;
    }

    method Reset()
      requires Valid()
      modifies this
      ensures Valid() && handedOut == 0 && current == initial
    {
      current := initial;
      handedOut := 0;
    }
  }
}

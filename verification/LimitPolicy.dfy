/** The current-limit policy (`src/command.rs`), over reals in place of floats. */
module LimitPolicy {
  import opened Prelude

  /** A JSON number after parsing: Rust's `f64` also holds values that are not
      numbers on the real line. */
  datatype Amps = Finite(value: real) | NotFinite

  /** Rounding to a tenth, halves away from zero. */
  function RoundTenth(a: real): real {
    (if a >= 0.0 then (a * 10.0 + 0.5).Floor as real else -((0.5 - a * 10.0).Floor as real)) / 10.0
  }

  predicate IsTenth(a: real) {
    (a * 10.0).Floor as real == a * 10.0
  }

  datatype Policy = Policy(minLimit: real, maxLimit: real) {
    /** What configuration validation enforces. */
    predicate Validated() {
      0.0 <= minLimit <= maxLimit && 0.0 < maxLimit <= 80.0
    }
  }

  /** `None` is the error of a negative or non-finite request. */
  function ResolveLimit(p: Policy, requested: Amps): Option<real> {
    if requested.NotFinite? || requested.value < 0.0 then None
    else if requested.value == 0.0 then Some(0.0)
    else if requested.value < p.minLimit then Some(0.0)
    else if requested.value > p.maxLimit then Some(RoundTenth(p.maxLimit))
    else Some(RoundTenth(requested.value))
  }

  function Applied(p: Policy, requested: real): real
    requires requested >= 0.0
  {
    ResolveLimit(p, Finite(requested)).value
  }

  lemma RoundIsNear(a: real)
    requires a >= 0.0
    ensures RoundTenth(a) >= 0.0
    ensures a - 0.05 <= RoundTenth(a) <= a + 0.05
    ensures IsTenth(RoundTenth(a))
  {
    var k := (a * 10.0 + 0.5).Floor;
    assert k >= 0;
    assert RoundTenth(a) * 10.0 == k as real;
  }

  lemma RoundOfTenth(a: real)
    requires a >= 0.0 && IsTenth(a)
    ensures RoundTenth(a) == a
  {
    var k := (a * 10.0).Floor;
    assert (k as real + 0.5).Floor == k;
  }

  /** Halfway between two tenths rounds to the upper one. */
  lemma HalvesRoundUp(a: real)
    requires a >= 0.0 && IsTenth(a)
    ensures RoundTenth(a + 0.05) == a + 0.1
  {
    var k := (a * 10.0).Floor;
    assert (a + 0.05) * 10.0 + 0.5 == (k + 1) as real;
  }

  lemma RoundIsMonotone(a: real, b: real)
    requires 0.0 <= a <= b
    ensures RoundTenth(a) <= RoundTenth(b)
  {
    assert (a * 10.0 + 0.5).Floor <= (b * 10.0 + 0.5).Floor;
  }

  /** Distinct multiples of a tenth are at least a tenth apart. */
  lemma TenthsApart(a: real, b: real)
    requires IsTenth(a) && IsTenth(b) && a < b
    ensures a + 0.1 <= b
  {
    assert (a * 10.0).Floor < (b * 10.0).Floor;
  }

  /** A request is refused exactly when it is not a non-negative number; what is
      applied otherwise never exceeds the ceiling by more than half a tenth. */
  lemma CeilingHolds(p: Policy, requested: Amps)
    ensures ResolveLimit(p, requested).Some? <==> requested.Finite? && requested.value >= 0.0
    ensures ResolveLimit(p, requested).Some? && p.maxLimit >= 0.0
        ==> 0.0 <= ResolveLimit(p, requested).value <= p.maxLimit + 0.05
  {
    if requested.Finite? && requested.value >= 0.0 && p.maxLimit >= 0.0 {
      RoundIsNear(requested.value);
      RoundIsNear(p.maxLimit);
    }
  }

  /** With bounds that are multiples of a tenth the limit is a pause or in range. */
  lemma AppliedIsInRange(p: Policy, r: real)
    requires 0.0 <= p.minLimit <= p.maxLimit && IsTenth(p.minLimit) && IsTenth(p.maxLimit) && r >= 0.0
    ensures Applied(p, r) == 0.0 || p.minLimit <= Applied(p, r) <= p.maxLimit
    ensures p.minLimit <= r <= p.maxLimit ==> r - 0.05 <= Applied(p, r) <= r + 0.05
  {
    RoundIsNear(r);
    RoundOfTenth(p.minLimit);
    RoundOfTenth(p.maxLimit);
    if p.minLimit <= r <= p.maxLimit {
      RoundIsMonotone(p.minLimit, r);
      RoundIsMonotone(r, p.maxLimit);
    }
  }

  /** A request pauses exactly if it is below the floor, and one above the ceiling gets
      the ceiling, to within half a tenth. */
  lemma PausesIffBelowTheFloor(p: Policy, r: real)
    requires 0.05 < p.minLimit <= p.maxLimit && r >= 0.0
    ensures Applied(p, r) == 0.0 <==> r < p.minLimit
    ensures r >= p.maxLimit ==> p.maxLimit - 0.05 <= Applied(p, r) <= p.maxLimit + 0.05
    ensures p.minLimit <= r <= p.maxLimit ==> r - 0.05 <= Applied(p, r) <= r + 0.05
  {
    RoundIsNear(r);
    RoundIsNear(p.maxLimit);
  }

  /** Asking for more never yields less, for any bounds in order. */
  lemma AppliedIsMonotone(p: Policy, a: real, b: real)
    requires 0.0 <= p.minLimit <= p.maxLimit && 0.0 <= a <= b
    ensures Applied(p, a) <= Applied(p, b)
  {
    RoundIsNear(a);
    RoundIsNear(b);
    RoundIsNear(p.maxLimit);
    RoundIsMonotone(a, b);
    if a <= p.maxLimit {
      RoundIsMonotone(a, p.maxLimit);
    }
  }

  /** Applying an applied limit again changes nothing, for every request, exactly
      when rounding the floor does not fall below it (or falls to the pause). */
  lemma StableIffFloorSurvivesRounding(p: Policy)
    requires 0.0 <= p.minLimit <= p.maxLimit
    ensures (forall r: real :: r >= 0.0 ==> Stable(p, r))
       <==> RoundTenth(p.minLimit) >= p.minLimit || RoundTenth(p.minLimit) == 0.0
  {
    if RoundTenth(p.minLimit) >= p.minLimit || RoundTenth(p.minLimit) == 0.0 {
      forall r: real | r >= 0.0
        ensures Stable(p, r)
      {
        FloorSurvives(p, r);
      }
    } else {
      RoundIsNear(p.minLimit);
      assert !Stable(p, p.minLimit);
    }
  }

  predicate Stable(p: Policy, r: real)
    requires r >= 0.0
  {
    Applied(p, r) >= 0.0 && Applied(p, Applied(p, r)) == Applied(p, r)
  }

  lemma FloorSurvives(p: Policy, r: real)
    requires 0.0 <= p.minLimit <= p.maxLimit && r >= 0.0
    requires RoundTenth(p.minLimit) >= p.minLimit || RoundTenth(p.minLimit) == 0.0
    ensures Stable(p, r)
  {
    if r >= p.minLimit && r > 0.0 {
      var capped := MinReal(r, p.maxLimit);
      var a := RoundTenth(capped);
      RoundIsNear(capped);
      RoundIsNear(p.minLimit);
      RoundIsNear(p.maxLimit);
      RoundIsMonotone(p.minLimit, capped);
      RoundIsMonotone(capped, p.maxLimit);
      RoundOfTenth(a);
      if a > p.maxLimit && a < RoundTenth(p.maxLimit) {
        TenthsApart(a, RoundTenth(p.maxLimit));
        assert false;
      }
      if RoundTenth(p.minLimit) == 0.0 && 0.0 < a < p.minLimit {
        var zero := 0.0;
        assert IsTenth(zero);
        TenthsApart(zero, a);
        assert false;
      }
    }
  }

  /** A validated policy under which one re-apply turns a running limit into a
      pause: the floor 6.04 A rounds to 6.0 A, which is below the floor. */
  lemma ReapplyCanPause()
    ensures var p := Policy(6.04, 16.0);
            p.Validated() && Applied(p, 6.04) == 6.0 && Applied(p, Applied(p, 6.04)) == 0.0
  {
    assert (6.04 * 10.0 + 0.5).Floor == 60;
  }

  /** Repeated re-application of the standing limit. */
  function Reapplied(p: Policy, standing: real, times: nat): real
    requires standing >= 0.0 && p.maxLimit >= 0.0
    ensures Reapplied(p, standing, times) >= 0.0
  {
    if times == 0 then standing
    else
      CeilingHolds(p, Finite(Reapplied(p, standing, times - 1)));
      Applied(p, Reapplied(p, standing, times - 1))
  }

  /** Any number of accepted re-applies leaves the standing limit alone when the
      configured bounds are multiples of a tenth. */
  lemma {:induction false} ReapplyKeepsTheStandingLimit(p: Policy, requested: real, times: nat)
    requires 0.0 <= p.minLimit <= p.maxLimit && IsTenth(p.minLimit) && requested >= 0.0
    requires Applied(p, requested) >= 0.0
    ensures Reapplied(p, Applied(p, requested), times) == Applied(p, requested)
  {
    if times > 0 {
      ReapplyKeepsTheStandingLimit(p, requested, times - 1);
      RoundOfTenth(p.minLimit);
      FloorSurvives(p, requested);
    }
  }

  /** The limit as the charger is asked for it. */
  datatype RateUnit = Amperes | Watts(voltage: real, phases: Option<nat>)

  function PhaseCount(phases: Option<nat>): (n: real)
    ensures n >= 0.0
  {
    match phases
    case Some(n) => n as real
    case None => 1.0
  }

  function WattsPerAmp(unit: RateUnit): real {
    match unit
    case Amperes => 1.0
    case Watts(voltage, phases) => voltage * PhaseCount(phases)
  }

  function InUnit(unit: RateUnit, limit: real): real {
    limit * WattsPerAmp(unit)
  }

  function ProfileLimit(unit: RateUnit, limit: real): real {
    if unit.Amperes? then limit else RoundTenth(InUnit(unit, limit))
  }

  lemma InUnitIsMonotone(unit: RateUnit, a: real, b: real)
    requires 0.0 <= a <= b && (unit.Watts? ==> unit.voltage >= 0.0)
    ensures 0.0 == InUnit(unit, 0.0) <= InUnit(unit, a) <= InUnit(unit, b)
  {
    if unit.Watts? {
      Scale(0.0, unit.voltage, PhaseCount(unit.phases));
    }
    Scale(a, b, WattsPerAmp(unit));
  }

  lemma Scale(a: real, b: real, k: real)
    requires 0.0 <= a <= b && k >= 0.0
    ensures 0.0 <= a * k <= b * k
  {}

  /** The profile asks for the limit in its own unit to within half a tenth, a
      pause stays a pause, and a higher limit never asks for less. */
  lemma ProfileLimitIsFaithful(unit: RateUnit, a: real, b: real)
    requires 0.0 <= a <= b && (unit.Watts? ==> unit.voltage >= 0.0)
    ensures ProfileLimit(unit, a) <= ProfileLimit(unit, b)
    ensures match unit
            case Amperes => ProfileLimit(unit, a) == a
            case Watts(voltage, phases) =>
              var watts := a * (voltage * (if phases.Some? then phases.value as real else 1.0));
              watts - 0.05 <= ProfileLimit(unit, a) <= watts + 0.05
    ensures ProfileLimit(unit, 0.0) == 0.0
  {
    InUnitIsMonotone(unit, a, b);
    RoundIsNear(InUnit(unit, a));
    RoundIsMonotone(InUnit(unit, a), InUnit(unit, b));
    RoundOfTenth(0.0);
  }
}

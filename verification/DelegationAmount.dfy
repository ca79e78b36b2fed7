// requiredDelegationSun: src/adapters/energy/tron-own-pool-energy-provider.ts.
module DelegationAmount {
  import opened Prelude
  import opened Attempts

  datatype AmountError = TargetNotPositive | SnapshotNotPositive

  function RequiredDelegationSun(target: int, limit: int, weight: int): Result<nat, AmountError> {
    if target <= 0 then Err(TargetNotPositive)
    else if limit <= 0 || weight <= 0 then Err(SnapshotNotPositive)
    else
      var numerator := target * SUN_PER_TRX * weight;
      var required := (numerator + limit - 1) / limit;
      Ok(if required < SUN_PER_TRX then SUN_PER_TRX else required)
  }

  // The energy a delegated balance yields on a snapshot of the network, rounded down.
  function Yield(sun: nat, limit: int, weight: int): int
    requires weight > 0
  {
    sun * limit / (weight * SUN_PER_TRX)
  }

  lemma FloorAtLeast(a: int, b: int, q: int)
    requires b > 0
    ensures a / b >= q <==> a >= q * b
  {
    var f := a / b;
    assert a == f * b + a % b;
    if f >= q { TimesMonotone(q, f, b); } else { TimesMonotone(f + 1, q, b); }
  }

  lemma TimesMonotone(x: int, y: int, b: int)
    requires x <= y && b >= 0
    ensures x * b <= y * b
  {
    assert (y - x) * b >= 0;
  }

  lemma CeilingAtMost(a: int, b: int, s: int)
    requires b > 0
    ensures (a + b - 1) / b <= s <==> a <= s * b
  {
    FloorAtLeast(a + b - 1, b, s + 1);
    assert (s + 1) * b == s * b + b;
  }

  // The result is the least balance of at least one TRX whose yield reaches the target: of all balances of a TRX or
  // more, exactly those from the result on are enough.
  lemma LeastSufficient(target: int, limit: int, weight: int, sun: nat)
    requires target > 0 && limit > 0 && weight > 0 && sun >= SUN_PER_TRX
    ensures var r := RequiredDelegationSun(target, limit, weight);
      r.Ok? && r.value >= SUN_PER_TRX && (Yield(sun, limit, weight) >= target <==> sun >= r.value)
  {
    var numerator := target * SUN_PER_TRX * weight;
    FloorAtLeast(sun * limit, weight * SUN_PER_TRX, target);
    Regroup(target, weight);
    CeilingAtMost(numerator, limit, sun);
    hide Yield;
    assert Yield(sun, limit, weight) >= target <==> sun * limit >= numerator by { YieldIs(sun, limit, weight); }
  }

  lemma YieldIs(sun: nat, limit: int, weight: int)
    requires weight > 0
    ensures Yield(sun, limit, weight) == sun * limit / (weight * SUN_PER_TRX)
  {
  }

  lemma Regroup(target: int, weight: int)
    ensures target * (weight * SUN_PER_TRX) == target * SUN_PER_TRX * weight
  {
  }

  // So the yield at the result meets the target, and one sun less does not when the result is above one TRX.
  lemma ResultIsTight(target: int, limit: int, weight: int)
    requires target > 0 && limit > 0 && weight > 0
    ensures var r := RequiredDelegationSun(target, limit, weight);
      && r.Ok? && Yield(r.value, limit, weight) >= target
      && (r.value > SUN_PER_TRX ==> Yield(r.value - 1, limit, weight) < target)
  {
    LeastSufficient(target, limit, weight, SUN_PER_TRX);
    var r := RequiredDelegationSun(target, limit, weight).value;
    LeastSufficient(target, limit, weight, r);
    if r > SUN_PER_TRX { LeastSufficient(target, limit, weight, r - 1); }
  }
}

/** The plan catalogue and the quota comparisons built on it. `None` is an unlimited limit. */
module Plans {
  import opened Prelude

  datatype LimitKey = Seats | Lists | TodosPerList | StorageMb | ApiKeys | ApiCallsPerMonth

  type Limit = Option<int>

  const DEFAULT_PLAN: string := "free"
  const BYTES_PER_MB: int := 1024 * 1024

  predicate KnownPlan(planKey: string) {
    planKey == "free" || planKey == "pro" || planKey == "business"
  }

  function PlanLimit(planKey: string, limit: LimitKey): Limit {
    if planKey == "pro" then
      match limit
      case Seats => Some(10)
      case Lists => Some(25)
      case TodosPerList => Some(500)
      case StorageMb => Some(5_000)
      case ApiKeys => Some(5)
      case ApiCallsPerMonth => Some(50_000)
    else if planKey == "business" then
      match limit
      case Seats => Some(50)
      case Lists => None
      case TodosPerList => None
      case StorageMb => Some(100_000)
      case ApiKeys => Some(25)
      case ApiCallsPerMonth => Some(1_000_000)
    else
      match limit
      case Seats => Some(2)
      case Lists => Some(3)
      case TodosPerList => Some(50)
      case StorageMb => Some(100)
      case ApiKeys => Some(0)
      case ApiCallsPerMonth => Some(0)
  }

  /** What the catalogue needs of an organisation: its plan and any staff override. */
  datatype Entitled = Entitled(planKey: string, limitOverrides: map<LimitKey, Limit>)

  function LimitFor(organization: Entitled, limit: LimitKey): Limit {
    if limit in organization.limitOverrides
    then organization.limitOverrides[limit]
    else PlanLimit(organization.planKey, limit)
  }

  function PlanKeyFor(planKey: string): string {
    if KnownPlan(planKey) then planKey else DEFAULT_PLAN
  }

  /** The provider's product ids, which come from the environment. */
  datatype Products = Products(pro: Option<string>, business: Option<string>)

  function PlanKeyForProductId(products: Products, productId: Option<string>): Option<string> {
    if productId.None? || productId.value == "" then None
    else if products.pro == productId then Some("pro")
    else if products.business == productId then Some("business")
    else None
  }

  predicate Within(allowed: Limit, desired: int) {
    allowed.None? || desired <= allowed.value
  }

  datatype PlanLimitExceeded = PlanLimitExceeded(limit: LimitKey, allowed: int, current: int)

  function AssertWithinLimit(organization: Entitled, limit: LimitKey, desired: int): Result<(), PlanLimitExceeded> {
    var allowed := LimitFor(organization, limit);
    if Within(allowed, desired) then Ok(())
    else Err(PlanLimitExceeded(limit, if allowed.Some? then allowed.value else 0, desired - 1))
  }

  datatype LimitUsage = LimitUsage(current: int, limit: Limit, remaining: Limit, isFull: bool, isNearLimit: bool)

  function Describe(current: int, limit: Limit): LimitUsage {
    LimitUsage(
      current,
      limit,
      if limit.None? then None else Some(Max(limit.value - current, 0)),
      limit.Some? && current >= limit.value,
      limit.Some? && limit.value > 0 && current as real / limit.value as real >= 0.8)
  }

  /** Rounded up to whole megabytes. */
  function StorageMbUsed(bytes: nat): nat {
    (bytes + BYTES_PER_MB - 1) / BYTES_PER_MB
  }

  function AssertStorageWithinLimit(allowedMb: Limit, used: nat, additional: int): Result<(), PlanLimitExceeded> {
    if allowedMb.None? || used + additional <= allowedMb.value * BYTES_PER_MB then Ok(())
    else Err(PlanLimitExceeded(StorageMb, allowedMb.value, StorageMbUsed(used)))
  }

  // ---------------------------------------------------------------- the meter and the gate agree

  /** What the meter shows as full is exactly what the gate refuses, with the numbers it shows. */
  lemma {:induction false} FullExactlyWhenNextIsRefused(organization: Entitled, limit: LimitKey, current: int)
    ensures var meter := Describe(current, LimitFor(organization, limit));
            var gate := AssertWithinLimit(organization, limit, current + 1);
            && (meter.isFull <==> gate.Err?)
            && (gate.Err? ==> Some(gate.error.allowed) == meter.limit && gate.error.current == meter.current && meter.remaining == Some(0))
            && (meter.remaining.Some? && !meter.isFull ==> AssertWithinLimit(organization, limit, current + meter.remaining.value).Ok?
                                                           && AssertWithinLimit(organization, limit, current + meter.remaining.value + 1).Err?)
  {
  }

  /** A retired plan key falls back to Free, and an override beats the plan for its own limit only. */
  lemma {:induction false} RetiredPlanIsFree(planKey: string, overrides: map<LimitKey, Limit>, limit: LimitKey)
    ensures LimitFor(Entitled(planKey, overrides), limit) == LimitFor(Entitled(PlanKeyFor(planKey), overrides), limit)
  {
  }

  /** The refusal shows the limit and the megabytes begun: the fewest whole ones that hold what is used. */
  lemma {:induction false} StorageRefusalRoundsUp(used: nat, allowedMb: Limit, additional: int, mb: int)
    ensures StorageMbUsed(used) * 1024 * 1024 >= used
    ensures mb * 1024 * 1024 >= used ==> StorageMbUsed(used) <= mb
    ensures var gate := AssertStorageWithinLimit(allowedMb, used, additional);
            && (gate.Err? <==> allowedMb.Some? && used + additional > allowedMb.value * 1024 * 1024)
            && (gate.Err? ==> gate.error == PlanLimitExceeded(StorageMb, allowedMb.value, StorageMbUsed(used)))
  {
  }

  /** The meter rounds up, so it can call a workspace full that still fits a few bytes, but never the reverse. */
  lemma {:induction false} StorageMeterIsConservative(used: nat, allowedMb: Limit)
    ensures var meter := Describe(StorageMbUsed(used), allowedMb);
            && (!meter.isFull ==> AssertStorageWithinLimit(allowedMb, used, BYTES_PER_MB).Ok?)
            && (AssertStorageWithinLimit(allowedMb, used, 1).Err? ==> meter.isFull)
  {
    if allowedMb.Some? {
      var mb := StorageMbUsed(used);
      assert mb * BYTES_PER_MB <= used + BYTES_PER_MB - 1 < (mb + 1) * BYTES_PER_MB;
      if mb < allowedMb.value {
        assert (mb + 1) * BYTES_PER_MB <= allowedMb.value * BYTES_PER_MB;
      }
    }
  }

  lemma {:induction false} ShareAtLeast(current: real, limit: real, share: real)
    requires limit > 0.0
    ensures current / limit >= share <==> current >= share * limit
  {
    var quotient := current / limit;
    assert quotient * limit == current;
    if quotient >= share {
      assert (quotient - share) * limit >= 0.0;
    } else {
      assert (share - quotient) * limit > 0.0;
    }
  }

  /** The meter turns amber from eight tenths of a limit that is not zero, and an unlimited one never does. */
  lemma {:induction false} AmberFromEightTenths(current: int, limit: Limit)
    ensures Describe(current, limit).isNearLimit <==> limit.Some? && limit.value > 0 && current * 10 >= limit.value * 8
  {
    if limit.Some? && limit.value > 0 {
      ShareAtLeast(current as real, limit.value as real, 0.8);
      assert current as real * 10.0 == (current * 10) as real && limit.value as real * 8.0 == (limit.value * 8) as real;
    }
  }

  /** A staff override wins over the plan, for its own limit and no other, unlimited included. */
  lemma {:induction false} OverrideWins(organization: Entitled, limit: LimitKey, other: LimitKey, allowed: Limit)
    ensures var overridden := organization.(limitOverrides := organization.limitOverrides[limit := allowed]);
            && LimitFor(overridden, limit) == allowed
            && (other != limit ==> LimitFor(overridden, other) == LimitFor(organization, other))
            && (limit !in organization.limitOverrides ==> LimitFor(organization, limit) == PlanLimit(organization.planKey, limit))
  {
  }

  predicate NoLess(a: Limit, b: Limit) {
    a.None? || (b.Some? && a.value >= b.value)
  }

  /** The plans are ordered: a dearer one never allows less, and every paid one allows more seats than free. */
  lemma {:induction false} DearerPlansAllowMore(limit: LimitKey)
    ensures NoLess(PlanLimit("pro", limit), PlanLimit("free", limit)) && NoLess(PlanLimit("business", limit), PlanLimit("pro", limit))
    ensures PlanLimit("free", Seats) == Some(2) && PlanLimit("pro", Seats) == Some(10) && PlanLimit("business", Seats) == Some(50)
    ensures PlanLimit("free", StorageMb) == Some(100) && PlanLimit("pro", StorageMb) == Some(5000) && PlanLimit("business", StorageMb) == Some(100000)
    ensures PlanLimit("free", Lists) == Some(3) && PlanLimit("pro", Lists) == Some(25) && PlanLimit("business", Lists) == None
    ensures PlanLimit("free", TodosPerList) == Some(50) && PlanLimit("pro", TodosPerList) == Some(500) && PlanLimit("business", TodosPerList) == None
    ensures PlanLimit("free", ApiCallsPerMonth) == Some(0) && PlanLimit("pro", ApiCallsPerMonth) == Some(50000)
            && PlanLimit("business", ApiCallsPerMonth) == Some(1000000)
    ensures PlanLimit("free", ApiKeys) == Some(0) && PlanLimit("pro", ApiKeys) == Some(5) && PlanLimit("business", ApiKeys) == Some(25)
  {
  }

  /** A product names its plan, pro first; an absent or empty one names none. */
  lemma {:induction false} ProductNamesItsPlan(products: Products, productId: Option<string>)
    ensures var named := PlanKeyForProductId(products, productId);
            && (named == Some("pro") <==> productId.Some? && productId.value != "" && products.pro == productId)
            && (named == Some("business") <==> productId.Some? && productId.value != "" && products.pro != productId && products.business == productId)
            && (named.Some? ==> named.value == "pro" || named.value == "business")
  {
  }
}

/** What the two delivery services charge when the shipping instance stores
    no settings of its own, so that every setting takes the service default. */
module ServiceDefaults {
  import opened Values
  import opened Services

  /** The Instant defaults: 20 kg, a 70 x 50 x 50 cm box, 40 km, 2500 per km
      from the first km, a floor of 25000 and no cap. */
  lemma InstantLimits()
    ensures NumSetting(Instant, map[], "max_weight") == 20
    ensures MaxDimension(Instant, map[]) == 175000
    ensures LimitsPositive(Instant, map[])
    ensures CostSetting(Instant, map[], "per_km_cost") == 2500
    ensures CostSetting(Instant, map[], "per_km_min_distance") == 0
    ensures CostSetting(Instant, map[], "min_cost") == 25000
    ensures CostSetting(Instant, map[], "max_cost") == 0
    ensures GetSetting(Instant, map[], "max_distance", true) == Some(Number(40))
    ensures GetSetting(Instant, map[], "multiple_drivers", true) == None
  {    ReadsNumber(Instant, "max_weight", 20);
    ReadsNumber(Instant, "max_width", 70);
    ReadsNumber(Instant, "max_length", 50);
    ReadsNumber(Instant, "max_height", 50);
    ReadsNumber(Instant, "per_km_cost", 2500);
    ReadsNumber(Instant, "per_km_min_distance", 0);
    ReadsNumber(Instant, "min_cost", 25000);
    ReadsNumber(Instant, "max_cost", 0);
  }

  /** The Same Day defaults: 7 kg, a 40 x 40 x 17 cm box, 40 km, 2500 per km
      beyond 15 km, a floor of 15000 and a cap of 25000. */
  lemma SameDayLimits()
    ensures NumSetting(SameDay, map[], "max_weight") == 7
    ensures MaxDimension(SameDay, map[]) == 27200
    ensures LimitsPositive(SameDay, map[])
    ensures CostSetting(SameDay, map[], "per_km_cost") == 2500
    ensures CostSetting(SameDay, map[], "per_km_min_distance") == 15
    ensures CostSetting(SameDay, map[], "min_cost") == 15000
    ensures CostSetting(SameDay, map[], "max_cost") == 25000
    ensures GetSetting(SameDay, map[], "max_distance", true) == Some(Number(40))
    ensures GetSetting(SameDay, map[], "multiple_drivers", true) == None
  {    ReadsNumber(SameDay, "max_weight", 7);
    ReadsNumber(SameDay, "max_width", 40);
    ReadsNumber(SameDay, "max_length", 40);
    ReadsNumber(SameDay, "max_height", 17);
    ReadsNumber(SameDay, "per_km_cost", 2500);
    ReadsNumber(SameDay, "per_km_min_distance", 15);
    ReadsNumber(SameDay, "min_cost", 15000);
    ReadsNumber(SameDay, "max_cost", 25000);
  }

  /** A default stored as a number reads as that number. */
  lemma ReadsNumber(kind: ServiceKind, key: string, n: int)
    requires GetSetting(kind, map[], key, true) == Some(Number(n))
    ensures NumSetting(kind, map[], key) == n
    ensures CostSetting(kind, map[], key) == Abs(n)
  {
  }

  /** A package of positive weight within a box's limits needs one driver. */
  lemma OneDriver(kind: ServiceKind, env: Envelope)
    requires LimitsPositive(kind, map[])
    requires 0 < EnvWeight(env) <= NumSetting(kind, map[], "max_weight")
    requires 0 <= EnvDimension(env) <= MaxDimension(kind, map[])
    ensures Drivers(kind, map[], env) == 1
  {
    CeilDivAtMostOne(EnvWeight(env), NumSetting(kind, map[], "max_weight"));
    CeilDivAtMostOne(EnvDimension(env), MaxDimension(kind, map[]));
  }

  /** Instant with defaults: up to 40 km the cost is 2500 per km, at least
      25000, and any distance beyond 40 km is refused. */
  lemma InstantDefaultCost(distance: real, env: Envelope)
    requires 0 < EnvWeight(env) <= 20 && 0 <= EnvDimension(env) <= 175000
    ensures LimitsPositive(Instant, map[])
    ensures 0.0 <= distance <= 40.0 ==>
      Cost(Instant, map[], distance, env) == Quote(MaxReal(25000.0, 2500.0 * distance), 1)
    ensures distance > 40.0 ==>
      Cost(Instant, map[], distance, env).Failure? && Cost(Instant, map[], distance, env).code == MaxDistanceExceeded
  {
    InstantLimits();
    OneDriver(Instant, env);
  }

  lemma InstantExamples(env: Envelope)
    requires 0 < EnvWeight(env) <= 20 && 0 <= EnvDimension(env) <= 175000
    ensures LimitsPositive(Instant, map[])
    ensures Cost(Instant, map[], 5.0, env) == Quote(25000.0, 1)
    ensures Cost(Instant, map[], 10.0, env) == Quote(25000.0, 1)
    ensures Cost(Instant, map[], 12.0, env) == Quote(30000.0, 1)
    ensures Cost(Instant, map[], 40.0, env) == Quote(100000.0, 1)
  {
    InstantDefaultCost(5.0, env);
    InstantDefaultCost(10.0, env);
    InstantDefaultCost(12.0, env);
    InstantDefaultCost(40.0, env);
  }

  /** Same Day with defaults: within 15 km the floor 15000 applies; beyond it
      2500 per extra km, between 15000 and 25000; beyond 40 km it is refused. */
  lemma SameDayDefaultCost(distance: real, env: Envelope)
    requires 0 < EnvWeight(env) <= 7 && 0 <= EnvDimension(env) <= 27200
    ensures LimitsPositive(SameDay, map[])
    ensures distance <= 15.0 ==> Cost(SameDay, map[], distance, env) == Quote(15000.0, 1)
    ensures 15.0 < distance <= 40.0 ==>
      Cost(SameDay, map[], distance, env)
      == Quote(if 2500.0 * (distance - 15.0) < 15000.0 then 15000.0
               else if 2500.0 * (distance - 15.0) > 25000.0 then 25000.0
               else 2500.0 * (distance - 15.0), 1)
    ensures distance > 40.0 ==>
      Cost(SameDay, map[], distance, env).Failure? && Cost(SameDay, map[], distance, env).code == MaxDistanceExceeded
  {
    SameDayLimits();
    OneDriver(SameDay, env);
  }

  lemma SameDayExamples(env: Envelope)
    requires 0 < EnvWeight(env) <= 7 && 0 <= EnvDimension(env) <= 27200
    ensures LimitsPositive(SameDay, map[])
    ensures Cost(SameDay, map[], 10.0, env) == Quote(15000.0, 1)
    ensures Cost(SameDay, map[], 20.0, env) == Quote(15000.0, 1)
    ensures Cost(SameDay, map[], 40.0, env) == Quote(25000.0, 1)
  {
    SameDayDefaultCost(10.0, env);
    SameDayDefaultCost(20.0, env);
    SameDayDefaultCost(40.0, env);
  }
}

/** The per-service cost engine: settings stored under `<key>_<slug>` with
    per-service defaults, the memoised setting-field table, and the cost of
    one delivery for a distance and a package envelope. */
module Services {
  import opened Values
  import opened Strings
  import opened OrderedMap
  import InstantService
  import SameDayService

  datatype ServiceKind = Instant | SameDay

  function Slug(kind: ServiceKind): string {
    match kind
    case Instant => InstantService.Slug
    case SameDay => SameDayService.Slug
  }

  function Label(kind: ServiceKind): string {
    match kind
    case Instant => InstantService.Label
    case SameDay => SameDayService.Label
  }

  function Defaults(kind: ServiceKind): map<string, SettingValue> {
    match kind
    case Instant => InstantService.DefaultSettings()
    case SameDay => SameDayService.DefaultSettings()
  }

  predicate EndsWith(s: string, t: string) {
    |t| <= |s| && s[|s| - |t|..] == t
  }

  /** get_field_key: the raw key followed by "_" and the service slug. */
  function FieldKey(kind: ServiceKind, key: string): string {
    key + "_" + Slug(kind)
  }

  /** A field key starts with the raw key and ends with "_" and the slug. */
  lemma FieldKeyShape(kind: ServiceKind, key: string)
    ensures |FieldKey(kind, key)| > |key| && FieldKey(kind, key)[..|key|] == key
    ensures EndsWith(FieldKey(kind, key), "_" + Slug(kind))
  {
    assert FieldKey(kind, key) == key + ("_" + Slug(kind));
  }

  /** Distinct raw keys give distinct field keys. */
  lemma FieldKeyInjective(kind: ServiceKind, a: string, b: string)
    ensures FieldKey(kind, a) == FieldKey(kind, b) <==> a == b
  {
    FieldKeyShape(kind, a);
    if FieldKey(kind, a) == FieldKey(kind, b) {
      assert |a| == |b|;
      assert a == FieldKey(kind, a)[..|a|];
    }
  }

  /** get_default_setting: the service default, or null. */
  function DefaultSetting(kind: ServiceKind, key: string): Option<SettingValue> {
    if key in Defaults(kind) then Some(Defaults(kind)[key]) else None
  }

  /** get_setting: the stored value when present, else the default when asked
      for, else null. */
  function GetSetting(kind: ServiceKind, settings: map<string, SettingValue>, key: string, loadDefault: bool): Option<SettingValue> {
    var fk := FieldKey(kind, key);
    if fk in settings then Some(settings[fk])
    else if loadDefault then DefaultSetting(kind, key)
    else None
  }

  /** A stored value wins whether or not defaults are asked for; a missing one
      reads as null without defaults and as the service default with them. */
  lemma SettingLookup(kind: ServiceKind, settings: map<string, SettingValue>, key: string)
    ensures FieldKey(kind, key) in settings ==>
      GetSetting(kind, settings, key, false) == GetSetting(kind, settings, key, true) == Some(settings[FieldKey(kind, key)])
    ensures FieldKey(kind, key) !in settings ==>
      GetSetting(kind, settings, key, false) == None
      && GetSetting(kind, settings, key, true) == DefaultSetting(kind, key)
    ensures GetSetting(kind, settings, key, false).Some? ==> GetSetting(kind, settings, key, true) == GetSetting(kind, settings, key, false)
  {
  }

  /** Settings read as numbers, defaults included. */
  function NumSetting(kind: ServiceKind, settings: map<string, SettingValue>, key: string): int {
    IntOf(GetSetting(kind, settings, key, true))
  }

  /** Cost settings pass through absint. */
  function CostSetting(kind: ServiceKind, settings: map<string, SettingValue>, key: string): nat {
    AbsInt(GetSetting(kind, settings, key, true))
  }

  function MaxDimension(kind: ServiceKind, settings: map<string, SettingValue>): int {
    NumSetting(kind, settings, "max_width") * NumSetting(kind, settings, "max_length") * NumSetting(kind, settings, "max_height")
  }

  /** The driver ratios divide by the weight limit and the volume limit. */
  predicate LimitsPositive(kind: ServiceKind, settings: map<string, SettingValue>) {
    NumSetting(kind, settings, "max_weight") > 0 && MaxDimension(kind, settings) > 0
  }

  /** The package envelope of a cart: total weight, largest width and length,
      total height, and the number of items. */
  datatype Envelope = Envelope(weight: real, width: real, length: real, height: real, quantity: int)

  /** Outcome of calculate_cost: a total and a driver count, or a WP_Error. */
  datatype CostResult = Quote(total: real, drivers: int) | Failure(code: string, message: string)

  /** Drivers needed: the larger of the weight ratio and the volume ratio,
      each rounded up. */
  function DriversCount(weight: int, dimension: int, maxWeight: int, maxDimension: int): int
    requires maxWeight > 0 && maxDimension > 0
  {
    MaxInt(CeilDiv(weight, maxWeight), CeilDiv(dimension, maxDimension))
  }

  /** The driver count is the least count that carries both the weight and
      the volume. */
  lemma DriversCountLeast(weight: int, dimension: int, maxWeight: int, maxDimension: int)
    requires maxWeight > 0 && maxDimension > 0
    ensures var d := DriversCount(weight, dimension, maxWeight, maxDimension);
      weight <= d * maxWeight && dimension <= d * maxDimension &&
      ((d - 1) * maxWeight < weight || (d - 1) * maxDimension < dimension)
  {
    var a, b := CeilDiv(weight, maxWeight), CeilDiv(dimension, maxDimension);
    if a >= b {
      assert b * maxDimension <= a * maxDimension;
    } else {
      assert a * maxWeight <= b * maxWeight;
    }
  }

  /** Multiple-driver mode: switched on by the setting "yes", and off for a
      single item or when more drivers than items would be needed. */
  predicate MultipleDrivers(flag: Option<SettingValue>, quantity: int, drivers: int) {
    flag == Some(Text("yes")) && !(quantity < 2 || drivers > quantity)
  }

  /** The distance-based charge: only the distance beyond the free distance is
      charged, and nothing when the per-km cost is zero. */
  function PerKmCharge(distance: real, perKm: nat, freeKm: nat): real {
    if perKm != 0 && distance > freeKm as real then (distance - freeKm as real) * perKm as real else 0.0
  }

  /** The minimum floor, or else the maximum cap; zero disables either. */
  function Clamp(total: real, minCost: nat, maxCost: nat): real {
    if minCost != 0 && total < minCost as real then minCost as real
    else if maxCost != 0 && total > maxCost as real then maxCost as real
    else total
  }

  const MaxDistanceExceeded := "max_distance_exceeded"
  const MaxWeightExceeded := "max_weight_exceeded"
  const MaxDimensionExceeded := "max_dimension_exceeded"

  /** The envelope weight and volume after the (int) casts. */
  function EnvWeight(env: Envelope): int {
    Trunc(env.weight)
  }

  function EnvDimension(env: Envelope): int {
    Trunc(env.width) * Trunc(env.length) * Trunc(env.height)
  }

  /** The distance exceeds a maximum that is set (zero or unset means none). */
  predicate TooFar(kind: ServiceKind, settings: map<string, SettingValue>, distance: real) {
    var maxDistance := GetSetting(kind, settings, "max_distance", true);
    Truthy(maxDistance) && distance > IntOf(maxDistance) as real
  }

  function Drivers(kind: ServiceKind, settings: map<string, SettingValue>, env: Envelope): int
    requires LimitsPositive(kind, settings)
  {
    DriversCount(EnvWeight(env), EnvDimension(env), NumSetting(kind, settings, "max_weight"), MaxDimension(kind, settings))
  }

  predicate MultiDriverMode(kind: ServiceKind, settings: map<string, SettingValue>, env: Envelope)
    requires LimitsPositive(kind, settings)
  {
    MultipleDrivers(GetSetting(kind, settings, "multiple_drivers", true), env.quantity, Drivers(kind, settings, env))
  }

  /** The cost for one driver: the per-km charge, floored and capped. */
  function PerDriverTotal(kind: ServiceKind, settings: map<string, SettingValue>, distance: real): real {
    Clamp(PerKmCharge(distance, CostSetting(kind, settings, "per_km_cost"), CostSetting(kind, settings, "per_km_min_distance")),
          CostSetting(kind, settings, "min_cost"), CostSetting(kind, settings, "max_cost"))
  }

  /** The quote for a per-driver total: multiplied by the drivers when there
      are several. */
  function DriverQuote(total: real, drivers: int): CostResult {
    Quote(if drivers > 1 then total * drivers as real else total, drivers)
  }

  function Cost(kind: ServiceKind, settings: map<string, SettingValue>, distance: real, env: Envelope): CostResult
    requires LimitsPositive(kind, settings)
  {
    if TooFar(kind, settings, distance) then
      Failure(MaxDistanceExceeded, "Shipping distance exceeded the maximum setting: " + Slug(kind))
    else if !MultiDriverMode(kind, settings, env) && EnvWeight(env) > NumSetting(kind, settings, "max_weight") then
      Failure(MaxWeightExceeded, "Package weight exceeded the maximum setting: " + Slug(kind))
    else if !MultiDriverMode(kind, settings, env) && EnvDimension(env) > MaxDimension(kind, settings) then
      Failure(MaxDimensionExceeded, "Package dimension exceeded the maximum setting: " + Slug(kind))
    else
      var drivers := Drivers(kind, settings, env);
      var total := PerDriverTotal(kind, settings, distance);
      DriverQuote(total, drivers)
  }

  // ---------------------------------------------------------------------
  // Properties of the cost engine
  // ---------------------------------------------------------------------

  /** The distance limit: with a maximum set, the cost is refused for being
      too far exactly when the distance exceeds it (equality passes); with no
      maximum there is no limit. */
  lemma DistanceGate(kind: ServiceKind, settings: map<string, SettingValue>, distance: real, env: Envelope)
    requires LimitsPositive(kind, settings)
    ensures var maxDistance := GetSetting(kind, settings, "max_distance", true);
      var r := Cost(kind, settings, distance, env);
      (r.Failure? && r.code == MaxDistanceExceeded)
      <==> (Truthy(maxDistance) && distance > IntOf(maxDistance) as real)
  {
  }

  /** A quoted driver count never exceeds the number of items (or one, for a
      single item): more drivers than items switches multiple-driver mode off,
      and then an envelope over either limit is refused. */
  lemma DriversBound(kind: ServiceKind, settings: map<string, SettingValue>, distance: real, env: Envelope)
    requires LimitsPositive(kind, settings)
    requires Cost(kind, settings, distance, env).Quote?
    ensures Cost(kind, settings, distance, env).drivers <= MaxInt(1, env.quantity)
  {
    if !MultiDriverMode(kind, settings, env) {
      CeilDivAtMostOne(EnvWeight(env), NumSetting(kind, settings, "max_weight"));
      CeilDivAtMostOne(EnvDimension(env), MaxDimension(kind, settings));
    }
  }

  lemma CeilDivAtMostOne(a: int, b: int)
    requires b > 0 && a <= b
    ensures CeilDiv(a, b) <= 1
  {
    var c := CeilDiv(a, b);
    assert (c - 1) * b < 1 * b;
    MulCancel(c - 1, 1, b);
  }

  lemma MulCancel(x: int, y: int, b: int)
    requires b > 0 && x * b < y * b
    ensures x < y
  {
    assert (y - x) * b > 0;
  }

  /** An empty envelope within the distance limit needs no driver and always
      passes the size checks. */
  lemma EmptyEnvelope(kind: ServiceKind, settings: map<string, SettingValue>, distance: real)
    requires LimitsPositive(kind, settings)
    requires !TooFar(kind, settings, distance)
    ensures Cost(kind, settings, distance, Envelope(0.0, 0.0, 0.0, 0.0, 0))
         == Quote(PerDriverTotal(kind, settings, distance), 0)
  {
    assert CeilDiv(0, NumSetting(kind, settings, "max_weight")) == 0;
    assert CeilDiv(0, MaxDimension(kind, settings)) == 0;
  }

  /** With multiple-driver mode off, an envelope over both limits is refused
      for its weight, not its size. */
  lemma WeightCheckedFirst(kind: ServiceKind, settings: map<string, SettingValue>, distance: real, env: Envelope)
    requires LimitsPositive(kind, settings)
    requires !TooFar(kind, settings, distance)
    requires GetSetting(kind, settings, "multiple_drivers", true) != Some(Text("yes"))
    requires EnvWeight(env) > NumSetting(kind, settings, "max_weight")
    requires EnvDimension(env) > MaxDimension(kind, settings)
    ensures Cost(kind, settings, distance, env).Failure?
    ensures Cost(kind, settings, distance, env).code == MaxWeightExceeded
  {
  }

  /** In multiple-driver mode (setting on, several items, no more drivers
      than items) the limits split the package among drivers instead of
      refusing it. */
  lemma MultipleDriversAccept(kind: ServiceKind, settings: map<string, SettingValue>, distance: real, env: Envelope)
    requires LimitsPositive(kind, settings)
    requires !TooFar(kind, settings, distance)
    requires GetSetting(kind, settings, "multiple_drivers", true) == Some(Text("yes"))
    requires 2 <= env.quantity && Drivers(kind, settings, env) <= env.quantity
    ensures Cost(kind, settings, distance, env).Quote?
    ensures Cost(kind, settings, distance, env).drivers == Drivers(kind, settings, env)
  {
  }

  /** Without multiple-driver mode, a quote means the envelope is within both
      limits and one driver (none for an empty one) carries it. */
  lemma SingleDriverWithinLimits(kind: ServiceKind, settings: map<string, SettingValue>, distance: real, env: Envelope)
    requires LimitsPositive(kind, settings)
    requires !MultiDriverMode(kind, settings, env)
    requires Cost(kind, settings, distance, env).Quote?
    ensures EnvWeight(env) <= NumSetting(kind, settings, "max_weight")
    ensures EnvDimension(env) <= MaxDimension(kind, settings)
    ensures Cost(kind, settings, distance, env).drivers <= 1
  {
    CeilDivAtMostOne(EnvWeight(env), NumSetting(kind, settings, "max_weight"));
    CeilDivAtMostOne(EnvDimension(env), MaxDimension(kind, settings));
  }

  /** The per-km charge is the per-km cost times the distance beyond the free
      distance, and zero within it. */
  lemma PerKmChargeIsExcess(distance: real, perKm: nat, freeKm: nat)
    ensures PerKmCharge(distance, perKm, freeKm) == perKm as real * MaxReal(0.0, distance - freeKm as real)
    ensures PerKmCharge(distance, perKm, freeKm) >= 0.0
  {
  }

  /** Bounds of the floor-then-cap clamp. The floor holds unless a smaller cap
      is set; the cap holds unless a larger floor is set; when the floor is
      above the cap a total under the floor is raised to the floor; and a
      total between the bounds is kept. */
  lemma ClampBounds(total: real, minCost: nat, maxCost: nat)
    ensures total >= 0.0 ==> Clamp(total, minCost, maxCost) >= 0.0
    ensures minCost != 0 && (maxCost == 0 || minCost <= maxCost) ==> Clamp(total, minCost, maxCost) >= minCost as real
    ensures maxCost != 0 && minCost <= maxCost ==> Clamp(total, minCost, maxCost) <= maxCost as real
    ensures minCost != 0 && total < minCost as real ==> Clamp(total, minCost, maxCost) == minCost as real
    ensures minCost as real <= total && (maxCost == 0 || total <= maxCost as real) ==> Clamp(total, minCost, maxCost) == total
  {
  }

  /** A quote is the driver quote of the per-driver total (which
      ScaleByDrivers multiplies by the driver count), and neither is ever
      negative. */
  lemma QuoteTotal(kind: ServiceKind, settings: map<string, SettingValue>, distance: real, env: Envelope)
    requires LimitsPositive(kind, settings)
    requires Cost(kind, settings, distance, env).Quote?
    ensures PerDriverTotal(kind, settings, distance) >= 0.0
    ensures Cost(kind, settings, distance, env)
         == DriverQuote(PerDriverTotal(kind, settings, distance), Drivers(kind, settings, env))
    ensures Cost(kind, settings, distance, env).total >= 0.0
  {
    PerDriverNonNegative(kind, settings, distance);
    ScaleByDrivers(PerDriverTotal(kind, settings, distance), Drivers(kind, settings, env));
  }

  lemma PerDriverNonNegative(kind: ServiceKind, settings: map<string, SettingValue>, distance: real)
    ensures PerDriverTotal(kind, settings, distance) >= 0.0
  {
    var charge := PerKmCharge(distance, CostSetting(kind, settings, "per_km_cost"),
                              CostSetting(kind, settings, "per_km_min_distance"));
    PerKmChargeIsExcess(distance, CostSetting(kind, settings, "per_km_cost"),
                        CostSetting(kind, settings, "per_km_min_distance"));
    ClampBounds(charge, CostSetting(kind, settings, "min_cost"), CostSetting(kind, settings, "max_cost"));
  }

  lemma ScaleByDrivers(t: real, d: int)
    requires t >= 0.0
    ensures DriverQuote(t, d).total == t * MaxInt(1, d) as real
    ensures DriverQuote(t, d).total >= 0.0
    ensures DriverQuote(t, d).drivers == d
  {
  }

  // ---------------------------------------------------------------------
  // Setting fields
  // ---------------------------------------------------------------------

  /** The keys of the setting fields every service declares, in order. */
  const RawKeys: seq<string> := ["enable", "title", "min_cost", "max_cost", "per_km_cost",
    "per_km_min_distance", "max_weight", "max_width", "max_length", "max_height",
    "max_distance", "multiple_drivers"]

  /** A setting field; of its metadata only the default value is modelled. */
  datatype Field = Field(default: Option<SettingValue>)

  /** The field for a raw key: the title defaults to the service label, every
      other field to the service default (or null). */
  function FieldFor(kind: ServiceKind, key: string): Field {
    if key == "title" then Field(Some(Text(Label(kind)))) else Field(DefaultSetting(kind, key))
  }

  /** The field table for the given raw keys, in order. */
  function FieldEntries(kind: ServiceKind, keys: seq<string>): seq<(string, Field)>
    decreases |keys|
  {
    if keys == [] then []
    else FieldEntries(kind, keys[..|keys| - 1]) + [(FieldKey(kind, keys[|keys| - 1]), FieldFor(kind, keys[|keys| - 1]))]
  }

  /** The table returned by get_fields. */
  function Fields(kind: ServiceKind): seq<(string, Field)> {
    FieldEntries(kind, RawKeys)
  }

  /** The settings table returned by get_settings, for the given raw keys. */
  function SettingEntries(kind: ServiceKind, settings: map<string, SettingValue>, loadDefault: bool, keys: seq<string>): seq<(string, Option<SettingValue>)>
    decreases |keys|
  {
    if keys == [] then []
    else SettingEntries(kind, settings, loadDefault, keys[..|keys| - 1])
         + [(keys[|keys| - 1], GetSetting(kind, settings, keys[|keys| - 1], loadDefault))]
  }

  predicate Distinct(keys: seq<string>) {
    forall i, j :: 0 <= i < j < |keys| ==> keys[i] != keys[j]
  }

  lemma RawKeysDistinct()
    ensures Distinct(RawKeys)
  {
  }

  lemma TitleIsRawKey()
    ensures "title" in RawKeys
  {
    assert RawKeys[1] == "title";
  }

  /** The field table has one entry per raw key, in order. */
  lemma {:induction false} FieldEntriesAt(kind: ServiceKind, keys: seq<string>)
    ensures |FieldEntries(kind, keys)| == |keys|
    ensures forall i :: 0 <= i < |keys| ==> FieldEntries(kind, keys)[i] == (FieldKey(kind, keys[i]), FieldFor(kind, keys[i]))
    decreases |keys|
  {
    if keys != [] {
      var init := keys[..|keys| - 1];
      FieldEntriesAt(kind, init);
      forall i | 0 <= i < |init|
        ensures FieldEntries(kind, keys)[i] == FieldEntries(kind, init)[i]
      {
      }
    }
  }

  lemma FieldEntriesKeys(kind: ServiceKind, keys: seq<string>)
    ensures Keys(FieldEntries(kind, keys)) == set k | k in keys :: FieldKey(kind, k)
    ensures |FieldEntries(kind, keys)| == |keys|
    ensures forall i :: 0 <= i < |keys| ==> FieldEntries(kind, keys)[i] == (FieldKey(kind, keys[i]), FieldFor(kind, keys[i]))
  {
    FieldEntriesAt(kind, keys);
    var fs := FieldEntries(kind, keys);
    forall fk
      ensures fk in Keys(fs) <==> fk in set k | k in keys :: FieldKey(kind, k)
    {
      KeysIndex(fs, fk);
      if fk in set k | k in keys :: FieldKey(kind, k) {
        var k :| k in keys && fk == FieldKey(kind, k);
        var i :| 0 <= i < |keys| && keys[i] == k;
        assert fs[i].0 == fk;
      }
    }
  }

  lemma {:induction false} SettingEntriesKeys(kind: ServiceKind, settings: map<string, SettingValue>, loadDefault: bool, keys: seq<string>)
    ensures Keys(SettingEntries(kind, settings, loadDefault, keys)) == set k | k in keys
    ensures |SettingEntries(kind, settings, loadDefault, keys)| == |keys|
    ensures forall i :: 0 <= i < |keys| ==>
      SettingEntries(kind, settings, loadDefault, keys)[i] == (keys[i], GetSetting(kind, settings, keys[i], loadDefault))
    decreases |keys|
  {
    if keys != [] {
      var init, last := keys[..|keys| - 1], keys[|keys| - 1];
      var e := (last, GetSetting(kind, settings, last, loadDefault));
      SettingEntriesKeys(kind, settings, loadDefault, init);
      KeysAppend(SettingEntries(kind, settings, loadDefault, init), [e]);
      assert Keys([e]) == {last};
      assert keys == init + [last];
      assert (set k | k in keys) == (set k | k in init) + {last};
      forall i | 0 <= i < |keys|
        ensures SettingEntries(kind, settings, loadDefault, keys)[i] == (keys[i], GetSetting(kind, settings, keys[i], loadDefault))
      {
        if i < |init| {
          assert keys[i] == init[i];
        }
      }
    }
  }

  /** The next raw key's field key is not yet in the table. */
  lemma FreshFieldKey(kind: ServiceKind, i: nat)
    requires i < |RawKeys|
    ensures FieldKey(kind, RawKeys[i]) !in Keys(FieldEntries(kind, RawKeys[..i]))
  {
    RawKeysDistinct();
    FieldEntriesKeys(kind, RawKeys[..i]);
    forall k | k in RawKeys[..i]
      ensures FieldKey(kind, k) != FieldKey(kind, RawKeys[i])
    {
      FieldKeyInjective(kind, k, RawKeys[i]);
    }
  }

  /** Every field key carries the service slug, and each raw key's field holds
      its default: the label for the title, the service default otherwise. */
  lemma FieldsContents(kind: ServiceKind)
    ensures forall fk :: fk in Keys(Fields(kind)) ==> EndsWith(fk, "_" + Slug(kind))
    ensures forall k :: k in RawKeys ==> Get(Fields(kind), FieldKey(kind, k)) == Some(FieldFor(kind, k))
    ensures Get(Fields(kind), FieldKey(kind, "title")) == Some(Field(Some(Text(Label(kind)))))
  {
    TitleIsRawKey();
    FieldEntriesKeys(kind, RawKeys);
    RawKeysDistinct();
    var fs := Fields(kind);
    forall k | k in RawKeys
      ensures EndsWith(FieldKey(kind, k), "_" + Slug(kind))
    {
      FieldKeyShape(kind, k);
    }
    forall k | k in RawKeys
      ensures Get(fs, FieldKey(kind, k)) == Some(FieldFor(kind, k))
    {
      var i :| 0 <= i < |RawKeys| && RawKeys[i] == k;
      forall j | 0 <= j < i
        ensures fs[j].0 != FieldKey(kind, k)
      {
        FieldKeyInjective(kind, RawKeys[j], k);
      }
      GetAt(fs, FieldKey(kind, k), i);
    }
  }

  /** One delivery service object: its settings and its memoised field table. */
  class Service {
    const kind: ServiceKind
    var settings: map<string, SettingValue>
    var fields: seq<(string, Field)>

    /** The field cache is either still empty or holds the full table. */
    ghost predicate Valid()
      reads this
    {
      fields == [] || fields == Fields(kind)
    }

    constructor (kind: ServiceKind)
      ensures this.kind == kind && settings == map[] && fields == [] && Valid()
    {
      this.kind := kind;
      settings := map[];
      fields := [];
    }

    /** set_settings: replaces the stored settings. */
    method SetSettings(s: map<string, SettingValue>)
      requires Valid()
      modifies this
      ensures Valid() && settings == s && fields == old(fields)
    {
      settings := s;
    }

    /** get_fields: builds the field table on first use and returns the cached
        table afterwards. */
    method GetFields() returns (fs: seq<(string, Field)>)
      requires Valid()
      modifies this
      ensures Valid() && fs == Fields(kind) && fields == fs && settings == old(settings)
    {
      if fields == [] {
        var i := 0;
        while i < |RawKeys|
          invariant 0 <= i <= |RawKeys|
          invariant fields == FieldEntries(kind, RawKeys[..i])
          invariant settings == old(settings)
        {
          var key := RawKeys[i];
          FreshFieldKey(kind, i);
          fields := Put(fields, FieldKey(kind, key), FieldFor(kind, key));
          assert RawKeys[..i + 1][..i] == RawKeys[..i];
          i := i + 1;
        }
        assert RawKeys[..|RawKeys|] == RawKeys;
      }
      fs := fields;
    }

    /** get_settings: every raw key with its current setting. */
    method GetSettings(loadDefault: bool) returns (r: seq<(string, Option<SettingValue>)>)
      ensures r == SettingEntries(kind, settings, loadDefault, RawKeys)
      ensures |r| == |RawKeys|
      ensures forall i :: 0 <= i < |RawKeys| ==> r[i] == (RawKeys[i], GetSetting(kind, settings, RawKeys[i], loadDefault))
    {
      RawKeysDistinct();
      r := [];
      for i := 0 to |RawKeys|
        invariant r == SettingEntries(kind, settings, loadDefault, RawKeys[..i])
      {
        SettingEntriesKeys(kind, settings, loadDefault, RawKeys[..i]);
        r := Put(r, RawKeys[i], GetSetting(kind, settings, RawKeys[i], loadDefault));
        assert RawKeys[..i + 1][..i] == RawKeys[..i];
      }
      assert RawKeys[..|RawKeys|] == RawKeys;
      SettingEntriesKeys(kind, settings, loadDefault, RawKeys);
    }

    /** calculate_cost: settings passed in (when not empty) replace the stored
        ones first. */
    method CalculateCost(distance: real, env: Envelope, newSettings: map<string, SettingValue>) returns (r: CostResult)
      requires Valid()
      requires LimitsPositive(kind, if newSettings != map[] then newSettings else settings)
      modifies this
      ensures Valid() && fields == old(fields)
      ensures settings == if newSettings != map[] then newSettings else old(settings)
      ensures r == Cost(kind, settings, distance, env)
    {
      if newSettings != map[] {
        SetSettings(newSettings);
      }
      r := Cost(kind, settings, distance, env);
    }
  }
}

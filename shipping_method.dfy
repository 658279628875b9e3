/** The current WooGoSend shipping method: the rates it offers for a cart,
    one per enabled delivery service that can carry the package, the origin
    it sends to the distance API, its table-rate field reader, and the
    settings migrations it runs when constructed. */
module ShippingMethods {
  import opened Values
  import opened Strings
  import opened OrderedMap
  import opened Sorting
  import opened Services
  import opened CartEnvelope
  import opened DistanceApi
  import opened Routes
  import opened Migrations
  import Helpers

  const MethodId := "woogosend"

  /** A rate handed to WooCommerce: its id, label and cost, with the driver
      count and the route kept as meta data. */
  datatype Rate = Rate(id: string, labelText: string, cost: real, drivers: int, route: ApiRoute)

  /** WooCommerce's rate id: the method id, the instance id when set, and
      the suffix when given, joined with ":". */
  function RateId(instanceId: nat, suffix: string): string {
    MethodId + (if instanceId != 0 then ":" + NatToString(instanceId) else "")
      + (if suffix != "" then ":" + suffix else "")
  }

  /** A service offers rates only when its "enable" setting is exactly "yes"
      (no default is loaded). */
  predicate Enabled(kind: ServiceKind, m: map<string, SettingValue>) {
    GetSetting(kind, m, "enable", false) == Some(Text("yes"))
  }

  /** A setting as PHP prints it. */
  function SettingText(v: SettingValue): string {
    match v
    case Text(s) => s
    case Number(n) => IntToString(n)
  }

  /** The service title (defaults loaded), or its slug when the title is
      empty. */
  function ServiceLabel(kind: ServiceKind, m: map<string, SettingValue>): string {
    var title := GetSetting(kind, m, "title", true);
    if Truthy(title) then SettingText(title.value) else Slug(kind)
  }

  /** The extra label parts: the driver count when several are needed, then
      the distance text when it is to be shown. */
  function LabelExtras(drivers: int, distanceText: string, showDistance: string): seq<string> {
    (if drivers > 1 then [IntToString(drivers) + " drivers"] else [])
      + (if showDistance == "yes" then [distanceText] else [])
  }

  /** The label: the title, followed by the extra parts in parentheses when
      there are any. */
  function RateLabel(title: string, drivers: int, distanceText: string, showDistance: string): string {
    var extras := LabelExtras(drivers, distanceText, showDistance);
    if extras == [] then title else title + " (" + Join(extras, ", ") + ")"
  }

  /** The cost engine divides by the limits of every enabled service. */
  predicate RatesPossible(kinds: seq<ServiceKind>, m: map<string, SettingValue>) {
    forall k :: k in kinds && Enabled(k, m) ==> LimitsPositive(k, m)
  }

  /** The rate one service adds for the route and envelope, if any: none
      when it is disabled or its cost calculation fails; a missing or zero
      driver count is shown as one driver. */
  function ServiceRate(kind: ServiceKind, m: map<string, SettingValue>, route: ApiRoute, env: Envelope,
                       showDistance: string, instanceId: nat): Option<Rate>
    requires Enabled(kind, m) ==> LimitsPositive(kind, m)
  {
    if !Enabled(kind, m) then None
    else
      var cost := Cost(kind, m, route.distance as real / 10.0, env);
      if cost.Failure? then None
      else
        var drivers := if cost.drivers == 0 then 1 else cost.drivers;
        Some(Rate(RateId(instanceId, Slug(kind)),
                  RateLabel(ServiceLabel(kind, m), drivers, route.distanceText, showDistance),
                  cost.total, drivers, route))
  }

  /** The rates of the services in order, skipping those that add none. */
  function RatesFor(kinds: seq<ServiceKind>, m: map<string, SettingValue>, route: ApiRoute, env: Envelope,
                    showDistance: string, instanceId: nat): seq<Rate>
    requires RatesPossible(kinds, m)
    decreases |kinds|
  {
    if kinds == [] then []
    else
      var last := kinds[|kinds| - 1];
      var rest := RatesFor(kinds[..|kinds| - 1], m, route, env, showDistance, instanceId);
      var r := ServiceRate(last, m, route, env, showDistance, instanceId);
      if r.Some? then rest + [r.value] else rest
  }

  /** calculate_shipping: no rate at all when the route request fails,
      otherwise the rates of the services for the cart's envelope. */
  function NewRates(origin: seq<(string, string)>, destination: string, resp: Response,
                    preferred: string, roundUp: bool, items: seq<CartItem>,
                    kinds: seq<ServiceKind>, m: map<string, SettingValue>,
                    showDistance: string, instanceId: nat): (rates: seq<Rate>)
    requires RatesPossible(kinds, m)
    ensures origin == [] ==> rates == []
    ensures EmptyString(destination) ==> rates == []
    ensures Interpret(resp).Err? ==> rates == []
  {
    var api := ApiRequestOutcome(origin, destination, resp, preferred, roundUp);
    if api.Err? then [] else RatesFor(kinds, m, api.value, EnvelopeOf(items), showDistance, instanceId)
  }

  /** get_origin_info: the coordinates when the origin type is "coordinate"
      and both are given; otherwise the address when given; else nothing. */
  function OriginInfo(originType: string, lat: string, lng: string, address: string): (info: seq<(string, string)>)
    ensures info == [] <==>
      (if originType == "coordinate" then EmptyString(lat) || EmptyString(lng) else EmptyString(address))
    ensures info != [] && originType == "coordinate" ==> Get(info, "origin_lat") == Some(lat) && Get(info, "origin_lng") == Some(lng)
    ensures info != [] && originType != "coordinate" ==> Keys(info) == {"origin_address"} && Get(info, "origin_address") == Some(address)
  {
    if originType == "coordinate" then
      if !EmptyString(lat) && !EmptyString(lng) then [("origin_lat", lat), ("origin_lng", lng)] else []
    else
      if !EmptyString(address) then [("origin_address", address)] else []
  }

  /** get_rate_field_value: the row's value or the default; a fixed-cost row
      reads every per-class rate as 0 and its minimum cost from the first
      class rate, when that is set. */
  function RateFieldValue(key: string, row: Settings, default: SettingValue): (v: SettingValue)
    ensures Get(row, "cost_type") != Some(Text("fixed")) ==>
      v == (if key in Keys(row) then Get(row, key).value else default)
    ensures Get(row, "cost_type") == Some(Text("fixed")) && StartsWith(key, "rate_class_") ==> v == Number(0)
    ensures Get(row, "cost_type") == Some(Text("fixed")) && key == "min_cost" && "rate_class_0" in Keys(row) ==>
      v == Get(row, "rate_class_0").value
    ensures Get(row, "cost_type") == Some(Text("fixed")) && key == "min_cost" && "rate_class_0" !in Keys(row) ==>
      v == (if key in Keys(row) then Get(row, key).value else default)
  {
    var stored := Get(row, key);
    var value := if stored.Some? then stored.value else default;
    var fixed := Get(row, "cost_type") == Some(Text("fixed"));
    var value := if StartsWith(key, "rate_class_") && fixed then Number(0) else value;
    var first := Get(row, "rate_class_0");
    if key == "min_cost" && first.Some? && fixed then first.value else value
  }

  /** The kinds of a list of service objects. */
  function Kinds(services: seq<Service>): (kinds: seq<ServiceKind>)
    ensures |kinds| == |services|
    ensures forall i :: 0 <= i < |services| ==> kinds[i] == services[i].kind
  {
    seq(|services|, i requires 0 <= i < |services| => services[i].kind)
  }

  // ---------------------------------------------------------------------
  // Properties of the rates
  // ---------------------------------------------------------------------

  /** A service adds a rate exactly when it is enabled and its cost engine
      quotes; the rate carries the quoted total, the route, and the quoted
      driver count with zero shown as one. */
  lemma ServiceRateCases(kind: ServiceKind, m: map<string, SettingValue>, route: ApiRoute, env: Envelope,
                         showDistance: string, instanceId: nat)
    requires Enabled(kind, m) ==> LimitsPositive(kind, m)
    ensures ServiceRate(kind, m, route, env, showDistance, instanceId).Some? <==>
      Enabled(kind, m) && Cost(kind, m, route.distance as real / 10.0, env).Quote?
    ensures ServiceRate(kind, m, route, env, showDistance, instanceId).Some? ==>
      var q := Cost(kind, m, route.distance as real / 10.0, env);
      var r := ServiceRate(kind, m, route, env, showDistance, instanceId).value;
      r.cost == q.total && r.route == route && r.id == RateId(instanceId, Slug(kind))
      && (q.drivers >= 0 ==> r.drivers == MaxInt(1, q.drivers))
      && r.drivers != 0
  {
  }

  /** A quote for an envelope of non-negative weight and volume needs a
      non-negative number of drivers. */
  lemma QuoteDriversNonNegative(kind: ServiceKind, m: map<string, SettingValue>, distance: real, env: Envelope)
    requires LimitsPositive(kind, m)
    requires EnvWeight(env) >= 0 && EnvDimension(env) >= 0
    requires Cost(kind, m, distance, env).Quote?
    ensures Cost(kind, m, distance, env).drivers >= 0
  {
    var w := NumSetting(kind, m, "max_weight");
    var d := MaxDimension(kind, m);
    CeilDivNonNegative(EnvWeight(env), w);
    CeilDivNonNegative(EnvDimension(env), d);
  }

  lemma CeilDivNonNegative(a: int, b: int)
    requires a >= 0 && b > 0
    ensures CeilDiv(a, b) >= 0
  {
  }

  /** Every rate added for an envelope of non-negative weight and volume
      has at least one driver and a non-negative cost. */
  lemma {:induction false} RatesDriversPositive(kinds: seq<ServiceKind>, m: map<string, SettingValue>, route: ApiRoute,
                                                env: Envelope, showDistance: string, instanceId: nat)
    requires RatesPossible(kinds, m)
    requires EnvWeight(env) >= 0 && EnvDimension(env) >= 0
    ensures forall r :: r in RatesFor(kinds, m, route, env, showDistance, instanceId) ==> r.drivers >= 1 && r.cost >= 0.0
    decreases |kinds|
  {
    if kinds != [] {
      var last := kinds[|kinds| - 1];
      RatesDriversPositive(kinds[..|kinds| - 1], m, route, env, showDistance, instanceId);
      var distance := route.distance as real / 10.0;
      if Enabled(last, m) && Cost(last, m, distance, env).Quote? {
        QuoteDriversNonNegative(last, m, distance, env);
        QuoteTotal(last, m, distance, env);
      }
    }
  }

  /** The services of a sub-list can be priced whenever the whole list can. */
  lemma PossibleParts(a: seq<ServiceKind>, b: seq<ServiceKind>, m: map<string, SettingValue>)
    requires RatesPossible(a + b, m)
    ensures RatesPossible(a, m) && RatesPossible(b, m)
  {
    assert forall k :: k in a ==> k in a + b;
    assert forall k :: k in b ==> k in a + b;
  }

  /** The rates of two lists of services are the rates of each, in order. */
  lemma {:induction false} RatesForAppend(a: seq<ServiceKind>, b: seq<ServiceKind>, m: map<string, SettingValue>,
                                          route: ApiRoute, env: Envelope, showDistance: string, instanceId: nat)
    requires RatesPossible(a + b, m)
    ensures RatesPossible(a, m) && RatesPossible(b, m)
    ensures RatesFor(a + b, m, route, env, showDistance, instanceId)
         == RatesFor(a, m, route, env, showDistance, instanceId) + RatesFor(b, m, route, env, showDistance, instanceId)
    decreases |b|
  {
    PossibleParts(a, b, m);
    if b != [] {
      var init := b[..|b| - 1];
      assert (a + b)[..|a + b| - 1] == a + init;
      assert (a + b)[|a + b| - 1] == b[|b| - 1];
      PossibleParts(a + init, [b[|b| - 1]], m);
      RatesForAppend(a, init, m, route, env, showDistance, instanceId);
    } else {
      assert a + b == a;
    }
  }

  /** A service that adds no rate (disabled, or its cost refused) does not
      stop the services after it: the rates are those of the services
      before and after it. */
  lemma SkippedService(kinds: seq<ServiceKind>, i: nat, m: map<string, SettingValue>, route: ApiRoute,
                       env: Envelope, showDistance: string, instanceId: nat)
    requires i < |kinds| && RatesPossible(kinds, m)
    requires !Enabled(kinds[i], m) || Cost(kinds[i], m, route.distance as real / 10.0, env).Failure?
    ensures RatesPossible(kinds[..i], m) && RatesPossible(kinds[i + 1..], m)
    ensures RatesFor(kinds, m, route, env, showDistance, instanceId)
         == RatesFor(kinds[..i], m, route, env, showDistance, instanceId)
          + RatesFor(kinds[i + 1..], m, route, env, showDistance, instanceId)
  {
    var pre := kinds[..i];
    var upTo := pre + [kinds[i]];
    assert kinds == upTo + kinds[i + 1..];
    RatesForAppend(upTo, kinds[i + 1..], m, route, env, showDistance, instanceId);
    PossibleParts(pre, [kinds[i]], m);
    assert upTo[..|upTo| - 1] == pre;
    assert RatesFor(upTo, m, route, env, showDistance, instanceId) == RatesFor(pre, m, route, env, showDistance, instanceId);
  }

  /** Each rate comes from one of the services, and every service that can
      quote adds its rate. */
  lemma {:induction false} RatesFromServices(kinds: seq<ServiceKind>, m: map<string, SettingValue>, route: ApiRoute,
                                             env: Envelope, showDistance: string, instanceId: nat)
    requires RatesPossible(kinds, m)
    ensures forall r :: r in RatesFor(kinds, m, route, env, showDistance, instanceId) ==>
      exists k :: k in kinds && ServiceRate(k, m, route, env, showDistance, instanceId) == Some(r)
    ensures forall k :: k in kinds && ServiceRate(k, m, route, env, showDistance, instanceId).Some? ==>
      ServiceRate(k, m, route, env, showDistance, instanceId).value in RatesFor(kinds, m, route, env, showDistance, instanceId)
    decreases |kinds|
  {
    if kinds != [] {
      var init := kinds[..|kinds| - 1];
      assert forall k :: k in init ==> k in kinds;
      assert kinds == init + [kinds[|kinds| - 1]];
      RatesFromServices(init, m, route, env, showDistance, instanceId);
    }
  }

  /** The rates of the first i + 1 services: those of the first i, then the
      rate of service i if it adds one. */
  lemma RatesForStep(kinds: seq<ServiceKind>, i: nat, m: map<string, SettingValue>, route: ApiRoute,
                     env: Envelope, showDistance: string, instanceId: nat)
    requires i < |kinds| && RatesPossible(kinds, m)
    ensures RatesPossible(kinds[..i], m) && RatesPossible(kinds[..i + 1], m)
    ensures Enabled(kinds[i], m) ==> LimitsPositive(kinds[i], m)
    ensures var r := ServiceRate(kinds[i], m, route, env, showDistance, instanceId);
      RatesFor(kinds[..i + 1], m, route, env, showDistance, instanceId)
      == RatesFor(kinds[..i], m, route, env, showDistance, instanceId) + (if r.Some? then [r.value] else [])
  {
    assert kinds[i] in kinds;
    assert kinds == kinds[..i + 1] + kinds[i + 1..];
    PossibleParts(kinds[..i + 1], kinds[i + 1..], m);
    assert kinds[..i + 1] == kinds[..i] + [kinds[i]];
    PossibleParts(kinds[..i], [kinds[i]], m);
    assert kinds[..i + 1][..i] == kinds[..i];
  }

  /** The rate ids of the two services of one instance differ. */
  lemma RateIdsDistinct(instanceId: nat)
    ensures RateId(instanceId, Slug(Instant)) != RateId(instanceId, Slug(SameDay))
  {
    var a := RateId(instanceId, Slug(Instant));
    var b := RateId(instanceId, Slug(SameDay));
    assert a[|a| - 1] == 't';
    assert b[|b| - 1] == 'y';
  }

  /** The label shows "N drivers" only for several drivers and the distance
      only when asked, in that order. */
  lemma RateLabelCases(title: string, drivers: int, distanceText: string, showDistance: string)
    ensures drivers <= 1 && showDistance != "yes" ==> RateLabel(title, drivers, distanceText, showDistance) == title
    ensures drivers <= 1 && showDistance == "yes" ==>
      RateLabel(title, drivers, distanceText, showDistance) == title + " (" + distanceText + ")"
    ensures drivers > 1 && showDistance != "yes" ==>
      RateLabel(title, drivers, distanceText, showDistance) == title + " (" + IntToString(drivers) + " drivers" + ")"
    ensures drivers > 1 && showDistance == "yes" ==>
      RateLabel(title, drivers, distanceText, showDistance)
      == title + " (" + (IntToString(drivers) + " drivers") + ", " + distanceText + ")"
  {
    var extras := LabelExtras(drivers, distanceText, showDistance);
    if drivers > 1 && showDistance == "yes" {
      assert extras == [IntToString(drivers) + " drivers", distanceText];
      assert Join(extras, ", ") == (IntToString(drivers) + " drivers") + ", " + distanceText;
    }
  }

  /** Without an origin (coordinates or address, as the origin type asks),
      no rate is offered. */
  lemma NoOriginNoRates(originType: string, lat: string, lng: string, address: string,
                        destination: string, resp: Response, preferred: string, roundUp: bool,
                        items: seq<CartItem>, kinds: seq<ServiceKind>, m: map<string, SettingValue>,
                        showDistance: string, instanceId: nat)
    requires RatesPossible(kinds, m)
    requires if originType == "coordinate" then EmptyString(lat) || EmptyString(lng) else EmptyString(address)
    ensures NewRates(OriginInfo(originType, lat, lng, address), destination, resp, preferred, roundUp,
                     items, kinds, m, showDistance, instanceId) == []
  {
  }

  /** A fixed-cost table row prices every class at 0 and takes its minimum
      cost from the first class rate. */
  lemma FixedCostRow(row: Settings, firstRate: SettingValue, default: SettingValue)
    requires Get(row, "cost_type") == Some(Text("fixed"))
    requires Get(row, "rate_class_0") == Some(firstRate)
    ensures RateFieldValue("min_cost", row, default) == firstRate
    ensures RateFieldValue("rate_class_0", row, default) == Number(0)
    ensures RateFieldValue("rate_class_12", row, default) == Number(0)
  {
    assert "rate_class_12"[..|"rate_class_"|] == "rate_class_";
    assert "rate_class_0"[..|"rate_class_"|] == "rate_class_";
  }

  // ---------------------------------------------------------------------
  // The shipping method object
  // ---------------------------------------------------------------------

  class ShippingMethod {
    const instanceId: nat
    const originType: string
    const originLat: string
    const originLng: string
    const originAddress: string
    const preferredRoute: string
    const roundUpDistance: string
    const showDistance: string
    /** The registered delivery services. */
    const services: seq<Service>
    /** The instance settings, in their stored order. */
    var settings: Settings
    /** The last data version migrated to, or none when not recorded. */
    var dataVersion: Option<Version>
    /** The rates added so far. */
    var rates: seq<Rate>

    /** The options read at construction, then the data migration. */
    constructor (instanceId: nat, originType: string, originLat: string, originLng: string, originAddress: string,
                 preferredRoute: string, roundUpDistance: string, showDistance: string, services: seq<Service>,
                 settings: Settings, dataVersion: Option<Version>, available: seq<MigrationKind>)
      ensures this.instanceId == instanceId && this.originType == originType
      ensures this.originLat == originLat && this.originLng == originLng && this.originAddress == originAddress
      ensures this.preferredRoute == preferredRoute && this.roundUpDistance == roundUpDistance
      ensures this.showDistance == showDistance && this.services == services
      ensures MigrationState(this.settings, this.dataVersion)
           == Migrated(MigrationState(settings, dataVersion), instanceId, available)
      ensures rates == []
    {
      this.instanceId := instanceId;
      this.originType := originType;
      this.originLat := originLat;
      this.originLng := originLng;
      this.originAddress := originAddress;
      this.preferredRoute := preferredRoute;
      this.roundUpDistance := roundUpDistance;
      this.showDistance := showDistance;
      this.services := services;
      this.settings := settings;
      this.dataVersion := dataVersion;
      this.rates := [];
      new;
      MigrateData(available);
    }

    /** migrate_data: the discovered migrations, once per class and in
        version order, each applied to the instance settings (updates, then
        deletes) and recorded unless it is already covered or empty. */
    method MigrateData(available: seq<MigrationKind>)
      modifies this
      ensures MigrationState(settings, dataVersion)
           == Migrated(old(MigrationState(settings, dataVersion)), instanceId, available)
      ensures rates == old(rates)
    {
      if instanceId == 0 {
        return;
      }
      if dataVersion.Some? && VersionLe(PluginVersion, dataVersion.value) {
        return;
      }
      var found: seq<MigrationKind> := [];
      for i := 0 to |available|
        invariant found == Dedup(available[..i])
      {
        assert available[..i + 1][..i] == available[..i];
        if available[i] !in found {
          found := found + [available[i]];
        }
      }
      assert available[..|available|] == available;
      if found != [] {
        found := Usort(found, SortVersion);
      }
      ghost var start := MigrationState(settings, dataVersion);
      for i := 0 to |found|
        invariant Run(MigrationState(settings, dataVersion), found[i..]) == Run(start, found)
        invariant rates == old(rates)
      {
        assert found[i..][1..] == found[i + 1..];
        ApplyMigration(found[i]);
      }
    }

    /** One pass of the migration loop: a migration newer than the recorded
        version, attached to this method, updates then deletes its options
        and records its version, unless it has none of either. */
    method ApplyMigration(kind: MigrationKind)
      modifies this
      ensures MigrationState(settings, dataVersion) == Step(old(MigrationState(settings, dataVersion)), kind)
      ensures rates == old(rates)
    {
      if dataVersion.Some? && VersionLe(VersionOf(kind), dataVersion.value) {
        return;
      }
      var migration := new Migration(kind, null);
      migration.SetInstance(this);
      var updates := migration.GetUpdateOptions();
      var deletes := migration.GetDeleteOptions();
      if updates == [] && deletes == [] {
        return;
      }
      ghost var before := settings;
      for j := 0 to |updates|
        invariant PutAll(settings, updates[j..]) == PutAll(before, updates)
        invariant rates == old(rates)
      {
        assert updates[j..][1..] == updates[j + 1..];
        settings := Put(settings, updates[j].0, updates[j].1);
      }
      ghost var updated := settings;
      for j := 0 to |deletes|
        invariant RemoveAll(settings, deletes[j..]) == RemoveAll(updated, deletes)
        invariant rates == old(rates)
      {
        assert deletes[j..][1..] == deletes[j + 1..];
        settings := Remove(settings, deletes[j]);
      }
      dataVersion := Some(VersionOf(kind));
    }

    /** The distance post-processing of api_request: the origin and
        destination must be given; the first result after sorting by the
        preferred route gives the distance in tenths of a km, at least 0.1
        and rounded up to whole km when asked. */
    method ApiRequest(origin: seq<(string, string)>, destination: string, resp: Response) returns (r: Result<ApiRoute>)
      ensures r == ApiRequestOutcome(origin, destination, resp, preferredRoute, roundUpDistance == "yes")
    {
      if origin == [] {
        return Err("Origin parameter is empty");
      }
      if EmptyString(destination) {
        return Err("Destination parameter is empty");
      }
      var answer := CalculateDistance(resp);
      if answer.Err? {
        return Err(answer.message);
      }
      var results := answer.value;
      if |results| > 1 {
        results := Usort(results, RouteComparator(preferredRoute, DistanceSortKey));
      }
      var top := results[0];
      var distance := KmTenths(top.distance);
      if distance == 0 {
        distance := 1;
      }
      if roundUpDistance == "yes" {
        distance := CeilDiv(distance, 10) * 10;
      }
      r := Ok(ApiRoute(distance, DistanceText(distance), top.duration, top.durationText));
    }

    /** calculate_shipping: every service gets the instance settings; each
        enabled service whose cost engine quotes adds one rate. */
    method CalculateShipping(destination: string, resp: Response, items: seq<CartItem>)
      requires forall s :: s in services ==> s.Valid()
      requires RatesPossible(Kinds(services), ToMap(settings))
      modifies this, set s | s in services
      ensures settings == old(settings) && dataVersion == old(dataVersion)
      ensures rates == old(rates) + NewRates(OriginInfo(originType, originLat, originLng, originAddress),
                                             destination, resp, preferredRoute, roundUpDistance == "yes", items,
                                             Kinds(services), ToMap(settings), showDistance, instanceId)
      ensures forall s :: s in services ==> s.Valid() && s.fields == old(s.fields)
      ensures ApiRequestOutcome(OriginInfo(originType, originLat, originLng, originAddress), destination, resp,
                                preferredRoute, roundUpDistance == "yes").Ok? ==>
        forall i :: 0 <= i < |services| ==> services[i].settings == ToMap(settings)
      ensures ApiRequestOutcome(OriginInfo(originType, originLat, originLng, originAddress), destination, resp,
                                preferredRoute, roundUpDistance == "yes").Err? ==>
        forall s :: s in services ==> s.settings == old(s.settings)
    {
      var origin := OriginInfo(originType, originLat, originLng, originAddress);
      var api := ApiRequest(origin, destination, resp);
      if api.Err? {
        return;
      }
      var env := GetEnvelope(items);
      AddServiceRates(api.value, env, ToMap(settings));
    }

    /** The service loop of calculate_shipping: every service in turn gets
        the settings and adds its rate, if any. */
    method AddServiceRates(route: ApiRoute, env: Envelope, m: map<string, SettingValue>)
      requires forall s :: s in services ==> s.Valid()
      requires RatesPossible(Kinds(services), m)
      modifies this, set s | s in services
      ensures rates == old(rates) + RatesFor(Kinds(services), m, route, env, showDistance, instanceId)
      ensures settings == old(settings) && dataVersion == old(dataVersion)
      ensures forall s :: s in services ==> s.Valid() && s.fields == old(s.fields)
      ensures forall i :: 0 <= i < |services| ==> services[i].settings == m
    {
      var kinds := Kinds(services);
      for i := 0 to |services|
        invariant rates == old(rates) + RatesFor(kinds[..i], m, route, env, showDistance, instanceId)
        invariant settings == old(settings) && dataVersion == old(dataVersion)
        invariant forall s :: s in services ==> s.fields == old(s.fields)
        invariant forall j :: 0 <= j < i ==> services[j].settings == m
      {
        RatesForStep(kinds, i, m, route, env, showDistance, instanceId);
        ghost var done := RatesFor(kinds[..i], m, route, env, showDistance, instanceId);
        ghost var r := ServiceRate(kinds[i], m, route, env, showDistance, instanceId);
        ServicePass(i, route, env, m);
        assert rates == old(rates) + done + (if r.Some? then [r.value] else []);
        Helpers.ConcatAssoc(old(rates), done, if r.Some? then [r.value] else []);
      }
      assert kinds[..|services|] == kinds;
    }

    /** Pass i of the service loop, with what it leaves alone. */
    method ServicePass(i: nat, route: ApiRoute, env: Envelope, m: map<string, SettingValue>)
      requires i < |services| && services[i].Valid()
      requires Enabled(services[i].kind, m) ==> LimitsPositive(services[i].kind, m)
      requires forall j :: 0 <= j < i ==> services[j].settings == m
      modifies this, services[i]
      ensures settings == old(settings) && dataVersion == old(dataVersion)
      ensures var r := ServiceRate(services[i].kind, m, route, env, showDistance, instanceId);
        rates == old(rates) + (if r.Some? then [r.value] else [])
      ensures forall s :: s in services ==> s.fields == old(s.fields)
      ensures services[i].Valid()
      ensures forall j :: 0 <= j <= i ==> services[j].settings == m
    {
      label Pass:
      AddServiceRate(services[i], route, env, m);
      forall j | 0 <= j < i
        ensures services[j].settings == m
      {
        if services[j] != services[i] {
          assert services[j].settings == old@Pass(services[j].settings);
        }
      }
    }

    /** One pass of the service loop: the service gets the settings; when it
        is enabled and its cost engine quotes, its rate is added, labelled
        with the title (or slug), the driver count when several and the
        distance when it is to be shown. */
    method AddServiceRate(service: Service, route: ApiRoute, env: Envelope, m: map<string, SettingValue>)
      requires service.Valid()
      requires Enabled(service.kind, m) ==> LimitsPositive(service.kind, m)
      modifies this, service
      ensures service.Valid() && service.fields == old(service.fields) && service.settings == m
      ensures settings == old(settings) && dataVersion == old(dataVersion)
      ensures var r := ServiceRate(service.kind, m, route, env, showDistance, instanceId);
        rates == old(rates) + (if r.Some? then [r.value] else [])
    {
      service.SetSettings(m);
      if GetSetting(service.kind, service.settings, "enable", false) != Some(Text("yes")) {
        return;
      }
      var cost := service.CalculateCost(route.distance as real / 10.0, env, map[]);
      if cost.Failure? {
        return;
      }
      var title := GetSetting(service.kind, service.settings, "title", true);
      var rateLabel := if Truthy(title) then SettingText(title.value) else Slug(service.kind);
      var drivers := cost.drivers;
      if drivers == 0 {
        drivers := 1;
      }
      rateLabel := LabelRate(rateLabel, drivers, route.distanceText);
      rates := rates + [Rate(RateId(instanceId, Slug(service.kind)), rateLabel, cost.total, drivers, route)];
    }

    /** The rate label: the driver count when several, then the distance
        text when it is to be shown, in parentheses after the title. */
    method LabelRate(title: string, drivers: int, distanceText: string) returns (text: string)
      ensures text == RateLabel(title, drivers, distanceText, showDistance)
    {
      var extras: seq<string> := [];
      if drivers > 1 {
        extras := extras + [IntToString(drivers) + " drivers"];
      }
      if showDistance == "yes" {
        extras := extras + [distanceText];
      }
      text := title;
      if extras != [] {
        text := text + " (" + Join(extras, ", ") + ")";
      }
    }
  }

  /** A settings migration: its version and option sets, read from the
      shipping method it is attached to. */
  class Migration {
    const kind: MigrationKind
    var wcShipping: ShippingMethod?

    /** The shipping method is attached only when one is given. */
    constructor (kind: MigrationKind, wcShipping: ShippingMethod?)
      ensures this.kind == kind && this.wcShipping == wcShipping
    {
      this.kind := kind;
      this.wcShipping := null;
      new;
      if wcShipping != null {
        SetInstance(wcShipping);
      }
    }

    /** set_instance: replaces the attached shipping method. */
    method SetInstance(wcShipping: ShippingMethod?)
      modifies this
      ensures this.wcShipping == wcShipping
    {
      this.wcShipping := wcShipping;
    }

    /** get_update_options: nothing for the base class and 1.3.0; for 1.4.0
        the split API keys, read from the attached instance settings. */
    method GetUpdateOptions() returns (r: Settings)
      ensures r == UpdateOptions(kind, if wcShipping == null then None else Some(wcShipping.settings))
      ensures kind == V130 ==> r == []
    {
      if kind == V130 {
        return [];
      }
      var s := if wcShipping == null then [] else wcShipping.settings;
      var apiKey := GetOr(s, "api_key", Text(""));
      var apiKeySplit := GetOr(s, "api_key_split", Text("no"));
      var apiKeyServer := GetOr(s, "api_key_server", Text(""));
      if apiKeySplit == Text("yes") {
        r := [("api_key", apiKeyServer), ("api_key_picker", apiKey)];
      } else {
        r := [("api_key_picker", apiKey)];
      }
    }

    /** get_delete_options: nothing for the base class and 1.3.0; for 1.4.0
        the two keys the split replaced. */
    method GetDeleteOptions() returns (r: seq<string>)
      ensures r == DeleteOptions(kind)
      ensures kind == V130 ==> r == []
      ensures kind == V140 ==> r == ["api_key_split", "api_key_server"]
    {
      if kind == V130 {
        r := [];
      } else {
        r := ["api_key_split", "api_key_server"];
      }
    }
  }
}

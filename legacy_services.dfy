/** The older cost engine, keyed by a service id string instead of a service
    object. A missing setting falls back to `$data['default'][key]`, but the
    service data has no top-level "default" entry, so the fallback is null;
    `Fallback` lets the model state both that behaviour and the evidently
    intended one, the service's own default. */
module LegacyServices {
  import opened Values
  import opened OrderedMap
  import opened Services

  /** One entry of get_data: a label and the default settings. */
  datatype ServiceData = ServiceData(name: string, defaults: map<string, SettingValue>)

  /** get_data: the two known services, in order. */
  function Data(): seq<(string, ServiceData)> {
    [
      ("instant", ServiceData("Instant Delivery", map[
        "per_km_cost" := Number(2500),
        "per_km_min_distance" := Number(0),
        "min_cost" := Number(25000),
        "max_cost" := Number(0),
        "max_weight" := Number(20),
        "max_width" := Number(70),
        "max_length" := Number(50),
        "max_height" := Number(50),
        "max_distance" := Number(40)
      ])),
      ("same_day", ServiceData("Same Day Delivery", map[
        "per_km_cost" := Number(2500),
        "per_km_min_distance" := Number(15),
        "min_cost" := Number(15000),
        "max_cost" := Number(25000),
        "max_weight" := Number(7),
        "max_width" := Number(40),
        "max_length" := Number(40),
        "max_height" := Number(17),
        "max_distance" := Number(40)
      ]))
    ]
  }

  /** The data has exactly the keys "instant" and "same_day", and their
      defaults are the ones the per-service classes declare. */
  lemma DataContents()
    ensures Keys(Data()) == {"instant", "same_day"}
    ensures DistinctKeys(Data())
    ensures Get(Data(), "instant") == Some(ServiceData("Instant Delivery", Defaults(Instant)))
    ensures Get(Data(), "same_day") == Some(ServiceData("Same Day Delivery", Defaults(SameDay)))
    ensures Slug(Instant) == "instant" && Slug(SameDay) == "same_day"
  {
    var d := Data();
    assert d[1..][1..] == [];
    assert Keys(d[1..]) == {"same_day"};
    GetAt(d, "same_day", 1);
  }

  /** Where a missing setting is looked up. */
  datatype Fallback =
    | TopLevelDefault  // `$data['default'][key]`, as written: always null
    | ServiceDefault   // the service's own default

  /** The setting `<key>_<id>`, or the fallback. */
  function LegacySetting(fb: Fallback, id: string, settings: map<string, SettingValue>, key: string): Option<SettingValue> {
    var fk := key + "_" + id;
    if fk in settings then Some(settings[fk])
    else match fb
      case TopLevelDefault =>
        // Data() has no "default" key: the lookup reads null.
        None
      case ServiceDefault =>
        match Get(Data(), id)
        case Some(sd) => if key in sd.defaults then Some(sd.defaults[key]) else None
        case None => None
  }

  function LegacyNum(fb: Fallback, id: string, settings: map<string, SettingValue>, key: string): int {
    IntOf(LegacySetting(fb, id, settings, key))
  }

  function LegacyMaxDimension(fb: Fallback, id: string, settings: map<string, SettingValue>): int {
    LegacyNum(fb, id, settings, "max_width") * LegacyNum(fb, id, settings, "max_length") * LegacyNum(fb, id, settings, "max_height")
  }

  predicate LegacyLimitsPositive(fb: Fallback, id: string, settings: map<string, SettingValue>) {
    LegacyNum(fb, id, settings, "max_weight") > 0 && LegacyMaxDimension(fb, id, settings) > 0
  }

  /** The envelope volume, without the (int) casts of the newer engine. */
  function RealDimension(env: Envelope): real {
    env.width * env.length * env.height
  }

  function LegacyDrivers(fb: Fallback, id: string, settings: map<string, SettingValue>, env: Envelope): int
    requires LegacyLimitsPositive(fb, id, settings)
  {
    MaxInt(Ceil(env.weight / LegacyNum(fb, id, settings, "max_weight") as real),
           Ceil(RealDimension(env) / LegacyMaxDimension(fb, id, settings) as real))
  }

  /** The stored multiple-drivers flag; it has no default in either variant. */
  function StoredFlag(id: string, settings: map<string, SettingValue>): Option<SettingValue> {
    var fk := "multiple_drivers_" + id;
    if fk in settings then Some(settings[fk]) else None
  }

  predicate LegacyMultiDriverMode(fb: Fallback, id: string, settings: map<string, SettingValue>, env: Envelope)
    requires LegacyLimitsPositive(fb, id, settings)
  {
    MultipleDrivers(StoredFlag(id, settings), env.quantity, LegacyDrivers(fb, id, settings, env))
  }

  function LegacyPerDriverTotal(fb: Fallback, id: string, settings: map<string, SettingValue>, distance: real): real {
    Clamp(PerKmCharge(distance, AbsInt(LegacySetting(fb, id, settings, "per_km_cost")),
                      AbsInt(LegacySetting(fb, id, settings, "per_km_min_distance"))),
          AbsInt(LegacySetting(fb, id, settings, "min_cost")), AbsInt(LegacySetting(fb, id, settings, "max_cost")))
  }

  const InvalidServiceId := "invalid_service_id"

  /** calculate_cost(service_id, distance, envelope, settings). */
  function LegacyCost(fb: Fallback, id: string, distance: real, env: Envelope, settings: map<string, SettingValue>): CostResult
    requires id in Keys(Data()) ==> LegacyLimitsPositive(fb, id, settings)
  {
    if id !in Keys(Data()) then
      Failure(InvalidServiceId, "Invalid service ID: " + id)
    else
      var maxDistance := LegacySetting(fb, id, settings, "max_distance");
      if Truthy(maxDistance) && distance > IntOf(maxDistance) as real then
        Failure(MaxDistanceExceeded, "Shipping distance exceeded the maximum setting: " + id)
      else if !LegacyMultiDriverMode(fb, id, settings, env) && env.weight > LegacyNum(fb, id, settings, "max_weight") as real then
        Failure(MaxWeightExceeded, "Package weight exceeded the maximum setting: " + id)
      else if !LegacyMultiDriverMode(fb, id, settings, env) && RealDimension(env) > LegacyMaxDimension(fb, id, settings) as real then
        Failure(MaxDimensionExceeded, "Package dimension exceeded the maximum setting: " + id)
      else
        var drivers := LegacyDrivers(fb, id, settings, env);
        var total := LegacyPerDriverTotal(fb, id, settings, distance);
        DriverQuote(total, drivers)
  }

  /** An unknown service id is refused before anything else is looked at. */
  lemma UnknownServiceRefused(fb: Fallback, id: string, distance: real, env: Envelope, settings: map<string, SettingValue>)
    requires id != "instant" && id != "same_day"
    ensures LegacyCost(fb, id, distance, env, settings) == Failure(InvalidServiceId, "Invalid service ID: " + id)
  {
    DataContents();
  }

  /** Multiple-driver mode is on only for a stored "yes", several items and no
      more drivers than items; with it off the weight is checked first. */
  lemma LegacyWeightCheckedFirst(fb: Fallback, id: string, distance: real, env: Envelope, settings: map<string, SettingValue>)
    requires id in Keys(Data()) && LegacyLimitsPositive(fb, id, settings)
    requires "multiple_drivers_" + id !in settings
    requires !(Truthy(LegacySetting(fb, id, settings, "max_distance"))
               && distance > IntOf(LegacySetting(fb, id, settings, "max_distance")) as real)
    requires env.weight > LegacyNum(fb, id, settings, "max_weight") as real
    ensures LegacyCost(fb, id, distance, env, settings) == Failure(MaxWeightExceeded, "Package weight exceeded the maximum setting: " + id)
  {
  }

  /** An envelope whose measures are whole numbers. */
  predicate Integral(env: Envelope) {
    env.weight == env.weight.Floor as real && env.width == env.width.Floor as real
    && env.length == env.length.Floor as real && env.height == env.height.Floor as real
  }

  /** The service-default fallback reads exactly what the newer engine reads. */
  lemma ServiceDefaultIsGetSetting(kind: ServiceKind, settings: map<string, SettingValue>, key: string)
    ensures LegacySetting(ServiceDefault, Slug(kind), settings, key) == GetSetting(kind, settings, key, true)
  {
    DataContents();
  }

  /** The stored flag is what the newer engine reads, since no service has a
      default for it. */
  lemma FlagIsGetSetting(kind: ServiceKind, settings: map<string, SettingValue>)
    ensures StoredFlag(Slug(kind), settings) == GetSetting(kind, settings, "multiple_drivers", true)
  {
    assert FieldKey(kind, "multiple_drivers") == "multiple_drivers_" + Slug(kind);
  }

  lemma LimitsAgree(kind: ServiceKind, settings: map<string, SettingValue>)
    ensures LegacyNum(ServiceDefault, Slug(kind), settings, "max_weight") == NumSetting(kind, settings, "max_weight")
    ensures LegacyMaxDimension(ServiceDefault, Slug(kind), settings) == MaxDimension(kind, settings)
  {
    ServiceDefaultIsGetSetting(kind, settings, "max_weight");
    ServiceDefaultIsGetSetting(kind, settings, "max_width");
    ServiceDefaultIsGetSetting(kind, settings, "max_length");
    ServiceDefaultIsGetSetting(kind, settings, "max_height");
  }

  lemma TotalsAgree(kind: ServiceKind, settings: map<string, SettingValue>, distance: real)
    ensures LegacyPerDriverTotal(ServiceDefault, Slug(kind), settings, distance) == PerDriverTotal(kind, settings, distance)
  {
    ServiceDefaultIsGetSetting(kind, settings, "per_km_cost");
    ServiceDefaultIsGetSetting(kind, settings, "per_km_min_distance");
    ServiceDefaultIsGetSetting(kind, settings, "min_cost");
    ServiceDefaultIsGetSetting(kind, settings, "max_cost");
  }

  lemma DriversAgree(kind: ServiceKind, settings: map<string, SettingValue>, env: Envelope)
    requires Integral(env)
    requires LimitsPositive(kind, settings)
    ensures LegacyLimitsPositive(ServiceDefault, Slug(kind), settings)
    ensures LegacyDrivers(ServiceDefault, Slug(kind), settings, env) == Drivers(kind, settings, env)
  {
    LimitsAgree(kind, settings);
    IntegralCasts(env);
    CeilDivIsCeil(EnvWeight(env), NumSetting(kind, settings, "max_weight"));
    CeilDivIsCeil(EnvDimension(env), MaxDimension(kind, settings));
  }

  lemma KnownSlug(kind: ServiceKind)
    ensures Slug(kind) in Keys(Data())
  {
    DataContents();
  }

  /** The three refusal tests of the two engines agree. */
  lemma GuardsAgree(kind: ServiceKind, distance: real, env: Envelope, settings: map<string, SettingValue>)
    requires Integral(env)
    requires LimitsPositive(kind, settings)
    ensures LegacyLimitsPositive(ServiceDefault, Slug(kind), settings)
    ensures (Truthy(LegacySetting(ServiceDefault, Slug(kind), settings, "max_distance"))
             && distance > IntOf(LegacySetting(ServiceDefault, Slug(kind), settings, "max_distance")) as real)
            == TooFar(kind, settings, distance)
    ensures LegacyMultiDriverMode(ServiceDefault, Slug(kind), settings, env) == MultiDriverMode(kind, settings, env)
    ensures (env.weight > LegacyNum(ServiceDefault, Slug(kind), settings, "max_weight") as real)
            == (EnvWeight(env) > NumSetting(kind, settings, "max_weight"))
    ensures (RealDimension(env) > LegacyMaxDimension(ServiceDefault, Slug(kind), settings) as real)
            == (EnvDimension(env) > MaxDimension(kind, settings))
  {
    ServiceDefaultIsGetSetting(kind, settings, "max_distance");
    FlagIsGetSetting(kind, settings);
    LimitsAgree(kind, settings);
    DriversAgree(kind, settings, env);
    IntegralCasts(env);
  }

  /** With the service-default fallback, the older engine computes what the
      newer one does, on envelopes of whole numbers (the newer engine casts the
      envelope to integers first). */
  lemma IntendedMatchesCurrent(kind: ServiceKind, distance: real, env: Envelope, settings: map<string, SettingValue>)
    requires Integral(env)
    requires LimitsPositive(kind, settings)
    ensures Slug(kind) in Keys(Data()) && LegacyLimitsPositive(ServiceDefault, Slug(kind), settings)
    ensures LegacyCost(ServiceDefault, Slug(kind), distance, env, settings) == Cost(kind, settings, distance, env)
  {
    KnownSlug(kind);
    GuardsAgree(kind, distance, env, settings);
    DriversAgree(kind, settings, env);
    TotalsAgree(kind, settings, distance);
  }

  /** As written, a missing setting reads null instead of the service default,
      so with no stored settings the driver count divides by zero; with the
      service defaults it does not. */
  lemma NoSettingsDivideByZero()
    ensures !LegacyLimitsPositive(TopLevelDefault, "instant", map[])
    ensures LegacyLimitsPositive(ServiceDefault, "instant", map[])
  {
    DataContents();
    assert LegacySetting(ServiceDefault, "instant", map[], "max_weight") == Some(Number(20));
    assert LegacySetting(ServiceDefault, "instant", map[], "max_width") == Some(Number(70));
    assert LegacySetting(ServiceDefault, "instant", map[], "max_length") == Some(Number(50));
    assert LegacySetting(ServiceDefault, "instant", map[], "max_height") == Some(Number(50));
  }

  /** Stored size limits for the instant service, but no distance limit. */
  function LimitsOnly(): map<string, SettingValue> {
    map["max_weight_instant" := Number(20), "max_width_instant" := Number(70),
        "max_length_instant" := Number(50), "max_height_instant" := Number(50)]
  }

  lemma LimitsOnlyReads(fb: Fallback)
    ensures LegacyNum(fb, "instant", LimitsOnly(), "max_weight") == 20
    ensures LegacyMaxDimension(fb, "instant", LimitsOnly()) == 175000
    ensures "max_distance_instant" !in LimitsOnly()
    ensures "multiple_drivers_instant" !in LimitsOnly()
  {
    assert "max_weight" + "_" + "instant" == "max_weight_instant";
    assert "max_width" + "_" + "instant" == "max_width_instant";
    assert "max_length" + "_" + "instant" == "max_length_instant";
    assert "max_height" + "_" + "instant" == "max_height_instant";
  }

  /** As written, with the size limits stored but no distance limit, a 100 km
      delivery of a small parcel is quoted for nothing: the distance limit and
      every cost setting read null. */
  lemma TopLevelFallbackQuotesFarDelivery()
    ensures LegacyLimitsPositive(TopLevelDefault, "instant", LimitsOnly())
    ensures LegacyCost(TopLevelDefault, "instant", 100.0, Envelope(1.0, 1.0, 1.0, 1.0, 1), LimitsOnly()) == Quote(0.0, 1)
  {
    LimitsOnlyReads(TopLevelDefault);
    InstantKnown();
    TopLevelReadsNull();
    assert LegacyDrivers(TopLevelDefault, "instant", LimitsOnly(), Envelope(1.0, 1.0, 1.0, 1.0, 1)) == 1;
  }

  lemma InstantKnown()
    ensures "instant" in Keys(Data())
  {
    DataContents();
  }

  /** Every unstored setting reads null under the as-written fallback. */
  lemma TopLevelReadsNull()
    ensures LegacySetting(TopLevelDefault, "instant", LimitsOnly(), "max_distance") == None
    ensures LegacyPerDriverTotal(TopLevelDefault, "instant", LimitsOnly(), 100.0) == 0.0
  {
    var settings := LimitsOnly();
    assert "max_distance" + "_" + "instant" !in settings;
    assert "per_km_cost" + "_" + "instant" !in settings;
    assert "per_km_min_distance" + "_" + "instant" !in settings;
    assert "min_cost" + "_" + "instant" !in settings;
    assert "max_cost" + "_" + "instant" !in settings;
  }

  /** With the service defaults the same request is refused, since the
      instant service allows at most 40 km. */
  lemma ServiceFallbackRefusesFarDelivery()
    ensures LegacyLimitsPositive(ServiceDefault, "instant", LimitsOnly())
    ensures LegacyCost(ServiceDefault, "instant", 100.0, Envelope(1.0, 1.0, 1.0, 1.0, 1), LimitsOnly())
            == Failure(MaxDistanceExceeded, "Shipping distance exceeded the maximum setting: instant")
  {
    LimitsOnlyReads(ServiceDefault);
    DataContents();
    assert "max_distance" + "_" + "instant" == "max_distance_instant";
    assert LegacySetting(ServiceDefault, "instant", LimitsOnly(), "max_distance") == Some(Number(40));
  }

  /** On whole numbers the (int) casts change nothing. */
  lemma IntegralCasts(env: Envelope)
    requires Integral(env)
    ensures EnvWeight(env) as real == env.weight
    ensures EnvDimension(env) as real == RealDimension(env)
  {
    TruncWhole(env.weight);
    TruncWhole(env.width);
    TruncWhole(env.length);
    TruncWhole(env.height);
  }

  lemma TruncWhole(r: real)
    requires r == r.Floor as real
    ensures Trunc(r) as real == r
  {
    if r < 0.0 {
      assert (-r).Floor == -(r.Floor);
    }
  }

  // ---------------------------------------------------------------------
  // get_fields
  // ---------------------------------------------------------------------

  /** The setting-field keys of the older engine, in their declared order. */
  const LegacyRawKeys: seq<string> := ["enable", "title", "per_km_cost", "per_km_min_distance",
    "min_cost", "max_cost", "max_weight", "max_width", "max_length", "max_height",
    "max_distance", "multiple_drivers"]

  /** The fields of one service, under their suffixed keys. */
  datatype ServiceFields = ServiceFields(name: string, fields: seq<(string, Field)>)

  /** The field for a raw key: the title defaults to "GoSend - <label>", other
      fields to the service default when it has one and to none otherwise. */
  function LegacyFieldFor(sd: ServiceData, key: string): Field {
    if key == "title" then Field(Some(Text("GoSend - " + sd.name)))
    else if key in sd.defaults then Field(Some(sd.defaults[key]))
    else Field(None)
  }

  function LegacyFieldEntries(id: string, sd: ServiceData, keys: seq<string>): seq<(string, Field)>
    decreases |keys|
  {
    if keys == [] then []
    else LegacyFieldEntries(id, sd, keys[..|keys| - 1])
         + [(keys[|keys| - 1] + "_" + id, LegacyFieldFor(sd, keys[|keys| - 1]))]
  }

  /** The table of services built by get_fields, for the given services. */
  function LegacyServiceTable(data: seq<(string, ServiceData)>): seq<(string, ServiceFields)>
    decreases |data|
  {
    if data == [] then []
    else
      var last := data[|data| - 1];
      LegacyServiceTable(data[..|data| - 1])
      + [(last.0, ServiceFields(last.1.name, LegacyFieldEntries(last.0, last.1, LegacyRawKeys)))]
  }

  /** get_fields: for every service, its raw fields under `<key>_<id>` with
      their defaults, built with two nested loops. */
  method GetFields() returns (fields: seq<(string, ServiceFields)>)
    ensures fields == LegacyServiceTable(Data())
  {
    var data := Data();
    DataContents();
    fields := [];
    for s := 0 to |data|
      invariant fields == LegacyServiceTable(data[..s])
      invariant Keys(fields) == Keys(data[..s])
    {
      var (id, sd) := data[s];
      var serviceFields: seq<(string, Field)> := [];
      for i := 0 to |LegacyRawKeys|
        invariant serviceFields == LegacyFieldEntries(id, sd, LegacyRawKeys[..i])
      {
        var key := LegacyRawKeys[i];
        LegacyFreshKey(id, sd, i);
        serviceFields := Put(serviceFields, key + "_" + id, LegacyFieldFor(sd, key));
        assert LegacyRawKeys[..i + 1][..i] == LegacyRawKeys[..i];
      }
      assert LegacyRawKeys[..|LegacyRawKeys|] == LegacyRawKeys;
      ServiceFresh(s);
      KeysPrefixStep(data, s);
      fields := Put(fields, id, ServiceFields(sd.name, serviceFields));
      assert data[..s + 1][..s] == data[..s];
      KeysAppend(fields[..|fields| - 1], [fields[|fields| - 1]]);
    }
    assert data[..|data|] == data;
  }

  lemma ServiceFresh(s: nat)
    requires s < |Data()|
    ensures Data()[s].0 !in Keys(Data()[..s])
  {
    if s == 1 {
      assert Data()[..1] == [Data()[0]];
      assert Keys(Data()[..1]) == {"instant"};
    }
  }

  lemma {:induction false} LegacyFieldEntriesFacts(id: string, sd: ServiceData, keys: seq<string>)
    ensures |LegacyFieldEntries(id, sd, keys)| == |keys|
    ensures forall i :: 0 <= i < |keys| ==> LegacyFieldEntries(id, sd, keys)[i] == (keys[i] + "_" + id, LegacyFieldFor(sd, keys[i]))
    ensures Keys(LegacyFieldEntries(id, sd, keys)) == set k | k in keys :: k + "_" + id
    decreases |keys|
  {
    if keys != [] {
      var init := keys[..|keys| - 1];
      LegacyFieldEntriesFacts(id, sd, init);
      KeysAppend(LegacyFieldEntries(id, sd, init), [(keys[|keys| - 1] + "_" + id, LegacyFieldFor(sd, keys[|keys| - 1]))]);
      assert keys == init + [keys[|keys| - 1]];
    }
  }

  lemma SuffixInjective(a: string, b: string, id: string)
    ensures a + "_" + id == b + "_" + id <==> a == b
  {
    if a + "_" + id == b + "_" + id {
      assert |a| == |b|;
      assert a == (a + "_" + id)[..|a|];
      assert b == (b + "_" + id)[..|b|];
    }
  }

  lemma LegacyFreshKey(id: string, sd: ServiceData, i: nat)
    requires i < |LegacyRawKeys|
    ensures LegacyRawKeys[i] + "_" + id !in Keys(LegacyFieldEntries(id, sd, LegacyRawKeys[..i]))
  {
    LegacyFieldEntriesFacts(id, sd, LegacyRawKeys[..i]);
    forall k | k in LegacyRawKeys[..i]
      ensures k + "_" + id != LegacyRawKeys[i] + "_" + id
    {
      SuffixInjective(k, LegacyRawKeys[i], id);
    }
  }

  /** Each service's table holds every raw key suffixed with the service id,
      the title defaulting to "GoSend - <label>", and the checkboxes (which
      have no service default) without a default. */
  lemma LegacyFieldsContents(id: string, sd: ServiceData)
    ensures |LegacyFieldEntries(id, sd, LegacyRawKeys)| == |LegacyRawKeys|
    ensures forall i :: 0 <= i < |LegacyRawKeys| ==>
      LegacyFieldEntries(id, sd, LegacyRawKeys)[i].0 == LegacyRawKeys[i] + "_" + id
    ensures Get(LegacyFieldEntries(id, sd, LegacyRawKeys), "title_" + id) == Some(Field(Some(Text("GoSend - " + sd.name))))
    ensures "enable" !in sd.defaults ==>
      Get(LegacyFieldEntries(id, sd, LegacyRawKeys), "enable_" + id) == Some(Field(None))
  {
    var fs := LegacyFieldEntries(id, sd, LegacyRawKeys);
    LegacyFieldEntriesFacts(id, sd, LegacyRawKeys);
    assert "title" + "_" + id == "title_" + id;
    assert "enable" + "_" + id == "enable_" + id;
    SuffixInjective("enable", "title", id);
    GetAt(fs, "enable_" + id, 0);
    GetAt(fs, "title_" + id, 1);
  }
}
